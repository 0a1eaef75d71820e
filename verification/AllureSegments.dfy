/** Whole stretches of a log, call by call: a hook inside a live test, and a test from its start to its end. */
module AllureSegments {
  import opened Wrappers
  import opened AllureMessages
  import opened AllureReplay
  import opened AllureHookBuffer

  /** The state after some messages none of which is the last of the log. */
  function Steps(feature: bool, s: Replay, ms: seq<Message>): Replay {
    if ms == [] then s else Step(feature, false, Steps(feature, s, Front(ms)), Last(ms))
  }

  lemma {:induction false} StepsConcat(feature: bool, s: Replay, a: seq<Message>, b: seq<Message>)
    ensures Steps(feature, s, a + b) == Steps(feature, Steps(feature, s, a), b)
    decreases |b|
  {
    hide Step;
    if b == [] {
      assert a + b == a;
    } else {
      assert Front(a + b) == a + Front(b);
      StepsConcat(feature, s, a, Front(b));
    }
  }

  lemma StepsOne(feature: bool, s: Replay, m: Message)
    ensures Steps(feature, s, [m]) == Step(feature, false, s, m)
  {
    assert Front([m]) == [];
  }

  // ----- A live hook

  lemma {:induction false} LiveBody(feature: bool, s: Replay, body: seq<Message>)
    requires IsBody(body) && s.fixtures != []
    ensures Steps(feature, s, body) == ReplayBody(s, Last(s.fixtures), body)
    ensures Steps(feature, s, body).fixtures == s.fixtures
    decreases |body|
  {
    if body != [] {
      LiveBody(feature, s, Front(body));
    }
  }

  lemma BodyLeaves(s: Replay, f: nat, body: seq<Message>)
    requires IsBody(body) && f in s.openHookSteps && s.openHookSteps[f] == 0
    ensures ReplayBody(s, f, body).current == s.current && ReplayBody(s, f, body).fixtures == s.fixtures
  {
    BodyReplayed(s, f, body);
  }

  /**
    A hook that runs while a test is live makes exactly the calls that `AttachReplaysFirstBlock` states for a hook
    taken from the buffer: buffering a hook changes when it is replayed, not how.
   */
  lemma LiveHookCalls(feature: bool, s: Replay, b: Block)
    requires IsBody(b.body) && !AfterAll(b.name)
    requires s.current.Some? && s.scopes != [] && s.fixtures == []
    ensures
      var t := Steps(feature, s, BlockText(b));
      t == s.(trace := s.trace + FixtureCalls(b, s.nextFixture, Last(s.scopes), s.current.value),
              nextFixture := s.nextFixture + 1, openHookSteps := t.openHookSteps, hookMeta := t.hookMeta)
  {
    hide FixtureCalls, Steps, ReplayBody;
    var s1 := StartHook(s, b.name, b.kind, b.start);
    StepsConcat(feature, s, [HookStart(b.name, b.kind, b.start)] + b.body, [HookEnd(b.outcome)]);
    StepsConcat(feature, s, [HookStart(b.name, b.kind, b.start)], b.body);
    StepsOne(feature, s, HookStart(b.name, b.kind, b.start));
    assert s1 == BeginFixture(s, b.name, b.kind, b.start);
    LiveBody(feature, s1, b.body);
    BodyLeaves(s1, s.nextFixture, b.body);
    StepsOne(feature, AttachBody(s1, b.body), HookEnd(b.outcome));
    RunsFixture(s, b);
  }

  // ----- A hook with no live test

  lemma {:induction false} WaitingBody(feature: bool, s: Replay, body: seq<Message>)
    requires IsBody(body) && s.fixtures == [] && s.current.None? && s.capturing
    ensures Steps(feature, s, body) == s.(pending := s.pending + body)
    decreases |body|
  {
    hide Step;
    if body == [] {
      assert s.pending + body == s.pending;
    } else {
      WaitingBody(feature, s, Front(body));
      DeliverWaiting(feature, s.(pending := s.pending + Front(body)), Last(body));
      assert s.pending + Front(body) + [Last(body)] == s.pending + body;
    }
  }

  lemma DeliverWaiting(feature: bool, s: Replay, m: Message)
    requires IsRuntime(m) && s.fixtures == [] && s.current.None? && s.capturing
    ensures Step(feature, false, s, m) == s.(pending := s.pending + [m])
  {
  }

  /** Steps and labels outside any test or hook make no call and are not kept. */
  lemma {:induction false} NothingOpenNothingKept(feature: bool, s: Replay, body: seq<Message>)
    requires IsBody(body) && s.fixtures == [] && s.current.None? && !s.capturing
    ensures Steps(feature, s, body) == s
    decreases |body|
  {
    if body != [] {
      NothingOpenNothingKept(feature, s, Front(body));
    }
  }

  /** A hook that runs while no test is live makes no call: it becomes the last block of the buffer, with everything
      that came inside it. */
  lemma {:induction false} WaitingHookIsBuffered(feature: bool, s: Replay, bs: seq<Block>, b: Block)
    requires IsBody(b.body) && s.current.None? && s.fixtures == [] && s.pending == Flatten(bs) && !s.capturing
    ensures Steps(feature, s, BlockText(b)) == s.(pending := Flatten(bs + [b]))
  {
    hide Flatten, Steps;
    var start := HookStart(b.name, b.kind, b.start);
    StepsConcat(feature, s, [start] + b.body, [HookEnd(b.outcome)]);
    StepsConcat(feature, s, [start], b.body);
    StepsOne(feature, s, start);
    var s1 := Queue(s, start, true);
    assert Step(feature, false, s, start) == s1;
    WaitingBody(feature, s1, b.body);
    var s2 := s1.(pending := s1.pending + b.body);
    StepsOne(feature, s2, HookEnd(b.outcome));
    FlattenConcat(bs, [b]);
    FlattenOne(b);
    assert s.pending + [start] + b.body + [HookEnd(b.outcome)] == s.pending + BlockText(b);
  }

  // ----- A whole test

  /** What the reporter writes inside a test besides hooks: steps, labels and the full name. */
  ghost predicate IsTestBody(body: seq<Message>) {
    forall i :: 0 <= i < |body| ==>
      body[i].StepStart? || body[i].StepStop? || body[i].Other? || body[i].TestInfo?
  }

  function TestCall(t: nat, m: Message): Call {
    if m.TestInfo? then SetTestName(t, m.fullName) else Applied(OnTest(t), m)
  }

  function CallsInTest(t: nat, body: seq<Message>): seq<Call> {
    seq(|body|, i requires 0 <= i < |body| => TestCall(t, body[i]))
  }

  /** Everything the runtime is told about one test: its own scope, the messages in order, full names among them, stops
      for the steps left open, its scope written, its status, its stop. */
  function TestLife(t: nat, name: string, start: int, outer: seq<nat>, own: nat, body: seq<Message>,
                    o: Outcome): seq<Call> {
    [StartScope(own), StartTest(t, name, start, outer + [own])] + CallsInTest(t, body)
    + StopCalls(OnTest(t), HeightOf(body), o) + [WriteScope(own), SetTestStatus(t, o), StopTest(t, o)]
  }

  lemma TestMessage(feature: bool, s: Replay, m: Message)
    requires (IsRuntime(m) || m.TestInfo?) && s.fixtures == []
    requires s.executables != [] && s.current == Some(Last(s.executables))
    ensures Step(feature, false, s, m) ==
            s.(trace := s.trace + [TestCall(s.current.value, m)], openSteps := Count(s.openSteps, m))
  {
  }

  lemma {:induction false} TestBody(feature: bool, s: Replay, body: seq<Message>)
    requires IsTestBody(body) && s.fixtures == [] && s.openSteps == 0
    requires s.executables != [] && s.current == Some(Last(s.executables))
    ensures Steps(feature, s, body) ==
            s.(trace := s.trace + CallsInTest(s.current.value, body), openSteps := HeightOf(body))
    decreases |body|
  {
    hide Step;
    if body == [] {
      assert s.trace + CallsInTest(s.current.value, body) == s.trace;
    } else {
      TestBody(feature, s, Front(body));
      TestMessage(feature, Steps(feature, s, Front(body)), Last(body));
      assert s.trace + CallsInTest(s.current.value, body) ==
             (s.trace + CallsInTest(s.current.value, Front(body))) + [TestCall(s.current.value, Last(body))];
    }
  }

  lemma TestEndCalls(s: Replay, t: nat, own: nat, body: seq<Message>, o: Outcome)
    requires s.current == Some(t) && s.openSteps == HeightOf(body)
    requires s.executables != [] && Last(s.executables) == t && s.scopes != [] && Last(s.scopes) == own
    ensures EndTest(s, o) ==
            s.(scopes := Front(s.scopes), executables := Front(s.executables), openSteps := 0,
               trace := s.trace + (Stops(OnTest(t), HeightOf(body), o)
                                   + [WriteScope(own), SetTestStatus(t, o), StopTest(t, o)]))
  {
    assert s.trace + Stops(OnTest(t), HeightOf(body), o)
           + [WriteScope(own)] + [SetTestStatus(t, o)] + [StopTest(t, o)] ==
           s.trace + (Stops(OnTest(t), HeightOf(body), o) + [WriteScope(own), SetTestStatus(t, o), StopTest(t, o)]);
  }

  /** The test that is still to be written, if there is one, is written first. */
  function WritesOf(current: Option<nat>): seq<Call> {
    if current.Some? then [WriteTest(current.value)] else []
  }

  lemma WritesLast(s: Replay)
    ensures WriteLastTest(s).trace == s.trace + WritesOf(s.current)
  {
  }

  /** A test with steps, labels and full names inside and no hooks waiting: the calls made, in full, after the previous
      test has been written; the scope stack and the running tests are as before. */
  lemma {:induction false} WholeTestCalls(feature: bool, s: Replay, name: string, start: int, body: seq<Message>,
                                          o: Outcome)
    requires IsTestBody(body) && s.fixtures == [] && s.pending == []
    ensures
      Steps(feature, s, [TestStart(name, start)] + body + [TestEnd(o)]) ==
      s.(trace := s.trace + WritesOf(s.current) + TestLife(s.nextTest, name, start, s.scopes, s.nextScope, body, o),
         current := Some(s.nextTest), openSteps := 0, nextScope := s.nextScope + 1, nextTest := s.nextTest + 1)
  {
    hide Steps, BeginTest, EndTest, CallsInTest, Stops, WriteLastTest;
    var t, own := s.nextTest, s.nextScope;
    StepsConcat(feature, s, [TestStart(name, start)] + body, [TestEnd(o)]);
    StepsConcat(feature, s, [TestStart(name, start)], body);
    StepsOne(feature, s, TestStart(name, start));
    var s1 := BeginTest(s, name, start);
    TestBegun(s, name, start);
    TestBody(feature, s1, body);
    var s2 := Steps(feature, s1, body);
    StepsOne(feature, s2, TestEnd(o));
    TestEndCalls(s2, t, own, body, o);
    StopsAre(OnTest(t), HeightOf(body), o);
    WritesLast(s);
    assert Front(s.scopes + [own]) == s.scopes && Front(s.executables + [t]) == s.executables;
    var w, a := WriteLastTest(s).trace, [StartScope(own), StartTest(t, name, start, s.scopes + [own])];
    Parts(w, a, CallsInTest(t, body), Stops(OnTest(t), HeightOf(body), o),
      [WriteScope(own), SetTestStatus(t, o), StopTest(t, o)]);
  }

  lemma Parts(w: seq<Call>, a: seq<Call>, b: seq<Call>, c: seq<Call>, d: seq<Call>)
    ensures w + a + b + (c + d) == w + (a + b + c + d)
  {
  }

  lemma TestBegun(s: Replay, name: string, start: int)
    ensures BeginTest(s, name, start) ==
            s.(trace := WriteLastTest(s).trace
                        + [StartScope(s.nextScope), StartTest(s.nextTest, name, start, s.scopes + [s.nextScope])],
               scopes := s.scopes + [s.nextScope], executables := s.executables + [s.nextTest],
               current := Some(s.nextTest), openSteps := 0, nextScope := s.nextScope + 1, nextTest := s.nextTest + 1)
  {
    var w := WriteLastTest(s).trace;
    assert w + [StartScope(s.nextScope)] + [StartTest(s.nextTest, name, start, s.scopes + [s.nextScope])] ==
           w + [StartScope(s.nextScope), StartTest(s.nextTest, name, start, s.scopes + [s.nextScope])];
  }
}
