/** Failing hooks, from the events to the runtime calls: the hook is shown as broken, and so is the test that stands for
    the failure when no test is pending. */
module AllureFailures {
  import opened Wrappers
  import opened AllureMessages
  import opened AllureProducer
  import opened AllureEpisodes
  import R = AllureReplay
  import B = AllureHookBuffer
  import G = AllureSegments
  import A = AllureAttaches

  /** The messages of a hook that was logged and fails while no test is pending. */
  ghost function FailureMessages(log: seq<Message>, h: Hook, es: seq<Event>, end: Hook): seq<Message> {
    [HookStart(TitleOf(h), KindOf(log, h), h.start)] + AllMessagesOf(es)
    + [TestStart(TitleOr(end, "Hook failure"), end.start)] + DetailsIn(end.details)
    + [HookEnd(BrokenHook(end))] + [TestEnd(BrokenTest(end))]
  }

  lemma {:induction false} FailureLogged(p: Producer, h: Hook, es: seq<Event>, end: Hook)
    requires IsHeard(p, h) && IsHeard(p, end) && AllInHook(es) && end.failed && !TestOpen(p.log)
    ensures Run(p, [HookStarts(h)] + es + [HookEnds(end)]) == Adding(p, FailureMessages(p.log, h, es, end))
    ensures B.IsBody(AllMessagesOf(es))
  {
    hide Handle, AllMessagesOf, KindOf, TestOpen, HookOpen, DetailsIn;
    var ms := [HookStart(TitleOf(h), KindOf(p.log, h), h.start)] + AllMessagesOf(es);
    RunConcat(p, [HookStarts(h)] + es, [HookEnds(end)]);
    HookLoggedUpToEnd(p, h, es);
    RunOne(Adding(p, ms), HookEnds(end));
    HookEndLogged(Adding(p, ms), end);
    var test := [TestStart(TitleOr(end, "Hook failure"), end.start)] + DetailsIn(end.details);
    assert p.log + ms + (test + [HookEnd(BrokenHook(end)), TestEnd(BrokenTest(end))]) ==
           p.log + FailureMessages(p.log, h, es, end);
  }

  // ----- Steps of a replay, put together

  lemma {:induction false} FourParts(feature: bool, s: R.Replay, a: seq<Message>, b: seq<Message>, m: Message,
                                     n: Message)
    ensures G.Steps(feature, s, a + b + [m] + [n]) ==
            R.Step(feature, false, R.Step(feature, false, G.Steps(feature, G.Steps(feature, s, a), b), m), n)
  {
    hide G.Steps, R.Step;
    G.StepsConcat(feature, s, a + b + [m], [n]);
    G.StepsConcat(feature, s, a + b, [m]);
    G.StepsConcat(feature, s, a, b);
    G.StepsOne(feature, G.Steps(feature, s, a + b), m);
    G.StepsOne(feature, G.Steps(feature, s, a + b + [m]), n);
  }

  lemma {:induction false} HeadAndTail(feature: bool, s: R.Replay, m: Message, ms: seq<Message>)
    ensures G.Steps(feature, s, [m] + ms) == G.Steps(feature, R.Step(feature, false, s, m), ms)
  {
    hide G.Steps, R.Step;
    G.StepsConcat(feature, s, [m], ms);
    G.StepsOne(feature, s, m);
  }

  lemma DetailsAreTestBody(ds: seq<Detail>)
    ensures G.IsTestBody(DetailsIn(ds)) && B.HeightOf(DetailsIn(ds)) == 0
  {
    DetailsKeepHeight(0, ds);
  }

  lemma {:induction false} DetailsKeepHeight(n: nat, ds: seq<Detail>)
    ensures B.HeightFrom(n, DetailsIn(ds)) == n
    decreases |ds|
  {
    if ds != [] {
      DetailsKeepHeight(n, ds[..|ds| - 1]);
      assert DetailsIn(ds)[..|ds| - 1] == DetailsIn(ds[..|ds| - 1]);
    }
  }

  /** With nothing in the buffer a test's end is just that. */
  lemma {:induction false} PlainTestEnd(feature: bool, s: R.Replay, o: Outcome)
    requires s.pending == [] && s.executables != [] && s.current == Some(R.Last(s.executables)) && s.scopes != []
    ensures R.Step(feature, false, s, TestEnd(o)) ==
            s.(trace := s.trace + A.TestEndingCalls(R.Last(s.executables), R.Last(s.scopes), s.openSteps, o),
               scopes := R.Front(s.scopes), executables := R.Front(s.executables), openSteps := 0)
  {
    hide R.EndTest, A.TestEndingCalls;
    A.TestEnded(s, o);
  }

  // ----- A hook that waits: before-all hooks

  lemma {:induction false} WaitingHookBegins(feature: bool, s: R.Replay, m: Message, body: seq<Message>)
    requires m.HookStart? && B.IsBody(body) && s.current.None? && s.fixtures == []
    ensures G.Steps(feature, s, [m] + body) == s.(pending := s.pending + [m] + body, capturing := true)
  {
    hide G.Steps;
    HeadAndTail(feature, s, m, body);
    var s1 := R.Queue(s, m, true);
    assert R.Step(feature, false, s, m) == s1;
    G.WaitingBody(feature, s1, body);
  }

  lemma {:induction false} NothingTaken(ws: seq<A.Wish>)
    ensures A.Picked([], ws) == [] && A.Left([], ws) == []
    decreases |ws|
  {
    if ws != [] {
      NothingTaken(ws[1..]);
    }
  }

  /** A test that starts inside the hook, with its details: the hook keeps waiting. */
  lemma {:induction false} TestInWaitingHook(s: R.Replay, h: B.OpenHook, name: string, start: int, ds: seq<Detail>)
    requires h.Waiting? && B.IsHook(h) && s.current.None? && s.fixtures == [] && s.pending == B.OpenText(h)
    ensures
      var own, test := s.nextScope, s.nextTest;
      G.Steps(false, s, [TestStart(name, start)] + DetailsIn(ds)) ==
      s.(trace := s.trace + [R.StartScope(own), R.StartTest(test, name, start, s.scopes + [own])]
                  + G.CallsInTest(test, DetailsIn(ds)),
         scopes := s.scopes + [own], executables := s.executables + [test], current := Some(test), openSteps := 0,
         nextScope := own + 1, nextTest := test + 1)
  {
    hide G.Steps, B.OpenText, A.Picked, A.Left, R.RunTestStart, DetailsIn, G.CallsInTest;
    HeadAndTail(false, s, TestStart(name, start), DetailsIn(ds));
    assert B.Flatten([]) + B.OpenText(h) == B.OpenText(h);
    A.TestStartReplays(false, s, [], h, name, start);
    NothingTaken(A.BEFORE_TEST);
    var calls := [R.StartScope(s.nextScope), R.StartTest(s.nextTest, name, start, s.scopes + [s.nextScope])];
    assert s.trace + [] + calls + [] == s.trace + calls;
    var s1 := R.Step(false, false, s, TestStart(name, start));
    assert s1.trace == s.trace + calls && s1.hookMeta == s.hookMeta && s1.openHookSteps == s.openHookSteps by {
      StartFrame(s, name, start, h);
    }
    DetailsAreTestBody(ds);
    G.TestBody(false, s1, DetailsIn(ds));
  }

  /** Nothing is attached, so no fixture is touched. */
  lemma {:induction false} StartFrame(s: R.Replay, name: string, start: int, h: B.OpenHook)
    requires h.Waiting? && B.IsHook(h) && s.current.None? && s.pending == B.OpenText(h)
    ensures
      var t := R.Step(false, false, s, TestStart(name, start));
      && t.trace ==
         s.trace + [R.StartScope(s.nextScope), R.StartTest(s.nextTest, name, start, s.scopes + [s.nextScope])]
      && t.hookMeta == s.hookMeta && t.openHookSteps == s.openHookSteps
  {
    hide R.Attach, B.FindBlock;
    var s1 := R.BeginTest(s, name, start);
    G.TestBegun(s, name, start);
    assert B.Flatten([]) + B.OpenText(h) == B.OpenText(h);
    B.AttachNone(s1, [], h, Before, All);
    B.AttachNone(s1, [], h, Before, Each);
  }

  /**
    A hook that begins while no test is live and fails with no test pending, such as a before-all hook: replaying what
    the reporter logs starts the test that stands for the failure, shows the hook on it as one broken fixture with its
    commands and the error's outcome, and then ends the test as broken.
   */
  lemma {:induction false} FailingWaitingHook(p: Producer, h: Hook, es: seq<Event>, end: Hook, s: R.Replay)
    requires IsHeard(p, h) && IsHeard(p, end) && AllInHook(es) && end.failed && !TestOpen(p.log)
    requires s.current.None? && s.fixtures == [] && s.pending == [] && !s.capturing
    requires (A.Has(TitleOf(h), "all") || A.Has(TitleOf(h), "each")) && !A.Has(TitleOf(h), "after all")
    ensures
      var ms := FailureMessages(p.log, h, es, end);
      var t, own, test := G.Steps(false, s, ms), s.nextScope, s.nextTest;
      && Run(p, [HookStarts(h)] + es + [HookEnds(end)]).log == p.log + ms
      && t == s.(trace := s.trace + [R.StartScope(own),
                                     R.StartTest(test, TitleOr(end, "Hook failure"), end.start, s.scopes + [own])]
                          + G.CallsInTest(test, DetailsIn(end.details))
                          + B.FixtureCalls(HookBlock(p.log, h, es, BrokenHook(end)), s.nextFixture, own, test)
                          + A.TestEndingCalls(test, own, 0, BrokenTest(end)),
                 current := Some(test), openSteps := 0, nextScope := own + 1, nextTest := test + 1,
                 nextFixture := s.nextFixture + 1, openHookSteps := t.openHookSteps, hookMeta := t.hookMeta)
  {
    hide Run, G.Steps, KindOf, TestOpen, AllMessagesOf, DetailsIn, A.Has, B.FixtureCalls, R.Step, G.CallsInTest,
         A.TestEndingCalls;
    FailureLogged(p, h, es, end);
    var start, body := HookStart(TitleOf(h), KindOf(p.log, h), h.start), AllMessagesOf(es);
    var test, end1, end2 := TestStart(TitleOr(end, "Hook failure"), end.start), HookEnd(BrokenHook(end)),
      TestEnd(BrokenTest(end));
    var w := B.Waiting(TitleOf(h), KindOf(p.log, h), h.start, body);
    assert FailureMessages(p.log, h, es, end) == ([start] + body) + ([test] + DetailsIn(end.details)) + [end1] + [end2];
    FourParts(false, s, [start] + body, [test] + DetailsIn(end.details), end1, end2);
    WaitingHookBegins(false, s, start, body);
    var s1 := s.(pending := [start] + body, capturing := true);
    assert s.pending + [start] + body == [start] + body;
    TestInWaitingHook(s1, w, TitleOr(end, "Hook failure"), end.start, end.details);
    var s2 := G.Steps(false, s1, [test] + DetailsIn(end.details));
    assert B.Flatten([]) + B.OpenText(w) == B.OpenText(w) && B.OpenText(w) == s2.pending;
    A.StrayEndKeepsOutcome(false, s2, [], w, BrokenHook(end));
    var s3 := R.Step(false, false, s2, end1);
    assert A.Completed(w, BrokenHook(end)) == HookBlock(p.log, h, es, BrokenHook(end));
    PlainTestEnd(false, s3, BrokenTest(end));
    assert R.Front(s.scopes + [s.nextScope]) == s.scopes && R.Front(s.executables + [s.nextTest]) == s.executables;
  }

  // ----- A hook that was never logged

  /** The messages of a failing hook that was not logged at its start, with no test pending. */
  ghost function UnbegunMessages(log: seq<Message>, end: Hook): seq<Message> {
    [TestStart(TitleOr(end, "Hook failure"), end.start)] + DetailsIn(end.details)
    + [HookStart(TitleOr(end, "Hook"), KindOf(log, end), end.start), HookEnd(BrokenHook(end)), TestEnd(BrokenTest(end))]
  }

  lemma {:induction false} UnbegunLogged(p: Producer, end: Hook)
    requires EndIsHeard(p, end) && end.failed && !TestOpen(p.log) && !HookOpen(p.log)
    ensures Handle(p, HookEnds(end)).log == p.log + UnbegunMessages(p.log, end)
  {
    hide Handle, KindOf, TestOpen, HookOpen, DetailsIn;
    HookEndLogged(p, end);
  }

  lemma {:induction false} EmptyHook(feature: bool, s: R.Replay, name: string, kind: HookKind, start: int, o: Outcome)
    requires s.current.Some? && s.scopes != [] && s.fixtures == [] && !A.Has(name, "after all")
    ensures
      var t := R.Step(feature, false, R.Step(feature, false, s, HookStart(name, kind, start)), HookEnd(o));
      t == s.(trace := s.trace + B.FixtureCalls(B.Block(name, kind, start, [], o), s.nextFixture, R.Last(s.scopes),
                                                s.current.value),
              nextFixture := s.nextFixture + 1, openHookSteps := t.openHookSteps, hookMeta := t.hookMeta)
  {
    hide G.Steps, R.Step, B.FixtureCalls, AfterAll;
    NamesAsSpelled(name);
    var b := B.Block(name, kind, start, [], o);
    G.LiveHookCalls(feature, s, b);
    assert B.BlockText(b) == [HookStart(name, kind, start)] + [HookEnd(o)];
    HeadAndTail(feature, s, HookStart(name, kind, start), [HookEnd(o)]);
    G.StepsOne(feature, R.Step(feature, false, s, HookStart(name, kind, start)), HookEnd(o));
  }

  /** A failing hook that was never begun, with no test pending and nothing buffered: a test of its own, the hook on it
      as one broken fixture, and the test ended as broken. */
  lemma {:induction false} FailingUnbegunHook(p: Producer, end: Hook, feature: bool, s: R.Replay)
    requires EndIsHeard(p, end) && end.failed && !TestOpen(p.log) && !HookOpen(p.log)
    requires s.fixtures == [] && s.pending == [] && !A.Has(TitleOr(end, "Hook"), "after all")
    ensures
      var ms := UnbegunMessages(p.log, end);
      var t, own, test := G.Steps(feature, s, ms), s.nextScope, s.nextTest;
      var b := B.Block(TitleOr(end, "Hook"), KindOf(p.log, end), end.start, [], BrokenHook(end));
      && Handle(p, HookEnds(end)).log == p.log + ms
      && t == s.(trace := s.trace + G.WritesOf(s.current)
                          + [R.StartScope(own),
                             R.StartTest(test, TitleOr(end, "Hook failure"), end.start, s.scopes + [own])]
                          + G.CallsInTest(test, DetailsIn(end.details)) + B.FixtureCalls(b, s.nextFixture, own, test)
                          + A.TestEndingCalls(test, own, 0, BrokenTest(end)),
                 current := Some(test), openSteps := 0, nextScope := own + 1, nextTest := test + 1,
                 nextFixture := s.nextFixture + 1, openHookSteps := t.openHookSteps, hookMeta := t.hookMeta)
  {
    hide Handle, G.Steps, KindOf, TestOpen, HookOpen, DetailsIn, A.Has, B.FixtureCalls, R.Step, G.CallsInTest,
         A.TestEndingCalls;
    UnbegunLogged(p, end);
    var name, start := TitleOr(end, "Hook failure"), end.start;
    var hook, end1, end2 := HookStart(TitleOr(end, "Hook"), KindOf(p.log, end), end.start), HookEnd(BrokenHook(end)),
      TestEnd(BrokenTest(end));
    var head := [TestStart(name, start)] + DetailsIn(end.details);
    assert UnbegunMessages(p.log, end) == head + [hook] + [end1] + [end2];
    FourParts(feature, s, head, [hook], end1, end2);
    TestWithDetails(feature, s, name, start, end.details);
    var s1 := G.Steps(feature, s, head);
    G.StepsOne(feature, s1, hook);
    EmptyHook(feature, s1, TitleOr(end, "Hook"), KindOf(p.log, end), end.start, BrokenHook(end));
    var s3 := R.Step(feature, false, R.Step(feature, false, s1, hook), end1);
    PlainTestEnd(feature, s3, BrokenTest(end));
    assert R.Front(s.scopes + [s.nextScope]) == s.scopes && R.Front(s.executables + [s.nextTest]) == s.executables;
  }

  lemma {:induction false} TestWithDetails(feature: bool, s: R.Replay, name: string, start: int, ds: seq<Detail>)
    requires s.fixtures == [] && s.pending == []
    ensures
      var own, test := s.nextScope, s.nextTest;
      G.Steps(feature, s, [TestStart(name, start)] + DetailsIn(ds)) ==
      s.(trace := s.trace + G.WritesOf(s.current)
                  + [R.StartScope(own), R.StartTest(test, name, start, s.scopes + [own])]
                  + G.CallsInTest(test, DetailsIn(ds)),
         scopes := s.scopes + [own], executables := s.executables + [test], current := Some(test), openSteps := 0,
         nextScope := own + 1, nextTest := test + 1)
  {
    hide G.Steps, DetailsIn, G.CallsInTest, R.WriteLastTest, R.BeginTest, G.WritesOf;
    HeadAndTail(feature, s, TestStart(name, start), DetailsIn(ds));
    G.TestBegun(s, name, start);
    G.WritesLast(s);
    DetailsAreTestBody(ds);
    G.TestBody(feature, R.BeginTest(s, name, start), DetailsIn(ds));
  }

  // ----- A hook whose fixture is open

  /** The failure's details while the fixture is open: notes go to the fixture, full names to the new test. */
  function CallsInFixture(f: nat, test: nat, ds: seq<Detail>): seq<R.Call> {
    seq(|ds|, i requires 0 <= i < |ds| =>
      match ds[i]
      case Note(payload) => R.Applied(R.OnFixture(f), Other(payload))
      case FullName(fullName) => R.SetTestName(test, fullName))
  }

  lemma {:induction false} DetailsOnFixture(feature: bool, s: R.Replay, ds: seq<Detail>)
    requires s.fixtures != [] && s.executables != []
    ensures G.Steps(feature, s, DetailsIn(ds)) ==
            s.(trace := s.trace + CallsInFixture(R.Last(s.fixtures), R.Last(s.executables), ds))
    decreases |ds|
  {
    var f, test := R.Last(s.fixtures), R.Last(s.executables);
    if ds == [] {
      assert s.trace + CallsInFixture(f, test, ds) == s.trace;
    } else {
      var init, d := ds[..|ds| - 1], ds[|ds| - 1];
      DetailsOnFixture(feature, s, init);
      assert R.Front(DetailsIn(ds)) == DetailsIn(init) && R.Last(DetailsIn(ds)) == DetailIn(d);
      var call := if d.Note? then R.Applied(R.OnFixture(f), Other(d.payload)) else R.SetTestName(test, d.fullName);
      assert s.trace + CallsInFixture(f, test, init) + [call] == s.trace + CallsInFixture(f, test, ds);
    }
  }

  /**
    A hook that found a live test and fails with no test pending, such as an after-each hook: its fixture stays open
    while the test for the failure is started, takes that test's notes, and is stopped as broken and recorded on it.
   */
  lemma {:induction false} FailingLiveHook(p: Producer, h: Hook, es: seq<Event>, end: Hook, feature: bool, s: R.Replay)
    requires IsHeard(p, h) && IsHeard(p, end) && AllInHook(es) && end.failed && !TestOpen(p.log)
    requires s.current.Some? && s.scopes != [] && s.fixtures == [] && s.pending == []
    requires !A.Has(TitleOf(h), "after all")
    ensures
      var ms, body, kind := FailureMessages(p.log, h, es, end), AllMessagesOf(es), KindOf(p.log, h);
      var t, own, test, f := G.Steps(feature, s, ms), s.nextScope, s.nextTest, s.nextFixture;
      && Run(p, [HookStarts(h)] + es + [HookEnds(end)]).log == p.log + ms
      && t == s.(trace := s.trace + [R.StartFixture(f, R.Last(s.scopes), kind, TitleOf(h), h.start)]
                          + B.Applies(f, body)
                          + [R.WriteTest(s.current.value), R.StartScope(own),
                             R.StartTest(test, TitleOr(end, "Hook failure"), end.start, s.scopes + [own])]
                          + CallsInFixture(f, test, end.details)
                          + B.StopCalls(R.OnFixture(f), B.HeightOf(body), BrokenHook(end))
                          + [R.SetFixtureStatus(f, BrokenHook(end)), R.StopFixture(f, BrokenHook(end)),
                             R.AddTestFixture(test, TitleOf(h), kind, Broken)]
                          + A.TestEndingCalls(test, own, 0, BrokenTest(end)),
                 current := Some(test), openSteps := 0, nextScope := own + 1, nextTest := test + 1,
                 nextFixture := f + 1, openHookSteps := t.openHookSteps, hookMeta := t.hookMeta)
  {
    hide Run, G.Steps, KindOf, TestOpen, AllMessagesOf, DetailsIn, A.Has, R.Step, CallsInFixture, A.TestEndingCalls,
         B.Applies, B.StopCalls, B.HeightFrom;
    FailureLogged(p, h, es, end);
    var name, kind, body := TitleOf(h), KindOf(p.log, h), AllMessagesOf(es);
    var start, test := HookStart(name, kind, h.start), TestStart(TitleOr(end, "Hook failure"), end.start);
    var end1, end2 := HookEnd(BrokenHook(end)), TestEnd(BrokenTest(end));
    assert FailureMessages(p.log, h, es, end) == ([start] + body) + ([test] + DetailsIn(end.details)) + [end1] + [end2];
    FourParts(feature, s, [start] + body, [test] + DetailsIn(end.details), end1, end2);
    LiveHookBegins(feature, s, name, kind, h.start, body);
    var s1 := G.Steps(feature, s, [start] + body);
    TestInLiveHook(feature, s1, TitleOr(end, "Hook failure"), end.start, end.details);
    var s2 := G.Steps(feature, s1, [test] + DetailsIn(end.details));
    LiveHookEnds(feature, s2, BrokenHook(end));
    var s3 := R.Step(feature, false, s2, end1);
    PlainTestEnd(feature, s3, BrokenTest(end));
    assert R.Front(s.scopes + [s.nextScope]) == s.scopes && R.Front(s.executables + [s.nextTest]) == s.executables;
  }

  lemma {:induction false} LiveHookBegins(feature: bool, s: R.Replay, name: string, kind: HookKind, start: int,
                                          body: seq<Message>)
    requires s.current.Some? && s.scopes != [] && s.fixtures == [] && B.IsBody(body) && !A.Has(name, "after all")
    ensures
      var t, f := G.Steps(feature, s, [HookStart(name, kind, start)] + body), s.nextFixture;
      && t == s.(trace := s.trace + [R.StartFixture(f, R.Last(s.scopes), kind, name, start)] + B.Applies(f, body),
                 fixtures := [f], nextFixture := f + 1, openHookSteps := t.openHookSteps,
                 hookMeta := s.hookMeta[f := R.HookMeta(name, kind)])
      && R.HookSteps(t, f) == B.HeightOf(body)
  {
    hide G.Steps, AfterAll, R.ReplayBody, B.Applies;
    NamesAsSpelled(name);
    var m := HookStart(name, kind, start);
    HeadAndTail(feature, s, m, body);
    var s1 := R.BeginFixture(s, name, kind, start);
    assert R.Step(feature, false, s, m) == s1;
    G.LiveBody(feature, s1, body);
    B.BodyApplied(s1, s.nextFixture, body);
  }

  lemma {:induction false} TestInLiveHook(feature: bool, s: R.Replay, name: string, start: int, ds: seq<Detail>)
    requires s.current.Some? && |s.fixtures| == 1 && s.pending == []
    ensures
      var own, test := s.nextScope, s.nextTest;
      G.Steps(feature, s, [TestStart(name, start)] + DetailsIn(ds)) ==
      s.(trace := s.trace + [R.WriteTest(s.current.value), R.StartScope(own),
                             R.StartTest(test, name, start, s.scopes + [own])]
                  + CallsInFixture(s.fixtures[0], test, ds),
         scopes := s.scopes + [own], executables := s.executables + [test], current := Some(test), openSteps := 0,
         nextScope := own + 1, nextTest := test + 1)
  {
    hide G.Steps, DetailsIn, CallsInFixture;
    HeadAndTail(feature, s, TestStart(name, start), DetailsIn(ds));
    var s1 := R.BeginTest(s, name, start);
    G.TestBegun(s, name, start);
    G.WritesLast(s);
    DetailsOnFixture(feature, s1, ds);
    assert R.Last(s.executables + [s.nextTest]) == s.nextTest && R.Last(s.fixtures) == s.fixtures[0];
  }

  lemma {:induction false} LiveHookEnds(feature: bool, s: R.Replay, o: Outcome)
    requires s.current.Some? && |s.fixtures| == 1 && s.fixtures[0] in s.hookMeta
    ensures
      var t, f := R.Step(feature, false, s, HookEnd(o)), s.fixtures[0];
      t == s.(trace := s.trace + B.StopCalls(R.OnFixture(f), R.HookSteps(s, f), o)
                       + [R.SetFixtureStatus(f, o), R.StopFixture(f, o),
                          R.AddTestFixture(s.current.value, s.hookMeta[f].name, s.hookMeta[f].kind, o.status)],
              fixtures := [], openHookSteps := t.openHookSteps)
  {
    hide B.StopCalls, R.FinishFixture;
    B.FixtureFinished(s, o);
    var f := s.fixtures[0];
    assert s.trace + B.EndCalls(s, f, s.current.value, o) ==
           s.trace + B.StopCalls(R.OnFixture(f), R.HookSteps(s, f), o)
           + [R.SetFixtureStatus(f, o), R.StopFixture(f, o),
              R.AddTestFixture(s.current.value, s.hookMeta[f].name, s.hookMeta[f].kind, o.status)];
  }
}
