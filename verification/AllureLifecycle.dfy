/** The replay of every log, well formed or not, keeps the runtime's account in step with its own fields. */
module AllureLifecycle {
  import opened Wrappers
  import opened AllureMessages
  import opened AllureReplay
  import opened AllureLedger

  /** The fields of the state object against the runtime's account of the calls made so far. */
  ghost predicate Tracks(l: Ledger, s: Replay) {
    && l.openScopes == s.scopes && l.scopes == s.nextScope
    && l.live == s.current && l.tests == s.nextTest
    && (s.current.Some? ==> l.height == s.openSteps)
    && l.fixtures == s.nextFixture && |l.openFixtures| == |s.fixtures|
    && (forall i :: 0 <= i < |s.fixtures| ==>
          && l.openFixtures[i].id == s.fixtures[i] < s.nextFixture
          && s.fixtures[i] in s.openHookSteps
          && s.openHookSteps[s.fixtures[i]] == l.openFixtures[i].height)
    && (forall i, j :: 0 <= i < j < |s.fixtures| ==> s.fixtures[i] < s.fixtures[j])
    && (forall i :: 0 <= i < |s.executables| ==> s.executables[i] < s.nextTest)
  }

  ghost predicate Inv(s: Replay) {
    Of(s.trace).Some? && Tracks(Of(s.trace).value, s)
  }

  lemma OpenScopeKeeps(s: Replay)
    requires Inv(s)
    ensures Inv(OpenScope(s))
  {
    OfAppend(s.trace, StartScope(s.nextScope));
  }

  lemma CloseScopeKeeps(s: Replay)
    requires Inv(s)
    ensures Inv(CloseScope(s))
  {
    if s.scopes != [] {
      OfAppend(s.trace, WriteScope(Last(s.scopes)));
    }
  }

  lemma WriteLastTestKeeps(s: Replay)
    requires Inv(s)
    ensures Inv(WriteLastTest(s))
  {
    if s.current.Some? {
      OfAppend(s.trace, WriteTest(s.current.value));
    }
  }

  lemma BeginTestKeeps(s: Replay, name: string, start: int)
    requires Inv(s)
    ensures Inv(BeginTest(s, name, start))
  {
    hide Of;
    var s0 := WriteLastTest(s);
    WriteLastTestKeeps(s);
    OpenScopeKeeps(s0);
    var s1 := OpenScope(s0);
    OfAppend(s1.trace, StartTest(s1.nextTest, name, start, s1.scopes));
  }

  /** Stops on the live test bring the height of its steps down to zero, and nothing else changes. */
  lemma {:induction false} StopsOnTest(trace: seq<Call>, t: nat, n: nat, o: Outcome)
    requires Of(trace).Some? && Of(trace).value.live == Some(t) && n <= Of(trace).value.height
    ensures
      var l, r := Of(trace).value, Of(trace + Stops(OnTest(t), n, o));
      r.Some? && r.value == l.(height := l.height - n, ended := r.value.ended)
  {
    if n == 0 {
      assert trace + Stops(OnTest(t), n, o) == trace;
    } else {
      StopsOnTest(trace, t, n - 1, o);
      var before := trace + Stops(OnTest(t), n - 1, o);
      OfAppend(before, Applied(OnTest(t), StepStop(o.status, o.stop, o.details)));
      assert trace + Stops(OnTest(t), n, o) == before + [Applied(OnTest(t), StepStop(o.status, o.stop, o.details))];
    }
  }

  /** The account but for the steps of the innermost fixture, which are `h` high. */
  function WithHeight(l: Ledger, h: nat): Ledger
    requires l.openFixtures != []
  {
    l.(openFixtures := Front(l.openFixtures) + [Last(l.openFixtures).(height := h)], ended := None)
  }

  lemma StopOnFixture(l: Ledger, m: Ledger, h: nat, c: Call)
    requires l.openFixtures != [] && h > 0 && m.(ended := None) == WithHeight(l, h)
    requires c.Applied? && c.target == OnFixture(Last(l.openFixtures).id) && c.message.StepStop?
    ensures Allowed(m, c) && Record(m, c) == WithHeight(l, h - 1)
  {
    assert Front(m.openFixtures) == Front(l.openFixtures);
  }

  lemma {:induction false} StopsOnFixture(trace: seq<Call>, f: nat, n: nat, o: Outcome)
    requires Of(trace).Some? && IsInnermost(Of(trace).value, f) && n <= Last(Of(trace).value.openFixtures).height
    ensures
      var l, r := Of(trace).value, Of(trace + Stops(OnFixture(f), n, o));
      r.Some? && r.value.(ended := None) == WithHeight(l, Last(l.openFixtures).height - n)
  {
    var l := Of(trace).value;
    var h := Last(l.openFixtures).height;
    if n == 0 {
      assert trace + Stops(OnFixture(f), n, o) == trace;
      assert l.openFixtures == Front(l.openFixtures) + [Last(l.openFixtures)];
    } else {
      StopsOnFixture(trace, f, n - 1, o);
      var before, c := trace + Stops(OnFixture(f), n - 1, o),
        Applied(OnFixture(f), StepStop(o.status, o.stop, o.details));
      assert trace + Stops(OnFixture(f), n, o) == before + [c];
      StopOnFixture(l, Of(before).value, h - (n - 1), c);
      OfAppend(before, c);
    }
  }

  lemma CloseStepsKeeps(s: Replay, o: Outcome)
    requires Inv(s)
    ensures Inv(CloseSteps(s, o)) && CloseSteps(s, o).current == s.current
    ensures s.current.Some? ==> CloseSteps(s, o).openSteps == 0
  {
    if s.current.Some? {
      StopsOnTest(s.trace, s.current.value, s.openSteps, o);
    }
  }

  lemma StopTestKeeps(s: Replay, t: nat, o: Outcome)
    requires Inv(s) && t < s.nextTest && (s.current.Some? ==> s.openSteps == 0)
    ensures Inv(Emit(Emit(s, SetTestStatus(t, o)), StopTest(t, o)))
  {
    OfAppend(s.trace, SetTestStatus(t, o));
    OfAppend(s.trace + [SetTestStatus(t, o)], StopTest(t, o));
  }

  lemma EndTestKeeps(s: Replay, o: Outcome)
    requires Inv(s)
    ensures Inv(EndTest(s, o))
  {
    if s.executables != [] {
      var s0 := s.(executables := Front(s.executables));
      CloseStepsKeeps(s0, o);
      CloseScopeKeeps(CloseSteps(s0, o));
      StopTestKeeps(CloseScope(CloseSteps(s0, o)), Last(s.executables), o);
    }
  }

  lemma BeginFixtureKeeps(s: Replay, name: string, kind: HookKind, start: int)
    requires Inv(s) && s.scopes != [] && s.current.Some? && !AfterAll(name)
    ensures Inv(BeginFixture(s, name, kind, start))
  {
    OfAppend(s.trace, StartFixture(s.nextFixture, Last(s.scopes), kind, name, start));
  }

  lemma {:induction false} StartHookKeeps(s: Replay, name: string, kind: HookKind, start: int)
    requires Inv(s)
    ensures Inv(StartHook(s, name, kind, start))
  {
    WriteLastTestKeeps(s);
    var s1 := if AfterAll(name) then WriteLastTest(s) else s;
    if s1.current.Some? && s1.scopes != [] {
      BeginFixtureKeeps(s1, name, kind, start);
    }
  }

  /** The account after the innermost fixture was stopped. */
  function Popped(l: Ledger): Ledger
    requires l.openFixtures != []
  {
    l.(openFixtures := Front(l.openFixtures), ended := Some(Last(l.openFixtures).(height := 0)))
  }

  /** The calls that end a fixture, once its open steps are closed. */
  lemma EndCallsAllowed(l: Ledger, trace: seq<Call>, f: nat, o: Outcome)
    requires l.openFixtures != [] && Last(l.openFixtures).id == f
    requires Of(trace).Some? && Of(trace).value.(ended := None) == WithHeight(l, 0)
    ensures Of(trace + [SetFixtureStatus(f, o)] + [StopFixture(f, o)]) == Some(Popped(l))
  {
    hide Allowed, Record, Update;
    OfAppend(trace, SetFixtureStatus(f, o));
    OfAppend(trace + [SetFixtureStatus(f, o)], StopFixture(f, o));
    EndRecords(l, Of(trace).value, o);
  }

  lemma EndRecords(l: Ledger, m: Ledger, o: Outcome)
    requires l.openFixtures != [] && m.(ended := None) == WithHeight(l, 0)
    ensures
      var f := Last(l.openFixtures).id;
      var n := Record(m, SetFixtureStatus(f, o));
      && Allowed(m, SetFixtureStatus(f, o)) && Allowed(n, StopFixture(f, o))
      && Record(n, StopFixture(f, o)) == Popped(l)
  {
    assert Front(m.openFixtures) == Front(l.openFixtures);
  }

  lemma FinishFixtureKeeps(s: Replay, o: Outcome)
    requires Inv(s) && s.current.Some? && s.fixtures != []
    ensures Inv(FinishFixture(s, o))
  {
    hide Of, Allowed, Record, Update;
    var l, f := Of(s.trace).value, Last(s.fixtures);
    StopsOnFixture(s.trace, f, HookSteps(s, f), o);
    EndCallsAllowed(l, s.trace + Stops(OnFixture(f), HookSteps(s, f), o), f, o);
    var s1 := CloseHookSteps(s.(fixtures := Front(s.fixtures)), f, o);
    var s2 := Emit(Emit(s1, SetFixtureStatus(f, o)), StopFixture(f, o));
    PopTracks(l, s, s2);
    AddFixtureAllowed(Popped(l), s2, f, o);
  }

  lemma PopTracks(l: Ledger, s: Replay, t: Replay)
    requires Tracks(l, s) && s.fixtures != [] && t.fixtures == Front(s.fixtures)
    requires t.openHookSteps == s.openHookSteps[Last(s.fixtures) := 0]
    requires t == s.(fixtures := t.fixtures, openHookSteps := t.openHookSteps, trace := t.trace)
    ensures Tracks(Popped(l), t)
  {
  }

  lemma AddFixtureAllowed(l: Ledger, s: Replay, f: nat, o: Outcome)
    requires Of(s.trace) == Some(l) && Tracks(l, s) && s.current.Some? && l.ended.Some?
    ensures Inv(s)
    ensures f in s.hookMeta ==>
              Inv(Emit(s, AddTestFixture(s.current.value, s.hookMeta[f].name, s.hookMeta[f].kind, o.status)))
  {
    if f in s.hookMeta {
      OfAppend(s.trace, AddTestFixture(s.current.value, s.hookMeta[f].name, s.hookMeta[f].kind, o.status));
    }
  }

  lemma EndHookKeeps(s: Replay, o: Outcome)
    requires Inv(s)
    ensures Inv(EndHook(s, o))
  {
    if s.current.Some? && s.fixtures != [] {
      FinishFixtureKeeps(s, o);
    }
  }

  lemma ApplyToFixtureKeeps(s: Replay, m: Message)
    requires Inv(s) && s.fixtures != [] && IsRuntime(m)
    ensures Inv(Emit(CountHookStep(s, Last(s.fixtures), m), Applied(OnFixture(Last(s.fixtures)), m)))
  {
    var l, f := Of(s.trace).value, Last(s.fixtures);
    OfAppend(s.trace, Applied(OnFixture(f), m));
    var h := l.openFixtures[|s.fixtures| - 1].height;
    assert Record(l, Applied(OnFixture(f), m)) == WithHeight(l, Height(h, m));
    CountTracksHeight(l, s, m, h);
  }

  lemma CountTracksHeight(l: Ledger, s: Replay, m: Message, h: nat)
    requires Tracks(l, s) && s.fixtures != [] && h == Last(l.openFixtures).height
    ensures Tracks(WithHeight(l, Height(h, m)), CountHookStep(s, Last(s.fixtures), m))
  {
    var l1, f := WithHeight(l, Height(h, m)), Last(s.fixtures);
    var t := CountHookStep(s, f, m);
    assert HookSteps(s, f) == h;
    assert t.openHookSteps[f] == Height(h, m) && forall g :: g in s.openHookSteps && g != f ==>
             g in t.openHookSteps && t.openHookSteps[g] == s.openHookSteps[g];
    hide CountHookStep;
    assert t == s.(openHookSteps := t.openHookSteps) by { CountLeaves(s, f, m); }
    assert forall i :: 0 <= i < |s.fixtures| - 1 ==> l1.openFixtures[i] == l.openFixtures[i] && s.fixtures[i] != f;
  }

  lemma {:induction false} ReplayBodyKeeps(s: Replay, f: nat, body: seq<Message>)
    requires Inv(s) && s.fixtures != [] && f == Last(s.fixtures)
    ensures Inv(ReplayBody(s, f, body)) && ReplayBody(s, f, body).fixtures == s.fixtures
    decreases |body|
  {
    if body != [] {
      ReplayBodyKeeps(s, f, Front(body));
      if IsRuntime(Last(body)) {
        ApplyToFixtureKeeps(ReplayBody(s, f, Front(body)), Last(body));
      }
    }
  }

  lemma AttachBodyKeeps(s: Replay, body: seq<Message>)
    requires Inv(s)
    ensures Inv(AttachBody(s, body))
  {
    if s.fixtures != [] {
      ReplayBodyKeeps(s, Last(s.fixtures), body);
    }
  }

  lemma AttachKeeps(s: Replay, kind: HookKind, scope: HookScope)
    requires Inv(s)
    ensures Inv(Attach(s, kind, scope))
  {
    hide Inv, AttachAt;
    var i := FindHook(s.pending, kind, scope, 0);
    if s.current.Some? && i < |s.pending| {
      var j := FindEnd(s.pending, i + 1);
      if j < |s.pending| {
        AttachAtKeeps(s, i, j);
      }
    }
  }

  lemma AttachAtKeeps(s: Replay, i: nat, j: nat)
    requires i < j < |s.pending| && s.pending[i].HookStart? && s.pending[j].HookEnd?
    requires Inv(s)
    ensures Inv(AttachAt(s, i, j))
  {
    var m := s.pending[i];
    StartHookKeeps(s, m.name, m.kind, m.start);
    var s1 := StartHook(s, m.name, m.kind, m.start);
    AttachBodyKeeps(s1, s.pending[i + 1..j]);
    var s2 := AttachBody(s1, s.pending[i + 1..j]);
    EndHookKeeps(s2, s.pending[j].outcome);
    SpliceKeeps(EndHook(s2, s.pending[j].outcome), i, j);
  }

  lemma SpliceKeeps(s: Replay, i: nat, j: nat)
    requires Inv(s)
    ensures Inv(Splice(s, i, j))
  {
  }

  lemma {:induction false} DeliverKeeps(s: Replay, m: Message)
    requires Inv(s) && IsRuntime(m)
    ensures Inv(Deliver(s, m))
  {
    hide Inv;
    if s.fixtures != [] {
      ApplyToFixtureKeeps(s, m);
    } else if s.current.Some? {
      ApplyToTestKeeps(s, m);
    } else {
      assert Inv(s.(pending := s.pending + [m])) by { PendingKeeps(s, s.pending + [m]); }
    }
  }

  lemma ApplyToTestKeeps(s: Replay, m: Message)
    requires Inv(s) && s.current.Some? && IsRuntime(m)
    ensures Inv(Emit(s.(openSteps := Count(s.openSteps, m)), Applied(OnTest(s.current.value), m)))
  {
    OfAppend(s.trace, Applied(OnTest(s.current.value), m));
  }

  lemma PendingKeeps(s: Replay, pending: seq<Message>)
    requires Inv(s)
    ensures Inv(s.(pending := pending))
  {
  }

  lemma {:induction false} StepKeeps(feature: bool, last: bool, s: Replay, m: Message)
    requires Inv(s)
    ensures Inv(Step(feature, last, s, m))
  {
    hide Inv, WriteLastTest, OpenScope, CloseScope, RunTestStart, AddTestInfo, RunTestEnd, StartHook, RunHookEnd,
         Deliver;
    match m
    case SuiteStart(_, _) => WriteLastTestKeeps(s); OpenScopeKeeps(WriteLastTest(s));
    case SuiteEnd => CloseScopeKeeps(s); WriteLastTestKeeps(CloseScope(s));
    case TestStart(name, start) => TestStartKeeps(feature, s, name, start);
    case TestInfo(fullName) => TestInfoKeeps(s, fullName);
    case TestEnd(o) => TestEndKeeps(feature, s, o);
    case HookStart(name, kind, start) => StartHookKeeps(s, name, kind, start);
    case HookEnd(o) => HookEndKeeps(feature, s, o);
    case _ => DeliverKeeps(s, m);
  }

  lemma {:induction false} TestStartKeeps(feature: bool, s: Replay, name: string, start: int)
    requires Inv(s)
    ensures Inv(RunTestStart(feature, s, name, start))
  {
    hide Inv, Attach, BeginTest;
    BeginTestKeeps(s, name, start);
    var s1 := BeginTest(s, name, start);
    AttachKeeps(s1, Before, All);
    AttachKeeps(Attach(s1, Before, All), Before, Each);
  }

  lemma {:induction false} TestEndKeeps(feature: bool, s: Replay, o: Outcome)
    requires Inv(s)
    ensures Inv(RunTestEnd(feature, s, o))
  {
    hide Inv, Attach, EndTest;
    EndTestKeeps(s, o);
    var s1 := EndTest(s, o);
    AttachKeeps(s1, After, Each);
    AttachKeeps(Attach(s1, After, Each), After, All);
  }

  lemma TestInfoKeeps(s: Replay, fullName: string)
    requires Inv(s)
    ensures Inv(AddTestInfo(s, fullName))
  {
    if s.executables != [] {
      OfAppend(s.trace, SetTestName(Last(s.executables), fullName));
    }
  }

  lemma {:induction false} HookEndKeeps(feature: bool, s: Replay, o: Outcome)
    requires Inv(s)
    ensures Inv(RunHookEnd(feature, s, o))
  {
    hide Inv, Attach, EndHook;
    EndHookKeeps(s, o);
    var s0 := Queue(s, HookEnd(o), false);
    QueueKeeps(s, HookEnd(o));
    AttachKeeps(s0, Before, All);
    var s1 := Attach(s0, Before, All);
    AttachKeeps(s1, Before, Each);
    var s2 := Attach(s1, Before, Each);
    AttachKeeps(s2, After, Each);
    AttachKeeps(Attach(s2, After, Each), After, All);
  }

  lemma QueueKeeps(s: Replay, m: Message)
    requires Inv(s)
    ensures Inv(Queue(s, m, false))
  {
  }

  /** After any number of messages of any log the calls made are allowed and the fields track the runtime. */
  lemma {:induction false} ReplayTracksRuntime(log: seq<Message>, n: nat)
    requires n <= |log|
    ensures Inv(Replayed(log, n))
  {
    hide Step;
    if n > 0 {
      ReplayTracksRuntime(log, n - 1);
      StepKeeps(HasFeature(log), n == |log|, Replayed(log, n - 1), log[n - 1]);
    }
  }

  lemma {:induction false} CloseAllKeeps(s: Replay)
    requires Inv(s)
    ensures Inv(CloseAll(s)) && CloseAll(s).scopes == [] && CloseAll(s).current == s.current
    decreases |s.scopes|
  {
    if s.scopes != [] {
      CloseScopeKeeps(s);
      CloseAllKeeps(CloseScope(s));
    }
  }

  /**
    The life of tests and scopes in the report of every log: every started test is written exactly once, in the
    order of starting and before the next one starts; every opened scope is written exactly once, innermost first
    (that is what `Allowed` asks of a WriteScope); and nothing is left open.
   */
  lemma EveryReportIsComplete(log: seq<Message>)
    ensures
      var r := Report(log);
      && Of(r.trace).Some? && r.current.None? && r.scopes == []
      && TestCalls(r.trace) == Lifecycles(r.nextTest)
      && (forall k: nat ::
            Times(StartScope(k), r.trace) == Times(WriteScope(k), r.trace) == (if k < r.nextScope then 1 else 0))
  {
    ReplayTracksRuntime(log, |log|);
    var s := Replayed(log, |log|);
    WriteLastTestKeeps(s);
    CloseAllKeeps(WriteLastTest(s));
    var r := Report(log);
    TestsInOrder(r.trace);
    forall k: nat
      ensures Times(StartScope(k), r.trace) == Times(WriteScope(k), r.trace) == (if k < r.nextScope then 1 else 0)
    {
      ScopesOnce(r.trace, k);
    }
  }
}
