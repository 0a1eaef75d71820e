/** On which test each fixture is recorded: exactly when it is the one that was live when the fixture was started. */
module AllureOwnTests {
  import opened Wrappers
  import opened AllureMessages
  import opened AllureReplay
  import opened AllureLedger
  import opened AllureLifecycle
  import opened AllureHookBuffer
  import opened AllureBuffering
  import opened AllureOrder
  import opened AllureExactly
  import Scopes = AllureScopes

  /** The open fixtures as the runtime has them. */
  function OpenFixtures(s: Replay): seq<OpenFixture> {
    if Of(s.trace).Some? then Of(s.trace).value.openFixtures else []
  }

  /** From `s` to `t` no fixture was recorded. */
  ghost predicate RecordsNone(s: Replay, t: Replay) {
    s.trace <= t.trace && forall k :: |s.trace| <= k < |t.trace| ==> !t.trace[k].AddTestFixture?
  }

  lemma {:induction false} UnrecordedCalls(s: seq<Call>, t: seq<Call>)
    requires s <= t && forall k :: |s| <= k < |t| ==> !t[k].AddTestFixture?
    ensures OnOwnTests(t) <==> OnOwnTests(s)
    decreases |t|
  {
    if |s| < |t| {
      UnrecordedCalls(s, Front(t));
    } else {
      assert s == t;
    }
  }

  lemma Unrecorded(s: Replay, t: Replay)
    requires RecordsNone(s, t)
    ensures OnOwnTests(t.trace) <==> OnOwnTests(s.trace)
  {
    UnrecordedCalls(s.trace, t.trace);
  }

  lemma RecordAppend(trace: seq<Call>, c: Call)
    requires c.AddTestFixture?
    ensures OnOwnTests(trace + [c]) <==>
            OnOwnTests(trace) && Of(trace).Some? && Of(trace).value.ended.Some?
              && Of(trace).value.ended.value.test == c.test
  {
    assert Front(trace + [c]) == trace;
  }

  // ----- One fixture

  /** The end of a fixture records it on the current test. */
  lemma {:induction false} FinishRecords(s: Replay, o: Outcome)
    requires Inv(s) && s.current.Some? && s.fixtures != []
    ensures
      var f, t := Last(s.fixtures), FinishFixture(s, o);
      && OpenFixtures(s) != [] && OpenFixtures(t) == Front(OpenFixtures(s)) && t.hookMeta == s.hookMeta
      && (OnOwnTests(t.trace) <==>
          OnOwnTests(s.trace) && (f in s.hookMeta ==> s.current == Some(Last(OpenFixtures(s)).test)))
  {
    hide Of, Allowed, Record, Update, OnOwnTests;
    var l, f := Of(s.trace).value, Last(s.fixtures);
    var stopped := s.trace + Stops(OnFixture(f), HookSteps(s, f), o);
    StopsOnFixture(s.trace, f, HookSteps(s, f), o);
    EndCallsAllowed(l, stopped, f, o);
    var ended := stopped + [SetFixtureStatus(f, o)] + [StopFixture(f, o)];
    assert Of(ended) == Some(Popped(l));
    UnrecordedCalls(s.trace, ended);
    if f in s.hookMeta {
      var c := AddTestFixture(s.current.value, s.hookMeta[f].name, s.hookMeta[f].kind, o.status);
      RecordAppend(ended, c);
      OfAppend(ended, c);
      assert FinishFixture(s, o).trace == ended + [c];
      RecordKeepsOpen(Popped(l), c);
      assert Of(ended + [c]).Some? by { FinishFixtureKeeps(s, o); InvAllowed(FinishFixture(s, o)); }
    } else {
      assert FinishFixture(s, o).trace == ended;
    }
  }

  lemma RecordKeepsOpen(l: Ledger, c: Call)
    requires c.AddTestFixture?
    ensures Record(l, c).openFixtures == l.openFixtures
  {
  }

  lemma BeginOpens(s: Replay, name: string, kind: HookKind, start: int)
    requires Inv(s) && s.current.Some? && s.scopes != [] && !AfterAll(name)
    ensures
      var t := BeginFixture(s, name, kind, start);
      && Inv(t) && RecordsNone(s, t) && Last(t.fixtures) in t.hookMeta
      && (forall f :: f in s.hookMeta ==> f in t.hookMeta)
      && OpenFixtures(t) == OpenFixtures(s) + [OpenFixture(s.nextFixture, Last(s.scopes), s.current.value, 0)]
  {
    BeginFixtureKeeps(s, name, kind, start);
    OfAppend(s.trace, StartFixture(s.nextFixture, Last(s.scopes), kind, name, start));
  }

  /** The same fixtures, but for the steps of the innermost one. */
  predicate SameBelow(xs: seq<OpenFixture>, ys: seq<OpenFixture>) {
    |ys| == |xs| && (xs != [] ==> Front(ys) == Front(xs) && IsSame(Last(xs), Last(ys)))
  }

  lemma ApplyKeepsOpen(s: Replay, m: Message)
    requires Inv(s) && s.fixtures != [] && IsRuntime(m)
    ensures
      var t := Emit(CountHookStep(s, Last(s.fixtures), m), Applied(OnFixture(Last(s.fixtures)), m));
      Inv(t) && RecordsNone(s, t) && SameBelow(OpenFixtures(s), OpenFixtures(t)) && t.hookMeta == s.hookMeta
  {
    hide Inv, Of, CountHookStep;
    var c := Applied(OnFixture(Last(s.fixtures)), m);
    ApplyToFixtureKeeps(s, m);
    CountLeaves(s, Last(s.fixtures), m);
    InvAllowed(Emit(CountHookStep(s, Last(s.fixtures), m), c));
    InvAllowed(s);
    OfAppend(s.trace, c);
    ApplyOpens(Of(s.trace).value, c);
  }

  lemma ApplyOpens(l: Ledger, c: Call)
    requires c.Applied?
    ensures SameBelow(l.openFixtures, Record(l, c).openFixtures)
  {
  }

  lemma {:induction false} BodyKeepsOpen(s: Replay, f: nat, body: seq<Message>)
    requires Inv(s) && s.fixtures != [] && f == Last(s.fixtures)
    ensures
      var t := ReplayBody(s, f, body);
      && Inv(t) && RecordsNone(s, t) && SameBelow(OpenFixtures(s), OpenFixtures(t))
      && t.hookMeta == s.hookMeta && t.fixtures == s.fixtures && t.current == s.current
    decreases |body|
  {
    hide Inv, OpenFixtures;
    if body != [] {
      var s1, m := ReplayBody(s, f, Front(body)), Last(body);
      BodyKeepsOpen(s, f, Front(body));
      if IsRuntime(m) {
        ApplyKeepsOpen(s1, m);
        CountLeaves(s1, f, m);
      }
    }
  }

  // ----- Attaches

  /** The open fixtures are the ones that were open, and no fixture was recorded on another test meanwhile. */
  ghost predicate KeepsOwn(s: Replay, t: Replay) {
    && Inv(t) && OpenFixtures(t) == OpenFixtures(s) && (forall f :: f in s.hookMeta ==> f in t.hookMeta)
    && (OnOwnTests(t.trace) <==> OnOwnTests(s.trace))
  }

  lemma {:induction false} WholeFixture(s: Replay, name: string, kind: HookKind, start: int, body: seq<Message>,
                                        o: Outcome)
    requires Inv(s) && s.current.Some? && s.scopes != [] && !AfterAll(name)
    ensures KeepsOwn(s, EndHook(AttachBody(StartHook(s, name, kind, start), body), o))
  {
    hide Inv, OpenFixtures, OnOwnTests, FinishFixture, BeginFixture, AfterAll, ReplayBody, RecordsNone;
    var s1 := BeginFixture(s, name, kind, start);
    assert StartHook(s, name, kind, start) == s1 && s1.fixtures != [] && s1.current == s.current
           by { BeginFrame(s, name, kind, start); }
    BeginOpens(s, name, kind, start);
    Unrecorded(s, s1);
    var s2 := ReplayBody(s1, Last(s1.fixtures), body);
    BodyKeepsOpen(s1, Last(s1.fixtures), body);
    Unrecorded(s1, s2);
    FinishRecords(s2, o);
    FinishFixtureKeeps(s2, o);
    assert Front(OpenFixtures(s2)) == OpenFixtures(s);
  }

  lemma BeginFrame(s: Replay, name: string, kind: HookKind, start: int)
    requires s.current.Some? && s.scopes != [] && !AfterAll(name)
    ensures StartHook(s, name, kind, start) == BeginFixture(s, name, kind, start)
    ensures BeginFixture(s, name, kind, start).fixtures != [] && BeginFixture(s, name, kind, start).current == s.current
  {
    hide AfterAll;
  }

  /** A hook that is written before it, or finds no scope, starts no fixture. */
  lemma {:induction false} NoFixture(s: Replay, name: string, kind: HookKind, start: int, body: seq<Message>,
                                     o: Outcome)
    requires Inv(s) && s.current.Some? && s.fixtures == [] && (s.scopes == [] || AfterAll(name))
    ensures KeepsOwn(s, EndHook(AttachBody(StartHook(s, name, kind, start), body), o))
  {
    hide Inv, OnOwnTests, FinishFixture, AfterAll, ReplayBody;
    var t := EndHook(AttachBody(StartHook(s, name, kind, start), body), o);
    StartHookKeeps(s, name, kind, start);
    EndHookKeeps(StartHook(s, name, kind, start), o);
    NoneOpen(s);
    NoneOpen(t);
    assert RecordsNone(s, t);
    Unrecorded(s, t);
  }

  lemma NoneOpen(s: Replay)
    requires Inv(s)
    ensures s.fixtures == [] <==> OpenFixtures(s) == []
  {
  }

  lemma SpliceKeepsOwn(s: Replay, t: Replay, i: nat, j: nat)
    requires KeepsOwn(s, t)
    ensures KeepsOwn(s, Splice(t, i, j))
  {
    SpliceKeeps(t, i, j);
  }

  lemma {:induction false} AttachKeepsOwn(s: Replay, kind: HookKind, scope: HookScope)
    requires Inv(s) && (s.fixtures == [] || (s.scopes != [] && !AttachWrites(s, kind, scope)))
    ensures KeepsOwn(s, Attach(s, kind, scope))
  {
    hide Inv, OpenFixtures, OnOwnTests, StartHook, EndHook, AttachBody, Splice, KeepsOwn;
    var i := FindHook(s.pending, kind, scope, 0);
    if s.current.Some? && i < |s.pending| && FindEnd(s.pending, i + 1) < |s.pending| {
      var j, m := FindEnd(s.pending, i + 1), s.pending[i];
      var body, o := s.pending[i + 1..j], s.pending[j].outcome;
      if s.scopes != [] && !AfterAll(m.name) {
        WholeFixture(s, m.name, m.kind, m.start, body, o);
      } else {
        NoFixture(s, m.name, m.kind, m.start, body, o);
      }
      SpliceKeepsOwn(s, EndHook(AttachBody(StartHook(s, m.name, m.kind, m.start), body), o), i, j);
    } else {
      assert KeepsOwn(s, s) by { KeepsItself(s); }
    }
  }

  lemma KeepsItself(s: Replay)
    requires Inv(s)
    ensures KeepsOwn(s, s)
  {
  }

  lemma KeepsChain(s: Replay, t: Replay, u: Replay)
    requires KeepsOwn(s, t) && KeepsOwn(t, u)
    ensures KeepsOwn(s, u)
  {
  }

  lemma {:induction false} AttachesKeepOwn(s: Replay, asks: seq<Ask>)
    requires Inv(s)
    requires s.fixtures == [] || (s.scopes != [] && !(s.current.Some? && ComesUponAfterAll(s.pending, asks)))
    ensures KeepsOwn(s, Attaches(s, asks))
    decreases |asks|
  {
    hide Inv, Attach, FindsAfterAll, Taken, Inside, KeepsOwn;
    if asks == [] {
      KeepsItself(s);
    } else {
      var kind, scope := asks[0].kind, asks[0].scope;
      var t := Attach(s, kind, scope);
      AttachKeepsOwn(s, kind, scope);
      AttachKeeps(s, kind, scope);
      AttachFrame(s, kind, scope);
      if s.current.Some? && !AttachWrites(s, kind, scope) {
        AttachTakes(s, kind, scope);
      }
      AttachesKeepOwn(t, asks[1..]);
      KeepsChain(s, t, Attaches(t, asks[1..]));
    }
  }

  lemma AttachFrame(s: Replay, kind: HookKind, scope: HookScope)
    ensures
      var t := Attach(s, kind, scope);
      && t.scopes == s.scopes && (t.current == if AttachWrites(s, kind, scope) then None else s.current)
      && (s.fixtures == [] || (s.scopes != [] && !AttachWrites(s, kind, scope)) ==> t.fixtures == s.fixtures)
  {
    hide Attach, AttachWrites;
    AttachBalances(s, kind, scope);
  }

  // ----- One message

  /** Inside a hook that found a live test: the one open fixture, whether its test is still the last one. */
  ghost predicate Knows(feature: bool, before: seq<Message>, s: Replay) {
    Inv(s) &&
    (InLiveHook(feature, before) ==>
       && |s.fixtures| == 1 && |OpenFixtures(s)| == 1 && s.fixtures[0] in s.hookMeta
       && OpenFixtures(s)[0].test < s.nextTest
       && (OpenFixtures(s)[0].test == s.nextTest - 1 <==> !TestSinceHook(before)))
  }

  /** What one message does to the open fixtures, as far as it is recorded on its own test. */
  ghost predicate StepOwns(feature: bool, before: seq<Message>, s: Replay, m: Message, t: Replay) {
    && Knows(feature, before + [m], t)
    && (OnOwnTests(t.trace) <==> OnOwnTests(s.trace) && !IsFlaw(OtherTest, feature, before, m))
  }

  lemma BeginTestOpens(s: Replay, name: string, start: int)
    requires Inv(s)
    ensures
      var t := BeginTest(s, name, start);
      && Inv(t) && RecordsNone(s, t) && OpenFixtures(t) == OpenFixtures(s) && t.hookMeta == s.hookMeta
      && t.fixtures == s.fixtures && t.scopes != [] && t.nextTest == s.nextTest + 1
  {
    hide Inv, Of;
    var s0 := WriteLastTest(s);
    WriteLastTestKeeps(s);
    OpenScopeKeeps(s0);
    BeginTestKeeps(s, name, start);
    if s.current.Some? {
      CallKeepsOpen(s.trace, WriteTest(s.current.value)) by { InvAllowed(s0); }
    }
    var s1 := OpenScope(s0);
    CallKeepsOpen(s0.trace, StartScope(s0.nextScope)) by { InvAllowed(s1); }
    CallKeepsOpen(s1.trace, StartTest(s1.nextTest, name, start, s1.scopes))
      by { InvAllowed(BeginTest(s, name, start)); }
  }

  lemma CallKeepsOpen(trace: seq<Call>, c: Call)
    requires Of(trace + [c]).Some? && !c.StartFixture? && !c.StopFixture? && !(c.Applied? && c.target.OnFixture?)
    ensures Of(trace).Some? && Of(trace + [c]).Some?
    ensures Of(trace + [c]).value.openFixtures == Of(trace).value.openFixtures
  {
    OfAppend(trace, c);
  }

  lemma {:induction false} TestStartOwns(feature: bool, s: Replay, name: string, start: int)
    requires Inv(s) && RunTestStart(feature, s, name, start).current.Some?
    ensures
      var t := RunTestStart(feature, s, name, start);
      && Inv(t) && OpenFixtures(t) == OpenFixtures(s) && (forall f :: f in s.hookMeta ==> f in t.hookMeta)
      && t.nextTest == s.nextTest + 1 && (OnOwnTests(t.trace) <==> OnOwnTests(s.trace))
  {
    hide Inv, Attach, Attaches, ComesUponAfterAll, OpenFixtures, OnOwnTests, RecordsNone, BeginTest;
    var s1 := BeginTest(s, name, start);
    BeginTestOpens(s, name, start);
    Unrecorded(s, s1);
    StartWrites(feature, s, name, start);
    BeginQueue(s, name, start);
    AttachesUnfold(s1);
    if !feature {
      AttachesKeepOwn(s1, BEFORES);
    }
    Scopes.HooksAtTestStart(feature, s, name, start);
  }

  lemma BeginQueue(s: Replay, name: string, start: int)
    ensures BeginTest(s, name, start).pending == s.pending
  {
  }

  lemma {:induction false} TestEndOwns(feature: bool, s: Replay, o: Outcome)
    requires Inv(s) && s.fixtures == []
    ensures
      var t := RunTestEnd(feature, s, o);
      Inv(t) && (OnOwnTests(t.trace) <==> OnOwnTests(s.trace))
  {
    hide Inv, Attach, Attaches, ComesUponAfterAll, OpenFixtures, OnOwnTests, EndTest;
    var s1 := EndTest(s, o);
    EndTestKeeps(s, o);
    EndTestRecords(s, o);
    Unrecorded(s, s1);
    AttachesUnfold(s1);
    AttachesKeepOwn(s1, AFTERS);
  }

  lemma EndTestRecords(s: Replay, o: Outcome)
    ensures RecordsNone(s, EndTest(s, o)) && EndTest(s, o).fixtures == s.fixtures
  {
  }

  lemma {:induction false} HookStartOwns(s: Replay, name: string, kind: HookKind, start: int)
    requires Inv(s) && s.fixtures == [] && (AfterAll(name) || s.current.None? || s.scopes != [])
    ensures
      var t := StartHook(s, name, kind, start);
      && Inv(t) && (OnOwnTests(t.trace) <==> OnOwnTests(s.trace))
      && (s.current.Some? && !AfterAll(name) ==>
            && |t.fixtures| == 1 && |OpenFixtures(t)| == 1 && t.fixtures[0] in t.hookMeta
            && OpenFixtures(t)[0].test == t.nextTest - 1)
  {
    hide Inv, OpenFixtures, OnOwnTests, AfterAll;
    StartHookKeeps(s, name, kind, start);
    var t := StartHook(s, name, kind, start);
    assert RecordsNone(s, t);
    Unrecorded(s, t);
    NoneOpen(s);
    if s.current.Some? && !AfterAll(name) {
      BeginOpens(s, name, kind, start);
      CurrentIsLast(s);
    }
  }

  /** The live test is the one that began last. */
  lemma CurrentIsLast(s: Replay)
    requires Inv(s) && s.current.Some?
    ensures s.nextTest == s.current.value + 1
  {
    TestsInOrder(s.trace);
  }

  lemma {:induction false} HookEndOwns(feature: bool, s: Replay, o: Outcome)
    requires Inv(s) && (s.fixtures == [] || (s.current.Some? && |s.fixtures| == 1 && s.fixtures[0] in s.hookMeta))
    ensures
      var t := RunHookEnd(feature, s, o);
      && Inv(t) && |OpenFixtures(s)| == |s.fixtures|
      && (OnOwnTests(t.trace) <==>
          OnOwnTests(s.trace) && (s.fixtures != [] ==> OpenFixtures(s)[0].test == s.nextTest - 1))
  {
    hide Inv, Attach, Attaches, ComesUponAfterAll, OpenFixtures, OnOwnTests, FinishFixture;
    AsManyOpen(s);
    if s.fixtures != [] {
      FinishRecords(s, o);
      FinishFixtureKeeps(s, o);
      CurrentIsLast(s);
    } else {
      var s1 := Queue(s, HookEnd(o), false);
      QueueKeeps(s, HookEnd(o));
      AttachesUnfold(s1);
      AttachesKeepOwn(s1, BEFORES + AFTERS);
    }
  }

  lemma AsManyOpen(s: Replay)
    requires Inv(s)
    ensures |OpenFixtures(s)| == |s.fixtures|
    ensures forall i :: 0 <= i < |s.fixtures| ==> s.fixtures[i] == OpenFixtures(s)[i].id
  {
  }

  lemma {:induction false} DetailOwns(s: Replay, m: Message)
    requires Inv(s) && (m.TestInfo? || IsRuntime(m))
    ensures
      var t := if m.TestInfo? then AddTestInfo(s, m.fullName) else Deliver(s, m);
      && Inv(t) && RecordsNone(s, t) && SameBelow(OpenFixtures(s), OpenFixtures(t))
      && t.hookMeta == s.hookMeta && t.fixtures == s.fixtures && t.nextTest == s.nextTest
  {
    hide Inv, CountHookStep;
    if m.TestInfo? {
      TestInfoKeeps(s, m.fullName);
      if s.executables != [] {
        InfoOpens(s, m.fullName);
      }
    } else {
      DeliverKeeps(s, m);
      DeliverOpens(s, m);
    }
  }

  lemma InfoOpens(s: Replay, fullName: string)
    requires Inv(s) && s.executables != []
    ensures OpenFixtures(AddTestInfo(s, fullName)) == OpenFixtures(s)
  {
    OfAppend(s.trace, SetTestName(Last(s.executables), fullName));
  }

  lemma DeliverOpens(s: Replay, m: Message)
    requires Inv(s) && IsRuntime(m)
    ensures
      var t := Deliver(s, m);
      && RecordsNone(s, t) && SameBelow(OpenFixtures(s), OpenFixtures(t))
      && t.hookMeta == s.hookMeta && t.fixtures == s.fixtures && t.nextTest == s.nextTest
  {
    hide Inv, Of, CountHookStep;
    if s.fixtures != [] {
      ApplyKeepsOpen(s, m);
      CountLeaves(s, Last(s.fixtures), m);
    } else if s.current.Some? {
      var c := Applied(OnTest(s.current.value), m);
      CallKeepsOpen(s.trace, c) by { DeliverKeeps(s, m); InvAllowed(Deliver(s, m)); }
    }
  }

  lemma {:induction false} SuiteOwns(feature: bool, last: bool, s: Replay, m: Message)
    requires m.SuiteStart? || m.SuiteEnd?
    ensures RecordsNone(s, Step(feature, last, s, m))
  {
  }

  /** One message of an ordered log. */
  lemma {:induction false} StepRecords(feature: bool, last: bool, before: seq<Message>, s: Replay, m: Message)
    requires Knows(feature, before, s) && Tells(feature, before, s) && InOrder(feature, before, m)
    requires Scopes.OutlineFrom(Scopes.BLANK, before).scopes == s.scopes
    requires InLiveHook(feature, before) ==> s.current.Some?
    requires m.TestStart? ==> Step(feature, last, s, m).current.Some?
    ensures StepOwns(feature, before, s, m, Step(feature, last, s, m))
  {
    hide Inv, OpenFixtures, OnOwnTests, RunTestStart, RunTestEnd, StartHook, RunHookEnd, AddTestInfo, Deliver,
         RecordsNone;
    hide IsPending, HookWaits, HasLiveTest, SeenAfterAll, AfterAll, Scopes.OutlineFrom, TestSinceHook, PlainHook,
         InLiveHook;
    hide OpenScope, CloseScope, WriteLastTest;
    StepKeeps(feature, last, s, m);
    LiveNext(feature, before, m);
    SinceNext(before, m);
    LiveIsPending(feature, before);
    match m
    case SuiteStart(_, _) => SuiteOwns(feature, last, s, m); Unrecorded(s, Step(feature, last, s, m));
    case SuiteEnd => SuiteOwns(feature, last, s, m); Unrecorded(s, Step(feature, last, s, m));
    case TestStart(name, start) =>
      TestStartOwns(feature, s, name, start);
      AsManyOpen(s);
      AsManyOpen(RunTestStart(feature, s, name, start));
    case TestEnd(o) => TestEndOwns(feature, s, o);
    case HookStart(name, kind, start) => HookStartOwns(s, name, kind, start);
    case HookEnd(o) => HookEndOwns(feature, s, o);
    case _ => DetailOwns(s, m); Unrecorded(s, Step(feature, last, s, m));
  }

  lemma LiveIsPending(feature: bool, log: seq<Message>)
    ensures InLiveHook(feature, log) ==> IsPending(HookPair, log)
  {
  }

  // ----- Whole logs

  /** On an ordered log a test is live once it has started, whatever is attached. */
  lemma {:induction false} TestStartIsLive(log: seq<Message>, k: nat, last: bool)
    requires k < |log| && Ordered(HasFeature(log), log) && log[k].TestStart?
    ensures Step(HasFeature(log), last, Replayed(log, k), log[k]).current.Some?
  {
    hide Replayed, HasFeature, Ordered, Attach, HasShape, Agrees;
    if !HasFeature(log) {
      var bs, h := AgreesUntil(log, k);
      AgreesPlain(log[..k], bs, h);
      TestStartCurrent(Replayed(log, k), bs, h, log[k].name, log[k].start);
    }
  }

  lemma AgreesPlain(log: seq<Message>, bs: seq<Block>, h: OpenHook)
    requires Agrees(log, bs, h)
    ensures NoneAfterAll(bs, Before)
  {
    PlainBefores(bs, h);
  }

  ghost predicate FreeUntil(log: seq<Message>, n: nat)
    requires n <= |log|
  {
    forall k :: 0 <= k < n ==> !IsFlaw(OtherTest, HasFeature(log), log[..k], log[k])
  }

  lemma {:induction false} OwnsUntil(log: seq<Message>, n: nat)
    requires n <= |log| && Ordered(HasFeature(log), log)
    ensures Knows(HasFeature(log), log[..n], Replayed(log, n))
    ensures OnOwnTests(Replayed(log, n).trace) <==> FreeUntil(log, n)
  {
    hide Replayed, Step, Knows, IsFlaw, InOrder, HasFeature, InLiveHook, OnOwnTests, HasLiveTest;
    if n == 0 {
      NothingOwned(HasFeature(log), log);
    } else {
      var s, m, before, feature := Replayed(log, n - 1), log[n - 1], log[..n - 1], HasFeature(log);
      OwnsUntil(log, n - 1);
      TellsUntil(log, n - 1);
      assert log[..n] == before + [m];
      assert InOrder(feature, before, m);
      OrderedPrefix(feature, log, n - 1);
      if InLiveHook(feature, before) {
        LiveHookHasTest(feature, before);
      }
      if m.TestStart? {
        TestStartIsLive(log, n - 1, n == |log|);
      }
      ReplayedNext(log, n);
      StepRecords(feature, n == |log|, before, s, m) by { Scopes.ReplayOutline(log, n - 1); }
    }
  }

  lemma NothingOwned(feature: bool, log: seq<Message>)
    ensures Knows(feature, log[..0], Replayed(log, 0)) && OnOwnTests(Replayed(log, 0).trace)
  {
  }

  lemma {:induction false} CloseAllRecordsNone(s: Replay)
    ensures RecordsNone(s, CloseAll(s))
    decreases |s.scopes|
  {
    if s.scopes != [] {
      CloseAllRecordsNone(CloseScope(s));
    }
  }

  /**
    Recorded where it was started, exactly, from the log. On ordered logs every fixture is recorded on the test that
    was live when it was started if and only if no hook that found a live test has another test started inside it
    before it ends.
   */
  lemma {:induction false} OwnTestsAsRead(log: seq<Message>)
    requires Ordered(HasFeature(log), log)
    ensures OnOwnTests(Report(log).trace) <==> IsFree(OtherTest, HasFeature(log), log)
  {
    hide Replayed, CloseAll, OnOwnTests, IsFlaw, HasFeature, Ordered, Knows;
    var s := Replayed(log, |log|);
    OwnsUntil(log, |log|);
    Unrecorded(s, WriteLastTest(s));
    CloseAllRecordsNone(WriteLastTest(s));
    Unrecorded(WriteLastTest(s), Report(log));
  }
}
