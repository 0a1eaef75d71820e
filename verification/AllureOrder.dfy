/** Which calls each operation makes, seen by the rules of the account; and the buffer over well-formed logs. */
module AllureOrder {
  import opened Wrappers
  import opened AllureMessages
  import opened AllureReplay
  import opened AllureLedger
  import opened AllureLifecycle
  import opened AllureHookBuffer
  import opened AllureBuffering
  import Scopes = AllureScopes

  // ----- Single operations

  ghost predicate SameFlags(l: Ledger, l': Ledger) {
    l'.live == l.live && l'.hasStatus == l.hasStatus && l'.stopped == l.stopped
  }

  /** Calls that neither rule speaks of, and that leave the account of the live test alone. */
  predicate IsInner(c: Call) {
    IsQuiet(FixturesFirst, c) && IsQuiet(TestsFirst, c)
  }

  lemma {:induction false} InnerCalls(rule: Rule, s: seq<Call>, t: seq<Call>)
    requires s <= t && Of(t).Some? && forall k :: |s| <= k < |t| ==> IsInner(t[k])
    ensures AllObey(rule, s) <==> AllObey(rule, t)
    ensures Of(s).Some? && SameFlags(Of(s).value, Of(t).value)
    decreases |t|
  {
    if |s| < |t| {
      InnerCalls(rule, s, Front(t));
    } else {
      assert s == t;
    }
  }

  lemma InnerSuffix(rule: Rule, s: seq<Call>, calls: seq<Call>)
    requires Of(s + calls).Some? && forall k :: 0 <= k < |calls| ==> IsInner(calls[k])
    ensures AllObey(rule, s) <==> AllObey(rule, s + calls)
    ensures Of(s).Some? && SameFlags(Of(s).value, Of(s + calls).value)
  {
    InnerCalls(rule, s, s + calls);
  }

  lemma WriteLastTestObeys(rule: Rule, s: Replay)
    requires Inv(s)
    ensures AllObey(rule, WriteLastTest(s).trace) <==>
            AllObey(rule, s.trace) && (s.current.Some? ==> Obeys(rule, Of(s.trace).value, WriteTest(s.current.value)))
  {
    if s.current.Some? {
      ObeyAppend(rule, s.trace, WriteTest(s.current.value));
    }
  }

  lemma FinishFixtureInner(rule: Rule, s: Replay, o: Outcome)
    requires Inv(s) && s.current.Some? && s.fixtures != []
    ensures Inv(FinishFixture(s, o))
    ensures AllObey(rule, FinishFixture(s, o).trace) <==> AllObey(rule, s.trace)
    ensures SameFlags(Of(s.trace).value, Of(FinishFixture(s, o).trace).value)
  {
    hide FinishFixture, FinishCalls;
    FinishFixtureKeeps(s, o);
    FinishCallsInner(s, o);
    InnerSuffix(rule, s.trace, FinishCalls(s, o));
  }

  ghost function FinishCalls(s: Replay, o: Outcome): seq<Call>
    requires s.current.Some? && s.fixtures != []
  {
    var f := Last(s.fixtures);
    Stops(OnFixture(f), HookSteps(s, f), o) + [SetFixtureStatus(f, o), StopFixture(f, o)]
    + if f in s.hookMeta then [AddTestFixture(s.current.value, s.hookMeta[f].name, s.hookMeta[f].kind, o.status)]
      else []
  }

  lemma FinishCallsInner(s: Replay, o: Outcome)
    requires s.current.Some? && s.fixtures != []
    ensures FinishFixture(s, o).trace == s.trace + FinishCalls(s, o)
    ensures forall k :: 0 <= k < |FinishCalls(s, o)| ==> IsInner(FinishCalls(s, o)[k])
  {
  }

  lemma BeginFixtureInner(rule: Rule, s: Replay, name: string, kind: HookKind, start: int)
    requires Inv(s) && s.current.Some? && s.scopes != [] && !AfterAll(name)
    ensures AllObey(rule, BeginFixture(s, name, kind, start).trace) <==> AllObey(rule, s.trace)
    ensures SameFlags(Of(s.trace).value, Of(BeginFixture(s, name, kind, start).trace).value)
  {
    BeginFixtureKeeps(s, name, kind, start);
    InnerSuffix(rule, s.trace, [StartFixture(s.nextFixture, Last(s.scopes), kind, name, start)]);
  }

  lemma InvAllowed(s: Replay)
    requires Inv(s)
    ensures Of(s.trace).Some?
  {
  }

  /** The two rules agree on `s` and `t`, and so do the accounts of the live test. */
  ghost predicate SameRule(rule: Rule, s: Replay, t: Replay) {
    && Of(s.trace).Some? && Of(t.trace).Some?
    && (AllObey(rule, t.trace) <==> AllObey(rule, s.trace)) && SameFlags(Of(s.trace).value, Of(t.trace).value)
  }

  lemma {:induction false} DeliverInner(rule: Rule, s: Replay, m: Message)
    requires Inv(s) && IsRuntime(m)
    ensures SameRule(rule, s, Deliver(s, m))
  {
    hide Inv, CountHookStep, AllObey, Of;
    DeliverKeeps(s, m);
    var t := Deliver(s, m);
    InvAllowed(t);
    if s.fixtures != [] {
      CountLeaves(s, Last(s.fixtures), m);
      InnerSuffix(rule, s.trace, [Applied(OnFixture(Last(s.fixtures)), m)]);
    } else if s.current.Some? {
      InnerSuffix(rule, s.trace, [Applied(OnTest(s.current.value), m)]);
    } else {
      assert t.trace == s.trace;
      InvAllowed(s);
    }
  }

  lemma CloseStepsInner(rule: Rule, s: Replay, o: Outcome)
    requires Inv(s)
    ensures Inv(CloseSteps(s, o)) && SameFlags(Of(s.trace).value, Of(CloseSteps(s, o).trace).value)
    ensures AllObey(rule, CloseSteps(s, o).trace) <==> AllObey(rule, s.trace)
  {
    CloseStepsKeeps(s, o);
    if s.current.Some? {
      InnerSuffix(rule, s.trace, Stops(OnTest(s.current.value), s.openSteps, o));
    }
  }

  lemma FewerRunning(s: Replay)
    requires Inv(s) && s.executables != []
    ensures Inv(s.(executables := Front(s.executables)))
  {
  }

  // ----- An attach on any buffer

  /** From `s` to `t` only inner calls were made, and no test or scope came or went. */
  ghost predicate Inside(s: Replay, t: Replay) {
    && t.current == s.current && t.scopes == s.scopes && t.executables == s.executables
    && s.trace <= t.trace && forall k :: |s.trace| <= k < |t.trace| ==> IsInner(t.trace[k])
  }

  lemma InsideObeys(rule: Rule, s: Replay, t: Replay)
    requires Inside(s, t) && Inv(t)
    ensures Of(s.trace).Some? && (AllObey(rule, t.trace) <==> AllObey(rule, s.trace))
    ensures SameFlags(Of(s.trace).value, Of(t.trace).value)
  {
    InnerCalls(rule, s.trace, t.trace);
  }

  lemma InsideChain(s: Replay, t: Replay, u: Replay)
    requires Inside(s, t) && Inside(t, u)
    ensures Inside(s, u)
  {
  }

  /** The state the calls of a hook's start begin from: an after-all hook writes the current test first. */
  function Entered(s: Replay, name: string): Replay {
    if AfterAll(name) then WriteLastTest(s) else s
  }

  lemma StartHookInside(s: Replay, name: string, kind: HookKind, start: int)
    ensures Inside(Entered(s, name), StartHook(s, name, kind, start))
  {
  }

  lemma EndHookInside(s: Replay, o: Outcome)
    ensures Inside(s, EndHook(s, o))
  {
    if s.current.Some? && s.fixtures != [] {
      FinishCallsInner(s, o);
    }
  }

  lemma {:induction false} ReplayBodyInside(s: Replay, f: nat, body: seq<Message>)
    ensures Inside(s, ReplayBody(s, f, body)) && ReplayBody(s, f, body).fixtures == s.fixtures
    decreases |body|
  {
    if body != [] {
      ReplayBodyInside(s, f, Front(body));
    }
  }

  lemma AttachBodyInside(s: Replay, body: seq<Message>)
    ensures Inside(s, AttachBody(s, body)) && AttachBody(s, body).fixtures == s.fixtures
    ensures AttachBody(s, body).pending == s.pending
  {
    if s.fixtures != [] {
      ReplayBodyInside(s, Last(s.fixtures), body);
      BodyKeepsBuffer(s, Last(s.fixtures), body);
    }
  }

  /** What one attach leaves alone: it makes inner calls only, closes the fixture it opened, and brings no new message
      into the buffer. */
  ghost predicate Balances(entered: Replay, s: Replay, t: Replay) {
    && Inside(entered, t)
    && (s.fixtures == [] || (s.scopes != [] && entered == s) ==> t.fixtures == s.fixtures)
    && forall m :: m in t.pending ==> m in s.pending
  }

  lemma {:induction false} AttachAtBalances(s: Replay, i: nat, j: nat)
    requires i < j < |s.pending| && s.pending[i].HookStart? && s.pending[j].HookEnd?
    ensures Balances(Entered(s, s.pending[i].name), s, AttachAt(s, i, j))
  {
    hide StartHook, EndHook, AttachBody, Inside;
    var m, body, o := s.pending[i], s.pending[i + 1..j], s.pending[j].outcome;
    var s0, s1 := Entered(s, m.name), StartHook(s, m.name, m.kind, m.start);
    var s2 := AttachBody(s1, body);
    var s3 := EndHook(s2, o);
    StartHookInside(s, m.name, m.kind, m.start);
    AttachBodyInside(s1, body);
    EndHookInside(s2, o);
    InsideChain(s0, s1, s2);
    InsideChain(s0, s2, s3);
    assert Inside(s0, Splice(s3, i, j)) by { SpliceInside(s0, s3, i, j); }
    StartAndEnd(s, s1, s2, m, o);
    assert s0 == s ==> s.current.None? || !AfterAll(m.name) by { EnteredAnew(s, m.name); }
  }

  lemma EnteredAnew(s: Replay, name: string)
    ensures Entered(s, name) == s ==> s.current.None? || !AfterAll(name)
  {
  }

  lemma SpliceInside(s: Replay, t: Replay, i: nat, j: nat)
    requires Inside(s, t)
    ensures Inside(s, Splice(t, i, j))
  {
  }

  lemma StartAndEnd(s: Replay, s1: Replay, s2: Replay, m: Message, o: Outcome)
    requires m.HookStart? && s1 == StartHook(s, m.name, m.kind, m.start)
    requires s2.current == s1.current && s2.fixtures == s1.fixtures && s2.pending == s1.pending
    ensures s.fixtures == [] || s.current.None? ==> EndHook(s2, o).fixtures == s.fixtures
    ensures s.scopes != [] && !AfterAll(m.name) ==> EndHook(s2, o).fixtures == s.fixtures
    ensures forall x :: x in EndHook(s2, o).pending ==> x in s.pending || x == m || x == HookEnd(o)
  {
    hide FinishFixture, AfterAll;
    if s2.current.Some? && s2.fixtures != [] {
      FinishFrame(s2, o);
    }
  }

  lemma FinishFrame(s: Replay, o: Outcome)
    requires s.current.Some? && s.fixtures != []
    ensures FinishFixture(s, o).fixtures == Front(s.fixtures) && FinishFixture(s, o).pending == s.pending
    ensures FinishFixture(s, o).current == s.current && FinishFixture(s, o).scopes == s.scopes
  {
  }

  /** The first hook of that kind and scope in the buffer is complete, and named after all. */
  predicate FindsAfterAll(pending: seq<Message>, kind: HookKind, scope: HookScope) {
    var i := FindHook(pending, kind, scope, 0);
    i < |pending| && FindEnd(pending, i + 1) < |pending| && AfterAll(pending[i].name)
  }

  /** The attach is to write the current test before replaying the hook it finds. */
  predicate AttachWrites(s: Replay, kind: HookKind, scope: HookScope) {
    s.current.Some? && FindsAfterAll(s.pending, kind, scope)
  }

  function Approached(s: Replay, kind: HookKind, scope: HookScope): Replay {
    if AttachWrites(s, kind, scope) then WriteLastTest(s) else s
  }

  /**
    Whatever the buffer holds, an attach is balanced: after writing the current test, if the hook it found is named
    after all, it makes calls inside tests and scopes only, and leaves no fixture open that it opened.
   */
  lemma {:induction false} AttachBalances(s: Replay, kind: HookKind, scope: HookScope)
    ensures Balances(Approached(s, kind, scope), s, Attach(s, kind, scope))
  {
    hide AttachAt, Inside, WriteLastTest;
    var i := FindHook(s.pending, kind, scope, 0);
    if s.current.Some? && i < |s.pending| && FindEnd(s.pending, i + 1) < |s.pending| {
      AttachAtBalances(s, i, FindEnd(s.pending, i + 1));
    } else {
      assert Inside(s, s) by { InsideItself(s); }
    }
  }

  lemma InsideItself(s: Replay)
    ensures Inside(s, s)
  {
  }

  /** What an attach asks the buffer for. */
  datatype Ask = Ask(kind: HookKind, scope: HookScope)

  const BEFORES := [Ask(Before, All), Ask(Before, Each)]
  const AFTERS := [Ask(After, Each), Ask(After, All)]

  /** The buffer without the first hook asked for, if that one is complete. */
  function Taken(pending: seq<Message>, ask: Ask): seq<Message> {
    var i := FindHook(pending, ask.kind, ask.scope, 0);
    if i == |pending| || FindEnd(pending, i + 1) == |pending| then pending
    else pending[..i] + pending[FindEnd(pending, i + 1) + 1..]
  }

  /** Asking this buffer for hooks, one after another, comes upon a complete one named after all: a condition on the
      buffer before the first attach. */
  predicate ComesUponAfterAll(pending: seq<Message>, asks: seq<Ask>) {
    asks != [] &&
    (FindsAfterAll(pending, asks[0].kind, asks[0].scope) || ComesUponAfterAll(Taken(pending, asks[0]), asks[1..]))
  }

  function Attaches(s: Replay, asks: seq<Ask>): Replay
    decreases |asks|
  {
    if asks == [] then s else Attaches(Attach(s, asks[0].kind, asks[0].scope), asks[1..])
  }

  lemma {:induction false} AttachTakes(s: Replay, kind: HookKind, scope: HookScope)
    requires s.current.Some? && !AttachWrites(s, kind, scope)
    ensures Attach(s, kind, scope).pending == Taken(s.pending, Ask(kind, scope))
  {
    hide AttachAt;
    var i := FindHook(s.pending, kind, scope, 0);
    if i < |s.pending| && FindEnd(s.pending, i + 1) < |s.pending| {
      AttachAtTakes(s, i, FindEnd(s.pending, i + 1));
    }
  }

  lemma {:induction false} AttachAtTakes(s: Replay, i: nat, j: nat)
    requires i < j < |s.pending| && s.pending[i].HookStart? && s.pending[j].HookEnd?
    requires s.current.Some? && !AfterAll(s.pending[i].name)
    ensures AttachAt(s, i, j).pending == s.pending[..i] + s.pending[j + 1..]
  {
    hide StartHook, EndHook, AttachBody, Inside;
    var m, body, o := s.pending[i], s.pending[i + 1..j], s.pending[j].outcome;
    var s1 := StartHook(s, m.name, m.kind, m.start);
    LiveHookQueue(s, m.name, m.kind, m.start);
    AttachBodyInside(s1, body);
    LiveEndQueue(AttachBody(s1, body), o) by { InsideLive(s1, AttachBody(s1, body)); }
  }

  lemma InsideLive(s: Replay, t: Replay)
    requires Inside(s, t)
    ensures t.current == s.current
  {
  }

  /** While a test is live, hooks that are not named after all leave the buffer alone. */
  lemma LiveHookQueue(s: Replay, name: string, kind: HookKind, start: int)
    requires s.current.Some? && !AfterAll(name)
    ensures StartHook(s, name, kind, start).pending == s.pending && StartHook(s, name, kind, start).current.Some?
  {
  }

  lemma LiveEndQueue(s: Replay, o: Outcome)
    requires s.current.Some?
    ensures EndHook(s, o).pending == s.pending
  {
    hide FinishFixture;
    if s.fixtures != [] {
      FinishFrame(s, o);
    }
  }

  lemma AttachesNone(s: Replay, asks: seq<Ask>)
    requires s.current.None?
    ensures Attaches(s, asks) == s
    decreases |asks|
  {
    if asks != [] {
      AttachesNone(s, asks[1..]);
    }
  }

  /** Attaches write the current test exactly when they come upon a complete hook named after all. */
  lemma {:induction false} AttachesWrite(s: Replay, asks: seq<Ask>)
    requires s.current.Some?
    ensures Attaches(s, asks).current.None? <==> ComesUponAfterAll(s.pending, asks)
    decreases |asks|
  {
    hide Attach, FindsAfterAll, Taken, Inside;
    if asks != [] {
      var kind, scope := asks[0].kind, asks[0].scope;
      var t := Attach(s, kind, scope);
      AttachBalances(s, kind, scope);
      AttachCurrent(s, kind, scope);
      if AttachWrites(s, kind, scope) {
        AttachesNone(t, asks[1..]);
      } else {
        AttachTakes(s, kind, scope);
        AttachesWrite(t, asks[1..]);
      }
    }
  }

  lemma AttachCurrent(s: Replay, kind: HookKind, scope: HookScope)
    ensures Attach(s, kind, scope).current == if AttachWrites(s, kind, scope) then None else s.current
  {
    hide Attach, AttachWrites;
    AttachBalances(s, kind, scope);
  }

  lemma AttachesUnfold(s: Replay)
    ensures Attaches(s, BEFORES) == Attach(Attach(s, Before, All), Before, Each)
    ensures Attaches(s, AFTERS) == Attach(Attach(s, After, Each), After, All)
    ensures Attaches(s, BEFORES + AFTERS) ==
            Attach(Attach(Attach(Attach(s, Before, All), Before, Each), After, Each), After, All)
  {
    hide Attach;
    TwoAttaches(s, Ask(Before, All), Ask(Before, Each), []);
    TwoAttaches(s, Ask(After, Each), Ask(After, All), []);
    TwoAttaches(s, Ask(Before, All), Ask(Before, Each), AFTERS);
    TwoAttaches(Attach(Attach(s, Before, All), Before, Each), Ask(After, Each), Ask(After, All), []);
    assert BEFORES == [Ask(Before, All), Ask(Before, Each)] + [] && AFTERS == [Ask(After, Each), Ask(After, All)] + [];
  }

  lemma TwoAttaches(s: Replay, a: Ask, b: Ask, asks: seq<Ask>)
    ensures Attaches(s, [a, b] + asks) == Attaches(Attach(Attach(s, a.kind, a.scope), b.kind, b.scope), asks)
  {
    hide Attach;
    var all := [a, b] + asks;
    assert all[1..][1..] == asks && all[1..][0] == b;
  }

  /** Which test starts, test ends and hook ends write the current test, as the buffer says before them. */
  lemma {:induction false} StartWrites(feature: bool, s: Replay, name: string, start: int)
    ensures RunTestStart(feature, s, name, start).current.None? <==> !feature && ComesUponAfterAll(s.pending, BEFORES)
  {
    hide Attach, Attaches, ComesUponAfterAll;
    var s1 := BeginTest(s, name, start);
    AttachesUnfold(s1);
    AttachesWrite(s1, BEFORES);
    if s.pending == [] {
      NothingFound(BEFORES);
    }
  }

  lemma {:induction false} EndWrites(feature: bool, s: Replay, o: Outcome)
    requires s.current.Some? && s.executables == []
    ensures RunTestEnd(feature, s, o).current.None? <==> !feature && ComesUponAfterAll(s.pending, AFTERS)
  {
    hide Attach, Attaches, ComesUponAfterAll;
    AttachesUnfold(s);
    AttachesWrite(s, AFTERS);
    if s.pending == [] {
      NothingFound(AFTERS);
    }
  }

  lemma {:induction false} HookEndWrites(feature: bool, s: Replay, o: Outcome)
    requires s.current.Some?
    ensures
      RunHookEnd(feature, s, o).current.None? <==>
      && s.fixtures == [] && s.pending != [] && !feature
      && ComesUponAfterAll(s.pending + [HookEnd(o)], BEFORES + AFTERS)
  {
    hide Attach, Attaches, EndHook, ComesUponAfterAll, Inside;
    EndHookCurrent(s, o);
    var s1 := Queue(s, HookEnd(o), false);
    AttachesUnfold(s1);
    AttachesWrite(s1, BEFORES + AFTERS);
  }

  lemma EndHookCurrent(s: Replay, o: Outcome)
    ensures EndHook(s, o).current == s.current
  {
    EndHookInside(s, o);
  }

  lemma {:induction false} NothingFound(asks: seq<Ask>)
    ensures !ComesUponAfterAll([], asks)
    decreases |asks|
  {
    if asks != [] {
      NothingFound(asks[1..]);
    }
  }

  lemma EndTestShape(s: Replay, bs: seq<Block>, h: OpenHook, o: Outcome)
    requires HasShape(s, bs, h)
    ensures HasShape(EndTest(s, o), bs, h)
  {
  }

  // ----- Traces only grow

  lemma StepGrows(feature: bool, last: bool, s: Replay, m: Message)
    ensures s.trace <= Step(feature, last, s, m).trace
  {
    hide RunHookEnd, StartHook, Attach, CloseSteps, RunTestEnd, Deliver;
    match m
    case TestStart(name, start) => Scopes.HooksAtTestStart(feature, s, name, start);
    case TestEnd(o) => Scopes.HooksAtTestEnd(feature, s, o); EndTestGrows(s, o);
    case HookStart(name, kind, start) => Scopes.StartHookDetails(s, name, kind, start);
    case HookEnd(o) => Scopes.HookEndDetails(feature, s, o);
    case SuiteStart(_, _) =>
    case SuiteEnd =>
    case TestInfo(_) =>
    case _ => Scopes.DeliverDetails(s, m);
  }

  lemma EndTestGrows(s: Replay, o: Outcome)
    ensures s.trace <= EndTest(s, o).trace
  {
    if s.executables != [] {
      assert s.trace <= CloseSteps(s.(executables := Front(s.executables)), o).trace;
    }
  }

  lemma {:induction false} TraceGrows(log: seq<Message>, n: nat, k: nat)
    requires n <= k <= |log|
    ensures Replayed(log, n).trace <= Replayed(log, k).trace
    decreases k
  {
    hide Step;
    if n < k {
      TraceGrows(log, n, k - 1);
      StepGrows(HasFeature(log), k == |log|, Replayed(log, k - 1), log[k - 1]);
    }
  }

  lemma {:induction false} CloseAllGrows(s: Replay)
    ensures s.trace <= CloseAll(s).trace
    decreases |s.scopes|
  {
    if s.scopes != [] {
      CloseAllGrows(CloseScope(s));
    }
  }

  lemma StaysBroken(rule: Rule, s: Replay, t: Replay)
    requires s.trace <= t.trace && !AllObey(rule, s.trace)
    ensures !AllObey(rule, t.trace)
  {
    if AllObey(rule, t.trace) {
      BrokenStays(rule, s.trace, t.trace);
    }
  }

  lemma {:induction false} BrokenInReport(rule: Rule, log: seq<Message>, n: nat)
    requires n <= |log| && !AllObey(rule, Replayed(log, n).trace)
    ensures !AllObey(rule, Report(log).trace)
  {
    hide Replayed, Of, AllObey;
    TraceGrows(log, n, |log|);
    CloseAllGrows(WriteLastTest(Replayed(log, |log|)));
    if AllObey(rule, Report(log).trace) {
      BrokenStays(rule, Replayed(log, n).trace, Report(log).trace);
    }
  }

  // ----- The buffer over whole logs

  /** A test has been started, and neither a suite nor an after-all hook has begun since. */
  predicate MayBeLive(log: seq<Message>) {
    log != [] &&
    match Last(log)
    case SuiteStart(_, _) => false
    case TestStart(_, _) => true
    case HookStart(name, _, _) => MayBeLive(Front(log)) && !AfterAll(name)
    case _ => MayBeLive(Front(log))
  }

  lemma {:induction false} StepLive(feature: bool, last: bool, s: Replay, m: Message)
    ensures Step(feature, last, s, m).current.Some? && !m.TestStart? ==>
              s.current.Some? && !m.SuiteStart? && !(m.HookStart? && AfterAll(m.name))
  {
    hide Attach, FinishFixture, CloseSteps;
    match m
    case TestEnd(o) =>
      EndTestCurrent(s, o);
      AttachBalances(EndTest(s, o), After, Each);
      AttachBalances(Attach(EndTest(s, o), After, Each), After, All);
    case HookEnd(o) =>
      EndHookInside(s, o);
      var s0 := Queue(s, HookEnd(o), false);
      AttachBalances(s0, Before, All);
      var s1 := Attach(s0, Before, All);
      AttachBalances(s1, Before, Each);
      var s2 := Attach(s1, Before, Each);
      AttachBalances(s2, After, Each);
      AttachBalances(Attach(s2, After, Each), After, All);
    case _ =>
  }

  lemma EndTestCurrent(s: Replay, o: Outcome)
    ensures EndTest(s, o).current == s.current
  {
  }

  lemma {:induction false} LiveMayBe(log: seq<Message>, n: nat)
    requires n <= |log|
    ensures Replayed(log, n).current.Some? ==> MayBeLive(log[..n])
  {
    hide Step;
    if n > 0 {
      LiveMayBe(log, n - 1);
      assert Front(log[..n]) == log[..n - 1] && Last(log[..n]) == log[n - 1];
      StepLive(HasFeature(log), n == |log|, Replayed(log, n - 1), log[n - 1]);
    }
  }

  /** Hooks come one at a time; one that is not named after all begins while a scope is open or no test can be live.
      No test event falls inside a hook, and no suite event unless no test can be live. */
  ghost predicate Bracketed(log: seq<Message>) {
    forall k :: 0 <= k < |log| ==> InBrackets(log[..k], log[k])
  }

  ghost predicate InBrackets(before: seq<Message>, m: Message) {
    var inHook, idle := IsPending(HookPair, before), !MayBeLive(before);
    && (m.HookStart? ==> !inHook && (idle || AfterAll(m.name) || Scopes.OutlineFrom(Scopes.BLANK, before).scopes != []))
    && (m.HookEnd? ==> inHook)
    && (m.TestStart? || m.TestEnd? ==> !inHook)
    && (m.SuiteStart? || m.SuiteEnd? ==> !inHook || idle)
  }

  /** On bracketed logs the buffer is a list of complete hooks, plus the one that has begun, if it waits there. */
  lemma {:induction false} BufferIsBlocks(log: seq<Message>, n: nat) returns (bs: seq<Block>, h: OpenHook)
    requires n <= |log| && Bracketed(log)
    ensures HasShape(Replayed(log, n), bs, h) && (h.NoHook? <==> !IsPending(HookPair, log[..n]))
    ensures h.Waiting? ==> Replayed(log, n).current.None?
  {
    hide Replayed, Step, Scopes.OutlineFrom, Flatten, MayBeLive;
    if n == 0 {
      bs, h := NothingBuffered(log);
    } else {
      ReplayedNext(log, n);
      var bs0, h0 := BufferIsBlocks(log, n - 1);
      var s, m := Replayed(log, n - 1), log[n - 1];
      assert log[..n][..n - 1] == log[..n - 1];
      assert InBrackets(log[..n - 1], m);
      Scopes.ReplayOutline(log, n - 1);
      LiveMayBe(log, n - 1);
      bs, h := StepShape(HasFeature(log), n == |log|, s, bs0, h0, m);
      WaitingStays(HasFeature(log), n == |log|, s, bs0, h0, m);
    }
  }

  lemma NothingBuffered(log: seq<Message>) returns (bs: seq<Block>, h: OpenHook)
    ensures HasShape(Replayed(log, 0), bs, h) && h.NoHook? && !IsPending(HookPair, log[..0])
  {
    bs, h := [], NoHook;
  }

  /** Between the start and the end of a waiting hook no test becomes live. */
  lemma WaitingStays(feature: bool, last: bool, s: Replay, bs: seq<Block>, h: OpenHook, m: Message)
    requires HasShape(s, bs, h)
    ensures h.Waiting? && s.current.None? && !m.TestStart? && !m.TestEnd? && !m.HookStart? && !m.HookEnd? ==>
              Step(feature, last, s, m).current.None?
  {
  }
}
