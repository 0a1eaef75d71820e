/** When every test is given its status and stopped before it is written: exactly, for every log. */
module AllureStopBeforeWrite {
  import opened Wrappers
  import opened AllureMessages
  import opened AllureReplay
  import opened AllureLedger
  import opened AllureLifecycle
  import opened AllureOrder
  import Scopes = AllureScopes

  /** So far every test was stopped before it was written; the running one, if any, is live and has neither status
      nor stop. */
  ghost predicate InTime(s: Replay) {
    && Inv(s) && AllObey(TestsFirst, s.trace) && |s.executables| <= 1
    && var l := Of(s.trace).value;
       if s.executables != [] then s.current == Some(s.executables[0]) && !l.hasStatus && !l.stopped
       else s.current.Some? ==> l.stopped
  }

  /** The message makes the replay write the running test: a suite or another test begins, or an after-all hook does,
      or a hook end outside any fixture, or the test's own start, comes upon an after-all hook in the buffer. */
  predicate CutsShort(feature: bool, last: bool, s: Replay, m: Message) {
    match m
    case SuiteStart(_, _) => s.executables != []
    case SuiteEnd => s.executables != [] && last
    case TestStart(_, _) => s.executables != [] || (!feature && ComesUponAfterAll(s.pending, BEFORES))
    case HookStart(name, _, _) => s.executables != [] && AfterAll(name)
    case HookEnd(o) =>
      && s.executables != [] && s.fixtures == [] && s.pending != [] && !feature
      && ComesUponAfterAll(s.pending + [HookEnd(o)], BEFORES + AFTERS)
    case _ => false
  }

  // ----- Writes and scopes

  /** Writing the current test is in time exactly when it does not run. */
  lemma WriteInTime(s: Replay)
    requires InTime(s)
    ensures if s.executables == [] then InTime(WriteLastTest(s)) else !AllObey(TestsFirst, WriteLastTest(s).trace)
  {
    WriteLastTestObeys(TestsFirst, s);
    WriteLastTestKeeps(s);
  }

  lemma InnerScope(trace: seq<Call>, c: Call)
    requires c.StartScope? || c.WriteScope?
    ensures Of(trace + [c]).Some? ==>
              Of(trace).Some? && SameFlags(Of(trace).value, Of(trace + [c]).value)
              && (AllObey(TestsFirst, trace + [c]) <==> AllObey(TestsFirst, trace))
  {
    OfAppend(trace, c);
    ObeyAppend(TestsFirst, trace, c);
  }

  lemma ScopeInTime(s: Replay)
    requires InTime(s)
    ensures InTime(OpenScope(s)) && InTime(CloseScope(s))
  {
    OpenScopeKeeps(s);
    CloseScopeKeeps(s);
    InnerScope(s.trace, StartScope(s.nextScope));
    if s.scopes != [] {
      InnerScope(s.trace, WriteScope(Last(s.scopes)));
    }
  }

  lemma {:induction false} SuiteInTime(last: bool, s: Replay)
    requires InTime(s)
    ensures
      var t := OpenScope(WriteLastTest(s));
      if s.executables == [] then InTime(t) else !AllObey(TestsFirst, t.trace)
    ensures
      var t := if last then WriteLastTest(CloseScope(s)) else CloseScope(s);
      if s.executables == [] || !last then InTime(t) else !AllObey(TestsFirst, t.trace)
  {
    hide InTime, Of, AllObey;
    WriteInTime(s);
    if s.executables == [] {
      ScopeInTime(WriteLastTest(s));
    } else {
      StaysBroken(TestsFirst, WriteLastTest(s), OpenScope(WriteLastTest(s)));
    }
    ScopeInTime(s);
    WriteInTime(CloseScope(s));
  }

  // ----- Tests

  lemma {:induction false} BeginTestInTime(s: Replay, name: string, start: int)
    requires InTime(s) && s.executables == []
    ensures InTime(BeginTest(s, name, start))
  {
    hide OpenScope, WriteLastTest, Inv, Of, AllObey;
    WriteInTime(s);
    WriteLeaves(s);
    ScopeInTime(WriteLastTest(s));
    BeginTestKeeps(s, name, start);
    InvAllowed(BeginTest(s, name, start));
    var s1 := OpenScope(WriteLastTest(s));
    StartsLive(s1.trace, StartTest(s1.nextTest, name, start, s1.scopes));
  }

  lemma StartsLive(trace: seq<Call>, c: Call)
    requires c.StartTest? && Of(trace + [c]).Some? && AllObey(TestsFirst, trace)
    ensures AllObey(TestsFirst, trace + [c])
    ensures !Of(trace + [c]).value.hasStatus && !Of(trace + [c]).value.stopped
  {
    OfAppend(trace, c);
    ObeyAppend(TestsFirst, trace, c);
  }

  lemma WriteLeaves(s: Replay)
    ensures OpenScope(WriteLastTest(s)).executables == s.executables
            && OpenScope(WriteLastTest(s)).nextTest == s.nextTest
  {
  }

  lemma CloseScopeTests(s: Replay)
    requires Inv(s)
    ensures Inv(CloseScope(s)) && SameFlags(Of(s.trace).value, Of(CloseScope(s).trace).value)
    ensures AllObey(TestsFirst, CloseScope(s).trace) <==> AllObey(TestsFirst, s.trace)
  {
    CloseScopeKeeps(s);
    if s.scopes != [] {
      InnerScope(s.trace, WriteScope(Last(s.scopes)));
    }
  }

  lemma EndTestInTime(s: Replay, o: Outcome)
    requires InTime(s)
    ensures InTime(EndTest(s, o)) && EndTest(s, o).executables == [] && EndTest(s, o).current == s.current
  {
    hide Inv, Of, AllObey, CloseSteps, CloseScope;
    EndTestKeeps(s, o);
    EndTestCurrent(s, o);
    if s.executables != [] {
      var t, s0 := Last(s.executables), s.(executables := Front(s.executables));
      FewerRunning(s);
      CloseStepsInner(TestsFirst, s0, o);
      CloseScopeTests(CloseSteps(s0, o));
      InvAllowed(EndTest(s, o));
      InvAllowed(CloseScope(CloseSteps(s0, o)));
      InvLive(CloseScope(CloseSteps(s0, o)));
      InvLive(s);
      EndTestStack(s, o);
      StopsLive(CloseScope(CloseSteps(s0, o)).trace, t, o);
    }
  }

  lemma InvLive(s: Replay)
    requires Inv(s)
    ensures Of(s.trace).value.live == s.current
  {
  }

  lemma EndTestStack(s: Replay, o: Outcome)
    requires s.executables != []
    ensures EndTest(s, o).executables == Front(s.executables)
    ensures CloseScope(CloseSteps(s.(executables := Front(s.executables)), o)).current == s.current
  {
  }

  lemma StopsLive(trace: seq<Call>, t: nat, o: Outcome)
    requires Of(trace).Some? && AllObey(TestsFirst, trace)
    requires var l := Of(trace).value; l.live == Some(t) && !l.hasStatus && !l.stopped
    requires Of(trace + [SetTestStatus(t, o)] + [StopTest(t, o)]).Some?
    ensures AllObey(TestsFirst, trace + [SetTestStatus(t, o)] + [StopTest(t, o)])
    ensures Of(trace + [SetTestStatus(t, o)] + [StopTest(t, o)]).value.stopped
  {
    ObeyAppend(TestsFirst, trace, SetTestStatus(t, o));
    OfAppend(trace, SetTestStatus(t, o));
    ObeyAppend(TestsFirst, trace + [SetTestStatus(t, o)], StopTest(t, o));
    OfAppend(trace + [SetTestStatus(t, o)], StopTest(t, o));
  }

  // ----- Attaches

  lemma InsideInTime(s: Replay, t: Replay)
    requires Inside(s, t) && Inv(t) && InTime(s)
    ensures InTime(t)
  {
    InsideObeys(TestsFirst, s, t);
  }

  lemma {:induction false} AttachInTime(s: Replay, kind: HookKind, scope: HookScope)
    requires InTime(s)
    ensures
      var t := Attach(s, kind, scope);
      && (if s.executables == [] || !AttachWrites(s, kind, scope) then InTime(t) else !AllObey(TestsFirst, t.trace))
      && t.executables == s.executables && t.current == if AttachWrites(s, kind, scope) then None else s.current
  {
    hide Attach, Inv, Of, AllObey;
    AttachBalances(s, kind, scope);
    AttachKeeps(s, kind, scope);
    if AttachWrites(s, kind, scope) {
      WriteInTime(s);
    }
    var a, t := Approached(s, kind, scope), Attach(s, kind, scope);
    if s.executables == [] || !AttachWrites(s, kind, scope) {
      InsideInTime(a, t);
    } else {
      StaysBroken(TestsFirst, a, t);
    }
  }

  /** Any number of attaches are in time unless they write the running test. */
  lemma {:induction false} AttachTwiceInTime(s: Replay, kind: HookKind, first: HookScope, second: HookScope)
    requires InTime(s)
    ensures
      var t := Attach(Attach(s, kind, first), kind, second);
      && (if s.executables == [] || t.current.Some? then InTime(t) else !AllObey(TestsFirst, t.trace))
      && t.executables == s.executables && (t.current == s.current || t.current.None?)
  {
    hide Attach, InTime, Of, AllObey;
    var s1 := Attach(s, kind, first);
    RunningIsLive(s);
    AttachInTime(s, kind, first);
    if s1.current.None? {
      AttachIdle(s1, kind, second);
    } else {
      AttachInTime(s1, kind, second);
    }
  }

  lemma RunningIsLive(s: Replay)
    requires InTime(s)
    ensures s.executables != [] ==> s.current.Some?
  {
  }

  lemma {:induction false} TestStartInTime(feature: bool, s: Replay, name: string, start: int)
    requires InTime(s)
    ensures
      var t := RunTestStart(feature, s, name, start);
      if s.executables != [] || t.current.None? then !AllObey(TestsFirst, t.trace)
      else InTime(t) && t.executables == [s.nextTest]
  {
    hide Attach, InTime, AllObey, WriteLastTest, OpenScope;
    var s1 := BeginTest(s, name, start);
    WriteLeaves(s);
    if s.executables == [] {
      BeginTestInTime(s, name, start);
      AttachTwiceInTime(s1, Before, All, Each);
    } else {
      WriteInTime(s);
      Scopes.HooksAtTestStart(feature, s, name, start);
      BeginGrows(s, name, start);
      StaysBroken(TestsFirst, WriteLastTest(s), RunTestStart(feature, s, name, start));
    }
  }

  lemma BeginGrows(s: Replay, name: string, start: int)
    ensures WriteLastTest(s).trace <= BeginTest(s, name, start).trace
  {
  }

  lemma {:induction false} TestEndInTime(feature: bool, s: Replay, o: Outcome)
    requires InTime(s)
    ensures InTime(RunTestEnd(feature, s, o)) && RunTestEnd(feature, s, o).executables == []
  {
    hide Attach, EndTest, InTime, AllObey;
    EndTestInTime(s, o);
    AttachTwiceInTime(EndTest(s, o), After, Each, All);
  }

  // ----- Hooks and details

  lemma {:induction false} HookStartInTime(s: Replay, name: string, kind: HookKind, start: int)
    requires InTime(s)
    ensures
      var t := StartHook(s, name, kind, start);
      if s.executables == [] || !AfterAll(name) then InTime(t) && t.executables == s.executables
      else !AllObey(TestsFirst, t.trace)
  {
    hide Of, AllObey, Inv;
    StartHookKeeps(s, name, kind, start);
    StartHookInside(s, name, kind, start);
    WriteInTime(s);
    var a, t := Entered(s, name), StartHook(s, name, kind, start);
    if s.executables == [] || !AfterAll(name) {
      InsideInTime(a, t);
    } else {
      StaysBroken(TestsFirst, a, t);
    }
  }

  lemma {:induction false} HookEndInTime(feature: bool, s: Replay, o: Outcome)
    requires InTime(s)
    ensures
      var t := RunHookEnd(feature, s, o);
      if s.executables == [] || t.current.Some? then InTime(t) && t.executables == s.executables
      else !AllObey(TestsFirst, t.trace)
  {
    hide Attach, EndHook, AllObey, Of, Inv, Inside;
    EndHookKeeps(s, o);
    EndHookInside(s, o);
    InsideInTime(s, EndHook(s, o));
    InsideLeaves(s, EndHook(s, o));
    var s0 := Queue(s, HookEnd(o), false);
    QueueInTime(s, o);
    AttachTwiceInTime(s0, Before, All, Each);
    var s1 := Attach(Attach(s0, Before, All), Before, Each);
    if s1.current.None? {
      AttachIdle(s1, After, Each);
      AttachIdle(s1, After, All);
    } else {
      AttachTwiceInTime(s1, After, Each, All);
    }
  }

  lemma InsideLeaves(s: Replay, t: Replay)
    requires Inside(s, t)
    ensures t.current == s.current && t.executables == s.executables
  {
  }

  lemma QueueInTime(s: Replay, o: Outcome)
    requires InTime(s)
    ensures InTime(Queue(s, HookEnd(o), false))
  {
  }

  lemma {:induction false} OtherInTime(s: Replay, m: Message)
    requires InTime(s) && (m.TestInfo? || IsRuntime(m))
    ensures var t := if m.TestInfo? then AddTestInfo(s, m.fullName) else Deliver(s, m);
            InTime(t) && t.executables == s.executables
  {
    if m.TestInfo? {
      InfoInTime(s, m.fullName);
    } else {
      hide Inv, Of, AllObey, CountHookStep;
      DeliverInner(TestsFirst, s, m);
      DeliverKeeps(s, m);
    }
  }

  lemma InfoInTime(s: Replay, fullName: string)
    requires InTime(s)
    ensures InTime(AddTestInfo(s, fullName))
  {
    if s.executables != [] {
      ObeyAppend(TestsFirst, s.trace, SetTestName(Last(s.executables), fullName));
      OfAppend(s.trace, SetTestName(Last(s.executables), fullName));
    }
  }

  // ----- Every log

  /** One message of any kind: the rule goes on exactly when the message does not cut the running test short. */
  lemma {:induction false} StepInTime(feature: bool, last: bool, s: Replay, m: Message)
    requires InTime(s)
    ensures if CutsShort(feature, last, s, m) then !AllObey(TestsFirst, Step(feature, last, s, m).trace)
            else InTime(Step(feature, last, s, m))
  {
    hide InTime, RunTestStart, RunTestEnd, StartHook, RunHookEnd, AddTestInfo, Deliver, AllObey, OpenScope, CloseScope;
    hide WriteLastTest, ComesUponAfterAll;
    RunningIsLive(s);
    match m
    case SuiteStart(_, _) => SuiteInTime(last, s);
    case SuiteEnd => SuiteInTime(last, s);
    case TestStart(name, start) => StartWrites(feature, s, name, start); TestStartInTime(feature, s, name, start);
    case TestEnd(o) => TestEndInTime(feature, s, o);
    case HookStart(name, kind, start) => HookStartInTime(s, name, kind, start);
    case HookEnd(o) => HookEndCuts(feature, s, o); HookEndInTime(feature, s, o);
    case _ => OtherInTime(s, m);
  }

  lemma {:induction false} HookEndCuts(feature: bool, s: Replay, o: Outcome)
    requires s.executables != [] ==> s.current.Some?
    ensures CutsShort(feature, false, s, HookEnd(o)) <==> s.executables != [] && RunHookEnd(feature, s, o).current.None?
  {
    hide RunHookEnd, ComesUponAfterAll;
    if s.executables != [] {
      HookEndWrites(feature, s, o);
    }
  }

  ghost predicate NeverCutShort(log: seq<Message>, n: nat)
    requires n <= |log|
  {
    forall k :: 0 <= k < n ==> !CutsShort(HasFeature(log), k + 1 == |log|, Replayed(log, k), log[k])
  }

  lemma {:induction false} InTimeUntil(log: seq<Message>, n: nat)
    requires n <= |log| && NeverCutShort(log, n)
    ensures InTime(Replayed(log, n))
  {
    hide Replayed, Step, InTime, CutsShort;
    if n == 0 {
      NothingYet(log);
    } else {
      InTimeUntil(log, n - 1);
      ReplayedNext(log, n);
      assert !CutsShort(HasFeature(log), n - 1 + 1 == |log|, Replayed(log, n - 1), log[n - 1]);
      StepInTime(HasFeature(log), n == |log|, Replayed(log, n - 1), log[n - 1]);
    }
  }

  lemma NothingYet(log: seq<Message>)
    ensures InTime(Replayed(log, 0)) && Replayed(log, 0) == INIT
  {
  }

  lemma FirstCut(log: seq<Message>) returns (k: nat)
    requires !NeverCutShort(log, |log|)
    ensures k < |log| && NeverCutShort(log, k) && CutsShort(HasFeature(log), k + 1 == |log|, Replayed(log, k), log[k])
  {
    hide CutsShort, Replayed, HasFeature;
    k := 0;
    while !CutsShort(HasFeature(log), k + 1 == |log|, Replayed(log, k), log[k])
      invariant k < |log| && NeverCutShort(log, k) && !NeverCutShort(log, |log|)
      decreases |log| - k
    {
      k := k + 1;
    }
  }

  lemma {:induction false} CloseAllTests(s: Replay)
    requires Inv(s)
    ensures AllObey(TestsFirst, CloseAll(s).trace) <==> AllObey(TestsFirst, s.trace)
    decreases |s.scopes|
  {
    if s.scopes != [] {
      CloseScopeKeeps(s);
      InnerScope(s.trace, WriteScope(Last(s.scopes)));
      CloseAllTests(CloseScope(s));
    }
  }

  lemma {:induction false} EndInTime(log: seq<Message>)
    requires InTime(Replayed(log, |log|))
    ensures
      var r := Report(log);
      if Replayed(log, |log|).executables == []
      then AllObey(TestsFirst, r.trace) && TestEvents(r.trace) == FullLives(r.nextTest)
      else !AllObey(TestsFirst, r.trace)
  {
    hide Replayed, Of, AllObey, CloseAll;
    var s := Replayed(log, |log|);
    var w := WriteLastTest(s);
    WriteInTime(s);
    WriteLastTestKeeps(s);
    CloseAllTests(w);
    if s.executables == [] {
      CloseAllKeeps(w);
      WholeLives(Report(log));
    }
  }

  lemma WholeLives(r: Replay)
    requires Inv(r) && AllObey(TestsFirst, r.trace) && r.current.None?
    ensures TestEvents(r.trace) == FullLives(r.nextTest)
  {
    TestsObey(r.trace);
  }

  lemma BrokenAt(log: seq<Message>, k: nat)
    requires k < |log| && InTime(Replayed(log, k))
    requires CutsShort(HasFeature(log), k + 1 == |log|, Replayed(log, k), log[k])
    ensures !AllObey(TestsFirst, Replayed(log, k + 1).trace)
  {
    hide Replayed, InTime, CutsShort, AllObey, Step;
    ReplayedNext(log, k + 1);
    StepInTime(HasFeature(log), k + 1 == |log|, Replayed(log, k), log[k]);
  }

  /**
    Stop before write, exactly, for every log: each test is named, given its status and stopped before it is written,
    if and only if no message cuts the running test short and none runs at the end. Then the life of every test is
    begun, status, stopped, written.
   */
  lemma {:induction false} TestsFirstExactly(log: seq<Message>)
    ensures AllObey(TestsFirst, Report(log).trace) <==>
            NeverCutShort(log, |log|) && Replayed(log, |log|).executables == []
    ensures AllObey(TestsFirst, Report(log).trace) ==> TestEvents(Report(log).trace) == FullLives(Report(log).nextTest)
  {
    hide Replayed, Report, InTime, AllObey, CutsShort, TestEvents;
    if NeverCutShort(log, |log|) {
      InTimeUntil(log, |log|);
      EndInTime(log);
    } else {
      var k := FirstCut(log);
      InTimeUntil(log, k);
      BrokenAt(log, k);
      BrokenInReport(TestsFirst, log, k + 1);
    }
  }

  /** A test runs from its start to its end, whatever comes between. */
  lemma {:induction false} RunningStep(feature: bool, last: bool, s: Replay, m: Message)
    requires InTime(s)
    ensures Step(feature, last, s, m).executables != [] <==> m.TestStart? || (s.executables != [] && !m.TestEnd?)
  {
    hide InTime, RunTestStart, RunTestEnd, RunHookEnd, StartHook;
    match m
    case TestStart(name, start) => Scopes.HooksAtTestStart(feature, s, name, start);
    case TestEnd(o) => TestEndInTime(feature, s, o);
    case HookStart(name, kind, start) => Scopes.StartHookDetails(s, name, kind, start);
    case HookEnd(o) => Scopes.HookEndDetails(feature, s, o);
    case _ =>
  }

  // ----- Read off the log

  /** Tests follow one another with no suite event inside; no after-all hook begins inside a test or is taken for a
      before-type one; no test begins inside a hook, and a hook end inside a test belongs to a hook that began. */
  ghost predicate InSequence(before: seq<Message>, m: Message) {
    var running, inHook := IsPending(TestPair, before), IsPending(HookPair, before);
    match m
    case SuiteStart(_, _) => !running
    case SuiteEnd => !running
    case TestStart(_, _) => !running && !inHook
    case TestEnd(_) => running
    case HookStart(name, kind, _) => AfterAll(name) ==> !running && kind.After?
    case HookEnd(_) => running ==> inHook
    case _ => true
  }

  ghost predicate Sequenced(log: seq<Message>) {
    forall k :: 0 <= k < |log| ==> InSequence(log[..k], log[k])
  }

  /** No before-type hook in the buffer is named after all. */
  ghost predicate BeforesArePlain(pending: seq<Message>) {
    forall m :: m in pending && m.HookStart? && m.kind.Before? ==> !AfterAll(m.name)
  }

  /** What a sequenced log says about the state: the pending test is the running one, a scope is open around it, and a
      hook that began in it has its fixture open. */
  ghost predicate Follows(before: seq<Message>, s: Replay) {
    var running, inHook := IsPending(TestPair, before), IsPending(HookPair, before);
    && (running <==> s.executables != [])
    && (running ==> s.current.Some? && s.scopes != [] && (inHook ==> s.fixtures != []))
    && BeforesArePlain(s.pending)
  }

  lemma {:induction false} BeforesFindPlain(s: Replay, scope: HookScope)
    requires BeforesArePlain(s.pending)
    ensures !AttachWrites(s, Before, scope) && BeforesArePlain(Attach(s, Before, scope).pending)
  {
    hide Attach;
    var i := FindHook(s.pending, Before, scope, 0);
    if i < |s.pending| {
      assert s.pending[i] in s.pending;
    }
    AttachBalances(s, Before, scope);
  }

  lemma {:induction false} AttachFollows(s: Replay, kind: HookKind, scope: HookScope)
    requires BeforesArePlain(s.pending)
    ensures BeforesArePlain(Attach(s, kind, scope).pending)
  {
    hide Attach;
    AttachBalances(s, kind, scope);
  }

  lemma {:induction false} TestStartFollows(feature: bool, s: Replay, name: string, start: int)
    requires BeforesArePlain(s.pending)
    ensures
      var t := RunTestStart(feature, s, name, start);
      && t.current.Some? && t.scopes == s.scopes + [s.nextScope] && t.executables == s.executables + [s.nextTest]
      && BeforesArePlain(t.pending)
  {
    hide Attach, AttachWrites;
    var s1 := BeginTest(s, name, start);
    var s2 := Attach(s1, Before, All);
    BeforesFindPlain(s1, All);
    AttachBalances(s1, Before, All);
    BeforesFindPlain(s2, Each);
    AttachBalances(s2, Before, Each);
  }

  lemma {:induction false} TestEndFollows(feature: bool, s: Replay, o: Outcome)
    requires BeforesArePlain(s.pending)
    ensures BeforesArePlain(RunTestEnd(feature, s, o).pending)
  {
    hide Attach;
    EndTestQueue(s, o);
    AttachFollows(EndTest(s, o), After, Each);
    AttachFollows(Attach(EndTest(s, o), After, Each), After, All);
  }

  lemma EndTestQueue(s: Replay, o: Outcome)
    ensures EndTest(s, o).pending == s.pending
  {
  }

  lemma {:induction false} HookEndFollows(feature: bool, s: Replay, o: Outcome)
    requires BeforesArePlain(s.pending)
    ensures BeforesArePlain(RunHookEnd(feature, s, o).pending)
    ensures s.current.Some? && s.fixtures != [] ==> RunHookEnd(feature, s, o).current == s.current
    ensures RunHookEnd(feature, s, o).scopes == s.scopes && RunHookEnd(feature, s, o).executables == s.executables
  {
    hide Attach;
    Scopes.HookEndDetails(feature, s, o);
    var s0 := Queue(s, HookEnd(o), false);
    AttachFollows(s0, Before, All);
    var s1 := Attach(s0, Before, All);
    AttachFollows(s1, Before, Each);
    var s2 := Attach(s1, Before, Each);
    AttachFollows(s2, After, Each);
    AttachFollows(Attach(s2, After, Each), After, All);
  }

  /** Details and hook starts: a hook that begins in a test opens a fixture. */
  lemma {:induction false} DetailFollows(s: Replay, m: Message)
    requires BeforesArePlain(s.pending) && (m.TestInfo? || IsRuntime(m))
    ensures
      var t := if m.TestInfo? then AddTestInfo(s, m.fullName) else Deliver(s, m);
      t.current == s.current && t.scopes == s.scopes && t.fixtures == s.fixtures && BeforesArePlain(t.pending)
  {
  }

  lemma HookStartFollows(s: Replay, name: string, kind: HookKind, start: int)
    requires BeforesArePlain(s.pending) && (AfterAll(name) ==> kind.After?)
    ensures
      var t := StartHook(s, name, kind, start);
      && t.scopes == s.scopes && BeforesArePlain(t.pending)
      && (!AfterAll(name) && s.current.Some? && s.scopes != [] ==> t.current.Some? && t.fixtures != [])
  {
    hide AfterAll;
  }

  lemma SuiteFollows(s: Replay)
    ensures OpenScope(WriteLastTest(s)).pending == s.pending && CloseScope(s).pending == s.pending
    ensures WriteLastTest(CloseScope(s)).pending == s.pending
  {
  }

  lemma {:induction false} StepFollows(feature: bool, last: bool, before: seq<Message>, s: Replay, m: Message)
    requires InTime(s) && Follows(before, s) && InSequence(before, m)
    ensures Follows(before + [m], Step(feature, last, s, m))
  {
    hide InTime, RunTestStart, RunTestEnd, RunHookEnd, StartHook, AddTestInfo, Deliver, OpenScope, CloseScope,
         WriteLastTest;
    hide BeforesArePlain;
    assert Front(before + [m]) == before && Last(before + [m]) == m;
    RunningStep(feature, last, s, m);
    match m
    case SuiteStart(_, _) => SuiteFollows(s);
    case SuiteEnd => SuiteFollows(s);
    case TestStart(name, start) => TestStartFollows(feature, s, name, start);
    case TestEnd(o) => TestEndFollows(feature, s, o);
    case HookStart(name, kind, start) => HookStartFollows(s, name, kind, start);
    case HookEnd(o) => HookEndFollows(feature, s, o);
    case _ => DetailFollows(s, m);
  }

  lemma {:induction false} FollowsUncut(feature: bool, last: bool, before: seq<Message>, s: Replay, m: Message)
    requires Follows(before, s) && InSequence(before, m)
    ensures !CutsShort(feature, last, s, m)
  {
    hide RunTestStart, RunHookEnd, BeforesArePlain, ComesUponAfterAll, IsPending;
    match m
    case TestStart(name, start) => StartWrites(feature, s, name, start); TestStartFollows(feature, s, name, start);
    case HookEnd(o) => HookEndCuts(feature, s, o); HookEndFollows(feature, s, o);
    case _ =>
  }

  lemma {:induction false} SequencedFollows(log: seq<Message>, n: nat)
    requires n <= |log| && Sequenced(log)
    ensures NeverCutShort(log, n) && Follows(log[..n], Replayed(log, n))
  {
    hide Replayed, Step, CutsShort, HasFeature, InTime, Follows, InSequence, IsPending;
    if n == 0 {
      NothingFollows(log);
    } else {
      SequencedFollows(log, n - 1);
      InTimeUntil(log, n - 1);
      assert InSequence(log[..n - 1], log[n - 1]);
      assert log[..n] == log[..n - 1] + [log[n - 1]];
      ReplayedNext(log, n);
      StepFollows(HasFeature(log), n == |log|, log[..n - 1], Replayed(log, n - 1), log[n - 1]);
      FollowsUncut(HasFeature(log), n == |log|, log[..n - 1], Replayed(log, n - 1), log[n - 1]);
    }
  }

  lemma NothingFollows(log: seq<Message>)
    ensures Follows(log[..0], Replayed(log, 0))
  {
    hide InTime;
    NothingYet(log);
  }

  /** On such logs, complete ones, every test is begun, given its status once, stopped once and then written; nothing
      is asked about scopes, nor about hooks between tests. */
  lemma {:induction false} EveryTestIsStoppedFirst(log: seq<Message>)
    requires Sequenced(log) && !IsPending(TestPair, log)
    ensures
      var r := Report(log);
      AllObey(TestsFirst, r.trace) && TestEvents(r.trace) == FullLives(r.nextTest)
  {
    hide Replayed, Report, AllObey, TestEvents;
    SequencedFollows(log, |log|);
    assert log[..|log|] == log;
    TestsFirstExactly(log);
  }

  // ----- Logs with a feature: nothing is ever attached

  /** Tests one after another with no suite event inside; hooks and steps anywhere. */
  ghost predicate TestsInRow(log: seq<Message>) {
    forall k :: 0 <= k < |log| ==>
      var running := IsPending(TestPair, log[..k]);
      match log[k]
      case SuiteStart(_, _) => !running
      case SuiteEnd => !running
      case TestStart(_, _) => !running
      case TestEnd(_) => running
      case _ => true
  }

  predicate AfterAllInTest(before: seq<Message>, m: Message) {
    IsPending(TestPair, before) && m.HookStart? && AfterAll(m.name)
  }

  lemma {:induction false} FeatureStep(last: bool, s: Replay, m: Message, running: bool)
    requires InTime(s) && (running <==> s.executables != [])
    requires m.SuiteStart? || m.SuiteEnd? || m.TestStart? ==> !running
    ensures CutsShort(true, last, s, m) <==> running && m.HookStart? && AfterAll(m.name)
  {
    hide Of, AllObey, Inv;
  }

  lemma PendingAfter(log: seq<Message>, n: nat)
    requires 0 < n <= |log|
    ensures IsPending(TestPair, log[..n]) <==>
            log[n - 1].TestStart? || (!log[n - 1].TestEnd? && IsPending(TestPair, log[..n - 1]))
  {
    assert log[..n][..n - 1] == log[..n - 1];
  }

  lemma {:induction false} FeatureRunning(log: seq<Message>, n: nat)
    requires n <= |log| && HasFeature(log) && TestsInRow(log) && NeverCutShort(log, n)
    ensures IsPending(TestPair, log[..n]) <==> Replayed(log, n).executables != []
  {
    hide Replayed, Step, InTime, HasFeature, CutsShort, IsPending, TestsInRow;
    if n == 0 {
      NothingYet(log);
      assert !IsPending(TestPair, log[..0]) by { NonePending(log[..0]); }
    } else {
      FeatureRunning(log, n - 1);
      InTimeUntil(log, n - 1);
      PendingAfter(log, n);
      ReplayedNext(log, n);
      RunningStep(HasFeature(log), n == |log|, Replayed(log, n - 1), log[n - 1]);
    }
  }

  lemma NonePending(log: seq<Message>)
    requires log == []
    ensures !IsPending(TestPair, log)
  {
  }

  /** Before the first cut, a cut is an after-all hook that begins in a test. */
  lemma {:induction false} FeatureCut(log: seq<Message>, k: nat)
    requires k < |log| && HasFeature(log) && TestsInRow(log) && NeverCutShort(log, k)
    ensures CutsShort(HasFeature(log), k + 1 == |log|, Replayed(log, k), log[k]) <==> AfterAllInTest(log[..k], log[k])
  {
    hide InTime, HasFeature, CutsShort, Replayed;
    FeatureRunning(log, k);
    InTimeUntil(log, k);
    FeatureStep(k + 1 == |log|, Replayed(log, k), log[k], IsPending(TestPair, log[..k]));
  }

  lemma {:induction false} FeatureUncut(log: seq<Message>, n: nat)
    requires n <= |log| && HasFeature(log) && TestsInRow(log)
    requires forall k :: 0 <= k < n ==> !AfterAllInTest(log[..k], log[k])
    ensures NeverCutShort(log, n)
  {
    hide HasFeature, CutsShort, Replayed, AfterAllInTest;
    if n > 0 {
      FeatureUncut(log, n - 1);
      FeatureCut(log, n - 1);
    }
  }

  /** With a feature in the log the hooks need not be well formed at all: tests are stopped before they are written
      exactly when no after-all hook begins while a test runs and the last test is ended. */
  lemma {:induction false} StoppedFirstWithFeature(log: seq<Message>)
    requires HasFeature(log) && TestsInRow(log)
    ensures AllObey(TestsFirst, Report(log).trace) <==>
            !IsPending(TestPair, log) && forall k :: 0 <= k < |log| ==> !AfterAllInTest(log[..k], log[k])
  {
    hide Replayed, Report, AllObey, HasFeature, CutsShort, AfterAllInTest, TestEvents;
    TestsFirstExactly(log);
    if forall k :: 0 <= k < |log| ==> !AfterAllInTest(log[..k], log[k]) {
      FeatureUncut(log, |log|);
      FeatureRunning(log, |log|);
      assert log[..|log|] == log;
    } else if NeverCutShort(log, |log|) {
      var k :| 0 <= k < |log| && AfterAllInTest(log[..k], log[k]);
      FeatureCut(log, k);
    }
  }
}
