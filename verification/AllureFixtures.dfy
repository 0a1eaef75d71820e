/** Fixtures: exactly when each is stopped before its own scope is written, and before any test begins or is written. */
module AllureFixtures {
  import opened Wrappers
  import opened AllureMessages
  import opened AllureReplay
  import opened AllureLedger
  import opened AllureLifecycle
  import opened AllureOrder
  import Scopes = AllureScopes

  /** So far no fixture was open when a test began or a test or scope was written; one that is open has a test and a
      scope around it. */
  ghost predicate Settled(s: Replay) {
    Inv(s) && AllObey(FixturesFirst, s.trace) && (s.fixtures != [] ==> s.current.Some? && s.scopes != [])
  }

  /** While a fixture is open: a suite begins or ends, a test begins or ends, or an after-all hook begins. A test end
      with no test running counts when it comes upon an after-all hook in the buffer. */
  predicate Interrupts(feature: bool, s: Replay, m: Message) {
    s.fixtures != [] &&
    match m
    case SuiteStart(_, _) => true
    case SuiteEnd => true
    case TestStart(_, _) => true
    case TestEnd(_) => s.executables != [] || (!feature && ComesUponAfterAll(s.pending, AFTERS))
    case HookStart(name, _, _) => AfterAll(name)
    case _ => false
  }

  // ----- No fixture open, or no interruption

  lemma CloseScopeFixtures(s: Replay)
    requires Inv(s) && s.fixtures == [] && AllObey(FixturesFirst, s.trace)
    ensures AllObey(FixturesFirst, CloseScope(s).trace)
  {
    if s.scopes != [] {
      ObeyAppend(FixturesFirst, s.trace, WriteScope(Last(s.scopes)));
    }
  }

  lemma {:induction false} BeginTestFixtures(s: Replay, name: string, start: int)
    requires Inv(s) && s.fixtures == [] && AllObey(FixturesFirst, s.trace)
    ensures AllObey(FixturesFirst, BeginTest(s, name, start).trace)
  {
    var s0 := WriteLastTest(s);
    WriteLastTestObeys(FixturesFirst, s);
    WriteLastTestKeeps(s);
    ObeyAppend(FixturesFirst, s0.trace, StartScope(s0.nextScope));
    OpenScopeKeeps(s0);
    var s1 := OpenScope(s0);
    ObeyAppend(FixturesFirst, s1.trace, StartTest(s1.nextTest, name, start, s1.scopes));
  }

  lemma EndTestFixtures(s: Replay, o: Outcome)
    requires Inv(s) && s.fixtures == [] && AllObey(FixturesFirst, s.trace)
    ensures AllObey(FixturesFirst, EndTest(s, o).trace)
  {
    hide CloseSteps, CloseScope, Of, AllObey;
    EndTestKeeps(s, o);
    if s.executables != [] {
      var s0 := s.(executables := Front(s.executables));
      CloseStepsInner(FixturesFirst, s0, o);
      assert CloseSteps(s0, o).fixtures == [] by { StepsLeaveFixtures(s0, o); }
      CloseScopeFixtures(CloseSteps(s0, o));
      var s2, t := CloseScope(CloseSteps(s0, o)), Last(s.executables);
      assert s2.trace + [SetTestStatus(t, o)] + [StopTest(t, o)] == EndTest(s, o).trace;
      QuietCalls(FixturesFirst, s2.trace, EndTest(s, o).trace);
    }
  }

  lemma StepsLeaveFixtures(s: Replay, o: Outcome)
    ensures CloseSteps(s, o).fixtures == s.fixtures && CloseSteps(s, o).scopes == s.scopes
  {
  }

  lemma SettledWrite(s: Replay)
    requires Inv(s) && AllObey(FixturesFirst, s.trace)
    ensures AllObey(FixturesFirst, WriteLastTest(s).trace) <==> s.fixtures == [] || s.current.None?
  {
    WriteLastTestObeys(FixturesFirst, s);
  }

  /** An attach keeps the rule unless it writes the current test while a fixture is open. */
  lemma {:induction false} AttachSettled(s: Replay, kind: HookKind, scope: HookScope)
    requires Settled(s)
    ensures
      var t := Attach(s, kind, scope);
      && (s.fixtures == [] || !AttachWrites(s, kind, scope) ==> Settled(t) && t.fixtures == s.fixtures)
      && (s.fixtures != [] && AttachWrites(s, kind, scope) ==> !AllObey(FixturesFirst, t.trace))
      && (t.current.Some? <==> s.current.Some? && !AttachWrites(s, kind, scope)) && t.scopes == s.scopes
  {
    hide Attach, Inv, Of, AllObey;
    AttachBalances(s, kind, scope);
    AttachKeeps(s, kind, scope);
    SettledWrite(s);
    InsideObeys(FixturesFirst, Approached(s, kind, scope), Attach(s, kind, scope));
  }

  /** Two attaches: the rule holds after them unless they write the current test while a fixture is open. */
  lemma {:induction false} AttachTwiceSettled(s: Replay, kind: HookKind, first: HookScope, second: HookScope)
    requires Settled(s)
    ensures
      var t := Attach(Attach(s, kind, first), kind, second);
      && (s.fixtures == [] || t.current.Some? ==> Settled(t) && t.fixtures == s.fixtures)
      && (s.fixtures != [] && t.current.None? ==> !AllObey(FixturesFirst, t.trace))
      && (t.current.Some? ==> s.current.Some?) && t.scopes == s.scopes
  {
    hide Attach, Inv, Of, AllObey, AttachWrites;
    var s1 := Attach(s, kind, first);
    var t := Attach(s1, kind, second);
    AttachSettled(s, kind, first);
    if s.fixtures == [] || !AttachWrites(s, kind, first) {
      AttachSettled(s1, kind, second);
    } else {
      AttachIdle(s1, kind, second);
      assert t == s1;
    }
  }

  // ----- One message

  lemma OpenScopeObeys(s: Replay)
    requires Inv(s)
    ensures AllObey(FixturesFirst, OpenScope(s).trace) <==> AllObey(FixturesFirst, s.trace)
  {
    ObeyAppend(FixturesFirst, s.trace, StartScope(s.nextScope));
  }

  lemma CloseScopeObeys(s: Replay)
    requires Inv(s) && AllObey(FixturesFirst, s.trace)
    ensures AllObey(FixturesFirst, CloseScope(s).trace) <==> s.fixtures == [] || s.scopes == []
  {
    if s.scopes != [] {
      ObeyAppend(FixturesFirst, s.trace, WriteScope(Last(s.scopes)));
    }
  }

  lemma SuiteStartSettled(s: Replay)
    requires Settled(s)
    ensures var t := OpenScope(WriteLastTest(s));
            if s.fixtures == [] then Settled(t) && t.fixtures == [] else !AllObey(FixturesFirst, t.trace)
  {
    hide Of, AllObey, Inv;
    WriteLastTestKeeps(s);
    SettledWrite(s);
    OpenScopeKeeps(WriteLastTest(s));
    OpenScopeObeys(WriteLastTest(s));
  }

  lemma SuiteEndSettled(last: bool, s: Replay)
    requires Settled(s)
    ensures var t := if last then WriteLastTest(CloseScope(s)) else CloseScope(s);
            if s.fixtures == [] then Settled(t) && t.fixtures == [] else !AllObey(FixturesFirst, t.trace)
  {
    hide Of, AllObey, Inv;
    var s1 := CloseScope(s);
    CloseScopeKeeps(s);
    CloseScopeObeys(s);
    WriteLastTestKeeps(s1);
    if s.fixtures == [] {
      SettledWrite(s1);
    } else {
      StaysBroken(FixturesFirst, s1, WriteLastTest(s1));
    }
  }

  lemma {:induction false} TestStartSettled(feature: bool, s: Replay, name: string, start: int)
    requires Settled(s)
    ensures var t := RunTestStart(feature, s, name, start);
            if s.fixtures == [] then Settled(t) && t.fixtures == [] else !AllObey(FixturesFirst, t.trace)
  {
    hide Attach, Of, AllObey, Inv;
    BeginTestKeeps(s, name, start);
    if s.fixtures == [] {
      BeginTestFixtures(s, name, start);
      AttachTwiceSettled(BeginTest(s, name, start), Before, All, Each);
    } else {
      SettledWrite(s);
      Scopes.HooksAtTestStart(feature, s, name, start);
      assert WriteLastTest(s).trace <= BeginTest(s, name, start).trace;
      StaysBroken(FixturesFirst, WriteLastTest(s), RunTestStart(feature, s, name, start));
    }
  }

  /** Ending a test closes its scope: that breaks the rule when a fixture is open. */
  lemma {:induction false} EndTestBreaks(s: Replay, o: Outcome)
    requires Settled(s) && s.fixtures != [] && s.executables != []
    ensures !AllObey(FixturesFirst, EndTest(s, o).trace)
  {
    hide CloseSteps, Of, AllObey, Inv;
    var s0 := s.(executables := Front(s.executables));
    assert Inv(s0) by { FewerRunning(s); }
    var s1 := CloseSteps(s0, o);
    CloseStepsInner(FixturesFirst, s0, o);
    StepsLeaveFixtures(s0, o);
    CloseScopeObeys(s1);
    assert CloseScope(s1).trace <= EndTest(s, o).trace;
    StaysBroken(FixturesFirst, CloseScope(s1), EndTest(s, o));
  }

  lemma {:induction false} TestEndSettled(feature: bool, s: Replay, o: Outcome)
    requires Settled(s)
    ensures
      var t := RunTestEnd(feature, s, o);
      if s.fixtures == [] || (s.executables == [] && t.current.Some?)
      then Settled(t) && t.fixtures == s.fixtures
      else !AllObey(FixturesFirst, t.trace)
  {
    hide Attach, EndTest, Of, AllObey, Inv;
    var s1 := EndTest(s, o);
    EndTestKeeps(s, o);
    EndTestFrame(s, o);
    if s.fixtures == [] {
      EndTestFixtures(s, o);
      AttachTwiceSettled(s1, After, Each, All);
    } else if s.executables == [] {
      AttachTwiceSettled(s, After, Each, All);
    } else {
      EndTestBreaks(s, o);
      Scopes.HooksAtTestEnd(feature, s, o);
      StaysBroken(FixturesFirst, s1, RunTestEnd(feature, s, o));
    }
  }

  lemma EndTestFrame(s: Replay, o: Outcome)
    ensures EndTest(s, o).fixtures == s.fixtures && EndTest(s, o).current == s.current
    ensures s.executables == [] ==> EndTest(s, o) == s
  {
  }

  lemma {:induction false} HookStartSettled(s: Replay, name: string, kind: HookKind, start: int)
    requires Settled(s)
    ensures
      var t := StartHook(s, name, kind, start);
      if s.fixtures == [] || !AfterAll(name) then Settled(t) else !AllObey(FixturesFirst, t.trace)
  {
    hide Of, AllObey, Inv;
    StartHookKeeps(s, name, kind, start);
    SettledWrite(s);
    if s.current.Some? && !AfterAll(name) && s.scopes != [] {
      BeginFixtureInner(FixturesFirst, s, name, kind, start);
    }
  }

  lemma {:induction false} HookEndSettled(feature: bool, s: Replay, o: Outcome)
    requires Settled(s)
    ensures Settled(RunHookEnd(feature, s, o))
    ensures RunHookEnd(feature, s, o).fixtures == if s.fixtures == [] then [] else Front(s.fixtures)
  {
    hide Attach, FinishFixture, Of, AllObey;
    if s.fixtures != [] {
      FinishFixtureInner(FixturesFirst, s, o);
      FinishFrame(s, o);
    } else {
      var s0 := Queue(s, HookEnd(o), false);
      AttachTwiceSettled(s0, Before, All, Each);
      AttachTwiceSettled(Attach(Attach(s0, Before, All), Before, Each), After, Each, All);
    }
  }

  lemma {:induction false} OtherSettled(s: Replay, m: Message)
    requires Settled(s) && (m.TestInfo? || IsRuntime(m))
    ensures
      var t := if m.TestInfo? then AddTestInfo(s, m.fullName) else Deliver(s, m);
      Settled(t) && t.fixtures == s.fixtures
  {
    hide Of, AllObey;
    if m.TestInfo? {
      if s.executables != [] {
        ObeyAppend(FixturesFirst, s.trace, SetTestName(Last(s.executables), m.fullName));
        OfAppend(s.trace, SetTestName(Last(s.executables), m.fullName));
      }
    } else {
      DeliverInner(FixturesFirst, s, m);
      DeliverKeeps(s, m);
    }
  }

  /** One message of any kind in any settled state: the rule goes on exactly when the message does not interrupt. */
  lemma {:induction false} StepSettled(feature: bool, last: bool, s: Replay, m: Message)
    requires Settled(s)
    ensures if Interrupts(feature, s, m) then !AllObey(FixturesFirst, Step(feature, last, s, m).trace)
            else Settled(Step(feature, last, s, m))
  {
    hide Settled, RunTestStart, RunTestEnd, StartHook, RunHookEnd, AddTestInfo, Deliver, AllObey, ComesUponAfterAll;
    match m
    case SuiteStart(_, _) => SuiteStartSettled(s);
    case SuiteEnd => SuiteEndSettled(last, s);
    case TestStart(name, start) => TestStartSettled(feature, s, name, start);
    case TestEnd(o) => TestEndSettled(feature, s, o); TestEndWrites(feature, s, o);
    case HookStart(name, kind, start) => HookStartSettled(s, name, kind, start);
    case HookEnd(o) => HookEndSettled(feature, s, o);
    case _ => OtherSettled(s, m);
  }

  lemma {:induction false} TestEndWrites(feature: bool, s: Replay, o: Outcome)
    requires Settled(s)
    ensures s.fixtures != [] && s.executables == [] ==>
              (RunTestEnd(feature, s, o).current.None? <==> !feature && ComesUponAfterAll(s.pending, AFTERS))
  {
    hide Of, AllObey, Inv, RunTestEnd, ComesUponAfterAll;
    if s.fixtures != [] && s.executables == [] {
      EndWrites(feature, s, o);
    }
  }

  // ----- Whole logs

  ghost predicate NeverInterrupted(log: seq<Message>, n: nat)
    requires n <= |log|
  {
    forall k :: 0 <= k < n ==> !Interrupts(HasFeature(log), Replayed(log, k), log[k])
  }

  lemma {:induction false} SettledUntil(log: seq<Message>, n: nat)
    requires n <= |log| && NeverInterrupted(log, n)
    ensures Settled(Replayed(log, n))
  {
    hide Replayed, Step, Settled, Interrupts;
    if n == 0 {
      NothingSettled(log);
    } else {
      SettledUntil(log, n - 1);
      ReplayedNext(log, n);
      StepSettled(HasFeature(log), n == |log|, Replayed(log, n - 1), log[n - 1]);
    }
  }

  lemma NothingSettled(log: seq<Message>)
    ensures Settled(Replayed(log, 0)) && Replayed(log, 0).fixtures == []
  {
  }

  lemma {:induction false} CloseAllSettled(s: Replay)
    requires Settled(s) && s.fixtures == []
    ensures Settled(CloseAll(s)) && CloseAll(s).fixtures == [] && CloseAll(s).nextFixture == s.nextFixture
    decreases |s.scopes|
  {
    if s.scopes != [] {
      CloseScopeKeeps(s);
      CloseScopeObeys(s);
      CloseAllSettled(CloseScope(s));
    }
  }

  lemma FirstInterruption(log: seq<Message>) returns (k: nat)
    requires !NeverInterrupted(log, |log|)
    ensures k < |log| && NeverInterrupted(log, k) && Interrupts(HasFeature(log), Replayed(log, k), log[k])
  {
    hide Interrupts, Replayed, HasFeature;
    k := 0;
    while !Interrupts(HasFeature(log), Replayed(log, k), log[k])
      invariant k < |log| && NeverInterrupted(log, k) && !NeverInterrupted(log, |log|)
      decreases |log| - k
    {
      k := k + 1;
    }
  }

  /** Every fixture is started once and stopped once. */
  ghost predicate AllStopped(r: Replay) {
    forall f: nat :: TimesStarted(f, r.trace) == TimesStopped(f, r.trace) == (if f < r.nextFixture then 1 else 0)
  }

  lemma {:induction false} EndSettled(log: seq<Message>)
    requires Settled(Replayed(log, |log|))
    ensures if Replayed(log, |log|).fixtures == []
            then AllObey(FixturesFirst, Report(log).trace) && AllStopped(Report(log))
            else !AllObey(FixturesFirst, Report(log).trace)
  {
    hide Replayed, CloseAll, Of, AllObey, TimesStarted, TimesStopped, Inv;
    var s := Replayed(log, |log|);
    var w, r := WriteLastTest(s), Report(log);
    WriteLastTestKeeps(s);
    SettledWrite(s);
    if s.fixtures == [] {
      CloseAllSettled(w);
      forall f: nat
        ensures TimesStarted(f, r.trace) == TimesStopped(f, r.trace) == (if f < r.nextFixture then 1 else 0)
      {
        StoppedOnce(r, f);
      }
    } else {
      CloseAllGrows(w);
      StaysBroken(FixturesFirst, w, r);
    }
  }

  lemma StoppedOnce(r: Replay, f: nat)
    requires Inv(r) && r.fixtures == []
    ensures TimesStarted(f, r.trace) == TimesStopped(f, r.trace) == (if f < r.nextFixture then 1 else 0)
  {
    FixturesOnce(r.trace, f);
  }

  /**
    Fixtures first, exactly, for every log: no fixture is open when a test begins or a test or a scope is written, if
    and only if no message interrupts an open fixture and the log does not end inside one.
   */
  lemma {:induction false} FixturesFirstExactly(log: seq<Message>)
    ensures AllObey(FixturesFirst, Report(log).trace) <==>
            NeverInterrupted(log, |log|) && Replayed(log, |log|).fixtures == []
    ensures AllObey(FixturesFirst, Report(log).trace) ==> AllStopped(Report(log))
  {
    hide Replayed, Report, Settled, AllObey, Interrupts, AllStopped;
    if NeverInterrupted(log, |log|) {
      SettledUntil(log, |log|);
      EndSettled(log);
    } else {
      var k := FirstInterruption(log);
      SettledUntil(log, k);
      BrokenAt(log, k);
      BrokenInReport(FixturesFirst, log, k + 1);
    }
  }

  lemma BrokenAt(log: seq<Message>, k: nat)
    requires k < |log| && Settled(Replayed(log, k)) && Interrupts(HasFeature(log), Replayed(log, k), log[k])
    ensures !AllObey(FixturesFirst, Replayed(log, k + 1).trace)
  {
    hide Replayed, Settled, Interrupts, AllObey, Step;
    ReplayedNext(log, k + 1);
    StepSettled(HasFeature(log), k + 1 == |log|, Replayed(log, k), log[k]);
  }

  // ----- Each fixture stopped before its own scope is written

  /** The message closes a scope while a fixture that was started in it is open. */
  ghost predicate Strands(s: Replay, m: Message) {
    && (m.SuiteEnd? || (m.TestEnd? && s.executables != [])) && s.scopes != [] && Of(s.trace).Some?
    && exists x :: x in Of(s.trace).value.openFixtures && x.scope == Last(s.scopes)
  }

  ghost predicate NeverStrands(log: seq<Message>, n: nat)
    requires n <= |log|
  {
    forall k :: 0 <= k < n ==> !Strands(Replayed(log, k), log[k])
  }

  /** From `s` to `t` no scope was written. */
  ghost predicate WritesNoScope(s: Replay, t: Replay) {
    s.trace <= t.trace && forall k :: |s.trace| <= k < |t.trace| ==> !t.trace[k].WriteScope?
  }

  lemma ScopeUnwritten(s: Replay, t: Replay)
    requires Inv(t) && WritesNoScope(s, t)
    ensures AllObey(ScopesLast, t.trace) <==> AllObey(ScopesLast, s.trace)
  {
    QuietCalls(ScopesLast, s.trace, t.trace);
  }

  lemma DetailsWriteNone(s: Replay, t: Replay)
    requires Scopes.OnlyDetails(s, t)
    ensures WritesNoScope(s, t)
  {
  }

  /** Every message but a suite or test end. */
  lemma {:induction false} OthersWriteNone(feature: bool, last: bool, s: Replay, m: Message)
    requires !m.SuiteEnd? && !(m.TestEnd? && s.executables != [])
    ensures WritesNoScope(s, Step(feature, last, s, m))
  {
    hide RunTestStart, RunTestEnd, StartHook, RunHookEnd, Deliver, Attach;
    match m
    case TestStart(name, start) =>
      Scopes.HooksAtTestStart(feature, s, name, start);
      assert WritesNoScope(s, BeginTest(s, name, start));
    case TestEnd(o) => Scopes.HooksAtTestEnd(feature, s, o);
    case HookStart(name, kind, start) => Scopes.StartHookDetails(s, name, kind, start);
    case HookEnd(o) => Scopes.HookEndDetails(feature, s, o);
    case SuiteStart(_, _) =>
    case TestInfo(_) =>
    case _ => Scopes.DeliverDetails(s, m);
  }

  lemma CloseStrands(s: Replay)
    requires Inv(s)
    ensures AllObey(ScopesLast, CloseScope(s).trace) <==> AllObey(ScopesLast, s.trace) && !Strands(s, SuiteEnd)
  {
    if s.scopes != [] {
      ObeyAppend(ScopesLast, s.trace, WriteScope(Last(s.scopes)));
    }
  }

  lemma {:induction false} StepsKeepFixtures(s: Replay, o: Outcome)
    requires Inv(s) && s.executables != []
    ensures
      var t := CloseSteps(s.(executables := Front(s.executables)), o);
      && Inv(t) && (Strands(t, SuiteEnd) <==> Strands(s, TestEnd(o)))
      && (AllObey(ScopesLast, t.trace) <==> AllObey(ScopesLast, s.trace))
  {
    hide AllObey;
    var s0 := s.(executables := Front(s.executables));
    FewerRunning(s);
    CloseStepsInner(ScopesLast, s0, o);
    if s.current.Some? {
      StopsOnTest(s.trace, s.current.value, s.openSteps, o);
    }
  }

  lemma {:induction false} EndTestStrands(s: Replay, o: Outcome)
    requires Inv(s)
    ensures AllObey(ScopesLast, EndTest(s, o).trace) <==> AllObey(ScopesLast, s.trace) && !Strands(s, TestEnd(o))
  {
    hide Inv, AllObey, Strands, CloseSteps, CloseScope;
    EndTestKeeps(s, o);
    if s.executables != [] {
      var s1 := CloseSteps(s.(executables := Front(s.executables)), o);
      StepsKeepFixtures(s, o);
      CloseStrands(s1);
      ScopeUnwritten(CloseScope(s1), EndTest(s, o));
    } else {
      assert !Strands(s, TestEnd(o)) by { NothingEnds(s, o); }
    }
  }

  lemma NothingEnds(s: Replay, o: Outcome)
    requires s.executables == []
    ensures !Strands(s, TestEnd(o))
  {
  }

  /** One message of any kind in any state of a replay. */
  lemma {:induction false} StepStrands(feature: bool, last: bool, s: Replay, m: Message)
    requires Inv(s)
    ensures AllObey(ScopesLast, Step(feature, last, s, m).trace) <==> AllObey(ScopesLast, s.trace) && !Strands(s, m)
  {
    hide Inv, AllObey, Step, CloseScope, EndTest, RunTestEnd, Scopes.OnlyDetails, WritesNoScope;
    var t := Step(feature, last, s, m);
    StepKeeps(feature, last, s, m);
    if m.SuiteEnd? {
      CloseStrands(s);
      ScopeUnwritten(CloseScope(s), t) by { SuiteEndWrites(feature, last, s); }
    } else if m.TestEnd? {
      EndTestStrands(s, m.outcome);
      Scopes.HooksAtTestEnd(feature, s, m.outcome);
      DetailsWriteNone(EndTest(s, m.outcome), RunTestEnd(feature, s, m.outcome));
      ScopeUnwritten(EndTest(s, m.outcome), t) by { TestEndIs(feature, last, s, m.outcome); }
    } else {
      OthersWriteNone(feature, last, s, m);
      ScopeUnwritten(s, t);
    }
  }

  lemma SuiteEndWrites(feature: bool, last: bool, s: Replay)
    ensures WritesNoScope(CloseScope(s), Step(feature, last, s, SuiteEnd))
  {
  }

  lemma TestEndIs(feature: bool, last: bool, s: Replay, o: Outcome)
    ensures Step(feature, last, s, TestEnd(o)) == RunTestEnd(feature, s, o)
  {
    hide RunTestEnd;
  }

  lemma {:induction false} StrandsUntil(log: seq<Message>, n: nat)
    requires n <= |log|
    ensures AllObey(ScopesLast, Replayed(log, n).trace) <==> NeverStrands(log, n)
  {
    hide Replayed, Step, Strands, AllObey, Inv;
    if n == 0 {
      NothingStrands(log);
    } else {
      StrandsUntil(log, n - 1);
      ReplayTracksRuntime(log, n - 1);
      ReplayedNext(log, n);
      StepStrands(HasFeature(log), n == |log|, Replayed(log, n - 1), log[n - 1]);
    }
  }

  lemma NothingStrands(log: seq<Message>)
    ensures AllObey(ScopesLast, Replayed(log, 0).trace)
  {
  }

  /** The drain writes every open scope: one with an open fixture among them breaks the rule. */
  lemma {:induction false} CloseAllStrands(s: Replay)
    requires Inv(s) && AllObey(ScopesLast, s.trace)
    ensures CloseAll(s).fixtures == s.fixtures && (s.fixtures == [] ==> AllObey(ScopesLast, CloseAll(s).trace))
    decreases |s.scopes|
  {
    hide AllObey;
    if s.scopes != [] {
      CloseScopeKeeps(s);
      CloseStrands(s);
      if s.fixtures == [] {
        CloseAllStrands(CloseScope(s));
      } else {
        CloseAllFixtures(CloseScope(s));
      }
    }
  }

  lemma {:induction false} CloseAllFixtures(s: Replay)
    ensures CloseAll(s).fixtures == s.fixtures
    decreases |s.scopes|
  {
    if s.scopes != [] {
      CloseAllFixtures(CloseScope(s));
    }
  }

  lemma OpenHasScope(l: Ledger)
    requires InOpenScopes(l)
    ensures l.openFixtures != [] ==> l.openScopes != []
  {
    if l.openFixtures != [] {
      assert l.openFixtures[0] in l.openFixtures;
    }
  }

  /** Where every scope is written, and after the fixtures started in it, no fixture is left open. */
  lemma {:induction false} NoneLeftOpen(r: Replay)
    requires Inv(r) && AllObey(ScopesLast, r.trace) && r.scopes == []
    ensures r.fixtures == [] && AllStopped(r)
  {
    hide AllObey, TimesStarted, TimesStopped;
    FixturesInOpenScopes(r.trace);
    var l := Of(r.trace).value;
    OpenHasScope(l);
    forall f: nat
      ensures TimesStarted(f, r.trace) == TimesStopped(f, r.trace) == (if f < r.nextFixture then 1 else 0)
    {
      StoppedOnce(r, f);
    }
  }

  /**
    Each fixture stopped before its own scope is written, exactly, for every log: if and only if no suite or test end
    closes a scope while a fixture started in it is open, and the log does not end with a fixture open. Then every
    fixture is stopped once.
   */
  lemma {:induction false} StoppedInScopeExactly(log: seq<Message>)
    ensures StoppedInScope(Report(log).trace) <==> NeverStrands(log, |log|) && Replayed(log, |log|).fixtures == []
    ensures StoppedInScope(Report(log).trace) ==> AllStopped(Report(log))
  {
    hide Replayed, AllObey, Of, StoppedInScope, NeverStrands, AllStopped, CloseAll;
    var s, r := Replayed(log, |log|), Report(log);
    var w := WriteLastTest(s);
    ReplayTracksRuntime(log, |log|);
    WriteLastTestKeeps(s);
    CloseAllKeeps(w);
    ScopesLastExactly(r.trace) by { InvAllowed(r); }
    StrandsUntil(log, |log|);
    ScopeUnwritten(s, w);
    if AllObey(ScopesLast, r.trace) {
      NoneLeftOpen(r);
      CloseAllGrows(w);
      BrokenStays(ScopesLast, w.trace, r.trace);
      CloseAllFixtures(w);
    } else if AllObey(ScopesLast, w.trace) {
      CloseAllStrands(w);
    }
  }

  // ----- Read off the log

  /** No hook, suite or test begins inside a hook and no suite or test ends inside one; hook ends may be astray, and
      hooks may begin anywhere else. */
  ghost predicate Apart(log: seq<Message>) {
    forall k :: 0 <= k < |log| && (log[k].HookStart? || IsStructural(log[k])) ==> !IsPending(HookPair, log[..k])
  }

  lemma {:induction false} ApartSettles(log: seq<Message>, n: nat)
    requires n <= |log| && Apart(log)
    ensures NeverInterrupted(log, n)
    ensures !IsPending(HookPair, log[..n]) ==> Replayed(log, n).fixtures == []
    ensures |Replayed(log, n).fixtures| <= 1
  {
    hide Replayed, Step, Interrupts, HasFeature, Settled, IsPending;
    if n == 0 {
      NothingSettled(log);
    } else {
      ApartSettles(log, n - 1);
      SettledUntil(log, n - 1);
      HookPendingAfter(log, n);
      ReplayedNext(log, n);
      FixturesInStep(HasFeature(log), n == |log|, Replayed(log, n - 1), log[n - 1]);
    }
  }

  lemma HookPendingAfter(log: seq<Message>, n: nat)
    requires 0 < n <= |log|
    ensures IsPending(HookPair, log[..n]) <==>
            log[n - 1].HookStart? || (!log[n - 1].HookEnd? && IsPending(HookPair, log[..n - 1]))
  {
    assert log[..n][..n - 1] == log[..n - 1];
  }

  /** How one message changes the number of open fixtures. */
  lemma {:induction false} FixturesInStep(feature: bool, last: bool, s: Replay, m: Message)
    requires Settled(s) && (m.HookStart? || IsStructural(m) ==> s.fixtures == [])
    ensures !Interrupts(feature, s, m)
    ensures
      var t := Step(feature, last, s, m);
      if m.HookStart? then |t.fixtures| <= 1
      else if m.HookEnd? then |t.fixtures| <= if s.fixtures == [] then 0 else |s.fixtures| - 1
      else t.fixtures == s.fixtures
  {
    hide Settled, RunTestStart, RunTestEnd, RunHookEnd, AddTestInfo, Deliver, AllObey;
    match m
    case SuiteStart(_, _) => SuiteStartSettled(s);
    case SuiteEnd => SuiteEndSettled(last, s);
    case TestStart(name, start) => TestStartSettled(feature, s, name, start);
    case TestEnd(o) => TestEndSettled(feature, s, o);
    case HookStart(name, kind, start) =>
    case HookEnd(o) => HookEndSettled(feature, s, o);
    case _ => OtherSettled(s, m);
  }

  /** So when no suite or test event and no other hook falls inside a hook, every fixture is started once and stopped
      once, each before the scope it was started in is written. */
  lemma {:induction false} EveryFixtureIsClosed(log: seq<Message>)
    requires Apart(log) && !IsPending(HookPair, log)
    ensures AllObey(FixturesFirst, Report(log).trace) && AllStopped(Report(log))
  {
    hide Replayed, Report, AllObey, AllStopped;
    ApartSettles(log, |log|);
    assert log[..|log|] == log;
    FixturesFirstExactly(log);
  }

  const DONE := Outcome(Passed, None, None, None, None)

  /** A nested suite that begins inside a hook after a test: the hook's fixture is never stopped. */
  function SuiteInHook(name: string): seq<Message> {
    [SuiteStart("A", false), TestStart("t", 0), TestEnd(DONE), HookStart(name, After, 0), SuiteStart("B", false),
     HookEnd(DONE), SuiteEnd, SuiteEnd]
  }

  lemma OneStep(log: seq<Message>, n: nat)
    requires n < |log|
    ensures Replayed(log, n + 1) == Step(HasFeature(log), n + 1 == |log|, Replayed(log, n), log[n])
  {
  }

  /** The fixture of such a hook is started, and never stopped, although its scope is written. */
  lemma {:induction false} SuiteBoundaryInHook(name: string)
    requires !AfterAll(name)
    ensures
      var trace := Report(SuiteInHook(name)).trace;
      !StoppedInScope(trace) && TimesStarted(0, trace) == 1 && TimesStopped(0, trace) == 0
  {
    hide Step, Report, Replayed, HasFeature, StoppedInScope, TimesStopped, TimesStarted;
    var log := SuiteInHook(name);
    HookAfterTest(log, name);
    OneStep(log, 4);
    OneStep(log, 5);
    OneStep(log, 6);
    OneStep(log, 7);
    StaysOpen(HasFeature(log), false, Replayed(log, 4), log[4]);
    StaysOpen(HasFeature(log), false, Replayed(log, 5), log[5]);
    StaysOpen(HasFeature(log), false, Replayed(log, 6), log[6]);
    StaysOpen(HasFeature(log), true, Replayed(log, 7), log[7]);
    LeftOpen(log, 0);
  }

  /** A hook that begins after a test opens a fixture. */
  lemma {:induction false} HookAfterTest(log: seq<Message>, name: string)
    requires |log| > 4 && !AfterAll(name) && log[..4] == SuiteInHook(name)[..4]
    ensures Replayed(log, 4).fixtures == [0]
  {
    hide Replayed, Step, HasFeature, AfterAll;
    assert forall k :: 0 <= k < 4 ==> log[k] == log[..4][k];
    OneStep(log, 0);
    OneStep(log, 1);
    OneStep(log, 2);
    OneStep(log, 3);
    SuiteBegins(HasFeature(log), Replayed(log, 0), log[0]) by { NothingReplayed(log); }
    TestAndHook(HasFeature(log), Replayed(log, 1), log[1], log[2], log[3]);
  }

  lemma NothingReplayed(log: seq<Message>)
    ensures Replayed(log, 0) == INIT
  {
  }

  lemma SuiteBegins(feature: bool, s: Replay, m: Message)
    requires s == INIT && m.SuiteStart?
    ensures Idle(Step(feature, false, s, m))
  {
  }

  /** No hook has begun so far, and a scope is open. */
  predicate Idle(s: Replay) {
    s.pending == [] && s.fixtures == [] && s.nextFixture == 0 && s.scopes != []
  }

  lemma {:induction false} TestAndHook(feature: bool, s: Replay, start: Message, end: Message, hook: Message)
    requires Idle(s) && start.TestStart? && end.TestEnd? && hook.HookStart? && !AfterAll(hook.name)
    ensures Step(feature, false, Step(feature, false, Step(feature, false, s, start), end), hook).fixtures == [0]
  {
    hide AfterAll, Step, Idle;
    var s1 := Step(feature, false, s, start);
    TestBegins(feature, s, start);
    TestEnds(feature, s1, end);
    HookBegins(feature, Step(feature, false, s1, end), hook);
  }

  lemma TestBegins(feature: bool, s: Replay, m: Message)
    requires Idle(s) && m.TestStart?
    ensures
      var t := Step(feature, false, s, m);
      Idle(t) && t.current.Some? && |t.scopes| >= 2
  {
    hide Attach;
  }

  lemma TestEnds(feature: bool, s: Replay, m: Message)
    requires Idle(s) && m.TestEnd? && |s.scopes| >= 2
    ensures Idle(Step(feature, false, s, m)) && Step(feature, false, s, m).current == s.current
  {
    hide Attach;
  }

  lemma HookBegins(feature: bool, s: Replay, m: Message)
    requires Idle(s) && s.current.Some? && m.HookStart? && !AfterAll(m.name)
    ensures Step(feature, false, s, m).fixtures == [0]
  {
    hide AfterAll;
  }

  /** A suite writes the test of an open fixture, and without a test no hook end stops it. */
  lemma StaysOpen(feature: bool, last: bool, s: Replay, m: Message)
    requires m.SuiteStart? || m.SuiteEnd? || (m.HookEnd? && s.current.None?)
    ensures Step(feature, last, s, m).fixtures == s.fixtures
    ensures m.SuiteStart? ==> Step(feature, last, s, m).current.None?
  {
  }

  /** A fixture that is open where the log ends is never stopped. */
  lemma {:induction false} LeftOpen(log: seq<Message>, f: nat)
    requires Replayed(log, |log|).fixtures == [f]
    ensures
      var trace := Report(log).trace;
      !StoppedInScope(trace) && TimesStarted(f, trace) == 1 && TimesStopped(f, trace) == 0
  {
    hide Replayed, CloseAll, StoppedInScope, TimesStopped, TimesStarted;
    var s, r := Replayed(log, |log|), Report(log);
    StoppedInScopeExactly(log);
    ReplayTracksRuntime(log, |log|);
    WriteLastTestKeeps(s);
    CloseAllKeeps(WriteLastTest(s));
    CloseAllFixtures(WriteLastTest(s));
    FixturesOnce(r.trace, f);
    assert Of(r.trace).value.openFixtures[0].id == f;
  }
}
