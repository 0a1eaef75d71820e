/** Which statuses the reporter puts on the end messages it appends, and which tests get them when the log is
    replayed. */
module AllureOutcomes {
  import opened Wrappers
  import opened AllureMessages
  import opened AllureProducer
  import Runs = AllureRuns
  import R = AllureReplay
  import Scopes = AllureScopes

  /** An end message of a test or of a hook, and the status it carries. */
  datatype Ending = OfTest(status: Status) | OfHook(status: Status)

  function Endings(log: seq<Message>): seq<Ending> {
    if log == [] then []
    else Endings(log[..|log| - 1]) + EndingOf(log[|log| - 1])
  }

  function EndingOf(m: Message): seq<Ending> {
    match m
    case TestEnd(o) => [OfTest(o.status)]
    case HookEnd(o) => [OfHook(o.status)]
    case _ => []
  }

  /** What an event reports: a pass as passed, a skip as skipped, a failing hook as broken, with a broken test of its
      own when no test was pending, and an error-free hook as passed. */
  function Reported(p: Producer, e: Event): seq<Ending> {
    match e
    case SuiteStarts(s) => if s.kind.Scenario? && p.plan && s.excluded then [OfTest(Skipped)] else []
    case SuiteEnds(s) => if s.kind.Scenario? && !p.planSkip then [OfTest(s.outcome.status)] else []
    case TestPasses(t) => if t.isStep then [] else [OfTest(Passed)]
    case TestRetries(t) => if t.isStep then [] else [OfTest(t.outcome.status)]
    case TestFails(t) => if t.isStep then [] else [OfTest(t.outcome.status)]
    case TestSkips(t) => if t.isStep then [] else [OfTest(Skipped)]
    case HookEnds(h) =>
      if IgnoresHookEnd(p, h) then []
      else if !h.failed then [OfHook(Passed)]
      else [OfHook(Broken)] + if TestPending(p) then [] else [OfTest(Broken)]
    case _ => []
  }

  lemma EndingsAppend(log: seq<Message>, m: Message)
    ensures Endings(log + [m]) == Endings(log) + EndingOf(m)
  {
    assert (log + [m])[..|log|] == log;
  }

  lemma {:induction false} DetailsEndNothing(p: Producer, ds: seq<Detail>)
    ensures Endings(PushDetails(p, ds).log) == Endings(p.log)
    ensures PushDetails(p, ds) == p.(log := PushDetails(p, ds).log)
  {
    if ds != [] {
      DetailsEndNothing(p, ds[..|ds| - 1]);
      EndingsAppend(PushDetails(p, ds[..|ds| - 1]).log, DetailMessage(ds[|ds| - 1]));
      assert Endings(p.log) + [] == Endings(p.log);
    }
  }

  lemma {:induction false} SuitesEndNothing(p: Producer, from: int)
    ensures Endings(StartSuites(p, from).log) == Endings(p.log)
    ensures StartSuites(p, from) == p.(log := StartSuites(p, from).log)
    decreases |p.stack| - from
  {
    hide Endings;
    if from < |p.stack| {
      var m := SuiteStart(NameAt(p.stack, from), false);
      EndingsAppend(p.log, m);
      assert Endings(p.log) + [] == Endings(p.log);
      SuitesEndNothing(Push(p, m), from + 1);
    }
  }

  lemma Effects()
    ensures forall p: Producer, m {:trigger Push(p, m)} ::
              Push(p, m) == p.(log := Push(p, m).log) && Endings(Push(p, m).log) == Endings(p.log) + EndingOf(m)
    ensures forall p: Producer, ds {:trigger PushDetails(p, ds)} ::
              PushDetails(p, ds) == p.(log := PushDetails(p, ds).log)
                && Endings(PushDetails(p, ds).log) == Endings(p.log)
    ensures forall p: Producer {:trigger EnsureSuitesStarted(p)} ::
              Endings(EnsureSuitesStarted(p).log) == Endings(p.log)
              && EnsureSuitesStarted(p) ==
                 p.(log := EnsureSuitesStarted(p).log, started := EnsureSuitesStarted(p).started)
    ensures forall es: seq<Ending> {:trigger es + []} :: es + [] == es
  {
    forall p: Producer, m
      ensures Push(p, m) == p.(log := Push(p, m).log) && Endings(Push(p, m).log) == Endings(p.log) + EndingOf(m)
    {
      EndingsAppend(p.log, m);
    }
    forall p: Producer, ds
      ensures PushDetails(p, ds) == p.(log := PushDetails(p, ds).log)
              && Endings(PushDetails(p, ds).log) == Endings(p.log)
    {
      DetailsEndNothing(p, ds);
    }
    forall p: Producer
      ensures Endings(EnsureSuitesStarted(p).log) == Endings(p.log)
      ensures EnsureSuitesStarted(p) == p.(log := EnsureSuitesStarted(p).log, started := EnsureSuitesStarted(p).started)
    {
      SuitesEndNothing(p, p.started);
    }
  }

  lemma {:induction false} MessageReports(p: Producer, m: Message)
    requires !m.TestEnd? && !m.HookEnd?
    ensures Endings(Push(p, m).log) == Endings(p.log)
  {
    EndingsAppend(p.log, m);
  }

  lemma {:induction false} SuiteStartReports(p: Producer, s: Suite)
    ensures Endings(OnSuiteStart(p, s).log) == Endings(p.log) + Reported(p, SuiteStarts(s))
  {
    hide Push, PushDetails, EnsureSuitesStarted, Endings;
    if s.kind.Scenario? {
      Effects();
    } else {
      MessageReports(p, SuiteStart(s.title, s.kind.Feature?));
      assert Endings(p.log) + [] == Endings(p.log);
      SuitePushed(p, s);
    }
  }

  lemma SuitePushed(p: Producer, s: Suite)
    requires !s.kind.Scenario?
    ensures OnSuiteStart(p, s).log == Push(p, SuiteStart(s.title, s.kind.Feature?)).log
  {
  }

  lemma {:induction false} SuiteEndReports(p: Producer, s: Suite)
    ensures Endings(OnSuiteEnd(p, s).log) == Endings(p.log) + Reported(p, SuiteEnds(s))
  {
    hide Push, PushDetails, Endings;
    Effects();
  }

  lemma {:induction false} TestStartReports(p: Producer, t: Test)
    ensures Endings(OnTestStart(p, t).log) == Endings(p.log)
  {
    hide Push, PushDetails, EnsureSuitesStarted, Endings, TestPending;
    Effects();
  }

  lemma {:induction false} EndReports(p: Producer, t: Test, o: Outcome)
    ensures Endings(EndOrStop(p, t, o).log) == Endings(p.log) + if t.isStep then [] else [OfTest(o.status)]
  {
    hide Push, PushDetails, Endings;
    Effects();
  }

  lemma {:induction false} PendingReports(p: Producer, t: Test)
    ensures Endings(OnTestPending(p, t).log) == Endings(p.log)
  {
    hide Push, PushDetails, Endings;
    Effects();
  }

  lemma {:induction false} SkipReports(p: Producer, t: Test)
    ensures Endings(OnTestSkip(p, t).log) == Endings(p.log) + Reported(p, TestSkips(t))
  {
    hide Push, PushDetails, Endings, TestPending, EndOrStop;
    Effects();
    var p1 := if t.isStep || TestPending(p) then p else PushDetails(Push(p, TestStart(t.title, t.start)), t.details);
    EndReports(p1, t, SKIPPED);
  }

  lemma {:induction false} HookEventReports(p: Producer, h: Hook)
    ensures Endings(OnHookStart(p, h).log) == Endings(p.log)
    ensures Endings(OnHookEnd(p, h).log) == Endings(p.log) + Reported(p, HookEnds(h))
  {
    hide Push, PushDetails, Endings, TestPending, HookPending, DeriveHookType, IgnoresHookEnd;
    Effects();
    assert Endings(p.log) + [OfHook(Broken)] + [OfTest(Broken)] ==
           Endings(p.log) + ([OfHook(Broken)] + [OfTest(Broken)]);
  }

  /** Every event appends exactly the end messages it reports, in order. */
  lemma {:induction false} HandleReports(p: Producer, e: Event)
    ensures Endings(Handle(p, e).log) == Endings(p.log) + Reported(p, e)
  {
    hide OnSuiteStart, OnSuiteEnd, OnTestStart, OnTestSkip, OnHookStart, OnHookEnd, EndOrStop, Push, Endings,
         IgnoresHookEnd;
    hide TestPending;
    assert Endings(p.log) + [] == Endings(p.log);
    match e
    case SuiteStarts(s) => SuiteStartReports(p, s);
    case SuiteEnds(s) => SuiteEndReports(p, s);
    case TestStarts(t) => TestStartReports(p, t);
    case TestPasses(t) => EndReports(p, t, t.outcome.(status := Passed, stage := Some(Finished), details := None));
    case TestRetries(t) => EndReports(p, t, t.outcome.(stage := None));
    case TestFails(t) =>
      TestStartReports(p, t);
      EndReports(if t.isStep || TestPending(p) then p else OnTestStart(p, t), t, t.outcome.(stage := Some(Finished)));
    case TestSkips(t) => SkipReports(p, t);
    case TestPends(t) => PendingReports(p, t);
    case HookStarts(h) => HookEventReports(p, h);
    case HookEnds(h) => HookEventReports(p, h);
    case StepEvent(m) => if IsRuntime(m) { MessageReports(p, m); }
    case CommandEvent(m) => if IsRuntime(m) { MessageReports(p, m); }
    case ApiCall(d) => MessageReports(p, DetailMessage(d));
  }

  /** What a whole run reports. */
  function ReportedBy(p: Producer, es: seq<Event>): seq<Ending> {
    if es == [] then []
    else ReportedBy(p, es[..|es| - 1]) + Reported(Run(p, es[..|es| - 1]), es[|es| - 1])
  }

  lemma {:induction false} RunReports(p: Producer, es: seq<Event>)
    ensures Endings(Run(p, es).log) == Endings(p.log) + ReportedBy(p, es)
  {
    hide Handle, Reported, Endings;
    if es == [] {
      assert Endings(p.log) + [] == Endings(p.log);
    } else {
      RunReports(p, es[..|es| - 1]);
      HandleReports(Run(p, es[..|es| - 1]), es[|es| - 1]);
    }
  }

  // ----- Which test gets which status

  /** The statuses reported for tests. */
  function TestStatuses(endings: seq<Ending>): seq<Status> {
    if endings == [] then []
    else
      TestStatuses(endings[..|endings| - 1]) +
      match endings[|endings| - 1]
      case OfTest(status) => [status]
      case OfHook(_) => []
  }

  lemma {:induction false} StatusesConcat(a: seq<Ending>, b: seq<Ending>)
    requires |b| <= 1
    ensures TestStatuses(a + b) == TestStatuses(a) + TestStatuses(b)
  {
    if b == [] {
      assert a + b == a;
    } else {
      assert (a + b)[..|a + b| - 1] == a && b[..0] == [];
    }
  }

  /** The statuses of a log are those of its test end messages. */
  lemma {:induction false} StatusesOfOutcomes(log: seq<Message>)
    ensures |TestStatuses(Endings(log))| == |Scopes.Outcomes(log)|
    ensures forall k :: 0 <= k < |Scopes.Outcomes(log)| ==>
            TestStatuses(Endings(log))[k] == Scopes.Outcomes(log)[k].status
  {
    hide TestStatuses;
    if log == [] {
      assert TestStatuses([]) == [] by { NoStatuses(); }
    } else {
      var before, m := log[..|log| - 1], log[|log| - 1];
      StatusesOfOutcomes(before);
      StatusesConcat(Endings(before), EndingOf(m));
      OneStatus(m);
    }
  }

  lemma NoStatuses()
    ensures TestStatuses([]) == []
  {
  }

  lemma OneStatus(m: Message)
    ensures TestStatuses(EndingOf(m)) == if m.TestEnd? then [m.outcome.status] else []
  {
    var e := EndingOf(m);
    assert |e| == 1 ==> e[..0] == [];
  }

  /**
    End to end. For every run whose events fit the pending test: replaying the produced log gives the k-th test started
    the status that was reported k-th for a test, and stops it with that, and sets no other status and stops nothing
    else.
   */
  lemma {:induction false} RunGivesOutcomes(plan: bool, disableMochaHooks: bool, es: seq<Event>)
    requires Runs.AllFitTests(Fresh(plan, disableMochaHooks), es)
    ensures
      var p0 := Fresh(plan, disableMochaHooks);
      var log := Run(p0, es).log;
      var trace, reported := R.Replayed(log, |log|).trace, TestStatuses(ReportedBy(p0, es));
      && Scopes.Stopped(trace) == Scopes.Statuses(trace) && |Scopes.Statuses(trace)| == |reported|
      && forall k :: 0 <= k < |reported| ==>
           Scopes.Statuses(trace)[k].test == k && Scopes.Statuses(trace)[k].outcome.status == reported[k]
  {
    hide Run, R.Replayed, Scopes.Statuses, Scopes.Stopped, Scopes.Outcomes, TestStatuses, Endings, ReportedBy,
         Alternates;
    var p0 := Fresh(plan, disableMochaHooks);
    var log := Run(p0, es).log;
    Runs.FreshIsBalanced(plan, disableMochaHooks);
    Runs.AlternationExactly(p0, es);
    Scopes.EveryTestGetsItsOutcome(log);
    RunReports(p0, es);
    StatusesOfOutcomes(log);
    assert Endings(p0.log) == [] by { NoEndings(); }
    assert [] + ReportedBy(p0, es) == ReportedBy(p0, es);
  }

  lemma NoEndings()
    ensures Endings([]) == []
  {
  }
}
