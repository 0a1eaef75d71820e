/** Whole runs of framework events: what the produced log looks like, and what replaying it does. */
module AllureRuns {
  import opened Wrappers
  import opened Text
  import opened AllureMessages
  import opened AllureProducer
  import R = AllureReplay
  import Scopes = AllureScopes

  // ----- A summary of a log that one more message updates

  datatype Summary = Summary(test: bool, hook: bool, testsOk: bool, hooksOk: bool, suites: int, suitesOk: bool)

  ghost function Sum(log: seq<Message>): Summary {
    Summary(IsPending(TestPair, log), IsPending(HookPair, log), Alternates(TestPair, log), Alternates(HookPair, log),
            Balance(SuitePair, log), Scopes.NeverBelow(SuitePair, log))
  }

  function Next(s: Summary, m: Message): Summary {
    match m
    case SuiteStart(_, _) => s.(suites := s.suites + 1, suitesOk := s.suitesOk && s.suites >= -1)
    case SuiteEnd => s.(suites := s.suites - 1, suitesOk := s.suitesOk && s.suites >= 1)
    case TestStart(_, _) => s.(test := true, testsOk := s.testsOk && !s.test)
    case TestEnd(_) => s.(test := false, testsOk := s.testsOk && s.test)
    case HookStart(_, _, _) => s.(hook := true, hooksOk := s.hooksOk && !s.hook)
    case HookEnd(_) => s.(hook := false, hooksOk := s.hooksOk && s.hook)
    case _ => s
  }

  lemma NeverBelowAppend(p: Pair, log: seq<Message>, m: Message)
    ensures Scopes.NeverBelow(p, log + [m]) <==> Scopes.NeverBelow(p, log) && Balance(p, log + [m]) >= 0
  {
    var all := log + [m];
    assert forall k :: 0 <= k <= |log| ==> all[..k] == log[..k];
    assert all[..|all|] == all;
  }

  lemma WholePrefix(p: Pair, log: seq<Message>)
    requires Scopes.NeverBelow(p, log)
    ensures Balance(p, log) >= 0
  {
    assert log[..|log|] == log;
  }

  lemma SumAppend(log: seq<Message>, m: Message)
    ensures Sum(log + [m]) == Next(Sum(log), m)
  {
    var all := log + [m];
    assert all[|all| - 1] == m && all[..|all| - 1] == log;
    NeverBelowAppend(SuitePair, log, m);
    if Scopes.NeverBelow(SuitePair, log) {
      WholePrefix(SuitePair, log);
    }
  }

  lemma SumPush()
    ensures forall p: Producer, m: Message {:trigger Push(p, m)} :: Sum(Push(p, m).log) == Next(Sum(p.log), m)
  {
    forall p: Producer, m: Message
      ensures Sum(Push(p, m).log) == Next(Sum(p.log), m)
    {
      SumAppend(p.log, m);
    }
  }

  lemma {:induction false} DetailsSum(p: Producer, ds: seq<Detail>)
    ensures PushDetails(p, ds) == p.(log := PushDetails(p, ds).log) && Sum(PushDetails(p, ds).log) == Sum(p.log)
  {
    if ds != [] {
      DetailsSum(p, ds[..|ds| - 1]);
      SumAppend(PushDetails(p, ds[..|ds| - 1]).log, DetailMessage(ds[|ds| - 1]));
    }
  }

  lemma {:induction false} StartSuitesSum(p: Producer, from: int)
    ensures StartSuites(p, from) == p.(log := StartSuites(p, from).log)
    ensures Sum(p.log).suites >= 0 || from >= |p.stack| ==>
              Sum(StartSuites(p, from).log) ==
              Sum(p.log).(suites := Sum(p.log).suites + if from < |p.stack| then |p.stack| - from else 0)
    ensures
      var s, t := Sum(p.log), Sum(StartSuites(p, from).log);
      t.test == s.test && t.hook == s.hook && t.testsOk == s.testsOk && t.hooksOk == s.hooksOk
    decreases |p.stack| - from
  {
    if from < |p.stack| {
      var m := SuiteStart(NameAt(p.stack, from), false);
      SumAppend(p.log, m);
      StartSuitesSum(Push(p, m), from + 1);
    }
  }

  /** Starting suites lazily changes neither test nor hook bits, and adds to the balance what it adds to `started`. */
  ghost predicate EnsureSummary(p: Producer, q: Producer) {
    var s, t := Sum(p.log), Sum(q.log);
    && q == p.(log := q.log, started := q.started) && q.started == (if p.plan then |p.stack| else p.started)
    && t.test == s.test && t.hook == s.hook && t.testsOk == s.testsOk && t.hooksOk == s.hooksOk
    && (s.suites >= 0 && p.started <= |p.stack| ==> t == s.(suites := s.suites + q.started - p.started))
  }

  lemma EnsureSum(p: Producer)
    ensures EnsureSummary(p, EnsureSuitesStarted(p))
  {
    StartSuitesSum(p, p.started);
  }

  // ----- Alternation

  /** A hook event that the reporter passes on to the log. */
  predicate ReportsHookStart(p: Producer, h: Hook) {
    !p.planSkip && !p.disableMochaHooks && !h.cucumber && !p.scenarioActive
  }

  /** The event fits the pending test: starts come while none is pending, passes and retries while one is. Failures
      and skips fit always, and so do all hook events. */
  predicate FitsTest(p: Producer, e: Event) {
    match e
    case SuiteStarts(s) => s.kind.Scenario? ==> !TestPending(p)
    case SuiteEnds(s) => s.kind.Scenario? && !p.planSkip ==> TestPending(p)
    case TestStarts(t) => t.isStep || !TestPending(p)
    case TestPasses(t) => t.isStep || TestPending(p)
    case TestRetries(t) => t.isStep || TestPending(p)
    case _ => true
  }

  /** The event fits the pending hook: hooks start while none is pending, error-free ones end while one is. */
  predicate FitsHook(p: Producer, e: Event) {
    match e
    case HookStarts(h) => ReportsHookStart(p, h) ==> !HookPending(p)
    case HookEnds(h) => h.failed || IgnoresHookEnd(p, h) || HookPending(p)
    case _ => true
  }

  ghost predicate Alternating(log: seq<Message>) {
    Alternates(TestPair, log) && Alternates(HookPair, log)
  }

  /** The summaries of all pushes, of detail messages and of lazily started suites. */
  lemma Sums()
    ensures forall p: Producer, m: Message {:trigger Push(p, m)} ::
              Push(p, m) == p.(log := Push(p, m).log) && Sum(Push(p, m).log) == Next(Sum(p.log), m)
    ensures forall p: Producer, ds {:trigger PushDetails(p, ds)} ::
              PushDetails(p, ds) == p.(log := PushDetails(p, ds).log) && Sum(PushDetails(p, ds).log) == Sum(p.log)
    ensures forall p: Producer {:trigger EnsureSuitesStarted(p)} :: EnsureSummary(p, EnsureSuitesStarted(p))
  {
    SumPush();
    forall p: Producer, ds
      ensures PushDetails(p, ds) == p.(log := PushDetails(p, ds).log) && Sum(PushDetails(p, ds).log) == Sum(p.log)
    {
      DetailsSum(p, ds);
    }
    forall p: Producer
      ensures EnsureSummary(p, EnsureSuitesStarted(p))
    {
      EnsureSum(p);
    }
  }

  lemma PendingBits()
    ensures forall p: Producer {:trigger TestPending(p)} :: TestPending(p) == Sum(p.log).test
    ensures forall p: Producer {:trigger HookPending(p)} :: HookPending(p) == Sum(p.log).hook
  {
  }

  /** Tests alternate after the event exactly when it fits the pending test, hooks exactly when it fits the pending
      hook, each on its own. */
  ghost predicate KeepsExactly(p: Producer, e: Event, q: Producer) {
    && (Sum(p.log).testsOk ==> (Sum(q.log).testsOk <==> FitsTest(p, e)))
    && (Sum(p.log).hooksOk ==> (Sum(q.log).hooksOk <==> FitsHook(p, e)))
  }

  lemma ScenarioStartFits(p: Producer, s: Suite)
    requires s.kind.Scenario?
    ensures KeepsExactly(p, SuiteStarts(s), OnSuiteStart(p, s))
  {
    hide Push, EnsureSuitesStarted, PushDetails, Sum, TestPending, HookPending;
    Sums();
    PendingBits();
  }

  lemma SuiteStartFits(p: Producer, s: Suite)
    ensures KeepsExactly(p, SuiteStarts(s), OnSuiteStart(p, s))
  {
    hide Push, EnsureSuitesStarted, PushDetails, Sum, TestPending, HookPending;
    if s.kind.Scenario? {
      ScenarioStartFits(p, s);
    } else {
      SumPush();
    }
  }

  lemma SuiteEndFits(p: Producer, s: Suite)
    ensures KeepsExactly(p, SuiteEnds(s), OnSuiteEnd(p, s))
  {
    hide Push, PushDetails, Sum, TestPending, HookPending;
    Sums();
    PendingBits();
  }

  lemma TestStartFits(p: Producer, t: Test)
    ensures KeepsExactly(p, TestStarts(t), OnTestStart(p, t))
    ensures OnTestStart(p, t) == p.(log := OnTestStart(p, t).log, started := OnTestStart(p, t).started)
    ensures !t.isStep && !TestPending(p) ==> TestPending(OnTestStart(p, t))
    ensures Sum(OnTestStart(p, t).log).hook == Sum(p.log).hook
  {
    hide Push, EnsureSuitesStarted, PushDetails, Sum, TestPending, HookPending;
    Sums();
    PendingBits();
  }

  /** Ending a test keeps the alternation exactly when one is pending; ending a step always does. */
  lemma EndFits(p: Producer, t: Test, o: Outcome)
    ensures Sum(p.log).testsOk ==> (Sum(EndOrStop(p, t, o).log).testsOk <==> t.isStep || TestPending(p))
    ensures Sum(EndOrStop(p, t, o).log).hooksOk == Sum(p.log).hooksOk
  {
    hide Push, PushDetails, Sum, TestPending, HookPending;
    Sums();
    PendingBits();
  }

  lemma TestFailFits(p: Producer, t: Test)
    ensures KeepsExactly(p, TestFails(t), OnTestFail(p, t))
  {
    hide OnTestStart, EndOrStop, Sum, TestPending, HookPending;
    var p1 := if t.isStep || TestPending(p) then p else OnTestStart(p, t);
    TestStartFits(p, t);
    EndFits(p1, t, t.outcome.(stage := Some(Finished)));
  }

  lemma TestSkipFits(p: Producer, t: Test)
    ensures KeepsExactly(p, TestSkips(t), OnTestSkip(p, t))
  {
    hide EndOrStop, Push, PushDetails, Sum, TestPending, HookPending;
    Sums();
    PendingBits();
    var p1 := if t.isStep || TestPending(p) then p else PushDetails(Push(p, TestStart(t.title, t.start)), t.details);
    EndFits(p1, t, SKIPPED);
  }

  lemma HookStartFits(p: Producer, h: Hook)
    ensures KeepsExactly(p, HookStarts(h), OnHookStart(p, h))
  {
    hide Push, DeriveHookType, Sum, TestPending, HookPending;
    Sums();
    PendingBits();
  }

  lemma HookEndFits(p: Producer, h: Hook)
    ensures KeepsExactly(p, HookEnds(h), OnHookEnd(p, h))
  {
    hide Push, PushDetails, DeriveHookType, Sum, TestPending, HookPending, IgnoresHookEnd, HookOutcome, OrElse,
         HookName;
    SumPush();
    PendingBits();
    DetailsSum(Push(p, TestStart(OrElse(h.title, "Hook failure"), h.start)), h.details);
  }

  lemma PendingFits(p: Producer, t: Test)
    ensures KeepsExactly(p, TestPends(t), OnTestPending(p, t))
  {
    hide EndOrStop, Sum;
    EndFits(p, t, SKIPPED);
    PendingIsStop(p, t);
  }

  lemma PendingIsStop(p: Producer, t: Test)
    ensures t.isStep ==> OnTestPending(p, t) == EndOrStop(p, t, SKIPPED)
  {
  }

  /** Steps, labels and full names. */
  lemma {:induction false} MessageFits(p: Producer, m: Message)
    requires IsRuntime(m) || m.TestInfo?
    ensures Sum(Push(p, m).log) == Sum(p.log)
  {
    hide Sum;
    SumAppend(p.log, m);
  }

  /** One event keeps test and hook messages alternating exactly when it fits. */
  lemma {:induction false} FitsExactly(p: Producer, e: Event)
    ensures Alternates(TestPair, p.log) ==> (Alternates(TestPair, Handle(p, e).log) <==> FitsTest(p, e))
    ensures Alternates(HookPair, p.log) ==> (Alternates(HookPair, Handle(p, e).log) <==> FitsHook(p, e))
  {
    hide Handle, FitsTest, FitsHook;
    assert KeepsExactly(p, e, Handle(p, e)) by { HandleFits(p, e); }
  }

  lemma {:induction false} HandleFits(p: Producer, e: Event)
    ensures KeepsExactly(p, e, Handle(p, e))
  {
    hide OnSuiteStart, OnSuiteEnd, OnTestStart, OnTestFail, OnTestSkip, OnHookStart, OnHookEnd, EndOrStop, Push;
    hide Sum, IsPending;
    match e
    case SuiteStarts(s) => SuiteStartFits(p, s);
    case SuiteEnds(s) => SuiteEndFits(p, s);
    case TestStarts(t) => TestStartFits(p, t);
    case TestPasses(t) => EndFits(p, t, t.outcome.(status := Passed, stage := Some(Finished), details := None));
    case TestRetries(t) => EndFits(p, t, t.outcome.(stage := None));
    case TestFails(t) => TestFailFits(p, t);
    case TestSkips(t) => TestSkipFits(p, t);
    case TestPends(t) => PendingFits(p, t);
    case HookStarts(h) => HookStartFits(p, h);
    case HookEnds(h) => HookEndFits(p, h);
    case StepEvent(m) => if IsRuntime(m) { MessageFits(p, m); }
    case CommandEvent(m) => if IsRuntime(m) { MessageFits(p, m); }
    case ApiCall(d) => MessageFits(p, DetailMessage(d));
  }

  lemma {:induction false} DetailsGrow(p: Producer, ds: seq<Detail>)
    ensures p.log <= PushDetails(p, ds).log
  {
    if ds != [] {
      DetailsGrow(p, ds[..|ds| - 1]);
    }
  }

  lemma {:induction false} StartSuitesGrow(p: Producer, from: int)
    ensures p.log <= StartSuites(p, from).log
    decreases |p.stack| - from
  {
    if from < |p.stack| {
      StartSuitesGrow(Push(p, SuiteStart(NameAt(p.stack, from), false)), from + 1);
    }
  }

  lemma DetailsGrowFrom(base: seq<Message>, p: Producer, ds: seq<Detail>)
    requires base <= p.log
    ensures base <= PushDetails(p, ds).log
  {
    DetailsGrow(p, ds);
  }

  lemma SuiteEventGrows(p: Producer, s: Suite)
    ensures p.log <= OnSuiteStart(p, s).log && p.log <= OnSuiteEnd(p, s).log
  {
    hide PushDetails, EnsureSuitesStarted;
    var p1 := EnsureSuitesStarted(p.(scenarioActive := true));
    StartSuitesGrowAll(p.(scenarioActive := true));
    DetailsGrowFrom(p.log, Push(p1, TestStart(s.title, s.start)), s.details);
    DetailsGrowFrom(p.log, p.(scenarioActive := false), s.details);
  }

  lemma StartSuitesGrowAll(p: Producer)
    ensures p.log <= EnsureSuitesStarted(p).log
  {
    StartSuitesGrow(p, p.started);
  }

  lemma TestStartGrows(p: Producer, t: Test)
    ensures p.log <= OnTestStart(p, t).log && p.log <= OnTestSkip(p, t).log && p.log <= OnTestFail(p, t).log
  {
    hide PushDetails, EnsureSuitesStarted, TestPending, EndOrStop;
    StartSuitesGrowAll(p);
    DetailsGrowFrom(p.log, Push(p, StepStart(t.title, t.start)), t.details);
    DetailsGrowFrom(p.log, Push(EnsureSuitesStarted(p), TestStart(t.title, t.start)), t.details);
    DetailsGrowFrom(p.log, Push(p, TestStart(t.title, t.start)), t.details);
    var p1 := PushDetails(Push(p, TestStart(t.title, t.start)), t.details);
    EndGrows(p.log, p1, t, SKIPPED);
    EndGrows(p.log, p, t, SKIPPED);
    EndGrows(p.log, OnTestStart(p, t), t, t.outcome.(stage := Some(Finished)));
    EndGrows(p.log, p, t, t.outcome.(stage := Some(Finished)));
  }

  lemma EndGrows(base: seq<Message>, p: Producer, t: Test, o: Outcome)
    requires base <= p.log
    ensures base <= EndOrStop(p, t, o).log
  {
    DetailsGrowFrom(base, p, t.logs);
  }

  lemma HookEndGrows(p: Producer, h: Hook)
    ensures p.log <= OnHookEnd(p, h).log
  {
    hide PushDetails, DeriveHookType, TestPending, HookPending, IgnoresHookEnd;
    DetailsGrowFrom(p.log, Push(p, TestStart(OrElse(h.title, "Hook failure"), h.start)), h.details);
  }

  lemma HandleGrows(p: Producer, e: Event)
    ensures p.log <= Handle(p, e).log
  {
    hide OnSuiteStart, OnSuiteEnd, OnTestStart, OnTestSkip, OnTestFail, OnHookEnd, EndOrStop, DeriveHookType, IsPending;
    match e
    case SuiteStarts(s) => SuiteEventGrows(p, s);
    case SuiteEnds(s) => SuiteEventGrows(p, s);
    case TestStarts(t) => TestStartGrows(p, t);
    case TestPasses(t) => EndGrows(p.log, p, t, t.outcome.(status := Passed, stage := Some(Finished), details := None));
    case TestRetries(t) => EndGrows(p.log, p, t, t.outcome.(stage := None));
    case TestFails(t) => TestStartGrows(p, t);
    case TestSkips(t) => TestStartGrows(p, t);
    case TestPends(t) => EndGrows(p.log, p, t, SKIPPED); PendingIsStop(p, t);
    case HookEnds(h) => HookEndGrows(p, h);
    case _ =>
  }

  lemma {:induction false} AlternatesPrefix(p: Pair, s: seq<Message>, t: seq<Message>)
    requires s <= t && Alternates(p, t)
    ensures Alternates(p, s)
    decreases |t|
  {
    if |s| < |t| {
      AlternatesPrefix(p, s, t[..|t| - 1]);
    } else {
      assert s == t;
    }
  }

  /** Every event of the run fits the pending test when it comes. */
  ghost predicate AllFitTests(p: Producer, es: seq<Event>) {
    forall k :: 0 <= k < |es| ==> FitsTest(Run(p, es[..k]), es[k])
  }

  ghost predicate AllFitHooks(p: Producer, es: seq<Event>) {
    forall k :: 0 <= k < |es| ==> FitsHook(Run(p, es[..k]), es[k])
  }

  lemma {:induction false} AllFitSplit(p: Producer, es: seq<Event>)
    requires es != []
    ensures
      var before, q, e := es[..|es| - 1], Run(p, es[..|es| - 1]), es[|es| - 1];
      && (AllFitTests(p, es) <==> AllFitTests(p, before) && FitsTest(q, e))
      && (AllFitHooks(p, es) <==> AllFitHooks(p, before) && FitsHook(q, e))
  {
    hide Run, FitsTest, FitsHook;
    var before := es[..|es| - 1];
    assert forall k :: 0 <= k < |before| ==> before[..k] == es[..k] && before[k] == es[k];
  }

  /** Over any run of events: from a log whose tests alternate, they alternate in the produced log exactly when every
      event fits the pending test; and so for hooks. */
  lemma {:induction false} AlternationExactly(p: Producer, es: seq<Event>)
    ensures Alternates(TestPair, p.log) ==> (Alternates(TestPair, Run(p, es).log) <==> AllFitTests(p, es))
    ensures Alternates(HookPair, p.log) ==> (Alternates(HookPair, Run(p, es).log) <==> AllFitHooks(p, es))
  {
    hide Handle, Alternates, FitsTest, FitsHook, AllFitTests, AllFitHooks;
    if es == [] {
      NothingMisfits(p);
    } else {
      var q, e := Run(p, es[..|es| - 1]), es[|es| - 1];
      AllFitSplit(p, es);
      AlternationExactly(p, es[..|es| - 1]);
      HandleGrows(q, e);
      FitsExactly(q, e);
      AlternatesBefore(TestPair, q.log, Handle(q, e).log);
      AlternatesBefore(HookPair, q.log, Handle(q, e).log);
    }
  }

  lemma NothingMisfits(p: Producer)
    ensures AllFitTests(p, []) && AllFitHooks(p, [])
  {
  }

  lemma AlternatesBefore(p: Pair, s: seq<Message>, t: seq<Message>)
    requires s <= t
    ensures Alternates(p, t) ==> Alternates(p, s)
  {
    if Alternates(p, t) {
      AlternatesPrefix(p, s, t);
    }
  }

  // ----- Suite balance

  /** A suite ends only while one is on the stack. */
  predicate Nests(p: Producer, e: Event) {
    e.SuiteEnds? && !e.suite.kind.Scenario? ==> p.stack != []
  }

  ghost predicate AllNest(p: Producer, es: seq<Event>) {
    forall k :: 0 <= k < |es| ==> Nests(Run(p, es[..k]), es[k])
  }

  /** Started suites are never more than stacked ones, and the log has as many open suites as both together. */
  ghost predicate Balanced(p: Producer) {
    && 0 <= p.started <= |p.stack| && (!p.plan ==> p.started == 0)
    && Sum(p.log).suites == |p.stack| + p.started && Sum(p.log).suitesOk
  }

  lemma ScenarioStartBalance(p: Producer, s: Suite)
    requires Balanced(p) && s.kind.Scenario?
    ensures Balanced(OnSuiteStart(p, s))
  {
    hide Push, EnsureSuitesStarted, PushDetails, Balanced;
    OtherMessagesBalance();
    FlagsBalance();
    EnsureBalance(p.(scenarioActive := true));
  }

  lemma FlagsBalance()
    ensures forall q: Producer, b {:trigger q.(planSkip := b)} :: Balanced(q.(planSkip := b)) == Balanced(q)
    ensures forall q: Producer, b {:trigger q.(scenarioActive := b)} :: Balanced(q.(scenarioActive := b)) == Balanced(q)
  {
  }

  lemma EnsureBalance(p: Producer)
    requires Balanced(p)
    ensures Balanced(EnsureSuitesStarted(p))
  {
    hide EnsureSuitesStarted, Sum;
    EnsureSum(p);
  }

  lemma StackedBalance(p: Producer, title: string, feature: bool)
    requires Balanced(p)
    ensures Balanced(Push(p.(stack := p.stack + [title]), SuiteStart(title, feature)))
  {
    hide Sum;
    SumAppend(p.log, SuiteStart(title, feature));
  }

  lemma SuiteStartBalance(p: Producer, s: Suite)
    requires Balanced(p)
    ensures Balanced(OnSuiteStart(p, s))
  {
    hide EnsureSuitesStarted, PushDetails, Push, Balanced;
    if s.kind.Scenario? {
      ScenarioStartBalance(p, s);
    } else {
      FlagsBalance();
      StackedBalance(p, s.title, s.kind.Feature?);
      StackedBalance(p.(scenarioActive := false), s.title, s.kind.Feature?);
    }
  }

  lemma SuiteEndBalance(p: Producer, s: Suite)
    requires Balanced(p)
    ensures Balanced(OnSuiteEnd(p, s)) <==> Nests(p, SuiteEnds(s))
    ensures !Nests(p, SuiteEnds(s)) ==> !Sum(OnSuiteEnd(p, s).log).suitesOk
  {
    hide PushDetails, EndPlannedSuite, Balanced;
    if s.kind.Scenario? {
      OtherMessagesBalance();
      FlagsBalance();
      assert Balanced(p.(planSkip := false, scenarioActive := false)) by { UnskippedBalance(p); }
    } else if p.plan {
      PlannedEndBalance(p);
    } else {
      PlainEndBalance(p);
    }
  }

  lemma UnskippedBalance(p: Producer)
    requires Balanced(p)
    ensures Balanced(p.(planSkip := false, scenarioActive := false))
  {
  }

  lemma PlannedEndBalance(p: Producer)
    requires Balanced(p) && p.plan
    ensures Balanced(EndPlannedSuite(p)) <==> p.stack != []
    ensures p.stack == [] ==> !Sum(EndPlannedSuite(p).log).suitesOk
  {
    hide Push, Sum;
    Sums();
  }

  lemma PlainEndBalance(p: Producer)
    requires Balanced(p) && !p.plan
    ensures p.stack != [] ==> Balanced(Push(p, SuiteEnd).(stack := p.stack[..|p.stack| - 1]))
    ensures p.stack == [] ==> !Sum(Push(p, SuiteEnd).log).suitesOk && !Balanced(Push(p, SuiteEnd))
  {
    hide Sum;
    SumAppend(p.log, SuiteEnd);
  }

  lemma TestStartBalance(p: Producer, t: Test)
    requires Balanced(p)
    ensures Balanced(OnTestStart(p, t))
  {
    hide Push, EnsureSuitesStarted, PushDetails, Sum, TestPending;
    Sums();
  }

  lemma EndBalance(p: Producer, t: Test, o: Outcome)
    requires Balanced(p)
    ensures Balanced(EndOrStop(p, t, o))
  {
    hide Push, PushDetails, Sum;
    Sums();
  }

  lemma TestSkipBalance(p: Producer, t: Test)
    requires Balanced(p)
    ensures Balanced(OnTestSkip(p, t))
  {
    hide Push, PushDetails, Sum, TestPending;
    Sums();
  }

  lemma HookStartBalance(p: Producer, h: Hook)
    requires Balanced(p)
    ensures Balanced(OnHookStart(p, h))
  {
    hide Push, DeriveHookType, Sum;
    Sums();
  }

  lemma MessageBalance(p: Producer, m: Message)
    requires Balanced(p) && !m.SuiteStart? && !m.SuiteEnd?
    ensures Balanced(Push(p, m))
  {
    SumAppend(p.log, m);
  }

  lemma OtherMessagesBalance()
    ensures forall p: Producer, m: Message {:trigger Push(p, m)} ::
              Balanced(p) && !m.SuiteStart? && !m.SuiteEnd? ==> Balanced(Push(p, m))
    ensures forall p: Producer, ds {:trigger PushDetails(p, ds)} :: Balanced(p) ==> Balanced(PushDetails(p, ds))
  {
    forall p: Producer, m: Message | Balanced(p) && !m.SuiteStart? && !m.SuiteEnd?
      ensures Balanced(Push(p, m))
    {
      MessageBalance(p, m);
    }
    forall p: Producer, ds | Balanced(p)
      ensures Balanced(PushDetails(p, ds))
    {
      DetailsSum(p, ds);
    }
  }

  lemma HookEndBalance(p: Producer, h: Hook)
    requires Balanced(p)
    ensures Balanced(OnHookEnd(p, h))
  {
    hide Push, PushDetails, DeriveHookType, Balanced, TestPending, HookPending, IgnoresHookEnd, HookOutcome, OrElse;
    OtherMessagesBalance();
  }

  lemma HandleBalance(p: Producer, e: Event)
    requires Balanced(p)
    ensures Balanced(Handle(p, e)) <==> Nests(p, e)
    ensures !Nests(p, e) ==> !Sum(Handle(p, e).log).suitesOk
  {
    hide OnSuiteStart, OnSuiteEnd, OnTestStart, OnTestSkip, OnHookStart, OnHookEnd, EndOrStop, Push, Balanced, Sum;
    match e
    case SuiteStarts(s) => SuiteStartBalance(p, s);
    case SuiteEnds(s) => SuiteEndBalance(p, s);
    case TestStarts(t) => TestStartBalance(p, t);
    case TestPasses(t) => EndBalance(p, t, t.outcome.(status := Passed, stage := Some(Finished), details := None));
    case TestRetries(t) => EndBalance(p, t, t.outcome.(stage := None));
    case TestFails(t) =>
      TestStartBalance(p, t);
      EndBalance(if t.isStep || TestPending(p) then p else OnTestStart(p, t), t, t.outcome.(stage := Some(Finished)));
    case TestSkips(t) => TestSkipBalance(p, t);
    case TestPends(t) => EndBalance(p, t, SKIPPED); PendingIsStop(p, t);
    case HookStarts(h) => HookStartBalance(p, h);
    case HookEnds(h) => HookEndBalance(p, h);
    case StepEvent(m) => if IsRuntime(m) { MessageBalance(p, m); }
    case CommandEvent(m) => if IsRuntime(m) { MessageBalance(p, m); }
    case ApiCall(d) => MessageBalance(p, DetailMessage(d));
  }

  lemma NeverBelowPrefix(p: Pair, s: seq<Message>, t: seq<Message>)
    requires s <= t && Scopes.NeverBelow(p, t)
    ensures Scopes.NeverBelow(p, s)
  {
    assert forall k :: 0 <= k <= |s| ==> s[..k] == t[..k];
  }

  lemma AllNestSplit(p: Producer, es: seq<Event>)
    requires es != []
    ensures AllNest(p, es) <==> AllNest(p, es[..|es| - 1]) && Nests(Run(p, es[..|es| - 1]), es[|es| - 1])
  {
    hide Run, Nests;
    var before := es[..|es| - 1];
    assert forall k :: 0 <= k < |before| ==> before[..k] == es[..k] && before[k] == es[k];
  }

  /** Over any run from a balanced state, with or without a test plan: no prefix of the log has more suite ends than
      starts exactly when no suite ends on an empty stack; and then the balance is the two depths together. */
  lemma {:induction false} SuiteBalanceExactly(p: Producer, es: seq<Event>)
    requires Balanced(p)
    ensures Scopes.NeverBelow(SuitePair, Run(p, es).log) <==> AllNest(p, es)
    ensures AllNest(p, es) ==> Balanced(Run(p, es))
  {
    hide Handle, Balanced, Nests, Scopes.NeverBelow, Balance;
    if es == [] {
      BalancedLog(p);
    } else {
      var q, e := Run(p, es[..|es| - 1]), es[|es| - 1];
      AllNestSplit(p, es);
      SuiteBalanceExactly(p, es[..|es| - 1]);
      HandleGrows(q, e);
      if AllNest(p, es[..|es| - 1]) {
        HandleBalance(q, e);
        if Nests(q, e) {
          BalancedLog(Handle(q, e));
        }
        assert Sum(Handle(q, e).log).suitesOk == Scopes.NeverBelow(SuitePair, Handle(q, e).log);
      } else if Scopes.NeverBelow(SuitePair, Handle(q, e).log) {
        NeverBelowPrefix(SuitePair, q.log, Handle(q, e).log);
      }
    }
  }

  lemma BalancedLog(p: Producer)
    requires Balanced(p)
    ensures Scopes.NeverBelow(SuitePair, p.log) && Balance(SuitePair, p.log) == |p.stack| + p.started
  {
  }

  // ----- From framework events to the replay

  lemma FreshIsBalanced(plan: bool, disableMochaHooks: bool)
    ensures Balanced(Fresh(plan, disableMochaHooks)) && Alternating(Fresh(plan, disableMochaHooks).log)
  {
    var log: seq<Message> := [];
    assert forall k :: 0 <= k <= |log| ==> log[..k] == [];
  }

  lemma AlternatesNeverBelow(log: seq<Message>)
    requires Alternates(TestPair, log)
    ensures Scopes.NeverBelow(TestPair, log)
  {
    forall k | 0 <= k <= |log|
      ensures Balance(TestPair, log[..k]) >= 0
    {
      AlternatesPrefix(TestPair, log[..k], log);
      AlternatingBalance(TestPair, log[..k]);
    }
  }

  lemma {:induction false} RunGrows(p: Producer, es: seq<Event>, k: nat)
    requires k <= |es|
    ensures Run(p, es[..k]).log <= Run(p, es).log
    decreases |es|
  {
    hide Handle;
    if k < |es| {
      var before := es[..|es| - 1];
      assert before[..k] == es[..k];
      RunGrows(p, before, k);
      HandleGrows(Run(p, before), es[|es| - 1]);
    } else {
      assert es[..k] == es;
    }
  }

  /** Every event nests and fits the pending test; hooks may come in any order. */
  ghost predicate WellFormed(p: Producer, es: seq<Event>) {
    AllNest(p, es) && AllFitTests(p, es)
  }

  lemma WellFormedPrefix(p: Producer, es: seq<Event>, k: nat)
    requires k <= |es| && WellFormed(p, es)
    ensures WellFormed(p, es[..k])
  {
    hide Run, Nests, FitsTest;
    assert forall i :: 0 <= i < k ==> es[..k][..i] == es[..i] && es[..k][i] == es[i];
  }

  lemma {:induction false} WellFormedLog(plan: bool, disableMochaHooks: bool, es: seq<Event>)
    requires WellFormed(Fresh(plan, disableMochaHooks), es)
    ensures
      var p := Run(Fresh(plan, disableMochaHooks), es);
      && Balanced(p) && Alternates(TestPair, p.log)
      && Scopes.NeverBelow(SuitePair, p.log) && Scopes.NeverBelow(TestPair, p.log)
      && Balance(SuitePair, p.log) == |p.stack| + p.started
      && Balance(TestPair, p.log) == (if TestPending(p) then 1 else 0)
  {
    hide Run, AllNest, AllFitTests, Alternates, Balanced, Scopes.NeverBelow;
    var p0 := Fresh(plan, disableMochaHooks);
    var p := Run(p0, es);
    FreshIsBalanced(plan, disableMochaHooks);
    AlternationExactly(p0, es);
    SuiteBalanceExactly(p0, es);
    AlternatesNeverBelow(p.log);
    AlternatingBalance(TestPair, p.log);
    BalancedLog(p);
  }

  /**
    End to end. For every run of framework events that nest and fit the pending test, with or without a test plan: when
    the replay has come to the messages that event `k` is about to add, its scope stack is as high as the suites on the
    reporter's stack at that event, the suites it has started lazily and the open test together, and a test runs
    exactly when the reporter has one pending.
   */
  lemma {:induction false} RunKeepsScopeHeight(plan: bool, disableMochaHooks: bool, es: seq<Event>, k: nat)
    requires k <= |es| && WellFormed(Fresh(plan, disableMochaHooks), es)
    ensures
      var p0 := Fresh(plan, disableMochaHooks);
      var p, q := Run(p0, es), Run(p0, es[..k]);
      && q.log <= p.log
      && var s := R.Replayed(p.log, |q.log|);
         var open := if TestPending(q) then 1 else 0;
         |s.scopes| == |q.stack| + q.started + open && |s.executables| == open
  {
    hide Run, R.Replayed, Balance, IsPending, Alternates, WellFormed, Balanced, Scopes.NeverBelow;
    var p0 := Fresh(plan, disableMochaHooks);
    var p, q := Run(p0, es), Run(p0, es[..k]);
    RunGrows(p0, es, k);
    WellFormedPrefix(p0, es, k);
    WellFormedLog(plan, disableMochaHooks, es);
    WellFormedLog(plan, disableMochaHooks, es[..k]);
    Scopes.ScopeHeights(p.log, |q.log|);
    assert p.log[..|q.log|] == q.log;
  }

  /** In such runs no end message pops an empty stack, and once the suites and tests are closed the final drain finds
      nothing. */
  lemma {:induction false} RunPopsNothingEmpty(plan: bool, disableMochaHooks: bool, es: seq<Event>, n: nat)
    requires WellFormed(Fresh(plan, disableMochaHooks), es) && n <= |Run(Fresh(plan, disableMochaHooks), es).log|
    ensures
      var p := Run(Fresh(plan, disableMochaHooks), es);
      var s := R.Replayed(p.log, n);
      && (n < |p.log| && (p.log[n].SuiteEnd? || p.log[n].TestEnd?) ==> s.scopes != [])
      && (n < |p.log| && p.log[n].TestEnd? ==> s.executables != [])
      && (n == |p.log| && p.stack == [] && !TestPending(p) ==> s.scopes == [])
  {
    hide Run, R.Replayed, Balance, IsPending, Alternates, WellFormed, Scopes.NeverBelow;
    var log := Run(Fresh(plan, disableMochaHooks), es).log;
    WellFormedLog(plan, disableMochaHooks, es);
    if n < |log| {
      Scopes.NoEmptyPop(log, n);
    } else {
      Scopes.ScopeHeights(log, n);
      assert log[..n] == log;
    }
  }
}
