/** What the reporter keeps out of the log, and the flags that decide it: exactly, over whole runs. */
module AllureGuards {
  import opened Wrappers
  import opened Text
  import opened AllureMessages
  import opened AllureProducer
  import opened AllureEpisodes
  import Runs = AllureRuns
  import A = AllureAttaches

  // ----- Suites and scenarios

  /** The suites of a stack from a position on, started lazily. Below the stack the name is undefined. */
  function SuitesFrom(stack: seq<string>, from: int): seq<Message> {
    seq(if from < |stack| then |stack| - from else 0, i requires 0 <= i && from + i < |stack| =>
      SuiteStart(if from + i < 0 then "undefined" else stack[from + i], false))
  }

  lemma NoSuites(stack: seq<string>, from: int)
    requires from >= |stack|
    ensures SuitesFrom(stack, from) == []
  {
  }

  lemma SuitesFromNext(stack: seq<string>, from: int)
    requires from < |stack|
    ensures SuitesFrom(stack, from) ==
            [SuiteStart(if from < 0 then "undefined" else stack[from], false)] + SuitesFrom(stack, from + 1)
  {
  }

  lemma {:induction false} SuitesLogged(p: Producer, from: int)
    ensures StartSuites(p, from) == Adding(p, SuitesFrom(p.stack, from))
    decreases |p.stack| - from
  {
    hide SuitesFrom;
    if from >= |p.stack| {
      assert SuitesFrom(p.stack, from) == [] by { NoSuites(p.stack, from); }
      assert p.log + [] == p.log;
    } else {
      var m := SuiteStart(if from < 0 then "undefined" else p.stack[from], false);
      SuitesLogged(Push(p, m), from + 1);
      SuitesFromNext(p.stack, from);
      assert p.log + [m] + SuitesFrom(p.stack, from + 1) == p.log + ([m] + SuitesFrom(p.stack, from + 1));
    }
  }

  /** With a plan, the suites not yet started go first; without one, nothing does. */
  function Waiting(p: Producer): seq<Message> {
    if p.plan then SuitesFrom(p.stack, p.started) else []
  }

  lemma WaitingStarted(p: Producer)
    ensures EnsureSuitesStarted(p) == Adding(p.(started := if p.plan then |p.stack| else p.started), Waiting(p))
  {
    if p.plan {
      SuitesLogged(p, p.started);
    } else {
      assert p.log + [] == p.log;
    }
  }

  /** A test's start with a plan or without. */
  lemma {:induction false} TestStartsExactly(p: Producer, t: Test)
    requires !t.isStep
    ensures
      Handle(p, TestStarts(t)) ==
      Adding(p.(started := if p.plan then |p.stack| else p.started),
             Waiting(p) + [TestStart(t.title, t.start)] + DetailsIn(t.details))
  {
    hide Push, PushDetails, EnsureSuitesStarted, Adding, DetailsIn, Waiting;
    WaitingStarted(p);
    Adds();
  }

  const SKIPPED_TEST := TestEnd(Outcome(Skipped, Some(Pending), None, None, None))

  /** The start of a suite or a scenario: a feature's suite is flagged, a scenario is a test, and one that the plan
      leaves out is ended at once as skipped. */
  lemma {:induction false} SuiteStartsExactly(p: Producer, s: Suite)
    ensures
      var q := Handle(p, SuiteStarts(s));
      match s.kind
      case Feature => q == Adding(p.(scenarioActive := false, stack := p.stack + [s.title]),
        [SuiteStart(s.title, true)])
      case Describe => q == Adding(p.(stack := p.stack + [s.title]), [SuiteStart(s.title, false)])
      case Scenario =>
        var skip := p.plan && s.excluded;
        q == Adding(p.(scenarioActive := true, started := if p.plan then |p.stack| else p.started,
                       planSkip := p.planSkip || skip),
                    Waiting(p) + [TestStart(s.title, s.start)] + DetailsIn(s.details)
                    + if skip then [SKIPPED_TEST] else [])
  {
    hide Push, PushDetails, EnsureSuitesStarted, Adding, DetailsIn, Waiting;
    Adds();
    if s.kind.Scenario? {
      WaitingStarted(p.(scenarioActive := true));
      SameWaiting(p);
      assert Waiting(p) + [TestStart(s.title, s.start)] + DetailsIn(s.details) + [] ==
             Waiting(p) + [TestStart(s.title, s.start)] + DetailsIn(s.details);
      FlagsAside();
    } else {
      PushedSuite(p, s);
    }
  }

  lemma SameWaiting(p: Producer)
    ensures Waiting(p.(scenarioActive := true)) == Waiting(p)
  {
  }

  lemma FlagsAside()
    ensures forall p: Producer, ms {:trigger Adding(p, ms)} :: Adding(p, ms).(planSkip := true) ==
              Adding(p.(planSkip := true), ms)
  {
  }

  lemma PushedSuite(p: Producer, s: Suite)
    ensures s.kind.Feature? ==>
              OnSuiteStart(p, s) ==
              Adding(p.(scenarioActive := false, stack := p.stack + [s.title]), [SuiteStart(s.title, true)])
    ensures s.kind.Describe? ==>
              OnSuiteStart(p, s) == Adding(p.(stack := p.stack + [s.title]), [SuiteStart(s.title, false)])
  {
  }

  function Popped(stack: seq<string>): seq<string> {
    if stack == [] then [] else stack[..|stack| - 1]
  }

  /** The end of a suite or a scenario: without a plan one suite ends; with a plan the one started lazily ends too, if
      all were; a scenario ends with its outcome unless it is being skipped. */
  lemma {:induction false} SuiteEndsExactly(p: Producer, s: Suite)
    ensures
      var q := Handle(p, SuiteEnds(s));
      if s.kind.Scenario? then
        if p.planSkip then q == p.(planSkip := false, scenarioActive := false)
        else q == Adding(p.(scenarioActive := false), DetailsIn(s.details) + [TestEnd(s.outcome)])
      else if !p.plan then q == Adding(p.(stack := Popped(p.stack)), [SuiteEnd])
      else
        var all := p.started >= |p.stack|;
        q == Adding(p.(stack := Popped(p.stack), started := if all then p.started - 1 else p.started),
                    (if all then [SuiteEnd] else []) + (if p.stack != [] then [SuiteEnd] else []))
  {
    hide OnSuiteEnd;
    if s.kind.Scenario? {
      ScenarioEnds(p, s);
    } else if p.plan {
      PlannedSuiteEnds(p, s);
    } else {
      PlainSuiteEnds(p, s);
    }
  }

  lemma ScenarioEnds(p: Producer, s: Suite)
    requires s.kind.Scenario?
    ensures OnSuiteEnd(p, s) ==
            if p.planSkip then p.(planSkip := false, scenarioActive := false)
            else Adding(p.(scenarioActive := false), DetailsIn(s.details) + [TestEnd(s.outcome)])
  {
    hide Push, PushDetails, DetailsIn, Adding;
    Adds();
  }

  lemma PlainSuiteEnds(p: Producer, s: Suite)
    requires !s.kind.Scenario? && !p.plan
    ensures OnSuiteEnd(p, s) == Adding(p.(stack := Popped(p.stack)), [SuiteEnd])
  {
  }

  lemma PlannedSuiteEnds(p: Producer, s: Suite)
    requires !s.kind.Scenario? && p.plan
    ensures
      var all := p.started >= |p.stack|;
      OnSuiteEnd(p, s) ==
      Adding(p.(stack := Popped(p.stack), started := if all then p.started - 1 else p.started),
             (if all then [SuiteEnd] else []) + (if p.stack != [] then [SuiteEnd] else []))
  {
    assert p.log + ([SuiteEnd] + []) == p.log + [SuiteEnd] && p.log + ([] + [SuiteEnd]) == p.log + [SuiteEnd];
    assert p.log + ([SuiteEnd] + [SuiteEnd]) == p.log + [SuiteEnd] + [SuiteEnd] && p.log + ([] + []) == p.log;
  }

  // ----- What stays out of the log

  /** Nothing is logged for the event. */
  ghost predicate IsSilent(p: Producer, e: Event) {
    match e
    case SuiteStarts(_) => false
    case SuiteEnds(s) =>
      if s.kind.Scenario? then p.planSkip else p.plan && p.stack == [] && p.started < 0
    case TestStarts(t) => t.isStep && !TestOpen(p.log)
    case TestPends(t) => !t.isStep
    case HookStarts(h) => p.planSkip || p.disableMochaHooks || h.cucumber || p.scenarioActive
    case HookEnds(h) =>
      || p.planSkip || (p.disableMochaHooks && !h.failed)
      || (if h.cucumber then !h.failed || (p.plan && h.excluded && !TestOpen(p.log)) else p.scenarioActive)
    case StepEvent(m) => p.planSkip || !IsStepOrNote(m)
    case CommandEvent(m) => p.planSkip || !IsStepOrNote(m) || !(TestOpen(p.log) || HookOpen(p.log))
    case _ => false
  }

  lemma Grows()
    ensures forall p: Producer, m: Message {:trigger Push(p, m)} :: |Push(p, m).log| == |p.log| + 1
    ensures forall p: Producer, ds {:trigger PushDetails(p, ds)} :: |PushDetails(p, ds).log| == |p.log| + |ds|
    ensures forall p: Producer {:trigger EnsureSuitesStarted(p)} :: |EnsureSuitesStarted(p).log| >= |p.log|
  {
    forall p: Producer, ds
      ensures |PushDetails(p, ds).log| == |p.log| + |ds|
    {
      DetailsAdded(p, ds);
    }
    forall p: Producer
      ensures |EnsureSuitesStarted(p).log| >= |p.log|
    {
      MoreSuites(p, p.started);
    }
  }

  lemma {:induction false} MoreSuites(p: Producer, from: int)
    ensures |StartSuites(p, from).log| >= |p.log|
    decreases |p.stack| - from
  {
    if from < |p.stack| {
      MoreSuites(Push(p, SuiteStart(NameAt(p.stack, from), false)), from + 1);
    }
  }

  /** For every event in every state of the reporter: the log stays as it is exactly when the event is silent. */
  lemma {:induction false} SilentExactly(p: Producer, e: Event)
    ensures Handle(p, e).log == p.log <==> IsSilent(p, e)
  {
    hide Push, OnSuiteStart, OnSuiteEnd, OnTestStart, OnTestSkip, OnHookStart, OnHookEnd, EndOrStop, TestOpen, HookOpen,
         IsPending;
    PendingExactly(p.log);
    PushGrows();
    match e
    case SuiteStarts(s) => SuiteGrows(p, s);
    case SuiteEnds(s) => SuiteGrows(p, s);
    case HookStarts(h) => HookStartGrows(p, h);
    case HookEnds(h) => HookEndGrows(p, h);
    case _ => TestGrows(p, e);
  }

  lemma PushGrows()
    ensures forall p: Producer, m: Message {:trigger Push(p, m)} :: |Push(p, m).log| == |p.log| + 1
  {
  }

  lemma {:induction false} SuiteGrows(p: Producer, s: Suite)
    ensures |OnSuiteStart(p, s).log| > |p.log|
    ensures OnSuiteEnd(p, s).log == p.log <==> IsSilent(p, SuiteEnds(s))
  {
    hide Push, PushDetails, EnsureSuitesStarted;
    Grows();
  }

  lemma {:induction false} HookStartGrows(p: Producer, h: Hook)
    ensures OnHookStart(p, h).log == p.log <==> IsSilent(p, HookStarts(h))
  {
    hide Push, DeriveHookType;
    PushGrows();
  }

  lemma {:induction false} HookEndGrows(p: Producer, h: Hook)
    ensures OnHookEnd(p, h).log == p.log <==> IsSilent(p, HookEnds(h))
  {
    hide Push, PushDetails, IsPending, TestOpen, DeriveHookType, HookOutcome;
    Grows();
    PendingExactly(p.log);
  }

  lemma {:induction false} TestGrows(p: Producer, e: Event)
    requires !e.SuiteStarts? && !e.SuiteEnds? && !e.HookStarts? && !e.HookEnds?
    ensures Handle(p, e).log == p.log <==> IsSilent(p, e)
  {
    hide Push, PushDetails, EnsureSuitesStarted, IsPending, TestOpen, HookOpen;
    Grows();
    PendingExactly(p.log);
  }

  // ----- The flags, over whole runs

  /** The event makes the reporter skip a scenario: the plan leaves it out, or one of its before hooks says so. */
  ghost predicate StartsSkipping(p: Producer, e: Event) {
    match e
    case SuiteStarts(s) => p.plan && s.kind.Scenario? && s.excluded
    case HookStarts(h) =>
      p.plan && !p.disableMochaHooks && h.cucumber && h.excluded && KindOf(p.log, h).Before?
    case _ => false
  }

  predicate IsScenario(s: Suite) {
    s.kind.Scenario?
  }

  lemma {:induction false} SkippingNext(p: Producer, e: Event)
    ensures Handle(p, e).planSkip <==>
            StartsSkipping(p, e) || (p.planSkip && !(e.SuiteEnds? && IsScenario(e.suite)))
  {
    hide Push, OnSuiteStart, OnSuiteEnd, OnTestStart, OnTestSkip, OnHookStart, OnHookEnd, EndOrStop, KindOf;
    match e
    case SuiteStarts(s) => SuiteFlags(p, s);
    case SuiteEnds(s) => SuiteFlags(p, s);
    case HookStarts(h) => HookStartFlags(p, h);
    case HookEnds(h) => HookEndFlags(p, h);
    case _ => TestFlags(p, e);
  }

  /** What suites and scenarios do to the two flags. */
  lemma {:induction false} SuiteFlags(p: Producer, s: Suite)
    ensures OnSuiteStart(p, s).planSkip <==> p.planSkip || (p.plan && IsScenario(s) && s.excluded)
    ensures OnSuiteStart(p, s).scenarioActive <==> if s.kind.Describe? then p.scenarioActive else IsScenario(s)
    ensures OnSuiteEnd(p, s).planSkip <==> p.planSkip && !IsScenario(s)
    ensures OnSuiteEnd(p, s).scenarioActive <==> p.scenarioActive && !IsScenario(s)
  {
    hide Push, PushDetails, EnsureSuitesStarted;
    Frames();
  }

  lemma {:induction false} HookStartFlags(p: Producer, h: Hook)
    ensures OnHookStart(p, h).scenarioActive == p.scenarioActive
    ensures OnHookStart(p, h).planSkip <==> StartsSkipping(p, HookStarts(h)) || p.planSkip
  {
    hide Push, DeriveHookType, KindOf;
    Frames();
    KindIsDerived(p, h);
  }

  lemma {:induction false} HookEndFlags(p: Producer, h: Hook)
    ensures OnHookEnd(p, h) == p.(log := OnHookEnd(p, h).log)
  {
    hide Push, PushDetails, IsPending, DeriveHookType, HookOutcome, IgnoresHookEnd;
    Frames();
  }

  /** Tests, steps, commands and labels leave the flags alone. */
  lemma {:induction false} TestFlags(p: Producer, e: Event)
    requires !e.SuiteStarts? && !e.SuiteEnds? && !e.HookStarts? && !e.HookEnds?
    ensures Handle(p, e).planSkip == p.planSkip && Handle(p, e).scenarioActive == p.scenarioActive
  {
    hide Push, PushDetails, EnsureSuitesStarted, IsPending, EndOrStop;
    Frames();
    EndFrame();
  }

  lemma EndFrame()
    ensures forall p: Producer, t, o {:trigger EndOrStop(p, t, o)} :: EndOrStop(p, t, o) ==
              p.(log := EndOrStop(p, t, o).log)
  {
    hide Push, PushDetails;
    Frames();
  }

  lemma Frames()
    ensures forall p: Producer, m: Message {:trigger Push(p, m)} :: Push(p, m) == p.(log := Push(p, m).log)
    ensures forall p: Producer, ds {:trigger PushDetails(p, ds)} ::
              PushDetails(p, ds) == p.(log := PushDetails(p, ds).log)
    ensures forall p: Producer {:trigger EnsureSuitesStarted(p)} ::
              EnsureSuitesStarted(p) == p.(log := EnsureSuitesStarted(p).log, started := EnsureSuitesStarted(p).started)
  {
    hide Runs.Sum;
    Runs.Sums();
  }

  lemma {:induction false} ActiveNext(p: Producer, e: Event)
    ensures Handle(p, e).scenarioActive <==>
            if e.SuiteStarts? && !e.suite.kind.Describe? then IsScenario(e.suite)
            else p.scenarioActive && !(e.SuiteEnds? && IsScenario(e.suite))
  {
    hide Push, OnSuiteStart, OnSuiteEnd, OnTestStart, OnTestSkip, OnHookStart, OnHookEnd, EndOrStop;
    match e
    case SuiteStarts(s) => SuiteFlags(p, s);
    case SuiteEnds(s) => SuiteFlags(p, s);
    case HookStarts(h) => HookStartFlags(p, h);
    case HookEnds(h) => HookEndFlags(p, h);
    case _ => TestFlags(p, e);
  }

  /** Event `i` makes the reporter skip a scenario, and none has ended since. */
  ghost predicate SkipsSince(p: Producer, es: seq<Event>, i: nat) {
    && i < |es| && StartsSkipping(Run(p, es[..i]), es[i])
    && forall k :: i < k < |es| ==> !(es[k].SuiteEnds? && IsScenario(es[k].suite))
  }

  /** Over every run from a reporter that is not skipping: it skips exactly since an event that starts it. */
  lemma {:induction false} SkippingExactly(p: Producer, es: seq<Event>)
    requires !p.planSkip
    ensures Run(p, es).planSkip <==> exists i: nat :: SkipsSince(p, es, i)
  {
    hide Handle, StartsSkipping;
    if es != [] {
      var init, e := es[..|es| - 1], es[|es| - 1];
      SkippingExactly(p, init);
      SkippingNext(Run(p, init), e);
      assert forall i :: 0 <= i < |init| ==> es[..i] == init[..i] && es[i] == init[i];
      if StartsSkipping(Run(p, init), e) {
        assert SkipsSince(p, es, |es| - 1);
      }
      if Run(p, init).planSkip && !(e.SuiteEnds? && IsScenario(e.suite)) {
        var i: nat :| SkipsSince(p, init, i);
        assert SkipsSince(p, es, i);
      }
      forall i: nat | SkipsSince(p, es, i) && i < |init|
        ensures SkipsSince(p, init, i)
      {
      }
    }
  }

  /** Event `i` starts a scenario, and neither a scenario has ended nor a feature begun since. */
  predicate ActiveSince(es: seq<Event>, i: nat) {
    && i < |es| && es[i].SuiteStarts? && IsScenario(es[i].suite)
    && forall k :: i < k < |es| ==>
         !(es[k].SuiteEnds? && IsScenario(es[k].suite)) && !(es[k].SuiteStarts? && es[k].suite.kind.Feature?)
  }

  /** And hooks count as a scenario's exactly since its start. */
  lemma {:induction false} ActiveExactly(p: Producer, es: seq<Event>)
    requires !p.scenarioActive
    ensures Run(p, es).scenarioActive <==> exists i: nat :: ActiveSince(es, i)
  {
    hide Handle;
    if es != [] {
      var init, e := es[..|es| - 1], es[|es| - 1];
      ActiveExactly(p, init);
      ActiveNext(Run(p, init), e);
      if e.SuiteStarts? && IsScenario(e.suite) {
        assert ActiveSince(es, |es| - 1);
      } else {
        if Run(p, es).scenarioActive {
          var i: nat :| ActiveSince(init, i);
          assert ActiveSince(es, i);
        }
        forall i: nat | ActiveSince(es, i)
          ensures ActiveSince(init, i)
        {
        }
      }
    }
  }

  // ----- Features

  /** Event `i` starts the last feature. */
  predicate IsLastFeatureEvent(es: seq<Event>, i: nat) {
    && i < |es| && es[i].SuiteStarts? && es[i].suite.kind.Feature?
    && forall k :: i < k < |es| ==> !(es[k].SuiteStarts? && es[k].suite.kind.Feature?)
  }

  /** The name the log has for its feature after one more event. */
  lemma {:induction false} FeatureNext(p: Producer, e: Event)
    ensures FeatureName(Handle(p, e).log) ==
            if e.SuiteStarts? && e.suite.kind.Feature? then e.suite.title else FeatureName(p.log)
  {
    hide Push, OnSuiteStart, OnSuiteEnd, OnHookStart, OnHookEnd, FeatureName;
    match e
    case SuiteStarts(s) => SuiteNames(p, s);
    case SuiteEnds(s) => SuiteNames(p, s);
    case HookStarts(h) => HookNames(p, h);
    case HookEnds(h) => HookNames(p, h);
    case _ => TestNames(p, e);
  }

  lemma {:induction false} SuiteNames(p: Producer, s: Suite)
    ensures FeatureName(OnSuiteStart(p, s).log) == if s.kind.Feature? then s.title else FeatureName(p.log)
    ensures FeatureName(OnSuiteEnd(p, s).log) == FeatureName(p.log)
  {
    hide Push, PushDetails, EnsureSuitesStarted, FeatureName;
    Flags();
  }

  lemma {:induction false} HookNames(p: Producer, h: Hook)
    ensures FeatureName(OnHookStart(p, h).log) == FeatureName(p.log)
    ensures FeatureName(OnHookEnd(p, h).log) == FeatureName(p.log)
  {
    hide Push, PushDetails, IsPending, DeriveHookType, HookOutcome, FeatureName, IgnoresHookEnd;
    Flags();
  }

  lemma {:induction false} TestNames(p: Producer, e: Event)
    requires !e.SuiteStarts? && !e.SuiteEnds? && !e.HookStarts? && !e.HookEnds?
    ensures FeatureName(Handle(p, e).log) == FeatureName(p.log)
  {
    hide Push, PushDetails, EnsureSuitesStarted, IsPending, FeatureName;
    Flags();
  }

  lemma FlagNext(log: seq<Message>, m: Message)
    ensures FeatureName(log + [m]) == if m.SuiteStart? && m.feature then m.name else FeatureName(log)
  {
    assert (log + [m])[..|log|] == log;
  }

  lemma {:induction false} DetailsUnflagged(p: Producer, ds: seq<Detail>)
    ensures FeatureName(PushDetails(p, ds).log) == FeatureName(p.log)
  {
    if ds != [] {
      DetailsUnflagged(p, ds[..|ds| - 1]);
      FlagNext(PushDetails(p, ds[..|ds| - 1]).log, DetailMessage(ds[|ds| - 1]));
    }
  }

  lemma {:induction false} SuitesUnflagged(p: Producer, from: int)
    ensures FeatureName(StartSuites(p, from).log) == FeatureName(p.log)
    decreases |p.stack| - from
  {
    if from < |p.stack| {
      var m := SuiteStart(NameAt(p.stack, from), false);
      FlagNext(p.log, m);
      SuitesUnflagged(Push(p, m), from + 1);
    }
  }

  lemma Flags()
    ensures forall p: Producer, m: Message {:trigger Push(p, m)} ::
              FeatureName(Push(p, m).log) == if m.SuiteStart? && m.feature then m.name else FeatureName(p.log)
    ensures forall p: Producer, ds {:trigger PushDetails(p, ds)} ::
              FeatureName(PushDetails(p, ds).log) == FeatureName(p.log)
    ensures forall p: Producer {:trigger EnsureSuitesStarted(p)} ::
              FeatureName(EnsureSuitesStarted(p).log) == FeatureName(p.log)
  {
    forall p: Producer, m: Message
      ensures FeatureName(Push(p, m).log) == if m.SuiteStart? && m.feature then m.name else FeatureName(p.log)
    {
      FlagNext(p.log, m);
    }
    forall p: Producer, ds
      ensures FeatureName(PushDetails(p, ds).log) == FeatureName(p.log)
    {
      DetailsUnflagged(p, ds);
    }
    forall p: Producer
      ensures FeatureName(EnsureSuitesStarted(p).log) == FeatureName(p.log)
    {
      SuitesUnflagged(p, p.started);
    }
  }

  /** A run's log has a feature exactly when the last feature that was started has a title. */
  lemma {:induction false} RunFeatureExactly(plan: bool, disableMochaHooks: bool, es: seq<Event>)
    ensures HasFeature(Run(Fresh(plan, disableMochaHooks), es).log) <==>
            exists i: nat :: IsLastFeatureEvent(es, i) && es[i].suite.title != ""
  {
    hide Handle, FeatureName, IsLastFeatureEvent;
    FeatureIsLast(Fresh(plan, disableMochaHooks), es);
    if !exists i: nat :: IsLastFeatureEvent(es, i) {
      assert FeatureName([]) == "" by { NoFeatureName(); }
    }
  }

  lemma NoFeatureName()
    ensures FeatureName([]) == ""
  {
  }

  lemma {:induction false} FeatureIsLast(p: Producer, es: seq<Event>)
    ensures forall i: nat :: IsLastFeatureEvent(es, i) ==> FeatureName(Run(p, es).log) == es[i].suite.title
    ensures (!exists i: nat :: IsLastFeatureEvent(es, i)) ==> FeatureName(Run(p, es).log) == FeatureName(p.log)
  {
    hide Handle, FeatureName;
    if es != [] {
      var init, e := es[..|es| - 1], es[|es| - 1];
      FeatureIsLast(p, init);
      FeatureNext(Run(p, init), e);
      if e.SuiteStarts? && e.suite.kind.Feature? {
        assert IsLastFeatureEvent(es, |es| - 1);
      } else {
        forall i: nat
          ensures IsLastFeatureEvent(es, i) <==> IsLastFeatureEvent(init, i)
        {
        }
      }
    }
  }
}
