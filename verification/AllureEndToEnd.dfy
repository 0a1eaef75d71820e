/** From framework events to the moment each test is written. */
module AllureEndToEnd {
  import opened Wrappers
  import opened Text
  import opened AllureMessages
  import opened AllureProducer
  import opened AllureRuns
  import opened AllureExactly
  import R = AllureReplay
  import L = AllureLedger
  import Fixtures = AllureFixtures
  import OwnTests = AllureOwnTests
  import Scopes = AllureScopes

  // ----- Ordered logs, one message at a time

  /** What is read off a log besides its summary. */
  datatype Bits = Bits(live: bool, waits: bool, seen: bool)

  function BitsOf(feature: bool, log: seq<Message>): Bits {
    Bits(HasLiveTest(feature, log), HookWaits(feature, log), SeenAfterAll(log))
  }

  function NextBits(feature: bool, b: Bits, m: Message): Bits {
    match m
    case SuiteStart(_, _) => b.(live := false)
    case TestStart(_, _) => b.(live := true)
    case TestEnd(_) => b.(live := b.live && (feature || !b.seen))
    case HookStart(name, _, _) => Bits(b.live && !AfterAll(name), AfterAll(name) || !b.live, b.seen || AfterAll(name))
    case HookEnd(_) => b.(live := b.live && (feature || !b.waits || !b.seen), waits := false)
    case _ => b
  }

  lemma BitsAppend(feature: bool, log: seq<Message>, m: Message)
    ensures BitsOf(feature, log + [m]) == NextBits(feature, BitsOf(feature, log), m)
  {
    hide HasLiveTest, HookWaits, SeenAfterAll, AfterAll;
    ReadsNext(feature, log, m);
  }

  /** `InOrder`, read off the summary and the bits. */
  predicate TakesTurn(feature: bool, s: Summary, b: Bits, m: Message) {
    match m
    case SuiteStart(_, _) => !s.test && (s.hook ==> b.waits)
    case SuiteEnd => !s.test && (s.hook ==> b.waits) && s.suites >= 1
    case TestStart(_, _) => !s.test
    case TestEnd(_) => s.test && !s.hook
    case HookStart(name, kind, _) =>
      !s.hook && if AfterAll(name) || !b.live then feature || PlainHook(name, kind) else s.suites > 0 || s.test
    case HookEnd(_) => s.hook
    case _ => true
  }

  lemma TurnIsOrder(feature: bool, log: seq<Message>, m: Message)
    requires Sum(log).suitesOk && Sum(log).testsOk && TakesTurn(feature, Sum(log), BitsOf(feature, log), m)
    ensures InOrder(feature, log, m)
  {
    hide Scopes.OutlineFrom, HasLiveTest, HookWaits, SeenAfterAll, AfterAll, PlainHook;
    AlternatesNeverBelow(log);
    Scopes.Heights(log);
    AlternatingBalance(TestPair, log);
    WholePrefix(SuitePair, log);
  }

  lemma OrderedAppend(feature: bool, log: seq<Message>, m: Message)
    requires Ordered(feature, log) && InOrder(feature, log, m)
    ensures Ordered(feature, log + [m])
  {
    hide InOrder;
    var all := log + [m];
    forall k | 0 <= k < |all|
      ensures InOrder(feature, all[..k], all[k])
    {
      if k < |log| {
        assert all[..k] == log[..k] && all[k] == log[k];
      } else {
        assert all[..k] == log;
      }
    }
  }

  /** The log so far is ordered and never has more ends than starts. */
  ghost predicate InGoodOrder(feature: bool, p: Producer) {
    Ordered(feature, p.log) && Sum(p.log).suitesOk && Sum(p.log).testsOk && Sum(p.log).hooksOk
  }

  lemma {:induction false} PushInTurn(feature: bool, p: Producer, m: Message)
    requires InGoodOrder(feature, p) && TakesTurn(feature, Sum(p.log), BitsOf(feature, p.log), m)
    ensures InGoodOrder(feature, Push(p, m))
  {
    hide Ordered, Sum, BitsOf, InOrder, PlainHook, AfterAll;
    TurnIsOrder(feature, p.log, m);
    OrderedAppend(feature, p.log, m);
    SumAppend(p.log, m);
    SuitesNotBelow(p.log);
  }

  lemma SuitesNotBelow(log: seq<Message>)
    requires Sum(log).suitesOk
    ensures Sum(log).suites >= 0
  {
    WholePrefix(SuitePair, log);
  }

  lemma {:induction false} DetailsInTurn(feature: bool, p: Producer, ds: seq<Detail>)
    ensures InGoodOrder(feature, p) ==> InGoodOrder(feature, PushDetails(p, ds))
    ensures BitsOf(feature, PushDetails(p, ds).log) == BitsOf(feature, p.log)
  {
    hide InGoodOrder, BitsOf;
    if ds != [] {
      var q, m := PushDetails(p, ds[..|ds| - 1]), DetailMessage(ds[|ds| - 1]);
      DetailsInTurn(feature, p, ds[..|ds| - 1]);
      BitsAppend(feature, q.log, m);
      if InGoodOrder(feature, p) {
        PushInTurn(feature, q, m);
      }
    }
  }

  lemma {:induction false} SuitesInTurn(feature: bool, p: Producer, from: int)
    requires InGoodOrder(feature, p) && !Sum(p.log).test && !InLiveHook(feature, p.log)
    ensures InGoodOrder(feature, StartSuites(p, from))
    decreases |p.stack| - from
  {
    hide InGoodOrder, Sum, InLiveHook, Push;
    if from < |p.stack| {
      var m := SuiteStart(NameAt(p.stack, from), false);
      SuitePushed(feature, p, m);
      SuitesInTurn(feature, Push(p, m), from + 1);
    }
  }

  lemma {:induction false} SuitePushed(feature: bool, p: Producer, m: Message)
    requires InGoodOrder(feature, p) && !Sum(p.log).test && !InLiveHook(feature, p.log) && m.SuiteStart?
    ensures InGoodOrder(feature, Push(p, m)) && !Sum(Push(p, m).log).test && !InLiveHook(feature, Push(p, m).log)
            && Push(p, m).stack == p.stack
  {
    hide InGoodOrder, Sum, BitsOf, InLiveHook, WillWait;
    LiveBits(feature);
    PushInTurn(feature, p, m);
    SumAppend(p.log, m);
    LiveNext(feature, p.log, m);
  }

  lemma LiveBits(feature: bool)
    ensures forall p: Producer {:trigger InLiveHook(feature, p.log)} ::
              InLiveHook(feature, p.log) <==> Sum(p.log).hook && !BitsOf(feature, p.log).waits
  {
  }

  lemma Turns(feature: bool)
    ensures forall p: Producer, m: Message {:trigger Push(p, m)} ::
              && (InGoodOrder(feature, p) && TakesTurn(feature, Sum(p.log), BitsOf(feature, p.log), m) ==>
                 InGoodOrder(feature, Push(p, m)))
              && BitsOf(feature, Push(p, m).log) == NextBits(feature, BitsOf(feature, p.log), m)
    ensures forall p: Producer, ds {:trigger PushDetails(p, ds)} ::
              (InGoodOrder(feature, p) ==> InGoodOrder(feature, PushDetails(p, ds)))
                && BitsOf(feature, PushDetails(p, ds).log) == BitsOf(feature, p.log)
    ensures forall p: Producer {:trigger EnsureSuitesStarted(p)} ::
              InGoodOrder(feature, p) && !Sum(p.log).test && (p.plan ==> !InLiveHook(feature, p.log)) ==>
                InGoodOrder(feature, EnsureSuitesStarted(p))
  {
    hide InGoodOrder, TakesTurn, BitsOf, NextBits, Sum, InLiveHook;
    forall p: Producer, m: Message
      ensures InGoodOrder(feature, p) && TakesTurn(feature, Sum(p.log), BitsOf(feature, p.log), m) ==>
              InGoodOrder(feature, Push(p, m))
      ensures BitsOf(feature, Push(p, m).log) == NextBits(feature, BitsOf(feature, p.log), m)
    {
      BitsAppend(feature, p.log, m);
      if InGoodOrder(feature, p) && TakesTurn(feature, Sum(p.log), BitsOf(feature, p.log), m) {
        PushInTurn(feature, p, m);
      }
    }
    forall p: Producer, ds
      ensures InGoodOrder(feature, p) ==> InGoodOrder(feature, PushDetails(p, ds))
      ensures BitsOf(feature, PushDetails(p, ds).log) == BitsOf(feature, p.log)
    {
      DetailsInTurn(feature, p, ds);
    }
    forall p: Producer | InGoodOrder(feature, p) && !Sum(p.log).test && (p.plan ==> !InLiveHook(feature, p.log))
      ensures InGoodOrder(feature, EnsureSuitesStarted(p))
    {
      if p.plan {
        SuitesInTurn(feature, p, p.started);
        StartedOnly(feature, StartSuites(p, p.started), |p.stack|);
      }
    }
  }

  lemma StartedOnly(feature: bool, p: Producer, n: int)
    ensures InGoodOrder(feature, p.(started := n)) <==> InGoodOrder(feature, p)
  {
  }

  // ----- Events that come in turn

  /** Of the hooks that are to wait, only plainly named ones are asked for: others may be named anything. */
  predicate PlainIfWaiting(feature: bool, p: Producer, name: string, kind: HookKind) {
    WillWait(feature, p.log, name) && !feature ==> PlainHook(name, kind)
  }

  /** Suites, tests and hooks one at a time: suites between tests and outside live hooks, tests ended between hooks.
      A hook begins in a suite or test or is bound to wait, and is plainly named if it does wait; error-free hook ends
      come only for hooks that were reported. A hook may fail at any time. With a feature names do not matter. */
  predicate InTurn(feature: bool, p: Producer, e: Event) {
    var hasTest, hasHook := TestPending(p), HookPending(p);
    match e
    case SuiteStarts(s) => !hasTest && if s.kind.Scenario? then !hasHook else !InLiveHook(feature, p.log)
    case SuiteEnds(s) =>
      if s.kind.Scenario? then p.planSkip || (hasTest && !hasHook)
      else !hasTest && !InLiveHook(feature, p.log) && p.stack != []
    case TestStarts(t) => t.isStep || (!hasTest && (p.plan ==> !InLiveHook(feature, p.log)))
    case TestPasses(t) => t.isStep || (hasTest && !hasHook)
    case TestRetries(t) => t.isStep || (hasTest && !hasHook)
    case TestFails(t) => t.isStep || !hasHook
    case TestSkips(t) => t.isStep || !hasHook
    case HookStarts(h) =>
      ReportsHookStart(p, h) ==>
        && !hasHook && (p.stack != [] || hasTest || WillWait(feature, p.log, HookName(h)))
        && PlainIfWaiting(feature, p, HookName(h), DeriveHookType(p, h))
    case HookEnds(h) =>
      || IgnoresHookEnd(p, h) || hasHook
      || (h.failed && if hasTest then PlainIfWaiting(feature, p, HookName(h), DeriveHookType(p, h))
                      else AfterAll(OrElse(h.title, "Hook")) && !feature ==>
                             PlainHook(OrElse(h.title, "Hook"), DeriveHookType(p, h)))
    case _ => true
  }

  lemma SuiteStartInTurn(feature: bool, p: Producer, s: Suite)
    requires InGoodOrder(feature, p) && Balanced(p) && InTurn(feature, p, SuiteStarts(s))
    ensures InGoodOrder(feature, OnSuiteStart(p, s))
  {
    hide Push, EnsureSuitesStarted, PushDetails, Sum, TestPending, HookPending, BitsOf, Ordered, InLiveHook;
    PendingBits();
    LiveBits(feature);
    if s.kind.Scenario? {
      ScenarioStartInTurn(feature, p, s);
    } else {
      var q := p.(scenarioActive := p.scenarioActive && !s.kind.Feature?, stack := p.stack + [s.title]);
      PushInTurn(feature, q, SuiteStart(s.title, s.kind.Feature?));
    }
  }

  lemma ScenarioStartInTurn(feature: bool, p: Producer, s: Suite)
    requires InGoodOrder(feature, p) && s.kind.Scenario? && !TestPending(p) && !HookPending(p)
    ensures InGoodOrder(feature, OnSuiteStart(p, s))
  {
    hide Push, EnsureSuitesStarted, PushDetails, Sum, TestPending, HookPending, BitsOf, Ordered, InLiveHook, NextBits;
    Sums();
    PendingBits();
    LiveBits(feature);
    Turns(feature);
  }

  lemma SuiteEndInTurn(feature: bool, p: Producer, s: Suite)
    requires InGoodOrder(feature, p) && Balanced(p) && InTurn(feature, p, SuiteEnds(s))
    ensures InGoodOrder(feature, OnSuiteEnd(p, s))
  {
    hide Push, PushDetails, Sum, TestPending, HookPending, BitsOf, Ordered, InLiveHook, EndPlannedSuite;
    PendingBits();
    LiveBits(feature);
    if s.kind.Scenario? {
      ScenarioEndInTurn(feature, p, s);
    } else if p.plan {
      PlannedEndInTurn(feature, p);
    } else {
      PushInTurn(feature, p, SuiteEnd);
    }
  }

  lemma ScenarioEndInTurn(feature: bool, p: Producer, s: Suite)
    requires InGoodOrder(feature, p) && s.kind.Scenario? && (p.planSkip || (TestPending(p) && !HookPending(p)))
    ensures InGoodOrder(feature, OnSuiteEnd(p, s))
  {
    hide Push, PushDetails, Sum, TestPending, HookPending, BitsOf, Ordered, NextBits;
    Sums();
    PendingBits();
    Turns(feature);
  }

  lemma PlannedEndInTurn(feature: bool, p: Producer)
    requires InGoodOrder(feature, p) && Balanced(p) && p.plan && p.stack != []
    requires !Sum(p.log).test && !InLiveHook(feature, p.log)
    ensures InGoodOrder(feature, EndPlannedSuite(p))
  {
    hide Sum, BitsOf, Ordered, InLiveHook;
    LiveBits(feature);
    PushInTurn(feature, p, SuiteEnd);
    SumAppend(p.log, SuiteEnd);
    BitsAppend(feature, p.log, SuiteEnd);
    var q := Push(p, SuiteEnd).(started := p.started - 1);
    if p.started >= |p.stack| {
      PushInTurn(feature, q, SuiteEnd);
    }
  }

  lemma TestStartInTurn(feature: bool, p: Producer, t: Test)
    requires InGoodOrder(feature, p) && Balanced(p) && InTurn(feature, p, TestStarts(t))
    ensures InGoodOrder(feature, OnTestStart(p, t))
    ensures HookPending(OnTestStart(p, t)) == HookPending(p)
  {
    hide Push, EnsureSuitesStarted, PushDetails, IsPending, Alternates, Balance, Scopes.NeverBelow, Ordered, PlainHook;
    hide HasLiveTest, HookWaits, SeenAfterAll, AfterAll, InLiveHook;
    Sums();
    Turns(feature);
  }

  lemma {:induction false} EndInTurn(feature: bool, p: Producer, t: Test, o: Outcome)
    requires InGoodOrder(feature, p) && (t.isStep || (TestPending(p) && !HookPending(p)))
    ensures InGoodOrder(feature, EndOrStop(p, t, o))
  {
    hide Push, PushDetails, IsPending, Alternates, Balance, Scopes.NeverBelow, Ordered, PlainHook;
    hide HasLiveTest, HookWaits, SeenAfterAll, AfterAll;
    Sums();
    Turns(feature);
  }

  lemma TestFailInTurn(feature: bool, p: Producer, t: Test)
    requires InGoodOrder(feature, p) && Balanced(p) && InTurn(feature, p, TestFails(t))
    ensures InGoodOrder(feature, OnTestFail(p, t))
  {
    hide OnTestStart, EndOrStop, InGoodOrder, IsPending, Balanced;
    var p1 := if t.isStep || TestPending(p) then p else OnTestStart(p, t);
    if !t.isStep && !TestPending(p) {
      TestStartInTurn(feature, p, t);
      assert Alternating(p.log) by { GoodAlternates(feature, p); }
      TestStartFits(p, t);
    }
    EndInTurn(feature, p1, t, t.outcome.(stage := Some(Finished)));
  }

  lemma GoodAlternates(feature: bool, p: Producer)
    requires InGoodOrder(feature, p)
    ensures Alternating(p.log)
  {
  }

  lemma TestSkipInTurn(feature: bool, p: Producer, t: Test)
    requires InGoodOrder(feature, p) && InTurn(feature, p, TestSkips(t))
    ensures InGoodOrder(feature, OnTestSkip(p, t))
  {
    hide EndOrStop, Push, PushDetails, IsPending, Alternates, Balance, Scopes.NeverBelow, Ordered, PlainHook;
    hide HasLiveTest, HookWaits, SeenAfterAll, AfterAll;
    Sums();
    Turns(feature);
    var p1 := if t.isStep || TestPending(p) then p else PushDetails(Push(p, TestStart(t.title, t.start)), t.details);
    EndInTurn(feature, p1, t, SKIPPED);
  }

  lemma HookStartInTurn(feature: bool, p: Producer, h: Hook)
    requires InGoodOrder(feature, p) && Balanced(p) && InTurn(feature, p, HookStarts(h))
    ensures InGoodOrder(feature, OnHookStart(p, h))
  {
    hide Push, DeriveHookType, IsPending, Alternates, Balance, Scopes.NeverBelow, Ordered, PlainHook;
    hide HasLiveTest, HookWaits, SeenAfterAll, AfterAll;
    Sums();
    Turns(feature);
    assert InGoodOrder(feature, p.(planSkip := true));
  }

  lemma HookEndInTurn(feature: bool, p: Producer, h: Hook)
    requires InGoodOrder(feature, p) && InTurn(feature, p, HookEnds(h))
    ensures InGoodOrder(feature, OnHookEnd(p, h))
  {
    hide Push, PushDetails, DeriveHookType, IsPending, Alternates, Balance, Scopes.NeverBelow, Ordered, PlainHook;
    hide IgnoresHookEnd, InGoodOrder, HookOutcome, HasLiveTest, HookWaits, SeenAfterAll, AfterAll;
    Sums();
    Turns(feature);
  }

  lemma PlainMessageInTurn(feature: bool, p: Producer, m: Message)
    requires InGoodOrder(feature, p) && (IsRuntime(m) || m.TestInfo?)
    ensures InGoodOrder(feature, Push(p, m))
  {
    PushInTurn(feature, p, m);
  }

  lemma HandleInTurn(feature: bool, p: Producer, e: Event)
    requires InGoodOrder(feature, p) && Balanced(p) && InTurn(feature, p, e)
    ensures InGoodOrder(feature, Handle(p, e)) && Balanced(Handle(p, e))
  {
    hide OnSuiteStart, OnSuiteEnd, OnTestStart, OnTestFail, OnTestSkip, OnHookStart, OnHookEnd, EndOrStop, Push;
    hide InGoodOrder, IsPending, Balanced, ReportsHookStart, IgnoresHookEnd, PlainHook, WillWait, InLiveHook,
         PlainIfWaiting;
    HandleBalance(p, e);
    match e
    case SuiteStarts(s) => SuiteStartInTurn(feature, p, s);
    case SuiteEnds(s) => SuiteEndInTurn(feature, p, s);
    case TestStarts(t) => TestStartInTurn(feature, p, t);
    case TestPasses(t) =>
      EndInTurn(feature, p, t, t.outcome.(status := Passed, stage := Some(Finished), details := None));
    case TestRetries(t) => EndInTurn(feature, p, t, t.outcome.(stage := None));
    case TestFails(t) => TestFailInTurn(feature, p, t);
    case TestSkips(t) => TestSkipInTurn(feature, p, t);
    case TestPends(t) => if t.isStep { EndInTurn(feature, p, t, SKIPPED); } PendingIsStop(p, t);
    case HookStarts(h) => HookStartInTurn(feature, p, h);
    case HookEnds(h) => HookEndInTurn(feature, p, h);
    case StepEvent(m) => if IsRuntime(m) { PlainMessageInTurn(feature, p, m); }
    case CommandEvent(m) => if IsRuntime(m) { PlainMessageInTurn(feature, p, m); }
    case ApiCall(d) => PlainMessageInTurn(feature, p, DetailMessage(d));
  }

  ghost predicate AllInTurn(feature: bool, p: Producer, es: seq<Event>) {
    forall k :: 0 <= k < |es| ==> InTurn(feature, Run(p, es[..k]), es[k])
  }

  lemma AllInTurnSplit(feature: bool, p: Producer, es: seq<Event>)
    requires es != [] && AllInTurn(feature, p, es)
    ensures AllInTurn(feature, p, es[..|es| - 1]) && InTurn(feature, Run(p, es[..|es| - 1]), es[|es| - 1])
  {
    hide Run, InTurn;
    var before := es[..|es| - 1];
    assert forall k :: 0 <= k < |before| ==> before[..k] == es[..k] && before[k] == es[k];
  }

  lemma {:induction false} RunIsOrdered(feature: bool, p: Producer, es: seq<Event>)
    requires InGoodOrder(feature, p) && Balanced(p) && AllInTurn(feature, p, es)
    ensures InGoodOrder(feature, Run(p, es)) && Balanced(Run(p, es))
  {
    hide Handle, InGoodOrder, Balanced, InTurn, AllInTurn;
    if es != [] {
      var before := es[..|es| - 1];
      AllInTurnSplit(feature, p, es);
      RunIsOrdered(feature, p, before);
      HandleInTurn(feature, Run(p, before), es[|es| - 1]);
    }
  }

  // ----- Which events make the replay write a test too early

  lemma FreeAppend(flaw: Flaw, feature: bool, log: seq<Message>, m: Message)
    ensures IsFree(flaw, feature, log + [m]) <==> IsFree(flaw, feature, log) && !IsFlaw(flaw, feature, log, m)
  {
    hide IsFlaw;
    var all := log + [m];
    assert all[..|log|] == log && all[|log|] == m;
    assert forall k :: 0 <= k < |log| ==> all[..k] == log[..k] && all[k] == log[k];
  }

  lemma FreePrefix(flaw: Flaw, feature: bool, s: seq<Message>, t: seq<Message>)
    requires s <= t && IsFree(flaw, feature, t)
    ensures IsFree(flaw, feature, s)
  {
    hide IsFlaw;
    assert forall k :: 0 <= k < |s| ==> s[..k] == t[..k] && s[k] == t[k];
  }

  /** As long as nothing is written too early, the test that runs is live. */
  lemma {:induction false} RunningHasLive(feature: bool, log: seq<Message>)
    requires Ordered(feature, log) && IsFree(EarlyWrite, feature, log)
    ensures IsPending(TestPair, log) ==> HasLiveTest(feature, log)
  {
    hide InOrder, IsFlaw;
    if log != [] {
      var before, m := log[..|log| - 1], log[|log| - 1];
      assert log == before + [m];
      assert forall k :: 0 <= k < |before| ==> before[..k] == log[..k] && before[k] == log[k];
      RunningHasLive(feature, before);
      assert InOrder(feature, before, m) && !IsFlaw(EarlyWrite, feature, before, m);
      RunningStaysLive(feature, before, m);
    }
  }

  lemma RunningStaysLive(feature: bool, before: seq<Message>, m: Message)
    requires InOrder(feature, before, m) && !IsFlaw(EarlyWrite, feature, before, m)
    requires IsPending(TestPair, before) ==> HasLiveTest(feature, before)
    ensures IsPending(TestPair, before + [m]) ==> HasLiveTest(feature, before + [m])
  {
    hide IsPending, HasLiveTest, HookWaits, SeenAfterAll, AfterAll, Scopes.OutlineFrom, PlainHook;
    ReadsNext(feature, before, m);
  }

  /**
    The events that make the replay write a test before it is stopped. While a test is pending: an after-all hook that
    begins, or that fails without having begun, or the end of a hook which began while no test was live, once an
    after-all hook has been seen. While none is pending: a failing after-all hook that has not begun, or the failing
    end of a waiting hook, as above, because the reporter starts a test for the failure.
   */
  predicate WritesEarly(feature: bool, p: Producer, e: Event) {
    match e
    case HookStarts(h) => ReportsHookStart(p, h) && TestPending(p) && AfterAll(HookName(h))
    case HookEnds(h) =>
      !IgnoresHookEnd(p, h) &&
      if HookPending(p)
      then !feature && (TestPending(p) || h.failed) && HookWaits(feature, p.log) && SeenAfterAll(p.log)
      else h.failed && AfterAll(if TestPending(p) then HookName(h) else OrElse(h.title, "Hook"))
    case _ => false
  }

  /**
    The events that start a test while a fixture is open. While a hook is pending that found a live test: the start of
    a test, or the failing end of the hook with no test pending, because the reporter starts a test for the failure.
   */
  predicate StartsInHook(feature: bool, p: Producer, e: Event) {
    InLiveHook(feature, p.log) &&
    match e
    case TestStarts(t) => !t.isStep
    case HookEnds(h) => !IgnoresHookEnd(p, h) && h.failed && !TestPending(p)
    case _ => false
  }

  /**
    The events that record a fixture on another test: the end of a hook that found a live test, when a test has started
    since then, or when the hook fails with no test pending, because the reporter starts a test for the failure.
   */
  predicate RecordsElsewhere(feature: bool, p: Producer, e: Event) {
    && InLiveHook(feature, p.log) && e.HookEnds? && !IgnoresHookEnd(p, e.hook)
    && (TestSinceHook(p.log) || (e.hook.failed && !TestPending(p)))
  }

  predicate Spoils(flaw: Flaw, feature: bool, p: Producer, e: Event) {
    match flaw
    case EarlyWrite => WritesEarly(feature, p, e)
    case TestInHook => StartsInHook(feature, p, e)
    case OtherTest => RecordsElsewhere(feature, p, e)
  }

  lemma {:induction false} DetailsFree(flaw: Flaw, feature: bool, p: Producer, ds: seq<Detail>)
    ensures IsFree(flaw, feature, PushDetails(p, ds).log) <==> IsFree(flaw, feature, p.log)
  {
    hide IsFree;
    if ds != [] {
      var q, m := PushDetails(p, ds[..|ds| - 1]), DetailMessage(ds[|ds| - 1]);
      DetailsFree(flaw, feature, p, ds[..|ds| - 1]);
      FreeAppend(flaw, feature, q.log, m);
    }
  }

  lemma {:induction false} SuitesFree(flaw: Flaw, feature: bool, p: Producer, from: int)
    ensures IsFree(flaw, feature, StartSuites(p, from).log) <==> IsFree(flaw, feature, p.log)
    decreases |p.stack| - from
  {
    hide IsFree;
    if from < |p.stack| {
      var m := SuiteStart(NameAt(p.stack, from), false);
      FreeAppend(flaw, feature, p.log, m);
      SuitesFree(flaw, feature, Push(p, m), from + 1);
    }
  }

  lemma Frees(flaw: Flaw, feature: bool)
    ensures forall p: Producer, m: Message {:trigger Push(p, m)} ::
              IsFree(flaw, feature, Push(p, m).log) <==>
                IsFree(flaw, feature, p.log) && !IsFlaw(flaw, feature, p.log, m)
    ensures forall p: Producer, ds {:trigger PushDetails(p, ds)} ::
              IsFree(flaw, feature, PushDetails(p, ds).log) <==> IsFree(flaw, feature, p.log)
    ensures forall p: Producer {:trigger EnsureSuitesStarted(p)} ::
              IsFree(flaw, feature, EnsureSuitesStarted(p).log) <==> IsFree(flaw, feature, p.log)
  {
    hide IsFree, IsFlaw;
    forall p: Producer, m: Message
      ensures IsFree(flaw, feature, Push(p, m).log) <==>
              IsFree(flaw, feature, p.log) && !IsFlaw(flaw, feature, p.log, m)
    {
      FreeAppend(flaw, feature, p.log, m);
    }
    forall p: Producer, ds
      ensures IsFree(flaw, feature, PushDetails(p, ds).log) <==> IsFree(flaw, feature, p.log)
    {
      DetailsFree(flaw, feature, p, ds);
    }
    forall p: Producer
      ensures IsFree(flaw, feature, EnsureSuitesStarted(p).log) <==> IsFree(flaw, feature, p.log)
    {
      SuitesFree(flaw, feature, p, p.started);
    }
  }

  /** How the messages of one event change whether a live hook is pending. */
  lemma LiveHooks(feature: bool)
    ensures forall p: Producer, m: Message {:trigger Push(p, m)} ::
              InLiveHook(feature, Push(p, m).log) <==>
              if m.HookStart? then !WillWait(feature, p.log, m.name) else !m.HookEnd? && InLiveHook(feature, p.log)
    ensures forall p: Producer, ds {:trigger PushDetails(p, ds)} ::
              InLiveHook(feature, PushDetails(p, ds).log) <==> InLiveHook(feature, p.log)
    ensures forall p: Producer {:trigger EnsureSuitesStarted(p)} ::
              InLiveHook(feature, EnsureSuitesStarted(p).log) <==> InLiveHook(feature, p.log)
  {
    hide InLiveHook, WillWait;
    forall p: Producer, m: Message
      ensures InLiveHook(feature, Push(p, m).log) <==>
              if m.HookStart? then !WillWait(feature, p.log, m.name) else !m.HookEnd? && InLiveHook(feature, p.log)
    {
      LiveNext(feature, p.log, m);
    }
    forall p: Producer, ds
      ensures InLiveHook(feature, PushDetails(p, ds).log) <==> InLiveHook(feature, p.log)
    {
      DetailsLiveHook(feature, p, ds);
    }
    forall p: Producer
      ensures InLiveHook(feature, EnsureSuitesStarted(p).log) <==> InLiveHook(feature, p.log)
    {
      SuitesLiveHook(feature, p, p.started);
    }
  }

  lemma {:induction false} DetailsLiveHook(feature: bool, p: Producer, ds: seq<Detail>)
    ensures InLiveHook(feature, PushDetails(p, ds).log) <==> InLiveHook(feature, p.log)
  {
    hide InLiveHook, WillWait;
    if ds != [] {
      DetailsLiveHook(feature, p, ds[..|ds| - 1]);
      LiveNext(feature, PushDetails(p, ds[..|ds| - 1]).log, DetailMessage(ds[|ds| - 1]));
    }
  }

  lemma {:induction false} SuitesLiveHook(feature: bool, p: Producer, from: int)
    ensures InLiveHook(feature, StartSuites(p, from).log) <==> InLiveHook(feature, p.log)
    decreases |p.stack| - from
  {
    hide InLiveHook, WillWait;
    if from < |p.stack| {
      var m := SuiteStart(NameAt(p.stack, from), false);
      LiveNext(feature, p.log, m);
      SuitesLiveHook(feature, Push(p, m), from + 1);
    }
  }

  lemma SuiteEventSpoils(flaw: Flaw, feature: bool, p: Producer, s: Suite)
    ensures !(s.kind.Scenario? && HookPending(p)) ==>
              (IsFree(flaw, feature, OnSuiteStart(p, s).log) <==> IsFree(flaw, feature, p.log))
    ensures IsFree(flaw, feature, OnSuiteEnd(p, s).log) <==> IsFree(flaw, feature, p.log)
  {
    hide Push, EnsureSuitesStarted, PushDetails, IsPending, IsFree, HookWaits, SeenAfterAll, AfterAll, WillWait,
         InLiveHook;
    hide TestSinceHook, HookPending, TestPending;
    Frees(flaw, feature);
    LiveHooks(feature);
    NoHookNotLive(feature, p);
  }

  lemma NoHookNotLive(feature: bool, p: Producer)
    ensures !HookPending(p) ==> !InLiveHook(feature, p.log)
  {
  }

  lemma TestEventSpoils(flaw: Flaw, feature: bool, p: Producer, t: Test, o: Outcome)
    ensures IsFree(flaw, feature, OnTestStart(p, t).log) <==>
            IsFree(flaw, feature, p.log) && !Spoils(flaw, feature, p, TestStarts(t))
    ensures t.isStep || !HookPending(p) ==>
              (IsFree(flaw, feature, OnTestSkip(p, t).log) <==> IsFree(flaw, feature, p.log))
    ensures IsFree(flaw, feature, EndOrStop(p, t, o).log) <==> IsFree(flaw, feature, p.log)
  {
    hide Push, EnsureSuitesStarted, PushDetails, IsPending, IsFree, HookWaits, SeenAfterAll, AfterAll, WillWait,
         InLiveHook;
    Frees(flaw, feature);
    LiveHooks(feature);
    NoHookNotLive(feature, p);
  }

  lemma HookStartSpoils(flaw: Flaw, feature: bool, p: Producer, h: Hook)
    requires IsFree(flaw, feature, p.log)
    ensures IsFree(flaw, feature, OnHookStart(p, h).log) <==> !Spoils(flaw, feature, p, HookStarts(h))
  {
    hide Push, DeriveHookType, IsPending, IsFree, HookWaits, SeenAfterAll, AfterAll, InLiveHook;
    Frees(flaw, feature);
  }

  lemma {:induction false} HookEndWritesEarly(feature: bool, p: Producer, h: Hook)
    requires IsFree(EarlyWrite, feature, p.log) && InTurn(feature, p, HookEnds(h))
    requires TestPending(p) ==> HasLiveTest(feature, p.log)
    ensures IsFree(EarlyWrite, feature, OnHookEnd(p, h).log) <==> !WritesEarly(feature, p, HookEnds(h))
  {
    hide Push, PushDetails, DeriveHookType, IsPending, Alternates, Balance, Scopes.NeverBelow, PlainHook, IsFree;
    hide IgnoresHookEnd, HookOutcome, HasLiveTest, HookWaits, SeenAfterAll, AfterAll, InGoodOrder, TakesTurn;
    Frees(EarlyWrite, feature);
    Sums();
    Turns(feature);
  }

  lemma {:induction false} HookEndStartsTest(feature: bool, p: Producer, h: Hook)
    requires IsFree(TestInHook, feature, p.log)
    ensures IsFree(TestInHook, feature, OnHookEnd(p, h).log) <==> !StartsInHook(feature, p, HookEnds(h))
  {
    hide Push, PushDetails, DeriveHookType, IsPending, IsFree, IgnoresHookEnd, HookOutcome, InLiveHook, WillWait;
    Frees(TestInHook, feature);
    LiveHooks(feature);
    NoHookNotLive(feature, p);
  }

  lemma {:induction false} HookEndRecords(feature: bool, p: Producer, h: Hook)
    requires IsFree(OtherTest, feature, p.log)
    ensures IsFree(OtherTest, feature, OnHookEnd(p, h).log) <==> !RecordsElsewhere(feature, p, HookEnds(h))
  {
    hide Push, PushDetails, DeriveHookType, IsPending, IsFree, IgnoresHookEnd, HookOutcome, InLiveHook, WillWait;
    hide TestSinceHook;
    Frees(OtherTest, feature);
    LiveHooks(feature);
    TestsSince();
    NoHookNotLive(feature, p);
  }

  lemma TestsSince()
    ensures forall p: Producer, m: Message {:trigger Push(p, m)} ::
              TestSinceHook(Push(p, m).log) <==> !m.HookStart? && (m.TestStart? || TestSinceHook(p.log))
    ensures forall p: Producer, ds {:trigger PushDetails(p, ds)} ::
              TestSinceHook(PushDetails(p, ds).log) <==> TestSinceHook(p.log)
  {
    hide TestSinceHook;
    forall p: Producer, m: Message
      ensures TestSinceHook(Push(p, m).log) <==> !m.HookStart? && (m.TestStart? || TestSinceHook(p.log))
    {
      SinceNext(p.log, m);
    }
    forall p: Producer, ds
      ensures TestSinceHook(PushDetails(p, ds).log) <==> TestSinceHook(p.log)
    {
      DetailsSince(p, ds);
    }
  }

  lemma {:induction false} DetailsSince(p: Producer, ds: seq<Detail>)
    ensures TestSinceHook(PushDetails(p, ds).log) <==> TestSinceHook(p.log)
  {
    hide TestSinceHook;
    if ds != [] {
      DetailsSince(p, ds[..|ds| - 1]);
      SinceNext(PushDetails(p, ds[..|ds| - 1]).log, DetailMessage(ds[|ds| - 1]));
    }
  }

  lemma {:induction false} HookEndSpoils(flaw: Flaw, feature: bool, p: Producer, h: Hook)
    requires InGoodOrder(feature, p) && IsFree(flaw, feature, p.log) && InTurn(feature, p, HookEnds(h))
    ensures IsFree(flaw, feature, OnHookEnd(p, h).log) <==> !Spoils(flaw, feature, p, HookEnds(h))
  {
    hide IsFree, InTurn, OnHookEnd, WritesEarly, StartsInHook, HasLiveTest, IsPending;
    match flaw
    case EarlyWrite => RunningHasLive(feature, p.log); HookEndWritesEarly(feature, p, h);
    case TestInHook => HookEndStartsTest(feature, p, h);
    case OtherTest => HookEndRecords(feature, p, h);
  }

  lemma {:induction false} TestFailSpoils(flaw: Flaw, feature: bool, p: Producer, t: Test)
    requires InTurn(feature, p, TestFails(t))
    ensures IsFree(flaw, feature, OnTestFail(p, t).log) <==> IsFree(flaw, feature, p.log)
  {
    hide OnTestStart, EndOrStop, IsFree, IsPending, InLiveHook;
    var o := t.outcome.(stage := Some(Finished));
    NoHookNotLive(feature, p);
    TestEventSpoils(flaw, feature, p, t, o);
    TestEventSpoils(flaw, feature, OnTestStart(p, t), t, o);
  }

  /** From a log without the flaw: it comes in exactly when the event spoils. */
  lemma {:induction false} HandleSpoils(flaw: Flaw, feature: bool, p: Producer, e: Event)
    requires InGoodOrder(feature, p) && InTurn(feature, p, e) && IsFree(flaw, feature, p.log)
    ensures IsFree(flaw, feature, Handle(p, e).log) <==> !Spoils(flaw, feature, p, e)
  {
    hide OnSuiteStart, OnSuiteEnd, OnTestStart, OnTestFail, OnTestSkip, OnHookStart, OnHookEnd, EndOrStop, Push, IsFree;
    hide InGoodOrder, IsPending, InLiveHook, PlainIfWaiting, IgnoresHookEnd, ReportsHookStart, HookWaits, SeenAfterAll;
    match e
    case SuiteStarts(s) => SuiteEventSpoils(flaw, feature, p, s);
    case SuiteEnds(s) => SuiteEventSpoils(flaw, feature, p, s);
    case TestStarts(t) => TestEventSpoils(flaw, feature, p, t, SKIPPED);
    case TestPasses(t) =>
      TestEventSpoils(flaw, feature, p, t, t.outcome.(status := Passed, stage := Some(Finished), details := None));
    case TestRetries(t) => TestEventSpoils(flaw, feature, p, t, t.outcome.(stage := None));
    case TestFails(t) => TestFailSpoils(flaw, feature, p, t);
    case TestSkips(t) => TestEventSpoils(flaw, feature, p, t, SKIPPED);
    case TestPends(t) => TestEventSpoils(flaw, feature, p, t, SKIPPED); PendingIsStop(p, t);
    case HookStarts(h) => HookStartSpoils(flaw, feature, p, h);
    case HookEnds(h) => HookEndSpoils(flaw, feature, p, h);
    case StepEvent(m) => FreeAppend(flaw, feature, p.log, m); PushIsAppend(p, m);
    case CommandEvent(m) => FreeAppend(flaw, feature, p.log, m); PushIsAppend(p, m);
    case ApiCall(d) => FreeAppend(flaw, feature, p.log, DetailMessage(d)); PushIsAppend(p, DetailMessage(d));
  }

  lemma PushIsAppend(p: Producer, m: Message)
    ensures Push(p, m).log == p.log + [m]
  {
  }

  ghost predicate NoneSpoils(flaw: Flaw, feature: bool, p: Producer, es: seq<Event>) {
    forall k :: 0 <= k < |es| ==> !Spoils(flaw, feature, Run(p, es[..k]), es[k])
  }

  lemma NoneSpoilsSplit(flaw: Flaw, feature: bool, p: Producer, es: seq<Event>)
    requires es != []
    ensures NoneSpoils(flaw, feature, p, es) <==>
            NoneSpoils(flaw, feature, p, es[..|es| - 1]) && !Spoils(flaw, feature, Run(p, es[..|es| - 1]), es[|es| - 1])
  {
    hide Run, Spoils;
    var before := es[..|es| - 1];
    assert forall k :: 0 <= k < |before| ==> before[..k] == es[..k] && before[k] == es[k];
  }

  lemma {:induction false} RunFree(flaw: Flaw, feature: bool, p: Producer, es: seq<Event>)
    requires InGoodOrder(feature, p) && Balanced(p) && AllInTurn(feature, p, es) && IsFree(flaw, feature, p.log)
    ensures IsFree(flaw, feature, Run(p, es).log) <==> NoneSpoils(flaw, feature, p, es)
  {
    hide Handle, InGoodOrder, Balanced, InTurn, AllInTurn, IsFree, NoneSpoils, Spoils;
    if es == [] {
      assert NoneSpoils(flaw, feature, p, es) by { NothingSpoils(flaw, feature, p); }
    } else {
      var before, e := es[..|es| - 1], es[|es| - 1];
      var q := Run(p, before);
      AllInTurnSplit(feature, p, es);
      NoneSpoilsSplit(flaw, feature, p, es);
      RunFree(flaw, feature, p, before);
      RunIsOrdered(feature, p, before);
      if IsFree(flaw, feature, q.log) {
        HandleSpoils(flaw, feature, q, e);
      } else if IsFree(flaw, feature, Handle(q, e).log) {
        HandleGrows(q, e);
        FreePrefix(flaw, feature, q.log, Handle(q, e).log);
      }
    }
  }

  lemma NothingSpoils(flaw: Flaw, feature: bool, p: Producer)
    ensures NoneSpoils(flaw, feature, p, [])
  {
  }

  lemma {:induction false} RunIsFree(flaw: Flaw, plan: bool, disableMochaHooks: bool, es: seq<Event>)
    requires
      var p0 := Fresh(plan, disableMochaHooks);
      AllInTurn(HasFeature(Run(p0, es).log), p0, es)
    ensures
      var p0 := Fresh(plan, disableMochaHooks);
      var p := Run(p0, es);
      var feature := HasFeature(p.log);
      Ordered(feature, p.log) && (IsFree(flaw, feature, p.log) <==> NoneSpoils(flaw, feature, p0, es))
  {
    hide Run, HasFeature, NoneSpoils, IsPending;
    var p0 := Fresh(plan, disableMochaHooks);
    var feature := HasFeature(Run(p0, es).log);
    FreshIsBalanced(plan, disableMochaHooks);
    RunIsOrdered(feature, p0, es);
    RunFree(flaw, feature, p0, es);
  }

  /**
    For every run of events that come in turn, with or without a test plan and a feature: replaying the log the run
    produced gives every test its status and stops it before it is written exactly when no event spoils it and the
    last test is ended.
   */
  lemma {:induction false} RunStopsTestsFirstExactly(plan: bool, disableMochaHooks: bool, es: seq<Event>)
    requires
      var p0 := Fresh(plan, disableMochaHooks);
      AllInTurn(HasFeature(Run(p0, es).log), p0, es)
    ensures
      var p0 := Fresh(plan, disableMochaHooks);
      var p := Run(p0, es);
      L.AllObey(L.TestsFirst, R.Report(p.log).trace) <==>
      NoneSpoils(EarlyWrite, HasFeature(p.log), p0, es) && !TestPending(p)
  {
    hide R.Report, L.AllObey, Run, HasFeature, NoneSpoils, IsPending, AllInTurn, Ordered, IsFree;
    RunIsFree(EarlyWrite, plan, disableMochaHooks, es);
    StoppedFirstExactly(Run(Fresh(plan, disableMochaHooks), es).log);
  }

  /**
    Likewise no fixture is open when a test begins or a test or scope is written exactly when no event starts a test
    in a hook that found a live test, and no such hook is pending at the end; then every fixture is recorded on the
    test in which it was started.
   */
  lemma {:induction false} RunStopsFixturesFirstExactly(plan: bool, disableMochaHooks: bool, es: seq<Event>)
    requires
      var p0 := Fresh(plan, disableMochaHooks);
      AllInTurn(HasFeature(Run(p0, es).log), p0, es)
    ensures
      var p0 := Fresh(plan, disableMochaHooks);
      var p := Run(p0, es);
      var trace := R.Report(p.log).trace;
      && (L.AllObey(L.FixturesFirst, trace) <==>
          NoneSpoils(TestInHook, HasFeature(p.log), p0, es) && !InLiveHook(HasFeature(p.log), p.log))
      && (L.AllObey(L.FixturesFirst, trace) ==> L.OnOwnTests(trace))
  {
    hide R.Report, L.AllObey, Run, HasFeature, NoneSpoils, IsPending, AllInTurn, Ordered, IsFree, InLiveHook,
         L.OnOwnTests;
    RunIsFree(TestInHook, plan, disableMochaHooks, es);
    FixturesFirstAsRead(Run(Fresh(plan, disableMochaHooks), es).log);
  }

  /** And every fixture is stopped before its own scope is written exactly when no hook that found a live test is
      pending at the end; then each is stopped once. */
  lemma {:induction false} RunStopsInScopeExactly(plan: bool, disableMochaHooks: bool, es: seq<Event>)
    requires
      var p0 := Fresh(plan, disableMochaHooks);
      AllInTurn(HasFeature(Run(p0, es).log), p0, es)
    ensures
      var p := Run(Fresh(plan, disableMochaHooks), es);
      var r := R.Report(p.log);
      && (L.StoppedInScope(r.trace) <==> !InLiveHook(HasFeature(p.log), p.log))
      && (L.StoppedInScope(r.trace) ==> Fixtures.AllStopped(r))
  {
    hide R.Report, Run, HasFeature, NoneSpoils, AllInTurn, Ordered, IsFree, InLiveHook, L.StoppedInScope,
         Fixtures.AllStopped;
    RunIsFree(TestInHook, plan, disableMochaHooks, es);
    StoppedInScopeAsRead(Run(Fresh(plan, disableMochaHooks), es).log);
  }

  /** And every fixture is recorded on the test in which it was started exactly when no event records one elsewhere. */
  lemma {:induction false} RunRecordsOwnExactly(plan: bool, disableMochaHooks: bool, es: seq<Event>)
    requires
      var p0 := Fresh(plan, disableMochaHooks);
      AllInTurn(HasFeature(Run(p0, es).log), p0, es)
    ensures
      var p0 := Fresh(plan, disableMochaHooks);
      var p := Run(p0, es);
      L.OnOwnTests(R.Report(p.log).trace) <==> NoneSpoils(OtherTest, HasFeature(p.log), p0, es)
  {
    hide R.Report, Run, HasFeature, NoneSpoils, AllInTurn, Ordered, IsFree, L.OnOwnTests;
    RunIsFree(OtherTest, plan, disableMochaHooks, es);
    OwnTests.OwnTestsAsRead(Run(Fresh(plan, disableMochaHooks), es).log);
  }
}
