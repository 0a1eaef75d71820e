/** Runs with hooks outside any suite, and runs in which a hook fails: the inputs that break the rules. */
module AllureHookRuns {
  import opened Wrappers
  import opened Text
  import opened AllureMessages
  import opened AllureProducer
  import opened AllureRuns
  import opened AllureExactly
  import opened AllureEndToEnd
  import R = AllureReplay
  import L = AllureLedger
  import Fixtures = AllureFixtures
  import Scopes = AllureScopes

  // ----- Hooks outside any suite

  /** A before-each hook emitted before any suite, a suite with a passing test, and an after-each hook. */
  function GlobalHooks(before: Hook, suite: Suite, test: Test, after: Hook): seq<Event> {
    [HookStarts(before), HookEnds(before), SuiteStarts(suite), TestStarts(test), TestPasses(test), HookStarts(after),
     HookEnds(after), SuiteEnds(suite)]
  }

  predicate PlainlyNamed(h: Hook) {
    !h.cucumber && !AfterAll(HookName(h))
  }

  predicate PassingHook(h: Hook) {
    PlainlyNamed(h) && !h.failed
  }

  /** What decides whether an event is in turn, when no after-all hook has been seen. */
  ghost predicate HasReached(feature: bool, p: Producer, stack: seq<string>, test: bool, hook: bool, live: bool) {
    && !p.plan && !p.planSkip && !p.disableMochaHooks && !p.scenarioActive && p.stack == stack
    && Sum(p.log).test == test && Sum(p.log).hook == hook && BitsOf(feature, p.log).live == live
    && !BitsOf(feature, p.log).seen
  }

  lemma {:induction false} HookStands(feature: bool, p: Producer, stack: seq<string>, live: bool, h: Hook)
    requires HasReached(feature, p, stack, false, false, live) && PlainlyNamed(h)
    ensures HasReached(feature, Handle(p, HookStarts(h)), stack, false, true, live)
    ensures BitsOf(feature, Handle(p, HookStarts(h)).log).waits == !live
    ensures !h.failed ==> HasReached(feature, Handle(Handle(p, HookStarts(h)), HookEnds(h)), stack, false, false, live)
  {
    hide Push, Sum, BitsOf, DeriveHookType, AfterAll, HookName, TestPending, HookPending, InGoodOrder;
    Sums();
    Turns(feature);
  }

  lemma {:induction false} TestStands(feature: bool, p: Producer, suite: Suite, test: Test, live: bool)
    requires HasReached(feature, p, [], false, false, live) && suite.kind.Describe? && !test.isStep
    ensures HasReached(feature, Handle(p, SuiteStarts(suite)), [suite.title], false, false, false)
    ensures HasReached(feature, Handle(Handle(p, SuiteStarts(suite)), TestStarts(test)), [suite.title], true, false,
              true)
    ensures HasReached(feature, Handle(Handle(Handle(p, SuiteStarts(suite)), TestStarts(test)), TestPasses(test)),
                   [suite.title], false, false, true)
  {
    hide Push, PushDetails, Sum, BitsOf, InGoodOrder;
    Sums();
    Turns(feature);
  }

  lemma {:induction false} HookInTurn(feature: bool, p: Producer, stack: seq<string>, live: bool, h: Hook)
    requires HasReached(feature, p, stack, false, false, live) && PassingHook(h)
    requires if live then stack != [] else PlainHook(HookName(h), DeriveHookType(p, h))
    ensures InTurn(feature, p, HookStarts(h)) && InTurn(feature, Handle(p, HookStarts(h)), HookEnds(h))
  {
    hide DeriveHookType, AfterAll, PlainHook, IsPending;
    HookStands(feature, p, stack, live, h);
  }

  lemma AllInTurnAppend(feature: bool, p: Producer, es: seq<Event>, e: Event)
    requires AllInTurn(feature, p, es) && InTurn(feature, Run(p, es), e)
    ensures AllInTurn(feature, p, es + [e]) && Run(p, es + [e]) == Handle(Run(p, es), e)
  {
    hide InTurn, Handle;
    var all := es + [e];
    assert all[..|es|] == es && all[|es|] == e;
    assert forall k :: 0 <= k < |es| ==> all[..k] == es[..k] && all[k] == es[k];
  }

  lemma {:induction false} HookAppended(feature: bool, p: Producer, es: seq<Event>, stack: seq<string>, live: bool,
                                        h: Hook)
    requires AllInTurn(feature, p, es) && HasReached(feature, Run(p, es), stack, false, false, live) && PassingHook(h)
    requires if live then stack != [] else PlainHook(HookName(h), DeriveHookType(Run(p, es), h))
    ensures AllInTurn(feature, p, es + [HookStarts(h)] + [HookEnds(h)])
    ensures HasReached(feature, Run(p, es + [HookStarts(h)] + [HookEnds(h)]), stack, false, false, live)
  {
    hide InTurn, Handle, Run, HasReached, AllInTurn, PlainlyNamed, PlainHook;
    var q := Run(p, es);
    HookInTurn(feature, q, stack, live, h);
    HookStands(feature, q, stack, live, h);
    AllInTurnAppend(feature, p, es, HookStarts(h));
    AllInTurnAppend(feature, p, es + [HookStarts(h)], HookEnds(h));
  }

  lemma {:induction false} TestAppended(feature: bool, p: Producer, es: seq<Event>, suite: Suite, test: Test)
    requires AllInTurn(feature, p, es) && HasReached(feature, Run(p, es), [], false, false, false)
             && suite.kind.Describe? && !test.isStep
    ensures
      var all := es + [SuiteStarts(suite)] + [TestStarts(test)] + [TestPasses(test)];
      AllInTurn(feature, p, all) && HasReached(feature, Run(p, all), [suite.title], false, false, true)
  {
    hide InTurn, Handle, Run, HasReached, AllInTurn;
    var q := Run(p, es);
    TestStands(feature, q, suite, test, false);
    var q1 := Handle(q, SuiteStarts(suite));
    var q2 := Handle(q1, TestStarts(test));
    TestInTurn(feature, q, q1, q2, suite, test);
    AllInTurnAppend(feature, p, es, SuiteStarts(suite));
    AllInTurnAppend(feature, p, es + [SuiteStarts(suite)], TestStarts(test));
    AllInTurnAppend(feature, p, es + [SuiteStarts(suite)] + [TestStarts(test)], TestPasses(test));
  }

  lemma TestInTurn(feature: bool, q: Producer, q1: Producer, q2: Producer, suite: Suite, test: Test)
    requires HasReached(feature, q, [], false, false, false) && suite.kind.Describe? && !test.isStep
    requires HasReached(feature, q1, [suite.title], false, false, false)
             && HasReached(feature, q2, [suite.title], true, false, true)
    ensures InTurn(feature, q, SuiteStarts(suite)) && InTurn(feature, q1, TestStarts(test))
            && InTurn(feature, q2, TestPasses(test))
  {
    hide IsPending;
  }

  /** Runs with hooks outside any suite are in turn, whatever the hooks are called, as long as neither is named after
      all and the first one, which waits, is plainly named. */
  lemma {:induction false} GlobalHooksAreInTurn(feature: bool, before: Hook, suite: Suite, test: Test, after: Hook)
    requires PassingHook(before) && PassingHook(after) && suite.kind.Describe? && !test.isStep
    requires PlainHook(HookName(before), DeriveHookType(Fresh(false, false), before))
    ensures AllInTurn(feature, Fresh(false, false), GlobalHooks(before, suite, test, after))
  {
    hide InTurn, Handle, Run, HasReached, AllInTurn, PassingHook, PlainHook, DeriveHookType;
    var p := Fresh(false, false);
    FreshStands(feature);
    HookAppended(feature, p, [], [], false, before);
    var two := [] + [HookStarts(before)] + [HookEnds(before)];
    TestAppended(feature, p, two, suite, test);
    var five := two + [SuiteStarts(suite)] + [TestStarts(test)] + [TestPasses(test)];
    HookAppended(feature, p, five, [suite.title], true, after);
    var seven := five + [HookStarts(after)] + [HookEnds(after)];
    assert InTurn(feature, Run(p, seven), SuiteEnds(suite)) by { SuiteEndStands(feature, Run(p, seven), suite); }
    AllInTurnAppend(feature, p, seven, SuiteEnds(suite));
    assert seven + [SuiteEnds(suite)] == GlobalHooks(before, suite, test, after);
  }

  lemma SuiteEndStands(feature: bool, q: Producer, suite: Suite)
    requires HasReached(feature, q, [suite.title], false, false, true) && suite.kind.Describe?
    ensures InTurn(feature, q, SuiteEnds(suite))
  {
    hide IsPending;
  }

  lemma FreshStands(feature: bool)
    ensures AllInTurn(feature, Fresh(false, false), []) && Run(Fresh(false, false), []) == Fresh(false, false)
    ensures HasReached(feature, Fresh(false, false), [], false, false, false)
  {
  }

  // ----- A failing hook between tests

  /** A hook that fails after a test has passed, such as an "after each" hook. */
  function FailedAfterTest(suite: Suite, test: Test, hook: Hook): seq<Event> {
    [SuiteStarts(suite), TestStarts(test), TestPasses(test), HookStarts(hook), HookEnds(hook), SuiteEnds(suite)]
  }

  /** The failing end of a live hook: the reporter starts a test for the failure, which is live when the hook ends. */
  lemma {:induction false} FailureStands(feature: bool, p: Producer, stack: seq<string>, h: Hook)
    requires HasReached(feature, p, stack, false, true, true) && !BitsOf(feature, p.log).waits && PlainlyNamed(h)
             && h.failed
    ensures InTurn(feature, p, HookEnds(h)) && HasReached(feature, Handle(p, HookEnds(h)), stack, false, false, true)
    ensures Spoils(TestInHook, feature, p, HookEnds(h)) && Spoils(OtherTest, feature, p, HookEnds(h))
  {
    hide Push, PushDetails, DeriveHookType, AfterAll, HasLiveTest, HookWaits, SeenAfterAll, IsPending;
    hide InGoodOrder, Alternates, Balance, Scopes.NeverBelow, HookOutcome, NextBits, TestSinceHook;
    Sums();
    Turns(feature);
    FailedBits(feature, BitsOf(feature, p.log), h);
  }

  lemma FailedBits(feature: bool, b: Bits, h: Hook)
    ensures
      var o := HookOutcome(h);
      var started := NextBits(feature, b, TestStart(OrElse(h.title, "Hook failure"), h.start));
      var ended := NextBits(feature, NextBits(feature, started, HookEnd(o)), BrokenTestEnd(h.outcome));
      !b.waits && !b.seen ==> ended.live && !ended.seen
  {
  }

  lemma SpoiledBy(flaw: Flaw, feature: bool, p: Producer, es: seq<Event>, k: nat)
    requires k < |es| && Spoils(flaw, feature, Run(p, es[..k]), es[k])
    ensures !NoneSpoils(flaw, feature, p, es)
  {
  }

  lemma {:induction false} FailedAfterTestRuns(feature: bool, suite: Suite, test: Test, hook: Hook)
    requires suite.kind.Describe? && !test.isStep && PlainlyNamed(hook) && hook.failed
    ensures
      var p0, es := Fresh(false, false), FailedAfterTest(suite, test, hook);
      && AllInTurn(feature, p0, es) && !HookPending(Run(p0, es))
      && !NoneSpoils(TestInHook, feature, p0, es) && !NoneSpoils(OtherTest, feature, p0, es)
  {
    hide InTurn, Handle, Run, HasReached, AllInTurn, PlainlyNamed, Spoils, NoneSpoils;
    var p := Fresh(false, false);
    FreshStands(feature);
    TestAppended(feature, p, [], suite, test);
    var three := [] + [SuiteStarts(suite)] + [TestStarts(test)] + [TestPasses(test)];
    var q := Run(p, three);
    HookStands(feature, q, [suite.title], true, hook);
    assert InTurn(feature, q, HookStarts(hook)) by { HookStartsInTurn(feature, q, suite.title, hook); }
    AllInTurnAppend(feature, p, three, HookStarts(hook));
    var four := three + [HookStarts(hook)];
    FailureStands(feature, Run(p, four), [suite.title], hook);
    AllInTurnAppend(feature, p, four, HookEnds(hook));
    var five := four + [HookEnds(hook)];
    assert InTurn(feature, Run(p, five), SuiteEnds(suite)) by { SuiteEndStands(feature, Run(p, five), suite); }
    AllInTurnAppend(feature, p, five, SuiteEnds(suite));
    var es := five + [SuiteEnds(suite)];
    assert es == FailedAfterTest(suite, test, hook);
    assert es[..4] == four && es[4] == HookEnds(hook);
    SpoiledBy(TestInHook, feature, p, es, 4);
    SpoiledBy(OtherTest, feature, p, es, 4);
    SuiteEndLeaves(feature, Run(p, five), suite);
  }

  lemma HookStartsInTurn(feature: bool, p: Producer, title: string, h: Hook)
    requires HasReached(feature, p, [title], false, false, true) && PlainlyNamed(h)
    ensures InTurn(feature, p, HookStarts(h))
  {
    hide DeriveHookType, AfterAll, PlainHook, IsPending;
  }

  lemma SuiteEndLeaves(feature: bool, p: Producer, suite: Suite)
    requires HasReached(feature, p, [suite.title], false, false, true) && suite.kind.Describe?
    ensures !HookPending(Handle(p, SuiteEnds(suite)))
  {
    hide Push, IsPending, Alternates, Balance, Scopes.NeverBelow;
    Sums();
  }

  /**
    For every such run: the hook's fixture is open when the next test begins, and is recorded on that test instead of
    the one it was started in; yet it is stopped once, before its own scope is written.
   */
  lemma {:induction false} FailedHookIsRecordedElsewhere(suite: Suite, test: Test, hook: Hook)
    requires suite.kind.Describe? && !test.isStep && PlainlyNamed(hook) && hook.failed
    ensures
      var r := R.Report(Run(Fresh(false, false), FailedAfterTest(suite, test, hook)).log);
      && !L.AllObey(L.FixturesFirst, r.trace) && !L.OnOwnTests(r.trace)
      && L.StoppedInScope(r.trace) && Fixtures.AllStopped(r)
  {
    hide R.Report, L.AllObey, L.OnOwnTests, L.StoppedInScope, Fixtures.AllStopped, Run, HasFeature, NoneSpoils,
         AllInTurn;
    hide HookWaits, IsPending, PlainlyNamed;
    var es := FailedAfterTest(suite, test, hook);
    FailedAfterTestRuns(HasFeature(Run(Fresh(false, false), es).log), suite, test, hook);
    RunStopsFixturesFirstExactly(false, false, es);
    RunRecordsOwnExactly(false, false, es);
    RunStopsInScopeExactly(false, false, es);
  }

  // ----- The failing family

  /** A suite whose only hook fails: the reporter starts a test for the failure inside the pending hook. */
  function FailedHookEvents(suite: Suite, hook: Hook): seq<Event> {
    [SuiteStarts(suite), HookStarts(hook), HookEnds(hook), SuiteEnds(suite)]
  }

  function FailedHookLog(suite: Suite, title: string, hook: Hook): seq<Message> {
    [SuiteStart(suite.title, false), HookStart(title, After, hook.start), TestStart(title, hook.start),
     HookEnd(HookOutcome(hook)), BrokenTestEnd(hook.outcome), SuiteEnd]
  }

  lemma AfterAllMentionsAfter(name: string)
    requires AfterAll(name)
    ensures Mentions(name, "after")
  {
    var i :| 0 <= i <= |name| && StandsAt(name, "after all", i);
    assert name[i..i + 9][..5] == name[i..i + 5];
    assert Lower(name[i..i + 9])[..5] == Lower(name[i..i + 5]);
    assert "after all"[..5] == "after";
    assert StandsAt(name, "after", i);
  }

  lemma FailedHookRun(suite: Suite, title: string, hook: Hook)
    requires suite.kind.Describe? && hook.failed && !hook.cucumber && hook.title == Some(title) && hook.details == []
    requires AfterAll(title) && !Mentions(title, "before") && title != ""
    ensures Run(Fresh(false, false), FailedHookEvents(suite, hook)).log == FailedHookLog(suite, title, hook)
  {
    hide Mentions, Handle;
    var es := FailedHookEvents(suite, hook);
    var p0 := Fresh(false, false);
    assert es == [es[0]] + [es[1]] + [es[2]] + [es[3]];
    RunFour(p0, es[0], es[1], es[2], es[3]);
    var p1 := Handle(p0, es[0]);
    FailedHookSteps(suite, title, hook, p1);
  }

  lemma RunFour(p: Producer, a: Event, b: Event, c: Event, d: Event)
    ensures Run(p, [a] + [b] + [c] + [d]) == Handle(Handle(Handle(Handle(p, a), b), c), d)
  {
    hide Handle;
    var es := [a] + [b] + [c] + [d];
    assert es[..3] == [a] + [b] + [c] && es[..3][..2] == [a] + [b] && es[..3][..2][..1] == [a] && [a][..0] == [];
    assert Run(p, []) == p;
    assert Run(p, [a]) == Handle(p, a);
    assert Run(p, es[..3][..2]) == Handle(Handle(p, a), b);
  }

  lemma FailedHookSteps(suite: Suite, title: string, hook: Hook, p1: Producer)
    requires suite.kind.Describe? && hook.failed && !hook.cucumber && hook.title == Some(title) && hook.details == []
    requires AfterAll(title) && !Mentions(title, "before") && title != ""
    requires p1 == Handle(Fresh(false, false), SuiteStarts(suite))
    ensures Handle(Handle(Handle(p1, HookStarts(hook)), HookEnds(hook)), SuiteEnds(suite)).log ==
            FailedHookLog(suite, title, hook)
  {
    hide Mentions, IsPending;
    AfterAllMentionsAfter(title);
    assert p1.log == [SuiteStart(suite.title, false)];
    var p2 := Handle(p1, HookStarts(hook));
    FailedHookBits(p1.log, HookStart(title, After, hook.start));
    assert p2.log == [SuiteStart(suite.title, false), HookStart(title, After, hook.start)];
    var p3 := Handle(p2, HookEnds(hook));
    assert p3.log ==
           p2.log + [TestStart(title, hook.start)] + [HookEnd(HookOutcome(hook))] + [BrokenTestEnd(hook.outcome)];
  }

  lemma FailedHookBits(log: seq<Message>, m: Message)
    requires |log| == 1 && log[0].SuiteStart? && m.HookStart?
    ensures !IsPending(TestPair, log + [m]) && IsPending(HookPair, log + [m])
  {
    var all := log + [m];
    assert all[|all| - 1] == m && all[..|all| - 1] == log;
    assert log[..|log| - 1] == [] && log[|log| - 1] == log[0];
    assert !IsPending(TestPair, log);
  }

  /**
    The property fails for a whole family: the reporter's own log of a plainly named "after all" hook that fails with
    no test pending writes the test that stands for the failure before giving it its status.
   */
  lemma FailedAfterAllHookIsWrittenEarly(suite: Suite, title: string, hook: Hook)
    requires suite.kind.Describe? && hook.failed && !hook.cucumber && hook.title == Some(title) && hook.details == []
    requires AfterAll(title) && PlainHook(title, After) && !Mentions(title, "before") && title != ""
    ensures
      var log := Run(Fresh(false, false), FailedHookEvents(suite, hook)).log;
      Ordered(false, log) && !L.AllObey(L.TestsFirst, R.Report(log).trace)
  {
    hide R.Report, L.AllObey, Run, Mentions, StandsAt;
    FailedHookRun(suite, title, hook);
    var log := FailedHookLog(suite, title, hook);
    FailedHookOrdered(suite, title, hook);
    FailedHookFeature(suite, title, hook);
    assert IsFlaw(EarlyWrite, false, log[..3], log[3]);
    StoppedFirstExactly(log);
  }

  lemma FailedHookFeature(suite: Suite, title: string, hook: Hook)
    ensures !HasFeature(FailedHookLog(suite, title, hook))
  {
    var log := FailedHookLog(suite, title, hook);
    NoFeature(log);
  }

  lemma {:induction false} NoFeature(log: seq<Message>)
    requires forall k :: 0 <= k < |log| ==> log[k].SuiteStart? ==> !log[k].feature
    ensures !HasFeature(log)
  {
    if log != [] {
      NoFeature(log[..|log| - 1]);
    }
  }

  /** One more message of a log, in turn: its order, its summary and what is read off it. */
  lemma {:induction false} NextInTurn(log: seq<Message>, k: nat)
    requires k < |log| && InGoodOrder(false, Fresh(false, false).(log := log[..k]))
    requires TakesTurn(false, Sum(log[..k]), BitsOf(false, log[..k]), log[k])
    ensures InGoodOrder(false, Fresh(false, false).(log := log[..k + 1]))
    ensures Sum(log[..k + 1]) == Next(Sum(log[..k]), log[k])
            && BitsOf(false, log[..k + 1]) == NextBits(false, BitsOf(false, log[..k]), log[k])
  {
    hide InGoodOrder, TakesTurn, Sum, BitsOf, Next, NextBits;
    var p := Fresh(false, false).(log := log[..k]);
    assert log[..k + 1] == log[..k] + [log[k]];
    PushInTurn(false, p, log[k]);
    SumAppend(log[..k], log[k]);
    BitsAppend(false, log[..k], log[k]);
  }

  lemma NothingRead(log: seq<Message>)
    requires log == []
    ensures InGoodOrder(false, Fresh(false, false).(log := log))
    ensures Sum(log) == Summary(false, false, true, true, 0, true) && BitsOf(false, log) == Bits(false, false, false)
  {
    FreshIsBalanced(false, false);
  }

  /** The messages of the failing run, one by one, and what the exact condition reads off them. */
  lemma {:induction false} FailedHookOrdered(suite: Suite, title: string, hook: Hook)
    requires AfterAll(title) && PlainHook(title, After)
    ensures
      var log := FailedHookLog(suite, title, hook);
      Ordered(false, log) && !IsPending(TestPair, log) && IsFlaw(EarlyWrite, false, log[..3], log[3])
  {
    hide PlainHook, AfterAll, InGoodOrder, Sum, BitsOf;
    var log := FailedHookLog(suite, title, hook);
    NothingRead(log[..0]);
    NextInTurn(log, 0);
    NextInTurn(log, 1);
    NextInTurn(log, 2);
    ReadEarly(log[..3], log[3]);
    NextInTurn(log, 3);
    NextInTurn(log, 4);
    NextInTurn(log, 5);
    assert log[..6] == log;
    ReadOrdered(log);
  }

  lemma ReadEarly(before: seq<Message>, m: Message)
    requires m.HookEnd? && Sum(before).test && BitsOf(false, before).waits && BitsOf(false, before).seen
    ensures IsFlaw(EarlyWrite, false, before, m)
  {
  }

  lemma ReadOrdered(log: seq<Message>)
    requires InGoodOrder(false, Fresh(false, false).(log := log)) && !Sum(log).test
    ensures Ordered(false, log) && !IsPending(TestPair, log)
  {
  }

  const MOCHA_AFTER_ALL := "\"after all\" hook"

  lemma FirstTwoLetters(s: string, word: string, i: nat)
    requires StandsAt(s, word, i) && |word| >= 2
    ensures i + 1 < |s| && LowerChar(s[i]) == word[0] && LowerChar(s[i + 1]) == word[1]
  {
    assert Lower(s[i..i + |word|])[0] == word[0] && Lower(s[i..i + |word|])[1] == word[1];
  }

  /** The name Mocha gives the hook is one of the family. */
  lemma MochaName()
    ensures AfterAll(MOCHA_AFTER_ALL) && PlainHook(MOCHA_AFTER_ALL, After) && !Mentions(MOCHA_AFTER_ALL, "before")
  {
    var name := MOCHA_AFTER_ALL;
    assert name[1..1 + 9] == "after all" && Lower(name[1..1 + 9]) == "after all";
    assert StandsAt(name, "after all", 1);
    AfterAllMentionsAll(name);
    forall i | 0 <= i <= |name|
      ensures !StandsAt(name, "each", i) && !StandsAt(name, "before", i)
    {
      if StandsAt(name, "each", i) {
        FirstTwoLetters(name, "each", i);
      }
      if StandsAt(name, "before", i) {
        FirstTwoLetters(name, "before", i);
      }
    }
  }

  /** One input for which it fails: a failing "after all" hook as Mocha names it. */
  lemma MochaAfterAllFailure()
    ensures
      var o := Outcome(Failed, None, None, Some(2), Some(1));
      var suite := Suite(Describe, "S", 0, [], false, o);
      var hook := Hook(Some(MOCHA_AFTER_ALL), 1, false, false, true, [], o);
      !L.AllObey(L.TestsFirst, R.Report(Run(Fresh(false, false), FailedHookEvents(suite, hook)).log).trace)
  {
    var o := Outcome(Failed, None, None, Some(2), Some(1));
    var suite := Suite(Describe, "S", 0, [], false, o);
    var hook := Hook(Some(MOCHA_AFTER_ALL), 1, false, false, true, [], o);
    MochaName();
    FailedAfterAllHookIsWrittenEarly(suite, MOCHA_AFTER_ALL, hook);
  }
}
