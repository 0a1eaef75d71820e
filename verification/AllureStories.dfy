/** Whole runs, from the first event to the last call of the report: every call, in order. */
module AllureStories {
  import opened Wrappers
  import opened Text
  import opened AllureMessages
  import opened AllureProducer
  import opened AllureEpisodes
  import R = AllureReplay
  import B = AllureHookBuffer
  import G = AllureSegments
  import A = AllureAttaches
  import Failures = AllureFailures
  import Guards = AllureGuards

  // ----- The end of a report

  /** The scopes that are still open, written from the innermost outwards. */
  function ScopeWrites(scopes: seq<nat>): seq<R.Call> {
    seq(|scopes|, i requires 0 <= i < |scopes| => R.WriteScope(scopes[|scopes| - 1 - i]))
  }

  lemma {:induction false} ClosesAll(s: R.Replay)
    ensures R.CloseAll(s).trace == s.trace + ScopeWrites(s.scopes)
    decreases |s.scopes|
  {
    if s.scopes == [] {
      assert s.trace + ScopeWrites(s.scopes) == s.trace;
    } else {
      var s1 := R.CloseScope(s);
      ClosesAll(s1);
      assert [R.WriteScope(R.Last(s.scopes))] + ScopeWrites(s1.scopes) == ScopeWrites(s.scopes);
      assert s.trace + [R.WriteScope(R.Last(s.scopes))] + ScopeWrites(s1.scopes) == s.trace + ScopeWrites(s.scopes);
    }
  }

  lemma {:induction false} ReplayedSteps(log: seq<Message>, n: nat)
    requires n < |log|
    ensures R.Replayed(log, n) == G.Steps(HasFeature(log), R.INIT, log[..n])
  {
    hide R.Step, HasFeature;
    if n > 0 {
      ReplayedSteps(log, n - 1);
      assert R.Front(log[..n]) == log[..n - 1] && R.Last(log[..n]) == log[n - 1];
    }
  }

  /** After the last message the test that is left is written, and then the scopes that are left. */
  lemma {:induction false} ReportDrains(log: seq<Message>)
    requires log != []
    ensures
      var feature := HasFeature(log);
      var s := R.Step(feature, true, G.Steps(feature, R.INIT, R.Front(log)), R.Last(log));
      R.Report(log).trace == s.trace + G.WritesOf(s.current) + ScopeWrites(s.scopes)
  {
    hide R.Step, HasFeature, R.WriteLastTest, G.Steps;
    ReplayedSteps(log, |log| - 1);
    R.ReplayedNext(log, |log|);
    assert log[..|log| - 1] == R.Front(log);
    var s := R.Replayed(log, |log|);
    G.WritesLast(s);
    ClosesAll(R.WriteLastTest(s));
    WritingKeepsScopes(s);
  }

  lemma WritingKeepsScopes(s: R.Replay)
    ensures R.WriteLastTest(s).scopes == s.scopes
  {
  }

  /** A log that ends with the end of its only open suite: the suite's scope, then the last test. */
  lemma {:induction false} ReportEndsSuite(ms: seq<Message>, feature: bool)
    requires feature == HasFeature(ms + [SuiteEnd])
    requires |G.Steps(feature, R.INIT, ms).scopes| == 1
    ensures
      var s := G.Steps(feature, R.INIT, ms);
      R.Report(ms + [SuiteEnd]).trace == s.trace + [R.WriteScope(s.scopes[0])] + G.WritesOf(s.current)
  {
    hide HasFeature, G.Steps;
    var log := ms + [SuiteEnd];
    assert R.Front(log) == ms && R.Last(log) == SuiteEnd;
    ReportDrains(log);
    var s := G.Steps(feature, R.INIT, ms);
    var t := R.Step(feature, true, s, SuiteEnd);
    assert t.scopes == [] && t.current.None?;
    assert t.trace == s.trace + [R.WriteScope(s.scopes[0])] + G.WritesOf(s.current);
    assert t.trace + [] + [] == t.trace;
  }

  // ----- Features

  predicate NoFeature(es: seq<Event>) {
    forall i :: 0 <= i < |es| ==> !(es[i].SuiteStarts? && es[i].suite.kind.Feature?)
  }

  lemma NoFeatureLogged(es: seq<Event>)
    requires NoFeature(es)
    ensures !HasFeature(Run(Fresh(false, false), es).log)
  {
    hide Run, HasFeature;
    Guards.RunFeatureExactly(false, false, es);
  }

  lemma InnerNoFeature(es: seq<Event>)
    requires AllInner(es) || AllInHook(es)
    ensures NoFeature(es)
  {
  }

  // ----- A suite of tests, or a feature of scenarios

  /** A test or a scenario from its start to its end, with what is reported inside. */
  datatype Episode =
    | TestEpisode(test: Test, inside: seq<Event>, end: Event)
    | ScenarioEpisode(scenario: Suite, inside: seq<Event>, ended: Suite)

  predicate IsEpisode(e: Episode) {
    AllInner(e.inside) &&
    match e
    case TestEpisode(t, _, end) => !t.isStep && EndsTest(end)
    case ScenarioEpisode(s, _, ended) => s.kind.Scenario? && ended.kind.Scenario?
  }

  predicate AreEpisodes(eps: seq<Episode>) {
    forall i :: 0 <= i < |eps| ==> IsEpisode(eps[i])
  }

  function EventsOf(e: Episode): seq<Event> {
    match e
    case TestEpisode(t, es, end) => [TestStarts(t)] + es + [end]
    case ScenarioEpisode(s, es, ended) => [SuiteStarts(s)] + es + [SuiteEnds(ended)]
  }

  function AllEventsOf(eps: seq<Episode>): seq<Event> {
    if eps == [] then [] else AllEventsOf(eps[..|eps| - 1]) + EventsOf(eps[|eps| - 1])
  }

  function TitleIn(e: Episode): string {
    if e.TestEpisode? then e.test.title else e.scenario.title
  }

  function StartIn(e: Episode): int {
    if e.TestEpisode? then e.test.start else e.scenario.start
  }

  function BodyIn(e: Episode): seq<Message>
    requires IsEpisode(e)
  {
    match e
    case TestEpisode(t, es, end) => TestBody(t, es, end)
    case ScenarioEpisode(s, es, ended) => DetailsIn(s.details) + AllMessagesOf(es) + DetailsIn(ended.details)
  }

  function OutcomeIn(e: Episode): Outcome
    requires IsEpisode(e)
  {
    if e.TestEpisode? then EndingOf(e.end).value.outcome else e.ended.outcome
  }

  function LogOf(e: Episode): seq<Message>
    requires IsEpisode(e)
  {
    [TestStart(TitleIn(e), StartIn(e))] + BodyIn(e) + [TestEnd(OutcomeIn(e))]
  }

  function AllLogOf(eps: seq<Episode>): seq<Message>
    requires AreEpisodes(eps)
  {
    if eps == [] then [] else AllLogOf(eps[..|eps| - 1]) + LogOf(eps[|eps| - 1])
  }

  /** No plan, no scenario under way. */
  predicate IsIdle(p: Producer) {
    !p.plan && p.started == 0 && !p.planSkip && !p.scenarioActive
  }

  lemma {:induction false} ScenarioLogged(p: Producer, e: Episode)
    requires IsEpisode(e) && e.ScenarioEpisode? && IsIdle(p)
    ensures Run(p, EventsOf(e)) == Adding(p, LogOf(e)) && G.IsTestBody(BodyIn(e))
  {
    hide Handle, AllMessagesOf, DetailsIn, AreQuiet, Run;
    var s, es, ended := e.scenario, e.inside, e.ended;
    RunConcat(p, [SuiteStarts(s)] + es, [SuiteEnds(ended)]);
    RunConcat(p, [SuiteStarts(s)], es);
    RunOne(p, SuiteStarts(s));
    Guards.SuiteStartsExactly(p, s);
    var head, active := [TestStart(s.title, s.start)] + DetailsIn(s.details), p.(scenarioActive := true);
    assert Guards.Waiting(p) + [TestStart(s.title, s.start)] + DetailsIn(s.details) + [] == head;
    var p1 := Adding(active, head);
    DetailsAreQuiet(s.details);
    DetailsAreQuiet(ended.details);
    PendingAfterStart(p.log, TestStart(s.title, s.start), DetailsIn(s.details));
    TestEventsLogged(p1, es);
    var p2 := Adding(p1, AllMessagesOf(es));
    RunOne(p2, SuiteEnds(ended));
    Guards.SuiteEndsExactly(p2, ended);
    assert p.log + head + AllMessagesOf(es) + (DetailsIn(ended.details) + [TestEnd(ended.outcome)]) ==
           p.log + LogOf(e);
    QuietScenario(e);
  }

  lemma QuietScenario(e: Episode)
    requires IsEpisode(e) && e.ScenarioEpisode? && AreQuiet(AllMessagesOf(e.inside))
    requires AreQuiet(DetailsIn(e.scenario.details)) && AreQuiet(DetailsIn(e.ended.details))
    ensures G.IsTestBody(BodyIn(e))
  {
    hide DetailsIn, AllMessagesOf;
  }

  lemma {:induction false} EpisodeLogged(p: Producer, e: Episode)
    requires IsEpisode(e) && IsIdle(p)
    ensures Run(p, EventsOf(e)) == Adding(p, LogOf(e)) && G.IsTestBody(BodyIn(e))
  {
    hide Run, TestBody, EndingOf;
    match e
    case TestEpisode(t, es, end) => TestLogged(p, t, es, end);
    case ScenarioEpisode(_, _, _) => ScenarioLogged(p, e);
  }

  lemma {:induction false} EpisodesLogged(p: Producer, eps: seq<Episode>)
    requires AreEpisodes(eps) && IsIdle(p)
    ensures Run(p, AllEventsOf(eps)) == Adding(p, AllLogOf(eps))
    decreases |eps|
  {
    hide Run, EventsOf, LogOf, IsEpisode;
    if eps == [] {
      RunNone(p);
      assert p.log + [] == p.log;
    } else {
      var init, e := eps[..|eps| - 1], eps[|eps| - 1];
      EpisodesLogged(p, init);
      RunConcat(p, AllEventsOf(init), EventsOf(e));
      EpisodeLogged(Adding(p, AllLogOf(init)), e);
      assert p.log + AllLogOf(init) + LogOf(e) == p.log + (AllLogOf(init) + LogOf(e));
    }
  }

  /** The calls for the `k`-th of them: its own scope inside the suite's scope 0, and all that was reported of it. */
  function LifeOf(e: Episode, k: nat): seq<R.Call>
    requires IsEpisode(e)
  {
    G.TestLife(k, TitleIn(e), StartIn(e), [0], k + 1, BodyIn(e), OutcomeIn(e))
  }

  /** One after another; each is written when the next one starts. */
  function LivesOf(eps: seq<Episode>): seq<R.Call>
    requires AreEpisodes(eps)
  {
    if eps == [] then []
    else
      var k := |eps| - 1;
      LivesOf(eps[..k]) + (if k == 0 then [] else [R.WriteTest(k - 1)]) + LifeOf(eps[k], k)
  }

  lemma {:induction false} EpisodesReplayed(feature: bool, eps: seq<Episode>)
    requires AreEpisodes(eps)
    ensures
      var n, s := |eps|, R.Step(feature, false, R.INIT, SuiteStart("", false));
      G.Steps(feature, s, AllLogOf(eps)) ==
      s.(trace := [R.StartScope(0)] + LivesOf(eps), current := if n == 0 then None else Some(n - 1),
         nextScope := n + 1, nextTest := n)
    decreases |eps|
  {
    hide G.Steps, LogOf, LifeOf, IsEpisode;
    var s := R.Step(feature, false, R.INIT, SuiteStart("", false));
    if eps == [] {
      assert [R.StartScope(0)] + [] == [R.StartScope(0)];
      NoSteps(feature, s);
    } else {
      var init, e, k := eps[..|eps| - 1], eps[|eps| - 1], |eps| - 1;
      EpisodesReplayed(feature, init);
      G.StepsConcat(feature, s, AllLogOf(init), LogOf(e));
      OneMore(feature, G.Steps(feature, s, AllLogOf(init)), e, k);
      assert [R.StartScope(0)] + LivesOf(eps) ==
             [R.StartScope(0)] + LivesOf(init) + (if k == 0 then [] else [R.WriteTest(k - 1)]) + LifeOf(e, k);
    }
  }

  lemma NoSteps(feature: bool, s: R.Replay)
    ensures G.Steps(feature, s, []) == s
  {
  }

  lemma {:induction false} OneMore(feature: bool, s: R.Replay, e: Episode, k: nat)
    requires IsEpisode(e) && s.fixtures == [] && s.pending == [] && s.scopes == [0] && s.nextTest == k
    requires s.nextScope == k + 1 && s.current == (if k == 0 then None else Some(k - 1))
    ensures G.Steps(feature, s, LogOf(e)) ==
            s.(trace := s.trace + (if k == 0 then [] else [R.WriteTest(k - 1)]) + LifeOf(e, k), current := Some(k),
               openSteps := 0, nextScope := k + 2, nextTest := k + 1)
  {
    hide G.Steps, BodyIn, OutcomeIn, G.TestLife, Run, IsEpisode, G.IsTestBody;
    EpisodeLogged(Fresh(false, false), e);
    G.WholeTestCalls(feature, s, TitleIn(e), StartIn(e), BodyIn(e), OutcomeIn(e));
  }

  /**
    A run of one suite with any tests in it, or of one feature with any scenarios: the calls, in full. The suite's
    scope is opened first and written last but for the last test; in between each test is reported with everything
    that was reported inside it, commands, steps and labels alike, once and in order.
   */
  lemma {:induction false} SuiteReachesRuntime(suite: Suite, eps: seq<Episode>, ended: Suite, disableMochaHooks: bool)
    requires AreEpisodes(eps) && !suite.kind.Scenario? && !ended.kind.Scenario?
    ensures
      var es := [SuiteStarts(suite)] + AllEventsOf(eps) + [SuiteEnds(ended)];
      R.Report(Run(Fresh(false, disableMochaHooks), es).log).trace ==
      [R.StartScope(0)] + LivesOf(eps) + [R.WriteScope(0)]
      + if eps == [] then [] else [R.WriteTest(|eps| - 1)]
  {
    hide Run, Handle, AllEventsOf, AllLogOf, G.Steps, R.Report, R.Step, LivesOf, HasFeature, AreEpisodes;
    var es, p := [SuiteStarts(suite)] + AllEventsOf(eps) + [SuiteEnds(ended)], Fresh(false, disableMochaHooks);
    SuiteLogged(p, suite, eps, ended);
    var first := SuiteStart(suite.title, suite.kind.Feature?);
    var ms := [first] + AllLogOf(eps);
    var feature := HasFeature(ms + [SuiteEnd]);
    Failures.HeadAndTail(feature, R.INIT, first, AllLogOf(eps));
    SuitesAlike(feature, first);
    EpisodesReplayed(feature, eps);
    SuiteOpened(feature);
    ReportEndsSuite(ms, feature);
    assert p.log + (ms + [SuiteEnd]) == ms + [SuiteEnd];
  }

  lemma SuitesAlike(feature: bool, m: Message)
    requires m.SuiteStart?
    ensures R.Step(feature, false, R.INIT, m) == R.Step(feature, false, R.INIT, SuiteStart("", false))
  {
  }

  lemma SuiteOpened(feature: bool)
    ensures
      R.Step(feature, false, R.INIT, SuiteStart("", false)) ==
      R.INIT.(scopes := [0], trace := [R.StartScope(0)], nextScope := 1)
  {
    var s := R.Step(feature, false, R.INIT, SuiteStart("", false));
    assert s == R.OpenScope(R.INIT);
    assert s.scopes == [0] && s.trace == [R.StartScope(0)];
  }

  lemma {:induction false} SuiteLogged(p: Producer, suite: Suite, eps: seq<Episode>, ended: Suite)
    requires IsIdle(p) && AreEpisodes(eps) && !suite.kind.Scenario? && !ended.kind.Scenario?
    ensures
      Run(p, [SuiteStarts(suite)] + AllEventsOf(eps) + [SuiteEnds(ended)]).log ==
      p.log + ([SuiteStart(suite.title, suite.kind.Feature?)] + AllLogOf(eps) + [SuiteEnd])
  {
    hide Run, Handle, AllEventsOf, AllLogOf, AreEpisodes;
    RunConcat(p, [SuiteStarts(suite)] + AllEventsOf(eps), [SuiteEnds(ended)]);
    RunConcat(p, [SuiteStarts(suite)], AllEventsOf(eps));
    RunOne(p, SuiteStarts(suite));
    Guards.SuiteStartsExactly(p, suite);
    var p1 := Run(p, [SuiteStarts(suite)]);
    EpisodesLogged(p1, eps);
    var p2 := Adding(p1, AllLogOf(eps));
    RunOne(p2, SuiteEnds(ended));
    Guards.SuiteEndsExactly(p2, ended);
    var m := [SuiteStart(suite.title, suite.kind.Feature?)];
    assert p.log + m + AllLogOf(eps) + [SuiteEnd] == p.log + (m + AllLogOf(eps) + [SuiteEnd]);
  }

  // ----- Hooks outside any suite

  /** A hook as it starts and ends, with what is reported inside it. */
  datatype HookEpisode = HookEpisode(start: Hook, inside: seq<Event>, end: Hook)

  predicate IsMochaHook(h: HookEpisode) {
    !h.start.cucumber && !h.end.cucumber && AllInHook(h.inside)
  }

  function HookEventsOf(h: HookEpisode): seq<Event> {
    [HookStarts(h.start)] + h.inside + [HookEnds(h.end)]
  }

  /** The hook as it ends well, in the given kind. */
  function PassedBlock(h: HookEpisode, kind: HookKind): B.Block {
    B.Block(TitleOf(h.start), kind, h.start.start, AllMessagesOf(h.inside), PassedHook(h.end))
  }

  lemma {:induction false} PassedHookLogged(p: Producer, h: HookEpisode, kind: HookKind)
    requires IsMochaHook(h) && !h.end.failed && IsIdle(p) && !p.disableMochaHooks && KindOf(p.log, h.start) == kind
    ensures Run(p, HookEventsOf(h)) == Adding(p, B.BlockText(PassedBlock(h, kind)))
    ensures B.IsBody(AllMessagesOf(h.inside))
  {
    hide Run, KindOf, AllMessagesOf;
    HookLogged(p, h.start, h.inside, h.end);
  }

  /** The title says before, or it says after and not before. */
  ghost predicate SaysKind(title: string, kind: HookKind) {
    if kind.Before? then A.Has(title, "before") else A.Has(title, "after") && !A.Has(title, "before")
  }

  lemma SaidKind(log: seq<Message>, h: Hook, kind: HookKind)
    requires h.title.Some? && SaysKind(h.title.value, kind)
    ensures KindOf(log, h) == kind
  {
  }

  /** A before hook outside any suite, a suite with one test or a feature with one scenario, and an after hook. */
  datatype Story = Story(before: HookEpisode, suite: Suite, test: Episode, after: HookEpisode, ended: Suite)

  ghost predicate IsStory(y: Story) {
    && IsMochaHook(y.before) && !y.before.end.failed && IsMochaHook(y.after) && !y.after.end.failed
    && IsEpisode(y.test) && y.suite.kind.Describe? && y.ended.kind.Describe?
    && y.before.start.title.Some? && SaysKind(y.before.start.title.value, Before)
    && y.after.start.title.Some? && SaysKind(y.after.start.title.value, After)
  }

  function StoryEvents(y: Story): seq<Event> {
    HookEventsOf(y.before) + [SuiteStarts(y.suite)] + EventsOf(y.test) + HookEventsOf(y.after) + [SuiteEnds(y.ended)]
  }

  function StoryMessages(y: Story): seq<Message>
    requires IsEpisode(y.test)
  {
    B.BlockText(PassedBlock(y.before, Before)) + [SuiteStart(y.suite.title, false)] + LogOf(y.test)
    + B.BlockText(PassedBlock(y.after, After))
  }

  lemma {:induction false} FiveRuns(p: Producer, a: seq<Event>, b: Event, c: seq<Event>, d: seq<Event>, e: Event)
    ensures Run(p, a + [b] + c + d + [e]) == Handle(Run(Run(Handle(Run(p, a), b), c), d), e)
  {
    hide Run, Handle;
    RunConcat(p, a + [b] + c + d, [e]);
    RunConcat(p, a + [b] + c, d);
    RunConcat(p, a + [b], c);
    RunConcat(p, a, [b]);
    RunOne(Run(p, a), b);
    RunOne(Run(p, a + [b] + c + d), e);
  }

  lemma {:induction false} StoryLogged(y: Story)
    requires IsStory(y)
    ensures Run(Fresh(false, false), StoryEvents(y)).log == StoryMessages(y) + [SuiteEnd]
    ensures
      && B.IsBody(AllMessagesOf(y.before.inside)) && B.IsBody(AllMessagesOf(y.after.inside))
      && G.IsTestBody(BodyIn(y.test))
  {
    hide Run, Handle, HookEventsOf, EventsOf, LogOf, B.BlockText, PassedBlock, IsEpisode, KindOf, SaysKind, BodyIn,
         B.IsBody;
    var p := Fresh(false, false);
    FiveRuns(p, HookEventsOf(y.before), SuiteStarts(y.suite), EventsOf(y.test), HookEventsOf(y.after),
             SuiteEnds(y.ended));
    SaidKind(p.log, y.before.start, Before);
    PassedHookLogged(p, y.before, Before);
    var a, m := B.BlockText(PassedBlock(y.before, Before)), [SuiteStart(y.suite.title, false)];
    var p1 := Adding(p, a);
    Guards.SuiteStartsExactly(p1, y.suite);
    var p2 := Handle(p1, SuiteStarts(y.suite));
    EpisodeLogged(p2, y.test);
    var p3 := Adding(p2, LogOf(y.test));
    SaidKind(p3.log, y.after.start, After);
    PassedHookLogged(p3, y.after, After);
    var p4 := Adding(p3, B.BlockText(PassedBlock(y.after, After)));
    Guards.SuiteEndsExactly(p4, y.ended);
    assert p.log + a == a;
  }

  lemma {:induction false} StoryHasNoFeature(y: Story)
    requires IsStory(y)
    ensures !HasFeature(StoryMessages(y) + [SuiteEnd])
  {
    hide Run, HasFeature, AllInner, StoryMessages, SaysKind;
    StoryLogged(y);
    InnerNoFeature(y.before.inside);
    InnerNoFeature(y.after.inside);
    InnerNoFeature(y.test.inside);
    NoFeatureLogged(StoryEvents(y));
  }

  lemma {:induction false} FourSteps(feature: bool, s: R.Replay, a: seq<Message>, m: Message, b: seq<Message>,
                                     c: seq<Message>)
    ensures G.Steps(feature, s, a + [m] + b + c) ==
            G.Steps(feature, G.Steps(feature, R.Step(feature, false, G.Steps(feature, s, a), m), b), c)
  {
    hide G.Steps, R.Step;
    G.StepsConcat(feature, s, a + [m] + b, c);
    G.StepsConcat(feature, s, a + [m], b);
    G.StepsConcat(feature, s, a, [m]);
    G.StepsOne(feature, G.Steps(feature, s, a), m);
  }

  /** The test in the suite's scope 0, with a before hook waiting: it becomes the first fixture of the test. */
  function TestWithHook(y: Story): seq<R.Call>
    requires IsEpisode(y.test)
  {
    [R.StartScope(1), R.StartTest(0, TitleIn(y.test), StartIn(y.test), [0, 1])]
    + B.FixtureCalls(PassedBlock(y.before, Before), 0, 1, 0) + G.CallsInTest(0, BodyIn(y.test))
    + A.TestEndingCalls(0, 1, B.HeightOf(BodyIn(y.test)), OutcomeIn(y.test))
  }

  lemma {:induction false} HookTakenAtStart(b: B.Block, s: R.Replay, name: string, start: int)
    requires b.kind.Before? && (A.Has(b.name, "each") || A.Has(b.name, "all")) && !A.Has(b.name, "after all")
    requires B.IsBody(b.body)
    requires s == R.INIT.(scopes := [0], trace := [R.StartScope(0)], nextScope := 1, pending := B.BlockText(b))
    ensures
      var t := R.Step(false, false, s, TestStart(name, start));
      t == s.(trace := s.trace + [R.StartScope(1), R.StartTest(0, name, start, [0, 1])] + B.FixtureCalls(b, 0, 1, 0),
              scopes := [0, 1], executables := [0], current := Some(0), pending := [], nextScope := 2, nextTest := 1,
              nextFixture := 1, openHookSteps := t.openHookSteps, hookMeta := t.hookMeta)
  {
    hide R.RunTestStart, B.FixtureCalls, B.Flatten, A.Picked, A.Left, A.Has, B.BlockText;
    B.FlattenOne(b);
    OnlyBlock(b);
    A.TestStartReplays(false, s, [b], B.NoHook, name, start);
    A.OneFixture(b, 0, 1, 0);
    NothingWaits();
    assert [0] + [1] == [0, 1] && [] + [0] == [0];
    var head := [R.StartScope(1), R.StartTest(0, name, start, [0, 1])];
    assert s.trace + [] + head + B.FixtureCalls(b, 0, 1, 0) == s.trace + head + B.FixtureCalls(b, 0, 1, 0);
  }

  lemma {:induction false} TestTakesHook(y: Story, s: R.Replay, b: B.Block)
    requires IsEpisode(y.test) && G.IsTestBody(BodyIn(y.test)) && b == PassedBlock(y.before, Before) && b.kind.Before?
    requires B.IsBody(b.body) && (A.Has(b.name, "each") || A.Has(b.name, "all")) && !A.Has(b.name, "after all")
    requires s == R.INIT.(scopes := [0], trace := [R.StartScope(0)], nextScope := 1, pending := B.BlockText(b))
    ensures
      var t := G.Steps(false, s, LogOf(y.test));
      t == s.(trace := s.trace + TestWithHook(y), current := Some(0), pending := [], nextScope := 2, nextTest := 1,
              nextFixture := 1, openHookSteps := t.openHookSteps, hookMeta := t.hookMeta)
  {
    hide G.Steps, R.Step, BodyIn, OutcomeIn, B.FixtureCalls, A.Has, PassedBlock, B.BlockText, A.TestEndingCalls,
         G.CallsInTest, G.IsTestBody, IsEpisode, B.IsBody;
    var name, start, body, o := TitleIn(y.test), StartIn(y.test), BodyIn(y.test), OutcomeIn(y.test);
    assert LogOf(y.test) == [TestStart(name, start)] + (body + [TestEnd(o)]);
    Failures.HeadAndTail(false, s, TestStart(name, start), body + [TestEnd(o)]);
    HookTakenAtStart(b, s, name, start);
    var s1 := R.Step(false, false, s, TestStart(name, start));
    G.StepsConcat(false, s1, body, [TestEnd(o)]);
    G.TestBody(false, s1, body);
    var s2 := G.Steps(false, s1, body);
    G.StepsOne(false, s2, TestEnd(o));
    Failures.PlainTestEnd(false, s2, o);
    var head, ending := [R.StartScope(1), R.StartTest(0, name, start, [0, 1])],
      A.TestEndingCalls(0, 1, B.HeightOf(body), o);
    assert R.Front([0, 1]) == [0] && R.Front([0]) == [];
    assert s.trace + head + B.FixtureCalls(b, 0, 1, 0) + G.CallsInTest(0, body) + ending == s.trace + TestWithHook(y);
  }

  lemma NothingWaits()
    ensures B.Flatten([]) + B.OpenText(B.NoHook) == []
  {
  }

  lemma OnlyBlock(b: B.Block)
    requires b.kind.Before? && (A.Has(b.name, "each") || A.Has(b.name, "all")) && !A.Has(b.name, "after all")
    ensures A.Picked([b], A.BEFORE_TEST) == [b] && A.Left([b], A.BEFORE_TEST) == []
    ensures A.NoneAfterAllHook([b])
  {
    hide A.Has;
    var ws := A.BEFORE_TEST;
    assert A.Meets(b, ws[0]) || A.Meets(b, ws[1]);
    A.PickedAlone([], b, ws);
    assert [] + [b] == [b];
  }

  /**
    A before hook and an after hook reported outside any suite, around a suite with one test: the calls, in full. The
    before hook waits and becomes a fixture of the test's own scope, with everything that came inside it; the after
    hook becomes a fixture of the suite's scope; both are recorded on the test.
   */
  lemma {:induction false} GlobalHooksReachTheTest(y: Story)
    requires IsStory(y)
    requires
      var name := y.before.start.title.value;
      (A.Has(name, "each") || A.Has(name, "all")) && !A.Has(name, "after all")
    requires !A.Has(y.after.start.title.value, "after all")
    ensures
      R.Report(Run(Fresh(false, false), StoryEvents(y)).log).trace ==
      [R.StartScope(0)] + TestWithHook(y) + B.FixtureCalls(PassedBlock(y.after, After), 1, 0, 0)
      + [R.WriteScope(0), R.WriteTest(0)]
  {
    hide Run, G.Steps, B.FixtureCalls, B.Flatten, A.Has, B.BlockText, SaysKind, LogOf, TestWithHook, R.Report,
         HasFeature, IsEpisode, BodyIn, AllMessagesOf;
    StoryLogged(y);
    StoryHasNoFeature(y);
    var before, after := PassedBlock(y.before, Before), PassedBlock(y.after, After);
    var m := SuiteStart(y.suite.title, false);
    FourSteps(false, R.INIT, B.BlockText(before), m, LogOf(y.test), B.BlockText(after));
    HookWaitsForSuite(before, m);
    var s := R.Step(false, false, G.Steps(false, R.INIT, B.BlockText(before)), m);
    TestTakesHook(y, s, before);
    var s1 := G.Steps(false, s, LogOf(y.test));
    A.NotNamedAfterAll(after.name);
    G.LiveHookCalls(false, s1, after);
    ReportEndsSuite(StoryMessages(y), false);
  }

  lemma {:induction false} HookWaitsForSuite(b: B.Block, m: Message)
    requires B.IsBody(b.body) && m.SuiteStart?
    ensures R.Step(false, false, G.Steps(false, R.INIT, B.BlockText(b)), m) ==
            R.INIT.(scopes := [0], trace := [R.StartScope(0)], nextScope := 1, pending := B.BlockText(b))
  {
    hide G.Steps, B.BlockText;
    assert B.Flatten([]) == [];
    G.WaitingHookIsBuffered(false, R.INIT, [], b);
    assert [] + [b] == [b];
    B.FlattenOne(b);
    var s := R.INIT.(pending := B.BlockText(b));
    assert R.Step(false, false, s, m) == R.OpenScope(s);
  }

  // ----- A hook that fails before the first test

  function FailingEvents(suite: Suite, h: HookEpisode, ended: Suite): seq<Event> {
    [SuiteStarts(suite)] + HookEventsOf(h) + [SuiteEnds(ended)]
  }

  function BrokenBlock(h: HookEpisode): B.Block {
    B.Block(TitleOf(h.start), Before, h.start.start, AllMessagesOf(h.inside), BrokenHook(h.end))
  }

  lemma {:induction false} FailureInSuiteLogged(suite: Suite, h: HookEpisode, ended: Suite)
    requires IsMochaHook(h) && h.end.failed && suite.kind.Describe? && ended.kind.Describe?
    ensures
      var p, s := Fresh(false, false), [SuiteStart(suite.title, false)];
      Run(p, FailingEvents(suite, h, ended)).log ==
      s + Failures.FailureMessages(s, h.start, h.inside, h.end) + [SuiteEnd]
    ensures !HasFeature(Run(Fresh(false, false), FailingEvents(suite, h, ended)).log)
  {
    hide Run, Handle, TestOpen, HookOpen, Failures.FailureMessages, HasFeature;
    var p, s := Fresh(false, false), [SuiteStart(suite.title, false)];
    RunConcat(p, [SuiteStarts(suite)] + HookEventsOf(h), [SuiteEnds(ended)]);
    RunConcat(p, [SuiteStarts(suite)], HookEventsOf(h));
    RunOne(p, SuiteStarts(suite));
    Guards.SuiteStartsExactly(p, suite);
    var p1 := Run(p, [SuiteStarts(suite)]);
    assert p1.log == [] + s == s;
    NoTestIn(suite.title);
    Failures.FailureLogged(p1, h.start, h.inside, h.end);
    var p2 := Run(p1, HookEventsOf(h));
    RunOne(p2, SuiteEnds(ended));
    Guards.SuiteEndsExactly(p2, ended);
    InnerNoFeature(h.inside);
    NoFeatureLogged(FailingEvents(suite, h, ended));
  }

  lemma NoTestIn(name: string)
    ensures !TestOpen([SuiteStart(name, false)]) && !HookOpen([SuiteStart(name, false)])
  {
  }

  /**
    A before-all or before-each hook that fails in a suite before any test has started: the calls, in full. The suite
    gets a test that stands for the failure, the hook is a fixture of that test's own scope, with the commands inside
    it, and both fixture and test are broken.
   */
  lemma {:induction false} FailingBeforeHook(suite: Suite, h: HookEpisode, ended: Suite)
    requires IsMochaHook(h) && h.end.failed && suite.kind.Describe? && ended.kind.Describe?
    requires h.start.title.Some? && A.Has(h.start.title.value, "before") && !A.Has(h.start.title.value, "after all")
    requires A.Has(h.start.title.value, "all") || A.Has(h.start.title.value, "each")
    ensures
      R.Report(Run(Fresh(false, false), FailingEvents(suite, h, ended)).log).trace ==
      [R.StartScope(0), R.StartScope(1), R.StartTest(0, TitleOr(h.end, "Hook failure"), h.end.start, [0, 1])]
      + G.CallsInTest(0, DetailsIn(h.end.details)) + B.FixtureCalls(BrokenBlock(h), 0, 1, 0)
      + A.TestEndingCalls(0, 1, 0, BrokenTest(h.end)) + [R.WriteScope(0), R.WriteTest(0)]
  {
    hide Run, FailingEvents, HasFeature, R.Report, R.Step, G.Steps, G.CallsInTest, B.FixtureCalls, A.TestEndingCalls,
         A.Has, Failures.FailureMessages, BrokenBlock, DetailsIn;
    var m := SuiteStart(suite.title, false);
    var ms := Failures.FailureMessages([m], h.start, h.inside, h.end);
    FailureInSuiteLogged(suite, h, ended);
    Failures.HeadAndTail(false, R.INIT, m, ms);
    SuitesAlike(false, m);
    SuiteOpened(false);
    FailureCalls(suite.title, h);
    ReportEndsSuite([m] + ms, false);
  }

  lemma {:induction false} FailureCalls(name: string, h: HookEpisode)
    requires IsMochaHook(h) && h.end.failed
    requires h.start.title.Some? && A.Has(h.start.title.value, "before") && !A.Has(h.start.title.value, "after all")
    requires A.Has(h.start.title.value, "all") || A.Has(h.start.title.value, "each")
    ensures
      var s := R.INIT.(scopes := [0], trace := [R.StartScope(0)], nextScope := 1);
      var t := G.Steps(false, s, Failures.FailureMessages([SuiteStart(name, false)], h.start, h.inside, h.end));
      && t.trace == s.trace
           + [R.StartScope(1), R.StartTest(0, TitleOr(h.end, "Hook failure"), h.end.start, [0, 1])]
           + G.CallsInTest(0, DetailsIn(h.end.details)) + B.FixtureCalls(BrokenBlock(h), 0, 1, 0)
           + A.TestEndingCalls(0, 1, 0, BrokenTest(h.end))
      && t.scopes == [0] && t.current == Some(0)
  {
    hide Run, TestOpen, HookOpen, Failures.FailureMessages, G.Steps, A.Has, B.FixtureCalls, A.TestEndingCalls,
         DetailsIn, G.CallsInTest, AllMessagesOf;
    var p := Adding(Fresh(false, false), [SuiteStart(name, false)]);
    assert p.log == [] + [SuiteStart(name, false)] == [SuiteStart(name, false)];
    NoTestIn(name);
    assert KindOf(p.log, h.start) == Before;
    var s := R.INIT.(scopes := [0], trace := [R.StartScope(0)], nextScope := 1);
    Failures.FailingWaitingHook(p, h.start, h.inside, h.end, s);
    assert [0] + [1] == [0, 1];
  }

  // ----- The repository's own run

  const BEFORE_EACH := "\"before each\" hook"
  const AFTER_EACH := "\"after each\" hook"
  const BEFORE_ALL := "\"before all\" hook"

  lemma Titles()
    ensures A.Has(BEFORE_EACH, "before") && A.Has(BEFORE_EACH, "each") && !A.Has(BEFORE_EACH, "after all")
    ensures A.Has(AFTER_EACH, "after") && !A.Has(AFTER_EACH, "before") && !A.Has(AFTER_EACH, "after all")
    ensures A.Has(BEFORE_ALL, "before") && A.Has(BEFORE_ALL, "all") && !A.Has(BEFORE_ALL, "after all")
  {
    assert Spells(BEFORE_EACH, "before", 1) && Spells(BEFORE_EACH, "each", 8);
    assert Spells(AFTER_EACH, "after", 1);
    assert Spells(BEFORE_ALL, "before", 1) && Spells(BEFORE_ALL, "all", 8);
    NoAfterAll(BEFORE_EACH);
    NoAfterAll(BEFORE_ALL);
    NoAfterAll(AFTER_EACH);
    NoBefore(AFTER_EACH);
  }

  /** None of the titles says after all. */
  lemma NoAfterAll(title: string)
    requires title == BEFORE_EACH || title == BEFORE_ALL || title == AFTER_EACH
    ensures !A.Has(title, "after all")
  {
    forall i: nat
      ensures !Spells(title, "after all", i)
    {
      assert "after all"[0] == 'a' && "after all"[1] == 'f' && "after all"[6] == 'a' && "after all"[7] == 'l';
      assert |title| <= 18;
    }
  }

  lemma NoBefore(title: string)
    requires title == AFTER_EACH
    ensures !A.Has(title, "before")
  {
    forall i: nat
      ensures !Spells(title, "before", i)
    {
      assert "before"[0] == 'b' && |title| == 17;
    }
  }

  const OK := Outcome(Passed, Some(Finished), None, Some(9), Some(4))

  function PlainHook(title: string, start: int): Hook {
    Hook(Some(title), start, false, false, false, [], Outcome(Passed, None, None, Some(start + 1), Some(1)))
  }

  function PlainSuite(title: string): Suite {
    Suite(Describe, title, 0, [], false, OK)
  }

  /** A global before-each hook with a command inside, a suite with a test that clicks, a global after-each hook. */
  function EachStory(): Story {
    var t := Test("logs in", 5, false, [], [], OK);
    Story(HookEpisode(PlainHook(BEFORE_EACH, 1), [CommandEvent(StepStart("GET", 1))], PlainHook(BEFORE_EACH, 1)),
          PlainSuite("SomeSuite"), TestEpisode(t, [CommandEvent(StepStart("click", 6))], TestPasses(t)),
          HookEpisode(PlainHook(AFTER_EACH, 10), [], PlainHook(AFTER_EACH, 10)), PlainSuite("SomeSuite"))
  }

  lemma OneMessage(e: Event)
    ensures AllMessagesOf([e]) == MessagesOf(e)
  {
    assert [e][..0] == [] && AllMessagesOf([e][..0]) == [];
  }

  lemma EmptyFixture(b: B.Block, f: nat, scope: nat, test: nat)
    requires b.body == []
    ensures B.FixtureCalls(b, f, scope, test) ==
            [R.StartFixture(f, scope, b.kind, b.name, b.start), R.SetFixtureStatus(f, b.outcome),
             R.StopFixture(f, b.outcome), R.AddTestFixture(test, b.name, b.kind, b.outcome.status)]
  {
  }

  lemma OpenStep(m: Message)
    requires m.StepStart?
    ensures B.HeightOf([m]) == 1
  {
    assert [m][..0] == [] && B.HeightFrom(0, []) == 0;
  }

  lemma FixtureWithStep(b: B.Block, m: Message, f: nat, scope: nat, test: nat)
    requires b.body == [m] && m.StepStart?
    ensures
      var o, stop := b.outcome, StepStop(b.outcome.status, b.outcome.stop, b.outcome.details);
      B.FixtureCalls(b, f, scope, test) ==
      [R.StartFixture(f, scope, b.kind, b.name, b.start), R.Applied(R.OnFixture(f), m),
       R.Applied(R.OnFixture(f), stop), R.SetFixtureStatus(f, o), R.StopFixture(f, o),
       R.AddTestFixture(test, b.name, b.kind, o.status)]
  {
    OpenStep(m);
  }

  /** The test of the story, message by message. */
  lemma EachTest(y: Story)
    requires y == EachStory()
    ensures IsEpisode(y.test) && BodyIn(y.test) == [StepStart("click", 6)] && OutcomeIn(y.test) == OK
  {
    var m := StepStart("click", 6);
    OneMessage(CommandEvent(m));
    assert DetailsIn([]) == [] && [] + [m] + [] == [m];
    assert IsEpisode(y.test);
    assert AllMessagesOf(y.test.inside) == [m];
    assert BodyIn(y.test) == DetailsIn([]) + AllMessagesOf([CommandEvent(m)]) + DetailsIn([]);
  }

  lemma {:induction false} EachTestCalls(y: Story)
    requires y == EachStory()
    ensures
      var before := Outcome(Passed, None, None, Some(2), Some(1));
      var stop := R.Applied(R.OnTest(0), StepStop(Passed, Some(9), None));
      TestWithHook(y) ==
      [R.StartScope(1), R.StartTest(0, "logs in", 5, [0, 1]),
       R.StartFixture(0, 1, Before, BEFORE_EACH, 1), R.Applied(R.OnFixture(0), StepStart("GET", 1)),
       R.Applied(R.OnFixture(0), StepStop(Passed, Some(2), None)), R.SetFixtureStatus(0, before),
       R.StopFixture(0, before), R.AddTestFixture(0, BEFORE_EACH, Before, Passed),
       R.Applied(R.OnTest(0), StepStart("click", 6)), stop, R.WriteScope(1), R.SetTestStatus(0, OK), R.StopTest(0, OK)]
  {
    hide B.FixtureCalls, AllMessagesOf, B.HeightFrom, BodyIn, OutcomeIn;
    EachTest(y);
    OneMessage(CommandEvent(StepStart("GET", 1)));
    FixtureWithStep(PassedBlock(y.before, Before), StepStart("GET", 1), 0, 1, 0);
    OpenStep(StepStart("click", 6));
  }

  lemma AfterCalls(y: Story)
    requires y == EachStory()
    ensures
      var after := Outcome(Passed, None, None, Some(11), Some(1));
      B.FixtureCalls(PassedBlock(y.after, After), 1, 0, 0) ==
      [R.StartFixture(1, 0, After, AFTER_EACH, 10), R.SetFixtureStatus(1, after), R.StopFixture(1, after),
       R.AddTestFixture(0, AFTER_EACH, After, Passed)]
  {
    EmptyFixture(PassedBlock(y.after, After), 1, 0, 0);
  }

  lemma EachIsStory(y: Story)
    requires y == EachStory()
    ensures IsStory(y) && y.before.start.title == Some(BEFORE_EACH) && y.after.start.title == Some(AFTER_EACH)
    ensures IsEpisode(y.test) && !A.Has(AFTER_EACH, "after all")
    ensures A.Has(BEFORE_EACH, "each") && !A.Has(BEFORE_EACH, "after all")
  {
    hide A.Has;
    Titles();
  }

  /** Its report, call by call: the waiting hook is a fixture of the test's own scope, the steps that are left open are
      stopped with the outcomes of their hook and test, the other hook is a fixture of the suite's scope. */
  lemma {:induction false} EachHooksInARun()
    ensures
      var before := Outcome(Passed, None, None, Some(2), Some(1));
      var after := Outcome(Passed, None, None, Some(11), Some(1));
      R.Report(Run(Fresh(false, false), StoryEvents(EachStory())).log).trace ==
      [R.StartScope(0), R.StartScope(1), R.StartTest(0, "logs in", 5, [0, 1]),
       R.StartFixture(0, 1, Before, BEFORE_EACH, 1), R.Applied(R.OnFixture(0), StepStart("GET", 1)),
       R.Applied(R.OnFixture(0), StepStop(Passed, Some(2), None)), R.SetFixtureStatus(0, before),
       R.StopFixture(0, before), R.AddTestFixture(0, BEFORE_EACH, Before, Passed),
       R.Applied(R.OnTest(0), StepStart("click", 6)), R.Applied(R.OnTest(0), StepStop(Passed, Some(9), None)),
       R.WriteScope(1), R.SetTestStatus(0, OK), R.StopTest(0, OK),
       R.StartFixture(1, 0, After, AFTER_EACH, 10), R.SetFixtureStatus(1, after), R.StopFixture(1, after),
       R.AddTestFixture(0, AFTER_EACH, After, Passed), R.WriteScope(0), R.WriteTest(0)]
  {
    hide *;
    var y := EachStory();
    EachIsStory(y);
    GlobalHooksReachTheTest(y);
    EachTestCalls(y);
    AfterCalls(y);
  }

  /** A before-all hook that fails. */
  function FailedHook(): Hook {
    Hook(Some(BEFORE_ALL), 1, false, false, true, [], Outcome(Failed, None, Some("no driver"), Some(3), Some(2)))
  }

  lemma {:induction false} FailedBeforeAllInARun()
    ensures
      var h, suite := HookEpisode(PlainHook(BEFORE_ALL, 1), [], FailedHook()), PlainSuite("SomeSuite");
      var broken := Outcome(Broken, None, Some("no driver"), Some(3), Some(2));
      var test := Outcome(Broken, Some(Finished), None, Some(3), Some(2));
      R.Report(Run(Fresh(false, false), FailingEvents(suite, h, suite)).log).trace ==
      [R.StartScope(0), R.StartScope(1), R.StartTest(0, BEFORE_ALL, 1, [0, 1]),
       R.StartFixture(0, 1, Before, BEFORE_ALL, 1), R.SetFixtureStatus(0, broken), R.StopFixture(0, broken),
       R.AddTestFixture(0, BEFORE_ALL, Before, Broken), R.WriteScope(1), R.SetTestStatus(0, test),
       R.StopTest(0, test), R.WriteScope(0), R.WriteTest(0)]
  {
    hide A.Has, R.Report, Run, FailingEvents, B.FixtureCalls;
    var h, suite := HookEpisode(PlainHook(BEFORE_ALL, 1), [], FailedHook()), PlainSuite("SomeSuite");
    Titles();
    FailingBeforeHook(suite, h, suite);
    EmptyFixture(BrokenBlock(h), 0, 1, 0);
    assert DetailsIn([]) == [] && G.CallsInTest(0, []) == [];
  }
}
