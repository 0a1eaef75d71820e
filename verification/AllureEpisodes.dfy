/** From events to runtime calls, episode by episode: what is reported inside a test or a hook reaches that test or its
    fixture, once and in order, with the outcome it was reported with. Names and outcomes are spelled out. */
module AllureEpisodes {
  import opened Wrappers
  import opened Text
  import opened AllureMessages
  import opened AllureProducer
  import R = AllureReplay
  import B = AllureHookBuffer
  import G = AllureSegments
  import A = AllureAttaches

  // ----- What an event inside a test or a hook puts into the log

  function DetailIn(d: Detail): Message {
    match d
    case Note(payload) => Other(payload)
    case FullName(fullName) => TestInfo(fullName)
  }

  function DetailsIn(ds: seq<Detail>): seq<Message> {
    seq(|ds|, i requires 0 <= i < |ds| => DetailIn(ds[i]))
  }

  predicate IsStepOrNote(m: Message) {
    m.StepStart? || m.StepStop? || m.Other?
  }

  /** Commands, steps and labels of the user, and the steps of a scenario. */
  predicate IsInner(e: Event) {
    match e
    case CommandEvent(m) => IsStepOrNote(m)
    case StepEvent(m) => IsStepOrNote(m)
    case ApiCall(_) => true
    case TestStarts(t) => t.isStep
    case TestPasses(t) => t.isStep
    case TestRetries(t) => t.isStep
    case TestFails(t) => t.isStep
    case TestSkips(t) => t.isStep
    case TestPends(t) => t.isStep
    case _ => false
  }

  /** The commands, steps and labels among them, but no full name. */
  predicate IsInHook(e: Event) {
    match e
    case CommandEvent(m) => IsStepOrNote(m)
    case StepEvent(m) => IsStepOrNote(m)
    case ApiCall(d) => d.Note?
    case _ => false
  }

  function MessagesOf(e: Event): seq<Message> {
    match e
    case CommandEvent(m) => [m]
    case StepEvent(m) => [m]
    case ApiCall(d) => [DetailIn(d)]
    case TestStarts(t) => [StepStart(t.title, t.start)] + DetailsIn(t.details)
    case TestPasses(t) => DetailsIn(t.logs) + [StepStop(Passed, t.outcome.stop, None)]
    case TestRetries(t) => DetailsIn(t.logs) + [StepStop(t.outcome.status, t.outcome.stop, t.outcome.details)]
    case TestFails(t) => DetailsIn(t.logs) + [StepStop(t.outcome.status, t.outcome.stop, t.outcome.details)]
    case TestSkips(t) => DetailsIn(t.logs) + [StepStop(Skipped, None, None)]
    case TestPends(t) => DetailsIn(t.logs) + [StepStop(Skipped, None, None)]
    case _ => []
  }

  function AllMessagesOf(es: seq<Event>): seq<Message> {
    if es == [] then [] else AllMessagesOf(es[..|es| - 1]) + MessagesOf(es[|es| - 1])
  }

  predicate AllInner(es: seq<Event>) {
    forall i :: 0 <= i < |es| ==> IsInner(es[i])
  }

  predicate AllInHook(es: seq<Event>) {
    forall i :: 0 <= i < |es| ==> IsInHook(es[i])
  }

  /** The producer with these messages added to its log. */
  function Adding(p: Producer, ms: seq<Message>): Producer {
    p.(log := p.log + ms)
  }

  lemma {:induction false} DetailsAdded(p: Producer, ds: seq<Detail>)
    ensures PushDetails(p, ds) == Adding(p, DetailsIn(ds))
  {
    if ds == [] {
      assert p.log + DetailsIn(ds) == p.log;
    } else {
      var before := ds[..|ds| - 1];
      DetailsAdded(p, before);
      assert DetailsIn(ds) == DetailsIn(before) + [DetailIn(ds[|ds| - 1])];
    }
  }

  lemma Adds()
    ensures forall p: Producer, m: Message {:trigger Push(p, m)} :: Push(p, m) == Adding(p, [m])
    ensures forall p: Producer, ds {:trigger PushDetails(p, ds)} :: PushDetails(p, ds) == Adding(p, DetailsIn(ds))
    ensures forall p: Producer, a, b {:trigger Adding(Adding(p, a), b)} :: Adding(Adding(p, a), b) == Adding(p, a + b)
  {
    forall p: Producer, ds
      ensures PushDetails(p, ds) == Adding(p, DetailsIn(ds))
    {
      DetailsAdded(p, ds);
    }
    forall p: Producer, a: seq<Message>, b: seq<Message>
      ensures Adding(Adding(p, a), b) == Adding(p, a + b)
    {
      assert p.log + a + b == p.log + (a + b);
    }
  }

  /** No message that opens or closes a test or a hook. */
  predicate AreQuiet(ms: seq<Message>) {
    forall i :: 0 <= i < |ms| ==> IsStepOrNote(ms[i]) || ms[i].TestInfo?
  }

  lemma {:induction false} QuietKeepsPending(pair: Pair, log: seq<Message>, ms: seq<Message>)
    requires AreQuiet(ms) && (pair.TestPair? || pair.HookPair?)
    ensures IsPending(pair, log + ms) <==> IsPending(pair, log)
    decreases |ms|
  {
    if ms == [] {
      assert log + ms == log;
    } else {
      var init, m := ms[..|ms| - 1], ms[|ms| - 1];
      QuietKeepsPending(pair, log, init);
      assert log + ms == (log + init) + [m];
      assert (log + ms)[..|log + ms| - 1] == log + init;
    }
  }

  lemma MessagesAreQuiet(e: Event)
    requires IsInner(e)
    ensures AreQuiet(MessagesOf(e))
  {
  }

  lemma QuietConcat(a: seq<Message>, b: seq<Message>)
    requires AreQuiet(a) && AreQuiet(b)
    ensures AreQuiet(a + b)
  {
  }

  /** What the reporter wants for such an event: commands and a step's start need something open; commands and the
      user's steps are dropped while a scenario is skipped. */
  ghost predicate IsWelcome(p: Producer, e: Event) {
    && (e.CommandEvent? || e.StepEvent? ==> !p.planSkip)
    && (e.CommandEvent? ==> TestOpen(p.log) || HookOpen(p.log)) && (e.TestStarts? ==> TestOpen(p.log))
  }

  lemma {:induction false} EventLogged(p: Producer, e: Event)
    requires IsInner(e)
    ensures Handle(p, e) == if IsWelcome(p, e) then Adding(p, MessagesOf(e)) else p
  {
    hide Push, PushDetails, Adding, DetailsIn, IsPending, TestOpen, HookOpen;
    Adds();
    PendingExactly(p.log);
    if e.ApiCall? {
      assert DetailMessage(e.detail) == DetailIn(e.detail);
    }
  }

  /** Inside a running test every such event goes to the log, in order. */
  lemma {:induction false} TestEventsLogged(p: Producer, es: seq<Event>)
    requires AllInner(es) && !p.planSkip && TestPending(p)
    ensures Run(p, es) == Adding(p, AllMessagesOf(es)) && AreQuiet(AllMessagesOf(es))
    decreases |es|
  {
    hide Handle, MessagesOf, AreQuiet, IsPending, TestOpen, HookOpen;
    if es == [] {
      assert p.log + [] == p.log;
      NothingIsQuiet();
    } else {
      var init, e := es[..|es| - 1], es[|es| - 1];
      TestEventsLogged(p, init);
      QuietKeepsPending(TestPair, p.log, AllMessagesOf(init));
      PendingExactly(Run(p, init).log);
      EventLogged(Run(p, init), e);
      MessagesAreQuiet(e);
      QuietConcat(AllMessagesOf(init), MessagesOf(e));
      assert p.log + AllMessagesOf(init) + MessagesOf(e) == p.log + (AllMessagesOf(init) + MessagesOf(e));
    }
  }

  lemma NothingIsQuiet()
    ensures AreQuiet([])
  {
  }

  lemma HookEventLogged(p: Producer, e: Event)
    requires IsInHook(e) && !p.planSkip && HookPending(p)
    ensures Handle(p, e) == Adding(p, MessagesOf(e)) && B.IsBody(MessagesOf(e))
  {
    hide IsPending;
    if e.ApiCall? {
      assert DetailMessage(e.detail) == DetailIn(e.detail);
    }
  }

  /** And so inside a hook. */
  lemma {:induction false} HookEventsLogged(p: Producer, es: seq<Event>)
    requires AllInHook(es) && !p.planSkip && HookPending(p)
    ensures Run(p, es) == Adding(p, AllMessagesOf(es)) && B.IsBody(AllMessagesOf(es))
    decreases |es|
  {
    hide Handle, MessagesOf, IsPending;
    if es == [] {
      assert p.log + [] == p.log;
    } else {
      var init, e := es[..|es| - 1], es[|es| - 1];
      HookEventsLogged(p, init);
      assert AreQuiet(AllMessagesOf(init));
      QuietKeepsPending(HookPair, p.log, AllMessagesOf(init));
      HookEventLogged(Run(p, init), e);
      assert p.log + AllMessagesOf(init) + MessagesOf(e) == p.log + (AllMessagesOf(init) + MessagesOf(e));
    }
  }

  /** A command reaches the log exactly while a test or a hook is open and no scenario is being skipped. */
  lemma CommandsNeedATestOrHook(p: Producer, m: Message)
    requires IsStepOrNote(m)
    ensures Handle(p, CommandEvent(m)) ==
            if !p.planSkip && (TestOpen(p.log) || HookOpen(p.log)) then Adding(p, [m]) else p
  {
    hide IsPending, TestOpen, HookOpen;
    PendingExactly(p.log);
  }

  // ----- Tests

  /** How a test's end event ends it: what comes before the end, and the outcome. */
  datatype Ending = Ending(logs: seq<Detail>, outcome: Outcome)

  function EndingOf(e: Event): Option<Ending> {
    match e
    case TestPasses(t) =>
      Some(Ending(t.logs, Outcome(Passed, Some(Finished), None, t.outcome.stop, t.outcome.duration)))
    case TestRetries(t) =>
      Some(Ending(t.logs, Outcome(t.outcome.status, None, t.outcome.details, t.outcome.stop, t.outcome.duration)))
    case TestFails(t) =>
      Some(Ending(t.logs,
                  Outcome(t.outcome.status, Some(Finished), t.outcome.details, t.outcome.stop, t.outcome.duration)))
    case TestSkips(t) => Some(Ending(t.logs, Outcome(Skipped, Some(Pending), None, None, None)))
    case _ => None
  }

  predicate EndsTest(e: Event) {
    EndingOf(e).Some? && !e.test.isStep
  }

  /** No suite is left that has to be started before the next test. */
  predicate SuitesStarted(p: Producer) {
    !p.plan || p.started == |p.stack|
  }

  function TestBody(t: Test, es: seq<Event>, end: Event): seq<Message>
    requires EndsTest(end)
  {
    DetailsIn(t.details) + AllMessagesOf(es) + DetailsIn(EndingOf(end).value.logs)
  }

  function TestMessages(t: Test, es: seq<Event>, end: Event): seq<Message>
    requires EndsTest(end)
  {
    [TestStart(t.title, t.start)] + TestBody(t, es, end) + [TestEnd(EndingOf(end).value.outcome)]
  }

  lemma NothingToStart(p: Producer)
    requires SuitesStarted(p)
    ensures EnsureSuitesStarted(p) == p
  {
  }

  lemma TestStartLogged(p: Producer, t: Test)
    requires !t.isStep && SuitesStarted(p)
    ensures Handle(p, TestStarts(t)) == Adding(p, [TestStart(t.title, t.start)] + DetailsIn(t.details))
  {
    hide Push, PushDetails, EnsureSuitesStarted, Adding, DetailsIn;
    NothingToStart(p);
    Adds();
  }

  /** A pass or a retry ends a test whether or not one is open; a failure or a skip brings the start if none is. */
  lemma TestEndLogged(p: Producer, end: Event)
    requires EndsTest(end) && (end.TestFails? || end.TestSkips? ==> TestPending(p))
    ensures Handle(p, end) ==
            Adding(p, DetailsIn(EndingOf(end).value.logs) + [TestEnd(EndingOf(end).value.outcome)])
  {
    hide Push, PushDetails, Adding, DetailsIn, IsPending;
    Adds();
  }

  lemma PendingAfterStart(log: seq<Message>, m: Message, ms: seq<Message>)
    requires m.TestStart? && AreQuiet(ms)
    ensures IsPending(TestPair, log + ([m] + ms))
  {
    assert log + ([m] + ms) == (log + [m]) + ms;
    assert (log + [m])[..|log|] == log;
    QuietKeepsPending(TestPair, log + [m], ms);
  }

  lemma DetailsAreQuiet(ds: seq<Detail>)
    ensures AreQuiet(DetailsIn(ds))
  {
  }

  /** A test from its start to its end, as it is logged. */
  lemma {:induction false} TestLogged(p: Producer, t: Test, es: seq<Event>, end: Event)
    requires !t.isStep && SuitesStarted(p) && !p.planSkip && AllInner(es) && EndsTest(end)
    ensures Run(p, [TestStarts(t)] + es + [end]) == Adding(p, TestMessages(t, es, end))
    ensures G.IsTestBody(TestBody(t, es, end))
  {
    hide Handle, AllMessagesOf, DetailsIn, EndingOf, AreQuiet;
    var head := [TestStart(t.title, t.start)] + DetailsIn(t.details);
    var p1 := Adding(p, head);
    RunConcat(p, [TestStarts(t)] + es, [end]);
    RunConcat(p, [TestStarts(t)], es);
    RunOne(p, TestStarts(t));
    TestStartLogged(p, t);
    DetailsAreQuiet(t.details);
    PendingAfterStart(p.log, TestStart(t.title, t.start), DetailsIn(t.details));
    TestEventsLogged(p1, es);
    var p2 := Adding(p1, AllMessagesOf(es));
    QuietKeepsPending(TestPair, p1.log, AllMessagesOf(es));
    RunOne(p2, end);
    TestEndLogged(p2, end);
    DetailsAreQuiet(EndingOf(end).value.logs);
    QuietBody(t, es, end);
    var logs, last := DetailsIn(EndingOf(end).value.logs), [TestEnd(EndingOf(end).value.outcome)];
    assert p.log + head + AllMessagesOf(es) + (logs + last) == p.log + TestMessages(t, es, end);
  }

  lemma QuietBody(t: Test, es: seq<Event>, end: Event)
    requires EndsTest(end) && AreQuiet(DetailsIn(t.details)) && AreQuiet(AllMessagesOf(es))
    requires AreQuiet(DetailsIn(EndingOf(end).value.logs))
    ensures G.IsTestBody(TestBody(t, es, end))
  {
    hide DetailsIn, AllMessagesOf;
  }

  /** A failure or a skip without a start brings its own. */
  lemma MissingStartLogged(p: Producer, end: Event)
    requires EndsTest(end) && !TestOpen(p.log) && (end.TestFails? || end.TestSkips?)
    requires end.TestFails? ==> SuitesStarted(p)
    ensures Handle(p, end) == Adding(p, TestMessages(end.test, [], end))
  {
    hide Push, PushDetails, Adding, DetailsIn, EnsureSuitesStarted, TestOpen;
    PendingExactly(p.log);
    NothingToStartIf(p);
    Adds();
    var t := end.test;
    var a, b, c := [TestStart(t.title, t.start)], DetailsIn(t.details), DetailsIn(t.logs);
    var last := [TestEnd(EndingOf(end).value.outcome)];
    assert a + b + (c + last) == a + (b + [] + c) + last;
    assert AllMessagesOf([]) == [];
  }

  lemma NothingToStartIf(p: Producer)
    ensures SuitesStarted(p) ==> EnsureSuitesStarted(p) == p
  {
  }

  /**
    A test from its start to its end, in any run and in any state without buffered hooks and open fixtures: replaying
    what was logged makes exactly the calls of that test. Its labels, commands and steps are applied to it, once each
    and in order, its full names are set, the steps left open are stopped, and it gets the outcome of its end event.
   */
  lemma {:induction false} TestReachesRuntime(p: Producer, t: Test, es: seq<Event>, end: Event, feature: bool,
                                              s: R.Replay)
    requires !t.isStep && SuitesStarted(p) && !p.planSkip && AllInner(es) && EndsTest(end)
    requires s.fixtures == [] && s.pending == []
    ensures
      var ms := TestMessages(t, es, end);
      && Run(p, [TestStarts(t)] + es + [end]).log == p.log + ms
      && G.Steps(feature, s, ms) ==
         s.(trace := s.trace + G.WritesOf(s.current)
                     + G.TestLife(s.nextTest, t.title, t.start, s.scopes, s.nextScope, TestBody(t, es, end),
                                  EndingOf(end).value.outcome),
            current := Some(s.nextTest), openSteps := 0, nextScope := s.nextScope + 1, nextTest := s.nextTest + 1)
  {
    hide Run, TestBody, EndingOf, G.Steps, G.TestLife, G.WritesOf;
    TestLogged(p, t, es, end);
    G.WholeTestCalls(feature, s, t.title, t.start, TestBody(t, es, end), EndingOf(end).value.outcome);
  }

  // ----- Hooks

  /** Before or after, from the letters of the title; without either word, from what is open. */
  ghost function KindOf(log: seq<Message>, h: Hook): HookKind {
    var title := if h.title.Some? then h.title.value else "";
    if A.Has(title, "before") then Before
    else if A.Has(title, "after") then After
    else if TestOpen(log) && !HookOpen(log) then Before else After
  }

  lemma KindIsDerived(p: Producer, h: Hook)
    ensures DeriveHookType(p, h) == KindOf(p.log, h)
  {
    hide TestOpen, HookOpen, IsPending, Mentions, Spells;
    var title := if h.title.Some? then h.title.value else "";
    MentionsExactly(title, "before");
    MentionsExactly(title, "after");
    PendingExactly(p.log);
  }

  function TitleOr(h: Hook, default: string): string {
    if h.title.Some? && h.title.value != "" then h.title.value else default
  }

  function TitleOf(h: Hook): string {
    if h.title.Some? then h.title.value else "Hook"
  }

  function PassedHook(h: Hook): Outcome {
    Outcome(Passed, None, None, h.outcome.stop, h.outcome.duration)
  }

  function BrokenHook(h: Hook): Outcome {
    Outcome(Broken, None, h.outcome.details, h.outcome.stop, h.outcome.duration)
  }

  /** The outcome of the test that stands for a failed hook. */
  function BrokenTest(h: Hook): Outcome {
    Outcome(Broken, Some(Finished), None, h.outcome.stop, h.outcome.duration)
  }

  /** Nothing keeps the reporter from logging the hook. */
  predicate IsHeard(p: Producer, h: Hook) {
    !p.planSkip && !p.disableMochaHooks && !h.cucumber && !p.scenarioActive
  }

  lemma HookStartLogged(p: Producer, h: Hook)
    requires IsHeard(p, h)
    ensures Handle(p, HookStarts(h)) == Adding(p, [HookStart(TitleOf(h), KindOf(p.log, h), h.start)])
  {
    hide KindOf, DeriveHookType;
    KindIsDerived(p, h);
  }

  /** What the end of a hook puts into the log, by what is open. */
  ghost function HookEndMessages(log: seq<Message>, h: Hook): seq<Message> {
    var start := HookStart(TitleOf(h), KindOf(log, h), h.start);
    var test := [TestStart(TitleOr(h, "Hook failure"), h.start)] + DetailsIn(h.details);
    if !h.failed then [HookEnd(PassedHook(h))]
    else if TestOpen(log) && HookOpen(log) then [HookEnd(BrokenHook(h))]
    else if TestOpen(log) then [start, HookEnd(BrokenHook(h))]
    else if HookOpen(log) then test + [HookEnd(BrokenHook(h)), TestEnd(BrokenTest(h))]
    else
      test + [HookStart(TitleOr(h, "Hook"), KindOf(log, h), h.start), HookEnd(BrokenHook(h)), TestEnd(BrokenTest(h))]
  }

  /** Nothing keeps the reporter from logging the end of the hook: of Cucumber hooks only failures are logged, and of a
      test run without hooks too. */
  ghost predicate EndIsHeard(p: Producer, h: Hook) {
    && !p.planSkip && (p.disableMochaHooks ==> h.failed)
    && (if h.cucumber then h.failed && !(p.plan && h.excluded && !TestOpen(p.log)) else !p.scenarioActive)
  }

  lemma HeardToTheEnd(p: Producer, h: Hook)
    requires IsHeard(p, h)
    ensures EndIsHeard(p, h)
  {
  }

  lemma {:induction false} HookEndLogged(p: Producer, h: Hook)
    requires EndIsHeard(p, h)
    ensures Handle(p, HookEnds(h)) == Adding(p, HookEndMessages(p.log, h))
  {
    hide Push, PushDetails, Adding, DetailsIn, IsPending, DeriveHookType, KindOf, TestOpen, HookOpen;
    KindIsDerived(p, h);
    PendingExactly(p.log);
    Adds();
    HookEndParts(h, KindOf(p.log, h));
    assert !IgnoresHookEnd(p, h) && HookOutcome(h) == if h.failed then BrokenHook(h) else PassedHook(h);
    if h.failed && TestPending(p) && !HookPending(p) {
      var start := [HookStart(TitleOf(h), KindOf(p.log, h), h.start)];
      assert start + [HookEnd(BrokenHook(h))] == [start[0], HookEnd(BrokenHook(h))];
    }
  }

  /** The same messages, one after another. */
  lemma HookEndParts(h: Hook, kind: HookKind)
    ensures
      var test, ds := [TestStart(TitleOr(h, "Hook failure"), h.start)], DetailsIn(h.details);
      var start, end, last := HookStart(TitleOr(h, "Hook"), kind, h.start), HookEnd(BrokenHook(h)),
        TestEnd(BrokenTest(h));
      && test + ds + [start] + [end] + [last] == test + ds + [start, end, last]
      && test + ds + [end] + [last] == test + ds + [end, last]
  {
    var test := [TestStart(TitleOr(h, "Hook failure"), h.start)] + DetailsIn(h.details);
    var start, end, last := HookStart(TitleOr(h, "Hook"), kind, h.start), HookEnd(BrokenHook(h)),
      TestEnd(BrokenTest(h));
    assert test + [start] + [end] + [last] == test + [start, end, last];
    assert test + [end] + [last] == test + [end, last];
  }

  lemma PendingAfterHookStart(log: seq<Message>, m: Message, ms: seq<Message>)
    requires m.HookStart? && B.IsBody(ms)
    ensures IsPending(HookPair, log + [m]) && IsPending(HookPair, log + [m] + ms)
    ensures IsPending(TestPair, log + [m] + ms) <==> IsPending(TestPair, log)
  {
    assert (log + [m])[..|log|] == log;
    assert AreQuiet(ms);
    QuietKeepsPending(HookPair, log + [m], ms);
    QuietKeepsPending(TestPair, log + [m], ms);
  }

  /** A hook that was logged, up to its end. */
  lemma {:induction false} HookLoggedUpToEnd(p: Producer, h: Hook, es: seq<Event>)
    requires IsHeard(p, h) && AllInHook(es)
    ensures
      var ms := [HookStart(TitleOf(h), KindOf(p.log, h), h.start)] + AllMessagesOf(es);
      Run(p, [HookStarts(h)] + es) == Adding(p, ms) && HookOpen(p.log + ms)
        && (TestOpen(p.log + ms) <==> TestOpen(p.log))
    ensures B.IsBody(AllMessagesOf(es))
  {
    hide Handle, AllMessagesOf, KindOf, IsPending, TestOpen, HookOpen;
    var m := HookStart(TitleOf(h), KindOf(p.log, h), h.start);
    RunConcat(p, [HookStarts(h)], es);
    RunOne(p, HookStarts(h));
    HookStartLogged(p, h);
    PendingAfterHookStart(p.log, m, []);
    HookEventsLogged(Adding(p, [m]), es);
    PendingAfterHookStart(p.log, m, AllMessagesOf(es));
    PendingExactly(p.log);
    PendingExactly(p.log + [m] + AllMessagesOf(es));
    assert p.log + [m] + AllMessagesOf(es) == p.log + ([m] + AllMessagesOf(es));
  }

  /** The hook as a block of messages: from its start to its end, everything in between included. */
  ghost function HookBlock(log: seq<Message>, h: Hook, es: seq<Event>, o: Outcome): B.Block {
    B.Block(TitleOf(h), KindOf(log, h), h.start, AllMessagesOf(es), o)
  }

  /** A hook from its start to its end, as it is logged; `end` is the hook as it is reported at its end. It does not
      fail, or fails inside a test. */
  lemma {:induction false} HookLogged(p: Producer, h: Hook, es: seq<Event>, end: Hook)
    requires IsHeard(p, h) && IsHeard(p, end) && AllInHook(es) && (end.failed ==> TestOpen(p.log))
    ensures
      var o := if end.failed then BrokenHook(end) else PassedHook(end);
      Run(p, [HookStarts(h)] + es + [HookEnds(end)]) == Adding(p, B.BlockText(HookBlock(p.log, h, es, o)))
    ensures B.IsBody(AllMessagesOf(es))
  {
    hide Handle, AllMessagesOf, KindOf, TestOpen, HookOpen;
    var o := if end.failed then BrokenHook(end) else PassedHook(end);
    var ms := [HookStart(TitleOf(h), KindOf(p.log, h), h.start)] + AllMessagesOf(es);
    RunConcat(p, [HookStarts(h)] + es, [HookEnds(end)]);
    HookLoggedUpToEnd(p, h, es);
    RunOne(Adding(p, ms), HookEnds(end));
    HookEndLogged(Adding(p, ms), end);
    assert p.log + ms + [HookEnd(o)] == p.log + B.BlockText(HookBlock(p.log, h, es, o));
  }

  /**
    A hook that finds a live test, in any run and any state without an open fixture: replaying what was logged makes
    one fixture of the kind its title spells, in the innermost scope, with the commands inside it applied to it once
    each and in order, stopped with the outcome of its end and recorded on the live test.
   */
  lemma {:induction false} LiveHookReachesRuntime(p: Producer, h: Hook, es: seq<Event>, end: Hook, feature: bool,
                                                  s: R.Replay)
    requires IsHeard(p, h) && IsHeard(p, end) && AllInHook(es) && (end.failed ==> TestOpen(p.log))
    requires s.current.Some? && s.scopes != [] && s.fixtures == [] && !A.Has(TitleOf(h), "after all")
    ensures
      var o := if end.failed then BrokenHook(end) else PassedHook(end);
      var b := HookBlock(p.log, h, es, o);
      var t := G.Steps(feature, s, B.BlockText(b));
      && Run(p, [HookStarts(h)] + es + [HookEnds(end)]).log == p.log + B.BlockText(b)
      && t == s.(trace := s.trace + B.FixtureCalls(b, s.nextFixture, R.Last(s.scopes), s.current.value),
                 nextFixture := s.nextFixture + 1, openHookSteps := t.openHookSteps, hookMeta := t.hookMeta)
  {
    hide Run, KindOf, TestOpen, AllMessagesOf, B.FixtureCalls, B.BlockText, G.Steps, Spells, AfterAll;
    var o := if end.failed then BrokenHook(end) else PassedHook(end);
    HookLogged(p, h, es, end);
    NamesAsSpelled(TitleOf(h));
    G.LiveHookCalls(feature, s, HookBlock(p.log, h, es, o));
  }

  /** A hook that finds no live test makes no call: it becomes the last block of the buffer. */
  lemma {:induction false} WaitingHookReachesBuffer(p: Producer, h: Hook, es: seq<Event>, end: Hook, feature: bool,
                                                    s: R.Replay, bs: seq<B.Block>)
    requires IsHeard(p, h) && IsHeard(p, end) && AllInHook(es) && (end.failed ==> TestOpen(p.log))
    requires s.current.None? && s.fixtures == [] && s.pending == B.Flatten(bs) && !s.capturing
    ensures
      var o := if end.failed then BrokenHook(end) else PassedHook(end);
      var b := HookBlock(p.log, h, es, o);
      && Run(p, [HookStarts(h)] + es + [HookEnds(end)]).log == p.log + B.BlockText(b)
      && G.Steps(feature, s, B.BlockText(b)) == s.(pending := B.Flatten(bs + [b]))
  {
    hide Run, KindOf, TestOpen, AllMessagesOf, B.BlockText, B.Flatten, G.Steps;
    var o := if end.failed then BrokenHook(end) else PassedHook(end);
    HookLogged(p, h, es, end);
    G.WaitingHookIsBuffered(feature, s, bs, HookBlock(p.log, h, es, o));
  }
}
