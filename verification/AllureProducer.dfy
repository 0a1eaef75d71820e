/**
  What the reporter appends to the log of one worker for each framework event, as functions on values.
  Labels, history ids, parameters, attachments and full names are inputs: each event brings the detail messages
  it causes. Whether a test is a Cucumber step and whether a test plan excludes a scenario are inputs too.
 */
module AllureProducer {
  import opened Wrappers
  import opened Text
  import opened AllureMessages

  datatype SuiteKind = Feature | Scenario | Describe

  /** What accompanies a test start or end: labels and attachments, or the full name. */
  datatype Detail = Note(payload: string) | FullName(fullName: string)

  datatype Suite = Suite(kind: SuiteKind, title: string, start: int, details: seq<Detail>, excluded: bool,
                         outcome: Outcome)
  datatype Test = Test(title: string, start: int, isStep: bool, details: seq<Detail>, logs: seq<Detail>,
                       outcome: Outcome)
  datatype Hook = Hook(title: Option<string>, start: int, cucumber: bool, excluded: bool, failed: bool,
                       details: seq<Detail>, outcome: Outcome)

  datatype Event =
    | SuiteStarts(suite: Suite)
    | SuiteEnds(suite: Suite)
    | TestStarts(test: Test)
    | TestPasses(test: Test)
    | TestRetries(test: Test)
    | TestFails(test: Test)
    | TestSkips(test: Test)
    | TestPends(test: Test)
    | HookStarts(hook: Hook)
    | HookEnds(hook: Hook)
    | StepEvent(step: Message)
    | CommandEvent(step: Message)
    | ApiCall(detail: Detail)

  /** The reporter's fields for its worker; `plan` and `disableMochaHooks` are fixed at construction. */
  datatype Producer = Producer(plan: bool, disableMochaHooks: bool, stack: seq<string>, started: int,
                               planSkip: bool, scenarioActive: bool, log: seq<Message>)

  function Fresh(plan: bool, disableMochaHooks: bool): Producer {
    Producer(plan, disableMochaHooks, [], 0, false, false, [])
  }

  function Push(p: Producer, m: Message): Producer {
    p.(log := p.log + [m])
  }

  function DetailMessage(d: Detail): Message {
    match d
    case Note(payload) => Other(payload)
    case FullName(fullName) => TestInfo(fullName)
  }

  function PushDetails(p: Producer, ds: seq<Detail>): Producer {
    if ds == [] then p else Push(PushDetails(p, ds[..|ds| - 1]), DetailMessage(ds[|ds| - 1]))
  }

  predicate TestPending(p: Producer) {
    IsPending(TestPair, p.log)
  }

  predicate HookPending(p: Producer) {
    IsPending(HookPair, p.log)
  }

  const SKIPPED := Outcome(Skipped, Some(Pending), None, None, None)

  // ----- Suites

  /** The name at a stack position; below the stack the source reads an undefined name. */
  function NameAt(stack: seq<string>, i: int): string {
    if 0 <= i < |stack| then stack[i] else "undefined"
  }

  /** Starts the suites of the stack from position `from` on. */
  function StartSuites(p: Producer, from: int): Producer
    decreases |p.stack| - from
  {
    if from >= |p.stack| then p else StartSuites(Push(p, SuiteStart(NameAt(p.stack, from), false)), from + 1)
  }

  function EnsureSuitesStarted(p: Producer): Producer {
    if !p.plan then p else StartSuites(p, p.started).(started := |p.stack|)
  }

  function OnSuiteStart(p: Producer, s: Suite): Producer {
    match s.kind
    case Feature =>
      Push(p.(scenarioActive := false, stack := p.stack + [s.title]), SuiteStart(s.title, true))
    case Describe =>
      Push(p.(stack := p.stack + [s.title]), SuiteStart(s.title, false))
    case Scenario =>
      // The labels of a scenario the plan excludes are pushed between its start and its end.
      var p1 := EnsureSuitesStarted(p.(scenarioActive := true));
      var p2 := PushDetails(Push(p1, TestStart(s.title, s.start)), s.details);
      if p.plan && s.excluded then Push(p2.(planSkip := true), TestEnd(SKIPPED)) else p2
  }

  function EndPlannedSuite(p: Producer): Producer {
    var p1 := if p.started >= |p.stack| then Push(p, SuiteEnd).(started := p.started - 1) else p;
    if p1.stack == [] then p1 else Push(p1, SuiteEnd).(stack := p1.stack[..|p1.stack| - 1])
  }

  function OnSuiteEnd(p: Producer, s: Suite): Producer {
    if s.kind.Scenario? then
      if p.planSkip then p.(planSkip := false, scenarioActive := false)
      else Push(PushDetails(p.(scenarioActive := false), s.details), TestEnd(s.outcome))
    else if p.plan then EndPlannedSuite(p)
    else
      var p1 := Push(p, SuiteEnd);
      if p1.stack == [] then p1 else p1.(stack := p1.stack[..|p1.stack| - 1])
  }

  // ----- Tests

  function StepStarts(p: Producer, t: Test): Producer {
    if !TestPending(p) then p else PushDetails(Push(p, StepStart(t.title, t.start)), t.details)
  }

  function StepEnds(p: Producer, t: Test, o: Outcome): Producer {
    Push(PushDetails(p, t.logs), StepStop(o.status, o.stop, o.details))
  }

  function OnTestStart(p: Producer, t: Test): Producer {
    if t.isStep then StepStarts(p, t)
    else PushDetails(Push(EnsureSuitesStarted(p), TestStart(t.title, t.start)), t.details)
  }

  function EndTest(p: Producer, t: Test, o: Outcome): Producer {
    Push(PushDetails(p, t.logs), TestEnd(o))
  }

  function EndOrStop(p: Producer, t: Test, o: Outcome): Producer {
    if t.isStep then StepEnds(p, t, o) else EndTest(p, t, o)
  }

  function OnTestPass(p: Producer, t: Test): Producer {
    EndOrStop(p, t, t.outcome.(status := Passed, stage := Some(Finished), details := None))
  }

  function OnTestRetry(p: Producer, t: Test): Producer {
    EndOrStop(p, t, t.outcome.(stage := None))
  }

  function OnTestFail(p: Producer, t: Test): Producer {
    var p1 := if t.isStep || TestPending(p) then p else OnTestStart(p, t);
    EndOrStop(p1, t, t.outcome.(stage := Some(Finished)))
  }

  function OnTestSkip(p: Producer, t: Test): Producer {
    var p1 := if t.isStep || TestPending(p) then p else PushDetails(Push(p, TestStart(t.title, t.start)), t.details);
    EndOrStop(p1, t, SKIPPED)
  }

  function OnTestPending(p: Producer, t: Test): Producer {
    if t.isStep then StepEnds(p, t, SKIPPED) else p
  }

  // ----- Hooks

  function OrElse(title: Option<string>, default: string): string {
    if title.Some? && title.value != "" then title.value else default
  }

  function HookName(h: Hook): string {
    if h.title.Some? then h.title.value else "Hook"
  }

  function DeriveHookType(p: Producer, h: Hook): HookKind {
    var title := if h.title.Some? then h.title.value else "";
    if Mentions(title, "before") then Before
    else if Mentions(title, "after") then After
    else if TestPending(p) && !HookPending(p) then Before else After
  }

  function OnHookStart(p: Producer, h: Hook): Producer {
    if p.planSkip || p.disableMochaHooks then p
    else if h.cucumber then
      if DeriveHookType(p, h).Before? && p.plan && h.excluded then p.(planSkip := true) else p
    else if p.scenarioActive then p
    else Push(p, HookStart(HookName(h), DeriveHookType(p, h), h.start))
  }

  /** The guards at the top of `onHookEnd`. */
  predicate IgnoresHookEnd(p: Producer, h: Hook) {
    || p.planSkip
    || (p.disableMochaHooks && !h.failed)
    || (p.scenarioActive && !h.cucumber)
    || (h.cucumber && !h.failed)
    || (h.cucumber && p.plan && !TestPending(p) && h.excluded)
  }

  function BrokenTestEnd(o: Outcome): Message {
    TestEnd(Outcome(Broken, Some(Finished), None, o.stop, o.duration))
  }

  function HookOutcome(h: Hook): Outcome {
    if h.failed then h.outcome.(status := Broken, stage := None)
    else h.outcome.(status := Passed, stage := None, details := None)
  }

  function OnHookEnd(p: Producer, h: Hook): Producer {
    if IgnoresHookEnd(p, h) then p
    else
      var kind, hadTest, hadHook := DeriveHookType(p, h), TestPending(p), HookPending(p);
      var testStart := TestStart(OrElse(h.title, "Hook failure"), h.start);
      if h.failed && !hadTest && !hadHook then
        var p1 := PushDetails(Push(p, testStart), h.details);
        var p2 := Push(p1, HookStart(OrElse(h.title, "Hook"), kind, h.start));
        Push(Push(p2, HookEnd(HookOutcome(h))), BrokenTestEnd(h.outcome))
      else if h.failed && !hadTest then
        Push(Push(PushDetails(Push(p, testStart), h.details), HookEnd(HookOutcome(h))), BrokenTestEnd(h.outcome))
      else if h.failed && !hadHook then
        Push(Push(p, HookStart(HookName(h), kind, h.start)), HookEnd(HookOutcome(h)))
      else Push(p, HookEnd(HookOutcome(h)))
  }

  // ----- Steps and labels

  /** Steps and runtime messages of the user are dropped while a scenario is skipped by the plan. */
  function OnStep(p: Producer, m: Message): Producer {
    if p.planSkip || !IsRuntime(m) then p else Push(p, m)
  }

  /** WebDriver commands are reported only inside a test or a hook. */
  function OnCommand(p: Producer, m: Message): Producer {
    if p.planSkip || !IsRuntime(m) || !(TestPending(p) || HookPending(p)) then p else Push(p, m)
  }

  function Handle(p: Producer, e: Event): Producer {
    match e
    case SuiteStarts(s) => OnSuiteStart(p, s)
    case SuiteEnds(s) => OnSuiteEnd(p, s)
    case TestStarts(t) => OnTestStart(p, t)
    case TestPasses(t) => OnTestPass(p, t)
    case TestRetries(t) => OnTestRetry(p, t)
    case TestFails(t) => OnTestFail(p, t)
    case TestSkips(t) => OnTestSkip(p, t)
    case TestPends(t) => OnTestPending(p, t)
    case HookStarts(h) => OnHookStart(p, h)
    case HookEnds(h) => OnHookEnd(p, h)
    case StepEvent(m) => OnStep(p, m)
    case CommandEvent(m) => OnCommand(p, m)
    case ApiCall(d) => Push(p, DetailMessage(d))
  }

  function Run(p: Producer, es: seq<Event>): Producer {
    if es == [] then p else Handle(Run(p, es[..|es| - 1]), es[|es| - 1])
  }

  lemma {:induction false} RunConcat(p: Producer, a: seq<Event>, b: seq<Event>)
    ensures Run(p, a + b) == Run(Run(p, a), b)
    decreases |b|
  {
    hide Handle;
    if b == [] {
      assert a + b == a;
    } else {
      assert (a + b)[..|a + b| - 1] == a + b[..|b| - 1];
      RunConcat(p, a, b[..|b| - 1]);
    }
  }

  lemma RunNone(p: Producer)
    ensures Run(p, []) == p
  {
  }

  lemma RunOne(p: Producer, e: Event)
    ensures Run(p, [e]) == Handle(p, e)
  {
    assert [e][..0] == [] && Run(p, [e][..0]) == p;
  }
}
