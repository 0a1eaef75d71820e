# Verified models of five WebdriverIO components

Dafny models of code that keeps state, runs over a stream of events or rewrites its input, with proofs of what that code is for.

**The Allure report log** (`packages/wdio-allure-reporter`). The reporter turns framework events into an append-only log, and a state object replays the log against the Allure runtime.
- `AllureMessages`: the messages, the pending bits, and the searches of the hook buffer.
- `AllureReplay`: the replay as functions on values. Every runtime call is recorded in `trace`, and fresh scope, test and fixture ids are numbers counted per kind.
- `AllureState`: the class with the mutable fields. Each method is proved to compute its function.
- `AllureLedger`: an independent account of a sequence of runtime calls. `Allowed` says which call may come next; the rules `TestsFirst`, `ScopesLast` and `FixturesFirst` are what well-formed logs add.
- `AllureLifecycle`: the replay of every log, well formed or not, against that account.
- `AllureScopes`: scopes, test starts and statuses as a function of the suite, test and info messages alone; suite trees; scope heights.
- `AllureSegments`: a live hook and a whole test, call by call.
- `AllureHookBuffer`, `AllureBuffering`: the pending-hook buffer as a list of complete hooks.
- `AllureAttaches`: hook starts, hook ends and attaches with the names spelled out letter by letter: on any buffer, and which buffered hooks become fixtures at a test's start, at its end and at a stray hook end.
- `AllureOrder`: the calls of each operation as the rules see them; an attach on any buffer, and which attaches write the current test; the buffer over well-formed logs.
- `AllureFixtures`: exactly when each fixture is stopped before its own scope is written, and before any test begins or is written, for every log.
- `AllureStopBeforeWrite`: exactly when tests are stopped before they are written, for every log.
- `AllureExactly`, `AllureOwnTests`: the exact conditions for tests and for fixtures as they can be read off an ordered log; on which test a fixture is recorded.
- `AllureProducer`, `AllureReporter`: the reporter's handlers, as functions and as a class.
- `AllureRuns`, `AllureEndToEnd`, `AllureTrees`: whole runs of framework events through the reporter and the replay.
- `AllureEpisodes`, `AllureFailures`: from framework events to runtime calls: a test, a hook and a failing hook from start to end, with everything reported inside.
- `AllureGuards`: what the reporter logs for suites and scenarios, what it keeps out of the log, and its two flags over whole runs.
- `AllureStories`: whole runs with every runtime call spelled out.
- `AllureHookRuns`: runs with hooks outside any suite, and runs in which a hook fails.
- `AllureLayout`: which suites enclose each test of a run, with and without a test plan.
- `AllureOutcomes`: the statuses the reporter puts on its end messages, and which tests get them.

**The test-plan filter** (`TestPlan`), **the Appium argument rewrite** (`AppiumArgs`), **the browser/worker message correlator** (`Communicator`) and **JSON redaction** (`Redaction` on values, `RedactionInPlace` on objects in memory).

## What turned out false

- *A test is given its status and stopped before it is written.* When an "after all" hook fails while no test is pending, the reporter starts a test inside the pending hook (`reporter.ts:953-972`). The hook's end then re-attaches it, and replaying an after-all hook writes the current test (`state.ts:214-216`), so that test is written without a status. `AllureHookRuns.MochaAfterAllFailure` is one input, `AllureHookRuns.FailedAfterAllHookIsWrittenEarly` the family. `AllureStopBeforeWrite.TestsFirstExactly` says for every log when the property holds, in terms of the stacks and the buffer before each message; `AllureExactly.StoppedFirstExactly` reads that off ordered logs, and `AllureEndToEnd.RunStopsTestsFirstExactly` names the events that break it.
- *A fixture is stopped before the scope it was started in is written.* A suite that begins inside a hook which runs while the previous test is still to be written makes the replay write that test, and without a current test the hook's end is buffered (`state.ts:236-240`): the fixture is never stopped. `AllureFixtures.SuiteBoundaryInHook` is the input. `AllureFixtures.StoppedInScopeExactly` gives the condition for every log; on ordered logs and on runs of events that come in turn it is that no hook which found a live test is pending at the end (`AllureExactly.StoppedInScopeAsRead`, `AllureEndToEnd.RunStopsInScopeExactly`).
- *A fixture is recorded on the test it was started in, and none is open when a test begins or is written.* This is more than the property above, and fails where that one holds. When a hook fails after a test has passed, such as an "after each" hook, the reporter starts a test for the failure before it ends the hook (`reporter.ts:953-972`), and the end of the fixture goes to the test that is current then (`state.ts:261-268`). `AllureHookRuns.FailedHookIsRecordedElsewhere` is the family. `AllureFixtures.FixturesFirstExactly` and `AllureLedger.OnOwnTestsExactly` give the conditions for every log and every allowed trace, `AllureExactly.FixturesFirstAsRead` and `AllureOwnTests.OwnTestsAsRead` read them off ordered logs, `AllureEndToEnd.RunStopsFixturesFirstExactly` and `AllureEndToEnd.RunRecordsOwnExactly` name the events that break them.
- *A test's scopes mirror its suites.* With a test plan every suite is started a second time right before the first test in it, together with the other suites that wait for one, and each suite's end closes the last two scopes. So a suite encloses its tests twice; and when a suite ends that was started in one batch with the suite around it, its own scope stays and encloses the tests that follow (`reporter.ts:628-639`, `993-1001`). `AllureLayout.EndedSuiteEncloses` is one input, `AllureLayout.MirroredExactly` the condition, `AllureLayout.RunPlacesTests` the scopes of every test of every run. Without a plan the scopes are those of the suites.
- *Removing the port leaves all other arguments.* A bare `--port` without a value takes along whatever is left behind it: an argument behind another port flag, or a flag that the reader of the port (`cli-utils.ts:27`) would not take for a value. And every argument that begins with the port flag is taken for one, `--port-range=2` for example. `AppiumArgs.ArgumentLost` is an input of each kind, `AppiumArgs.RemovalIsExactly` the condition.
- *Redaction never throws.* With a decimal number among the listed keys it throws on an array that holds a long enough text: `Redaction.TextInArrayThrows`. `Redaction.ThrowsExactly` says on which trees, `Redaction.ThrowsNeverExactly` for which keys it never does.
- *Every listed key is redacted.* JSON is looked into only in the text of a property: a listed key stays in JSON that is the text of an array's item, or that stands in a text twice. `Redaction.TextsLeak` is two families of inputs with the very keys that the launcher lists for a configuration (`launcher.ts:123`). And where an embedded tree throws, the exception is swallowed and everything in that tree stays as it was: `Redaction.ListedKeyLeaks` is one input. `Redaction.ListedKeysAreRedacted` is the condition for every listed key in a tree or in any text in it, `Redaction.ThroughExactly` what it comes to when no listed key is a decimal number.

## Model

| member | source | states |
|---|---|---|
| AllureState.FindLastIndex | packages/wdio-allure-reporter/src/utils.ts:203-211 | the backwards loop finds the last accepted index, or -1 when there is none |
| AllureState.FindLast | packages/wdio-allure-reporter/src/utils.ts:187-201 | the same for the element |
| AllureState.AllureReportState.HasPending | packages/wdio-allure-reporter/src/state.ts:84-106 | comparing the two backward scans answers a one-bit left fold over the log |
| AllureMessages.ScanIsFold | packages/wdio-allure-reporter/src/state.ts:90-106 | for every log, last start after last end if and only if the fold's bit is set |
| AllureMessages.PendingExactly | packages/wdio-allure-reporter/src/state.ts:84-106 | the bit is set exactly when some suite, test, step or hook has been started and none has ended since |
| AllureScopes.PendingIsRunning | packages/wdio-allure-reporter/src/state.ts:90-94 | on alternating tests the bit is set exactly when replaying the same log leaves the executables stack non-empty |
| AllureState.AllureReportState.CurrentFeature | packages/wdio-allure-reporter/src/state.ts:108-114 | truthy exactly when the last feature suite has a non-empty name, and then that name |
| AllureMessages.FeatureExactly | packages/wdio-allure-reporter/src/state.ts:108-114 | a log has a feature exactly when the last suite flagged as one has a name that is not empty, and then that is its name |
| AllureState.AllureReportState.ProcessRuntimeMessages | packages/wdio-allure-reporter/src/state.ts:276-375 | the loop over the log and the drain leave the state the replay function describes and the log untouched |
| AllureState.AllureReportState.ProcessMessage | packages/wdio-allure-reporter/src/state.ts:281-366 | one case of the switch, in full new state |
| AllureState.AllureReportState.ProcessHookEnd | packages/wdio-allure-reporter/src/state.ts:315-331 | the stray hook end: queued, then four attaches in order |
| AllureState.AllureReportState.StartTest | packages/wdio-allure-reporter/src/state.ts:150-174 | the new state after a test start and its before attaches |
| AllureState.AllureReportState.EndTest | packages/wdio-allure-reporter/src/state.ts:187-209 | the new state after a test end, including an empty executables stack |
| AllureState.AllureReportState.StartHook | packages/wdio-allure-reporter/src/state.ts:211-233 | after-all writes the current test; no test buffers the hook; else a fixture in the innermost scope |
| AllureState.AllureReportState.EndHook | packages/wdio-allure-reporter/src/state.ts:235-270 | the new state after a hook end |
| AllureState.AllureReportState.AttachPendingHook | packages/wdio-allure-reporter/src/state.ts:377-424 | the two searches, the replayed body and the splice |
| AllureState.AllureReportState.Deliver | packages/wdio-allure-reporter/src/state.ts:337-366 | a step or label goes to the innermost fixture, else the current test, else the open buffered hook, else nowhere |
| AllureState.AllureReportState.CloseOpenedSteps | packages/wdio-allure-reporter/src/state.ts:68-82 | the loop sends one stop for every open step of the current test |
| AllureState.AllureReportState.CloseOpenedHookSteps | packages/wdio-allure-reporter/src/state.ts:53-66 | the same for a fixture |
| AllureLifecycle.ReplayTracksRuntime | packages/wdio-allure-reporter/src/state.ts:42-82 | after any prefix of any log every call was allowed and the fields track the runtime: step counters equal real step heights with clamped stops, a stopped fixture and a stopped live test have no open step, fixtures nest, each starts in the innermost open scope and none for an after-all name |
| AllureLifecycle.EveryReportIsComplete | packages/wdio-allure-reporter/src/state.ts:116-160 | for every log each started test is written once, in start order, before the next starts; each opened scope is written once, innermost first; nothing stays open |
| AllureLedger.TestsInOrder | packages/wdio-allure-reporter/src/state.ts:128-134 | what conforming to the account means for tests: begun, written, begun, written |
| AllureLedger.ScopesOnce | packages/wdio-allure-reporter/src/state.ts:116-126 | what it means for scopes: opened once, written once unless still open |
| AllureLedger.FixturesOnce | packages/wdio-allure-reporter/src/state.ts:224-256 | what it means for fixtures: started once, stopped once unless still open |
| AllureLedger.TestsObey | packages/wdio-allure-reporter/src/state.ts:187-209 | a trace that keeps the rule for tests is begun, status, stopped, written for each test in turn |
| AllureScopes.ReplayOutline | packages/wdio-allure-reporter/src/state.ts:136-209 | for every log and prefix, scopes, running tests, test starts with scope lists, full names and statuses are a function of suite, test and info messages; an end message stops the test started last and not ended, with its own outcome |
| AllureScopes.EveryTestGetsItsOutcome | packages/wdio-allure-reporter/src/state.ts:187-208 | on alternating tests the k-th test gets the k-th outcome as status and stop, and nothing else is set |
| AllureScopes.TreeReconstruction | packages/wdio-allure-reporter/src/state.ts:116-174 | for every suite forest, with hooks and steps anywhere, tests start in pre-order, each with exactly the scope ids opened for its own enclosing suites, outermost first, then its own; siblings of one name are told apart; all scopes are closed |
| AllureScopes.HooksAtTestStart | packages/wdio-allure-reporter/src/state.ts:156-173 | in every state, fixtures attached at a test's start go to that test's own scope |
| AllureScopes.ScopeHeights | packages/wdio-allure-reporter/src/state.ts:116-209 | with balanced suites and tests the scope stack is as high as both together, at every point |
| AllureScopes.NoEmptyPop | packages/wdio-allure-reporter/src/state.ts:121-126 | then no end message pops an empty stack |
| AllureSegments.LiveHookCalls | packages/wdio-allure-reporter/src/state.ts:224-270 | a hook during a live test makes exactly the calls a buffered hook makes when attached |
| AllureSegments.WaitingHookIsBuffered | packages/wdio-allure-reporter/src/state.ts:306-346 | a hook with no live test makes no call and becomes the last complete hook of the buffer, body included |
| AllureSegments.NothingOpenNothingKept | packages/wdio-allure-reporter/src/state.ts:337-366 | steps and labels outside any test or hook make no call and are not kept |
| AllureSegments.WholeTestCalls | packages/wdio-allure-reporter/src/state.ts:150-209 | every call for a test with steps, labels and full names inside, in order, and the stacks restored |
| AllureHookBuffer.AttachReplaysFirstBlock | packages/wdio-allure-reporter/src/state.ts:377-424 | an attach removes exactly the first complete hook of the wanted kind and scope, replays its body in order on one fixture, keeps the others in order |
| AllureHookBuffer.AttachRequeuesAfterAll | packages/wdio-allure-reporter/src/state.ts:211-222 | an after-all hook is queued again at the back without its body, and the current test is written; the body goes to a fixture that happens to be open |
| AllureHookBuffer.AttachDropsBlock | packages/wdio-allure-reporter/src/state.ts:224-232 | with no scope open the hook is dropped, or ends the fixture that happens to be open |
| AllureAttaches.AttachOnAnyBuffer | packages/wdio-allure-reporter/src/state.ts:377-424 | on any buffer, well formed or not: the first hook of the wanted kind with the wanted letters in its name becomes one fixture in the innermost scope, with the steps, labels and attachments up to the next hook end on it, stopped with the outcome of that end, recorded on the live test; exactly these messages leave the buffer, a hook that began in between included |
| AllureAttaches.AttachFindsNothing | packages/wdio-allure-reporter/src/state.ts:381-389 | without such a hook, or without an end behind it, nothing happens |
| AllureAttaches.AttachesReplay | packages/wdio-allure-reporter/src/state.ts:377-424 | any series of attaches makes one fixture for each hook it takes, in order, and leaves the others in order |
| AllureAttaches.TestStartReplays | packages/wdio-allure-reporter/src/state.ts:150-174 | a test's start with hooks waiting, every call: the previous test written, the own scope, the test, then the first before-all and the first before-each hook as fixtures of that scope and test, unless there is a feature |
| AllureAttaches.TestEndReplays | packages/wdio-allure-reporter/src/state.ts:298-304 | a test's end with hooks waiting, every call: open steps stopped, scope, status, stop, then the first after-each and the first after-all hook as fixtures of the scope around the test |
| AllureAttaches.BeforeEachIsAttached | packages/wdio-allure-reporter/src/state.ts:156-173 | every complete before-type hook of the buffer with the letters of "each" in its name, in any case, and first of its kind, is one fixture of the next test without a feature, started in that test's own scope |
| AllureAttaches.StrayEndReplays | packages/wdio-allure-reporter/src/state.ts:321-330 | a hook end that finds a live test and no fixture: it completes the waiting hook with its own outcome, and each hook then taken is replayed with the outcome it has in the buffer; with a feature nothing happens |
| AllureAttaches.StrayEndKeepsOutcome | packages/wdio-allure-reporter/src/state.ts:321-330 | so a hook that began before its test and ends astray is one fixture with the status, details and times of that end |
| AllureAttaches.HookStartsExactly | packages/wdio-allure-reporter/src/state.ts:211-233 | a hook start in any state, by the letters of its name: the current test written and the hook waiting, or one fixture in the innermost scope, or nothing |
| AllureAttaches.HookEndsExactly | packages/wdio-allure-reporter/src/state.ts:235-270 | a hook end that is not astray, in any state: to the buffer, or the innermost fixture stopped, its open steps first, and recorded with the name and kind of its start, or nothing |
| AllureAttaches.SuiteStartsScope | packages/wdio-allure-reporter/src/state.ts:136-142 | a suite's start in any state: the test that is left is written, then one scope is opened |
| AllureAttaches.SuiteEndWritesScope | packages/wdio-allure-reporter/src/state.ts:143-148 | a suite's end in any state: the innermost scope, if there is one, and as the last message the test that is left |
| AllureAttaches.TestEndsExactly | packages/wdio-allure-reporter/src/state.ts:187-209 | a test's end in any state, before any attach: the steps open on the current test, the innermost scope, and status and stop for the test started last that has not ended |
| AllureMessages.AfterAllMentionsAll | packages/wdio-allure-reporter/src/state.ts:381-383 | every after-all name is found by the search for "all" |
| AllureMessages.NamesAsSpelled | packages/wdio-allure-reporter/src/state.ts:381-383 | a name says "after all", "all" or "each" exactly when these letters stand in it in a row, each small or capital |
| AllureOrder.AttachBalances | packages/wdio-allure-reporter/src/state.ts:377-424 | on any buffer, well formed or not: after writing the test for an after-all name, an attach changes no test and no scope, leaves no fixture open that it opened and brings nothing new into the buffer |
| AllureOrder.BufferIsBlocks | packages/wdio-allure-reporter/src/state.ts:306-346 | on bracketed logs the buffer is complete hooks and at most one that has begun, at every prefix |
| AllureOrder.AttachesWrite | packages/wdio-allure-reporter/src/state.ts:377-424 | on any buffer a series of attaches writes the current test if and only if it comes upon a complete hook named after all, a condition on the buffer before the first of them |
| AllureLedger.ScopesLastExactly | packages/wdio-allure-reporter/src/state.ts:121-126 | of an allowed trace: no scope is written while a fixture started in it is open, if and only if every fixture was stopped, once, by the time its own scope is written |
| AllureLedger.FixturesFirstRecordOwn | packages/wdio-allure-reporter/src/state.ts:261-268 | of an allowed trace: where no fixture is open when a test begins or is written, every fixture is recorded on the test it was started in |
| AllureLedger.OnOwnTestsExactly | packages/wdio-allure-reporter/src/state.ts:261-268 | of an allowed trace: every fixture is recorded on the test it was started in, if and only if no test begins between the start of a fixture and its being recorded |
| AllureFixtures.StoppedInScopeExactly | packages/wdio-allure-reporter/src/state.ts:116-256 | for every log: every fixture is stopped before its own scope is written, if and only if no suite or test end closes a scope while a fixture started in it is open and none is open at the end; then each is started once and stopped once |
| AllureFixtures.FixturesFirstExactly | packages/wdio-allure-reporter/src/state.ts:211-256 | the stronger rule, for every log: no fixture is open when a test begins or a test or scope is written, if and only if no suite, test or after-all hook comes while one is open and none is at the end; the guard is on the stacks and the buffer before each message |
| AllureFixtures.EveryFixtureIsClosed | packages/wdio-allure-reporter/src/state.ts:235-256 | read off the log: the rule is kept when no suite event, test event or other hook start falls inside a hook; hooks may begin anywhere else and ends may be astray |
| AllureFixtures.SuiteBoundaryInHook | packages/wdio-allure-reporter/src/state.ts:235-256 | one log with a suite boundary inside a hook: its fixture is started once and stopped never, and its scope is written |
| AllureStopBeforeWrite.TestsFirstExactly | packages/wdio-allure-reporter/src/state.ts:128-222 | for every log: each test is named, given its status and stopped before it is written, if and only if no message makes the replay write the running test and none runs at the end; then every life is begun, status, stopped, written; the guard is on the stacks and the buffer before each message |
| AllureStopBeforeWrite.EveryTestIsStoppedFirst | packages/wdio-allure-reporter/src/state.ts:187-216 | read off the log: it is so when tests follow one another outside hooks, after-all hooks begin between tests and end messages inside tests belong to hooks that began; scopes and hooks between tests are free |
| AllureStopBeforeWrite.StoppedFirstWithFeature | packages/wdio-allure-reporter/src/state.ts:298-330 | with a feature, whatever the hooks: if and only if no after-all hook begins while a test runs and the last test is ended |
| AllureExactly.StoppedFirstExactly | packages/wdio-allure-reporter/src/state.ts:214-222 | where a test may start inside a hook, with and without a feature: if and only if no message writes too early and the last test is ended, a condition read off the log with three bits |
| AllureExactly.TellsUntil | packages/wdio-allure-reporter/src/state.ts:211-256 | on ordered logs, at every prefix: a test is live, and a fixture open, exactly when the log says so |
| AllureExactly.FixturesFirstAsRead | packages/wdio-allure-reporter/src/state.ts:211-256 | on ordered logs the rule for fixtures is kept if and only if no test starts inside a hook that found a live test and the log does not end inside one |
| AllureExactly.StoppedInScopeAsRead | packages/wdio-allure-reporter/src/state.ts:211-256 | on ordered logs every fixture is stopped before its own scope is written if and only if the log does not end inside a hook that found a live test; then each is stopped once |
| AllureOwnTests.OwnTestsAsRead | packages/wdio-allure-reporter/src/state.ts:261-268 | on ordered logs every fixture is recorded on the test it was started in if and only if no hook that found a live test has another test started in it before it ends |
| AllureReporter.Reporter.OnSuiteStart | packages/wdio-allure-reporter/src/reporter.ts:528-607 | the new stack, flags and log for features, scenarios and other suites |
| AllureReporter.Reporter.OnSuiteEnd | packages/wdio-allure-reporter/src/reporter.ts:609-683 | the new stack, started depth and log, with the double end under a plan |
| AllureReporter.Reporter.EnsureSuitesStarted | packages/wdio-allure-reporter/src/reporter.ts:993-1001 | the loop starts the suites from the started depth on and records the stack's height |
| AllureReporter.Reporter.OnTestStart | packages/wdio-allure-reporter/src/reporter.ts:710-745 | the new state after a test start |
| AllureReporter.Reporter.OnTestPass | packages/wdio-allure-reporter/src/reporter.ts:747-760 | the new log after a pass |
| AllureReporter.Reporter.OnTestRetry | packages/wdio-allure-reporter/src/reporter.ts:762-775 | the new log after a retry |
| AllureReporter.Reporter.OnTestFail | packages/wdio-allure-reporter/src/reporter.ts:777-797 | the new state after a failure, with the missing start inserted |
| AllureReporter.Reporter.OnTestPending | packages/wdio-allure-reporter/src/reporter.ts:799-804 | a pending test leaves the log alone, a pending step ends it |
| AllureReporter.Reporter.OnTestSkip | packages/wdio-allure-reporter/src/reporter.ts:806-824 | the new log after a skip, with the missing start inserted |
| AllureReporter.Reporter.DeriveHookType | packages/wdio-allure-reporter/src/reporter.ts:1074-1079 | before or after from the title, else from the pending bits; AllureEpisodes.KindIsDerived says it by the letters of the title |
| AllureReporter.Reporter.OnHookStart | packages/wdio-allure-reporter/src/reporter.ts:883-903 | the new log and skip flag |
| AllureReporter.Reporter.OnHookEnd | packages/wdio-allure-reporter/src/reporter.ts:905-973 | the new log in all combinations of error, pending test and pending hook |
| AllureReporter.Reporter.OnCommand | packages/wdio-allure-reporter/src/reporter.ts:826-844 | a command is reported only inside a test or hook of an active scenario |
| AllureReporter.Reporter.OnRunnerEnd | packages/wdio-allure-reporter/src/reporter.ts:512-526 | the log of the worker is replayed |
| AllureEpisodes.EventLogged | packages/wdio-allure-reporter/src/reporter.ts:710-844 | a command, step or label in any state of the reporter: the messages it stands for, or nothing when it is a command outside any test and hook, a step start outside any test, or comes while a scenario is skipped |
| AllureEpisodes.CommandsNeedATestOrHook | packages/wdio-allure-reporter/src/reporter.ts:826-844 | a command reaches the log, once, exactly while a test or a hook is open and no scenario is being skipped |
| AllureEpisodes.TestLogged | packages/wdio-allure-reporter/src/reporter.ts:710-824 | a test from its start to its end, message by message: its details, everything reported inside, its logs, its end with the outcome of a pass, retry, failure or skip |
| AllureEpisodes.MissingStartLogged | packages/wdio-allure-reporter/src/reporter.ts:777-824 | a failure or a skip without a start brings the start, with the details, and then the same messages |
| AllureEpisodes.TestReachesRuntime | packages/wdio-allure-reporter/src/reporter.ts:710-844 | a test of any run, replayed in any state without buffered hooks and open fixtures: exactly the calls of that test, each command, step and label applied to it once and in order, and its own outcome |
| AllureEpisodes.KindIsDerived | packages/wdio-allure-reporter/src/reporter.ts:1074-1079 | a hook is a before hook when its title has the letters of "before", an after hook when it has those of "after" and not "before", and otherwise a before hook exactly when a test is open and no hook is |
| AllureEpisodes.HookStartLogged | packages/wdio-allure-reporter/src/reporter.ts:883-903 | a hook start that nothing keeps out appends one message, of that kind and with the title or "Hook" |
| AllureEpisodes.HookEndLogged | packages/wdio-allure-reporter/src/reporter.ts:905-973 | a hook end that nothing keeps out, in each combination of failure, open test and open hook, message by message |
| AllureEpisodes.LiveHookReachesRuntime | packages/wdio-allure-reporter/src/reporter.ts:826-973 | a hook with a live test, from its events to the calls: one fixture of the kind its title spells, each command inside applied to it once and in order, stopped with its own outcome and recorded on that test |
| AllureEpisodes.WaitingHookReachesBuffer | packages/wdio-allure-reporter/src/reporter.ts:883-973 | a hook without a live test: no call, and the buffer gains it with everything inside |
| AllureFailures.FailingWaitingHook | packages/wdio-allure-reporter/src/reporter.ts:953-972 | a hook that begins with no live test and fails with no test pending, such as a before-all hook: the calls for the test that stands for the failure, the hook on it as one broken fixture with its commands and details, and the test ended as broken |
| AllureFailures.FailingUnbegunHook | packages/wdio-allure-reporter/src/reporter.ts:934-951 | the same for a hook that was never logged at its start |
| AllureFailures.FailingLiveHook | packages/wdio-allure-reporter/src/reporter.ts:953-972 | the same for a hook whose fixture is open already: it stays open while the test for the failure starts, and is recorded on that one as broken |
| AllureGuards.TestStartsExactly | packages/wdio-allure-reporter/src/reporter.ts:710-745 | in any state: the suites that wait, if there is a plan, then the test with its details |
| AllureGuards.SuiteStartsExactly | packages/wdio-allure-reporter/src/reporter.ts:528-607 | in any state, the message and flags for a feature, a scenario and any other suite; a scenario the plan leaves out is ended at once as skipped |
| AllureGuards.SuiteEndsExactly | packages/wdio-allure-reporter/src/reporter.ts:609-683 | in any state, the ends with and without a plan; a scenario that is being skipped has none of its own |
| AllureGuards.SilentExactly | packages/wdio-allure-reporter/src/reporter.ts:528-973 | for every event in every state: the log stays as it is if and only if the event is one of those the reporter keeps out |
| AllureGuards.SkippingExactly | packages/wdio-allure-reporter/src/reporter.ts:883-903 | over every run the reporter is skipping a scenario exactly since an event that starts it, a scenario or a before hook the plan leaves out, and until a scenario ends |
| AllureGuards.ActiveExactly | packages/wdio-allure-reporter/src/reporter.ts:528-683 | over every run hooks count as a scenario's exactly since its start and until a scenario ends or a feature begins |
| AllureGuards.RunFeatureExactly | packages/wdio-allure-reporter/src/reporter.ts:528-607 | the log of a run has a feature exactly when the last feature started has a title |
| AllureStories.ReportDrains | packages/wdio-allure-reporter/src/state.ts:368-374 | for every log, after its last message: the test that is left is written, and then the scopes that are left, innermost first |
| AllureStories.SuiteReachesRuntime | packages/wdio-allure-reporter/src/reporter.ts:528-844 | end to end for one suite with any number of tests or one feature with any number of scenarios, passing or not, with anything inside: every call, in order |
| AllureStories.GlobalHooksReachTheTest | packages/wdio-allure-reporter/tests/allureFeatures.test.ts:514-538 | end to end for a before and an after hook outside any suite: every call; the waiting hook is a fixture of the test's own scope, the other of the suite's scope, both recorded on the test |
| AllureStories.EachHooksInARun | packages/wdio-allure-reporter/tests/allureFeatures.test.ts:514-538 | that run with the literal titles and commands inside, call by call |
| AllureStories.FailingBeforeHook | packages/wdio-allure-reporter/src/reporter.ts:953-972 | end to end for a before-all or before-each hook that fails before the first test of a suite: every call, the fixture and the test broken |
| AllureStories.FailedBeforeAllInARun | packages/wdio-allure-reporter/src/reporter.ts:953-972 | that run with the literal title, call by call |
| AllureRuns.FitsExactly | packages/wdio-allure-reporter/src/reporter.ts:747-824 | one event keeps test messages alternating exactly when it fits the pending test, and hook messages exactly when it fits the pending hook, each on its own; failures, skips and failing hooks always fit |
| AllureRuns.AlternationExactly | packages/wdio-allure-reporter/src/reporter.ts:747-973 | over every run of events, test messages alternate if and only if every event fits the pending test; and so for hooks |
| AllureRuns.SuiteBalanceExactly | packages/wdio-allure-reporter/src/reporter.ts:609-639 | over every run, with or without a plan, no prefix has more suite ends than starts if and only if no suite ends on an empty stack; then the balance is stack depth plus started depth, and started depth is at most stack depth |
| AllureRuns.RunKeepsScopeHeight | packages/wdio-allure-reporter/src/reporter.ts:602-639 | end to end, hooks in any order: where the replay reaches the messages of an event, the scope stack is as high as the reporter's suite stack at that event, its started depth and an open test together |
| AllureRuns.RunPopsNothingEmpty | packages/wdio-allure-reporter/src/reporter.ts:609-639 | in such runs no end message pops an empty stack, and a complete run leaves nothing for the drain |
| AllureOutcomes.HandleReports | packages/wdio-allure-reporter/src/reporter.ts:747-973 | every event appends exactly the end messages it stands for: a pass passed, a skip skipped, a failing hook broken, with a broken test of its own when none was pending |
| AllureOutcomes.RunReports | packages/wdio-allure-reporter/src/reporter.ts:528-973 | the same over every run of events |
| AllureOutcomes.RunGivesOutcomes | packages/wdio-allure-reporter/src/reporter.ts:747-973 | end to end: replaying the produced log gives the k-th test the status reported k-th for a test, stops it with that, and sets and stops nothing else |
| AllureEndToEnd.RunIsOrdered | packages/wdio-allure-reporter/src/reporter.ts:528-973 | events that come in turn produce an ordered log |
| AllureEndToEnd.RunStopsTestsFirstExactly | packages/wdio-allure-reporter/src/reporter.ts:905-973 | end to end, with and without a feature: every test of such a run is stopped before it is written if and only if no event spoils it and the last test is ended; the spoiling events are after-all hooks that begin or fail in a test, failing after-all hooks, and ends of waiting hooks after an after-all hook |
| AllureEndToEnd.RunStopsFixturesFirstExactly | packages/wdio-allure-reporter/src/reporter.ts:905-973 | end to end: no fixture is open when a test begins or a test or scope is written, if and only if no event starts a test in a hook that found a live test, as its failing end does when no test is pending, and no such hook is pending at the end |
| AllureEndToEnd.RunStopsInScopeExactly | packages/wdio-allure-reporter/src/reporter.ts:883-973 | end to end: every fixture is stopped before its own scope is written if and only if no hook that found a live test is pending at the end |
| AllureEndToEnd.RunRecordsOwnExactly | packages/wdio-allure-reporter/src/reporter.ts:953-972 | end to end: every fixture is recorded on the test it was started in if and only if no hook that found a live test ends after another test has started in it, or fails with no test pending |
| AllureHookRuns.GlobalHooksAreInTurn | packages/wdio-allure-reporter/tests/allureFeatures.test.ts:514-538 | runs with hooks emitted outside any suite are among those that come in turn |
| AllureHookRuns.FailedHookIsRecordedElsewhere | packages/wdio-allure-reporter/src/reporter.ts:953-972 | the family of hooks that fail after a passed test: the fixture is open when the next test begins and is recorded on that one, yet is stopped once before its own scope is written |
| AllureHookRuns.FailedAfterAllHookIsWrittenEarly | packages/wdio-allure-reporter/src/reporter.ts:953-972 | the failing family: an after-all hook that fails with no test pending |
| AllureHookRuns.MochaAfterAllFailure | packages/wdio-allure-reporter/src/reporter.ts:953-972 | one concrete run in which it fails |
| AllureTrees.ReportedTree | packages/wdio-allure-reporter/src/reporter.ts:602-605 | end to end without a plan: every forest reported event by event and replayed starts its tests in pre-order in exactly the scopes of their suites |
| AllureTrees.ScopesPerTest | packages/wdio-allure-reporter/src/reporter.ts:993-1001 | a test has one scope for each enclosing suite without a plan and two with one, and its own |
| AllureLayout.RunPlacesTests | packages/wdio-allure-reporter/src/reporter.ts:528-824 | end to end for every run that nests and fits, with or without a plan, with any hooks, failures, skips and steps: which suite or test each scope was opened for, and the exact list of owners of the scopes each test is started in |
| AllureLayout.MirroredExactly | packages/wdio-allure-reporter/src/reporter.ts:993-1001 | a test of a run is enclosed by exactly its own suites, those started lazily twice, if and only if no suite has ended while another of its batch has not; without a plan by its suites once |
| AllureLayout.WholeExactlyUntil | packages/wdio-allure-reporter/src/reporter.ts:628-639 | that state is reached exactly where a suite ends that was started in one batch with the suite around it |
| AllureLayout.EndedSuiteEncloses | packages/wdio-allure-reporter/src/reporter.ts:628-639 | one run with two suites in which an ended suite's scope encloses a test, and its own suite's encloses it once |
| TestPlan.Filter.Decide | packages/wdio-allure-reporter/src/testplan.ts:107-159 | true exactly when some name of the test, alone or after a file name, is in the plan |
| TestPlan.JoinConcat | packages/wdio-allure-reporter/src/testplan.ts:109-116 | titles are joined by one space each |
| TestPlan.PlannedInSuites | packages/wdio-allure-reporter/src/testplan.ts:107-159 | a test nested to any depth is planned exactly by all the titles with spaces in between, by the same with a dot before its own, or by the innermost suite's title and its own, alone or after "file#"; by its own title only under an untitled suite |
| TestPlan.PlannedAtTop | packages/wdio-allure-reporter/src/testplan.ts:107-159 | outside any suite it is planned exactly by its title, alone or after "file#" |
| TestPlan.NestedTestIsSelected | packages/wdio-allure-reporter/src/testplan.ts:107-185 | a file with two suites and two tests: what is left of it when the plan holds "A B t" |
| TestPlan.Filter.RunBody | packages/wdio-allure-reporter/src/testplan.ts:161-170 | the title is on the stack while the body runs and off again however it ends |
| TestPlan.Filter.Run | packages/wdio-allure-reporter/src/testplan.ts:161-185 | what reaches the framework, what was decided on, whether an exception left, and the stack restored |
| TestPlan.WrappedIsSelection | packages/wdio-allure-reporter/src/testplan.ts:161-185 | for every tree of calls the wrappers keep everything in place except the tests without a planned name, also when bodies throw |
| TestPlan.DecisionsSeePaths | packages/wdio-allure-reporter/src/testplan.ts:107-109 | each decision sees exactly the titles of the suites open around its test, outermost first |
| TestPlan.ThrowStopsTheFile | packages/wdio-allure-reporter/src/testplan.ts:161-170 | what stands behind an exception is not called, what stands behind anything else is called as it would be alone |
| AppiumArgs.Args.RemovePort | packages/wdio-appium-service/src/cli-utils.ts:50-64 | the backwards splice loop stays in bounds and computes the right-to-left recursion |
| AppiumArgs.RemovedWith | packages/wdio-appium-service/src/cli-utils.ts:50-64 | what goes with one argument, by its letters: one that begins with the flag goes alone if it has a "=", and else takes along what is left behind it |
| AppiumArgs.NoPortRemains | packages/wdio-appium-service/src/cli-utils.ts:45-64 | no remaining argument starts with the port flag |
| AppiumArgs.SurvivorsInOrder | packages/wdio-appium-service/src/cli-utils.ts:50-64 | the survivors are a subsequence |
| AppiumArgs.RemovalIsExactly | packages/wdio-appium-service/src/cli-utils.ts:27-64 | removal takes exactly the port flags and the values their reader accepts, if and only if no other argument begins with the port flag and every bare flag has its value behind it, or nothing but port flags and their values |
| AppiumArgs.ArgumentLost | packages/wdio-appium-service/src/cli-utils.ts:50-64 | three lists the launcher accepts, each of which loses an unrelated argument: a doubled flag, a flag where a value belongs, an argument that begins like the port flag |
| AppiumArgs.Args.Rewrite | packages/wdio-appium-service/src/cli.ts:15-27 | the rewritten list, or nothing changed when reading the port throws |
| AppiumArgs.PortFlagRoundTrip | packages/wdio-appium-service/src/cli-utils.ts:18-36 | a printed port flag reads back as its port |
| AppiumArgs.PortInOneArgument | packages/wdio-appium-service/src/cli-utils.ts:18-36 | for every list whose first port flag has a "=": the port is the number behind it, up to another "=", with leading zeros or without, and 4723 when that is out of range |
| AppiumArgs.PortInTwoArguments | packages/wdio-appium-service/src/cli-utils.ts:18-36 | for every list whose first port flag is bare: the port is the next argument, likewise, and reading throws exactly when that is missing, empty or begins with "--" |
| AppiumArgs.NoPortGiven | packages/wdio-appium-service/src/cli-utils.ts:13-42 | without a port flag it is 4723 |
| AppiumArgs.PortIsRead | packages/wdio-appium-service/tests/cli-utils.test.ts:34 | both forms with 4725, and a port out of range |
| AppiumArgs.RewrittenExactly | packages/wdio-appium-service/src/cli.ts:15-27 | the rewritten list is the port in one argument, what survived, and those of the three required flags that are missing, in this order |
| AppiumArgs.RewriteIsStable | packages/wdio-appium-service/src/cli.ts:15-27 | when reading does not throw: one port argument, which reads back as the same port, every required flag, survivors in order, and a second rewrite changes nothing |
| Communicator.ServerWorkerCommunicator.OnBrowserEvent | packages/wdio-browser-runner/src/communicator.ts:91-110 | the new counter, pending entry and message, or the reply to a state request |
| Communicator.ServerWorkerCommunicator.OnWorkerMessage | packages/wdio-browser-runner/src/communicator.ts:71-88 | the new commands, or the pending entry removed and the response sent, or nothing for an unknown id |
| Communicator.PendingAreUnanswered | packages/wdio-browser-runner/src/communicator.ts:26-36 | over every interleaving pending ids are exactly the issued and unanswered ones, below the counter, each with the client that issued it |
| Communicator.NextIdIsFree | packages/wdio-browser-runner/src/communicator.ts:105-107 | no pending entry is ever overwritten |
| Communicator.ResponsesReachTheirClients | packages/wdio-browser-runner/src/communicator.ts:81-88 | the first response to each id reaches the client that issued it, none is delivered twice, none is lost |
| Communicator.RequestsAreForwarded | packages/wdio-browser-runner/src/communicator.ts:105-109 | every request goes to its worker once, in order, under its own id |
| Communicator.StateRequestsSeeCommands | packages/wdio-browser-runner/src/communicator.ts:72-102 | a state request is answered with exactly the commands registered for its session |
| Communicator.SentIsHistory | packages/wdio-browser-runner/src/communicator.ts:71-110 | over every interleaving everything that is sent, in order: one reply for each state request, one forward for each other request, one delivery for the first response to an id, nothing else |
| RedactionInPlace.Visit | packages/wdio-browserstack-service/src/crash-reporter.ts:104-129 | the recursion on objects in memory turns a tree into its redaction, or throws exactly where the function on values says so and leaves the tree rewritten up to that point |
| RedactionInPlace.VisitProp | packages/wdio-browserstack-service/src/crash-reporter.ts:114-126 | one unlisted property: visited, or its text parsed, rewritten and written back, or left alone when that throws |
| Redaction.VisitedUpTo | packages/wdio-browserstack-service/src/crash-reporter.ts:104-113 | what a throw leaves of an array: the items before it are redacted, the one at which it came is rewritten up to it, those after it are as they were |
| Redaction.VisitedPropsUpTo | packages/wdio-browserstack-service/src/crash-reporter.ts:104-129 | the same for the properties of an object |
| Redaction.PathsCommute | packages/wdio-browserstack-service/src/crash-reporter.ts:104-129 | redaction commutes with every path, texts included, that avoids the listed keys and goes through; on any other that avoids them nothing changes |
| Redaction.ListedKeysAreRedacted | packages/wdio-browserstack-service/src/crash-reporter.ts:108-126 | whatever the keys: a listed key behind no other, in the tree or inside any text in it, to any depth, maps to the redacted text exactly when its path enters only texts of properties whose tree does not throw, and keeps its value otherwise |
| Redaction.AccessKeyIsRedacted | packages/wdio-browserstack-service/src/launcher.ts:123 | with the launcher's list the value of "accessKey" becomes "[REDACTED]", in an object and in one in an array |
| Redaction.ThroughExactly | packages/wdio-browserstack-service/src/crash-reporter.ts:108-126 | with no decimal number among the listed keys, that is when its path enters only texts of properties that hold an object or array |
| Redaction.TextsLeak | packages/wdio-browserstack-service/src/launcher.ts:123 | with the launcher's key list a password stays in JSON that is the text of an array's item, and in JSON that stands in a text twice; nothing is thrown |
| Redaction.ListedKeyLeaks | packages/wdio-browserstack-service/src/crash-reporter.ts:117-125 | one input on which a listed key in embedded JSON stays because the embedded tree throws |
| Redaction.TheRestIsUnchanged | packages/wdio-browserstack-service/src/crash-reporter.ts:104-129 | whatever the keys: every path through no listed key, texts included, leads to what it led to; the text of a property has the object or array it holds written anew exactly when the path goes through and that one can be rewritten |
| Redaction.VisitedIsRedacted | packages/wdio-browserstack-service/src/crash-reporter.ts:104-129 | the tree a visit leaves behind is the redaction when nothing is thrown |
| Redaction.RedactTwice | packages/wdio-browserstack-service/src/crash-reporter.ts:104-129 | a second run goes through and changes nothing |
| Redaction.ThrowsExactly | packages/wdio-browserstack-service/src/crash-reporter.ts:108-113 | for every tree: it throws if and only if a path through no listed key and no embedded tree ends at an array item that is a text with a listed position |
| Redaction.TextInArrayThrows | packages/wdio-browserstack-service/src/crash-reporter.ts:108-113 | a family of arrays, and objects with them, on which it throws |
| Redaction.ThrowsNeverExactly | packages/wdio-browserstack-service/src/crash-reporter.ts:108-113 | no object or array makes it throw if and only if no listed key is a decimal number |
| Redaction.FilterCapabilitiesNeverThrows | packages/wdio-browserstack-service/src/crash-reporter.ts:138-142 | the capability filter never throws |

## Left out

- The Allure runtime itself: only the trace of calls made on it, with an id returned by every start call; the guard on a missing fixture id is never taken, because fixtures start in open scopes.
- The clock: a missing stop time stays missing in the trace where the source reads the time; user and reporter supplied times are inputs.
- `_currentTestName`: it only feeds a parameter that the attach does not use.
- Labels, history ids, parameters, attachments, console logs and full names: each event brings the detail messages it causes, any number of them, as an input.
- Cucumber step detection, scenario exclusion by the plan and the status of a scenario from its children: flags and outcomes of the event.
- Several workers: the reporter keeps its maps per worker; the model is one worker's entries, whose id does not change after the runner starts.
- The guard `!hook.parent && !isGlobalHook` at `reporter.ts:889` and `reporter.ts:910`: a hook without a parent counts as global, so it never returns.
- Options that switch command steps and screenshots off; the messages of one command are separate events.
- AllureAttaches.TestStartReplays: the buffer holds complete hooks and at most one that has begun, none named after all; AllureAttaches.AttachOnAnyBuffer and AllureHookBuffer.AttachRequeuesAfterAll say what each single attach does beyond that. The same holds for AllureAttaches.TestEndReplays, AllureAttaches.StrayEndReplays and AllureAttaches.AttachesReplay.
- AllureEpisodes.TestReachesRuntime: no hook waits in the buffer and no fixture is open when the test starts; AllureAttaches.TestStartReplays covers waiting hooks.
- AllureFailures.FailingWaitingHook: nothing else waits in the buffer, and the hook's name says "all" or "each" and not "after all"; those named after all are in AllureHookRuns.FailedAfterAllHookIsWrittenEarly.
- AllureStories.SuiteReachesRuntime: one suite or feature and no plan; AllureLayout.RunPlacesTests places the tests of all other runs, with a plan too.
- AllureExactly.StoppedFirstExactly: logs are ordered: without a feature the names of hooks that wait in the buffer are plain (among after-type hooks exactly the after-all ones mention "all", and these do not mention "each"; no before-type hook is named after all), a test may start but not end inside a hook, no suite event falls inside a hook that found a live test, and such a hook begins while a scope is open. AllureStopBeforeWrite.TestsFirstExactly has none of this: its condition is on the state the replay has reached.
- AllureExactly.FixturesFirstAsRead: ordered logs, as above; AllureFixtures.FixturesFirstExactly has none of this.
- AllureExactly.StoppedInScopeAsRead: ordered logs, as above; AllureFixtures.StoppedInScopeExactly has none of this.
- AllureOwnTests.OwnTestsAsRead: ordered logs, as above; AllureLedger.OnOwnTestsExactly has none of this.
- AllureStopBeforeWrite.StoppedFirstWithFeature: needs tests one after another with no suite event inside; hooks are arbitrary.
- AllureEndToEnd.RunStopsTestsFirstExactly: events come in turn: tests one after another, hooks one at a time, tests ended between hooks, and, without a feature, hooks that wait plainly named.
- AllureEndToEnd.RunStopsFixturesFirstExactly: events come in turn, as above.
- AllureEndToEnd.RunStopsInScopeExactly: events come in turn, as above.
- AllureEndToEnd.RunRecordsOwnExactly: events come in turn, as above.
- AllureTrees.ReportedTree: tests that pass, without hooks; all other runs are covered by AllureLayout.RunPlacesTests.
- AllureLayout.RunPlacesTests: suites other than scenarios begin and end while no test is pending.
- `describe.only`, `it.only`, `skip`, double wrapping and the property setters that install the wrappers.
- File detection from the stack trace: the file names of a call site are an input of each test.
- AppiumArgs.RewriteIsStable: number conversion is spelled out for digit strings; what it makes of any other string is an arbitrary function.
- Process spawning, module resolution, opening the browser, and everything `run` does after assembling its arguments.
- Session records and coverage maps of the correlator; its error log for an unknown id.
- JSON text syntax: a text that is JSON carries the value it parses to, and writing a value back is an arbitrary function; lower-casing keys is an arbitrary function.
- `deletePIIKeysFromObject`, `filterPII` and the upload: fixed key deletions and network calls.
