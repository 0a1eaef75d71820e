/** The state object that stores the log of one worker and replays it, proved against `AllureReplay`. */
module AllureState {
  import opened Wrappers
  import opened AllureMessages
  import R = AllureReplay

  /** Index of the last element that satisfies `accepts`, or -1. */
  method FindLastIndex<T>(arr: seq<T>, accepts: T -> bool) returns (r: int)
    ensures -1 <= r < |arr|
    ensures r >= 0 ==> accepts(arr[r])
    ensures forall k :: r < k < |arr| ==> !accepts(arr[k])
  {
    r := |arr| - 1;
    while r >= 0
      invariant -1 <= r < |arr|
      invariant forall k :: r < k < |arr| ==> !accepts(arr[k])
    {
      if accepts(arr[r]) {
        return;
      }
      r := r - 1;
    }
  }

  /** The element at `i` is accepted and none after it is. */
  ghost predicate IsLast<T>(arr: seq<T>, accepts: T -> bool, i: int) {
    0 <= i < |arr| && accepts(arr[i]) && forall k :: i < k < |arr| ==> !accepts(arr[k])
  }

  /** The last element that satisfies `accepts`. */
  method FindLast<T>(arr: seq<T>, accepts: T -> bool) returns (r: Option<T>)
    ensures r.Some? ==> exists i :: IsLast(arr, accepts, i) && arr[i] == r.value
    ensures r.None? ==> forall k :: 0 <= k < |arr| ==> !accepts(arr[k])
  {
    var i := |arr| - 1;
    while i >= 0
      invariant -1 <= i < |arr|
      invariant forall k :: i < k < |arr| ==> !accepts(arr[k])
    {
      if accepts(arr[i]) {
        assert IsLast(arr, accepts, i);
        return Some(arr[i]);
      }
      i := i - 1;
    }
    return None;
  }

  lemma {:induction false} LastFeature(log: seq<Message>, at: int)
    requires -1 <= at < |log|
    requires at >= 0 ==> log[at].SuiteStart? && log[at].feature
    requires forall k :: at < k < |log| ==> !(log[k].SuiteStart? && log[k].feature)
    ensures FeatureName(log) == if at >= 0 then log[at].name else ""
  {
    if log != [] && at < |log| - 1 {
      LastFeature(log[..|log| - 1], at);
    }
  }

  class AllureReportState {
    var scopesStack: seq<nat>
    var executablesStack: seq<nat>
    var fixturesStack: seq<nat>
    var currentTest: Option<nat>
    var messages: seq<Message>
    var pendingHookMessages: seq<Message>
    var isCapturingPendingHook: bool
    var openSteps: nat
    var openHookSteps: map<nat, nat>
    var hookMeta: map<nat, R.HookMeta>

    // The Allure runtime: its counters and the calls made on it.
    var nextScope: nat
    var nextTest: nat
    var nextFixture: nat
    var trace: seq<R.Call>

    ghost function View(): R.Replay
      reads this
    {
      R.Replay(scopesStack, executablesStack, fixturesStack, currentTest, pendingHookMessages,
               isCapturingPendingHook, openSteps, openHookSteps, hookMeta, nextScope, nextTest, nextFixture, trace)
    }

    constructor ()
      ensures View() == R.INIT && messages == []
    {
      scopesStack, executablesStack, fixturesStack, currentTest := [], [], [], None;
      messages, pendingHookMessages, isCapturingPendingHook := [], [], false;
      openSteps, openHookSteps, hookMeta := 0, map[], map[];
      nextScope, nextTest, nextFixture, trace := 0, 0, 0, [];
    }

    method HasPending(p: Pair) returns (r: bool)
      ensures r == IsPending(p, messages)
    {
      var s := FindLastIndex(messages, m => Opens(p, m));
      var e := FindLastIndex(messages, m => Closes(p, m));
      ScanIsFold(p, messages, s, e);
      return s > e;
    }

    method CurrentFeature() returns (r: Option<string>)
      ensures (r.Some? && r.value != "") <==> HasFeature(messages)
      ensures r.Some? ==> r.value == FeatureName(messages)
    {
      var isFeature := (m: Message) => m.SuiteStart? && m.feature;
      var m := FindLast(messages, isFeature);
      ghost var at: int := -1;
      if m.Some? {
        at :| IsLast(messages, isFeature, at) && messages[at] == m.value;
      }
      LastFeature(messages, at);
      r := if m.Some? then Some(m.value.name) else None;
    }

    method PushRuntimeMessage(message: Message)
      modifies this`messages
      ensures messages == old(messages) + [message]
    {
      messages := messages + [message];
    }

    method Call(c: R.Call)
      modifies this`trace
      ensures View() == R.Emit(old(View()), c)
    {
      trace := trace + [c];
    }

    method OpenScope()
      modifies this
      ensures View() == R.OpenScope(old(View())) && messages == old(messages)
    {
      var scope := nextScope;
      nextScope := nextScope + 1;
      Call(R.StartScope(scope));
      scopesStack := scopesStack + [scope];
    }

    method CloseScope()
      modifies this
      ensures View() == R.CloseScope(old(View())) && messages == old(messages)
    {
      if scopesStack != [] {
        var scope := R.Last(scopesStack);
        scopesStack := R.Front(scopesStack);
        Call(R.WriteScope(scope));
      }
    }

    method WriteLastTest()
      modifies this
      ensures View() == R.WriteLastTest(old(View())) && messages == old(messages)
    {
      if currentTest.None? {
        return;
      }
      Call(R.WriteTest(currentTest.value));
      currentTest := None;
    }

    /** Applies `n` step_stop messages to `target`, one call at a time. */
    method ApplyStops(target: R.Target, n: nat, o: Outcome)
      modifies this`trace
      ensures trace == old(trace) + R.Stops(target, n, o)
    {
      var k := 0;
      while k < n
        invariant k <= n && trace == old(trace) + R.Stops(target, k, o)
      {
        trace := trace + [R.Applied(target, StepStop(o.status, o.stop, o.details))];
        k := k + 1;
      }
    }

    method CloseOpenedSteps(o: Outcome)
      modifies this
      ensures View() == R.CloseSteps(old(View()), o) && messages == old(messages)
    {
      if currentTest.None? {
        return;
      }
      ApplyStops(R.OnTest(currentTest.value), openSteps, o);
      openSteps := 0;
    }

    method CloseOpenedHookSteps(f: nat, o: Outcome)
      modifies this
      ensures View() == R.CloseHookSteps(old(View()), f, o) && messages == old(messages)
    {
      var n := if f in openHookSteps then openHookSteps[f] else 0;
      ApplyStops(R.OnFixture(f), n, o);
      openHookSteps := openHookSteps[f := 0];
    }

    method CountHookStep(f: nat, m: Message)
      modifies this`openHookSteps
      ensures View() == R.CountHookStep(old(View()), f, m)
    {
      var n := if f in openHookSteps then openHookSteps[f] else 0;
      if m.StepStart? {
        openHookSteps := openHookSteps[f := n + 1];
      }
      if m.StepStop? {
        openHookSteps := openHookSteps[f := if n == 0 then 0 else n - 1];
      }
    }

    method StartSuite()
      modifies this
      ensures View() == R.OpenScope(R.WriteLastTest(old(View()))) && messages == old(messages)
    {
      if currentTest.Some? {
        WriteLastTest();
      }
      OpenScope();
    }

    method EndSuite(write: bool)
      modifies this
      ensures View() == (if write then R.WriteLastTest(R.CloseScope(old(View()))) else R.CloseScope(old(View())))
      ensures messages == old(messages)
    {
      CloseScope();
      if write {
        WriteLastTest();
      }
    }

    method BeginTest(name: string, start: int)
      modifies this
      ensures View() == R.BeginTest(old(View()), name, start) && messages == old(messages)
    {
      if currentTest.Some? {
        WriteLastTest();
      }
      OpenScope();
      var test := nextTest;
      nextTest := nextTest + 1;
      Call(R.StartTest(test, name, start, scopesStack));
      executablesStack := executablesStack + [test];
      currentTest := Some(test);
      openSteps := 0;
    }

    method StartTest(name: string, start: int)
      modifies this
      ensures View() == R.RunTestStart(HasFeature(messages), old(View()), name, start) && messages == old(messages)
    {
      BeginTest(name, start);
      var feature := CurrentFeature();
      if |pendingHookMessages| > 0 && !(feature.Some? && feature.value != "") {
        AttachPendingHook(Before, All);
        AttachPendingHook(Before, Each);
      }
    }

    method AddTestInfo(fullName: string)
      modifies this
      ensures View() == R.AddTestInfo(old(View()), fullName) && messages == old(messages)
    {
      if executablesStack == [] {
        return;
      }
      Call(R.SetTestName(R.Last(executablesStack), fullName));
    }

    method EndTest(o: Outcome)
      modifies this
      ensures View() == R.EndTest(old(View()), o) && messages == old(messages)
    {
      if executablesStack == [] {
        return;
      }
      var test := R.Last(executablesStack);
      executablesStack := R.Front(executablesStack);
      CloseOpenedSteps(o);
      CloseScope();
      Call(R.SetTestStatus(test, o));
      Call(R.StopTest(test, o));
    }

    method StartHook(name: string, kind: HookKind, start: int)
      modifies this
      ensures View() == R.StartHook(old(View()), name, kind, start) && messages == old(messages)
    {
      if AfterAll(name) && currentTest.Some? {
        WriteLastTest();
      }
      if currentTest.None? {
        pendingHookMessages := pendingHookMessages + [HookStart(name, kind, start)];
        isCapturingPendingHook := true;
        return;
      }
      if scopesStack != [] {
        BeginFixture(name, kind, start);
      }
    }

    method BeginFixture(name: string, kind: HookKind, start: int)
      requires scopesStack != []
      modifies this
      ensures View() == R.BeginFixture(old(View()), name, kind, start) && messages == old(messages)
    {
      var fixture := nextFixture;
      nextFixture := nextFixture + 1;
      Call(R.StartFixture(fixture, R.Last(scopesStack), kind, name, start));
      fixturesStack := fixturesStack + [fixture];
      openHookSteps := openHookSteps[fixture := 0];
      hookMeta := hookMeta[fixture := R.HookMeta(name, kind)];
    }

    method EndHook(o: Outcome)
      modifies this
      ensures View() == R.EndHook(old(View()), o) && messages == old(messages)
    {
      if currentTest.None? {
        pendingHookMessages := pendingHookMessages + [HookEnd(o)];
        isCapturingPendingHook := false;
        return;
      }
      if fixturesStack == [] {
        return;
      }
      var fixture := R.Last(fixturesStack);
      fixturesStack := R.Front(fixturesStack);
      CloseOpenedHookSteps(fixture, o);
      Call(R.SetFixtureStatus(fixture, o));
      Call(R.StopFixture(fixture, o));
      if fixture in hookMeta {
        Call(R.AddTestFixture(currentTest.value, hookMeta[fixture].name, hookMeta[fixture].kind, o.status));
      }
    }

    /** Applies the buffered messages `from` up to `to` to fixture `f`. */
    method ReplayBody(f: nat, from: nat, to: nat)
      requires from <= to <= |pendingHookMessages|
      modifies this
      ensures View() == R.ReplayBody(old(View()), f, old(pendingHookMessages)[from..to]) && messages == old(messages)
    {
      var i := from;
      ghost var was := pendingHookMessages;
      while i < to
        invariant from <= i <= to && messages == old(messages) && pendingHookMessages == was
        invariant View() == R.ReplayBody(old(View()), f, was[from..i])
      {
        var m := pendingHookMessages[i];
        assert R.Front(was[from..i + 1]) == was[from..i] && R.Last(was[from..i + 1]) == m;
        CountHookStep(f, m);
        if IsRuntime(m) {
          Call(R.Applied(R.OnFixture(f), m));
        }
        i := i + 1;
      }
    }

    method AttachPendingHook(kind: HookKind, scope: HookScope)
      modifies this
      ensures View() == R.Attach(old(View()), kind, scope) && messages == old(messages)
    {
      hide R.AttachAt;
      if currentTest.None? {
        return;
      }
      var startIdx := FindHook(pendingHookMessages, kind, scope, 0);
      if startIdx == |pendingHookMessages| {
        return;
      }
      var endIdx := FindEnd(pendingHookMessages, startIdx + 1);
      if endIdx == |pendingHookMessages| {
        return;
      }
      AttachAt(startIdx, endIdx);
    }

    method AttachAt(startIdx: nat, endIdx: nat)
      requires startIdx < endIdx < |pendingHookMessages|
      requires pendingHookMessages[startIdx].HookStart? && pendingHookMessages[endIdx].HookEnd?
      modifies this
      ensures View() == R.AttachAt(old(View()), startIdx, endIdx) && messages == old(messages)
    {
      hide R.StartHook, R.EndHook, R.AttachBody;
      ghost var was := pendingHookMessages;
      var startMsg := pendingHookMessages[startIdx];
      R.HookKeepsBuffer(View());
      StartHook(startMsg.name, startMsg.kind, startMsg.start);
      ghost var s1 := View();
      assert was <= s1.pending;
      AttachBody(startIdx + 1, endIdx);
      ghost var s2 := View();
      assert s2.pending == s1.pending;
      assert s2.pending[endIdx] == was[endIdx] && s1.pending[startIdx + 1..endIdx] == was[startIdx + 1..endIdx];
      R.HookKeepsBuffer(s2);
      EndHook(pendingHookMessages[endIdx].outcome);
      ghost var s3 := View();
      assert endIdx < |s3.pending|;
      pendingHookMessages := pendingHookMessages[..startIdx] + pendingHookMessages[endIdx + 1..];
    }

    method AttachBody(from: nat, to: nat)
      requires from <= to <= |pendingHookMessages|
      modifies this
      ensures View() == R.AttachBody(old(View()), old(pendingHookMessages)[from..to]) && messages == old(messages)
      ensures pendingHookMessages == old(pendingHookMessages)
    {
      if fixturesStack != [] {
        R.BodyKeepsBuffer(View(), R.Last(fixturesStack), pendingHookMessages[from..to]);
        ReplayBody(R.Last(fixturesStack), from, to);
      }
    }

    /** A message that no case of the switch consumes. */
    method Deliver(m: Message)
      requires IsRuntime(m)
      modifies this
      ensures View() == R.Deliver(old(View()), m) && messages == old(messages)
    {
      if fixturesStack == [] && currentTest.None? {
        if isCapturingPendingHook {
          pendingHookMessages := pendingHookMessages + [m];
        }
        return;
      }
      if fixturesStack != [] {
        CountHookStep(R.Last(fixturesStack), m);
      } else if m.StepStart? {
        openSteps := openSteps + 1;
      } else if m.StepStop? {
        openSteps := if openSteps == 0 then 0 else openSteps - 1;
      }
      Call(R.Applied(if fixturesStack != [] then R.OnFixture(R.Last(fixturesStack))
        else R.OnTest(currentTest.value), m));
    }

    method ProcessHookEnd(o: Outcome)
      modifies this
      ensures View() == R.RunHookEnd(HasFeature(messages), old(View()), o) && messages == old(messages)
    {
      if currentTest.None? {
        pendingHookMessages := pendingHookMessages + [HookEnd(o)];
        isCapturingPendingHook := false;
        return;
      }
      var feature := CurrentFeature();
      if fixturesStack == [] && |pendingHookMessages| > 0 && !(feature.Some? && feature.value != "") {
        pendingHookMessages := pendingHookMessages + [HookEnd(o)];
        isCapturingPendingHook := false;
        AttachPendingHook(Before, All);
        AttachPendingHook(Before, Each);
        AttachPendingHook(After, Each);
        AttachPendingHook(After, All);
        return;
      }
      EndHook(o);
    }

    method ProcessMessage(message: Message, lastMessage: bool)
      modifies this
      ensures View() == R.Step(HasFeature(messages), lastMessage, old(View()), message) && messages == old(messages)
    {
      match message
      case SuiteStart(_, _) => StartSuite();
      case SuiteEnd => EndSuite(lastMessage);
      case TestStart(name, start) => StartTest(name, start);
      case TestInfo(fullName) => AddTestInfo(fullName);
      case TestEnd(o) =>
        EndTest(o);
        var feature := CurrentFeature();
        if |pendingHookMessages| > 0 && !(feature.Some? && feature.value != "") {
          AttachPendingHook(After, Each);
          AttachPendingHook(After, All);
        }
      case HookStart(name, kind, start) => StartHook(name, kind, start);
      case HookEnd(o) => ProcessHookEnd(o);
      case StepStart(_, _) => Deliver(message);
      case StepStop(_, _, _) => Deliver(message);
      case Other(_) => Deliver(message);
    }

    method ProcessRuntimeMessages()
      requires View() == R.INIT
      modifies this
      ensures View() == R.Report(messages) && messages == old(messages)
    {
      hide R.Step, HasFeature;
      var i := 0;
      while i < |messages|
        invariant i <= |messages| && messages == old(messages)
        invariant View() == R.Replayed(messages, i)
      {
        ProcessMessage(messages[i], i == |messages| - 1);
        i := i + 1;
      }
      if currentTest.Some? {
        WriteLastTest();
      }
      while scopesStack != []
        invariant messages == old(messages)
        invariant R.CloseAll(View()) == R.Report(messages)
        decreases |scopesStack|
      {
        CloseScope();
      }
    }
  }
}
