/** The reporter's event handlers for one worker, proved against `AllureProducer`. */
module AllureReporter {
  import opened Wrappers
  import opened Text
  import opened AllureMessages
  import P = AllureProducer
  import S = AllureState

  class Reporter {
    const plan: bool
    const disableMochaHooks: bool
    const state: S.AllureReportState
    var suiteStack: seq<string>
    var suiteStartedDepth: int
    var planSkip: bool
    var scenarioActive: bool

    ghost function View(): P.Producer
      reads this, state
    {
      P.Producer(plan, disableMochaHooks, suiteStack, suiteStartedDepth, planSkip, scenarioActive, state.messages)
    }

    constructor (plan: bool, disableMochaHooks: bool)
      ensures View() == P.Fresh(plan, disableMochaHooks) && fresh(state)
    {
      this.plan, this.disableMochaHooks := plan, disableMochaHooks;
      state := new S.AllureReportState();
      suiteStack, suiteStartedDepth, planSkip, scenarioActive := [], 0, false, false;
    }

    method Push(m: Message)
      modifies state`messages
      ensures View() == P.Push(old(View()), m)
    {
      state.PushRuntimeMessage(m);
    }

    method PushDetails(ds: seq<P.Detail>)
      modifies state`messages
      ensures View() == P.PushDetails(old(View()), ds)
    {
      var i := 0;
      while i < |ds|
        invariant i <= |ds|
        invariant View() == P.PushDetails(old(View()), ds[..i])
      {
        assert ds[..i + 1][..i] == ds[..i];
        Push(P.DetailMessage(ds[i]));
        i := i + 1;
      }
      assert ds[..|ds|] == ds;
    }

    method EnsureSuitesStarted()
      modifies this`suiteStartedDepth, state`messages
      ensures View() == P.EnsureSuitesStarted(old(View()))
    {
      if !plan {
        return;
      }
      var i := suiteStartedDepth;
      while i < |suiteStack|
        invariant suiteStartedDepth == old(suiteStartedDepth)
        invariant P.StartSuites(View(), i) == P.StartSuites(old(View()), suiteStartedDepth)
      {
        Push(SuiteStart(P.NameAt(suiteStack, i), false));
        i := i + 1;
      }
      suiteStartedDepth := |suiteStack|;
    }

    method OnSuiteStart(s: P.Suite)
      modifies this, state`messages
      ensures View() == P.OnSuiteStart(old(View()), s)
    {
      match s.kind
      case Feature =>
        scenarioActive := false;
        suiteStack := suiteStack + [s.title];
        Push(SuiteStart(s.title, true));
      case Describe =>
        suiteStack := suiteStack + [s.title];
        Push(SuiteStart(s.title, false));
      case Scenario =>
        scenarioActive := true;
        EnsureSuitesStarted();
        Push(TestStart(s.title, s.start));
        PushDetails(s.details);
        if plan && s.excluded {
          planSkip := true;
          Push(TestEnd(P.SKIPPED));
        }
    }

    method PopSuite()
      modifies this`suiteStack
      ensures suiteStack == if old(suiteStack) == [] then [] else old(suiteStack)[..|old(suiteStack)| - 1]
    {
      if suiteStack != [] {
        suiteStack := suiteStack[..|suiteStack| - 1];
      }
    }

    method OnSuiteEnd(s: P.Suite)
      modifies this, state`messages
      ensures View() == P.OnSuiteEnd(old(View()), s)
    {
      if s.kind.Scenario? {
        scenarioActive := false;
        if planSkip {
          planSkip := false;
          return;
        }
        PushDetails(s.details);
        Push(TestEnd(s.outcome));
        return;
      }
      if !plan {
        Push(SuiteEnd);
        PopSuite();
        return;
      }
      if suiteStartedDepth >= |suiteStack| {
        Push(SuiteEnd);
        suiteStartedDepth := suiteStartedDepth - 1;
      }
      if |suiteStack| > 0 {
        Push(SuiteEnd);
        PopSuite();
      }
    }

    method EndOrStop(t: P.Test, o: Outcome)
      modifies state`messages
      ensures View() == P.EndOrStop(old(View()), t, o)
    {
      PushDetails(t.logs);
      Push(if t.isStep then StepStop(o.status, o.stop, o.details) else TestEnd(o));
    }

    method OnTestStart(t: P.Test)
      modifies this, state`messages
      ensures View() == P.OnTestStart(old(View()), t)
    {
      if t.isStep {
        var pending := state.HasPending(TestPair);
        if !pending {
          return;
        }
        Push(StepStart(t.title, t.start));
      } else {
        EnsureSuitesStarted();
        Push(TestStart(t.title, t.start));
      }
      PushDetails(t.details);
    }

    method OnTestPass(t: P.Test)
      modifies state`messages
      ensures View() == P.OnTestPass(old(View()), t)
    {
      EndOrStop(t, t.outcome.(status := Passed, stage := Some(Finished), details := None));
    }

    method OnTestRetry(t: P.Test)
      modifies state`messages
      ensures View() == P.OnTestRetry(old(View()), t)
    {
      EndOrStop(t, t.outcome.(stage := None));
    }

    method OnTestFail(t: P.Test)
      modifies this, state`messages
      ensures View() == P.OnTestFail(old(View()), t)
    {
      if !t.isStep {
        var pending := state.HasPending(TestPair);
        if !pending {
          OnTestStart(t);
        }
      }
      EndOrStop(t, t.outcome.(stage := Some(Finished)));
    }

    method OnTestSkip(t: P.Test)
      modifies state`messages
      ensures View() == P.OnTestSkip(old(View()), t)
    {
      if !t.isStep {
        var pending := state.HasPending(TestPair);
        if !pending {
          Push(TestStart(t.title, t.start));
          PushDetails(t.details);
        }
      }
      EndOrStop(t, P.SKIPPED);
    }

    method OnTestPending(t: P.Test)
      modifies state`messages
      ensures View() == P.OnTestPending(old(View()), t)
    {
      if t.isStep {
        EndOrStop(t, P.SKIPPED);
      }
    }

    method DeriveHookType(h: P.Hook) returns (kind: HookKind)
      ensures kind == P.DeriveHookType(View(), h)
    {
      var title := if h.title.Some? then h.title.value else "";
      if Mentions(title, "before") {
        return Before;
      }
      if Mentions(title, "after") {
        return After;
      }
      var hasTest := state.HasPending(TestPair);
      var hasHook := state.HasPending(HookPair);
      return if hasTest && !hasHook then Before else After;
    }

    method OnHookStart(h: P.Hook)
      modifies this`planSkip, state`messages
      ensures View() == P.OnHookStart(old(View()), h)
    {
      if planSkip || disableMochaHooks {
        return;
      }
      var kind := DeriveHookType(h);
      if h.cucumber && kind == Before && plan && h.excluded {
        planSkip := true;
        return;
      }
      if h.cucumber || scenarioActive {
        return;
      }
      Push(HookStart(P.HookName(h), kind, h.start));
    }

    method OnHookEnd(h: P.Hook)
      modifies state`messages
      ensures View() == P.OnHookEnd(old(View()), h)
    {
      hide IsPending, P.DeriveHookType, P.HookOutcome, P.OrElse, P.HookName, P.PushDetails;
      if planSkip || (disableMochaHooks && !h.failed) {
        return;
      }
      var hadTest := state.HasPending(TestPair);
      var hadHook := state.HasPending(HookPair);
      if (scenarioActive && !h.cucumber) || (h.cucumber && !h.failed)
        || (h.cucumber && plan && !hadTest && h.excluded) {
        return;
      }
      var kind := DeriveHookType(h);
      if h.failed && !hadTest && !hadHook {
        Push(TestStart(P.OrElse(h.title, "Hook failure"), h.start));
        PushDetails(h.details);
        Push(HookStart(P.OrElse(h.title, "Hook"), kind, h.start));
        Push(HookEnd(P.HookOutcome(h)));
        Push(P.BrokenTestEnd(h.outcome));
        return;
      }
      if h.failed && hadTest && !hadHook {
        Push(HookStart(P.HookName(h), kind, h.start));
      }
      if h.failed && !hadTest && hadHook {
        Push(TestStart(P.OrElse(h.title, "Hook failure"), h.start));
        PushDetails(h.details);
      }
      Push(HookEnd(P.HookOutcome(h)));
      if h.failed && !hadTest && hadHook {
        Push(P.BrokenTestEnd(h.outcome));
      }
    }

    method OnStep(m: Message)
      requires IsRuntime(m)
      modifies state`messages
      ensures View() == P.OnStep(old(View()), m)
    {
      if !planSkip {
        Push(m);
      }
    }

    method OnCommand(m: Message)
      requires IsRuntime(m)
      modifies state`messages
      ensures View() == P.OnCommand(old(View()), m)
    {
      var hasTest := state.HasPending(TestPair);
      var hasHook := state.HasPending(HookPair);
      if (hasTest || hasHook) && !planSkip {
        Push(m);
      }
    }

    /** The end of the worker: the log is replayed. */
    method OnRunnerEnd()
      requires state.View() == S.R.INIT
      modifies state
      ensures state.messages == old(state.messages) && state.View() == S.R.Report(state.messages)
    {
      state.ProcessRuntimeMessages();
    }
  }
}
