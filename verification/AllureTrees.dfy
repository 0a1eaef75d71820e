/** From a tree of suites and tests, reported event by event, to the scopes each test is started in. */
module AllureTrees {
  import opened Wrappers
  import opened AllureMessages
  import opened AllureProducer
  import opened AllureRuns
  import R = AllureReplay
  import Scopes = AllureScopes

  // ----- Details do not show in the outline

  lemma StructuralAppend(log: seq<Message>, m: Message)
    ensures Scopes.Structural(log + [m]) == Scopes.Structural(log) + if IsStructural(m) then [m] else []
  {
    assert R.Front(log + [m]) == log;
  }

  lemma {:induction false} StructuralDetails(p: Producer, ds: seq<Detail>)
    ensures Scopes.Structural(PushDetails(p, ds).log) == Scopes.Structural(p.log)
  {
    if ds != [] {
      var before := PushDetails(p, ds[..|ds| - 1]);
      StructuralDetails(p, ds[..|ds| - 1]);
      StructuralAppend(before.log, DetailMessage(ds[|ds| - 1]));
      assert Scopes.Structural(before.log) + [] == Scopes.Structural(before.log);
    }
  }

  // ----- Events of a tree

  /** The events of a forest: suites around their children, and every test started and passed. */
  function Events(f: Scopes.Forest): seq<Event> {
    match f
    case Nil => []
    case Suite(name, feature, children, rest) =>
      var s := SuiteOf(name, feature);
      [SuiteStarts(s)] + Events(children) + [SuiteEnds(s)] + Events(rest)
    case Test(name, start, outcome, rest) =>
      var t := TestOf(name, start, outcome);
      [TestStarts(t), TestPasses(t)] + Events(rest)
  }

  function SuiteOf(name: string, feature: bool): Suite {
    Suite(if feature then Feature else Describe, name, 0, [], false, SKIPPED)
  }

  function TestOf(name: string, start: int, outcome: Outcome): Test {
    Test(name, start, false, [FullName(name)], [], outcome)
  }

  /** The forest with every test passed. */
  function Passing(f: Scopes.Forest): Scopes.Forest {
    match f
    case Nil => Scopes.Nil
    case Suite(name, feature, children, rest) => Scopes.Suite(name, feature, Passing(children), Passing(rest))
    case Test(name, start, outcome, rest) =>
      Scopes.Test(name, start, outcome.(status := Passed, stage := Some(Finished), details := None), Passing(rest))
  }

  /** What a step of the run adds: these suite and test messages, and no suite stays on the stack. */
  ghost predicate Adds(p: Producer, q: Producer, ms: seq<Message>) {
    Scopes.Structural(q.log) == Scopes.Structural(p.log) + ms && q.stack == p.stack && !q.plan
  }

  lemma AddsConcat(p: Producer, q: Producer, r: Producer, a: seq<Message>, b: seq<Message>)
    requires Adds(p, q, a) && Adds(q, r, b)
    ensures Adds(p, r, a + b)
  {
    assert Scopes.Structural(p.log) + a + b == Scopes.Structural(p.log) + (a + b);
  }

  lemma TestAdds(p: Producer, name: string, start: int, outcome: Outcome)
    requires !p.plan
    ensures
      var t := TestOf(name, start, outcome);
      Adds(p, OnTestPass(OnTestStart(p, t), t),
           [TestStart(name, start), TestEnd(outcome.(status := Passed, stage := Some(Finished), details := None))])
  {
    hide Scopes.Structural, PushDetails;
    var t := TestOf(name, start, outcome);
    var p1 := Push(p, TestStart(name, start));
    StructuralAppend(p.log, TestStart(name, start));
    StructuralDetails(p1, t.details);
    DetailsSum(p1, t.details);
    var p2 := PushDetails(p1, t.details);
    assert OnTestStart(p, t) == p2;
    NoDetails(p2);
    var end := TestEnd(outcome.(status := Passed, stage := Some(Finished), details := None));
    StructuralAppend(p2.log, end);
    assert OnTestPass(p2, t) == Push(p2, end);
    assert Scopes.Structural(p.log) + [TestStart(name, start)] + [end] ==
           Scopes.Structural(p.log) + [TestStart(name, start), end];
  }

  lemma NoDetails(p: Producer)
    ensures PushDetails(p, []) == p
  {
  }

  /** Without a plan, the reporter's log of a forest has the forest's suite and test messages and no others. */
  lemma {:induction false} ForestRun(f: Scopes.Forest, p: Producer)
    requires !p.plan
    ensures Adds(p, Run(p, Events(f)), Scopes.Linear(Passing(f)))
    decreases f
  {
    hide Handle, Scopes.Structural, OnTestStart, OnTestPass;
    match f
    case Nil =>
      assert Scopes.Structural(p.log) + [] == Scopes.Structural(p.log);
    case Test(name, start, outcome, rest) =>
      var t := TestOf(name, start, outcome);
      var p1 := TestRun(p, name, start, outcome);
      RunConcat(p, [TestStarts(t), TestPasses(t)], Events(rest));
      ForestRun(rest, p1);
      var end := TestEnd(outcome.(status := Passed, stage := Some(Finished), details := None));
      AddsConcat(p, p1, Run(p1, Events(rest)), [TestStart(name, start), end], Scopes.Linear(Passing(rest)));
    case Suite(name, feature, children, rest) =>
      var s := SuiteOf(name, feature);
      var open, inner := [SuiteStarts(s)], Events(children);
      var p1 := SuiteStartRun(p, name, feature);
      ForestRun(children, p1);
      var p2 := Run(p1, inner);
      var p3 := SuiteEndRun(p, p1, p2, name, feature, Scopes.Linear(Passing(children)));
      RunConcat(p, open, inner);
      RunConcat(p, open + inner, [SuiteEnds(s)]);
      RunConcat(p, open + inner + [SuiteEnds(s)], Events(rest));
      ForestRun(rest, p3);
      AddsConcat(p, p3, Run(p3, Events(rest)),
                 [SuiteStart(name, feature)] + Scopes.Linear(Passing(children)) + [SuiteEnd],
                 Scopes.Linear(Passing(rest)));
  }

  lemma {:induction false} TestRun(p: Producer, name: string, start: int, outcome: Outcome) returns (q: Producer)
    requires !p.plan
    ensures var t := TestOf(name, start, outcome); q == Run(p, [TestStarts(t), TestPasses(t)])
    ensures Adds(p, q, [TestStart(name, start),
                        TestEnd(outcome.(status := Passed, stage := Some(Finished), details := None))])
  {
    var t := TestOf(name, start, outcome);
    TestAdds(p, name, start, outcome);
    assert [TestStarts(t)] + [TestPasses(t)] == [TestStarts(t), TestPasses(t)];
    RunConcat(p, [TestStarts(t)], [TestPasses(t)]);
    RunOne(p, TestStarts(t));
    RunOne(Handle(p, TestStarts(t)), TestPasses(t));
    q := Run(p, [TestStarts(t), TestPasses(t)]);
  }

  lemma {:induction false} SuiteStartRun(p: Producer, name: string, feature: bool) returns (q: Producer)
    requires !p.plan
    ensures q == Run(p, [SuiteStarts(SuiteOf(name, feature))]) && !q.plan && q.stack == p.stack + [name]
    ensures Scopes.Structural(q.log) == Scopes.Structural(p.log) + [SuiteStart(name, feature)]
  {
    RunOne(p, SuiteStarts(SuiteOf(name, feature)));
    StructuralAppend(p.log, SuiteStart(name, feature));
    q := Handle(p, SuiteStarts(SuiteOf(name, feature)));
  }

  lemma SuiteEndRun(p: Producer, p1: Producer, p2: Producer, name: string, feature: bool, ms: seq<Message>)
      returns (q: Producer)
    requires Scopes.Structural(p1.log) == Scopes.Structural(p.log) + [SuiteStart(name, feature)]
    requires p1.stack == p.stack + [name] && Adds(p1, p2, ms)
    ensures q == Run(p2, [SuiteEnds(SuiteOf(name, feature))])
    ensures Adds(p, q, [SuiteStart(name, feature)] + ms + [SuiteEnd])
  {
    RunOne(p2, SuiteEnds(SuiteOf(name, feature)));
    StructuralAppend(p2.log, SuiteEnd);
    q := Handle(p2, SuiteEnds(SuiteOf(name, feature)));
    assert p2.stack[..|p2.stack| - 1] == p.stack;
    assert Scopes.Structural(p.log) + [SuiteStart(name, feature)] + ms + [SuiteEnd] ==
           Scopes.Structural(p.log) + ([SuiteStart(name, feature)] + ms + [SuiteEnd]);
  }

  lemma {:induction false} PassingPlaces(f: Scopes.Forest, path: seq<string>, outer: seq<nat>, next: nat)
    ensures Scopes.ScopeCount(Passing(f)) == Scopes.ScopeCount(f)
    ensures Scopes.Places(Passing(f), path, outer, next) == Scopes.Places(f, path, outer, next)
    decreases f
  {
    match f
    case Nil =>
    case Suite(name, _, children, rest) =>
      PassingPlaces(children, path + [name], outer + [next], next + 1);
      PassingPlaces(rest, path, outer, next + 1 + Scopes.ScopeCount(children));
    case Test(name, _, _, rest) => PassingPlaces(rest, path, outer, next + 1);
  }

  /**
    End to end, for trees. Without a test plan, reporting any forest of suites and tests and replaying the log starts
    the tests in pre-order, each with exactly the scopes opened for its enclosing suites from the outside in,
    then its own.
   */
  lemma {:induction false} ReportedTree(f: Scopes.Forest, disableMochaHooks: bool)
    ensures
      var log := Run(Fresh(false, disableMochaHooks), Events(f)).log;
      var tests := Scopes.TestStarts(R.Replayed(log, |log|).trace);
      var names := Scopes.OutlineFrom(Scopes.BLANK, log).names;
      var places := Scopes.Places(f, [], [], 0);
      && |tests| == |places|
      && forall i :: 0 <= i < |tests| ==> Scopes.IsAt(tests[i], names, places[i])
  {
    hide Run, R.Replayed, Scopes.OutlineFrom, Scopes.Structural, Scopes.Places, Scopes.IsAt;
    var p := Fresh(false, disableMochaHooks);
    var log := Run(p, Events(f)).log;
    ForestRun(f, p);
    assert Scopes.Structural([]) == [] by { NothingStructural(); }
    assert [] + Scopes.Linear(Passing(f)) == Scopes.Linear(Passing(f));
    Scopes.TreeReconstruction(Passing(f), log);
    PassingPlaces(f, [], [], 0);
  }

  lemma NothingStructural()
    ensures Scopes.Structural([]) == []
  {
  }

  // ----- What a test plan does to the tree

  lemma {:induction false} OutlineDetails(o: Scopes.Outline, p: Producer, ds: seq<Detail>)
    ensures Scopes.OutlineFrom(o, PushDetails(p, ds).log).tests == Scopes.OutlineFrom(o, p.log).tests
  {
    Scopes.OutlineOfStructural(o, p.log);
    Scopes.OutlineOfStructural(o, PushDetails(p, ds).log);
    StructuralDetails(p, ds);
  }

  /**
    The number of scopes a test is started with: one for every suite on the reporter's stack, one more for each that it
    has started lazily, and its own. Which scopes they are is stated in `AllureLayout`.
   */
  lemma ScopesPerTest(p: Producer, t: Test)
    requires Balanced(p) && Alternating(p.log) && !TestPending(p) && !t.isStep
    ensures
      var tests := Scopes.OutlineFrom(Scopes.BLANK, OnTestStart(p, t).log).tests;
      && tests != [] && R.Last(tests).name == t.title
      && |R.Last(tests).scopes| == |p.stack| + (if p.plan then |p.stack| else 0) + 1
  {
    hide EnsureSuitesStarted, PushDetails, Balance, IsPending, Alternates, Scopes.NeverBelow;
    EnsureSum(p);
    var q, m := EnsureSuitesStarted(p), TestStart(t.title, t.start);
    assert Sum(q.log).suites == |p.stack| + q.started && Sum(q.log).suitesOk && Sum(q.log).testsOk && !Sum(q.log).test;
    AlternatesNeverBelow(q.log);
    AlternatingBalance(TestPair, q.log);
    Scopes.Heights(q.log);
    OutlineDetails(Scopes.BLANK, Push(q, m), t.details);
    assert R.Front(q.log + [m]) == q.log && R.Last(q.log + [m]) == m;
  }
}
