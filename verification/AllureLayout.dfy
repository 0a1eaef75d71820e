/**
  Which suites enclose each test of a run. Without a test plan a suite's scope opens when the suite starts. With one,
  every suite is started a second time right before the first test in it: suites that wait for their first test
  together form a batch, and their second scopes open together.
 */
module AllureLayout {
  import opened Wrappers
  import opened AllureMessages
  import opened AllureProducer
  import opened AllureRuns
  import R = AllureReplay
  import Scopes = AllureScopes

  /** What a scope was opened for: the n-th suite or the n-th test of the run. */
  datatype Owner = Owner(isTest: bool, number: nat, title: string)

  /** Suites started lazily together, outermost first. The first `live` of them have not ended. */
  datatype Batch = Batch(members: seq<Owner>, live: nat)

  /** A test and the owners of the scopes around its own, outermost first. */
  datatype Placed = Placed(name: string, around: seq<Owner>)

  /** The batches, the suites still waiting for a test, the number of suites so far, the owner of every scope opened,
      and the tests started. */
  datatype Layout = Layout(batches: seq<Batch>, waiting: seq<Owner>, suites: nat, owners: seq<Owner>,
                           tests: seq<Placed>)

  const EMPTY := Layout([], [], 0, [], [])

  // ----- Open suites and open scopes

  predicate Sound(bs: seq<Batch>) {
    forall i :: 0 <= i < |bs| ==> 1 <= bs[i].live <= |bs[i].members|
  }

  /** The suites of the batches that have not ended. */
  function LiveOf(bs: seq<Batch>): seq<Owner>
    requires Sound(bs)
  {
    if bs == [] then [] else LiveOf(R.Front(bs)) + R.Last(bs).members[..R.Last(bs).live]
  }

  /** The scopes a batch has open: each suite opened one when it started and one with the batch, and each end closes
      the last two that are left. */
  function ScopesOf(b: Batch): seq<Owner>
    requires b.live <= |b.members|
  {
    (b.members + b.members)[..2 * b.live]
  }

  function OpenOf(bs: seq<Batch>): seq<Owner>
    requires Sound(bs)
  {
    if bs == [] then [] else OpenOf(R.Front(bs)) + ScopesOf(R.Last(bs))
  }

  /** The suites that have not ended, outermost first. */
  function Stack(l: Layout): seq<Owner>
    requires Sound(l.batches)
  {
    LiveOf(l.batches) + l.waiting
  }

  /** The owners of the open suite scopes, outermost first. */
  function OpenOwners(l: Layout): seq<Owner>
    requires Sound(l.batches)
  {
    OpenOf(l.batches) + l.waiting
  }

  // ----- What events do to the layout

  function Stacked(l: Layout, title: string): Layout {
    var x := Owner(false, l.suites, title);
    l.(waiting := l.waiting + [x], suites := l.suites + 1, owners := l.owners + [x])
  }

  function Ensured(plan: bool, l: Layout): Layout {
    if !plan || l.waiting == [] then l
    else l.(batches := l.batches + [Batch(l.waiting, |l.waiting|)], waiting := [], owners := l.owners + l.waiting)
  }

  function OwnOf(tests: seq<Placed>): Owner
    requires tests != []
  {
    Owner(true, |tests| - 1, R.Last(tests).name)
  }

  function Tested(l: Layout, name: string): Layout
    requires Sound(l.batches)
  {
    var tests := l.tests + [Placed(name, OpenOwners(l))];
    l.(tests := tests, owners := l.owners + [OwnOf(tests)])
  }

  function PopBatch(bs: seq<Batch>): seq<Batch>
    requires bs != []
  {
    var b := R.Last(bs);
    if b.live <= 1 then R.Front(bs) else R.Front(bs) + [b.(live := b.live - 1)]
  }

  function SuitePopped(l: Layout): Layout {
    if l.waiting != [] then l.(waiting := R.Front(l.waiting))
    else if l.batches != [] then l.(batches := PopBatch(l.batches))
    else l
  }

  /** The name of the test an event starts. */
  function NewTest(p: Producer, e: Event): Option<string> {
    match e
    case SuiteStarts(s) => if s.kind.Scenario? then Some(s.title) else None
    case TestStarts(t) => if t.isStep then None else Some(t.title)
    case TestFails(t) => if t.isStep || TestPending(p) then None else Some(t.title)
    case TestSkips(t) => if t.isStep || TestPending(p) then None else Some(t.title)
    case HookEnds(h) =>
      if h.failed && !IgnoresHookEnd(p, h) && !TestPending(p) then Some(OrElse(h.title, "Hook failure")) else None
    case _ => None
  }

  /** Whether the waiting suites are started first: not before a skipped test or the test that stands for a failed
      hook. */
  predicate StartsSuites(e: Event) {
    !e.TestSkips? && !e.HookEnds?
  }

  /** The layout at the moment the event starts its test. */
  function AtStart(p: Producer, l: Layout, e: Event): Layout {
    if StartsSuites(e) then Ensured(p.plan, l) else l
  }

  function Arrange(p: Producer, l: Layout, e: Event): Layout
    requires Sound(l.batches)
  {
    if NewTest(p, e).Some? then Tested(AtStart(p, l, e), NewTest(p, e).value)
    else if e.SuiteStarts? then Stacked(l, e.suite.title)
    else if e.SuiteEnds? && !e.suite.kind.Scenario? then SuitePopped(l)
    else l
  }

  function Arranged(p: Producer, es: seq<Event>): (l: Layout)
    ensures Sound(l.batches)
  {
    if es == [] then EMPTY
    else
      var before, e := es[..|es| - 1], es[|es| - 1];
      SoundStays(Run(p, before), Arranged(p, before), e);
      Arrange(Run(p, before), Arranged(p, before), e)
  }

  lemma SoundStays(p: Producer, l: Layout, e: Event)
    requires Sound(l.batches)
    ensures Sound(Arrange(p, l, e).batches)
  {
    hide NewTest, TestPending, IgnoresHookEnd;
  }

  // ----- Ends of suites

  lemma PopOne(bs: seq<Batch>)
    requires bs != [] && Sound(bs)
    ensures Sound(PopBatch(bs)) && LiveOf(bs) != [] && |OpenOf(bs)| >= 2
    ensures LiveOf(PopBatch(bs)) == R.Front(LiveOf(bs))
    ensures OpenOf(PopBatch(bs)) == OpenOf(bs)[..|OpenOf(bs)| - 2]
  {
    hide ScopesOf, LiveOf, OpenOf;
    var b, rest := R.Last(bs), R.Front(bs);
    BatchPops(b);
    assert bs == rest + [b];
    OneMore(rest, b);
    AppendTakes(LiveOf(rest), b.members[..b.live], 1);
    AppendTakes(OpenOf(rest), ScopesOf(b), 2);
    if b.live > 1 {
      OneMore(rest, b.(live := b.live - 1));
    }
  }

  lemma OneMore(bs: seq<Batch>, b: Batch)
    requires Sound(bs) && 1 <= b.live <= |b.members|
    ensures Sound(bs + [b]) && LiveOf(bs + [b]) == LiveOf(bs) + b.members[..b.live]
            && OpenOf(bs + [b]) == OpenOf(bs) + ScopesOf(b)
  {
    hide ScopesOf;
    assert R.Front(bs + [b]) == bs && R.Last(bs + [b]) == b;
  }

  lemma BatchPops(b: Batch)
    requires 1 <= b.live <= |b.members|
    ensures |ScopesOf(b)| == 2 * b.live
    ensures b.live > 1 ==> ScopesOf(b.(live := b.live - 1)) == ScopesOf(b)[..|ScopesOf(b)| - 2]
    ensures b.members[..b.live][..b.live - 1] == b.members[..b.live - 1]
  {
  }

  lemma AppendTakes<T>(a: seq<T>, b: seq<T>, n: nat)
    requires n <= |b|
    ensures (a + b)[..|a + b| - n] == a + b[..|b| - n]
    ensures |b| == n ==> (a + b)[..|a + b| - n] == a
  {
  }

  // ----- The layout against the outline

  /** The scopes belong to these owners. */
  ghost predicate Belong(scopes: seq<nat>, owners: seq<Owner>, xs: seq<Owner>) {
    |scopes| == |xs| && forall i :: 0 <= i < |scopes| ==> scopes[i] < |owners| && owners[scopes[i]] == xs[i]
  }

  ghost predicate HaveTitles(xs: seq<Owner>, names: seq<string>) {
    |xs| == |names| && forall i :: 0 <= i < |xs| ==> names[i] == xs[i].title
  }

  ghost predicate IsPlaced(t: Scopes.Started, owners: seq<Owner>, tests: seq<Placed>, i: nat)
    requires i < |tests|
  {
    && t.test == i && t.name == tests[i].name
    && Belong(t.scopes, owners, tests[i].around + [Owner(true, i, tests[i].name)])
  }

  /** In the outline of the log every scope has its owner, `open` owns the scope stack, the tests stand where they are
      placed, and one runs or none. */
  ghost predicate Holds(log: seq<Message>, owners: seq<Owner>, open: seq<Owner>, tests: seq<Placed>, running: bool) {
    var o := Scopes.OutlineFrom(Scopes.BLANK, log);
    && HaveTitles(owners, o.names) && Belong(o.scopes, owners, open)
    && |o.tests| == |tests| && (forall i :: 0 <= i < |tests| ==> IsPlaced(o.tests[i], owners, tests, i))
    && |o.running| == (if running then 1 else 0) && (running <==> IsPending(TestPair, log))
  }

  lemma OutlineAppend(log: seq<Message>, m: Message)
    ensures Scopes.OutlineFrom(Scopes.BLANK, log + [m]) == Scopes.OutlineStep(Scopes.OutlineFrom(Scopes.BLANK, log), m)
    ensures IsPending(TestPair, log + [m]) <==> m.TestStart? || (!m.TestEnd? && IsPending(TestPair, log))
  {
    assert R.Front(log + [m]) == log;
  }

  lemma {:induction false} BelongMore(scopes: seq<nat>, owners: seq<Owner>, xs: seq<Owner>, x: Owner)
    requires Belong(scopes, owners, xs)
    ensures Belong(scopes, owners + [x], xs) && Belong(scopes + [|owners|], owners + [x], xs + [x])
  {
  }

  lemma {:induction false} HoldsSuiteStart(log: seq<Message>, owners: seq<Owner>, open: seq<Owner>, tests: seq<Placed>,
                                           x: Owner, feature: bool)
    requires Holds(log, owners, open, tests, false)
    ensures Holds(log + [SuiteStart(x.title, feature)], owners + [x], open + [x], tests, false)
  {
    hide Scopes.OutlineFrom, IsPending, Belong;
    var o := Scopes.OutlineFrom(Scopes.BLANK, log);
    OutlineAppend(log, SuiteStart(x.title, feature));
    BelongMore(o.scopes, owners, open, x);
    forall i | 0 <= i < |tests|
      ensures IsPlaced(o.tests[i], owners + [x], tests, i)
    {
      BelongMore(o.tests[i].scopes, owners, tests[i].around + [Owner(true, i, tests[i].name)], x);
    }
  }

  lemma BelongFewer(scopes: seq<nat>, owners: seq<Owner>, xs: seq<Owner>)
    requires Belong(scopes, owners, xs) && xs != []
    ensures scopes != [] && Belong(R.Front(scopes), owners, R.Front(xs))
  {
  }

  lemma {:induction false} HoldsEnd(log: seq<Message>, owners: seq<Owner>, open: seq<Owner>, tests: seq<Placed>,
                                    running: bool, m: Message)
    requires Holds(log, owners, open, tests, running) && open != [] && (m.SuiteEnd? || (m.TestEnd? && running))
    ensures Holds(log + [m], owners, R.Front(open), tests, running && m.SuiteEnd?)
  {
    hide Scopes.OutlineFrom, IsPending, Belong;
    OutlineAppend(log, m);
    BelongFewer(Scopes.OutlineFrom(Scopes.BLANK, log).scopes, owners, open);
  }

  lemma {:induction false} HoldsTestStart(log: seq<Message>, owners: seq<Owner>, open: seq<Owner>, tests: seq<Placed>,
                                          name: string, start: int)
    requires Holds(log, owners, open, tests, false)
    ensures
      var all := tests + [Placed(name, open)];
      Holds(log + [TestStart(name, start)], owners + [OwnOf(all)], open + [OwnOf(all)], all, true)
  {
    hide Scopes.OutlineFrom, IsPending, Belong;
    var o, all := Scopes.OutlineFrom(Scopes.BLANK, log), tests + [Placed(name, open)];
    var x := OwnOf(all);
    OutlineAppend(log, TestStart(name, start));
    BelongMore(o.scopes, owners, open, x);
    forall i | 0 <= i < |tests|
      ensures IsPlaced(o.tests[i], owners + [x], all, i)
    {
      assert all[i] == tests[i];
      BelongMore(o.tests[i].scopes, owners, tests[i].around + [Owner(true, i, tests[i].name)], x);
    }
  }

  lemma {:induction false} HoldsOther(log: seq<Message>, owners: seq<Owner>, open: seq<Owner>, tests: seq<Placed>,
                                      running: bool, m: Message)
    requires Holds(log, owners, open, tests, running) && !IsStructural(m)
    ensures Holds(log + [m], owners, open, tests, running)
  {
    hide Scopes.OutlineFrom, IsPending, Belong;
    OutlineAppend(log, m);
  }

  lemma {:induction false} HoldsDetails(p: Producer, ds: seq<Detail>, owners: seq<Owner>, open: seq<Owner>,
                                        tests: seq<Placed>, running: bool)
    requires Holds(p.log, owners, open, tests, running)
    ensures Holds(PushDetails(p, ds).log, owners, open, tests, running)
    ensures PushDetails(p, ds) == p.(log := PushDetails(p, ds).log)
  {
    hide Holds;
    if ds != [] {
      HoldsDetails(p, ds[..|ds| - 1], owners, open, tests, running);
      HoldsOther(PushDetails(p, ds[..|ds| - 1]).log, owners, open, tests, running, DetailMessage(ds[|ds| - 1]));
    }
  }

  /** Starting the suites of the stack from `from` on, which are `xs`. */
  lemma {:induction false} HoldsSuites(p: Producer, from: nat, owners: seq<Owner>, open: seq<Owner>, tests: seq<Placed>,
                                       xs: seq<Owner>)
    requires Holds(p.log, owners, open, tests, false) && from <= |p.stack| && HaveTitles(xs, p.stack[from..])
    ensures Holds(StartSuites(p, from).log, owners + xs, open + xs, tests, false)
    ensures StartSuites(p, from) == p.(log := StartSuites(p, from).log)
    decreases |xs|
  {
    hide Holds;
    if xs == [] {
      assert owners + xs == owners && open + xs == open;
    } else {
      assert p.stack[from..][0] == p.stack[from];
      var q := Push(p, SuiteStart(p.stack[from], false));
      HoldsSuiteStart(p.log, owners, open, tests, xs[0], false);
      assert HaveTitles(xs[1..], q.stack[from + 1..]);
      HoldsSuites(q, from + 1, owners + [xs[0]], open + [xs[0]], tests, xs[1..]);
      assert owners + [xs[0]] + xs[1..] == owners + xs && open + [xs[0]] + xs[1..] == open + xs;
    }
  }

  // ----- The layout against the reporter

  function OwnIf(running: bool, tests: seq<Placed>): seq<Owner> {
    if running && tests != [] then [OwnOf(tests)] else []
  }

  ghost predicate Mirrors(p: Producer, l: Layout) {
    && Sound(l.batches) && HaveTitles(Stack(l), p.stack) && p.started == |LiveOf(l.batches)|
    && (!p.plan ==> l.batches == [])
    && Holds(p.log, l.owners, OpenOwners(l) + OwnIf(TestPending(p), l.tests), l.tests, TestPending(p))
    && (TestPending(p) ==> l.tests != [])
  }

  /** No suite begins or ends inside a test. */
  predicate Between(p: Producer, e: Event) {
    (e.SuiteStarts? || e.SuiteEnds?) && !e.suite.kind.Scenario? ==> !TestPending(p)
  }

  lemma MirrorsSound(p: Producer, l: Layout)
    requires Mirrors(p, l)
    ensures Sound(l.batches)
  {
  }

  lemma EnsuredOpen(plan: bool, l: Layout)
    requires Sound(l.batches)
    ensures
      var k := Ensured(plan, l);
      && Sound(k.batches) && Stack(k) == Stack(l) && k.tests == l.tests
      && OpenOwners(k) == OpenOwners(l) + (if plan then l.waiting else [])
      && k.owners == l.owners + (if plan then l.waiting else [])
      && |LiveOf(k.batches)| == (if plan then |Stack(l)| else |LiveOf(l.batches)|)
  {
    if plan && l.waiting != [] {
      var b := Batch(l.waiting, |l.waiting|);
      assert R.Front(l.batches + [b]) == l.batches && R.Last(l.batches + [b]) == b;
      assert ScopesOf(b) == l.waiting + l.waiting && b.members[..b.live] == l.waiting;
    }
  }

  lemma {:induction false} EnsureMirrors(p: Producer, l: Layout)
    requires Mirrors(p, l) && !TestPending(p)
    ensures Mirrors(EnsureSuitesStarted(p), Ensured(p.plan, l)) && !TestPending(EnsureSuitesStarted(p))
  {
    hide Ensured, Holds, LiveOf, OpenOf;
    EnsuredOpen(p.plan, l);
    assert OpenOwners(l) + OwnIf(false, l.tests) == OpenOwners(l);
    var k := Ensured(p.plan, l);
    assert OpenOwners(k) + OwnIf(false, k.tests) == OpenOwners(k);
    if p.plan {
      assert HaveTitles(l.waiting, p.stack[p.started..]);
      HoldsSuites(p, p.started, l.owners, OpenOwners(l), l.tests, l.waiting);
      HoldsPending(StartSuites(p, p.started).log, k.owners, OpenOwners(k), k.tests, false);
    } else {
      EnsuredWithout(l);
    }
  }

  lemma EnsuredWithout(l: Layout)
    ensures Ensured(false, l) == l
  {
  }

  lemma HoldsPending(log: seq<Message>, owners: seq<Owner>, open: seq<Owner>, tests: seq<Placed>, running: bool)
    requires Holds(log, owners, open, tests, running)
    ensures running <==> IsPending(TestPair, log)
  {
  }

  /** A test starts, and details follow. */
  lemma {:induction false} StartMirrors(p: Producer, l: Layout, name: string, start: int, ds: seq<Detail>)
    requires Mirrors(p, l) && !TestPending(p)
    ensures
      var q := PushDetails(Push(p, TestStart(name, start)), ds);
      Mirrors(q, Tested(l, name)) && TestPending(q) && q == p.(log := q.log)
  {
    hide Holds, LiveOf, OpenOf, IsPending;
    var k, r := Tested(l, name), Push(p, TestStart(name, start));
    var q := PushDetails(r, ds);
    assert OpenOwners(l) + OwnIf(false, l.tests) == OpenOwners(l);
    HoldsTestStart(p.log, l.owners, OpenOwners(l), l.tests, name, start);
    HoldsDetails(r, ds, k.owners, OpenOwners(k) + [OwnOf(k.tests)], k.tests, true);
    HoldsPending(q.log, k.owners, OpenOwners(k) + [OwnOf(k.tests)], k.tests, true);
  }

  /** The test that runs ends, after details. */
  lemma {:induction false} EndMirrors(p: Producer, l: Layout, ds: seq<Detail>, o: Outcome)
    requires Mirrors(p, l) && TestPending(p)
    ensures var q := Push(PushDetails(p, ds), TestEnd(o)); Mirrors(q, l) && !TestPending(q) && q == p.(log := q.log)
  {
    hide Holds, LiveOf, OpenOf, IsPending;
    var open := OpenOwners(l) + [OwnOf(l.tests)];
    HoldsDetails(p, ds, l.owners, open, l.tests, true);
    HoldsEnd(PushDetails(p, ds).log, l.owners, open, l.tests, true, TestEnd(o));
    assert R.Front(open) == OpenOwners(l) && OpenOwners(l) + OwnIf(false, l.tests) == OpenOwners(l);
    HoldsPending(PushDetails(p, ds).log + [TestEnd(o)], l.owners, OpenOwners(l), l.tests, false);
  }

  lemma {:induction false} OtherMirrors(p: Producer, l: Layout, m: Message)
    requires Mirrors(p, l) && !IsStructural(m)
    ensures Mirrors(Push(p, m), l) && TestPending(Push(p, m)) == TestPending(p)
  {
    hide Holds, LiveOf, OpenOf, IsPending, OwnIf;
    var open := OpenOwners(l) + OwnIf(TestPending(p), l.tests);
    HoldsOther(p.log, l.owners, open, l.tests, TestPending(p), m);
    HoldsPending(p.log + [m], l.owners, open, l.tests, TestPending(p));
  }

  lemma {:induction false} DetailsMirror(p: Producer, l: Layout, ds: seq<Detail>)
    requires Mirrors(p, l)
    ensures Mirrors(PushDetails(p, ds), l) && TestPending(PushDetails(p, ds)) == TestPending(p)
    ensures PushDetails(p, ds) == p.(log := PushDetails(p, ds).log)
  {
    hide Mirrors, TestPending;
    if ds != [] {
      DetailsMirror(p, l, ds[..|ds| - 1]);
      OtherMirrors(PushDetails(p, ds[..|ds| - 1]), l, DetailMessage(ds[|ds| - 1]));
    }
  }

  lemma FlagsMirror(p: Producer, l: Layout, skip: bool, active: bool)
    ensures Mirrors(p.(planSkip := skip, scenarioActive := active), l) <==> Mirrors(p, l)
  {
  }

  lemma {:induction false} StackMirrors(p: Producer, l: Layout, title: string, feature: bool)
    requires Mirrors(p, l) && !TestPending(p)
    ensures Mirrors(Push(p.(stack := p.stack + [title]), SuiteStart(title, feature)), Stacked(l, title))
  {
    hide Holds, LiveOf, OpenOf, IsPending;
    var k, x := Stacked(l, title), Owner(false, l.suites, title);
    assert OpenOwners(l) + OwnIf(false, l.tests) == OpenOwners(l) && OpenOwners(k) == OpenOwners(l) + [x]
           && Stack(k) == Stack(l) + [x];
    HoldsSuiteStart(p.log, l.owners, OpenOwners(l), l.tests, x, feature);
    assert OpenOwners(k) + OwnIf(false, k.tests) == OpenOwners(k);
    HoldsPending(p.log + [SuiteStart(title, feature)], k.owners, OpenOwners(k), k.tests, false);
  }

  /** A suite that waits closes its one scope; any other closes two. */
  lemma {:induction false} WaitingEndMirrors(p: Producer, l: Layout)
    requires Mirrors(p, l) && !TestPending(p) && l.waiting != []
    ensures p.started < |p.stack|
    ensures Mirrors(Push(p, SuiteEnd).(stack := p.stack[..|p.stack| - 1]), SuitePopped(l))
  {
    hide Holds, LiveOf, OpenOf, IsPending;
    var k := SuitePopped(l);
    assert OpenOwners(l) + OwnIf(false, l.tests) == OpenOwners(l)
           && OpenOwners(k) + OwnIf(false, k.tests) == OpenOwners(k);
    HoldsEnd(p.log, l.owners, OpenOwners(l), l.tests, false, SuiteEnd);
    assert R.Front(OpenOwners(l)) == OpenOwners(k) && R.Front(Stack(l)) == Stack(k);
    HoldsPending(p.log + [SuiteEnd], k.owners, OpenOwners(k), k.tests, false);
  }

  lemma {:induction false} BatchEndMirrors(p: Producer, l: Layout)
    requires Mirrors(p, l) && !TestPending(p) && l.waiting == [] && p.stack != []
    ensures p.plan && p.started == |p.stack|
    ensures
      var q := Push(Push(p, SuiteEnd), SuiteEnd);
      Mirrors(q.(started := p.started - 1, stack := p.stack[..|p.stack| - 1]), SuitePopped(l))
  {
    hide Holds, IsPending, LiveOf, OpenOf, PopBatch;
    assert Stack(l) == LiveOf(l.batches) && OpenOwners(l) == OpenOf(l.batches);
    assert l.batches != [] by { assert LiveOf([]) == [] by { NoneLive(); } }
    var k, open := SuitePopped(l), OpenOwners(l);
    PopOne(l.batches);
    assert Stack(k) == LiveOf(k.batches) && OpenOwners(k) == OpenOf(k.batches);
    assert open + OwnIf(false, l.tests) == open && OpenOwners(k) + OwnIf(false, k.tests) == OpenOwners(k);
    HoldsEnd(p.log, l.owners, open, l.tests, false, SuiteEnd);
    HoldsEnd(p.log + [SuiteEnd], l.owners, R.Front(open), l.tests, false, SuiteEnd);
    assert R.Front(R.Front(open)) == OpenOwners(k);
    HoldsPending(p.log + [SuiteEnd] + [SuiteEnd], k.owners, OpenOwners(k), k.tests, false);
  }

  lemma NoneLive()
    ensures LiveOf([]) == []
  {
  }

  // ----- Events

  lemma {:induction false} SuiteStartMirrors(p: Producer, l: Layout, s: Suite)
    requires Mirrors(p, l) && FitsTest(p, SuiteStarts(s)) && Between(p, SuiteStarts(s))
    ensures Mirrors(OnSuiteStart(p, s), Arrange(p, l, SuiteStarts(s)))
  {
    hide Mirrors, EnsureSuitesStarted, PushDetails, Push, TestPending, Ensured, Tested, Stacked;
    FlagsMirror(p, l, p.planSkip, true);
    FlagsMirror(p, l, p.planSkip, false);
    assert TestPending(p.(scenarioActive := true)) == TestPending(p) == TestPending(p.(scenarioActive := false))
           by { FlagsPending(p); }
    if s.kind.Scenario? {
      var p0 := p.(scenarioActive := true);
      EnsureMirrors(p0, l);
      MirrorsSound(EnsureSuitesStarted(p0), Ensured(p.plan, l));
      var p1, k := EnsureSuitesStarted(p0), Ensured(p.plan, l);
      StartMirrors(p1, k, s.title, s.start, s.details);
      var p2 := PushDetails(Push(p1, TestStart(s.title, s.start)), s.details);
      var p3 := p2.(planSkip := true);
      FlagsMirror(p2, Tested(k, s.title), true, p2.scenarioActive);
      assert TestPending(p3) == TestPending(p2) by { FlagsPending(p2); }
      EndMirrors(p3, Tested(k, s.title), [], SKIPPED);
      NoDetails(p3);
    } else {
      StackMirrors(p, l, s.title, false);
      StackMirrors(p.(scenarioActive := false), l, s.title, true);
    }
  }

  lemma FlagsPending(p: Producer)
    ensures forall b :: TestPending(p.(scenarioActive := b)) == TestPending(p)
    ensures forall b :: TestPending(p.(planSkip := b)) == TestPending(p)
    ensures TestPending(p.(planSkip := false, scenarioActive := false)) == TestPending(p)
  {
  }

  lemma NoDetails(p: Producer)
    ensures PushDetails(p, []) == p
  {
  }

  lemma {:induction false} SuiteEndMirrors(p: Producer, l: Layout, s: Suite)
    requires Mirrors(p, l) && FitsTest(p, SuiteEnds(s)) && Nests(p, SuiteEnds(s)) && Between(p, SuiteEnds(s))
    ensures Mirrors(OnSuiteEnd(p, s), Arrange(p, l, SuiteEnds(s)))
  {
    hide PushDetails, TestPending, SuitePopped, Mirrors;
    if s.kind.Scenario? {
      FlagsMirror(p, l, false, false);
      FlagsMirror(p, l, p.planSkip, false);
      FlagsPending(p);
      if !p.planSkip {
        EndMirrors(p.(scenarioActive := false), l, s.details, s.outcome);
      }
    } else if l.waiting != [] {
      WaitingEndMirrors(p, l);
    } else {
      BatchEndMirrors(p, l);
    }
  }

  lemma {:induction false} TestStartMirrors(p: Producer, l: Layout, t: Test)
    requires Mirrors(p, l) && (t.isStep || !TestPending(p))
    ensures Mirrors(OnTestStart(p, t), Arrange(p, l, TestStarts(t)))
    ensures !t.isStep ==> TestPending(OnTestStart(p, t))
  {
    hide Mirrors, EnsureSuitesStarted, PushDetails, Push, TestPending, Ensured, Tested;
    if !t.isStep {
      EnsureMirrors(p, l);
      MirrorsSound(EnsureSuitesStarted(p), Ensured(p.plan, l));
      StartMirrors(EnsureSuitesStarted(p), Ensured(p.plan, l), t.title, t.start, t.details);
    } else {
      OtherMirrors(p, l, StepStart(t.title, t.start));
      DetailsMirror(Push(p, StepStart(t.title, t.start)), l, t.details);
    }
  }

  lemma {:induction false} EndOrStopMirrors(p: Producer, l: Layout, t: Test, o: Outcome)
    requires Mirrors(p, l) && (t.isStep || TestPending(p))
    ensures Mirrors(EndOrStop(p, t, o), l)
  {
    hide Mirrors, PushDetails, Push, TestPending;
    DetailsMirror(p, l, t.logs);
    if t.isStep {
      OtherMirrors(PushDetails(p, t.logs), l, StepStop(o.status, o.stop, o.details));
    } else {
      EndMirrors(p, l, t.logs, o);
    }
  }

  lemma {:induction false} HookStartMirrors(p: Producer, l: Layout, h: Hook)
    requires Mirrors(p, l)
    ensures Mirrors(OnHookStart(p, h), l)
  {
    hide Mirrors, Push, TestPending, DeriveHookType;
    FlagsMirror(p, l, true, p.scenarioActive);
    OtherMirrors(p, l, HookStart(HookName(h), DeriveHookType(p, h), h.start));
  }

  lemma {:induction false} HookEndMirrors(p: Producer, l: Layout, h: Hook)
    requires Mirrors(p, l)
    ensures Mirrors(OnHookEnd(p, h), Arrange(p, l, HookEnds(h)))
  {
    hide Mirrors, PushDetails, Push, TestPending, HookPending, DeriveHookType, IgnoresHookEnd, HookOutcome, Tested,
         OrElse;
    var kind, end := DeriveHookType(p, h), HookEnd(HookOutcome(h));
    MirrorsSound(p, l);
    if !IgnoresHookEnd(p, h) {
      if h.failed && !TestPending(p) {
        var name := OrElse(h.title, "Hook failure");
        var k := Tested(l, name);
        StartMirrors(p, l, name, h.start, h.details);
        var p1 := PushDetails(Push(p, TestStart(name, h.start)), h.details);
        HookInTest(p1, k, h, HookStart(OrElse(h.title, "Hook"), kind, h.start));
      } else {
        OtherMirrors(p, l, HookStart(HookName(h), kind, h.start));
        OtherMirrors(Push(p, HookStart(HookName(h), kind, h.start)), l, end);
        OtherMirrors(p, l, end);
      }
    }
  }

  /** The hook messages and the end of the test that stands for a failed hook. */
  lemma {:induction false} HookInTest(p: Producer, l: Layout, h: Hook, start: Message)
    requires Mirrors(p, l) && TestPending(p) && start.HookStart?
    ensures Mirrors(Push(Push(p, HookEnd(HookOutcome(h))), BrokenTestEnd(h.outcome)), l)
    ensures Mirrors(Push(Push(Push(p, start), HookEnd(HookOutcome(h))), BrokenTestEnd(h.outcome)), l)
  {
    hide Mirrors, PushDetails, Push, TestPending, HookOutcome;
    var end, o := HookEnd(HookOutcome(h)), BrokenTestEnd(h.outcome).outcome;
    OtherMirrors(p, l, end);
    NoDetails(Push(p, end));
    EndMirrors(Push(p, end), l, [], o);
    OtherMirrors(p, l, start);
    OtherMirrors(Push(p, start), l, end);
    NoDetails(Push(Push(p, start), end));
    EndMirrors(Push(Push(p, start), end), l, [], o);
  }

  lemma {:induction false} TestFailMirrors(p: Producer, l: Layout, t: Test)
    requires Mirrors(p, l)
    ensures Mirrors(OnTestFail(p, t), Arrange(p, l, TestFails(t)))
  {
    hide Mirrors, OnTestStart, EndOrStop, TestPending, Ensured, Tested;
    MirrorsSound(p, l);
    var p1 := if t.isStep || TestPending(p) then p else OnTestStart(p, t);
    if !t.isStep && !TestPending(p) {
      TestStartMirrors(p, l, t);
    }
    EndOrStopMirrors(p1, Arrange(p, l, TestFails(t)), t, t.outcome.(stage := Some(Finished)));
  }

  lemma {:induction false} TestSkipMirrors(p: Producer, l: Layout, t: Test)
    requires Mirrors(p, l)
    ensures Mirrors(OnTestSkip(p, t), Arrange(p, l, TestSkips(t)))
  {
    hide Mirrors, PushDetails, Push, EndOrStop, TestPending, Tested;
    MirrorsSound(p, l);
    var p1 := if t.isStep || TestPending(p) then p else PushDetails(Push(p, TestStart(t.title, t.start)), t.details);
    if !t.isStep && !TestPending(p) {
      StartMirrors(p, l, t.title, t.start, t.details);
    }
    EndOrStopMirrors(p1, Arrange(p, l, TestSkips(t)), t, SKIPPED);
  }

  /** One event: the layout goes on mirroring the reporter and what replaying its log does. */
  lemma {:induction false} HandleMirrors(p: Producer, l: Layout, e: Event)
    requires Mirrors(p, l) && FitsTest(p, e) && Nests(p, e) && Between(p, e)
    ensures Mirrors(Handle(p, e), Arrange(p, l, e))
  {
    hide Mirrors, OnSuiteStart, OnSuiteEnd, OnTestStart, OnTestFail, OnTestSkip, OnHookStart, OnHookEnd, EndOrStop,
         Push;
    hide TestPending, Tested, Ensured, IgnoresHookEnd;
    match e
    case SuiteStarts(s) => SuiteStartMirrors(p, l, s);
    case SuiteEnds(s) => SuiteEndMirrors(p, l, s);
    case TestStarts(t) => TestStartMirrors(p, l, t);
    case TestPasses(t) => EndOrStopMirrors(p, l, t,
      t.outcome.(status := Passed, stage := Some(Finished), details := None));
    case TestRetries(t) => EndOrStopMirrors(p, l, t, t.outcome.(stage := None));
    case TestFails(t) => TestFailMirrors(p, l, t);
    case TestSkips(t) => TestSkipMirrors(p, l, t);
    case TestPends(t) => PendingIsStop(p, t); if t.isStep { EndOrStopMirrors(p, l, t, SKIPPED); }
    case HookStarts(h) => HookStartMirrors(p, l, h);
    case HookEnds(h) => HookEndMirrors(p, l, h);
    case StepEvent(m) => if IsRuntime(m) { OtherMirrors(p, l, m); }
    case CommandEvent(m) => if IsRuntime(m) { OtherMirrors(p, l, m); }
    case ApiCall(d) => OtherMirrors(p, l, DetailMessage(d));
  }

  // ----- Whole runs

  /** Every event nests, fits the pending test and leaves tests alone when it opens or closes a suite. */
  ghost predicate InPlace(p: Producer, es: seq<Event>) {
    WellFormed(p, es) && forall k :: 0 <= k < |es| ==> Between(Run(p, es[..k]), es[k])
  }

  lemma InPlaceSplit(p: Producer, es: seq<Event>)
    requires es != [] && InPlace(p, es)
    ensures
      var before, q, e := es[..|es| - 1], Run(p, es[..|es| - 1]), es[|es| - 1];
      InPlace(p, before) && FitsTest(q, e) && Nests(q, e) && Between(q, e)
  {
    hide Run, FitsTest, Nests, Between;
    var before := es[..|es| - 1];
    assert forall k :: 0 <= k < |before| ==> before[..k] == es[..k] && before[k] == es[k];
  }

  lemma InPlacePrefix(p: Producer, es: seq<Event>, k: nat)
    requires k <= |es| && InPlace(p, es)
    ensures InPlace(p, es[..k])
  {
    hide Run, FitsTest, Nests, Between;
    assert forall i :: 0 <= i < k ==> es[..k][..i] == es[..i] && es[..k][i] == es[i];
  }

  lemma FreshMirrors(plan: bool, disableMochaHooks: bool)
    ensures Mirrors(Fresh(plan, disableMochaHooks), EMPTY)
  {
  }

  lemma {:induction false} RunMirrors(plan: bool, disableMochaHooks: bool, es: seq<Event>)
    requires InPlace(Fresh(plan, disableMochaHooks), es)
    ensures var p := Fresh(plan, disableMochaHooks); Mirrors(Run(p, es), Arranged(p, es))
  {
    hide Handle, Arrange, Mirrors, InPlace, FitsTest, Nests, Between;
    var p := Fresh(plan, disableMochaHooks);
    if es == [] {
      FreshMirrors(plan, disableMochaHooks);
    } else {
      var before, e := es[..|es| - 1], es[|es| - 1];
      InPlaceSplit(p, es);
      RunMirrors(plan, disableMochaHooks, before);
      HandleMirrors(Run(p, before), Arranged(p, before), e);
    }
  }

  function TitlesOf(xs: seq<Owner>): (r: seq<string>)
    ensures HaveTitles(xs, r)
  {
    seq(|xs|, i requires 0 <= i < |xs| => xs[i].title)
  }

  /** The test was started as the `i`-th, in scopes opened for the owners around it and its own, under their titles. */
  ghost predicate IsPlacedAs(t: Scopes.Started, names: seq<string>, owners: seq<Owner>, tests: seq<Placed>, i: nat)
    requires i < |tests|
  {
    && IsPlaced(t, owners, tests, i)
    && Scopes.InRange(t.scopes, names) && Scopes.Titles(t.scopes, names) == TitlesOf(tests[i].around) + [tests[i].name]
  }

  lemma PlacedTitles(t: Scopes.Started, names: seq<string>, owners: seq<Owner>, tests: seq<Placed>, i: nat)
    requires i < |tests| && IsPlaced(t, owners, tests, i) && HaveTitles(owners, names)
    ensures IsPlacedAs(t, names, owners, tests, i)
  {
    var around, own := tests[i].around, Owner(true, i, tests[i].name);
    assert forall k :: 0 <= k < |t.scopes| ==>
             t.scopes[k] < |owners| && names[t.scopes[k]] == (around + [own])[k].title;
  }

  /**
    Which scopes each test is started in. For every run of framework events that nest, fit the pending test and leave
    tests alone when they open or close a suite, with or without a test plan, with any tests, steps and hooks, passing
    or failing: replaying the produced log opens a scope for each owner in turn and starts exactly the tests of the
    layout, in order, each in the scopes of the owners around it and then its own.
   */
  lemma {:induction false} RunPlacesTests(plan: bool, disableMochaHooks: bool, es: seq<Event>)
    requires InPlace(Fresh(plan, disableMochaHooks), es)
    ensures
      var p, l := Run(Fresh(plan, disableMochaHooks), es), Arranged(Fresh(plan, disableMochaHooks), es);
      var s, names := R.Replayed(p.log, |p.log|), Scopes.OutlineFrom(Scopes.BLANK, p.log).names;
      var tests := Scopes.TestStarts(s.trace);
      && s.nextScope == |l.owners| && HaveTitles(l.owners, names)
      && |tests| == |l.tests| && forall i :: 0 <= i < |tests| ==> IsPlacedAs(tests[i], names, l.owners, l.tests, i)
  {
    hide Run, Arranged, R.Replayed, Scopes.OutlineFrom, Scopes.TestStarts, Scopes.Statuses, Scopes.Stopped,
         Scopes.FullNames;
    hide IsPlacedAs, IsPlaced, Belong, HaveTitles;
    var p, l := Run(Fresh(plan, disableMochaHooks), es), Arranged(Fresh(plan, disableMochaHooks), es);
    RunMirrors(plan, disableMochaHooks, es);
    Scopes.ReplayOutline(p.log, |p.log|);
    assert p.log[..|p.log|] == p.log;
    var o := Scopes.OutlineFrom(Scopes.BLANK, p.log);
    assert |o.names| == |l.owners| by { NamedLength(l.owners, o.names); }
    forall i | 0 <= i < |o.tests|
      ensures IsPlacedAs(o.tests[i], o.names, l.owners, l.tests, i)
    {
      PlacedTitles(o.tests[i], o.names, l.owners, l.tests, i);
    }
  }

  lemma NamedLength(xs: seq<Owner>, names: seq<string>)
    requires HaveTitles(xs, names)
    ensures |xs| == |names|
  {
  }

  // ----- When a test is enclosed by exactly its own suites

  /** No suite of a batch has ended while another of it has not. */
  ghost predicate AllWhole(bs: seq<Batch>) {
    forall i :: 0 <= i < |bs| ==> bs[i].live == |bs[i].members|
  }

  function AllOf(bs: seq<Batch>): seq<Owner> {
    if bs == [] then [] else AllOf(R.Front(bs)) + R.Last(bs).members
  }

  ghost predicate Ascend(xs: seq<Owner>) {
    forall i, j :: 0 <= i < j < |xs| ==> xs[i].number < xs[j].number
  }

  /** Suites are numbered as they come. */
  ghost predicate Numbered(l: Layout) {
    var all := AllOf(l.batches) + l.waiting;
    Ascend(all) && forall i :: 0 <= i < |all| ==> all[i].number < l.suites
  }

  lemma BatchAppended(bs: seq<Batch>, b: Batch)
    ensures AllOf(bs + [b]) == AllOf(bs) + b.members
  {
    assert R.Front(bs + [b]) == bs;
  }

  lemma NumberedPrefix(l: Layout, k: Layout)
    requires Numbered(l) && AllOf(k.batches) + k.waiting <= AllOf(l.batches) + l.waiting && l.suites <= k.suites
    ensures Numbered(k)
  {
  }

  lemma {:induction false} StackedNumbers(l: Layout, title: string)
    requires Numbered(l)
    ensures Numbered(Stacked(l, title))
  {
    hide AllOf;
    var k, all := Stacked(l, title), AllOf(l.batches) + l.waiting;
    assert AllOf(k.batches) + k.waiting == all + [Owner(false, l.suites, title)];
  }

  lemma {:induction false} PoppedNumbers(l: Layout)
    requires Sound(l.batches) && Numbered(l)
    ensures Numbered(SuitePopped(l))
  {
    hide AllOf, Numbered;
    if l.waiting == [] && l.batches != [] {
      var b, rest := R.Last(l.batches), R.Front(l.batches);
      assert l.batches == rest + [b];
      BatchAppended(rest, b);
      BatchAppended(rest, b.(live := b.live - 1));
    }
    NumberedPrefix(l, SuitePopped(l));
  }

  lemma {:induction false} EnsuredNumbers(plan: bool, l: Layout)
    requires Numbered(l)
    ensures Numbered(Ensured(plan, l))
  {
    hide AllOf, Numbered;
    BatchAppended(l.batches, Batch(l.waiting, |l.waiting|));
    assert AllOf(l.batches) + l.waiting + [] == AllOf(l.batches) + l.waiting;
    NumberedPrefix(l, Ensured(plan, l));
  }

  lemma {:induction false} EventNumbers(p: Producer, l: Layout, e: Event)
    requires Sound(l.batches) && Numbered(l)
    ensures Numbered(Arrange(p, l, e))
  {
    hide AllOf, NewTest, OpenOwners, Ensured, SuitePopped, Stacked, Numbered;
    EnsuredNumbers(p.plan, l);
    PoppedNumbers(l);
    if e.SuiteStarts? {
      StackedNumbers(l, e.suite.title);
    }
    if NewTest(p, e).Some? {
      EnsuredOpen(p.plan, l);
      var k := AtStart(p, l, e);
      NumberedPrefix(k, Tested(k, NewTest(p, e).value));
    }
  }

  lemma {:induction false} RunNumbers(p: Producer, es: seq<Event>)
    ensures Numbered(Arranged(p, es))
  {
    hide Arrange, Numbered, Run;
    if es == [] {
      assert Numbered(EMPTY) by { NoneNumbered(); }
    } else {
      RunNumbers(p, es[..|es| - 1]);
      EventNumbers(Run(p, es[..|es| - 1]), Arranged(p, es[..|es| - 1]), es[|es| - 1]);
    }
  }

  lemma NoneNumbered()
    ensures Numbered(EMPTY)
  {
  }

  lemma {:induction false} WholeTwice(bs: seq<Batch>)
    requires Sound(bs) && AllWhole(bs)
    ensures multiset(OpenOf(bs)) == multiset(LiveOf(bs)) + multiset(LiveOf(bs))
  {
    if bs != [] {
      var b := R.Last(bs);
      WholeTwice(R.Front(bs));
      assert ScopesOf(b) == b.members + b.members && b.members[..b.live] == b.members;
    }
  }

  lemma {:induction false} LiveAmongAll(bs: seq<Batch>)
    requires Sound(bs)
    ensures forall x :: x in LiveOf(bs) ==> x in AllOf(bs)
  {
    if bs != [] {
      LiveAmongAll(R.Front(bs));
    }
  }

  lemma {:induction false} MemberAmongAll(bs: seq<Batch>, k: nat, x: Owner)
    requires k < |bs| && x in bs[k].members
    ensures x in AllOf(bs)
  {
    if k < |bs| - 1 {
      MemberAmongAll(R.Front(bs), k, x);
    }
  }

  lemma AscendParts(a: seq<Owner>, b: seq<Owner>)
    requires Ascend(a + b)
    ensures Ascend(a) && Ascend(b) && forall x :: x in a ==> x !in b
  {
    forall i, j | 0 <= i < |a| && 0 <= j < |b|
      ensures a[i] != b[j]
    {
      assert (a + b)[i] == a[i] && (a + b)[|a| + j] == b[j];
    }
    assert forall i :: 0 <= i < |a| ==> (a + b)[i] == a[i];
    assert forall i :: 0 <= i < |b| ==> (a + b)[|a| + i] == b[i];
  }

  /** A suite that has ended while its batch has not: it is not live, and owns an open scope. */
  lemma {:induction false} EndedNotLive(bs: seq<Batch>, k: nat)
    requires Sound(bs) && Ascend(AllOf(bs)) && k < |bs| && bs[k].live < |bs[k].members|
    ensures bs[k].members[bs[k].live] !in LiveOf(bs)
  {
    hide Ascend;
    var b, rest, y := R.Last(bs), R.Front(bs), bs[k].members[bs[k].live];
    AscendParts(AllOf(rest), b.members);
    assert y in bs[k].members;
    if k == |bs| - 1 {
      LiveAmongAll(rest);
      EndedInBatch(b);
    } else {
      EndedNotLive(rest, k);
      MemberAmongAll(rest, k, y);
      assert forall x :: x in b.members[..b.live] ==> x in b.members;
    }
  }

  lemma EndedInBatch(b: Batch)
    requires b.live < |b.members| && Ascend(b.members)
    ensures b.members[b.live] !in b.members[..b.live]
  {
  }

  lemma {:induction false} EndedIsOpen(bs: seq<Batch>, k: nat)
    requires Sound(bs) && k < |bs| && bs[k].live < |bs[k].members|
    ensures bs[k].members[bs[k].live] in OpenOf(bs)
  {
    if k == |bs| - 1 {
      var b := bs[k];
      assert ScopesOf(b)[b.live] == b.members[b.live];
    } else {
      EndedIsOpen(R.Front(bs), k);
    }
  }

  /** What a test started in this layout ought to be enclosed by: its suites, those started lazily a second time. */
  ghost function Own(l: Layout): multiset<Owner>
    requires Sound(l.batches)
  {
    multiset(Stack(l)) + multiset(LiveOf(l.batches))
  }

  /** The scopes around a test are those of its own suites exactly when every batch is whole; otherwise a suite that
      has ended is among them. */
  lemma {:induction false} EnclosedExactly(l: Layout)
    requires Sound(l.batches) && Numbered(l)
    ensures multiset(OpenOwners(l)) == Own(l) <==> AllWhole(l.batches)
    ensures (forall x :: x in OpenOwners(l) ==> x in Stack(l)) <==> AllWhole(l.batches)
  {
    hide LiveOf, OpenOf, AllOf, Ascend;
    var bs := l.batches;
    if AllWhole(bs) {
      WholeTwice(bs);
      assert multiset(OpenOwners(l)) == Own(l);
      forall x | x in OpenOwners(l)
        ensures x in Stack(l)
      {
        assert x in multiset(OpenOwners(l));
      }
    } else {
      var k :| 0 <= k < |bs| && bs[k].live != |bs[k].members|;
      var y := bs[k].members[bs[k].live];
      AscendParts(AllOf(bs), l.waiting);
      EndedNotLive(bs, k);
      EndedIsOpen(bs, k);
      MemberAmongAll(bs, k, y);
      assert y in OpenOwners(l) && y !in Stack(l);
      assert y in multiset(OpenOwners(l)) && y !in Own(l);
    }
  }

  /**
    A test of a run mirrors its suites exactly when no suite has ended while another of its batch has not. `around` is
    what encloses the test that event `k` starts. Without a plan it is the reporter's stack. With one the suites on
    the stack enclose it, those started lazily twice, and nothing else does, if and only if every batch is whole; the
    same holds if and only if every scope around it belongs to a suite still on the stack.
   */
  lemma {:induction false} MirroredExactly(plan: bool, disableMochaHooks: bool, es: seq<Event>, k: nat)
    requires k < |es| && InPlace(Fresh(plan, disableMochaHooks), es)
    requires NewTest(Run(Fresh(plan, disableMochaHooks), es[..k]), es[k]).Some?
    ensures
      var p0 := Fresh(plan, disableMochaHooks);
      var q, l := Run(p0, es[..k]), AtStart(Run(p0, es[..k]), Arranged(p0, es[..k]), es[k]);
      var tests := Arranged(p0, es[..k + 1]).tests;
      && Sound(l.batches) && HaveTitles(Stack(l), q.stack)
      && tests == Arranged(p0, es[..k]).tests + [Placed(NewTest(q, es[k]).value, OpenOwners(l))]
      && (!plan ==> OpenOwners(l) == Stack(l))
      && (plan && StartsSuites(es[k]) ==> LiveOf(l.batches) == Stack(l))
      && (multiset(OpenOwners(l)) == Own(l) <==> AllWhole(l.batches))
      && ((forall x :: x in OpenOwners(l) ==> x in Stack(l)) <==> AllWhole(l.batches))
  {
    hide Run, NewTest, Mirrors, InPlace, Numbered, Own, Ensured, Stack, OpenOwners, LiveOf;
    var p0 := Fresh(plan, disableMochaHooks);
    var q, l0 := Run(p0, es[..k]), Arranged(p0, es[..k]);
    assert es[..k + 1][..k] == es[..k];
    InPlacePrefix(p0, es, k);
    RunMirrors(plan, disableMochaHooks, es[..k]);
    PlanStays(p0, es[..k]);
    RunNumbers(p0, es[..k]);
    StartLayout(q, l0, es[k]);
    EnclosedExactly(AtStart(q, l0, es[k]));
  }

  lemma {:induction false} PlanStays(p: Producer, es: seq<Event>)
    ensures Run(p, es).plan == p.plan
  {
    hide Handle;
    if es != [] {
      PlanStays(p, es[..|es| - 1]);
      HandlePlan(Run(p, es[..|es| - 1]), es[|es| - 1]);
    }
  }

  lemma {:induction false} HandlePlan(p: Producer, e: Event)
    ensures Handle(p, e).plan == p.plan
  {
    hide OnSuiteStart, OnSuiteEnd, OnTestStart, OnTestFail, OnTestSkip, OnHookStart, OnHookEnd, PushDetails;
    hide TestPending, HookPending;
    Frames();
    match e
    case SuiteStarts(s) => SuitePlan(p, s);
    case SuiteEnds(s) => SuitePlan(p, s);
    case TestStarts(t) => TestPlan(p, t);
    case TestFails(t) => TestPlan(p, t);
    case TestSkips(t) => TestPlan(p, t);
    case HookStarts(h) => HookPlan(p, h);
    case HookEnds(h) => HookPlan(p, h);
    case _ =>
  }

  lemma SuitePlan(p: Producer, s: Suite)
    ensures OnSuiteStart(p, s).plan == p.plan && OnSuiteEnd(p, s).plan == p.plan
  {
    hide PushDetails, StartSuites;
    Frames();
  }

  lemma TestPlan(p: Producer, t: Test)
    ensures OnTestStart(p, t).plan == p.plan && OnTestFail(p, t).plan == p.plan && OnTestSkip(p, t).plan == p.plan
  {
    hide PushDetails, StartSuites, TestPending;
    Frames();
  }

  lemma HookPlan(p: Producer, h: Hook)
    ensures OnHookStart(p, h).plan == p.plan && OnHookEnd(p, h).plan == p.plan
  {
    hide PushDetails, TestPending, HookPending, IgnoresHookEnd, DeriveHookType;
    Frames();
  }

  lemma Frames()
    ensures forall p: Producer, ds {:trigger PushDetails(p, ds)} ::
              PushDetails(p, ds) == p.(log := PushDetails(p, ds).log)
    ensures forall p: Producer, n {:trigger StartSuites(p, n)} :: StartSuites(p, n) == p.(log := StartSuites(p, n).log)
  {
    forall p: Producer, ds
      ensures PushDetails(p, ds) == p.(log := PushDetails(p, ds).log)
    {
      DetailsSum(p, ds);
    }
    forall p: Producer, n
      ensures StartSuites(p, n) == p.(log := StartSuites(p, n).log)
    {
      StartSuitesSum(p, n);
    }
  }

  lemma {:induction false} StartLayout(p: Producer, l: Layout, e: Event)
    requires Mirrors(p, l) && Numbered(l)
    ensures
      var k := AtStart(p, l, e);
      && Sound(k.batches) && HaveTitles(Stack(k), p.stack) && Numbered(k) && k.tests == l.tests
      && (!p.plan ==> OpenOwners(k) == Stack(k)) && (p.plan && StartsSuites(e) ==> LiveOf(k.batches) == Stack(k))
  {
    hide Holds;
    EnsuredOpen(p.plan, l);
    BatchAppended(l.batches, Batch(l.waiting, |l.waiting|));
    assert AllOf(l.batches) + l.waiting + [] == AllOf(l.batches) + l.waiting;
    if !p.plan {
      EnsuredWithout(l);
    }
  }

  /** Batches break where a suite ends that was started in one batch with the suite around it, and nowhere else. */
  lemma {:induction false} WholeExactlyUntil(p: Producer, l: Layout, e: Event)
    requires Sound(l.batches) && AllWhole(l.batches)
    ensures AllWhole(Arrange(p, l, e).batches) <==>
            !(e.SuiteEnds? && !e.suite.kind.Scenario? && l.waiting == [] && l.batches != []
              && R.Last(l.batches).live > 1)
  {
    hide OpenOwners;
    var bs := Arrange(p, l, e).batches;
    if e.SuiteEnds? && !e.suite.kind.Scenario? && l.waiting == [] && l.batches != [] && R.Last(l.batches).live > 1 {
      assert bs[|bs| - 1].live == |bs[|bs| - 1].members| - 1;
    }
  }

  // ----- Two suites and a plan

  const PASS := Outcome(Passed, Some(Finished), None, None, None)

  function SuiteCalled(title: string): Suite {
    Suite(Describe, title, 0, [], false, PASS)
  }

  function TestCalled(title: string): Test {
    Test(title, 0, false, [], [], PASS)
  }

  /** A suite in a suite with a test, and then a test in the outer suite. */
  function TwoSuites(a: string, b: string, t: string, u: string): seq<Event> {
    [SuiteStarts(SuiteCalled(a)), SuiteStarts(SuiteCalled(b)), TestStarts(TestCalled(t)), TestPasses(TestCalled(t)),
     SuiteEnds(SuiteCalled(b)), TestStarts(TestCalled(u))]
  }

  function TwoSuitesLog(a: string, b: string, t: string, u: string): seq<Message> {
    [SuiteStart(a, false), SuiteStart(b, false), SuiteStart(a, false), SuiteStart(b, false), TestStart(t, 0),
     TestEnd(PASS), SuiteEnd, SuiteEnd, TestStart(u, 0)]
  }

  lemma RunNext(p: Producer, es: seq<Event>, k: nat)
    requires k < |es|
    ensures Run(p, es[..k + 1]) == Handle(Run(p, es[..k]), es[k])
  {
    assert es[..k + 1][..k] == es[..k];
  }

  lemma LazyStart(p: Producer, t: Test, a: string, b: string)
    requires p.plan && p.stack == [a, b] && p.started == 0 && !t.isStep && t.details == []
    ensures OnTestStart(p, t) ==
            p.(started := 2, log := p.log + [SuiteStart(a, false), SuiteStart(b, false), TestStart(t.title, t.start)])
  {
    var p1 := Push(p, SuiteStart(a, false));
    assert StartSuites(p, 0) == StartSuites(p1, 1) == StartSuites(Push(p1, SuiteStart(b, false)), 2);
    assert p.log + [SuiteStart(a, false)] + [SuiteStart(b, false)] + [TestStart(t.title, t.start)] ==
           p.log + [SuiteStart(a, false), SuiteStart(b, false), TestStart(t.title, t.start)];
  }

  lemma {:induction false} TwoSuitesRun(a: string, b: string, t: string, u: string)
    ensures
      var p := Run(Fresh(true, false), TwoSuites(a, b, t, u));
      p.log == TwoSuitesLog(a, b, t, u) && p.stack == [a]
  {
    hide Handle, Run, IsPending;
    var p0, es := Fresh(true, false), TwoSuites(a, b, t, u);
    assert Run(p0, es[..0]) == p0 by { RunNothing(p0, es[..0]); }
    RunNext(p0, es, 0);
    RunNext(p0, es, 1);
    RunNext(p0, es, 2);
    RunNext(p0, es, 3);
    RunNext(p0, es, 4);
    RunNext(p0, es, 5);
    assert es[..6] == es;
    TwoSuitesSteps(a, b, t, u);
  }

  lemma RunNothing(p: Producer, es: seq<Event>)
    requires es == []
    ensures Run(p, es) == p
  {
  }

  lemma TwoSuitesSteps(a: string, b: string, t: string, u: string)
    ensures
      var es := TwoSuites(a, b, t, u);
      var p3 := Handle(Handle(Handle(Fresh(true, false), es[0]), es[1]), es[2]);
      var p := Handle(Handle(Handle(p3, es[3]), es[4]), es[5]);
      p.log == TwoSuitesLog(a, b, t, u) && p.stack == [a]
  {
    hide TestPending, IsPending;
    var es, p0 := TwoSuites(a, b, t, u), Fresh(true, false);
    var p2 := Handle(Handle(p0, es[0]), es[1]);
    assert p2.stack == [a, b] && p2.started == 0 && p2.log == [SuiteStart(a, false), SuiteStart(b, false)];
    LazyStart(p2, TestCalled(t), a, b);
    var p3 := Handle(p2, es[2]);
    assert p3.log == [SuiteStart(a, false), SuiteStart(b, false), SuiteStart(a, false), SuiteStart(b, false),
             TestStart(t, 0)];
    var p4 := Handle(p3, es[3]);
    assert p4.log == p3.log + [TestEnd(PASS)];
    var p5 := Handle(p4, es[4]);
    assert p5.stack == [a] && p5.started == 1 && p5.log == p4.log + [SuiteEnd] + [SuiteEnd];
    var p6 := Handle(p5, es[5]);
    assert p6.log == p5.log + [TestStart(u, 0)] && p6.stack == [a];
  }

  /**
    One run in which a test does not mirror its suites. With a plan, suite `a` opens, suite `b` opens in it, test `t`
    runs in `b`, `b` ends, and test `u` starts in `a`. The scope opened for `b` encloses `u`, and only one of the two
    scopes opened for `a` does.
   */
  lemma {:induction false} EndedSuiteEncloses(a: string, b: string, t: string, u: string)
    ensures
      var p := Run(Fresh(true, false), TwoSuites(a, b, t, u));
      var tests := Scopes.TestStarts(R.Replayed(p.log, |p.log|).trace);
      var names := Scopes.OutlineFrom(Scopes.BLANK, p.log).names;
      && p.stack == [a] && names == [a, b, a, b, t, u]
      && tests == [Scopes.Started(0, t, 0, [0, 1, 2, 3, 4]), Scopes.Started(1, u, 0, [0, 1, 5])]
  {
    hide Run, R.Replayed, Scopes.OutlineFrom, Scopes.TestStarts, Scopes.Statuses, Scopes.Stopped, Scopes.FullNames;
    var log := TwoSuitesLog(a, b, t, u);
    TwoSuitesRun(a, b, t, u);
    Scopes.ReplayOutline(log, |log|);
    assert log[..|log|] == log;
    TwoSuitesOutline(a, b, t, u);
  }

  function Upto(n: nat): seq<nat> {
    seq(n, i => i)
  }

  /** Message `k` starts a suite in the suites that the messages before it have started. */
  lemma SuitesOpened(log: seq<Message>, k: nat, names: seq<string>, title: string)
    requires k < |log| && |names| == k && log[k] == SuiteStart(title, false)
    requires Scopes.OutlineFrom(Scopes.BLANK, log[..k]) == Scopes.Outline(Upto(k), [], names, [], [], [])
    ensures Scopes.OutlineFrom(Scopes.BLANK, log[..k + 1]) ==
            Scopes.Outline(Upto(k + 1), [], names + [title], [], [], [])
  {
    assert R.Front(log[..k + 1]) == log[..k];
    assert Upto(k) + [k] == Upto(k + 1);
  }

  /** The outline of the two suites, when the first test has started. */
  lemma FirstTestOutline(a: string, b: string, t: string, u: string)
    ensures Scopes.OutlineFrom(Scopes.BLANK, TwoSuitesLog(a, b, t, u)[..5]) ==
            Scopes.Outline([0, 1, 2, 3, 4], [0], [a, b, a, b, t], [Scopes.Started(0, t, 0, [0, 1, 2, 3, 4])], [], [])
  {
    hide Scopes.OutlineFrom;
    var log := TwoSuitesLog(a, b, t, u);
    NoOutline(log[..0]);
    SuitesOpened(log, 0, [], a);
    SuitesOpened(log, 1, [a], b);
    SuitesOpened(log, 2, [a, b], a);
    SuitesOpened(log, 3, [a, b, a], b);
    assert Upto(4) == [0, 1, 2, 3];
    OutlineIs(log, 4, [0, 1, 2, 3, 4], [0], [a, b, a, b, t], [Scopes.Started(0, t, 0, [0, 1, 2, 3, 4])], []);
  }

  lemma TwoSuitesOutline(a: string, b: string, t: string, u: string)
    ensures
      var o := Scopes.OutlineFrom(Scopes.BLANK, TwoSuitesLog(a, b, t, u));
      && o.names == [a, b, a, b, t, u]
      && o.tests == [Scopes.Started(0, t, 0, [0, 1, 2, 3, 4]), Scopes.Started(1, u, 0, [0, 1, 5])]
  {
    hide Scopes.OutlineFrom;
    var log, first := TwoSuitesLog(a, b, t, u), Scopes.Started(0, t, 0, [0, 1, 2, 3, 4]);
    var ends := [Scopes.Ended(0, PASS)];
    FirstTestOutline(a, b, t, u);
    OutlineIs(log, 5, [0, 1, 2, 3], [], [a, b, a, b, t], [first], ends);
    OutlineIs(log, 6, [0, 1, 2], [], [a, b, a, b, t], [first], ends);
    OutlineIs(log, 7, [0, 1], [], [a, b, a, b, t], [first], ends);
    OutlineIs(log, 8, [0, 1, 5], [1], [a, b, a, b, t, u], [first, Scopes.Started(1, u, 0, [0, 1, 5])], ends);
    assert log[..9] == log;
  }

  /** The outline after message `k`, computed from the one before. */
  lemma OutlineIs(log: seq<Message>, k: nat, scopes: seq<nat>, running: seq<nat>, names: seq<string>,
                  tests: seq<Scopes.Started>, ends: seq<Scopes.Ended>)
    requires k < |log|
    requires
      var o := Scopes.OutlineStep(Scopes.OutlineFrom(Scopes.BLANK, log[..k]), log[k]);
      o.scopes == scopes && o.running == running && o.names == names && o.tests == tests && o.ends == ends
        && o.infos == []
    ensures Scopes.OutlineFrom(Scopes.BLANK, log[..k + 1]) == Scopes.Outline(scopes, running, names, tests, ends, [])
  {
    assert R.Front(log[..k + 1]) == log[..k];
  }

  lemma NoOutline(log: seq<Message>)
    requires log == []
    ensures Scopes.OutlineFrom(Scopes.BLANK, log) == Scopes.BLANK
  {
  }
}
