/**
  An independent account of a sequence of runtime calls: which scopes and fixtures are open, which test is live
  and how deep its steps are nested. `Allowed` says which call may come next. Nothing here knows about the replay.
 */
module AllureLedger {
  import opened Wrappers
  import opened AllureMessages
  import opened AllureReplay

  /** A fixture that was started and not stopped: the scope it was started in, the test that was live then, and the
      height of its stack of open steps. */
  datatype OpenFixture = OpenFixture(id: nat, scope: nat, test: nat, height: nat)

  /** `live` is the test that was started and not written; `height`, `hasStatus` and `stopped` describe it. `ended` is
      the fixture that the last call stopped. */
  datatype Ledger = Ledger(
    openScopes: seq<nat>, scopes: nat,
    live: Option<nat>, tests: nat, height: nat, hasStatus: bool, stopped: bool,
    openFixtures: seq<OpenFixture>, fixtures: nat, ended: Option<OpenFixture>)

  const BLANK := Ledger([], 0, None, 0, 0, false, false, [], 0, None)

  /** The step stack of a target as the runtime keeps it: a stop pops, and does nothing on an empty stack. */
  function Height(h: nat, m: Message): nat {
    if m.StepStart? then h + 1 else if m.StepStop? && h > 0 then h - 1 else h
  }

  predicate IsInnermost(l: Ledger, f: nat) {
    l.openFixtures != [] && Last(l.openFixtures).id == f
  }

  /** What holds of every call the replay of any log makes. */
  predicate Allowed(l: Ledger, c: Call) {
    match c
    case StartScope(k) => k == l.scopes
    case WriteScope(k) => l.openScopes != [] && k == Last(l.openScopes)
    case StartTest(t, _, _, scopes) =>
      && t == l.tests && l.live.None?
      && scopes == l.openScopes && scopes != [] && Last(scopes) == l.scopes - 1
    case SetTestName(t, _) => t < l.tests
    case SetTestStatus(t, _) => t < l.tests
    case AddTestFixture(t, _, _, _) => l.live == Some(t) && l.ended.Some?
    case StopTest(t, _) => t < l.tests && (l.live == Some(t) ==> l.height == 0)
    case WriteTest(t) => l.live == Some(t)
    case StartFixture(f, k, _, name, _) =>
      f == l.fixtures && l.live.Some? && l.openScopes != [] && k == Last(l.openScopes) && !AfterAll(name)
    case SetFixtureStatus(f, _) => IsInnermost(l, f)
    case StopFixture(f, _) => IsInnermost(l, f) && Last(l.openFixtures).height == 0
    case Applied(target, m) =>
      IsRuntime(m) && if target.OnTest? then l.live == Some(target.test) else IsInnermost(l, target.fixture)
  }

  /** Three rules that only well-formed logs keep. */
  datatype Rule = FixturesFirst | ScopesLast | TestsFirst

  /** `FixturesFirst`: no fixture is open when a test begins or a test or scope is written.
      `ScopesLast`: a scope is written when no fixture that was started in it is open.
      `TestsFirst`: a test is named, then given its status once, then stopped once, all while it is live,
      and it is written only after that. */
  predicate Obeys(rule: Rule, l: Ledger, c: Call) {
    match rule
    case FixturesFirst => c.WriteTest? || c.WriteScope? || c.StartTest? ==> l.openFixtures == []
    case ScopesLast => c.WriteScope? ==> forall x :: x in l.openFixtures ==> x.scope != c.scope
    case TestsFirst =>
      match c
      case SetTestName(t, _) => l.live == Some(t) && !l.hasStatus
      case SetTestStatus(t, _) => l.live == Some(t) && !l.hasStatus
      case StopTest(t, _) => l.live == Some(t) && l.hasStatus && !l.stopped
      case WriteTest(_) => l.stopped
      case _ => true
  }

  function Update(l: Ledger, c: Call): Ledger {
    match c
    case StartScope(k) => l.(openScopes := l.openScopes + [k], scopes := l.scopes + 1)
    case WriteScope(_) => if l.openScopes == [] then l else l.(openScopes := Front(l.openScopes))
    case StartTest(t, _, _, _) =>
      l.(live := Some(t), tests := l.tests + 1, height := 0, hasStatus := false, stopped := false)
    case SetTestStatus(t, _) => if l.live == Some(t) then l.(hasStatus := true) else l
    case StopTest(t, _) => if l.live == Some(t) then l.(stopped := true) else l
    case WriteTest(_) => l.(live := None)
    case StartFixture(f, k, _, _, _) =>
      var test := if l.live.Some? then l.live.value else 0;
      l.(openFixtures := l.openFixtures + [OpenFixture(f, k, test, 0)], fixtures := l.fixtures + 1)
    case StopFixture(_, _) => if l.openFixtures == [] then l else l.(openFixtures := Front(l.openFixtures))
    case Applied(target, m) =>
      if target.OnTest? then l.(height := Height(l.height, m))
      else if l.openFixtures == [] then l
      else
        var f := Last(l.openFixtures);
        l.(openFixtures := Front(l.openFixtures) + [f.(height := Height(f.height, m))])
    case _ => l
  }

  function Record(l: Ledger, c: Call): Ledger {
    Update(l, c).(ended := if c.StopFixture? && l.openFixtures != [] then Some(Last(l.openFixtures)) else None)
  }

  /** The account after a trace, if every call in it was allowed. */
  function Of(trace: seq<Call>): Option<Ledger> {
    if trace == [] then Some(BLANK)
    else
      var l := Of(Front(trace));
      if l.Some? && Allowed(l.value, Last(trace)) then Some(Record(l.value, Last(trace))) else None
  }

  predicate AllObey(rule: Rule, trace: seq<Call>) {
    trace == [] ||
    var l := Of(Front(trace));
    l.Some? && AllObey(rule, Front(trace)) && Obeys(rule, l.value, Last(trace))
  }

  lemma OfAppend(trace: seq<Call>, c: Call)
    ensures Of(trace + [c]) ==
            if Of(trace).Some? && Allowed(Of(trace).value, c) then Some(Record(Of(trace).value, c)) else None
  {
    assert Front(trace + [c]) == trace;
  }

  lemma ObeyAppend(rule: Rule, trace: seq<Call>, c: Call)
    ensures AllObey(rule, trace + [c]) <==> Of(trace).Some? && AllObey(rule, trace) && Obeys(rule, Of(trace).value, c)
  {
    assert Front(trace + [c]) == trace;
  }

  /** Calls a rule says nothing about. */
  predicate IsQuiet(rule: Rule, c: Call) {
    match rule
    case FixturesFirst => !c.WriteTest? && !c.WriteScope? && !c.StartTest?
    case ScopesLast => !c.WriteScope?
    case TestsFirst => !c.WriteTest? && !c.SetTestName? && !c.SetTestStatus? && !c.StopTest?
  }

  lemma {:induction false} QuietCalls(rule: Rule, s: seq<Call>, t: seq<Call>)
    requires s <= t && Of(t).Some? && forall k :: |s| <= k < |t| ==> IsQuiet(rule, t[k])
    ensures AllObey(rule, s) <==> AllObey(rule, t)
    decreases |t|
  {
    if |s| < |t| {
      QuietCalls(rule, s, Front(t));
    } else {
      assert s == t;
    }
  }

  /** A rule once broken stays broken. */
  lemma {:induction false} BrokenStays(rule: Rule, s: seq<Call>, t: seq<Call>)
    requires s <= t && AllObey(rule, t)
    ensures AllObey(rule, s)
    decreases |t|
  {
    if |s| < |t| {
      BrokenStays(rule, s, Front(t));
    } else {
      assert s == t;
    }
  }

  // ----- What conforming traces have in common

  datatype TestCall = Began(test: nat) | Written(test: nat)

  function CallOf(c: Call): seq<TestCall> {
    match c
    case StartTest(t, _, _, _) => [Began(t)]
    case WriteTest(t) => [Written(t)]
    case _ => []
  }

  function TestCalls(trace: seq<Call>): seq<TestCall> {
    if trace == [] then [] else TestCalls(Front(trace)) + CallOf(Last(trace))
  }

  /** The tests 0 .. n, each begun and then written before the next one begins. */
  function Lifecycles(n: nat): seq<TestCall> {
    if n == 0 then [] else Lifecycles(n - 1) + [Began(n - 1), Written(n - 1)]
  }

  /** No test live: the lives of all tests so far; one live: it was begun last and is not written yet. */
  function ExpectedTestCalls(l: Ledger): seq<TestCall> {
    if l.live.None? then Lifecycles(l.tests)
    else if l.tests == 0 then []
    else Lifecycles(l.tests - 1) + [Began(l.tests - 1)]
  }

  lemma {:induction false} TestsInOrder(trace: seq<Call>)
    requires Of(trace).Some?
    ensures TestCalls(trace) == ExpectedTestCalls(Of(trace).value)
    ensures Of(trace).value.live.Some? ==> Of(trace).value.tests == Of(trace).value.live.value + 1
  {
    hide Allowed, Record, Update, ExpectedTestCalls;
    if trace != [] {
      TestsInOrder(Front(trace));
      CallExpected(Of(Front(trace)).value, Last(trace));
    } else {
      assert ExpectedTestCalls(BLANK) == [] by { NoCallExpected(); }
    }
  }

  lemma NoCallExpected()
    ensures ExpectedTestCalls(BLANK) == []
  {
  }

  lemma CallExpected(l: Ledger, c: Call)
    requires Allowed(l, c) && (l.live.Some? ==> l.tests == l.live.value + 1)
    ensures
      var r := Record(l, c);
      ExpectedTestCalls(r) == ExpectedTestCalls(l) + CallOf(c) && (r.live.Some? ==> r.tests == r.live.value + 1)
  {
    var before := ExpectedTestCalls(l);
    assert before + [] == before;
  }

  /** How often scope `k` is opened and how often it is written. */
  function Times(c: Call, trace: seq<Call>): nat {
    if trace == [] then 0 else Times(c, Front(trace)) + if Last(trace) == c then 1 else 0
  }

  ghost predicate ScopesAscend(l: Ledger) {
    && (forall i, j :: 0 <= i < j < |l.openScopes| ==> l.openScopes[i] < l.openScopes[j])
    && (forall i :: 0 <= i < |l.openScopes| ==> l.openScopes[i] < l.scopes)
  }

  lemma ScopesAscendStep(l: Ledger, c: Call)
    requires Allowed(l, c) && ScopesAscend(l)
    ensures ScopesAscend(Record(l, c))
  {
  }

  lemma {:induction false} OpenScopesAscend(trace: seq<Call>)
    requires Of(trace).Some?
    ensures ScopesAscend(Of(trace).value)
  {
    if trace != [] {
      hide Allowed, Record, Update, ScopesAscend;
      OpenScopesAscend(Front(trace));
      ScopesAscendStep(Of(Front(trace)).value, Last(trace));
    }
  }

  lemma {:induction false} ScopesOnce(trace: seq<Call>, k: nat)
    requires Of(trace).Some?
    ensures
      var l := Of(trace).value;
      && Times(StartScope(k), trace) == (if k < l.scopes then 1 else 0)
      && Times(WriteScope(k), trace) == (if k < l.scopes && k !in l.openScopes then 1 else 0)
  {
    if trace != [] {
      hide Allowed, Record, Update, ScopesAscend;
      ScopesOnce(Front(trace), k);
      OpenScopesAscend(Front(trace));
      ScopesOnceStep(Of(Front(trace)).value, Last(trace), k);
    }
  }

  /** One call changes membership of `k` among the open scopes only when it opens or writes `k`. */
  lemma ScopesOnceStep(l: Ledger, c: Call, k: nat)
    requires Allowed(l, c) && ScopesAscend(l)
    ensures c == StartScope(k) ==> k == l.scopes && Record(l, c).scopes == k + 1 && k in Record(l, c).openScopes
    ensures c == WriteScope(k) ==> k in l.openScopes && k < l.scopes && k !in Record(l, c).openScopes
    ensures c != StartScope(k) && c != WriteScope(k) ==> (k in Record(l, c).openScopes <==> k in l.openScopes)
    ensures !c.StartScope? ==> Record(l, c).scopes == l.scopes
    ensures c.StartScope? ==> Record(l, c).scopes == l.scopes + 1 && c.scope == l.scopes
  {
    match c
    case StartScope(j) =>
      assert k in l.openScopes + [j] <==> k in l.openScopes || k == j;
    case WriteScope(j) =>
      var front := Front(l.openScopes);
      assert l.openScopes == front + [j];
      assert j !in front;
      assert k in l.openScopes <==> k in front || k == j;
    case _ =>
  }

  // ----- What the rule for tests amounts to

  datatype TestEvent = TestBegan(test: nat) | GotStatus(test: nat) | Stopped(test: nat) | TestWritten(test: nat)

  function EventOf(c: Call): seq<TestEvent> {
    match c
    case StartTest(t, _, _, _) => [TestBegan(t)]
    case SetTestStatus(t, _) => [GotStatus(t)]
    case StopTest(t, _) => [Stopped(t)]
    case WriteTest(t) => [TestWritten(t)]
    case _ => []
  }

  function TestEvents(trace: seq<Call>): seq<TestEvent> {
    if trace == [] then []
    else
      TestEvents(Front(trace)) + EventOf(Last(trace))
  }

  /** The tests 0 .. n: each begun, given its status once, stopped once, then written. */
  function FullLives(n: nat): seq<TestEvent> {
    if n == 0 then [] else FullLives(n - 1) + [TestBegan(n - 1), GotStatus(n - 1), Stopped(n - 1), TestWritten(n - 1)]
  }

  function ExpectedTestEvents(l: Ledger): seq<TestEvent> {
    if l.live.None? then FullLives(l.tests)
    else if l.tests == 0 then []
    else
      var t := l.tests - 1;
      FullLives(t) + [TestBegan(t)]
      + (if l.hasStatus then [GotStatus(t)] else []) + (if l.stopped then [Stopped(t)] else [])
  }

  lemma {:induction false} TestsObey(trace: seq<Call>)
    requires Of(trace).Some? && AllObey(TestsFirst, trace)
    ensures TestEvents(trace) == ExpectedTestEvents(Of(trace).value)
    ensures
      var l := Of(trace).value;
      l.live.Some? ==> l.tests == l.live.value + 1 && (l.stopped ==> l.hasStatus)
  {
    hide Allowed, Obeys, Record, Update, ExpectedTestEvents;
    if trace != [] {
      TestsObey(Front(trace));
      EventExpected(Of(Front(trace)).value, Last(trace));
    } else {
      assert ExpectedTestEvents(BLANK) == [] by { NothingExpected(); }
    }
  }

  lemma NothingExpected()
    ensures ExpectedTestEvents(BLANK) == []
  {
  }

  lemma EventExpected(l: Ledger, c: Call)
    requires Allowed(l, c) && Obeys(TestsFirst, l, c)
    requires l.live.Some? ==> l.tests == l.live.value + 1 && (l.stopped ==> l.hasStatus)
    ensures
      var r := Record(l, c);
      && ExpectedTestEvents(r) == ExpectedTestEvents(l) + EventOf(c)
      && (r.live.Some? ==> r.tests == r.live.value + 1 && (r.stopped ==> r.hasStatus))
  {
    var before := ExpectedTestEvents(l);
    assert before + [] == before;
  }

  function TimesStarted(f: nat, trace: seq<Call>): nat {
    if trace == [] then 0
    else TimesStarted(f, Front(trace)) + if Last(trace).StartFixture? && Last(trace).fixture == f then 1 else 0
  }

  function TimesStopped(f: nat, trace: seq<Call>): nat {
    if trace == [] then 0
    else TimesStopped(f, Front(trace)) + if Last(trace).StopFixture? && Last(trace).fixture == f then 1 else 0
  }

  ghost predicate IsOpen(f: nat, l: Ledger) {
    exists i :: 0 <= i < |l.openFixtures| && l.openFixtures[i].id == f
  }

  ghost predicate FixturesAscend(l: Ledger) {
    && (forall i, j :: 0 <= i < j < |l.openFixtures| ==> l.openFixtures[i].id < l.openFixtures[j].id)
    && (forall i :: 0 <= i < |l.openFixtures| ==> l.openFixtures[i].id < l.fixtures)
  }

  lemma AscendStep(l: Ledger, c: Call)
    requires Allowed(l, c) && FixturesAscend(l)
    ensures FixturesAscend(Record(l, c))
  {
  }

  lemma {:induction false} OpenFixturesAscend(trace: seq<Call>)
    requires Of(trace).Some?
    ensures FixturesAscend(Of(trace).value)
  {
    if trace != [] {
      hide Allowed, Record, Update, FixturesAscend;
      OpenFixturesAscend(Front(trace));
      AscendStep(Of(Front(trace)).value, Last(trace));
    }
  }

  /** One call opens or closes fixture `f` only when it starts or stops it. */
  lemma FixtureStep(l: Ledger, c: Call, f: nat)
    requires Allowed(l, c) && FixturesAscend(l)
    ensures c.StartFixture? && c.fixture == f ==> IsOpen(f, Record(l, c))
    ensures c.StopFixture? && c.fixture == f ==> IsOpen(f, l) && !IsOpen(f, Record(l, c))
    ensures !((c.StartFixture? || c.StopFixture?) && c.fixture == f) ==> (IsOpen(f, Record(l, c)) <==> IsOpen(f, l))
  {
    var fs, gs := l.openFixtures, Record(l, c).openFixtures;
    if c.StartFixture? {
      assert gs[|fs|].id == c.fixture;
      assert forall i :: 0 <= i < |fs| ==> gs[i] == fs[i];
    } else if c.StopFixture? {
      assert fs[|fs| - 1].id == c.fixture;
      assert forall i :: 0 <= i < |gs| ==> gs[i] == fs[i];
    } else {
      assert |gs| == |fs| && forall i :: 0 <= i < |gs| ==> gs[i].id == fs[i].id;
    }
  }

  /** Every fixture is started once and, unless it is still open, stopped once. */
  lemma {:induction false} FixturesOnce(trace: seq<Call>, f: nat)
    requires Of(trace).Some?
    ensures
      var l := Of(trace).value;
      && TimesStarted(f, trace) == (if f < l.fixtures then 1 else 0)
      && TimesStopped(f, trace) == (if f < l.fixtures && !IsOpen(f, l) then 1 else 0)
  {
    if trace != [] {
      hide Record, Update, FixturesAscend;
      FixturesOnce(Front(trace), f);
      OpenFixturesAscend(Front(trace));
      FixtureStep(Of(Front(trace)).value, Last(trace), f);
    }
  }

  // ----- What the rule for scopes amounts to

  /** Every open fixture's scope is open. */
  ghost predicate InOpenScopes(l: Ledger) {
    forall x :: x in l.openFixtures ==> x.scope in l.openScopes
  }

  lemma InOpenScopesStep(l: Ledger, c: Call)
    requires Allowed(l, c) && InOpenScopes(l) && Obeys(ScopesLast, l, c)
    ensures InOpenScopes(Record(l, c))
  {
    var r := Record(l, c);
    if c.WriteScope? {
      assert forall k :: k in l.openScopes && k != c.scope ==> k in Front(l.openScopes);
    } else {
      assert forall k :: k in l.openScopes ==> k in r.openScopes;
    }
    forall x | x in r.openFixtures
      ensures x.scope in r.openScopes
    {
      assert c.StartFixture? || exists y :: y in l.openFixtures && y.scope == x.scope;
    }
  }

  /** Where a scope is written only after the fixtures started in it, those still open have their scopes open. */
  lemma {:induction false} FixturesInOpenScopes(trace: seq<Call>)
    requires Of(trace).Some? && AllObey(ScopesLast, trace)
    ensures InOpenScopes(Of(trace).value)
  {
    if trace != [] {
      hide Allowed, Record, Update, Obeys, InOpenScopes;
      FixturesInOpenScopes(Front(trace));
      InOpenScopesStep(Of(Front(trace)).value, Last(trace));
    } else {
      assert InOpenScopes(BLANK);
    }
  }

  /** Every fixture was stopped, once, by the time the scope it was started in is written. */
  ghost predicate StoppedInScope(trace: seq<Call>) {
    forall i, j :: 0 <= i < j < |trace| && trace[i].StartFixture? && trace[j] == WriteScope(trace[i].scope) ==>
      TimesStopped(trace[i].fixture, trace[..j]) == 1
  }

  /** One fixture, whatever the height of its steps. */
  predicate IsSame(x: OpenFixture, y: OpenFixture) {
    x.id == y.id && x.scope == y.scope && x.test == y.test
  }

  ghost predicate IsOpenAs(x: OpenFixture, l: Ledger) {
    exists y :: y in l.openFixtures && IsSame(x, y)
  }

  /** The call starts that fixture. */
  predicate Starts(l: Ledger, c: Call, x: OpenFixture) {
    c.StartFixture? && c.fixture == x.id && c.scope == x.scope && l.live == Some(x.test)
  }

  lemma OpenAsStep(l: Ledger, c: Call, x: OpenFixture)
    requires Allowed(l, c)
    ensures Starts(l, c, x) ==> IsOpenAs(x, Record(l, c))
    ensures IsOpenAs(x, l) && !(c.StopFixture? && c.fixture == x.id) ==> IsOpenAs(x, Record(l, c))
    ensures IsOpenAs(x, Record(l, c)) ==> IsOpenAs(x, l) || Starts(l, c, x)
  {
    var r := Record(l, c);
    if c.StartFixture? {
      OpenedOne(l, r, OpenFixture(c.fixture, c.scope, l.live.value, 0), x);
    } else if l.openFixtures != [] && r.openFixtures != l.openFixtures {
      if c.StopFixture? {
        ClosedOne(l, r, x);
      } else {
        ChangedOne(l, r, x);
      }
    }
  }

  lemma OpenedOne(l: Ledger, r: Ledger, y: OpenFixture, x: OpenFixture)
    requires r.openFixtures == l.openFixtures + [y]
    ensures IsOpenAs(x, r) <==> IsOpenAs(x, l) || IsSame(x, y)
  {
    assert y in r.openFixtures && forall z :: z in r.openFixtures <==> z in l.openFixtures || z == y;
  }

  lemma ClosedOne(l: Ledger, r: Ledger, x: OpenFixture)
    requires l.openFixtures != [] && r.openFixtures == Front(l.openFixtures)
    ensures IsOpenAs(x, l) <==> IsOpenAs(x, r) || IsSame(x, Last(l.openFixtures))
  {
    assert l.openFixtures == r.openFixtures + [Last(l.openFixtures)];
    OpenedOne(r, l, Last(l.openFixtures), x);
  }

  lemma ChangedOne(l: Ledger, r: Ledger, x: OpenFixture)
    requires l.openFixtures != [] && r.openFixtures != []
    requires Front(r.openFixtures) == Front(l.openFixtures) && IsSame(Last(r.openFixtures), Last(l.openFixtures))
    ensures IsOpenAs(x, r) <==> IsOpenAs(x, l)
  {
    var m := l.(openFixtures := Front(l.openFixtures));
    ClosedOne(l, m, x);
    ClosedOne(r, m, x);
  }

  /** The fixture that call `i` of an allowed trace starts. */
  function StartedBy(trace: seq<Call>, i: nat): OpenFixture
    requires i < |trace| && trace[i].StartFixture?
  {
    var l := Of(trace[..i]);
    OpenFixture(trace[i].fixture, trace[i].scope, if l.Some? && l.value.live.Some? then l.value.live.value else 0, 0)
  }

  lemma StartedInFront(trace: seq<Call>, i: nat)
    requires i < |trace| && trace[i].StartFixture?
    ensures i < |trace| - 1 ==> StartedBy(Front(trace), i) == StartedBy(trace, i)
    ensures i == |trace| - 1 ==> trace[..i] == Front(trace)
  {
    if i < |trace| - 1 {
      assert Front(trace)[..i] == trace[..i];
    }
  }

  /** A fixture is open in its scope until it is stopped. */
  lemma {:induction false} StartedStaysOpen(trace: seq<Call>, i: nat)
    requires Of(trace).Some? && i < |trace| && trace[i].StartFixture?
    ensures TimesStopped(trace[i].fixture, trace) >= 1 || IsOpenAs(StartedBy(trace, i), Of(trace).value)
  {
    hide Record, Update, IsOpenAs;
    StartedInFront(trace, i);
    OpenAsStep(Of(Front(trace)).value, Last(trace), StartedBy(trace, i));
    if i < |trace| - 1 {
      StartedStaysOpen(Front(trace), i);
    }
  }

  lemma {:induction false} OpenWasStarted(trace: seq<Call>, x: OpenFixture) returns (i: nat)
    requires Of(trace).Some? && IsOpenAs(x, Of(trace).value)
    ensures i < |trace| && trace[i].StartFixture? && IsSame(x, StartedBy(trace, i))
  {
    hide Allowed, Record, Update;
    i := 0;
    if trace != [] {
      var l, c := Of(Front(trace)).value, Last(trace);
      OpenAsStep(l, c, x);
      if Starts(l, c, x) {
        i := |trace| - 1;
      } else {
        i := OpenWasStarted(Front(trace), x);
      }
      StartedInFront(trace, i);
    }
  }

  lemma {:induction false} OfPrefix(trace: seq<Call>, n: nat)
    requires n <= |trace| && Of(trace).Some?
    ensures Of(trace[..n]).Some? && (n < |trace| ==> Allowed(Of(trace[..n]).value, trace[n]))
  {
    hide Allowed, Record, Update;
    if n < |trace| {
      if n == |trace| - 1 {
        assert trace[..n] == Front(trace);
      } else {
        OfPrefix(Front(trace), n);
        assert Front(trace)[..n] == trace[..n];
      }
    } else {
      assert trace[..n] == trace;
    }
  }

  lemma {:induction false} ObeyPrefix(rule: Rule, trace: seq<Call>, n: nat)
    requires n < |trace| && AllObey(rule, trace)
    ensures Of(trace[..n]).Some? && Obeys(rule, Of(trace[..n]).value, trace[n])
  {
    hide Obeys, Of;
    if n == |trace| - 1 {
      assert trace[..n] == Front(trace);
    } else {
      ObeyPrefix(rule, Front(trace), n);
      assert Front(trace)[..n] == trace[..n];
    }
  }

  /** That is what the rule for scopes amounts to. */
  lemma {:induction false} ScopesLastExactly(trace: seq<Call>)
    requires Of(trace).Some?
    ensures AllObey(ScopesLast, trace) <==> StoppedInScope(trace)
  {
    hide Allowed, Record, Update, Of, AllObey, TimesStopped;
    if AllObey(ScopesLast, trace) {
      forall i, j | 0 <= i < j < |trace| && trace[i].StartFixture? && trace[j] == WriteScope(trace[i].scope)
        ensures TimesStopped(trace[i].fixture, trace[..j]) == 1
      {
        OfPrefix(trace, j);
        ObeyPrefix(ScopesLast, trace, j);
        StartedStaysOpen(trace[..j], i);
        FixturesOnce(trace[..j], trace[i].fixture);
        OpenElsewhere(Of(trace[..j]).value, StartedBy(trace[..j], i), trace[j]);
      }
    }
    if StoppedInScope(trace) {
      StoppedObeys(trace);
    }
  }

  lemma OpenElsewhere(l: Ledger, x: OpenFixture, c: Call)
    requires Obeys(ScopesLast, l, c) && c == WriteScope(x.scope)
    ensures !IsOpenAs(x, l)
  {
  }

  lemma {:induction false} StoppedObeys(trace: seq<Call>)
    requires Of(trace).Some? && StoppedInScope(trace)
    ensures AllObey(ScopesLast, trace)
  {
    hide Allowed, Record, Update, TimesStopped;
    if trace != [] {
      var before, c := Front(trace), Last(trace);
      assert trace[..|before|] == before;
      assert forall j :: 0 <= j < |before| ==> before[..j] == trace[..j];
      StoppedObeys(before);
      if c.WriteScope? {
        forall x | x in Of(before).value.openFixtures
          ensures x.scope != c.scope
        {
          StoppedBefore(before, x, c.scope);
        }
      }
    }
  }

  /** An open fixture has been started, and has not been stopped. */
  lemma {:induction false} StoppedBefore(before: seq<Call>, x: OpenFixture, k: nat)
    requires Of(before).Some? && x in Of(before).value.openFixtures
    requires forall i :: 0 <= i < |before| && before[i].StartFixture? && before[i].scope == k ==>
               TimesStopped(before[i].fixture, before) == 1
    ensures x.scope != k
  {
    hide Allowed, Record, Update, TimesStopped, Of;
    var i := OpenWasStarted(before, x) by { assert IsSame(x, x); }
    FixturesOnce(before, x.id);
    var l := Of(before).value;
    var n :| 0 <= n < |l.openFixtures| && l.openFixtures[n] == x;
    assert IsOpen(x.id, l);
  }

  // ----- Which test a fixture is recorded on

  /** Every fixture is recorded on the test that was live when it was started. */
  predicate OnOwnTests(trace: seq<Call>) {
    trace == [] ||
    var l, c := Of(Front(trace)), Last(trace);
    && OnOwnTests(Front(trace))
    && (c.AddTestFixture? ==> l.Some? && l.value.ended.Some? && l.value.ended.value.test == c.test)
  }

  /** The live test is the one all open fixtures, and the one just stopped, were started in. */
  ghost predicate SameTest(l: Ledger) {
    && (forall x :: x in l.openFixtures ==> l.live == Some(x.test))
    && (l.ended.Some? ==> l.live == Some(l.ended.value.test))
  }

  lemma SameTestStep(l: Ledger, c: Call)
    requires Allowed(l, c) && Obeys(FixturesFirst, l, c) && SameTest(l)
    ensures SameTest(Record(l, c))
    ensures c.AddTestFixture? ==> l.ended.Some? && l.ended.value.test == c.test
  {
    if l.openFixtures != [] {
      assert Last(l.openFixtures) in l.openFixtures;
    }
  }

  /** Where no test begins or is written while a fixture is open, every fixture is recorded on its own test. */
  lemma {:induction false} FixturesFirstRecordOwn(trace: seq<Call>)
    requires Of(trace).Some? && AllObey(FixturesFirst, trace)
    ensures OnOwnTests(trace) && SameTest(Of(trace).value)
  {
    hide Allowed, Record, Update, Obeys, SameTest;
    if trace == [] {
      assert SameTest(BLANK) by { NoneSame(); }
    } else {
      FixturesFirstRecordOwn(Front(trace));
      SameTestStep(Of(Front(trace)).value, Last(trace));
    }
  }

  lemma NoneSame()
    ensures SameTest(BLANK)
  {
  }

  /** Call `j` records the fixture, which the call before it stopped. */
  predicate Records(trace: seq<Call>, j: nat, fixture: nat)
    requires j < |trace|
  {
    j > 0 && trace[j].AddTestFixture? && trace[j - 1].StopFixture? && trace[j - 1].fixture == fixture
  }

  /** No test begins between the start of a fixture and its being recorded. */
  ghost predicate Undisturbed(trace: seq<Call>) {
    forall i, n, j :: 0 <= i < n < j < |trace| && trace[i].StartFixture? && Records(trace, j, trace[i].fixture) ==>
      !trace[n].StartTest?
  }

  /** Tests are numbered as they begin. */
  lemma {:induction false} TestsCounted(trace: seq<Call>, i: nat)
    requires Of(trace).Some? && i <= |trace|
    ensures Of(trace[..i]).Some? && Of(trace[..i]).value.tests <= Of(trace).value.tests
    ensures Of(trace[..i]).value.tests == Of(trace).value.tests <==>
            forall n :: i <= n < |trace| ==> !trace[n].StartTest?
    decreases |trace| - i
  {
    hide Of, Allowed;
    OfPrefix(trace, i);
    if i == |trace| {
      assert trace[..i] == trace;
    } else {
      TestsCounted(trace, i + 1);
      assert trace[..i + 1] == trace[..i] + [trace[i]];
      OfAppend(trace[..i], trace[i]);
    }
  }

  /** The fixture just stopped is the one that call `i` started, if their numbers agree. */
  lemma {:induction false} EndedIsStarted(before: seq<Call>, i: nat)
    requires Of(before).Some? && i < |before| && before[i].StartFixture?
    requires Last(before).StopFixture? && Last(before).fixture == before[i].fixture
    ensures Of(before).value.ended.Some? && IsSame(Of(before).value.ended.value, StartedBy(before, i))
  {
    hide Update, TimesStopped, Of;
    var front, f := Front(before), before[i].fixture;
    OfAppend(front, Last(before));
    assert before == front + [Last(before)];
    var l := Of(front).value;
    assert IsOpen(f, l);
    FixturesOnce(front, f);
    StartedInFront(before, i);
    StartedStaysOpen(front, i);
    OpenFixturesAscend(front);
    var y :| y in l.openFixtures && IsSame(StartedBy(before, i), y);
  }

  lemma {:induction false} RecordedOnOwn(trace: seq<Call>, i: nat)
    requires Of(trace).Some? && i < |trace| && trace[i].StartFixture? && Records(trace, |trace| - 1, trace[i].fixture)
    ensures
      var l := Of(Front(trace));
      && l.Some? && l.value.ended.Some?
      && (l.value.ended.value.test == Last(trace).test <==> forall n :: i < n < |trace| ==> !trace[n].StartTest?)
  {
    hide Record, Update;
    var front := Front(trace);
    EndedIsStarted(front, i);
    OfPrefix(front, i);
    TestsInOrder(front[..i]);
    TestsInOrder(front);
    TestsCounted(front, i);
  }

  /** Of an allowed trace: every fixture is recorded on its own test if and only if no test begins between the start of
      a fixture and its being recorded. */
  lemma {:induction false} OnOwnTestsExactly(trace: seq<Call>)
    requires Of(trace).Some?
    ensures OnOwnTests(trace) <==> Undisturbed(trace)
  {
    hide Of;
    if trace != [] {
      var front := Front(trace);
      assert Of(front).Some? by { OfPrefix(trace, |front|); }
      OnOwnTestsExactly(front);
      if !Last(trace).AddTestFixture? {
        UndisturbedBy(trace);
      } else if OnOwnTests(trace) {
        LastUndisturbed(trace);
      } else if Undisturbed(trace) {
        FrontUndisturbed(trace);
        var i := RecordedStart(trace);
        RecordedOnOwn(trace, i);
      }
    }
  }

  lemma UndisturbedBy(trace: seq<Call>)
    requires trace != [] && !Last(trace).AddTestFixture?
    ensures Undisturbed(trace) <==> Undisturbed(Front(trace))
  {
    var front := Front(trace);
    if Undisturbed(trace) {
      FrontUndisturbed(trace);
    }
    if Undisturbed(front) {
      forall i, n, j | 0 <= i < n < j < |trace| && trace[i].StartFixture? && Records(trace, j, trace[i].fixture)
        ensures !trace[n].StartTest?
      {
        assert j < |front|;
        assert Records(front, j, front[i].fixture);
      }
    }
  }

  lemma FrontUndisturbed(trace: seq<Call>)
    requires trace != [] && Undisturbed(trace)
    ensures Undisturbed(Front(trace))
  {
    var front := Front(trace);
    forall i, n, j | 0 <= i < n < j < |front| && front[i].StartFixture? && Records(front, j, front[i].fixture)
      ensures !front[n].StartTest?
    {
      assert Records(trace, j, trace[i].fixture);
    }
  }

  lemma {:induction false} LastUndisturbed(trace: seq<Call>)
    requires Of(trace).Some? && trace != [] && Last(trace).AddTestFixture? && OnOwnTests(trace)
             && Undisturbed(Front(trace))
    ensures Undisturbed(trace)
  {
    hide Of, OnOwnTests;
    var front := Front(trace);
    LastOwn(trace);
    forall i, n, j | 0 <= i < n < j < |trace| && trace[i].StartFixture? && Records(trace, j, trace[i].fixture)
      ensures !trace[n].StartTest?
    {
      if j < |front| {
        assert Records(front, j, front[i].fixture);
      } else {
        RecordedOnOwn(trace, i);
      }
    }
  }

  lemma LastOwn(trace: seq<Call>)
    requires Of(trace).Some? && trace != [] && Last(trace).AddTestFixture? && OnOwnTests(trace)
    ensures Of(Front(trace)).Some? && Of(Front(trace)).value.ended.Some?
    ensures Of(Front(trace)).value.ended.value.test == Last(trace).test
  {
  }

  /** A recorded fixture was stopped by the call before, and started by an earlier one. */
  lemma {:induction false} RecordedStart(trace: seq<Call>) returns (i: nat)
    requires Of(trace).Some? && trace != [] && Last(trace).AddTestFixture?
    ensures i < |trace| - 1 && trace[i].StartFixture? && Records(trace, |trace| - 1, trace[i].fixture)
  {
    hide Update;
    var front := Front(trace);
    assert Of(front).value.ended.Some?;
    assert front != [] && Last(front).StopFixture?;
    var l := Of(Front(front)).value;
    var x := Last(l.openFixtures);
    assert IsSame(x, x) && x in l.openFixtures;
    i := OpenWasStarted(Front(front), x);
  }
}
