/** Scopes and test starts depend on suite and test messages alone; hooks and steps may stand anywhere. */
module AllureScopes {
  import opened Wrappers
  import opened AllureMessages
  import opened AllureReplay

  // ----- Hooks and steps leave scopes and tests alone

  /** A call that neither opens nor closes a scope nor starts, names or ends a test; a fixture goes to the innermost
      scope. */
  predicate IsDetail(c: Call, scopes: seq<nat>) {
    && !c.StartScope? && !c.WriteScope? && !IsTestMark(c)
    && (c.StartFixture? ==> scopes != [] && c.scope == Last(scopes))
  }

  predicate IsTestMark(c: Call) {
    c.StartTest? || c.SetTestName? || c.SetTestStatus? || c.StopTest?
  }

  /** From `s` to `t` only such calls were made. */
  ghost predicate OnlyDetails(s: Replay, t: Replay) {
    && t.scopes == s.scopes && t.executables == s.executables
    && t.nextScope == s.nextScope && t.nextTest == s.nextTest
    && s.trace <= t.trace && forall k :: |s.trace| <= k < |t.trace| ==> IsDetail(t.trace[k], s.scopes)
  }

  lemma DetailsChain(s: Replay, t: Replay, u: Replay)
    requires OnlyDetails(s, t) && OnlyDetails(t, u)
    ensures OnlyDetails(s, u)
  {
  }

  lemma StartHookDetails(s: Replay, name: string, kind: HookKind, start: int)
    ensures OnlyDetails(s, StartHook(s, name, kind, start))
  {
    hide AfterAll;
  }

  lemma EndHookDetails(s: Replay, o: Outcome)
    ensures OnlyDetails(s, EndHook(s, o))
  {
    hide FinishFixture;
    if s.current.Some? && s.fixtures != [] {
      FinishDetails(s, o);
    }
  }

  lemma FinishDetails(s: Replay, o: Outcome)
    requires s.current.Some? && s.fixtures != []
    ensures OnlyDetails(s, FinishFixture(s, o))
  {
    hide CloseHookSteps;
    StopsAreDetails(s.(fixtures := Front(s.fixtures)), Last(s.fixtures), o);
  }

  lemma StopsAreDetails(s: Replay, f: nat, o: Outcome)
    ensures OnlyDetails(s, CloseHookSteps(s, f, o))
  {
  }

  lemma {:induction false} ReplayBodyDetails(s: Replay, f: nat, body: seq<Message>)
    ensures OnlyDetails(s, ReplayBody(s, f, body))
    decreases |body|
  {
    if body != [] {
      ReplayBodyDetails(s, f, Front(body));
    }
  }

  lemma AttachBodyDetails(s: Replay, body: seq<Message>)
    ensures OnlyDetails(s, AttachBody(s, body))
  {
    if s.fixtures != [] {
      ReplayBodyDetails(s, Last(s.fixtures), body);
    }
  }

  lemma AttachAtDetails(s: Replay, i: nat, j: nat)
    requires i < j < |s.pending| && s.pending[i].HookStart? && s.pending[j].HookEnd?
    ensures OnlyDetails(s, AttachAt(s, i, j))
  {
    hide StartHook, EndHook, AttachBody;
    var m, body := s.pending[i], s.pending[i + 1..j];
    var s1 := StartHook(s, m.name, m.kind, m.start);
    StartHookDetails(s, m.name, m.kind, m.start);
    var s2 := AttachBody(s1, body);
    AttachBodyDetails(s1, body);
    DetailsChain(s, s1, s2);
    var s3 := EndHook(s2, s.pending[j].outcome);
    EndHookDetails(s2, s.pending[j].outcome);
    DetailsChain(s, s2, s3);
    assert OnlyDetails(s3, Splice(s3, i, j));
  }

  lemma AttachDetails(s: Replay, kind: HookKind, scope: HookScope)
    ensures OnlyDetails(s, Attach(s, kind, scope))
  {
    hide AttachAt;
    var i := FindHook(s.pending, kind, scope, 0);
    if s.current.Some? && i < |s.pending| {
      var j := FindEnd(s.pending, i + 1);
      if j < |s.pending| {
        AttachAtDetails(s, i, j);
      }
    }
  }

  lemma HookEndDetails(feature: bool, s: Replay, o: Outcome)
    ensures OnlyDetails(s, RunHookEnd(feature, s, o))
  {
    EndHookDetails(s, o);
    var s0 := Queue(s, HookEnd(o), false);
    AttachDetails(s0, Before, All);
    var s1 := Attach(s0, Before, All);
    AttachDetails(s1, Before, Each);
    var s2 := Attach(s1, Before, Each);
    DetailsChain(s0, s1, s2);
    AttachDetails(s2, After, Each);
    var s3 := Attach(s2, After, Each);
    DetailsChain(s0, s2, s3);
    AttachDetails(s3, After, All);
    DetailsChain(s0, s3, Attach(s3, After, All));
  }

  /** Everything replayed at a test's start, after the test itself, goes to the test's own scope. */
  lemma HooksAtTestStart(feature: bool, s: Replay, name: string, start: int)
    ensures
      var begun, t := BeginTest(s, name, start), RunTestStart(feature, s, name, start);
      && OnlyDetails(begun, t)
      && Last(begun.trace) == StartTest(s.nextTest, name, start, s.scopes + [s.nextScope])
      && forall k :: |begun.trace| <= k < |t.trace| && t.trace[k].StartFixture? ==> t.trace[k].scope == s.nextScope
  {
    var s1 := BeginTest(s, name, start);
    AttachDetails(s1, Before, All);
    AttachDetails(Attach(s1, Before, All), Before, Each);
    DetailsChain(s1, Attach(s1, Before, All), Attach(Attach(s1, Before, All), Before, Each));
  }

  lemma HooksAtTestEnd(feature: bool, s: Replay, o: Outcome)
    ensures OnlyDetails(EndTest(s, o), RunTestEnd(feature, s, o))
  {
    var s1 := EndTest(s, o);
    AttachDetails(s1, After, Each);
    AttachDetails(Attach(s1, After, Each), After, All);
    DetailsChain(s1, Attach(s1, After, Each), Attach(Attach(s1, After, Each), After, All));
  }

  // ----- The outline of a replay

  datatype Started = Started(test: nat, name: string, start: int, scopes: seq<nat>)
  datatype Ended = Ended(test: nat, outcome: Outcome)
  datatype Named = Named(test: nat, fullName: string)

  /** The scope stack, the tests not ended, the name each scope was opened under; the tests started, those ended
      and with what, and the full names given. */
  datatype Outline = Outline(scopes: seq<nat>, running: seq<nat>, names: seq<string>,
                             tests: seq<Started>, ends: seq<Ended>, infos: seq<Named>)

  const BLANK := Outline([], [], [], [], [], [])

  function Open(o: Outline, name: string): Outline {
    o.(scopes := o.scopes + [|o.names|], names := o.names + [name])
  }

  function Close(o: Outline): Outline {
    if o.scopes == [] then o else o.(scopes := Front(o.scopes))
  }

  function OutlineStep(o: Outline, m: Message): Outline {
    match m
    case SuiteStart(name, _) => Open(o, name)
    case SuiteEnd => Close(o)
    case TestStart(name, start) =>
      var o1 := Open(o, name);
      o1.(running := o.running + [|o.tests|], tests := o.tests + [Started(|o.tests|, name, start, o1.scopes)])
    case TestInfo(fullName) =>
      if o.running == [] then o else o.(infos := o.infos + [Named(Last(o.running), fullName)])
    case TestEnd(outcome) =>
      if o.running == [] then o
      else Close(o.(running := Front(o.running), ends := o.ends + [Ended(Last(o.running), outcome)]))
    case _ => o
  }

  function OutlineFrom(o: Outline, log: seq<Message>): Outline {
    if log == [] then o else OutlineStep(OutlineFrom(o, Front(log)), Last(log))
  }

  function TestStarts(trace: seq<Call>): seq<Started> {
    if trace == [] then []
    else
      TestStarts(Front(trace)) +
      match Last(trace)
      case StartTest(t, name, start, scopes) => [Started(t, name, start, scopes)]
      case _ => []
  }

  function Statuses(trace: seq<Call>): seq<Ended> {
    if trace == [] then []
    else
      Statuses(Front(trace)) + if Last(trace).SetTestStatus? then [Ended(Last(trace).test, Last(trace).outcome)] else []
  }

  function Stopped(trace: seq<Call>): seq<Ended> {
    if trace == [] then []
    else Stopped(Front(trace)) + if Last(trace).StopTest? then [Ended(Last(trace).test, Last(trace).outcome)] else []
  }

  function FullNames(trace: seq<Call>): seq<Named> {
    if trace == [] then []
    else FullNames(Front(trace)) + if Last(trace).SetTestName? then [Named(Last(trace).test, Last(trace).fullName)]
      else []
  }

  ghost predicate SameMarks(s: seq<Call>, t: seq<Call>) {
    TestStarts(s) == TestStarts(t) && Statuses(s) == Statuses(t) && Stopped(s) == Stopped(t)
      && FullNames(s) == FullNames(t)
  }

  lemma {:induction false} DetailsKeepMarks(s: seq<Call>, t: seq<Call>)
    requires s <= t && forall k :: |s| <= k < |t| ==> !IsTestMark(t[k])
    ensures SameMarks(s, t)
    decreases |t|
  {
    if |s| < |t| {
      DetailsKeepMarks(s, Front(t));
    } else {
      assert s == t;
    }
  }

  lemma MarkAppend(trace: seq<Call>, c: Call)
    ensures TestStarts(trace + [c]) ==
            TestStarts(trace) + if c.StartTest? then [Started(c.test, c.name, c.start, c.scopes)] else []
    ensures Statuses(trace + [c]) == Statuses(trace) + if c.SetTestStatus? then [Ended(c.test, c.outcome)] else []
    ensures Stopped(trace + [c]) == Stopped(trace) + if c.StopTest? then [Ended(c.test, c.outcome)] else []
    ensures FullNames(trace + [c]) == FullNames(trace) + if c.SetTestName? then [Named(c.test, c.fullName)] else []
  {
    assert Front(trace + [c]) == trace;
  }

  ghost predicate Outlines(o: Outline, s: Replay) {
    && o.scopes == s.scopes && o.running == s.executables
    && |o.names| == s.nextScope && |o.tests| == s.nextTest && o.tests == TestStarts(s.trace)
    && o.ends == Statuses(s.trace) == Stopped(s.trace) && o.infos == FullNames(s.trace)
  }

  lemma DetailsKeepOutline(o: Outline, s: Replay, t: Replay)
    requires Outlines(o, s) && OnlyDetails(s, t)
    ensures Outlines(o, t)
  {
    DetailsKeepMarks(s.trace, t.trace);
  }

  lemma CallsStartNoTest(s: seq<Call>, calls: seq<Call>)
    requires forall k :: 0 <= k < |calls| ==> !IsTestMark(calls[k])
    ensures SameMarks(s, s + calls)
  {
    DetailsKeepMarks(s, s + calls);
  }

  lemma CloseScopeOutline(o: Outline, s: Replay)
    requires Outlines(o, s)
    ensures Outlines(Close(o), CloseScope(s))
  {
    if s.scopes != [] {
      CallsStartNoTest(s.trace, [WriteScope(Last(s.scopes))]);
    }
  }

  lemma WriteTestOutline(o: Outline, s: Replay)
    requires Outlines(o, s)
    ensures Outlines(o, WriteLastTest(s))
  {
    if s.current.Some? {
      CallsStartNoTest(s.trace, [WriteTest(s.current.value)]);
    }
  }

  lemma OpenScopeOutline(o: Outline, s: Replay, name: string)
    requires Outlines(o, s)
    ensures Outlines(Open(o, name), OpenScope(s))
  {
    CallsStartNoTest(s.trace, [StartScope(s.nextScope)]);
  }

  lemma BeginTestOutline(o: Outline, s: Replay, name: string, start: int)
    requires Outlines(o, s)
    ensures Outlines(OutlineStep(o, TestStart(name, start)), BeginTest(s, name, start))
  {
    hide TestStarts, Statuses, Stopped, FullNames, WriteLastTest;
    WriteTestOutline(o, s);
    OpenScopeOutline(o, WriteLastTest(s), name);
    var s1 := OpenScope(WriteLastTest(s));
    MarkAppend(s1.trace, StartTest(s1.nextTest, name, start, s1.scopes));
    WriteKeepsRunning(s);
  }

  lemma WriteKeepsRunning(s: Replay)
    ensures WriteLastTest(s).executables == s.executables && WriteLastTest(s).nextTest == s.nextTest
  {
  }

  lemma CloseStepsOutline(o: Outline, s: Replay, out: Outcome)
    requires Outlines(o, s)
    ensures Outlines(o, CloseSteps(s, out))
  {
    hide TestStarts, Statuses, Stopped, FullNames;
    if s.current.Some? {
      CallsStartNoTest(s.trace, Stops(OnTest(s.current.value), s.openSteps, out));
    }
  }

  lemma StopTestOutline(o: Outline, s: Replay, t: nat, out: Outcome)
    requires Outlines(o, s)
    ensures Outlines(o.(ends := o.ends + [Ended(t, out)]), Emit(Emit(s, SetTestStatus(t, out)), StopTest(t, out)))
  {
    hide TestStarts, Statuses, Stopped, FullNames;
    MarkAppend(s.trace, SetTestStatus(t, out));
    MarkAppend(s.trace + [SetTestStatus(t, out)], StopTest(t, out));
  }

  lemma EndTestOutline(o: Outline, s: Replay, out: Outcome)
    requires Outlines(o, s)
    ensures Outlines(OutlineStep(o, TestEnd(out)), EndTest(s, out))
  {
    hide TestStarts, Statuses, Stopped, FullNames, CloseSteps, CloseScope;
    if s.executables != [] {
      var o0, s0 := o.(running := Front(o.running)), s.(executables := Front(s.executables));
      assert Outlines(o0, s0);
      CloseStepsOutline(o0, s0, out);
      CloseScopeOutline(o0, CloseSteps(s0, out));
      StopTestOutline(Close(o0), CloseScope(CloseSteps(s0, out)), Last(s.executables), out);
    }
  }

  lemma StepOutline(feature: bool, last: bool, o: Outline, s: Replay, m: Message)
    requires Outlines(o, s)
    ensures Outlines(OutlineStep(o, m), Step(feature, last, s, m))
  {
    hide Outlines, OpenScope, CloseScope, WriteLastTest, StartHook, RunHookEnd, RunTestStart, RunTestEnd, Deliver,
         AddTestInfo;
    hide OnlyDetails;
    match m
    case SuiteStart(name, _) =>
      WriteTestOutline(o, s);
      OpenScopeOutline(o, WriteLastTest(s), name);
    case SuiteEnd =>
      CloseScopeOutline(o, s);
      WriteTestOutline(Close(o), CloseScope(s));
    case TestStart(name, start) =>
      BeginTestOutline(o, s, name, start);
      HooksAtTestStart(feature, s, name, start);
      DetailsKeepOutline(OutlineStep(o, m), BeginTest(s, name, start), RunTestStart(feature, s, name, start));
    case TestEnd(out) =>
      EndTestOutline(o, s, out);
      HooksAtTestEnd(feature, s, out);
      DetailsKeepOutline(OutlineStep(o, m), EndTest(s, out), RunTestEnd(feature, s, out));
    case HookStart(name, kind, start) =>
      StartHookDetails(s, name, kind, start);
      DetailsKeepOutline(o, s, StartHook(s, name, kind, start));
    case HookEnd(out) =>
      HookEndDetails(feature, s, out);
      DetailsKeepOutline(o, s, RunHookEnd(feature, s, out));
    case TestInfo(fullName) => TestInfoOutline(o, s, fullName);
    case _ =>
      assert OnlyDetails(s, Deliver(s, m)) by { DeliverDetails(s, m); }
      DetailsKeepOutline(o, s, Deliver(s, m));
  }

  lemma TestInfoOutline(o: Outline, s: Replay, fullName: string)
    requires Outlines(o, s)
    ensures Outlines(OutlineStep(o, TestInfo(fullName)), AddTestInfo(s, fullName))
  {
    hide TestStarts, Statuses, Stopped, FullNames;
    if s.executables != [] {
      MarkAppend(s.trace, SetTestName(Last(s.executables), fullName));
    }
  }

  lemma DeliverDetails(s: Replay, m: Message)
    ensures OnlyDetails(s, Deliver(s, m))
  {
    hide CountHookStep;
    if s.fixtures != [] {
      CountLeaves(s, Last(s.fixtures), m);
    }
  }

  /** Scopes, running tests, test starts, full names and statuses of a replay are a function of the suite, test and
      info messages alone: an end message gives its outcome to the test started last and not ended, once,
      and stops it. */
  lemma {:induction false} ReplayOutline(log: seq<Message>, n: nat)
    requires n <= |log|
    ensures Outlines(OutlineFrom(BLANK, log[..n]), Replayed(log, n))
  {
    if n > 0 {
      ReplayOutline(log, n - 1);
      assert Front(log[..n]) == log[..n - 1];
      StepOutline(HasFeature(log), n == |log|, OutlineFrom(BLANK, log[..n - 1]), Replayed(log, n - 1), log[n - 1]);
    }
  }

  /** The messages that open or close a scope, in order. */
  function Structural(log: seq<Message>): seq<Message> {
    if log == [] then []
    else Structural(Front(log)) + if IsStructural(Last(log)) then [Last(log)] else []
  }

  lemma {:induction false} OutlineOfStructural(o: Outline, log: seq<Message>)
    ensures OutlineFrom(o, log).(infos := []) == OutlineFrom(o, Structural(log)).(infos := [])
  {
    if log != [] {
      OutlineOfStructural(o, Front(log));
      assert OutlineFrom(o, log) == OutlineStep(OutlineFrom(o, Front(log)), Last(log));
      if IsStructural(Last(log)) {
        assert Structural(log) == Structural(Front(log)) + [Last(log)];
        assert Front(Structural(log)) == Structural(Front(log)) && Last(Structural(log)) == Last(log);
      } else {
        assert Structural(log) == Structural(Front(log));
      }
    }
  }

  lemma {:induction false} OutlineConcat(o: Outline, a: seq<Message>, b: seq<Message>)
    ensures OutlineFrom(o, a + b) == OutlineFrom(OutlineFrom(o, a), b)
    decreases |b|
  {
    if b == [] {
      assert a + b == a;
    } else {
      assert Front(a + b) == a + Front(b);
      OutlineConcat(o, a, Front(b));
    }
  }

  // ----- Suite trees

  datatype Forest =
    | Nil
    | Suite(name: string, feature: bool, children: Forest, rest: Forest)
    | Test(name: string, start: int, outcome: Outcome, rest: Forest)

  function Linear(f: Forest): seq<Message> {
    match f
    case Nil => []
    case Suite(name, feature, children, rest) =>
      [SuiteStart(name, feature)] + Linear(children) + [SuiteEnd] + Linear(rest)
    case Test(name, start, outcome, rest) => [TestStart(name, start), TestEnd(outcome)] + Linear(rest)
  }

  /** How many scopes a forest opens. */
  function ScopeCount(f: Forest): nat {
    match f
    case Nil => 0
    case Suite(_, _, children, rest) => 1 + ScopeCount(children) + ScopeCount(rest)
    case Test(_, _, _, rest) => 1 + ScopeCount(rest)
  }

  /** Where a test stands: the names from the outermost suite down to the test, and the scopes opened for them. */
  datatype Place = Place(path: seq<string>, scopes: seq<nat>)

  /** The places of all tests in pre-order, when the scopes of suites and tests are numbered in pre-order from `next`
      on; `path` and `outer` lead to the forest. */
  function Places(f: Forest, path: seq<string>, outer: seq<nat>, next: nat): seq<Place> {
    match f
    case Nil => []
    case Suite(name, _, children, rest) =>
      Places(children, path + [name], outer + [next], next + 1)
      + Places(rest, path, outer, next + 1 + ScopeCount(children))
    case Test(name, _, _, rest) => [Place(path + [name], outer + [next])] + Places(rest, path, outer, next + 1)
  }

  ghost predicate InRange(scopes: seq<nat>, names: seq<string>) {
    forall i :: 0 <= i < |scopes| ==> scopes[i] < |names|
  }

  /** The names under which the scopes of a list were opened. */
  ghost function Titles(scopes: seq<nat>, names: seq<string>): (r: seq<string>)
    requires InRange(scopes, names)
    ensures |r| == |scopes| && forall i :: 0 <= i < |r| ==> r[i] == names[scopes[i]]
  {
    seq(|scopes|, i requires 0 <= i < |scopes| => names[scopes[i]])
  }

  ghost predicate HasPath(t: Started, names: seq<string>, path: seq<string>) {
    InRange(t.scopes, names) && Titles(t.scopes, names) == path
  }

  ghost predicate IsAt(t: Started, names: seq<string>, place: Place) {
    t.scopes == place.scopes && HasPath(t, names, place.path)
  }

  /** From `a` to `b` the tests at these places were started, `n` scopes were opened, and the scope stack is as it
      was. */
  ghost predicate Grows(a: Outline, b: Outline, places: seq<Place>, n: nat) {
    && b.scopes == a.scopes && b.running == a.running && InRange(a.scopes, a.names)
    && a.names <= b.names && |b.names| == |a.names| + n && a.tests <= b.tests && |b.tests| == |a.tests| + |places|
    && forall i :: |a.tests| <= i < |b.tests| ==> IsAt(b.tests[i], b.names, places[i - |a.tests|])
  }

  lemma GrowsConcat(a: Outline, b: Outline, c: Outline, p: seq<Place>, q: seq<Place>, m: nat, n: nat)
    requires Grows(a, b, p, m) && Grows(b, c, q, n)
    ensures Grows(a, c, p + q, m + n)
  {
    forall i | |a.tests| <= i < |c.tests|
      ensures IsAt(c.tests[i], c.names, (p + q)[i - |a.tests|])
    {
      if i < |b.tests| {
        assert c.tests[i] == b.tests[i] && IsAt(b.tests[i], b.names, p[i - |a.tests|]);
        assert Titles(c.tests[i].scopes, c.names) == Titles(c.tests[i].scopes, b.names);
      } else {
        assert IsAt(c.tests[i], c.names, q[i - |b.tests|]);
      }
    }
  }

  lemma {:induction false} TestGrows(o: Outline, name: string, start: int, outcome: Outcome)
    requires InRange(o.scopes, o.names)
    ensures Grows(o, OutlineFrom(o, [TestStart(name, start), TestEnd(outcome)]),
                  [Place(Titles(o.scopes, o.names) + [name], o.scopes + [|o.names|])], 1)
  {
    var log := [TestStart(name, start), TestEnd(outcome)];
    assert Front(log) == [TestStart(name, start)] && Front(Front(log)) == [];
    var o1 := OutlineStep(o, TestStart(name, start));
    assert OutlineFrom(o, Front(Front(log))) == o;
    assert OutlineFrom(o, Front(log)) == o1;
    assert Titles(o1.scopes, o1.names) == Titles(o.scopes, o.names) + [name];
    assert Front(o1.scopes) == o.scopes && Front(o1.running) == o.running;
  }

  /** A suite around some messages opens one scope before them and closes the innermost one after them. */
  lemma SuiteOutline(o: Outline, name: string, feature: bool, inner: seq<Message>)
    ensures OutlineFrom(o, [SuiteStart(name, feature)] + inner + [SuiteEnd]) == Close(OutlineFrom(Open(o, name), inner))
  {
    var start := [SuiteStart(name, feature)];
    assert OutlineFrom(o, start) == Open(o, name) by {
      assert Front(start) == [] && OutlineFrom(o, Front(start)) == o;
    }
    OutlineConcat(o, start, inner);
    assert Front(start + inner + [SuiteEnd]) == start + inner;
  }

  lemma OpenTitles(o: Outline, name: string)
    requires InRange(o.scopes, o.names)
    ensures InRange(Open(o, name).scopes, Open(o, name).names)
    ensures Titles(Open(o, name).scopes, Open(o, name).names) == Titles(o.scopes, o.names) + [name]
  {
  }

  lemma GrownTitles(a: Outline, b: Outline, places: seq<Place>, n: nat)
    requires Grows(a, b, places, n)
    ensures InRange(b.scopes, b.names) && Titles(b.scopes, b.names) == Titles(a.scopes, a.names)
    ensures b.scopes == a.scopes && |b.names| == |a.names| + n
  {
  }

  lemma {:induction false} ForestGrows(f: Forest, o: Outline)
    requires InRange(o.scopes, o.names)
    ensures Grows(o, OutlineFrom(o, Linear(f)), Places(f, Titles(o.scopes, o.names), o.scopes, |o.names|),
              ScopeCount(f))
    decreases f, 1
  {
    hide Titles, OutlineFrom, InRange, Grows;
    match f
    case Nil => NothingGrows(o);
    case Test(_, _, _, _) => TestFirstGrows(f, o);
    case Suite(_, _, _, _) => SuiteFirstGrows(f, o);
  }

  lemma {:induction false} TestFirstGrows(f: Forest, o: Outline)
    requires f.Test? && InRange(o.scopes, o.names)
    ensures Grows(o, OutlineFrom(o, Linear(f)), Places(f, Titles(o.scopes, o.names), o.scopes, |o.names|),
              ScopeCount(f))
    decreases f, 0
  {
    hide Titles, OutlineFrom, InRange, Grows;
    var path, next := Titles(o.scopes, o.names), |o.names|;
    var head := [TestStart(f.name, f.start), TestEnd(f.outcome)];
    var place := [Place(path + [f.name], o.scopes + [next])];
    OutlineConcat(o, head, Linear(f.rest));
    TestGrows(o, f.name, f.start, f.outcome);
    var o1 := OutlineFrom(o, head);
    GrownTitles(o, o1, place, 1);
    ForestGrows(f.rest, o1);
    var places := Places(f.rest, path, o.scopes, next + 1);
    GrowsConcat(o, o1, OutlineFrom(o1, Linear(f.rest)), place, places, 1, ScopeCount(f.rest));
  }

  lemma {:induction false} SuiteFirstGrows(f: Forest, o: Outline)
    requires f.Suite? && InRange(o.scopes, o.names)
    ensures Grows(o, OutlineFrom(o, Linear(f)), Places(f, Titles(o.scopes, o.names), o.scopes, |o.names|),
              ScopeCount(f))
    decreases f, 0
  {
    hide Titles, OutlineFrom, InRange, Grows;
    var path, next := Titles(o.scopes, o.names), |o.names|;
    var o1 := Open(o, f.name);
    var n, inner := ScopeCount(f.children), Places(f.children, path + [f.name], o.scopes + [next], next + 1);
    OpenTitles(o, f.name);
    ForestGrows(f.children, o1);
    var o2 := OutlineFrom(o1, Linear(f.children));
    SuiteGrows(o, o1, o2, inner, n, f.name);
    SuiteOutline(o, f.name, f.feature, Linear(f.children));
    var o3 := Close(o2);
    GrownTitles(o, o3, inner, 1 + n);
    OutlineConcat(o, [SuiteStart(f.name, f.feature)] + Linear(f.children) + [SuiteEnd], Linear(f.rest));
    ForestGrows(f.rest, o3);
    var places := Places(f.rest, path, o.scopes, next + 1 + n);
    GrowsConcat(o, o3, OutlineFrom(o3, Linear(f.rest)), inner, places, 1 + n, ScopeCount(f.rest));
  }

  lemma NothingGrows(o: Outline)
    requires InRange(o.scopes, o.names)
    ensures Grows(o, OutlineFrom(o, []), [], 0)
  {
  }

  lemma SuiteGrows(o: Outline, o1: Outline, o2: Outline, places: seq<Place>, n: nat, name: string)
    requires InRange(o.scopes, o.names) && o1 == Open(o, name) && Grows(o1, o2, places, n)
    ensures Grows(o, Close(o2), places, 1 + n)
  {
    assert Front(o1.scopes) == o.scopes;
    assert Close(o2).tests == o2.tests && Close(o2).names == o2.names;
  }

  /**
    Tree reconstruction. Whatever hook, step and label messages stand among them, replaying the suite and test
    messages of a forest starts its tests in pre-order, each with exactly the scopes opened for its enclosing suites
    from the outside in and then its own, under their names, and closes every scope again.
   */
  lemma {:induction false} TreeReconstruction(f: Forest, log: seq<Message>)
    requires Structural(log) == Linear(f)
    ensures
      var s := Replayed(log, |log|);
      var names := OutlineFrom(BLANK, log).names;
      var tests, places := TestStarts(s.trace), Places(f, [], [], 0);
      && s.scopes == [] && s.executables == [] && s.nextScope == ScopeCount(f)
      && |tests| == |places|
      && forall i :: 0 <= i < |tests| ==> tests[i].test == i && IsAt(tests[i], names, places[i])
  {
    hide Replayed, OutlineFrom, Structural, TestStarts, Statuses, Stopped, FullNames, IsAt, Linear, Places;
    ReplayOutline(log, |log|);
    assert log[..|log|] == log;
    OutlineOfForest(f, log);
  }

  /** The same of the outline. */
  lemma {:induction false} OutlineOfForest(f: Forest, log: seq<Message>)
    requires Structural(log) == Linear(f)
    ensures
      var o, places := OutlineFrom(BLANK, log), Places(f, [], [], 0);
      && o.scopes == [] && o.running == [] && |o.tests| == |places| && |o.names| == ScopeCount(f)
      && forall i :: 0 <= i < |o.tests| ==> o.tests[i].test == i && IsAt(o.tests[i], o.names, places[i])
  {
    hide OutlineFrom, Structural, IsAt, Linear, Places;
    OutlineOfStructural(BLANK, log);
    ForestGrows(f, BLANK);
    TestsNumbered(BLANK, log);
    assert Titles([], []) == [];
  }

  lemma {:induction false} TestsNumbered(o: Outline, log: seq<Message>)
    requires forall i :: 0 <= i < |o.tests| ==> o.tests[i].test == i
    ensures forall i :: 0 <= i < |OutlineFrom(o, log).tests| ==> OutlineFrom(o, log).tests[i].test == i
  {
    if log != [] {
      TestsNumbered(o, Front(log));
      assert OutlineFrom(o, log) == OutlineStep(OutlineFrom(o, Front(log)), Last(log));
    }
  }

  // ----- Heights

  /** In no prefix are there more ends than starts. */
  ghost predicate NeverBelow(p: Pair, log: seq<Message>) {
    forall k :: 0 <= k <= |log| ==> Balance(p, log[..k]) >= 0
  }

  lemma {:induction false} Heights(log: seq<Message>)
    requires NeverBelow(SuitePair, log) && NeverBelow(TestPair, log)
    ensures
      var o := OutlineFrom(BLANK, log);
      |o.running| == Balance(TestPair, log) && |o.scopes| == Balance(SuitePair, log) + Balance(TestPair, log)
  {
    assert log[..|log|] == log;
    if log != [] {
      var before := Front(log);
      assert forall k :: 0 <= k <= |before| ==> before[..k] == log[..k];
      Heights(before);
      assert Balance(SuitePair, log) >= 0 && Balance(TestPair, log) >= 0;
    }
  }

  /** Where the balance never goes below zero, a closing message finds it above zero. */
  lemma ClosingFindsOpen(p: Pair, log: seq<Message>, n: nat)
    requires n < |log| && NeverBelow(p, log) && Closes(p, log[n])
    ensures Balance(p, log[..n]) > 0
  {
    var upTo := log[..n + 1];
    assert Front(upTo) == log[..n] && Last(upTo) == log[n];
    assert Balance(p, upTo) >= 0;
  }

  lemma PrefixNeverBelow(p: Pair, log: seq<Message>, n: nat)
    requires n <= |log| && NeverBelow(p, log)
    ensures NeverBelow(p, log[..n]) && Balance(p, log[..n]) >= 0
  {
    assert forall k :: 0 <= k <= n ==> log[..n][..k] == log[..k];
  }

  /** With balanced suites and tests the scope stack is as high as the open suites and tests. */
  lemma {:induction false} ScopeHeights(log: seq<Message>, n: nat)
    requires n <= |log| && NeverBelow(SuitePair, log) && NeverBelow(TestPair, log)
    ensures |Replayed(log, n).scopes| == Balance(SuitePair, log[..n]) + Balance(TestPair, log[..n])
    ensures |Replayed(log, n).executables| == Balance(TestPair, log[..n])
  {
    ReplayOutline(log, n);
    PrefixNeverBelow(SuitePair, log, n);
    PrefixNeverBelow(TestPair, log, n);
    Heights(log[..n]);
  }

  /** ... so an end message finds neither the scope stack nor the stack of running tests empty. */
  lemma {:induction false} NoEmptyPop(log: seq<Message>, n: nat)
    requires n < |log| && NeverBelow(SuitePair, log) && NeverBelow(TestPair, log)
    ensures log[n].SuiteEnd? || log[n].TestEnd? ==> Replayed(log, n).scopes != []
    ensures log[n].TestEnd? ==> Replayed(log, n).executables != []
  {
    ScopeHeights(log, n);
    PrefixNeverBelow(SuitePair, log, n);
    PrefixNeverBelow(TestPair, log, n);
    if log[n].SuiteEnd? {
      ClosingFindsOpen(SuitePair, log, n);
    } else if log[n].TestEnd? {
      ClosingFindsOpen(TestPair, log, n);
    }
  }

  /** On alternating tests the reporter's pending check on a log answers whether replaying it leaves a test running. */
  lemma {:induction false} PendingIsRunning(log: seq<Message>)
    requires Alternates(TestPair, log)
    ensures IsPending(TestPair, log) <==> Replayed(log, |log|).executables != []
  {
    ReplayOutline(log, |log|);
    assert log[..|log|] == log;
    RunningIsPending(log);
  }

  lemma {:induction false} RunningIsPending(log: seq<Message>)
    requires Alternates(TestPair, log)
    ensures |OutlineFrom(BLANK, log).running| == if IsPending(TestPair, log) then 1 else 0
  {
    if log != [] {
      RunningIsPending(Front(log));
    }
  }

  // ----- Which test gets which outcome

  /** What the end messages carry, in order. */
  function Outcomes(log: seq<Message>): seq<Outcome> {
    if log == [] then []
    else Outcomes(Front(log)) + if Last(log).TestEnd? then [Last(log).outcome] else []
  }

  lemma {:induction false} EndsInOrder(log: seq<Message>)
    requires Alternates(TestPair, log)
    ensures
      var o := OutlineFrom(BLANK, log);
      && o.running == (if IsPending(TestPair, log) then [|o.ends|] else [])
      && |o.tests| == |o.ends| + |o.running| && |o.ends| == |Outcomes(log)|
      && forall k :: 0 <= k < |o.ends| ==> o.ends[k] == Ended(k, Outcomes(log)[k])
  {
    if log != [] {
      EndsInOrder(Front(log));
    }
  }

  /** On alternating tests the k-th test is given the k-th end message's outcome as its status, and is stopped with
      it; no other status is set and nothing else is stopped. */
  lemma {:induction false} EveryTestGetsItsOutcome(log: seq<Message>)
    requires Alternates(TestPair, log)
    ensures
      var trace := Replayed(log, |log|).trace;
      && Stopped(trace) == Statuses(trace) && |Statuses(trace)| == |Outcomes(log)|
      && forall k :: 0 <= k < |Outcomes(log)| ==> Statuses(trace)[k] == Ended(k, Outcomes(log)[k])
  {
    ReplayOutline(log, |log|);
    assert log[..|log|] == log;
    EndsInOrder(log);
  }
}
