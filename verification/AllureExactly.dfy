/** The exact conditions for tests and for fixtures as they can be read off a log, when a test may start in a hook. */
module AllureExactly {
  import opened Wrappers
  import opened Text
  import opened AllureMessages
  import opened AllureReplay
  import opened AllureLedger
  import opened AllureHookBuffer
  import opened AllureBuffering
  import opened AllureOrder
  import opened AllureStopBeforeWrite
  import opened AllureLifecycle
  import Fixtures = AllureFixtures
  import Scopes = AllureScopes

  /** Names as the framework gives them: of the after-type hooks just the after-all ones mention "all", and those do
      not mention "each"; no before-type hook is named after all. */
  predicate PlainHook(name: string, kind: HookKind) {
    if kind.Before? then !AfterAll(name)
    else (InScope(name, All) <==> AfterAll(name)) && (AfterAll(name) ==> !InScope(name, Each))
  }

  ghost predicate AllPlain(ns: set<(string, HookKind)>) {
    forall n :: n in ns ==> PlainHook(n.0, n.1)
  }

  // ----- What can be read off a log

  predicate SeenAfterAll(log: seq<Message>) {
    log != [] && ((Last(log).HookStart? && AfterAll(Last(log).name)) || SeenAfterAll(Front(log)))
  }

  /** A test has been started, and nothing has come since that makes the replay write it: a suite, an after-all hook,
      or, without a feature, a test end or the end of a hook that waits, once an after-all hook has been seen. */
  predicate HasLiveTest(feature: bool, log: seq<Message>)
    decreases |log|, 0
  {
    log != [] &&
    var before := Front(log);
    match Last(log)
    case SuiteStart(_, _) => false
    case TestStart(_, _) => true
    case TestEnd(_) => HasLiveTest(feature, before) && (feature || !SeenAfterAll(before))
    case HookStart(name, _, _) => HasLiveTest(feature, before) && !AfterAll(name)
    case HookEnd(_) => HasLiveTest(feature, before) && (feature || !HookWaits(feature, before) || !SeenAfterAll(before))
    case _ => HasLiveTest(feature, before)
  }

  /** A hook that begins with this name waits in the buffer. */
  predicate WillWait(feature: bool, before: seq<Message>, name: string)
    decreases |before|, 1
  {
    AfterAll(name) || !HasLiveTest(feature, before)
  }

  /** The hook that has begun found no live test. */
  predicate HookWaits(feature: bool, log: seq<Message>)
    decreases |log|, 0
  {
    log != [] &&
    match Last(log)
    case HookStart(name, _, _) => WillWait(feature, Front(log), name)
    case HookEnd(_) => false
    case _ => HookWaits(feature, Front(log))
  }

  /** The hook that has begun found a live test: its fixture is open. */
  predicate InLiveHook(feature: bool, log: seq<Message>) {
    IsPending(HookPair, log) && !HookWaits(feature, log)
  }

  /** Tests one after another with no suite event inside; hooks one at a time, plainly named when they wait, begun in
      an open scope when they do not; no suite event inside a hook that does not wait; a test may start, but
      not end, inside a hook. */
  ghost predicate InOrder(feature: bool, before: seq<Message>, m: Message) {
    var running, inHook := IsPending(TestPair, before), IsPending(HookPair, before);
    match m
    case SuiteStart(_, _) => !running && !InLiveHook(feature, before)
    case SuiteEnd => !running && !InLiveHook(feature, before)
    case TestStart(_, _) => !running
    case TestEnd(_) => running && !inHook
    case HookStart(name, kind, _) =>
      && !inHook && (WillWait(feature, before, name) || Scopes.OutlineFrom(Scopes.BLANK, before).scopes != [])
      && (WillWait(feature, before, name) && !feature ==> PlainHook(name, kind))
    case HookEnd(_) => inHook
    case _ => true
  }

  ghost predicate Ordered(feature: bool, log: seq<Message>) {
    forall k :: 0 <= k < |log| ==> InOrder(feature, log[..k], log[k])
  }

  /** A test has been started since the last hook began. */
  predicate TestSinceHook(log: seq<Message>) {
    log != [] && !Last(log).HookStart? && (Last(log).TestStart? || TestSinceHook(Front(log)))
  }

  /** What can go wrong on ordered logs: a test is written while it runs; a test starts while a fixture is open; a
      fixture is recorded on a test that started after it. */
  datatype Flaw = EarlyWrite | TestInHook | OtherTest

  /** `EarlyWrite`: while a test runs, an after-all hook begins, or, without a feature, a hook that began when no test
      was live ends after an after-all hook has been seen. `TestInHook`: a test starts inside a hook that found a live
      test. `OtherTest`: a hook ends that found a live test, and since then another test has started. */
  predicate IsFlaw(flaw: Flaw, feature: bool, before: seq<Message>, m: Message) {
    match flaw
    case EarlyWrite =>
      && IsPending(TestPair, before)
      && ((m.HookStart? && AfterAll(m.name))
          || (!feature && m.HookEnd? && HookWaits(feature, before) && SeenAfterAll(before)))
    case TestInHook => m.TestStart? && InLiveHook(feature, before)
    case OtherTest => m.HookEnd? && InLiveHook(feature, before) && TestSinceHook(before)
  }

  ghost predicate IsFree(flaw: Flaw, feature: bool, log: seq<Message>) {
    forall k :: 0 <= k < |log| ==> !IsFlaw(flaw, feature, log[..k], log[k])
  }

  // ----- Names in the buffer

  ghost predicate NoneAfterAll(bs: seq<Block>, kind: HookKind) {
    forall b :: b in bs && b.kind == kind ==> !AfterAll(b.name)
  }

  lemma NoneAfterAllOf(bs: seq<Block>, ns: set<(string, HookKind)>)
    requires Names(bs) <= ns && AllPlain(ns)
    ensures NoneAfterAll(bs, Before)
  {
    forall b | b in bs && b.kind.Before?
      ensures !AfterAll(b.name)
    {
      assert (b.name, b.kind) in Names(bs);
    }
  }

  lemma NamesAgree(ns: set<(string, HookKind)>, m: Message, h: OpenHook, ns': set<(string, HookKind)>)
    requires SameNames(ns + Arriving(m, h), ns') && AllPlain(ns)
    requires m.HookStart? && h.Waiting? ==> PlainHook(m.name, m.kind)
    ensures AllPlain(ns')
    ensures HoldsAfterAll(ns') <==> HoldsAfterAll(ns) || (m.HookStart? && h.Waiting? && AfterAll(m.name))
  {
    var all := ns + Arriving(m, h);
    if m.HookStart? && h.Waiting? && AfterAll(m.name) {
      assert (m.name, m.kind) in all;
      assert (m.name, m.kind) in ns';
    }
    if HoldsAfterAll(ns) {
      var n :| n in ns && AfterAll(n.0);
      assert n in all;
      assert n in ns';
    }
    if HoldsAfterAll(ns') {
      var n :| n in ns' && AfterAll(n.0);
      assert n in all;
    }
  }

  lemma EachIsNotAfterAll(s: Replay, bs: seq<Block>)
    requires AllPlain(Names(bs))
    ensures !EffectOf(s, bs, After, Each).Requeued?
  {
    var k := FindBlock(bs, After, Each);
    if k < |bs| {
      assert (bs[k].name, bs[k].kind) in Names(bs);
      assert Wanted(bs[k], After, Each);
    }
  }

  lemma AllIsAfterAll(s: Replay, bs: seq<Block>, ns: set<(string, HookKind)>)
    requires s.current.Some? && AllPlain(ns) && SameNames(ns, Names(bs))
    ensures EffectOf(s, bs, After, All).Requeued? <==> HoldsAfterAll(ns)
  {
    var k := FindBlock(bs, After, All);
    if HoldsAfterAll(ns) {
      var n :| n in ns && AfterAll(n.0);
      assert n in Names(bs);
      var b :| b in bs && n == (b.name, b.kind);
      AfterAllMentionsAll(b.name);
      assert Wanted(b, After, All);
    }
    if k < |bs| {
      assert (bs[k].name, bs[k].kind) in Names(bs);
      assert Wanted(bs[k], After, All);
    }
  }

  // ----- What attaches do to the current test

  /** The before attaches find no after-all hook: the current test stays. */
  lemma {:induction false} BeforeAttaches(s: Replay, bs: seq<Block>, h: OpenHook) returns (bs': seq<Block>)
    requires HasShape(s, bs, h) && NoneAfterAll(bs, Before) && (!h.NoHook? ==> s.scopes != [])
    ensures
      var t := Attach(Attach(s, Before, All), Before, Each);
      HasShape(t, bs', h) && SameNames(Names(bs), Names(bs')) && t.current == s.current
  {
    hide Attach, HasShape, FindBlock, CallsOf;
    var bs1 := BeforeAttach(s, bs, h, All);
    bs' := BeforeAttach(Attach(s, Before, All), bs1, h, Each);
  }

  lemma {:induction false} BeforeAttach(s: Replay, bs: seq<Block>, h: OpenHook,
                                        scope: HookScope)
      returns (bs': seq<Block>)
    requires HasShape(s, bs, h) && NoneAfterAll(bs, Before) && (!h.NoHook? ==> s.scopes != [])
    ensures
      var t := Attach(s, Before, scope);
      && HasShape(t, bs', h) && SameNames(Names(bs), Names(bs')) && NoneAfterAll(bs', Before)
      && t.current == s.current && t.scopes == s.scopes
  {
    hide Attach, HasShape, FindBlock, CallsOf;
    var k := FindBlock(bs, Before, scope);
    if k < |bs| {
      assert Wanted(bs[k], Before, scope) && bs[k] in bs;
    }
    MayAttachKind(s, bs, h, Before, scope);
    AttachShape(s, bs, h, Before, scope);
    bs' := Remaining(s, bs, Before, scope);
    forall b | b in bs' && b.kind.Before?
      ensures !AfterAll(b.name)
    {
      assert (b.name, b.kind) in Names(bs');
      assert (b.name, b.kind) in Names(bs);
    }
  }

  /** The after attaches write the current test exactly when an after-all hook is buffered. */
  lemma {:induction false} AfterAttaches(s: Replay, bs: seq<Block>)
    requires HasShape(s, bs, NoHook) && AllPlain(Names(bs)) && s.current.Some?
    ensures Attach(Attach(s, After, Each), After, All).current == if HoldsAfterAll(Names(bs)) then None else s.current
  {
    hide Attach, FindBlock, HasShape, CallsOf;
    var s1, bs1 := Attach(s, After, Each), Remaining(s, bs, After, Each);
    AttachShape(s, bs, NoHook, After, Each);
    EachIsNotAfterAll(s, bs);
    AllIsAfterAll(s1, bs1, Names(bs));
    AttachShape(s1, bs1, NoHook, After, All);
  }

  lemma {:induction false} TestStartCurrent(s: Replay, bs: seq<Block>, h: OpenHook, name: string, start: int)
    requires HasShape(s, bs, h) && NoneAfterAll(bs, Before)
    ensures RunTestStart(false, s, name, start).current.Some?
  {
    hide Attach;
    var bs' := BeforeAttaches(BeginTest(s, name, start), bs, h);
  }

  lemma {:induction false} TestEndCurrent(s: Replay, bs: seq<Block>, o: Outcome)
    requires HasShape(s, bs, NoHook) && AllPlain(Names(bs)) && s.current.Some?
    ensures RunTestEnd(false, s, o).current.Some? <==> !HoldsAfterAll(Names(bs))
  {
    hide Attach, HasShape, EndTest;
    EndTestShape(s, bs, NoHook, o);
    EndTestCurrent(s, o);
    AfterAttaches(EndTest(s, o), bs);
    if EndTest(s, o).pending == [] {
      EmptyBuffer(EndTest(s, o), bs);
    }
  }

  lemma EmptyBuffer(s: Replay, bs: seq<Block>)
    requires HasShape(s, bs, NoHook) && s.pending == []
    ensures bs == []
  {
  }

  lemma {:induction false} HookEndCurrent(s: Replay, bs: seq<Block>, h: OpenHook, o: Outcome)
    requires HasShape(s, bs, h) && !h.NoHook? && AllPlain(AllNames(bs, h))
    ensures RunHookEnd(false, s, o).current ==
            if h.Waiting? && HoldsAfterAll(AllNames(bs, h)) then None else s.current
  {
    hide Attach, FinishFixture, Flatten;
    if h.Live? {
      EndHookInside(s, o);
    } else if s.current.Some? {
      var bs0 := CompleteHook(s, bs, h, o);
      NoneAfterAllOf(bs0, AllNames(bs, h));
      var s0 := Queue(s, HookEnd(o), false);
      var bs1 := BeforeAttaches(s0, bs0, NoHook);
      AfterAttaches(Attach(Attach(s0, Before, All), Before, Each), bs1);
      assert HoldsAfterAll(Names(bs1)) <==> HoldsAfterAll(Names(bs0));
    }
  }

  // ----- The log against the state

  /** What the log says about the current test and the open fixtures. */
  ghost predicate Tells(feature: bool, log: seq<Message>, s: Replay) {
    && (s.current.Some? <==> HasLiveTest(feature, log))
    && |s.fixtures| == (if InLiveHook(feature, log) then 1 else 0)
  }

  /** How one more message changes what is read off a log. */
  lemma ReadsNext(feature: bool, log: seq<Message>, m: Message)
    ensures IsPending(HookPair, log + [m]) <==> m.HookStart? || (!m.HookEnd? && IsPending(HookPair, log))
    ensures IsPending(TestPair, log + [m]) <==> m.TestStart? || (!m.TestEnd? && IsPending(TestPair, log))
    ensures HookWaits(feature, log + [m]) <==>
            if m.HookStart? then WillWait(feature, log, m.name) else !m.HookEnd? && HookWaits(feature, log)
    ensures SeenAfterAll(log + [m]) <==> SeenAfterAll(log) || (m.HookStart? && AfterAll(m.name))
    ensures HasLiveTest(feature, log + [m]) <==>
            match m
            case SuiteStart(_, _) => false
            case TestStart(_, _) => true
            case TestEnd(_) => HasLiveTest(feature, log) && (feature || !SeenAfterAll(log))
            case HookStart(name, _, _) => HasLiveTest(feature, log) && !AfterAll(name)
            case HookEnd(_) => HasLiveTest(feature, log) && (feature || !HookWaits(feature, log) || !SeenAfterAll(log))
            case _ => HasLiveTest(feature, log)
  {
    assert Front(log + [m]) == log && Last(log + [m]) == m;
  }

  lemma SinceNext(log: seq<Message>, m: Message)
    ensures TestSinceHook(log + [m]) <==> !m.HookStart? && (m.TestStart? || TestSinceHook(log))
  {
    assert Front(log + [m]) == log && Last(log + [m]) == m;
  }

  lemma LiveNext(feature: bool, log: seq<Message>, m: Message)
    ensures InLiveHook(feature, log + [m]) <==>
            if m.HookStart? then !WillWait(feature, log, m.name) else !m.HookEnd? && InLiveHook(feature, log)
  {
    hide IsPending, HookWaits, WillWait, HasLiveTest, SeenAfterAll;
    ReadsNext(feature, log, m);
  }

  /** A hook that did not wait has a live test until it ends, unless something is out of order. */
  lemma {:induction false} LiveHookHasTest(feature: bool, log: seq<Message>)
    requires Ordered(feature, log) && InLiveHook(feature, log)
    ensures HasLiveTest(feature, log)
  {
    hide InOrder, AfterAll, HasLiveTest, HookWaits, SeenAfterAll;
    if log != [] {
      var before, m := Front(log), Last(log);
      assert log == before + [m];
      ReadsNext(feature, before, m);
      assert forall k :: 0 <= k < |before| ==> before[..k] == log[..k] && before[k] == log[k];
      if !m.HookStart? {
        LiveHookHasTest(feature, before) by { assert InLiveHook(feature, before); }
        assert InOrder(feature, before, m);
        LiveHookKeepsTest(feature, before, m);
      }
    }
  }

  lemma LiveHookKeepsTest(feature: bool, before: seq<Message>, m: Message)
    requires InOrder(feature, before, m) && InLiveHook(feature, before) && HasLiveTest(feature, before)
    ensures !m.HookEnd? ==> HasLiveTest(feature, before + [m])
  {
    hide IsPending, HasLiveTest, HookWaits, SeenAfterAll, AfterAll, Scopes.OutlineFrom, PlainHook;
    ReadsNext(feature, before, m);
  }

  lemma OrderedPrefix(feature: bool, log: seq<Message>, n: nat)
    requires n <= |log| && Ordered(feature, log)
    ensures Ordered(feature, log[..n])
  {
    hide InOrder;
    assert forall k :: 0 <= k < n ==> log[..n][..k] == log[..k] && log[..n][k] == log[k];
  }

  lemma {:induction false} OrderedAlternates(feature: bool, log: seq<Message>)
    requires Ordered(feature, log)
    ensures Alternates(TestPair, log)
  {
    hide Scopes.OutlineFrom, WillWait, InLiveHook, PlainHook;
    if log != [] {
      OrderedPrefix(feature, log, |log| - 1);
      OrderedAlternates(feature, log[..|log| - 1]);
      assert InOrder(feature, log[..|log| - 1], log[|log| - 1]);
    }
  }

  /** On ordered logs the pending test is the running one. */
  lemma {:induction false} RunningAsRead(feature: bool, log: seq<Message>, n: nat)
    requires n <= |log| && Ordered(feature, log)
    ensures Replayed(log, n).executables != [] <==> IsPending(TestPair, log[..n])
  {
    hide Replayed, Ordered;
    OrderedPrefix(feature, log, n);
    OrderedAlternates(feature, log[..n]);
    Scopes.ReplayOutline(log, n);
    Scopes.RunningIsPending(log[..n]);
  }

  // ----- With a feature: nothing is ever attached

  lemma {:induction false} FeatureTells(last: bool, before: seq<Message>, s: Replay, m: Message)
    requires Tells(true, before, s) && InOrder(true, before, m)
    requires InLiveHook(true, before) ==> HasLiveTest(true, before)
    requires Scopes.OutlineFrom(Scopes.BLANK, before).scopes == s.scopes
    ensures
      var t := Step(true, last, s, m);
      if last then |t.fixtures| == (if InLiveHook(true, before + [m]) then 1 else 0) else Tells(true, before + [m], t)
  {
    hide HasLiveTest, HookWaits, SeenAfterAll, AfterAll, IsPending, Scopes.OutlineFrom, CloseHookSteps;
    hide RunTestStart, RunTestEnd, StartHook, RunHookEnd, AddTestInfo, Deliver, PlainHook;
    ReadsNext(true, before, m);
    match m
    case TestStart(name, start) => FeatureTestStart(s, name, start);
    case TestEnd(o) => FeatureTestEnd(s, o);
    case HookStart(name, kind, start) => FeatureHookStart(s, name, kind, start);
    case HookEnd(o) => FeatureHookEnd(s, o);
    case SuiteStart(_, _) =>
    case SuiteEnd =>
    case _ => DetailCurrent(s, m); DetailFixtures(s, m);
  }

  lemma FeatureTestStart(s: Replay, name: string, start: int)
    ensures RunTestStart(true, s, name, start).current.Some?
            && RunTestStart(true, s, name, start).fixtures == s.fixtures
  {
  }

  lemma FeatureTestEnd(s: Replay, o: Outcome)
    ensures RunTestEnd(true, s, o).current == s.current && RunTestEnd(true, s, o).fixtures == s.fixtures
  {
    EndTestCurrent(s, o);
    Fixtures.EndTestFrame(s, o);
  }

  lemma FeatureHookStart(s: Replay, name: string, kind: HookKind, start: int)
    requires s.fixtures == [] && (AfterAll(name) || s.current.None? || s.scopes != [])
    ensures
      var t := StartHook(s, name, kind, start);
      && (t.current.Some? <==> s.current.Some? && !AfterAll(name))
      && |t.fixtures| == if s.current.Some? && !AfterAll(name) then 1 else 0
  {
    hide AfterAll;
  }

  lemma FeatureHookEnd(s: Replay, o: Outcome)
    requires s.fixtures != [] ==> s.current.Some? && |s.fixtures| == 1
    ensures RunHookEnd(true, s, o).current == s.current && RunHookEnd(true, s, o).fixtures == []
  {
    hide FinishFixture;
    if s.fixtures != [] {
      FinishFrame(s, o);
    }
  }

  lemma DetailFixtures(s: Replay, m: Message)
    ensures m.TestInfo? ==> AddTestInfo(s, m.fullName).fixtures == s.fixtures
    ensures IsRuntime(m) ==> Deliver(s, m).fixtures == s.fixtures
  {
  }

  // ----- Without one: the buffer is a list of hooks

  /** What the log says about the blocks and the hook that has begun. */
  ghost predicate Agrees(log: seq<Message>, bs: seq<Block>, h: OpenHook) {
    && (h.NoHook? <==> !IsPending(HookPair, log))
    && (h.Waiting? <==> HookWaits(false, log))
    && AllPlain(AllNames(bs, h)) && (HoldsAfterAll(AllNames(bs, h)) <==> SeenAfterAll(log))
  }

  lemma PlainBefores(bs: seq<Block>, h: OpenHook)
    requires AllPlain(AllNames(bs, h))
    ensures NoneAfterAll(bs, Before)
  {
    NoneAfterAllOf(bs, AllNames(bs, h));
  }

  lemma {:induction false} CurrentAfter(before: seq<Message>, s: Replay, bs: seq<Block>, h: OpenHook, m: Message)
    requires HasShape(s, bs, h) && Agrees(before, bs, h) && InOrder(false, before, m)
    requires s.current.Some? <==> HasLiveTest(false, before)
    ensures Step(false, false, s, m).current.Some? <==> HasLiveTest(false, before + [m])
  {
    hide HasShape, Scopes.OutlineFrom, RunTestStart, RunTestEnd, RunHookEnd, AllNames, AfterAll, AddTestInfo, Deliver;
    hide StartHook, OpenScope, CloseScope, WriteLastTest, PlainHook, HasLiveTest, HookWaits, SeenAfterAll, IsPending;
    ReadsNext(false, before, m);
    match m
    case TestStart(name, start) => PlainBefores(bs, h); TestStartCurrent(s, bs, h, name, start);
    case TestEnd(o) =>
      NoHookNames(bs, h);
      if s.current.Some? {
        TestEndCurrent(s, bs, o);
      } else {
        NoTestEnds(s, o);
      }
    case HookEnd(o) => HookEndCurrent(s, bs, h, o);
    case SuiteStart(_, _) => ScopeCurrent(s);
    case SuiteEnd => ScopeCurrent(s);
    case HookStart(name, kind, start) => HookStartCurrent(s, name, kind, start);
    case _ => DetailCurrent(s, m);
  }

  lemma {:induction false} NoTestEnds(s: Replay, o: Outcome)
    requires s.current.None?
    ensures RunTestEnd(false, s, o).current.None?
  {
    hide Attach, EndTest;
    EndTestCurrent(s, o);
    AttachIdle(EndTest(s, o), After, Each);
    AttachIdle(EndTest(s, o), After, All);
  }

  lemma ScopeCurrent(s: Replay)
    ensures OpenScope(WriteLastTest(s)).current.None? && CloseScope(s).current == s.current
  {
  }

  lemma HookStartCurrent(s: Replay, name: string, kind: HookKind, start: int)
    ensures StartHook(s, name, kind, start).current == if AfterAll(name) then None else s.current
  {
  }

  lemma NoHookNames(bs: seq<Block>, h: OpenHook)
    ensures h.NoHook? ==> AllNames(bs, h) == Names(bs)
  {
  }

  lemma DetailCurrent(s: Replay, m: Message)
    ensures m.TestInfo? ==> AddTestInfo(s, m.fullName).current == s.current
    ensures IsRuntime(m) ==> Deliver(s, m).current == s.current
  {
  }

  lemma OrderedIsReady(before: seq<Message>, s: Replay, bs: seq<Block>, h: OpenHook, m: Message)
    requires Agrees(before, bs, h) && InOrder(false, before, m) && (s.current.Some? <==> HasLiveTest(false, before))
    requires Scopes.OutlineFrom(Scopes.BLANK, before).scopes == s.scopes
    ensures Ready(false, s, bs, h, m)
  {
    hide AllNames, Mentions, Scopes.OutlineFrom;
    PlainBefores(bs, h);
  }

  lemma {:induction false} StepAgrees(last: bool, before: seq<Message>, s: Replay, bs: seq<Block>, h: OpenHook,
                                      m: Message)
      returns (bs': seq<Block>, h': OpenHook)
    requires HasShape(s, bs, h) && Agrees(before, bs, h) && (s.current.Some? <==> HasLiveTest(false, before))
    requires InOrder(false, before, m) && Scopes.OutlineFrom(Scopes.BLANK, before).scopes == s.scopes
    ensures HasShape(Step(false, last, s, m), bs', h') && Agrees(before + [m], bs', h')
  {
    hide Step, HasShape, Scopes.OutlineFrom, AllNames, AfterAll, Ready;
    hide PlainHook, AllPlain, HoldsAfterAll, SameNames, Arriving, HasLiveTest, IsPending, HookWaits, SeenAfterAll;
    ReadsNext(false, before, m);
    OrderedIsReady(before, s, bs, h, m);
    bs', h' := StepShape(false, last, s, bs, h, m);
    WaitsAsRead(last, before, s, m);
    NamesAgree(AllNames(bs, h), m, h', AllNames(bs', h'));
  }

  /** A hook waits exactly when the log says so. */
  lemma WaitsAsRead(last: bool, before: seq<Message>, s: Replay, m: Message)
    requires s.current.Some? <==> HasLiveTest(false, before)
    ensures m.HookStart? ==> (Step(false, last, s, m).current.None? <==> WillWait(false, before, m.name))
  {
    hide HasLiveTest, Mentions;
  }

  lemma NothingAgrees(log: seq<Message>) returns (bs: seq<Block>, h: OpenHook)
    ensures HasShape(Replayed(log, 0), bs, h) && Agrees(log[..0], bs, h)
  {
    bs, h := [], NoHook;
    assert AllNames(bs, h) == {};
  }

  lemma NothingTold(feature: bool, log: seq<Message>)
    ensures Tells(feature, log[..0], Replayed(log, 0))
  {
  }

  lemma {:induction false} AgreesUntil(log: seq<Message>, n: nat) returns (bs: seq<Block>, h: OpenHook)
    requires n <= |log| && Ordered(false, log) && !HasFeature(log)
    ensures HasShape(Replayed(log, n), bs, h) && Agrees(log[..n], bs, h)
    ensures n < |log| ==> (Replayed(log, n).current.Some? <==> HasLiveTest(false, log[..n]))
  {
    hide Replayed, Step, HasShape, Agrees, InOrder, HasLiveTest;
    if n == 0 {
      bs, h := NothingAgrees(log);
      NothingTold(false, log);
    } else {
      var bs0, h0 := AgreesUntil(log, n - 1);
      var s, m, before := Replayed(log, n - 1), log[n - 1], log[..n - 1];
      assert log[..n] == before + [m];
      assert InOrder(false, before, m);
      ReplayedNext(log, n);
      bs, h := StepAgrees(n == |log|, before, s, bs0, h0, m) by { Scopes.ReplayOutline(log, n - 1); }
      if n < |log| {
        CurrentAfter(before, s, bs0, h0, m);
      }
    }
  }

  lemma FixturesAgree(log: seq<Message>, s: Replay, bs: seq<Block>, h: OpenHook)
    requires HasShape(s, bs, h) && Agrees(log, bs, h)
    ensures |s.fixtures| == if InLiveHook(false, log) then 1 else 0
  {
  }

  /** On every ordered log: a test is live, and a fixture open, exactly when the log says so. */
  lemma {:induction false} TellsUntil(log: seq<Message>, n: nat)
    requires n <= |log| && Ordered(HasFeature(log), log)
    ensures n < |log| ==> Tells(HasFeature(log), log[..n], Replayed(log, n))
    ensures |Replayed(log, n).fixtures| == if InLiveHook(HasFeature(log), log[..n]) then 1 else 0
  {
    hide Replayed, Step, HasShape, Agrees, InOrder, HasLiveTest, HasFeature, InLiveHook;
    if !HasFeature(log) {
      var bs, h := AgreesUntil(log, n);
      FixturesAgree(log[..n], Replayed(log, n), bs, h);
    } else if n == 0 {
      NothingTold(true, log);
    } else {
      var s, m, before := Replayed(log, n - 1), log[n - 1], log[..n - 1];
      TellsUntil(log, n - 1);
      assert log[..n] == before + [m];
      assert InOrder(true, before, m);
      OrderedPrefix(true, log, n - 1);
      if InLiveHook(true, before) {
        LiveHookHasTest(true, before);
      }
      ReplayedNext(log, n);
      FeatureTells(n == |log|, before, s, m) by { Scopes.ReplayOutline(log, n - 1); }
    }
  }

  // ----- Tests

  /** A message of an ordered log cuts the running test short exactly when the log says that it writes too early. */
  lemma {:induction false} CutIsEarly(last: bool, before: seq<Message>, s: Replay, bs: seq<Block>, h: OpenHook,
                                      m: Message)
    requires InTime(s) && HasShape(s, bs, h) && Agrees(before, bs, h) && InOrder(false, before, m)
    requires s.executables != [] <==> IsPending(TestPair, before)
    ensures CutsShort(false, last, s, m) <==> IsFlaw(EarlyWrite, false, before, m)
  {
    hide HasShape, Scopes.OutlineFrom, RunTestStart, RunHookEnd, AllNames, Mentions, ComesUponAfterAll;
    hide HasLiveTest, HookWaits, SeenAfterAll, IsPending;
    RunningIsLive(s);
    match m
    case TestStart(name, start) =>
      PlainBefores(bs, h);
      TestStartCurrent(s, bs, h, name, start);
      StartWrites(false, s, name, start);
    case HookEnd(o) => HookEndCurrent(s, bs, h, o); HookEndCuts(false, s, o);
    case _ =>
  }

  /** The same of the k-th message of a log. */
  lemma {:induction false} CutAsRead(log: seq<Message>, k: nat)
    requires k < |log| && Ordered(false, log) && !HasFeature(log) && InTime(Replayed(log, k))
    ensures CutsShort(false, k + 1 == |log|, Replayed(log, k), log[k]) <==> IsFlaw(EarlyWrite, false, log[..k], log[k])
  {
    hide Replayed, CutsShort, IsFlaw, InTime, HasShape, Agrees, InOrder, HasFeature;
    var bs, h := AgreesUntil(log, k);
    RunningAsRead(false, log, k);
    assert InOrder(false, log[..k], log[k]);
    CutIsEarly(k + 1 == |log|, log[..k], Replayed(log, k), bs, h, log[k]);
  }

  lemma {:induction false} FreeIsUncut(log: seq<Message>, n: nat)
    requires n <= |log| && Ordered(false, log) && !HasFeature(log) && IsFree(EarlyWrite, false, log)
    ensures NeverCutShort(log, n)
  {
    hide Replayed, CutsShort, IsFlaw, InTime, Ordered, HasFeature;
    if n > 0 {
      FreeIsUncut(log, n - 1);
      InTimeUntil(log, n - 1);
      CutAsRead(log, n - 1);
    }
  }

  lemma {:induction false} UncutIsFree(log: seq<Message>)
    requires Ordered(false, log) && !HasFeature(log) && NeverCutShort(log, |log|)
    ensures IsFree(EarlyWrite, false, log)
  {
    hide Replayed, CutsShort, IsFlaw, InTime, Ordered, HasFeature;
    forall k | 0 <= k < |log|
      ensures !IsFlaw(EarlyWrite, false, log[..k], log[k])
    {
      InTimeUntil(log, k);
      CutAsRead(log, k);
    }
  }

  lemma OrderedInRow(feature: bool, log: seq<Message>)
    requires Ordered(feature, log)
    ensures TestsInRow(log)
  {
    hide InLiveHook, WillWait, PlainHook, Scopes.OutlineFrom, IsPending;
    forall k | 0 <= k < |log|
      ensures
        var running := IsPending(TestPair, log[..k]);
        match log[k]
        case SuiteStart(_, _) => !running
        case SuiteEnd => !running
        case TestStart(_, _) => !running
        case TestEnd(_) => running
        case _ => true
    {
      assert InOrder(feature, log[..k], log[k]);
    }
  }

  /**
    Stop before write, exactly, from the log. On ordered logs, where a failing hook may have a test started inside it,
    every test is named, given its status and stopped before it is written if and only if no message writes too
    early and the last test is ended.
   */
  lemma {:induction false} StoppedFirstExactly(log: seq<Message>)
    requires Ordered(HasFeature(log), log)
    ensures AllObey(TestsFirst, Report(log).trace) <==>
            IsFree(EarlyWrite, HasFeature(log), log) && !IsPending(TestPair, log)
  {
    hide Replayed, Report, AllObey, HasFeature, Ordered, IsPending, NeverCutShort, TestsInRow, SeenAfterAll, AfterAll;
    if HasFeature(log) {
      OrderedInRow(true, log);
      StoppedFirstWithFeature(log);
    } else {
      TestsFirstExactly(log);
      RunningAsRead(false, log, |log|);
      assert log[..|log|] == log;
      if IsFree(EarlyWrite, false, log) {
        FreeIsUncut(log, |log|);
      } else if NeverCutShort(log, |log|) {
        UncutIsFree(log);
      }
    }
  }

  // ----- Fixtures

  /** On ordered logs an open fixture is interrupted exactly by a test that starts in its hook. */
  lemma InterruptsAsRead(feature: bool, before: seq<Message>, s: Replay, m: Message)
    requires Tells(feature, before, s) && InOrder(feature, before, m)
    ensures Fixtures.Interrupts(feature, s, m) <==> IsFlaw(TestInHook, feature, before, m)
    ensures s.fixtures != [] ==> !Fixtures.Strands(s, m)
  {
    hide HasLiveTest, HookWaits, SeenAfterAll, AfterAll, IsPending, Scopes.OutlineFrom, ComesUponAfterAll;
  }

  lemma NothingStranded(s: Replay, m: Message)
    requires Inv(s) && s.fixtures == []
    ensures !Fixtures.Strands(s, m)
  {
  }

  /** The same of the k-th message of a log. */
  lemma {:induction false} InterruptionAsRead(log: seq<Message>, k: nat)
    requires k < |log| && Ordered(HasFeature(log), log)
    ensures Fixtures.Interrupts(HasFeature(log), Replayed(log, k), log[k]) <==>
            IsFlaw(TestInHook, HasFeature(log), log[..k], log[k])
    ensures !Fixtures.Strands(Replayed(log, k), log[k])
  {
    hide Replayed, Fixtures.Interrupts, Fixtures.Strands, Tells, IsFlaw, InOrder, HasFeature;
    TellsUntil(log, k);
    assert InOrder(HasFeature(log), log[..k], log[k]);
    InterruptsAsRead(HasFeature(log), log[..k], Replayed(log, k), log[k]);
    if Replayed(log, k).fixtures == [] {
      NothingStranded(Replayed(log, k), log[k]) by { ReplayTracksRuntime(log, k); }
    }
  }

  /**
    Fixtures, exactly, from the log. On ordered logs no fixture is open when a test begins or a test or scope is
    written if and only if no test starts inside a hook that found a live test and the log does not end inside one;
    then every fixture is recorded on its own test.
   */
  lemma {:induction false} FixturesFirstAsRead(log: seq<Message>)
    requires Ordered(HasFeature(log), log)
    ensures AllObey(FixturesFirst, Report(log).trace) <==>
            IsFree(TestInHook, HasFeature(log), log) && !InLiveHook(HasFeature(log), log)
    ensures AllObey(FixturesFirst, Report(log).trace) ==> OnOwnTests(Report(log).trace)
  {
    hide Replayed, Report, AllObey, HasFeature, Ordered, InLiveHook, IsFlaw, Fixtures.Interrupts, OnOwnTests, Of;
    Fixtures.FixturesFirstExactly(log);
    TellsUntil(log, |log|);
    assert log[..|log|] == log;
    forall k | 0 <= k < |log|
      ensures Fixtures.Interrupts(HasFeature(log), Replayed(log, k), log[k]) <==>
              IsFlaw(TestInHook, HasFeature(log), log[..k], log[k])
    {
      InterruptionAsRead(log, k);
    }
    EveryReportIsComplete(log);
    if AllObey(FixturesFirst, Report(log).trace) {
      FixturesFirstRecordOwn(Report(log).trace);
    }
  }

  /** And each fixture is stopped before its own scope is written if and only if the log does not end inside a hook
      that found a live test. */
  lemma {:induction false} StoppedInScopeAsRead(log: seq<Message>)
    requires Ordered(HasFeature(log), log)
    ensures StoppedInScope(Report(log).trace) <==> !InLiveHook(HasFeature(log), log)
    ensures StoppedInScope(Report(log).trace) ==> Fixtures.AllStopped(Report(log))
  {
    hide Replayed, Report, HasFeature, Ordered, InLiveHook, Fixtures.Strands, StoppedInScope, Fixtures.AllStopped;
    Fixtures.StoppedInScopeExactly(log);
    TellsUntil(log, |log|);
    assert log[..|log|] == log;
    forall k | 0 <= k < |log|
      ensures !Fixtures.Strands(Replayed(log, k), log[k])
    {
      InterruptionAsRead(log, k);
    }
  }
}
