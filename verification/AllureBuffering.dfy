/** The pending-hook buffer over whole logs: it always holds complete hooks and at most one that has begun. */
module AllureBuffering {
  import opened Wrappers
  import opened AllureMessages
  import opened AllureReplay
  import opened AllureHookBuffer

  ghost predicate HasShape(s: Replay, bs: seq<Block>, h: OpenHook) {
    && AreBlocks(bs) && IsHook(h) && s.pending == Flatten(bs) + OpenText(h)
    && |s.fixtures| == (if h.Live? then 1 else 0)
    && (h.Live? ==> s.current.Some?)
    && (s.capturing <==> h.Waiting?)
  }

  /** Name and kind of every hook in the buffer. */
  ghost function Names(bs: seq<Block>): set<(string, HookKind)> {
    set b | b in bs :: (b.name, b.kind)
  }

  ghost function AllNames(bs: seq<Block>, h: OpenHook): set<(string, HookKind)> {
    Names(bs) + if h.Waiting? then {(h.name, h.kind)} else {}
  }

  /** No hook came in, and no after-all hook left. */
  ghost predicate SameNames(ns: set<(string, HookKind)>, ns': set<(string, HookKind)>) {
    ns' <= ns && forall n :: n in ns && AfterAll(n.0) ==> n in ns'
  }

  ghost predicate HoldsAfterAll(ns: set<(string, HookKind)>) {
    exists n :: n in ns && AfterAll(n.0)
  }

  lemma NamesConcat(a: seq<Block>, b: seq<Block>)
    ensures Names(a + b) == Names(a) + Names(b)
  {
    forall n | n in Names(a) + Names(b)
      ensures n in Names(a + b)
    {
      var x :| (x in a || x in b) && n == (x.name, x.kind);
      assert x in a + b;
    }
  }

  lemma NamesOne(b: Block)
    ensures Names([b]) == {(b.name, b.kind)}
  {
    assert b in [b];
  }

  lemma NamesSplit(bs: seq<Block>, k: nat)
    requires k < |bs|
    ensures Names(bs) == Names(Without(bs, k)) + {(bs[k].name, bs[k].kind)}
  {
    assert bs == bs[..k] + ([bs[k]] + bs[k + 1..]);
    NamesConcat(bs[..k], [bs[k]] + bs[k + 1..]);
    NamesConcat([bs[k]], bs[k + 1..]);
    NamesConcat(bs[..k], bs[k + 1..]);
    NamesOne(bs[k]);
  }

  function Requeue(bs: seq<Block>, k: nat): seq<Block>
    requires k < |bs|
  {
    Without(bs, k) + [bs[k].(body := [])]
  }

  lemma RequeueNames(bs: seq<Block>, k: nat)
    requires k < |bs|
    ensures Names(Requeue(bs, k)) == Names(bs)
  {
    NamesSplit(bs, k);
    NamesConcat(Without(bs, k), [bs[k].(body := [])]);
    NamesOne(bs[k].(body := []));
  }

  // ----- One attach

  /** What an attach does to the current test, to the trace and to the blocks. */
  datatype Effect = Nothing | Fixture(k: nat) | Requeued(k: nat) | Dropped(k: nat)

  function EffectOf(s: Replay, bs: seq<Block>, kind: HookKind, scope: HookScope): Effect {
    var k := FindBlock(bs, kind, scope);
    if s.current.None? || k == |bs| then Nothing
    else if AfterAll(bs[k].name) then Requeued(k)
    else if s.scopes == [] then Dropped(k)
    else Fixture(k)
  }

  function Remaining(s: Replay, bs: seq<Block>, kind: HookKind, scope: HookScope): seq<Block> {
    match EffectOf(s, bs, kind, scope)
    case Nothing => bs
    case Fixture(k) => Without(bs, k)
    case Requeued(k) => Requeue(bs, k)
    case Dropped(k) => Without(bs, k)
  }

  function CallsOf(s: Replay, bs: seq<Block>, kind: HookKind, scope: HookScope): seq<Call>
  {
    match EffectOf(s, bs, kind, scope)
    case Nothing => []
    case Fixture(k) => FixtureCalls(bs[k], s.nextFixture, Last(s.scopes), s.current.value)
    case Requeued(_) => [WriteTest(s.current.value)]
    case Dropped(_) => []
  }

  /** While a hook has begun, a block to be attached must not be named after all and a scope must be open. */
  ghost predicate MayAttach(s: Replay, bs: seq<Block>, h: OpenHook, kind: HookKind, scope: HookScope) {
    !h.NoHook? ==> EffectOf(s, bs, kind, scope).Nothing? || EffectOf(s, bs, kind, scope).Fixture?
  }

  ghost predicate Attached(s: Replay, bs: seq<Block>, h: OpenHook, kind: HookKind, scope: HookScope, t: Replay) {
    && HasShape(t, Remaining(s, bs, kind, scope), h)
    && t.trace == s.trace + CallsOf(s, bs, kind, scope)
    && t.current == (if EffectOf(s, bs, kind, scope).Requeued? then None else s.current)
    && t.scopes == s.scopes && t.executables == s.executables && t.fixtures == s.fixtures
  }

  /** An attach on a buffer of blocks, in full. */
  lemma {:induction false} AttachShape(s: Replay, bs: seq<Block>, h: OpenHook, kind: HookKind, scope: HookScope)
    requires HasShape(s, bs, h) && MayAttach(s, bs, h, kind, scope)
    ensures Attached(s, bs, h, kind, scope, Attach(s, kind, scope))
    ensures SameNames(Names(bs), Names(Remaining(s, bs, kind, scope)))
  {
    hide Attach, CallsOf, FixtureCalls, Flatten, FindBlock, Without, Attached, HasShape;
    match EffectOf(s, bs, kind, scope)
    case Nothing => AttachedNothing(s, bs, h, kind, scope);
    case Fixture(k) => AttachedFixture(s, bs, h, kind, scope); NamesSplit(bs, k);
    case Requeued(k) => AttachedRequeue(s, bs, h, kind, scope); RequeueNames(bs, k);
    case Dropped(k) => AttachedDrop(s, bs, h, kind, scope); NamesSplit(bs, k);
  }

  lemma AttachedNothing(s: Replay, bs: seq<Block>, h: OpenHook, kind: HookKind, scope: HookScope)
    requires HasShape(s, bs, h) && EffectOf(s, bs, kind, scope).Nothing?
    ensures Attached(s, bs, h, kind, scope, Attach(s, kind, scope))
  {
    hide Attach, Flatten, FindBlock;
    if s.current.Some? {
      AttachNone(s, bs, h, kind, scope);
    } else {
      AttachIdle(s, kind, scope);
    }
    assert s.trace + [] == s.trace;
  }

  lemma AttachedFixture(s: Replay, bs: seq<Block>, h: OpenHook, kind: HookKind, scope: HookScope)
    requires HasShape(s, bs, h) && EffectOf(s, bs, kind, scope).Fixture?
    ensures Attached(s, bs, h, kind, scope, Attach(s, kind, scope))
  {
    hide Attach, FixtureCalls, Flatten, FindBlock;
    AttachReplaysFirstBlock(s, bs, h, kind, scope);
  }

  lemma AttachedRequeue(s: Replay, bs: seq<Block>, h: OpenHook, kind: HookKind, scope: HookScope)
    requires HasShape(s, bs, h) && EffectOf(s, bs, kind, scope).Requeued? && h.NoHook?
    ensures Attached(s, bs, h, kind, scope, Attach(s, kind, scope))
  {
    hide Attach, Flatten, FindBlock, BlockText, Without;
    var k := FindBlock(bs, kind, scope);
    AttachRequeuesAfterAll(s, bs, h, kind, scope);
    RequeuedBlocks(bs, k);
    RequeuedBodies(bs, k);
    assert Flatten(Requeue(bs, k)) + OpenText(NoHook) == Flatten(Requeue(bs, k));
  }

  lemma RequeuedBodies(bs: seq<Block>, k: nat)
    requires k < |bs| && AreBlocks(bs)
    ensures AreBlocks(Requeue(bs, k))
  {
  }

  lemma AttachedDrop(s: Replay, bs: seq<Block>, h: OpenHook, kind: HookKind, scope: HookScope)
    requires HasShape(s, bs, h) && EffectOf(s, bs, kind, scope).Dropped? && h.NoHook?
    ensures Attached(s, bs, h, kind, scope, Attach(s, kind, scope))
  {
    hide Attach, Flatten, FindBlock;
    AttachDropsBlock(s, bs, h, kind, scope);
    assert s.trace + [] == s.trace;
  }

  // ----- One message

  /** When a message may come: suites outside live hooks, test ends between hooks; hooks one at a time, begun while a
      scope is open or bound to wait. */
  ghost predicate Ready(feature: bool, s: Replay, bs: seq<Block>, h: OpenHook, m: Message) {
    match m
    case SuiteStart(_, _) => !h.Live?
    case SuiteEnd => !h.Live?
    case TestEnd(_) => h.NoHook?
    case TestStart(_, _) => h.NoHook? || forall b :: b in bs && b.kind.Before? ==> !AfterAll(b.name)
    case HookStart(name, _, _) => h.NoHook? && (s.scopes != [] || s.current.None? || AfterAll(name))
    case HookEnd(_) => !h.NoHook? && (h.Waiting? && s.current.Some? ==> !feature)
    case _ => true
  }

  /** The name a message brings into the buffer: that of a hook which waits. */
  ghost function Arriving(m: Message, h': OpenHook): set<(string, HookKind)> {
    if m.HookStart? && h'.Waiting? then {(m.name, m.kind)} else {}
  }

  ghost predicate NextHook(h: OpenHook, m: Message, h': OpenHook) {
    if m.HookStart? then !h'.NoHook?
    else if m.HookEnd? then h'.NoHook?
    else h'.NoHook? == h.NoHook? && h'.Live? == h.Live? && h'.Waiting? == h.Waiting?
  }

  lemma MayAttachKind(s: Replay, bs: seq<Block>, h: OpenHook, kind: HookKind, scope: HookScope)
    requires h.NoHook? || (s.scopes != [] && forall b :: b in bs && b.kind == kind ==> !AfterAll(b.name))
    ensures MayAttach(s, bs, h, kind, scope)
  {
    var k := FindBlock(bs, kind, scope);
    if k < |bs| {
      assert bs[k] in bs;
    }
  }

  lemma AttachTwice(s: Replay, bs: seq<Block>, h: OpenHook, kind: HookKind, first: HookScope, second: HookScope)
      returns (bs': seq<Block>)
    requires HasShape(s, bs, h)
    requires h.NoHook? || (s.scopes != [] && forall b :: b in bs && b.kind == kind ==> !AfterAll(b.name))
    ensures HasShape(Attach(Attach(s, kind, first), kind, second), bs', h) && SameNames(Names(bs), Names(bs'))
  {
    hide Attach, CallsOf, FindBlock, Without;
    MayAttachKind(s, bs, h, kind, first);
    AttachShape(s, bs, h, kind, first);
    var t, bs1 := Attach(s, kind, first), Remaining(s, bs, kind, first);
    if !h.NoHook? {
      forall b | b in bs1 && b.kind == kind
        ensures !AfterAll(b.name)
      {
        assert (b.name, b.kind) in Names(bs1);
        assert (b.name, b.kind) in Names(bs);
      }
    }
    MayAttachKind(t, bs1, h, kind, second);
    AttachShape(t, bs1, h, kind, second);
    bs' := Remaining(t, bs1, kind, second);
  }

  lemma CompleteHook(s: Replay, bs: seq<Block>, h: OpenHook, o: Outcome) returns (bs': seq<Block>)
    requires HasShape(s, bs, h) && h.Waiting?
    ensures bs' == bs + [Block(h.name, h.kind, h.start, h.body, o)]
    ensures HasShape(Queue(s, HookEnd(o), false), bs', NoHook) && Names(bs') == AllNames(bs, h)
  {
    var b := Block(h.name, h.kind, h.start, h.body, o);
    bs' := bs + [b];
    NamesConcat(bs, [b]);
    NamesOne(b);
    FlattenConcat(bs, [b]);
    FlattenOne(b);
    assert Flatten(bs) + OpenText(h) + [HookEnd(o)] == Flatten(bs') + OpenText(NoHook);
  }

  lemma {:induction false} StepShape(feature: bool, last: bool, s: Replay, bs: seq<Block>, h: OpenHook, m: Message)
      returns (bs': seq<Block>, h': OpenHook)
    requires HasShape(s, bs, h) && Ready(feature, s, bs, h, m)
    ensures HasShape(Step(feature, last, s, m), bs', h') && NextHook(h, m, h')
    ensures SameNames(AllNames(bs, h) + Arriving(m, h'), AllNames(bs', h'))
    ensures m.HookStart? ==> (h'.Waiting? <==> Step(feature, last, s, m).current.None?)
  {
    hide Flatten, RunTestStart, RunTestEnd, RunHookEnd, StartHook, Deliver, HasShape;
    bs', h' := bs, h;
    match m
    case TestStart(name, start) => bs' := TestStartShape(feature, s, bs, h, name, start);
    case TestEnd(o) => bs' := TestEndShape(feature, s, bs, h, o);
    case HookStart(name, kind, start) => bs', h' := HookStartShape(s, bs, name, kind, start);
    case HookEnd(o) => bs', h' := HookEndShape(feature, s, bs, h, o);
    case SuiteStart(_, _) => assert HasShape(OpenScope(WriteLastTest(s)), bs, h) by { SuiteShape(s, bs, h); }
    case SuiteEnd => SuiteShape(s, bs, h);
    case TestInfo(fullName) => assert HasShape(AddTestInfo(s, fullName), bs, h) by { InfoShape(s, bs, h, fullName); }
    case _ => h' := DeliverShape(s, bs, h, m);
  }

  lemma SuiteShape(s: Replay, bs: seq<Block>, h: OpenHook)
    requires HasShape(s, bs, h) && !h.Live?
    ensures HasShape(OpenScope(WriteLastTest(s)), bs, h)
    ensures HasShape(CloseScope(s), bs, h) && HasShape(WriteLastTest(CloseScope(s)), bs, h)
  {
  }

  lemma InfoShape(s: Replay, bs: seq<Block>, h: OpenHook, fullName: string)
    requires HasShape(s, bs, h)
    ensures HasShape(AddTestInfo(s, fullName), bs, h)
  {
  }

  lemma DeliverShape(s: Replay, bs: seq<Block>, h: OpenHook, m: Message) returns (h': OpenHook)
    requires HasShape(s, bs, h) && IsRuntime(m)
    ensures HasShape(Deliver(s, m), bs, h') && NextHook(h, m, h') && AllNames(bs, h') == AllNames(bs, h)
  {
    hide Flatten;
    h' := h;
    if h.Waiting? && s.current.None? {
      h' := h.(body := h.body + [m]);
      assert Flatten(bs) + OpenText(h) + [m] == Flatten(bs) + OpenText(h');
    }
  }

  lemma {:induction false} TestStartShape(feature: bool, s: Replay, bs: seq<Block>, h: OpenHook, name: string,
                                          start: int)
      returns (bs': seq<Block>)
    requires HasShape(s, bs, h) && Ready(feature, s, bs, h, TestStart(name, start))
    ensures HasShape(RunTestStart(feature, s, name, start), bs', h) && SameNames(Names(bs), Names(bs'))
  {
    hide Attach, Flatten;
    bs' := bs;
    var s1 := BeginTest(s, name, start);
    assert HasShape(s1, bs, h);
    if RunTestStart(feature, s, name, start) != s1 {
      bs' := AttachTwice(s1, bs, h, Before, All, Each);
    }
  }

  lemma {:induction false} TestEndShape(feature: bool, s: Replay, bs: seq<Block>, h: OpenHook, o: Outcome)
      returns (bs': seq<Block>)
    requires HasShape(s, bs, h) && h.NoHook?
    ensures HasShape(RunTestEnd(feature, s, o), bs', h) && SameNames(Names(bs), Names(bs'))
  {
    hide Attach, Flatten;
    bs' := bs;
    var s1 := EndTest(s, o);
    assert HasShape(s1, bs, h);
    if RunTestEnd(feature, s, o) != s1 {
      bs' := AttachTwice(s1, bs, h, After, Each, All);
    }
  }

  lemma HookStartShape(s: Replay, bs: seq<Block>, name: string, kind: HookKind, start: int)
      returns (bs': seq<Block>, h': OpenHook)
    requires HasShape(s, bs, NoHook) && (s.scopes != [] || s.current.None? || AfterAll(name))
    ensures HasShape(StartHook(s, name, kind, start), bs', h') && !h'.NoHook?
    ensures SameNames(AllNames(bs, NoHook) + if h'.Waiting? then {(name, kind)} else {}, AllNames(bs', h'))
    ensures h'.Waiting? <==> StartHook(s, name, kind, start).current.None?
  {
    hide Flatten;
    bs' := bs;
    if s.current.None? || AfterAll(name) {
      h' := Waiting(name, kind, start, []);
      assert Flatten(bs) + OpenText(NoHook) + [HookStart(name, kind, start)] == Flatten(bs) + OpenText(h');
    } else {
      h' := Live;
    }
  }

  lemma HookEndShape(feature: bool, s: Replay, bs: seq<Block>, h: OpenHook, o: Outcome)
      returns (bs': seq<Block>, h': OpenHook)
    requires HasShape(s, bs, h) && !h.NoHook? && (h.Waiting? && s.current.Some? ==> !feature)
    ensures HasShape(RunHookEnd(feature, s, o), bs', h') && h'.NoHook?
    ensures SameNames(AllNames(bs, h), AllNames(bs', h'))
  {
    hide Attach, Flatten, FinishFixture;
    bs', h' := bs, NoHook;
    if h.Live? {
      FinishShape(s, bs, o);
    } else {
      bs' := CompleteHook(s, bs, h, o);
      if s.current.Some? {
        assert s.pending != [];
        var s1 := Queue(s, HookEnd(o), false);
        var bs1 := AttachTwice(s1, bs', NoHook, Before, All, Each);
        bs' := AttachTwice(Attach(Attach(s1, Before, All), Before, Each), bs1, NoHook, After, Each, All);
      }
    }
  }

  lemma FinishShape(s: Replay, bs: seq<Block>, o: Outcome)
    requires HasShape(s, bs, Live)
    ensures HasShape(FinishFixture(s, o), bs, NoHook)
  {
  }
}
