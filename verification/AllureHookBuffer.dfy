/** The buffer of hooks that arrived while no test was live, seen as a list of complete hooks. */
module AllureHookBuffer {
  import opened Wrappers
  import opened Sequences
  import opened AllureMessages
  import opened AllureReplay

  /** A hook start, the steps and labels inside it, and its end. */
  datatype Block = Block(name: string, kind: HookKind, start: int, body: seq<Message>, outcome: Outcome)

  ghost predicate IsBody(body: seq<Message>) {
    forall i :: 0 <= i < |body| ==> body[i].StepStart? || body[i].StepStop? || body[i].Other?
  }

  ghost predicate AreBlocks(bs: seq<Block>) {
    forall i :: 0 <= i < |bs| ==> IsBody(bs[i].body)
  }

  function BlockText(b: Block): seq<Message> {
    [HookStart(b.name, b.kind, b.start)] + b.body + [HookEnd(b.outcome)]
  }

  lemma TextLength(b: Block)
    ensures |BlockText(b)| == |b.body| + 2
  {
  }

  function Flatten(bs: seq<Block>): seq<Message> {
    if bs == [] then [] else BlockText(bs[0]) + Flatten(bs[1..])
  }

  lemma {:induction false} FlattenConcat(a: seq<Block>, b: seq<Block>)
    ensures Flatten(a + b) == Flatten(a) + Flatten(b)
  {
    if a == [] {
      assert a + b == b;
    } else {
      assert (a + b)[1..] == a[1..] + b;
      FlattenConcat(a[1..], b);
    }
  }

  lemma FlattenOne(b: Block)
    ensures Flatten([b]) == BlockText(b)
  {
    assert [b][1..] == [];
  }

  lemma FlattenAround(a: seq<Block>, b: Block, c: seq<Block>)
    ensures Flatten(a + ([b] + c)) == Flatten(a) + (BlockText(b) + Flatten(c))
  {
    hide Flatten, BlockText;
    FlattenConcat(a, [b] + c);
    FlattenConcat([b], c);
    FlattenOne(b);
  }

  /** The buffer around block `k`. */
  lemma {:induction false} FlattenSplit(bs: seq<Block>, k: nat)
    requires k < |bs|
    ensures Flatten(bs) == Flatten(bs[..k]) + (BlockText(bs[k]) + Flatten(bs[k + 1..]))
  {
    hide Flatten, BlockText;
    var a, b, c := bs[..k], bs[k], bs[k + 1..];
    assert bs == a + ([b] + c);
    FlattenAround(a, b, c);
  }

  predicate Wanted(b: Block, kind: HookKind, scope: HookScope) {
    b.kind == kind && InScope(b.name, scope)
  }

  /** Index of the first block of the wanted kind and scope, or |bs|. */
  function FindBlock(bs: seq<Block>, kind: HookKind, scope: HookScope): (k: nat)
    ensures k <= |bs|
    ensures forall i :: 0 <= i < k ==> !Wanted(bs[i], kind, scope)
    ensures k < |bs| ==> Wanted(bs[k], kind, scope)
  {
    if bs == [] || Wanted(bs[0], kind, scope) then 0 else 1 + FindBlock(bs[1..], kind, scope)
  }

  lemma {:induction false} NoneWanted(bs: seq<Block>, kind: HookKind, scope: HookScope)
    requires AreBlocks(bs) && forall i :: 0 <= i < |bs| ==> !Wanted(bs[i], kind, scope)
    ensures forall i :: 0 <= i < |Flatten(bs)| ==> !WantedHook(Flatten(bs)[i], kind, scope)
  {
    if bs != [] {
      NoneWanted(bs[1..], kind, scope);
      assert forall i :: 0 <= i < |BlockText(bs[0])| ==> !WantedHook(BlockText(bs[0])[i], kind, scope);
    }
  }

  /** A hook that has begun: its fixture is open, or it waits in the buffer with what came after it. */
  datatype OpenHook = NoHook | Live | Waiting(name: string, kind: HookKind, start: int, body: seq<Message>)

  function OpenText(h: OpenHook): seq<Message> {
    if h.Waiting? then [HookStart(h.name, h.kind, h.start)] + h.body else []
  }

  ghost predicate IsHook(h: OpenHook) {
    h.Waiting? ==> IsBody(h.body)
  }

  /** The two searches of an attach find block `b` from `i` to `j`. */
  ghost predicate Found(pending: seq<Message>, kind: HookKind, scope: HookScope, b: Block, i: nat) {
    var j := i + |b.body| + 1;
    && j < |pending|
    && FindHook(pending, kind, scope, 0) == i && FindEnd(pending, i + 1) == j
    && pending[i] == HookStart(b.name, b.kind, b.start) && pending[j] == HookEnd(b.outcome)
    && pending[i + 1..j] == b.body
  }

  /** On a buffer of blocks the searches find the first wanted block. */
  lemma SearchFinds(bs: seq<Block>, h: OpenHook, kind: HookKind, scope: HookScope)
    requires AreBlocks(bs) && IsHook(h) && FindBlock(bs, kind, scope) < |bs|
    ensures
      var k := FindBlock(bs, kind, scope);
      Found(Flatten(bs) + OpenText(h), kind, scope, bs[k], |Flatten(bs[..k])|)
  {
    var k := FindBlock(bs, kind, scope);
    NoneWanted(bs[..k], kind, scope);
    FlattenSplit(bs, k);
    Regroup(Flatten(bs[..k]), BlockText(bs[k]), Flatten(bs[k + 1..]), OpenText(h));
    FirstHookAt(Flatten(bs) + OpenText(h), Flatten(bs[..k]), bs[k], Flatten(bs[k + 1..]) + OpenText(h), kind, scope);
  }

  /** With no wanted block they find nothing, or the start of the hook that still waits, without an end. */
  lemma SearchFails(bs: seq<Block>, h: OpenHook, kind: HookKind, scope: HookScope)
    requires AreBlocks(bs) && IsHook(h) && FindBlock(bs, kind, scope) == |bs|
    ensures
      var pending := Flatten(bs) + OpenText(h);
      var i := FindHook(pending, kind, scope, 0);
      i < |pending| ==> FindEnd(pending, i + 1) == |pending|
  {
    NoneWanted(bs, kind, scope);
    assert forall j :: 0 <= j < |OpenText(h)| ==> !OpenText(h)[j].HookEnd?;
    NoEndAfter(Flatten(bs), OpenText(h), kind, scope);
  }

  lemma NoEndAfter(flat: seq<Message>, rest: seq<Message>, kind: HookKind, scope: HookScope)
    requires forall i :: 0 <= i < |flat| ==> !WantedHook(flat[i], kind, scope)
    requires forall i :: 0 <= i < |rest| ==> !rest[i].HookEnd?
    ensures
      var i := FindHook(flat + rest, kind, scope, 0);
      i < |flat + rest| ==> FindEnd(flat + rest, i + 1) == |flat + rest|
  {
    assert forall j :: 0 <= j < |flat| ==> (flat + rest)[j] == flat[j];
    assert forall j :: |flat| <= j < |flat + rest| ==> (flat + rest)[j] == rest[j - |flat|];
  }

  lemma FirstHookAt(pending: seq<Message>, before: seq<Message>, b: Block, rest: seq<Message>,
                    kind: HookKind, scope: HookScope)
    requires IsBody(b.body) && Wanted(b, kind, scope) && pending == before + (BlockText(b) + rest)
    requires forall i :: 0 <= i < |before| ==> !WantedHook(before[i], kind, scope)
    ensures Found(pending, kind, scope, b, |before|)
  {
    hide Wanted, InScope;
    var i, j := |before|, |before| + |b.body| + 1;
    BlockAt(pending, before, b, rest);
    assert WantedHook(pending[i], kind, scope) by { WantedIs(b, kind, scope); }
    var a := FindHook(pending, kind, scope, 0);
    assert a == i;
    var e := FindEnd(pending, i + 1);
    assert e == j;
  }

  lemma WantedIs(b: Block, kind: HookKind, scope: HookScope)
    requires Wanted(b, kind, scope)
    ensures WantedHook(HookStart(b.name, b.kind, b.start), kind, scope)
  {
  }

  /** The messages of a block in the midst of others. */
  lemma BlockAt(pending: seq<Message>, before: seq<Message>, b: Block, rest: seq<Message>)
    requires pending == before + (BlockText(b) + rest) && IsBody(b.body)
    ensures
      var i, j := |before|, |before| + |b.body| + 1;
      && j < |pending| && pending[i] == HookStart(b.name, b.kind, b.start) && pending[j] == HookEnd(b.outcome)
      && (forall x :: 0 <= x < i ==> pending[x] == before[x])
      && (forall x :: i < x < j ==> !pending[x].HookEnd?) && pending[i + 1..j] == b.body
  {
    var i, j := |before|, |before| + |b.body| + 1;
    assert pending[i] == BlockText(b)[0] && pending[j] == BlockText(b)[|b.body| + 1];
    assert forall x :: i < x < j ==> pending[x] == b.body[x - i - 1];
  }

  // ----- What one attach does

  /** How many steps are open after some messages when `n` were before: a stop with none open does nothing. */
  function HeightFrom(n: nat, body: seq<Message>): nat {
    if body == [] then n
    else
      var h := HeightFrom(n, body[..|body| - 1]);
      match body[|body| - 1]
      case StepStart(_, _) => h + 1
      case StepStop(_, _, _) => if h == 0 then 0 else h - 1
      case _ => h
  }

  /** The stops that close `n` open steps. */
  function StopCalls(target: Target, n: nat, o: Outcome): seq<Call> {
    seq(n, _ => Applied(target, StepStop(o.status, o.stop, o.details)))
  }

  lemma StopsAre(target: Target, n: nat, o: Outcome)
    ensures Stops(target, n, o) == StopCalls(target, n, o)
  {
  }

  function HeightOf(body: seq<Message>): nat {
    HeightFrom(0, body)
  }

  function Applies(f: nat, body: seq<Message>): seq<Call> {
    seq(|body|, i requires 0 <= i < |body| => Applied(OnFixture(f), body[i]))
  }

  /** One fixture from start to stop: the body in order, then stops for the steps it left open. */
  function FixtureCalls(b: Block, f: nat, scope: nat, test: nat): seq<Call> {
    [StartFixture(f, scope, b.kind, b.name, b.start)] + Applies(f, b.body)
    + StopCalls(OnFixture(f), HeightOf(b.body), b.outcome)
    + [SetFixtureStatus(f, b.outcome), StopFixture(f, b.outcome),
       AddTestFixture(test, b.name, b.kind, b.outcome.status)]
  }

  lemma {:induction false} BodyReplayed(s: Replay, f: nat, body: seq<Message>)
    requires IsBody(body) && f in s.openHookSteps && s.openHookSteps[f] == 0
    ensures
      var t := ReplayBody(s, f, body);
      && f in t.openHookSteps && t.openHookSteps[f] == HeightOf(body)
      && t == s.(trace := s.trace + Applies(f, body), openHookSteps := t.openHookSteps)
    decreases |body|
  {
    if body == [] {
      assert s.trace + Applies(f, body) == s.trace;
    } else {
      BodyReplayed(s, f, Front(body));
      assert s.trace + Applies(f, body) == (s.trace + Applies(f, Front(body))) + [Applied(OnFixture(f), Last(body))];
    }
  }

  function Without(bs: seq<Block>, k: nat): seq<Block>
    requires k < |bs|
  {
    bs[..k] + bs[k + 1..]
  }

  /** Where the wanted block stood in the buffer, its text is gone; what was queued meanwhile stays at the end. */
  lemma SpliceRemoves(bs: seq<Block>, k: nat, tail: seq<Message>, s: Replay)
    requires k < |bs| && s.pending == Flatten(bs) + tail
    ensures
      var i := |Flatten(bs[..k])|;
      Splice(s, i, i + |bs[k].body| + 1) == s.(pending := Flatten(Without(bs, k)) + tail)
  {
    hide Flatten, BlockText;
    var a, b, c := Flatten(bs[..k]), BlockText(bs[k]), Flatten(bs[k + 1..]);
    TextLength(bs[k]);
    FlattenSplit(bs, k);
    FlattenConcat(bs[..k], bs[k + 1..]);
    Regroup(a, b, c, tail);
    CutMiddle(a, b, c + tail);
    assert a + (c + tail) == (a + c) + tail;
  }

  lemma AttachNone(s: Replay, bs: seq<Block>, h: OpenHook, kind: HookKind, scope: HookScope)
    requires AreBlocks(bs) && IsHook(h) && s.pending == Flatten(bs) + OpenText(h)
    requires FindBlock(bs, kind, scope) == |bs|
    ensures Attach(s, kind, scope) == s
  {
    SearchFails(bs, h, kind, scope);
  }

  function AttachBlock(s: Replay, b: Block, i: nat): Replay {
    Splice(EndHook(AttachBody(StartHook(s, b.name, b.kind, b.start), b.body), b.outcome), i, i + |b.body| + 1)
  }

  lemma {:induction false} AttachChooses(s: Replay, bs: seq<Block>, h: OpenHook, kind: HookKind, scope: HookScope)
    requires AreBlocks(bs) && IsHook(h) && s.pending == Flatten(bs) + OpenText(h) && s.current.Some?
    requires FindBlock(bs, kind, scope) < |bs|
    ensures var k := FindBlock(bs, kind, scope); Attach(s, kind, scope) == AttachBlock(s, bs[k], |Flatten(bs[..k])|)
  {
    var k := FindBlock(bs, kind, scope);
    SearchFinds(bs, h, kind, scope);
    AttachFound(s, kind, scope, bs[k], |Flatten(bs[..k])|);
  }

  lemma {:induction false} AttachFound(s: Replay, kind: HookKind, scope: HookScope, b: Block, i: nat)
    requires s.current.Some? && Found(s.pending, kind, scope, b, i)
    ensures Attach(s, kind, scope) == AttachBlock(s, b, i)
  {
    hide StartHook, EndHook, AttachBody, Splice;
  }

  /**
    An attach that finds a block not named after all, with a scope open, starts one fixture in the innermost scope,
    replays exactly that block onto it in order, stops it, and takes exactly that block out of the buffer.
   */
  lemma {:induction false} AttachReplaysFirstBlock(s: Replay, bs: seq<Block>, h: OpenHook, kind: HookKind,
                                                   scope: HookScope)
    requires AreBlocks(bs) && IsHook(h) && s.pending == Flatten(bs) + OpenText(h)
    requires s.current.Some? && s.scopes != []
    requires var k := FindBlock(bs, kind, scope); k < |bs| && !AfterAll(bs[k].name)
    ensures
      var k, t := FindBlock(bs, kind, scope), Attach(s, kind, scope);
      t == s.(trace := s.trace + FixtureCalls(bs[k], s.nextFixture, Last(s.scopes), s.current.value),
              pending := Flatten(Without(bs, k)) + OpenText(h), nextFixture := s.nextFixture + 1,
              openHookSteps := t.openHookSteps, hookMeta := t.hookMeta)
  {
    hide Attach, StartHook, EndHook, AttachBody, Splice, Flatten, FindBlock, FixtureCalls, Without, OpenText, AfterAll;
    var k := FindBlock(bs, kind, scope);
    var b := bs[k];
    AttachChooses(s, bs, h, kind, scope);
    RunsFixture(s, b);
    var t := EndHook(AttachBody(StartHook(s, b.name, b.kind, b.start), b.body), b.outcome);
    SpliceRemoves(bs, k, OpenText(h), t);
  }

  lemma RunsFixture(s: Replay, b: Block)
    requires IsBody(b.body) && s.current.Some? && s.scopes != [] && !AfterAll(b.name)
    ensures
      var t := EndHook(AttachBody(StartHook(s, b.name, b.kind, b.start), b.body), b.outcome);
      t == s.(trace := s.trace + FixtureCalls(b, s.nextFixture, Last(s.scopes), s.current.value),
              nextFixture := s.nextFixture + 1, openHookSteps := t.openHookSteps, hookMeta := t.hookMeta)
  {
    var s1 := StartHook(s, b.name, b.kind, b.start);
    assert s1 == BeginFixture(s, b.name, b.kind, b.start);
    BodyReplayed(s1, s.nextFixture, b.body);
    var s2 := AttachBody(s1, b.body);
    FinishedCalls(s, b, s1, s2, EndHook(s2, b.outcome));
  }

  lemma FinishedCalls(s: Replay, b: Block, s1: Replay, s2: Replay, s3: Replay)
    requires s.scopes != [] && s.current.Some? && s1 == BeginFixture(s, b.name, b.kind, b.start)
    requires s2 == s1.(trace := s1.trace + Applies(s.nextFixture, b.body), openHookSteps := s2.openHookSteps)
    requires s.nextFixture in s2.openHookSteps && s2.openHookSteps[s.nextFixture] == HeightOf(b.body)
    requires s3 == FinishFixture(s2, b.outcome)
    ensures s3 == s.(trace := s.trace + FixtureCalls(b, s.nextFixture, Last(s.scopes), s.current.value),
                     nextFixture := s.nextFixture + 1, openHookSteps := s3.openHookSteps, hookMeta := s3.hookMeta)
  {
    var f := s.nextFixture;
    StopsAre(OnFixture(f), HeightOf(b.body), b.outcome);
    assert Front(s2.fixtures) == s.fixtures && Last(s2.fixtures) == f;
    assert s3.trace == s.trace + FixtureCalls(b, f, Last(s.scopes), s.current.value);
  }

  /** A body replayed onto any fixture: its messages in order, and the fixture's step counter. */
  lemma {:induction false} BodyApplied(s: Replay, f: nat, body: seq<Message>)
    requires IsBody(body)
    ensures
      var t := ReplayBody(s, f, body);
      && t == s.(trace := s.trace + Applies(f, body), openHookSteps := t.openHookSteps)
      && HookSteps(t, f) == HeightFrom(HookSteps(s, f), body)
    decreases |body|
  {
    if body == [] {
      assert s.trace + Applies(f, body) == s.trace;
    } else {
      BodyApplied(s, f, Front(body));
      assert s.trace + Applies(f, body) == (s.trace + Applies(f, Front(body))) + [Applied(OnFixture(f), Last(body))];
    }
  }

  /** The steps, labels and attachments among some messages. */
  function RuntimeOf(ms: seq<Message>): seq<Message> {
    if ms == [] then []
    else
      var init, m := ms[..|ms| - 1], ms[|ms| - 1];
      RuntimeOf(init) + if m.StepStart? || m.StepStop? || m.Other? then [m] else []
  }

  lemma {:induction false} SameHeight(n: nat, ms: seq<Message>)
    ensures HeightFrom(n, RuntimeOf(ms)) == HeightFrom(n, ms)
    decreases |ms|
  {
    if ms != [] {
      var init, m := ms[..|ms| - 1], ms[|ms| - 1];
      SameHeight(n, init);
      if m.StepStart? || m.StepStop? || m.Other? {
        assert (RuntimeOf(init) + [m])[..|RuntimeOf(init)|] == RuntimeOf(init);
      } else {
        assert RuntimeOf(init) + [] == RuntimeOf(init);
      }
    }
  }

  /** Whatever stands between a hook's start and its end in the buffer, its steps, labels and attachments are replayed,
      and nothing else is. */
  lemma {:induction false} AnyBodyReplayed(s: Replay, f: nat, body: seq<Message>)
    ensures
      var t := ReplayBody(s, f, body);
      && t == s.(trace := s.trace + Applies(f, RuntimeOf(body)), openHookSteps := t.openHookSteps)
      && HookSteps(t, f) == HeightFrom(HookSteps(s, f), body)
    decreases |body|
  {
    if body == [] {
      assert s.trace + Applies(f, []) == s.trace;
    } else {
      var init, m := Front(body), Last(body);
      AnyBodyReplayed(s, f, init);
      if IsRuntime(m) {
        assert s.trace + Applies(f, RuntimeOf(init) + [m]) ==
               (s.trace + Applies(f, RuntimeOf(init))) + [Applied(OnFixture(f), m)];
      } else {
        assert RuntimeOf(init) + [] == RuntimeOf(init);
      }
    }
  }

  /** What a body that starts no fixture of its own does: it goes to the fixture that is open, if one is. */
  function StrayCalls(s: Replay, body: seq<Message>): seq<Call> {
    if s.fixtures == [] then [] else Applies(Last(s.fixtures), body)
  }

  lemma StrayBody(s: Replay, body: seq<Message>)
    requires IsBody(body)
    ensures
      var t := AttachBody(s, body);
      t == s.(trace := s.trace + StrayCalls(s, body), openHookSteps := t.openHookSteps)
  {
    if s.fixtures == [] {
      assert s.trace + [] == s.trace;
    } else {
      BodyApplied(s, Last(s.fixtures), body);
    }
  }

  /**
    A block named after all is not replayed: the current test is written, and the block goes to the back of the buffer
    without its body, behind a hook that has begun. The body goes to a fixture that happens to be open.
   */
  lemma {:induction false} AttachRequeuesAfterAll(s: Replay, bs: seq<Block>, h: OpenHook, kind: HookKind,
                                                  scope: HookScope)
    requires AreBlocks(bs) && IsHook(h) && s.pending == Flatten(bs) + OpenText(h) && s.current.Some?
    requires var k := FindBlock(bs, kind, scope); k < |bs| && AfterAll(bs[k].name)
    ensures
      var k, t := FindBlock(bs, kind, scope), Attach(s, kind, scope);
      t == s.(current := None, capturing := false, openHookSteps := t.openHookSteps,
              trace := s.trace + ([WriteTest(s.current.value)] + StrayCalls(s, bs[k].body)),
              pending := Flatten(Without(bs, k)) + (OpenText(h) + BlockText(bs[k].(body := []))))
  {
    hide Attach, StartHook, EndHook, AttachBody, Splice, Flatten, FindBlock, StrayCalls;
    var k := FindBlock(bs, kind, scope);
    var b := bs[k];
    AttachChooses(s, bs, h, kind, scope);
    WritesAndQueues(s, b);
    var t := EndHook(AttachBody(StartHook(s, b.name, b.kind, b.start), b.body), b.outcome);
    assert t.pending == Flatten(bs) + (OpenText(h) + BlockText(b.(body := [])));
    SpliceRemoves(bs, k, OpenText(h) + BlockText(b.(body := [])), t);
  }

  lemma WritesAndQueues(s: Replay, b: Block)
    requires IsBody(b.body) && s.current.Some? && AfterAll(b.name)
    ensures
      var t := EndHook(AttachBody(StartHook(s, b.name, b.kind, b.start), b.body), b.outcome);
      t == s.(current := None, capturing := false, openHookSteps := t.openHookSteps,
              trace := s.trace + ([WriteTest(s.current.value)] + StrayCalls(s, b.body)),
              pending := s.pending + BlockText(b.(body := [])))
  {
    var s1 := StartHook(s, b.name, b.kind, b.start);
    StrayBody(s1, b.body);
    assert s.trace + [WriteTest(s.current.value)] + StrayCalls(s, b.body) ==
           s.trace + ([WriteTest(s.current.value)] + StrayCalls(s, b.body));
    assert s.pending + [HookStart(b.name, b.kind, b.start)] + [HookEnd(b.outcome)] ==
           s.pending + BlockText(b.(body := []));
  }

  /** With no hook begun and no fixture open, the buffer is a list of blocks again. */
  lemma RequeuedBlocks(bs: seq<Block>, k: nat)
    requires k < |bs|
    ensures Flatten(Without(bs, k)) + (OpenText(NoHook) + BlockText(bs[k].(body := []))) ==
            Flatten(Without(bs, k) + [bs[k].(body := [])])
  {
    hide Flatten, BlockText;
    FlattenConcat(Without(bs, k), [bs[k].(body := [])]);
    FlattenOne(bs[k].(body := []));
    assert OpenText(NoHook) + BlockText(bs[k].(body := [])) == BlockText(bs[k].(body := []));
  }

  /** The calls that end fixture `f` of test `test` with a body replayed onto it first. */
  function EndingCalls(s: Replay, f: nat, test: nat, body: seq<Message>, o: Outcome): seq<Call> {
    var open := if f in s.openHookSteps then s.openHookSteps[f] else 0;
    Applies(f, body) + StopCalls(OnFixture(f), HeightFrom(open, body), o)
    + [SetFixtureStatus(f, o), StopFixture(f, o)]
    + if f in s.hookMeta then [AddTestFixture(test, s.hookMeta[f].name, s.hookMeta[f].kind, o.status)] else []
  }

  /** A hook's end, with what the buffer has before it, goes to the innermost fixture. */
  lemma {:induction false} FixtureEnds(s: Replay, body: seq<Message>, o: Outcome)
    requires IsBody(body) && s.current.Some? && s.fixtures != []
    ensures
      var t := EndHook(ReplayBody(s, Last(s.fixtures), body), o);
      t == s.(trace := s.trace + EndingCalls(s, Last(s.fixtures), s.current.value, body, o),
              fixtures := Front(s.fixtures), openHookSteps := t.openHookSteps)
  {
    hide FinishFixture, StopCalls, ReplayBody, Applies, HeightFrom;
    var f := Last(s.fixtures);
    BodyApplied(s, f, body);
    var s1 := ReplayBody(s, f, body);
    FixtureFinished(s1, o);
    assert EndingCalls(s, f, s.current.value, body, o) == Applies(f, body) + EndCalls(s1, f, s.current.value, o);
    assert s.trace + Applies(f, body) + EndCalls(s1, f, s.current.value, o) ==
           s.trace + (Applies(f, body) + EndCalls(s1, f, s.current.value, o));
  }

  function EndCalls(s: Replay, f: nat, test: nat, o: Outcome): seq<Call> {
    StopCalls(OnFixture(f), HookSteps(s, f), o) + [SetFixtureStatus(f, o), StopFixture(f, o)]
    + if f in s.hookMeta then [AddTestFixture(test, s.hookMeta[f].name, s.hookMeta[f].kind, o.status)] else []
  }

  lemma FixtureFinished(s: Replay, o: Outcome)
    requires s.current.Some? && s.fixtures != []
    ensures
      var t := FinishFixture(s, o);
      t == s.(trace := s.trace + EndCalls(s, Last(s.fixtures), s.current.value, o), fixtures := Front(s.fixtures),
              openHookSteps := t.openHookSteps)
  {
    hide Stops, StopCalls;
    var f := Last(s.fixtures);
    StopsAre(OnFixture(f), HookSteps(s, f), o);
    assert FinishFixture(s, o).trace == s.trace + EndCalls(s, f, s.current.value, o);
  }

  /** With no scope open the block starts no fixture: it is dropped, or goes to the fixture that is open and ends it. */
  lemma {:induction false} AttachDropsBlock(s: Replay, bs: seq<Block>, h: OpenHook, kind: HookKind, scope: HookScope)
    requires AreBlocks(bs) && IsHook(h) && s.pending == Flatten(bs) + OpenText(h)
    requires s.current.Some? && s.scopes == []
    requires var k := FindBlock(bs, kind, scope); k < |bs| && !AfterAll(bs[k].name)
    ensures
      var k, t := FindBlock(bs, kind, scope), Attach(s, kind, scope);
      var left := Flatten(Without(bs, k)) + OpenText(h);
      if s.fixtures == [] then t == s.(pending := left)
      else
        t == s.(trace := s.trace + EndingCalls(s, Last(s.fixtures), s.current.value, bs[k].body, bs[k].outcome),
                fixtures := Front(s.fixtures), openHookSteps := t.openHookSteps, pending := left)
  {
    hide Attach, StartHook, EndHook, AttachBody, Splice, Flatten, FindBlock, EndingCalls;
    var k := FindBlock(bs, kind, scope);
    AttachChooses(s, bs, h, kind, scope);
    StartsNothing(s, bs[k]);
    var t := EndHook(AttachBody(StartHook(s, bs[k].name, bs[k].kind, bs[k].start), bs[k].body), bs[k].outcome);
    SpliceRemoves(bs, k, OpenText(h), t);
  }

  lemma StartsNothing(s: Replay, b: Block)
    requires IsBody(b.body) && s.current.Some? && s.scopes == [] && !AfterAll(b.name)
    ensures
      var t := EndHook(AttachBody(StartHook(s, b.name, b.kind, b.start), b.body), b.outcome);
      if s.fixtures == [] then t == s
      else
        t == s.(trace := s.trace + EndingCalls(s, Last(s.fixtures), s.current.value, b.body, b.outcome),
                fixtures := Front(s.fixtures), openHookSteps := t.openHookSteps)
  {
    hide FinishFixture, EndingCalls;
    if s.fixtures != [] {
      FixtureEnds(s, b.body, b.outcome);
    }
  }
}
