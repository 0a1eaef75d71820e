/** Which buffered hooks are replayed, on what and with which outcome, at a test's start, a test's end and a stray hook
    end. The names are spelled out. */
module AllureAttaches {
  import opened Wrappers
  import opened Text
  import opened AllureMessages
  import opened AllureReplay
  import opened AllureHookBuffer
  import opened AllureOrder
  import opened AllureSegments
  import Scopes = AllureScopes

  /** A hook of this kind, with this word in its name. */
  datatype Wish = Wish(kind: HookKind, word: string)

  ghost predicate Has(name: string, word: string) {
    exists i: nat :: Spells(name, word, i)
  }

  ghost predicate Meets(b: Block, w: Wish) {
    b.kind == w.kind && Has(b.name, w.word)
  }

  /** Index of the first block that meets the wish, or |bs|. */
  ghost function FirstMeeting(bs: seq<Block>, w: Wish): (k: nat)
    ensures k <= |bs| && (k < |bs| ==> Meets(bs[k], w)) && forall i :: 0 <= i < k ==> !Meets(bs[i], w)
  {
    if bs == [] || Meets(bs[0], w) then 0 else 1 + FirstMeeting(bs[1..], w)
  }

  /** The blocks taken for some wishes, one after another. */
  ghost function Picked(bs: seq<Block>, ws: seq<Wish>): seq<Block>
    decreases |ws|
  {
    if ws == [] then []
    else
      var k := FirstMeeting(bs, ws[0]);
      if k == |bs| then Picked(bs, ws[1..]) else [bs[k]] + Picked(Without(bs, k), ws[1..])
  }

  ghost function Left(bs: seq<Block>, ws: seq<Wish>): seq<Block>
    decreases |ws|
  {
    if ws == [] then bs
    else
      var k := FirstMeeting(bs, ws[0]);
      if k == |bs| then Left(bs, ws[1..]) else Left(Without(bs, k), ws[1..])
  }

  /** A fixture for each block, in order. */
  function FixturesFor(bs: seq<Block>, f: nat, scope: nat, test: nat): seq<Call> {
    if bs == [] then [] else FixtureCalls(bs[0], f, scope, test) + FixturesFor(bs[1..], f + 1, scope, test)
  }

  const BEFORE_TEST := [Wish(Before, "all"), Wish(Before, "each")]
  const AFTER_TEST := [Wish(After, "each"), Wish(After, "all")]

  /** No block is named after all. */
  ghost predicate NoneAfterAllHook(bs: seq<Block>) {
    forall i :: 0 <= i < |bs| ==> !Has(bs[i].name, "after all")
  }

  /** The buffer holds these blocks, and perhaps a hook that has begun. */
  ghost predicate Buffers(s: Replay, bs: seq<Block>, h: OpenHook) {
    AreBlocks(bs) && IsHook(h) && s.pending == Flatten(bs) + OpenText(h)
  }

  // ----- One attach, on any buffer

  ghost predicate IsWished(m: Message, w: Wish) {
    m.HookStart? && m.kind == w.kind && Has(m.name, w.word)
  }

  /** In the buffer, `w` is first met by a hook that starts at `i`, and the next end after it is at `j`. */
  ghost predicate FirstWished(pending: seq<Message>, w: Wish, i: nat, j: nat) {
    && i < j < |pending| && IsWished(pending[i], w) && pending[j].HookEnd?
    && (forall k :: 0 <= k < i ==> !IsWished(pending[k], w)) && (forall k :: i < k < j ==> !pending[k].HookEnd?)
  }

  lemma WishIsWanted(m: Message, w: Wish)
    requires w.word == "each" || w.word == "all"
    ensures WantedHook(m, Asked(w).kind, Asked(w).scope) <==> IsWished(m, w)
  {
    hide Spells, InScope;
    assert "each" != "all" by { assert "each"[0] == 'e' && "all"[0] == 'a'; }
    if m.HookStart? {
      NamesAsSpelled(m.name);
    }
  }

  lemma {:induction false} FirstWishedFound(pending: seq<Message>, w: Wish, i: nat, j: nat)
    requires (w.word == "each" || w.word == "all") && FirstWished(pending, w, i, j)
    ensures FindHook(pending, Asked(w).kind, Asked(w).scope, 0) == i && FindEnd(pending, i + 1) == j
  {
    hide WantedHook, IsWished, Asked;
    forall k | 0 <= k < |pending|
      ensures WantedHook(pending[k], Asked(w).kind, Asked(w).scope) <==> IsWished(pending[k], w)
    {
      WishIsWanted(pending[k], w);
    }
  }

  /**
    An attach on any buffer, whatever hooks stand in it: the first one of the wanted kind, with the wanted word in its
    name, becomes one fixture in the innermost scope. Its steps, labels and attachments up to the next hook end are
    replayed on it, it is stopped with the outcome of that end and recorded on the live test, and the messages from its
    start to that end leave the buffer, those of a hook that began in between included.
   */
  lemma {:induction false} AttachOnAnyBuffer(s: Replay, w: Wish, i: nat, j: nat)
    requires (w.word == "each" || w.word == "all") && FirstWished(s.pending, w, i, j)
    requires s.current.Some? && s.scopes != [] && !Has(s.pending[i].name, "after all")
    ensures
      var m, t := s.pending[i], Attach(s, Asked(w).kind, Asked(w).scope);
      var b := Block(m.name, m.kind, m.start, RuntimeOf(s.pending[i + 1..j]), s.pending[j].outcome);
      t == s.(trace := s.trace + FixtureCalls(b, s.nextFixture, Last(s.scopes), s.current.value),
              pending := s.pending[..i] + s.pending[j + 1..], nextFixture := s.nextFixture + 1,
              openHookSteps := t.openHookSteps, hookMeta := t.hookMeta)
  {
    hide FixtureCalls, Asked, ReplayBody, RuntimeOf, AfterAll, Has, EndHook;
    var m, body := s.pending[i], s.pending[i + 1..j];
    FirstWishedFound(s.pending, w, i, j);
    var b := Block(m.name, m.kind, m.start, RuntimeOf(body), s.pending[j].outcome);
    assert !AfterAll(m.name) by { NotNamedAfterAll(m.name); }
    RunsAnyFixture(s, b, body);
    assert Attach(s, Asked(w).kind, Asked(w).scope) == AttachAt(s, i, j);
  }

  /** Without such a hook, or without an end after it, nothing happens. */
  lemma {:induction false} AttachFindsNothing(s: Replay, w: Wish)
    requires w.word == "each" || w.word == "all"
    requires !exists i: nat, j: nat :: FirstWished(s.pending, w, i, j)
    ensures Attach(s, Asked(w).kind, Asked(w).scope) == s
  {
    hide Asked, AttachAt, FirstWished;
    FoundIsWished(s.pending, w);
  }

  lemma {:induction false} FoundIsWished(pending: seq<Message>, w: Wish)
    requires w.word == "each" || w.word == "all"
    ensures
      var i := FindHook(pending, Asked(w).kind, Asked(w).scope, 0);
      i < |pending| && FindEnd(pending, i + 1) < |pending| ==> FirstWished(pending, w, i, FindEnd(pending, i + 1))
  {
    hide WantedHook, IsWished, Asked;
    forall k | 0 <= k < |pending|
      ensures WantedHook(pending[k], Asked(w).kind, Asked(w).scope) <==> IsWished(pending[k], w)
    {
      WishIsWanted(pending[k], w);
    }
  }

  lemma NotNamedAfterAll(name: string)
    requires !Has(name, "after all")
    ensures !AfterAll(name)
  {
    AfterAllSpelled(name);
  }

  lemma RunsAnyFixture(s: Replay, b: Block, body: seq<Message>)
    requires b.body == RuntimeOf(body) && s.current.Some? && s.scopes != [] && !AfterAll(b.name)
    ensures
      var t := EndHook(AttachBody(StartHook(s, b.name, b.kind, b.start), body), b.outcome);
      t == s.(trace := s.trace + FixtureCalls(b, s.nextFixture, Last(s.scopes), s.current.value),
              nextFixture := s.nextFixture + 1, openHookSteps := t.openHookSteps, hookMeta := t.hookMeta)
  {
    hide ReplayBody, FixtureCalls, RuntimeOf, HeightFrom;
    var s1 := StartHook(s, b.name, b.kind, b.start);
    assert s1 == BeginFixture(s, b.name, b.kind, b.start);
    AnyBodyReplayed(s1, s.nextFixture, body);
    SameHeight(0, body);
    StepsTracked(s1, s.nextFixture, body);
    var s2 := AttachBody(s1, body);
    FinishedCalls(s, b, s1, s2, EndHook(s2, b.outcome));
  }

  lemma {:induction false} StepsTracked(s: Replay, f: nat, body: seq<Message>)
    requires f in s.openHookSteps
    ensures f in ReplayBody(s, f, body).openHookSteps
    decreases |body|
  {
    if body != [] {
      StepsTracked(s, f, Front(body));
    }
  }

  // ----- Attaches in a row

  function Asked(w: Wish): Ask {
    Ask(w.kind, if w.word == "each" then Each else All)
  }

  predicate AreWords(ws: seq<Wish>) {
    forall i :: 0 <= i < |ws| ==> ws[i].word == "each" || ws[i].word == "all"
  }

  function AskedAll(ws: seq<Wish>): seq<Ask> {
    seq(|ws|, i requires 0 <= i < |ws| => Asked(ws[i]))
  }

  lemma WantedIsMeeting(b: Block, w: Wish)
    requires w.word == "each" || w.word == "all"
    ensures Wanted(b, Asked(w).kind, Asked(w).scope) <==> Meets(b, w)
  {
    hide Spells, InScope;
    assert "each" != "all" by { assert "each"[0] == 'e' && "all"[0] == 'a'; }
    NamesAsSpelled(b.name);
  }

  lemma {:induction false} FoundIsFirst(bs: seq<Block>, w: Wish)
    requires w.word == "each" || w.word == "all"
    ensures FindBlock(bs, Asked(w).kind, Asked(w).scope) == FirstMeeting(bs, w)
  {
    hide Wanted, Meets;
    if bs != [] {
      WantedIsMeeting(bs[0], w);
      FoundIsFirst(bs[1..], w);
    }
  }

  lemma KeptBlocks(bs: seq<Block>, k: nat)
    requires k < |bs| && AreBlocks(bs) && NoneAfterAllHook(bs)
    ensures AreBlocks(Without(bs, k)) && NoneAfterAllHook(Without(bs, k)) && !AfterAll(bs[k].name)
  {
    hide AfterAll;
    NamesAsSpelled(bs[k].name);
    var rest := Without(bs, k);
    assert forall i :: 0 <= i < |rest| ==> rest[i] == if i < k then bs[i] else bs[i + 1];
  }

  /** Whatever is asked for, the blocks taken become one fixture each, in order, on the live test and in the innermost
      scope, and the rest stays in the buffer in order. */
  lemma {:induction false} AttachesReplay(s: Replay, bs: seq<Block>, h: OpenHook, ws: seq<Wish>)
    requires Buffers(s, bs, h) && NoneAfterAllHook(bs) && AreWords(ws) && s.current.Some? && s.scopes != []
    ensures
      var t, picked := Attaches(s, AskedAll(ws)), Picked(bs, ws);
      t == s.(trace := s.trace + FixturesFor(picked, s.nextFixture, Last(s.scopes), s.current.value),
              pending := Flatten(Left(bs, ws)) + OpenText(h), nextFixture := s.nextFixture + |picked|,
              openHookSteps := t.openHookSteps, hookMeta := t.hookMeta)
    decreases |ws|
  {
    hide Attach, Flatten, FindBlock, FirstMeeting, FixtureCalls, Without, NoneAfterAllHook, OpenText, Asked, AreBlocks,
         FixturesFor, AfterAll;
    if ws == [] {
      NoFixtures(s.nextFixture, Last(s.scopes), s.current.value);
      assert s.trace + [] == s.trace;
    } else {
      var w, rest := ws[0], ws[1..];
      var ask, k := Asked(w), FirstMeeting(bs, w);
      FoundIsFirst(bs, w);
      AskedNext(ws);
      if k == |bs| {
        AttachNone(s, bs, h, ask.kind, ask.scope);
        AttachesReplay(s, bs, h, rest);
      } else {
        KeptBlocks(bs, k);
        AttachReplaysFirstBlock(s, bs, h, ask.kind, ask.scope);
        var s1 := Attach(s, ask.kind, ask.scope);
        AttachesReplay(s1, Without(bs, k), h, rest);
        FixturesNext(s, bs[k], Picked(Without(bs, k), rest));
      }
    }
  }

  lemma NoFixtures(f: nat, scope: nat, test: nat)
    ensures FixturesFor([], f, scope, test) == []
  {
  }

  lemma AskedNext(ws: seq<Wish>)
    requires ws != []
    ensures AskedAll(ws) != [] && AskedAll(ws)[0] == Asked(ws[0]) && AskedAll(ws)[1..] == AskedAll(ws[1..])
  {
  }

  lemma FixturesNext(s: Replay, b: Block, picked: seq<Block>)
    requires s.scopes != [] && s.current.Some?
    ensures
      var f, scope, test := s.nextFixture, Last(s.scopes), s.current.value;
      s.trace + FixtureCalls(b, f, scope, test) + FixturesFor(picked, f + 1, scope, test) ==
      s.trace + FixturesFor([b] + picked, f, scope, test)
  {
    hide FixtureCalls;
    assert ([b] + picked)[1..] == picked;
  }

  lemma {:induction false} FixturesConcat(a: seq<Block>, b: seq<Block>, f: nat, scope: nat, test: nat)
    ensures FixturesFor(a + b, f, scope, test) ==
            FixturesFor(a, f, scope, test) + FixturesFor(b, f + |a|, scope, test)
  {
    hide FixtureCalls;
    if a == [] {
      assert a + b == b;
    } else {
      assert (a + b)[1..] == a[1..] + b;
      FixturesConcat(a[1..], b, f + 1, scope, test);
    }
  }

  lemma Wishes()
    ensures AskedAll(BEFORE_TEST) == BEFORES && AskedAll(AFTER_TEST) == AFTERS
    ensures AskedAll(BEFORE_TEST + AFTER_TEST) == BEFORES + AFTERS
    ensures AreWords(BEFORE_TEST) && AreWords(AFTER_TEST) && AreWords(BEFORE_TEST + AFTER_TEST)
  {
    assert "each"[0] == 'e' && "all"[0] == 'a';
  }

  // ----- A hook's own start and end

  /** The start of a hook, in any state: an after-all hook writes the current test; without a test the hook waits;
      without a scope it is dropped; else it is one fixture in the innermost scope. */
  lemma {:induction false} HookStartsExactly(feature: bool, last: bool, s: Replay, name: string, kind: HookKind,
                                             start: int)
    ensures
      var t := Step(feature, last, s, HookStart(name, kind, start));
      var live := s.current.Some? && !Has(name, "after all");
      if !live then
        t == s.(trace := s.trace + WritesOf(s.current), current := None,
                pending := s.pending + [HookStart(name, kind, start)], capturing := true)
      else if s.scopes == [] then t == s
      else
        && t == s.(trace := s.trace + [StartFixture(s.nextFixture, Last(s.scopes), kind, name, start)],
                   fixtures := s.fixtures + [s.nextFixture], nextFixture := s.nextFixture + 1,
                   openHookSteps := t.openHookSteps, hookMeta := s.hookMeta[s.nextFixture := HookMeta(name, kind)])
        && HookSteps(t, s.nextFixture) == 0
  {
    hide Has;
    assert AfterAll(name) <==> Has(name, "after all") by { AfterAllSpelled(name); }
    assert s.trace + [] == s.trace;
  }

  lemma AfterAllSpelled(name: string)
    ensures AfterAll(name) <==> Has(name, "after all")
  {
    NamesAsSpelled(name);
  }

  /** The end of a hook that is not stray: without a test it goes to the buffer; with a fixture open it ends the
      innermost one; with neither fixture nor buffer, or with a feature, nothing happens. */
  lemma {:induction false} HookEndsExactly(feature: bool, last: bool, s: Replay, o: Outcome)
    requires s.current.None? || s.fixtures != [] || s.pending == [] || feature
    ensures
      var t := Step(feature, last, s, HookEnd(o));
      if s.current.None? then t == s.(pending := s.pending + [HookEnd(o)], capturing := false)
      else if s.fixtures == [] then t == s
      else
        t == s.(trace := s.trace + EndCalls(s, Last(s.fixtures), s.current.value, o), fixtures := Front(s.fixtures),
                openHookSteps := t.openHookSteps)
  {
    hide FinishFixture;
    if s.current.Some? && s.fixtures != [] {
      FixtureFinished(s, o);
    }
  }

  // ----- Suites and test ends in any state

  /** A suite's start writes the test that is left and then opens a scope. */
  lemma {:induction false} SuiteStartsScope(feature: bool, last: bool, s: Replay, name: string, flagged: bool)
    ensures Step(feature, last, s, SuiteStart(name, flagged)) ==
            s.(trace := s.trace + WritesOf(s.current) + [StartScope(s.nextScope)], current := None,
               scopes := s.scopes + [s.nextScope], nextScope := s.nextScope + 1)
  {
    assert s.trace + [] == s.trace;
  }

  /** A suite's end writes the innermost scope, if there is one, and at the end of the log the test that is left. */
  lemma {:induction false} SuiteEndWritesScope(feature: bool, last: bool, s: Replay)
    ensures
      var scope := if s.scopes == [] then [] else [WriteScope(s.scopes[|s.scopes| - 1])];
      Step(feature, last, s, SuiteEnd) ==
      s.(trace := s.trace + scope + if last then WritesOf(s.current) else [],
         scopes := if s.scopes == [] then [] else s.scopes[..|s.scopes| - 1],
         current := if last then None else s.current)
  {
    assert s.trace + [] == s.trace && s.trace + [] + [] == s.trace;
  }

  /** A test's end, before any attach: the test started last of those that have not ended. Steps are stopped on the
      test that is current, if one is. */
  lemma {:induction false} TestEndsExactly(s: Replay, o: Outcome)
    requires s.executables != []
    ensures
      var t := s.executables[|s.executables| - 1];
      var stops := if s.current.None? then [] else StopCalls(OnTest(s.current.value), s.openSteps, o);
      var scope := if s.scopes == [] then [] else [WriteScope(s.scopes[|s.scopes| - 1])];
      EndTest(s, o) ==
      s.(trace := s.trace + stops + scope + [SetTestStatus(t, o), StopTest(t, o)],
         scopes := if s.scopes == [] then [] else s.scopes[..|s.scopes| - 1],
         executables := s.executables[..|s.executables| - 1],
         openSteps := if s.current.None? then s.openSteps else 0)
  {
    hide Stops, StopCalls;
    if s.current.Some? {
      StopsAre(OnTest(s.current.value), s.openSteps, o);
    }
    var s1 := CloseScope(CloseSteps(s.(executables := Front(s.executables)), o));
    assert s1.trace + [] == s1.trace && s.trace + [] == s.trace;
    var t := Last(s.executables);
    assert s1.trace + [SetTestStatus(t, o)] + [StopTest(t, o)] == s1.trace + [SetTestStatus(t, o), StopTest(t, o)];
  }

  /** Without a test that has started nothing ends. */
  lemma {:induction false} NoTestToEnd(feature: bool, last: bool, s: Replay, o: Outcome)
    requires s.executables == [] && (s.pending == [] || feature)
    ensures Step(feature, last, s, TestEnd(o)) == s
  {
  }

  // ----- A test's start and end

  /** A test's start, in full: the previous test written, the test's own scope, the test, and, without a feature, the
      first before-all hook and the first before-each hook of the buffer, as fixtures of that scope and test. */
  lemma {:induction false} TestStartReplays(feature: bool, s: Replay, bs: seq<Block>, h: OpenHook, name: string,
                                            start: int)
    requires Buffers(s, bs, h) && NoneAfterAllHook(bs)
    ensures
      var t, own, test := RunTestStart(feature, s, name, start), s.nextScope, s.nextTest;
      var picked, left := if feature then [] else Picked(bs, BEFORE_TEST), if feature then bs
        else Left(bs, BEFORE_TEST);
      t == s.(trace := s.trace + WritesOf(s.current) + [StartScope(own), StartTest(test, name, start, s.scopes + [own])]
                       + FixturesFor(picked, s.nextFixture, own, test),
              scopes := s.scopes + [own], executables := s.executables + [test], current := Some(test),
              pending := Flatten(left) + OpenText(h), openSteps := 0, nextScope := own + 1, nextTest := test + 1,
              nextFixture := s.nextFixture + |picked|, openHookSteps := t.openHookSteps, hookMeta := t.hookMeta)
  {
    hide Attach, Attaches, Flatten, BeginTest, Picked, Left, OpenText, WriteLastTest, WritesOf, AreBlocks, AskedAll;
    var s1 := BeginTest(s, name, start);
    TestBegun(s, name, start);
    WritesLast(s);
    AttachesUnfold(s1);
    Wishes();
    AttachesReplay(s1, bs, h, BEFORE_TEST);
    assert s1.trace + [] == s1.trace && FixturesFor([], s.nextFixture, s.nextScope, s.nextTest) == [];
    if s.pending == [] {
      NothingPicked(s, bs, h, BEFORE_TEST);
    }
  }

  lemma {:induction false} NothingPicked(s: Replay, bs: seq<Block>, h: OpenHook, ws: seq<Wish>)
    requires Buffers(s, bs, h) && s.pending == []
    ensures Picked(bs, ws) == [] && Left(bs, ws) == bs
    decreases |ws|
  {
    if ws != [] {
      NothingPicked(s, bs, h, ws[1..]);
    }
  }

  /** The calls that end a test. */
  function TestEndingCalls(t: nat, own: nat, openSteps: nat, o: Outcome): seq<Call> {
    StopCalls(OnTest(t), openSteps, o) + [WriteScope(own), SetTestStatus(t, o), StopTest(t, o)]
  }

  /** A test's end, in full: its open steps, its scope, its outcome, and, without a feature, the first after-each hook
      and the first after-all hook of the buffer, as fixtures of the scope around the test. */
  lemma {:induction false} TestEndReplays(feature: bool, s: Replay, bs: seq<Block>, h: OpenHook, o: Outcome)
    requires Buffers(s, bs, h) && NoneAfterAllHook(bs)
    requires s.executables != [] && s.current == Some(Last(s.executables)) && |s.scopes| >= 2
    ensures
      var t, test, around := RunTestEnd(feature, s, o), Last(s.executables), s.scopes[|s.scopes| - 2];
      var picked, left := if feature then [] else Picked(bs, AFTER_TEST), if feature then bs else Left(bs, AFTER_TEST);
      t == s.(trace := s.trace + TestEndingCalls(test, Last(s.scopes), s.openSteps, o)
                       + FixturesFor(picked, s.nextFixture, around, test),
              scopes := Front(s.scopes), executables := Front(s.executables), openSteps := 0,
              pending := Flatten(left) + OpenText(h), nextFixture := s.nextFixture + |picked|,
              openHookSteps := t.openHookSteps, hookMeta := t.hookMeta)
  {
    hide Attach, Attaches, Flatten, EndTest, Picked, Left, OpenText, AreBlocks, AskedAll;
    var s1 := EndTest(s, o);
    TestEnded(s, o);
    AttachesUnfold(s1);
    Wishes();
    AttachesReplay(s1, bs, h, AFTER_TEST);
    assert s1.trace + [] == s1.trace && FixturesFor([], s.nextFixture, Last(s1.scopes), s.current.value) == [];
    if s.pending == [] {
      NothingPicked(s, bs, h, AFTER_TEST);
    }
  }

  lemma TestEnded(s: Replay, o: Outcome)
    requires s.executables != [] && s.current == Some(Last(s.executables)) && s.scopes != []
    ensures EndTest(s, o) ==
            s.(trace := s.trace + TestEndingCalls(Last(s.executables), Last(s.scopes), s.openSteps, o),
               scopes := Front(s.scopes), executables := Front(s.executables), openSteps := 0)
  {
    hide Stops, StopCalls;
    var t, own := Last(s.executables), Last(s.scopes);
    StopsAre(OnTest(t), s.openSteps, o);
    assert s.trace + StopCalls(OnTest(t), s.openSteps, o) + [WriteScope(own)] + [SetTestStatus(t, o)] + [StopTest(t, o)]
           == s.trace + TestEndingCalls(t, own, s.openSteps, o);
  }

  // ----- A hook end that finds a live test and no fixture

  /** The block that a hook end makes of the hook that has begun: it carries the end's own outcome. */
  function Completed(h: OpenHook, o: Outcome): Block
    requires h.Waiting?
  {
    Block(h.name, h.kind, h.start, h.body, o)
  }

  lemma CompletedBuffer(s: Replay, bs: seq<Block>, h: OpenHook, o: Outcome)
    requires Buffers(s, bs, h) && h.Waiting?
    ensures Buffers(Queue(s, HookEnd(o), false), bs + [Completed(h, o)], NoHook)
  {
    var b := Completed(h, o);
    FlattenConcat(bs, [b]);
    FlattenOne(b);
    assert Flatten(bs) + OpenText(h) + [HookEnd(o)] == Flatten(bs + [b]) + OpenText(NoHook);
  }

  /** A stray hook end, in full: the hook is completed with the outcome of the end, and then the buffer is asked for
      before-all, before-each, after-each and after-all hooks, each replayed with the outcome it has there. */
  lemma {:induction false} StrayEndReplays(s: Replay, bs: seq<Block>, h: OpenHook, o: Outcome)
    requires Buffers(s, bs, h) && h.Waiting? && NoneAfterAllHook(bs) && !Has(h.name, "after all")
    requires s.current.Some? && s.scopes != [] && s.fixtures == []
    ensures
      var t, all, ws := RunHookEnd(false, s, o), bs + [Completed(h, o)], BEFORE_TEST + AFTER_TEST;
      t == s.(trace := s.trace + FixturesFor(Picked(all, ws), s.nextFixture, Last(s.scopes), s.current.value),
              pending := Flatten(Left(all, ws)), capturing := false,
              nextFixture := s.nextFixture + |Picked(all, ws)|, openHookSteps := t.openHookSteps,
              hookMeta := t.hookMeta)
    ensures RunHookEnd(true, s, o) == s
  {
    hide Attach, Attaches, Flatten, Picked, Left, AskedAll, EndHook;
    var s1, all := Queue(s, HookEnd(o), false), bs + [Completed(h, o)];
    assert s.pending != [];
    CompletedBuffer(s, bs, h, o);
    assert NoneAfterAllHook(all) by {
      assert forall i :: 0 <= i < |all| ==> all[i] == if i < |bs| then bs[i] else Completed(h, o);
    }
    AttachesUnfold(s1);
    Wishes();
    AttachesReplay(s1, all, NoHook, BEFORE_TEST + AFTER_TEST);
    assert Flatten(Left(all, BEFORE_TEST + AFTER_TEST)) + OpenText(NoHook) ==
           Flatten(Left(all, BEFORE_TEST + AFTER_TEST));
    assert RunHookEnd(true, s, o) == s by { NoFixtureToEnd(s, o); }
  }

  lemma NoFixtureToEnd(s: Replay, o: Outcome)
    requires s.current.Some? && s.fixtures == []
    ensures EndHook(s, o) == s
  {
  }

  lemma {:induction false} PickedAlone(bs: seq<Block>, b: Block, ws: seq<Wish>)
    requires forall i, k :: 0 <= i < |bs| && 0 <= k < |ws| ==> !Meets(bs[i], ws[k])
    requires exists k :: 0 <= k < |ws| && Meets(b, ws[k])
    ensures Picked(bs + [b], ws) == [b] && Left(bs + [b], ws) == bs
    decreases |ws|
  {
    hide Meets;
    var all, k := bs + [b], FirstMeeting(bs + [b], ws[0]);
    assert forall i :: 0 <= i < |bs| ==> all[i] == bs[i];
    assert all[|bs|] == b;
    if k < |all| {
      assert k == |bs| && Without(all, k) == bs;
      PickedNone(bs, ws[1..]);
    } else {
      PickedAlone(bs, b, ws[1..]);
    }
  }

  lemma {:induction false} PickedNone(bs: seq<Block>, ws: seq<Wish>)
    requires forall i, k :: 0 <= i < |bs| && 0 <= k < |ws| ==> !Meets(bs[i], ws[k])
    ensures Picked(bs, ws) == [] && Left(bs, ws) == bs
    decreases |ws|
  {
    hide Meets;
    if ws != [] {
      PickedNone(bs, ws[1..]);
    }
  }

  /** So a hook that began before its test, and is the only one of the buffer that is asked for, is replayed at its end
      with that end's own outcome: a failing hook shows as failing. */
  lemma {:induction false} StrayEndKeepsOutcome(last: bool, s: Replay, bs: seq<Block>, h: OpenHook, o: Outcome)
    requires Buffers(s, bs, h) && h.Waiting? && NoneAfterAllHook(bs) && !Has(h.name, "after all")
    requires s.current.Some? && s.scopes != [] && s.fixtures == []
    requires Has(h.name, "all") || Has(h.name, "each")
    requires forall i :: 0 <= i < |bs| ==> !Has(bs[i].name, "all") && !Has(bs[i].name, "each")
    ensures
      var t := Step(false, last, s, HookEnd(o));
      t == s.(trace := s.trace + FixtureCalls(Completed(h, o), s.nextFixture, Last(s.scopes), s.current.value),
              pending := Flatten(bs), capturing := false, nextFixture := s.nextFixture + 1,
              openHookSteps := t.openHookSteps, hookMeta := t.hookMeta)
  {
    hide Has, Flatten, RunHookEnd, Picked, Left, FixtureCalls;
    var b, ws := Completed(h, o), BEFORE_TEST + AFTER_TEST;
    StrayEndReplays(s, bs, h, o);
    assert ws[0] == Wish(Before, "all") && ws[1] == Wish(Before, "each") && ws[2] == Wish(After, "each");
    assert ws[3] == Wish(After, "all");
    assert exists k :: 0 <= k < |ws| && Meets(b, ws[k]) by {
      assert Meets(b, ws[0]) || Meets(b, ws[1]) || Meets(b, ws[2]) || Meets(b, ws[3]);
    }
    PickedAlone(bs, b, ws);
    OneFixture(b, s.nextFixture, Last(s.scopes), s.current.value);
  }

  lemma OneFixture(b: Block, f: nat, scope: nat, test: nat)
    ensures FixturesFor([b], f, scope, test) == FixtureCalls(b, f, scope, test)
  {
    hide FixtureCalls;
    assert [b][1..] == [] && FixturesFor([b][1..], f + 1, scope, test) == [];
  }

  // ----- A before-each hook finds its test

  /** The first before-type block with "each" in its name is taken at a test's start, whatever else the buffer holds. */
  lemma {:induction false} EachIsPicked(bs: seq<Block>, k: nat) returns (a: seq<Block>, c: seq<Block>)
    requires k < |bs| && FirstMeeting(bs, Wish(Before, "each")) == k
    ensures Picked(bs, BEFORE_TEST) == a + [bs[k]] + c && |a| + |c| <= 1
  {
    hide Has;
    var j := FirstMeeting(bs, Wish(Before, "all"));
    var each := [Wish(Before, "each")];
    assert BEFORE_TEST[0] == Wish(Before, "all") && BEFORE_TEST[1..] == each && each[1..] == [];
    if j == |bs| {
      a, c := [], [];
      assert Picked(bs, each) == [bs[k]] + Picked(Without(bs, k), []);
    } else if j == k {
      a, c := [], Picked(Without(bs, k), each);
    } else {
      var rest, i := Without(bs, j), if j < k then k - 1 else k;
      assert forall x :: 0 <= x < |rest| ==> rest[x] == if x < j then bs[x] else bs[x + 1];
      FirstIs(rest, Wish(Before, "each"), i);
      a, c := [bs[j]], [];
      assert Picked(rest, each) == [rest[i]] + Picked(Without(rest, i), []);
    }
  }

  lemma FirstIs(bs: seq<Block>, w: Wish, k: nat)
    requires k < |bs| && Meets(bs[k], w) && forall i :: 0 <= i < k ==> !Meets(bs[i], w)
    ensures FirstMeeting(bs, w) == k
  {
  }

  /**
    Every complete before-type hook in the buffer with the letters of "each" in its name, in any case, and first of its
    kind, is attached when the next test starts without a feature: it becomes one fixture from start to stop, started
    in the test's own scope and recorded on that test, and leaves the buffer.
   */
  lemma {:induction false} BeforeEachIsAttached(last: bool, s: Replay, bs: seq<Block>, h: OpenHook, k: nat,
                                                name: string, start: int)
      returns (a: seq<Block>, c: seq<Block>)
    requires Buffers(s, bs, h) && NoneAfterAllHook(bs)
    requires k < |bs| && bs[k].kind.Before? && Has(bs[k].name, "each")
    requires forall i :: 0 <= i < k ==> !(bs[i].kind.Before? && Has(bs[i].name, "each"))
    ensures |a| + |c| <= 1
    ensures
      var t, own, test := Step(false, last, s, TestStart(name, start)), s.nextScope, s.nextTest;
      t.trace == s.trace + WritesOf(s.current) + [StartScope(own), StartTest(test, name, start, s.scopes + [own])]
                 + (FixturesFor(a, s.nextFixture, own, test) + FixtureCalls(bs[k], s.nextFixture + |a|, own, test)
                    + FixturesFor(c, s.nextFixture + |a| + 1, own, test))
  {
    hide Has, Flatten, RunTestStart, Picked, Left, FixtureCalls, Buffers, NoneAfterAllHook;
    FirstIs(bs, Wish(Before, "each"), k);
    a, c := EachIsPicked(bs, k);
    TestStartReplays(false, s, bs, h, name, start);
    FixturesConcat(a + [bs[k]], c, s.nextFixture, s.nextScope, s.nextTest);
    FixturesConcat(a, [bs[k]], s.nextFixture, s.nextScope, s.nextTest);
    OneFixture(bs[k], s.nextFixture + |a|, s.nextScope, s.nextTest);
  }
}
