/** The messages of the report log: what the reporter appends and the replay reads. */
module AllureMessages {
  import opened Wrappers
  import opened Text

  datatype Status = Passed | Failed | Broken | Skipped
  datatype Stage = Finished | Pending
  datatype HookKind = Before | After

  /** What an end message carries. A missing `stop` stands for the clock. */
  datatype Outcome = Outcome(status: Status, stage: Option<Stage>, details: Option<string>,
                             stop: Option<int>, duration: Option<int>)

  datatype Message =
    | SuiteStart(name: string, feature: bool)
    | SuiteEnd
    | TestStart(name: string, start: int)
    | TestInfo(fullName: string)
    | TestEnd(outcome: Outcome)
    | HookStart(name: string, kind: HookKind, start: int)
    | HookEnd(outcome: Outcome)
    | StepStart(name: string, start: int)
    | StepStop(status: Status, stop: Option<int>, details: Option<string>)
    | Other(payload: string)

  /** The messages the Allure runtime understands itself. */
  predicate IsRuntime(m: Message) {
    m.StepStart? || m.StepStop? || m.Other?
  }

  /** The messages that open or close a scope. */
  predicate IsStructural(m: Message) {
    m.SuiteStart? || m.SuiteEnd? || m.TestStart? || m.TestEnd?
  }

  predicate AfterAll(name: string) {
    Mentions(name, "after all")
  }

  /** Which hooks an attach asks for: those whose name mentions "each", or those that mention "all". */
  datatype HookScope = Each | All

  predicate InScope(name: string, scope: HookScope) {
    Mentions(name, if scope.Each? then "each" else "all")
  }

  lemma AfterAllMentionsAll(name: string)
    requires AfterAll(name)
    ensures InScope(name, All)
  {
    var i :| 0 <= i <= |name| && StandsAt(name, "after all", i);
    assert name[i..i + 9][6..9] == name[i + 6..i + 6 + 3];
    assert Lower(name[i..i + 9])[6..9] == Lower(name[i + 6..i + 6 + 3]);
    assert "after all"[6..9] == "all";
    assert StandsAt(name, "all", i + 6);
  }

  /** The three words, letter by letter and in any mix of cases. */
  lemma NamesAsSpelled(name: string)
    ensures AfterAll(name) <==> exists i: nat :: Spells(name, "after all", i)
    ensures InScope(name, All) <==> exists i: nat :: Spells(name, "all", i)
    ensures InScope(name, Each) <==> exists i: nat :: Spells(name, "each", i)
  {
    hide Mentions, Spells;
    MentionsExactly(name, "after all");
    MentionsExactly(name, "all");
    MentionsExactly(name, "each");
  }

  /** The name of the last suite flagged as a feature; the empty name is falsy in the source. */
  function FeatureName(log: seq<Message>): string {
    if log == [] then ""
    else
      var m := log[|log| - 1];
      if m.SuiteStart? && m.feature then m.name else FeatureName(log[..|log| - 1])
  }

  predicate HasFeature(log: seq<Message>) {
    FeatureName(log) != ""
  }

  /** Message `i` starts the last suite that is flagged as a feature. */
  predicate IsLastFeature(log: seq<Message>, i: nat) {
    && i < |log| && log[i].SuiteStart? && log[i].feature
    && forall k :: i < k < |log| ==> !(log[k].SuiteStart? && log[k].feature)
  }

  /** A log has a feature exactly when the last suite flagged as one has a name. */
  lemma {:induction false} FeatureExactly(log: seq<Message>)
    ensures HasFeature(log) <==> exists i: nat :: IsLastFeature(log, i) && log[i].name != ""
    ensures forall i: nat :: IsLastFeature(log, i) ==> FeatureName(log) == log[i].name
  {
    if log != [] {
      var before, m := log[..|log| - 1], log[|log| - 1];
      FeatureExactly(before);
      if m.SuiteStart? && m.feature {
        assert IsLastFeature(log, |log| - 1);
      } else {
        forall i: nat
          ensures IsLastFeature(log, i) <==> IsLastFeature(before, i)
        {
        }
      }
    }
  }

  /** Position of the first hook start of the wanted kind and scope at or after `from`, or |ms|. */
  function FindHook(ms: seq<Message>, kind: HookKind, scope: HookScope, from: nat): (i: nat)
    requires from <= |ms|
    ensures from <= i <= |ms|
    ensures forall k :: from <= k < i ==> !WantedHook(ms[k], kind, scope)
    ensures i < |ms| ==> WantedHook(ms[i], kind, scope)
    decreases |ms| - from
  {
    if from == |ms| || WantedHook(ms[from], kind, scope) then from else FindHook(ms, kind, scope, from + 1)
  }

  predicate WantedHook(m: Message, kind: HookKind, scope: HookScope) {
    m.HookStart? && m.kind == kind && InScope(m.name, scope)
  }

  /** Position of the first hook end at or after `from`, or |ms|. */
  function FindEnd(ms: seq<Message>, from: nat): (i: nat)
    requires from <= |ms|
    ensures from <= i <= |ms|
    ensures forall k :: from <= k < i ==> !ms[k].HookEnd?
    ensures i < |ms| ==> ms[i].HookEnd?
    decreases |ms| - from
  {
    if from == |ms| || ms[from].HookEnd? then from else FindEnd(ms, from + 1)
  }

  /** The four kinds of message pairs the reporter asks about. */
  datatype Pair = SuitePair | TestPair | StepPair | HookPair

  predicate Opens(p: Pair, m: Message) {
    match p
    case SuitePair => m.SuiteStart?
    case TestPair => m.TestStart?
    case StepPair => m.StepStart?
    case HookPair => m.HookStart?
  }

  predicate Closes(p: Pair, m: Message) {
    match p
    case SuitePair => m.SuiteEnd?
    case TestPair => m.TestEnd?
    case StepPair => m.StepStop?
    case HookPair => m.HookEnd?
  }

  /** One bit, folded over the log: the last message of the pair was an opening one. */
  predicate IsPending(p: Pair, log: seq<Message>) {
    log != [] &&
    var m := log[|log| - 1];
    Opens(p, m) || (!Closes(p, m) && IsPending(p, log[..|log| - 1]))
  }

  /** Opening minus closing messages. */
  function Balance(p: Pair, log: seq<Message>): int {
    if log == [] then 0
    else
      var m := log[|log| - 1];
      Balance(p, log[..|log| - 1]) + (if Opens(p, m) then 1 else if Closes(p, m) then -1 else 0)
  }

  /** No opening while one is pending, and no closing unless one is. */
  predicate Alternates(p: Pair, log: seq<Message>) {
    log == [] ||
    var m, before := log[|log| - 1], log[..|log| - 1];
    Alternates(p, before) && (Opens(p, m) ==> !IsPending(p, before)) && (Closes(p, m) ==> IsPending(p, before))
  }

  /** A test has been started, and none has ended since; and so for hooks, suites and steps. */
  predicate TestOpen(log: seq<Message>) {
    exists i :: 0 <= i < |log| && log[i].TestStart? && forall k :: i < k < |log| ==> !log[k].TestEnd?
  }

  predicate HookOpen(log: seq<Message>) {
    exists i :: 0 <= i < |log| && log[i].HookStart? && forall k :: i < k < |log| ==> !log[k].HookEnd?
  }

  predicate SuiteOpen(log: seq<Message>) {
    exists i :: 0 <= i < |log| && log[i].SuiteStart? && forall k :: i < k < |log| ==> !log[k].SuiteEnd?
  }

  predicate StepOpen(log: seq<Message>) {
    exists i :: 0 <= i < |log| && log[i].StepStart? && forall k :: i < k < |log| ==> !log[k].StepStop?
  }

  /** The pending bits say that something has been started and not ended since. */
  lemma PendingExactly(log: seq<Message>)
    ensures IsPending(TestPair, log) <==> TestOpen(log)
    ensures IsPending(HookPair, log) <==> HookOpen(log)
    ensures IsPending(SuitePair, log) <==> SuiteOpen(log)
    ensures IsPending(StepPair, log) <==> StepOpen(log)
  {
    hide IsPending, TestOpen, HookOpen, SuiteOpen, StepOpen, OpensAt;
    PendingSince(TestPair, log);
    PendingSince(HookPair, log);
    PendingSince(SuitePair, log);
    PendingSince(StepPair, log);
    TestOpenSince(log);
    HookOpenSince(log);
    SuiteOpenSince(log);
    StepOpenSince(log);
  }

  /** Message `i` opens the pair, and none after it closes it. */
  predicate OpensAt(p: Pair, log: seq<Message>, i: nat) {
    i < |log| && Opens(p, log[i]) && forall k :: i < k < |log| ==> !Closes(p, log[k])
  }

  lemma {:induction false} PendingSince(p: Pair, log: seq<Message>)
    ensures IsPending(p, log) <==> exists i: nat :: OpensAt(p, log, i)
  {
    if log != [] {
      var before, m := log[..|log| - 1], log[|log| - 1];
      PendingSince(p, before);
      if Opens(p, m) {
        assert OpensAt(p, log, |log| - 1);
      } else {
        assert forall i: nat :: OpensAt(p, log, i) ==> OpensAt(p, before, i);
        assert forall i: nat :: OpensAt(p, before, i) && !Closes(p, m) ==> OpensAt(p, log, i);
      }
    }
  }

  lemma TestOpenSince(log: seq<Message>)
    ensures TestOpen(log) <==> exists i: nat :: OpensAt(TestPair, log, i)
  {
    if TestOpen(log) {
      var i :| 0 <= i < |log| && log[i].TestStart? && forall k :: i < k < |log| ==> !log[k].TestEnd?;
      assert OpensAt(TestPair, log, i);
    }
  }

  lemma HookOpenSince(log: seq<Message>)
    ensures HookOpen(log) <==> exists i: nat :: OpensAt(HookPair, log, i)
  {
    if HookOpen(log) {
      var i :| 0 <= i < |log| && log[i].HookStart? && forall k :: i < k < |log| ==> !log[k].HookEnd?;
      assert OpensAt(HookPair, log, i);
    }
  }

  lemma SuiteOpenSince(log: seq<Message>)
    ensures SuiteOpen(log) <==> exists i: nat :: OpensAt(SuitePair, log, i)
  {
    if SuiteOpen(log) {
      var i :| 0 <= i < |log| && log[i].SuiteStart? && forall k :: i < k < |log| ==> !log[k].SuiteEnd?;
      assert OpensAt(SuitePair, log, i);
    }
  }

  lemma StepOpenSince(log: seq<Message>)
    ensures StepOpen(log) <==> exists i: nat :: OpensAt(StepPair, log, i)
  {
    if StepOpen(log) {
      var i :| 0 <= i < |log| && log[i].StepStart? && forall k :: i < k < |log| ==> !log[k].StepStop?;
      assert OpensAt(StepPair, log, i);
    }
  }

  /** Scanning backwards for the two last positions and comparing them answers the fold. */
  lemma {:induction false} ScanIsFold(p: Pair, log: seq<Message>, s: int, e: int)
    requires -1 <= s < |log| && -1 <= e < |log|
    requires s >= 0 ==> Opens(p, log[s])
    requires e >= 0 ==> Closes(p, log[e])
    requires forall k :: s < k < |log| ==> !Opens(p, log[k])
    requires forall k :: e < k < |log| ==> !Closes(p, log[k])
    ensures s > e <==> IsPending(p, log)
  {
    if log != [] && s < |log| - 1 && e < |log| - 1 {
      ScanIsFold(p, log[..|log| - 1], s, e);
    }
  }

  /** On an alternating log the balance is the pending bit. */
  lemma {:induction false} AlternatingBalance(p: Pair, log: seq<Message>)
    requires Alternates(p, log)
    ensures Balance(p, log) == if IsPending(p, log) then 1 else 0
  {
    if log != [] {
      AlternatingBalance(p, log[..|log| - 1]);
    }
  }
}
