/**
  What replaying a report log does, as functions on values. `AllureState` holds the class whose methods are
  proved to compute these functions; the properties of the replay are proved about them in the other modules.
  Every call to the Allure runtime is recorded in `trace`, and the runtime hands out fresh identifiers.
 */
module AllureReplay {
  import opened Wrappers
  import opened AllureMessages

  datatype Target = OnTest(test: nat) | OnFixture(fixture: nat)

  datatype Call =
    | StartScope(scope: nat)
    | WriteScope(scope: nat)
    | StartTest(test: nat, name: string, start: int, scopes: seq<nat>)
    | SetTestName(test: nat, fullName: string)
    | SetTestStatus(test: nat, outcome: Outcome)
    | AddTestFixture(test: nat, name: string, kind: HookKind, status: Status)
    | StopTest(test: nat, outcome: Outcome)
    | WriteTest(test: nat)
    | StartFixture(fixture: nat, scope: nat, kind: HookKind, name: string, start: int)
    | SetFixtureStatus(fixture: nat, outcome: Outcome)
    | StopFixture(fixture: nat, outcome: Outcome)
    | Applied(target: Target, message: Message)

  datatype HookMeta = HookMeta(name: string, kind: HookKind)

  datatype Replay = Replay(
    scopes: seq<nat>, executables: seq<nat>, fixtures: seq<nat>, current: Option<nat>,
    pending: seq<Message>, capturing: bool,
    openSteps: nat, openHookSteps: map<nat, nat>, hookMeta: map<nat, HookMeta>,
    nextScope: nat, nextTest: nat, nextFixture: nat, trace: seq<Call>)

  const INIT := Replay([], [], [], None, [], false, 0, map[], map[], 0, 0, 0, [])

  function Last<T>(s: seq<T>): T
    requires s != []
  {
    s[|s| - 1]
  }

  function Front<T>(s: seq<T>): seq<T>
    requires s != []
  {
    s[..|s| - 1]
  }

  function Emit(s: Replay, c: Call): Replay {
    s.(trace := s.trace + [c])
  }

  function OpenScope(s: Replay): Replay {
    Emit(s.(scopes := s.scopes + [s.nextScope], nextScope := s.nextScope + 1), StartScope(s.nextScope))
  }

  function CloseScope(s: Replay): Replay {
    if s.scopes == [] then s
    else Emit(s.(scopes := Front(s.scopes)), WriteScope(Last(s.scopes)))
  }

  function WriteLastTest(s: Replay): Replay {
    if s.current.None? then s
    else Emit(s.(current := None), WriteTest(s.current.value))
  }

  /** The `n` step_stop messages that close what is still open on `target`. */
  function Stops(target: Target, n: nat, o: Outcome): seq<Call> {
    seq(n, _ => Applied(target, StepStop(o.status, o.stop, o.details)))
  }

  function CloseSteps(s: Replay, o: Outcome): Replay {
    if s.current.None? then s
    else s.(openSteps := 0, trace := s.trace + Stops(OnTest(s.current.value), s.openSteps, o))
  }

  function HookSteps(s: Replay, f: nat): nat {
    if f in s.openHookSteps then s.openHookSteps[f] else 0
  }

  function CloseHookSteps(s: Replay, f: nat, o: Outcome): Replay {
    s.(openHookSteps := s.openHookSteps[f := 0], trace := s.trace + Stops(OnFixture(f), HookSteps(s, f), o))
  }

  /** A step counter after a message; a stop with nothing open leaves it at zero. */
  function Count(n: nat, m: Message): nat {
    match m
    case StepStart(_, _) => n + 1
    case StepStop(_, _, _) => if n == 0 then 0 else n - 1
    case _ => n
  }

  function CountHookStep(s: Replay, f: nat, m: Message): Replay {
    if m.StepStart? || m.StepStop? then s.(openHookSteps := s.openHookSteps[f := Count(HookSteps(s, f), m)])
    else s
  }

  function BeginTest(s: Replay, name: string, start: int): Replay {
    var s1 := OpenScope(WriteLastTest(s));
    var t := s1.nextTest;
    Emit(s1.(executables := s1.executables + [t], current := Some(t), openSteps := 0, nextTest := t + 1),
         StartTest(t, name, start, s1.scopes))
  }

  function RunTestStart(feature: bool, s: Replay, name: string, start: int): Replay {
    var s1 := BeginTest(s, name, start);
    if s1.pending != [] && !feature then Attach(Attach(s1, Before, All), Before, Each) else s1
  }

  function AddTestInfo(s: Replay, fullName: string): Replay {
    if s.executables == [] then s else Emit(s, SetTestName(Last(s.executables), fullName))
  }

  function EndTest(s: Replay, o: Outcome): Replay {
    if s.executables == [] then s
    else
      var t := Last(s.executables);
      var s1 := CloseScope(CloseSteps(s.(executables := Front(s.executables)), o));
      Emit(Emit(s1, SetTestStatus(t, o)), StopTest(t, o))
  }

  function RunTestEnd(feature: bool, s: Replay, o: Outcome): Replay {
    var s1 := EndTest(s, o);
    if s1.pending != [] && !feature then Attach(Attach(s1, After, Each), After, All) else s1
  }

  function Queue(s: Replay, m: Message, capturing: bool): Replay {
    s.(pending := s.pending + [m], capturing := capturing)
  }

  function BeginFixture(s: Replay, name: string, kind: HookKind, start: int): Replay
    requires s.scopes != []
  {
    var f := s.nextFixture;
    Emit(s.(fixtures := s.fixtures + [f], nextFixture := f + 1,
            openHookSteps := s.openHookSteps[f := 0], hookMeta := s.hookMeta[f := HookMeta(name, kind)]),
         StartFixture(f, Last(s.scopes), kind, name, start))
  }

  function StartHook(s: Replay, name: string, kind: HookKind, start: int): Replay {
    var s1 := if AfterAll(name) then WriteLastTest(s) else s;
    if s1.current.None? then Queue(s1, HookStart(name, kind, start), true)
    else if s1.scopes == [] then s1
    else BeginFixture(s1, name, kind, start)
  }

  function FinishFixture(s: Replay, o: Outcome): Replay
    requires s.current.Some? && s.fixtures != []
  {
    var f := Last(s.fixtures);
    var s1 := CloseHookSteps(s.(fixtures := Front(s.fixtures)), f, o);
    var s2 := Emit(Emit(s1, SetFixtureStatus(f, o)), StopFixture(f, o));
    if f in s.hookMeta
    then Emit(s2, AddTestFixture(s.current.value, s.hookMeta[f].name, s.hookMeta[f].kind, o.status))
    else s2
  }

  function EndHook(s: Replay, o: Outcome): Replay {
    if s.current.None? then Queue(s, HookEnd(o), false)
    else if s.fixtures == [] then s
    else FinishFixture(s, o)
  }

  function RunHookEnd(feature: bool, s: Replay, o: Outcome): Replay {
    if s.current.Some? && s.fixtures == [] && s.pending != [] && !feature then
      var s1 := Queue(s, HookEnd(o), false);
      Attach(Attach(Attach(Attach(s1, Before, All), Before, Each), After, Each), After, All)
    else EndHook(s, o)
  }

  /** A step, label or attachment: to the innermost fixture, else to the current test, else to the buffer. */
  function Deliver(s: Replay, m: Message): Replay {
    if s.fixtures != [] then
      Emit(CountHookStep(s, Last(s.fixtures), m), Applied(OnFixture(Last(s.fixtures)), m))
    else if s.current.Some? then
      Emit(s.(openSteps := Count(s.openSteps, m)), Applied(OnTest(s.current.value), m))
    else if s.capturing then s.(pending := s.pending + [m])
    else s
  }

  /** The buffered messages between a hook's start and its end, applied to fixture `f`. */
  function ReplayBody(s: Replay, f: nat, body: seq<Message>): Replay
    decreases |body|
  {
    if body == [] then s
    else
      var s1 := ReplayBody(s, f, Front(body));
      var m := Last(body);
      if IsRuntime(m) then Emit(CountHookStep(s1, f, m), Applied(OnFixture(f), m)) else s1
  }

  /** Attaches the first buffered hook of the given kind and scope, if its end is buffered too. */
  function Attach(s: Replay, kind: HookKind, scope: HookScope): Replay {
    var i := FindHook(s.pending, kind, scope, 0);
    if s.current.None? || i == |s.pending| then s
    else
      var j := FindEnd(s.pending, i + 1);
      if j == |s.pending| then s else AttachAt(s, i, j)
  }

  /** Replays the buffered hook that starts at `i` and ends at `j`, and takes it out of the buffer. */
  function AttachAt(s: Replay, i: nat, j: nat): Replay
    requires i < j < |s.pending| && s.pending[i].HookStart? && s.pending[j].HookEnd?
  {
    var s1 := StartHook(s, s.pending[i].name, s.pending[i].kind, s.pending[i].start);
    var s2 := AttachBody(s1, s.pending[i + 1..j]);
    Splice(EndHook(s2, s.pending[j].outcome), i, j)
  }

  function AttachBody(s: Replay, body: seq<Message>): Replay {
    if s.fixtures == [] then s else ReplayBody(s, Last(s.fixtures), body)
  }

  function Splice(s: Replay, i: nat, j: nat): Replay {
    if i <= j < |s.pending| then s.(pending := s.pending[..i] + s.pending[j + 1..]) else s
  }

  /** One message. `last` says that it is the final one of the log. */
  function Step(feature: bool, last: bool, s: Replay, m: Message): Replay {
    match m
    case SuiteStart(_, _) => OpenScope(WriteLastTest(s))
    case SuiteEnd => if last then WriteLastTest(CloseScope(s)) else CloseScope(s)
    case TestStart(name, start) => RunTestStart(feature, s, name, start)
    case TestInfo(fullName) => AddTestInfo(s, fullName)
    case TestEnd(o) => RunTestEnd(feature, s, o)
    case HookStart(name, kind, start) => StartHook(s, name, kind, start)
    case HookEnd(o) => RunHookEnd(feature, s, o)
    case _ => Deliver(s, m)
  }

  /** The state after the first `n` messages of `log`. */
  function Replayed(log: seq<Message>, n: nat): Replay
    requires n <= |log|
  {
    if n == 0 then INIT
    else Step(HasFeature(log), n == |log|, Replayed(log, n - 1), log[n - 1])
  }

  lemma ReplayedNext(log: seq<Message>, n: nat)
    requires 0 < n <= |log|
    ensures Replayed(log, n) == Step(HasFeature(log), n == |log|, Replayed(log, n - 1), log[n - 1])
  {
  }

  /** The drain that follows the last message. */
  function CloseAll(s: Replay): Replay
    decreases |s.scopes|
  {
    if s.scopes == [] then s else CloseAll(CloseScope(s))
  }

  function Report(log: seq<Message>): Replay {
    CloseAll(WriteLastTest(Replayed(log, |log|)))
  }

  lemma CountLeaves(s: Replay, f: nat, m: Message)
    ensures CountHookStep(s, f, m) == s.(openHookSteps := CountHookStep(s, f, m).openHookSteps)
  {
  }

  /** With no test live nothing is attached. */
  lemma AttachIdle(s: Replay, kind: HookKind, scope: HookScope)
    requires s.current.None?
    ensures Attach(s, kind, scope) == s
  {
  }

  /** A hook's start and end take nothing out of the buffer. */
  lemma HookKeepsBuffer(s: Replay)
    ensures forall name, kind, start {:trigger StartHook(s, name, kind, start)} ::
              s.pending <= StartHook(s, name, kind, start).pending
    ensures forall o {:trigger EndHook(s, o)} :: s.pending <= EndHook(s, o).pending
  {
  }

  lemma {:induction false} BodyKeepsBuffer(s: Replay, f: nat, body: seq<Message>)
    ensures ReplayBody(s, f, body).pending == s.pending
    decreases |body|
  {
    if body != [] {
      BodyKeepsBuffer(s, f, Front(body));
    }
  }
}
