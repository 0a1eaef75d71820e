/** The test-plan filter that wraps the suite and test functions of the BDD interface. */
module TestPlan {
  import opened Sequences
  import opened Wrappers

  /** The calls a spec file makes, in order. A suite body that throws leaves the calls after it unmade. A test carries
      the file names that the call site was found under. */
  datatype Program =
    | Done
    | Throw
    | Describe(title: string, body: Program, rest: Program)
    | EmptySuite(title: string, rest: Program)
    | It(title: string, files: seq<string>, rest: Program)

  /** What reaches the framework. A suite whose body throws is not closed. */
  datatype Call = Opened(title: string) | Closed | Empty(title: string) | Registered(title: string)

  // ----- Names

  function Join(titles: seq<string>): string {
    if titles == [] then ""
    else if |titles| == 1 then titles[0]
    else Join(titles[..|titles| - 1]) + " " + titles[|titles| - 1]
  }

  /** The names a test goes by without its file: its suites' titles or the innermost suite's title before its own. */
  predicate IsTitle(name: string, suites: seq<string>, title: string) {
    || (suites == [] && name == title)
    || (suites != [] && (name == Join(suites) + " " + title || name == Join(suites) + "." + title))
    || (if suites != [] && suites[|suites| - 1] != ""
        then name == suites[|suites| - 1] + " " + title || name == suites[|suites| - 1] + "." + title
        else name == title)
  }

  /** A title name, alone or after one of the file names. */
  ghost predicate IsName(name: string, suites: seq<string>, title: string, files: seq<string>) {
    IsTitle(name, suites, title) ||
    exists file, base :: file in files && IsTitle(base, suites, title) && name == file + "#" + base
  }

  /** Some name of the test is in the plan. */
  ghost predicate Planned(inPlan: string -> bool, suites: seq<string>, title: string, files: seq<string>) {
    exists name :: IsName(name, suites, title, files) && inPlan(name)
  }

  lemma JoinOne(title: string)
    ensures Join([title]) == title
  {
  }

  lemma JoinMore(titles: seq<string>, title: string)
    requires titles != []
    ensures Join(titles + [title]) == Join(titles) + " " + title
  {
    assert (titles + [title])[..|titles|] == titles;
  }

  /** Titles are joined by one space each. */
  lemma {:induction false} JoinConcat(a: seq<string>, b: seq<string>)
    requires a != [] && b != []
    ensures Join(a + b) == Join(a) + " " + Join(b)
    decreases |b|
  {
    hide Join;
    var init, last := b[..|b| - 1], b[|b| - 1];
    JoinMore(a + init, last);
    assert a + b == a + init + [last] && b == init + [last];
    if init == [] {
      assert a + init == a;
      JoinOne(last);
    } else {
      JoinConcat(a, init);
      JoinMore(init, last);
      assert Join(a) + " " + Join(init) + " " + last == Join(a) + " " + (Join(init) + " " + last);
    }
  }

  /** The plan has the name, alone or after one of the file names. */
  ghost predicate HasName(inPlan: string -> bool, files: seq<string>, name: string) {
    inPlan(name) || exists file :: file in files && inPlan(file + "#" + name)
  }

  lemma {:induction false} PlannedByTitle(inPlan: string -> bool, suites: seq<string>, title: string,
                                          files: seq<string>)
    ensures Planned(inPlan, suites, title, files) <==>
            exists name :: IsTitle(name, suites, title) && HasName(inPlan, files, name)
  {
    hide IsTitle;
    if Planned(inPlan, suites, title, files) {
      var name :| IsName(name, suites, title, files) && inPlan(name);
      if !IsTitle(name, suites, title) {
        var file, base :| file in files && IsTitle(base, suites, title) && name == file + "#" + base;
        assert HasName(inPlan, files, base);
      }
    }
    if name :| IsTitle(name, suites, title) && HasName(inPlan, files, name) {
      if inPlan(name) {
        assert IsName(name, suites, title, files);
      } else {
        var file :| file in files && inPlan(file + "#" + name);
        assert IsName(file + "#" + name, suites, title, files);
      }
    }
  }

  /** A test outside any suite is planned by its title. */
  lemma {:induction false} PlannedAtTop(inPlan: string -> bool, title: string, files: seq<string>)
    ensures Planned(inPlan, [], title, files) <==> HasName(inPlan, files, title)
  {
    hide HasName, Planned;
    PlannedByTitle(inPlan, [], title, files);
    assert IsTitle(title, [], title);
  }

  /** A test in suites, nested to any depth, is planned by the titles of all of them or of the innermost one, with
      spaces in between, and a space or a dot before its own; under an untitled suite by its own title too. */
  lemma {:induction false} PlannedInSuites(inPlan: string -> bool, suites: seq<string>, title: string,
                                           files: seq<string>)
    requires suites != []
    ensures
      var leaf := suites[|suites| - 1];
      Planned(inPlan, suites, title, files) <==>
      || HasName(inPlan, files, Join(suites + [title]))
      || HasName(inPlan, files, Join(suites) + "." + title)
      || (leaf != "" && (HasName(inPlan, files, leaf + " " + title) || HasName(inPlan, files, leaf + "." + title)))
      || (leaf == "" && HasName(inPlan, files, title))
  {
    hide HasName, Planned, Join;
    PlannedByTitle(inPlan, suites, title, files);
    JoinConcat(suites, [title]);
    JoinOne(title);
    var leaf := suites[|suites| - 1];
    assert IsTitle(Join(suites) + " " + title, suites, title) && IsTitle(Join(suites) + "." + title, suites, title);
    if leaf != "" {
      assert IsTitle(leaf + " " + title, suites, title) && IsTitle(leaf + "." + title, suites, title);
    } else {
      assert IsTitle(title, suites, title);
    }
  }

  /** Two suites and a test: the four names, and one of them after a file name. */
  lemma {:induction false} NestedTestIsPlanned(inPlan: string -> bool)
    ensures inPlan("A B t") || inPlan("A B.t") || inPlan("B t") || inPlan("B.t") ==>
              Planned(inPlan, ["A", "B"], "t", [])
    ensures inPlan("spec.ts#A B t") ==> Planned(inPlan, ["A", "B"], "t", ["spec.ts"])
    ensures !inPlan("A B t") && !inPlan("A B.t") && !inPlan("B t") && !inPlan("B.t") ==>
              !Planned(inPlan, ["A", "B"], "t", [])
  {
    hide Planned, Join;
    JoinOne("A");
    JoinOne("B");
    JoinOne("t");
    JoinConcat(["A"], ["B"]);
    assert ["A"] + ["B"] == ["A", "B"];
    JoinConcat(["A", "B"], ["t"]);
    assert "A" + " " + "B" == "A B" && "A B" + " " + "t" == "A B t" && "A B" + "." + "t" == "A B.t";
    assert "B" + " " + "t" == "B t" && "B" + "." + "t" == "B.t" && "spec.ts" + "#" + "A B t" == "spec.ts#A B t";
    PlannedInSuites(inPlan, ["A", "B"], "t", []);
    PlannedInSuites(inPlan, ["A", "B"], "t", ["spec.ts"]);
  }

  // ----- What the wrappers do

  /** The titles `decide` sees for a test. */
  datatype Decision = Decision(suites: seq<string>, title: string, files: seq<string>)

  /** An exception leaves the program. */
  predicate Throws(p: Program) {
    match p
    case Done => false
    case Throw => true
    case Describe(_, body, rest) => Throws(body) || Throws(rest)
    case EmptySuite(_, rest) => Throws(rest)
    case It(_, _, rest) => Throws(rest)
  }

  /** The calls that get through, made with the titles `suites` around them. */
  ghost function Wrapped(inPlan: string -> bool, p: Program, suites: seq<string>): seq<Call> {
    match p
    case Done => []
    case Throw => []
    case EmptySuite(title, rest) => [Empty(title)] + Wrapped(inPlan, rest, suites)
    case It(title, files, rest) =>
      (if Planned(inPlan, suites, title, files) then [Registered(title)] else []) + Wrapped(inPlan, rest, suites)
    case Describe(title, body, rest) =>
      [Opened(title)] + Wrapped(inPlan, body, suites + [title]) +
      if Throws(body) then [] else [Closed] + Wrapped(inPlan, rest, suites)
  }

  ghost function Decisions(p: Program, suites: seq<string>): seq<Decision> {
    match p
    case Done => []
    case Throw => []
    case EmptySuite(_, rest) => Decisions(rest, suites)
    case It(title, files, rest) => [Decision(suites, title, files)] + Decisions(rest, suites)
    case Describe(title, body, rest) =>
      Decisions(body, suites + [title]) + if Throws(body) then [] else Decisions(rest, suites)
  }

  // ----- The wrappers

  /** The four title candidates. */
  method TitleNames(suites: seq<string>, title: string) returns (names: seq<string>)
    ensures forall name :: name in names <==> IsTitle(name, suites, title)
  {
    var full := Join(suites);
    var leaf := if suites == [] then "" else suites[|suites| - 1];
    names := [
      if suites != [] then full + " " + title else title,
      if suites != [] then full + "." + title else title,
      if leaf != "" then leaf + " " + title else title,
      if leaf != "" then leaf + "." + title else title];
    ghost var (a, b, c, d) := (names[0], names[1], names[2], names[3]);
    assert forall name :: name in names <==> name == a || name == b || name == c || name == d;
  }

  ghost predicate IsFiled(name: string, titles: seq<string>, files: seq<string>) {
    exists file, base :: file in files && base in titles && name == file + "#" + base
  }

  lemma FiledConcat(name: string, a: seq<string>, t: string, files: seq<string>)
    ensures IsFiled(name, a + [t], files) <==>
            IsFiled(name, a, files) || exists file :: file in files && name == file + "#" + t
  {
    if IsFiled(name, a, files) {
      var file, base :| file in files && base in a && name == file + "#" + base;
      assert base in a + [t];
    }
    if exists file :: file in files && name == file + "#" + t {
      var file :| file in files && name == file + "#" + t;
      assert t in a + [t];
    }
  }

  /** Every title name, alone and after each file name. */
  method WithFiles(titles: seq<string>, files: seq<string>) returns (names: seq<string>)
    ensures forall name :: name in names <==> name in titles || IsFiled(name, titles, files)
  {
    names := [];
    for i := 0 to |titles|
      invariant forall name :: name in names <==> name in titles[..i] || IsFiled(name, titles[..i], files)
    {
      var more := Filed(titles[i], files);
      assert titles[..i + 1] == titles[..i] + [titles[i]];
      forall name
        ensures name in names + [titles[i]] + more <==> name in titles[..i + 1] || IsFiled(name, titles[..i + 1], files)
      {
        FiledConcat(name, titles[..i], titles[i], files);
      }
      names := names + [titles[i]] + more;
    }
    assert titles[..|titles|] == titles;
  }

  method Filed(title: string, files: seq<string>) returns (names: seq<string>)
    ensures forall name :: name in names <==> exists file :: file in files && name == file + "#" + title
  {
    names := [];
    for j := 0 to |files|
      invariant forall name :: name in names <==> exists file :: file in files[..j] && name == file + "#" + title
    {
      assert files[..j + 1] == files[..j] + [files[j]];
      names := names + [files[j] + "#" + title];
    }
    assert files[..|files|] == files;
  }

  method Includes(inPlan: string -> bool, candidates: seq<string>) returns (found: bool)
    ensures found <==> exists name :: name in candidates && inPlan(name)
  {
    for n := 0 to |candidates|
      invariant forall m :: 0 <= m < n ==> !inPlan(candidates[m])
    {
      if inPlan(candidates[n]) {
        return true;
      }
    }
    return false;
  }

  class Filter {
    const inPlan: string -> bool
    var suiteStack: seq<string>
    var calls: seq<Call>
    ghost var decisions: seq<Decision>

    constructor (inPlan: string -> bool)
      ensures this.inPlan == inPlan && suiteStack == [] && calls == [] && decisions == []
    {
      this.inPlan := inPlan;
      suiteStack, calls, decisions := [], [], [];
    }

    method Decide(title: string, files: seq<string>) returns (allow: bool)
      modifies this`decisions
      ensures allow <==> Planned(inPlan, suiteStack, title, files)
      ensures decisions == old(decisions) + [Decision(suiteStack, title, files)]
    {
      decisions := decisions + [Decision(suiteStack, title, files)];
      var titles := TitleNames(suiteStack, title);
      var candidates := WithFiles(titles, files);
      allow := Includes(inPlan, candidates);
      forall name
        ensures name in candidates <==> IsName(name, suiteStack, title, files)
      {
        assert IsFiled(name, titles, files) <==>
               exists file, base :: file in files && IsTitle(base, suiteStack, title) && name == file + "#" + base;
      }
    }

    /** Runs the calls of a spec file through the wrappers; `threw` says that an exception left it. */
    method Run(p: Program) returns (threw: bool)
      modifies this
      ensures suiteStack == old(suiteStack)
      ensures calls == old(calls) + Wrapped(inPlan, p, suiteStack)
      ensures decisions == old(decisions) + Decisions(p, suiteStack)
      ensures threw == Throws(p)
      decreases p, 0
    {
      hide Planned;
      match p
      case Done => return false;
      case Throw => return true;
      case EmptySuite(title, rest) =>
        calls := calls + [Empty(title)];
        threw := Run(rest);
      case It(title, files, rest) =>
        RunTest(title, files);
        threw := Run(rest);
      case Describe(title, body, rest) =>
        threw := RunSuite(title, body);
        if !threw {
          threw := Run(rest);
          Regroup(old(calls), [Opened(title)] + Wrapped(inPlan, body, suiteStack + [title]), [Closed],
            Wrapped(inPlan, rest, suiteStack));
        }
    }

    /** The wrapped suite function: the framework closes the suite unless its body throws. */
    method RunSuite(title: string, body: Program) returns (threw: bool)
      modifies this
      ensures suiteStack == old(suiteStack)
      ensures calls == old(calls) + ([Opened(title)] + Wrapped(inPlan, body, suiteStack + [title])
                                     + if threw then [] else [Closed])
      ensures decisions == old(decisions) + Decisions(body, suiteStack + [title])
      ensures threw == Throws(body)
      decreases body, 2
    {
      calls := calls + [Opened(title)];
      threw := RunBody(title, body);
      if !threw {
        calls := calls + [Closed];
      }
    }

    /** The wrapped test function. */
    method RunTest(title: string, files: seq<string>)
      modifies this`calls, this`decisions
      ensures calls == old(calls) + if Planned(inPlan, suiteStack, title, files) then [Registered(title)] else []
      ensures decisions == old(decisions) + [Decision(suiteStack, title, files)]
    {
      var allow := Decide(title, files);
      if allow {
        calls := calls + [Registered(title)];
      }
    }

    /** The callback a wrapped suite hands on: the title comes off the stack again however the body ends. */
    method RunBody(title: string, body: Program) returns (threw: bool)
      modifies this
      ensures suiteStack == old(suiteStack)
      ensures calls == old(calls) + Wrapped(inPlan, body, suiteStack + [title])
      ensures decisions == old(decisions) + Decisions(body, suiteStack + [title])
      ensures threw == Throws(body)
      decreases body, 1
    {
      suiteStack := suiteStack + [title];
      threw := Run(body);
      suiteStack := suiteStack[..|suiteStack| - 1];
    }
  }

  // ----- What the filter means

  /** What an unwrapped interface would receive, each test with the titles of the suites around it. */
  datatype PlainCall =
    | PlainOpen(title: string)
    | PlainClose
    | PlainEmpty(title: string)
    | PlainTest(suites: seq<string>, title: string, files: seq<string>)

  function Plain(p: Program, suites: seq<string>): seq<PlainCall> {
    match p
    case Done => []
    case Throw => []
    case EmptySuite(title, rest) => [PlainEmpty(title)] + Plain(rest, suites)
    case It(title, files, rest) => [PlainTest(suites, title, files)] + Plain(rest, suites)
    case Describe(title, body, rest) =>
      [PlainOpen(title)] + Plain(body, suites + [title]) +
      if Throws(body) then [] else [PlainClose] + Plain(rest, suites)
  }

  /** Drops the tests without a planned name and keeps everything else in place. */
  ghost function Select(inPlan: string -> bool, cs: seq<PlainCall>): seq<Call> {
    if cs == [] then [] else Selected(inPlan, cs[0]) + Select(inPlan, cs[1..])
  }

  ghost function Selected(inPlan: string -> bool, c: PlainCall): seq<Call> {
    match c
    case PlainOpen(title) => [Opened(title)]
    case PlainClose => [Closed]
    case PlainEmpty(title) => [Empty(title)]
    case PlainTest(suites, title, files) => if Planned(inPlan, suites, title, files) then [Registered(title)] else []
  }

  ghost function Asked(cs: seq<PlainCall>): seq<Decision> {
    if cs == [] then []
    else (if cs[0].PlainTest? then [Decision(cs[0].suites, cs[0].title, cs[0].files)] else []) + Asked(cs[1..])
  }

  lemma {:induction false} SelectConcat(inPlan: string -> bool, a: seq<PlainCall>, b: seq<PlainCall>)
    ensures Select(inPlan, a + b) == Select(inPlan, a) + Select(inPlan, b)
  {
    hide Selected;
    if a == [] {
      assert a + b == b;
    } else {
      assert (a + b)[0] == a[0] && (a + b)[1..] == a[1..] + b;
      SelectConcat(inPlan, a[1..], b);
    }
  }

  lemma {:induction false} AskedConcat(a: seq<PlainCall>, b: seq<PlainCall>)
    ensures Asked(a + b) == Asked(a) + Asked(b)
  {
    if a == [] {
      assert a + b == b;
    } else {
      assert (a + b)[0] == a[0] && (a + b)[1..] == a[1..] + b;
      AskedConcat(a[1..], b);
    }
  }

  lemma Concats(inPlan: string -> bool, a: seq<PlainCall>, b: seq<PlainCall>)
    ensures Select(inPlan, a + b) == Select(inPlan, a) + Select(inPlan, b)
    ensures Asked(a + b) == Asked(a) + Asked(b)
  {
    SelectConcat(inPlan, a, b);
    AskedConcat(a, b);
  }

  lemma SelectOne(inPlan: string -> bool, c: PlainCall)
    ensures Select(inPlan, [c]) == Selected(inPlan, c)
    ensures Asked([c]) == if c.PlainTest? then [Decision(c.suites, c.title, c.files)] else []
    ensures Select(inPlan, []) == [] && Asked([]) == []
  {
    assert [c][1..] == [];
  }

  /** The selection from a suite's calls, with what comes after it unless its body throws. */
  lemma SuiteSelection(inPlan: string -> bool, title: string, inner: seq<PlainCall>, after: Option<seq<PlainCall>>)
    ensures
      var all := [PlainOpen(title)] + inner + if after.None? then [] else [PlainClose] + after.value;
      && Select(inPlan, all) ==
         [Opened(title)] + Select(inPlan, inner) + (if after.None? then [] else [Closed] + Select(inPlan, after.value))
      && Asked(all) == Asked(inner) + if after.None? then [] else Asked(after.value)
  {
    hide Select, Asked;
    SelectOne(inPlan, PlainOpen(title));
    SelectOne(inPlan, PlainClose);
    Concats(inPlan, [PlainOpen(title)], inner);
    if after.Some? {
      Concats(inPlan, [PlainClose], after.value);
      Concats(inPlan, [PlainOpen(title)] + inner, [PlainClose] + after.value);
    } else {
      Concats(inPlan, [PlainOpen(title)] + inner, []);
    }
  }

  /** The wrappers are a filter: of the calls the unwrapped interface would receive they keep everything, in place,
      except the tests without a planned name; and they decide on exactly the tests it would receive. */
  lemma {:induction false} WrappedIsSelection(inPlan: string -> bool, p: Program, suites: seq<string>)
    ensures Wrapped(inPlan, p, suites) == Select(inPlan, Plain(p, suites))
    ensures Decisions(p, suites) == Asked(Plain(p, suites))
    decreases p
  {
    hide Select, Asked, Planned;
    match p
    case Done => SelectOne(inPlan, PlainClose);
    case Throw => SelectOne(inPlan, PlainClose);
    case EmptySuite(title, rest) =>
      SelectOne(inPlan, PlainEmpty(title));
      Concats(inPlan, [PlainEmpty(title)], Plain(rest, suites));
      WrappedIsSelection(inPlan, rest, suites);
    case It(title, files, rest) =>
      SelectOne(inPlan, PlainTest(suites, title, files));
      Concats(inPlan, [PlainTest(suites, title, files)], Plain(rest, suites));
      WrappedIsSelection(inPlan, rest, suites);
    case Describe(title, body, rest) =>
      SuiteSelection(inPlan, title, Plain(body, suites + [title]),
                     if Throws(body) then None else Some(Plain(rest, suites)));
      WrappedIsSelection(inPlan, body, suites + [title]);
      WrappedIsSelection(inPlan, rest, suites);
  }

  // ----- The titles are those of the enclosing suites

  /** The titles of the suites open after some calls, when those in `suites` were open before. */
  function OpenAfter(suites: seq<string>, cs: seq<PlainCall>): seq<string>
    decreases |cs|
  {
    if cs == [] then suites
    else
      match cs[0]
      case PlainOpen(title) => OpenAfter(suites + [title], cs[1..])
      case PlainClose => OpenAfter(if suites == [] then [] else suites[..|suites| - 1], cs[1..])
      case _ => OpenAfter(suites, cs[1..])
  }

  /** Every test carries the titles of the suites the calls before it leave open. */
  ghost predicate PathsRight(suites: seq<string>, cs: seq<PlainCall>) {
    forall k :: 0 <= k < |cs| && cs[k].PlainTest? ==> cs[k].suites == OpenAfter(suites, cs[..k])
  }

  lemma {:induction false} OpenAfterConcat(suites: seq<string>, a: seq<PlainCall>, b: seq<PlainCall>)
    ensures OpenAfter(suites, a + b) == OpenAfter(OpenAfter(suites, a), b)
    decreases |a|
  {
    if a == [] {
      assert a + b == b;
    } else {
      assert (a + b)[0] == a[0] && (a + b)[1..] == a[1..] + b;
      var next := match a[0]
        case PlainOpen(title) => suites + [title]
        case PlainClose => if suites == [] then [] else suites[..|suites| - 1]
        case _ => suites;
      OpenAfterConcat(next, a[1..], b);
    }
  }

  lemma {:induction false} PathsConcat(suites: seq<string>, a: seq<PlainCall>, b: seq<PlainCall>)
    requires PathsRight(suites, a) && PathsRight(OpenAfter(suites, a), b)
    ensures PathsRight(suites, a + b)
  {
    hide OpenAfter;
    var cs := a + b;
    forall k | 0 <= k < |cs| && cs[k].PlainTest?
      ensures cs[k].suites == OpenAfter(suites, cs[..k])
    {
      if k < |a| {
        assert cs[..k] == a[..k] && cs[k] == a[k];
      } else {
        assert cs[..k] == a + b[..k - |a|] && cs[k] == b[k - |a|];
        OpenAfterConcat(suites, a, b[..k - |a|]);
      }
    }
  }

  lemma PathsOne(suites: seq<string>, c: PlainCall)
    requires c.PlainTest? ==> c.suites == suites
    ensures PathsRight(suites, [c])
    ensures c.PlainOpen? ==> OpenAfter(suites, [c]) == suites + [c.title]
    ensures c.PlainClose? && suites != [] ==> OpenAfter(suites, [c]) == suites[..|suites| - 1]
    ensures !c.PlainOpen? && !c.PlainClose? ==> OpenAfter(suites, [c]) == suites
  {
    assert [c][1..] == [];
    assert [c][..0] == [];
  }

  /** Each decision sees the titles of the suites around its test, outermost first, and every suite that does not
      throw is closed again. */
  lemma {:induction false} DecisionsSeePaths(p: Program, suites: seq<string>)
    ensures PathsRight(suites, Plain(p, suites))
    ensures !Throws(p) ==> OpenAfter(suites, Plain(p, suites)) == suites
    decreases p
  {
    hide PathsRight, OpenAfter;
    match p
    case Done => NoPaths(suites);
    case Throw => NoPaths(suites);
    case EmptySuite(title, rest) =>
      PathsOne(suites, PlainEmpty(title));
      DecisionsSeePaths(rest, suites);
      PathsConcat(suites, [PlainEmpty(title)], Plain(rest, suites));
      OpenAfterConcat(suites, [PlainEmpty(title)], Plain(rest, suites));
    case It(title, files, rest) =>
      PathsOne(suites, PlainTest(suites, title, files));
      DecisionsSeePaths(rest, suites);
      PathsConcat(suites, [PlainTest(suites, title, files)], Plain(rest, suites));
      OpenAfterConcat(suites, [PlainTest(suites, title, files)], Plain(rest, suites));
    case Describe(title, body, rest) =>
      var open, inner := [PlainOpen(title)], Plain(body, suites + [title]);
      PathsOne(suites, PlainOpen(title));
      DecisionsSeePaths(body, suites + [title]);
      PathsConcat(suites, open, inner);
      OpenAfterConcat(suites, open, inner);
      if Throws(body) {
        assert Plain(p, suites) == open + inner;
      } else {
        PathsOne(suites + [title], PlainClose);
        assert (suites + [title])[..|suites|] == suites;
        PathsConcat(suites, open + inner, [PlainClose]);
        OpenAfterConcat(suites, open + inner, [PlainClose]);
        DecisionsSeePaths(rest, suites);
        PathsConcat(suites, open + inner + [PlainClose], Plain(rest, suites));
        OpenAfterConcat(suites, open + inner + [PlainClose], Plain(rest, suites));
        assert Plain(p, suites) == open + inner + [PlainClose] + Plain(rest, suites);
      }
  }

  lemma NoPaths(suites: seq<string>)
    ensures PathsRight(suites, []) && OpenAfter(suites, []) == suites
  {
  }

  /** The calls of one file after those of another. */
  function Then(p: Program, q: Program): Program {
    match p
    case Done => q
    case Throw => Throw
    case Describe(title, body, rest) => Describe(title, body, Then(rest, q))
    case EmptySuite(title, rest) => EmptySuite(title, Then(rest, q))
    case It(title, files, rest) => It(title, files, Then(rest, q))
  }

  /** What comes after an exception is not called, and what comes after anything else is called as it would be
      alone. */
  lemma {:induction false} ThrowStopsTheFile(inPlan: string -> bool, p: Program, q: Program, suites: seq<string>)
    ensures Throws(Then(p, q)) <==> Throws(p) || Throws(q)
    ensures Wrapped(inPlan, Then(p, q), suites) ==
            Wrapped(inPlan, p, suites) + if Throws(p) then [] else Wrapped(inPlan, q, suites)
    decreases p
  {
    hide Planned;
    var after := if Throws(p) then [] else Wrapped(inPlan, q, suites);
    match p
    case Done => assert [] + after == after;
    case Throw => assert [] + after == [];
    case Describe(title, body, rest) =>
      ThrowStopsTheFile(inPlan, rest, q, suites);
      var head := [Opened(title)] + Wrapped(inPlan, body, suites + [title]);
      if Throws(body) {
        assert head + [] + after == head + [];
      } else {
        Appended(head, Wrapped(inPlan, rest, suites), after);
      }
    case EmptySuite(title, rest) =>
      ThrowStopsTheFile(inPlan, rest, q, suites);
      Joined([Empty(title)], Wrapped(inPlan, rest, suites), after);
    case It(title, files, rest) =>
      ThrowStopsTheFile(inPlan, rest, q, suites);
      var head := if Planned(inPlan, suites, title, files) then [Registered(title)] else [];
      Joined(head, Wrapped(inPlan, rest, suites), after);
  }

  lemma Joined(head: seq<Call>, a: seq<Call>, b: seq<Call>)
    ensures head + (a + b) == head + a + b
  {
  }

  /** No suite and no test throws by itself. */
  lemma OnlyThrowThrows(title: string, files: seq<string>)
    ensures Throws(Throw) && !Throws(Done) && !Throws(It(title, files, Done)) && !Throws(EmptySuite(title, Done))
  {
  }

  /** An exception leaves a suite if and only if it leaves its body, and then the suite is not closed. */
  lemma SuiteThrows(inPlan: string -> bool, title: string, body: Program, suites: seq<string>)
    ensures
      var suite := Describe(title, body, Done);
      && (Throws(suite) <==> Throws(body))
      && Wrapped(inPlan, suite, suites) ==
         [Opened(title)] + Wrapped(inPlan, body, suites + [title]) + if Throws(body) then [] else [Closed]
  {
    hide Planned;
    assert !Throws(Done) && Wrapped(inPlan, Done, suites) == [];
  }

  lemma Appended(head: seq<Call>, a: seq<Call>, b: seq<Call>)
    ensures head + ([Closed] + (a + b)) == head + ([Closed] + a) + b
  {
  }

  /** A spec file with two suites and two tests, of which the plan has one by its full name. */
  lemma {:induction false} NestedTestIsSelected(inPlan: string -> bool)
    requires inPlan("A B t") && forall name :: inPlan(name) ==> name == "A B t"
    ensures
      var spec := Describe("A", Describe("B", It("t", [], It("u", [], Done)), Done), Done);
      Wrapped(inPlan, spec, []) == [Opened("A"), Opened("B"), Registered("t"), Closed, Closed]
  {
    hide Planned;
    var suites := ["A", "B"];
    assert [] + ["A"] == ["A"] && ["A"] + ["B"] == suites;
    NestedTestIsPlanned(inPlan);
    assert Planned(inPlan, suites, "t", []);
    OtherNames();
    assert !Planned(inPlan, suites, "u", []) by { OtherIsUnplanned(inPlan); }
    var tests := It("t", [], It("u", [], Done));
    assert Wrapped(inPlan, tests, suites) == [Registered("t")];
    assert Wrapped(inPlan, Describe("B", tests, Done), ["A"]) == [Opened("B"), Registered("t"), Closed];
  }

  lemma OtherNames()
    ensures "A B u" != "A B t" && "A B.u" != "A B t" && "B u" != "A B t" && "B.u" != "A B t"
  {
    assert "A B u"[4] == 'u' && "A B t"[4] == 't' && "A B.u"[3] == '.' && "A B t"[3] == ' ';
  }

  lemma {:induction false} OtherIsUnplanned(inPlan: string -> bool)
    requires forall name :: inPlan(name) ==> name == "A B t"
    ensures !Planned(inPlan, ["A", "B"], "u", [])
  {
    hide Planned, Join;
    OtherNames();
    JoinOne("A");
    JoinOne("B");
    JoinOne("u");
    JoinConcat(["A"], ["B"]);
    assert ["A"] + ["B"] == ["A", "B"];
    JoinConcat(["A", "B"], ["u"]);
    assert "A" + " " + "B" == "A B" && "A B" + " " + "u" == "A B u" && "A B" + "." + "u" == "A B.u";
    assert "B" + " " + "u" == "B u" && "B" + "." + "u" == "B.u";
    PlannedInSuites(inPlan, ["A", "B"], "u", []);
  }
}
