/** How the Appium command line is rewritten before the server starts. */
module AppiumArgs {
  import opened Wrappers
  import opened Text

  predicate IsPort(arg: string) {
    StartsWith(arg, "--port")
  }

  /** A flag whose value is the next argument. */
  predicate IsBare(arg: string) {
    IsPort(arg) && '=' !in arg
  }

  // ----- Reading the port

  /** `Missing` stands for the exception that is thrown. */
  datatype Port = Found(port: nat) | Absent | Missing

  /** Index of the first element of `s` at or after `from` equal to `c`, or |s|. */
  function IndexOf(s: string, c: char, from: nat): (i: nat)
    requires from <= |s|
    ensures from <= i <= |s| && c !in s[from..i] && (i < |s| ==> s[i] == c)
    decreases |s| - from
  {
    if from == |s| || s[from] == c then from
    else
      var i := IndexOf(s, c, from + 1);
      assert s[from..i] == [s[from]] + s[from + 1..i];
      i
  }

  lemma {:induction false} FirstAt(s: string, c: char, from: nat, k: nat)
    requires from <= k <= |s| && (k < |s| ==> s[k] == c) && forall j :: from <= j < k ==> s[j] != c
    ensures IndexOf(s, c, from) == k
    decreases k - from
  {
    if from < k {
      FirstAt(s, c, from + 1, k);
    }
  }

  /** What stands between the first '=' and the next one or the end. */
  function AfterEquals(arg: string): string
    requires '=' in arg
  {
    assert arg[0..|arg|] == arg;
    var i := IndexOf(arg, '=', 0);
    arg[i + 1..IndexOf(arg, '=', i + 1)]
  }

  /** The integer a string converts to, if it does. Only digit strings are spelled out; `other` is what the
      conversion makes of the rest: signs, fractions, exponents, blanks, the empty string. */
  function ToInteger(s: string, other: string -> Option<int>): Option<int> {
    if s != "" && AllDigits(s) then Some(ParseDigits(s)) else other(s)
  }

  function ToPort(n: Option<int>): Port {
    if n.Some? && 1 <= n.value <= 65535 then Found(n.value) else Absent
  }

  function FirstPort(args: seq<string>): (i: nat)
    ensures i <= |args| && (i < |args| ==> IsPort(args[i])) && forall k :: 0 <= k < i ==> !IsPort(args[k])
  {
    if args == [] || IsPort(args[0]) then 0 else 1 + FirstPort(args[1..])
  }

  function ExtractPort(args: seq<string>, other: string -> Option<int>): Port {
    var i := FirstPort(args);
    if i == |args| then Absent
    else if '=' in args[i] then ToPort(ToInteger(AfterEquals(args[i]), other))
    else if i + 1 == |args| || args[i + 1] == "" || StartsWith(args[i + 1], "--") then Missing
    else ToPort(ToInteger(args[i + 1], other))
  }

  const DEFAULT_PORT := 4723

  /** The port the server will use, or the exception. */
  function ExtractPortFromCli(args: seq<string>, other: string -> Option<int>): Option<nat> {
    match ExtractPort(args, other)
    case Found(p) => Some(p)
    case Absent => Some(DEFAULT_PORT)
    case Missing => None
  }

  // ----- Which port is read

  /** The first argument that begins with the flag. */
  ghost predicate IsFirst(args: seq<string>, i: nat) {
    i < |args| && "--port" <= args[i] && forall k :: 0 <= k < i ==> !("--port" <= args[k])
  }

  /** The argument is the flag `f`, which has no "=", and the value `v`, which ends there or at another "=". */
  ghost predicate Gives(arg: string, f: string, v: string) {
    '=' !in f && '=' !in v && (arg == f + "=" + v || f + "=" + v + "=" <= arg)
  }

  /** The port a value stands for: numbers out of range count as none, and so does what is no integer. */
  ghost predicate Means(v: string, other: string -> Option<int>, port: nat) {
    && (forall z: nat, n: nat :: v == Zeros(z) + Decimal(n) ==> port == if 1 <= n <= 65535 then n else 4723)
    && (v == "" || !AllDigits(v) ==>
          port == if other(v).Some? && 1 <= other(v).value <= 65535 then other(v).value else 4723)
  }

  lemma FirstIs(args: seq<string>, i: nat)
    requires IsFirst(args, i)
    ensures FirstPort(args) == i
  {
    var k := FirstPort(args);
    assert IsPort(args[i]);
    if k < |args| {
      assert "--port" <= args[k];
    }
  }

  lemma ValueMeans(v: string, other: string -> Option<int>)
    ensures
      var p := ToPort(ToInteger(v, other));
      Means(v, other, if p.Found? then p.port else 4723) && !p.Missing?
  {
    hide Decimal, Zeros, ParseDigits;
    forall z: nat, n: nat | v == Zeros(z) + Decimal(n)
      ensures ToInteger(v, other) == Some(n)
    {
      NumeralMeans(z, n, other);
    }
  }

  lemma NumeralMeans(z: nat, n: nat, other: string -> Option<int>)
    ensures ToInteger(Zeros(z) + Decimal(n), other) == Some(n)
  {
    hide Decimal, Zeros, ParseDigits, AllDigits;
    ParseOfDecimal(n);
    ParseAfterZeros(z, Decimal(n));
  }

  /** The flag and its value in one argument. */
  lemma {:induction false} PortInOneArgument(args: seq<string>, i: nat, f: string, v: string,
                                             other: string -> Option<int>)
    requires IsFirst(args, i) && Gives(args[i], f, v)
    ensures ExtractPortFromCli(args, other).Some? && Means(v, other, ExtractPortFromCli(args, other).value)
  {
    hide Means, ToInteger, AfterEquals, Gives;
    FirstIs(args, i);
    GivenIsRead(args[i], f, v);
    ValueMeans(v, other);
  }

  lemma GivenIsRead(arg: string, f: string, v: string)
    requires Gives(arg, f, v)
    ensures '=' in arg && AfterEquals(arg) == v
  {
    assert forall k :: 0 <= k < |f| ==> arg[k] == f[k];
    assert arg[|f|] == '=' && arg[|f| + 1..|f| + 1 + |v|] == v;
    assert forall k :: |f| < k < |f| + 1 + |v| ==> arg[k] == v[k - |f| - 1];
    FirstAt(arg, '=', 0, |f|);
    FirstAt(arg, '=', |f| + 1, |f| + 1 + |v|);
  }

  /** The flag alone, with its value behind it; reading throws exactly when there is no such value. */
  lemma {:induction false} PortInTwoArguments(args: seq<string>, i: nat, other: string -> Option<int>)
    requires IsFirst(args, i) && '=' !in args[i]
    ensures
      var p := ExtractPortFromCli(args, other);
      && (p.None? <==> i + 1 == |args| || args[i + 1] == "" || "--" <= args[i + 1])
      && (p.Some? ==> Means(args[i + 1], other, p.value))
  {
    hide Means, ToInteger;
    FirstIs(args, i);
    if i + 1 < |args| {
      ValueMeans(args[i + 1], other);
    }
  }

  /** No flag, no port: the default. */
  lemma NoPortGiven(args: seq<string>, other: string -> Option<int>)
    requires forall k :: 0 <= k < |args| ==> !("--port" <= args[k])
    ensures ExtractPortFromCli(args, other) == Some(4723)
  {
    assert forall k :: 0 <= k < |args| && IsPort(args[k]) ==> "--port" <= args[k];
  }

  lemma Numerals()
    ensures Decimal(4725) == "4725" && Decimal(65536) == "65536"
  {
    assert Decimal(4) == "4" && Decimal(47) == Decimal(4) + "7" && Decimal(472) == Decimal(47) + "2";
    assert Decimal(4725) == Decimal(472) + "5";
    assert Decimal(6) == "6" && Decimal(65) == Decimal(6) + "5" && Decimal(655) == Decimal(65) + "5";
    assert Decimal(6553) == Decimal(655) + "3" && Decimal(65536) == Decimal(6553) + "6";
  }

  /** The two forms of the flag. */
  lemma {:induction false} PortIsRead(other: string -> Option<int>)
    ensures ExtractPortFromCli(["--port", "4725"], other) == Some(4725)
    ensures ExtractPortFromCli(["--port=4725"], other) == Some(4725)
    ensures ExtractPortFromCli(["--port", "65536"], other) == Some(4723)
  {
    hide Decimal, ExtractPortFromCli;
    Numerals();
    assert Zeros(0) + "4725" == "4725" && Zeros(0) + "65536" == "65536";
    TwoArguments("4725", other);
    TwoArguments("65536", other);
    var one := ["--port=4725"];
    assert "--port=4725"[..6] == "--port" && IsFirst(one, 0);
    assert Gives("--port=4725", "--port", "4725");
    PortInOneArgument(one, 0, "--port", "4725", other);
  }

  lemma TwoArguments(v: string, other: string -> Option<int>)
    requires v != "" && v[0] != '-'
    ensures
      var p := ExtractPortFromCli(["--port", v], other);
      p.Some? && Means(v, other, p.value)
  {
    hide Means, ExtractPortFromCli;
    assert IsFirst(["--port", v], 0) && '=' !in "--port" && !("--" <= v);
    PortInTwoArguments(["--port", v], 0, other);
  }

  lemma PortInRange(args: seq<string>, other: string -> Option<int>)
    ensures var p := ExtractPortFromCli(args, other); p.Some? ==> 1 <= p.value <= 65535
  {
  }

  // ----- Removing the port

  /** From right to left: a port flag with a value goes; a bare one takes along what is left behind it. */
  function RemovePorts(args: seq<string>): seq<string> {
    if args == [] then []
    else
      var rest := RemovePorts(args[1..]);
      if !IsPort(args[0]) then [args[0]] + rest
      else if !IsBare(args[0]) || rest == [] then rest
      else rest[1..]
  }

  /** What goes with one argument: one that begins with the flag and has a "=" goes alone, one without takes along what
      is left behind it, and any other stays. */
  lemma RemovedWith(arg: string, args: seq<string>)
    ensures
      var rest := RemovePorts(args);
      RemovePorts([arg] + args) ==
        if !("--port" <= arg) then [arg] + rest
        else if '=' in arg || rest == [] then rest
        else rest[1..]
  {
    assert ([arg] + args)[1..] == args;
  }

  lemma RemoveStep(args: seq<string>, i: nat)
    requires i < |args|
    ensures
      var rest := RemovePorts(args[i + 1..]);
      RemovePorts(args[i..]) ==
        if !IsPort(args[i]) then [args[i]] + rest else if !IsBare(args[i]) || rest == [] then rest else rest[1..]
  {
    assert args[i..][0] == args[i] && args[i..][1..] == args[i + 1..];
  }

  lemma {:induction false} NoPortRemains(args: seq<string>)
    ensures forall i :: 0 <= i < |RemovePorts(args)| ==> !IsPort(RemovePorts(args)[i])
  {
    if args != [] {
      NoPortRemains(args[1..]);
    }
  }

  /** `s` can be obtained from `t` by leaving elements out. */
  ghost predicate IsSubsequence<T>(s: seq<T>, t: seq<T>) {
    s == [] || (t != [] && ((s[0] == t[0] && IsSubsequence(s[1..], t[1..])) || IsSubsequence(s, t[1..])))
  }

  lemma {:induction false} DropHead<T>(s: seq<T>, t: seq<T>)
    requires s != [] && IsSubsequence(s, t)
    ensures IsSubsequence(s[1..], t)
    decreases |t|
  {
    if s[0] == t[0] && IsSubsequence(s[1..], t[1..]) {
    } else {
      DropHead(s, t[1..]);
    }
  }

  lemma {:induction false} SurvivorsInOrder(args: seq<string>)
    ensures IsSubsequence(RemovePorts(args), args)
  {
    if args != [] {
      var rest := RemovePorts(args[1..]);
      SurvivorsInOrder(args[1..]);
      if IsBare(args[0]) && rest != [] {
        DropHead(rest, args[1..]);
      } else if !IsPort(args[0]) {
        assert ([args[0]] + rest)[1..] == rest;
      }
    }
  }

  /** The flag itself, alone or with its value; the code takes any argument that begins with it for one. */
  predicate IsPortFlag(arg: string) {
    arg == "--port" || StartsWith(arg, "--port=")
  }

  /** What the reader of the port accepts as the value of the bare flag before it. */
  predicate IsValue(arg: string) {
    arg != "" && !StartsWith(arg, "--")
  }

  /** The arguments that are neither port flags nor the value of the bare flag before them. */
  function Others(args: seq<string>): seq<string> {
    if args == [] then []
    else if !IsPortFlag(args[0]) then [args[0]] + Others(args[1..])
    else if IsBare(args[0]) && |args| > 1 && IsValue(args[1]) then Others(args[2..])
    else Others(args[1..])
  }

  /** A bare flag without a value stands at the end, or has only port flags and their values behind it. */
  ghost predicate BareFlagsLast(args: seq<string>) {
    forall i :: 0 <= i < |args| - 1 && IsBare(args[i]) && !IsValue(args[i + 1]) ==> Others(args[i + 1..]) == []
  }

  /** No other flag begins like the port flag. */
  ghost predicate NoLookAlikes(args: seq<string>) {
    forall i :: 0 <= i < |args| && IsPort(args[i]) ==> IsPortFlag(args[i])
  }

  lemma PortIsNoValue(arg: string)
    ensures IsPort(arg) ==> !IsValue(arg)
    ensures IsPortFlag(arg) ==> IsPort(arg)
  {
    if IsPort(arg) {
      assert arg[..6][..2] == arg[..2] && "--port"[..2] == "--";
    }
    if StartsWith(arg, "--port=") {
      assert arg[..7][..6] == arg[..6] && "--port="[..6] == "--port";
    }
  }

  lemma {:induction false} LookAlikeIsOther(args: seq<string>, i: nat)
    requires i < |args| && IsPort(args[i]) && !IsPortFlag(args[i])
    ensures args[i] in Others(args)
  {
    PortIsNoValue(args[i]);
    if i > 0 {
      if IsPortFlag(args[0]) && IsBare(args[0]) && IsValue(args[1]) {
        assert args[2..][i - 2] == args[i];
        LookAlikeIsOther(args[2..], i - 2);
      } else {
        assert args[1..][i - 1] == args[i];
        LookAlikeIsOther(args[1..], i - 1);
      }
    }
  }

  lemma {:induction false} RemovesEnough(args: seq<string>)
    requires NoLookAlikes(args)
    ensures |RemovePorts(args)| <= |Others(args)|
  {
    if args != [] {
      RemovesEnough(args[1..]);
      PortIsNoValue(args[0]);
      if IsBare(args[0]) && |args| > 1 && IsValue(args[1]) {
        PortIsNoValue(args[1]);
        assert args[1..][1..] == args[2..];
        RemovesEnough(args[2..]);
      }
    }
  }

  /** Behind a point where nothing but port flags remains, nothing but port flags remains anywhere. */
  lemma {:induction false} OthersGone(args: seq<string>, i: nat)
    requires i < |args| && Others(args) == [] && !IsValue(args[i])
    ensures Others(args[i..]) == []
    decreases |args|
  {
    if i == 0 {
      assert args[0..] == args;
    } else if IsPortFlag(args[0]) && IsBare(args[0]) && |args| > 1 && IsValue(args[1]) {
      OthersGone(args[2..], i - 2);
      assert args[2..][i - 2..] == args[i..];
    } else {
      OthersGone(args[1..], i - 1);
      assert args[1..][i - 1..] == args[i..];
    }
  }

  /**
    Removal takes exactly the port flags and their values if and only if no other flag begins like the port flag and
    every bare flag has its value behind it, or nothing but port flags and their values. Otherwise it takes an argument
    that has nothing to do with the port.
   */
  lemma {:induction false} RemovalIsExactly(args: seq<string>)
    ensures RemovePorts(args) == Others(args) <==> NoLookAlikes(args) && BareFlagsLast(args)
  {
    hide RemovePorts, Others, BareFlagsLast;
    if NoLookAlikes(args) {
      RemovesExactly(args);
    } else {
      var i :| 0 <= i < |args| && IsPort(args[i]) && !IsPortFlag(args[i]);
      LookAlikeIsOther(args, i);
      NoPortRemains(args);
    }
  }

  lemma {:induction false} RemovesExactly(args: seq<string>)
    requires NoLookAlikes(args)
    ensures RemovePorts(args) == Others(args) <==> BareFlagsLast(args)
  {
    hide IsPort, IsPortFlag, IsValue, BareFlagsLast;
    if args == [] {
      assert BareFlagsLast(args) by { NoBareFlags(args); }
    } else {
      var rest := args[1..];
      PortIsNoValue(args[0]);
      RemovesExactly(rest);
      RemovesEnough(rest);
      if !IsBare(args[0]) || |args| == 1 || IsValue(args[1]) {
        BareFlagsShift(args);
        if !IsPort(args[0]) {
          assert RemovePorts(args)[1..] == RemovePorts(rest) && Others(args)[1..] == Others(rest);
        } else if IsBare(args[0]) && |args| > 1 {
          ValueGoes(args);
        }
      } else if Others(rest) == [] {
        NothingElse(args);
      } else {
        assert !BareFlagsLast(args) by { BareFlagFirst(args); }
      }
    }
  }

  lemma NoBareFlags(args: seq<string>)
    requires args == []
    ensures BareFlagsLast(args)
  {
  }

  lemma BareFlagFirst(args: seq<string>)
    requires |args| > 1 && IsBare(args[0]) && !IsValue(args[1]) && Others(args[1..]) != []
    ensures !BareFlagsLast(args)
  {
    hide Others;
    assert args[0 + 1..] == args[1..];
  }

  /** A bare flag and its value go, and nothing else does. */
  lemma ValueGoes(args: seq<string>)
    requires |args| > 1 && IsPortFlag(args[0]) && IsBare(args[0]) && IsValue(args[1])
    ensures RemovePorts(args) == RemovePorts(args[2..]) && Others(args) == Others(args[2..])
    ensures RemovePorts(args[1..]) == [args[1]] + RemovePorts(args[2..])
    ensures Others(args[1..]) == [args[1]] + Others(args[2..])
    ensures RemovePorts(args[1..]) == Others(args[1..]) <==> RemovePorts(args) == Others(args)
  {
    PortIsNoValue(args[0]);
    PortIsNoValue(args[1]);
    assert args[1..][1..] == args[2..];
    var f, g := RemovePorts(args[1..]), Others(args[1..]);
    assert f[1..] == RemovePorts(args[2..]) && g[1..] == Others(args[2..]);
  }

  lemma BareFlagsShift(args: seq<string>)
    requires args != [] && (!IsBare(args[0]) || |args| == 1 || IsValue(args[1]))
    ensures BareFlagsLast(args) <==> BareFlagsLast(args[1..])
  {
    hide Others, IsPort, IsBare, IsValue;
    var rest := args[1..];
    if BareFlagsLast(args) {
      forall i | 0 <= i < |rest| - 1 && IsBare(rest[i]) && !IsValue(rest[i + 1])
        ensures Others(rest[i + 1..]) == []
      {
        assert rest[i + 1..] == args[i + 2..] && rest[i] == args[i + 1] && rest[i + 1] == args[i + 2];
        assert IsBare(args[i + 1]) && !IsValue(args[(i + 1) + 1]);
      }
    }
    if BareFlagsLast(rest) {
      forall i | 0 <= i < |args| - 1 && IsBare(args[i]) && !IsValue(args[i + 1])
        ensures Others(args[i + 1..]) == []
      {
        assert i > 0;
        assert rest[i..] == args[i + 1..] && rest[i - 1] == args[i] && rest[i] == args[i + 1];
        assert IsBare(rest[i - 1]) && !IsValue(rest[(i - 1) + 1]);
      }
    }
  }

  lemma {:induction false} NothingElse(args: seq<string>)
    requires args != [] && Others(args[1..]) == []
    ensures BareFlagsLast(args)
  {
    hide Others, IsBare, IsValue;
    forall i | 0 <= i < |args| - 1 && IsBare(args[i]) && !IsValue(args[i + 1])
      ensures Others(args[i + 1..]) == []
    {
      OthersGone(args[1..], i);
      assert args[1..][i..] == args[i + 1..];
    }
  }

  /** The list loses what is listed, although the launcher accepts it and reads port 1 from it. */
  ghost predicate Loses(args: seq<string>, lost: seq<string>, other: string -> Option<int>) {
    ExtractPortFromCli(args, other) == Some(1) && Others(args) == lost && RemovePorts(args) == []
  }

  /** Three inputs that lose an argument. A bare flag takes "x" along once the flag between them is gone; it takes along
      a flag that stands in the place of its value; and a flag that begins like the port flag is taken for one. */
  lemma {:induction false} ArgumentLost(other: string -> Option<int>)
    ensures Loses(["--port=1", "--port", "--port=2", "x"], ["x"], other)
    ensures Loses(["--port=1", "--port", "--allow-insecure"], ["--allow-insecure"], other)
    ensures Loses(["--port=1", "--port-range=2"], ["--port-range=2"], other)
  {
    hide IsPort, IsPortFlag, IsValue, ExtractPortFromCli;
    Flags();
    DoubledFlagLoses("--port=1", "--port", "--port=2", "x");
    FlagAsValueLoses("--port=1", "--port", "--allow-insecure");
    LookAlikeLoses("--port=1", "--port-range=2");
    PortOne(["--port=1", "--port", "--port=2", "x"], other);
    PortOne(["--port=1", "--port", "--allow-insecure"], other);
    PortOne(["--port=1", "--port-range=2"], other);
  }

  predicate IsFull(arg: string) {
    IsPortFlag(arg) && IsPort(arg) && !IsBare(arg)
  }

  lemma Flags()
    ensures IsFull("--port=1") && IsFull("--port=2") && IsPortFlag("--port") && IsBare("--port")
    ensures !IsPort("x") && !IsPort("--allow-insecure") && !IsValue("--allow-insecure")
    ensures IsPort("--port-range=2") && !IsPortFlag("--port-range=2") && !IsBare("--port-range=2")
  {
    assert "--port=1"[..7] == "--port=" && "--port=2"[..7] == "--port=";
    assert "--port=1"[..6] == "--port" && "--port=2"[..6] == "--port" && "--port"[..6] == "--port";
    assert "--port=1"[6] == '=' && "--port=2"[6] == '=' && '=' !in "--port";
    assert "--allow-insecure"[..6][2] == 'a' && "--port"[2] == 'p' && "--allow-insecure"[..2] == "--";
    assert "--port-range=2"[..6] == "--port" && "--port-range=2"[..7][6] == '-' && "--port="[6] == '=';
    assert "--port-range=2"[12] == '=';
  }

  lemma DoubledFlagLoses(first: string, bare: string, second: string, x: string)
    requires IsFull(first) && IsPortFlag(bare) && IsBare(bare) && IsFull(second) && !IsPort(x)
    ensures RemovePorts([first, bare, second, x]) == [] && Others([first, bare, second, x]) == [x]
  {
    hide IsPort, IsPortFlag, IsValue;
    var args := [first, bare, second, x];
    PortIsNoValue(second);
    PortIsNoValue(x);
    assert args[1..] == [bare, second, x] && [bare, second, x][1..] == [second, x];
    assert [second, x][1..] == [x] && [x][1..] == [];
    assert RemovePorts([x]) == [x] && Others([x]) == [x];
    assert RemovePorts([second, x]) == [x] && Others([second, x]) == [x];
    assert RemovePorts([bare, second, x]) == [] && Others([bare, second, x]) == [x];
  }

  lemma FlagAsValueLoses(first: string, bare: string, flag: string)
    requires IsFull(first) && IsPortFlag(bare) && IsBare(bare) && !IsPort(flag) && !IsValue(flag)
    ensures RemovePorts([first, bare, flag]) == [] && Others([first, bare, flag]) == [flag]
  {
    hide IsPort, IsPortFlag, IsValue;
    var args := [first, bare, flag];
    PortIsNoValue(flag);
    assert args[1..] == [bare, flag] && [bare, flag][1..] == [flag] && [flag][1..] == [];
    assert RemovePorts([flag]) == [flag] && Others([flag]) == [flag];
    assert RemovePorts([bare, flag]) == [] && Others([bare, flag]) == [flag];
  }

  lemma LookAlikeLoses(first: string, alike: string)
    requires IsFull(first) && IsPort(alike) && !IsPortFlag(alike) && !IsBare(alike)
    ensures RemovePorts([first, alike]) == [] && Others([first, alike]) == [alike]
  {
    hide IsPort, IsPortFlag, IsValue;
    assert [first, alike][1..] == [alike] && [alike][1..] == [];
    assert RemovePorts([]) == [] && Others([]) == [];
    assert RemovePorts([alike]) == [];
    assert Others([alike]) == [alike] + Others([]);
  }

  lemma PortOne(args: seq<string>, other: string -> Option<int>)
    requires args != [] && args[0] == "--port=1"
    ensures ExtractPortFromCli(args, other) == Some(1)
  {
    assert args[0][..6] == "--port" && args[0][6] == '=';
    FirstAt(args[0], '=', 0, 6);
    FirstAt(args[0], '=', 7, 8);
    assert AfterEquals(args[0]) == "1" && "1"[..0] == "";
    assert ParseDigits("1") == 1;
  }

  // ----- The whole rewrite

  const REQUIRED_FLAGS := ["--log-timestamp", "--use-plugins=inspector", "--allow-cors"]

  function PortFlag(port: nat): string {
    "--port=" + Decimal(port)
  }

  function WithFlags(args: seq<string>, flags: seq<string>): seq<string>
    decreases |flags|
  {
    if flags == [] then args
    else WithFlags(if flags[0] in args then args else args + [flags[0]], flags[1..])
  }

  function Rewritten(args: seq<string>, port: nat): seq<string> {
    WithFlags([PortFlag(port)] + RemovePorts(args), REQUIRED_FLAGS)
  }

  lemma CutAt(items: seq<string>, was: seq<string>, i: nat, rest: seq<string>)
    requires i < |was| && items == was[..i + 1] + rest
    ensures i < |items| && items[i] == was[i] && items[..i] == was[..i] && items[i + 1..] == rest
    ensures items == was[..i] + ([was[i]] + rest)
    ensures if i + 2 <= |items| then rest != [] && items[i + 2..] == rest[1..] else rest == []
  {
  }

  /** The list after the argument at `i` has been looked at. */
  function Stripped(items: seq<string>, i: nat): seq<string>
    requires i < |items|
  {
    if !IsPort(items[i]) then items
    else if !IsBare(items[i]) then items[..i] + items[i + 1..]
    else items[..i] + if i + 2 <= |items| then items[i + 2..] else []
  }

  /** The arguments of `was` from `i` on have been dealt with, those before it not yet. */
  ghost predicate Looked(was: seq<string>, i: nat, items: seq<string>) {
    i <= |was| && items == was[..i] + RemovePorts(was[i..])
  }

  lemma LookedAtNone(was: seq<string>)
    ensures Looked(was, |was|, was)
  {
    assert was[..|was|] == was && was[|was|..] == [];
  }

  lemma LookedAtAll(was: seq<string>, items: seq<string>)
    requires Looked(was, 0, items)
    ensures items == RemovePorts(was)
  {
    assert was[0..] == was;
  }

  lemma StripKeeps(was: seq<string>, i: nat, items: seq<string>)
    requires i < |was| && Looked(was, i + 1, items)
    ensures i < |items| && Looked(was, i, Stripped(items, i))
  {
    hide RemovePorts, IsPort, IsBare;
    RemoveStep(was, i);
    CutAt(items, was, i, RemovePorts(was[i + 1..]));
  }

  class Args {
    var items: seq<string>

    constructor (items: seq<string>)
      ensures this.items == items
    {
      this.items := items;
    }

    /** Removes `count` items from position `i` on, or as many as there are. */
    method Splice(i: nat, count: nat)
      requires i <= |items|
      modifies this
      ensures items == old(items)[..i] + if i + count <= |old(items)| then old(items)[i + count..] else []
    {
      items := items[..i] + if i + count <= |items| then items[i + count..] else [];
    }

    /** One round of the loop. */
    method Strip(i: nat)
      requires i < |items|
      modifies this
      ensures items == Stripped(old(items), i)
    {
      if StartsWith(items[i], "--port") {
        if '=' in items[i] {
          Splice(i, 1);
        } else {
          Splice(i, 2);
        }
      }
    }

    method RemovePort()
      modifies this
      ensures items == RemovePorts(old(items))
    {
      hide RemovePorts, Stripped, Looked;
      ghost var was := items;
      LookedAtNone(was);
      var i := |items| - 1;
      while i >= 0
        invariant -1 <= i < |was| && Looked(was, i + 1, items)
      {
        StripKeeps(was, i, items);
        Strip(i);
        i := i - 1;
      }
      LookedAtAll(was, items);
    }

    method AddFlags(flags: seq<string>)
      modifies this
      ensures items == WithFlags(old(items), flags)
    {
      var i := 0;
      while i < |flags|
        invariant i <= |flags| && WithFlags(items, flags[i..]) == WithFlags(old(items), flags)
      {
        assert flags[i..][1..] == flags[i + 1..];
        if flags[i] !in items {
          items := items + [flags[i]];
        }
        i := i + 1;
      }
    }

    /** The start of `run`: nothing changes when reading the port throws. */
    method Rewrite(other: string -> Option<int>) returns (port: Option<nat>)
      modifies this
      ensures port == ExtractPortFromCli(old(items), other)
      ensures items == if port.Some? then Rewritten(old(items), port.value) else old(items)
    {
      port := ExtractPortFromCli(items, other);
      if port.Some? {
        RemovePort();
        items := [PortFlag(port.value)] + items;
        AddFlags(REQUIRED_FLAGS);
      }
    }
  }

  // ----- What it is for

  lemma {:induction false} FlagsAdded(args: seq<string>, flags: seq<string>)
    ensures
      var r := WithFlags(args, flags);
      && args <= r
      && (forall f :: f in flags ==> f in r)
      && (forall i :: |args| <= i < |r| ==> r[i] in flags && r[i] !in args)
    decreases |flags|
  {
    if flags != [] {
      var next := if flags[0] in args then args else args + [flags[0]];
      FlagsAdded(next, flags[1..]);
      assert flags[0] in next;
    }
  }

  lemma {:induction false} FlagsKept(args: seq<string>, flags: seq<string>)
    requires forall f :: f in flags ==> f in args
    ensures WithFlags(args, flags) == args
    decreases |flags|
  {
    if flags != [] {
      assert flags[0] in flags;
      FlagsKept(args, flags[1..]);
    }
  }

  lemma FlagsAreNoPorts()
    ensures forall f :: f in REQUIRED_FLAGS ==> !IsPort(f)
  {
    forall f | f in REQUIRED_FLAGS
      ensures !IsPort(f)
    {
      ThirdLetter(f);
      assert "--log-timestamp"[2] == 'l' && "--use-plugins=inspector"[2] == 'u' && "--allow-cors"[2] == 'a';
    }
  }

  lemma ThirdLetter(f: string)
    ensures IsPort(f) ==> |f| > 2 && f[2] == 'p'
  {
    if IsPort(f) {
      assert f[..6][2] == "--port"[2];
    }
  }

  /** The port flag reads back as its port. */
  lemma PortFlagRoundTrip(port: nat, other: string -> Option<int>)
    ensures IsPort(PortFlag(port)) && '=' in PortFlag(port)
    ensures ToInteger(AfterEquals(PortFlag(port)), other) == Some(port)
  {
    var d, flag := Decimal(port), PortFlag(port);
    assert flag[..6] == "--port" && flag[6] == '=' && flag[7..] == d;
    assert forall i :: 7 <= i < |flag| ==> flag[i] == d[i - 7];
    assert forall i :: 0 <= i < 6 ==> flag[i] == "--port"[i];
    FirstAt(flag, '=', 0, 6);
    FirstAt(flag, '=', 7, |flag|);
    assert flag[7..|flag|] == d && AfterEquals(flag) == d;
    ParseOfDecimal(port);
  }

  /** The rewritten list: one port flag in front, the arguments that survived in order, then the missing flags. */
  lemma RewrittenShape(args: seq<string>, port: nat)
    ensures
      var r := Rewritten(args, port);
      && [PortFlag(port)] + RemovePorts(args) <= r
      && (forall i :: 0 <= i < |r| ==> (IsPort(r[i]) <==> i == 0))
      && (forall f :: f in REQUIRED_FLAGS ==> f in r)
  {
    hide WithFlags, RemovePorts, IsPort, PortFlag;
    var head := [PortFlag(port)] + RemovePorts(args);
    var r := Rewritten(args, port);
    FlagsAdded(head, REQUIRED_FLAGS);
    FlagsAreNoPorts();
    NoPortRemains(args);
    PortFlagRoundTrip(port, _ => None);
    forall i | 0 <= i < |r|
      ensures IsPort(r[i]) <==> i == 0
    {
      if i < |head| {
        assert r[i] == head[i];
      }
    }
  }

  function IfMissing(flag: string, args: seq<string>): seq<string> {
    if flag in args then [] else [flag]
  }

  /** The whole list: the port, what survived, and the flags that are missing, in this order. */
  lemma {:induction false} RewrittenExactly(args: seq<string>, port: nat)
    ensures
      var kept := RemovePorts(args);
      Rewritten(args, port) ==
      ["--port=" + Decimal(port)] + kept + IfMissing("--log-timestamp", kept)
      + IfMissing("--use-plugins=inspector", kept) + IfMissing("--allow-cors", kept)
  {
    hide RemovePorts;
    var kept := RemovePorts(args);
    var a, b, c := "--log-timestamp", "--use-plugins=inspector", "--allow-cors";
    var head := ["--port=" + Decimal(port)] + kept;
    assert a[2] == 'l' && b[2] == 'u' && c[2] == 'a' && ("--port=" + Decimal(port))[2] == 'p';
    assert (a in head <==> a in kept) && (b in head <==> b in kept) && (c in head <==> c in kept);
    var h1 := head + IfMissing(a, kept);
    var h2 := h1 + IfMissing(b, kept);
    assert [a, b, c][1..] == [b, c] && [b, c][1..] == [c];
    assert WithFlags(head, [a, b, c]) == WithFlags(h1, [b, c]);
    assert b in h1 <==> b in kept;
    assert WithFlags(h1, [b, c]) == WithFlags(h2, [c]);
    assert c in h2 <==> c in kept;
    assert WithFlags(h2, [c]) == WithFlags(h2 + IfMissing(c, kept), []);
  }

  /**
    For every argument list on which reading the port does not throw: the rewritten list starts with the only port
    argument, which reads back as the same port; every required flag is there; what was neither is kept in order;
    and rewriting again changes nothing.
   */
  lemma {:induction false} RewriteIsStable(args: seq<string>, other: string -> Option<int>)
    requires ExtractPortFromCli(args, other).Some?
    ensures
      var port := ExtractPortFromCli(args, other).value;
      var r := Rewritten(args, port);
      && r != [] && r[0] == PortFlag(port)
      && (forall i :: 0 <= i < |r| ==> (IsPort(r[i]) <==> i == 0))
      && ExtractPortFromCli(r, other) == Some(port)
      && (forall f :: f in REQUIRED_FLAGS ==> f in r)
      && [PortFlag(port)] + RemovePorts(args) <= r
      && Rewritten(r, port) == r
  {
    hide WithFlags, RemovePorts, IsPort, PortFlag, ToInteger, AfterEquals, ExtractPort;
    var port := ExtractPortFromCli(args, other).value;
    var r := Rewritten(args, port);
    PortInRange(args, other);
    RewrittenShape(args, port);
    ReadsBack(r, port, other);
    RewritesToItself(r, port);
  }

  lemma ReadsBack(args: seq<string>, port: nat, other: string -> Option<int>)
    requires args != [] && args[0] == PortFlag(port) && 1 <= port <= 65535
    ensures ExtractPortFromCli(args, other) == Some(port)
  {
    hide PortFlag, ToInteger, AfterEquals, IsPort;
    PortFlagRoundTrip(port, other);
    assert FirstPort(args) == 0;
  }

  lemma RewritesToItself(args: seq<string>, port: nat)
    requires args != [] && args[0] == PortFlag(port)
    requires forall i :: 0 <= i < |args| ==> (IsPort(args[i]) <==> i == 0)
    requires forall f :: f in REQUIRED_FLAGS ==> f in args
    ensures Rewritten(args, port) == args
  {
    hide PortFlag, WithFlags, IsPort, RemovePorts;
    OnlyFirstRemoved(args, port);
    assert [args[0]] + args[1..] == args;
    FlagsKept(args, REQUIRED_FLAGS);
  }

  lemma OnlyFirstRemoved(args: seq<string>, port: nat)
    requires args != [] && args[0] == PortFlag(port)
    requires forall i :: 0 <= i < |args| ==> (IsPort(args[i]) <==> i == 0)
    ensures RemovePorts(args) == args[1..]
  {
    hide PortFlag, IsPort;
    PortFlagRoundTrip(port, _ => None);
    NothingToRemove(args[1..]);
  }

  lemma {:induction false} NothingToRemove(args: seq<string>)
    requires forall i :: 0 <= i < |args| ==> !IsPort(args[i])
    ensures RemovePorts(args) == args
  {
    if args != [] {
      NothingToRemove(args[1..]);
    }
  }
}
