/** Redaction of listed keys in a JSON tree, also inside JSON that is stored as text. */
module Redaction {
  import opened Wrappers
  import opened Text

  /** A parsed JSON value. A text that is itself JSON carries the value it parses to. */
  datatype Json =
    | Null
    | Bool(b: bool)
    | Num(n: real)
    | Str(text: string, holds: Option<Json>)
    | Arr(items: seq<Json>)
    | Obj(props: seq<Prop>)

  datatype Prop = Prop(key: string, value: Json)

  const REDACTED := Str("[REDACTED]", None)

  /** The listed keys, the lower-casing of keys, and the writer of embedded trees. */
  datatype Setting = Setting(keys: set<string>, lower: string -> string, write: Json -> string)

  predicate IsListed(c: Setting, key: string) {
    c.lower(key) in c.keys
  }

  /** Enumerating a text visits its character positions; assigning to one throws. */
  predicate HitsText(c: Setting, text: string) {
    exists i :: 0 <= i < |text| && IsListed(c, Decimal(i))
  }

  /** The rewrite of a visited value, or None where the source throws. */
  function Redact(c: Setting, v: Json): Option<Json>
    decreases v, 1
  {
    match v
    case Arr(items) =>
      var r := RedactItems(c, v, |items|);
      if r.None? then None else Some(Arr(r.value))
    case Obj(props) =>
      var r := RedactProps(c, v, |props|);
      if r.None? then None else Some(Obj(r.value))
    case Str(text, _) => if HitsText(c, text) then None else Some(v)
    case _ => Some(v)
  }

  /** The first `n` items. */
  function RedactItems(c: Setting, v: Json, n: nat): Option<seq<Json>>
    requires v.Arr? && n <= |v.items|
    decreases v, 0, n
  {
    if n == 0 then Some([])
    else
      var before := RedactItems(c, v, n - 1);
      if before.None? then None
      else
        var last := Redact(c, v.items[n - 1]);
        if last.None? then None else Some(before.value + [last.value])
  }

  function RedactProps(c: Setting, v: Json, n: nat): Option<seq<Prop>>
    requires v.Obj? && n <= |v.props|
    decreases v, 0, n
  {
    if n == 0 then Some([])
    else
      var before := RedactProps(c, v, n - 1);
      if before.None? then None
      else
        var last := RedactProp(c, v.props[n - 1]);
        if last.None? then None else Some(before.value + [Prop(v.props[n - 1].key, last.value)])
  }

  function RedactProp(c: Setting, p: Prop): Option<Json>
    decreases p, 3
  {
    if IsListed(c, p.key) then Some(REDACTED) else RedactValue(c, p.value)
  }

  predicate IsTree(v: Json) {
    v.Arr? || v.Obj?
  }

  /** The value of an unlisted key: objects and arrays are visited, and so is one that a text holds, unless that
      throws. */
  function RedactValue(c: Setting, v: Json): Option<Json>
    decreases v, 2
  {
    match v
    case Arr(_) => Redact(c, v)
    case Obj(_) => Redact(c, v)
    case Str(text, Some(tree)) =>
      if !IsTree(tree) then Some(v)
      else
        var r := Redact(c, tree);
        Some(if r.Some? then Str(c.write(r.value), r) else v)
    case _ => Some(v)
  }

  // ----- One level

  lemma {:induction false} ItemsRedacted(c: Setting, v: Json, n: nat)
    requires v.Arr? && n <= |v.items|
    ensures
      var r := RedactItems(c, v, n);
      && (r.None? <==> exists i :: 0 <= i < n && Redact(c, v.items[i]).None?)
      && (r.Some? ==> |r.value| == n && forall i :: 0 <= i < n ==> Redact(c, v.items[i]) == Some(r.value[i]))
    decreases n
  {
    if n > 0 {
      ItemsRedacted(c, v, n - 1);
    }
  }

  lemma {:induction false} PropsRedacted(c: Setting, v: Json, n: nat)
    requires v.Obj? && n <= |v.props|
    ensures
      var r := RedactProps(c, v, n);
      && (r.None? <==> exists i :: 0 <= i < n && RedactProp(c, v.props[i]).None?)
      && (r.Some? ==> |r.value| == n && forall i :: 0 <= i < n ==>
            r.value[i].key == v.props[i].key && RedactProp(c, v.props[i]) == Some(r.value[i].value))
    decreases n
  {
    if n > 0 {
      PropsRedacted(c, v, n - 1);
    }
  }

  // ----- Paths

  /** A way down: to an item of an array, to a property of an object, or from a text to the value it parses to. */
  datatype Hop = Item(i: nat) | Member(i: nat) | Inside

  function Follow(v: Json, hop: Hop): Option<Json> {
    match hop
    case Item(i) => if v.Arr? && i < |v.items| then Some(v.items[i]) else None
    case Member(i) => if v.Obj? && i < |v.props| then Some(v.props[i].value) else None
    case Inside => if v.Str? then v.holds else None
  }

  function At(v: Json, path: seq<Hop>): Option<Json> {
    if path == [] then Some(v)
    else
      var w := Follow(v, path[0]);
      if w.None? then None else At(w.value, path[1..])
  }

  predicate IsListedHop(c: Setting, v: Json, hop: Hop) {
    hop.Member? && v.Obj? && hop.i < |v.props| && c.lower(v.props[hop.i].key) in c.keys
  }

  /** The path goes through no listed key. */
  predicate AvoidsListed(c: Setting, v: Json, path: seq<Hop>) {
    path == [] ||
    (!IsListedHop(c, v, path[0]) &&
     (Follow(v, path[0]).Some? ==> AvoidsListed(c, Follow(v, path[0]).value, path[1..])))
  }

  // ----- When it throws

  /** A text stands at the end of the path, as the visited value itself or as the item of an array, at whose positions
      a listed key stands; nothing on the way is listed or embedded in a text. */
  predicate ThrowsAt(c: Setting, v: Json, path: seq<Hop>) {
    if path == [] then v.Str? && exists i :: 0 <= i < |v.text| && c.lower(Decimal(i)) in c.keys
    else
      var w := Follow(v, path[0]);
      && !path[0].Inside? && !IsListedHop(c, v, path[0]) && w.Some?
      && (path[0].Member? ==> !w.value.Str?) && ThrowsAt(c, w.value, path[1..])
  }

  lemma {:induction false} ItemThrows(c: Setting, v: Json, i: nat, path: seq<Hop>)
    requires v.Arr? && i < |v.items| && ThrowsAt(c, v.items[i], path)
    ensures ThrowsAt(c, v, [Item(i)] + path)
  {
    assert ([Item(i)] + path)[1..] == path;
  }

  lemma {:induction false} MemberThrows(c: Setting, v: Json, i: nat, path: seq<Hop>)
    requires v.Obj? && i < |v.props| && !IsListed(c, v.props[i].key) && !v.props[i].value.Str?
    requires ThrowsAt(c, v.props[i].value, path)
    ensures ThrowsAt(c, v, [Member(i)] + path)
  {
    assert ([Member(i)] + path)[1..] == path;
  }

  lemma PropThrows(c: Setting, p: Prop)
    requires RedactProp(c, p).None?
    ensures !IsListed(c, p.key) && !p.value.Str? && Redact(c, p.value).None?
  {
  }

  /** Where the rewrite throws there is such a path. */
  lemma {:induction false} ThrowingPath(c: Setting, v: Json) returns (path: seq<Hop>)
    requires Redact(c, v).None?
    ensures ThrowsAt(c, v, path)
    decreases v
  {
    match v
    case Arr(items) =>
      ItemsRedacted(c, v, |items|);
      var i :| 0 <= i < |items| && Redact(c, items[i]).None?;
      path := ThrowingPath(c, items[i]);
      ItemThrows(c, v, i, path);
      path := [Item(i)] + path;
    case Obj(props) =>
      PropsRedacted(c, v, |props|);
      var i :| 0 <= i < |props| && RedactProp(c, props[i]).None?;
      PropThrows(c, props[i]);
      path := ThrowingPath(c, props[i].value);
      MemberThrows(c, v, i, path);
      path := [Member(i)] + path;
    case Str(text, _) => path := [];
    case _ => path := [];
  }

  lemma {:induction false} PathThrows(c: Setting, v: Json, path: seq<Hop>)
    requires ThrowsAt(c, v, path)
    ensures Redact(c, v).None?
    decreases |path|
  {
    if path != [] {
      var w := Follow(v, path[0]).value;
      PathThrows(c, w, path[1..]);
      if v.Arr? {
        ItemsRedacted(c, v, |v.items|);
      } else {
        PropsRedacted(c, v, |v.props|);
        assert w.Arr? || w.Obj?;
        assert RedactProp(c, v.props[path[0].i]).None?;
      }
    }
  }

  /** For every tree: the rewrite throws on it exactly when some path through no listed key and no embedded tree leads
      to an array item (or is itself) a text with a listed position. */
  lemma {:induction false} ThrowsExactly(c: Setting, v: Json)
    ensures Redact(c, v).None? <==> exists path :: ThrowsAt(c, v, path)
  {
    hide Redact, ThrowsAt;
    if Redact(c, v).None? {
      var path := ThrowingPath(c, v);
      assert ThrowsAt(c, v, path);
    } else if path :| ThrowsAt(c, v, path) {
      PathThrows(c, v, path);
    }
  }

  /** No listed key is a decimal number. */
  ghost predicate NoIndexKeys(c: Setting) {
    forall i: nat :: c.lower(Decimal(i)) !in c.keys
  }

  lemma {:induction false} NoPathThrows(c: Setting, v: Json, path: seq<Hop>)
    requires NoIndexKeys(c)
    ensures !ThrowsAt(c, v, path)
    decreases |path|
  {
    if path != [] && Follow(v, path[0]).Some? {
      NoPathThrows(c, Follow(v, path[0]).value, path[1..]);
    }
  }

  lemma {:induction false} NeverThrows(c: Setting, v: Json)
    requires NoIndexKeys(c)
    ensures Redact(c, v).Some?
  {
    hide Redact, ThrowsAt;
    ThrowsExactly(c, v);
    forall path
      ensures !ThrowsAt(c, v, path)
    {
      NoPathThrows(c, v, path);
    }
  }

  /** A listed position of a text makes an array with that text throw, and an object with such an array. */
  lemma {:induction false} TextInArrayThrows(c: Setting, text: string, i: nat, key: string)
    requires i < |text| && c.lower(Decimal(i)) in c.keys
    ensures Redact(c, Arr([Str(text, None)])).None?
    ensures c.lower(key) !in c.keys ==> Redact(c, Obj([Prop(key, Arr([Str(text, None)]))])).None?
  {
    var items := Arr([Str(text, None)]);
    assert ThrowsAt(c, Str(text, None), []);
    ItemThrows(c, items, 0, []);
    PathThrows(c, items, [Item(0)] + []);
    if !IsListed(c, key) {
      var outer := Obj([Prop(key, items)]);
      MemberThrows(c, outer, 0, [Item(0)] + []);
      PathThrows(c, outer, [Member(0)] + ([Item(0)] + []));
    }
  }

  /** The rewrite throws on no object or array exactly when no listed key is a decimal number. */
  lemma {:induction false} ThrowsNeverExactly(c: Setting)
    ensures (forall v: Json :: v.Arr? || v.Obj? ==> Redact(c, v).Some?) <==> NoIndexKeys(c)
  {
    hide Redact;
    if NoIndexKeys(c) {
      forall v: Json
        ensures Redact(c, v).Some?
      {
        NeverThrows(c, v);
      }
    } else {
      var i: nat :| c.lower(Decimal(i)) in c.keys;
      var text := seq(i + 1, _ => 'a');
      TextInArrayThrows(c, text, i, "");
      assert Arr([Str(text, None)]).Arr?;
    }
  }

  // ----- What becomes of the value at the end of a path

  /** What is made of a value: that of a property is treated apart. */
  function Rewritten(c: Setting, v: Json, isProperty: bool): Option<Json> {
    if isProperty then RedactValue(c, v) else Redact(c, v)
  }

  lemma TreeRewritten(c: Setting, v: Json, isProperty: bool)
    requires IsTree(v)
    ensures Rewritten(c, v, isProperty) == Redact(c, v)
  {
  }

  function EndsInProperty(isProperty: bool, path: seq<Hop>): bool {
    if path == [] then isProperty else path[|path| - 1].Member?
  }

  /** The texts the path enters are texts of properties that hold an object or array which can be rewritten. The texts
      of items are never parsed, nor is text inside a parsed text, and inside a tree that throws nothing is
      changed. */
  predicate GoesThrough(c: Setting, v: Json, isProperty: bool, path: seq<Hop>) {
    path == [] ||
    var w := Follow(v, path[0]);
    w.Some? ==>
      && (path[0].Inside? ==> isProperty && (w.value.Arr? || w.value.Obj?) && Redact(c, w.value).Some?)
      && GoesThrough(c, w.value, path[0].Member?, path[1..])
  }

  /** One hop that is not listed: what it leads to in the rewritten value. */
  lemma {:induction false} FollowRewritten(c: Setting, v: Json, isProperty: bool, hop: Hop)
    requires Rewritten(c, v, isProperty).Some? && !IsListedHop(c, v, hop)
    ensures
      var w, r := Follow(v, hop), Follow(Rewritten(c, v, isProperty).value, hop);
      if w.None? then r.None?
      else if hop.Inside? && !(isProperty && IsTree(w.value) && Redact(c, w.value).Some?) then r == w
      else Rewritten(c, w.value, hop.Member?).Some? && r == Rewritten(c, w.value, hop.Member?)
  {
    match v
    case Arr(items) => ItemsRedacted(c, v, |items|);
    case Obj(props) =>
      PropsRedacted(c, v, |props|);
      if hop.Member? && hop.i < |props| {
        assert RedactProp(c, props[hop.i]) == Some(Redact(c, v).value.props[hop.i].value);
      }
    case _ =>
  }

  /**
    Redaction commutes with every path that avoids the listed keys and goes through; on one that does not go through
    the rewritten tree has what the tree had.
   */
  lemma {:induction false} PathsCommute(c: Setting, v: Json, isProperty: bool, path: seq<Hop>)
    requires Rewritten(c, v, isProperty).Some? && AvoidsListed(c, v, path)
    ensures
      var w, r := At(v, path), At(Rewritten(c, v, isProperty).value, path);
      if w.None? || !GoesThrough(c, v, isProperty, path) then r == w
      else
        var end := Rewritten(c, w.value, EndsInProperty(isProperty, path));
        end.Some? && r == end
    decreases |path|
  {
    hide Redact, RedactValue, Rewritten;
    if path != [] {
      var hop, rest := path[0], path[1..];
      var w := Follow(v, hop);
      FollowRewritten(c, v, isProperty, hop);
      assert EndsInProperty(isProperty, path) == EndsInProperty(hop.Member?, rest);
      if w.Some? && !(hop.Inside? && !(isProperty && IsTree(w.value) && Redact(c, w.value).Some?)) {
        PathsCommute(c, w.value, hop.Member?, rest);
      }
    }
  }

  /**
    For every tree on which the rewrite does not throw and every listed key that a path through no other listed key
    leads to, in the tree or inside any text in it: the key stays, and its value becomes the redacted text exactly when
    the path goes through; otherwise it stays what it was.
   */
  lemma {:induction false} ListedKeysAreRedacted(c: Setting, v: Json, path: seq<Hop>, i: nat)
    requires Redact(c, v).Some? && AvoidsListed(c, v, path)
    requires At(v, path).Some? && At(v, path).value.Obj? && i < |At(v, path).value.props|
    requires c.lower(At(v, path).value.props[i].key) in c.keys
    ensures
      var was, r := At(v, path).value.props[i], At(Redact(c, v).value, path);
      && r.Some? && r.value.Obj? && i < |r.value.props|
      && r.value.props[i] ==
         Prop(was.key, if GoesThrough(c, v, false, path) then Str("[REDACTED]", None) else was.value)
  {
    hide AvoidsListed, GoesThrough, At;
    PathsCommute(c, v, false, path);
    var w := At(v, path).value;
    if GoesThrough(c, v, false, path) {
      TreeRewritten(c, w, EndsInProperty(false, path));
      PropsRedacted(c, w, |w.props|);
    }
  }

  /** A text the path enters is that of a property, and holds an object or array. */
  predicate EntersProperties(v: Json, isProperty: bool, path: seq<Hop>) {
    path == [] ||
    var w := Follow(v, path[0]);
    w.Some? ==>
      && (path[0].Inside? ==> isProperty && (w.value.Arr? || w.value.Obj?))
      && EntersProperties(w.value, path[0].Member?, path[1..])
  }

  /** When no listed key is a decimal number, exactly the paths go through that enter no text but those of properties
      with an object or array in them. */
  lemma {:induction false} ThroughExactly(c: Setting, v: Json, isProperty: bool, path: seq<Hop>)
    requires NoIndexKeys(c)
    ensures GoesThrough(c, v, isProperty, path) <==> EntersProperties(v, isProperty, path)
    decreases |path|
  {
    if path != [] && Follow(v, path[0]).Some? {
      NeverThrows(c, Follow(v, path[0]).value);
      ThroughExactly(c, Follow(v, path[0]).value, path[0].Member?, path[1..]);
    }
  }

  /** The same but for what lies below; the text of a property that the path reaches has the object or array it holds
      written anew. */
  ghost predicate SameHere(c: Setting, isReached: bool, w: Json, w': Json) {
    match w
    case Arr(items) => w'.Arr? && |w'.items| == |items|
    case Obj(props) =>
      && w'.Obj? && |w'.props| == |props|
      && forall i :: 0 <= i < |props| ==> w'.props[i].key == props[i].key
    case Str(_, Some(tree)) =>
      var r := Redact(c, tree);
      w' == if isReached && (tree.Arr? || tree.Obj?) && r.Some? then Str(c.write(r.value), r) else w
    case _ => w' == w
  }

  /** Everything that lies behind no listed key is where it was, and what it was. */
  lemma {:induction false} TheRestIsUnchanged(c: Setting, v: Json, path: seq<Hop>)
    requires Redact(c, v).Some? && AvoidsListed(c, v, path)
    ensures At(Redact(c, v).value, path).Some? <==> At(v, path).Some?
    ensures
      var isReached := path != [] && path[|path| - 1].Member? && GoesThrough(c, v, false, path);
      At(v, path).Some? ==> SameHere(c, isReached, At(v, path).value, At(Redact(c, v).value, path).value)
  {
    hide AvoidsListed, GoesThrough, At;
    PathsCommute(c, v, false, path);
    if At(v, path).Some? && GoesThrough(c, v, false, path) {
      var w := At(v, path).value;
      if IsTree(w) {
        TreeRewritten(c, w, EndsInProperty(false, path));
      }
      match w
      case Arr(items) => ItemsRedacted(c, w, |items|);
      case Obj(props) => PropsRedacted(c, w, |props|);
      case _ =>
    }
  }

  /** One input on which listed keys stay: with the keys "0" and "password" listed, a property whose text holds an array
      of a text and an object with a password comes back as it was, and nothing is thrown. */
  lemma {:induction false} ListedKeyLeaks(c: Setting, text: string, secret: Json)
    requires c.keys == {"0", "password"} && c.lower("0") == "0" && c.lower("config") == "config"
    ensures
      var tree := Arr([Str("a", None), Obj([Prop("password", secret)])]);
      var v := Obj([Prop("config", Str(text, Some(tree)))]);
      Redact(c, v) == Some(v)
  {
    var tree := Arr([Str("a", None), Obj([Prop("password", secret)])]);
    var p := Prop("config", Str(text, Some(tree)));
    assert Decimal(0) == "0";
    assert ThrowsAt(c, Str("a", None), []);
    ItemThrows(c, tree, 0, []);
    PathThrows(c, tree, [Item(0)] + []);
    assert "config"[0] == 'c' && "0"[0] == '0' && "password"[0] == 'p';
    assert RedactProp(c, p) == Some(p.value);
    PropsRedacted(c, Obj([p]), 1);
    assert RedactProps(c, Obj([p]), 1).value == [p];
  }

  /** The keys that the launcher lists for a configuration. */
  const CONFIG_KEYS := {"user", "username", "key", "accesskey", "password"}

  lemma ConfigKeysAreNoNumbers(c: Setting)
    requires c.keys == CONFIG_KEYS && forall i: nat :: c.lower(Decimal(i)) == Decimal(i)
    ensures NoIndexKeys(c)
  {
    assert "user"[0] == 'u' && "username"[0] == 'u' && "key"[0] == 'k' && "accesskey"[0] == 'a' && "password"[0] == 'p';
    forall i: nat
      ensures !IsListed(c, Decimal(i))
    {
      assert '0' <= Decimal(i)[0] <= '9';
    }
  }

  /** Case is ignored: the key that the configuration really has is redacted, whatever its value. */
  lemma {:induction false} AccessKeyIsRedacted(c: Setting, secret: Json)
    requires c.keys == CONFIG_KEYS && c.lower("accessKey") == "accesskey"
    ensures Redact(c, Obj([Prop("accessKey", secret)])) == Some(Obj([Prop("accessKey", Str("[REDACTED]", None))]))
    ensures Redact(c, Arr([Obj([Prop("accessKey", secret)])])) ==
            Some(Arr([Obj([Prop("accessKey", Str("[REDACTED]", None))])]))
  {
    var p, r := Prop("accessKey", secret), Prop("accessKey", Str("[REDACTED]", None));
    var v := Obj([p]);
    PropsRedacted(c, v, 1);
    assert RedactProps(c, v, 1).value == [r];
    ItemsRedacted(c, Arr([v]), 1);
    assert RedactItems(c, Arr([v]), 1).value == [Obj([r])];
  }

  /**
    Two families of inputs on which a listed key stays, with the keys that the launcher lists for a configuration: JSON
    in the text of an array's item is not looked into, nor is JSON that stands in a text twice. Nothing is thrown.
   */
  lemma {:induction false} TextsLeak(c: Setting, text: string, outer: string, secret: Json)
    requires c.keys == CONFIG_KEYS && forall i: nat :: c.lower(Decimal(i)) == Decimal(i)
    requires c.lower("args") == "args" && c.lower("password") == "password"
    ensures
      var tree := Obj([Prop("password", secret)]);
      var item := Obj([Prop("args", Arr([Str(text, Some(tree))]))]);
      var twice := Obj([Prop("args", Str(outer, Some(Str(text, Some(tree)))))]);
      && "password" in CONFIG_KEYS
      && Redact(c, item) == Some(item) && At(item, [Member(0), Item(0), Inside]) == Some(tree)
      && Redact(c, twice) == Some(twice) && At(twice, [Member(0), Inside, Inside]) == Some(tree)
  {
    var tree := Obj([Prop("password", secret)]);
    var inner := Str(text, Some(tree));
    var args := Arr([inner]);
    assert "args"[1] == 'r' && "user"[1] == 's' && "username"[1] == 's' && "key"[1] == 'e';
    assert "accesskey"[1] == 'c' && "password"[1] == 'a' && "args" !in CONFIG_KEYS;
    ConfigKeysAreNoNumbers(c);
    ItemStays(c, inner);
    PropertyStays(c, Prop("args", args));
    PropertyStays(c, Prop("args", Str(outer, Some(inner))));
    PathsInside(tree, text, outer);
  }

  lemma ItemStays(c: Setting, item: Json)
    requires NoIndexKeys(c) && item.Str?
    ensures Redact(c, Arr([item])) == Some(Arr([item]))
  {
    NeverThrows(c, item);
    ItemsRedacted(c, Arr([item]), 1);
    assert RedactItems(c, Arr([item]), 1).value == [item];
  }

  lemma PathsInside(tree: Json, text: string, outer: string)
    ensures
      var inner := Str(text, Some(tree));
      && At(Obj([Prop("args", Arr([inner]))]), [Member(0), Item(0), Inside]) == Some(tree)
      && At(Obj([Prop("args", Str(outer, Some(inner)))]), [Member(0), Inside, Inside]) == Some(tree)
  {
    var inner := Str(text, Some(tree));
    var args := Arr([inner]);
    var toItem, toTwice := [Member(0), Item(0), Inside], [Member(0), Inside, Inside];
    assert toItem[1..] == [Item(0), Inside] && toTwice[1..] == [Inside, Inside];
    assert [Item(0), Inside][1..] == [Inside] == [Inside, Inside][1..] && [Inside][1..] == [];
    assert At(inner, [Inside]) == Some(tree);
    assert At(args, toItem[1..]) == Some(tree) && At(Str(outer, Some(inner)), toTwice[1..]) == Some(tree);
  }

  lemma PropertyStays(c: Setting, p: Prop)
    requires RedactProp(c, p) == Some(p.value)
    ensures Redact(c, Obj([p])) == Some(Obj([p]))
  {
    PropsRedacted(c, Obj([p]), 1);
    assert RedactProps(c, Obj([p]), 1).value == [p];
  }

  // ----- What is left behind

  /** The tree a visit leaves behind, whether or not it throws: what comes before the throw is rewritten, what comes
      after is not. */
  function Visited(c: Setting, v: Json): Json
    decreases v, 1
  {
    match v
    case Arr(items) => Arr(VisitedItems(c, v, |items|))
    case Obj(props) => Obj(VisitedProps(c, v, |props|))
    case _ => v
  }

  function VisitedItems(c: Setting, v: Json, n: nat): (r: seq<Json>)
    requires v.Arr? && n <= |v.items|
    ensures |r| == n
    decreases v, 0, n
  {
    if n == 0 then []
    else
      VisitedItems(c, v, n - 1)
      + [if RedactItems(c, v, n - 1).Some? then Visited(c, v.items[n - 1]) else v.items[n - 1]]
  }

  function VisitedProps(c: Setting, v: Json, n: nat): (r: seq<Prop>)
    requires v.Obj? && n <= |v.props|
    ensures |r| == n
    decreases v, 0, n
  {
    if n == 0 then []
    else
      var p := v.props[n - 1];
      VisitedProps(c, v, n - 1) + [Prop(p.key, if RedactProps(c, v, n - 1).Some? then VisitedProp(c, p) else p.value)]
  }

  function VisitedProp(c: Setting, p: Prop): Json
    decreases p, 3
  {
    if IsListed(c, p.key) then REDACTED else VisitedValue(c, p.value)
  }

  /** An exception from an embedded tree is caught, and its text left alone. */
  function VisitedValue(c: Setting, v: Json): Json
    decreases v, 2
  {
    match v
    case Arr(_) => Visited(c, v)
    case Obj(_) => Visited(c, v)
    case Str(text, Some(tree)) =>
      if !IsTree(tree) then v
      else
        var r := Redact(c, tree);
        if r.Some? then Str(c.write(r.value), r) else v
    case _ => v
  }

  lemma {:induction false} VisitedItemAt(c: Setting, v: Json, n: nat, i: nat)
    requires v.Arr? && i < n <= |v.items|
    ensures VisitedItems(c, v, n)[i] == if RedactItems(c, v, i).Some? then Visited(c, v.items[i]) else v.items[i]
    decreases n
  {
    if i < n - 1 {
      VisitedItemAt(c, v, n - 1, i);
    }
  }

  lemma {:induction false} VisitedPropAt(c: Setting, v: Json, n: nat, i: nat)
    requires v.Obj? && i < n <= |v.props|
    ensures
      var p := v.props[i];
      VisitedProps(c, v, n)[i] == Prop(p.key, if RedactProps(c, v, i).Some? then VisitedProp(c, p) else p.value)
    decreases n
  {
    if i < n - 1 {
      VisitedPropAt(c, v, n - 1, i);
    }
  }

  /** Without a throw the tree left behind is the rewritten one. */
  lemma {:induction false} VisitedIsRedacted(c: Setting, v: Json)
    requires Redact(c, v).Some?
    ensures Visited(c, v) == Redact(c, v).value
    decreases v, 0
  {
    match v
    case Arr(items) =>
      ItemsRedacted(c, v, |items|);
      forall i | 0 <= i < |items|
        ensures VisitedItems(c, v, |items|)[i] == Redact(c, items[i]).value
      {
        ItemsRedacted(c, v, i);
        VisitedItemAt(c, v, |items|, i);
        VisitedIsRedacted(c, items[i]);
      }
      assert VisitedItems(c, v, |items|) == RedactItems(c, v, |items|).value;
    case Obj(props) =>
      PropsRedacted(c, v, |props|);
      forall i | 0 <= i < |props|
        ensures VisitedProps(c, v, |props|)[i] == Prop(props[i].key, RedactProp(c, props[i]).value)
      {
        PropsRedacted(c, v, i);
        VisitedPropAt(c, v, |props|, i);
        VisitedPropIsRedacted(c, props[i]);
      }
      assert VisitedProps(c, v, |props|) == RedactProps(c, v, |props|).value;
    case _ =>
  }

  lemma {:induction false} VisitedPropIsRedacted(c: Setting, p: Prop)
    requires RedactProp(c, p).Some?
    ensures VisitedProp(c, p) == RedactProp(c, p).value
    decreases p, 1
  {
    if !IsListed(c, p.key) && (p.value.Arr? || p.value.Obj?) {
      VisitedIsRedacted(c, p.value);
    }
  }

  /** The items when the first `i` go through and the next one, if there is one, throws. */
  lemma {:induction false} VisitedUpTo(c: Setting, v: Json, i: nat)
    requires v.Arr? && i <= |v.items| && forall k :: 0 <= k < i ==> Redact(c, v.items[k]).Some?
    requires i < |v.items| ==> Redact(c, v.items[i]).None?
    ensures
      var r := Visited(c, v);
      && r.Arr? && |r.items| == |v.items|
      && (forall k :: 0 <= k < i ==> r.items[k] == Redact(c, v.items[k]).value)
      && (i < |v.items| ==> r.items[i] == Visited(c, v.items[i]))
      && (forall k :: i < k < |v.items| ==> r.items[k] == v.items[k])
  {
    hide Redact;
    forall k | 0 <= k < |v.items|
      ensures Visited(c, v).items[k] ==
              if k < i then Redact(c, v.items[k]).value else if k == i then Visited(c, v.items[k]) else v.items[k]
    {
      ItemsRedacted(c, v, k);
      VisitedItemAt(c, v, |v.items|, k);
      if k < i {
        VisitedIsRedacted(c, v.items[k]);
      }
    }
  }

  lemma {:induction false} VisitedPropsUpTo(c: Setting, v: Json, i: nat)
    requires v.Obj? && i <= |v.props| && forall k :: 0 <= k < i ==> RedactProp(c, v.props[k]).Some?
    requires i < |v.props| ==> RedactProp(c, v.props[i]).None?
    ensures
      var r := Visited(c, v);
      && r.Obj? && |r.props| == |v.props|
      && (forall k :: 0 <= k < |v.props| ==> r.props[k].key == v.props[k].key)
      && (forall k :: 0 <= k < i ==> r.props[k].value == RedactProp(c, v.props[k]).value)
      && (i < |v.props| ==> r.props[i].value == VisitedProp(c, v.props[i]))
      && (forall k :: i < k < |v.props| ==> r.props[k].value == v.props[k].value)
  {
    hide RedactProp, VisitedProp;
    forall k | 0 <= k < |v.props|
      ensures Visited(c, v).props[k] == Prop(v.props[k].key,
                if k < i then RedactProp(c, v.props[k]).value
                else if k == i then VisitedProp(c, v.props[k]) else v.props[k].value)
    {
      PropsRedacted(c, v, k);
      VisitedPropAt(c, v, |v.props|, k);
      if k < i {
        VisitedPropIsRedacted(c, v.props[k]);
      }
    }
  }

  // ----- A second run

  /** Whenever a first run goes through, a second one goes through and changes nothing. */
  lemma {:induction false} RedactTwice(c: Setting, v: Json)
    requires Redact(c, v).Some?
    ensures Redact(c, Redact(c, v).value) == Redact(c, v)
    decreases v, 0
  {
    var r := Redact(c, v).value;
    match v
    case Arr(items) =>
      ItemsRedacted(c, v, |items|);
      forall i | 0 <= i < |items|
        ensures Redact(c, r.items[i]) == Some(r.items[i])
      {
        RedactTwice(c, items[i]);
      }
      ItemsRedacted(c, r, |r.items|);
      assert RedactItems(c, r, |r.items|).value == r.items;
    case Obj(props) =>
      PropsRedacted(c, v, |props|);
      forall i | 0 <= i < |props|
        ensures RedactProp(c, r.props[i]) == Some(r.props[i].value)
      {
        RedactPropTwice(c, props[i], r.props[i]);
      }
      PropsRedacted(c, r, |r.props|);
      assert RedactProps(c, r, |r.props|).value == r.props;
    case _ =>
  }

  lemma RedactPropTwice(c: Setting, p: Prop, q: Prop)
    requires q.key == p.key && RedactProp(c, p) == Some(q.value)
    ensures RedactProp(c, q) == Some(q.value)
    decreases p, 1
  {
    if !IsListed(c, p.key) {
      match p.value
      case Arr(_) => RedactTwice(c, p.value);
      case Obj(_) => RedactTwice(c, p.value);
      case Str(_, Some(tree)) =>
        if Redact(c, tree).Some? {
          RedactTwice(c, tree);
        }
      case _ =>
    }
  }

  /** The capability filter lists one key, which is no number: it never throws, whatever lower-casing does to
      letters. */
  lemma FilterCapabilitiesNeverThrows(c: Setting, capabilities: Json)
    requires c.keys == {"extensions"} && forall i: nat :: c.lower(Decimal(i)) == Decimal(i)
    ensures Redact(c, capabilities).Some?
  {
    forall i: nat
      ensures !IsListed(c, Decimal(i))
    {
      assert "extensions"[0] == 'e';
      assert '0' <= Decimal(i)[0] <= '9';
    }
    NeverThrows(c, capabilities);
  }
}
