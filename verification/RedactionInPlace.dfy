/** The rewrite as it runs: on objects and arrays in memory, by assignment to their properties. */
module RedactionInPlace {
  import opened Wrappers
  import opened Text
  import opened Redaction

  datatype Ref =
    | NullRef
    | BoolRef(b: bool)
    | NumRef(n: real)
    | StrRef(text: string, holds: Option<Json>)
    | NodeRef(node: Node)

  /** An object, or an array when it has no keys. */
  class Node {
    const keys: Option<seq<string>>
    var vals: seq<Ref>
    ghost const repr: set<Node>

    constructor (keys: Option<seq<string>>, vals: seq<Ref>, ghost below: set<Node>)
      ensures this.keys == keys && this.vals == vals && repr == below + {this}
    {
      this.keys, this.vals := keys, vals;
      repr := below + {this};
    }
  }

  /** The objects and arrays a value consists of. */
  ghost function Foot(r: Ref): set<Node> {
    if r.NodeRef? then r.node.repr else {}
  }

  /** The parts of a node lie below it and share nothing. */
  ghost predicate Separate(n: Node)
    reads n
  {
    && n in n.repr
    && (forall i :: 0 <= i < |n.vals| ==> Foot(n.vals[i]) <= n.repr && n !in Foot(n.vals[i]))
    && (forall i, k :: 0 <= i < k < |n.vals| ==> Foot(n.vals[i]) !! Foot(n.vals[k]))
  }

  /** `r` is a tree in memory with value `j`. */
  ghost predicate Stands(r: Ref, j: Json)
    reads Foot(r)
    decreases j
  {
    match j
    case Null => r == NullRef
    case Bool(b) => r == BoolRef(b)
    case Num(n) => r == NumRef(n)
    case Str(text, holds) => r == StrRef(text, holds)
    case Arr(items) =>
      && r.NodeRef? && r.node in r.node.repr && Separate(r.node)
      && r.node.keys.None? && |r.node.vals| == |items|
      && forall i :: 0 <= i < |items| ==> Stands(r.node.vals[i], items[i])
    case Obj(props) =>
      && r.NodeRef? && r.node in r.node.repr && Separate(r.node)
      && r.node.keys.Some? && |r.node.vals| == |props| == |r.node.keys.value|
      && forall i :: 0 <= i < |props| ==>
           r.node.keys.value[i] == props[i].key && Stands(r.node.vals[i], props[i].value)
  }

  /** Rewrites a visited value in place; `threw` says that an exception left it. Either way the tree in memory is the
      one the visit leaves behind: rewritten up to the throw, and as it was after it. */
  method Visit(c: Setting, r: Ref, ghost j: Json) returns (threw: bool)
    requires Stands(r, j)
    modifies Foot(r)
    ensures threw <==> Redact(c, j).None?
    ensures !threw ==> Stands(r, Redact(c, j).value)
    ensures Stands(r, Visited(c, j))
    decreases j, 1
  {
    match r
    case NodeRef(node) =>
      if node.keys.None? {
        threw := VisitItems(c, node, j);
      } else {
        threw := VisitProps(c, node, j);
      }
    case StrRef(text, _) => threw := HitsText(c, text);
    case _ => threw := false;
  }

  method VisitItems(c: Setting, node: Node, ghost j: Json) returns (threw: bool)
    requires j.Arr? && Stands(NodeRef(node), j)
    modifies node.repr
    ensures threw <==> Redact(c, j).None?
    ensures !threw ==> Stands(NodeRef(node), Redact(c, j).value)
    ensures Stands(NodeRef(node), Visited(c, j))
    decreases j, 0
  {
    hide Redact, Visited;
    ItemsRedactedWhole(c, j);
    var i := 0;
    while i < |node.vals|
      invariant i <= |node.vals| == |j.items| && node.vals == old(node.vals) && Separate(node)
      invariant forall k :: 0 <= k < i ==>
                  Redact(c, j.items[k]).Some? && Stands(node.vals[k], Redact(c, j.items[k]).value)
      invariant forall k :: i <= k < |node.vals| ==> Stands(node.vals[k], j.items[k])
    {
      threw := Visit(c, node.vals[i], j.items[i]);
      if threw {
        VisitedUpTo(c, j, i);
        return;
      }
      i := i + 1;
    }
    threw := false;
    VisitedUpTo(c, j, i);
    VisitedIsRedacted(c, j);
  }

  lemma ItemsRedactedWhole(c: Setting, j: Json)
    requires j.Arr?
    ensures Redact(c, j).None? <==> exists i :: 0 <= i < |j.items| && Redact(c, j.items[i]).None?
  {
    ItemsRedacted(c, j, |j.items|);
  }

  lemma PropsRedactedWhole(c: Setting, j: Json)
    requires j.Obj?
    ensures Redact(c, j).None? <==> exists i :: 0 <= i < |j.props| && RedactProp(c, j.props[i]).None?
  {
    PropsRedacted(c, j, |j.props|);
  }

  method VisitProps(c: Setting, node: Node, ghost j: Json) returns (threw: bool)
    requires j.Obj? && Stands(NodeRef(node), j)
    modifies node.repr
    ensures threw <==> Redact(c, j).None?
    ensures !threw ==> Stands(NodeRef(node), Redact(c, j).value)
    ensures Stands(NodeRef(node), Visited(c, j))
    decreases j, 0
  {
    hide RedactProp, VisitedProp, Redact, Visited;
    PropsRedactedWhole(c, j);
    var i := 0;
    while i < |node.vals|
      invariant i <= |node.vals| == |j.props| && Separate(node)
      invariant forall k :: 0 <= k < i ==>
                  RedactProp(c, j.props[k]).Some? && Stands(node.vals[k], RedactProp(c, j.props[k]).value)
      invariant forall k :: i <= k < |node.vals| ==> Stands(node.vals[k], j.props[k].value)
    {
      threw := RewriteProp(c, node, i, j.props[i]);
      if threw {
        VisitedPropsUpTo(c, j, i);
        return;
      }
      i := i + 1;
    }
    threw := false;
    VisitedPropsUpTo(c, j, i);
    VisitedIsRedacted(c, j);
  }

  /** One round of the loop over the properties. */
  method RewriteProp(c: Setting, node: Node, i: nat, ghost p: Prop) returns (threw: bool)
    requires Separate(node) && i < |node.vals| && Stands(node.vals[i], p.value)
    requires node.keys.Some? && i < |node.keys.value| && node.keys.value[i] == p.key
    modifies node, Foot(node.vals[i])
    ensures Separate(node) && |node.vals| == |old(node.vals)|
    ensures forall k :: 0 <= k < |node.vals| && k != i ==> node.vals[k] == old(node.vals[k])
    ensures threw <==> RedactProp(c, p).None?
    ensures !threw ==> Stands(node.vals[i], RedactProp(c, p).value)
    ensures Stands(node.vals[i], VisitedProp(c, p))
    decreases p, 3
  {
    if IsListed(c, node.keys.value[i]) {
      node.vals := node.vals[i := StrRef("[REDACTED]", None)];
      threw := false;
    } else {
      threw := VisitProp(c, node, i, p.value);
    }
  }

  /** The property at `i`, whose key is not listed. */
  method VisitProp(c: Setting, node: Node, i: nat, ghost v: Json) returns (threw: bool)
    requires Separate(node) && i < |node.vals| && Stands(node.vals[i], v)
    modifies node, Foot(node.vals[i])
    ensures Separate(node) && |node.vals| == |old(node.vals)|
    ensures forall k :: 0 <= k < |node.vals| && k != i ==> node.vals[k] == old(node.vals[k])
    ensures threw <==> RedactValue(c, v).None?
    ensures !threw ==> Stands(node.vals[i], RedactValue(c, v).value)
    ensures Stands(node.vals[i], VisitedValue(c, v))
    decreases v, 2
  {
    match node.vals[i]
    case NodeRef(_) => threw := Visit(c, node.vals[i], v);
    case StrRef(_, Some(tree)) =>
      if IsTree(tree) {
        var parsed := Parse(tree);
        var failed := Visit(c, parsed, tree);
        if !failed {
          var value := ReadBack(parsed, Redact(c, tree).value);
          node.vals := node.vals[i := StrRef(c.write(value), Some(value))];
        }
      }
      threw := false;
    case _ => threw := false;
  }

  /** Builds the value a text parses to, out of new objects and arrays. */
  method Parse(j: Json) returns (r: Ref)
    ensures Stands(r, j) && fresh(Foot(r))
    decreases j, 1
  {
    match j
    case Null => r := NullRef;
    case Bool(b) => r := BoolRef(b);
    case Num(n) => r := NumRef(n);
    case Str(text, holds) => r := StrRef(text, holds);
    case Arr(items) =>
      var vals := [];
      ghost var below: set<Node> := {};
      var i := 0;
      while i < |items|
        invariant i == |vals| <= |items| && fresh(below)
        invariant forall k :: 0 <= k < i ==> Foot(vals[k]) <= below && Stands(vals[k], items[k])
        invariant forall k, l :: 0 <= k < l < i ==> Foot(vals[k]) !! Foot(vals[l])
      {
        var v := Parse(items[i]);
        vals, below := vals + [v], below + Foot(v);
        i := i + 1;
      }
      var node := new Node(None, vals, below);
      r := NodeRef(node);
    case Obj(props) =>
      var vals, keys := [], [];
      ghost var below: set<Node> := {};
      var i := 0;
      while i < |props|
        invariant i == |vals| == |keys| <= |props| && fresh(below)
        invariant forall k :: 0 <= k < i ==>
                    keys[k] == props[k].key && Foot(vals[k]) <= below && Stands(vals[k], props[k].value)
        invariant forall k, l :: 0 <= k < l < i ==> Foot(vals[k]) !! Foot(vals[l])
      {
        var v := Parse(props[i].value);
        vals, keys, below := vals + [v], keys + [props[i].key], below + Foot(v);
        i := i + 1;
      }
      var node := new Node(Some(keys), vals, below);
      r := NodeRef(node);
  }

  /** Reads a tree in memory back into a value. */
  method ReadBack(r: Ref, ghost j: Json) returns (v: Json)
    requires Stands(r, j)
    ensures v == j
    decreases j
  {
    match r
    case NullRef => v := Null;
    case BoolRef(b) => v := Bool(b);
    case NumRef(n) => v := Num(n);
    case StrRef(text, holds) => v := Str(text, holds);
    case NodeRef(node) =>
      if node.keys.None? {
        var items := [];
        var i := 0;
        while i < |node.vals|
          invariant i <= |node.vals| && items == j.items[..i]
        {
          var item := ReadBack(node.vals[i], j.items[i]);
          items := items + [item];
          i := i + 1;
        }
        v := Arr(items);
      } else {
        var props := [];
        var i := 0;
        while i < |node.vals|
          invariant i <= |node.vals| && props == j.props[..i]
        {
          var value := ReadBack(node.vals[i], j.props[i].value);
          props := props + [Prop(node.keys.value[i], value)];
          i := i + 1;
        }
        v := Obj(props);
      }
  }
}
