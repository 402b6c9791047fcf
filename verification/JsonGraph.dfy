/**
 The strict-JSON check on an arbitrary object graph, shared or cyclic: an ancestor set that follows the
 current path, and a depth bound.
 */
module JsonGraph {
  import opened Common

  const MAX_DEPTH := 512

  /** Strings, booleans, null and finite numbers are valid primitives; other primitives and functions are not. */
  datatype Value = Primitive(valid: bool) | Ref(id: nat)

  /** An own property as its descriptor shows it; an array index may have none. */
  datatype Slot = Data(enumerable: bool, value: Value) | Accessor | Absent

  datatype Node =
    | ArrayNode(keyCount: nat, symbolKeys: bool, slots: seq<Slot>)
    | ObjectNode(plainPrototype: bool, symbolKeys: bool, slots: seq<Slot>)

  type Graph = nat -> Node

  /** What the node itself must look like. */
  predicate ShapeOk(n: Node) {
    match n
    case ArrayNode(keys, symbols, slots) => keys == |slots| + 1 && !symbols
    case ObjectNode(plain, symbols, _) => plain && !symbols
  }

  predicate SlotOk(s: Slot) { s.Data? && s.enumerable }

  /** The check without any ancestor set. */
  predicate Accepts(g: Graph, v: Value, depth: nat)
    decreases MAX_DEPTH + 1 - depth
  {
    depth <= MAX_DEPTH &&
    match v
    case Primitive(valid) => valid
    case Ref(id) =>
      ShapeOk(g(id)) &&
      forall i :: 0 <= i < |g(id).slots| ==> SlotOk(g(id).slots[i]) && Accepts(g, g(id).slots[i].value, depth + 1)
  }

  // ---------------------------------------------------------------- cycles

  /** A valid slot of `u` refers to `v`. */
  predicate Edge(g: Graph, u: nat, v: nat) {
    exists i :: 0 <= i < |g(u).slots| && g(u).slots[i].Data? && g(u).slots[i].value == Ref(v)
  }

  predicate Path(g: Graph, p: seq<nat>) {
    forall i :: 0 <= i < |p| - 1 ==> Edge(g, p[i], p[i + 1])
  }

  /** Acceptance passes down a path. */
  lemma {:induction false} AcceptsAlong(g: Graph, p: seq<nat>, depth: nat)
    requires |p| > 0 && Path(g, p) && Accepts(g, Ref(p[0]), depth)
    ensures Accepts(g, Ref(p[|p| - 1]), depth + |p| - 1)
    decreases |p|
  {
    if |p| > 1 {
      var i :| 0 <= i < |g(p[0]).slots| && g(p[0]).slots[i].Data? && g(p[0]).slots[i].value == Ref(p[1]);
      assert Edge(g, p[0], p[1]);
      assert Path(g, p[1..]) by {
        forall j | 0 <= j < |p[1..]| - 1 ensures Edge(g, p[1..][j], p[1..][j + 1]) {
          assert Edge(g, p[j + 1], p[j + 1 + 1]);
        }
      }
      AcceptsAlong(g, p[1..], depth + 1);
    }
  }

  /** So nothing on a cycle is accepted: every turn around it would be accepted one cycle deeper. */
  lemma {:induction false} CycleRejected(g: Graph, p: seq<nat>, depth: nat)
    requires |p| > 1 && Path(g, p) && p[0] == p[|p| - 1]
    ensures !Accepts(g, Ref(p[0]), depth)
    decreases MAX_DEPTH + 1 - depth
  {
    if depth <= MAX_DEPTH && Accepts(g, Ref(p[0]), depth) {
      AcceptsAlong(g, p, depth);
      CycleRejected(g, p, depth + |p| - 1);
    }
  }

  // ---------------------------------------------------------------- unfolding

  /** A value written out as a tree. */
  datatype Tree = Tree(children: seq<Tree>)

  function Height(t: Tree): nat {
    if t.children == [] then 0 else 1 + Tallest(t.children)
  }

  function Tallest(ts: seq<Tree>): nat
    requires ts != []
  {
    if |ts| == 1 then Height(ts[0]) else Max(Height(ts[0]), Tallest(ts[1..]))
  }

  /** `t` is what `v` unfolds to, every node on the way well formed. */
  ghost predicate Unfolds(g: Graph, v: Value, t: Tree)
    decreases t
  {
    match v
    case Primitive(valid) => valid && t.children == []
    case Ref(id) =>
      && ShapeOk(g(id)) && |t.children| == |g(id).slots|
      && forall i :: 0 <= i < |t.children| ==> SlotOk(g(id).slots[i]) && Unfolds(g, g(id).slots[i].value, t.children[i])
  }

  lemma {:induction false} TallestIs(ts: seq<Tree>, n: nat)
    requires ts != []
    ensures Tallest(ts) <= n <==> forall i :: 0 <= i < |ts| ==> Height(ts[i]) <= n
    decreases |ts|
  {
    if |ts| > 1 {
      TallestIs(ts[1..], n);
      assert forall i :: 0 < i < |ts| ==> ts[i] == ts[1..][i - 1];
      assert forall i :: 0 <= i < |ts[1..]| ==> ts[1..][i] == ts[i + 1];
    }
  }

  lemma {:induction false} UnfoldsAccepted(g: Graph, v: Value, t: Tree, depth: nat)
    requires Unfolds(g, v, t) && depth + Height(t) <= MAX_DEPTH
    ensures Accepts(g, v, depth)
    decreases t
  {
    if v.Ref? && t.children != [] {
      TallestIs(t.children, MAX_DEPTH - depth - 1);
      forall i | 0 <= i < |t.children| ensures Accepts(g, g(v.id).slots[i].value, depth + 1) {
        UnfoldsAccepted(g, g(v.id).slots[i].value, t.children[i], depth + 1);
      }
    }
  }

  lemma {:induction false} AcceptedUnfolds(g: Graph, v: Value, depth: nat) returns (t: Tree)
    requires Accepts(g, v, depth)
    ensures Unfolds(g, v, t) && depth + Height(t) <= MAX_DEPTH
    decreases MAX_DEPTH + 1 - depth, 1
  {
    t := Tree([]);
    if v.Ref? {
      var children := ChildrenUnfold(g, v.id, depth, |g(v.id).slots|);
      t := Tree(children);
      if children != [] {
        assert depth + 1 + Height(children[0]) <= MAX_DEPTH;
        TallestIs(children, MAX_DEPTH - depth - 1);
      }
    }
  }

  lemma {:induction false} ChildrenUnfold(g: Graph, id: nat, depth: nat, n: nat) returns (ts: seq<Tree>)
    requires Accepts(g, Ref(id), depth) && n <= |g(id).slots|
    ensures |ts| == n
    ensures forall i :: 0 <= i < n ==>
      Unfolds(g, g(id).slots[i].value, ts[i]) && depth + 1 + Height(ts[i]) <= MAX_DEPTH
    decreases MAX_DEPTH + 1 - depth, 0, n
  {
    ts := [];
    if n > 0 {
      ts := ChildrenUnfold(g, id, depth, n - 1);
      var t := AcceptedUnfolds(g, g(id).slots[n - 1].value, depth + 1);
      ts := ts + [t];
    }
  }

  /** Acceptance means exactly: the value unfolds to a well-formed tree no higher than the bound. */
  lemma AcceptsIffUnfolds(g: Graph, v: Value)
    ensures Accepts(g, v, 0) <==> exists t :: Unfolds(g, v, t) && Height(t) <= MAX_DEPTH
  {
    if Accepts(g, v, 0) {
      var t := AcceptedUnfolds(g, v, 0);
    }
    forall t | Unfolds(g, v, t) && Height(t) <= MAX_DEPTH ensures Accepts(g, v, 0) {
      UnfoldsAccepted(g, v, t, 0);
    }
  }

  // ---------------------------------------------------------------- the check itself

  class Checker {
    const graph: Graph
    var ancestors: set<nat>

    constructor (graph: Graph)
      ensures this.graph == graph && ancestors == {}
    {
      this.graph := graph;
      ancestors := {};
    }

    /** The ancestor set is the current path. */
    ghost predicate Follows(path: seq<nat>)
      reads this
    {
      (forall x :: x in ancestors <==> x in path) && Path(graph, path)
    }

    /** Restores the ancestor set, and answers what the check without ancestors answers. */
    method Check(v: Value, depth: nat, ghost path: seq<nat>) returns (ok: bool)
      requires Follows(path)
      requires v.Ref? && path != [] ==> Edge(graph, path[|path| - 1], v.id)
      modifies this
      ensures ancestors == old(ancestors)
      ensures ok == Accepts(graph, v, depth)
      decreases MAX_DEPTH + 1 - depth, 1
    {
      if depth > MAX_DEPTH { return false; }
      match v {
        case Primitive(valid) => return valid;
        case Ref(id) =>
          var node := graph(id);
          match node {
            case ArrayNode(keys, symbols, slots) => if keys != |slots| + 1 || symbols { return false; }
            case ObjectNode(plain, symbols, _) => if !plain || symbols { return false; }
          }
          if id in ancestors {
            SeenBefore(path, id, depth);
            return false;
          }
          ancestors := ancestors + {id};
          ok := CheckSlots(id, depth, path);
          ancestors := ancestors - {id};
      }
    }

    method CheckSlots(id: nat, depth: nat, ghost path: seq<nat>) returns (ok: bool)
      requires depth <= MAX_DEPTH && Follows(path + [id])
      modifies this
      ensures ancestors == old(ancestors)
      ensures ok == forall i :: 0 <= i < |graph(id).slots| ==>
        SlotOk(graph(id).slots[i]) && Accepts(graph, graph(id).slots[i].value, depth + 1)
      decreases MAX_DEPTH + 1 - depth, 0
    {
      var slots := graph(id).slots;
      var index := 0;
      while index < |slots|
        invariant 0 <= index <= |slots| && ancestors == old(ancestors)
        invariant forall i :: 0 <= i < index ==> SlotOk(slots[i]) && Accepts(graph, slots[i].value, depth + 1)
      {
        var slot := slots[index];
        if !slot.Data? || !slot.enumerable { return false; }
        assert slot.value.Ref? ==> Edge(graph, id, slot.value.id);
        var fine := Check(slot.value, depth + 1, path + [id]);
        if !fine { return false; }
        index := index + 1;
      }
      ok := true;
    }

    lemma SeenBefore(path: seq<nat>, id: nat, depth: nat)
      requires Follows(path) && id in ancestors && Edge(graph, path[|path| - 1], id)
      ensures !Accepts(graph, Ref(id), depth)
    {
      var i :| 0 <= i < |path| && path[i] == id;
      var cycle := path[i..] + [id];
      forall j | 0 <= j < |cycle| - 1 ensures Edge(graph, cycle[j], cycle[j + 1]) {
        if j + 1 < |path[i..]| { assert Edge(graph, path[i + j], path[i + j + 1]); }
      }
      CycleRejected(graph, cycle, depth);
    }
  }

  /** `isJsonValue`. */
  method IsJsonValue(graph: Graph, v: Value) returns (ok: bool)
    ensures ok <==> exists t :: Unfolds(graph, v, t) && Height(t) <= MAX_DEPTH
    ensures ok == Accepts(graph, v, 0)
  {
    var checker := new Checker(graph);
    ok := checker.Check(v, 0, []);
    AcceptsIffUnfolds(graph, v);
  }
}
