/** Where a graph of dependent tasks is drawn (apps/api/dashboard/dashboard-render.js, `taskGraphLayout`). */
module TaskGraph {
  import opened Wrappers

  datatype Id = Id(text: string)

  datatype Edge = Edge(from: Id, to: Id)

  /** The nodes, by id, in the order of the page. */
  datatype Graph = Graph(nodes: seq<Id>, edges: seq<Edge>)

  /** An edge that the layout counts: the empty id is no dependency, even when a node has it. */
  predicate Depends(g: Graph, parent: Id, child: Id) {
    parent.text != "" && parent in g.nodes && Edge(parent, child) in g.edges
  }

  /** The dependencies of `id` within the first `n` edges, one entry an edge. */
  function Parents(g: Graph, id: Id, n: nat): seq<Id>
    requires n <= |g.edges|
  {
    if n == 0 then []
    else
      var e := g.edges[n - 1];
      if e.to == id && e.from.text != "" && e.from in g.nodes then Parents(g, id, n - 1) + [e.from]
      else Parents(g, id, n - 1)
  }

  lemma {:induction false} ParentsWithin(g: Graph, id: Id, n: nat)
    requires n <= |g.edges|
    ensures forall p :: p in Parents(g, id, n) <==> p.text != "" && p in g.nodes && Edge(p, id) in g.edges[..n]
  {
    if n > 0 {
      ParentsWithin(g, id, n - 1);
      assert g.edges[..n] == g.edges[..n - 1] + [g.edges[n - 1]];
    }
  }

  lemma ParentsAreDependencies(g: Graph, id: Id)
    ensures AreParents(g, id, Parents(g, id, |g.edges|))
  {
    ParentsWithin(g, id, |g.edges|);
    assert g.edges[..|g.edges|] == g.edges;
  }

  ghost predicate AreParents(g: Graph, id: Id, parents: seq<Id>) {
    forall p :: p in parents <==> Depends(g, p, id)
  }

  predicate IsRoot(g: Graph, id: Id) {
    forall p | p in g.nodes :: !Depends(g, p, id)
  }

  // ---------------------------------------------------------------- paths

  ghost predicate Path(g: Graph, p: seq<Id>) {
    && p != [] && p[|p| - 1] in g.nodes
    && forall i | 0 <= i < |p| - 1 :: Depends(g, p[i], p[i + 1])
  }

  ghost predicate Acyclic(g: Graph) {
    forall p | Path(g, p) && |p| >= 2 :: p[0] != p[|p| - 1]
  }

  /** A chain of at least one dependency leads from `a` to `b`. */
  ghost predicate Reaches(g: Graph, a: Id, b: Id) {
    exists p :: Path(g, p) && |p| >= 2 && p[0] == a && p[|p| - 1] == b
  }

  lemma Prepend(g: Graph, p: Id, id: Id, s: Id)
    requires Depends(g, p, id) && id in g.nodes && (s == id || Reaches(g, id, s))
    ensures Reaches(g, p, s)
  {
    if s == id {
      assert Path(g, [p, id]);
    } else {
      var q :| Path(g, q) && |q| >= 2 && q[0] == id && q[|q| - 1] == s;
      assert Path(g, [p] + q);
    }
  }

  /** `d` dependencies are the most that can be followed up to `id`, and they can. */
  ghost predicate IsLongest(g: Graph, id: Id, d: nat) {
    && (exists p :: Path(g, p) && p[|p| - 1] == id && |p| == d + 1)
    && forall p | Path(g, p) && p[|p| - 1] == id :: |p| <= d + 1
  }

  // ---------------------------------------------------------------- what the depths satisfy

  /** On any graph: depth 0 is for the roots, and a depth from 2 up has a dependency one below. */
  ghost predicate Grounded(g: Graph, depth: map<Id, nat>, id: Id)
    requires id in depth
  {
    && (depth[id] == 0 <==> IsRoot(g, id))
    && (depth[id] >= 2 ==> HasParentAt(g, depth, id, depth[id] - 1))
  }

  ghost predicate HasParentAt(g: Graph, depth: map<Id, nat>, id: Id, d: nat) {
    exists p | p in depth :: Depends(g, p, id) && depth[p] == d
  }

  /** Every dependency of `id` is less deep, and one is just one less. */
  ghost predicate Stepped(g: Graph, depth: map<Id, nat>, id: Id)
    requires id in depth
  {
    && (forall p | Depends(g, p, id) :: p in depth && depth[p] < depth[id])
    && (depth[id] >= 1 ==> HasParentAt(g, depth, id, depth[id] - 1))
  }

  ghost predicate AllGrounded(g: Graph, depth: map<Id, nat>) {
    forall id | id in depth :: id in g.nodes && Grounded(g, depth, id)
  }

  ghost predicate AllStepped(g: Graph, depth: map<Id, nat>) {
    forall id | id in depth :: id in g.nodes && Stepped(g, depth, id)
  }

  predicate Extends(before: map<Id, nat>, after: map<Id, nat>) {
    forall id | id in before :: id in after && after[id] == before[id]
  }

  lemma {:induction false} PathBound(g: Graph, depth: map<Id, nat>, p: seq<Id>)
    requires AllStepped(g, depth) && Path(g, p) && p[|p| - 1] in depth
    ensures |p| <= depth[p[|p| - 1]] + 1 && p[0] in depth && (|p| >= 2 ==> depth[p[0]] < depth[p[|p| - 1]])
  {
    if |p| >= 2 {
      var q := p[..|p| - 1];
      assert Depends(g, p[|p| - 2], p[|p| - 1]);
      PathBound(g, depth, q);
    }
  }

  lemma {:induction false} PathExists(g: Graph, depth: map<Id, nat>, id: Id, d: nat) returns (p: seq<Id>)
    requires AllStepped(g, depth) && id in depth && depth[id] == d
    ensures Path(g, p) && p[|p| - 1] == id && |p| == d + 1
    decreases d
  {
    if d == 0 {
      return [id];
    }
    assert HasParentAt(g, depth, id, d - 1);
    var parent :| parent in depth && Depends(g, parent, id) && depth[parent] == d - 1;
    var q := PathExists(g, depth, parent, d - 1);
    ExtendPath(g, q, id);
    p := q + [id];
  }

  lemma ExtendPath(g: Graph, q: seq<Id>, id: Id)
    requires Path(g, q) && Depends(g, q[|q| - 1], id) && id in g.nodes
    ensures Path(g, q + [id])
  {
    var p := q + [id];
    forall i | 0 <= i < |p| - 1 ensures Depends(g, p[i], p[i + 1]) {
      assert i < |q| - 1 ==> p[i + 1] == q[i + 1];
    }
  }

  /** Depths that step are the lengths of the longest dependency chains. */
  lemma DepthIsLongestPath(g: Graph, depth: map<Id, nat>, id: Id)
    requires AllStepped(g, depth) && id in depth
    ensures IsLongest(g, id, depth[id])
  {
    var p := PathExists(g, depth, id, depth[id]);
    forall q | Path(g, q) && q[|q| - 1] == id ensures |q| <= depth[id] + 1 {
      PathBound(g, depth, q);
    }
  }

  ghost predicate DrawnForward(g: Graph, depth: map<Id, nat>) {
    forall e | e in g.edges && Depends(g, e.from, e.to) && e.to in g.nodes ::
      e.from in depth && e.to in depth && depth[e.from] < depth[e.to]
  }

  /** An edge is drawn when both its ends are. */
  predicate Drawn(g: Graph, e: Edge) {
    e in g.edges && e.from in g.nodes && e.to in g.nodes
  }

  /** Every edge that is drawn goes to a later column. */
  ghost predicate AllDrawnForward(g: Graph, depth: map<Id, nat>) {
    forall e | Drawn(g, e) :: e.from in depth && e.to in depth && depth[e.from] < depth[e.to]
  }

  /** The drawn edges that are not counted happen to go forward. */
  ghost predicate UncountedForward(g: Graph, depth: map<Id, nat>) {
    forall e | Drawn(g, e) && e.from.text == "" :: e.from in depth && e.to in depth && depth[e.from] < depth[e.to]
  }

  /** More dependencies can be followed up to `b` than to `a`. */
  ghost predicate HasLongerChain(g: Graph, a: Id, b: Id) {
    exists d1: nat, d2: nat :: IsLongest(g, a, d1) && IsLongest(g, b, d2) && d1 < d2
  }

  /** The graph alone says of every drawn edge from the empty id whether it goes forward. */
  ghost predicate UncountedLonger(g: Graph) {
    forall e | Drawn(g, e) && e.from.text == "" :: HasLongerChain(g, e.from, e.to)
  }

  lemma LongestIsUnique(g: Graph, id: Id, d1: nat, d2: nat)
    requires IsLongest(g, id, d1) && IsLongest(g, id, d2)
    ensures d1 == d2
  {
    var p :| Path(g, p) && p[|p| - 1] == id && |p| == d1 + 1;
    var q :| Path(g, q) && q[|q| - 1] == id && |q| == d2 + 1;
  }

  lemma LongerIsForward(g: Graph, depth: map<Id, nat>, a: Id, b: Id)
    requires AllStepped(g, depth) && a in depth && b in depth
    ensures HasLongerChain(g, a, b) <==> depth[a] < depth[b]
  {
    DepthIsLongestPath(g, depth, a);
    DepthIsLongestPath(g, depth, b);
    if HasLongerChain(g, a, b) {
      var d1: nat, d2: nat :| IsLongest(g, a, d1) && IsLongest(g, b, d2) && d1 < d2;
      LongestIsUnique(g, a, d1, depth[a]);
      LongestIsUnique(g, b, d2, depth[b]);
    }
  }

  lemma UncountedIff(g: Graph, depth: map<Id, nat>)
    requires AllStepped(g, depth) && depth.Keys == Ids(g.nodes)
    ensures UncountedForward(g, depth) <==> UncountedLonger(g)
  {
    forall e | Drawn(g, e) ensures HasLongerChain(g, e.from, e.to) <==> depth[e.from] < depth[e.to] {
      LongerIsForward(g, depth, e.from, e.to);
    }
  }

  /** The drawn edges are the counted ones and those from the empty id. */
  lemma DrawnSplits(g: Graph, depth: map<Id, nat>)
    ensures AllDrawnForward(g, depth) <==> DrawnForward(g, depth) && UncountedForward(g, depth)
  {
    forall e | Drawn(g, e) ensures Depends(g, e.from, e.to) || e.from.text == "" {}
    forall e | e in g.edges && Depends(g, e.from, e.to) && e.to in g.nodes ensures Drawn(g, e) {}
  }

  /** No layout of a cyclic graph draws every dependency forward. */
  lemma ForwardOnlyIfAcyclic(g: Graph, depth: map<Id, nat>)
    requires DrawnForward(g, depth)
    ensures Acyclic(g)
  {
    forall p | Path(g, p) && |p| >= 2 ensures p[0] != p[|p| - 1] {
      ForwardAlong(g, depth, p);
    }
  }

  lemma {:induction false} ForwardAlong(g: Graph, depth: map<Id, nat>, p: seq<Id>)
    requires DrawnForward(g, depth) && Path(g, p) && |p| >= 2
    ensures p[0] in depth && p[|p| - 1] in depth && depth[p[0]] < depth[p[|p| - 1]]
  {
    var q := p[..|p| - 1];
    assert Depends(g, p[|p| - 2], p[|p| - 1]);
    assert Edge(p[|p| - 2], p[|p| - 1]) in g.edges;
    if |q| >= 2 {
      ForwardAlong(g, depth, q);
    }
  }

  // ---------------------------------------------------------------- the depth table

  lemma GroundedExtends(g: Graph, before: map<Id, nat>, after: map<Id, nat>, id: Id)
    requires Extends(before, after) && id in before
    ensures Grounded(g, before, id) ==> Grounded(g, after, id)
    ensures Stepped(g, before, id) ==> Stepped(g, after, id)
  {
    forall d: nat | HasParentAt(g, before, id, d) ensures HasParentAt(g, after, id, d) {
      var p :| p in before && Depends(g, p, id) && before[p] == d;
    }
  }

  function Ids(nodes: seq<Id>): (s: set<Id>)
    ensures forall id :: id in s <==> id in nodes
  {
    set id | id in nodes
  }

  /** `best` is one more than the greatest depth found among `parents`, or 0 when there are none. */
  ghost predicate IsBest(g: Graph, depth: map<Id, nat>, id: Id, parents: seq<Id>, best: nat) {
    && (best == 0 <==> parents == [])
    && (best >= 2 ==> HasParentAt(g, depth, id, best - 1))
    && (Acyclic(g) ==>
         && (forall p | p in parents :: p in depth && depth[p] < best)
         && (best >= 1 ==> HasParentAt(g, depth, id, best - 1)))
  }

  lemma BestStep(g: Graph, before: map<Id, nat>, after: map<Id, nat>, id: Id, parents: seq<Id>, i: nat, best: nat,
          up: nat)
    requires Extends(before, after) && i < |parents| && IsBest(g, before, id, parents[..i], best)
      && Depends(g, parents[i], id)
    requires if parents[i] in after then up == after[parents[i]] else up == 0 && !Acyclic(g)
    ensures IsBest(g, after, id, parents[..i + 1], if up + 1 > best then up + 1 else best)
  {
    var p := parents[i];
    assert parents[..i + 1] == parents[..i] + [p];
    if p in after {
      assert HasParentAt(g, after, id, up);
    }
    forall d: nat | HasParentAt(g, before, id, d) ensures HasParentAt(g, after, id, d) {
      var q :| q in before && Depends(g, q, id) && before[q] == d;
    }
  }

  lemma BestDone(g: Graph, depth: map<Id, nat>, id: Id, parents: seq<Id>, best: nat)
    requires IsBest(g, depth, id, parents, best) && id !in depth && id in g.nodes
    requires AreParents(g, id, parents)
    requires AllGrounded(g, depth) && (Acyclic(g) ==> AllStepped(g, depth))
    ensures var next := depth[id := best]; AllGrounded(g, next) && (Acyclic(g) ==> AllStepped(g, next))
  {
    var next := depth[id := best];
    assert IsRoot(g, id) <==> parents == [] by {
      if parents != [] {
        assert parents[0] in parents;
        assert Depends(g, parents[0], id);
      }
    }
    forall k | k in next ensures Grounded(g, next, k) && (Acyclic(g) ==> Stepped(g, next, k)) {
      if k == id {
        HasParentStays(g, depth, next, id, best - 1);
      } else {
        GroundedExtends(g, depth, next, k);
      }
    }
  }

  lemma HasParentStays(g: Graph, before: map<Id, nat>, after: map<Id, nat>, id: Id, d: int)
    requires Extends(before, after)
    ensures d >= 0 && HasParentAt(g, before, id, d) ==> HasParentAt(g, after, id, d)
  {
    if d >= 0 && HasParentAt(g, before, id, d) {
      var p :| p in before && Depends(g, p, id) && before[p] == d;
    }
  }

  ghost predicate AllReached(g: Graph, id: Id, ids: set<Id>) {
    forall s | s in ids :: Reaches(g, id, s)
  }

  lemma ReachedFromParent(g: Graph, p: Id, id: Id, before: set<Id>, stack: set<Id>)
    requires Depends(g, p, id) && id in g.nodes && stack == before + {id}
    ensures AllReached(g, id, before) ==> AllReached(g, p, stack)
  {
    if AllReached(g, id, before) {
      forall s | s in stack ensures Reaches(g, p, s) {
        Prepend(g, p, id, s);
      }
    }
  }

  /** A node on the stack is no dependency of its own. */
  lemma NotOnStack(g: Graph, id: Id, stack: set<Id>)
    requires AllReached(g, id, stack) && id in stack
    ensures !Acyclic(g)
  {
    assert Reaches(g, id, id);
  }

  /** The tables that `depthOf` shares between its calls. */
  class DepthTable {
    const g: Graph
    var depth: map<Id, nat>
    var seen: set<Id>

    constructor (g: Graph)
      ensures this.g == g && depth == map[] && seen == {}
    {
      this.g := g;
      depth := map[];
      seen := {};
    }

    /** The ids whose depth is being computed. */
    ghost function Stack(): set<Id>
      reads this
    {
      seen - depth.Keys
    }

    ghost predicate Valid()
      reads this
    {
      AllGrounded(g, depth) && (Acyclic(g) ==> AllStepped(g, depth))
    }

    /** Every id on the stack depends on this one. */
    ghost predicate Above(id: Id)
      reads this
    {
      Acyclic(g) ==> AllReached(g, id, Stack())
    }

    method DepthOf(id: Id) returns (d: nat)
      requires Valid() && id in g.nodes && Above(id)
      modifies this
      ensures Valid() && Extends(old(depth), depth) && old(seen) <= seen && Stack() == old(Stack())
      ensures if id in depth then d == depth[id] else d == 0 && id in old(seen)
      ensures Acyclic(g) ==> id in depth
      decreases Ids(g.nodes) - seen
    {
      if id in depth {
        return depth[id];
      }
      if id in seen {
        if Acyclic(g) {
          NotOnStack(g, id, Stack());
        }
        return 0;
      }
      seen := seen + {id};
      var parents := Parents(g, id, |g.edges|);
      ParentsAreDependencies(g, id);
      var best: nat := 0;
      for i := 0 to |parents|
        invariant Valid() && Extends(old(depth), depth) && old(seen) + {id} <= seen && Stack() == old(Stack()) + {id}
        invariant IsBest(g, depth, id, parents[..i], best)
      {
        var p := parents[i];
        assert p in parents;
        ReachedFromParent(g, p, id, old(Stack()), Stack());
        ghost var before := depth;
        var up := DepthOf(p);
        BestStep(g, before, depth, id, parents, i, best, up);
        best := if up + 1 > best then up + 1 else best;
      }
      assert parents[..|parents|] == parents;
      BestDone(g, depth, id, parents, best);
      depth := depth[id := best];
      d := best;
    }
  }

  /** `depthOf` for every node, each with a fresh `seen`. */
  method Depths(g: Graph) returns (depth: map<Id, nat>)
    ensures depth.Keys == Ids(g.nodes) && AllGrounded(g, depth)
    ensures Acyclic(g) ==> AllStepped(g, depth)
  {
    var table := new DepthTable(g);
    for i := 0 to |g.nodes|
      invariant table.g == g && table.Valid() && forall j | 0 <= j < i :: g.nodes[j] in table.depth
    {
      table.seen := {};
      var d := table.DepthOf(g.nodes[i]);
    }
    depth := table.depth;
  }

  // ---------------------------------------------------------------- layers

  /** A sparse array: `None` where nothing was assigned. */
  type Layers = seq<Option<seq<Id>>>

  predicate InTable(nodes: seq<Id>, depth: map<Id, nat>) {
    forall id | id in nodes :: id in depth
  }

  /** Some node is at level `l`. */
  ghost predicate Filled(nodes: seq<Id>, depth: map<Id, nat>, l: nat)
    requires InTable(nodes, depth)
  {
    exists id | id in nodes :: depth[id] == l
  }

  ghost predicate Below(nodes: seq<Id>, depth: map<Id, nat>, bound: nat)
    requires InTable(nodes, depth)
  {
    forall id | id in nodes :: depth[id] < bound
  }

  /** The nodes at one level, in the order of the page. */
  function Layer(nodes: seq<Id>, depth: map<Id, nat>, level: nat): seq<Id>
    requires InTable(nodes, depth)
  {
    if nodes == [] then []
    else
      var id := nodes[|nodes| - 1];
      Layer(nodes[..|nodes| - 1], depth, level) + (if depth[id] == level then [id] else [])
  }

  lemma {:induction false} LayerMembers(nodes: seq<Id>, depth: map<Id, nat>, level: nat)
    requires InTable(nodes, depth)
    ensures forall id :: id in Layer(nodes, depth, level) <==> id in nodes && depth[id] == level
  {
    if nodes != [] {
      var id := nodes[|nodes| - 1];
      assert nodes == nodes[..|nodes| - 1] + [id];
      LayerMembers(nodes[..|nodes| - 1], depth, level);
    }
  }

  predicate IsLayer(ids: seq<Id>, layer: Option<seq<Id>>) {
    layer == if ids == [] then None else Some(ids)
  }

  /** The layers hold their nodes, and there is one for every level up to the last in use. */
  ghost predicate IsLayering(nodes: seq<Id>, depth: map<Id, nat>, layers: Layers)
    requires InTable(nodes, depth)
  {
    && Below(nodes, depth, |layers|)
    && (layers != [] ==> layers[|layers| - 1].Some?)
    && forall l | 0 <= l < |layers| :: IsLayer(Layer(nodes, depth, l), layers[l])
  }

  function Holes(n: nat): Layers {
    seq(n, _ => None)
  }

  /** `layers[level].push(node)`, after `layers[level] = []` where there is none. */
  function Put(layers: Layers, level: nat, id: Id): Layers {
    if level >= |layers| then layers + Holes(level - |layers|) + [Some([id])]
    else layers[level := Some(GetOr(layers[level], []) + [id])]
  }

  lemma Inhabited(ids: seq<Id>)
    requires ids != []
    ensures exists id :: id in ids
  {
    assert ids[0] in ids;
  }

  lemma PutAt(layers: Layers, level: nat, id: Id, l: nat)
    requires l < |Put(layers, level, id)|
    ensures |Put(layers, level, id)| == (if level >= |layers| then level + 1 else |layers|)
    ensures Put(layers, level, id)[l] ==
      var was := if l < |layers| then layers[l] else None; if l == level then Some(GetOr(was, []) + [id]) else was
  {
    assert [] + [id] == [id];
  }

  lemma LayerAppend(nodes: seq<Id>, depth: map<Id, nat>, id: Id, l: nat)
    requires id in depth && InTable(nodes, depth)
    ensures Layer(nodes + [id], depth, l) == Layer(nodes, depth, l) + (if depth[id] == l then [id] else [])
  {
    var all := nodes + [id];
    assert all[..|all| - 1] == nodes && all[|all| - 1] == id;
  }

  lemma NothingBeyond(nodes: seq<Id>, depth: map<Id, nat>, layers: Layers, l: nat)
    requires InTable(nodes, depth) && IsLayering(nodes, depth, layers) && l >= |layers|
    ensures Layer(nodes, depth, l) == []
  {
    LayerMembers(nodes, depth, l);
    if Layer(nodes, depth, l) != [] {
      Inhabited(Layer(nodes, depth, l));
    }
  }

  lemma PutLayer(nodes: seq<Id>, depth: map<Id, nat>, layers: Layers, id: Id, l: nat)
    requires id in depth && InTable(nodes, depth) && IsLayering(nodes, depth, layers)
    requires l < |Put(layers, depth[id], id)|
    ensures IsLayer(Layer(nodes + [id], depth, l), Put(layers, depth[id], id)[l])
  {
    PutAt(layers, depth[id], id, l);
    LayerAppend(nodes, depth, id, l);
    var was := if l < |layers| then layers[l] else None;
    var ids := Layer(nodes, depth, l);
    if l >= |layers| {
      NothingBeyond(nodes, depth, layers, l);
    }
    assert IsLayer(ids, was);
    assert ids + [] == ids;
  }

  lemma PutBelow(nodes: seq<Id>, depth: map<Id, nat>, id: Id, bound: nat, next: nat)
    requires id in depth && InTable(nodes, depth) && Below(nodes, depth, bound) && bound <= next && depth[id] < next
    ensures InTable(nodes + [id], depth) && Below(nodes + [id], depth, next)
  {}

  lemma PutLast(layers: Layers, level: nat, id: Id)
    requires layers != [] ==> layers[|layers| - 1].Some?
    ensures var next := Put(layers, level, id);
      next != [] && next[|next| - 1].Some? && |layers| <= |next| && level < |next|
  {
    PutAt(layers, level, id, |Put(layers, level, id)| - 1);
  }

  lemma MakesLayering(nodes: seq<Id>, depth: map<Id, nat>, layers: Layers)
    requires InTable(nodes, depth) && Below(nodes, depth, |layers|) && layers != [] && layers[|layers| - 1].Some?
    requires forall l | 0 <= l < |layers| :: IsLayer(Layer(nodes, depth, l), layers[l])
    ensures IsLayering(nodes, depth, layers)
  {}

  lemma PutLayers(nodes: seq<Id>, depth: map<Id, nat>, layers: Layers, id: Id)
    requires id in depth && InTable(nodes, depth) && IsLayering(nodes, depth, layers)
    ensures InTable(nodes + [id], depth) && IsLayering(nodes + [id], depth, Put(layers, depth[id], id))
  {
    var next := Put(layers, depth[id], id);
    PutLast(layers, depth[id], id);
    PutBelow(nodes, depth, id, |layers|, |next|);
    forall l | 0 <= l < |next| ensures IsLayer(Layer(nodes + [id], depth, l), next[l]) {
      PutLayer(nodes, depth, layers, id, l);
    }
    MakesLayering(nodes + [id], depth, next);
  }

  lemma NextNode(nodes: seq<Id>, depth: map<Id, nat>, n: nat)
    requires InTable(nodes, depth) && n < |nodes|
    ensures nodes[n] in depth && nodes[..n + 1] == nodes[..n] + [nodes[n]]
  {
    assert nodes[n] in nodes;
  }

  method BuildLayers(nodes: seq<Id>, depth: map<Id, nat>) returns (layers: Layers)
    requires InTable(nodes, depth)
    ensures IsLayering(nodes, depth, layers)
  {
    layers := [];
    for n := 0 to |nodes|
      invariant InTable(nodes[..n], depth) && IsLayering(nodes[..n], depth, layers)
    {
      NextNode(nodes, depth, n);
      PutLayers(nodes[..n], depth, layers, nodes[n]);
      layers := Put(layers, depth[nodes[n]], nodes[n]);
    }
    assert nodes[..|nodes|] == nodes;
  }

  ghost predicate Dense(layers: Layers) {
    forall l | 0 <= l < |layers| :: layers[l].Some?
  }

  lemma {:induction false} LevelBelow(g: Graph, depth: map<Id, nat>, id: Id, l: nat) returns (lower: Id)
    requires AllGrounded(g, depth) && id in depth && 1 <= l <= depth[id]
    ensures lower in depth && depth[lower] == l
    decreases depth[id]
  {
    if l == depth[id] {
      return id;
    }
    assert HasParentAt(g, depth, id, depth[id] - 1);
    var p :| p in depth && Depends(g, p, id) && depth[p] == depth[id] - 1;
    lower := LevelBelow(g, depth, p, l);
  }

  ghost predicate HasRoot(g: Graph) {
    exists id | id in g.nodes :: IsRoot(g, id)
  }

  lemma LayerFilled(nodes: seq<Id>, depth: map<Id, nat>, layers: Layers, l: nat)
    requires InTable(nodes, depth) && IsLayering(nodes, depth, layers) && l < |layers|
    ensures layers[l].Some? <==> Filled(nodes, depth, l)
  {
    var ids := Layer(nodes, depth, l);
    LayerMembers(nodes, depth, l);
    assert IsLayer(ids, layers[l]);
    if ids != [] {
      Inhabited(ids);
    }
  }

  lemma TopReaches(g: Graph, depth: map<Id, nat>, top: nat, l: nat)
    requires depth.Keys == Ids(g.nodes) && AllGrounded(g, depth) && Filled(g.nodes, depth, top) && 1 <= l <= top
    ensures Filled(g.nodes, depth, l)
  {
    var id :| id in g.nodes && depth[id] == top;
    var lower := LevelBelow(g, depth, id, l);
  }

  /** On any graph, cyclic or not, only layer 0 can be empty. */
  lemma OnlyFirstLayerEmpty(g: Graph, depth: map<Id, nat>, layers: Layers, l: nat)
    requires depth.Keys == Ids(g.nodes) && AllGrounded(g, depth) && IsLayering(g.nodes, depth, layers)
    requires 1 <= l < |layers|
    ensures layers[l].Some?
  {
    LayerFilled(g.nodes, depth, layers, |layers| - 1);
    TopReaches(g, depth, |layers| - 1, l);
    LayerFilled(g.nodes, depth, layers, l);
  }

  lemma RootsAreAtZero(g: Graph, depth: map<Id, nat>)
    requires depth.Keys == Ids(g.nodes) && AllGrounded(g, depth)
    ensures Filled(g.nodes, depth, 0) <==> HasRoot(g)
  {
    forall id | id in g.nodes ensures depth[id] == 0 <==> IsRoot(g, id) {
      assert Grounded(g, depth, id);
    }
  }

  lemma DenseFromFirst(g: Graph, depth: map<Id, nat>, layers: Layers)
    requires depth.Keys == Ids(g.nodes) && AllGrounded(g, depth) && IsLayering(g.nodes, depth, layers) && layers != []
    ensures Dense(layers) <==> layers[0].Some?
  {
    forall l | 1 <= l < |layers| ensures layers[l].Some? {
      OnlyFirstLayerEmpty(g, depth, layers, l);
    }
  }

  lemma SomeLayer(nodes: seq<Id>, depth: map<Id, nat>, layers: Layers)
    requires InTable(nodes, depth) && IsLayering(nodes, depth, layers)
    ensures layers == [] <==> nodes == []
  {
    if nodes != [] {
      assert nodes[0] in nodes;
    }
    if layers != [] {
      LayerFilled(nodes, depth, layers, |layers| - 1);
    }
  }

  /** No layer is empty exactly when there is no node at all or some node depends on none. */
  lemma LayersDenseIff(g: Graph, depth: map<Id, nat>, layers: Layers)
    requires depth.Keys == Ids(g.nodes) && AllGrounded(g, depth) && IsLayering(g.nodes, depth, layers)
    ensures Dense(layers) <==> g.nodes == [] || HasRoot(g)
  {
    SomeLayer(g.nodes, depth, layers);
    RootsAreAtZero(g, depth);
    if layers != [] {
      LayerFilled(g.nodes, depth, layers, 0);
      DenseFromFirst(g, depth, layers);
    }
  }

  /** An acyclic graph with a node has a root. */
  lemma AcyclicHasRoot(g: Graph, depth: map<Id, nat>)
    requires depth.Keys == Ids(g.nodes) && AllGrounded(g, depth) && AllStepped(g, depth) && g.nodes != []
    ensures HasRoot(g)
  {
    var root := RootAbove(g, depth, g.nodes[0]);
  }

  lemma {:induction false} RootAbove(g: Graph, depth: map<Id, nat>, id: Id) returns (root: Id)
    requires AllStepped(g, depth) && AllGrounded(g, depth) && id in depth
    ensures root in depth && root in g.nodes && IsRoot(g, root)
    decreases if id in depth then depth[id] else 0
  {
    if depth[id] == 0 {
      return id;
    }
    assert HasParentAt(g, depth, id, depth[id] - 1);
    var p :| p in depth && Depends(g, p, id) && depth[p] == depth[id] - 1;
    root := RootAbove(g, depth, p);
  }

  // ---------------------------------------------------------------- positions

  datatype Spot = Spot(x: int, y: int)

  const BOX_WIDTH := 190
  const BOX_HEIGHT := 60

  function SpotAt(level: int, index: int): Spot {
    Spot(20 + level * 240, 20 + index * 92)
  }

  predicate IsEntry(layers: Layers, level: int, index: int, id: Id) {
    0 <= level < |layers| && layers[level].Some? && 0 <= index < |layers[level].value|
      && layers[level].value[index] == id
  }

  /** `id` is drawn where one of its entries in the layers stands. */
  ghost predicate Placed(layers: Layers, id: Id, spot: Spot) {
    exists level, index | IsEntry(layers, level, index, id) :: spot == SpotAt(level, index)
  }

  ghost predicate AllPlaced(layers: Layers, positions: map<Id, Spot>) {
    forall id | id in positions :: Placed(layers, id, positions[id])
  }

  /** Every entry before the given one, in the order of levels and then indices, has a position. */
  ghost predicate Entered(layers: Layers, positions: map<Id, Spot>, level: int, index: int) {
    forall l, i, id | (l < level || (l == level && i < index)) && IsEntry(layers, l, i, id) :: id in positions
  }

  /** No entry of the id that stands before the given place stands after this one. */
  ghost predicate NoneBetween(layers: Layers, id: Id, level: int, index: int, toLevel: int, toIndex: int) {
    forall l, i | IsEntry(layers, l, i, id) && (l < toLevel || (l == toLevel && i < toIndex)) ::
      l < level || (l == level && i <= index)
  }

  /** Every id has the place of the last of its entries before the given place. */
  ghost predicate LastPlaced(layers: Layers, positions: map<Id, Spot>, toLevel: int, toIndex: int) {
    forall id | id in positions ::
      exists level, index | IsEntry(layers, level, index, id) ::
        positions[id] == SpotAt(level, index) && NoneBetween(layers, id, level, index, toLevel, toIndex)
  }

  lemma PlaceNext(layers: Layers, positions: map<Id, Spot>, level: int, index: int, id: Id)
    requires LastPlaced(layers, positions, level, index) && IsEntry(layers, level, index, id)
    ensures LastPlaced(layers, positions[id := SpotAt(level, index)], level, index + 1)
  {
    var next := positions[id := SpotAt(level, index)];
    forall other | other in next
      ensures exists l, i | IsEntry(layers, l, i, other) ::
        next[other] == SpotAt(l, i) && NoneBetween(layers, other, l, i, level, index + 1) {
      if other == id {
        assert NoneBetween(layers, id, level, index, level, index + 1);
      } else {
        var l, i :| IsEntry(layers, l, i, other) && positions[other] == SpotAt(l, i)
          && NoneBetween(layers, other, l, i, level, index);
        assert NoneBetween(layers, other, l, i, level, index + 1);
      }
    }
  }

  lemma NextLevel(layers: Layers, positions: map<Id, Spot>, level: int, index: int)
    requires LastPlaced(layers, positions, level, index) && 0 <= level < |layers|
    requires index == if layers[level].Some? then |layers[level].value| else 0
    ensures LastPlaced(layers, positions, level + 1, 0)
  {
    forall id | id in positions
      ensures exists l, i | IsEntry(layers, l, i, id) ::
        positions[id] == SpotAt(l, i) && NoneBetween(layers, id, l, i, level + 1, 0) {
      var l, i :| IsEntry(layers, l, i, id) && positions[id] == SpotAt(l, i)
        && NoneBetween(layers, id, l, i, level, index);
      assert NoneBetween(layers, id, l, i, level + 1, 0);
    }
  }

  method BuildPositions(layers: Layers) returns (positions: map<Id, Spot>)
    ensures AllPlaced(layers, positions) && Entered(layers, positions, |layers|, 0)
    ensures LastPlaced(layers, positions, |layers|, 0)
  {
    positions := map[];
    for level := 0 to |layers|
      invariant AllPlaced(layers, positions) && Entered(layers, positions, level, 0)
      invariant LastPlaced(layers, positions, level, 0)
    {
      if layers[level].Some? {
        var layer := layers[level].value;
        for index := 0 to |layer|
          invariant AllPlaced(layers, positions) && Entered(layers, positions, level, index)
          invariant LastPlaced(layers, positions, level, index)
        {
          PlaceNext(layers, positions, level, index, layer[index]);
          assert IsEntry(layers, level, index, layer[index]);
          positions := positions[layer[index] := SpotAt(level, index)];
        }
        NextLevel(layers, positions, level, |layer|);
      } else {
        NextLevel(layers, positions, level, 0);
      }
    }
  }

  predicate Overlap(a: Spot, b: Spot) {
    -BOX_WIDTH < a.x - b.x < BOX_WIDTH && -BOX_HEIGHT < a.y - b.y < BOX_HEIGHT
  }

  /** The boxes of two ids are drawn apart. */
  lemma BoxesDisjoint(layers: Layers, a: Id, b: Id, at: Spot, bt: Spot)
    requires Placed(layers, a, at) && Placed(layers, b, bt) && a != b
    ensures at != bt && !Overlap(at, bt)
  {
    var l1, i1 :| IsEntry(layers, l1, i1, a) && at == SpotAt(l1, i1);
    var l2, i2 :| IsEntry(layers, l2, i2, b) && bt == SpotAt(l2, i2);
    assert l1 != l2 || i1 != i2;
  }

  lemma EntryAtDepth(nodes: seq<Id>, depth: map<Id, nat>, layers: Layers, l: nat, i: nat, id: Id)
    requires InTable(nodes, depth) && IsLayering(nodes, depth, layers) && IsEntry(layers, l, i, id)
    ensures id in nodes && depth[id] == l
  {
    var ids := Layer(nodes, depth, l);
    assert IsLayer(ids, layers[l]);
    LayerMembers(nodes, depth, l);
    assert ids[i] in ids;
  }

  /** A box stands in the column of its depth. */
  lemma ColumnIsDepth(nodes: seq<Id>, depth: map<Id, nat>, layers: Layers, id: Id, spot: Spot)
    requires InTable(nodes, depth) && IsLayering(nodes, depth, layers) && Placed(layers, id, spot)
    ensures id in nodes && spot.x == 20 + depth[id] * 240
  {
    var l, i :| IsEntry(layers, l, i, id) && spot == SpotAt(l, i);
    EntryAtDepth(nodes, depth, layers, l, i, id);
  }

  lemma EveryNodeEntered(nodes: seq<Id>, depth: map<Id, nat>, layers: Layers, id: Id, positions: map<Id, Spot>)
    requires InTable(nodes, depth) && IsLayering(nodes, depth, layers) && id in nodes
    requires Entered(layers, positions, |layers|, 0)
    ensures id in positions
  {
    var l := depth[id];
    var ids := Layer(nodes, depth, l);
    LayerMembers(nodes, depth, l);
    assert IsLayer(ids, layers[l]);
    var index :| 0 <= index < |ids| && ids[index] == id;
    assert IsEntry(layers, l, index, id);
  }

  lemma PositionsAreNodes(nodes: seq<Id>, depth: map<Id, nat>, layers: Layers, positions: map<Id, Spot>)
    requires InTable(nodes, depth) && IsLayering(nodes, depth, layers)
    requires AllPlaced(layers, positions) && Entered(layers, positions, |layers|, 0)
    ensures positions.Keys == Ids(nodes)
    ensures InColumns(nodes, depth, positions)
  {
    forall id | id in nodes ensures id in positions {
      EveryNodeEntered(nodes, depth, layers, id, positions);
    }
    forall id | id in positions ensures id in nodes && positions[id].x == 20 + depth[id] * 240 {
      ColumnIsDepth(nodes, depth, layers, id, positions[id]);
    }
  }

  ghost predicate InColumns(nodes: seq<Id>, depth: map<Id, nat>, positions: map<Id, Spot>) {
    forall id | id in nodes :: id in positions && id in depth && positions[id].x == 20 + depth[id] * 240
  }

  /** No two ids are drawn over each other. */
  ghost predicate Apart(positions: map<Id, Spot>) {
    forall a, b | a in positions && b in positions && a != b :: !Overlap(positions[a], positions[b])
  }

  lemma AllApart(layers: Layers, positions: map<Id, Spot>)
    requires AllPlaced(layers, positions)
    ensures Apart(positions)
  {
    forall a, b | a in positions && b in positions && a != b ensures !Overlap(positions[a], positions[b]) {
      BoxesDisjoint(layers, a, b, positions[a], positions[b]);
    }
  }

  // ---------------------------------------------------------------- the page

  /** The longest layer, at least 1; a hole in the array makes the maximum no number. */
  function Tallest(layers: Layers): Option<nat> {
    if layers == [] then Some(1)
    else
      var rest := Tallest(layers[..|layers| - 1]);
      var last := layers[|layers| - 1];
      if last.None? || rest.None? then None else Some(if |last.value| > rest.value then |last.value| else rest.value)
  }

  lemma {:induction false} TallestIff(layers: Layers)
    ensures Tallest(layers).Some? <==> Dense(layers)
    ensures forall l | Tallest(layers).Some? && 0 <= l < |layers| ::
      layers[l].Some? && |layers[l].value| <= Tallest(layers).value
  {
    if layers != [] {
      var rest := layers[..|layers| - 1];
      TallestIff(rest);
      assert forall l | 0 <= l < |rest| :: layers[l] == rest[l];
    }
  }

  function Max(a: int, b: int): int {
    if a > b then a else b
  }

  datatype Layout = Layout(layers: Layers, positions: map<Id, Spot>, width: int, height: Option<int>)

  predicate IsInside(l: Layout, spot: Spot) {
    && 0 <= spot.x && spot.x + BOX_WIDTH <= l.width
    && (l.height.Some? ==> 0 <= spot.y && spot.y + BOX_HEIGHT <= l.height.value)
  }

  /** Every box lies inside the drawing. */
  ghost predicate Inside(l: Layout) {
    forall id | id in l.positions :: IsInside(l, l.positions[id])
  }

  lemma BoxInside(layers: Layers, id: Id, spot: Spot)
    requires Placed(layers, id, spot)
    ensures 0 <= spot.x && spot.x + BOX_WIDTH <= Max(340, |layers| * 240 + 20)
    ensures Tallest(layers).Some? ==> 0 <= spot.y && spot.y + BOX_HEIGHT <= Max(120, Tallest(layers).value * 92 + 20)
  {
    TallestIff(layers);
  }

  lemma AllInside(l: Layout)
    requires AllPlaced(l.layers, l.positions) && l.width == Max(340, |l.layers| * 240 + 20)
    requires l.height == if Tallest(l.layers).Some? then Some(Max(120, Tallest(l.layers).value * 92 + 20)) else None
    ensures Inside(l)
  {
    forall id | id in l.positions ensures IsInside(l, l.positions[id]) {
      assert Placed(l.layers, id, l.positions[id]);
      BoxInside(l.layers, id, l.positions[id]);
    }
  }

  // ---------------------------------------------------------------- rows, and the size of the page

  /** The nodes of a column that stand before node `n` on the page. */
  function Above(nodes: seq<Id>, depth: map<Id, nat>, n: nat): set<nat>
    requires InTable(nodes, depth) && n < |nodes|
  {
    set k: nat | k < n && depth[nodes[k]] == depth[nodes[n]]
  }

  ghost predicate IsLastOf(nodes: seq<Id>, n: nat, id: Id) {
    n < |nodes| && nodes[n] == id && forall k | n < k < |nodes| :: nodes[k] != id
  }

  /** Every node stands below the nodes of its column that come before it; of equal ids the last one counts. */
  ghost predicate InRows(nodes: seq<Id>, depth: map<Id, nat>, positions: map<Id, Spot>)
    requires InTable(nodes, depth)
  {
    forall n: nat, id | IsLastOf(nodes, n, id) && id in positions ::
      positions[id] == Spot(20 + 240 * depth[id], 20 + 92 * |Above(nodes, depth, n)|)
  }

  /** `at` are the places on the page of a column's nodes, in order. */
  ghost predicate IsColumnAt(nodes: seq<Id>, depth: map<Id, nat>, level: nat, ids: seq<Id>, at: seq<nat>)
    requires InTable(nodes, depth)
  {
    && |at| == |ids|
    && (forall i | 0 <= i < |at| :: at[i] < |nodes| && nodes[at[i]] == ids[i] && depth[nodes[at[i]]] == level)
    && (forall i, j | 0 <= i < j < |at| :: at[i] < at[j])
    && (forall k: nat | k < |nodes| && depth[nodes[k]] == level :: k in at)
  }

  lemma ColumnAfter(nodes: seq<Id>, depth: map<Id, nat>, level: nat, ids: seq<Id>, at: seq<nat>, id: Id)
    requires InTable(nodes, depth) && InTable(nodes + [id], depth) && IsColumnAt(nodes, depth, level, ids, at)
    ensures depth[id] == level ==> IsColumnAt(nodes + [id], depth, level, ids + [id], at + [|nodes|])
    ensures depth[id] != level ==> IsColumnAt(nodes + [id], depth, level, ids, at)
  {
    var all, next := nodes + [id], at + [|nodes|];
    assert all[|nodes|] == id && next[|at|] == |nodes|;
    forall k: nat | k < |all| && depth[all[k]] == level
      ensures if depth[id] == level then k in next else k in at {
      if k < |nodes| {
        assert all[k] == nodes[k];
        assert k in at;
      }
    }
  }

  lemma {:induction false} LayerAt(nodes: seq<Id>, depth: map<Id, nat>, level: nat) returns (at: seq<nat>)
    requires InTable(nodes, depth)
    ensures IsColumnAt(nodes, depth, level, Layer(nodes, depth, level), at)
  {
    at := [];
    if nodes != [] {
      var n := |nodes| - 1;
      var front, id := nodes[..n], nodes[n];
      assert nodes == front + [id];
      at := LayerAt(front, depth, level);
      ColumnAfter(front, depth, level, Layer(front, depth, level), at, id);
      if depth[id] == level {
        at := at + [n];
      } else {
        assert Layer(front, depth, level) + [] == Layer(front, depth, level);
      }
    }
  }

  lemma {:induction false} CountUpTo(at: seq<nat>, i: nat, before: set<nat>)
    requires i <= |at| && (forall k, l | 0 <= k < l < |at| :: at[k] < at[l])
    requires forall k :: k in before <==> k in at[..i]
    ensures |before| == i
    decreases i
  {
    if i == 0 {
      assert before == {};
    } else {
      assert at[..i] == at[..i - 1] + [at[i - 1]];
      assert at[i - 1] in at[..i];
      CountUpTo(at, i - 1, before - {at[i - 1]});
    }
  }

  lemma RowOf(nodes: seq<Id>, depth: map<Id, nat>, layers: Layers, positions: map<Id, Spot>, n: nat, id: Id)
    requires InTable(nodes, depth) && IsLayering(nodes, depth, layers) && LastPlaced(layers, positions, |layers|, 0)
    requires IsLastOf(nodes, n, id) && id in positions
    ensures positions[id] == Spot(20 + 240 * depth[id], 20 + 92 * |Above(nodes, depth, n)|)
  {
    var level, index :| IsEntry(layers, level, index, id) && positions[id] == SpotAt(level, index)
      && NoneBetween(layers, id, level, index, |layers|, 0);
    EntryAtDepth(nodes, depth, layers, level, index, id);
    var at := LayerAt(nodes, depth, level);
    var ids := Layer(nodes, depth, level);
    assert IsLayer(ids, layers[level]);
    var i :| 0 <= i < |at| && at[i] == n;
    assert IsEntry(layers, level, i, id);
    LastInColumn(nodes, depth, level, ids, at, n, id, i, index);
  }

  lemma LastInColumn(nodes: seq<Id>, depth: map<Id, nat>, level: nat, ids: seq<Id>, at: seq<nat>, n: nat, id: Id,
          i: nat, index: nat)
    requires InTable(nodes, depth) && IsColumnAt(nodes, depth, level, ids, at) && IsLastOf(nodes, n, id)
    requires i <= index < |at| && at[i] == n && ids[index] == id
    ensures i == index == |Above(nodes, depth, n)|
  {
    assert nodes[at[index]] == id;
    assert at[index] <= n;
    forall k: nat ensures k in Above(nodes, depth, n) <==> k in at[..i] {
      if k in Above(nodes, depth, n) {
        var j :| 0 <= j < |at| && at[j] == k;
        assert at[..i][j] == k;
      }
    }
    CountUpTo(at, i, Above(nodes, depth, n));
  }

  ghost predicate IsWide(positions: map<Id, Spot>, width: int) {
    && width >= 340 && (forall id | id in positions :: positions[id].x + 240 <= width)
    && (width > 340 ==> exists id :: id in positions && positions[id].x + 240 == width)
  }

  ghost predicate IsHigh(positions: map<Id, Spot>, height: int) {
    && height >= 120 && (forall id | id in positions :: positions[id].y + 92 <= height)
    && (height > 120 ==> exists id :: id in positions && positions[id].y + 92 == height)
  }

  /** The page is as wide and high as its boxes need, with room beside them, but never smaller than a minimum. */
  ghost predicate IsTight(l: Layout) {
    && IsWide(l.positions, l.width)
    && (l.height.Some? ==> IsHigh(l.positions, l.height.value))
  }

  lemma {:induction false} TallestReached(layers: Layers) returns (level: nat)
    requires Tallest(layers).Some? && Tallest(layers).value > 1
    ensures level < |layers| && layers[level].Some? && |layers[level].value| == Tallest(layers).value
    decreases |layers|
  {
    level := |layers| - 1;
    if |layers[level].value| != Tallest(layers).value {
      level := TallestReached(layers[..level]);
    }
  }

  /** The last entry of a layer keeps its place: its id stands in no other layer, and nowhere after it. */
  lemma LastOfLayer(nodes: seq<Id>, depth: map<Id, nat>, layers: Layers, positions: map<Id, Spot>, level: nat)
    requires InTable(nodes, depth) && IsLayering(nodes, depth, layers)
    requires LastPlaced(layers, positions, |layers|, 0) && Entered(layers, positions, |layers|, 0)
    requires level < |layers| && layers[level].Some? && layers[level].value != []
    ensures var last := |layers[level].value| - 1; var id := layers[level].value[last];
      id in positions && positions[id] == SpotAt(level, last)
  {
    var last := |layers[level].value| - 1;
    var id := layers[level].value[last];
    assert IsEntry(layers, level, last, id);
    var l, i :| IsEntry(layers, l, i, id) && positions[id] == SpotAt(l, i)
      && NoneBetween(layers, id, l, i, |layers|, 0);
    EntryAtDepth(nodes, depth, layers, level, last, id);
    EntryAtDepth(nodes, depth, layers, l, i, id);
  }

  lemma WidthIsTight(nodes: seq<Id>, depth: map<Id, nat>, layers: Layers, positions: map<Id, Spot>, width: int)
    requires InTable(nodes, depth) && IsLayering(nodes, depth, layers) && AllPlaced(layers, positions)
    requires LastPlaced(layers, positions, |layers|, 0) && Entered(layers, positions, |layers|, 0)
    requires width == Max(340, |layers| * 240 + 20)
    ensures IsWide(positions, width)
  {
    forall id | id in positions ensures positions[id].x + 240 <= width {
      assert Placed(layers, id, positions[id]);
    }
    if layers != [] {
      assert IsLayer(Layer(nodes, depth, |layers| - 1), layers[|layers| - 1]);
      LastOfLayer(nodes, depth, layers, positions, |layers| - 1);
    }
  }

  lemma RowFits(layers: Layers, id: Id, spot: Spot)
    requires Placed(layers, id, spot) && Tallest(layers).Some?
    ensures spot.y + 92 <= Tallest(layers).value * 92 + 20
  {
    TallestIff(layers);
    var level, index :| IsEntry(layers, level, index, id) && spot == SpotAt(level, index);
  }

  lemma LowestBox(nodes: seq<Id>, depth: map<Id, nat>, layers: Layers, positions: map<Id, Spot>) returns (id: Id)
    requires InTable(nodes, depth) && IsLayering(nodes, depth, layers)
    requires LastPlaced(layers, positions, |layers|, 0) && Entered(layers, positions, |layers|, 0)
    requires Tallest(layers).Some?
    ensures Tallest(layers).value > 1 ==>
      id in positions && positions[id].y + 92 == Tallest(layers).value * 92 + 20
  {
    id := Id("");
    if Tallest(layers).value > 1 {
      var level := TallestReached(layers);
      LastOfLayer(nodes, depth, layers, positions, level);
      id := layers[level].value[|layers[level].value| - 1];
    }
  }

  lemma RowsFit(layers: Layers, positions: map<Id, Spot>)
    requires AllPlaced(layers, positions) && Tallest(layers).Some?
    ensures forall id | id in positions :: positions[id].y + 92 <= Tallest(layers).value * 92 + 20
  {
    forall id | id in positions ensures positions[id].y + 92 <= Tallest(layers).value * 92 + 20 {
      RowFits(layers, id, positions[id]);
    }
  }

  lemma HeightIsTight(positions: map<Id, Spot>, tallest: nat, lowest: Id)
    requires forall id | id in positions :: positions[id].y + 92 <= tallest * 92 + 20
    requires tallest > 1 ==> lowest in positions && positions[lowest].y + 92 == tallest * 92 + 20
    ensures IsHigh(positions, Max(120, tallest * 92 + 20))
  {}

  lemma PageIsHigh(nodes: seq<Id>, depth: map<Id, nat>, layers: Layers, positions: map<Id, Spot>)
    requires InTable(nodes, depth) && IsLayering(nodes, depth, layers) && AllPlaced(layers, positions)
    requires LastPlaced(layers, positions, |layers|, 0) && Entered(layers, positions, |layers|, 0)
    requires Tallest(layers).Some?
    ensures IsHigh(positions, Max(120, Tallest(layers).value * 92 + 20))
  {
    var lowest := LowestBox(nodes, depth, layers, positions);
    RowsAreHigh(layers, positions, lowest);
  }

  lemma RowsAreHigh(layers: Layers, positions: map<Id, Spot>, lowest: Id)
    requires AllPlaced(layers, positions) && Tallest(layers).Some?
    requires Tallest(layers).value > 1 ==>
      lowest in positions && positions[lowest].y + 92 == Tallest(layers).value * 92 + 20
    ensures IsHigh(positions, Max(120, Tallest(layers).value * 92 + 20))
  {
    RowsFit(layers, positions);
    HeightIsTight(positions, Tallest(layers).value, lowest);
  }

  function Page(layers: Layers, positions: map<Id, Spot>): Layout {
    Layout(layers, positions, Max(340, |layers| * 240 + 20),
      if Tallest(layers).Some? then Some(Max(120, Tallest(layers).value * 92 + 20)) else None)
  }

  lemma PageIsTight(nodes: seq<Id>, depth: map<Id, nat>, layers: Layers, positions: map<Id, Spot>)
    requires InTable(nodes, depth) && IsLayering(nodes, depth, layers) && AllPlaced(layers, positions)
    requires LastPlaced(layers, positions, |layers|, 0) && Entered(layers, positions, |layers|, 0)
    ensures IsTight(Page(layers, positions))
  {
    WidthIsTight(nodes, depth, layers, positions, Max(340, |layers| * 240 + 20));
    if Tallest(layers).Some? {
      PageIsHigh(nodes, depth, layers, positions);
    }
  }

  lemma AllInRows(nodes: seq<Id>, depth: map<Id, nat>, layers: Layers, positions: map<Id, Spot>)
    requires InTable(nodes, depth) && IsLayering(nodes, depth, layers) && LastPlaced(layers, positions, |layers|, 0)
    ensures InRows(nodes, depth, positions)
  {
    forall n: nat, id | IsLastOf(nodes, n, id) && id in positions
      ensures positions[id] == Spot(20 + 240 * depth[id], 20 + 92 * |Above(nodes, depth, n)|) {
      RowOf(nodes, depth, layers, positions, n, id);
    }
  }

  /** Which dependencies are drawn forward, and the longest chains. */
  lemma AcyclicDepths(g: Graph, depth: map<Id, nat>)
    requires depth.Keys == Ids(g.nodes) && (Acyclic(g) ==> AllStepped(g, depth))
    ensures Acyclic(g) <==> DrawnForward(g, depth)
    ensures AllDrawnForward(g, depth) <==> Acyclic(g) && UncountedLonger(g)
    ensures Acyclic(g) ==> forall id | id in g.nodes :: IsLongest(g, id, depth[id])
  {
    DrawnSplits(g, depth);
    if Acyclic(g) {
      UncountedIff(g, depth);
    }
    if DrawnForward(g, depth) {
      ForwardOnlyIfAcyclic(g, depth);
    }
    if Acyclic(g) {
      forall id | id in g.nodes ensures IsLongest(g, id, depth[id]) {
        DepthIsLongestPath(g, depth, id);
      }
    }
  }

  /** Without a drawn edge from the empty id, every drawn edge goes forward exactly when the graph has no cycle. */
  lemma CountedOnly(g: Graph, depth: map<Id, nat>)
    requires depth.Keys == Ids(g.nodes) && (Acyclic(g) ==> AllStepped(g, depth))
    requires forall e | Drawn(g, e) :: e.from.text != ""
    ensures AllDrawnForward(g, depth) <==> Acyclic(g)
  {
    AcyclicDepths(g, depth);
  }

  /**
   * The whole layout. Every counted dependency is drawn from a column to a later one exactly when the
   * graph has no cycle, and then the columns are the lengths of the longest dependency chains. Every drawn
   * edge is, exactly when besides every one from the empty id, which is not counted, leads to a node with a
   * longer chain of dependencies. On any graph the boxes lie apart. The height is a number exactly when some
   * node has no dependency, or there is none at all; then they lie inside the drawing too.
   */
  method TaskGraphLayout(g: Graph) returns (layout: Layout, depth: map<Id, nat>)
    ensures layout.positions.Keys == Ids(g.nodes) == depth.Keys && InColumns(g.nodes, depth, layout.positions)
    ensures IsLayering(g.nodes, depth, layout.layers) && AllPlaced(layout.layers, layout.positions)
    ensures Apart(layout.positions) && Inside(layout) && AllGrounded(g, depth)
    ensures InRows(g.nodes, depth, layout.positions) && IsTight(layout)
    ensures Acyclic(g) <==> DrawnForward(g, depth)
    ensures AllDrawnForward(g, depth) <==> Acyclic(g) && UncountedLonger(g)
    ensures Acyclic(g) ==> forall id | id in g.nodes :: IsLongest(g, id, depth[id])
    ensures layout.height.Some? <==> g.nodes == [] || HasRoot(g)
    ensures Acyclic(g) ==> layout.height.Some?
  {
    depth := Depths(g);
    layout := PlaceNodes(g.nodes, depth);
    AcyclicDepths(g, depth);
    HeightIsNumber(g, depth, layout.layers);
  }

  method PlaceNodes(nodes: seq<Id>, depth: map<Id, nat>) returns (layout: Layout)
    requires InTable(nodes, depth)
    ensures layout.positions.Keys == Ids(nodes) && InColumns(nodes, depth, layout.positions)
    ensures IsLayering(nodes, depth, layout.layers) && AllPlaced(layout.layers, layout.positions)
    ensures Apart(layout.positions) && Inside(layout)
    ensures InRows(nodes, depth, layout.positions) && IsTight(layout)
    ensures layout.height.Some? <==> Tallest(layout.layers).Some?
  {
    var layers := BuildLayers(nodes, depth);
    var positions := BuildPositions(layers);
    var tallest := Tallest(layers);
    var height := if tallest.Some? then Some(Max(120, tallest.value * 92 + 20)) else None;
    layout := Layout(layers, positions, Max(340, |layers| * 240 + 20), height);
    PositionsAreNodes(nodes, depth, layers, positions);
    PageIsGood(nodes, depth, layers, positions);
  }

  lemma PageIsGood(nodes: seq<Id>, depth: map<Id, nat>, layers: Layers, positions: map<Id, Spot>)
    requires InTable(nodes, depth) && IsLayering(nodes, depth, layers) && AllPlaced(layers, positions)
    requires LastPlaced(layers, positions, |layers|, 0) && Entered(layers, positions, |layers|, 0)
    ensures Apart(positions) && InRows(nodes, depth, positions)
    ensures Inside(Page(layers, positions)) && IsTight(Page(layers, positions))
  {
    AllApart(layers, positions);
    AllInside(Page(layers, positions));
    PageIsTight(nodes, depth, layers, positions);
    AllInRows(nodes, depth, layers, positions);
  }

  lemma HeightIsNumber(g: Graph, depth: map<Id, nat>, layers: Layers)
    requires depth.Keys == Ids(g.nodes) && AllGrounded(g, depth) && IsLayering(g.nodes, depth, layers)
    requires Acyclic(g) ==> AllStepped(g, depth)
    ensures Tallest(layers).Some? <==> g.nodes == [] || HasRoot(g)
    ensures Acyclic(g) ==> Tallest(layers).Some?
  {
    TallestIff(layers);
    LayersDenseIff(g, depth, layers);
    if Acyclic(g) && g.nodes != [] {
      AcyclicHasRoot(g, depth);
    }
  }

  // ---------------------------------------------------------------- where the layout surprises

  const UNCOUNTED := Graph([Id(""), Id("a")], [Edge(Id(""), Id("a"))])

  lemma EmptyIdHasNoDependents(g: Graph)
    requires g == UNCOUNTED
    ensures Acyclic(g) && IsRoot(g, Id("")) && IsRoot(g, Id("a"))
  {
    forall p: seq<Id> | |p| >= 2 ensures !Path(g, p) {
      assert !Depends(g, p[0], p[0 + 1]);
    }
  }

  /** An edge from the empty id is drawn, and in every layout of this graph it runs within the first column. */
  lemma EmptyIdIsNotCounted(depth: map<Id, nat>, positions: map<Id, Spot>)
    requires depth.Keys == Ids(UNCOUNTED.nodes) && AllGrounded(UNCOUNTED, depth)
      && InColumns(UNCOUNTED.nodes, depth, positions)
    ensures Acyclic(UNCOUNTED) && Drawn(UNCOUNTED, Edge(Id(""), Id("a"))) && !AllDrawnForward(UNCOUNTED, depth)
    ensures Id("") in positions && Id("a") in positions && positions[Id("")].x == positions[Id("a")].x == 20
  {
    var g := UNCOUNTED;
    EmptyIdHasNoDependents(g);
    assert Id("") in g.nodes && Id("a") in g.nodes;
    assert Grounded(g, depth, Id("")) && Grounded(g, depth, Id("a"));
    assert Drawn(g, Edge(Id(""), Id("a")));
  }

  /** Two nodes that depend on each other leave the first column empty, and the drawing without a height. */
  lemma MutualDependencyHasNoRoot()
    ensures var g := Graph([Id("d"), Id("e")], [Edge(Id("d"), Id("e")), Edge(Id("e"), Id("d"))]);
      g.nodes != [] && !HasRoot(g)
  {
    var g := Graph([Id("d"), Id("e")], [Edge(Id("d"), Id("e")), Edge(Id("e"), Id("d"))]);
    assert Depends(g, Id("d"), Id("e"));
    assert Depends(g, Id("e"), Id("d"));
  }
}
