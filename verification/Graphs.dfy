/** The dataflow graph of node types, and the cone of nodes that a walk along `outputs` reaches. */
module Graphs {
  import opened Reachability

  /** A node is keyed by the address of its message descriptor. */
  datatype NodeKey = NodeKey(address: nat)

  /** `inputs[(c, f)] == p` when field `f` of `c` holds node type `p`;
      `outputs[(p, c)]` is the one field of `c` that a walk fills from `p`. */
  datatype Graph = Graph(
    nodes: set<NodeKey>,
    inputs: map<(NodeKey, nat), NodeKey>,
    outputs: map<(NodeKey, NodeKey), nat>)

  ghost predicate WellFormed(g: Graph) {
    && (forall c, f :: (c, f) in g.inputs ==>
          c in g.nodes && g.inputs[(c, f)] in g.nodes && (g.inputs[(c, f)], c) in g.outputs)
    && (forall p, c {:trigger g.outputs[(p, c)]} :: (p, c) in g.outputs ==>
          p in g.nodes && c in g.nodes && (c, g.outputs[(p, c)]) in g.inputs && g.inputs[(c, g.outputs[(p, c)])] == p)
  }

  /** Levels that grow along every edge, below a common bound. */
  datatype Ranking = Ranking(level: map<NodeKey, nat>, bound: nat)

  ghost predicate IsRanking(g: Graph, r: Ranking) {
    && (forall t :: t in g.nodes ==> t in r.level && r.level[t] < r.bound)
    && (forall c, f :: (c, f) in g.inputs ==>
          g.inputs[(c, f)] in r.level && c in r.level && r.level[g.inputs[(c, f)]] < r.level[c])
  }

  ghost predicate Acyclic(g: Graph) {
    exists r :: IsRanking(g, r)
  }

  ghost predicate Dag(g: Graph) {
    WellFormed(g) && Acyclic(g)
  }

  ghost function RankingOf(g: Graph): (r: Ranking)
    requires Acyclic(g)
    ensures IsRanking(g, r)
  {
    var r :| IsRanking(g, r); r
  }

  ghost function Level(g: Graph, t: NodeKey): nat
    requires Dag(g) && t in g.nodes
  {
    RankingOf(g).level[t]
  }

  ghost function Height(g: Graph, t: NodeKey): nat
    requires Dag(g) && t in g.nodes
  {
    RankingOf(g).bound - RankingOf(g).level[t]
  }

  ghost function InputFields(g: Graph, t: NodeKey): (fs: set<nat>)
    ensures forall f :: f in fs <==> (t, f) in g.inputs
  {
    set e | e in g.inputs && e.0 == t :: e.1
  }

  ghost function OutputsOf(g: Graph, t: NodeKey): (cs: set<NodeKey>)
    ensures forall c :: c in cs <==> (t, c) in g.outputs
  {
    set e | e in g.outputs && e.0 == t :: e.1
  }

  ghost predicate IsSource(g: Graph, t: NodeKey) {
    forall f :: (t, f) !in g.inputs
  }

  ghost predicate IsLeaf(g: Graph, t: NodeKey) {
    forall c :: (t, c) !in g.outputs
  }

  /** The field of `c` that walks keep equal to its parent's message. */
  ghost predicate Linked(g: Graph, c: NodeKey, f: nat) {
    && (c, f) in g.inputs
    && (g.inputs[(c, f)], c) in g.outputs
    && g.outputs[(g.inputs[(c, f)], c)] == f
  }

  ghost function Successors(g: Graph): map<NodeKey, set<NodeKey>> {
    map k | k in g.nodes :: OutputsOf(g, k)
  }

  /** Everything reachable from `k` along `outputs`, `k` included. */
  ghost function Cone(g: Graph, k: NodeKey): set<NodeKey> {
    set n | n in g.nodes && Reaches(Successors(g), k, n)
  }

  ghost function Cones(g: Graph, ks: set<NodeKey>): set<NodeKey> {
    set k, n | k in ks && n in Cone(g, k) :: n
  }

  /** A set of nodes that no edge leaves. */
  ghost predicate Closed(g: Graph, r: set<NodeKey>) {
    r <= g.nodes && forall p, c :: (p, c) in g.outputs && p in r ==> c in r
  }

  ghost function Leaves(g: Graph, r: set<NodeKey>): set<NodeKey> {
    set n | n in r && IsLeaf(g, n)
  }

  lemma ConeClosed(g: Graph, k: NodeKey)
    requires WellFormed(g) && k in g.nodes
    ensures k in Cone(g, k) && Closed(g, Cone(g, k))
  {
    ReachesSelf(Successors(g), k);
    forall p, c | (p, c) in g.outputs && p in Cone(g, k) ensures c in Cone(g, k) {
      ReachesStep(Successors(g), k, p, c);
    }
  }

  /** A cone is its root and the cones of the root's outputs. */
  lemma ConeUnfolds(g: Graph, k: NodeKey)
    requires WellFormed(g) && k in g.nodes
    ensures Cone(g, k) == {k} + Cones(g, OutputsOf(g, k))
  {
    ConeClosed(g, k);
    forall n | n in Cone(g, k) && n != k ensures n in Cones(g, OutputsOf(g, k)) {
      var c := ReachesFirst(Successors(g), k, n);
      assert n in Cone(g, c);
    }
    forall c, n | c in OutputsOf(g, k) && n in Cone(g, c) ensures n in Cone(g, k) {
      ReachesSelf(Successors(g), k);
      ReachesStep(Successors(g), k, k, c);
      ReachesTransitive(Successors(g), k, c, n);
    }
  }

  /** Levels strictly grow from the root of a cone, so a cone never comes back to an ancestor. */
  lemma ConeLevels(g: Graph, k: NodeKey, n: NodeKey)
    requires Dag(g) && k in g.nodes && n in Cone(g, k)
    ensures n == k || Level(g, k) < Level(g, n)
  {
    var above := set t | t in g.nodes && (t == k || Level(g, k) < Level(g, t));
    forall t, u | t in above && t in Successors(g) && u in Successors(g)[t] ensures u in above {
      LevelsGrow(g, t, u);
    }
    ReachesWithin(Successors(g), above, k, n);
  }

  /** A node of a cone other than its root has an input inside the cone. */
  lemma ConeEnteredFromInside(g: Graph, k: NodeKey, n: NodeKey) returns (f: nat)
    requires WellFormed(g) && k in g.nodes && n in Cone(g, k) && n != k
    ensures Linked(g, n, f) && g.inputs[(n, f)] in Cone(g, k)
  {
    var p := ReachesLast(Successors(g), k, n);
    f := g.outputs[(p, n)];
  }

  lemma LevelsGrow(g: Graph, p: NodeKey, c: NodeKey)
    requires Dag(g) && (p, c) in g.outputs
    ensures Level(g, p) < Level(g, c) && Height(g, c) < Height(g, p)
  {
    assert g.inputs[(c, g.outputs[(p, c)])] == p;
  }

  lemma LinkedLevels(g: Graph, c: NodeKey, f: nat)
    requires Dag(g) && Linked(g, c, f)
    ensures g.inputs[(c, f)] != c && c in g.nodes && g.inputs[(c, f)] in g.nodes
  {
    LevelsGrow(g, g.inputs[(c, f)], c);
  }

  lemma EdgeEnds(g: Graph, p: NodeKey, c: NodeKey)
    requires WellFormed(g) && (p, c) in g.outputs
    ensures p in g.nodes && c in g.nodes
  {
    assert (c, g.outputs[(p, c)]) in g.inputs;
  }
}
