/** Growing the graph while types are discovered from a sink. */
module Building {
  import opened Messages
  import opened Graphs
  import opened Schemas
  import opened Evaluation
  import opened Propagation
  import opened Reachability

  /** The node types that feed each type. */
  ghost function TypeSuccessors(schema: Schema): map<NodeKey, set<NodeKey>> {
    map t | t in schema ::
      set f: nat | f < |schema[t].fields| && InputField(schema, t, f) :: schema[t].fields[f].kind.of
  }

  /** `outputs` keeps, for each pair of types, the first field that joins them. */
  ghost predicate FirstFields(g: Graph)
    requires WellFormed(g)
  {
    forall c, f :: (c, f) in g.inputs ==> g.outputs[(g.inputs[(c, f)], c)] <= f
  }

  /** The first `n` fields of `t` are reflected in the graph, and none of them is a node in a `oneof`. */
  ghost predicate CompleteUpTo(schema: Schema, g: Graph, t: NodeKey, n: nat) {
    && (forall f: nat :: (t, f) in g.inputs <==> f < n && InputField(schema, t, f))
    && (forall f: nat :: f < n && InputField(schema, t, f) ==>
          (t, f) in g.inputs && g.inputs[(t, f)] == schema[t].fields[f].kind.of)
    && (forall f: nat :: f < n ==> !NodeInOneof(schema, t, f))
  }

  ghost predicate Complete(schema: Schema, g: Graph, t: NodeKey) {
    t in schema && CompleteUpTo(schema, g, t, |schema[t].fields|)
  }

  ghost predicate SameInputs(g: Graph, g': Graph, t: NodeKey) {
    && (forall f :: (t, f) in g.inputs <==> (t, f) in g'.inputs)
    && (forall f :: (t, f) in g.inputs && (t, f) in g'.inputs ==> g.inputs[(t, f)] == g'.inputs[(t, f)])
  }

  ghost predicate Sound(schema: Schema, g: Graph, h: Nodes) {
    Shaped(g, h) && FirstFields(g) && forall t :: t in g.nodes ==> t in schema && schema[t].isNode
  }

  /** From `g` to `g'`: old nodes keep their inputs and what they hold, new ones other than `open` are
      complete, blank, and recorded as sources when nothing feeds them. */
  ghost predicate Grown(schema: Schema, g: Graph, h: Nodes, sources: set<NodeKey>,
                        g': Graph, h': Nodes, sources': set<NodeKey>, open: set<NodeKey>) {
    && Sound(schema, g, h) && Sound(schema, g', h')
    && g.nodes <= g'.nodes
    && (forall t {:trigger SameInputs(g, g', t)} :: t in g.nodes ==> SameInputs(g, g', t))
    && (forall t {:trigger Complete(schema, g', t)} :: t in g'.nodes - g.nodes - open ==> Complete(schema, g', t))
    && (forall t {:trigger h'[t]} :: t in g'.nodes ==> h'[t] == if t in g.nodes then h[t] else Held(DEFAULT, false))
    && (forall t :: t in sources' <==> t in sources || (t in g'.nodes - g.nodes - open && IsSource(g', t)))
  }

  /** Everything new was found by following input fields from `key`. */
  ghost predicate FoundFrom(schema: Schema, key: NodeKey, g: Graph, g': Graph) {
    forall t :: t in g'.nodes - g.nodes ==> Reaches(TypeSuccessors(schema), key, t)
  }

  lemma SameInputsComplete(schema: Schema, g: Graph, g': Graph, t: NodeKey, n: nat)
    requires SameInputs(g, g', t) && CompleteUpTo(schema, g, t, n)
    ensures CompleteUpTo(schema, g', t, n)
  {
  }

  lemma GrownNowhere(schema: Schema, g: Graph, h: Nodes, sources: set<NodeKey>, key: NodeKey)
    requires Sound(schema, g, h)
    ensures Grown(schema, g, h, sources, g, h, sources, {}) && FoundFrom(schema, key, g, g)
  {
  }

  function AddNode(g: Graph, key: NodeKey): Graph {
    g.(nodes := g.nodes + {key})
  }

  /** `inputs.emplace` and `outputs.emplace`: an output that is already there stays. */
  function AddEdge(g: Graph, p: NodeKey, c: NodeKey, f: nat): Graph {
    g.(inputs := g.inputs[(c, f) := p], outputs := if (p, c) in g.outputs then g.outputs else g.outputs[(p, c) := f])
  }

  lemma GrownByNode(schema: Schema, g: Graph, h: Nodes, sources: set<NodeKey>, key: NodeKey)
    requires Sound(schema, g, h) && key in schema && schema[key].isNode && key !in g.nodes
    ensures var g', h' := AddNode(g, key), h[key := Held(DEFAULT, false)];
      && Grown(schema, g, h, sources, g', h', sources, {key})
      && FoundFrom(schema, key, g, g') && CompleteUpTo(schema, g', key, 0)
  {
    ReachesSelf(TypeSuccessors(schema), key);
    var g' := AddNode(g, key);
    assert forall f :: (key, f) !in g.inputs;
    forall t | t in g.nodes ensures SameInputs(g, g', t) {}
  }

  /** A recursive call composes with what was built before it. */
  lemma GrownCompose(schema: Schema, g0: Graph, h0: Nodes, src0: set<NodeKey>, g1: Graph, h1: Nodes, src1: set<NodeKey>,
                     g2: Graph, h2: Nodes, src2: set<NodeKey>, key: NodeKey, child: NodeKey)
    requires Grown(schema, g0, h0, src0, g1, h1, src1, {key}) && Grown(schema, g1, h1, src1, g2, h2, src2, {})
    requires FoundFrom(schema, key, g0, g1) && FoundFrom(schema, child, g1, g2)
    requires key in g1.nodes && Reaches(TypeSuccessors(schema), key, child)
    ensures Grown(schema, g0, h0, src0, g2, h2, src2, {key}) && FoundFrom(schema, key, g0, g2)
  {
    forall t | t in g0.nodes ensures SameInputs(g0, g2, t) {
      assert SameInputs(g0, g1, t) && SameInputs(g1, g2, t);
    }
    forall t | t in g1.nodes - g0.nodes - {key}
      ensures Complete(schema, g2, t) && (IsSource(g1, t) == IsSource(g2, t))
    {
      assert Complete(schema, g1, t) && SameInputs(g1, g2, t);
      SameInputsComplete(schema, g1, g2, t, |schema[t].fields|);
    }
    forall t | t in g2.nodes - g1.nodes ensures Reaches(TypeSuccessors(schema), key, t) {
      ReachesTransitive(TypeSuccessors(schema), key, child, t);
    }
  }

  /** Recording the next input field of the node under construction. */
  lemma GrownByEdge(schema: Schema, g0: Graph, h0: Nodes, src0: set<NodeKey>, g1: Graph, h1: Nodes, src1: set<NodeKey>,
                    key: NodeKey, i: nat, p: NodeKey)
    requires Grown(schema, g0, h0, src0, g1, h1, src1, {key}) && FoundFrom(schema, key, g0, g1)
    requires key in g1.nodes - g0.nodes && p in g1.nodes && CompleteUpTo(schema, g1, key, i)
    requires InputField(schema, key, i) && schema[key].fields[i].kind.of == p
    ensures var g2 := AddEdge(g1, p, key, i);
      && Grown(schema, g0, h0, src0, g2, h1, src1, {key}) && FoundFrom(schema, key, g0, g2)
      && CompleteUpTo(schema, g2, key, i + 1) && g2.nodes == g1.nodes
  {
    var g2 := AddEdge(g1, p, key, i);
    EdgeKeepsSound(schema, g1, h1, key, i, p);
    forall t | t in g1.nodes && t != key ensures SameInputs(g1, g2, t) {}
    forall t | t in g0.nodes ensures SameInputs(g0, g2, t) {
      assert SameInputs(g0, g1, t) && SameInputs(g1, g2, t);
    }
    forall t | t in g2.nodes - g0.nodes - {key}
      ensures Complete(schema, g2, t) && (IsSource(g1, t) == IsSource(g2, t))
    {
      assert Complete(schema, g1, t) && SameInputs(g1, g2, t);
      SameInputsComplete(schema, g1, g2, t, |schema[t].fields|);
    }
  }

  lemma EdgeKeepsSound(schema: Schema, g: Graph, h: Nodes, key: NodeKey, i: nat, p: NodeKey)
    requires Sound(schema, g, h) && key in g.nodes && p in g.nodes
    requires forall f :: (key, f) in g.inputs ==> f < i
    ensures Sound(schema, AddEdge(g, p, key, i), h)
  {
    var g' := AddEdge(g, p, key, i);
    forall q, c | (q, c) in g'.outputs
      ensures q in g.nodes && c in g.nodes
      ensures (c, g'.outputs[(q, c)]) in g'.inputs && g'.inputs[(c, g'.outputs[(q, c)])] == q
    {
      if (q, c) in g.outputs {
        assert (c, g.outputs[(q, c)]) in g.inputs;
      }
    }
  }

  /** A field that is neither an input nor refused leaves the node as complete as it was. */
  lemma CompleteSkip(schema: Schema, g: Graph, key: NodeKey, i: nat)
    requires CompleteUpTo(schema, g, key, i) && !InputField(schema, key, i) && !NodeInOneof(schema, key, i)
    ensures CompleteUpTo(schema, g, key, i + 1)
  {
  }

  /** ... and so does building another type, on which the node under construction is already in the table. */
  lemma CompleteKept(schema: Schema, g1: Graph, h1: Nodes, src1: set<NodeKey>, g2: Graph, h2: Nodes, src2: set<NodeKey>,
                     key: NodeKey, n: nat)
    requires Grown(schema, g1, h1, src1, g2, h2, src2, {}) && key in g1.nodes && CompleteUpTo(schema, g1, key, n)
    ensures key in g2.nodes && CompleteUpTo(schema, g2, key, n)
  {
    assert SameInputs(g1, g2, key);
    SameInputsComplete(schema, g1, g2, key, n);
  }

  lemma ChildReached(schema: Schema, key: NodeKey, i: nat)
    requires InputField(schema, key, i)
    ensures Reaches(TypeSuccessors(schema), key, schema[key].fields[i].kind.of)
  {
    ReachesSelf(TypeSuccessors(schema), key);
    ReachesStep(TypeSuccessors(schema), key, key, schema[key].fields[i].kind.of);
  }

  /** Some type found on the way from `key` has a node inside a `oneof`. */
  ghost predicate OneofReached(schema: Schema, key: NodeKey) {
    exists t, f :: Reaches(TypeSuccessors(schema), key, t) && NodeInOneof(schema, t, f)
  }

  lemma OneofHere(schema: Schema, key: NodeKey, f: nat)
    requires NodeInOneof(schema, key, f)
    ensures OneofReached(schema, key)
  {
    ReachesSelf(TypeSuccessors(schema), key);
  }

  lemma OneofBelow(schema: Schema, key: NodeKey, i: nat)
    requires InputField(schema, key, i) && OneofReached(schema, schema[key].fields[i].kind.of)
    ensures OneofReached(schema, key)
  {
    var child := schema[key].fields[i].kind.of;
    var t, f :| Reaches(TypeSuccessors(schema), child, t) && NodeInOneof(schema, t, f);
    ChildReached(schema, key, i);
    ReachesTransitive(TypeSuccessors(schema), key, child, t);
  }

  /** The node under construction becomes complete. */
  lemma GrownFinished(schema: Schema, g0: Graph, h0: Nodes, src0: set<NodeKey>, g1: Graph, h1: Nodes,
                      src1: set<NodeKey>, key: NodeKey)
    requires Grown(schema, g0, h0, src0, g1, h1, src1, {key})
    requires key in schema && key in g1.nodes - g0.nodes && CompleteUpTo(schema, g1, key, |schema[key].fields|)
    ensures Grown(schema, g0, h0, src0, g1, h1, if IsSource(g1, key) then src1 + {key} else src1, {})
  {
  }

  /** The edges into `c` are determined by its inputs, so building leaves old edges alone. */
  lemma EdgesDetermined(g: Graph, g': Graph, p: NodeKey, c: NodeKey)
    requires WellFormed(g) && WellFormed(g') && FirstFields(g) && FirstFields(g') && SameInputs(g, g', c)
    ensures (p, c) in g.outputs <==> (p, c) in g'.outputs
    ensures (p, c) in g.outputs ==> g.outputs[(p, c)] == g'.outputs[(p, c)]
  {
    if (p, c) in g.outputs {
      var f := g.outputs[(p, c)];
      assert (c, f) in g.inputs && (c, f) in g'.inputs && g'.inputs[(c, f)] == p;
      var f' := g'.outputs[(p, c)];
      assert (c, f') in g.inputs && g.inputs[(c, f')] == p;
    }
    if (p, c) in g'.outputs {
      var f' := g'.outputs[(p, c)];
      assert (c, f') in g.inputs && g.inputs[(c, f')] == p;
    }
  }

  /** A finished graph: all nodes complete, and exactly those the sinks reach. */
  ghost predicate Finished(schema: Schema, g: Graph, sinks: set<NodeKey>) {
    && ClosedSchema(schema) && WellFormed(g) && FirstFields(g)
    && (forall t {:trigger Complete(schema, g, t)} :: t in g.nodes ==> Complete(schema, g, t))
    && (forall t :: t in g.nodes <==> ReachedFrom(schema, sinks, t))
    && sinks <= g.nodes
  }

  ghost predicate ReachedFrom(schema: Schema, sinks: set<NodeKey>, t: NodeKey) {
    exists s :: s in sinks && Reaches(TypeSuccessors(schema), s, t)
  }

  /** The graph is a function of the schema and the set of sinks: the order in which sinks were added,
      and in which types were discovered, leaves no trace. */
  lemma FinishedIsUnique(schema: Schema, g: Graph, g': Graph, sinks: set<NodeKey>)
    requires Finished(schema, g, sinks) && Finished(schema, g', sinks)
    ensures g == g'
  {
    assert g.nodes == g'.nodes;
    forall c | c in g.nodes ensures SameInputs(g, g', c) && SameInputs(g', g, c) {
      assert Complete(schema, g, c) && Complete(schema, g', c);
    }
    hide Complete, ReachedFrom;
    EdgesIncluded(g, g');
    EdgesIncluded(g', g);
    assert g.inputs == g'.inputs && g.outputs == g'.outputs;
  }

  lemma EdgesIncluded(g: Graph, g': Graph)
    requires WellFormed(g) && WellFormed(g') && FirstFields(g) && FirstFields(g')
    requires forall c {:trigger SameInputs(g, g', c)} :: c in g.nodes ==> SameInputs(g, g', c)
    ensures g.inputs.Keys <= g'.inputs.Keys && forall e :: e in g.inputs ==> g.inputs[e] == g'.inputs[e]
    ensures g.outputs.Keys <= g'.outputs.Keys && forall e :: e in g.outputs ==> g.outputs[e] == g'.outputs[e]
  {
    forall e: (NodeKey, nat) | e in g.inputs ensures e in g'.inputs && g.inputs[e] == g'.inputs[e] {
      assert e == (e.0, e.1) && SameInputs(g, g', e.0);
    }
    forall e: (NodeKey, NodeKey) | e in g.outputs ensures e in g'.outputs && g.outputs[e] == g'.outputs[e] {
      assert e == (e.0, e.1);
      EdgeEnds(g, e.0, e.1);
      assert SameInputs(g, g', e.1);
      EdgesDetermined(g, g', e.0, e.1);
    }
  }

  lemma GrownComplete(schema: Schema, g0: Graph, h0: Nodes, src0: set<NodeKey>, g1: Graph, h1: Nodes,
                      src1: set<NodeKey>, sinks: set<NodeKey>, t: NodeKey)
    requires Finished(schema, g0, sinks) && Grown(schema, g0, h0, src0, g1, h1, src1, {}) && t in g1.nodes
    ensures Complete(schema, g1, t)
  {
    if t in g0.nodes {
      assert Complete(schema, g0, t) && SameInputs(g0, g1, t);
      SameInputsComplete(schema, g0, g1, t, |schema[t].fields|);
    }
  }

  lemma CompleteInputs(schema: Schema, g: Graph, t: NodeKey)
    requires Complete(schema, g, t)
    ensures forall f: nat :: f in InputFields(g, t) <==> InputField(schema, t, f)
  {
  }

  lemma CompleteEdge(schema: Schema, g: Graph, c: NodeKey, f: nat)
    requires Complete(schema, g, c) && (c, f) in g.inputs
    ensures InputField(schema, c, f) && g.inputs[(c, f)] == schema[c].fields[f].kind.of
  {
  }

  /** A graph of complete nodes holds everything its nodes reach. */
  lemma CompleteReaches(schema: Schema, g: Graph, s: NodeKey, t: NodeKey)
    requires WellFormed(g) && forall u {:trigger Complete(schema, g, u)} :: u in g.nodes ==> Complete(schema, g, u)
    requires s in g.nodes && Reaches(TypeSuccessors(schema), s, t)
    ensures t in g.nodes
  {
    forall u, v | u in g.nodes && u in TypeSuccessors(schema) && v in TypeSuccessors(schema)[u] ensures v in g.nodes {
      assert Complete(schema, g, u);
    }
    ReachesWithin(TypeSuccessors(schema), g.nodes, s, t);
  }

  /** Adding one more sink finishes the graph for the larger set of sinks. */
  lemma FinishedGrows(schema: Schema, g0: Graph, h0: Nodes, src0: set<NodeKey>, g1: Graph, h1: Nodes,
                      src1: set<NodeKey>, sinks: set<NodeKey>, key: NodeKey)
    requires Finished(schema, g0, sinks) && Grown(schema, g0, h0, src0, g1, h1, src1, {})
    requires FoundFrom(schema, key, g0, g1) && key in g1.nodes
    ensures Finished(schema, g1, sinks + {key})
  {
    hide TypeSuccessors, Complete, SameInputs, Reaches;
    forall t | t in g1.nodes ensures Complete(schema, g1, t) {
      GrownComplete(schema, g0, h0, src0, g1, h1, src1, sinks, t);
    }
    forall t | t in g1.nodes ensures ReachedFrom(schema, sinks + {key}, t) {
      if t in g0.nodes {
        assert ReachedFrom(schema, sinks, t);
      } else {
        assert key in sinks + {key} && Reaches(TypeSuccessors(schema), key, t);
      }
    }
    forall t | ReachedFrom(schema, sinks + {key}, t) ensures t in g1.nodes {
      var s :| s in sinks + {key} && Reaches(TypeSuccessors(schema), s, t);
      CompleteReaches(schema, g1, s, t);
    }
  }

  /** Old edges stay where they were. */
  lemma OldEdgeStays(schema: Schema, g0: Graph, h0: Nodes, src0: set<NodeKey>, g1: Graph, h1: Nodes, src1: set<NodeKey>,
                     p: NodeKey, c: NodeKey)
    requires Grown(schema, g0, h0, src0, g1, h1, src1, {}) && (p, c) in g0.outputs
    ensures (p, c) in g1.outputs && g1.outputs[(p, c)] == g0.outputs[(p, c)]
  {
    assert (c, g0.outputs[(p, c)]) in g0.inputs;
    assert SameInputs(g0, g1, c);
    EdgesDetermined(g0, g1, p, c);
  }

  /** A type discovered on the way from `key` feeds the type it was discovered from. */
  lemma NewNodeFeeds(schema: Schema, g0: Graph, h0: Nodes, src0: set<NodeKey>, g1: Graph, h1: Nodes, src1: set<NodeKey>,
                     sinks: set<NodeKey>, key: NodeKey, t: NodeKey)
    requires Finished(schema, g0, sinks) && Grown(schema, g0, h0, src0, g1, h1, src1, {})
    requires FoundFrom(schema, key, g0, g1) && key in g1.nodes && t in g1.nodes - g0.nodes && t != key
    ensures !IsLeaf(g1, t)
  {
    var u := ReachesLast(TypeSuccessors(schema), key, t);
    FinishedGrows(schema, g0, h0, src0, g1, h1, src1, sinks, key);
    CompleteReaches(schema, g1, key, u);
    assert Complete(schema, g1, u);
    var f: nat :| f < |schema[u].fields| && InputField(schema, u, f) && schema[u].fields[f].kind.of == t;
    assert (u, f) in g1.inputs;
    assert (t, u) in g1.outputs;
  }

  /** A leaf of the grown graph was a leaf already, or is the new sink itself. */
  lemma NewLeafIsKey(schema: Schema, g0: Graph, h0: Nodes, src0: set<NodeKey>, g1: Graph, h1: Nodes, src1: set<NodeKey>,
                     sinks: set<NodeKey>, key: NodeKey, t: NodeKey)
    requires Finished(schema, g0, sinks) && Grown(schema, g0, h0, src0, g1, h1, src1, {})
    requires FoundFrom(schema, key, g0, g1) && key in g1.nodes && t in g1.nodes && IsLeaf(g1, t)
    ensures (t in g0.nodes && IsLeaf(g0, t)) || t == key
  {
    if t in g0.nodes {
      forall c | (t, c) in g0.outputs ensures (t, c) in g1.outputs {
        OldEdgeStays(schema, g0, h0, src0, g1, h1, src1, t, c);
      }
    } else if t != key {
      NewNodeFeeds(schema, g0, h0, src0, g1, h1, src1, sinks, key, t);
    }
  }

  lemma FinishedHasNoOneof(schema: Schema, g: Graph, sinks: set<NodeKey>, key: NodeKey)
    requires Finished(schema, g, sinks) && key in g.nodes
    ensures !OneofReached(schema, key)
  {
    forall t, f: nat | Reaches(TypeSuccessors(schema), key, t) ensures !NodeInOneof(schema, t, f) {
      CompleteReaches(schema, g, key, t);
      assert Complete(schema, g, t);
    }
  }
}
