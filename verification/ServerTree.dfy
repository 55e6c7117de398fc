/** The reactive tree: its node table, the two walks of an update, and the sinks they feed. */
module ServerTrees {
  import opened Messages
  import opened Graphs
  import opened Schemas
  import opened Evaluation
  import opened Propagation
  import opened BlockingQueues
  import opened Building
  import opened Extending
  import opened Reachability

  /** A node of the table. Each node owns its message: other nodes hold copies of it. */
  datatype ServerNode =
    ServerNode(message: Message, inputs: map<nat, NodeKey>, outputs: map<NodeKey, nat>, valid: bool)

  type Table = map<NodeKey, ServerNode>

  /** Node `t` of the table has the edges of `g` and holds what `h` says. */
  ghost predicate NodeShape(nodes: Table, g: Graph, h: Nodes, t: NodeKey)
    requires t in nodes && t in h
  {
    && InputShape(nodes[t].inputs, g, t)
    && OutputShape(nodes[t].outputs, g, t)
    && h[t] == Held(nodes[t].message, nodes[t].valid)
  }

  ghost predicate InputShape(inputs: map<nat, NodeKey>, g: Graph, t: NodeKey) {
    && (forall f :: f in inputs <==> (t, f) in g.inputs)
    && (forall f :: f in inputs ==> g.inputs[(t, f)] == inputs[f])
  }

  ghost predicate OutputShape(outputs: map<NodeKey, nat>, g: Graph, t: NodeKey) {
    && (forall c :: c in outputs <==> (t, c) in g.outputs)
    && (forall c :: c in outputs ==> g.outputs[(t, c)] == outputs[c])
  }

  ghost predicate Represents(nodes: Table, g: Graph, h: Nodes) {
    && nodes.Keys == g.nodes == h.Keys
    && forall t {:trigger NodeShape(nodes, g, h, t)} :: t in nodes ==> NodeShape(nodes, g, h, t)
  }

  /** Every node without outputs is a registered sink. */
  ghost predicate LeavesAreSinks(g: Graph, sinks: set<NodeKey>) {
    forall t {:trigger LeafIsSink(g, sinks, t)} :: t in g.nodes ==> LeafIsSink(g, sinks, t)
  }

  ghost predicate LeafIsSink(g: Graph, sinks: set<NodeKey>, t: NodeKey) {
    IsLeaf(g, t) ==> t in sinks
  }

  /** Everything a walk relies on and keeps: an acyclic table that agrees with `g` and `h`, every leaf a
      sink, and compute functions that fit their types. */
  ghost predicate Ready(schema: Schema, nodes: Table, g: Graph, h: Nodes, sinks: set<NodeKey>,
                        cs: map<NodeKey, Computer>) {
    && Dag(g) && AllWellBehaved(g, cs)
    && Represents(nodes, g, h)
    && LeavesAreSinks(g, sinks)
    && (forall t, f :: (t, f) in g.inputs ==> t in schema && f < |schema[t].fields|)
    && (forall t, f :: t in cs && f in cs[t].writes ==> t in schema && f < |schema[t].fields|)
  }

  /** What a walk knows when it arrives at `key`. */
  lemma ReadyAt(schema: Schema, nodes: Table, g: Graph, h: Nodes, sinks: set<NodeKey>, cs: map<NodeKey, Computer>,
                key: NodeKey)
    requires Ready(schema, nodes, g, h, sinks, cs) && key in nodes
    ensures Dag(g) && Shaped(g, h) && key in g.nodes && key in h && h[key] == Held(nodes[key].message, nodes[key].valid)
    ensures nodes[key].inputs.Keys == InputFields(g, key)
    ensures nodes[key].outputs.Keys == OutputsOf(g, key)
    ensures nodes[key].outputs == map[] <==> IsLeaf(g, key)
    ensures IsLeaf(g, key) ==> key in sinks
    ensures AllWellBehaved(g, cs)
  {
    assert NodeShape(nodes, g, h, key) && LeafIsSink(g, sinks, key);
    assert nodes[key].outputs == map[] <==> nodes[key].outputs.Keys == {};
  }

  lemma ReadyOutput(schema: Schema, nodes: Table, g: Graph, h: Nodes, sinks: set<NodeKey>, cs: map<NodeKey, Computer>,
                    key: NodeKey, c: NodeKey)
    requires Ready(schema, nodes, g, h, sinks, cs) && key in nodes && c in nodes[key].outputs
    ensures c in nodes && (key, c) in g.outputs && g.outputs[(key, c)] == nodes[key].outputs[c]
    ensures Linked(g, c, nodes[key].outputs[c])
    ensures Dag(g) && key in g.nodes && c in g.nodes && Height(g, c) < Height(g, key)
  {
    assert NodeShape(nodes, g, h, key);
    LevelsGrow(g, key, c);
  }

  lemma ReadyInput(schema: Schema, nodes: Table, g: Graph, h: Nodes, sinks: set<NodeKey>, cs: map<NodeKey, Computer>,
                   key: NodeKey, f: nat)
    requires Ready(schema, nodes, g, h, sinks, cs) && key in nodes && Linked(g, key, f)
    ensures f in nodes[key].inputs && nodes[key].inputs[f] == g.inputs[(key, f)]
    ensures g.inputs[(key, f)] in nodes && g.inputs[(key, f)] in h
    ensures h[g.inputs[(key, f)]] == Held(nodes[g.inputs[(key, f)]].message, nodes[g.inputs[(key, f)]].valid)
    ensures key in schema && f < |schema[key].fields|
  {
    assert NodeShape(nodes, g, h, key) && NodeShape(nodes, g, h, g.inputs[(key, f)]);
  }

  /** The table's own reading of the input flags is the graph's. */
  lemma ReadyInputs(schema: Schema, nodes: Table, g: Graph, h: Nodes, sinks: set<NodeKey>, cs: map<NodeKey, Computer>,
                    key: NodeKey)
    requires Ready(schema, nodes, g, h, sinks, cs) && key in nodes
    ensures forall f :: f in nodes[key].inputs ==> nodes[key].inputs[f] in nodes
    ensures Shaped(g, h) && key in h
    ensures InputsValid(g, h, key) <==> forall f :: f in nodes[key].inputs ==> nodes[nodes[key].inputs[f]].valid
  {
    assert NodeShape(nodes, g, h, key);
    forall f | f in nodes[key].inputs
      ensures nodes[key].inputs[f] in nodes && g.inputs[(key, f)] == nodes[key].inputs[f]
    {
      assert (key, f) in g.inputs;
    }
    forall f | f in nodes[key].inputs ensures h[nodes[key].inputs[f]].valid == nodes[nodes[key].inputs[f]].valid {
      assert NodeShape(nodes, g, h, nodes[key].inputs[f]);
    }
  }

  /** Fields of a node lie within its type, so a pass over the descriptor meets them all. */
  lemma ReadyRange(schema: Schema, nodes: Table, g: Graph, h: Nodes, sinks: set<NodeKey>, cs: map<NodeKey, Computer>,
                   key: NodeKey, f: nat)
    requires Ready(schema, nodes, g, h, sinks, cs) && key in nodes && Bounded(g, cs, h) && Linked(g, key, f)
    ensures key in h && key in schema && forall f :: f in h[key].message.fields ==> f < |schema[key].fields|
  {
    assert NodeBounded(g, cs, h, key);
  }

  /** Replacing a node's message and flag keeps the table ready. */
  lemma ReadyReplaced(schema: Schema, nodes: Table, g: Graph, h: Nodes, sinks: set<NodeKey>, cs: map<NodeKey, Computer>,
                      key: NodeKey, message: Message, valid: bool)
    requires Ready(schema, nodes, g, h, sinks, cs) && key in nodes
    ensures Ready(schema, nodes[key := nodes[key].(message := message, valid := valid)], g,
                  h[key := Held(message, valid)], sinks, cs)
  {
    var nodes' := nodes[key := nodes[key].(message := message, valid := valid)];
    var h' := h[key := Held(message, valid)];
    forall t | t in nodes' ensures NodeShape(nodes', g, h', t) {
      assert NodeShape(nodes, g, h, t);
    }
  }

  lemma RepresentsNode(nodes: Table, g: Graph, h: Nodes, key: NodeKey)
    requires Represents(nodes, g, h) && WellFormed(g) && key !in nodes
    ensures Represents(nodes[key := ServerNode(DEFAULT, map[], map[], false)], AddNode(g, key),
                       h[key := Held(DEFAULT, false)])
  {
    var nodes' := nodes[key := ServerNode(DEFAULT, map[], map[], false)];
    assert forall f :: (key, f) !in g.inputs;
    forall p, c | (p, c) in g.outputs ensures p in g.nodes { EdgeEnds(g, p, c); }
    forall t | t in nodes' ensures NodeShape(nodes', AddNode(g, key), h[key := Held(DEFAULT, false)], t) {
      assert t != key ==> NodeShape(nodes, g, h, t);
    }
  }

  /** `inputs.emplace` on the child and `outputs.emplace` on the parent. */
  function Connect(nodes: Table, key: NodeKey, i: nat, p: NodeKey): Table
    requires key in nodes && p in nodes
  {
    var child := nodes[key := nodes[key].(inputs := nodes[key].inputs[i := p])];
    if key in child[p].outputs then child else child[p := child[p].(outputs := child[p].outputs[key := i])]
  }

  lemma RepresentsEdge(schema: Schema, nodes: Table, g: Graph, h: Nodes, key: NodeKey, i: nat, p: NodeKey)
    requires Represents(nodes, g, h) && key in g.nodes && p in g.nodes && CompleteUpTo(schema, g, key, i)
    ensures key in nodes && p in nodes && Represents(Connect(nodes, key, i, p), AddEdge(g, p, key, i), h)
  {
    assert NodeShape(nodes, g, h, key) && (key, i) !in g.inputs;
    hide NodeShape;
    forall t | t in nodes ensures NodeShape(Connect(nodes, key, i, p), AddEdge(g, p, key, i), h, t) {
      assert NodeShape(nodes, g, h, t) && NodeShape(nodes, g, h, p);
      EdgeShape(nodes, g, h, key, i, p, t);
    }
  }

  lemma EdgeShape(nodes: Table, g: Graph, h: Nodes, key: NodeKey, i: nat, p: NodeKey, t: NodeKey)
    requires key in nodes && p in nodes && (key, i) !in g.inputs && t in nodes && t in h && p in h
    requires NodeShape(nodes, g, h, t) && NodeShape(nodes, g, h, p)
    ensures NodeShape(Connect(nodes, key, i, p), AddEdge(g, p, key, i), h, t)
  {
    InputEdgeShape(nodes[t].inputs, g, key, i, p, t);
    OutputEdgeShape(nodes[t].outputs, g, key, i, p, t);
    OutputEdgeShape(nodes[p].outputs, g, key, i, p, p);
    assert key in nodes[p].outputs <==> (p, key) in g.outputs;
    hide InputShape, OutputShape, AddEdge;
  }

  lemma InputEdgeShape(inputs: map<nat, NodeKey>, g: Graph, key: NodeKey, i: nat, p: NodeKey, t: NodeKey)
    requires InputShape(inputs, g, t)
    ensures InputShape(if t == key then inputs[i := p] else inputs, AddEdge(g, p, key, i), t)
  {
  }

  lemma OutputEdgeShape(outputs: map<NodeKey, nat>, g: Graph, key: NodeKey, i: nat, p: NodeKey, t: NodeKey)
    requires OutputShape(outputs, g, t)
    ensures OutputShape(if t == p && key !in outputs then outputs[key := i] else outputs, AddEdge(g, p, key, i), t)
  {
  }

  lemma ClearedFromRoot(g: Graph, h1: Nodes, h2: Nodes, k: NodeKey, inputIndex: int)
    requires Dag(g) && k in g.nodes && k in h1 && k in h2 && h2[k] == h1[k]
    requires (IsLeaf(g, k) || Cleared(g, h2, Cones(g, OutputsOf(g, k)))) && (inputIndex >= 0 ==> Cleared(g, h1, {k}))
    ensures Cleared(g, h2, if inputIndex >= 0 then Cone(g, k) else Cone(g, k) - {k})
  {
    ConeUnfolds(g, k);
    assert IsLeaf(g, k) ==> OutputsOf(g, k) == {};
  }

  lemma GatheredBy(g: Graph, h: Nodes, k: NodeKey, inputIndex: int, m: Message)
    requires Shaped(g, h) && k in h && (inputIndex >= 0 ==> Linked(g, k, inputIndex))
    requires m == if inputIndex >= 0 then SetSub(h[k].message, inputIndex, h[g.inputs[(k, inputIndex)]].message)
                  else h[k].message
    ensures Gathered(g, h, k, if inputIndex >= 0 then {(k, inputIndex)} else {}, m)
  {
  }

  lemma SettleRuns(cs: map<NodeKey, Computer>, key: NodeKey, valid: bool, m: Message)
    ensures Settle(cs, key, valid, m) == if valid && key in cs then cs[key].run(m) else m
  {
  }

  lemma RecomputedSource(g: Graph, cs: map<NodeKey, Computer>, h: Nodes, h': Nodes, k: NodeKey)
    requires Shaped(g, h') && k in h && k in h' && Recomputed(g, cs, h, h', k)
    ensures IsSource(g, k) ==> h'[k] == Held(Settle(cs, k, true, h[k].message), true)
  {
  }

  lemma ValidGrowsTransitive(h0: Nodes, h1: Nodes, h2: Nodes)
    requires ValidGrows(h0, h1) && ValidGrows(h1, h2)
    ensures ValidGrows(h0, h2)
  {
  }

  lemma NothingStale(g: Graph, cs: map<NodeKey, Computer>, h: Nodes)
    requires Shaped(g, h)
    ensures AllFresh(g, cs, h, Cones(g, {})) && ValidGrows(h, h)
  {
  }

  /** What `build_node` answers: the key, null, or an exception. */
  datatype BuildResult = Node(key: NodeKey) | NotANode | NodeInsideOneof

  /** The graph is the closure of the registered sinks, and the tables agree with it. */
  ghost predicate BuiltTables(schema: Schema, nodes: Table, g: Graph, h: Nodes, sources: set<NodeKey>,
                              sinks: set<NodeKey>) {
    && Finished(schema, g, sinks)
    && Represents(nodes, g, h) && Sound(schema, g, h)
    && SourcesOf(g, sources)
    && LeavesAreSinks(g, sinks)
  }

  /** No two sinks share a queue: queues are typed by the message they carry. */
  ghost predicate OwnQueues(sinks: map<NodeKey, SinkData>) {
    forall a, b :: a in sinks && b in sinks && a != b ==> sinks[a].queue != sinks[b].queue
  }

  ghost predicate AllBlank(h: Nodes) {
    forall t :: t in h ==> h[t] == Held(DEFAULT, false)
  }

  lemma BuiltGrows(schema: Schema, nodes: Table, g0: Graph, h0: Nodes, src0: set<NodeKey>,
                   nodes': Table, g1: Graph, h1: Nodes, src1: set<NodeKey>, sinks: set<NodeKey>, key: NodeKey)
    requires BuiltTables(schema, nodes, g0, h0, src0, sinks) && Grown(schema, g0, h0, src0, g1, h1, src1, {})
    requires Represents(nodes', g1, h1) && FoundFrom(schema, key, g0, g1) && key in g1.nodes
    ensures BuiltTables(schema, nodes', g1, h1, src1, sinks + {key}) && !OneofReached(schema, key)
    ensures AllBlank(h0) ==> AllBlank(h1)
  {
    hide Finished, Represents, LeavesAreSinks, OneofReached, SourcesOf, Sound, Grown, AllBlank, FoundFrom;
    FinishedGrows(schema, g0, h0, src0, g1, h1, src1, sinks, key);
    FinishedHasNoOneof(schema, g1, sinks + {key}, key);
    LeavesStaySinks(schema, g0, h0, src0, g1, h1, src1, sinks, key);
    SourcesGrow(schema, g0, h0, src0, g1, h1, src1);
    BlankGrows(schema, g0, h0, src0, g1, h1, src1);
  }

  ghost predicate SourcesOf(g: Graph, sources: set<NodeKey>) {
    forall t :: t in sources <==> t in g.nodes && IsSource(g, t)
  }

  lemma SourcesGrow(schema: Schema, g0: Graph, h0: Nodes, src0: set<NodeKey>, g1: Graph, h1: Nodes, src1: set<NodeKey>)
    requires Grown(schema, g0, h0, src0, g1, h1, src1, {}) && SourcesOf(g0, src0)
    ensures SourcesOf(g1, src1) && Sound(schema, g1, h1)
  {
    forall t ensures t in src1 <==> t in g1.nodes && IsSource(g1, t) {
      assert t in g0.nodes ==> SameInputs(g0, g1, t);
    }
  }

  lemma BlankGrows(schema: Schema, g0: Graph, h0: Nodes, src0: set<NodeKey>, g1: Graph, h1: Nodes, src1: set<NodeKey>)
    requires Grown(schema, g0, h0, src0, g1, h1, src1, {})
    ensures AllBlank(h0) ==> AllBlank(h1)
  {
    if AllBlank(h0) {
      forall t | t in h1 ensures h1[t] == Held(DEFAULT, false) {
        assert t in g1.nodes;
      }
    }
  }

  lemma BuiltIsFinished(schema: Schema, nodes: Table, g: Graph, h: Nodes, sources: set<NodeKey>, sinks: set<NodeKey>)
    requires BuiltTables(schema, nodes, g, h, sources, sinks)
    ensures Finished(schema, g, sinks) && Shaped(g, h)
  {
  }

  lemma SameQueueSets(s: map<NodeKey, SinkData>, s': map<NodeKey, SinkData>)
    requires SameQueues(s, s')
    ensures (set k | k in s :: s[k].queue) == (set k | k in s' :: s'[k].queue)
  {
    forall k | k in s ensures s[k].queue == s'[k].queue {}
  }

  lemma BuiltIsSound(schema: Schema, nodes: Table, g: Graph, h: Nodes, sources: set<NodeKey>, sinks: set<NodeKey>)
    requires BuiltTables(schema, nodes, g, h, sources, sinks)
    ensures ClosedSchema(schema) && Represents(nodes, g, h) && Sound(schema, g, h)
  {
  }

  ghost predicate ComputableTables(schema: Schema, g: Graph, cs: map<NodeKey, Computer>) {
    && Acyclic(g) && AllWellBehaved(g, cs)
    && (forall t, f :: t in cs && f in cs[t].writes ==> t in schema && f < |schema[t].fields|)
  }

  lemma BuiltIsReady(schema: Schema, nodes: Table, g: Graph, h: Nodes, sources: set<NodeKey>, sinks: set<NodeKey>,
                     cs: map<NodeKey, Computer>)
    requires BuiltTables(schema, nodes, g, h, sources, sinks) && ComputableTables(schema, g, cs)
    ensures Ready(schema, nodes, g, h, sinks, cs)
    ensures Dag(g) && AllWellBehaved(g, cs) && Shaped(g, h)
  {
    forall t, f | (t, f) in g.inputs ensures t in schema && f < |schema[t].fields| {
      assert Complete(schema, g, t);
    }
  }

  /** Source nodes and registered sinks, as the tables record them. */
  lemma BuiltSource(schema: Schema, nodes: Table, g: Graph, h: Nodes, sources: set<NodeKey>, sinks: set<NodeKey>,
                    key: NodeKey)
    requires BuiltTables(schema, nodes, g, h, sources, sinks) && key in sources
    ensures key in nodes && key in h && key in g.nodes && IsSource(g, key)
    ensures Leaves(g, Cone(g, key)) <= sinks
    ensures h[key] == Held(nodes[key].message, nodes[key].valid)
  {
    assert NodeShape(nodes, g, h, key);
    forall t | t in Leaves(g, Cone(g, key)) ensures t in sinks {
      assert LeafIsSink(g, sinks, t);
    }
  }

  lemma BuiltKept(schema: Schema, nodes: Table, g: Graph, h: Nodes, sources: set<NodeKey>, sinks: set<NodeKey>,
                  nodes': Table, h': Nodes, cs: map<NodeKey, Computer>)
    requires BuiltTables(schema, nodes, g, h, sources, sinks) && Ready(schema, nodes', g, h', sinks, cs)
    ensures BuiltTables(schema, nodes', g, h', sources, sinks)
  {
  }

  /** Walks replace snapshots but never rewire a sink to another queue. */
  ghost predicate SameQueues(s: map<NodeKey, SinkData>, s': map<NodeKey, SinkData>) {
    s'.Keys == s.Keys && forall k :: k in s ==> s'[k].queue == s[k].queue
  }

  lemma QueuesKept(g: Graph, s: map<NodeKey, SinkData>, s': map<NodeKey, SinkData>, h: Nodes, h': Nodes,
                   updated: set<NodeKey>, r: set<NodeKey>, entries: set<Edge>)
    requires Walked(g, h, h', s, s', updated, r, entries)
    ensures SameQueues(s, s') && s'.Keys == s.Keys
    ensures OwnQueues(s) ==> OwnQueues(s')
    ensures updated == Leaves(g, r)
  {
    assert forall k :: k in s ==> s'[k].queue == s[k].queue;
  }

  lemma RefreshedQueues(g: Graph, cs: map<NodeKey, Computer>, b: Basis, key: NodeKey, sinks: map<NodeKey, SinkData>)
    requires Dag(g)
    ensures SameQueues(sinks, Refreshed(g, cs, b, key, sinks))
    ensures OwnQueues(sinks) ==> OwnQueues(Refreshed(g, cs, b, key, sinks))
  {
  }

  datatype AddOutcome = Added | AlreadyPresent | Refused

  lemma LeavesStaySinks(schema: Schema, g0: Graph, h0: Nodes, src0: set<NodeKey>, g1: Graph, h1: Nodes,
                        src1: set<NodeKey>, sinks: set<NodeKey>, key: NodeKey)
    requires Finished(schema, g0, sinks) && Grown(schema, g0, h0, src0, g1, h1, src1, {})
    requires FoundFrom(schema, key, g0, g1) && key in g1.nodes && LeavesAreSinks(g0, sinks)
    ensures LeavesAreSinks(g1, sinks + {key})
  {
    forall t | t in g1.nodes ensures LeafIsSink(g1, sinks + {key}, t) {
      if IsLeaf(g1, t) {
        NewLeafIsKey(schema, g0, h0, src0, g1, h1, src1, sinks, key, t);
        assert t != key ==> LeafIsSink(g0, sinks, t);
      }
    }
  }

  /** An output added to a current tree, as the tables record it. */
  lemma LateSinkIsCurrentIff(schema: Schema, nodes: Table, g0: Graph, h0: Nodes, src0: set<NodeKey>,
                             sinks: set<NodeKey>,
                             nodes': Table, g1: Graph, h1: Nodes, src1: set<NodeKey>, sinks': set<NodeKey>,
                             cs: map<NodeKey, Computer>, latest: map<NodeKey, Message>)
    requires BuiltTables(schema, nodes, g0, h0, src0, sinks) && BuiltTables(schema, nodes', g1, h1, src1, sinks')
    requires Grown(schema, g0, h0, src0, g1, h1, src1, {})
    ensures latest.Keys <= src0 && UpToDate(g0, cs, latest, h0) && ComputableTables(schema, g1, cs) ==>
      && Dag(g1) && latest.Keys <= src1
      && (UpToDate(g1, cs, latest, h1) <==> NewUntouched(g0, g1, latest.Keys))
  {
    if latest.Keys <= src0 && UpToDate(g0, cs, latest, h0) && ComputableTables(schema, g1, cs) {
      BuiltIsReady(schema, nodes', g1, h1, src1, sinks', cs);
      assert latest.Keys <= g0.nodes;
      hide BuiltTables, ComputableTables, HoldsEval, NewUntouched;
      LateOutputIsCurrentIff(schema, g0, h0, src0, g1, h1, src1, cs, latest);
    }
  }

  class ServerTree {
    const schema: Schema
    var nodes: Table
    var sources: set<NodeKey>
    var sinks: map<NodeKey, SinkData>
    var computers: map<NodeKey, Computer>

    /** The edges of the table. */
    ghost var graph: Graph

    /** What the table holds, apart from its edges. */
    ghost var held: Nodes

    /** The last message given to each source. */
    ghost var latest: map<NodeKey, Message>

    /** Builds the node of a type and of every type it depends on. */
    method BuildNode(key: NodeKey) returns (r: BuildResult)
      requires ClosedSchema(schema) && key in schema
      requires Represents(nodes, graph, held) && Sound(schema, graph, held)
      modifies this`nodes, this`graph, this`held, this`sources
      ensures r.NodeInsideOneof? ==> schema[key].isNode && OneofReached(schema, key)
      ensures !r.NodeInsideOneof? ==>
        && (r == if schema[key].isNode then Node(key) else NotANode)
        && Represents(nodes, graph, held)
        && Grown(schema, old(graph), old(held), old(sources), graph, held, sources, {})
        && FoundFrom(schema, key, old(graph), graph)
        && Sound(schema, graph, held)
      ensures r.Node? ==> key in graph.nodes
      ensures r.NotANode? ==> nodes == old(nodes) && graph == old(graph) && held == old(held) && sources == old(sources)
      decreases schema.Keys - nodes.Keys, 0
    {
      GrownNowhere(schema, graph, held, sources, key);
      if key in nodes {
        return Node(key);
      }
      if !schema[key].isNode {
        return NotANode;
      }
      ghost var g0, h0, src0 := graph, held, sources;
      AddBlankNode(key);
      for i := 0 to |schema[key].fields|
        invariant key in graph.nodes - g0.nodes && CompleteUpTo(schema, graph, key, i)
        invariant Represents(nodes, graph, held)
        invariant Grown(schema, g0, h0, src0, graph, held, sources, {key}) && FoundFrom(schema, key, g0, graph)
      {
        var field := schema[key].fields[i];
        if field.repeated || !field.kind.MessageOf? {
          CompleteSkip(schema, graph, key, i);
        } else if field.inOneof {
          if schema[field.kind.of].isNode {
            OneofHere(schema, key, i);
            return NodeInsideOneof;
          }
          CompleteSkip(schema, graph, key, i);
        } else {
          var refused := BuildInput(key, i, g0, h0, src0);
          if refused {
            return NodeInsideOneof;
          }
        }
      }
      GrownFinished(schema, g0, h0, src0, graph, held, sources, key);
      assert NodeShape(nodes, graph, held, key);
      if nodes[key].inputs == map[] {
        sources := sources + {key};
      }
      return Node(key);
    }

    method AddBlankNode(key: NodeKey)
      requires Represents(nodes, graph, held) && Sound(schema, graph, held)
      requires key in schema && schema[key].isNode && key !in nodes
      modifies this`nodes, this`graph, this`held
      ensures Represents(nodes, graph, held) && key in graph.nodes - old(graph.nodes) &&
        CompleteUpTo(schema, graph, key, 0)
      ensures Grown(schema, old(graph), old(held), sources, graph, held, sources, {key})
      ensures FoundFrom(schema, key, old(graph), graph)
    {
      GrownByNode(schema, graph, held, sources, key);
      RepresentsNode(nodes, graph, held, key);
      nodes := nodes[key := ServerNode(DEFAULT, map[], map[], false)];
      graph, held := AddNode(graph, key), held[key := Held(DEFAULT, false)];
    }

    /** One singular message field outside any `oneof` of the node under construction. */
    method BuildInput(key: NodeKey, i: nat, ghost g0: Graph, ghost h0: Nodes, ghost src0: set<NodeKey>)
      returns (refused: bool)
      requires ClosedSchema(schema) && key in schema && schema[key].isNode && i < |schema[key].fields|
      requires var field := schema[key].fields[i]; !field.repeated && field.kind.MessageOf? && !field.inOneof
      requires key in graph.nodes - g0.nodes && CompleteUpTo(schema, graph, key, i)
      requires Represents(nodes, graph, held) && Sound(schema, graph, held)
      requires Grown(schema, g0, h0, src0, graph, held, sources, {key}) && FoundFrom(schema, key, g0, graph)
      modifies this`nodes, this`graph, this`held, this`sources
      ensures refused ==> OneofReached(schema, key)
      ensures !refused ==>
        && key in graph.nodes - g0.nodes && CompleteUpTo(schema, graph, key, i + 1)
        && Represents(nodes, graph, held)
        && Grown(schema, g0, h0, src0, graph, held, sources, {key}) && FoundFrom(schema, key, g0, graph)
      decreases schema.Keys - nodes.Keys, 1
    {
      hide Represents, Grown, Sound, FoundFrom, CompleteUpTo, TypeSuccessors, Reaches, OneofReached, Connect, AddEdge;
      var child := schema[key].fields[i].kind.of;
      ghost var g1, h1, src1 := graph, held, sources;
      var input := BuildNode(child);
      match input {
        case NodeInsideOneof =>
          OneofBelow(schema, key, i);
          return true;
        case NotANode =>
          CompleteSkip(schema, graph, key, i);
        case Node(p) =>
          ChildReached(schema, key, i);
          CompleteKept(schema, g1, h1, src1, graph, held, sources, key, i);
          GrownCompose(schema, g0, h0, src0, g1, h1, src1, graph, held, sources, key, child);
          GrownByEdge(schema, g0, h0, src0, graph, held, sources, key, i, p);
          RepresentsEdge(schema, nodes, graph, held, key, i, p);
          nodes := Connect(nodes, key, i, p);
          graph := AddEdge(graph, p, key, i);
      }
      return false;
    }

    /** Clears every field that is not an input, and takes the parent's message at `inputIndex`. */
    static method RefreshMessage(message: Message, inputs: map<nat, NodeKey>, fieldCount: nat,
                                 inputIndex: nat, parent: Message)
      returns (refreshed: Message)
      requires inputIndex in inputs && inputIndex < fieldCount
      requires forall f :: f in message.fields ==> f < fieldCount
      ensures refreshed.fields.Keys <= inputs.Keys
      ensures inputIndex in refreshed.fields && refreshed.fields[inputIndex] == Sub(parent)
      ensures forall f :: f in inputs && f != inputIndex ==> SameField(message, refreshed, f)
    {
      refreshed := message;
      for i := 0 to fieldCount
        invariant forall f :: f in refreshed.fields ==> f < fieldCount && (f < i ==> f in inputs)
        invariant inputIndex < i ==> inputIndex in refreshed.fields && refreshed.fields[inputIndex] == Sub(parent)
        invariant forall f :: f in inputs && f != inputIndex ==> SameField(message, refreshed, f)
      {
        if i !in inputs {
          refreshed := Clear(refreshed, i);
        } else if inputIndex == i {
          refreshed := SetSub(refreshed, i, parent);
        }
      }
    }

    /** The visit of one node by the invalidate walk. */
    method ClearNode(key: NodeKey, inputIndex: nat)
      requires Ready(schema, nodes, graph, held, sinks.Keys, computers) && Bounded(graph, computers, held)
      requires key in nodes && Linked(graph, key, inputIndex)
      modifies this`nodes, this`held
      ensures Ready(schema, nodes, graph, held, sinks.Keys, computers) && Bounded(graph, computers, held)
      ensures Visited(graph, old(held), held, key, {(key, inputIndex)}) && Cleared(graph, held, {key})
      ensures nodes.Keys == old(nodes.Keys)
    {
      hide *;
      ReadyAt(schema, nodes, graph, held, sinks.Keys, computers, key);
      ReadyInput(schema, nodes, graph, held, sinks.Keys, computers, key, inputIndex);
      ReadyRange(schema, nodes, graph, held, sinks.Keys, computers, key, inputIndex);
      var node := nodes[key];
      var message := RefreshMessage(node.message, node.inputs, |schema[key].fields|, inputIndex,
                                    nodes[node.inputs[inputIndex]].message);
      ReadyReplaced(schema, nodes, graph, held, sinks.Keys, computers, key, message, false);
      ClearingVisit(graph, computers, held, key, inputIndex, message);
      nodes := nodes[key := node.(message := message, valid := false)];
      held := held[key := Held(message, false)];
    }

    method InvalidateNode(key: NodeKey, inputIndex: int) returns (updated: set<NodeKey>)
      requires Ready(schema, nodes, graph, held, sinks.Keys, computers) && Bounded(graph, computers, held)
      requires key in nodes
      requires inputIndex == -1 || (inputIndex >= 0 && Linked(graph, key, inputIndex))
      modifies this`nodes, this`held, this`sinks
      ensures Ready(schema, nodes, graph, held, sinks.Keys, computers) && Bounded(graph, computers, held)
      ensures nodes.Keys == old(nodes.Keys)
      ensures Walked(graph, old(held), held, old(sinks), sinks, updated, Cone(graph, key),
                     if inputIndex >= 0 then {(key, inputIndex)} else {})
      ensures Cleared(graph, held, if inputIndex >= 0 then Cone(graph, key) else Cone(graph, key) - {key})
      ensures inputIndex == -1 ==> held[key] == old(held)[key]
      decreases Height(graph, key), 1
    {
      hide *;
      ReadyAt(schema, nodes, graph, held, sinks.Keys, computers, key);
      ghost var entries: set<Edge> := if inputIndex >= 0 then {(key, inputIndex)} else {};
      ghost var h0 := held;
      VisitedUnchanged(graph, h0, key);
      if inputIndex > -1 {
        ClearNode(key, inputIndex);
      }
      ghost var h1, s1 := held, sinks;
      ReadyAt(schema, nodes, graph, held, sinks.Keys, computers, key);
      if nodes[key].outputs != map[] {
        updated := InvalidateOutputs(key);
        WalkedFromRoot(graph, h0, h1, held, s1, sinks, updated, key, entries);
        ClearedFromRoot(graph, h1, held, key, inputIndex);
        return;
      }
      // Without outputs, `key` is registered: its snapshot follows the node.
      WalkedAtLeaf(graph, h0, h1, sinks, key, entries);
      ClearedFromRoot(graph, h1, held, key, inputIndex);
      sinks := sinks[key := sinks[key].(data := nodes[key].message)];
      updated := {key};
      assert sinks.Keys == s1.Keys;
    }

    /** Invalidates all outputs of a node, in any order. */
    method InvalidateOutputs(key: NodeKey) returns (updated: set<NodeKey>)
      requires Ready(schema, nodes, graph, held, sinks.Keys, computers) && Bounded(graph, computers, held)
      requires key in nodes
      modifies this`nodes, this`held, this`sinks
      ensures Ready(schema, nodes, graph, held, sinks.Keys, computers) && Bounded(graph, computers, held)
      ensures nodes.Keys == old(nodes.Keys)
      ensures var below := OutputsOf(graph, key);
        && Walked(graph, old(held), held, old(sinks), sinks, updated, Cones(graph, below), OutEdges(graph, key, below))
        && Cleared(graph, held, Cones(graph, below))
      decreases Height(graph, key), 0
    {
      hide *;
      ReadyAt(schema, nodes, graph, held, sinks.Keys, computers, key);
      WalkedNowhere(graph, held, sinks, key);
      var outputs := nodes[key].outputs;
      forall c | c in outputs { ReadyOutput(schema, nodes, graph, held, sinks.Keys, computers, key, c); }
      var todo := outputs.Keys;
      ghost var done: set<NodeKey> := {};
      ghost var h0, s0 := held, sinks;
      updated := {};
      while todo != {}
        invariant done + todo == outputs.Keys && done !! todo
        invariant nodes.Keys == old(nodes.Keys)
        invariant Ready(schema, nodes, graph, held, sinks.Keys, computers) && Bounded(graph, computers, held)
        invariant Walked(graph, h0, held, s0, sinks, updated, Cones(graph, done), OutEdges(graph, key, done))
        invariant Cleared(graph, held, Cones(graph, done))
      {
        ghost var h, s := held, sinks;
        var c :| c in todo;
        var found := InvalidateNode(c, outputs[c]);
        WalkedOneMore(graph, h0, h, held, s0, s, sinks, updated, found, key, done, c);
        ClearedCompose(graph, h, held, s, sinks, found, Cones(graph, done), Cone(graph, c), {(c, outputs[c])});
        updated := updated + found;
        todo, done := todo - {c}, done + {c};
      }
      assert done == outputs.Keys;
    }

    /** Ands the flags of all inputs, in any order, and takes the parent's message at `inputIndex`. */
    method GatherInputs(key: NodeKey, inputIndex: int) returns (message: Message, valid: bool)
      requires key in nodes && forall f :: f in nodes[key].inputs ==> nodes[key].inputs[f] in nodes
      ensures valid <==> forall f :: f in nodes[key].inputs ==> nodes[nodes[key].inputs[f]].valid
      ensures message == if inputIndex >= 0 && inputIndex in nodes[key].inputs
        then SetSub(nodes[key].message, inputIndex, nodes[nodes[key].inputs[inputIndex]].message)
        else nodes[key].message
    {
      var inputs := nodes[key].inputs;
      message, valid := nodes[key].message, true;
      var todo := inputs.Keys;
      while todo != {}
        invariant todo <= inputs.Keys
        invariant valid <==> forall f :: f in inputs && f !in todo ==> nodes[inputs[f]].valid
        invariant message == if inputIndex >= 0 && inputIndex in inputs && inputIndex !in todo
          then SetSub(nodes[key].message, inputIndex, nodes[inputs[inputIndex]].message)
          else nodes[key].message
      {
        var f :| f in todo;
        valid := valid && nodes[inputs[f]].valid;
        if inputIndex == f {
          message := SetSub(message, f, nodes[inputs[f]].message);
        }
        todo := todo - {f};
      }
    }

    /** The visit of one node by the update walk. */
    method RecomputeNode(key: NodeKey, inputIndex: int)
      requires Ready(schema, nodes, graph, held, sinks.Keys, computers) && Recomputing(graph, computers, held)
      requires key in nodes
      requires inputIndex == -1 || (inputIndex >= 0 && Linked(graph, key, inputIndex))
      modifies this`nodes, this`held
      ensures Ready(schema, nodes, graph, held, sinks.Keys, computers) && Recomputing(graph, computers, held)
      ensures nodes.Keys == old(nodes.Keys)
      ensures Visited(graph, old(held), held, key, if inputIndex >= 0 then {(key, inputIndex)} else {})
      ensures Recomputed(graph, computers, old(held), held, key) && ValidGrows(old(held), held)
    {
      hide *;
      ReadyAt(schema, nodes, graph, held, sinks.Keys, computers, key);
      ReadyInputs(schema, nodes, graph, held, sinks.Keys, computers, key);
      if inputIndex >= 0 {
        ReadyInput(schema, nodes, graph, held, sinks.Keys, computers, key, inputIndex);
      }
      ghost var entries: set<Edge> := if inputIndex >= 0 then {(key, inputIndex)} else {};
      var message, valid := GatherInputs(key, inputIndex);
      GatheredBy(graph, held, key, inputIndex, message);
      RecomputingVisit(graph, computers, held, key, entries, message, valid);
      SettleRuns(computers, key, valid, message);
      if valid {
        if key in computers {
          message := computers[key].run(message);
        }
      }
      ReadyReplaced(schema, nodes, graph, held, sinks.Keys, computers, key, message, valid);
      nodes := nodes[key := nodes[key].(message := message, valid := valid)];
      held := held[key := Held(message, valid)];
    }

    method UpdateNode(key: NodeKey, inputIndex: int) returns (updated: set<NodeKey>)
      requires Ready(schema, nodes, graph, held, sinks.Keys, computers) && Recomputing(graph, computers, held)
      requires key in nodes
      requires inputIndex == -1 || (inputIndex >= 0 && Linked(graph, key, inputIndex))
      modifies this`nodes, this`held, this`sinks
      ensures Ready(schema, nodes, graph, held, sinks.Keys, computers) && Recomputing(graph, computers, held)
      ensures nodes.Keys == old(nodes.Keys)
      ensures Walked(graph, old(held), held, old(sinks), sinks, updated, Cone(graph, key),
                     if inputIndex >= 0 then {(key, inputIndex)} else {})
      ensures AllFresh(graph, computers, held, Cone(graph, key)) && ValidGrows(old(held), held)
      ensures IsSource(graph, key) ==> held[key] == Held(Settle(computers, key, true, old(held)[key].message), true)
      decreases Height(graph, key), 1
    {
      hide *;
      ghost var entries: set<Edge> := if inputIndex >= 0 then {(key, inputIndex)} else {};
      ghost var h0 := held;
      ReadyAt(schema, nodes, graph, held, sinks.Keys, computers, key);
      RecomputeNode(key, inputIndex);
      ghost var h1, s1 := held, sinks;
      ReadyAt(schema, nodes, graph, held, sinks.Keys, computers, key);
      RecomputedSource(graph, computers, h0, held, key);
      if nodes[key].outputs != map[] {
        updated := UpdateOutputs(key);
        WalkedFromRoot(graph, h0, h1, held, s1, sinks, updated, key, entries);
        FreshFromRoot(graph, computers, h0, h1, held, key, s1, sinks, updated);
        ValidGrowsTransitive(h0, h1, held);
        return;
      }
      WalkedAtLeaf(graph, h0, h1, sinks, key, entries);
      FreshAtLeaf(graph, computers, h0, h1, key);
      sinks := sinks[key := sinks[key].(data := nodes[key].message)];
      updated := {key};
      assert sinks.Keys == s1.Keys;
    }

    /** Updates all outputs of a node, in any order. */
    method UpdateOutputs(key: NodeKey) returns (updated: set<NodeKey>)
      requires Ready(schema, nodes, graph, held, sinks.Keys, computers) && Recomputing(graph, computers, held)
      requires key in nodes
      modifies this`nodes, this`held, this`sinks
      ensures Ready(schema, nodes, graph, held, sinks.Keys, computers) && Recomputing(graph, computers, held)
      ensures nodes.Keys == old(nodes.Keys)
      ensures var below := OutputsOf(graph, key);
        && Walked(graph, old(held), held, old(sinks), sinks, updated, Cones(graph, below), OutEdges(graph, key, below))
        && AllFresh(graph, computers, held, Cones(graph, below))
      ensures ValidGrows(old(held), held)
      decreases Height(graph, key), 0
    {
      hide *;
      ReadyAt(schema, nodes, graph, held, sinks.Keys, computers, key);
      WalkedNowhere(graph, held, sinks, key);
      NothingStale(graph, computers, held);
      var outputs := nodes[key].outputs;
      forall c | c in outputs { ReadyOutput(schema, nodes, graph, held, sinks.Keys, computers, key, c); }
      var todo := outputs.Keys;
      ghost var done: set<NodeKey> := {};
      ghost var h0, s0 := held, sinks;
      updated := {};
      while todo != {}
        invariant done + todo == outputs.Keys && done !! todo
        invariant nodes.Keys == old(nodes.Keys) && Shaped(graph, held)
        invariant Ready(schema, nodes, graph, held, sinks.Keys, computers) && Recomputing(graph, computers, held)
        invariant Walked(graph, h0, held, s0, sinks, updated, Cones(graph, done), OutEdges(graph, key, done))
        invariant AllFresh(graph, computers, held, Cones(graph, done)) && ValidGrows(h0, held)
      {
        ghost var h, s := held, sinks;
        var c :| c in todo;
        var found := UpdateNode(c, outputs[c]);
        WalkedOneMore(graph, h0, h, held, s0, s, sinks, updated, found, key, done, c);
        FreshCompose(graph, computers, h, held, s, sinks, found, Cones(graph, done), Cone(graph, c), {(c, outputs[c])});
        ValidGrowsTransitive(h0, h, held);
        ReadyAt(schema, nodes, graph, held, sinks.Keys, computers, key);
        updated := updated + found;
        todo, done := todo - {c}, done + {c};
      }
      assert done == outputs.Keys;
    }

    // ---------------------------------------------------------------- the tree between calls

    ghost predicate Built()
      reads this
    {
      BuiltTables(schema, nodes, graph, held, sources, sinks.Keys) && OwnQueues(sinks)
    }

    /** No source has been given a message yet. */
    ghost predicate Blank()
      reads this
    {
      latest == map[] && AllBlank(held)
    }

    /** The type graph has no cycle, and every registered function sets fields of its own type from that
        type's inputs. */
    ghost predicate Computable()
      reads this
    {
      ComputableTables(schema, graph, computers)
    }

    /** Every node holds the from-scratch evaluation of the latest messages of the sources. */
    ghost predicate Current()
      reads this
    {
      latest.Keys <= sources && UpToDate(graph, computers, latest, held)
    }

    ghost function Queues(): set<object>
      reads this
    {
      set k | k in sinks :: sinks[k].queue
    }

    constructor (schema: Schema)
      requires ClosedSchema(schema)
      ensures this.schema == schema && sinks == map[] && computers == map[]
      ensures Built() && Blank()
    {
      this.schema := schema;
      nodes, sources, sinks, computers := map[], {}, map[], map[];
      graph, held, latest := Graph({}, map[], map[]), map[], map[];
    }

    method AddOutput(key: NodeKey, queue: BlockingQueue<Message>) returns (outcome: AddOutcome)
      requires Built() && key in schema && schema[key].isNode
      requires forall k :: k in sinks ==> sinks[k].queue != queue
      modifies this`nodes, this`graph, this`held, this`sources, this`sinks
      ensures outcome == if key in old(sinks) then AlreadyPresent
                         else if OneofReached(schema, key) then Refused else Added
      ensures outcome.AlreadyPresent? ==> Built() && unchanged(this)
      ensures outcome.Added? ==>
        && Built()
        && sinks == old(sinks)[key := SinkData(DEFAULT, queue)]
        && Grown(schema, old(graph), old(held), old(sources), graph, held, sources, {})
        && (old(Blank()) ==> Blank())
        && (old(Current()) && Computable() ==>
              Dag(graph) && (Current() <==> NewUntouched(old(graph), graph, latest.Keys)))
    {
      hide BuiltTables, AllBlank, Represents, Sound, Grown, FoundFrom, OneofReached, ClosedSchema, UpToDate,
           ComputableTables;
      if key in sinks {
        return AlreadyPresent;
      }
      ghost var t0, g0, h0, src0, sinks0 := nodes, graph, held, sources, sinks.Keys;
      BuiltIsSound(schema, nodes, graph, held, sources, sinks.Keys);
      var r := BuildNode(key);
      if r == NodeInsideOneof {
        return Refused;
      }
      BuiltGrows(schema, t0, g0, h0, src0, nodes, graph, held, sources, sinks0, key);
      LateSinkIsCurrentIff(schema, t0, g0, h0, src0, sinks0, nodes, graph, held, sources, sinks0 + {key}, computers,
                           latest);
      sinks := sinks[key := SinkData(DEFAULT, queue)];
      assert sinks.Keys == sinks0 + {key};
      return Added;
    }

    method RegisterFunction(key: NodeKey, computer: Computer)
      requires Built() && key in schema && schema[key].isNode
      modifies this`computers
      ensures computers == old(computers)[key := computer] && Built() && (old(Blank()) ==> Blank())
    {
      hide BuiltTables, AllBlank;
      computers := computers[key := computer];
    }

    /** Pushes the snapshot of each given sink, in any order. */
    method SendData(updated: set<NodeKey>)
      requires updated <= sinks.Keys && OwnQueues(sinks)
      modifies Queues()
      ensures forall k :: k in sinks ==>
        sinks[k].queue.queue == old(sinks[k].queue.queue) + if k in updated then [sinks[k].data] else []
    {
      var todo := updated;
      while todo != {}
        invariant todo <= updated
        invariant forall k :: k in sinks ==>
          sinks[k].queue.queue == old(sinks[k].queue.queue) + if k in updated - todo then [sinks[k].data] else []
      {
        var k :| k in todo;
        sinks[k].queue.PushBack(sinks[k].data);
        todo := todo - {k};
      }
    }

    /** Stores the message and walks the cone of the source to invalidate it. */
    method InvalidatePass(key: NodeKey, message: Message) returns (updated: set<NodeKey>)
      requires BuiltTables(schema, nodes, graph, held, sources, sinks.Keys) && OwnQueues(sinks) && key in sources
      requires ComputableTables(schema, graph, computers)
      requires Dag(graph) && HoldsEval(graph, computers, Settled(computers, latest), held)
      modifies this`nodes, this`held, this`sinks
      ensures BuiltTables(schema, nodes, graph, held, sources, sinks.Keys) && OwnQueues(sinks)
      ensures Recomputing(graph, computers, held)
      ensures HoldsEval(graph, computers, Between(graph, computers, latest, key, message), held)
      ensures key in held && held[key].message == message
      ensures updated == Leaves(graph, Cone(graph, key)) && updated <= sinks.Keys
      ensures sinks == Refreshed(graph, computers, Between(graph, computers, latest, key, message), key, old(sinks))
    {
      hide *;
      BuiltIsReady(schema, nodes, graph, held, sources, sinks.Keys, computers);
      BuiltSource(schema, nodes, graph, held, sources, sinks.Keys, key);
      CurrentIsBounded(graph, computers, Settled(computers, latest), held);
      ghost var t0, h0, s0 := nodes, held, sinks;
      StoringKeepsBounds(graph, computers, held, key, Held(message, nodes[key].valid));
      ReadyReplaced(schema, nodes, graph, held, sinks.Keys, computers, key, message, nodes[key].valid);
      nodes := nodes[key := nodes[key].(message := message)];
      held := held[key := Held(message, nodes[key].valid)];
      ghost var h1 := held;
      updated := InvalidateNode(key, -1);
      ReadyAt(schema, nodes, graph, held, sinks.Keys, computers, key);
      InvalidatePhase(graph, computers, latest, h0, h1, held, s0, sinks, updated, key, message);
      QueuesKept(graph, s0, sinks, h1, held, updated, Cone(graph, key), {});
      BuiltKept(schema, t0, graph, h0, sources, sinks.Keys, nodes, held, computers);
    }

    /** Walks the cone of the source to recompute it. */
    method UpdatePass(key: NodeKey, ghost message: Message) returns (updated: set<NodeKey>)
      requires BuiltTables(schema, nodes, graph, held, sources, sinks.Keys) && OwnQueues(sinks) && key in sources
      requires ComputableTables(schema, graph, computers) && Recomputing(graph, computers, held)
      requires Dag(graph) && HoldsEval(graph, computers, Between(graph, computers, latest, key, message), held)
      requires key in held && held[key].message == message
      modifies this`nodes, this`held, this`sinks
      ensures BuiltTables(schema, nodes, graph, held, sources, sinks.Keys) && OwnQueues(sinks)
      ensures HoldsEval(graph, computers, Settled(computers, latest[key := message]), held)
      ensures updated == Leaves(graph, Cone(graph, key)) && updated <= sinks.Keys
      ensures sinks == Refreshed(graph, computers, Settled(computers, latest[key := message]), key, old(sinks))
    {
      hide *;
      BuiltIsReady(schema, nodes, graph, held, sources, sinks.Keys, computers);
      BuiltSource(schema, nodes, graph, held, sources, sinks.Keys, key);
      ghost var t2, h2, s2 := nodes, held, sinks;
      updated := UpdateNode(key, -1);
      ReadyAt(schema, nodes, graph, held, sinks.Keys, computers, key);
      UpdatePhase(graph, computers, latest, h2, held, s2, sinks, updated, key, message);
      QueuesKept(graph, s2, sinks, h2, held, updated, Cone(graph, key), {});
      BuiltKept(schema, t2, graph, h2, sources, sinks.Keys, nodes, held, computers);
    }

    /** The first half of an update: invalidate, then send what the sinks hold meanwhile. */
    method InvalidateAndSend(key: NodeKey, message: Message)
      requires BuiltTables(schema, nodes, graph, held, sources, sinks.Keys) && OwnQueues(sinks) && key in sources
      requires ComputableTables(schema, graph, computers)
      requires Dag(graph) && HoldsEval(graph, computers, Settled(computers, latest), held)
      modifies this`nodes, this`held, this`sinks, Queues()
      ensures BuiltTables(schema, nodes, graph, held, sources, sinks.Keys) && OwnQueues(sinks)
      ensures Recomputing(graph, computers, held) && key in held && held[key].message == message
      ensures HoldsEval(graph, computers, Between(graph, computers, latest, key, message), held)
      ensures sinks == Refreshed(graph, computers, Between(graph, computers, latest, key, message), key, old(sinks))
      ensures forall k :: k in sinks ==>
        sinks[k].queue.queue == old(sinks[k].queue.queue) +
                                Snapshot(graph, computers, Between(graph, computers, latest, key, message), key, k)
    {
      hide BuiltTables, OwnQueues, ComputableTables, HoldsEval, Settled, Between, Recomputing, Refreshed, Snapshot,
           Leaves, Cone, Dag;
      ghost var s := sinks;
      var updated := InvalidatePass(key, message);
      RefreshedQueues(graph, computers, Between(graph, computers, latest, key, message), key, s);
      SendData(updated);
      forall k | k in sinks {
        SnapshotSent(graph, computers, Between(graph, computers, latest, key, message), key, k, updated, s, sinks);
      }
    }

    /** The second half: recompute, then send the result. */
    method UpdateAndSend(key: NodeKey, ghost message: Message)
      requires BuiltTables(schema, nodes, graph, held, sources, sinks.Keys) && OwnQueues(sinks) && key in sources
      requires ComputableTables(schema, graph, computers) && Recomputing(graph, computers, held)
      requires Dag(graph) && HoldsEval(graph, computers, Between(graph, computers, latest, key, message), held)
      requires key in held && held[key].message == message
      modifies this`nodes, this`held, this`sinks, Queues()
      ensures BuiltTables(schema, nodes, graph, held, sources, sinks.Keys) && OwnQueues(sinks)
      ensures HoldsEval(graph, computers, Settled(computers, latest[key := message]), held)
      ensures sinks == Refreshed(graph, computers, Settled(computers, latest[key := message]), key, old(sinks))
      ensures forall k :: k in sinks ==> sinks[k].queue.queue == old(sinks[k].queue.queue) +
                                         Snapshot(graph, computers, Settled(computers, latest[key := message]), key, k)
    {
      hide BuiltTables, OwnQueues, ComputableTables, HoldsEval, Settled, Between, Recomputing, Refreshed, Snapshot,
           Leaves, Cone, Dag;
      ghost var s := sinks;
      var updated := UpdatePass(key, message);
      RefreshedQueues(graph, computers, Settled(computers, latest[key := message]), key, s);
      SendData(updated);
      forall k | k in sinks {
        SnapshotSent(graph, computers, Settled(computers, latest[key := message]), key, k, updated, s, sinks);
      }
    }

    /** Gives a message to a source. Unknown keys are refused; otherwise both phases run, and each sink
        below the source is sent its snapshot after each. */
    method UpdateSource(key: NodeKey, message: Message) returns (found: bool)
      requires Built() && Computable() && Current()
      modifies this`nodes, this`held, this`sinks, this`latest, Queues()
      ensures Built() && Computable() && Current()
      ensures found == (key in sources)
      ensures latest == if found then old(latest)[key := message] else old(latest)
      ensures SameQueues(old(sinks), sinks)
      ensures sinks
           == if found then Refreshed(graph, computers, Settled(computers, latest), key, old(sinks)) else old(sinks)
      ensures !found ==> nodes == old(nodes)
      ensures forall k :: k in sinks && found ==>
        sinks[k].queue.queue
        == old(sinks[k].queue.queue) +
           Snapshot(graph, computers, Between(graph, computers, old(latest), key, message), key, k) +
           Snapshot(graph, computers, Settled(computers, latest), key, k)
      ensures forall k :: k in sinks && !found ==> sinks[k].queue.queue == old(sinks[k].queue.queue)
    {
      hide BuiltTables, OwnQueues, ComputableTables, HoldsEval, Settled, Between, Recomputing, Snapshot, Dag, Refreshed;
      if key !in sources {
        return false;
      }
      ghost var s := sinks;
      InvalidateAndSend(key, message);
      RefreshedQueues(graph, computers, Between(graph, computers, latest, key, message), key, s);
      RefreshedAgain(graph, computers, Between(graph, computers, latest, key, message),
                     Settled(computers, latest[key := message]), key, s);
      RefreshedQueues(graph, computers, Settled(computers, latest[key := message]), key, s);
      UpdateAndSend(key, message);
      latest := latest[key := message];
      return true;
    }
  }
}
