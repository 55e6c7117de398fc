/** Adding an output to a tree that is already running: when the new nodes may start blank. */
module Extending {
  import opened Messages
  import opened Graphs
  import opened Schemas
  import opened Evaluation
  import opened Propagation
  import opened Building
  import opened Reachability

  /** Old nodes keep their inputs and which of them are linked. */
  ghost predicate Extends(g: Graph, g': Graph) {
    && WellFormed(g) && WellFormed(g') && g.nodes <= g'.nodes
    && (forall t {:trigger SameInputs(g, g', t)} :: t in g.nodes ==> SameInputs(g, g', t))
    && (forall t, f {:trigger Linked(g', t, f)} :: t in g.nodes && (t, f) in g.inputs ==>
          (Linked(g, t, f) <==> Linked(g', t, f)))
  }

  lemma GrownExtends(schema: Schema, g: Graph, h: Nodes, src: set<NodeKey>, g': Graph, h': Nodes, src': set<NodeKey>)
    requires Grown(schema, g, h, src, g', h', src', {})
    ensures Extends(g, g')
  {
    forall t, f | t in g.nodes && (t, f) in g.inputs ensures Linked(g, t, f) <==> Linked(g', t, f) {
      assert SameInputs(g, g', t);
      EdgesDetermined(g, g', g.inputs[(t, f)], t);
    }
  }

  lemma {:induction false} OldTouched(g: Graph, g': Graph, stored: set<NodeKey>, t: NodeKey)
    requires Dag(g) && Dag(g') && Extends(g, g') && t in g.nodes
    ensures Touched(g', stored, t) == Touched(g, stored, t)
    decreases Level(g, t)
  {
    assert SameInputs(g, g', t);
    forall f | (t, f) in g.inputs
      ensures Touched(g', stored, g.inputs[(t, f)]) == Touched(g, stored, g.inputs[(t, f)])
    {
      OldTouched(g, g', stored, g.inputs[(t, f)]);
    }
  }

  lemma {:induction false} OldValid(g: Graph, g': Graph, b: Basis, t: NodeKey)
    requires Dag(g) && Dag(g') && Extends(g, g') && t in g.nodes
    ensures EvalValid(g', b, t) == EvalValid(g, b, t)
    decreases Level(g, t)
  {
    assert SameInputs(g, g', t);
    forall f | (t, f) in g.inputs ensures EvalValid(g', b, g.inputs[(t, f)]) == EvalValid(g, b, g.inputs[(t, f)]) {
      OldValid(g, g', b, g.inputs[(t, f)]);
    }
  }

  /** An old node means the same in the larger graph. */
  lemma {:induction false} OldMessage(g: Graph, g': Graph, cs: map<NodeKey, Computer>, b: Basis, t: NodeKey)
    requires Dag(g) && Dag(g') && Extends(g, g') && t in g.nodes
    ensures EvalMsg(g', cs, b, t) == EvalMsg(g, cs, b, t)
    decreases Level(g, t)
  {
    assert SameInputs(g, g', t);
    OldValid(g, g', b, t);
    forall f | f in InputFields(g, t) ensures SameField(EvalInputs(g', cs, b, t), EvalInputs(g, cs, b, t), f) {
      assert Linked(g, t, f) <==> Linked(g', t, f);
      OldTouched(g, g', b.stored.Keys, g.inputs[(t, f)]);
      OldMessage(g, g', cs, b, g.inputs[(t, f)]);
    }
    SameWithin(EvalInputs(g', cs, b, t), EvalInputs(g, cs, b, t), InputFields(g, t));
  }

  /** Every node holds the from-scratch evaluation of the latest source messages. */
  ghost predicate UpToDate(g: Graph, cs: map<NodeKey, Computer>, latest: map<NodeKey, Message>, h: Nodes) {
    Dag(g) && HoldsEval(g, cs, Propagation.Settled(cs, latest), h)
  }

  /** No new node is fed by a node that some stored source has touched. */
  ghost predicate NewUntouched(g: Graph, g': Graph, stored: set<NodeKey>)
    requires Dag(g')
  {
    forall t, f {:trigger Linked(g', t, f)} :: t in g'.nodes - g.nodes && Linked(g', t, f) ==>
      !Touched(g', stored, g'.inputs[(t, f)])
  }

  /** A new node's from-scratch state is blank if none of its inputs is touched ... */
  lemma NewIsBlank(g: Graph, g': Graph, cs: map<NodeKey, Computer>, b: Basis, t: NodeKey)
    requires Dag(g') && NewUntouched(g, g', b.stored.Keys) && t in g'.nodes - g.nodes && t !in b.stored
    ensures EvalMsg(g', cs, b, t) == DEFAULT && !EvalValid(g', b, t)
  {
    if !IsSource(g', t) {
      var i :| (t, i) in g'.inputs;
      var p := g'.inputs[(t, i)];
      assert Linked(g', t, g'.outputs[(p, t)]);
      if EvalValid(g', b, p) {
        ValidIsTouched(g', b, p);
      }
      assert EvalInputs(g', cs, b, t) == DEFAULT;
    }
  }

  /** ... and not otherwise. */
  lemma TouchedIsNotBlank(g: Graph, cs: map<NodeKey, Computer>, b: Basis, t: NodeKey, f: nat)
    requires Dag(g) && AllWellBehaved(g, cs) && Linked(g, t, f) && Touched(g, b.stored.Keys, g.inputs[(t, f)])
    ensures EvalMsg(g, cs, b, t) != DEFAULT
  {
    EvalKeepsInputs(g, cs, b, t, f);
    assert f in EvalMsg(g, cs, b, t).fields;
  }

  /** Adding an output to a running tree leaves it current if and only if no newly reached type is fed by
      a node that has been touched; otherwise the new nodes lag until their sources are updated again. */
  lemma LateOutputIsCurrentIff(schema: Schema, g: Graph, h: Nodes, src: set<NodeKey>, g': Graph, h': Nodes,
                               src': set<NodeKey>, cs: map<NodeKey, Computer>, latest: map<NodeKey, Message>)
    requires Grown(schema, g, h, src, g', h', src', {}) && Dag(g') && AllWellBehaved(g', cs)
    requires latest.Keys <= g.nodes && UpToDate(g, cs, latest, h)
    ensures UpToDate(g', cs, latest, h') <==> NewUntouched(g, g', latest.Keys)
  {
    var b := Propagation.Settled(cs, latest);
    assert b.stored.Keys == latest.Keys;
    GrownExtends(schema, g, h, src, g', h', src');
    forall t | t in g.nodes ensures NodeHoldsEval(g', cs, b, h', t) {
      OldMessage(g, g', cs, b, t);
      OldValid(g, g', b, t);
      assert NodeHoldsEval(g, cs, b, h, t) && h'[t] == h[t];
    }
    if NewUntouched(g, g', latest.Keys) {
      forall t | t in g'.nodes ensures NodeHoldsEval(g', cs, b, h', t) {
        if t !in g.nodes {
          NewIsBlank(g, g', cs, b, t);
          assert h'[t] == Held(DEFAULT, false);
        }
      }
    } else {
      var t, f :| t in g'.nodes - g.nodes && Linked(g', t, f) && Touched(g', latest.Keys, g'.inputs[(t, f)]);
      TouchedIsNotBlank(g', cs, b, t, f);
      assert h'[t] == Held(DEFAULT, false);
      assert !NodeHoldsEval(g', cs, b, h', t);
    }
  }

  // ------------------------------------------------------------------ a late output that lags

  const SHARED := NodeKey(0)
  const EARLY := NodeKey(1)
  const LATE := NodeKey(2)

  /** Two sinks that take the same source. */
  function LateSchema(): Schema {
    var sink := TypeDesc(true, [FieldDesc(false, false, MessageOf(SHARED))]);
    map[SHARED := TypeDesc(true, [FieldDesc(false, false, Scalar)]), EARLY := sink, LATE := sink]
  }

  const EARLY_GRAPH := Graph({SHARED, EARLY}, map[(EARLY, 0) := SHARED], map[(SHARED, EARLY) := 0])

  const LATE_GRAPH := Graph({SHARED, EARLY, LATE}, map[(EARLY, 0) := SHARED, (LATE, 0) := SHARED],
                           map[(SHARED, EARLY) := 0, (SHARED, LATE) := 0])

  /** What the nodes hold once the source has been given `raw` and only the early sink exists. */
  function EarlyNodes(raw: Message): Nodes {
    map[SHARED := Held(raw, true), EARLY := Held(Message(map[0 := Sub(raw)]), true)]
  }

  lemma LateSchemaReaches(t: NodeKey, u: NodeKey)
    requires t in LateSchema()
    ensures Reaches(TypeSuccessors(LateSchema()), t, u) <==> u == t || u == SHARED
  {
    var succ := TypeSuccessors(LateSchema());
    assert InputField(LateSchema(), EARLY, 0) && InputField(LateSchema(), LATE, 0);
    assert succ[SHARED] == {} && succ[EARLY] == {SHARED} == succ[LATE];
    ReachesSelf(succ, t);
    if t != SHARED {
      ReachesStep(succ, t, t, SHARED);
    }
    if Reaches(succ, t, u) {
      ReachesWithin(succ, {t, SHARED}, t, u);
    }
  }

  lemma LateSchemaIsClosed()
    ensures ClosedSchema(LateSchema())
  {
  }

  lemma LateReached(sinks: set<NodeKey>, t: NodeKey)
    requires sinks != {} && sinks <= {EARLY, LATE}
    ensures ReachedFrom(LateSchema(), sinks, t) <==> t in sinks + {SHARED}
  {
    var s :| s in sinks;
    LateSchemaReaches(s, SHARED);
    if t in sinks {
      LateSchemaReaches(t, t);
    }
    if u :| u in sinks && Reaches(TypeSuccessors(LateSchema()), u, t) {
      LateSchemaReaches(u, t);
    }
  }

  lemma LateFinished(g: Graph, sinks: set<NodeKey>)
    requires WellFormed(g) && FirstFields(g) && g.nodes == sinks + {SHARED} && sinks != {} && sinks <= {EARLY, LATE}
    requires forall t {:trigger Complete(LateSchema(), g, t)} :: t in g.nodes ==> Complete(LateSchema(), g, t)
    ensures Finished(LateSchema(), g, sinks)
  {
    hide TypeSuccessors, Reaches, Complete, WellFormed, ReachedFrom, LateSchema, ClosedSchema;
    LateSchemaIsClosed();
    forall t ensures t in g.nodes <==> ReachedFrom(LateSchema(), sinks, t) {
      LateReached(sinks, t);
    }
  }

  lemma LateGraphsAreAcyclic()
    ensures Dag(EARLY_GRAPH) && FirstFields(EARLY_GRAPH) && Dag(LATE_GRAPH) && FirstFields(LATE_GRAPH)
    ensures {SHARED} <= EARLY_GRAPH.nodes
  {
    assert IsRanking(EARLY_GRAPH, Ranking(map[SHARED := 0, EARLY := 1], 2));
    assert IsRanking(LATE_GRAPH, Ranking(map[SHARED := 0, EARLY := 1, LATE := 1], 2));
  }

  lemma LateGraphsAreComplete(t: NodeKey)
    ensures t in EARLY_GRAPH.nodes ==> Complete(LateSchema(), EARLY_GRAPH, t)
    ensures t in LATE_GRAPH.nodes ==> Complete(LateSchema(), LATE_GRAPH, t)
  {
  }

  lemma LateGraphsAreFinished()
    ensures Finished(LateSchema(), EARLY_GRAPH, {EARLY}) && Finished(LateSchema(), LATE_GRAPH, {EARLY, LATE})
  {
    hide Complete, Finished, Acyclic, WellFormed, LateSchema;
    LateGraphsAreAcyclic();
    forall t {
      LateGraphsAreComplete(t);
    }
    LateFinished(EARLY_GRAPH, {EARLY});
    LateFinished(LATE_GRAPH, {EARLY, LATE});
  }

  lemma LateIsFed()
    requires Dag(LATE_GRAPH)
    ensures !NewUntouched(EARLY_GRAPH, LATE_GRAPH, {SHARED})
  {
    hide WellFormed, Acyclic;
    assert IsSource(LATE_GRAPH, SHARED);
    assert Linked(LATE_GRAPH, LATE, 0) && Touched(LATE_GRAPH, {SHARED}, SHARED);
  }

  /** The tree is current for the early sink; the late one is added blank, although its source has been
      given a message, and the tree is no longer current. */
  lemma LateOutputLags(raw: Message)
    ensures Finished(LateSchema(), EARLY_GRAPH, {EARLY}) && Finished(LateSchema(), LATE_GRAPH, {EARLY, LATE})
    ensures Dag(LATE_GRAPH)
    ensures var h, h' := EarlyNodes(raw), EarlyNodes(raw)[LATE := Held(DEFAULT, false)];
      && Grown(LateSchema(), EARLY_GRAPH, h, {SHARED}, LATE_GRAPH, h', {SHARED}, {})
      && UpToDate(EARLY_GRAPH, map[], map[SHARED := raw], h)
      && !UpToDate(LATE_GRAPH, map[], map[SHARED := raw], h')
  {
    hide *;
    LateGraphsAreAcyclic();
    LateGraphsAreFinished();
    LateIsFed();
    EarlyIsCurrent(raw);
    LateIsGrown(raw);
    NothingComputed(LATE_GRAPH);
    var h := EarlyNodes(raw);
    assert map[SHARED := raw].Keys == {SHARED};
    LateOutputIsCurrentIff(LateSchema(), EARLY_GRAPH, h, {SHARED}, LATE_GRAPH, h[LATE := Held(DEFAULT, false)],
                           {SHARED}, map[], map[SHARED := raw]);
  }

  lemma NothingComputed(g: Graph)
    ensures AllWellBehaved(g, map[])
  {
  }

  lemma LateIsGrown(raw: Message)
    requires Finished(LateSchema(), EARLY_GRAPH, {EARLY}) && Finished(LateSchema(), LATE_GRAPH, {EARLY, LATE})
    ensures Grown(LateSchema(), EARLY_GRAPH, EarlyNodes(raw), {SHARED},
                  LATE_GRAPH, EarlyNodes(raw)[LATE := Held(DEFAULT, false)], {SHARED}, {})
  {
    hide ReachedFrom;
    forall t | t in EARLY_GRAPH.nodes ensures SameInputs(EARLY_GRAPH, LATE_GRAPH, t) {}
    assert (LATE, 0) in LATE_GRAPH.inputs;
  }

  lemma EarlyIsCurrent(raw: Message)
    requires Dag(EARLY_GRAPH)
    ensures UpToDate(EARLY_GRAPH, map[], map[SHARED := raw], EarlyNodes(raw))
  {
    var g, b, h := EARLY_GRAPH, Propagation.Settled(map[], map[SHARED := raw]), EarlyNodes(raw);
    assert b.stored == map[SHARED := raw];
    assert IsSource(g, SHARED) && (EARLY, 0) in g.inputs && Linked(g, EARLY, 0);
    forall t | t in g.nodes ensures NodeConsistent(g, map[], b, h, t) {
      if t == EARLY {
        assert InputFields(g, EARLY) == {0};
        assert HeldInputs(g, b, h, EARLY).fields == map[0 := Sub(raw)];
      }
    }
    ConsistentIffEval(g, map[], b, h);
  }
}
