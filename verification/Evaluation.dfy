/** The from-scratch meaning of the dataflow graph: what every node should hold, given only what is
    stored at the sources. Nothing here depends on the order or the history of updates. */
module Evaluation {
  import opened Messages
  import opened Graphs
  import opened Reachability

  /** A registered compute function, with the fields it sets. */
  datatype Computer = Computer(run: Message -> Message, writes: set<nat>)

  /** Sets only `writes`, none of them an input field, to values that depend on input fields alone. */
  ghost predicate WellBehaved(c: Computer, ins: set<nat>) {
    && c.writes !! ins
    && (forall m :: c.run(m).fields - c.writes == m.fields - c.writes)
    && (forall m :: Only(c.run(m), c.writes) == Only(c.run(Only(m, ins)), c.writes))
  }

  ghost predicate AllWellBehaved(g: Graph, cs: map<NodeKey, Computer>) {
    forall t {:trigger WellBehaved(cs[t], InputFields(g, t))} ::
      t in cs && t in g.nodes && !IsSource(g, t) ==> WellBehaved(cs[t], InputFields(g, t))
  }

  /** What sources hold, and which nodes are switched off (invalidated and not yet recomputed). */
  datatype Basis = Basis(stored: map<NodeKey, Message>, off: set<NodeKey>)

  /** What the sources hold once each has been updated with its latest message. */
  function Stored(cs: map<NodeKey, Computer>, latest: map<NodeKey, Message>): map<NodeKey, Message> {
    map s | s in latest :: Settle(cs, s, true, latest[s])
  }

  function Settle(cs: map<NodeKey, Computer>, t: NodeKey, valid: bool, m: Message): Message {
    if valid && t in cs then cs[t].run(m) else m
  }

  /** Some source above `t` has been stored. */
  ghost predicate Touched(g: Graph, stored: set<NodeKey>, t: NodeKey)
    requires Dag(g) && t in g.nodes
    decreases Level(g, t)
  {
    if IsSource(g, t) then t in stored
    else exists f :: (t, f) in g.inputs && Touched(g, stored, g.inputs[(t, f)])
  }

  ghost predicate EvalValid(g: Graph, b: Basis, t: NodeKey)
    requires Dag(g) && t in g.nodes
    decreases Level(g, t)
  {
    && t !in b.off
    && if IsSource(g, t) then t in b.stored
       else forall f :: (t, f) in g.inputs ==> EvalValid(g, b, g.inputs[(t, f)])
  }

  ghost function EvalMsg(g: Graph, cs: map<NodeKey, Computer>, b: Basis, t: NodeKey): Message
    requires Dag(g) && t in g.nodes
    decreases Level(g, t), 1
  {
    if IsSource(g, t) then
      if t in b.stored then b.stored[t] else DEFAULT
    else
      Settle(cs, t, EvalValid(g, b, t), EvalInputs(g, cs, b, t))
  }

  /** The input fields of `t`: a copy of each linked parent that has been touched. */
  ghost function EvalInputs(g: Graph, cs: map<NodeKey, Computer>, b: Basis, t: NodeKey): Message
    requires Dag(g) && t in g.nodes
    decreases Level(g, t), 0
  {
    Message(map f | f in InputFields(g, t) && Linked(g, t, f) && Touched(g, b.stored.Keys, g.inputs[(t, f)])
                :: Sub(EvalMsg(g, cs, b, g.inputs[(t, f)])))
  }

  /** Running a well-behaved function again forgets whatever an earlier run left behind. */
  lemma RunForgets(c: Computer, ins: set<nat>, m: Message)
    requires WellBehaved(c, ins) && m.fields.Keys <= ins + c.writes
    ensures c.run(m) == c.run(Only(m, ins))
    ensures Only(c.run(m), ins) == Only(m, ins)
    ensures c.run(m).fields.Keys <= ins + c.writes
  {
    var r, b := c.run(m), Only(m, ins);
    var rb := c.run(b);
    assert r.fields - c.writes == m.fields - c.writes && rb.fields - c.writes == b.fields - c.writes;
    assert Only(r, c.writes) == Only(rb, c.writes);
    forall f
      ensures SameField(r, rb, f) && (f in ins ==> SameField(r, m, f)) && (f in r.fields ==> f in ins + c.writes)
    {
      if f in c.writes {
        assert f in r.fields <==> f in Only(r, c.writes).fields;
        assert f in rb.fields <==> f in Only(rb, c.writes).fields;
        if f in r.fields {
          assert r.fields[f] == Only(r, c.writes).fields[f] == Only(rb, c.writes).fields[f];
        }
      } else {
        assert f in r.fields <==> f in r.fields - c.writes;
        assert f in rb.fields <==> f in rb.fields - c.writes;
        assert f in m.fields <==> f in m.fields - c.writes;
        assert f in b.fields <==> f in b.fields - c.writes;
        if f in r.fields {
          assert (r.fields - c.writes)[f] == (m.fields - c.writes)[f];
          assert (rb.fields - c.writes)[f] == (b.fields - c.writes)[f];
        }
      }
    }
    SameMessage(r, rb);
    SameMessage(Only(r, ins), Only(m, ins));
  }

  /** Computing never disturbs the input fields of a node. */
  lemma EvalKeepsInputs(g: Graph, cs: map<NodeKey, Computer>, b: Basis, t: NodeKey, f: nat)
    requires Dag(g) && AllWellBehaved(g, cs) && t in g.nodes && (t, f) in g.inputs
    ensures SameField(EvalMsg(g, cs, b, t), EvalInputs(g, cs, b, t), f)
  {
    var m := EvalInputs(g, cs, b, t);
    var ins := InputFields(g, t);
    assert Only(m, ins) == m;
    if EvalValid(g, b, t) && t in cs {
      RunForgets(cs[t], ins, m);
      assert SameField(Only(EvalMsg(g, cs, b, t), ins), m, f);
    }
  }

  // ------------------------------------------------------------------ touched and valid

  lemma {:induction false} TouchedInsideCone(g: Graph, stored: set<NodeKey>, s: NodeKey, t: NodeKey)
    requires Dag(g) && s in g.nodes && IsSource(g, s) && s in stored && t in Cone(g, s)
    ensures Touched(g, stored, t)
    decreases Level(g, t)
  {
    if t != s {
      var f := ConeEnteredFromInside(g, s, t);
      TouchedInsideCone(g, stored, s, g.inputs[(t, f)]);
    }
  }

  /** Storing at a source touches nothing outside its cone. */
  lemma {:induction false} TouchedOutsideCone(g: Graph, stored: set<NodeKey>, s: NodeKey, t: NodeKey)
    requires Dag(g) && s in g.nodes && t in g.nodes && t !in Cone(g, s)
    ensures Touched(g, stored + {s}, t) == Touched(g, stored, t)
    decreases Level(g, t)
  {
    ConeClosed(g, s);
    forall f | (t, f) in g.inputs
      ensures Touched(g, stored + {s}, g.inputs[(t, f)]) == Touched(g, stored, g.inputs[(t, f)])
    {
      TouchedOutsideCone(g, stored, s, g.inputs[(t, f)]);
    }
  }

  lemma {:induction false} ValidIsTouched(g: Graph, b: Basis, t: NodeKey)
    requires Dag(g) && t in g.nodes && EvalValid(g, b, t)
    ensures Touched(g, b.stored.Keys, t)
    decreases Level(g, t)
  {
    if !IsSource(g, t) {
      var f :| (t, f) in g.inputs;
      ValidIsTouched(g, b, g.inputs[(t, f)]);
    }
  }

  /** A node that no stored source reaches holds the default message. */
  lemma UntouchedIsDefault(g: Graph, cs: map<NodeKey, Computer>, b: Basis, t: NodeKey)
    requires Dag(g) && t in g.nodes && !Touched(g, b.stored.Keys, t)
    ensures EvalMsg(g, cs, b, t) == DEFAULT
  {
    if EvalValid(g, b, t) {
      ValidIsTouched(g, b, t);
    }
  }

  /** Validity over whole runs: a node is valid exactly when every source that reaches it has been stored. */
  lemma {:induction false} ValidIffAllSourcesStored(g: Graph, stored: map<NodeKey, Message>, t: NodeKey)
    requires Dag(g) && t in g.nodes
    ensures EvalValid(g, Basis(stored, {}), t)
       <==> forall s :: s in g.nodes && IsSource(g, s) && t in Cone(g, s) ==> s in stored
    decreases Level(g, t)
  {
    var b := Basis(stored, {});
    ConeClosed(g, t);
    forall f | (t, f) in g.inputs
      ensures EvalValid(g, b, g.inputs[(t, f)])
         <==> forall s :: s in g.nodes && IsSource(g, s) && g.inputs[(t, f)] in Cone(g, s) ==> s in stored
    {
      ValidIffAllSourcesStored(g, stored, g.inputs[(t, f)]);
    }
    forall s, f | s in g.nodes && (t, f) in g.inputs && g.inputs[(t, f)] in Cone(g, s) ensures t in Cone(g, s) {
      ConeClosed(g, s);
    }
    forall s | s in g.nodes && t in Cone(g, s) && s != t
      ensures exists f :: (t, f) in g.inputs && g.inputs[(t, f)] in Cone(g, s)
    {
      var f := ConeEnteredFromInside(g, s, t);
    }
  }

  /** Where nothing has been stored, every node is blank and invalid. */
  lemma {:induction false} NothingStored(g: Graph, cs: map<NodeKey, Computer>, off: set<NodeKey>, t: NodeKey)
    requires Dag(g) && t in g.nodes
    ensures EvalMsg(g, cs, Basis(map[], off), t) == DEFAULT && !EvalValid(g, Basis(map[], off), t)
  {
    NothingTouched(g, t);
    assert Basis(map[], off).stored.Keys == {};
    UntouchedIsDefault(g, cs, Basis(map[], off), t);
    if EvalValid(g, Basis(map[], off), t) {
      ValidIsTouched(g, Basis(map[], off), t);
    }
  }

  lemma {:induction false} NothingTouched(g: Graph, t: NodeKey)
    requires Dag(g) && t in g.nodes
    ensures !Touched(g, {}, t)
    decreases Level(g, t)
  {
    forall f | (t, f) in g.inputs { NothingTouched(g, g.inputs[(t, f)]); }
  }

  // ------------------------------------------------------------------ snapshots

  /** The node type found by following input fields. */
  ghost predicate InputPath(g: Graph, t: NodeKey, path: seq<nat>)
    decreases |path|
  {
    path == [] || ((t, path[0]) in g.inputs && InputPath(g, g.inputs[(t, path[0])], path[1..]))
  }

  ghost predicate LinkedPath(g: Graph, t: NodeKey, path: seq<nat>)
    decreases |path|
  {
    path == [] || (Linked(g, t, path[0]) && LinkedPath(g, g.inputs[(t, path[0])], path[1..]))
  }

  ghost function TypeAt(g: Graph, t: NodeKey, path: seq<nat>): NodeKey
    requires InputPath(g, t, path)
    decreases |path|
  {
    if path == [] then t else TypeAt(g, g.inputs[(t, path[0])], path[1..])
  }

  /** Reading nested submessages, an unset one reading as its default. */
  function ReadAt(m: Message, path: seq<nat>): Message
    decreases |path|
  {
    if path == [] then m else ReadAt(GetSub(m, path[0]), path[1..])
  }

  lemma {:induction false} LinkedIsInput(g: Graph, t: NodeKey, path: seq<nat>)
    requires LinkedPath(g, t, path)
    ensures InputPath(g, t, path)
    decreases |path|
  {
    if path != [] {
      LinkedIsInput(g, g.inputs[(t, path[0])], path[1..]);
    }
  }

  /** One linked field reads as its parent's message. */
  lemma LinkedFieldAgrees(g: Graph, cs: map<NodeKey, Computer>, b: Basis, t: NodeKey, f: nat)
    requires Dag(g) && AllWellBehaved(g, cs) && Linked(g, t, f)
    ensures GetSub(EvalMsg(g, cs, b, t), f) == EvalMsg(g, cs, b, g.inputs[(t, f)])
  {
    EvalKeepsInputs(g, cs, b, t, f);
    if !Touched(g, b.stored.Keys, g.inputs[(t, f)]) {
      UntouchedIsDefault(g, cs, b, g.inputs[(t, f)]);
    }
  }

  /** Snapshot agreement: along every path of linked fields, from any node and in particular from a
      sink, the submessage read is exactly the message of the node type at its end. So all copies that
      travelled through different arms of a diamond agree. It holds in both phases of an update. */
  lemma {:induction false} SnapshotAgrees(g: Graph, cs: map<NodeKey, Computer>, b: Basis, t: NodeKey, path: seq<nat>)
    requires Dag(g) && AllWellBehaved(g, cs) && t in g.nodes && LinkedPath(g, t, path)
    ensures InputPath(g, t, path) && TypeAt(g, t, path) in g.nodes
    ensures ReadAt(EvalMsg(g, cs, b, t), path) == EvalMsg(g, cs, b, TypeAt(g, t, path))
    decreases |path|
  {
    LinkedIsInput(g, t, path);
    if path != [] {
      LinkedFieldAgrees(g, cs, b, t, path[0]);
      SnapshotAgrees(g, cs, b, g.inputs[(t, path[0])], path[1..]);
    }
  }

  // ------------------------------------------------------------------ local consistency

  /** What a node holds: its own copy of the message, and its flag. */
  datatype Held = Held(message: Message, valid: bool)

  ghost function HeldInputs(g: Graph, b: Basis, h: map<NodeKey, Held>, t: NodeKey): (m: Message)
    requires Dag(g) && t in g.nodes && g.nodes <= h.Keys
    ensures m.fields.Keys <= InputFields(g, t)
  {
    Message(map f | f in InputFields(g, t) && Linked(g, t, f) && Touched(g, b.stored.Keys, g.inputs[(t, f)])
                :: Sub(h[g.inputs[(t, f)]].message))
  }

  /** Every node agrees with its own inputs as they are held right now. */
  ghost predicate LocallyConsistent(g: Graph, cs: map<NodeKey, Computer>, b: Basis, h: map<NodeKey, Held>)
    requires Dag(g) && g.nodes <= h.Keys
  {
    forall t {:trigger NodeConsistent(g, cs, b, h, t)} :: t in g.nodes ==> NodeConsistent(g, cs, b, h, t)
  }

  ghost predicate NodeConsistent(g: Graph, cs: map<NodeKey, Computer>, b: Basis, h: map<NodeKey, Held>, t: NodeKey)
    requires Dag(g) && g.nodes <= h.Keys && t in g.nodes
  {
    if IsSource(g, t) then
      && h[t].message == (if t in b.stored then b.stored[t] else DEFAULT)
      && h[t].valid == (t in b.stored && t !in b.off)
    else
      && h[t].valid == (t !in b.off && forall f :: (t, f) in g.inputs ==> h[g.inputs[(t, f)]].valid)
      && h[t].message == Settle(cs, t, h[t].valid, HeldInputs(g, b, h, t))
  }

  ghost predicate HoldsEval(g: Graph, cs: map<NodeKey, Computer>, b: Basis, h: map<NodeKey, Held>)
    requires Dag(g)
  {
    && g.nodes <= h.Keys
    && forall t {:trigger NodeHoldsEval(g, cs, b, h, t)} :: t in g.nodes ==> NodeHoldsEval(g, cs, b, h, t)
  }

  ghost predicate NodeHoldsEval(g: Graph, cs: map<NodeKey, Computer>, b: Basis, h: map<NodeKey, Held>, t: NodeKey)
    requires Dag(g) && g.nodes <= h.Keys && t in g.nodes
  {
    h[t].message == EvalMsg(g, cs, b, t) && h[t].valid == EvalValid(g, b, t)
  }

  /** Where the parents hold their evaluation, being consistent is holding one's own. */
  lemma ConsistentStep(g: Graph, cs: map<NodeKey, Computer>, b: Basis, h: map<NodeKey, Held>, t: NodeKey)
    requires Dag(g) && g.nodes <= h.Keys && t in g.nodes
    requires forall f :: (t, f) in g.inputs ==> NodeHoldsEval(g, cs, b, h, g.inputs[(t, f)])
    ensures NodeConsistent(g, cs, b, h, t) <==> NodeHoldsEval(g, cs, b, h, t)
  {
    assert HeldInputs(g, b, h, t) == EvalInputs(g, cs, b, t);
  }

  /** Local consistency has one solution: the from-scratch evaluation. */
  lemma {:induction false} ConsistentIsEval(g: Graph, cs: map<NodeKey, Computer>, b: Basis, h: map<NodeKey, Held>,
                                            t: NodeKey)
    requires Dag(g) && g.nodes <= h.Keys && LocallyConsistent(g, cs, b, h) && t in g.nodes
    ensures NodeHoldsEval(g, cs, b, h, t)
    decreases Level(g, t)
  {
    forall f | (t, f) in g.inputs ensures NodeHoldsEval(g, cs, b, h, g.inputs[(t, f)]) {
      ConsistentIsEval(g, cs, b, h, g.inputs[(t, f)]);
    }
    ConsistentStep(g, cs, b, h, t);
    assert NodeConsistent(g, cs, b, h, t);
  }

  /** A node state is locally consistent everywhere exactly when it is the from-scratch evaluation. */
  lemma ConsistentIffEval(g: Graph, cs: map<NodeKey, Computer>, b: Basis, h: map<NodeKey, Held>)
    requires Dag(g) && g.nodes <= h.Keys
    ensures LocallyConsistent(g, cs, b, h) <==> HoldsEval(g, cs, b, h)
  {
    if LocallyConsistent(g, cs, b, h) {
      forall t | t in g.nodes { ConsistentIsEval(g, cs, b, h, t); }
    }
    if HoldsEval(g, cs, b, h) {
      forall t | t in g.nodes ensures NodeConsistent(g, cs, b, h, t) {
        assert forall f :: (t, f) in g.inputs ==> NodeHoldsEval(g, cs, b, h, g.inputs[(t, f)]);
        ConsistentStep(g, cs, b, h, t);
        assert NodeHoldsEval(g, cs, b, h, t);
      }
    }
  }

  /** There is one such state: it depends on the graph, the compute functions and what the sources hold,
      and on no order in which anything was visited or updated. */
  lemma EvalStateIsUnique(g: Graph, cs: map<NodeKey, Computer>, b: Basis, h: map<NodeKey, Held>, h': map<NodeKey, Held>)
    requires Dag(g) && h.Keys == g.nodes && h'.Keys == g.nodes
    requires LocallyConsistent(g, cs, b, h) && LocallyConsistent(g, cs, b, h')
    ensures h == h'
  {
    forall t | t in g.nodes ensures h[t] == h'[t] {
      ConsistentIsEval(g, cs, b, h, t);
      ConsistentIsEval(g, cs, b, h', t);
    }
  }
}
