/** Where copies and presence tell the truth: exactly where no message holds one node type twice. */
module Agreement {
  import opened Messages
  import opened Graphs
  import opened Schemas
  import opened Evaluation
  import opened Building

  /** A field is kept up to date exactly when it is the first field of its type in its message. */
  lemma LinkedIffFirst(g: Graph, t: NodeKey, f: nat)
    requires WellFormed(g) && FirstFields(g) && (t, f) in g.inputs
    ensures Linked(g, t, f) <==> forall i :: (t, i) in g.inputs && g.inputs[(t, i)] == g.inputs[(t, f)] ==> f <= i
  {
    var p := g.inputs[(t, f)];
    var i := g.outputs[(p, t)];
    assert (t, i) in g.inputs && g.inputs[(t, i)] == p;
  }

  /** Every source stored. */
  ghost function AllStored(g: Graph): map<NodeKey, Message> {
    map s | s in g.nodes && IsSource(g, s) :: DEFAULT
  }

  lemma {:induction false} AllStoredTouches(g: Graph, t: NodeKey)
    requires Dag(g) && t in g.nodes
    ensures Touched(g, AllStored(g).Keys, t)
    decreases Level(g, t)
  {
    if !IsSource(g, t) {
      var f :| (t, f) in g.inputs;
      AllStoredTouches(g, g.inputs[(t, f)]);
    }
  }

  /** The copy that field `f` of `t` holds: set exactly if its parent has been touched, and then equal to
      its parent's message. */
  ghost predicate CopyAgrees(g: Graph, cs: map<NodeKey, Computer>, b: Basis, t: NodeKey, f: nat)
    requires Dag(g) && (t, f) in g.inputs
  {
    var m, p := EvalMsg(g, cs, b, t), g.inputs[(t, f)];
    && (f in m.fields <==> Touched(g, b.stored.Keys, p))
    && (f in m.fields ==> m.fields[f] == Sub(EvalMsg(g, cs, b, p)))
  }

  /** A field agrees with its parent in every state of the sources if and only if it is linked; a second
      field of the same type stays unset for ever. */
  lemma CopyAgreesIffLinked(g: Graph, cs: map<NodeKey, Computer>, t: NodeKey, f: nat)
    requires Dag(g) && AllWellBehaved(g, cs) && (t, f) in g.inputs
    ensures Linked(g, t, f) <==> forall stored: map<NodeKey, Message> :: CopyAgrees(g, cs, Basis(stored, {}), t, f)
  {
    if Linked(g, t, f) {
      forall stored: map<NodeKey, Message> ensures CopyAgrees(g, cs, Basis(stored, {}), t, f) {
        EvalKeepsInputs(g, cs, Basis(stored, {}), t, f);
      }
    } else {
      UnlinkedStaysUnset(g, cs, Basis(AllStored(g), {}), t, f);
      AllStoredTouches(g, g.inputs[(t, f)]);
      assert !CopyAgrees(g, cs, Basis(AllStored(g), {}), t, f);
    }
  }

  /** In any one state, reading the field gives the parent's message if and only if the field is linked
      or there is nothing to see in the parent. */
  lemma CopyReadsRightIff(g: Graph, cs: map<NodeKey, Computer>, b: Basis, t: NodeKey, f: nat)
    requires Dag(g) && AllWellBehaved(g, cs) && (t, f) in g.inputs
    ensures GetSub(EvalMsg(g, cs, b, t), f) == EvalMsg(g, cs, b, g.inputs[(t, f)])
       <==> Linked(g, t, f) || EvalMsg(g, cs, b, g.inputs[(t, f)]) == DEFAULT
  {
    if Linked(g, t, f) {
      LinkedFieldAgrees(g, cs, b, t, f);
    } else {
      UnlinkedStaysUnset(g, cs, b, t, f);
    }
  }

  lemma UnlinkedStaysUnset(g: Graph, cs: map<NodeKey, Computer>, b: Basis, t: NodeKey, f: nat)
    requires Dag(g) && AllWellBehaved(g, cs) && (t, f) in g.inputs && !Linked(g, t, f)
    ensures f !in EvalMsg(g, cs, b, t).fields
  {
    EvalKeepsInputs(g, cs, b, t, f);
  }

  // ------------------------------------------------------------------ validity read from presence

  /** What a receiver concludes from presence alone. */
  ghost predicate PresenceValid(g: Graph, t: NodeKey, m: Message, isSink: bool, existed: bool)
    requires Dag(g) && t in g.nodes
    decreases Level(g, t)
  {
    if IsSource(g, t) then isSink || existed
    else forall f :: (t, f) in g.inputs ==>
      f in m.fields && PresenceValid(g, g.inputs[(t, f)], GetSub(m, f), false, true)
  }

  /** No message at or above `t` holds one node type twice. */
  ghost predicate LinkedAbove(g: Graph, t: NodeKey)
    requires Dag(g) && t in g.nodes
    decreases Level(g, t)
  {
    forall f :: (t, f) in g.inputs ==> Linked(g, t, f) && LinkedAbove(g, g.inputs[(t, f)])
  }

  /** On a snapshot taken after an update, presence says valid exactly when the server's flag does and
      every message at or above the node has its types only once. */
  lemma {:induction false} PresenceIsValidity(g: Graph, cs: map<NodeKey, Computer>, stored: map<NodeKey, Message>,
                                              t: NodeKey)
    requires Dag(g) && AllWellBehaved(g, cs) && t in g.nodes
    ensures var b := Basis(stored, {});
      PresenceValid(g, t, EvalMsg(g, cs, b, t), false, Touched(g, stored.Keys, t)) <==>
      EvalValid(g, b, t) && LinkedAbove(g, t)
    decreases Level(g, t)
  {
    var b := Basis(stored, {});
    var m := EvalMsg(g, cs, b, t);
    hide AllWellBehaved, EvalMsg, Linked, WellFormed, Acyclic;
    InputsAreNodes(g, t);
    if !IsSource(g, t) {
      forall f | (t, f) in g.inputs
        ensures f in m.fields && PresenceValid(g, g.inputs[(t, f)], GetSub(m, f), false, true)
           <==> EvalValid(g, b, g.inputs[(t, f)]) && Linked(g, t, f) && LinkedAbove(g, g.inputs[(t, f)])
      {
        PresenceOfInput(g, cs, b, t, f);
        PresenceIsValidity(g, cs, stored, g.inputs[(t, f)]);
      }
    }
  }

  lemma InputsAreNodes(g: Graph, t: NodeKey)
    requires Dag(g)
    ensures forall f :: (t, f) in g.inputs ==>
      g.inputs[(t, f)] in g.nodes && t in g.nodes && Level(g, g.inputs[(t, f)]) < Level(g, t)
  {
  }

  lemma PresenceOfInput(g: Graph, cs: map<NodeKey, Computer>, b: Basis, t: NodeKey, f: nat)
    requires Dag(g) && AllWellBehaved(g, cs) && (t, f) in g.inputs
    ensures var m, p := EvalMsg(g, cs, b, t), g.inputs[(t, f)];
      && (f in m.fields <==> Linked(g, t, f) && Touched(g, b.stored.Keys, p))
      && (f in m.fields ==> GetSub(m, f) == EvalMsg(g, cs, b, p))
      && (EvalValid(g, b, p) ==> Touched(g, b.stored.Keys, p))
  {
    EvalKeepsInputs(g, cs, b, t, f);
    if EvalValid(g, b, g.inputs[(t, f)]) {
      ValidIsTouched(g, b, g.inputs[(t, f)]);
    }
  }

  /** The receiver is right about a sink with inputs, whatever the sources hold, if and only if no message
      at or above the sink holds one node type twice. */
  lemma PresenceAgreesIffLinked(g: Graph, cs: map<NodeKey, Computer>, t: NodeKey)
    requires Dag(g) && AllWellBehaved(g, cs) && t in g.nodes && !IsSource(g, t)
    ensures LinkedAbove(g, t) <==>
      forall stored: map<NodeKey, Message> :: var b := Basis(stored, {});
        PresenceValid(g, t, EvalMsg(g, cs, b, t), true, true) == EvalValid(g, b, t)
  {
    forall stored: map<NodeKey, Message>
      ensures var b := Basis(stored, {});
        PresenceValid(g, t, EvalMsg(g, cs, b, t), true, true) == (EvalValid(g, b, t) && LinkedAbove(g, t))
    {
      PresenceIsValidity(g, cs, stored, t);
    }
    ValidIffAllSourcesStored(g, AllStored(g), t);
    var b := Basis(AllStored(g), {});
    assert EvalValid(g, b, t);
    assert PresenceValid(g, t, EvalMsg(g, cs, b, t), true, true) == (EvalValid(g, b, t) && LinkedAbove(g, t));
  }

  lemma NodeFieldIsInput(schema: Schema, g: Graph, t: NodeKey, i: nat)
    requires Complete(schema, g, t) && i < |schema[t].fields|
    ensures NodeField(schema, t, i) <==> (t, i) in g.inputs
    ensures NodeField(schema, t, i) ==> g.inputs[(t, i)] == schema[t].fields[i].kind.of
  {
    assert !NodeInOneof(schema, t, i);
    assert InputField(schema, t, i) <==> NodeField(schema, t, i);
  }

  /** The recursive reading of validity, field by field. Unset submessages are visited too, as defaults,
      and become set in the copy being read. */
  method ReadValidity(schema: Schema, ghost g: Graph, t: NodeKey, message: Message, isSink: bool, existed: bool)
    returns (valid: bool)
    requires Dag(g) && t in g.nodes
    requires forall u {:trigger Complete(schema, g, u)} :: u in g.nodes ==> Complete(schema, g, u)
    ensures valid == PresenceValid(g, t, message, isSink, existed)
    decreases Level(g, t)
  {
    assert Complete(schema, g, t);
    hide CompleteUpTo, Acyclic;
    var copy := message;
    var isSource := true;
    valid := true;
    for i := 0 to |schema[t].fields|
      invariant isSource <==> forall f :: f < i ==> (t, f) !in g.inputs
      invariant valid <==> forall f :: f < i && (t, f) in g.inputs ==>
        f in message.fields && PresenceValid(g, g.inputs[(t, f)], GetSub(message, f), false, true)
      invariant forall f: nat :: i <= f ==> SameField(message, copy, f)
    {
      var field := schema[t].fields[i];
      if !field.repeated && field.kind.MessageOf? {
        assert SameField(message, copy, i);
        var hasField := i in copy.fields;
        ghost var before := copy;
        copy := SetSub(copy, i, GetSub(copy, i));
        forall f: nat | i < f ensures SameField(message, copy, f) { assert SameField(message, before, f); }
        if field.kind.of in schema && schema[field.kind.of].isNode {
          NodeFieldIsInput(schema, g, t, i);
          var childValid := ReadValidity(schema, g, field.kind.of, GetSub(copy, i), false, hasField);
          isSource := false;
          valid := valid && hasField && childValid;
        }
      }
    }
    if !isSink && isSource {
      valid := existed;
    }
  }

  // ------------------------------------------------------------------ a message with twins

  const PARENT := NodeKey(0)
  const CHILD := NodeKey(1)

  /** `CHILD` has two fields of type `PARENT`. */
  const TWIN_GRAPH := Graph({PARENT, CHILD}, map[(CHILD, 0) := PARENT, (CHILD, 1) := PARENT], map[(PARENT, CHILD) := 0])

  /** After its only source is updated the child is flagged valid, yet its second field was never filled. */
  lemma TwinStaysUnset(raw: Message)
    requires raw != DEFAULT
    ensures Dag(TWIN_GRAPH) && FirstFields(TWIN_GRAPH)
    ensures var b := Basis(map[PARENT := raw], {});
      && EvalValid(TWIN_GRAPH, b, CHILD)
      && GetSub(EvalMsg(TWIN_GRAPH, map[], b, CHILD), 1) != EvalMsg(TWIN_GRAPH, map[], b, PARENT)
      && !PresenceValid(TWIN_GRAPH, CHILD, EvalMsg(TWIN_GRAPH, map[], b, CHILD), true, true)
  {
    var g, b := TWIN_GRAPH, Basis(map[PARENT := raw], {});
    assert IsRanking(g, Ranking(map[PARENT := 0, CHILD := 1], 2));
    assert (CHILD, 0) in g.inputs;
    assert IsSource(g, PARENT) && !IsSource(g, CHILD);
    UnlinkedStaysUnset(g, map[], b, CHILD, 1);
  }
}
