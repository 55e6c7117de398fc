/** What the running server computes: the text of every node, spelled out from the texts of the sources. */
module StateTexts {
  import opened Messages
  import opened Graphs
  import opened Schemas
  import opened Evaluation
  import opened Building
  import opened Agreement
  import opened StateProto
  import Propagation

  /** The text field of a node once the sources have been given `latest`. */
  ghost function TextOf(g: Graph, cs: map<NodeKey, Computer>, latest: map<NodeKey, Message>, t: NodeKey): string
    requires Dag(g) && t in g.nodes
  {
    GetText(EvalMsg(g, cs, Propagation.Settled(cs, latest), t), 0)
  }

  /** The node is valid exactly if `ok`; it says `text` then, and nothing otherwise. */
  ghost predicate Says(g: Graph, cs: map<NodeKey, Computer>, latest: map<NodeKey, Message>, t: NodeKey,
                       ok: bool, text: string)
    requires Dag(g)
  {
    && t in g.nodes
    && EvalValid(g, Propagation.Settled(cs, latest), t) == ok
    && TextOf(g, cs, latest, t) == if ok then text else ""
  }

  /** The text of every node, for any messages given to any of the three sources. */
  ghost predicate SaysTexts(g: Graph, cs: map<NodeKey, Computer>, latest: map<NodeKey, Message>)
    requires Dag(g)
  {
    var ok1, ok2, ok3 := SOURCE1 in latest, SOURCE2 in latest, SOURCE3 in latest;
    var a := if ok1 then GetText(latest[SOURCE1], 0) else "";
    var b := if ok2 then GetText(latest[SOURCE2], 0) else "";
    var c := if ok3 then GetText(latest[SOURCE3], 0) else "";
    var inner1 := "_" + a + "_";
    var inner2 := "_" + b + "_";
    var inner3 := "_" + b + "_" + inner1 + "_" + inner2 + "_";
    var inner4 := "_" + c + "_" + inner3 + "_";
    var inner5 := "_" + inner3 + "_" + inner4 + "_";
    var inner6 := "_" + inner4 + "_";
    var inner7 := "_" + inner4 + "_";
    var sink2 := "_" + inner5 + "_" + inner6 + "_" + inner7 + "_";
    && Says(g, cs, latest, SOURCE1, ok1, a)
    && Says(g, cs, latest, SOURCE2, ok2, b)
    && Says(g, cs, latest, SOURCE3, ok3, c)
    && Says(g, cs, latest, INNER1, ok1, inner1)
    && Says(g, cs, latest, INNER2, ok2, inner2)
    && Says(g, cs, latest, INNER3, ok1 && ok2, inner3)
    && Says(g, cs, latest, INNER4, ok1 && ok2 && ok3, inner4)
    && Says(g, cs, latest, INNER5, ok1 && ok2 && ok3, inner5)
    && Says(g, cs, latest, INNER6, ok1 && ok2 && ok3, inner6)
    && Says(g, cs, latest, INNER7, ok1 && ok2 && ok3, inner7)
    && Says(g, cs, latest, SINK2, ok1 && ok2 && ok3, sink2)
  }

  /** The input fields of a type are those after its text, one for each of `inputs`. */
  ghost predicate HasFields(g: Graph, t: NodeKey, inputs: seq<NodeKey>) {
    && (forall f :: (t, f) in g.inputs <==> 1 <= f <= |inputs|)
    && (forall f :: 1 <= f <= |inputs| ==> (t, f) in g.inputs && g.inputs[(t, f)] == inputs[f - 1])
  }

  /** ... and each of them is linked. */
  ghost predicate TakesInputs(g: Graph, t: NodeKey, inputs: seq<NodeKey>) {
    && t in g.nodes && HasFields(g, t, inputs)
    && (forall i :: 0 <= i < |inputs| ==>
          inputs[i] in g.nodes && Linked(g, t, i + 1) && g.inputs[(t, i + 1)] == inputs[i])
  }

  ghost predicate Distinct(keys: seq<NodeKey>) {
    forall i, j :: 0 <= i < j < |keys| ==> keys[i] != keys[j]
  }

  lemma FieldsOfType(schema: Schema, g: Graph, t: NodeKey, inputs: seq<NodeKey>)
    requires Complete(schema, g, t) && schema[t] == NodeType(inputs)
    requires forall i :: 0 <= i < |inputs| ==> inputs[i] in schema && schema[inputs[i]].isNode
    ensures HasFields(g, t, inputs)
  {
    forall f: nat
      ensures (t, f) in g.inputs <==> 1 <= f <= |inputs|
      ensures 1 <= f <= |inputs| ==> g.inputs[(t, f)] == inputs[f - 1]
    {
      assert InputField(schema, t, f) <==> 1 <= f <= |inputs|;
    }
  }

  lemma FirstOfType(g: Graph, t: NodeKey, inputs: seq<NodeKey>, i: nat)
    requires WellFormed(g) && FirstFields(g) && Distinct(inputs) && i < |inputs|
    requires HasFields(g, t, inputs)
    ensures inputs[i] in g.nodes && Linked(g, t, i + 1) && g.inputs[(t, i + 1)] == inputs[i]
  {
    assert (t, i + 1) in g.inputs && g.inputs[(t, i + 1)] == inputs[i];
    LinkedIffFirst(g, t, i + 1);
  }

  lemma InputsOfType(schema: Schema, g: Graph, sinks: set<NodeKey>, t: NodeKey, inputs: seq<NodeKey>)
    requires Finished(schema, g, sinks) && t in g.nodes && t in schema && schema[t] == NodeType(inputs)
    requires Distinct(inputs) && forall i :: 0 <= i < |inputs| ==> inputs[i] in schema && schema[inputs[i]].isNode
    ensures TakesInputs(g, t, inputs)
  {
    hide Complete, ReachedFrom, ClosedSchema, NodeType, Linked, WellFormed, FirstFields, Distinct, HasFields;
    assert Complete(schema, g, t);
    FieldsOfType(schema, g, t, inputs);
    forall i | 0 <= i < |inputs|
      ensures inputs[i] in g.nodes && Linked(g, t, i + 1) && g.inputs[(t, i + 1)] == inputs[i]
    {
      FirstOfType(g, t, inputs, i);
    }
  }

  lemma TakerIsValid(g: Graph, b: Basis, t: NodeKey, inputs: seq<NodeKey>)
    requires Dag(g) && TakesInputs(g, t, inputs) && inputs != [] && b.off == {}
    ensures EvalValid(g, b, t) <==> forall i :: 0 <= i < |inputs| ==> EvalValid(g, b, inputs[i])
  {
    hide Acyclic;
    assert (t, 1) in g.inputs;
    if forall i :: 0 <= i < |inputs| ==> EvalValid(g, b, inputs[i]) {
      forall f | (t, f) in g.inputs ensures EvalValid(g, b, g.inputs[(t, f)]) {
        assert g.inputs[(t, (f - 1) + 1)] == inputs[f - 1];
      }
    }
    if EvalValid(g, b, t) {
      forall i | 0 <= i < |inputs| ensures EvalValid(g, b, inputs[i]) {
        assert (t, i + 1) in g.inputs;
      }
    }
  }

  /** A node whose function composes `text` says that text of its inputs once it is valid. */
  lemma ComposedSays(g: Graph, cs: map<NodeKey, Computer>, latest: map<NodeKey, Message>, t: NodeKey,
                     inputs: seq<NodeKey>, text: Message -> string)
    requires Dag(g) && TakesInputs(g, t, inputs) && inputs != [] && t in cs && cs[t] == Compose(text)
    ensures var b := Propagation.Settled(cs, latest);
      var m := EvalInputs(g, cs, b, t);
      && (EvalValid(g, b, t) <==> forall i :: 0 <= i < |inputs| ==> EvalValid(g, b, inputs[i]))
      && TextOf(g, cs, latest, t) == (if EvalValid(g, b, t) then text(m) else "")
      && forall i :: 0 <= i < |inputs| ==> GetText(GetSub(m, i + 1), 0) == TextOf(g, cs, latest, inputs[i])
  {
    var b := Propagation.Settled(cs, latest);
    TakerIsValid(g, b, t, inputs);
    hide WellFormed, Acyclic, EvalValid;
    assert (t, 1) in g.inputs && (t, 0) !in g.inputs;
    forall i | 0 <= i < |inputs|
      ensures GetText(GetSub(EvalInputs(g, cs, b, t), i + 1), 0) == TextOf(g, cs, latest, inputs[i])
    {
      if !Touched(g, b.stored.Keys, inputs[i]) {
        UntouchedIsDefault(g, cs, b, inputs[i]);
      }
    }
  }

  lemma SourceSays(g: Graph, cs: map<NodeKey, Computer>, latest: map<NodeKey, Message>, s: NodeKey)
    requires Dag(g) && TakesInputs(g, s, []) && s !in cs
    ensures Says(g, cs, latest, s, s in latest, if s in latest then GetText(latest[s], 0) else "")
  {
    hide WellFormed, Acyclic;
    assert IsSource(g, s);
  }

  lemma Says1(g: Graph, cs: map<NodeKey, Computer>, latest: map<NodeKey, Message>, t: NodeKey,
              p: NodeKey, ok: bool, x: string)
    requires Dag(g) && TakesInputs(g, t, [p]) && t in cs && cs[t] == Compose(Join1)
    requires Says(g, cs, latest, p, ok, x)
    ensures Says(g, cs, latest, t, ok, "_" + x + "_")
  {
    hide WellFormed, Acyclic, EvalValid, EvalInputs, TextOf, Compose, TakesInputs;
    ComposedSays(g, cs, latest, t, [p], Join1);
    TakerIsNode(g, t, [p]);
    assert [p][0] == p;
  }

  lemma TakerIsNode(g: Graph, t: NodeKey, inputs: seq<NodeKey>)
    requires TakesInputs(g, t, inputs)
    ensures t in g.nodes && forall i :: 0 <= i < |inputs| ==> inputs[i] in g.nodes
  {
  }

  lemma Says2(g: Graph, cs: map<NodeKey, Computer>, latest: map<NodeKey, Message>, t: NodeKey,
              p: NodeKey, okP: bool, x: string, q: NodeKey, okQ: bool, y: string)
    requires Dag(g) && TakesInputs(g, t, [p, q]) && t in cs && cs[t] == Compose(Join2)
    requires Says(g, cs, latest, p, okP, x) && Says(g, cs, latest, q, okQ, y)
    ensures Says(g, cs, latest, t, okP && okQ, "_" + x + "_" + y + "_")
  {
    hide WellFormed, Acyclic, EvalValid, EvalInputs, TextOf, Compose, TakesInputs;
    ComposedSays(g, cs, latest, t, [p, q], Join2);
    TakerIsNode(g, t, [p, q]);
    assert [p, q][0] == p && [p, q][1] == q;
  }

  lemma SaysInner3(g: Graph, cs: map<NodeKey, Computer>, latest: map<NodeKey, Message>, t: NodeKey,
                   p: NodeKey, okP: bool, x: string, q: NodeKey, okQ: bool, y: string, r: NodeKey, okR: bool, z: string)
    requires Dag(g) && TakesInputs(g, t, [p, q, r]) && t in cs && cs[t] == Compose(JoinInner3)
    requires Says(g, cs, latest, p, okP, x) && Says(g, cs, latest, q, okQ, y) && Says(g, cs, latest, r, okR, z)
    ensures Says(g, cs, latest, t, okP && okQ && okR, "_" + z + "_" + x + "_" + y + "_")
  {
    hide WellFormed, Acyclic, EvalValid, EvalInputs, TextOf, Compose, TakesInputs;
    ComposedSays(g, cs, latest, t, [p, q, r], JoinInner3);
    TakerIsNode(g, t, [p, q, r]);
    assert [p, q, r][0] == p && [p, q, r][1] == q && [p, q, r][2] == r;
  }

  lemma SaysSink2(g: Graph, cs: map<NodeKey, Computer>, latest: map<NodeKey, Message>, t: NodeKey,
                  p: NodeKey, okP: bool, x: string, q: NodeKey, okQ: bool, y: string, r: NodeKey, okR: bool, z: string)
    requires Dag(g) && TakesInputs(g, t, [p, q, r]) && t in cs && cs[t] == Compose(JoinSink2)
    requires Says(g, cs, latest, p, okP, x) && Says(g, cs, latest, q, okQ, y) && Says(g, cs, latest, r, okR, z)
    ensures Says(g, cs, latest, t, okP && okQ && okR, "_" + x + "_" + y + "_" + z + "_")
  {
    hide WellFormed, Acyclic, EvalValid, EvalInputs, TextOf, Compose, TakesInputs;
    ComposedSays(g, cs, latest, t, [p, q, r], JoinSink2);
    TakerIsNode(g, t, [p, q, r]);
    assert [p, q, r][0] == p && [p, q, r][1] == q && [p, q, r][2] == r;
  }

  /** The finished graph of the server has all eleven types. */
  ghost predicate StateInputs(g: Graph) {
    && TakesInputs(g, SINK2, [INNER5, INNER6, INNER7])
    && TakesInputs(g, INNER7, [INNER4])
    && TakesInputs(g, INNER6, [INNER4])
    && TakesInputs(g, INNER5, [INNER3, INNER4])
    && TakesInputs(g, INNER4, [SOURCE3, INNER3])
    && TakesInputs(g, INNER3, [INNER1, INNER2, SOURCE2])
    && TakesInputs(g, INNER2, [SOURCE2])
    && TakesInputs(g, INNER1, [SOURCE1])
    && TakesInputs(g, SOURCE3, [])
    && TakesInputs(g, SOURCE2, [])
    && TakesInputs(g, SOURCE1, [])
  }

  lemma TypeOfState(t: NodeKey, inputs: seq<NodeKey>)
    requires (t, inputs) in StateTypes()
    ensures t in StateSchema() && StateSchema()[t] == NodeType(inputs) && Distinct(inputs)
    ensures forall i :: 0 <= i < |inputs| ==> inputs[i] in StateSchema() && StateSchema()[inputs[i]].isNode
  {
  }

  function StateTypes(): set<(NodeKey, seq<NodeKey>)> {
    {(SINK2, [INNER5, INNER6, INNER7]), (INNER7, [INNER4]), (INNER6, [INNER4]), (INNER5, [INNER3, INNER4]),
     (INNER4, [SOURCE3, INNER3]), (INNER3, [INNER1, INNER2, SOURCE2]), (INNER2, [SOURCE2]), (INNER1, [SOURCE1]),
     (SOURCE3, []), (SOURCE2, []), (SOURCE1, [])}
  }

  lemma StateInput(g: Graph, t: NodeKey, inputs: seq<NodeKey>)
    requires Finished(StateSchema(), g, {SINK2}) && t in g.nodes && (t, inputs) in StateTypes()
    ensures TakesInputs(g, t, inputs) && forall k :: k in inputs ==> k in g.nodes
  {
    hide Finished, StateSchema, StateTypes;
    TypeOfState(t, inputs);
    InputsOfType(StateSchema(), g, {SINK2}, t, inputs);
  }

  lemma StateHasInputs(g: Graph)
    requires Finished(StateSchema(), g, {SINK2})
    ensures StateInputs(g)
  {
    assert SINK2 in g.nodes;
    hide Finished, StateSchema, TakesInputs;
    StateInput(g, SINK2, [INNER5, INNER6, INNER7]);
    StateInput(g, INNER7, [INNER4]);
    StateInput(g, INNER6, [INNER4]);
    StateInput(g, INNER5, [INNER3, INNER4]);
    StateInput(g, INNER4, [SOURCE3, INNER3]);
    StateInput(g, INNER3, [INNER1, INNER2, SOURCE2]);
    StateInput(g, INNER2, [SOURCE2]);
    StateInput(g, INNER1, [SOURCE1]);
    StateInput(g, SOURCE3, []);
    StateInput(g, SOURCE2, []);
    StateInput(g, SOURCE1, []);
  }

  /** What the registered functions compose. */
  ghost predicate Registered(cs: map<NodeKey, Computer>) {
    && cs.Keys == {INNER1, INNER2, INNER3, INNER4, INNER5, INNER6, INNER7, SINK2}
    && cs[INNER1] == Compose(Join1) && cs[INNER2] == Compose(Join1) && cs[INNER3] == Compose(JoinInner3)
    && cs[INNER4] == Compose(Join2) && cs[INNER5] == Compose(Join2) && cs[INNER6] == Compose(Join1)
    && cs[INNER7] == Compose(Join1) && cs[SINK2] == Compose(JoinSink2)
  }

  lemma AllRegistered()
    ensures Registered(ComputersUpTo(|COMPUTED|))
  {
    var cs := ComputersUpTo(|COMPUTED|);
    assert COMPUTED[..|COMPUTED|] == COMPUTED;
    forall t ensures t in cs <==> t in {INNER1, INNER2, INNER3, INNER4, INNER5, INNER6, INNER7, SINK2} {}
  }

  /** Whatever messages the sources have been given, the server's tree says the texts above. */
  lemma StateSaysTexts(g: Graph, cs: map<NodeKey, Computer>, latest: map<NodeKey, Message>)
    requires Dag(g) && StateInputs(g) && Registered(cs)
    ensures SaysTexts(g, cs, latest)
  {
    hide WellFormed, Acyclic, TakesInputs, Says, Compose;
    var ok1, ok2, ok3 := SOURCE1 in latest, SOURCE2 in latest, SOURCE3 in latest;
    var a := if ok1 then GetText(latest[SOURCE1], 0) else "";
    var b := if ok2 then GetText(latest[SOURCE2], 0) else "";
    var c := if ok3 then GetText(latest[SOURCE3], 0) else "";
    var ok12, ok123 := ok1 && ok2, ok1 && ok2 && ok3;
    SourceSays(g, cs, latest, SOURCE1);
    SourceSays(g, cs, latest, SOURCE2);
    SourceSays(g, cs, latest, SOURCE3);
    var inner1, inner2 := "_" + a + "_", "_" + b + "_";
    Says1(g, cs, latest, INNER1, SOURCE1, ok1, a);
    Says1(g, cs, latest, INNER2, SOURCE2, ok2, b);
    var inner3 := "_" + b + "_" + inner1 + "_" + inner2 + "_";
    SaysInner3(g, cs, latest, INNER3, INNER1, ok1, inner1, INNER2, ok2, inner2, SOURCE2, ok2, b);
    var inner4 := "_" + c + "_" + inner3 + "_";
    Says2(g, cs, latest, INNER4, SOURCE3, ok3, c, INNER3, ok12, inner3);
    var inner67 := "_" + inner4 + "_";
    Says2(g, cs, latest, INNER5, INNER3, ok12, inner3, INNER4, ok123, inner4);
    Says1(g, cs, latest, INNER6, INNER4, ok123, inner4);
    Says1(g, cs, latest, INNER7, INNER4, ok123, inner4);
    SaysSink2(g, cs, latest, SINK2, INNER5, ok123, "_" + inner3 + "_" + inner4 + "_", INNER6, ok123, inner67,
              INNER7, ok123, inner67);
  }

  lemma TakerIsSource(g: Graph, t: NodeKey, inputs: seq<NodeKey>)
    requires TakesInputs(g, t, inputs)
    ensures t in g.nodes && (IsSource(g, t) <==> inputs == [])
  {
    if inputs != [] {
      assert (t, 1) in g.inputs;
    }
  }

  lemma FinishedInSchema(schema: Schema, g: Graph, sinks: set<NodeKey>)
    requires Finished(schema, g, sinks)
    ensures g.nodes <= schema.Keys
  {
    forall t | t in g.nodes ensures t in schema {
      assert Complete(schema, g, t);
    }
  }

  lemma StateKeys()
    ensures StateSchema().Keys
         == {SOURCE1, SOURCE2, SOURCE3, INNER1, INNER2, INNER3, INNER4, INNER5, INNER6, INNER7, SINK2}
  {
  }

  /** The types of the server's tree, and which of them are sources. */
  lemma StateNodes(g: Graph, sources: set<NodeKey>)
    requires Finished(StateSchema(), g, {SINK2}) && StateInputs(g)
    requires forall t :: t in sources <==> t in g.nodes && IsSource(g, t)
    ensures sources == {SOURCE1, SOURCE2, SOURCE3}
    ensures g.nodes - sources == {INNER1, INNER2, INNER3, INNER4, INNER5, INNER6, INNER7, SINK2}
  {
    hide Finished, StateSchema, TakesInputs, IsSource;
    FinishedInSchema(StateSchema(), g, {SINK2});
    StateKeys();
    TakerIsSource(g, SINK2, [INNER5, INNER6, INNER7]);
    TakerIsSource(g, INNER7, [INNER4]);
    TakerIsSource(g, INNER6, [INNER4]);
    TakerIsSource(g, INNER5, [INNER3, INNER4]);
    TakerIsSource(g, INNER4, [SOURCE3, INNER3]);
    TakerIsSource(g, INNER3, [INNER1, INNER2, SOURCE2]);
    TakerIsSource(g, INNER2, [SOURCE2]);
    TakerIsSource(g, INNER1, [SOURCE1]);
    TakerIsSource(g, SOURCE3, []);
    TakerIsSource(g, SOURCE2, []);
    TakerIsSource(g, SOURCE1, []);
  }

  /** The server's tree, all of it: its sources, a function for every other type, and what they say. */
  lemma StateIsComputed(g: Graph, sources: set<NodeKey>)
    requires Dag(g) && Finished(StateSchema(), g, {SINK2})
    requires forall t :: t in sources <==> t in g.nodes && IsSource(g, t)
    ensures var cs := ComputersUpTo(|COMPUTED|);
      && sources == {SOURCE1, SOURCE2, SOURCE3} && g.nodes - sources == cs.Keys
      && forall latest :: SaysTexts(g, cs, latest)
  {
    hide Finished, StateSchema, IsSource, WellFormed, Acyclic, SaysTexts, StateInputs, ComputersUpTo;
    StateHasInputs(g);
    AllRegistered();
    StateNodes(g, sources);
    forall latest ensures SaysTexts(g, ComputersUpTo(|COMPUTED|), latest) {
      StateSaysTexts(g, ComputersUpTo(|COMPUTED|), latest);
    }
  }
}
