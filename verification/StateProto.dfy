/** The message types of the running server and the functions it registers for them. */
module StateProto {
  import opened Messages
  import opened Graphs
  import opened Schemas
  import opened Evaluation
  import opened Building

  const SOURCE1 := NodeKey(1)
  const SOURCE2 := NodeKey(2)
  const SOURCE3 := NodeKey(3)
  const INNER1 := NodeKey(4)
  const INNER2 := NodeKey(5)
  const INNER3 := NodeKey(6)
  const INNER4 := NodeKey(7)
  const INNER5 := NodeKey(8)
  const INNER6 := NodeKey(9)
  const INNER7 := NodeKey(10)
  const SINK2 := NodeKey(11)

  /** A node message: a string field, then one singular field per type it is computed from. */
  function NodeType(inputs: seq<NodeKey>): TypeDesc {
    var inputFields := seq(|inputs|, i requires 0 <= i < |inputs| => FieldDesc(false, false, MessageOf(inputs[i])));
    TypeDesc(true, [FieldDesc(false, false, Scalar)] + inputFields)
  }

  function StateSchema(): Schema {
    map[
      SOURCE1 := NodeType([]),
      SOURCE2 := NodeType([]),
      SOURCE3 := NodeType([]),
      INNER1 := NodeType([SOURCE1]),
      INNER2 := NodeType([SOURCE2]),
      INNER3 := NodeType([INNER1, INNER2, SOURCE2]),
      INNER4 := NodeType([SOURCE3, INNER3]),
      INNER5 := NodeType([INNER3, INNER4]),
      INNER6 := NodeType([INNER4]),
      INNER7 := NodeType([INNER4]),
      SINK2 := NodeType([INNER5, INNER6, INNER7])
    ]
  }

  /** The string field of a submessage. */
  function State(m: Message, f: nat): string {
    GetText(GetSub(m, f), 0)
  }

  /** Sets field 0 to a text made from the input fields. */
  function Compose(text: Message -> string): Computer {
    Computer(m => SetText(m, 0, text(m)), {0})
  }

  function Join1(m: Message): string { "_" + State(m, 1) + "_" }

  function Join2(m: Message): string { "_" + State(m, 1) + "_" + State(m, 2) + "_" }

  function JoinInner3(m: Message): string { "_" + State(m, 3) + "_" + State(m, 1) + "_" + State(m, 2) + "_" }

  function JoinSink2(m: Message): string { "_" + State(m, 1) + "_" + State(m, 2) + "_" + State(m, 3) + "_" }

  /** Registered for every type but the sources. */
  function ComputerFor(t: NodeKey): Computer {
    if t == INNER3 then Compose(JoinInner3)
    else if t == INNER4 || t == INNER5 then Compose(Join2)
    else if t == SINK2 then Compose(JoinSink2)
    else Compose(Join1)
  }

  const COMPUTED: seq<NodeKey> := [INNER1, INNER2, INNER3, INNER4, INNER5, INNER6, INNER7, SINK2]

  /** The first `n` registrations. */
  function ComputersUpTo(n: nat): (cs: map<NodeKey, Computer>)
    requires n <= |COMPUTED|
    ensures forall t :: t in cs <==> t in COMPUTED[..n]
    ensures forall t :: t in cs ==> cs[t] == ComputerFor(t)
  {
    map t | t in COMPUTED[..n] :: ComputerFor(t)
  }

  lemma SetTextElsewhere(m: Message, s: string)
    ensures SetText(m, 0, s).fields - {0} == m.fields - {0}
    ensures Only(SetText(m, 0, s), {0}) == if s == "" then DEFAULT else Message(map[0 := Text(s)])
  {
    assert forall f :: f in SetText(m, 0, s).fields - {0} <==> f in m.fields - {0};
    SameMessage(Only(SetText(m, 0, s), {0}), if s == "" then DEFAULT else Message(map[0 := Text(s)]));
  }

  /** A text made from input fields alone is all a compute function may depend on. */
  lemma ComposeIsWellBehaved(text: Message -> string, ins: set<nat>)
    requires 0 !in ins && forall m: Message :: text(m) == text(Only(m, ins))
    ensures WellBehaved(Compose(text), ins)
  {
    var c := Compose(text);
    forall m: Message ensures c.run(m).fields - {0} == m.fields - {0} {
      SetTextElsewhere(m, text(m));
    }
    forall m: Message ensures Only(c.run(m), {0}) == Only(c.run(Only(m, ins)), {0}) {
      assert text(m) == text(Only(m, ins));
      SetTextElsewhere(m, text(m));
      SetTextElsewhere(Only(m, ins), text(m));
    }
  }

  lemma StateReadsInputs(m: Message, ins: set<nat>, f: nat)
    requires f in ins
    ensures State(Only(m, ins), f) == State(m, f)
  {
  }

  /** Every type is described after the types it is computed from. */
  lemma InputsComeFirst(t: NodeKey, f: nat)
    requires InputField(StateSchema(), t, f)
    ensures StateSchema()[t].fields[f].kind.of.address < t.address <= 11 && f >= 1
  {
    assert t in {SOURCE1, SOURCE2, SOURCE3, INNER1, INNER2, INNER3, INNER4, INNER5, INNER6, INNER7, SINK2};
  }

  lemma StateSchemaIsClosed()
    ensures ClosedSchema(StateSchema())
    ensures forall t :: t in StateSchema() ==>
      t.address < 12 && StateSchema()[t].isNode && forall f: nat :: !NodeInOneof(StateSchema(), t, f)
  {
  }

  /** The server's type graph is acyclic. */
  lemma StateGraphIsAcyclic(g: Graph, sinks: set<NodeKey>)
    requires Finished(StateSchema(), g, sinks)
    ensures Acyclic(g)
  {
    hide StateSchema, ReachedFrom, CompleteUpTo;
    StateSchemaIsClosed();
    var r := Ranking(map t | t in g.nodes :: t.address, 12);
    forall t | t in g.nodes ensures t.address < 12 {
      assert Complete(StateSchema(), g, t);
    }
    forall c, f | (c, f) in g.inputs ensures g.inputs[(c, f)].address < c.address {
      CompleteEdge(StateSchema(), g, c, f);
      InputsComeFirst(c, f);
    }
    assert IsRanking(g, r);
  }

  /** Every function the server registers reads input fields only and sets none of them. */
  lemma RegisteredFunctionsAreWellBehaved(g: Graph, sinks: set<NodeKey>)
    requires Finished(StateSchema(), g, sinks)
    ensures AllWellBehaved(g, ComputersUpTo(|COMPUTED|))
  {
    hide StateSchema, ReachedFrom, ComputerFor, WellBehaved;
    var cs := ComputersUpTo(|COMPUTED|);
    forall t | t in cs && t in g.nodes && !IsSource(g, t) ensures WellBehaved(cs[t], InputFields(g, t)) {
      CompleteInputs(StateSchema(), g, t);
      ComputerIsWellBehaved(t, InputFields(g, t));
    }
  }

  lemma ComputedInputs(t: NodeKey)
    requires t in COMPUTED
    ensures !InputField(StateSchema(), t, 0) && InputField(StateSchema(), t, 1)
    ensures t in {INNER3, INNER4, INNER5, SINK2} ==> InputField(StateSchema(), t, 2)
    ensures t in {INNER3, SINK2} ==> InputField(StateSchema(), t, 3)
  {
  }

  lemma ComputerIsWellBehaved(t: NodeKey, ins: set<nat>)
    requires t in COMPUTED && forall f: nat :: f in ins <==> InputField(StateSchema(), t, f)
    ensures WellBehaved(ComputerFor(t), ins)
  {
    ComputedInputs(t);
    hide StateSchema, InputField, WellBehaved;
    assert 0 !in ins && 1 in ins;
    forall m: Message, f: nat | f in ins ensures State(Only(m, ins), f) == State(m, f) {
      StateReadsInputs(m, ins, f);
    }
    if t == INNER3 {
      assert 2 in ins && 3 in ins;
      ComposeIsWellBehaved(JoinInner3, ins);
    } else if t == INNER4 || t == INNER5 {
      assert 2 in ins;
      ComposeIsWellBehaved(Join2, ins);
    } else if t == SINK2 {
      assert 2 in ins && 3 in ins;
      ComposeIsWellBehaved(JoinSink2, ins);
    } else {
      ComposeIsWellBehaved(Join1, ins);
    }
  }

  lemma NoOneofInState(key: NodeKey)
    ensures !OneofReached(StateSchema(), key)
  {
    StateSchemaIsClosed();
  }

  lemma WritesFitState(t: NodeKey, f: nat)
    requires t in COMPUTED && f in ComputerFor(t).writes
    ensures t in StateSchema() && f < |StateSchema()[t].fields|
  {
  }
}
