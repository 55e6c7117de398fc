/** Protobuf messages as immutable trees with presence, and the BlockingQueue that carries them. */
module Messages {

  /** The content of a field that is present: a nested message, or the text of anything else. */
  datatype Field = Text(text: string) | Sub(msg: Message)

  /** A message holds its present fields, keyed by field index. An absent field reads as its default. */
  datatype Message = Message(fields: map<nat, Field>)

  const DEFAULT: Message := Message(map[])

  function Clear(m: Message, f: nat): Message {
    Message(m.fields - {f})
  }

  /** `MutableMessage(m, f)->CopyFrom(x)` */
  function SetSub(m: Message, f: nat, x: Message): Message {
    Message(m.fields[f := Sub(x)])
  }

  /** Setting a string field to the empty string leaves it at its default. */
  function SetText(m: Message, f: nat, s: string): Message {
    if s == "" then Clear(m, f) else Message(m.fields[f := Text(s)])
  }

  function GetSub(m: Message, f: nat): Message {
    if f in m.fields && m.fields[f].Sub? then m.fields[f].msg else DEFAULT
  }

  function GetText(m: Message, f: nat): string {
    if f in m.fields && m.fields[f].Text? then m.fields[f].text else ""
  }

  /** The message with every field outside `fs` cleared. */
  function Only(m: Message, fs: set<nat>): Message {
    Message(map f | f in m.fields && f in fs :: m.fields[f])
  }

  ghost predicate SameField(m: Message, m': Message, f: nat) {
    (f in m.fields <==> f in m'.fields) && (f in m.fields ==> m.fields[f] == m'.fields[f])
  }

  lemma SameMessage(m: Message, m': Message)
    requires forall f :: SameField(m, m', f)
    ensures m == m'
  {
    assert forall f :: SameField(m, m', f) ==> (f in m.fields <==> f in m'.fields);
    assert m.fields == m'.fields;
  }

  lemma SameWithin(m: Message, m': Message, fs: set<nat>)
    requires m.fields.Keys <= fs && m'.fields.Keys <= fs
    requires forall f :: f in fs ==> SameField(m, m', f)
    ensures m == m'
  {
    forall f: nat ensures SameField(m, m', f) {
      assert f in fs ==> SameField(m, m', f);
    }
    SameMessage(m, m');
  }
}
