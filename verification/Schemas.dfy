/** Message descriptors: which types are nodes and which fields feed them. */
module Schemas {
  import opened Graphs

  datatype FieldKind = Scalar | MessageOf(of: NodeKey)

  datatype FieldDesc = FieldDesc(repeated: bool, inOneof: bool, kind: FieldKind)

  /** A descriptor; `isNode` is the node option of the message being set. */
  datatype TypeDesc = TypeDesc(isNode: bool, fields: seq<FieldDesc>)

  type Schema = map<NodeKey, TypeDesc>

  /** Every message type that a field mentions is described. */
  ghost predicate ClosedSchema(schema: Schema) {
    forall t, f :: t in schema && 0 <= f < |schema[t].fields| && schema[t].fields[f].kind.MessageOf? ==>
      schema[t].fields[f].kind.of in schema
  }

  predicate NodeField(schema: Schema, t: NodeKey, f: nat)
    requires t in schema && f < |schema[t].fields|
  {
    var field := schema[t].fields[f];
    !field.repeated && field.kind.MessageOf? && field.kind.of in schema && schema[field.kind.of].isNode
  }

  /** A field that makes its type depend on another node. */
  predicate InputField(schema: Schema, t: NodeKey, f: nat) {
    t in schema && f < |schema[t].fields| && NodeField(schema, t, f) && !schema[t].fields[f].inOneof
  }

  /** The mistake that building refuses: a node type as a member of a `oneof`. */
  predicate NodeInOneof(schema: Schema, t: NodeKey, f: nat) {
    t in schema && f < |schema[t].fields| && NodeField(schema, t, f) && schema[t].fields[f].inOneof
  }
}
