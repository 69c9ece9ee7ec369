/**
 * Abstract records for the parts of a Cap'n Proto `CodeGeneratorRequest` that the
 * Go code generator reads: nodes, fields, enumerants, methods and annotations.
 * Wire decoding of these records is not modelled; each accessor is a datatype field.
 */
module Schema {
  type Id = x: int | 0 <= x < 0x1_0000_0000_0000_0000
  type UInt16 = x: int | 0 <= x < 0x1_0000
  type UInt32 = x: int | 0 <= x < 0x1_0000_0000

  /** An annotation's value; only its text form is ever read. */
  datatype Value = TextValue(text: string) | OtherValue

  /** `Value.Text()`: the text, or the empty string for a value of another kind. */
  function Text(v: Value): string
  {
    match v
    case TextValue(t) => t
    case OtherValue => ""
  }

  datatype Annotation = Annotation(id: Id, value: Value)

  /** `Field_noDiscriminant`: the discriminant value of a field outside any union. */
  const NoDiscriminant: UInt16 := 0xffff

  datatype FieldKind = Slot | Group(typeId: Id)

  datatype Field = Field(
    name: string,
    codeOrder: UInt16,
    discriminantValue: UInt16,
    annotations: seq<Annotation>,
    kind: FieldKind)

  datatype Enumerant = Enumerant(name: string, codeOrder: UInt16, annotations: seq<Annotation>)

  datatype Method = Method(
    name: string,
    annotations: seq<Annotation>,
    paramStructType: Id,
    resultStructType: Id)

  datatype Superclass = Superclass(id: Id)

  /** An entry of `Node.NestedNodes()`: a name and the id of the nested node. */
  datatype NestedNode = NestedNode(name: string, id: Id)

  /** `Node.Which()` with the union's payload. */
  datatype Which =
    | FileNode
    | StructNode(discriminantOffset: UInt32, fields: seq<Field>)
    | EnumNode(enumerants: seq<Enumerant>)
    | InterfaceNode(methods: seq<Method>, superclasses: seq<Superclass>)
    | ConstNode
    | AnnotationNode

  datatype SchemaNode = SchemaNode(
    id: Id,
    displayName: string,
    displayNamePrefixLength: nat,
    scopeId: Id,
    annotations: seq<Annotation>,
    nestedNodes: seq<NestedNode>,
    which: Which)
}
