/**
 * The code generator's view of a schema node (`node` in capnpc-go/nodes.go) and the
 * small naming helpers over nodes, fields and enumerants.
 */
module Nodes {
  import opened Wrappers
  import opened Schema
  import opened Annotations

  /** The generator's errors, naming the node or member they are about (their text is not modelled). */
  datatype Error =
    | NilNode
    | NotStruct(which: Which)
    | NodeNotFound(id: Id)
    | MissingParamType(iface: Id, mname: string)
    | MissingResultType(iface: Id, mname: string)
    | MissingSuperclass(id: Id, iface: Id)
    | MissingGroupType(field: string, node: Id)
    | MissingMethodType(id: Id, iface: Id, mname: string)
    | EmptyName
    | Diverges

  /**
   * A schema node together with what the generator works out for it: its Go name,
   * the package and import path of its file and, for a file node, the nodes it holds.
   */
  class Node {
    const schema: SchemaNode
    var pkg: string
    var imp: string
    var nodes: seq<Node>
    var name: string

    /** `&node{Node: ni}`: every generator field at its zero value. */
    constructor (schema: SchemaNode)
      ensures this.schema == schema
      ensures pkg == "" && imp == "" && nodes == [] && name == ""
    {
      this.schema := schema;
      pkg, imp, nodes, name := "", "", [], "";
    }
  }

  /** `nodeMap`: the nodes of a request by id. */
  type NodeMap = map<Id, Node>

  /** `nodeMap.mustFind`: the node with this id, an error exactly when there is none. */
  function MustFind(nm: NodeMap, id: Id): (r: Result<Node, Error>)
    ensures r.Ok? <==> id in nm
    ensures r.Ok? ==> r.value == nm[id]
    ensures r.Err? ==> r.error == NodeNotFound(id)
  {
    if id in nm then Ok(nm[id]) else Err(NodeNotFound(id))
  }

  /**
   * `DiscriminantOffset`: the byte offset of a struct's union discriminant, twice the
   * stored offset (which counts 16-bit units) in `uint32` arithmetic.
   */
  function DiscriminantOffset(n: Node?): (r: Result<UInt32, Error>)
    ensures n == null ==> r == Err(NilNode)
    ensures n != null && !n.schema.which.StructNode? ==> r == Err(NotStruct(n.schema.which))
    ensures n != null && n.schema.which.StructNode? ==>
      r.Ok? && r.value % 2 == 0 && r.value == (2 * n.schema.which.discriminantOffset) % 0x1_0000_0000
    ensures n != null && n.schema.which.StructNode? && n.schema.which.discriminantOffset < 0x8000_0000 ==>
      r == Ok(2 * n.schema.which.discriminantOffset)
  {
    if n == null then Err(NilNode)
    else if !n.schema.which.StructNode? then Err(NotStruct(n.schema.which))
    else Ok((n.schema.which.discriminantOffset * 2) % 0x1_0000_0000)
  }

  /** `shortDisplayName`: the display name without its scope prefix. */
  function ShortDisplayName(n: Node): (r: string)
    requires n.schema.displayNamePrefixLength <= |n.schema.displayName|
    ensures n.schema.displayName == n.schema.displayName[..n.schema.displayNamePrefixLength] + r
    ensures |r| == |n.schema.displayName| - n.schema.displayNamePrefixLength
  {
    n.schema.displayName[n.schema.displayNamePrefixLength..]
  }

  /** A Go separator for `strings.Title`, on ASCII: anything but letters, digits and `_`. */
  predicate IsSeparator(c: char)
  {
    c as int <= 0x7F && !('0' <= c <= '9' || 'a' <= c <= 'z' || 'A' <= c <= 'Z' || c == '_')
  }

  function Upper(c: char): (u: char)
    ensures 'a' <= c <= 'z' ==> u as int == c as int - 32
    ensures !('a' <= c <= 'z') ==> u == c
  {
    if 'a' <= c <= 'z' then (c as int - 32) as char else c
  }

  /** `strings.Title` from a position whose predecessor is (`sep`) or is not a separator. */
  function TitleFrom(s: string, sep: bool): (r: string)
    ensures |r| == |s|
    ensures forall i :: 0 <= i < |s| ==>
      r[i] == if (if i == 0 then sep else IsSeparator(s[i - 1])) then Upper(s[i]) else s[i]
  {
    if s == [] then []
    else [if sep then Upper(s[0]) else s[0]] + TitleFrom(s[1..], IsSeparator(s[0]))
  }

  /** `strings.Title`: upper-cases each letter that starts a word. */
  function Title(s: string): (r: string)
    ensures |r| == |s|
    ensures forall i :: 0 <= i < |s| ==>
      r[i] == if i == 0 || IsSeparator(s[i - 1]) then Upper(s[i]) else s[i]
  {
    TitleFrom(s, true)
  }

  predicate IsIdentifier(s: string)
  {
    forall i :: 0 <= i < |s| ==> !IsSeparator(s[i])
  }

  /** On an identifier `strings.Title` changes only the first letter. */
  lemma TitleIdentifier(s: string)
    requires IsIdentifier(s) && s != []
    ensures Title(s) == [Upper(s[0])] + s[1..]
  {
    var t := Title(s);
    assert forall i :: 0 < i < |s| ==> t[i] == s[i] by {
      forall i | 0 < i < |s| ensures t[i] == s[i] {
        assert !IsSeparator(s[i - 1]);
      }
    }
  }

  /** `renameIdents`: field names that would clash with generated methods. */
  const RenameIdents: set<string> := {"IsValid", "Segment", "String", "Message", "Which"}

  /** A field with the Go name the generator gives it. */
  datatype NamedField = NamedField(field: Field, name: string)

  /**
   * The zero `field{}` a slot holds until a field with that code order is stored. Its
   * schema field reads every member's schema default, so its discriminant value is
   * `0xffff`: the zero field is in no union.
   */
  const ZeroField := NamedField(Field("", 0, NoDiscriminant, [], Slot), "")

  /**
   * The Go name of a struct field: its `$name` when that differs from the schema name;
   * otherwise the schema name, with a trailing `_` when its Title-cased form is one of
   * `renameIdents`.
   */
  function FieldName(f: Field): (r: string)
    ensures var given := LastText(f.annotations, NameId);
      && (given != "" && given != f.name ==> r == given)
      && (given == "" || given == f.name ==> r == if Title(f.name) in RenameIdents then f.name + "_" else f.name)
  {
    var renamed := Rename(Annotated(f.annotations), f.name);
    if renamed == f.name && Title(f.name) in RenameIdents then f.name + "_" else renamed
  }

  /** The index of the last field with code order `i`, the one whose store survives. */
  function LastAt(fields: seq<Field>, i: nat): (r: Option<nat>)
    ensures r.Some? ==> r.value < |fields| && fields[r.value].codeOrder == i
    ensures r.Some? ==> forall k :: r.value < k < |fields| ==> fields[k].codeOrder != i
    ensures r.None? ==> forall k :: 0 <= k < |fields| ==> fields[k].codeOrder != i
  {
    if fields == [] then None
    else if fields[|fields| - 1].codeOrder == i then Some(|fields| - 1)
    else LastAt(fields[..|fields| - 1], i)
  }

  /** Slot `i`: the last field with code order `i` under its Go name, or the zero field. */
  function SlotAt(fields: seq<Field>, i: nat): NamedField
  {
    match LastAt(fields, i)
    case None => ZeroField
    case Some(j) => NamedField(fields[j], FieldName(fields[j]))
  }

  /** Storing one more field changes only the slot at its code order. */
  lemma LastAtSnoc(fields: seq<Field>, i: nat, k: nat)
    requires i < |fields|
    ensures LastAt(fields[..i + 1], k) == if fields[i].codeOrder == k then Some(i) else LastAt(fields[..i], k)
  {
    assert fields[..i + 1][..i] == fields[..i];
  }

  lemma SlotAtSnoc(fields: seq<Field>, i: nat, k: nat)
    requires i < |fields|
    ensures SlotAt(fields[..i + 1], k)
      == if fields[i].codeOrder == k then NamedField(fields[i], FieldName(fields[i])) else SlotAt(fields[..i], k)
  {
    LastAtSnoc(fields, i, k);
    assert fields[..i + 1][i] == fields[i];
    if fields[i].codeOrder != k && LastAt(fields[..i], k).Some? {
      var j := LastAt(fields[..i], k).value;
      assert fields[..i + 1][j] == fields[..i][j];
    }
  }

  /** The in-loop naming of one field, as `FieldName` states it. */
  method NameField(f: Field) returns (nf: NamedField)
    ensures nf == NamedField(f, FieldName(f))
  {
    var fann := ParseAnnotations(f.annotations);
    var renamed := Rename(fann, f.name);
    if renamed == f.name {
      // avoid collisions when no annotation renamed the field
      if Title(f.name) in RenameIdents {
        renamed := f.name + "_";
      }
    }
    nf := NamedField(f, renamed);
  }

  /**
   * The `n` slots filled by code order: slot `i` holds the last field with code order
   * `i` under its Go name, or, when no field has that code order, the zero field,
   * which is in no union.
   */
  function Placed(fields: seq<Field>, n: nat): (r: seq<NamedField>)
    ensures |r| == n && forall i :: 0 <= i < n ==> r[i] == SlotAt(fields, i)
    ensures forall i :: 0 <= i < n && LastAt(fields, i).Some? ==>
      r[i] == NamedField(fields[LastAt(fields, i).value], FieldName(fields[LastAt(fields, i).value]))
    ensures forall i :: 0 <= i < n && LastAt(fields, i).None? ==> r[i] == ZeroField && !HasDiscriminant(r[i])
  {
    seq(n, i requires 0 <= i < n => SlotAt(fields, i))
  }

  /**
   * `codeOrderFields`: one slot per field, field `f` stored at index `f.CodeOrder()`.
   * The source indexes the slice by code order, so a code order past the end panics.
   */
  method CodeOrderFields(n: Node) returns (mbrs: seq<NamedField>)
    requires n.schema.which.StructNode?
    requires forall i :: 0 <= i < |n.schema.which.fields| ==> n.schema.which.fields[i].codeOrder < |n.schema.which.fields|
    ensures mbrs == Placed(n.schema.which.fields, |n.schema.which.fields|)
  {
    var fields := n.schema.which.fields;
    var numFields := |fields|;
    var a := new NamedField[numFields](_ => ZeroField);
    for i := 0 to numFields
      invariant forall k :: 0 <= k < numFields ==> a[k] == SlotAt(fields[..i], k)
    {
      var f := fields[i];
      var nf := NameField(f);
      a[f.codeOrder] := nf;
      forall k | 0 <= k < numFields ensures a[k] == SlotAt(fields[..i + 1], k) {
        SlotAtSnoc(fields, i, k);
      }
    }
    assert fields[..numFields] == fields;
    mbrs := a[..];
  }

  /** The code orders of the first `m` fields. */
  ghost function CodeOrders(fields: seq<Field>, m: nat): set<int>
    requires m <= |fields|
  {
    set j | 0 <= j < m :: fields[j].codeOrder as int
  }

  lemma {:induction false} CodeOrdersCard(fields: seq<Field>, m: nat)
    requires m <= |fields|
    requires forall j, k :: 0 <= j < k < |fields| ==> fields[j].codeOrder != fields[k].codeOrder
    ensures |CodeOrders(fields, m)| == m
  {
    if m > 0 {
      CodeOrdersCard(fields, m - 1);
      assert CodeOrders(fields, m) == CodeOrders(fields, m - 1) + {fields[m - 1].codeOrder as int};
    }
  }

  /** The indices 0..n-1 as a set. */
  ghost function Below(n: nat): (b: set<int>)
    ensures |b| == n && forall i :: i in b <==> 0 <= i < n
  {
    if n == 0 then {} else Below(n - 1) + {n - 1}
  }

  lemma SubsetCard(a: set<int>, b: set<int>)
    requires a <= b
    ensures |a| <= |b|
  {
    assert b == a + (b - a);
  }

  /** Distinct code orders below the number of fields use up every index (pigeonhole). */
  lemma EveryCodeOrderUsed(fields: seq<Field>)
    requires forall j :: 0 <= j < |fields| ==> fields[j].codeOrder < |fields|
    requires forall j, k :: 0 <= j < k < |fields| ==> fields[j].codeOrder != fields[k].codeOrder
    ensures forall i :: 0 <= i < |fields| ==> i in CodeOrders(fields, |fields|)
  {
    var n := |fields|;
    var codes, range := CodeOrders(fields, n), Below(n);
    CodeOrdersCard(fields, n);
    forall i | 0 <= i < n ensures i in codes {
      if i !in codes {
        SubsetCard(codes, range - {i});
        assert false;
      }
    }
  }

  /**
   * With distinct code orders below the number of fields (a permutation of 0..n-1),
   * the slots are the fields rearranged by code order: each field at its own code
   * order, and every slot filled by a field (the one whose code order it is).
   */
  lemma CodeOrderPermutation(fields: seq<Field>)
    requires forall j :: 0 <= j < |fields| ==> fields[j].codeOrder < |fields|
    requires forall j, k :: 0 <= j < k < |fields| ==> fields[j].codeOrder != fields[k].codeOrder
    ensures var r := Placed(fields, |fields|);
      && (forall j :: 0 <= j < |fields| ==> r[fields[j].codeOrder] == NamedField(fields[j], FieldName(fields[j])))
      && (forall i :: 0 <= i < |r| ==> LastAt(fields, i).Some? && r[i].field == fields[LastAt(fields, i).value])
  {
    var r := Placed(fields, |fields|);
    forall j | 0 <= j < |fields| ensures LastAt(fields, fields[j].codeOrder) == Some(j) {
      var l := LastAt(fields, fields[j].codeOrder);
      assert l.Some? ==> fields[l.value].codeOrder == fields[j].codeOrder;
    }
    EveryCodeOrderUsed(fields);
    forall i | 0 <= i < |r| ensures LastAt(fields, i).Some? {
      assert i in CodeOrders(fields, |fields|);
    }
  }

  /** `HasDiscriminant`: the field belongs to a union. */
  function HasDiscriminant(f: NamedField): (r: bool)
    ensures r <==> f.field.discriminantValue != NoDiscriminant
  {
    f.field.discriminantValue != NoDiscriminant
  }

  /** `enumval`: an enumerant with its Go name, ordinal, tag and enclosing enum. */
  datatype EnumVal = EnumVal(enumerant: Enumerant, name: string, val: int, tag: string, parent: Node)

  /**
   * `makeEnumval`: the name is the `$name` override or the schema name; the tag is
   * none under `$notag`, the `$tag` text under `$tag` (whichever of the two comes
   * last), and the Go name otherwise.
   */
  method MakeEnumval(enum: Node, i: int, e: Enumerant) returns (ev: EnumVal)
    ensures ev.enumerant == e && ev.val == i && ev.parent == enum
    ensures LastText(e.annotations, NameId) != "" ==> ev.name == LastText(e.annotations, NameId)
    ensures LastText(e.annotations, NameId) == "" ==> ev.name == e.name
    ensures LastTagType(e.annotations) == NoTag ==> ev.tag == ""
    ensures LastTagType(e.annotations) == CustomTag ==> ev.tag == LastText(e.annotations, TagId)
    ensures LastTagType(e.annotations) == DefaultTag ==> ev.tag == ev.name
  {
    var ann := ParseAnnotations(e.annotations);
    var name := e.name;
    name := Rename(ann, name);
    var t := Tag(ann, name);
    ev := EnumVal(e, name, i, t, enum);
  }

  /** `FullName`: the enum's Go name, an underscore, the enumerant's Go name. */
  function FullName(e: EnumVal): (r: string)
    reads e.parent
    ensures |r| == |e.parent.name| + 1 + |e.name|
    ensures r[..|e.parent.name|] == e.parent.name && r[|e.parent.name|] == '_'
    ensures r[|e.parent.name| + 1..] == e.name
  {
    e.parent.name + "_" + e.name
  }
}
