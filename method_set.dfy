/**
 * `methodSet`: the methods an interface node offers, its own followed by those of
 * each superclass in declaration order, depth-first.
 */
module MethodSets {
  import opened Wrappers
  import opened Schema
  import opened Annotations
  import opened Nodes

  /** The id of `stream.capnp`'s `StreamResult`, the result type of streaming methods. */
  const StreamResultId: Id := 0x995f9a3377c0b16e

  /** `interfaceMethod`: a schema method with its interface, ordinal, names and param/result nodes. */
  datatype InterfaceMethod = InterfaceMethod(
    schemaMethod: Schema.Method,
    iface: Node,
    id: nat,
    name: string,
    originalName: string,
    params: Node,
    results: Node)

  /** `IsStreaming`: the method returns `stream.StreamResult`. */
  function IsStreaming(m: InterfaceMethod): (r: bool)
    ensures r <==> m.results.schema.id == StreamResultId
  {
    m.results.schema.id == StreamResultId
  }

  /** `n.Interface().Methods()`: empty for a node that is not an interface. */
  function Methods(n: Node): seq<Schema.Method>
  {
    if n.schema.which.InterfaceNode? then n.schema.which.methods else []
  }

  /** `n.Interface().Superclasses()`: empty for a node that is not an interface. */
  function Supers(n: Node): seq<Superclass>
  {
    if n.schema.which.InterfaceNode? then n.schema.which.superclasses else []
  }

  /** The `i`-th own method of `n`, or the error for its missing param or result type. */
  function OwnMethod(n: Node, nodes: NodeMap, i: nat): Result<InterfaceMethod, Error>
    requires i < |Methods(n)|
  {
    var m := Methods(n)[i];
    match MustFind(nodes, m.paramStructType)
    case Err(_) => Err(MissingParamType(n.schema.id, m.name))
    case Ok(pn) =>
      match MustFind(nodes, m.resultStructType)
      case Err(_) => Err(MissingResultType(n.schema.id, m.name))
      case Ok(rn) => Ok(InterfaceMethod(m, n, i, Rename(Annotated(m.annotations), m.name), m.name, pn, rn))
  }

  /**
   * An own method is found exactly when both its param and its result type are;
   * it records the interface, its index as `ID`, its schema name as `OriginalName`
   * and the `$name` override (or the schema name) as `Name`.
   */
  lemma OwnMethodFacts(n: Node, nodes: NodeMap, i: nat)
    requires i < |Methods(n)|
    ensures var m, r := Methods(n)[i], OwnMethod(n, nodes, i);
      && (m.paramStructType !in nodes ==> r == Err(MissingParamType(n.schema.id, m.name)))
      && (m.paramStructType in nodes && m.resultStructType !in nodes ==> r == Err(MissingResultType(n.schema.id, m.name)))
      && (r.Ok? <==> m.paramStructType in nodes && m.resultStructType in nodes)
      && (r.Ok? ==> r.value.schemaMethod == m && r.value.iface == n && r.value.id == i
                    && r.value.originalName == m.name
                    && r.value.name == (if LastText(m.annotations, NameId) == "" then m.name else LastText(m.annotations, NameId))
                    && r.value.params == nodes[m.paramStructType] && r.value.results == nodes[m.resultStructType])
  {
  }

  /** Methods gathered so far and the error that stopped the walk, if any. */
  datatype Collected = Collected(methods: seq<InterfaceMethod>, err: Option<Error>)

  /**
   * The first `k` own methods of `n`, stopping at the first one whose param or
   * result type is missing: the methods before it in order, then its error.
   */
  function Own(n: Node, nodes: NodeMap, k: nat): Collected
    requires k <= |Methods(n)|
  {
    if k == 0 then Collected([], None)
    else
      var c := Own(n, nodes, k - 1);
      if c.err.Some? then c
      else match OwnMethod(n, nodes, k - 1)
        case Err(e) => Collected(c.methods, Some(e))
        case Ok(m) => Collected(c.methods + [m], None)
  }

  /**
   * What `methodSet(acc, n, nodes)` returns: `acc`, then `n`'s own methods, then the
   * method sets of its superclasses one after another. `fuel` bounds the depth of
   * superclass recursion; running out stands for Go's endless recursion on a cyclic
   * inheritance graph.
   */
  function Collect(acc: seq<InterfaceMethod>, n: Node, nodes: NodeMap, fuel: nat): Collected
    decreases fuel, 1, 0
  {
    if fuel == 0 then Collected(acc, Some(Diverges))
    else
      var own := Own(n, nodes, |Methods(n)|);
      if own.err.Some? then Collected(acc + own.methods, own.err)
      else SupersFrom(acc + own.methods, n, nodes, |Supers(n)|, fuel - 1)
  }

  /** The first `k` superclasses of `n` folded over `acc`, stopping at the first error. */
  function SupersFrom(acc: seq<InterfaceMethod>, n: Node, nodes: NodeMap, k: nat, fuel: nat): Collected
    requires k <= |Supers(n)|
    decreases fuel + 1, 0, k
  {
    if k == 0 then Collected(acc, None)
    else
      var c := SupersFrom(acc, n, nodes, k - 1, fuel);
      if c.err.Some? then c
      else match MustFind(nodes, Supers(n)[k - 1].id)
        case Err(_) => Collected(c.methods, Some(MissingSuperclass(Supers(n)[k - 1].id, n.schema.id)))
        case Ok(sn) => Collect(c.methods, sn, nodes, fuel)
  }

  lemma {:induction false} OwnFacts(n: Node, nodes: NodeMap, k: nat)
    requires k <= |Methods(n)|
    ensures var c := Own(n, nodes, k);
      && |c.methods| <= k
      && (forall i {:trigger OwnMethod(n, nodes, i)} :: 0 <= i < |c.methods| ==> OwnMethod(n, nodes, i) == Ok(c.methods[i]))
      && (c.err.None? ==> |c.methods| == k)
      && (c.err.Some? ==> |c.methods| < k && OwnMethod(n, nodes, |c.methods|) == Err(c.err.value))
  {
    if k > 0 {
      OwnFacts(n, nodes, k - 1);
    }
  }

  lemma {:induction false} OwnStops(n: Node, nodes: NodeMap, k: nat, m: nat)
    requires k <= m <= |Methods(n)| && Own(n, nodes, k).err.Some?
    ensures Own(n, nodes, m) == Own(n, nodes, k)
    decreases m - k
  {
    if k < m {
      OwnStops(n, nodes, k, m - 1);
    }
  }

  lemma OwnSnoc(n: Node, nodes: NodeMap, i: nat)
    requires i < |Methods(n)| && Own(n, nodes, i).err.None?
    ensures Own(n, nodes, i + 1) == match OwnMethod(n, nodes, i)
      case Err(e) => Collected(Own(n, nodes, i).methods, Some(e))
      case Ok(m) => Collected(Own(n, nodes, i).methods + [m], None)
  {
  }

  lemma SupersSnoc(acc: seq<InterfaceMethod>, n: Node, nodes: NodeMap, k: nat, fuel: nat)
    requires k < |Supers(n)| && SupersFrom(acc, n, nodes, k, fuel).err.None?
    ensures SupersFrom(acc, n, nodes, k + 1, fuel) == match MustFind(nodes, Supers(n)[k].id)
      case Err(_) => Collected(SupersFrom(acc, n, nodes, k, fuel).methods, Some(MissingSuperclass(Supers(n)[k].id, n.schema.id)))
      case Ok(sn) => Collect(SupersFrom(acc, n, nodes, k, fuel).methods, sn, nodes, fuel)
  {
  }

  /** `methodSet`: appends the method set of `n` to `methods`. */
  method MethodSet(methods: seq<InterfaceMethod>, n: Node, nodes: NodeMap, fuel: nat)
    returns (ms: seq<InterfaceMethod>, err: Option<Error>)
    ensures Collected(ms, err) == Collect(methods, n, nodes, fuel)
    decreases fuel, 1
  {
    if fuel == 0 {
      return methods, Some(Diverges);
    }
    ms := methods;
    var own := Methods(n);
    for i := 0 to |own|
      invariant Own(n, nodes, i).err.None? && ms == methods + Own(n, nodes, i).methods
    {
      var m := own[i];
      var mname := m.name;
      var mann := m.annotations;
      var pn := MustFind(nodes, m.paramStructType);
      if pn.Err? {
        OwnStops(n, nodes, i + 1, |own|);
        return ms, Some(MissingParamType(n.schema.id, mname));
      }
      var rn := MustFind(nodes, m.resultStructType);
      if rn.Err? {
        OwnStops(n, nodes, i + 1, |own|);
        return ms, Some(MissingResultType(n.schema.id, mname));
      }
      var ann := ParseAnnotations(mann);
      ms := ms + [InterfaceMethod(m, n, i, Rename(ann, mname), mname, pn.value, rn.value)];
      OwnSnoc(n, nodes, i);
      assert ms == methods + (Own(n, nodes, i).methods + [OwnMethod(n, nodes, i).value]);
    }
    ms, err := SuperMethodSets(ms, n, nodes, fuel - 1);
  }

  /** The superclass loop of `methodSet`: the method set of each superclass in turn, stopping at the first error. */
  method SuperMethodSets(methods: seq<InterfaceMethod>, n: Node, nodes: NodeMap, fuel: nat)
    returns (ms: seq<InterfaceMethod>, err: Option<Error>)
    ensures Collected(ms, err) == SupersFrom(methods, n, nodes, |Supers(n)|, fuel)
    decreases fuel + 1, 0
  {
    ms := methods;
    var supers := Supers(n);
    for i := 0 to |supers|
      invariant SupersFrom(methods, n, nodes, i, fuel) == Collected(ms, None)
    {
      var s := supers[i];
      var sn := MustFind(nodes, s.id);
      SupersSnoc(methods, n, nodes, i, fuel);
      if sn.Err? {
        StopsAfterError(methods, n, nodes, i + 1, |supers|, fuel);
        return ms, Some(MissingSuperclass(s.id, n.schema.id));
      }
      ms, err := MethodSet(ms, sn.value, nodes, fuel);
      if err.Some? {
        StopsAfterError(methods, n, nodes, i + 1, |supers|, fuel);
        return;
      }
    }
    err := None;
  }

  /** The accumulator is only a prefix: the method set of `n` does not depend on it. */
  lemma {:induction false} CollectAcc(acc: seq<InterfaceMethod>, n: Node, nodes: NodeMap, fuel: nat)
    ensures var c, d := Collect(acc, n, nodes, fuel), Collect([], n, nodes, fuel);
      c.methods == acc + d.methods && c.err == d.err
    decreases fuel, 1, 0
  {
    if fuel > 0 {
      var own := Own(n, nodes, |Methods(n)|);
      if own.err.None? {
        var k := |Supers(n)|;
        var rest := SupersFrom([], n, nodes, k, fuel - 1);
        SupersAcc(acc + own.methods, n, nodes, k, fuel - 1);
        SupersAcc(own.methods, n, nodes, k, fuel - 1);
        assert [] + own.methods == own.methods;
        MethodsAssoc(acc, own.methods, rest.methods);
      }
    }
  }

  lemma MethodsAssoc(a: seq<InterfaceMethod>, b: seq<InterfaceMethod>, c: seq<InterfaceMethod>)
    ensures (a + b) + c == a + (b + c)
  {
  }

  lemma {:induction false} SupersAcc(acc: seq<InterfaceMethod>, n: Node, nodes: NodeMap, k: nat, fuel: nat)
    requires k <= |Supers(n)|
    ensures var c, d := SupersFrom(acc, n, nodes, k, fuel), SupersFrom([], n, nodes, k, fuel);
      c.methods == acc + d.methods && c.err == d.err
    decreases fuel + 1, 0, k
  {
    if k > 0 {
      SupersAcc(acc, n, nodes, k - 1, fuel);
      var c, d := SupersFrom(acc, n, nodes, k - 1, fuel), SupersFrom([], n, nodes, k - 1, fuel);
      if c.err.None? {
        var id := Supers(n)[k - 1].id;
        if id in nodes {
          CollectAcc(c.methods, nodes[id], nodes, fuel);
          CollectAcc(d.methods, nodes[id], nodes, fuel);
        }
      }
    }
  }

  /**
   * Depth-first order: the method set of `n` is its own methods followed by the full
   * method set of each superclass in turn (when every lookup succeeds).
   */
  lemma SupersInOrder(n: Node, nodes: NodeMap, k: nat, fuel: nat)
    requires k < |Supers(n)| && Supers(n)[k].id in nodes
    requires SupersFrom([], n, nodes, k, fuel).err.None?
    ensures var before, sub := SupersFrom([], n, nodes, k, fuel), Collect([], nodes[Supers(n)[k].id], nodes, fuel);
      SupersFrom([], n, nodes, k + 1, fuel) == Collected(before.methods + sub.methods, sub.err)
  {
    CollectAcc(SupersFrom([], n, nodes, k, fuel).methods, nodes[Supers(n)[k].id], nodes, fuel);
  }

  /** A method set starts with the interface's own methods, in order, with `ID` their index. */
  lemma OwnFirst(n: Node, nodes: NodeMap, fuel: nat)
    requires fuel > 0
    ensures var c, own := Collect([], n, nodes, fuel), Own(n, nodes, |Methods(n)|);
      && |own.methods| <= |c.methods| && c.methods[..|own.methods|] == own.methods
      && (forall i :: 0 <= i < |own.methods| ==> c.methods[i].id == i && c.methods[i].iface == n)
      && (own.err.Some? ==> c == Collected(own.methods, own.err))
  {
    var c, own := Collect([], n, nodes, fuel), Own(n, nodes, |Methods(n)|);
    assert [] + own.methods == own.methods;
    if own.err.None? {
      SupersAcc(own.methods, n, nodes, |Supers(n)|, fuel - 1);
      assert c.methods == own.methods + SupersFrom([], n, nodes, |Supers(n)|, fuel - 1).methods;
    }
    assert c.methods[..|own.methods|] == own.methods;
    OwnFacts(n, nodes, |Methods(n)|);
    forall i | 0 <= i < |own.methods| ensures c.methods[i].id == i && c.methods[i].iface == n {
      OwnMethodFacts(n, nodes, i);
      assert OwnMethod(n, nodes, i) == Ok(own.methods[i]);
    }
  }


  /** An unknown superclass stops the walk with its error, after the methods gathered so far. */
  lemma MissingSuperclassStops(n: Node, nodes: NodeMap, k: nat, fuel: nat)
    requires k < |Supers(n)| && Supers(n)[k].id !in nodes
    requires SupersFrom([], n, nodes, k, fuel).err.None?
    ensures SupersFrom([], n, nodes, |Supers(n)|, fuel).err == Some(MissingSuperclass(Supers(n)[k].id, n.schema.id))
  {
    StopsAfterError([], n, nodes, k + 1, |Supers(n)|, fuel);
  }

  lemma {:induction false} StopsAfterError(acc: seq<InterfaceMethod>, n: Node, nodes: NodeMap, k: nat, m: nat, fuel: nat)
    requires k <= m <= |Supers(n)|
    requires SupersFrom(acc, n, nodes, k, fuel).err.Some?
    ensures SupersFrom(acc, n, nodes, m, fuel) == SupersFrom(acc, n, nodes, k, fuel)
    decreases m - k
  {
    if k < m {
      StopsAfterError(acc, n, nodes, k, m - 1, fuel);
    }
  }
}
