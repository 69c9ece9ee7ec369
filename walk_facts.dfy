/**
 * What the naming walk of `resolveName` does, read off its specification `Resolve`:
 * the implicit parameter and result structs of a method, the nested-node rule, the
 * nodes it skips and the errors that stop it.
 */
module WalkFacts {
  import opened Wrappers
  import opened Schema
  import opened Annotations
  import opened Nodes
  import opened NameResolution

  /** A node reached under a non-empty base is named `base_name`, and named before anything below it. */
  lemma NamedUnder(x: Node, base: string, name: string, nodes: NodeMap, fuel: nat)
    requires base != "" && fuel > 0
    ensures var w := Resolve(x, base, name, nodes, fuel);
      |w.assigns| > 0 && w.assigns[0] == Assign(x, base + "_" + Renamed(x.schema.annotations, name))
  {
    NodeNameRule(x, base, name);
    var nm := base + "_" + Renamed(x.schema.annotations, name);
    ResolveNamed(x, base, name, nodes, fuel, nm);
  }

  /**
   * The parameter struct of method `m` of interface `n` named `parent`, when it is an
   * implicit one (declared in no scope), is the first node named: `parent_Method_Params`.
   */
  lemma ImplicitParamsNamed(n: Node, parent: string, m: Schema.Method, nodes: NodeMap, fuel: nat)
    requires m.paramStructType in nodes && nodes[m.paramStructType].schema.scopeId == 0 && fuel > 0
    ensures var x := nodes[m.paramStructType];
      var w := MethodTypes(n, parent, m, nodes, fuel);
      && |w.assigns| > 0
      && w.assigns[0] == Assign(x, parent + "_" + Renamed(m.annotations, m.name) + "_" + Renamed(x.schema.annotations, "Params"))
  {
    var base := parent + "_" + Renamed(m.annotations, m.name);
    NamedUnder(nodes[m.paramStructType], base, "Params", nodes, fuel);
  }

  /**
   * When the parameter struct is walked without error, an implicit result struct is
   * named next after it: `parent_Method_Results`.
   */
  lemma ImplicitResultsNamed(n: Node, parent: string, m: Schema.Method, nodes: NodeMap, fuel: nat)
    requires m.resultStructType in nodes && nodes[m.resultStructType].schema.scopeId == 0 && fuel > 0
    requires TypeWalk(n, m.paramStructType, m.name, parent + "_" + Renamed(m.annotations, m.name), "Params", nodes, fuel).err.None?
    ensures var y := nodes[m.resultStructType];
      var p := TypeWalk(n, m.paramStructType, m.name, parent + "_" + Renamed(m.annotations, m.name), "Params", nodes, fuel);
      var w := MethodTypes(n, parent, m, nodes, fuel);
      && |w.assigns| > |p.assigns|
      && w.assigns[|p.assigns|] == Assign(y, parent + "_" + Renamed(m.annotations, m.name) + "_" + Renamed(y.schema.annotations, "Results"))
  {
    var base := parent + "_" + Renamed(m.annotations, m.name);
    NamedUnder(nodes[m.resultStructType], base, "Results", nodes, fuel);
  }

  /** Parameter and result structs declared in a scope are not renamed: such methods add nothing. */
  lemma {:induction false} ScopedTypesSkipped(n: Node, parent: string, nodes: NodeMap, k: nat, fuel: nat)
    requires k <= |IfaceMethods(n)|
    requires forall i :: 0 <= i < k ==>
      var m := IfaceMethods(n)[i];
      && m.paramStructType in nodes && nodes[m.paramStructType].schema.scopeId != 0
      && m.resultStructType in nodes && nodes[m.resultStructType].schema.scopeId != 0
    ensures MethodWalk(n, parent, nodes, k, fuel) == Walk([], None)
  {
    if k > 0 {
      ScopedTypesSkipped(n, parent, nodes, k - 1, fuel);
      var m := IfaceMethods(n)[k - 1];
      var e: seq<Assign> := [];
      assert e + e == e;
      assert MethodTypes(n, parent, m, nodes, fuel) == Walk([], None);
    }
  }

  /**
   * A method whose parameter struct is missing from the map stops the walk with an
   * error naming that id, the interface and the method, after the earlier methods.
   */
  lemma MissingParamsStops(n: Node, parent: string, nodes: NodeMap, i: nat, fuel: nat)
    requires i < |IfaceMethods(n)| && MethodWalk(n, parent, nodes, i, fuel).err.None?
    requires IfaceMethods(n)[i].paramStructType !in nodes
    ensures var m := IfaceMethods(n)[i];
      MethodWalk(n, parent, nodes, |IfaceMethods(n)|, fuel)
      == Walk(MethodWalk(n, parent, nodes, i, fuel).assigns, Some(MissingMethodType(m.paramStructType, n.schema.id, m.name)))
  {
    var w := MethodWalk(n, parent, nodes, i, fuel);
    MethodSnoc(n, parent, nodes, i, fuel);
    assert w.assigns + [] == w.assigns;
    MethodStops(n, parent, nodes, i + 1, |IfaceMethods(n)|, fuel);
  }

  /** The same for a missing result struct once the parameter struct was walked without error. */
  lemma MissingResultsStops(n: Node, parent: string, nodes: NodeMap, i: nat, fuel: nat)
    requires i < |IfaceMethods(n)| && MethodWalk(n, parent, nodes, i, fuel).err.None?
    requires var m := IfaceMethods(n)[i];
      && TypeWalk(n, m.paramStructType, m.name, parent + "_" + Renamed(m.annotations, m.name), "Params", nodes, fuel).err.None?
      && m.resultStructType !in nodes
    ensures var m := IfaceMethods(n)[i];
      MethodWalk(n, parent, nodes, |IfaceMethods(n)|, fuel).err == Some(MissingMethodType(m.resultStructType, n.schema.id, m.name))
  {
    MethodSnoc(n, parent, nodes, i, fuel);
    MethodStops(n, parent, nodes, i + 1, |IfaceMethods(n)|, fuel);
  }

  /**
   * A group field whose type is missing from the map stops the walk of the struct with
   * an error naming the field (by its schema name) and the struct, after the earlier groups.
   */
  lemma MissingGroupStops(n: Node, parent: string, nodes: NodeMap, i: nat, fuel: nat)
    requires i < |Fields(n)| && GroupWalk(n, parent, nodes, i, fuel).err.None?
    requires Fields(n)[i].kind.Group? && Fields(n)[i].kind.typeId !in nodes
    ensures GroupWalk(n, parent, nodes, |Fields(n)|, fuel)
      == Walk(GroupWalk(n, parent, nodes, i, fuel).assigns, Some(MissingGroupType(Fields(n)[i].name, n.schema.id)))
  {
    var w := GroupWalk(n, parent, nodes, i, fuel);
    GroupSnoc(n, parent, nodes, i, fuel);
    assert w.assigns + [] == w.assigns;
    GroupStops(n, parent, nodes, i + 1, |Fields(n)|, fuel);
  }

  /** A group field reached without error is named `parent_field`, after its `$name` if it has one. */
  lemma GroupNamed(n: Node, parent: string, nodes: NodeMap, i: nat, fuel: nat)
    requires i < |Fields(n)| && GroupWalk(n, parent, nodes, i, fuel).err.None?
    requires Fields(n)[i].kind.Group? && Fields(n)[i].kind.typeId in nodes && parent != "" && fuel > 0
    ensures var f := Fields(n)[i];
      var g := nodes[f.kind.typeId];
      var w, v := GroupWalk(n, parent, nodes, i, fuel), GroupWalk(n, parent, nodes, i + 1, fuel);
      |v.assigns| > |w.assigns| && v.assigns[|w.assigns|] == Assign(g, parent + "_" + Renamed(g.schema.annotations, Renamed(f.annotations, f.name)))
  {
    var f := Fields(n)[i];
    GroupSnoc(n, parent, nodes, i, fuel);
    NamedUnder(nodes[f.kind.typeId], parent, Renamed(f.annotations, f.name), nodes, fuel);
  }

  /** Slot fields add nothing: a struct with no group among its first `k` fields walks no node for them. */
  lemma {:induction false} SlotsSkipped(n: Node, parent: string, nodes: NodeMap, k: nat, fuel: nat)
    requires k <= |Fields(n)|
    requires forall i :: 0 <= i < k ==> !Fields(n)[i].kind.Group?
    ensures GroupWalk(n, parent, nodes, k, fuel) == Walk([], None)
  {
    if k > 0 {
      SlotsSkipped(n, parent, nodes, k - 1, fuel);
    }
  }

  /** Nested nodes that are not in the map are skipped without error. */
  lemma {:induction false} AbsentNestedSkipped(n: Node, parent: string, nodes: NodeMap, k: nat, fuel: nat)
    requires k <= |n.schema.nestedNodes|
    requires forall i :: 0 <= i < k ==> n.schema.nestedNodes[i].id !in nodes
    ensures NestedWalk(n, parent, nodes, k, fuel) == Walk([], None)
  {
    if k > 0 {
      AbsentNestedSkipped(n, parent, nodes, k - 1, fuel);
    }
  }

  /** A nested node in the map, reached without error, is named `parent_name`. */
  lemma NestedNamed(n: Node, parent: string, nodes: NodeMap, i: nat, fuel: nat)
    requires i < |n.schema.nestedNodes| && NestedWalk(n, parent, nodes, i, fuel).err.None?
    requires n.schema.nestedNodes[i].id in nodes && parent != "" && fuel > 0
    ensures var nn := n.schema.nestedNodes[i];
      var x := nodes[nn.id];
      var w, v := NestedWalk(n, parent, nodes, i, fuel), NestedWalk(n, parent, nodes, i + 1, fuel);
      |v.assigns| > |w.assigns| && v.assigns[|w.assigns|] == Assign(x, parent + "_" + Renamed(x.schema.annotations, nn.name))
  {
    var nn := n.schema.nestedNodes[i];
    NestedSnoc(n, parent, nodes, i, fuel);
    NamedUnder(nodes[nn.id], parent, nn.name, nodes, fuel);
  }

  /** Every step of `a` names a node of the map. */
  predicate Among(a: seq<Assign>, nodes: NodeMap)
  {
    forall i :: 0 <= i < |a| ==> a[i].node in nodes.Values
  }

  lemma ThenAmong(w: Walk, v: Walk, nodes: NodeMap)
    requires Among(w.assigns, nodes) && Among(v.assigns, nodes)
    ensures Among(Then(w, v).assigns, nodes)
  {
    if w.err.None? {
      var a := w.assigns + v.assigns;
      forall i | 0 <= i < |a| ensures a[i].node in nodes.Values {
        if i >= |w.assigns| {
          assert a[i] == v.assigns[i - |w.assigns|];
        }
      }
    }
  }

  /** The walk from a node of the map names only nodes of the map: it never leaves the request. */
  lemma {:induction false} ResolveAmong(n: Node, base: string, name: string, nodes: NodeMap, fuel: nat)
    requires n in nodes.Values
    ensures Among(Resolve(n, base, name, nodes, fuel).assigns, nodes)
    decreases fuel, 3, 0
  {
    if fuel > 0 && NodeName(n, base, name).Ok? {
      var nm := NodeName(n, base, name).value;
      ChildrenAmong(n, nm, nodes, fuel - 1);
      ThenAmong(Walk([Assign(n, nm)], None), Children(n, nm, nodes, fuel - 1), nodes);
    }
  }

  lemma {:induction false} ChildrenAmong(n: Node, nm: string, nodes: NodeMap, fuel: nat)
    ensures Among(Children(n, nm, nodes, fuel).assigns, nodes)
    decreases fuel + 1, 2, 0
  {
    var a := NestedWalk(n, nm, nodes, |n.schema.nestedNodes|, fuel);
    NestedAmong(n, nm, nodes, |n.schema.nestedNodes|, fuel);
    match n.schema.which
    case StructNode(_, fields) =>
      GroupAmong(n, nm, nodes, |fields|, fuel);
      ThenAmong(a, GroupWalk(n, nm, nodes, |fields|, fuel), nodes);
    case InterfaceNode(methods, _) =>
      MethodAmong(n, nm, nodes, |methods|, fuel);
      ThenAmong(a, MethodWalk(n, nm, nodes, |methods|, fuel), nodes);
    case _ =>
  }

  lemma {:induction false} NestedAmong(n: Node, parent: string, nodes: NodeMap, k: nat, fuel: nat)
    requires k <= |n.schema.nestedNodes|
    ensures Among(NestedWalk(n, parent, nodes, k, fuel).assigns, nodes)
    decreases fuel + 1, 1, k
  {
    if k > 0 {
      var nn := n.schema.nestedNodes[k - 1];
      NestedAmong(n, parent, nodes, k - 1, fuel);
      if nn.id in nodes {
        ResolveAmong(nodes[nn.id], parent, nn.name, nodes, fuel);
        ThenAmong(NestedWalk(n, parent, nodes, k - 1, fuel), Resolve(nodes[nn.id], parent, nn.name, nodes, fuel), nodes);
      }
    }
  }

  lemma {:induction false} GroupAmong(n: Node, parent: string, nodes: NodeMap, k: nat, fuel: nat)
    requires k <= |Fields(n)|
    ensures Among(GroupWalk(n, parent, nodes, k, fuel).assigns, nodes)
    decreases fuel + 1, 1, k
  {
    if k > 0 {
      GroupAmong(n, parent, nodes, k - 1, fuel);
      GroupFieldAmong(n, parent, Fields(n)[k - 1], nodes, fuel);
      ThenAmong(GroupWalk(n, parent, nodes, k - 1, fuel), GroupField(n, parent, Fields(n)[k - 1], nodes, fuel), nodes);
    }
  }

  lemma {:induction false} GroupFieldAmong(n: Node, parent: string, f: Field, nodes: NodeMap, fuel: nat)
    ensures Among(GroupField(n, parent, f, nodes, fuel).assigns, nodes)
    decreases fuel + 1, 0, 1
  {
    if f.kind.Group? && f.kind.typeId in nodes {
      ResolveAmong(nodes[f.kind.typeId], parent, Renamed(f.annotations, f.name), nodes, fuel);
    }
  }

  lemma {:induction false} MethodAmong(n: Node, parent: string, nodes: NodeMap, k: nat, fuel: nat)
    requires k <= |IfaceMethods(n)|
    ensures Among(MethodWalk(n, parent, nodes, k, fuel).assigns, nodes)
    decreases fuel + 1, 1, k
  {
    if k > 0 {
      MethodAmong(n, parent, nodes, k - 1, fuel);
      MethodTypesAmong(n, parent, IfaceMethods(n)[k - 1], nodes, fuel);
      ThenAmong(MethodWalk(n, parent, nodes, k - 1, fuel), MethodTypes(n, parent, IfaceMethods(n)[k - 1], nodes, fuel), nodes);
    }
  }

  lemma {:induction false} MethodTypesAmong(n: Node, parent: string, m: Schema.Method, nodes: NodeMap, fuel: nat)
    ensures Among(MethodTypes(n, parent, m, nodes, fuel).assigns, nodes)
    decreases fuel + 1, 0, 1
  {
    var base := parent + "_" + Renamed(m.annotations, m.name);
    TypeAmong(n, m.paramStructType, m.name, base, "Params", nodes, fuel);
    TypeAmong(n, m.resultStructType, m.name, base, "Results", nodes, fuel);
    ThenAmong(TypeWalk(n, m.paramStructType, m.name, base, "Params", nodes, fuel),
              TypeWalk(n, m.resultStructType, m.name, base, "Results", nodes, fuel), nodes);
  }

  lemma {:induction false} TypeAmong(n: Node, id: Id, mname: string, base: string, name: string, nodes: NodeMap, fuel: nat)
    ensures Among(TypeWalk(n, id, mname, base, name, nodes, fuel).assigns, nodes)
    decreases fuel + 1, 0, 0
  {
    if id in nodes && nodes[id].schema.scopeId == 0 {
      ResolveAmong(nodes[id], base, name, nodes, fuel);
    }
  }
}
