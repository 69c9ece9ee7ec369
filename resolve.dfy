/**
 * `resolveName`: the walk that gives every node reachable from a file its Go name,
 * copies the file's package and import path onto it and lists it in the file's nodes.
 *
 * The walk is specified twice over. `Resolve` and its loops compute, from the schema
 * alone, the sequence of naming steps the walk takes and the error that stops it;
 * `Apply` says what a sequence of steps does to the generator's fields of the nodes.
 * The methods update the `Node` objects in place and are proved to do exactly
 * `Apply` of the steps `Resolve` lists.
 */
module NameResolution {
  import opened Wrappers
  import opened Schema
  import opened Annotations
  import opened Nodes

  /** One step of the walk: `node.Name` is set to `name` and `node` joins its file. */
  datatype Assign = Assign(node: Node, name: string)

  /** The steps of a walk, in order, and the error that stopped it, if any. */
  datatype Walk = Walk(assigns: seq<Assign>, err: Option<Error>)

  /** `w` followed by `v`, unless `w` already stopped with an error. */
  function Then(w: Walk, v: Walk): Walk
  {
    if w.err.Some? then w else Walk(w.assigns + v.assigns, v.err)
  }

  /** The name `resolveName` gives `n` when it is reached as `name` under the name `base`. */
  function NodeName(n: Node, base: string, name: string): Result<string, Error>
  {
    var renamed := Renamed(n.schema.annotations, name);
    if base == "" then
      var t := Title(renamed);
      if !n.schema.which.AnnotationNode? then Ok(t)
      else if t == [] then Err(EmptyName)
      else if t[0] != renamed[0] then Ok(t + "_")
      else Ok(t)
    else Ok(base + "_" + renamed)
  }

  /**
   * The naming rule. Under a parent the name is the parent's, an underscore and the
   * (possibly `$name`-overridden) name. At the top it is title-cased, and an annotation
   * whose first letter that raised to upper case gets a trailing underscore; an
   * annotation with an empty name is an error (the source indexes its first byte).
   */
  lemma NodeNameRule(n: Node, base: string, name: string)
    ensures var renamed, r := Renamed(n.schema.annotations, name), NodeName(n, base, name);
      && (base != "" ==> r == Ok(base + "_" + renamed))
      && (base == "" && !n.schema.which.AnnotationNode? ==> r == Ok(Title(renamed)))
      && (base == "" && n.schema.which.AnnotationNode? ==>
            && (r.Err? <==> renamed == [])
            && (r.Err? ==> r.error == EmptyName)
            && (renamed != [] ==> r == Ok(Title(renamed) + if 'a' <= renamed[0] <= 'z' then "_" else "")))
  {
    var renamed := Renamed(n.schema.annotations, name);
    if base == "" && n.schema.which.AnnotationNode? && renamed != [] {
      var t := Title(renamed);
      assert t[0] == Upper(renamed[0]);
      if 'a' <= renamed[0] <= 'z' {
        assert NodeName(n, base, name) == Ok(t + "_");
      } else {
        assert NodeName(n, base, name) == Ok(t);
        assert t + "" == t;
      }
    }
  }

  function Fields(n: Node): seq<Field>
  {
    if n.schema.which.StructNode? then n.schema.which.fields else []
  }

  function IfaceMethods(n: Node): seq<Schema.Method>
  {
    if n.schema.which.InterfaceNode? then n.schema.which.methods else []
  }

  /**
   * The walk from `n`, reached as `name` under `base`: `n` is named first, then the
   * nodes below it are walked under its new name. `fuel` bounds the depth; running
   * out stands for the source's endless recursion when a node is reachable from itself.
   */
  function Resolve(n: Node, base: string, name: string, nodes: NodeMap, fuel: nat): Walk
    decreases fuel, 3, 0
  {
    if fuel == 0 then Walk([], Some(Diverges))
    else match NodeName(n, base, name)
      case Err(e) => Walk([], Some(e))
      case Ok(nm) => Then(Walk([Assign(n, nm)], None), Children(n, nm, nodes, fuel - 1))
  }

  /** Below a node named `nm`: its nested nodes, then a struct's groups or an interface's implicit structs. */
  function Children(n: Node, nm: string, nodes: NodeMap, fuel: nat): Walk
    decreases fuel + 1, 2, 0
  {
    var a := NestedWalk(n, nm, nodes, |n.schema.nestedNodes|, fuel);
    match n.schema.which
    case StructNode(_, fields) => Then(a, GroupWalk(n, nm, nodes, |fields|, fuel))
    case InterfaceNode(methods, _) => Then(a, MethodWalk(n, nm, nodes, |methods|, fuel))
    case _ => a
  }

  /** A node that can be named is named first, before everything below it. */
  lemma ResolveNamed(n: Node, base: string, name: string, nodes: NodeMap, fuel: nat, nm: string)
    requires fuel > 0 && NodeName(n, base, name) == Ok(nm)
    ensures var c := Children(n, nm, nodes, fuel - 1);
      Resolve(n, base, name, nodes, fuel) == Walk([Assign(n, nm)] + c.assigns, c.err)
  {
  }

  /** The first `k` nested nodes of `n`, named under `parent`; those not in the map are skipped. */
  function NestedWalk(n: Node, parent: string, nodes: NodeMap, k: nat, fuel: nat): Walk
    requires k <= |n.schema.nestedNodes|
    decreases fuel + 1, 1, k
  {
    if k == 0 then Walk([], None)
    else
      var w := NestedWalk(n, parent, nodes, k - 1, fuel);
      var nn := n.schema.nestedNodes[k - 1];
      if nn.id !in nodes then w
      else Then(w, Resolve(nodes[nn.id], parent, nn.name, nodes, fuel))
  }

  /** The group fields among the first `k` fields of `n`, each named after its `$name` or field name. */
  function GroupWalk(n: Node, parent: string, nodes: NodeMap, k: nat, fuel: nat): Walk
    requires k <= |Fields(n)|
    decreases fuel + 1, 1, k
  {
    if k == 0 then Walk([], None)
    else Then(GroupWalk(n, parent, nodes, k - 1, fuel), GroupField(n, parent, Fields(n)[k - 1], nodes, fuel))
  }

  /** One field of `n`: nothing for a slot, an error for a group whose type is missing. */
  function GroupField(n: Node, parent: string, f: Field, nodes: NodeMap, fuel: nat): Walk
    decreases fuel + 1, 0, 1
  {
    if !f.kind.Group? then Walk([], None)
    else if f.kind.typeId !in nodes then Walk([], Some(MissingGroupType(f.name, n.schema.id)))
    else Resolve(nodes[f.kind.typeId], parent, Renamed(f.annotations, f.name), nodes, fuel)
  }

  /** The implicit parameter and result structs of the first `k` methods of `n`. */
  function MethodWalk(n: Node, parent: string, nodes: NodeMap, k: nat, fuel: nat): Walk
    requires k <= |IfaceMethods(n)|
    decreases fuel + 1, 1, k
  {
    if k == 0 then Walk([], None)
    else Then(MethodWalk(n, parent, nodes, k - 1, fuel), MethodTypes(n, parent, IfaceMethods(n)[k - 1], nodes, fuel))
  }

  /** One method's parameter struct, then its result struct, both under `parent_Method`. */
  function MethodTypes(n: Node, parent: string, m: Schema.Method, nodes: NodeMap, fuel: nat): Walk
    decreases fuel + 1, 0, 1
  {
    var base := parent + "_" + Renamed(m.annotations, m.name);
    Then(TypeWalk(n, m.paramStructType, m.name, base, "Params", nodes, fuel),
         TypeWalk(n, m.resultStructType, m.name, base, "Results", nodes, fuel))
  }

  /**
   * `methodResolve`: a missing type is an error; a type declared in some scope (not an
   * implicit struct) is left alone; an implicit one is named `base` + "_" + `name`.
   */
  function TypeWalk(n: Node, id: Id, mname: string, base: string, name: string, nodes: NodeMap, fuel: nat): Walk
    decreases fuel + 1, 0, 0
  {
    if id !in nodes then Walk([], Some(MissingMethodType(id, n.schema.id, mname)))
    else if nodes[id].schema.scopeId != 0 then Walk([], None)
    else Resolve(nodes[id], base, name, nodes, fuel)
  }

  /** The generator's fields of one node. */
  datatype Vars = Vars(name: string, pkg: string, imp: string, nodes: seq<Node>)

  /** The generator's fields of a set of nodes, as values. */
  type State = map<Node, Vars>

  ghost function Snapshot(u: set<Node>): (s: State)
    reads u
    ensures s.Keys == u
  {
    map x | x in u :: Vars(x.name, x.pkg, x.imp, x.nodes)
  }

  /** One step: the node takes its name and the file's package and import, and joins the file. */
  function Step(s: State, file: Node, a: Assign): State
  {
    if a.node in s && file in s then
      var s1 := s[a.node := s[a.node].(name := a.name, pkg := s[file].pkg, imp := s[file].imp)];
      s1[file := s1[file].(nodes := s1[file].nodes + [a.node])]
    else s
  }

  /** The steps of a walk, one after another. */
  function Apply(s: State, file: Node, assigns: seq<Assign>): State
    decreases |assigns|
  {
    if assigns == [] then s else Apply(Step(s, file, assigns[0]), file, assigns[1..])
  }

  /** The nodes a sequence of steps names, in order. */
  function NodesOf(assigns: seq<Assign>): (r: seq<Node>)
    ensures |r| == |assigns|
    ensures forall i :: 0 <= i < |assigns| ==> r[i] == assigns[i].node
  {
    if assigns == [] then [] else [assigns[0].node] + NodesOf(assigns[1..])
  }

  /** Every step of `a` names a node of `s`. */
  predicate Within(a: seq<Assign>, s: State)
  {
    forall i :: 0 <= i < |a| ==> a[i].node in s
  }

  /** What one step does, field by field. */
  lemma StepFacts(s: State, file: Node, a: Assign)
    requires a.node in s && file in s
    ensures var t := Step(s, file, a);
      && t.Keys == s.Keys
      && t[file].nodes == s[file].nodes + [a.node]
      && t[file].pkg == s[file].pkg && t[file].imp == s[file].imp
      && t[a.node].name == a.name && t[a.node].pkg == s[file].pkg && t[a.node].imp == s[file].imp
      && forall x :: x in s && x != a.node && x != file ==> t[x] == s[x]
  {
  }

  /** The steps after the first still name nodes of the state the first step leaves. */
  lemma WithinTail(s: State, file: Node, a: seq<Assign>)
    requires a != [] && file in s && Within(a, s)
    ensures Within(a[1..], Step(s, file, a[0]))
    ensures NodesOf(a) == [a[0].node] + NodesOf(a[1..])
  {
    StepFacts(s, file, a[0]);
    forall i | 0 <= i < |a[1..]| ensures a[1..][i].node in Step(s, file, a[0]) {
      assert a[1..][i] == a[i + 1];
    }
  }

  /** A walk changes the fields of nodes it holds and adds no node. */
  lemma {:induction false} ApplyKeys(s: State, file: Node, a: seq<Assign>)
    ensures Apply(s, file, a).Keys == s.Keys
    decreases |a|
  {
    if a != [] {
      ApplyKeys(Step(s, file, a[0]), file, a[1..]);
    }
  }

  /** Two walks one after the other do what their concatenation does. */
  lemma {:induction false} ApplyAppend(s: State, file: Node, a: seq<Assign>, b: seq<Assign>)
    ensures Apply(s, file, a + b) == Apply(Apply(s, file, a), file, b)
    decreases |a|
  {
    if a == [] {
      assert a + b == b;
    } else {
      assert (a + b)[1..] == a[1..] + b;
      ApplyAppend(Step(s, file, a[0]), file, a[1..], b);
    }
  }

  /**
   * What a walk does to the file: its package and import path stay, and its node
   * list grows by exactly the nodes named, in the order they were named.
   */
  lemma {:induction false} ApplyFile(s: State, file: Node, a: seq<Assign>)
    requires file in s && Within(a, s)
    ensures var t := Apply(s, file, a);
      && t.Keys == s.Keys
      && t[file].nodes == s[file].nodes + NodesOf(a)
      && t[file].pkg == s[file].pkg && t[file].imp == s[file].imp
    decreases |a|
  {
    if a != [] {
      var s1 := Step(s, file, a[0]);
      StepFacts(s, file, a[0]);
      WithinTail(s, file, a);
      ApplyFile(s1, file, a[1..]);
      NodesAssoc(s[file].nodes, [a[0].node], NodesOf(a[1..]));
    }
  }

  lemma NodesAssoc(a: seq<Node>, b: seq<Node>, c: seq<Node>)
    ensures a + b + c == a + (b + c)
  {
  }

  /** Every node a walk names ends up with the file's package and import path. */
  lemma {:induction false} ApplyPackage(s: State, file: Node, a: seq<Assign>, x: Node)
    requires file in s && Within(a, s) && x in NodesOf(a)
    ensures var t := Apply(s, file, a);
      x in t && t[x].pkg == s[file].pkg && t[x].imp == s[file].imp
    decreases |a|
  {
    var s1 := Step(s, file, a[0]);
    StepFacts(s, file, a[0]);
    WithinTail(s, file, a);
    if x in NodesOf(a[1..]) {
      ApplyPackage(s1, file, a[1..], x);
    } else if x == file {
      ApplyFile(s1, file, a[1..]);
    } else {
      ApplyUntouched(s1, file, a[1..], x);
    }
  }

  /** A node the walk does not name keeps its fields, bar the file's own node list. */
  lemma {:induction false} ApplyUntouched(s: State, file: Node, a: seq<Assign>, x: Node)
    requires x in s && x !in NodesOf(a) && x != file
    ensures x in Apply(s, file, a) && Apply(s, file, a)[x] == s[x]
    decreases |a|
  {
    if a != [] {
      assert NodesOf(a) == [a[0].node] + NodesOf(a[1..]);
      ApplyUntouched(Step(s, file, a[0]), file, a[1..], x);
    }
  }

  /** The last step that names a node decides its name. */
  lemma {:induction false} ApplyLastName(s: State, file: Node, a: seq<Assign>, i: nat)
    requires file in s && Within(a, s)
    requires i < |a| && forall j :: i < j < |a| ==> a[j].node != a[i].node
    ensures a[i].node in Apply(s, file, a) && Apply(s, file, a)[a[i].node].name == a[i].name
    decreases |a|
  {
    var s1 := Step(s, file, a[0]);
    var rest := a[1..];
    StepFacts(s, file, a[0]);
    WithinTail(s, file, a);
    if i == 0 {
      var x := a[0].node;
      assert x !in NodesOf(rest) by {
        forall j | 0 <= j < |rest| ensures NodesOf(rest)[j] != x {
          assert rest[j] == a[j + 1];
        }
      }
      ApplyNameKept(s1, file, rest, x);
    } else {
      assert rest[i - 1] == a[i];
      ApplyLastName(s1, file, rest, i - 1);
    }
  }

  lemma {:induction false} ApplyNameKept(s: State, file: Node, a: seq<Assign>, x: Node)
    requires x in s && x !in NodesOf(a)
    ensures x in Apply(s, file, a) && Apply(s, file, a)[x].name == s[x].name
    decreases |a|
  {
    if a != [] {
      assert NodesOf(a) == [a[0].node] + NodesOf(a[1..]);
      ApplyNameKept(Step(s, file, a[0]), file, a[1..], x);
    }
  }

  lemma NestedSnoc(n: Node, parent: string, nodes: NodeMap, i: nat, fuel: nat)
    requires i < |n.schema.nestedNodes|
    ensures var nn := n.schema.nestedNodes[i];
      NestedWalk(n, parent, nodes, i + 1, fuel)
      == if nn.id !in nodes then NestedWalk(n, parent, nodes, i, fuel)
         else Then(NestedWalk(n, parent, nodes, i, fuel), Resolve(nodes[nn.id], parent, nn.name, nodes, fuel))
  {
  }

  lemma GroupSnoc(n: Node, parent: string, nodes: NodeMap, i: nat, fuel: nat)
    requires i < |Fields(n)|
    ensures GroupWalk(n, parent, nodes, i + 1, fuel)
      == Then(GroupWalk(n, parent, nodes, i, fuel), GroupField(n, parent, Fields(n)[i], nodes, fuel))
  {
  }

  lemma MethodSnoc(n: Node, parent: string, nodes: NodeMap, i: nat, fuel: nat)
    requires i < |IfaceMethods(n)|
    ensures MethodWalk(n, parent, nodes, i + 1, fuel)
      == Then(MethodWalk(n, parent, nodes, i, fuel), MethodTypes(n, parent, IfaceMethods(n)[i], nodes, fuel))
  {
  }

  lemma {:induction false} NestedStops(n: Node, parent: string, nodes: NodeMap, k: nat, m: nat, fuel: nat)
    requires k <= m <= |n.schema.nestedNodes| && NestedWalk(n, parent, nodes, k, fuel).err.Some?
    ensures NestedWalk(n, parent, nodes, m, fuel) == NestedWalk(n, parent, nodes, k, fuel)
    decreases m - k
  {
    if k < m {
      NestedStops(n, parent, nodes, k, m - 1, fuel);
    }
  }

  lemma {:induction false} GroupStops(n: Node, parent: string, nodes: NodeMap, k: nat, m: nat, fuel: nat)
    requires k <= m <= |Fields(n)| && GroupWalk(n, parent, nodes, k, fuel).err.Some?
    ensures GroupWalk(n, parent, nodes, m, fuel) == GroupWalk(n, parent, nodes, k, fuel)
    decreases m - k
  {
    if k < m {
      GroupStops(n, parent, nodes, k, m - 1, fuel);
    }
  }

  lemma {:induction false} MethodStops(n: Node, parent: string, nodes: NodeMap, k: nat, m: nat, fuel: nat)
    requires k <= m <= |IfaceMethods(n)| && MethodWalk(n, parent, nodes, k, fuel).err.Some?
    ensures MethodWalk(n, parent, nodes, m, fuel) == MethodWalk(n, parent, nodes, k, fuel)
    decreases m - k
  {
    if k < m {
      MethodStops(n, parent, nodes, k, m - 1, fuel);
    }
  }

  /** `u` holds every node of the map and the file: all a walk may touch. */
  predicate Covers(u: set<Node>, nodes: NodeMap, file: Node)
  {
    file in u && forall id | id in nodes :: nodes[id] in u
  }

  /**
   * The naming statements of `resolveName`: the `$name` override, then the top-level
   * rule (title case, a trailing underscore for a renamed annotation) or the nested one.
   */
  method ChooseName(n: Node, base: string, name: string) returns (r: Result<string, Error>)
    ensures r == NodeName(n, base, name)
  {
    var ann := ParseAnnotations(n.schema.annotations);
    var renamed := Rename(ann, name);
    RenameAnnotated(n.schema.annotations, name);
    if base == "" {
      var t := Title(renamed);
      if n.schema.which.AnnotationNode? {
        if |t| == 0 {
          // the source indexes the first byte of the empty name and panics
          return Err(EmptyName);
        }
        if t[0] != renamed[0] {
          t := Title(renamed) + "_";
        }
      }
      r := Ok(t);
    } else {
      r := Ok(base + "_" + renamed);
    }
  }

  /**
   * The assignments at the head of `resolveName`: `n` takes its name and the file's
   * package and import path and joins the file's nodes, which is one `Step`.
   */
  method Place(ghost u: set<Node>, n: Node, nm: string, file: Node)
    requires n in u && file in u
    modifies n, file
    ensures Snapshot(u) == Apply(old(Snapshot(u)), file, [Assign(n, nm)])
  {
    ghost var s0 := Snapshot(u);
    n.name := nm;
    n.pkg := file.pkg;
    n.imp := file.imp;
    file.nodes := file.nodes + [n];
    ghost var s1 := Snapshot(u);
    ghost var t := Step(s0, file, Assign(n, nm));
    StepFacts(s0, file, Assign(n, nm));
    forall x | x in u ensures s1[x] == t[x] {
      assert s0[x] == old(Vars(x.name, x.pkg, x.imp, x.nodes));
      assert s1[x] == Vars(x.name, x.pkg, x.imp, x.nodes);
      if x == n || x == file {
        assert s0[file] == old(Vars(file.name, file.pkg, file.imp, file.nodes));
      }
    }
    assert Apply(s0, file, [Assign(n, nm)]) == t;
  }

  /**
   * `resolveName(nodes, n, base, name, file)`: names `n`, gives it the file's package
   * and import path, appends it to the file's nodes and walks on below it. The new
   * state of the nodes `u` holds is `Apply` of the steps `Resolve` lists.
   */
  method ResolveName(ghost u: set<Node>, nodes: NodeMap, n: Node, base: string, name: string, file: Node, fuel: nat)
    returns (err: Option<Error>)
    requires Covers(u, nodes, file) && n in u
    modifies u
    ensures var w := Resolve(n, base, name, nodes, fuel);
      err == w.err && Snapshot(u) == Apply(old(Snapshot(u)), file, w.assigns)
    decreases fuel, 3, 1
  {
    if fuel == 0 {
      return Some(Diverges);
    }
    var r := ChooseName(n, base, name);
    if r.Err? {
      return Some(r.error);
    }
    err := ResolveNamedNode(u, nodes, n, r.value, file, fuel - 1);
    ResolveNamed(n, base, name, nodes, fuel, r.value);
  }

  /** `resolveName` once `n` has its name: `n` is assigned to the file, then everything below it. */
  method ResolveNamedNode(ghost u: set<Node>, nodes: NodeMap, n: Node, nm: string, file: Node, fuel: nat)
    returns (err: Option<Error>)
    requires Covers(u, nodes, file) && n in u
    modifies u
    ensures var c := Children(n, nm, nodes, fuel);
      err == c.err && Snapshot(u) == Apply(old(Snapshot(u)), file, [Assign(n, nm)] + c.assigns)
    decreases fuel + 1, 3, 0
  {
    ghost var s0 := Snapshot(u);
    Place(u, n, nm, file);
    ghost var c := Children(n, nm, nodes, fuel);
    err := ResolveChildren(u, nodes, n, nm, file, fuel);
    ApplyAppend(s0, file, [Assign(n, nm)], c.assigns);
  }

  /** The part of `resolveName` after `n` is named: its nested nodes, then its groups or method structs. */
  method ResolveChildren(ghost u: set<Node>, nodes: NodeMap, n: Node, nm: string, file: Node, fuel: nat)
    returns (err: Option<Error>)
    requires Covers(u, nodes, file)
    modifies u
    ensures var w := Children(n, nm, nodes, fuel);
      err == w.err && Snapshot(u) == Apply(old(Snapshot(u)), file, w.assigns)
    decreases fuel + 1, 2
  {
    ghost var s0 := Snapshot(u);
    ghost var a := NestedWalk(n, nm, nodes, |n.schema.nestedNodes|, fuel);
    err := ResolveNested(u, nodes, n, nm, file, fuel);
    if err.Some? {
      return;
    }
    match n.schema.which
    case StructNode(_, fields) =>
      ghost var g := GroupWalk(n, nm, nodes, |fields|, fuel);
      err := ResolveGroups(u, nodes, n, nm, file, fuel);
      ApplyAppend(s0, file, a.assigns, g.assigns);
    case InterfaceNode(methods, _) =>
      ghost var m := MethodWalk(n, nm, nodes, |methods|, fuel);
      err := ResolveMethods(u, nodes, n, nm, file, fuel);
      ApplyAppend(s0, file, a.assigns, m.assigns);
    case _ =>
  }

  /** The nested-node loop of `resolveName`: each nested node in the map, named under `parent`. */
  method ResolveNested(ghost u: set<Node>, nodes: NodeMap, n: Node, parent: string, file: Node, fuel: nat)
    returns (err: Option<Error>)
    requires Covers(u, nodes, file)
    modifies u
    ensures var w := NestedWalk(n, parent, nodes, |n.schema.nestedNodes|, fuel);
      err == w.err && Snapshot(u) == Apply(old(Snapshot(u)), file, w.assigns)
    decreases fuel + 1, 1
  {
    ghost var s0 := Snapshot(u);
    var nnodes := n.schema.nestedNodes;
    for i := 0 to |nnodes|
      invariant NestedWalk(n, parent, nodes, i, fuel).err.None?
      invariant Snapshot(u) == Apply(s0, file, NestedWalk(n, parent, nodes, i, fuel).assigns)
    {
      var nn := nnodes[i];
      NestedSnoc(n, parent, nodes, i, fuel);
      if nn.id in nodes {
        ghost var w := NestedWalk(n, parent, nodes, i, fuel);
        var ni := nodes[nn.id];
        err := ResolveName(u, nodes, ni, parent, nn.name, file, fuel);
        ApplyAppend(s0, file, w.assigns, Resolve(ni, parent, nn.name, nodes, fuel).assigns);
        if err.Some? {
          NestedStops(n, parent, nodes, i + 1, |nnodes|, fuel);
          return;
        }
      }
    }
    err := None;
  }

  /** The group-field loop of `resolveName` for a struct. */
  method ResolveGroups(ghost u: set<Node>, nodes: NodeMap, n: Node, parent: string, file: Node, fuel: nat)
    returns (err: Option<Error>)
    requires Covers(u, nodes, file)
    modifies u
    ensures var w := GroupWalk(n, parent, nodes, |Fields(n)|, fuel);
      err == w.err && Snapshot(u) == Apply(old(Snapshot(u)), file, w.assigns)
    decreases fuel + 1, 1
  {
    ghost var s0 := Snapshot(u);
    var fields := Fields(n);
    for i := 0 to |fields|
      invariant GroupWalk(n, parent, nodes, i, fuel).err.None?
      invariant Snapshot(u) == Apply(s0, file, GroupWalk(n, parent, nodes, i, fuel).assigns)
    {
      ghost var w := GroupWalk(n, parent, nodes, i, fuel);
      GroupSnoc(n, parent, nodes, i, fuel);
      err := ResolveGroup(u, nodes, n, parent, fields[i], file, fuel);
      ApplyAppend(s0, file, w.assigns, GroupField(n, parent, fields[i], nodes, fuel).assigns);
      if err.Some? {
        GroupStops(n, parent, nodes, i + 1, |fields|, fuel);
        return;
      }
    }
    err := None;
  }

  /** The body of the group-field loop: a group field's type is resolved under the field's name. */
  method ResolveGroup(ghost u: set<Node>, nodes: NodeMap, n: Node, parent: string, f: Field, file: Node, fuel: nat)
    returns (err: Option<Error>)
    requires Covers(u, nodes, file)
    modifies u
    ensures var w := GroupField(n, parent, f, nodes, fuel);
      err == w.err && Snapshot(u) == Apply(old(Snapshot(u)), file, w.assigns)
    decreases fuel + 1, 0, 1
  {
    if !f.kind.Group? {
      return None;
    }
    var fname := f.name;
    if f.kind.typeId !in nodes {
      return Some(MissingGroupType(fname, n.schema.id));
    }
    var grp := nodes[f.kind.typeId];
    var ann := ParseAnnotations(f.annotations);
    fname := Rename(ann, fname);
    RenameAnnotated(f.annotations, f.name);
    err := ResolveName(u, nodes, grp, parent, fname, file, fuel);
  }

  /** The method loop of `resolveName` for an interface. */
  method ResolveMethods(ghost u: set<Node>, nodes: NodeMap, n: Node, parent: string, file: Node, fuel: nat)
    returns (err: Option<Error>)
    requires Covers(u, nodes, file)
    modifies u
    ensures var w := MethodWalk(n, parent, nodes, |IfaceMethods(n)|, fuel);
      err == w.err && Snapshot(u) == Apply(old(Snapshot(u)), file, w.assigns)
    decreases fuel + 1, 1
  {
    ghost var s0 := Snapshot(u);
    var ms := IfaceMethods(n);
    for i := 0 to |ms|
      invariant MethodWalk(n, parent, nodes, i, fuel).err.None?
      invariant Snapshot(u) == Apply(s0, file, MethodWalk(n, parent, nodes, i, fuel).assigns)
    {
      ghost var w := MethodWalk(n, parent, nodes, i, fuel);
      MethodSnoc(n, parent, nodes, i, fuel);
      err := ResolveMethodTypes(u, nodes, n, parent, ms[i], file, fuel);
      ApplyAppend(s0, file, w.assigns, MethodTypes(n, parent, ms[i], nodes, fuel).assigns);
      if err.Some? {
        MethodStops(n, parent, nodes, i + 1, |ms|, fuel);
        return;
      }
    }
    err := None;
  }

  /** One pass of the method loop: `methodResolve` on the parameter struct, then on the result struct. */
  method ResolveMethodTypes(ghost u: set<Node>, nodes: NodeMap, n: Node, parent: string, mm: Schema.Method, file: Node, fuel: nat)
    returns (err: Option<Error>)
    requires Covers(u, nodes, file)
    modifies u
    ensures var w := MethodTypes(n, parent, mm, nodes, fuel);
      err == w.err && Snapshot(u) == Apply(old(Snapshot(u)), file, w.assigns)
    decreases fuel + 1, 0, 1
  {
    ghost var s0 := Snapshot(u);
    var mname := mm.name;
    var ann := ParseAnnotations(mm.annotations);
    var base := parent + "_" + Rename(ann, mname);
    RenameAnnotated(mm.annotations, mname);
    ghost var p := TypeWalk(n, mm.paramStructType, mname, base, "Params", nodes, fuel);
    err := ResolveMethodType(u, nodes, n, mm.paramStructType, mname, base, "Params", file, fuel);
    if err.Some? {
      return;
    }
    ghost var r := TypeWalk(n, mm.resultStructType, mname, base, "Results", nodes, fuel);
    err := ResolveMethodType(u, nodes, n, mm.resultStructType, mname, base, "Results", file, fuel);
    ApplyAppend(s0, file, p.assigns, r.assigns);
  }

  /** `methodResolve`: resolves a method's parameter or result struct when it is an implicit one. */
  method ResolveMethodType(ghost u: set<Node>, nodes: NodeMap, n: Node, id: Id, mname: string, base: string, name: string, file: Node, fuel: nat)
    returns (err: Option<Error>)
    requires Covers(u, nodes, file)
    modifies u
    ensures var w := TypeWalk(n, id, mname, base, name, nodes, fuel);
      err == w.err && Snapshot(u) == Apply(old(Snapshot(u)), file, w.assigns)
    decreases fuel + 1, 0, 0
  {
    if id !in nodes {
      return Some(MissingMethodType(id, n.schema.id, mname));
    }
    var x := nodes[id];
    if x.schema.scopeId != 0 {
      return None;
    }
    err := ResolveName(u, nodes, x, base, name, file, fuel);
  }
}
