/**
 * `makeNodeTrees`: every schema node of a request becomes a `Node` found by its id;
 * the nested nodes of every file are named, and each Go package collects the ids of
 * the nodes of the files that declare it, file after file.
 *
 * `Trees` specifies the second half from the schema and the zero state: per file the
 * package and import path, the naming walk, and one `Entry` holding the package and the
 * ids of the file's nodes. `Collect` folds the entries into the package map.
 */
module NodeTrees {
  import opened Wrappers
  import opened Schema
  import opened Annotations
  import opened Nodes
  import opened NameResolution
  import opened WalkFacts

  /** `pkgMap`, with each `pkgSchema` reduced to its `nodeId` list. */
  type PkgMap = map<string, seq<Id>>

  /** The nodes by id; a later node with the same id replaces an earlier one. */
  function IdMap(rs: seq<SchemaNode>): map<Id, SchemaNode>
  {
    if rs == [] then map[] else IdMap(rs[..|rs| - 1])[rs[|rs| - 1].id := rs[|rs| - 1]]
  }

  function SchemaOf(nodes: NodeMap): map<Id, SchemaNode>
  {
    map id | id in nodes :: nodes[id].schema
  }

  /** The file nodes of a request, in request order. */
  function FileSchemas(rs: seq<SchemaNode>): seq<SchemaNode>
  {
    if rs == [] then []
    else FileSchemas(rs[..|rs| - 1]) + if rs[|rs| - 1].which.FileNode? then [rs[|rs| - 1]] else []
  }

  function SchemasOf(ns: seq<Node>): seq<SchemaNode>
  {
    if ns == [] then [] else SchemasOf(ns[..|ns| - 1]) + [ns[|ns| - 1].schema]
  }

  /** The ids of a list of nodes, in order. */
  function Ids(ns: seq<Node>): seq<Id>
  {
    if ns == [] then [] else Ids(ns[..|ns| - 1]) + [ns[|ns| - 1].schema.id]
  }

  lemma {:induction false} IdsAt(ns: seq<Node>)
    ensures |Ids(ns)| == |ns| && forall i :: 0 <= i < |ns| ==> Ids(ns)[i] == ns[i].schema.id
  {
    if ns != [] {
      IdsAt(ns[..|ns| - 1]);
    }
  }

  lemma {:induction false} SchemasAt(ns: seq<Node>)
    ensures |SchemasOf(ns)| == |ns| && forall i :: 0 <= i < |ns| ==> SchemasOf(ns)[i] == ns[i].schema
  {
    if ns != [] {
      SchemasAt(ns[..|ns| - 1]);
    }
  }

  /** Freshly made nodes: every generator field at its zero value. */
  function Zero(u: set<Node>): State
  {
    map x | x in u :: Vars("", "", "", [])
  }

  /** What one file adds to its package: the package name and the ids of the file's nodes. */
  datatype Entry = Entry(pkg: string, ids: seq<Id>)

  datatype Built = Built(state: State, entries: seq<Entry>, err: Option<Error>)

  /** The walk from a file: its nested nodes, named at the top level. */
  function FileWalk(f: Node, nodes: NodeMap, fuel: nat): Walk
  {
    NestedWalk(f, "", nodes, |f.schema.nestedNodes|, fuel)
  }

  /** The walk of each file, in order. */
  function FileWalks(files: seq<Node>, nodes: NodeMap, fuel: nat): (ws: seq<Walk>)
    ensures |ws| == |files| && forall i :: 0 <= i < |files| ==> ws[i] == FileWalk(files[i], nodes, fuel)
  {
    seq(|files|, i requires 0 <= i < |files| => FileWalk(files[i], nodes, fuel))
  }

  /**
   * One file with walk `w`: it takes the package and import path of its annotations,
   * the walk is applied, and, unless the walk failed, its package gets the ids of its nodes.
   */
  function FileStep(s: State, f: Node, w: Walk): (b: Built)
    requires f in s
    ensures b.state.Keys == s.Keys
  {
    var ann := Annotated(f.schema.annotations);
    var s1 := s[f := s[f].(pkg := ann.pkg, imp := ann.imp)];
    ApplyKeys(s1, f, w.assigns);
    var s2 := Apply(s1, f, w.assigns);
    if w.err.Some? then Built(s2, [], w.err)
    else Built(s2, [Entry(s2[f].pkg, Ids(s2[f].nodes))], None)
  }

  /** The files, file `i` with walk `ws[i]`, one after another, stopping at the first error. */
  function Trees(s: State, files: seq<Node>, ws: seq<Walk>): (b: Built)
    requires |ws| == |files| && forall i :: 0 <= i < |files| ==> files[i] in s
    ensures b.state.Keys == s.Keys
  {
    if files == [] then Built(s, [], None)
    else
      var b := Trees(s, files[..|files| - 1], ws[..|ws| - 1]);
      if b.err.Some? then b
      else
        var c := FileStep(b.state, files[|files| - 1], ws[|ws| - 1]);
        Built(c.state, b.entries + c.entries, c.err)
  }

  /** `pkgs[p].nodeId = append(pkgs[p].nodeId, ids...)`, creating the package when it is new. */
  function Append(pkgs: PkgMap, p: string, ids: seq<Id>): PkgMap
  {
    pkgs[p := (if p in pkgs then pkgs[p] else []) + ids]
  }

  /** The entries added to a package map one after another. */
  function Collect(pkgs: PkgMap, es: seq<Entry>): PkgMap
  {
    if es == [] then pkgs else Append(Collect(pkgs, es[..|es| - 1]), es[|es| - 1].pkg, es[|es| - 1].ids)
  }

  /** The ids of all entries for package `p`, concatenated in entry order. */
  function Group(es: seq<Entry>, p: string): seq<Id>
  {
    if es == [] then []
    else Group(es[..|es| - 1], p) + if es[|es| - 1].pkg == p then es[|es| - 1].ids else []
  }

  // ---------------------------------------------------------------- properties

  /** A node id is in the map exactly when some request node has it, and the last such node wins. */
  lemma {:induction false} IdMapLastWins(rs: seq<SchemaNode>, id: Id)
    ensures id in IdMap(rs) <==> exists i :: 0 <= i < |rs| && rs[i].id == id
    ensures forall i :: 0 <= i < |rs| && rs[i].id == id && (forall j :: i < j < |rs| ==> rs[j].id != id) ==>
      id in IdMap(rs) && IdMap(rs)[id] == rs[i]
  {
    if rs != [] {
      var init := rs[..|rs| - 1];
      IdMapLastWins(init, id);
      assert forall i :: 0 <= i < |init| ==> init[i] == rs[i];
      if rs[|rs| - 1].id != id {
        if exists i :: 0 <= i < |rs| && rs[i].id == id {
          var i :| 0 <= i < |rs| && rs[i].id == id;
          assert init[i].id == id;
        }
      }
    }
  }

  /** The files are file nodes of the request... */
  lemma {:induction false} FileSchemasSound(rs: seq<SchemaNode>)
    ensures forall i :: 0 <= i < |FileSchemas(rs)| ==> FileSchemas(rs)[i].which.FileNode? && FileSchemas(rs)[i] in rs
  {
    if rs != [] {
      var init := rs[..|rs| - 1];
      FileSchemasSound(init);
      assert forall x :: x in init ==> x in rs;
    }
  }

  /** ...and every file node of the request is among them. */
  lemma {:induction false} FileSchemasComplete(rs: seq<SchemaNode>, i: nat)
    requires i < |rs| && rs[i].which.FileNode?
    ensures rs[i] in FileSchemas(rs)
  {
    var init := rs[..|rs| - 1];
    if i < |rs| - 1 {
      assert init[i] == rs[i];
      FileSchemasComplete(init, i);
    }
  }

  lemma {:induction false} CollectAppend(pkgs: PkgMap, es: seq<Entry>, fs: seq<Entry>)
    ensures Collect(pkgs, es + fs) == Collect(Collect(pkgs, es), fs)
    decreases |fs|
  {
    if fs == [] {
      assert es + fs == es;
    } else {
      assert (es + fs)[..|es + fs| - 1] == es + fs[..|fs| - 1];
      CollectAppend(pkgs, es, fs[..|fs| - 1]);
    }
  }

  /**
   * The package map holds exactly the packages some entry names, and each maps to the
   * ids of every entry for it, concatenated in entry order.
   */
  lemma {:induction false} CollectGrouped(es: seq<Entry>, p: string)
    ensures p in Collect(map[], es) <==> exists i :: 0 <= i < |es| && es[i].pkg == p
    ensures p in Collect(map[], es) ==> Collect(map[], es)[p] == Group(es, p)
  {
    if es != [] {
      var init := es[..|es| - 1];
      CollectGrouped(init, p);
      assert forall i :: 0 <= i < |init| ==> init[i] == es[i];
      if es[|es| - 1].pkg != p {
        if exists i :: 0 <= i < |es| && es[i].pkg == p {
          var i :| 0 <= i < |es| && es[i].pkg == p;
          assert init[i].pkg == p;
        }
        assert Group(es, p) == Group(init, p) + [];
      } else if p !in Collect(map[], init) {
        GroupAbsent(init, p);
      }
    }
  }

  lemma {:induction false} GroupAbsent(es: seq<Entry>, p: string)
    requires forall i :: 0 <= i < |es| ==> es[i].pkg != p
    ensures Group(es, p) == []
  {
    if es != [] {
      var init := es[..|es| - 1];
      assert forall i :: 0 <= i < |init| ==> init[i] == es[i];
      GroupAbsent(init, p);
    }
  }

  /**
   * The walk of every file runs on the schema alone, so the files stop at the first
   * file whose walk fails, with that walk's error; otherwise every file added an entry.
   */
  lemma {:induction false} TreesError(s: State, files: seq<Node>, ws: seq<Walk>)
    requires |ws| == |files| && forall i :: 0 <= i < |files| ==> files[i] in s
    ensures var b := Trees(s, files, ws);
      && (b.err.None? <==> forall i :: 0 <= i < |ws| ==> ws[i].err.None?)
      && (b.err.None? ==> |b.entries| == |files|)
      && (b.err.Some? ==>
            exists i :: 0 <= i < |ws| && b.err == ws[i].err && forall j :: 0 <= j < i ==> ws[j].err.None?)
  {
    if files != [] {
      var init, winit := files[..|files| - 1], ws[..|ws| - 1];
      TreesError(s, init, winit);
      assert forall i :: 0 <= i < |winit| ==> winit[i] == ws[i];
    }
  }

  /** A walk for one file leaves the node lists of all other nodes as they were. */
  lemma {:induction false} ApplyOtherNodes(s: State, file: Node, a: seq<Assign>, x: Node)
    requires x in s && x != file
    ensures x in Apply(s, file, a) && Apply(s, file, a)[x].nodes == s[x].nodes
    decreases |a|
  {
    if a != [] {
      ApplyOtherNodes(Step(s, file, a[0]), file, a[1..], x);
    }
  }

  /** The files handled so far leave the node list of any other node alone. */
  lemma {:induction false} TreesOtherNodes(s: State, files: seq<Node>, ws: seq<Walk>, x: Node)
    requires |ws| == |files| && forall i :: 0 <= i < |files| ==> files[i] in s
    requires x in s && x !in files
    ensures Trees(s, files, ws).state[x].nodes == s[x].nodes
  {
    if files != [] {
      var init, winit := files[..|files| - 1], ws[..|ws| - 1];
      var f := files[|files| - 1];
      TreesOtherNodes(s, init, winit, x);
      var b := Trees(s, init, winit);
      if b.err.None? {
        var ann := Annotated(f.schema.annotations);
        var s1 := b.state[f := b.state[f].(pkg := ann.pkg, imp := ann.imp)];
        ApplyOtherNodes(s1, f, ws[|ws| - 1].assigns, x);
      }
    }
  }

  /**
   * What one file adds to its package, when every node its walk names is one of the
   * state's: the package named by its own `$Go.package`, and the ids of the nodes it
   * already held followed by those of the nodes its walk named, in naming order.
   */
  lemma FileEntry(s: State, f: Node, w: Walk)
    requires f in s && Within(w.assigns, s) && w.err.None?
    ensures FileStep(s, f, w).entries == [Entry(Annotated(f.schema.annotations).pkg, Ids(s[f].nodes + NodesOf(w.assigns)))]
  {
    var ann := Annotated(f.schema.annotations);
    var s1 := s[f := s[f].(pkg := ann.pkg, imp := ann.imp)];
    ApplyFile(s1, f, w.assigns);
  }

  /** The entry a file is expected to add: its `$Go.package` and the ids of the nodes its walk names. */
  function Expected(f: Node, w: Walk): Entry
  {
    Entry(Annotated(f.schema.annotations).pkg, Ids(NodesOf(w.assigns)))
  }

  /**
   * After all files of a request without errors, entry `i` belongs to file `i`: its
   * package is the file's `$Go.package` and its ids are those of the nodes the file's
   * walk named, in order, when the files are distinct and start with no nodes.
   */
  lemma {:induction false} TreesEntries(s: State, files: seq<Node>, ws: seq<Walk>)
    requires |ws| == |files| && forall i :: 0 <= i < |files| ==> files[i] in s && s[files[i]].nodes == []
    requires forall i, j :: 0 <= i < j < |files| ==> files[i] != files[j]
    requires forall i :: 0 <= i < |ws| ==> Within(ws[i].assigns, s)
    requires Trees(s, files, ws).err.None?
    ensures var b := Trees(s, files, ws);
      |b.entries| == |files| && forall i :: 0 <= i < |files| ==> b.entries[i] == Expected(files[i], ws[i])
  {
    if files != [] {
      var init, winit := files[..|files| - 1], ws[..|ws| - 1];
      var f, w := files[|files| - 1], ws[|ws| - 1];
      assert forall i :: 0 <= i < |init| ==> init[i] == files[i] && winit[i] == ws[i];
      TreesEntries(s, init, winit);
      var b := Trees(s, init, winit);
      TreesOtherNodes(s, init, winit, f);
      FileEntryFresh(b.state, f, w);
      EntriesSnoc(b.entries, files, ws);
    }
  }

  lemma FileEntryFresh(s: State, f: Node, w: Walk)
    requires f in s && s[f].nodes == [] && Within(w.assigns, s) && w.err.None?
    ensures FileStep(s, f, w).entries == [Expected(f, w)]
  {
    FileEntry(s, f, w);
    assert s[f].nodes + NodesOf(w.assigns) == NodesOf(w.assigns);
  }

  lemma EntriesSnoc(es: seq<Entry>, files: seq<Node>, ws: seq<Walk>)
    requires |files| == |ws| == |es| + 1
    requires forall i :: 0 <= i < |es| ==> es[i] == Expected(files[i], ws[i])
    ensures var e := es + [Expected(files[|es|], ws[|es|])];
      |e| == |files| && forall i :: 0 <= i < |files| ==> e[i] == Expected(files[i], ws[i])
  {
  }

  /** The entries each file is expected to add, in file order. */
  function ExpectedAll(files: seq<Node>, ws: seq<Walk>): (es: seq<Entry>)
    requires |ws| == |files|
    ensures |es| == |files| && forall i :: 0 <= i < |files| ==> es[i] == Expected(files[i], ws[i])
  {
    seq(|files|, i requires 0 <= i < |files| => Expected(files[i], ws[i]))
  }

  /**
   * `makeNodeTrees`' package map, from distinct files that start with no nodes, when no
   * file's walk fails: a package is in it exactly when some file declares it with
   * `$Go.package`, and it holds the ids of the nodes named by the walks of all files
   * declaring it, file after file, each file's in naming order.
   */
  lemma PackagesGrouped(u: set<Node>, files: seq<Node>, nodes: NodeMap, fuel: nat, p: string)
    requires forall id | id in nodes :: nodes[id] in u
    requires forall i :: 0 <= i < |files| ==> files[i] in u
    requires forall i, j :: 0 <= i < j < |files| ==> files[i] != files[j]
    requires forall i :: 0 <= i < |files| ==> FileWalk(files[i], nodes, fuel).err.None?
    ensures var ws := FileWalks(files, nodes, fuel);
      var pkgs := Collect(map[], Trees(Zero(u), files, ws).entries);
      && (p in pkgs <==> exists i :: 0 <= i < |files| && Annotated(files[i].schema.annotations).pkg == p)
      && (p in pkgs ==> pkgs[p] == Group(ExpectedAll(files, ws), p))
  {
    var ws := FileWalks(files, nodes, fuel);
    var s := Zero(u);
    TreesError(s, files, ws);
    forall i | 0 <= i < |ws| ensures Within(ws[i].assigns, s) {
      NestedAmong(files[i], "", nodes, |files[i].schema.nestedNodes|, fuel);
      forall j | 0 <= j < |ws[i].assigns| ensures ws[i].assigns[j].node in s {
        var x := ws[i].assigns[j].node;
        assert x in nodes.Values;
        var id :| id in nodes && nodes[id] == x;
      }
    }
    TreesEntries(s, files, ws);
    var es := Trees(s, files, ws).entries;
    assert es == ExpectedAll(files, ws);
    CollectGrouped(es, p);
  }

  // ---------------------------------------------------------------- the procedure

  /** The loop over `f.nodes` that lists their ids. */
  method NodeIds(ns: seq<Node>) returns (ids: seq<Id>)
    ensures ids == Ids(ns)
  {
    ids := [];
    for j := 0 to |ns|
      invariant ids == Ids(ns[..j])
    {
      assert ns[..j + 1][..j] == ns[..j];
      ids := ids + [ns[j].schema.id];
    }
    assert ns[..|ns|] == ns;
  }

  /** `f.pkg = ann.Package; f.imp = ann.Import`. */
  method SetPackage(ghost u: set<Node>, f: Node, pkg: string, imp: string)
    requires f in u
    modifies f
    ensures Snapshot(u) == old(Snapshot(u))[f := old(Snapshot(u))[f].(pkg := pkg, imp := imp)]
  {
    ghost var s0 := Snapshot(u);
    f.pkg := pkg;
    f.imp := imp;
    ghost var s1 := Snapshot(u);
    ghost var t := s0[f := s0[f].(pkg := pkg, imp := imp)];
    forall x | x in u ensures s1[x] == t[x] {
      assert s0[x] == old(Vars(x.name, x.pkg, x.imp, x.nodes));
    }
  }

  /** The body of the file loop: one `FileStep` on the nodes, its entry added to the package map. */
  method ResolveFile(ghost u: set<Node>, nodes: NodeMap, f: Node, pkgs: PkgMap, fuel: nat)
    returns (pkgs': PkgMap, err: Option<Error>)
    requires Covers(u, nodes, f)
    modifies u
    ensures var b := FileStep(old(Snapshot(u)), f, FileWalk(f, nodes, fuel));
      Snapshot(u) == b.state && err == b.err && pkgs' == Collect(pkgs, b.entries)
  {
    ghost var s0 := Snapshot(u);
    var ann := ParseAnnotations(f.schema.annotations);
    SetPackage(u, f, ann.pkg, ann.imp);
    ghost var s1 := Snapshot(u);
    ghost var w := FileWalk(f, nodes, fuel);
    err := ResolveNested(u, nodes, f, "", f, fuel);
    FileStepIs(s0, f, w, s1, Snapshot(u));
    if err.Some? {
      return pkgs, err;
    }
    var ids := NodeIds(f.nodes);
    assert Snapshot(u)[f] == Vars(f.name, f.pkg, f.imp, f.nodes);
    pkgs' := pkgs[f.pkg := (if f.pkg in pkgs then pkgs[f.pkg] else []) + ids];
    CollectOne(pkgs, Entry(f.pkg, ids));
  }

  lemma FileStepIs(s: State, f: Node, w: Walk, s1: State, s2: State)
    requires f in s
    requires s1 == s[f := s[f].(pkg := Annotated(f.schema.annotations).pkg, imp := Annotated(f.schema.annotations).imp)]
    requires s2 == Apply(s1, f, w.assigns)
    ensures f in s2
    ensures FileStep(s, f, w) == if w.err.Some? then Built(s2, [], w.err) else Built(s2, [Entry(s2[f].pkg, Ids(s2[f].nodes))], None)
  {
    ApplyKeys(s1, f, w.assigns);
  }

  lemma CollectOne(pkgs: PkgMap, e: Entry)
    ensures Collect(pkgs, [e]) == Append(pkgs, e.pkg, e.ids)
  {
    assert [e][..0] == [];
  }

  /**
   * `makeNodeTrees`: one fresh `Node` per request node, indexed by id; then, file by
   * file, the file's walk and its package's ids. The fuel bound, one more than the number
   * of request nodes, stands for the source's unbounded recursion.
   */
  method MakeNodeTrees(rnodes: seq<SchemaNode>)
    returns (nodes: NodeMap, pkgs: PkgMap, err: Option<Error>, ghost files: seq<Node>, ghost u: set<Node>)
    ensures SchemaOf(nodes) == IdMap(rnodes)
    ensures SchemasOf(files) == FileSchemas(rnodes)
    ensures fresh(u) && forall id | id in nodes :: nodes[id] in u
    ensures forall i :: 0 <= i < |files| ==> files[i] in u
    ensures forall i, j :: 0 <= i < j < |files| ==> files[i] != files[j]
    ensures var b := Trees(Zero(u), files, FileWalks(files, nodes, |rnodes| + 1));
      Snapshot(u) == b.state && err == b.err && pkgs == Collect(map[], b.entries)
  {
    var allfiles;
    nodes, allfiles, u := NewNodes(rnodes);
    files := allfiles;
    pkgs, err := ResolveFiles(u, nodes, allfiles, |rnodes| + 1);
  }

  /** The first loop of `makeNodeTrees`: a fresh node per request node, in the map by id, the files listed. */
  method NewNodes(rnodes: seq<SchemaNode>) returns (nodes: NodeMap, allfiles: seq<Node>, ghost u: set<Node>)
    ensures SchemaOf(nodes) == IdMap(rnodes)
    ensures SchemasOf(allfiles) == FileSchemas(rnodes)
    ensures fresh(u) && forall id | id in nodes :: nodes[id] in u
    ensures forall i :: 0 <= i < |allfiles| ==> allfiles[i] in u
    ensures forall i, j :: 0 <= i < j < |allfiles| ==> allfiles[i] != allfiles[j]
    ensures Snapshot(u) == Zero(u)
  {
    nodes, allfiles, u := map[], [], {};
    for i := 0 to |rnodes|
      invariant SchemaOf(nodes) == IdMap(rnodes[..i])
      invariant SchemasOf(allfiles) == FileSchemas(rnodes[..i])
      invariant fresh(u) && forall id | id in nodes :: nodes[id] in u
      invariant forall j :: 0 <= j < |allfiles| ==> allfiles[j] in u
      invariant forall j, k :: 0 <= j < k < |allfiles| ==> allfiles[j] != allfiles[k]
      invariant forall x | x in u :: x.name == "" && x.pkg == "" && x.imp == "" && x.nodes == []
    {
      var ni := rnodes[i];
      var n := new Node(ni);
      assert n !in u;
      SchemaOfUpdate(nodes, ni.id, n);
      nodes := nodes[ni.id := n];
      assert rnodes[..i + 1][..i] == rnodes[..i];
      if ni.which.FileNode? {
        SchemasOfSnoc(allfiles, n);
        assert FileSchemas(rnodes[..i + 1]) == FileSchemas(rnodes[..i]) + [ni];
        allfiles := allfiles + [n];
      }
      u := u + {n};
    }
    assert rnodes[..|rnodes|] == rnodes;
    forall x | x in u ensures Snapshot(u)[x] == Zero(u)[x] {
    }
  }

  lemma SchemaOfUpdate(nodes: NodeMap, id: Id, n: Node)
    ensures SchemaOf(nodes[id := n]) == SchemaOf(nodes)[id := n.schema]
  {
  }

  lemma SchemasOfSnoc(ns: seq<Node>, n: Node)
    ensures SchemasOf(ns + [n]) == SchemasOf(ns) + [n.schema]
  {
    assert (ns + [n])[..|ns|] == ns;
  }

  /** The second loop of `makeNodeTrees`: each file in turn, returning at the first error. */
  method ResolveFiles(ghost u: set<Node>, nodes: NodeMap, allfiles: seq<Node>, fuel: nat)
    returns (pkgs: PkgMap, err: Option<Error>)
    requires forall id | id in nodes :: nodes[id] in u
    requires forall i :: 0 <= i < |allfiles| ==> allfiles[i] in u
    modifies u
    ensures var b := Trees(old(Snapshot(u)), allfiles, FileWalks(allfiles, nodes, fuel));
      Snapshot(u) == b.state && err == b.err && pkgs == Collect(map[], b.entries)
  {
    ghost var s0 := Snapshot(u);
    ghost var ws := FileWalks(allfiles, nodes, fuel);
    pkgs := map[];
    for i := 0 to |allfiles|
      invariant var b := Trees(s0, allfiles[..i], ws[..i]);
        Snapshot(u) == b.state && b.err.None? && pkgs == Collect(map[], b.entries)
    {
      var f := allfiles[i];
      ghost var b := Trees(s0, allfiles[..i], ws[..i]);
      TreesSnoc(s0, allfiles, ws, i);
      pkgs, err := ResolveFile(u, nodes, f, pkgs, fuel);
      CollectAppend(map[], b.entries, FileStep(b.state, f, ws[i]).entries);
      if err.Some? {
        TreesStops(s0, allfiles, ws, i + 1);
        return;
      }
    }
    assert allfiles[..|allfiles|] == allfiles && ws[..|ws|] == ws;
    err := None;
  }

  lemma TreesSnoc(s: State, files: seq<Node>, ws: seq<Walk>, i: nat)
    requires |ws| == |files| && forall i :: 0 <= i < |files| ==> files[i] in s
    requires i < |files|
    ensures var b := Trees(s, files[..i], ws[..i]);
      Trees(s, files[..i + 1], ws[..i + 1])
      == if b.err.Some? then b
         else var c := FileStep(b.state, files[i], ws[i]); Built(c.state, b.entries + c.entries, c.err)
  {
    assert files[..i + 1][..i] == files[..i] && ws[..i + 1][..i] == ws[..i];
  }

  lemma {:induction false} TreesStops(s: State, files: seq<Node>, ws: seq<Walk>, k: nat)
    requires |ws| == |files| && forall i :: 0 <= i < |files| ==> files[i] in s
    requires k <= |files| && Trees(s, files[..k], ws[..k]).err.Some?
    ensures Trees(s, files, ws) == Trees(s, files[..k], ws[..k])
    decreases |files| - k
  {
    if k < |files| {
      TreesSnoc(s, files, ws, k);
      TreesStops(s, files, ws, k + 1);
    } else {
      assert files[..k] == files && ws[..k] == ws;
    }
  }
}
