# go-capnp: the local call dispatcher and the code generator's naming rules

This project models two parts of go-capnp, the Go implementation of Cap'n Proto,
and proves properties of both.

**The local call dispatcher** (`server/server.go`) is modelled as a sequential
state machine.
- `MethodTable` holds the method table. `New` sorts it by `(InterfaceID, MethodID)`
  and `find` searches it by lower bound.
- `Dispatch` holds the `Server`, `Call` and answer-queue classes.
  - A `Server` owns the sorted table, a FIFO queue of pending calls, the
    outstanding-call counter (Go's `sync.WaitGroup`) and a cancellation flag.
  - It also keeps a trace of every step a caller can observe:
    - an allocation request to the Returner;
    - an `Ack` hand-off;
    - an argument release;
    - an answer resolution;
    - a `Returner.Return`;
    - a rejected delivery;
    - the shutdown hook.
- No goroutines are modelled. `HandleCalls` is one run of the dispatch loop. The
  goroutine that `Ack` starts is recorded as a `Handoff` event, after which the
  environment may run the loop again.
- A method implementation is foreign code. Each dispatched call is given a `Run`:
  the `AllocResults`/`Ack` calls its body makes, then the error it returns.

**The code generator's naming and schema walk** (`capnpc-go/nodes.go`) is
modelled over abstract schema records (`Schema`).
- `Annotations`: the `$Go` annotation fold, `Tag` and `Rename`.
- `Nodes`: the generator's `node` class and the per-field and per-enumerant naming
  helpers.
- `MethodSets`: the superclass walk of `methodSet`.
- `NameResolution`: `resolveName`, modelled on the `Node` objects.
  - Each `Resolve…` method mutates `name`/`pkg`/`imp` and the file's `nodes` list.
  - Each is proved against a pure walk (`Resolve`, `Children`, `NestedWalk`,
    `GroupWalk`, `MethodWalk`, …). A walk yields the ordered list of name
    assignments and the first error.
  - `Apply` replays those assignments on a snapshot of the objects' fields.
- `WalkFacts`: the naming rules and error cases, read off the walks.
- `NodeTrees`: `makeNodeTrees`, which builds the node map, resolves every file and
  groups node ids by package.

## Model

| member | source | states |
|---|---|---|
| MethodTable.LessIsLexicographic | server/server.go:312-317 | `Less` is the lexicographic order on (InterfaceID, MethodID) and is a strict total order: irreflexive, asymmetric, transitive, total on distinct ids |
| MethodTable.AtOrAfterIsNotLess | server/server.go:291-297 | the predicate the binary search bisects on holds exactly when the entry is not `Less` than the query |
| MethodTable.Find | server/server.go:290-306 | on a sorted table: `None` exactly when no entry has the query's id; otherwise an entry with exactly that id, the first one in the table |
| MethodTable.Swap | server/server.go:319-321 | exchanges two entries, keeping the multiset of entries |
| MethodTable.SortInPlace | server/server.go:121 | the array ends sorted by `Less` and is a permutation of its old contents |
| MethodTable.NewTable | server/server.go:113-121 | the stored table is a sorted permutation of the supplied methods |
| Dispatch.AnswerQueue.constructor | server/server.go:220 | a new answer queue for the method id starts unresolved |
| Dispatch.AnswerQueue.Fulfill | server/server.go:210 | only an unresolved answer can be fulfilled, and it becomes fulfilled with the results |
| Dispatch.AnswerQueue.Reject | server/server.go:212 | only an unresolved answer can be rejected, and it becomes rejected with the error |
| Dispatch.Call.constructor | server/server.go:221-227 | a queued call holds its method, delivery, answer queue and server, not yet allocated or acked |
| Dispatch.Call.AllocResults | server/server.go:46-54 | every call after the first returns the "multiple calls" error and changes neither the results nor the trace; the first sets `alloced` even when the Returner fails, stores and returns the Returner's struct and error, and records one allocation request |
| Dispatch.Call.Ack | server/server.go:66-72 | idempotent: the first call sets `acked` and records one hand-off, later calls change nothing |
| Dispatch.IsServer | server/server.go:250-253 | reports true exactly for a server brand, then returns the wrapped value; otherwise nil and false |
| Dispatch.SendArgsToStruct | server/server.go:259-273 | no `PlaceArgs` gives the null struct; otherwise the blank-struct error, else the wrapped `PlaceArgs` failure, else the blank struct |
| Dispatch.Server.constructor | server/server.go:109-124 | a sorted permutation of the methods, the brand and the hook are stored; the queue and the trace are empty, the counter is 0 and nothing is cancelled |
| Dispatch.Server.Brand | server/server.go:232-234 | round-trip: `IsServer` of the brand gives back the value passed to `New`, with true |
| Dispatch.Server.Start | server/server.go:217-229 | the counter grows by exactly 1; exactly one new call for the method and delivery is appended at the tail; the call's fresh, unresolved answer queue is returned |
| Dispatch.Server.Send | server/server.go:127-148 | an unknown method gives an Unimplemented error answer with a no-op release, and the queue and counter are untouched; an argument failure gives that error the same way; otherwise a pending answer, on an answer queue for the method id, whose call is appended by `Start` with the placed arguments |
| Dispatch.Server.Recv | server/server.go:151-158 | an unknown method records one Unimplemented rejection, returns nil and leaves the queue and counter untouched; otherwise the call is started and its answer queue, for the method id, returned |
| Dispatch.Server.RunBody | server/server.go:206 | after the body, the call's flags and results are those `BodyState` gives for its steps, and the trace grows by exactly the body's events |
| Dispatch.Server.HandleCall | server/server.go:203-215 | the counter drops by exactly 1; the answer is fulfilled with the results when the body returned no error and rejected with its error otherwise; the trace grows by the `CallTrace` of the call |
| Dispatch.Server.HandleCalls | server/server.go:160-201 | takes a prefix of the queue in FIFO order and handles each; the trace is their traces in queue order. Cancelled: every queued call is drained. Otherwise it stops right after the first call whose body acked, or waits on an empty queue when none acked |
| Dispatch.Server.Serve | server/server.go:161-190 | the first loop: takes calls in FIFO order until one acks (`Retired`, that call being the last taken) or the queue is empty (`Waiting`, no call acked) |
| Dispatch.Server.Drain | server/server.go:191-200 | the cancelled loop: every queued call is handled in order with the lifetime context, and the queue ends empty |
| Dispatch.Server.HandleNext | server/server.go:180-189 | pops and handles the head of the queue, extends the trace by its `CallTrace` and reports whether its body acked |
| Dispatch.Server.Shutdown | server/server.go:239-245 | cancels, drains every queued call, so the counter ends at 0 (the wait); the hook is called after that, and only when one was given |
| Dispatch.BodyStateFacts | server/server.go:46-72 | a body leaves the call acked iff one of its steps is an `Ack`, and allocated iff one is an `AllocResults`; the stored results are null without an allocation, else the first allocation's reply |
| Dispatch.BodyAcksIff | server/server.go:185-189 | the loop's `call.acked` test is exactly "the body called `Ack`" |
| Dispatch.BodyTraceCounts | server/server.go:46-72 | however often a body calls `AllocResults` and `Ack`, it makes one allocation request if it allocated and none otherwise, one hand-off if it acked and none otherwise, and no event of any other kind |
| Dispatch.CallTraceShape | server/server.go:203-215 | a handled call's events begin with its dispatch and end, in order, with argument release, then a resolution (fulfilled iff no error, else rejected with that error), then `Return` with the same error |
| Dispatch.CallTraceOnly | server/server.go:203-215 | per handled call: at most one allocation request and at most one hand-off; exactly one dispatch, release, resolution and return; no rejection and no hook call |
| Dispatch.DispatchTraceOrder | server/server.go:160-201 | over a run of the loop, the dispatch/release/resolution/return events of each kind come one per call, in queue order |
| Annotations.ParseAnnotations | capnpc-go/nodes.go:180-202 | the loop computes `Annotated(list)`: each text field is the last occurrence of its id, and the tag type is set by the last `$tag`/`$notag` |
| Annotations.Tag | capnpc-go/nodes.go:206-217 | "" under `noTag`, the custom tag under `customTag`, the name for the default or any other value |
| Annotations.Rename | capnpc-go/nodes.go:221-226 | the `$name` value when it is non-empty, the given name otherwise |
| Annotations.RenameAnnotated | capnpc-go/nodes.go:221-226 | renaming through the parsed record equals reading the last `$name` straight off the list |
| Annotations.AnnotatedEmpty | capnpc-go/nodes.go:181 | an empty list gives the all-default record |
| Annotations.IgnoresUnrecognised | capnpc-go/nodes.go:185-200 | inserting an unrecognised annotation anywhere in the list changes no field |
| Annotations.LastTextWins | capnpc-go/nodes.go:182-201 | a text field is the value of the last annotation with its id |
| Annotations.LastTextAbsent | capnpc-go/nodes.go:180-202 | a text field with no annotation of its id stays "" |
| Annotations.LastTagWins | capnpc-go/nodes.go:193-196 | the tag type is that of the last `$tag` or `$notag` |
| Annotations.LastTagAbsent | capnpc-go/nodes.go:180-202 | without `$tag`/`$notag` the tag type stays the default |
| Annotations.TagThenNoTag | capnpc-go/nodes.go:193-196 | `$tag` followed by `$notag` tags nothing, though the custom tag text is kept |
| Nodes.Node.constructor | capnpc-go/nodes.go:263 | a new node holds its schema and the zero package, import, name and node list |
| Nodes.MustFind | capnpc-go/nodes.go:396-402 | an error exactly when the id is absent, naming the id; otherwise the mapped node |
| Nodes.DiscriminantOffset | capnpc-go/nodes.go:51-59 | error on nil and on a non-struct node; otherwise twice the stored offset, wrapped to 32 bits (so even, and exact below 2^31) |
| Nodes.ShortDisplayName | capnpc-go/nodes.go:61-64 | the display name is its prefix of the stated length followed by the result |
| Nodes.Title | capnpc-go/nodes.go:311 | same length; a letter is uppercased exactly when it is first or follows a separator, everything else is kept |
| Nodes.TitleIdentifier | capnpc-go/nodes.go:311 | on an identifier (no separators), `Title` uppercases only the first letter |
| Nodes.FieldName | capnpc-go/nodes.go:36-44 | a `$name` that differs from the schema name is used as is; otherwise the schema name, with a trailing `_` exactly when its Title-cased form is in `renameIdents` |
| Nodes.LastAt | capnpc-go/nodes.go:46 | the last field with a given code order, or none when no field has it |
| Nodes.NameField | capnpc-go/nodes.go:35-44 | the field paired with its Go name `FieldName` |
| Nodes.Placed | capnpc-go/nodes.go:30-48 | the slice has one slot per field; slot `i` holds the last field with code order `i` under its Go name, or, when no field has that code order, the zero field, whose discriminant reads `0xffff` so it is in no union |
| Nodes.CodeOrderFields | capnpc-go/nodes.go:30-48 | the indexed loop produces `Placed`: each field at its code order, with its Go name |
| Nodes.CodeOrdersCard | capnpc-go/nodes.go:46 | distinct code orders of `m` fields are `m` distinct slot indices |
| Nodes.EveryCodeOrderUsed | capnpc-go/nodes.go:34-47 | when the code orders are distinct and below the field count, every slot index is some field's code order |
| Nodes.CodeOrderPermutation | capnpc-go/nodes.go:30-48 | when the code orders are a permutation of 0..n-1, every field lands at its code order with its Go name, and every slot holds a field (the result is a permutation of the fields) |
| Nodes.HasDiscriminant | capnpc-go/nodes.go:84-86 | in a union exactly when the discriminant value is not `0xffff` |
| Nodes.MakeEnumval | capnpc-go/nodes.go:96-103 | keeps the enumerant, ordinal and parent; the name is the `$name` override or the schema name; the tag is "" under a last `$notag`, the `$tag` text under a last `$tag`, and the Go name otherwise |
| Nodes.FullName | capnpc-go/nodes.go:105-107 | the parent's name, `_`, then the enumerant's name |
| MethodSets.IsStreaming | capnpc-go/nodes.go:119-121 | true exactly when the result type is `stream.StreamResult` |
| MethodSets.OwnMethodFacts | capnpc-go/nodes.go:125-148 | the i-th own method fails on a missing param type, then on a missing result type, and succeeds exactly when both exist; it carries the interface, ordinal `i`, original and renamed name and both nodes |
| MethodSets.OwnFacts | capnpc-go/nodes.go:125-148 | the own-method loop collects exactly the successful prefix, in order; an error names the first method that failed |
| MethodSets.OwnStops | capnpc-go/nodes.go:128-135 | after an own-method error nothing more is collected |
| MethodSets.SupersSnoc | capnpc-go/nodes.go:150-161 | each superclass step either fails with `MissingSuperclass` or appends that superclass's whole method set |
| MethodSets.MethodSet | capnpc-go/nodes.go:123-162 | the recursive method computes `Collect`, the specification of the depth-first walk |
| MethodSets.SuperMethodSets | capnpc-go/nodes.go:150-161 | the superclass loop computes `SupersFrom` over all superclasses |
| MethodSets.CollectAcc | capnpc-go/nodes.go:123-162 | the accumulator is only ever a prefix: the result is the methods passed in followed by this interface's own set |
| MethodSets.SupersAcc | capnpc-go/nodes.go:150-161 | the same prefix property for the superclass loop |
| MethodSets.SupersInOrder | capnpc-go/nodes.go:150-161 | depth-first: superclass `k`'s full method set comes right after those of superclasses `0..k-1` |
| MethodSets.OwnFirst | capnpc-go/nodes.go:123-148 | the interface's own methods come first, with `ID` equal to their index; an own-method error ends the walk |
| MethodSets.MissingSuperclassStops | capnpc-go/nodes.go:152-156 | a missing superclass node is the walk's error |
| MethodSets.StopsAfterError | capnpc-go/nodes.go:157-160 | after an error, later superclasses add nothing |
| NameResolution.NodeNameRule | capnpc-go/nodes.go:309-325 | with a base: `base_renamed`; at top level: `Title(renamed)`, plus `_` for an annotation node whose first letter was lowercase; an empty annotation name is an error |
| NameResolution.ResolveNamed | capnpc-go/nodes.go:304-394 | naming a node assigns it first, then walks its children |
| NameResolution.StepFacts | capnpc-go/nodes.go:326-328 | one resolution step names the node, copies the file's package and import, appends the node to the file's list and changes no other node |
| NameResolution.ApplyFile | capnpc-go/nodes.go:326-328 | after a walk, the file's node list has grown by the walked nodes in order, and its package and import are unchanged |
| NameResolution.ApplyPackage | capnpc-go/nodes.go:326-327 | every resolved node carries the file's package and import |
| NameResolution.ApplyUntouched | capnpc-go/nodes.go:304-394 | a node the walk never reaches keeps every field |
| NameResolution.ApplyLastName | capnpc-go/nodes.go:310-325 | a node's final name is the last name assigned to it |
| NameResolution.ApplyNameKept | capnpc-go/nodes.go:310-325 | a node the walk never names keeps its name |
| NameResolution.NestedSnoc | capnpc-go/nodes.go:334-347 | nested nodes are visited in order; an absent one is skipped, a present one is resolved under the parent's name |
| NameResolution.GroupSnoc | capnpc-go/nodes.go:352-367 | fields are visited in order, each group field's walk following the previous ones |
| NameResolution.MethodSnoc | capnpc-go/nodes.go:380-391 | methods are visited in order, each method's param/result walk following the previous ones |
| NameResolution.NestedStops | capnpc-go/nodes.go:344-346 | after a nested node's error, no later nested node is visited |
| NameResolution.GroupStops | capnpc-go/nodes.go:360-366 | after a group error, no later field is visited |
| NameResolution.MethodStops | capnpc-go/nodes.go:385-390 | after a method-type error, no later method is visited |
| NameResolution.ChooseName | capnpc-go/nodes.go:309-325 | computes `NodeName`, whose rule `NodeNameRule` states |
| NameResolution.Place | capnpc-go/nodes.go:310-328 | the objects' new state is the old one with one assignment applied |
| NameResolution.ResolveName | capnpc-go/nodes.go:304-394 | `resolveName`'s error is the walk's first error, and the objects end as the walk's assignments applied in order to their old state |
| NameResolution.ResolveNamedNode | capnpc-go/nodes.go:326-394 | after the name is chosen: the node is placed, then its children are walked |
| NameResolution.ResolveChildren | capnpc-go/nodes.go:330-392 | nested nodes first, then the group fields of a struct or the method types of an interface |
| NameResolution.ResolveNested | capnpc-go/nodes.go:334-347 | the nested-node loop computes `NestedWalk` |
| NameResolution.ResolveGroups | capnpc-go/nodes.go:349-367 | the field loop computes `GroupWalk` |
| NameResolution.ResolveGroup | capnpc-go/nodes.go:353-366 | one field: skipped unless a group; a missing group type is an error; else the group node is resolved |
| NameResolution.ResolveMethods | capnpc-go/nodes.go:368-391 | the method loop computes `MethodWalk` |
| NameResolution.ResolveMethodTypes | capnpc-go/nodes.go:381-390 | one method: its param type, then (if no error) its result type, under `parent_method` |
| NameResolution.ResolveMethodType | capnpc-go/nodes.go:370-379 | `methodResolve`: error on a missing type, nothing for a scoped type, else resolve it |
| WalkFacts.NamedUnder | capnpc-go/nodes.go:323-325 | under a non-empty base, a node is first assigned `base_renamed` |
| WalkFacts.ImplicitParamsNamed | capnpc-go/nodes.go:384-385 | an implicit param struct is named `<Iface>_<Method>_Params`, each part renamed by its annotations |
| WalkFacts.ImplicitResultsNamed | capnpc-go/nodes.go:384-388 | an implicit result struct is named `<Iface>_<Method>_Results`, right after the param walk |
| WalkFacts.ScopedTypesSkipped | capnpc-go/nodes.go:375-377 | methods whose param and result types have a non-zero scope id name nothing |
| WalkFacts.MissingParamsStops | capnpc-go/nodes.go:372-374 | a missing param type is the interface's error, naming type, interface and method, with nothing named after it |
| WalkFacts.MissingResultsStops | capnpc-go/nodes.go:372-374 | a missing result type is the interface's error |
| WalkFacts.MissingGroupStops | capnpc-go/nodes.go:359-362 | a missing group type is the struct's error, with nothing named after it |
| WalkFacts.GroupNamed | capnpc-go/nodes.go:363-364 | a group node is named `parent_renamedField`, renamed again by its own annotations |
| WalkFacts.SlotsSkipped | capnpc-go/nodes.go:354-356 | fields that are not groups name nothing |
| WalkFacts.AbsentNestedSkipped | capnpc-go/nodes.go:336-339 | nested nodes absent from the map are skipped |
| WalkFacts.NestedNamed | capnpc-go/nodes.go:344 | a present nested node is named `parent_renamed` |
| WalkFacts.ResolveAmong | capnpc-go/nodes.go:334-391 | every node the walk names is a node of the map |
| WalkFacts.ChildrenAmong | capnpc-go/nodes.go:330-392 | the same for a node's children |
| WalkFacts.NestedAmong | capnpc-go/nodes.go:334-347 | the same for the nested-node loop |
| WalkFacts.GroupAmong | capnpc-go/nodes.go:349-367 | the same for the field loop |
| WalkFacts.GroupFieldAmong | capnpc-go/nodes.go:359-364 | the same for one group field |
| WalkFacts.MethodAmong | capnpc-go/nodes.go:368-391 | the same for the method loop |
| WalkFacts.MethodTypesAmong | capnpc-go/nodes.go:384-390 | the same for one method |
| WalkFacts.TypeAmong | capnpc-go/nodes.go:370-379 | the same for one param or result type |
| NodeTrees.IdsAt | capnpc-go/nodes.go:295-297 | the id list has one id per node, in order |
| NodeTrees.FileWalks | capnpc-go/nodes.go:269-286 | one walk per file, in file order |
| NodeTrees.IdMapLastWins | capnpc-go/nodes.go:261-264 | the node map holds exactly the requested ids, each mapped to the last node with that id |
| NodeTrees.FileSchemasSound | capnpc-go/nodes.go:265-267 | every collected file is a file node of the request |
| NodeTrees.FileSchemasComplete | capnpc-go/nodes.go:265-267 | every file node of the request is collected |
| NodeTrees.CollectAppend | capnpc-go/nodes.go:288-298 | grouping entries two batches at a time equals grouping them all |
| NodeTrees.CollectGrouped | capnpc-go/nodes.go:288-298 | a package is a key exactly when some file entry names it, and its ids are those of all its entries concatenated, in order |
| NodeTrees.GroupAbsent | capnpc-go/nodes.go:288-298 | a package no entry names collects no ids |
| NodeTrees.TreesError | capnpc-go/nodes.go:269-300 | the file loop fails exactly when some file's walk fails, with the first failing walk's error; without error there is one entry per file |
| NodeTrees.ApplyOtherNodes | capnpc-go/nodes.go:328 | a walk appends only to its own file's node list |
| NodeTrees.TreesOtherNodes | capnpc-go/nodes.go:269-299 | a node that is not a file keeps its node list |
| NodeTrees.FileEntry | capnpc-go/nodes.go:288-298 | a file contributes its package and the ids of its earlier nodes followed by the walked ones |
| NodeTrees.FileEntryFresh | capnpc-go/nodes.go:288-298 | a file starting with no nodes contributes exactly the walked nodes' ids under its `$package` |
| NodeTrees.TreesEntries | capnpc-go/nodes.go:269-299 | for distinct files the i-th entry is the i-th file's `$package` and the ids of the nodes its walk named |
| NodeTrees.ExpectedAll | capnpc-go/nodes.go:269-299 | the expected entry of every file, in file order |
| NodeTrees.PackagesGrouped | capnpc-go/nodes.go:288-298 | after an error-free build, a package is a key exactly when some file declares it, and it holds the ids of all files in that package concatenated in file order |
| NodeTrees.NodeIds | capnpc-go/nodes.go:295-297 | the loop collects the node ids in order |
| NodeTrees.SetPackage | capnpc-go/nodes.go:275-276 | only the file's package and import change |
| NodeTrees.ResolveFile | capnpc-go/nodes.go:270-298 | one iteration of the file loop: the objects, the error and the package map are those `FileStep` specifies |
| NodeTrees.MakeNodeTrees | capnpc-go/nodes.go:252-301 | the node map is `IdMap` of the request, the files are its file nodes in order, and the objects, error and package map are those of the specification fold `Trees` over those files (on error: the packages of the files resolved before) |
| NodeTrees.NewNodes | capnpc-go/nodes.go:258-268 | fresh zeroed nodes, the map of the request's ids and its file nodes in order |
| NodeTrees.ResolveFiles | capnpc-go/nodes.go:269-299 | the file loop computes `Trees` and the grouped package map of its entries |

## Left out

Concurrency and foreign code:
- Goroutines are not modelled: the dispatch goroutine started by `New` and by `Ack`, and the per-call goroutine that watches for cancellation. Handing off the loop is a `Handoff` event, and the environment decides when the loop runs again.
- `context` cancellation is not modelled beyond the server's `cancelled` flag. The context a call receives is recorded only as "merged" or "lifetime".
- `sync.WaitGroup` blocking is not modelled. `Shutdown` drains the queue itself, and the wait is shown by the counter ending at 0.
- The `mpsc.Queue` internals are not modelled. `Recv(ctx)` on a cancelled context is taken to fail before it yields a call, and on an empty queue the loop ends as `Waiting`.
- The answer queue's pipelining and `structReturner` are not modelled. An answer is a three-state value, and `Send`'s result is either a promise or an error answer.
- Foreign calls are modelled only by their results or failures:
  - `Returner.AllocResults`, `Returner.Return`, `newBlankStruct`, `PlaceArgs`, `ReleaseArgs`;
  - `msg.Reset`;
  - the method implementations.
- Error text is not modelled. Errors are tagged values.
- `Call.Args` is a plain accessor and is not modelled.

Schema accessors and naming:
- Schema accessors are replaced by records. Their decoding is not modelled, nor the errors the generator ignores with `_`. The `rnodes`/annotation read errors of `makeNodeTrees` and `resolveName`, and the nested-node read errors, are not modelled.
- `strings.Title` is modelled for ASCII only: lowercase letters after a separator or at the start are uppercased.
- The Go panic at `n.Name[0]` on an empty name of a top-level annotation node is modelled as the `EmptyName` error.
- `resolveName` recursion carries fuel, starting at one more than the number of request nodes. Running out gives `Diverges`.
  - In Go, a cyclic schema recurses forever.
  - No lemma shows that this fuel suffices for an acyclic schema.
- `resolveName` re-reads `n.Name` for the groups and methods after the nested loop. A nested walk that renames the node itself happens only through a cycle. The model uses the name it computed.
- `Fields`/`IfaceMethods` of a node that is not a struct or an interface are empty, as the `switch` gives.
- `pkgSchema.done` is not modelled; `makeNodeTrees` never sets it.
- `node.String` and `displayName` are display helpers and are not modelled.
- `Nodes.CodeOrderFields` requires every code order to be below the field count. Go would panic on a larger index, and the schema compiler guarantees it.
- `MethodSets.MethodSet` carries fuel for the superclass recursion. An exhausted fuel gives `Diverges`; in Go a cyclic superclass graph recurses forever. No lemma shows that any fuel suffices for an acyclic superclass graph, nor relates the results at two different fuels.
- `Nodes.ShortDisplayName` cuts the display name as a sequence of characters, where Go cuts it at a byte offset of its UTF-8 encoding; the two agree only on ASCII display names. Its requires (the prefix length is at most the name's length) stands for Go's slice-bounds panic.
