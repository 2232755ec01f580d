# Semantic flow graphs, modelled in Dafny

This project models the core of the Python package `opendisc` (semantic flow
graphs). The package records a Python program as it runs. Each function call
becomes a node of a directed multigraph, and each object that passes from one
call to another becomes an edge between their ports. Calls to functions the
annotation database knows are then abstracted into an annotated graph of
actions and entities. That graph is turned into a semantic graph over an
ontology of types and aspects. GraphML is the exchange format for all of them.

The model follows the source file by file:

- `graphs.dfy` (`Graphs`): the networkx 1.x multigraph semantics the core relies on. These are node order, keyed parallel edges, `add_edge`/`remove_node`/`remove_edge`, and attribute dictionaries. All edges are kept in one sequence in insertion order; networkx orders them differently (see "## Left out"). networkx is not part of this model, so its members have no rows below.
- `graph_util.dfy`, `graph_algorithms.dfy`, `graph_operations.dfy` and `graph_reach.dfy`: node lookup and naming, the breadth-first search with visitor callbacks, copying topology, collapsing a subgraph, and reachability and topological order as predicates.
- `flow_graph.dfy` (`FlowGraphs`): `flatten` and `join` of flow graphs with nested call graphs.
- `flow_graph_builder.dfy` (`FlowGraphBuilding`): the `FlowGraphBuilder` class. Its stack of call frames is mutated by `push_event`, and it handles output tables, mutated and returned objects, and the annotated slot nodes.
- `slots.dfy` (`Slots`): the slot-path language of object annotations (`get_slot`, `get_slots`).
- `object_tracker.dfy` (`ObjectTracking`): the `ObjectTracker` class, i.e. ids of live objects and their release.
- `annotation_db.dfy` (`AnnotationDb`) and `annotator.dfy` (`Annotations`): annotation queries, and the `Annotator` class with its function and type caches.
- `annotated_graph.dfy`, `annotated_reach.dfy`, `annotated_reify.dfy`, `reify_order.dfy`, `annotated_cleanup.dfy` and `annotated_build.dfy`: the `AnnotatedGraphBuilder` passes and their composition in `build`. The passes are source/sink nodes, annotation of nodes, collapse of unannotated actions, entity reification, and cleanup.
- `semantic_graph.dfy`, `semantic_reify.dfy`, `semantic_merge.dfy` and `semantic_builder.dfy`: the `SemanticGraphBuilder` passes. They assign types, add aspects to action edges, orient and validate aspects, reify entity slots, merge duplicate and unknown aspects, and run `merge_nodes`.
- `graphml.dfy` (`GraphML`): the GraphML writer and reader on an element tree, and their round trip.

Graphs are values, so an operation returns the new graph. Where the source
keeps state in an object (the builder's stack, the annotator's caches, the
tracker's maps, the GraphML writer's node list), the model is a class whose
methods change those fields. Loops in the source are methods with loop
invariants, each proved equal to a specification function. The lemmas state
what the source promises about those functions.

## Model

| member | source | states |
|---|---|---|
| `GraphUtil.FindNodes` | lang/python/opendisc/core/graphutil.py:16-20 | the result holds exactly the nodes whose data satisfies the query, each once |
| `GraphUtil.FindNode` | lang/python/opendisc/core/graphutil.py:9-14 | None exactly when no node matches; otherwise the first matching node in graph order |
| `GraphUtil.FirstMatching` | lang/python/opendisc/core/graphutil.py:9-14 | when some node matches, the first match precedes every other matching node (the `next(...)` of `find_node`) |
| `GraphUtil.NodeName` | lang/python/opendisc/core/graphutil.py:23-33 | without a base the name is the token; with one it is base, then the separator (default `:`), then the token |
| `GraphUtil.DeterministicNodeName` | lang/python/opendisc/core/graphutil.py:35-47 | the name is base + sep + str(i) for the least i >= 1 whose name is not a node (sep defaults to `:`), so it is never a node of the graph |
| `GraphUtil.LeastFreeUnique` | lang/python/opendisc/core/graphutil.py:43-47 | at most one counter is the least free one, so equal inputs give equal names |
| `GraphUtil.CandidateInjective` | lang/python/opendisc/core/graphutil.py:44 | different counters give different candidate names |
| `GraphAlgorithms.EdgesOf` | lang/python/opendisc/core/graph/algorithms.py:61-78 | every edge examined from a node touches it: out-edges, in-edges with `reverse`, in-edges then out-edges with `undirected` |
| `GraphAlgorithms.Bfs` | lang/python/opendisc/core/graph/algorithms.py:80-89 | the source is visited first and no node twice; each later node was queued by an accepted edge of an expanded node; parents are taken in FIFO order and are the earliest possible; children of one node are queued in the order of their first accepted edge; every accepted edge of an expanded node leads to a visited node; the edges handed to `visit_edge` are exactly the examined edges of the nodes whose `visit_node` returned true |
| `GraphAlgorithms.ExamineEdges` | lang/python/opendisc/core/graph/algorithms.py:84-89 | every edge of the node is handed to `visit_edge` in order; an accepted edge to an unvisited node queues it, and the queue order stays a breadth-first order |
| `GraphAlgorithms.RankedSiblings` | lang/python/opendisc/core/graph/algorithms.py:85-89 | the nodes queued from one node follow every earlier queued node, so siblings stay in the order of the parent's edges |
| `GraphAlgorithms.ClosedEarliest` | lang/python/opendisc/core/graph/algorithms.py:82-89 | once every queued node is expanded, every accepted edge stays inside the visited set and each parent is the earliest node that leads to its child |
| `GraphAlgorithms.WalkTo` | lang/python/opendisc/core/graph/algorithms.py:86-89 | every visited node is reached from the source by a walk of accepted edges |
| `GraphAlgorithms.BfsReach` | lang/python/opendisc/core/graph/algorithms.py:80-89 | a node is visited exactly when some walk of accepted edges from the source reaches it |
| `GraphReach.TransitiveClosure` | lang/python/opendisc/core/annotated_graph.py:114 | the closure is a directed graph on the same nodes with an edge u -> v exactly when v != u and u reaches v (`transitive_closure`) |
| `GraphReach.SearchReach` | lang/python/opendisc/core/annotated_graph.py:114 | a forward search from v visits exactly v and the nodes v reaches |
| `GraphReach.TopologicalAcyclic` | lang/python/opendisc/core/annotated_graph.py:133 | a directed graph with a topological order reaches no node from itself |
| `GraphReach.TopologicalForward` | lang/python/opendisc/core/annotated_graph.py:153 | a path goes forward in a topological order |
| `GraphOperations.CopyTopology` | lang/python/opendisc/core/graph/operations.py:8-23 | every source node and every keyed source edge is in the result; into a new graph the result has the source's node list and its edges with no data; into a given target the target's nodes, data and edges are kept and only bare copies of source edges are appended |
| `GraphOperations.AddNodesFrom` | lang/python/opendisc/core/graph/operations.py:17 | every listed name becomes a node, new ones with empty data, existing ones keep their data |
| `GraphOperations.CollapseSubgraph` | lang/python/opendisc/core/graph/operations.py:26-51 | ValueError exactly when the new node exists; otherwise the subgraph nodes are gone, the new node has empty data, edges outside the subgraph are kept in order, and the added edges are the boundary edges re-routed to the new node with their data |
| `GraphOperations.CollapsedAvoidsSubgraph` | lang/python/opendisc/core/graph/operations.py:50 | after collapsing no edge touches a subgraph node |
| `GraphOperations.CollapseKeepsParallelEdges` | lang/python/opendisc/core/graph/operations.py:36-42 | each edge crossing the subgraph boundary gives exactly one re-routed edge, counted with multiplicity, so parallel edges stay parallel |
| `GraphOperations.InsertAfterPredecessors` | lang/python/opendisc/core/graph/operations.py:54-69 | TypeError on an undirected graph, ValueError when a listed node is not a predecessor; otherwise the edge new_node -> node is added and every in-edge from a listed predecessor is moved onto new_node with its data |
| `GraphOperations.InsertBeforeSuccessors` | lang/python/opendisc/core/graph/operations.py:71-86 | the mirror image: same errors, edge node -> new_node added, every out-edge to a listed successor moved onto new_node |
| `GraphOperations.MoveEdges` | lang/python/opendisc/core/graph/operations.py:65-68 | the edges at node whose far end is listed are dropped and re-created at new_node, all other edges kept in order |
| `ObjectTracking.FunctionsNeverTrackable` | lang/python/opendisc/kernel/trace/object_tracker.py:57-59 | function and method objects are never trackable |
| `ObjectTracking.ObjectTracker.GetObject` | lang/python/opendisc/kernel/trace/object_tracker.py:26-33 | an object exactly for a registered id, and then a trackable one whose id is that id |
| `ObjectTracking.ObjectTracker.GetId` | lang/python/opendisc/kernel/trace/object_tracker.py:35-42 | None for an untrackable or untracked object, else the id registered for its address |
| `ObjectTracking.ObjectTracker.IsTracked` | lang/python/opendisc/kernel/trace/object_tracker.py:44-49 | tracked implies trackable, and tracked exactly when `get_id` gives an id |
| `ObjectTracking.ObjectTracker.Track` | lang/python/opendisc/kernel/trace/object_tracker.py:68-90 | TypeError and no change for an untrackable object; the existing id and no change for a tracked one; otherwise both maps gain the fresh id; on success `get_object` of the id is the object |
| `ObjectTracking.ObjectTracker.Collect` | lang/python/opendisc/kernel/trace/object_tracker.py:84-86 | both map entries of the collected object go, and its id then gives no object |
| `ObjectTracking.TrackTwice` | lang/python/opendisc/kernel/trace/object_tracker.py:76-79 | tracking an object twice gives the same result, which is an id exactly when it is trackable |
| `Slots.GetSingleSlot` | lang/python/opendisc/kernel/slots.py:43-65 | an attribute wins; a bound zero-argument method of this very object is called, another method raises AttributeError; without the attribute the key (parsed as an integer when possible) indexes the object, and any failure becomes AttributeError |
| `Slots.DottedSlot` | lang/python/opendisc/kernel/slots.py:35-37 | slot `p.q` is slot `q` resolved on the result of slot `p`, errors propagating |
| `Slots.IntegerSlot` | lang/python/opendisc/kernel/slots.py:38-39 | an integer slot indexes the object directly; a string slot spelling the same integer reaches the same item when no attribute has that name |
| `Slots.ShapeOfGetSlots` | lang/python/opendisc/kernel/slots.py:13-18 | a dict spec gives a dict with the same keys, a list spec a list of the same length, recursively |
| `Slots.ParseIntOfIntToString` | lang/python/opendisc/kernel/slots.py:48 | `int(str(i)) == i` |
| `Slots.Split` | lang/python/opendisc/kernel/slots.py:36 | `split('.')` gives at least one part and no part holds a dot |
| `Slots.JoinDotsSplit` | lang/python/opendisc/kernel/slots.py:36 | joining the parts of a split with dots gives back the path |
| `AnnotationDb.QueryJsonSound` | lang/python/opendisc/core/annotation_db.py:81-97 | on a query without operators the matcher never raises and matches exactly when the object satisfies the query: a dict query needs a dict object with every query key present and matching recursively, any other query needs equality |
| `AnnotationDb.OperatorRaises` | lang/python/opendisc/core/annotation_db.py:90-92 | a `$` key met in the walk raises NotImplementedError |
| `AnnotationDb.ExtraKeysIgnored` | lang/python/opendisc/core/annotation_db.py:90-95 | adding entries under new keys to a matching object keeps it matching |
| `AnnotationDb.BackendPart` | lang/python/opendisc/core/annotation_db.py:60-62 | exactly the query entries whose key is indexed or starts with `$` |
| `AnnotationDb.Residual` | lang/python/opendisc/core/annotation_db.py:60-62 | exactly the query entries left behind: neither indexed nor an operator |
| `AnnotationDb.ResidualHasNoOperator` | lang/python/opendisc/core/annotation_db.py:60-62 | no top-level key of the residual query is an operator or an indexed field |
| `AnnotationDb.Filter` | lang/python/opendisc/core/annotation_db.py:55-65 | the caller's query is left holding the residual entries; the result is the backend's documents for the popped entries that the residual query matches |
| `AnnotationDb.FilterExact` | lang/python/opendisc/core/annotation_db.py:63-65 | with no operator below the top level filtering never raises and keeps exactly the backend documents that satisfy the residual query |
| `AnnotationDb.Get` | lang/python/opendisc/core/annotation_db.py:44-53 | None for no match, the document for one match, LookupError for more; matcher errors propagate |
| `GraphUtil.Matching` | lang/python/opendisc/core/graphutil.py:16-20 | the matching nodes are exactly the nodes whose data satisfies the query, without repeats when the nodes have none, and the first one matches |
| `GraphUtil.Separator` | lang/python/opendisc/core/graphutil.py:31 | `sep or ':'` is never empty and is the given separator when one is given |
| `GraphUtil.Candidate` | lang/python/opendisc/core/graphutil.py:44 | each candidate name is longer than the base and separator together |
| `GraphAlgorithms.FirstLead` | lang/python/opendisc/core/graph/algorithms.py:85-89 | the first accepted edge from a parent that leads to a child, or the end when there is none |
| `GraphReach.AddClosureEdges` | lang/python/opendisc/core/annotated_graph.py:114 | after adding the edges for one more node, the closure graph has an edge from u to w exactly when u is among the processed nodes, u differs from w and u reaches w |
| `GraphOperations.BareAll` | lang/python/opendisc/core/graph/operations.py:18-22 | one bare edge per edge, in order |
| `GraphOperations.EdgesAt` | lang/python/opendisc/core/graph/operations.py:37-42 | the edges into (out of) the listed nodes are exactly those whose near end is listed |
| `GraphOperations.IncidentAt` | lang/python/opendisc/core/graph/operations.py:44-48 | every edge listed at a node is oriented away from a listed node |
| `GraphOperations.Rerouted` | lang/python/opendisc/core/graph/operations.py:37-48 | every rerouted edge has each end outside the subgraph or at the new node |
| `GraphOperations.AddRerouted` | lang/python/opendisc/core/graph/operations.py:37-48 | the rerouting loop keeps the graph well formed, changes no node and appends exactly the rerouted edges after the existing ones |
| `GraphOperations.Moved` | lang/python/opendisc/core/graph/operations.py:65-68 | no more edges are moved than listed |
| `GraphOperations.Matching` | lang/python/opendisc/core/graph/operations.py:66 | the edges moved are exactly those whose far end is among the given nodes |
| `GraphOperations.InsertBetween` | lang/python/opendisc/core/graph/operations.py:64-68 | the loop shared by both insertions adds the link edge and moves the matching edges to the new node; when the new node is the node itself only a self-loop is added |
| `ObjectTracking.ObjectTracker.constructor` | lang/python/opendisc/kernel/trace/object_tracker.py:18-24 | a tracker starts with both maps empty |
| `AnnotationDb.EntryIndex` | lang/python/opendisc/core/annotation_db.py:93 | `key in obj` finds the first entry with the key, none exactly when no entry has it |
| `AnnotationDb.Matches` | lang/python/opendisc/core/annotation_db.py:64-65 | the documents kept are exactly the documents the residual query matches; the filter fails exactly when matching some document raises |
| `Slots.Index` | lang/python/opendisc/kernel/slots.py:39 | `obj[key]`: TypeError on an object that cannot be indexed; a sequence answers in range, negative indices counting from the end, and IndexError otherwise; a mapping answers for its keys and KeyError otherwise |
| `Slots.ParseInt` | lang/python/opendisc/kernel/slots.py:48 | only a non-empty string can be parsed |
| `Slots.NatToString` | lang/python/opendisc/core/graphutil.py:44 | `str(n)` of a natural number is a non-empty run of digits |
| `Slots.IntToString` | lang/python/opendisc/core/flow_graph_builder.py:180 | `str(i)` is never empty |
| `Slots.GetSlotsItems` | lang/python/opendisc/kernel/slots.py:15-16 | a list of slots gives one value per slot |
| `Slots.GetSlotsEntries` | lang/python/opendisc/kernel/slots.py:13-14 | a dictionary of slots gives one value per key, keeping the keys in order |
| `Slots.ToMap` | lang/python/opendisc/kernel/slots.py:14 | the dictionary has exactly the keys of the pairs |
| `AnnotatedGraphs.AnnotateAction` | lang/python/opendisc/core/annotated_graph.py:313-329 | only node n changes: its annotation is the given one, its kind `action` unless the attributes say otherwise, its label the annotation's id or empty, every other given attribute is set and every other old entry kept |
| `AnnotatedGraphs.AnnotateEntity` | lang/python/opendisc/core/annotated_graph.py:331-349 | as for actions, with kind `entity` and the label taken from the annotation's id, else `value` when the attributes hold a value, else `object` when there is an annotation, else empty |
| `AnnotatedGraphs.EntityLabelPrecedence` | lang/python/opendisc/core/annotated_graph.py:336-341 | the id beats `value`, `value` beats `object`, and the label is empty exactly when there is neither an annotation nor a value |
| `AnnotatedGraphs.AddEntity` | lang/python/opendisc/core/annotated_graph.py:286-311 | at most one entry per id is kept; an id already present keeps its data and gains the port name; a new id is appended with the data of the dict, or the id and the object annotation, and its ports: the names a dict's `ports` list already holds, then the given one; no other id changes |
| `AnnotatedGraphs.SeededPorts` | lang/python/opendisc/core/annotated_graph.py:309-310 | a dict that already lists port names keeps them: the new entry's ports are those names and then the given one, and its data no longer holds `ports`, as `reify_inputs` and `reify_outputs` pop the list before annotating the entity (lines 188, 226) |
| `AnnotatedGraphs.ConcreteAnnotated` | lang/python/opendisc/core/annotated_graph.py:70 | KeyError exactly for a node the concrete graph lacks, else whether its annotation is truthy |
| `AnnotatedGraphs.AnyAnnotated` | lang/python/opendisc/core/annotated_graph.py:72 | true only when some listed node is annotated, false only when every listed node exists and none is; KeyError is the only error and only for a missing node |
| `AnnotatedGraphs.SourceWiresSound` | lang/python/opendisc/core/annotated_graph.py:71-74 | every source edge leaves the source node, goes to a node listed for an object, carries that object's id, and the object has an annotated node |
| `AnnotatedGraphs.SourceWiresComplete` | lang/python/opendisc/core/annotated_graph.py:71-74 | every node listed for an object with an annotated node gets a source edge with the object's id |
| `AnnotatedGraphs.SinkWiresExact` | lang/python/opendisc/core/annotated_graph.py:75-77 | the sink edges are exactly the edges from an annotated sink node to the sink node with that object's id |
| `AnnotatedGraphs.AddSourceSinkActions` | lang/python/opendisc/core/annotated_graph.py:56-77 | adds the `__source__` and `__sink__` nodes and then the source and sink edges (the members above give their meaning) |
| `AnnotatedData.TableIdMapSpec` | lang/python/opendisc/core/annotated_graph.py:96-101 | the id map of a port table has one entry per id, and every port of the table is listed in the entry of its id |
| `AnnotatedData.AddActionData` | lang/python/opendisc/core/annotated_graph.py:79-101 | the nodes are processed in graph order; `ActionDataAt` gives the outcome at each node |
| `AnnotatedData.ActionDataAt` | lang/python/opendisc/core/annotated_graph.py:91-101 | every node is annotated as an action with the concrete annotation; it gets input and output id maps exactly when that annotation is truthy, built from the concrete port tables; nodes outside the pass are untouched |
| `AnnotatedData.WithIdsSpec` | lang/python/opendisc/core/annotated_graph.py:106-107 | an edge gets the id of the concrete edge in its slot (ends and key) and is unchanged when no concrete edge has its slot |
| `AnnotatedData.AddEdgeData` | lang/python/opendisc/core/annotated_graph.py:103-107 | KeyError exactly when some concrete edge has no id or no edge of that slot in the graph; otherwise every edge gets the id of the concrete edge in its slot |
| `AnnotatedCollapse.CanCollapseAt` | lang/python/opendisc/core/annotated_graph.py:124-127 | the guard holds exactly when every annotated ancestor of the child has a closure edge to every annotated descendant of the parent |
| `AnnotatedCollapse.PickChild` | lang/python/opendisc/core/annotated_graph.py:137-139 | the first successor that is unannotated and passes the guard, or none when no successor qualifies |
| `AnnotatedCollapse.CollapseUnannotatedActions` | lang/python/opendisc/core/annotated_graph.py:109-144 | with the closure computed once and collapsed along with the graph: the start closure is the transitive closure; ValueError is the only error; the result is reached by a chain of guarded merges, is a well-formed directed graph without self-loops, keeps the annotated nodes with their data, and every other node is an input node or a collapsed action |
| `AnnotatedCollapse.CollapsedLoopFree` | lang/python/opendisc/core/annotated_graph.py:129-131 | collapsing a loop-free graph leaves it loop-free |
| `AnnotatedCollapse.CollapsedShrinks` | lang/python/opendisc/core/annotated_graph.py:140-144 | each merge removes two nodes and adds one, so the pass ends |
| `AnnotatedCollapse.CollapsedData` | lang/python/opendisc/core/annotated_graph.py:141-143 | after a merge of two unannotated nodes the annotated nodes are untouched and the new node is a collapsed action |
| `AnnotatedReach.CollapseKeepsReach` | lang/python/opendisc/core/graph/operations.py:26-51 | collapsing a subgraph keeps every path between nodes outside it |
| `AnnotatedReach.GuardKeepsReach` | lang/python/opendisc/core/annotated_graph.py:124-127 | asked of the true closure, the guard guarantees that merging parent and child creates no path between annotated nodes that was not there |
| `AnnotatedReach.MergeKeepsReach` | lang/python/opendisc/core/annotated_graph.py:129-143 | a guarded merge against the true closure keeps exactly the paths between annotated nodes |
| `AnnotatedReach.FreshChainKeepsReach` | lang/python/opendisc/core/annotated_graph.py:133-144 | a run of such merges keeps the graph well formed, the annotated nodes with their data, and exactly the paths between annotated nodes |
| `AnnotatedReach.CollapseWithFreshClosure` | lang/python/opendisc/core/annotated_graph.py:109-144 | the pass with the closure recomputed after every merge: ValueError is the only error; the result is loop-free, keeps the annotated nodes, and an annotated node reaches another exactly when it did in the input |
| `AnnotatedReach.StaleClosureExample` | lang/python/opendisc/core/annotated_graph.py:131 | a graph that is its own closure and two guarded merges of the pass as written after which annotated u reaches annotated t though it did not before; the true closure refuses the second merge |
| `AnnotatedReify.RemoveNewest` | lang/python/opendisc/core/annotated_graph.py:190 | a keyless `remove_edge` fails with a graph error exactly when no edge joins the ends, and otherwise drops the newest such edge |
| `AnnotatedReify.AllEntities` | lang/python/opendisc/core/annotated_graph.py:175 | true exactly when every predecessor is an entity; KeyError is the only error |
| `AnnotatedReify.ReifyInputs` | lang/python/opendisc/core/annotated_graph.py:158-204 | the action's input id map is popped and extended with the ids of the in-edges; each entry is wired from its one entity predecessor or a new entity node, with one edge per port, and annotated when not yet annotated |
| `AnnotatedReify.ReifyInputsFromEntities` | lang/python/opendisc/core/annotated_graph.py:168-185 | after a successful pass over an action's inputs every in-edge of the action comes from an entity |
| `AnnotatedReify.MoveCarriersSpec` | lang/python/opendisc/core/annotated_graph.py:220-223 | the out-edges carrying the object id are moved to leave the new entity with their data, all other edges are kept, and no edge from the action carries the id any more |
| `AnnotatedReify.ReifyOutputs` | lang/python/opendisc/core/annotated_graph.py:206-233 | the action's output id map is popped and extended with the ids of the out-edges; each entry becomes a new annotated entity fed by the action, one edge per port, and takes over the out-edges carrying its id |
| `AnnotatedReify.OutputEntryFails` | lang/python/opendisc/core/annotated_graph.py:218-230 | an output entry fails exactly when its id is None and it has ports: the edge carrying no id was moved away, so the keyless `remove_edge` raises |
| `AnnotatedReify.ReifyOutputsToEntities` | lang/python/opendisc/core/annotated_graph.py:215-233 | after a successful pass over an action's outputs every out-edge of the action goes to a new entity |
| `AnnotatedReify.ReifyEntities` | lang/python/opendisc/core/annotated_graph.py:146-156 | over the given order each node must be an action (AssertionError otherwise), and its inputs then its outputs are reified |
| `ReifyOrder.Turn` | lang/python/opendisc/core/annotated_graph.py:148-151 | over a topological order, when an action's turn comes every edge into it comes from an entity |
| `ReifyOrder.ActionTurn` | lang/python/opendisc/core/annotated_graph.py:153-155 | when its turn comes an action is still there, unchanged, and fed only by entities |
| `ReifyOrder.ReifyErrors` | lang/python/opendisc/core/annotated_graph.py:153-204 | over a topological order reify fails only with KeyError, a graph error, or the AssertionError of line 179 at a collapsed action marked false; the predecessor assertion of line 175 never fires |
| `AnnotatedCleanup.RemoveDangling` | lang/python/opendisc/core/annotated_graph.py:235-268 | the sweep tests each node of the snapshot on the graph left by the removals before it |
| `AnnotatedCleanup.SweepShrinks` | lang/python/opendisc/core/annotated_graph.py:249 | the sweep keeps the graph well formed, only removes nodes, and removes only nodes of its kind |
| `AnnotatedCleanup.SweepKeepsOthers` | lang/python/opendisc/core/annotated_graph.py:244-247 | a node the sweep cannot remove (an annotated action, an action for the entity sweep) survives with its data |
| `AnnotatedCleanup.SweepRemovesDoomed` | lang/python/opendisc/core/annotated_graph.py:241-268 | every node that is dangling when its turn comes is removed |
| `AnnotatedCleanup.RemoveDuplicateEdges` | lang/python/opendisc/core/annotated_graph.py:270-282 | each unannotated action is removed and re-added with its data and one bare edge per distinct predecessor and successor |
| `AnnotatedCleanup.DedupeErr` | lang/python/opendisc/core/annotated_graph.py:276 | a failure stops the loop |
| `AnnotatedCleanup.RemoveDuplicateEdgesSpec` | lang/python/opendisc/core/annotated_graph.py:270-282 | the pass never fails; node data and adjacency are kept, and at each unannotated action no two edges join the same ends |
| `AnnotatedBuild.SortedIsTopological` | lang/python/opendisc/core/annotated_graph.py:133 | a `topological_sort` result lists each node once, every edge forward |
| `AnnotatedBuild.TopologicalIsSorted` | lang/python/opendisc/core/annotated_graph.py:153 | and conversely |
| `AnnotatedBuild.SourceSinkErrors` | lang/python/opendisc/core/annotated_graph.py:70-77 | adding the source and sink edges fails only with KeyError |
| `AnnotatedBuild.ActionDataErrors` | lang/python/opendisc/core/annotated_graph.py:91-101 | copying action data fails only with AttributeError (a port table that is not a dict) |
| `AnnotatedBuild.ReifyNeverAsserts` | lang/python/opendisc/core/annotated_graph.py:146-204 | on a concrete graph whose ids are plain values, reify over a topological order of the collapsed graph never raises AssertionError |
| `AnnotatedBuild.Build` | lang/python/opendisc/core/annotated_graph.py:36-52 | every stage in order; errors are only those of the stages; the result is a well-formed directed graph; the collapse keeps exactly the paths between annotated nodes (the collapse composed is the corrected one of the first finding, not the code as written); on plain ids the AssertionError never happens |
| `AnnotatedGraphs.NoteOf` | lang/python/opendisc/core/annotated_graph.py:88 | a note found for an id is one recorded under it; an id with no entry gives None |
| `AnnotatedGraphs.AddSourceEdges` | lang/python/opendisc/core/annotated_graph.py:71-74 | the loop over the source table adds exactly the edges `SourceWires` describes, or fails with its error |
| `AnnotatedGraphs.FanOutEdges` | lang/python/opendisc/core/annotated_graph.py:73-74 | the inner loop adds one edge from the source node to each listed node, carrying the object id |
| `AnnotatedGraphs.AddSinkEdges` | lang/python/opendisc/core/annotated_graph.py:75-77 | the loop over the sink table adds exactly the edges `SinkWires` describes, or fails with its error |
| `AnnotatedData.PortTable` | lang/python/opendisc/core/annotated_graph.py:98-101 | `orig_data.get(key, {}).items()`: a missing table is empty, a dictionary gives its entries, anything else raises AttributeError, and only then |
| `AnnotatedData.ActionDataSpec` | lang/python/opendisc/core/annotated_graph.py:91-101 | the pass changes node data only: nodes, edges, direction and graph attributes stay, no node appears, a well-formed graph stays well formed, and id maps are made only for nodes of the graph |
| `AnnotatedData.WithIds` | lang/python/opendisc/core/annotated_graph.py:107 | the assignments change an edge's data only, never its ends or key |
| `AnnotatedData.EdgeIdStep` | lang/python/opendisc/core/annotated_graph.py:106-107 | one assignment of the loop sets the id of the edge in the concrete edge's slot, extending the fold by that edge |
| `AnnotatedCollapse.MergeAt` | lang/python/opendisc/core/annotated_graph.py:140-144 | one merge of the pass: a failure is only ValueError; on success the graph loses a node, both graph and closure are collapsed, and the pass invariant is kept |
| `AnnotatedReify.NewestEdge` | lang/python/opendisc/core/annotated_graph.py:190 | the edge a keyless `remove_edge` removes: the last edge joining the two nodes, none exactly when no edge joins them |
| `AnnotatedReify.PortWires` | lang/python/opendisc/core/annotated_graph.py:191-192 | one edge per port, in order, each carrying only its port name |
| `AnnotatedReify.AddPortEdges` | lang/python/opendisc/core/annotated_graph.py:191-192 | the loop adds exactly the edges `PortWires` lists |
| `AnnotatedReify.ReplaceByPorts` | lang/python/opendisc/core/annotated_graph.py:189-192 | removing the plain edge and adding the port edges computes `WirePorts`, its graph error included |
| `AnnotatedReify.InputEntry` | lang/python/opendisc/core/annotated_graph.py:169-204 | one entry of the input id map only adds nodes |
| `AnnotatedReify.Attach` | lang/python/opendisc/core/annotated_graph.py:187-204 | attaching the ports and annotation of an entry only adds nodes |
| `AnnotatedReify.InputEntries` | lang/python/opendisc/core/annotated_graph.py:169-204 | the loop over the entries only adds nodes |
| `AnnotatedReify.CollectInputIds` | lang/python/opendisc/core/annotated_graph.py:164-166 | the loop over the in-edges computes `InputIds`, its KeyError for an edge without id included |
| `AnnotatedReify.ReifyInput` | lang/python/opendisc/core/annotated_graph.py:169-204 | one entry of `reify_inputs` computes `InputEntry` |
| `AnnotatedReify.CollectOutputIds` | lang/python/opendisc/core/annotated_graph.py:212-213 | the loop over the out-edges computes `OutputIds` |
| `AnnotatedReify.ReifyOutput` | lang/python/opendisc/core/annotated_graph.py:216-233 | one entry of `reify_outputs` computes `OutputEntry` |
| `AnnotatedReify.MoveOutEdges` | lang/python/opendisc/core/annotated_graph.py:220-223 | the loop over the snapshot of the out-edges computes `MoveCarriers` |
| `AnnotatedReify.MoveEdge` | lang/python/opendisc/core/annotated_graph.py:221-223 | one edge of the snapshot computes `MoveCarrier` |
| `AnnotatedReify.ReifyAction` | lang/python/opendisc/core/annotated_graph.py:153-156 | one action of `reify_entities` computes `ReifyStep` |
| `AnnotatedCleanup.Rebuild` | lang/python/opendisc/core/annotated_graph.py:277-282 | rebuilding an action fails exactly when it is not a node, and then with KeyError, since its data is read before it is removed |
| `AnnotatedCleanup.RebuildAction` | lang/python/opendisc/core/annotated_graph.py:277-282 | one iteration of the loop computes `Rebuild`, its only error the KeyError of reading a missing node's data |
| `FlowGraphs.Marker` | lang/python/opendisc/core/flow_graph.py:52-53 | a marker node is found exactly when the graph attribute is present and names a node |
| `FlowGraphs.NewFlowGraph` | lang/python/opendisc/core/flow_graph.py:15-26 | a flow graph with exactly the two marker nodes, with empty data, no edges, and the attributes `input_node` and `output_node` naming them |
| `FlowGraphs.CopyIntoSpec` | lang/python/opendisc/core/flow_graph.py:29-41 | every source node except the markers is added, its data merged over existing data; destination nodes otherwise keep their data; the destination edges stay in front and the appended edges are exactly the source edges not touching a marker |
| `FlowGraphs.CopyFlowGraph` | lang/python/opendisc/core/flow_graph.py:29-41 | the two loops of `copy_flow_graph` compute the function that `CopyIntoSpec` describes |
| `FlowGraphs.FirstCarrier` | lang/python/opendisc/core/flow_graph.py:74-79 | the first in-edge carrying the object id, or none when no edge carries it (the `for ... break ... else`) |
| `FlowGraphs.InputWires` | lang/python/opendisc/core/flow_graph.py:67-82 | one new edge per input edge of the subgraph: from the source of the first carrier of its id with the carrier's source port, else from the parent's input node |
| `FlowGraphs.OutputWiresSpec` | lang/python/opendisc/core/flow_graph.py:85-95 | an output edge of the subgraph gives one new edge to each out-edge of the call node carrying its id, and no others |
| `FlowGraphs.InlineNested` | lang/python/opendisc/core/flow_graph.py:59-98 | copy the flattened subgraph in, re-wire its inputs and outputs, remove the call node |
| `FlowGraphs.InlineFlat` | lang/python/opendisc/core/flow_graph.py:59-64 | inlining a flat subgraph adds no node with a nested graph |
| `FlowGraphs.Flatten` | lang/python/opendisc/core/flow_graph.py:44-100 | the loop over the snapshot of the nodes, recursing into nested graphs first, computes `FlattenSpec` |
| `FlowGraphs.FlattenFlat` | lang/python/opendisc/core/flow_graph.py:44-49 | the result has no node with a nested graph |
| `FlowGraphs.FlattenShape` | lang/python/opendisc/core/flow_graph.py:44-64 | the result is flat and its nodes come from the graph or one of its nested graphs |
| `FlowGraphs.FlattenKeeps` | lang/python/opendisc/core/flow_graph.py:55-58 | every node without a nested graph keeps its data |
| `FlowGraphs.FlattenRemoves` | lang/python/opendisc/core/flow_graph.py:98 | every node with a nested graph is gone, with all its edges |
| `FlowGraphs.LastCarrier` | lang/python/opendisc/core/flow_graph.py:112-113 | the last in-edge of the output node carrying an id, or none |
| `FlowGraphs.OutputTableSpec` | lang/python/opendisc/core/flow_graph.py:112-113 | the output table holds exactly the ids carried into the output node, each mapped to the source and key of its last carrier (later entries of the comprehension win) |
| `FlowGraphs.JoinInputWires` | lang/python/opendisc/core/flow_graph.py:119-129 | one new edge per input edge of the second graph |
| `FlowGraphs.JoinInputWireSpec` | lang/python/opendisc/core/flow_graph.py:122-129 | the edge leaves the source of the first graph's output for the id, with its source port, or else the first graph's input node; it keeps the target and target port |
| `FlowGraphs.Join` | lang/python/opendisc/core/flow_graph.py:103-140 | copy the second graph in, add its inputs, then add its outputs, removing the first graph's output edge for the same id |
| `FlowGraphs.JoinedInputsCount` | lang/python/opendisc/core/flow_graph.py:115-129 | adding the second graph's nodes and inputs does not change the ids carried into the first graph's output node |
| `FlowGraphs.JoinOneOutputPerId` | lang/python/opendisc/core/flow_graph.py:131-138 | when both graphs have one output edge per id, join succeeds, the output node stays, the second graph's outputs override the first's, and the result has one output edge per id |
| `FlowGraphs.Ends` | lang/python/opendisc/core/flow_graph.py:38-40 | both end points of every edge to add are among the nodes it names |
| `FlowGraphs.AddNodesFrom` | lang/python/opendisc/core/flow_graph.py:35-37 | the node loop of `copy_flow_graph` adds, in order, each source node not skipped, with its data |
| `FlowGraphs.AddEdgesFrom` | lang/python/opendisc/core/flow_graph.py:38-40 | the edge loop of `copy_flow_graph` adds, in order, each edge touching no skipped node |
| `FlowGraphs.FindCarrier` | lang/python/opendisc/core/flow_graph.py:74-79 | the search returns the position of the first in-edge carrying the id, and the end of the list exactly when none does |
| `FlowGraphs.RewireInputs` | lang/python/opendisc/core/flow_graph.py:67-82 | the input loop of `flatten` adds exactly the edges `InputWires` describes |
| `FlowGraphs.ConnectOutput` | lang/python/opendisc/core/flow_graph.py:91-95 | the inner output loop adds one edge per out-edge of the node carrying the id, and leaves the node's out-edges as they were |
| `FlowGraphs.RewireOutputs` | lang/python/opendisc/core/flow_graph.py:85-95 | the output loop of `flatten` adds exactly the edges `OutputWires` describes |
| `FlowGraphs.FlattenSpec` | lang/python/opendisc/core/flow_graph.py:44-100 | the flattened graph is well formed, directed, and keeps the graph attributes |
| `FlowGraphs.FlattenFrom` | lang/python/opendisc/core/flow_graph.py:55-98 | the graph after any number of nodes of the snapshot are processed is well formed, directed, and keeps the graph attributes |
| `FlowGraphs.JoinInputs` | lang/python/opendisc/core/flow_graph.py:119-129 | the input loop of `join` adds exactly the edges `JoinInputWires` describes, reading source ports from the first graph's output edges |
| `FlowGraphs.JoinOutputLoop` | lang/python/opendisc/core/flow_graph.py:133-138 | the output loop of `join` computes `JoinOutputs`; a failing `remove_edge` ends it with that error |
| `FlowGraphBuilding.SlotName` | lang/python/opendisc/core/flow_graph_builder.py:514-524 | an integer slot in range names that argument (a negative one counts from the end), one out of range gives None; any other slot is its own name |
| `FlowGraphBuilding.PyIndex` | lang/python/opendisc/core/flow_graph_builder.py:520-523 | Python list indexing: defined exactly for -n <= i < n, giving i or i + n |
| `FlowGraphBuilding.SlotOf` | lang/python/opendisc/core/flow_graph_builder.py:124 | `obj['slot']` succeeds exactly on a dict holding `slot`; KeyError on another dict, TypeError on a non-dict |
| `FlowGraphBuilding.Items` | lang/python/opendisc/core/flow_graph_builder.py:122-124 | iterating a codomain: a list gives its items; TypeError exactly on a value that is not a list, string or dict |
| `FlowGraphBuilding.MutatingSelfImpure` | lang/python/opendisc/core/flow_graph_builder.py:115-119 | `self` of `__init__`, `__setattr__` and `__setitem__` is never pure |
| `FlowGraphBuilding.PureByDefault` | lang/python/opendisc/core/flow_graph_builder.py:121-124 | without a codomain every other argument is pure |
| `FlowGraphBuilding.PurityByCodomain` | lang/python/opendisc/core/flow_graph_builder.py:121-124 | otherwise an argument is impure exactly when some codomain entry's slot names it |
| `FlowGraphBuilding.AnyNamesSpec` | lang/python/opendisc/core/flow_graph_builder.py:124 | the `any(...)` is true exactly when some codomain slot names the argument |
| `FlowGraphBuilding.ImpureSpec` | lang/python/opendisc/core/flow_graph_builder.py:244-246 | the mutated arguments are exactly those `is_pure` answers false for |
| `FlowGraphBuilding.MutatedPortName` | lang/python/opendisc/core/flow_graph_builder.py:469-477 | the argument name followed by `!`, never the argument name itself |
| `FlowGraphBuilding.MutatedPortNameInjective` | lang/python/opendisc/core/flow_graph_builder.py:472-477 | different arguments get different output port names |
| `FlowGraphBuilding.ReturnPortName` | lang/python/opendisc/core/flow_graph_builder.py:240-241 | `__return__.` followed by the digits of the position |
| `FlowGraphBuilding.ReturnPortNamesDistinct` | lang/python/opendisc/core/flow_graph_builder.py:239-246 | return port names are distinct from each other, from `__return__` and from every mutated port name |
| `FlowGraphBuilding.AnnotationKey` | lang/python/opendisc/core/flow_graph_builder.py:440-444 | the key exists exactly when `language`, `package` and `id` are strings; otherwise KeyError or TypeError |
| `FlowGraphBuilding.AnnotationKeyInjective` | lang/python/opendisc/core/flow_graph_builder.py:443-444 | when language and package hold no slash, equal keys come from equal fields |
| `FlowGraphBuilding.PositionTableSpec` | lang/python/opendisc/core/flow_graph_builder.py:409-412 | a name is in the annotation table exactly when some domain slot names it, and maps to the 1-based position of the last such slot |
| `FlowGraphBuilding.PortEntryNames` | lang/python/opendisc/core/flow_graph_builder.py:420 | a port entry records the argument name and port kind |
| `FlowGraphBuilding.PortEntryGet` | lang/python/opendisc/core/flow_graph_builder.py:420-422 | its other fields are only the annotation position, when there is one, and the primitive value, when there is one |
| `FlowGraphBuilding.PortsData` | lang/python/opendisc/core/flow_graph_builder.py:404-424 | fails exactly when the annotation table cannot be built; otherwise each port name maps to the data of the last request for it |
| `FlowGraphBuilding.OutputPortNames` | lang/python/opendisc/core/flow_graph_builder.py:237-246 | the return ports (one per tuple item, or `__return__` unless None) followed by one port per mutated argument; an error exactly when purity cannot be decided |
| `FlowGraphBuilding.ObjectData` | lang/python/opendisc/core/flow_graph_builder.py:373-402 | the data of a non-None object carries its id |
| `FlowGraphBuilding.SetOutputSpec` | lang/python/opendisc/core/flow_graph_builder.py:313-330 | setting an output keeps one output edge per object: the table maps the id to the node and port, the old output edge is removed, and the only output edge for the id now leaves the node |
| `FlowGraphBuilding.SetOutputGrows` | lang/python/opendisc/core/flow_graph_builder.py:320-330 | it keeps the nodes and every edge not into the output node |
| `FlowGraphBuilding.AddSlotSpec` | lang/python/opendisc/core/flow_graph_builder.py:343-371 | a readable slot adds a slot node (plus the nodes of its own slots when its value is trackable) and keeps one output edge per object, recording the slot value's id |
| `FlowGraphBuilding.AddSlotsSpec` | lang/python/opendisc/core/flow_graph_builder.py:336-371 | the slot loop adds one node per readable slot, recursively, and records every trackable slot value |
| `FlowGraphBuilding.RegisterSpec` | lang/python/opendisc/core/flow_graph_builder.py:313-334 | setting an output then, with `store_slots`, adding the object's slots: the table gains the object at its node and port and all slot ids |
| `FlowGraphBuilding.AddObjectSlots` | lang/python/opendisc/core/flow_graph_builder.py:336-371 | the loop over the object's annotated slots computes `AddSlots` |
| `FlowGraphBuilding.SetObjectOutput` | lang/python/opendisc/core/flow_graph_builder.py:313-334 | computes `Register` |
| `FlowGraphBuilding.Hidden` | lang/python/opendisc/core/flow_graph_builder.py:446-467 | one extra argument per tracked referent of a container, under the argument's name |
| `FlowGraphBuilding.InLinkSource` | lang/python/opendisc/core/flow_graph_builder.py:258-301 | a tracked argument's edge comes from the node recorded as its output, with that port; without one from the input node, except `self` of an atomic `__init__`, which gets no edge; the edge carries the id and the argument name |
| `FlowGraphBuilding.AddCallInEdges` | lang/python/opendisc/core/flow_graph_builder.py:139-144 | one in-edge per argument and hidden referent with a link, in order |
| `FlowGraphBuilding.AddLinksSpec` | lang/python/opendisc/core/flow_graph_builder.py:139-144 | adding the links keeps nodes and data and appends exactly one edge per link into the call node |
| `FlowGraphBuilding.RegisterOutputs` | lang/python/opendisc/core/flow_graph_builder.py:171-193 | the return value(s) then the mutated arguments are set as outputs |
| `FlowGraphBuilding.SetOutputsSpec` | lang/python/opendisc/core/flow_graph_builder.py:171-193 | one output edge per object is kept; every registered id is recorded at the call node (or at a new slot node), ids not registered keep their entry; success exactly when every step had an id |
| `FlowGraphBuilding.CallNodeDataSpec` | lang/python/opendisc/core/flow_graph_builder.py:195-214 | a call node records the module, qualified name and ports, the annotation key exactly when annotated, and the nested graph exactly when not atomic |
| `FlowGraphBuilding.CallGraphSpec` | lang/python/opendisc/core/flow_graph_builder.py:128-151 | the call node is appended with its data, the old nodes keep their data, and the in-edges are appended; one output edge per object is kept |
| `FlowGraphBuilding.CallPushes` | lang/python/opendisc/core/flow_graph_builder.py:128-154 | a call replaces the caller's graph by one with the call node and pushes a frame with the event, the node and a new nested graph unless atomic |
| `FlowGraphBuilding.CallKeepsValid` | lang/python/opendisc/core/flow_graph_builder.py:128-154 | a call keeps the stack well formed |
| `FlowGraphBuilding.ReturnPops` | lang/python/opendisc/core/flow_graph_builder.py:159-163 | a return pops a frame; the root frame gives AttributeError, a different call the RuntimeError `Mismatched trace events` |
| `FlowGraphBuilding.ReturnMatched` | lang/python/opendisc/core/flow_graph_builder.py:159-193 | a matching return writes the nested graph back into the caller's node and finishes the call in the caller's frame |
| `FlowGraphBuilding.AccessorMethodRemoves` | lang/python/opendisc/core/flow_graph_builder.py:224-230 | a `__getattr__`/`__getattribute__` returning a bound method removes the call node and its edges and records nothing |
| `FlowGraphBuilding.ReturnToCallerSucceeds` | lang/python/opendisc/core/flow_graph_builder.py:216-256 | finishing a call succeeds exactly when an accessor has its name argument, purity can be decided, the node has a ports dict and the codomain table can be built |
| `FlowGraphBuilding.ReturnRegisters` | lang/python/opendisc/core/flow_graph_builder.py:156-193 | a matching return pops one frame and on success records every output at the call node |
| `FlowGraphBuilding.ReturnKeepsValid` | lang/python/opendisc/core/flow_graph_builder.py:156-193 | a return keeps the stack well formed |
| `FlowGraphBuilding.FinishCall` | lang/python/opendisc/core/flow_graph_builder.py:216-256 | computes `ReturnToCaller` |
| `FlowGraphBuilding.FlowGraphBuilder.constructor` | lang/python/opendisc/core/flow_graph_builder.py:42-44 | the stack holds only the root frame with a new flow graph |
| `FlowGraphBuilding.FlowGraphBuilder.Reset` | lang/python/opendisc/core/flow_graph_builder.py:63-69 | the stack becomes the root frame alone |
| `FlowGraphBuilding.FlowGraphBuilder.TopGraphShape` | lang/python/opendisc/core/flow_graph_builder.py:46-51 | the `graph` property has the root graph's nodes, edges and attributes |
| `FlowGraphBuilding.FlowGraphBuilder.PushEvent` | lang/python/opendisc/core/flow_graph_builder.py:53-61 | a call or return updates the stack as specified and keeps it valid; any other event is a TypeError |
| `FlowGraphBuilding.FlowGraphBuilder.PushCall` | lang/python/opendisc/core/flow_graph_builder.py:128-154 | on success the stack becomes `CallStep` of the old one; on failure it is unchanged |
| `FlowGraphBuilding.FlowGraphBuilder.PushReturn` | lang/python/opendisc/core/flow_graph_builder.py:156-193 | the stack becomes `ReturnStep` of the old one and stays valid |
| `FlowGraphBuilding.ArgNames` | lang/python/opendisc/core/flow_graph_builder.py:519 | the argument names, one per argument and in order |
| `FlowGraphBuilding.Lookup` | lang/python/opendisc/core/flow_graph_builder.py:530-533 | an argument is found exactly when some argument has that name |
| `FlowGraphBuilding.SlotKeys` | lang/python/opendisc/core/flow_graph_builder.py:409-412 | one slot name per annotation entry, in order |
| `FlowGraphBuilding.MutatedPorts` | lang/python/opendisc/core/flow_graph_builder.py:244-246 | one (argument, mutated port name) pair per impure argument, in order |
| `FlowGraphBuilding.ReturnPortNames` | lang/python/opendisc/core/flow_graph_builder.py:237-243 | the loop collects exactly the return ports `ReturnPorts` lists |
| `FlowGraphBuilding.Writers` | lang/python/opendisc/core/flow_graph_builder.py:323-324 | the edges into the output node carrying the object id, and only those |
| `FlowGraphBuilding.SetOutput` | lang/python/opendisc/core/flow_graph_builder.py:316-330 | moving an object's output edge keeps the graph attributes |
| `FlowGraphBuilding.Register` | lang/python/opendisc/core/flow_graph_builder.py:313-334 | registering an output, slots included, keeps the graph attributes |
| `FlowGraphBuilding.AddSlots` | lang/python/opendisc/core/flow_graph_builder.py:343-371 | adding the slots of an object keeps the graph attributes |
| `FlowGraphBuilding.AddSlot` | lang/python/opendisc/core/flow_graph_builder.py:348-371 | adding one slot node keeps the graph attributes |
| `FlowGraphBuilding.AddCallInEdge` | lang/python/opendisc/core/flow_graph_builder.py:258-280 | adds the edge from the source `InLink` finds for the argument, or nothing when it finds none |
| `FlowGraphBuilding.SetOutputs` | lang/python/opendisc/core/flow_graph_builder.py:171-193 | the registrations keep the graph attributes |
| `FlowGraphBuilding.RegisterReturnValue` | lang/python/opendisc/core/flow_graph_builder.py:172-186 | the first registration loop carries out exactly the return-value steps, errors included |
| `FlowGraphBuilding.RegisterMutated` | lang/python/opendisc/core/flow_graph_builder.py:188-193 | the second registration loop carries out exactly the steps for the impure tracked arguments |
| `FlowGraphBuilding.SetNodeAttr` | lang/python/opendisc/core/flow_graph_builder.py:151 | `graph.node[n][key] = v` changes only that key of that node's data |
| `FlowGraphBuilding.WriteBack` | lang/python/opendisc/core/flow_graph_builder.py:151 | writing a popped frame's graph back into its caller's node keeps the caller's event, node, output table and graph attributes |
| `FlowGraphBuilding.Pop` | lang/python/opendisc/core/flow_graph_builder.py:160 | popping a frame shortens the stack by one, keeps the frames below the caller and writes the popped graph back into the caller |
| `FlowGraphBuilding.InputPorts` | lang/python/opendisc/core/flow_graph_builder.py:206 | one input port per argument, named after it, in order |
| `FlowGraphBuilding.ReturnToCaller` | lang/python/opendisc/core/flow_graph_builder.py:216-256 | finishing a call keeps the caller's event and node, and whether it has a graph |
| `SemanticGraphs.Dicts` | lang/python/opendisc/core/annotation_db.py:81-97 | the documents an empty query matches: exactly the dict documents |
| `SemanticGraphs.KeyLookup` | lang/python/opendisc/core/semantic_graph.py:239-240 | a primary-key lookup gives None for no document, the document for one, LookupError for more |
| `SemanticGraphs.TypeNameFromDb` | lang/python/opendisc/core/semantic_graph.py:262-270 | with only a primary key in the annotation, the type name is that of the one matching document, None without a match or a `type`, and LookupError for several matches |
| `SemanticGraphs.EntityCopy` | lang/python/opendisc/core/semantic_graph.py:67-68 | exactly the `id`, `value` and `slots` entries that are present, unchanged |
| `SemanticGraphs.TypedAttrsSpec` | lang/python/opendisc/core/semantic_graph.py:74-87 | the root type is the kind; the type is the annotation's type name when truthy, else the olog type of the value when there is one, else the kind; entities also get their id, value and slots |
| `SemanticGraphs.AddTypesTyped` | lang/python/opendisc/core/semantic_graph.py:61-87 | the pass succeeds exactly when every node can be typed, and then every node has its typed attributes |
| `SemanticGraphs.AddTypesStops` | lang/python/opendisc/core/semantic_graph.py:71 | the first failing node ends the pass |
| `SemanticEdges.WithAspectsSpec` | lang/python/opendisc/core/semantic_graph.py:95-97 | an edge gets the port of the annotated edge in its slot as its aspect, and is unchanged without one |
| `SemanticEdges.AddActionAspects` | lang/python/opendisc/core/semantic_graph.py:89-97 | KeyError exactly when an annotated edge with a port has no edge in its slot; otherwise the edges get their aspects |
| `SemanticEdges.AspectsFromPorts` | lang/python/opendisc/core/semantic_graph.py:89-97 | on a bare copy of the annotated graph every edge keeps its slot and carries exactly its port as aspect |
| `SemanticDirections.MarkedAll` | lang/python/opendisc/core/semantic_graph.py:106-110 | every out-edge of the action is marked output, not input |
| `SemanticDirections.FixActionSpec` | lang/python/opendisc/core/semantic_graph.py:105-117 | for one action: afterwards every edge into it is a self-loop, every edge out of it is flagged, its out-edges are kept marked output and each in-edge comes back reversed and marked input; every edge comes from one of these |
| `SemanticDirections.FixSpecOutward` | lang/python/opendisc/core/semantic_graph.py:99-117 | when no edge joins two actions, the pass keeps nodes, data and the number of edges, leaves edges away from actions alone, and every action's edges point outward |
| `SemanticDirections.FixActionEdgeDirections` | lang/python/opendisc/core/semantic_graph.py:99-117 | the loops compute `FixSpec` over the actions found |
| `SemanticValidation.CheckEdges` | lang/python/opendisc/core/semantic_graph.py:126-130 | TypeError exactly when some out-edge's aspect cannot be looked up; otherwise each edge is checked in place |
| `SemanticValidation.CheckedSpec` | lang/python/opendisc/core/semantic_graph.py:128-130 | checking drops only the aspect, only an invalid one, keeps the slot, and is idempotent |
| `SemanticValidation.ValidateSpecSound` | lang/python/opendisc/core/semantic_graph.py:119-130 | the pass succeeds exactly when every action can be checked; it changes only action out-edges, each by dropping an aspect its type does not have, and afterwards every action's aspects are valid |
| `SemanticValidation.ValidateActionIdempotent` | lang/python/opendisc/core/semantic_graph.py:119-130 | validating an action twice changes nothing more |
| `SemanticValidation.ValidateActionAspects` | lang/python/opendisc/core/semantic_graph.py:119-130 | the loop computes `ValidateSpec` over the actions found |
| `SemanticReify.SlotAttrs` | lang/python/opendisc/core/semantic_graph.py:157-159 | the slot data with `type` and `root_type` set only when absent (`setdefault`) |
| `SemanticReify.DeclaredNames` | lang/python/opendisc/core/semantic_graph.py:144-147 | only slot names that are aspects of the type are reified |
| `SemanticReify.SlotStepSpec` | lang/python/opendisc/core/semantic_graph.py:144-160 | a slot that is not an aspect changes nothing; otherwise one typed child entity is appended under a fresh name and one edge from the entity carrying the aspect |
| `SemanticReify.EntityStepSpec` | lang/python/opendisc/core/semantic_graph.py:140-160 | an entity loses its slots and gains one child per declared slot |
| `SemanticReify.ReifySlotsSound` | lang/python/opendisc/core/semantic_graph.py:132-160 | the old nodes and edges stay in front, entities lose their slots, new nodes are typed entities, and every new edge goes from an entity to a new node under an aspect of its type |
| `SemanticMerge.Redirect` | lang/python/opendisc/core/semantic_graph.py:285-286 | the in-edges of src are appended again into dest; existing edges and data stay |
| `SemanticMerge.RedirectEdges` | lang/python/opendisc/core/semantic_graph.py:285-286 | each added edge keeps its source and data and ends at dest |
| `SemanticMerge.AspectTargets` | lang/python/opendisc/core/semantic_graph.py:289-293 | defined exactly when every aspect is hashable (TypeError otherwise); its keys are exactly the aspects of dest's out-edges |
| `SemanticMerge.AspectTargetsLast` | lang/python/opendisc/core/semantic_graph.py:289-293 | each aspect maps to the target of its last edge (later entries of the comprehension win) |
| `SemanticMerge.MergeSound` | lang/python/opendisc/core/semantic_graph.py:272-302 | a successful merge keeps the graph well formed, removes src, adds no node, and changes no kept node except in its type |
| `SemanticMerge.MergeMoves` | lang/python/opendisc/core/semantic_graph.py:272-302 | when no aspect of src collides with one of dest and no in-edge of src comes from src or dest, src is gone, dest takes the most specific of the two types, every other node keeps its data, and the edges are exactly the old ones not at src plus src's in-edges redirected to dest and its out-edges redirected from dest, with their data |
| `SemanticMerge.MergeOutsCollision` | lang/python/opendisc/core/semantic_graph.py:293-297 | an out-edge of src whose truthy aspect dest also has is not re-added: its target is merged into dest's target and is gone with all its edges; under the guard, a target that already is dest's target changes nothing |
| `SemanticMerge.MergeLeaf` | lang/python/opendisc/core/semantic_graph.py:272-302 | merging a node into another when neither has an edge out: src's in-edges are gathered into dest, src is removed and every other node stays |
| `SemanticMerge.ChildOfDestAbsorbed` | lang/python/opendisc/core/semantic_graph.py:293-297 | even with the self-merge skipped, a merge can remove a child of dest: src's edge to it shares an aspect with dest's edge to another node, so the child is merged into that node |
| `SemanticMerge.SharedChildLost` | lang/python/opendisc/core/semantic_graph.py:294-297 | when src and dest share a child under one aspect, the code as written merges the child into itself and removes it |
| `SemanticMerge.SharedChildKept` | lang/python/opendisc/core/semantic_graph.py:294-297 | with the self-merge skipped, dest keeps the child and its edge to it |
| `SemanticMerge.SidesOf` | lang/python/opendisc/core/semantic_graph.py:169-175 | the input and output aspect tables hold exactly the aspects of the input and output edges |
| `SemanticMerge.SidesTargets` | lang/python/opendisc/core/semantic_graph.py:169-175 | each aspect maps to the target of one of its edges |
| `SemanticMerge.Pairs` | lang/python/opendisc/core/semantic_graph.py:177 | exactly the (input, output) entity pairs of aspects on both sides |
| `SemanticMerge.DuplicateStepMerges` | lang/python/opendisc/core/semantic_graph.py:177-181 | a step whose input entity has the action as its one predecessor removes that entity and adds no node; without colliding aspects or edges into it from itself or the output entity, the output entity takes the most specific type and takes over the entity's edges, except the action's edge that was removed |
| `SemanticMerge.DuplicateSound` | lang/python/opendisc/core/semantic_graph.py:162-181 | the pass keeps the graph well formed, adds no node and changes kept nodes only in type |
| `SemanticMerge.MergeDuplicateAspects` | lang/python/opendisc/core/semantic_graph.py:162-181 | the loop computes `DuplicateSpec` over the actions found |
| `SemanticMerge.FirstWithId` | lang/python/opendisc/core/semantic_graph.py:207-211 | the first visited node with the entity's id, or none |
| `SemanticMerge.UnknownFoundMerges` | lang/python/opendisc/core/semantic_graph.py:207-227 | when the search meets no node with the entity's id the graph is unchanged (or KeyError); when it meets one other than the entity, the action's edge to the entity is removed and the entity is merged into the first such node and is gone |
| `SemanticMerge.MergeUnknownInputOutput` | lang/python/opendisc/core/semantic_graph.py:197-227 | KeyError for a missing entity; no change without an id; otherwise a breadth-first search from the action over aspect edges (respecting the input/output flag at the action) and a merge into the first node with the same id |
| `SemanticMerge.MergeUnknownAspects` | lang/python/opendisc/core/semantic_graph.py:183-195 | KeyError when some node has no `root_type` (listing the actions reads it on every node); no change when every node has one and every action edge has an aspect; otherwise the graph stays well formed and kept nodes change only in type |
| `SemanticBuilding.SemanticGraphBuilder.constructor` | lang/python/opendisc/core/semantic_graph.py:34-40 | nothing is loaded yet |
| `SemanticBuilding.SemanticGraphBuilder.GetAnnotation` | lang/python/opendisc/core/semantic_graph.py:231-240 | a package is loaded only the first time, and the result is the primary-key lookup |
| `SemanticBuilding.SemanticGraphBuilder.GetTypeName` | lang/python/opendisc/core/semantic_graph.py:252-270 | loads the annotation's package when needed and gives `TypeNameOf` |
| `SemanticBuilding.SemanticGraphBuilder.AddTypes` | lang/python/opendisc/core/semantic_graph.py:61-87 | the loop computes `AddTypesSpec` |
| `SemanticBuilding.SemanticGraphBuilder.ReifyEntitySlots` | lang/python/opendisc/core/semantic_graph.py:132-160 | the loop over the entities present before the pass computes `ReifySlotsSpec` |
| `SemanticBuilding.SemanticGraphBuilder.Build` | lang/python/opendisc/core/semantic_graph.py:42-57 | every pass in turn; the result is well formed, and every annotated node still present has its kind as root type or, when a merge re-added it as a bare end point of an edge, no root type at all |
| `SemanticBuilding.OrientAspects` | lang/python/opendisc/core/semantic_graph.py:50-52 | the edge passes keep the node data |
| `SemanticBuilding.TypedCopy` | lang/python/opendisc/core/semantic_graph.py:47-49 | typing a bare copy keeps it well formed and gives each node its kind as root type |
| `SemanticEdges.WithAspects` | lang/python/opendisc/core/semantic_graph.py:97 | the assignments change an edge's data only, never its ends or key |
| `SemanticEdges.EdgesWithAspects` | lang/python/opendisc/core/semantic_graph.py:95-97 | each edge of the graph, in place and in order, after the assignments |
| `SemanticEdges.AspectStep` | lang/python/opendisc/core/semantic_graph.py:96-97 | one assignment of the loop sets the aspect of the edge in the annotated edge's slot, extending the fold by that edge |
| `SemanticDirections.MarkOutEdges` | lang/python/opendisc/core/semantic_graph.py:106-110 | the first loop computes `MarkOuts`: every out-edge of the action gets the output flags |
| `SemanticDirections.ReverseInEdges` | lang/python/opendisc/core/semantic_graph.py:111-117 | the second loop reverses each in-edge of its snapshot in turn, the first failing `remove_edge` ending it |
| `SemanticValidation.CheckOutEdges` | lang/python/opendisc/core/semantic_graph.py:126-130 | the inner loop computes `CheckEdges`, its KeyError included |
| `SemanticMerge.MergeDuplicatesOfAction` | lang/python/opendisc/core/semantic_graph.py:169-181 | the two loops for one action compute `DuplicateAction`, errors included |
| `SemanticMerge.MergeUnknownOfAction` | lang/python/opendisc/core/semantic_graph.py:188-195 | the merges for one action keep the graph well formed, only remove nodes and change node data only in type; an action whose out-edges all carry an aspect is left alone |
| `SemanticBuilding.SemanticGraphBuilder.TypedAttrsOf` | lang/python/opendisc/core/semantic_graph.py:74-87 | the typed attributes of one node are `TypedAttrs`, and the package of its annotation is recorded as loaded |
| `SemanticBuilding.SemanticGraphBuilder.ReifyEntity` | lang/python/opendisc/core/semantic_graph.py:140-160 | one entity computes `EntityStep`; loaded packages are only added |
| `SemanticBuilding.SemanticGraphBuilder.ReifySlot` | lang/python/opendisc/core/semantic_graph.py:144-160 | one slot computes `SlotStep`; loaded packages are only added |
| `SemanticBuilding.SemanticGraphBuilder.MergeAspects` | lang/python/opendisc/core/semantic_graph.py:54-55 | the two merging passes keep the graph well formed, only remove nodes and change node data only in type; KeyError when the first pass leaves a node without a root type |
| `GraphML.ElementIds` | lang/python/opendisc/core/graphml.py:132-140 | the ids of the node elements, one per element and in order |
| `GraphML.PortList` | lang/python/opendisc/core/graphml.py:157-163 | one port element per entry of the ports dictionary; a port whose data is not a dictionary is an error |
| `GraphML.EdgesOut` | lang/python/opendisc/core/graphml.py:165-188 | one edge element per edge of the graph, in order |
| `GraphML.WriteGraphOk` | lang/python/opendisc/core/graphml.py:105-156 | writing a graph succeeds exactly when every parent reference has a parent, the node ids of the whole nested tree are distinct and none was written before; on success the element holds exactly those ids and they are added to the set of written ids |
| `GraphML.WriteNodesOk` | lang/python/opendisc/core/graphml.py:120-156 | the same if-and-only-if for the `add_nodes` loop over a prefix of the nodes |
| `GraphML.WriteNodeOk` | lang/python/opendisc/core/graphml.py:132-155 | the same if-and-only-if for one node that is not a parent reference: its id, then the ids of its nested graph |
| `GraphML.NonReferences` | lang/python/opendisc/core/graphml.py:123-130 | a node is kept exactly when it is one of the given nodes and not a parent reference, the nodes `add_nodes` skips at lines 126-130 |
| `GraphML.WrittenNodes` | lang/python/opendisc/core/graphml.py:120-156 | the written node elements are the non-reference nodes, in the graph's order, each carrying that node's data without its special keys |
| `GraphML.SpecialKeysNotData` | lang/python/opendisc/core/graphml.py:112-115 | no written graph data holds a `*_default` key, no node data a `ports` key or a nested graph, no edge data a `sourceport` or `targetport` key (lines 190-197) |
| `GraphML.WrittenEnds` | lang/python/opendisc/core/graphml.py:173-177 | an edge end is written as the parent node exactly when it references the parent, and as itself otherwise |
| `GraphML.EdgesOutAt` | lang/python/opendisc/core/graphml.py:173-188 | the i-th written edge element is the element for the i-th edge |
| `GraphML.ReadGraphOk` | lang/python/opendisc/core/graphml.py:234-275 | reading a graph element succeeds exactly when no node holds more than one nested graph, there is no hyperedge and no edge's direction contradicts its graph's |
| `GraphML.ReadNodesOk` | lang/python/opendisc/core/graphml.py:258-259 | the node loop of `make_graph` succeeds exactly when every node element is readable |
| `GraphML.ReadNodeOk` | lang/python/opendisc/core/graphml.py:277-300 | reading a node succeeds exactly when it has at most one nested graph and that graph is readable |
| `GraphML.ReadEdgesOk` | lang/python/opendisc/core/graphml.py:260-262 | the edge loop of `make_graph` succeeds exactly when every edge element is readable in the graph |
| `GraphML.ReadEdgeOk` | lang/python/opendisc/core/graphml.py:302-313 | adding an edge succeeds exactly when its `directed` attribute does not contradict the graph, and leaves the graph's direction and attributes alone |
| `GraphML.PortsRoundTrip` | lang/python/opendisc/core/graphml.py:157-163 | writing a ports dictionary with distinct keys and reading the port elements back (lines 284-290) gives the same entries in the same order |
| `GraphML.EdgeRoundTrip` | lang/python/opendisc/core/graphml.py:173-188 | reading back a written edge adds the same edge: a parent end is resolved to the input, output or call node the graph attributes name (lines 315-337) |
| `GraphML.RoundTripNode` | lang/python/opendisc/core/graphml.py:132-155 | reading back a written node element gives the node's data, its ports and its nested graph back (lines 277-300) |
| `GraphML.RoundTripNodes` | lang/python/opendisc/core/graphml.py:120-156 | reading back the written node elements adds exactly the non-reference nodes with their data |
| `GraphML.RoundTripEdges` | lang/python/opendisc/core/graphml.py:165-188 | reading back the written edge elements succeeds and appends the same edges (ends and data) in order, leaving direction and attributes alone |
| `GraphML.RoundTrip` | lang/python/opendisc/core/graphml.py:105-118 | reading back what `add_graph` wrote gives the graph back: same direction, attributes, nodes with the same data, and edges, at every level of nesting, up to node order and edge keys |
| `GraphML.RoundTripData` | lang/python/opendisc/core/graphml.py:277-300 | after the edges are read, every node has its original data back, including the reference nodes added bare by an edge |
| `GraphML.EndResolves` | lang/python/opendisc/core/graphml.py:126-129 | in a graph that was written, a reference node has a parent and a non-reference node is never the parent, so reading resolves each edge end to the same node |
| `GraphML.WriteNodesStopped` | lang/python/opendisc/core/graphml.py:133-136 | once a node fails to write, the whole `add_nodes` loop fails with that error |
| `GraphML.GraphMLWriter.constructor` | lang/python/opendisc/core/graphml.py:93-95 | a writer starts with no written ids and no graph elements |
| `GraphML.GraphMLWriter.AddGraphElement` | lang/python/opendisc/core/graphml.py:97-103 | on success the graph element `WriteGraph` describes is appended to the document and its ids recorded; otherwise the same error |
| `GraphML.GraphMLWriter.AddGraph` | lang/python/opendisc/core/graphml.py:105-118 | returns the element `WriteGraph` describes and records exactly its ids, or its error |
| `GraphML.GraphMLWriter.AddNodes` | lang/python/opendisc/core/graphml.py:120-156 | the loop computes `WriteNodes` over the graph's nodes, errors included, and records exactly the ids written |
| `GraphML.GraphMLWriter.AddNode` | lang/python/opendisc/core/graphml.py:132-155 | the loop body computes `WriteNode`, its duplicate-id error included |
| `GraphML.GraphMLWriter.AddPorts` | lang/python/opendisc/core/graphml.py:157-163 | the loop computes `PortsOut` |
| `GraphML.GraphMLWriter.AddEdges` | lang/python/opendisc/core/graphml.py:165-188 | the loop computes `EdgesOut` |
| `GraphML.ReaderMakeGraph` | lang/python/opendisc/core/graphml.py:234-275 | computes `ReadGraph`, errors included |
| `GraphML.ReaderAddNodes` | lang/python/opendisc/core/graphml.py:258-259 | the node loop computes `ReadNodes` |
| `GraphML.ReaderAddEdges` | lang/python/opendisc/core/graphml.py:260-262 | the edge loop computes `ReadEdges` |
| `GraphML.ReaderAddNode` | lang/python/opendisc/core/graphml.py:277-300 | computes `ReadNode`, the more-than-one-nested-graph error included |
| `GraphML.DecodeData` | lang/python/opendisc/core/graphml.py:284-288 | assigning the ports in turn to an ordered dictionary computes `Collect`: a repeated name keeps its first place and its last value |
| `GraphML.ReaderAddEdge` | lang/python/opendisc/core/graphml.py:302-337 | computes `ReadEdge`, the direction errors included |
| `Annotations.Package` | lang/python/opendisc/trace/annotator.py:79 | the package of a name holds no dot |
| `Annotations.PackageOfDotted` | lang/python/opendisc/trace/annotator.py:122 | the package of a dotted module name is exactly its part before the first dot |
| `Annotations.LeEmpty` | lang/python/opendisc/trace/annotator.py:136-149 | an annotation with no classes is below every annotation (the `all` over an empty list) |
| `Annotations.LeReflexive` | lang/python/opendisc/trace/annotator.py:136-149 | when `issubclass` is reflexive, every annotation whose classes are in the resolution order is below itself |
| `Annotations.LeTransitive` | lang/python/opendisc/trace/annotator.py:136-149 | when `issubclass` is transitive, so is the order on annotations |
| `Annotations.LeNotAntisymmetric` | lang/python/opendisc/trace/annotator.py:140-142 | the order the docstring calls a partial order is not antisymmetric: with B a subclass of A, the annotations of classes [A, B] and [B] are each below the other yet differ |
| `Annotations.Subclasses` | lang/python/opendisc/trace/annotator.py:116-117 | the keys of the class dictionary are distinct, every class of the resolution order has its key, and every key maps to a class of the resolution order having that key |
| `Annotations.Update` | lang/python/opendisc/trace/annotator.py:127 | `query.update(extra)` keeps every key extra does not set and gives the last key of extra its value |
| `Annotations.TypeQuery` | lang/python/opendisc/trace/annotator.py:122-127 | the query for a class asks for the class's package unless the extra entries override it |
| `Annotations.DictClassesAreKeys` | lang/python/opendisc/trace/annotator.py:151-160 | a dictionary-valued `class` entry is read as exactly its keys, as Python's iteration over a dictionary does |
| `Annotations.StepCases` | lang/python/opendisc/trace/annotator.py:128-133 | one step of the search raises exactly when the note's classes cannot be read or one of them is an unhashable list or dictionary; otherwise it keeps the best so far or takes the note, which then qualifies and is above the best so far; the first qualifying note is always taken |
| `Annotations.PickSound` | lang/python/opendisc/trace/annotator.py:120-134 | the search raises exactly when some note's classes cannot be read or put in a set; a note it picks is one of the notes and qualifies; it picks none exactly when no note qualifies |
| `Annotations.PickNext` | lang/python/opendisc/trace/annotator.py:128-133 | one more note is one more step of the search |
| `Annotations.PickErrSticks` | lang/python/opendisc/trace/annotator.py:128-129 | once the search has raised, later notes do not change the result |
| `Annotations.PickChain` | lang/python/opendisc/trace/annotator.py:130-133 | for a reflexive and transitive `issubclass`, the best note found after more notes is above the best note found before |
| `Annotations.NotesPrefix` | lang/python/opendisc/trace/annotator.py:121-128 | the notes met for a prefix of the class keys are a prefix of all the notes met |
| `Annotations.ErrorStops` | lang/python/opendisc/trace/annotator.py:128-129 | an error met while reading a note of some class is the result of the whole search |
| `Annotations.ResolveType` | lang/python/opendisc/trace/annotator.py:109-134 | the two nested loops of `_resolve_type` compute `Resolve`, errors included |
| `Annotations.ResolveFound` | lang/python/opendisc/trace/annotator.py:109-134 | a best note found is one of the notes queried and names only classes of the resolution order; none is found exactly when no note qualifies |
| `Annotations.PrimaryKey` | lang/python/opendisc/trace/annotator.py:88 | a missing or falsy note gives no key; a truthy dictionary with `pk` gives that key; anything else raises, and only then |
| `Annotations.NoDotInComponent` | lang/python/opendisc/trace/annotator.py:174-177 | the last component of a dotted key holds no dot |
| `Annotations.LastComponentUnique` | lang/python/opendisc/trace/annotator.py:174-177 | a dotted key has exactly one dotless last component |
| `Annotations.TypeKeyInjective` | lang/python/opendisc/trace/annotator.py:174-177 | for classes whose names have no dot, equal type keys mean the same (module, name) pair |
| `Annotations.PlainFunctionLookup` | lang/python/opendisc/trace/annotator.py:76-88 | for a plain function the key is that of the first note the function query yields, with no type resolution |
| `Annotations.MethodAnnotationFirst` | lang/python/opendisc/trace/annotator.py:66-77 | for a bound method with a method annotation, that annotation's key is the answer, whatever function annotation exists |
| `Annotations.FuncKeyDetermines` | lang/python/opendisc/trace/annotator.py:162-172 | callables with the same cache key get the same uncached answer, so caching by that key is sound |
| `Annotations.Annotator.constructor` | lang/python/opendisc/trace/annotator.py:29-33 | an annotator starts with both caches empty |
| `Annotations.Annotator.CachedNotateFunction` | lang/python/opendisc/trace/annotator.py:61-88 | the answer is always the uncached lookup; a cached key leaves the cache alone; otherwise a successful answer is stored under the function key and an exception stores nothing; the type cache is untouched and every cached entry stays correct |
| `Annotations.Annotator.CachedNotateType` | lang/python/opendisc/trace/annotator.py:90-97 | the same for the type cache and the best object annotation's key |
| `Annotations.Annotator.NotateFunction` | lang/python/opendisc/trace/annotator.py:35-42 | TypeError for anything but a function or method, leaving both caches; otherwise the document with the cached key, if any |
| `Annotations.Annotator.NotateType` | lang/python/opendisc/trace/annotator.py:51-57 | the document with the type's key, if any; the function cache is untouched |

## Left out

- `Graphs.Value`: attribute values are None, booleans, integers, strings, lists, dictionaries and graphs. Floats, bytes, tuples and sets have no counterpart. No operation of the core branches on them, but a float attribute cannot be written down.
- `AnnotatedGraphs.AddEntity`: a dict whose `ports` entry is not a list of strings is filed with that entry left in its data and no ports seeded from it. The source would raise AttributeError on `append` for a value without one, and `reify_*` would iterate whatever it pops. The shallow copy `dict(id_or_data)` also shares that list with the caller, so `append` changes the port table it came from; the model copies. The flow graphs the builder produces never put `ports` in a port entry.
- networkx itself is not part of this model. `Graphs` restates the behaviour the core relies on, and every model graph is a multigraph, as every graph the core builds is.
- `GraphOperations.CopyTopology`: the branch for a simple (non-multi) source or target graph (operations.py:21-22) is not modelled, because every model graph is a multigraph.
- `GraphOperations.CollapseSubgraph`: states the result only when the new node is not one of the collapsed nodes. When it is, the source adds the node, re-routes edges to it and then removes it with the subgraph. The ValueError case is stated either way.
- `GraphAlgorithms.Bfs`: requires the source to be a node of the graph. With any other source, networkx's edge lookup iterates the name's characters; that path is not modelled.
- `FlowGraphs.Flatten`: the flatten and join code reads `id`, `sourceport` and `targetport` with `data[key]` (flow_graph.py:68, 75, 86, 112-113, 120, 124, 134). The model reads a missing key as None (`Graphs.Get`), so the KeyError those lines raise on a malformed graph is not modelled. Graphs built by `FlowGraphBuilder` always carry these keys.
- `FlowGraphs.FlattenSpec`: requires `FlattenReady`. It bounds how deep graphs nest, and it asks that the names of nested nodes be disjoint from those of the enclosing graph. The names are uuids in the source, and a clash between them is not modelled.
- `FlowGraphBuilding.FlowGraphBuilder.PushEvent`: requires `NameIsNew` for call events: the token naming the new call node is not already a node of the current graph. It stands for `uuid.uuid4().hex`. `PushCall` has the same premise.
- `FlowGraphBuilding.FlowGraphBuilder.PushEvent`: `Event` carries the function `name` the builder reads from it. The event record in trace_event.py does not declare that field.
- `FlowGraphBuilding.FlowGraphBuilder.PushEvent`: an atomic call keeps no nested graph in its frame (`graph` is None), as the code does it.
- `FlowGraphBuilding`: the objects the builder sees (`PyObj`) come with everything the tracer and annotator would compute for them: id, trackability, `_get_object_data`, the referents `_hidden_referents` finds, and each annotated slot with the result of `get_slot`. Those computations are not part of this builder model. `PyObj` is a finite tree, so an object whose slots lead back to itself cannot be expressed; for such an object `_add_object_slots` (flow_graph_builder.py:336-371) recurses through `_set_object_output_node` until Python's RecursionError, which is not modelled.
- `Slots.ParseInt`: accepts an optional sign and ASCII digits only. Python's `int()` also accepts surrounding whitespace, underscores between digits and non-ASCII digits, which the model rejects as not a number.
- `Annotations.TypeKeyInjective`: a class is identified by its module and name (`PyType`). Two distinct classes with the same module and name are therefore one class here, while the source would cache them under one key and return the first one's annotation for both.
- `Annotations.FuncKeyDetermines`: rests on the same identification of a class with its key.
- `Annotations.Annotator.CachedNotateFunction`: requires `WellNamed`, i.e. a method's class name has no dot and its full name ends with its name, as Python produces them. `NotateFunction` has the same premise.
- `Annotations`: `notate_object` (annotator.py:44-49) is `notate_type` of the object's class and is not modelled separately. The method resolution order, `issubclass` and the database's `filter`/`get` are parameters (`Env`). Loading a package into a remote database on a cache miss is not modelled.
- `AnnotationDb`: the query backend (blitzdb) is a parameter, and the documents it holds are given as a sequence.
- `AnnotatedCollapse.CollapseUnannotatedActions`: `topological_sort` has more than one answer, so the order is a parameter, and it must be a topological order of the graph (`IsTopologicalOrder`). The closure is computed in the model and proved to be the transitive closure (`IsClosureOf`).
- `AnnotatedBuild.Build`: `topological_sort` and the uuid tokens are parameters. An order that is not topological stands for the error networkx raises.
- `AnnotatedCleanup.RemoveDuplicateEdgesSpec`: self-loops at an action are outside `SimpleAt`. A self-loop would be seen both as an in-edge and as an out-edge, and the graphs this pass receives have none.
- `FlowGraphs.Join`: the `copy=True` default is implicit, since graphs are values. The aliasing that `copy=False` allows is not modelled.
- `SemanticMerge.MergeSound`: `merge_nodes` recurses without bound. The model gives it fuel and reports a recursion error when the fuel runs out, as Python's recursion limit would.
- `SemanticGraphs`: the ontology (known types, inherited aspects, `most_specific`, Python-type lookup) is a parameter (`Olog`). The annotation backend with the packages loaded once is a parameter too (`Backend`).
- `GraphML.RoundTrip`: requires `Faithful`. No attribute may end in `_default`. Reference nodes are bare and lie on some edge. Port attributes are not None, and port lists and nested graphs are non-empty. The writer does not preserve these cases.
- `GraphML.ReaderMakeGraph`: the reader's defaults for missing keys (graphml.py:245-251) are not modelled. Neither is the final conversion to a `DiGraph` or `Graph` when the document is not a multigraph (graphml.py:268-273). The reader always builds a multigraph.
- `GraphML`: the XML text, `write_graphml`/`read_graphml` and the JSON encoding of non-primitive data (graphml.py:205-215) are I/O. The model stops at the element tree.
- `ObjectTracking.ObjectTracker`: weak references and the garbage collector's callback are replaced by an explicit release of an object. The address of a live object is a parameter.
- `Graphs`: edges are kept in one sequence in insertion order, and every edge listing in the model follows it. networkx 1.x lists a node's out-edges grouped by target, in the order the targets first became neighbours of the node, and then by key. Python 2 dictionaries, which networkx 1.x uses, have no defined order at all. Example: nodes [in, A, B] with edges inserted in->A, A->B, in->B; the model lists in->A, A->B, in->B, while networkx on Python 3.7+ lists in->A, in->B, A->B. The members below inherit this order.
- `GraphML.EdgesOut`: writes the edges in the model's insertion order (see `Graphs` above), not the order `edges_iter` gives. In an undirected graph it also writes each edge with the ends as they were added, while `edges_iter` starts each edge at whichever end comes first in node order. The edge elements and their data are otherwise as the source writes them.
- `GraphML.EdgesOutAt`: the same edge order as `GraphML.EdgesOut`.
- `GraphML.GraphMLWriter.AddEdges`: the same edge order as `GraphML.EdgesOut`.
- `GraphAlgorithms.Bfs`: visits out-edges in the model's insertion order (see `Graphs` above). Which node is queued first can therefore differ from networkx when a node has edges to several targets. Example: edges inserted A->B, A->C, A->B, with the first A->B rejected by the edge visitor. The model queues C before B; networkx lists both A->B edges first and queues B before C.
- `GraphAlgorithms.ExamineEdges`: the same edge order as `GraphAlgorithms.Bfs`.
- `GraphAlgorithms.RankedSiblings`: the same edge order as `GraphAlgorithms.Bfs`.
- `GraphAlgorithms.FirstLead`: the same edge order as `GraphAlgorithms.Bfs`.
- `SemanticMerge.FirstWithId`: the first node with the id in the model's visiting order. With networkx's edge order a different node with the same id can come first.
- `AnnotatedBuild.Build`: composes `AnnotatedReach.CollapseWithFreshClosure`, the corrected collapse of the first finding, not `AnnotatedCollapse.CollapseUnannotatedActions` as written, which `build` calls (annotated_graph.py:48). Its statement that the collapse keeps exactly the paths between annotated nodes is the intended behaviour; the code as written can create a new path (`AnnotatedReach.StaleClosureExample`).
- `SemanticMerge.MergeInput`: uses `Merge` with the guard on, i.e. the corrected `merge_nodes` of the second finding, which leaves a node alone when asked to merge it into itself. The source (semantic_graph.py:272-302) has no such guard. When the input entity and the output entity are one node, the source merges it into itself: in Python 2 that removes the node (`SemanticMerge.SharedChildLost` shows the effect), and in Python 3 networkx 1.11 raises RuntimeError because `add_edge` grows the dictionary `in_edges_iter` is iterating. The model keeps the node.
- `SemanticMerge.MergeDuplicatesOfAction`: merges through `SemanticMerge.MergeInput` and so with the guarded merge; the source's self-merge is not modelled.
- `SemanticMerge.MergeDuplicateAspects`: the same guarded merge as `SemanticMerge.MergeDuplicatesOfAction`.
- `SemanticMerge.DuplicateSound`: stated about the guarded merge, as `SemanticMerge.MergeDuplicateAspects`.
- `SemanticMerge.Pairs`: `set(inputs).intersection(outputs)` has no defined order, so the model takes the aspects in the order of the action's out-edges. Merges do not commute in general, so another order can give another graph; no statement here is independent of that order.
- `SemanticMerge.MergeUnknownInputOutput`: uses `Merge` with the guard on, i.e. the corrected `merge_nodes` of the second finding, which leaves a node alone when asked to merge it into itself. The source (semantic_graph.py:272-302) has no such guard. When the search finds the entity itself first, the source removes the action's edge to it and merges it into itself (removed in Python 2, RuntimeError in Python 3); the model removes the edge and keeps the node.
- `SemanticMerge.MergeUnknownOfAction`: uses the guarded merge through `SemanticMerge.MergeUnknownInputOutput`. Each edge's search runs over the graph the earlier merges left, so the pass has no closed-form specification; only well-formedness, shrinking and type-only changes are stated.
- `SemanticMerge.MergeUnknownAspects`: the same guarded merge and the same lack of a closed-form specification as `SemanticMerge.MergeUnknownOfAction`.
- `SemanticBuilding.SemanticGraphBuilder.MergeAspects`: runs the two passes above, with the guarded merge.
- `SemanticBuilding.SemanticGraphBuilder.Build`: runs the merging passes with the guarded merge, so it keeps nodes that the source removes (Python 2) or stops at (Python 3) on a self-merge.
- `SemanticReify.SlotAttrs`: `add_types` copies the entity's `slots` entry by reference (semantic_graph.py:87), so the `setdefault` calls of `reify_entity_slots` (semantic_graph.py:157-158) also write `type` and `root_type` into the slot dictionaries of the annotated graph the caller passed in. The model leaves the annotated graph unchanged; that aliasing is not modelled.
- `SemanticDirections.FixActionEdgeDirections`: its action query reads a missing `root_type` as None where `n['root_type']` raises KeyError. The same holds for `SemanticValidation.ValidateActionAspects`, `SemanticBuilding.SemanticGraphBuilder.ReifyEntitySlots` and `SemanticMerge.MergeDuplicateAspects`. In `build` each of them runs on a graph in which `add_types` or `reify_entity_slots` has given every node a root type, so the KeyError cannot arise there; `SemanticMerge.MergeUnknownAspects`, which can meet a bare node left by a merge, models it.
- Concurrency is not modelled; the core has none.

## Findings

| source | as written | input that shows it | evidently intended | confidence | as-written member | corrected member |
|---|---|---|---|---|---|---|
| lang/python/opendisc/core/annotated_graph.py:131 | `collapse_unannotated_actions` computes the transitive closure once (line 114). It then tests every later merge against that stale closure while the graph changes under it. | annotated u and t; unannotated p, y, c, v; edges u->c, p->c, p->v, y->v, y->t. The pass merges y with v and then p with c, after which u reaches t. | collapsing creates no path between annotated nodes that did not exist before | not executed | `AnnotatedReach.StaleClosureExample` | `AnnotatedReach.CollapseWithFreshClosure` |
| lang/python/opendisc/core/semantic_graph.py:294-297 | when src and dest both have an edge to the same child under one aspect, `merge_nodes` recurses on (child, child). On Python 2, where `in_edges_iter` iterates a copied list, that merges the child into itself and removes it (the as-written member). On Python 3 with networkx 1.11, `in_edges_iter` iterates a live dictionary view that `add_edge` grows, so the self-merge raises RuntimeError instead. Either way dest loses the child or the pass fails. | `Shared(s, d, t)`: s and d with edges to t under the same aspect | dest keeps the shared child | not executed | `SemanticMerge.SharedChildLost` | `SemanticMerge.SharedChildKept` |
