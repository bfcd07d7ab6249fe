# nebula-siwi-pyg core, modelled in Dafny

This project models the decision logic of the nebula-siwi-pyg question-answering
bot, and proves properties about that model. The bot answers basketball questions
over a NebulaGraph database (players, teams, `serve` and `follow` edges). It also
bridges the graph into PyTorch Geometric and offers a small text-RAG agent.

The modelled parts are:

- **Subgraph sampler** (`Sampler`, with the specification functions in
  `SamplerSpec` and the vertex numbering in `IdRegistry`). It resets its tables
  on every call. It collects a neighbourhood around a centre vertex, by GO
  queries for at most two hops and one GET SUBGRAPH query beyond that, under a
  node budget. It then numbers the vertices densely, groups the edges by type
  (optionally both directions), batches feature fetches by type in slices of
  100, and releases the session on every path. The remote graph is a value of
  type `Graph`: total functions from a query's arguments to a response, that is
  rows plus a success flag.
- **Path finder** (`PathFinding`):
  - the breadth-first path search, with its revisit rule, its limit of five
    paths and its hop limit;
  - the direct / bridge / no-connection decision;
  - the substring entity extractor, the hop-count parser and the answer text.
- **Store facade** (`RemoteBackend`): the PyG feature store's tensor cache and
  the graph store's edge cache, with put/get/remove and listings, and the
  uncached edge search through the sampler.
- **PyG bridge** (`PygIntegration`): the second get-or-add id registry, its
  bounds-checked reverse lookup, and the index bookkeeping of `get_subgraph`
  and `get_node_features`.
- **Document loading** (`DocLoading`): blank-line and length-budget chunking,
  suffix filtering, chunk ids and titles, and the default documents.
- **Classifiers** (`BertClassifier`, `OptimizedClassifier`): keyword intent
  chains, table entity matching, NER merging (NER output is an input) and the
  classifier factory.
- **Actions** (`Actions`): intent to action dispatch, the name/vid tables, and
  the answers of the serve, follow and relationship actions over a given query
  outcome.
- **Agent** (`AgentTools`, `AgentRunner`): vid extraction, graph-tool gating and
  metadata, routing, and the two-step trace.
- **LLM client, RAG pipeline, settings** (`LlmClient`, `RagPipeline`,
  `Settings`): the client factory's error rules, the mock client's reply, context
  building and fallbacks, and environment-string parsing.

Python dictionaries whose insertion order shows in the output are sequences of
pairs; the others are maps. Python's `list(set)` order is unspecified, so it is
any enumeration of the set (`Common.ListOf`). An operation that raises returns
`Err`.

The docstring of `sample_subgraph` (src/siwi/graph_backend/subgraph_sampler.py:40)
calls `max_nodes` the largest number of vertices, there to keep the subgraph
small. The code does not keep that limit:

- It stops taking rows only once the collected set has reached `max_nodes`,
  and a row may add two vertices, or three in a GET SUBGRAPH row.
- The model proves the bound the code does keep: max(max_nodes+1, 3) for GO
  and max(max_nodes+2, 4) for GET SUBGRAPH.
- `SamplerSpec.GoBudgetExceeded` exhibits a sample of four vertices under a
  budget of three.

## Model

| member | source | states |
|---|---|---|
| IdRegistry.Add | src/siwi/graph_backend/subgraph_sampler.py:197-206 | the vid is mapped to the returned index, the key set grows by exactly that vid, and earlier entries keep their indices (the registry only extends) |
| IdRegistry.AddValid | src/siwi/graph_backend/subgraph_sampler.py:202-206 | on a valid registry (indices contiguous from 0, `idx_to_vid[vid_to_idx[v]] == v`), adding keeps it valid and the returned index reads back as the vid |
| IdRegistry.AddAll | src/siwi/graph_backend/pyg_integration.py:115-129 | registering a sequence maps every listed id, adds no other id and renumbers nothing |
| IdRegistry.AddAllValid | src/siwi/graph_backend/pyg_integration.py:125-129 | registering a sequence keeps the registry valid |
| Sampler.ConnectionPool.GetSession | src/siwi/graph_backend/subgraph_sampler.py:52 | taking a session raises the count of checked-out sessions by one |
| Sampler.ConnectionPool.Release | src/siwi/graph_backend/subgraph_sampler.py:85-86 | releasing a session lowers the count by one |
| Sampler.SubgraphSampler.constructor | src/siwi/graph_backend/subgraph_sampler.py:11-25 | a new sampler has empty numbering, edge and type tables |
| Sampler.SubgraphSampler.GetVidIdx | src/siwi/graph_backend/subgraph_sampler.py:197-206 | the tables change exactly as `IdRegistry.Add` says, and the edge and type tables are untouched |
| Sampler.SubgraphSampler.CreateEdgeIndex | src/siwi/graph_backend/subgraph_sampler.py:208-256 | numbering and per-type groups are those of `SamplerSpec.GroupEdges`; the merged index is the groups concatenated in first-seen type order; the type table is untouched |
| Sampler.SubgraphSampler.NumberEdges | src/siwi/graph_backend/subgraph_sampler.py:227-240 | the edge loop ends in the grouping `SamplerSpec.GroupEdges` defines |
| Sampler.SubgraphSampler.NumberEdge | src/siwi/graph_backend/subgraph_sampler.py:228-240 | one iteration numbers both endpoints and appends the edge's column (and its reverse) to its type's group |
| Sampler.SubgraphSampler.StoreGroups | src/siwi/graph_backend/subgraph_sampler.py:242-246 | every group is stored under its type and nothing else changes |
| Sampler.SubgraphSampler.GetSubgraphUsingGo | src/siwi/graph_backend/subgraph_sampler.py:88-144 | the returned vertices enumerate the set `SamplerSpec.GoSample` collects, the edges and learned types are the ones it gives, and the numbering is untouched |
| Sampler.SubgraphSampler.GetSubgraphUsingSubgraph | src/siwi/graph_backend/subgraph_sampler.py:146-195 | the same against `SamplerSpec.BulkSample`, including its error for a vertex without tags |
| Sampler.SubgraphSampler.GetNodeFeatures | src/siwi/graph_backend/subgraph_sampler.py:259-319 | the features are those `SamplerSpec.NodeFeatures` fetches: by type, in batches, later rows overwriting earlier ones |
| Sampler.SubgraphSampler.SampleSubgraph | src/siwi/graph_backend/subgraph_sampler.py:27-86 | the result is the assembled sample of the chosen strategy or its error; the session count is unchanged on every path; the sampler's tables equal the returned ones |
| Sampler.SubgraphSampler.BuildSubgraph | src/siwi/graph_backend/subgraph_sampler.py:66-83 | from fresh tables, the result is `SamplerSpec.Assemble` of the sample, with the centre's index or 0 |
| Sampler.SubgraphSampler.CollectSample | src/siwi/graph_backend/subgraph_sampler.py:58-63 | GO for at most two hops, GET SUBGRAPH beyond, as `SamplerSpec.Collect` chooses |
| Sampler.SubgraphSampler.ConvertToPygData | src/siwi/graph_backend/subgraph_sampler.py:321-359 | nothing without PyG; otherwise one feature per vertex (its embedding, else 0.0) and one type code per vertex (1 exactly for "team"), with the index tables passed through |
| SamplerSpec.GoRowsBound | src/siwi/graph_backend/subgraph_sampler.py:114-135 | taking rows until the set reaches the budget leaves at most max(budget+1, 3) vertices, every edge's endpoints collected, and the earlier vertices kept |
| SamplerSpec.GoHopsBound | src/siwi/graph_backend/subgraph_sampler.py:105-139 | the same bound over all hops, a failed hop contributing nothing |
| SamplerSpec.GoSampleBound | src/siwi/graph_backend/subgraph_sampler.py:88-144 | a GO sample holds the centre, every edge's endpoints, and at most max(max_nodes+1, 3) vertices |
| SamplerSpec.BulkRowsBound | src/siwi/graph_backend/subgraph_sampler.py:163-190 | taking bulk rows until the budget is reached leaves at most max(budget+2, 4) vertices, every edge's endpoints collected |
| SamplerSpec.BulkSampleBound | src/siwi/graph_backend/subgraph_sampler.py:146-195 | a successful GET SUBGRAPH sample holds the centre, every edge's endpoints, and at most max(max_nodes+2, 4) vertices |
| SamplerSpec.GoBudgetExceeded | src/siwi/graph_backend/subgraph_sampler.py:120-135 | a one-hop response of two disjoint edges yields four vertices under a budget of three: `len(nodes) <= max_nodes` does not hold |
| SamplerSpec.GroupEdgesStep | src/siwi/graph_backend/subgraph_sampler.py:227-240 | grouping a prefix one edge longer is one more grouping step |
| SamplerSpec.GroupEdgeKeys | src/siwi/graph_backend/subgraph_sampler.py:229-230 | one step numbers exactly the edge's two endpoints in addition |
| SamplerSpec.GroupEdgeExtends | src/siwi/graph_backend/subgraph_sampler.py:227-240 | one step only extends the numbering, appends the edge's columns to its own type's group, and leaves every other group as it was |
| SamplerSpec.GroupEdgeValid | src/siwi/graph_backend/subgraph_sampler.py:229-230 | one step keeps the numbering valid |
| SamplerSpec.GroupEdgeWell | src/siwi/graph_backend/subgraph_sampler.py:227-240 | one step keeps the type order duplicate-free, in step with the groups, and every index below the vertex count |
| SamplerSpec.GroupEdgesWell | src/siwi/graph_backend/subgraph_sampler.py:227-240 | the whole loop keeps that shape |
| SamplerSpec.GroupEdgesExtends | src/siwi/graph_backend/subgraph_sampler.py:227-240 | the whole loop only extends the numbering and the groups |
| SamplerSpec.GroupEdgesValid | src/siwi/graph_backend/subgraph_sampler.py:227-240 | the whole loop keeps the numbering valid |
| SamplerSpec.IsEndpointPrefix | src/siwi/graph_backend/subgraph_sampler.py:227 | an endpoint of a prefix of the edges is an endpoint of the edges |
| SamplerSpec.GroupEdgesKeys | src/siwi/graph_backend/subgraph_sampler.py:227-231 | the loop numbers exactly the old vertices plus the edges' endpoints |
| SamplerSpec.HasColumnsKept | src/siwi/graph_backend/subgraph_sampler.py:232-239 | an edge's columns, once grouped, stay grouped as the grouping extends |
| SamplerSpec.GroupEdgesComplete | src/siwi/graph_backend/subgraph_sampler.py:232-239 | every edge's column, and with `bidirectional` its reverse, is in its type's group |
| SamplerSpec.FromSomeEdgeKept | src/siwi/graph_backend/subgraph_sampler.py:232-239 | a column that comes from some edge of a prefix still comes from that edge once the numbering extends |
| SamplerSpec.GroupEdgesSound | src/siwi/graph_backend/subgraph_sampler.py:232-239 | every grouped column is the column (or, with `bidirectional`, the reverse) of an edge of that type |
| SamplerSpec.MergedUpdate | src/siwi/graph_backend/subgraph_sampler.py:242-249 | replacing one type's group changes the merged length by the difference in that group's length |
| SamplerSpec.MergedAppend | src/siwi/graph_backend/subgraph_sampler.py:248-249 | merging one more type appends its group |
| SamplerSpec.MergedLength | src/siwi/graph_backend/subgraph_sampler.py:220-256 | the merged index has exactly two columns per edge with `bidirectional`, one without |
| SamplerSpec.MergedGrows | src/siwi/graph_backend/subgraph_sampler.py:235-239 | one grouping step lengthens the merged index by two or one |
| SamplerSpec.GroupByTypeShape | src/siwi/graph_backend/subgraph_sampler.py:268-272 | types are listed once each, in first-seen order, each with its group |
| SamplerSpec.GroupByTypeMembers | src/siwi/graph_backend/subgraph_sampler.py:265-272 | each vertex sits exactly in its own type's group, "unknown" when no type is known |
| SamplerSpec.TypeRequestsSound | src/siwi/graph_backend/subgraph_sampler.py:280-283 | the batches of a type are non-empty, at most 100 long, and hold only that type's vertices |
| SamplerSpec.TypeRequestsCover | src/siwi/graph_backend/subgraph_sampler.py:280-283 | every vertex of the type is in some batch |
| SamplerSpec.RequestsFacts | src/siwi/graph_backend/subgraph_sampler.py:275-283 | "unknown" is never fetched; all other groups are covered by batches of at most 100 |
| SamplerSpec.FeatureRequestsFacts | src/siwi/graph_backend/subgraph_sampler.py:259-283 | each fetch names a known type and at most 100 of the input vertices of that type; every vertex of a known type is fetched |
| SamplerSpec.FetchAppend | src/siwi/graph_backend/subgraph_sampler.py:281-317 | fetching two request lists is fetching the first, then the second on top |
| SamplerSpec.RegistryCount | src/siwi/graph_backend/subgraph_sampler.py:75 | the numbering has no more vertices than the collected set when the edges stay inside it |
| SamplerSpec.MergedIn | src/siwi/graph_backend/subgraph_sampler.py:248-249 | every merged column comes from some group |
| SamplerSpec.MergedHas | src/siwi/graph_backend/subgraph_sampler.py:248-249 | every column of a listed group is in the merged index |
| SamplerSpec.EdgeIndexSize | src/siwi/graph_backend/subgraph_sampler.py:220-256 | the index has `len(edges)·2` columns with `bidirectional`, `len(edges)` without, every index below `len(idx_to_vid)` (an empty edge list gives a 2×0 index) |
| SamplerSpec.EdgeIndexComplete | src/siwi/graph_backend/subgraph_sampler.py:227-249 | every edge (s,d) contributes (idx s, idx d), and with `bidirectional` (idx d, idx s) |
| SamplerSpec.EdgeIndexSound | src/siwi/graph_backend/subgraph_sampler.py:227-249 | every column is some edge's column or its reverse |
| SamplerSpec.NumberingShape | src/siwi/graph_backend/subgraph_sampler.py:197-231 | the numbering is valid and covers exactly the edges' endpoints |
| SamplerSpec.SampleShape | src/siwi/graph_backend/subgraph_sampler.py:27-86 | a successful call returns a valid numbering, the centre's index (or 0 when the centre is not numbered), one or two columns per edge below `num_nodes`, and at most max(max_nodes+1, 3) (GO) or max(max_nodes+2, 4) (GET SUBGRAPH) vertices |
| PathFinding.ExtractEntities | src/siwi/mvp_qa_system.py:63-75 | the result is the table entries whose lower-cased name occurs in the lower-cased text, in table order (`Common.MentionedMembers` states membership both ways) |
| PathFinding.ScanTable | src/siwi/mvp_qa_system.py:67-75 | the loop collects exactly `Common.Mentioned` of the table |
| Common.MentionedMembers | src/siwi/mvp_qa_system.py:71-73 | an entry is reported iff it is in the table and its lower-cased name occurs in the lower-cased text |
| PathFinding.NameOfAbsent | src/siwi/mvp_qa_system.py:338 | an id absent from the table is shown as itself |
| PathFinding.NameOfEntry | src/siwi/mvp_qa_system.py:61-338 | with distinct ids, the inverted table gives each id its own name back |
| PathFinding.Search | src/siwi/mvp_qa_system.py:88 | the search finds the first position where the pattern matches, and none before it |
| PathFinding.CapturedAt | src/siwi/mvp_qa_system.py:81-84 | the captured group is a non-empty digit run |
| PathFinding.ParseHopsFirstMatch | src/siwi/mvp_qa_system.py:78-92 | when the k-th pattern is the first that `re.search` finds in the lower-cased text, at position i, the result is its captured digit run read as a number (any number of digits) and capped at 4, so never above 4 |
| PathFinding.ParseHopsNoMatch | src/siwi/mvp_qa_system.py:87-92 | when no pattern matches, the result is 2 |
| PathFinding.ParseHopsDefault | src/siwi/mvp_qa_system.py:92 | a text without digits gives the default of 2 hops |
| PathFinding.NoDigitNoHops | src/siwi/mvp_qa_system.py:80-89 | no pattern matches a text without digits |
| PathFinding.ParseHopsNumberHop | src/siwi/mvp_qa_system.py:81-90 | "d hops" parses to min(d, 4) |
| PathFinding.NeighborsComplete | src/siwi/mvp_qa_system.py:125-131 | every column (u, v) puts v in u's adjacency list |
| PathFinding.BuildAdjacency | src/siwi/mvp_qa_system.py:122-131 | the built adjacency lists are, for every vertex, its out-neighbours in column order |
| PathFinding.QueueWorkAppend | src/siwi/mvp_qa_system.py:149 | enqueuing adds the work bound of the new path to the queue's bound |
| PathFinding.QueueWorkFront | src/siwi/mvp_qa_system.py:135 | dequeuing removes the front path's work bound |
| PathFinding.CombinedIsBridge | src/siwi/mvp_qa_system.py:192-199 | `path_a + path_b[1:]` of two short paths meeting at a tried bridge is a path from A through the bridge to B |
| PathFinding.PathFinder.FindPathsBfs | src/siwi/mvp_qa_system.py:101-154 | when start ≠ end, an edge joins them and max_hops ≥ 1, the path [start, end] is among those found; at most 5 paths, each starting at the start vertex, ending at the end vertex, joined edge by edge by columns of the index, and at most `max_hops+1` long; [] when either end is unnumbered or the index is missing; [[start]] when start = end |
| PathFinding.FirstTurnPending | src/siwi/mvp_qa_system.py:133-150 | the first turn, from `[start]`, queues `[start, end]` when a column joins them, and no other path ending at `end` |
| PathFinding.PathFinder.FindMultihopRelationships | src/siwi/mvp_qa_system.py:156-214 | samples A with `max_hops` hops and budget 500; if B is numbered there, a direct result (found, "direct_subgraph", paths as above); otherwise samples B with `max_hops // 2` hops and returns the bridge result |
| PathFinding.PathFinder.BridgeCase | src/siwi/mvp_qa_system.py:183-214 | bridge nodes enumerate the full intersection; with none: not found, "no_connection", no paths; else found, "bridge_nodes", at most 5 paths, each joined at one of the first three bridges |
| PathFinding.PathFinder.JoinBridges | src/siwi/mvp_qa_system.py:190-199 | at most 4 combined paths per tried bridge, each a bridge path within `max_hops // 2` hops on either side |
| PathFinding.ShownPaths | src/siwi/mvp_qa_system.py:334-342 | at most 3 lines, line i naming the i-th path's vertices and `len(path) - 1` hops |
| PathFinding.FormatAnswer | src/siwi/mvp_qa_system.py:324-352 | the method's answer is `Answer`, whose shape `FormatAnswerSound` states |
| PathFinding.FormatAnswerSound | src/siwi/mvp_qa_system.py:324-352 | the answer is the not-found sentence iff there are no paths; otherwise it begins with the header counting all paths, and its lines are that header, then min(3, len(paths)) lines, line i beginning "路径i: " and ending with path i's `len(path) - 1` hops, then at most one method note, present iff the method is "direct_subgraph" or "bridge_nodes" |
| PathFinding.HeaderNotNotFound | src/siwi/mvp_qa_system.py:327-331 | an answer with paths cannot begin like the not-found sentence: the two differ right after "在{max_hops}跳" |
| PathFinding.PathLineHops | src/siwi/mvp_qa_system.py:336-342 | a listed path line begins with its number and ends with its hop count |
| PathFinding.ShowPaths | src/siwi/mvp_qa_system.py:334-342 | the loop builds exactly `ShownPaths` |
| PathFinding.ShownPathsStep | src/siwi/mvp_qa_system.py:334-342 | each of the first three paths appends its own numbered line after the earlier ones |
| PathFinding.ShownPathsCap | src/siwi/mvp_qa_system.py:334 | paths after the third are never listed |
| PathFinding.PathNames | src/siwi/mvp_qa_system.py:336-339 | the loop names each path vertex through the inverted table |
| RemoteBackend.Select | src/siwi/graph_backend/remote_backend.py:55 | `t[index]` succeeds iff every index is in range (negatives count from the end), and gives the indexed rows in order |
| RemoteBackend.Write | src/siwi/graph_backend/remote_backend.py:142 | `t[index] = src` succeeds iff the indices are in range and the source broadcasts to the indexed shape (a dimension of 1 repeated, a 1-D source taken as one row); it keeps the shape, and unindexed rows keep their values |
| RemoteBackend.FilledExact | src/siwi/graph_backend/remote_backend.py:142 | a source already of the indexed shape is written as it is |
| RemoteBackend.FilledOneRow | src/siwi/graph_backend/remote_backend.py:142 | a one-row source, 2-D or 1-D, is repeated into every indexed row |
| RemoteBackend.OverwriteUntouched | src/siwi/graph_backend/remote_backend.py:142 | an indexed write leaves unindexed rows alone |
| RemoteBackend.OverwriteLast | src/siwi/graph_backend/remote_backend.py:142 | the last write to a row wins |
| RemoteBackend.WriteThenSelect | src/siwi/graph_backend/remote_backend.py:55-142 | reading back distinct written rows gives what the source broadcast to |
| RemoteBackend.Blank | src/siwi/graph_backend/remote_backend.py:139 | an absent key gets a zero tensor of `max(index) + 1` rows and the source's width, or fails |
| RemoteBackend.PutIndexedReadsBack | src/siwi/graph_backend/remote_backend.py:50-142 | an indexed put of a well-shaped 2-D tensor into an absent key, with distinct non-negative indices, reads back as the tensor put |
| RemoteBackend.TensorView | src/siwi/graph_backend/remote_backend.py:36-86 | a cached tensor is answered whole or by rows; uncached without an index, an empty tensor; uncached with one, one value per index, 0.0 where there is no embedding, the vid being the mapper's or `"{group}{i}"` |
| RemoteBackend.FeatureStore.constructor | src/siwi/graph_backend/remote_backend.py:21-34 | empty caches and no id mapper |
| RemoteBackend.FeatureStore.GetTensor | src/siwi/graph_backend/remote_backend.py:36-86 | the answer is `TensorView` of the current cache |
| RemoteBackend.FeatureStore.FetchFeatures | src/siwi/graph_backend/remote_backend.py:69-80 | one value per vid, the embedding or 0.0 |
| RemoteBackend.FeatureStore.GetTensorSize | src/siwi/graph_backend/remote_backend.py:88-107 | the cached tensor's size, or (1,) when uncached |
| RemoteBackend.FeatureStore.PutTensor | src/siwi/graph_backend/remote_backend.py:109-144 | the name is added to its group first; no index stores the tensor whole; an index writes rows into the cached tensor or a fresh zero tensor |
| RemoteBackend.FeatureStore.RemoveTensor | src/siwi/graph_backend/remote_backend.py:146-169 | an absent key gives false and changes nothing; a present key is deleted with its name, and true is returned |
| RemoteBackend.FeatureStore.GetAllTensorAttrs | src/siwi/graph_backend/remote_backend.py:171-180 | each group lists exactly its registered names, each once |
| RemoteBackend.DictSetGet | src/siwi/graph_backend/remote_backend.py:404 | setting a key in an ordered dictionary reads back the value and leaves other keys alone |
| RemoteBackend.DictDelGet | src/siwi/graph_backend/remote_backend.py:432-433 | deleting a key removes it and leaves other keys alone |
| RemoteBackend.Filter | src/siwi/graph_backend/remote_backend.py:297-299 | a column is kept iff its source is among the source indices and its target among the target indices |
| RemoteBackend.IndexOf | src/siwi/graph_backend/remote_backend.py:356 | `dst_ids.index(x)` is the first position of x |
| RemoteBackend.Matches | src/siwi/graph_backend/remote_backend.py:344-357 | the kept columns of one sampled subgraph pair the source position with the first position of a requested target |
| RemoteBackend.EdgeSearchStep | src/siwi/graph_backend/remote_backend.py:330-357 | searching one more source appends that source's matches |
| RemoteBackend.EdgeSearchColumns | src/siwi/graph_backend/remote_backend.py:328-365 | every emitted column names a requested source and the first position of a requested target |
| RemoteBackend.MatchesComplete | src/siwi/graph_backend/remote_backend.py:344-357 | every sampled column from the source to a requested target is emitted with the target's first position |
| RemoteBackend.EdgeSearchComplete | src/siwi/graph_backend/remote_backend.py:328-357 | for every requested source, every column of its one-hop sample to a requested target is emitted as (source position, first target position) |
| RemoteBackend.GraphStore.constructor | src/siwi/graph_backend/remote_backend.py:220-235 | empty caches and no id mapper |
| RemoteBackend.GraphStore.PutEdgeIndex | src/siwi/graph_backend/remote_backend.py:371-406 | layouts other than "coo" raise and change nothing; otherwise the index is stored under (type, layout) and the name's registration is set, overwriting an earlier one |
| RemoteBackend.GraphStore.RemoveEdgeIndex | src/siwi/graph_backend/remote_backend.py:408-437 | an absent key gives false and changes nothing; a present key is deleted with the name's registration |
| RemoteBackend.GraphStore.GetAllEdgeAttrs | src/siwi/graph_backend/remote_backend.py:439-458 | one entry per registered name, in order: `(src, name, dst)` when both types are set, else the bare name |
| RemoteBackend.GraphStore.GetEdgeIndex | src/siwi/graph_backend/remote_backend.py:273-369 | a cached entry is answered first (filtered by an index); otherwise "coo" only; without an index the empty index; with one, the edge search |
| RemoteBackend.GraphStore.SearchEdges | src/siwi/graph_backend/remote_backend.py:328-357 | the loop over sources yields exactly `EdgeSearch` |
| RemoteBackend.GraphStore.SampleOne | src/siwi/graph_backend/remote_backend.py:332-336 | each source is sampled with one hop, both directions and budget 1000, and its indices stay below its vertex count |
| RemoteBackend.EdgeIds | src/siwi/graph_backend/remote_backend.py:319-326 | one id per index, through the mapper or `str(i)` |
| PygIntegration.NodeIdByIdx | src/siwi/graph_backend/pyg_integration.py:46-57 | `idx_to_id[idx]` in range, `"unknown{idx}"` otherwise |
| PygIntegration.GetOrAddRoundTrip | src/siwi/graph_backend/pyg_integration.py:55-72 | `get_node_id_by_idx(_get_or_add_id(id)) == id`, and the table stays valid |
| PygIntegration.Register | src/siwi/graph_backend/pyg_integration.py:85-118 | one index per id, the table extended as by `AddAll` |
| PygIntegration.RegisterIndices | src/siwi/graph_backend/pyg_integration.py:115-118 | every handed-out index is the final table's index of its id: later registrations never renumber |
| PygIntegration.RegisterRoundTrip | src/siwi/graph_backend/pyg_integration.py:85-98 | every requested index reads back as its input id |
| PygIntegration.NebulaToTorch.constructor | src/siwi/graph_backend/pyg_integration.py:18-36 | empty id tables |
| PygIntegration.NebulaToTorch.GetOrAddId | src/siwi/graph_backend/pyg_integration.py:59-72 | the tables change exactly as `IdRegistry.Add` says: idempotent on a known id, append for a new one |
| PygIntegration.NebulaToTorch.RegisterAll | src/siwi/graph_backend/pyg_integration.py:85-88 | the loop registers ids in order and returns their indices |
| PygIntegration.NebulaToTorch.GetNodeFeatures | src/siwi/graph_backend/pyg_integration.py:74-100 | exactly one index per input id, in input order, passed to the feature store's `get_tensor` for "embedding1" |
| PygIntegration.NebulaToTorch.GetSubgraph | src/siwi/graph_backend/pyg_integration.py:104-129 | the numbering part of `get_subgraph`: centre ids are registered first, and their indices are those handed to `loader.load_data`; loaded ids are appended only when unseen; nothing is renumbered |
| PygIntegration.AddAllTransitive | src/siwi/graph_backend/pyg_integration.py:115-129 | two registrations in a row only extend the table |
| DocLoading.NonBlank | src/siwi/rag/doc_loader.py:58 | the stripped non-empty lines, never empty |
| DocLoading.SplitStep | src/siwi/rag/doc_loader.py:69-78 | one loop iteration performs one step of the fold `Step` |
| DocLoading.FoldStep | src/siwi/rag/doc_loader.py:68-78 | folding one more line is one more step |
| DocLoading.BlankKeepsInv | src/siwi/rag/doc_loader.py:70-74 | a blank line closes the open part and keeps the chunking invariant |
| DocLoading.LineKeepsInv | src/siwi/rag/doc_loader.py:75-78 | a non-blank line keeps the invariant whether or not it fills the budget |
| DocLoading.FullGroupCloses | src/siwi/rag/doc_loader.py:76-78 | a part closed on reaching the budget is a good part |
| DocLoading.StepKeepsInv | src/siwi/rag/doc_loader.py:68-78 | every step keeps: closed parts good, open part under budget, all lines seen in order |
| DocLoading.FoldInvariant | src/siwi/rag/doc_loader.py:65-79 | the fold over all lines satisfies that invariant |
| DocLoading.SplitPartsSound | src/siwi/rag/doc_loader.py:65-83 | no part is empty; each is its lines joined by single spaces; every part minus its last line totals under `chunk_size`; flattening the parts' lines gives the stripped non-empty lines in order |
| DocLoading.StemSuffix | src/siwi/rag/doc_loader.py:50-59 | stem and suffix split the file name, the suffix being the last dot onwards |
| DocLoading.Title | src/siwi/rag/doc_loader.py:59 | the first non-empty stripped line, else the stem with "_" as " " in title case |
| DocLoading.ChunkIdInjective | src/siwi/rag/doc_loader.py:62 | `"{stem}-{i}"` ids of one file are distinct |
| DocLoading.FileChunksSound | src/siwi/rag/doc_loader.py:56-63 | one chunk per part, in order, with id `"{stem}-{i}"`, the file's title, and non-empty text; ids are distinct |
| DocLoading.LoadAllStep | src/siwi/rag/doc_loader.py:47-52 | loading one more entry appends its chunks when accepted |
| DocLoading.LoadedFromAccepted | src/siwi/rag/doc_loader.py:47-52 | every loaded chunk comes from a non-directory ".txt" or ".md" entry |
| DocLoading.LoadSpecSound | src/siwi/rag/doc_loader.py:42-54 | the load is never empty; with no accepted file it is the default documents |
| DocLoading.DocLoader.constructor | src/siwi/rag/doc_loader.py:38-40 | directory and chunk size as given |
| DocLoading.DocLoader.SplitText | src/siwi/rag/doc_loader.py:65-83 | the loop returns `SplitParts` of the text's lines |
| DocLoading.DocLoader.LoadFile | src/siwi/rag/doc_loader.py:56-63 | the generator yields `FileChunks` of the file |
| DocLoading.DocLoader.Load | src/siwi/rag/doc_loader.py:42-54 | the default documents when the directory is missing or nothing loads, else the accepted files' chunks in listing order |
| BertClassifier.TypingsAgree | src/siwi/bot/bert_classifier.py:143-216 | the two typings agree exactly on ids starting with "player" or "team" |
| BertClassifier.Typed | src/siwi/bot/bert_classifier.py:123 | each matched name is typed from its id |
| BertClassifier.RuleEntitiesSound | src/siwi/bot/bert_classifier.py:119-123 | every table name occurring in the sentence is reported, typed, and nothing else is |
| BertClassifier.MatchTable | src/siwi/bot/bert_classifier.py:117-123 | the loop reports exactly the table's mentioned names, typed |
| BertClassifier.IntentsAreLabels | src/siwi/bot/bert_classifier.py:55-190 | both classifiers answer one of the candidate labels |
| BertClassifier.LiteNeverEarlier | src/siwi/bot/bert_classifier.py:159-228 | the full chain never answers an intent later in the order than the light one |
| BertClassifier.TeamMeansServe | src/siwi/bot/bert_classifier.py:167-168 | "team" in a sentence without similarity or relation words makes it a serve question |
| BertClassifier.ExtractEntities | src/siwi/bot/bert_classifier.py:115-141 | in light mode the entities are exactly the mentioned table names, typed by id prefix |
| BertClassifier.Get | src/siwi/bot/bert_classifier.py:90-113 | the entities above and a one-element intents tuple holding the keyword intent ("fallback" when no keyword matches) |
| BertClassifier.LiteGet | src/siwi/bot/bert_classifier.py:208-230 | the light table's mentioned names typed "player"/"team", and a one-element intents tuple with the light precedence |
| OptimizedClassifier.NerType | src/siwi/bot/optimized_bert_classifier.py:188-194 | a NER group maps to "player" or "team" or to nothing |
| OptimizedClassifier.AddKeepsSound | src/siwi/bot/optimized_bert_classifier.py:187-194 | adding one admitted NER entity keeps the merge sound |
| OptimizedClassifier.MergeNerSound | src/siwi/bot/optimized_bert_classifier.py:183-194 | rule entities are kept unchanged and first; added entities have cleaned text longer than 2, a new name and type "player"/"team"; names stay distinct |
| OptimizedClassifier.RuleNamesDistinct | src/siwi/bot/optimized_bert_classifier.py:171-175 | rule matches carry distinct names |
| OptimizedClassifier.NbaNamesDistinct | src/siwi/bot/optimized_bert_classifier.py:45-51 | the entity table's names are distinct |
| OptimizedClassifier.MentionedSubsequence | src/siwi/bot/optimized_bert_classifier.py:172-175 | matching keeps distinct names distinct, and takes only table entries |
| OptimizedClassifier.ExtractEntities | src/siwi/bot/optimized_bert_classifier.py:166-201 | without NER output, the rule matches; with it, the rule matches merged with the NER entities |
| OptimizedClassifier.MergeNerResults | src/siwi/bot/optimized_bert_classifier.py:183-194 | the NER loop computes `MergeNer` |
| OptimizedClassifier.ExtractedSound | src/siwi/bot/optimized_bert_classifier.py:166-201 | rule-matched entities are never overwritten by NER output |
| OptimizedClassifier.KeywordsWin | src/siwi/bot/optimized_bert_classifier.py:203-239 | when a keyword group matches, the model is never consulted; with no match and no model, "fallback" |
| OptimizedClassifier.AgreesWithRules | src/siwi/bot/optimized_bert_classifier.py:209-216 | without "team" and "played for" and without a model verdict, both classifiers' chains agree |
| OptimizedClassifier.Get | src/siwi/bot/optimized_bert_classifier.py:148-164 | `{"entities": …, "intents": (intent,)}` |
| OptimizedClassifier.CreateClassifierChoice | src/siwi/bot/optimized_bert_classifier.py:301-318 | the fast classifier iff `use_fast`, no transformers, or the optimised constructor raises; otherwise the optimised one with `force_offline = prefer_offline` |
| Actions.Lookup | src/siwi/bot/actions/__init__.py:88-91 | a name is found iff the table has an entry for it, and the value is the first such entry's |
| Actions.LookupEntry | src/siwi/bot/actions/__init__.py:88-91 | in a table with one entry per name, as a loaded dictionary has, every entry is found under its name with its own value |
| Actions.InvertedEntry | src/siwi/bot/actions/__init__.py:72-77 | with distinct values, the inverted table maps each vid back to its name |
| Actions.Vid | src/siwi/bot/actions/__init__.py:87-95 | `_vid` succeeds iff the name is a player or a team, players checked first |
| Actions.NameOfVid | src/siwi/bot/actions/__init__.py:72-95 | `_name(_vid(n)) == n` for well-formed tables (one entry per name, distinct ids with their kind's prefix) |
| Actions.GetActionSound | src/siwi/bot/actions/__init__.py:19-48 | "find_similar" and "relationship" take priority over the map; other names give their configured class or the fallback; an empty intent list acts as "fallback" |
| Actions.ConstructionSound | src/siwi/bot/actions/__init__.py:132-207 | construction fails iff a vid lookup fails; otherwise the vids name back the entities |
| Actions.ErrorCheckDiscarded | src/siwi/bot/actions/__init__.py:148-275 | after a failed construction, the query `execute` builds from the id fields raises AttributeError (`left_vid` read before `right_vid`) instead of answering; after a successful one it is the query for the looked-up vids |
| Actions.ServeLineIgnoresEndYear | src/siwi/bot/actions/__init__.py:237-241 | the written serve line does not depend on the end year |
| Actions.ServeLineShowsEndYear | src/siwi/bot/actions/__init__.py:237-241 | the corrected serve line ends with the end year |
| Actions.ServePluralisation | src/siwi/bot/actions/__init__.py:242-246 | the serve answer says "teams" exactly when there is more than one row |
| Actions.FollowPluralisation | src/siwi/bot/actions/__init__.py:302-306 | the follow answer says "players" exactly when there is more than one row |
| Actions.ServeLinesLoop | src/siwi/bot/actions/__init__.py:234-241 | the loop builds one serve line per row, in order |
| Actions.ServeExecute | src/siwi/bot/actions/__init__.py:209-246 | corrected (see ## Findings): the answer is the serve outcome: error message, query failure, no teams, or the counted lines |
| Actions.FollowLinesLoop | src/siwi/bot/actions/__init__.py:295-301 | the loop builds one follow line per row, in order |
| Actions.FollowExecute | src/siwi/bot/actions/__init__.py:270-306 | corrected (see ## Findings): the answer is the follow outcome |
| Actions.PathTextOneEdge | src/siwi/bot/actions/__init__.py:174-180 | a one-edge path reads "start edges end" |
| Actions.EdgesTextStep | src/siwi/bot/actions/__init__.py:176-180 | one more edge appends its text |
| Actions.PathTextStep | src/siwi/bot/actions/__init__.py:176-180 | telling one more edge of a path appends that edge's type and target name |
| Actions.PathTextLoop | src/siwi/bot/actions/__init__.py:172-180 | the loop builds the path text: the start name, then each edge's name with "s" and the end name |
| Actions.ErrorAnswered | src/siwi/bot/actions/__init__.py:97-416 | the corrected actions answer the error message whenever construction failed |
| Actions.RelationshipExecute | src/siwi/bot/actions/__init__.py:147-185 | corrected (see ## Findings): the answer is the relationship outcome: error, query failure, no relationship, or the count and the first path |
| Actions.ImprovedRelationshipExecute | src/siwi/bot/actions/__init__.py:413-463 | the error message after a failed construction; otherwise the traditional answer, plus the GNN note when a similarity is given |
| Actions.ImprovedAnswerSound | src/siwi/bot/actions/__init__.py:447-463 | a failed query answers "图数据库查询失败: " followed by the query; no rows gives the no-path sentence naming both entities; otherwise the answer starts with the path count and ends with the first path's text |
| Actions.GnnNoteSound | src/siwi/bot/actions/__init__.py:421-432 | the GNN note only follows the traditional answer: without a similarity the answer is exactly the traditional one; with one it names both entities and ends with the score |
| AgentTools.FirstVid | src/siwi/agent/tools.py:93-96 | the first token starting with "player" or "team", and none iff no token does |
| AgentTools.ExtractedVidClean | src/siwi/agent/tools.py:91-96 | an extracted vid is non-empty, starts with "player"/"team", and holds no "?", "," or whitespace |
| Common.SplitWhitespaceTokens | src/siwi/agent/tools.py:92 | splitting text without a character gives non-empty, whitespace-free tokens without it |
| AgentTools.GraphRunGating | src/siwi/agent/tools.py:64-88 | disabled: "Graph backend disabled.", no sources, the adapter never called; an init error is quoted; no vid gives `graph_error` "missing_vid"; sources only come from a successful fetch of the extracted vid |
| AgentTools.GraphMetaKeys | src/siwi/agent/tools.py:65-87 | meta always has `tool`, `graph_enabled` and `graph_error`, at most `graph_vid` besides |
| AgentTools.GraphTool.constructor | src/siwi/agent/tools.py:57-62 | an adapter exists iff the backend is enabled and its construction succeeded; a failure is recorded as the init error |
| AgentTools.GraphTool.Run | src/siwi/agent/tools.py:64-88 | the output is `GraphRun` of the tool's state |
| AgentTools.TextRagForwards | src/siwi/agent/tools.py:44-47 | the corrected text tool fails iff the pipeline does, passes answer and sources through, and adds only `tool` to the meta |
| AgentTools.TextRagAsWrittenFails | src/siwi/agent/tools.py:45 | the written text tool always raises, where the corrected one answers |
| AgentRunner.DetectIntent | src/siwi/agent/runner.py:10-14 | the intent is "graph" or "text" |
| AgentRunner.DetectIntentSound | src/siwi/agent/runner.py:7-14 | "graph" iff the lower-cased message contains graph, neighbor or path ("subgraph" contains "graph") |
| AgentRunner.AgentRouting | src/siwi/agent/runner.py:25-50 | corrected (see ## Findings): the graph tool answers iff the intent is "graph" and the backend is enabled; otherwise the text tool's answer and sources |
| AgentRunner.AssembledTrace | src/siwi/agent/runner.py:18-57 | the trace has two steps: "classify_intent" with the message and intent, then the tool call with the first 160 characters of the answer and the source count |
| AgentRunner.AssembledMeta | src/siwi/agent/runner.py:39-65 | the agent's entries, overridden key by key by the tool's meta |
| AgentRunner.AssembledGraphMeta | src/siwi/agent/runner.py:39-46 | with the graph tool's meta, the result reports mode and tool "graph_rag", the client class, and version "lite-1" |
| AgentRunner.AgentGraphMeta | src/siwi/agent/runner.py:30-47 | on the graph route the meta reports intent "graph", the backend enabled, version "lite-1", mode and tool "graph_rag" |
| AgentRunner.AssembledTextMeta | src/siwi/agent/runner.py:58-65 | with the text tool's meta, the pipeline's provider overrides the class name |
| AgentRunner.AgentTextMeta | src/siwi/agent/runner.py:49-66 | corrected (see ## Findings): on the text route the meta reports mode and tool "text_rag" and the pipeline's provider name |
| AgentRunner.RunAgent | src/siwi/agent/runner.py:17-66 | corrected (see ## Findings): the method's result is the agent function's |
| AgentRunner.Finish | src/siwi/agent/runner.py:32-66 | the second step and the meta are assembled from the first step and the tool's outcome |
| LlmClient.NewGeminiClient | src/siwi/rag/llm_client.py:38-51 | the Gemini client is built iff the library is installed and the key is non-empty |
| LlmClient.BuildLlmClient | src/siwi/rag/llm_client.py:69-82 | a client results iff the lower-cased provider is "mock" with mocks allowed, or "gemini" with a key (and the library); the mock prefix is "[DEMO MODE] "; the model defaults to "gemini-1.5-flash-002" |
| LlmClient.BuildLlmClientErrors | src/siwi/rag/llm_client.py:71-82 | each error case raises its own message, an unknown provider being named |
| LlmClient.ProviderCaseInsensitive | src/siwi/rag/llm_client.py:71 | the provider is read case-insensitively, None as "" |
| LlmClient.Highlights | src/siwi/rag/llm_client.py:28-30 | one `[title] text` highlight per chunk, in order |
| LlmClient.MockAnswerShape | src/siwi/rag/llm_client.py:23-32 | the reply starts with the prefix; with no context it ends with the query; otherwise it holds at most 800 characters of highlights, starting with the first |
| LlmClient.MockGenerate | src/siwi/rag/llm_client.py:23-32 | corrected (see ## Findings): the loop gives the mock reply |
| LlmClient.PromptShape | src/siwi/rag/llm_client.py:54-59 | corrected (see ## Findings): the prompt is the question line, then "Context:" and one line per chunk when there is context |
| LlmClient.BuildPrompt | src/siwi/rag/llm_client.py:54-59 | corrected (see ## Findings): the loop builds the prompt |
| LlmClient.Generate | src/siwi/rag/llm_client.py:23-66 | corrected (see ## Findings): the mock answers its reply; Gemini answers the remote reply to the prompt, failing exactly when the remote call does |
| LlmClient.GenerateAsWrittenDiffers | src/siwi/rag/llm_client.py:30-58 | the written clients agree on empty context and raise on any other, where the corrected mock answers |
| RagPipeline.Context | src/siwi/rag/pipeline.py:17-28 | one chunk per source, in order |
| RagPipeline.BuildContext | src/siwi/rag/pipeline.py:17-28 | the loop builds that context |
| RagPipeline.ContextSound | src/siwi/rag/pipeline.py:20-26 | title and text default to "", a given `doc_id` is kept, and defaulted ids `"src-{idx}"` are distinct |
| RagPipeline.Snippets | src/siwi/rag/pipeline.py:64 | one snippet per source |
| RagPipeline.FallbackAnswerSound | src/siwi/rag/pipeline.py:61-65 | the fixed not-found message iff there are no sources; otherwise the query and the snippets |
| RagPipeline.RunSound | src/siwi/rag/pipeline.py:30-59 | corrected (see ## Findings): only a Gemini remote failure raises; otherwise sources pass through, meta is {mode "text_rag", top_k, provider, llm_error}, and with no sources the answer is never empty |
| RagPipeline.UnconfiguredFallback | src/siwi/rag/pipeline.py:34-36 | without a client the fallback answer is used and the provider is "unconfigured" |
| RagPipeline.MockMarkedOnce | src/siwi/rag/pipeline.py:38-42 | corrected (see ## Findings): a mock answer starts with "[DEMO MODE]" and is not prefixed twice |
| Settings.BoolEnv | src/siwi/api/settings.py:8-12 | the default when unset |
| Settings.BoolEnvIgnoresDefault | src/siwi/api/settings.py:12 | a set value is true iff its lower-case form is in {"1","true","yes","on"}, whatever the default |
| Settings.ParseInt | src/siwi/api/settings.py:19-22 | only an optionally signed digit string parses |
| Settings.ParseUnsigned | src/siwi/api/settings.py:20 | a digit string parses to its value |
| Settings.ParseNegative | src/siwi/api/settings.py:20 | "-digits" parses to minus the value |
| Settings.ParseIntRoundTrip | src/siwi/api/settings.py:19-20 | `int(str(i)) == i` |
| Settings.IntEnv | src/siwi/api/settings.py:15-22 | the default when unset or unparsable |
| Settings.IntEnvRoundTrip | src/siwi/api/settings.py:15-20 | a set integer is read back |
| Settings.LoadEmpty | src/siwi/api/settings.py:32-51 | an empty environment gives the declared defaults: debug on, host 0.0.0.0, port 5000, top-k 4, provider "gemini" without a key, model "gemini-1.5-flash-002", mock and features off |
| Settings.FeaturesOffByDefault | src/siwi/api/settings.py:46-51 | each feature flag is on iff its variable is set to a true word |
| Settings.ApiKeyFallback | src/siwi/api/settings.py:45 | `LLM_API_KEY` when non-empty, else `GEMINI_API_KEY` |

## Left out

- The NebulaGraph session layer and the nGQL text. Query responses come from the `Graph` value; action queries take their outcome as a parameter (`Query`).
- Floating-point and model code: torch tensors become sequences of `real`; the GNN models, cosine similarity, the TF-IDF retriever and the zero-shot and NER pipelines are left out. Retrieval results, NER output, the model's intent verdict and the similarity text are parameters.
- `BertClassifier.ExtractEntities`: only light mode is modelled; the full mode's NER branch is modelled in `OptimizedClassifier`. The confidence thresholds (0.3 and 0.4) are folded into whether the model gives a verdict.
- `OptimizedClassifier.ExtractEntities`: a NER failure part-way through the loop is modelled as no NER output at all.
- Character handling is ASCII: lower-casing, title-casing and whitespace follow ASCII rules, not Python's Unicode tables.
- PathFinding.ParseHops: `\d` matches ASCII digits only; Python's `\d` and `int()` also take other Unicode decimal digits, such as the full-width "３" in "３度", which Python reads as 3 hops where the model falls back to 2.
- RemoteBackend.OverwriteLast: of two writes to one row in an indexed put, the later wins in the model; torch leaves the order of duplicate indices in `index_put_` undefined.
- RemoteBackend.Write: scalar (0-D) sources and dtype conversion are not modelled; the broadcast covers 1-D and 2-D sources.
- `SiwiActions.load_data`, `load_test_data` (YAML) and the directory listing of `DocLoader.load` are not modelled; the tables and the sorted file listing are parameters.
- PygIntegration.NebulaToTorch.GetSubgraph: the neighbour loader's result is a parameter (`loadedIds`, its `node_ids`); the dictionary of `num_nodes`, `features`, `edge_index` and `node_ids` that `get_subgraph` returns is not modelled, and the method returns the centre indices passed to the loader.
- `GraphAdapter.fetch_subgraph_summary` is a parameter (`Fetch`), and the Gemini network call is a parameter (`Remote`).
- The GNN action's answer text and `FallbackAction`'s fixed help text are not modelled.
- `.env` loading and import-time evaluation of the settings are not modelled; the environment is a map.
- Settings.ParseInt: Python's `int()` also accepts surrounding whitespace and digit underscores; the model accepts only an optional sign followed by decimal digits.
- Path handling is reduced to file names: stems and suffixes are taken from the name as given, without directory normalisation.
- Sampler.SubgraphSampler.GetNodeFeatures: a fetch row's embedding is kept as an opaque real; `float()` conversion is not modelled.
- Concurrency and connection-pool capacity are not modelled; the pool only counts checked-out sessions.

## Findings

| source | as written | input that shows it | evidently intended | confidence | as-written member | corrected member |
|---|---|---|---|---|---|---|
| src/siwi/bot/actions/__init__.py:148 | the relationship `execute` (and the serve and follow ones at lines 210 and 271) calls `_error_check()` and discards its answer, then reads id fields a failed constructor never set | a serve question naming no known player: `execute` raises AttributeError | return the error message when construction failed, as `ImprovedRelationshipAction` does | not executed | Actions.ErrorCheckDiscarded | Actions.ErrorAnswered |
| src/siwi/bot/actions/__init__.py:239-240 | the serve line prints `start_year` after both "from" and "to" | a serve row 1997–2016 prints "from 1997 to 1997" | print the end year after "to" | not executed | Actions.ServeLineIgnoresEndYear | Actions.ServeLineShowsEndYear |
| src/siwi/rag/llm_client.py:30 | the mock client (and the Gemini client at line 58) reads `chunk.content`; document chunks have `text` | any non-empty retrieval: `generate` raises AttributeError | read `chunk.text` | not executed | LlmClient.GenerateAsWrittenDiffers | LlmClient.MockAnswerShape |
| src/siwi/agent/tools.py:45 | `TextRagTool.run` calls `pipeline.answer`, which the pipeline does not define | any text-routed agent request raises AttributeError | call `pipeline.run` and unpack its answer, sources and meta | not executed | AgentTools.TextRagAsWrittenFails | AgentTools.TextRagForwards |
