/** The subgraph sampler: an object holding the dense numbering, the typed
    edge lists and the vertex types of the last sampled subgraph, whose
    operations are proved to compute what the functions of `SamplerSpec`
    describe. */
module Sampler {
  import opened Common
  import opened IdRegistry
  import opened SamplerSpec

  /** The connection pool: the graph its sessions reach, and how many
      sessions are checked out. */
  class ConnectionPool {
    const graph: Graph
    var checkedOut: nat

    constructor(graph: Graph)
      ensures this.graph == graph && checkedOut == 0
    {
      this.graph := graph;
      checkedOut := 0;
    }

    method GetSession()
      modifies this
      ensures checkedOut == old(checkedOut) + 1
    {
      checkedOut := checkedOut + 1;
    }

    method Release()
      requires checkedOut > 0
      modifies this
      ensures checkedOut == old(checkedOut) - 1
    {
      checkedOut := checkedOut - 1;
    }
  }

  /** A PyG `Data` object: one feature and one type code per vertex. */
  datatype PygData = PygData(
    x: seq<real>,
    edgeIndex: seq<Column>,
    nodeType: seq<int>,
    centerNodeIdx: nat,
    vidToIdx: map<string, nat>,
    idxToVid: seq<string>)

  class SubgraphSampler {
    const pool: ConnectionPool
    var vidToIdx: map<string, nat>
    var idxToVid: seq<string>
    var edgeIndices: map<string, seq<Column>>
    var nodeTypes: map<string, string>

    function Reg(): Registry
      reads this
    {
      Registry(vidToIdx, idxToVid)
    }

    /** The numbering's two directions agree. */
    predicate Numbered()
      reads this
    {
      Valid(Reg())
    }

    constructor(pool: ConnectionPool)
      ensures this.pool == pool && Numbered()
      ensures vidToIdx == map[] && idxToVid == [] && edgeIndices == map[] && nodeTypes == map[]
    {
      this.pool := pool;
      vidToIdx := map[];
      idxToVid := [];
      edgeIndices := map[];
      nodeTypes := map[];
    }

    /** `_get_vid_idx`: the index of `vid`, numbering it first if it is new. */
    method GetVidIdx(vid: string) returns (idx: nat)
      modifies this
      ensures (Reg(), idx) == Add(old(Reg()), vid)
      ensures edgeIndices == old(edgeIndices) && nodeTypes == old(nodeTypes)
    {
      if vid !in vidToIdx {
        var next := |idxToVid|;
        vidToIdx := vidToIdx[vid := next];
        idxToVid := idxToVid + [vid];
      }
      idx := vidToIdx[vid];
    }

    /** `_create_edge_index`: numbers the edges' endpoints, stores each type's
        column list, and returns the lists concatenated in type order. */
    method CreateEdgeIndex(edges: seq<EdgeRow>, bidirectional: bool) returns (index: seq<Column>)
      requires Numbered()
      modifies this
      ensures Numbered()
      ensures var gr := GroupEdges(Grouping(old(Reg()), [], map[]), edges, bidirectional);
        Reg() == gr.reg && edgeIndices == old(edgeIndices) + gr.groups &&
        index == IndexFrom(old(Reg()), edges, bidirectional)
      ensures nodeTypes == old(nodeTypes)
    {
      GroupEdgesWell(Grouping(Reg(), [], map[]), edges, bidirectional);
      if edges == [] {
        assert edgeIndices == old(edgeIndices) + map[];
        return [];
      }
      GroupEdgesValid(Grouping(Reg(), [], map[]), edges, bidirectional);
      var order, groups := NumberEdges(edges, bidirectional);
      StoreGroups(order, groups);
      index := MergeGroups(order, groups);
    }

    /** The loop of `_create_edge_index` over the edges: each endpoint
        numbered, each edge's columns appended to its type's list. */
    method NumberEdges(edges: seq<EdgeRow>, bidirectional: bool) returns (order: seq<string>, groups: map<string, seq<Column>>)
      modifies this
      ensures Grouping(Reg(), order, groups) == GroupEdges(Grouping(old(Reg()), [], map[]), edges, bidirectional)
      ensures edgeIndices == old(edgeIndices) && nodeTypes == old(nodeTypes)
    {
      ghost var start := Grouping(Reg(), [], map[]);
      ghost var gr := start;
      order := [];
      groups := map[];
      var i := 0;
      while i < |edges|
        invariant 0 <= i <= |edges|
        invariant gr == GroupEdges(start, edges[..i], bidirectional)
        invariant gr == Grouping(Reg(), order, groups)
        invariant edgeIndices == old(edgeIndices) && nodeTypes == old(nodeTypes)
      {
        order, groups := NumberEdge(edges[i], bidirectional, order, groups);
        GroupEdgesStep(start, edges, i, bidirectional);
        gr := GroupEdge(gr, edges[i], bidirectional);
        i := i + 1;
      }
      assert edges[..i] == edges;
    }

    /** One edge of that loop. */
    method NumberEdge(e: EdgeRow, bidirectional: bool, order: seq<string>, groups: map<string, seq<Column>>)
      returns (order': seq<string>, groups': map<string, seq<Column>>)
      modifies this
      ensures Grouping(Reg(), order', groups') == GroupEdge(Grouping(old(Reg()), order, groups), e, bidirectional)
      ensures edgeIndices == old(edgeIndices) && nodeTypes == old(nodeTypes)
    {
      ghost var before := Grouping(Reg(), order, groups);
      ghost var a := Add(before.reg, e.src);
      var s := GetVidIdx(e.src);
      assert Reg() == a.0 && s == a.1;
      ghost var b := Add(a.0, e.dst);
      var d := GetVidIdx(e.dst);
      assert Reg() == b.0 && d == b.1;
      if e.edgeType in groups {
        order', groups' := order, groups[e.edgeType := groups[e.edgeType] + EdgeColumns(s, d, bidirectional)];
      } else {
        assert [] + EdgeColumns(s, d, bidirectional) == EdgeColumns(s, d, bidirectional);
        order', groups' := order + [e.edgeType], groups[e.edgeType := EdgeColumns(s, d, bidirectional)];
      }
    }

    /** The loop of `_create_edge_index` storing each type's list on the
        sampler. */
    method StoreGroups(order: seq<string>, groups: map<string, seq<Column>>)
      requires TypesListed(order, groups)
      modifies this
      ensures edgeIndices == old(edgeIndices) + groups
      ensures Reg() == old(Reg()) && nodeTypes == old(nodeTypes)
    {
      var k := 0;
      while k < |order|
        invariant 0 <= k <= |order|
        invariant edgeIndices == old(edgeIndices) + (map t | t in groups && t in order[..k] :: groups[t])
        invariant Reg() == old(Reg()) && nodeTypes == old(nodeTypes)
      {
        assert order[..k + 1] == order[..k] + [order[k]];
        edgeIndices := edgeIndices[order[k] := groups[order[k]]];
        k := k + 1;
      }
      assert order[..k] == order;
      assert (map t | t in groups && t in order :: groups[t]) == groups;
    }

    /** The per-type lists concatenated in type order. */
    static method MergeGroups(order: seq<string>, groups: map<string, seq<Column>>) returns (index: seq<Column>)
      requires forall k | 0 <= k < |order| :: order[k] in groups
      ensures index == Merged(order, groups)
    {
      index := [];
      var k := 0;
      while k < |order|
        invariant 0 <= k <= |order|
        invariant index + Merged(order[k..], groups) == Merged(order, groups)
      {
        assert order[k..][1..] == order[k + 1..];
        index := index + groups[order[k]];
        k := k + 1;
      }
    }

    /** `_get_subgraph_using_go`: the centre and its type, then for each hop
        the rows of a successful answer until the node budget is met. */
    method GetSubgraphUsingGo(center: string, nHops: int, maxNodes: int) returns (nodes: seq<string>, edges: seq<EdgeRow>)
      modifies this
      ensures var s := GoSample(pool.graph, old(nodeTypes), center, nHops, maxNodes);
        IsEnumeration(nodes, s.nodes) && edges == s.edges && nodeTypes == s.types
      ensures Reg() == old(Reg()) && edgeIndices == old(edgeIndices)
    {
      var g := pool.graph;
      var nodeSet := {center};
      edges := [];
      var first := g.firstLabel(center);
      if first.Some? {
        nodeTypes := nodeTypes[center := first.value];
      }
      ghost var goal := GoSample(g, old(nodeTypes), center, nHops, maxNodes);
      var hop := 1;
      while hop <= nHops
        invariant GoHops(g, center, Sample(nodeSet, edges, nodeTypes), hop, nHops, maxNodes) == goal
        invariant Reg() == old(Reg()) && edgeIndices == old(edgeIndices)
        decreases nHops - hop + 1
      {
        var resp := g.goStep(center, hop);
        if resp.succeeded {
          ghost var s0 := Sample(nodeSet, edges, nodeTypes);
          var i := 0;
          var full := false;
          while i < |resp.rows| && !full
            invariant 0 <= i <= |resp.rows|
            invariant !full ==> GoRows(g, Sample(nodeSet, edges, nodeTypes), resp.rows[i..], maxNodes) == GoRows(g, s0, resp.rows, maxNodes)
            invariant full ==> Sample(nodeSet, edges, nodeTypes) == GoRows(g, s0, resp.rows, maxNodes)
            invariant Reg() == old(Reg()) && edgeIndices == old(edgeIndices)
          {
            var row := resp.rows[i];
            assert resp.rows[i..][1..] == resp.rows[i + 1..];
            nodeSet := nodeSet + {row.src, row.dst};
            edges := edges + [row];
            if row.dst !in nodeTypes {
              var l := g.firstLabel(row.dst);
              if l.Some? {
                nodeTypes := nodeTypes[row.dst := l.value];
              }
            }
            full := |nodeSet| >= maxNodes;
            i := i + 1;
          }
          if |nodeSet| >= maxNodes {
            break;
          }
        }
        hop := hop + 1;
      }
      nodes := ListOf(nodeSet);
    }

    /** `_get_subgraph_using_subgraph`: one GET SUBGRAPH query whose rows are
        taken until the node budget is met; a vertex without tags makes the
        call fail. */
    method GetSubgraphUsingSubgraph(center: string, nHops: int, maxNodes: int) returns (r: Result<(seq<string>, seq<EdgeRow>)>)
      modifies this
      ensures match BulkSample(pool.graph, old(nodeTypes), center, nHops, maxNodes)
        case Err(e) => r == Err(e)
        case Ok(s) => r.Ok? && IsEnumeration(r.value.0, s.nodes) && r.value.1 == s.edges && nodeTypes == s.types
      ensures Reg() == old(Reg()) && edgeIndices == old(edgeIndices)
    {
      var g := pool.graph;
      var nodeSet := {center};
      var edges: seq<EdgeRow> := [];
      var resp := g.subgraph(center, nHops);
      if resp.succeeded {
        ghost var s0 := Sample(nodeSet, edges, nodeTypes);
        var i := 0;
        var full := false;
        while i < |resp.rows| && !full
          invariant 0 <= i <= |resp.rows|
          invariant !full ==> BulkRows(Sample(nodeSet, edges, nodeTypes), resp.rows[i..], maxNodes) == BulkRows(s0, resp.rows, maxNodes)
          invariant full ==> Ok(Sample(nodeSet, edges, nodeTypes)) == BulkRows(s0, resp.rows, maxNodes)
          invariant Reg() == old(Reg()) && edgeIndices == old(edgeIndices)
        {
          var row := resp.rows[i];
          assert resp.rows[i..][1..] == resp.rows[i + 1..];
          if row.vertex.Some? {
            var v := row.vertex.value;
            if v.tags == [] {
              return Err("IndexError: list index out of range");
            }
            nodeSet := nodeSet + {v.vid};
            nodeTypes := nodeTypes[v.vid := v.tags[0]];
          }
          if row.edge.Some? {
            var e := row.edge.value;
            nodeSet := nodeSet + {e.src, e.dst};
            edges := edges + [e];
          }
          full := |nodeSet| >= maxNodes;
          i := i + 1;
        }
      }
      var nodes := ListOf(nodeSet);
      r := Ok((nodes, edges));
    }

    /** `_get_node_features`: groups the vertices by type, then fetches each
        known type's vertices in batches of at most 100, keeping the name and
        the embedding of every returned row. */
    method GetNodeFeatures(nodeVids: seq<string>) returns (features: map<string, NodeFeature>)
      ensures features == NodeFeatures(pool.graph, nodeTypes, nodeVids)
    {
      var order, groups := GroupVids(nodeTypes, nodeVids);
      GroupByTypeShape(nodeTypes, nodeVids);
      features := FetchTypes(pool.graph, order, groups);
    }

    /** The loop of `_get_node_features` over the types, "unknown" skipped. */
    static method FetchTypes(g: Graph, order: seq<string>, groups: map<string, seq<string>>)
      returns (features: map<string, NodeFeature>)
      requires forall k | 0 <= k < |order| :: order[k] in groups
      ensures features == Fetch(g, map[], Requests(order, groups))
    {
      features := map[];
      var k := 0;
      while k < |order|
        invariant 0 <= k <= |order|
        invariant Fetch(g, features, Requests(order[k..], groups)) == Fetch(g, map[], Requests(order, groups))
      {
        var t := order[k];
        assert order[k..][1..] == order[k + 1..];
        ghost var rest := Requests(order[k + 1..], groups);
        ghost var mine := if t == "unknown" then [] else TypeRequests(t, groups[t]);
        assert Requests(order[k..], groups) == mine + rest;
        ghost var f0 := features;
        if t != "unknown" {
          features := FetchBatches(g, features, t, groups[t]);
        }
        FetchAppend(g, f0, mine, rest);
        k := k + 1;
      }
    }

    /** The grouping loop of `_get_node_features`. */
    static method GroupVids(types: map<string, string>, vids: seq<string>) returns (order: seq<string>, groups: map<string, seq<string>>)
      ensures ByType(order, groups) == GroupByType(types, vids)
    {
      order := [];
      groups := map[];
      var i := 0;
      while i < |vids|
        invariant 0 <= i <= |vids|
        invariant ByType(order, groups) == GroupByType(types, vids[..i])
      {
        var v := vids[i];
        var t := if v in types then types[v] else "unknown";
        if t in groups {
          groups := groups[t := groups[t] + [v]];
        } else {
          groups := groups[t := [v]];
          order := order + [t];
        }
        assert vids[..i + 1][..i] == vids[..i] && vids[..i + 1][i] == v;
        i := i + 1;
      }
      assert vids[..i] == vids;
    }

    /** The batch loop of `_get_node_features` for one type. */
    static method FetchBatches(g: Graph, features: map<string, NodeFeature>, t: string, vids: seq<string>)
      returns (features': map<string, NodeFeature>)
      ensures features' == Fetch(g, features, TypeRequests(t, vids))
    {
      features' := features;
      var j := 0;
      while j < |vids|
        invariant 0 <= j <= |vids|
        invariant Fetch(g, features', TypeRequests(t, vids[j..])) == Fetch(g, features, TypeRequests(t, vids))
      {
        var end := Min(j + 100, |vids|);
        var batch := vids[j..end];
        if |vids| - j > 100 {
          assert vids[j..][..100] == batch;
          assert vids[j..][100..] == vids[end..];
        } else {
          assert vids[j..] == batch && vids[end..] == [];
        }
        assert TypeRequests(t, vids[j..]) == [(t, batch)] + TypeRequests(t, vids[end..]);
        var resp := g.fetch(t, batch);
        if resp.succeeded {
          features' := ApplyResponse(features', resp.rows);
        }
        j := end;
      }
      assert vids[j..] == [];
    }

    /** The row loop of `_get_node_features` for one answer. */
    static method ApplyResponse(features: map<string, NodeFeature>, rows: seq<FetchRow>)
      returns (features': map<string, NodeFeature>)
      ensures features' == ApplyRows(features, rows)
    {
      features' := features;
      var r := 0;
      while r < |rows|
        invariant 0 <= r <= |rows|
        invariant ApplyRows(features', rows[r..]) == ApplyRows(features, rows)
      {
        var row := rows[r];
        assert rows[r..][1..] == rows[r + 1..];
        var name := "";
        if row.name.StringValue? {
          name := row.name.s;
        }
        var embedding: Option<real> := None;
        if row.embedding.DoubleValue? {
          embedding := Some(row.embedding.d);
        } else if row.embedding.IntValue? {
          embedding := Some(row.embedding.i as real);
        }
        features' := features'[row.vid := NodeFeature(name, embedding)];
        r := r + 1;
      }
    }

    /** `sample_subgraph`: resets all four tables, takes a session, collects
        the subgraph by GO (at most two hops) or GET SUBGRAPH, numbers and
        groups its edges, fetches features, and releases the session on every
        path. The result depends only on the graph and the arguments;
        `nodeOrder` is the order in which the collected vertex set was
        listed. */
    method SampleSubgraph(center: string, nHops: int, bidirectional: bool, maxNodes: int)
      returns (r: Result<Subgraph>, ghost nodeOrder: seq<string>)
      modifies this, pool
      ensures pool.checkedOut == old(pool.checkedOut)
      ensures match Collect(pool.graph, center, nHops, maxNodes)
        case Err(e) => r == Err(e)
        case Ok(s) => IsEnumeration(nodeOrder, s.nodes) && r == Ok(Assemble(pool.graph, s, center, bidirectional, nodeOrder))
      ensures r.Ok? ==>
        Reg() == Registry(r.value.vidToIdx, r.value.idxToVid) &&
        nodeTypes == r.value.nodeTypes && edgeIndices == r.value.edgeIndicesByType
      ensures Numbered()
    {
      vidToIdx := map[];
      idxToVid := [];
      edgeIndices := map[];
      nodeTypes := map[];
      pool.GetSession();
      var collected := CollectSample(center, nHops, maxNodes);
      if collected.Err? {
        pool.Release();
        return Err(collected.error), [];
      }
      ghost var s := Collect(pool.graph, center, nHops, maxNodes).value;
      nodeOrder := collected.value.0;
      var sg := BuildSubgraph(center, bidirectional, collected.value.0, collected.value.1, s);
      r := Ok(sg);
      pool.Release();
    }

    /** The second half of `sample_subgraph`: from the collected vertices
        and edges of sample `s`, number and group the edges, fetch the
        features and assemble the result. */
    method BuildSubgraph(center: string, bidirectional: bool, nodes: seq<string>, edges: seq<EdgeRow>, ghost s: Sample)
      returns (sg: Subgraph)
      requires Reg() == Empty && edgeIndices == map[]
      requires edges == s.edges && nodeTypes == s.types
      modifies this
      ensures sg == Assemble(pool.graph, s, center, bidirectional, nodes)
      ensures Reg() == Registry(sg.vidToIdx, sg.idxToVid) && Numbered()
      ensures nodeTypes == sg.nodeTypes && edgeIndices == sg.edgeIndicesByType
    {
      assert Grouping(Reg(), [], map[]) == NoGroups;
      var index := CreateEdgeIndex(edges, bidirectional);
      UpdateEmpty(GroupEdges(NoGroups, edges, bidirectional).groups);
      var features := GetNodeFeatures(nodes);
      var centerIdx := if center in vidToIdx then vidToIdx[center] else 0;
      sg := Subgraph(centerIdx, index, |idxToVid|, vidToIdx, idxToVid, nodeTypes, edgeIndices, features);
    }

    /** The strategy choice of `sample_subgraph`: GO queries for at most two
        hops, one GET SUBGRAPH query beyond. */
    method CollectSample(center: string, nHops: int, maxNodes: int) returns (r: Result<(seq<string>, seq<EdgeRow>)>)
      requires nodeTypes == map[]
      modifies this
      ensures match Collect(pool.graph, center, nHops, maxNodes)
        case Err(e) => r == Err(e)
        case Ok(s) => r.Ok? && IsEnumeration(r.value.0, s.nodes) && r.value.1 == s.edges && nodeTypes == s.types
      ensures Reg() == old(Reg()) && edgeIndices == old(edgeIndices)
    {
      if nHops <= 2 {
        var nodes, edges := GetSubgraphUsingGo(center, nHops, maxNodes);
        r := Ok((nodes, edges));
      } else {
        r := GetSubgraphUsingSubgraph(center, nHops, maxNodes);
      }
    }

    /** `convert_to_pyg_data`: one feature per vertex, its embedding or 0.0,
        and one type code per vertex, 1 for a "team" and 0 otherwise, both
        read from the sampler's own tables; nothing when PyG is missing. */
    method ConvertToPygData(sg: Subgraph, pygInstalled: bool) returns (data: Option<PygData>)
      requires |sg.idxToVid| <= sg.numNodes
      ensures pygInstalled <==> data.Some?
      ensures data.Some? ==>
        var d := data.value;
        |d.x| == sg.numNodes && |d.nodeType| == sg.numNodes &&
        (forall i | 0 <= i < sg.numNodes ::
          d.x[i] == (if i < |sg.idxToVid| && sg.idxToVid[i] in sg.nodeFeatures && sg.nodeFeatures[sg.idxToVid[i]].embedding.Some?
                     then sg.nodeFeatures[sg.idxToVid[i]].embedding.value else 0.0)) &&
        (forall i | 0 <= i < sg.numNodes ::
          d.nodeType[i] == (if i < |sg.idxToVid| && TypeOf(nodeTypes, sg.idxToVid[i]) == "team" then 1 else 0)) &&
        d.edgeIndex == sg.edgeIndex && d.centerNodeIdx == sg.centerNodeIdx &&
        d.vidToIdx == sg.vidToIdx && d.idxToVid == sg.idxToVid
    {
      if !pygInstalled {
        return None;
      }
      var x := seq(sg.numNodes, _ => 0.0);
      var i := 0;
      while i < |sg.idxToVid|
        invariant 0 <= i <= |sg.idxToVid| && |x| == sg.numNodes
        invariant forall j | 0 <= j < sg.numNodes ::
          x[j] == (if j < i && sg.idxToVid[j] in sg.nodeFeatures && sg.nodeFeatures[sg.idxToVid[j]].embedding.Some?
                   then sg.nodeFeatures[sg.idxToVid[j]].embedding.value else 0.0)
      {
        var vid := sg.idxToVid[i];
        if vid in sg.nodeFeatures && sg.nodeFeatures[vid].embedding.Some? {
          x := x[i := sg.nodeFeatures[vid].embedding.value];
        }
        i := i + 1;
      }
      var nodeType := seq(sg.numNodes, _ => 0);
      i := 0;
      while i < |sg.idxToVid|
        invariant 0 <= i <= |sg.idxToVid| && |nodeType| == sg.numNodes
        invariant forall j | 0 <= j < sg.numNodes ::
          nodeType[j] == (if j < i && TypeOf(nodeTypes, sg.idxToVid[j]) == "team" then 1 else 0)
      {
        var vid := sg.idxToVid[i];
        nodeType := nodeType[i := 0];
        if vid in nodeTypes {
          if nodeTypes[vid] == "player" {
            nodeType := nodeType[i := 0];
          } else if nodeTypes[vid] == "team" {
            nodeType := nodeType[i := 1];
          }
        }
        i := i + 1;
      }
      data := Some(PygData(x, sg.edgeIndex, nodeType, sg.centerNodeIdx, sg.vidToIdx, sg.idxToVid));
    }
  }
}
