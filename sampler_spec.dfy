/** What one call of the subgraph sampler yields, as functions of the graph
    database's answers: the vertices and edges collected under the node budget,
    the dense numbering and the typed edge groups built from them, and the
    feature requests made for the collected vertices. */
module SamplerSpec {
  import opened Common
  import opened IdRegistry

  // ------------------------------------------------------------- the database

  /** One row of a GO query: an edge with its endpoints and its type. */
  datatype EdgeRow = EdgeRow(src: string, dst: string, edgeType: string)

  /** A vertex as GET SUBGRAPH returns it: its id and its tags. */
  datatype Vertex = Vertex(vid: string, tags: seq<string>)

  /** One row of a GET SUBGRAPH answer: maybe a vertex in its first column,
      maybe an edge in its second. */
  datatype BulkRow = BulkRow(vertex: Option<Vertex>, edge: Option<EdgeRow>)

  /** A property value as FETCH PROP returns it. */
  datatype PropValue = EmptyValue | StringValue(s: string) | DoubleValue(d: real) | IntValue(i: int) | OtherValue

  /** One row of a FETCH PROP answer: vertex id, `name`, `embedding1`. */
  datatype FetchRow = FetchRow(vid: string, name: PropValue, embedding: PropValue)

  datatype Response<T> = Response(succeeded: bool, rows: seq<T>)

  /** The graph space as seen through a session: the answer to each query the
      sampler sends. */
  datatype Graph = Graph(
    // MATCH (v) ... RETURN labels(v): the first label, when the query succeeds with one
    firstLabel: string -> Option<string>,
    // GO hop STEPS FROM center OVER *
    goStep: (string, int) -> Response<EdgeRow>,
    // GET SUBGRAPH n STEPS FROM center
    subgraph: (string, int) -> Response<BulkRow>,
    // FETCH PROP ON tag vids
    fetch: (string, seq<string>) -> Response<FetchRow>)

  // ------------------------------------------------------ collecting vertices

  /** The vertex set, the edge list and the vertex types gathered so far. */
  datatype Sample = Sample(nodes: set<string>, edges: seq<EdgeRow>, types: map<string, string>)

  /** Every endpoint of a collected edge is a collected vertex. */
  predicate Closed(s: Sample) {
    forall k | 0 <= k < |s.edges| :: s.edges[k].src in s.nodes && s.edges[k].dst in s.nodes
  }

  /** Room is left under the budget, or only the centre has been collected:
      the state in which a further row is still taken. */
  predicate Open(s: Sample, maxNodes: int) {
    |s.nodes| < maxNodes || |s.nodes| <= 1
  }

  /** The centre, typed by its first label when it has one. */
  function GoStart(g: Graph, types: map<string, string>, center: string): Sample {
    Sample({center}, [], match g.firstLabel(center) case Some(t) => types[center := t] case None => types)
  }

  /** One GO row: both endpoints and the edge are taken; the destination is
      typed unless it already has a type. */
  function GoRow(g: Graph, s: Sample, row: EdgeRow): Sample {
    Sample(s.nodes + {row.src, row.dst}, s.edges + [row],
           if row.dst !in s.types && g.firstLabel(row.dst).Some? then s.types[row.dst := g.firstLabel(row.dst).value]
           else s.types)
  }

  /** The rows of one hop, stopping after the row that fills the budget. */
  function GoRows(g: Graph, s: Sample, rows: seq<EdgeRow>, maxNodes: int): Sample
    decreases |rows|
  {
    if rows == [] then s
    else
      var s' := GoRow(g, s, rows[0]);
      if |s'.nodes| >= maxNodes then s' else GoRows(g, s', rows[1..], maxNodes)
  }

  /** Hops `hop`..`nHops`: a hop whose query fails adds nothing, and the
      walk ends once the budget is met. */
  function GoHops(g: Graph, center: string, s: Sample, hop: int, nHops: int, maxNodes: int): Sample
    decreases nHops - hop + 1
  {
    if hop > nHops then s
    else
      var resp := g.goStep(center, hop);
      if !resp.succeeded then GoHops(g, center, s, hop + 1, nHops, maxNodes)
      else
        var s' := GoRows(g, s, resp.rows, maxNodes);
        if |s'.nodes| >= maxNodes then s' else GoHops(g, center, s', hop + 1, nHops, maxNodes)
  }

  /** The hop-by-hop strategy, starting from the given vertex types. */
  function GoSample(g: Graph, types: map<string, string>, center: string, nHops: int, maxNodes: int): Sample {
    GoHops(g, center, GoStart(g, types, center), 1, nHops, maxNodes)
  }

  /** One GET SUBGRAPH row: its vertex, typed by its first tag, then its edge.
      A vertex without tags fails the whole call. */
  function BulkRows(s: Sample, rows: seq<BulkRow>, maxNodes: int): Result<Sample>
    decreases |rows|
  {
    if rows == [] then Ok(s)
    else
      var row := rows[0];
      if row.vertex.Some? && row.vertex.value.tags == [] then Err("IndexError: list index out of range")
      else
        var s1 := match row.vertex
          case Some(v) => Sample(s.nodes + {v.vid}, s.edges, s.types[v.vid := v.tags[0]])
          case None => s;
        var s2 := match row.edge
          case Some(e) => Sample(s1.nodes + {e.src, e.dst}, s1.edges + [e], s1.types)
          case None => s1;
        if |s2.nodes| >= maxNodes then Ok(s2) else BulkRows(s2, rows[1..], maxNodes)
  }

  /** The single-query strategy, starting from the given vertex types. */
  function BulkSample(g: Graph, types: map<string, string>, center: string, nHops: int, maxNodes: int): Result<Sample> {
    var s := Sample({center}, [], types);
    var resp := g.subgraph(center, nHops);
    if resp.succeeded then BulkRows(s, resp.rows, maxNodes) else Ok(s)
  }

  /** Strategy choice of a fresh sampling call: GO for at most two hops, one
      GET SUBGRAPH otherwise. */
  function Collect(g: Graph, center: string, nHops: int, maxNodes: int): Result<Sample> {
    if nHops <= 2 then Ok(GoSample(g, map[], center, nHops, maxNodes))
    else BulkSample(g, map[], center, nHops, maxNodes)
  }

  // ---------------------------------------------------------- the node budget

  lemma UnionTwo(a: set<string>, x: string, y: string)
    ensures |a + {x, y}| <= |a| + 2
  {
    assert a + {x, y} == (a + {x}) + {y};
  }

  lemma {:induction false} GoRowsBound(g: Graph, s: Sample, rows: seq<EdgeRow>, maxNodes: int)
    requires Open(s, maxNodes) && Closed(s)
    ensures var r := GoRows(g, s, rows, maxNodes);
      |r.nodes| <= Max(maxNodes + 1, 3) && Closed(r) && s.nodes <= r.nodes
    decreases |rows|
  {
    if rows != [] {
      var s' := GoRow(g, s, rows[0]);
      UnionTwo(s.nodes, rows[0].src, rows[0].dst);
      assert Closed(s') by {
        forall k | 0 <= k < |s'.edges|
          ensures s'.edges[k].src in s'.nodes && s'.edges[k].dst in s'.nodes
        {
          if k < |s.edges| { assert s'.edges[k] == s.edges[k]; }
        }
      }
      if |s'.nodes| < maxNodes {
        GoRowsBound(g, s', rows[1..], maxNodes);
      }
    }
  }

  lemma {:induction false} GoHopsBound(g: Graph, center: string, s: Sample, hop: int, nHops: int, maxNodes: int)
    requires Open(s, maxNodes) && Closed(s)
    ensures var r := GoHops(g, center, s, hop, nHops, maxNodes);
      |r.nodes| <= Max(maxNodes + 1, 3) && Closed(r) && s.nodes <= r.nodes
    decreases nHops - hop + 1
  {
    if hop <= nHops {
      var resp := g.goStep(center, hop);
      if !resp.succeeded {
        GoHopsBound(g, center, s, hop + 1, nHops, maxNodes);
      } else {
        GoRowsBound(g, s, resp.rows, maxNodes);
        var s' := GoRows(g, s, resp.rows, maxNodes);
        if |s'.nodes| < maxNodes {
          GoHopsBound(g, center, s', hop + 1, nHops, maxNodes);
        }
      }
    }
  }

  /** The GO strategy overshoots the budget by at most one vertex (two when
      the budget is below two, since the first row is always taken), every
      collected edge joins collected vertices, and the centre is collected. */
  lemma GoSampleBound(g: Graph, types: map<string, string>, center: string, nHops: int, maxNodes: int)
    ensures var r := GoSample(g, types, center, nHops, maxNodes);
      |r.nodes| <= Max(maxNodes + 1, 3) && Closed(r) && center in r.nodes
  {
    GoHopsBound(g, center, GoStart(g, types, center), 1, nHops, maxNodes);
  }

  lemma UnionThree(a: set<string>, x: string, y: string, z: string)
    ensures |a + {x} + {y, z}| <= |a| + 3
  {
    UnionTwo(a + {x}, y, z);
  }

  lemma {:induction false} BulkRowsBound(s: Sample, rows: seq<BulkRow>, maxNodes: int)
    requires Open(s, maxNodes) && Closed(s)
    ensures var r := BulkRows(s, rows, maxNodes);
      r.Ok? ==> |r.value.nodes| <= Max(maxNodes + 2, 4) && Closed(r.value) && s.nodes <= r.value.nodes
    decreases |rows|
  {
    if rows != [] {
      var row := rows[0];
      if !(row.vertex.Some? && row.vertex.value.tags == []) {
        var s1 := match row.vertex
          case Some(v) => Sample(s.nodes + {v.vid}, s.edges, s.types[v.vid := v.tags[0]])
          case None => s;
        var s2 := match row.edge
          case Some(e) => Sample(s1.nodes + {e.src, e.dst}, s1.edges + [e], s1.types)
          case None => s1;
        assert |s1.nodes| <= |s.nodes| + 1;
        if row.edge.Some? {
          UnionTwo(s1.nodes, row.edge.value.src, row.edge.value.dst);
        }
        assert Closed(s2) by {
          forall k | 0 <= k < |s2.edges|
            ensures s2.edges[k].src in s2.nodes && s2.edges[k].dst in s2.nodes
          {
            if k < |s.edges| { assert s2.edges[k] == s.edges[k]; }
          }
        }
        if |s2.nodes| < maxNodes {
          BulkRowsBound(s2, rows[1..], maxNodes);
        }
      }
    }
  }

  /** The GET SUBGRAPH strategy overshoots the budget by at most two vertices
      (three below a budget of two), since a row may carry a vertex and an edge. */
  lemma BulkSampleBound(g: Graph, types: map<string, string>, center: string, nHops: int, maxNodes: int)
    ensures var r := BulkSample(g, types, center, nHops, maxNodes);
      r.Ok? ==> |r.value.nodes| <= Max(maxNodes + 2, 4) && Closed(r.value) && center in r.value.nodes
  {
    var s := Sample({center}, [], types);
    BulkRowsBound(s, g.subgraph(center, nHops).rows, maxNodes);
  }

  /** A budget of three is exceeded: the centre `c`, a first row `c -> x`
      (two vertices, under budget) and a second row `y -> z` give four. */
  lemma GoBudgetExceeded()
    ensures var g := Graph(
        _ => None,
        (_, _) => Response(true, [EdgeRow("c", "x", "follow"), EdgeRow("y", "z", "follow")]),
        (_, _) => Response(false, []),
        (_, _) => Response(false, []));
      |GoSample(g, map[], "c", 1, 3).nodes| == 4
  {
    var g := Graph(
        _ => None,
        (_, _) => Response(true, [EdgeRow("c", "x", "follow"), EdgeRow("y", "z", "follow")]),
        (_, _) => Response(false, []),
        (_, _) => Response(false, []));
    var rows := [EdgeRow("c", "x", "follow"), EdgeRow("y", "z", "follow")];
    var s0 := GoStart(g, map[], "c");
    var s1 := GoRow(g, s0, rows[0]);
    assert s1.nodes == {"c", "x"};
    var s2 := GoRow(g, s1, rows[1]);
    assert s2.nodes == {"c", "x", "y", "z"};
    assert GoRows(g, s1, rows[1..], 3) == s2;
    assert GoRows(g, s0, rows, 3) == s2;
  }

  // ------------------------------------------------------------ edge grouping

  /** An edge-index column: source index and destination index. */
  type Column = (nat, nat)

  /** The numbering and the per-type column lists built so far; `order`
      holds the edge types in the order they were first met. */
  datatype Grouping = Grouping(reg: Registry, order: seq<string>, groups: map<string, seq<Column>>)

  /** The columns an edge contributes, given the indices of its endpoints. */
  function EdgeColumns(s: nat, d: nat, bidirectional: bool): seq<Column> {
    if bidirectional then [(s, d), (d, s)] else [(s, d)]
  }

  /** One edge: number its source then its destination, and append its
      column (and the reversed one) to its type's list. */
  function GroupEdge(gr: Grouping, e: EdgeRow, bidirectional: bool): Grouping {
    var a := Add(gr.reg, e.src);
    var b := Add(a.0, e.dst);
    var prev := if e.edgeType in gr.groups then gr.groups[e.edgeType] else [];
    Grouping(b.0, if e.edgeType in gr.groups then gr.order else gr.order + [e.edgeType],
             gr.groups[e.edgeType := prev + EdgeColumns(a.1, b.1, bidirectional)])
  }

  /** The edges of `edges`, left to right. */
  function GroupEdges(gr: Grouping, edges: seq<EdgeRow>, bidirectional: bool): Grouping
    decreases |edges|
  {
    if edges == [] then gr
    else GroupEdge(GroupEdges(gr, edges[..|edges| - 1], bidirectional), edges[|edges| - 1], bidirectional)
  }

  /** One more edge is one more grouping step. */
  lemma GroupEdgesStep(gr: Grouping, edges: seq<EdgeRow>, i: nat, bidirectional: bool)
    requires i < |edges|
    ensures GroupEdges(gr, edges[..i + 1], bidirectional) == GroupEdge(GroupEdges(gr, edges[..i], bidirectional), edges[i], bidirectional)
  {
    assert edges[..i + 1][..i] == edges[..i];
  }

  /** The per-type lists concatenated in type order: the merged edge index. */
  function Merged(order: seq<string>, groups: map<string, seq<Column>>): seq<Column>
    requires forall k | 0 <= k < |order| :: order[k] in groups
  {
    if order == [] then [] else groups[order[0]] + Merged(order[1..], groups)
  }

  /** The grouping is consistent: every index points into the numbering, each type listed once
      and exactly the listed types grouped, every index numbered. */
  predicate WellGrouped(gr: Grouping) {
    Bounded(gr.reg) && Distinct(gr.order) && TypesListed(gr.order, gr.groups) &&
    IndicesBelow(gr.groups, |gr.reg.toVid|)
  }

  predicate TypesListed(order: seq<string>, groups: map<string, seq<Column>>) {
    (forall k | 0 <= k < |order| :: order[k] in groups) &&
    (forall t | t in groups :: t in order)
  }

  predicate IndicesBelow(groups: map<string, seq<Column>>, n: nat) {
    forall t, c | t in groups && c in groups[t] :: c.0 < n && c.1 < n
  }

  const NoGroups: Grouping := Grouping(Empty, [], map[])

  /** The columns `e` contributes under numbering `r`. */
  function ColumnsOf(r: Registry, e: EdgeRow, bidirectional: bool): seq<Column>
    requires e.src in r.toIdx && e.dst in r.toIdx
  {
    EdgeColumns(r.toIdx[e.src], r.toIdx[e.dst], bidirectional)
  }

  lemma GroupEdgeKeys(gr: Grouping, e: EdgeRow, bidirectional: bool)
    ensures GroupEdge(gr, e, bidirectional).reg.toIdx.Keys == gr.reg.toIdx.Keys + {e.src, e.dst}
  {
  }

  /** One edge extends the numbering and the lists, appending the edge's
      columns to the list of its type and leaving the other lists alone. */
  lemma GroupEdgeExtends(gr: Grouping, e: EdgeRow, bidirectional: bool)
    ensures var gr' := GroupEdge(gr, e, bidirectional);
      Extends(gr.reg, gr'.reg) &&
      e.src in gr'.reg.toIdx && e.dst in gr'.reg.toIdx && e.edgeType in gr'.groups &&
      gr'.groups[e.edgeType] == (if e.edgeType in gr.groups then gr.groups[e.edgeType] else []) + ColumnsOf(gr'.reg, e, bidirectional) &&
      (forall t | t in gr.groups && t != e.edgeType :: t in gr'.groups && gr'.groups[t] == gr.groups[t]) &&
      (forall t | t in gr.groups :: t in gr'.groups && gr.groups[t] <= gr'.groups[t]) &&
      (forall t | t in gr'.groups :: t in gr.groups || t == e.edgeType)
  {
    var a := Add(gr.reg, e.src);
    var b := Add(a.0, e.dst);
    assert Extends(gr.reg, b.0) by {
      assert Extends(gr.reg, a.0) && Extends(a.0, b.0);
    }
    assert b.0.toIdx[e.src] == a.1;
  }

  lemma GroupEdgeValid(gr: Grouping, e: EdgeRow, bidirectional: bool)
    requires Valid(gr.reg)
    ensures Valid(GroupEdge(gr, e, bidirectional).reg)
  {
    var a := Add(gr.reg, e.src);
    AddValid(gr.reg, e.src);
    AddValid(a.0, e.dst);
  }

  /** One edge keeps the grouping consistent. */
  lemma GroupEdgeWell(gr: Grouping, e: EdgeRow, bidirectional: bool)
    requires WellGrouped(gr)
    ensures WellGrouped(GroupEdge(gr, e, bidirectional))
  {
    var a := Add(gr.reg, e.src);
    var b := Add(a.0, e.dst);
    var n := |b.0.toVid|;
    assert a.1 < n && b.1 < n;
    var gr' := GroupEdge(gr, e, bidirectional);
    assert |gr.reg.toVid| <= n;
    assert IndicesBelow(gr'.groups, n) by {
      forall t, c | t in gr'.groups && c in gr'.groups[t]
        ensures c.0 < n && c.1 < n
      {
        if t != e.edgeType || c !in EdgeColumns(a.1, b.1, bidirectional) {
          assert t in gr.groups && c in gr.groups[t];
        }
      }
    }
    assert TypesListed(gr'.order, gr'.groups);
    assert Distinct(gr'.order);
  }

  /** Grouping keeps its consistency. */
  lemma {:induction false} GroupEdgesWell(gr: Grouping, edges: seq<EdgeRow>, bidirectional: bool)
    requires WellGrouped(gr)
    ensures WellGrouped(GroupEdges(gr, edges, bidirectional))
    decreases |edges|
  {
    if edges != [] {
      var n := |edges| - 1;
      GroupEdgesWell(gr, edges[..n], bidirectional);
      GroupEdgeWell(GroupEdges(gr, edges[..n], bidirectional), edges[n], bidirectional);
    }
  }

  /** Grouping only ever extends the numbering and the per-type lists. */
  lemma {:induction false} GroupEdgesExtends(gr: Grouping, edges: seq<EdgeRow>, bidirectional: bool)
    ensures var gr' := GroupEdges(gr, edges, bidirectional);
      Extends(gr.reg, gr'.reg) &&
      (forall t | t in gr.groups :: t in gr'.groups && gr.groups[t] <= gr'.groups[t])
    decreases |edges|
  {
    if edges != [] {
      var n := |edges| - 1;
      var mid := GroupEdges(gr, edges[..n], bidirectional);
      GroupEdgesExtends(gr, edges[..n], bidirectional);
      GroupEdgeExtends(mid, edges[n], bidirectional);
      var gr' := GroupEdge(mid, edges[n], bidirectional);
      assert Extends(gr.reg, gr'.reg) by {
        assert Extends(gr.reg, mid.reg) && Extends(mid.reg, gr'.reg);
      }
    }
  }

  /** A vertex that is an endpoint of some edge of `edges`. */
  predicate IsEndpoint(edges: seq<EdgeRow>, v: string) {
    exists k | 0 <= k < |edges| :: v == edges[k].src || v == edges[k].dst
  }

  /** Grouping keeps the numbering valid. */
  lemma {:induction false} GroupEdgesValid(gr: Grouping, edges: seq<EdgeRow>, bidirectional: bool)
    requires Valid(gr.reg)
    ensures Valid(GroupEdges(gr, edges, bidirectional).reg)
    decreases |edges|
  {
    if edges != [] {
      var n := |edges| - 1;
      GroupEdgesValid(gr, edges[..n], bidirectional);
      GroupEdgeValid(GroupEdges(gr, edges[..n], bidirectional), edges[n], bidirectional);
    }
  }

  lemma IsEndpointPrefix(edges: seq<EdgeRow>, n: nat, v: string)
    requires n <= |edges| && IsEndpoint(edges[..n], v)
    ensures IsEndpoint(edges, v)
  {
    var k :| 0 <= k < n && (v == edges[..n][k].src || v == edges[..n][k].dst);
    assert edges[..n][k] == edges[k];
  }

  /** The numbering holds exactly the ids it started with and the endpoints
      of the edges. */
  lemma {:induction false} GroupEdgesKeys(gr: Grouping, edges: seq<EdgeRow>, bidirectional: bool)
    ensures var gr' := GroupEdges(gr, edges, bidirectional);
      forall v :: v in gr'.reg.toIdx <==> v in gr.reg.toIdx || IsEndpoint(edges, v)
    decreases |edges|
  {
    if edges != [] {
      var n := |edges| - 1;
      var mid := GroupEdges(gr, edges[..n], bidirectional);
      GroupEdgesKeys(gr, edges[..n], bidirectional);
      GroupEdgeKeys(mid, edges[n], bidirectional);
      var gr' := GroupEdge(mid, edges[n], bidirectional);
      forall v
        ensures v in gr'.reg.toIdx <==> v in gr.reg.toIdx || IsEndpoint(edges, v)
      {
        if v in mid.reg.toIdx && v !in gr.reg.toIdx {
          IsEndpointPrefix(edges, n, v);
        }
        if IsEndpoint(edges, v) {
          var k :| 0 <= k < |edges| && (v == edges[k].src || v == edges[k].dst);
          if k < n {
            assert edges[..n][k] == edges[k];
            assert IsEndpoint(edges[..n], v);
          }
        }
      }
    }
  }

  /** `e`'s column, and with `bidirectional` its reverse, are in the list of
      `e`'s type. */
  predicate HasColumns(gr: Grouping, e: EdgeRow, bidirectional: bool) {
    e.src in gr.reg.toIdx && e.dst in gr.reg.toIdx && e.edgeType in gr.groups &&
    (gr.reg.toIdx[e.src], gr.reg.toIdx[e.dst]) in gr.groups[e.edgeType] &&
    (bidirectional ==> (gr.reg.toIdx[e.dst], gr.reg.toIdx[e.src]) in gr.groups[e.edgeType])
  }

  lemma HasColumnsKept(gr: Grouping, gr2: Grouping, e: EdgeRow, bidirectional: bool)
    requires HasColumns(gr, e, bidirectional) && Extends(gr.reg, gr2.reg)
    requires forall t | t in gr.groups :: t in gr2.groups && gr.groups[t] <= gr2.groups[t]
    ensures HasColumns(gr2, e, bidirectional)
  {
    assert gr.groups[e.edgeType] <= gr2.groups[e.edgeType];
  }

  /** Completeness: every edge's column, and with `bidirectional` its reverse,
      is in the list of the edge's type. */
  lemma {:induction false} GroupEdgesComplete(gr: Grouping, edges: seq<EdgeRow>, bidirectional: bool)
    ensures var gr' := GroupEdges(gr, edges, bidirectional);
      forall k | 0 <= k < |edges| :: HasColumns(gr', edges[k], bidirectional)
    decreases |edges|
  {
    if edges != [] {
      var n := |edges| - 1;
      var mid := GroupEdges(gr, edges[..n], bidirectional);
      GroupEdgesComplete(gr, edges[..n], bidirectional);
      GroupEdgeExtends(mid, edges[n], bidirectional);
      var gr' := GroupEdge(mid, edges[n], bidirectional);
      forall k | 0 <= k < |edges|
        ensures HasColumns(gr', edges[k], bidirectional)
      {
        if k < n {
          assert edges[..n][k] == edges[k];
          HasColumnsKept(mid, gr', edges[k], bidirectional);
        } else {
          var cols := ColumnsOf(gr'.reg, edges[n], bidirectional);
          assert cols[0] in gr'.groups[edges[n].edgeType];
          if bidirectional {
            assert cols[1] in gr'.groups[edges[n].edgeType];
          }
        }
      }
    }
  }

  /** `c` is `e`'s column, or with `bidirectional` its reverse. */
  predicate IsColumnOf(r: Registry, e: EdgeRow, c: Column, bidirectional: bool) {
    e.src in r.toIdx && e.dst in r.toIdx &&
    (c == (r.toIdx[e.src], r.toIdx[e.dst]) || (bidirectional && c == (r.toIdx[e.dst], r.toIdx[e.src])))
  }

  /** The column `c` of type `t` comes from some edge of `edges`. */
  predicate FromSomeEdge(r: Registry, edges: seq<EdgeRow>, t: string, c: Column, bidirectional: bool) {
    exists k | 0 <= k < |edges| :: edges[k].edgeType == t && IsColumnOf(r, edges[k], c, bidirectional)
  }

  lemma FromSomeEdgeKept(r: Registry, r2: Registry, edges: seq<EdgeRow>, n: nat, t: string, c: Column, bidirectional: bool)
    requires n <= |edges| && FromSomeEdge(r, edges[..n], t, c, bidirectional) && Extends(r, r2)
    ensures FromSomeEdge(r2, edges, t, c, bidirectional)
  {
    var k :| 0 <= k < n && edges[..n][k].edgeType == t && IsColumnOf(r, edges[..n][k], c, bidirectional);
    assert edges[..n][k] == edges[k];
    assert IsColumnOf(r2, edges[k], c, bidirectional);
  }

  /** Every column of every list comes from an edge of that list's type. */
  predicate AllFromEdges(gr: Grouping, edges: seq<EdgeRow>, bidirectional: bool) {
    forall t, c | t in gr.groups && c in gr.groups[t] :: FromSomeEdge(gr.reg, edges, t, c, bidirectional)
  }

  /** Soundness: starting from nothing, every column of a type's list comes
      from an edge of that type, as its column or (with `bidirectional`) its
      reverse. */
  lemma {:induction false} GroupEdgesSound(edges: seq<EdgeRow>, bidirectional: bool)
    ensures AllFromEdges(GroupEdges(NoGroups, edges, bidirectional), edges, bidirectional)
    decreases |edges|
  {
    if edges != [] {
      var n := |edges| - 1;
      var mid := GroupEdges(NoGroups, edges[..n], bidirectional);
      GroupEdgesSound(edges[..n], bidirectional);
      assert AllFromEdges(mid, edges[..n], bidirectional);
      GroupEdgeExtends(mid, edges[n], bidirectional);
      var gr' := GroupEdge(mid, edges[n], bidirectional);
      forall t, c | t in gr'.groups && c in gr'.groups[t]
        ensures FromSomeEdge(gr'.reg, edges, t, c, bidirectional)
      {
        if t in mid.groups && c in mid.groups[t] {
          assert FromSomeEdge(mid.reg, edges[..n], t, c, bidirectional);
          FromSomeEdgeKept(mid.reg, gr'.reg, edges, n, t, c, bidirectional);
        } else {
          assert t == edges[n].edgeType;
          assert c in ColumnsOf(gr'.reg, edges[n], bidirectional);
          assert IsColumnOf(gr'.reg, edges[n], c, bidirectional);
        }
      }
    }
  }

  lemma {:induction false} MergedUpdate(order: seq<string>, groups: map<string, seq<Column>>, t: string, cols: seq<Column>)
    requires forall k | 0 <= k < |order| :: order[k] in groups
    requires Distinct(order)
    ensures forall k | 0 <= k < |order| :: order[k] in groups[t := cols]
    ensures t !in order ==> Merged(order, groups[t := cols]) == Merged(order, groups)
    ensures t in order ==> |Merged(order, groups[t := cols])| + |groups[t]| == |Merged(order, groups)| + |cols|
  {
    if order != [] {
      assert Distinct(order[1..]) by {
        forall i, j | 0 <= i < j < |order[1..]| ensures order[1..][i] != order[1..][j] {
          assert order[1..][i] == order[i + 1] && order[1..][j] == order[j + 1];
        }
      }
      MergedUpdate(order[1..], groups, t, cols);
      if order[0] == t {
        assert t !in order[1..] by {
          forall j | 0 <= j < |order[1..]| ensures order[1..][j] != t {
            assert order[1..][j] == order[j + 1];
          }
        }
      }
    }
  }

  lemma {:induction false} MergedAppend(order: seq<string>, groups: map<string, seq<Column>>, t: string)
    requires forall k | 0 <= k < |order| :: order[k] in groups
    requires t in groups
    ensures Merged(order + [t], groups) == Merged(order, groups) + groups[t]
  {
    if order == [] {
      assert order + [t] == [t];
    } else {
      assert (order + [t])[1..] == order[1..] + [t];
      MergedAppend(order[1..], groups, t);
    }
  }

  /** The merged index has two columns per edge with `bidirectional`, one
      without. */
  lemma {:induction false} MergedLength(edges: seq<EdgeRow>, bidirectional: bool)
    ensures var gr := GroupEdges(NoGroups, edges, bidirectional);
      WellGrouped(gr) &&
      |Merged(gr.order, gr.groups)| == |edges| * (if bidirectional then 2 else 1)
    decreases |edges|
  {
    GroupEdgesWell(NoGroups, edges, bidirectional);
    if edges != [] {
      var n := |edges| - 1;
      MergedLength(edges[..n], bidirectional);
      MergedGrows(GroupEdges(NoGroups, edges[..n], bidirectional), edges[n], bidirectional);
    }
  }

  /** One more edge adds its one or two columns to the merged index. */
  lemma MergedGrows(mid: Grouping, e: EdgeRow, bidirectional: bool)
    requires WellGrouped(mid)
    ensures var gr := GroupEdge(mid, e, bidirectional);
      WellGrouped(gr) &&
      |Merged(gr.order, gr.groups)| == |Merged(mid.order, mid.groups)| + (if bidirectional then 2 else 1)
  {
    GroupEdgeWell(mid, e, bidirectional);
    GroupEdgeExtends(mid, e, bidirectional);
    var gr := GroupEdge(mid, e, bidirectional);
    var t := e.edgeType;
    var cols := gr.groups[t];
    MergedUpdate(mid.order, mid.groups, t, cols);
    if t in mid.groups {
      assert gr.order == mid.order;
    } else {
      assert t !in mid.order;
      MergedAppend(mid.order, mid.groups[t := cols], t);
    }
  }

  // ---------------------------------------------------------- feature fetches

  /** A vertex's type, with "unknown" for a vertex that has none. */
  function TypeOf(types: map<string, string>, v: string): string {
    if v in types then types[v] else "unknown"
  }

  /** The vertices grouped by type, types in order of first appearance. */
  datatype ByType = ByType(order: seq<string>, groups: map<string, seq<string>>)

  function GroupByType(types: map<string, string>, vids: seq<string>): ByType
    decreases |vids|
  {
    if vids == [] then ByType([], map[])
    else
      var b := GroupByType(types, vids[..|vids| - 1]);
      var v := vids[|vids| - 1];
      var t := TypeOf(types, v);
      if t in b.groups then ByType(b.order, b.groups[t := b.groups[t] + [v]])
      else ByType(b.order + [t], b.groups[t := [v]])
  }

  /** The order lists each grouped type exactly once. */
  lemma {:induction false} GroupByTypeShape(types: map<string, string>, vids: seq<string>)
    ensures var b := GroupByType(types, vids);
      Distinct(b.order) &&
      (forall k | 0 <= k < |b.order| :: b.order[k] in b.groups) &&
      (forall t | t in b.groups :: t in b.order)
    decreases |vids|
  {
    if vids != [] {
      GroupByTypeShape(types, vids[..|vids| - 1]);
    }
  }

  /** Each group holds exactly the given vertices of its type. */
  lemma {:induction false} GroupByTypeMembers(types: map<string, string>, vids: seq<string>)
    ensures var b := GroupByType(types, vids);
      (forall t, v | t in b.groups && v in b.groups[t] :: v in vids && TypeOf(types, v) == t) &&
      (forall v | v in vids :: TypeOf(types, v) in b.groups && v in b.groups[TypeOf(types, v)])
    decreases |vids|
  {
    if vids != [] {
      var n := |vids| - 1;
      GroupByTypeMembers(types, vids[..n]);
      assert vids == vids[..n] + [vids[n]];
    }
  }

  /** One FETCH request: a type and a batch of vertex ids. */
  type Request = (string, seq<string>)

  /** `vids` fetched in consecutive batches of at most 100. */
  function TypeRequests(t: string, vids: seq<string>): seq<Request>
    decreases |vids|
  {
    if vids == [] then []
    else if |vids| <= 100 then [(t, vids)]
    else [(t, vids[..100])] + TypeRequests(t, vids[100..])
  }

  /** The requests for each type in order, the "unknown" group skipped. */
  function Requests(order: seq<string>, groups: map<string, seq<string>>): seq<Request>
    requires forall k | 0 <= k < |order| :: order[k] in groups
  {
    if order == [] then []
    else (if order[0] == "unknown" then [] else TypeRequests(order[0], groups[order[0]])) + Requests(order[1..], groups)
  }

  /** The requests made for the vertices `vids`. */
  function FeatureRequests(types: map<string, string>, vids: seq<string>): seq<Request> {
    var b := GroupByType(types, vids);
    GroupByTypeShape(types, vids);
    Requests(b.order, b.groups)
  }

  lemma {:induction false} TypeRequestsSound(t: string, vids: seq<string>)
    ensures forall q | q in TypeRequests(t, vids) :: q.0 == t && 0 < |q.1| <= 100 && forall v | v in q.1 :: v in vids
    decreases |vids|
  {
    if |vids| > 100 {
      TypeRequestsSound(t, vids[100..]);
      assert TypeRequests(t, vids) == [(t, vids[..100])] + TypeRequests(t, vids[100..]);
      forall q | q in TypeRequests(t, vids[100..])
        ensures forall v | v in q.1 :: v in vids
      {
        forall v | v in q.1 ensures v in vids {
          var i :| 0 <= i < |vids[100..]| && vids[100..][i] == v;
          assert vids[i + 100] == v;
        }
      }
    }
  }

  lemma {:induction false} TypeRequestsCover(t: string, vids: seq<string>)
    ensures forall v | v in vids :: exists q | q in TypeRequests(t, vids) :: v in q.1
    decreases |vids|
  {
    if |vids| > 100 {
      TypeRequestsCover(t, vids[100..]);
      var rest := TypeRequests(t, vids[100..]);
      assert TypeRequests(t, vids) == [(t, vids[..100])] + rest;
      forall v | v in vids
        ensures exists q | q in TypeRequests(t, vids) :: v in q.1
      {
        var i :| 0 <= i < |vids| && vids[i] == v;
        if i < 100 {
          assert vids[..100][i] == v;
          assert (t, vids[..100]) in TypeRequests(t, vids);
        } else {
          assert vids[100..][i - 100] == v;
          assert v in vids[100..];
          var q :| q in rest && v in q.1;
          assert q in TypeRequests(t, vids);
        }
      }
    } else if vids != [] {
      assert (t, vids) in TypeRequests(t, vids);
    }
  }

  lemma {:induction false} RequestsFacts(order: seq<string>, groups: map<string, seq<string>>)
    requires forall k | 0 <= k < |order| :: order[k] in groups
    ensures forall q | q in Requests(order, groups) ::
      q.0 != "unknown" && q.0 in order && 0 < |q.1| <= 100 && forall v | v in q.1 :: v in groups[q.0]
    ensures forall k, v | 0 <= k < |order| && order[k] != "unknown" && v in groups[order[k]] ::
      exists q | q in Requests(order, groups) :: q.0 == order[k] && v in q.1
  {
    if order != [] {
      RequestsFacts(order[1..], groups);
      TypeRequestsSound(order[0], groups[order[0]]);
      TypeRequestsCover(order[0], groups[order[0]]);
      var head := if order[0] == "unknown" then [] else TypeRequests(order[0], groups[order[0]]);
      var rest := Requests(order[1..], groups);
      assert Requests(order, groups) == head + rest;
      forall k, v | 0 <= k < |order| && order[k] != "unknown" && v in groups[order[k]]
        ensures exists q | q in Requests(order, groups) :: q.0 == order[k] && v in q.1
      {
        if k == 0 {
          var q :| q in TypeRequests(order[0], groups[order[0]]) && v in q.1;
          assert q in head;
        } else {
          assert order[1..][k - 1] == order[k];
          var q :| q in rest && q.0 == order[k] && v in q.1;
        }
      }
    }
  }

  /** Vertices without a known type are never fetched; every batch holds 1 to
      100 ids, all of the batch's type and all among the requested vertices;
      and every vertex with a known type is in some batch of its type. */
  lemma FeatureRequestsFacts(types: map<string, string>, vids: seq<string>)
    ensures forall q | q in FeatureRequests(types, vids) ::
      q.0 != "unknown" && 0 < |q.1| <= 100 && forall v | v in q.1 :: v in vids && TypeOf(types, v) == q.0
    ensures forall v | v in vids && TypeOf(types, v) != "unknown" ::
      exists q | q in FeatureRequests(types, vids) :: q.0 == TypeOf(types, v) && v in q.1
  {
    var b := GroupByType(types, vids);
    GroupByTypeShape(types, vids);
    GroupByTypeMembers(types, vids);
    RequestsFacts(b.order, b.groups);
    forall v | v in vids && TypeOf(types, v) != "unknown"
      ensures exists q | q in FeatureRequests(types, vids) :: q.0 == TypeOf(types, v) && v in q.1
    {
      var t := TypeOf(types, v);
      var k :| 0 <= k < |b.order| && b.order[k] == t;
    }
  }

  /** A vertex's features: its name ("" when missing or not a string) and
      its embedding, an integer read as a float. */
  datatype NodeFeature = NodeFeature(name: string, embedding: Option<real>)

  function FeatureOf(row: FetchRow): NodeFeature {
    NodeFeature(
      match row.name case StringValue(s) => s case _ => "",
      match row.embedding
      case DoubleValue(d) => Some(d)
      case IntValue(i) => Some(i as real)
      case _ => None)
  }

  /** The rows of one answer, later rows overwriting earlier ones. */
  function ApplyRows(features: map<string, NodeFeature>, rows: seq<FetchRow>): map<string, NodeFeature>
    decreases |rows|
  {
    if rows == [] then features
    else ApplyRows(features[rows[0].vid := FeatureOf(rows[0])], rows[1..])
  }

  /** The requests sent in order; a failed one contributes nothing. */
  function Fetch(g: Graph, features: map<string, NodeFeature>, reqs: seq<Request>): map<string, NodeFeature>
    decreases |reqs|
  {
    if reqs == [] then features
    else
      var resp := g.fetch(reqs[0].0, reqs[0].1);
      Fetch(g, if resp.succeeded then ApplyRows(features, resp.rows) else features, reqs[1..])
  }

  function NodeFeatures(g: Graph, types: map<string, string>, vids: seq<string>): map<string, NodeFeature> {
    Fetch(g, map[], FeatureRequests(types, vids))
  }

  lemma {:induction false} FetchAppend(g: Graph, features: map<string, NodeFeature>, a: seq<Request>, b: seq<Request>)
    ensures Fetch(g, features, a + b) == Fetch(g, Fetch(g, features, a), b)
    decreases |a|
  {
    if a == [] {
      assert a + b == b;
    } else {
      var resp := g.fetch(a[0].0, a[0].1);
      var f' := if resp.succeeded then ApplyRows(features, resp.rows) else features;
      assert (a + b)[0] == a[0];
      assert (a + b)[1..] == a[1..] + b;
      assert Fetch(g, features, a + b) == Fetch(g, f', a[1..] + b);
      FetchAppend(g, f', a[1..], b);
    }
  }

  // ------------------------------------------------------------- the result

  /** The dictionary `sample_subgraph` returns. */
  datatype Subgraph = Subgraph(
    centerNodeIdx: nat,
    edgeIndex: seq<Column>,
    numNodes: nat,
    vidToIdx: map<string, nat>,
    idxToVid: seq<string>,
    nodeTypes: map<string, string>,
    edgeIndicesByType: map<string, seq<Column>>,
    nodeFeatures: map<string, NodeFeature>)

  /** The result assembled from the collected sample, with `nodeOrder` the
      order in which the collected vertex set was listed. */
  function Assemble(g: Graph, s: Sample, center: string, bidirectional: bool, nodeOrder: seq<string>): Subgraph {
    var gr := GroupEdges(NoGroups, s.edges, bidirectional);
    Subgraph(
      if center in gr.reg.toIdx then gr.reg.toIdx[center] else 0,
      EdgeIndex(s.edges, bidirectional),
      |gr.reg.toVid|,
      gr.reg.toIdx,
      gr.reg.toVid,
      s.types,
      gr.groups,
      NodeFeatures(g, s.types, nodeOrder))
  }

  /** What one sampling call yields, for the given listing of the collected
      vertices. */
  function SampleSpec(g: Graph, center: string, nHops: int, bidirectional: bool, maxNodes: int, nodeOrder: seq<string>): Result<Subgraph> {
    match Collect(g, center, nHops, maxNodes)
    case Err(e) => Err(e)
    case Ok(s) => Ok(Assemble(g, s, center, bidirectional, nodeOrder))
  }

  /** Only endpoints of collected edges are numbered, so there are no more
      indices than collected vertices. */
  lemma RegistryCount(edges: seq<EdgeRow>, bidirectional: bool, nodes: set<string>)
    requires forall k | 0 <= k < |edges| :: edges[k].src in nodes && edges[k].dst in nodes
    ensures |GroupEdges(NoGroups, edges, bidirectional).reg.toVid| <= |nodes|
  {
    var gr := GroupEdges(NoGroups, edges, bidirectional);
    GroupEdgesKeys(NoGroups, edges, bidirectional);
    GroupEdgesValid(NoGroups, edges, bidirectional);
    assert gr.reg.toIdx.Keys <= nodes by {
      forall v | v in gr.reg.toIdx ensures v in nodes {
        assert IsEndpoint(edges, v);
      }
    }
    SubsetCard(gr.reg.toIdx.Keys, nodes);
  }

  lemma SubsetCard(a: set<string>, b: set<string>)
    requires a <= b
    ensures |a| <= |b|
  {
    assert b == a + (b - a);
  }

  lemma {:induction false} MergedIn(order: seq<string>, groups: map<string, seq<Column>>)
    requires forall k | 0 <= k < |order| :: order[k] in groups
    ensures forall c | c in Merged(order, groups) :: exists k | 0 <= k < |order| :: c in groups[order[k]]
  {
    if order != [] {
      MergedIn(order[1..], groups);
      forall c | c in Merged(order, groups)
        ensures exists k | 0 <= k < |order| :: c in groups[order[k]]
      {
        if c !in groups[order[0]] {
          assert c in Merged(order[1..], groups);
          var k :| 0 <= k < |order[1..]| && c in groups[order[1..][k]];
          assert order[1..][k] == order[k + 1];
        }
      }
    }
  }

  lemma {:induction false} MergedHas(order: seq<string>, groups: map<string, seq<Column>>, k: nat, c: Column)
    requires forall i | 0 <= i < |order| :: order[i] in groups
    requires k < |order| && c in groups[order[k]]
    ensures c in Merged(order, groups)
  {
    if k > 0 {
      assert order[1..][k - 1] == order[k];
      MergedHas(order[1..], groups, k - 1, c);
    }
  }

  /** The merged edge index of `edges` numbered on top of `r`; empty
      without edges. */
  function IndexFrom(r: Registry, edges: seq<EdgeRow>, bidirectional: bool): seq<Column>
    requires Bounded(r)
  {
    var gr := GroupEdges(Grouping(r, [], map[]), edges, bidirectional);
    GroupEdgesWell(Grouping(r, [], map[]), edges, bidirectional);
    if edges == [] then [] else Merged(gr.order, gr.groups)
  }

  /** The merged edge index of the collected edges; empty without edges. */
  function EdgeIndex(edges: seq<EdgeRow>, bidirectional: bool): seq<Column> {
    var gr := GroupEdges(NoGroups, edges, bidirectional);
    GroupEdgesWell(NoGroups, edges, bidirectional);
    if edges == [] then [] else Merged(gr.order, gr.groups)
  }

  /** The merged index has one column per edge, or two with
      `bidirectional`, and numbers only vertices that were numbered. */
  lemma EdgeIndexSize(edges: seq<EdgeRow>, bidirectional: bool)
    ensures var gr := GroupEdges(NoGroups, edges, bidirectional);
      var index := EdgeIndex(edges, bidirectional);
      |index| == |edges| * (if bidirectional then 2 else 1) &&
      forall c | c in index :: c.0 < |gr.reg.toVid| && c.1 < |gr.reg.toVid|
  {
    var gr := GroupEdges(NoGroups, edges, bidirectional);
    GroupEdgesWell(NoGroups, edges, bidirectional);
    MergedLength(edges, bidirectional);
    if edges != [] {
      MergedIn(gr.order, gr.groups);
    }
  }

  /** Every edge's column, and with `bidirectional` its reverse, is in the
      merged index. */
  lemma EdgeIndexComplete(edges: seq<EdgeRow>, bidirectional: bool)
    ensures var gr := GroupEdges(NoGroups, edges, bidirectional);
      var index := EdgeIndex(edges, bidirectional);
      forall k | 0 <= k < |edges| ::
        edges[k].src in gr.reg.toIdx && edges[k].dst in gr.reg.toIdx &&
        (gr.reg.toIdx[edges[k].src], gr.reg.toIdx[edges[k].dst]) in index &&
        (bidirectional ==> (gr.reg.toIdx[edges[k].dst], gr.reg.toIdx[edges[k].src]) in index)
  {
    var gr := GroupEdges(NoGroups, edges, bidirectional);
    GroupEdgesWell(NoGroups, edges, bidirectional);
    GroupEdgesComplete(NoGroups, edges, bidirectional);
    var index := EdgeIndex(edges, bidirectional);
    forall k | 0 <= k < |edges|
      ensures (gr.reg.toIdx[edges[k].src], gr.reg.toIdx[edges[k].dst]) in index &&
        (bidirectional ==> (gr.reg.toIdx[edges[k].dst], gr.reg.toIdx[edges[k].src]) in index)
    {
      assert HasColumns(gr, edges[k], bidirectional);
      var t := edges[k].edgeType;
      var i :| 0 <= i < |gr.order| && gr.order[i] == t;
      MergedHas(gr.order, gr.groups, i, (gr.reg.toIdx[edges[k].src], gr.reg.toIdx[edges[k].dst]));
      if bidirectional {
        MergedHas(gr.order, gr.groups, i, (gr.reg.toIdx[edges[k].dst], gr.reg.toIdx[edges[k].src]));
      }
    }
  }

  /** Every column of the merged index is some edge's column, or with
      `bidirectional` its reverse. */
  lemma EdgeIndexSound(edges: seq<EdgeRow>, bidirectional: bool)
    ensures var gr := GroupEdges(NoGroups, edges, bidirectional);
      forall c | c in EdgeIndex(edges, bidirectional) ::
        exists k | 0 <= k < |edges| :: IsColumnOf(gr.reg, edges[k], c, bidirectional)
  {
    var gr := GroupEdges(NoGroups, edges, bidirectional);
    GroupEdgesWell(NoGroups, edges, bidirectional);
    GroupEdgesSound(edges, bidirectional);
    if edges != [] {
      MergedIn(gr.order, gr.groups);
      forall c | c in EdgeIndex(edges, bidirectional)
        ensures exists k | 0 <= k < |edges| :: IsColumnOf(gr.reg, edges[k], c, bidirectional)
      {
        var i :| 0 <= i < |gr.order| && c in gr.groups[gr.order[i]];
        assert FromSomeEdge(gr.reg, edges, gr.order[i], c, bidirectional);
      }
    }
  }

  /** The numbering covers exactly the endpoints of the collected edges. */
  lemma NumberingShape(edges: seq<EdgeRow>, bidirectional: bool)
    ensures var r := GroupEdges(NoGroups, edges, bidirectional).reg;
      Valid(r) &&
      (forall k | 0 <= k < |edges| :: edges[k].src in r.toIdx && edges[k].dst in r.toIdx) &&
      (forall v | v in r.toIdx :: IsEndpoint(edges, v))
  {
    var r := GroupEdges(NoGroups, edges, bidirectional).reg;
    GroupEdgesValid(NoGroups, edges, bidirectional);
    GroupEdgesKeys(NoGroups, edges, bidirectional);
    forall k | 0 <= k < |edges| ensures edges[k].src in r.toIdx && edges[k].dst in r.toIdx {
      assert IsEndpoint(edges, edges[k].src) && IsEndpoint(edges, edges[k].dst);
    }
  }

  /** The shape of a successful sampling call: a valid numbering of the
      collected edges' endpoints, the centre's own index when it has one (0
      otherwise), an edge index of one or two columns per collected edge with
      all indices below `num_nodes`, and at most budget+1 (GO) or budget+2
      (GET SUBGRAPH) numbered vertices, with at least three resp. four
      allowed for tiny budgets. */
  lemma SampleShape(g: Graph, center: string, nHops: int, bidirectional: bool, maxNodes: int, nodeOrder: seq<string>)
    ensures var r := SampleSpec(g, center, nHops, bidirectional, maxNodes, nodeOrder);
      r.Ok? ==>
        var sg := r.value;
        var s := Collect(g, center, nHops, maxNodes).value;
        Valid(Registry(sg.vidToIdx, sg.idxToVid)) && sg.numNodes == |sg.idxToVid| &&
        (center in sg.vidToIdx ==> sg.idxToVid[sg.centerNodeIdx] == center) &&
        (center !in sg.vidToIdx ==> sg.centerNodeIdx == 0) &&
        |sg.edgeIndex| == |s.edges| * (if bidirectional then 2 else 1) &&
        (forall c | c in sg.edgeIndex :: c.0 < sg.numNodes && c.1 < sg.numNodes) &&
        sg.numNodes <= (if nHops <= 2 then Max(maxNodes + 1, 3) else Max(maxNodes + 2, 4))
  {
    var r := SampleSpec(g, center, nHops, bidirectional, maxNodes, nodeOrder);
    if r.Ok? {
      var s := Collect(g, center, nHops, maxNodes).value;
      if nHops <= 2 {
        GoSampleBound(g, map[], center, nHops, maxNodes);
      } else {
        BulkSampleBound(g, map[], center, nHops, maxNodes);
      }
      NumberingShape(s.edges, bidirectional);
      EdgeIndexSize(s.edges, bidirectional);
      RegistryCount(s.edges, bidirectional, s.nodes);
    }
  }
}
