/** The question-answering core around the sampler: entity extraction by
    name matching, hop-count parsing, breadth-first path discovery inside a
    sampled subgraph, the direct / bridge / no-connection decision between
    two entities, and the textual answer. */
module PathFinding {
  import opened Common
  import opened IdRegistry
  import opened SamplerSpec
  import opened Sampler

  // ------------------------------------------------------------ entities

  /** Known players and teams, name to vertex id, in dictionary order. */
  const PlayerMap: seq<(string, string)> := [
    ("Tim Duncan", "player100"), ("Tony Parker", "player101"), ("LeBron James", "player116"),
    ("Stephen Curry", "player117"), ("Kobe Bryant", "player115"), ("Yao Ming", "player133"),
    ("Klay Thompson", "player142"), ("Kevin Durant", "player119"), ("James Harden", "player120"),
    ("Chris Paul", "player121"), ("Russell Westbrook", "player118")]

  const TeamMap: seq<(string, string)> := [
    ("Warriors", "team200"), ("Lakers", "team210"), ("Rockets", "team202"), ("Spurs", "team204"),
    ("Celtics", "team217"), ("Heat", "team229"), ("Cavaliers", "team216")]

  /** The merged table: players, then teams (no name occurs in both). */
  const EntityMap: seq<(string, string)> := PlayerMap + TeamMap

  /** `SimpleEntityExtractor.extract_entities`. */
  method ExtractEntities(text: string) returns (entities: seq<(string, string)>)
    ensures entities == Mentioned(EntityMap, text)
  {
    entities := ScanTable(EntityMap, text);
  }

  /** The extractor's loop over its table. */
  method ScanTable(table: seq<(string, string)>, text: string) returns (entities: seq<(string, string)>)
    ensures entities == Mentioned(table, text)
  {
    entities := [];
    var textLower := Lower(text);
    var i := 0;
    while i < |table|
      invariant 0 <= i <= |table|
      invariant entities == Mentioned(table[..i], text)
    {
      var e := table[i];
      if Contains(textLower, Lower(e.0)) {
        entities := entities + [e];
      }
      assert table[..i + 1][..i] == table[..i];
      i := i + 1;
    }
    assert table[..i] == table;
  }

  /** `id_to_name.get(id, id)`: the inverted table, a later entry winning. */
  function NameOf(table: seq<(string, string)>, id: string): string {
    if table == [] then id
    else if table[|table| - 1].1 == id then table[|table| - 1].0
    else NameOf(table[..|table| - 1], id)
  }

  /** An id the table does not have is shown as itself. */
  lemma {:induction false} NameOfAbsent(table: seq<(string, string)>, id: string)
    requires forall k | 0 <= k < |table| :: table[k].1 != id
    ensures NameOf(table, id) == id
    decreases |table|
  {
    if table != [] {
      NameOfAbsent(table[..|table| - 1], id);
    }
  }

  /** With distinct ids, each entry's id shows its own name. */
  lemma {:induction false} NameOfEntry(table: seq<(string, string)>, k: nat)
    requires k < |table|
    requires forall i, j | 0 <= i < j < |table| :: table[i].1 != table[j].1
    ensures NameOf(table, table[k].1) == table[k].0
    decreases |table|
  {
    if k < |table| - 1 {
      NameOfEntry(table[..|table| - 1], k);
    }
  }

  // ----------------------------------------------------------- hop count

  /** End of the run of decimal digits starting at `i`. */
  function DigitRunEnd(s: string, i: nat): (j: nat)
    requires i <= |s|
    ensures i <= j <= |s|
    ensures forall k | i <= k < j :: IsDigit(s[k])
    ensures j < |s| ==> !IsDigit(s[j])
    decreases |s| - i
  {
    if i < |s| && IsDigit(s[i]) then DigitRunEnd(s, i + 1) else i
  }

  /** End of the run of whitespace starting at `i`. */
  function SpaceRunEnd(s: string, i: nat): (j: nat)
    requires i <= |s|
    ensures i <= j <= |s|
    ensures j < |s| ==> !IsSpace(s[j])
    decreases |s| - i
  {
    if i < |s| && IsSpace(s[i]) then SpaceRunEnd(s, i + 1) else i
  }

  /** The four patterns tried in order: `(\d+)\s*hop`, `(\d+)\s*step`,
      `within\s+(\d+)` and `(\d+)\s*度`. */
  datatype HopPattern = NumberThen(word: string) | WithinNumber

  const HopPatterns: seq<HopPattern> := [NumberThen("hop"), NumberThen("step"), WithinNumber, NumberThen("度")]

  /** Where the captured digits of a match at `i` start (`\d+` and `\s+`
      being greedy, a match exists iff one exists with maximal runs). */
  predicate MatchesAt(p: HopPattern, s: string, i: nat) {
    match p
    case NumberThen(word) =>
      i < |s| && IsDigit(s[i]) && OccursAt(s, word, SpaceRunEnd(s, DigitRunEnd(s, i)))
    case WithinNumber =>
      OccursAt(s, "within", i) && i + 6 < |s| && IsSpace(s[i + 6]) &&
      SpaceRunEnd(s, i + 6) < |s| && IsDigit(s[SpaceRunEnd(s, i + 6)])
  }

  /** The captured digits of a match at `i`. */
  function CapturedAt(p: HopPattern, s: string, i: nat): (digits: string)
    requires MatchesAt(p, s, i)
    ensures digits != [] && forall k | 0 <= k < |digits| :: IsDigit(digits[k])
  {
    var from := if p.NumberThen? then i else SpaceRunEnd(s, i + 6);
    s[from..DigitRunEnd(s, from)]
  }

  /** `re.search`: the leftmost position at or after `i` where `p` matches. */
  function Search(p: HopPattern, s: string, i: nat): (r: Option<nat>)
    requires i <= |s|
    ensures r.Some? ==> i <= r.value < |s| && MatchesAt(p, s, r.value)
    ensures forall j | i <= j < |s| && (r.None? || j < r.value) :: !MatchesAt(p, s, j)
    decreases |s| - i
  {
    if i == |s| then None
    else if MatchesAt(p, s, i) then Some(i)
    else Search(p, s, i + 1)
  }

  /** The first of `patterns` that matches, with its captured number. */
  function FirstHops(patterns: seq<HopPattern>, s: string): Option<nat> {
    if patterns == [] then None
    else match Search(patterns[0], s, 0)
      case Some(i) => Some(DigitsValue(CapturedAt(patterns[0], s, i)))
      case None => FirstHops(patterns[1..], s)
  }

  /** `parse_hops_from_text`: the first matching pattern's number capped at
      four, or two hops. */
  function ParseHops(text: string): nat {
    match FirstHops(HopPatterns, Lower(text))
    case Some(n) => Min(n, 4)
    case None => 2
  }

  /** The first pattern with a match decides: its captured number is read
      in full, however many digits it has, and capped at four. */
  lemma {:induction false} FirstHopsFirst(patterns: seq<HopPattern>, s: string, k: nat, i: nat)
    requires k < |patterns|
    requires forall m | 0 <= m < k :: Search(patterns[m], s, 0).None?
    requires Search(patterns[k], s, 0) == Some(i)
    ensures FirstHops(patterns, s) == Some(DigitsValue(CapturedAt(patterns[k], s, i)))
    decreases k
  {
    if k > 0 {
      assert Search(patterns[0], s, 0).None?;
      forall m | 0 <= m < k - 1 ensures Search(patterns[1..][m], s, 0).None? {
        assert patterns[1..][m] == patterns[m + 1];
      }
      FirstHopsFirst(patterns[1..], s, k - 1, i);
    }
  }

  /** No pattern matching anywhere gives no number. */
  lemma {:induction false} FirstHopsNone(patterns: seq<HopPattern>, s: string)
    requires forall m | 0 <= m < |patterns| :: Search(patterns[m], s, 0).None?
    ensures FirstHops(patterns, s) == None
    decreases |patterns|
  {
    if patterns != [] {
      assert Search(patterns[0], s, 0).None?;
      forall m | 0 <= m < |patterns| - 1 ensures Search(patterns[1..][m], s, 0).None? {
        assert patterns[1..][m] == patterns[m + 1];
      }
      FirstHopsNone(patterns[1..], s);
    }
  }

  /** `parse_hops_from_text` over all texts: the patterns are tried in
      order on the lower-cased text, and the first one `re.search` finds
      gives its captured number capped at four; with no match, two hops. */
  lemma ParseHopsFirstMatch(text: string, k: nat, i: nat)
    requires k < |HopPatterns|
    requires forall m | 0 <= m < k :: Search(HopPatterns[m], Lower(text), 0).None?
    requires Search(HopPatterns[k], Lower(text), 0) == Some(i)
    ensures ParseHops(text) == Min(DigitsValue(CapturedAt(HopPatterns[k], Lower(text), i)), 4)
    ensures ParseHops(text) <= 4
  {
    FirstHopsFirst(HopPatterns, Lower(text), k, i);
  }

  lemma ParseHopsNoMatch(text: string)
    requires forall m | 0 <= m < |HopPatterns| :: Search(HopPatterns[m], Lower(text), 0).None?
    ensures ParseHops(text) == 2
  {
    FirstHopsNone(HopPatterns, Lower(text));
  }

  /** Every pattern captures a digit, so a text without digits defaults to
      two hops. */
  lemma ParseHopsDefault(text: string)
    requires forall k | 0 <= k < |text| :: !IsDigit(text[k])
    ensures ParseHops(text) == 2
  {
    var s := Lower(text);
    forall k | 0 <= k < |s| ensures !IsDigit(s[k]) {
      LowerAt(text, k);
    }
    NoDigitNoHops(HopPatterns, s);
  }

  lemma {:induction false} NoDigitNoHops(patterns: seq<HopPattern>, s: string)
    requires forall k | 0 <= k < |s| :: !IsDigit(s[k])
    ensures FirstHops(patterns, s) == None
    decreases |patterns|
  {
    if patterns != [] {
      NoDigitNoHops(patterns[1..], s);
    }
  }

  /** A text without upper-case letters is its own lower-case form. */
  lemma {:induction false} LowerUnchanged(s: string)
    requires forall k | 0 <= k < |s| :: !('A' <= s[k] <= 'Z')
    ensures Lower(s) == s
  {
    if s != [] {
      LowerUnchanged(s[1..]);
    }
  }

  /** A digit followed by " hops" is read as that number, capped at four. */
  lemma ParseHopsNumberHop(d: char)
    requires IsDigit(d)
    ensures ParseHops([d] + " hops") == Min(d as int - '0' as int, 4)
  {
    var s := [d] + " hops";
    assert s == [d, ' ', 'h', 'o', 'p', 's'];
    LowerUnchanged(s);
    assert DigitRunEnd(s, 0) == 1;
    assert SpaceRunEnd(s, 1) == 2;
    assert OccursAt(s, "hop", 2);
    assert MatchesAt(NumberThen("hop"), s, 0);
    assert HopPatterns[0] == NumberThen("hop");
    assert Search(NumberThen("hop"), s, 0) == Some(0);
    assert CapturedAt(NumberThen("hop"), s, 0) == [d];
    assert [d][..0] == [];
    assert DigitsValue([d]) == d as int - '0' as int;
    assert FirstHops(HopPatterns, s) == Some(d as int - '0' as int);
  }

  // ------------------------------------------------------ path discovery

  /** What the path search reads of a subgraph dictionary; the edge index
      may be missing. */
  datatype SubgraphData = SubgraphData(vidToIdx: map<string, nat>, idxToVid: seq<string>, edgeIndex: Option<seq<Column>>)

  function DataOf(sg: Subgraph): SubgraphData {
    SubgraphData(sg.vidToIdx, sg.idxToVid, Some(sg.edgeIndex))
  }

  /** A consistent numbering, and every edge index names a numbered vertex. */
  predicate WellFormed(d: SubgraphData) {
    Valid(Registry(d.vidToIdx, d.idxToVid)) &&
    (d.edgeIndex.Some? ==> forall c | c in d.edgeIndex.value :: c.0 < |d.idxToVid| && c.1 < |d.idxToVid|)
  }

  /** A column of the edge index runs from `u` to `v`. */
  predicate Joined(d: SubgraphData, u: string, v: string) {
    u in d.vidToIdx && v in d.vidToIdx && d.edgeIndex.Some? && (d.vidToIdx[u], d.vidToIdx[v]) in d.edgeIndex.value
  }

  /** `p` walks from `from` to `to` along edge-index columns. */
  predicate IsPathIn(d: SubgraphData, p: seq<string>, from: string, to: string) {
    |p| > 0 && p[0] == from && p[|p| - 1] == to &&
    forall k | 0 <= k < |p| - 1 :: Joined(d, p[k], p[k + 1])
  }

  /** The destinations of the columns leaving `u`, in column order. */
  function Neighbors(edges: seq<Column>, u: nat): (r: seq<nat>)
    ensures |r| <= |edges|
    ensures forall v | v in r :: (u, v) in edges
  {
    if edges == [] then []
    else
      var last := edges[|edges| - 1];
      var rest := Neighbors(edges[..|edges| - 1], u);
      if last.0 == u then rest + [last.1] else rest
  }

  lemma {:induction false} NeighborsComplete(edges: seq<Column>, u: nat, v: nat)
    requires (u, v) in edges
    ensures v in Neighbors(edges, u)
    decreases |edges|
  {
    var n := |edges| - 1;
    if edges[n] != (u, v) {
      assert (u, v) in edges[..n];
      NeighborsComplete(edges[..n], u, v);
    }
  }

  function AdjGet(adj: map<nat, seq<nat>>, u: nat): seq<nat> {
    if u in adj then adj[u] else []
  }

  /** The adjacency loop of `find_paths_bfs`. */
  method BuildAdjacency(edges: seq<Column>) returns (adj: map<nat, seq<nat>>)
    ensures forall u :: AdjGet(adj, u) == Neighbors(edges, u)
  {
    adj := map[];
    var i := 0;
    while i < |edges|
      invariant 0 <= i <= |edges|
      invariant forall u :: AdjGet(adj, u) == Neighbors(edges[..i], u)
    {
      var src, dst := edges[i].0, edges[i].1;
      assert edges[..i + 1][..i] == edges[..i];
      if src !in adj {
        adj := adj[src := []];
      }
      adj := adj[src := adj[src] + [dst]];
      i := i + 1;
    }
    assert edges[..i] == edges;
  }

  /** A queue entry: a numbered vertex and a path from `start` along
      columns that ends at it. */
  predicate Reached(d: SubgraphData, start: string, e: (nat, seq<string>)) {
    e.0 < |d.idxToVid| && |e.1| > 0 && e.1[0] == start && e.1[|e.1| - 1] == d.idxToVid[e.0] &&
    forall k | 0 <= k < |e.1| - 1 :: Joined(d, e.1[k], e.1[k + 1])
  }

  /** Termination measure: an entry of `len` vertices can spawn at most
      `degree` entries one longer, and entries of `limit` vertices spawn
      none. */
  function Work(len: int, limit: int, degree: nat): nat
    decreases limit - len
  {
    if len >= limit then 1 else 1 + degree * Work(len + 1, limit, degree)
  }

  function QueueWork(q: seq<(nat, seq<string>)>, limit: int, degree: nat): nat {
    if q == [] then 0 else QueueWork(q[..|q| - 1], limit, degree) + Work(|q[|q| - 1].1|, limit, degree)
  }

  lemma QueueWorkAppend(q: seq<(nat, seq<string>)>, x: (nat, seq<string>), limit: int, degree: nat)
    ensures QueueWork(q + [x], limit, degree) == QueueWork(q, limit, degree) + Work(|x.1|, limit, degree)
  {
    assert (q + [x])[..|q|] == q;
  }

  lemma {:induction false} QueueWorkFront(q: seq<(nat, seq<string>)>, limit: int, degree: nat)
    requires q != []
    ensures QueueWork(q, limit, degree) == Work(|q[0].1|, limit, degree) + QueueWork(q[1..], limit, degree)
    decreases |q|
  {
    if |q| > 1 {
      var n := |q| - 1;
      QueueWorkFront(q[..n], limit, degree);
      assert q[..n][1..] == q[1..][..n - 1];
    }
  }

  lemma MulMono(a: nat, b: nat, c: nat)
    requires a <= b
    ensures a * c <= b * c
  {
  }

  /** The map keys common to both sampled subgraphs: the bridge candidates. */
  function Shared(a: Subgraph, b: Subgraph): set<string> {
    a.vidToIdx.Keys * b.vidToIdx.Keys
  }

  /** `p` is a path of `a` from `from` to a tried bridge, followed by a path
      of `b` from that bridge to `to`, each of at most `hops` steps. */
  predicate IsBridgePath(a: SubgraphData, b: SubgraphData, from: string, to: string, p: seq<string>, hops: int, tried: seq<string>) {
    exists k | 0 <= k < |p| ::
      p[k] in tried && k <= hops && |p| - 1 - k <= hops &&
      IsPathIn(a, p[..k + 1], from, p[k]) && IsPathIn(b, p[k..], p[k], to)
  }

  lemma CombinedIsBridge(a: SubgraphData, b: SubgraphData, from: string, to: string,
                         pa: seq<string>, pb: seq<string>, bridge: string, hops: int, tried: seq<string>)
    requires IsPathIn(a, pa, from, bridge) && |pa| <= hops + 1
    requires IsPathIn(b, pb, bridge, to) && |pb| <= hops + 1
    requires bridge in tried
    ensures IsBridgePath(a, b, from, to, pa + pb[1..], hops, tried)
  {
    var p := pa + pb[1..];
    var k := |pa| - 1;
    assert p[..k + 1] == pa;
    assert p[k..] == pb;
    assert p[k] == bridge;
  }

  /** The result dictionary of `find_multihop_relationships`; `bridgeNodes`
      is empty where the dictionary has no such key. */
  datatype Multihop = Multihop(found: bool, paths: seq<seq<string>>, subgraph: Subgraph, methodName: string, bridgeNodes: seq<string>)

  /** The direct case: B was sampled around A. */
  predicate DirectResult(res: Multihop, sgA: Subgraph, a: string, b: string, maxHops: int) {
    res.found && res.methodName == "direct_subgraph" && res.subgraph == sgA && res.bridgeNodes == [] &&
    |res.paths| <= 5 &&
    forall p | p in res.paths :: IsPathIn(DataOf(sgA), p, a, b) && |p| <= maxHops + 1
  }

  /** The bridge and no-connection cases. */
  predicate BridgeResult(res: Multihop, sgA: Subgraph, sgB: Subgraph, a: string, b: string, maxHops: int) {
    res.subgraph == sgA && IsEnumeration(res.bridgeNodes, Shared(sgA, sgB)) &&
    (res.bridgeNodes != [] ==>
      res.found && res.methodName == "bridge_nodes" && |res.paths| <= 5 &&
      forall p | p in res.paths ::
        IsBridgePath(DataOf(sgA), DataOf(sgB), a, b, p, maxHops / 2, res.bridgeNodes[..Min(3, |res.bridgeNodes|)])) &&
    (res.bridgeNodes == [] ==> !res.found && res.methodName == "no_connection" && res.paths == [])
  }

  /** The direct path `target.1` is found, or no path is found yet and it
      waits in the queue behind entries that do not reach its vertex. */
  predicate DirectPending(queue: seq<(nat, seq<string>)>, paths: seq<seq<string>>, target: (nat, seq<string>)) {
    target.1 in paths ||
    (paths == [] &&
     exists j | 0 <= j < |queue| ::
       queue[j] == target && forall i | 0 <= i < j :: queue[i].0 == target.0 ==> queue[i] == target)
  }

  /** The first turn, from `[start]`, queues the direct path `[start, end]`
      when a column joins the two, and queues no other path ending at `end`. */
  lemma FirstTurnPending(d: SubgraphData, edges: seq<Column>, start: string, end: string,
                         queue: seq<(nat, seq<string>)>, queue': seq<(nat, seq<string>)>)
    requires WellFormed(d) && d.edgeIndex == Some(edges)
    requires Joined(d, start, end) && start != end
    requires queue == [(d.vidToIdx[start], [start])]
    requires forall k | |queue| - 1 <= k < |queue'| ::
      queue'[k].0 < |d.idxToVid| && queue'[k].1 == queue[0].1 + [d.idxToVid[queue'[k].0]]
    requires forall v | v in Neighbors(edges, queue[0].0) :: v < |d.idxToVid| && (v, queue[0].1 + [d.idxToVid[v]]) in queue'
    ensures d.vidToIdx[start] != d.vidToIdx[end]
    ensures DirectPending(queue', [], (d.vidToIdx[end], [start, end]))
  {
    var startIdx, endIdx := d.vidToIdx[start], d.vidToIdx[end];
    var target := (endIdx, [start, end]);
    assert d.idxToVid[startIdx] == start && d.idxToVid[endIdx] == end;
    NeighborsComplete(edges, startIdx, endIdx);
    assert [start] + [d.idxToVid[endIdx]] == [start, end];
    assert target in queue';
    forall k | 0 <= k < |queue'| && queue'[k].0 == endIdx
      ensures queue'[k] == target
    {
      assert queue'[k].1 == [start] + [d.idxToVid[endIdx]];
    }
    PendingStart(queue', target);
  }

  /** After the first turn every queued entry reaching the target's vertex
      is the target. */
  lemma PendingStart(queue: seq<(nat, seq<string>)>, target: (nat, seq<string>))
    requires target in queue
    requires forall k | 0 <= k < |queue| :: queue[k].0 == target.0 ==> queue[k] == target
    ensures DirectPending(queue, [], target)
  {
    var j :| 0 <= j < |queue| && queue[j] == target;
  }

  /** One turn keeps the direct path pending or finds it: the turn either
      dequeues it, or dequeues an entry that adds no path and leaves the
      rest of the queue in front. */
  lemma PendingStep(queue: seq<(nat, seq<string>)>, queue': seq<(nat, seq<string>)>,
                    paths: seq<seq<string>>, paths': seq<seq<string>>, target: (nat, seq<string>), maxHops: int)
    requires DirectPending(queue, paths, target) && queue != []
    requires |target.1| <= maxHops + 1
    requires queue[1..] <= queue'
    requires paths' == if |queue[0].1| <= maxHops + 1 && queue[0].0 == target.0 then paths + [queue[0].1] else paths
    ensures DirectPending(queue', paths', target)
  {
    if target.1 !in paths {
      var j :| 0 <= j < |queue| && queue[j] == target && forall i | 0 <= i < j :: queue[i].0 == target.0 ==> queue[i] == target;
      if j == 0 {
        assert paths' == [target.1];
      } else {
        assert queue[0].0 != target.0 || queue[0] == target;
        if queue[0].0 == target.0 {
          assert paths' == [target.1];
        } else {
          assert queue'[j - 1] == queue[j];
          assert forall i | 0 <= i < j - 1 :: queue'[i] == queue[i + 1];
        }
      }
    }
  }

  class PathFinder {
    const sampler: SubgraphSampler

    constructor(sampler: SubgraphSampler)
      ensures this.sampler == sampler
    {
      this.sampler := sampler;
    }

    /** `find_paths_bfs`: breadth-first search from `start`, a vertex being
        revisited while the current path has at most two vertices, stopping
        at five paths; paths longer than `maxHops + 1` vertices are dropped
        when dequeued. */
    method FindPathsBfs(d: SubgraphData, start: string, end: string, maxHops: int) returns (paths: seq<seq<string>>)
      requires WellFormed(d)
      ensures |paths| <= 5
      ensures forall p | p in paths :: IsPathIn(d, p, start, end) && |p| <= maxHops + 1
      ensures start !in d.vidToIdx || end !in d.vidToIdx || d.edgeIndex.None? ==> paths == []
      ensures start == end && start in d.vidToIdx && d.edgeIndex.Some? && maxHops >= 0 ==> paths == [[start]]
      // an edge from start to end is always found, as the path [start, end]
      ensures end in d.vidToIdx && Joined(d, start, end) && maxHops >= 1 ==> paths != []
      ensures start != end && end in d.vidToIdx && Joined(d, start, end) && maxHops >= 1 ==> [start, end] in paths
    {
      if start !in d.vidToIdx || end !in d.vidToIdx {
        return [];
      }
      var startIdx := d.vidToIdx[start];
      var endIdx := d.vidToIdx[end];
      var queue: seq<(nat, seq<string>)> := [(startIdx, [start])];
      var visited: set<nat> := {startIdx};
      paths := [];
      if d.edgeIndex.None? {
        return [];
      }
      var edges := d.edgeIndex.value;
      var adj := BuildAdjacency(edges);
      ghost var limit := maxHops + 2;
      ghost var degree := |edges|;
      ghost var direct := Joined(d, start, end) && maxHops >= 1;
      ghost var target := (endIdx, [start, end]);
      ghost var started := false;
      while queue != [] && |paths| < 5
        invariant |paths| <= 5
        invariant forall e | e in queue :: Reached(d, start, e)
        invariant forall p | p in paths :: IsPathIn(d, p, start, end) && |p| <= maxHops + 1
        invariant !started ==> queue == [(startIdx, [start])] && paths == []
        invariant started && start == end && maxHops >= 0 ==> paths == [[start]] && queue == []
        invariant started && direct && start != end ==> DirectPending(queue, paths, target)
        decreases QueueWork(queue, limit, degree)
      {
        ghost var before, pathsBefore := queue, paths;
        queue, visited, paths := Visit(d, edges, adj, start, end, endIdx, maxHops, queue, visited, paths, limit, degree);
        if started && direct && start != end {
          PendingStep(before, queue, pathsBefore, paths, target, maxHops);
        }
        if !started && direct && start != end {
          FirstTurnPending(d, edges, start, end, before, queue);
        }
        started := true;
      }
    }

    /** One turn of the loop of `find_paths_bfs`: the head of the queue is
        dropped when its path is too long, kept as an answer when it reaches
        `end`, and otherwise expanded along its vertex's columns. */
    static method Visit(d: SubgraphData, edges: seq<Column>, adj: map<nat, seq<nat>>, start: string, end: string, endIdx: nat,
                        maxHops: int, queue: seq<(nat, seq<string>)>, visited: set<nat>, paths: seq<seq<string>>,
                        ghost limit: int, ghost degree: nat)
      returns (queue': seq<(nat, seq<string>)>, visited': set<nat>, paths': seq<seq<string>>)
      requires WellFormed(d) && d.edgeIndex == Some(edges)
      requires forall u :: AdjGet(adj, u) == Neighbors(edges, u)
      requires end in d.vidToIdx && endIdx == d.vidToIdx[end]
      requires limit == maxHops + 2 && degree == |edges|
      requires queue != [] && forall e | e in queue :: Reached(d, start, e)
      requires forall p | p in paths :: IsPathIn(d, p, start, end) && |p| <= maxHops + 1
      ensures forall e | e in queue' :: Reached(d, start, e)
      ensures forall p | p in paths' :: IsPathIn(d, p, start, end) && |p| <= maxHops + 1
      ensures QueueWork(queue', limit, degree) < QueueWork(queue, limit, degree)
      // the rest of the queue stays queued, in front of the new entries,
      // each of which extends the head's path by one vertex
      ensures queue[1..] <= queue'
      ensures forall k | |queue| - 1 <= k < |queue'| ::
        queue'[k].0 < |d.idxToVid| && queue'[k].1 == queue[0].1 + [d.idxToVid[queue'[k].0]]
      ensures paths' == if |queue[0].1| <= maxHops + 1 && queue[0].0 == endIdx then paths + [queue[0].1] else paths
      ensures queue[0].0 == endIdx ==> queue' == queue[1..]
      // a path of at most two vertices is extended by every neighbour, visited or not
      ensures |queue[0].1| <= 2 && |queue[0].1| <= maxHops + 1 && queue[0].0 != endIdx ==>
        forall v | v in Neighbors(edges, queue[0].0) :: v < |d.idxToVid| && (v, queue[0].1 + [d.idxToVid[v]]) in queue'
    {
      var entry := queue[0];
      assert entry in queue;
      QueueWorkFront(queue, limit, degree);
      queue', visited', paths' := queue[1..], visited, paths;
      var current, path := entry.0, entry.1;
      if |path| > maxHops + 1 {
      } else if current == endIdx {
        assert d.idxToVid[endIdx] == end;
        paths' := paths + [path];
      } else {
        queue', visited' := ExpandEntry(d, edges, adj, start, entry, queue[1..], visited, limit, degree);
      }
    }

    /** The expanding branch of one turn: the entry's neighbours, looked up
        in the adjacency table, are queued after the rest of the queue. */
    static method ExpandEntry(d: SubgraphData, edges: seq<Column>, adj: map<nat, seq<nat>>, start: string,
                              entry: (nat, seq<string>), queue: seq<(nat, seq<string>)>, visited: set<nat>,
                              ghost limit: int, ghost degree: nat)
      returns (queue': seq<(nat, seq<string>)>, visited': set<nat>)
      requires WellFormed(d) && d.edgeIndex == Some(edges)
      requires forall u :: AdjGet(adj, u) == Neighbors(edges, u)
      requires degree == |edges| && |entry.1| < limit
      requires Reached(d, start, entry)
      requires forall e | e in queue :: Reached(d, start, e)
      ensures forall e | e in queue' :: Reached(d, start, e)
      ensures queue <= queue'
      ensures forall k | |queue| <= k < |queue'| ::
        queue'[k].0 < |d.idxToVid| && queue'[k].1 == entry.1 + [d.idxToVid[queue'[k].0]]
      ensures QueueWork(queue', limit, degree) < QueueWork(queue, limit, degree) + Work(|entry.1|, limit, degree)
      ensures |entry.1| <= 2 ==>
        forall v | v in Neighbors(edges, entry.0) :: v < |d.idxToVid| && (v, entry.1 + [d.idxToVid[v]]) in queue'
    {
      var current, path := entry.0, entry.1;
      var neighbors := if current in adj then adj[current] else [];
      assert neighbors == Neighbors(edges, current) by {
        assert AdjGet(adj, current) == Neighbors(edges, current);
      }
      assert forall i | 0 <= i < |neighbors| :: (current, neighbors[i]) in edges && neighbors[i] < |d.idxToVid| by {
        forall i | 0 <= i < |neighbors|
          ensures (current, neighbors[i]) in edges && neighbors[i] < |d.idxToVid|
        {
          assert neighbors[i] in neighbors;
        }
      }
      queue', visited' := Expand(d, edges, start, current, path, neighbors, queue, visited, limit, degree);
      MulMono(|neighbors|, degree, Work(|path| + 1, limit, degree));
      if |path| <= 2 {
        forall v | v in neighbors
          ensures v < |d.idxToVid| && (v, path + [d.idxToVid[v]]) in queue'
        {
          var i :| 0 <= i < |neighbors| && neighbors[i] == v;
        }
      }
    }

    /** The neighbour loop of `find_paths_bfs` for one dequeued entry: a
        neighbour is queued, one vertex further, when it is unvisited or the
        path has at most two vertices, and marked visited only when the path
        is longer. */
    static method Expand(d: SubgraphData, edges: seq<Column>, start: string, current: nat, path: seq<string>,
                         neighbors: seq<nat>, queue: seq<(nat, seq<string>)>, visited: set<nat>,
                         ghost limit: int, ghost degree: nat)
      returns (queue': seq<(nat, seq<string>)>, visited': set<nat>)
      requires WellFormed(d) && d.edgeIndex == Some(edges)
      requires Reached(d, start, (current, path))
      requires forall i | 0 <= i < |neighbors| :: (current, neighbors[i]) in edges && neighbors[i] < |d.idxToVid|
      requires forall e | e in queue :: Reached(d, start, e)
      ensures forall e | e in queue' :: Reached(d, start, e)
      ensures queue <= queue'
      ensures forall k | |queue| <= k < |queue'| ::
        queue'[k].0 < |d.idxToVid| && queue'[k].1 == path + [d.idxToVid[queue'[k].0]]
      ensures QueueWork(queue', limit, degree) <= QueueWork(queue, limit, degree) + |neighbors| * Work(|path| + 1, limit, degree)
      ensures |path| <= 2 ==> forall i | 0 <= i < |neighbors| :: (neighbors[i], path + [d.idxToVid[neighbors[i]]]) in queue'
    {
      queue', visited' := queue, visited;
      var j := 0;
      while j < |neighbors|
        invariant 0 <= j <= |neighbors|
        invariant forall e | e in queue' :: Reached(d, start, e)
        invariant queue <= queue'
        invariant forall k | |queue| <= k < |queue'| ::
          queue'[k].0 < |d.idxToVid| && queue'[k].1 == path + [d.idxToVid[queue'[k].0]]
        invariant QueueWork(queue', limit, degree) <= QueueWork(queue, limit, degree) + j * Work(|path| + 1, limit, degree)
        invariant |path| <= 2 ==> forall i | 0 <= i < j :: (neighbors[i], path + [d.idxToVid[neighbors[i]]]) in queue'
      {
        var next := neighbors[j];
        if next !in visited' || |path| <= 2 {
          var nextVid := d.idxToVid[next];
          assert Joined(d, path[|path| - 1], nextVid);
          var e := (next, path + [nextVid]);
          QueueWorkAppend(queue', e, limit, degree);
          queue' := queue' + [e];
          if |path| > 2 {
            visited' := visited' + {next};
          }
        }
        assert (j + 1) * Work(|path| + 1, limit, degree) == j * Work(|path| + 1, limit, degree) + Work(|path| + 1, limit, degree);
        j := j + 1;
      }
    }

    function Remote(): Graph
      reads this, sampler, sampler.pool
    {
      sampler.pool.graph
    }

    /** `find_multihop_relationships`: sample around A (500 vertices, `maxHops`
        hops); if B was reached, search paths there; otherwise sample around
        B with half the hops and join paths through at most three shared
        vertices, two paths on each side, keeping five. */
    method FindMultihopRelationships(a: string, b: string, maxHops: int)
      returns (r: Result<Multihop>, ghost orderA: seq<string>, ghost orderB: seq<string>)
      modifies sampler, sampler.pool
      ensures Remote() == old(Remote())
      ensures match SampleSpec(Remote(), a, maxHops, true, 500, orderA)
        case Err(e) => r == Err(e)
        case Ok(sgA) =>
          if b in sgA.vidToIdx then r.Ok? && DirectResult(r.value, sgA, a, b, maxHops)
          else match SampleSpec(Remote(), b, maxHops / 2, true, 500, orderB)
            case Err(e) => r == Err(e)
            case Ok(sgB) => r.Ok? && BridgeResult(r.value, sgA, sgB, a, b, maxHops)
    {
      var resultA;
      resultA, orderA := sampler.SampleSubgraph(a, maxHops, true, 500);
      orderB := [];
      if resultA.Err? {
        return Err(resultA.error), orderA, orderB;
      }
      var sgA := resultA.value;
      SampleShape(Remote(), a, maxHops, true, 500, orderA);
      var dataA := DataOf(sgA);
      if b in sgA.vidToIdx {
        var paths := FindPathsBfs(dataA, a, b, maxHops);
        return Ok(Multihop(true, paths, sgA, "direct_subgraph", [])), orderA, orderB;
      }
      var resultB;
      resultB, orderB := sampler.SampleSubgraph(b, maxHops / 2, true, 500);
      if resultB.Err? {
        return Err(resultB.error), orderA, orderB;
      }
      var sgB := resultB.value;
      SampleShape(Remote(), b, maxHops / 2, true, 500, orderB);
      var res := BridgeCase(sgA, sgB, a, b, maxHops);
      r := Ok(res);
    }

    /** The second half of `find_multihop_relationships`: the vertices both
        subgraphs number are the bridges; without any there is no
        connection. */
    method BridgeCase(sgA: Subgraph, sgB: Subgraph, a: string, b: string, maxHops: int) returns (res: Multihop)
      requires WellFormed(DataOf(sgA)) && WellFormed(DataOf(sgB))
      ensures BridgeResult(res, sgA, sgB, a, b, maxHops)
    {
      var dataA, dataB := DataOf(sgA), DataOf(sgB);
      var intersection := sgA.vidToIdx.Keys * sgB.vidToIdx.Keys;
      if intersection == {} {
        return Multihop(false, [], sgA, "no_connection", []);
      }
      var bridges := ListOf(intersection);
      var tried := bridges[..Min(3, |bridges|)];
      var half := maxHops / 2;
      var bridgePaths := JoinBridges(dataA, dataB, a, b, tried, half);
      var kept := bridgePaths[..Min(5, |bridgePaths|)];
      assert forall p | p in kept :: p in bridgePaths;
      res := Multihop(true, kept, sgA, "bridge_nodes", bridges);
    }
    /** The bridge loops of `find_multihop_relationships`: for each tried
        bridge, the first two paths from A to it and the first two from it to
        B, joined without repeating the bridge. */
    method JoinBridges(dataA: SubgraphData, dataB: SubgraphData, a: string, b: string, tried: seq<string>, half: int)
      returns (bridgePaths: seq<seq<string>>)
      requires WellFormed(dataA) && WellFormed(dataB)
      ensures |bridgePaths| <= 4 * |tried|
      ensures forall p | p in bridgePaths :: IsBridgePath(dataA, dataB, a, b, p, half, tried)
    {
      bridgePaths := [];
      var i := 0;
      while i < |tried|
        invariant 0 <= i <= |tried|
        invariant |bridgePaths| <= 4 * i
        invariant forall p | p in bridgePaths :: IsBridgePath(dataA, dataB, a, b, p, half, tried)
      {
        var bridge := tried[i];
        var pathsA := FindPathsBfs(dataA, a, bridge, half);
        var pathsB := FindPathsBfs(dataB, bridge, b, half);
        var firstA := pathsA[..Min(2, |pathsA|)];
        var firstB := pathsB[..Min(2, |pathsB|)];
        ghost var before := |bridgePaths|;
        var x := 0;
        while x < |firstA|
          invariant 0 <= x <= |firstA|
          invariant |bridgePaths| <= before + 2 * x
          invariant forall p | p in bridgePaths :: IsBridgePath(dataA, dataB, a, b, p, half, tried)
        {
          var y := 0;
          while y < |firstB|
            invariant 0 <= y <= |firstB|
            invariant |bridgePaths| <= before + 2 * x + y
            invariant forall p | p in bridgePaths :: IsBridgePath(dataA, dataB, a, b, p, half, tried)
          {
            assert firstA[x] in pathsA && firstB[y] in pathsB;
            CombinedIsBridge(dataA, dataB, a, b, firstA[x], firstB[y], bridge, half, tried);
            bridgePaths := bridgePaths + [firstA[x] + firstB[y][1..]];
            y := y + 1;
          }
          x := x + 1;
        }
        i := i + 1;
      }
    }
  }

  // --------------------------------------------------------------- answer

  /** The path's vertices shown by name where the table knows them. */
  function Names(table: seq<(string, string)>, path: seq<string>): (r: seq<string>)
    ensures |r| == |path|
    ensures forall k | 0 <= k < |path| :: r[k] == NameOf(table, path[k])
  {
    if path == [] then [] else Names(table, path[..|path| - 1]) + [NameOf(table, path[|path| - 1])]
  }

  /** One listed path: its number, its vertices joined by arrows, and its
      hop count `len(path) - 1`. */
  function PathLine(i: nat, table: seq<(string, string)>, path: seq<string>): string {
    LineOf(i, Names(table, path), |path|)
  }

  function LineOf(i: nat, names: seq<string>, length: nat): string {
    PathLabel(i) + Join(" → ", names) + HopsNote(length)
  }

  /** "路径{i}: ", the opening of a listed path. */
  function PathLabel(i: nat): string {
    "路径" + NatToString(i) + ": "
  }

  /** " ({len(path) - 1}跳)", the close of a listed path. */
  function HopsNote(length: nat): string {
    " (" + IntToString(length - 1) + "跳)"
  }

  /** The closing note naming the way the connection was found. */
  function MethodNote(res: Multihop): seq<string> {
    if res.methodName == "direct_subgraph" then ["\n✓ 通过直接子图搜索发现连接"]
    else if res.methodName == "bridge_nodes" then ["\n✓ 通过" + NatToString(|res.bridgeNodes|) + "个桥接节点发现连接"]
    else []
  }

  /** The first line of an answer with paths. */
  function Header(entityA: string, entityB: string, count: nat, maxHops: int): string {
    Within(maxHops) + ("范围内，" + entityA + "和" + entityB + "之间找到了" + NatToString(count) + "条连接路径：\n")
  }

  /** "Within {max_hops} hops", the opening both answers share. */
  function Within(maxHops: int): string {
    "在" + IntToString(maxHops) + "跳"
  }

  /** At most three listed paths, numbered from 1. */
  function ShownPaths(paths: seq<seq<string>>): (lines: seq<string>)
    ensures |lines| == Min(3, |paths|)
    ensures forall i | 0 <= i < |lines| :: lines[i] == PathLine(i + 1, EntityMap, paths[i])
  {
    seq(Min(3, |paths|), i requires 0 <= i < Min(3, |paths|) => PathLine(i + 1, EntityMap, paths[i]))
  }

  /** The answer when no path was found. */
  function NotFound(entityA: string, entityB: string, maxHops: int): string {
    Within(maxHops) + ("内没有找到" + entityA + "和" + entityB + "之间的连接。")
  }

  /** The lines of an answer with paths: the header, the shown paths and
      the method note. */
  function AnswerLines(entityA: string, entityB: string, paths: seq<seq<string>>, maxHops: int, res: Multihop): seq<string> {
    [Header(entityA, entityB, |paths|, maxHops)] + ShownPaths(paths) + MethodNote(res)
  }

  /** The answer `_format_answer` gives. */
  function Answer(entityA: string, entityB: string, paths: seq<seq<string>>, maxHops: int, res: Multihop): string {
    if paths == [] then NotFound(entityA, entityB, maxHops)
    else Join("\n", AnswerLines(entityA, entityB, paths, maxHops, res))
  }

  /** A listed path begins with its number and ends with its hop count,
      `len(path) - 1`. */
  lemma PathLineHops(i: nat, table: seq<(string, string)>, path: seq<string>)
    ensures StartsWith(PathLine(i, table, path), PathLabel(i))
    ensures EndsWith(PathLine(i, table, path), HopsNote(|path|))
  {
    Affixes(PathLabel(i), Join(" → ", Names(table, path)), HopsNote(|path|));
  }

  /** Two strings with one opening that differ in the next character: the
      one does not begin the other. */
  lemma DifferAfter(pre: string, a: string, b: string)
    requires a != [] && b != [] && a[0] != b[0]
    ensures !StartsWith(pre + b, pre + a)
  {
    assert (pre + a)[|pre|] == a[0] && (pre + b)[|pre|] == b[0];
  }

  /** An answer with paths never reads as the not-found sentence: the two
      part after "在{max_hops}跳", with "范" against "内". */
  lemma HeaderNotNotFound(entityA: string, entityB: string, count: nat, maxHops: int)
    ensures !StartsWith(NotFound(entityA, entityB, maxHops), Header(entityA, entityB, count, maxHops))
  {
    DifferAfter(Within(maxHops),
      "范围内，" + entityA + "和" + entityB + "之间找到了" + NatToString(count) + "条连接路径：\n",
      "内没有找到" + entityA + "和" + entityB + "之间的连接。");
  }

  /** What `_format_answer` promises: the not-found sentence exactly when
      there is no path; otherwise the header counting all paths, then one
      line for each of at most three paths, numbered from 1 and giving its
      `len(path) - 1` hops, then at most one note naming the method. */
  lemma FormatAnswerSound(entityA: string, entityB: string, paths: seq<seq<string>>, maxHops: int, res: Multihop)
    ensures Answer(entityA, entityB, paths, maxHops, res) == NotFound(entityA, entityB, maxHops) <==> paths == []
    ensures paths != [] ==>
      var lines := AnswerLines(entityA, entityB, paths, maxHops, res);
      var shown := Min(3, |paths|);
      Answer(entityA, entityB, paths, maxHops, res) == Join("\n", lines) &&
      StartsWith(Answer(entityA, entityB, paths, maxHops, res), Header(entityA, entityB, |paths|, maxHops)) &&
      |lines| == 1 + shown + |MethodNote(res)| &&
      lines[0] == Header(entityA, entityB, |paths|, maxHops) &&
      (forall i | 1 <= i <= shown ::
        lines[i] == PathLine(i, EntityMap, paths[i - 1]) &&
        StartsWith(lines[i], PathLabel(i)) &&
        EndsWith(lines[i], HopsNote(|paths[i - 1]|))) &&
      lines[1 + shown..] == MethodNote(res) &&
      (|MethodNote(res)| == 1 <==> res.methodName == "direct_subgraph" || res.methodName == "bridge_nodes") &&
      |MethodNote(res)| <= 1
  {
    if paths != [] {
      var lines := AnswerLines(entityA, entityB, paths, maxHops, res);
      var h := Header(entityA, entityB, |paths|, maxHops);
      JoinPrefix("\n", lines, 1);
      assert lines[..1] == [h];
      HeaderNotNotFound(entityA, entityB, |paths|, maxHops);
      forall i | 1 <= i <= Min(3, |paths|)
        ensures lines[i] == PathLine(i, EntityMap, paths[i - 1])
        ensures StartsWith(lines[i], PathLabel(i))
        ensures EndsWith(lines[i], HopsNote(|paths[i - 1]|))
      {
        PathLineHops(i, EntityMap, paths[i - 1]);
      }
    }
  }

  /** `MVPQuestionAnswering._format_answer`. */
  method FormatAnswer(entityA: string, entityB: string, paths: seq<seq<string>>, maxHops: int, res: Multihop)
    returns (answer: string)
    ensures answer == Answer(entityA, entityB, paths, maxHops, res)
  {
    if paths == [] {
      return NotFound(entityA, entityB, maxHops);
    }
    var shown := ShowPaths(paths);
    var lines := [Header(entityA, entityB, |paths|, maxHops)] + shown + MethodNote(res);
    answer := Join("\n", lines);
  }

  /** The path loop of `_format_answer`: one line for each of the first
      three paths. */
  method ShowPaths(paths: seq<seq<string>>) returns (lines: seq<string>)
    ensures lines == ShownPaths(paths)
  {
    lines := [];
    var shown := paths[..Min(3, |paths|)];
    var i := 0;
    while i < |shown|
      invariant 0 <= i <= |shown|
      invariant lines == ShownPaths(paths[..i])
    {
      var path := shown[i];
      var names := PathNames(path);
      ShownPathsStep(paths, i);
      lines := lines + [LineOf(i + 1, names, |path|)];
      i := i + 1;
    }
    ShownPathsCap(paths);
  }

  /** Listing one more path, among the first three, appends its line. */
  lemma ShownPathsStep(paths: seq<seq<string>>, i: nat)
    requires i < Min(3, |paths|)
    ensures ShownPaths(paths[..i + 1]) == ShownPaths(paths[..i]) + [PathLine(i + 1, EntityMap, paths[i])]
  {
    var a := ShownPaths(paths[..i + 1]);
    var b := ShownPaths(paths[..i]) + [PathLine(i + 1, EntityMap, paths[i])];
    assert |a| == |b|;
    forall k | 0 <= k < |a|
      ensures a[k] == b[k]
    {
      assert paths[..i + 1][k] == paths[k];
      if k < i {
        assert paths[..i][k] == paths[k];
      }
    }
  }

  /** Only the first three paths are listed. */
  lemma ShownPathsCap(paths: seq<seq<string>>)
    ensures ShownPaths(paths[..Min(3, |paths|)]) == ShownPaths(paths)
  {
    var m := Min(3, |paths|);
    var a := ShownPaths(paths[..m]);
    var b := ShownPaths(paths);
    assert |a| == |b|;
    forall k | 0 <= k < |a|
      ensures a[k] == b[k]
    {
      assert paths[..m][k] == paths[k];
    }
  }

  /** The name loop of `_format_answer` for one path. */
  method PathNames(path: seq<string>) returns (names: seq<string>)
    ensures names == Names(EntityMap, path)
  {
    names := [];
    var k := 0;
    while k < |path|
      invariant 0 <= k <= |path|
      invariant names == Names(EntityMap, path[..k])
    {
      assert path[..k + 1][..k] == path[..k];
      names := names + [NameOf(EntityMap, path[k])];
      k := k + 1;
    }
    assert path[..k] == path;
  }
}
