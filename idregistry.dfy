/** The dense vertex numbering kept by the subgraph sampler and by the PyG
    bridge: a dictionary from vertex id to index, and the list of ids in index
    order. An id seen for the first time is given the next free index. */
module IdRegistry {

  datatype Registry = Registry(toIdx: map<string, nat>, toVid: seq<string>)

  const Empty: Registry := Registry(map[], [])

  /** The two directions agree: indices run over 0..n-1 and each id has
      exactly one of them. */
  predicate Valid(r: Registry) {
    |r.toIdx| == |r.toVid| &&
    (forall v | v in r.toIdx :: r.toIdx[v] < |r.toVid| && r.toVid[r.toIdx[v]] == v) &&
    (forall i | 0 <= i < |r.toVid| :: r.toVid[i] in r.toIdx && r.toIdx[r.toVid[i]] == i)
  }

  /** Every index points into the list. */
  predicate Bounded(r: Registry) {
    forall v | v in r.toIdx :: r.toIdx[v] < |r.toVid|
  }

  /** The index of `v`, appending `v` first when it has none; the pair of the
      new registry and that index. */
  function Add(r: Registry, v: string): (res: (Registry, nat))
    ensures v in res.0.toIdx && res.0.toIdx[v] == res.1
    ensures Bounded(r) ==> Bounded(res.0) && res.1 < |res.0.toVid|
    ensures res.0.toIdx.Keys == r.toIdx.Keys + {v}
    ensures Extends(r, res.0)
    // an id already present is answered from the table, which stays as it was
    ensures v in r.toIdx ==> res.0 == r
    // an unseen id takes the next free index
    ensures v !in r.toIdx ==> res.1 == |r.toVid| && res.0.toVid == r.toVid + [v]
  {
    if v in r.toIdx then (r, r.toIdx[v])
    else (Registry(r.toIdx[v := |r.toVid|], r.toVid + [v]), |r.toVid|)
  }

  /** Adding keeps the numbering valid, and the index found names `v`: the
      round trip `toVid[toIdx[v]] == v`. */
  lemma AddValid(r: Registry, v: string)
    requires Valid(r)
    ensures var res := Add(r, v);
      Valid(res.0) && res.1 < |res.0.toVid| && res.0.toVid[res.1] == v
  {
  }

  /** `r2` keeps every id of `r1` at the index it had. */
  predicate Extends(r1: Registry, r2: Registry) {
    r1.toVid <= r2.toVid &&
    (forall v | v in r1.toIdx :: v in r2.toIdx && r2.toIdx[v] == r1.toIdx[v])
  }

  /** Registers every id of `vs`, left to right. */
  function AddAll(r: Registry, vs: seq<string>): (res: Registry)
    ensures Bounded(r) ==> Bounded(res)
    ensures forall v | v in vs :: v in res.toIdx
    ensures forall v | v in res.toIdx :: v in r.toIdx || v in vs
    ensures Extends(r, res)
    decreases |vs|
  {
    if vs == [] then r
    else
      var prev := AddAll(r, vs[..|vs| - 1]);
      assert vs == vs[..|vs| - 1] + [vs[|vs| - 1]];
      Add(prev, vs[|vs| - 1]).0
  }

  lemma {:induction false} AddAllValid(r: Registry, vs: seq<string>)
    requires Valid(r)
    ensures Valid(AddAll(r, vs))
    decreases |vs|
  {
    if vs != [] {
      AddAllValid(r, vs[..|vs| - 1]);
      AddValid(AddAll(r, vs[..|vs| - 1]), vs[|vs| - 1]);
    }
  }
}
