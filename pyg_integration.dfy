/** The converter between the graph database and PyTorch: a second
    get-or-add numbering of vertex ids, used to turn id lists into index
    tensors for the feature store and to map indices back to ids. */
module PygIntegration {
  import opened Common
  import opened IdRegistry
  import opened RemoteBackend

  /** `get_node_id_by_idx`: the id at `idx`, or `"unknown{idx}"` outside the
      table. */
  function NodeIdByIdx(r: Registry, idx: int): (id: string)
    ensures 0 <= idx < |r.toVid| ==> id == r.toVid[idx]
    ensures !(0 <= idx < |r.toVid|) ==> id == "unknown" + IntToString(idx)
  {
    if 0 <= idx < |r.toVid| then r.toVid[idx] else "unknown" + IntToString(idx)
  }

  /** The converter's `get_node_id_by_idx` as the id mapping handed to the
      stores. */
  function Mapper(r: Registry): int -> string {
    i => NodeIdByIdx(r, i)
  }

  /** Registering an id and looking its index up gives the id back. */
  lemma GetOrAddRoundTrip(r: Registry, id: string)
    requires Valid(r)
    ensures var res := Add(r, id); Valid(res.0) && NodeIdByIdx(res.0, res.1) == id
  {
    AddValid(r, id);
  }

  /** The index loop shared by `get_node_features` and `get_subgraph`: each
      id registered in turn, with the index it gets. */
  function Register(r: Registry, ids: seq<string>): (res: (Registry, seq<nat>))
    ensures res.0 == AddAll(r, ids) && |res.1| == |ids|
    decreases |ids|
  {
    if ids == [] then (r, [])
    else
      var n := |ids| - 1;
      var prev := Register(r, ids[..n]);
      var next := Add(prev.0, ids[n]);
      (next.0, prev.1 + [next.1])
  }

  /** Every index handed out is the index the final table gives its id:
      later registrations never renumber an id seen earlier. */
  lemma {:induction false} RegisterIndices(r: Registry, ids: seq<string>)
    ensures var res := Register(r, ids);
      forall k | 0 <= k < |ids| :: ids[k] in res.0.toIdx && res.1[k] == res.0.toIdx[ids[k]]
    decreases |ids|
  {
    if ids != [] {
      var n := |ids| - 1;
      RegisterIndices(r, ids[..n]);
      var prev := Register(r, ids[..n]);
      var next := Add(prev.0, ids[n]);
      var res := Register(r, ids);
      assert res == (next.0, prev.1 + [next.1]);
      forall k | 0 <= k < |ids|
        ensures ids[k] in res.0.toIdx && res.1[k] == res.0.toIdx[ids[k]]
      {
        if k < n {
          assert ids[..n][k] == ids[k];
          assert res.1[k] == prev.1[k];
        }
      }
    }
  }

  /** From a valid table, looking up any index handed out gives back the id
      it was handed out for. */
  lemma RegisterRoundTrip(r: Registry, ids: seq<string>)
    requires Valid(r)
    ensures var res := Register(r, ids);
      Valid(res.0) && forall k | 0 <= k < |ids| :: NodeIdByIdx(res.0, res.1[k]) == ids[k]
  {
    RegisterIndices(r, ids);
    AddAllValid(r, ids);
  }

  class NebulaToTorch {
    var idToIdx: map<string, nat>
    var idxToId: seq<string>
    const featureStore: FeatureStore

    constructor(featureStore: FeatureStore)
      ensures this.featureStore == featureStore
      ensures idToIdx == map[] && idxToId == []
    {
      this.featureStore := featureStore;
      idToIdx := map[];
      idxToId := [];
    }

    function Reg(): Registry
      reads this
    {
      Registry(idToIdx, idxToId)
    }

    /** `_get_or_add_id`. */
    method GetOrAddId(nodeId: string) returns (idx: nat)
      modifies this
      ensures (Reg(), idx) == Add(old(Reg()), nodeId)
    {
      if nodeId !in idToIdx {
        var next := |idxToId|;
        idToIdx := idToIdx[nodeId := next];
        idxToId := idxToId + [nodeId];
      }
      idx := idToIdx[nodeId];
    }

    /** The index loop: register each id in order, collecting its index. */
    method RegisterAll(ids: seq<string>) returns (indices: seq<nat>)
      modifies this
      ensures (Reg(), indices) == Register(old(Reg()), ids)
    {
      indices := [];
      var i := 0;
      while i < |ids|
        invariant 0 <= i <= |ids|
        invariant (Reg(), indices) == Register(old(Reg()), ids[..i])
      {
        assert ids[..i + 1][..i] == ids[..i];
        var idx := GetOrAddId(ids[i]);
        indices := indices + [idx];
        i := i + 1;
      }
      assert ids[..i] == ids;
    }

    /** `get_node_features`: the ids are numbered, and the feature store is
        asked for "embedding1" of `nodeType` at exactly those indices, in
        input order, with the converter's table as its id mapping. */
    method GetNodeFeatures(nodeIds: seq<string>, nodeType: string) returns (features: Result<Tensor>, ghost indices: seq<nat>)
      modifies this, featureStore
      ensures (Reg(), indices) == Register(old(Reg()), nodeIds)
      ensures featureStore.tensorCache == old(featureStore.tensorCache) && featureStore.idMapper == Some(Mapper(Reg()))
      ensures features == TensorView(featureStore.tensorCache, Some(Mapper(Reg())), featureStore.embedding,
                                     nodeType, "embedding1", Some(seq(|indices|, k requires 0 <= k < |indices| => indices[k] as int)))
    {
      var idx := RegisterAll(nodeIds);
      indices := idx;
      var asInts := seq(|idx|, k requires 0 <= k < |idx| => idx[k] as int);
      featureStore.idMapper := Some(Mapper(Reg()));
      features := featureStore.GetTensor(nodeType, "embedding1", Some(asInts));
    }

    /** The numbering part of `get_subgraph`: the centre ids first, in the
        given order, then every id of the loaded data not yet numbered. The
        neighbour loader's answer, `loadedIds`, is a parameter. The result
        is the centre indices handed to `loader.load_data`; the dictionary
        `get_subgraph` returns is not modelled. */
    method GetSubgraph(centerNodes: seq<string>, loadedIds: seq<string>) returns (indices: seq<nat>)
      modifies this
      ensures indices == Register(old(Reg()), centerNodes).1
      ensures Reg() == AddAll(AddAll(old(Reg()), centerNodes), loadedIds)
      ensures Extends(old(Reg()), Reg())
    {
      indices := RegisterAll(centerNodes);
      ghost var afterCenters := Reg();
      var i := 0;
      while i < |loadedIds|
        invariant 0 <= i <= |loadedIds|
        invariant Reg() == AddAll(afterCenters, loadedIds[..i])
      {
        assert loadedIds[..i + 1][..i] == loadedIds[..i];
        var nodeId := loadedIds[i];
        if nodeId !in idToIdx {
          var newIdx := |idxToId|;
          idToIdx := idToIdx[nodeId := newIdx];
          idxToId := idxToId + [nodeId];
        }
        i := i + 1;
      }
      assert loadedIds[..i] == loadedIds;
      AddAllTransitive(old(Reg()), centerNodes, loadedIds);
    }
  }

  lemma AddAllTransitive(r: Registry, a: seq<string>, b: seq<string>)
    ensures Extends(r, AddAll(AddAll(r, a), b))
  {
    var m := AddAll(r, a);
    var f := AddAll(m, b);
    assert r.toVid <= m.toVid <= f.toVid;
  }
}
