/** The PyG storage facade over the graph database: a feature store that
    caches tensors keyed by (vertex type, feature name) and otherwise asks the
    database for embeddings, and a graph store that caches edge indices keyed
    by (edge type, layout) and otherwise rebuilds them from one-hop samples. */
module RemoteBackend {
  import opened Common
  import opened SamplerSpec
  import Sampler

  // ------------------------------------------------------------------ tensors

  /** A tensor's contents: a 1-D tensor of values, or a 2-D tensor of rows of
      `width` values. Cells are plain reals. */
  datatype Tensor = Vector(values: seq<real>) | Matrix(width: nat, rows: seq<seq<real>>)

  /** Length of the first dimension. */
  function Rows(t: Tensor): nat {
    match t
    case Vector(v) => |v|
    case Matrix(_, rs) => |rs|
  }

  /** `tensor.size()`. */
  function Size(t: Tensor): (s: seq<nat>)
    ensures |s| == (if t.Vector? then 1 else 2) && s[0] == Rows(t)
  {
    match t
    case Vector(v) => [|v|]
    case Matrix(w, rs) => [|rs|, w]
  }

  /** Entry `i` along the first dimension, as a row. */
  function RowAt(t: Tensor, i: nat): seq<real>
    requires i < Rows(t)
  {
    match t
    case Vector(v) => [v[i]]
    case Matrix(_, rs) => rs[i]
  }

  /** An index torch accepts along a dimension of `n` entries; a negative one
      counts from the end. */
  predicate InRange(i: int, n: nat) { -(n as int) <= i < n }

  function Position(i: int, n: nat): (p: nat)
    requires InRange(i, n)
    ensures p < n
  {
    if i < 0 then i + n else i
  }

  predicate AllInRange(index: seq<int>, n: nat) {
    forall k | 0 <= k < |index| :: InRange(index[k], n)
  }

  function Positions(index: seq<int>, n: nat): (ps: seq<nat>)
    requires AllInRange(index, n)
    ensures |ps| == |index| && forall k | 0 <= k < |ps| :: ps[k] < n
  {
    seq(|index|, k requires 0 <= k < |index| => Position(index[k], n))
  }

  /** `t[index]`: the indexed entries, in index order. */
  function Select(t: Tensor, index: seq<int>): (r: Result<Tensor>)
    ensures r.Ok? <==> AllInRange(index, Rows(t))
    ensures r.Ok? ==>
      r.value.Vector? == t.Vector? && Rows(r.value) == |index| &&
      forall k | 0 <= k < |index| :: RowAt(r.value, k) == RowAt(t, Position(index[k], Rows(t)))
  {
    if !AllInRange(index, Rows(t)) then Err("IndexError")
    else
      var ps := Positions(index, Rows(t));
      match t
      case Vector(v) => Ok(Vector(seq(|ps|, k requires 0 <= k < |ps| => v[ps[k]])))
      case Matrix(w, rs) => Ok(Matrix(w, seq(|ps|, k requires 0 <= k < |ps| => rs[ps[k]])))
  }

  /** Writes `vals[k]` at `idx[k]` for k = 0, 1, ..., so that of two writes
      to one position the later wins. */
  function Overwrite<T>(xs: seq<T>, idx: seq<nat>, vals: seq<T>): (r: seq<T>)
    requires |idx| == |vals| && forall k | 0 <= k < |idx| :: idx[k] < |xs|
    ensures |r| == |xs|
    decreases |idx|
  {
    if idx == [] then xs
    else
      var n := |idx| - 1;
      Overwrite(xs, idx[..n], vals[..n])[idx[n] := vals[n]]
  }

  /** A position no write names keeps its value. */
  lemma {:induction false} OverwriteUntouched<T>(xs: seq<T>, idx: seq<nat>, vals: seq<T>, p: nat)
    requires |idx| == |vals| && forall k | 0 <= k < |idx| :: idx[k] < |xs|
    requires p < |xs| && p !in idx
    ensures Overwrite(xs, idx, vals)[p] == xs[p]
    decreases |idx|
  {
    if idx != [] {
      var n := |idx| - 1;
      assert forall x | x in idx[..n] :: x in idx;
      OverwriteUntouched(xs, idx[..n], vals[..n], p);
    }
  }

  /** The last write to a position is the value it ends with. */
  lemma {:induction false} OverwriteLast<T>(xs: seq<T>, idx: seq<nat>, vals: seq<T>, k: nat)
    requires |idx| == |vals| && forall j | 0 <= j < |idx| :: idx[j] < |xs|
    requires k < |idx| && forall j | k < j < |idx| :: idx[j] != idx[k]
    ensures Overwrite(xs, idx, vals)[idx[k]] == vals[k]
    decreases |idx|
  {
    var n := |idx| - 1;
    if k < n {
      OverwriteLast(xs, idx[..n], vals[..n], k);
    }
  }

  /** `xs` stretched to `n` entries as torch broadcasts a dimension: kept
      when it already has `n`, its one entry repeated when it has one. */
  function Stretch<T>(xs: seq<T>, n: nat): (r: Option<seq<T>>)
    ensures r.Some? <==> |xs| == n || |xs| == 1
    ensures r.Some? ==>
      (|r.value| == n && forall k | 0 <= k < n :: r.value[k] == (if |xs| == n then xs[k] else xs[0]))
  {
    if |xs| == n then Some(xs)
    else if |xs| == 1 then Some(seq(n, _ => xs[0]))
    else None
  }

  /** A 2-D tensor whose every row has its declared width. */
  predicate Shaped(t: Tensor) {
    t.Matrix? ==> forall k | 0 <= k < |t.rows| :: |t.rows[k]| == t.width
  }

  /** The `n` values a source broadcasts to for a 1-D target; a 2-D source
      must have a single row, which torch drops as a leading dimension of 1. */
  function VectorFill(src: Tensor, n: nat): Option<seq<real>> {
    match src
    case Vector(sv) => Stretch(sv, n)
    case Matrix(_, srs) => if |srs| == 1 then Stretch(srs[0], n) else None
  }

  /** The `n` rows of width `w` a source broadcasts to for a 2-D target: a
      1-D source is one row, and each dimension of 1 is repeated. */
  function MatrixFill(src: Tensor, n: nat, w: nat): Option<seq<seq<real>>> {
    match src
    case Vector(sv) =>
      (match Stretch(sv, w)
       case None => None
       case Some(row) => Some(seq(n, _ => row)))
    case Matrix(_, srs) =>
      (match Stretch(srs, n)
       case None => None
       case Some(rows) =>
         if forall k | 0 <= k < n :: Stretch(rows[k], w).Some? then
           Some(seq(n, k requires 0 <= k < n && Stretch(rows[k], w).Some? => Stretch(rows[k], w).value))
         else None)
  }

  /** The tensor `src` broadcasts to for `t[index]`: the value `t[index]`
      holds after `t[index] = src`. */
  function Filled(t: Tensor, index: seq<int>, src: Tensor): Option<Tensor> {
    match t
    case Vector(_) => (match VectorFill(src, |index|) case None => None case Some(vs) => Some(Vector(vs)))
    case Matrix(w, _) => (match MatrixFill(src, |index|, w) case None => None case Some(rs) => Some(Matrix(w, rs)))
  }

  /** `t[index] = src`: every index in range and a source torch can
      broadcast to the indexed shape, the broadcast rows being written in
      index order. */
  function Write(t: Tensor, index: seq<int>, src: Tensor): (r: Result<Tensor>)
    ensures r.Ok? <==> AllInRange(index, Rows(t)) && Filled(t, index, src).Some?
    ensures r.Ok? ==> Rows(r.value) == Rows(t) && r.value.Vector? == t.Vector? && (t.Matrix? ==> r.value.width == t.width)
    // the positions no index names keep their entries
    ensures r.Ok? ==> forall p | 0 <= p < Rows(t) && p !in Positions(index, Rows(t)) :: RowAt(r.value, p) == RowAt(t, p)
  {
    if !AllInRange(index, Rows(t)) then Err("IndexError")
    else
      var ps := Positions(index, Rows(t));
      match Filled(t, index, src)
      case None => Err("RuntimeError")
      case Some(f) =>
        match t
        case Vector(v) =>
          forall p | 0 <= p < |v| && p !in ps ensures Overwrite(v, ps, f.values)[p] == v[p] {
            OverwriteUntouched(v, ps, f.values, p);
          }
          Ok(Vector(Overwrite(v, ps, f.values)))
        case Matrix(w, rs) =>
          forall p | 0 <= p < |rs| && p !in ps ensures Overwrite(rs, ps, f.rows)[p] == rs[p] {
            OverwriteUntouched(rs, ps, f.rows, p);
          }
          Ok(Matrix(w, Overwrite(rs, ps, f.rows)))
  }

  /** A source already of the indexed shape is written as it is. */
  lemma FilledExact(t: Tensor, index: seq<int>, src: Tensor)
    requires (t.Vector? && src.Vector?) || (t.Matrix? && src.Matrix? && src.width == t.width && Shaped(src))
    requires Rows(src) == |index|
    ensures Filled(t, index, src) == Some(src)
  {
    if t.Matrix? {
      var rows := MatrixFill(src, |index|, t.width).value;
      assert rows == src.rows;
    }
  }

  /** A one-row source is repeated into every indexed row: `t[[0, 1]] =
      [[5, 6]]` writes [5, 6] into both rows. */
  lemma FilledOneRow(t: Tensor, index: seq<int>, row: seq<real>)
    requires t.Matrix? && |row| == t.width
    ensures Filled(t, index, Matrix(t.width, [row])) == Some(Matrix(t.width, seq(|index|, _ => row)))
    ensures Filled(t, index, Vector(row)) == Some(Matrix(t.width, seq(|index|, _ => row)))
  {
    var n := |index|;
    var rows := Stretch([row], n).value;
    assert forall k | 0 <= k < n :: rows[k] == row && Stretch(rows[k], t.width) == Some(row);
    assert MatrixFill(Matrix(t.width, [row]), n, t.width).value == seq(n, _ => row);
  }

  /** Reading back the indices just written gives what the source broadcast
      to, when no index names a position twice. */
  lemma WriteThenSelect(t: Tensor, index: seq<int>, src: Tensor)
    requires Write(t, index, src).Ok?
    requires Distinct(Positions(index, Rows(t)))
    ensures Select(Write(t, index, src).value, index) == Ok(Filled(t, index, src).value)
  {
    var ps := Positions(index, Rows(t));
    var f := Filled(t, index, src).value;
    var w := Write(t, index, src).value;
    var sel := Select(w, index).value;
    match t
    case Vector(v) =>
      forall k | 0 <= k < |index| ensures sel.values[k] == f.values[k] {
        OverwriteLast(v, ps, f.values, k);
        assert RowAt(sel, k) == RowAt(w, ps[k]);
      }
      assert sel.values == f.values;
    case Matrix(_, rs) =>
      forall k | 0 <= k < |index| ensures sel.rows[k] == f.rows[k] {
        OverwriteLast(rs, ps, f.rows, k);
        assert RowAt(sel, k) == RowAt(w, ps[k]);
      }
      assert sel.rows == f.rows;
  }

  /** `max(index)`. */
  function MaxOf(index: seq<int>): (m: int)
    requires index != []
    ensures m in index && forall k | 0 <= k < |index| :: index[k] <= m
    decreases |index|
  {
    if |index| == 1 then index[0]
    else
      var n := |index| - 1;
      var rest := MaxOf(index[..n]);
      assert forall k | 0 <= k < n :: index[..n][k] == index[k];
      if index[n] > rest then index[n] else rest
  }

  function Zeros(rows: nat, width: nat): (t: Tensor)
    ensures t.Matrix? && Rows(t) == rows && t.width == width
  {
    Matrix(width, seq(rows, _ => seq(width, _ => 0.0)))
  }

  /** The tensor an indexed put writes into under an absent key:
      `torch.zeros((max(index) + 1, tensor.size(1)))`, whose arguments fail
      in order on an empty index, on a 1-D tensor and on a negative size. */
  function Blank(tensor: Tensor, index: seq<int>): (r: Result<Tensor>)
    ensures r.Ok? <==> index != [] && tensor.Matrix? && MaxOf(index) + 1 >= 0
    ensures r.Ok? ==> r.value == Zeros(MaxOf(index) + 1, tensor.width)
  {
    if index == [] then Err("ValueError")
    else if tensor.Vector? then Err("IndexError")
    else if MaxOf(index) + 1 < 0 then Err("RuntimeError")
    else Ok(Zeros(MaxOf(index) + 1, tensor.width))
  }

  /** `"{group}{i}"` or the configured id mapping. */
  function FeatureVid(mapper: Option<int -> string>, group: string, i: int): string {
    match mapper
    case Some(f) => f(i)
    case None => group + IntToString(i)
  }

  /** The value read from the database for one vertex, 0.0 when it has none. */
  function Embedded(embedding: (string, string, string) -> Option<real>, vid: string, group: string, name: string): real {
    embedding(vid, group, name).GetOr(0.0)
  }

  /** `_get_tensor` as a function of the store's state. */
  function TensorView(cache: map<(string, string), Tensor>, mapper: Option<int -> string>,
                      embedding: (string, string, string) -> Option<real>,
                      group: string, name: string, index: Option<seq<int>>): (r: Result<Tensor>)
    // a cached tensor is answered whole or by rows
    ensures (group, name) in cache ==> r == (if index.None? then Ok(cache[(group, name)]) else Select(cache[(group, name)], index.value))
    // uncached and without an index: an empty tensor
    ensures (group, name) !in cache && index.None? ==> r == Ok(Vector([]))
    // uncached: one value per index, 0.0 for a vertex without one
    ensures (group, name) !in cache && index.Some? && index.value != [] ==>
      r.Ok? && r.value.Vector? && |r.value.values| == |index.value| &&
      forall k | 0 <= k < |index.value| ::
        r.value.values[k] == Embedded(embedding, FeatureVid(mapper, group, index.value[k]), group, name)
    ensures (group, name) !in cache && index == Some([]) ==> r == Ok(Matrix(1, []))
  {
    var key := (group, name);
    if key in cache then
      if index.None? then Ok(cache[key]) else Select(cache[key], index.value)
    else if index.None? then Ok(Vector([]))
    else if index.value == [] then Ok(Matrix(1, []))
    else
      var ix := index.value;
      Ok(Vector(seq(|ix|, k requires 0 <= k < |ix| => Embedded(embedding, FeatureVid(mapper, group, ix[k]), group, name))))
  }

  /** The cache entry an indexed put leaves, or the error it raises. */
  function PutIndexed(cache: map<(string, string), Tensor>, key: (string, string), tensor: Tensor, index: seq<int>): Result<Tensor> {
    var base := if key in cache then Ok(cache[key]) else Blank(tensor, index);
    match base
    case Err(e) => Err(e)
    case Ok(b) => Write(b, index, tensor)
  }

  /** An indexed put into an absent key, with distinct non-negative indices,
      reads back as written. */
  lemma PutIndexedReadsBack(cache: map<(string, string), Tensor>, key: (string, string), tensor: Tensor, index: seq<int>)
    requires key !in cache && tensor.Matrix? && Shaped(tensor) && |tensor.rows| == |index| && index != []
    requires forall k | 0 <= k < |index| :: index[k] >= 0
    requires Distinct(index)
    ensures PutIndexed(cache, key, tensor, index).Ok?
    ensures Select(PutIndexed(cache, key, tensor, index).value, index) == Ok(tensor)
  {
    var b := Blank(tensor, index).value;
    assert Positions(index, Rows(b)) == index;
    FilledExact(b, index, tensor);
    WriteThenSelect(b, index, tensor);
  }

  class FeatureStore {
    /** `get_entity_embedding`: the database's answer for (vid, group, name). */
    const embedding: (string, string, string) -> Option<real>
    var tensorCache: map<(string, string), Tensor>
    var tensorAttrs: map<string, set<string>>
    var idMapper: Option<int -> string>

    constructor(embedding: (string, string, string) -> Option<real>)
      ensures this.embedding == embedding
      ensures tensorCache == map[] && tensorAttrs == map[] && idMapper.None?
      ensures Registered()
    {
      this.embedding := embedding;
      tensorCache := map[];
      tensorAttrs := map[];
      idMapper := None;
    }

    /** Every cached tensor's name is listed under its group. */
    predicate Registered()
      reads this
    {
      forall key | key in tensorCache :: key.0 in tensorAttrs && key.1 in tensorAttrs[key.0]
    }

    /** `_get_tensor`. */
    method GetTensor(group: string, name: string, index: Option<seq<int>>) returns (r: Result<Tensor>)
      ensures r == TensorView(tensorCache, idMapper, embedding, group, name, index)
    {
      var key := (group, name);
      if key in tensorCache {
        if index.None? {
          return Ok(tensorCache[key]);
        }
        return Select(tensorCache[key], index.value);
      }
      if index.None? {
        return Ok(Vector([]));
      }
      var ix, mapper := index.value, idMapper;
      var nodeIds := seq(|ix|, k requires 0 <= k < |ix| => FeatureVid(mapper, group, ix[k]));
      var features := FetchFeatures(nodeIds, group, name);
      assert features == seq(|ix|, k requires 0 <= k < |ix| => Embedded(embedding, FeatureVid(mapper, group, ix[k]), group, name));
      if features != [] {
        r := Ok(Vector(features));
      } else {
        r := Ok(Matrix(1, []));
      }
    }

    /** The lookup loop of `_get_tensor`: one value per vertex, 0.0 for a
        vertex the database has none for. */
    method FetchFeatures(nodeIds: seq<string>, group: string, name: string) returns (features: seq<real>)
      ensures |features| == |nodeIds|
      ensures forall k | 0 <= k < |nodeIds| :: features[k] == Embedded(embedding, nodeIds[k], group, name)
    {
      features := [];
      var i := 0;
      while i < |nodeIds|
        invariant 0 <= i <= |nodeIds| && |features| == i
        invariant forall k | 0 <= k < i :: features[k] == Embedded(embedding, nodeIds[k], group, name)
      {
        var value := embedding(nodeIds[i], group, name);
        if value.None? {
          features := features + [0.0];
        } else {
          features := features + [value.value];
        }
        i := i + 1;
      }
    }

    /** `_get_tensor_size`: the cached tensor's shape, else `(1,)`. */
    method GetTensorSize(group: string, name: string) returns (size: seq<nat>)
      ensures (group, name) in tensorCache ==> size == Size(tensorCache[(group, name)])
      ensures (group, name) !in tensorCache ==> size == [1]
    {
      var key := (group, name);
      if key in tensorCache {
        return Size(tensorCache[key]);
      }
      return [1];
    }

    /** `_put_tensor`. The name is listed under its group before anything
        can fail; a failing indexed write into an absent key leaves the zero
        tensor it created. */
    method PutTensor(group: string, name: string, tensor: Tensor, index: Option<seq<int>>) returns (r: Result<bool>)
      modifies this
      ensures idMapper == old(idMapper)
      ensures tensorAttrs == old(tensorAttrs)[group := (if group in old(tensorAttrs) then old(tensorAttrs)[group] else {}) + {name}]
      ensures index.None? ==> r == Ok(true) && tensorCache == old(tensorCache)[(group, name) := tensor]
      ensures index.Some? ==>
        match PutIndexed(old(tensorCache), (group, name), tensor, index.value)
        case Ok(t) => r == Ok(true) && tensorCache == old(tensorCache)[(group, name) := t]
        case Err(e) => (
          r == Err(e) &&
          ((group, name) !in old(tensorCache) && Blank(tensor, index.value).Ok? ==>
            tensorCache == old(tensorCache)[(group, name) := Blank(tensor, index.value).value]) &&
          ((group, name) in old(tensorCache) || Blank(tensor, index.value).Err? ==> tensorCache == old(tensorCache)))
      ensures old(Registered()) ==> Registered()
    {
      var key := (group, name);
      if group !in tensorAttrs {
        tensorAttrs := tensorAttrs[group := {}];
      }
      tensorAttrs := tensorAttrs[group := tensorAttrs[group] + {name}];
      if index.None? {
        tensorCache := tensorCache[key := tensor];
        return Ok(true);
      }
      var ix := index.value;
      if key !in tensorCache {
        var blank := Blank(tensor, ix);
        if blank.Err? {
          return Err(blank.error);
        }
        tensorCache := tensorCache[key := blank.value];
      }
      var written := Write(tensorCache[key], ix, tensor);
      if written.Err? {
        return Err(written.error);
      }
      tensorCache := tensorCache[key := written.value];
      r := Ok(true);
    }

    /** `_remove_tensor`. */
    method RemoveTensor(group: string, name: string) returns (removed: bool)
      modifies this
      ensures idMapper == old(idMapper)
      ensures removed == ((group, name) in old(tensorCache))
      ensures removed ==> tensorCache == old(tensorCache) - {(group, name)}
      ensures removed && group in old(tensorAttrs) ==> tensorAttrs == old(tensorAttrs)[group := old(tensorAttrs)[group] - {name}]
      ensures !removed || group !in old(tensorAttrs) ==> tensorAttrs == old(tensorAttrs)
      ensures !removed ==> tensorCache == old(tensorCache)
      ensures old(Registered()) ==> Registered()
    {
      var key := (group, name);
      if key in tensorCache {
        tensorCache := tensorCache - {key};
        if group in tensorAttrs && name in tensorAttrs[group] {
          tensorAttrs := tensorAttrs[group := tensorAttrs[group] - {name}];
        } else if group in tensorAttrs {
          assert tensorAttrs[group] - {name} == tensorAttrs[group];
          assert tensorAttrs[group := tensorAttrs[group] - {name}] == tensorAttrs;
        }
        return true;
      }
      return false;
    }

    /** `get_all_tensor_attrs`: each group's names, listed in whatever order
        the set yields them. */
    method GetAllTensorAttrs() returns (attrs: map<string, seq<string>>)
      ensures attrs.Keys == tensorAttrs.Keys
      ensures forall group | group in attrs :: IsEnumeration(attrs[group], tensorAttrs[group])
      ensures Registered() ==> forall key | key in tensorCache :: key.0 in attrs && key.1 in attrs[key.0]
    {
      attrs := map[];
      var rest := tensorAttrs.Keys;
      while rest != {}
        invariant rest <= tensorAttrs.Keys
        invariant attrs.Keys == tensorAttrs.Keys - rest
        invariant forall group | group in attrs :: IsEnumeration(attrs[group], tensorAttrs[group])
        decreases |rest|
      {
        var group :| group in rest;
        var names := ListOf(tensorAttrs[group]);
        attrs := attrs[group := names];
        rest := rest - {group};
      }
      assert forall key | key in tensorCache && Registered() :: key.0 in attrs && IsEnumeration(attrs[key.0], tensorAttrs[key.0]);
    }
  }

  // ------------------------------------------------------------- edge indices

  /** An edge type: a bare edge name or a (source type, name, target type)
      triple. */
  datatype EdgeType = Named(name: string) | Typed(srcType: string, name: string, dstType: string)

  /** The registration kept per edge name. */
  datatype EdgeAttr = EdgeAttr(srcType: Option<string>, dstType: Option<string>)

  type Pair = (int, int)

  function AttrOf(t: EdgeType): EdgeAttr {
    match t
    case Named(_) => EdgeAttr(None, None)
    case Typed(s, _, d) => EdgeAttr(Some(s), Some(d))
  }

  /** Python truthiness of an optional string. */
  predicate Truthy(s: Option<string>) { s.Some? && s.value != "" }

  /** One entry of `get_all_edge_attrs`: the triple when both types are set,
      else the bare name. */
  function Shown(entry: (string, EdgeAttr)): EdgeType {
    if Truthy(entry.1.srcType) && Truthy(entry.1.dstType) then Typed(entry.1.srcType.value, entry.0, entry.1.dstType.value)
    else Named(entry.0)
  }

  // A Python dictionary keeps its keys in insertion order; `Dict` is that
  // list of entries, with distinct keys.

  predicate DistinctKeys<K(==), V>(d: seq<(K, V)>) {
    forall i, j | 0 <= i < j < |d| :: d[i].0 != d[j].0
  }

  function KeyIndex<K(==), V>(d: seq<(K, V)>, k: K): (r: Option<nat>)
    ensures r.Some? ==> r.value < |d| && d[r.value].0 == k
    ensures r.None? <==> forall i | 0 <= i < |d| :: d[i].0 != k
  {
    if d == [] then None
    else if d[0].0 == k then Some(0)
    else match KeyIndex(d[1..], k)
      case None => None
      case Some(i) => Some(i + 1)
  }

  function DictGet<K(==), V>(d: seq<(K, V)>, k: K): Option<V> {
    match KeyIndex(d, k)
    case None => None
    case Some(i) => Some(d[i].1)
  }

  /** `d[k] = v`: an existing key keeps its place, a new one goes last. */
  function DictSet<K(==), V>(d: seq<(K, V)>, k: K, v: V): (r: seq<(K, V)>)
    ensures |r| == (if KeyIndex(d, k).Some? then |d| else |d| + 1)
  {
    match KeyIndex(d, k)
    case None => d + [(k, v)]
    case Some(i) => d[i := (k, v)]
  }

  /** `del d[k]`. */
  function DictDel<K(==), V>(d: seq<(K, V)>, k: K): (r: seq<(K, V)>)
    ensures forall i | 0 <= i < |r| :: r[i] in d && r[i].0 != k
    ensures forall e | e in d && e.0 != k :: e in r
    decreases |d|
  {
    if d == [] then []
    else
      var n := |d| - 1;
      var rest := DictDel(d[..n], k);
      assert forall e | e in d[..n] :: e in d;
      if d[n].0 == k then rest else rest + [d[n]]
  }

  /** Setting a key answers it with the new value, keeps every other key's
      value and keeps the keys distinct. */
  lemma DictSetGet<K, V>(d: seq<(K, V)>, k: K, v: V, other: K)
    requires DistinctKeys(d)
    ensures DistinctKeys(DictSet(d, k, v))
    ensures DictGet(DictSet(d, k, v), k) == Some(v)
    ensures other != k ==> DictGet(DictSet(d, k, v), other) == DictGet(d, other)
  {
    var r := DictSet(d, k, v);
    KeyIndexDistinct(r, k, if KeyIndex(d, k).Some? then KeyIndex(d, k).value else |d|);
    if other != k {
      match KeyIndex(d, other)
      case None =>
        assert forall i | 0 <= i < |r| :: r[i].0 != other;
      case Some(j) =>
        KeyIndexDistinct(r, other, j);
    }
  }

  /** With distinct keys, the entry holding a key is the one found. */
  lemma KeyIndexDistinct<K, V>(d: seq<(K, V)>, k: K, i: nat)
    requires DistinctKeys(d) && i < |d| && d[i].0 == k
    ensures KeyIndex(d, k) == Some(i)
  {
    var r := KeyIndex(d, k);
    assert r.Some?;
  }

  /** Deleting a key leaves no entry for it and every other entry in place. */
  lemma DictDelGet<K, V>(d: seq<(K, V)>, k: K, other: K)
    requires DistinctKeys(d)
    ensures DistinctKeys(DictDel(d, k))
    ensures DictGet(DictDel(d, k), k).None?
    ensures other != k ==> DictGet(DictDel(d, k), other) == DictGet(d, other)
  {
    var r := DictDel(d, k);
    assert DistinctKeys(r) by {
      DictDelSubsequence(d, k);
    }
    if other != k {
      match KeyIndex(d, other)
      case None =>
        assert forall i | 0 <= i < |r| :: r[i].0 != other;
      case Some(j) =>
        assert d[j] in r;
        var i :| 0 <= i < |r| && r[i] == d[j];
        KeyIndexDistinct(r, other, i);
    }
  }

  /** Deleting keeps the surviving entries in their order. */
  lemma {:induction false} DictDelSubsequence<K, V>(d: seq<(K, V)>, k: K)
    requires DistinctKeys(d)
    ensures DistinctKeys(DictDel(d, k))
    decreases |d|
  {
    if d != [] {
      var n := |d| - 1;
      DictDelSubsequence(d[..n], k);
      var rest := DictDel(d[..n], k);
      assert forall e | e in rest :: e.0 != d[n].0 by {
        forall e | e in rest ensures e.0 != d[n].0 {
          assert e in d[..n];
        }
      }
    }
  }

  /** The columns of `data` whose source is in `srcs` and target in `dsts`,
      in their order: `edge_data[:, mask]`. */
  function Filter(data: seq<Pair>, srcs: seq<int>, dsts: seq<int>): (r: seq<Pair>)
    ensures |r| <= |data|
    ensures forall c :: c in r <==> c in data && c.0 in srcs && c.1 in dsts
    decreases |data|
  {
    if data == [] then []
    else
      var n := |data| - 1;
      var rest := Filter(data[..n], srcs, dsts);
      assert data == data[..n] + [data[n]];
      if data[n].0 in srcs && data[n].1 in dsts then rest + [data[n]] else rest
  }

  /** `ids.index(x)`: the first position of `x`. */
  function IndexOf(ids: seq<string>, x: string): (i: nat)
    requires x in ids
    ensures i < |ids| && ids[i] == x && forall j | 0 <= j < i :: ids[j] != x
  {
    if ids[0] == x then 0 else 1 + IndexOf(ids[1..], x)
  }

  /** The columns of one sample that leave `srcId` for a vertex of `dstIds`,
      each given as (position of the source, first position of the target). */
  function Matches(cols: seq<Column>, vids: seq<string>, i: nat, srcId: string, dstIds: seq<string>): (r: seq<Pair>)
    requires forall c | c in cols :: c.0 < |vids| && c.1 < |vids|
    ensures forall c | c in r :: c.0 == i && 0 <= c.1 < |dstIds| && forall j | 0 <= j < c.1 :: dstIds[j] != dstIds[c.1]
    ensures |r| <= |cols|
    decreases |cols|
  {
    if cols == [] then []
    else
      var n := |cols| - 1;
      var rest := Matches(cols[..n], vids, i, srcId, dstIds);
      var c := cols[n];
      if vids[c.0] == srcId && vids[c.1] in dstIds then rest + [(i, IndexOf(dstIds, vids[c.1]) as int)] else rest
  }

  /** The uncached, indexed branch of `_get_edge_index` as a function of the
      database and of each sample's vertex order: a one-hop sample per
      source (a one-hop sample cannot fail), and its matching columns. */
  function EdgeSearch(g: Graph, srcIds: seq<string>, dstIds: seq<string>, orders: seq<seq<string>>): (r: seq<Pair>)
    requires |orders| == |srcIds|
    decreases |srcIds|
  {
    if srcIds == [] then []
    else
      var n := |srcIds| - 1;
      var sg := SampleSpec(g, srcIds[n], 1, true, 1000, orders[n]).value;
      SampleShape(g, srcIds[n], 1, true, 1000, orders[n]);
      EdgeSearch(g, srcIds[..n], dstIds, orders[..n]) + Matches(sg.edgeIndex, sg.idxToVid, n, srcIds[n], dstIds)
  }

  /** One more source extends the search by its sample's matches. */
  lemma EdgeSearchStep(g: Graph, srcIds: seq<string>, dstIds: seq<string>, orders: seq<seq<string>>,
                       src: string, order: seq<string>, sg: Subgraph)
    requires |orders| == |srcIds|
    requires SampleSpec(g, src, 1, true, 1000, order) == Ok(sg)
    ensures forall c | c in sg.edgeIndex :: c.0 < |sg.idxToVid| && c.1 < |sg.idxToVid|
    ensures EdgeSearch(g, srcIds + [src], dstIds, orders + [order]) ==
      EdgeSearch(g, srcIds, dstIds, orders) + Matches(sg.edgeIndex, sg.idxToVid, |srcIds|, src, dstIds)
  {
    SampleShape(g, src, 1, true, 1000, order);
    assert (srcIds + [src])[..|srcIds|] == srcIds;
    assert (orders + [order])[..|srcIds|] == orders;
  }

  /** Every emitted column names a requested source and the first position
      of a requested target. */
  lemma {:induction false} EdgeSearchColumns(g: Graph, srcIds: seq<string>, dstIds: seq<string>, orders: seq<seq<string>>)
    requires |orders| == |srcIds|
    ensures forall c | c in EdgeSearch(g, srcIds, dstIds, orders) ::
        0 <= c.0 < |srcIds| && 0 <= c.1 < |dstIds| && forall j | 0 <= j < c.1 :: dstIds[j] != dstIds[c.1]
    decreases |srcIds|
  {
    if srcIds != [] {
      var n := |srcIds| - 1;
      EdgeSearchColumns(g, srcIds[..n], dstIds, orders[..n]);
    }
  }

  /** Every column of the sample leaving `srcId` for a requested target is
      emitted, with the target's first position. */
  lemma {:induction false} MatchesComplete(cols: seq<Column>, vids: seq<string>, i: nat, srcId: string, dstIds: seq<string>, c: Column)
    requires forall e | e in cols :: e.0 < |vids| && e.1 < |vids|
    requires c in cols && vids[c.0] == srcId && vids[c.1] in dstIds
    ensures (i, IndexOf(dstIds, vids[c.1]) as int) in Matches(cols, vids, i, srcId, dstIds)
    decreases |cols|
  {
    var n := |cols| - 1;
    if cols[n] != c {
      assert c in cols[..n] by {
        var j :| 0 <= j < |cols| && cols[j] == c;
        assert j < n && cols[..n][j] == c;
      }
      MatchesComplete(cols[..n], vids, i, srcId, dstIds, c);
    }
  }

  /** The search over a non-empty source list is the search over all but
      the last source, then the last source's matches. */
  lemma EdgeSearchLast(g: Graph, srcIds: seq<string>, dstIds: seq<string>, orders: seq<seq<string>>)
    requires |orders| == |srcIds| && srcIds != []
    ensures var n := |srcIds| - 1;
      SampleSpec(g, srcIds[n], 1, true, 1000, orders[n]).Ok? &&
      var sg := SampleSpec(g, srcIds[n], 1, true, 1000, orders[n]).value;
      (forall c | c in sg.edgeIndex :: c.0 < |sg.idxToVid| && c.1 < |sg.idxToVid|) &&
      EdgeSearch(g, srcIds, dstIds, orders) ==
        EdgeSearch(g, srcIds[..n], dstIds, orders[..n]) + Matches(sg.edgeIndex, sg.idxToVid, n, srcIds[n], dstIds)
  {
    var n := |srcIds| - 1;
    SampleShape(g, srcIds[n], 1, true, 1000, orders[n]);
  }

  /** The converse of `EdgeSearchColumns`: for every requested source, each
      column of its one-hop sample from that source to a requested target
      is emitted as (the source's position, the target's first position). */
  lemma {:induction false} EdgeSearchComplete(g: Graph, srcIds: seq<string>, dstIds: seq<string>, orders: seq<seq<string>>,
                                              k: nat, c: Column)
    requires |orders| == |srcIds| && k < |srcIds|
    requires SampleSpec(g, srcIds[k], 1, true, 1000, orders[k]).Ok?
    requires var sg := SampleSpec(g, srcIds[k], 1, true, 1000, orders[k]).value;
      c in sg.edgeIndex && c.0 < |sg.idxToVid| && c.1 < |sg.idxToVid| &&
      sg.idxToVid[c.0] == srcIds[k] && sg.idxToVid[c.1] in dstIds
    ensures var sg := SampleSpec(g, srcIds[k], 1, true, 1000, orders[k]).value;
      (k as int, IndexOf(dstIds, sg.idxToVid[c.1]) as int) in EdgeSearch(g, srcIds, dstIds, orders)
    decreases |srcIds|
  {
    var n := |srcIds| - 1;
    var sg := SampleSpec(g, srcIds[k], 1, true, 1000, orders[k]).value;
    var pair := (k as int, IndexOf(dstIds, sg.idxToVid[c.1]) as int);
    EdgeSearchLast(g, srcIds, dstIds, orders);
    if k == n {
      MatchesComplete(sg.edgeIndex, sg.idxToVid, n, srcIds[n], dstIds, c);
    } else {
      assert srcIds[..n][k] == srcIds[k] && orders[..n][k] == orders[k];
      EdgeSearchComplete(g, srcIds[..n], dstIds, orders[..n], k, c);
      assert pair in EdgeSearch(g, srcIds[..n], dstIds, orders[..n]);
    }
  }

  class GraphStore {
    const sampler: Sampler.SubgraphSampler
    var edgeCache: map<(EdgeType, string), seq<Pair>>
    var edgeAttrs: seq<(string, EdgeAttr)>
    var idMapper: Option<int -> string>

    constructor(sampler: Sampler.SubgraphSampler)
      ensures this.sampler == sampler
      ensures edgeCache == map[] && edgeAttrs == [] && idMapper.None?
    {
      this.sampler := sampler;
      edgeCache := map[];
      edgeAttrs := [];
      idMapper := None;
    }

    /** Only "coo" entries are cached and each edge name is registered once. */
    predicate Valid()
      reads this
    {
      (forall key | key in edgeCache :: key.1 == "coo") && DistinctKeys(edgeAttrs)
    }

    /** `_put_edge_index`: only the "coo" layout is stored; the edge name's
        registration is overwritten. */
    method PutEdgeIndex(edgeType: EdgeType, edgeIndex: seq<Pair>, layout: string) returns (r: Result<bool>)
      modifies this
      ensures idMapper == old(idMapper)
      ensures layout != "coo" ==> r == Err("NotImplementedError") && edgeCache == old(edgeCache) && edgeAttrs == old(edgeAttrs)
      ensures layout == "coo" ==>
        r == Ok(true) &&
        edgeCache == old(edgeCache)[(edgeType, layout) := edgeIndex] &&
        edgeAttrs == DictSet(old(edgeAttrs), edgeType.name, AttrOf(edgeType))
      ensures old(Valid()) ==> Valid()
    {
      if layout != "coo" {
        return Err("NotImplementedError");
      }
      edgeCache := edgeCache[(edgeType, layout) := edgeIndex];
      if DistinctKeys(edgeAttrs) {
        DictSetGet(edgeAttrs, edgeType.name, AttrOf(edgeType), edgeType.name);
      }
      edgeAttrs := DictSet(edgeAttrs, edgeType.name, AttrOf(edgeType));
      r := Ok(true);
    }

    /** `_remove_edge_index`. */
    method RemoveEdgeIndex(edgeType: EdgeType, layout: string) returns (removed: bool)
      modifies this
      ensures idMapper == old(idMapper)
      ensures removed == ((edgeType, layout) in old(edgeCache))
      ensures removed ==> edgeCache == old(edgeCache) - {(edgeType, layout)} && edgeAttrs == DictDel(old(edgeAttrs), edgeType.name)
      ensures !removed ==> edgeCache == old(edgeCache) && edgeAttrs == old(edgeAttrs)
      ensures old(Valid()) ==> Valid()
    {
      var key := (edgeType, layout);
      if key in edgeCache {
        edgeCache := edgeCache - {key};
        if DistinctKeys(edgeAttrs) {
          DictDelGet(edgeAttrs, edgeType.name, edgeType.name);
        }
        edgeAttrs := DictDel(edgeAttrs, edgeType.name);
        return true;
      }
      return false;
    }

    /** `get_all_edge_attrs`: one entry per registered name, in registration
        order. */
    method GetAllEdgeAttrs() returns (types: seq<EdgeType>)
      ensures |types| == |edgeAttrs|
      ensures forall k | 0 <= k < |types| :: types[k] == Shown(edgeAttrs[k])
    {
      types := [];
      var i := 0;
      while i < |edgeAttrs|
        invariant 0 <= i <= |edgeAttrs| && |types| == i
        invariant forall k | 0 <= k < i :: types[k] == Shown(edgeAttrs[k])
      {
        var entry := edgeAttrs[i];
        if Truthy(entry.1.srcType) && Truthy(entry.1.dstType) {
          types := types + [Typed(entry.1.srcType.value, entry.0, entry.1.dstType.value)];
        } else {
          types := types + [Named(entry.0)];
        }
        i := i + 1;
      }
    }

    /** `_get_edge_index`. A cached entry is answered first, in any layout;
        otherwise only "coo" is supported, and without an index the answer
        is empty. */
    method GetEdgeIndex(edgeType: EdgeType, layout: string, index: Option<(seq<int>, seq<int>)>)
      returns (r: Result<seq<Pair>>, ghost orders: seq<seq<string>>)
      modifies sampler, sampler.pool
      ensures (edgeType, layout) in edgeCache ==>
        r == Ok(if index.None? then edgeCache[(edgeType, layout)] else Filter(edgeCache[(edgeType, layout)], index.value.0, index.value.1))
      ensures (edgeType, layout) !in edgeCache && layout != "coo" ==> r == Err("NotImplementedError")
      ensures (edgeType, layout) !in edgeCache && layout == "coo" && index.None? ==> r == Ok([])
      ensures (edgeType, layout) !in edgeCache && layout == "coo" && index.Some? ==>
        var srcIds := EdgeIds(idMapper, index.value.0);
        |orders| == |srcIds| && r == Ok(EdgeSearch(sampler.pool.graph, srcIds, EdgeIds(idMapper, index.value.1), orders))
    {
      orders := [];
      var key := (edgeType, layout);
      if key in edgeCache {
        if index.None? {
          return Ok(edgeCache[key]), orders;
        }
        return Ok(Filter(edgeCache[key], index.value.0, index.value.1)), orders;
      }
      if layout != "coo" {
        return Err("NotImplementedError"), orders;
      }
      if index.None? {
        return Ok([]), orders;
      }
      var srcIds := EdgeIds(idMapper, index.value.0);
      var dstIds := EdgeIds(idMapper, index.value.1);
      var edges;
      edges, orders := SearchEdges(srcIds, dstIds);
      r := Ok(edges);
    }

    /** The sampling loop of `_get_edge_index`: a one-hop sample around each
        source, keeping its columns that reach a requested target. */
    method SearchEdges(srcIds: seq<string>, dstIds: seq<string>) returns (edges: seq<Pair>, ghost orders: seq<seq<string>>)
      modifies sampler, sampler.pool
      ensures |orders| == |srcIds| && edges == EdgeSearch(sampler.pool.graph, srcIds, dstIds, orders)
    {
      edges := [];
      orders := [];
      ghost var g := sampler.pool.graph;
      var i := 0;
      while i < |srcIds|
        invariant 0 <= i <= |srcIds| && |orders| == i
        invariant EdgeSearch(g, srcIds[..i], dstIds, orders) == edges
      {
        var sg;
        ghost var order;
        sg, order := SampleOne(srcIds[i]);
        EdgeSearchStep(g, srcIds[..i], dstIds, orders, srcIds[i], order, sg);
        PrefixSnoc(srcIds, i);
        orders := orders + [order];
        var found := MatchColumns(sg, i, srcIds[i], dstIds);
        edges := edges + found;
        i := i + 1;
      }
      assert srcIds[..i] == srcIds;
    }

    /** `sample_subgraph(src_id, n_hops=1)`, which always yields a subgraph. */
    method SampleOne(src: string) returns (sg: Subgraph, ghost order: seq<string>)
      modifies sampler, sampler.pool
      ensures SampleSpec(sampler.pool.graph, src, 1, true, 1000, order) == Ok(sg)
      ensures forall c | c in sg.edgeIndex :: c.0 < |sg.idxToVid| && c.1 < |sg.idxToVid|
    {
      var sample;
      sample, order := sampler.SampleSubgraph(src, 1, true, 1000);
      sg := sample.value;
      SampleShape(sampler.pool.graph, src, 1, true, 1000, order);
    }

    /** The column loop for one sample. */
    static method MatchColumns(sg: Subgraph, i: nat, srcId: string, dstIds: seq<string>) returns (found: seq<Pair>)
      requires forall c | c in sg.edgeIndex :: c.0 < |sg.idxToVid| && c.1 < |sg.idxToVid|
      ensures found == Matches(sg.edgeIndex, sg.idxToVid, i, srcId, dstIds)
    {
      found := [];
      var k := 0;
      while k < |sg.edgeIndex|
        invariant 0 <= k <= |sg.edgeIndex|
        invariant found == Matches(sg.edgeIndex[..k], sg.idxToVid, i, srcId, dstIds)
      {
        assert sg.edgeIndex[..k + 1][..k] == sg.edgeIndex[..k];
        var subSrc := sg.idxToVid[sg.edgeIndex[k].0];
        var subDst := sg.idxToVid[sg.edgeIndex[k].1];
        if subSrc == srcId && subDst in dstIds {
          found := found + [(i, IndexOf(dstIds, subDst) as int)];
        }
        k := k + 1;
      }
      assert sg.edgeIndex[..k] == sg.edgeIndex;
    }
  }

  /** Index values as vertex ids: `str(i)` or the configured mapping. */
  function EdgeIds(mapper: Option<int -> string>, index: seq<int>): (ids: seq<string>)
    ensures |ids| == |index|
  {
    seq(|index|, k requires 0 <= k < |index| => match mapper case Some(f) => f(index[k]) case None => IntToString(index[k]))
  }
}
