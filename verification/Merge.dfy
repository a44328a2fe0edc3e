/** Merging a batch's inputs and splitting its results back. */
module Merge {
  import opened Values

  // ----- merge -----

  function ListOf(inputs: Inputs, name: string): seq<Value> {
    if name in inputs && inputs[name].List? then inputs[name].items else []
  }

  /** One batch parameter's lists, in request order. */
  function Combined(batch: seq<Inputs>, name: string): seq<Value> {
    if |batch| == 0 then [] else Combined(batch[..|batch| - 1], name) + ListOf(batch[|batch| - 1], name)
  }

  function Broadcast(inputs: Inputs, params: set<string>): Inputs {
    map k | k in inputs && k !in params :: inputs[k]
  }

  function Merged(batch: seq<Inputs>, params: set<string>): Inputs
    requires |batch| > 0
  {
    if |batch| == 1 then batch[0]
    else Broadcast(batch[0], params) + map k | k in params :: List(Combined(batch, k))
  }

  method CombineLists(batch: seq<Inputs>, name: string) returns (combined: seq<Value>)
    ensures combined == Combined(batch, name)
  {
    combined := [];
    for i := 0 to |batch|
      invariant combined == Combined(batch[..i], name)
    {
      assert batch[..i + 1][..i] == batch[..i];
      if name in batch[i] && batch[i][name].List? {
        combined := combined + batch[i][name].items;
      }
    }
    assert batch[..|batch|] == batch;
  }

  /** Copy the first request's broadcast parameters. */
  method CopyBroadcast(inputs: Inputs, params: set<string>) returns (merged: Inputs)
    ensures merged == Broadcast(inputs, params)
  {
    merged := map[];
    var keys := inputs.Keys;
    while keys != {}
      invariant keys <= inputs.Keys
      invariant forall k :: k in merged <==> k in inputs && k !in keys && k !in params
      invariant forall k :: k in merged ==> merged[k] == inputs[k]
      decreases keys
    {
      var key :| key in keys;
      if key !in params {
        merged := merged[key := inputs[key]];
      }
      keys := keys - {key};
    }
  }

  /** Batch parameters concatenated in request order; everything else from the first request. */
  method MergeInputs(batch: seq<Inputs>, params: set<string>) returns (merged: Inputs)
    requires |batch| > 0
    ensures merged == Merged(batch, params)
  {
    if |batch| == 1 {
      return batch[0];
    }
    merged := CopyBroadcast(batch[0], params);
    var names := params;
    while names != {}
      invariant names <= params
      invariant forall k :: k in merged <==> k in Broadcast(batch[0], params) || (k in params && k !in names)
      invariant forall k :: k in merged && k in params ==> merged[k] == List(Combined(batch, k))
      invariant forall k :: k in merged && k !in params ==> merged[k] == batch[0][k]
      decreases names
    {
      var name :| name in names;
      var combined := CombineLists(batch, name);
      merged := merged[name := List(combined)];
      names := names - {name};
    }
  }

  // ----- split -----

  /** A 32-bit dim cast to an unsigned 64-bit size: negatives wrap. */
  function AsUsize(d: int): int {
    if d < 0 then d + 0x1_0000_0000_0000_0000 else d
  }

  predicate SplitsAsTensor(v: Value, total: nat) {
    v.Tensor? && |v.shape| > 0 && AsUsize(v.shape[0]) == total
  }

  predicate SplitsAsList(v: Value, total: nat) {
    v.List? && |v.items| == total
  }

  function SliceData(data: TensorData, start: nat, end: nat): TensorData
    requires start <= end <= |data.elems|
  {
    TensorData(data.dtype, data.elems[start..end])
  }

  /** Elements per row of a tensor. */
  function Inner(v: Value): int
    requires v.Tensor? && |v.shape| > 0
  {
    if Product(v.shape[1..]) < 1 then 1 else Product(v.shape[1..])
  }

  lemma {:induction false} ProductPositive(dims: seq<int>)
    requires forall d :: 0 <= d < |dims| ==> 0 < dims[d]
    ensures Product(dims) >= 1
  {
    if |dims| > 0 {
      ProductPositive(dims[1..]);
      MulPositive(dims[0], Product(dims[1..]));
    }
  }

  lemma MulPositive(a: int, b: int)
    requires a >= 1 && b >= 1
    ensures a * b >= 1
  {
  }

  lemma RowBounds(v: Value, counts: seq<nat>, i: nat)
    requires WellFormed(v) && SplitsAsTensor(v, Sum(counts)) && i < |counts|
    ensures Inner(v) == Product(v.shape[1..]) >= 1
    ensures 0 <= Offset(counts, i) * Inner(v) <= (Offset(counts, i) + counts[i]) * Inner(v) <= |v.data.elems|
  {
    ProductPositive(v.shape[1..]);
    OffsetWithin(counts, i);
    MulOrder(Offset(counts, i), Offset(counts, i) + counts[i], v.shape[0], Inner(v));
  }

  lemma MulOrder(a: int, b: int, c: int, k: int)
    requires 0 <= a <= b <= c && k >= 1
    ensures 0 <= a * k <= b * k <= c * k
  {
  }

  /** Request `i`'s piece of one merged result. */
  function Piece(v: Value, counts: seq<nat>, i: nat): Value
    requires WellFormed(v) && i < |counts|
  {
    var total := Sum(counts);
    if SplitsAsTensor(v, total) then
      RowBounds(v, counts, i);
      var start, end := Offset(counts, i) * Inner(v), (Offset(counts, i) + counts[i]) * Inner(v);
      Tensor(SliceData(v.data, start, end), v.shape[0 := counts[i]])
    else if SplitsAsList(v, total) then
      OffsetWithin(counts, i);
      List(v.items[Offset(counts, i)..Offset(counts, i) + counts[i]])
    else v
  }

  function Pieces(results: seq<Value>, counts: seq<nat>, i: nat): seq<Value>
    requires (forall k :: 0 <= k < |results| ==> WellFormed(results[k])) && i < |counts|
  {
    seq(|results|, k requires 0 <= k < |results| => Piece(results[k], counts, i))
  }

  /** One merged result, pushed onto every request's splits. */
  method SplitOne(v: Value, counts: seq<nat>, splits0: seq<seq<Value>>) returns (splits: seq<seq<Value>>)
    requires WellFormed(v) && |splits0| == |counts|
    ensures |splits| == |counts| && forall i :: 0 <= i < |counts| ==> splits[i] == splits0[i] + [Piece(v, counts, i)]
  {
    splits := splits0;
    var offset := 0;
    for i := 0 to |counts|
      invariant |splits| == |counts| && offset == Offset(counts, i)
      invariant forall j :: 0 <= j < i ==> splits[j] == splits0[j] + [Piece(v, counts, j)]
      invariant forall j :: i <= j < |counts| ==> splits[j] == splits0[j]
    {
      OffsetNext(counts, i);
      OffsetWithin(counts, i);
      var piece := v;
      if SplitsAsTensor(v, Sum(counts)) {
        RowBounds(v, counts, i);
        var start, end := offset * Inner(v), (offset + counts[i]) * Inner(v);
        piece := Tensor(SliceData(v.data, start, end), v.shape[0 := counts[i]]);
      } else if SplitsAsList(v, Sum(counts)) {
        piece := List(v.items[offset..offset + counts[i]]);
      }
      splits := splits[i := splits[i] + [piece]];
      offset := offset + counts[i];
    }
  }

  /** Split merged results back per request. */
  method SplitResults(results: seq<Value>, counts: seq<nat>) returns (splits: seq<seq<Value>>)
    requires forall k :: 0 <= k < |results| ==> WellFormed(results[k])
    ensures |splits| == |counts|
    ensures forall i :: 0 <= i < |counts| ==> splits[i] == Pieces(results, counts, i)
  {
    splits := seq(|counts|, i => []);
    for k := 0 to |results|
      invariant |splits| == |counts|
      invariant forall i :: 0 <= i < |counts| ==> splits[i] == Pieces(results[..k], counts, i)
    {
      ghost var before := splits;
      splits := SplitOne(results[k], counts, splits);
      forall i | 0 <= i < |counts| ensures splits[i] == Pieces(results[..k + 1], counts, i) {
        assert results[..k + 1] == results[..k] + [results[k]];
        assert before[i] == Pieces(results[..k], counts, i);
      }
    }
    assert results[..|results|] == results;
  }
}
