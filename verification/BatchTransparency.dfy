/** Batching is invisible: for a predictor that works row by row, merging requests, invoking once and
    splitting gives each caller what it would have got alone. */
module BatchTransparency {
  import opened Values
  import opened Merge

  /** One output of a predictor that treats batch rows independently: a list with one value per row, a
      tensor with one block per row, or a value of the broadcast parameters alone. */
  datatype Output =
    | PerRow(f: (Inputs, Inputs) -> Value)
    | PerBlock(dtype: string, inner: seq<int>, g: (Inputs, Inputs) -> seq<nat>)
    | Whole(h: Inputs -> Value)

  /** Every batch parameter is a list of one common, positive length. */
  ghost predicate Ready(inputs: Inputs, params: set<string>, count: nat) {
    && count > 0
    && forall p :: p in params ==> p in inputs && inputs[p].List? && |inputs[p].items| == count
  }

  function Row(inputs: Inputs, params: set<string>, k: nat): Inputs {
    map p | p in params && k < |ListOf(inputs, p)| :: ListOf(inputs, p)[k]
  }

  function Flatten(blocks: seq<seq<nat>>): seq<nat> {
    if |blocks| == 0 then [] else Flatten(blocks[..|blocks| - 1]) + blocks[|blocks| - 1]
  }

  ghost function RowBlocks(o: Output, inputs: Inputs, params: set<string>, count: nat): seq<seq<nat>>
    requires o.PerBlock?
  {
    seq(count, k requires 0 <= k < count => o.g(Broadcast(inputs, params), Row(inputs, params, k)))
  }

  ghost function RowValues(o: Output, inputs: Inputs, params: set<string>, count: nat): seq<Value>
    requires o.PerRow?
  {
    seq(count, k requires 0 <= k < count => o.f(Broadcast(inputs, params), Row(inputs, params, k)))
  }

  ghost function Evaluate(o: Output, inputs: Inputs, params: set<string>, count: nat): Value {
    match o
    case PerRow(_) => List(RowValues(o, inputs, params, count))
    case PerBlock(dtype, inner, _) =>
      Tensor(TensorData(dtype, Flatten(RowBlocks(o, inputs, params, count))), [count] + inner)
    case Whole(h) => h(Broadcast(inputs, params))
  }

  ghost function Predict(outputs: seq<Output>, inputs: Inputs, params: set<string>, count: nat): seq<Value> {
    seq(|outputs|, k requires 0 <= k < |outputs| => Evaluate(outputs[k], inputs, params, count))
  }

  /** Under these broadcast values blocks have the size their shape says, and a whole value is well formed. */
  ghost predicate Shaped(o: Output, broadcast: Inputs) {
    match o
    case PerRow(_) => true
    case PerBlock(_, inner, g) =>
      && (forall d :: 0 <= d < |inner| ==> 0 < inner[d] <= I32_MAX)
      && (forall r :: |g(broadcast, r)| == Product(inner))
    case Whole(h) => WellFormed(h(broadcast))
  }

  /** Under these broadcast values the output, if it is a whole one, is not as long as the batch. */
  ghost predicate Uncut(o: Output, broadcast: Inputs, total: nat) {
    o.Whole? ==> !SplitsAsTensor(o.h(broadcast), total) && !SplitsAsList(o.h(broadcast), total)
  }

  // ----- merged rows are the requests' rows -----

  ghost predicate Compatible(batch: seq<Inputs>, params: set<string>, counts: seq<nat>) {
    && |batch| == |counts| >= 2
    && (forall i :: 0 <= i < |batch| ==> Ready(batch[i], params, counts[i]))
    && (forall i :: 0 <= i < |batch| ==> Broadcast(batch[i], params) == Broadcast(batch[0], params))
  }

  lemma {:induction false} CombinedRows(batch: seq<Inputs>, params: set<string>, counts: seq<nat>, p: string, i: nat)
    requires |batch| == |counts| && i < |batch| && p in params
    requires forall j :: 0 <= j < |batch| ==> Ready(batch[j], params, counts[j])
    ensures Offset(counts, i) + counts[i] <= Sum(counts) == |Combined(batch, p)|
    ensures Combined(batch, p)[Offset(counts, i)..Offset(counts, i) + counts[i]] == ListOf(batch[i], p)
    decreases |batch|
  {
    hide Combined, ListOf, Ready, Values.Sum;
    var n := |batch| - 1;
    CombinedNext(batch, params, counts, p);
    OffsetWithin(counts, i);
    CombinedLength(batch, params, counts, p);
    CombinedLength(batch[..n], params, counts[..n], p);
    if i < n {
      CombinedRows(batch[..n], params, counts[..n], p, i);
      assert counts[..n][..i] == counts[..i];
      var lo, hi := Offset(counts, i), Offset(counts, i) + counts[i];
      assert Combined(batch, p)[lo..hi] == Combined(batch[..n], p)[lo..hi];
    }
  }

  lemma CombinedNext(batch: seq<Inputs>, params: set<string>, counts: seq<nat>, p: string)
    requires |batch| == |counts| > 0 && p in params && Ready(batch[|batch| - 1], params, counts[|batch| - 1])
    ensures var n := |batch| - 1;
      Combined(batch, p) == Combined(batch[..n], p) + ListOf(batch[n], p) && |ListOf(batch[n], p)| == counts[n]
  {
  }

  lemma {:induction false} CombinedLength(batch: seq<Inputs>, params: set<string>, counts: seq<nat>, p: string)
    requires |batch| == |counts| && p in params
    requires forall j :: 0 <= j < |batch| ==> Ready(batch[j], params, counts[j])
    ensures |Combined(batch, p)| == Sum(counts)
  {
    if |batch| > 0 {
      CombinedLength(batch[..|batch| - 1], params, counts[..|batch| - 1], p);
    }
  }

  lemma {:induction false} MergedItem(
      batch: seq<Inputs>, params: set<string>, counts: seq<nat>, p: string, i: nat, j: nat)
    requires Compatible(batch, params, counts) && p in params && i < |batch| && j < counts[i]
    ensures var merged := Merged(batch, params);
      && j < |ListOf(batch[i], p)| && Offset(counts, i) + j < |ListOf(merged, p)|
      && ListOf(merged, p)[Offset(counts, i) + j] == ListOf(batch[i], p)[j]
  {
    CombinedRows(batch, params, counts, p, i);
    assert Ready(batch[i], params, counts[i]);
    assert ListOf(Merged(batch, params), p) == Combined(batch, p);
    hide Merged, Combined, Sum;
    assert Combined(batch, p)[Offset(counts, i)..Offset(counts, i) + counts[i]][j]
      == Combined(batch, p)[Offset(counts, i) + j];
  }

  lemma {:induction false} MergedRow(batch: seq<Inputs>, params: set<string>, counts: seq<nat>, i: nat, j: nat)
    requires Compatible(batch, params, counts) && i < |batch| && j < counts[i]
    ensures Row(Merged(batch, params), params, Offset(counts, i) + j) == Row(batch[i], params, j)
  {
    var merged := Merged(batch, params);
    forall p | p in params
      ensures j < |ListOf(batch[i], p)| && Offset(counts, i) + j < |ListOf(merged, p)|
      ensures ListOf(merged, p)[Offset(counts, i) + j] == ListOf(batch[i], p)[j]
    {
      MergedItem(batch, params, counts, p, i, j);
    }
    hide Merged, ListOf, Offset, Compatible;
  }

  lemma MergedBroadcast(batch: seq<Inputs>, params: set<string>, counts: seq<nat>, i: nat)
    requires Compatible(batch, params, counts) && i < |batch|
    ensures Broadcast(Merged(batch, params), params) == Broadcast(batch[i], params)
  {
    assert Broadcast(Merged(batch, params), params) == Broadcast(batch[0], params);
  }

  /** The merged request has every parameter that is not batched exactly as each request of the batch has it. */
  lemma {:induction false} MergedKeepsOthers(
      batch: seq<Inputs>, params: set<string>, counts: seq<nat>, i: nat, name: string)
    requires Compatible(batch, params, counts) && i < |batch| && name !in params
    ensures name in Merged(batch, params) <==> name in batch[i]
    ensures name in batch[i] ==> Merged(batch, params)[name] == batch[i][name]
  {
    MergedBroadcast(batch, params, counts, i);
    var merged := Merged(batch, params);
    assert name in Broadcast(merged, params) <==> name in Broadcast(batch[i], params);
    assert name in batch[i] ==> Broadcast(merged, params)[name] == Broadcast(batch[i], params)[name];
  }

  // ----- flattened blocks -----

  lemma {:induction false} FlattenLength(blocks: seq<seq<nat>>, w: nat)
    requires forall k :: 0 <= k < |blocks| ==> |blocks[k]| == w
    ensures |Flatten(blocks)| == |blocks| * w
  {
    if |blocks| > 0 {
      FlattenLength(blocks[..|blocks| - 1], w);
      assert |blocks| * w == (|blocks| - 1) * w + w;
    }
  }

  lemma {:induction false} FlattenConcat(a: seq<seq<nat>>, b: seq<seq<nat>>)
    ensures Flatten(a + b) == Flatten(a) + Flatten(b)
  {
    if |b| == 0 {
      assert a + b == a;
    } else {
      var m := |b| - 1;
      assert (a + b)[..|a + b| - 1] == a + b[..m];
      assert Flatten(a + b) == Flatten(a + b[..m]) + b[m];
      FlattenConcat(a, b[..m]);
    }
  }

  lemma {:induction false} FlattenSlice(blocks: seq<seq<nat>>, w: nat, lo: nat, hi: nat)
    requires forall k :: 0 <= k < |blocks| ==> |blocks[k]| == w
    requires lo <= hi <= |blocks|
    ensures 0 <= lo * w <= hi * w <= |Flatten(blocks)|
    ensures Flatten(blocks)[lo * w..hi * w] == Flatten(blocks[lo..hi])
  {
    var a, b, c := blocks[..lo], blocks[lo..hi], blocks[hi..];
    assert blocks == a + b + c;
    FlattenConcat(a + b, c);
    FlattenConcat(a, b);
    FlattenLength(a, w);
    FlattenLength(b, w);
    MulSplit(lo, hi, w);
    SliceMiddle(Flatten(a), Flatten(b), Flatten(c), lo * w, hi * w);
  }

  lemma MulSplit(lo: nat, hi: nat, w: nat)
    requires lo <= hi
    ensures lo * w + (hi - lo) * w == hi * w && 0 <= lo * w && 0 <= (hi - lo) * w
  {
  }

  lemma SliceMiddle<T>(a: seq<T>, b: seq<T>, c: seq<T>, start: nat, end: nat)
    requires start == |a| && end == |a| + |b|
    ensures (a + b + c)[start..end] == b
  {
  }

  // ----- transparency -----

  lemma {:induction false} BlocksWellFormed(o: Output, inputs: Inputs, params: set<string>, count: nat)
    requires o.PerBlock? && Shaped(o, Broadcast(inputs, params)) && 0 < count <= I32_MAX
    ensures WellFormed(Evaluate(o, inputs, params, count))
    ensures forall k :: 0 <= k < count ==> |RowBlocks(o, inputs, params, count)[k]| == Product(o.inner)
  {
    var v := Evaluate(o, inputs, params, count);
    ProductPositive(o.inner);
    forall k | 0 <= k < count ensures |RowBlocks(o, inputs, params, count)[k]| == Product(o.inner) {
      assert |o.g(Broadcast(inputs, params), Row(inputs, params, k))| == Product(o.inner);
    }
    FlattenLength(RowBlocks(o, inputs, params, count), Product(o.inner));
    assert v.shape[1..] == o.inner;
  }

  lemma {:induction false} EvaluateWellFormed(o: Output, inputs: Inputs, params: set<string>, count: nat)
    requires Shaped(o, Broadcast(inputs, params)) && 0 < count <= I32_MAX
    ensures WellFormed(Evaluate(o, inputs, params, count))
  {
    if o.PerBlock? {
      BlocksWellFormed(o, inputs, params, count);
    }
  }

  lemma {:induction false} MergedBlocks(
      o: Output, batch: seq<Inputs>, params: set<string>, counts: seq<nat>, i: nat)
    requires o.PerBlock? && Compatible(batch, params, counts) && i < |batch|
    ensures Offset(counts, i) + counts[i] <= Sum(counts)
    ensures RowBlocks(o, Merged(batch, params), params, Sum(counts))[Offset(counts, i)..Offset(counts, i) + counts[i]]
         == RowBlocks(o, batch[i], params, counts[i])
  {
    var blocks := RowBlocks(o, Merged(batch, params), params, Sum(counts));
    var lo, hi := Offset(counts, i), Offset(counts, i) + counts[i];
    MergedBroadcast(batch, params, counts, i);
    OffsetWithin(counts, i);
    forall j | 0 <= j < counts[i] ensures blocks[lo..hi][j] == RowBlocks(o, batch[i], params, counts[i])[j] {
      MergedRow(batch, params, counts, i, j);
    }
    assert blocks[lo..hi] == RowBlocks(o, batch[i], params, counts[i]);
  }

  lemma {:induction false} TensorPiece(
      o: Output, batch: seq<Inputs>, params: set<string>, counts: seq<nat>, i: nat)
    requires o.PerBlock? && Compatible(batch, params, counts) && i < |batch|
    requires 0 < Sum(counts) <= I32_MAX && Shaped(o, Broadcast(batch[0], params))
    ensures WellFormed(Evaluate(o, Merged(batch, params), params, Sum(counts)))
    ensures Piece(Evaluate(o, Merged(batch, params), params, Sum(counts)), counts, i)
         == Evaluate(o, batch[i], params, counts[i])
  {
    var total, merged := Sum(counts), Merged(batch, params);
    var blocks := RowBlocks(o, merged, params, total);
    MergedBroadcast(batch, params, counts, 0);
    BlocksWellFormed(o, merged, params, total);
    MergedBlocks(o, batch, params, counts, i);
    BlockPiece(o.dtype, o.inner, blocks, counts, i);
  }

  /** The piece of a tensor of row blocks is the tensor of the request's own blocks. */
  lemma {:induction false} BlockPiece(
      dtype: string, inner: seq<int>, blocks: seq<seq<nat>>, counts: seq<nat>, i: nat)
    requires i < |counts| && |blocks| == Sum(counts)
    requires WellFormed(Tensor(TensorData(dtype, Flatten(blocks)), [Sum(counts)] + inner))
    requires forall k :: 0 <= k < |blocks| ==> |blocks[k]| == Product(inner)
    ensures Offset(counts, i) + counts[i] <= |blocks|
    ensures Piece(Tensor(TensorData(dtype, Flatten(blocks)), [Sum(counts)] + inner), counts, i)
         == Tensor(TensorData(dtype, Flatten(blocks[Offset(counts, i)..Offset(counts, i) + counts[i]])),
                   [counts[i]] + inner)
  {
    var v := Tensor(TensorData(dtype, Flatten(blocks)), [Sum(counts)] + inner);
    OffsetWithin(counts, i);
    assert v.shape[1..] == inner;
    RowBounds(v, counts, i);
    FlattenSlice(blocks, Product(inner), Offset(counts, i), Offset(counts, i) + counts[i]);
    assert v.shape[0 := counts[i]] == [counts[i]] + inner;
  }

  lemma {:induction false} ListPiece(
      o: Output, batch: seq<Inputs>, params: set<string>, counts: seq<nat>, i: nat)
    requires o.PerRow? && Compatible(batch, params, counts) && i < |batch|
    ensures Piece(Evaluate(o, Merged(batch, params), params, Sum(counts)), counts, i)
         == Evaluate(o, batch[i], params, counts[i])
  {
    MergedValues(o, batch, params, counts, i);
    hide RowValues, Merged, Compatible, Offset, Sum;
  }

  lemma {:induction false} MergedValues(
      o: Output, batch: seq<Inputs>, params: set<string>, counts: seq<nat>, i: nat)
    requires o.PerRow? && Compatible(batch, params, counts) && i < |batch|
    ensures Offset(counts, i) + counts[i] <= Sum(counts)
    ensures RowValues(o, Merged(batch, params), params, Sum(counts))[Offset(counts, i)..Offset(counts, i) + counts[i]]
         == RowValues(o, batch[i], params, counts[i])
  {
    var values := RowValues(o, Merged(batch, params), params, Sum(counts));
    var lo, hi := Offset(counts, i), Offset(counts, i) + counts[i];
    OffsetWithin(counts, i);
    MergedBroadcast(batch, params, counts, i);
    hide Compatible, Row, Merged, Broadcast, Sum, Offset;
    forall j | 0 <= j < counts[i] ensures values[lo + j] == RowValues(o, batch[i], params, counts[i])[j] {
      MergedRow(batch, params, counts, i, j);
    }
  }

  lemma {:induction false} TotalPositive(batch: seq<Inputs>, params: set<string>, counts: seq<nat>)
    requires Compatible(batch, params, counts)
    ensures Sum(counts) > 0
  {
    OffsetWithin(counts, 0);
    assert Ready(batch[0], params, counts[0]);
  }

  /** A result reaches every caller whole exactly when its leading size differs from the batch's row
      count: a list or tensor of that size is cut up whether or not its rows belong to requests. */
  lemma {:induction false} WholeSurvivesIff(v: Value, counts: seq<nat>)
    requires WellFormed(v) && |counts| >= 2
    requires forall i :: 0 <= i < |counts| ==> counts[i] > 0
    ensures (forall i :: 0 <= i < |counts| ==> Piece(v, counts, i) == v) <==>
      !SplitsAsTensor(v, Sum(counts)) && !SplitsAsList(v, Sum(counts))
  {
    OffsetWithin(counts, 1);
    OffsetNext(counts, 0);
    assert counts[0] < Sum(counts);
    var first := Piece(v, counts, 0);
    if SplitsAsTensor(v, Sum(counts)) {
      assert first.shape[0] != v.shape[0];
    } else if SplitsAsList(v, Sum(counts)) {
      assert |first.items| != |v.items|;
    }
  }

  /** A whole output reaches some caller changed when it is as long as the batch. */
  lemma {:induction false} CutOutput(o: Output, batch: seq<Inputs>, params: set<string>, counts: seq<nat>)
    returns (i: nat)
    requires Compatible(batch, params, counts) && o.Whole? && Shaped(o, Broadcast(batch[0], params))
    requires !Uncut(o, Broadcast(batch[0], params), Sum(counts))
    ensures i < |batch| && WellFormed(Evaluate(o, Merged(batch, params), params, Sum(counts)))
    ensures Piece(Evaluate(o, Merged(batch, params), params, Sum(counts)), counts, i)
         != Evaluate(o, batch[i], params, counts[i])
  {
    MergedBroadcast(batch, params, counts, 0);
    var v := o.h(Broadcast(batch[0], params));
    forall j | 0 <= j < |counts| ensures counts[j] > 0 {
      assert Ready(batch[j], params, counts[j]);
    }
    WholeSurvivesIff(v, counts);
    i :| 0 <= i < |counts| && Piece(v, counts, i) != v;
  }

  lemma {:induction false} UncutOutput(
      o: Output, batch: seq<Inputs>, params: set<string>, counts: seq<nat>, i: nat)
    requires Compatible(batch, params, counts) && i < |batch| && Sum(counts) <= I32_MAX
    requires Shaped(o, Broadcast(batch[0], params)) && Uncut(o, Broadcast(batch[0], params), Sum(counts))
    ensures WellFormed(Evaluate(o, Merged(batch, params), params, Sum(counts)))
    ensures Piece(Evaluate(o, Merged(batch, params), params, Sum(counts)), counts, i)
         == Evaluate(o, batch[i], params, counts[i])
  {
    TotalPositive(batch, params, counts);
    MergedBroadcast(batch, params, counts, 0);
    EvaluateWellFormed(o, Merged(batch, params), params, Sum(counts));
    match o {
      case PerRow(_) => ListPiece(o, batch, params, counts, i);
      case PerBlock(_, _, _) => TensorPiece(o, batch, params, counts, i);
      case Whole(_) => MergedBroadcast(batch, params, counts, i);
    }
  }

  lemma {:induction false} MergedWellFormed(
      outputs: seq<Output>, batch: seq<Inputs>, params: set<string>, counts: seq<nat>)
    requires Compatible(batch, params, counts) && Sum(counts) <= I32_MAX
    requires forall k :: 0 <= k < |outputs| ==> Shaped(outputs[k], Broadcast(batch[0], params))
    ensures var results := Predict(outputs, Merged(batch, params), params, Sum(counts));
      forall k :: 0 <= k < |results| ==> WellFormed(results[k])
  {
    var results := Predict(outputs, Merged(batch, params), params, Sum(counts));
    TotalPositive(batch, params, counts);
    MergedBroadcast(batch, params, counts, 0);
    forall k | 0 <= k < |outputs| ensures WellFormed(results[k]) {
      EvaluateWellFormed(outputs[k], Merged(batch, params), params, Sum(counts));
    }
  }

  /** The pieces of the merged results are what each request would get alone. */
  ghost predicate EachGetsItsOwn(outputs: seq<Output>, batch: seq<Inputs>, params: set<string>, counts: seq<nat>)
    requires |batch| == |counts| && |batch| > 0
    requires var results := Predict(outputs, Merged(batch, params), params, Sum(counts));
      forall k :: 0 <= k < |results| ==> WellFormed(results[k])
  {
    forall i :: 0 <= i < |batch| ==>
      Pieces(Predict(outputs, Merged(batch, params), params, Sum(counts)), counts, i)
      == Predict(outputs, batch[i], params, counts[i])
  }

  /** Every caller gets exactly the outputs it would get alone, if and only if no whole output of this batch is as
      long as the batch. */
  lemma {:induction false} BatchingIsTransparentIff(
      outputs: seq<Output>, batch: seq<Inputs>, params: set<string>, counts: seq<nat>)
    requires Compatible(batch, params, counts) && Sum(counts) <= I32_MAX
    requires forall k :: 0 <= k < |outputs| ==> Shaped(outputs[k], Broadcast(batch[0], params))
    ensures var results := Predict(outputs, Merged(batch, params), params, Sum(counts));
      forall k :: 0 <= k < |results| ==> WellFormed(results[k])
    ensures EachGetsItsOwn(outputs, batch, params, counts) <==>
      forall k :: 0 <= k < |outputs| ==> Uncut(outputs[k], Broadcast(batch[0], params), Sum(counts))
  {
    MergedWellFormed(outputs, batch, params, counts);
    var results := Predict(outputs, Merged(batch, params), params, Sum(counts));
    hide Shaped, Uncut, Compatible, Evaluate, Piece, Merged, Broadcast, WellFormed;
    if k :| 0 <= k < |outputs| && !Uncut(outputs[k], Broadcast(batch[0], params), Sum(counts)) {
      WholeIfCut(outputs[k], Broadcast(batch[0], params), Sum(counts));
      var i := CutOutput(outputs[k], batch, params, counts);
      assert Pieces(results, counts, i)[k] != Predict(outputs, batch[i], params, counts[i])[k];
    } else {
      forall i, k | 0 <= i < |batch| && 0 <= k < |outputs|
        ensures Pieces(results, counts, i)[k] == Predict(outputs, batch[i], params, counts[i])[k]
      {
        UncutOutput(outputs[k], batch, params, counts, i);
      }
      forall i | 0 <= i < |batch| ensures Pieces(results, counts, i) == Predict(outputs, batch[i], params, counts[i]) {
      }
    }
  }

  /** Such a batch: two requests of one row each, and an output that is a list of two values whatever the rows. */
  lemma {:induction false} CutBatchExists()
    ensures var one: Inputs := map["texts" := List([Null])];
      var batch, params, counts, o := [one, one], {"texts"}, [1, 1], Whole(_ => List([Null, Null]));
      && Compatible(batch, params, counts) && Shaped(o, Broadcast(batch[0], params))
      && !Uncut(o, Broadcast(batch[0], params), Sum(counts))
      && (forall k :: 0 <= k < |Predict([o], Merged(batch, params), params, Sum(counts))| ==>
            WellFormed(Predict([o], Merged(batch, params), params, Sum(counts))[k]))
      && !EachGetsItsOwn([o], batch, params, counts)
  {
    var one: Inputs := map["texts" := List([Null])];
    var batch, params, counts, o := [one, one], {"texts"}, [1, 1], Whole(_ => List([Null, Null]));
    assert counts[..1] == [1] && Sum([1]) == 1 && Sum(counts) == 2;
    assert !Uncut([o][0], Broadcast(batch[0], params), Sum(counts));
    BatchingIsTransparentIff([o], batch, params, counts);
  }

  lemma WholeIfCut(o: Output, broadcast: Inputs, total: nat)
    requires !Uncut(o, broadcast, total)
    ensures o.Whole?
  {
  }

  function PieceItems(v: Value, counts: seq<nat>, n: nat): seq<Value>
    requires WellFormed(v) && SplitsAsList(v, Sum(counts)) && n <= |counts|
  {
    if n == 0 then [] else PieceItems(v, counts, n - 1) + Piece(v, counts, n - 1).items
  }

  function PieceElems(v: Value, counts: seq<nat>, n: nat): seq<nat>
    requires WellFormed(v) && SplitsAsTensor(v, Sum(counts)) && n <= |counts|
  {
    if n == 0 then [] else PieceElems(v, counts, n - 1) + Piece(v, counts, n - 1).data.elems
  }

  /** The pieces of a split list put back together are the list. */
  lemma {:induction false} ListPiecesRejoin(v: Value, counts: seq<nat>, n: nat)
    requires WellFormed(v) && SplitsAsList(v, Sum(counts)) && n <= |counts|
    ensures Offset(counts, n) <= |v.items| && PieceItems(v, counts, n) == v.items[..Offset(counts, n)]
    ensures n == |counts| ==> PieceItems(v, counts, n) == v.items
  {
    if n > 0 {
      ListPiecesRejoin(v, counts, n - 1);
      OffsetNext(counts, n - 1);
      OffsetWithin(counts, n - 1);
    }
    assert counts[..|counts|] == counts;
  }

  /** The pieces of a split tensor put back together are its data. */
  lemma {:induction false} TensorPiecesRejoin(v: Value, counts: seq<nat>, n: nat)
    requires WellFormed(v) && SplitsAsTensor(v, Sum(counts)) && n <= |counts|
    ensures 0 <= Offset(counts, n) * Inner(v) <= |v.data.elems|
    ensures PieceElems(v, counts, n) == v.data.elems[..Offset(counts, n) * Inner(v)]
  {
    if n == 0 {
      ZeroRows(v, counts);
    } else {
      TensorPiecesRejoin(v, counts, n - 1);
      hide Product, Inner, Values.Sum, Offset;
      OffsetNext(counts, n - 1);
      RowBounds(v, counts, n - 1);
      PrefixGrows(v.data.elems, Offset(counts, n - 1) * Inner(v), Offset(counts, n) * Inner(v));
    }
  }

  lemma ZeroRows(v: Value, counts: seq<nat>)
    requires SplitsAsTensor(v, Values.Sum(counts))
    ensures Offset(counts, 0) * Inner(v) == 0
  {
    assert Offset(counts, 0) == 0;
  }

  lemma PrefixGrows<T>(s: seq<T>, a: nat, b: nat)
    requires a <= b <= |s|
    ensures s[..a] + s[a..b] == s[..b]
  {
  }

  /** Split tensors lose nothing: all pieces together are the data, each with its own row count and
      the same inner shape. */
  lemma {:induction false} TensorSplitConserves(v: Value, counts: seq<nat>)
    requires WellFormed(v) && SplitsAsTensor(v, Sum(counts))
    ensures PieceElems(v, counts, |counts|) == v.data.elems
    ensures forall i :: 0 <= i < |counts| ==> Piece(v, counts, i).shape == [counts[i]] + v.shape[1..]
  {
    TensorPiecesRejoin(v, counts, |counts|);
    assert counts[..|counts|] == counts;
    ProductPositive(v.shape[1..]);
  }
}
