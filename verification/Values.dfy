/** Prediction values, as far as batching looks into them. */
module Values {

  /** A tensor's element type and its elements' bit patterns, in row-major order. */
  datatype TensorData = TensorData(dtype: string, elems: seq<nat>)

  datatype Value =
    | Null
    | Str(s: string)
    | Float(bits: nat)
    | Double(bits: nat)
    | Int(i: int)
    | Long(i: int)
    | Bool(b: bool)
    | List(items: seq<Value>)
    | Dict(entries: map<string, Value>)
    | Tensor(data: TensorData, shape: seq<int>)
    | Binary(bytes: seq<nat>)

  type Inputs = map<string, Value>

  const I32_MAX: int := 0x7FFF_FFFF

  function Product(dims: seq<int>): int {
    if |dims| == 0 then 1 else dims[0] * Product(dims[1..])
  }

  /** Positive 32-bit dims, and as many elements as they say. */
  ghost predicate WellFormed(v: Value) {
    v.Tensor? ==>
      && (forall d :: 0 <= d < |v.shape| ==> 0 < v.shape[d] <= I32_MAX)
      && |v.data.elems| == Product(v.shape)
  }

  function Sum(counts: seq<nat>): nat {
    if |counts| == 0 then 0 else Sum(counts[..|counts| - 1]) + counts[|counts| - 1]
  }

  /** Where request `i`'s rows start in the merged batch. */
  function Offset(counts: seq<nat>, i: nat): nat
    requires i <= |counts|
  {
    Sum(counts[..i])
  }

  lemma OffsetNext(counts: seq<nat>, i: nat)
    requires i < |counts|
    ensures Offset(counts, i + 1) == Offset(counts, i) + counts[i]
  {
    assert counts[..i + 1][..i] == counts[..i];
  }

  lemma {:induction false} OffsetWithin(counts: seq<nat>, i: nat)
    requires i < |counts|
    ensures Offset(counts, i) + counts[i] <= Sum(counts)
    decreases |counts| - i
  {
    OffsetNext(counts, i);
    if i + 1 < |counts| {
      OffsetWithin(counts, i + 1);
    } else {
      assert counts[..i + 1] == counts;
    }
  }
}
