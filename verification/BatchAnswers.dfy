/** One flush: invoke once, answer every request of the batch once. */
module BatchAnswers {
  import opened Values
  import opened Merge
  import opened BatchQueue
  import opened BatchTransparency
  import opened Wrappers

  datatype Outcome = Ok(results: seq<Value>) | Err(error: string)

  /** The answer delivered on one request's channel. */
  datatype Answer = Answer(id: nat, outcome: Outcome)

  /** The native predictor: inputs and an acceleration to a list of results. */
  type Predictor = (Inputs, string) -> Outcome

  ghost predicate ReturnsWellFormed(predict: Predictor) {
    forall inputs, acceleration ::
      predict(inputs, acceleration).Ok? ==> AllWellFormed(predict(inputs, acceleration).results)
  }

  ghost predicate AllWellFormed(results: seq<Value>) {
    forall k :: 0 <= k < |results| ==> WellFormed(results[k])
  }

  function InputsOf(batch: seq<Item>): seq<Inputs> {
    seq(|batch|, i requires 0 <= i < |batch| => batch[i].inputs)
  }

  function CountsOf(batch: seq<Item>): seq<nat> {
    seq(|batch|, i requires 0 <= i < |batch| => batch[i].count)
  }

  /** A lone request gets the predictor's own answer; a merged one its piece, or the shared error. */
  ghost predicate Answered(batch: seq<Item>, params: set<string>, predict: Predictor, answers: seq<Answer>)
    requires ReturnsWellFormed(predict)
  {
    && |answers| == |batch| && (forall i :: 0 <= i < |batch| ==> answers[i].id == batch[i].id)
    && if |batch| == 0 then true
       else if |batch| == 1 then answers[0].outcome == predict(batch[0].inputs, batch[0].acceleration)
       else match predict(Merged(InputsOf(batch), params), batch[0].acceleration)
         case Ok(results) =>
           forall i :: 0 <= i < |batch| ==> answers[i].outcome == Ok(Pieces(results, CountsOf(batch), i))
         case Err(e) => forall i :: 0 <= i < |batch| ==> answers[i].outcome == Err(e)
  }

  method ProcessBatch(batch: seq<Item>, params: set<string>, predict: Predictor) returns (answers: seq<Answer>)
    requires |batch| > 1 && ReturnsWellFormed(predict)
    ensures Answered(batch, params, predict, answers)
  {
    var merged := MergeInputs(InputsOf(batch), params);
    match predict(merged, batch[0].acceleration) {
      case Ok(results) =>
        var splits := SplitResults(results, CountsOf(batch));
        answers := seq(|batch|, i requires 0 <= i < |batch| => Answer(batch[i].id, Ok(splits[i])));
      case Err(e) =>
        answers := seq(|batch|, i requires 0 <= i < |batch| => Answer(batch[i].id, Err(e)));
    }
  }

  method Flush(batch: seq<Item>, params: set<string>, predict: Predictor) returns (answers: seq<Answer>)
    requires |batch| > 0 && ReturnsWellFormed(predict)
    ensures Answered(batch, params, predict, answers)
  {
    if |batch| == 1 {
      answers := [Answer(batch[0].id, predict(batch[0].inputs, batch[0].acceleration))];
    } else {
      answers := ProcessBatch(batch, params, predict);
    }
  }

  // ----- predictors that work row by row -----

  /** What a predictor does under each acceleration: its outputs, and the error a row makes it stop with, if any. */
  datatype RowModel = RowModel(outputs: string -> seq<Output>, failure: (string, Inputs, Inputs) -> Option<string>)

  /** What the rows of a request fail with, row by row. */
  ghost function Failures(m: RowModel, acceleration: string, inputs: Inputs, params: set<string>, count: nat)
    : seq<Option<string>>
  {
    seq(count, k requires 0 <= k < count => m.failure(acceleration, Broadcast(inputs, params), Row(inputs, params, k)))
  }

  function First(failures: seq<Option<string>>): Option<string> {
    if |failures| == 0 then None else if failures[0].Some? then failures[0] else First(failures[1..])
  }

  ghost function Failure(m: RowModel, acceleration: string, inputs: Inputs, params: set<string>, count: nat)
    : Option<string>
  {
    First(Failures(m, acceleration, inputs, params, count))
  }

  /** The predictor goes through the rows: it stops at the first that fails, and otherwise computes its outputs. */
  ghost predicate RowWise(predict: Predictor, m: RowModel, params: set<string>) {
    forall inputs, acceleration, count: nat :: Ready(inputs, params, count) && count <= I32_MAX ==>
      predict(inputs, acceleration) == RunRows(m, acceleration, inputs, params, count)
  }

  ghost function RunRows(m: RowModel, acceleration: string, inputs: Inputs, params: set<string>, count: nat): Outcome {
    match Failure(m, acceleration, inputs, params, count)
    case Some(e) => Err(e)
    case None => Ok(Predict(m.outputs(acceleration), inputs, params, count))
  }

  lemma MergedReady(batch: seq<Inputs>, params: set<string>, counts: seq<nat>)
    requires Compatible(batch, params, counts)
    ensures Ready(Merged(batch, params), params, Sum(counts))
  {
    TotalPositive(batch, params, counts);
    forall p | p in params ensures |Combined(batch, p)| == Sum(counts) {
      CombinedLength(batch, params, counts, p);
    }
  }

  // ----- a batch fails as its first failing request -----

  lemma {:induction false} FirstConcat(a: seq<Option<string>>, b: seq<Option<string>>)
    ensures First(a + b) == if First(a).Some? then First(a) else First(b)
  {
    if |a| == 0 {
      assert a + b == b;
    } else {
      assert (a + b)[1..] == a[1..] + b;
      FirstConcat(a[1..], b);
    }
  }

  lemma {:induction false} FirstOfAlike(failures: seq<Option<string>>)
    requires |failures| > 0 && forall i :: 0 <= i < |failures| ==> failures[i] == failures[0]
    ensures First(failures) == failures[0]
  {
    if |failures| > 1 {
      FirstOfAlike(failures[1..]);
    }
  }

  lemma {:induction false} FirstIsNone(failures: seq<Option<string>>)
    ensures First(failures).None? <==> forall i :: 0 <= i < |failures| ==> failures[i].None?
  {
    if |failures| > 0 {
      FirstIsNone(failures[1..]);
      assert failures == [failures[0]] + failures[1..];
    }
  }

  /** What the requests of a batch fail with, each on its own. */
  ghost function RequestFailures(
      m: RowModel, acceleration: string, batch: seq<Inputs>, params: set<string>, counts: seq<nat>): seq<Option<string>>
    requires |batch| == |counts|
  {
    seq(|batch|, i requires 0 <= i < |batch| => Failure(m, acceleration, batch[i], params, counts[i]))
  }

  lemma {:induction false} MergedFailures(
      m: RowModel, acceleration: string, batch: seq<Inputs>, params: set<string>, counts: seq<nat>, i: nat)
    requires Compatible(batch, params, counts) && i < |batch|
    ensures Offset(counts, i) + counts[i] == Offset(counts, i + 1) <= Sum(counts)
    ensures Failures(m, acceleration, Merged(batch, params), params, Sum(counts))
              [Offset(counts, i)..Offset(counts, i + 1)]
            == Failures(m, acceleration, batch[i], params, counts[i])
  {
    OffsetNext(counts, i);
    OffsetWithin(counts, i);
    hide Compatible, Row, Merged, Broadcast, Sum;
    MergedBroadcast(batch, params, counts, i);
    var lo := Offset(counts, i);
    var rows := Failures(m, acceleration, Merged(batch, params), params, Sum(counts));
    var own := Failures(m, acceleration, batch[i], params, counts[i]);
    forall j: nat | j < counts[i] ensures rows[lo + j] == own[j] {
      MergedRow(batch, params, counts, i, j);
    }
    hide Failures, Offset;
    assert rows[lo..Offset(counts, i + 1)] == own;
  }

  lemma {:induction false} FailsFrom(
      m: RowModel, acceleration: string, batch: seq<Inputs>, params: set<string>, counts: seq<nat>, i: nat)
    requires Compatible(batch, params, counts) && i <= |batch|
    ensures Offset(counts, i) <= Sum(counts)
    ensures First(Failures(m, acceleration, Merged(batch, params), params, Sum(counts))[Offset(counts, i)..])
            == First(RequestFailures(m, acceleration, batch, params, counts)[i..])
    decreases |batch| - i
  {
    var rows := Failures(m, acceleration, Merged(batch, params), params, Sum(counts));
    var requests := RequestFailures(m, acceleration, batch, params, counts);
    assert |rows| == Sum(counts) && |requests| == |batch| == |counts|;
    if i == |batch| {
      assert counts[..i] == counts;
    } else {
      MergedFailures(m, acceleration, batch, params, counts, i);
      FailsFrom(m, acceleration, batch, params, counts, i + 1);
      var lo, hi := Offset(counts, i), Offset(counts, i + 1);
      assert rows[lo..] == rows[lo..hi] + rows[hi..];
      FirstConcat(rows[lo..hi], rows[hi..]);
      assert requests[i..][1..] == requests[i + 1..];
      assert requests[i] == First(rows[lo..hi]);
    }
  }

  lemma {:induction false} BatchFailsAsFirst(
      m: RowModel, acceleration: string, batch: seq<Inputs>, params: set<string>, counts: seq<nat>)
    requires Compatible(batch, params, counts)
    ensures Failure(m, acceleration, Merged(batch, params), params, Sum(counts))
            == First(RequestFailures(m, acceleration, batch, params, counts))
  {
    FailsFrom(m, acceleration, batch, params, counts, 0);
    var rows := Failures(m, acceleration, Merged(batch, params), params, Sum(counts));
    var requests := RequestFailures(m, acceleration, batch, params, counts);
    assert counts[..0] == [] && rows[0..] == rows && requests[0..] == requests;
  }

  // ----- transparency of a flush -----

  ghost predicate AnsweredAsAlone(batch: seq<Item>, predict: Predictor, answers: seq<Answer>) {
    |answers| == |batch| &&
    forall i :: 0 <= i < |batch| ==> answers[i] == Answer(batch[i].id, predict(batch[i].inputs, batch[i].acceleration))
  }

  /** As alone, had every request asked for the first one's acceleration. */
  ghost predicate AnsweredAsFirst(batch: seq<Item>, predict: Predictor, answers: seq<Answer>) {
    |answers| == |batch| &&
    forall i :: 0 <= i < |batch| ==> answers[i] == Answer(batch[i].id, predict(batch[i].inputs, batch[0].acceleration))
  }

  /** The first request's acceleration makes no difference to anybody. */
  ghost predicate AccelerationsAgree(batch: seq<Item>, predict: Predictor) {
    forall i :: 0 <= i < |batch| ==>
      predict(batch[i].inputs, batch[i].acceleration) == predict(batch[i].inputs, batch[0].acceleration)
  }

  ghost predicate AllReady(batch: seq<Item>, params: set<string>) {
    && (forall j :: 0 <= j < |batch| ==> Ready(batch[j].inputs, params, batch[j].count))
    && Sum(CountsOf(batch)) <= I32_MAX
  }

  ghost predicate SameBroadcast(batch: seq<Item>, params: set<string>) {
    forall j :: 0 <= j < |batch| ==> Broadcast(batch[j].inputs, params) == Broadcast(batch[0].inputs, params)
  }

  ghost function ItemFailure(m: RowModel, params: set<string>, acceleration: string, item: Item): Option<string> {
    Failure(m, acceleration, item.inputs, params, item.count)
  }

  /** All requests of the batch fail with one error, or none fails and no whole output is as long as the batch. */
  ghost predicate MergesSafely(batch: seq<Item>, params: set<string>, m: RowModel)
    requires |batch| > 0
  {
    var acceleration, outputs := batch[0].acceleration, m.outputs(batch[0].acceleration);
    var failure := ItemFailure(m, params, acceleration, batch[0]);
    && (forall i :: 0 <= i < |batch| ==> ItemFailure(m, params, acceleration, batch[i]) == failure)
    && (failure.Some? || forall k :: 0 <= k < |outputs| ==>
          Uncut(outputs[k], Broadcast(batch[0].inputs, params), Sum(CountsOf(batch))))
  }

  ghost predicate AllShaped(batch: seq<Item>, params: set<string>, m: RowModel)
    requires |batch| > 0
  {
    var outputs := m.outputs(batch[0].acceleration);
    forall k :: 0 <= k < |outputs| ==> Shaped(outputs[k], Broadcast(batch[0].inputs, params))
  }

  lemma BatchCompatible(batch: seq<Item>, params: set<string>)
    requires |batch| > 1 && AllReady(batch, params) && SameBroadcast(batch, params)
    ensures Compatible(InputsOf(batch), params, CountsOf(batch))
  {
    assert InputsOf(batch)[0] == batch[0].inputs;
  }

  lemma {:induction false} MergedOutcome(batch: seq<Item>, params: set<string>, predict: Predictor, m: RowModel)
    requires |batch| > 1 && AllReady(batch, params) && SameBroadcast(batch, params) && RowWise(predict, m, params)
    ensures var inputs, counts, acceleration := InputsOf(batch), CountsOf(batch), batch[0].acceleration;
      && Compatible(inputs, params, counts)
      && predict(Merged(inputs, params), acceleration)
         == match First(RequestFailures(m, acceleration, inputs, params, counts))
            case Some(e) => Err(e)
            case None => Ok(Predict(m.outputs(acceleration), Merged(inputs, params), params, Sum(counts)))
  {
    var inputs, counts, acceleration := InputsOf(batch), CountsOf(batch), batch[0].acceleration;
    BatchCompatible(batch, params);
    MergedReady(inputs, params, counts);
    BatchFailsAsFirst(m, acceleration, inputs, params, counts);
    hide Failure, RequestFailures, Merged, Compatible, Predict, SameBroadcast;
  }

  lemma AloneOutcome(batch: seq<Item>, params: set<string>, predict: Predictor, m: RowModel, i: nat)
    requires i < |batch| && AllReady(batch, params) && RowWise(predict, m, params)
    ensures predict(batch[i].inputs, batch[0].acceleration)
            == RunRows(m, batch[0].acceleration, batch[i].inputs, params, batch[i].count)
  {
    OffsetWithin(CountsOf(batch), i);
    assert CountsOf(batch)[i] == batch[i].count;
  }

  /** Under the first request's acceleration each caller of a flushed batch gets exactly what the predictor gives it
      alone, if and only if the batch is a single request, or all its requests fail with one error, or none fails and
      no whole output under its broadcast values is as long as the batch. */
  lemma {:induction false} FlushIsTransparentIff(
      batch: seq<Item>, params: set<string>, predict: Predictor, answers: seq<Answer>, m: RowModel)
    requires ReturnsWellFormed(predict) && Answered(batch, params, predict, answers) && |batch| > 0
    requires RowWise(predict, m, params) && AllReady(batch, params) && SameBroadcast(batch, params)
    requires AllShaped(batch, params, m)
    ensures AnsweredAsFirst(batch, predict, answers) <==> |batch| == 1 || MergesSafely(batch, params, m)
    ensures |batch| == 1 || MergesSafely(batch, params, m) ==>
      (AnsweredAsAlone(batch, predict, answers) <==> AccelerationsAgree(batch, predict))
    ensures AccelerationsAgree(batch, predict) ==>
      (AnsweredAsAlone(batch, predict, answers) <==> |batch| == 1 || MergesSafely(batch, params, m))
  {
    if |batch| > 1 {
      hide RowWise, SameBroadcast, AllReady, AllShaped, MergesSafely, Failure, Merged, Predict, Pieces, Compatible;
      var inputs, counts, acceleration := InputsOf(batch), CountsOf(batch), batch[0].acceleration;
      MergedOutcome(batch, params, predict, m);
      match First(RequestFailures(m, acceleration, inputs, params, counts))
      case Some(e) => FailedFlush(batch, params, predict, answers, m, e);
      case None => ServedFlush(batch, params, predict, answers, m);
    }
  }

  /** A predictor that takes requests with a list of texts. */
  ghost function TextPredictor(m: RowModel): Predictor {
    (inputs: Inputs, acceleration: string) =>
      if "texts" in inputs && inputs["texts"].List? then
        RunRows(m, acceleration, inputs, {"texts"}, |inputs["texts"].items|)
      else Err("no texts")
  }

  lemma TextPredictorRowWise(m: RowModel)
    ensures RowWise(TextPredictor(m), m, {"texts"})
  {
    hide RunRows;
    forall inputs, acceleration, count: nat | Ready(inputs, {"texts"}, count) && count <= I32_MAX
      ensures TextPredictor(m)(inputs, acceleration) == RunRows(m, acceleration, inputs, {"texts"}, count)
    {
      assert "texts" in {"texts"};
    }
  }

  function NullsFail(): RowModel {
    RowModel(_ => [], (_, _, row: Inputs) => if "texts" in row && row["texts"].Null? then Some("null text") else None)
  }

  function TellsAcceleration(): RowModel {
    RowModel(acceleration => [Whole(_ => Str(acceleration))], (_, _, _) => None)
  }

  function TwoTexts(v: Value, first: string, w: Value, second: string): seq<Item> {
    [Item(0, map["texts" := List([v])], first, 1, "", 0), Item(1, map["texts" := List([w])], second, 1, "", 0)]
  }

  lemma TwoTextsReady(v: Value, first: string, w: Value, second: string)
    ensures var batch := TwoTexts(v, first, w, second); AllReady(batch, {"texts"}) && SameBroadcast(batch, {"texts"})
  {
    var batch := TwoTexts(v, first, w, second);
    assert CountsOf(batch) == [1, 1] && [1, 1][..1] == [1] && Sum([1]) == 1 && Sum([1, 1]) == 2;
    assert Broadcast(batch[1].inputs, {"texts"}) == Broadcast(batch[0].inputs, {"texts"});
  }

  lemma OneText(m: RowModel, acceleration: string, v: Value)
    ensures var inputs: Inputs := map["texts" := List([v])];
      && TextPredictor(m)(inputs, acceleration) == RunRows(m, acceleration, inputs, {"texts"}, 1)
      && Failure(m, acceleration, inputs, {"texts"}, 1) == m.failure(acceleration, map[], map["texts" := v])
  {
    var inputs: Inputs := map["texts" := List([v])];
    assert Broadcast(inputs, {"texts"}) == map[];
    assert Row(inputs, {"texts"}, 0) == map["texts" := v];
    var failures := Failures(m, acceleration, inputs, {"texts"}, 1);
    assert failures == [m.failure(acceleration, map[], map["texts" := v])];
    FirstOfAlike(failures);
  }

  /** A request that would have been served alone gets the error of the one it was merged with. */
  lemma {:induction false} FailureSpreads()
    ensures var predict, batch := TextPredictor(NullsFail()), TwoTexts(Str("a"), "cpu", Null, "cpu");
      && predict(batch[0].inputs, "cpu") == Ok([]) && ReturnsWellFormed(predict)
      && forall answers: seq<Answer> :: Answered(batch, {"texts"}, predict, answers) ==>
           answers[0].outcome == Err("null text")
  {
    var m, batch := NullsFail(), TwoTexts(Str("a"), "cpu", Null, "cpu");
    TextPredictorRowWise(m);
    TwoTextsReady(Str("a"), "cpu", Null, "cpu");
    MergedOutcome(batch, {"texts"}, TextPredictor(m), m);
    OneText(m, "cpu", Str("a"));
    OneText(m, "cpu", Null);
    hide Failure, Answered;
    assert RequestFailures(m, "cpu", InputsOf(batch), {"texts"}, CountsOf(batch)) == [None, Some("null text")];
  }

  lemma TellingMergesSafely(batch: seq<Item>)
    requires |batch| > 0
    ensures MergesSafely(batch, {"texts"}, TellsAcceleration()) && AllShaped(batch, {"texts"}, TellsAcceleration())
    ensures ReturnsWellFormed(TextPredictor(TellsAcceleration()))
  {
    var m := TellsAcceleration();
    forall acceleration, inputs, count: nat | true
      ensures Failure(m, acceleration, inputs, {"texts"}, count).None?
    {
      FirstIsNone(Failures(m, acceleration, inputs, {"texts"}, count));
    }
  }

  lemma TellingOutcome(acceleration: string, v: Value)
    ensures var inputs: Inputs := map["texts" := List([v])];
      TextPredictor(TellsAcceleration())(inputs, acceleration) == Ok([Str(acceleration)])
  {
    OneText(TellsAcceleration(), acceleration, v);
  }

  /** A request is answered under the first one's acceleration, not its own. */
  lemma {:induction false} AccelerationIsTheFirsts()
    ensures var predict, batch := TextPredictor(TellsAcceleration()), TwoTexts(Null, "cpu", Null, "gpu");
      && predict(batch[1].inputs, "gpu") == Ok([Str("gpu")]) && ReturnsWellFormed(predict)
      && forall answers: seq<Answer> :: Answered(batch, {"texts"}, predict, answers) ==>
           answers[1].outcome == Ok([Str("cpu")])
  {
    var m, batch := TellsAcceleration(), TwoTexts(Null, "cpu", Null, "gpu");
    TextPredictorRowWise(m);
    TwoTextsReady(Null, "cpu", Null, "gpu");
    TellingOutcome("cpu", Null);
    TellingOutcome("gpu", Null);
    TellingMergesSafely(batch);
    hide RowWise, AllReady, SameBroadcast, MergesSafely, AllShaped, Answered, ReturnsWellFormed, TellsAcceleration;
    hide TextPredictor;
    forall answers: seq<Answer> | Answered(batch, {"texts"}, TextPredictor(m), answers)
      ensures answers[1].outcome == Ok([Str("cpu")])
    {
      FlushIsTransparentIff(batch, {"texts"}, TextPredictor(m), answers, m);
    }
  }

  lemma {:induction false} FailedFlush(
      batch: seq<Item>, params: set<string>, predict: Predictor, answers: seq<Answer>, m: RowModel, e: string)
    requires |answers| == |batch| > 1 && AllReady(batch, params) && RowWise(predict, m, params)
    requires forall i :: 0 <= i < |batch| ==> answers[i] == Answer(batch[i].id, Err(e))
    requires First(RequestFailures(m, batch[0].acceleration, InputsOf(batch), params, CountsOf(batch))) == Some(e)
    ensures AnsweredAsFirst(batch, predict, answers) <==> MergesSafely(batch, params, m)
  {
    hide AllReady, RowWise, Failure, Predict, First;
    var failures := RequestFailures(m, batch[0].acceleration, InputsOf(batch), params, CountsOf(batch));
    forall i | 0 <= i < |batch|
      ensures failures[i] == ItemFailure(m, params, batch[0].acceleration, batch[i])
      ensures answers[i] == Answer(batch[i].id, predict(batch[i].inputs, batch[0].acceleration)) <==>
        failures[i] == Some(e)
    {
      AloneOutcome(batch, params, predict, m, i);
    }
    if MergesSafely(batch, params, m) {
      FirstOfAlike(failures);
    }
  }

  lemma {:induction false} ServedFlush(
      batch: seq<Item>, params: set<string>, predict: Predictor, answers: seq<Answer>, m: RowModel)
    requires ReturnsWellFormed(predict) && Answered(batch, params, predict, answers) && |batch| > 1
    requires RowWise(predict, m, params) && AllReady(batch, params) && SameBroadcast(batch, params)
    requires AllShaped(batch, params, m)
    requires First(RequestFailures(m, batch[0].acceleration, InputsOf(batch), params, CountsOf(batch))).None?
    ensures AnsweredAsFirst(batch, predict, answers) <==> MergesSafely(batch, params, m)
  {
    var inputs, counts, acceleration := InputsOf(batch), CountsOf(batch), batch[0].acceleration;
    var failures := RequestFailures(m, acceleration, inputs, params, counts);
    var outputs := m.outputs(acceleration);
    FirstIsNone(failures);
    MergedOutcome(batch, params, predict, m);
    assert inputs[0] == batch[0].inputs;
    BatchingIsTransparentIff(outputs, inputs, params, counts);
    forall i | 0 <= i < |batch|
      ensures failures[i] == ItemFailure(m, params, acceleration, batch[i])
      ensures predict(batch[i].inputs, acceleration) == Ok(Predict(outputs, inputs[i], params, counts[i]))
    {
      AloneOutcome(batch, params, predict, m, i);
      assert failures[i].None?;
    }
    hide RowWise, AllReady, SameBroadcast, Failure, Predict, Pieces, Uncut, Merged, First;
  }
}
