/** The batching plan a signature asks for, and the key that decides which requests may share an invocation. */
module BatchPlan {
  import opened Wrappers
  import opened Values
  import opened Merge
  import opened BatchTransparency

  // ----- the plan -----

  datatype Mode = Static | Dynamic | Continuous

  datatype BatchConfig = BatchConfig(mode: Mode, capacity: Option<nat>)

  datatype Parameter = Parameter(name: string, batch: Option<BatchConfig>)

  datatype Plan = Sequential | Buffered(params: set<string>, capacity: nat) | Concurrent

  function Batched(signature: seq<Parameter>): seq<Parameter> {
    if |signature| == 0 then []
    else (if signature[0].batch.Some? then [signature[0]] else []) + Batched(signature[1..])
  }

  /** The smallest capacity given, if any is. */
  function LeastCapacity(batched: seq<Parameter>): Option<nat> {
    if |batched| == 0 then None
    else
      var rest := LeastCapacity(batched[1..]);
      match batched[0].batch
      case Some(BatchConfig(_, Some(c))) => if rest.Some? && rest.value < c then rest else Some(c)
      case _ => rest
  }

  function FromSignature(signature: seq<Parameter>): Plan {
    var batched := Batched(signature);
    if |batched| == 0 then Sequential
    else if exists i :: 0 <= i < |batched| && batched[i].batch.Some? && batched[i].batch.value.mode.Continuous?
    then Concurrent
    else
      var least := LeastCapacity(batched);
      Buffered(set p | p in batched :: p.name, if least.Some? then least.value else 1)
  }

  predicate Asks(p: Parameter) {
    p.batch.Some?
  }

  predicate AsksContinuous(p: Parameter) {
    p.batch.Some? && p.batch.value.mode.Continuous?
  }

  predicate AsksCapacity(p: Parameter, c: nat) {
    p.batch.Some? && p.batch.value.capacity == Some(c)
  }

  lemma {:induction false} BatchedAreAsking(signature: seq<Parameter>)
    ensures forall p :: p in Batched(signature) <==> p in signature && Asks(p)
  {
    if |signature| > 0 {
      BatchedAreAsking(signature[1..]);
      assert signature == [signature[0]] + signature[1..];
    }
  }

  lemma {:induction false} LeastIsLeast(batched: seq<Parameter>)
    ensures var least := LeastCapacity(batched);
      if least.Some?
      then (exists p :: p in batched && AsksCapacity(p, least.value))
           && forall p, c :: p in batched && AsksCapacity(p, c) ==> least.value <= c
      else forall p, c :: p in batched ==> !AsksCapacity(p, c)
  {
    if |batched| > 0 {
      LeastIsLeast(batched[1..]);
      var least := LeastCapacity(batched);
      assert batched == [batched[0]] + batched[1..];
      if least.Some? {
        if !AsksCapacity(batched[0], least.value) {
          assert LeastCapacity(batched[1..]) == least;
        }
      }
    }
  }

  /** The dispatch plan: exclusive without batching, the engine's own business if any parameter is continuous, and
      otherwise buffered on exactly the batched parameters at the tightest capacity given. */
  lemma {:induction false} PlanIs(signature: seq<Parameter>)
    ensures FromSignature(signature).Sequential? <==> forall p :: p in signature ==> !Asks(p)
    ensures FromSignature(signature).Concurrent? <==> exists p :: p in signature && AsksContinuous(p)
    ensures var plan := FromSignature(signature); plan.Buffered? ==>
      && (forall name :: name in plan.params <==> exists p :: p in signature && Asks(p) && p.name == name)
      && (forall p, c :: p in signature && AsksCapacity(p, c) ==> plan.capacity <= c)
      && ((exists p :: p in signature && AsksCapacity(p, plan.capacity))
          || (plan.capacity == 1 && forall p, c :: p in signature ==> !AsksCapacity(p, c)))
  {
    var batched := Batched(signature);
    BatchedAreAsking(signature);
    LeastIsLeast(batched);
    ContinuousIff(signature);
    if |batched| > 0 {
      assert batched[0] in batched;
    }
  }

  lemma {:induction false} ContinuousIff(signature: seq<Parameter>)
    ensures FromSignature(signature).Concurrent? <==> exists p :: p in signature && AsksContinuous(p)
  {
    var batched := Batched(signature);
    BatchedAreAsking(signature);
    if FromSignature(signature).Concurrent? {
      var i :| 0 <= i < |batched| && batched[i].batch.Some? && batched[i].batch.value.mode.Continuous?;
      assert batched[i] in batched;
      assert AsksContinuous(batched[i]);
    }
    if p :| p in signature && AsksContinuous(p) {
      assert p in batched;
      var i :| 0 <= i < |batched| && batched[i] == p;
      assert batched[i].batch.value.mode.Continuous?;
    }
  }

  // ----- item counts -----

  ghost predicate Enumerates(order: seq<string>, names: set<string>) {
    && (forall k :: k in order <==> k in names)
    && forall i, j :: 0 <= i < j < |order| ==> order[i] != order[j]
  }

  /** How many rows a batch parameter carries; a value that is no list counts as one. */
  function RowsOf(inputs: Inputs, name: string): nat {
    if name !in inputs then 0 else if inputs[name].List? then |inputs[name].items| else 1
  }

  /** The batch slots a request occupies, its batch parameters visited in any order. */
  function ItemCount(inputs: Inputs, order: seq<string>): (n: nat)
    ensures n >= 1
    ensures forall k :: k in order && k in inputs && inputs[k].List? ==> |inputs[k].items| <= n
    ensures n == 1 || exists k :: k in order && k in inputs && inputs[k].List? && |inputs[k].items| == n
  {
    if |order| == 0 then 1
    else
      assert order == [order[0]] + order[1..];
      var rest := ItemCount(inputs, order[1..]);
      if RowsOf(inputs, order[0]) > rest then RowsOf(inputs, order[0]) else rest
  }

  /** A request whose batch parameters are lists of one common length counts as that many items. */
  lemma ReadyCount(inputs: Inputs, params: set<string>, order: seq<string>, count: nat)
    requires Enumerates(order, params) && params != {} && Ready(inputs, params, count)
    ensures ItemCount(inputs, order) == count
  {
    var p :| p in params;
    assert p in order && |inputs[p].items| == count;
  }
}
