/** One tick of the weight solver: counters to demands, policies to inputs, shares to stride weights. */
module LeaseLoop {
  import opened RealSums
  import opened LeaseSplit
  import opened LeaseDemand
  import opened LeasePlan

  const DEFAULT_VALUE: real := 1.0
  const DEFAULT_MIN_SHARE: real := 0.25

  /** A number as the control plane sends it: infinities and NaN included. */
  datatype Number = Finite(value: real) | NotFinite

  datatype SentPolicy = SentPolicy(value: Number, minShare: Number)

  datatype Policy = Policy(value: real, minShare: real)

  const DEFAULT_POLICY := Policy(DEFAULT_VALUE, DEFAULT_MIN_SHARE)

  function Gap(a: real, b: real): real {
    if a <= b then b - a else a - b
  }

  /** The terms a label is solved on: always ones the solver can use, and the usable one nearest to what was sent; the
      default stands in for what was not sent or is no number. */
  function PolicyFor(policies: map<string, SentPolicy>, name: string): (p: Policy)
    ensures 0.0 <= p.value && 0.0 <= p.minShare <= 1.0
    ensures name !in policies ==> p == Policy(1.0, 0.25)
    ensures name in policies && policies[name].value.NotFinite? ==> p.value == 1.0
    ensures name in policies && policies[name].minShare.NotFinite? ==> p.minShare == 0.25
    ensures name in policies && policies[name].value.Finite? ==>
      forall v :: v >= 0.0 ==> Gap(p.value, policies[name].value.value) <= Gap(v, policies[name].value.value)
    ensures name in policies && policies[name].minShare.Finite? ==>
      forall v :: 0.0 <= v <= 1.0 ==>
        Gap(p.minShare, policies[name].minShare.value) <= Gap(v, policies[name].minShare.value)
  {
    if name !in policies then DEFAULT_POLICY
    else
      var sent := policies[name];
      Policy(
        if sent.value.Finite? then Max(sent.value.value, 0.0) else DEFAULT_VALUE,
        if sent.minShare.Finite? then ClampUnit(sent.minShare.value) else DEFAULT_MIN_SHARE)
  }

  function InputFor(policies: map<string, SentPolicy>, stat: Stats, demand: real): Registrant {
    var policy := PolicyFor(policies, stat.name);
    Registrant(stat.device, stat.name, ShareInput(demand, policy.value, policy.minShare))
  }

  function InputsFor(policies: map<string, SentPolicy>, stats: seq<Stats>, demands: seq<real>): seq<Registrant>
    requires |demands| == |stats|
  {
    seq(|stats|, i requires 0 <= i < |stats| => InputFor(policies, stats[i], demands[i]))
  }

  lemma InputsAreSane(policies: map<string, SentPolicy>, stats: seq<Stats>, demands: seq<real>)
    requires |demands| == |stats| && forall i :: 0 <= i < |demands| ==> 0.0 <= demands[i] <= 1.0
    ensures SaneInputs(InputsFor(policies, stats, demands))
  {
    hide PolicyFor;
  }

  /** The weights of one device's registrants. */
  function DeviceWeights(inputs: seq<Registrant>, shares: seq<real>, device: int): seq<real>
    requires |shares| == |inputs|
  {
    Weights(Pick(shares, IndicesOf(inputs, device, |inputs|)))
  }

  /** On every device the weights add up to the scale within one unit per registrant, as long as the floors fit
      on the device and its registrants are worth something. */
  lemma {:induction false} DeviceWeightsAddUp(
      inputs: seq<Registrant>, caps: seq<Cap>, shares: seq<real>, eps: real, i: nat)
    requires SaneInputs(inputs) && SaneCaps(caps) && Solved(inputs, caps, shares, eps) && i < |inputs|
    ensures var d := inputs[i].device; var es := Entries(inputs, caps, IndicesOf(inputs, d, |inputs|));
      Sum(Floors(es)) <= 1.0 && Sum(Values(es)) >= F64_EPSILON ==>
        -(|es| as real) <= Sum(DeviceWeights(inputs, shares, d)) - WEIGHT_SCALE <= |es| as real
  {
    hide IsShares;
    var idx := IndicesOf(inputs, inputs[i].device, |inputs|);
    EntriesSane(inputs, caps, idx);
    assert DeviceSolved(inputs, caps, shares, eps, inputs[i].device);
    WeightsOnDevice(Entries(inputs, caps, idx), Pick(shares, idx), eps);
  }

  lemma SharesAreFractions(inputs: seq<Registrant>, shares: seq<real>, eps: real)
    requires SaneInputs(inputs) && IsPlan(inputs, shares, eps)
    ensures forall i :: 0 <= i < |shares| ==> 0.0 <= shares[i] <= 1.0
  {
    var first, caps :| IsPlanBy(inputs, first, caps, shares, eps);
    SolvedAreFractions(inputs, caps, shares, eps);
  }

  lemma SolvedAreFractions(inputs: seq<Registrant>, caps: seq<Cap>, shares: seq<real>, eps: real)
    requires SaneInputs(inputs) && SaneCaps(caps) && Solved(inputs, caps, shares, eps)
    ensures forall i :: 0 <= i < |shares| ==> 0.0 <= shares[i] <= 1.0
  {
    forall i | 0 <= i < |shares| ensures 0.0 <= shares[i] <= 1.0 {
      hide IsShares;
      var idx := IndicesOf(inputs, inputs[i].device, |inputs|);
      var b := IndexOnDevice(inputs, i);
      EntriesSane(inputs, caps, idx);
      assert DeviceSolved(inputs, caps, shares, eps, inputs[i].device);
      ShareAtMostOne(Entries(inputs, caps, idx), Pick(shares, idx), eps, b);
      assert Pick(shares, idx)[b] == shares[i];
    }
  }

  /** The weights after the first `n` registrants were told theirs; a repeated registrant keeps the last. */
  function Told(before: map<Key, nat>, inputs: seq<Registrant>, shares: seq<real>, n: nat): map<Key, nat>
    requires n <= |inputs| == |shares|
  {
    if n == 0 then before
    else Told(before, inputs, shares, n - 1)[(inputs[n - 1].device, inputs[n - 1].name) := Weight(shares[n - 1])]
  }

  /** Every registrant told so far has a positive weight, and it is the weight of one of its own shares;
      everybody else's is untouched. */
  lemma {:induction false} ToldEach(before: map<Key, nat>, inputs: seq<Registrant>, shares: seq<real>, n: nat, key: Key)
    requires n <= |inputs| == |shares| && forall i :: 0 <= i < |shares| ==> 0.0 <= shares[i] <= 1.0
    ensures var told := Told(before, inputs, shares, n);
      if exists i :: 0 <= i < n && (inputs[i].device, inputs[i].name) == key
      then key in told && told[key] >= 1
           && exists i :: 0 <= i < n && (inputs[i].device, inputs[i].name) == key && told[key] == Weight(shares[i])
      else (key in told <==> key in before) && (key in before ==> told[key] == before[key])
  {
    hide Weight;
    if n > 0 {
      ToldEach(before, inputs, shares, n - 1, key);
      if (inputs[n - 1].device, inputs[n - 1].name) == key {
        WeightIsClose(shares[n - 1]);
        assert Told(before, inputs, shares, n)[key] == Weight(shares[n - 1]);
      }
    }
  }

  class LeaseSolverLoop {
    const tracker: DemandTracker
    /** The lease's per-registrant weights. */
    var weights: map<Key, nat>

    ghost predicate Valid()
      reads this, tracker
    {
      UnitDemands(tracker.samples)
    }

    constructor ()
      ensures Valid() && weights == map[] && fresh(tracker)
    {
      tracker := new DemandTracker();
      weights := map[];
    }

    /** Tell every registrant its weight. */
    method TellWeights(inputs: seq<Registrant>, shares: seq<real>)
      requires |shares| == |inputs|
      modifies `weights
      ensures weights == Told(old(weights), inputs, shares, |inputs|)
    {
      hide Weight;
      for i := 0 to |inputs|
        invariant weights == Told(old(weights), inputs, shares, i)
      {
        weights := weights[(inputs[i].device, inputs[i].name) := Weight(shares[i])];
      }
    }

    /** One tick. Without registrants nothing happens, not even to the samples. Otherwise the two-pass plan's
        inputs are observed demands and sanitized policies, and its shares become the weights. */
    method Tick(stats: seq<Stats>, policies: map<string, SentPolicy>, now: nat, alpha: nat -> real, eps: real)
      returns (demands: seq<real>, shares: seq<real>)
      requires Valid() && Smoothing(alpha) && eps >= 0.0
      modifies this, tracker
      ensures Valid() && |demands| == |stats|
      ensures stats == [] ==> weights == old(weights) && tracker.samples == old(tracker.samples)
      ensures stats != [] ==>
        && Observed(old(tracker.samples), stats, now, alpha, demands, tracker.samples)
        && SaneInputs(InputsFor(policies, stats, demands))
        && |shares| == |stats| && IsPlan(InputsFor(policies, stats, demands), shares, eps)
        && weights == Told(old(weights), InputsFor(policies, stats, demands), shares, |stats|)
    {
      if |stats| == 0 {
        return [], [];
      }
      hide PolicyFor, UnitDemands, Smoothing, SaneInputs, IsPlan, Weight, Fold, FoldAll;
      demands := tracker.Observe(stats, now, alpha);
      InputsAreSane(policies, stats, demands);
      var inputs := InputsFor(policies, stats, demands);
      shares := PlanShares(inputs, eps);
      TellWeights(inputs, shares);
    }
  }
}
