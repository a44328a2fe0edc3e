/** What the split promises a registrant in terms of what it asked for and what its policy says, from one device's
    solve to the stride weights of a tick. */
module LeaseGuarantees {
  import opened RealSums
  import opened LeaseSplit
  import opened LeaseSolver
  import opened LeasePlan
  import opened LeaseDemand
  import opened LeaseLoop

  // ----- one device -----

  /** Nobody gets less than its guaranteed minimum unless it asked for less, and then it gets what it asked for. */
  lemma {:induction false} MinimumIsKept(es: seq<ShareInput>, s: seq<real>, eps: real, i: nat)
    requires Sane(es) && IsShares(es, s, eps) && i < |es|
    ensures |s| == |es| && (s[i] >= es[i].minShare || s[i] >= es[i].demand)
  {
    SharesConserve(es, s, eps);
  }

  /** Before leftovers, an entry below an unmet one of higher value gets no more than its minimum, and nobody gets more
      than it asked for. */
  lemma {:induction false} BelowUnmetGetsMinimum(
      es: seq<ShareInput>, x: seq<real>, free: real, eps: real, i: nat, j: nat)
    requires IsSplit(es, x, free, eps) && i < |es| && j < |es|
    requires es[j].value > es[i].value && es[j].demand - x[j] > eps
    ensures x[i] <= es[i].minShare && x[i] <= es[i].demand && free <= eps
  {
  }

  /** The final shares: whoever has more than its minimum has it only once everybody of higher value is met, and whoever
      has more than it asked for only once everybody is. */
  lemma {:induction false} HigherValueFirst(es: seq<ShareInput>, s: seq<real>, eps: real, i: nat, j: nat)
    requires eps >= 0.0 && Sane(es) && IsShares(es, s, eps) && i < |es| && j < |es|
    ensures |s| == |es|
    ensures es[j].value > es[i].value && s[i] > es[i].minShare + eps ==> s[j] >= es[j].demand - eps
    ensures s[i] > es[i].demand + eps ==> s[j] >= es[j].demand - eps
  {
    var x, free :| IsSplit(es, x, free, eps) && s == WithLeftovers(es, x, free);
    LeftoverBounds(es, x, free, i);
    LeftoverBounds(es, x, free, j);
    assert x[i] <= s[i] <= x[i] + free && x[j] <= s[j];
    hide Mul, WithLeftovers, LeftoverRatio, Conserves, MaxMinFair;
  }

  /** Among equal values, an unmet entry that has more than its minimum has as much above it as anybody else. */
  lemma {:induction false} EqualValuesEqualSurplus(
      es: seq<ShareInput>, x: seq<real>, free: real, eps: real, i: nat, j: nat)
    requires IsSplit(es, x, free, eps) && i < |es| && j < |es| && es[i].value == es[j].value
    requires es[i].demand - x[i] > eps && es[i].minShare <= es[i].demand
    ensures x[j] - es[j].minShare <= x[i] - es[i].minShare
  {
  }

  /** Unless their values all but vanish, the entries of a device use it up, or floors that oversubscribe it are all
      that is granted. */
  lemma {:induction false} DeviceIsUsedUp(es: seq<ShareInput>, s: seq<real>, eps: real)
    requires Sane(es) && IsShares(es, s, eps) && Sum(Values(es)) * 4503599627370496.0 >= 1.0
    ensures Sum(s) == 1.0 || (Sum(s) > 1.0 && forall i :: 0 <= i < |es| ==> s[i] <= es[i].minShare)
  {
    SharesConserve(es, s, eps);
  }

  /** Values that do vanish share the unclaimed time in proportion to the machine epsilon. */
  lemma {:induction false} VanishingValuesLeaveTime(es: seq<ShareInput>, x: seq<real>, free: real)
    requires |x| == |es| && Sum(Values(es)) * 4503599627370496.0 <= 1.0
    ensures Sum(WithLeftovers(es, x, free)) == Sum(x) + free * Sum(Values(es)) * 4503599627370496.0
  {
    SumWithLeftovers(es, x, free, F64_EPSILON);
    assert Max(Sum(Values(es)), F64_EPSILON) == F64_EPSILON;
  }

  // ----- all devices -----

  /** A registrant's place in its device's solve. */
  lemma {:induction false} PlaceOnDevice(
      inputs: seq<Registrant>, caps: seq<Cap>, shares: seq<real>, eps: real, i: nat) returns (b: nat)
    requires SaneInputs(inputs) && SaneCaps(caps) && Solved(inputs, caps, shares, eps) && i < |inputs|
    ensures var idx := IndicesOf(inputs, inputs[i].device, |inputs|); var es := Entries(inputs, caps, idx);
      && Sane(es) && IsShares(es, Pick(shares, idx), eps)
      && b < |es| && es[b] == Capped(inputs[i].input, caps[i]) && Pick(shares, idx)[b] == shares[i]
  {
    hide IsShares, IndicesOf, Capped, Sane, SaneInputs, SaneCaps;
    var idx := IndicesOf(inputs, inputs[i].device, |inputs|);
    b := IndexOnDevice(inputs, i);
    EntriesSane(inputs, caps, idx);
    assert DeviceSolved(inputs, caps, shares, eps, inputs[i].device);
  }

  /** One pass keeps each registrant's minimum, as far as its demand and its cap go. */
  lemma {:induction false} PassKeepsMinimum(
      inputs: seq<Registrant>, caps: seq<Cap>, shares: seq<real>, eps: real, i: nat)
    requires SaneInputs(inputs) && SaneCaps(caps) && Solved(inputs, caps, shares, eps) && i < |inputs|
    ensures |shares| == |inputs| == |caps|
    ensures || shares[i] >= inputs[i].input.minShare || shares[i] >= inputs[i].input.demand
            || (caps[i].AtMost? && shares[i] >= caps[i].limit)
  {
    SolvedLength(inputs, caps, shares, eps);
    hide SaneInputs, SaneCaps, Sane, IsShares, IndicesOf, DeviceSolved, Entries, Pick;
    var b := PlaceOnDevice(inputs, caps, shares, eps, i);
    var idx := IndicesOf(inputs, inputs[i].device, |inputs|);
    MinimumIsKept(Entries(inputs, caps, idx), Pick(shares, idx), eps, b);
  }

  /** A plan keeps a label's guarantee: when every registrant of the label may have `g` and asks for it, each gets it,
      bottleneck caps and all, and without any slack. */
  lemma {:induction false} LabelMinimumIsKept(
      inputs: seq<Registrant>, shares: seq<real>, eps: real, name: string, g: real)
    requires SaneInputs(inputs) && IsPlan(inputs, shares, eps)
    requires forall j :: 0 <= j < |inputs| && inputs[j].name == name ==>
      inputs[j].input.minShare >= g && inputs[j].input.demand >= g
    ensures |shares| == |inputs|
    ensures forall i :: 0 <= i < |inputs| && inputs[i].name == name ==> shares[i] >= g
  {
    var first: seq<real>, caps: seq<Cap> :| IsPlanBy(inputs, first, caps, shares, eps);
    hide Solved, SaneInputs, SaneCaps, CapsBottleneck, NoRegret;
    SolvedLength(inputs, caps, shares, eps);
    SolvedLength(inputs, Uncapped(|inputs|), first, eps);
    assert SaneCaps(Uncapped(|inputs|)) by {
      UncappedIsSane(|inputs|);
    }
    forall j | 0 <= j < |inputs| && inputs[j].name == name ensures first[j] >= g {
      PassKeepsMinimum(inputs, Uncapped(|inputs|), first, eps, j);
    }
    assert AtLeast(inputs, first, name, g);
    forall i | 0 <= i < |inputs| && inputs[i].name == name ensures shares[i] >= g {
      BottleneckCap(inputs, first, caps, i, g);
      PassKeepsMinimum(inputs, caps, shares, eps, i);
    }
  }

  lemma UncappedIsSane(n: nat)
    ensures SaneCaps(Uncapped(n))
  {
  }

  /** On a device, a registrant has more than its minimum only once every registrant of higher value whose label is on
      no other device has what it asked for. */
  lemma {:induction false} PlanServesValueFirst(
      inputs: seq<Registrant>, shares: seq<real>, eps: real, i: nat, j: nat)
    requires eps >= 0.0 && SaneInputs(inputs) && IsPlan(inputs, shares, eps) && i < |inputs| && j < |inputs|
    requires inputs[i].device == inputs[j].device && inputs[j].input.value > inputs[i].input.value
    requires forall k :: 0 <= k < |inputs| && inputs[k].name == inputs[j].name ==> k == j
    ensures |shares| == |inputs|
    ensures shares[i] > inputs[i].input.minShare + eps ==> shares[j] >= inputs[j].input.demand - eps
  {
    var first: seq<real>, caps: seq<Cap> :| IsPlanBy(inputs, first, caps, shares, eps);
    hide Solved, SaneInputs, SaneCaps, Sane, IsShares, CapsBottleneck, NoRegret, IndicesOf, Entries, Pick;
    SolvedLength(inputs, Uncapped(|inputs|), first, eps);
    SolvedLength(inputs, caps, shares, eps);
    CapOfLone(inputs, first, caps, j);
    var idx := IndicesOf(inputs, inputs[i].device, |inputs|);
    var a := PlaceOnDevice(inputs, caps, shares, eps, i);
    var b := PlaceOnDevice(inputs, caps, shares, eps, j);
    HigherValueFirst(Entries(inputs, caps, idx), Pick(shares, idx), eps, a, b);
  }

  /** On a device, nobody has more than it asked for while an uncapped registrant is still unmet. */
  lemma {:induction false} PassGivesNoMoreThanAsked(
      inputs: seq<Registrant>, caps: seq<Cap>, shares: seq<real>, eps: real, i: nat, j: nat)
    requires eps >= 0.0 && SaneInputs(inputs) && SaneCaps(caps) && Solved(inputs, caps, shares, eps)
    requires i < |inputs| && j < |inputs| && inputs[i].device == inputs[j].device
    ensures |shares| == |inputs| == |caps|
    ensures caps[j].Unbounded? && shares[j] < inputs[j].input.demand - eps ==>
      shares[i] <= inputs[i].input.demand + eps
  {
    hide Solved, SaneInputs, SaneCaps, Sane, IsShares, IndicesOf, Entries, Pick;
    SolvedLength(inputs, caps, shares, eps);
    var idx := IndicesOf(inputs, inputs[i].device, |inputs|);
    var a := PlaceOnDevice(inputs, caps, shares, eps, i);
    var b := PlaceOnDevice(inputs, caps, shares, eps, j);
    HigherValueFirst(Entries(inputs, caps, idx), Pick(shares, idx), eps, a, b);
    CappedAsksNoMore(inputs[i].input, caps[i]);
  }

  lemma CappedAsksNoMore(e: ShareInput, cap: Cap)
    ensures Capped(e, cap).demand <= e.demand && Capped(e, Unbounded) == e
  {
  }

  lemma {:induction false} PlanGivesNoMoreThanAsked(
      inputs: seq<Registrant>, shares: seq<real>, eps: real, i: nat, j: nat)
    requires eps >= 0.0 && SaneInputs(inputs) && IsPlan(inputs, shares, eps) && i < |inputs| && j < |inputs|
    requires inputs[i].device == inputs[j].device
    requires forall k :: 0 <= k < |inputs| && inputs[k].name == inputs[j].name ==> k == j
    ensures |shares| == |inputs|
    ensures shares[j] < inputs[j].input.demand - eps ==> shares[i] <= inputs[i].input.demand + eps
  {
    var first: seq<real>, caps: seq<Cap> :| IsPlanBy(inputs, first, caps, shares, eps);
    hide Solved, SaneInputs, SaneCaps, CapsBottleneck, NoRegret;
    SolvedLength(inputs, Uncapped(|inputs|), first, eps);
    CapOfLone(inputs, first, caps, j);
    PassGivesNoMoreThanAsked(inputs, caps, shares, eps, i, j);
  }

  lemma CapOfLone(inputs: seq<Registrant>, first: seq<real>, caps: seq<Cap>, j: nat)
    requires |first| == |inputs| == |caps| && CapsBottleneck(inputs, first, caps) && j < |inputs|
    requires forall k :: 0 <= k < |inputs| && inputs[k].name == inputs[j].name ==> k == j
    ensures caps[j].Unbounded?
  {
  }

  lemma CapOfRepeated(inputs: seq<Registrant>, first: seq<real>, caps: seq<Cap>, i: nat, k: nat)
    requires |first| == |inputs| == |caps| && CapsBottleneck(inputs, first, caps) && i < |inputs| && k < |inputs|
    requires i != k && inputs[i].name == inputs[k].name
    ensures caps[i].AtMost? && caps[i].limit <= first[k]
  {
  }

  /** What the second pass is for: on a device where a registrant is still unmet, a label that is also on other devices
      takes no more than it got on each of them in the first pass. */
  lemma {:induction false} BottleneckFreesTime(
      inputs: seq<Registrant>, first: seq<real>, caps: seq<Cap>, shares: seq<real>, eps: real, i: nat, j: nat, k: nat)
    requires eps >= 0.0 && SaneInputs(inputs) && IsPlanBy(inputs, first, caps, shares, eps)
    requires i < |inputs| && j < |inputs| && k < |inputs| && inputs[i].device == inputs[j].device
    requires i != k && inputs[i].name == inputs[k].name
    requires forall l :: 0 <= l < |inputs| && inputs[l].name == inputs[j].name ==> l == j
    ensures |shares| == |first| == |inputs|
    ensures shares[j] < inputs[j].input.demand - eps ==> shares[i] <= first[k] + eps
  {
    hide Solved, SaneInputs, SaneCaps, Sane, IsShares, CapsBottleneck, NoRegret, IndicesOf, Entries, Pick;
    SolvedLength(inputs, Uncapped(|inputs|), first, eps);
    SolvedLength(inputs, caps, shares, eps);
    CapOfLone(inputs, first, caps, j);
    CapOfRepeated(inputs, first, caps, i, k);
    var idx := IndicesOf(inputs, inputs[i].device, |inputs|);
    var a := PlaceOnDevice(inputs, caps, shares, eps, i);
    var b := PlaceOnDevice(inputs, caps, shares, eps, j);
    HigherValueFirst(Entries(inputs, caps, idx), Pick(shares, idx), eps, a, b);
  }

  // ----- one tick -----

  /** The minimum share a label's policy gives it: what was sent if it is a usable number, a quarter if nothing was. */
  ghost predicate EntitledTo(policies: map<string, SentPolicy>, name: string, g: real) {
    if name !in policies then g == 0.25
    else 0.0 <= g <= 1.0 && policies[name].minShare == Finite(g)
  }

  lemma {:induction false} TickMinimum(
      policies: map<string, SentPolicy>, stats: seq<Stats>, demands: seq<real>, shares: seq<real>, eps: real,
      name: string, g: real)
    requires |demands| == |stats| && SaneInputs(InputsFor(policies, stats, demands))
    requires IsPlan(InputsFor(policies, stats, demands), shares, eps) && EntitledTo(policies, name, g)
    requires forall j :: 0 <= j < |stats| && stats[j].name == name ==> demands[j] >= g
    ensures |shares| == |stats| && forall i :: 0 <= i < |stats| && stats[i].name == name ==> shares[i] >= g
  {
    hide IsPlan, SaneInputs, PolicyFor;
    SentMinimum(policies, name, g);
    LabelMinimumIsKept(InputsFor(policies, stats, demands), shares, eps, name, g);
  }

  /** A label whose registrants all ask for their guaranteed minimum `g` runs, on every device, at a weight of at least
      1000 times `g`, up to rounding. */
  lemma {:induction false} GuaranteeReachesWeights(
      policies: map<string, SentPolicy>, stats: seq<Stats>, demands: seq<real>, shares: seq<real>, eps: real,
      before: map<Key, nat>, i: nat, g: real)
    requires |demands| == |stats| && i < |stats|
    requires forall j :: 0 <= j < |stats| ==> 0.0 <= demands[j] <= 1.0
    requires IsPlan(InputsFor(policies, stats, demands), shares, eps)
    requires EntitledTo(policies, stats[i].name, g)
    requires forall j :: 0 <= j < |stats| && stats[j].name == stats[i].name ==> demands[j] >= g
    ensures |shares| == |stats|
    ensures var told := Told(before, InputsFor(policies, stats, demands), shares, |stats|);
      (stats[i].device, stats[i].name) in told && told[(stats[i].device, stats[i].name)] as real >= 1000.0 * g - 0.5
  {
    hide IsPlan, SaneInputs, PolicyFor, Weight, EntitledTo, Told;
    var inputs := InputsFor(policies, stats, demands);
    InputsAreSane(policies, stats, demands);
    TickMinimum(policies, stats, demands, shares, eps, stats[i].name, g);
    SharesAreFractions(inputs, shares, eps);
    var key := (stats[i].device, stats[i].name);
    ToldEach(before, inputs, shares, |inputs|, key);
    assert (inputs[i].device, inputs[i].name) == key;
    var k :| 0 <= k < |inputs| && (inputs[k].device, inputs[k].name) == key
      && Told(before, inputs, shares, |inputs|)[key] == Weight(shares[k]);
    WeightAtLeast(shares[k], g);
  }

  lemma WeightAtLeast(share: real, g: real)
    requires g <= share <= 1.0 && 0.0 <= share
    ensures Weight(share) as real >= 1000.0 * g - 0.5
  {
    WeightIsClose(share);
  }

  lemma SentMinimum(policies: map<string, SentPolicy>, name: string, g: real)
    requires EntitledTo(policies, name, g)
    ensures PolicyFor(policies, name).minShare == g
  {
  }

  lemma SentValue(policies: map<string, SentPolicy>, name: string, v: real)
    requires name in policies && policies[name].value == Finite(v) && v >= 0.0
    ensures PolicyFor(policies, name).value == v
  {
  }

  /** The demand observed decides: a registrant has more than it was seen to need only once those on its device whose
      label is on no other have what they need. */
  lemma {:induction false} ObservedDemandDecides(
      policies: map<string, SentPolicy>, stats: seq<Stats>, demands: seq<real>, shares: seq<real>, eps: real,
      i: nat, j: nat)
    requires eps >= 0.0 && |demands| == |stats| && i < |stats| && j < |stats| && stats[i].device == stats[j].device
    requires forall k :: 0 <= k < |stats| ==> 0.0 <= demands[k] <= 1.0
    requires IsPlan(InputsFor(policies, stats, demands), shares, eps)
    requires forall k :: 0 <= k < |stats| && stats[k].name == stats[j].name ==> k == j
    ensures |shares| == |stats|
    ensures shares[i] > demands[i] + eps ==> shares[j] >= demands[j] - eps
  {
    hide IsPlan, SaneInputs, PolicyFor;
    InputsAreSane(policies, stats, demands);
    PlanGivesNoMoreThanAsked(InputsFor(policies, stats, demands), shares, eps, i, j);
  }

  /** The value the control plane sent decides: a registrant has more than its policy's minimum only once those of
      higher value on its device, if their label is on no other, have what they asked for. */
  lemma {:induction false} SentValueDecides(
      policies: map<string, SentPolicy>, stats: seq<Stats>, demands: seq<real>, shares: seq<real>, eps: real,
      i: nat, j: nat, g: real, low: real, high: real)
    requires eps >= 0.0 && |demands| == |stats| && i < |stats| && j < |stats| && stats[i].device == stats[j].device
    requires forall k :: 0 <= k < |stats| ==> 0.0 <= demands[k] <= 1.0
    requires IsPlan(InputsFor(policies, stats, demands), shares, eps)
    requires stats[i].name in policies && policies[stats[i].name].value == Finite(low)
    requires stats[j].name in policies && policies[stats[j].name].value == Finite(high) && 0.0 <= low < high
    requires EntitledTo(policies, stats[i].name, g)
    requires forall k :: 0 <= k < |stats| && stats[k].name == stats[j].name ==> k == j
    ensures |shares| == |stats|
    ensures shares[i] > g + eps ==> shares[j] >= demands[j] - eps
  {
    hide IsPlan, SaneInputs, PolicyFor, EntitledTo;
    var inputs := InputsFor(policies, stats, demands);
    InputsAreSane(policies, stats, demands);
    SentMinimum(policies, stats[i].name, g);
    SentValue(policies, stats[i].name, low);
    SentValue(policies, stats[j].name, high);
    PlanServesValueFirst(inputs, shares, eps, i, j);
  }
}
