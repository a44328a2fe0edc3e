/** Stride weights from shares, and smoothed demand from lease counters. */
module LeaseDemand {
  import opened RealSums
  import opened LeaseSplit

  const WEIGHT_SCALE: real := 1000.0
  const INITIAL_DEMAND: real := 1.0
  const U32_MAX: int := 0xFFFF_FFFF

  /** Round half away from zero, as `f64::round` does. */
  function Round(x: real): int {
    if x >= 0.0 then (x + 0.5).Floor else -((-x + 0.5).Floor)
  }

  /** A saturating cast to 32 unsigned bits. */
  function ToU32(x: int): nat {
    if x < 0 then 0 else if x > U32_MAX then U32_MAX else x
  }

  function Weight(share: real): nat {
    var scaled := Round(share * WEIGHT_SCALE);
    ToU32(if scaled < 1 then 1 else scaled)
  }

  function Weights(shares: seq<real>): seq<real> {
    seq(|shares|, i requires 0 <= i < |shares| => Weight(shares[i]) as real)
  }

  lemma WeightIsClose(share: real)
    requires 0.0 <= share <= 1.0
    ensures Weight(share) >= 1
    ensures Weight(share) > 1 ==> -0.5 <= Weight(share) as real - WEIGHT_SCALE * share <= 0.5
    ensures Weight(share) == 1 ==> WEIGHT_SCALE * share < 1.5
    ensures -1.0 <= Weight(share) as real - WEIGHT_SCALE * share <= 1.0
  {
  }

  lemma WeightIsMonotone(a: real, b: real)
    requires 0.0 <= a <= b <= 1.0
    ensures Weight(a) <= Weight(b)
  {
  }

  lemma {:induction false} WeightsTrack(s: seq<real>)
    requires forall i :: 0 <= i < |s| ==> 0.0 <= s[i] <= 1.0
    ensures -(|s| as real) <= Sum(Weights(s)) - WEIGHT_SCALE * Sum(s) <= |s| as real
  {
    if |s| > 0 {
      WeightIsClose(s[0]);
      WeightsTrack(s[1..]);
      assert Weights(s)[1..] == Weights(s[1..]);
    }
  }

  /** No share exceeds the whole device, whether or not floors oversubscribe it. */
  lemma {:induction false} ShareAtMostOne(es: seq<ShareInput>, s: seq<real>, eps: real, i: nat)
    requires Sane(es) && IsShares(es, s, eps) && i < |es|
    ensures |s| == |es| && 0.0 <= s[i] <= 1.0
  {
    SharesConserve(es, s, eps);
    if Sum(Floors(es)) <= 1.0 {
      SumAtLeastEach(s, i);
    }
  }

  /** The weights on a device are never 0, and add up to the device's scale up to one unit per entry. */
  lemma {:induction false} WeightsOnDevice(es: seq<ShareInput>, s: seq<real>, eps: real)
    requires Sane(es) && IsShares(es, s, eps)
    ensures |s| == |es| && forall i :: 0 <= i < |s| ==> Weight(s[i]) >= 1
    ensures Sum(Floors(es)) <= 1.0 && Sum(Values(es)) >= F64_EPSILON ==>
      -(|es| as real) <= Sum(Weights(s)) - WEIGHT_SCALE <= |es| as real
  {
    SharesConserve(es, s, eps);
    forall i | 0 <= i < |s| ensures 0.0 <= s[i] <= 1.0 && Weight(s[i]) >= 1 {
      ShareAtMostOne(es, s, eps, i);
      WeightIsClose(s[i]);
    }
    WeightsTrack(s);
  }

  // ----- demand smoothing -----

  /** One registrant's lease counters; times are in nanoseconds. */
  datatype Stats = Stats(device: int, name: string, nsHeld: nat, nsWaited: nat)

  datatype Sample = Sample(nsHeld: nat, nsWaited: nat, at: nat, demand: real)

  type Key = (int, string)
  type Samples = map<Key, Sample>

  function KeyOf(stat: Stats): Key {
    (stat.device, stat.name)
  }

  function ClampUnit(x: real): real {
    if x < 0.0 then 0.0 else if x > 1.0 then 1.0 else x
  }

  /** The fraction of `dt` nanoseconds spent holding or waiting since the sample. */
  function BusyFraction(sample: Sample, stat: Stats, dt: nat): real
    requires stat.nsHeld >= sample.nsHeld && stat.nsWaited >= sample.nsWaited && dt > 0
  {
    ClampUnit((stat.nsHeld - sample.nsHeld + (stat.nsWaited - sample.nsWaited)) as real / dt as real)
  }

  /** The sample a snapshot leaves behind: restarted when new or when a counter went backwards,
      unchanged when no time has passed, and otherwise smoothed. */
  function Fold(samples: Samples, stat: Stats, now: nat, alpha: nat -> real): Sample {
    var key := KeyOf(stat);
    if key in samples && stat.nsHeld >= samples[key].nsHeld && stat.nsWaited >= samples[key].nsWaited then
      var sample := samples[key];
      if now > sample.at then
        var dt := now - sample.at;
        Sample(stat.nsHeld, stat.nsWaited, now,
          sample.demand + alpha(dt) * (BusyFraction(sample, stat, dt) - sample.demand))
      else sample
    else Sample(stat.nsHeld, stat.nsWaited, now, INITIAL_DEMAND)
  }

  /** The samples after the first `n` snapshots. */
  function FoldAll(samples: Samples, stats: seq<Stats>, now: nat, alpha: nat -> real, n: nat): Samples
    requires n <= |stats|
  {
    if n == 0 then samples
    else
      var before := FoldAll(samples, stats, now, alpha, n - 1);
      before[KeyOf(stats[n - 1]) := Fold(before, stats[n - 1], now, alpha)]
  }

  ghost predicate Smoothing(alpha: nat -> real) {
    forall dt: nat :: dt > 0 ==> 0.0 < alpha(dt) < 1.0
  }

  ghost predicate UnitDemands(samples: Samples) {
    forall k :: k in samples ==> 0.0 <= samples[k].demand <= 1.0
  }

  /** Smoothing moves the demand a part of the way to the busy fraction: the gap shrinks by `1 - alpha`. */
  lemma {:induction false} DemandApproaches(samples: Samples, stat: Stats, now: nat, alpha: nat -> real, busy: real)
    requires Smoothing(alpha) && KeyOf(stat) in samples
    requires var sample := samples[KeyOf(stat)];
      && stat.nsHeld >= sample.nsHeld && stat.nsWaited >= sample.nsWaited && now > sample.at
      && busy == BusyFraction(sample, stat, now - sample.at)
    ensures var sample := samples[KeyOf(stat)]; var folded := Fold(samples, stat, now, alpha);
      && folded.demand - busy == (1.0 - alpha(now - sample.at)) * (sample.demand - busy)
      && (sample.demand <= busy ==> sample.demand <= folded.demand <= busy)
      && (sample.demand >= busy ==> busy <= folded.demand <= sample.demand)
  {
    hide BusyFraction, ClampUnit;
    Blend(samples[KeyOf(stat)].demand, busy, alpha(now - samples[KeyOf(stat)].at));
  }

  lemma Blend(d: real, u: real, a: real)
    requires 0.0 < a < 1.0
    ensures d + a * (u - d) - u == (1.0 - a) * (d - u)
    ensures d <= u ==> d <= d + a * (u - d) <= u
    ensures d >= u ==> u <= d + a * (u - d) <= d
  {
    if d <= u {
      Positive(a, u - d);
      Positive(1.0 - a, u - d);
    } else {
      Positive(a, d - u);
      Positive(1.0 - a, d - u);
    }
  }

  lemma Positive(a: real, b: real)
    requires a >= 0.0 && b >= 0.0
    ensures a * b >= 0.0
  {
  }

  lemma {:induction false} FoldStaysUnit(samples: Samples, stat: Stats, now: nat, alpha: nat -> real)
    requires Smoothing(alpha) && UnitDemands(samples)
    ensures 0.0 <= Fold(samples, stat, now, alpha).demand <= 1.0
  {
    var key := KeyOf(stat);
    if key in samples && stat.nsHeld >= samples[key].nsHeld && stat.nsWaited >= samples[key].nsWaited
       && now > samples[key].at {
      DemandApproaches(samples, stat, now, alpha, BusyFraction(samples[key], stat, now - samples[key].at));
    }
  }

  lemma {:induction false} FoldAllStaysUnit(samples: Samples, stats: seq<Stats>, now: nat, alpha: nat -> real, n: nat)
    requires n <= |stats| && Smoothing(alpha) && UnitDemands(samples)
    ensures UnitDemands(FoldAll(samples, stats, now, alpha, n))
  {
    if n > 0 {
      FoldAllStaysUnit(samples, stats, now, alpha, n - 1);
      FoldStaysUnit(FoldAll(samples, stats, now, alpha, n - 1), stats[n - 1], now, alpha);
    }
  }

  /** The registrants among the first `n` snapshots. */
  function KeysOf(stats: seq<Stats>, n: nat): set<Key>
    requires n <= |stats|
  {
    if n == 0 then {} else KeysOf(stats, n - 1) + {KeyOf(stats[n - 1])}
  }

  lemma {:induction false} KeysTracked(samples: Samples, stats: seq<Stats>, now: nat, alpha: nat -> real, n: nat)
    requires n <= |stats|
    ensures KeysOf(stats, n) <= FoldAll(samples, stats, now, alpha, n).Keys
  {
    if n > 0 {
      KeysTracked(samples, stats, now, alpha, n - 1);
    }
  }

  /** What one observation answers and leaves behind. */
  ghost predicate Observed(
      before: Samples, stats: seq<Stats>, now: nat, alpha: nat -> real, demands: seq<real>, after: Samples) {
    && |demands| == |stats|
    && (forall i :: 0 <= i < |stats| ==>
          demands[i] == Fold(FoldAll(before, stats, now, alpha, i), stats[i], now, alpha).demand)
    && after.Keys == KeysOf(stats, |stats|)
    && after.Keys <= FoldAll(before, stats, now, alpha, |stats|).Keys
    && (forall k :: k in after ==> after[k] == FoldAll(before, stats, now, alpha, |stats|)[k])
  }

  function Retain(samples: Samples, seen: set<Key>): Samples {
    map k | k in samples && k in seen :: samples[k]
  }

  lemma RetainObserved(before: Samples, stats: seq<Stats>, now: nat, alpha: nat -> real, demands: seq<real>)
    requires |demands| == |stats|
    requires forall i :: 0 <= i < |stats| ==>
      demands[i] == Fold(FoldAll(before, stats, now, alpha, i), stats[i], now, alpha).demand
    ensures Observed(before, stats, now, alpha, demands,
      Retain(FoldAll(before, stats, now, alpha, |stats|), KeysOf(stats, |stats|)))
  {
    hide Fold;
    KeysTracked(before, stats, now, alpha, |stats|);
  }

  /** Every demand handed out is a fraction, and stays one. */
  lemma {:induction false} ObservedIsUnit(
      before: Samples, stats: seq<Stats>, now: nat, alpha: nat -> real, demands: seq<real>, after: Samples)
    requires Smoothing(alpha) && UnitDemands(before) && Observed(before, stats, now, alpha, demands, after)
    ensures UnitDemands(after) && forall i :: 0 <= i < |demands| ==> 0.0 <= demands[i] <= 1.0
  {
    FoldAllStaysUnit(before, stats, now, alpha, |stats|);
    forall i | 0 <= i < |demands| ensures 0.0 <= demands[i] <= 1.0 {
      FoldAllStaysUnit(before, stats, now, alpha, i);
      FoldStaysUnit(FoldAll(before, stats, now, alpha, i), stats[i], now, alpha);
    }
  }

  // ----- what successive observations measure -----

  /** Each registrant is in the snapshot once. */
  ghost predicate EachOnce(stats: seq<Stats>) {
    forall i, j :: 0 <= i < |stats| && 0 <= j < |stats| && KeyOf(stats[i]) == KeyOf(stats[j]) ==> i == j
  }

  lemma {:induction false} FoldedOnce(
      samples: Samples, stats: seq<Stats>, now: nat, alpha: nat -> real, n: nat, i: nat)
    requires n <= |stats| && i < |stats| && EachOnce(stats)
    ensures var key := KeyOf(stats[i]); var folded := FoldAll(samples, stats, now, alpha, n);
      if i < n then key in folded && folded[key] == Fold(samples, stats[i], now, alpha)
      else (key in folded <==> key in samples) && (key in samples ==> folded[key] == samples[key])
  {
    if n > 0 {
      FoldedOnce(samples, stats, now, alpha, n - 1, i);
      FoldedOnce(samples, stats, now, alpha, n - 1, n - 1);
      FoldReadsItsKey(samples, FoldAll(samples, stats, now, alpha, n - 1), stats[n - 1], now, alpha);
      hide Fold;
    }
  }

  lemma FoldReadsItsKey(a: Samples, b: Samples, stat: Stats, now: nat, alpha: nat -> real)
    requires KeyOf(stat) in a <==> KeyOf(stat) in b
    requires KeyOf(stat) in a ==> a[KeyOf(stat)] == b[KeyOf(stat)]
    ensures Fold(a, stat, now, alpha) == Fold(b, stat, now, alpha)
  {
  }

  /** An observation starts a registrant afresh, at demand 1, when it is new or one of its counters went backwards. */
  ghost predicate StartsAfresh(before: Samples, stat: Stats) {
    KeyOf(stat) !in before
    || stat.nsHeld < before[KeyOf(stat)].nsHeld || stat.nsWaited < before[KeyOf(stat)].nsWaited
  }

  lemma {:induction false} ObservedSample(
      before: Samples, stats: seq<Stats>, now: nat, alpha: nat -> real, demands: seq<real>, after: Samples, i: nat)
    requires Observed(before, stats, now, alpha, demands, after) && EachOnce(stats) && i < |stats|
    ensures |demands| == |stats| && KeyOf(stats[i]) in after
    ensures after[KeyOf(stats[i])] == Fold(before, stats[i], now, alpha)
    ensures demands[i] == Fold(before, stats[i], now, alpha).demand
  {
    hide Fold;
    FoldedOnce(before, stats, now, alpha, |stats|, i);
    FoldedOnce(before, stats, now, alpha, i, i);
    FoldReadsItsKey(before, FoldAll(before, stats, now, alpha, i), stats[i], now, alpha);
    KeyIsSeen(stats, |stats|, i);
  }

  lemma {:induction false} KeyIsSeen(stats: seq<Stats>, n: nat, i: nat)
    requires i < n <= |stats|
    ensures KeyOf(stats[i]) in KeysOf(stats, n)
  {
    if i < n - 1 {
      KeyIsSeen(stats, n - 1, i);
    }
  }

  /** An observation keeps what it saw: unless no time has passed, the registrant's counters and the time; and a
      registrant that starts afresh has demand 1. */
  lemma {:induction false} ObservationIsKept(
      before: Samples, stats: seq<Stats>, now: nat, alpha: nat -> real, demands: seq<real>, after: Samples, i: nat)
    requires Observed(before, stats, now, alpha, demands, after) && EachOnce(stats) && i < |stats|
    ensures |demands| == |stats| && KeyOf(stats[i]) in after
    ensures StartsAfresh(before, stats[i]) ==> demands[i] == 1.0
    ensures StartsAfresh(before, stats[i]) || before[KeyOf(stats[i])].at < now ==>
      after[KeyOf(stats[i])] == Sample(stats[i].nsHeld, stats[i].nsWaited, now, demands[i])
    ensures !StartsAfresh(before, stats[i]) && now <= before[KeyOf(stats[i])].at ==>
      after[KeyOf(stats[i])] == before[KeyOf(stats[i])] && demands[i] == before[KeyOf(stats[i])].demand
  {
    ObservedSample(before, stats, now, alpha, demands, after, i);
  }

  /** Who is not in the snapshot is forgotten. */
  lemma {:induction false} AbsentIsForgotten(
      before: Samples, stats: seq<Stats>, now: nat, alpha: nat -> real, demands: seq<real>, after: Samples, key: Key)
    requires Observed(before, stats, now, alpha, demands, after)
    requires forall i :: 0 <= i < |stats| ==> (stats[i].device, stats[i].name) != key
    ensures key !in after
  {
    SeenOnly(stats, |stats|, key);
  }

  lemma {:induction false} SeenOnly(stats: seq<Stats>, n: nat, key: Key)
    requires n <= |stats| && forall i :: 0 <= i < n ==> (stats[i].device, stats[i].name) != key
    ensures key !in KeysOf(stats, n)
  {
    if n > 0 {
      SeenOnly(stats, n - 1, key);
    }
  }

  /** `part` of the way from `a` to `b`. */
  function Towards(a: real, b: real, part: real): real {
    a + part * (b - a)
  }

  /** Two observations one after the other measure what happened between them: the demand moves by the smoothing
      factor towards the fraction of the time between them that the registrant spent holding or waiting. */
  lemma {:induction false} ObservationsMeasureTheirDifference(
      before: Samples, stats1: seq<Stats>, t1: nat, demands1: seq<real>, between: Samples,
      stats2: seq<Stats>, t2: nat, demands2: seq<real>, after: Samples, alpha: nat -> real, i: nat, j: nat)
    requires Observed(before, stats1, t1, alpha, demands1, between) && EachOnce(stats1) && i < |stats1|
    requires Observed(between, stats2, t2, alpha, demands2, after) && EachOnce(stats2) && j < |stats2|
    requires (stats1[i].device, stats1[i].name) == (stats2[j].device, stats2[j].name) && t1 < t2
    requires KeyOf(stats1[i]) in before ==> before[KeyOf(stats1[i])].at < t1
    requires stats1[i].nsHeld <= stats2[j].nsHeld && stats1[i].nsWaited <= stats2[j].nsWaited
    ensures |demands1| == |stats1| && |demands2| == |stats2|
    ensures var busy := (stats2[j].nsHeld - stats1[i].nsHeld + stats2[j].nsWaited - stats1[i].nsWaited) as real
                        / (t2 - t1) as real;
      demands2[j] == Towards(demands1[i], if busy > 1.0 then 1.0 else busy, alpha(t2 - t1))
  {
    hide Observed, Fold, EachOnce, Towards;
    assert StartsAfresh(before, stats1[i]) || before[KeyOf(stats1[i])].at < t1;
    hide StartsAfresh;
    ObservationIsKept(before, stats1, t1, alpha, demands1, between, i);
    ObservedSample(between, stats2, t2, alpha, demands2, after, j);
    FoldMeasures(between, stats2[j], t2, alpha);
  }

  lemma {:induction false} FoldMeasures(samples: Samples, stat: Stats, now: nat, alpha: nat -> real)
    requires KeyOf(stat) in samples && samples[KeyOf(stat)].at < now
    requires samples[KeyOf(stat)].nsHeld <= stat.nsHeld && samples[KeyOf(stat)].nsWaited <= stat.nsWaited
    ensures var last := samples[KeyOf(stat)];
      var busy := (stat.nsHeld - last.nsHeld + stat.nsWaited - last.nsWaited) as real / (now - last.at) as real;
      Fold(samples, stat, now, alpha).demand
      == Towards(last.demand, if busy > 1.0 then 1.0 else busy, alpha(now - last.at))
  {
    var last := samples[KeyOf(stat)];
    Quotient((stat.nsHeld - last.nsHeld + stat.nsWaited - last.nsWaited) as real, (now - last.at) as real);
  }

  lemma Quotient(a: real, b: real)
    requires a >= 0.0 && b > 0.0
    ensures a / b >= 0.0
  {
  }

  class DemandTracker {
    var samples: Samples

    constructor ()
      ensures samples == map[]
    {
      samples := map[];
    }

    /** Take in a snapshot of all registrants and answer their demands in its order. Every demand is a
        fraction, and exactly the registrants of this snapshot stay tracked. */
    method Observe(stats: seq<Stats>, now: nat, alpha: nat -> real) returns (demands: seq<real>)
      requires Smoothing(alpha) && UnitDemands(samples)
      modifies this
      ensures Observed(old(samples), stats, now, alpha, demands, samples)
      ensures UnitDemands(samples) && forall i :: 0 <= i < |demands| ==> 0.0 <= demands[i] <= 1.0
    {
      var seen: set<Key> := {};
      demands := [];
      hide Fold, Smoothing, UnitDemands, Observed, Retain;
      for i := 0 to |stats|
        invariant samples == FoldAll(old(samples), stats, now, alpha, i)
        invariant seen == KeysOf(stats, i)
        invariant |demands| == i
        invariant forall j :: 0 <= j < i ==>
          demands[j] == Fold(FoldAll(old(samples), stats, now, alpha, j), stats[j], now, alpha).demand
      {
        var key := KeyOf(stats[i]);
        var sample := Fold(samples, stats[i], now, alpha);
        samples := samples[key := sample];
        seen := seen + {key};
        demands := demands + [sample.demand];
      }
      RetainObserved(old(samples), stats, now, alpha, demands);
      samples := Retain(samples, seen);
      ObservedIsUnit(old(samples), stats, now, alpha, demands, samples);
    }
  }
}
