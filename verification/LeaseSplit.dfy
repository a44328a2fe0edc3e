/** What it means to split a device, and what follows from it.

    `IsSplit` characterises the allocation before leftovers without mentioning
    rounds, tiers or a water level. The theorems below hold for every tolerance
    `eps >= 0`; at `eps == 0` they are exact. */
module LeaseSplit {
  import opened RealSums

  /** What one registrant asks for and is owed. */
  datatype ShareInput = ShareInput(demand: real, value: real, minShare: real)

  /** The gap between 1.0 and the next `f64`: the divisor's lower bound. */
  const F64_EPSILON: real := 1.0 / 4503599627370496.0

  /** What demand smoothing and policy sanitising guarantee. */
  ghost predicate Sane(es: seq<ShareInput>) {
    forall i :: 0 <= i < |es| ==>
      0.0 <= es[i].demand <= 1.0 && 0.0 <= es[i].value && 0.0 <= es[i].minShare <= 1.0
  }

  function Floor(e: ShareInput): real {
    Min(e.minShare, e.demand)
  }

  function Floors(es: seq<ShareInput>): seq<real> {
    seq(|es|, i requires 0 <= i < |es| => Floor(es[i]))
  }

  function Values(es: seq<ShareInput>): seq<real> {
    seq(|es|, i requires 0 <= i < |es| => es[i].value)
  }

  ghost predicate Near(e: ShareInput, share: real, eps: real) {
    e.demand - share <= eps
  }

  /** Shares lie between floor and demand. */
  ghost predicate Within(es: seq<ShareInput>, x: seq<real>) {
    |x| == |es| && forall i :: 0 <= i < |es| ==> Floor(es[i]) <= x[i] <= es[i].demand
  }

  /** Nothing is created or lost: floors that oversubscribe the device are all that is granted. */
  ghost predicate Conserves(es: seq<ShareInput>, x: seq<real>, free: real) {
    0.0 <= free && Sum(x) + free == Max(1.0, Sum(Floors(es)))
  }

  /** Time is left over only when every demand is met. */
  ghost predicate Exhausts(es: seq<ShareInput>, x: seq<real>, free: real, eps: real)
    requires |x| == |es|
  {
    free > eps ==> forall i :: 0 <= i < |es| ==> Near(es[i], x[i], eps)
  }

  /** An entry gets more than its floor only once every entry of higher value is met. */
  ghost predicate ByValue(es: seq<ShareInput>, x: seq<real>, eps: real)
    requires |x| == |es|
  {
    forall i, j :: 0 <= i < |es| && 0 <= j < |es| && es[i].value > es[j].value && x[j] > Floor(es[j]) ==>
      Near(es[i], x[i], eps)
  }

  /** Among equal values, an unmet entry was granted as much above its floor as anyone. */
  ghost predicate MaxMinFair(es: seq<ShareInput>, x: seq<real>, eps: real)
    requires |x| == |es|
  {
    forall i, j :: 0 <= i < |es| && 0 <= j < |es| && es[i].value == es[j].value && !Near(es[i], x[i], eps) ==>
      x[j] - Floor(es[j]) <= x[i] - Floor(es[i])
  }

  /** The allocation before leftovers. */
  ghost predicate IsSplit(es: seq<ShareInput>, x: seq<real>, free: real, eps: real) {
    && Within(es, x)
    && Conserves(es, x, free)
    && Exhausts(es, x, free, eps)
    && ByValue(es, x, eps)
    && MaxMinFair(es, x, eps)
  }

  function LeftoverRatio(es: seq<ShareInput>, i: nat): real
    requires i < |es|
  {
    es[i].value / Max(Sum(Values(es)), F64_EPSILON)
  }

  /** The part of the unclaimed time that goes to value `v`. */
  function Extra(free: real, v: real, total: real): real
    requires total > 0.0
  {
    free * v / total
  }

  /** Shares after the unclaimed time is spread by value. */
  function WithLeftovers(es: seq<ShareInput>, x: seq<real>, free: real): seq<real>
    requires |x| == |es|
  {
    seq(|es|, i requires 0 <= i < |es| => x[i] + Extra(free, es[i].value, Max(Sum(Values(es)), F64_EPSILON)))
  }

  /** `s` is the share vector the solver may return. */
  ghost predicate IsShares(es: seq<ShareInput>, s: seq<real>, eps: real) {
    exists x, free :: IsSplit(es, x, free, eps) && s == WithLeftovers(es, x, free)
  }

  /** `lower` differs from `es` only by demands that are no higher. */
  ghost predicate LowersDemand(lower: seq<ShareInput>, es: seq<ShareInput>) {
    |lower| == |es| && forall i :: 0 <= i < |es| ==>
      lower[i].value == es[i].value && lower[i].minShare == es[i].minShare && lower[i].demand <= es[i].demand
  }

  lemma {:induction false} FloorsBelowShares(es: seq<ShareInput>, x: seq<real>, free: real)
    requires Within(es, x) && Conserves(es, x, free)
    ensures Sum(Floors(es)) <= Sum(x)
    ensures Sum(Floors(es)) > 1.0 ==> free == 0.0 && x == Floors(es)
  {
    SumOrdered(Floors(es), x);
    if Sum(Floors(es)) > 1.0 {
      SumForcesEqual(Floors(es), x);
    }
  }

  lemma {:induction false} LowerFloors(lower: seq<ShareInput>, es: seq<ShareInput>)
    requires LowersDemand(lower, es)
    ensures Sum(Floors(lower)) <= Sum(Floors(es))
  {
    SumOrdered(Floors(lower), Floors(es));
  }

  /** Lowering demands never takes time from an entry that still wants it: entry `b` keeps
      its allocation, or its own (lowered) demand, up to `|es|` times `eps`. */
  lemma {:induction false} SplitMonotone(
      es: seq<ShareInput>, x: seq<real>, free: real,
      lower: seq<ShareInput>, x': seq<real>, free': real, eps: real, b: nat)
    requires eps >= 0.0 && b < |es|
    requires IsSplit(es, x, free, eps) && IsSplit(lower, x', free', eps) && LowersDemand(lower, es)
    ensures x'[b] >= Min(x[b], lower[b].demand) - Times(|es|, eps)
  {
    TimesBounds(|es|, eps);
    if x'[b] < Min(x[b], lower[b].demand) - Times(|es|, eps) {
      StillWants(es, x, free, lower, x', free', eps, b);
      forall j | 0 <= j < |es| && j != b ensures x'[j] <= x[j] + eps {
        SplitMonotoneOther(es, x, free, lower, x', free', eps, b, j);
      }
      SumButOne(x', x, eps, b);
      assert false;
    }
  }

  /** An entry that fell short of its old allocation and its new demand sits above its floor on a
      device whose floors fit, with all of the device handed out. */
  lemma {:induction false} StillWants(
      es: seq<ShareInput>, x: seq<real>, free: real,
      lower: seq<ShareInput>, x': seq<real>, free': real, eps: real, b: nat)
    requires eps >= 0.0 && b < |es|
    requires IsSplit(es, x, free, eps) && IsSplit(lower, x', free', eps) && LowersDemand(lower, es)
    requires x'[b] < x[b] && x'[b] < lower[b].demand - eps
    ensures !Near(lower[b], x'[b], eps) && Floor(lower[b]) == Floor(es[b]) < x[b]
    ensures Sum(x) <= 1.0 && Sum(x') >= 1.0 - eps
  {
    FloorsBelowShares(es, x, free);
    FloorsBelowShares(lower, x', free');
    LowerFloors(lower, es);
    assert !Near(lower[b], x'[b], eps);
    assert free' <= eps;
  }

  /** Termwise domination up to `c` everywhere but at `b`. */
  lemma {:induction false} SumButOne(a: seq<real>, x: seq<real>, c: real, b: nat)
    requires |a| == |x| && b < |x|
    requires forall i :: 0 <= i < |x| && i != b ==> a[i] <= x[i] + c
    ensures Sum(a) <= Sum(x) + (a[b] - x[b]) - c + Times(|x|, c)
  {
    var y := x[b := a[b] - c];
    SumUpdate(x, b, a[b] - c);
    SumDominated(a, y, c);
  }

  /** If `b` lost time it wanted, nobody else can have gained more than `eps`. */
  lemma {:induction false} SplitMonotoneOther(
      es: seq<ShareInput>, x: seq<real>, free: real,
      lower: seq<ShareInput>, x': seq<real>, free': real, eps: real, b: nat, j: nat)
    requires eps >= 0.0 && b < |es| && j < |es|
    requires IsSplit(es, x, free, eps) && IsSplit(lower, x', free', eps) && LowersDemand(lower, es)
    requires !Near(lower[b], x'[b], eps) && x'[b] < x[b] && Floor(lower[b]) == Floor(es[b]) < x[b]
    ensures x'[j] <= x[j] + eps
  {
    if es[j].value > es[b].value {
      assert Near(es[j], x[j], eps);
    } else if es[j].value < es[b].value {
      assert lower[b].value > lower[j].value;
      assert x'[j] <= Floor(lower[j]) <= Floor(es[j]) <= x[j];
    } else {
      assert lower[j].value == lower[b].value;
      assert x'[j] - Floor(lower[j]) <= x'[b] - Floor(lower[b]);
      if !Near(es[j], x[j], eps) {
        assert x[b] - Floor(es[b]) <= x[j] - Floor(es[j]);
      }
    }
  }

  /** The characterisation is complete: it pins every allocation down, up to `|es|` times `eps`. */
  lemma {:induction false} SplitUnique(
      es: seq<ShareInput>, x: seq<real>, free: real, y: seq<real>, freeY: real, eps: real, b: nat)
    requires eps >= 0.0 && b < |es|
    requires IsSplit(es, x, free, eps) && IsSplit(es, y, freeY, eps)
    ensures -(Times(|es|, eps)) <= x[b] - y[b] <= Times(|es|, eps)
  {
    SplitMonotone(es, x, free, es, y, freeY, eps, b);
    SplitMonotone(es, y, freeY, es, x, free, eps, b);
  }

  /** Value-weighted time: what the knapsack maximises. */
  function Worth(es: seq<ShareInput>, x: seq<real>): real
    requires |x| == |es|
  {
    if |es| == 0 then 0.0 else Mul(es[0].value, x[0]) + Worth(es[1..], x[1..])
  }

  /** Any other way of spending at most one device between floors and demands. */
  ghost predicate Feasible(es: seq<ShareInput>, y: seq<real>) {
    Within(es, y) && Sum(y) <= 1.0
  }

  /** The best value among entries still unmet, which every allocation is priced at. */
  lemma {:induction false} MarginalValue(es: seq<ShareInput>, x: seq<real>, eps: real) returns (theta: real)
    requires Sane(es) && |x| == |es|
    ensures theta >= 0.0
    ensures forall i :: 0 <= i < |es| && es[i].value > theta ==> Near(es[i], x[i], eps)
    ensures theta > 0.0 ==> exists i :: 0 <= i < |es| && es[i].value == theta && !Near(es[i], x[i], eps)
  {
    theta := 0.0;
    for k := 0 to |es|
      invariant theta >= 0.0
      invariant forall i :: 0 <= i < k && es[i].value > theta ==> Near(es[i], x[i], eps)
      invariant theta > 0.0 ==> exists i :: 0 <= i < k && es[i].value == theta && !Near(es[i], x[i], eps)
    {
      if !Near(es[k], x[k], eps) && es[k].value > theta {
        theta := es[k].value;
      }
    }
  }

  lemma TermGain(v: real, x: real, y: real, theta: real, eps: real)
    requires v >= 0.0 && eps >= 0.0 && theta >= 0.0
    requires v > theta ==> y <= x + eps
    requires v < theta ==> x <= y
    ensures Mul(v, y) <= Mul(v, x) + Mul(theta, y - x) + Mul(eps, if v > theta then v - theta else 0.0)
  {
    assert (v - theta) * (y - x) == v * y - v * x - theta * (y - x);
    if v > theta {
      NonNegativeProduct(v - theta, eps - (y - x));
    } else if v < theta {
      NonNegativeProduct(theta - v, y - x);
    }
  }

  lemma NonNegativeProduct(a: real, b: real)
    requires a >= 0.0 && b >= 0.0
    ensures a * b >= 0.0
  {
  }

  /** Weight above the marginal value, which bounds what near-met entries can still miss. */
  function ExcessValue(es: seq<ShareInput>, theta: real): real {
    if |es| == 0 then 0.0
    else (if es[0].value > theta then es[0].value - theta else 0.0) + ExcessValue(es[1..], theta)
  }

  lemma {:induction false} WorthGain(es: seq<ShareInput>, x: seq<real>, y: seq<real>, theta: real, eps: real)
    requires |x| == |es| == |y| && theta >= 0.0 && eps >= 0.0
    requires forall i :: 0 <= i < |es| ==> es[i].value >= 0.0
    requires forall i :: 0 <= i < |es| && es[i].value > theta ==> y[i] <= x[i] + eps
    requires forall i :: 0 <= i < |es| && es[i].value < theta ==> x[i] <= y[i]
    ensures Worth(es, y) <= Worth(es, x) + Mul(theta, Sum(y) - Sum(x)) + Mul(eps, ExcessValue(es, theta))
  {
    if |es| > 0 {
      hide Mul;
      TermGain(es[0].value, x[0], y[0], theta, eps);
      WorthGain(es[1..], x[1..], y[1..], theta, eps);
      MulAdd(theta, y[0] - x[0], Sum(y[1..]) - Sum(x[1..]));
      MulAdd(eps, if es[0].value > theta then es[0].value - theta else 0.0, ExcessValue(es[1..], theta));
    }
  }

  lemma {:induction false} ExcessBelowTotal(es: seq<ShareInput>, theta: real)
    requires Sane(es) && theta >= 0.0
    ensures 0.0 <= ExcessValue(es, theta) <= Sum(Values(es))
    ensures (exists i :: 0 <= i < |es| && es[i].value == theta) ==>
      ExcessValue(es, theta) + theta <= Sum(Values(es))
  {
    if |es| > 0 {
      assert Values(es)[1..] == Values(es[1..]);
      ExcessBelowTotal(es[1..], theta);
      if i :| 0 <= i < |es| && es[i].value == theta {
        if i > 0 {
          assert es[1..][i - 1].value == theta;
        }
      }
    }
  }

  /** Fractional knapsack: no feasible allocation is worth more, up to `eps` of the total value. */
  lemma {:induction false} SplitIsOptimal(es: seq<ShareInput>, x: seq<real>, free: real, y: seq<real>, eps: real)
    requires eps >= 0.0 && Sane(es) && IsSplit(es, x, free, eps) && Feasible(es, y)
    ensures Worth(es, y) <= Worth(es, x) + Mul(eps, Sum(Values(es)))
    ensures Sum(Floors(es)) <= 1.0
  {
    FloorsBelowShares(es, x, free);
    SumOrdered(Floors(es), y);
    var theta := MarginalValue(es, x, eps);
    forall i | 0 <= i < |es| && es[i].value < theta ensures x[i] <= y[i] {
      assert theta > 0.0;
      var k :| 0 <= k < |es| && es[k].value == theta && !Near(es[k], x[k], eps);
      assert x[i] <= Floor(es[i]);
    }
    forall i | 0 <= i < |es| && es[i].value > theta ensures y[i] <= x[i] + eps {
      assert Near(es[i], x[i], eps);
    }
    WorthGain(es, x, y, theta, eps);
    ExcessBelowTotal(es, theta);
    var total := Sum(Values(es));
    if theta > 0.0 {
      assert free <= eps;
      PriceBound(theta, Sum(y) - Sum(x), ExcessValue(es, theta), total, eps);
    } else {
      PriceBound(0.0, 0.0, ExcessValue(es, theta), total, eps);
    }
  }

  lemma PriceBound(theta: real, gap: real, excess: real, total: real, eps: real)
    requires theta >= 0.0 && eps >= 0.0 && gap <= eps && excess + theta <= total
    ensures Mul(theta, gap) + Mul(eps, excess) <= Mul(eps, total)
  {
    assert theta * gap <= theta * eps;
    assert eps * (total - excess - theta) >= 0.0;
  }

  /** What the leftover step adds to one share: a fraction of the unclaimed time. */
  lemma {:induction false} LeftoverBounds(es: seq<ShareInput>, x: seq<real>, free: real, i: nat)
    requires Sane(es) && i < |es| == |x| && free >= 0.0
    ensures 0.0 <= LeftoverRatio(es, i) <= 1.0
    ensures WithLeftovers(es, x, free)[i] == x[i] + Mul(free, LeftoverRatio(es, i))
    ensures 0.0 <= Mul(free, LeftoverRatio(es, i)) <= free
  {
    SumAtLeastEach(Values(es), i);
    RatioBounds(es[i].value, Max(Sum(Values(es)), F64_EPSILON), free);
  }

  lemma RatioBounds(v: real, total: real, free: real)
    requires 0.0 <= v <= total && total > 0.0 && free >= 0.0
    ensures 0.0 <= v / total <= 1.0
    ensures Extra(free, v, total) == Mul(free, v / total)
    ensures 0.0 <= Mul(free, v / total) <= free
  {
    NonNegativeProduct(free, v / total);
    NonNegativeProduct(free, 1.0 - v / total);
  }

  lemma ScaledSlack(a: real, b: real, c: real, r: real)
    requires 0.0 <= r <= 1.0 && a >= b - c && c >= 0.0
    ensures Mul(a, r) >= Mul(b, r) - c
  {
    assert (a - b + c) * r >= 0.0;
    assert c * r <= c;
  }

  /** When time is left over, lowered demands leave at least as much, up to the slack. */
  lemma {:induction false} LeftoverGrows(
      es: seq<ShareInput>, x: seq<real>, free: real, lower: seq<ShareInput>, x': seq<real>, free': real, eps: real)
    requires eps >= 0.0 && IsSplit(es, x, free, eps) && IsSplit(lower, x', free', eps) && LowersDemand(lower, es)
    requires free > eps
    ensures free' >= free - Times(|es|, eps)
  {
    FloorsBelowShares(es, x, free);
    LowerFloors(lower, es);
    FloorsBelowShares(lower, x', free');
    assert forall i :: 0 <= i < |es| ==> Near(es[i], x[i], eps);
    SumDominated(x', x, eps);
  }

  /** How far shares after leftovers may slip on a device with `n` entries. */
  function ShareSlack(n: nat, eps: real): real {
    Times(n, eps) + Times(n, eps) + eps
  }

  /** Shares after leftovers are monotone too. */
  lemma {:induction false} SharesMonotone(
      es: seq<ShareInput>, s: seq<real>, lower: seq<ShareInput>, s': seq<real>, eps: real, b: nat)
    requires eps >= 0.0 && b < |es| && Sane(es) && Sane(lower)
    requires IsShares(es, s, eps) && IsShares(lower, s', eps) && LowersDemand(lower, es)
    ensures s'[b] >= Min(s[b], lower[b].demand) - ShareSlack(|es|, eps)
    ensures lower[b].demand == es[b].demand ==> s'[b] >= s[b] - ShareSlack(|es|, eps)
  {
    var x, free :| IsSplit(es, x, free, eps) && s == WithLeftovers(es, x, free);
    var x', free' :| IsSplit(lower, x', free', eps) && s' == WithLeftovers(lower, x', free');
    assert Values(lower) == Values(es) && lower[b].value == es[b].value;
    LeftoverBounds(es, x, free, b);
    LeftoverBounds(lower, x', free', b);
    WithLeftoversMonotone(es, x, free, lower, x', free', LeftoverRatio(es, b), eps, b);
  }

  lemma {:induction false} WithLeftoversMonotone(
      es: seq<ShareInput>, x: seq<real>, free: real,
      lower: seq<ShareInput>, x': seq<real>, free': real, r: real, eps: real, b: nat)
    requires eps >= 0.0 && b < |es| && 0.0 <= r <= 1.0
    requires IsSplit(es, x, free, eps) && IsSplit(lower, x', free', eps) && LowersDemand(lower, es)
    requires 0.0 <= Mul(free, r) <= free && 0.0 <= Mul(free', r) <= free'
    ensures x'[b] + Mul(free', r) >= Min(x[b] + Mul(free, r), lower[b].demand) - ShareSlack(|es|, eps)
    ensures lower[b].demand == es[b].demand ==>
      x'[b] + Mul(free', r) >= x[b] + Mul(free, r) - ShareSlack(|es|, eps)
  {
    hide Mul;
    SplitMonotone(es, x, free, lower, x', free', eps, b);
    TimesBounds(|es|, eps);
    if free > eps {
      LeftoverGrows(es, x, free, lower, x', free', eps);
      assert Near(es[b], x[b], eps);
      ScaledSlack(free', free, Times(|es|, eps), r);
      if free' > eps {
        assert Near(lower[b], x'[b], eps);
      }
    }
  }

  lemma {:induction false} SumWithLeftovers(es: seq<ShareInput>, x: seq<real>, free: real, total: real)
    requires |x| == |es| && total > 0.0
    ensures Sum(seq(|es|, i requires 0 <= i < |es| => x[i] + Extra(free, es[i].value, total))) ==
            Sum(x) + Extra(free, Sum(Values(es)), total)
  {
    var out := seq(|es|, i requires 0 <= i < |es| => x[i] + Extra(free, es[i].value, total));
    if |es| == 0 {
      assert Extra(free, 0.0, total) == 0.0;
    } else {
      hide Extra;
      var rest := seq(|es[1..]|, i requires 0 <= i < |es[1..]| => x[1..][i] + Extra(free, es[1..][i].value, total));
      forall k | 0 <= k < |rest| ensures out[1..][k] == rest[k] {
        assert out[1..][k] == out[k + 1] && es[1..][k] == es[k + 1] && x[1..][k] == x[k + 1];
      }
      assert out[1..] == rest;
      assert Values(es)[1..] == Values(es[1..]);
      SumWithLeftovers(es[1..], x[1..], free, total);
      ExtraAdds(free, es[0].value, Sum(Values(es[1..])), total);
    }
  }

  lemma ExtraAdds(free: real, a: real, b: real, total: real)
    requires total > 0.0
    ensures Extra(free, a + b, total) == Extra(free, a, total) + Extra(free, b, total)
  {
    assert free * (a + b) == free * a + free * b;
  }

  lemma ExtraWhole(free: real, total: real)
    requires total > 0.0
    ensures Extra(free, total, total) == free
  {
  }

  /** Every share covers its floor, and the shares use the whole device whenever its floors fit
      and its values do not all but vanish; they exceed it only by oversubscribed floors. */
  lemma {:induction false} SharesConserve(es: seq<ShareInput>, s: seq<real>, eps: real)
    requires Sane(es) && IsShares(es, s, eps)
    ensures |s| == |es| && forall i :: 0 <= i < |es| ==> s[i] >= Floor(es[i]) >= 0.0
    ensures Sum(s) <= Max(1.0, Sum(Floors(es)))
    ensures Sum(Values(es)) >= F64_EPSILON ==> Sum(s) == Max(1.0, Sum(Floors(es)))
    ensures Sum(Floors(es)) > 1.0 ==> s == Floors(es)
  {
    var x, free :| IsSplit(es, x, free, eps) && s == WithLeftovers(es, x, free);
    FloorsBelowShares(es, x, free);
    forall i | 0 <= i < |es| ensures s[i] >= Floor(es[i]) >= 0.0 {
      LeftoverBounds(es, x, free, i);
    }
    LeftoversSpread(es, x, free);
    if Sum(Floors(es)) > 1.0 {
      assert s == Floors(es);
    }
  }

  /** The leftover step hands out at most the unclaimed time, and all of it unless values all but vanish. */
  lemma {:induction false} LeftoversSpread(es: seq<ShareInput>, x: seq<real>, free: real)
    requires Sane(es) && |x| == |es| && free >= 0.0
    ensures Sum(x) <= Sum(WithLeftovers(es, x, free)) <= Sum(x) + free
    ensures Sum(Values(es)) >= F64_EPSILON ==> Sum(WithLeftovers(es, x, free)) == Sum(x) + free
  {
    var total := Max(Sum(Values(es)), F64_EPSILON);
    SumWithLeftovers(es, x, free, total);
    SumNonNegative(Values(es));
    RatioBounds(Sum(Values(es)), total, free);
    ExtraWhole(free, total);
    hide Extra, Mul;
  }
}
