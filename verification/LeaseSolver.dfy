/** The share solver's loops, proved against `LeaseSplit`. */
module LeaseSolver {
  import opened RealSums
  import opened LeaseSplit

  function Clamp(x: real, lo: real, hi: real): real {
    if x < lo then lo else if x > hi then hi else x
  }

  ghost predicate Distinct(s: seq<nat>) {
    forall a, b :: 0 <= a < b < |s| ==> s[a] != s[b]
  }

  ghost predicate Indexes(s: seq<nat>, n: nat) {
    forall a :: 0 <= a < |s| ==> s[a] < n
  }

  // ----- order: indices by falling value -----

  ghost predicate Falling(es: seq<ShareInput>, order: seq<nat>) {
    && Indexes(order, |es|)
    && forall a, b :: 0 <= a < b < |order| ==> es[order[a]].value >= es[order[b]].value
  }

  /** Insert before the first entry of strictly lower value, so equal values keep their order. */
  function InsertByValue(es: seq<ShareInput>, order: seq<nat>, i: nat): (r: seq<nat>)
    requires Indexes(order, |es|) && i < |es|
  {
    if |order| == 0 || es[order[0]].value < es[i].value then [i] + order
    else [order[0]] + InsertByValue(es, order[1..], i)
  }

  lemma {:induction false} InsertIsFalling(es: seq<ShareInput>, order: seq<nat>, i: nat)
    requires Falling(es, order) && Distinct(order) && i < |es| && i !in order
    ensures Falling(es, InsertByValue(es, order, i)) && Distinct(InsertByValue(es, order, i))
    ensures forall k :: k in InsertByValue(es, order, i) <==> k == i || k in order
  {
    if |order| == 0 || es[order[0]].value < es[i].value {
    } else {
      var rest := InsertByValue(es, order[1..], i);
      assert order == [order[0]] + order[1..];
      InsertIsFalling(es, order[1..], i);
      assert forall a :: 0 <= a < |rest| ==> rest[a] in rest;
      assert forall k :: k in order[1..] ==> k != order[0] && es[order[0]].value >= es[k].value;
      assert forall a :: 0 <= a < |rest| ==> rest[a] != order[0] && es[order[0]].value >= es[rest[a]].value;
      PrependFalling(es, order[0], rest);
    }
  }

  lemma PrependFalling(es: seq<ShareInput>, head: nat, rest: seq<nat>)
    requires Falling(es, rest) && Distinct(rest) && head < |es|
    requires forall a :: 0 <= a < |rest| ==> rest[a] != head && es[head].value >= es[rest[a]].value
    ensures Falling(es, [head] + rest) && Distinct([head] + rest)
  {
  }

  /** The stable sort by falling value of the first `n` indices. */
  function OrderByValue(es: seq<ShareInput>, n: nat): (r: seq<nat>)
    requires n <= |es|
    ensures Falling(es, r) && Distinct(r)
    ensures forall k: nat :: k in r <==> k < n
  {
    if n == 0 then []
    else
      InsertIsFalling(es, OrderByValue(es, n - 1), n - 1);
      InsertByValue(es, OrderByValue(es, n - 1), n - 1)
  }

  // ----- water-fill of one tier -----

  /** Where a tier stands once everyone still wanting has been granted `level` above the floor. */
  ghost predicate TierState(
      es: seq<ShareInput>, eps: real, tier: seq<nat>, wanting: seq<nat>, share: seq<real>, level: real) {
    && |share| == |es| && Indexes(tier, |es|) && Indexes(wanting, |es|) && Distinct(wanting)
    && (forall i :: i in wanting ==> i in tier)
    && (forall i :: i in tier ==> Floor(es[i]) <= share[i] <= es[i].demand && share[i] - Floor(es[i]) <= level)
    && (forall i :: i in wanting ==> share[i] == Floor(es[i]) + level)
    && (forall i :: i in tier && i !in wanting ==> Near(es[i], share[i], eps))
  }

  /** Where one pass stands: the members in `done` have been granted, up to `reached` above the floor. */
  ghost predicate RoundState(
      es: seq<ShareInput>, eps: real, done: set<nat>, kept: seq<nat>,
      share0: seq<real>, share: seq<real>, reached: real)
    requires |share0| == |es|
  {
    && |share| == |es| && Indexes(kept, |es|) && Distinct(kept)
    && (forall i :: i in kept ==> i in done)
    && (forall i :: 0 <= i < |es| && i !in done ==> share[i] == share0[i])
    && (forall i :: i in done ==>
          i < |es| && Floor(es[i]) <= share[i] <= es[i].demand && share[i] - Floor(es[i]) <= reached)
    && (forall i :: i in kept ==> share[i] == Floor(es[i]) + reached)
    && (forall i :: i in done && i !in kept ==> Near(es[i], share[i], eps))
  }

  lemma {:induction false} RoundStep(
      es: seq<ShareInput>, eps: real, done: set<nat>, kept: seq<nat>, i: nat,
      share0: seq<real>, share: seq<real>, level: real, each: real, grant: real)
    requires i < |es| == |share0| && i !in done
    requires RoundState(es, eps, done, kept, share0, share, level + each)
    requires each >= 0.0 && eps >= 0.0 && level >= 0.0
    requires share0[i] == Floor(es[i]) + level <= es[i].demand
    requires grant == Clamp(es[i].demand - share[i], 0.0, each)
    ensures share[i] == share0[i] && 0.0 <= grant <= each
    ensures es[i].demand - (share[i] + grant) > eps ==> grant == each
    ensures RoundState(es, eps, done + {i},
        if es[i].demand - (share[i] + grant) > eps then kept + [i] else kept,
        share0, share[i := share[i] + grant], level + each)
  {
    assert i !in kept;
  }

  /** A finished pass is the tier's state one level up. */
  lemma {:induction false} RoundDone(
      es: seq<ShareInput>, eps: real, tier: seq<nat>, wanting: seq<nat>, done: set<nat>, kept: seq<nat>,
      share0: seq<real>, share: seq<real>, level: real, each: real)
    requires TierState(es, eps, tier, wanting, share0, level) && each >= 0.0
    requires RoundState(es, eps, done, kept, share0, share, level + each)
    requires forall i :: i in done <==> i in wanting
    ensures TierState(es, eps, tier, kept, share, level + each)
    ensures forall i :: 0 <= i < |es| && i !in tier ==> share[i] == share0[i]
  {
  }

  lemma StillAtLevel(
      es: seq<ShareInput>, eps: real, tier: seq<nat>, wanting: seq<nat>, share: seq<real>, level: real, k: nat)
    requires TierState(es, eps, tier, wanting, share, level) && k < |wanting|
    ensures share[wanting[k]] == Floor(es[wanting[k]]) + level <= es[wanting[k]].demand
  {
    assert wanting[k] in wanting && wanting[k] in tier;
  }

  /** The `retain` closure: grant one member an even part, keep it while it is short of demand. */
  method GrantOne(
      es: seq<ShareInput>, eps: real, i: nat, kept0: seq<nat>, share0: seq<real>, free0: real, each: real,
      ghost done: set<nat>, ghost start: seq<real>, ghost level: real)
    returns (kept: seq<nat>, share: seq<real>, free: real)
    requires i < |es| == |start| && i !in done && each >= 0.0 && eps >= 0.0 && level >= 0.0
    requires RoundState(es, eps, done, kept0, start, share0, level + each)
    requires start[i] == Floor(es[i]) + level <= es[i].demand
    ensures |share| == |es| && RoundState(es, eps, done + {i}, kept, start, share, level + each)
    ensures Sum(share) + free == Sum(share0) + free0 && free0 - each <= free <= free0
    ensures kept == kept0 || (|kept| == |kept0| + 1 && free == free0 - each)
  {
    hide Sum, Floor;
    var grant := Clamp(es[i].demand - share0[i], 0.0, each);
    RoundStep(es, eps, done, kept0, i, start, share0, level, each, grant);
    SumUpdate(share0, i, share0[i] + grant);
    share := share0[i := share0[i] + grant];
    free := free0 - grant;
    kept := if es[i].demand - share[i] > eps then kept0 + [i] else kept0;
  }

  lemma RoundStart(es: seq<ShareInput>, eps: real, share: seq<real>, reached: real)
    requires |share| == |es|
    ensures RoundState(es, eps, {}, [], share, share, reached)
  {
  }

  /** One pass of `retain` over those still wanting. */
  method RetainRound(
      es: seq<ShareInput>, eps: real, ghost tier: seq<nat>, wanting: seq<nat>,
      share0: seq<real>, free0: real, each: real, ghost level: real)
    returns (kept: seq<nat>, share: seq<real>, free: real)
    requires eps >= 0.0 && each >= 0.0 && level >= 0.0
    requires TierState(es, eps, tier, wanting, share0, level)
    requires free0 == Times(|wanting|, each)
    ensures TierState(es, eps, tier, kept, share, level + each)
    ensures forall i :: 0 <= i < |es| && i !in tier ==> share[i] == share0[i]
    ensures Sum(share) + free == Sum(share0) + free0 && 0.0 <= free <= free0
    ensures |kept| < |wanting| || (|kept| == |wanting| && free == 0.0)
  {
    kept, share, free := [], share0, free0;
    ghost var done: set<nat> := {};
    RoundStart(es, eps, share, level + each);
    hide RoundState;
    for k := 0 to |wanting|
      invariant |share| == |es| && RoundState(es, eps, done, kept, share0, share, level + each)
      invariant forall a :: 0 <= a < |wanting| ==> (wanting[a] in done <==> a < k)
      invariant forall i :: i in done ==> i in wanting
      invariant Sum(share) + free == Sum(share0) + free0 && free <= free0
      invariant |kept| <= k && free >= Times(|wanting| - k, each)
      invariant |kept| == k ==> free == Times(|wanting| - k, each)
    {
      StillAtLevel(es, eps, tier, wanting, share0, level, k);
      kept, share, free := GrantOne(es, eps, wanting[k], kept, share, free, each, done, share0, level);
      done := done + {wanting[k]};
    }
    RoundDone(es, eps, tier, wanting, done, kept, share0, share, level, each);
  }

  lemma EvenParts(free: real, n: nat)
    requires free >= 0.0 && n > 0
    ensures free / n as real >= 0.0 && Times(n, free / n as real) == free
  {
    TimesIsProduct(n, free / n as real);
  }

  /** Split `free0` evenly across a tier until it runs out or every member is met. */
  method FillTier(es: seq<ShareInput>, eps: real, tier: seq<nat>, share0: seq<real>, free0: real)
    returns (share: seq<real>, free: real)
    requires eps >= 0.0 && free0 >= 0.0 && |share0| == |es|
    requires Indexes(tier, |es|) && Distinct(tier)
    requires forall i :: i in tier ==> share0[i] == Floor(es[i])
    ensures |share| == |es|
    ensures forall i :: 0 <= i < |es| && i !in tier ==> share[i] == share0[i]
    ensures forall i :: i in tier ==> Floor(es[i]) <= share[i] <= es[i].demand
    ensures Sum(share) + free == Sum(share0) + free0 && 0.0 <= free <= free0
    ensures free > eps ==> forall i :: i in tier ==> Near(es[i], share[i], eps)
    ensures forall i, j :: i in tier && j in tier && !Near(es[i], share[i], eps) ==>
      share[j] - Floor(es[j]) <= share[i] - Floor(es[i])
    ensures free0 <= eps ==> share == share0
  {
    share, free := share0, free0;
    var wanting := tier;
    ghost var level := 0.0;
    while free > eps && |wanting| > 0
      invariant TierState(es, eps, tier, wanting, share, level) && level >= 0.0
      invariant forall i :: 0 <= i < |es| && i !in tier ==> share[i] == share0[i]
      invariant Sum(share) + free == Sum(share0) + free0 && 0.0 <= free <= free0
      invariant free0 <= eps ==> share == share0
      decreases |wanting|, if free > eps then 1 else 0
    {
      var each := free / |wanting| as real;
      EvenParts(free, |wanting|);
      wanting, share, free := RetainRound(es, eps, tier, wanting, share, free, each, level);
      level := level + each;
    }
  }

  // ----- all tiers of one device -----

  /** The end of the run of equal values that starts at `p`. */
  method TierEnd(es: seq<ShareInput>, order: seq<nat>, p: nat) returns (q: nat)
    requires Falling(es, order) && p < |order|
    ensures p < q <= |order|
    ensures forall a :: p <= a < q ==> es[order[a]].value == es[order[p]].value
    ensures forall a :: q <= a < |order| ==> es[order[a]].value < es[order[p]].value
  {
    q := p + 1;
    while q < |order| && es[order[q - 1]].value == es[order[q]].value
      invariant p < q <= |order|
      invariant forall a :: p <= a < q ==> es[order[a]].value == es[order[p]].value
    {
      q := q + 1;
    }
  }

  /** What holds between tiers: `done` is the processed prefix of the order, the rest sit at their floors. */
  ghost predicate TiersState(es: seq<ShareInput>, eps: real, done: seq<nat>, share: seq<real>, free: real) {
    && |share| == |es| && Indexes(done, |es|)
    && (forall i :: 0 <= i < |es| ==> Floor(es[i]) <= share[i] <= es[i].demand)
    && (forall i :: 0 <= i < |es| && i !in done ==> share[i] == Floor(es[i]))
    && (free > eps ==> forall i :: i in done ==> Near(es[i], share[i], eps))
    && (forall i, j :: i in done && 0 <= j < |es| && es[i].value > es[j].value && share[j] > Floor(es[j]) ==>
          Near(es[i], share[i], eps))
    && (forall i, j :: i in done && j in done && es[i].value == es[j].value && !Near(es[i], share[i], eps) ==>
          share[j] - Floor(es[j]) <= share[i] - Floor(es[i]))
  }

  /** Filling the next tier keeps the between-tiers state. */
  lemma {:induction false} TierFilled(
      es: seq<ShareInput>, eps: real, done: seq<nat>, tier: seq<nat>,
      share0: seq<real>, free0: real, share: seq<real>, free: real)
    requires TiersState(es, eps, done, share0, free0)
    requires Indexes(tier, |es|) && |share| == |es| && free <= free0
    requires forall i, j :: i in done && j in tier ==> i != j && es[i].value > es[j].value
    requires forall i, j :: i in tier && j in tier ==> es[i].value == es[j].value
    requires forall i :: 0 <= i < |es| && i !in tier ==> share[i] == share0[i]
    requires forall i :: i in tier ==> Floor(es[i]) <= share[i] <= es[i].demand
    requires free > eps ==> forall i :: i in tier ==> Near(es[i], share[i], eps)
    requires forall i, j :: i in tier && j in tier && !Near(es[i], share[i], eps) ==>
      share[j] - Floor(es[j]) <= share[i] - Floor(es[i])
    requires free0 <= eps ==> share == share0
    ensures TiersState(es, eps, done + tier, share, free)
  {
  }

  /** Fill the next tier. */
  method NextTier(
      es: seq<ShareInput>, eps: real, ghost done: seq<nat>, tier: seq<nat>, share0: seq<real>, free0: real)
    returns (share: seq<real>, free: real)
    requires eps >= 0.0 && Indexes(tier, |es|) && Distinct(tier)
    requires TiersState(es, eps, done, share0, free0) && Conserves(es, share0, free0)
    requires forall i, j :: i in done && j in tier ==> i != j && es[i].value > es[j].value
    requires forall i, j :: i in tier && j in tier ==> es[i].value == es[j].value
    ensures TiersState(es, eps, done + tier, share, free) && |share| == |es| && Conserves(es, share, free)
  {
    forall i | i in tier ensures share0[i] == Floor(es[i]) {
      assert i !in done;
    }
    share, free := FillTier(es, eps, tier, share0, free0);
    TierFilled(es, eps, done, tier, share0, free0, share, free);
  }

  lemma {:induction false} FloorsOnly(es: seq<ShareInput>, eps: real)
    requires Sane(es)
    ensures TiersState(es, eps, [], Floors(es), Max(1.0 - Sum(Floors(es)), 0.0))
    ensures Conserves(es, Floors(es), Max(1.0 - Sum(Floors(es)), 0.0))
  {
  }

  /** Once every index is processed, the between-tiers state is a split. */
  lemma {:induction false} TiersDone(es: seq<ShareInput>, eps: real, done: seq<nat>, share: seq<real>, free: real)
    requires TiersState(es, eps, done, share, free) && Conserves(es, share, free)
    requires forall i: nat :: i in done <==> i < |es|
    ensures IsSplit(es, share, free, eps)
  {
  }

  /** A tier is everything of its value that the processed prefix leaves, and below that prefix. */
  lemma {:induction false} TierApart(es: seq<ShareInput>, order: seq<nat>, p: nat, q: nat)
    requires Falling(es, order) && Distinct(order) && p < q <= |order|
    requires forall a :: p <= a < q ==> es[order[a]].value == es[order[p]].value
    requires p == 0 || es[order[p - 1]].value > es[order[p]].value
    ensures Indexes(order[p..q], |es|) && Distinct(order[p..q])
    ensures forall i, j :: i in order[..p] && j in order[p..q] ==> i != j && es[i].value > es[j].value
    ensures forall i, j :: i in order[p..q] && j in order[p..q] ==> es[i].value == es[j].value
    ensures order[..q] == order[..p] + order[p..q]
  {
    forall i, j | i in order[..p] && j in order[p..q] ensures i != j && es[i].value > es[j].value {
      var a :| 0 <= a < p && order[a] == i;
      assert es[i].value >= es[order[p - 1]].value;
    }
  }

  /** The whole solver, one loop over the value tiers between the floors and the leftovers. */
  method SolveShares(es: seq<ShareInput>, eps: real) returns (s: seq<real>)
    requires eps >= 0.0 && Sane(es)
    ensures IsShares(es, s, eps)
  {
    hide TiersState, Conserves, IsSplit, Sum, Sane, InsertByValue, OrderByValue, Floor;
    var share := Floors(es);
    var free := Max(1.0 - Sum(share), 0.0);
    FloorsOnly(es, eps);
    var order := OrderByValue(es, |es|);
    var p := 0;
    while p < |order|
      invariant 0 <= p <= |order|
      invariant TiersState(es, eps, order[..p], share, free)
      invariant |share| == |es| && Conserves(es, share, free)
      invariant 0 < p < |order| ==> es[order[p - 1]].value > es[order[p]].value
    {
      var q := TierEnd(es, order, p);
      TierApart(es, order, p, q);
      share, free := NextTier(es, eps, order[..p], order[p..q], share, free);
      p := q;
    }
    assert order[..|order|] == order;
    TiersDone(es, eps, order, share, free);
    s := WithLeftovers(es, share, free);
  }
}
