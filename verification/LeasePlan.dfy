/** Shares for every (device, name) registrant: one solve per device, then a second pass that caps
    each multi-device label at its bottleneck. */
module LeasePlan {
  import opened RealSums
  import opened LeaseSplit
  import opened LeaseSolver

  datatype Registrant = Registrant(device: int, name: string, input: ShareInput)

  /** A bound on what a registrant may ask for; `Unbounded` leaves its demand as it is. */
  datatype Cap = Unbounded | AtMost(limit: real)

  ghost predicate SaneInputs(inputs: seq<Registrant>) {
    forall i :: 0 <= i < |inputs| ==>
      0.0 <= inputs[i].input.demand <= 1.0 && 0.0 <= inputs[i].input.value && 0.0 <= inputs[i].input.minShare <= 1.0
  }

  ghost predicate SaneCaps(caps: seq<Cap>) {
    forall i :: 0 <= i < |caps| && caps[i].AtMost? ==> caps[i].limit >= 0.0
  }

  function Capped(e: ShareInput, cap: Cap): ShareInput {
    match cap
    case Unbounded => e
    case AtMost(limit) => e.(demand := Min(e.demand, limit))
  }

  /** The indices below `n` of one device, in input order. */
  function IndicesOf(inputs: seq<Registrant>, device: int, n: nat): (r: seq<nat>)
    requires n <= |inputs|
    ensures Indexes(r, n)
  {
    if n == 0 then []
    else IndicesOf(inputs, device, n - 1) + (if inputs[n - 1].device == device then [n - 1] else [])
  }

  lemma {:induction false} IndicesOfDevice(inputs: seq<Registrant>, device: int, n: nat)
    requires n <= |inputs|
    ensures Distinct(IndicesOf(inputs, device, n)) && |IndicesOf(inputs, device, n)| <= n
    ensures forall k :: 0 <= k < n ==> (k in IndicesOf(inputs, device, n) <==> inputs[k].device == device)
  {
    if n > 0 {
      IndicesOfDevice(inputs, device, n - 1);
    }
  }

  /** Where input `i` stands among its device's entries. */
  lemma IndexOnDevice(inputs: seq<Registrant>, i: nat) returns (b: nat)
    requires i < |inputs|
    ensures var idx := IndicesOf(inputs, inputs[i].device, |inputs|); b < |idx| <= |inputs| && idx[b] == i
  {
    var idx := IndicesOf(inputs, inputs[i].device, |inputs|);
    IndicesOfDevice(inputs, inputs[i].device, |inputs|);
    assert i in idx;
    b :| 0 <= b < |idx| && idx[b] == i;
  }

  function Entries(inputs: seq<Registrant>, caps: seq<Cap>, idx: seq<nat>): seq<ShareInput>
    requires |caps| == |inputs| && Indexes(idx, |inputs|)
  {
    seq(|idx|, k requires 0 <= k < |idx| => Capped(inputs[idx[k]].input, caps[idx[k]]))
  }

  function Pick(shares: seq<real>, idx: seq<nat>): seq<real>
    requires Indexes(idx, |shares|)
  {
    seq(|idx|, k requires 0 <= k < |idx| => shares[idx[k]])
  }

  /** One device's shares are the solver's answer for that device's capped entries. */
  ghost predicate DeviceSolved(inputs: seq<Registrant>, caps: seq<Cap>, shares: seq<real>, eps: real, device: int)
    requires |caps| == |inputs| == |shares|
  {
    var idx := IndicesOf(inputs, device, |inputs|);
    IsShares(Entries(inputs, caps, idx), Pick(shares, idx), eps)
  }

  ghost predicate Solved(inputs: seq<Registrant>, caps: seq<Cap>, shares: seq<real>, eps: real) {
    && |caps| == |inputs| == |shares|
    && forall i :: 0 <= i < |inputs| ==> DeviceSolved(inputs, caps, shares, eps, inputs[i].device)
  }

  lemma EntriesSane(inputs: seq<Registrant>, caps: seq<Cap>, idx: seq<nat>)
    requires SaneInputs(inputs) && SaneCaps(caps) && |caps| == |inputs| && Indexes(idx, |inputs|)
    ensures Sane(Entries(inputs, caps, idx))
  {
  }

  /** The key order of the device map: ascending, each device once. */
  function InsertDevice(devices: seq<int>, d: int): (r: seq<int>)
    ensures forall k :: k in r <==> k == d || k in devices
  {
    if |devices| == 0 || d < devices[0] then [d] + devices
    else if d == devices[0] then devices
    else
      assert devices == [devices[0]] + devices[1..];
      [devices[0]] + InsertDevice(devices[1..], d)
  }

  /** The first `n` indices, grouped by device. */
  ghost predicate Grouped(inputs: seq<Registrant>, devices: seq<int>, byDevice: map<int, seq<nat>>, n: nat)
    requires n <= |inputs|
  {
    && (forall d :: d in devices <==> d in byDevice)
    && forall d :: if d in byDevice then byDevice[d] == IndicesOf(inputs, d, n) else IndicesOf(inputs, d, n) == []
  }

  lemma IndicesNext(inputs: seq<Registrant>, d: int, n: nat)
    requires n < |inputs|
    ensures IndicesOf(inputs, d, n + 1) == IndicesOf(inputs, d, n) + (if inputs[n].device == d then [n] else [])
  {
  }

  lemma GroupNext(inputs: seq<Registrant>, devices: seq<int>, byDevice: map<int, seq<nat>>, n: nat)
    requires n < |inputs| && Grouped(inputs, devices, byDevice, n)
    ensures var d := inputs[n].device;
      Grouped(inputs, InsertDevice(devices, d),
        byDevice[d := (if d in byDevice then byDevice[d] else []) + [n]], n + 1)
  {
    hide IndicesOf;
    var device := inputs[n].device;
    var next := byDevice[device := (if device in byDevice then byDevice[device] else []) + [n]];
    forall d
      ensures if d in next then next[d] == IndicesOf(inputs, d, n + 1) else IndicesOf(inputs, d, n + 1) == []
    {
      IndicesNext(inputs, d, n);
    }
  }

  lemma NothingGrouped(inputs: seq<Registrant>)
    ensures Grouped(inputs, [], map[], 0)
  {
  }

  /** Group the input indices by device. */
  method GroupByDevice(inputs: seq<Registrant>) returns (devices: seq<int>, byDevice: map<int, seq<nat>>)
    ensures Grouped(inputs, devices, byDevice, |inputs|)
  {
    devices, byDevice := [], map[];
    NothingGrouped(inputs);
    hide *;
    for k := 0 to |inputs|
      invariant Grouped(inputs, devices, byDevice, k)
    {
      GroupNext(inputs, devices, byDevice, k);
      var d := inputs[k].device;
      devices := InsertDevice(devices, d);
      byDevice := byDevice[d := (if d in byDevice then byDevice[d] else []) + [k]];
    }
  }

  /** Write one device's answers back at their input positions. */
  method Scatter(shares0: seq<real>, idx: seq<nat>, answers: seq<real>) returns (shares: seq<real>)
    requires Indexes(idx, |shares0|) && Distinct(idx) && |answers| == |idx|
    ensures |shares| == |shares0| && Pick(shares, idx) == answers
    ensures forall i :: 0 <= i < |shares| && i !in idx ==> shares[i] == shares0[i]
  {
    shares := shares0;
    for k := 0 to |idx|
      invariant |shares| == |shares0|
      invariant forall a :: 0 <= a < k ==> shares[idx[a]] == answers[a]
      invariant forall i :: 0 <= i < |shares| && i !in idx ==> shares[i] == shares0[i]
    {
      shares := shares[idx[k] := answers[k]];
    }
  }

  lemma KeepsSolved(
      inputs: seq<Registrant>, caps: seq<Cap>, shares0: seq<real>, shares: seq<real>, eps: real, d: int, other: int)
    requires |caps| == |inputs| == |shares0| == |shares| && d != other
    requires forall i :: 0 <= i < |inputs| && inputs[i].device != d ==> shares[i] == shares0[i]
    requires DeviceSolved(inputs, caps, shares0, eps, other)
    ensures DeviceSolved(inputs, caps, shares, eps, other)
  {
    var idx := IndicesOf(inputs, other, |inputs|);
    IndicesOfDevice(inputs, other, |inputs|);
    forall k | 0 <= k < |idx| ensures shares[idx[k]] == shares0[idx[k]] {
      assert idx[k] in idx;
    }
    assert Pick(shares, idx) == Pick(shares0, idx);
  }

  /** Solve one device and leave the others' shares alone. */
  method SolveOne(
      inputs: seq<Registrant>, caps: seq<Cap>, eps: real, d: int, idx: seq<nat>, shares0: seq<real>,
      ghost solved: set<int>)
    returns (shares: seq<real>)
    requires eps >= 0.0 && SaneInputs(inputs) && SaneCaps(caps) && |caps| == |inputs| == |shares0|
    requires idx == IndicesOf(inputs, d, |inputs|)
    requires forall other :: other in solved ==> DeviceSolved(inputs, caps, shares0, eps, other)
    ensures |shares| == |inputs|
    ensures forall other :: other == d || other in solved ==> DeviceSolved(inputs, caps, shares, eps, other)
  {
    hide IsShares;
    EntriesSane(inputs, caps, idx);
    IndicesOfDevice(inputs, d, |inputs|);
    var answers := SolveShares(Entries(inputs, caps, idx), eps);
    SharesConserve(Entries(inputs, caps, idx), answers, eps);
    shares := Scatter(shares0, idx, answers);
    assert DeviceSolved(inputs, caps, shares, eps, d);
    forall other | other in solved ensures DeviceSolved(inputs, caps, shares, eps, other) {
      if other != d {
        KeepsSolved(inputs, caps, shares0, shares, eps, d, other);
      }
    }
  }

  /** Solve every device under the given demand caps. */
  method SolveDevices(
      inputs: seq<Registrant>, devices: seq<int>, byDevice: map<int, seq<nat>>, caps: seq<Cap>, eps: real)
    returns (shares: seq<real>)
    requires eps >= 0.0 && SaneInputs(inputs) && SaneCaps(caps) && |caps| == |inputs|
    requires Grouped(inputs, devices, byDevice, |inputs|)
    ensures Solved(inputs, caps, shares, eps)
  {
    hide *;
    shares := seq(|inputs|, i => 0.0);
    InputsGrouped(inputs, devices, byDevice);
    ghost var solved: set<int> := {};
    for k := 0 to |devices|
      invariant |shares| == |inputs|
      invariant forall d :: d in solved ==> DeviceSolved(inputs, caps, shares, eps, d)
      invariant forall a :: 0 <= a < k ==> devices[a] in solved
    {
      GroupAt(inputs, devices, byDevice, k);
      shares := SolveOne(inputs, caps, eps, devices[k], byDevice[devices[k]], shares, solved);
      solved := solved + {devices[k]};
    }
    AllSolved(inputs, caps, shares, eps, devices, solved);
  }

  lemma GroupAt(inputs: seq<Registrant>, devices: seq<int>, byDevice: map<int, seq<nat>>, k: nat)
    requires Grouped(inputs, devices, byDevice, |inputs|) && k < |devices|
    ensures devices[k] in byDevice && byDevice[devices[k]] == IndicesOf(inputs, devices[k], |inputs|)
  {
    var d := devices[k];
    assert d in devices;
    assert d in byDevice;
  }

  lemma InputsGrouped(inputs: seq<Registrant>, devices: seq<int>, byDevice: map<int, seq<nat>>)
    requires Grouped(inputs, devices, byDevice, |inputs|)
    ensures forall i :: 0 <= i < |inputs| ==> inputs[i].device in devices
  {
    hide IndicesOf;
    forall i | 0 <= i < |inputs| ensures inputs[i].device in byDevice {
      IndicesOfDevice(inputs, inputs[i].device, |inputs|);
      assert i in IndicesOf(inputs, inputs[i].device, |inputs|);
    }
  }

  lemma AllSolved(
      inputs: seq<Registrant>, caps: seq<Cap>, shares: seq<real>, eps: real, devices: seq<int>, solved: set<int>)
    requires |caps| == |inputs| == |shares|
    requires forall i :: 0 <= i < |inputs| ==> inputs[i].device in devices
    requires forall d :: d in solved ==> DeviceSolved(inputs, caps, shares, eps, d)
    requires forall a :: 0 <= a < |devices| ==> devices[a] in solved
    ensures Solved(inputs, caps, shares, eps)
  {
  }

  /** Every registrant of the label has at least `m`. */
  ghost predicate AtLeast(inputs: seq<Registrant>, shares: seq<real>, name: string, m: real)
    requires |shares| == |inputs|
  {
    forall j :: 0 <= j < |inputs| && inputs[j].name == name ==> shares[j] >= m
  }

  /** `m` is the label's smallest share. */
  ghost predicate IsMinimum(inputs: seq<Registrant>, shares: seq<real>, name: string, m: real)
    requires |shares| == |inputs|
  {
    && AtLeast(inputs, shares, name, m)
    && exists j :: 0 <= j < |inputs| && inputs[j].name == name && shares[j] == m
  }

  ghost predicate Lone(inputs: seq<Registrant>, i: nat)
    requires i < |inputs|
  {
    forall j :: 0 <= j < |inputs| && inputs[j].name == inputs[i].name ==> j == i
  }

  /** The second pass caps a label that appears more than once at its smallest first-pass share. */
  ghost predicate CapsBottleneck(inputs: seq<Registrant>, first: seq<real>, caps: seq<Cap>)
    requires |first| == |inputs| == |caps|
  {
    forall i :: 0 <= i < |inputs| ==>
      if Lone(inputs, i) then caps[i].Unbounded?
      else caps[i].AtMost? && IsMinimum(inputs, first, inputs[i].name, caps[i].limit)
  }

  function Uncapped(n: nat): seq<Cap> {
    seq(n, i => Unbounded)
  }

  /** No regret: whatever every registrant of a label had after the first pass, it still has after the second. */
  ghost predicate NoRegret(inputs: seq<Registrant>, first: seq<real>, second: seq<real>, slack: real)
    requires |first| == |inputs| == |second|
  {
    forall name, m :: AtLeast(inputs, first, name, m) ==> AtLeast(inputs, second, name, m - slack)
  }

  lemma {:induction false} SecondPassKeepsShare(
      inputs: seq<Registrant>, first: seq<real>, second: seq<real>, caps: seq<Cap>, eps: real, i: nat, m: real)
    requires eps >= 0.0 && SaneInputs(inputs) && i < |inputs|
    requires Solved(inputs, Uncapped(|inputs|), first, eps) && Solved(inputs, caps, second, eps)
    requires SaneCaps(caps) && CapsBottleneck(inputs, first, caps)
    requires AtLeast(inputs, first, inputs[i].name, m)
    ensures second[i] >= m - ShareSlack(|inputs|, eps)
  {
    hide IsShares, IndicesOf, SaneInputs, SaneCaps, Sane, CapsBottleneck, AtLeast, Times;
    BottleneckCap(inputs, first, caps, i, m);
    var idx := IndicesOf(inputs, inputs[i].device, |inputs|);
    var b := IndexOnDevice(inputs, i);
    var es, lower := Entries(inputs, Uncapped(|inputs|), idx), Entries(inputs, caps, idx);
    EntriesSane(inputs, Uncapped(|inputs|), idx);
    EntriesSane(inputs, caps, idx);
    assert DeviceSolved(inputs, caps, second, eps, inputs[i].device);
    assert DeviceSolved(inputs, Uncapped(|inputs|), first, eps, inputs[i].device);
    SharesMonotone(es, Pick(first, idx), lower, Pick(second, idx), eps, b);
    TimesMonotone(|idx|, |inputs|, eps);
    CapKeepsMinimum(first[i], second[i], inputs[i].input, caps[i], m, ShareSlack(|idx|, eps));
  }

  /** A cap lies between what the whole label had and what this registrant had. */
  lemma BottleneckCap(inputs: seq<Registrant>, first: seq<real>, caps: seq<Cap>, i: nat, m: real)
    requires |first| == |inputs| == |caps| && i < |inputs|
    requires CapsBottleneck(inputs, first, caps) && AtLeast(inputs, first, inputs[i].name, m)
    ensures m <= first[i] && (caps[i].AtMost? ==> m <= caps[i].limit <= first[i])
  {
  }

  /** A demand capped no lower than `m`, and no higher than the earlier share, still leaves `m`. */
  lemma CapKeepsMinimum(earlier: real, later: real, e: ShareInput, cap: Cap, m: real, slack: real)
    requires earlier >= m && (cap.AtMost? ==> m <= cap.limit <= earlier)
    requires later >= Min(earlier, Capped(e, cap).demand) - slack
    requires Capped(e, cap).demand == e.demand ==> later >= earlier - slack
    ensures later >= m - slack
  {
  }

  /** The second pass hurts nobody: every label's smallest share over its devices is kept, and so is a
      single-device label's share, up to `ShareSlack` (zero at `eps == 0`). */
  lemma {:induction false} SecondPassHasNoRegret(
      inputs: seq<Registrant>, first: seq<real>, second: seq<real>, caps: seq<Cap>, eps: real)
    requires eps >= 0.0 && SaneInputs(inputs)
    requires Solved(inputs, Uncapped(|inputs|), first, eps) && Solved(inputs, caps, second, eps)
    requires SaneCaps(caps) && CapsBottleneck(inputs, first, caps)
    ensures NoRegret(inputs, first, second, ShareSlack(|inputs|, eps))
  {
    forall name, m, i | AtLeast(inputs, first, name, m) && 0 <= i < |inputs| && inputs[i].name == name
      ensures second[i] >= m - ShareSlack(|inputs|, eps)
    {
      SecondPassKeepsShare(inputs, first, second, caps, eps, i, m);
    }
  }

  lemma {:induction false} ShareSlackVanishes(n: nat)
    ensures ShareSlack(n, 0.0) == 0.0
  {
    TimesIsProduct(n, 0.0);
  }

  lemma FirstPassNonNegative(inputs: seq<Registrant>, first: seq<real>, eps: real)
    requires SaneInputs(inputs) && Solved(inputs, Uncapped(|inputs|), first, eps)
    ensures forall i :: 0 <= i < |inputs| ==> first[i] >= 0.0
  {
    forall i | 0 <= i < |inputs| ensures first[i] >= 0.0 {
      var idx := IndicesOf(inputs, inputs[i].device, |inputs|);
      var b := IndexOnDevice(inputs, i);
      EntriesSane(inputs, Uncapped(|inputs|), idx);
      assert DeviceSolved(inputs, Uncapped(|inputs|), first, eps, inputs[i].device);
      SharesConserve(Entries(inputs, Uncapped(|inputs|), idx), Pick(first, idx), eps);
      assert Pick(first, idx)[b] == first[i];
    }
  }

  /** How many registrants a label has among the first ones, and the smallest of their shares. */
  datatype LabelUse = LabelUse(devices: nat, minShare: real)

  function UseOf(inputs: seq<Registrant>, first: seq<real>, name: string, n: nat): LabelUse
    requires n <= |inputs| == |first|
  {
    if n == 0 then LabelUse(0, 0.0)
    else
      var before := UseOf(inputs, first, name, n - 1);
      if inputs[n - 1].name != name then before
      else if before.devices == 0 then LabelUse(1, first[n - 1])
      else LabelUse(before.devices + 1, Min(before.minShare, first[n - 1]))
  }

  lemma {:induction false} UseIsCount(inputs: seq<Registrant>, first: seq<real>, name: string, n: nat, i: nat)
    requires n <= |inputs| == |first| && i < n && inputs[i].name == name
    ensures UseOf(inputs, first, name, n).devices >= 1
    ensures UseOf(inputs, first, name, n).devices == 1 <==>
      forall j :: 0 <= j < n && inputs[j].name == name ==> j == i
  {
    if i < n - 1 {
      UseIsCount(inputs, first, name, n - 1, i);
    } else {
      if j :| 0 <= j < n - 1 && inputs[j].name == name {
        UseIsCount(inputs, first, name, n - 1, j);
      } else {
        UseIsEmpty(inputs, first, name, n - 1);
      }
    }
  }

  lemma {:induction false} UseIsEmpty(inputs: seq<Registrant>, first: seq<real>, name: string, n: nat)
    requires n <= |inputs| == |first|
    requires forall j :: 0 <= j < n ==> inputs[j].name != name
    ensures UseOf(inputs, first, name, n).devices == 0
  {
    if n > 0 {
      UseIsEmpty(inputs, first, name, n - 1);
    }
  }

  lemma {:induction false} UseIsMinimum(inputs: seq<Registrant>, first: seq<real>, name: string, n: nat)
    requires n <= |inputs| == |first| && UseOf(inputs, first, name, n).devices > 0
    ensures forall j :: 0 <= j < n && inputs[j].name == name ==> first[j] >= UseOf(inputs, first, name, n).minShare
    ensures exists j :: 0 <= j < n && inputs[j].name == name && first[j] == UseOf(inputs, first, name, n).minShare
  {
    if UseOf(inputs, first, name, n - 1).devices > 0 {
      UseIsMinimum(inputs, first, name, n - 1);
    } else {
      forall j | 0 <= j < n - 1 ensures inputs[j].name != name {
        if inputs[j].name == name {
          UseIsCount(inputs, first, name, n - 1, j);
        }
      }
    }
  }

  /** The demand caps of the second pass. */
  method BottleneckCaps(inputs: seq<Registrant>, first: seq<real>) returns (caps: seq<Cap>)
    requires |first| == |inputs| && forall i :: 0 <= i < |first| ==> first[i] >= 0.0
    ensures |caps| == |inputs| && SaneCaps(caps) && CapsBottleneck(inputs, first, caps)
  {
    var cap: map<string, LabelUse> := map[];
    for i := 0 to |inputs|
      invariant forall l :: l in cap <==> UseOf(inputs, first, l, i).devices > 0
      invariant forall l :: l in cap ==> cap[l] == UseOf(inputs, first, l, i)
    {
      var name := inputs[i].name;
      cap := cap[name :=
        if name in cap then LabelUse(cap[name].devices + 1, Min(cap[name].minShare, first[i]))
        else LabelUse(1, first[i])];
    }
    forall i | 0 <= i < |inputs| ensures inputs[i].name in cap {
      UseIsCount(inputs, first, inputs[i].name, |inputs|, i);
    }
    caps := seq(|inputs|, i requires 0 <= i < |inputs| =>
      if cap[inputs[i].name].devices == 1 then Unbounded else AtMost(cap[inputs[i].name].minShare));
    forall i | 0 <= i < |inputs|
      ensures if Lone(inputs, i) then caps[i].Unbounded?
              else caps[i].AtMost? && IsMinimum(inputs, first, inputs[i].name, caps[i].limit)
    {
      UseIsCount(inputs, first, inputs[i].name, |inputs|, i);
      UseIsMinimum(inputs, first, inputs[i].name, |inputs|);
    }
  }

  /** `shares` is the second of two solved passes, under the bottleneck caps of `first`, and hurts nobody. */
  ghost predicate IsPlanBy(
      inputs: seq<Registrant>, first: seq<real>, caps: seq<Cap>, shares: seq<real>, eps: real) {
    && Solved(inputs, Uncapped(|inputs|), first, eps)
    && |caps| == |inputs| && SaneCaps(caps) && CapsBottleneck(inputs, first, caps)
    && Solved(inputs, caps, shares, eps)
    && NoRegret(inputs, first, shares, ShareSlack(|inputs|, eps))
  }

  ghost predicate IsPlan(inputs: seq<Registrant>, shares: seq<real>, eps: real) {
    exists first, caps :: IsPlanBy(inputs, first, caps, shares, eps)
  }

  /** The two-pass plan. */
  method PlanShares(inputs: seq<Registrant>, eps: real) returns (shares: seq<real>)
    requires eps >= 0.0 && SaneInputs(inputs)
    ensures IsPlan(inputs, shares, eps) && |shares| == |inputs|
  {
    hide Solved, DeviceSolved, Grouped, CapsBottleneck, SaneInputs, NoRegret, ShareSlack;
    var devices, byDevice := GroupByDevice(inputs);
    var firstPass := SolveDevices(inputs, devices, byDevice, Uncapped(|inputs|), eps);
    SolvedLength(inputs, Uncapped(|inputs|), firstPass, eps);
    FirstPassNonNegative(inputs, firstPass, eps);
    var demandCaps := BottleneckCaps(inputs, firstPass);
    shares := SolveDevices(inputs, devices, byDevice, demandCaps, eps);
    SecondPassHasNoRegret(inputs, firstPass, shares, demandCaps, eps);
    SolvedLength(inputs, demandCaps, shares, eps);
    assert IsPlanBy(inputs, firstPass, demandCaps, shares, eps);
  }

  lemma SolvedLength(inputs: seq<Registrant>, caps: seq<Cap>, shares: seq<real>, eps: real)
    requires Solved(inputs, caps, shares, eps)
    ensures |shares| == |inputs| == |caps|
  {
  }
}
