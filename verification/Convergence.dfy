/** Where repeated heartbeats lead. A round is one beat with any list of goals, followed by the end of the loads in
    flight. */
module Convergence {
  import opened Wrappers
  import opened Registry
  import opened CacheTier
  import opened Reconcile
  import opened Passes

  // ----- loads running to their end -----

  /** The load succeeds and its task runs to its end. */
  ghost function FinishLoad(s: Reg, id: nat, now: nat): (r: Reg)
    requires id in s.tasks
    ensures r.tasks == s.tasks - {id}
  {
    var s1 := if s.tasks[id].phase.InLoad? then CompleteLoad(s, id, Success, now) else s;
    if id in s1.tasks then FinishDoomed(s1, id) else s1
  }

  lemma {:induction false} FinishOutcome(s: Reg, id: nat, now: nat)
    requires Inv(s) && id in s.tasks
    ensures var tag := s.tasks[id].tag; var s' := FinishLoad(s, id, now);
      && tag in s.models
      && if s.models[tag].unloadRequested then tag !in s'.models
         else tag in s'.models && s'.models[tag] == Slot(Ready(id, s.tasks[id].devices), false)
    ensures Inv(FinishLoad(s, id, now))
    ensures FinishLoad(s, id, now).nextId == s.nextId && FinishLoad(s, id, now).guards <= s.guards
  {
    if s.tasks[id].phase.InLoad? {
      StepKeepsInv(s, Complete(id, Success, now));
      var s1 := CompleteLoad(s, id, Success, now);
      if id in s1.tasks {
        FinishDoomedKeepsInv(s1, id);
      }
    } else {
      FinishDoomedKeepsInv(s, id);
    }
  }

  lemma {:induction false} FinishIsLocal(s: Reg, id: nat, now: nat)
    requires id in s.tasks
    ensures SameSlotsElsewhere(s, FinishLoad(s, id, now), s.tasks[id].tag)
  {
  }

  /** Loads of `s`, none named twice. */
  ghost predicate Finishable(s: Reg, order: seq<nat>) {
    && (forall i :: 0 <= i < |order| ==> order[i] in s.tasks)
    && forall i, j :: 0 <= i < j < |order| ==> order[i] != order[j]
  }

  /** The loads end one after the other. */
  ghost function FinishAll(s: Reg, order: seq<nat>, now: nat): Reg
    requires Finishable(s, order)
    decreases |order|
  {
    if |order| == 0 then s else FinishAll(FinishLoad(s, order[0], now), order[1..], now)
  }

  /** What the end of the loads makes of one tag's slot. */
  ghost predicate Ended(s: Reg, s': Reg, tag: Tag) {
    if !IsLoading(s, tag) then Lookup(s'.models, tag) == Lookup(s.models, tag)
    else if s.models[tag].unloadRequested then tag !in s'.models
    else
      && tag in s'.models && s'.models[tag].state.Ready? && !s'.models[tag].unloadRequested
      && s'.models[tag].state.devices == s.models[tag].state.devices
  }

  /** Every load of the tag is among those named. */
  ghost predicate Covered(s: Reg, order: seq<nat>, tag: Tag) {
    forall id :: id in s.tasks && s.tasks[id].tag == tag ==> id in order
  }

  lemma {:induction false} NamedFirst(s: Reg, order: seq<nat>, now: nat, tag: Tag)
    requires Inv(s) && Finishable(s, order) && |order| > 0 && s.tasks[order[0]].tag == tag && Covered(s, order, tag)
    ensures Covered(FinishLoad(s, order[0], now), order[1..], tag)
    ensures IsLoading(s, tag) && !IsLoading(FinishLoad(s, order[0], now), tag)
    ensures Ended(s, FinishLoad(s, order[0], now), tag)
  {
    hide FinishLoad, Inv;
    TaskIsLoading(s, order[0]);
    FinishOutcome(s, order[0], now);
    assert order == [order[0]] + order[1..];
  }

  lemma TaskIsLoading(s: Reg, id: nat)
    requires Inv(s) && id in s.tasks
    ensures IsLoading(s, s.tasks[id].tag) && s.models[s.tasks[id].tag].state.devices == s.tasks[id].devices
  {
  }

  lemma NothingLoadsUncovered(s: Reg, tag: Tag)
    requires Inv(s) && Covered(s, [], tag)
    ensures !IsLoading(s, tag)
  {
    assert IsLoading(s, tag) ==> HasTask(s, tag);
  }

  lemma {:induction false} NamedLater(s: Reg, order: seq<nat>, now: nat, tag: Tag)
    requires Finishable(s, order) && |order| > 0 && s.tasks[order[0]].tag != tag && Covered(s, order, tag)
    ensures Covered(FinishLoad(s, order[0], now), order[1..], tag)
    ensures Lookup(FinishLoad(s, order[0], now).models, tag) == Lookup(s.models, tag)
  {
    hide FinishLoad;
    FinishIsLocal(s, order[0], now);
    assert order == [order[0]] + order[1..];
  }

  /** Whatever the order, each load named ends as its slot says, and slots without a load stay. */
  lemma {:induction false} FinishAllOutcome(s: Reg, order: seq<nat>, now: nat, tag: Tag)
    requires Inv(s) && Finishable(s, order) && Covered(s, order, tag)
    ensures Inv(FinishAll(s, order, now)) && Ended(s, FinishAll(s, order, now), tag)
    ensures !IsLoading(FinishAll(s, order, now), tag)
    decreases |order|
  {
    hide FinishLoad, Inv, Covered;
    if |order| == 0 {
      assert order == [];
      NothingLoadsUncovered(s, tag);
    } else {
      FinishOutcome(s, order[0], now);
      if s.tasks[order[0]].tag == tag {
        NamedFirst(s, order, now, tag);
      } else {
        NamedLater(s, order, now, tag);
      }
      FinishAllOutcome(FinishLoad(s, order[0], now), order[1..], now, tag);
    }
  }

  lemma {:induction false} FinishAllKeepsTiers(n: Node, order: seq<nat>, now: nat)
    requires TierInv(TiersOf(n)) && Finishable(n.reg, order)
    ensures TierInv(TiersOf(n.(reg := FinishAll(n.reg, order, now))))
    decreases |order|
  {
    hide FinishLoad, TierInv;
    if |order| > 0 {
      FinishKeepsTiers(n, order[0], now);
      var n1 := n.(reg := FinishLoad(n.reg, order[0], now));
      FinishAllKeepsTiers(n1, order[1..], now);
      assert n1.(reg := FinishAll(n1.reg, order[1..], now)) == n.(reg := FinishAll(n.reg, order, now));
    }
  }

  lemma {:induction false} FinishKeepsTiers(n: Node, id: nat, now: nat)
    requires TierInv(TiersOf(n)) && id in n.reg.tasks
    ensures TierInv(TiersOf(n.(reg := FinishLoad(n.reg, id, now))))
  {
    FinishOutcome(n.reg, id, now);
    hide FinishLoad, Inv, SingleDownload;
  }

  // ----- what one beat does to one tag -----

  ghost predicate OnTarget(n: Node, d: Descriptor) {
    && d.tag in n.reg.models && n.reg.models[d.tag].state.Ready?
    && n.reg.models[d.tag].state.devices == d.devices
  }

  /** A load that is to be thrown away: on other devices, or under a pending unload. */
  predicate Discarding(s: Reg, d: Descriptor) {
    IsLoading(s, d.tag) && (s.models[d.tag].unloadRequested || Misplaced(s, d))
  }

  /** No failure of the tag is still cooling down. */
  predicate NoBackoff(s: Reg, tag: Tag, now: nat) {
    IsFailed(s, tag) ==> !BackingOff(s.models[tag].state.at, now)
  }

  /** A `process` goal that this node acts on at `now`. */
  ghost predicate Live(n: Node, d: Descriptor, now: nat) {
    d.residency.Process? && Serves(n, d.tag) && NoBackoff(n.reg, d.tag, now)
  }

  /** From `s`, the tag's slot has been brought on its way: a load to be thrown away waits for its end, and anything
      else is an engine up or coming up on the goal's devices. */
  ghost predicate Steered(s: Reg, s': Reg, d: Descriptor) {
    && d.tag in s'.models && !s'.models[d.tag].state.Failed?
    && if Discarding(s, d) then s'.models[d.tag].state.Loading? && s'.models[d.tag].unloadRequested
       else !s'.models[d.tag].unloadRequested && EngineDevices(s', d.tag) == Some(d.devices)
  }

  lemma {:induction false} SteeredByItself(n: Node, d: Descriptor, now: nat)
    requires SingleFlight(n.reg) && Live(n, d, now) && Stored(n, d)
    ensures Steered(n.reg, ApplyOne(n, d, now).reg, d)
  {
    hide EnsureCached, ForgetFailed, LoadsHaveTasks;
  }

  /** Only the tag's own slot matters. */
  lemma {:induction false} SteeredBySlot(s: Reg, s': Reg, t: Reg, t': Reg, d: Descriptor)
    requires Steered(s, s', d)
    requires Lookup(s.models, d.tag) == Lookup(t.models, d.tag) && Lookup(s'.models, d.tag) == Lookup(t'.models, d.tag)
    ensures Steered(t, t', d)
  {
  }

  lemma {:induction false} ApplyAllElsewhere(n: Node, models: seq<Descriptor>, now: nat, tag: Tag)
    requires Inv(n.reg) && forall i :: 0 <= i < |models| ==> models[i].tag != tag
    ensures Inv(ApplyAll(n, models, now).reg)
    ensures Lookup(ApplyAll(n, models, now).reg.models, tag) == Lookup(n.reg.models, tag)
  {
    if |models| > 0 {
      var m := |models| - 1;
      ApplyAllElsewhere(n, models[..m], now, tag);
      hide ApplyOne, Inv, Lookup;
      ApplyOneRegInv(ApplyAll(n, models[..m], now), models[m], now);
      ApplyOneIsLocal(ApplyAll(n, models[..m], now), models[m], now);
    }
  }

  lemma LiveElsewhere(n: Node, n': Node, d: Descriptor, now: nat)
    requires Live(n, d, now) && n'.pinned == n.pinned && Lookup(n'.reg.models, d.tag) == Lookup(n.reg.models, d.tag)
    ensures Live(n', d, now)
  {
  }

  /** Among any other goals, a live goal steers its own tag as if it were alone. */
  lemma {:induction false} ApplyAllSteers(n: Node, models: seq<Descriptor>, now: nat, d: Descriptor)
    requires Inv(n.reg) && UniqueTags(models) && d in models && Stored(n, d) && Live(n, d, now)
    ensures Steered(n.reg, ApplyAll(n, models, now).reg, d)
  {
    var m := |models| - 1;
    var before := ApplyAll(n, models[..m], now);
    assert models == models[..m] + [models[m]];
    ApplyAllKeepsStores(n, models[..m], now);
    if models[m] == d {
      ApplyAllElsewhere(n, models[..m], now, d.tag);
      LiveElsewhere(n, before, d, now);
      hide ApplyOne, Steered, Live, HandlesTracked;
      SteeredByItself(before, d, now);
      SteeredBySlot(before.reg, ApplyOne(before, d, now).reg, n.reg, ApplyOne(before, d, now).reg, d);
    } else {
      assert d in models[..m];
      ApplyAllSteers(n, models[..m], now, d);
      hide ApplyOne, Steered, Live, Lookup;
      ApplyOneIsLocal(before, models[m], now);
      SteeredBySlot(n.reg, before.reg, n.reg, ApplyOne(before, models[m], now).reg, d);
    }
  }

  /** A beat with any goals steers every live one. */
  lemma {:induction false} BeatSteers(n: Node, models: seq<Descriptor>, drain: bool, now: nat, d: Descriptor)
    requires Inv(n.reg) && UniqueTags(models) && d in models && Live(n, d, now)
    ensures Steered(n.reg, Apply(n, models, drain, now).reg, d)
  {
    StoreAllStores(n, models);
    StoreAllKeepsTiers(n, models);
    ProcessFirstOrders(models);
    hide Steered, Inv, Stored, UniqueTags, ApplyAll, StoreAll, ProcessFirst;
    LiveElsewhere(n, StoreAll(n, models), d, now);
    ApplyAllSteers(StoreAll(n, models), ProcessFirst(models), now, d);
  }

  /** After a beat every goal is stored and has nothing left to do but wait. */
  lemma {:induction false} BeatSettles(n: Node, models: seq<Descriptor>, drain: bool, now: nat)
    requires UniqueTags(models)
    ensures var beat := Apply(n, models, drain, now);
      beat.pinned == n.pinned && forall d :: d in models ==> Stored(beat, d) && Settled(beat, d, now)
  {
    var stored := StoreAll(n, models);
    StoreAllStores(n, models);
    StoreAllKeepsTiers(n, models);
    ProcessFirstOrders(models);
    hide Stored, Settled, StoreAll, ApplyAll, ProcessFirst, UniqueTags;
    ApplyAllSettles(stored, ProcessFirst(models), now);
    ApplyAllKeepsStores(stored, ProcessFirst(models), now);
    forall d | d in models
      ensures Stored(Apply(n, models, drain, now), d) && Settled(Apply(n, models, drain, now), d, now)
    {
      assert d in ProcessFirst(models);
      DrainIsApart(ApplyAll(stored, ProcessFirst(models), now), drain, d, now);
    }
  }

  lemma DrainIsApart(n: Node, drain: bool, d: Descriptor, now: nat)
    ensures Stored(n.(draining := drain), d) == Stored(n, d)
    ensures Settled(n.(draining := drain), d, now) == Settled(n, d, now)
  {
  }

  // ----- rounds -----

  ghost predicate HasGoal(models: seq<Descriptor>, tag: Tag) {
    exists d :: d in models && d.tag == tag
  }

  /** Every load of a goal's tag is named; loads of other tags may be. */
  ghost predicate CoversGoals(s: Reg, models: seq<Descriptor>, order: seq<nat>) {
    Finishable(s, order) && forall id :: id in s.tasks && HasGoal(models, s.tasks[id].tag) ==> id in order
  }

  /** One beat with the goals, then the end of the loads named by `order`. */
  ghost predicate IsRound(n: Node, models: seq<Descriptor>, drain: bool, now: nat, order: seq<nat>, n': Node) {
    var beat := Apply(n, models, drain, now);
    CoversGoals(beat.reg, models, order) && n' == beat.(reg := FinishAll(beat.reg, order, now))
  }

  lemma {:induction false} RoundKeepsTiers(
      n: Node, models: seq<Descriptor>, drain: bool, now: nat, order: seq<nat>, n': Node)
    requires TierInv(TiersOf(n)) && UniqueTags(models) && IsRound(n, models, drain, now, order, n')
    ensures TierInv(TiersOf(n')) && n'.pinned == n.pinned
  {
    hide TierInv, Apply, FinishAll, Settled, Stored, UniqueTags;
    ApplyKeepsTiers(n, models, drain, now);
    BeatSettles(n, models, drain, now);
    FinishAllKeepsTiers(Apply(n, models, drain, now), order, now);
  }

  lemma GoalIsCovered(s: Reg, models: seq<Descriptor>, order: seq<nat>, d: Descriptor)
    requires CoversGoals(s, models, order) && d in models
    ensures Covered(s, order, d.tag)
  {
    assert HasGoal(models, d.tag);
  }

  lemma {:induction false} RoundEnds(
      n: Node, models: seq<Descriptor>, drain: bool, now: nat, order: seq<nat>, n': Node, d: Descriptor)
    requires TierInv(TiersOf(n)) && IsRound(n, models, drain, now, order, n') && d in models
    ensures Ended(Apply(n, models, drain, now).reg, n'.reg, d.tag) && !IsLoading(n'.reg, d.tag)
  {
    ApplyKeepsTiers(n, models, drain, now);
    var beat := Apply(n, models, drain, now);
    assert Inv(beat.reg);
    hide Apply, FinishAll, Ended, CoversGoals, Covered, Inv;
    GoalIsCovered(beat.reg, models, order, d);
    assert Finishable(beat.reg, order) by { CoveredIsFinishable(beat.reg, models, order); }
    FinishAllOutcome(beat.reg, order, now, d.tag);
  }

  lemma CoveredIsFinishable(s: Reg, models: seq<Descriptor>, order: seq<nat>)
    requires CoversGoals(s, models, order)
    ensures Finishable(s, order)
  {
  }

  /** One round reaches a live goal exactly when no load of its tag is being thrown away; otherwise it clears the slot.
      Whatever other goals the beat carries makes no difference. */
  lemma {:induction false} OneRoundIff(
      n: Node, models: seq<Descriptor>, drain: bool, now: nat, order: seq<nat>, n': Node, d: Descriptor)
    requires TierInv(TiersOf(n)) && UniqueTags(models) && IsRound(n, models, drain, now, order, n')
    requires d in models && Live(n, d, now)
    ensures OnTarget(n', d) <==> !Discarding(n.reg, d)
    ensures Discarding(n.reg, d) ==> d.tag !in n'.reg.models
  {
    assert Inv(n.reg);
    RoundEnds(n, models, drain, now, order, n', d);
    BeatSteers(n, models, drain, now, d);
    hide Apply, TierInv, Inv, IsRound, UniqueTags, Live, Discarding;
  }

  /** Two rounds bring every live goal of the list to its devices, from any reachable state. */
  lemma {:induction false} TwoRoundsConverge(
      n: Node, models: seq<Descriptor>, drain1: bool, now1: nat, order1: seq<nat>, n1: Node,
      drain2: bool, now2: nat, order2: seq<nat>, n2: Node)
    requires TierInv(TiersOf(n)) && UniqueTags(models)
    requires IsRound(n, models, drain1, now1, order1, n1) && IsRound(n1, models, drain2, now2, order2, n2)
    ensures forall d :: d in models && Live(n, d, now1) ==> OnTarget(n2, d)
  {
    RoundKeepsTiers(n, models, drain1, now1, order1, n1);
    forall d | d in models && Live(n, d, now1) ensures OnTarget(n2, d) {
      OneRoundIff(n, models, drain1, now1, order1, n1, d);
      LiveAfterRound(n, n1, d, now1, now2);
      hide IsRound, TierInv, UniqueTags, Live;
      OneRoundIff(n1, models, drain2, now2, order2, n2, d);
    }
  }

  lemma LiveAfterRound(n: Node, n1: Node, d: Descriptor, now1: nat, now2: nat)
    requires Live(n, d, now1) && n1.pinned == n.pinned && (OnTarget(n1, d) || d.tag !in n1.reg.models)
    ensures Live(n1, d, now2) && !Discarding(n1.reg, d)
  {
  }

  /** One round takes the engine of every served `disk` or `none` goal out. */
  lemma {:induction false} OneRoundTakesOut(
      n: Node, models: seq<Descriptor>, drain: bool, now: nat, order: seq<nat>, n': Node, d: Descriptor)
    requires TierInv(TiersOf(n)) && UniqueTags(models) && IsRound(n, models, drain, now, order, n')
    requires d in models && !d.residency.Process? && Serves(n, d.tag)
    ensures d.tag !in n'.reg.models
  {
    BeatSettles(n, models, drain, now);
    RoundEnds(n, models, drain, now, order, n', d);
    hide Apply, TierInv, IsRound, UniqueTags;
  }

  /** A goal settled by a beat is settled by the round, unless its engine was thrown away. */
  lemma {:induction false} EndedStaysSettled(n: Node, reg: Reg, d: Descriptor, now: nat)
    requires Stored(n, d) && Settled(n, d, now) && Ended(n.reg, reg, d.tag)
    requires d.residency.Process? && Serves(n, d.tag) ==> d.tag in reg.models
    ensures Stored(n.(reg := reg), d) && Settled(n.(reg := reg), d, now)
  {
  }

  lemma {:induction false} SettledGoalsAreFixed(n: Node, models: seq<Descriptor>, now: nat)
    requires UniqueTags(models) && forall d :: d in models ==> Stored(n, d) && Settled(n, d, now)
    ensures Apply(n, models, n.draining, now) == n
  {
    ProcessFirstOrders(models);
    hide Stored, Settled, UniqueTags, ProcessFirst;
    StoreAllFixed(n, models);
    ApplyAllFixed(n, ProcessFirst(models), now);
  }

  /** Every served `process` goal of the list has a slot. */
  ghost predicate GoalsHaveSlots(n: Node, models: seq<Descriptor>) {
    forall d :: d in models && d.residency.Process? && Serves(n, d.tag) ==> d.tag in n.reg.models
  }

  /** Another beat after a round changes nothing at all exactly when the round left every served `process` goal its
      slot: no load of the list was thrown away. */
  lemma {:induction false} RoundIsFixedIff(
      n: Node, models: seq<Descriptor>, drain: bool, now: nat, order: seq<nat>, n': Node)
    requires TierInv(TiersOf(n)) && UniqueTags(models) && IsRound(n, models, drain, now, order, n')
    ensures Apply(n', models, drain, now) == n' <==> GoalsHaveSlots(n', models)
  {
    var beat := Apply(n, models, drain, now);
    assert n'.draining == drain && n' == beat.(reg := n'.reg);
    if GoalsHaveSlots(n', models) {
      SlotsMakeFixed(n, models, drain, now, order, n');
    }
    BeatSettles(n', models, drain, now);
    hide Apply, IsRound, TierInv, UniqueTags;
  }

  lemma {:induction false} SlotsMakeFixed(
      n: Node, models: seq<Descriptor>, drain: bool, now: nat, order: seq<nat>, n': Node)
    requires TierInv(TiersOf(n)) && UniqueTags(models) && IsRound(n, models, drain, now, order, n')
    requires GoalsHaveSlots(n', models)
    ensures Apply(n', models, drain, now) == n'
  {
    var beat := Apply(n, models, drain, now);
    assert n'.draining == drain && n' == beat.(reg := n'.reg);
    BeatSettles(n, models, drain, now);
    forall d | d in models ensures Stored(n', d) && Settled(n', d, now) {
      RoundEnds(n, models, drain, now, order, n', d);
      hide Apply, IsRound, TierInv, UniqueTags, Stored, Settled, Ended;
      EndedStaysSettled(beat, n'.reg, d, now);
    }
    hide Apply, IsRound, TierInv, UniqueTags, Stored, Settled;
    SettledGoalsAreFixed(n', models, now);
  }

  /** When every served `process` goal is live, two rounds end in a state that no further beat changes. */
  lemma {:induction false} TwoRoundsAreFixed(
      n: Node, models: seq<Descriptor>, drain1: bool, now1: nat, order1: seq<nat>, n1: Node,
      drain2: bool, now2: nat, order2: seq<nat>, n2: Node)
    requires TierInv(TiersOf(n)) && UniqueTags(models)
    requires IsRound(n, models, drain1, now1, order1, n1) && IsRound(n1, models, drain2, now2, order2, n2)
    requires forall d :: d in models && d.residency.Process? && Serves(n, d.tag) ==> Live(n, d, now1)
    ensures Apply(n2, models, drain2, now2) == n2
  {
    TwoRoundsConverge(n, models, drain1, now1, order1, n1, drain2, now2, order2, n2);
    RoundKeepsTiers(n, models, drain1, now1, order1, n1);
    RoundKeepsTiers(n1, models, drain2, now2, order2, n2);
    hide IsRound, TierInv, UniqueTags, Apply, Live;
    RoundIsFixedIff(n1, models, drain2, now2, order2, n2);
  }
}
