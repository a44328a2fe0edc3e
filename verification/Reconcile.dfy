/** Heartbeat reconciliation: one declarative goal applied to the node's state. */
module Reconcile {
  import opened Wrappers
  import opened Registry
  import opened CacheTier

  datatype Residency = Process | Disk | Nowhere

  datatype Policy = Policy(valuePerGpuSecond: real, minShare: real)

  /** The plane's goal for one tag. */
  datatype Descriptor = Descriptor(
    tag: Tag, residency: Residency, key: Option<string>, devices: Devices, policy: Option<Policy>)

  /** `entries` are the tags with a dispatcher entry. */
  datatype Node = Node(
    reg: Reg,
    cache: Cache,
    entries: set<Tag>,
    keys: map<Tag, string>,
    devices: map<Tag, seq<nat>>,
    policies: map<Tag, Policy>,
    pinned: Option<set<Tag>>,
    draining: bool)

  predicate Serves(n: Node, tag: Tag) {
    n.pinned.None? || tag in n.pinned.value
  }

  function Lookup<V>(m: map<Tag, V>, tag: Tag): Option<V> {
    if tag in m then Some(m[tag]) else None
  }

  /** Mirror an optional value: absent clears. */
  function Mirror<V>(m: map<Tag, V>, tag: Tag, value: Option<V>): map<Tag, V> {
    match value
    case Some(v) => m[tag := v]
    case None => m - {tag}
  }

  // ----- registry operations -----

  /** The devices a tag's engine is on or loading on, if it has an engine. */
  function EngineDevices(s: Reg, tag: Tag): Option<Devices> {
    if tag !in s.models then None
    else match s.models[tag].state
      case Loading(devices) => Some(devices)
      case Ready(_, devices) => Some(devices)
      case Failed(_, _) => None
  }

  function Warm(s: Reg, tag: Tag, devices: Devices): Reg {
    if tag !in s.models then InsertLoading(s, tag, devices)
    else if s.models[tag].state.Failed? then InsertLoading(s.(models := s.models - {tag}), tag, devices)
    else s
  }

  function WarmReconcile(s: Reg, tag: Tag, devices: Devices, now: nat): Reg {
    if IsFailed(s, tag) && BackingOff(s.models[tag].state.at, now) then s else Warm(s, tag, devices)
  }

  /** Both scopes of an unload, with nothing in between. */
  function Unload(s: Reg, tag: Tag): Reg {
    if IsLoading(s, tag) then RequestUnload(s, tag) else RemoveSlot(s, tag)
  }

  // ----- apply -----

  function Store(n: Node, d: Descriptor): Node {
    n.(keys := if d.key.Some? then n.keys[d.tag := d.key.value] else n.keys,
       devices := Mirror(n.devices, d.tag, d.devices),
       policies := Mirror(n.policies, d.tag, d.policy))
  }

  /** The engine is on other devices than the goal's. */
  predicate Misplaced(s: Reg, d: Descriptor) {
    EngineDevices(s, d.tag).Some? && EngineDevices(s, d.tag).value != d.devices
  }

  function ApplyOne(n: Node, d: Descriptor, now: nat): Node {
    if !Serves(n, d.tag) then n
    else match d.residency
      case Process =>
        var n1 := if Misplaced(n.reg, d)
          then n.(entries := n.entries - {d.tag}, reg := Unload(n.reg, d.tag)) else n;
        var reg := WarmReconcile(n1.reg, d.tag, Lookup(n1.devices, d.tag), now);
        n1.(reg := reg, cache := EnsureCached(n1.cache, d.tag, Immediate, now, reg.guards))
      case Disk =>
        var reg := Unload(n.reg, d.tag);
        n.(entries := n.entries - {d.tag}, reg := reg,
           cache := EnsureCached(n.cache, d.tag, Prefetch, now, reg.guards))
      case Nowhere =>
        n.(entries := n.entries - {d.tag}, reg := Unload(n.reg, d.tag), cache := ForgetFailed(n.cache, d.tag))
  }

  function StoreAll(n: Node, models: seq<Descriptor>): Node {
    if |models| == 0 then n
    else Store(StoreAll(n, models[..|models| - 1]), models[|models| - 1])
  }

  function ApplyAll(n: Node, models: seq<Descriptor>, now: nat): Node {
    if |models| == 0 then n
    else ApplyOne(ApplyAll(n, models[..|models| - 1], now), models[|models| - 1], now)
  }

  function WithResidency(models: seq<Descriptor>, process: bool): seq<Descriptor> {
    if |models| == 0 then []
    else WithResidency(models[..|models| - 1], process)
         + (if models[|models| - 1].residency.Process? == process then [models[|models| - 1]] else [])
  }

  /** `process` goals first, each group in the plane's order. */
  function ProcessFirst(models: seq<Descriptor>): seq<Descriptor> {
    WithResidency(models, true) + WithResidency(models, false)
  }

  function Apply(n: Node, models: seq<Descriptor>, drain: bool, now: nat): Node {
    ApplyAll(StoreAll(n, models), ProcessFirst(models), now).(draining := drain)
  }

  // ----- the order of directives -----

  lemma {:induction false} PartitionKeepsAll(models: seq<Descriptor>)
    ensures multiset(WithResidency(models, true)) + multiset(WithResidency(models, false)) == multiset(models)
  {
    if |models| > 0 {
      var m := |models| - 1;
      PartitionKeepsAll(models[..m]);
      assert models == models[..m] + [models[m]];
    }
  }

  ghost predicate UniqueTags(models: seq<Descriptor>) {
    forall i, j :: 0 <= i < |models| && 0 <= j < |models| && models[i].tag == models[j].tag ==> i == j
  }

  lemma {:induction false} PartMembers(models: seq<Descriptor>, process: bool)
    ensures forall d :: d in WithResidency(models, process) <==> d in models && d.residency.Process? == process
    ensures UniqueTags(models) ==> UniqueTags(WithResidency(models, process))
  {
    if |models| > 0 {
      var m := |models| - 1;
      PartMembers(models[..m], process);
      assert models == models[..m] + [models[m]];
      if UniqueTags(models) {
        assert UniqueTags(models[..m]);
        assert forall d :: d in models[..m] ==> d.tag != models[m].tag;
      }
    }
  }

  /** `process` goals come first; nothing is dropped, added or repeated. */
  lemma {:induction false} ProcessFirstOrders(models: seq<Descriptor>)
    requires UniqueTags(models)
    ensures UniqueTags(ProcessFirst(models))
    ensures forall d :: d in ProcessFirst(models) <==> d in models
    ensures forall i, j :: 0 <= i < j < |ProcessFirst(models)| && ProcessFirst(models)[j].residency.Process? ==>
      ProcessFirst(models)[i].residency.Process?
  {
    var p, q := WithResidency(models, true), WithResidency(models, false);
    PartMembers(models, true);
    PartMembers(models, false);
    forall d, e | d in p && e in q ensures d.tag != e.tag {
      var i :| 0 <= i < |models| && models[i] == d;
      var j :| 0 <= j < |models| && models[j] == e;
    }
    assert forall i :: 0 <= i < |p| ==> p[i] in p;
    assert forall i :: 0 <= i < |q| ==> q[i] in q;
  }

  // ----- idempotence -----

  /** The stores already mirror the descriptor. */
  ghost predicate Stored(n: Node, d: Descriptor) {
    && (d.key.Some? ==> d.tag in n.keys && n.keys[d.tag] == d.key.value)
    && Lookup(n.devices, d.tag) == d.devices
    && Lookup(n.policies, d.tag) == d.policy
  }

  /** The tag's engine is out, or on its way out. */
  predicate EngineOut(s: Reg, tag: Tag) {
    tag !in s.models || (s.models[tag].state.Loading? && s.models[tag].unloadRequested)
  }

  /** There is nothing left to do for the goal but wait. */
  ghost predicate Settled(n: Node, d: Descriptor, now: nat) {
    Serves(n, d.tag) ==>
      match d.residency
      case Process =>
        && !CacheNeeded(n.cache, d.tag, now) && d.tag in n.reg.models
        && (Misplaced(n.reg, d) ==> d.tag !in n.entries && EngineOut(n.reg, d.tag))
        && (IsFailed(n.reg, d.tag) ==> BackingOff(n.reg.models[d.tag].state.at, now))
      case Disk => d.tag !in n.entries && EngineOut(n.reg, d.tag) && !CacheNeeded(n.cache, d.tag, now)
      case Nowhere =>
        && d.tag !in n.entries && EngineOut(n.reg, d.tag)
        && !(d.tag in n.cache.states && n.cache.states[d.tag].CacheFailed?)
  }

  lemma StoredIsFixed(n: Node, d: Descriptor)
    requires Stored(n, d)
    ensures Store(n, d) == n
  {
  }

  lemma {:induction false} SettledIsFixed(n: Node, d: Descriptor, now: nat)
    requires Settled(n, d, now)
    ensures ApplyOne(n, d, now) == n
  {
    if Serves(n, d.tag) && d.tag in n.reg.models {
      var s := n.reg;
      if EngineOut(s, d.tag) {
        assert s.models[d.tag := s.models[d.tag].(unloadRequested := true)] == s.models;
      }
    }
    assert d.tag !in n.entries ==> n.entries - {d.tag} == n.entries;
  }

  lemma {:induction false} ApplyOneSettles(n: Node, d: Descriptor, now: nat)
    requires Stored(n, d)
    ensures Settled(ApplyOne(n, d, now), d, now) && Stored(ApplyOne(n, d, now), d)
  {
    match d.residency
    case Process => ProcessSettles(n, d, now);
    case _ => OutSettles(n, d, now);
  }

  lemma {:induction false} ProcessSettles(n: Node, d: Descriptor, now: nat)
    requires Stored(n, d) && d.residency.Process?
    ensures Settled(ApplyOne(n, d, now), d, now) && Stored(ApplyOne(n, d, now), d)
  {
  }

  lemma {:induction false} OutSettles(n: Node, d: Descriptor, now: nat)
    requires Stored(n, d) && !d.residency.Process?
    ensures Settled(ApplyOne(n, d, now), d, now) && Stored(ApplyOne(n, d, now), d)
  {
  }

  /** Applying one tag's goal leaves every other tag's slot, entry and cache state alone. */
  ghost predicate SameElsewhere(n: Node, n': Node, tag: Tag) {
    && n'.pinned == n.pinned
    && n'.keys == n.keys && n'.devices == n.devices && n'.policies == n.policies
    && (forall t :: t != tag ==> (t in n'.entries <==> t in n.entries))
    && SameSlotsElsewhere(n.reg, n'.reg, tag)
    && SameCachesElsewhere(n.cache, n'.cache, tag)
  }

  ghost predicate SameSlotsElsewhere(s: Reg, s': Reg, tag: Tag) {
    forall t :: t != tag ==> Lookup(s'.models, t) == Lookup(s.models, t)
  }

  lemma UnloadIsLocal(s: Reg, tag: Tag)
    ensures SameSlotsElsewhere(s, Unload(s, tag), tag)
  {
  }

  lemma WarmIsLocal(s: Reg, tag: Tag, devices: Devices, now: nat)
    ensures SameSlotsElsewhere(s, WarmReconcile(s, tag, devices, now), tag)
  {
  }

  ghost predicate SameCachesElsewhere(c: Cache, c': Cache, tag: Tag) {
    forall t :: t != tag ==> Lookup(c'.states, t) == Lookup(c.states, t)
  }

  lemma CacheStays(c: Cache, tag: Tag)
    ensures SameCachesElsewhere(c, c, tag)
  {
  }

  lemma CacheIsLocal(c: Cache, tag: Tag, priority: Priority, now: nat, guards: set<nat>)
    ensures SameCachesElsewhere(c, EnsureCached(c, tag, priority, now, guards), tag)
    ensures SameCachesElsewhere(c, ForgetFailed(c, tag), tag)
  {
  }

  lemma {:induction false} ApplyOneIsLocal(n: Node, d: Descriptor, now: nat)
    ensures SameElsewhere(n, ApplyOne(n, d, now), d.tag)
  {
    hide ApplyOne, SameSlotsElsewhere, SameCachesElsewhere;
    ApplyOneKeepsStores(n, d, now);
    SlotsAreLocal(n, d, now);
    CachesAreLocal(n, d, now);
  }

  lemma {:induction false} ApplyOneKeepsStores(n: Node, d: Descriptor, now: nat)
    ensures var n' := ApplyOne(n, d, now);
      && n'.keys == n.keys && n'.devices == n.devices && n'.policies == n.policies && n'.pinned == n.pinned
      && (n'.entries == n.entries || n'.entries == n.entries - {d.tag})
  {
    hide Lookup, Unload, WarmReconcile, EnsureCached, ForgetFailed, Misplaced, Serves;
  }

  lemma {:induction false} SlotsAreLocal(n: Node, d: Descriptor, now: nat)
    ensures SameSlotsElsewhere(n.reg, ApplyOne(n, d, now).reg, d.tag)
  {
    hide Lookup, Unload, WarmReconcile, EnsureCached, ForgetFailed, Misplaced;
    UnloadIsLocal(n.reg, d.tag);
    var s1 := if Misplaced(n.reg, d) then Unload(n.reg, d.tag) else n.reg;
    WarmIsLocal(s1, d.tag, Lookup(n.devices, d.tag), now);
  }

  lemma {:induction false} CachesAreLocal(n: Node, d: Descriptor, now: nat)
    ensures SameCachesElsewhere(n.cache, ApplyOne(n, d, now).cache, d.tag)
  {
    hide Lookup, Unload, WarmReconcile, EnsureCached, ForgetFailed, Misplaced, SameCachesElsewhere;
    CacheStays(n.cache, d.tag);
    CacheIsLocal(n.cache, d.tag, Immediate, now, ApplyOne(n, d, now).reg.guards);
    CacheIsLocal(n.cache, d.tag, Prefetch, now, ApplyOne(n, d, now).reg.guards);
  }

  lemma SettledElsewhere(n: Node, n': Node, tag: Tag, d: Descriptor, now: nat)
    requires SameElsewhere(n, n', tag) && d.tag != tag && Settled(n, d, now) && Stored(n, d)
    ensures Settled(n', d, now) && Stored(n', d)
  {
    assert Lookup(n'.reg.models, d.tag) == Lookup(n.reg.models, d.tag);
    assert Lookup(n'.cache.states, d.tag) == Lookup(n.cache.states, d.tag);
  }

  lemma {:induction false} StoreAllStores(n: Node, models: seq<Descriptor>)
    requires UniqueTags(models)
    ensures forall d :: d in models ==> Stored(StoreAll(n, models), d)
  {
    if |models| > 0 {
      var m := |models| - 1;
      StoreAllStores(n, models[..m]);
      assert models == models[..m] + [models[m]];
      forall d | d in models ensures Stored(StoreAll(n, models), d) {
        if d in models[..m] {
          assert d.tag != models[m].tag;
        }
      }
    }
  }

  lemma {:induction false} ApplyAllKeepsStores(n: Node, models: seq<Descriptor>, now: nat)
    ensures var n' := ApplyAll(n, models, now);
      n'.keys == n.keys && n'.devices == n.devices && n'.policies == n.policies && n'.pinned == n.pinned
  {
    hide ApplyOne;
    if |models| > 0 {
      ApplyAllKeepsStores(n, models[..|models| - 1], now);
      ApplyOneKeepsStores(ApplyAll(n, models[..|models| - 1], now), models[|models| - 1], now);
    }
  }

  lemma {:induction false} ApplyAllSettles(n: Node, models: seq<Descriptor>, now: nat)
    requires UniqueTags(models) && forall d :: d in models ==> Stored(n, d)
    ensures forall d :: d in models ==> Settled(ApplyAll(n, models, now), d, now) && Stored(ApplyAll(n, models, now), d)
  {
    if |models| > 0 {
      var m := |models| - 1;
      var before := ApplyAll(n, models[..m], now);
      assert models == models[..m] + [models[m]];
      ApplyAllSettles(n, models[..m], now);
      ApplyAllKeepsStores(n, models[..m], now);
      assert models[m] in models;
      ApplyOneSettles(before, models[m], now);
      ApplyOneIsLocal(before, models[m], now);
      forall d | d in models[..m]
        ensures Settled(ApplyAll(n, models, now), d, now) && Stored(ApplyAll(n, models, now), d)
      {
        assert d.tag != models[m].tag;
        SettledElsewhere(before, ApplyAll(n, models, now), models[m].tag, d, now);
      }
    }
  }

  lemma {:induction false} StoreAllFixed(n: Node, models: seq<Descriptor>)
    requires forall d :: d in models ==> Stored(n, d)
    ensures StoreAll(n, models) == n
  {
    if |models| > 0 {
      StoreAllFixed(n, models[..|models| - 1]);
      StoredIsFixed(n, models[|models| - 1]);
    }
  }

  lemma {:induction false} ApplyAllFixed(n: Node, models: seq<Descriptor>, now: nat)
    requires forall d :: d in models ==> Settled(n, d, now)
    ensures ApplyAll(n, models, now) == n
  {
    if |models| > 0 {
      ApplyAllFixed(n, models[..|models| - 1], now);
      SettledIsFixed(n, models[|models| - 1], now);
    }
  }

  /** A second application of the goals changes nothing at all: no slot, task, guard, delete or download. */
  lemma {:induction false} ApplyIsIdempotent(n: Node, models: seq<Descriptor>, drain: bool, now: nat)
    requires UniqueTags(models)
    ensures var once := Apply(n, models, drain, now); Apply(once, models, drain, now) == once
  {
    var stored := StoreAll(n, models);
    var once := Apply(n, models, drain, now);
    StoreAllStores(n, models);
    ProcessFirstOrders(models);
    ApplyAllSettles(stored, ProcessFirst(models), now);
    forall d | d in models ensures Stored(once, d) && Settled(once, d, now) {
      assert d in ProcessFirst(models);
    }
    StoreAllFixed(once, models);
    ApplyAllFixed(once, ProcessFirst(models), now);
  }

  /** An empty goal changes nothing but the drain flag. */
  lemma NoOpinionIsNoOp(n: Node, drain: bool, now: nat)
    ensures Apply(n, [], drain, now) == n.(draining := drain)
  {
  }

  // ----- failed loads -----

  /** A failed load is left alone for a minute and then tried again, on the goal's devices. */
  lemma {:induction false} FailedSlotCoolsDown(s: Reg, tag: Tag, devices: Devices, now: nat)
    requires IsFailed(s, tag)
    ensures now < s.models[tag].state.at + 60_000 ==> WarmReconcile(s, tag, devices, now) == s
    ensures now >= s.models[tag].state.at + 60_000 ==>
      var s' := WarmReconcile(s, tag, devices, now);
      && tag in s'.models && s'.models[tag] == Slot(Loading(devices), false)
      && s.nextId in s'.tasks && s'.tasks[s.nextId] == LoadTask(tag, devices, InLoad)
  {
  }

  /** A load that fails leaves its error and its time in the slot, unless an unload arrived: then the slot goes and
      nothing is deleted. Reconciliation starts the next load a minute after the failure and no sooner. */
  lemma {:induction false} LoadFailureIsRemembered(
      s: Reg, id: nat, error: string, at: nat, devices: Devices, later: nat)
    requires Inv(s) && id in s.tasks && s.tasks[id].phase.InLoad? && !s.models[s.tasks[id].tag].unloadRequested
    ensures var tag := s.tasks[id].tag; var s' := CompleteLoad(s, id, Failure(error), at);
      && tag in s'.models && s'.models[tag].state == Failed(error, at) && s'.deleted == s.deleted
      && (WarmReconcile(s', tag, devices, later) == s' <==> later < at + 60_000)
  {
    hide HandlesTracked, LoadsHaveTasks;
  }

  /** A `process` goal for a served tag whose load failed, on whatever devices: nothing is unloaded, warmed or forgotten
      for a minute, and then the tag loads on the devices stored for it. */
  lemma {:induction false} GoalLetsFailureCool(n: Node, d: Descriptor, now: nat)
    requires (n.pinned.None? || d.tag in n.pinned.value) && d.residency.Process? && IsFailed(n.reg, d.tag)
    ensures now < n.reg.models[d.tag].state.at + 60_000 ==>
      ApplyOne(n, d, now).reg == n.reg && ApplyOne(n, d, now).entries == n.entries
    ensures now >= n.reg.models[d.tag].state.at + 60_000 ==>
      var s' := ApplyOne(n, d, now).reg;
      d.tag in s'.models && s'.models[d.tag] == Slot(Loading(Lookup(n.devices, d.tag)), false)
  {
    hide EnsureCached;
    FailedSlotCoolsDown(n.reg, d.tag, Lookup(n.devices, d.tag), now);
  }

  // ----- what a pass keeps -----

  /** A tag outside the pinned set is stored and otherwise left alone. */
  lemma {:induction false} UnservedIsLeftAlone(n: Node, d: Descriptor, now: nat)
    requires n.pinned.Some? && d.tag !in n.pinned.value
    ensures ApplyOne(n, d, now) == n
  {
  }

  /** The last key a list of goals sends for a tag. */
  function LastKey(models: seq<Descriptor>, tag: Tag): Option<string> {
    if |models| == 0 then None
    else
      var d := models[|models| - 1];
      if d.tag == tag && d.key.Some? then d.key else LastKey(models[..|models| - 1], tag)
  }

  /** A pass keeps every key it was ever sent: a goal without one does not take an earlier one away. */
  lemma {:induction false} KeysPersist(n: Node, models: seq<Descriptor>, drain: bool, now: nat, tag: Tag)
    ensures var n' := Apply(n, models, drain, now);
      match LastKey(models, tag)
      case Some(key) => tag in n'.keys && n'.keys[tag] == key
      case None => (tag in n'.keys <==> tag in n.keys) && (tag in n.keys ==> n'.keys[tag] == n.keys[tag])
  {
    StoredKeys(n, models, tag);
    ApplyAllKeepsStores(StoreAll(n, models), ProcessFirst(models), now);
  }

  lemma {:induction false} StoredKeys(n: Node, models: seq<Descriptor>, tag: Tag)
    ensures var n' := StoreAll(n, models);
      match LastKey(models, tag)
      case Some(key) => tag in n'.keys && n'.keys[tag] == key
      case None => (tag in n'.keys <==> tag in n.keys) && (tag in n.keys ==> n'.keys[tag] == n.keys[tag])
  {
    if |models| > 0 {
      StoredKeys(n, models[..|models| - 1], tag);
    }
  }

  /** The tag's dispatcher entry is there exactly when its slot holds the engine `h`. */
  ghost predicate EntryWithEngine(n: Node, h: nat, tag: Tag) {
    tag in n.entries <==> InReady(n.reg, h, tag)
  }

  /** The dispatcher's entry goes with the engine it dispatches to: a goal removes it exactly when it takes the ready
      engine out of its slot, and an engine taken out is handed to a delete. */
  lemma {:induction false} EntryGoesWithEngine(n: Node, d: Descriptor, now: nat, h: nat)
    requires EntryWithEngine(n, h, d.tag)
    ensures EntryWithEngine(ApplyOne(n, d, now), h, d.tag)
    ensures InReady(n.reg, h, d.tag) && !InReady(ApplyOne(n, d, now).reg, h, d.tag) ==>
      h in ApplyOne(n, d, now).reg.deleted
  {
    hide Unload, WarmReconcile, InReady, Misplaced, EnsureCached, ForgetFailed, Lookup;
    UnloadTakesOut(n.reg, d.tag, h);
    var s := if Misplaced(n.reg, d) then Unload(n.reg, d.tag) else n.reg;
    WarmingKeepsReady(s, d.tag, Lookup(n.devices, d.tag), now, h);
  }

  lemma UnloadTakesOut(s: Reg, tag: Tag, h: nat)
    ensures !InReady(Unload(s, tag), h, tag) && (InReady(s, h, tag) ==> h in Unload(s, tag).deleted)
  {
  }

  lemma WarmingKeepsReady(s: Reg, tag: Tag, devices: Devices, now: nat, h: nat)
    ensures InReady(WarmReconcile(s, tag, devices, now), h, tag) <==> InReady(s, h, tag)
    ensures WarmReconcile(s, tag, devices, now).deleted == s.deleted
  {
  }

  /** So over a whole pass, with any goals: no engine leaves its slot while its entry stays, and no entry goes whose
      engine stays. */
  lemma {:induction false} PassKeepsEntriesWithEngines(
      n: Node, models: seq<Descriptor>, drain: bool, now: nat, h: nat, tag: Tag)
    requires EntryWithEngine(n, h, tag)
    ensures EntryWithEngine(Apply(n, models, drain, now), h, tag)
  {
    StoringKeepsRest(n, models);
    GoalsKeepEntryWithEngine(StoreAll(n, models), ProcessFirst(models), now, h, tag);
  }

  lemma {:induction false} StoringKeepsRest(n: Node, models: seq<Descriptor>)
    ensures var n' := StoreAll(n, models);
      n'.reg == n.reg && n'.cache == n.cache && n'.entries == n.entries && n'.pinned == n.pinned
  {
    if |models| > 0 {
      StoringKeepsRest(n, models[..|models| - 1]);
    }
  }

  lemma {:induction false} GoalsKeepEntryWithEngine(n: Node, models: seq<Descriptor>, now: nat, h: nat, tag: Tag)
    requires EntryWithEngine(n, h, tag)
    ensures EntryWithEngine(ApplyAll(n, models, now), h, tag)
  {
    hide ApplyOne;
    if |models| > 0 {
      var before, d := ApplyAll(n, models[..|models| - 1], now), models[|models| - 1];
      GoalsKeepEntryWithEngine(n, models[..|models| - 1], now, h, tag);
      if d.tag == tag {
        EntryGoesWithEngine(before, d, now, h);
      } else {
        ApplyOneIsLocal(before, d, now);
        assert Lookup(ApplyOne(before, d, now).reg.models, tag) == Lookup(before.reg.models, tag);
      }
    }
  }
}
