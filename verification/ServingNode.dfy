/** The registry, the cache tracker and the heartbeat's reconciliation as the objects they are, each
    method tied to the state machine it implements. */
module ServingNode {
  import opened Wrappers
  import opened Registry
  import opened CacheTier
  import opened Reconcile
  import opened DownloadGate
  import opened Passes

  /** What one look at the slot map tells a request. */
  datatype Glance =
    IsReady(handle: nat) | WasFailed(error: string) | MustWait | StillLoading(retryAfter: nat) | NotServed

  const DEFAULT_LOAD_SECS: nat := 30

  function Max(a: nat, b: nat): nat {
    if a < b then b else a
  }

  /** A load task run to its end: completion, then the removal of a slot whose unload was requested. */
  function LoadEnded(s: Reg, id: nat, result: LoadResult, now: nat): Reg
    requires id in s.tasks && s.tasks[id].phase.InLoad?
  {
    var s1 := CompleteLoad(s, id, result, now);
    if id in s1.tasks then FinishDoomed(s1, id) else s1
  }

  lemma LoadEndedKeepsInv(s: Reg, id: nat, result: LoadResult, now: nat)
    requires Inv(s) && id in s.tasks && s.tasks[id].phase.InLoad?
    ensures Inv(LoadEnded(s, id, result, now))
  {
    var s1 := CompleteLoad(s, id, result, now);
    assert id in s1.tasks ==> s1.tasks[id].phase.Doomed?;
    CompleteKeepsSingleFlight(s, id, result, now);
    CompleteKeepsHandles(s, id, result, now);
    assert Inv(s1);
    hide Inv, CompleteLoad, FinishDoomed;
    if id in s1.tasks {
      FinishDoomedKeepsInv(s1, id);
    }
  }

  function SettledModels(
      models: map<Tag, Slot>, task: LoadTask, id: nat, result: LoadResult, now: nat): map<Tag, Slot> {
    if task.tag !in models then models
    else if models[task.tag].unloadRequested then models - {task.tag}
    else models[task.tag := models[task.tag].(state := Outcome(id, task.devices, result, now))]
  }

  function SettledDeletes(
      models: map<Tag, Slot>, deleted: seq<nat>, task: LoadTask, id: nat, result: LoadResult): seq<nat> {
    if task.tag in models && models[task.tag].unloadRequested && result.Success? then deleted + [id] else deleted
  }

  lemma LoadEndedParts(s: Reg, id: nat, result: LoadResult, now: nat)
    requires id in s.tasks && s.tasks[id].phase.InLoad? && id !in s.guards
    ensures LoadEnded(s, id, result, now) == Reg(
        SettledModels(s.models, s.tasks[id], id, result, now), s.tasks - {id}, s.guards, s.nextId,
        if result.Success? then s.loaded + {id} else s.loaded,
        SettledDeletes(s.models, s.deleted, s.tasks[id], id, result))
  {
    assert s.guards - {id} == s.guards;
    assert CompleteLoad(s, id, result, now).tasks - {id} == s.tasks - {id};
  }

  class ModelRegistry {
    var models: map<Tag, Slot>
    var tasks: map<nat, LoadTask>
    var nextId: nat
    var loaded: set<nat>
    var deleted: seq<nat>
    /** How long the last load that succeeded took, in whole seconds. */
    var lastLoadSecs: nat
    const pinned: Option<set<Tag>>
    const gate: Gate

    ghost function State(): Reg
      reads this, gate
    {
      Reg(models, tasks, gate.guards, nextId, loaded, deleted)
    }

    ghost predicate Valid()
      reads this, gate
    {
      gate.Valid() && Inv(State())
    }

    constructor (pinned: Option<set<Tag>>, gate: Gate)
      requires gate.Valid() && gate.guards == {}
      ensures Valid() && State() == Init() && this.pinned == pinned && this.gate == gate
      ensures lastLoadSecs == DEFAULT_LOAD_SECS
    {
      models, tasks, nextId, loaded, deleted := map[], map[], 0, {}, [];
      lastLoadSecs := DEFAULT_LOAD_SECS;
      this.pinned := pinned;
      this.gate := gate;
    }

    function ServesTag(tag: Tag): bool {
      pinned.None? || tag in pinned.value
    }

    /** Insert a `Loading` slot and spawn its load, taking the gate guard before anything else can run. */
    method SpawnLoad(tag: Tag, devices: Devices)
      requires Valid() && tag !in models
      modifies this, gate
      ensures Valid() && State() == InsertLoading(old(State()), tag, devices)
      ensures lastLoadSecs == old(lastLoadSecs)
    {
      hide SingleFlight, HandlesTracked, InReady, InDoomed, IsLoading;
      InsertKeepsInv(State(), tag, devices);
      models := models[tag := Slot(Loading(devices), false)];
      gate.EnterPriority(nextId);
      tasks := tasks[nextId := LoadTask(tag, devices, InLoad)];
      nextId := nextId + 1;
    }

    /** One look of a request at its model. Whoever sees a failure takes it away; whoever sees nothing starts the one
        load that everybody else waits for; a load is waited for until the request's patience is over, and whoever then
        leaves is told when to come back: `elapsed` seconds into a load that should take as long as the last one. */
    method EnsureReadyOnce(tag: Tag, onDevices: Devices, pastDeadline: bool, elapsed: nat) returns (seen: Glance)
      requires Valid()
      modifies this, gate
      ensures Valid()
      ensures seen.NotServed? <==> !ServesTag(tag)
      ensures seen.NotServed? ==> State() == old(State())
      ensures seen.IsReady? ==> State() == old(State()) && InReady(State(), seen.handle, tag)
      ensures seen.WasFailed? ==> IsFailed(old(State()), tag) && State() == Next(old(State()), ClearFailed(tag))
      ensures seen.MustWait? ==> IsLoading(State(), tag)
      ensures seen.MustWait? ==>
        State() == if old(tag in models) then old(State()) else Next(old(State()), Insert(tag, onDevices))
      ensures seen.StillLoading? ==> State() == old(State())
      ensures ServesTag(tag) && IsLoading(old(State()), tag) ==>
        if pastDeadline then seen.StillLoading? else seen.MustWait?
      ensures seen.StillLoading? ==> seen.retryAfter >= 5 && elapsed + seen.retryAfter >= lastLoadSecs
      ensures seen.StillLoading? && seen.retryAfter > 5 ==> elapsed + seen.retryAfter == lastLoadSecs
      ensures lastLoadSecs == old(lastLoadSecs)
      ensures ServesTag(tag) && old(tag !in models) ==> seen.MustWait?
      ensures ServesTag(tag) && old(tag in models && models[tag].state.Ready?) ==>
        seen == IsReady(old(models[tag].state.handle))
      ensures ServesTag(tag) && old(tag in models && models[tag].state.Failed?) ==>
        seen == WasFailed(old(models[tag].state.error))
    {
      hide SingleFlight, HandlesTracked, Wellformed;
      if !ServesTag(tag) {
        return NotServed;
      }
      if tag in models {
        match models[tag].state {
          case Ready(handle, _) =>
            return IsReady(handle);
          case Failed(error, _) =>
            ClearFailedKeepsInv(State(), tag);
            models := models - {tag};
            return WasFailed(error);
          case Loading(_) =>
            if pastDeadline {
              return StillLoading(Max(if elapsed < lastLoadSecs then lastLoadSecs - elapsed else 0, 5));
            }
            return MustWait;
        }
      }
      SpawnLoad(tag, onDevices);
      return MustWait;
    }

    method WarmTag(tag: Tag, onDevices: Devices)
      requires Valid()
      modifies this, gate
      ensures Valid()
      ensures State() == if ServesTag(tag) then Warm(old(State()), tag, onDevices) else old(State())
    {
      if !ServesTag(tag) {
        return;
      }
      if tag in models {
        if !models[tag].state.Failed? {
          return;
        }
        ClearFailedKeepsInv(State(), tag);
        models := models - {tag};
      }
      SpawnLoad(tag, onDevices);
    }

    method WarmForGoal(tag: Tag, onDevices: Devices, now: nat)
      requires Valid()
      modifies this, gate
      ensures Valid()
      ensures State() == if ServesTag(tag) then WarmReconcile(old(State()), tag, onDevices, now) else old(State())
    {
      if tag in models {
        match models[tag].state {
          case Failed(_, at) =>
            if BackingOff(at, now) {
              return;
            }
          case _ =>
        }
      }
      WarmTag(tag, onDevices);
    }

    /** First lock scope of an unload: a load in flight is asked to end in a delete. */
    method InspectForUnload(tag: Tag) returns (deferred: bool)
      requires Valid()
      modifies this`models
      ensures Valid() && (deferred <==> IsLoading(old(State()), tag))
      ensures State() == if deferred then Next(old(State()), UnloadInspect(tag)) else old(State())
    {
      hide SingleFlight, HandlesTracked;
      deferred := tag in models && models[tag].state.Loading?;
      if deferred {
        RequestUnloadKeepsInv(State(), tag);
        models := models[tag := models[tag].(unloadRequested := true)];
      }
    }

    /** Second lock scope, whatever has happened since the first: the registry stays sound exactly when the slot is
        not `Loading`. */
    method RemoveForUnload(tag: Tag)
      requires Valid()
      modifies this`models, this`deleted
      ensures State() == Next(old(State()), UnloadRemove(tag))
      ensures Valid() <==> !IsLoading(old(State()), tag)
    {
      hide SingleFlight, HandlesTracked;
      RemoveSafeIff(State(), tag);
      if tag in models {
        var slot := models[tag];
        models := models - {tag};
        if slot.state.Ready? {
          deleted := deleted + [slot.state.handle];
        }
      }
    }

    /** Both scopes, with nothing in between. */
    method UnloadTag(tag: Tag)
      requires Valid()
      modifies this
      ensures Valid() && State() == Unload(old(State()), tag)
    {
      hide SingleFlight, HandlesTracked, Wellformed;
      var deferred := InspectForUnload(tag);
      if !deferred {
        RemoveForUnload(tag);
      }
    }

    /** The loader lets go of the gate, when its download is done or when it ends. */
    method DropPriority(id: nat)
      requires Valid() && id in gate.guards
      modifies gate
      ensures Valid() && State() == Next(old(State()), ReleaseGuard(id))
    {
      StepKeepsInv(State(), ReleaseGuard(id));
      gate.DropGuard(id);
    }

    /** The load task's end: the slot takes the outcome unless an unload arrived meanwhile, in which case
        the slot goes and a loaded engine is deleted. */
    method FinishLoadTask(id: nat, result: LoadResult, now: nat, took: nat)
      requires Valid() && id in tasks && tasks[id].phase.InLoad? && id !in gate.guards
      modifies this
      ensures Valid() && State() == LoadEnded(old(State()), id, result, now)
      ensures lastLoadSecs == if result.Success? then Max(took, 1) else old(lastLoadSecs)
    {
      hide Inv, LoadEnded, Gate.Valid, SettledModels, SettledDeletes;
      LoadEndedKeepsInv(State(), id, result, now);
      LoadEndedParts(State(), id, result, now);
      SettleSlot(tasks[id], id, result, now);
      loaded := if result.Success? then loaded + {id} else loaded;
      lastLoadSecs := if result.Success? then Max(took, 1) else lastLoadSecs;
      tasks := tasks - {id};
    }

    /** The slot's part: install the outcome, or remove the slot and delete a loaded engine. */
    method SettleSlot(task: LoadTask, id: nat, result: LoadResult, now: nat)
      modifies this`models, this`deleted
      ensures models == SettledModels(old(models), task, id, result, now)
      ensures deleted == SettledDeletes(old(models), old(deleted), task, id, result)
    {
      if task.tag !in models {
        return;
      }
      if !models[task.tag].unloadRequested {
        models := models[task.tag := models[task.tag].(state := Outcome(id, task.devices, result, now))];
        return;
      }
      models := models - {task.tag};
      if result.Success? {
        deleted := deleted + [id];
      }
    }

    method DevicesOf(tag: Tag) returns (devices: Option<Devices>)
      ensures devices == EngineDevices(State(), tag)
    {
      if tag !in models {
        return None;
      }
      match models[tag].state {
        case Loading(d) => return Some(d);
        case Ready(_, d) => return Some(d);
        case Failed(_, _) => return None;
      }
    }
  }

  class CacheTracker {
    var states: map<Tag, CacheState>
    /** The download tasks spawned and not yet done. */
    ghost var downloads: map<nat, Download>
    ghost var nextDownload: nat

    ghost function State(): Cache
      reads this
    {
      Cache(states, downloads, nextDownload)
    }

    constructor ()
      ensures State() == NoCache() && SingleDownload(State())
    {
      states := map[];
      downloads, nextDownload := map[], 0;
    }

    /** `guards` is what the spawned download finds at the gate. */
    method Ensure(tag: Tag, priority: Priority, now: nat, ghost guards: set<nat>)
      requires SingleDownload(State())
      modifies this
      ensures State() == EnsureCached(old(State()), tag, priority, now, guards) && SingleDownload(State())
    {
      EnsureKeepsSingle(State(), tag, priority, now, guards);
      if tag in states {
        match states[tag] {
          case Caching => return;
          case Cached => return;
          case CacheFailed(_, at) =>
            if BackingOff(at, now) {
              return;
            }
            states := states[tag := Caching];
        }
      } else {
        states := states[tag := Caching];
      }
      downloads := downloads[nextDownload := Download(tag, priority, priority.Prefetch?, guards)];
      nextDownload := nextDownload + 1;
    }

    method Forget(tag: Tag)
      requires SingleDownload(State())
      modifies this
      ensures State() == ForgetFailed(old(State()), tag) && SingleDownload(State())
    {
      OtherKeepsSingle(State(), ForgetFailed(State(), tag));
      if tag in states && states[tag].CacheFailed? {
        states := states - {tag};
      }
    }

    method FinishOne(ghost id: nat, tag: Tag, result: LoadResult, now: nat)
      requires SingleDownload(State()) && id in downloads && downloads[id].tag == tag
      modifies this
      ensures State() == FinishDownload(old(State()), id, result, now) && SingleDownload(State())
    {
      FinishKeepsSingle(State(), id, result, now);
      var state := match result
        case Success => Cached
        case Failure(error) => CacheFailed(error, now);
      states := states[tag := state];
      downloads := downloads - {id};
    }
  }

  /** The server state a heartbeat's goal is applied to. */
  class Server {
    const registry: ModelRegistry
    const cache: CacheTracker
    var entries: set<Tag>
    var keys: map<Tag, string>
    var devices: map<Tag, seq<nat>>
    var policies: map<Tag, Policy>
    var draining: bool

    ghost function AsNode(): Node
      reads this, registry, registry.gate, cache
    {
      Node(registry.State(), cache.State(), entries, keys, devices, policies, registry.pinned, draining)
    }

    ghost predicate Valid()
      reads this, registry, registry.gate, cache
    {
      registry.Valid() && SingleDownload(cache.State())
    }

    constructor (registry: ModelRegistry, cache: CacheTracker)
      requires registry.Valid() && SingleDownload(cache.State())
      ensures this.registry == registry && this.cache == cache && Valid()
      ensures AsNode() == Node(registry.State(), cache.State(), {}, map[], map[], map[], registry.pinned, false)
    {
      this.registry := registry;
      this.cache := cache;
      entries, keys, devices, policies, draining := {}, map[], map[], map[], false;
    }

    /** Store credentials, devices and policy; an absent device list or policy clears. */
    method StoreGoal(d: Descriptor)
      requires Valid()
      modifies this
      ensures Valid() && AsNode() == Store(old(AsNode()), d)
    {
      hide Inv, SingleDownload;
      if d.key.Some? {
        keys := keys[d.tag := d.key.value];
      }
      if d.devices.Some? {
        devices := devices[d.tag := d.devices.value];
      } else {
        devices := devices - {d.tag};
      }
      if d.policy.Some? {
        policies := policies[d.tag := d.policy.value];
      } else {
        policies := policies - {d.tag};
      }
    }

    method ApplyGoal(d: Descriptor, now: nat)
      requires Valid()
      modifies this, registry, registry.gate, cache
      ensures Valid() && AsNode() == ApplyOne(old(AsNode()), d, now)
    {
      hide Inv, SingleDownload, WarmReconcile, Unload, EnsureCached, ForgetFailed;
      if !registry.ServesTag(d.tag) {
        return;
      }
      match d.residency {
        case Process =>
          ApplyProcess(d, now);
        case Disk =>
          entries := entries - {d.tag};
          registry.UnloadTag(d.tag);
          cache.Ensure(d.tag, Prefetch, now, registry.gate.guards);
        case Nowhere =>
          entries := entries - {d.tag};
          registry.UnloadTag(d.tag);
          cache.Forget(d.tag);
      }
    }

    /** A `process` goal: move the engine if it is elsewhere, warm it, then track its resources. */
    method ApplyProcess(d: Descriptor, now: nat)
      requires Valid() && Serves(AsNode(), d.tag) && d.residency.Process?
      modifies this, registry, registry.gate, cache
      ensures Valid() && AsNode() == ApplyOne(old(AsNode()), d, now)
    {
      hide Inv, SingleDownload, WarmReconcile, Unload, EnsureCached;
      var current := registry.DevicesOf(d.tag);
      if current.Some? && current.value != d.devices {
        entries := entries - {d.tag};
        registry.UnloadTag(d.tag);
      }
      registry.WarmForGoal(d.tag, Lookup(devices, d.tag), now);
      cache.Ensure(d.tag, Immediate, now, registry.gate.guards);
    }

    /** Diff the goal against local state. */
    method ApplyGoals(models: seq<Descriptor>, drain: bool, now: nat)
      requires Valid()
      modifies this, registry, registry.gate, cache
      ensures Valid() && AsNode() == Apply(old(AsNode()), models, drain, now)
    {
      StoreGoals(models);
      ApplyOrdered(ProcessFirst(models), now);
      if drain != draining {
        draining := drain;
      }
    }

    method StoreGoals(models: seq<Descriptor>)
      requires Valid()
      modifies this
      ensures Valid() && AsNode() == StoreAll(old(AsNode()), models)
    {
      ghost var start := AsNode();
      hide Store, Valid, AsNode;
      for i := 0 to |models|
        invariant Valid() && AsNode() == StoreAll(start, models[..i])
      {
        assert models[..i + 1][..i] == models[..i];
        StoreGoal(models[i]);
      }
      assert models[..|models|] == models;
    }

    method ApplyOrdered(ordered: seq<Descriptor>, now: nat)
      requires Valid()
      modifies this, registry, registry.gate, cache
      ensures Valid() && AsNode() == ApplyAll(old(AsNode()), ordered, now)
    {
      ghost var start := AsNode();
      hide ApplyOne, Valid, AsNode;
      for i := 0 to |ordered|
        invariant Valid() && AsNode() == ApplyAll(start, ordered[..i], now)
      {
        assert ordered[..i + 1][..i] == ordered[..i];
        ApplyGoal(ordered[i], now);
      }
      assert ordered[..|ordered|] == ordered;
    }
  }
}
