/** How models come and go: one step per lock scope on the shared slot map.

    A load task loads at most one native handle, so a handle is named by its task. */
module Registry {
  import opened Wrappers

  type Tag = string
  type Devices = Option<seq<nat>>

  /** Reconciliation leaves a failure younger than this alone, in milliseconds. */
  const FAILED_RETRY_BACKOFF: nat := 60_000

  datatype ModelState =
    | Loading(devices: Devices)
    | Ready(handle: nat, devices: Devices)
    | Failed(error: string, at: nat)

  datatype Slot = Slot(state: ModelState, unloadRequested: bool)

  /** A spawned load: still loading, or finished under a pending unload and about to remove its slot. */
  datatype Phase = InLoad | Doomed(loaded: bool)
  datatype LoadTask = LoadTask(tag: Tag, devices: Devices, phase: Phase)

  /** `guards` are the tasks holding the download gate; `loaded` and `deleted` are the history of
      handles loaded and handed to a delete. */
  datatype Reg = Reg(
    models: map<Tag, Slot>,
    tasks: map<nat, LoadTask>,
    guards: set<nat>,
    nextId: nat,
    loaded: set<nat>,
    deleted: seq<nat>)

  datatype LoadResult = Success | Failure(error: string)

  datatype Step =
    | Insert(tag: Tag, devices: Devices)
    | ClearFailed(tag: Tag)
    | UnloadInspect(tag: Tag)
    | UnloadRemove(tag: Tag)
    | ReleaseGuard(id: nat)
    | Complete(id: nat, result: LoadResult, now: nat)
    | RemoveDoomed(id: nat)

  function Init(): Reg {
    Reg(map[], map[], {}, 0, {}, [])
  }

  predicate IsLoading(s: Reg, tag: Tag) {
    tag in s.models && s.models[tag].state.Loading?
  }

  predicate IsFailed(s: Reg, tag: Tag) {
    tag in s.models && s.models[tag].state.Failed?
  }

  /** A new `Loading` slot and its load task, which holds the gate from the start. */
  function InsertLoading(s: Reg, tag: Tag, devices: Devices): Reg {
    s.(models := s.models[tag := Slot(Loading(devices), false)],
       tasks := s.tasks[s.nextId := LoadTask(tag, devices, InLoad)],
       guards := s.guards + {s.nextId},
       nextId := s.nextId + 1)
  }

  function RequestUnload(s: Reg, tag: Tag): Reg
    requires tag in s.models
  {
    s.(models := s.models[tag := s.models[tag].(unloadRequested := true)])
  }

  /** Drop a slot; a `Ready` one hands its handle to a delete. */
  function RemoveSlot(s: Reg, tag: Tag): Reg {
    if tag !in s.models then s
    else
      var slot := s.models[tag];
      s.(models := s.models - {tag},
         deleted := if slot.state.Ready? then s.deleted + [slot.state.handle] else s.deleted)
  }

  function Outcome(id: nat, devices: Devices, result: LoadResult, now: nat): ModelState {
    match result
    case Success => Ready(id, devices)
    case Failure(error) => Failed(error, now)
  }

  /** The loader returned: install the outcome, or leave the slot to `RemoveDoomed` if an unload arrived. */
  function CompleteLoad(s: Reg, id: nat, result: LoadResult, now: nat): Reg
    requires id in s.tasks
  {
    var task := s.tasks[id];
    var s' := s.(guards := s.guards - {id}, loaded := if result.Success? then s.loaded + {id} else s.loaded);
    if task.tag !in s.models then s'.(tasks := s.tasks - {id})
    else if s.models[task.tag].unloadRequested then
      s'.(tasks := s.tasks[id := task.(phase := Doomed(result.Success?))])
    else
      s'.(tasks := s.tasks - {id},
          models := s.models[task.tag := s.models[task.tag].(state := Outcome(id, task.devices, result, now))])
  }

  function FinishDoomed(s: Reg, id: nat): Reg
    requires id in s.tasks && s.tasks[id].phase.Doomed?
  {
    s.(models := s.models - {s.tasks[id].tag},
       tasks := s.tasks - {id},
       deleted := if s.tasks[id].phase.loaded then s.deleted + [id] else s.deleted)
  }

  ghost predicate Enabled(s: Reg, step: Step) {
    match step
    case Insert(tag, _) => tag !in s.models
    case ClearFailed(tag) => IsFailed(s, tag)
    case UnloadInspect(tag) => IsLoading(s, tag)
    case UnloadRemove(tag) => true
    case ReleaseGuard(id) => id in s.guards
    case Complete(id, _, _) => id in s.tasks && s.tasks[id].phase.InLoad?
    case RemoveDoomed(id) => id in s.tasks && s.tasks[id].phase.Doomed?
  }

  ghost function Next(s: Reg, step: Step): Reg
    requires Enabled(s, step)
  {
    match step
    case Insert(tag, devices) => InsertLoading(s, tag, devices)
    case ClearFailed(tag) => s.(models := s.models - {tag})
    case UnloadInspect(tag) => RequestUnload(s, tag)
    case UnloadRemove(tag) => RemoveSlot(s, tag)
    case ReleaseGuard(id) => s.(guards := s.guards - {id})
    case Complete(id, result, now) => CompleteLoad(s, id, result, now)
    case RemoveDoomed(id) => FinishDoomed(s, id)
  }

  // ----- invariants -----

  /** A tag's slot is `Loading` exactly while one load task of the tag lives, and that task is unique. */
  ghost predicate SingleFlight(s: Reg) {
    LoadsHaveTasks(s) && TasksHaveLoads(s)
  }

  ghost predicate LoadsHaveTasks(s: Reg) {
    forall tag :: IsLoading(s, tag) ==> HasTask(s, tag)
  }

  ghost predicate HasTask(s: Reg, tag: Tag) {
    exists id :: id in s.tasks && s.tasks[id].tag == tag
  }

  ghost predicate TasksHaveLoads(s: Reg) {
    && (forall id :: id in s.tasks ==>
          IsLoading(s, s.tasks[id].tag) && s.models[s.tasks[id].tag].state.devices == s.tasks[id].devices)
    && (forall a, b :: a in s.tasks && b in s.tasks && s.tasks[a].tag == s.tasks[b].tag ==> a == b)
    && (forall id :: id in s.tasks && s.tasks[id].phase.Doomed? ==> s.models[s.tasks[id].tag].unloadRequested)
    && (forall tag :: tag in s.models && s.models[tag].unloadRequested ==> IsLoading(s, tag))
  }

  predicate InReady(s: Reg, h: nat, tag: Tag) {
    tag in s.models && s.models[tag].state.Ready? && s.models[tag].state.handle == h
  }

  predicate InDoomed(s: Reg, h: nat) {
    h in s.tasks && s.tasks[h].phase == Doomed(true)
  }

  /** Every handle ever loaded is in one `Ready` slot, with one task about to delete it, or deleted once;
      never in two of those places, and nothing else is in any of them. */
  ghost predicate HandlesTracked(s: Reg) {
    && (forall h :: h in s.loaded ==> (exists tag :: InReady(s, h, tag)) || InDoomed(s, h) || h in s.deleted)
    && (forall h, tag :: InReady(s, h, tag) ==> h in s.loaded && !InDoomed(s, h) && h !in s.deleted && h !in s.tasks)
    && (forall h :: InDoomed(s, h) ==> h in s.loaded)
    && (forall h :: h in s.deleted ==> h in s.loaded && h !in s.tasks)
    && (forall h, a, b :: InReady(s, h, a) && InReady(s, h, b) ==> a == b)
    && (forall i, j :: 0 <= i < j < |s.deleted| ==> s.deleted[i] != s.deleted[j])
    && (forall id :: id in s.tasks && id in s.loaded ==> InDoomed(s, id))
  }

  /** Identifiers are fresh, and only loads still in their load phase hold the gate. */
  ghost predicate Wellformed(s: Reg) {
    && (forall id :: id in s.tasks ==> id < s.nextId)
    && (forall h :: h in s.loaded ==> h < s.nextId)
    && (forall id :: id in s.guards ==> id in s.tasks && s.tasks[id].phase.InLoad?)
  }

  ghost predicate Inv(s: Reg) {
    Wellformed(s) && SingleFlight(s) && HandlesTracked(s)
  }

  /** The only unsafe moment: the slot an unload inspected has become `Loading` by the time it removes it. */
  predicate StaleRemove(s: Reg, step: Step) {
    step.UnloadRemove? && IsLoading(s, step.tag)
  }

  /** Slots still `Loading` keep their tasks when only other tags' tasks go. */
  lemma {:induction false} KeepsTasks(s: Reg, s': Reg)
    requires LoadsHaveTasks(s) && forall t :: IsLoading(s', t) ==> IsLoading(s, t)
    requires forall id :: id in s.tasks && IsLoading(s', s.tasks[id].tag) ==>
      id in s'.tasks && s'.tasks[id].tag == s.tasks[id].tag
    ensures LoadsHaveTasks(s')
  {
    forall t | IsLoading(s', t) ensures HasTask(s', t) {
      assert HasTask(s, t);
      var id :| id in s.tasks && s.tasks[id].tag == t;
      assert id in s'.tasks && s'.tasks[id].tag == t;
    }
  }

  lemma {:induction false} InsertKeepsTasks(s: Reg, tag: Tag, devices: Devices)
    requires LoadsHaveTasks(s) && s.nextId !in s.tasks
    ensures LoadsHaveTasks(InsertLoading(s, tag, devices))
  {
    var s' := InsertLoading(s, tag, devices);
    forall t | IsLoading(s', t) ensures HasTask(s', t) {
      if t == tag {
        assert s.nextId in s'.tasks && s'.tasks[s.nextId].tag == t;
      } else {
        assert IsLoading(s, t) && HasTask(s, t);
        var id :| id in s.tasks && s.tasks[id].tag == t;
        assert id in s'.tasks && s'.tasks[id].tag == t;
      }
    }
  }

  lemma {:induction false} InsertKeepsSingleFlight(s: Reg, tag: Tag, devices: Devices)
    requires Wellformed(s) && SingleFlight(s) && tag !in s.models
    ensures Wellformed(InsertLoading(s, tag, devices)) && SingleFlight(InsertLoading(s, tag, devices))
  {
    hide LoadsHaveTasks, TasksHaveLoads, IsLoading;
    InsertKeepsTasks(s, tag, devices);
    InsertKeepsLoads(s, tag, devices);
  }

  lemma {:induction false} InsertKeepsLoads(s: Reg, tag: Tag, devices: Devices)
    requires TasksHaveLoads(s) && s.nextId !in s.tasks && tag !in s.models
    ensures TasksHaveLoads(InsertLoading(s, tag, devices))
  {
    var s' := InsertLoading(s, tag, devices);
    forall id | id in s'.tasks
      ensures IsLoading(s', s'.tasks[id].tag) && s'.models[s'.tasks[id].tag].state.devices == s'.tasks[id].devices
    {
      assert id != s.nextId ==> id in s.tasks && s.tasks[id].tag != tag;
    }
  }

  lemma {:induction false} InsertKeepsInv(s: Reg, tag: Tag, devices: Devices)
    requires Inv(s) && tag !in s.models
    ensures Inv(InsertLoading(s, tag, devices))
  {
    InsertKeepsSingleFlight(s, tag, devices);
    hide SingleFlight;
    KeepsReady(s, InsertLoading(s, tag, devices));
  }

  /** Handles stay tracked when no `Ready` slot, doomed task or delete changes. */
  lemma KeepsReady(s: Reg, s': Reg)
    requires HandlesTracked(s) && s'.loaded == s.loaded && s'.deleted == s.deleted
    requires forall h, tag :: InReady(s', h, tag) <==> InReady(s, h, tag)
    requires forall h :: InDoomed(s', h) <==> InDoomed(s, h)
    requires forall id :: id in s'.tasks ==> id in s.tasks || id !in s.loaded
    ensures HandlesTracked(s')
  {
    forall h | h in s'.loaded ensures (exists tag :: InReady(s', h, tag)) || InDoomed(s', h) || h in s'.deleted {
      if tag :| InReady(s, h, tag) {
        assert InReady(s', h, tag);
      }
    }
    forall h, tag | InReady(s', h, tag) ensures h !in s'.tasks {
      assert InReady(s, h, tag);
    }
  }

  lemma {:induction false} RequestUnloadKeepsInv(s: Reg, tag: Tag)
    requires Inv(s) && IsLoading(s, tag)
    ensures Inv(RequestUnload(s, tag))
  {
    hide LoadsHaveTasks, HandlesTracked;
    var s' := RequestUnload(s, tag);
    KeepsTasks(s, s');
    KeepsReady(s, s');
  }

  lemma {:induction false} ClearFailedKeepsInv(s: Reg, tag: Tag)
    requires Inv(s) && IsFailed(s, tag)
    ensures Inv(s.(models := s.models - {tag}))
  {
    hide LoadsHaveTasks, HandlesTracked;
    var s' := s.(models := s.models - {tag});
    KeepsTasks(s, s');
    KeepsReady(s, s');
  }

  lemma {:induction false} RemoveKeepsSingleFlight(s: Reg, tag: Tag)
    requires SingleFlight(s) && !IsLoading(s, tag)
    ensures SingleFlight(RemoveSlot(s, tag))
  {
    hide LoadsHaveTasks;
    KeepsTasks(s, RemoveSlot(s, tag));
  }

  lemma {:induction false} RemoveKeepsHandles(s: Reg, tag: Tag)
    requires HandlesTracked(s) && tag in s.models && s.models[tag].state.Ready?
    ensures HandlesTracked(RemoveSlot(s, tag))
  {
    var s' := RemoveSlot(s, tag);
    var gone := s.models[tag].state.handle;
    assert InReady(s, gone, tag);
    forall h | h in s'.loaded ensures (exists t :: InReady(s', h, t)) || InDoomed(s', h) || h in s'.deleted {
      if t :| InReady(s, h, t) {
        assert t == tag ==> h == gone;
        assert t != tag ==> InReady(s', h, t);
      }
    }
    forall h, t | InReady(s', h, t) ensures InReady(s, h, t) && h != gone {
      assert InReady(s, h, t);
    }
  }

  lemma {:induction false} RemoveSlotKeepsInv(s: Reg, tag: Tag)
    requires Inv(s) && !IsLoading(s, tag)
    ensures Inv(RemoveSlot(s, tag))
  {
    RemoveKeepsSingleFlight(s, tag);
    hide SingleFlight;
    if tag in s.models && s.models[tag].state.Ready? {
      RemoveKeepsHandles(s, tag);
    } else {
      KeepsReady(s, RemoveSlot(s, tag));
    }
  }

  lemma {:induction false} CompleteKeepsSingleFlight(s: Reg, id: nat, result: LoadResult, now: nat)
    requires Inv(s) && id in s.tasks && s.tasks[id].phase.InLoad?
    ensures Wellformed(CompleteLoad(s, id, result, now)) && SingleFlight(CompleteLoad(s, id, result, now))
  {
    hide LoadsHaveTasks, HandlesTracked;
    KeepsTasks(s, CompleteLoad(s, id, result, now));
  }

  lemma {:induction false} CompleteKeepsHandles(s: Reg, id: nat, result: LoadResult, now: nat)
    requires Inv(s) && id in s.tasks && s.tasks[id].phase.InLoad?
    ensures HandlesTracked(CompleteLoad(s, id, result, now))
  {
    var s' := CompleteLoad(s, id, result, now);
    var tag := s.tasks[id].tag;
    assert id !in s.loaded;
    forall h | h in s'.loaded ensures (exists t :: InReady(s', h, t)) || InDoomed(s', h) || h in s'.deleted {
      if h == id {
        assert InReady(s', h, tag) || InDoomed(s', h);
      } else if t :| InReady(s, h, t) {
        assert InReady(s', h, t);
      }
    }
    forall h, t | InReady(s', h, t) ensures (h == id && t == tag && result.Success?) || InReady(s, h, t) {
    }
    forall h | InDoomed(s', h) ensures (h == id && result.Success?) || InDoomed(s, h) {
    }
  }

  lemma {:induction false} FinishKeepsSingleFlight(s: Reg, id: nat)
    requires Wellformed(s) && SingleFlight(s) && id in s.tasks && s.tasks[id].phase.Doomed?
    ensures Wellformed(FinishDoomed(s, id)) && SingleFlight(FinishDoomed(s, id))
  {
    hide LoadsHaveTasks;
    KeepsTasks(s, FinishDoomed(s, id));
  }

  lemma {:induction false} FinishKeepsHandles(s: Reg, id: nat)
    requires HandlesTracked(s) && id in s.tasks && s.tasks[id].phase.Doomed? && IsLoading(s, s.tasks[id].tag)
    ensures HandlesTracked(FinishDoomed(s, id))
  {
    var s' := FinishDoomed(s, id);
    forall h | h in s'.loaded ensures (exists t :: InReady(s', h, t)) || InDoomed(s', h) || h in s'.deleted {
      if t :| InReady(s, h, t) {
        assert InReady(s', h, t);
      }
    }
    forall h, t | InReady(s', h, t) ensures InReady(s, h, t) {
    }
    if InDoomed(s, id) {
    }
  }

  lemma {:induction false} FinishDoomedKeepsInv(s: Reg, id: nat)
    requires Inv(s) && id in s.tasks && s.tasks[id].phase.Doomed?
    ensures Inv(FinishDoomed(s, id))
  {
    FinishKeepsSingleFlight(s, id);
    FinishKeepsHandles(s, id);
  }

  lemma {:induction false} StepKeepsInv(s: Reg, step: Step)
    requires Inv(s) && Enabled(s, step) && !StaleRemove(s, step)
    ensures Inv(Next(s, step))
  {
    match step {
      case Insert(tag, devices) => InsertKeepsInv(s, tag, devices);
      case ClearFailed(tag) => ClearFailedKeepsInv(s, tag);
      case UnloadInspect(tag) => RequestUnloadKeepsInv(s, tag);
      case UnloadRemove(tag) => RemoveSlotKeepsInv(s, tag);
      case ReleaseGuard(id) => KeepsReady(s, Next(s, step));
      case Complete(id, result, now) =>
        CompleteKeepsSingleFlight(s, id, result, now);
        CompleteKeepsHandles(s, id, result, now);
      case RemoveDoomed(id) => FinishDoomedKeepsInv(s, id);
    }
  }

  /** An unload's remove is safe exactly when the slot is not `Loading` at that moment: the two lock scopes
      of `unload` must not let a load start in between. */
  lemma {:induction false} RemoveSafeIff(s: Reg, tag: Tag)
    requires Inv(s)
    ensures Inv(Next(s, UnloadRemove(tag))) <==> !IsLoading(s, tag)
  {
    if IsLoading(s, tag) {
      assert HasTask(s, tag);
      var id :| id in s.tasks && s.tasks[id].tag == tag;
      assert !IsLoading(RemoveSlot(s, tag), tag);
    } else {
      RemoveSlotKeepsInv(s, tag);
    }
  }

  lemma {:induction false} StepKeepsWellformed(s: Reg, step: Step)
    requires Wellformed(s) && Enabled(s, step)
    ensures Wellformed(Next(s, step))
  {
  }

  // ----- every run, stale removes included -----

  ghost predicate IsAnyRun(s: Reg, steps: seq<Step>)
    decreases |steps|
  {
    |steps| == 0 || (Enabled(s, steps[0]) && IsAnyRun(Next(s, steps[0]), steps[1..]))
  }

  ghost function AfterAny(s: Reg, steps: seq<Step>): Reg
    requires IsAnyRun(s, steps)
    decreases |steps|
  {
    if |steps| == 0 then s else AfterAny(Next(s, steps[0]), steps[1..])
  }

  /** The invariant holds in every state the run passes through. */
  ghost predicate SoundThroughout(s: Reg, steps: seq<Step>)
    requires IsAnyRun(s, steps)
    decreases |steps|
  {
    Inv(s) && (|steps| == 0 || SoundThroughout(Next(s, steps[0]), steps[1..]))
  }

  /** Single flight and tracked engines last through a whole run exactly when no unload of it removes a slot that has
      become `Loading` since it was inspected. */
  lemma {:induction false} RunSoundIff(s: Reg, steps: seq<Step>)
    requires Inv(s) && IsAnyRun(s, steps)
    ensures SoundThroughout(s, steps) <==> IsRun(s, steps)
    decreases |steps|
  {
    if |steps| > 0 {
      var s' := Next(s, steps[0]);
      if StaleRemove(s, steps[0]) {
        RemoveSafeIff(s, steps[0].tag);
        assert !Inv(s');
      } else {
        StepKeepsInv(s, steps[0]);
        hide Enabled, Next, Inv, StaleRemove;
        RunSoundIff(s', steps[1..]);
      }
    }
  }

  /** A handle is in one place at a time, and a deleted one is nowhere else. */
  ghost predicate DeletedApart(s: Reg) {
    && (forall h :: h in s.deleted ==> h < s.nextId && h !in s.tasks)
    && (forall i, j :: 0 <= i < j < |s.deleted| ==> s.deleted[i] != s.deleted[j])
    && (forall h: nat, tag :: InReady(s, h, tag) ==> h < s.nextId && h !in s.deleted && h !in s.tasks)
    && (forall h, a, b :: InReady(s, h, a) && InReady(s, h, b) ==> a == b)
  }

  lemma {:induction false} RemoveKeepsApart(s: Reg, tag: Tag)
    requires DeletedApart(s)
    ensures DeletedApart(RemoveSlot(s, tag))
  {
    var s' := RemoveSlot(s, tag);
    forall h, t | InReady(s', h, t) ensures InReady(s, h, t) && h !in s'.deleted {
      assert InReady(s, h, t);
      if tag in s.models && s.models[tag].state.Ready? {
        assert InReady(s, s.models[tag].state.handle, tag);
      }
    }
    if tag in s.models && s.models[tag].state.Ready? {
      assert InReady(s, s.models[tag].state.handle, tag);
    }
  }

  lemma {:induction false} CompleteKeepsApart(s: Reg, id: nat, result: LoadResult, now: nat)
    requires DeletedApart(s) && Wellformed(s) && id in s.tasks && s.tasks[id].phase.InLoad?
    ensures DeletedApart(CompleteLoad(s, id, result, now))
  {
    var s' := CompleteLoad(s, id, result, now);
    forall h, t | InReady(s', h, t) ensures InReady(s, h, t) || (h == id && t == s.tasks[id].tag && id !in s'.tasks) {
    }
  }

  lemma {:induction false} StepKeepsApart(s: Reg, step: Step)
    requires DeletedApart(s) && Wellformed(s) && Enabled(s, step)
    ensures DeletedApart(Next(s, step))
  {
    match step {
      case UnloadRemove(tag) => RemoveKeepsApart(s, tag);
      case Complete(id, result, now) => CompleteKeepsApart(s, id, result, now);
      case _ =>
        var s' := Next(s, step);
        forall h, t | InReady(s', h, t) ensures InReady(s, h, t) {
        }
    }
  }

  lemma {:induction false} RunKeepsApart(s: Reg, steps: seq<Step>)
    requires DeletedApart(s) && Wellformed(s) && IsAnyRun(s, steps)
    ensures DeletedApart(AfterAny(s, steps))
    decreases |steps|
  {
    hide Enabled, Next, DeletedApart, Wellformed;
    if |steps| > 0 {
      StepKeepsApart(s, steps[0]);
      StepKeepsWellformed(s, steps[0]);
      RunKeepsApart(Next(s, steps[0]), steps[1..]);
    }
  }

  /** On every run, stale removes included, no engine is deleted twice, and none that is deleted is served. */
  lemma {:induction false} NeverDeletedTwice(steps: seq<Step>)
    requires IsAnyRun(Init(), steps)
    ensures DeletedApart(AfterAny(Init(), steps))
  {
    RunKeepsApart(Init(), steps);
  }

  // ----- runs without stale removes -----

  /** Runs in which nothing starts a load of a tag between the two scopes of its unload. */
  ghost predicate IsRun(s: Reg, steps: seq<Step>)
    decreases |steps|
  {
    |steps| == 0 || (Enabled(s, steps[0]) && !StaleRemove(s, steps[0]) && IsRun(Next(s, steps[0]), steps[1..]))
  }

  ghost function After(s: Reg, steps: seq<Step>): Reg
    requires IsRun(s, steps)
    decreases |steps|
  {
    if |steps| == 0 then s else After(Next(s, steps[0]), steps[1..])
  }

  /** Over every run: one load per tag exactly while its slot is `Loading`, and no engine left untracked. */
  lemma {:induction false} RunKeepsInv(s: Reg, steps: seq<Step>)
    requires Inv(s) && IsRun(s, steps)
    ensures Inv(After(s, steps))
    decreases |steps|
  {
    if |steps| > 0 {
      StepKeepsInv(s, steps[0]);
      RunKeepsInv(Next(s, steps[0]), steps[1..]);
    }
  }

  lemma ReachableInv(steps: seq<Step>)
    requires IsRun(Init(), steps)
    ensures Inv(After(Init(), steps))
  {
    RunKeepsInv(Init(), steps);
  }

  /** Once no slot is left, no load is in flight and every engine ever loaded has been deleted exactly once. */
  lemma NothingStaysWarm(steps: seq<Step>)
    requires IsRun(Init(), steps) && After(Init(), steps).models == map[]
    ensures var s := After(Init(), steps);
      && (forall id :: id !in s.tasks) && (forall h :: h in s.loaded <==> h in s.deleted)
      && (forall i, j :: 0 <= i < j < |s.deleted| ==> s.deleted[i] != s.deleted[j])
  {
    ReachableInv(steps);
    var s := After(Init(), steps);
    EmptyMeansDeleted(s);
  }

  lemma EmptyMeansDeleted(s: Reg)
    requires Inv(s) && s.models == map[]
    ensures (forall id :: id !in s.tasks) && (forall h :: h in s.loaded <==> h in s.deleted)
  {
  }

  /** The stale interleaving, concretely: an unload inspects a failed slot, the failure is cleared and a new
      load starts, and the unload then removes the `Loading` slot. The load succeeds and its engine is in
      no slot, in no task and in no delete. */
  lemma StaleUnloadLosesEngine(tag: Tag)
    ensures
      var failed := Reg(map[tag := Slot(Failed("boom", 0), false)], map[], {}, 1, {}, []);
      var steps := [Insert(tag, None), Complete(0, Failure("boom"), 0)];
      && IsRun(Init(), steps) && After(Init(), steps) == failed && !IsLoading(failed, tag)
      && var reloading := Next(Next(failed, ClearFailed(tag)), Insert(tag, None));
        var lost := Next(Next(reloading, UnloadRemove(tag)), Complete(1, Success, 0));
        1 in lost.loaded && lost.models == map[] && lost.tasks == map[] && lost.deleted == []
  {
    var loading := Next(Init(), Insert(tag, None));
    var failed := Next(loading, Complete(0, Failure("boom"), 0));
    assert failed == Reg(map[tag := Slot(Failed("boom", 0), false)], map[], {}, 1, {}, []);
    var steps := [Insert(tag, None), Complete(0, Failure("boom"), 0)];
    assert steps[1..] == [Complete(0, Failure("boom"), 0)] && steps[1..][1..] == [];
    assert IsRun(failed, []) && After(failed, []) == failed;
    assert IsRun(loading, steps[1..]);
  }
}
