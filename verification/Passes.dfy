/** What every pass of reconciliation keeps, and what it guarantees to the downloads it starts. */
module Passes {
  import opened Wrappers
  import opened Registry
  import opened CacheTier
  import opened Reconcile

  ghost function TiersOf(n: Node): Tiers {
    Tiers(n.reg, n.cache)
  }

  // ----- every pass stays within the machine -----

  lemma {:induction false} UnloadKeepsInv(s: Reg, tag: Tag)
    requires Inv(s)
    ensures Inv(Unload(s, tag))
  {
    if IsLoading(s, tag) {
      RequestUnloadKeepsInv(s, tag);
    } else {
      RemoveSlotKeepsInv(s, tag);
    }
  }

  lemma {:induction false} WarmKeepsInv(s: Reg, tag: Tag, devices: Devices)
    requires Inv(s)
    ensures Inv(Warm(s, tag, devices))
  {
    if tag !in s.models {
      InsertKeepsInv(s, tag, devices);
    } else if s.models[tag].state.Failed? {
      ClearFailedKeepsInv(s, tag);
      InsertKeepsInv(s.(models := s.models - {tag}), tag, devices);
    }
  }

  lemma {:induction false} ApplyOneRegInv(n: Node, d: Descriptor, now: nat)
    requires Inv(n.reg)
    ensures Inv(ApplyOne(n, d, now).reg)
  {
    hide Inv;
    UnloadKeepsInv(n.reg, d.tag);
    WarmKeepsInv(n.reg, d.tag, Lookup(n.devices, d.tag));
    WarmKeepsInv(Unload(n.reg, d.tag), d.tag, Lookup(n.devices, d.tag));
  }

  lemma UnloadGuards(s: Reg, tag: Tag)
    ensures Unload(s, tag).nextId == s.nextId && Unload(s, tag).guards == s.guards
  {
  }

  lemma WarmGuards(s: Reg, tag: Tag, devices: Devices, now: nat)
    ensures var s' := WarmReconcile(s, tag, devices, now);
      (s'.nextId == s.nextId && s'.guards == s.guards)
      || (s'.nextId == s.nextId + 1 && s'.guards == s.guards + {s.nextId})
  {
  }

  /** One goal never releases a gate guard, and holds one for every load it starts. */
  lemma {:induction false} ApplyOneGuards(n: Node, d: Descriptor, now: nat)
    ensures var n' := ApplyOne(n, d, now);
      (n'.reg.nextId == n.reg.nextId && n'.reg.guards == n.reg.guards)
      || (d.residency.Process? && n'.reg.nextId == n.reg.nextId + 1 && n'.reg.guards == n.reg.guards + {n.reg.nextId})
  {
    UnloadGuards(n.reg, d.tag);
    WarmGuards(n.reg, d.tag, Lookup(n.devices, d.tag), now);
    WarmGuards(Unload(n.reg, d.tag), d.tag, Lookup(n.devices, d.tag), now);
    hide Unload, WarmReconcile, EnsureCached, ForgetFailed;
  }

  /** `c'` has at most one download that `c` has not: a fresh one behind `guards`. */
  ghost predicate SpawnsOne(c: Cache, c': Cache, priority: Priority, guards: set<nat>) {
    || (c'.downloads == c.downloads && c'.nextDownload == c.nextDownload)
    || exists tag :: c'.nextDownload == c.nextDownload + 1
         && c'.downloads == c.downloads[c.nextDownload := Download(tag, priority, priority.Prefetch?, guards)]
  }

  lemma EnsureSpawnsOne(c: Cache, tag: Tag, priority: Priority, now: nat, guards: set<nat>)
    ensures SpawnsOne(c, EnsureCached(c, tag, priority, now, guards), priority, guards)
    ensures SpawnsOne(c, ForgetFailed(c, tag), priority, guards)
    ensures SpawnsOne(c, c, priority, guards)
  {
  }

  /** What one goal spawns: at most one download, recorded behind the guards of that moment. */
  lemma {:induction false} ApplyOneSpawnsOne(n: Node, d: Descriptor, now: nat)
    ensures var n' := ApplyOne(n, d, now);
      SpawnsOne(n.cache, n'.cache, if d.residency.Process? then Immediate else Prefetch, n'.reg.guards)
  {
    var n' := ApplyOne(n, d, now);
    EnsureSpawnsOne(n.cache, d.tag, Immediate, now, n'.reg.guards);
    EnsureSpawnsOne(n.cache, d.tag, Prefetch, now, n'.reg.guards);
    hide Unload, WarmReconcile, EnsureCached, ForgetFailed, SpawnsOne;
  }

  lemma {:induction false} ApplyOneDownloads(n: Node, d: Descriptor, now: nat)
    ensures var n' := ApplyOne(n, d, now);
      && n'.cache.nextDownload >= n.cache.nextDownload
      && (forall id :: id in n'.cache.downloads && id < n.cache.nextDownload ==>
            id in n.cache.downloads && n'.cache.downloads[id] == n.cache.downloads[id])
      && (forall id :: id in n'.cache.downloads && n.cache.nextDownload <= id ==>
            (id in n.cache.downloads && n'.cache.downloads[id] == n.cache.downloads[id])
            || NewDownload(n'.cache.downloads[id], d, n'.reg.guards))
      && (DownloadsFresh(n) ==> DownloadsFresh(n'))
  {
    hide ApplyOne;
    ApplyOneSpawnsOne(n, d, now);
  }

  ghost predicate NewDownload(w: Download, d: Descriptor, guards: set<nat>) {
    && w.behind == guards && w.priority == (if d.residency.Process? then Immediate else Prefetch)
    && w.waiting == w.priority.Prefetch?
  }

  ghost predicate DownloadsFresh(n: Node) {
    forall id :: id in n.cache.downloads ==> id < n.cache.nextDownload
  }

  lemma {:induction false} ApplyOneKeepsOrder(n: Node, d: Descriptor, now: nat)
    requires TierInv(TiersOf(n))
    ensures PrefetchOrdered(TiersOf(ApplyOne(n, d, now)))
  {
    var n' := ApplyOne(n, d, now);
    ApplyOneGuards(n, d, now);
    ApplyOneDownloads(n, d, now);
    hide ApplyOne;
    forall id, g | id in n'.cache.downloads && g in n'.cache.downloads[id].behind
      ensures g < n'.reg.nextId && (Begun(n'.cache.downloads[id]) ==> g !in n'.reg.guards)
    {
      if id in n.cache.downloads {
        assert n'.cache.downloads[id] == n.cache.downloads[id];
        assert g < n.reg.nextId;
      }
    }
  }

  lemma {:induction false} ApplyOneKeepsTiers(n: Node, d: Descriptor, now: nat)
    requires TierInv(TiersOf(n))
    ensures TierInv(TiersOf(ApplyOne(n, d, now)))
  {
    ApplyOneRegInv(n, d, now);
    ApplyOneKeepsOrder(n, d, now);
    ApplyOneKeepsSingle(n, d, now);
  }

  lemma {:induction false} ApplyOneKeepsSingle(n: Node, d: Descriptor, now: nat)
    requires SingleDownload(n.cache)
    ensures SingleDownload(ApplyOne(n, d, now).cache)
  {
    if Serves(n, d.tag) {
      match d.residency {
        case Process => EnsureKeepsSingle(n.cache, d.tag, Immediate, now, ApplyOne(n, d, now).reg.guards);
        case Disk => EnsureKeepsSingle(n.cache, d.tag, Prefetch, now, ApplyOne(n, d, now).reg.guards);
        case Nowhere => OtherKeepsSingle(n.cache, ForgetFailed(n.cache, d.tag));
      }
    }
  }

  lemma {:induction false} ApplyAllKeepsTiers(n: Node, models: seq<Descriptor>, now: nat)
    requires TierInv(TiersOf(n))
    ensures TierInv(TiersOf(ApplyAll(n, models, now)))
  {
    if |models| > 0 {
      ApplyAllKeepsTiers(n, models[..|models| - 1], now);
      ApplyOneKeepsTiers(ApplyAll(n, models[..|models| - 1], now), models[|models| - 1], now);
    }
  }

  lemma {:induction false} StoreAllKeepsTiers(n: Node, models: seq<Descriptor>)
    ensures TiersOf(StoreAll(n, models)) == TiersOf(n) && StoreAll(n, models).entries == n.entries
    ensures StoreAll(n, models).pinned == n.pinned && StoreAll(n, models).draining == n.draining
  {
    if |models| > 0 {
      StoreAllKeepsTiers(n, models[..|models| - 1]);
    }
  }

  /** Reconciliation keeps single flight, tracked engines, single downloads and prefetch order. */
  lemma ApplyKeepsTiers(n: Node, models: seq<Descriptor>, drain: bool, now: nat)
    requires TierInv(TiersOf(n))
    ensures TierInv(TiersOf(Apply(n, models, drain, now)))
  {
    StoreAllKeepsTiers(n, models);
    ApplyAllKeepsTiers(StoreAll(n, models), ProcessFirst(models), now);
  }

  // ----- prefetches queue behind the pass's loads -----

  /** Every load started since `n` still holds the gate. */
  ghost predicate LoadsGuarded(n: Node, n': Node) {
    && n.reg.nextId <= n'.reg.nextId && n.cache.nextDownload <= n'.cache.nextDownload
    && (forall g :: n.reg.nextId <= g < n'.reg.nextId ==> g in n'.reg.guards)
  }

  /** Every prefetch spawned since `n` waits, queued behind every load started since `n`. */
  ghost predicate PrefetchesQueued(n: Node, n': Node) {
    forall id :: id in n'.cache.downloads && n.cache.nextDownload <= id && n'.cache.downloads[id].priority.Prefetch? ==>
      && n'.cache.downloads[id].waiting
      && forall g :: n.reg.nextId <= g < n'.reg.nextId ==> g in n'.cache.downloads[id].behind
  }

  /** Every download spawned since `n` is an `Immediate` one. */
  ghost predicate NoPrefetchYet(n: Node, n': Node) {
    forall id :: id in n'.cache.downloads && n.cache.nextDownload <= id ==> n'.cache.downloads[id].priority.Immediate?
  }

  ghost predicate PassState(n: Node, n': Node) {
    LoadsGuarded(n, n') && PrefetchesQueued(n, n') && DownloadsFresh(n')
  }

  lemma {:induction false} ProcessStep(n: Node, n1: Node, d: Descriptor, now: nat)
    requires PassState(n, n1) && NoPrefetchYet(n, n1) && d.residency.Process?
    ensures PassState(n, ApplyOne(n1, d, now)) && NoPrefetchYet(n, ApplyOne(n1, d, now))
  {
    ApplyOneGuards(n1, d, now);
    ApplyOneDownloads(n1, d, now);
    hide ApplyOne;
  }

  lemma {:induction false} RestStep(n: Node, n1: Node, d: Descriptor, now: nat)
    requires PassState(n, n1) && !d.residency.Process?
    ensures PassState(n, ApplyOne(n1, d, now))
  {
    var n2 := ApplyOne(n1, d, now);
    ApplyOneGuards(n1, d, now);
    ApplyOneDownloads(n1, d, now);
    hide ApplyOne;
    assert n2.reg.guards == n1.reg.guards && n2.reg.nextId == n1.reg.nextId;
  }

  lemma {:induction false} ProcessPhase(n: Node, models: seq<Descriptor>, now: nat)
    requires DownloadsFresh(n)
    requires forall i :: 0 <= i < |models| ==> models[i].residency.Process?
    ensures PassState(n, ApplyAll(n, models, now)) && NoPrefetchYet(n, ApplyAll(n, models, now))
  {
    if |models| > 0 {
      ProcessPhase(n, models[..|models| - 1], now);
      ProcessStep(n, ApplyAll(n, models[..|models| - 1], now), models[|models| - 1], now);
    }
  }

  lemma {:induction false} RestPhase(n: Node, n1: Node, models: seq<Descriptor>, now: nat)
    requires PassState(n, n1)
    requires forall i :: 0 <= i < |models| ==> !models[i].residency.Process?
    ensures PassState(n, ApplyAll(n1, models, now))
  {
    if |models| > 0 {
      RestPhase(n, n1, models[..|models| - 1], now);
      RestStep(n, ApplyAll(n1, models[..|models| - 1], now), models[|models| - 1], now);
    }
  }

  lemma {:induction false} ApplyAllConcat(n: Node, a: seq<Descriptor>, b: seq<Descriptor>, now: nat)
    ensures ApplyAll(n, a + b, now) == ApplyAll(ApplyAll(n, a, now), b, now)
  {
    if |b| == 0 {
      assert a + b == a;
    } else {
      assert (a + b)[..|a + b| - 1] == a + b[..|b| - 1];
      ApplyAllConcat(n, a, b[..|b| - 1], now);
    }
  }

  lemma PartsAreOfResidency(models: seq<Descriptor>, process: bool)
    ensures forall i :: 0 <= i < |WithResidency(models, process)| ==>
      WithResidency(models, process)[i].residency.Process? == process
  {
    PartMembers(models, process);
    assert forall i :: 0 <= i < |WithResidency(models, process)| ==>
      WithResidency(models, process)[i] in WithResidency(models, process);
  }

  /** Whatever order the plane lists its goals in, every prefetch a pass spawns is queued behind every load
      the same pass starts. */
  lemma {:induction false} PassQueuesPrefetches(n: Node, models: seq<Descriptor>, drain: bool, now: nat)
    requires TierInv(TiersOf(n))
    ensures PrefetchesQueued(n, Apply(n, models, drain, now))
  {
    var stored := StoreAll(n, models);
    StoreAllKeepsTiers(n, models);
    PartsAreOfResidency(models, true);
    PartsAreOfResidency(models, false);
    ProcessPhase(stored, WithResidency(models, true), now);
    RestPhase(stored, ApplyAll(stored, WithResidency(models, true), now), WithResidency(models, false), now);
    ApplyAllConcat(stored, WithResidency(models, true), WithResidency(models, false), now);
  }

  /** A download's record never changes but for starting. */
  lemma {:induction false} RecordPersists(w: Tiers, steps: seq<TierStep>, id: nat)
    requires TierSafe(w) && IsTierRun(w, steps) && id < w.cache.nextDownload
    requires id in TierAfter(w, steps).cache.downloads
    ensures id in w.cache.downloads
    ensures TierAfter(w, steps).cache.downloads[id].behind == w.cache.downloads[id].behind
    ensures TierAfter(w, steps).cache.downloads[id].priority == w.cache.downloads[id].priority
    decreases |steps|
  {
    if |steps| > 0 {
      TierStepKeepsSafe(w, steps[0]);
      RecordPersists(TierNext(w, steps[0]), steps[1..], id);
    }
  }

  /** However the loads and downloads then interleave, a prefetch of the pass that has begun finds every
      load of the pass done with its download. */
  lemma {:induction false} PrefetchWaitsForPass(
      n: Node, models: seq<Descriptor>, drain: bool, now: nat, steps: seq<TierStep>, id: nat, load: nat)
    requires TierInv(TiersOf(n))
    requires var n' := Apply(n, models, drain, now);
      && IsTierRun(TiersOf(n'), steps)
      && n.cache.nextDownload <= id < n'.cache.nextDownload && n.reg.nextId <= load < n'.reg.nextId
      && id in TierAfter(TiersOf(n'), steps).cache.downloads
      && Begun(TierAfter(TiersOf(n'), steps).cache.downloads[id])
    ensures load !in TierAfter(TiersOf(Apply(n, models, drain, now)), steps).reg.guards
  {
    var n' := Apply(n, models, drain, now);
    PassQueuesPrefetches(n, models, drain, now);
    ApplyKeepsTiers(n, models, drain, now);
    TierRunKeepsSafe(TiersOf(n'), steps);
    RecordPersists(TiersOf(n'), steps, id);
    assert load in n'.cache.downloads[id].behind;
  }
}
