/** The cached-tier tracker: at most one download per tag, and prefetches that wait for the gate. */
module CacheTier {
  import opened Registry

  datatype CacheState = Caching | Cached | CacheFailed(error: string, at: nat)

  datatype Priority = Immediate | Prefetch

  /** One spawned download. `behind` records the gate's guards when it was spawned. */
  datatype Download = Download(tag: Tag, priority: Priority, waiting: bool, behind: set<nat>)

  datatype Cache = Cache(states: map<Tag, CacheState>, downloads: map<nat, Download>, nextDownload: nat)

  function NoCache(): Cache {
    Cache(map[], map[], 0)
  }

  function BackingOff(at: nat, now: nat): bool {
    now < at + FAILED_RETRY_BACKOFF
  }

  /** A new request is a no-op while the tag is caching, cached, or failed too recently. */
  predicate CacheNeeded(c: Cache, tag: Tag, now: nat) {
    tag !in c.states || (c.states[tag].CacheFailed? && !BackingOff(c.states[tag].at, now))
  }

  function EnsureCached(c: Cache, tag: Tag, priority: Priority, now: nat, guards: set<nat>): Cache {
    if !CacheNeeded(c, tag, now) then c
    else Cache(
      c.states[tag := Caching],
      c.downloads[c.nextDownload := Download(tag, priority, priority.Prefetch?, guards)],
      c.nextDownload + 1)
  }

  function ForgetFailed(c: Cache, tag: Tag): Cache {
    if tag in c.states && c.states[tag].CacheFailed? then c.(states := c.states - {tag}) else c
  }

  function FinishDownload(c: Cache, id: nat, result: LoadResult, now: nat): Cache
    requires id in c.downloads
  {
    var state := match result
      case Success => Cached
      case Failure(error) => CacheFailed(error, now);
    c.(states := c.states[c.downloads[id].tag := state], downloads := c.downloads - {id})
  }

  // ----- registry, gate and cache together -----

  datatype Tiers = Tiers(reg: Reg, cache: Cache)

  datatype TierStep =
    | RegStep(step: Step)
    | Ensure(tag: Tag, priority: Priority, now: nat)
    | Begin(id: nat)
    | Finish(id: nat, result: LoadResult, now: nat)
    | Forget(tag: Tag)

  ghost predicate TierEnabled(w: Tiers, step: TierStep) {
    match step
    case RegStep(s) => Enabled(w.reg, s)
    case Ensure(_, _, _) => true
    case Begin(id) => id in w.cache.downloads && w.cache.downloads[id].waiting && w.reg.guards == {}
    case Finish(id, _, _) => id in w.cache.downloads && !w.cache.downloads[id].waiting
    case Forget(_) => true
  }

  ghost function TierNext(w: Tiers, step: TierStep): Tiers
    requires TierEnabled(w, step)
  {
    match step
    case RegStep(s) => w.(reg := Next(w.reg, s))
    case Ensure(tag, priority, now) => w.(cache := EnsureCached(w.cache, tag, priority, now, w.reg.guards))
    case Begin(id) =>
      w.(cache := w.cache.(downloads := w.cache.downloads[id := w.cache.downloads[id].(waiting := false)]))
    case Finish(id, result, now) => w.(cache := FinishDownload(w.cache, id, result, now))
    case Forget(tag) => w.(cache := ForgetFailed(w.cache, tag))
  }

  /** A tag has a download exactly while its state is `Caching`, and then one. */
  ghost predicate SingleDownload(c: Cache) {
    && (forall id :: id in c.downloads ==> id < c.nextDownload && c.downloads[id].tag in c.states)
    && (forall id :: id in c.downloads ==> c.states[c.downloads[id].tag].Caching?)
    && (forall tag :: tag in c.states && c.states[tag].Caching? ==>
          exists id :: id in c.downloads && c.downloads[id].tag == tag)
    && (forall a, b :: a in c.downloads && b in c.downloads && c.downloads[a].tag == c.downloads[b].tag ==> a == b)
  }

  predicate Begun(d: Download) {
    d.priority.Prefetch? && !d.waiting
  }

  /** A prefetch that has begun has outlived every guard it was queued behind. */
  ghost predicate PrefetchOrdered(w: Tiers) {
    && (forall id, g :: id in w.cache.downloads && g in w.cache.downloads[id].behind ==> g < w.reg.nextId)
    && (forall id, g :: id in w.cache.downloads && Begun(w.cache.downloads[id]) && g in w.cache.downloads[id].behind ==>
          g !in w.reg.guards)
  }

  /** What no step breaks, a stale remove included. */
  ghost predicate TierSafe(w: Tiers) {
    Wellformed(w.reg) && SingleDownload(w.cache) && PrefetchOrdered(w)
  }

  ghost predicate TierInv(w: Tiers) {
    Inv(w.reg) && TierSafe(w)
  }

  lemma {:induction false} EnsureKeepsSingle(c: Cache, tag: Tag, priority: Priority, now: nat, guards: set<nat>)
    requires SingleDownload(c)
    ensures SingleDownload(EnsureCached(c, tag, priority, now, guards))
  {
    var c' := EnsureCached(c, tag, priority, now, guards);
    forall t | t in c'.states && c'.states[t].Caching?
      ensures exists id :: id in c'.downloads && c'.downloads[id].tag == t
    {
      if t == tag && CacheNeeded(c, tag, now) {
        assert c'.downloads[c.nextDownload].tag == t;
      } else {
        assert t in c.states && c.states[t].Caching?;
        var id :| id in c.downloads && c.downloads[id].tag == t;
        assert c'.downloads[id].tag == t;
      }
    }
  }

  lemma {:induction false} FinishKeepsSingle(c: Cache, id: nat, result: LoadResult, now: nat)
    requires SingleDownload(c) && id in c.downloads
    ensures SingleDownload(FinishDownload(c, id, result, now))
  {
    var c' := FinishDownload(c, id, result, now);
    forall t | t in c'.states && c'.states[t].Caching?
      ensures exists i :: i in c'.downloads && c'.downloads[i].tag == t
    {
      assert t in c.states && c.states[t].Caching?;
      var i :| i in c.downloads && c.downloads[i].tag == t;
      assert i in c'.downloads && c'.downloads[i].tag == t;
    }
  }

  lemma {:induction false} OtherKeepsSingle(c: Cache, c': Cache)
    requires SingleDownload(c) && c'.nextDownload == c.nextDownload && c'.downloads.Keys == c.downloads.Keys
    requires forall id :: id in c.downloads ==> c'.downloads[id].tag == c.downloads[id].tag
    requires forall t :: t in c.states && c.states[t].Caching? <==> t in c'.states && c'.states[t].Caching?
    ensures SingleDownload(c')
  {
    forall t | t in c'.states && c'.states[t].Caching?
      ensures exists id :: id in c'.downloads && c'.downloads[id].tag == t
    {
      assert t in c.states && c.states[t].Caching?;
      var id :| id in c.downloads && c.downloads[id].tag == t;
      assert c'.downloads[id].tag == t;
    }
  }

  /** Registry steps only release guards or add fresh ones. */
  lemma {:induction false} GuardsAreFresh(s: Reg, step: Step, g: nat)
    requires Enabled(s, step)
    ensures Next(s, step).nextId >= s.nextId
    ensures g < s.nextId && g !in s.guards ==> g !in Next(s, step).guards
  {
  }

  lemma {:induction false} RegStepKeepsOrder(w: Tiers, step: Step)
    requires Enabled(w.reg, step) && PrefetchOrdered(w)
    ensures PrefetchOrdered(w.(reg := Next(w.reg, step)))
  {
    forall id, g | id in w.cache.downloads && g in w.cache.downloads[id].behind
      ensures g < Next(w.reg, step).nextId && (g !in w.reg.guards ==> g !in Next(w.reg, step).guards)
    {
      GuardsAreFresh(w.reg, step, g);
    }
  }

  lemma {:induction false} TierStepKeepsSafe(w: Tiers, step: TierStep)
    requires TierSafe(w) && TierEnabled(w, step)
    ensures TierSafe(TierNext(w, step))
  {
    match step {
      case RegStep(s) =>
        StepKeepsWellformed(w.reg, s);
        RegStepKeepsOrder(w, s);
      case Ensure(tag, priority, now) =>
        EnsureKeepsSingle(w.cache, tag, priority, now, w.reg.guards);
        assert forall g :: g in w.reg.guards ==> g < w.reg.nextId;
      case Begin(id) =>
        OtherKeepsSingle(w.cache, TierNext(w, step).cache);
      case Finish(id, result, now) =>
        FinishKeepsSingle(w.cache, id, result, now);
      case Forget(tag) =>
        OtherKeepsSingle(w.cache, ForgetFailed(w.cache, tag));
    }
  }

  /** Unless it is a stale remove, a step keeps single flight and tracked engines too. */
  lemma {:induction false} TierStepKeepsInv(w: Tiers, step: TierStep)
    requires TierInv(w) && TierEnabled(w, step) && (step.RegStep? ==> !StaleRemove(w.reg, step.step))
    ensures TierInv(TierNext(w, step))
  {
    TierStepKeepsSafe(w, step);
    hide TierSafe, Inv;
    if step.RegStep? {
      StepKeepsInv(w.reg, step.step);
    }
  }

  ghost predicate IsTierRun(w: Tiers, steps: seq<TierStep>)
    decreases |steps|
  {
    |steps| == 0 || (TierEnabled(w, steps[0]) && IsTierRun(TierNext(w, steps[0]), steps[1..]))
  }

  ghost function TierAfter(w: Tiers, steps: seq<TierStep>): Tiers
    requires IsTierRun(w, steps)
    decreases |steps|
  {
    if |steps| == 0 then w else TierAfter(TierNext(w, steps[0]), steps[1..])
  }

  /** Over every run of loads, downloads and their interleavings, stale removes included: one download per tag
      exactly while it is `Caching`, and no prefetch has begun while a load it was queued behind holds the gate. */
  lemma {:induction false} TierRunKeepsSafe(w: Tiers, steps: seq<TierStep>)
    requires TierSafe(w) && IsTierRun(w, steps)
    ensures TierSafe(TierAfter(w, steps))
    decreases |steps|
  {
    hide TierSafe, TierEnabled, TierNext;
    if |steps| > 0 {
      TierStepKeepsSafe(w, steps[0]);
      TierRunKeepsSafe(TierNext(w, steps[0]), steps[1..]);
    }
  }

  // ----- what a request for a tag's resources does, and when -----

  ghost predicate SpawnedOne(c: Cache, c': Cache, d: Download) {
    exists id: nat :: id !in c.downloads && c'.downloads == c.downloads[id := d]
  }

  /** A request spawns a download exactly when nothing is known of the tag or its last download failed a minute ago or
      more; it then carries the request's priority and the tag is `Caching`. Otherwise nothing changes. */
  lemma {:induction false} EnsureSpawnsIff(c: Cache, tag: Tag, priority: Priority, now: nat, guards: set<nat>)
    requires SingleDownload(c)
    ensures var c' := EnsureCached(c, tag, priority, now, guards);
      if tag !in c.states || (c.states[tag].CacheFailed? && now >= c.states[tag].at + 60_000)
      then
        && c'.states == c.states[tag := Caching]
        && SpawnedOne(c, c', Download(tag, priority, priority == Prefetch, guards))
      else c' == c
  {
    if CacheNeeded(c, tag, now) {
      var id := c.nextDownload;
      assert id !in c.downloads;
      assert EnsureCached(c, tag, priority, now, guards).downloads
        == c.downloads[id := Download(tag, priority, priority == Prefetch, guards)];
      assert SpawnedOne(c, EnsureCached(c, tag, priority, now, guards),
        Download(tag, priority, priority == Prefetch, guards));
    }
  }

  /** A download that succeeded is the tag's last: no later request spawns another, and nothing forgets it. */
  lemma {:induction false} SuccessIsForGood(
      c: Cache, id: nat, at: nat, priority: Priority, later: nat, guards: set<nat>)
    requires SingleDownload(c) && id in c.downloads
    ensures var c' := FinishDownload(c, id, Success, at); var tag := c.downloads[id].tag;
      && tag in c'.states && c'.states[tag] == Cached && c'.downloads == c.downloads - {id}
      && EnsureCached(c', tag, priority, later, guards) == c' && ForgetFailed(c', tag) == c'
  {
  }

  /** A download that failed is remembered with its error and its time: for a minute no request spawns another, unless
      the failure is forgotten first; after that the next request does. */
  lemma {:induction false} FailureCoolsDown(
      c: Cache, id: nat, error: string, at: nat, priority: Priority, later: nat, guards: set<nat>)
    requires SingleDownload(c) && id in c.downloads
    ensures var c' := FinishDownload(c, id, Failure(error), at); var tag := c.downloads[id].tag;
      && tag in c'.states && c'.states[tag] == CacheFailed(error, at) && c'.downloads == c.downloads - {id}
      && (later < at + 60_000 ==> EnsureCached(c', tag, priority, later, guards) == c')
      && (later >= at + 60_000 ==> EnsureCached(c', tag, priority, later, guards).states[tag] == Caching)
      && EnsureCached(ForgetFailed(c', tag), tag, priority, later, guards).states[tag] == Caching
  {
  }

  /** An immediate download runs at once, whoever holds the gate; a prefetch runs once it has found the gate free. */
  lemma {:induction false} ImmediateNeedsNoGate(w: Tiers, tag: Tag, priority: Priority, now: nat, result: LoadResult)
    requires TierSafe(w) && tag !in w.cache.states
    ensures var w1 := TierNext(w, Ensure(tag, priority, now)); exists id ::
      && id in w1.cache.downloads
      && w1.cache.downloads[id].tag == tag
      && (priority == Immediate ==> TierEnabled(w1, Finish(id, result, now)))
      && (priority == Prefetch ==>
            && !TierEnabled(w1, Finish(id, result, now))
            && (TierEnabled(w1, Begin(id)) <==> w.reg.guards == {})
            && (w.reg.guards == {} ==> TierEnabled(TierNext(w1, Begin(id)), Finish(id, result, now))))
  {
    var w1 := TierNext(w, Ensure(tag, priority, now));
    var id := w.cache.nextDownload;
    assert w1.cache.downloads[id] == Download(tag, priority, priority.Prefetch?, w.reg.guards);
  }

  /** The last load to let go of the gate, while it goes on loading or because it ends, lets every waiting prefetch
      begin. */
  lemma {:induction false} LastGuardFreesPrefetch(w: Tiers, g: nat, id: nat, result: LoadResult, now: nat)
    requires TierSafe(w) && w.reg.guards == {g} && id in w.cache.downloads && w.cache.downloads[id].waiting
    ensures TierEnabled(w, RegStep(ReleaseGuard(g))) && TierEnabled(w, RegStep(Complete(g, result, now)))
    ensures TierEnabled(TierNext(w, RegStep(ReleaseGuard(g))), Begin(id))
    ensures TierEnabled(TierNext(w, RegStep(Complete(g, result, now))), Begin(id))
    ensures g in TierNext(w, RegStep(ReleaseGuard(g))).reg.tasks
  {
  }
}
