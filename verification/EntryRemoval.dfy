/** Exactly when dropping a model's dispatch entry keeps its predictor exclusive. */
module EntryRemoval {
  import opened Wrappers
  import opened Invocation
  import opened CallerService

  ghost predicate AtMostOneCall(s: State) {
    forall a, b :: a in s.tasks && b in s.tasks ==> a == b
  }

  /** However the run goes on, with no further unquiet removal, the predictor is never invoked concurrently. */
  ghost predicate StaysExclusive(s: State) {
    forall more :: IsRun(s, more) && QuietRemovals(s, more) ==> AtMostOneCall(After(s, more))
  }

  /** `more` is a run that removes nothing and ends with the same entry and a native call under way. */
  ghost predicate ReachesCall(s: State, more: seq<Step>) {
    && IsRun(s, more)
    && RemoveEntry !in more
    && After(s, more).tasks != map[]
    && After(s, more).entry == s.entry
  }

  lemma {:induction false} NoRemovalIsQuiet(s: State, steps: seq<Step>)
    requires IsRun(s, steps) && RemoveEntry !in steps
    ensures QuietRemovals(s, steps)
    decreases |steps|
  {
    hide Enabled, Next, Quiet;
    if |steps| > 0 {
      NoRemovalIsQuiet(Next(s, steps[0]), steps[1..]);
    }
  }

  lemma {:induction false} ReachOneStepLater(s: State, step: Step, rest: seq<Step>)
    requires Enabled(s, step) && !step.RemoveEntry? && Next(s, step).entry == s.entry
    requires ReachesCall(Next(s, step), rest)
    ensures ReachesCall(s, [step] + rest)
  {
    hide Enabled, Next;
    Prepend(s, step, rest);
  }

  lemma {:induction false} GuardReachesCall(s: State, c: nat) returns (more: seq<Step>)
    requires c in s.callers && s.callers[c].HoldingGuard?
    ensures ReachesCall(s, more)
  {
    var s1 := Next(s, SpawnCall(c));
    assert s.nextId in s1.tasks;
    assert ReachesCall(s1, []);
    ReachOneStepLater(s, SpawnCall(c), []);
    more := [SpawnCall(c)] + [];
  }

  lemma {:induction false} WaiterReachesCall(s: State, c: nat) returns (more: seq<Step>)
    requires c in s.callers && s.callers[c].AwaitingLock? && s.callers[c].lock !in s.holder
    ensures ReachesCall(s, more)
  {
    var rest := GuardReachesCall(Next(s, TakeLock(c)), c);
    ReachOneStepLater(s, TakeLock(c), rest);
    more := [TakeLock(c)] + rest;
  }

  lemma {:induction false} BatchReachesCall(s: State, w: nat) returns (more: seq<Step>)
    requires w in s.workers && s.workers[w].phase.NeedsLock? && s.workers[w].lock !in s.holder
    ensures ReachesCall(s, more)
  {
    var s1 := Next(s, InvokeBatch(w));
    assert s.nextId in s1.tasks;
    assert ReachesCall(s1, []);
    ReachOneStepLater(s, InvokeBatch(w), []);
    more := [InvokeBatch(w)] + [];
  }

  lemma {:induction false} QueuedReachesCall(s: State, w: nat) returns (more: seq<Step>)
    requires w in s.workers && |s.workers[w].items| > 0 && !s.workers[w].phase.Exited?
    requires s.holder == map[] && s.tasks == map[]
    ensures ReachesCall(s, more)
  {
    if s.workers[w].phase.NeedsLock? {
      more := BatchReachesCall(s, w);
    } else if s.workers[w].phase.Idle? {
      var step := TakeBatch(w, s.workers[w].items, []);
      var rest := BatchReachesCall(Next(s, step), w);
      ReachOneStepLater(s, step, rest);
      more := [step] + rest;
    } else {
      var s1 := Next(s, AnswerBatch(w));
      var step := TakeBatch(w, s1.workers[w].items, []);
      var rest := BatchReachesCall(Next(s1, step), w);
      ReachOneStepLater(s1, step, rest);
      ReachOneStepLater(s, AnswerBatch(w), [step] + rest);
      more := [AnswerBatch(w)] + ([step] + rest);
    }
  }

  lemma {:induction false} SenderReachesCall(s: State, c: nat) returns (more: seq<Step>)
    requires c in s.callers && s.callers[c].Sending? && Accepts(s, s.callers[c].chan)
    requires s.holder == map[] && s.tasks == map[]
    ensures ReachesCall(s, more)
  {
    var rest := QueuedReachesCall(Next(s, Enqueue(c)), s.callers[c].chan);
    ReachOneStepLater(s, Enqueue(c), rest);
    more := [Enqueue(c)] + rest;
  }

  lemma {:induction false} NobodyHolds(s: State)
    requires Guarded(s) && s.tasks == map[]
    requires forall c :: c in s.callers ==> !s.callers[c].HoldingGuard?
    ensures s.holder == map[]
  {
    forall l
      ensures l in s.holder ==> !HeldBy(s, l, s.holder[l])
    {
    }
  }

  /** Unless nothing refers to the old lock, some run invokes the predictor under it. */
  lemma {:induction false} UnquietReachesCall(s: State) returns (more: seq<Step>)
    requires Guarded(s) && Attended(s) && !Quiet(s)
    ensures ReachesCall(s, more)
  {
    if s.tasks != map[] {
      more := [];
    } else if c :| c in s.callers && s.callers[c].HoldingGuard? {
      more := GuardReachesCall(s, c);
    } else {
      NobodyHolds(s);
      if c :| c in s.callers && s.callers[c].AwaitingLock? {
        more := WaiterReachesCall(s, c);
      } else if w :| w in s.workers && s.workers[w].phase.NeedsLock? {
        more := BatchReachesCall(s, w);
      } else if w :| w in s.workers && |s.workers[w].items| > 0 {
        more := QueuedReachesCall(s, w);
      } else {
        var c :| c in s.callers && s.callers[c].Sending?;
        more := SenderReachesCall(s, c);
      }
    }
  }

  /** The route of a caller that finds no entry, up to its wait for the lock it has published. */
  ghost function Approach(n: nat): seq<Step> {
    [Arrive] + ([CheckEntry(n)] + ([BuildEntry(n)] + PublishAndWait(n)))
  }

  ghost function PublishAndWait(n: nat): seq<Step> {
    [PublishEntry(n)] + ([RouteToLock(n)] + [])
  }

  lemma {:induction false} BuilderWaits(s: State, c: nat)
    requires c in s.callers && s.callers[c].Built? && s.entry.None?
    ensures IsRun(s, PublishAndWait(c))
    ensures var end := After(s, PublishAndWait(c));
            && InPhase(end, c, AwaitingLock(s.callers[c].lock))
            && end.holder == s.holder && end.tasks == s.tasks && end.nextId == s.nextId
  {
    var s1 := Next(s, PublishEntry(c));
    assert InPhase(s1, c, Ensured) && s1.entry == Some(Entry(s.callers[c].lock, s.callers[c].chan));
    var s2 := Next(s1, RouteToLock(c));
    assert IsRun(s2, []) && After(s2, []) == s2;
    hide Enabled, IsRun, After;
    Prepend(s1, RouteToLock(c), []);
    Prepend(s, PublishEntry(c), [RouteToLock(c)] + []);
  }

  lemma {:induction false} NewcomerApproaches(s: State)
    requires s.entry.None?
    ensures IsRun(s, Approach(s.nextId))
    ensures var end := After(s, Approach(s.nextId));
            && InPhase(end, s.nextId, AwaitingLock(s.nextId + 1))
            && end.holder == s.holder && end.tasks == s.tasks && end.nextId == s.nextId + 3
  {
    hide Enabled, Next, IsRun, After, PublishAndWait;
    NewcomerBuilds(s);
    var n := s.nextId;
    var s1 := Next(s, Arrive);
    var s2 := Next(s1, CheckEntry(n));
    var s3 := Next(s2, BuildEntry(n));
    BuilderWaits(s3, n);
    Prepend(s2, BuildEntry(n), PublishAndWait(n));
    Prepend(s1, CheckEntry(n), [BuildEntry(n)] + PublishAndWait(n));
    Prepend(s, Arrive, [CheckEntry(n)] + ([BuildEntry(n)] + PublishAndWait(n)));
  }

  /** A caller waiting for a free lock enters the predictor beside whatever call is live. */
  lemma {:induction false} WaiterCalls(s: State, c: nat)
    requires c in s.callers && s.callers[c].AwaitingLock? && s.callers[c].lock !in s.holder
    ensures IsRun(s, [TakeLock(c), SpawnCall(c)])
    ensures After(s, [TakeLock(c), SpawnCall(c)]).tasks.Keys == s.tasks.Keys + {s.nextId}
  {
    var s1 := Next(s, TakeLock(c));
    assert IsRun(Next(s1, SpawnCall(c)), []);
    Prepend(s1, SpawnCall(c), []);
    Prepend(s, TakeLock(c), [SpawnCall(c)] + []);
    assert [TakeLock(c), SpawnCall(c)] == [TakeLock(c)] + ([SpawnCall(c)] + []);
  }

  /** Without an entry, a new caller builds its own and enters the predictor beside whatever call is live. */
  lemma {:induction false} NewcomerCalls(s: State) returns (more: seq<Step>)
    requires Guarded(s) && Fresh(s) && s.entry.None?
    ensures IsRun(s, more) && RemoveEntry !in more
    ensures exists t :: t !in s.tasks && After(s, more).tasks.Keys == s.tasks.Keys + {t}
  {
    var n := s.nextId;
    NewcomerApproaches(s);
    var s1 := After(s, Approach(n));
    assert n + 1 !in s.holder && n + 3 !in s.tasks;
    hide Enabled, Next, IsRun, After, Guarded, Fresh;
    WaiterCalls(s1, n);
    AppendRuns(s, Approach(n), [TakeLock(n), SpawnCall(n)]);
    more := Approach(n) + [TakeLock(n), SpawnCall(n)];
  }

  lemma {:induction false} UnquietRemovalOverlaps(s: State) returns (more: seq<Step>)
    requires Guarded(s) && Fresh(s) && Attended(s) && s.entry.None? && !Quiet(s)
    ensures IsRun(s, more) && QuietRemovals(s, more) && !AtMostOneCall(After(s, more))
  {
    hide Enabled, Next, Guarded, Fresh, Attended, Quiet;
    var first := UnquietReachesCall(s);
    var s1 := After(s, first);
    RunKeepsGuards(s, first);
    var second := NewcomerCalls(s1);
    more := first + second;
    AppendRuns(s, first, second);
    NoRemovalIsQuiet(s, more);
    var live :| live in s1.tasks;
    var added :| added !in s1.tasks && After(s, more).tasks.Keys == s1.tasks.Keys + {added};
    assert live in After(s, more).tasks.Keys && added in After(s, more).tasks.Keys;
  }

  lemma {:induction false} QuietRemovalStaysExclusive(s: State, more: seq<Step>)
    requires Guarded(s) && Fresh(s) && OneLock(s) && IsRun(s, more) && QuietRemovals(s, more)
    ensures AtMostOneCall(After(s, more))
  {
    hide Enabled, Next, Fresh, Quiet;
    RunKeepsGuards(s, more);
    RunKeepsOneLock(s, more);
  }

  /** Removing the entry, as an unload does, keeps the predictor exclusive from then on exactly when no call is
      live under its lock and nobody waits for it, holds it or has a request on its way. */
  lemma {:induction false} RemovalIsSafeIff(buffered: bool, steps: seq<Step>)
    requires IsRun(Init(buffered), steps) && QuietRemovals(Init(buffered), steps)
    ensures var end := After(Init(buffered), steps);
            StaysExclusive(Next(end, RemoveEntry)) <==> Quiet(end)
  {
    hide Next, Enabled, Guarded, Fresh, OneLock, Attended, Quiet, StaysExclusive;
    var end := After(Init(buffered), steps);
    InitIsFree(buffered);
    InitIsAttended(buffered);
    RunKeepsGuards(Init(buffered), steps);
    RunKeepsOneLock(Init(buffered), steps);
    RunKeepsAttended(Init(buffered), steps);
    RemovalSafeFrom(end);
  }

  /** Such a removal: from start-up a first caller gets as far as its native call, and the entry is removed under it. */
  lemma {:induction false} UnsafeRemovalIsReached(buffered: bool) returns (steps: seq<Step>)
    ensures IsRun(Init(buffered), steps) && QuietRemovals(Init(buffered), steps)
    ensures !StaysExclusive(Next(After(Init(buffered), steps), RemoveEntry))
  {
    hide Next, Enabled, Guarded, Fresh, OneLock, Attended, StaysExclusive;
    InitIsFree(buffered);
    steps := NewcomerCalls(Init(buffered));
    NoRemovalIsQuiet(Init(buffered), steps);
    var end := After(Init(buffered), steps);
    var t :| t !in Init(buffered).tasks && end.tasks.Keys == Init(buffered).tasks.Keys + {t};
    assert t in end.tasks.Keys;
    RemovalIsSafeIff(buffered, steps);
  }

  lemma {:induction false} RemovalSafeFrom(s: State)
    requires Guarded(s) && Fresh(s) && OneLock(s) && Attended(s)
    ensures StaysExclusive(Next(s, RemoveEntry)) <==> Quiet(s)
  {
    var s' := Next(s, RemoveEntry);
    StepKeepsGuards(s, RemoveEntry);
    StepKeepsFresh(s, RemoveEntry);
    StepKeepsAttended(s, RemoveEntry);
    assert Quiet(s') == Quiet(s);
    if Quiet(s) {
      StepKeepsOneLock(s, RemoveEntry);
      hide Enabled, Next, Guarded, Fresh, OneLock, Attended, Quiet, AtMostOneCall;
      forall more | IsRun(s', more) && QuietRemovals(s', more)
        ensures AtMostOneCall(After(s', more))
      {
        QuietRemovalStaysExclusive(s', more);
      }
    } else {
      hide Enabled, Next, Guarded, Fresh, OneLock, Attended, Quiet, AtMostOneCall;
      var more := UnquietRemovalOverlaps(s');
    }
  }
}
