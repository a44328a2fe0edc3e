/** Who may be inside a non-continuous predictor: callers, the accumulator, cancellation, and the guard that
    travels with the native call. One model tag; identifiers are drawn from one counter. */
module Invocation {
  import opened Wrappers

  /** A caller's future, by what it is suspended on. `Done` is finished or cancelled. */
  datatype Caller =
    | Arrived
    | SawNoEntry
    | Built(lock: nat, chan: nat)
    | Ensured
    | AwaitingLock(lock: nat)
    | HoldingGuard(lock: nat)
    | AwaitingTask(task: nat)
    | Sending(chan: nat)
    | AwaitingAnswer(chan: nat)
    | Done

  /** An accumulator task: idle, waiting for the lock with a batch, or waiting for its native call. */
  datatype WorkerPhase =
    | Idle
    | NeedsLock(batch: seq<nat>)
    | Invoking(task: nat, batch: seq<nat>)
    | Exited

  /** `items` are the callers whose requests sit in the channel or the queues. */
  datatype Worker = Worker(lock: nat, phase: WorkerPhase, items: seq<nat>)

  /** A task on the blocking pool owns its lock's guard; `running` once the native call has been entered. */
  datatype Blocking = Blocking(lock: nat, running: bool)

  datatype Holder = ByCaller(caller: nat) | ByTask(task: nat)

  datatype Entry = Entry(lock: nat, chan: nat)

  datatype State = State(
    buffered: bool,
    entry: Option<Entry>,
    callers: map<nat, Caller>,
    workers: map<nat, Worker>,
    tasks: map<nat, Blocking>,
    holder: map<nat, Holder>,
    nextId: nat)

  /** `LoseEntry` is a caller whose lookup finds the entry gone after all, which makes its future panic. A batch may
      be any of the requests a worker carries, so it may pass over earlier ones of other keys. */
  datatype Step =
    | Arrive
    | CheckEntry(c: nat)
    | BuildEntry(c: nat)
    | PublishEntry(c: nat)
    | RouteToLock(c: nat)
    | RouteToQueue(c: nat)
    | Enqueue(c: nat)
    | FindClosed(c: nat)
    | LoseEntry(c: nat)
    | TakeLock(c: nat)
    | SpawnCall(c: nat)
    | EnterNative(t: nat)
    | LeaveNative(t: nat)
    | AbandonTask(t: nat)
    | Return(c: nat)
    | Cancel(c: nat)
    | TakeBatch(w: nat, batch: seq<nat>, rest: seq<nat>)
    | InvokeBatch(w: nat)
    | AnswerBatch(w: nat)
    | ExitWorker(w: nat)
    | RemoveEntry

  function Init(buffered: bool): State {
    State(buffered, None, map[], map[], map[], map[], 0)
  }

  predicate InPhase(s: State, c: nat, phase: Caller) {
    c in s.callers && s.callers[c] == phase
  }

  predicate KeepsSender(phase: Caller, chan: nat) {
    phase == Sending(chan) || phase == AwaitingAnswer(chan) || (phase.Built? && phase.chan == chan)
  }

  /** Something can still send to the channel: the entry, an unpublished entry, or the clone of a caller that is
      sending or awaiting its answer. */
  ghost predicate HasSender(s: State, chan: nat) {
    || (s.entry.Some? && s.entry.value.chan == chan)
    || (exists c :: c in s.callers && KeepsSender(s.callers[c], chan))
  }

  predicate Accepts(s: State, chan: nat) {
    chan in s.workers && !s.workers[chan].phase.Exited?
  }

  ghost predicate Enabled(s: State, step: Step) {
    match step
    case Arrive => true
    case CheckEntry(c) => InPhase(s, c, Arrived)
    case BuildEntry(c) => InPhase(s, c, SawNoEntry)
    case PublishEntry(c) => c in s.callers && s.callers[c].Built?
    case RouteToLock(c) => InPhase(s, c, Ensured) && s.entry.Some?
    case RouteToQueue(c) => InPhase(s, c, Ensured) && s.entry.Some? && s.buffered
    case Enqueue(c) => c in s.callers && s.callers[c].Sending? && Accepts(s, s.callers[c].chan)
    case FindClosed(c) => c in s.callers && s.callers[c].Sending? && !Accepts(s, s.callers[c].chan)
    case LoseEntry(c) => InPhase(s, c, Ensured) && s.entry.None?
    case TakeLock(c) => c in s.callers && s.callers[c].AwaitingLock? && s.callers[c].lock !in s.holder
    case SpawnCall(c) => c in s.callers && s.callers[c].HoldingGuard?
    case EnterNative(t) => t in s.tasks && !s.tasks[t].running
    case LeaveNative(t) => t in s.tasks && s.tasks[t].running
    case AbandonTask(t) => t in s.tasks && !s.tasks[t].running
    case Return(c) => c in s.callers && s.callers[c].AwaitingTask? && s.callers[c].task !in s.tasks
    case Cancel(c) => c in s.callers
    case TakeBatch(w, batch, rest) =>
      && w in s.workers && s.workers[w].phase.Idle? && |batch| >= 1
      && multiset(batch) + multiset(rest) == multiset(s.workers[w].items)
    case InvokeBatch(w) => w in s.workers && s.workers[w].phase.NeedsLock? && s.workers[w].lock !in s.holder
    case AnswerBatch(w) => w in s.workers && s.workers[w].phase.Invoking? && s.workers[w].phase.task !in s.tasks
    case ExitWorker(w) => w in s.workers && s.workers[w].phase.Idle? && !HasSender(s, w)
    case RemoveEntry => true
  }

  function SetCaller(s: State, c: nat, phase: Caller): State {
    s.(callers := s.callers[c := phase])
  }

  /** Move the guard of `lock` onto the blocking pool as a new task. */
  function Spawn(s: State, lock: nat): State {
    s.(tasks := s.tasks[s.nextId := Blocking(lock, false)],
       holder := s.holder[lock := ByTask(s.nextId)],
       nextId := s.nextId + 1)
  }

  function EndTask(s: State, t: nat): State
    requires t in s.tasks
  {
    s.(tasks := s.tasks - {t}, holder := s.holder - {s.tasks[t].lock})
  }

  /** Dropping a caller's future releases a guard it still holds, and nothing else. */
  function DropFuture(s: State, c: nat): State
    requires c in s.callers
  {
    var s' := SetCaller(s, c, Done);
    if s.callers[c].HoldingGuard? then s'.(holder := s.holder - {s.callers[c].lock}) else s'
  }

  ghost function Next(s: State, step: Step): State
    requires Enabled(s, step)
  {
    match step
    case Arrive => SetCaller(s, s.nextId, Arrived).(nextId := s.nextId + 1)
    case CheckEntry(c) => SetCaller(s, c, if s.entry.Some? then Ensured else SawNoEntry)
    case BuildEntry(c) =>
      var lock, chan := s.nextId, s.nextId + 1;
      var s' := SetCaller(s, c, Built(lock, chan)).(nextId := s.nextId + 2);
      if s.buffered then s'.(workers := s.workers[chan := Worker(lock, Idle, [])]) else s'
    case PublishEntry(c) =>
      SetCaller(s, c, Ensured).(entry :=
        if s.entry.Some? then s.entry else Some(Entry(s.callers[c].lock, s.callers[c].chan)))
    case RouteToLock(c) => SetCaller(s, c, AwaitingLock(s.entry.value.lock))
    case RouteToQueue(c) => SetCaller(s, c, Sending(s.entry.value.chan))
    case Enqueue(c) =>
      var chan := s.callers[c].chan;
      var w := s.workers[chan];
      SetCaller(s, c, AwaitingAnswer(chan)).(workers := s.workers[chan := w.(items := w.items + [c])])
    case FindClosed(c) => SetCaller(s, c, Done)
    case LoseEntry(c) => SetCaller(s, c, Done)
    case TakeLock(c) =>
      var lock := s.callers[c].lock;
      SetCaller(s, c, HoldingGuard(lock)).(holder := s.holder[lock := ByCaller(c)])
    case SpawnCall(c) => SetCaller(Spawn(s, s.callers[c].lock), c, AwaitingTask(s.nextId))
    case EnterNative(t) => s.(tasks := s.tasks[t := s.tasks[t].(running := true)])
    case LeaveNative(t) => EndTask(s, t)
    case AbandonTask(t) => EndTask(s, t)
    case Return(c) => SetCaller(s, c, Done)
    case Cancel(c) => DropFuture(s, c)
    case TakeBatch(w, batch, rest) =>
      s.(workers := s.workers[w := s.workers[w].(phase := NeedsLock(batch), items := rest)])
    case InvokeBatch(w) =>
      var worker := s.workers[w];
      var s' := Spawn(s, worker.lock);
      s'.(workers := s.workers[w := worker.(phase := Invoking(s.nextId, worker.phase.batch))])
    case AnswerBatch(w) =>
      var worker := s.workers[w];
      s.(workers := s.workers[w := worker.(phase := Idle)],
         callers := map c | c in s.callers ::
           if c in worker.phase.batch && s.callers[c].AwaitingAnswer? then Done else s.callers[c])
    case ExitWorker(w) => s.(workers := s.workers[w := s.workers[w].(phase := Exited, items := [])])
    case RemoveEntry => s.(entry := None)
  }

  ghost predicate IsRun(s: State, steps: seq<Step>)
    decreases |steps|
  {
    |steps| == 0 || (Enabled(s, steps[0]) && IsRun(Next(s, steps[0]), steps[1..]))
  }

  ghost function After(s: State, steps: seq<Step>): State
    requires IsRun(s, steps)
    decreases |steps|
  {
    if |steps| == 0 then s else After(Next(s, steps[0]), steps[1..])
  }

  lemma {:induction false} Prepend(s: State, step: Step, rest: seq<Step>)
    requires Enabled(s, step) && IsRun(Next(s, step), rest)
    ensures IsRun(s, [step] + rest) && After(s, [step] + rest) == After(Next(s, step), rest)
  {
    hide Enabled, Next;
    assert ([step] + rest)[1..] == rest;
  }

  lemma {:induction false} AppendRuns(s: State, first: seq<Step>, second: seq<Step>)
    requires IsRun(s, first) && IsRun(After(s, first), second)
    ensures IsRun(s, first + second) && After(s, first + second) == After(After(s, first), second)
    decreases |first|
  {
    hide Enabled, Next;
    if |first| == 0 {
      assert first + second == second;
    } else {
      AppendRuns(Next(s, first[0]), first[1..], second);
      assert first + second == [first[0]] + (first[1..] + second);
      Prepend(s, first[0], first[1..] + second);
    }
  }

  // ----- what every run keeps: guards and identifiers -----

  /** A task on the blocking pool is its lock's holder from spawn until it ends, a guard in a caller's future
      makes that caller the holder, and nothing else holds a lock. */
  ghost predicate Guarded(s: State) {
    && (forall t :: t in s.tasks ==> s.tasks[t].lock in s.holder && s.holder[s.tasks[t].lock] == ByTask(t))
    && (forall c :: c in s.callers && s.callers[c].HoldingGuard? ==>
          s.callers[c].lock in s.holder && s.holder[s.callers[c].lock] == ByCaller(c))
    && (forall l :: l in s.holder ==> HeldBy(s, l, s.holder[l]))
  }

  ghost predicate HeldBy(s: State, lock: nat, h: Holder) {
    match h
    case ByTask(t) => t in s.tasks && s.tasks[t].lock == lock
    case ByCaller(c) => c in s.callers && s.callers[c] == HoldingGuard(lock)
  }

  /** Every identifier in use was handed out before. */
  ghost predicate Fresh(s: State) {
    && (forall t :: t in s.tasks ==> t < s.nextId)
    && (forall c :: c in s.callers ==> c < s.nextId)
    && (s.entry.Some? ==> s.entry.value.lock < s.nextId && s.entry.value.chan < s.nextId)
    && (forall c :: c in s.callers ==> LocksBelow(s.callers[c], s.nextId))
    && (forall w :: w in s.workers ==> w < s.nextId && s.workers[w].lock < s.nextId)
    && (forall l :: l in s.holder ==> l < s.nextId)
  }

  predicate LocksBelow(phase: Caller, n: nat) {
    && (phase.Built? ==> phase.lock < n && phase.chan < n)
    && (phase.AwaitingLock? || phase.HoldingGuard? ==> phase.lock < n)
    && (phase.Sending? || phase.AwaitingAnswer? ==> phase.chan < n)
  }

  /** What a step touches: one caller's phase, a guard taken or spawned, a guard used or released, the entry,
      or a worker's requests. */
  datatype Kind = CallerStep | TakeStep | ReleaseStep | EntryStep | QueueStep

  function KindOf(step: Step): Kind {
    match step
    case CheckEntry(_) => CallerStep
    case RouteToLock(_) => CallerStep
    case RouteToQueue(_) => CallerStep
    case FindClosed(_) => CallerStep
    case LoseEntry(_) => CallerStep
    case Return(_) => CallerStep
    case TakeLock(_) => TakeStep
    case SpawnCall(_) => TakeStep
    case InvokeBatch(_) => TakeStep
    case EnterNative(_) => ReleaseStep
    case LeaveNative(_) => ReleaseStep
    case AbandonTask(_) => ReleaseStep
    case Cancel(_) => ReleaseStep
    case Arrive => EntryStep
    case BuildEntry(_) => EntryStep
    case PublishEntry(_) => EntryStep
    case RemoveEntry => EntryStep
    case _ => QueueStep
  }

  lemma {:induction false} CallerStepKeepsFresh(s: State, step: Step)
    requires Fresh(s) && Guarded(s) && Enabled(s, step) && KindOf(step) == CallerStep
    ensures Fresh(Next(s, step))
  {
  }

  lemma {:induction false} TakeStepKeepsFresh(s: State, step: Step)
    requires Fresh(s) && Guarded(s) && Enabled(s, step) && KindOf(step) == TakeStep
    ensures Fresh(Next(s, step))
  {
  }

  lemma {:induction false} ReleaseStepKeepsFresh(s: State, step: Step)
    requires Fresh(s) && Guarded(s) && Enabled(s, step) && KindOf(step) == ReleaseStep
    ensures Fresh(Next(s, step))
  {
  }

  lemma {:induction false} EntryStepKeepsFresh(s: State, step: Step)
    requires Fresh(s) && Guarded(s) && Enabled(s, step) && KindOf(step) == EntryStep
    ensures Fresh(Next(s, step))
  {
  }

  lemma {:induction false} QueueStepKeepsFresh(s: State, step: Step)
    requires Fresh(s) && Guarded(s) && Enabled(s, step) && KindOf(step) == QueueStep
    ensures Fresh(Next(s, step))
  {
  }

  lemma {:induction false} StepKeepsFresh(s: State, step: Step)
    requires Fresh(s) && Guarded(s) && Enabled(s, step)
    ensures Fresh(Next(s, step))
  {
    hide Enabled, Next, Fresh, Guarded;
    match KindOf(step)
    case CallerStep => CallerStepKeepsFresh(s, step);
    case TakeStep => TakeStepKeepsFresh(s, step);
    case ReleaseStep => ReleaseStepKeepsFresh(s, step);
    case EntryStep => EntryStepKeepsFresh(s, step);
    case QueueStep => QueueStepKeepsFresh(s, step);
  }

  lemma {:induction false} CallerStepKeepsGuards(s: State, step: Step)
    requires Guarded(s) && Fresh(s) && Enabled(s, step) && KindOf(step) == CallerStep
    ensures Guarded(Next(s, step))
  {
  }

  lemma {:induction false} TakeLockKeepsGuards(s: State, c: nat)
    requires Guarded(s) && Enabled(s, TakeLock(c))
    ensures Guarded(Next(s, TakeLock(c)))
  {
  }

  lemma {:induction false} SpawnCallKeepsGuards(s: State, c: nat)
    requires Guarded(s) && Fresh(s) && Enabled(s, SpawnCall(c))
    ensures Guarded(Next(s, SpawnCall(c)))
  {
  }

  lemma {:induction false} InvokeBatchKeepsGuards(s: State, w: nat)
    requires Guarded(s) && Fresh(s) && Enabled(s, InvokeBatch(w))
    ensures Guarded(Next(s, InvokeBatch(w)))
  {
  }

  lemma {:induction false} TakeStepKeepsGuards(s: State, step: Step)
    requires Guarded(s) && Fresh(s) && Enabled(s, step) && KindOf(step) == TakeStep
    ensures Guarded(Next(s, step))
  {
    hide Guarded, Fresh, Enabled, Next;
    match step
    case TakeLock(c) => TakeLockKeepsGuards(s, c);
    case SpawnCall(c) => SpawnCallKeepsGuards(s, c);
    case InvokeBatch(w) => InvokeBatchKeepsGuards(s, w);
  }

  lemma {:induction false} EndKeepsGuards(s: State, t: nat)
    requires Guarded(s) && t in s.tasks
    ensures Guarded(EndTask(s, t))
  {
  }

  lemma {:induction false} DropKeepsGuards(s: State, c: nat)
    requires Guarded(s) && c in s.callers
    ensures Guarded(DropFuture(s, c))
  {
  }

  lemma {:induction false} EnterKeepsGuards(s: State, t: nat)
    requires Guarded(s) && t in s.tasks
    ensures Guarded(s.(tasks := s.tasks[t := s.tasks[t].(running := true)]))
  {
  }

  lemma {:induction false} ReleaseStepKeepsGuards(s: State, step: Step)
    requires Guarded(s) && Fresh(s) && Enabled(s, step) && KindOf(step) == ReleaseStep
    ensures Guarded(Next(s, step))
  {
    hide Guarded, Fresh, EndTask, DropFuture;
    match step
    case EnterNative(t) => EnterKeepsGuards(s, t);
    case LeaveNative(t) => EndKeepsGuards(s, t);
    case AbandonTask(t) => EndKeepsGuards(s, t);
    case Cancel(c) => DropKeepsGuards(s, c);
  }

  lemma {:induction false} EntryStepKeepsGuards(s: State, step: Step)
    requires Guarded(s) && Fresh(s) && Enabled(s, step) && KindOf(step) == EntryStep
    ensures Guarded(Next(s, step))
  {
  }

  lemma {:induction false} QueueStepKeepsGuards(s: State, step: Step)
    requires Guarded(s) && Fresh(s) && Enabled(s, step) && KindOf(step) == QueueStep
    ensures Guarded(Next(s, step))
  {
  }

  lemma {:induction false} StepKeepsGuards(s: State, step: Step)
    requires Guarded(s) && Fresh(s) && Enabled(s, step)
    ensures Guarded(Next(s, step))
  {
    hide Enabled, Next, Fresh, Guarded;
    match KindOf(step)
    case CallerStep => CallerStepKeepsGuards(s, step);
    case TakeStep => TakeStepKeepsGuards(s, step);
    case ReleaseStep => ReleaseStepKeepsGuards(s, step);
    case EntryStep => EntryStepKeepsGuards(s, step);
    case QueueStep => QueueStepKeepsGuards(s, step);
  }

  // ----- mutual exclusion -----

  /** A worker with requests, or on its way to a native call. */
  predicate Busy(w: Worker) {
    |w.items| > 0 || w.phase.NeedsLock?
  }

  /** Everything that waits for, holds or runs under a lock does so under the published one. */
  ghost predicate OneLock(s: State) {
    && (forall c :: c in s.callers && (s.callers[c].AwaitingLock? || s.callers[c].HoldingGuard?) ==>
          s.entry.Some? && s.callers[c].lock == s.entry.value.lock)
    && (forall c :: c in s.callers && s.callers[c].Sending? ==>
          s.entry.Some? && s.callers[c].chan == s.entry.value.chan)
    && (forall t :: t in s.tasks ==> s.entry.Some? && s.tasks[t].lock == s.entry.value.lock)
    && (forall w :: w in s.workers && Busy(s.workers[w]) ==>
          s.entry.Some? && w == s.entry.value.chan)
    && (forall c :: c in s.callers && s.callers[c].Built? && s.callers[c].chan in s.workers ==>
          s.workers[s.callers[c].chan].lock == s.callers[c].lock)
    && (s.entry.Some? && s.entry.value.chan in s.workers ==>
          s.workers[s.entry.value.chan].lock == s.entry.value.lock)
  }

  /** Nothing refers to the entry's lock, and no request is on its way to it. */
  ghost predicate Quiet(s: State) {
    && s.tasks == map[]
    && (forall c :: c in s.callers ==>
          !s.callers[c].AwaitingLock? && !s.callers[c].HoldingGuard? && !s.callers[c].Sending?)
    && (forall w :: w in s.workers ==> !Busy(s.workers[w]))
  }

  lemma {:induction false} CallerStepKeepsOneLock(s: State, step: Step)
    requires OneLock(s) && Fresh(s) && Enabled(s, step) && KindOf(step) == CallerStep
    ensures OneLock(Next(s, step))
  {
  }

  lemma {:induction false} TakeStepKeepsOneLock(s: State, step: Step)
    requires OneLock(s) && Fresh(s) && Enabled(s, step) && KindOf(step) == TakeStep
    ensures OneLock(Next(s, step))
  {
  }

  lemma {:induction false} EndKeepsOneLock(s: State, t: nat)
    requires OneLock(s) && t in s.tasks
    ensures OneLock(EndTask(s, t))
  {
  }

  lemma {:induction false} DropKeepsOneLock(s: State, c: nat)
    requires OneLock(s) && c in s.callers
    ensures OneLock(DropFuture(s, c))
  {
  }

  lemma {:induction false} ReleaseStepKeepsOneLock(s: State, step: Step)
    requires OneLock(s) && Fresh(s) && Enabled(s, step) && KindOf(step) == ReleaseStep
    ensures OneLock(Next(s, step))
  {
    hide Fresh, EndTask, DropFuture;
    match step
    case EnterNative(t) =>
    case LeaveNative(t) => EndKeepsOneLock(s, t);
    case AbandonTask(t) => EndKeepsOneLock(s, t);
    case Cancel(c) => DropKeepsOneLock(s, c);
  }

  lemma {:induction false} EntryStepKeepsOneLock(s: State, step: Step)
    requires OneLock(s) && Fresh(s) && Enabled(s, step) && KindOf(step) == EntryStep
    requires step.RemoveEntry? ==> Quiet(s)
    ensures OneLock(Next(s, step))
  {
  }

  lemma {:induction false} QueueStepKeepsOneLock(s: State, step: Step)
    requires OneLock(s) && Fresh(s) && Enabled(s, step) && KindOf(step) == QueueStep
    ensures OneLock(Next(s, step))
  {
  }

  lemma {:induction false} StepKeepsOneLock(s: State, step: Step)
    requires OneLock(s) && Fresh(s) && Enabled(s, step)
    requires step.RemoveEntry? ==> Quiet(s)
    ensures OneLock(Next(s, step))
  {
    hide Enabled, Next, Fresh, OneLock, Quiet;
    match KindOf(step)
    case CallerStep => CallerStepKeepsOneLock(s, step);
    case TakeStep => TakeStepKeepsOneLock(s, step);
    case ReleaseStep => ReleaseStepKeepsOneLock(s, step);
    case EntryStep => EntryStepKeepsOneLock(s, step);
    case QueueStep => QueueStepKeepsOneLock(s, step);
  }

  /** Runs that remove the entry only when nothing refers to its lock; runs that never remove it are among them. */
  ghost predicate QuietRemovals(s: State, steps: seq<Step>)
    requires IsRun(s, steps)
    decreases |steps|
  {
    |steps| == 0 ||
      ((steps[0].RemoveEntry? ==> Quiet(s)) && QuietRemovals(Next(s, steps[0]), steps[1..]))
  }

  lemma {:induction false} InitIsFree(buffered: bool)
    ensures Guarded(Init(buffered)) && Fresh(Init(buffered)) && OneLock(Init(buffered))
  {
    forall l ensures l !in Init(buffered).holder {
    }
  }

  lemma {:induction false} RunKeepsGuards(s: State, steps: seq<Step>)
    requires Guarded(s) && Fresh(s) && IsRun(s, steps)
    ensures Guarded(After(s, steps)) && Fresh(After(s, steps))
    decreases |steps|
  {
    hide Enabled, Next, Guarded, Fresh;
    if |steps| > 0 {
      StepKeepsGuards(s, steps[0]);
      StepKeepsFresh(s, steps[0]);
      RunKeepsGuards(Next(s, steps[0]), steps[1..]);
    }
  }

  lemma {:induction false} RunKeepsOneLock(s: State, steps: seq<Step>)
    requires Guarded(s) && Fresh(s) && OneLock(s) && IsRun(s, steps) && QuietRemovals(s, steps)
    ensures OneLock(After(s, steps))
    decreases |steps|
  {
    hide Enabled, Next, Guarded, Fresh, OneLock, Quiet;
    if |steps| > 0 {
      StepKeepsGuards(s, steps[0]);
      StepKeepsFresh(s, steps[0]);
      StepKeepsOneLock(s, steps[0]);
      RunKeepsOneLock(Next(s, steps[0]), steps[1..]);
    }
  }

  /** On every run from start-up, removals included: a lock has at most one native call, and it is held, by that
      call and not by any caller, for as long as the call lives. */
  lemma {:induction false} OneCallPerLock(buffered: bool, steps: seq<Step>, a: nat, b: nat)
    requires IsRun(Init(buffered), steps)
    requires var end := After(Init(buffered), steps);
      a in end.tasks && b in end.tasks && end.tasks[a].lock == end.tasks[b].lock
    ensures a == b
    ensures var end := After(Init(buffered), steps);
      end.tasks[a].lock in end.holder && end.holder[end.tasks[a].lock] == ByTask(a)
  {
    hide Enabled, Next, Fresh, OneLock;
    InitIsFree(buffered);
    RunKeepsGuards(Init(buffered), steps);
  }

  /** A non-continuous predictor is never invoked concurrently, whoever calls, races or is cancelled when. */
  lemma {:induction false} NeverConcurrent(buffered: bool, steps: seq<Step>, a: nat, b: nat)
    requires IsRun(Init(buffered), steps) && QuietRemovals(Init(buffered), steps)
    requires a in After(Init(buffered), steps).tasks && b in After(Init(buffered), steps).tasks
    ensures a == b
  {
    hide Enabled, Next, Fresh;
    InitIsFree(buffered);
    RunKeepsGuards(Init(buffered), steps);
    RunKeepsOneLock(Init(buffered), steps);
  }

  // ----- when a lookup can fail -----

  /** Among the steps that change the entry, a removal comes last. */
  ghost predicate RemovedLast(steps: seq<Step>) {
    exists i :: 0 <= i < |steps| && steps[i].RemoveEntry? && NonePublished(steps, i)
  }

  ghost predicate NonePublished(steps: seq<Step>, i: nat) {
    forall j :: i < j < |steps| ==> !steps[j].PublishEntry?
  }

  lemma {:induction false} StepSetsEntry(s: State, step: Step)
    requires Enabled(s, step)
    ensures Next(s, step).entry.None? <==> step.RemoveEntry? || (s.entry.None? && !step.PublishEntry?)
  {
  }

  /** A run ends without an entry exactly when a removal comes last, or it had none and none was published. */
  lemma {:induction false} EntryGoneIff(s: State, steps: seq<Step>)
    requires IsRun(s, steps)
    ensures After(s, steps).entry.None? <==>
      RemovedLast(steps) || (s.entry.None? && forall j :: 0 <= j < |steps| ==> !steps[j].PublishEntry?)
    decreases |steps|
  {
    hide Enabled, Next;
    if |steps| > 0 {
      var rest := steps[1..];
      StepSetsEntry(s, steps[0]);
      EntryGoneIff(Next(s, steps[0]), rest);
      RemovedLastTail(steps);
    }
  }

  lemma {:induction false} RemovedLastTail(steps: seq<Step>)
    requires |steps| > 0
    ensures RemovedLast(steps) <==>
      RemovedLast(steps[1..])
      || (steps[0].RemoveEntry? && forall j :: 0 <= j < |steps[1..]| ==> !steps[1..][j].PublishEntry?)
  {
    var rest := steps[1..];
    if i :| 0 <= i < |steps| && steps[i].RemoveEntry? && NonePublished(steps, i) {
      if i > 0 {
        assert rest[i - 1].RemoveEntry? && NonePublished(rest, i - 1);
      }
    }
    if i :| 0 <= i < |rest| && rest[i].RemoveEntry? && NonePublished(rest, i) {
      assert NonePublished(steps, i + 1) by {
        forall j | i + 1 < j < |steps| ensures !steps[j].PublishEntry? {
          assert steps[j] == rest[j - 1];
        }
      }
    }
    if steps[0].RemoveEntry? && (forall j :: 0 <= j < |rest| ==> !rest[j].PublishEntry?) {
      assert NonePublished(steps, 0) by {
        forall j | 0 < j < |steps| ensures !steps[j].PublishEntry? {
          assert steps[j] == rest[j - 1];
        }
      }
    }
  }

  /** From the moment a caller is sure of its entry, its lookup can panic exactly while it has not looked yet and a
      removal was the last thing to happen to the entry: a later publication makes up for the removal. */
  lemma {:induction false} LookupPanicsIff(s: State, step: Step, c: nat, rest: seq<Step>)
    requires Enabled(s, step) && (step == CheckEntry(c) || step == PublishEntry(c))
    requires InPhase(Next(s, step), c, Ensured)
    requires IsRun(Next(s, step), rest)
    ensures var end := After(Next(s, step), rest);
      Enabled(end, LoseEntry(c)) <==> InPhase(end, c, Ensured) && RemovedLast(rest)
  {
    assert Next(s, step).entry.Some?;
    hide Next, RemovedLast;
    EntryGoneIff(Next(s, step), rest);
  }

  lemma {:induction false} NewcomerBuilds(s: State)
    requires s.entry.None?
    ensures Enabled(s, Arrive) && Enabled(Next(s, Arrive), CheckEntry(s.nextId))
    ensures var s2 := Next(Next(s, Arrive), CheckEntry(s.nextId));
            Enabled(s2, BuildEntry(s.nextId))
            && var s3 := Next(s2, BuildEntry(s.nextId));
               && InPhase(s3, s.nextId, Built(s.nextId + 1, s.nextId + 2)) && s3.entry.None?
               && s3.nextId == s.nextId + 3 && s3.holder == s.holder && s3.tasks == s.tasks
  {
  }

  lemma {:induction false} RemovedAfterPublishing(s: State, c: nat)
    requires c in s.callers && s.callers[c].Built? && s.entry.None?
    ensures IsRun(s, [PublishEntry(c)] + ([RemoveEntry] + []))
    ensures Enabled(After(s, [PublishEntry(c)] + ([RemoveEntry] + [])), LoseEntry(c))
  {
    var s1 := Next(s, PublishEntry(c));
    var s2 := Next(s1, RemoveEntry);
    assert Enabled(s2, LoseEntry(c));
    assert IsRun(s2, []) && After(s2, []) == s2;
    hide IsRun, After;
    Prepend(s1, RemoveEntry, []);
    Prepend(s, PublishEntry(c), [RemoveEntry] + []);
  }

  /** Such a run: one caller builds and publishes its entry, which is removed before the caller looks it up. */
  lemma {:induction false} PanicIsReached(buffered: bool)
    ensures var steps := [Arrive, CheckEntry(0), BuildEntry(0), PublishEntry(0), RemoveEntry];
      IsRun(Init(buffered), steps) && Enabled(After(Init(buffered), steps), LoseEntry(0))
  {
    var s := Init(buffered);
    assert s.entry.None? && s.nextId == 0;
    hide Enabled, Next, IsRun, After, Init;
    NewcomerBuilds(s);
    var s1 := Next(s, Arrive);
    var s2 := Next(s1, CheckEntry(0));
    var s3 := Next(s2, BuildEntry(0));
    var rest := [PublishEntry(0)] + ([RemoveEntry] + []);
    RemovedAfterPublishing(s3, 0);
    Prepend(s2, BuildEntry(0), rest);
    Prepend(s1, CheckEntry(0), [BuildEntry(0)] + rest);
    Prepend(s, Arrive, [CheckEntry(0)] + ([BuildEntry(0)] + rest));
    assert [Arrive] + ([CheckEntry(0)] + ([BuildEntry(0)] + rest)) ==
      [Arrive, CheckEntry(0), BuildEntry(0), PublishEntry(0), RemoveEntry];
  }

  /** Without removals no caller ever loses its entry. */
  lemma {:induction false} NoRemovalNoLoss(buffered: bool, steps: seq<Step>, c: nat)
    requires IsRun(Init(buffered), steps) && RemoveEntry !in steps
    ensures !Enabled(After(Init(buffered), steps), LoseEntry(c))
  {
    hide Next;
    NoRemovalKeepsSure(Init(buffered), steps);
  }

  /** A caller that is sure of the entry has one to look up. */
  ghost predicate SureOfEntry(s: State) {
    forall c :: InPhase(s, c, Ensured) ==> s.entry.Some?
  }

  lemma {:induction false} StepKeepsSure(s: State, step: Step)
    requires SureOfEntry(s) && Enabled(s, step) && !step.RemoveEntry?
    ensures SureOfEntry(Next(s, step))
  {
    var s' := Next(s, step);
    if s'.entry.None? {
      assert s.entry.None?;
      forall c ensures InPhase(s', c, Ensured) ==> InPhase(s, c, Ensured) {
      }
    }
  }

  lemma {:induction false} NoRemovalKeepsSure(s: State, steps: seq<Step>)
    requires SureOfEntry(s) && IsRun(s, steps) && RemoveEntry !in steps
    ensures SureOfEntry(After(s, steps))
    decreases |steps|
  {
    hide Enabled, Next, SureOfEntry;
    if |steps| > 0 {
      StepKeepsSure(s, steps[0]);
      NoRemovalKeepsSure(Next(s, steps[0]), steps[1..]);
    }
  }

  // ----- the dispatcher itself -----

  /** The dispatcher's shared entry and everything that refers to it, updated in place one atomic section at a time. */
  class Dispatcher {
    const buffered: bool
    var entry: Option<Entry>
    var callers: map<nat, Caller>
    var workers: map<nat, Worker>
    var tasks: map<nat, Blocking>
    var holder: map<nat, Holder>
    var nextId: nat

    function Contents(): State
      reads this
    {
      State(buffered, entry, callers, workers, tasks, holder, nextId)
    }

    constructor (buffered: bool)
      ensures Contents() == Init(buffered)
    {
      this.buffered := buffered;
      entry, callers, workers, tasks, holder, nextId := None, map[], map[], map[], map[], 0;
    }

    /** First half of `ensure_entry`: see whether there is an entry, and build one if not. The accumulator is
        spawned before anybody knows whether this entry will be published. */
    method CheckAndBuild(c: nat)
      requires Enabled(Contents(), CheckEntry(c))
      modifies this
      ensures old(entry).Some? ==> Contents() == Next(old(Contents()), CheckEntry(c))
      ensures old(entry).None? ==>
        Contents() == Next(Next(old(Contents()), CheckEntry(c)), BuildEntry(c))
    {
      if entry.Some? {
        callers := callers[c := Ensured];
      } else {
        ghost var seen := Next(Contents(), CheckEntry(c));
        var lock, chan := nextId, nextId + 1;
        nextId := nextId + 2;
        if buffered {
          workers := workers[chan := Worker(lock, Idle, [])];
        }
        callers := callers[c := Built(lock, chan)];
        assert callers == seen.callers[c := Built(lock, chan)];
      }
    }

    /** Second half of `ensure_entry`: the first to publish wins, and everybody uses the winner's lock. */
    method Publish(c: nat)
      requires Enabled(Contents(), PublishEntry(c))
      modifies this
      ensures Contents() == Next(old(Contents()), PublishEntry(c))
      ensures entry.Some? && (old(entry).Some? ==> entry == old(entry))
    {
      if entry.None? {
        entry := Some(Entry(callers[c].lock, callers[c].chan));
      }
      callers := callers[c := Ensured];
    }

    /** Hand the guard to the blocking pool with the native call. */
    method Run(c: nat) returns (task: nat)
      requires Enabled(Contents(), SpawnCall(c))
      modifies this
      ensures Contents() == Next(old(Contents()), SpawnCall(c))
      ensures task in tasks && tasks[task].lock in holder && holder[tasks[task].lock] == ByTask(task)
    {
      task := nextId;
      var lock := callers[c].lock;
      tasks := tasks[task := Blocking(lock, false)];
      holder := holder[lock := ByTask(task)];
      callers := callers[c := AwaitingTask(task)];
      nextId := nextId + 1;
    }

    method Remove()
      modifies this
      ensures Contents() == Next(old(Contents()), RemoveEntry)
    {
      entry := None;
    }
  }
}
