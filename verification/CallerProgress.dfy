/** Everybody gets an answer: callers are never stuck, and as long as nobody new arrives they all finish. */
module CallerProgress {
  import opened Wrappers
  import opened Invocation
  import opened CallerService

  // ----- nobody is stuck -----

  /** Steps that move a request on: neither a new caller, nor one going away, nor a removal. */
  predicate Progresses(step: Step) {
    !step.Arrive? && !step.Cancel? && !step.RemoveEntry?
  }

  ghost predicate CanProgress(s: State) {
    exists step :: Progresses(step) && Enabled(s, step)
  }

  /** A task on the blocking pool can always go on. */
  lemma TaskProgresses(s: State, t: nat)
    requires t in s.tasks
    ensures CanProgress(s)
  {
    var step := if s.tasks[t].running then LeaveNative(t) else EnterNative(t);
    assert Progresses(step) && Enabled(s, step);
  }

  /** Whoever holds a lock can go on. */
  lemma {:induction false} HolderProgresses(s: State, lock: nat)
    requires Guarded(s) && lock in s.holder
    ensures CanProgress(s)
  {
    assert HeldBy(s, lock, s.holder[lock]);
    match s.holder[lock]
    case ByTask(t) => TaskProgresses(s, t);
    case ByCaller(c) => assert Progresses(SpawnCall(c)) && Enabled(s, SpawnCall(c));
  }

  /** A live accumulator that carries a request can go on, or waits for somebody who can. */
  lemma {:induction false} WorkerProgresses(s: State, w: nat, c: nat)
    requires Guarded(s) && w in s.workers && Carries(s.workers[w], c) && !s.workers[w].phase.Exited?
    ensures CanProgress(s)
  {
    var worker := s.workers[w];
    match worker.phase {
      case Idle =>
        assert multiset(worker.items) + multiset([]) == multiset(worker.items);
        assert Progresses(TakeBatch(w, worker.items, [])) && Enabled(s, TakeBatch(w, worker.items, []));
      case NeedsLock(_) =>
        if worker.lock in s.holder {
          HolderProgresses(s, worker.lock);
        } else {
          assert Progresses(InvokeBatch(w)) && Enabled(s, InvokeBatch(w));
        }
      case Invoking(t, _) =>
        if t in s.tasks {
          TaskProgresses(s, t);
        } else {
          assert Progresses(AnswerBatch(w)) && Enabled(s, AnswerBatch(w));
        }
      case Exited =>
    }
  }

  lemma {:induction false} CallerProgresses(s: State, c: nat)
    requires Guarded(s) && Attended(s) && c in s.callers && !s.callers[c].Done?
    ensures CanProgress(s)
  {
    match s.callers[c] {
      case Arrived => assert Progresses(CheckEntry(c)) && Enabled(s, CheckEntry(c));
      case SawNoEntry => assert Progresses(BuildEntry(c)) && Enabled(s, BuildEntry(c));
      case Built(_, _) => assert Progresses(PublishEntry(c)) && Enabled(s, PublishEntry(c));
      case Ensured =>
        if s.entry.Some? {
          assert Progresses(RouteToLock(c)) && Enabled(s, RouteToLock(c));
        } else {
          assert Progresses(LoseEntry(c)) && Enabled(s, LoseEntry(c));
        }
      case AwaitingLock(lock) =>
        if lock in s.holder {
          HolderProgresses(s, lock);
        } else {
          assert Progresses(TakeLock(c)) && Enabled(s, TakeLock(c));
        }
      case HoldingGuard(_) => assert Progresses(SpawnCall(c)) && Enabled(s, SpawnCall(c));
      case AwaitingTask(t) =>
        if t in s.tasks {
          TaskProgresses(s, t);
        } else {
          assert Progresses(Return(c)) && Enabled(s, Return(c));
        }
      case Sending(chan) =>
        var step := if Accepts(s, chan) then Enqueue(c) else FindClosed(c);
        assert Progresses(step) && Enabled(s, step);
      case AwaitingAnswer(chan) =>
        assert KeepsSender(s.callers[c], chan) && Carries(s.workers[chan], c);
        WorkerProgresses(s, chan, c);
      case Done =>
    }
  }

  /** No deadlock: on every run, removals and cancellations at any await included, as long as some caller is not done
      somebody can go on without anybody arriving or going away. */
  lemma {:induction false} NoDeadlock(buffered: bool, steps: seq<Step>, c: nat)
    requires IsRun(Init(buffered), steps)
    requires c in After(Init(buffered), steps).callers && !After(Init(buffered), steps).callers[c].Done?
    ensures CanProgress(After(Init(buffered), steps))
  {
    hide Next, Fresh, OneLock, Enabled, Guarded, Attended;
    InitIsFree(buffered);
    InitIsAttended(buffered);
    RunKeepsAttended(Init(buffered), steps);
    RunKeepsGuards(Init(buffered), steps);
    CallerProgresses(After(Init(buffered), steps), c);
  }

  /** A caller is done only when its own native call has ended, its accumulator answers a batch with its request whose
      call has ended, its entry or its queue is gone, or it went away. */
  lemma {:induction false} DoneMeansServed(s: State, step: Step, c: nat)
    requires Enabled(s, step) && c in s.callers && !s.callers[c].Done?
    requires c in Next(s, step).callers && Next(s, step).callers[c].Done?
    requires step != Arrive
    ensures match step
      case Return(d) => d == c && s.callers[c].AwaitingTask? && s.callers[c].task !in s.tasks
      case AnswerBatch(w) =>
        && w in s.workers && s.workers[w].phase.Invoking? && s.workers[w].phase.task !in s.tasks
        && c in s.workers[w].phase.batch && s.callers[c].AwaitingAnswer?
      case LoseEntry(d) => d == c && s.entry.None?
      case FindClosed(d) => d == c && s.callers[c].Sending? && !Accepts(s, s.callers[c].chan)
      case Cancel(d) => d == c
      case _ => false
  {
  }

  /** Who arrived since identifier `n` has neither missed the entry nor built one. */
  ghost predicate LatecomersReuse(s: State, n: nat) {
    && s.entry.Some?
    && forall c :: c in s.callers && c >= n ==> !s.callers[c].SawNoEntry? && !s.callers[c].Built?
  }

  lemma {:induction false} StepKeepsReuse(s: State, step: Step, n: nat)
    requires LatecomersReuse(s, n) && n <= s.nextId && Enabled(s, step) && !step.RemoveEntry?
    ensures LatecomersReuse(Next(s, step), n) && n <= Next(s, step).nextId
  {
  }

  /** As long as an entry is there, nobody who arrives builds another one, with its lock and accumulator. */
  lemma {:induction false} EntryIsReused(s: State, steps: seq<Step>, n: nat)
    requires LatecomersReuse(s, n) && n <= s.nextId && IsRun(s, steps) && RemoveEntry !in steps
    ensures LatecomersReuse(After(s, steps), n)
    decreases |steps|
  {
    hide Enabled, Next, LatecomersReuse;
    if |steps| > 0 {
      StepKeepsReuse(s, steps[0], n);
      EntryIsReused(Next(s, steps[0]), steps[1..], n);
    }
  }

  /** Once nobody is left who could send to it, an accumulator goes away: from every state of every run in which the
      entry is removed and no caller keeps a sender, an idle one can exit. */
  lemma {:induction false} IdleWorkerExits(s: State, w: nat)
    requires w in s.workers && s.workers[w].phase.Idle?
    requires s.entry.None? || s.entry.value.chan != w
    requires forall c :: c in s.callers ==>
      match s.callers[c]
      case Built(_, chan) => chan != w
      case Sending(chan) => chan != w
      case AwaitingAnswer(chan) => chan != w
      case _ => true
    ensures Enabled(s, ExitWorker(w)) && Next(s, ExitWorker(w)).workers[w].items == []
    ensures Next(s, ExitWorker(w)).workers[w].phase == Exited
  {
  }

  // ----- and everybody finishes -----

  /** How far a caller is from done, given that a request on its way costs its accumulator 6 and a native call 2. */
  function CallerRank(phase: Caller): nat {
    match phase
    case Arrived => 13
    case SawNoEntry => 12
    case Built(_, _) => 10
    case Ensured => 9
    case Sending(_) => 8
    case AwaitingLock(_) => 5
    case HoldingGuard(_) => 4
    case AwaitingTask(_) => 1
    case AwaitingAnswer(_) => 1
    case Done => 0
  }

  function WorkerRank(w: Worker): nat {
    match w.phase
    case Idle => 1 + 6 * |w.items|
    case NeedsLock(_) => 6 + 6 * |w.items|
    case Invoking(_, _) => 3 + 6 * |w.items|
    case Exited => 0
  }

  function TaskRank(t: Blocking): nat {
    if t.running then 1 else 2
  }

  /** What the identifier `i` stands for adds to the work left. */
  function RankOf(s: State, i: nat): nat {
    (if i in s.callers then CallerRank(s.callers[i]) else 0)
    + (if i in s.workers then WorkerRank(s.workers[i]) else 0)
    + (if i in s.tasks then TaskRank(s.tasks[i]) else 0)
  }

  /** The work left among the first `n` identifiers. */
  function Rank(s: State, n: nat): nat {
    if n == 0 then 0 else Rank(s, n - 1) + RankOf(s, n - 1)
  }

  /** Only `a` and `b` change. */
  lemma {:induction false} RankMoves(s: State, s': State, n: nat, a: nat, b: nat)
    requires a != b && forall i: nat :: i < n && i != a && i != b ==> RankOf(s', i) == RankOf(s, i)
    ensures Rank(s', n) - Rank(s, n) ==
      (if a < n then RankOf(s', a) - RankOf(s, a) else 0) + (if b < n then RankOf(s', b) - RankOf(s, b) else 0)
  {
    hide RankOf;
    if n > 0 {
      RankMoves(s, s', n - 1, a, b);
    }
  }

  lemma {:induction false} RankFalls(s: State, s': State, n: nat, a: nat)
    requires forall i: nat :: i < n ==> RankOf(s', i) <= RankOf(s, i)
    ensures Rank(s', n) <= Rank(s, n)
    ensures a < n && RankOf(s', a) < RankOf(s, a) ==> Rank(s', n) < Rank(s, n)
  {
    hide RankOf;
    if n > 0 {
      RankFalls(s, s', n - 1, a);
    }
  }

  /** Identifiers not handed out yet stand for nothing. */
  lemma {:induction false} RankBeyond(s: State, n: nat)
    requires Fresh(s) && n >= s.nextId
    ensures Rank(s, n) == Rank(s, s.nextId)
  {
    if n > s.nextId {
      RankBeyond(s, n - 1);
    }
  }

  /** Steps that change what one identifier stands for. */
  predicate MovesOne(step: Step) {
    step.CheckEntry? || step.PublishEntry? || step.RouteToLock? || step.RouteToQueue? || step.FindClosed?
    || step.LoseEntry? || step.TakeLock? || step.Return?
  }

  lemma {:induction false} CallerStepLowers(s: State, step: Step) returns (c: nat)
    requires Fresh(s) && Enabled(s, step) && MovesOne(step)
    ensures Next(s, step).nextId == s.nextId && c < s.nextId && RankOf(Next(s, step), c) < RankOf(s, c)
    ensures forall i: nat :: i != c ==> RankOf(Next(s, step), i) == RankOf(s, i)
  {
    c := step.c;
  }

  lemma {:induction false} TaskStepLowers(s: State, step: Step)
    requires Fresh(s) && Enabled(s, step) && (step.EnterNative? || step.LeaveNative? || step.AbandonTask?)
    ensures Next(s, step).nextId == s.nextId && step.t < s.nextId
    ensures RankOf(Next(s, step), step.t) < RankOf(s, step.t)
    ensures forall i: nat :: i != step.t ==> RankOf(Next(s, step), i) == RankOf(s, i)
  {
  }

  ghost predicate LowersAll(s: State, s': State, a: nat) {
    && s'.nextId == s.nextId && a < s.nextId && RankOf(s', a) < RankOf(s, a)
    && forall i: nat :: RankOf(s', i) <= RankOf(s, i)
  }

  lemma {:induction false} TakingLowers(s: State, step: Step)
    requires Fresh(s) && Enabled(s, step) && step.TakeBatch?
    ensures LowersAll(s, Next(s, step), step.w)
  {
    assert |multiset(step.batch) + multiset(step.rest)| == |multiset(s.workers[step.w].items)|;
  }

  lemma {:induction false} AnsweringLowers(s: State, step: Step)
    requires Fresh(s) && Enabled(s, step) && step.AnswerBatch?
    ensures LowersAll(s, Next(s, step), step.w)
  {
  }

  lemma {:induction false} ExitingLowers(s: State, step: Step)
    requires Fresh(s) && Enabled(s, step) && step.ExitWorker?
    ensures LowersAll(s, Next(s, step), step.w)
  {
  }

  /** One identifier's work becomes less work of another's, or of its own. */
  ghost predicate HandsOver(s: State, s': State, a: nat, b: nat) {
    && s.nextId <= s'.nextId && a < s'.nextId && b < s'.nextId
    && (if a == b then RankOf(s', a) < RankOf(s, a) else RankOf(s', a) + RankOf(s', b) < RankOf(s, a) + RankOf(s, b))
    && forall i: nat :: i != a && i != b ==> RankOf(s', i) == RankOf(s, i)
  }

  lemma {:induction false} BuildingHandsOver(s: State, c: nat)
    requires Fresh(s) && Enabled(s, BuildEntry(c))
    ensures HandsOver(s, Next(s, BuildEntry(c)), c, s.nextId + 1)
  {
  }

  lemma {:induction false} EnqueueHandsOver(s: State, c: nat)
    requires Fresh(s) && Enabled(s, Enqueue(c))
    ensures HandsOver(s, Next(s, Enqueue(c)), c, s.callers[c].chan)
  {
  }

  lemma {:induction false} SpawnHandsOver(s: State, c: nat)
    requires Fresh(s) && Enabled(s, SpawnCall(c))
    ensures HandsOver(s, Next(s, SpawnCall(c)), c, s.nextId)
  {
  }

  lemma {:induction false} InvokeHandsOver(s: State, w: nat)
    requires Fresh(s) && Enabled(s, InvokeBatch(w))
    ensures HandsOver(s, Next(s, InvokeBatch(w)), w, s.nextId)
  {
  }

  lemma {:induction false} WorkerStepLowers(s: State, step: Step)
    requires Fresh(s) && Enabled(s, step) && (step.TakeBatch? || step.AnswerBatch? || step.ExitWorker?)
    ensures LowersAll(s, Next(s, step), step.w)
  {
    hide Fresh, Next, Enabled, LowersAll;
    match step
    case TakeBatch(_, _, _) => TakingLowers(s, step);
    case AnswerBatch(_) => AnsweringLowers(s, step);
    case ExitWorker(_) => ExitingLowers(s, step);
  }

  lemma {:induction false} HandoverLowers(s: State, step: Step) returns (a: nat, b: nat)
    requires Fresh(s) && Enabled(s, step)
    requires step.BuildEntry? || step.Enqueue? || step.SpawnCall? || step.InvokeBatch?
    ensures HandsOver(s, Next(s, step), a, b)
  {
    hide Fresh, Next, HandsOver;
    match step {
      case BuildEntry(c) =>
        a, b := c, s.nextId + 1;
        BuildingHandsOver(s, c);
      case Enqueue(c) =>
        a, b := c, s.callers[c].chan;
        EnqueueHandsOver(s, c);
      case SpawnCall(c) =>
        a, b := c, s.nextId;
        SpawnHandsOver(s, c);
      case InvokeBatch(w) =>
        a, b := w, s.nextId;
        InvokeHandsOver(s, w);
    }
  }

  /** Every step that moves a request on leaves less work. */
  lemma {:induction false} ProgressLowersRank(s: State, step: Step)
    requires Guarded(s) && Fresh(s) && Enabled(s, step) && Progresses(step)
    ensures Rank(Next(s, step), Next(s, step).nextId) < Rank(s, s.nextId)
  {
    hide Enabled, Next, Fresh, Guarded, RankOf;
    var s' := Next(s, step);
    if MovesOne(step) {
      var c := CallerStepLowers(s, step);
      RankFalls(s, s', s.nextId, c);
    } else if step.EnterNative? || step.LeaveNative? || step.AbandonTask? {
      TaskStepLowers(s, step);
      RankFalls(s, s', s.nextId, step.t);
    } else if step.TakeBatch? || step.AnswerBatch? || step.ExitWorker? {
      WorkerStepLowers(s, step);
      RankFalls(s, s', s.nextId, step.w);
    } else {
      var a, b := HandoverLowers(s, step);
      RankBeyond(s, s'.nextId);
      if a == b {
        RankFalls(s, s', s'.nextId, a);
      } else {
        RankMoves(s, s', s'.nextId, a, b);
      }
    }
  }

  ghost predicate OnlyProgress(steps: seq<Step>) {
    forall i :: 0 <= i < |steps| ==> Progresses(steps[i])
  }

  lemma {:induction false} ProgressIsBounded(s: State, more: seq<Step>)
    requires Guarded(s) && Fresh(s) && IsRun(s, more) && OnlyProgress(more)
    ensures |more| <= Rank(s, s.nextId)
    decreases |more|
  {
    hide Enabled, Next, Fresh, Guarded, Rank;
    if |more| > 0 {
      ProgressLowersRank(s, more[0]);
      StepKeepsGuards(s, more[0]);
      StepKeepsFresh(s, more[0]);
      ProgressIsBounded(Next(s, more[0]), more[1..]);
    }
  }

  /** From every state of every run: while nobody arrives or goes away, only so many steps are possible, and when no
      more is, every caller is done. */
  lemma {:induction false} EverybodyFinishes(buffered: bool, steps: seq<Step>, more: seq<Step>)
    requires IsRun(Init(buffered), steps) && IsRun(After(Init(buffered), steps), more) && OnlyProgress(more)
    ensures var s := After(Init(buffered), steps);
      && |more| <= Rank(s, s.nextId)
      && (!CanProgress(After(s, more)) ==>
            forall c :: c in After(s, more).callers ==> After(s, more).callers[c] == Done)
  {
    hide Enabled, Next, Fresh, Guarded, Attended, Rank, OneLock, CanProgress, IsRun, After, Init;
    var s := After(Init(buffered), steps);
    InitIsFree(buffered);
    InitIsAttended(buffered);
    RunKeepsGuards(Init(buffered), steps);
    ProgressIsBounded(s, more);
    AppendRuns(Init(buffered), steps, more);
    if !CanProgress(After(s, more)) {
      forall c | c in After(s, more).callers ensures After(s, more).callers[c] == Done {
        if !After(s, more).callers[c].Done? {
          NoDeadlock(buffered, steps + more, c);
        }
      }
    }
  }
}
