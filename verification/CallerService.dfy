/** Nobody waits in vain: who carries a caller's request, and what is left when an accumulator exits. */
module CallerService {
  import opened Wrappers
  import opened Invocation

  ghost predicate Carries(w: Worker, c: nat) {
    c in w.items || (w.phase.NeedsLock? && c in w.phase.batch) || (w.phase.Invoking? && c in w.phase.batch)
  }

  /** A caller awaiting its answer has its request with its channel's worker, and a request still carried belongs
      to a caller of that channel or to one that has gone away. */
  ghost predicate Carried(s: State) {
    && (forall c :: c in s.callers && s.callers[c].AwaitingAnswer? ==>
          s.callers[c].chan in s.workers && Carries(s.workers[s.callers[c].chan], c))
    && (forall w, c :: w in s.workers && Carries(s.workers[w], c) ==>
          c in s.callers && (s.callers[c] == AwaitingAnswer(w) || s.callers[c].Done?))
  }

  /** Nothing can send to a worker that has exited. */
  ghost predicate ExitedIsCutOff(s: State) {
    && (forall w :: w in s.workers && s.workers[w].phase.Exited? && s.entry.Some? ==> s.entry.value.chan != w)
    && (forall c, w :: c in s.callers && w in s.workers && s.workers[w].phase.Exited? ==> !KeepsSender(s.callers[c], w))
    && (forall w :: w in s.workers && s.workers[w].phase.Exited? ==> s.workers[w].items == [])
  }

  /** Only a buffered plan sends, and then every channel that can be sent to has its accumulator. */
  ghost predicate HaveWorkers(s: State) {
    && (s.buffered && s.entry.Some? ==> s.entry.value.chan in s.workers)
    && (forall c :: c in s.callers && s.callers[c].Built? && s.buffered ==> s.callers[c].chan in s.workers)
    && (forall c :: c in s.callers && s.callers[c].Sending? ==> s.buffered && s.callers[c].chan in s.workers)
  }

  ghost predicate Attended(s: State) {
    Carried(s) && ExitedIsCutOff(s) && HaveWorkers(s)
  }

  /** Steps that leave every worker's requests where they are, and no caller's wait for an answer but a
      cancelled one. */
  predicate MovesRequests(step: Step) {
    step.BuildEntry? || step.Enqueue? || step.TakeBatch? || step.InvokeBatch? || step.AnswerBatch? || step.ExitWorker?
  }

  lemma {:induction false} StillStepKeepsCarried(s: State, step: Step)
    requires Carried(s) && Fresh(s) && Enabled(s, step) && !MovesRequests(step)
    ensures Carried(Next(s, step))
  {
    hide Next, Enabled, Carries, Fresh;
    StillStepMovesNobody(s, step);
  }

  lemma {:induction false} StillStepMovesNobody(s: State, step: Step)
    requires Fresh(s) && Enabled(s, step) && !MovesRequests(step)
    ensures StillCallers(s, Next(s, step))
  {
    if KindOf(step) == CallerStep {
      hide Next, Enabled, Fresh, StillCallers;
      CallerStepMovesNobody(s, step);
    }
  }

  lemma {:induction false} CallerStepMovesNobody(s: State, step: Step)
    requires Enabled(s, step) && KindOf(step) == CallerStep
    ensures StillCallers(s, Next(s, step))
  {
  }

  ghost predicate StillCallers(s: State, s': State) {
    && s'.workers == s.workers
    && (forall c :: c in s.callers ==> c in s'.callers)
    && (forall c :: c in s'.callers && s'.callers[c].AwaitingAnswer? ==>
          c in s.callers && s.callers[c] == s'.callers[c])
    && (forall c :: c in s.callers && (s.callers[c].AwaitingAnswer? || s.callers[c].Done?) ==>
          s'.callers[c] == s.callers[c] || s'.callers[c].Done?)
  }

  lemma {:induction false} EnqueueKeepsCarried(s: State, c: nat)
    requires Carried(s) && Enabled(s, Enqueue(c))
    ensures Carried(Next(s, Enqueue(c)))
  {
  }

  lemma {:induction false} TakeBatchKeepsCarried(s: State, w: nat, batch: seq<nat>, rest: seq<nat>)
    requires Carried(s) && Enabled(s, TakeBatch(w, batch, rest))
    ensures Carried(Next(s, TakeBatch(w, batch, rest)))
  {
    var s' := Next(s, TakeBatch(w, batch, rest));
    forall c: nat
      ensures Carries(s'.workers[w], c) <==> Carries(s.workers[w], c)
    {
      SplitMembers(s.workers[w].items, batch, rest, c);
    }
    hide Carries;
  }

  lemma SplitMembers(items: seq<nat>, batch: seq<nat>, rest: seq<nat>, c: nat)
    requires multiset(batch) + multiset(rest) == multiset(items)
    ensures c in items <==> c in batch || c in rest
  {
    assert c in items <==> c in multiset(batch) + multiset(rest);
  }

  lemma {:induction false} InvokeBatchKeepsCarried(s: State, w: nat)
    requires Carried(s) && Enabled(s, InvokeBatch(w))
    ensures Carried(Next(s, InvokeBatch(w)))
  {
    var s' := Next(s, InvokeBatch(w));
    forall c
      ensures Carries(s'.workers[w], c) <==> Carries(s.workers[w], c)
    {
    }
    hide Carries;
  }

  lemma {:induction false} AnswerBatchKeepsCarried(s: State, w: nat)
    requires Carried(s) && Enabled(s, AnswerBatch(w))
    ensures Carried(Next(s, AnswerBatch(w)))
  {
  }

  lemma {:induction false} ExitWorkerKeepsCarried(s: State, w: nat)
    requires Carried(s) && Enabled(s, ExitWorker(w))
    ensures Carried(Next(s, ExitWorker(w)))
  {
  }

  lemma {:induction false} BuildEntryKeepsCarried(s: State, c: nat)
    requires Carried(s) && Fresh(s) && Enabled(s, BuildEntry(c))
    ensures Carried(Next(s, BuildEntry(c)))
  {
  }

  lemma {:induction false} StepKeepsCarried(s: State, step: Step)
    requires Carried(s) && Fresh(s) && Enabled(s, step)
    ensures Carried(Next(s, step))
  {
    hide Enabled, Next, Fresh, Carried;
    match step
    case BuildEntry(c) => BuildEntryKeepsCarried(s, c);
    case Enqueue(c) => EnqueueKeepsCarried(s, c);
    case TakeBatch(w, batch, rest) => TakeBatchKeepsCarried(s, w, batch, rest);
    case InvokeBatch(w) => InvokeBatchKeepsCarried(s, w);
    case AnswerBatch(w) => AnswerBatchKeepsCarried(s, w);
    case ExitWorker(w) => ExitWorkerKeepsCarried(s, w);
    case _ => StillStepKeepsCarried(s, step);
  }

  lemma {:induction false} CallerStepKeepsCutOff(s: State, step: Step)
    requires ExitedIsCutOff(s) && Fresh(s) && Enabled(s, step) && KindOf(step) == CallerStep
    ensures ExitedIsCutOff(Next(s, step))
  {
  }

  lemma {:induction false} TakeStepKeepsCutOff(s: State, step: Step)
    requires ExitedIsCutOff(s) && Fresh(s) && Enabled(s, step) && KindOf(step) == TakeStep
    ensures ExitedIsCutOff(Next(s, step))
  {
  }

  lemma {:induction false} ReleaseStepKeepsCutOff(s: State, step: Step)
    requires ExitedIsCutOff(s) && Fresh(s) && Enabled(s, step) && KindOf(step) == ReleaseStep
    ensures ExitedIsCutOff(Next(s, step))
  {
  }

  lemma {:induction false} EntryStepKeepsCutOff(s: State, step: Step)
    requires ExitedIsCutOff(s) && Fresh(s) && Enabled(s, step) && KindOf(step) == EntryStep
    ensures ExitedIsCutOff(Next(s, step))
  {
  }

  lemma {:induction false} QueueStepKeepsCutOff(s: State, step: Step)
    requires ExitedIsCutOff(s) && Fresh(s) && Enabled(s, step) && KindOf(step) == QueueStep
    ensures ExitedIsCutOff(Next(s, step))
  {
  }

  lemma {:induction false} StepKeepsCutOff(s: State, step: Step)
    requires ExitedIsCutOff(s) && Fresh(s) && Enabled(s, step)
    ensures ExitedIsCutOff(Next(s, step))
  {
    hide Enabled, Next, Fresh, ExitedIsCutOff;
    match KindOf(step)
    case CallerStep => CallerStepKeepsCutOff(s, step);
    case TakeStep => TakeStepKeepsCutOff(s, step);
    case ReleaseStep => ReleaseStepKeepsCutOff(s, step);
    case EntryStep => EntryStepKeepsCutOff(s, step);
    case QueueStep => QueueStepKeepsCutOff(s, step);
  }

  lemma {:induction false} CallerStepKeepsWorkers(s: State, step: Step)
    requires HaveWorkers(s) && Enabled(s, step) && KindOf(step) == CallerStep
    ensures HaveWorkers(Next(s, step))
  {
  }

  lemma {:induction false} TakeStepKeepsWorkers(s: State, step: Step)
    requires HaveWorkers(s) && Enabled(s, step) && KindOf(step) == TakeStep
    ensures HaveWorkers(Next(s, step))
  {
  }

  lemma {:induction false} ReleaseStepKeepsWorkers(s: State, step: Step)
    requires HaveWorkers(s) && Enabled(s, step) && KindOf(step) == ReleaseStep
    ensures HaveWorkers(Next(s, step))
  {
  }

  lemma {:induction false} EntryStepKeepsWorkers(s: State, step: Step)
    requires HaveWorkers(s) && Enabled(s, step) && KindOf(step) == EntryStep
    ensures HaveWorkers(Next(s, step))
  {
  }

  lemma {:induction false} QueueStepKeepsWorkers(s: State, step: Step)
    requires HaveWorkers(s) && Enabled(s, step) && KindOf(step) == QueueStep
    ensures HaveWorkers(Next(s, step))
  {
  }

  lemma {:induction false} StepKeepsWorkers(s: State, step: Step)
    requires HaveWorkers(s) && Enabled(s, step)
    ensures HaveWorkers(Next(s, step))
  {
    hide Enabled, Next, HaveWorkers;
    match KindOf(step)
    case CallerStep => CallerStepKeepsWorkers(s, step);
    case TakeStep => TakeStepKeepsWorkers(s, step);
    case ReleaseStep => ReleaseStepKeepsWorkers(s, step);
    case EntryStep => EntryStepKeepsWorkers(s, step);
    case QueueStep => QueueStepKeepsWorkers(s, step);
  }

  lemma {:induction false} StepKeepsAttended(s: State, step: Step)
    requires Attended(s) && Fresh(s) && Enabled(s, step)
    ensures Attended(Next(s, step))
  {
    hide Enabled, Next, Fresh, Carried, ExitedIsCutOff, HaveWorkers;
    StepKeepsCarried(s, step);
    StepKeepsCutOff(s, step);
    StepKeepsWorkers(s, step);
  }

  lemma {:induction false} InitIsAttended(buffered: bool)
    ensures Attended(Init(buffered))
  {
  }

  lemma {:induction false} RunKeepsAttended(s: State, steps: seq<Step>)
    requires Guarded(s) && Fresh(s) && Attended(s) && IsRun(s, steps)
    ensures Attended(After(s, steps))
    decreases |steps|
  {
    hide Enabled, Next, Guarded, Fresh, Attended;
    if |steps| > 0 {
      StepKeepsGuards(s, steps[0]);
      StepKeepsFresh(s, steps[0]);
      StepKeepsAttended(s, steps[0]);
      RunKeepsAttended(Next(s, steps[0]), steps[1..]);
    }
  }

  /** On every run, removals included: when an accumulator exits, every request it still carries belongs to a
      caller that has gone away. */
  lemma {:induction false} ExitOrphansNobody(buffered: bool, steps: seq<Step>, w: nat, c: nat)
    requires IsRun(Init(buffered), steps) && Enabled(After(Init(buffered), steps), ExitWorker(w))
    requires Carries(After(Init(buffered), steps).workers[w], c)
    ensures c in After(Init(buffered), steps).callers && After(Init(buffered), steps).callers[c] == Done
  {
    hide Next, Guarded, Fresh, OneLock;
    InitIsFree(buffered);
    InitIsAttended(buffered);
    RunKeepsAttended(Init(buffered), steps);
  }

  /** On every run, removals included: a caller still awaiting its answer is carried by a live accumulator, and a
      caller still sending to a buffered model never finds its queue closed. */
  lemma {:induction false} CallersAreServed(steps: seq<Step>, c: nat)
    requires IsRun(Init(true), steps) && c in After(Init(true), steps).callers
    ensures var end := After(Init(true), steps);
            end.callers[c].AwaitingAnswer? ==>
              Accepts(end, end.callers[c].chan) && Carries(end.workers[end.callers[c].chan], c)
    ensures !Enabled(After(Init(true), steps), FindClosed(c))
  {
    hide Next, Guarded, Fresh, OneLock;
    InitIsFree(true);
    InitIsAttended(true);
    RunKeepsAttended(Init(true), steps);
    KeepsBuffered(Init(true), steps);
  }

  lemma {:induction false} StepKeepsBuffered(s: State, step: Step)
    requires Enabled(s, step)
    ensures Next(s, step).buffered == s.buffered
  {
  }

  lemma {:induction false} KeepsBuffered(s: State, steps: seq<Step>)
    requires IsRun(s, steps)
    ensures After(s, steps).buffered == s.buffered
    decreases |steps|
  {
    hide Enabled, Next;
    if |steps| > 0 {
      StepKeepsBuffered(s, steps[0]);
      KeepsBuffered(Next(s, steps[0]), steps[1..]);
    }
  }
}
