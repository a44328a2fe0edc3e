/** The per-path download lock table: reference-counted mutexes in a map, with every finishing download racing
    the others to clean up. Paths, locks and tasks are identifiers; a step is one map access or one await. */
module DownloadLocks {

  type Path = string

  /** Where a download is. `Released` has dropped the guard and not yet cleaned up; `Cleaned` still owns its
      reference to the mutex; `Gone` is returned or cancelled and owns nothing. */
  datatype Phase = Waiting | Probing | Transferring | Released | Cleaned | Gone

  datatype Task = Task(path: Path, lock: nat, phase: Phase)

  datatype State = State(
    locks: map<Path, nat>,
    tasks: map<nat, Task>,
    holder: map<nat, nat>,
    files: set<Path>,
    nextLock: nat)

  datatype Step =
    | Start(t: nat, path: Path)
    | Acquire(t: nat)
    | FindFile(t: nat)
    | BeginTransfer(t: nat, unreadable: bool)
    | EndTransfer(t: nat, ok: bool)
    | CleanUp(t: nat)
    | Return(t: nat)
    | Cancel(t: nat)
    | DeleteFile(path: Path)

  function Init(files: set<Path>): State {
    State(map[], map[], map[], files, 0)
  }

  predicate In(s: State, t: nat, phase: Phase) {
    t in s.tasks && s.tasks[t].phase == phase
  }

  /** The tasks that own a reference to a mutex. */
  function Owners(s: State, lock: nat): set<nat> {
    set t | t in s.tasks && s.tasks[t].phase != Gone && s.tasks[t].lock == lock
  }

  /** The mutex's reference count: the map's reference and every task's. */
  function StrongCount(s: State, lock: nat): nat {
    1 + |Owners(s, lock)|
  }

  predicate HoldsGuard(phase: Phase) {
    phase == Probing || phase == Transferring
  }

  /** A probe that fails (`unreadable`) counts as a missing file. */
  predicate Enabled(s: State, step: Step) {
    match step
    case Start(t, _) => t !in s.tasks
    case Acquire(t) => In(s, t, Waiting) && s.tasks[t].lock !in s.holder
    case FindFile(t) => In(s, t, Probing) && s.tasks[t].path in s.files
    case BeginTransfer(t, unreadable) => In(s, t, Probing) && (unreadable || s.tasks[t].path !in s.files)
    case EndTransfer(t, _) => In(s, t, Transferring)
    case CleanUp(t) => In(s, t, Released)
    case Return(t) => In(s, t, Cleaned)
    case Cancel(t) => In(s, t, Waiting) || In(s, t, Probing) || In(s, t, Transferring)
    case DeleteFile(_) => true
  }

  function Move(s: State, t: nat, phase: Phase): State
    requires t in s.tasks
  {
    s.(tasks := s.tasks[t := s.tasks[t].(phase := phase)])
  }

  /** Move a task out of the critical section, dropping its guard. */
  function Leave(s: State, t: nat, phase: Phase): State
    requires t in s.tasks
  {
    Move(s, t, phase).(holder := s.holder - {s.tasks[t].lock})
  }

  ghost function Next(s: State, step: Step): State
    requires Enabled(s, step)
  {
    match step
    case Start(t, path) =>
      if path in s.locks then
        s.(tasks := s.tasks[t := Task(path, s.locks[path], Waiting)])
      else
        s.(locks := s.locks[path := s.nextLock],
           tasks := s.tasks[t := Task(path, s.nextLock, Waiting)],
           nextLock := s.nextLock + 1)
    case Acquire(t) => Move(s, t, Probing).(holder := s.holder[s.tasks[t].lock := t])
    case FindFile(t) => Leave(s, t, Released)
    case BeginTransfer(t, _) => Move(s, t, Transferring)
    case EndTransfer(t, ok) =>
      Leave(s, t, Released).(files := if ok then s.files + {s.tasks[t].path} else s.files)
    case CleanUp(t) =>
      var path := s.tasks[t].path;
      var s' := Move(s, t, Cleaned);
      if path in s.locks && StrongCount(s, s.locks[path]) <= 2 then s'.(locks := s.locks - {path}) else s'
    case Return(t) => Move(s, t, Gone)
    case Cancel(t) => if s.tasks[t].phase == Waiting then Move(s, t, Gone) else Leave(s, t, Gone)
    case DeleteFile(path) => s.(files := s.files - {path})
  }

  ghost predicate IsRun(s: State, steps: seq<Step>)
    decreases |steps|
  {
    |steps| == 0 || (Enabled(s, steps[0]) && IsRun(Next(s, steps[0]), steps[1..]))
  }

  ghost function After(s: State, steps: seq<Step>): State
    requires IsRun(s, steps)
    decreases |steps|
  {
    if |steps| == 0 then s else After(Next(s, steps[0]), steps[1..])
  }

  /** A task that still has to use, or clean up, its mutex. */
  predicate Active(phase: Phase) {
    phase != Cleaned && phase != Gone
  }

  /** Every active task's mutex is the one in the map. */
  ghost predicate Mapped(s: State) {
    forall t :: t in s.tasks && Active(s.tasks[t].phase) ==>
      s.tasks[t].path in s.locks && s.locks[s.tasks[t].path] == s.tasks[t].lock
  }

  /** A guard holder is the mutex's holder; distinct paths have distinct mutexes, none handed out twice. */
  ghost predicate Sound(s: State) {
    && (forall t :: t in s.tasks && HoldsGuard(s.tasks[t].phase) ==>
          s.tasks[t].lock in s.holder && s.holder[s.tasks[t].lock] == t)
    && (forall t :: t in s.tasks ==> s.tasks[t].lock < s.nextLock)
    && (forall p :: p in s.locks ==> s.locks[p] < s.nextLock)
    && (forall p, q :: p in s.locks && q in s.locks && s.locks[p] == s.locks[q] ==> p == q)
  }

  lemma {:induction false} OnlyOne(members: set<nat>, a: nat, b: nat)
    requires a in members && b in members && |members| <= 1
    ensures a == b
  {
    assert |members - {a}| == 0;
    assert b !in members - {a};
  }

  /** The cleaning task's own reference and the map's are the two it may count; anyone else's keeps the mutex. */
  lemma {:induction false} CleanUpSparesOthers(s: State, t: nat, other: nat)
    requires Mapped(s) && In(s, t, Released)
    requires other in s.tasks && other != t && s.tasks[other].phase != Gone && s.tasks[other].lock == s.tasks[t].lock
    ensures Next(s, CleanUp(t)).locks == s.locks
  {
    var owners := Owners(s, s.tasks[t].lock);
    assert t in owners && other in owners;
    if |owners| <= 1 {
      OnlyOne(owners, t, other);
    }
  }

  /** A finishing download drops the map entry exactly when nobody else refers to the mutex. */
  lemma {:induction false} CleanUpRemovesIff(s: State, t: nat)
    requires Mapped(s) && In(s, t, Released)
    ensures s.tasks[t].path !in Next(s, CleanUp(t)).locks <==> Owners(s, s.tasks[t].lock) == {t}
    ensures forall p :: p != s.tasks[t].path ==> (p in Next(s, CleanUp(t)).locks <==> p in s.locks)
  {
    var owners := Owners(s, s.tasks[t].lock);
    assert t in owners;
    if |owners| <= 1 {
      forall other | other in owners ensures other == t {
        OnlyOne(owners, t, other);
      }
    }
  }

  lemma {:induction false} CleanUpKeepsMapped(s: State, t: nat)
    requires Mapped(s) && Sound(s) && In(s, t, Released)
    ensures Mapped(Next(s, CleanUp(t)))
  {
    var s' := Next(s, CleanUp(t));
    forall u | u in s'.tasks && Active(s'.tasks[u].phase)
      ensures s'.tasks[u].path in s'.locks && s'.locks[s'.tasks[u].path] == s'.tasks[u].lock
    {
      if s.tasks[u].path == s.tasks[t].path {
        CleanUpSparesOthers(s, t, u);
      }
    }
  }

  lemma {:induction false} StepKeepsMapped(s: State, step: Step)
    requires Mapped(s) && Sound(s) && Enabled(s, step)
    ensures Mapped(Next(s, step))
  {
    hide StrongCount, Owners;
    if step.CleanUp? {
      CleanUpKeepsMapped(s, step.t);
    }
  }

  lemma {:induction false} StepKeepsSound(s: State, step: Step)
    requires Sound(s) && Enabled(s, step)
    ensures Sound(Next(s, step))
  {
    hide StrongCount, Owners;
  }

  ghost predicate Inv(s: State) {
    Mapped(s) && Sound(s)
  }

  lemma {:induction false} StepKeepsInv(s: State, step: Step)
    requires Inv(s) && Enabled(s, step)
    ensures Inv(Next(s, step))
  {
    hide Enabled, Next, Mapped, Sound;
    StepKeepsMapped(s, step);
    StepKeepsSound(s, step);
  }

  lemma {:induction false} RunKeepsInv(s: State, steps: seq<Step>)
    requires Inv(s) && IsRun(s, steps)
    ensures Inv(After(s, steps))
    decreases |steps|
  {
    hide Enabled, Next, Inv;
    if |steps| > 0 {
      StepKeepsInv(s, steps[0]);
      RunKeepsInv(Next(s, steps[0]), steps[1..]);
    }
  }

  /** On every run, every task that waits for, holds or has just released a mutex has the one in the map, and two
      tasks inside the critical section for one path are the same task. */
  lemma {:induction false} SingleFlight(files: set<Path>, steps: seq<Step>, a: nat, b: nat)
    requires IsRun(Init(files), steps)
    requires var end := After(Init(files), steps);
             && a in end.tasks && b in end.tasks && end.tasks[a].path == end.tasks[b].path
             && Active(end.tasks[a].phase) && Active(end.tasks[b].phase)
    ensures var end := After(Init(files), steps);
            && end.tasks[a].path in end.locks
            && end.tasks[a].lock == end.tasks[b].lock == end.locks[end.tasks[a].path]
            && (HoldsGuard(end.tasks[a].phase) && HoldsGuard(end.tasks[b].phase) ==> a == b)
  {
    hide Enabled, Next;
    RunKeepsInv(Init(files), steps);
  }

  // ----- how often a file is transferred -----

  /** How many transfers of `path` succeed along the run. */
  ghost function Successes(s: State, steps: seq<Step>, path: Path): nat
    requires IsRun(s, steps)
    decreases |steps|
  {
    if |steps| == 0 then 0
    else (if Succeeds(s, steps[0], path) then 1 else 0) + Successes(Next(s, steps[0]), steps[1..], path)
  }

  predicate Succeeds(s: State, step: Step, path: Path) {
    step.EndTransfer? && step.ok && step.t in s.tasks && s.tasks[step.t].path == path
  }

  /** How many deletions of `path` find it there. */
  ghost function Deletions(s: State, steps: seq<Step>, path: Path): nat
    requires IsRun(s, steps)
    decreases |steps|
  {
    if |steps| == 0 then 0
    else (if Deletes(s, steps[0], path) then 1 else 0) + Deletions(Next(s, steps[0]), steps[1..], path)
  }

  predicate Deletes(s: State, step: Step, path: Path) {
    step == DeleteFile(path) && path in s.files
  }

  /** How many successful transfers of `path` replace a file that is already there. */
  ghost function Overwrites(s: State, steps: seq<Step>, path: Path): nat
    requires IsRun(s, steps)
    decreases |steps|
  {
    if |steps| == 0 then 0
    else
      (if Succeeds(s, steps[0], path) && path in s.files then 1 else 0)
      + Overwrites(Next(s, steps[0]), steps[1..], path)
  }

  /** How many transfers of `path` begin because the existence probe failed. */
  ghost function BlindStarts(s: State, steps: seq<Step>, path: Path): nat
    requires IsRun(s, steps)
    decreases |steps|
  {
    if |steps| == 0 then 0
    else (if StartsBlind(s, steps[0], path) then 1 else 0) + BlindStarts(Next(s, steps[0]), steps[1..], path)
  }

  predicate StartsBlind(s: State, step: Step, path: Path) {
    step.BeginTransfer? && step.unreadable && step.t in s.tasks && s.tasks[step.t].path == path
  }

  function Present(s: State, path: Path): nat {
    if path in s.files then 1 else 0
  }

  lemma {:induction false} StepBalances(s: State, step: Step, path: Path)
    requires Enabled(s, step)
    ensures (if Succeeds(s, step, path) then 1 else 0) + Present(s, path)
      == Present(Next(s, step), path) + (if Deletes(s, step, path) then 1 else 0)
       + (if Succeeds(s, step, path) && path in s.files then 1 else 0)
  {
    hide StrongCount, Owners;
  }

  /** The file's account: every successful transfer puts it in place, makes up for a deletion, or replaces it. */
  lemma {:induction false} TransfersBalance(s: State, steps: seq<Step>, path: Path)
    requires IsRun(s, steps)
    ensures Successes(s, steps, path) + Present(s, path)
      == Present(After(s, steps), path) + Deletions(s, steps, path) + Overwrites(s, steps, path)
    decreases |steps|
  {
    hide Enabled, Next, Succeeds, Deletes, Present;
    if |steps| > 0 {
      StepBalances(s, steps[0], path);
      TransfersBalance(Next(s, steps[0]), steps[1..], path);
    }
  }

  /** A transfer is under way for a file that is in place. */
  ghost predicate Redundant(s: State, path: Path) {
    path in s.files && exists t :: In(s, t, Transferring) && s.tasks[t].path == path
  }

  /** A step makes a transfer redundant only by starting it blind, and replacing the file ends it. */
  lemma {:induction false} StepRedundant(s: State, step: Step, path: Path)
    requires Inv(s) && Enabled(s, step)
    ensures Redundant(Next(s, step), path) ==> Redundant(s, path) || StartsBlind(s, step, path)
    ensures Succeeds(s, step, path) ==> !Redundant(Next(s, step), path)
    ensures Succeeds(s, step, path) && path in s.files ==> Redundant(s, path)
  {
    hide StrongCount, Owners;
    var s' := Next(s, step);
    if step.EndTransfer? && s.tasks[step.t].path == path {
      NoOtherInside(s, step.t);
    }
    if Redundant(s', path) {
      var t :| In(s', t, Transferring) && s'.tasks[t].path == path;
      assert !StartsBlind(s, step, path) ==> In(s, t, Transferring) || path !in s.files;
    }
  }

  lemma {:induction false} NoOtherInside(s: State, t: nat)
    requires Inv(s) && t in s.tasks && HoldsGuard(s.tasks[t].phase)
    ensures forall u :: u in s.tasks && u != t && s.tasks[u].path == s.tasks[t].path ==> !HoldsGuard(s.tasks[u].phase)
  {
  }

  /** However many downloads race, a file in place is replaced at most once for each probe that failed. */
  lemma {:induction false} OverwritesAreBlind(s: State, steps: seq<Step>, path: Path)
    requires Inv(s) && IsRun(s, steps)
    ensures Overwrites(s, steps, path) <= BlindStarts(s, steps, path) + (if Redundant(s, path) then 1 else 0)
    decreases |steps|
  {
    hide Enabled, Next, Inv, Redundant, Succeeds, StartsBlind;
    if |steps| > 0 {
      StepKeepsInv(s, steps[0]);
      StepRedundant(s, steps[0], path);
      OverwritesAreBlind(Next(s, steps[0]), steps[1..], path);
    }
  }

  /** On every run, the successful transfers of a file are one if it came to be there, one more for each deletion that
      found it, and beyond that at most one for each failed probe. */
  lemma {:induction false} TransfersAreNeeded(files: set<Path>, steps: seq<Step>, path: Path)
    requires IsRun(Init(files), steps)
    ensures var s := Init(files);
      var needed := Present(After(s, steps), path) - Present(s, path) + Deletions(s, steps, path);
      needed <= Successes(s, steps, path) <= needed + BlindStarts(s, steps, path)
  {
    hide Enabled, Next;
    TransfersBalance(Init(files), steps, path);
    OverwritesAreBlind(Init(files), steps, path);
  }

  /** Nobody deletes the file, and no probe fails. */
  ghost predicate Untouched(steps: seq<Step>, path: Path) {
    forall i :: 0 <= i < |steps| ==> steps[i] != DeleteFile(path) && (steps[i].BeginTransfer? ==> !steps[i].unreadable)
  }

  lemma {:induction false} UntouchedHasNone(s: State, steps: seq<Step>, path: Path)
    requires IsRun(s, steps) && Untouched(steps, path)
    ensures Deletions(s, steps, path) == BlindStarts(s, steps, path) == 0
    ensures path in s.files ==> path in After(s, steps).files
    decreases |steps|
  {
    hide StrongCount, Owners;
    if |steps| > 0 {
      assert path in s.files ==> path in Next(s, steps[0]).files;
      UntouchedHasNone(Next(s, steps[0]), steps[1..], path);
    }
  }

  /** In particular, exactly one transfer puts an untouched file in place, and none does when it was there. */
  lemma {:induction false} OneTransferPerFile(files: set<Path>, steps: seq<Step>, path: Path)
    requires IsRun(Init(files), steps) && Untouched(steps, path)
    ensures Successes(Init(files), steps, path)
      == (if path !in files && path in After(Init(files), steps).files then 1 else 0)
  {
    hide Enabled, Next;
    TransfersAreNeeded(files, steps, path);
    UntouchedHasNone(Init(files), steps, path);
  }

  // ----- what stays in the table -----

  /** The step is a cleanup by the only task that still refers to its mutex. */
  predicate Sweeps(s: State, step: Step) {
    step.CleanUp? && In(s, step.t, Released) && Owners(s, s.tasks[step.t].lock) == {step.t}
  }

  /** The mutexes swept along the run. */
  ghost function Swept(s: State, steps: seq<Step>): set<nat>
    requires IsRun(s, steps)
    decreases |steps|
  {
    if |steps| == 0 then {}
    else SweptBy(s, steps[0]) + Swept(Next(s, steps[0]), steps[1..])
  }

  function SweptBy(s: State, step: Step): set<nat> {
    if Sweeps(s, step) then {s.tasks[step.t].lock} else {}
  }

  /** A mutex some task has used is in the map unless it is in `gone`; nothing else is in the map. */
  ghost predicate Accounted(s: State, gone: set<nat>) {
    && (forall t :: t in s.tasks ==> (IsMapped(s, t) <==> s.tasks[t].lock !in gone))
    && (forall p :: p in s.locks ==> exists t :: UsesFor(s, t, p))
    && (forall a, b :: a in s.tasks && b in s.tasks && s.tasks[a].lock == s.tasks[b].lock ==>
          s.tasks[a].path == s.tasks[b].path)
    && (forall l :: l in gone ==> l < s.nextLock)
  }

  predicate IsMapped(s: State, t: nat)
    requires t in s.tasks
  {
    s.tasks[t].path in s.locks && s.locks[s.tasks[t].path] == s.tasks[t].lock
  }

  predicate UsesFor(s: State, t: nat, path: Path) {
    t in s.tasks && s.tasks[t].path == path && path in s.locks && s.locks[path] == s.tasks[t].lock
  }

  /** Steps that leave the map alone, and every task its path and mutex, change no account. */
  lemma {:induction false} SameMapAccounts(s: State, s': State, gone: set<nat>)
    requires Accounted(s, gone) && s'.locks == s.locks && s'.nextLock == s.nextLock && s'.tasks.Keys == s.tasks.Keys
    requires forall t :: t in s.tasks ==> s'.tasks[t].path == s.tasks[t].path && s'.tasks[t].lock == s.tasks[t].lock
    ensures Accounted(s', gone)
  {
    forall t | t in s'.tasks ensures IsMapped(s', t) <==> s'.tasks[t].lock !in gone {
      assert IsMapped(s, t) <==> IsMapped(s', t);
    }
    forall p | p in s'.locks ensures exists t :: UsesFor(s', t, p) {
      var t :| UsesFor(s, t, p);
      assert UsesFor(s', t, p);
    }
  }

  lemma {:induction false} StartKnownAccounts(s: State, t: nat, path: Path, gone: set<nat>)
    requires Accounted(s, gone) && t !in s.tasks && path in s.locks
    ensures Accounted(s.(tasks := s.tasks[t := Task(path, s.locks[path], Waiting)]), gone)
  {
    var s' := s.(tasks := s.tasks[t := Task(path, s.locks[path], Waiting)]);
    var known :| UsesFor(s, known, path);
    assert IsMapped(s, known);
    forall u | u in s'.tasks ensures IsMapped(s', u) <==> s'.tasks[u].lock !in gone {
      if u != t {
        assert IsMapped(s, u) <==> IsMapped(s', u);
      }
    }
    forall p | p in s'.locks ensures exists u :: UsesFor(s', u, p) {
      var u :| UsesFor(s, u, p);
      assert UsesFor(s', u, p);
    }
  }

  lemma {:induction false} StartFreshAccounts(s: State, t: nat, path: Path, gone: set<nat>)
    requires Sound(s) && Accounted(s, gone) && t !in s.tasks && path !in s.locks
    ensures Accounted(Next(s, Start(t, path)), gone)
  {
    var s' := Next(s, Start(t, path));
    hide StrongCount, Owners;
    forall u | u in s'.tasks ensures IsMapped(s', u) <==> s'.tasks[u].lock !in gone {
      if u != t {
        assert IsMapped(s, u) <==> IsMapped(s', u);
      }
    }
    forall p | p in s'.locks ensures exists u :: UsesFor(s', u, p) {
      if p == path {
        assert UsesFor(s', t, p);
      } else {
        var u :| UsesFor(s, u, p);
        assert UsesFor(s', u, p);
      }
    }
  }

  lemma {:induction false} SweepAccounts(s: State, t: nat, gone: set<nat>)
    requires Inv(s) && Accounted(s, gone) && Sweeps(s, CleanUp(t))
    ensures Accounted(Next(s, CleanUp(t)), gone + {s.tasks[t].lock})
  {
    CleanUpRemovesIff(s, t);
    hide Owners, StrongCount;
    var s' := Next(s, CleanUp(t));
    assert IsMapped(s, t) && s'.locks == s.locks - {s.tasks[t].path};
    forall u | u in s'.tasks ensures IsMapped(s', u) <==> s'.tasks[u].lock !in gone + {s.tasks[t].lock} {
      assert IsMapped(s, u) <==> s.tasks[u].lock !in gone;
    }
    forall p | p in s'.locks ensures exists u :: UsesFor(s', u, p) {
      var u :| UsesFor(s, u, p);
      assert UsesFor(s', u, p);
    }
  }

  lemma {:induction false} StepKeepsNames(s: State, step: Step)
    requires Inv(s) && Enabled(s, step) && !step.Start? && !Sweeps(s, step)
    ensures var s' := Next(s, step);
      && s'.locks == s.locks && s'.nextLock == s.nextLock && s'.tasks.Keys == s.tasks.Keys
      && forall t :: t in s.tasks ==> s'.tasks[t].path == s.tasks[t].path && s'.tasks[t].lock == s.tasks[t].lock
  {
    if step.CleanUp? {
      CleanUpRemovesIff(s, step.t);
    }
    hide Owners, StrongCount;
  }

  lemma {:induction false} StepAccounts(s: State, step: Step, gone: set<nat>)
    requires Inv(s) && Enabled(s, step) && Accounted(s, gone)
    ensures Accounted(Next(s, step), gone + SweptBy(s, step))
  {
    hide Owners, StrongCount, Accounted, Mapped;
    if step.Start? {
      assert gone + SweptBy(s, step) == gone;
      if step.path in s.locks {
        StartKnownAccounts(s, step.t, step.path, gone);
      } else {
        hide Next;
        StartFreshAccounts(s, step.t, step.path, gone);
      }
    } else if Sweeps(s, step) {
      SweepAccounts(s, step.t, gone);
    } else {
      assert gone + SweptBy(s, step) == gone;
      hide Next, Sweeps, Enabled;
      StepKeepsNames(s, step);
      SameMapAccounts(s, Next(s, step), gone);
    }
  }

  lemma {:induction false} RunAccounts(s: State, steps: seq<Step>, gone: set<nat>)
    requires Inv(s) && IsRun(s, steps) && Accounted(s, gone)
    ensures Accounted(After(s, steps), gone + Swept(s, steps))
    decreases |steps|
  {
    hide Enabled, Next, Inv, Accounted, SweptBy;
    if |steps| == 0 {
      assert gone + Swept(s, steps) == gone;
    } else {
      StepKeepsInv(s, steps[0]);
      StepAccounts(s, steps[0], gone);
      RunAccounts(Next(s, steps[0]), steps[1..], gone + SweptBy(s, steps[0]));
      assert gone + Swept(s, steps) == gone + SweptBy(s, steps[0]) + Swept(Next(s, steps[0]), steps[1..]);
    }
  }

  lemma {:induction false} EmptyIffGone(s: State, gone: set<nat>)
    requires Accounted(s, gone)
    ensures s.locks == map[] <==> forall t :: t in s.tasks ==> s.tasks[t].lock in gone
  {
    if p :| p in s.locks {
      var t :| UsesFor(s, t, p);
      assert IsMapped(s, t);
    } else {
      assert s.locks == map[];
      forall t | t in s.tasks ensures s.tasks[t].lock in gone {
        assert !IsMapped(s, t);
      }
    }
  }

  /** After any run the table is empty exactly when every mutex any download used has been swept: cleaned up by a
      task that was the last to refer to it. Downloads cancelled, or cleaning up beside one another, sweep nothing. */
  lemma {:induction false} TableEmptyIff(files: set<Path>, steps: seq<Step>)
    requires IsRun(Init(files), steps)
    ensures var end := After(Init(files), steps);
      end.locks == map[] <==> forall t :: t in end.tasks ==> end.tasks[t].lock in Swept(Init(files), steps)
  {
    hide Enabled, Next, SweptBy;
    RunAccounts(Init(files), steps, {});
    assert {} + Swept(Init(files), steps) == Swept(Init(files), steps);
    EmptyIffGone(After(Init(files), steps), Swept(Init(files), steps));
  }

  /** Two downloads of one path that have both let go of the guard before either cleans up leave the entry behind for
      good: nobody refers to it and neither cleanup removes it. */
  lemma {:induction false} OverlappingCleanUpsLeave(s: State, a: nat, b: nat)
    requires Inv(s) && In(s, a, Released) && In(s, b, Released) && a != b && s.tasks[a].path == s.tasks[b].path
    requires Owners(s, s.tasks[a].lock) == {a, b}
    ensures var steps := [CleanUp(a), CleanUp(b), Return(a), Return(b)];
      && IsRun(s, steps) && s.tasks[a].path in After(s, steps).locks
      && Owners(After(s, steps), s.tasks[a].lock) == {}
  {
    var s1 := Next(s, CleanUp(a));
    CleanUpSparesOthers(s, a, b);
    StepKeepsInv(s, CleanUp(a));
    CleanUpSparesOthers(s1, b, a);
    var s2 := Next(s1, CleanUp(b));
    var s3 := Next(s2, Return(a));
    var s4 := Next(s3, Return(b));
    assert s4.locks == s.locks;
    var steps := [CleanUp(a), CleanUp(b), Return(a), Return(b)];
    assert steps[1..] == [CleanUp(b), Return(a), Return(b)] && steps[1..][1..] == [Return(a), Return(b)];
    assert steps[1..][1..][1..] == [Return(b)] && steps[1..][1..][1..][1..] == [];
    assert IsRun(s4, []) && IsRun(s3, [Return(b)]) && IsRun(s2, [Return(a), Return(b)]) && IsRun(s1, steps[1..]);
    assert After(s3, [Return(b)]) == s4 && After(s2, [Return(a), Return(b)]) == s4 && After(s1, steps[1..]) == s4;
    forall t ensures t !in Owners(s4, s.tasks[a].lock) {
      assert t in s.tasks && t != a && t != b ==> t !in Owners(s, s.tasks[a].lock);
    }
  }

  /** A run that gets there: the second download waits while the first transfers, finds the file, and lets go of the
      guard before the first has cleaned up. */
  function TwoAtOnce(path: Path): seq<Step> {
    [Start(0, path)] + ([Start(1, path)] + OneWaits())
  }

  function OneWaits(): seq<Step> {
    [Acquire(0)] + ([BeginTransfer(0, false)] + Handover())
  }

  function Handover(): seq<Step> {
    [EndTransfer(0, true)] + ([Acquire(1)] + ([FindFile(1)] + []))
  }

  lemma {:induction false} Prepend(s: State, step: Step, rest: seq<Step>)
    requires Enabled(s, step) && IsRun(Next(s, step), rest)
    ensures IsRun(s, [step] + rest) && After(s, [step] + rest) == After(Next(s, step), rest)
  {
    hide Enabled, Next;
    assert ([step] + rest)[1..] == rest;
  }

  lemma {:induction false} HandsOver(s: State, path: Path)
    requires s.tasks == map[0 := Task(path, 0, Transferring), 1 := Task(path, 0, Waiting)] && s.holder == map[0 := 0]
    ensures IsRun(s, Handover())
    ensures After(s, Handover()).tasks == map[0 := Task(path, 0, Released), 1 := Task(path, 0, Released)]
  {
    var s1 := Next(s, EndTransfer(0, true));
    assert s1.holder == map[];
    var s2 := Next(s1, Acquire(1));
    var s3 := Next(s2, FindFile(1));
    assert s3.tasks == map[0 := Task(path, 0, Released), 1 := Task(path, 0, Released)];
    assert IsRun(s3, []) && After(s3, []) == s3;
    hide IsRun, After;
    Prepend(s2, FindFile(1), []);
    Prepend(s1, Acquire(1), [FindFile(1)] + []);
    Prepend(s, EndTransfer(0, true), [Acquire(1)] + ([FindFile(1)] + []));
  }

  lemma {:induction false} LetsOneIn(s: State, path: Path)
    requires s.tasks == map[0 := Task(path, 0, Waiting), 1 := Task(path, 0, Waiting)] && s.holder == map[]
    requires path !in s.files
    ensures IsRun(s, OneWaits())
    ensures After(s, OneWaits()).tasks == map[0 := Task(path, 0, Released), 1 := Task(path, 0, Released)]
  {
    var s1 := Next(s, Acquire(0));
    var s2 := Next(s1, BeginTransfer(0, false));
    assert s2.tasks == map[0 := Task(path, 0, Transferring), 1 := Task(path, 0, Waiting)];
    HandsOver(s2, path);
    hide IsRun, After, Handover;
    Prepend(s1, BeginTransfer(0, false), Handover());
    Prepend(s, Acquire(0), [BeginTransfer(0, false)] + Handover());
  }

  lemma {:induction false} OverlapIsReached(path: Path)
    ensures IsRun(Init({}), TwoAtOnce(path))
    ensures var s := After(Init({}), TwoAtOnce(path));
      && Inv(s) && In(s, 0, Released) && In(s, 1, Released) && s.tasks[0].path == s.tasks[1].path == path
      && Owners(s, s.tasks[0].lock) == {0, 1}
  {
    var s1 := Next(Init({}), Start(0, path));
    var s2 := Next(s1, Start(1, path));
    assert s2.tasks == map[0 := Task(path, 0, Waiting), 1 := Task(path, 0, Waiting)];
    LetsOneIn(s2, path);
    hide IsRun, After, OneWaits, Inv;
    Prepend(s1, Start(1, path), OneWaits());
    Prepend(Init({}), Start(0, path), [Start(1, path)] + OneWaits());
    RunKeepsInv(Init({}), TwoAtOnce(path));
  }

  /** A download leaves its critical section with the file in place, unless its transfer failed or it was cancelled; and
      only for want of the file does it transfer, unless its probe failed. */
  lemma {:induction false} SuccessMeansPresent(s: State, step: Step, t: nat)
    requires Enabled(s, step) && t in s.tasks && HoldsGuard(s.tasks[t].phase)
    requires In(Next(s, step), t, Released) && step != EndTransfer(t, false)
    ensures s.tasks[t].path in Next(s, step).files && s.tasks[t].lock !in Next(s, step).holder
  {
    hide StrongCount, Owners;
  }

  // ----- nobody waits in vain -----

  /** A mutex is held only by a task inside its critical section. */
  ghost predicate HeldInside(s: State) {
    forall l :: l in s.holder ==>
      s.holder[l] in s.tasks && s.tasks[s.holder[l]].lock == l && HoldsGuard(s.tasks[s.holder[l]].phase)
  }

  lemma {:induction false} StepKeepsHeldInside(s: State, step: Step)
    requires HeldInside(s) && Sound(s) && Enabled(s, step)
    ensures HeldInside(Next(s, step))
  {
    hide StrongCount, Owners;
  }

  lemma {:induction false} RunKeepsHeldInside(s: State, steps: seq<Step>)
    requires HeldInside(s) && Inv(s) && IsRun(s, steps)
    ensures HeldInside(After(s, steps))
    decreases |steps|
  {
    hide Enabled, Next, HeldInside;
    if |steps| > 0 {
      StepKeepsHeldInside(s, steps[0]);
      StepKeepsInv(s, steps[0]);
      RunKeepsHeldInside(Next(s, steps[0]), steps[1..]);
    }
  }

  function PhaseRank(phase: Phase): nat {
    match phase
    case Waiting => 5
    case Probing => 4
    case Transferring => 3
    case Released => 2
    case Cleaned => 1
    case Gone => 0
  }

  /** The step is a download's own next one, and brings it nearer its end. */
  ghost predicate Advances(s: State, step: Step, t: nat)
    requires Enabled(s, step)
  {
    && t in s.tasks && t in Next(s, step).tasks && PhaseRank(Next(s, step).tasks[t].phase) < PhaseRank(s.tasks[t].phase)
    && forall u :: u in s.tasks && u != t ==> u in Next(s, step).tasks && Next(s, step).tasks[u] == s.tasks[u]
  }

  lemma {:induction false} InsideAdvances(s: State, t: nat) returns (step: Step)
    requires t in s.tasks && s.tasks[t].phase != Gone && s.tasks[t].phase != Waiting
    ensures Enabled(s, step) && !step.Cancel? && Advances(s, step, t)
  {
    hide StrongCount, Owners;
    match s.tasks[t].phase
    case Probing => step := if s.tasks[t].path in s.files then FindFile(t) else BeginTransfer(t, false);
    case Transferring => step := EndTransfer(t, false);
    case Released => step := CleanUp(t);
    case Cleaned => step := Return(t);
  }

  /** No deadlock: on every run, cancellations and deletions included, a download that has not returned can take its
      next step, or waits for the mutex of another that can; and each such step brings one download nearer its end. */
  lemma {:induction false} DownloadsGoOn(files: set<Path>, steps: seq<Step>, t: nat) returns (step: Step, u: nat)
    requires IsRun(Init(files), steps)
    requires t in After(Init(files), steps).tasks && After(Init(files), steps).tasks[t].phase != Gone
    ensures var s := After(Init(files), steps);
      && Enabled(s, step) && !step.Cancel? && Advances(s, step, u)
      && (u == t || (u in s.tasks && s.tasks[t].phase == Waiting && s.tasks[u].lock == s.tasks[t].lock))
  {
    hide Enabled, Next, IsRun, After, Advances, PhaseRank;
    var s := After(Init(files), steps);
    RunKeepsHeldInside(Init(files), steps);
    if s.tasks[t].phase != Waiting {
      u := t;
      step := InsideAdvances(s, t);
    } else if s.tasks[t].lock in s.holder {
      u := s.holder[s.tasks[t].lock];
      step := InsideAdvances(s, u);
    } else {
      u := t;
      step := Acquire(t);
      AcquireAdvances(s, t);
    }
  }

  lemma AcquireAdvances(s: State, t: nat)
    requires In(s, t, Waiting) && s.tasks[t].lock !in s.holder
    ensures Enabled(s, Acquire(t)) && Advances(s, Acquire(t), t)
  {
  }

  // ----- the table itself -----

  /** The shared table and the downloads that use it, updated in place one atomic section at a time. */
  class Downloads {
    var locks: map<Path, nat>
    var tasks: map<nat, Task>
    var holder: map<nat, nat>
    var files: set<Path>
    var nextLock: nat

    function Contents(): State
      reads this
    {
      State(locks, tasks, holder, files, nextLock)
    }

    constructor (present: set<Path>)
      ensures Contents() == Init(present)
    {
      locks, tasks, holder, files, nextLock := map[], map[], map[], present, 0;
    }

    /** Intern the path's mutex and take a reference to it. */
    method Intern(t: nat, path: Path)
      requires t !in tasks && Inv(Contents())
      modifies this
      ensures Contents() == Next(old(Contents()), Start(t, path)) && Inv(Contents())
      ensures path in locks && tasks[t] == Task(path, locks[path], Waiting)
    {
      StepKeepsInv(Contents(), Start(t, path));
      if path !in locks {
        locks := locks[path := nextLock];
        nextLock := nextLock + 1;
      }
      tasks := tasks[t := Task(path, locks[path], Waiting)];
    }

    /** The critical section's end: publish what was transferred and drop the guard. */
    method Finish(t: nat, ok: bool)
      requires In(Contents(), t, Transferring) && Inv(Contents())
      modifies this
      ensures Contents() == Next(old(Contents()), EndTransfer(t, ok)) && Inv(Contents())
    {
      StepKeepsInv(Contents(), EndTransfer(t, ok));
      var task := tasks[t];
      if ok {
        files := files + {task.path};
      }
      tasks := tasks[t := task.(phase := Released)];
      holder := holder - {task.lock};
    }

    /** Drop the map entry unless another download refers to the mutex. */
    method CleanUpAfter(t: nat)
      requires In(Contents(), t, Released) && Inv(Contents())
      modifies this
      ensures Contents() == Next(old(Contents()), CleanUp(t)) && Inv(Contents())
      ensures old(tasks[t].path) !in locks <==> Owners(old(Contents()), old(tasks[t].lock)) == {t}
    {
      StepKeepsInv(Contents(), CleanUp(t));
      CleanUpRemovesIff(Contents(), t);
      var path := tasks[t].path;
      if path in locks && StrongCount(Contents(), locks[path]) <= 2 {
        locks := locks - {path};
      }
      tasks := tasks[t := tasks[t].(phase := Cleaned)];
    }
  }
}
