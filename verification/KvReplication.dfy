/** Engine, lossy wire, relay and plane together: whatever is lost, the plane's index is the engine's
    state at the sequence number the plane last applied. */
module KvReplication {
  import opened Wrappers
  import opened KvRelay

  type Index(!new, ==)

  /** What events mean, and the delta an engine publishes at each sequence number of each epoch. */
  datatype Engine = Engine(empty: Index, apply: (Index, Event) -> Index, log: (string, nat) -> seq<Event>)

  function Replay(e: Engine, index: Index, events: seq<Event>): Index {
    if |events| == 0 then index
    else Replay(e, e.apply(index, events[0]), events[1..])
  }

  /** The engine's state once delta `seqNo` of the epoch is applied. */
  function StateAt(e: Engine, epoch: string, seqNo: nat): Index {
    Replay(e, if seqNo == 0 then e.empty else StateAt(e, epoch, seqNo - 1), e.log(epoch, seqNo))
  }

  /** The deltas `first` up to but excluding `end`, in publish order. */
  function Deltas(e: Engine, epoch: string, first: nat, end: nat): seq<Event>
    requires first <= end
    decreases end - first
  {
    if first == end then [] else Deltas(e, epoch, first, end - 1) + e.log(epoch, end - 1)
  }

  /** A full-state dump: replayed from nothing, it gives the state at `seqNo`. */
  ghost predicate IsDump(e: Engine, epoch: string, seqNo: nat, events: seq<Event>) {
    Replay(e, e.empty, events) == StateAt(e, epoch, seqNo)
  }

  ghost predicate Genuine(e: Engine, m: Message) {
    if m.snapshot then IsDump(e, m.epoch, m.seqNo, m.events) else m.events == e.log(m.epoch, m.seqNo)
  }

  /** The events are one epoch's, cover exactly `first..last` in order, and start from a dump if a snapshot. */
  ghost predicate Covers(e: Engine, epoch: string, first: nat, last: nat, snapshot: bool, events: seq<Event>) {
    && first <= last
    && if snapshot then
         exists dump :: IsDump(e, epoch, first, dump) && events == dump + Deltas(e, epoch, first + 1, last + 1)
       else events == Deltas(e, epoch, first, last + 1)
  }

  lemma {:induction false} ReplayConcat(e: Engine, index: Index, a: seq<Event>, b: seq<Event>)
    ensures Replay(e, index, a + b) == Replay(e, Replay(e, index, a), b)
  {
    if |a| == 0 {
      assert a + b == b;
    } else {
      assert (a + b)[1..] == a[1..] + b;
      ReplayConcat(e, e.apply(index, a[0]), a[1..], b);
    }
  }

  /** Replaying contiguous deltas on the state before them gives the state after them. */
  lemma {:induction false} DeltasAdvance(e: Engine, epoch: string, first: nat, end: nat)
    requires first < end
    ensures Replay(e, StateAt(e, epoch, first), Deltas(e, epoch, first + 1, end)) == StateAt(e, epoch, end - 1)
    decreases end - first
  {
    if first + 1 < end {
      DeltasAdvance(e, epoch, first, end - 1);
      ReplayConcat(e, StateAt(e, epoch, first), Deltas(e, epoch, first + 1, end - 1), e.log(epoch, end - 1));
    }
  }

  lemma {:induction false} CoveredSnapshot(e: Engine, epoch: string, first: nat, last: nat, events: seq<Event>)
    requires Covers(e, epoch, first, last, true, events)
    ensures Replay(e, e.empty, events) == StateAt(e, epoch, last)
  {
    var dump :| IsDump(e, epoch, first, dump) && events == dump + Deltas(e, epoch, first + 1, last + 1);
    ReplayConcat(e, e.empty, dump, Deltas(e, epoch, first + 1, last + 1));
    DeltasAdvance(e, epoch, first, last + 1);
  }

  // ----- the plane's documented contract -----

  /** What the plane holds for this node: nothing, or an index applied up to `last` of `epoch`. */
  datatype Plane = Empty | Holding(epoch: string, last: nat, index: Index)

  /** A snapshot is reset-then-set; a delta applies only in the same epoch at the next sequence number.
      An unknown epoch drops the state. The flag is `need_snapshot`. */
  function Ingest(e: Engine, p: Plane, b: Batch): (Plane, bool) {
    if b.snapshot then (Holding(b.epoch, b.last, Replay(e, e.empty, b.events)), false)
    else if p.Empty? || p.epoch != b.epoch then (Empty, true)
    else if b.first == p.last + 1 then (Holding(b.epoch, b.last, Replay(e, p.index, b.events)), false)
    else (p, true)
  }

  // ----- runs -----

  /** What becomes of a POST as far as the relay can tell at once: lost or given up on, applied with its reply read,
      garbled or lost, accepted by something that is not the plane and whose reply cannot be read, or refused. A batch
      not applied, or already applied, may still arrive later (`Arrive`). */
  datatype Fate = Lost | Applied | AppliedGarbled | AppliedReplyLost | Intercepted | Missing | Refused

  datatype Step =
    | Connect
    | Disconnect
    | Deliver(m: Message)
    | Flush(now: nat, fate: Fate)
    | Arrive(i: nat)
    | PlaneRestart

  /** `posted` records every batch sent, with the snapshot demand standing when it was sent. */
  datatype Sys = Sys(relay: RelayState, connected: bool, plane: Plane, posted: seq<(Batch, bool)>)

  function Init(): Sys {
    Sys(FreshRelay(), false, Empty, [])
  }

  function ReplyFor(fate: Fate, need: bool): Reply {
    match fate
    case Lost => Failed
    case Applied => Accepted(need)
    case AppliedGarbled => Accepted(false)
    case AppliedReplyLost => Failed
    case Intercepted => Accepted(false)
    case Missing => NoRoute
    case Refused => Rejected
  }

  function Reaches(fate: Fate): bool {
    fate.Applied? || fate.AppliedGarbled? || fate.AppliedReplyLost?
  }

  function DoFlush(e: Engine, s: Sys, now: nat, fate: Fate): Sys {
    match BatchToPost(s.relay, now)
    case None =>
      var (relay, reconnect) := OnFlush(s.relay, now, Failed);
      s.(relay := relay, connected := !reconnect)
    case Some(b) =>
      var (plane, need) := if Reaches(fate) then Ingest(e, s.plane, b) else (s.plane, false);
      var (relay, reconnect) := OnFlush(s.relay, now, ReplyFor(fate, need));
      Sys(relay, !reconnect, plane, s.posted + [(b, s.relay.edge.needsSnapshot)])
  }

  ghost predicate Enabled(e: Engine, s: Sys, step: Step) {
    match step
    case Connect => !s.connected
    case Disconnect => s.connected
    case Deliver(m) => s.connected && Genuine(e, m)
    case Flush(_, _) => s.connected
    case Arrive(i) => i < |s.posted|
    case PlaneRestart => true
  }

  function Next(e: Engine, s: Sys, step: Step): Sys {
    match step
    case Connect => s.(relay := NewSession(s.relay), connected := true)
    case Disconnect => s.(connected := false)
    case Deliver(m) =>
      var (relay, reconnect) := OnMessage(s.relay, m);
      s.(relay := relay, connected := !reconnect)
    case Flush(now, fate) => DoFlush(e, s, now, fate)
    case Arrive(i) => if i < |s.posted| then s.(plane := Ingest(e, s.plane, s.posted[i].0).0) else s
    case PlaneRestart => s.(plane := Empty)
  }

  /** The states a run passes through are enabled one after the other. */
  ghost predicate IsRun(e: Engine, s: Sys, steps: seq<Step>)
    decreases |steps|
  {
    |steps| == 0 || (Enabled(e, s, steps[0]) && IsRun(e, Next(e, s, steps[0]), steps[1..]))
  }

  function After(e: Engine, s: Sys, steps: seq<Step>): Sys
    decreases |steps|
  {
    if |steps| == 0 then s else After(e, Next(e, s, steps[0]), steps[1..])
  }

  // ----- safety -----

  ghost predicate PlaneInSync(e: Engine, p: Plane) {
    p.Holding? ==> p.index == StateAt(e, p.epoch, p.last)
  }

  ghost predicate PendingGenuine(e: Engine, r: RelayState) {
    match r.pending.seqRange
    case None => r.pending == NOTHING_PENDING
    case Some((lo, hi)) =>
      && r.continuity.epoch.Some? && r.continuity.lastSeq == Some(hi)
      && Covers(e, r.continuity.epoch.value, lo, hi, r.pending.snapshot, r.pending.events)
  }

  /** Every posted batch covers exactly its range, and begins with a snapshot if one was owed. */
  ghost predicate PostsGenuine(e: Engine, posted: seq<(Batch, bool)>) {
    forall i :: 0 <= i < |posted| ==>
      && Covers(e, posted[i].0.epoch, posted[i].0.first, posted[i].0.last, posted[i].0.snapshot, posted[i].0.events)
      && (posted[i].1 ==> posted[i].0.snapshot)
  }

  ghost predicate Inv(e: Engine, s: Sys) {
    PlaneInSync(e, s.plane) && PendingGenuine(e, s.relay) && PostsGenuine(e, s.posted)
  }

  lemma {:induction false} MessageKeepsPending(e: Engine, r: RelayState, m: Message)
    requires PendingGenuine(e, r) && Genuine(e, m)
    ensures PendingGenuine(e, OnMessage(r, m).0)
  {
    var (c, a) := AdmitMessage(r.continuity, m);
    match a {
      case Snapshot =>
        assert m.events == m.events + Deltas(e, m.epoch, m.seqNo + 1, m.seqNo + 1);
        assert Covers(e, m.epoch, m.seqNo, m.seqNo, true, m.events);
      case Delta =>
        match r.pending.seqRange {
          case None =>
            assert Deltas(e, m.epoch, m.seqNo, m.seqNo + 1) == m.events;
          case Some((lo, hi)) =>
            ExtendCover(e, m.epoch, lo, hi, r.pending.snapshot, r.pending.events);
        }
      case Gap =>
    }
  }

  /** One more contiguous delta extends a covered range by one. */
  lemma {:induction false} ExtendCover(
      e: Engine, epoch: string, first: nat, last: nat, snapshot: bool, events: seq<Event>)
    requires Covers(e, epoch, first, last, snapshot, events)
    ensures Covers(e, epoch, first, last + 1, snapshot, events + e.log(epoch, last + 1))
  {
    if snapshot {
      var dump :| IsDump(e, epoch, first, dump) && events == dump + Deltas(e, epoch, first + 1, last + 1);
      assert events + e.log(epoch, last + 1) == dump + Deltas(e, epoch, first + 1, last + 2);
    }
  }

  lemma {:induction false} IngestKeepsSync(e: Engine, p: Plane, b: Batch)
    requires PlaneInSync(e, p) && Covers(e, b.epoch, b.first, b.last, b.snapshot, b.events)
    ensures PlaneInSync(e, Ingest(e, p, b).0)
  {
    if b.snapshot {
      CoveredSnapshot(e, b.epoch, b.first, b.last, b.events);
    } else if p.Holding? && p.epoch == b.epoch && b.first == p.last + 1 {
      DeltasAdvance(e, b.epoch, p.last, b.last + 1);
    }
  }

  lemma {:induction false} StepKeepsInv(e: Engine, s: Sys, step: Step)
    requires Inv(e, s) && Enabled(e, s, step)
    ensures Inv(e, Next(e, s, step))
  {
    match step {
      case Deliver(m) =>
        MessageKeepsPending(e, s.relay, m);
      case Flush(now, fate) =>
        match BatchToPost(s.relay, now) {
          case None =>
          case Some(b) =>
            IngestKeepsSync(e, s.plane, b);
        }
      case Arrive(i) =>
        IngestKeepsSync(e, s.plane, s.posted[i].0);
      case Connect =>
      case Disconnect =>
      case PlaneRestart =>
    }
  }

  /** Over every run, late and repeated arrivals included: the plane holds exactly the engine's state at its last
      applied sequence number, no delta is posted while a snapshot is owed, and every posted batch covers exactly its
      range. */
  lemma {:induction false} NeverDiverges(e: Engine, s: Sys, steps: seq<Step>)
    requires Inv(e, s) && IsRun(e, s, steps)
    ensures Inv(e, After(e, s, steps))
    decreases |steps|
  {
    if |steps| > 0 {
      StepKeepsInv(e, s, steps[0]);
      NeverDiverges(e, Next(e, s, steps[0]), steps[1..]);
    }
  }

  lemma NeverDivergesFromStart(e: Engine, steps: seq<Step>)
    requires IsRun(e, Init(), steps)
    ensures PlaneInSync(e, After(e, Init(), steps).plane)
    ensures PostsGenuine(e, After(e, Init(), steps).posted)
  {
    NeverDiverges(e, Init(), steps);
  }

  /** A snapshot demand ends only in a step that posts a snapshot, and unless that was intercepted the plane has
      applied it. */
  lemma {:induction false} DemandEndsWithSnapshot(e: Engine, s: Sys, step: Step)
    requires Enabled(e, s, step) && s.relay.edge.needsSnapshot && !Next(e, s, step).relay.edge.needsSnapshot
    ensures step.Flush? && (Reaches(step.fate) || step.fate.Intercepted?)
    ensures |Next(e, s, step).posted| == |s.posted| + 1
    ensures Next(e, s, step).posted[|s.posted|].0.snapshot
    ensures var b := Next(e, s, step).posted[|s.posted|].0;
      if Reaches(step.fate) then Next(e, s, step).plane == Ingest(e, s.plane, b).0 && Next(e, s, step).plane.Holding?
      else Next(e, s, step).plane == s.plane
  {
  }

  /** Whatever made the relay believe that no snapshot is owed, the first batch the plane receives and cannot place
      makes it owe one again and drop the connection. */
  lemma {:induction false} UnplaceableBatchRaisesDemand(e: Engine, s: Sys, now: nat)
    requires s.connected && BatchToPost(s.relay, now).Some?
    requires var b := BatchToPost(s.relay, now).value;
      !b.snapshot && !(s.plane.Holding? && s.plane.epoch == b.epoch && b.first == s.plane.last + 1)
    ensures var s' := Next(e, s, Flush(now, Applied)); s'.relay.edge.needsSnapshot && !s'.connected
  {
    var b := BatchToPost(s.relay, now).value;
    assert Ingest(e, s.plane, b).1;
  }

  // ----- recovery -----

  /** The plane is exactly where the relay's buffer begins, and the relay owes nothing. */
  ghost predicate Tracking(s: Sys) {
    && s.connected && !s.relay.edge.needsSnapshot && s.relay.edge.backoffUntil == None
    && s.plane.Holding? && s.relay.continuity.epoch == Some(s.plane.epoch)
    && match s.relay.pending.seqRange
       case None => s.relay.continuity.lastSeq == Some(s.plane.last)
       case Some((lo, hi)) =>
         !s.relay.pending.snapshot && lo == s.plane.last + 1 && lo <= hi && s.relay.continuity.lastSeq == Some(hi)
  }

  lemma OneStep(e: Engine, s: Sys, step: Step)
    requires Enabled(e, s, step)
    ensures IsRun(e, s, [step]) && After(e, s, [step]) == Next(e, s, step)
  {
    assert [step][1..] == [];
    assert IsRun(e, Next(e, s, step), []);
  }

  /** A reconnect, dropping the connection first if there is one; the engine's snapshot; and a flush. */
  ghost function Recovery(s: Sys, m: Message, now: nat): seq<Step> {
    (if s.connected then [Disconnect] else []) + [Connect, Deliver(m), Flush(now, Applied)]
  }

  /** From any state of any run, connected or not, one snapshot after a reconnect and one flush that gets through
      bring the plane to the engine's state at the snapshot. */
  lemma {:induction false} SnapshotRecovers(e: Engine, s: Sys, m: Message, now: nat)
    requires Inv(e, s) && Genuine(e, m) && m.snapshot && !BackingOff(s.relay, now)
    ensures var steps := Recovery(s, m, now);
      && IsRun(e, s, steps)
      && Tracking(After(e, s, steps))
      && After(e, s, steps).plane == Holding(m.epoch, m.seqNo, StateAt(e, m.epoch, m.seqNo))
  {
    if s.connected {
      var s' := Next(e, s, Disconnect);
      ReconnectRecovers(e, s', m, now);
      var rest := [Connect, Deliver(m), Flush(now, Applied)];
      assert Recovery(s, m, now)[1..] == rest;
      hide Tracking;
    } else {
      ReconnectRecovers(e, s, m, now);
      assert Recovery(s, m, now) == [Connect, Deliver(m), Flush(now, Applied)];
    }
  }

  lemma {:induction false} ReconnectRecovers(e: Engine, s: Sys, m: Message, now: nat)
    requires Inv(e, s) && !s.connected && Genuine(e, m) && m.snapshot && !BackingOff(s.relay, now)
    ensures var steps := [Connect, Deliver(m), Flush(now, Applied)];
      && IsRun(e, s, steps)
      && Tracking(After(e, s, steps))
      && After(e, s, steps).plane == Holding(m.epoch, m.seqNo, StateAt(e, m.epoch, m.seqNo))
  {
    var s1 := Next(e, s, Connect);
    var s2 := Next(e, s1, Deliver(m));
    var s3 := Next(e, s2, Flush(now, Applied));
    var steps := [Connect, Deliver(m), Flush(now, Applied)];
    assert steps[1..] == [Deliver(m), Flush(now, Applied)] && steps[1..][1..] == [Flush(now, Applied)];
    assert steps[1..][1..][1..] == [];
    assert BatchToPost(s2.relay, now) == Some(Batch(m.epoch, m.seqNo, m.seqNo, true, m.events));
    OneStep(e, s2, Flush(now, Applied));
    assert IsRun(e, s1, steps[1..]) && After(e, s1, steps[1..]) == s3;
  }

  /** Steps of a healthy stretch: the next delta of the epoch arrives, or a flush gets through. */
  ghost predicate Healthy(e: Engine, s: Sys, step: Step) {
    match step
    case Deliver(m) =>
      && !m.snapshot && Genuine(e, m)
      && s.relay.continuity.epoch == Some(m.epoch)
      && s.relay.continuity.lastSeq.Some? && m.seqNo == s.relay.continuity.lastSeq.value + 1
    case Flush(_, fate) => fate.Applied?
    case _ => false
  }

  ghost predicate HealthyRun(e: Engine, s: Sys, steps: seq<Step>)
    decreases |steps|
  {
    |steps| == 0 || (Healthy(e, s, steps[0]) && HealthyRun(e, Next(e, s, steps[0]), steps[1..]))
  }

  lemma {:induction false} HealthyStepTracks(e: Engine, s: Sys, step: Step)
    requires Inv(e, s) && Tracking(s) && Healthy(e, s, step)
    ensures Enabled(e, s, step) && Tracking(Next(e, s, step))
    ensures step.Flush? ==> s.relay.continuity.lastSeq == Some(Next(e, s, step).plane.last)
  {
  }

  /** Once tracking, nothing but a loss ends it: after every flush the plane is at the relay's last message. */
  lemma {:induction false} HealthyRunTracks(e: Engine, s: Sys, steps: seq<Step>, now: nat)
    requires Inv(e, s) && Tracking(s) && HealthyRun(e, s, steps)
    ensures IsRun(e, s, steps) && Tracking(After(e, s, steps))
    ensures var end := After(e, s, steps); var flushed := Next(e, end, Flush(now, Applied));
      && end.relay.continuity.lastSeq == Some(flushed.plane.last)
      && flushed.plane.index == StateAt(e, flushed.plane.epoch, flushed.plane.last)
    decreases |steps|
  {
    if |steps| > 0 {
      HealthyStepTracks(e, s, steps[0]);
      StepKeepsInv(e, s, steps[0]);
      HealthyRunTracks(e, Next(e, s, steps[0]), steps[1..], now);
    } else {
      HealthyStepTracks(e, s, Flush(now, Applied));
      StepKeepsInv(e, s, Flush(now, Applied));
    }
  }
}
