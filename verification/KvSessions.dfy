/** What the relay posts while one connection lasts, and while the plane has no route for it. */
module KvSessions {
  import opened Wrappers
  import opened KvRelay
  import opened KvReplication

  ghost predicate SameSession(steps: seq<Step>) {
    forall i :: 0 <= i < |steps| ==> !steps[i].Connect?
  }

  /** Posts `i` and later begin with a snapshot or where the post before them ended, in its epoch. */
  ghost predicate Chained(posted: seq<(Batch, bool)>, from: nat) {
    forall i :: from < i < |posted| ==> Continues(posted[i - 1].0, posted[i].0)
  }

  ghost predicate Continues(before: Batch, b: Batch) {
    b.snapshot || (b.epoch == before.epoch && b.first == before.last + 1)
  }

  /** What is buffered continues the last batch of the session, or a snapshot is owed. */
  ghost predicate Follows(r: RelayState, b: Batch) {
    r.edge.needsSnapshot ||
    match r.pending.seqRange
    case None => r.continuity == Continuity(Some(b.epoch), Some(b.last))
    case Some((lo, _)) => r.pending.snapshot || (r.continuity.epoch == Some(b.epoch) && lo == b.last + 1)
  }

  ghost predicate SessionInv(e: Engine, s: Sys, from: nat) {
    && Inv(e, s) && from <= |s.posted| && Chained(s.posted, from)
    && (from < |s.posted| ==> Follows(s.relay, s.posted[|s.posted| - 1].0))
  }

  lemma {:induction false} FlushKeepsSession(e: Engine, s: Sys, now: nat, fate: Fate, from: nat)
    requires SessionInv(e, s, from) && s.connected
    ensures SessionInv(e, Next(e, s, Flush(now, fate)), from)
  {
    StepKeepsInv(e, s, Flush(now, fate));
    hide Covers, PlaneInSync, PostsGenuine;
    var s' := Next(e, s, Flush(now, fate));
    if BatchToPost(s.relay, now).Some? {
      var b := BatchToPost(s.relay, now).value;
      assert from < |s.posted| ==> Continues(s.posted[|s.posted| - 1].0, b);
      assert s'.posted == s.posted + [(b, s.relay.edge.needsSnapshot)];
      assert s'.relay.continuity == Continuity(Some(b.epoch), Some(b.last));
    }
  }

  lemma {:induction false} DeliverKeepsSession(e: Engine, s: Sys, m: Message, from: nat)
    requires SessionInv(e, s, from) && Enabled(e, s, Deliver(m))
    ensures SessionInv(e, Next(e, s, Deliver(m)), from)
  {
    StepKeepsInv(e, s, Deliver(m));
    hide Covers, PlaneInSync, PostsGenuine, Inv;
  }

  /** While one connection lasts, nothing is posted twice and nothing is skipped: every batch after the session's
      first begins with a snapshot, or where the batch before it ended. Dropped windows, lost posts and plane
      restarts are all allowed. */
  lemma {:induction false} SessionPostsChain(e: Engine, s: Sys, steps: seq<Step>, from: nat)
    requires SessionInv(e, s, from) && IsRun(e, s, steps) && SameSession(steps)
    ensures SessionInv(e, After(e, s, steps), from)
    decreases |steps|
  {
    if |steps| > 0 {
      var s' := Next(e, s, steps[0]);
      match steps[0] {
        case Deliver(m) => DeliverKeepsSession(e, s, m, from);
        case Flush(now, fate) => FlushKeepsSession(e, s, now, fate, from);
        case Disconnect => StepKeepsInv(e, s, steps[0]);
        case Arrive(i) => StepKeepsInv(e, s, steps[0]);
        case PlaneRestart => StepKeepsInv(e, s, steps[0]);
      }
      hide SessionInv, Enabled, Next;
      SessionPostsChain(e, s', steps[1..], from);
    }
  }

  /** The same for any session of any run. */
  lemma {:induction false} EverySessionChains(e: Engine, before: seq<Step>, session: seq<Step>)
    requires IsRun(e, Init(), before) && IsRun(e, After(e, Init(), before), session) && SameSession(session)
    ensures var s := After(e, Init(), before); Chained(After(e, s, session).posted, |s.posted|)
  {
    var s := After(e, Init(), before);
    NeverDiverges(e, Init(), before);
    SessionPostsChain(e, s, session, |s.posted|);
  }

  /** Outside a backoff window, a tick of a connected relay that owes a snapshot either posts one or drops the
      connection, which makes the engine send one. */
  lemma {:induction false} OwedSnapshotIsFetched(e: Engine, s: Sys, now: nat, fate: Fate)
    requires Inv(e, s) && s.connected && s.relay.edge.needsSnapshot && !BackingOff(s.relay, now)
    requires s.relay.continuity.epoch.Some?
    ensures var s' := Next(e, s, Flush(now, fate));
      if s.relay.pending.snapshot
      then |s'.posted| == |s.posted| + 1 && s'.posted[|s.posted|].0.snapshot
      else s'.posted == s.posted && !s'.connected
  {
    hide Covers, PlaneInSync, PostsGenuine;
  }

  ghost predicate FlushesBefore(steps: seq<Step>, until: nat) {
    forall i :: 0 <= i < |steps| && steps[i].Flush? ==> steps[i].now < until
  }

  /** Once the plane has answered that it has no route, nothing at all is posted before the window ends, however
      often the relay reconnects, and a snapshot is owed throughout. */
  lemma {:induction false} BackoffIsQuiet(e: Engine, s: Sys, steps: seq<Step>, until: nat)
    requires IsRun(e, s, steps) && FlushesBefore(steps, until)
    requires s.relay.edge == EdgeState(true, Some(until))
    ensures After(e, s, steps).posted == s.posted
    ensures After(e, s, steps).relay.edge == EdgeState(true, Some(until))
    decreases |steps|
  {
    if |steps| > 0 {
      var s' := Next(e, s, steps[0]);
      assert s'.posted == s.posted && s'.relay.edge == s.relay.edge;
      hide Next, Enabled;
      BackoffIsQuiet(e, s', steps[1..], until);
    }
  }

  /** A post that meets no route opens a window of exactly the backoff's length. */
  lemma {:induction false} NoRouteIsQuiet(e: Engine, s: Sys, now: nat, steps: seq<Step>)
    requires s.connected && BatchToPost(s.relay, now).Some?
    requires IsRun(e, Next(e, s, Flush(now, Missing)), steps) && FlushesBefore(steps, now + 60_000)
    ensures var s' := Next(e, s, Flush(now, Missing));
      && s'.connected
      && |After(e, s', steps).posted| == |s.posted| + 1 && After(e, s', steps).relay.edge.needsSnapshot
  {
    var s' := Next(e, s, Flush(now, Missing));
    assert s'.relay.edge == EdgeState(true, Some(now + NOT_FOUND_BACKOFF)) && |s'.posted| == |s.posted| + 1;
    BackoffIsQuiet(e, s', steps, now + NOT_FOUND_BACKOFF);
  }

  /** What arrives inside the window is dropped with it: the first tick after the window posts nothing and drops the
      connection for a snapshot, whatever was buffered at the last tick inside. */
  lemma {:induction false} WindowDropsBuffer(e: Engine, s: Sys, now: nat, fate: Fate, later: nat, fate2: Fate)
    requires s.connected && BackingOff(s.relay, now) && !BackingOff(s.relay, later) && s.relay.continuity.epoch.Some?
    ensures var s1 := Next(e, s, Flush(now, fate)); var s2 := Next(e, s1, Flush(later, fate2));
      s1.connected && s2.posted == s.posted && !s2.connected && s2.relay.edge.needsSnapshot
  {
  }

  // ----- what ends a connection -----

  /** A delivered message drops the connection exactly when it is a delta of another epoch than the one being
      followed, or not the one after the last. */
  lemma {:induction false} DeliverDisconnectsIff(e: Engine, s: Sys, m: Message)
    requires Enabled(e, s, Deliver(m))
    ensures !Next(e, s, Deliver(m)).connected <==>
      && !m.snapshot
      && ((s.relay.continuity.epoch.Some? && s.relay.continuity.epoch.value != m.epoch)
          || (s.relay.continuity.lastSeq.Some? && m.seqNo != s.relay.continuity.lastSeq.value + 1))
  {
  }

  /** The last message delivered since the relay last connected, if any was. */
  function LastDelivered(steps: seq<Step>): Option<Message> {
    if |steps| == 0 then None
    else match steps[|steps| - 1]
      case Deliver(m) => Some(m)
      case Connect => None
      case _ => LastDelivered(steps[..|steps| - 1])
  }

  lemma {:induction false} SplitRun(e: Engine, s: Sys, first: seq<Step>, step: Step)
    requires IsRun(e, s, first + [step])
    ensures IsRun(e, s, first) && Enabled(e, After(e, s, first), step)
    ensures After(e, s, first + [step]) == Next(e, After(e, s, first), step)
    decreases |first|
  {
    hide Enabled, Next;
    if |first| > 0 {
      assert (first + [step])[1..] == first[1..] + [step];
      SplitRun(e, Next(e, s, first[0]), first[1..], step);
    } else {
      assert first + [step] == [step] && [step][1..] == [];
      assert After(e, Next(e, s, step), []) == Next(e, s, step);
    }
  }

  /** On every run from start-up: while the relay is connected it follows exactly the last message delivered, however
      many were lost before it; whatever it could not follow has dropped the connection. */
  lemma {:induction false} ConnectedFollowsLast(e: Engine, steps: seq<Step>)
    requires IsRun(e, Init(), steps) && After(e, Init(), steps).connected
    ensures After(e, Init(), steps).relay.continuity ==
      match LastDelivered(steps)
      case None => Continuity(None, None)
      case Some(m) => Continuity(Some(m.epoch), Some(m.seqNo))
    decreases |steps|
  {
    if |steps| > 0 {
      var first, step := steps[..|steps| - 1], steps[|steps| - 1];
      assert steps == first + [step];
      SplitRun(e, Init(), first, step);
      var s := After(e, Init(), first);
      hide After, IsRun, Init;
      if s.connected {
        ConnectedFollowsLast(e, first);
      }
      FlushKeepsContinuity(e, s, step);
    }
  }

  lemma {:induction false} FlushKeepsContinuity(e: Engine, s: Sys, step: Step)
    requires Enabled(e, s, step) && Next(e, s, step).connected
    ensures match step
      case Connect => Next(e, s, step).relay.continuity == Continuity(None, None)
      case Deliver(m) => s.connected && Next(e, s, step).relay.continuity == Continuity(Some(m.epoch), Some(m.seqNo))
      case _ => s.connected && Next(e, s, step).relay.continuity == s.relay.continuity
  {
  }

  /** A new connection takes its first message whatever it is and whatever the session before it was at, and until then
      no tick drops it or posts anything. */
  lemma {:induction false} NewSessionTakesAnything(e: Engine, s: Sys, m: Message, now: nat, fate: Fate)
    requires !s.connected && Genuine(e, m)
    ensures var s1 := Next(e, s, Connect); var s2 := Next(e, s1, Deliver(m)); var s3 := Next(e, s1, Flush(now, fate));
      && s1.connected && s2.connected
      && s2.relay.pending == Pending(m.events, Some((m.seqNo, m.seqNo)), m.snapshot)
      && s3.connected && s3.posted == s.posted && s3.relay.pending.events == []
  {
  }

  // ----- posts that fail -----

  /** A post that is lost or refused, or whose reply is lost, costs its window and nothing else: the connection and the
      demand stay as they were, and if no snapshot is owed the next delta is posted alone. */
  lemma {:induction false} FailedPostDropsWindow(e: Engine, s: Sys, now: nat, fate: Fate, m: Message, later: nat)
    requires s.connected && BatchToPost(s.relay, now).Some?
    requires fate.Lost? || fate.Refused? || fate.AppliedReplyLost?
    requires !m.snapshot && s.relay.continuity.epoch == Some(m.epoch)
    requires s.relay.continuity.lastSeq.Some? && m.seqNo == s.relay.continuity.lastSeq.value + 1
    ensures var s1 := Next(e, s, Flush(now, fate));
      && s1.connected && s1.relay.edge.needsSnapshot == s.relay.edge.needsSnapshot
      && !BackingOff(s1.relay, later) && BatchToPost(s1.relay, later).None?
      && (!s.relay.edge.needsSnapshot ==>
            BatchToPost(Next(e, s1, Deliver(m)).relay, later) ==
              Some(Batch(m.epoch, m.seqNo, m.seqNo, false, m.events)))
  {
    assert NOTHING_PENDING.events + m.events == m.events;
  }

  /** On every run from start-up the first batch posted begins with a snapshot. */
  lemma {:induction false} FirstPostIsSnapshot(e: Engine, steps: seq<Step>)
    requires IsRun(e, Init(), steps)
    ensures var end := After(e, Init(), steps);
      if |end.posted| == 0 then end.relay.edge.needsSnapshot else end.posted[0].0.snapshot
    decreases |steps|
  {
    if |steps| > 0 {
      var first, step := steps[..|steps| - 1], steps[|steps| - 1];
      assert steps == first + [step];
      SplitRun(e, Init(), first, step);
      FirstPostIsSnapshot(e, first);
    }
  }
}
