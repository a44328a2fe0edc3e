/** The relay between an engine's event publisher and the control plane's index.

    `RelayState` and its transition functions are the relay; `RelaySession` is the same relay as the
    object the session loop mutates. */
module KvRelay {
  import opened Wrappers

  type Event(!new, ==)

  /** How long the relay stays silent once the plane turns out to have no such route, in milliseconds. */
  const NOT_FOUND_BACKOFF: nat := 60_000

  /** One published message: a full-state snapshot or one delta. */
  datatype Message = Message(epoch: string, seqNo: nat, snapshot: bool, events: seq<Event>)

  datatype Continuity = Continuity(epoch: Option<string>, lastSeq: Option<nat>)

  datatype Admit = Snapshot | Delta | Gap

  /** What has been received and not yet posted; no range means nothing has. */
  datatype Pending = Pending(events: seq<Event>, seqRange: Option<(nat, nat)>, snapshot: bool)

  datatype EdgeState = EdgeState(needsSnapshot: bool, backoffUntil: Option<nat>)

  datatype RelayState = RelayState(continuity: Continuity, pending: Pending, edge: EdgeState)

  datatype Batch = Batch(epoch: string, first: nat, last: nat, snapshot: bool, events: seq<Event>)

  /** What the relay sees of one POST. `NoRoute` is a 404 or 410. */
  datatype Reply = Accepted(needSnapshot: bool) | NoRoute | Rejected | Failed

  const NO_CONTINUITY := Continuity(None, None)
  const NOTHING_PENDING := Pending([], None, false)

  function FreshRelay(): RelayState {
    RelayState(NO_CONTINUITY, NOTHING_PENDING, EdgeState(true, None))
  }

  function AdmitMessage(c: Continuity, m: Message): (Continuity, Admit) {
    if m.snapshot then (Continuity(Some(m.epoch), Some(m.seqNo)), Snapshot)
    else if (c.epoch == None || c.epoch == Some(m.epoch))
            && (c.lastSeq == None || m.seqNo == c.lastSeq.value + 1) then
      (Continuity(Some(m.epoch), Some(m.seqNo)), Delta)
    else (c, Gap)
  }

  /** The buffer after an admitted message. */
  function Buffer(p: Pending, m: Message, a: Admit): Pending {
    match a
    case Snapshot => Pending(m.events, Some((m.seqNo, m.seqNo)), true)
    case Delta =>
      var range := match p.seqRange
        case Some((lo, _)) => (lo, m.seqNo)
        case None => (m.seqNo, m.seqNo);
      Pending(p.events + m.events, Some(range), p.snapshot)
    case Gap => p
  }

  /** Receive one message; a gap asks for a reconnect. */
  function OnMessage(r: RelayState, m: Message): (RelayState, bool) {
    var (c, a) := AdmitMessage(r.continuity, m);
    (r.(continuity := c, pending := Buffer(r.pending, m, a)), a.Gap?)
  }

  function BackingOff(r: RelayState, now: nat): bool {
    r.edge.backoffUntil.Some? && now < r.edge.backoffUntil.value
  }

  /** The batch a flush posts, if it posts one. */
  function BatchToPost(r: RelayState, now: nat): Option<Batch> {
    if BackingOff(r, now) || r.continuity.epoch == None || r.pending.seqRange == None then None
    else if r.edge.needsSnapshot && !r.pending.snapshot then None
    else
      var (lo, hi) := r.pending.seqRange.value;
      Some(Batch(r.continuity.epoch.value, lo, hi, r.pending.snapshot, r.pending.events))
  }

  /** One flush tick, given what the POST (if any) came back with; the flag asks for a reconnect. */
  function OnFlush(r: RelayState, now: nat, reply: Reply): (RelayState, bool) {
    if BackingOff(r, now) then
      (r.(pending := NOTHING_PENDING, edge := r.edge.(needsSnapshot := true)), false)
    else
      var edge := r.edge.(backoffUntil := None);
      if r.continuity.epoch == None then (r.(edge := edge), false)
      else if r.pending.seqRange == None || (edge.needsSnapshot && !r.pending.snapshot) then
        (r.(edge := edge), edge.needsSnapshot)
      else
        var next := match reply
          case Accepted(need) => edge.(needsSnapshot := need)
          case NoRoute => EdgeState(true, Some(now + NOT_FOUND_BACKOFF))
          case Rejected => edge
          case Failed => edge;
        (r.(pending := NOTHING_PENDING, edge := next), reply == Accepted(true))
  }

  function NewSession(r: RelayState): RelayState {
    RelayState(NO_CONTINUITY, NOTHING_PENDING, r.edge)
  }

  // ----- the relay as the session loop mutates it -----

  class RelaySession {
    var continuity: Continuity
    var pending: Pending
    var edge: EdgeState

    ghost function State(): RelayState
      reads this
    {
      RelayState(continuity, pending, edge)
    }

    constructor ()
      ensures State() == FreshRelay()
    {
      continuity := NO_CONTINUITY;
      pending := NOTHING_PENDING;
      edge := EdgeState(true, None);
    }

    method Reconnect()
      modifies this
      ensures State() == NewSession(old(State()))
    {
      continuity := NO_CONTINUITY;
      pending := NOTHING_PENDING;
    }

    method AdmitOne(epoch: string, seqNo: nat, snapshot: bool) returns (a: Admit)
      modifies this`continuity
      ensures forall events ::
        AdmitMessage(old(continuity), Message(epoch, seqNo, snapshot, events)) == (continuity, a)
    {
      if snapshot {
        continuity := Continuity(Some(epoch), Some(seqNo));
        return Snapshot;
      }
      var sameEpoch := continuity.epoch == None || continuity.epoch == Some(epoch);
      var nextSeq := continuity.lastSeq == None || seqNo == continuity.lastSeq.value + 1;
      if !(sameEpoch && nextSeq) {
        return Gap;
      }
      continuity := Continuity(Some(epoch), Some(seqNo));
      return Delta;
    }

    method Receive(m: Message) returns (reconnect: bool)
      modifies this
      ensures (State(), reconnect) == OnMessage(old(State()), m)
    {
      var a := AdmitOne(m.epoch, m.seqNo, m.snapshot);
      assert Message(m.epoch, m.seqNo, m.snapshot, m.events) == m;
      match a {
        case Snapshot =>
          pending := Pending(m.events, Some((m.seqNo, m.seqNo)), true);
        case Delta =>
          var range := match pending.seqRange
            case Some((lo, _)) => (lo, m.seqNo)
            case None => (m.seqNo, m.seqNo);
          pending := Pending(pending.events + m.events, Some(range), pending.snapshot);
        case Gap =>
      }
      reconnect := a.Gap?;
    }

    /** `reply` is what the POST comes back with when one is made. */
    method FlushPending(now: nat, reply: Reply) returns (posted: Option<Batch>, reconnect: bool)
      modifies this
      ensures posted == BatchToPost(old(State()), now)
      ensures (State(), reconnect) == OnFlush(old(State()), now, reply)
    {
      if edge.backoffUntil.Some? {
        if now < edge.backoffUntil.value {
          pending := NOTHING_PENDING;
          edge := edge.(needsSnapshot := true);
          return None, false;
        }
        edge := edge.(backoffUntil := None);
      }
      if continuity.epoch == None {
        return None, false;
      }
      if pending.seqRange == None {
        return None, edge.needsSnapshot;
      }
      if edge.needsSnapshot && !pending.snapshot {
        return None, true;
      }
      var (lo, hi) := pending.seqRange.value;
      posted := Some(Batch(continuity.epoch.value, lo, hi, pending.snapshot, pending.events));
      reconnect := false;
      match reply {
        case Accepted(need) =>
          edge := edge.(needsSnapshot := need);
          reconnect := need;
        case NoRoute =>
          edge := EdgeState(true, Some(now + NOT_FOUND_BACKOFF));
        case Rejected =>
        case Failed =>
      }
      pending := NOTHING_PENDING;
    }
  }
}
