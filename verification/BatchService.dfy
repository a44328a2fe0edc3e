/** How soon the accumulator's passes serve a request. */
module BatchService {
  import opened Values
  import opened BatchQueue
  import opened BatchWorker

  /** How many requests stamped no later than `t` the first `n` passes find sent. */
  function LateSent(passes: seq<Pass>, n: nat, t: nat): nat
    requires n <= |passes|
  {
    if n == 0 then 0 else LateSent(passes, n - 1, t) + CountUpTo(passes[n - 1].sent, t)
  }

  /** The pass from `h` to `h'` flushes a batch with `r` in it. */
  ghost predicate Serves(h: Queues, h': Queues, r: Item) {
    |h'.flushed| == |h.flushed| + 1 && r in h'.flushed[|h.flushed|]
  }

  /** A pass that finds everything up to a waiting request overdue flushes a batch, and either serves the request or
      leaves it waiting with fewer requests to go before it. */
  lemma {:induction false} PassServesOrAdvances(h: Queues, capacity: nat, p: Pass, h': Queues, r: Item, t: nat)
    requires PassEffect(h, capacity, p, h') && Ahead(h.pending, r, t) && t + FLUSH_DEADLINE <= p.now
    ensures |h'.flushed| == |h.flushed| + 1
    ensures Serves(h, h', r) || Ahead(h'.pending, r, t)
    ensures CountUpTo(h'.pending, t) < CountUpTo(h.pending, t) + CountUpTo(p.sent, t)
  {
    hide OfKey, Drop, CountUpTo;
    var waiting := h.pending + p.sent;
    FilingKeepsAhead(h.pending, p.sent, r, t);
    CountUpToConcat(h.pending, p.sent, t);
    assert Eligible(OfKey(waiting, r.key), capacity, p.now);
    var key: string, n: nat :| FlushOf(waiting, capacity, p.now, key, n)
      && h' == Queues(Drop(waiting, key, n), h.filed + p.sent, h.flushed + [OfKey(waiting, key)[..n]]);
    FlushTakesOrKeepsAhead(waiting, key, n, r, t);
    FlushLowersRank(Queues(waiting, h.filed, h.flushed), capacity, p.now, key, n, r, t);
  }

  /** While the first `n` passes do not serve the request, each of them brings it one closer. */
  lemma {:induction false} UnservedAdvances(
      seen: seq<Queues>, capacity: nat, passes: seq<Pass>, r: Item, t: nat, n: nat)
    requires PassEffects(seen, capacity, passes) && Ahead(seen[0].pending, r, t) && n < |seen|
    requires forall i :: 0 <= i < |seen| - 1 ==> t + FLUSH_DEADLINE <= passes[i].now
    requires forall i :: 0 <= i < n ==> !Serves(seen[i], seen[i + 1], r)
    ensures Ahead(seen[n].pending, r, t)
    ensures CountUpTo(seen[n].pending, t) + n <= CountUpTo(seen[0].pending, t) + LateSent(passes, n, t)
  {
    hide Ahead, PassEffect, Serves, CountUpTo;
    if n > 0 {
      UnservedAdvances(seen, capacity, passes, r, t, n - 1);
      PassServesOrAdvances(seen[n - 1], capacity, passes[n - 1], seen[n], r, t);
    }
  }

  /** Progress: of passes that run past the deadline, at most as many leave a request waiting as there were requests
      stamped no later than the latest stamp ahead of it, at the start or sent since. */
  lemma {:induction false} ServedInTime(seen: seq<Queues>, capacity: nat, passes: seq<Pass>, r: Item, t: nat)
    requires PassEffects(seen, capacity, passes) && Ahead(seen[0].pending, r, t)
    requires forall i :: 0 <= i < |seen| - 1 ==> t + FLUSH_DEADLINE <= passes[i].now
    requires |seen| - 1 >= CountUpTo(seen[0].pending, t) + LateSent(passes, |seen| - 1, t)
    ensures exists i :: 0 <= i < |seen| - 1 && Serves(seen[i], seen[i + 1], r)
  {
    hide Ahead, PassEffect, Serves, CountUpTo;
    if forall i :: 0 <= i < |seen| - 1 ==> !Serves(seen[i], seen[i + 1], r) {
      UnservedAdvances(seen, capacity, passes, r, t, |seen| - 1);
      AheadCounts(seen[|seen| - 1].pending, r, t);
      assert false;
    }
  }

  // ----- when a pass flushes, and how much -----

  /** The key's waiting requests fill a batch, or the first of them has waited for 100 ms. */
  ghost predicate Due(waiting: seq<Item>, capacity: nat, now: nat, key: string) {
    var queue := OfKey(waiting, key);
    |queue| > 0 && (Total(queue) >= capacity || now >= queue[0].enqueued + 100)
  }

  /** A pass flushes one batch exactly when some key's waiting requests fill one, whatever the clock says, or have
      waited long enough; otherwise it flushes nothing. */
  lemma {:induction false} PassFlushesIff(h: Queues, capacity: nat, p: Pass, h': Queues)
    requires PassEffect(h, capacity, p, h')
    ensures if exists key :: Due(h.pending + p.sent, capacity, p.now, key)
            then |h'.flushed| == |h.flushed| + 1 && h'.flushed[..|h.flushed|] == h.flushed
            else h'.flushed == h.flushed
  {
    hide OfKey, Drop, Total, LargestPrefix;
    var waiting := h.pending + p.sent;
    forall key ensures Due(waiting, capacity, p.now, key) <==> Eligible(OfKey(waiting, key), capacity, p.now) {
    }
    if key :| Due(waiting, capacity, p.now, key) {
      assert !NoneEligible(waiting, capacity, p.now);
    }
  }

  /** What was waiting under `key` is the batch followed by what is left; the key was due, the batch fits unless it is
      one oversized request, and the request left at the front would not have fitted. Other keys keep what they had. */
  ghost predicate FillsUp(
      waiting: seq<Item>, capacity: nat, now: nat, key: string, batch: seq<Item>, left: seq<Item>) {
    && |batch| > 0 && Due(waiting, capacity, now, key)
    && batch + OfKey(left, key) == OfKey(waiting, key)
    && (|batch| == 1 || Total(batch) <= capacity)
    && (|OfKey(left, key)| > 0 ==> Total(batch) + OfKey(left, key)[0].count > capacity)
    && forall other :: other != key ==> OfKey(left, other) == OfKey(waiting, other)
  }

  /** A pass that flushes takes as much as fits off the front of a due key. */
  lemma {:induction false} FlushFillsUp(h: Queues, capacity: nat, p: Pass, h': Queues)
    requires PassEffect(h, capacity, p, h') && |h'.flushed| == |h.flushed| + 1
    ensures exists key :: FillsUp(h.pending + p.sent, capacity, p.now, key, h'.flushed[|h.flushed|], h'.pending)
  {
    hide OfKey, Drop, Total, EarliestEligible, FillsUp;
    var waiting := h.pending + p.sent;
    var key: string, n: nat :| FlushOf(waiting, capacity, p.now, key, n)
      && h' == Queues(Drop(waiting, key, n), h.filed + p.sent, h.flushed + [OfKey(waiting, key)[..n]]);
    assert h'.flushed[|h.flushed|] == OfKey(waiting, key)[..n];
    TakenFillsUp(waiting, capacity, p.now, key, n);
  }

  lemma {:induction false} TakenFillsUp(waiting: seq<Item>, capacity: nat, now: nat, key: string, n: nat)
    requires FlushOf(waiting, capacity, now, key, n)
    ensures FillsUp(waiting, capacity, now, key, OfKey(waiting, key)[..n], Drop(waiting, key, n))
  {
    hide OfKey, Drop, Total;
    var queue := OfKey(waiting, key);
    DropByKey(waiting, key, n);
    assert queue[..n] + queue[n..] == queue;
    if n < |queue| {
      NextOverflows(queue, capacity, n);
    }
  }

  lemma NextOverflows(queue: seq<Item>, capacity: nat, n: nat)
    requires LargestPrefix(queue, capacity, n) && n < |queue|
    ensures Total(queue[..n]) + queue[n].count > capacity
  {
    assert queue[..n + 1][..n] == queue[..n];
  }

  // ----- nothing is lost on the way in -----

  /** What the first `n` passes received: everything sent, and the request that ended the wait of a pass which had
      nothing to flush. */
  function Received(seen: seq<Queues>, passes: seq<Pass>, n: nat): seq<Item>
    requires n <= |passes| && n < |seen|
  {
    if n == 0 then []
    else
      var p := passes[n - 1];
      Received(seen, passes, n - 1) + p.sent
      + (if p.wake.Arrived? && |seen[n].flushed| == |seen[n - 1].flushed| then [p.wake.item] else [])
  }

  lemma {:induction false} FilingConserves(h: Queues, more: seq<Item>)
    requires Conserved(h)
    ensures Conserved(h.(pending := h.pending + more, filed := h.filed + more))
  {
    forall k ensures OfKey(h.filed + more, k) == OfKey(Concat(h.flushed), k) + OfKey(h.pending + more, k) {
      OfKeyConcat(h.filed, more, k);
      OfKeyConcat(h.pending, more, k);
    }
  }

  lemma {:induction false} TakingConserves(h: Queues, key: string, n: nat)
    requires Conserved(h) && n <= |OfKey(h.pending, key)|
    ensures Conserved(Next(h, Flush(0, key, n)))
  {
    hide OfKey, Drop, Concat;
    forall k
      ensures OfKey(Next(h, Flush(0, key, n)).filed, k) ==
        OfKey(Concat(Next(h, Flush(0, key, n)).flushed), k) + OfKey(Next(h, Flush(0, key, n)).pending, k)
    {
      FlushConserves(h, key, n, k);
    }
  }

  lemma {:induction false} PassFiles(h: Queues, capacity: nat, p: Pass, h': Queues)
    requires PassEffect(h, capacity, p, h') && Conserved(h)
    ensures Conserved(h')
    ensures h'.filed ==
      h.filed + p.sent + (if p.wake.Arrived? && |h'.flushed| == |h.flushed| then [p.wake.item] else [])
  {
    hide OfKey, Drop, Total, Conserved, EarliestEligible, NoneEligible;
    var waiting := h.pending + p.sent;
    FilingConserves(h, p.sent);
    var filed := Queues(waiting, h.filed + p.sent, h.flushed);
    if NoneEligible(waiting, capacity, p.now) {
      FilingConserves(filed, Woken(p));
    } else {
      var key: string, n: nat :| FlushOf(waiting, capacity, p.now, key, n)
        && h' == Queues(Drop(waiting, key, n), h.filed + p.sent, h.flushed + [OfKey(waiting, key)[..n]]);
      TakingConserves(filed, key, n);
      assert h' == Next(filed, Flush(0, key, n));
    }
  }

  /** Over any passes: whatever was received is, key by key and in the order it came, in the batches flushed and then in
      the queue. */
  lemma {:induction false} ReceivedIsFlushedOrWaits(
      seen: seq<Queues>, capacity: nat, passes: seq<Pass>, n: nat, key: string)
    requires PassEffects(seen, capacity, passes) && n < |seen| && seen[0] == Start()
    ensures OfKey(Received(seen, passes, n), key) == OfKey(Concat(seen[n].flushed), key) + OfKey(seen[n].pending, key)
  {
    ReceivedIsFiled(seen, capacity, passes, n);
  }

  lemma {:induction false} ReceivedIsFiled(seen: seq<Queues>, capacity: nat, passes: seq<Pass>, n: nat)
    requires PassEffects(seen, capacity, passes) && n < |seen| && seen[0] == Start()
    ensures seen[n].filed == Received(seen, passes, n) && Conserved(seen[n])
  {
    hide PassEffect, Conserved;
    if n == 0 {
      assert Conserved(Start()) by {
        NothingFiled();
      }
    } else {
      ReceivedIsFiled(seen, capacity, passes, n - 1);
      PassFiles(seen[n - 1], capacity, passes[n - 1], seen[n]);
    }
  }

  lemma NothingFiled()
    ensures Conserved(Start())
  {
  }
}
