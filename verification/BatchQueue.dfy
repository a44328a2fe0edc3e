/** The accumulator's queues as one list of pending requests in filing order, and what every run of
    filing and flushing keeps. */
module BatchQueue {
  import opened Values

  /** How long a request may wait for company, in milliseconds. */
  const FLUSH_DEADLINE: nat := 100

  /** One request in flight; `id` stands for its response channel. */
  datatype Item = Item(id: nat, inputs: Inputs, acceleration: string, count: nat, key: string, enqueued: nat)

  function Total(items: seq<Item>): nat {
    if |items| == 0 then 0 else Total(items[..|items| - 1]) + items[|items| - 1].count
  }

  ghost predicate Counted(items: seq<Item>) {
    forall i :: 0 <= i < |items| ==> items[i].count >= 1
  }

  /** One key's queue: the pending items with that key, in filing order. */
  function OfKey(items: seq<Item>, key: string): seq<Item> {
    if |items| == 0 then []
    else (if items[0].key == key then [items[0]] else []) + OfKey(items[1..], key)
  }

  /** The pending list once the first `n` items of `key` have left it. */
  function Drop(items: seq<Item>, key: string, n: nat): seq<Item> {
    if n == 0 || |items| == 0 then items
    else if items[0].key == key then Drop(items[1..], key, n - 1)
    else [items[0]] + Drop(items[1..], key, n)
  }

  function Concat(batches: seq<seq<Item>>): seq<Item> {
    if |batches| == 0 then [] else Concat(batches[..|batches| - 1]) + batches[|batches| - 1]
  }

  /** How many items are stamped no later than `t`. */
  function CountUpTo(items: seq<Item>, t: nat): nat {
    if |items| == 0 then 0 else (if items[0].enqueued <= t then 1 else 0) + CountUpTo(items[1..], t)
  }

  ghost predicate InStampOrder(items: seq<Item>) {
    forall i, j :: 0 <= i < j < |items| ==> items[i].enqueued <= items[j].enqueued
  }

  /** The largest prefix that fits, or a single oversized item. */
  ghost predicate LargestPrefix(queue: seq<Item>, capacity: nat, n: nat) {
    && 1 <= n <= |queue|
    && (n == 1 || Total(queue[..n]) <= capacity)
    && forall m :: n < m <= |queue| ==> Total(queue[..m]) > capacity
  }

  /** At capacity, or past the front item's deadline. */
  predicate Eligible(queue: seq<Item>, capacity: nat, now: nat) {
    |queue| > 0 && (Total(queue) >= capacity || queue[0].enqueued + FLUSH_DEADLINE <= now)
  }

  /** `key` is eligible and no eligible key has an earlier deadline. */
  ghost predicate EarliestEligible(pending: seq<Item>, capacity: nat, now: nat, key: string) {
    && Eligible(OfKey(pending, key), capacity, now)
    && forall k :: Eligible(OfKey(pending, k), capacity, now) ==>
        OfKey(pending, key)[0].enqueued <= OfKey(pending, k)[0].enqueued
  }

  // ----- lists -----

  lemma {:induction false} OfKeyConcat(a: seq<Item>, b: seq<Item>, key: string)
    ensures OfKey(a + b, key) == OfKey(a, key) + OfKey(b, key)
  {
    if |a| == 0 {
      assert a + b == b;
    } else {
      assert (a + b)[0] == a[0] && (a + b)[1..] == a[1..] + b;
      OfKeyConcat(a[1..], b, key);
      var head := if a[0].key == key then [a[0]] else [];
      assert OfKey(a + b, key) == head + OfKey(a[1..] + b, key);
    }
  }

  lemma {:induction false} OfKeyOwn(items: seq<Item>, key: string)
    ensures forall i :: 0 <= i < |OfKey(items, key)| ==> OfKey(items, key)[i].key == key
    ensures (forall i :: 0 <= i < |items| ==> items[i].key == key) ==> OfKey(items, key) == items
    ensures forall other :: other != key && (forall i :: 0 <= i < |items| ==> items[i].key == key) ==>
      OfKey(items, other) == []
  {
    if |items| > 0 {
      OfKeyOwn(items[1..], key);
    }
  }

  lemma {:induction false} OfKeyMember(items: seq<Item>, r: Item)
    requires r in items
    ensures r in OfKey(items, r.key)
  {
    if items[0] != r {
      OfKeyMember(items[1..], r);
    }
  }

  lemma {:induction false} DropOwn(items: seq<Item>, key: string, n: nat)
    requires n <= |OfKey(items, key)|
    ensures OfKey(Drop(items, key, n), key) == OfKey(items, key)[n..]
  {
    if n > 0 && |items| > 0 {
      if items[0].key == key {
        DropOwn(items[1..], key, n - 1);
      } else {
        DropOwn(items[1..], key, n);
        assert ([items[0]] + Drop(items[1..], key, n))[1..] == Drop(items[1..], key, n);
      }
    }
  }

  lemma {:induction false} DropOther(items: seq<Item>, key: string, n: nat, other: string)
    requires other != key
    ensures OfKey(Drop(items, key, n), other) == OfKey(items, other)
  {
    if n > 0 && |items| > 0 {
      if items[0].key == key {
        DropOther(items[1..], key, n - 1, other);
      } else {
        DropOther(items[1..], key, n, other);
        assert ([items[0]] + Drop(items[1..], key, n))[1..] == Drop(items[1..], key, n);
      }
    }
  }

  lemma {:induction false} DropCounts(items: seq<Item>, key: string, n: nat, t: nat)
    requires n <= |OfKey(items, key)|
    ensures CountUpTo(Drop(items, key, n), t) + CountUpTo(OfKey(items, key)[..n], t) == CountUpTo(items, t)
  {
    if n > 0 && |items| > 0 {
      var queue := OfKey(items, key);
      if items[0].key == key {
        DropCounts(items[1..], key, n - 1, t);
        assert queue[..n][1..] == OfKey(items[1..], key)[..n - 1];
      } else {
        DropCounts(items[1..], key, n, t);
        assert queue == OfKey(items[1..], key);
        assert ([items[0]] + Drop(items[1..], key, n))[1..] == Drop(items[1..], key, n);
      }
    }
  }

  lemma {:induction false} CountUpToConcat(a: seq<Item>, b: seq<Item>, t: nat)
    ensures CountUpTo(a + b, t) == CountUpTo(a, t) + CountUpTo(b, t)
  {
    if |a| == 0 {
      assert a + b == b;
    } else {
      assert (a + b)[1..] == a[1..] + b;
      CountUpToConcat(a[1..], b, t);
    }
  }

  lemma {:induction false} CountUpToMember(items: seq<Item>, r: Item, t: nat)
    requires r in items && r.enqueued <= t
    ensures CountUpTo(items, t) >= 1
  {
    if items[0] != r {
      CountUpToMember(items[1..], r, t);
    }
  }

  lemma {:induction false} OfKeyWithin(items: seq<Item>, key: string)
    ensures forall i :: 0 <= i < |OfKey(items, key)| ==> OfKey(items, key)[i] in items
  {
    if |items| > 0 {
      OfKeyWithin(items[1..], key);
      assert forall x :: x in items[1..] ==> x in items;
    }
  }

  lemma {:induction false} OfKeyInOrder(items: seq<Item>, key: string)
    requires InStampOrder(items)
    ensures InStampOrder(OfKey(items, key))
  {
    if |items| > 0 {
      OfKeyInOrder(items[1..], key);
      OfKeyWithin(items[1..], key);
      var rest := OfKey(items[1..], key);
      forall i | 0 <= i < |rest| ensures items[0].enqueued <= rest[i].enqueued {
        var j :| 0 <= j < |items[1..]| && items[1..][j] == rest[i];
        assert items[0].enqueued <= items[j + 1].enqueued;
      }
    }
  }

  // ----- runs -----

  datatype Step = File(item: Item) | Flush(now: nat, key: string, n: nat)

  /** What is queued, and the history: everything filed and every batch flushed. */
  datatype Queues = Queues(pending: seq<Item>, filed: seq<Item>, flushed: seq<seq<Item>>)

  function Start(): Queues {
    Queues([], [], [])
  }

  ghost predicate Enabled(s: Queues, capacity: nat, step: Step) {
    match step
    case File(item) => item.count >= 1
    case Flush(now, key, n) =>
      EarliestEligible(s.pending, capacity, now, key) && LargestPrefix(OfKey(s.pending, key), capacity, n)
  }

  function Next(s: Queues, step: Step): Queues {
    match step
    case File(item) => s.(pending := s.pending + [item], filed := s.filed + [item])
    case Flush(_, key, n) =>
      var queue := OfKey(s.pending, key);
      s.(pending := Drop(s.pending, key, n),
         flushed := s.flushed + [if n <= |queue| then queue[..n] else queue])
  }

  ghost predicate IsRun(s: Queues, capacity: nat, steps: seq<Step>)
    decreases |steps|
  {
    |steps| == 0 || (Enabled(s, capacity, steps[0]) && IsRun(Next(s, steps[0]), capacity, steps[1..]))
  }

  function After(s: Queues, steps: seq<Step>): Queues
    decreases |steps|
  {
    if |steps| == 0 then s else After(Next(s, steps[0]), steps[1..])
  }

  lemma {:induction false} RunExtends(s: Queues, capacity: nat, steps: seq<Step>, step: Step)
    requires IsRun(s, capacity, steps) && Enabled(After(s, steps), capacity, step)
    ensures IsRun(s, capacity, steps + [step]) && After(s, steps + [step]) == Next(After(s, steps), step)
    decreases |steps|
  {
    if |steps| == 0 {
      assert (steps + [step])[1..] == [];
    } else {
      assert (steps + [step])[1..] == steps[1..] + [step];
      RunExtends(Next(s, steps[0]), capacity, steps[1..], step);
    }
  }

  /** Per key, the flushed batches followed by what is queued are what was filed, in order. */
  ghost predicate Conserved(s: Queues) {
    forall key :: OfKey(s.filed, key) == OfKey(Concat(s.flushed), key) + OfKey(s.pending, key)
  }

  /** Every batch is non-empty, has one key, and fits unless it is a single oversized item. */
  ghost predicate GoodBatches(s: Queues, capacity: nat) {
    forall b :: 0 <= b < |s.flushed| ==>
      && |s.flushed[b]| > 0
      && (forall i :: 0 <= i < |s.flushed[b]| ==> s.flushed[b][i].key == s.flushed[b][0].key)
      && (|s.flushed[b]| == 1 || Total(s.flushed[b]) <= capacity)
  }

  ghost predicate Inv(s: Queues, capacity: nat) {
    Conserved(s) && GoodBatches(s, capacity) && Counted(s.pending)
  }

  lemma {:induction false} DropCounted(items: seq<Item>, key: string, n: nat)
    requires Counted(items)
    ensures Counted(Drop(items, key, n))
  {
    if n > 0 && |items| > 0 {
      if items[0].key == key {
        DropCounted(items[1..], key, n - 1);
      } else {
        DropCounted(items[1..], key, n);
      }
    }
  }

  lemma ConcatNext(batches: seq<seq<Item>>, batch: seq<Item>)
    ensures Concat(batches + [batch]) == Concat(batches) + batch
  {
    assert (batches + [batch])[..|batches|] == batches;
  }

  lemma {:induction false} FlushConserves(s: Queues, key: string, n: nat, k: string)
    requires n <= |OfKey(s.pending, key)|
    requires OfKey(s.filed, k) == OfKey(Concat(s.flushed), k) + OfKey(s.pending, k)
    ensures var s' := Next(s, Flush(0, key, n));
      OfKey(s'.filed, k) == OfKey(Concat(s'.flushed), k) + OfKey(s'.pending, k)
  {
    hide OfKey, Drop, Concat;
    var queue := OfKey(s.pending, key);
    var s' := Next(s, Flush(0, key, n));
    ConcatNext(s.flushed, queue[..n]);
    OfKeyConcat(Concat(s.flushed), queue[..n], k);
    BatchThenRest(s.pending, key, n, k);
  }

  /** A key's batch followed by what stays pending under any key is what was pending under it. */
  lemma {:induction false} BatchThenRest(pending: seq<Item>, key: string, n: nat, k: string)
    requires n <= |OfKey(pending, key)|
    ensures OfKey(OfKey(pending, key)[..n], k) + OfKey(Drop(pending, key, n), k) == OfKey(pending, k)
  {
    hide OfKey, Drop;
    var queue := OfKey(pending, key);
    OfKeyOwn(pending, key);
    OfKeyOwn(queue[..n], key);
    if k == key {
      DropOwn(pending, key, n);
      assert queue == queue[..n] + queue[n..];
    } else {
      DropOther(pending, key, n, k);
    }
  }

  lemma {:induction false} StepKeepsInv(s: Queues, capacity: nat, step: Step)
    requires Inv(s, capacity) && Enabled(s, capacity, step)
    ensures Inv(Next(s, step), capacity)
  {
    match step {
      case File(item) =>
        forall k ensures OfKey(s.filed + [item], k) == OfKey(Concat(s.flushed), k) + OfKey(s.pending + [item], k) {
          OfKeyConcat(s.filed, [item], k);
          OfKeyConcat(s.pending, [item], k);
        }
      case Flush(now, key, n) =>
        DropCounted(s.pending, key, n);
        OfKeyOwn(s.pending, key);
        forall k ensures OfKey(Next(s, step).filed, k) ==
          OfKey(Concat(Next(s, step).flushed), k) + OfKey(Next(s, step).pending, k)
        {
          FlushConserves(s, key, n, k);
        }
    }
  }

  /** Over every run, nothing is lost, duplicated or reordered within a key, and every batch is a good one. */
  lemma {:induction false} RunKeepsInv(s: Queues, capacity: nat, steps: seq<Step>)
    requires Inv(s, capacity) && IsRun(s, capacity, steps)
    ensures Inv(After(s, steps), capacity)
    decreases |steps|
  {
    if |steps| > 0 {
      StepKeepsInv(s, capacity, steps[0]);
      RunKeepsInv(Next(s, steps[0]), capacity, steps[1..]);
    }
  }

  // ----- ties -----

  /** Which key is flushed is settled exactly when no other eligible key's front carries the same stamp. */
  lemma {:induction false} ChoiceIsSoleIff(pending: seq<Item>, capacity: nat, now: nat, j: string)
    requires EarliestEligible(pending, capacity, now, j)
    ensures (forall k :: EarliestEligible(pending, capacity, now, k) ==> k == j) <==>
      !exists k :: Tied(pending, capacity, now, j, k)
  {
    hide OfKey;
    if k :| Tied(pending, capacity, now, j, k) {
      assert EarliestEligible(pending, capacity, now, k);
    }
    if k :| k != j && EarliestEligible(pending, capacity, now, k) {
      assert Tied(pending, capacity, now, j, k);
    }
  }

  /** Another key is eligible, with the same stamp at its front. */
  ghost predicate Tied(pending: seq<Item>, capacity: nat, now: nat, j: string, k: string)
    requires |OfKey(pending, j)| > 0
  {
    && k != j && Eligible(OfKey(pending, k), capacity, now)
    && OfKey(pending, k)[0].enqueued == OfKey(pending, j)[0].enqueued
  }

  /** Two overdue requests of different keys with one stamp: either may be flushed first, so the later filed one may
      overtake the other. */
  lemma {:induction false} TiedKeysEitherFirst(a: Item, b: Item, capacity: nat, now: nat)
    requires a.key != b.key && a.enqueued == b.enqueued && a.count >= 1 && b.count >= 1
    requires a.enqueued + FLUSH_DEADLINE <= now
    ensures IsRun(Start(), capacity, [File(a), File(b)])
    ensures var s := After(Start(), [File(a), File(b)]);
      s.pending == [a, b] && Enabled(s, capacity, Flush(now, a.key, 1)) && Enabled(s, capacity, Flush(now, b.key, 1))
  {
    var s1 := Next(Start(), File(a));
    var s := Next(s1, File(b));
    assert [File(a), File(b)][1..] == [File(b)] && [File(b)][1..] == [];
    assert IsRun(s, capacity, []) && IsRun(s1, capacity, [File(b)]);
    assert After(s1, [File(b)]) == After(s, []) == s;
    assert s.pending == [a, b] && [a, b][1..] == [b] && [b][1..] == [];
    assert OfKey([b], b.key) == [b] && OfKey([b], a.key) == [];
    assert OfKey([a, b], a.key) == [a] && OfKey([a, b], b.key) == [b];
    forall k | k != a.key && k != b.key ensures OfKey([a, b], k) == [] {
      assert OfKey([b], k) == [];
    }
    hide OfKey;
  }

  /** One such queue: the second key may go first although the first was filed before it. */
  lemma {:induction false} ArrivalOrderBreaksNoTie(capacity: nat)
    ensures var a, b := Item(0, map[], "", 1, "first", 0), Item(1, map[], "", 1, "second", 0);
      var s := After(Start(), [File(a), File(b)]);
      && IsRun(Start(), capacity, [File(a), File(b)])
      && Enabled(s, capacity, Flush(FLUSH_DEADLINE, "first", 1))
      && Enabled(s, capacity, Flush(FLUSH_DEADLINE, "second", 1))
  {
    TiedKeysEitherFirst(
      Item(0, map[], "", 1, "first", 0), Item(1, map[], "", 1, "second", 0), capacity, FLUSH_DEADLINE);
  }

  // ----- bounded wait -----

  /** `r` is queued, and neither it nor anything before it in its key's queue is stamped later than `t`. */
  ghost predicate Ahead(pending: seq<Item>, r: Item, t: nat) {
    exists p :: 0 <= p < |OfKey(pending, r.key)| && At(OfKey(pending, r.key), p, r, t)
  }

  ghost predicate At(queue: seq<Item>, p: int, r: Item, t: nat)
    requires 0 <= p < |queue|
  {
    queue[p] == r && forall i :: 0 <= i <= p ==> queue[i].enqueued <= t
  }

  /** A key's queue inherits the filing order. */
  lemma {:induction false} QueueInOrder(s: Queues, key: string)
    requires Conserved(s) && InStampOrder(s.filed)
    ensures InStampOrder(OfKey(s.pending, key))
  {
    OfKeyInOrder(s.filed, key);
    var gone := OfKey(Concat(s.flushed), key);
    var all := OfKey(s.filed, key);
    assert forall i :: 0 <= i < |OfKey(s.pending, key)| ==> OfKey(s.pending, key)[i] == all[|gone| + i];
  }

  /** When requests are filed in the order of their stamps, a request waits behind no stamp later than its own. */
  lemma {:induction false} InOrderNothingLaterAhead(s: Queues, r: Item)
    requires Conserved(s) && InStampOrder(s.filed) && r in s.pending
    ensures Ahead(s.pending, r, r.enqueued)
  {
    OfKeyMember(s.pending, r);
    QueueInOrder(s, r.key);
    var queue := OfKey(s.pending, r.key);
    var p :| 0 <= p < |queue| && queue[p] == r;
    assert At(queue, p, r, r.enqueued);
  }

  lemma {:induction false} FilingKeepsAhead(pending: seq<Item>, more: seq<Item>, r: Item, t: nat)
    requires Ahead(pending, r, t)
    ensures Ahead(pending + more, r, t)
  {
    OfKeyConcat(pending, more, r.key);
    var queue := OfKey(pending, r.key);
    var p :| 0 <= p < |queue| && At(queue, p, r, t);
    assert At(queue + OfKey(more, r.key), p, r, t);
  }

  /** A flush takes the request along or leaves it with no later stamp ahead of it. */
  lemma {:induction false} FlushTakesOrKeepsAhead(pending: seq<Item>, key: string, n: nat, r: Item, t: nat)
    requires Ahead(pending, r, t) && n <= |OfKey(pending, key)|
    ensures r in OfKey(pending, key)[..n] || Ahead(Drop(pending, key, n), r, t)
  {
    var queue := OfKey(pending, r.key);
    var p :| 0 <= p < |queue| && At(queue, p, r, t);
    if key != r.key {
      DropOther(pending, key, n, r.key);
    } else if p < n {
      assert queue[..n][p] == r;
    } else {
      DropOwn(pending, key, n);
      assert At(queue[n..], p - n, r, t);
    }
  }

  /** With everything up to the request overdue, whatever is flushed starts with an item stamped no later than `t`. */
  lemma {:induction false} FlushServesOldest(s: Queues, capacity: nat, now: nat, key: string, n: nat, r: Item, t: nat)
    requires Enabled(s, capacity, Flush(now, key, n)) && Ahead(s.pending, r, t) && t + FLUSH_DEADLINE <= now
    ensures |OfKey(s.pending, key)| > 0 && OfKey(s.pending, key)[0].enqueued <= t
  {
    hide OfKey;
    assert Eligible(OfKey(s.pending, r.key), capacity, now);
  }

  /** Each such flush leaves strictly fewer pending requests stamped no later than `t`. */
  lemma {:induction false} FlushLowersRank(s: Queues, capacity: nat, now: nat, key: string, n: nat, r: Item, t: nat)
    requires Enabled(s, capacity, Flush(now, key, n)) && Ahead(s.pending, r, t) && t + FLUSH_DEADLINE <= now
    ensures CountUpTo(Next(s, Flush(now, key, n)).pending, t) < CountUpTo(s.pending, t)
  {
    FlushServesOldest(s, capacity, now, key, n, r, t);
    hide OfKey, Drop, CountUpTo;
    DropCounts(s.pending, key, n, t);
    var batch := OfKey(s.pending, key)[..n];
    CountUpToMember(batch, batch[0], t);
  }

  /** `r` waits through the whole run, with no stamp later than `t` ahead of it and `t` overdue at every flush. */
  ghost predicate OverdueThroughout(s: Queues, steps: seq<Step>, r: Item, t: nat)
    decreases |steps|
  {
    && Ahead(s.pending, r, t)
    && (|steps| == 0 ||
        ((steps[0].Flush? ==> t + FLUSH_DEADLINE <= steps[0].now)
         && OverdueThroughout(Next(s, steps[0]), steps[1..], r, t)))
  }

  function Flushes(steps: seq<Step>): nat {
    if |steps| == 0 then 0 else (if steps[0].Flush? then 1 else 0) + Flushes(steps[1..])
  }

  /** Requests filed during the run with a stamp no later than `t`. */
  function LateArrivals(steps: seq<Step>, t: nat): nat {
    if |steps| == 0 then 0
    else (if steps[0].File? && steps[0].item.enqueued <= t then 1 else 0) + LateArrivals(steps[1..], t)
  }

  lemma {:induction false} AheadCounts(pending: seq<Item>, r: Item, t: nat)
    requires Ahead(pending, r, t)
    ensures CountUpTo(pending, t) >= 1
  {
    OfKeyWithin(pending, r.key);
    hide OfKey, CountUpTo;
    CountUpToMember(pending, r, t);
  }

  /** Bounded wait: a request still waits only while fewer flushes have happened than there were requests stamped no
      later than the latest stamp ahead of it, whatever other keys arrive and in whatever order stamps are filed. */
  lemma {:induction false} WaitIsBounded(s: Queues, capacity: nat, steps: seq<Step>, r: Item, t: nat)
    requires IsRun(s, capacity, steps) && OverdueThroughout(s, steps, r, t)
    ensures Flushes(steps) < CountUpTo(s.pending, t) + LateArrivals(steps, t)
    decreases |steps|
  {
    hide OfKey, Ahead;
    AheadCounts(s.pending, r, t);
    if |steps| > 0 {
      WaitIsBounded(Next(s, steps[0]), capacity, steps[1..], r, t);
      match steps[0] {
        case File(item) => CountUpToConcat(s.pending, [item], t);
        case Flush(now, key, n) => FlushLowersRank(s, capacity, now, key, n, r, t);
      }
    }
  }
}
