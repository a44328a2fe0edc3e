/** The accumulator task: per-key queues changed in place, and its loop. */
module BatchWorker {
  import opened Wrappers
  import opened Values
  import opened BatchQueue
  import opened BatchAnswers

  lemma {:induction false} TotalGrows(items: seq<Item>, n: nat, m: nat)
    requires Counted(items) && n < m <= |items|
    ensures Total(items[..m]) >= Total(items[..n]) + items[n].count >= Total(items[..n]) + 1
    decreases m
  {
    assert items[..m][..m - 1] == items[..m - 1];
    if n + 1 < m {
      TotalGrows(items, n, m - 1);
    }
  }

  lemma {:induction false} TotalConcat(a: seq<Item>, b: seq<Item>)
    ensures Total(a + b) == Total(a) + Total(b)
  {
    if |b| == 0 {
      assert a + b == a;
    } else {
      assert (a + b)[..|a + b| - 1] == a + b[..|b| - 1];
      TotalConcat(a, b[..|b| - 1]);
    }
  }

  lemma OfKeyAppend(pending: seq<Item>, item: Item)
    ensures forall k ::
      OfKey(pending + [item], k) == if k == item.key then OfKey(pending, k) + [item] else OfKey(pending, k)
  {
    forall k ensures OfKey(pending + [item], k) ==
      if k == item.key then OfKey(pending, k) + [item] else OfKey(pending, k)
    {
      OfKeyConcat(pending, [item], k);
    }
  }

  /** One key's waiting requests, oldest filing first, and their summed row count. */
  class KeyQueue {
    var items: seq<Item>
    var totalItems: nat

    ghost predicate Valid()
      reads this
    {
      Counted(items) && totalItems == Total(items)
    }

    constructor ()
      ensures Valid() && items == []
    {
      items := [];
      totalItems := 0;
    }

    function Deadline(): nat
      requires |items| > 0
      reads this
    {
      items[0].enqueued + FLUSH_DEADLINE
    }

    method PushBack(item: Item)
      requires Valid() && item.count >= 1
      modifies this
      ensures Valid() && items == old(items) + [item]
    {
      TotalConcat(items, [item]);
      assert Total([item]) == item.count;
      totalItems := totalItems + item.count;
      items := items + [item];
    }

    /** Take the largest prefix that fits in `capacity`, at least one item. */
    method TakeBatch(capacity: nat) returns (batch: seq<Item>)
      requires Valid() && |items| > 0
      modifies this
      ensures Valid() && old(items) == batch + items
      ensures LargestPrefix(old(items), capacity, |batch|)
    {
      ghost var all := items;
      batch := [];
      var total: nat := 0;
      var done := false;
      TakeStart(all);
      hide *;
      while !done && |items| > 0
        invariant Taking(all, batch, items, totalItems, total, capacity)
        invariant done ==> LargestPrefix(all, capacity, |batch|)
        invariant !done ==> |batch| == 0 || total < capacity
        invariant |items| == 0 && !done ==> LargestPrefix(all, capacity, |batch|)
        decreases !done, |items|
      {
        var front := items[0];
        if |batch| > 0 && total + front.count > capacity {
          TakeOverflows(all, batch, items, totalItems, total, capacity);
          done := true;
        } else {
          TakeNext(all, batch, items, totalItems, total, capacity);
          TakeDone(all, batch + [front], items[1..], totalItems - front.count, total + front.count, capacity);
          total := total + front.count;
          items := items[1..];
          totalItems := totalItems - front.count;
          batch := batch + [front];
          if total >= capacity {
            done := true;
          }
        }
      }
      TakeEnd(all, batch, items, totalItems, total, capacity);
    }
  }

  /** What holds while a batch is being taken off the front. */
  ghost predicate Taking(
      all: seq<Item>, batch: seq<Item>, items: seq<Item>, totalItems: nat, total: nat, capacity: nat) {
    && Counted(all) && |all| > 0 && all == batch + items
    && totalItems == Total(items) && total == Total(batch)
    && (|batch| <= 1 || total <= capacity)
  }

  lemma TakeStart(all: seq<Item>)
    requires Counted(all) && |all| > 0
    ensures forall totalItems: nat, capacity ::
      totalItems == Total(all) ==> Taking(all, [], all, totalItems, 0, capacity)
  {
    assert all == [] + all;
  }

  lemma TakeOverflows(
      all: seq<Item>, batch: seq<Item>, items: seq<Item>, totalItems: nat, total: nat, capacity: nat)
    requires Taking(all, batch, items, totalItems, total, capacity)
    requires |batch| > 0 && |items| > 0 && total + items[0].count > capacity
    ensures LargestPrefix(all, capacity, |batch|)
  {
    assert all[..|batch|] == batch;
    assert all[..|batch| + 1] == batch + [items[0]];
    TotalConcat(batch, [items[0]]);
    assert Total([items[0]]) == items[0].count;
    PrefixIsLargest(all, capacity, |batch|);
  }

  lemma TakeNext(
      all: seq<Item>, batch: seq<Item>, items: seq<Item>, totalItems: nat, total: nat, capacity: nat)
    requires Taking(all, batch, items, totalItems, total, capacity) && |items| > 0
    requires |batch| == 0 || total + items[0].count <= capacity
    ensures totalItems >= items[0].count
    ensures Taking(all, batch + [items[0]], items[1..], totalItems - items[0].count, total + items[0].count, capacity)
  {
    var front := items[0];
    TotalOne(front);
    hide Total, Counted;
    TotalConcat([front], items[1..]);
    TotalConcat(batch, [front]);
    assert items == [front] + items[1..];
    assert all == (batch + [front]) + items[1..];
  }

  /** A taken batch that is full, or leaves nothing, is the largest prefix. */
  lemma TakeDone(
      all: seq<Item>, batch: seq<Item>, items: seq<Item>, totalItems: nat, total: nat, capacity: nat)
    requires Taking(all, batch, items, totalItems, total, capacity) && |batch| > 0
    ensures total >= capacity || |items| == 0 ==> LargestPrefix(all, capacity, |batch|)
  {
    hide Total, Counted, LargestPrefix;
    if total >= capacity || |items| == 0 {
      TakeFull(all, batch, items, total, capacity);
    }
  }

  lemma TotalOne(item: Item)
    ensures Total([item]) == item.count
  {
  }

  lemma TakeFull(all: seq<Item>, batch: seq<Item>, items: seq<Item>, total: nat, capacity: nat)
    requires Counted(all) && all == batch + items && |batch| > 0 && total == Total(batch)
    requires |batch| == 1 || total <= capacity
    requires total >= capacity || |items| == 0
    ensures LargestPrefix(all, capacity, |batch|)
  {
    assert all[..|batch|] == batch;
    PrefixIsLargest(all, capacity, |batch|);
  }

  lemma TakeEnd(
      all: seq<Item>, batch: seq<Item>, items: seq<Item>, totalItems: nat, total: nat, capacity: nat)
    requires Taking(all, batch, items, totalItems, total, capacity)
    ensures all == batch + items && Counted(items) && totalItems == Total(items)
  {
    assert forall i :: 0 <= i < |items| ==> items[i] == all[|batch| + i];
  }

  /** A prefix that is full, or that the next item would overflow, is the largest. */
  lemma PrefixIsLargest(all: seq<Item>, capacity: nat, n: nat)
    requires Counted(all) && 1 <= n <= |all| && (n == 1 || Total(all[..n]) <= capacity)
    requires n == |all| || Total(all[..n]) >= capacity || Total(all[..n + 1]) > capacity
    ensures LargestPrefix(all, capacity, n)
  {
    forall m | n < m <= |all| ensures Total(all[..m]) > capacity {
      TotalGrows(all, n, m);
      if n + 1 < m {
        TotalGrows(all, n + 1, m);
      }
    }
  }

  /** What one pass of the loop meets: requests sent since the last pass, the time, and how a wait ends. */
  datatype Wake = Arrived(item: Item) | TimedOut | Closed
  datatype Pass = Pass(sent: seq<Item>, now: nat, wake: Wake)

  ghost predicate GoodPass(p: Pass) {
    Counted(p.sent) && (p.wake.Arrived? ==> p.wake.item.count >= 1)
  }

  function AnswerIds(answers: seq<Answer>): seq<nat> {
    seq(|answers|, i requires 0 <= i < |answers| => answers[i].id)
  }

  function ItemIds(items: seq<Item>): seq<nat> {
    seq(|items|, i requires 0 <= i < |items| => items[i].id)
  }

  ghost predicate NoneEligible(pending: seq<Item>, capacity: nat, now: nat) {
    forall k :: !Eligible(OfKey(pending, k), capacity, now)
  }

  lemma DropByKey(pending: seq<Item>, key: string, n: nat)
    requires n <= |OfKey(pending, key)|
    ensures forall k ::
      OfKey(Drop(pending, key, n), k) == if k == key then OfKey(pending, k)[n..] else OfKey(pending, k)
  {
    forall k ensures OfKey(Drop(pending, key, n), k) ==
      if k == key then OfKey(pending, k)[n..] else OfKey(pending, k)
    {
      if k == key {
        DropOwn(pending, key, n);
      } else {
        DropOther(pending, key, n, k);
      }
    }
  }

  /** Answering a flushed batch keeps answered and flushed requests in step. */
  lemma FlushLogged(
      s: Queues, capacity: nat, now: nat, key: string, batch: seq<Item>, answers: seq<Answer>, delivered: seq<Answer>)
    requires AnswerIds(answers) == ItemIds(Concat(s.flushed))
    requires |batch| <= |OfKey(s.pending, key)| && batch == OfKey(s.pending, key)[..|batch|]
    requires |delivered| == |batch| && forall i :: 0 <= i < |batch| ==> delivered[i].id == batch[i].id
    ensures AnswerIds(answers + delivered) == ItemIds(Concat(Next(s, BatchQueue.Flush(now, key, |batch|)).flushed))
  {
    var next := Next(s, BatchQueue.Flush(now, key, |batch|));
    assert next.flushed[..|next.flushed| - 1] == s.flushed;
    assert ItemIds(Concat(s.flushed) + batch) == ItemIds(Concat(s.flushed)) + ItemIds(batch);
    assert AnswerIds(answers + delivered) == AnswerIds(answers) + AnswerIds(delivered);
    assert AnswerIds(delivered) == ItemIds(batch);
  }

  /** The request a wait ends with, if it ends with one. */
  function Woken(p: Pass): seq<Item> {
    if p.wake.Arrived? then [p.wake.item] else []
  }

  /** What one pass does to what waits in `h`: everything sent is filed; if some key is then eligible, the one with
      the earliest deadline is flushed, and otherwise nothing is, and the wait may file one request more. */
  ghost predicate PassEffect(h: Queues, capacity: nat, p: Pass, h': Queues) {
    var waiting := h.pending + p.sent;
    if NoneEligible(waiting, capacity, p.now) then
      h' == Queues(waiting + Woken(p), h.filed + p.sent + Woken(p), h.flushed)
    else
      exists key: string, n: nat :: FlushOf(waiting, capacity, p.now, key, n)
        && h' == Queues(Drop(waiting, key, n), h.filed + p.sent, h.flushed + [OfKey(waiting, key)[..n]])
  }

  ghost predicate FlushOf(waiting: seq<Item>, capacity: nat, now: nat, key: string, n: nat) {
    EarliestEligible(waiting, capacity, now, key) && LargestPrefix(OfKey(waiting, key), capacity, n)
  }

  /** The pass found nothing to flush and the channel closed. */
  ghost predicate Closes(h: Queues, capacity: nat, p: Pass) {
    NoneEligible(h.pending + p.sent, capacity, p.now) && p.wake.Closed?
  }

  ghost predicate PassEffects(seen: seq<Queues>, capacity: nat, passes: seq<Pass>) {
    && 1 <= |seen| <= |passes| + 1
    && forall i :: 0 <= i < |seen| - 1 ==> PassEffect(seen[i], capacity, passes[i], seen[i + 1])
  }

  /** The loop went through all passes, or up to the one that closed the channel. */
  ghost predicate RanOut(seen: seq<Queues>, capacity: nat, passes: seq<Pass>) {
    |seen| == |passes| + 1 || (2 <= |seen| <= |passes| && Closes(seen[|seen| - 2], capacity, passes[|seen| - 2]))
  }

  lemma NothingYet(h: Queues, capacity: nat, passes: seq<Pass>)
    ensures IsRun(h, capacity, []) && After(h, []) == h && PassEffects([h], capacity, passes)
  {
  }

  lemma OnePassMore(seen: seq<Queues>, capacity: nat, passes: seq<Pass>, h: Queues)
    requires PassEffects(seen, capacity, passes) && |seen| <= |passes|
    requires PassEffect(seen[|seen| - 1], capacity, passes[|seen| - 1], h)
    ensures PassEffects(seen + [h], capacity, passes)
  {
    hide PassEffect;
  }

  /** A batch taken from the queues is what the flush step says it is. */
  lemma BatchTaken(h: Queues, capacity: nat, now: nat, key: string, batch: seq<Item>)
    requires Enabled(h, capacity, BatchQueue.Flush(now, key, |batch|))
    requires batch == OfKey(h.pending, key)[..|batch|]
    ensures FlushOf(h.pending, capacity, now, key, |batch|)
    ensures Next(h, BatchQueue.Flush(now, key, |batch|)) ==
      Queues(Drop(h.pending, key, |batch|), h.filed, h.flushed + [OfKey(h.pending, key)[..|batch|]])
  {
  }

  class BufferedWorker {
    const params: set<string>
    const capacity: nat
    const predict: Predictor
    var queues: map<string, KeyQueue>
    var answers: seq<Answer>
    /** The same state as one list in filing order, with its history. */
    ghost var history: Queues

    /** The queues hold exactly the pending items, each key its own, and no queue is empty. */
    ghost predicate Queued(pending: seq<Item>)
      reads this`queues, queues.Values
    {
      && (forall k :: k in queues ==> queues[k].Valid() && |queues[k].items| > 0)
      && (forall k :: k in queues ==> queues[k].items == OfKey(pending, k))
      && (forall k :: k !in queues ==> OfKey(pending, k) == [])
      && (forall j, k :: j in queues && k in queues && j != k ==> queues[j] != queues[k])
    }

    /** The history is sound and every flushed request has been answered once. */
    ghost predicate Logged()
      reads this`history, this`answers
    {
      && ReturnsWellFormed(predict) && Inv(history, capacity)
      && AnswerIds(answers) == ItemIds(Concat(history.flushed))
    }

    ghost predicate Valid()
      reads this, queues.Values
    {
      Queued(history.pending) && Logged()
    }

    constructor (params: set<string>, capacity: nat, predict: Predictor)
      requires ReturnsWellFormed(predict)
      ensures Valid() && history == Start() && queues == map[] && answers == []
      ensures this.params == params && this.capacity == capacity && this.predict == predict
    {
      this.params := params;
      this.capacity := capacity;
      this.predict := predict;
      queues := map[];
      answers := [];
      history := Start();
    }

    /** The request goes to the end of its own key's queue; the history records the filing. */
    method FileItem(item: Item)
      requires Valid() && item.count >= 1
      modifies this`queues, this`history, queues.Values
      ensures Valid() && fresh(queues.Values - old(queues.Values))
      ensures history == Next(old(history), File(item))
    {
      StepKeepsInv(history, capacity, File(item));
      Enqueue(item, history.pending);
      history := Next(history, File(item));
    }

    method Enqueue(item: Item, ghost pending: seq<Item>)
      requires Queued(pending) && item.count >= 1
      modifies this`queues, queues.Values
      ensures Queued(pending + [item]) && fresh(queues.Values - old(queues.Values))
    {
      OfKeyAppend(pending, item);
      hide OfKey, Total, Counted;
      if item.key !in queues {
        var queue := new KeyQueue();
        queues := queues[item.key := queue];
      }
      queues[item.key].PushBack(item);
    }

    /** The eligible key with the earliest deadline, if any key is eligible. */
    method EarliestKey(now: nat) returns (best: Option<string>)
      requires Valid()
      ensures best.None? <==> NoneEligible(history.pending, capacity, now)
      ensures best.Some? ==> best.value in queues && EarliestEligible(history.pending, capacity, now, best.value)
    {
      hide OfKey, Total, Counted, Inv, Concat, AnswerIds, ItemIds, ReturnsWellFormed;
      best := None;
      var keys := queues.Keys;
      while keys != {}
        invariant keys <= queues.Keys
        invariant best.Some? ==> best.value in queues && best.value !in keys
        invariant best.Some? ==> Eligible(queues[best.value].items, capacity, now)
        invariant forall k :: k in queues && k !in keys && Eligible(queues[k].items, capacity, now) ==>
          best.Some? && queues[best.value].items[0].enqueued <= queues[k].items[0].enqueued
        decreases keys
      {
        var key :| key in keys;
        var queue := queues[key];
        if queue.totalItems >= capacity || queue.Deadline() <= now {
          if best.None? || queue.Deadline() < queues[best.value].Deadline() {
            best := Some(key);
          }
        }
        keys := keys - {key};
      }
    }

    /** Take a batch off an eligible key whose front waited longest, and forget the key if that empties it. A batch
        is found exactly when some key is eligible. */
    method TakeFlushable(now: nat) returns (batch: Option<seq<Item>>, ghost key: string)
      requires Valid()
      modifies this`queues, queues.Values
      ensures queues.Values <= old(queues.Values)
      ensures batch.None? <==> NoneEligible(history.pending, capacity, now)
      ensures batch.None? ==> Valid()
      ensures batch.Some? ==>
        && Enabled(history, capacity, BatchQueue.Flush(now, key, |batch.value|))
        && batch.value == OfKey(history.pending, key)[..|batch.value|]
        && Queued(Drop(history.pending, key, |batch.value|))
    {
      hide Eligible, EarliestEligible, NoneEligible, OfKey, Drop, LargestPrefix;
      var best := EarliestKey(now);
      key := "";
      if best.None? {
        return None, key;
      }
      key := best.value;
      var taken := Dequeue(best.value, history.pending);
      batch := Some(taken);
    }

    method Dequeue(key: string, ghost pending: seq<Item>) returns (taken: seq<Item>)
      requires Queued(pending) && key in queues
      modifies this`queues, queues.Values
      ensures queues.Values <= old(queues.Values)
      ensures LargestPrefix(OfKey(pending, key), capacity, |taken|) && taken == OfKey(pending, key)[..|taken|]
      ensures Queued(Drop(pending, key, |taken|))
    {
      hide OfKey, Total, Counted, Drop, LargestPrefix;
      var queue := queues[key];
      taken := queue.TakeBatch(capacity);
      ghost var all := OfKey(pending, key);
      assert all[|taken|..] == queue.items && all[..|taken|] == taken;
      DropByKey(pending, key, |taken|);
      if |queue.items| == 0 {
        queues := map k | k in queues && k != key :: queues[k];
      }
    }

    /** Invoke the model once for a batch and answer each of its requests once. */
    method FlushBatch(now: nat, batch: seq<Item>, ghost key: string)
      requires Logged() && Queued(Drop(history.pending, key, |batch|))
      requires Enabled(history, capacity, BatchQueue.Flush(now, key, |batch|))
      requires batch == OfKey(history.pending, key)[..|batch|]
      modifies this`answers, this`history
      ensures Valid()
      ensures history == Next(old(history), BatchQueue.Flush(now, key, |batch|))
      ensures old(answers) <= answers && Answered(batch, params, predict, answers[|old(answers)|..])
    {
      var delivered := BatchAnswers.Flush(batch, params, predict);
      FlushLogged(history, capacity, now, key, batch, answers, delivered);
      StepKeepsInv(history, capacity, BatchQueue.Flush(now, key, |batch|));
      answers := answers + delivered;
      history := Next(history, BatchQueue.Flush(now, key, |batch|));
    }

    /** The accumulator loop over whatever its surroundings do. Every pass has its effect until the channel closes,
        and the whole execution is a run of `BatchQueue`, so nothing is lost or reordered within a key, and every
        flushed request has been answered once. */
    method Run(passes: seq<Pass>) returns (ghost trace: seq<Step>, ghost seen: seq<Queues>)
      requires Valid() && forall i :: 0 <= i < |passes| ==> GoodPass(passes[i])
      modifies this`queues, this`history, this`answers, queues.Values
      ensures Valid() && fresh(queues.Values - old(queues.Values))
      ensures IsRun(old(history), capacity, trace) && history == After(old(history), trace)
      ensures PassEffects(seen, capacity, passes) && seen[0] == old(history) && seen[|seen| - 1] == history
      ensures RanOut(seen, capacity, passes)
      ensures Conserved(history) && GoodBatches(history, capacity)
      ensures AnswerIds(answers) == ItemIds(Concat(history.flushed))
    {
      hide IsRun, After, AnswerIds, ItemIds, Concat, OfKey, PassEffect, PassEffects, Closes;
      hide Conserved, GoodBatches, Counted;
      NothingYet(history, capacity, passes);
      trace, seen := [], [history];
      var i := 0;
      var open := true;
      while open && i < |passes|
        invariant 0 <= i <= |passes| && |seen| == i + 1
        invariant Valid() && fresh(queues.Values - old(queues.Values))
        invariant IsRun(old(history), capacity, trace) && history == After(old(history), trace)
        invariant PassEffects(seen, capacity, passes) && seen[0] == old(history) && seen[i] == history
        invariant !open ==> i > 0 && Closes(seen[i - 1], capacity, passes[i - 1])
        decreases |passes| - i
      {
        trace, open := RunPass(passes[i], old(history), trace);
        OnePassMore(seen, capacity, passes, history);
        seen := seen + [history];
        i := i + 1;
      }
    }

    /** One pass of the loop: file what waits, flush if a key is eligible, and otherwise wait. */
    method RunPass(pass: Pass, ghost start: Queues, ghost before: seq<Step>)
      returns (ghost trace: seq<Step>, open: bool)
      requires Valid() && GoodPass(pass)
      requires IsRun(start, capacity, before) && history == After(start, before)
      modifies this`queues, this`history, this`answers, queues.Values
      ensures Valid() && fresh(queues.Values - old(queues.Values))
      ensures IsRun(start, capacity, trace) && history == After(start, trace)
      ensures PassEffect(old(history), capacity, pass, history)
      ensures open <==> !Closes(old(history), capacity, pass)
    {
      hide IsRun, After, Inv, OfKey, Concat, AnswerIds, ItemIds, Drop, LargestPrefix, EarliestEligible, NoneEligible;
      open := true;
      trace := FileAll(pass.sent, start, before);
      ghost var key;
      var batch;
      batch, key := TakeFlushable(pass.now);
      if batch.Some? {
        BatchTaken(history, capacity, pass.now, key, batch.value);
        RunExtends(start, capacity, trace, BatchQueue.Flush(pass.now, key, |batch.value|));
        trace := trace + [BatchQueue.Flush(pass.now, key, |batch.value|)];
        FlushBatch(pass.now, batch.value, key);
        return;
      }
      match pass.wake {
        case Arrived(item) =>
          RunExtends(start, capacity, trace, File(item));
          trace := trace + [File(item)];
          FileItem(item);
        case TimedOut =>
        case Closed =>
          open := false;
      }
    }

    /** Drain the channel into the queues. */
    method FileAll(sent: seq<Item>, ghost start: Queues, ghost before: seq<Step>) returns (ghost trace: seq<Step>)
      requires Valid() && Counted(sent)
      requires IsRun(start, capacity, before) && history == After(start, before)
      modifies this`queues, this`history, queues.Values
      ensures Valid() && fresh(queues.Values - old(queues.Values))
      ensures IsRun(start, capacity, trace) && history == After(start, trace)
      ensures history == old(history).(filed := old(history).filed + sent, pending := old(history).pending + sent)
    {
      trace := before;
      hide IsRun, After, Inv, OfKey, Concat, AnswerIds, ItemIds;
      for i := 0 to |sent|
        invariant Valid() && fresh(queues.Values - old(queues.Values))
        invariant IsRun(start, capacity, trace) && history == After(start, trace)
        invariant history.filed == old(history).filed + sent[..i] && history.flushed == old(history).flushed
        invariant history.pending == old(history).pending + sent[..i]
      {
        RunExtends(start, capacity, trace, File(sent[i]));
        trace := trace + [File(sent[i])];
        FileItem(sent[i]);
        assert sent[..i + 1] == sent[..i] + [sent[i]];
      }
      assert sent[..|sent|] == sent;
    }
  }
}
