/** What a sender promises over any sequence of ticks and arriving batches, whatever the
    outputter answers and however the clock advances. */
module SenderLaws {
  import opened Messages
  import opened SenderModel

  // ---------------------------------------------------------------------------------
  // One flush, one batch

  /** `t` is `s` after one flush that passed its gate on a non-empty buffer: the buffer is
      empty, it was settled once, every call of the outputter saw exactly that buffer, and
      the sender knows whether the output is healthy or in a long failure. No call is made
      only while a long failure lasts, and only an acknowledgement restarts the flush interval. */
  ghost predicate SettledOnce(c: Config, e: Env, s: SenderState, t: SenderState) {
    && t.buffer == []
    && t.settled == s.settled + [Settlement(if t.current.Success? then Acked else Diversion(c), s.buffer)]
    && !t.current.TransientFailure?
    && t.readings > s.readings
    && t.lastFlush == (if t.current.Success? then e.clock(t.readings - 1) else s.lastFlush)
    && (exists calls: nat | calls <= MaxCalls(c) ::
          && t.attempts == s.attempts + Copies(s.buffer, calls)
          && (calls == 0 ==> s.current.LongFailure? && t.current.LongFailure?))
    && s.slept <= t.slept <= s.slept + FIRST_BACKOFF * (Pow2(MaxCalls(c) - 1) - 1)
  }

  lemma {:induction false} Pow2Monotone(i: nat, j: nat)
    requires i <= j
    ensures Pow2(i) <= Pow2(j)
  {
    if i < j { Pow2Monotone(i, j - 1); }
  }

  lemma DeliverSettlesOnce(c: Config, e: Env, s: SenderState)
    ensures SettledOnce(c, e, s, Deliver(c, e, s))
  {
    DeliveryOutcome(c, e, s);
    var n := MaxCalls(c);
    var k := FirstDecisive(e, |s.attempts|, n);
    if k < n {
      Pow2Monotone(k, n - 1);
      assert k + 1 <= MaxCalls(c);
    }
  }

  lemma SettledOnceLater(c: Config, e: Env, s: SenderState, n: nat, t: SenderState)
    requires SettledOnce(c, e, s.(readings := s.readings + n), t)
    ensures SettledOnce(c, e, s, t)
  {
    assert SettledOnce(c, e, s.(readings := s.readings + n), t);
    var calls: nat :| calls <= MaxCalls(c) && t.attempts == s.attempts + Copies(s.buffer, calls)
                      && (calls == 0 ==> s.current.LongFailure? && t.current.LongFailure?);
  }

  /** A flush does nothing but read the clock, unless its gate is open and there is
      something to flush; then it settles the whole buffer, once. */
  lemma FlushOutcome(c: Config, e: Env, s: SenderState, final: bool)
    ensures var t := Flush(c, e, s, final);
            if GateOpen(c, e, s, final) && |s.buffer| > 0 then SettledOnce(c, e, s, t)
            else t == s.(readings := s.readings + 1)
  {
    var t := Flush(c, e, s, final);
    if GateOpen(c, e, s, final) && |s.buffer| > 0 {
      var s1 := s.(readings := s.readings + 1);
      var s2 := s1.(readings := s1.readings + 1);
      if !s.current.LongFailure? {
        DeliverSettlesOnce(c, e, s1);
        SettledOnceLater(c, e, s, 1, t);
      } else if e.clock(s1.readings) - s.lastRetry < RETRY_INTERVAL {
        assert t == HandleLongFailure(c, s2);
        assert t.attempts == s.attempts + Copies(s.buffer, 0);
      } else {
        DeliverSettlesOnce(c, e, s2);
        SettledOnceLater(c, e, s, 2, t);
      }
    }
  }

  /** The gate opens when the flush interval has passed since the last acknowledgement, when
      there is a full batch, or at the end; a flush that passes it calls the outputter unless
      the output failed for long and the last attempt is less than 30 s old. */
  lemma CallsUnlessThrottled(c: Config, e: Env, s: SenderState, final: bool)
    ensures var t := Flush(c, e, s, final);
            var due := e.clock(s.readings) - s.lastFlush >= c.flushInterval || |s.buffer| >= c.batchSize || final;
            var throttled := s.current.LongFailure? && e.clock(s.readings + 1) - s.lastRetry < 30_000_000_000;
            && (due && s.buffer != [] <==> t.settled != s.settled)
            && (due && s.buffer != [] && !throttled <==> t.attempts != s.attempts)
  {
    FlushOutcome(c, e, s, final);
    DeliverCalls(c, e, s.(readings := s.readings + 1));
    DeliverCalls(c, e, s.(readings := s.readings + 2));
  }

  lemma DeliverCalls(c: Config, e: Env, s: SenderState)
    ensures |Deliver(c, e, s).attempts| > |s.attempts|
  {
    DeliveryOutcome(c, e, s);
  }

  /** Queueing appends, and when the batch does not fit it first fills the buffer and
      settles one block of exactly the capacity, whatever the outputter answers. */
  lemma QueueOutcome(c: Config, e: Env, s: SenderState, batch: Batch)
    requires c.Valid() && |s.buffer| <= c.capacity && |batch| <= c.capacity
    ensures var t := QueueMessages(c, e, s, batch);
            var all := s.buffer + batch;
            if |all| <= c.capacity then t == s.(buffer := all)
            else
              && t.buffer == all[c.capacity..]
              && SettledOnce(c, e, s.(buffer := all[..c.capacity]), t.(buffer := []))
              && t.(buffer := []) == Flush(c, e, s.(buffer := all[..c.capacity]), false)
  {
    var room := c.capacity - |s.buffer|;
    if room < |batch| {
      var full := s.(buffer := s.buffer + batch[..room]);
      assert full.buffer == (s.buffer + batch)[..c.capacity];
      FlushOutcome(c, e, full, false);
      var t := Flush(c, e, full, false);
      assert t.(buffer := []) == t;
      assert QueueMessages(c, e, s, batch) == t.(buffer := t.buffer + batch[room..]);
      assert [] + batch[room..] == (s.buffer + batch)[c.capacity..];
    }
  }

  /** What the rest of the pipeline can rely on when a sender goes from `s` to `t` having
      taken in `arrived`: either everything is buffered, or one non-empty block from the
      front was settled and the rest is buffered; a block is forwarded only if there is a
      buffer channel and dropped only if there is none. */
  ghost predicate Advances(capacity: nat, hasBuffer: bool, s: SenderState, t: SenderState, arrived: Batch) {
    && |t.buffer| <= capacity
    && if t.settled == s.settled then t.buffer == s.buffer + arrived
       else
         && |t.settled| == |s.settled| + 1 && t.settled[..|s.settled|] == s.settled
         && var x := t.settled[|s.settled|];
         && 1 <= |x.batch| <= capacity
         && x.batch + t.buffer == s.buffer + arrived
         && (x.outcome.Forwarded? ==> hasBuffer) && (x.outcome.Dropped? ==> !hasBuffer)
  }

  /** The operations of a sender. */
  datatype SenderOps = SenderOps(
    start: SenderState,
    flush: (SenderState, bool) -> SenderState,
    queue: (SenderState, Batch) -> SenderState)

  /** Operations that advance the sender as long as no batch exceeds the capacity; the final
      flush empties the buffer. */
  ghost predicate Honest(ops: SenderOps, capacity: nat, hasBuffer: bool) {
    && ops.start.buffer == [] && ops.start.settled == []
    && (forall s: SenderState, final: bool | |s.buffer| <= capacity ::
          Advances(capacity, hasBuffer, s, ops.flush(s, final), []) && (final ==> ops.flush(s, final).buffer == []))
    && (forall s: SenderState, batch: Batch | |s.buffer| <= capacity && |batch| <= capacity ::
          Advances(capacity, hasBuffer, s, ops.queue(s, batch), batch))
  }

  /** The operations of the sender of this program, in given surroundings. */
  function OpsOf(c: ValidConfig, e: Env): SenderOps {
    SenderOps(NewSender(e),
              (s: SenderState, final: bool) => Flush(c, e, s, final),
              (s: SenderState, batch: Batch) =>
                if |s.buffer| <= c.capacity && |batch| <= c.capacity then QueueMessages(c, e, s, batch) else s)
  }

  lemma FlushAdvances(c: Config, e: Env, s: SenderState, final: bool)
    requires |s.buffer| <= c.capacity
    ensures var t := Flush(c, e, s, final);
            Advances(c.capacity, c.hasBuffer, s, t, []) && (final ==> t.buffer == [])
  {
    FlushOutcome(c, e, s, final);
  }

  lemma QueueAdvances(c: Config, e: Env, s: SenderState, batch: Batch)
    requires c.Valid() && |s.buffer| <= c.capacity && |batch| <= c.capacity
    ensures Advances(c.capacity, c.hasBuffer, s, QueueMessages(c, e, s, batch), batch)
  {
    QueueOutcome(c, e, s, batch);
  }

  /** The sender of this program is honest, whatever the outputter answers and however the
      clock advances. */
  lemma SenderIsHonest(c: ValidConfig, e: Env)
    ensures Honest(OpsOf(c, e), c.capacity, c.hasBuffer)
  {
    var ops := OpsOf(c, e);
    forall s: SenderState, final: bool | |s.buffer| <= c.capacity
      ensures var t := ops.flush(s, final);
              Advances(c.capacity, c.hasBuffer, s, t, []) && (final ==> t.buffer == [])
    {
      FlushAdvances(c, e, s, final);
    }
    forall s: SenderState, batch: Batch | |s.buffer| <= c.capacity && |batch| <= c.capacity
      ensures Advances(c.capacity, c.hasBuffer, s, ops.queue(s, batch), batch)
    {
      QueueAdvances(c, e, s, batch);
    }
  }

  // ---------------------------------------------------------------------------------
  // Conservation

  lemma SettledOnceKeepsOrder(c: Config, e: Env, s: SenderState, t: SenderState)
    requires SettledOnce(c, e, s, t)
    ensures Settled(t.settled) == Settled(s.settled) + s.buffer
  {
    SettledSnoc(s.settled, t.settled[|s.settled|]);
  }

  /** Settling a block from the front of the buffer moves it to the log, and no more. */
  lemma SettledBlock(c: Config, e: Env, s: SenderState, t: SenderState, all: Batch)
    requires c.capacity <= |all| && SettledOnce(c, e, s.(buffer := all[..c.capacity]), t.(buffer := []))
    requires t.buffer == all[c.capacity..]
    ensures Settled(t.settled) + t.buffer == Settled(s.settled) + all
  {
    SettledOnceKeepsOrder(c, e, s.(buffer := all[..c.capacity]), t.(buffer := []));
    assert all[..c.capacity] + all[c.capacity..] == all;
  }

  lemma QueueConserves(c: Config, e: Env, s: SenderState, batch: Batch)
    requires c.Valid() && |s.buffer| <= c.capacity && |batch| <= c.capacity
    ensures var t := QueueMessages(c, e, s, batch);
            Settled(t.settled) + t.buffer == Settled(s.settled) + (s.buffer + batch)
  {
    QueueOutcome(c, e, s, batch);
    if |s.buffer + batch| > c.capacity {
      SettledBlock(c, e, s, QueueMessages(c, e, s, batch), s.buffer + batch);
    }
  }

  lemma FlushConserves(c: Config, e: Env, s: SenderState, final: bool)
    ensures var t := Flush(c, e, s, final);
            Settled(t.settled) + t.buffer == Settled(s.settled) + s.buffer
  {
    FlushOutcome(c, e, s, final);
    var t := Flush(c, e, s, final);
    if GateOpen(c, e, s, final) && |s.buffer| > 0 { SettledOnceKeepsOrder(c, e, s, t); }
  }

  /** One event keeps every message it finds and adds those that arrive, in order. */
  lemma ReactConserves(c: Config, e: Env, s: SenderState, ev: Event)
    requires c.Valid() && |s.buffer| <= c.capacity
    requires ev.Arrival? ==> |ev.batch| <= c.capacity
    ensures var t := React(c, e, s, ev);
            Settled(t.settled) + t.buffer
            == Settled(s.settled) + (s.buffer + (if ev.Ticked? then [] else ev.batch))
  {
    match ev
    case Ticked => FlushConserves(c, e, s, false);
    case Arrival(batch) => QueueConserves(c, e, s, batch);
  }

  /** What was settled and buffered is what was queued, and goes on to be. */
  lemma Onward(settled: Batch, buffer: Batch, queued: Batch, arrived: Batch)
    requires settled + buffer == queued
    ensures settled + (buffer + arrived) == queued + arrived
  {
  }

  /** At any moment the settled messages followed by the buffered ones are exactly the
      messages queued so far, in order. */
  lemma {:induction false} Conservation(c: Config, e: Env, events: seq<Event>)
    requires c.Valid() && Fits(c, events)
    ensures var s := RunEvents(c, e, events);
            Settled(s.settled) + s.buffer == Queued(events)
  {
    if |events| > 0 {
      var before, last := events[..|events| - 1], events[|events| - 1];
      var s := RunEvents(c, e, before);
      Conservation(c, e, before);
      ReactConserves(c, e, s, last);
      Onward(Settled(s.settled), s.buffer, Queued(before), if last.Ticked? then [] else last.batch);
    }
  }

  /** The final flush leaves nothing behind: everything queued is settled, once, in order. */
  lemma ShutdownSettlesAll(c: Config, e: Env, events: seq<Event>)
    requires c.Valid() && Fits(c, events)
    ensures var t := Flush(c, e, RunEvents(c, e, events), true);
            t.buffer == [] && Settled(t.settled) == Queued(events)
  {
    Conservation(c, e, events);
    FlushOutcome(c, e, RunEvents(c, e, events), true);
    FlushConserves(c, e, RunEvents(c, e, events), true);
  }

  // ---------------------------------------------------------------------------------
  // Throttling during a long failure

  /** Deliveries that follow a failed one start at least the retry interval later. */
  ghost predicate Spaced(d: seq<Delivery>) {
    forall k | 0 <= k < |d| - 1 && !d[k].accepted :: d[k + 1].start >= d[k].start + RETRY_INTERVAL
  }

  /** The state agrees with the log of deliveries. */
  ghost predicate Throttling(c: Config, s: SenderState) {
    && !s.current.TransientFailure?
    && Spaced(s.deliveries)
    && (forall k | 0 <= k < |s.deliveries| :: s.deliveries[k].calls <= MaxCalls(c))
    && (s.current.LongFailure? <==> |s.deliveries| > 0 && !s.deliveries[|s.deliveries| - 1].accepted)
    && (s.current.LongFailure? ==> s.deliveries[|s.deliveries| - 1].start == s.lastRetry)
  }

  lemma DeliverThrottles(c: Config, e: Env, s: SenderState)
    requires Throttling(c, s)
    requires s.current.LongFailure? ==> e.clock(s.readings) >= s.lastRetry + RETRY_INTERVAL
    ensures Throttling(c, Deliver(c, e, s))
  {
    DeliveryOutcome(c, e, s);
    var d := s.deliveries;
    var t := Deliver(c, e, s);
    assert forall k | 0 <= k < |d| :: t.deliveries[k] == d[k];
  }

  lemma FlushThrottles(c: Config, e: Env, s: SenderState, final: bool)
    requires Monotone(e) && Throttling(c, s)
    ensures Throttling(c, Flush(c, e, s, final))
  {
    var s1 := s.(readings := s.readings + 1);
    if !GateOpen(c, e, s, final) || |s.buffer| == 0 {
    } else if !s.current.LongFailure? {
      DeliverThrottles(c, e, s1);
    } else if e.clock(s1.readings) - s.lastRetry >= RETRY_INTERVAL {
      assert e.clock(s1.readings) <= e.clock(s1.readings + 1);
      DeliverThrottles(c, e, s1.(readings := s1.readings + 1));
    }
  }

  lemma QueueThrottles(c: Config, e: Env, s: SenderState, batch: Batch)
    requires c.Valid() && |s.buffer| <= c.capacity && |batch| <= c.capacity
    requires Monotone(e) && Throttling(c, s)
    ensures Throttling(c, QueueMessages(c, e, s, batch))
  {
    var room := c.capacity - |s.buffer|;
    if room < |batch| {
      var full := s.(buffer := s.buffer + batch[..room]);
      assert Throttling(c, full);
      FlushThrottles(c, e, full, false);
    }
  }

  lemma {:induction false} RunThrottles(c: Config, e: Env, events: seq<Event>)
    requires c.Valid() && Fits(c, events) && Monotone(e)
    ensures Throttling(c, RunEvents(c, e, events))
  {
    if |events| > 0 {
      var before := events[..|events| - 1];
      var s := RunEvents(c, e, before);
      RunThrottles(c, e, before);
      match events[|events| - 1]
      case Ticked => FlushThrottles(c, e, s, false);
      case Arrival(batch) => QueueThrottles(c, e, s, batch);
    }
  }

  function TotalCalls(d: seq<Delivery>): nat {
    if |d| == 0 then 0 else TotalCalls(d[..|d| - 1]) + d[|d| - 1].calls
  }

  lemma {:induction false} SpacedSpan(d: seq<Delivery>, i: nat, j: nat)
    requires i < j <= |d| && Spaced(d)
    requires forall k | i <= k < j :: !d[k].accepted
    ensures d[j - 1].start - d[i].start >= RETRY_INTERVAL * (j - i - 1)
  {
    if i + 1 < j {
      SpacedSpan(d, i, j - 1);
      assert !d[j - 2].accepted && d[j - 2 + 1] == d[j - 1];
    }
  }

  lemma {:induction false} TotalCallsBound(c: Config, d: seq<Delivery>)
    requires forall k | 0 <= k < |d| :: d[k].calls <= MaxCalls(c)
    ensures TotalCalls(d) <= MaxCalls(c) * |d|
  {
    if |d| > 0 {
      TotalCallsBound(c, d[..|d| - 1]);
      var m, n := MaxCalls(c), |d| - 1;
      assert m * (n + 1) == m * n + m;
    }
  }

  /** The state after a run of the event loop, before or after the final flush. */
  function AfterRun(c: Config, e: Env, events: seq<Event>, flushed: bool): SenderState
    requires c.Valid() && Fits(c, events)
  {
    var s := RunEvents(c, e, events);
    if flushed then Flush(c, e, s, true) else s
  }

  /** If the deliveries i, ..., j-1 of a run, with or without that of its final flush, all
      failed, then consecutive ones started at least 30 s apart, and together they made at most
      `MaxCalls` calls each. */
  lemma LongFailureThrottled(c: Config, e: Env, events: seq<Event>, flushed: bool, i: nat, j: nat)
    requires c.Valid() && Fits(c, events) && Monotone(e)
    requires var d := AfterRun(c, e, events, flushed).deliveries;
             i < j <= |d| && forall k | i <= k < j :: !d[k].accepted
    ensures var d := AfterRun(c, e, events, flushed).deliveries;
            && d[j - 1].start - d[i].start >= RETRY_INTERVAL * (j - i - 1)
            && TotalCalls(d[i..j]) <= MaxCalls(c) * (j - i)
  {
    var s := AfterRun(c, e, events, flushed);
    AfterRunThrottles(c, e, events, flushed);
    ThrottledSpan(c, s, i, j);
  }

  lemma AfterRunThrottles(c: Config, e: Env, events: seq<Event>, flushed: bool)
    requires c.Valid() && Fits(c, events) && Monotone(e)
    ensures Throttling(c, AfterRun(c, e, events, flushed))
  {
    RunThrottles(c, e, events);
    FlushThrottles(c, e, RunEvents(c, e, events), true);
  }

  lemma ThrottledSpan(c: Config, s: SenderState, i: nat, j: nat)
    requires Throttling(c, s) && i < j <= |s.deliveries| && forall k | i <= k < j :: !s.deliveries[k].accepted
    ensures s.deliveries[j - 1].start - s.deliveries[i].start >= RETRY_INTERVAL * (j - i - 1)
    ensures TotalCalls(s.deliveries[i..j]) <= MaxCalls(c) * (j - i)
  {
    SpacedSpan(s.deliveries, i, j);
    TotalCallsBound(c, s.deliveries[i..j]);
  }

  // ---------------------------------------------------------------------------------
  // Chunking

  function Arrivals(batches: seq<Batch>): (r: seq<Event>)
    ensures |r| == |batches| && forall i | 0 <= i < |r| :: r[i] == Arrival(batches[i])
  {
    seq(|batches|, i requires 0 <= i < |batches| => Arrival(batches[i]))
  }

  /** The blocks of `size` messages that are full before the last message. */
  function Blocks(m: Batch, size: nat): (r: seq<Batch>)
    requires size > 0
  {
    if |m| <= size then [] else [m[..size]] + Blocks(m[size..], size)
  }

  /** What follows the blocks. */
  function Rest(m: Batch, size: nat): (r: Batch)
    requires size > 0
    ensures |r| <= size && (m != [] ==> r != [])
  {
    if |m| <= size then m else Rest(m[size..], size)
  }

  /** Block k holds messages k*size, ..., (k+1)*size-1. */
  lemma {:induction false} BlocksAt(m: Batch, size: nat, k: nat)
    requires size > 0 && k < |Blocks(m, size)|
    ensures 0 <= k * size && (k + 1) * size < |m| && Blocks(m, size)[k] == m[k * size..(k + 1) * size]
  {
    if k > 0 {
      BlocksAt(m[size..], size, k - 1);
      assert (k - 1) * size + size == k * size && k * size + size == (k + 1) * size;
      assert m[size..][(k - 1) * size..k * size] == m[k * size..(k + 1) * size];
    } else {
      assert 0 * size == 0 && 1 * size == size;
    }
  }

  /** There are floor((N-1)/size) blocks of N messages, and the rest is what remains. */
  lemma {:induction false} BlocksCount(m: Batch, size: nat)
    requires size > 0 && m != []
    ensures |Blocks(m, size)| * size + |Rest(m, size)| == |m|
    ensures |Blocks(m, size)| * size < |m| <= (|Blocks(m, size)| + 1) * size
    ensures Rest(m, size) == m[|m| - |Rest(m, size)|..]
  {
    if |m| > size {
      BlocksCount(m[size..], size);
      var n := |Blocks(m[size..], size)|;
      assert (n + 1) * size == n * size + size && (n + 2) * size == (n + 1) * size + size;
    } else {
      assert 0 * size == 0 && 1 * size == size;
    }
  }

  /** Appending at most one block's worth of messages completes at most one block. */
  lemma {:induction false} BlocksAppend(m: Batch, x: Batch, size: nat)
    requires size > 0 && |x| <= size
    ensures var all := Rest(m, size) + x;
            if |all| <= size then
              Blocks(m + x, size) == Blocks(m, size) && Rest(m + x, size) == all
            else
              Blocks(m + x, size) == Blocks(m, size) + [all[..size]] && Rest(m + x, size) == all[size..]
  {
    if |m| > size {
      BlocksAppend(m[size..], x, size);
      assert (m + x)[..size] == m[..size] && (m + x)[size..] == m[size..] + x;
    } else if |m| + |x| > size {
      assert Blocks((m + x)[size..], size) == [];
    }
  }

  function BatchesOf(log: seq<Settlement>): (r: seq<Batch>)
    ensures |r| == |log| && forall i | 0 <= i < |r| :: r[i] == log[i].batch
  {
    seq(|log|, i requires 0 <= i < |log| => log[i].batch)
  }

  /** Without ticks, what is handed to the output depends only on the messages: it is their
      division into blocks of exactly the capacity, whatever batches they came in, whatever
      the outputter answered and whatever the clock said. */
  lemma {:induction false} ChunkingInvariance(c: Config, e: Env, batches: seq<Batch>)
    requires c.Valid() && Fits(c, Arrivals(batches))
    ensures var s := RunEvents(c, e, Arrivals(batches));
            && BatchesOf(s.settled) == Blocks(Flatten(batches), c.capacity)
            && s.buffer == Rest(Flatten(batches), c.capacity)
  {
    if |batches| > 0 {
      var before, x := batches[..|batches| - 1], batches[|batches| - 1];
      var events := Arrivals(batches);
      assert events[..|events| - 1] == Arrivals(before);
      assert events[|events| - 1] == Arrival(x);
      ChunkingInvariance(c, e, before);
      BlocksAppend(Flatten(before), x, c.capacity);
      QueueBlocks(c, e, RunEvents(c, e, Arrivals(before)), x);
    }
  }

  /** Queueing a batch settles a block if there is a full one, and keeps the rest. */
  lemma QueueBlocks(c: Config, e: Env, s: SenderState, x: Batch)
    requires c.Valid() && |s.buffer| <= c.capacity && |x| <= c.capacity
    ensures var t := QueueMessages(c, e, s, x);
            var all := s.buffer + x;
            if |all| <= c.capacity then t.settled == s.settled && t.buffer == all
            else BatchesOf(t.settled) == BatchesOf(s.settled) + [all[..c.capacity]] && t.buffer == all[c.capacity..]
  {
    QueueOutcome(c, e, s, x);
  }

  // ---------------------------------------------------------------------------------
  // A loop guard that accepts every batch

  /** Queueing with the loop guard on the messages that remain, instead of on the length of
      the whole batch. (This is not what the program does; see `Outputs.Sender.QueueMessages`.) */
  function QueueRemaining(c: Config, e: Env, s: SenderState, batch: Batch): (r: SenderState)
    requires c.Valid() && |s.buffer| <= c.capacity
    ensures |r.buffer| <= c.capacity
    decreases |batch|, |s.buffer|
  {
    var room := c.capacity - |s.buffer|;
    if room < |batch| then
      QueueRemaining(c, e, Flush(c, e, s.(buffer := s.buffer + batch[..room]), false), batch[room..])
    else s.(buffer := s.buffer + batch)
  }

  /** It would do the same with every batch that the program can queue. */
  lemma QueueRemainingAgrees(c: Config, e: Env, s: SenderState, batch: Batch)
    requires c.Valid() && |s.buffer| <= c.capacity && |batch| <= c.capacity
    ensures QueueRemaining(c, e, s, batch) == QueueMessages(c, e, s, batch)
  {
    var room := c.capacity - |s.buffer|;
    if room < |batch| {
      var t := Flush(c, e, s.(buffer := s.buffer + batch[..room]), false);
      assert QueueRemaining(c, e, t, batch[room..]) == t.(buffer := t.buffer + batch[room..]);
    }
  }

  /** A full buffer is flushed, whatever the clock says. */
  lemma FullBufferFlushed(c: Config, e: Env, s: SenderState)
    requires c.Valid() && |s.buffer| == c.capacity
    ensures var t := Flush(c, e, s, false); t.buffer == [] && Settled(t.settled) == Settled(s.settled) + s.buffer
  {
    FlushConserves(c, e, s, false);
    var t := Flush(c, e, s, false);
    assert Settled(t.settled) + [] == Settled(t.settled);
  }

  /** Moving the front of a batch to the settled log. */
  lemma Regroup(log: Batch, buffer: Batch, batch: Batch, room: nat)
    requires room <= |batch|
    ensures (log + (buffer + batch[..room])) + ([] + batch[room..]) == log + (buffer + batch)
  {
  }

  /** And it would keep every message of a batch of any length. */
  lemma {:induction false} QueueRemainingConserves(c: Config, e: Env, s: SenderState, batch: Batch)
    requires c.Valid() && |s.buffer| <= c.capacity
    ensures var t := QueueRemaining(c, e, s, batch);
            Settled(t.settled) + t.buffer == Settled(s.settled) + (s.buffer + batch)
    decreases |batch|, |s.buffer|
  {
    var room := c.capacity - |s.buffer|;
    if room < |batch| {
      var full := s.(buffer := s.buffer + batch[..room]);
      FullBufferFlushed(c, e, full);
      var t := Flush(c, e, full, false);
      QueueRemainingConserves(c, e, t, batch[room..]);
      Regroup(Settled(s.settled), s.buffer, batch, room);
      assert QueueRemaining(c, e, s, batch) == QueueRemaining(c, e, t, batch[room..]);
    }
  }
}
