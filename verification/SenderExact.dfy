/** What a flush and a turn of the event loop leave behind, field by field and in plain
    numbers: without the retry loop, and without the functions that the sender is built of. */
module SenderExact {
  import opened Messages
  import opened SenderModel
  import Laws = SenderLaws

  /** What a delivery of the buffer of `s` leaves behind. The first of at most `maxTries` results
      (at least one) that is not a transient failure decides. All calls get the whole buffer;
      before the second the sender sleeps 100 ms, and each time twice as long as before. The
      clock is read when the delivery starts, and once more if the output accepts the batch,
      which restarts the flush interval. */
  function AfterDelivery(c: Config, e: Env, s: SenderState): SenderState {
    var n := if c.maxTries >= 1 then c.maxTries else 1;
    var k := FirstDecisive(e, |s.attempts|, n);
    var acked := k < n && e.result(|s.attempts| + k).Success?;
    var calls := if k < n then k + 1 else n;
    var slept := 100 * (Pow2(calls - 1) - 1);
    var start := e.clock(s.readings);
    SenderState([], if acked then Success else LongFailure,
                if acked then e.clock(s.readings + 1) else s.lastFlush, start,
                s.readings + (if acked then 2 else 1), s.slept + slept,
                s.attempts + Copies(s.buffer, calls),
                s.settled + [Settlement(if acked then Acked else if c.hasBuffer then Forwarded else Dropped, s.buffer)],
                s.deliveries + [Delivery(start, calls, slept, acked)])
  }

  lemma DeliverExact(c: Config, e: Env, s: SenderState)
    ensures Deliver(c, e, s) == AfterDelivery(c, e, s)
  {
    DeliveryOutcome(c, e, s);
  }

  /** A flush, ticked or final. If the flush interval has not passed since the last
      acknowledgement, there is no full batch, and it is not the end, or if there is nothing to
      flush, it reads the clock and that is all. If the output failed for long and the last
      attempt is less than 30 s old, the buffer is diverted, or dropped, without a call. In all
      other cases it is a delivery, started when the clock has been read once or twice. */
  lemma FlushExact(c: Config, e: Env, s: SenderState, final: bool)
    ensures var t := Flush(c, e, s, final);
            var due := e.clock(s.readings) - s.lastFlush >= c.flushInterval || |s.buffer| >= c.batchSize || final;
            if s.buffer == [] || !due then t == s.(readings := s.readings + 1)
            else if s.current.LongFailure? && e.clock(s.readings + 1) - s.lastRetry < 30_000_000_000 then
              t == s.(buffer := [], readings := s.readings + 2,
                      settled := s.settled + [Settlement(if c.hasBuffer then Forwarded else Dropped, s.buffer)])
            else t == AfterDelivery(c, e, s.(readings := s.readings + if s.current.LongFailure? then 2 else 1))
  {
    DeliverExact(c, e, s.(readings := s.readings + if s.current.LongFailure? then 2 else 1));
  }

  /** With the five tries that the program allows, an output that keeps failing transiently is
      called five times, over a second and a half of sleep; then the buffer is diverted. */
  lemma FiveTransientFailures(c: Config, e: Env, s: SenderState)
    requires c.maxTries == 5 && forall i: nat | |s.attempts| <= i < |s.attempts| + 5 :: e.result(i).TransientFailure?
    ensures var t := Deliver(c, e, s);
            && t.slept == s.slept + 1500 && |t.attempts| == |s.attempts| + 5 && t.current.LongFailure?
            && t.settled == s.settled + [Settlement(if c.hasBuffer then Forwarded else Dropped, s.buffer)]
  {
    DeliverExact(c, e, s);
    assert FirstDecisive(e, |s.attempts|, 5) == 5;
    assert Pow2(4) == 2 * Pow2(3) && Pow2(3) == 2 * Pow2(2) && Pow2(2) == 2 * Pow2(1) && Pow2(1) == 2 * Pow2(0);
  }

  /** A flush is throttled if it settles the buffer without calling the outputter. */
  lemma ThrottledMeans(c: Config, e: Env, s: SenderState)
    ensures var t := Flush(c, e, s, true);
            Throttled(e, s) <==> t.settled != s.settled && t.attempts == s.attempts
  {
    Laws.CallsUnlessThrottled(c, e, s, true);
  }

  // ---------------------------------------------------------------------------------
  // The event loop

  /** `t` is `s` after its buffer, and nothing else, has been settled, as a whole and once. */
  predicate SettledWhole(s: SenderState, t: SenderState) {
    && t.buffer == [] && |t.settled| == |s.settled| + 1
    && t.settled[..|s.settled|] == s.settled && t.settled[|s.settled|].batch == s.buffer
  }

  lemma RunSnoc(c: Config, e: Env, before: seq<Event>, ev: Event)
    requires c.Valid() && Fits(c, before) && (ev.Arrival? ==> |ev.batch| <= c.capacity)
    ensures Fits(c, before + [ev])
    ensures RunEvents(c, e, before + [ev]) == React(c, e, RunEvents(c, e, before), ev)
  {
    assert (before + [ev])[..|before|] == before;
  }

  /** A tick in the event loop, after whatever events. If there is something in the buffer, and
      the flush interval has passed since the last acknowledgement or there is a full batch, the
      buffer is settled there and then. Otherwise everything stays as it was. */
  lemma TickSettlesIfDue(c: Config, e: Env, before: seq<Event>)
    requires c.Valid() && Fits(c, before)
    ensures Fits(c, before + [Ticked])
    ensures var s, t := RunEvents(c, e, before), RunEvents(c, e, before + [Ticked]);
            var due := e.clock(s.readings) - s.lastFlush >= c.flushInterval || |s.buffer| >= c.batchSize;
            if due && s.buffer != [] then SettledWhole(s, t) else t == s.(readings := s.readings + 1)
  {
    RunSnoc(c, e, before, Ticked);
    Laws.FlushOutcome(c, e, RunEvents(c, e, before), false);
  }

  /** A batch that arrives, after whatever events. If it fits behind what is buffered it waits
      there, and nothing else happens. If not, the buffer is filled, settled, and what did not
      fit waits. */
  lemma ArrivalSettlesIfFull(c: Config, e: Env, before: seq<Event>, batch: Batch)
    requires c.Valid() && Fits(c, before) && |batch| <= c.capacity
    ensures Fits(c, before + [Arrival(batch)])
    ensures var s, t := RunEvents(c, e, before), RunEvents(c, e, before + [Arrival(batch)]);
            var all := s.buffer + batch;
            if |all| <= c.capacity then t == s.(buffer := all)
            else t.buffer == all[c.capacity..] && SettledWhole(s.(buffer := all[..c.capacity]), t.(buffer := []))
  {
    RunSnoc(c, e, before, Arrival(batch));
    Laws.QueueOutcome(c, e, RunEvents(c, e, before), batch);
  }

  lemma {:induction false} BufferedArrivals(c: Config, e: Env, batches: seq<Batch>)
    requires c.Valid() && |Flatten(batches)| <= c.capacity
    ensures Fits(c, Laws.Arrivals(batches))
    ensures RunEvents(c, e, Laws.Arrivals(batches))
         == SenderState(Flatten(batches), Success, e.clock(0), 0, 1, 0, [], [], [])
  {
    if batches != [] {
      var before, last := batches[..|batches| - 1], batches[|batches| - 1];
      assert Laws.Arrivals(batches) == Laws.Arrivals(before) + [Arrival(last)];
      BufferedArrivals(c, e, before);
      ArrivalSettlesIfFull(c, e, Laws.Arrivals(before), last);
    }
  }

  /** The first tick of an output: the flush interval counts from its creation, and the output
      is taken to be healthy, so what has been buffered until then is delivered exactly if the
      interval has passed since, or there is a full batch. */
  lemma FirstTick(c: Config, e: Env, batches: seq<Batch>)
    requires c.Valid() && |Flatten(batches)| <= c.capacity
    ensures var events := Laws.Arrivals(batches) + [Ticked];
            var due := e.clock(1) - e.clock(0) >= c.flushInterval || |Flatten(batches)| >= c.batchSize;
            && Fits(c, events)
            && (RunEvents(c, e, events).settled != [] <==> due && Flatten(batches) != [])
            && (RunEvents(c, e, events).attempts != [] <==> due && Flatten(batches) != [])
            && RunEvents(c, e, events).buffer == if due then [] else Flatten(batches)
  {
    BufferedArrivals(c, e, batches);
    TickSettlesIfDue(c, e, Laws.Arrivals(batches));
    RunSnoc(c, e, Laws.Arrivals(batches), Ticked);
    Laws.CallsUnlessThrottled(c, e, RunEvents(c, e, Laws.Arrivals(batches)), false);
  }
}
