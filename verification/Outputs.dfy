/** The sender that every output runs behind, in the form the program gives it: an object
    whose methods update its buffer, its state and its timestamps. Each method is proved to
    do what the function of the same name in `SenderModel` says. */
module Outputs {
  import opened Messages
  import opened SenderModel
  import Laws = SenderLaws

  class Sender {
    const cfg: Config
    const env: Env
    const data: array<Message>        // the buffer slice: `data[..used]`, capacity `data.Length`
    var used: nat
    var released: bool                // the final flush has put the buffer back, and it is nil
    var currentState: OutputResult
    var lastFlushTime: int
    var lastRetryTime: int
    var forwarded: seq<Batch>         // what was sent to the buffer channel
    var calls: nat                    // FlushToOutput calls so far
    var clockReadings: nat
    ghost var slept: nat
    ghost var attempts: seq<Batch>
    ghost var settled: seq<Settlement>
    ghost var deliveries: seq<Delivery>

    ghost predicate Valid()
      reads this, data
    {
      && cfg.Valid()
      && data.Length == cfg.capacity
      && used <= data.Length
      && calls == |attempts|
      && forwarded == ForwardedBatches(settled)
    }

    ghost function Value(): SenderState
      reads this, data
      requires used <= data.Length
    {
      SenderState(data[..used], currentState, lastFlushTime, lastRetryTime, clockReadings, slept,
                  attempts, settled, deliveries)
    }

    constructor (cfg: Config, env: Env)
      requires cfg.Valid()
      ensures Valid() && fresh(data) && this.cfg == cfg && this.env == env
      ensures Value() == NewSender(env) && !released
    {
      this.cfg := cfg;
      this.env := env;
      data := new Message[cfg.capacity];
      used := 0;
      released := false;
      currentState := Success;
      lastFlushTime := env.clock(0);
      lastRetryTime := 0;
      forwarded := [];
      calls := 0;
      clockReadings := 1;
      slept, attempts, settled, deliveries := 0, [], [], [];
    }

    /** Call the outputter, which decides what comes of it. */
    method FlushToOutput() returns (r: OutputResult)
      requires Valid()
      modifies this`calls, this`attempts
      ensures Valid()
      ensures r == NextResult(env, old(Value())) && Value() == Attempted(old(Value()))
    {
      r := env.result(calls);
      calls := calls + 1;
      attempts := attempts + [data[..used]];
    }

    /** Empty the buffer; a forwarded one goes to the buffer channel first. */
    method Settle(ghost o: Outcome, forward: bool)
      requires Valid() && forward == o.Forwarded?
      modifies this`forwarded, this`used, this`settled
      ensures Valid()
      ensures Value() == SenderModel.Settle(old(Value()), o)
    {
      if forward {
        forwarded := forwarded + [data[..used]];
      }
      ghost var batch := data[..used];
      assert forwarded == ForwardedBatches(settled + [Settlement(o, batch)]) by {
        ForwardedSnoc(settled, Settlement(o, batch));
      }
      settled := settled + [Settlement(o, batch)];
      used := 0;
      assert data[..used] == [];
    }

    /** The output is down: divert the buffer, or drop it if there is nowhere to divert it to. */
    method HandleLongFailure()
      requires Valid()
      modifies this`currentState, this`forwarded, this`used, this`settled
      ensures Valid()
      ensures Value() == SenderModel.HandleLongFailure(cfg, old(Value()))
    {
      currentState := LongFailure;
      Settle(Diversion(cfg), cfg.hasBuffer);
    }

    method Acknowledge()
      requires Valid()
      modifies this`currentState, this`forwarded, this`used, this`settled, this`lastFlushTime, this`clockReadings
      ensures Valid()
      ensures Value() == SenderModel.Acknowledge(env, old(Value()))
    {
      Settle(Acked, false);
      lastFlushTime := env.clock(clockReadings);
      clockReadings := clockReadings + 1;
      currentState := Success;
      assert data[..used] == [];
    }

    /** Returns whether the retries settled the buffer. */
    method DoExponentialRetry() returns (done: bool)
      requires Valid()
      modifies this
      ensures Valid()
      ensures (Value(), done) == SenderModel.DoExponentialRetry(cfg, env, old(Value()), 1, FIRST_BACKOFF)
      ensures released == old(released)
    {
      var backoff := FIRST_BACKOFF;
      var i := 1;
      while i < cfg.maxTries
        invariant Valid() && released == old(released)
        invariant SenderModel.DoExponentialRetry(cfg, env, Value(), i, backoff)
               == SenderModel.DoExponentialRetry(cfg, env, old(Value()), 1, FIRST_BACKOFF)
        decreases cfg.maxTries - i
      {
        slept := slept + backoff;
        var r := FlushToOutput();
        match r {
          case Success =>
            Acknowledge();
            return true;
          case TransientFailure =>
            backoff := backoff * 2;
          case LongFailure =>
            HandleLongFailure();
            return true;
        }
        i := i + 1;
      }
      return false;
    }

    method CallAndRetry()
      requires Valid()
      modifies this
      ensures Valid()
      ensures Value() == SenderModel.CallAndRetry(cfg, env, old(Value())) && released == old(released)
    {
      var r := FlushToOutput();
      match r {
        case Success =>
          Acknowledge();
        case TransientFailure =>
          var done := DoExponentialRetry();
          if !done {
            HandleLongFailure();
          }
        case LongFailure =>
          HandleLongFailure();
      }
    }

    method Deliver()
      requires Valid()
      modifies this
      ensures Valid()
      ensures Value() == SenderModel.Deliver(cfg, env, old(Value())) && released == old(released)
    {
      lastRetryTime := env.clock(clockReadings);
      clockReadings := clockReadings + 1;
      CallAndRetry();
      deliveries := LogDelivery(old(Value()), Value()).deliveries;
    }

    /** Flush a buffer that has passed the gate; returns whether that was throttled. */
    method FlushBuffer() returns (throttled: bool)
      requires Valid()
      modifies this
      ensures Valid() && released == old(released)
      ensures Value() == SenderModel.FlushBuffer(cfg, env, old(Value()))
      ensures throttled <==> old(currentState) == LongFailure
                             && env.clock(old(clockReadings)) - old(lastRetryTime) < RETRY_INTERVAL
    {
      if currentState == LongFailure {
        var sinceLastRetry := env.clock(clockReadings) - lastRetryTime;
        clockReadings := clockReadings + 1;
        assert Value() == old(Value()).(readings := old(clockReadings) + 1);
        if sinceLastRetry < RETRY_INTERVAL {
          HandleLongFailure();
          return true;
        }
      }
      Deliver();
      return false;
    }

    /** The final flush also puts the buffer back, unless it is throttled: it returns before. */
    method Flush(final: bool)
      requires Valid() && !released
      modifies this
      ensures Valid()
      ensures Value() == SenderModel.Flush(cfg, env, old(Value()), final)
      ensures released <==> final && !Throttled(env, old(Value()))
    {
      var enoughTimeSinceLastFlush := env.clock(clockReadings) - lastFlushTime >= cfg.flushInterval;
      clockReadings := clockReadings + 1;
      assert Value() == old(Value()).(readings := old(clockReadings) + 1);
      var reachedBufferLimit := used >= cfg.batchSize;
      if !enoughTimeSinceLastFlush && !reachedBufferLimit && !final {
        return;
      }
      var throttled := false;
      if used > 0 {
        throttled := FlushBuffer();
      }
      released := final && !throttled;
    }

    /** Queue the batch `batch[..n]`, whose backing array is `batch`. Slicing past the end
        panics: this happens exactly when the batch is longer than the buffer, because the
        loop guard compares with the length of the whole batch and never becomes false. */
    method QueueMessages(batch: array<Message>, n: nat) returns (panicked: bool)
      requires Valid() && !released && n <= batch.Length && batch != data
      modifies this, data
      ensures panicked <==> n > cfg.capacity
      ensures !released
      ensures !panicked ==> Valid() && Value() == SenderModel.QueueMessages(cfg, env, old(Value()), batch[..n])
    {
      var off := 0;
      var room := data.Length - used;
      while room < n
        invariant Valid() && !released && room == data.Length - used && off <= n
        invariant off == 0 || used == 0
        invariant n <= cfg.capacity ==>
          || (off == 0 && Value() == old(Value()))
          || (used == 0 && old(cfg.capacity - used) < n && off == old(cfg.capacity - used)
              && Value() == SenderModel.Flush(cfg, env,
                              old(Value()).(buffer := old(Value()).buffer + batch[..off]), false))
        decreases n - off, used
      {
        if room > batch.Length - off {
          return true;
        }
        FillAndFlush(batch, off, room);
        if room > n - off {
          return true;
        }
        off := off + room;
        room := data.Length - used;
      }
      AppendRest(batch, off, n, old(Value()));
      return false;
    }

    /** What is left of the batch after the loop goes into the buffer; `before` is the value of
        the sender before the batch came. */
    method AppendRest(batch: array<Message>, off: nat, n: nat, ghost before: SenderState)
      requires Valid() && batch != data && off <= n <= batch.Length && used + (n - off) <= data.Length
      requires n <= cfg.capacity && |before.buffer| <= cfg.capacity
      requires var room := cfg.capacity - |before.buffer|;
               if room < n then
                 off == room && Value() == SenderModel.Flush(cfg, env,
                                             before.(buffer := before.buffer + batch[..off]), false)
               else off == 0 && Value() == before
      modifies this`used, data
      ensures Valid() && Value() == SenderModel.QueueMessages(cfg, env, before, batch[..n])
    {
      Append(batch, off, n - off);
      assert batch[..n][off..] == batch[off..n];
      assert batch[..n][..off] == batch[..off];
    }

    method FillAndFlush(batch: array<Message>, off: nat, room: nat)
      requires Valid() && !released && batch != data && off + room <= batch.Length && room == data.Length - used
      modifies this, data
      ensures Valid() && used == 0 && !released
      ensures Value() == SenderModel.Flush(cfg, env,
                           old(Value()).(buffer := old(Value()).buffer + batch[off..off + room]), false)
    {
      Append(batch, off, room);
      assert |Value().buffer| == cfg.capacity;
      Flush(false);
      assert Value().buffer == [];
    }

    /** Append `count` messages of `batch` from `off` on; the slice does not reallocate. */
    method Append(batch: array<Message>, off: nat, count: nat)
      requires Valid() && batch != data && off + count <= batch.Length && used + count <= data.Length
      modifies this`used, data
      ensures Valid()
      ensures Value() == old(Value()).(buffer := old(Value()).buffer + batch[off..off + count])
    {
      forall i | 0 <= i < count {
        data[used + i] := batch[off + i];
      }
      used := used + count;
      assert data[..used] == old(data[..used]) + batch[off..off + count];
    }
  }

  /** One turn of the event loop. */
  method Take(sender: Sender, event: Event) returns (panicked: bool)
    requires sender.Valid() && !sender.released
    modifies sender, sender.data
    ensures panicked <==> event.Arrival? && |event.batch| > sender.cfg.capacity
    ensures !panicked ==>
      && sender.Valid() && !sender.released
      && sender.Value() == React(sender.cfg, sender.env, old(sender.Value()), event)
  {
    match event {
      case Ticked =>
        sender.Flush(false);
        return false;
      case Arrival(batch) =>
        var copy := new Message[|batch|](k requires 0 <= k < |batch| => batch[k]);
        assert copy[..|batch|] == batch;
        panicked := sender.QueueMessages(copy, |batch|);
    }
  }

  /** Event number `i`, after those before it. */
  method TakeNext(sender: Sender, events: seq<Event>, i: nat) returns (panicked: bool)
    requires sender.Valid() && !sender.released && i < |events| && Fits(sender.cfg, events[..i])
    requires sender.Value() == RunEvents(sender.cfg, sender.env, events[..i])
    modifies sender, sender.data
    ensures panicked <==> !Fits(sender.cfg, events[..i + 1])
    ensures !panicked ==>
      && sender.Valid() && !sender.released
      && sender.Value() == RunEvents(sender.cfg, sender.env, events[..i + 1])
  {
    FitsOneMore(sender.cfg, events, i);
    panicked := Take(sender, events[i]);
    if !panicked {
      RunOneMore(sender.cfg, sender.env, events, i);
    }
  }

  lemma FitsOneMore(c: Config, events: seq<Event>, i: nat)
    requires i < |events| && Fits(c, events[..i])
    ensures Fits(c, events[..i + 1]) <==> !(events[i].Arrival? && |events[i].batch| > c.capacity)
  {
    assert events[..i + 1] == events[..i] + [events[i]];
  }

  lemma RunOneMore(c: Config, e: Env, events: seq<Event>, i: nat)
    requires c.Valid() && i < |events| && Fits(c, events[..i + 1])
    ensures Fits(c, events[..i])
    ensures RunEvents(c, e, events[..i + 1]) == React(c, e, RunEvents(c, e, events[..i]), events[i])
  {
    assert events[..i + 1][..i] == events[..i];
  }

  /** The event loop of an output: ticks and batches in the order in which the loop takes
      them, until the input channel closes; then the final flush. */
  method StartOutputter(cfg: Config, env: Env, events: seq<Event>) returns (sender: Sender, panicked: bool)
    requires cfg.Valid()
    ensures panicked <==> !Fits(cfg, events)
    ensures !panicked ==>
      && sender.Valid() && sender.used == 0
      && sender.Value() == SenderModel.Flush(cfg, env, RunEvents(cfg, env, events), true)
      && Settled(sender.settled) == Queued(events)
      && (sender.released <==> !Throttled(env, RunEvents(cfg, env, events)))
  {
    sender := new Sender(cfg, env);
    var i := 0;
    while i < |events|
      invariant 0 <= i <= |events| && sender.Valid() && !sender.released && sender.cfg == cfg && sender.env == env
      invariant fresh(sender) && fresh(sender.data)
      invariant Fits(cfg, events[..i]) && sender.Value() == RunEvents(cfg, env, events[..i])
    {
      var crashed := TakeNext(sender, events, i);
      if crashed {
        return sender, true;
      }
      i := i + 1;
    }
    assert events[..i] == events;
    FinalFlush(sender, events);
    return sender, false;
  }

  method FinalFlush(sender: Sender, ghost events: seq<Event>)
    requires sender.Valid() && !sender.released && Fits(sender.cfg, events)
    requires sender.Value() == RunEvents(sender.cfg, sender.env, events)
    modifies sender
    ensures sender.Valid() && sender.used == 0
    ensures sender.Value() == SenderModel.Flush(sender.cfg, sender.env, RunEvents(sender.cfg, sender.env, events), true)
    ensures Settled(sender.settled) == Queued(events)
    ensures sender.released <==> !Throttled(sender.env, RunEvents(sender.cfg, sender.env, events))
  {
    sender.Flush(true);
    Laws.ShutdownSettlesAll(sender.cfg, sender.env, events);
    assert sender.Value().buffer == [];
  }
}
