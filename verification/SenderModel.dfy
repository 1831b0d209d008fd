/** The value of a sender and the meaning of each of its operations. Every operation of
    class `Outputs.Sender` is proved equal to the function of the same name here; what
    the sender promises is proved about these functions. */
module SenderModel {
  import opened Messages

  const RETRY_INTERVAL: int := 30_000_000_000   // ns between attempts during a long failure
  const FIRST_BACKOFF: nat := 100               // ms
  const MAX_BACKOFF_TRIES: int := 5

  datatype OutputResult = Success | TransientFailure | LongFailure

  /** `capacity` is the capacity of the buffer slice: at least the batch size, and possibly
      more because the pool may hand out a larger slice. */
  datatype Config = Config(flushInterval: int, batchSize: int, capacity: nat, maxTries: int, hasBuffer: bool)
  {
    predicate Valid() { 1 <= batchSize <= capacity }
  }

  type ValidConfig = c: Config | c.Valid() witness Config(0, 1, 1, MAX_BACKOFF_TRIES, false)

  /** What the surroundings decide: the result of the k-th FlushToOutput call and the value
      of the k-th reading of the clock, in nanoseconds. Both are arbitrary. */
  datatype Env = Env(result: nat -> OutputResult, clock: nat -> int)

  ghost predicate Monotone(e: Env) {
    forall i: nat, j: nat | i <= j :: e.clock(i) <= e.clock(j)
  }

  datatype Outcome = Acked | Forwarded | Dropped
  datatype Settlement = Settlement(outcome: Outcome, batch: Batch)

  /** A flush that called the outputter: when it started, how many calls it made, how long
      it slept between them (ms), and whether the output accepted the batch. */
  datatype Delivery = Delivery(start: int, calls: nat, slept: nat, accepted: bool)

  datatype SenderState = SenderState(
    buffer: Batch, current: OutputResult, lastFlush: int, lastRetry: int,
    readings: nat, slept: nat,
    attempts: seq<Batch>, settled: seq<Settlement>, deliveries: seq<Delivery>)

  function NewSender(e: Env): SenderState {
    SenderState([], Success, e.clock(0), 0, 1, 0, [], [], [])
  }

  function Diversion(c: Config): Outcome {
    if c.hasBuffer then Forwarded else Dropped
  }

  function Settle(s: SenderState, o: Outcome): SenderState {
    s.(buffer := [], settled := s.settled + [Settlement(o, s.buffer)])
  }

  function HandleLongFailure(c: Config, s: SenderState): SenderState {
    Settle(s, Diversion(c)).(current := LongFailure)
  }

  function Acknowledge(e: Env, s: SenderState): SenderState {
    Settle(s, Acked).(lastFlush := e.clock(s.readings), readings := s.readings + 1, current := Success)
  }

  function NextResult(e: Env, s: SenderState): OutputResult {
    e.result(|s.attempts|)
  }

  function Attempted(s: SenderState): SenderState {
    s.(attempts := s.attempts + [s.buffer])
  }

  /** The retry loop from counter `i` on; the flag says whether it settled the buffer. */
  function DoExponentialRetry(c: Config, e: Env, s: SenderState, i: int, backoff: nat): (r: (SenderState, bool))
    ensures r.1 ==> r.0.buffer == []
    decreases c.maxTries - i
  {
    if i >= c.maxTries then (s, false)
    else
      var t := Attempted(s.(slept := s.slept + backoff));
      match NextResult(e, s)
      case Success => (Acknowledge(e, t), true)
      case TransientFailure => DoExponentialRetry(c, e, t, i + 1, backoff * 2)
      case LongFailure => (HandleLongFailure(c, t), true)
  }

  /** The sender that has started a delivery, before the first call. */
  function Started(e: Env, s: SenderState): SenderState {
    s.(lastRetry := e.clock(s.readings), readings := s.readings + 1)
  }

  /** One call of the outputter and whatever follows from its result. */
  function CallAndRetry(c: Config, e: Env, s: SenderState): (r: SenderState)
    ensures r.buffer == []
  {
    match NextResult(e, s)
    case Success => Acknowledge(e, Attempted(s))
    case TransientFailure =>
      var (t, settled) := DoExponentialRetry(c, e, Attempted(s), 1, FIRST_BACKOFF);
      if settled then t else HandleLongFailure(c, t)
    case LongFailure => HandleLongFailure(c, Attempted(s))
  }

  /** The flush proper. */
  function Deliver(c: Config, e: Env, s: SenderState): (r: SenderState)
    ensures r.buffer == []
  {
    LogDelivery(s, CallAndRetry(c, e, Started(e, s)))
  }

  /** Record the flush that led from `s` to `t`. */
  function LogDelivery(s: SenderState, t: SenderState): SenderState {
    var calls := if |t.attempts| >= |s.attempts| then |t.attempts| - |s.attempts| else 0;
    var slept := if t.slept >= s.slept then t.slept - s.slept else 0;
    t.(deliveries := t.deliveries + [Delivery(t.lastRetry, calls, slept, t.current.Success?)])
  }

  predicate GateOpen(c: Config, e: Env, s: SenderState, final: bool) {
    e.clock(s.readings) - s.lastFlush >= c.flushInterval || |s.buffer| >= c.batchSize || final
  }

  /** A flush that passes its gate does not call the outputter: the output failed for long, and
      the last attempt is too recent. */
  predicate Throttled(e: Env, s: SenderState) {
    && s.buffer != [] && s.current.LongFailure?
    && e.clock(s.readings + 1) - s.lastRetry < RETRY_INTERVAL
  }

  /** What becomes of a buffer that passes the gate. */
  function FlushBuffer(c: Config, e: Env, s: SenderState): (r: SenderState)
    ensures r.buffer == []
  {
    if s.current.LongFailure? then
      var s1 := s.(readings := s.readings + 1);
      if e.clock(s.readings) - s.lastRetry < RETRY_INTERVAL then HandleLongFailure(c, s1)
      else Deliver(c, e, s1)
    else Deliver(c, e, s)
  }

  function Flush(c: Config, e: Env, s: SenderState, final: bool): (r: SenderState)
    ensures r.buffer == s.buffer || r.buffer == []
    ensures |s.buffer| >= c.batchSize ==> r.buffer == []
  {
    var s1 := s.(readings := s.readings + 1);
    if !GateOpen(c, e, s, final) || |s.buffer| == 0 then s1 else FlushBuffer(c, e, s1)
  }

  /** Queue a batch that fits the buffer. (A longer batch crashes the sender: see
      `Outputs.Sender.QueueMessages`.) */
  function QueueMessages(c: Config, e: Env, s: SenderState, batch: Batch): (r: SenderState)
    requires c.Valid() && |s.buffer| <= c.capacity && |batch| <= c.capacity
    ensures |r.buffer| <= c.capacity
  {
    var room := c.capacity - |s.buffer|;
    if room < |batch| then
      var t := Flush(c, e, s.(buffer := s.buffer + batch[..room]), false);
      t.(buffer := t.buffer + batch[room..])
    else s.(buffer := s.buffer + batch)
  }

  /** What the event loop of an output reacts to. */
  datatype Event = Ticked | Arrival(batch: Batch)

  predicate Fits(c: Config, events: seq<Event>) {
    forall i | 0 <= i < |events| && events[i].Arrival? :: |events[i].batch| <= c.capacity
  }

  function React(c: Config, e: Env, s: SenderState, ev: Event): (r: SenderState)
    requires c.Valid() && |s.buffer| <= c.capacity
    ensures |r.buffer| <= c.capacity
    requires ev.Arrival? ==> |ev.batch| <= c.capacity
  {
    match ev
    case Ticked => Flush(c, e, s, false)
    case Arrival(batch) => QueueMessages(c, e, s, batch)
  }

  /** The sender after a sequence of events, before its input channel closes. */
  function RunEvents(c: Config, e: Env, events: seq<Event>): (r: SenderState)
    requires c.Valid() && Fits(c, events)
    ensures |r.buffer| <= c.capacity
  {
    if |events| == 0 then NewSender(e)
    else React(c, e, RunEvents(c, e, events[..|events| - 1]), events[|events| - 1])
  }

  /** Everything that was ever queued, in order. */
  function Queued(events: seq<Event>): (r: Batch) {
    if |events| == 0 then []
    else Queued(events[..|events| - 1]) +
         (match events[|events| - 1] case Ticked => [] case Arrival(b) => b)
  }

  /** The messages of the first `n` settlements, in order. */
  function SettledUpTo(log: seq<Settlement>, n: nat): (r: Batch)
    requires n <= |log|
  {
    if n == 0 then [] else SettledUpTo(log, n - 1) + log[n - 1].batch
  }

  /** The messages of a settlement log, in order. */
  function Settled(log: seq<Settlement>): (r: Batch) {
    SettledUpTo(log, |log|)
  }

  lemma {:induction false} SettledPrefix(log: seq<Settlement>, x: Settlement, n: nat)
    requires n <= |log|
    ensures SettledUpTo(log + [x], n) == SettledUpTo(log, n)
  {
    if n > 0 { SettledPrefix(log, x, n - 1); }
  }

  lemma SettledSnoc(log: seq<Settlement>, x: Settlement)
    ensures Settled(log + [x]) == Settled(log) + x.batch
  {
    SettledPrefix(log, x, |log|);
  }

  /** The batches that were sent to the buffer channel by the first `n` settlements. */
  function ForwardedUpTo(log: seq<Settlement>, n: nat): (r: seq<Batch>)
    requires n <= |log|
  {
    if n == 0 then []
    else ForwardedUpTo(log, n - 1) + (if log[n - 1].outcome.Forwarded? then [log[n - 1].batch] else [])
  }

  function ForwardedBatches(log: seq<Settlement>): (r: seq<Batch>) {
    ForwardedUpTo(log, |log|)
  }

  lemma {:induction false} ForwardedPrefix(log: seq<Settlement>, x: Settlement, n: nat)
    requires n <= |log|
    ensures ForwardedUpTo(log + [x], n) == ForwardedUpTo(log, n)
  {
    if n > 0 { ForwardedPrefix(log, x, n - 1); }
  }

  lemma ForwardedSnoc(log: seq<Settlement>, x: Settlement)
    ensures ForwardedBatches(log + [x])
         == ForwardedBatches(log) + (if x.outcome.Forwarded? then [x.batch] else [])
  {
    ForwardedPrefix(log, x, |log|);
  }

  // ---------------------------------------------------------------------------------
  // What one flush does

  function Copies<T>(x: T, n: nat): (r: seq<T>)
    ensures |r| == n && forall i | 0 <= i < n :: r[i] == x
  {
    seq(n, _ => x)
  }

  function Pow2(k: nat): (r: nat)
    ensures r >= 1
  {
    if k == 0 then 1 else 2 * Pow2(k - 1)
  }

  /** Among the results of calls `from`, `from + 1`, ..., the position of the first of the
      next `n` that is not a transient failure; `n` when there is none. */
  function FirstDecisive(e: Env, from: nat, n: nat): (k: nat)
    ensures k <= n
    ensures k < n ==> !e.result(from + k).TransientFailure?
    ensures forall j: nat | from <= j < from + k :: e.result(j).TransientFailure?
    decreases n
  {
    if n == 0 || !e.result(from).TransientFailure? then 0 else 1 + FirstDecisive(e, from + 1, n - 1)
  }

  /** The total of `n` sleeps, the first of length `backoff` and each twice the previous. */
  function SleepTotal(backoff: nat, n: nat): nat
    decreases n
  {
    if n == 0 then 0 else backoff + SleepTotal(2 * backoff, n - 1)
  }

  lemma {:induction false} SleepTotalClosedForm(backoff: nat, n: nat)
    ensures SleepTotal(backoff, n) == backoff * (Pow2(n) - 1)
    decreases n
  {
    if n > 0 {
      SleepTotalClosedForm(2 * backoff, n - 1);
      var p := Pow2(n - 1);
      assert 2 * backoff * (p - 1) + backoff == backoff * (2 * p - 1);
    }
  }

  function MaxCalls(c: Config): nat {
    if c.maxTries >= 1 then c.maxTries else 1
  }

  /** `t` is `s` after `calls` calls of the outputter, all with the buffer of `s`, `slept` ms
      of sleep, and the single settlement of that buffer with outcome `o`. Only an
      acknowledgement restarts the flush interval. */
  predicate Settles(e: Env, s: SenderState, t: SenderState, o: Outcome, calls: nat, slept: nat) {
    && t.buffer == []
    && t.settled == s.settled + [Settlement(o, s.buffer)]
    && t.attempts == s.attempts + Copies(s.buffer, calls)
    && t.slept == s.slept + slept
    && t.current == (if o.Acked? then Success else LongFailure)
    && t.readings == s.readings + (if o.Acked? then 2 else 1)
    && t.lastFlush == (if o.Acked? then e.clock(t.readings - 1) else s.lastFlush)
  }

  /** `t` is `s` after such a flush, which is on record. */
  predicate DeliveredAs(e: Env, s: SenderState, t: SenderState, o: Outcome, calls: nat, slept: nat) {
    && Settles(e, s, t, o, calls, slept)
    && t.lastRetry == e.clock(s.readings)
    && t.deliveries == s.deliveries + [Delivery(t.lastRetry, calls, slept, t.current.Success?)]
  }

  /** `s` after `calls` fruitless calls of the outputter and `slept` ms of sleep. */
  function Tried(s: SenderState, calls: nat, slept: nat): SenderState {
    s.(attempts := s.attempts + Copies(s.buffer, calls), slept := s.slept + slept)
  }

  function Conclude(c: Config, e: Env, s: SenderState, r: OutputResult): SenderState {
    if r.Success? then Acknowledge(e, s) else HandleLongFailure(c, s)
  }

  lemma TriedOnceMore(s: SenderState, backoff: nat, calls: nat, slept: nat)
    ensures Tried(Attempted(s.(slept := s.slept + backoff)), calls, slept)
         == Tried(s, calls + 1, backoff + slept)
  {
    assert s.attempts + [s.buffer] + Copies(s.buffer, calls) == s.attempts + Copies(s.buffer, calls + 1);
  }

  /** What `n` more retries make of `s`, decided by the first result that is not transient. */
  function RetryVerdict(c: Config, e: Env, s: SenderState, n: nat, backoff: nat): (SenderState, bool) {
    var k := FirstDecisive(e, |s.attempts|, n);
    if k < n then
      (Conclude(c, e, Tried(s, k + 1, SleepTotal(backoff, k + 1)), e.result(|s.attempts| + k)), true)
    else
      (Tried(s, n, SleepTotal(backoff, n)), false)
  }

  lemma VerdictAfterTransient(c: Config, e: Env, s: SenderState, n: nat, backoff: nat)
    requires n > 0 && NextResult(e, s).TransientFailure?
    ensures RetryVerdict(c, e, Attempted(s.(slept := s.slept + backoff)), n - 1, 2 * backoff)
         == RetryVerdict(c, e, s, n, backoff)
  {
    var t := Attempted(s.(slept := s.slept + backoff));
    var k := FirstDecisive(e, |t.attempts|, n - 1);
    assert FirstDecisive(e, |s.attempts|, n) == k + 1;
    var calls := if k < n - 1 then k + 1 else n - 1;
    TriedOnceMore(s, backoff, calls, SleepTotal(2 * backoff, calls));
    assert SleepTotal(backoff, calls + 1) == backoff + SleepTotal(2 * backoff, calls);
  }

  lemma VerdictDecisive(c: Config, e: Env, s: SenderState, n: nat, backoff: nat)
    requires n > 0 && !NextResult(e, s).TransientFailure?
    ensures RetryVerdict(c, e, s, n, backoff)
         == (Conclude(c, e, Attempted(s.(slept := s.slept + backoff)), NextResult(e, s)), true)
  {
    TriedOnceMore(s, backoff, 0, 0);
    assert Tried(Attempted(s.(slept := s.slept + backoff)), 0, 0) == Attempted(s.(slept := s.slept + backoff));
    assert SleepTotal(backoff, 1) == backoff + SleepTotal(2 * backoff, 0);
  }

  function Remaining(c: Config, i: int): nat {
    if i < c.maxTries then c.maxTries - i else 0
  }

  /** The retry loop computes the verdict. */
  lemma {:induction false} RetryOutcome(c: Config, e: Env, s: SenderState, i: int, backoff: nat)
    ensures DoExponentialRetry(c, e, s, i, backoff) == RetryVerdict(c, e, s, Remaining(c, i), backoff)
    decreases c.maxTries - i
  {
    if i >= c.maxTries {
      assert Tried(s, 0, 0) == s;
    } else if NextResult(e, s).TransientFailure? {
      RetryOutcome(c, e, Attempted(s.(slept := s.slept + backoff)), i + 1, 2 * backoff);
      VerdictAfterTransient(c, e, s, Remaining(c, i), backoff);
    } else {
      VerdictDecisive(c, e, s, Remaining(c, i), backoff);
    }
  }

  /** What a delivery of at most `n` calls makes of `s`. */
  function DeliveryVerdict(c: Config, e: Env, s: SenderState, n: nat): SenderState
    requires n > 0
  {
    var k := FirstDecisive(e, |s.attempts|, n);
    if k < n then Conclude(c, e, Tried(s, k + 1, SleepTotal(FIRST_BACKOFF, k)), e.result(|s.attempts| + k))
    else HandleLongFailure(c, Tried(s, n, SleepTotal(FIRST_BACKOFF, n - 1)))
  }

  lemma TransientVerdict(c: Config, e: Env, s: SenderState, n: nat)
    requires n > 0 && NextResult(e, s).TransientFailure?
    ensures var (t, settled) := RetryVerdict(c, e, Attempted(s), n - 1, FIRST_BACKOFF);
            DeliveryVerdict(c, e, s, n) == if settled then t else HandleLongFailure(c, t)
  {
    var t := Attempted(s);
    var k := FirstDecisive(e, |t.attempts|, n - 1);
    assert FirstDecisive(e, |s.attempts|, n) == k + 1;
    var calls := if k < n - 1 then k + 1 else n - 1;
    TriedOnceMore(s, 0, calls, SleepTotal(FIRST_BACKOFF, calls));
  }

  /** The first call and the retries together amount to one verdict over `MaxCalls` calls. */
  lemma CallAndRetryVerdict(c: Config, e: Env, s: SenderState)
    ensures CallAndRetry(c, e, s) == DeliveryVerdict(c, e, s, MaxCalls(c))
  {
    if NextResult(e, s).TransientFailure? {
      RetryOutcome(c, e, Attempted(s), 1, FIRST_BACKOFF);
      TransientVerdict(c, e, s, MaxCalls(c));
    } else {
      DecisiveVerdict(c, e, s, MaxCalls(c));
    }
  }

  lemma DecisiveVerdict(c: Config, e: Env, s: SenderState, n: nat)
    requires n > 0 && !NextResult(e, s).TransientFailure?
    ensures DeliveryVerdict(c, e, s, n) == Conclude(c, e, Attempted(s), NextResult(e, s))
  {
    assert FirstDecisive(e, |s.attempts|, n) == 0;
    TriedOnceMore(s, 0, 0, 0);
    assert Tried(Attempted(s), 0, 0) == Attempted(s);
  }

  lemma DeliverVerdict(c: Config, e: Env, s: SenderState)
    ensures Deliver(c, e, s) == LogDelivery(Started(e, s), DeliveryVerdict(c, e, Started(e, s), MaxCalls(c)))
  {
    CallAndRetryVerdict(c, e, Started(e, s));
  }

  /** What a delivery that was concluded with `r` after `calls` calls leaves behind. */
  lemma ConcludeSettles(c: Config, e: Env, s: SenderState, r: OutputResult, calls: nat, slept: nat)
    ensures var started := Started(e, s);
            var t := LogDelivery(started, Conclude(c, e, Tried(started, calls, slept), r));
            DeliveredAs(e, s, t, if r.Success? then Acked else Diversion(c), calls, slept)
  {
  }

  /** A delivery is decided by the first result that is not transient among the next
      `MaxCalls`: the batch is acknowledged if that result is a success, and diverted
      otherwise or when there is no such result. Before call k the sender has slept
      100 * (2^k - 1) ms. */
  lemma DeliveryOutcome(c: Config, e: Env, s: SenderState)
    ensures var n := MaxCalls(c);
            var k := FirstDecisive(e, |s.attempts|, n);
            var t := Deliver(c, e, s);
            if k < n then
              DeliveredAs(e, s, t, if e.result(|s.attempts| + k).Success? then Acked else Diversion(c),
                          k + 1, 100 * (Pow2(k) - 1))
            else
              DeliveredAs(e, s, t, Diversion(c), n, 100 * (Pow2(n - 1) - 1))
  {
    if FirstDecisive(e, |s.attempts|, MaxCalls(c)) < MaxCalls(c) {
      DeliveryDecided(c, e, s);
    } else {
      DeliveryUndecided(c, e, s);
    }
  }

  lemma DeliveryDecided(c: Config, e: Env, s: SenderState)
    requires FirstDecisive(e, |s.attempts|, MaxCalls(c)) < MaxCalls(c)
    ensures var k := FirstDecisive(e, |s.attempts|, MaxCalls(c));
            DeliveredAs(e, s, Deliver(c, e, s),
                        if e.result(|s.attempts| + k).Success? then Acked else Diversion(c),
                        k + 1, FIRST_BACKOFF * (Pow2(k) - 1))
  {
    var k := FirstDecisive(e, |s.attempts|, MaxCalls(c));
    DeliverConcludes(c, e, s);
    SleepTotalClosedForm(FIRST_BACKOFF, k);
    ConcludeSettles(c, e, s, e.result(|s.attempts| + k), k + 1, SleepTotal(FIRST_BACKOFF, k));
  }

  lemma DeliverConcludes(c: Config, e: Env, s: SenderState)
    requires FirstDecisive(e, |s.attempts|, MaxCalls(c)) < MaxCalls(c)
    ensures var k := FirstDecisive(e, |s.attempts|, MaxCalls(c));
            Deliver(c, e, s)
            == LogDelivery(Started(e, s), Conclude(c, e, Tried(Started(e, s), k + 1, SleepTotal(FIRST_BACKOFF, k)),
                                                   e.result(|s.attempts| + k)))
  {
    DeliverVerdict(c, e, s);
  }

  lemma DeliveryUndecided(c: Config, e: Env, s: SenderState)
    requires FirstDecisive(e, |s.attempts|, MaxCalls(c)) == MaxCalls(c)
    ensures var n := MaxCalls(c);
            DeliveredAs(e, s, Deliver(c, e, s), Diversion(c), n, FIRST_BACKOFF * (Pow2(n - 1) - 1))
  {
    var n := MaxCalls(c);
    DeliverVerdict(c, e, s);
    SleepTotalClosedForm(FIRST_BACKOFF, n - 1);
    ConcludeSettles(c, e, s, LongFailure, n, SleepTotal(FIRST_BACKOFF, n - 1));
  }
}
