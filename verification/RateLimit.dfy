/** The rate limiter: one token bucket for each value of the partition key. */
module RateLimit {
  const MICROSECS_PER_SEC: int := 1_000_000
  const NANOS_PER_MICRO: int := 1000

  // ---------------------------------------------------------------------------------
  // The value of a bucket and the meaning of its operations

  /** `lastCheck` is a clock reading in nanoseconds. */
  datatype Bucket = Bucket(tokens: int, rate: int, lastCheck: int)
  {
    predicate Valid() { 1 <= rate && 0 <= tokens <= rate }
  }

  /** One use of a bucket reads the clock at `now` to see how much time has passed, and, if
      it adds tokens, at `later` to remember when. */
  datatype Call = Call(now: int, later: int)

  /** Whole microseconds from one reading to another, rounded down. */
  function Micros(since: int, now: int): int {
    (now - since) / NANOS_PER_MICRO
  }

  function TokensFor(us: int, rate: int): int {
    us * rate / MICROSECS_PER_SEC
  }

  function NewBucket(rate: int, startFull: bool, now: int): Bucket {
    Bucket(if startFull then rate else 0, rate, now)
  }

  function AddNewTokens(b: Bucket, c: Call): Bucket {
    var n := TokensFor(Micros(b.lastCheck, c.now), b.rate);
    if n > 0 then Bucket(if b.tokens + n > b.rate then b.rate else b.tokens + n, b.rate, c.later) else b
  }

  function TryConsume(b: Bucket, n: int): (Bucket, bool) {
    if b.tokens >= n then (b.(tokens := b.tokens - n), true) else (b, false)
  }

  /** One message: the bucket afterwards, and whether the message passes. */
  function Use(b: Bucket, c: Call): (Bucket, bool) {
    TryConsume(AddNewTokens(b, c), 1)
  }

  /** The decisions on a sequence of calls. */
  function Decisions(b: Bucket, calls: seq<Call>): (r: seq<bool>)
    ensures |r| == |calls|
    decreases |calls|
  {
    if calls == [] then []
    else
      var (next, passes) := Use(b, calls[0]);
      [passes] + Decisions(next, calls[1..])
  }

  /** The bucket after a sequence of calls. */
  function Serve(b: Bucket, calls: seq<Call>): Bucket
    decreases |calls|
  {
    if calls == [] then b else Serve(Use(b, calls[0]).0, calls[1..])
  }

  function Count(decisions: seq<bool>): (n: nat)
    ensures n <= |decisions|
  {
    if decisions == [] then 0 else (if decisions[0] then 1 else 0) + Count(decisions[1..])
  }

  /** How many of the calls pass. */
  function Passes(b: Bucket, calls: seq<Call>): nat {
    Count(Decisions(b, calls))
  }

  /** The clock, last seen at `from`, never runs backwards. */
  predicate InOrder(from: int, calls: seq<Call>) {
    && (forall i | 0 <= i < |calls| :: from <= calls[i].now <= calls[i].later)
    && (forall i, j | 0 <= i < j < |calls| :: calls[i].later <= calls[j].now)
  }

  // ---------------------------------------------------------------------------------
  // What a bucket promises

  lemma MicrosNonNegative(since: int, now: int)
    requires since <= now
    ensures Micros(since, now) >= 0
  {
  }

  lemma TokensNonNegative(us: int, rate: int)
    requires us >= 0 && rate >= 1
    ensures TokensFor(us, rate) >= 0
  {
    assert us * rate >= 0;
  }

  /** A use keeps the bucket between empty and full. */
  lemma UseValid(b: Bucket, c: Call)
    requires b.Valid() && b.lastCheck <= c.now <= c.later
    ensures var r := Use(b, c).0; r.Valid() && r.rate == b.rate && b.lastCheck <= r.lastCheck <= c.later
  {
  }

  /** Every bucket that was served holds between none and `rate` tokens. */
  lemma {:induction false} ServeValid(b: Bucket, calls: seq<Call>)
    requires b.Valid() && InOrder(b.lastCheck, calls)
    ensures Serve(b, calls).Valid() && Serve(b, calls).rate == b.rate
    ensures b.lastCheck <= Serve(b, calls).lastCheck
    ensures calls != [] ==> Serve(b, calls).lastCheck <= calls[|calls| - 1].later
    decreases |calls|
  {
    if calls != [] {
      UseValid(b, calls[0]);
      ServeValid(Use(b, calls[0]).0, calls[1..]);
    }
  }

  lemma MicrosAdd(a: int, b: int, c: int)
    requires a <= b <= c
    ensures Micros(a, b) + Micros(b, c) <= Micros(a, c) <= Micros(a, b) + Micros(b, c) + 1
  {
  }

  lemma {:induction false} FloorAdd(x: int, y: int, z: int)
    requires x + y <= z
    ensures x / MICROSECS_PER_SEC + y / MICROSECS_PER_SEC <= z / MICROSECS_PER_SEC
  {
  }

  lemma ProductMonotone(x: int, y: int, rate: int)
    requires x <= y && rate >= 0
    ensures x * rate <= y * rate
  {
  }

  /** Adding tokens twice gives no more than adding them once for the whole time. */
  lemma TokensAdd(us1: int, us2: int, us: int, rate: int)
    requires us1 + us2 <= us && rate >= 1
    ensures TokensFor(us1, rate) + TokensFor(us2, rate) <= TokensFor(us, rate)
  {
    ProductMonotone(us1 + us2, us, rate);
    assert (us1 + us2) * rate == us1 * rate + us2 * rate;
    FloorAdd(us1 * rate, us2 * rate, us * rate);
  }

  /** Tokens added in disjoint stretches of time. */
  lemma TokensOver(a: int, b: int, c: int, d: int, rate: int)
    requires a <= b <= c <= d && rate >= 1
    ensures TokensFor(Micros(a, b), rate) + TokensFor(Micros(c, d), rate) <= TokensFor(Micros(a, d), rate)
  {
    MicrosAdd(a, b, d);
    MicrosAdd(b, c, d);
    TokensAdd(Micros(a, b), Micros(c, d), Micros(a, d), rate);
  }

  /** What one use passes comes out of the tokens there were and those that were added. */
  lemma UsePays(b: Bucket, c: Call)
    requires b.Valid() && b.lastCheck <= c.now <= c.later
    ensures var (r, passes) := Use(b, c);
            var paid := if passes then 1 else 0;
            var n := TokensFor(Micros(b.lastCheck, c.now), b.rate);
            && paid + r.tokens <= b.rate
            && if n > 0 then paid + r.tokens <= b.tokens + n && r.lastCheck == c.later
               else paid + r.tokens == b.tokens && r.lastCheck == b.lastCheck
  {
  }

  /** From the moment a bucket was last checked, no more messages pass than it had tokens,
      plus the tokens for the whole time since. */
  lemma {:induction false} TotalBound(b: Bucket, calls: seq<Call>)
    requires b.Valid() && InOrder(b.lastCheck, calls) && calls != []
    ensures Passes(b, calls) <= b.tokens + TokensFor(Micros(b.lastCheck, calls[|calls| - 1].now), b.rate)
    decreases |calls|
  {
    var c, rest, last := calls[0], calls[1..], calls[|calls| - 1].now;
    var next := Use(b, c).0;
    UsePays(b, c);
    UseValid(b, c);
    MicrosNonNegative(b.lastCheck, c.now);
    TokensNonNegative(Micros(b.lastCheck, c.now), b.rate);
    if rest != [] {
      TotalBound(next, rest);
      TokensOver(b.lastCheck, c.now, c.later, last, b.rate);
    } else {
      assert Decisions(next, rest) == [];
    }
  }

  /** From the creation of a bucket at `t0` until `t`, no more than rate + rate * (t - t0)
      messages pass, with the time in whole microseconds and the product rounded down. */
  lemma BoundFromCreation(rate: int, t0: int, calls: seq<Call>)
    requires rate >= 1 && InOrder(t0, calls) && calls != []
    ensures Passes(NewBucket(rate, true, t0), calls)
         <= rate + TokensFor(Micros(t0, calls[|calls| - 1].now), rate)
  {
    TotalBound(NewBucket(rate, true, t0), calls);
  }

  /** The first call of a window either adds tokens and restarts the count of time, or finds
      that less than a token's worth of time has passed. */
  lemma WindowSplit(b: Bucket, calls: seq<Call>)
    requires b.Valid() && InOrder(b.lastCheck, calls) && calls != []
    ensures var t1, t2 := calls[0].now, calls[|calls| - 1].now;
            || Passes(b, calls) <= b.rate + TokensFor(Micros(t1, t2), b.rate)
            || (TokensFor(Micros(b.lastCheck, t1), b.rate) <= 0
                && Passes(b, calls) <= b.rate + TokensFor(Micros(b.lastCheck, t2), b.rate))
  {
    var c, rest := calls[0], calls[1..];
    var t1, t2 := c.now, calls[|calls| - 1].now;
    if TokensFor(Micros(b.lastCheck, t1), b.rate) <= 0 {
      TotalBound(b, calls);
    } else {
      var next := Use(b, c).0;
      UsePays(b, c);
      UseValid(b, c);
      MicrosNonNegative(t1, t2);
      TokensNonNegative(Micros(t1, t2), b.rate);
      if rest != [] {
        TotalBound(next, rest);
        TokensOver(t1, t1, c.later, t2, b.rate);
        assert TokensFor(Micros(t1, t1), b.rate) == 0;
      } else {
        assert Decisions(next, rest) == [];
      }
    }
  }

  /** What a window of `us` whole microseconds may let pass beyond a full bucket: the tokens
      for that time and the microsecond that rounding may hide, rounded up. */
  function WindowTokens(us: int, rate: int): int {
    (rate * (us + 1) + MICROSECS_PER_SEC - 1) / MICROSECS_PER_SEC
  }

  /** In any window of calls, whatever came before it, at most `rate` and `WindowTokens`
      messages pass, in spite of truncation, lost remainders and separate clock readings. */
  lemma WindowBound(b: Bucket, calls: seq<Call>)
    requires b.Valid() && InOrder(b.lastCheck, calls) && calls != []
    ensures Passes(b, calls) <= b.rate + WindowTokens(Micros(calls[0].now, calls[|calls| - 1].now), b.rate)
  {
    var t1, t2 := calls[0].now, calls[|calls| - 1].now;
    var us0, us := Micros(b.lastCheck, t1), Micros(t1, t2);
    WindowSplit(b, calls);
    MicrosAdd(b.lastCheck, t1, t2);
    HiddenMicrosecond(0, us, us, b.rate);
    if TokensFor(us0, b.rate) <= 0 { HiddenMicrosecond(us0, us, Micros(b.lastCheck, t2), b.rate); }
  }

  lemma {:induction false} HiddenMicrosecond(us0: int, us: int, all: int, rate: int)
    requires rate >= 1 && TokensFor(us0, rate) <= 0 && all <= us0 + us + 1
    ensures TokensFor(all, rate) <= WindowTokens(us, rate)
  {
    ProductMonotone(all, us0 + us + 1, rate);
    assert (us0 + us + 1) * rate == us0 * rate + rate * (us + 1);
    FloorOrder(all * rate, rate * (us + 1) + MICROSECS_PER_SEC - 1);
  }

  lemma {:induction false} FloorOrder(x: int, y: int)
    requires x <= y
    ensures x / MICROSECS_PER_SEC <= y / MICROSECS_PER_SEC
  {
  }

  /** The bound that a reader of the code would write down: the tokens of a full bucket, those
      for the length of the window, and one that was almost complete when it began. */
  predicate PlusOneHolds(b: Bucket, calls: seq<Call>)
    requires calls != []
  {
    Passes(b, calls) <= b.rate + TokensFor(Micros(calls[0].now, calls[|calls| - 1].now), b.rate) + 1
  }

  lemma WholeMicrosAdd(a: int, b: int, c: int)
    requires a % NANOS_PER_MICRO == 0 && b % NANOS_PER_MICRO == 0 && c % NANOS_PER_MICRO == 0
    ensures Micros(a, c) == Micros(a, b) + Micros(b, c)
  {
  }

  /** A stretch worth less than a token completes at most one more. */
  lemma {:induction false} LateToken(us0: int, us: int, rate: int)
    requires TokensFor(us0, rate) <= 0
    ensures TokensFor(us0 + us, rate) <= TokensFor(us, rate) + 1
  {
    var x, y := us0 * rate, us * rate;
    assert (us0 + us) * rate == x + y;
    assert x < MICROSECS_PER_SEC;
  }

  /** If the clock ticks in whole microseconds, that bound is right. */
  lemma PlusOneForWholeMicros(b: Bucket, calls: seq<Call>)
    requires b.Valid() && InOrder(b.lastCheck, calls) && calls != []
    requires b.lastCheck % NANOS_PER_MICRO == 0
    requires forall i | 0 <= i < |calls| :: calls[i].now % NANOS_PER_MICRO == 0
    ensures PlusOneHolds(b, calls)
  {
    var t1, t2 := calls[0].now, calls[|calls| - 1].now;
    var us0, us := Micros(b.lastCheck, t1), Micros(t1, t2);
    WindowSplit(b, calls);
    WholeMicrosAdd(b.lastCheck, t1, t2);
    if TokensFor(us0, b.rate) <= 0 { LateToken(us0, us, b.rate); }
  }

  /** It is also right when the rate divides a million. */
  lemma PlusOneForDivisors(b: Bucket, calls: seq<Call>)
    requires b.Valid() && InOrder(b.lastCheck, calls) && calls != []
    requires MICROSECS_PER_SEC % b.rate == 0
    ensures PlusOneHolds(b, calls)
  {
    var t1, t2 := calls[0].now, calls[|calls| - 1].now;
    var us0, us := Micros(b.lastCheck, t1), Micros(t1, t2);
    WindowSplit(b, calls);
    if TokensFor(us0, b.rate) <= 0 {
      NextMultiple(us0, b.rate);
      MicrosAdd(b.lastCheck, t1, t2);
      OneMoreToken(us0 + 1, us, Micros(b.lastCheck, t2), b.rate);
    }
  }

  /** A stretch worth no more than a token adds at most one. */
  lemma {:induction false} OneMoreToken(first: int, us: int, all: int, rate: int)
    requires all <= first + us && rate >= 1 && first * rate <= MICROSECS_PER_SEC
    ensures TokensFor(all, rate) <= TokensFor(us, rate) + 1
  {
    ProductMonotone(all, first + us, rate);
    assert (first + us) * rate == first * rate + us * rate;
    FloorBelow(all * rate, us * rate);
  }

  lemma {:induction false} FloorBelow(x: int, y: int)
    requires x <= y + MICROSECS_PER_SEC
    ensures x / MICROSECS_PER_SEC <= y / MICROSECS_PER_SEC + 1
  {
  }

  /** If `us` microseconds are worth less than a token, one more is worth at most one. */
  lemma NextMultiple(us: int, rate: int)
    requires rate >= 1 && MICROSECS_PER_SEC % rate == 0 && TokensFor(us, rate) <= 0
    ensures (us + 1) * rate <= MICROSECS_PER_SEC
  {
    var k := MICROSECS_PER_SEC / rate;
    assert k * rate == MICROSECS_PER_SEC;
    if us >= k { ProductMonotone(k, us, rate); }
    ProductMonotone(us + 1, k, rate);
  }

  function Burst(t: int, n: nat): (r: seq<Call>)
    ensures |r| == n && forall i | 0 <= i < n :: r[i] == Call(t, t)
  {
    seq(n, _ => Call(t, t))
  }

  lemma BurstUnfolds(t: int, n: nat, rest: seq<Call>)
    requires n > 0
    ensures var calls := Burst(t, n) + rest;
            calls[0] == Call(t, t) && calls[1..] == Burst(t, n - 1) + rest
  {
  }

  /** A call too soon to add a token passes if there is one. */
  lemma FirstPasses(b: Bucket, calls: seq<Call>)
    requires calls != [] && TokensFor(Micros(b.lastCheck, calls[0].now), b.rate) <= 0 && b.tokens >= 1
    ensures Passes(b, calls) == 1 + Passes(b.(tokens := b.tokens - 1), calls[1..])
  {
    var rest := Decisions(b.(tokens := b.tokens - 1), calls[1..]);
    assert Decisions(b, calls) == [true] + rest;
    assert ([true] + rest)[1..] == rest;
  }

  /** Calls too soon to add a token all pass as long as there are tokens. */
  lemma {:induction false} BurstPasses(b: Bucket, t: int, n: nat, rest: seq<Call>)
    requires TokensFor(Micros(b.lastCheck, t), b.rate) <= 0 && n <= b.tokens
    ensures Passes(b, Burst(t, n) + rest) == n + Passes(b.(tokens := b.tokens - n), rest)
    decreases n
  {
    if n == 0 {
      assert Burst(t, n) + rest == rest;
    } else {
      BurstUnfolds(t, n, rest);
      FirstPasses(b, Burst(t, n) + rest);
      BurstPasses(b.(tokens := b.tokens - 1), t, n - 1, rest);
    }
  }

  lemma {:induction false} Expand(m: int, w: int, rate: int, over: int)
    requires w * rate == MICROSECS_PER_SEC + over
    ensures (m * w - 1) * rate == m * MICROSECS_PER_SEC + m * over - rate
  {
    assert (m * w - 1) * rate == m * (w * rate) - rate;
    assert m * (MICROSECS_PER_SEC + over) == m * MICROSECS_PER_SEC + m * over;
  }

  /** The numbers of the counterexample. `whole` is how many whole microseconds pass before a
      token is complete; one microsecond more exceeds it by `over`. */
  lemma {:induction false} AwkwardNumbers(rate: int) returns (whole: int, m: int, us: int)
    requires rate >= 1 && MICROSECS_PER_SEC % rate != 0
    ensures whole >= 0 && 1 <= m < rate && us >= 0
    ensures TokensFor(whole, rate) <= 0
    ensures TokensFor(us, rate) <= m - 1
    ensures TokensFor(whole + us + 1, rate) >= m + 1
  {
    whole := MICROSECS_PER_SEC / rate;
    var over := rate - MICROSECS_PER_SEC % rate;
    QuotientBounds(MICROSECS_PER_SEC, rate);
    assert (whole + 1) * rate == MICROSECS_PER_SEC + over && 1 <= over < rate;
    assert whole * rate == MICROSECS_PER_SEC + over - rate;
    m := Multiplier(rate, over);
    us := m * (whole + 1) - 1;
    ProductMonotone(1, m, whole + 1);
    Expand(m, whole + 1, rate, over);
    assert whole + us + 1 == (m + 1) * (whole + 1) - 1;
    Expand(m + 1, whole + 1, rate, over);
  }

  lemma {:induction false} Multiplier(rate: int, over: int) returns (m: int)
    requires 1 <= over < rate
    ensures 1 <= m < rate && m * over <= rate - 1 && rate <= (m + 1) * over
  {
    m := (rate - 1) / over;
    QuotientBounds(rate - 1, over);
    if m < 1 { ProductMonotone(m + 1, 1, over); }
    ProductMonotone(1, over, m);
  }

  lemma QuotientBounds(a: int, b: int)
    requires a >= 0 && b >= 1
    ensures (a / b) * b <= a < (a / b + 1) * b && 0 <= a / b && a == (a / b) * b + a % b
  {
    assert a == (a / b) * b + a % b;
  }

  /** For every other rate the bound is wrong: after a burst that empties the bucket almost
      one token's worth of time after its creation, the time hidden by rounding in the two
      readings adds up to a token more. */
  lemma PlusOneFailsForOthers(rate: int) returns (calls: seq<Call>)
    requires rate >= 1 && MICROSECS_PER_SEC % rate != 0
    ensures calls != [] && InOrder(0, calls) && !PlusOneHolds(NewBucket(rate, true, 0), calls)
  {
    var whole, m, us := AwkwardNumbers(rate);
    var b := NewBucket(rate, true, 0);
    var t1, t2 := NANOS_PER_MICRO * whole + NANOS_PER_MICRO - 1, NANOS_PER_MICRO * (whole + us + 1);
    var second := Burst(t2, m + 1);
    calls := Burst(t1, rate) + second;
    assert Micros(0, t1) == whole && Micros(0, t2) == whole + us + 1 && Micros(t1, t2) == us;
    BurstPasses(b, t1, rate, second);
    var empty := b.(tokens := 0);
    var refilled := Use(empty, Call(t2, t2)).0;
    assert second[0] == Call(t2, t2) && second[1..] == Burst(t2, m) + [];
    assert TokensFor(Micros(t2, t2), rate) == 0;
    BurstPasses(refilled, t2, m, []);
    assert Decisions(empty, second) == [true] + Decisions(refilled, second[1..]);
    assert Passes(refilled.(tokens := refilled.tokens - m), []) == 0;
    assert calls[0].now == t1 && calls[|calls| - 1].now == t2;
  }

  /** So the bound of one full bucket, the tokens for the window and one more holds for every
      bucket of a rate and every pattern of calls exactly when the rate divides a million. */
  lemma PlusOneIffDivisor(rate: int)
    requires rate >= 1
    ensures (forall b: Bucket, calls | b.Valid() && b.rate == rate && calls != [] && InOrder(b.lastCheck, calls) ::
               PlusOneHolds(b, calls))
       <==> MICROSECS_PER_SEC % rate == 0
  {
    if MICROSECS_PER_SEC % rate == 0 {
      forall b: Bucket, calls | b.Valid() && b.rate == rate && calls != [] && InOrder(b.lastCheck, calls)
        ensures PlusOneHolds(b, calls)
      {
        PlusOneForDivisors(b, calls);
      }
    } else {
      var calls := PlusOneFailsForOthers(rate);
      var b := NewBucket(rate, true, 0);
      assert b.Valid() && b.rate == rate && InOrder(b.lastCheck, calls) && !PlusOneHolds(b, calls);
    }
  }

  // ---------------------------------------------------------------------------------
  // What is not dropped

  /** The tokens that a bucket has let that many messages pass, at whatever times they come. */
  lemma {:induction false} TokensLetPass(b: Bucket, calls: seq<Call>)
    requires b.Valid() && InOrder(b.lastCheck, calls) && |calls| <= b.tokens
    ensures Passes(b, calls) == |calls|
    decreases |calls|
  {
    if calls != [] {
      UseValid(b, calls[0]);
      TokensLetPass(Use(b, calls[0]).0, calls[1..]);
    }
  }

  /** A token's worth of time lies before every call since the one before it. */
  predicate Unhurried(rate: int, from: int, calls: seq<Call>)
    decreases |calls|
  {
    calls != [] ==>
      Micros(from, calls[0].now) * rate >= MICROSECS_PER_SEC && Unhurried(rate, calls[0].later, calls[1..])
  }

  lemma {:induction false} TokenInTime(since: int, from: int, now: int, rate: int)
    requires since <= from <= now && rate >= 1 && Micros(from, now) * rate >= MICROSECS_PER_SEC
    ensures TokensFor(Micros(since, now), rate) >= 1
  {
    ProductMonotone(Micros(from, now), Micros(since, now), rate);
  }

  /** Messages that come no faster than the rate all pass, even if the bucket starts empty. */
  lemma {:induction false} UnhurriedPass(b: Bucket, from: int, calls: seq<Call>)
    requires b.Valid() && b.lastCheck <= from && InOrder(from, calls) && Unhurried(b.rate, from, calls)
    ensures Passes(b, calls) == |calls|
    decreases |calls|
  {
    if calls != [] {
      var c := calls[0];
      TokenInTime(b.lastCheck, from, c.now, b.rate);
      UseValid(b, c);
      UnhurriedPass(Use(b, c).0, c.later, calls[1..]);
    }
  }

  // ---------------------------------------------------------------------------------
  // Many keys

  /** A message with partition key `key`; `created` is the clock reading that a new bucket
      would remember. */
  datatype Arrival = Arrival(key: string, created: int, call: Call)

  predicate ArrivalsInOrder(arrivals: seq<Arrival>) {
    && (forall i | 0 <= i < |arrivals| :: arrivals[i].created <= arrivals[i].call.now <= arrivals[i].call.later)
    && (forall i, j | 0 <= i < j < |arrivals| :: arrivals[i].call.later <= arrivals[j].created)
  }

  function BucketFor(buckets: map<string, Bucket>, rate: int, a: Arrival): Bucket {
    if a.key in buckets then buckets[a.key] else NewBucket(rate, true, a.created)
  }

  /** The filter on one message: its buckets afterwards, and whether the message passes. */
  function FilterOne(buckets: map<string, Bucket>, rate: int, a: Arrival): (map<string, Bucket>, bool) {
    var (b, passes) := Use(BucketFor(buckets, rate, a), a.call);
    (buckets[a.key := b], passes)
  }

  function BucketsAfter(rate: int, arrivals: seq<Arrival>): map<string, Bucket> {
    if arrivals == [] then map[]
    else FilterOne(BucketsAfter(rate, arrivals[..|arrivals| - 1]), rate, arrivals[|arrivals| - 1]).0
  }

  /** The decision on the last of the arrivals. */
  function LastDecision(rate: int, arrivals: seq<Arrival>): bool
    requires arrivals != []
  {
    FilterOne(BucketsAfter(rate, arrivals[..|arrivals| - 1]), rate, arrivals[|arrivals| - 1]).1
  }

  /** The decisions on the arrivals with one key. */
  function DecisionsFor(rate: int, arrivals: seq<Arrival>, key: string): seq<bool> {
    if arrivals == [] then []
    else
      DecisionsFor(rate, arrivals[..|arrivals| - 1], key)
      + (if arrivals[|arrivals| - 1].key == key then [LastDecision(rate, arrivals)] else [])
  }

  /** The arrivals with one key. */
  function Only(arrivals: seq<Arrival>, key: string): (r: seq<Arrival>) {
    if arrivals == [] then []
    else
      var last := arrivals[|arrivals| - 1];
      Only(arrivals[..|arrivals| - 1], key) + (if last.key == key then [last] else [])
  }

  function CallsOf(arrivals: seq<Arrival>): (r: seq<Call>)
    ensures |r| == |arrivals| && forall i | 0 <= i < |r| :: r[i] == arrivals[i].call
  {
    seq(|arrivals|, i requires 0 <= i < |arrivals| => arrivals[i].call)
  }

  lemma {:induction false} ServeSnoc(b: Bucket, calls: seq<Call>, c: Call)
    ensures Serve(b, calls + [c]) == Use(Serve(b, calls), c).0
    ensures Decisions(b, calls + [c]) == Decisions(b, calls) + [Use(Serve(b, calls), c).1]
    decreases |calls|
  {
    if calls == [] {
      assert [c][1..] == [];
      assert [] + [c] == [c];
      assert Serve(Use(b, c).0, []) == Use(b, c).0 && Decisions(Use(b, c).0, []) == [];
    } else {
      assert (calls + [c])[1..] == calls[1..] + [c];
      ServeSnoc(Use(b, calls[0]).0, calls[1..], c);
    }
  }

  /** What is expected of one key: `mine` are its arrivals. */
  predicate AsSingleBucket(rate: int, mine: seq<Arrival>, buckets: map<string, Bucket>, key: string,
                           decisions: seq<bool>)
  {
    if mine == [] then key !in buckets && decisions == []
    else
      var b := NewBucket(rate, true, mine[0].created);
      key in buckets && buckets[key] == Serve(b, CallsOf(mine)) && decisions == Decisions(b, CallsOf(mine))
  }

  lemma OneMoreOfKey(rate: int, mine: seq<Arrival>, buckets: map<string, Bucket>, decisions: seq<bool>, last: Arrival)
    requires AsSingleBucket(rate, mine, buckets, last.key, decisions)
    ensures var (after, passes) := FilterOne(buckets, rate, last);
            AsSingleBucket(rate, mine + [last], after, last.key, decisions + [passes])
  {
    var b := NewBucket(rate, true, (mine + [last])[0].created);
    assert CallsOf(mine + [last]) == CallsOf(mine) + [last.call];
    ServeSnoc(b, CallsOf(mine), last.call);
    if mine == [] {
      assert CallsOf(mine) == [];
      assert Serve(b, CallsOf(mine)) == b && Decisions(b, CallsOf(mine)) == decisions;
    }
  }

  /** Partitioning: whatever other keys arrive in between, the messages of one key are treated
      exactly as by a single bucket, full when the first of them arrives, that sees nothing
      else. */
  lemma {:induction false} Partitioned(rate: int, arrivals: seq<Arrival>, key: string)
    ensures AsSingleBucket(rate, Only(arrivals, key), BucketsAfter(rate, arrivals), key,
                           DecisionsFor(rate, arrivals, key))
  {
    if arrivals != [] {
      var before, last := arrivals[..|arrivals| - 1], arrivals[|arrivals| - 1];
      Partitioned(rate, before, key);
      if last.key == key {
        OneMoreOfKey(rate, Only(before, key), BucketsAfter(rate, before), DecisionsFor(rate, before, key), last);
      } else {
        assert Only(arrivals, key) == Only(before, key);
        assert DecisionsFor(rate, arrivals, key) == DecisionsFor(rate, before, key);
      }
    }
  }

  /** The arrivals of one key are in order as well. */
  lemma {:induction false} OnlyInOrder(arrivals: seq<Arrival>, key: string)
    requires ArrivalsInOrder(arrivals)
    ensures ArrivalsInOrder(Only(arrivals, key))
    ensures forall a | a in Only(arrivals, key) :: a in arrivals
  {
    if arrivals != [] {
      var before, last := arrivals[..|arrivals| - 1], arrivals[|arrivals| - 1];
      OnlyInOrder(before, key);
      forall a | a in before ensures a.call.later <= last.created {
        var i :| 0 <= i < |before| && before[i] == a;
        assert arrivals[i] == a;
      }
    }
  }

  lemma {:induction false} ServeConcat(b: Bucket, first: seq<Call>, more: seq<Call>)
    ensures Decisions(b, first + more) == Decisions(b, first) + Decisions(Serve(b, first), more)
    decreases |first|
  {
    if first == [] {
      assert first + more == more;
    } else {
      assert (first + more)[1..] == first[1..] + more;
      ServeConcat(Use(b, first[0]).0, first[1..], more);
    }
  }

  /** The decisions in a window are those of the bucket as the calls before it left it. */
  lemma WindowDecisions(b: Bucket, calls: seq<Call>, i: nat, j: nat)
    requires i <= j <= |calls|
    ensures Decisions(b, calls)[i..j] == Decisions(Serve(b, calls[..i]), calls[i..j])
  {
    assert calls == calls[..j] + calls[j..] && calls[..j] == calls[..i] + calls[i..j];
    ServeConcat(b, calls[..j], calls[j..]);
    ServeConcat(b, calls[..i], calls[i..j]);
  }

  /** The bucket as the first calls left it is met by the later ones in order. */
  lemma StillInOrder(b: Bucket, calls: seq<Call>, i: nat, j: nat)
    requires b.Valid() && InOrder(b.lastCheck, calls) && i < j <= |calls|
    ensures var left := Serve(b, calls[..i]);
            left.Valid() && left.rate == b.rate && InOrder(left.lastCheck, calls[i..j])
  {
    var before := calls[..i];
    ServeValid(b, before);
    assert forall k | i <= k < j :: Serve(b, before).lastCheck <= calls[k].now;
  }

  /** The window bound for any stretch of the calls on one bucket. */
  lemma WindowBoundWithin(b: Bucket, calls: seq<Call>, i: nat, j: nat)
    requires b.Valid() && InOrder(b.lastCheck, calls) && i < j <= |calls|
    ensures Count(Decisions(b, calls)[i..j])
         <= b.rate + WindowTokens(Micros(calls[i].now, calls[j - 1].now), b.rate)
  {
    WindowDecisions(b, calls, i, j);
    StillInOrder(b, calls, i, j);
    WindowBound(Serve(b, calls[..i]), calls[i..j]);
  }

  /** The window bound holds of every key in any interleaving: of the messages number i to j-1
      with that key, no more than `rate` and `WindowTokens` pass. */
  lemma WindowBoundPerKey(rate: int, arrivals: seq<Arrival>, key: string, i: nat, j: nat)
    requires rate >= 1 && ArrivalsInOrder(arrivals) && i < j <= |Only(arrivals, key)|
    ensures |DecisionsFor(rate, arrivals, key)| == |Only(arrivals, key)|
    ensures var mine := Only(arrivals, key);
            Count(DecisionsFor(rate, arrivals, key)[i..j])
            <= rate + WindowTokens(Micros(mine[i].call.now, mine[j - 1].call.now), rate)
  {
    var mine := Only(arrivals, key);
    OnlyInOrder(arrivals, key);
    Partitioned(rate, arrivals, key);
    var b, calls := NewBucket(rate, true, mine[0].created), CallsOf(mine);
    assert InOrder(b.lastCheck, calls);
    WindowBoundWithin(b, calls, i, j);
  }

  /** So for every key, of the messages with that key no more pass than from a single bucket,
      however many other keys there are. */
  lemma BoundPerKey(rate: int, arrivals: seq<Arrival>, key: string)
    requires rate >= 1 && ArrivalsInOrder(arrivals) && Only(arrivals, key) != []
    ensures var mine := Only(arrivals, key);
            Count(DecisionsFor(rate, arrivals, key))
            <= rate + TokensFor(Micros(mine[0].created, mine[|mine| - 1].call.now), rate)
    ensures key in BucketsAfter(rate, arrivals) && BucketsAfter(rate, arrivals)[key].Valid()
  {
    var mine := Only(arrivals, key);
    OnlyInOrder(arrivals, key);
    Partitioned(rate, arrivals, key);
    assert InOrder(mine[0].created, CallsOf(mine));
    BoundFromCreation(rate, mine[0].created, CallsOf(mine));
    ServeValid(NewBucket(rate, true, mine[0].created), CallsOf(mine));
  }
}
