/** How much exactly passes: tokens accumulate up to the rate, and a burst gets as many as there
    are. (The bounds of `RateLimit` say what cannot pass.) */
module RateLimitBursts {
  import opened RateLimit

  function Min(a: int, b: int): int {
    if a <= b then a else b
  }

  /** One use in plain numbers: the tokens that the whole microseconds since the last check are
      worth are added to those there are, as far as there is room; one is taken if there is
      one. Time that is not worth a token is not forgotten. */
  lemma UseExact(b: Bucket, c: Call)
    ensures var added := (c.now - b.lastCheck) / 1000 * b.rate / 1_000_000;
            var held := if added <= 0 then b.tokens else Min(b.rate, b.tokens + added);
            && (Use(b, c).1 <==> held >= 1)
            && Use(b, c).0.tokens == (if held >= 1 then held - 1 else held)
            && Use(b, c).0.lastCheck == (if added > 0 then c.later else b.lastCheck) && Use(b, c).0.rate == b.rate
  {
    assert TokensFor(Micros(b.lastCheck, c.now), b.rate) == (c.now - b.lastCheck) / 1000 * b.rate / 1_000_000;
  }

  lemma {:induction false} CountOfPrefix(decisions: seq<bool>, k: nat)
    requires forall i | 0 <= i < |decisions| :: decisions[i] <==> i < k
    ensures Count(decisions) == Min(|decisions|, k)
    decreases |decisions|
  {
    if decisions != [] {
      CountOfPrefix(decisions[1..], if k > 0 then k - 1 else 0);
    }
  }

  /** Where no tokens are added, the first messages take those there are. */
  lemma {:induction false} FirstComeFirstServed(b: Bucket, t: int, m: nat)
    requires TokensFor(Micros(b.lastCheck, t), b.rate) <= 0 && b.tokens >= 0
    ensures forall i | 0 <= i < m :: Decisions(b, Burst(t, m))[i] <==> i < b.tokens
    decreases m
  {
    if m > 0 {
      assert Burst(t, m)[1..] == Burst(t, m - 1);
      var next := Use(b, Call(t, t)).0;
      FirstComeFirstServed(next, t, m - 1);
      var rest := Decisions(next, Burst(t, m - 1));
      assert Decisions(b, Burst(t, m)) == [b.tokens >= 1] + rest;
    }
  }

  lemma NothingAtOnce(t: int, rate: int)
    ensures TokensFor(Micros(t, t), rate) == 0
  {
    assert 0 * rate == 0;
  }

  /** A bucket to which tokens were added serves as one that had them from the start. */
  lemma Replenished(b: Bucket, t: int, held: int)
    requires b.Valid() && b.lastCheck <= t
    requires var added := TokensFor(Micros(b.lastCheck, t), b.rate); added > 0 && held == Min(b.rate, b.tokens + added)
    ensures Use(b, Call(t, t)) == Use(Bucket(held, b.rate, t), Call(t, t))
  {
    NothingAtOnce(t, b.rate);
  }

  lemma ReplenishedDecisions(b: Bucket, t: int, m: nat, held: int)
    requires b.Valid() && b.lastCheck <= t
    requires var added := TokensFor(Micros(b.lastCheck, t), b.rate); added > 0 && held == Min(b.rate, b.tokens + added)
    ensures Decisions(b, Burst(t, m)) == Decisions(Bucket(held, b.rate, t), Burst(t, m))
  {
    Replenished(b, t, held);
    if m > 0 {
      assert Burst(t, m)[0] == Call(t, t);
    }
  }

  /** What a bucket holds at time `t`. */
  lemma HeldInNumbers(b: Bucket, t: int)
    ensures TokensFor(Micros(b.lastCheck, t), b.rate) == (t - b.lastCheck) / 1000 * b.rate / 1_000_000
    ensures b.Valid() && b.lastCheck <= t ==> TokensFor(Micros(b.lastCheck, t), b.rate) >= 0
  {
    if b.Valid() && b.lastCheck <= t {
      MicrosNonNegative(b.lastCheck, t);
      TokensNonNegative(Micros(b.lastCheck, t), b.rate);
    }
  }

  lemma BurstDecided(b: Bucket, t: int, m: nat, held: int)
    requires b.Valid() && b.lastCheck <= t
    requires held == Min(b.rate, b.tokens + TokensFor(Micros(b.lastCheck, t), b.rate))
    ensures held >= 0 && forall i | 0 <= i < m :: Decisions(b, Burst(t, m))[i] <==> i < held
  {
    HeldInNumbers(b, t);
    if TokensFor(Micros(b.lastCheck, t), b.rate) > 0 {
      NothingAtOnce(t, b.rate);
      FirstComeFirstServed(Bucket(held, b.rate, t), t, m);
      ReplenishedDecisions(b, t, m, held);
    } else {
      FirstComeFirstServed(b, t, m);
    }
  }

  /** Of a burst at time `t` exactly as many messages pass, the first ones, as the bucket had
      tokens and the time since its last check is worth, up to the rate. */
  lemma BurstExact(b: Bucket, t: int, m: nat)
    requires b.Valid() && b.lastCheck <= t
    ensures var held := Min(b.rate, b.tokens + (t - b.lastCheck) / 1000 * b.rate / 1_000_000);
            && (forall i | 0 <= i < m :: Decisions(b, Burst(t, m))[i] <==> i < held)
            && Passes(b, Burst(t, m)) == Min(m, held)
  {
    HeldInNumbers(b, t);
    var held := Min(b.rate, b.tokens + TokensFor(Micros(b.lastCheck, t), b.rate));
    BurstDecided(b, t, m, held);
    CountOfPrefix(Decisions(b, Burst(t, m)), held);
  }

  /** A new bucket is full. When its tokens were used up at once, it has at any later time as
      many as the time since is worth, and no others: the two bursts together pass exactly
      that much more than the rate. */
  lemma EmptiedAndRefilled(rate: int, t0: int, t: int, m: nat)
    requires rate >= 1 && t0 <= t
    ensures Passes(NewBucket(rate, true, t0), Burst(t0, rate) + Burst(t, m))
         == rate + Min(m, Min(rate, (t - t0) / 1000 * rate / 1_000_000))
  {
    var b := NewBucket(rate, true, t0);
    NothingAtOnce(t0, rate);
    BurstPasses(b, t0, rate, Burst(t, m));
    BurstExact(b.(tokens := b.tokens - rate), t, m);
  }

  /** Every new key has a full bucket of its own, whatever other keys have used: of the messages
      with that key, if they all come at the same time, exactly the first `rate` pass. */
  lemma NewKeyBurst(rate: int, arrivals: seq<Arrival>, key: string, t: int)
    requires rate >= 1
    requires forall a | a in Only(arrivals, key) :: a.created <= t && a.call == Call(t, t)
    ensures |DecisionsFor(rate, arrivals, key)| == |Only(arrivals, key)|
    ensures forall i | 0 <= i < |Only(arrivals, key)| :: DecisionsFor(rate, arrivals, key)[i] <==> i < rate
  {
    var mine := Only(arrivals, key);
    Partitioned(rate, arrivals, key);
    if mine != [] {
      var b := NewBucket(rate, true, mine[0].created);
      assert CallsOf(mine) == Burst(t, |mine|);
      BurstExact(b, t, |mine|);
      MicrosNonNegative(b.lastCheck, t);
      TokensNonNegative(Micros(b.lastCheck, t), b.rate);
    }
  }
}
