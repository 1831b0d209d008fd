/** The rate limit filter in the form the program gives it: bucket objects that are updated
    in place, in a map that grows by one bucket for every new key. Each method does what the
    function of `RateLimit` says. */
module RateLimitFilters {
  import opened Messages
  import opened RateLimit

  class TokenBucket {
    var tokens: int
    var rate: int
    var lastCheck: int

    ghost function Value(): Bucket
      reads this
    {
      Bucket(tokens, rate, lastCheck)
    }

    constructor (rate: int, startFull: bool, now: int)
      ensures Value() == NewBucket(rate, startFull, now)
      ensures tokens == (if startFull then rate else 0) && this.rate == rate && lastCheck == now
    {
      this.tokens := if startFull then rate else 0;
      this.rate := rate;
      this.lastCheck := now;
    }

    /** The two readings of the clock are `c.now` and `c.later`. */
    method AddNewTokens(c: Call)
      modifies this
      ensures Value() == RateLimit.AddNewTokens(old(Value()), c)
      ensures var newTokens := (c.now - old(lastCheck)) / 1000 * old(rate) / 1_000_000;
              && rate == old(rate) && lastCheck == (if newTokens > 0 then c.later else old(lastCheck))
              && tokens == (if newTokens <= 0 then old(tokens)
                            else if old(tokens) + newTokens > rate then rate else old(tokens) + newTokens)
    {
      var uSecsSinceLastCheck := Micros(lastCheck, c.now);
      var newTokens := TokensFor(uSecsSinceLastCheck, rate);
      if newTokens > 0 {
        tokens := tokens + newTokens;
        if tokens > rate {
          tokens := rate;
        }
        lastCheck := c.later;
      }
    }

    method TryConsumeTokens(numTokens: int) returns (withinRatelimit: bool)
      modifies this
      ensures (Value(), withinRatelimit) == TryConsume(old(Value()), numTokens)
      ensures withinRatelimit <==> numTokens <= old(tokens)
      ensures tokens + (if withinRatelimit then numTokens else 0) == old(tokens)
      ensures rate == old(rate) && lastCheck == old(lastCheck)
    {
      if tokens >= numTokens {
        tokens := tokens - numTokens;
        return true;
      }
      return false;
    }
  }

  /** The printed form of the field that partitions the messages; a message without it
      prints as nil. */
  function KeyOf(msg: Message, partitionKey: string): string {
    if partitionKey in msg.parsedFields then msg.parsedFields[partitionKey] else "<nil>"
  }

  class RateLimitFilter {
    const partitionKey: string
    const rate: int
    var buckets: map<string, TokenBucket>

    /** No two keys share a bucket. */
    ghost predicate Valid()
      reads this
    {
      forall k1, k2 | k1 in buckets && k2 in buckets && k1 != k2 :: buckets[k1] != buckets[k2]
    }

    ghost function Value(): map<string, Bucket>
      reads this, buckets.Values
    {
      map k | k in buckets :: buckets[k].Value()
    }

    constructor (partitionKey: string, rate: int)
      ensures Valid() && Value() == map[] && this.partitionKey == partitionKey && this.rate == rate
    {
      this.partitionKey := partitionKey;
      this.rate := rate;
      buckets := map[];
    }

    /** The bucket of a key, made when the key is seen for the first time; `created` is what
        the clock shows then. */
    method BucketOf(key: string, created: int) returns (tokenBucket: TokenBucket)
      requires Valid()
      modifies this
      ensures Valid() && key in buckets && buckets[key] == tokenBucket
      ensures if key in old(buckets) then buckets == old(buckets)
              else fresh(tokenBucket) && buckets == old(buckets)[key := tokenBucket]
      ensures tokenBucket.Value()
           == if key in old(buckets) then old(buckets[key].Value()) else NewBucket(rate, true, created)
    {
      if key !in buckets {
        var bucket := new TokenBucket(rate, true, created);
        buckets := buckets[key := bucket];
      }
      return buckets[key];
    }

    /** Use the bucket of a key; the others stay as they are. */
    method UseBucket(key: string, c: Call) returns (hadTokenForMsg: bool)
      requires Valid() && key in buckets
      modifies buckets[key]
      ensures (buckets[key].Value(), hadTokenForMsg) == Use(old(buckets[key].Value()), c)
      ensures Value() == old(Value())[key := buckets[key].Value()]
    {
      var tokenBucket := buckets[key];
      tokenBucket.AddNewTokens(c);
      hadTokenForMsg := tokenBucket.TryConsumeTokens(1);
      assert forall k | k in buckets && k != key :: buckets[k].Value() == old(buckets[k].Value());
    }

    /** The decision on a message with this key; only the bucket of the key changes. */
    method FilterKey(key: string, created: int, c: Call) returns (shouldDrop: bool)
      requires Valid()
      modifies this, buckets.Values
      ensures Valid() && fresh(buckets.Values - old(buckets.Values))
      ensures (Value(), !shouldDrop) == FilterOne(old(Value()), rate, Arrival(key, created, c))
    {
      var tokenBucket := BucketOf(key, created);
      assert Value() == old(Value())[key := tokenBucket.Value()];
      var hadTokenForMsg := UseBucket(key, c);
      assert Value() == old(Value())[key := tokenBucket.Value()];
      return !hadTokenForMsg;
    }

    /** Whether a message is to be dropped. Messages have different buckets if they have
        different values in the field that partitions them. */
    method Filter(msg: Message, created: int, c: Call) returns (shouldDrop: bool)
      requires Valid()
      modifies this, buckets.Values
      ensures Valid() && fresh(buckets.Values - old(buckets.Values))
      ensures var key := if partitionKey in msg.parsedFields then msg.parsedFields[partitionKey] else "<nil>";
              (Value(), !shouldDrop) == FilterOne(old(Value()), rate, Arrival(key, created, c))
    {
      shouldDrop := FilterKey(KeyOf(msg, partitionKey), created, c);
    }
  }
}
