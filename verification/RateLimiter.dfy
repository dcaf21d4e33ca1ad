/** The limiter as it runs: a map of buckets updated in place. */
module RateLimiter {
  import opened TokenBucket

  class IpBucket {
    var tokens: real
    var lastSeen: real

    constructor (tokens: real, lastSeen: real)
      ensures View() == Bucket(tokens, lastSeen)
    {
      this.tokens, this.lastSeen := tokens, lastSeen;
    }

    function View(): Bucket
      reads this
    {
      Bucket(tokens, lastSeen)
    }
  }

  class Limiter {
    const limits: Limits
    var buckets: map<string, IpBucket>

    constructor (rate: real, burst: real)
      ensures Valid() && View() == map[] && limits == Limits(rate, burst)
    {
      limits, buckets := Limits(rate, burst), map[];
    }

    ghost predicate Valid()
      reads this
    {
      forall ip, jp :: ip in buckets && jp in buckets && ip != jp ==> buckets[ip] != buckets[jp]
    }

    ghost function View(): Buckets
      reads this, buckets.Values
    {
      map ip | ip in buckets :: buckets[ip].View()
    }

    method Allow(ip: string, now: real) returns (ok: bool)
      requires Valid()
      modifies this, buckets.Values
      ensures Valid() && View() == After(limits, old(View()), Request(ip, now)) && ok == Answer(limits, old(View()), ip, now)
    {
      hide Refill, Found;
      var b := Lookup(ip, now);
      ok := SpendIn(ip, b, now);
    }

    method SpendIn(ip: string, b: IpBucket, now: real) returns (ok: bool)
      requires Valid() && ip in buckets && buckets[ip] == b
      modifies b
      ensures Valid() && ok == (Refill(limits, old(b.View()), now) >= 1.0)
      ensures View() == old(View())[ip := Bucket(Refill(limits, old(b.View()), now) - if ok then 1.0 else 0.0, now)]
    {
      hide Refill;
      ok := Spend(b, now);
    }

    /** The IP's bucket, a full one being put in place for a new IP. */
    method Lookup(ip: string, now: real) returns (b: IpBucket)
      requires Valid()
      modifies this`buckets
      ensures Valid() && ip in buckets && buckets[ip] == b && b.View() == Found(limits, old(View()), ip, now)
      ensures View() == old(View())[ip := b.View()]
      ensures forall jp :: jp in buckets && jp != ip ==> jp in old(buckets) && buckets[jp] == old(buckets)[jp]
      ensures ip in old(buckets) ==> buckets == old(buckets)
      ensures ip !in old(buckets) ==> fresh(b)
    {
      if ip !in buckets {
        b := new IpBucket(limits.burst, now);
        buckets := buckets[ip := b];
      }
      b := buckets[ip];
    }

    method Spend(b: IpBucket, now: real) returns (ok: bool)
      modifies b
      ensures ok == (Refill(limits, old(b.View()), now) >= 1.0)
      ensures b.View() == Bucket(Refill(limits, old(b.View()), now) - if ok then 1.0 else 0.0, now)
    {
      var elapsed := now - b.lastSeen;
      b.tokens := b.tokens + elapsed * limits.rate;
      if b.tokens > limits.burst {
        b.tokens := limits.burst;
      }
      b.lastSeen := now;
      if b.tokens < 1.0 {
        return false;
      }
      b.tokens := b.tokens - 1.0;
      return true;
    }

    /** The body of `purge`'s loop. */
    method PurgeStale(now: real)
      requires Valid()
      modifies this`buckets
      ensures Valid() && View() == Purged(old(View()), now)
    {
      var cutoff := now - STALE;
      var todo := buckets.Keys;
      while todo != {}
        invariant Valid() && todo <= old(buckets).Keys
        invariant forall ip :: ip in buckets ==> ip in old(buckets) && buckets[ip] == old(buckets)[ip]
        invariant forall ip :: ip in old(buckets) ==>
                    (ip in buckets <==> ip in todo || !(old(buckets[ip].lastSeen) < cutoff))
      {
        var ip :| ip in todo;
        if ip in buckets && buckets[ip].lastSeen < cutoff {
          buckets := buckets - {ip};
        }
        todo := todo - {ip};
      }
    }
  }
}
