// The rate limiter as the server runs it.
module RateLimiterService {
  import opened Base
  import opened RateLimiting

  class HostBucket {
    var count: nat
    var reset: Time

    constructor (count: nat, reset: Time)
      ensures this.count == count && this.reset == reset
    {
      this.count, this.reset := count, reset;
    }
  }

  class RateLimiter {
    var buckets: map<string, HostBucket>
    ghost var trace: seq<Request>  // every request so far

    ghost function Contents(): map<string, Bucket>
      reads this, buckets.Values
    {
      map host | host in buckets :: Bucket(buckets[host].count, buckets[host].reset)
    }

    ghost predicate Valid()
      reads this, buckets.Values
    {
      && (forall g, h :: g in buckets && h in buckets && g != h ==> buckets[g] != buckets[h])
      && Contents() == Buckets(trace)
    }

    constructor ()
      ensures Valid() && trace == [] && buckets == map[]
    {
      buckets, trace := map[], [];
    }

    // Each call runs under the limiter's mutex, so calls of different goroutines do not overlap.
    method Allow(host: string, now: Time) returns (ok: bool)
      requires Valid()
      modifies this, buckets.Values
      ensures Valid() && fresh(buckets.Values - old(buckets.Values))
      ensures trace == old(trace) + [Request(host, now)]
      ensures ok == Granted(trace)
    {
      trace := trace + [Request(host, now)];
      assert trace[..|trace| - 1] == old(trace);
      if host !in buckets || now > buckets[host].reset {
        var b := new HostBucket(1, now + WINDOW);
        buckets := buckets[host := b];
        return true;
      }
      var b := buckets[host];
      if b.count >= MAX_COMMANDS_PER_WINDOW {
        return false;
      }
      b.count := b.count + 1;
      return true;
    }
  }
}
