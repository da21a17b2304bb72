// Traces that show the limiter's bounds to be exact: the sliding bound is attained, and a refused host
// can be refused again more than five minutes later.
module RateLimitExtremes {
  import opened Base
  import opened RateLimiting

  function Burst(host: string, at: Time, k: nat): seq<Request> {
    seq(k, i => Request(host, at))
  }

  lemma BurstSplit(trace: seq<Request>, host: string, at: Time, k: nat)
    requires k > 0
    ensures trace + [Request(host, at)] + Burst(host, at, k - 1) == trace + Burst(host, at, k)
  {
  }

  // k requests at one instant inside a window with room for them are all granted.
  lemma {:induction false} BurstFillsWindow(trace: seq<Request>, host: string, at: Time, k: nat, from: Time, to: Time)
    requires host in Buckets(trace) && at <= Buckets(trace)[host].reset
    requires Buckets(trace)[host].count + k <= MAX_COMMANDS_PER_WINDOW
    ensures host in Buckets(trace + Burst(host, at, k))
    ensures Buckets(trace + Burst(host, at, k))[host]
         == Bucket(Buckets(trace)[host].count + k, Buckets(trace)[host].reset)
    ensures Grants(trace + Burst(host, at, k), host, from, to)
         == Grants(trace, host, from, to) + if from <= at <= to then k else 0
    decreases k
  {
    if k == 0 {
      assert trace + Burst(host, at, 0) == trace;
    } else {
      var r := Request(host, at);
      OneMore(trace, r, from, to);
      BurstFillsWindow(trace + [r], host, at, k - 1, from, to);
      BurstSplit(trace, host, at, k);
    }
  }

  // Up to sixty requests right after a reset open a window and are all granted.
  lemma BurstOpensWindow(trace: seq<Request>, host: string, at: Time, k: nat, from: Time, to: Time)
    requires OpensWindow(Buckets(trace), Request(host, at)) && 1 <= k <= MAX_COMMANDS_PER_WINDOW
    ensures host in Buckets(trace + Burst(host, at, k))
    ensures Buckets(trace + Burst(host, at, k))[host] == Bucket(k, at + WINDOW)
    ensures Grants(trace + Burst(host, at, k), host, from, to)
         == Grants(trace, host, from, to) + if from <= at <= to then k else 0
  {
    var first := trace + [Request(host, at)];
    OneMore(trace, Request(host, at), from, to);
    BurstFillsWindow(first, host, at, k - 1, from, to);
    BurstSplit(trace, host, at, k);
  }

  // The earliest instant at which the n-th window after one opened at 0 can open.
  function WindowAt(n: nat): (at: Time)
    ensures n * WINDOW <= at <= n * WINDOW + n
  {
    if n == 0 then 0 else WindowAt(n - 1) + WINDOW + 1
  }

  // One grant at 0, 59 at the very end of that window, then n full windows as early as possible.
  function WorstCase(host: string, n: nat): seq<Request> {
    if n == 0 then Burst(host, 0, 1) + Burst(host, WINDOW, 59)
    else WorstCase(host, n - 1) + Burst(host, WindowAt(n), 60)
  }

  lemma {:induction false} WorstCaseInOrder(host: string, n: nat)
    ensures Chronological(WorstCase(host, n))
    ensures forall r :: r in WorstCase(host, n) ==> r.at <= if n == 0 then WINDOW else WindowAt(n)
  {
    if n > 0 {
      WorstCaseInOrder(host, n - 1);
    }
  }

  lemma {:induction false} WorstCaseGrants(host: string, n: nat, to: Time)
    requires to >= WindowAt(n) && to >= WINDOW
    ensures host in Buckets(WorstCase(host, n))
    ensures Buckets(WorstCase(host, n))[host] == Bucket(60, WindowAt(n) + WINDOW)
    ensures Grants(WorstCase(host, n), host, WINDOW, to) == 60 * n + 59
  {
    if n == 0 {
      assert [] + Burst(host, 0, 1) == Burst(host, 0, 1);
      BurstOpensWindow([], host, 0, 1, WINDOW, to);
      BurstFillsWindow(Burst(host, 0, 1), host, WINDOW, 59, WINDOW, to);
    } else {
      var before := WorstCase(host, n - 1);
      WorstCaseGrants(host, n - 1, to);
      BurstOpensWindow(before, host, WindowAt(n), 60, WINDOW, to);
    }
  }

  // The sliding bound cannot be lowered, for any n up to the window length in nanoseconds.
  lemma SlidingBoundAttained(host: string, n: nat) returns (trace: seq<Request>, from: Time)
    requires 1 <= n <= 300 * SECOND
    ensures Chronological(trace)
    ensures Grants(trace, host, from, from + n * (300 * SECOND)) == 60 * n + 59
  {
    trace, from := WorstCase(host, n), WINDOW;
    WorstCaseInOrder(host, n);
    WorstCaseGrants(host, n, WINDOW + n * WINDOW);
  }

  // A host can be refused and refused again more than five minutes later: the second refusal follows
  // a full quota spent in between, as LateRefusalMeansFreshQuotaSpent says it must.
  lemma RefusedAgainAfterFiveMinutes(host: string) returns (first: seq<Request>, between: seq<Request>)
    ensures first != [] && between != [] && Chronological(first + between)
    ensures !Granted(first) && !Granted(first + between)
    ensures (first + between)[|first + between| - 1].at > first[|first| - 1].at + 300 * SECOND
    ensures forall r :: r in first + between ==> r.host == host
  {
    var full := [] + Burst(host, 0, 60);
    BurstOpensWindow([], host, 0, 60, 0, 0);
    first := full + [Request(host, 1)];
    OneMore(full, Request(host, 1), 0, 0);
    BurstOpensWindow(first, host, WINDOW + 1, 60, 0, 0);
    between := Burst(host, WINDOW + 1, 60) + [Request(host, WINDOW + 2)];
    OneMore(first + Burst(host, WINDOW + 1, 60), Request(host, WINDOW + 2), 0, 0);
    assert first + between == first + Burst(host, WINDOW + 1, 60) + [Request(host, WINDOW + 2)];
  }
}
