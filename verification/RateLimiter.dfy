// The per-host command rate limiter: internal/command/ratelimit.go.
//
// `Buckets` gives the limiter's map after any trace of requests and is the specification of
// the class in RateLimiterService; the lemmas are about every trace whose times do not decrease.
module RateLimiting {
  import opened Base

  const MAX_COMMANDS_PER_WINDOW: nat := 60
  const WINDOW: Time := 300 * SECOND

  datatype Bucket = Bucket(count: nat, reset: Time)

  datatype Request = Request(host: string, at: Time)

  // ---------- the specification ----------

  predicate Allows(buckets: map<string, Bucket>, r: Request) {
    r.host !in buckets || r.at > buckets[r.host].reset || buckets[r.host].count < MAX_COMMANDS_PER_WINDOW
  }

  predicate OpensWindow(buckets: map<string, Bucket>, r: Request) {
    r.host !in buckets || r.at > buckets[r.host].reset
  }

  function Next(buckets: map<string, Bucket>, r: Request): map<string, Bucket> {
    if OpensWindow(buckets, r) then
      buckets[r.host := Bucket(1, r.at + WINDOW)]
    else if buckets[r.host].count >= MAX_COMMANDS_PER_WINDOW then
      buckets
    else
      buckets[r.host := Bucket(buckets[r.host].count + 1, buckets[r.host].reset)]
  }

  function Buckets(trace: seq<Request>): map<string, Bucket> {
    if trace == [] then map[] else Next(Buckets(trace[..|trace| - 1]), trace[|trace| - 1])
  }

  // The answer given to the last request of a trace.
  predicate Granted(trace: seq<Request>)
    requires trace != []
  {
    Allows(Buckets(trace[..|trace| - 1]), trace[|trace| - 1])
  }

  // The number of grants to `host` at times in the closed interval [from, to].
  function Grants(trace: seq<Request>, host: string, from: Time, to: Time): nat {
    if trace == [] then 0
    else
      var last := trace[|trace| - 1];
      Grants(trace[..|trace| - 1], host, from, to)
      + if last.host == host && from <= last.at <= to && Granted(trace) then 1 else 0
  }

  ghost predicate Chronological(trace: seq<Request>) {
    forall i, j :: 0 <= i < j < |trace| ==> trace[i].at <= trace[j].at
  }

  // ---------- the bucket is the history of its window ----------

  // A bucket counts exactly the grants of its own window, and that window began with a grant.
  lemma {:induction false} BucketCountsItsWindow(trace: seq<Request>, host: string, now: Time)
    requires Chronological(trace)
    requires forall i :: 0 <= i < |trace| ==> trace[i].at <= now
    ensures host in Buckets(trace) ==>
              var b := Buckets(trace)[host];
              && 1 <= b.count <= 60
              && b.reset - WINDOW <= now
              && b.count == Grants(trace, host, b.reset - WINDOW, now)
    ensures host !in Buckets(trace) ==> forall from, to :: Grants(trace, host, from, to) == 0
  {
    if trace != [] {
      var before, last := trace[..|trace| - 1], trace[|trace| - 1];
      BucketCountsItsWindow(before, host, now);
      BucketCountsItsWindow(before, host, last.at);
      if last.host == host && OpensWindow(Buckets(before), last) {
        NoGrantsLater(before, host, last.at, now);
      }
    }
  }

  // Grants after the reset of the current window are impossible: they would have replaced it.
  lemma {:induction false} NoGrantsLater(trace: seq<Request>, host: string, from: Time, to: Time)
    requires Chronological(trace)
    requires host in Buckets(trace) ==> from > Buckets(trace)[host].reset
    ensures Grants(trace, host, from, to) == 0
  {
    if trace != [] {
      var before, last := trace[..|trace| - 1], trace[|trace| - 1];
      if last.host == host && OpensWindow(Buckets(before), last) {
        NoGrantsBeyondLast(before, host, from, to);
      } else {
        NoGrantsLater(before, host, from, to);
      }
    }
  }

  lemma {:induction false} NoGrantsBeyondLast(trace: seq<Request>, host: string, from: Time, to: Time)
    requires forall i :: 0 <= i < |trace| ==> trace[i].at < from
    ensures Grants(trace, host, from, to) == 0
  {
    if trace != [] {
      NoGrantsBeyondLast(trace[..|trace| - 1], host, from, to);
    }
  }

  // A request is refused exactly when 60 grants to its host lie in a window [start, now] that the
  // limiter opened and that has not ended, that is now <= start + 5 min.
  lemma RefusedIffWindowFull(trace: seq<Request>)
    requires trace != [] && Chronological(trace)
    ensures
      var before, last := trace[..|trace| - 1], trace[|trace| - 1];
      !Granted(trace) <==>
        && last.host in Buckets(before)
        && last.at <= Buckets(before)[last.host].reset
        && Grants(before, last.host, Buckets(before)[last.host].reset - 300 * SECOND, last.at) == 60
  {
    var before, last := trace[..|trace| - 1], trace[|trace| - 1];
    BucketCountsItsWindow(before, last.host, last.at);
  }

  // A host with fewer than 60 grants in the last five minutes is never refused.
  lemma QuietHostIsGranted(trace: seq<Request>)
    requires trace != [] && Chronological(trace)
    requires
      var last := trace[|trace| - 1];
      Grants(trace[..|trace| - 1], last.host, last.at - 300 * SECOND, last.at) < 60
    ensures Granted(trace)
  {
    var before, last := trace[..|trace| - 1], trace[|trace| - 1];
    RefusedIffWindowFull(trace);
    if !Granted(trace) {
      GrantsMonotone(before, last.host, Buckets(before)[last.host].reset - WINDOW, last.at - WINDOW, last.at);
    }
  }

  lemma {:induction false} GrantsMonotone(trace: seq<Request>, host: string, from: Time, from': Time, to: Time)
    requires from' <= from
    ensures Grants(trace, host, from, to) <= Grants(trace, host, from', to)
  {
    if trace != [] {
      GrantsMonotone(trace[..|trace| - 1], host, from, from', to);
    }
  }

  // "A refused host is granted again five minutes later" holds exactly as far as the host stays
  // below quota meanwhile: a refusal more than five minutes after an instant t means that 60 grants
  // were given strictly after t.
  lemma LateRefusalMeansFreshQuotaSpent(trace: seq<Request>, t: Time)
    requires trace != [] && Chronological(trace) && !Granted(trace)
    requires trace[|trace| - 1].at > t + 300 * SECOND
    ensures
      var last := trace[|trace| - 1];
      Grants(trace[..|trace| - 1], last.host, t + 1, last.at) >= 60
  {
    var before, last := trace[..|trace| - 1], trace[|trace| - 1];
    RefusedIffWindowFull(trace);
    GrantsMonotone(before, last.host, Buckets(before)[last.host].reset - WINDOW, t + 1, last.at);
  }

  // ---------- the sliding-interval bound ----------

  // The number of windows opened for `host` at or after `from`.
  function Openings(trace: seq<Request>, host: string, from: Time): nat {
    if trace == [] then 0
    else
      var before, last := trace[..|trace| - 1], trace[|trace| - 1];
      Openings(before, host, from)
      + if last.host == host && last.at >= from && OpensWindow(Buckets(before), last) then 1 else 0
  }

  // Windows of one host open more than WINDOW apart, and at most 59 grants at or after `from`
  // belong to a window opened before `from`, because that window's first grant does not.
  lemma {:induction false} GrantsByOpenings(trace: seq<Request>, host: string, from: Time, to: Time)
    requires Chronological(trace)
    ensures
      var k := Openings(trace, host, from);
      var g := Grants(trace, host, from, to);
      if host !in Buckets(trace) then k == 0 && g == 0
      else
        var b := Buckets(trace)[host];
        var start := b.reset - WINDOW;
        && 1 <= b.count <= MAX_COMMANDS_PER_WINDOW
        && (k == 0 ==> start < from && g <= b.count - 1)
        && (k >= 1 ==> g <= 59 + 60 * (k - 1) + b.count && start >= from + (k - 1) * WINDOW)
        && (k >= 2 ==> start > from + (k - 1) * WINDOW)
    ensures trace != [] && host in Buckets(trace) ==> Buckets(trace)[host].reset - WINDOW <= trace[|trace| - 1].at
  {
    if trace != [] {
      var before, last := trace[..|trace| - 1], trace[|trace| - 1];
      GrantsByOpenings(before, host, from, to);
      if last.at < from {
        NoGrantsBeyondLast(before, host, from, to);
      }
    }
  }

  // Main result: in every chronological trace, for every host and every n >= 1, a closed interval of
  // n * 5 min holds at most 60 * n + 59 grants.
  lemma {:induction false} SlidingBound(trace: seq<Request>, host: string, from: Time, n: nat)
    requires Chronological(trace) && n >= 1
    ensures Grants(trace, host, from, from + n * (300 * SECOND)) <= 60 * n + 59
  {
    if trace != [] {
      if trace[|trace| - 1].at > from + n * WINDOW {
        SlidingBound(trace[..|trace| - 1], host, from, n);
      } else {
        GrantsByOpenings(trace, host, from, from + n * WINDOW);
      }
    }
  }

  // ---------- isolation between hosts ----------

  function OnlyHost(trace: seq<Request>, host: string): seq<Request> {
    if trace == [] then []
    else
      OnlyHost(trace[..|trace| - 1], host)
      + if trace[|trace| - 1].host == host then [trace[|trace| - 1]] else []
  }

  lemma {:induction false} BucketIsolation(trace: seq<Request>, host: string)
    ensures host in Buckets(trace) <==> host in Buckets(OnlyHost(trace, host))
    ensures host in Buckets(trace) ==> Buckets(trace)[host] == Buckets(OnlyHost(trace, host))[host]
  {
    if trace != [] {
      var before, last := trace[..|trace| - 1], trace[|trace| - 1];
      BucketIsolation(before, host);
      if last.host == host {
        assert OnlyHost(trace, host)[..|OnlyHost(trace, host)| - 1] == OnlyHost(before, host);
      } else {
        assert OnlyHost(trace, host) == OnlyHost(before, host);
      }
    }
  }

  // The answers the limiter gives to `host` over a trace, in order.
  function Answers(trace: seq<Request>, host: string): seq<bool> {
    if trace == [] then []
    else
      Answers(trace[..|trace| - 1], host)
      + if trace[|trace| - 1].host == host then [Granted(trace)] else []
  }

  // The answers to one host do not depend on the other hosts' requests, in any interleaving.
  lemma {:induction false} HostIsolation(trace: seq<Request>, host: string)
    ensures Answers(trace, host) == Answers(OnlyHost(trace, host), host)
  {
    if trace != [] {
      var before, last := trace[..|trace| - 1], trace[|trace| - 1];
      HostIsolation(before, host);
      BucketIsolation(before, host);
      if last.host == host {
        assert OnlyHost(trace, host)[..|OnlyHost(trace, host)| - 1] == OnlyHost(before, host);
      } else {
        assert OnlyHost(trace, host) == OnlyHost(before, host);
      }
    }
  }

  lemma OneMore(trace: seq<Request>, r: Request, from: Time, to: Time)
    ensures Buckets(trace + [r]) == Next(Buckets(trace), r)
    ensures Granted(trace + [r]) == Allows(Buckets(trace), r)
    ensures Grants(trace + [r], r.host, from, to)
         == Grants(trace, r.host, from, to) + if from <= r.at <= to && Allows(Buckets(trace), r) then 1 else 0
  {
    assert (trace + [r])[..|trace + [r]| - 1] == trace;
  }
}
