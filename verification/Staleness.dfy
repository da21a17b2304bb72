// The staleness job, internal/staleness/staleness.go, against the statements that write a host's
// status and last_heartbeat_at: the heartbeat update and the upsert of an enrollment.
module Staleness {
  import opened Base

  type HostId = string

  const CHECK_INTERVAL: Time := 30 * SECOND
  const HEARTBEAT_TIMEOUT: Time := 90 * SECOND

  datatype Status = Enrolled | Online | Offline

  datatype Row = Row(hostname: string, status: Status, beat: Time)

  datatype Affected = Affected(id: HostId, hostname: string)

  // What became of one sweep: its UPDATE had no effect; it took effect but the statement, the reading
  // of its rows or the connection reported an error; or all its rows were read.
  datatype Outcome = NoEffect | Unreported | Reported

  // `heard` holds the time of each host's last effective heartbeat; `swept` and `notified` are the
  // histories of online-to-offline transitions and of webhook calls.
  datatype State = State(
    url: string,
    clock: Time,
    lastSweep: Time,
    hosts: map<HostId, Row>,
    heard: map<HostId, Time>,
    swept: seq<Affected>,
    notified: seq<Affected>)

  function Init(url: string, start: Time): State {
    State(url, start, start, map[], map[], [], [])
  }

  datatype Event =
    | Elapse(d: nat)
    | Enroll(id: HostId, hostname: string, beat: Time)
    | Heartbeat(id: HostId, stamp: Time, ok: bool)
    | Sweep(order: seq<Affected>, outcome: Outcome)

  // ---------- steps ----------

  // A host that is swept at `now`; the comparison is strict.
  predicate Stale(r: Row, now: Time) {
    r.status == Online && r.beat < now - HEARTBEAT_TIMEOUT
  }

  // The rows that UPDATE .. RETURNING yields: the stale hosts, each once, in any order.
  ghost predicate Returns(order: seq<Affected>, hosts: map<HostId, Row>, now: Time) {
    && (forall i :: 0 <= i < |order| ==>
          order[i].id in hosts && Stale(hosts[order[i].id], now) && order[i].hostname == hosts[order[i].id].hostname)
    && (forall i, j :: 0 <= i < j < |order| ==> order[i].id != order[j].id)
    && forall h :: h in hosts && Stale(hosts[h], now) ==> Affected(h, hosts[h].hostname) in order
  }

  function MarkedOffline(hosts: map<HostId, Row>, now: Time): map<HostId, Row> {
    map h | h in hosts :: if Stale(hosts[h], now) then hosts[h].(status := Offline) else hosts[h]
  }

  function EnrollStep(s: State, h: HostId, hostname: string, beat: Time): State {
    s.(hosts := s.hosts[h := Row(hostname, Enrolled, beat)])
  }

  function HeartbeatStep(s: State, h: HostId, stamp: Time, ok: bool): State {
    if !ok || h !in s.hosts then s
    else
      s.(hosts := s.hosts[h := s.hosts[h].(status := Online, beat := stamp)], heard := s.heard[h := s.clock])
  }

  // Webhook calls follow a sweep whose rows were all read, and only if a URL is configured.
  ghost function SweepStep(s: State, order: seq<Affected>, o: Outcome): State {
    if o.NoEffect? || !Returns(order, s.hosts, s.clock) then s
    else
      s.(hosts := MarkedOffline(s.hosts, s.clock), lastSweep := s.clock, swept := s.swept + order,
         notified := if o.Reported? && s.url != "" then s.notified + order else s.notified)
  }

  ghost function Step(s: State, e: Event): State {
    match e
    case Elapse(d) => s.(clock := s.clock + d)
    case Enroll(h, hostname, beat) => EnrollStep(s, h, hostname, beat)
    case Heartbeat(h, stamp, ok) => HeartbeatStep(s, h, stamp, ok)
    case Sweep(order, o) => SweepStep(s, order, o)
  }

  ghost function Run(s: State, events: seq<Event>): State
    decreases |events|
  {
    if events == [] then s else Run(Step(s, events[0]), events[1..])
  }

  lemma {:induction false} RunSplit(s: State, before: seq<Event>, after: seq<Event>)
    ensures Run(s, before + after) == Run(Run(s, before), after)
    decreases |before|
  {
    if before == [] {
      assert [] + after == after;
    } else {
      assert (before + after)[0] == before[0] && (before + after)[1..] == before[1..] + after;
      RunSplit(Step(s, before[0]), before[1..], after);
    }
  }

  lemma RunThen(s: State, events: seq<Event>, e: Event)
    ensures Run(s, events + [e]) == Step(Run(s, events), e)
  {
    RunSplit(s, events, [e]);
    assert Run(Run(s, events), [e]) == Run(Step(Run(s, events), e), [e][1..]);
  }

  // ---------- how long a silent host stays online ----------

  // An online host was heard after the last effective sweep, or that sweep found its stamp fresh.
  ghost predicate OnlineOk(s: State, h: HostId)
    requires h in s.hosts
  {
    s.hosts[h].status == Online ==>
      && h in s.heard && s.heard[h] <= s.clock
      && (s.heard[h] >= s.lastSweep || s.hosts[h].beat >= s.lastSweep - HEARTBEAT_TIMEOUT)
  }

  ghost predicate Inv(s: State) {
    && s.lastSweep <= s.clock
    && forall h {:trigger OnlineOk(s, h)} :: h in s.hosts ==> OnlineOk(s, h)
  }

  lemma StepKeeps(s: State, e: Event)
    requires Inv(s)
    ensures Inv(Step(s, e))
  {
    forall h | h in Step(s, e).hosts ensures OnlineOk(Step(s, e), h) {
      assert h in s.hosts ==> OnlineOk(s, h);
    }
  }

  lemma {:induction false} RunKeeps(s: State, events: seq<Event>)
    requires Inv(s)
    ensures Inv(Run(s, events))
    decreases |events|
  {
    if events != [] {
      StepKeeps(s, events[0]);
      RunKeeps(Step(s, events[0]), events[1..]);
    }
  }

  // Main result: when the last effective sweep is at most `gap` old, an online host was heard within
  // `gap`, or its stored stamp is at most 90 s + gap old.
  lemma OnlineBound(url: string, start: Time, events: seq<Event>, h: HostId, gap: nat)
    requires
      var s := Run(Init(url, start), events);
      h in s.hosts && s.hosts[h].status == Online && s.clock <= s.lastSweep + gap
    ensures
      var s := Run(Init(url, start), events);
      && h in s.heard && s.heard[h] <= s.clock
      && (s.clock <= s.heard[h] + gap || s.clock <= s.hosts[h].beat + HEARTBEAT_TIMEOUT + gap)
  {
    RunKeeps(Init(url, start), events);
    assert OnlineOk(Run(Init(url, start), events), h);
  }

  // No heartbeat of `h` in the run carries a stamp later than its handling.
  ghost predicate StampsNotAhead(s: State, events: seq<Event>, h: HostId)
    decreases |events|
  {
    events != [] ==>
      && (events[0].Heartbeat? && events[0].id == h ==> events[0].stamp <= s.clock)
      && StampsNotAhead(Step(s, events[0]), events[1..], h)
  }

  ghost predicate StampBehind(s: State, h: HostId) {
    h in s.hosts && s.hosts[h].status == Online ==> h in s.heard && s.hosts[h].beat <= s.heard[h]
  }

  lemma {:induction false} StampsStayBehind(s: State, events: seq<Event>, h: HostId)
    requires StampBehind(s, h) && StampsNotAhead(s, events, h)
    ensures StampBehind(Run(s, events), h)
    decreases |events|
  {
    if events != [] {
      StampsStayBehind(Step(s, events[0]), events[1..], h);
    }
  }

  // Main result: with effective sweeps at most 30 s apart and stamps not later than their handling, a
  // host is never online more than 120 s after its last effective heartbeat.
  lemma SilentHostGoesOffline(url: string, start: Time, events: seq<Event>, h: HostId)
    requires StampsNotAhead(Init(url, start), events, h)
    requires
      var s := Run(Init(url, start), events);
      h in s.hosts && s.hosts[h].status == Online && s.clock <= s.lastSweep + 30 * SECOND
    ensures
      var s := Run(Init(url, start), events);
      h in s.heard && s.clock <= s.heard[h] + 120 * SECOND
  {
    OnlineBound(url, start, events, h, CHECK_INTERVAL);
    StampsStayBehind(Init(url, start), events, h);
  }

  // ---------- a host that keeps reporting ----------

  // Every effective heartbeat of `h` is stamped at its handling, and none is more than 90 s older than a
  // sweep.
  ghost predicate Reports(s: State, events: seq<Event>, h: HostId)
    decreases |events|
  {
    events != [] ==>
      && (events[0].Heartbeat? && events[0].id == h && events[0].ok && h in s.hosts ==> events[0].stamp == s.clock)
      && (events[0].Sweep? && h in s.heard ==> s.clock <= s.heard[h] + HEARTBEAT_TIMEOUT)
      && Reports(Step(s, events[0]), events[1..], h)
  }

  ghost predicate StampIsHandling(s: State, h: HostId) {
    h in s.hosts && s.hosts[h].status == Online ==> h in s.heard && s.hosts[h].beat == s.heard[h]
  }

  // The transitions of one host, in a history of them.
  function CountOf(swept: seq<Affected>, h: HostId): nat {
    if swept == [] then 0
    else CountOf(swept[..|swept| - 1], h) + if swept[|swept| - 1].id == h then 1 else 0
  }

  lemma {:induction false} CountSplit(a: seq<Affected>, b: seq<Affected>, h: HostId)
    ensures CountOf(a + b, h) == CountOf(a, h) + CountOf(b, h)
    decreases |b|
  {
    if b == [] {
      assert a + b == a;
    } else {
      assert (a + b)[..|a + b| - 1] == a + b[..|b| - 1];
      CountSplit(a, b[..|b| - 1], h);
    }
  }

  lemma {:induction false} CountZero(order: seq<Affected>, h: HostId)
    requires forall i :: 0 <= i < |order| ==> order[i].id != h
    ensures CountOf(order, h) == 0
  {
    if order != [] {
      CountZero(order[..|order| - 1], h);
    }
  }

  lemma {:induction false} CountOne(order: seq<Affected>, h: HostId, i: nat)
    requires i < |order| && order[i].id == h
    requires forall j, k :: 0 <= j < k < |order| ==> order[j].id != order[k].id
    ensures CountOf(order, h) == 1
  {
    var n := |order| - 1;
    if i == n {
      CountZero(order[..n], h);
    } else {
      CountOne(order[..n], h, i);
    }
  }

  // A sweep leaves a host alone exactly if the host is not stale: one transition if it is, none if not.
  lemma SweepCounts(s: State, order: seq<Affected>, o: Outcome, h: HostId)
    requires Returns(order, s.hosts, s.clock) && !o.NoEffect?
    ensures CountOf(SweepStep(s, order, o).swept, h)
         == CountOf(s.swept, h) + if h in s.hosts && Stale(s.hosts[h], s.clock) then 1 else 0
  {
    CountSplit(s.swept, order, h);
    if h in s.hosts && Stale(s.hosts[h], s.clock) {
      var i :| 0 <= i < |order| && order[i] == Affected(h, s.hosts[h].hostname);
      CountOne(order, h, i);
    } else {
      CountZero(order, h);
    }
  }

  lemma {:induction false} NoLagNoSweep(s: State, events: seq<Event>, h: HostId)
    requires StampIsHandling(s, h) && Reports(s, events, h)
    ensures StampIsHandling(Run(s, events), h)
    ensures CountOf(Run(s, events).swept, h) == CountOf(s.swept, h)
    decreases |events|
  {
    if events != [] {
      var e := events[0];
      if e.Sweep? && !e.outcome.NoEffect? && Returns(e.order, s.hosts, s.clock) {
        SweepCounts(s, e.order, e.outcome, h);
      }
      NoLagNoSweep(Step(s, e), events[1..], h);
    }
  }

  // Every effective heartbeat of `h` is stamped at its handling and comes at most 90 s after the one
  // before it, and the run ends at most 90 s after the last one. Nothing is said about sweeps.
  ghost predicate ShortGaps(s: State, events: seq<Event>, h: HostId)
    decreases |events|
  {
    if events == [] then h in s.heard ==> s.clock <= s.heard[h] + 90 * SECOND
    else
      var e := events[0];
      && (e.Heartbeat? && e.id == h && e.ok && h in s.hosts ==>
            e.stamp == s.clock && (h in s.heard ==> s.clock <= s.heard[h] + 90 * SECOND))
      && ShortGaps(Step(s, e), events[1..], h)
  }

  // At no moment of such a run is the last heartbeat more than 90 s old: the next one or the end comes
  // in time.
  lemma {:induction false} GapsBoundLag(s: State, events: seq<Event>, h: HostId)
    requires ShortGaps(s, events, h) && h in s.heard
    ensures s.clock <= s.heard[h] + 90 * SECOND
    decreases |events|
  {
    if events != [] {
      var e := events[0];
      if !(e.Heartbeat? && e.id == h && e.ok && h in s.hosts) {
        GapsBoundLag(Step(s, e), events[1..], h);
      }
    }
  }

  lemma {:induction false} GapsMeanReports(s: State, events: seq<Event>, h: HostId)
    requires ShortGaps(s, events, h)
    ensures Reports(s, events, h)
    decreases |events|
  {
    if events != [] {
      if h in s.heard {
        GapsBoundLag(s, events, h);
      }
      GapsMeanReports(Step(s, events[0]), events[1..], h);
    }
  }

  // Main result: a host whose heartbeats are stamped at their handling and at most 90 s apart is never
  // marked offline, whenever and however often the sweeps run.
  lemma ReportingHostIsNeverSwept(url: string, start: Time, events: seq<Event>, h: HostId)
    requires ShortGaps(Init(url, start), events, h)
    ensures CountOf(Run(Init(url, start), events).swept, h) == 0
  {
    GapsMeanReports(Init(url, start), events, h);
    NoLagNoSweep(Init(url, start), events, h);
  }

  // ---------- a host that falls silent ----------

  // The times of a run's effective sweeps.
  ghost function SweepTimes(s: State, events: seq<Event>): seq<Time>
    decreases |events|
  {
    if events == [] then []
    else
      var e, later := events[0], SweepTimes(Step(s, events[0]), events[1..]);
      if e.Sweep? && !e.outcome.NoEffect? && Returns(e.order, s.hosts, s.clock) then [s.clock] + later else later
  }

  predicate NoneAfter(times: seq<Time>, limit: Time) {
    forall i :: 0 <= i < |times| ==> times[i] <= limit
  }

  lemma NoneAfterMore(t: Time, times: seq<Time>, limit: Time)
    ensures NoneAfter([t] + times, limit) <==> t <= limit && NoneAfter(times, limit)
  {
    var all := [t] + times;
    assert all[0] == t;
    if NoneAfter(all, limit) {
      forall i | 0 <= i < |times| ensures times[i] <= limit {
        assert all[i + 1] == times[i];
      }
    }
  }

  // No effective heartbeat and no enrollment of `h`.
  predicate Silent(events: seq<Event>, h: HostId) {
    forall i :: 0 <= i < |events| ==>
      && (events[i].Heartbeat? && events[i].id == h ==> !events[i].ok)
      && (events[i].Enroll? ==> events[i].id != h)
  }

  lemma {:induction false} OfflineStays(s: State, events: seq<Event>, h: HostId)
    requires h in s.hosts && s.hosts[h].status != Online && Silent(events, h)
    ensures h in Run(s, events).hosts && Run(s, events).hosts[h].status != Online
    decreases |events|
  {
    if events != [] {
      OfflineStays(Step(s, events[0]), events[1..], h);
    }
  }

  // Main result: an online host that falls silent is online after any further events exactly if every
  // effective sweep among them comes at most 90 s after the stamp it left.
  lemma {:induction false} SilentHostIsOnlineIff(s: State, events: seq<Event>, h: HostId)
    requires h in s.hosts && s.hosts[h].status == Online && Silent(events, h)
    ensures h in Run(s, events).hosts
    ensures Run(s, events).hosts[h].status == Online
       <==> NoneAfter(SweepTimes(s, events), s.hosts[h].beat + 90 * SECOND)
    decreases |events|
  {
    if events != [] {
      var s' := Step(s, events[0]);
      var later := SweepTimes(s', events[1..]);
      if s'.hosts[h].status == Online {
        SilentHostIsOnlineIff(s', events[1..], h);
        assert s'.hosts[h] == s.hosts[h];
        NoneAfterMore(s.clock, later, s.hosts[h].beat + HEARTBEAT_TIMEOUT);
      } else {
        OfflineStays(s', events[1..], h);
        assert SweepTimes(s, events)[0] == s.clock;
      }
    }
  }

  // The last sweep is the latest of a run's effective ones.
  lemma {:induction false} LastSweepDecides(s: State, events: seq<Event>, limit: Time)
    requires s.lastSweep <= s.clock
    ensures Run(s, events).lastSweep <= Run(s, events).clock
    ensures if SweepTimes(s, events) == [] then Run(s, events).lastSweep == s.lastSweep
            else Run(s, events).lastSweep >= s.clock
    ensures NoneAfter(SweepTimes(s, events), limit)
       <==> SweepTimes(s, events) == [] || Run(s, events).lastSweep <= limit
    decreases |events|
  {
    if events != [] {
      var s' := Step(s, events[0]);
      LastSweepDecides(s', events[1..], limit);
      NoneAfterMore(s.clock, SweepTimes(s', events[1..]), limit);
    }
  }

  // Main result: exactly which stamps outlive the bound. More than 120 s after its last heartbeat, with
  // the last effective sweep at most 30 s old, a host is online if and only if the stamp it left is at
  // most 90 s older than that sweep.
  lemma StampOutlivesTheBoundIff(url: string, start: Time, before: seq<Event>, h: HostId,
                                 stamp: Time, after: seq<Event>)
    requires h in Run(Init(url, start), before).hosts && Silent(after, h)
    requires
      var s := Run(Init(url, start), before);
      var s' := Run(Step(s, Heartbeat(h, stamp, true)), after);
      s.clock + 120 * SECOND < s'.clock <= s'.lastSweep + 30 * SECOND
    ensures
      var s' := Run(Step(Run(Init(url, start), before), Heartbeat(h, stamp, true)), after);
      h in s'.hosts && (s'.hosts[h].status == Online <==> stamp >= s'.lastSweep - 90 * SECOND)
  {
    var s := Run(Init(url, start), before);
    RunKeeps(Init(url, start), before);
    var heard := HeartbeatStep(s, h, stamp, true);
    SilentHostIsOnlineIff(heard, after, h);
    LastSweepDecides(heard, after, stamp + HEARTBEAT_TIMEOUT);
  }

  // ---------- notifications ----------

  // The transitions of sweeps that took effect but reported an error: their hosts are offline and no
  // webhook is called for them.
  ghost function Missed(s: State, events: seq<Event>): nat
    decreases |events|
  {
    if events == [] then 0
    else
      var e := events[0];
      Missed(Step(s, e), events[1..])
      + if e.Sweep? && e.outcome.Unreported? && Returns(e.order, s.hosts, s.clock) then |e.order| else 0
  }

  lemma {:induction false} MissedAreTheDifference(s: State, events: seq<Event>)
    requires s.url != ""
    ensures |Run(s, events).swept| - |Run(s, events).notified| == |s.swept| - |s.notified| + Missed(s, events)
    ensures s.notified == s.swept && Missed(s, events) == 0 ==> Run(s, events).notified == Run(s, events).swept
    decreases |events|
  {
    if events != [] {
      MissedAreTheDifference(Step(s, events[0]), events[1..]);
    }
  }

  // Main result: with a webhook URL, the webhook calls are the online-to-offline transitions, one each
  // and in their order, exactly if no effective sweep with transitions reported an error.
  lemma NotificationsAreTransitions(url: string, start: Time, events: seq<Event>)
    requires url != ""
    ensures Run(Init(url, start), events).notified == Run(Init(url, start), events).swept
       <==> Missed(Init(url, start), events) == 0
  {
    MissedAreTheDifference(Init(url, start), events);
  }

  lemma {:induction false} NoUrlNoNotifications(s: State, events: seq<Event>)
    requires s.url == ""
    ensures Run(s, events).notified == s.notified
    decreases |events|
  {
    if events != [] {
      NoUrlNoNotifications(Step(s, events[0]), events[1..]);
    }
  }

  // Main result: a sweep takes effect exactly with a list of the online hosts stamped more than 90 s ago,
  // each once under its row's hostname. It then marks those offline and no others, and calls the webhook
  // for each of them if its rows were all read and a URL is configured.
  lemma SweepDecides(s: State, order: seq<Affected>, o: Outcome)
    ensures
      var s' := Step(s, Sweep(order, o));
      var once := forall i, j :: 0 <= i < j < |order| ==> order[i].id != order[j].id;
      var listed := forall h, name :: Affected(h, name) in order <==>
                      && h in s.hosts && name == s.hosts[h].hostname
                      && s.hosts[h].status == Online && s.hosts[h].beat < s.clock - 90 * SECOND;
      if once && listed && !o.NoEffect? then
        && s'.hosts.Keys == s.hosts.Keys
        && (forall h :: h in s.hosts ==>
              s'.hosts[h] == if Affected(h, s.hosts[h].hostname) in order then s.hosts[h].(status := Offline)
                             else s.hosts[h])
        && s'.swept == s.swept + order && s'.lastSweep == s.clock && s'.heard == s.heard
        && s'.notified == s.notified + (if o.Reported? && s.url != "" then order else [])
      else s' == s
  {
    ReturnsIff(order, s.hosts, s.clock);
  }

  lemma ReturnsIff(order: seq<Affected>, hosts: map<HostId, Row>, now: Time)
    ensures Returns(order, hosts, now) <==>
              && (forall i, j :: 0 <= i < j < |order| ==> order[i].id != order[j].id)
              && forall h, name :: Affected(h, name) in order <==>
                   && h in hosts && name == hosts[h].hostname
                   && hosts[h].status == Online && hosts[h].beat < now - 90 * SECOND
  {
    if forall h, name :: Affected(h, name) in order <==>
         && h in hosts && name == hosts[h].hostname
         && hosts[h].status == Online && hosts[h].beat < now - 90 * SECOND {
      forall i | 0 <= i < |order|
        ensures order[i].id in hosts && Stale(hosts[order[i].id], now)
                && order[i].hostname == hosts[order[i].id].hostname {
        assert Affected(order[i].id, order[i].hostname) == order[i];
      }
    }
  }

  // A transition is a change of the row from online to offline, and the only one: every other step
  // leaves the history of transitions alone and takes no host offline.
  lemma OnlySweepsTakeOffline(s: State, e: Event, h: HostId)
    requires h in s.hosts && s.hosts[h].status == Online
             && h in Step(s, e).hosts && Step(s, e).hosts[h].status == Offline
    ensures e.Sweep? && Stale(s.hosts[h], s.clock)
    ensures CountOf(Step(s, e).swept, h) == CountOf(s.swept, h) + 1
  {
    SweepCounts(s, e.order, e.outcome, h);
  }

  // ---------- the bound is attained, and stamps from the future break it ----------

  // n check intervals, each closed by a sweep that finds nothing.
  function QuietRounds(n: nat): seq<Event> {
    if n == 0 then [] else QuietRounds(n - 1) + [Elapse(30 * SECOND), Sweep([], Reported)]
  }

  // One host, heard at time 0 with the given stamp.
  ghost function HeardAtZero(h: HostId, stamp: Time): State {
    Run(Init("", 0), [Enroll(h, "", 0), Heartbeat(h, stamp, true)])
  }

  lemma HeardOnce(h: HostId, stamp: Time)
    ensures HeardAtZero(h, stamp) == State("", 0, 0, map[h := Row("", Online, stamp)], map[h := 0], [], [])
  {
    RunThen(Init("", 0), [], Enroll(h, "", 0));
    assert [] + [Enroll(h, "", 0)] == [Enroll(h, "", 0)];
    RunThen(Init("", 0), [Enroll(h, "", 0)], Heartbeat(h, stamp, true));
    assert [Enroll(h, "", 0)] + [Heartbeat(h, stamp, true)] == [Enroll(h, "", 0), Heartbeat(h, stamp, true)];
  }

  lemma {:induction false} SurvivesRounds(h: HostId, stamp: Time, n: nat)
    requires n * CHECK_INTERVAL <= stamp + 90 * SECOND
    ensures Run(HeardAtZero(h, stamp), QuietRounds(n))
         == State("", n * CHECK_INTERVAL, n * CHECK_INTERVAL, map[h := Row("", Online, stamp)], map[h := 0], [], [])
  {
    var s := HeardAtZero(h, stamp);
    HeardOnce(h, stamp);
    if n > 0 {
      SurvivesRounds(h, stamp, n - 1);
      var t := Run(s, QuietRounds(n - 1));
      RunThen(s, QuietRounds(n - 1), Elapse(30 * SECOND));
      RunThen(s, QuietRounds(n - 1) + [Elapse(30 * SECOND)], Sweep([], Reported));
      assert QuietRounds(n) == QuietRounds(n - 1) + [Elapse(30 * SECOND)] + [Sweep([], Reported)];
      var u := t.(clock := n * CHECK_INTERVAL);
      assert Returns([], u.hosts, u.clock);
      assert MarkedOffline(u.hosts, u.clock) == u.hosts;
    }
  }

  // The 120 s cannot be lowered: with sweeps every 30 s a silent host is still online at exactly 120 s.
  lemma OnlineAtTheBound(h: HostId) returns (events: seq<Event>)
    ensures StampsNotAhead(Init("", 0), events, h)
    ensures
      var s := Run(Init("", 0), events);
      && h in s.hosts && s.hosts[h].status == Online && s.clock <= s.lastSweep + 30 * SECOND
      && h in s.heard && s.clock == s.heard[h] + 120 * SECOND
  {
    var setup := [Enroll(h, "", 0), Heartbeat(h, 0, true)];
    events := setup + QuietRounds(3) + [Elapse(30 * SECOND)];
    SurvivesRounds(h, 0, 3);
    RunSplit(Init("", 0), setup, QuietRounds(3));
    RunThen(Init("", 0), setup + QuietRounds(3), Elapse(30 * SECOND));
    assert events == [events[0]] + ([events[1]] + (QuietRounds(3) + [Elapse(30 * SECOND)]));
    assert events[1..][1..] == QuietRounds(3) + [Elapse(30 * SECOND)];
    RoundsCarryNoHeartbeat(3);
    NoHeartbeatNoStamp(Step(Step(Init("", 0), events[0]), events[1]), events[1..][1..], h);
    assert Step(Init("", 0), events[0]).clock == 0;
  }

  lemma {:induction false} RoundsCarryNoHeartbeat(n: nat)
    ensures forall i :: 0 <= i < |QuietRounds(n)| ==> !QuietRounds(n)[i].Heartbeat?
  {
    if n > 0 {
      RoundsCarryNoHeartbeat(n - 1);
    }
  }

  lemma {:induction false} NoHeartbeatNoStamp(s: State, events: seq<Event>, h: HostId)
    requires forall i :: 0 <= i < |events| ==> !events[i].Heartbeat?
    ensures StampsNotAhead(s, events, h)
    decreases |events|
  {
    if events != [] {
      NoHeartbeatNoStamp(Step(s, events[0]), events[1..], h);
    }
  }

  // The agent supplies the stamp: one far enough ahead keeps a silent host online for any n sweeps.
  lemma FutureStampOutlivesTheBound(h: HostId, n: nat) returns (events: seq<Event>)
    ensures
      var s := Run(Init("", 0), events);
      && h in s.hosts && s.hosts[h].status == Online && s.clock == s.lastSweep
      && h in s.heard && s.clock == s.heard[h] + n * (30 * SECOND)
  {
    var stamp := n * CHECK_INTERVAL;
    var setup := [Enroll(h, "", 0), Heartbeat(h, stamp, true)];
    events := setup + QuietRounds(n);
    SurvivesRounds(h, stamp, n);
    RunSplit(Init("", 0), setup, QuietRounds(n));
  }
}
