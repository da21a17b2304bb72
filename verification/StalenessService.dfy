// The staleness job as the server runs it: the sweep with its row, list and notification loops, and
// the tick loop, with heartbeats and enrollments in between.
module StalenessService {
  import opened Base
  import opened Staleness

  datatype Statement = Done | FailedBefore | FailedAfter

  // What the database does during one sweep: how the statement ends, the row at which Scan fails, and
  // whether the row iteration reports an error at its end.
  datatype SweepPlan = SweepPlan(statement: Statement, scanFailsAt: Option<nat>, rowsErr: bool)

  function OutcomeOf(plan: SweepPlan, rows: nat): Outcome {
    if plan.statement.FailedBefore? then NoEffect
    else if plan.statement.FailedAfter? || plan.rowsErr then Unreported
    else if plan.scanFailsAt.Some? && plan.scanFailsAt.value < rows then Unreported
    else Reported
  }

  // What the select of the job sees next, or what the rest of the server does before it.
  datatype Turn = Tick(plan: SweepPlan) | Cancelled | Theirs(e: Event)

  // The stale hosts are those in `rows`, each once, and those in `remaining`.
  ghost predicate Collected(rows: seq<Affected>, remaining: set<HostId>, hosts: map<HostId, Row>, now: Time) {
    && (forall h :: h in remaining ==> h in hosts && Stale(hosts[h], now))
    && (forall i :: 0 <= i < |rows| ==>
          rows[i].id in hosts && Stale(hosts[rows[i].id], now) && rows[i].hostname == hosts[rows[i].id].hostname)
    && (forall i :: 0 <= i < |rows| ==> rows[i].id !in remaining)
    && (forall i, j :: 0 <= i < j < |rows| ==> rows[i].id != rows[j].id)
    && (forall h :: h in hosts && Stale(hosts[h], now) ==> h in remaining || Affected(h, hosts[h].hostname) in rows)
  }

  lemma CollectOneMore(rows: seq<Affected>, remaining: set<HostId>, hosts: map<HostId, Row>, now: Time, h: HostId)
    requires Collected(rows, remaining, hosts, now) && h in remaining
    ensures Collected(rows + [Affected(h, hosts[h].hostname)], remaining - {h}, hosts, now)
  {
    var more := rows + [Affected(h, hosts[h].hostname)];
    assert more[|rows|] in more;
    forall g | g in hosts && Stale(hosts[g], now) && g !in remaining - {h}
      ensures Affected(g, hosts[g].hostname) in more {
      assert g != h ==> Affected(g, hosts[g].hostname) in rows;
    }
  }

  method CollectStale(hosts: map<HostId, Row>, now: Time) returns (rows: seq<Affected>)
    ensures Returns(rows, hosts, now)
  {
    rows := [];
    var remaining := set h | h in hosts && Stale(hosts[h], now);
    while remaining != {}
      invariant Collected(rows, remaining, hosts, now)
      decreases |remaining|
    {
      var h :| h in remaining;
      CollectOneMore(rows, remaining, hosts, now, h);
      rows := rows + [Affected(h, hosts[h].hostname)];
      remaining := remaining - {h};
    }
  }

  class StalenessJob {
    const url: string
    var clock: Time
    var lastSweep: Time
    var hosts: map<HostId, Row>
    var heard: map<HostId, Time>
    var swept: seq<Affected>
    var notified: seq<Affected>

    ghost function Model(): State
      reads this
    {
      State(url, clock, lastSweep, hosts, heard, swept, notified)
    }

    constructor (url: string, start: Time)
      ensures Model() == Init(url, start)
    {
      this.url, clock, lastSweep, hosts, heard, swept, notified := url, start, start, map[], map[], [], [];
    }

    // ---------- the host table ----------

    method Upsert(id: HostId, hostname: string, beat: Time)
      modifies `hosts
      ensures Model() == EnrollStep(old(Model()), id, hostname, beat)
      ensures hosts == old(hosts)[id := Row(hostname, Enrolled, beat)]
    {
      hosts := hosts[id := Row(hostname, Enrolled, beat)];
    }

    // An unknown host updates no row.
    method UpdateHeartbeat(id: HostId, stamp: Time, ok: bool)
      modifies `hosts, `heard
      ensures Model() == HeartbeatStep(old(Model()), id, stamp, ok)
      ensures ok && id in old(hosts) ==>
                && hosts == old(hosts)[id := Row(old(hosts)[id].hostname, Online, stamp)]
                && heard == old(heard)[id := clock]
      ensures !ok || id !in old(hosts) ==> hosts == old(hosts) && heard == old(heard)
    {
      if ok && id in hosts {
        hosts := hosts[id := hosts[id].(status := Online, beat := stamp)];
        heard := heard[id := clock];
      }
    }

    // UPDATE hosts .. RETURNING id, hostname: the order of the rows is the database's choice.
    method MarkOffline() returns (rows: seq<Affected>)
      modifies `hosts, `lastSweep, `swept
      ensures Returns(rows, old(hosts), clock)
      ensures forall h, name :: Affected(h, name) in rows <==>
                && h in old(hosts) && name == old(hosts)[h].hostname
                && old(hosts)[h].status == Online && old(hosts)[h].beat < clock - 90 * SECOND
      ensures Model() == old(Model()).(hosts := MarkedOffline(old(hosts), clock), lastSweep := clock,
                                      swept := old(swept) + rows)
    {
      rows := CollectStale(hosts, clock);
      ReturnsIff(rows, hosts, clock);
      hosts := map h | h in hosts :: if Stale(hosts[h], clock) then hosts[h].(status := Offline) else hosts[h];
      lastSweep := clock;
      swept := swept + rows;
    }

    // ---------- the sweep ----------

    method NotifyWebhook(a: Affected)
      modifies `notified
      ensures notified == if url == "" then old(notified) else old(notified) + [a]
    {
      if url == "" {
        return;
      }
      notified := notified + [a];
    }

    method NotifyAll(found: seq<Affected>)
      modifies `notified
      ensures notified == if url == "" then old(notified) else old(notified) + found
      ensures Model() == old(Model()).(notified := notified)
    {
      for i := 0 to |found|
        invariant notified == if url == "" then old(notified) else old(notified) + found[..i]
        invariant Model() == old(Model()).(notified := notified)
      {
        NotifyWebhook(found[i]);
      }
      assert found[..|found|] == found;
    }

    // rows.Next and rows.Scan, until one fails.
    method ReadRows(rows: seq<Affected>, plan: SweepPlan) returns (found: seq<Affected>, ok: bool)
      requires plan.statement.Done?
      ensures ok <==> !plan.rowsErr && !(plan.scanFailsAt.Some? && plan.scanFailsAt.value < |rows|)
      ensures ok ==> found == rows
    {
      found := [];
      for i := 0 to |rows|
        invariant found == rows[..i]
        invariant plan.scanFailsAt.Some? ==> plan.scanFailsAt.value >= i
      {
        if plan.scanFailsAt == Some(i) {
          return found, false;
        }
        found := found + [rows[i]];
      }
      ok := !plan.rowsErr;
    }

    // Main result: a sweep marks exactly the stale hosts offline; its error, its webhook calls and the
    // hosts it lists in the log are those of its outcome.
    method RunOnce(plan: SweepPlan) returns (ok: bool, ids: seq<HostId>, names: seq<string>, ghost order: seq<Affected>)
      modifies `hosts, `lastSweep, `swept, `notified
      ensures !plan.statement.FailedBefore? ==> Returns(order, old(hosts), clock)
      ensures Model() == SweepStep(old(Model()), order, OutcomeOf(plan, |order|))
      ensures ok <==>
                && plan.statement.Done? && !plan.rowsErr
                && !(plan.scanFailsAt.Some? && plan.scanFailsAt.value < |order|)
      ensures plan.statement.FailedBefore? ==> order == [] && hosts == old(hosts) && lastSweep == old(lastSweep)
      ensures !plan.statement.FailedBefore? ==>
                && lastSweep == clock && hosts.Keys == old(hosts).Keys
                && forall h :: h in hosts ==>
                     hosts[h] == if old(hosts)[h].status == Online && old(hosts)[h].beat < clock - 90 * SECOND
                                 then old(hosts)[h].(status := Offline) else old(hosts)[h]
      ensures !plan.statement.FailedBefore? ==>
                forall h, name :: Affected(h, name) in order <==>
                  && h in old(hosts) && name == old(hosts)[h].hostname
                  && old(hosts)[h].status == Online && old(hosts)[h].beat < clock - 90 * SECOND
      ensures swept == old(swept) + order
      ensures notified == if ok && url != "" then old(notified) + order else old(notified)
      ensures |ids| == |names| == if ok then |order| else 0
      ensures ok ==> forall i :: 0 <= i < |order| ==> order[i] == Affected(ids[i], names[i])
    {
      ids, names, order := [], [], [];
      if plan.statement.FailedBefore? {
        return false, ids, names, order;
      }
      var rows := MarkOffline();
      order := rows;
      if plan.statement.FailedAfter? {
        return false, ids, names, order;
      }
      var found;
      found, ok := ReadRows(rows, plan);
      if !ok {
        return false, ids, names, order;
      }
      ids, names := ListHosts(found);
      NotifyAll(found);
    }

    // The ids and hostnames of the log line.
    method ListHosts(found: seq<Affected>) returns (ids: seq<HostId>, names: seq<string>)
      ensures |ids| == |names| == |found|
      ensures forall i :: 0 <= i < |found| ==> found[i] == Affected(ids[i], names[i])
    {
      var idArray, nameArray := new HostId[|found|], new string[|found|];
      for i := 0 to |found|
        invariant forall j :: 0 <= j < i ==> found[j] == Affected(idArray[j], nameArray[j])
      {
        idArray[i], nameArray[i] := found[i].id, found[i].hostname;
      }
      ids, names := idArray[..], nameArray[..];
    }

    // ---------- the job ----------

    method Perform(e: Event)
      requires !e.Sweep?
      modifies `clock, `hosts, `heard
      ensures Model() == Step(old(Model()), e)
    {
      match e {
        case Elapse(d) => clock := clock + d;
        case Enroll(id, hostname, beat) => Upsert(id, hostname, beat);
        case Heartbeat(id, stamp, ok) => UpdateHeartbeat(id, stamp, ok);
      }
    }

    // Main result: until its context is cancelled the job performs one sweep per tick, whatever its
    // sweeps report and whatever runs in between.
    method RunJob(schedule: seq<Turn>) returns (stopped: bool, taken: nat, ghost trace: seq<Event>)
      requires forall i :: 0 <= i < |schedule| ==> schedule[i].Theirs? ==> !schedule[i].e.Sweep?
      modifies this
      ensures taken <= |schedule| && |trace| == taken
      ensures Model() == Run(old(Model()), trace)
      ensures forall i :: 0 <= i < taken ==> Follows(schedule[i], trace[i])
      ensures if stopped then taken < |schedule| && schedule[taken].Cancelled? else taken == |schedule|
    {
      taken, trace := 0, [];
      while taken < |schedule|
        invariant 0 <= taken <= |schedule| && |trace| == taken
        invariant Model() == Run(old(Model()), trace)
        invariant forall i :: 0 <= i < taken ==> Follows(schedule[i], trace[i])
      {
        match schedule[taken] {
          case Cancelled => return true, taken, trace;
          case Tick(plan) =>
            var ok, ids, names;
            ghost var order;
            ok, ids, names, order := RunOnce(plan);
            ghost var e := Sweep(order, OutcomeOf(plan, |order|));
            RunThen(old(Model()), trace, e);
            trace := trace + [e];
          case Theirs(e) =>
            Perform(e);
            RunThen(old(Model()), trace, e);
            trace := trace + [e];
        }
        taken := taken + 1;
      }
      stopped := false;
    }
  }

  // The step of the model that a turn performs.
  ghost predicate Follows(turn: Turn, e: Event) {
    match turn
    case Tick(plan) => e.Sweep? && e.outcome == OutcomeOf(plan, |e.order|)
    case Cancelled => false
    case Theirs(event) => e == event
  }
}
