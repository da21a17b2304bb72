// The configuration store and push service as the server runs them, with other calls and Connects
// acting between the steps of one Push or SyncOnConnect.
module ConfigPushService {
  import opened Base
  import opened ConfigPush
  import opened ConfigPushTheorems
  import Registry

  function Actor(e: Event): Option<JobId> {
    match e
    case Start(j, _, _) => Some(j)
    case FindStream(j) => Some(j)
    case ReadConfig(j, _) => Some(j)
    case SendUpdate(j, _) => Some(j)
    case _ => None
  }

  ghost predicate NotBy(events: seq<Event>, j: JobId) {
    forall i :: 0 <= i < |events| ==> Actor(events[i]) != Some(j)
  }

  // Whether this call's read and send succeed, and what runs before each of its steps.
  datatype Plan = Plan(readable: bool, sent: bool, others: seq<seq<Event>>)

  ghost predicate ValidPlan(plan: Plan, j: JobId) {
    |plan.others| == 3 && forall i :: 0 <= i < 3 ==> NotBy(plan.others[i], j)
  }

  // The steps of a call that runs to its last statement, with the others' steps in front of each.
  ghost function PushSchedule(j: JobId, host: HostId, plan: Plan): seq<Event>
    requires |plan.others| == 3
  {
    [Start(j, Push, host)] + (plan.others[0] + [FindStream(j)])
    + (plan.others[1] + [ReadConfig(j, plan.readable)]) + (plan.others[2] + [SendUpdate(j, plan.sent)])
  }

  ghost function SyncSchedule(j: JobId, host: HostId, agentVersion: int, plan: Plan): seq<Event>
    requires |plan.others| == 3
  {
    [Start(j, Sync(agentVersion), host)] + (plan.others[0] + [ReadConfig(j, plan.readable)])
    + (plan.others[1] + [FindStream(j)]) + (plan.others[2] + [SendUpdate(j, plan.sent)])
  }

  lemma OtherStepLeaves(s: State, e: Event, j: JobId)
    requires Actor(e) != Some(j) && j in s.jobs
    ensures j in Step(s, e).jobs && Step(s, e).jobs[j] == s.jobs[j]
  {
  }

  lemma Joined(s: State, before: seq<Event>, after: seq<Event>) returns (trace: seq<Event>)
    ensures trace == before + after && Run(s, trace) == Run(Run(s, before), after)
  {
    trace := before + after;
    RunSplit(s, before, after);
  }

  class ConfigService {
    var hosts: set<HostId>
    var configs: map<HostId, Config>
    var streams: Registry.State
    var jobs: map<JobId, Job>
    var sets: seq<FieldSet>
    var sends: seq<Sending>

    ghost function Model(): State
      reads this
    {
      State(hosts, configs, streams, jobs, sets, sends)
    }

    constructor ()
      ensures Model() == EMPTY && Inv(Model())
    {
      hosts, configs, streams, jobs, sets, sends := {}, map[], Registry.EMPTY, map[], [], [];
    }

    // ---------- the store ----------

    // An unknown field is refused before the statement; the statement is an upsert that starts a new
    // row at version 1 and increments an existing one.
    method SetField(host: HostId, field: string, value: int, o: Outcome) returns (ok: bool)
      requires Inv(Model())
      modifies `configs, `sets
      ensures Inv(Model()) && Model() == SetFieldStep(old(Model()), host, field, value, o)
      ensures ok <==>
                && (field == "heartbeat_interval_seconds" || field == "metric_collection_interval_seconds")
                && -0x8000_0000 <= value <= 0x7FFF_FFFF && host in hosts && o.Done?
      ensures ok ==> sets == old(sets) + [FieldSet(host, field, value)]
      ensures sets == old(sets) || sets == old(sets) + [FieldSet(host, field, value)]
      ensures !Accepts(hosts, host, field, value) ==> configs == old(configs)
    {
      SetFieldKeeps(Model(), host, field, value, o);
      var allowed := {"heartbeat_interval_seconds", "metric_collection_interval_seconds"};
      if field !in allowed {
        return false;
      }
      if o.FailedBefore? || !FitsInt32(value) || host !in hosts {
        return false;
      }
      var row := NEW_ROW;
      if host in configs {
        row := configs[host].(version := configs[host].version + 1);
      }
      if field == HEARTBEAT_FIELD {
        row := row.(heartbeat := value);
      } else {
        row := row.(metric := value);
      }
      configs := configs[host := row];
      sets := sets + [FieldSet(host, field, value)];
      return o.Done?;
    }

    // A missing row is not an error.
    method GetConfig(host: HostId) returns (cfg: Config)
      requires Inv(Model())
      ensures cfg == Effective(sets, host)
    {
      assert TableOk(configs, sets, host);
      if host !in configs {
        return DEFAULTS;
      }
      cfg := configs[host];
    }

    // ---------- steps of one delivery ----------

    method Begin(j: JobId, kind: Kind, host: HostId)
      requires Inv(Model()) && j !in jobs
      modifies `jobs
      ensures Inv(Model()) && Model() == StartStep(old(Model()), j, kind, host)
      ensures j in jobs && jobs[j] == Begun(kind, host)
    {
      StartKeeps(Model(), j, kind, host);
      jobs := jobs[j := Begun(kind, host)];
    }

    method FindAgent(j: JobId) returns (ok: bool)
      requires Inv(Model()) && At(Model(), j, Find)
      modifies `jobs
      ensures Inv(Model()) && Model() == FindStep(old(Model()), j)
      ensures j in jobs && jobs[j].host == old(jobs)[j].host && jobs[j].kind == old(jobs)[j].kind
      ensures jobs[j].failed == old(jobs)[j].failed
      ensures jobs[j].pc == if ok then (if jobs[j].kind.Push? then Read else Transmit) else Ended
    {
      FindKeeps(Model(), j);
      var k := jobs[j];
      ok := k.host in streams.registry;
      if ok {
        var next := if k.kind.Push? then Read else Transmit;
        jobs := jobs[j := k.(pc := next, conn := Some(streams.registry[k.host]))];
      } else {
        jobs := jobs[j := k.(pc := Ended)];
      }
    }

    // The read, and for SyncOnConnect the comparison with the agent's version.
    method ReadCurrent(j: JobId, readable: bool) returns (goOn: bool)
      requires Inv(Model()) && At(Model(), j, Read)
      modifies `jobs
      ensures Inv(Model()) && Model() == ReadStep(old(Model()), j, readable)
      ensures j in jobs && jobs[j].host == old(jobs)[j].host && jobs[j].kind == old(jobs)[j].kind
      ensures jobs[j].failed == (!readable || old(jobs)[j].failed)
      ensures jobs[j].pc == if goOn then (if jobs[j].kind.Push? then Transmit else Find) else Ended
      ensures readable && jobs[j].kind.Push? ==> goOn
    {
      ReadKeeps(Model(), j, readable);
      var k := jobs[j];
      if !readable {
        jobs := jobs[j := k.(pc := Ended, failed := true)];
        return false;
      }
      var cfg := GetConfig(k.host);
      assert TableOk(configs, sets, k.host);
      goOn := k.kind.Push? || cfg.version > k.kind.agentVersion;
      var next := if !goOn then Ended else if k.kind.Push? then Transmit else Find;
      jobs := jobs[j := k.(pc := next, cfg := Some(cfg), readAt := |sets|)];
    }

    // stream.Send of the ConfigUpdate.
    method Send(j: JobId, ok: bool)
      requires Inv(Model()) && At(Model(), j, Transmit)
      modifies `jobs, `sends
      ensures Inv(Model()) && Model() == SendStep(old(Model()), j, ok)
      ensures j in jobs && jobs[j].host == old(jobs)[j].host && jobs[j].kind == old(jobs)[j].kind
      ensures jobs[j].pc == Ended && jobs[j].failed == !ok
    {
      SendKeeps(Model(), j, ok);
      var k := jobs[j];
      assert JobOk(streams, sets, k);
      var c := k.cfg.value;
      sends := sends + [Sending(j, k.conn.value, Update(c.version, Int32(c.heartbeat), Int32(c.metric), c.logSources))];
      jobs := jobs[j := k.(pc := Ended, failed := !ok)];
    }

    // ---------- the rest of the server ----------

    // Performs the event if its goroutine can take it now.
    method Perform(e: Event)
      requires Inv(Model())
      modifies this
      ensures Inv(Model()) && Model() == Step(old(Model()), e)
    {
      match e {
        case AddHost(h) =>
          AddHostKeeps(Model(), h);
          hosts := hosts + {h};
        case OnStream(se) =>
          OnStreamKeeps(Model(), se);
          streams := Registry.Step(streams, se);
        case SetField(h, field, value, o) => var _ := SetField(h, field, value, o);
        case Start(j, kind, h) => if j !in jobs { Begin(j, kind, h); }
        case FindStream(j) => if j in jobs && jobs[j].pc == Find { var _ := FindAgent(j); }
        case ReadConfig(j, ok) => if j in jobs && jobs[j].pc == Read { var _ := ReadCurrent(j, ok); }
        case SendUpdate(j, ok) => if j in jobs && jobs[j].pc == Transmit { Send(j, ok); }
      }
    }

    method Interleave(j: JobId, events: seq<Event>)
      requires Inv(Model()) && j in jobs && NotBy(events, j)
      modifies this
      ensures Inv(Model()) && Model() == Run(old(Model()), events)
      ensures j in jobs && jobs[j] == old(jobs)[j]
    {
      var n := 0;
      assert events[..0] == [];
      while n < |events|
        invariant 0 <= n <= |events|
        invariant Inv(Model()) && Model() == Run(old(Model()), events[..n])
        invariant j in jobs && jobs[j] == old(jobs)[j]
      {
        RunThen(old(Model()), events[..n], events[n]);
        assert events[..n + 1] == events[..n] + [events[n]];
        OtherStepLeaves(Model(), events[n], j);
        Perform(events[n]);
        n := n + 1;
      }
      assert events[..n] == events;
    }

    method Finding(j: JobId, others: seq<Event>) returns (ok: bool, ghost trace: seq<Event>)
      requires Inv(Model()) && At(Model(), j, Find) && NotBy(others, j)
      modifies this
      ensures trace == others + [FindStream(j)]
      ensures Inv(Model()) && Model() == Run(old(Model()), trace)
      ensures j in jobs && jobs[j].host == old(jobs)[j].host && jobs[j].kind == old(jobs)[j].kind
      ensures jobs[j].failed == old(jobs)[j].failed
      ensures jobs[j].pc == if ok then (if jobs[j].kind.Push? then Read else Transmit) else Ended
    {
      ghost var s0 := Model();
      Interleave(j, others);
      ok := FindAgent(j);
      RunThen(s0, others, FindStream(j));
      trace := others + [FindStream(j)];
    }

    method Reading(j: JobId, readable: bool, others: seq<Event>) returns (goOn: bool, ghost trace: seq<Event>)
      requires Inv(Model()) && At(Model(), j, Read) && NotBy(others, j)
      modifies this
      ensures trace == others + [ReadConfig(j, readable)]
      ensures Inv(Model()) && Model() == Run(old(Model()), trace)
      ensures j in jobs && jobs[j].host == old(jobs)[j].host && jobs[j].kind == old(jobs)[j].kind
      ensures jobs[j].failed == (!readable || old(jobs)[j].failed)
      ensures jobs[j].pc == if goOn then (if jobs[j].kind.Push? then Transmit else Find) else Ended
      ensures readable && jobs[j].kind.Push? ==> goOn
    {
      ghost var s0 := Model();
      Interleave(j, others);
      goOn := ReadCurrent(j, readable);
      RunThen(s0, others, ReadConfig(j, readable));
      trace := others + [ReadConfig(j, readable)];
    }

    method Transmitting(j: JobId, sent: bool, others: seq<Event>) returns (ghost trace: seq<Event>)
      requires Inv(Model()) && At(Model(), j, Transmit) && NotBy(others, j)
      modifies this
      ensures trace == others + [SendUpdate(j, sent)]
      ensures Inv(Model()) && Model() == Run(old(Model()), trace)
      ensures j in jobs && jobs[j].host == old(jobs)[j].host && jobs[j].kind == old(jobs)[j].kind
      ensures jobs[j].pc == Ended && jobs[j].failed == !sent
    {
      ghost var s0 := Model();
      Interleave(j, others);
      Send(j, sent);
      RunThen(s0, others, SendUpdate(j, sent));
      trace := others + [SendUpdate(j, sent)];
    }

    method Opening(j: JobId, kind: Kind, host: HostId) returns (ghost trace: seq<Event>)
      requires Inv(Model()) && j !in jobs
      modifies `jobs
      ensures trace == [Start(j, kind, host)]
      ensures Inv(Model()) && Model() == Run(old(Model()), trace)
      ensures j in jobs && jobs[j] == Begun(kind, host)
    {
      trace := [Start(j, kind, host)];
      RunThen(Model(), [], Start(j, kind, host));
      assert [] + [Start(j, kind, host)] == trace;
      Begin(j, kind, host);
    }

    // ---------- deliveries ----------

    // Main result: whatever runs in between, Push performs its steps in order as far as the point at
    // which its job ends, and returns an error exactly if the job failed. What it may have sent is
    // the subject of SendsAreTheFoldRead.
    method Push(j: JobId, host: HostId, plan: Plan) returns (ok: bool, ghost trace: seq<Event>)
      requires Inv(Model()) && j !in jobs && ValidPlan(plan, j)
      modifies this
      ensures trace <= PushSchedule(j, host, plan)
      ensures Inv(Model()) && Model() == Run(old(Model()), trace)
      ensures At(Model(), j, Ended) && jobs[j].host == host && jobs[j].kind.Push? && jobs[j].failed == !ok
    {
      ghost var s0, part := Model(), [];
      trace := Opening(j, Kind.Push, host);
      var next;
      next, part := Finding(j, plan.others[0]);
      trace := Joined(s0, trace, part);
      if !next {
        return true, trace;
      }
      next, part := Reading(j, plan.readable, plan.others[1]);
      trace := Joined(s0, trace, part);
      if !next {
        return false, trace;
      }
      part := Transmitting(j, plan.sent, plan.others[2]);
      trace := Joined(s0, trace, part);
      ok := plan.sent;
    }

    method SyncOnConnect(j: JobId, host: HostId, agentVersion: int, plan: Plan)
      returns (ok: bool, ghost trace: seq<Event>)
      requires Inv(Model()) && j !in jobs && ValidPlan(plan, j)
      modifies this
      ensures trace <= SyncSchedule(j, host, agentVersion, plan)
      ensures Inv(Model()) && Model() == Run(old(Model()), trace)
      ensures At(Model(), j, Ended) && jobs[j].host == host
              && jobs[j].kind == Sync(agentVersion) && jobs[j].failed == !ok
    {
      ghost var s0, part := Model(), [];
      trace := Opening(j, Sync(agentVersion), host);
      var next;
      next, part := Reading(j, plan.readable, plan.others[0]);
      trace := Joined(s0, trace, part);
      if !next {
        return plan.readable, trace;
      }
      next, part := Finding(j, plan.others[1]);
      trace := Joined(s0, trace, part);
      if !next {
        return plan.readable, trace;
      }
      part := Transmitting(j, plan.sent, plan.others[2]);
      trace := Joined(s0, trace, part);
      ok := plan.sent;
    }
  }
}
