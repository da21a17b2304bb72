// The broker as the server runs it: its limiter object, the command_executions table, Issue and
// HandleResult, with the rest of the server acting between the statements of one Issue.
module BrokerService {
  import opened Base
  import opened Broker
  import opened BrokerSafety
  import opened BrokerTheorems
  import RateLimiterService
  import Registry

  // The Issue whose step an event is.
  function Actor(e: Event): Option<IssueId> {
    match e
    case Call(i, _) => Some(i)
    case DoLimit(i) => Some(i)
    case DoBuild(i, _, _) => Some(i)
    case DoStore(i, _) => Some(i)
    case DoLookup(i) => Some(i)
    case DoSend(i, _) => Some(i)
    case _ => None
  }

  ghost predicate NotBy(events: seq<Event>, i: IssueId) {
    forall j :: 0 <= j < |events| ==> Actor(events[j]) != Some(i)
  }

  // What the world decides during one Issue: the generated id, whether the command marshals, the
  // insert's outcome, whether the send succeeds, and what runs before each step.
  datatype Plan = Plan(
    ulid: set<CmdId> -> CmdId, marshalled: bool, store: Outcome, sent: bool, others: seq<seq<Event>>)

  ghost predicate ValidPlan(plan: Plan, i: IssueId) {
    && |plan.others| == 5 && (forall j :: 0 <= j < 5 ==> NotBy(plan.others[j], i))
    && forall used :: plan.ulid(used) != "" && plan.ulid(used) !in used
  }

  // The steps of an Issue that runs to its last statement, with the others' steps in front of each.
  ghost function RecordSchedule(i: IssueId, id: CmdId, plan: Plan): seq<Event>
    requires |plan.others| == 5
  {
    (plan.others[0] + [DoLimit(i)]) + (plan.others[1] + [DoBuild(i, id, plan.marshalled)])
    + (plan.others[2] + [DoStore(i, plan.store)])
  }

  ghost function DeliverSchedule(i: IssueId, plan: Plan): seq<Event>
    requires |plan.others| == 5
  {
    (plan.others[3] + [DoLookup(i)]) + (plan.others[4] + [DoSend(i, plan.sent)])
  }

  ghost function IssueSchedule(i: IssueId, req: IssueRequest, id: CmdId, plan: Plan): seq<Event>
    requires |plan.others| == 5
  {
    ([Call(i, req)] + RecordSchedule(i, id, plan)) + DeliverSchedule(i, plan)
  }

  lemma OtherStepLeaves(s: State, e: Event, i: IssueId)
    requires Actor(e) != Some(i) && i in s.issues
    ensures i in Step(s, e).issues && Step(s, e).issues[i] == s.issues[i]
  {
  }

  lemma Joined(s: State, before: seq<Event>, after: seq<Event>) returns (trace: seq<Event>)
    ensures trace == before + after && Run(s, trace) == Run(Run(s, before), after)
  {
    trace := before + after;
    RunSplit(s, before, after);
  }

  // How Issue ended, in terms of its record: the id is empty if none is returned.
  ghost predicate EndedWith(k: Issue, id: CmdId, ok: bool) {
    k.pc == Ended && k.ok == ok && id == if k.id.Some? then k.id.value else ""
  }

  // An id that is returned names a stored row of the request; success means it was also sent.
  ghost predicate Backed(s: State, req: IssueRequest, id: CmdId, ok: bool) {
    && (id != "" ==> id in s.rows && Stores(s.rows[id], id, req))
    && (ok ==>
          && id != ""
          && exists x :: x in s.sends && x.ok && Requests(x.cr, id, req)
                    && Registry.Reaches(s.streams, x.conn, req.host))
  }

  lemma EndedIsBacked(s: State, i: IssueId, id: CmdId, ok: bool)
    requires Inv(s) && i in s.issues && EndedWith(s.issues[i], id, ok)
    requires s.issues[i].id.Some? ==> s.issues[i].id.value != ""
    ensures Backed(s, s.issues[i].req, id, ok)
  {
    var k := s.issues[i];
    assert IssueOk(s, i, k);
    if k.id.Some? {
      assert RowOk(s, id);
    }
    if ok {
      assert SendOk(s, Sending(k.conn.value, RequestOf(id, k.req), i, true));
    }
  }

  class CommandBroker {
    const start: Time
    const limiter: RateLimiterService.RateLimiter
    var clock: Time
    var streams: Registry.State
    var rows: map<CmdId, CommandRow>
    var issues: map<IssueId, Issue>
    var mintedBy: map<CmdId, IssueId>
    var sends: seq<Sending>

    ghost function Model(): State
      reads this, limiter
    {
      State(start, clock, streams, limiter.trace, rows, issues, mintedBy, sends)
    }

    ghost predicate Valid()
      reads this, limiter, limiter.buckets.Values
    {
      limiter.Valid() && Inv(Model())
    }

    constructor (start: Time)
      ensures Valid() && Model() == Init(start) && fresh(limiter)
    {
      this.start, clock := start, start;
      limiter := new RateLimiterService.RateLimiter();
      streams, rows, issues, mintedBy, sends := Registry.EMPTY, map[], map[], map[], [];
    }

    // ---------- steps ----------

    method Begin(i: IssueId, req: IssueRequest)
      requires Valid() && i !in issues
      modifies `issues
      ensures Valid() && Model() == CallStep(old(Model()), i, req)
      ensures At(Model(), i, Limit) && issues[i].req == req
    {
      CallKeeps(Model(), i, req);
      issues := issues[i := Begun(req)];
    }

    // b.limiter.Allow
    method Allow(i: IssueId) returns (granted: bool)
      requires Valid() && At(Model(), i, Limit)
      modifies `issues, limiter, limiter.buckets.Values
      ensures Valid() && Model() == LimitStep(old(Model()), i)
      ensures fresh(limiter.buckets.Values - old(limiter.buckets.Values))
      ensures i in issues && issues[i].req == old(issues)[i].req
      ensures issues[i].pc == (if granted then Build else Ended) && (!granted ==> EndedWith(issues[i], "", false))
    {
      LimitKeeps(Model(), i);
      assert IssueOk(Model(), i, issues[i]);
      var k := issues[i];
      granted := limiter.Allow(k.req.host, clock);
      if granted {
        issues := issues[i := k.(pc := Build, granted := true)];
      } else {
        issues := issues[i := k.(pc := Ended)];
      }
    }

    // The CommandRequest and its JSON: unknown command types and marshalling errors end the Issue.
    method BuildRequest(i: IssueId, id: CmdId, marshalled: bool) returns (ok: bool)
      requires Valid() && At(Model(), i, Build) && id !in mintedBy
      modifies `issues, `mintedBy
      ensures Valid() && Model() == BuildStep(old(Model()), i, id, marshalled)
      ensures i in issues && issues[i].req == old(issues)[i].req
      ensures if ok then issues[i].pc == Store && issues[i].id == Some(id) else EndedWith(issues[i], "", false)
    {
      BuildKeeps(Model(), i, id, marshalled);
      assert IssueOk(Model(), i, issues[i]);
      var k := issues[i];
      mintedBy := mintedBy[id := i];
      ok := match k.req.command {
        case Diagnostic(_) => marshalled
        case Shell(_) => marshalled
        case OtherType => false
      };
      issues := issues[i := if ok then k.(pc := Store, id := Some(id)) else k.(pc := Ended)];
    }

    // INSERT INTO command_executions
    method InsertCommand(i: IssueId, o: Outcome) returns (ok: bool)
      requires Valid() && At(Model(), i, Store)
      modifies `issues, `rows
      ensures Valid() && Model() == StoreStep(old(Model()), i, o)
      ensures i in issues && issues[i].req == old(issues)[i].req
      ensures if ok then issues[i].pc == Lookup && issues[i].id == old(issues)[i].id
              else EndedWith(issues[i], "", false)
    {
      StoreKeeps(Model(), i, o);
      assert IssueOk(Model(), i, issues[i]);
      var k := issues[i];
      var id := k.id.value;
      if o.FailedBefore? || id in rows {
        issues := issues[i := k.(pc := Ended, id := None)];
        return false;
      }
      rows := rows[id := PendingRow(id, k.req)];
      if o.FailedAfter? {
        issues := issues[i := k.(pc := Ended, id := None)];
        return false;
      }
      issues := issues[i := k.(pc := Lookup)];
      return true;
    }

    // b.registry.Get
    method GetSender(i: IssueId) returns (ok: bool)
      requires Valid() && At(Model(), i, Lookup)
      modifies `issues
      ensures Valid() && Model() == LookupStep(old(Model()), i)
      ensures i in issues && issues[i].req == old(issues)[i].req && issues[i].id == old(issues)[i].id
      ensures issues[i].pc == (if ok then Push else Ended) && !issues[i].ok
    {
      LookupKeeps(Model(), i);
      assert IssueOk(Model(), i, issues[i]);
      var k := issues[i];
      ok := k.req.host in streams.registry;
      if ok {
        issues := issues[i := k.(pc := Push, conn := Some(streams.registry[k.req.host]))];
      } else {
        issues := issues[i := k.(pc := Ended)];
      }
    }

    // agentStream.Send
    method SendCommand(i: IssueId, ok: bool)
      requires Valid() && At(Model(), i, Push)
      modifies `issues, `sends
      ensures Valid() && Model() == SendStep(old(Model()), i, ok)
      ensures i in issues && issues[i].req == old(issues)[i].req && issues[i].id == old(issues)[i].id
      ensures issues[i].pc == Ended && issues[i].ok == ok
    {
      SendKeeps(Model(), i, ok);
      assert IssueOk(Model(), i, issues[i]);
      var k := issues[i];
      sends := sends + [Sending(k.conn.value, RequestOf(k.id.value, k.req), i, ok)];
      issues := issues[i := k.(pc := Ended, ok := ok)];
    }

    // HandleResult: an error of the UPDATE is only logged.
    method HandleResult(id: CmdId, result: CommandResult, o: Outcome)
      requires Valid()
      modifies `rows
      ensures Valid() && Model() == CompleteStep(old(Model()), id, result, o)
    {
      CompleteKeeps(Model(), id, result, o);
      var status := Completed;
      if result.error != "" {
        status := Failed;
      }
      if !o.FailedBefore? && id in rows {
        rows := rows[id := rows[id].(status := status, result := Some(result))];
      }
    }

    // ---------- the rest of the server ----------

    // Performs the event if its goroutine can take it now.
    method Perform(e: Event)
      requires Valid()
      modifies this, limiter, limiter.buckets.Values
      ensures Valid() && Model() == Step(old(Model()), e)
      ensures fresh(limiter.buckets.Values - old(limiter.buckets.Values))
    {
      match e {
        case Tick(elapsed) =>
          TickKeeps(Model(), elapsed);
          clock := clock + elapsed;
        case OnStream(se) =>
          OnStreamKeeps(Model(), se);
          streams := Registry.Step(streams, se);
        case Call(i, req) => if i !in issues { Begin(i, req); }
        case DoLimit(i) => if i in issues && issues[i].pc == Limit { var _ := Allow(i); }
        case DoBuild(i, id, marshalled) =>
          if i in issues && issues[i].pc == Build && id !in mintedBy { var _ := BuildRequest(i, id, marshalled); }
        case DoStore(i, o) => if i in issues && issues[i].pc == Store { var _ := InsertCommand(i, o); }
        case DoLookup(i) => if i in issues && issues[i].pc == Lookup { var _ := GetSender(i); }
        case DoSend(i, ok) => if i in issues && issues[i].pc == Push { SendCommand(i, ok); }
        case Complete(id, result, o) => HandleResult(id, result, o);
      }
    }

    method Interleave(i: IssueId, events: seq<Event>)
      requires Valid() && i in issues && NotBy(events, i)
      modifies this, limiter, limiter.buckets.Values
      ensures Valid() && Model() == Run(old(Model()), events)
      ensures fresh(limiter.buckets.Values - old(limiter.buckets.Values))
      ensures i in issues && issues[i] == old(issues)[i]
    {
      var n := 0;
      assert events[..0] == [];
      while n < |events|
        invariant 0 <= n <= |events|
        invariant Valid() && Model() == Run(old(Model()), events[..n])
        invariant fresh(limiter.buckets.Values - old(limiter.buckets.Values))
        invariant i in issues && issues[i] == old(issues)[i]
      {
        RunThen(old(Model()), events[..n], events[n]);
        assert events[..n + 1] == events[..n] + [events[n]];
        OtherStepLeaves(Model(), events[n], i);
        Perform(events[n]);
        n := n + 1;
      }
      assert events[..n] == events;
    }

    // ---------- Issue, step by step, with the others' steps in front of each ----------

    method Quota(i: IssueId, plan: Plan) returns (ok: bool, ghost trace: seq<Event>)
      requires Valid() && At(Model(), i, Limit) && ValidPlan(plan, i)
      modifies this, limiter, limiter.buckets.Values
      ensures trace == plan.others[0] + [DoLimit(i)]
      ensures Valid() && Model() == Run(old(Model()), trace)
      ensures fresh(limiter.buckets.Values - old(limiter.buckets.Values))
      ensures i in issues && issues[i].req == old(issues)[i].req
      ensures issues[i].pc == (if ok then Build else Ended) && (!ok ==> EndedWith(issues[i], "", false))
    {
      ghost var s0 := Model();
      Interleave(i, plan.others[0]);
      ok := Allow(i);
      RunThen(s0, plan.others[0], DoLimit(i));
      trace := plan.others[0] + [DoLimit(i)];
    }

    method Building(i: IssueId, plan: Plan) returns (ok: bool, id: CmdId, ghost trace: seq<Event>)
      requires Valid() && At(Model(), i, Build) && ValidPlan(plan, i)
      modifies this, limiter, limiter.buckets.Values
      ensures trace == plan.others[1] + [DoBuild(i, id, plan.marshalled)]
      ensures Valid() && Model() == Run(old(Model()), trace)
      ensures fresh(limiter.buckets.Values - old(limiter.buckets.Values))
      ensures i in issues && issues[i].req == old(issues)[i].req
      ensures if ok then issues[i].pc == Store && issues[i].id == Some(id) && id != ""
              else EndedWith(issues[i], "", false)
    {
      ghost var s0 := Model();
      Interleave(i, plan.others[1]);
      id := plan.ulid(mintedBy.Keys);
      ok := BuildRequest(i, id, plan.marshalled);
      RunThen(s0, plan.others[1], DoBuild(i, id, plan.marshalled));
      trace := plan.others[1] + [DoBuild(i, id, plan.marshalled)];
    }

    method Storing(i: IssueId, plan: Plan) returns (ok: bool, ghost trace: seq<Event>)
      requires Valid() && At(Model(), i, Store) && ValidPlan(plan, i)
      modifies this, limiter, limiter.buckets.Values
      ensures trace == plan.others[2] + [DoStore(i, plan.store)]
      ensures Valid() && Model() == Run(old(Model()), trace)
      ensures fresh(limiter.buckets.Values - old(limiter.buckets.Values))
      ensures i in issues && issues[i].req == old(issues)[i].req
      ensures if ok then issues[i].pc == Lookup && issues[i].id == old(issues)[i].id
              else EndedWith(issues[i], "", false)
    {
      ghost var s0 := Model();
      Interleave(i, plan.others[2]);
      ok := InsertCommand(i, plan.store);
      RunThen(s0, plan.others[2], DoStore(i, plan.store));
      trace := plan.others[2] + [DoStore(i, plan.store)];
    }

    method Finding(i: IssueId, plan: Plan) returns (ok: bool, ghost trace: seq<Event>)
      requires Valid() && At(Model(), i, Lookup) && ValidPlan(plan, i)
      modifies this, limiter, limiter.buckets.Values
      ensures trace == plan.others[3] + [DoLookup(i)]
      ensures Valid() && Model() == Run(old(Model()), trace)
      ensures fresh(limiter.buckets.Values - old(limiter.buckets.Values))
      ensures i in issues && issues[i].req == old(issues)[i].req
      ensures issues[i].id == old(issues)[i].id
      ensures issues[i].pc == (if ok then Push else Ended) && !issues[i].ok
    {
      ghost var s0 := Model();
      Interleave(i, plan.others[3]);
      ok := GetSender(i);
      RunThen(s0, plan.others[3], DoLookup(i));
      trace := plan.others[3] + [DoLookup(i)];
    }

    method Pushing(i: IssueId, plan: Plan) returns (ghost trace: seq<Event>)
      requires Valid() && At(Model(), i, Push) && ValidPlan(plan, i)
      modifies this, limiter, limiter.buckets.Values
      ensures trace == plan.others[4] + [DoSend(i, plan.sent)]
      ensures Valid() && Model() == Run(old(Model()), trace)
      ensures fresh(limiter.buckets.Values - old(limiter.buckets.Values))
      ensures i in issues && issues[i].req == old(issues)[i].req
      ensures issues[i].id == old(issues)[i].id
      ensures issues[i].pc == Ended && issues[i].ok == plan.sent
    {
      ghost var s0 := Model();
      Interleave(i, plan.others[4]);
      SendCommand(i, plan.sent);
      RunThen(s0, plan.others[4], DoSend(i, plan.sent));
      trace := plan.others[4] + [DoSend(i, plan.sent)];
    }

    method Opening(i: IssueId, req: IssueRequest) returns (ghost trace: seq<Event>)
      requires Valid() && i !in issues
      modifies `issues
      ensures trace == [Call(i, req)]
      ensures Valid() && Model() == Run(old(Model()), trace)
      ensures At(Model(), i, Limit) && issues[i].req == req
    {
      trace := [Call(i, req)];
      RunThen(Model(), [], Call(i, req));
      assert [] + [Call(i, req)] == trace;
      Begin(i, req);
    }

    // From the limiter to the built request.
    method Prepare(i: IssueId, plan: Plan) returns (id: CmdId, ok: bool, ghost trace: seq<Event>)
      requires Valid() && At(Model(), i, Limit) && ValidPlan(plan, i)
      modifies this, limiter, limiter.buckets.Values
      ensures var all := (plan.others[0] + [DoLimit(i)]) + (plan.others[1] + [DoBuild(i, id, plan.marshalled)]);
              if ok then trace == all else trace <= all
      ensures Valid() && Model() == Run(old(Model()), trace)
      ensures fresh(limiter.buckets.Values - old(limiter.buckets.Values))
      ensures i in issues && issues[i].req == old(issues)[i].req
      ensures if ok then issues[i].pc == Store && issues[i].id == Some(id) && id != ""
              else EndedWith(issues[i], "", false)
    {
      ghost var s0, part := Model(), [];
      id := "";
      ok, trace := Quota(i, plan);
      if ok {
        ok, id, part := Building(i, plan);
        trace := Joined(s0, trace, part);
      }
    }

    // From the limiter to the stored row.
    method Record(i: IssueId, plan: Plan) returns (id: CmdId, ok: bool, ghost trace: seq<Event>)
      requires Valid() && At(Model(), i, Limit) && ValidPlan(plan, i)
      modifies this, limiter, limiter.buckets.Values
      ensures if ok then trace == RecordSchedule(i, id, plan) else trace <= RecordSchedule(i, id, plan)
      ensures Valid() && Model() == Run(old(Model()), trace)
      ensures fresh(limiter.buckets.Values - old(limiter.buckets.Values))
      ensures i in issues && issues[i].req == old(issues)[i].req
      ensures if ok then issues[i].pc == Lookup && issues[i].id == Some(id) && id != ""
              else EndedWith(issues[i], "", false)
    {
      ghost var s0, part := Model(), [];
      id, ok, trace := Prepare(i, plan);
      if !ok {
        return;
      }
      ok, part := Storing(i, plan);
      trace := Joined(s0, trace, part);
    }

    // From the call to the stored row.
    method Accept(i: IssueId, req: IssueRequest, plan: Plan) returns (id: CmdId, ok: bool, ghost trace: seq<Event>)
      requires Valid() && i !in issues && ValidPlan(plan, i)
      modifies this, limiter, limiter.buckets.Values
      ensures var all := [Call(i, req)] + RecordSchedule(i, id, plan); if ok then trace == all else trace <= all
      ensures Valid() && Model() == Run(old(Model()), trace)
      ensures fresh(limiter.buckets.Values - old(limiter.buckets.Values))
      ensures i in issues && issues[i].req == req
      ensures if ok then issues[i].pc == Lookup && issues[i].id == Some(id) && id != ""
              else EndedWith(issues[i], "", false)
    {
      ghost var s0, part := Model(), [];
      trace := Opening(i, req);
      id, ok, part := Record(i, plan);
      trace := Joined(s0, trace, part);
    }

    // The push to the connected agent.
    method Deliver(i: IssueId, id: CmdId, plan: Plan) returns (ok: bool, ghost trace: seq<Event>)
      requires Valid() && At(Model(), i, Lookup) && issues[i].id == Some(id) && id != "" && ValidPlan(plan, i)
      modifies this, limiter, limiter.buckets.Values
      ensures trace <= DeliverSchedule(i, plan)
      ensures Valid() && Model() == Run(old(Model()), trace)
      ensures fresh(limiter.buckets.Values - old(limiter.buckets.Values))
      ensures i in issues && issues[i].req == old(issues)[i].req && EndedWith(issues[i], id, ok)
      ensures Backed(Model(), issues[i].req, id, ok)
    {
      ghost var s0, part := Model(), [];
      ok, trace := Finding(i, plan);
      if ok {
        part := Pushing(i, plan);
        trace := Joined(s0, trace, part);
        ok := plan.sent;
      }
      EndedIsBacked(Model(), i, id, ok);
    }

    // Main result: whatever the other goroutines do between its steps, Issue performs its steps in order
    // as far as the point at which its record ends, with the id and error that record shows; a returned
    // id is stored, and success means the command went out on a stream of its host.
    method Issue(i: IssueId, req: IssueRequest, plan: Plan)
      returns (id: CmdId, ok: bool, ghost generated: CmdId, ghost trace: seq<Event>)
      requires Valid() && i !in issues && ValidPlan(plan, i)
      modifies this, limiter, limiter.buckets.Values
      ensures trace <= IssueSchedule(i, req, generated, plan)
      ensures Valid() && Model() == Run(old(Model()), trace)
      ensures fresh(limiter.buckets.Values - old(limiter.buckets.Values))
      ensures i in issues && issues[i].req == req && EndedWith(issues[i], id, ok)
      ensures Backed(Model(), req, id, ok)
    {
      ghost var s0, part := Model(), [];
      id, ok, trace := Accept(i, req, plan);
      generated := id;
      if !ok {
        id := "";
        return;
      }
      ok, part := Deliver(i, id, plan);
      trace := Joined(s0, trace, part);
    }
  }
}
