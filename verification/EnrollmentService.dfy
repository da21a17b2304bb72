// Enroll as the server runs it: one method of the service per statement of the source, and Enroll
// itself, which performs them in order while the rest of the server acts in between.
module EnrollmentService {
  import opened Base
  import opened Enrollment
  import opened EnrollmentSafety
  import opened EnrollmentTheorems
  import opened EnrollmentEffects
  import TokenCodec

  datatype Reply = Enrolled(agentId: HostId, cert: Cert) | Failed(code: Code)

  // How a call ended, in terms of its record.
  ghost predicate EndedWith(k: Call, r: Reply) {
    match r
    case Enrolled(agentId, cert) => k.pc == Returned && k.host == Some(agentId) && k.cert == Some(cert)
    case Failed(code) => k.pc == Rejected(code)
  }

  // What the world decides during one call: statement outcomes, the CA's answer, the generated id,
  // and what the other goroutines do before each step after the first.
  datatype Plan = Plan(
    authenticate: Outcome,
    lookup: Outcome,
    ulid: set<HostId> -> HostId,
    serial: nat,
    csrAccepted: bool,
    upsert: Outcome,
    markToken: Outcome,
    record: Outcome,
    others: seq<seq<Event>>)

  ghost predicate NotBy(events: seq<Event>, c: CallId) {
    forall i :: 0 <= i < |events| ==> Actor(events[i]) != Some(c)
  }

  ghost predicate ValidPlan(plan: Plan, c: CallId) {
    && |plan.others| == 7 && (forall i :: 0 <= i < 7 ==> NotBy(plan.others[i], c))
    && (forall used :: plan.ulid(used) != "" && plan.ulid(used) !in used)
  }

  // The statements of an Enroll that runs to its last one, with the others' steps in front of each.
  // `row` and `found` are the rows that the claim and the lookup pick; only an Enroll with a token
  // marks it.
  ghost function AdmitSchedule(c: CallId, row: TokenId, found: HostId, plan: Plan): seq<Event>
    requires |plan.others| == 7
  {
    (plan.others[0] + [DoAuthenticate(c, row, plan.authenticate)])
    + (plan.others[1] + [DoResolve(c, found, plan.lookup)])
    + (plan.others[2] + [DoIssue(c, plan.serial, plan.csrAccepted)])
  }

  ghost function RegisterSchedule(c: CallId, marks: bool, plan: Plan): seq<Event>
    requires |plan.others| == 7
  {
    var upserted := (plan.others[3] + [DoStamp(c)]) + (plan.others[4] + [DoUpsert(c, plan.upsert)]);
    (if marks then upserted + (plan.others[5] + [DoMarkToken(c, plan.markToken)]) else upserted)
    + (plan.others[6] + [DoRecord(c, plan.record)])
  }

  ghost function EnrollSchedule(c: CallId, req: Request, row: TokenId, found: HostId, marks: bool,
                                plan: Plan): seq<Event>
    requires |plan.others| == 7
  {
    [DoBegin(c, req)] + AdmitSchedule(c, row, found, plan) + RegisterSchedule(c, marks, plan)
  }

  ghost predicate LeavesCall(s: State, s': State, c: CallId) {
    c in s.calls ==> c in s'.calls && s'.calls[c] == s.calls[c]
  }

  lemma BeginLeavesOthers(s: State, d: CallId, req: Request, c: CallId)
    requires c != d
    ensures LeavesCall(s, BeginStep(s, d, req), c)
  {
  }

  lemma AuthenticateLeavesOthers(s: State, d: CallId, row: TokenId, o: Outcome, c: CallId)
    requires c != d
    ensures LeavesCall(s, AuthenticateStep(s, d, row, o), c)
  {
  }

  lemma ResolveLeavesOthers(s: State, d: CallId, found: HostId, o: Outcome, c: CallId)
    requires c != d
    ensures LeavesCall(s, ResolveStep(s, d, found, o), c)
  {
  }

  lemma IssueLeavesOthers(s: State, d: CallId, serial: nat, accepted: bool, c: CallId)
    requires c != d
    ensures LeavesCall(s, IssueStep(s, d, serial, accepted), c)
  {
  }

  lemma UpsertLeavesOthers(s: State, d: CallId, o: Outcome, c: CallId)
    requires c != d
    ensures LeavesCall(s, UpsertStep(s, d, o), c)
  {
  }

  lemma MarkTokenLeavesOthers(s: State, d: CallId, o: Outcome, c: CallId)
    requires c != d
    ensures LeavesCall(s, MarkTokenStep(s, d, o), c)
  {
  }

  lemma RecordLeavesOthers(s: State, d: CallId, o: Outcome, c: CallId)
    requires c != d
    ensures LeavesCall(s, RecordStep(s, d, o), c)
  {
  }

  lemma StepKeepsOtherCalls(s: State, e: Event, c: CallId)
    requires Actor(e) != Some(c)
    ensures LeavesCall(s, Step(s, e), c)
  {
    match e
    case Tick(_) =>
    case InsertToken(_, _, _, _) =>
    case RevokeToken(_) =>
    case DoBegin(d, req) => BeginLeavesOthers(s, d, req, c);
    case DoAuthenticate(d, row, o) => AuthenticateLeavesOthers(s, d, row, o, c);
    case DoResolve(d, found, o) => ResolveLeavesOthers(s, d, found, o, c);
    case DoIssue(d, serial, accepted) => IssueLeavesOthers(s, d, serial, accepted, c);
    case DoStamp(_) =>
    case DoUpsert(d, o) => UpsertLeavesOthers(s, d, o, c);
    case DoMarkToken(d, o) => MarkTokenLeavesOthers(s, d, o, c);
    case DoRecord(d, o) => RecordLeavesOthers(s, d, o, c);
  }

  lemma {:induction false} OthersKeepCall(s: State, events: seq<Event>, c: CallId)
    requires c in s.calls && NotBy(events, c)
    ensures c in Run(s, events).calls && Run(s, events).calls[c] == s.calls[c]
    decreases |events|
  {
    if events != [] {
      StepKeepsOtherCalls(s, events[0], c);
      OthersKeepCall(Step(s, events[0]), events[1..], c);
    }
  }

  lemma RunThen(s: State, events: seq<Event>, e: Event)
    ensures Run(s, events + [e]) == Step(Run(s, events), e)
  {
    RunSplit(s, events, [e]);
    assert Run(Run(s, events), [e]) == Run(Step(Run(s, events), e), [e][1..]);
  }

  lemma HasLocals(s: State, c: CallId)
    requires Inv(s) && c in s.calls
    ensures LocalsOk(s.calls[c])
  {
    assert CallOk(s, c, s.calls[c]);
  }

  // The rows that hold the unique index entry of `row` against host h.
  function Clashing(hosts: map<HostId, HostRow>, h: HostId, row: HostRow): set<HostId> {
    set g | g in hosts && g != h && row.machine.Some? && hosts[g].machine == row.machine && hosts[g].org == row.org
  }

  lemma ClashingMeansConflict(s: State, h: HostId, row: HostRow)
    ensures Clashing(s.hosts, h, row) != {} <==> Conflicts(s, h, row)
  {
    var rows := Clashing(s.hosts, h, row);
    if rows != {} {
      var g :| g in rows;
      assert SameMachine(s.hosts[g], row.machine.value, row.org);
    }
    forall g | g in s.hosts && g != h && row.machine.Some? && SameMachine(s.hosts[g], row.machine.value, row.org)
      ensures g in rows {
    }
  }

  class Service {
    var clock: Time
    var tokens: map<TokenId, TokenRow>
    var hosts: map<HostId, HostRow>
    var identities: seq<IdentityRow>
    var calls: map<CallId, Call>
    var claimedBy: map<TokenId, CallId>
    var mintedBy: map<HostId, CallId>

    ghost function Model(): State
      reads this
    {
      State(clock, tokens, hosts, identities, calls, claimedBy, mintedBy)
    }

    constructor (clock: Time)
      ensures Model() == Init(clock) && Inv(Model())
    {
      this.clock, tokens, hosts, identities := clock, map[], map[], [];
      calls, claimedBy, mintedBy := map[], map[], map[];
    }

    // Other calls, operators and the clock.
    method Others(events: seq<Event>)
      requires Inv(Model())
      modifies this
      ensures Model() == Run(old(Model()), events) && Inv(Model())
    {
      RunKeeps(Model(), events);
      var s := Run(State(clock, tokens, hosts, identities, calls, claimedBy, mintedBy), events);
      clock, tokens, hosts, identities := s.clock, s.tokens, s.hosts, s.identities;
      calls, claimedBy, mintedBy := s.calls, s.claimedBy, s.mintedBy;
    }

    // ---------- statements ----------

    method InsertToken(id: TokenId, plain: string, org: string, expiresAt: Time) returns (ok: bool)
      requires Inv(Model())
      modifies `tokens
      ensures Inv(Model()) && Model() == InsertTokenStep(old(Model()), id, plain, org, expiresAt)
      ensures ok <==> id !in old(tokens)
      ensures ok ==> tokens == old(tokens)[id := TokenRow(TokenCodec.Sha256(plain), org, expiresAt, None, None, None)]
      ensures !ok ==> tokens == old(tokens)
    {
      InsertTokenKeeps(Model(), id, plain, org, expiresAt);
      if id in tokens {
        return false;
      }
      tokens := tokens[id := TokenRow(TokenCodec.Sha256(plain), org, expiresAt, None, None, None)];
      return true;
    }

    // Fails for an unknown token and for one revoked before.
    method RevokeToken(id: TokenId) returns (ok: bool)
      requires Inv(Model())
      modifies `tokens
      ensures Inv(Model()) && Model() == RevokeTokenStep(old(Model()), id)
      ensures ok <==> id in old(tokens) && old(tokens)[id].revokedAt.None?
      ensures ok ==> tokens == old(tokens)[id := old(tokens)[id].(revokedAt := Some(clock))]
      ensures !ok ==> tokens == old(tokens)
    {
      RevokeTokenKeeps(Model(), id);
      if id !in tokens || tokens[id].revokedAt.Some? {
        return false;
      }
      tokens := tokens[id := tokens[id].(revokedAt := Some(clock))];
      return true;
    }

    // Steps 1 and 2: detect a renewal, validate the request.
    method Begin(c: CallId, req: Request) returns (ok: bool)
      requires Inv(Model()) && c !in calls && (req.peer.Some? ==> Issued(Model(), req.peer.value))
      modifies `calls
      ensures Inv(Model()) && Model() == BeginStep(old(Model()), c, req)
      ensures c in calls && calls[c].req == req
      ensures calls[c].reEnroll <==> req.peer.Some? && req.peer.value.notAfter > clock
      ensures ok <==> req.csr != "" && req.hostname != "" && (calls[c].reEnroll || req.token != "")
      ensures calls[c].pc == if ok then Authenticate else Rejected(InvalidArgument)
    {
      BeginKeeps(Model(), c, req);
      var isReEnroll, existing := false, "";
      if req.peer.Some? {
        if req.peer.value.notAfter > clock {
          isReEnroll, existing := true, req.peer.value.cn;
        }
      }
      ok := !(!isReEnroll && req.token == "") && req.csr != "" && req.hostname != "";
      var pc := if ok then Authenticate else Rejected(InvalidArgument);
      calls := calls[c := Call(pc, req, isReEnroll, existing, None, None, None, None, None)];
    }

    // Step 3 of a renewal: SELECT org_id FROM hosts.
    method SelectOrg(c: CallId, o: Outcome) returns (ok: bool)
      requires Inv(Model()) && At(Model(), c, Authenticate) && calls[c].reEnroll
      modifies `calls
      ensures Inv(Model()) && Model() == AuthenticateByCert(old(Model()), c, o)
      ensures c in calls && calls[c].req == old(calls)[c].req
      ensures calls[c].pc == if ok then Resolve else Rejected(Unauthenticated)
    {
      AuthenticateKeeps(Model(), c, "", o);
      var k := calls[c];
      if !o.Done? || k.existing !in hosts {
        calls := calls[c := k.(pc := Rejected(Unauthenticated))];
        return false;
      }
      calls := calls[c := k.(pc := Resolve, org := Some(hosts[k.existing].org))];
      return true;
    }

    // The rows that the claiming UPDATE selects.
    method MatchingRows(text: string) returns (rows: set<TokenId>)
      ensures rows == ClaimSet(Model(), text) && rows <= tokens.Keys
      ensures forall t :: t in tokens ==> (t in rows <==> Usable(tokens[t], text, clock))
    {
      var hash := TokenCodec.Sha256(text);
      rows := set t | t in tokens && tokens[t].hash == hash && tokens[t].usedAt.None?
                      && tokens[t].revokedAt.None? && tokens[t].expiresAt > clock;
      assert rows == ClaimSet(Model(), text);
    }

    // Step 3 of a first enrollment: check the token's form, then the claiming UPDATE.
    method ClaimToken(c: CallId, o: Outcome) returns (ok: bool, row: TokenId)
      requires Inv(Model()) && At(Model(), c, Authenticate) && !calls[c].reEnroll
      modifies `calls, `tokens, `claimedBy
      ensures Inv(Model()) && Model() == AuthenticateByToken(old(Model()), c, row, o)
      ensures c in calls && calls[c].req == old(calls)[c].req
      ensures var formed, text := TokenCodec.WellFormed(calls[c].req.token), calls[c].req.token;
              && tokens.Keys == old(tokens).Keys
              && (forall t :: t in tokens ==>
                    tokens[t] == if formed && !o.FailedBefore? && Usable(old(tokens)[t], text, clock)
                                 then old(tokens)[t].(usedAt := Some(clock)) else old(tokens)[t])
              && (ok <==> formed && o.Done? && exists t :: t in old(tokens) && Usable(old(tokens)[t], text, clock))
              && calls[c].pc == if !formed then Rejected(InvalidArgument)
                                else if ok then Resolve else Rejected(Unauthenticated)
    {
      row := "";
      var k := calls[c];
      var valid := TokenCodec.ParseAndValidate(k.req.token);
      if !valid {
        AuthenticateKeeps(Model(), c, row, o);
        calls := calls[c := k.(pc := Rejected(InvalidArgument))];
        return false, row;
      }
      var rows := MatchingRows(k.req.token);
      if rows == {} || o.FailedBefore? {
        AuthenticateKeeps(Model(), c, row, o);
        calls := calls[c := k.(pc := Rejected(Unauthenticated))];
        return false, row;
      }
      row :| row in rows;
      AuthenticateKeeps(Model(), c, row, o);
      var org := tokens[row].org;
      tokens := map t | t in tokens :: if t in rows then tokens[t].(usedAt := Some(clock)) else tokens[t];
      claimedBy := map t | t in claimedBy.Keys + rows :: if t in rows then c else claimedBy[t];
      if o.FailedAfter? {
        calls := calls[c := k.(pc := Rejected(Unauthenticated))];
        return false, row;
      }
      calls := calls[c := k.(pc := Resolve, token := Some(row), org := Some(org))];
      return true, row;
    }

    // Step 4.
    method ResolveHostID(c: CallId, o: Outcome, ulid: HostId) returns (found: HostId)
      requires Inv(Model()) && At(Model(), c, Resolve) && ulid != "" && ulid !in mintedBy
      modifies `calls, `mintedBy
      ensures Inv(Model()) && Model() == ResolveStep(old(Model()), c, found, o)
      ensures c in calls && calls[c].req == old(calls)[c].req && calls[c].pc == Issue
    {
      var k := calls[c];
      HasLocals(Model(), c);
      found := ulid;
      if k.existing != "" {
        found := k.existing;
      } else if k.req.machineId != "" && o.Done? {
        var rows := set h | h in hosts && SameMachine(hosts[h], k.req.machineId, k.org.value);
        if rows != {} {
          found :| found in rows;
          ResolveKeeps(Model(), c, found, o);
          calls := calls[c := k.(pc := Issue, host := Some(found))];
          return;
        }
        assert forall h :: h in hosts ==> h !in rows;
      }
      ResolveKeeps(Model(), c, found, o);
      calls := calls[c := k.(pc := Issue, host := Some(found))];
      if k.existing == "" {
        mintedBy := mintedBy[found := c];
      }
    }

    // Step 5: the CA overrides the CN with the host id.
    method IssueClient(c: CallId, serial: nat, accepted: bool)
      requires Inv(Model()) && At(Model(), c, Issue)
      modifies `calls
      ensures Inv(Model()) && Model() == IssueStep(old(Model()), c, serial, accepted)
      ensures c in calls && calls[c].req == old(calls)[c].req
      ensures calls[c].pc == if accepted then Stamp else Rejected(InvalidArgument)
    {
      IssueKeeps(Model(), c, serial, accepted);
      var k := calls[c];
      HasLocals(Model(), c);
      if !accepted {
        calls := calls[c := k.(pc := Rejected(InvalidArgument))];
        return;
      }
      calls := calls[c := k.(pc := Stamp,
                         cert := Some(Cert(k.host.value, k.req.csr, serial, clock + CLIENT_CERT_TTL)))];
    }

    // now := time.Now()
    method StampNow(c: CallId)
      requires Inv(Model()) && At(Model(), c, Stamp)
      modifies `calls
      ensures Inv(Model()) && Model() == StampStep(old(Model()), c)
      ensures c in calls && calls[c].req == old(calls)[c].req && calls[c].pc == Upsert
    {
      StampKeeps(Model(), c);
      calls := calls[c := calls[c].(pc := Upsert, now := Some(clock))];
    }

    // Step 6: INSERT .. ON CONFLICT (id) DO UPDATE, under the unique index on machine id and org.
    method UpsertHost(c: CallId, o: Outcome) returns (ok: bool)
      requires Inv(Model()) && At(Model(), c, Upsert)
      modifies `calls, `hosts
      ensures Inv(Model()) && Model() == UpsertStep(old(Model()), c, o)
      ensures c in calls && calls[c].req == old(calls)[c].req
      ensures if ok then calls[c].pc == MarkToken || calls[c].pc == Record else calls[c].pc == Rejected(Internal)
    {
      UpsertKeeps(Model(), c, o);
      var k := calls[c];
      HasLocals(Model(), c);
      var machine := if k.req.machineId == "" then None else Some(k.req.machineId);
      var row := HostRow(k.req.hostname, k.req.details, machine, k.org.value);
      var clashing := Clashing(hosts, k.host.value, row);
      ClashingMeansConflict(Model(), k.host.value, row);
      if o.FailedBefore? || clashing != {} {
        calls := calls[c := k.(pc := Rejected(Internal))];
        return false;
      }
      hosts := hosts[k.host.value := row];
      if o.FailedAfter? {
        calls := calls[c := k.(pc := Rejected(Internal))];
        return false;
      }
      calls := calls[c := k.(pc := if k.token.Some? && k.token.value != "" then MarkToken else Record)];
      return true;
    }

    // Step 7: a failure is logged only.
    method SetUsedBy(c: CallId, o: Outcome)
      requires Inv(Model()) && At(Model(), c, MarkToken)
      modifies `calls, `tokens
      ensures Inv(Model()) && Model() == MarkTokenStep(old(Model()), c, o)
      ensures c in calls && calls[c].req == old(calls)[c].req && calls[c].pc == Record
    {
      MarkTokenKeeps(Model(), c, o);
      var k := calls[c];
      HasLocals(Model(), c);
      if !o.FailedBefore? && k.token.value in tokens {
        tokens := tokens[k.token.value := tokens[k.token.value].(usedBy := k.host)];
      }
      calls := calls[c := k.(pc := Record)];
    }

    // Step 8: INSERT INTO agent_identities, under its foreign key and its unique fingerprint index.
    method InsertIdentity(c: CallId, o: Outcome) returns (ok: bool)
      requires Inv(Model()) && At(Model(), c, Record)
      modifies `calls, `identities
      ensures Inv(Model()) && Model() == RecordStep(old(Model()), c, o)
      ensures c in calls && calls[c].req == old(calls)[c].req
      ensures calls[c].pc == if ok then Returned else Rejected(Internal)
    {
      RecordKeeps(Model(), c, o);
      var k := calls[c];
      HasLocals(Model(), c);
      var row := IdentityRow(k.host.value, k.cert.value, k.now.value + CLIENT_CERT_TTL);
      if o.FailedBefore? || k.host.value !in hosts || AlreadyRecorded(identities, k.cert.value) {
        calls := calls[c := k.(pc := Rejected(Internal))];
        return false;
      }
      identities := identities + [row];
      if o.FailedAfter? {
        calls := calls[c := k.(pc := Rejected(Internal))];
        return false;
      }
      calls := calls[c := k.(pc := Returned)];
      return true;
    }

    // ---------- the call, step by step, with the others' steps in front of each ----------

    // Lets the rest of the server act; the call's own record stays as it is.
    method Interleave(c: CallId, events: seq<Event>)
      requires Inv(Model()) && c in calls && NotBy(events, c)
      modifies this
      ensures Inv(Model()) && Model() == Run(old(Model()), events)
      ensures c in calls && calls[c] == old(calls)[c]
    {
      OthersKeepCall(Model(), events, c);
      Others(events);
    }

    method Authentication(c: CallId, plan: Plan) returns (ok: bool, row: TokenId, ghost trace: seq<Event>)
      requires Inv(Model()) && At(Model(), c, Authenticate) && ValidPlan(plan, c)
      modifies this
      ensures trace == plan.others[0] + [DoAuthenticate(c, row, plan.authenticate)]
      ensures Inv(Model()) && Model() == Run(old(Model()), trace)
      ensures c in calls && calls[c].req == old(calls)[c].req
      ensures if ok then calls[c].pc == Resolve else calls[c].pc.Rejected?
    {
      ghost var s0 := Model();
      Interleave(c, plan.others[0]);
      row := "";
      if calls[c].reEnroll {
        ok := SelectOrg(c, plan.authenticate);
      } else {
        ok, row := ClaimToken(c, plan.authenticate);
      }
      RunThen(s0, plan.others[0], DoAuthenticate(c, row, plan.authenticate));
      trace := plan.others[0] + [DoAuthenticate(c, row, plan.authenticate)];
    }

    method Resolution(c: CallId, plan: Plan) returns (found: HostId, ghost trace: seq<Event>)
      requires Inv(Model()) && At(Model(), c, Resolve) && ValidPlan(plan, c)
      modifies this
      ensures trace == plan.others[1] + [DoResolve(c, found, plan.lookup)]
      ensures Inv(Model()) && Model() == Run(old(Model()), trace)
      ensures c in calls && calls[c].req == old(calls)[c].req && calls[c].pc == Issue
    {
      ghost var s0 := Model();
      Interleave(c, plan.others[1]);
      found := ResolveHostID(c, plan.lookup, plan.ulid(mintedBy.Keys));
      RunThen(s0, plan.others[1], DoResolve(c, found, plan.lookup));
      trace := plan.others[1] + [DoResolve(c, found, plan.lookup)];
    }

    method Certification(c: CallId, plan: Plan) returns (ghost trace: seq<Event>)
      requires Inv(Model()) && At(Model(), c, Issue) && ValidPlan(plan, c)
      modifies this
      ensures trace == plan.others[2] + [DoIssue(c, plan.serial, plan.csrAccepted)]
      ensures Inv(Model()) && Model() == Run(old(Model()), trace)
      ensures c in calls && calls[c].req == old(calls)[c].req
      ensures calls[c].pc == if plan.csrAccepted then Stamp else Rejected(InvalidArgument)
    {
      ghost var s0 := Model();
      Interleave(c, plan.others[2]);
      IssueClient(c, plan.serial, plan.csrAccepted);
      RunThen(s0, plan.others[2], DoIssue(c, plan.serial, plan.csrAccepted));
      trace := plan.others[2] + [DoIssue(c, plan.serial, plan.csrAccepted)];
    }

    method Stamping(c: CallId, plan: Plan) returns (ghost trace: seq<Event>)
      requires Inv(Model()) && At(Model(), c, Stamp) && ValidPlan(plan, c)
      modifies this
      ensures trace == plan.others[3] + [DoStamp(c)]
      ensures Inv(Model()) && Model() == Run(old(Model()), trace)
      ensures c in calls && calls[c].req == old(calls)[c].req && calls[c].pc == Upsert
    {
      ghost var s0 := Model();
      Interleave(c, plan.others[3]);
      StampNow(c);
      RunThen(s0, plan.others[3], DoStamp(c));
      trace := plan.others[3] + [DoStamp(c)];
    }

    method HostUpsert(c: CallId, plan: Plan) returns (ok: bool, ghost trace: seq<Event>)
      requires Inv(Model()) && At(Model(), c, Upsert) && ValidPlan(plan, c)
      modifies this
      ensures trace == plan.others[4] + [DoUpsert(c, plan.upsert)]
      ensures Inv(Model()) && Model() == Run(old(Model()), trace)
      ensures c in calls && calls[c].req == old(calls)[c].req
      ensures if ok then calls[c].pc == MarkToken || calls[c].pc == Record else calls[c].pc == Rejected(Internal)
    {
      ghost var s0 := Model();
      Interleave(c, plan.others[4]);
      ok := UpsertHost(c, plan.upsert);
      RunThen(s0, plan.others[4], DoUpsert(c, plan.upsert));
      trace := plan.others[4] + [DoUpsert(c, plan.upsert)];
    }

    method TokenMark(c: CallId, plan: Plan) returns (ghost trace: seq<Event>)
      requires Inv(Model()) && At(Model(), c, MarkToken) && ValidPlan(plan, c)
      modifies this
      ensures trace == plan.others[5] + [DoMarkToken(c, plan.markToken)]
      ensures Inv(Model()) && Model() == Run(old(Model()), trace)
      ensures c in calls && calls[c].req == old(calls)[c].req && calls[c].pc == Record
    {
      ghost var s0 := Model();
      Interleave(c, plan.others[5]);
      SetUsedBy(c, plan.markToken);
      RunThen(s0, plan.others[5], DoMarkToken(c, plan.markToken));
      trace := plan.others[5] + [DoMarkToken(c, plan.markToken)];
    }

    method Recording(c: CallId, plan: Plan) returns (ok: bool, ghost trace: seq<Event>)
      requires Inv(Model()) && At(Model(), c, Record) && ValidPlan(plan, c)
      modifies this
      ensures trace == plan.others[6] + [DoRecord(c, plan.record)]
      ensures Inv(Model()) && Model() == Run(old(Model()), trace)
      ensures c in calls && calls[c].req == old(calls)[c].req
      ensures calls[c].pc == if ok then Returned else Rejected(Internal)
    {
      ghost var s0 := Model();
      Interleave(c, plan.others[6]);
      ok := InsertIdentity(c, plan.record);
      RunThen(s0, plan.others[6], DoRecord(c, plan.record));
      trace := plan.others[6] + [DoRecord(c, plan.record)];
    }

    method Respond(c: CallId) returns (r: Reply)
      requires Inv(Model()) && At(Model(), c, Returned)
      ensures EndedWith(calls[c], r) && r.Enrolled? && Backed(Model(), calls[c], r)
    {
      var k := calls[c];
      assert CallOk(Model(), c, k);
      var row := IdentityRow(k.host.value, k.cert.value, k.now.value + CLIENT_CERT_TTL);
      assert row in identities;
      return Enrolled(k.host.value, k.cert.value);
    }

    method Opening(c: CallId, req: Request) returns (ok: bool, ghost trace: seq<Event>)
      requires Inv(Model()) && c !in calls && (req.peer.Some? ==> Issued(Model(), req.peer.value))
      modifies `calls
      ensures trace == [DoBegin(c, req)]
      ensures Inv(Model()) && Model() == Run(old(Model()), trace)
      ensures c in calls && calls[c].req == req
      ensures calls[c].pc == if ok then Authenticate else Rejected(InvalidArgument)
    {
      trace := [DoBegin(c, req)];
      RunThen(Model(), [], DoBegin(c, req));
      assert [] + [DoBegin(c, req)] == trace;
      ok := Begin(c, req);
    }

    // Steps 3 to 5: who is enrolling, under which host id and certificate.
    method Admit(c: CallId, plan: Plan)
      returns (ok: bool, ghost row: TokenId, ghost found: HostId, ghost trace: seq<Event>)
      requires Inv(Model()) && At(Model(), c, Authenticate) && ValidPlan(plan, c)
      modifies this
      ensures if ok then trace == AdmitSchedule(c, row, found, plan) else trace <= AdmitSchedule(c, row, found, plan)
      ensures Inv(Model()) && Model() == Run(old(Model()), trace)
      ensures c in calls && calls[c].req == old(calls)[c].req
      ensures if ok then calls[c].pc == Stamp else calls[c].pc.Rejected?
    {
      ghost var s0, part := Model(), [];
      found := "";
      ok, row, trace := Authentication(c, plan);
      if !ok {
        return;
      }
      found, part := Resolution(c, plan);
      trace := Joined(s0, trace, part);
      part := Certification(c, plan);
      trace := Joined(s0, trace, part);
      ok := plan.csrAccepted;
    }

    // Steps 6 to 8: the host row, the token's host and the identity.
    method Register(c: CallId, plan: Plan) returns (ok: bool, ghost marks: bool, ghost trace: seq<Event>)
      requires Inv(Model()) && At(Model(), c, Stamp) && ValidPlan(plan, c)
      modifies this
      ensures if ok then trace == RegisterSchedule(c, marks, plan) else trace <= RegisterSchedule(c, marks, plan)
      ensures Inv(Model()) && Model() == Run(old(Model()), trace)
      ensures c in calls && calls[c].req == old(calls)[c].req
      ensures calls[c].pc == if ok then Returned else Rejected(Internal)
    {
      ghost var s0, part := Model(), [];
      marks := false;
      trace := Stamping(c, plan);
      ok, part := HostUpsert(c, plan);
      trace := Joined(s0, trace, part);
      if !ok {
        return;
      }
      if calls[c].pc == MarkToken {
        marks := true;
        part := TokenMark(c, plan);
        trace := Joined(s0, trace, part);
      }
      ok, part := Recording(c, plan);
      trace := Joined(s0, trace, part);
    }

    // Main result: whatever the other goroutines do between its statements, and whichever statements
    // fail, Enroll performs its statements in order as far as the point at which its record ends, with
    // the reply that record shows; a reply with a certificate is backed by a host row and a recorded
    // identity.
    method Enroll(c: CallId, req: Request, plan: Plan)
      returns (r: Reply, ghost row: TokenId, ghost found: HostId, ghost marks: bool, ghost trace: seq<Event>)
      requires Inv(Model()) && c !in calls && (req.peer.Some? ==> Issued(Model(), req.peer.value)) && ValidPlan(plan, c)
      modifies this
      ensures trace <= EnrollSchedule(c, req, row, found, marks, plan)
      ensures Inv(Model()) && Model() == Run(old(Model()), trace)
      ensures c in calls && calls[c].req == req && EndedWith(calls[c], r)
      ensures r.Enrolled? ==> Backed(Model(), calls[c], r)
    {
      ghost var s0, part := Model(), [];
      row, found, marks := "", "", false;
      var ok;
      ok, trace := Opening(c, req);
      if !ok {
        return Failed(InvalidArgument), row, found, marks, trace;
      }
      ok, row, found, part := Admit(c, plan);
      trace := Joined(s0, trace, part);
      if !ok {
        return Failed(calls[c].pc.code), row, found, marks, trace;
      }
      ok, marks, part := Register(c, plan);
      trace := Joined(s0, trace, part);
      if !ok {
        return Failed(Internal), row, found, marks, trace;
      }
      r := Respond(c);
    }
  }

  // A reply's certificate is for its agent id, a host of the org that authenticated, and an identity
  // that lives at least as long is on record.
  ghost predicate Backed(s: State, k: Call, r: Reply)
    requires r.Enrolled?
  {
    && r.cert.cn == r.agentId && r.cert.csr == k.req.csr
    && r.agentId in s.hosts && k.org == Some(s.hosts[r.agentId].org)
    && exists row :: row in s.identities && row.host == r.agentId && row.cert == r.cert
                        && row.expiresAt >= r.cert.notAfter
  }

  lemma Joined(s: State, before: seq<Event>, after: seq<Event>) returns (trace: seq<Event>)
    ensures trace == before + after && Run(s, trace) == Run(Run(s, before), after)
  {
    trace := before + after;
    RunSplit(s, before, after);
  }
}
