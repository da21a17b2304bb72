// What enrollment achieves when nothing fails in between, and why an agent id is only as stable as
// the machine id its renewals report.
module EnrollmentOutcomes {
  import opened Base
  import opened Enrollment
  import opened EnrollmentSafety
  import opened EnrollmentTheorems
  import opened EnrollmentEffects
  import TokenCodec

  // The steps of one call without faults. For a renewal `row` and `h` are not used and the
  // MarkToken step does nothing.
  function Uninterrupted(c: CallId, req: Request, row: TokenId, h: HostId, serial: nat): seq<Event> {
    [DoBegin(c, req), DoAuthenticate(c, row, Done), DoResolve(c, h, Done), DoIssue(c, serial, true),
     DoStamp(c), DoUpsert(c, Done), DoMarkToken(c, Done), DoRecord(c, Done)]
  }

  lemma RunFour(s: State, a: Event, b: Event, c: Event, d: Event)
    ensures Run(s, [a, b, c, d]) == Step(Step(Step(Step(s, a), b), c), d)
  {
    assert [a, b, c, d][1..] == [b, c, d] && [b, c, d][1..] == [c, d] && [c, d][1..] == [d] && [d][1..] == [];
    assert Run(s, [a, b, c, d]) == Run(Step(s, a), [b, c, d]);
    assert Run(Step(s, a), [b, c, d]) == Run(Step(Step(s, a), b), [c, d]);
    assert Run(Step(Step(s, a), b), [c, d]) == Run(Step(Step(Step(s, a), b), c), [d]);
    assert Run(Step(Step(Step(s, a), b), c), [d]) == Run(Step(Step(Step(Step(s, a), b), c), d), []);
  }

  ghost predicate GoodRequest(req: Request) {
    req.csr != "" && req.hostname != ""
  }

  // A connection without a verified certificate, or with one past its validity.
  ghost predicate NotRenewing(s: State, req: Request) {
    req.peer.None? || (Issued(s, req.peer.value) && req.peer.value.notAfter <= s.clock)
  }

  ghost predicate Holds(row: HostRow, machine: string, org: string) {
    row.machine == Some(machine) && row.org == org
  }

  // What the lookup by machine id and the id generator allow as the id of a first enrollment.
  ghost predicate Resolvable(s: State, req: Request, org: string, h: HostId) {
    if req.machineId != "" && exists g :: g in s.hosts && Holds(s.hosts[g], req.machineId, org) then
      h in s.hosts && Holds(s.hosts[h], req.machineId, org)
    else h != "" && h !in s.mintedBy
  }

  ghost predicate FreshSerial(s: State, serial: nat) {
    forall i :: 0 <= i < |s.identities| ==> s.identities[i].cert.serial != serial
  }

  // The tables after a call wrote its host row and recorded its identity.
  ghost predicate Wrote(s: State, s': State, c: CallId, req: Request, h: HostId, org: string, serial: nat) {
    var expiry := s.clock + 24 * 3600 * SECOND;
    var cert := Cert(h, req.csr, serial, expiry);
    && s'.clock == s.clock
    && s'.hosts == s.hosts[h := HostRow(req.hostname, req.details, MachineOf(req), org)]
    && s'.identities == s.identities + [IdentityRow(h, cert, expiry)]
    && s'.calls.Keys == s.calls.Keys + {c}
    && s'.calls[c].pc == Returned && s'.calls[c].req == req && s'.calls[c].org == Some(org)
    && s'.calls[c].host == Some(h) && s'.calls[c].cert == Some(cert)
    && (forall d :: d in s.calls && d != c ==> s'.calls[d] == s.calls[d])
  }

  // ---------- the common tail: issue, stamp, upsert, mark, record ----------

  lemma IssueAndStamp(s: State, c: CallId, serial: nat)
    requires At(s, c, Issue) && s.calls[c].host.Some?
    ensures
      var k := s.calls[c];
      StampStep(IssueStep(s, c, serial, true), c)
        == Put(s, c, k.(pc := Upsert, now := Some(s.clock),
                        cert := Some(Cert(k.host.value, k.req.csr, serial, s.clock + CLIENT_CERT_TTL))))
  {
    var s1 := IssueStep(s, c, serial, true);
    assert StampStep(s1, c).calls == s.calls[c := StampStep(s1, c).calls[c]];
  }

  // After the row is written: MarkToken, which does nothing for a call without a token, and Record.
  lemma MarkAndRecord(s: State, c: CallId)
    requires At(s, c, MarkToken) || At(s, c, Record)
    requires
      var k := s.calls[c];
      && k.host.Some? && k.cert.Some? && k.now.Some? && k.host.value in s.hosts
      && (k.pc == MarkToken ==> k.token.Some? && k.token.value in s.tokens)
      && !AlreadyRecorded(s.identities, k.cert.value)
    ensures
      var k := s.calls[c];
      var s' := RecordStep(MarkTokenStep(s, c, Done), c, Done);
      && s'.clock == s.clock && s'.hosts == s.hosts
      && s'.identities == s.identities + [IdentityOf(k)]
      && s'.calls == s.calls[c := k.(pc := Returned)]
      && s'.tokens == if k.pc == MarkToken then s.tokens[k.token.value := s.tokens[k.token.value].(usedBy := k.host)]
                        else s.tokens
  {
    var s1 := MarkTokenStep(s, c, Done);
    assert s1.identities == s.identities && s1.hosts == s.hosts;
  }

  lemma UpsertWrites(s: State, c: CallId)
    requires At(s, c, Upsert) && s.calls[c].host.Some? && s.calls[c].org.Some?
    requires !Conflicts(s, s.calls[c].host.value, RowOf(s.calls[c]))
    ensures
      var k := s.calls[c];
      UpsertStep(s, c, Done)
        == s.(hosts := s.hosts[k.host.value := RowOf(k)],
              calls := s.calls[c := k.(pc := if k.token.Some? && k.token.value != "" then MarkToken else Record)])
  {
  }

  function Tail(s: State, c: CallId, serial: nat): State {
    RecordStep(MarkTokenStep(UpsertStep(StampStep(IssueStep(s, c, serial, true), c), c, Done), c, Done), c, Done)
  }

  lemma TailWrites(s: State, c: CallId, serial: nat)
    requires At(s, c, Issue)
    requires
      var k := s.calls[c];
      && k.host.Some? && k.org.Some?
      && !Conflicts(s, k.host.value, RowOf(k)) && FreshSerial(s, serial)
      && (k.token.Some? ==> k.token.value in s.tokens && k.token.value != "")
    ensures
      var k := s.calls[c];
      var s' := Tail(s, c, serial);
      && Wrote(s, s', c, k.req, k.host.value, k.org.value, serial)
      && s'.tokens == if k.token.Some? then s.tokens[k.token.value := s.tokens[k.token.value].(usedBy := k.host)]
                        else s.tokens
  {
    IssueAndStamp(s, c, serial);
    var s1 := StampStep(IssueStep(s, c, serial, true), c);
    var k := s1.calls[c];
    assert !Conflicts(s1, k.host.value, RowOf(k));
    UpsertWrites(s1, c);
    MarkAndRecord(UpsertStep(s1, c, Done), c);
  }

  // The head of a call changes nothing that Wrote reads but the call itself.
  lemma WroteFrom(s: State, s1: State, s': State, c: CallId, req: Request, h: HostId, org: string, serial: nat)
    requires Wrote(s1, s', c, req, h, org, serial)
    requires s1.clock == s.clock && s1.hosts == s.hosts && s1.identities == s.identities
    requires c in s1.calls && s1.calls == s.calls[c := s1.calls[c]]
    ensures Wrote(s, s', c, req, h, org, serial)
  {
  }

  // ---------- first enrollment ----------

  lemma Admission(s: State, c: CallId, req: Request, row: TokenId)
    requires c !in s.calls && NotRenewing(s, req) && GoodRequest(req)
    requires TokenCodec.WellFormed(req.token) && row in ClaimSet(s, req.token)
    ensures
      AuthenticateStep(BeginStep(s, c, req), c, row, Done)
        == Put(Claim(s, c, ClaimSet(s, req.token)), c,
               Call(Resolve, req, false, "", Some(row), Some(s.tokens[row].org), None, None, None))
  {
    var s1 := BeginStep(s, c, req);
    assert s1 == Put(s, c, Call(Authenticate, req, false, "", None, None, None, None, None));
    assert ClaimSet(s1, req.token) == ClaimSet(s, req.token);
    var s2 := Put(Claim(s, c, ClaimSet(s, req.token)), c,
                  Call(Resolve, req, false, "", Some(row), Some(s.tokens[row].org), None, None, None));
    assert AuthenticateStep(s1, c, row, Done).calls == s2.calls;
  }

  lemma Resolution(s: State, c: CallId, h: HostId)
    requires At(s, c, Resolve) && s.calls[c].existing == "" && s.calls[c].org.Some?
    requires Resolvable(s, s.calls[c].req, s.calls[c].org.value, h)
    ensures
      var s' := ResolveStep(s, c, h, Done);
      && s'.clock == s.clock && s'.tokens == s.tokens && s'.hosts == s.hosts && s'.identities == s.identities
      && s'.calls == s.calls[c := s.calls[c].(pc := Issue, host := Some(h))]
  {
  }

  lemma ResolvableHasNoConflict(s: State, k: Call, h: HostId)
    requires Inv(s) && k.org.Some? && Resolvable(s, k.req, k.org.value, h)
    ensures !Conflicts(s, h, RowOf(k))
  {
    forall g | g in s.hosts && g != h && h in s.hosts && RowOf(k).machine.Some?
      ensures SameMachine(s.hosts[g], RowOf(k).machine.value, RowOf(k).org)
          ==> !SameMachine(s.hosts[h], RowOf(k).machine.value, RowOf(k).org)
    {
      assert !Clash(s.hosts, g, h);
    }
  }

  function Head(s: State, c: CallId, req: Request, row: TokenId, h: HostId): State {
    ResolveStep(AuthenticateStep(BeginStep(s, c, req), c, row, Done), c, h, Done)
  }

  lemma HeadClaims(s: State, c: CallId, req: Request, row: TokenId, h: HostId)
    requires c !in s.calls && NotRenewing(s, req) && GoodRequest(req)
    requires TokenCodec.WellFormed(req.token) && row in ClaimSet(s, req.token)
    requires Resolvable(s, req, s.tokens[row].org, h)
    ensures
      var s' := Head(s, c, req, row, h);
      && s'.clock == s.clock && s'.hosts == s.hosts && s'.identities == s.identities
      && s'.tokens == Claim(s, c, ClaimSet(s, req.token)).tokens
      && s'.calls == s.calls[c := Call(Issue, req, false, "", Some(row), Some(s.tokens[row].org), Some(h), None, None)]
  {
    Admission(s, c, req, row);
    HeadFromClaim(s, Claim(s, c, ClaimSet(s, req.token)), c,
                  Call(Resolve, req, false, "", Some(row), Some(s.tokens[row].org), None, None, None), h);
  }

  lemma HeadFromClaim(s: State, claimed: State, c: CallId, k: Call, h: HostId)
    requires claimed.clock == s.clock && claimed.hosts == s.hosts && claimed.identities == s.identities
    requires claimed.calls == s.calls && claimed.mintedBy == s.mintedBy
    requires k.pc == Resolve && k.existing == "" && k.org.Some? && Resolvable(s, k.req, k.org.value, h)
    ensures
      var s' := ResolveStep(Put(claimed, c, k), c, h, Done);
      && s'.clock == s.clock && s'.hosts == s.hosts && s'.identities == s.identities
      && s'.tokens == claimed.tokens
      && s'.calls == s.calls[c := k.(pc := Issue, host := Some(h))]
  {
    StillResolves(s, Put(claimed, c, k), k.req, k.org.value, h);
    Resolution(Put(claimed, c, k), c, h);
  }

  lemma StillResolves(s: State, s1: State, req: Request, org: string, h: HostId)
    requires Resolvable(s, req, org, h) && s1.hosts == s.hosts && s1.mintedBy == s.mintedBy
    ensures Resolvable(s1, req, org, h)
  {
  }

  lemma RunEight(s: State, a: Event, b: Event, c: Event, d: Event, e: Event, f: Event, g: Event, h: Event)
    ensures Run(s, [a, b, c, d, e, f, g, h])
         == Step(Step(Step(Step(Step(Step(Step(Step(s, a), b), c), d), e), f), g), h)
  {
    RunSplit(s, [a, b, c, d], [e, f, g, h]);
    assert [a, b, c, d, e, f, g, h] == [a, b, c, d] + [e, f, g, h];
    RunFour(s, a, b, c, d);
    RunFour(Run(s, [a, b, c, d]), e, f, g, h);
  }

  lemma UninterruptedRun(s: State, c: CallId, req: Request, row: TokenId, h: HostId, serial: nat)
    ensures Run(s, Uninterrupted(c, req, row, h, serial)) == Tail(Head(s, c, req, row, h), c, serial)
  {
    RunEight(s, DoBegin(c, req), DoAuthenticate(c, row, Done), DoResolve(c, h, Done), DoIssue(c, serial, true),
             DoStamp(c), DoUpsert(c, Done), DoMarkToken(c, Done), DoRecord(c, Done));
  }

  lemma FirstTail(s: State, s1: State, c: CallId, serial: nat)
    requires Inv(s) && c in s1.calls && s1.calls[c].org.Some? && s1.calls[c].host.Some? && s1.calls[c].token.Some?
    requires At(s1, c, Issue) && Resolvable(s, s1.calls[c].req, s1.calls[c].org.value, s1.calls[c].host.value)
    requires s1.clock == s.clock && s1.hosts == s.hosts && s1.identities == s.identities
    requires s1.calls == s.calls[c := s1.calls[c]] && FreshSerial(s, serial)
    requires s1.calls[c].token.value in s1.tokens && s1.calls[c].token.value != ""
    ensures
      var k := s1.calls[c];
      && Wrote(s, Tail(s1, c, serial), c, k.req, k.host.value, k.org.value, serial)
      && Tail(s1, c, serial).tokens == s1.tokens[k.token.value := s1.tokens[k.token.value].(usedBy := k.host)]
  {
    var k := s1.calls[c];
    assert !Conflicts(s1, k.host.value, RowOf(k)) by {
      ResolvableHasNoConflict(s, k, k.host.value);
    }
    TailWrites(s1, c, serial);
    WroteFrom(s, s1, Tail(s1, c, serial), c, k.req, k.host.value, k.org.value, serial);
  }

  lemma FirstRun(s: State, c: CallId, req: Request, row: TokenId, h: HostId, serial: nat)
    requires Inv(s) && c !in s.calls && NotRenewing(s, req) && GoodRequest(req)
    requires TokenCodec.WellFormed(req.token) && row in ClaimSet(s, req.token) && row != ""
    requires Resolvable(s, req, s.tokens[row].org, h) && FreshSerial(s, serial)
    ensures
      var s' := Run(s, Uninterrupted(c, req, row, h, serial));
      var claimed := Claim(s, c, ClaimSet(s, req.token)).tokens;
      && Inv(s') && Wrote(s, s', c, req, h, s.tokens[row].org, serial)
      && row in claimed && s'.tokens == claimed[row := claimed[row].(usedBy := Some(h))]
  {
    RunKeeps(s, Uninterrupted(c, req, row, h, serial));
    UninterruptedRun(s, c, req, row, h, serial);
    HeadClaims(s, c, req, row, h);
    FirstTail(s, Head(s, c, req, row, h), c, serial);
  }

  // Main result: a first enrollment with a usable token, also over a connection whose certificate is
  // past its validity, run without faults or interference, uses that token for the host it resolves,
  // writes exactly the requested row and returns a recorded certificate. The other token rows are
  // unchanged, except that all usable rows with the token's hash are marked used.
  lemma FirstEnrollmentSucceeds(s: State, c: CallId, req: Request, row: TokenId, h: HostId, serial: nat)
    requires Inv(s) && c !in s.calls && NotRenewing(s, req) && GoodRequest(req)
    requires TokenCodec.WellFormed(req.token) && row != ""
    requires row in s.tokens && Usable(s.tokens[row], req.token, s.clock)
    requires Resolvable(s, req, s.tokens[row].org, h) && FreshSerial(s, serial)
    ensures
      var s' := Run(s, Uninterrupted(c, req, row, h, serial));
      && Inv(s')
      && Wrote(s, s', c, req, h, s.tokens[row].org, serial)
      && s'.tokens.Keys == s.tokens.Keys
      && forall t :: t in s.tokens ==>
           s'.tokens[t] == if t == row then s.tokens[t].(usedAt := Some(s.clock), usedBy := Some(h))
                           else if Usable(s.tokens[t], req.token, s.clock) then s.tokens[t].(usedAt := Some(s.clock))
                           else s.tokens[t]
  {
    ClaimedRows(s, c, req.token);
    FirstRun(s, c, req, row, h, serial);
  }

  // ---------- renewal ----------

  lemma RenewalHead(s: State, c: CallId, req: Request, row: TokenId, h: HostId)
    requires Inv(s) && c !in s.calls && GoodRequest(req)
    requires req.peer.Some? && Issued(s, req.peer.value) && req.peer.value.notAfter > s.clock
    requires req.peer.value.cn in s.hosts
    ensures
      var cn := req.peer.value.cn;
      var s' := Head(s, c, req, row, h);
      && s'.clock == s.clock && s'.hosts == s.hosts && s'.identities == s.identities && s'.tokens == s.tokens
      && s'.calls == s.calls[c := Call(Issue, req, true, cn, None, Some(s.hosts[cn].org), Some(cn), None, None)]
  {
    var cn := req.peer.value.cn;
    assert cn != "" by {
      assert HostOk(s, cn) && MintOk(s, cn);
    }
    var k := Call(Authenticate, req, true, cn, None, None, None, None, None);
    assert BeginStep(s, c, req) == Put(s, c, k);
    var s1 := Put(s, c, k);
    var s2 := AuthenticateByCert(s1, c, Done);
    assert s2.calls == s.calls[c := k.(pc := Resolve, org := Some(s.hosts[cn].org))];
    assert ResolveStep(s2, c, h, Done).calls
         == s.calls[c := k.(pc := Issue, org := Some(s.hosts[cn].org), host := Some(cn))];
  }

  // Main result: a renewal without faults or interference writes the requested row under the
  // certificate's host id and org, returns a recorded certificate, and touches no token.
  lemma RenewalSucceeds(s: State, c: CallId, req: Request, serial: nat)
    requires Inv(s) && c !in s.calls && GoodRequest(req) && FreshSerial(s, serial)
    requires req.peer.Some? && Issued(s, req.peer.value) && req.peer.value.notAfter > s.clock
    requires req.peer.value.cn in s.hosts
    requires forall g :: g in s.hosts && g != req.peer.value.cn && s.hosts[g].org == s.hosts[req.peer.value.cn].org
               ==> req.machineId == "" || s.hosts[g].machine != Some(req.machineId)
    ensures
      var cn := req.peer.value.cn;
      var s' := Run(s, Uninterrupted(c, req, "", "", serial));
      && Inv(s') && Wrote(s, s', c, req, cn, s.hosts[cn].org, serial) && s'.tokens == s.tokens
  {
    RunKeeps(s, Uninterrupted(c, req, "", "", serial));
    UninterruptedRun(s, c, req, "", "", serial);
    RenewalHead(s, c, req, "", "");
    RenewalTail(s, Head(s, c, req, "", ""), c, serial);
  }

  lemma RenewalTail(s: State, s1: State, c: CallId, serial: nat)
    requires At(s1, c, Issue) && s1.calls[c].org.Some? && s1.calls[c].host.Some? && s1.calls[c].token.None?
    requires s1.clock == s.clock && s1.hosts == s.hosts && s1.identities == s.identities && s1.tokens == s.tokens
    requires s1.calls == s.calls[c := s1.calls[c]] && FreshSerial(s, serial)
    requires !Conflicts(s, s1.calls[c].host.value, RowOf(s1.calls[c]))
    ensures
      var k := s1.calls[c];
      && Wrote(s, Tail(s1, c, serial), c, k.req, k.host.value, k.org.value, serial)
      && Tail(s1, c, serial).tokens == s.tokens
  {
    var k := s1.calls[c];
    assert !Conflicts(s1, k.host.value, RowOf(k));
    TailWrites(s1, c, serial);
    WroteFrom(s, s1, Tail(s1, c, serial), c, k.req, k.host.value, k.org.value, serial);
  }

  // ---------- how stable an agent id is ----------

  // Main result: whatever happened before and whatever happens later, a first enrollment that resolves
  // its id gets the id of host g exactly if the lookup succeeds and g's row has its machine id and org
  // at that moment. So a row under another machine id and an error of the lookup both lose the id.
  lemma NextEnrollmentReturns(t0: Time, before: seq<Event>, d: CallId, found: HostId, o: Outcome,
                              after: seq<Event>, g: HostId)
    requires
      var s := Run(Init(t0), before);
      && At(s, d, Resolve) && !s.calls[d].reEnroll && s.calls[d].req.machineId != "" && g in s.hosts
      && At(ResolveStep(s, d, found, o), d, Issue)
    ensures
      var s := Run(Init(t0), before);
      var s' := Run(Step(s, DoResolve(d, found, o)), after);
      && d in s'.calls && s.calls[d].org.Some?
      && (s'.calls[d].host == Some(g) <==>
          o.Done? && s.hosts[g].machine == Some(s.calls[d].req.machineId) && s.calls[d].org == Some(s.hosts[g].org))
  {
    var s := Run(Init(t0), before);
    InitOk(t0);
    RunKeeps(Init(t0), before);
    ResolvesTo(s, d, found, o, g);
    ResolveKeeps(s, d, found, o);
    RunKeeps(ResolveStep(s, d, found, o), after);
    assert CallGrows(ResolveStep(s, d, found, o).calls[d], Run(ResolveStep(s, d, found, o), after).calls[d]);
  }

  lemma ResolvesTo(s: State, d: CallId, found: HostId, o: Outcome, g: HostId)
    requires Inv(s) && At(s, d, Resolve) && !s.calls[d].reEnroll && s.calls[d].req.machineId != "" && g in s.hosts
    requires At(ResolveStep(s, d, found, o), d, Issue)
    ensures
      var s' := ResolveStep(s, d, found, o);
      && s.calls[d].org.Some? && s'.calls[d].host.Some?
      && (s'.calls[d].host == Some(g) <==>
          o.Done? && s.hosts[g].machine == Some(s.calls[d].req.machineId) && s.calls[d].org == Some(s.hosts[g].org))
  {
    assert CallOk(s, d, s.calls[d]) && HostOk(s, g);
    assert found in s.hosts ==> !Clash(s.hosts, g, found);
  }

  // The lookup's error at work: although g's row matches, the call gets a fresh id, and as long as the
  // row stays its upsert runs into the unique index.
  lemma LookupErrorGivesFreshId(s: State, d: CallId, id: HostId, g: HostId)
    requires Inv(s) && At(s, d, Resolve) && !s.calls[d].reEnroll && s.calls[d].req.machineId != ""
    requires g in s.hosts && s.calls[d].org.Some?
    requires s.hosts[g].machine == Some(s.calls[d].req.machineId) && s.calls[d].org == Some(s.hosts[g].org)
    requires id != "" && id !in s.mintedBy
    ensures
      var s' := ResolveStep(s, d, id, FailedBefore);
      && At(s', d, Issue) && s'.calls[d].host == Some(id) && id != g
      && s'.calls[d].org.Some? && Conflicts(s', id, RowOf(s'.calls[d]))
  {
    assert CallOk(s, d, s.calls[d]) && HostOk(s, g);
  }

  lemma FreshId(ids: set<HostId>) returns (id: HostId)
    ensures id != "" && id !in ids
  {
    id := LongerThanAll(ids);
  }

  lemma {:induction false} LongerThanAll(ids: set<HostId>) returns (id: HostId)
    ensures |id| > 0 && forall x :: x in ids ==> |x| < |id|
    decreases ids
  {
    if ids == {} {
      id := "0";
    } else {
      var x :| x in ids;
      var rest := LongerThanAll(ids - {x});
      id := x + rest;
    }
  }

  lemma TwoTokens(t0: Time, p1: string, p2: string, org: string) returns (s: State, events: seq<Event>)
    requires p1 != p2
    ensures s == Run(Init(t0), events) && Inv(s) && s.clock == t0
    ensures s.hosts == map[] && s.identities == [] && s.calls == map[]
    ensures "1" in ClaimSet(s, p1) && "2" in ClaimSet(s, p2) && "2" !in ClaimSet(s, p1)
    ensures s.tokens["1"].org == org && s.tokens["2"].org == org
  {
    events := [InsertToken("1", p1, org, t0 + 1), InsertToken("2", p2, org, t0 + 1)];
    var s1 := InsertTokenStep(Init(t0), "1", p1, org, t0 + 1);
    s := InsertTokenStep(s1, "2", p2, org, t0 + 1);
    assert events[1..] == [InsertToken("2", p2, org, t0 + 1)];
    assert Run(s1, events[1..]) == Run(s, []);
    InitOk(t0);
    RunKeeps(Init(t0), events);
  }

  // Call 1 has enrolled `machine` as host a; `machineNow` is the machine id a's row has now.
  ghost predicate EnrolledOnce(s: State, a: HostId, machine: string, machineNow: string, org: string, p2: string) {
    && Inv(s)
    && a in s.hosts && s.hosts.Keys == {a} && SameMachine(s.hosts[a], machineNow, org)
    && At(s, 1, Returned) && s.calls[1].req.machineId == machine
    && s.calls[1].org == Some(org) && s.calls[1].host == Some(a) && s.calls[1].cert.Some?
    && "2" in ClaimSet(s, p2) && s.tokens["2"].org == org && FreshSerial(s, 3)
  }

  lemma FirstTime(t0: Time, p1: string, p2: string, machine: string, org: string)
    returns (s: State, events: seq<Event>, a: HostId)
    requires p1 != p2 && TokenCodec.WellFormed(p1) && machine != ""
    ensures s == Run(Init(t0), events) && EnrolledOnce(s, a, machine, machine, org, p2)
    ensures s.calls.Keys == {1} && FreshSerial(s, 2) && s.calls[1].cert.value.notAfter > s.clock
  {
    var s0, first := TwoTokens(t0, p1, p2, org);
    a := FreshId(s0.mintedBy.Keys);
    var req := Request(None, p1, "csr", "host", machine, "");
    FirstEnrollmentSucceeds(s0, 1, req, "1", a, 1);
    events := first + Uninterrupted(1, req, "1", a, 1);
    s := Run(s0, Uninterrupted(1, req, "1", a, 1));
    RunSplit(Init(t0), first, Uninterrupted(1, req, "1", a, 1));
    assert s.tokens["2"] == s0.tokens["2"];
    assert CallOk(s, 1, s.calls[1]);
  }

  lemma RenewedAs(s: State, a: HostId, machine: string, other: string, org: string, p2: string)
    returns (s': State, events: seq<Event>)
    requires EnrolledOnce(s, a, machine, machine, org, p2)
    requires s.calls.Keys == {1} && FreshSerial(s, 2) && s.calls[1].cert.value.notAfter > s.clock && other != ""
    ensures s' == Run(s, events) && EnrolledOnce(s', a, machine, other, org, p2) && s'.calls.Keys == {1, 2}
  {
    var req := Request(s.calls[1].cert, "", "csr", "host", other, "");
    assert Issued(s, req.peer.value);
    assert CallOk(s, 1, s.calls[1]);
    RenewalSucceeds(s, 2, req, 2);
    events := Uninterrupted(2, req, "", "", 2);
    s' := Run(s, events);
    assert forall i :: 0 <= i < |s'.identities| ==> s'.identities[i].cert.serial != 3;
  }

  // "Stable for the same machine and org" needs renewals to keep their machine id: here one machine
  // enrolls twice in one org and gets two agent ids, because the first host renewed under another
  // machine id in between.
  lemma MachineIdReassigned(t0: Time, p1: string, p2: string, machine: string, other: string, org: string)
    returns (events: seq<Event>, c: CallId, d: CallId)
    requires p1 != p2 && TokenCodec.WellFormed(p1) && TokenCodec.WellFormed(p2)
    requires machine != "" && other != machine && other != ""
    ensures
      var s := Run(Init(t0), events);
      && At(s, c, Returned) && At(s, d, Returned)
      && s.calls[c].req.machineId == s.calls[d].req.machineId == machine
      && s.calls[c].org == s.calls[d].org == Some(org)
      && s.calls[c].host != s.calls[d].host
  {
    var s1, e1, a := FirstTime(t0, p1, p2, machine, org);
    var s2, e2 := RenewedAs(s1, a, machine, other, org, p2);
    var b := FreshId(s2.mintedBy.Keys);
    assert HostOk(s2, a);
    var req := Request(None, p2, "csr", "host", machine, "");
    FirstEnrollmentSucceeds(s2, 3, req, "2", b, 3);
    var e3 := Uninterrupted(3, req, "2", b, 3);
    events, c, d := e1 + e2 + e3, 1, 3;
    RunSplit(Init(t0), e1, e2);
    RunSplit(Init(t0), e1 + e2, e3);
  }
}
