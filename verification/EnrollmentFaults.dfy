// A first enrollment that nobody interleaves with, under every combination of faults.
module EnrollmentFaults {
  import opened Base
  import opened Enrollment
  import opened EnrollmentSafety
  import opened EnrollmentTheorems
  import opened EnrollmentEffects
  import opened EnrollmentOutcomes
  import TokenCodec

  // How the five statements of the call and the CA answer.
  datatype Faults = Faults(claim: Outcome, csrAccepted: bool, upsert: Outcome, mark: Outcome, record: Outcome)

  function Steps(c: CallId, req: Request, row: TokenId, h: HostId, serial: nat, f: Faults): seq<Event> {
    [DoBegin(c, req), DoAuthenticate(c, row, f.claim), DoResolve(c, h, Done), DoIssue(c, serial, f.csrAccepted),
     DoStamp(c), DoUpsert(c, f.upsert), DoMarkToken(c, f.mark), DoRecord(c, f.record)]
  }

  function FaultyTail(s: State, c: CallId, serial: nat, f: Faults): State {
    var upserted := UpsertStep(StampStep(IssueStep(s, c, serial, f.csrAccepted), c), c, f.upsert);
    RecordStep(MarkTokenStep(upserted, c, f.mark), c, f.record)
  }

  // Which of the writes after the claim take effect.
  predicate WritesHost(f: Faults) {
    f.claim.Done? && f.csrAccepted && !f.upsert.FailedBefore?
  }

  predicate WritesUsedBy(f: Faults) {
    f.claim.Done? && f.csrAccepted && f.upsert.Done? && !f.mark.FailedBefore?
  }

  predicate WritesIdentity(f: Faults) {
    f.claim.Done? && f.csrAccepted && f.upsert.Done? && !f.record.FailedBefore?
  }

  function Ending(f: Faults): Pc {
    if !f.claim.Done? then Rejected(Unauthenticated)
    else if !f.csrAccepted then Rejected(InvalidArgument)
    else if !f.upsert.Done? || !f.record.Done? then Rejected(Internal)
    else Returned
  }

  lemma MarkThenRecord(s: State, c: CallId, f: Faults)
    requires At(s, c, MarkToken) && f.claim.Done? && f.csrAccepted && f.upsert.Done?
    requires
      var k := s.calls[c];
      && k.host.Some? && k.cert.Some? && k.now.Some? && k.host.value in s.hosts
      && k.token.Some? && k.token.value in s.tokens && !AlreadyRecorded(s.identities, k.cert.value)
    ensures
      var k := s.calls[c];
      var t := k.token.value;
      var s' := RecordStep(MarkTokenStep(s, c, f.mark), c, f.record);
      && s'.hosts == s.hosts
      && s'.tokens == (if WritesUsedBy(f) then s.tokens[t := s.tokens[t].(usedBy := k.host)] else s.tokens)
      && s'.identities == (if WritesIdentity(f) then s.identities + [IdentityOf(k)] else s.identities)
      && c in s'.calls && s'.calls[c].pc == Ending(f)
  {
    MarkSetsHost(s, c, f.mark);
    RecordAddsIdentity(Step(s, DoMarkToken(c, f.mark)), c, f.record);
  }

  lemma UpsertFails(s: State, c: CallId, f: Faults)
    requires At(s, c, Upsert) && f.claim.Done? && f.csrAccepted && !f.upsert.Done?
    requires s.calls[c].host.Some? && s.calls[c].org.Some? && !Conflicts(s, s.calls[c].host.value, RowOf(s.calls[c]))
    ensures
      var k := s.calls[c];
      var s' := RecordStep(MarkTokenStep(UpsertStep(s, c, f.upsert), c, f.mark), c, f.record);
      && s'.hosts == (if WritesHost(f) then s.hosts[k.host.value := RowOf(k)] else s.hosts)
      && s'.tokens == s.tokens && s'.identities == s.identities
      && c in s'.calls && s'.calls[c].pc == Ending(f)
  {
    var s1 := UpsertStep(s, c, f.upsert);
    assert MarkTokenStep(s1, c, f.mark) == s1;
    assert RecordStep(s1, c, f.record) == s1;
  }

  // From the stamped certificate on: the upsert and what follows it.
  lemma AfterStamp(s: State, c: CallId, f: Faults)
    requires At(s, c, Upsert) && f.claim.Done? && f.csrAccepted
    requires
      var k := s.calls[c];
      && k.host.Some? && k.org.Some? && k.cert.Some? && k.now.Some?
      && k.token.Some? && k.token.value in s.tokens && k.token.value != ""
      && !Conflicts(s, k.host.value, RowOf(k)) && !AlreadyRecorded(s.identities, k.cert.value)
    ensures
      var k := s.calls[c];
      var t := k.token.value;
      var s' := RecordStep(MarkTokenStep(UpsertStep(s, c, f.upsert), c, f.mark), c, f.record);
      && s'.hosts == (if WritesHost(f) then s.hosts[k.host.value := RowOf(k)] else s.hosts)
      && s'.tokens == (if WritesUsedBy(f) then s.tokens[t := s.tokens[t].(usedBy := k.host)] else s.tokens)
      && s'.identities == (if WritesIdentity(f) then s.identities + [IdentityOf(k)] else s.identities)
      && c in s'.calls && s'.calls[c].pc == Ending(f)
  {
    if f.upsert.Done? {
      UpsertWrites(s, c);
      MarkThenRecord(UpsertStep(s, c, Done), c, f);
    } else {
      UpsertFails(s, c, f);
    }
  }

  lemma RefusedCsr(s: State, c: CallId, serial: nat, f: Faults)
    requires At(s, c, Issue) && s.calls[c].host.Some? && !f.csrAccepted
    ensures FaultyTail(s, c, serial, f) == s.(calls := s.calls[c := s.calls[c].(pc := Rejected(InvalidArgument))])
  {
    var s1 := IssueStep(s, c, serial, false);
    assert StampStep(s1, c) == s1;
    assert UpsertStep(s1, c, f.upsert) == s1;
    assert MarkTokenStep(s1, c, f.mark) == s1;
  }

  lemma AcceptedCsr(s: State, c: CallId, serial: nat, f: Faults) returns (stamped: State)
    requires At(s, c, Issue) && s.calls[c].host.Some? && f.csrAccepted
    ensures
      var k := s.calls[c];
      var cert := Cert(k.host.value, k.req.csr, serial, s.clock + 24 * 3600 * SECOND);
      && stamped == s.(calls := s.calls[c := k.(pc := Upsert, now := Some(s.clock), cert := Some(cert))])
      && FaultyTail(s, c, serial, f)
           == RecordStep(MarkTokenStep(UpsertStep(stamped, c, f.upsert), c, f.mark), c, f.record)
  {
    IssueAndStamp(s, c, serial);
    stamped := StampStep(IssueStep(s, c, serial, true), c);
  }

  lemma FromStamped(s: State, stamped: State, c: CallId, serial: nat, f: Faults)
    requires c in s.calls && f.claim.Done? && f.csrAccepted
    requires
      var k := s.calls[c];
      && k.host.Some? && k.org.Some? && k.token.Some? && k.token.value in s.tokens && k.token.value != ""
      && !Conflicts(s, k.host.value, RowOf(k)) && FreshSerial(s, serial)
      && var cert := Cert(k.host.value, k.req.csr, serial, s.clock + 24 * 3600 * SECOND);
         stamped == s.(calls := s.calls[c := k.(pc := Upsert, now := Some(s.clock), cert := Some(cert))])
    ensures
      var k := s.calls[c];
      var t, h := k.token.value, k.host.value;
      var expiry := s.clock + 24 * 3600 * SECOND;
      var s' := RecordStep(MarkTokenStep(UpsertStep(stamped, c, f.upsert), c, f.mark), c, f.record);
      && s'.hosts == (if WritesHost(f) then s.hosts[h := RowOf(k)] else s.hosts)
      && s'.tokens == (if WritesUsedBy(f) then s.tokens[t := s.tokens[t].(usedBy := k.host)] else s.tokens)
      && s'.identities == (if WritesIdentity(f)
                           then s.identities + [IdentityRow(h, Cert(h, k.req.csr, serial, expiry), expiry)]
                           else s.identities)
      && c in s'.calls && s'.calls[c].pc == Ending(f)
  {
    SameConflicts(s, stamped, s.calls[c].host.value, RowOf(s.calls[c]));
    AfterStamp(stamped, c, f);
  }

  lemma FaultyTailWrites(s: State, c: CallId, serial: nat, f: Faults)
    requires At(s, c, Issue) && f.claim.Done?
    requires
      var k := s.calls[c];
      && k.host.Some? && k.org.Some? && k.token.Some? && k.token.value in s.tokens && k.token.value != ""
      && !Conflicts(s, k.host.value, RowOf(k)) && FreshSerial(s, serial)
    ensures
      var k, s' := s.calls[c], FaultyTail(s, c, serial, f);
      var t, h := k.token.value, k.host.value;
      var expiry := s.clock + 24 * 3600 * SECOND;
      && s'.hosts == (if WritesHost(f) then s.hosts[h := RowOf(k)] else s.hosts)
      && s'.tokens == (if WritesUsedBy(f) then s.tokens[t := s.tokens[t].(usedBy := k.host)] else s.tokens)
      && s'.identities == (if WritesIdentity(f)
                           then s.identities + [IdentityRow(h, Cert(h, k.req.csr, serial, expiry), expiry)]
                           else s.identities)
      && c in s'.calls && s'.calls[c].pc == Ending(f)
  {
    if f.csrAccepted {
      var stamped := AcceptedCsr(s, c, serial, f);
      FromStamped(s, stamped, c, serial, f);
    } else {
      RefusedCsr(s, c, serial, f);
    }
  }

  lemma SameConflicts(s: State, s': State, h: HostId, row: HostRow)
    requires s'.hosts == s.hosts
    ensures Conflicts(s', h, row) == Conflicts(s, h, row)
  {
  }

  // ---------- the whole call ----------

  lemma StepsTaken(s: State, c: CallId, req: Request, row: TokenId, h: HostId, serial: nat, f: Faults)
    ensures Run(s, Steps(c, req, row, h, serial, f))
         == FaultyTail(ResolveStep(AuthenticateStep(BeginStep(s, c, req), c, row, f.claim), c, h, Done), c, serial, f)
  {
    RunEight(s, DoBegin(c, req), DoAuthenticate(c, row, f.claim), DoResolve(c, h, Done),
             DoIssue(c, serial, f.csrAccepted),
             DoStamp(c), DoUpsert(c, f.upsert), DoMarkToken(c, f.mark), DoRecord(c, f.record));
  }

  // Main result: a first enrollment with a usable token, under every combination of faults. The token
  // is used up exactly if the claim takes effect, whatever fails later; host row, used_by and identity
  // are written exactly as far as the call comes; and the answer names the first statement that failed,
  // marking the token never being one.
  lemma FirstEnrollmentUnderFaults(s: State, c: CallId, req: Request, row: TokenId, h: HostId, serial: nat, f: Faults)
    requires Inv(s) && c !in s.calls && NotRenewing(s, req) && GoodRequest(req)
    requires TokenCodec.WellFormed(req.token) && row != ""
    requires row in s.tokens && Usable(s.tokens[row], req.token, s.clock)
    requires Resolvable(s, req, s.tokens[row].org, h) && FreshSerial(s, serial)
    ensures
      var s' := Run(s, Steps(c, req, row, h, serial, f));
      var machine := if req.machineId == "" then None else Some(req.machineId);
      var expiry := s.clock + 24 * 3600 * SECOND;
      && s'.tokens.Keys == s.tokens.Keys
      && (forall t :: t in s.tokens ==>
            var used := if !f.claim.FailedBefore? && Usable(s.tokens[t], req.token, s.clock)
                        then s.tokens[t].(usedAt := Some(s.clock)) else s.tokens[t];
            s'.tokens[t] == if t == row && WritesUsedBy(f) then used.(usedBy := Some(h)) else used)
      && s'.hosts == (if WritesHost(f)
                      then s.hosts[h := HostRow(req.hostname, req.details, machine, s.tokens[row].org)] else s.hosts)
      && s'.identities == (if WritesIdentity(f)
                           then s.identities + [IdentityRow(h, Cert(h, req.csr, serial, expiry), expiry)]
                           else s.identities)
      && c in s'.calls && s'.calls[c].pc == Ending(f)
  {
    if f.claim.Done? {
      ClaimedRows(s, c, req.token);
      ClaimWorks(s, c, req, row, h, serial, f);
    } else {
      ClaimFails(s, c, req, row, h, serial, f);
    }
  }

  lemma ClaimWorks(s: State, c: CallId, req: Request, row: TokenId, h: HostId, serial: nat, f: Faults)
    requires Inv(s) && c !in s.calls && NotRenewing(s, req) && GoodRequest(req) && f.claim.Done?
    requires TokenCodec.WellFormed(req.token) && row in ClaimSet(s, req.token) && row != ""
    requires Resolvable(s, req, s.tokens[row].org, h) && FreshSerial(s, serial)
    ensures
      var s' := Run(s, Steps(c, req, row, h, serial, f));
      var claimed := Claim(s, c, ClaimSet(s, req.token)).tokens;
      var machine := if req.machineId == "" then None else Some(req.machineId);
      var expiry := s.clock + 24 * 3600 * SECOND;
      && row in claimed
      && s'.tokens == (if WritesUsedBy(f) then claimed[row := claimed[row].(usedBy := Some(h))] else claimed)
      && s'.hosts == (if WritesHost(f)
                      then s.hosts[h := HostRow(req.hostname, req.details, machine, s.tokens[row].org)] else s.hosts)
      && s'.identities == (if WritesIdentity(f)
                           then s.identities + [IdentityRow(h, Cert(h, req.csr, serial, expiry), expiry)]
                           else s.identities)
      && c in s'.calls && s'.calls[c].pc == Ending(f)
  {
    StepsTaken(s, c, req, row, h, serial, f);
    HeadClaims(s, c, req, row, h);
    FromHead(s, Head(s, c, req, row, h), c, req, row, s.tokens[row].org, h, serial, f);
  }

  // The rest of the call, from a state in which it has claimed and resolved.
  lemma FromHead(s: State, head: State, c: CallId, req: Request, row: TokenId, org: string,
                 h: HostId, serial: nat, f: Faults)
    requires Inv(s) && Resolvable(s, req, org, h) && FreshSerial(s, serial) && f.claim.Done?
    requires head.clock == s.clock && head.hosts == s.hosts && head.identities == s.identities
    requires row in head.tokens && row != ""
    requires c in head.calls && head.calls[c] == Call(Issue, req, false, "", Some(row), Some(org), Some(h), None, None)
    ensures
      var s' := FaultyTail(head, c, serial, f);
      var machine := if req.machineId == "" then None else Some(req.machineId);
      var expiry := s.clock + 24 * 3600 * SECOND;
      && s'.tokens == (if WritesUsedBy(f) then head.tokens[row := head.tokens[row].(usedBy := Some(h))]
                      else head.tokens)
      && s'.hosts == (if WritesHost(f) then s.hosts[h := HostRow(req.hostname, req.details, machine, org)] else s.hosts)
      && s'.identities == (if WritesIdentity(f)
                           then s.identities + [IdentityRow(h, Cert(h, req.csr, serial, expiry), expiry)]
                           else s.identities)
      && c in s'.calls && s'.calls[c].pc == Ending(f)
  {
    ResolvableHasNoConflict(s, head.calls[c], h);
    SameConflicts(s, head, h, RowOf(head.calls[c]));
    FaultyTailWrites(head, c, serial, f);
  }

  lemma ClaimFails(s: State, c: CallId, req: Request, row: TokenId, h: HostId, serial: nat, f: Faults)
    requires c !in s.calls && NotRenewing(s, req) && GoodRequest(req) && !f.claim.Done?
    requires TokenCodec.WellFormed(req.token) && row in s.tokens && Usable(s.tokens[row], req.token, s.clock)
    ensures
      var s' := Run(s, Steps(c, req, row, h, serial, f));
      && s'.tokens.Keys == s.tokens.Keys
      && (forall t :: t in s.tokens ==>
            s'.tokens[t] == if !f.claim.FailedBefore? && Usable(s.tokens[t], req.token, s.clock)
                            then s.tokens[t].(usedAt := Some(s.clock)) else s.tokens[t])
      && s'.hosts == s.hosts && s'.identities == s.identities
      && c in s'.calls && s'.calls[c].pc == Rejected(Unauthenticated)
  {
    var s2 := FailedClaim(s, c, req, row, f.claim);
    NothingAfterRejection(s2, c, h, serial, f);
    StepsSplit(s, c, req, row, h, serial, f);
  }

  // The steps from the lookup on.
  function Rest(c: CallId, h: HostId, serial: nat, f: Faults): seq<Event> {
    [DoResolve(c, h, Done), DoIssue(c, serial, f.csrAccepted), DoStamp(c), DoUpsert(c, f.upsert),
     DoMarkToken(c, f.mark), DoRecord(c, f.record)]
  }

  lemma StepsSplit(s: State, c: CallId, req: Request, row: TokenId, h: HostId, serial: nat, f: Faults)
    ensures Run(s, Steps(c, req, row, h, serial, f))
         == Run(Run(s, [DoBegin(c, req), DoAuthenticate(c, row, f.claim)]), Rest(c, h, serial, f))
  {
    RunSplit(s, [DoBegin(c, req), DoAuthenticate(c, row, f.claim)], Rest(c, h, serial, f));
    assert Steps(c, req, row, h, serial, f)
        == [DoBegin(c, req), DoAuthenticate(c, row, f.claim)] + Rest(c, h, serial, f);
  }

  lemma NothingAfterRejection(s: State, c: CallId, h: HostId, serial: nat, f: Faults)
    requires c in s.calls && s.calls[c].pc.Rejected?
    ensures Run(s, Rest(c, h, serial, f)) == s
  {
    EndedRunIsQuiet(s, c, Rest(c, h, serial, f));
  }

  lemma FailedClaim(s: State, c: CallId, req: Request, row: TokenId, o: Outcome) returns (s': State)
    requires c !in s.calls && NotRenewing(s, req) && GoodRequest(req) && !o.Done?
    requires TokenCodec.WellFormed(req.token) && row in s.tokens && Usable(s.tokens[row], req.token, s.clock)
    ensures s' == Run(s, [DoBegin(c, req), DoAuthenticate(c, row, o)])
    ensures s'.tokens.Keys == s.tokens.Keys && s'.hosts == s.hosts && s'.identities == s.identities
    ensures forall t :: t in s.tokens ==>
              s'.tokens[t] == if !o.FailedBefore? && Usable(s.tokens[t], req.token, s.clock)
                              then s.tokens[t].(usedAt := Some(s.clock)) else s.tokens[t]
    ensures c in s'.calls && s'.calls[c].pc == Rejected(Unauthenticated)
  {
    var s1 := BeginStep(s, c, req);
    BeginDecides(s, c, req);
    FormedIsNotEmpty(req.token);
    ClaimMarksExactly(s1, c, row, o);
    s' := Step(s1, DoAuthenticate(c, row, o));
    RunTwo(s, DoBegin(c, req), DoAuthenticate(c, row, o));
  }

  lemma RunTwo(s: State, a: Event, b: Event)
    ensures Run(s, [a, b]) == Step(Step(s, a), b)
  {
    assert [a, b][1..] == [b];
    assert Run(Step(s, a), [b]) == Run(Step(Step(s, a), b), [b][1..]);
  }

  lemma FormedIsNotEmpty(text: string)
    requires TokenCodec.WellFormed(text)
    ensures text != ""
  {
  }
}
