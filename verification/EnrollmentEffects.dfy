// What each step of an enrollment does to the tables, spelled out row by row, and what follows for
// revoked tokens and rejected requests.
module EnrollmentEffects {
  import opened Base
  import opened Enrollment
  import opened EnrollmentSafety
  import opened EnrollmentTheorems
  import TokenCodec

  // A token that a first enrollment may use up at `now`.
  predicate Usable(row: TokenRow, text: string, now: Time) {
    row.hash == TokenCodec.Sha256(text) && row.usedAt.None? && row.revokedAt.None? && now < row.expiresAt
  }

  // ---------- the token table ----------

  // A stored token is unused, unrevoked and as its operator asked for.
  lemma InsertStores(s: State, id: TokenId, text: string, org: string, expiresAt: Time)
    ensures
      var s' := Step(s, InsertToken(id, text, org, expiresAt));
      && (id !in s.tokens ==>
            s'.tokens == s.tokens[id := TokenRow(TokenCodec.Sha256(text), org, expiresAt, None, None, None)])
      && (id in s.tokens ==> s'.tokens == s.tokens)
      && s'.hosts == s.hosts && s'.identities == s.identities && s'.calls == s.calls && s'.clock == s.clock
  {
  }

  // The claim of a first enrollment: exactly the unused, unrevoked, unexpired rows with the token's hash
  // are marked used at this moment, and nothing else in any table changes. A malformed token is rejected
  // as an argument and claims nothing; no usable row, or an error of the statement, is Unauthenticated.
  lemma ClaimMarksExactly(s: State, c: CallId, row: TokenId, o: Outcome)
    requires At(s, c, Authenticate) && !s.calls[c].reEnroll
    requires o.Done? ==>
               || (row in s.tokens && Usable(s.tokens[row], s.calls[c].req.token, s.clock))
               || forall t :: t in s.tokens ==> !Usable(s.tokens[t], s.calls[c].req.token, s.clock)
    ensures
      var text := s.calls[c].req.token;
      var formed := TokenCodec.WellFormed(text);
      var s' := Step(s, DoAuthenticate(c, row, o));
      && s'.tokens.Keys == s.tokens.Keys
      && (forall t :: t in s.tokens ==>
            s'.tokens[t] == if formed && !o.FailedBefore? && Usable(s.tokens[t], text, s.clock)
                            then s.tokens[t].(usedAt := Some(s.clock)) else s.tokens[t])
      && s'.hosts == s.hosts && s'.identities == s.identities && s'.clock == s.clock
      && c in s'.calls
      && s'.calls[c] == (
           if !formed then s.calls[c].(pc := Rejected(InvalidArgument))
           else if !o.Done? || row !in s.tokens || !Usable(s.tokens[row], text, s.clock) then
             s.calls[c].(pc := Rejected(Unauthenticated))
           else s.calls[c].(pc := Resolve, token := Some(row), org := Some(s.tokens[row].org)))
  {
    var text := s.calls[c].req.token;
    ClaimedRows(s, c, text);
    ClaimAdvances(s, c, row, o);
    assert ClaimSet(s, text) == {} ==> forall t :: t in s.tokens ==> !Usable(s.tokens[t], text, s.clock) by {
      if ClaimSet(s, text) == {} {
        forall t | t in s.tokens ensures !Usable(s.tokens[t], text, s.clock) {
          assert t !in ClaimSet(s, text);
        }
      }
    }
  }

  lemma ClaimedRows(s: State, c: CallId, text: string)
    ensures
      var tokens := Claim(s, c, ClaimSet(s, text)).tokens;
      && tokens.Keys == s.tokens.Keys
      && forall t :: t in s.tokens ==>
           && (t in ClaimSet(s, text) <==> Usable(s.tokens[t], text, s.clock))
           && tokens[t] == if Usable(s.tokens[t], text, s.clock) then s.tokens[t].(usedAt := Some(s.clock))
                           else s.tokens[t]
  {
  }

  lemma ClaimAdvances(s: State, c: CallId, row: TokenId, o: Outcome)
    requires At(s, c, Authenticate) && !s.calls[c].reEnroll
    requires o.Done? ==> row in ClaimSet(s, s.calls[c].req.token) || ClaimSet(s, s.calls[c].req.token) == {}
    ensures
      var text, rows := s.calls[c].req.token, ClaimSet(s, s.calls[c].req.token);
      var formed := TokenCodec.WellFormed(text);
      var s' := AuthenticateByToken(s, c, row, o);
      && s'.tokens == (if formed && !o.FailedBefore? && rows != {} then Claim(s, c, rows).tokens else s.tokens)
      && s'.hosts == s.hosts && s'.identities == s.identities && s'.clock == s.clock
      && c in s'.calls
      && s'.calls[c] == (
           if !formed then s.calls[c].(pc := Rejected(InvalidArgument))
           else if !o.Done? || row !in rows then s.calls[c].(pc := Rejected(Unauthenticated))
           else s.calls[c].(pc := Resolve, token := Some(row), org := Some(s.tokens[row].org)))
  {
  }

  // Main result: no step of a call touches a token whose hash is not that of the text it presented.
  lemma OtherTokensUntouched(t0: Time, before: seq<Event>, e: Event, t: TokenId)
    requires
      var s := Run(Init(t0), before);
      && Actor(e).Some? && t in s.tokens
      && (Actor(e).value in s.calls ==> s.tokens[t].hash != TokenCodec.Sha256(s.calls[Actor(e).value].req.token))
    ensures
      var s := Run(Init(t0), before);
      t in Step(s, e).tokens && Step(s, e).tokens[t] == s.tokens[t]
  {
    InitOk(t0);
    RunKeeps(Init(t0), before);
    TokenUntouched(Run(Init(t0), before), e, t);
  }

  lemma TokenUntouched(s: State, e: Event, t: TokenId)
    requires Inv(s) && Actor(e).Some? && t in s.tokens
    requires Actor(e).value in s.calls ==> s.tokens[t].hash != TokenCodec.Sha256(s.calls[Actor(e).value].req.token)
    ensures t in Step(s, e).tokens && Step(s, e).tokens[t] == s.tokens[t]
  {
    match e
    case DoAuthenticate(c, row, o) => ClaimLeaves(s, c, row, o, t);
    case DoMarkToken(c, o) => MarkLeaves(s, c, o, t);
    case DoUpsert(c, o) => assert UpsertStep(s, c, o).tokens == s.tokens;
    case DoRecord(c, o) => assert RecordStep(s, c, o).tokens == s.tokens;
    case DoResolve(c, found, o) => assert ResolveStep(s, c, found, o).tokens == s.tokens;
    case _ =>
  }

  lemma ClaimLeaves(s: State, c: CallId, row: TokenId, o: Outcome, t: TokenId)
    requires t in s.tokens && (c in s.calls ==> s.tokens[t].hash != TokenCodec.Sha256(s.calls[c].req.token))
    ensures t in AuthenticateStep(s, c, row, o).tokens && AuthenticateStep(s, c, row, o).tokens[t] == s.tokens[t]
  {
    if c in s.calls {
      assert t !in ClaimSet(s, s.calls[c].req.token);
    }
  }

  lemma MarkLeaves(s: State, c: CallId, o: Outcome, t: TokenId)
    requires Inv(s) && t in s.tokens && (c in s.calls ==> s.tokens[t].hash != TokenCodec.Sha256(s.calls[c].req.token))
    ensures t in MarkTokenStep(s, c, o).tokens && MarkTokenStep(s, c, o).tokens[t] == s.tokens[t]
  {
    if c in s.calls {
      assert TokenHeld(s.tokens, s.claimedBy, c, s.calls[c]) by {
        assert CallOk(s, c, s.calls[c]);
      }
    }
  }

  // Main result: a revocation is recorded for good, at its moment if it is the first; and a token that
  // was unused when revoked is never used and never held by any call.
  lemma RevokedForGood(t0: Time, before: seq<Event>, t: TokenId, after: seq<Event>)
    requires t in Run(Init(t0), before).tokens
    ensures
      var s := Run(Init(t0), before);
      var s' := Run(Step(s, RevokeToken(t)), after);
      && t in s'.tokens && s'.tokens[t].revokedAt.Some?
      && (s.tokens[t].revokedAt.None? ==> s'.tokens[t].revokedAt == Some(s.clock))
      && (s.tokens[t].usedAt.None? ==>
            s'.tokens[t].usedAt.None? && forall c :: c in s'.calls ==> s'.calls[c].token != Some(t))
  {
    var s := Run(Init(t0), before);
    InitOk(t0);
    RunKeeps(Init(t0), before);
    StepKeeps(s, RevokeToken(t));
    var revoked := Step(s, RevokeToken(t));
    RunKeeps(revoked, after);
    var s' := Run(revoked, after);
    assert TokenGrows(revoked.tokens[t], s'.tokens[t]);
    forall c | c in s'.calls && s'.tokens[t].usedAt.None? ensures s'.calls[c].token != Some(t) {
      assert CallOk(s', c, s'.calls[c]);
    }
  }

  // ---------- rejected requests ----------

  ghost predicate SameTables(s: State, s': State) {
    && s'.tokens == s.tokens && s'.hosts == s.hosts && s'.identities == s.identities
    && s'.claimedBy == s.claimedBy && s'.mintedBy == s.mintedBy && s'.clock == s.clock
  }

  // A call begins as a renewal exactly if its peer shows a certificate that has not expired. It is
  // rejected exactly if the CSR or the hostname is empty, or it is no renewal and has no token.
  lemma BeginDecides(s: State, c: CallId, req: Request)
    requires c !in s.calls
    requires req.peer.Some? ==> exists d :: d in s.calls && s.calls[d].cert == req.peer
    ensures
      var s' := Step(s, DoBegin(c, req));
      var renewal := req.peer.Some? && req.peer.value.notAfter > s.clock;
      && SameTables(s, s')
      && c in s'.calls && s'.calls[c].req == req
      && (s'.calls[c].reEnroll <==> renewal)
      && s'.calls[c].existing == (if renewal then req.peer.value.cn else "")
      && s'.calls[c].pc == (if req.csr == "" || req.hostname == "" || (!renewal && req.token == "")
                            then Rejected(InvalidArgument) else Authenticate)
      && forall d :: d in s.calls ==> d in s'.calls && s'.calls[d] == s.calls[d]
  {
  }

  // A call that ended takes no further step.
  lemma EndedCallsAreQuiet(s: State, c: CallId, e: Event)
    requires c in s.calls && (s.calls[c].pc.Rejected? || s.calls[c].pc.Returned?) && Actor(e) == Some(c)
    ensures Step(s, e) == s
  {
  }

  lemma {:induction false} EndedRunIsQuiet(s: State, c: CallId, own: seq<Event>)
    requires c in s.calls && (s.calls[c].pc.Rejected? || s.calls[c].pc.Returned?)
    requires forall i :: 0 <= i < |own| ==> Actor(own[i]) == Some(c)
    ensures Run(s, own) == s
    decreases |own|
  {
    if own != [] {
      EndedCallsAreQuiet(s, c, own[0]);
      EndedRunIsQuiet(s, c, own[1..]);
    }
  }

  // Main result: a request without CSR or hostname, or without token and current certificate, ends as
  // InvalidArgument and changes no table, whatever steps its call tries afterwards.
  lemma BadRequestChangesNothing(s: State, c: CallId, req: Request, own: seq<Event>)
    requires c !in s.calls
    requires req.peer.Some? ==> exists d :: d in s.calls && s.calls[d].cert == req.peer
    requires req.csr == "" || req.hostname == ""
             || (req.token == "" && (req.peer.None? || req.peer.value.notAfter <= s.clock))
    requires forall i :: 0 <= i < |own| ==> Actor(own[i]) == Some(c)
    ensures
      var s' := Run(Step(s, DoBegin(c, req)), own);
      SameTables(s, s') && c in s'.calls && s'.calls[c].pc == Rejected(InvalidArgument)
  {
    BeginDecides(s, c, req);
    EndedRunIsQuiet(Step(s, DoBegin(c, req)), c, own);
  }

  // ---------- the other steps ----------

  // A renewal goes on exactly if its host row can be read, with that row's org.
  lemma RenewalAuthenticates(s: State, c: CallId, row: TokenId, o: Outcome)
    requires At(s, c, Authenticate) && s.calls[c].reEnroll
    ensures
      var k, s' := s.calls[c], Step(s, DoAuthenticate(c, row, o));
      && SameTables(s, s') && c in s'.calls
      && s'.calls[c] == if o.Done? && k.existing in s.hosts
                        then k.(pc := Resolve, org := Some(s.hosts[k.existing].org))
                        else k.(pc := Rejected(Unauthenticated))
  {
  }

  // The CA puts the host id into the certificate and lets it live for 24 hours; a refused CSR ends the
  // call before anything is written.
  lemma CertificateLivesADay(s: State, c: CallId, serial: nat, accepted: bool)
    requires At(s, c, Issue) && s.calls[c].host.Some?
    ensures
      var k, s' := s.calls[c], Step(s, DoIssue(c, serial, accepted));
      && SameTables(s, s') && c in s'.calls
      && s'.calls[c] == if accepted
                        then k.(pc := Stamp,
                                cert := Some(Cert(k.host.value, k.req.csr, serial, s.clock + 24 * 3600 * SECOND)))
                        else k.(pc := Rejected(InvalidArgument))
  {
  }

  // The time that passes in a run.
  function Elapsed(events: seq<Event>): nat {
    if events == [] then 0 else (if events[0].Tick? then events[0].elapsed else 0) + Elapsed(events[1..])
  }

  lemma ClockOf(s: State, e: Event)
    ensures Step(s, e).clock == s.clock + if e.Tick? then e.elapsed else 0
  {
    match e
    case DoAuthenticate(c, row, o) => assert AuthenticateStep(s, c, row, o).clock == s.clock;
    case DoResolve(c, found, o) => assert ResolveStep(s, c, found, o).clock == s.clock;
    case DoUpsert(c, o) => assert UpsertStep(s, c, o).clock == s.clock;
    case DoMarkToken(c, o) => assert MarkTokenStep(s, c, o).clock == s.clock;
    case DoRecord(c, o) => assert RecordStep(s, c, o).clock == s.clock;
    case _ =>
  }

  lemma {:induction false} ClockFollowsTicks(s: State, events: seq<Event>)
    ensures Run(s, events).clock == s.clock + Elapsed(events)
    decreases |events|
  {
    if events != [] {
      ClockOf(s, events[0]);
      ClockFollowsTicks(Step(s, events[0]), events[1..]);
    }
  }

  // Main result: in every run, the certificate that a call is issued lets its holder renew exactly while
  // less than 24 hours have passed since, whatever else happens meanwhile.
  lemma CertificateRenewsForADay(t0: Time, before: seq<Event>, c: CallId, serial: nat, after: seq<Event>,
                                 d: CallId, req: Request)
    requires At(Run(Init(t0), before), c, Issue)
    requires
      var issued := Step(Run(Init(t0), before), DoIssue(c, serial, true));
      d !in Run(issued, after).calls && req.peer == issued.calls[c].cert
    ensures
      var issued := Step(Run(Init(t0), before), DoIssue(c, serial, true));
      var s' := Step(Run(issued, after), DoBegin(d, req));
      && d in s'.calls
      && (s'.calls[d].reEnroll <==> Elapsed(after) < 24 * 3600 * SECOND)
      && (s'.calls[d].reEnroll ==> Some(s'.calls[d].existing) == issued.calls[c].host)
  {
    InitOk(t0);
    RunKeeps(Init(t0), before);
    RenewsForADay(Run(Init(t0), before), c, serial, after, d, req);
  }

  lemma RenewsForADay(s: State, c: CallId, serial: nat, after: seq<Event>, d: CallId, req: Request)
    requires Inv(s) && At(s, c, Issue)
    requires
      var issued := Step(s, DoIssue(c, serial, true));
      d !in Run(issued, after).calls && req.peer == issued.calls[c].cert
    ensures
      var issued := Step(s, DoIssue(c, serial, true));
      var s' := Step(Run(issued, after), DoBegin(d, req));
      && d in s'.calls
      && (s'.calls[d].reEnroll <==> Elapsed(after) < 24 * 3600 * SECOND)
      && (s'.calls[d].reEnroll ==> Some(s'.calls[d].existing) == issued.calls[c].host)
  {
    var issued := Step(s, DoIssue(c, serial, true));
    assert s.calls[c].host.Some? by {
      assert CallOk(s, c, s.calls[c]);
    }
    CertificateLivesADay(s, c, serial, true);
    StepKeeps(s, DoIssue(c, serial, true));
    RunKeeps(issued, after);
    ClockFollowsTicks(issued, after);
    var later := Run(issued, after);
    assert CallGrows(issued.calls[c], later.calls[c]);
    BeginDecides(later, d, req);
  }

  ghost predicate OtherHolds(hosts: map<HostId, HostRow>, h: HostId, machine: string, org: string) {
    exists g :: g in hosts && g != h && hosts[g].machine == Some(machine) && hosts[g].org == org
  }

  // The upsert writes the requested row under the held id and org, unless another row has that machine
  // id and org or the statement fails; any error ends the call.
  lemma UpsertDecides(s: State, c: CallId, o: Outcome)
    requires At(s, c, Upsert) && s.calls[c].host.Some? && s.calls[c].org.Some?
    ensures
      var k, s' := s.calls[c], Step(s, DoUpsert(c, o));
      var h, org := k.host.value, k.org.value;
      var taken := k.req.machineId != "" && OtherHolds(s.hosts, h, k.req.machineId, org);
      var machine := if k.req.machineId == "" then None else Some(k.req.machineId);
      && s'.tokens == s.tokens && s'.identities == s.identities && s'.clock == s.clock
      && s'.hosts == (if taken || o.FailedBefore? then s.hosts
                      else s.hosts[h := HostRow(k.req.hostname, k.req.details, machine, org)])
      && c in s'.calls
      && s'.calls[c].pc == (if taken || !o.Done? then Rejected(Internal)
                            else if k.token.Some? && k.token.value != "" then MarkToken else Record)
  {
    var k := s.calls[c];
    if OtherHolds(s.hosts, k.host.value, k.req.machineId, k.org.value) {
      var g :| g in s.hosts && g != k.host.value && s.hosts[g].machine == Some(k.req.machineId)
               && s.hosts[g].org == k.org.value;
      assert SameMachine(s.hosts[g], k.req.machineId, k.org.value);
    }
  }

  // Marking the token sets its host and nothing else, and never stops the call.
  lemma MarkSetsHost(s: State, c: CallId, o: Outcome)
    requires At(s, c, MarkToken) && s.calls[c].host.Some? && s.calls[c].token.Some?
             && s.calls[c].token.value in s.tokens
    ensures
      var k, s' := s.calls[c], Step(s, DoMarkToken(c, o));
      var t := k.token.value;
      && s'.tokens == (if o.FailedBefore? then s.tokens else s.tokens[t := s.tokens[t].(usedBy := k.host)])
      && s'.hosts == s.hosts && s'.identities == s.identities && s'.clock == s.clock
      && c in s'.calls && s'.calls[c] == k.(pc := Record)
  {
  }

  // The identity row names the host and the certificate and expires 24 hours after the call's time.
  lemma RecordAddsIdentity(s: State, c: CallId, o: Outcome)
    requires At(s, c, Record) && s.calls[c].host.Some? && s.calls[c].cert.Some? && s.calls[c].now.Some?
    ensures
      var k, s' := s.calls[c], Step(s, DoRecord(c, o));
      var refused := o.FailedBefore? || k.host.value !in s.hosts
                     || exists i :: 0 <= i < |s.identities| && s.identities[i].cert == k.cert.value;
      && s'.identities == (if refused then s.identities
                           else s.identities
                                + [IdentityRow(k.host.value, k.cert.value, k.now.value + 24 * 3600 * SECOND)])
      && s'.tokens == s.tokens && s'.hosts == s.hosts && s'.clock == s.clock
      && c in s'.calls && s'.calls[c].pc == (if refused || !o.Done? then Rejected(Internal) else Returned)
  {
  }
}
