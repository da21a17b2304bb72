// What the enrollment protocol guarantees over every run, that is every interleaving of calls,
// token inserts and revocations, clock advances and statement failures.
module EnrollmentTheorems {
  import opened Base
  import opened Enrollment
  import opened EnrollmentSafety

  lemma InitOk(t0: Time)
    ensures Inv(Init(t0))
  {
  }

  lemma {:induction false} RunSplit(s: State, before: seq<Event>, after: seq<Event>)
    ensures Run(s, before + after) == Run(Run(s, before), after)
    decreases |before|
  {
    if before == [] {
      assert [] + after == after;
    } else {
      assert (before + after)[0] == before[0] && (before + after)[1..] == before[1..] + after;
      RunSplit(Step(s, before[0]), before[1..], after);
    }
  }

  // ---------- hosts come from tokens ----------

  function UsedTokens(s: State): set<TokenId> {
    set t | t in s.tokens && s.tokens[t].usedAt.Some?
  }

  // Main result: every host row was created by a first enrollment that claimed a token of the host's
  // org for itself alone; so hosts never outnumber used tokens.
  lemma HostsInjectIntoUsedTokens(t0: Time, events: seq<Event>) returns (creator: map<HostId, TokenId>)
    ensures
      var s := Run(Init(t0), events);
      && creator.Keys == s.hosts.Keys
      && (forall h :: h in s.hosts ==> creator[h] in UsedTokens(s) && s.tokens[creator[h]].org == s.hosts[h].org)
      && (forall g, h :: g in s.hosts && h in s.hosts && g != h ==> creator[g] != creator[h])
      && |s.hosts| <= |UsedTokens(s)|
  {
    InitOk(t0);
    RunKeeps(Init(t0), events);
    var s := Run(Init(t0), events);
    forall h | h in s.hosts ensures HasCreator(s, h) {
      CreatorHoldsToken(s, h);
    }
    creator := map h | h in s.hosts :: Creator(s, h);
    forall g, h | g in s.hosts && h in s.hosts && creator[g] == creator[h] ensures g == h {
      CreatorHoldsToken(s, g);
      CreatorHoldsToken(s, h);
    }
    forall h | h in s.hosts ensures creator[h] in UsedTokens(s) && s.tokens[creator[h]].org == s.hosts[h].org {
      CreatorHoldsToken(s, h);
    }
    InjectionBounds(s.hosts.Keys, UsedTokens(s), creator);
  }

  ghost predicate HasCreator(s: State, h: HostId) {
    h in s.mintedBy && s.mintedBy[h] in s.calls && s.calls[s.mintedBy[h]].token.Some?
  }

  function Creator(s: State, h: HostId): TokenId
    requires HasCreator(s, h)
  {
    s.calls[s.mintedBy[h]].token.value
  }

  lemma CreatorHoldsToken(s: State, h: HostId)
    requires Inv(s) && h in s.hosts
    ensures HasCreator(s, h)
    ensures var t := Creator(s, h);
            && t in UsedTokens(s) && s.tokens[t].org == s.hosts[h].org
            && t in s.claimedBy && s.claimedBy[t] in s.calls && s.calls[s.claimedBy[t]].host == Some(h)
  {
    assert HostOk(s, h) && MintOk(s, h);
    var c := s.mintedBy[h];
    assert CallOk(s, c, s.calls[c]);
  }

  // ---------- hosts keep their org; renewals cost nothing ----------

  // Main result: from the moment a call has resolved its host id, the id and the org it holds agree
  // with the host row if there is one; if there is none, this very call generated the id and has not
  // yet written the row. So what the upsert writes into org_id is what the row already has.
  lemma HeldIdAgreesWithRow(t0: Time, events: seq<Event>, c: CallId)
    requires c in Run(Init(t0), events).calls && Run(Init(t0), events).calls[c].host.Some?
    ensures
      var s := Run(Init(t0), events);
      var k := s.calls[c];
      if k.host.value in s.hosts then k.org == Some(s.hosts[k.host.value].org)
      else k.host.value in s.mintedBy && s.mintedBy[k.host.value] == c && !Upserted(k)
  {
    InitOk(t0);
    RunKeeps(Init(t0), events);
    var s := Run(Init(t0), events);
    assert CallOk(s, c, s.calls[c]);
  }

  // Main result: a host row is never deleted and its org never changes, although Upsert writes it.
  lemma OrgNeverChanges(t0: Time, before: seq<Event>, after: seq<Event>, h: HostId)
    ensures
      var s, s' := Run(Init(t0), before), Run(Init(t0), before + after);
      h in s.hosts ==> h in s'.hosts && s'.hosts[h].org == s.hosts[h].org
  {
    InitOk(t0);
    RunKeeps(Init(t0), before);
    var s := Run(Init(t0), before);
    RunKeeps(s, after);
    RunSplit(Init(t0), before, after);
    if h in s.hosts {
      assert SameOrg(s.hosts[h], Run(s, after).hosts[h]);
    }
  }

  ghost predicate ConsumesNothing(s: State, s': State) {
    s'.tokens == s.tokens && s'.claimedBy == s.claimedBy && s'.mintedBy == s.mintedBy && s'.hosts.Keys == s.hosts.Keys
  }

  lemma RenewalResolves(s: State, c: CallId, found: HostId, o: Outcome)
    requires Inv(s) && c in s.calls && s.calls[c].reEnroll
    ensures ConsumesNothing(s, ResolveStep(s, c, found, o))
  {
    assert CallOk(s, c, s.calls[c]);
  }

  lemma RenewalUpserts(s: State, c: CallId, o: Outcome)
    requires Inv(s) && c in s.calls && s.calls[c].reEnroll
    ensures ConsumesNothing(s, UpsertStep(s, c, o))
  {
    assert LocalsOk(s.calls[c]) && HostHeld(s.hosts, s.mintedBy, c, s.calls[c]) by {
      assert CallOk(s, c, s.calls[c]);
    }
  }

  lemma RenewalMarks(s: State, c: CallId, o: Outcome)
    requires Inv(s) && c in s.calls && s.calls[c].reEnroll
    ensures MarkTokenStep(s, c, o) == s
  {
    assert CallOk(s, c, s.calls[c]);
  }

  // No step of a renewal touches the token table, makes up an id or adds a host.
  lemma RenewalConsumesNothing(s: State, e: Event)
    requires Inv(s) && Actor(e).Some? && Actor(e).value in s.calls && s.calls[Actor(e).value].reEnroll
    ensures ConsumesNothing(s, Step(s, e))
  {
    match e
    case DoBegin(c, req) => assert BeginStep(s, c, req) == s;
    case DoAuthenticate(c, row, o) => assert ConsumesNothing(s, AuthenticateStep(s, c, row, o));
    case DoResolve(c, found, o) => RenewalResolves(s, c, found, o);
    case DoIssue(c, serial, accepted) => assert ConsumesNothing(s, IssueStep(s, c, serial, accepted));
    case DoStamp(c) => assert ConsumesNothing(s, StampStep(s, c));
    case DoUpsert(c, o) => RenewalUpserts(s, c, o);
    case DoMarkToken(c, o) => RenewalMarks(s, c, o);
    case DoRecord(c, o) => assert ConsumesNothing(s, RecordStep(s, c, o));
  }

  // The later call presents the certificate issued to the earlier one, within its validity.
  ghost predicate Renews(s: State, earlier: CallId, later: CallId) {
    && earlier in s.calls && later in s.calls
    && s.calls[later].reEnroll
    && s.calls[earlier].cert.Some? && s.calls[later].req.peer == s.calls[earlier].cert
    && s.calls[later].host.Some?
  }

  ghost predicate RenewalChain(s: State, chain: seq<CallId>) {
    forall i, j :: 0 <= i && j == i + 1 < |chain| ==> Renews(s, chain[i], chain[j])
  }

  // Main result: a chain of certificate renewals of any length keeps one host id and one org, those of
  // an existing row, in any interleaving with other calls.
  lemma {:induction false} RenewalChainKeepsIdentity(s: State, chain: seq<CallId>, i: nat)
    requires Inv(s) && RenewalChain(s, chain) && 0 < i < |chain|
    ensures chain[0] in s.calls && chain[i] in s.calls
    ensures
      var first, k := s.calls[chain[0]], s.calls[chain[i]];
      && k.host.Some? && k.host == first.host && k.org == first.org
      && HostHasOrg(s.hosts, k.host.value, k.org)
  {
    assert Renews(s, chain[i - 1], chain[i]);
    assert CallOk(s, chain[i], s.calls[chain[i]]);
    assert CallOk(s, chain[i - 1], s.calls[chain[i - 1]]);
    if i > 1 {
      RenewalChainKeepsIdentity(s, chain, i - 1);
    }
  }

  // ---------- certificates ----------

  // Main result: in every interleaving, a response carries a certificate for its agent id, for a host
  // that exists in the org that authenticated, with a recorded identity that outlives it.
  lemma ReturnedCertificateIsBacked(t0: Time, events: seq<Event>, c: CallId)
    requires At(Run(Init(t0), events), c, Returned)
    ensures
      var s := Run(Init(t0), events);
      var k := s.calls[c];
      && k.host.Some? && k.cert.Some? && k.org.Some?
      && k.cert.value.cn == k.host.value && k.cert.value.csr == k.req.csr
      && k.host.value in s.hosts && s.hosts[k.host.value].org == k.org.value
      && exists row :: row in s.identities && row.host == k.host.value && row.cert == k.cert.value
                    && row.expiresAt >= k.cert.value.notAfter
  {
    InitOk(t0);
    RunKeeps(Init(t0), events);
    var s := Run(Init(t0), events);
    var k := s.calls[c];
    assert CallOk(s, c, k);
    var row := IdentityRow(k.host.value, k.cert.value, k.now.value + CLIENT_CERT_TTL);
    assert row in s.identities;
  }

  // ---------- tokens ----------

  // Main result: whatever happens between two moments of a run, a token in use stays as it was used,
  // and a token revoked before use is never used. Uses happen before expiry and not after revocation,
  // and used_by_host_id names an existing host of the token's org: the one its claimant resolved to.
  lemma TokenLifecycle(t0: Time, before: seq<Event>, after: seq<Event>, t: TokenId)
    requires t in Run(Init(t0), before).tokens
    ensures
      var s, s' := Run(Init(t0), before), Run(Init(t0), before + after);
      t in s'.tokens &&
      var row, row' := s.tokens[t], s'.tokens[t];
      && row'.hash == row.hash && row'.org == row.org && row'.expiresAt == row.expiresAt
      && (row.usedAt.Some? ==> row'.usedAt == row.usedAt)
      && (row.usedBy.Some? ==> row'.usedBy == row.usedBy)
      && (row.revokedAt.Some? ==> row'.revokedAt == row.revokedAt && row'.usedAt == row.usedAt)
      && (row'.usedAt.Some? ==> row'.usedAt.value < row'.expiresAt)
      && (row'.usedAt.Some? && row'.revokedAt.Some? ==> row'.usedAt.value <= row'.revokedAt.value)
      && (row'.usedBy.Some? ==>
            && row'.usedAt.Some?
            && row'.usedBy.value in s'.hosts && s'.hosts[row'.usedBy.value].org == row'.org
            && t in s'.claimedBy && s'.claimedBy[t] in s'.calls && s'.calls[s'.claimedBy[t]].host == row'.usedBy)
  {
    InitOk(t0);
    RunKeeps(Init(t0), before);
    RunKeeps(Run(Init(t0), before), after);
    RunSplit(Init(t0), before, after);
    var s, s' := Run(Init(t0), before), Run(Init(t0), before + after);
    assert TokenGrows(s.tokens[t], s'.tokens[t]);
    assert TokenOk(s', t);
  }

  // A token is claimed for one call at most: two calls past authentication hold different tokens.
  lemma TokensAreNotShared(t0: Time, events: seq<Event>, c: CallId, d: CallId)
    requires
      var s := Run(Init(t0), events);
      c in s.calls && d in s.calls && c != d && s.calls[c].token.Some?
    ensures Run(Init(t0), events).calls[d].token != Run(Init(t0), events).calls[c].token
  {
    InitOk(t0);
    RunKeeps(Init(t0), events);
    var s := Run(Init(t0), events);
    assert CallOk(s, c, s.calls[c]) && CallOk(s, d, s.calls[d]);
  }

  // ---------- machines ----------

  // In every interleaving at most one host row exists per machine id and org.
  lemma OneHostPerMachine(t0: Time, events: seq<Event>, g: HostId, h: HostId, machine: string, org: string)
    ensures
      var s := Run(Init(t0), events);
      (&& g in s.hosts && s.hosts[g].machine == Some(machine) && s.hosts[g].org == org
       && h in s.hosts && s.hosts[h].machine == Some(machine) && s.hosts[h].org == org)
        ==> g == h
  {
    InitOk(t0);
    RunKeeps(Init(t0), events);
    var s := Run(Init(t0), events);
    if g in s.hosts && h in s.hosts {
      assert !Clash(s.hosts, g, h);
    }
  }

  function MachineOf(req: Request): Option<string> {
    if req.machineId == "" then None else Some(req.machineId)
  }

  // Renewals that are let in report the machine id their host row has at that moment.
  ghost predicate RenewalsKeepMachine(s: State, events: seq<Event>)
    decreases |events|
  {
    events != [] ==>
      && StepKeepsMachine(s, events[0])
      && RenewalsKeepMachine(Step(s, events[0]), events[1..])
  }

  ghost predicate StepKeepsMachine(s: State, e: Event) {
    e.DoAuthenticate? && At(s, e.call, Authenticate) && s.calls[e.call].reEnroll
    && s.calls[e.call].existing in s.hosts ==>
      s.hosts[s.calls[e.call].existing].machine == MachineOf(s.calls[e.call].req)
  }

  ghost predicate MachineAgrees(hosts: map<HostId, HostRow>, k: Call) {
    && (k.reEnroll && k.org.Some? && k.existing in hosts ==> hosts[k.existing].machine == MachineOf(k.req))
    && (k.host.Some? && k.host.value in hosts ==> hosts[k.host.value].machine == MachineOf(k.req))
  }

  ghost predicate MachineInv(s: State) {
    forall c {:trigger MachineAgrees(s.hosts, s.calls[c])} :: c in s.calls ==> MachineAgrees(s.hosts, s.calls[c])
  }

  // What MachineAgrees reads of a call.
  ghost predicate SameView(k: Call, k': Call) {
    k'.req == k.req && k'.reEnroll == k.reEnroll && k'.existing == k.existing && k'.org == k.org && k'.host == k.host
  }

  // Steps that change neither host rows nor what a call knows about its host.
  lemma QuietStep(s: State, s': State)
    requires MachineInv(s) && s'.hosts == s.hosts
    requires forall c :: c in s'.calls ==>
               if c in s.calls then SameView(s.calls[c], s'.calls[c])
               else s'.calls[c].org.None? && s'.calls[c].host.None?
    ensures MachineInv(s')
  {
    forall c | c in s'.calls ensures MachineAgrees(s'.hosts, s'.calls[c]) {
      assert c in s.calls ==> MachineAgrees(s.hosts, s.calls[c]);
    }
  }

  lemma BeginKeepsMachine(s: State, d: CallId, req: Request)
    requires MachineInv(s)
    ensures MachineInv(BeginStep(s, d, req))
  {
    QuietStep(s, BeginStep(s, d, req));
  }

  lemma IssueKeepsMachine(s: State, d: CallId, serial: nat, accepted: bool)
    requires MachineInv(s)
    ensures MachineInv(IssueStep(s, d, serial, accepted))
  {
    QuietStep(s, IssueStep(s, d, serial, accepted));
  }

  lemma StampKeepsMachine(s: State, d: CallId)
    requires MachineInv(s)
    ensures MachineInv(StampStep(s, d))
  {
    QuietStep(s, StampStep(s, d));
  }

  lemma MarkTokenKeepsMachine(s: State, d: CallId, o: Outcome)
    requires MachineInv(s)
    ensures MachineInv(MarkTokenStep(s, d, o))
  {
    QuietStep(s, MarkTokenStep(s, d, o));
  }

  lemma RecordKeepsMachine(s: State, d: CallId, o: Outcome)
    requires MachineInv(s)
    ensures MachineInv(RecordStep(s, d, o))
  {
    QuietStep(s, RecordStep(s, d, o));
  }

  lemma PutKeepsMachine(s: State, d: CallId, k: Call)
    requires MachineInv(s) && MachineAgrees(s.hosts, k)
    ensures MachineInv(Put(s, d, k))
  {
    forall c | c in Put(s, d, k).calls ensures MachineAgrees(s.hosts, Put(s, d, k).calls[c]) {
      assert c != d ==> MachineAgrees(s.hosts, s.calls[c]);
    }
  }

  lemma ByTokenKeepsMachine(s: State, d: CallId, row: TokenId, o: Outcome)
    requires MachineInv(s) && At(s, d, Authenticate) && !s.calls[d].reEnroll
    ensures MachineInv(AuthenticateByToken(s, d, row, o))
  {
    var k, rows := s.calls[d], ClaimSet(s, s.calls[d].req.token);
    assert MachineAgrees(s.hosts, k);
    var s1 := Claim(s, d, rows);
    QuietStep(s, s1);
    PutKeepsMachine(s, d, k.(pc := Rejected(InvalidArgument)));
    PutKeepsMachine(s, d, k.(pc := Rejected(Unauthenticated)));
    PutKeepsMachine(s1, d, k.(pc := Rejected(Unauthenticated)));
    if row in rows {
      PutKeepsMachine(s1, d, k.(pc := Resolve, token := Some(row), org := Some(s.tokens[row].org)));
    }
  }

  lemma AuthenticateKeepsMachine(s: State, d: CallId, row: TokenId, o: Outcome)
    requires Inv(s) && MachineInv(s) && StepKeepsMachine(s, DoAuthenticate(d, row, o))
    ensures MachineInv(AuthenticateStep(s, d, row, o))
  {
    if At(s, d, Authenticate) {
      assert MachineAgrees(s.hosts, s.calls[d]);
      if s.calls[d].reEnroll {
        PutKeepsMachine(s, d, AuthenticateByCert(s, d, o).calls[d]);
      } else {
        ByTokenKeepsMachine(s, d, row, o);
      }
    }
  }

  lemma ResolveKeepsMachine(s: State, d: CallId, found: HostId, o: Outcome)
    requires Inv(s) && MachineInv(s)
    ensures MachineInv(ResolveStep(s, d, found, o))
  {
    var s' := ResolveStep(s, d, found, o);
    assert found in s.hosts ==> found in s.mintedBy by {
      assert found in s.hosts ==> HostOk(s, found);
    }
    forall c | c in s'.calls ensures MachineAgrees(s'.hosts, s'.calls[c]) {
      assert MachineAgrees(s.hosts, s.calls[c]);
      assert LocalsOk(s.calls[c]) by {
        assert CallOk(s, c, s.calls[c]);
      }
    }
  }

  lemma UpsertKeepsMachine(s: State, d: CallId, o: Outcome)
    requires Inv(s) && MachineInv(s)
    ensures MachineInv(UpsertStep(s, d, o))
  {
    UpsertChangesOneRow(s, d, o);
    if UpsertStep(s, d, o).hosts == s.hosts {
      QuietStep(s, UpsertStep(s, d, o));
    } else {
      RowWriteKeepsMachine(s, UpsertStep(s, d, o), d);
    }
  }

  lemma UpsertChangesOneRow(s: State, d: CallId, o: Outcome)
    ensures
      var s' := UpsertStep(s, d, o);
      && (forall c :: c in s'.calls ==> c in s.calls && SameView(s.calls[c], s'.calls[c]))
      && (s'.hosts != s.hosts ==>
            && d in s.calls && s.calls[d].host.Some? && s.calls[d].org.Some?
            && s'.hosts == s.hosts[s.calls[d].host.value := RowOf(s.calls[d])])
  {
  }

  lemma RowWriteKeepsMachine(s: State, s': State, d: CallId)
    requires Inv(s) && MachineInv(s) && d in s.calls && s.calls[d].host.Some? && s.calls[d].org.Some?
    requires s'.hosts == s.hosts[s.calls[d].host.value := RowOf(s.calls[d])]
    requires forall c :: c in s'.calls ==> c in s.calls && SameView(s.calls[c], s'.calls[c])
    ensures MachineInv(s')
  {
    forall c | c in s'.calls ensures MachineAgrees(s'.hosts, s'.calls[c]) {
      assert MachineAgrees(s.hosts, s.calls[c]) && MachineAgrees(s.hosts, s.calls[d]);
      RowWriteAgrees(s, d, c);
    }
  }

  lemma RowWriteAgrees(s: State, d: CallId, c: CallId)
    requires Inv(s) && c in s.calls && d in s.calls && s.calls[d].host.Some? && s.calls[d].org.Some?
    requires MachineAgrees(s.hosts, s.calls[c]) && MachineAgrees(s.hosts, s.calls[d])
    ensures MachineAgrees(s.hosts[s.calls[d].host.value := RowOf(s.calls[d])], s.calls[c])
  {
    assert CallOk(s, c, s.calls[c]) && CallOk(s, d, s.calls[d]);
  }

  lemma StepKeepsMachineInv(s: State, e: Event)
    requires Inv(s) && MachineInv(s) && StepKeepsMachine(s, e)
    ensures MachineInv(Step(s, e))
  {
    match e
    case Tick(_) =>
    case InsertToken(_, _, _, _) =>
    case RevokeToken(_) =>
    case DoBegin(d, req) => BeginKeepsMachine(s, d, req);
    case DoAuthenticate(d, row, o) => AuthenticateKeepsMachine(s, d, row, o);
    case DoResolve(d, found, o) => ResolveKeepsMachine(s, d, found, o);
    case DoIssue(d, serial, accepted) => IssueKeepsMachine(s, d, serial, accepted);
    case DoStamp(d) => StampKeepsMachine(s, d);
    case DoUpsert(d, o) => UpsertKeepsMachine(s, d, o);
    case DoMarkToken(d, o) => MarkTokenKeepsMachine(s, d, o);
    case DoRecord(d, o) => RecordKeepsMachine(s, d, o);
  }

  lemma {:induction false} RunKeepsMachineInv(s: State, events: seq<Event>)
    requires Inv(s) && MachineInv(s) && RenewalsKeepMachine(s, events)
    ensures MachineInv(Run(s, events))
    decreases |events|
  {
    if events != [] {
      StepKeeps(s, events[0]);
      StepKeepsMachineInv(s, events[0]);
      RunKeepsMachineInv(Step(s, events[0]), events[1..]);
    }
  }

  // Main result: as long as renewals keep their machine id, all responses for one machine id in one
  // org carry the same agent id, even when several calls resolve a fresh id for it at once.
  lemma SameMachineSameAgent(t0: Time, events: seq<Event>, c: CallId, d: CallId)
    requires RenewalsKeepMachine(Init(t0), events)
    requires
      var s := Run(Init(t0), events);
      && At(s, c, Returned) && At(s, d, Returned)
      && s.calls[c].req.machineId == s.calls[d].req.machineId != ""
      && s.calls[c].org == s.calls[d].org
    ensures Run(Init(t0), events).calls[c].host == Run(Init(t0), events).calls[d].host
  {
    InitOk(t0);
    RunKeeps(Init(t0), events);
    RunKeepsMachineInv(Init(t0), events);
    var s := Run(Init(t0), events);
    assert CallOk(s, c, s.calls[c]) && MachineAgrees(s.hosts, s.calls[c]);
    assert CallOk(s, d, s.calls[d]) && MachineAgrees(s.hosts, s.calls[d]);
    assert !Clash(s.hosts, s.calls[c].host.value, s.calls[d].host.value);
  }
}
