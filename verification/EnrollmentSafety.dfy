// What every step of the enrollment protocol keeps, and what follows for every run.
module EnrollmentSafety {
  import opened Base
  import opened Enrollment
  import TokenCodec

  // ---------- the invariant ----------

  // How a call's position and its variables fit together.
  ghost predicate LocalsOk(k: Call) {
    && (k.reEnroll ==> k.req.peer.Some? && k.existing == k.req.peer.value.cn && k.existing != "")
    && (!k.reEnroll ==> k.existing == "")
    && (k.token.Some? <==> k.org.Some? && !k.reEnroll)
    && (k.host.Some? ==> k.org.Some?)
    && (k.cert.Some? ==> k.host.Some? && k.cert.value.cn == k.host.value && k.cert.value.csr == k.req.csr)
    && (k.now.Some? ==> k.cert.Some?)
    && (k.reEnroll && k.host.Some? ==> k.host.value == k.existing)
    && (k.pc == Authenticate ==> k.org.None?)
    && (k.pc == Resolve ==> k.org.Some? && k.host.None?)
    && (k.pc == Issue ==> k.host.Some? && k.cert.None?)
    && (k.pc == Stamp ==> k.cert.Some? && k.now.None?)
    && (Stamped(k) ==> k.now.Some?)
    && (k.pc == MarkToken ==> k.token.Some?)
  }

  ghost predicate Stamped(k: Call) {
    k.pc == Upsert || Upserted(k)
  }

  // The call's Upsert statement has succeeded.
  ghost predicate Upserted(k: Call) {
    k.pc == MarkToken || k.pc == Record || k.pc == Returned
  }

  // A first enrollment that got past authentication holds a token of its org that it claimed itself.
  ghost predicate TokenHeld(tokens: map<TokenId, TokenRow>, claimedBy: map<TokenId, CallId>, c: CallId, k: Call) {
    k.token.Some? ==>
      && k.token.value in claimedBy && claimedBy[k.token.value] == c
      && k.token.value in tokens
      && tokens[k.token.value].usedAt.Some?
      && k.org == Some(tokens[k.token.value].org)
      && tokens[k.token.value].hash == TokenCodec.Sha256(k.req.token)
  }

  ghost predicate HostHasOrg(hosts: map<HostId, HostRow>, h: HostId, org: Option<string>) {
    h in hosts && org == Some(hosts[h].org)
  }

  // The id a call holds agrees with the row, or the row does not exist yet and this call made up the id.
  ghost predicate HostHeld(hosts: map<HostId, HostRow>, mintedBy: map<HostId, CallId>, c: CallId, k: Call) {
    && (k.reEnroll && k.org.Some? ==> HostHasOrg(hosts, k.existing, k.org))
    && (k.host.Some? ==>
          && k.host.value in mintedBy
          && (k.host.value in hosts ==> HostHasOrg(hosts, k.host.value, k.org))
          && (k.host.value !in hosts ==> mintedBy[k.host.value] == c && !Upserted(k)))
  }

  ghost predicate CertHeld(clock: Time, k: Call) {
    && (k.cert.Some? ==> k.cert.value.notAfter <= clock + CLIENT_CERT_TTL)
    && (k.cert.Some? && k.now.Some? ==> k.cert.value.notAfter <= k.now.value + CLIENT_CERT_TTL && k.now.value <= clock)
  }

  // A call that returned has recorded its certificate.
  ghost predicate Recorded(identities: seq<IdentityRow>, k: Call) {
    k.pc == Returned && k.host.Some? && k.cert.Some? && k.now.Some? ==>
      IdentityRow(k.host.value, k.cert.value, k.now.value + CLIENT_CERT_TTL) in identities
  }

  ghost predicate CallOk(s: State, c: CallId, k: Call) {
    && LocalsOk(k)
    && TokenHeld(s.tokens, s.claimedBy, c, k)
    && HostHeld(s.hosts, s.mintedBy, c, k)
    && CertHeld(s.clock, k)
    && Recorded(s.identities, k)
  }

  // An id was generated by one first enrollment, which holds it.
  ghost predicate MintOk(s: State, h: HostId)
    requires h in s.mintedBy
  {
    && h != ""
    && s.mintedBy[h] in s.calls
    && s.calls[s.mintedBy[h]].host == Some(h)
    && !s.calls[s.mintedBy[h]].reEnroll
  }

  // A host row's org is the org of the call that generated its id.
  ghost predicate HostOk(s: State, h: HostId)
    requires h in s.hosts
  {
    h in s.mintedBy && s.mintedBy[h] in s.calls && s.calls[s.mintedBy[h]].org == Some(s.hosts[h].org)
  }

  ghost predicate TokenOk(s: State, t: TokenId)
    requires t in s.tokens
  {
    var row := s.tokens[t];
    && (row.usedAt.Some? <==> t in s.claimedBy)
    && (row.usedAt.Some? ==>
          s.claimedBy[t] in s.calls && row.usedAt.value < row.expiresAt && row.usedAt.value <= s.clock)
    && (row.revokedAt.Some? ==> row.revokedAt.value <= s.clock)
    && (row.usedAt.Some? && row.revokedAt.Some? ==> row.usedAt.value <= row.revokedAt.value)
    && (row.usedBy.Some? ==>
          && row.usedAt.Some?
          && s.calls[s.claimedBy[t]].token == Some(t)
          && s.calls[s.claimedBy[t]].host == row.usedBy
          && HostHasOrg(s.hosts, row.usedBy.value, Some(row.org)))
  }

  ghost predicate IdentityOk(s: State, row: IdentityRow) {
    row.host in s.hosts && row.cert.cn == row.host && row.expiresAt >= row.cert.notAfter
  }

  ghost predicate Clash(hosts: map<HostId, HostRow>, g: HostId, h: HostId)
    requires g in hosts && h in hosts
  {
    g != h && hosts[g].machine.Some? && hosts[h].machine == hosts[g].machine && hosts[h].org == hosts[g].org
  }

  ghost predicate UniqueMachines(hosts: map<HostId, HostRow>) {
    forall g, h {:trigger Clash(hosts, g, h)} :: g in hosts && h in hosts ==> !Clash(hosts, g, h)
  }

  // The triggers keep the verifier from unfolding one part of the invariant into the next.
  ghost predicate Inv(s: State) {
    && (forall c {:trigger CallOk(s, c, s.calls[c])} :: c in s.calls ==> CallOk(s, c, s.calls[c]))
    && (forall h {:trigger MintOk(s, h)} :: h in s.mintedBy ==> MintOk(s, h))
    && (forall h {:trigger HostOk(s, h)} :: h in s.hosts ==> HostOk(s, h))
    && s.claimedBy.Keys <= s.tokens.Keys
    && (forall t {:trigger TokenOk(s, t)} :: t in s.tokens ==> TokenOk(s, t))
    && (forall row {:trigger IdentityOk(s, row)} :: row in s.identities ==> IdentityOk(s, row))
    && UniqueMachines(s.hosts)
  }

  // ---------- what no step undoes ----------

  // Variables of a call are assigned at most once.
  ghost predicate CallGrows(k: Call, k': Call) {
    && k'.req == k.req && k'.reEnroll == k.reEnroll && k'.existing == k.existing
    && (k.token.Some? ==> k'.token == k.token)
    && (k.org.Some? ==> k'.org == k.org)
    && (k.host.Some? ==> k'.host == k.host)
    && (k.cert.Some? ==> k'.cert == k.cert)
    && (k.now.Some? ==> k'.now == k.now)
  }

  // A token is used at most once, not after its revocation, and keeps its identity.
  ghost predicate TokenGrows(row: TokenRow, row': TokenRow) {
    && row'.hash == row.hash && row'.org == row.org && row'.expiresAt == row.expiresAt
    && (row.usedAt.Some? ==> row'.usedAt == row.usedAt)
    && (row.revokedAt.Some? ==> row'.revokedAt == row.revokedAt && row'.usedAt == row.usedAt)
    && (row.usedBy.Some? ==> row'.usedBy == row.usedBy)
  }

  ghost predicate CallsGrow(calls: map<CallId, Call>, calls': map<CallId, Call>) {
    && calls.Keys <= calls'.Keys
    && forall c {:trigger CallGrows(calls[c], calls'[c])} :: c in calls ==> CallGrows(calls[c], calls'[c])
  }

  ghost predicate TokensGrow(tokens: map<TokenId, TokenRow>, tokens': map<TokenId, TokenRow>) {
    && tokens.Keys <= tokens'.Keys
    && forall t {:trigger TokenGrows(tokens[t], tokens'[t])} :: t in tokens ==> TokenGrows(tokens[t], tokens'[t])
  }

  ghost predicate SameOrg(row: HostRow, row': HostRow) {
    row'.org == row.org
  }

  // No host row disappears and none changes its org.
  ghost predicate HostsGrow(hosts: map<HostId, HostRow>, hosts': map<HostId, HostRow>) {
    && hosts.Keys <= hosts'.Keys
    && forall h {:trigger SameOrg(hosts[h], hosts'[h])} :: h in hosts ==> SameOrg(hosts[h], hosts'[h])
  }

  ghost predicate Extends<K, V>(m: map<K, V>, m': map<K, V>) {
    && m.Keys <= m'.Keys
    && forall k {:trigger m'[k]} :: k in m ==> m'[k] == m[k]
  }

  ghost predicate Evolves(s: State, s': State) {
    && s.clock <= s'.clock
    && CallsGrow(s.calls, s'.calls) && TokensGrow(s.tokens, s'.tokens) && HostsGrow(s.hosts, s'.hosts)
    && Extends(s.claimedBy, s'.claimedBy) && Extends(s.mintedBy, s'.mintedBy)
    && s.identities <= s'.identities
  }

  // Host rows appear only under the id their inserter generated.
  ghost predicate InsertedBy(s: State, s': State, actor: Option<CallId>) {
    forall h :: h in s'.hosts && h !in s.hosts ==> h in s.mintedBy && actor == Some(s.mintedBy[h])
  }

  ghost predicate OthersUnchanged(s: State, s': State, actor: Option<CallId>) {
    forall c :: c in s'.calls && actor != Some(c) ==> c in s.calls && s'.calls[c] == s.calls[c]
  }

  lemma EvolvesTransitive(s: State, s1: State, s2: State)
    requires Evolves(s, s1) && Evolves(s1, s2)
    ensures Evolves(s, s2)
  {
    forall c | c in s.calls ensures CallGrows(s.calls[c], s2.calls[c]) {
      assert CallGrows(s.calls[c], s1.calls[c]) && CallGrows(s1.calls[c], s2.calls[c]);
    }
    forall t | t in s.tokens ensures TokenGrows(s.tokens[t], s2.tokens[t]) {
      assert TokenGrows(s.tokens[t], s1.tokens[t]) && TokenGrows(s1.tokens[t], s2.tokens[t]);
    }
    forall h | h in s.hosts ensures SameOrg(s.hosts[h], s2.hosts[h]) {
      assert SameOrg(s.hosts[h], s1.hosts[h]) && SameOrg(s1.hosts[h], s2.hosts[h]);
    }
  }

  lemma EvolvesReflexive(s: State)
    ensures Evolves(s, s)
  {
  }

  // ---------- framing ----------

  lemma OrgKept(hosts: map<HostId, HostRow>, hosts': map<HostId, HostRow>, h: HostId, org: Option<string>)
    requires HostsGrow(hosts, hosts') && HostHasOrg(hosts, h, org)
    ensures HostHasOrg(hosts', h, org)
  {
    assert SameOrg(hosts[h], hosts'[h]);
  }

  lemma OtherCallKept(s: State, s': State, actor: Option<CallId>, c: CallId)
    requires Evolves(s, s') && InsertedBy(s, s', actor) && OthersUnchanged(s, s', actor)
    requires c in s'.calls && actor != Some(c) && CallOk(s, c, s'.calls[c])
    ensures CallOk(s', c, s'.calls[c])
  {
    var k := s'.calls[c];
    if k.token.Some? {
      assert TokenGrows(s.tokens[k.token.value], s'.tokens[k.token.value]);
    }
    if k.reEnroll && k.org.Some? {
      OrgKept(s.hosts, s'.hosts, k.existing, k.org);
    }
    if k.host.Some? && k.host.value in s.hosts {
      OrgKept(s.hosts, s'.hosts, k.host.value, k.org);
    }
  }

  lemma MintKept(s: State, s': State, h: HostId)
    requires h in s.mintedBy && MintOk(s, h) && Evolves(s, s')
    ensures MintOk(s', h)
  {
    var c := s.mintedBy[h];
    assert CallGrows(s.calls[c], s'.calls[c]);
  }

  lemma HostKept(s: State, s': State, h: HostId)
    requires h in s.hosts && HostOk(s, h) && Evolves(s, s')
    ensures HostOk(s', h)
  {
    var c := s.mintedBy[h];
    assert CallGrows(s.calls[c], s'.calls[c]) && SameOrg(s.hosts[h], s'.hosts[h]);
  }

  ghost predicate SameToken(s: State, s': State, t: TokenId) {
    && t in s.tokens && t in s'.tokens && s'.tokens[t] == s.tokens[t]
    && (t in s.claimedBy <==> t in s'.claimedBy)
  }

  lemma TokenKept(s: State, s': State, t: TokenId)
    requires Evolves(s, s') && SameToken(s, s', t) && TokenOk(s, t)
    ensures TokenOk(s', t)
  {
    var row := s.tokens[t];
    if row.usedAt.Some? {
      var c := s.claimedBy[t];
      assert CallGrows(s.calls[c], s'.calls[c]);
      if row.usedBy.Some? {
        OrgKept(s.hosts, s'.hosts, row.usedBy.value, Some(row.org));
      }
    }
  }

  ghost predicate NewMintsOk(s: State, s': State) {
    forall h {:trigger MintOk(s', h)} :: h in s'.mintedBy && h !in s.mintedBy ==> MintOk(s', h)
  }

  ghost predicate NewHostsOk(s: State, s': State) {
    forall h {:trigger HostOk(s', h)} :: h in s'.hosts && h !in s.hosts ==> HostOk(s', h)
  }

  ghost predicate ChangedTokensOk(s: State, s': State) {
    && s'.claimedBy.Keys <= s'.tokens.Keys
    && forall t {:trigger TokenOk(s', t)} :: t in s'.tokens ==> SameToken(s, s', t) || TokenOk(s', t)
  }

  ghost predicate NewIdentitiesOk(s: State, s': State) {
    forall row {:trigger IdentityOk(s', row)} :: row in s'.identities ==> row in s.identities || IdentityOk(s', row)
  }

  // A step keeps the invariant if what it changes is in order.
  lemma Assemble(s: State, s': State, actor: Option<CallId>)
    requires Inv(s) && Evolves(s, s') && InsertedBy(s, s', actor) && OthersUnchanged(s, s', actor)
    requires actor.Some? && actor.value in s'.calls ==> CallOk(s', actor.value, s'.calls[actor.value])
    requires NewMintsOk(s, s') && NewHostsOk(s, s') && ChangedTokensOk(s, s') && NewIdentitiesOk(s, s')
    requires UniqueMachines(s'.hosts)
    ensures Inv(s')
  {
    forall c | c in s'.calls ensures CallOk(s', c, s'.calls[c]) {
      if actor != Some(c) {
        assert CallOk(s, c, s.calls[c]);
        OtherCallKept(s, s', actor, c);
      }
    }
    forall h | h in s'.mintedBy ensures MintOk(s', h) {
      if h in s.mintedBy {
        MintKept(s, s', h);
      }
    }
    forall h | h in s'.hosts ensures HostOk(s', h) {
      if h in s.hosts {
        HostKept(s, s', h);
      }
    }
    forall t | t in s'.tokens ensures TokenOk(s', t) {
      if SameToken(s, s', t) {
        TokenKept(s, s', t);
      }
    }
    forall row | row in s'.identities ensures IdentityOk(s', row) {
      if row in s.identities {
        assert IdentityOk(s, row);
      }
    }
  }

  // Steps that only advance one call.
  lemma CallOnly(s: State, c: CallId, k: Call)
    requires Inv(s) && c in s.calls && CallGrows(s.calls[c], k)
    requires CallOk(s, c, s.calls[c]) ==> CallOk(Put(s, c, k), c, k)
    ensures Kept(s, Put(s, c, k))
  {
    assert CallOk(s, c, s.calls[c]);
    Assemble(s, Put(s, c, k), Some(c));
  }

  ghost predicate Kept(s: State, s': State) {
    Inv(s') && Evolves(s, s')
  }

  lemma InsertTokenKeeps(s: State, id: TokenId, plain: string, org: string, expiresAt: Time)
    requires Inv(s)
    ensures Kept(s, InsertTokenStep(s, id, plain, org, expiresAt))
  {
    var s' := InsertTokenStep(s, id, plain, org, expiresAt);
    if s' == s {
      EvolvesReflexive(s);
    } else {
      assert TokenOk(s', id);
      assert Evolves(s, s');
      Assemble(s, s', None);
    }
  }

  lemma RevokeTokenKeeps(s: State, id: TokenId)
    requires Inv(s)
    ensures Kept(s, RevokeTokenStep(s, id))
  {
    var s' := RevokeTokenStep(s, id);
    if s' != s {
      assert TokenOk(s, id);
      assert Evolves(s, s');
    }
    Assemble(s, s', None);
  }

  lemma TickKeeps(s: State, elapsed: nat)
    requires Inv(s)
    ensures Kept(s, Step(s, Tick(elapsed)))
  {
    Assemble(s, Step(s, Tick(elapsed)), None);
  }

  lemma BeginKeeps(s: State, c: CallId, req: Request)
    requires Inv(s)
    ensures Kept(s, BeginStep(s, c, req))
  {
    EvolvesReflexive(s);
    var s' := BeginStep(s, c, req);
    if s' != s {
      if req.peer.Some? {
        var d :| d in s.calls && s.calls[d].cert == Some(req.peer.value);
        assert CallOk(s, d, s.calls[d]);
        assert MintOk(s, s.calls[d].host.value);
      }
      assert Evolves(s, s');
      Assemble(s, s', Some(c));
    }
  }

  lemma RejectKeeps(s: State, c: CallId, code: Code)
    requires Inv(s) && c in s.calls
    ensures Kept(s, Reject(s, c, code))
  {
    CallOnly(s, c, s.calls[c].(pc := Rejected(code)));
  }

  lemma IssueKeeps(s: State, c: CallId, serial: nat, accepted: bool)
    requires Inv(s)
    ensures Kept(s, IssueStep(s, c, serial, accepted))
  {
    EvolvesReflexive(s);
    if IssueStep(s, c, serial, accepted) != s {
      assert CallOk(s, c, s.calls[c]);
      CallOnly(s, c, IssueStep(s, c, serial, accepted).calls[c]);
    }
  }

  lemma StampKeeps(s: State, c: CallId)
    requires Inv(s)
    ensures Kept(s, StampStep(s, c))
  {
    EvolvesReflexive(s);
    if At(s, c, Stamp) {
      assert CallOk(s, c, s.calls[c]);
      CallOnly(s, c, StampStep(s, c).calls[c]);
    }
  }

  lemma ClaimKeeps(s: State, c: CallId, plain: string)
    requires Inv(s) && c in s.calls
    ensures Kept(s, Claim(s, c, ClaimSet(s, plain)))
  {
    var s1 := Claim(s, c, ClaimSet(s, plain));
    forall t | t in s.tokens ensures TokenGrows(s.tokens[t], s1.tokens[t]) && (SameToken(s, s1, t) || TokenOk(s1, t)) {
      assert TokenOk(s, t);
    }
    forall t | t in s.claimedBy ensures t in s.tokens && t !in ClaimSet(s, plain) {
      assert TokenOk(s, t);
    }
    assert CallOk(s, c, s.calls[c]);
    assert Evolves(s, s1);
    OtherCallKept(s, s1, None, c);
    Assemble(s, s1, Some(c));
  }

  // A call that has claimed `row` in an earlier state gets past authentication.
  lemma AdmitClaimant(s: State, c: CallId, row: TokenId)
    requires Inv(s) && At(s, c, Authenticate) && !s.calls[c].reEnroll
    requires row in ClaimSet(s, s.calls[c].req.token)
    ensures
      var s1 := Claim(s, c, ClaimSet(s, s.calls[c].req.token));
      Kept(s1, Put(s1, c, s.calls[c].(pc := Resolve, token := Some(row), org := Some(s.tokens[row].org))))
  {
    var k := s.calls[c];
    assert CallOk(s, c, k);
    ClaimKeeps(s, c, k.req.token);
    CallOnly(Claim(s, c, ClaimSet(s, k.req.token)), c,
             k.(pc := Resolve, token := Some(row), org := Some(s.tokens[row].org)));
  }

  lemma RenewalKeeps(s: State, c: CallId, row: TokenId, o: Outcome)
    requires Inv(s) && At(s, c, Authenticate) && s.calls[c].reEnroll
    ensures Kept(s, AuthenticateStep(s, c, row, o))
  {
    var k := s.calls[c];
    assert CallOk(s, c, k);
    if o.Done? && k.existing in s.hosts {
      CallOnly(s, c, k.(pc := Resolve, org := Some(s.hosts[k.existing].org)));
    } else {
      RejectKeeps(s, c, Unauthenticated);
    }
  }

  lemma AuthenticateKeeps(s: State, c: CallId, row: TokenId, o: Outcome)
    requires Inv(s)
    ensures Kept(s, AuthenticateStep(s, c, row, o))
  {
    if !At(s, c, Authenticate) {
      EvolvesReflexive(s);
    } else if s.calls[c].reEnroll {
      RenewalKeeps(s, c, row, o);
    } else {
      FirstEnrollmentKeeps(s, c, row, o);
    }
  }

  lemma FirstEnrollmentKeeps(s: State, c: CallId, row: TokenId, o: Outcome)
    requires Inv(s) && At(s, c, Authenticate) && !s.calls[c].reEnroll
    ensures Kept(s, AuthenticateStep(s, c, row, o))
  {
    var plain := s.calls[c].req.token;
    var rows := ClaimSet(s, plain);
    var s1 := Claim(s, c, rows);
    if !TokenCodec.WellFormed(plain) {
      RejectKeeps(s, c, InvalidArgument);
    } else if o.FailedBefore? || rows == {} {
      RejectKeeps(s, c, Unauthenticated);
    } else if o.FailedAfter? {
      ClaimKeeps(s, c, plain);
      RejectKeeps(s1, c, Unauthenticated);
      EvolvesTransitive(s, s1, Reject(s1, c, Unauthenticated));
    } else if row !in rows {
      EvolvesReflexive(s);
    } else {
      ClaimKeeps(s, c, plain);
      AdmitClaimant(s, c, row);
      EvolvesTransitive(s, s1, AuthenticateStep(s, c, row, o));
    }
  }

  lemma FreshIdKeeps(s: State, c: CallId, h: HostId)
    requires Inv(s) && At(s, c, Resolve) && s.calls[c].existing == "" && h != "" && h !in s.mintedBy
    ensures Kept(s, Put(s, c, s.calls[c].(pc := Issue, host := Some(h))).(mintedBy := s.mintedBy[h := c]))
  {
    var s' := Put(s, c, s.calls[c].(pc := Issue, host := Some(h))).(mintedBy := s.mintedBy[h := c]);
    assert CallOk(s, c, s.calls[c]);
    assert h in s.hosts ==> HostOk(s, h);
    assert MintOk(s', h) && CallOk(s', c, s'.calls[c]);
    Assemble(s, s', Some(c));
  }

  lemma KnownIdKeeps(s: State, c: CallId, h: HostId)
    requires Inv(s) && At(s, c, Resolve) && HostHasOrg(s.hosts, h, s.calls[c].org)
    requires s.calls[c].reEnroll ==> h == s.calls[c].existing
    ensures Kept(s, Put(s, c, s.calls[c].(pc := Issue, host := Some(h))))
  {
    assert HostOk(s, h);
    assert CallOk(s, c, s.calls[c]);
    CallOnly(s, c, s.calls[c].(pc := Issue, host := Some(h)));
  }

  lemma ResolveKeeps(s: State, c: CallId, found: HostId, o: Outcome)
    requires Inv(s)
    ensures Kept(s, ResolveStep(s, c, found, o))
  {
    EvolvesReflexive(s);
    var s' := ResolveStep(s, c, found, o);
    if s' != s {
      assert CallOk(s, c, s.calls[c]);
      if s.calls[c].existing != "" {
        KnownIdKeeps(s, c, s.calls[c].existing);
      } else if s'.mintedBy == s.mintedBy {
        KnownIdKeeps(s, c, found);
      } else {
        FreshIdKeeps(s, c, found);
      }
    }
  }

  lemma UniqueAfterWrite(s: State, h: HostId, row: HostRow)
    requires UniqueMachines(s.hosts) && !Conflicts(s, h, row)
    ensures UniqueMachines(s.hosts[h := row])
  {
    var hosts' := s.hosts[h := row];
    forall f, g | f in hosts' && g in hosts' ensures !Clash(hosts', f, g) {
      if f != h && g != h {
        assert !Clash(s.hosts, f, g);
      }
    }
  }

  lemma RowWritten(s: State, c: CallId)
    requires Inv(s) && At(s, c, Upsert) && s.calls[c].host.Some? && s.calls[c].org.Some?
    requires !Conflicts(s, s.calls[c].host.value, RowOf(s.calls[c]))
    ensures Kept(s, s.(hosts := s.hosts[s.calls[c].host.value := RowOf(s.calls[c])]))
  {
    var k := s.calls[c];
    var s1 := s.(hosts := s.hosts[k.host.value := RowOf(k)]);
    assert CallOk(s, c, k);
    if k.host.value in s.hosts {
      assert HostOk(s, k.host.value);
    } else {
      assert MintOk(s, k.host.value);
    }
    UniqueAfterWrite(s, k.host.value, RowOf(k));
    assert Evolves(s, s1);
    Assemble(s, s1, Some(c));
  }

  lemma UpsertKeeps(s: State, c: CallId, o: Outcome)
    requires Inv(s)
    ensures Kept(s, UpsertStep(s, c, o))
  {
    EvolvesReflexive(s);
    if At(s, c, Upsert) && s.calls[c].host.Some? && s.calls[c].org.Some? {
      var k, s' := s.calls[c], UpsertStep(s, c, o);
      if o.FailedBefore? || Conflicts(s, k.host.value, RowOf(k)) {
        RejectKeeps(s, c, Internal);
      } else {
        RowWritten(s, c);
        var s1 := s.(hosts := s.hosts[k.host.value := RowOf(k)]);
        CallOnly(s1, c, s'.calls[c]);
        EvolvesTransitive(s, s1, s');
      }
    }
  }

  lemma TokenMarked(s: State, c: CallId)
    requires Inv(s) && At(s, c, MarkToken) && s.calls[c].token.Some? && s.calls[c].token.value in s.tokens
    ensures
      var t := s.calls[c].token.value;
      Kept(s, s.(tokens := s.tokens[t := s.tokens[t].(usedBy := s.calls[c].host)]))
  {
    var k := s.calls[c];
    var t := k.token.value;
    var s1 := s.(tokens := s.tokens[t := s.tokens[t].(usedBy := k.host)]);
    assert CallOk(s, c, k) && TokenOk(s, t);
    assert Evolves(s, s1);
    Assemble(s, s1, Some(c));
  }

  lemma MarkTokenKeeps(s: State, c: CallId, o: Outcome)
    requires Inv(s)
    ensures Kept(s, MarkTokenStep(s, c, o))
  {
    EvolvesReflexive(s);
    if At(s, c, MarkToken) && s.calls[c].host.Some? && s.calls[c].token.Some? {
      var k, s' := s.calls[c], MarkTokenStep(s, c, o);
      var t := k.token.value;
      if o.FailedBefore? || t !in s.tokens {
        CallOnly(s, c, s'.calls[c]);
      } else {
        TokenMarked(s, c);
        var s1 := s.(tokens := s.tokens[t := s.tokens[t].(usedBy := k.host)]);
        CallOnly(s1, c, s'.calls[c]);
        EvolvesTransitive(s, s1, s');
      }
    }
  }

  lemma IdentityAdded(s: State, c: CallId)
    requires Inv(s) && At(s, c, Record) && s.calls[c].host.Some? && s.calls[c].cert.Some? && s.calls[c].now.Some?
    ensures
      var k := s.calls[c];
      var row := IdentityRow(k.host.value, k.cert.value, k.now.value + CLIENT_CERT_TTL);
      Kept(s, s.(identities := s.identities + [row]))
  {
    var k := s.calls[c];
    var row := IdentityRow(k.host.value, k.cert.value, k.now.value + CLIENT_CERT_TTL);
    var s1 := s.(identities := s.identities + [row]);
    assert CallOk(s, c, k);
    assert Evolves(s, s1);
    Assemble(s, s1, Some(c));
  }

  lemma RecordKeeps(s: State, c: CallId, o: Outcome)
    requires Inv(s)
    ensures Kept(s, RecordStep(s, c, o))
  {
    EvolvesReflexive(s);
    if At(s, c, Record) && s.calls[c].host.Some? && s.calls[c].cert.Some? && s.calls[c].now.Some? {
      var k, s' := s.calls[c], RecordStep(s, c, o);
      if s'.identities == s.identities {
        RejectKeeps(s, c, Internal);
      } else {
        var row := IdentityRow(k.host.value, k.cert.value, k.now.value + CLIENT_CERT_TTL);
        var s1 := s.(identities := s.identities + [row]);
        IdentityAdded(s, c);
        if o.FailedAfter? {
          RejectKeeps(s1, c, Internal);
        } else {
          CallOnly(s1, c, k.(pc := Returned));
        }
        EvolvesTransitive(s, s1, s');
      }
    }
  }

  lemma StepKeeps(s: State, e: Event)
    requires Inv(s)
    ensures Kept(s, Step(s, e))
  {
    match e
    case Tick(elapsed) => TickKeeps(s, elapsed);
    case InsertToken(id, plain, org, expiresAt) => InsertTokenKeeps(s, id, plain, org, expiresAt);
    case RevokeToken(id) => RevokeTokenKeeps(s, id);
    case DoBegin(c, req) => BeginKeeps(s, c, req);
    case DoAuthenticate(c, row, o) => AuthenticateKeeps(s, c, row, o);
    case DoResolve(c, found, o) => ResolveKeeps(s, c, found, o);
    case DoIssue(c, serial, accepted) => IssueKeeps(s, c, serial, accepted);
    case DoStamp(c) => StampKeeps(s, c);
    case DoUpsert(c, o) => UpsertKeeps(s, c, o);
    case DoMarkToken(c, o) => MarkTokenKeeps(s, c, o);
    case DoRecord(c, o) => RecordKeeps(s, c, o);
  }

  lemma {:induction false} RunKeeps(s: State, events: seq<Event>)
    requires Inv(s)
    ensures Kept(s, Run(s, events))
    decreases |events|
  {
    EvolvesReflexive(s);
    if events != [] {
      StepKeeps(s, events[0]);
      RunKeeps(Step(s, events[0]), events[1..]);
      EvolvesTransitive(s, Step(s, events[0]), Run(s, events));
    }
  }
}
