// The enrollment protocol: internal/enrollment/service.go over the tables of internal/db/store.
//
// Enroll is a sequence of separate SQL statements without a transaction. Each statement, each
// certificate issue and each clock reading is one step of a call, and steps of different calls
// interleave in any order. A step that is not enabled in a state leaves it unchanged, so every
// sequence of events is a run.
module Enrollment {
  import opened Base
  import TokenCodec

  type HostId = string
  type TokenId = string
  type CallId = nat

  const CLIENT_CERT_TTL: Time := 24 * 3600 * SECOND

  // ---------- tables ----------

  datatype TokenRow = TokenRow(
    hash: TokenCodec.Digest,
    org: string,
    expiresAt: Time,
    usedAt: Option<Time>,
    usedBy: Option<HostId>,
    revokedAt: Option<Time>)

  // `details` stands for the columns that are only copied from the request.
  datatype HostRow = HostRow(hostname: string, details: string, machine: Option<string>, org: string)

  // The certificate as the CA signs it; two certificates have one fingerprint iff they are equal.
  datatype Cert = Cert(cn: HostId, csr: string, serial: nat, notAfter: Time)

  datatype IdentityRow = IdentityRow(host: HostId, cert: Cert, expiresAt: Time)

  // ---------- calls in flight ----------

  // `peer` is the leaf of the first verified chain of the TLS peer, if there is one.
  datatype Request = Request(
    peer: Option<Cert>,
    token: string,
    csr: string,
    hostname: string,
    machineId: string,
    details: string)

  datatype Code = InvalidArgument | Unauthenticated | Internal

  // The step a call takes next, or how it ended.
  datatype Pc = Authenticate | Resolve | Issue | Stamp | Upsert | MarkToken | Record | Returned | Rejected(code: Code)

  // A call's position and its local variables; None is a variable not yet assigned.
  datatype Call = Call(
    pc: Pc,
    req: Request,
    reEnroll: bool,
    existing: HostId,
    token: Option<TokenId>,
    org: Option<string>,
    host: Option<HostId>,
    cert: Option<Cert>,
    now: Option<Time>)

  // `claimedBy` and `mintedBy` are history: the call whose statement claimed a token, and the call
  // that generated a host id.
  datatype State = State(
    clock: Time,
    tokens: map<TokenId, TokenRow>,
    hosts: map<HostId, HostRow>,
    identities: seq<IdentityRow>,
    calls: map<CallId, Call>,
    claimedBy: map<TokenId, CallId>,
    mintedBy: map<HostId, CallId>)

  function Init(clock: Time): State {
    State(clock, map[], map[], [], map[], map[], map[])
  }

  // ---------- events ----------

  // A statement succeeds, fails without effect, or takes effect although its caller sees an error.
  datatype Outcome = Done | FailedBefore | FailedAfter

  datatype Event =
    | Tick(elapsed: nat)
    | InsertToken(id: TokenId, plain: string, org: string, expiresAt: Time)
    | RevokeToken(id: TokenId)
    | DoBegin(call: CallId, req: Request)
    | DoAuthenticate(call: CallId, row: TokenId, outcome: Outcome)
    | DoResolve(call: CallId, found: HostId, outcome: Outcome)
    | DoIssue(call: CallId, serial: nat, accepted: bool)
    | DoStamp(call: CallId)
    | DoUpsert(call: CallId, outcome: Outcome)
    | DoMarkToken(call: CallId, outcome: Outcome)
    | DoRecord(call: CallId, outcome: Outcome)

  // The call that takes the step, if a call does.
  function Actor(e: Event): Option<CallId> {
    match e
    case Tick(_) => None
    case InsertToken(_, _, _, _) => None
    case RevokeToken(_) => None
    case _ => Some(e.call)
  }

  predicate At(s: State, c: CallId, pc: Pc) {
    c in s.calls && s.calls[c].pc == pc
  }

  function Put(s: State, c: CallId, k: Call): State {
    s.(calls := s.calls[c := k])
  }

  function Reject(s: State, c: CallId, code: Code): State
    requires c in s.calls
  {
    Put(s, c, s.calls[c].(pc := Rejected(code)))
  }

  // Only certificates signed by this CA verify.
  predicate Issued(s: State, cert: Cert) {
    exists c :: c in s.calls && s.calls[c].cert == Some(cert)
  }

  // ---------- the steps ----------

  function InsertTokenStep(s: State, id: TokenId, plain: string, org: string, expiresAt: Time): State {
    if id in s.tokens then s
    else s.(tokens := s.tokens[id := TokenRow(TokenCodec.Sha256(plain), org, expiresAt, None, None, None)])
  }

  function RevokeTokenStep(s: State, id: TokenId): State {
    if id !in s.tokens || s.tokens[id].revokedAt.Some? then s
    else s.(tokens := s.tokens[id := s.tokens[id].(revokedAt := Some(s.clock))])
  }

  function Admitted(req: Request, now: Time): Call {
    var reEnroll := req.peer.Some? && req.peer.value.notAfter > now;
    var ok := (reEnroll || req.token != "") && req.csr != "" && req.hostname != "";
    Call(if ok then Authenticate else Rejected(InvalidArgument), req, reEnroll,
         if reEnroll then req.peer.value.cn else "", None, None, None, None, None)
  }

  function BeginStep(s: State, c: CallId, req: Request): State {
    if c in s.calls || (req.peer.Some? && !Issued(s, req.peer.value)) then s
    else Put(s, c, Admitted(req, s.clock))
  }

  // The rows the claiming UPDATE selects.
  predicate Claimable(s: State, t: TokenId, plain: string) {
    && t in s.tokens
    && s.tokens[t].hash == TokenCodec.Sha256(plain)
    && s.tokens[t].usedAt.None?
    && s.tokens[t].revokedAt.None?
    && s.tokens[t].expiresAt > s.clock
  }

  function ClaimSet(s: State, plain: string): set<TokenId> {
    set t | t in s.tokens && Claimable(s, t, plain)
  }

  function Claim(s: State, c: CallId, rows: set<TokenId>): State {
    s.(tokens := map t | t in s.tokens :: if t in rows then s.tokens[t].(usedAt := Some(s.clock)) else s.tokens[t],
       claimedBy := map t | t in s.claimedBy.Keys + rows :: if t in rows then c else s.claimedBy[t])
  }

  // A renewal reads the org of its host.
  function AuthenticateByCert(s: State, c: CallId, o: Outcome): State
    requires c in s.calls
  {
    if o.Done? && s.calls[c].existing in s.hosts then
      Put(s, c, s.calls[c].(pc := Resolve, org := Some(s.hosts[s.calls[c].existing].org)))
    else
      Reject(s, c, Unauthenticated)
  }

  // A first enrollment claims every row with its token's hash and is given the first row, `row`, of
  // those returned.
  function AuthenticateByToken(s: State, c: CallId, row: TokenId, o: Outcome): State
    requires c in s.calls
  {
    var rows := ClaimSet(s, s.calls[c].req.token);
    if !TokenCodec.WellFormed(s.calls[c].req.token) then Reject(s, c, InvalidArgument)
    else if o.FailedBefore? || rows == {} then Reject(s, c, Unauthenticated)
    else if o.FailedAfter? then Reject(Claim(s, c, rows), c, Unauthenticated)
    else if row !in rows then s
    else Put(Claim(s, c, rows), c, s.calls[c].(pc := Resolve, token := Some(row), org := Some(s.tokens[row].org)))
  }

  function AuthenticateStep(s: State, c: CallId, row: TokenId, o: Outcome): State {
    if !At(s, c, Authenticate) then s
    else if s.calls[c].reEnroll then AuthenticateByCert(s, c, o)
    else AuthenticateByToken(s, c, row, o)
  }

  predicate SameMachine(row: HostRow, machine: string, org: string) {
    row.machine == Some(machine) && row.org == org
  }

  // Any error of the lookup, not only "no rows", leads to a fresh id.
  function ResolveStep(s: State, c: CallId, found: HostId, o: Outcome): State {
    if !At(s, c, Resolve) || s.calls[c].org.None? then s
    else
      var k := s.calls[c];
      if k.existing != "" then
        Put(s, c, k.(pc := Issue, host := Some(k.existing)))
      else if k.req.machineId != "" && o.Done?
              && exists h :: h in s.hosts && SameMachine(s.hosts[h], k.req.machineId, k.org.value) then
        if found in s.hosts && SameMachine(s.hosts[found], k.req.machineId, k.org.value) then
          Put(s, c, k.(pc := Issue, host := Some(found)))
        else s
      else if found == "" || found in s.mintedBy then s
      else Put(s, c, k.(pc := Issue, host := Some(found))).(mintedBy := s.mintedBy[found := c])
  }

  function IssueStep(s: State, c: CallId, serial: nat, accepted: bool): State {
    if !At(s, c, Issue) || s.calls[c].host.None? then s
    else if !accepted then Reject(s, c, InvalidArgument)
    else
      var k := s.calls[c];
      Put(s, c, k.(pc := Stamp, cert := Some(Cert(k.host.value, k.req.csr, serial, s.clock + CLIENT_CERT_TTL))))
  }

  function StampStep(s: State, c: CallId): State {
    if !At(s, c, Stamp) then s
    else Put(s, c, s.calls[c].(pc := Upsert, now := Some(s.clock)))
  }

  function RowOf(k: Call): HostRow
    requires k.org.Some?
  {
    HostRow(k.req.hostname, k.req.details, if k.req.machineId == "" then None else Some(k.req.machineId), k.org.value)
  }

  // The unique index on (machine_id, org_id) where machine_id is not null.
  predicate Conflicts(s: State, h: HostId, row: HostRow) {
    row.machine.Some? && exists g :: g in s.hosts && g != h && SameMachine(s.hosts[g], row.machine.value, row.org)
  }

  function UpsertStep(s: State, c: CallId, o: Outcome): State {
    if !At(s, c, Upsert) || s.calls[c].host.None? || s.calls[c].org.None? then s
    else
      var k := s.calls[c];
      if o.FailedBefore? || Conflicts(s, k.host.value, RowOf(k)) then Reject(s, c, Internal)
      else
        var s' := s.(hosts := s.hosts[k.host.value := RowOf(k)]);
        if o.FailedAfter? then Reject(s', c, Internal)
        else Put(s', c, k.(pc := if k.token.Some? && k.token.value != "" then MarkToken else Record))
  }

  // A failure here is logged and the call goes on.
  function MarkTokenStep(s: State, c: CallId, o: Outcome): State {
    if !At(s, c, MarkToken) || s.calls[c].host.None? || s.calls[c].token.None? then s
    else
      var k := s.calls[c];
      var s' := Put(s, c, k.(pc := Record));
      if o.FailedBefore? || k.token.value !in s.tokens then s'
      else s'.(tokens := s.tokens[k.token.value := s.tokens[k.token.value].(usedBy := k.host)])
  }

  predicate AlreadyRecorded(identities: seq<IdentityRow>, cert: Cert) {
    exists i :: 0 <= i < |identities| && identities[i].cert == cert
  }

  function IdentityOf(k: Call): IdentityRow
    requires k.host.Some? && k.cert.Some? && k.now.Some?
  {
    IdentityRow(k.host.value, k.cert.value, k.now.value + CLIENT_CERT_TTL)
  }

  function RecordStep(s: State, c: CallId, o: Outcome): State {
    if !At(s, c, Record) || s.calls[c].host.None? || s.calls[c].cert.None? || s.calls[c].now.None? then s
    else if o.FailedBefore? || s.calls[c].host.value !in s.hosts
            || AlreadyRecorded(s.identities, s.calls[c].cert.value) then
      Reject(s, c, Internal)
    else
      var s' := s.(identities := s.identities + [IdentityOf(s.calls[c])]);
      if o.FailedAfter? then Reject(s', c, Internal) else Put(s', c, s.calls[c].(pc := Returned))
  }

  function Step(s: State, e: Event): State {
    match e
    case Tick(elapsed) => s.(clock := s.clock + elapsed)
    case InsertToken(id, plain, org, expiresAt) => InsertTokenStep(s, id, plain, org, expiresAt)
    case RevokeToken(id) => RevokeTokenStep(s, id)
    case DoBegin(c, req) => BeginStep(s, c, req)
    case DoAuthenticate(c, row, o) => AuthenticateStep(s, c, row, o)
    case DoResolve(c, found, o) => ResolveStep(s, c, found, o)
    case DoIssue(c, serial, accepted) => IssueStep(s, c, serial, accepted)
    case DoStamp(c) => StampStep(s, c)
    case DoUpsert(c, o) => UpsertStep(s, c, o)
    case DoMarkToken(c, o) => MarkTokenStep(s, c, o)
    case DoRecord(c, o) => RecordStep(s, c, o)
  }

  function Run(s: State, events: seq<Event>): State
    decreases |events|
  {
    if events == [] then s else Run(Step(s, events[0]), events[1..])
  }
}
