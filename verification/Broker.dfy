// The command broker, internal/command/broker.go, over the command_executions table, the rate limiter
// and the stream registry. Each limiter call, statement, registry lookup and send is one step; steps
// of different Issues, of Connects and of result handling interleave in any order.
module Broker {
  import opened Base
  import RateLimiting
  import Registry
  import Streams

  type HostId = string
  type CmdId = string
  type IssueId = nat

  // The dynamic type of IssueRequest.Command; `OtherType` is anything but the two the broker knows.
  datatype Command = Diagnostic(body: string) | Shell(body: string) | OtherType

  datatype IssueRequest = IssueRequest(
    host: HostId, tier: int, reason: string, issuedBy: string, timeout: int, command: Command)

  datatype CommandRequest = CommandRequest(
    id: CmdId, tier: int, reason: string, issuedBy: string, timeout: int, command: Command)

  datatype CommandResult = CommandResult(exitCode: int, output: string, error: string)

  datatype Status = Pending | Completed | Failed

  // `json` is the stored command_json, which is the marshalled CommandRequest.
  datatype CommandRow = CommandRow(
    host: HostId, tier: int, json: CommandRequest, reason: string, issuedBy: string,
    status: Status, result: Option<CommandResult>)

  datatype Pc = Limit | Build | Store | Lookup | Push | Ended

  // `id` and `ok` are what Issue returns; ok is false if it returns an error.
  datatype Issue = Issue(
    pc: Pc, req: IssueRequest, granted: bool, id: Option<CmdId>, conn: Option<Streams.ConnId>, ok: bool)

  // One call of Send on an agent's stream.
  datatype Sending = Sending(conn: Streams.ConnId, cr: CommandRequest, issue: IssueId, ok: bool)

  // `asked` is the limiter's history and decides its answers; `mintedBy` and `sends` are history.
  datatype State = State(
    start: Time,
    clock: Time,
    streams: Registry.State,
    asked: seq<RateLimiting.Request>,
    rows: map<CmdId, CommandRow>,
    issues: map<IssueId, Issue>,
    mintedBy: map<CmdId, IssueId>,
    sends: seq<Sending>)

  function Init(start: Time): State {
    State(start, start, Registry.EMPTY, [], map[], map[], map[], [])
  }

  datatype Outcome = Done | FailedBefore | FailedAfter

  datatype Event =
    | Tick(elapsed: nat)
    | OnStream(e: Registry.Event)
    | Call(issue: IssueId, req: IssueRequest)
    | DoLimit(issue: IssueId)
    | DoBuild(issue: IssueId, id: CmdId, marshalled: bool)
    | DoStore(issue: IssueId, outcome: Outcome)
    | DoLookup(issue: IssueId)
    | DoSend(issue: IssueId, ok: bool)
    | Complete(id: CmdId, result: CommandResult, outcome: Outcome)

  predicate At(s: State, i: IssueId, pc: Pc) {
    i in s.issues && s.issues[i].pc == pc
  }

  function Put(s: State, i: IssueId, k: Issue): State {
    s.(issues := s.issues[i := k])
  }

  function RequestOf(id: CmdId, req: IssueRequest): CommandRequest {
    CommandRequest(id, req.tier, req.reason, req.issuedBy, req.timeout, req.command)
  }

  function PendingRow(id: CmdId, req: IssueRequest): CommandRow {
    CommandRow(req.host, req.tier, RequestOf(id, req), req.reason, req.issuedBy, Pending, None)
  }

  function Begun(req: IssueRequest): Issue {
    Issue(Limit, req, false, None, None, false)
  }

  function CallStep(s: State, i: IssueId, req: IssueRequest): State {
    if i in s.issues then s else Put(s, i, Begun(req))
  }

  function LimitStep(s: State, i: IssueId): State {
    if !At(s, i, Limit) then s
    else
      var asked := s.asked + [RateLimiting.Request(s.issues[i].req.host, s.clock)];
      if RateLimiting.Granted(asked) then
        Put(s, i, s.issues[i].(pc := Build, granted := true)).(asked := asked)
      else
        Put(s, i, s.issues[i].(pc := Ended)).(asked := asked)
  }

  function BuildStep(s: State, i: IssueId, id: CmdId, marshalled: bool): State {
    if !At(s, i, Build) || id in s.mintedBy then s
    else if s.issues[i].req.command.OtherType? || !marshalled then
      Put(s, i, s.issues[i].(pc := Ended)).(mintedBy := s.mintedBy[id := i])
    else
      Put(s, i, s.issues[i].(pc := Store, id := Some(id))).(mintedBy := s.mintedBy[id := i])
  }

  // Issue returns no id when the insert fails.
  function StoreStep(s: State, i: IssueId, o: Outcome): State {
    if !At(s, i, Store) || s.issues[i].id.None? then s
    else
      var id := s.issues[i].id.value;
      if o.FailedBefore? || id in s.rows then Put(s, i, s.issues[i].(pc := Ended, id := None))
      else if o.FailedAfter? then
        Put(s, i, s.issues[i].(pc := Ended, id := None)).(rows := s.rows[id := PendingRow(id, s.issues[i].req)])
      else
        Put(s, i, s.issues[i].(pc := Lookup)).(rows := s.rows[id := PendingRow(id, s.issues[i].req)])
  }

  function LookupStep(s: State, i: IssueId): State {
    if !At(s, i, Lookup) then s
    else
      var h := s.issues[i].req.host;
      if h in s.streams.registry then
        Put(s, i, s.issues[i].(pc := Push, conn := Some(s.streams.registry[h])))
      else
        Put(s, i, s.issues[i].(pc := Ended))
  }

  function SendStep(s: State, i: IssueId, ok: bool): State {
    if !At(s, i, Push) || s.issues[i].id.None? || s.issues[i].conn.None? then s
    else
      var k := s.issues[i];
      Put(s, i, k.(pc := Ended, ok := ok)).(
        sends := s.sends + [Sending(k.conn.value, RequestOf(k.id.value, k.req), i, ok)])
  }

  // Any result overwrites the outcome columns of its row; an unknown id updates nothing.
  function CompleteStep(s: State, id: CmdId, result: CommandResult, o: Outcome): State {
    if o.FailedBefore? || id !in s.rows then s
    else
      var status := if result.error != "" then Failed else Completed;
      s.(rows := s.rows[id := s.rows[id].(status := status, result := Some(result))])
  }

  function Step(s: State, e: Event): State {
    match e
    case Tick(elapsed) => s.(clock := s.clock + elapsed)
    case OnStream(se) => s.(streams := Registry.Step(s.streams, se))
    case Call(i, req) => CallStep(s, i, req)
    case DoLimit(i) => LimitStep(s, i)
    case DoBuild(i, id, marshalled) => BuildStep(s, i, id, marshalled)
    case DoStore(i, o) => StoreStep(s, i, o)
    case DoLookup(i) => LookupStep(s, i)
    case DoSend(i, ok) => SendStep(s, i, ok)
    case Complete(id, result, o) => CompleteStep(s, id, result, o)
  }

  function Run(s: State, events: seq<Event>): State
    decreases |events|
  {
    if events == [] then s else Run(Step(s, events[0]), events[1..])
  }
}
