// The Connect RPC as the server runs it: the registry's map, the reader goroutine, the select loop
// and the deferred Remove, against the models of Streams and Registry.
module ConnectService {
  import opened Base
  import opened Streams
  import opened Registry
  import ConfigPush

  // ---------- the registry ----------

  function Apply(m: map<HostId, ConnId>, op: Op): map<HostId, ConnId> {
    if op.Added? then m[op.host := op.conn] else m - {op.host}
  }

  function ApplyAll(m: map<HostId, ConnId>, ops: seq<Op>): map<HostId, ConnId> {
    if ops == [] then m else Apply(ApplyAll(m, ops[..|ops| - 1]), ops[|ops| - 1])
  }

  lemma ApplyOneMore(m: map<HostId, ConnId>, ops: seq<Op>, op: Op)
    ensures ApplyAll(m, ops + [op]) == Apply(ApplyAll(m, ops), op)
  {
    assert (ops + [op])[..|ops + [op]| - 1] == ops;
  }

  lemma {:induction false} ApplySplit(m: map<HostId, ConnId>, a: seq<Op>, b: seq<Op>)
    ensures ApplyAll(m, a + b) == ApplyAll(ApplyAll(m, a), b)
    decreases |b|
  {
    if b == [] {
      assert a + b == a;
    } else {
      assert (a + b)[..|a + b| - 1] == a + b[..|b| - 1];
      ApplySplit(m, a, b[..|b| - 1]);
    }
  }

  // Applying a history of operations to an empty map leaves exactly the entries that Registry.Latest
  // reads off the history.
  lemma {:induction false} MapHoldsLatest(ops: seq<Op>, h: HostId)
    ensures Latest(ops, h) == if h in ApplyAll(map[], ops) then Some(ApplyAll(map[], ops)[h]) else None
  {
    if ops != [] {
      MapHoldsLatest(ops[..|ops| - 1], h);
    }
  }

  // Every method holds the mutex, so calls of different goroutines do not overlap.
  class StreamRegistry {
    var streams: map<HostId, ConnId>

    constructor ()
      ensures streams == map[]
    {
      streams := map[];
    }

    method Add(host: HostId, conn: ConnId)
      modifies this
      ensures streams == Apply(old(streams), Added(host, conn)) == old(streams)[host := conn]
    {
      streams := streams[host := conn];
    }

    method Remove(host: HostId)
      modifies this
      ensures streams == old(streams) - {host}
      ensures forall conn :: streams == Apply(old(streams), Removed(host, conn))
    {
      streams := streams - {host};
    }

    // Another Connect's call.
    method Perform(op: Op)
      modifies this
      ensures streams == Apply(old(streams), op)
    {
      if op.Added? {
        Add(op.host, op.conn);
      } else {
        Remove(op.host);
        assert streams == Apply(old(streams), Removed(op.host, op.conn));
      }
    }

    method Get(host: HostId) returns (conn: ConnId, ok: bool)
      ensures ok <==> host in streams
      ensures ok ==> conn == streams[host]
    {
      ok := host in streams;
      conn := if ok then streams[host] else 0;
    }

    method Count() returns (n: nat)
      ensures n == |streams|
    {
      n := |streams|;
    }
  }

  // ---------- one Connect ----------

  class Connection {
    const host: HostId
    var reader: Reader
    var queue: seq<Message>
    var errors: seq<RecvError>
    var loop: Loop
    var removed: bool
    var received: seq<Message>
    var handled: seq<Message>
    var beats: seq<Beat>
    var spawned: seq<Message>

    ghost function Model(): Conn
      reads this
    {
      Conn(host, reader, queue, errors, loop, removed, received, handled, beats, spawned)
    }

    constructor (host: HostId)
      ensures Model() == Opened(host)
    {
      this.host, reader, queue, errors, loop, removed := host, Receiving, [], [], Selecting, false;
      received, handled, beats, spawned := [], [], [], [];
    }

    // The reader goroutine: msg, err := stream.Recv()
    method Recv(msg: Message)
      requires reader.Receiving?
      modifies `reader, `received
      ensures Model() == PumpStep(old(Model()), Receive(msg))
    {
      received := received + [msg];
      reader := Holding(msg);
    }

    // errCh <- err; return
    method RecvFails(err: RecvError)
      requires reader.Receiving?
      modifies `reader, `errors
      ensures Model() == PumpStep(old(Model()), ReceiveError(err))
    {
      errors := errors + [err];
      reader := Stopped;
    }

    // msgCh <- msg, when the channel has room
    method Send()
      requires reader.Holding? && |queue| < QUEUE_CAPACITY
      modifies `reader, `queue
      ensures Model() == PumpStep(old(Model()), Push)
    {
      queue := queue + [reader.msg];
      reader := Receiving;
    }

    // case msg := <-msgCh
    method SelectMessage()
      requires loop.Selecting? && queue != []
      modifies `loop, `queue
      ensures Model() == PumpStep(old(Model()), Take)
      ensures loop == Handling(old(queue)[0]) && queue == old(queue)[1..]
    {
      loop := Handling(queue[0]);
      queue := queue[1..];
    }

    // handleMessage: a heartbeat is written at once, the other kinds that store something get a
    // goroutine, and the rest is only logged.
    method HandleMessage(now: Time, ok: bool)
      requires loop.Handling?
      modifies `loop, `handled, `beats, `spawned
      ensures Model() == PumpStep(old(Model()), Finish(now, ok))
    {
      var m := loop.msg;
      match m {
        case Heartbeat(at) =>
          var t := now;
          if at.Some? {
            t := at.value;
          }
          beats := beats + [Beat(at, t, ok)];
        case MetricBatch(_) =>
          spawned := spawned + [m];
        case LogBatch(_) =>
          spawned := spawned + [m];
        case CommandResult(_) =>
          spawned := spawned + [m];
        case SecurityEvent(_) =>
          spawned := spawned + [m];
        case ConfigAck(_) =>
        case Unrecognized =>
      }
      handled := handled + [m];
      loop := Selecting;
    }

    // case err := <-errCh
    method SelectError()
      requires loop.Selecting? && errors != []
      modifies `loop, `errors
      ensures Model() == PumpStep(old(Model()), TakeError)
    {
      var err := errors[0];
      errors := errors[1..];
      if err.Eof? {
        loop := Returned(EndOfStream);
      } else {
        loop := Returned(RecvFailed);
      }
    }

    // case <-ctx.Done()
    method SelectDone()
      requires loop.Selecting?
      modifies `loop
      ensures Model() == PumpStep(old(Model()), SeeContextDone)
    {
      loop := Returned(ContextDone);
    }

    // case t := <-ticker.C
    method SelectTick(ok: bool)
      requires loop.Selecting?
      modifies `loop
      ensures Model() == PumpStep(old(Model()), SendPing(ok))
    {
      if !ok {
        loop := Returned(PingFailed);
      }
    }

    // Performs the event if its goroutine can take it now.
    method Perform(e: PumpEvent)
      modifies this
      ensures Model() == PumpStep(old(Model()), e)
    {
      match e {
        case Receive(m) => if reader.Receiving? { Recv(m); }
        case ReceiveError(err) => if reader.Receiving? { RecvFails(err); }
        case Push => if reader.Holding? && |queue| < QUEUE_CAPACITY { Send(); }
        case Take => if loop.Selecting? && queue != [] { SelectMessage(); }
        case Finish(now, ok) => if loop.Handling? { HandleMessage(now, ok); }
        case TakeError => if loop.Selecting? && errors != [] { SelectError(); }
        case SeeContextDone => if loop.Selecting? { SelectDone(); }
        case SendPing(ok) => if loop.Selecting? { SelectTick(ok); }
      }
    }
  }

  // What runs next: a goroutine of this Connect, or another Connect's Add or Remove.
  datatype Turn = Mine(step: PumpEvent) | Theirs(op: Op)

  function MineOf(turns: seq<Turn>): seq<PumpEvent> {
    if turns == [] then []
    else MineOf(turns[..|turns| - 1]) + if turns[|turns| - 1].Mine? then [turns[|turns| - 1].step] else []
  }

  function TheirsOf(turns: seq<Turn>): seq<Op> {
    if turns == [] then []
    else TheirsOf(turns[..|turns| - 1]) + if turns[|turns| - 1].Theirs? then [turns[|turns| - 1].op] else []
  }

  lemma NextTurn(turns: seq<Turn>, i: nat)
    requires i < |turns|
    ensures MineOf(turns[..i + 1])
         == if turns[i].Mine? then MineOf(turns[..i]) + [turns[i].step] else MineOf(turns[..i])
    ensures TheirsOf(turns[..i + 1])
         == if turns[i].Theirs? then TheirsOf(turns[..i]) + [turns[i].op] else TheirsOf(turns[..i])
  {
    assert turns[..i + 1][..i] == turns[..i];
  }

  lemma PumpOneMore(k: Conn, steps: seq<PumpEvent>, e: PumpEvent)
    ensures Pump(k, steps + [e]) == PumpStep(Pump(k, steps), e)
  {
    PumpSplit(k, steps, [e]);
    assert Pump(Pump(k, steps), [e]) == Pump(PumpStep(Pump(k, steps), e), [e][1..]);
  }

  datatype Result = Unauthenticated | Ended(reason: Reason) | StillRunning

  // The goroutine that Connect starts for the first configuration: the step that begins its job in
  // ConfigPush, and the registry's map when it starts.
  datatype Sync = Sync(start: ConfigPush.Event, streams: map<HostId, ConnId>)

  // The beginning of a Connect, with other Connects' calls between its Add and its Count.
  method Enter(registry: StreamRegistry, h: HostId, id: ConnId, early: seq<Op>) returns (active: nat)
    modifies registry
    ensures registry.streams == ApplyAll(old(registry.streams), [Added(h, id)] + early)
    ensures active == |registry.streams|
  {
    registry.Add(h, id);
    ApplyOneMore(old(registry.streams), [], Added(h, id));
    assert [] + [Added(h, id)] == [Added(h, id)] + early[..0];
    for i := 0 to |early|
      invariant registry.streams == ApplyAll(old(registry.streams), [Added(h, id)] + early[..i])
    {
      ApplyOneMore(old(registry.streams), [Added(h, id)] + early[..i], early[i]);
      assert [Added(h, id)] + early[..i + 1] == [Added(h, id)] + early[..i] + [early[i]];
      registry.Perform(early[i]);
    }
    assert early[..|early|] == early;
    active := registry.Count();
  }

  method TakeTurn(registry: StreamRegistry, conn: Connection, turn: Turn)
    modifies registry, conn
    ensures conn.Model() == if turn.Mine? then PumpStep(old(conn.Model()), turn.step) else old(conn.Model())
    ensures registry.streams == if turn.Mine? then old(registry.streams) else Apply(old(registry.streams), turn.op)
  {
    match turn {
      case Mine(e) => conn.Perform(e);
      case Theirs(op) => registry.Perform(op);
    }
  }

  // The select loop with the reader goroutine beside it, until the loop returns or the schedule ends.
  method Serve(registry: StreamRegistry, conn: Connection, schedule: seq<Turn>) returns (taken: nat)
    modifies registry, conn
    ensures taken <= |schedule| && (taken == |schedule| || conn.loop.Returned?)
    ensures conn.Model() == Pump(old(conn.Model()), MineOf(schedule[..taken]))
    ensures registry.streams == ApplyAll(old(registry.streams), TheirsOf(schedule[..taken]))
  {
    taken := 0;
    ghost var k0, m0 := conn.Model(), registry.streams;
    while taken < |schedule| && !conn.loop.Returned?
      invariant 0 <= taken <= |schedule|
      invariant conn.Model() == Pump(k0, MineOf(schedule[..taken]))
      invariant registry.streams == ApplyAll(m0, TheirsOf(schedule[..taken]))
    {
      ghost var turn, mine, theirs := schedule[taken], MineOf(schedule[..taken]), TheirsOf(schedule[..taken]);
      NextTurn(schedule, taken);
      if turn.Mine? {
        PumpOneMore(k0, mine, turn.step);
      } else {
        ApplyOneMore(m0, theirs, turn.op);
      }
      TakeTurn(registry, conn, schedule[taken]);
      taken := taken + 1;
    }
  }

  // Main result: under any schedule of its two goroutines and of other Connects, a Connect with a
  // verified peer certificate adds its stream under the certificate's CN before anything else, then
  // counts the agents and starts one configuration sync for that host with version 0, runs the pump
  // from its opening and removes its entry last; one without touches nothing.
  method Connect(registry: StreamRegistry, id: ConnId, peer: Peer, job: ConfigPush.JobId, early: seq<Op>,
                 schedule: seq<Turn>)
    returns (r: Result, conn: Connection?, active: nat, sync: Option<Sync>, taken: nat)
    modifies registry
    ensures taken <= |schedule|
    ensures r.Unauthenticated? <==> !(peer.Leaf? && peer.cn != "")
    ensures r.Unauthenticated? ==> registry.streams == old(registry.streams) && conn == null && sync.None?
    ensures !r.Unauthenticated? ==>
              var h := peer.cn;
              var entered := ApplyAll(old(registry.streams), [Added(h, id)] + early);
              && active == |entered|
              && sync == Some(Sync(ConfigPush.Start(job, ConfigPush.Sync(0), h), entered))
    ensures !r.Unauthenticated? ==>
              && conn != null && fresh(conn)
              && var h := peer.cn;
                 var k := Pump(Opened(h), MineOf(schedule[..taken]));
                 var ops := [Added(h, id)] + early + TheirsOf(schedule[..taken]);
                 if r.Ended? then
                   && k.loop == Returned(r.reason)
                   && conn.Model() == k.(removed := true)
                   && registry.streams == ApplyAll(old(registry.streams), ops + [Removed(h, id)])
                 else
                   && taken == |schedule| && !k.loop.Returned?
                   && conn.Model() == k
                   && registry.streams == ApplyAll(old(registry.streams), ops)
  {
    taken, active, sync := 0, 0, None;
    var host := HostIdFromStream(peer);
    if host.None? {
      return Unauthenticated, null, active, sync, taken;
    }
    var h := host.value;
    active := Enter(registry, h, id, early);
    sync := Some(Sync(ConfigPush.Start(job, ConfigPush.Sync(0), h), registry.streams));
    conn := new Connection(h);
    taken := Serve(registry, conn, schedule);
    ghost var ops := [Added(h, id)] + early + TheirsOf(schedule[..taken]);
    ApplySplit(old(registry.streams), [Added(h, id)] + early, TheirsOf(schedule[..taken]));
    if !conn.loop.Returned? {
      return StillRunning, conn, active, sync, taken;
    }
    ApplyOneMore(old(registry.streams), ops, Removed(h, id));
    registry.Perform(Removed(h, id));
    conn.removed := true;
    return Ended(conn.loop.reason), conn, active, sync, taken;
  }
}
