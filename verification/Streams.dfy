// Agent connections: the Connect pump of internal/stream/handler.go and the stream registry of
// internal/stream/registry.go, shared by any number of overlapping Connects.
module Streams {
  import opened Base

  type HostId = string
  type ConnId = nat

  const QUEUE_CAPACITY := 16

  // ---------- one connection ----------

  datatype Message =
    | Heartbeat(at: Option<Time>)
    | MetricBatch(body: string)
    | LogBatch(body: string)
    | ConfigAck(body: string)
    | CommandResult(body: string)
    | SecurityEvent(body: string)
    | Unrecognized

  datatype RecvError = Eof | Broken

  // The reader goroutine: blocked in Recv, blocked on the channel with a message in hand, or gone.
  datatype Reader = Receiving | Holding(msg: Message) | Stopped

  datatype Reason = ContextDone | EndOfStream | RecvFailed | PingFailed

  // The select loop: waiting, inside handleMessage, or returned.
  datatype Loop = Selecting | Handling(msg: Message) | Returned(reason: Reason)

  // One UpdateHeartbeat statement: the timestamp in the message, the one written, and whether the
  // statement succeeded.
  datatype Beat = Beat(given: Option<Time>, written: Time, ok: bool)

  // `received` and `handled` are the histories of Recv and handleMessage; `beats` and `spawned` are
  // what handling did: heartbeat statements and goroutines started.
  datatype Conn = Conn(
    host: HostId,
    reader: Reader,
    queue: seq<Message>,
    errors: seq<RecvError>,
    loop: Loop,
    removed: bool,
    received: seq<Message>,
    handled: seq<Message>,
    beats: seq<Beat>,
    spawned: seq<Message>)

  function Opened(host: HostId): Conn {
    Conn(host, Receiving, [], [], Selecting, false, [], [], [], [])
  }

  datatype PumpEvent =
    | Receive(msg: Message)
    | ReceiveError(err: RecvError)
    | Push
    | Take
    | Finish(now: Time, ok: bool)
    | TakeError
    | SeeContextDone
    | SendPing(ok: bool)

  // Messages whose handling starts a goroutine.
  predicate Spawns(m: Message) {
    m.MetricBatch? || m.LogBatch? || m.CommandResult? || m.SecurityEvent?
  }

  function Handle(k: Conn, m: Message, now: Time, ok: bool): Conn {
    var k1 := k.(loop := Selecting, handled := k.handled + [m]);
    if m.Heartbeat? then
      k1.(beats := k.beats + [Beat(m.at, if m.at.Some? then m.at.value else now, ok)])
    else if Spawns(m) then
      k1.(spawned := k.spawned + [m])
    else k1
  }

  // A step that is not enabled leaves the connection unchanged.
  function PumpStep(k: Conn, e: PumpEvent): Conn {
    match e
    case Receive(m) =>
      if k.reader.Receiving? then k.(reader := Holding(m), received := k.received + [m]) else k
    case ReceiveError(err) =>
      if k.reader.Receiving? then k.(reader := Stopped, errors := k.errors + [err]) else k
    case Push =>
      if k.reader.Holding? && |k.queue| < QUEUE_CAPACITY then
        k.(reader := Receiving, queue := k.queue + [k.reader.msg])
      else k
    case Take =>
      if k.loop.Selecting? && k.queue != [] then k.(loop := Handling(k.queue[0]), queue := k.queue[1..]) else k
    case Finish(now, ok) =>
      if k.loop.Handling? then Handle(k, k.loop.msg, now, ok) else k
    case TakeError =>
      if k.loop.Selecting? && k.errors != [] then
        k.(loop := Returned(if k.errors[0].Eof? then EndOfStream else RecvFailed), errors := k.errors[1..])
      else k
    case SeeContextDone =>
      if k.loop.Selecting? then k.(loop := Returned(ContextDone)) else k
    case SendPing(ok) =>
      if k.loop.Selecting? && !ok then k.(loop := Returned(PingFailed)) else k
  }

  function Pump(k: Conn, events: seq<PumpEvent>): Conn
    decreases |events|
  {
    if events == [] then k else Pump(PumpStep(k, events[0]), events[1..])
  }

  // ---------- the pump's invariant ----------

  function InHand(r: Reader): seq<Message> {
    if r.Holding? then [r.msg] else []
  }

  function InHandling(l: Loop): seq<Message> {
    if l.Handling? then [l.msg] else []
  }

  // The timestamps of the heartbeats among some messages, in order.
  function HeartbeatsOf(ms: seq<Message>): seq<Option<Time>> {
    if ms == [] then []
    else
      HeartbeatsOf(ms[..|ms| - 1]) + if ms[|ms| - 1].Heartbeat? then [ms[|ms| - 1].at] else []
  }

  function SpawningOf(ms: seq<Message>): seq<Message> {
    if ms == [] then []
    else
      SpawningOf(ms[..|ms| - 1]) + if Spawns(ms[|ms| - 1]) then [ms[|ms| - 1]] else []
  }

  ghost predicate BeatsMatch(beats: seq<Beat>, given: seq<Option<Time>>) {
    && |beats| == |given|
    && forall i :: 0 <= i < |beats| ==>
         beats[i].given == given[i] && (given[i].Some? ==> beats[i].written == given[i].value)
  }

  // Nothing is lost, doubled or reordered between Recv and handleMessage.
  ghost predicate FifoOk(k: Conn) {
    && k.received == k.handled + InHandling(k.loop) + k.queue + InHand(k.reader)
    && |k.queue| <= QUEUE_CAPACITY
    && (k.errors != [] ==> k.reader.Stopped?)
    && (k.loop == Returned(EndOfStream) || k.loop == Returned(RecvFailed) ==> k.reader.Stopped?)
  }

  // What handling did is what the handled messages call for.
  ghost predicate EffectsOk(handled: seq<Message>, beats: seq<Beat>, spawned: seq<Message>) {
    BeatsMatch(beats, HeartbeatsOf(handled)) && spawned == SpawningOf(handled)
  }

  ghost predicate PumpOk(k: Conn) {
    FifoOk(k) && EffectsOk(k.handled, k.beats, k.spawned)
  }

  lemma OneMoreMessage(ms: seq<Message>, m: Message)
    ensures HeartbeatsOf(ms + [m]) == if m.Heartbeat? then HeartbeatsOf(ms) + [m.at] else HeartbeatsOf(ms)
    ensures SpawningOf(ms + [m]) == if Spawns(m) then SpawningOf(ms) + [m] else SpawningOf(ms)
  {
    assert (ms + [m])[..|ms + [m]| - 1] == ms;
  }

  lemma HandleFollowsMessage(k: Conn, m: Message, now: Time, ok: bool)
    requires EffectsOk(k.handled, k.beats, k.spawned)
    ensures var k' := Handle(k, m, now, ok); EffectsOk(k'.handled, k'.beats, k'.spawned)
  {
    OneMoreMessage(k.handled, m);
  }

  lemma ReceiveKeepsOrder(k: Conn, m: Message)
    requires FifoOk(k)
    ensures FifoOk(PumpStep(k, Receive(m)))
  {
  }

  lemma PushKeepsOrder(k: Conn)
    requires FifoOk(k)
    ensures FifoOk(PumpStep(k, Push))
  {
    if k.reader.Holding? {
      var before, m := k.handled + InHandling(k.loop), k.reader.msg;
      assert before + k.queue + [m] == before + (k.queue + [m]) + [];
    }
  }

  lemma TakeKeepsOrder(k: Conn)
    requires FifoOk(k)
    ensures FifoOk(PumpStep(k, Take))
  {
    if k.queue != [] {
      assert k.handled + [] + k.queue == k.handled + [k.queue[0]] + k.queue[1..];
    }
  }

  lemma FinishKeepsOrder(k: Conn, now: Time, ok: bool)
    requires FifoOk(k)
    ensures FifoOk(PumpStep(k, Finish(now, ok)))
  {
    if k.loop.Handling? {
      assert (k.handled + [k.loop.msg]) + [] == k.handled + [k.loop.msg];
    }
  }

  lemma FifoKept(k: Conn, e: PumpEvent)
    requires FifoOk(k)
    ensures FifoOk(PumpStep(k, e))
  {
    match e
    case Receive(m) => ReceiveKeepsOrder(k, m);
    case Push => PushKeepsOrder(k);
    case Take => TakeKeepsOrder(k);
    case Finish(now, ok) => FinishKeepsOrder(k, now, ok);
    case _ =>
      assert InHandling(PumpStep(k, e).loop) == InHandling(k.loop) && InHand(PumpStep(k, e).reader) == InHand(k.reader);
  }

  lemma PumpStepKeeps(k: Conn, e: PumpEvent)
    requires PumpOk(k)
    ensures PumpOk(PumpStep(k, e))
  {
    FifoKept(k, e);
    if e.Finish? && k.loop.Handling? {
      HandleFollowsMessage(k, k.loop.msg, e.now, e.ok);
    }
  }

  lemma {:induction false} PumpKeeps(k: Conn, events: seq<PumpEvent>)
    requires PumpOk(k)
    ensures PumpOk(Pump(k, events))
    decreases |events|
  {
    if events != [] {
      PumpStepKeeps(k, events[0]);
      PumpKeeps(PumpStep(k, events[0]), events[1..]);
    }
  }

  // Main result: in every state of every connection, the messages received are those handled, the one
  // being handled, the at most 16 queued and the at most one in the reader's hand, in that order. So
  // handling is in order and exactly once, and after the loop returned for good at most 16 received
  // messages are lost if the stream ended and at most 17 if it was cut.
  lemma FifoAndLossBound(host: HostId, events: seq<PumpEvent>)
    ensures
      var k := Pump(Opened(host), events);
      && k.handled <= k.received
      && k.received == k.handled + InHandling(k.loop) + k.queue + InHand(k.reader) && |k.queue| <= 16
      && (k.loop.Returned? ==> |k.received| - |k.handled| <= 17)
      && (k.loop == Returned(EndOfStream) || k.loop == Returned(RecvFailed) ==> |k.received| - |k.handled| <= 16)
  {
    PumpKeeps(Opened(host), events);
  }

  lemma {:induction false} PumpSplit(k: Conn, before: seq<PumpEvent>, after: seq<PumpEvent>)
    ensures Pump(k, before + after) == Pump(Pump(k, before), after)
    decreases |before|
  {
    if before == [] {
      assert [] + after == after;
    } else {
      assert (before + after)[0] == before[0] && (before + after)[1..] == before[1..] + after;
      PumpSplit(PumpStep(k, before[0]), before[1..], after);
    }
  }

  // What was not handled when the loop returned is never handled.
  lemma {:induction false} NothingHandledAfterReturn(k: Conn, after: seq<PumpEvent>)
    requires k.loop.Returned?
    ensures Pump(k, after).handled == k.handled && Pump(k, after).loop == k.loop
    ensures Pump(k, after).beats == k.beats && Pump(k, after).spawned == k.spawned
    decreases |after|
  {
    if after != [] {
      NothingHandledAfterReturn(PumpStep(k, after[0]), after[1..]);
    }
  }

  // The reader goroutine can never move again.
  ghost predicate ReaderStuck(k: Conn) {
    forall after :: Pump(k, after).reader == k.reader
  }

  lemma {:induction false} FullQueueHoldsReader(k: Conn, after: seq<PumpEvent>)
    requires k.loop.Returned? && k.reader.Holding? && |k.queue| == QUEUE_CAPACITY
    ensures Pump(k, after).reader == k.reader
    decreases |after|
  {
    if after != [] {
      FullQueueHoldsReader(PumpStep(k, after[0]), after[1..]);
    }
  }

  lemma ReaderMoves(k: Conn, e: PumpEvent)
    requires PumpStep(k, e).reader != k.reader
    ensures !ReaderStuck(k)
  {
    assert Pump(PumpStep(k, e), []) == PumpStep(k, e);
    assert Pump(k, [e]) == Pump(PumpStep(k, e), [e][1..]);
  }

  // Main result: once the loop returned, a reader that has not stopped by itself is blocked on the
  // channel for good exactly if 17 messages were lost: it leaks in that state and in no other.
  lemma ReaderLeaksIffSeventeenLost(host: HostId, events: seq<PumpEvent>)
    requires Pump(Opened(host), events).loop.Returned? && !Pump(Opened(host), events).reader.Stopped?
    ensures
      var k := Pump(Opened(host), events);
      ReaderStuck(k) <==> |k.received| - |k.handled| == 17
  {
    var k := Pump(Opened(host), events);
    PumpKeeps(Opened(host), events);
    if k.reader.Receiving? {
      ReaderMoves(k, ReceiveError(Eof));
    } else if |k.queue| < QUEUE_CAPACITY {
      ReaderMoves(k, Push);
    } else {
      forall after ensures Pump(k, after).reader == k.reader {
        FullQueueHoldsReader(k, after);
      }
    }
  }

  lemma {:induction false} HeartbeatsPrefix(a: seq<Message>, b: seq<Message>)
    ensures HeartbeatsOf(a) <= HeartbeatsOf(a + b)
    decreases |b|
  {
    if b == [] {
      assert a + b == a;
    } else {
      HeartbeatsPrefix(a, b[..|b| - 1]);
      assert (a + b)[..|a + b| - 1] == a + b[..|b| - 1];
    }
  }

  lemma BeatsFollowReceived(k: Conn)
    requires PumpOk(k)
    ensures |k.beats| <= |HeartbeatsOf(k.received)| && BeatsMatch(k.beats, HeartbeatsOf(k.received)[..|k.beats|])
  {
    var rest := InHandling(k.loop) + k.queue + InHand(k.reader);
    assert k.received == k.handled + rest;
    HeartbeatsPrefix(k.handled, rest);
  }

  // Main result: heartbeat statements follow the order in which heartbeats were received, one each,
  // and write the agent's timestamp when it sent one.
  lemma HeartbeatsInReceiveOrder(host: HostId, events: seq<PumpEvent>)
    ensures
      var k := Pump(Opened(host), events);
      |k.beats| <= |HeartbeatsOf(k.received)| && BeatsMatch(k.beats, HeartbeatsOf(k.received)[..|k.beats|])
  {
    PumpKeeps(Opened(host), events);
    BeatsFollowReceived(Pump(Opened(host), events));
  }

  // ---------- progress: what is received gets handled, and how ----------

  // Main result: from any state in which the loop waits and a message is queued, taking and handling it
  // handles exactly the oldest one and leaves the others queued. A heartbeat is written at once, with
  // the agent's time or else the server's; batches, command results and security events each start a
  // goroutine; acknowledgements and unknown messages do nothing more.
  lemma TakingHandlesTheOldest(k: Conn, now: Time, ok: bool)
    requires k.loop == Selecting && k.queue != []
    ensures
      var k' := Pump(k, [Take, Finish(now, ok)]);
      var m := k.queue[0];
      && k'.handled == k.handled + [m] && k'.queue == k.queue[1..] && k'.loop == Selecting
      && k'.reader == k.reader && k'.received == k.received && k'.errors == k.errors
      && k'.beats == (match m
                      case Heartbeat(at) => k.beats + [Beat(at, if at == None then now else at.value, ok)]
                      case _ => k.beats)
      && k'.spawned == (match m
                        case MetricBatch(_) => k.spawned + [m]
                        case LogBatch(_) => k.spawned + [m]
                        case CommandResult(_) => k.spawned + [m]
                        case SecurityEvent(_) => k.spawned + [m]
                        case _ => k.spawned)
  {
    assert [Take, Finish(now, ok)][1..] == [Finish(now, ok)];
    assert Pump(k, [Take, Finish(now, ok)]) == Pump(PumpStep(k, Take), [Finish(now, ok)]);
    assert Pump(PumpStep(k, Take), [Finish(now, ok)]) == Pump(PumpStep(PumpStep(k, Take), Finish(now, ok)), []);
  }

  // A message is received and queued when there is room.
  lemma ReceivingQueues(k: Conn, m: Message)
    requires k.reader == Receiving && |k.queue| < 16
    ensures
      var k' := Pump(k, [Receive(m), Push]);
      k' == k.(received := k.received + [m], queue := k.queue + [m])
  {
    assert [Receive(m), Push][1..] == [Push];
    assert Pump(k, [Receive(m), Push]) == Pump(PumpStep(k, Receive(m)), [Push]);
    assert Pump(PumpStep(k, Receive(m)), [Push]) == Pump(PumpStep(PumpStep(k, Receive(m)), Push), []);
  }

  // Each message is received, queued, taken and handled before the next.
  function Deliveries(ms: seq<Message>, now: Time): seq<PumpEvent> {
    if ms == [] then []
    else Deliveries(ms[..|ms| - 1], now) + ([Receive(ms[|ms| - 1]), Push] + [Take, Finish(now, true)])
  }

  // Main result: any list of messages can be handled, all of them and in order, and the connection is
  // then ready for more.
  lemma {:induction false} EveryMessageCanBeHandled(host: HostId, ms: seq<Message>, now: Time)
    ensures
      var k := Pump(Opened(host), Deliveries(ms, now));
      k.received == ms && k.handled == ms && k.queue == [] && k.reader == Receiving && k.loop == Selecting
  {
    if ms != [] {
      var before, m := ms[..|ms| - 1], ms[|ms| - 1];
      EveryMessageCanBeHandled(host, before, now);
      var k := Pump(Opened(host), Deliveries(before, now));
      PumpSplit(Opened(host), Deliveries(before, now), [Receive(m), Push] + [Take, Finish(now, true)]);
      PumpSplit(k, [Receive(m), Push], [Take, Finish(now, true)]);
      ReceivingQueues(k, m);
      TakingHandlesTheOldest(Pump(k, [Receive(m), Push]), now, true);
      assert before + [m] == ms;
    }
  }

  // ---------- how the loop ends ----------

  // What each of the loop's other cases does.
  lemma LoopCases(k: Conn, ok: bool)
    requires k.loop == Selecting
    ensures PumpStep(k, SeeContextDone) == k.(loop := Returned(ContextDone))
    ensures PumpStep(k, SendPing(ok)) == if ok then k else k.(loop := Returned(PingFailed))
    ensures k.errors != [] ==>
              PumpStep(k, TakeError)
                == k.(errors := k.errors[1..],
                      loop := if k.errors[0] == Eof then Returned(EndOfStream) else Returned(RecvFailed))
  {
  }

  // A receive error stops the reader and ends the loop with the reason of that error.
  lemma ErrorEndsTheLoop(k: Conn, err: RecvError)
    requires k.reader == Receiving && k.loop == Selecting && k.errors == []
    ensures Pump(k, [ReceiveError(err), TakeError])
         == k.(reader := Stopped, loop := if err == Eof then Returned(EndOfStream) else Returned(RecvFailed))
  {
    var k1 := PumpStep(k, ReceiveError(err));
    assert [ReceiveError(err), TakeError][1..] == [TakeError];
    assert Pump(k, [ReceiveError(err), TakeError]) == Pump(k1, [TakeError]);
    assert Pump(k1, [TakeError]) == Pump(PumpStep(k1, TakeError), []);
  }

  // The event of a run that explains a return.
  predicate Explains(e: PumpEvent, r: Reason) {
    match r
    case ContextDone => e == SeeContextDone
    case PingFailed => e == SendPing(false)
    case EndOfStream => e == ReceiveError(Eof)
    case RecvFailed => e == ReceiveError(Broken)
  }

  // Main result: the loop returns only for a cause of that kind: a finished context, a failed ping, the
  // end of the stream or a broken one.
  lemma {:induction false} ReturnsForACause(host: HostId, events: seq<PumpEvent>)
    ensures
      var k := Pump(Opened(host), events);
      && (forall err :: err in k.errors ==> ReceiveError(err) in events)
      && (k.loop.Returned? ==> exists i :: 0 <= i < |events| && Explains(events[i], k.loop.reason))
    decreases |events|
  {
    if events != [] {
      var n := |events| - 1;
      ReturnsForACause(host, events[..n]);
      PumpSplit(Opened(host), events[..n], [events[n]]);
      assert events == events[..n] + [events[n]];
      var was := Pump(Opened(host), events[..n]);
      assert Pump(was, [events[n]]) == Pump(PumpStep(was, events[n]), [events[n]][1..]);
      var k := PumpStep(was, events[n]);
      if k.loop.Returned? && was.loop.Returned? {
        var i :| 0 <= i < n && Explains(events[..n][i], was.loop.reason);
        assert Explains(events[i], k.loop.reason);
      } else if k.loop.Returned? && events[n].TakeError? {
        assert ReceiveError(was.errors[0]) in events[..n];
        var i :| 0 <= i < n && events[..n][i] == ReceiveError(was.errors[0]);
        assert Explains(events[i], k.loop.reason);
      } else if k.loop.Returned? {
        assert Explains(events[n], k.loop.reason);
      }
    }
  }

  // ---------- the loss bound is attained ----------

  function Flood(m: Message, n: nat): seq<PumpEvent> {
    if n == 0 then [] else Flood(m, n - 1) + [Receive(m), Push]
  }

  lemma {:induction false} FloodFills(host: HostId, m: Message, n: nat)
    requires n <= QUEUE_CAPACITY
    ensures
      var k := Pump(Opened(host), Flood(m, n));
      |k.queue| == |k.received| == n && k.handled == [] && k.reader.Receiving? && k.loop.Selecting?
  {
    if n > 0 {
      FloodFills(host, m, n - 1);
      var k := Pump(Opened(host), Flood(m, n - 1));
      PumpSplit(Opened(host), Flood(m, n - 1), [Receive(m), Push]);
      assert [Receive(m), Push][1..] == [Push];
      assert Pump(PumpStep(k, Receive(m)), [Push]) == PumpStep(PumpStep(k, Receive(m)), Push);
    }
  }

  // A connection cut while its queue is full and its reader holds one more loses 17 messages.
  lemma SeventeenCanBeLost(host: HostId, m: Message) returns (events: seq<PumpEvent>)
    ensures
      var k := Pump(Opened(host), events);
      k.loop == Returned(ContextDone) && |k.received| - |k.handled| == 17
  {
    FloodFills(host, m, 16);
    var k := Pump(Opened(host), Flood(m, 16));
    events := Flood(m, 16) + [Receive(m), SeeContextDone];
    PumpSplit(Opened(host), Flood(m, 16), [Receive(m), SeeContextDone]);
    assert [Receive(m), SeeContextDone][1..] == [SeeContextDone];
    assert Pump(PumpStep(k, Receive(m)), [SeeContextDone]) == PumpStep(PumpStep(k, Receive(m)), SeeContextDone);
  }
}
