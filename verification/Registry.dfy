// The stream registry shared by all Connects: internal/stream/registry.go and the Add and deferred
// Remove of internal/stream/handler.go.
module Registry {
  import opened Base
  import opened Streams

  // What Connect finds about its TLS peer.
  datatype Peer = NoPeer | NoTls | NoVerifiedChain | Leaf(cn: string)

  // None is an Unauthenticated error.
  function HostIdFromStream(peer: Peer): Option<HostId> {
    if peer.Leaf? && peer.cn != "" then Some(peer.cn) else None
  }

  datatype Op = Added(host: HostId, conn: ConnId) | Removed(host: HostId, conn: ConnId)

  // `log` is the history of Add and Remove calls.
  datatype State = State(conns: map<ConnId, Conn>, registry: map<HostId, ConnId>, log: seq<Op>)

  datatype Event =
    | Open(conn: ConnId, peer: Peer)
    | PumpConn(conn: ConnId, step: PumpEvent)
    | Close(conn: ConnId)

  const EMPTY := State(map[], map[], [])

  function OpenStep(s: State, c: ConnId, peer: Peer): State {
    if c in s.conns || HostIdFromStream(peer).None? then s
    else
      var h := HostIdFromStream(peer).value;
      State(s.conns[c := Opened(h)], s.registry[h := c], s.log + [Added(h, c)])
  }

  // The deferred Remove deletes the host's entry, whichever connection it names.
  function CloseStep(s: State, c: ConnId): State {
    if c !in s.conns || !s.conns[c].loop.Returned? || s.conns[c].removed then s
    else
      var h := s.conns[c].host;
      State(s.conns[c := s.conns[c].(removed := true)], s.registry - {h}, s.log + [Removed(h, c)])
  }

  function Step(s: State, e: Event): State {
    match e
    case Open(c, peer) => OpenStep(s, c, peer)
    case PumpConn(c, step) => if c in s.conns then s.(conns := s.conns[c := PumpStep(s.conns[c], step)]) else s
    case Close(c) => CloseStep(s, c)
  }

  function Run(s: State, events: seq<Event>): State
    decreases |events|
  {
    if events == [] then s else Run(Step(s, events[0]), events[1..])
  }

  // A Connect between its Add and its Remove.
  predicate Live(s: State, c: ConnId) {
    c in s.conns && !s.conns[c].removed
  }

  // The stream of an agent of `host`, by its certificate.
  ghost predicate Reaches(s: State, c: ConnId, host: HostId) {
    c in s.conns && s.conns[c].host == host
  }

  // Connections are never forgotten and keep their host.
  ghost predicate ConnsGrow(a: State, b: State) {
    forall c :: c in a.conns ==> c in b.conns && b.conns[c].host == a.conns[c].host
  }

  lemma PumpStepFrame(k: Conn, step: PumpEvent)
    ensures PumpStep(k, step).host == k.host && PumpStep(k, step).removed == k.removed
  {
  }

  lemma ConnsOnlyGrow(s: State, e: Event)
    ensures ConnsGrow(s, Step(s, e))
  {
    match e
    case Open(c, peer) =>
    case PumpConn(c, step) => if c in s.conns { PumpStepFrame(s.conns[c], step); }
    case Close(c) =>
  }

  // ---------- the registry is the last word of its log ----------

  // The connection that the latest operation on `host` added, if it was an Add.
  function Latest(log: seq<Op>, host: HostId): Option<ConnId> {
    if log == [] then None
    else
      var op := log[|log| - 1];
      if op.host == host then (if op.Added? then Some(op.conn) else None)
      else Latest(log[..|log| - 1], host)
  }

  ghost predicate EntryOk(s: State, h: HostId) {
    && (h in s.registry ==> Live(s, s.registry[h]) && s.conns[s.registry[h]].host == h)
    && Latest(s.log, h) == if h in s.registry then Some(s.registry[h]) else None
  }

  ghost predicate ConnOk(s: State, c: ConnId)
    requires c in s.conns
  {
    PumpOk(s.conns[c]) && s.conns[c].host != "" && Added(s.conns[c].host, c) in s.log
  }

  ghost predicate Inv(s: State) {
    && (forall h {:trigger EntryOk(s, h)} :: EntryOk(s, h))
    && (forall c {:trigger ConnOk(s, c)} :: c in s.conns ==> ConnOk(s, c))
  }

  lemma LatestAfter(log: seq<Op>, op: Op, host: HostId)
    ensures Latest(log + [op], host)
         == if op.host == host then (if op.Added? then Some(op.conn) else None) else Latest(log, host)
  {
    assert (log + [op])[..|log + [op]| - 1] == log;
  }

  lemma OpenKeeps(s: State, c: ConnId, peer: Peer)
    requires Inv(s)
    ensures Inv(OpenStep(s, c, peer))
  {
    var s' := OpenStep(s, c, peer);
    if s' != s {
      var h := HostIdFromStream(peer).value;
      forall g ensures EntryOk(s', g) {
        assert EntryOk(s, g);
        LatestAfter(s.log, Added(h, c), g);
      }
      forall d | d in s'.conns ensures ConnOk(s', d) {
        assert d != c ==> ConnOk(s, d);
      }
    }
  }

  lemma ReplaceKeeps(s: State, c: ConnId, k: Conn)
    requires Inv(s) && c in s.conns && PumpOk(k) && k.host == s.conns[c].host && k.removed == s.conns[c].removed
    ensures Inv(s.(conns := s.conns[c := k]))
  {
    var s' := s.(conns := s.conns[c := k]);
    assert ConnOk(s, c);
    forall g ensures EntryOk(s', g) {
      assert EntryOk(s, g);
    }
    forall d | d in s'.conns ensures ConnOk(s', d) {
      assert d != c ==> ConnOk(s, d);
    }
  }

  lemma PumpConnKeeps(s: State, c: ConnId, step: PumpEvent)
    requires Inv(s) && c in s.conns
    ensures Inv(s.(conns := s.conns[c := PumpStep(s.conns[c], step)]))
  {
    assert ConnOk(s, c);
    PumpStepKeeps(s.conns[c], step);
    PumpStepFrame(s.conns[c], step);
    ReplaceKeeps(s, c, PumpStep(s.conns[c], step));
  }

  lemma CloseKeeps(s: State, c: ConnId)
    requires Inv(s)
    ensures Inv(CloseStep(s, c))
  {
    var s' := CloseStep(s, c);
    if s' != s {
      var h := s.conns[c].host;
      forall g ensures EntryOk(s', g) {
        assert EntryOk(s, g);
        LatestAfter(s.log, Removed(h, c), g);
      }
      forall d | d in s'.conns ensures ConnOk(s', d) {
        assert ConnOk(s, d);
      }
    }
  }

  lemma StepKeeps(s: State, e: Event)
    requires Inv(s)
    ensures Inv(Step(s, e))
  {
    match e
    case Open(c, peer) => OpenKeeps(s, c, peer);
    case PumpConn(c, step) => if c in s.conns { PumpConnKeeps(s, c, step); }
    case Close(c) => CloseKeeps(s, c);
  }

  lemma {:induction false} RunKeeps(s: State, events: seq<Event>)
    requires Inv(s)
    ensures Inv(Run(s, events))
    decreases |events|
  {
    if events != [] {
      StepKeeps(s, events[0]);
      RunKeeps(Step(s, events[0]), events[1..]);
    }
  }

  // ---------- what every interleaving of Connects guarantees ----------

  // A Connect begins exactly if its peer's chain is verified and the leaf has a CN: then it has that CN as
  // host and is registered under it; otherwise nothing changes.
  lemma OnlyLeavesConnect(s: State, c: ConnId, peer: Peer)
    requires c !in s.conns
    ensures
      var s' := Step(s, Open(c, peer));
      if peer.Leaf? && peer.cn != "" then
        && s'.conns == s.conns[c := Opened(peer.cn)] && s'.registry == s.registry[peer.cn := c]
        && s'.log == s.log + [Added(peer.cn, c)]
      else s' == s
  {
  }

  // Closing a returned Connect removes its host's entry and marks it removed, once.
  lemma ClosingRemoves(s: State, c: ConnId)
    requires c in s.conns && s.conns[c].loop.Returned? && !s.conns[c].removed
    ensures
      var s' := Step(s, Close(c));
      && s'.conns == s.conns[c := s.conns[c].(removed := true)] && s'.registry == s.registry - {s.conns[c].host}
      && s'.log == s.log + [Removed(s.conns[c].host, c)]
      && Step(s', Close(c)) == s'
  {
  }

  // Main result: in every run, the host of a connection is the non-empty CN of the verified leaf with
  // which it was opened.
  lemma {:induction false} HostIsTheCertificatesCn(events: seq<Event>, c: ConnId)
    requires c in Run(EMPTY, events).conns
    ensures
      var cn := Run(EMPTY, events).conns[c].host;
      cn != "" && Open(c, Leaf(cn)) in events
    decreases |events|
  {
    if events != [] {
      var before, e := events[..|events| - 1], events[|events| - 1];
      assert events == before + [e];
      RunThen(EMPTY, before, e);
      var s := Run(EMPTY, before);
      if c in s.conns {
        HostIsTheCertificatesCn(before, c);
        ConnsOnlyGrow(s, e);
        assert Open(c, Leaf(s.conns[c].host)) in before;
      }
    }
  }

  lemma {:induction false} RunSplit(s: State, before: seq<Event>, after: seq<Event>)
    ensures Run(s, before + after) == Run(Run(s, before), after)
    decreases |before|
  {
    if before == [] {
      assert [] + after == after;
    } else {
      assert (before + after)[0] == before[0] && (before + after)[1..] == before[1..] + after;
      RunSplit(Step(s, before[0]), before[1..], after);
    }
  }

  lemma RunThen(s: State, events: seq<Event>, e: Event)
    ensures Run(s, events + [e]) == Step(Run(s, events), e)
  {
    RunSplit(s, events, [e]);
    assert Run(Run(s, events), [e]) == Run(Step(Run(s, events), e), [e][1..]);
  }

  // Main result: a registered stream belongs to a Connect of that host, by its peer's certificate,
  // that has not yet removed itself.
  lemma RegisteredStreamsAreLive(events: seq<Event>, h: HostId)
    requires h in Run(EMPTY, events).registry
    ensures
      var s := Run(EMPTY, events);
      Live(s, s.registry[h]) && s.conns[s.registry[h]].host == h
  {
    RunKeeps(EMPTY, events);
    assert EntryOk(Run(EMPTY, events), h);
  }

  function LiveHosts(s: State): set<HostId> {
    set c | c in s.conns && !s.conns[c].removed :: s.conns[c].host
  }

  lemma SubsetSize(a: set<HostId>, b: set<HostId>)
    requires a <= b
    ensures |a| <= |b| && (|a| == |b| <==> a == b)
  {
    assert b == a + (b - a);
  }

  // Main result: the number of entries, which Count reports as the active agents, is at most the number
  // of hosts with a live Connect, and it is that number exactly if each of them is registered.
  lemma CountAtMostLiveHosts(events: seq<Event>)
    ensures
      var s := Run(EMPTY, events);
      && |s.registry| <= |LiveHosts(s)|
      && (|s.registry| == |LiveHosts(s)| <==> forall h :: h in LiveHosts(s) ==> h in s.registry)
  {
    var s := Run(EMPTY, events);
    RunKeeps(EMPTY, events);
    forall h | h in s.registry ensures h in LiveHosts(s) {
      assert EntryOk(s, h);
    }
    SubsetSize(s.registry.Keys, LiveHosts(s));
    assert |s.registry| == |s.registry.Keys|;
  }

  // A live Connect can be unregistered, so "every live Connect is registered" is not promised. Exactly
  // when it is: a Connect is registered iff its own Add is the latest operation on its host, that is
  // no other Connect of the host has been added or removed since.
  lemma RegisteredIffLatest(events: seq<Event>, c: ConnId)
    requires c in Run(EMPTY, events).conns
    ensures
      var s := Run(EMPTY, events);
      var h := s.conns[c].host;
      (h in s.registry && s.registry[h] == c) <==> Latest(s.log, h) == Some(c)
  {
    RunKeeps(EMPTY, events);
    var s := Run(EMPTY, events);
    assert EntryOk(s, s.conns[c].host);
  }

  lemma {:induction false} LatestIsLast(log: seq<Op>, host: HostId, c: ConnId)
    ensures Latest(log, host) == Some(c) <==>
              exists i :: 0 <= i < |log| && log[i] == Added(host, c)
                        && forall j :: i < j < |log| ==> log[j].host != host
  {
    if log != [] {
      var n := |log| - 1;
      LatestIsLast(log[..n], host, c);
      if log[n].host != host {
        if i :| 0 <= i < n && log[..n][i] == Added(host, c) && forall j :: i < j < n ==> log[..n][j].host != host {
          assert log[i] == Added(host, c) && forall j :: i < j < |log| ==> log[j].host != host;
        }
        if i :| 0 <= i < |log| && log[i] == Added(host, c) && forall j :: i < j < |log| ==> log[j].host != host {
          assert log[..n][i] == Added(host, c) && forall j :: i < j < n ==> log[..n][j].host != host;
        }
      }
    }
  }

  // No Connect of `h` opens while another one is live.
  ghost predicate NoOverlap(s: State, events: seq<Event>, h: HostId)
    decreases |events|
  {
    events != [] ==>
      && (events[0].Open? && HostIdFromStream(events[0].peer) == Some(h) ==> NoneLive(s, h))
      && NoOverlap(Step(s, events[0]), events[1..], h)
  }

  ghost predicate NoneLive(s: State, h: HostId) {
    forall c :: c in s.conns && s.conns[c].host == h ==> s.conns[c].removed
  }

  ghost predicate AllLiveRegistered(s: State, h: HostId) {
    forall c :: Live(s, c) && s.conns[c].host == h ==> h in s.registry && s.registry[h] == c
  }

  lemma {:induction false} LiveStayRegistered(s: State, events: seq<Event>, h: HostId)
    requires Inv(s) && AllLiveRegistered(s, h) && NoOverlap(s, events, h)
    ensures AllLiveRegistered(Run(s, events), h)
    decreases |events|
  {
    if events != [] {
      StepKeeps(s, events[0]);
      LiveStayRegistered(Step(s, events[0]), events[1..], h);
    }
  }

  // Main result: if Connects of a host never overlap, each is registered exactly from its Add to its
  // Remove.
  lemma RegisteredWhileLive(events: seq<Event>, h: HostId, c: ConnId)
    requires NoOverlap(EMPTY, events, h)
    requires c in Run(EMPTY, events).conns && Run(EMPTY, events).conns[c].host == h
    ensures
      var s := Run(EMPTY, events);
      (h in s.registry && s.registry[h] == c) <==> Live(s, c)
  {
    RunKeeps(EMPTY, events);
    LiveStayRegistered(EMPTY, events, h);
    assert EntryOk(Run(EMPTY, events), h);
  }

  // With an overlap a live Connect loses its entry: the older stream's Remove drops the newer one.
  lemma OlderRemoveDropsNewer(h: HostId) returns (events: seq<Event>)
    requires h != ""
    ensures
      var s := Run(EMPTY, events);
      1 in s.conns && s.conns[1].host == h && Live(s, 1) && s.conns[1].loop.Selecting? && h !in s.registry
  {
    events := [Open(0, Leaf(h)), Open(1, Leaf(h)), PumpConn(0, SeeContextDone), Close(0)];
    var s1 := OpenStep(EMPTY, 0, Leaf(h));
    var s2 := OpenStep(s1, 1, Leaf(h));
    var s3 := Step(s2, PumpConn(0, SeeContextDone));
    assert events[1..] == [Open(1, Leaf(h)), PumpConn(0, SeeContextDone), Close(0)];
    assert events[1..][1..] == [PumpConn(0, SeeContextDone), Close(0)];
    assert events[1..][1..][1..] == [Close(0)];
    assert Run(s3, [Close(0)]) == CloseStep(s3, 0);
    assert Run(s2, events[1..][1..]) == Run(s3, [Close(0)]);
    assert Run(s1, events[1..]) == Run(s2, events[1..][1..]);
    assert Run(EMPTY, events) == Run(s1, events[1..]);
  }
}
