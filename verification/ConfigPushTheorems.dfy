// What every run of the configuration table and its delivery guarantees.
module ConfigPushTheorems {
  import opened Base
  import opened ConfigPush
  import Registry
  import Streams

  lemma {:induction false} RunSplit(s: State, before: seq<Event>, after: seq<Event>)
    ensures Run(s, before + after) == Run(Run(s, before), after)
    decreases |before|
  {
    if before == [] {
      assert [] + after == after;
    } else {
      assert (before + after)[0] == before[0] && (before + after)[1..] == before[1..] + after;
      RunSplit(Step(s, before[0]), before[1..], after);
    }
  }

  lemma RunThen(s: State, events: seq<Event>, e: Event)
    ensures Run(s, events + [e]) == Step(Run(s, events), e)
  {
    RunSplit(s, events, [e]);
    assert Run(Run(s, events), [e]) == Run(Step(Run(s, events), e), [e][1..]);
  }

  // ---------- the table is the fold of its successful updates ----------

  function HostsAfter(events: seq<Event>): set<HostId> {
    set i | 0 <= i < |events| && events[i].AddHost? :: events[i].host
  }

  // What a set needs: one of the two fields, a 32-bit value and a known host.
  predicate Settable(known: set<HostId>, host: HostId, field: string, value: int) {
    && (field == "heartbeat_interval_seconds" || field == "metric_collection_interval_seconds")
    && -0x8000_0000 <= value <= 0x7FFF_FFFF
    && host in known
  }

  // The SetField calls of a log that take effect.
  function Successes(events: seq<Event>): seq<FieldSet> {
    if events == [] then []
    else
      var before, e := events[..|events| - 1], events[|events| - 1];
      if e.SetField? && !e.outcome.FailedBefore? && Settable(HostsAfter(before), e.host, e.field, e.value) then
        Successes(before) + [FieldSet(e.host, e.field, e.value)]
      else Successes(before)
  }

  lemma HostsOneMore(before: seq<Event>, e: Event)
    ensures HostsAfter(before + [e]) == if e.AddHost? then HostsAfter(before) + {e.host} else HostsAfter(before)
  {
    var all := before + [e];
    forall h | h in HostsAfter(before) ensures h in HostsAfter(all) {
      var i :| 0 <= i < |before| && before[i].AddHost? && before[i].host == h;
      assert all[i].AddHost? && all[i].host == h;
    }
    if e.AddHost? {
      assert all[|before|].AddHost? && all[|before|].host == e.host;
    }
  }

  lemma {:induction false} HistoryOfRun(events: seq<Event>)
    ensures Run(EMPTY, events).hosts == HostsAfter(events)
    ensures Run(EMPTY, events).sets == Successes(events)
  {
    if events != [] {
      var before, e := events[..|events| - 1], events[|events| - 1];
      assert events == before + [e];
      HistoryOfRun(before);
      RunThen(EMPTY, before, e);
      HostsOneMore(before, e);
    }
  }

  // Main result: after any run, Get answers with version = number of successful SetField calls for the
  // host and, for each field, the last value set or its default; a row exists exactly if there was one.
  lemma GetIsTheFold(events: seq<Event>, h: HostId)
    ensures
      var configs := Run(EMPTY, events).configs;
      && Get(configs, h) == Effective(Successes(events), h)
      && (h in configs <==> SetCount(Successes(events), h) > 0)
  {
    RunKeeps(EMPTY, events);
    HistoryOfRun(events);
    assert TableOk(Run(EMPTY, events).configs, Run(EMPTY, events).sets, h);
  }

  // What "last value" means: the value of the latest set of that field for that host, if there is one.
  lemma {:induction false} LastValueIsLatest(sets: seq<FieldSet>, h: HostId, field: string, initial: int)
    ensures
      || (&& LastValue(sets, h, field, initial) == initial
          && forall i :: 0 <= i < |sets| ==> sets[i].host != h || sets[i].field != field)
      || exists i :: 0 <= i < |sets| && sets[i] == FieldSet(h, field, LastValue(sets, h, field, initial))
                     && forall j :: i < j < |sets| ==> sets[j].host != h || sets[j].field != field
  {
    if sets != [] {
      var n := |sets| - 1;
      LastValueIsLatest(sets[..n], h, field, initial);
      if sets[n].host == h && sets[n].field == field {
        assert sets[n] == FieldSet(h, field, LastValue(sets, h, field, initial));
      } else if i :| 0 <= i < n && sets[..n][i] == FieldSet(h, field, LastValue(sets[..n], h, field, initial))
                     && forall j :: i < j < n ==> sets[..n][j].host != h || sets[..n][j].field != field {
        assert sets[i] == FieldSet(h, field, LastValue(sets, h, field, initial));
      }
    }
  }

  // ---------- deliveries ----------

  lemma OnlySendUpdateSends(s: State, e: Event)
    ensures !e.SendUpdate? ==> Step(s, e).sends == s.sends
  {
  }

  lemma SendAppends(s: State, j: JobId, ok: bool) returns (x: Sending)
    requires Inv(s) && SendStep(s, j, ok).sends != s.sends
    ensures SendStep(s, j, ok).sends == s.sends + [x]
    ensures x.job == j && j in s.jobs && JobOk(s.streams, s.sets, s.jobs[j]) && s.jobs[j].pc == Transmit
    ensures s.jobs[j].cfg.Some? && s.jobs[j].conn == Some(x.conn) && x.update == MessageOf(s.jobs[j].cfg.value)
    ensures forall y :: y in s.sends ==> y.job != j
  {
    var k := s.jobs[j];
    assert JobOk(s.streams, s.sets, k);
    x := Sending(j, k.conn.value, MessageOf(k.cfg.value));
    forall y | y in s.sends ensures y.job != j {
      assert SendOk(s, y);
    }
  }

  // Main result: in every interleaving, each update sent is exactly the fold of the field sets that
  // had taken effect when its job read the table, unchanged by the 32-bit conversions; it goes out once
  // on a stream whose peer certificate names the job's host; and a SyncOnConnect sends only a version
  // above the one the agent reported.
  lemma SendsAreTheFoldRead(events: seq<Event>, e: Event) returns (x: Sending)
    requires Step(Run(EMPTY, events), e).sends != Run(EMPTY, events).sends
    ensures
      var s := Run(EMPTY, events);
      && Step(s, e).sends == s.sends + [x]
      && x.job in s.jobs
      && var k := s.jobs[x.job];
      && k.readAt <= |Successes(events)|
      && (var f := Effective(Successes(events)[..k.readAt], k.host);
          && x.update == Update(f.version, f.heartbeat, f.metric, f.logSources)
          && (k.kind.Sync? ==> f.version > k.kind.agentVersion))
      && Registry.Reaches(s.streams, x.conn, k.host)
      && forall y :: y in s.sends ==> y.job != x.job
  {
    RunKeeps(EMPTY, events);
    HistoryOfRun(events);
    OnlySendUpdateSends(Run(EMPTY, events), e);
    x := SendAppends(Run(EMPTY, events), e.job, e.ok);
  }

  // ---------- one delivery that nothing interrupts ----------

  lemma FourSteps(s: State, a: Event, b: Event, c: Event, d: Event)
    ensures Run(s, [a, b, c, d]) == Step(Step(Step(Step(s, a), b), c), d)
  {
    RunThen(s, [], a);
    assert [] + [a] == [a];
    RunThen(s, [a], b);
    assert [a] + [b] == [a, b];
    RunThen(s, [a, b], c);
    assert [a, b] + [c] == [a, b, c];
    RunThen(s, [a, b, c], d);
    assert [a, b, c] + [d] == [a, b, c, d];
  }

  // Main result: SyncOnConnect sends exactly if the table can be read, the host's number of successful
  // sets exceeds the agent's version and the host is registered; it fails exactly if the read fails or
  // the send does. Being up to date or unregistered is no error.
  lemma UninterruptedSync(s: State, j: JobId, h: HostId, v: int, readable: bool, sent: bool)
    requires Inv(s) && j !in s.jobs
    ensures
      var s' := Run(s, [Start(j, Sync(v), h), ReadConfig(j, readable), FindStream(j), SendUpdate(j, sent)]);
      var f := Effective(s.sets, h);
      var update := Update(f.version, f.heartbeat, f.metric, f.logSources);
      var sends := readable && f.version > v && h in s.streams.registry;
      && s'.configs == s.configs
      && s'.sends == (if sends then s.sends + [Sending(j, s.streams.registry[h], update)] else s.sends)
      && At(s', j, Ended)
      && (s'.jobs[j].failed <==> !readable || (sends && !sent))
  {
    assert TableOk(s.configs, s.sets, h);
    FourSteps(s, Start(j, Sync(v), h), ReadConfig(j, readable), FindStream(j), SendUpdate(j, sent));
    SyncSteps(s, j, h, v, readable, sent);
  }

  lemma SyncSteps(s: State, j: JobId, h: HostId, v: int, readable: bool, sent: bool)
    requires j !in s.jobs
    ensures
      var s' := SendStep(FindStep(ReadStep(StartStep(s, j, Sync(v), h), j, readable), j), j, sent);
      var f := Get(s.configs, h);
      var sends := readable && f.version > v && h in s.streams.registry;
      && s'.configs == s.configs
      && s'.sends == (if sends then s.sends + [Sending(j, s.streams.registry[h], MessageOf(f))] else s.sends)
      && At(s', j, Ended)
      && (s'.jobs[j].failed <==> !readable || (sends && !sent))
  {
    var s1 := StartStep(s, j, Sync(v), h);
    assert s1 == Put(s, j, Begun(Sync(v), h));
    var s2 := ReadStep(s1, j, readable);
    assert s2.streams == s.streams && s2.sends == s.sends;
    assert readable && Get(s.configs, h).version > v ==>
        At(s2, j, Find) && s2.jobs[j] == Job(Find, Sync(v), h, Some(Get(s.configs, h)), |s.sets|, None, false);
  }

  // Main result: the sync that a Connect starts with version 0, if nothing interrupts the two, sends
  // the current fold on that Connect's own stream exactly if the host's configuration was ever set and
  // the table can be read.
  lemma UninterruptedFirstSync(s: State, c: Streams.ConnId, peer: Registry.Peer, j: JobId, readable: bool, sent: bool)
    requires Inv(s) && c !in s.streams.conns && j !in s.jobs && peer.Leaf? && peer.cn != ""
    ensures
      var h, f := peer.cn, Effective(s.sets, peer.cn);
      var entered := Step(s, OnStream(Registry.Open(c, peer)));
      var s' := Run(entered, [Start(j, Sync(0), h), ReadConfig(j, readable), FindStream(j), SendUpdate(j, sent)]);
      var update := Update(f.version, f.heartbeat, f.metric, f.logSources);
      var sends := readable && exists i :: 0 <= i < |s.sets| && s.sets[i].host == h;
      && s'.sends == (if sends then s.sends + [Sending(j, c, update)] else s.sends)
      && At(s', j, Ended)
      && (s'.jobs[j].failed <==> !readable || (sends && !sent))
  {
    var h := peer.cn;
    OnStreamKeeps(s, Registry.Open(c, peer));
    UninterruptedSync(s.(streams := Registry.Step(s.streams, Registry.Open(c, peer))), j, h, 0, readable, sent);
    SetCountGrowsIff(s.sets, h, 0, |s.sets|);
    assert s.sets[..0] == [] && s.sets[..|s.sets|] == s.sets;
  }

  // Main result: Push sends the current fold exactly if the host is registered and the table can be
  // read; an unregistered host is no error.
  lemma UninterruptedPush(s: State, j: JobId, h: HostId, readable: bool, sent: bool)
    requires Inv(s) && j !in s.jobs
    ensures
      var s' := Run(s, [Start(j, Push, h), FindStream(j), ReadConfig(j, readable), SendUpdate(j, sent)]);
      var f := Effective(s.sets, h);
      var update := Update(f.version, f.heartbeat, f.metric, f.logSources);
      var sends := readable && h in s.streams.registry;
      && s'.configs == s.configs
      && s'.sends == (if sends then s.sends + [Sending(j, s.streams.registry[h], update)] else s.sends)
      && At(s', j, Ended)
      && (s'.jobs[j].failed <==> h in s.streams.registry && (!readable || !sent))
  {
    assert TableOk(s.configs, s.sets, h);
    FourSteps(s, Start(j, Push, h), FindStream(j), ReadConfig(j, readable), SendUpdate(j, sent));
    PushSteps(s, j, h, readable, sent);
  }

  lemma PushSteps(s: State, j: JobId, h: HostId, readable: bool, sent: bool)
    requires j !in s.jobs
    ensures
      var s' := SendStep(ReadStep(FindStep(StartStep(s, j, Push, h), j), j, readable), j, sent);
      var sends := readable && h in s.streams.registry;
      && s'.configs == s.configs
      && s'.sends == (if sends then s.sends + [Sending(j, s.streams.registry[h], MessageOf(Get(s.configs, h)))]
                      else s.sends)
      && At(s', j, Ended)
      && (s'.jobs[j].failed <==> h in s.streams.registry && (!readable || !sent))
  {
    var s1 := StartStep(s, j, Push, h);
    assert s1 == Put(s, j, Begun(Push, h));
    var s2 := FindStep(s1, j);
    assert s2.streams == s.streams && s2.sends == s.sends;
    assert h in s.streams.registry ==>
        At(s2, j, Read) && s2.jobs[j] == Job(Read, Push, h, None, 0, Some(s.streams.registry[h]), false);
  }

  // ---------- the order of versions on the wire ----------

  lemma {:induction false} SetCountGrows(sets: seq<FieldSet>, h: HostId, a: nat, b: nat)
    requires a <= b <= |sets|
    ensures SetCount(sets[..a], h) <= SetCount(sets[..b], h)
  {
    if a < b {
      SetCountGrows(sets, h, a, b - 1);
      assert sets[..b][..b - 1] == sets[..b - 1];
    }
  }

  // The count grows strictly exactly if a set of the host lies between.
  lemma {:induction false} SetCountGrowsIff(sets: seq<FieldSet>, h: HostId, a: nat, b: nat)
    requires a <= b <= |sets|
    ensures SetCount(sets[..a], h) < SetCount(sets[..b], h) <==> exists k :: a <= k < b && sets[k].host == h
  {
    if a < b {
      SetCountGrowsIff(sets, h, a, b - 1);
      SetCountGrows(sets, h, a, b - 1);
      assert sets[..b][..b - 1] == sets[..b - 1];
    }
  }

  // Two updates to one host carry versions in the order in which their jobs read the table, and
  // different ones exactly if a set of the host took effect between the reads.
  lemma VersionsFollowReads(events: seq<Event>, x: Sending, y: Sending)
    requires x in Run(EMPTY, events).sends && y in Run(EMPTY, events).sends
    ensures
      var s := Run(EMPTY, events);
      && x.job in s.jobs && y.job in s.jobs
      && var j, k := s.jobs[x.job], s.jobs[y.job];
      && j.readAt <= |s.sets| && k.readAt <= |s.sets|
      && (j.host == k.host ==>
            && (j.readAt <= k.readAt ==> x.update.version <= y.update.version)
            && (x.update.version > y.update.version <==>
                exists i :: k.readAt <= i < j.readAt && s.sets[i].host == j.host))
  {
    var s := Run(EMPTY, events);
    RunKeeps(EMPTY, events);
    assert SendOk(s, x) && SendOk(s, y);
    assert JobOk(s.streams, s.sets, s.jobs[x.job]) && JobOk(s.streams, s.sets, s.jobs[y.job]);
    var h, m, n := s.jobs[x.job].host, s.jobs[x.job].readAt, s.jobs[y.job].readAt;
    if m <= n {
      SetCountGrows(s.sets, h, m, n);
    } else {
      SetCountGrowsIff(s.sets, h, n, m);
    }
  }

  // Main result: exactly when versions arrive out of order. Of two updates to one host, the one sent
  // later carries an older version if and only if its job read the table before some successful set of
  // the host that the other job's read came after.
  lemma OutOfOrderIff(events: seq<Event>, p: nat, q: nat)
    requires p < q < |Run(EMPTY, events).sends|
    ensures
      var s := Run(EMPTY, events);
      var x, y := s.sends[p], s.sends[q];
      && x.job in s.jobs && y.job in s.jobs
      && var j, k := s.jobs[x.job], s.jobs[y.job];
      && j.readAt <= |Successes(events)|
      && (j.host == k.host ==>
            (y.update.version < x.update.version <==>
             exists i :: k.readAt <= i < j.readAt && Successes(events)[i].host == j.host))
  {
    HistoryOfRun(events);
    VersionsFollowReads(events, Run(EMPTY, events).sends[p], Run(EMPTY, events).sends[q]);
  }

  // The counterexample below in three parts: one set and a registered stream; a first Push that reads
  // version 1 and stalls; a second Push that reads version 2 and sends before the first does.
  lemma OneSetOneStream(h: HostId) returns (events: seq<Event>)
    requires h != ""
    ensures
      var s := Run(EMPTY, events);
      && s.streams.registry == map[h := 0] && s.configs == map[h := Config(1, 30, 15, [])]
      && s.jobs == map[] && s.hosts == {h} && s.sets == [FieldSet(h, HEARTBEAT_FIELD, 30)] && s.sends == []
  {
    events := [AddHost(h), OnStream(Registry.Open(0, Registry.Leaf(h))),
               SetField(h, HEARTBEAT_FIELD, 30, Done), FindStream(0)];
    FourSteps(EMPTY, events[0], events[1], events[2], events[3]);
    var s2 := Step(Step(EMPTY, events[0]), events[1]);
    assert s2.hosts == {h} && s2.streams.registry == map[h := 0] && s2.configs == map[];
    var s3 := Step(s2, events[2]);
    assert s3.configs == map[h := Config(1, 30, 15, [])];
  }

  lemma FirstPushStalls(s: State, h: HostId) returns (events: seq<Event>)
    requires s.streams.registry == map[h := 0] && s.configs == map[h := Config(1, 30, 15, [])]
    requires s.jobs == map[] && s.hosts == {h} && |s.sets| == 1 && s.sends == []
    ensures
      var s' := Run(s, events);
      && s'.streams == s.streams && s'.configs == map[h := Config(2, 30, 15, [])] && s'.sends == []
      && s'.jobs == map[0 := Job(Transmit, Push, h, Some(Config(1, 30, 15, [])), 1, Some(0), false)]
  {
    events := [Start(0, Push, h), FindStream(0), ReadConfig(0, true), SetField(h, HEARTBEAT_FIELD, 30, Done)];
    FourSteps(s, events[0], events[1], events[2], events[3]);
    var s2 := Step(Step(s, events[0]), events[1]);
    assert s2.jobs == map[0 := Job(Read, Push, h, None, 0, Some(0), false)];
    assert s2.configs == s.configs && s2.hosts == s.hosts && s2.sets == s.sets;
    var s3 := Step(s2, events[2]);
    assert s3.jobs == map[0 := Job(Transmit, Push, h, Some(Config(1, 30, 15, [])), 1, Some(0), false)];
  }

  // It does happen: an older version can be sent after a newer one.
  lemma OlderVersionCanArriveLast(h: HostId) returns (events: seq<Event>)
    requires h != ""
    ensures
      var sends := Run(EMPTY, events).sends;
      |sends| == 2 && sends[0].conn == sends[1].conn && sends[0].update.version == 2 && sends[1].update.version == 1
  {
    var setup := OneSetOneStream(h);
    var s := Run(EMPTY, setup);
    var first := FirstPushStalls(s, h);
    var s1 := Run(s, first);
    RunSplit(EMPTY, setup, first);
    var second := [Start(1, Push, h), FindStream(1), ReadConfig(1, true), SendUpdate(1, true)];
    FourSteps(s1, second[0], second[1], second[2], second[3]);
    PushSteps(s1, 1, h, true, true);
    OtherJobsStay(s1, 0, 1, h);
    RunSplit(EMPTY, setup + first, second);
    events := setup + first + second + [SendUpdate(0, true)];
    RunThen(EMPTY, setup + first + second, SendUpdate(0, true));
  }

  lemma OtherJobsStay(s: State, i: JobId, j: JobId, h: HostId)
    requires i in s.jobs && i != j
    ensures
      var s' := SendStep(ReadStep(FindStep(StartStep(s, j, Push, h), j), j, true), j, true);
      i in s'.jobs && s'.jobs[i] == s.jobs[i]
  {
  }
}
