// What every run of the command broker guarantees.
module BrokerTheorems {
  import opened Base
  import opened Broker
  import opened BrokerSafety
  import RateLimiting
  import Registry

  // ---------- what is stored and sent, field by field ----------

  // The message of a request: its own tier, reason, issuer, timeout and command under the generated id.
  predicate Requests(cr: CommandRequest, id: CmdId, req: IssueRequest) {
    && cr.id == id && cr.tier == req.tier && cr.reason == req.reason && cr.issuedBy == req.issuedBy
    && cr.timeout == req.timeout && cr.command == req.command
  }

  // The stored row of a request, whatever result it may have since.
  predicate Stores(row: CommandRow, id: CmdId, req: IssueRequest) {
    && row.host == req.host && row.tier == req.tier && row.reason == req.reason && row.issuedBy == req.issuedBy
    && Requests(row.json, id, req)
  }

  // ---------- sends ----------

  // Main result: whenever a step sends a command, it is the very command of an Issue, with that Issue's
  // tier, reason, issuer and timeout; its row had been stored before the step with the same content; no
  // earlier send carries that id; and the stream is one whose peer certificate names the Issue's host.
  lemma SendsFollowTheirRow(start: Time, events: seq<Event>, e: Event)
    requires Step(Run(Init(start), events), e).sends != Run(Init(start), events).sends
    ensures
      var s := Run(Init(start), events);
      var sends := Step(s, e).sends;
      && |sends| == |s.sends| + 1 && sends[..|s.sends|] == s.sends
      && var x := sends[|s.sends|];
         && x.issue in s.issues && Requests(x.cr, x.cr.id, s.issues[x.issue].req)
         && x.cr.id in s.rows && Stores(s.rows[x.cr.id], x.cr.id, s.issues[x.issue].req)
         && s.rows[x.cr.id].json == x.cr
         && Registry.Reaches(s.streams, x.conn, s.rows[x.cr.id].host)
         && forall y :: y in s.sends ==> y.cr.id != x.cr.id
  {
    var s := Run(Init(start), events);
    InitOk(start);
    RunKeeps(Init(start), events);
    assert e.DoSend? by {
      OnlySendSends(s, e);
    }
    SendAppends(s, e.issue, e.ok);
  }

  lemma OnlySendSends(s: State, e: Event)
    ensures !e.DoSend? ==> Step(s, e).sends == s.sends
  {
  }

  lemma SendAppends(s: State, i: IssueId, ok: bool)
    requires Inv(s) && SendStep(s, i, ok).sends != s.sends
    ensures
      var k := s.issues[i];
      && i in s.issues && k.id.Some? && k.conn.Some? && k.id.value in s.rows
      && SendStep(s, i, ok).sends == s.sends + [Sending(k.conn.value, RequestOf(k.id.value, k.req), i, ok)]
      && s.rows[k.id.value].(status := Pending, result := None) == PendingRow(k.id.value, k.req)
      && Registry.Reaches(s.streams, k.conn.value, k.req.host)
      && forall y :: y in s.sends ==> y.cr.id != k.id.value
  {
    var k := s.issues[i];
    assert IssueOk(s, i, k) && RowOk(s, k.id.value);
    forall y | y in s.sends ensures y.cr.id != k.id.value {
      assert SendOk(s, y);
    }
  }

  // ---------- conservation: sends, rows and grants of one host ----------

  ghost function RowsOf(s: State, h: HostId): set<CmdId> {
    set id | id in s.rows && s.rows[id].host == h
  }

  ghost function GrantedTo(issues: map<IssueId, Issue>, h: HostId): set<IssueId> {
    set i | i in issues && issues[i].granted && issues[i].req.host == h
  }

  // The positions in `sends` of the commands sent on streams of `h`.
  ghost function SendsTo(s: State, h: HostId): set<nat> {
    set n: nat | n < |s.sends| && Registry.Reaches(s.streams, s.sends[n].conn, h)
  }

  lemma SendsWithinRows(s: State, h: HostId)
    requires Inv(s)
    ensures |SendsTo(s, h)| <= |RowsOf(s, h)|
  {
    var f := map n: nat | n < |s.sends| :: s.sends[n].cr.id;
    forall n | n in SendsTo(s, h) ensures f[n] in RowsOf(s, h) {
      assert SendOk(s, s.sends[n]);
    }
    forall m, n | m in SendsTo(s, h) && n in SendsTo(s, h) && f[m] == f[n] ensures m == n {
      assert m < n ==> !SameCommand(s.sends[m], s.sends[n]);
      assert n < m ==> !SameCommand(s.sends[n], s.sends[m]);
    }
    InjectionBounds(SendsTo(s, h), RowsOf(s, h), f);
  }

  // An Issue generates at most one id.
  ghost predicate MintedOnce(mintedBy: map<CmdId, IssueId>) {
    forall a, b :: a in mintedBy && b in mintedBy && mintedBy[a] == mintedBy[b] ==> a == b
  }

  lemma MintedOnceKept(s: State, e: Event)
    requires Inv(s) && MintedOnce(s.mintedBy)
    ensures MintedOnce(Step(s, e).mintedBy)
  {
    if e.DoBuild? && At(s, e.issue, Build) && e.id !in s.mintedBy {
      assert forall a :: a in s.mintedBy ==> MintOk(s, a);
      assert BuildStep(s, e.issue, e.id, e.marshalled).mintedBy == s.mintedBy[e.id := e.issue];
    } else {
      assert Step(s, e).mintedBy == s.mintedBy;
    }
  }

  lemma RowsWithinGrants(s: State, h: HostId)
    requires Inv(s) && MintedOnce(s.mintedBy)
    ensures |RowsOf(s, h)| <= |GrantedTo(s.issues, h)|
  {
    forall id | id in RowsOf(s, h) ensures id in s.mintedBy && s.mintedBy[id] in GrantedTo(s.issues, h) {
      assert RowOk(s, id);
    }
    InjectionBounds(RowsOf(s, h), GrantedTo(s.issues, h), s.mintedBy);
  }

  // The granted Issues of a host are as many as the limiter's grants to it.
  ghost predicate Counted(s: State, h: HostId) {
    |GrantedTo(s.issues, h)| == RateLimiting.Grants(s.asked, h, s.start, s.clock)
  }

  lemma {:induction false} GrantsUpTo(trace: seq<RateLimiting.Request>, h: HostId, from: Time, to: Time, to': Time)
    requires to <= to' && forall i :: 0 <= i < |trace| ==> trace[i].at <= to
    ensures RateLimiting.Grants(trace, h, from, to) == RateLimiting.Grants(trace, h, from, to')
  {
    if trace != [] {
      GrantsUpTo(trace[..|trace| - 1], h, from, to, to');
    }
  }

  lemma GrantsToOthers(trace: seq<RateLimiting.Request>, r: RateLimiting.Request, h: HostId, from: Time, to: Time)
    requires r.host != h
    ensures RateLimiting.Grants(trace + [r], h, from, to) == RateLimiting.Grants(trace, h, from, to)
  {
    assert (trace + [r])[..|trace + [r]| - 1] == trace;
  }

  lemma LimitCounts(s: State, i: IssueId, h: HostId)
    requires Inv(s) && Counted(s, h)
    ensures Counted(LimitStep(s, i), h)
  {
    if At(s, i, Limit) {
      assert IssueOk(s, i, s.issues[i]);
      var r := RateLimiting.Request(s.issues[i].req.host, s.clock);
      var s' := LimitStep(s, i);
      RateLimiting.OneMore(s.asked, r, s.start, s.clock);
      if r.host != h {
        GrantsToOthers(s.asked, r, h, s.start, s.clock);
      }
      if RateLimiting.Granted(s.asked + [r]) && r.host == h {
        assert GrantedTo(s'.issues, h) == GrantedTo(s.issues, h) + {i};
      } else {
        assert GrantedTo(s'.issues, h) == GrantedTo(s.issues, h);
      }
    }
  }

  // Only the limiter call decides whether an Issue is granted.
  ghost predicate SameGrants(a: map<IssueId, Issue>, b: map<IssueId, Issue>) {
    && (forall i :: i in a ==> i in b && b[i].granted == a[i].granted && b[i].req == a[i].req)
    && (forall i :: i in b && i !in a ==> !b[i].granted)
  }

  lemma SameGrantsSameCount(a: map<IssueId, Issue>, b: map<IssueId, Issue>, h: HostId)
    requires SameGrants(a, b)
    ensures GrantedTo(a, h) == GrantedTo(b, h)
  {
  }

  lemma BuildGrantsNothing(s: State, i: IssueId, id: CmdId, marshalled: bool)
    ensures SameGrants(s.issues, BuildStep(s, i, id, marshalled).issues)
  {
  }

  lemma StoreGrantsNothing(s: State, i: IssueId, o: Outcome)
    ensures SameGrants(s.issues, StoreStep(s, i, o).issues)
  {
  }

  lemma OtherStepsGrantNothing(s: State, e: Event)
    requires !e.DoLimit?
    ensures SameGrants(s.issues, Step(s, e).issues)
  {
    match e
    case DoBuild(i, id, marshalled) => BuildGrantsNothing(s, i, id, marshalled);
    case DoStore(i, o) => StoreGrantsNothing(s, i, o);
    case _ =>
  }

  lemma OtherStepsAskNothing(s: State, e: Event)
    requires !e.DoLimit?
    ensures Step(s, e).asked == s.asked && Step(s, e).start == s.start
    ensures Step(s, e).clock >= s.clock
  {
  }

  lemma StepCounts(s: State, e: Event, h: HostId)
    requires Inv(s) && Counted(s, h)
    ensures Counted(Step(s, e), h)
  {
    if e.DoLimit? {
      LimitCounts(s, e.issue, h);
    } else {
      OtherStepsGrantNothing(s, e);
      OtherStepsAskNothing(s, e);
      SameGrantsSameCount(s.issues, Step(s, e).issues, h);
      GrantsUpTo(s.asked, h, s.start, s.clock, Step(s, e).clock);
    }
  }

  lemma {:induction false} RunCounts(s: State, events: seq<Event>, h: HostId)
    requires Inv(s) && Counted(s, h) && MintedOnce(s.mintedBy)
    ensures Counted(Run(s, events), h) && MintedOnce(Run(s, events).mintedBy)
    decreases |events|
  {
    if events != [] {
      StepKeeps(s, events[0]);
      StepCounts(s, events[0], h);
      MintedOnceKept(s, events[0]);
      RunCounts(Step(s, events[0]), events[1..], h);
    }
  }

  // Main result: for every host, in every interleaving of Issues, Connects and results, commands sent
  // to it are at most its stored rows, and those at most the limiter's grants to it so far.
  lemma Conservation(start: Time, events: seq<Event>, h: HostId)
    ensures
      var s := Run(Init(start), events);
      |SendsTo(s, h)| <= |RowsOf(s, h)| <= RateLimiting.Grants(s.asked, h, start, s.clock)
  {
    InitOk(start);
    assert GrantedTo(Init(start).issues, h) == {};
    RunKeeps(Init(start), events);
    RunCounts(Init(start), events, h);
    StartKept(Init(start), events);
    SendsWithinRows(Run(Init(start), events), h);
    RowsWithinGrants(Run(Init(start), events), h);
  }

  lemma {:induction false} StartKept(s: State, events: seq<Event>)
    ensures Run(s, events).start == s.start
    decreases |events|
  {
    if events != [] {
      StartKept(Step(s, events[0]), events[1..]);
    }
  }

  // The time that passes in a run.
  function Elapsed(events: seq<Event>): nat {
    if events == [] then 0 else (if events[0].Tick? then events[0].elapsed else 0) + Elapsed(events[1..])
  }

  lemma ClockOf(s: State, e: Event)
    ensures Step(s, e).clock == s.clock + if e.Tick? then e.elapsed else 0
  {
  }

  lemma {:induction false} ClockFollowsTicks(s: State, events: seq<Event>)
    ensures Run(s, events).clock == s.clock + Elapsed(events)
    decreases |events|
  {
    if events != [] {
      ClockOf(s, events[0]);
      ClockFollowsTicks(Step(s, events[0]), events[1..]);
    }
  }

  // Main result: a run in which at most n * 5 min pass stores at most 60n + 59 commands for one host, so
  // it sends that host no more.
  lemma CommandRateBound(start: Time, events: seq<Event>, h: HostId, n: nat)
    requires n >= 1 && Elapsed(events) <= n * (300 * SECOND)
    ensures |SendsTo(Run(Init(start), events), h)| <= |RowsOf(Run(Init(start), events), h)| <= 60 * n + 59
  {
    var s := Run(Init(start), events);
    ClockFollowsTicks(Init(start), events);
    InitOk(start);
    RunKeeps(Init(start), events);
    Conservation(start, events, h);
    GrantsUpTo(s.asked, h, start, s.clock, start + n * (300 * SECOND));
    RateLimiting.SlidingBound(s.asked, h, start, n);
  }

  // ---------- what Issue returns, and results ----------

  // Main result: an id that Issue returns, with or without an error, names a row stored for that very
  // request, and Issue succeeds only after sending it on a stream of its host.
  lemma ReturnedIdIsStored(start: Time, events: seq<Event>, i: IssueId)
    requires At(Run(Init(start), events), i, Ended)
    ensures
      var s := Run(Init(start), events);
      var k := s.issues[i];
      && (k.id.Some? ==>
            && k.granted && k.id.value in s.rows
            && Stores(s.rows[k.id.value], k.id.value, k.req))
      && (k.ok ==>
            && k.id.Some?
            && exists x :: x in s.sends && x.ok && Requests(x.cr, k.id.value, k.req)
                           && Registry.Reaches(s.streams, x.conn, k.req.host))
  {
    var s := Run(Init(start), events);
    InitOk(start);
    RunKeeps(Init(start), events);
    var k := s.issues[i];
    assert IssueOk(s, i, k);
    if k.id.Some? {
      assert RowOk(s, k.id.value);
    }
    if k.ok {
      var x := Sending(k.conn.value, RequestOf(k.id.value, k.req), i, true);
      assert SendOk(s, x);
    }
  }

  predicate Completes(e: Event, id: CmdId) {
    e.Complete? && e.id == id && !e.outcome.FailedBefore?
  }

  lemma RowUntouched(s: State, e: Event, id: CmdId)
    requires Inv(s) && id in s.rows && !Completes(e, id)
    ensures id in Step(s, e).rows && Step(s, e).rows[id] == s.rows[id]
  {
    if e.DoStore? && At(s, e.issue, Store) {
      assert IssueOk(s, e.issue, s.issues[e.issue]);
    }
  }

  lemma {:induction false} RowStays(s: State, events: seq<Event>, id: CmdId)
    requires Inv(s) && id in s.rows && forall i :: 0 <= i < |events| ==> !Completes(events[i], id)
    ensures id in Run(s, events).rows && Run(s, events).rows[id] == s.rows[id]
    decreases |events|
  {
    if events != [] {
      RowUntouched(s, events[0], id);
      StepKeeps(s, events[0]);
      RowStays(Step(s, events[0]), events[1..], id);
    }
  }

  // Rows are never removed, and a row shows its latest result, whatever else happens around it: the
  // columns the Issue wrote never change.
  lemma LatestResultWins(start: Time, before: seq<Event>, id: CmdId, result: CommandResult, o: Outcome,
                         after: seq<Event>)
    requires id in Run(Init(start), before).rows && !o.FailedBefore?
    requires forall i :: 0 <= i < |after| ==> !Completes(after[i], id)
    ensures
      var was := Run(Init(start), before).rows[id];
      var rows := Run(Step(Run(Init(start), before), Complete(id, result, o)), after).rows;
      && id in rows
      && rows[id].(status := was.status, result := was.result) == was
      && rows[id].result == Some(result)
      && (rows[id].status == Failed <==> result.error != "") && rows[id].status != Pending
  {
    InitOk(start);
    RunKeeps(Init(start), before);
    CompleteKeeps(Run(Init(start), before), id, result, o);
    RowStays(CompleteStep(Run(Init(start), before), id, result, o), after, id);
  }

  lemma {:induction false} RunSplit(s: State, before: seq<Event>, after: seq<Event>)
    ensures Run(s, before + after) == Run(Run(s, before), after)
    decreases |before|
  {
    if before == [] {
      assert [] + after == after;
    } else {
      assert (before + after)[0] == before[0] && (before + after)[1..] == before[1..] + after;
      RunSplit(Step(s, before[0]), before[1..], after);
    }
  }

  lemma RunThen(s: State, events: seq<Event>, e: Event)
    ensures Run(s, events + [e]) == Step(Run(s, events), e)
  {
    RunSplit(s, events, [e]);
    assert Run(Run(s, events), [e]) == Run(Step(Run(s, events), e), [e][1..]);
  }

  lemma CallThenQuota(s: State, i: IssueId, req: IssueRequest)
    requires i !in s.issues
    ensures
      var s' := LimitStep(CallStep(s, i, req), i);
      var asked := s.asked + [RateLimiting.Request(req.host, s.clock)];
      && s'.asked == asked && s'.rows == s.rows && s'.streams == s.streams && s'.mintedBy == s.mintedBy
      && s'.sends == s.sends
      && i in s'.issues
      && s'.issues[i] == if RateLimiting.Granted(asked) then Begun(req).(pc := Build, granted := true)
                         else Begun(req).(pc := Ended)
  {
    var s1 := CallStep(s, i, req);
    assert At(s1, i, Limit) && s1.issues[i] == Begun(req);
  }

  lemma ThenBuild(s: State, i: IssueId, id: CmdId, marshalled: bool)
    requires i in s.issues && id !in s.mintedBy
    ensures
      var k := s.issues[i];
      var s' := BuildStep(s, i, id, marshalled);
      && s'.asked == s.asked && s'.rows == s.rows && s'.streams == s.streams && s'.sends == s.sends
      && i in s'.issues
      && s'.issues[i] == if k.pc != Build then k
                         else if k.req.command.OtherType? || !marshalled then k.(pc := Ended)
                         else k.(pc := Store, id := Some(id))
  {
  }

  lemma QuotaThenBuild(s: State, i: IssueId, req: IssueRequest, id: CmdId, marshalled: bool)
    requires i !in s.issues && id !in s.mintedBy
    ensures
      var s' := BuildStep(LimitStep(CallStep(s, i, req), i), i, id, marshalled);
      var asked := s.asked + [RateLimiting.Request(req.host, s.clock)];
      && s'.asked == asked && s'.rows == s.rows && s'.streams == s.streams && s'.sends == s.sends
      && i in s'.issues
      && s'.issues[i] == if !RateLimiting.Granted(asked) then Begun(req).(pc := Ended)
                         else if req.command.OtherType? || !marshalled then Begun(req).(pc := Ended, granted := true)
                         else Begun(req).(pc := Store, granted := true, id := Some(id))
  {
    CallThenQuota(s, i, req);
    ThenBuild(LimitStep(CallStep(s, i, req), i), i, id, marshalled);
  }

  lemma StoreThenPush(s: State, i: IssueId, o: Outcome, sent: bool)
    requires At(s, i, Store) && s.issues[i].id.Some? && s.issues[i].id.value !in s.rows && !s.issues[i].ok
    ensures
      var k := s.issues[i];
      var s' := SendStep(LookupStep(StoreStep(s, i, o), i), i, sent);
      && s'.asked == s.asked
      && s'.rows == (if o.FailedBefore? then s.rows else s.rows[k.id.value := PendingRow(k.id.value, k.req)])
      && s'.sends == (if o.Done? && k.req.host in s.streams.registry
                      then s.sends + [Sending(s.streams.registry[k.req.host], RequestOf(k.id.value, k.req), i, sent)]
                      else s.sends)
      && At(s', i, Ended)
      && s'.issues[i].id == (if o.Done? then k.id else None)
      && (s'.issues[i].ok <==> o.Done? && k.req.host in s.streams.registry && sent)
  {
    var s1 := StoreStep(s, i, o);
    assert if o.Done? then At(s1, i, Lookup) else At(s1, i, Ended);
  }

  lemma NothingOnceEnded(s: State, i: IssueId, o: Outcome, sent: bool)
    requires At(s, i, Ended)
    ensures SendStep(LookupStep(StoreStep(s, i, o), i), i, sent) == s
  {
  }

  function IssueSteps(i: IssueId, req: IssueRequest, id: CmdId, marshalled: bool, o: Outcome, sent: bool): seq<Event> {
    [Call(i, req), DoLimit(i), DoBuild(i, id, marshalled)] + [DoStore(i, o), DoLookup(i), DoSend(i, sent)]
  }

  lemma ThreeSteps(s: State, a: Event, b: Event, c: Event)
    ensures Run(s, [a, b, c]) == Step(Step(Step(s, a), b), c)
  {
    RunThen(s, [], a);
    assert [] + [a] == [a];
    RunThen(s, [a], b);
    assert [a] + [b] == [a, b];
    RunThen(s, [a, b], c);
    assert [a, b] + [c] == [a, b, c];
  }

  lemma FirstThreeSteps(s: State, i: IssueId, req: IssueRequest, id: CmdId, marshalled: bool)
    ensures Run(s, [Call(i, req), DoLimit(i), DoBuild(i, id, marshalled)])
         == BuildStep(LimitStep(CallStep(s, i, req), i), i, id, marshalled)
  {
    ThreeSteps(s, Call(i, req), DoLimit(i), DoBuild(i, id, marshalled));
  }

  lemma LastThreeSteps(s: State, i: IssueId, o: Outcome, sent: bool)
    ensures Run(s, [DoStore(i, o), DoLookup(i), DoSend(i, sent)])
         == SendStep(LookupStep(StoreStep(s, i, o), i), i, sent)
  {
    ThreeSteps(s, DoStore(i, o), DoLookup(i), DoSend(i, sent));
  }

  lemma StepsInOrder(s: State, i: IssueId, req: IssueRequest, id: CmdId, marshalled: bool, o: Outcome, sent: bool)
    returns (middle: State)
    ensures middle == BuildStep(LimitStep(CallStep(s, i, req), i), i, id, marshalled)
    ensures Run(s, IssueSteps(i, req, id, marshalled, o, sent))
         == SendStep(LookupStep(StoreStep(middle, i, o), i), i, sent)
  {
    RunSplit(s, [Call(i, req), DoLimit(i), DoBuild(i, id, marshalled)], [DoStore(i, o), DoLookup(i), DoSend(i, sent)]);
    FirstThreeSteps(s, i, req, id, marshalled);
    middle := Run(s, [Call(i, req), DoLimit(i), DoBuild(i, id, marshalled)]);
    LastThreeSteps(middle, i, o, sent);
  }

  // Main result: what an Issue that nothing interrupts does, in every case. It takes quota even if it
  // fails later; it stores a row exactly if the host has quota, the command is of a known type and the
  // insert takes effect; it returns the id exactly if that insert is also acknowledged; and it succeeds
  // exactly if the host is then registered and the send works. Row and message are those of the request,
  // field by field, and no other row or message appears.
  lemma UninterruptedIssue(s: State, i: IssueId, req: IssueRequest, id: CmdId, marshalled: bool, o: Outcome, sent: bool)
    requires Inv(s) && i !in s.issues && id !in s.mintedBy
    ensures
      var s' := Run(s, IssueSteps(i, req, id, marshalled, o, sent));
      var asked := s.asked + [RateLimiting.Request(req.host, s.clock)];
      var built := RateLimiting.Granted(asked) && !req.command.OtherType? && marshalled;
      var message := CommandRequest(id, req.tier, req.reason, req.issuedBy, req.timeout, req.command);
      var row := CommandRow(req.host, req.tier, message, req.reason, req.issuedBy, Pending, None);
      var connected := req.host in s.streams.registry;
      && s'.asked == asked
      && s'.rows == (if built && !o.FailedBefore? then s.rows[id := row] else s.rows)
      && s'.sends == (if built && o.Done? && connected
                      then s.sends + [Sending(s.streams.registry[req.host], message, i, sent)] else s.sends)
      && At(s', i, Ended)
      && s'.issues[i].id == (if built && o.Done? then Some(id) else None)
      && (s'.issues[i].ok <==> built && o.Done? && connected && sent)
  {
    assert id !in s.rows by {
      assert id in s.rows ==> RowOk(s, id);
    }
    QuotaThenBuild(s, i, req, id, marshalled);
    var middle := StepsInOrder(s, i, req, id, marshalled, o, sent);
    if At(middle, i, Store) {
      StoreThenPush(middle, i, o, sent);
    } else {
      NothingOnceEnded(middle, i, o, sent);
    }
  }
}
