// What every step of the command broker keeps.
module BrokerSafety {
  import opened Base
  import opened Broker
  import RateLimiting
  import Registry

  // ---------- the invariant ----------

  ghost predicate IssueOk(s: State, i: IssueId, k: Issue) {
    && (k.pc == Limit ==> !k.granted)
    && (k.pc == Build || k.pc == Store || k.pc == Lookup || k.pc == Push ==> k.granted)
    && (k.id.Some? ==> k.id.value in s.mintedBy && s.mintedBy[k.id.value] == i && k.granted)
    && (k.pc == Limit || k.pc == Build ==> k.id.None?)
    && (k.pc == Store || k.pc == Lookup || k.pc == Push ==> k.id.Some?)
    && (k.pc == Store ==> k.id.value !in s.rows)
    && (k.pc == Lookup || k.pc == Push || (k.pc == Ended && k.id.Some?) ==> k.id.value in s.rows)
    && (k.pc == Push ==> k.conn.Some? && Registry.Reaches(s.streams, k.conn.value, k.req.host))
    && (k.ok ==>
          && k.pc == Ended && k.id.Some? && k.conn.Some?
          && Sending(k.conn.value, RequestOf(k.id.value, k.req), i, true) in s.sends)
  }

  // A row is pending until it has a result, and failed exactly if the latest result carries an error.
  ghost predicate OutcomeOk(row: CommandRow) {
    row.status == match row.result
                  case None => Pending
                  case Some(r) => if r.error == "" then Completed else Failed
  }

  // A row is what the Issue that generated its id stored, up to the result.
  ghost predicate RowOk(s: State, id: CmdId)
    requires id in s.rows
  {
    && OutcomeOk(s.rows[id])
    && id in s.mintedBy && s.mintedBy[id] in s.issues
    && var k := s.issues[s.mintedBy[id]];
       k.granted && s.rows[id].(status := Pending, result := None) == PendingRow(id, k.req)
  }

  ghost predicate MintOk(s: State, id: CmdId)
    requires id in s.mintedBy
  {
    s.mintedBy[id] in s.issues && s.issues[s.mintedBy[id]].pc != Limit && s.issues[s.mintedBy[id]].pc != Build
  }

  ghost predicate SendOk(s: State, x: Sending) {
    && x.cr.id in s.rows && s.rows[x.cr.id].json == x.cr
    && Registry.Reaches(s.streams, x.conn, s.rows[x.cr.id].host)
    && x.cr.id in s.mintedBy && s.mintedBy[x.cr.id] == x.issue
    && At(s, x.issue, Ended)
  }

  ghost predicate SameCommand(x: Sending, y: Sending) {
    x.cr.id == y.cr.id
  }

  ghost predicate SentOnce(sends: seq<Sending>) {
    forall i, j {:trigger SameCommand(sends[i], sends[j])} :: 0 <= i < j < |sends| ==> !SameCommand(sends[i], sends[j])
  }

  ghost predicate HistoryOk(start: Time, clock: Time, asked: seq<RateLimiting.Request>) {
    && start <= clock
    && RateLimiting.Chronological(asked)
    && forall i :: 0 <= i < |asked| ==> start <= asked[i].at <= clock
  }

  ghost predicate Inv(s: State) {
    && Registry.Inv(s.streams)
    && HistoryOk(s.start, s.clock, s.asked)
    && (forall i {:trigger IssueOk(s, i, s.issues[i])} :: i in s.issues ==> IssueOk(s, i, s.issues[i]))
    && (forall id {:trigger RowOk(s, id)} :: id in s.rows ==> RowOk(s, id))
    && (forall id {:trigger MintOk(s, id)} :: id in s.mintedBy ==> MintOk(s, id))
    && (forall x {:trigger SendOk(s, x)} :: x in s.sends ==> SendOk(s, x))
    && SentOnce(s.sends)
  }

  // ---------- framing: what every step keeps ----------

  ghost predicate RowsGrow(s: State, s': State) {
    forall id :: id in s.rows ==>
      && id in s'.rows
      && (OutcomeOk(s.rows[id]) ==> OutcomeOk(s'.rows[id]))
      && s'.rows[id].(status := Pending, result := None) == s.rows[id].(status := Pending, result := None)
  }

  ghost predicate Grows(s: State, s': State, actor: Option<IssueId>) {
    && Registry.ConnsGrow(s.streams, s'.streams)
    && RowsGrow(s, s')
    && (forall x :: x in s.sends ==> x in s'.sends)
    && (forall id :: id in s.mintedBy ==> id in s'.mintedBy && s'.mintedBy[id] == s.mintedBy[id])
    && (forall i :: i in s.issues && actor != Some(i) ==> i in s'.issues && s'.issues[i] == s.issues[i])
    && (forall i :: i in s'.issues && actor != Some(i) ==> i in s.issues)
    && (forall id :: id in s'.rows && id !in s.rows ==> id in s.mintedBy && actor == Some(s.mintedBy[id]))
  }

  // The actor's own request never changes; once granted and past Build it stays so, and Ended is final.
  ghost predicate ActorGrows(s: State, s': State, i: IssueId) {
    && i in s'.issues
    && (i in s.issues ==>
          && s'.issues[i].req == s.issues[i].req
          && (s.issues[i].granted ==> s'.issues[i].granted)
          && (s.issues[i].pc != Limit && s.issues[i].pc != Build
              ==> s'.issues[i].pc != Limit && s'.issues[i].pc != Build)
          && (s.issues[i].pc == Ended ==> s'.issues[i].pc == Ended))
  }

  lemma OtherIssueKept(s: State, s': State, actor: Option<IssueId>, i: IssueId)
    requires Grows(s, s', actor) && i in s'.issues && actor != Some(i) && IssueOk(s, i, s'.issues[i])
    ensures IssueOk(s', i, s'.issues[i])
  {
  }

  lemma RowKept(s: State, s': State, actor: Option<IssueId>, id: CmdId)
    requires Grows(s, s', actor) && (actor.Some? ==> ActorGrows(s, s', actor.value))
    requires id in s.rows && RowOk(s, id)
    ensures id in s'.rows && RowOk(s', id)
  {
  }

  lemma MintKept(s: State, s': State, actor: Option<IssueId>, id: CmdId)
    requires Grows(s, s', actor) && (actor.Some? ==> ActorGrows(s, s', actor.value))
    requires id in s.mintedBy && MintOk(s, id)
    ensures id in s'.mintedBy && MintOk(s', id)
  {
  }

  lemma SendKept(s: State, s': State, actor: Option<IssueId>, x: Sending)
    requires Grows(s, s', actor) && (actor.Some? ==> ActorGrows(s, s', actor.value))
    requires SendOk(s, x)
    ensures SendOk(s', x)
  {
  }

  lemma Assemble(s: State, s': State, actor: Option<IssueId>)
    requires Inv(s) && Grows(s, s', actor) && (actor.Some? ==> ActorGrows(s, s', actor.value))
    requires Registry.Inv(s'.streams) && HistoryOk(s'.start, s'.clock, s'.asked) && SentOnce(s'.sends)
    requires actor.Some? ==> IssueOk(s', actor.value, s'.issues[actor.value])
    requires forall id {:trigger RowOk(s', id)} :: id in s'.rows && id !in s.rows ==> RowOk(s', id)
    requires forall id {:trigger MintOk(s', id)} :: id in s'.mintedBy && id !in s.mintedBy ==> MintOk(s', id)
    requires forall x {:trigger SendOk(s', x)} :: x in s'.sends && x !in s.sends ==> SendOk(s', x)
    ensures Inv(s')
  {
    forall i | i in s'.issues ensures IssueOk(s', i, s'.issues[i]) {
      if actor != Some(i) {
        assert IssueOk(s, i, s.issues[i]);
        OtherIssueKept(s, s', actor, i);
      }
    }
    forall id | id in s'.rows ensures RowOk(s', id) {
      if id in s.rows {
        RowKept(s, s', actor, id);
      }
    }
    forall id | id in s'.mintedBy ensures MintOk(s', id) {
      if id in s.mintedBy {
        MintKept(s, s', actor, id);
      }
    }
    forall x | x in s'.sends ensures SendOk(s', x) {
      if x in s.sends {
        SendKept(s, s', actor, x);
      }
    }
  }

  // ---------- every step keeps the invariant ----------

  lemma TickKeeps(s: State, elapsed: nat)
    requires Inv(s)
    ensures Inv(s.(clock := s.clock + elapsed))
  {
    Assemble(s, s.(clock := s.clock + elapsed), None);
  }

  lemma OnStreamKeeps(s: State, e: Registry.Event)
    requires Inv(s)
    ensures Inv(s.(streams := Registry.Step(s.streams, e)))
  {
    Registry.StepKeeps(s.streams, e);
    Registry.ConnsOnlyGrow(s.streams, e);
    Assemble(s, s.(streams := Registry.Step(s.streams, e)), None);
  }

  lemma CallKeeps(s: State, i: IssueId, req: IssueRequest)
    requires Inv(s)
    ensures Inv(CallStep(s, i, req))
  {
    if i !in s.issues {
      Assemble(s, CallStep(s, i, req), Some(i));
    }
  }

  lemma AskedInOrder(start: Time, clock: Time, asked: seq<RateLimiting.Request>, h: HostId)
    requires HistoryOk(start, clock, asked)
    ensures HistoryOk(start, clock, asked + [RateLimiting.Request(h, clock)])
  {
  }

  lemma LimitKeeps(s: State, i: IssueId)
    requires Inv(s)
    ensures Inv(LimitStep(s, i))
  {
    if At(s, i, Limit) {
      assert IssueOk(s, i, s.issues[i]);
      AskedInOrder(s.start, s.clock, s.asked, s.issues[i].req.host);
      Assemble(s, LimitStep(s, i), Some(i));
    }
  }

  lemma BuildKeeps(s: State, i: IssueId, id: CmdId, marshalled: bool)
    requires Inv(s)
    ensures Inv(BuildStep(s, i, id, marshalled))
  {
    if At(s, i, Build) && id !in s.mintedBy {
      var s' := BuildStep(s, i, id, marshalled);
      assert IssueOk(s, i, s.issues[i]);
      assert id !in s.rows by {
        assert id in s.rows ==> RowOk(s, id);
      }
      assert MintOk(s', id);
      Assemble(s, s', Some(i));
    }
  }

  lemma StoreKeeps(s: State, i: IssueId, o: Outcome)
    requires Inv(s)
    ensures Inv(StoreStep(s, i, o))
  {
    if At(s, i, Store) {
      assert IssueOk(s, i, s.issues[i]);
      var s' := StoreStep(s, i, o);
      if !o.FailedBefore? {
        assert RowOk(s', s.issues[i].id.value);
      }
      Assemble(s, s', Some(i));
    }
  }

  lemma LookupKeeps(s: State, i: IssueId)
    requires Inv(s)
    ensures Inv(LookupStep(s, i))
  {
    if At(s, i, Lookup) {
      assert IssueOk(s, i, s.issues[i]);
      assert Registry.EntryOk(s.streams, s.issues[i].req.host);
      Assemble(s, LookupStep(s, i), Some(i));
    }
  }

  lemma SendKeeps(s: State, i: IssueId, ok: bool)
    requires Inv(s)
    ensures Inv(SendStep(s, i, ok))
  {
    if At(s, i, Push) {
      var k, s' := s.issues[i], SendStep(s, i, ok);
      assert IssueOk(s, i, k) && RowOk(s, k.id.value);
      var x := Sending(k.conn.value, RequestOf(k.id.value, k.req), i, ok);
      assert SendOk(s', x);
      forall j | 0 <= j < |s.sends| ensures !SameCommand(s.sends[j], x) {
        assert SendOk(s, s.sends[j]);
      }
      forall a, b | 0 <= a < b < |s'.sends| ensures !SameCommand(s'.sends[a], s'.sends[b]) {
        assert b < |s.sends| ==> !SameCommand(s.sends[a], s.sends[b]);
      }
      Assemble(s, s', Some(i));
    }
  }

  lemma CompleteKeeps(s: State, id: CmdId, result: CommandResult, o: Outcome)
    requires Inv(s)
    ensures Inv(CompleteStep(s, id, result, o))
  {
    Assemble(s, CompleteStep(s, id, result, o), None);
  }

  lemma StepKeeps(s: State, e: Event)
    requires Inv(s)
    ensures Inv(Step(s, e))
  {
    match e
    case Tick(elapsed) => TickKeeps(s, elapsed);
    case OnStream(se) => OnStreamKeeps(s, se);
    case Call(i, req) => CallKeeps(s, i, req);
    case DoLimit(i) => LimitKeeps(s, i);
    case DoBuild(i, id, marshalled) => BuildKeeps(s, i, id, marshalled);
    case DoStore(i, o) => StoreKeeps(s, i, o);
    case DoLookup(i) => LookupKeeps(s, i);
    case DoSend(i, ok) => SendKeeps(s, i, ok);
    case Complete(id, result, o) => CompleteKeeps(s, id, result, o);
  }

  lemma {:induction false} RunKeeps(s: State, events: seq<Event>)
    requires Inv(s)
    ensures Inv(Run(s, events))
    decreases |events|
  {
    if events != [] {
      StepKeeps(s, events[0]);
      RunKeeps(Step(s, events[0]), events[1..]);
    }
  }

  lemma InitOk(start: Time)
    ensures Inv(Init(start))
  {
  }
}
