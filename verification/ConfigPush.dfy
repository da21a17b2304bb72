// Agent configuration: the host_configs table of internal/db/store/configs.go and its delivery by
// internal/configpush/service.go. Table statements, registry lookups and sends of any number of Push
// and SyncOnConnect calls interleave with each other and with Connects.
module ConfigPush {
  import opened Base
  import Registry
  import Streams

  type HostId = string
  type JobId = nat

  const HEARTBEAT_FIELD := "heartbeat_interval_seconds"
  const METRIC_FIELD := "metric_collection_interval_seconds"

  datatype Config = Config(version: nat, heartbeat: int, metric: int, logSources: seq<string>)

  // What Get answers for a host without a row.
  const DEFAULTS := Config(0, 30, 15, [])

  // The column defaults of migration 00004.
  const NEW_ROW := Config(1, 30, 15, [])

  datatype Update = Update(version: nat, heartbeat: int, metric: int, logSources: seq<string>)

  predicate FitsInt32(v: int) {
    -0x8000_0000 <= v < 0x8000_0000
  }

  // Go's conversion to int32, which keeps the low 32 bits.
  function Int32(v: int): (r: int)
    ensures FitsInt32(r) && (FitsInt32(v) ==> r == v)
  {
    (v + 0x8000_0000) % 0x1_0000_0000 - 0x8000_0000
  }

  function MessageOf(c: Config): Update {
    Update(c.version, Int32(c.heartbeat), Int32(c.metric), c.logSources)
  }

  // A SetField whose statement took effect.
  datatype FieldSet = FieldSet(host: HostId, field: string, value: int)

  // A Push, or a SyncOnConnect with the version the agent reported.
  datatype Kind = Push | Sync(agentVersion: int)

  datatype Pc = Find | Read | Transmit | Ended

  // `readAt` is the number of field sets that had taken effect when `cfg` was read.
  datatype Job = Job(
    pc: Pc, kind: Kind, host: HostId, cfg: Option<Config>, readAt: nat, conn: Option<Streams.ConnId>, failed: bool)

  datatype Sending = Sending(job: JobId, conn: Streams.ConnId, update: Update)

  // `sets` and `sends` are history.
  datatype State = State(
    hosts: set<HostId>,
    configs: map<HostId, Config>,
    streams: Registry.State,
    jobs: map<JobId, Job>,
    sets: seq<FieldSet>,
    sends: seq<Sending>)

  const EMPTY := State({}, map[], Registry.EMPTY, map[], [], [])

  datatype Outcome = Done | FailedBefore | FailedAfter

  datatype Event =
    | AddHost(host: HostId)
    | OnStream(e: Registry.Event)
    | SetField(host: HostId, field: string, value: int, outcome: Outcome)
    | Start(job: JobId, kind: Kind, host: HostId)
    | FindStream(job: JobId)
    | ReadConfig(job: JobId, ok: bool)
    | SendUpdate(job: JobId, ok: bool)

  // ---------- the table ----------

  predicate Updatable(field: string) {
    field == HEARTBEAT_FIELD || field == METRIC_FIELD
  }

  // The upsert fails for a value outside the column's type and for an unknown host.
  predicate Accepts(hosts: set<HostId>, host: HostId, field: string, value: int) {
    Updatable(field) && FitsInt32(value) && host in hosts
  }

  function WithField(c: Config, field: string, value: int): Config {
    if field == HEARTBEAT_FIELD then c.(heartbeat := value) else c.(metric := value)
  }

  function Upserted(configs: map<HostId, Config>, h: HostId, field: string, value: int): map<HostId, Config> {
    if h in configs then
      configs[h := WithField(configs[h], field, value).(version := configs[h].version + 1)]
    else
      configs[h := WithField(NEW_ROW, field, value)]
  }

  function Get(configs: map<HostId, Config>, h: HostId): Config {
    if h in configs then configs[h] else DEFAULTS
  }

  // ---------- the reference: the history of field sets ----------

  function SetCount(sets: seq<FieldSet>, h: HostId): nat {
    if sets == [] then 0
    else SetCount(sets[..|sets| - 1], h) + if sets[|sets| - 1].host == h then 1 else 0
  }

  function LastValue(sets: seq<FieldSet>, h: HostId, field: string, initial: int): int {
    if sets == [] then initial
    else
      var last := sets[|sets| - 1];
      if last.host == h && last.field == field then last.value
      else LastValue(sets[..|sets| - 1], h, field, initial)
  }

  function Effective(sets: seq<FieldSet>, h: HostId): Config {
    Config(SetCount(sets, h), LastValue(sets, h, "heartbeat_interval_seconds", 30),
           LastValue(sets, h, "metric_collection_interval_seconds", 15), [])
  }

  lemma OneMoreSet(sets: seq<FieldSet>, x: FieldSet, h: HostId)
    requires Updatable(x.field)
    ensures Effective(sets + [x], h)
         == if x.host != h then Effective(sets, h)
            else WithField(Effective(sets, h), x.field, x.value).(version := SetCount(sets, h) + 1)
  {
    assert (sets + [x])[..|sets + [x]| - 1] == sets;
  }

  // The upsert, seen through Get: whether or not the host has a row, its version rises by one, the set
  // field takes the value and the other field stays; other hosts keep their answer.
  lemma UpsertSeenByGet(configs: map<HostId, Config>, h: HostId, field: string, value: int, g: HostId)
    requires field == "heartbeat_interval_seconds" || field == "metric_collection_interval_seconds"
    ensures
      var was, now := Get(configs, g), Get(Upserted(configs, h, field, value), g);
      if g != h then now == was
      else
        && now.version == was.version + 1 && now.logSources == was.logSources
        && now.heartbeat == (if field == "heartbeat_interval_seconds" then value else was.heartbeat)
        && now.metric == (if field == "metric_collection_interval_seconds" then value else was.metric)
  {
  }

  // ---------- steps ----------

  predicate At(s: State, j: JobId, pc: Pc) {
    j in s.jobs && s.jobs[j].pc == pc
  }

  function Put(s: State, j: JobId, k: Job): State {
    s.(jobs := s.jobs[j := k])
  }

  function SetFieldStep(s: State, h: HostId, field: string, value: int, o: Outcome): State {
    if !Accepts(s.hosts, h, field, value) || o.FailedBefore? then s
    else
      s.(configs := Upserted(s.configs, h, field, value), sets := s.sets + [FieldSet(h, field, value)])
  }

  // Push looks for the stream first, SyncOnConnect reads first.
  function Begun(kind: Kind, h: HostId): Job {
    Job(if kind.Push? then Find else Read, kind, h, None, 0, None, false)
  }

  function StartStep(s: State, j: JobId, kind: Kind, h: HostId): State {
    if j in s.jobs then s
    else Put(s, j, Begun(kind, h))
  }

  function FindStep(s: State, j: JobId): State {
    if !At(s, j, Find) then s
    else
      var k := s.jobs[j];
      if k.host !in s.streams.registry then Put(s, j, k.(pc := Ended))
      else
        Put(s, j, k.(pc := if k.kind.Push? then Read else Transmit, conn := Some(s.streams.registry[k.host])))
  }

  function ReadStep(s: State, j: JobId, ok: bool): State {
    if !At(s, j, Read) then s
    else
      var k := s.jobs[j];
      var c := Get(s.configs, k.host);
      if !ok then Put(s, j, k.(pc := Ended, failed := true))
      else if k.kind.Push? then Put(s, j, k.(pc := Transmit, cfg := Some(c), readAt := |s.sets|))
      else if c.version <= k.kind.agentVersion then Put(s, j, k.(pc := Ended, cfg := Some(c), readAt := |s.sets|))
      else Put(s, j, k.(pc := Find, cfg := Some(c), readAt := |s.sets|))
  }

  function SendStep(s: State, j: JobId, ok: bool): State {
    if !At(s, j, Transmit) || s.jobs[j].cfg.None? || s.jobs[j].conn.None? then s
    else
      var k := s.jobs[j];
      Put(s, j, k.(pc := Ended, failed := !ok)).(
        sends := s.sends + [Sending(j, k.conn.value, MessageOf(k.cfg.value))])
  }

  function Step(s: State, e: Event): State {
    match e
    case AddHost(h) => s.(hosts := s.hosts + {h})
    case OnStream(se) => s.(streams := Registry.Step(s.streams, se))
    case SetField(h, field, value, o) => SetFieldStep(s, h, field, value, o)
    case Start(j, kind, h) => StartStep(s, j, kind, h)
    case FindStream(j) => FindStep(s, j)
    case ReadConfig(j, ok) => ReadStep(s, j, ok)
    case SendUpdate(j, ok) => SendStep(s, j, ok)
  }

  function Run(s: State, events: seq<Event>): State
    decreases |events|
  {
    if events == [] then s else Run(Step(s, events[0]), events[1..])
  }

  // ---------- the invariant ----------

  // The table answers with the fold of the history, and a row exists exactly once it was set.
  ghost predicate TableOk(configs: map<HostId, Config>, sets: seq<FieldSet>, h: HostId) {
    && Get(configs, h) == Effective(sets, h)
    && (h in configs <==> SetCount(sets, h) > 0)
    && FitsInt32(Get(configs, h).heartbeat) && FitsInt32(Get(configs, h).metric)
  }

  // What a job read is the fold of a prefix of the history, and fits its message.
  ghost predicate ReadOk(sets: seq<FieldSet>, k: Job) {
    k.cfg.Some? ==>
      && k.readAt <= |sets|
      && k.cfg.value == Effective(sets[..k.readAt], k.host)
      && MessageOf(k.cfg.value) == Update(k.cfg.value.version, k.cfg.value.heartbeat, k.cfg.value.metric, [])
  }

  ghost predicate JobOk(streams: Registry.State, sets: seq<FieldSet>, k: Job) {
    && ReadOk(sets, k)
    && (k.conn.Some? ==> Registry.Reaches(streams, k.conn.value, k.host))
    && (k.pc == Transmit ==> k.cfg.Some? && k.conn.Some?)
    && (k.kind.Sync? && (k.pc == Find || k.pc == Transmit) ==> k.cfg.Some? && k.cfg.value.version > k.kind.agentVersion)
    && (k.kind.Push? && k.pc == Read ==> k.conn.Some?)
  }

  ghost predicate SendOk(s: State, x: Sending) {
    && At(s, x.job, Ended)
    && var k := s.jobs[x.job];
    && k.cfg.Some? && k.conn == Some(x.conn)
    && x.update == MessageOf(k.cfg.value)
    && (k.kind.Sync? ==> k.cfg.value.version > k.kind.agentVersion)
  }

  ghost predicate SameJob(x: Sending, y: Sending) {
    x.job == y.job
  }

  ghost predicate SentOnce(sends: seq<Sending>) {
    forall i, j {:trigger SameJob(sends[i], sends[j])} :: 0 <= i < j < |sends| ==> !SameJob(sends[i], sends[j])
  }

  ghost predicate Inv(s: State) {
    && Registry.Inv(s.streams)
    && (forall h {:trigger TableOk(s.configs, s.sets, h)} :: TableOk(s.configs, s.sets, h))
    && (forall j {:trigger JobOk(s.streams, s.sets, s.jobs[j])} :: j in s.jobs ==> JobOk(s.streams, s.sets, s.jobs[j]))
    && (forall x {:trigger SendOk(s, x)} :: x in s.sends ==> SendOk(s, x))
    && SentOnce(s.sends)
  }

  // ---------- every step keeps the invariant ----------

  lemma JobKept(a: Registry.State, b: Registry.State, sets: seq<FieldSet>, sets': seq<FieldSet>, k: Job)
    requires JobOk(a, sets, k) && Registry.ConnsGrow(a, b) && sets <= sets'
    ensures JobOk(b, sets', k)
  {
    if k.cfg.Some? {
      assert sets'[..k.readAt] == sets[..k.readAt];
    }
  }

  // A step of the table or of the streams leaves jobs and sends alone.
  lemma KeepsJobs(s: State, s': State)
    requires Inv(s) && s'.jobs == s.jobs && s'.sends == s.sends
    requires Registry.Inv(s'.streams) && Registry.ConnsGrow(s.streams, s'.streams) && s.sets <= s'.sets
    requires forall h {:trigger TableOk(s'.configs, s'.sets, h)} :: TableOk(s'.configs, s'.sets, h)
    ensures Inv(s')
  {
    forall j | j in s'.jobs ensures JobOk(s'.streams, s'.sets, s'.jobs[j]) {
      JobKept(s.streams, s'.streams, s.sets, s'.sets, s.jobs[j]);
    }
    forall x | x in s'.sends ensures SendOk(s', x) {
      assert SendOk(s, x);
    }
  }

  // A step of one job that sends nothing; sends belong to ended jobs.
  lemma JobMoves(s: State, j: JobId, k: Job)
    requires Inv(s) && (j in s.jobs ==> s.jobs[j].pc != Ended) && JobOk(s.streams, s.sets, k)
    ensures Inv(Put(s, j, k))
  {
    var s' := Put(s, j, k);
    forall i | i in s'.jobs ensures JobOk(s'.streams, s'.sets, s'.jobs[i]) {
      assert i != j ==> JobOk(s.streams, s.sets, s.jobs[i]);
    }
    forall x | x in s'.sends ensures SendOk(s', x) {
      assert SendOk(s, x);
    }
  }

  lemma AddHostKeeps(s: State, h: HostId)
    requires Inv(s)
    ensures Inv(s.(hosts := s.hosts + {h}))
  {
    KeepsJobs(s, s.(hosts := s.hosts + {h}));
  }

  lemma OnStreamKeeps(s: State, e: Registry.Event)
    requires Inv(s)
    ensures Inv(s.(streams := Registry.Step(s.streams, e)))
  {
    Registry.StepKeeps(s.streams, e);
    Registry.ConnsOnlyGrow(s.streams, e);
    KeepsJobs(s, s.(streams := Registry.Step(s.streams, e)));
  }

  lemma UpsertKeepsTable(configs: map<HostId, Config>, sets: seq<FieldSet>, h: HostId,
                         field: string, value: int, g: HostId)
    requires TableOk(configs, sets, g) && Updatable(field) && FitsInt32(value)
    ensures TableOk(Upserted(configs, h, field, value), sets + [FieldSet(h, field, value)], g)
  {
    OneMoreSet(sets, FieldSet(h, field, value), g);
  }

  lemma SetFieldKeeps(s: State, h: HostId, field: string, value: int, o: Outcome)
    requires Inv(s)
    ensures Inv(SetFieldStep(s, h, field, value, o))
  {
    var s' := SetFieldStep(s, h, field, value, o);
    if s' != s {
      forall g ensures TableOk(s'.configs, s'.sets, g) {
        UpsertKeepsTable(s.configs, s.sets, h, field, value, g);
      }
      KeepsJobs(s, s');
    }
  }

  lemma StartKeeps(s: State, j: JobId, kind: Kind, h: HostId)
    requires Inv(s)
    ensures Inv(StartStep(s, j, kind, h))
  {
    if j !in s.jobs {
      JobMoves(s, j, StartStep(s, j, kind, h).jobs[j]);
    }
  }

  lemma FindKeeps(s: State, j: JobId)
    requires Inv(s)
    ensures Inv(FindStep(s, j))
  {
    if At(s, j, Find) {
      assert JobOk(s.streams, s.sets, s.jobs[j]);
      assert Registry.EntryOk(s.streams, s.jobs[j].host);
      JobMoves(s, j, FindStep(s, j).jobs[j]);
    }
  }

  lemma ReadKeeps(s: State, j: JobId, ok: bool)
    requires Inv(s)
    ensures Inv(ReadStep(s, j, ok))
  {
    if At(s, j, Read) {
      assert JobOk(s.streams, s.sets, s.jobs[j]);
      assert TableOk(s.configs, s.sets, s.jobs[j].host);
      assert s.sets[..|s.sets|] == s.sets;
      JobMoves(s, j, ReadStep(s, j, ok).jobs[j]);
    }
  }

  lemma SendKeeps(s: State, j: JobId, ok: bool)
    requires Inv(s)
    ensures Inv(SendStep(s, j, ok))
  {
    if At(s, j, Transmit) {
      var k, s' := s.jobs[j], SendStep(s, j, ok);
      assert JobOk(s.streams, s.sets, k);
      JobMoves(s, j, s'.jobs[j]);
      var x := Sending(j, k.conn.value, MessageOf(k.cfg.value));
      forall y | y in s'.sends ensures SendOk(s', y) {
        assert y in s.sends ==> SendOk(s, y);
      }
      forall a, b | 0 <= a < b < |s'.sends| ensures !SameJob(s'.sends[a], s'.sends[b]) {
        if b < |s.sends| {
          assert !SameJob(s.sends[a], s.sends[b]);
        } else {
          assert SendOk(s, s.sends[a]);
        }
      }
      forall i | i in s'.jobs ensures JobOk(s'.streams, s'.sets, s'.jobs[i]) {
        assert JobOk(s.streams, s.sets, Put(s, j, s'.jobs[j]).jobs[i]);
      }
    }
  }

  lemma StepKeeps(s: State, e: Event)
    requires Inv(s)
    ensures Inv(Step(s, e))
  {
    match e
    case AddHost(h) => AddHostKeeps(s, h);
    case OnStream(se) => OnStreamKeeps(s, se);
    case SetField(h, field, value, o) => SetFieldKeeps(s, h, field, value, o);
    case Start(j, kind, h) => StartKeeps(s, j, kind, h);
    case FindStream(j) => FindKeeps(s, j);
    case ReadConfig(j, ok) => ReadKeeps(s, j, ok);
    case SendUpdate(j, ok) => SendKeeps(s, j, ok);
  }

  lemma {:induction false} RunKeeps(s: State, events: seq<Event>)
    requires Inv(s)
    ensures Inv(Run(s, events))
    decreases |events|
  {
    if events != [] {
      StepKeeps(s, events[0]);
      RunKeeps(Step(s, events[0]), events[1..]);
    }
  }
}
