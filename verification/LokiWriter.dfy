// The grouping of a log batch into Loki streams: Write and severityLabel of
// internal/storage/loki/writer.go, up to the push request it posts.
module LokiWriter {
  import opened Base

  datatype Severity = Unspecified | Trace | Debug | Info | Warning | Error | Critical | Unrecognized(code: int)

  // `at` is the entry's timestamp in nanoseconds since 1970, if it has one.
  datatype Entry = Entry(source: string, severity: Severity, at: Option<Time>, message: string)

  datatype Labels = Labels(hostId: string, source: string, severity: string)

  // A timestamp in decimal and a line.
  datatype Value = Value(stamp: string, line: string)

  datatype LokiStream = LokiStream(labels: Labels, values: seq<Value>)

  function SeverityLabel(s: Severity): string {
    match s
    case Critical => "critical"
    case Error => "error"
    case Warning => "warning"
    case Info => "info"
    case Debug => "debug"
    case Trace => "trace"
    case _ => "unknown"
  }

  predicate Named(s: Severity) {
    !s.Unspecified? && !s.Unrecognized?
  }

  // The label tells named severities apart, from each other and from all the others.
  lemma LabelsTellSeveritiesApart(a: Severity, b: Severity)
    ensures SeverityLabel(a) == SeverityLabel(b) <==> a == b || (!Named(a) && !Named(b))
  {
  }

  // ---------- timestamps ----------

  // UnixNano keeps the low 64 bits.
  function Int64(v: int): (r: int)
    ensures -0x8000_0000_0000_0000 <= r < 0x8000_0000_0000_0000
    ensures -0x8000_0000_0000_0000 <= v < 0x8000_0000_0000_0000 ==> r == v
  {
    (v + 0x8000_0000_0000_0000) % 0x1_0000_0000_0000_0000 - 0x8000_0000_0000_0000
  }

  predicate IsDigit(c: char) {
    '0' <= c <= '9'
  }

  function Digits(n: nat): (s: string)
    ensures s != "" && forall i :: 0 <= i < |s| ==> IsDigit(s[i])
  {
    var last := ('0' as int + n % 10) as char;
    if n < 10 then [last] else Digits(n / 10) + [last]
  }

  // FormatInt in base 10.
  function FormatInt(n: int): string {
    if n < 0 then "-" + Digits(-n) else Digits(n)
  }

  function ParseDigits(s: string): int {
    if s == "" then 0 else 10 * ParseDigits(s[..|s| - 1]) + (s[|s| - 1] as int - '0' as int)
  }

  function ParseInt(s: string): int {
    if s != "" && s[0] == '-' then -ParseDigits(s[1..]) else ParseDigits(s)
  }

  lemma {:induction false} ParseDigitsOfDigits(n: nat)
    ensures ParseDigits(Digits(n)) == n
  {
    if n >= 10 {
      ParseDigitsOfDigits(n / 10);
      assert Digits(n)[..|Digits(n)| - 1] == Digits(n / 10);
    } else {
      assert Digits(n)[..0] == "";
    }
  }

  // The timestamp string determines the nanoseconds it was made from.
  lemma FormatRoundTrip(n: int)
    ensures ParseInt(FormatInt(n)) == n
  {
    if n < 0 {
      ParseDigitsOfDigits(-n);
      assert FormatInt(n)[1..] == Digits(-n);
    } else {
      ParseDigitsOfDigits(n);
      assert IsDigit(Digits(n)[0]);
    }
  }

  // ---------- the specification of the grouping ----------

  function SourceOf(e: Entry): (r: string)
    ensures r != "" && (e.source != "" ==> r == e.source) && (e.source == "" ==> r == "unknown")
  {
    if e.source == "" then "unknown" else e.source
  }

  // The entries of one source, in batch order.
  function Select(entries: seq<Entry>, source: string): seq<Entry> {
    if entries == [] then []
    else
      var last := entries[|entries| - 1];
      if SourceOf(last) == source then Select(entries[..|entries| - 1], source) + [last]
      else Select(entries[..|entries| - 1], source)
  }

  // A value carries its entry's line and time; an entry without a time gets a reading of the clock.
  ghost predicate Carries(v: Value, e: Entry, clock: nat -> Time) {
    && v.line == e.message
    && if e.at.Some? then v.stamp == FormatInt(Int64(e.at.value)) else exists k :: v.stamp == FormatInt(Int64(clock(k)))
  }

  ghost predicate CarriesAll(values: seq<Value>, entries: seq<Entry>, clock: nat -> Time) {
    |values| == |entries| && forall i :: 0 <= i < |values| ==> Carries(values[i], entries[i], clock)
  }

  ghost predicate StreamOf(s: LokiStream, hostId: string, entries: seq<Entry>, clock: nat -> Time) {
    var mine := Select(entries, s.labels.source);
    && mine != []
    && s.labels.hostId == hostId && s.labels.severity == SeverityLabel(mine[0].severity)
    && CarriesAll(s.values, mine, clock)
  }

  ghost predicate AllStreamsOf(streams: seq<LokiStream>, hostId: string, entries: seq<Entry>, clock: nat -> Time) {
    forall i {:trigger StreamOf(streams[i], hostId, entries, clock)} :: 0 <= i < |streams| ==>
      StreamOf(streams[i], hostId, entries, clock)
  }

  ghost predicate SameSource(a: LokiStream, b: LokiStream) {
    a.labels.source == b.labels.source
  }

  ghost predicate DistinctSources(streams: seq<LokiStream>) {
    forall i, j {:trigger SameSource(streams[i], streams[j])} :: 0 <= i < j < |streams| ==>
      !SameSource(streams[i], streams[j])
  }

  function Sources(streams: seq<LokiStream>): set<string> {
    set i | 0 <= i < |streams| :: streams[i].labels.source
  }

  // One stream per source that occurs, each with that source's entries in order.
  ghost predicate Grouped(streams: seq<LokiStream>, hostId: string, entries: seq<Entry>, clock: nat -> Time) {
    && DistinctSources(streams)
    && AllStreamsOf(streams, hostId, entries, clock)
    && forall k :: 0 <= k < |entries| ==> SourceOf(entries[k]) in Sources(streams)
  }

  // What the grouping loop has collected for one source after a prefix of the batch.
  ghost predicate GroupIs(bySource: map<string, seq<Entry>>, seen: seq<Entry>, source: string) {
    if source in bySource then bySource[source] == Select(seen, source) && bySource[source] != []
    else Select(seen, source) == []
  }

  lemma CarriesOneMore(values: seq<Value>, entries: seq<Entry>, clock: nat -> Time, i: nat, v: Value)
    requires i < |entries| && CarriesAll(values, entries[..i], clock) && Carries(v, entries[i], clock)
    ensures CarriesAll(values + [v], entries[..i + 1], clock)
  {
    forall j | 0 <= j < |values| ensures Carries((values + [v])[j], entries[..i + 1][j], clock) {
      assert Carries(values[j], entries[..i][j], clock);
    }
  }

  lemma GroupOneMore(bySource: map<string, seq<Entry>>, bySource': map<string, seq<Entry>>,
                     entries: seq<Entry>, i: nat, source: string)
    requires i < |entries| && GroupIs(bySource, entries[..i], source)
    requires
      var src := SourceOf(entries[i]);
      bySource' == bySource[src := (if src in bySource then bySource[src] else []) + [entries[i]]]
    ensures GroupIs(bySource', entries[..i + 1], source)
  {
    SelectOneMore(entries, i, source);
  }

  lemma SelectOneMore(entries: seq<Entry>, i: nat, source: string)
    requires i < |entries|
    ensures Select(entries[..i + 1], source)
         == if SourceOf(entries[i]) == source then Select(entries[..i], source) + [entries[i]]
            else Select(entries[..i], source)
  {
    assert entries[..i + 1][..i] == entries[..i];
  }

  // `Select` is the in-order subsequence: exactly the positions of the batch with that source, increasing.
  lemma {:induction false} SelectIsSubsequence(entries: seq<Entry>, source: string) returns (at: seq<nat>)
    ensures |at| == |Select(entries, source)|
    ensures forall i :: 0 <= i < |at| ==> at[i] < |entries| && entries[at[i]] == Select(entries, source)[i]
    ensures forall i, j :: 0 <= i < j < |at| ==> at[i] < at[j]
    ensures forall k :: 0 <= k < |entries| ==> (SourceOf(entries[k]) == source <==> k in at)
  {
    if entries == [] {
      at := [];
    } else {
      var n := |entries| - 1;
      at := SelectIsSubsequence(entries[..n], source);
      if SourceOf(entries[n]) == source {
        at := at + [n];
      }
    }
  }

  // ---------- what is posted, spelled out ----------

  // An entry with a source goes under that source, one without under "unknown".
  predicate Belongs(e: Entry, tag: string) {
    (e.source != "" && e.source == tag) || (e.source == "" && tag == "unknown")
  }

  // The entries that belong under a label, in batch order.
  function Under(entries: seq<Entry>, tag: string): seq<Entry> {
    if entries == [] then []
    else
      var before, last := Under(entries[..|entries| - 1], tag), entries[|entries| - 1];
      if Belongs(last, tag) then before + [last] else before
  }

  function Messages(entries: seq<Entry>): (r: seq<string>)
    ensures |r| == |entries|
  {
    if entries == [] then [] else Messages(entries[..|entries| - 1]) + [entries[|entries| - 1].message]
  }

  function LinesOf(values: seq<Value>): (r: seq<string>)
    ensures |r| == |values|
  {
    if values == [] then [] else LinesOf(values[..|values| - 1]) + [values[|values| - 1].line]
  }

  function LabelsOf(entries: seq<Entry>): set<string> {
    (set e | e in entries && e.source != "" :: e.source)
    + (if exists e :: e in entries && e.source == "" then {"unknown"} else {})
  }

  // The severity label of a stream whose first entry has severity s.
  predicate SeverityNamed(tag: string, s: Severity) {
    && (s.Critical? ==> tag == "critical") && (s.Error? ==> tag == "error")
    && (s.Warning? ==> tag == "warning") && (s.Info? ==> tag == "info")
    && (s.Debug? ==> tag == "debug") && (s.Trace? ==> tag == "trace")
    && (s.Unspecified? || s.Unrecognized? ==> tag == "unknown")
  }

  // A time that 64 bits hold can be read off the stamp.
  predicate ShowsTime(v: Value, e: Entry) {
    e.at.Some? && -0x8000_0000_0000_0000 <= e.at.value < 0x8000_0000_0000_0000 ==> ParseInt(v.stamp) == e.at.value
  }

  // A stream holds exactly the entries that belong under its label: their messages in order with their
  // times, under the agent's host and the severity of the first.
  ghost predicate Holds(s: LokiStream, hostId: string, entries: seq<Entry>) {
    var mine := Under(entries, s.labels.source);
    && mine != [] && LinesOf(s.values) == Messages(mine)
    && (forall i :: 0 <= i < |mine| ==> ShowsTime(s.values[i], mine[i]))
    && s.labels.hostId == hostId && SeverityNamed(s.labels.severity, mine[0].severity)
  }

  ghost predicate Posted(streams: seq<LokiStream>, hostId: string, entries: seq<Entry>) {
    && (forall i, j :: 0 <= i < j < |streams| ==> streams[i].labels.source != streams[j].labels.source)
    && (set i | 0 <= i < |streams| :: streams[i].labels.source) == LabelsOf(entries)
    && forall i :: 0 <= i < |streams| ==> Holds(streams[i], hostId, entries)
  }

  lemma {:induction false} SelectIsUnder(entries: seq<Entry>, tag: string)
    ensures Select(entries, tag) == Under(entries, tag)
  {
    if entries != [] {
      SelectIsUnder(entries[..|entries| - 1], tag);
    }
  }

  lemma {:induction false} LinesAreMessages(values: seq<Value>, entries: seq<Entry>, clock: nat -> Time)
    requires CarriesAll(values, entries, clock)
    ensures LinesOf(values) == Messages(entries)
    ensures forall i :: 0 <= i < |entries| ==> ShowsTime(values[i], entries[i])
  {
    forall i | 0 <= i < |entries| ensures ShowsTime(values[i], entries[i]) {
      assert Carries(values[i], entries[i], clock);
      if entries[i].at.Some? {
        FormatRoundTrip(Int64(entries[i].at.value));
      }
    }
    if values != [] {
      var n := |values| - 1;
      assert Carries(values[n], entries[n], clock);
      forall i | 0 <= i < n ensures Carries(values[..n][i], entries[..n][i], clock) {
        assert Carries(values[i], entries[i], clock);
      }
      LinesAreMessages(values[..n], entries[..n], clock);
    }
  }

  // A label is in use exactly if some entry belongs under it.
  lemma {:induction false} UsedLabels(entries: seq<Entry>, tag: string)
    ensures Under(entries, tag) != [] <==> tag in LabelsOf(entries)
  {
    if entries != [] {
      var n := |entries| - 1;
      UsedLabels(entries[..n], tag);
      assert entries == entries[..n] + [entries[n]];
      assert forall e :: e in entries <==> e in entries[..n] || e == entries[n];
    }
  }

  lemma EachLabelUsed(entries: seq<Entry>, tag: string)
    requires tag in LabelsOf(entries)
    ensures exists k :: 0 <= k < |entries| && SourceOf(entries[k]) == tag
  {
    if tag != "unknown" || exists e :: e in entries && e.source == tag {
      var e :| e in entries && e.source == tag;
      var k :| 0 <= k < |entries| && entries[k] == e;
      assert SourceOf(entries[k]) == tag;
    } else {
      var e :| e in entries && e.source == "";
      var k :| 0 <= k < |entries| && entries[k] == e;
      assert SourceOf(entries[k]) == tag;
    }
  }

  // Main result: any grouping posts, for each source of the batch and for nothing else, one stream with
  // exactly that source's messages in order, those without a source under "unknown".
  lemma GroupedIsPosted(streams: seq<LokiStream>, hostId: string, entries: seq<Entry>, clock: nat -> Time)
    requires Grouped(streams, hostId, entries, clock)
    ensures Posted(streams, hostId, entries)
  {
    forall i, j | 0 <= i < j < |streams| ensures streams[i].labels.source != streams[j].labels.source {
      assert !SameSource(streams[i], streams[j]);
    }
    forall i | 0 <= i < |streams|
      ensures Holds(streams[i], hostId, entries) && streams[i].labels.source in LabelsOf(entries) {
      assert StreamOf(streams[i], hostId, entries, clock);
      SelectIsUnder(entries, streams[i].labels.source);
      UsedLabels(entries, streams[i].labels.source);
      LinesAreMessages(streams[i].values, Select(entries, streams[i].labels.source), clock);
    }
    forall tag | tag in LabelsOf(entries) ensures tag in Sources(streams) {
      EachLabelUsed(entries, tag);
    }
    assert (set i | 0 <= i < |streams| :: streams[i].labels.source) == Sources(streams) == LabelsOf(entries);
  }

  // ---------- the writer ----------

  method BuildValue(e: Entry, clock: nat -> Time, reading: nat) returns (v: Value, next: nat)
    ensures Carries(v, e, clock)
  {
    var nanos;
    next := reading;
    if e.at.Some? {
      nanos := Int64(e.at.value);
    } else {
      nanos := Int64(clock(next));
      next := next + 1;
    }
    v := Value(FormatInt(nanos), e.message);
  }

  method BuildValues(entries: seq<Entry>, clock: nat -> Time, reading: nat) returns (values: seq<Value>, next: nat)
    ensures CarriesAll(values, entries, clock)
  {
    values, next := [], reading;
    for i := 0 to |entries|
      invariant CarriesAll(values, entries[..i], clock)
    {
      var v;
      v, next := BuildValue(entries[i], clock, next);
      CarriesOneMore(values, entries, clock, i, v);
      values := values + [v];
    }
    assert entries[..|entries|] == entries;
  }

  method GroupBySource(entries: seq<Entry>) returns (bySource: map<string, seq<Entry>>)
    ensures forall src :: GroupIs(bySource, entries, src)
    ensures bySource.Keys == LabelsOf(entries)
    ensures forall src :: src in bySource ==> bySource[src] == Under(entries, src)
  {
    bySource := map[];
    for i := 0 to |entries|
      invariant forall src :: GroupIs(bySource, entries[..i], src)
    {
      var e := entries[i];
      var source := e.source;
      if source == "" {
        source := "unknown";
      }
      ghost var before := bySource;
      var group := if source in bySource then bySource[source] else [];
      bySource := bySource[source := group + [e]];
      ghost var seen := entries[..i + 1];
      forall src ensures GroupIs(bySource, seen, src) {
        GroupOneMore(before, bySource, entries, i, src);
      }
    }
    assert entries[..|entries|] == entries;
    forall src ensures src in bySource <==> src in LabelsOf(entries)
               ensures src in bySource ==> bySource[src] == Under(entries, src) {
      assert GroupIs(bySource, entries, src);
      SelectIsUnder(entries, src);
      UsedLabels(entries, src);
    }
  }

  // Streams built for the sources in `done`.
  ghost predicate Built(streams: seq<LokiStream>, done: set<string>, hostId: string,
                        entries: seq<Entry>, clock: nat -> Time) {
    && DistinctSources(streams)
    && AllStreamsOf(streams, hostId, entries, clock)
    && Sources(streams) == done
  }

  lemma SourcesOneMore(streams: seq<LokiStream>, s: LokiStream)
    ensures Sources(streams + [s]) == Sources(streams) + {s.labels.source}
  {
    var all := streams + [s];
    forall src | src in Sources(streams) ensures src in Sources(all) {
      var i :| 0 <= i < |streams| && streams[i].labels.source == src;
      assert all[i].labels.source == src;
    }
    assert all[|streams|].labels.source == s.labels.source;
  }

  lemma BuiltOneMore(streams: seq<LokiStream>, done: set<string>, s: LokiStream,
                     hostId: string, entries: seq<Entry>, clock: nat -> Time)
    requires Built(streams, done, hostId, entries, clock)
             && StreamOf(s, hostId, entries, clock) && s.labels.source !in done
    ensures Built(streams + [s], done + {s.labels.source}, hostId, entries, clock)
  {
    var all := streams + [s];
    SourcesOneMore(streams, s);
    forall i | 0 <= i < |streams| ensures all[i] == streams[i] && streams[i].labels.source != s.labels.source {
      assert streams[i].labels.source in Sources(streams);
    }
    forall i, j | 0 <= i < j < |all| ensures !SameSource(all[i], all[j]) {
      assert j < |streams| ==> !SameSource(streams[i], streams[j]);
    }
    forall i | 0 <= i < |all| ensures StreamOf(all[i], hostId, entries, clock) {
      assert i < |streams| ==> StreamOf(streams[i], hostId, entries, clock);
    }
  }

  // Main result: an empty batch posts nothing; any other is grouped, whatever order the map is
  // traversed in.
  method Write(hostId: string, entries: seq<Entry>, clock: nat -> Time) returns (push: Option<seq<LokiStream>>)
    ensures push.None? <==> entries == []
    ensures push.Some? ==> Grouped(push.value, hostId, entries, clock) && Posted(push.value, hostId, entries)
  {
    if |entries| == 0 {
      return None;
    }
    var bySource := GroupBySource(entries);
    var streams, reading := [], 0;
    var remaining := bySource.Keys;
    while remaining != {}
      invariant remaining <= bySource.Keys
      invariant Built(streams, bySource.Keys - remaining, hostId, entries, clock)
      decreases |remaining|
    {
      var source :| source in remaining;
      var group := bySource[source];
      assert GroupIs(bySource, entries, source);
      var values;
      values, reading := BuildValues(group, clock, reading);
      var s := LokiStream(Labels(hostId, source, SeverityLabel(group[0].severity)), values);
      BuiltOneMore(streams, bySource.Keys - remaining, s, hostId, entries, clock);
      streams := streams + [s];
      assert bySource.Keys - remaining + {source} == bySource.Keys - (remaining - {source});
      remaining := remaining - {source};
    }
    forall k | 0 <= k < |entries| ensures SourceOf(entries[k]) in Sources(streams) {
      assert GroupIs(bySource, entries, SourceOf(entries[k]));
      SelectedSomewhere(entries, k);
    }
    GroupedIsPosted(streams, hostId, entries, clock);
    push := Some(streams);
  }

  lemma SelectedSomewhere(entries: seq<Entry>, k: nat)
    requires k < |entries|
    ensures Select(entries, SourceOf(entries[k])) != []
  {
    var at := SelectIsSubsequence(entries, SourceOf(entries[k]));
    assert k in at;
  }

  // ---------- every entry lands in exactly one stream ----------

  function Placed(streams: seq<LokiStream>, entries: seq<Entry>): seq<Entry> {
    if streams == [] then []
    else Placed(streams[..|streams| - 1], entries) + Select(entries, streams[|streams| - 1].labels.source)
  }

  function ValueCount(streams: seq<LokiStream>): nat {
    if streams == [] then 0 else ValueCount(streams[..|streams| - 1]) + |streams[|streams| - 1].values|
  }

  // The entries whose source is in `sources`.
  function Within(entries: seq<Entry>, sources: set<string>): seq<Entry> {
    if entries == [] then []
    else
      var last := entries[|entries| - 1];
      if SourceOf(last) in sources then Within(entries[..|entries| - 1], sources) + [last]
      else Within(entries[..|entries| - 1], sources)
  }

  lemma {:induction false} OneMoreSource(entries: seq<Entry>, sources: set<string>, source: string)
    requires source !in sources
    ensures multiset(Within(entries, sources + {source}))
         == multiset(Within(entries, sources)) + multiset(Select(entries, source))
  {
    if entries != [] {
      OneMoreSource(entries[..|entries| - 1], sources, source);
    }
  }

  lemma {:induction false} AllSources(entries: seq<Entry>, sources: set<string>)
    requires forall k :: 0 <= k < |entries| ==> SourceOf(entries[k]) in sources
    ensures Within(entries, sources) == entries
  {
    if entries != [] {
      AllSources(entries[..|entries| - 1], sources);
    }
  }

  lemma {:induction false} NoSources(entries: seq<Entry>)
    ensures Within(entries, {}) == []
  {
    if entries != [] {
      NoSources(entries[..|entries| - 1]);
    }
  }

  lemma {:induction false} PlacedIsWithin(streams: seq<LokiStream>, entries: seq<Entry>)
    requires DistinctSources(streams)
    ensures multiset(Placed(streams, entries)) == multiset(Within(entries, Sources(streams)))
  {
    if streams == [] {
      assert Sources(streams) == {};
      NoSources(entries);
    } else {
      var n := |streams| - 1;
      var before, last := streams[..n], streams[n];
      forall i, j | 0 <= i < j < n ensures !SameSource(before[i], before[j]) {
        assert !SameSource(streams[i], streams[j]);
      }
      PlacedIsWithin(before, entries);
      assert last.labels.source !in Sources(before) by {
        forall i | 0 <= i < n ensures before[i].labels.source != last.labels.source {
          assert !SameSource(streams[i], streams[n]);
        }
      }
      assert streams == before + [last];
      SourcesOneMore(before, last);
      OneMoreSource(entries, Sources(before), last.labels.source);
    }
  }

  lemma {:induction false} CountsMatch(streams: seq<LokiStream>, hostId: string, entries: seq<Entry>,
                                            clock: nat -> Time)
    requires AllStreamsOf(streams, hostId, entries, clock)
    ensures ValueCount(streams) == |Placed(streams, entries)|
  {
    if streams != [] {
      var n := |streams| - 1;
      assert StreamOf(streams[n], hostId, entries, clock);
      forall i | 0 <= i < n ensures StreamOf(streams[..n][i], hostId, entries, clock) {
        assert StreamOf(streams[i], hostId, entries, clock);
      }
      CountsMatch(streams[..n], hostId, entries, clock);
    }
  }

  // Main result: any grouping of a batch places every entry exactly once, and holds as many values as
  // the batch has entries; no stream is empty and no source is.
  lemma {:induction false} EveryEntryOnce(streams: seq<LokiStream>, hostId: string, entries: seq<Entry>,
                                               clock: nat -> Time)
    requires Grouped(streams, hostId, entries, clock)
    ensures multiset(Placed(streams, entries)) == multiset(entries)
    ensures ValueCount(streams) == |entries|
    ensures forall i :: 0 <= i < |streams| ==> streams[i].values != [] && streams[i].labels.source != ""
  {
    PlacedIsWithin(streams, entries);
    AllSources(entries, Sources(streams));
    CountsMatch(streams, hostId, entries, clock);
    assert |multiset(Placed(streams, entries))| == |Placed(streams, entries)|;
    forall i | 0 <= i < |streams| ensures streams[i].values != [] && streams[i].labels.source != "" {
      assert StreamOf(streams[i], hostId, entries, clock);
      var at := SelectIsSubsequence(entries, streams[i].labels.source);
      assert at[0] in at;
    }
  }
}
