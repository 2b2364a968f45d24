/** `SynoMetricBuilder`: turns the snapshots a device's pollers left in their dump
    files into gauge families, one device at a time. */
module MetricBuilder {
  import opened Snapshot
  import opened DumpStore

  /** The five gauge families `build` yields, listed in the order it yields them. */
  datatype Family = InfoFamily | StatsFamily | VolumeFamily | DiskFamily | ShareFamily

  function Rank(f: Family): nat {
    match f
    case InfoFamily => 0
    case StatsFamily => 1
    case VolumeFamily => 2
    case DiskFamily => 3
    case ShareFamily => 4
  }

  /** The category whose dump file holds a family's data. */
  function SourceOf(f: Family): Category {
    match f
    case InfoFamily => Info
    case StatsFamily => Stat
    case VolumeFamily => Storage
    case DiskFamily => Storage
    case ShareFamily => Share
  }

  /** The snapshot key under which a family's data is stored. */
  function SectionKey(f: Family): string {
    match f
    case InfoFamily => "info"
    case StatsFamily => "stats"
    case VolumeFamily => "volumes"
    case DiskFamily => "disks"
    case ShareFamily => "shares"
  }

  function Prefix(f: Family): string {
    match f
    case InfoFamily => "synology_info_"
    case StatsFamily => "synology_stats_"
    case VolumeFamily => "synology_volume_"
    case DiskFamily => "synology_disk_"
    case ShareFamily => "synology_share_"
  }

  function Help(f: Family): string {
    match f
    case InfoFamily => "Synology Info Metrics"
    case StatsFamily => "Synology Stats Metrics"
    case VolumeFamily => "Synology Volume Metrics"
    case DiskFamily => "Synology Disk Metrics"
    case ShareFamily => "Synology Share Metrics"
  }

  function LabelNames(f: Family): seq<string> {
    match f
    case InfoFamily => ["dsm"]
    case StatsFamily => ["dsm"]
    case VolumeFamily => ["dsm", "id"]
    case DiskFamily => ["dsm", "id", "name"]
    case ShareFamily => ["dsm", "uuid", "name", "path"]
  }

  /** The keys of a list record that label its samples, after the device name. */
  function IdKeys(f: Family): seq<string> {
    match f
    case InfoFamily => []
    case StatsFamily => []
    case VolumeFamily => ["id"]
    case DiskFamily => ["id", "name"]
    case ShareFamily => ["uuid", "name", "path"]
  }

  predicate IsListFamily(f: Family) {
    f.VolumeFamily? || f.DiskFamily? || f.ShareFamily?
  }

  /** One `add_metric(labels, value)` call. */
  datatype Sample = Sample(labels: seq<Value>, value: Value)

  /** A `GaugeMetricFamily`. */
  datatype Gauge = Gauge(name: string, documentation: string, labelNames: seq<string>, samples: seq<Sample>)

  /** The family a gauge belongs to, told apart by its help text. */
  function FamilyOf(g: Gauge): Option<Family> {
    if g.documentation == Help(InfoFamily) then Some(InfoFamily)
    else if g.documentation == Help(StatsFamily) then Some(StatsFamily)
    else if g.documentation == Help(VolumeFamily) then Some(VolumeFamily)
    else if g.documentation == Help(DiskFamily) then Some(DiskFamily)
    else if g.documentation == Help(ShareFamily) then Some(ShareFamily)
    else None
  }

  /** Each family has its own help text. */
  lemma FamilyOfHelp(g: Gauge, f: Family)
    requires g.documentation == Help(f)
    ensures FamilyOf(g) == Some(f)
  {
  }

  /** A `SynoMetricBuilder`: the device name, the enabled flag of each category and
      the dump file of each category that has a poller. */
  datatype Builder = Builder(name: string, metricStatus: map<Category, bool>, dumpFiles: map<Category, Path>)

  /** `metric_status` has an entry for every category, as the bootstrap builds it. */
  predicate Wired(b: Builder) {
    Info in b.metricStatus && Stat in b.metricStatus && Storage in b.metricStatus && Share in b.metricStatus
  }

  /** `read_data_from_file(self._dump_files[c])`. */
  function ReadDump(b: Builder, files: Files, c: Category): (r: Result<Record>)
    ensures c !in b.dumpFiles ==> r == Err(KeyError(CategoryName(c)))
    ensures c in b.dumpFiles && b.dumpFiles[c] !in files ==> r == Err(FileNotFound(b.dumpFiles[c]))
    ensures r.Ok? ==> c in b.dumpFiles && b.dumpFiles[c] in files
  {
    if c !in b.dumpFiles then Err(KeyError(CategoryName(c)))
    else ReadData(files, b.dumpFiles[c])
  }

  /** `get_collect_status(c)`: the stored `collect_status`, 0 when absent, as a bool. */
  function GetCollectStatus(b: Builder, files: Files, c: Category): (r: Result<bool>)
    ensures ReadDump(b, files, c).Err? ==> r == Err(ReadDump(b, files, c).error)
    ensures ReadDump(b, files, c).Ok? ==>
      r == Ok(HasKey(ReadDump(b, files, c).value, "collect_status") &&
              Truthy(Get(ReadDump(b, files, c).value, "collect_status").value))
  {
    match ReadDump(b, files, c)
    case Err(e) => Err(e)
    case Ok(data) =>
      match Get(data, "collect_status")
      case None => Ok(false)
      case Some(v) => Ok(Truthy(v))
  }

  /** Position `p` of a dict holds a number. */
  predicate NumericAt(fields: Record, p: int) {
    0 <= p < |fields| && IsNumeric(fields[p].value)
  }

  /** `ps` lists, in rising order, exactly the positions of a dict's numbers. */
  ghost predicate ArePositions(fields: Record, ps: seq<int>) {
    && (forall i :: 0 <= i < |ps| ==> 0 <= ps[i] < |fields| && IsNumeric(fields[ps[i]].value))
    && (forall i, j :: 0 <= i < j < |ps| ==> ps[i] < ps[j])
    && (forall p :: NumericAt(fields, p) ==> p in ps)
  }

  /** Where the numbers are in a dict: the positions the
      `if not isinstance(value, (int, float)): continue` filter lets through.
      They rise strictly, so the filter keeps the dict's order, and they are
      exactly the positions of numeric values. */
  function NumericPositions(fields: Record): (ps: seq<int>)
    ensures ArePositions(fields, ps)
  {
    if fields == [] then []
    else
      var rest := NumericPositions(fields[1..]);
      if IsNumeric(fields[0].value) then
        PositionsKeep(fields, rest);
        [0] + Shift(rest)
      else
        PositionsSkip(fields, rest);
        Shift(rest)
  }

  function Shift(s: seq<int>): (r: seq<int>)
    ensures |r| == |s| && forall i :: 0 <= i < |s| ==> r[i] == s[i] + 1
  {
    seq(|s|, i requires 0 <= i < |s| => s[i] + 1)
  }

  /** The positions of the numbers after the first field, moved one place on. */
  lemma PositionsShift(fields: Record, rest: seq<int>)
    requires fields != [] && ArePositions(fields[1..], rest)
    ensures forall i :: 0 <= i < |rest| ==> NumericAt(fields, Shift(rest)[i]) && Shift(rest)[i] > 0
    ensures forall i, j :: 0 <= i < j < |rest| ==> Shift(rest)[i] < Shift(rest)[j]
    ensures forall p :: NumericAt(fields, p) && p > 0 ==> p in Shift(rest)
  {
    var shifted := Shift(rest);
    forall i | 0 <= i < |rest| ensures NumericAt(fields, shifted[i]) {
      assert NumericAt(fields[1..], rest[i]);
      assert fields[1..][rest[i]] == fields[shifted[i]];
    }
    forall p | NumericAt(fields, p) && p > 0 ensures p in shifted {
      assert fields[1..][p - 1] == fields[p];
      assert NumericAt(fields[1..], p - 1);
      var k :| 0 <= k < |rest| && rest[k] == p - 1;
      assert shifted[k] == p;
    }
  }

  lemma PositionsSkip(fields: Record, rest: seq<int>)
    requires fields != [] && ArePositions(fields[1..], rest) && !IsNumeric(fields[0].value)
    ensures ArePositions(fields, Shift(rest))
  {
    PositionsShift(fields, rest);
    forall p | NumericAt(fields, p) ensures p in Shift(rest) {
      assert p > 0;
    }
  }

  lemma PositionsKeep(fields: Record, rest: seq<int>)
    requires fields != [] && ArePositions(fields[1..], rest) && IsNumeric(fields[0].value)
    ensures ArePositions(fields, [0] + Shift(rest))
  {
    PositionsShift(fields, rest);
    var sh := Shift(rest);
    var ps := [0] + sh;
    assert forall i :: 0 < i < |ps| ==> ps[i] == sh[i - 1];
    forall i | 0 <= i < |ps| ensures NumericAt(fields, ps[i]) {
      if i > 0 { assert NumericAt(fields, sh[i - 1]); }
    }
    forall i, j | 0 <= i < j < |ps| ensures ps[i] < ps[j] {
      if i > 0 { assert sh[i - 1] < sh[j - 1]; } else { assert sh[j - 1] > 0; }
    }
    forall p | NumericAt(fields, p) ensures p in ps {
      if p > 0 { assert p in sh; } else { assert ps[0] == p; }
    }
  }

  /** The numeric fields of a dict, in iteration order: every field kept is a
      number, and every number is kept. */
  function NumericFields(fields: Record): (r: Record)
    ensures |r| == |NumericPositions(fields)|
    ensures forall i :: 0 <= i < |r| ==> r[i] == fields[NumericPositions(fields)[i]]
    ensures forall i :: 0 <= i < |r| ==> IsNumeric(r[i].value)
    ensures forall p :: NumericAt(fields, p) ==> fields[p] in r
  {
    var ps := NumericPositions(fields);
    var r := seq(|ps|, i requires 0 <= i < |ps| => fields[ps[i]]);
    assert forall p :: NumericAt(fields, p) ==> fields[p] in r by {
      forall p | NumericAt(fields, p) ensures fields[p] in r {
        var i :| 0 <= i < |ps| && ps[i] == p;
        assert r[i] == fields[p];
      }
    }
    r
  }

  /** The gauge `info_metrics` and `stat_metrics` yield for one numeric field. */
  function ScalarGauge(device: string, f: Family, field: Field): (g: Gauge)
    ensures FamilyOf(g) == Some(f)
    ensures g.name == Prefix(f) + field.key && g.labelNames == ["dsm"]
    ensures g.samples == [Sample([Str(device)], field.value)]
  {
    var g := Gauge(Prefix(f) + field.key, Help(f), ["dsm"], [Sample([Str(device)], field.value)]);
    FamilyOfHelp(g, f);
    g
  }

  /** The loop of `info_metrics` / `stat_metrics` over one dict: one gauge for
      every numeric field and for nothing else, in iteration order. Each has the
      single label `dsm` and a single sample, the field's value, labelled by the
      device name. */
  function ScalarGauges(device: string, f: Family, fields: Record): (r: seq<Gauge>)
    ensures |r| == |NumericFields(fields)|
    ensures forall i :: 0 <= i < |r| ==> r[i] == ScalarGauge(device, f, NumericFields(fields)[i])
    ensures forall g :: g in r ==> exists p :: NumericAt(fields, p) && g == ScalarGauge(device, f, fields[p])
    ensures forall p :: NumericAt(fields, p) ==> ScalarGauge(device, f, fields[p]) in r
    ensures forall g :: g in r ==>
      g.labelNames == ["dsm"] && |g.samples| == 1 &&
      g.samples[0].labels == [Str(device)] && IsNumeric(g.samples[0].value)
  {
    var metrics := NumericFields(fields);
    var r := seq(|metrics|, i requires 0 <= i < |metrics| => ScalarGauge(device, f, metrics[i]));
    var ps := NumericPositions(fields);
    assert forall g :: g in r ==> exists p :: NumericAt(fields, p) && g == ScalarGauge(device, f, fields[p]) by {
      forall g | g in r ensures exists p :: NumericAt(fields, p) && g == ScalarGauge(device, f, fields[p]) {
        var i :| 0 <= i < |r| && r[i] == g;
        assert NumericAt(fields, ps[i]);
      }
    }
    assert forall p :: NumericAt(fields, p) ==> ScalarGauge(device, f, fields[p]) in r by {
      forall p | NumericAt(fields, p) ensures ScalarGauge(device, f, fields[p]) in r {
        var i :| 0 <= i < |ps| && ps[i] == p;
        assert r[i] == ScalarGauge(device, f, fields[p]);
      }
    }
    r
  }

  /** A non-numeric field, such as a model name or a version string, gives no gauge
      its name. */
  lemma NonNumericDropped(device: string, f: Family, fields: Record, j: int)
    requires DistinctKeys(fields) && 0 <= j < |fields| && !IsNumeric(fields[j].value)
    ensures forall g :: g in ScalarGauges(device, f, fields) ==> g.name != Prefix(f) + fields[j].key
  {
    forall g | g in ScalarGauges(device, f, fields) ensures g.name != Prefix(f) + fields[j].key {
      var p :| NumericAt(fields, p) && g == ScalarGauge(device, f, fields[p]);
      assert fields[p].key != fields[j].key;
      assert g.name[|Prefix(f)|..] == fields[p].key;
      assert (Prefix(f) + fields[j].key)[|Prefix(f)|..] == fields[j].key;
    }
  }

  /** The values of `keys` in a dict, looked up in order; the first key that is
      missing raises KeyError. */
  function LookupAll(rec: Record, keys: seq<string>): (r: Result<seq<Value>>)
    ensures r.Ok? <==> HasKeys(rec, keys)
    ensures r.Ok? ==> |r.value| == |keys| && forall i :: 0 <= i < |keys| ==> Get(rec, keys[i]) == Some(r.value[i])
    ensures r.Err? ==> r.error.KeyError? && r.error.key in keys && !HasKey(rec, r.error.key)
  {
    if keys == [] then Ok([])
    else
      match Lookup(rec, keys[0])
      case Err(e) => Err(e)
      case Ok(v) =>
        match LookupAll(rec, keys[1..])
        case Err(e) => Err(e)
        case Ok(vs) =>
          assert forall i :: 0 < i < |keys| ==> keys[i] == keys[1..][i - 1];
          Ok([v] + vs)
  }

  /** A sample labelled, as in `tags = [self.name, record[k] ...]`, by the device
      name and then the record's identifying values. */
  predicate Tagged(s: Sample, device: string, idKeys: seq<string>, rec: Record) {
    |s.labels| == |idKeys| + 1 && s.labels[0] == Str(device) &&
    forall i :: 0 <= i < |idKeys| ==> Get(rec, idKeys[i]) == Some(s.labels[i + 1])
  }

  /** The inner loop of the list metrics: for each record, the tags and then
      `record[metric]`, added as one sample. */
  function SamplesOf(device: string, idKeys: seq<string>, metric: string, records: seq<Record>): (r: Result<seq<Sample>>)
    ensures r.Ok? ==> |r.value| == |records|
    ensures r.Err? ==> r.error.KeyError? && (r.error.key in idKeys || r.error.key == metric)
  {
    if records == [] then Ok([])
    else
      match LookupAll(records[0], idKeys)
      case Err(e) => Err(e)
      case Ok(ids) =>
        match Lookup(records[0], metric)
        case Err(e) => Err(e)
        case Ok(v) =>
          match SamplesOf(device, idKeys, metric, records[1..])
          case Err(e) => Err(e)
          case Ok(ss) => Ok([Sample([Str(device)] + ids, v)] + ss)
  }

  /** The inner loop succeeds exactly when every record has the identifying keys
      and the metric. */
  lemma {:induction false} SamplesOfSucceeds(device: string, idKeys: seq<string>, metric: string, records: seq<Record>)
    ensures SamplesOf(device, idKeys, metric, records).Ok? <==>
      forall j :: 0 <= j < |records| ==> HasKeys(records[j], idKeys) && HasKey(records[j], metric)
  {
    if records != [] {
      SamplesOfSucceeds(device, idKeys, metric, records[1..]);
      assert forall j :: 0 < j < |records| ==> records[j] == records[1..][j - 1];
    }
  }

  /** Sample `j` belongs to record `j`: it is labelled by the device name and that
      record's identifying values, and its value is the record's metric. */
  lemma {:induction false} SamplesOfValues(device: string, idKeys: seq<string>, metric: string, records: seq<Record>, j: int)
    requires SamplesOf(device, idKeys, metric, records).Ok? && 0 <= j < |records|
    ensures Tagged(SamplesOf(device, idKeys, metric, records).value[j], device, idKeys, records[j])
    ensures Get(records[j], metric) == Some(SamplesOf(device, idKeys, metric, records).value[j].value)
  {
    if j > 0 {
      SamplesOfValues(device, idKeys, metric, records[1..], j - 1);
      assert records[1..][j - 1] == records[j];
    }
  }

  /** The outer loop of the list metrics, over the metrics still to do: one gauge
      per metric, holding a sample for every record. */
  function GaugesOver(device: string, f: Family, metrics: Record, records: seq<Record>): (r: Result<seq<Gauge>>)
    ensures r.Ok? ==> |r.value| == |metrics|
    ensures r.Ok? ==> forall g :: g in r.value ==> g.documentation == Help(f)
    ensures r.Err? ==> r.error.KeyError?
  {
    if metrics == [] then Ok([])
    else
      match SamplesOf(device, IdKeys(f), metrics[0].key, records)
      case Err(e) => Err(e)
      case Ok(ss) =>
        match GaugesOver(device, f, metrics[1..], records)
        case Err(e) => Err(e)
        case Ok(gs) => Ok([Gauge(Prefix(f) + metrics[0].key, Help(f), LabelNames(f), ss)] + gs)
  }

  /** The outer loop succeeds exactly when the inner loop does for every metric. */
  lemma {:induction false} GaugesOverSucceeds(device: string, f: Family, metrics: Record, records: seq<Record>)
    ensures GaugesOver(device, f, metrics, records).Ok? <==>
      forall i :: 0 <= i < |metrics| ==> SamplesOf(device, IdKeys(f), metrics[i].key, records).Ok?
  {
    if metrics != [] {
      GaugesOverSucceeds(device, f, metrics[1..], records);
      assert forall i :: 0 < i < |metrics| ==> metrics[i] == metrics[1..][i - 1];
    }
  }

  /** One step of the outer loop: the first metric's gauge, then the rest. */
  lemma GaugesOverCons(device: string, f: Family, metrics: Record, records: seq<Record>)
    requires metrics != [] && GaugesOver(device, f, metrics, records).Ok?
    ensures SamplesOf(device, IdKeys(f), metrics[0].key, records).Ok?
    ensures GaugesOver(device, f, metrics[1..], records).Ok?
    ensures GaugesOver(device, f, metrics, records).value ==
      [Gauge(Prefix(f) + metrics[0].key, Help(f), LabelNames(f), SamplesOf(device, IdKeys(f), metrics[0].key, records).value)]
      + GaugesOver(device, f, metrics[1..], records).value
  {
  }

  /** Gauge `i` is metric `i`'s: named with the family's prefix, carrying its help
      text and label names, and holding that metric's samples. */
  lemma {:induction false} GaugesOverValue(device: string, f: Family, metrics: Record, records: seq<Record>, i: int)
    requires GaugesOver(device, f, metrics, records).Ok? && 0 <= i < |metrics|
    ensures SamplesOf(device, IdKeys(f), metrics[i].key, records).Ok?
    ensures GaugesOver(device, f, metrics, records).value[i] ==
      Gauge(Prefix(f) + metrics[i].key, Help(f), LabelNames(f), SamplesOf(device, IdKeys(f), metrics[i].key, records).value)
  {
    GaugesOverCons(device, f, metrics, records);
    if i > 0 {
      GaugesOverValue(device, f, metrics[1..], records, i - 1);
      assert metrics[1..][i - 1] == metrics[i];
    }
  }

  /** `volume_metrics`, `disk_metrics`, `share_metrics` over their list of records:
      the metrics are the numeric keys of the first record. */
  function ListGauges(device: string, f: Family, records: seq<Record>): (r: Result<seq<Gauge>>)
    ensures records == [] ==> r == Err(IndexError)
    ensures r.Err? ==> r.error == IndexError || r.error.KeyError?
    ensures r.Ok? ==> |r.value| == |NumericPositions(records[0])|
    ensures r.Ok? ==> forall g :: g in r.value ==> g.documentation == Help(f)
  {
    if records == [] then Err(IndexError)
    else GaugesOver(device, f, NumericFields(records[0]), records)
  }

  /** The list metrics succeed exactly when the list is not empty and every record
      has the identifying keys and every numeric key of the first record; a later
      record that lacks one of those keys raises KeyError. */
  lemma ListGaugesSucceeds(device: string, f: Family, records: seq<Record>)
    ensures ListGauges(device, f, records).Ok? <==>
      records != [] && forall p :: NumericAt(records[0], p) ==>
        forall j :: 0 <= j < |records| ==> HasKeys(records[j], IdKeys(f)) && HasKey(records[j], records[0][p].key)
  {
    if records != [] {
      if ListGauges(device, f, records).Ok? {
        ListGaugesOkHasKeys(device, f, records);
      } else {
        ListGaugesErrMissesKey(device, f, records);
      }
    }
  }

  /** When the list metrics succeed, every record has the keys they look up. */
  lemma ListGaugesOkHasKeys(device: string, f: Family, records: seq<Record>)
    requires records != [] && ListGauges(device, f, records).Ok?
    ensures forall p :: NumericAt(records[0], p) ==>
      forall j :: 0 <= j < |records| ==> HasKeys(records[j], IdKeys(f)) && HasKey(records[j], records[0][p].key)
  {
    var ps := NumericPositions(records[0]);
    var metrics := NumericFields(records[0]);
    forall p | NumericAt(records[0], p)
      ensures forall j :: 0 <= j < |records| ==> HasKeys(records[j], IdKeys(f)) && HasKey(records[j], records[0][p].key)
    {
      var i :| 0 <= i < |ps| && ps[i] == p;
      assert metrics[i].key == records[0][p].key;
      GaugesOverValue(device, f, metrics, records, i);
      SamplesOfSucceeds(device, IdKeys(f), metrics[i].key, records);
    }
  }

  /** When the list metrics fail on a non-empty list, some record misses a key
      they look up. */
  lemma ListGaugesErrMissesKey(device: string, f: Family, records: seq<Record>)
    requires records != [] && ListGauges(device, f, records).Err?
    ensures exists p, j ::
      && NumericAt(records[0], p) && 0 <= j < |records|
      && !(HasKeys(records[j], IdKeys(f)) && HasKey(records[j], records[0][p].key))
  {
    var metrics := NumericFields(records[0]);
    GaugesOverSucceeds(device, f, metrics, records);
    var i :| 0 <= i < |metrics| && SamplesOf(device, IdKeys(f), metrics[i].key, records).Err?;
    SamplesOfSucceeds(device, IdKeys(f), metrics[i].key, records);
    var j :| 0 <= j < |records| && !(HasKeys(records[j], IdKeys(f)) && HasKey(records[j], metrics[i].key));
    var p := NumericPositions(records[0])[i];
    assert metrics[i] == records[0][p];
    assert NumericAt(records[0], p);
  }

  /** Each list gauge is named after a numeric key of the first record, in that
      record's order, and holds one sample per record, in list order, labelled by
      the device name and that record's identifying values. */
  lemma ListGaugesSamples(device: string, f: Family, records: seq<Record>, i: int)
    requires ListGauges(device, f, records).Ok?
    requires 0 <= i < |ListGauges(device, f, records).value|
    ensures records != []
    ensures var g := ListGauges(device, f, records).value[i];
      var metric := records[0][NumericPositions(records[0])[i]].key;
      && g.name == Prefix(f) + metric
      && g.documentation == Help(f)
      && g.labelNames == LabelNames(f)
      && |g.samples| == |records|
      && forall j :: 0 <= j < |records| ==>
           Tagged(g.samples[j], device, IdKeys(f), records[j]) && Get(records[j], metric) == Some(g.samples[j].value)
  {
    var metrics := NumericFields(records[0]);
    var metric := metrics[i].key;
    assert metrics[i] == records[0][NumericPositions(records[0])[i]];
    GaugesOverValue(device, f, metrics, records, i);
    forall j | 0 <= j < |records|
      ensures Tagged(SamplesOf(device, IdKeys(f), metric, records).value[j], device, IdKeys(f), records[j])
      ensures Get(records[j], metric) == Some(SamplesOf(device, IdKeys(f), metric, records).value[j].value)
    {
      SamplesOfValues(device, IdKeys(f), metric, records, j);
    }
  }

  /** The gauges of family `f` from what reading its category's dump file gave:
      take the family's section and turn it into gauges. A section of the wrong
      shape raises. */
  function SectionGauges(device: string, f: Family, dump: Result<Record>): (r: Result<seq<Gauge>>)
    ensures dump.Err? ==> r == Err(dump.error)
    ensures r.Ok? ==> forall g :: g in r.value ==> g.documentation == Help(f)
  {
    match dump
    case Err(e) => Err(e)
    case Ok(data) =>
      match Lookup(data, SectionKey(f))
      case Err(e) => Err(e)
      case Ok(section) =>
        if IsListFamily(f) then
          if section.List? then ListGauges(device, f, section.records) else Err(TypeError)
        else
          if section.Dict? then Ok(ScalarGauges(device, f, section.fields)) else Err(TypeError)
  }

  /** `info_metrics`, `stat_metrics`, `volume_metrics`, `disk_metrics` and
      `share_metrics`: read the category's dump file and build the family's
      gauges from it; a read error propagates. */
  function FamilyMetrics(b: Builder, files: Files, f: Family): (r: Result<seq<Gauge>>)
    ensures ReadDump(b, files, SourceOf(f)).Err? ==> r == Err(ReadDump(b, files, SourceOf(f)).error)
    ensures r.Ok? ==> forall g :: g in r.value ==> g.documentation == Help(f)
  {
    SectionGauges(b.name, f, ReadDump(b, files, SourceOf(f)))
  }

  /** `yield from a` followed by `yield from z`: an exception in either ends the scrape. */
  function Chain(a: Result<seq<Gauge>>, z: Result<seq<Gauge>>): (r: Result<seq<Gauge>>)
    ensures r.Ok? <==> a.Ok? && z.Ok?
    ensures r.Ok? ==> r.value == a.value + z.value
    ensures a.Err? ==> r == a
    ensures a.Ok? && z.Err? ==> r == z
  {
    match a
    case Err(e) => Err(e)
    case Ok(xs) =>
      match z
      case Err(e) => Err(e)
      case Ok(ys) => Ok(xs + ys)
  }

  /** `metric_status[c] and get_collect_status(c)`: the dump file is read only
      when the category is enabled. */
  function Active(b: Builder, files: Files, c: Category): (r: Result<bool>)
    ensures c !in b.metricStatus ==> r == Err(KeyError(CategoryName(c)))
    ensures c in b.metricStatus && !b.metricStatus[c] ==> r == Ok(false)
    ensures r == Ok(true) <==> c in b.metricStatus && b.metricStatus[c] && GetCollectStatus(b, files, c) == Ok(true)
  {
    if c !in b.metricStatus then Err(KeyError(CategoryName(c)))
    else if !b.metricStatus[c] then Ok(false)
    else GetCollectStatus(b, files, c)
  }

  /** The families a category yields from what its dump file reads: storage
      yields volumes, then disks. */
  function DumpGauges(device: string, c: Category, dump: Result<Record>): (r: Result<seq<Gauge>>)
    ensures dump.Err? ==> r == Err(dump.error)
    ensures c == Storage ==>
      (r.Ok? <==> SectionGauges(device, VolumeFamily, dump).Ok? && SectionGauges(device, DiskFamily, dump).Ok?)
  {
    match c
    case Info => SectionGauges(device, InfoFamily, dump)
    case Stat => SectionGauges(device, StatsFamily, dump)
    case Storage => Chain(SectionGauges(device, VolumeFamily, dump), SectionGauges(device, DiskFamily, dump))
    case Share => SectionGauges(device, ShareFamily, dump)
  }

  /** The families a category yields once active. */
  function CategoryGauges(b: Builder, files: Files, c: Category): (r: Result<seq<Gauge>>)
    ensures ReadDump(b, files, c).Err? ==> r == Err(ReadDump(b, files, c).error)
  {
    DumpGauges(b.name, c, ReadDump(b, files, c))
  }

  /** One `if metric_status[c] and get_collect_status(c): yield from ...` step of `build`. */
  function Part(b: Builder, files: Files, c: Category): (r: Result<seq<Gauge>>)
    ensures c in b.metricStatus && !b.metricStatus[c] ==> r == Ok([])
    ensures Active(b, files, c).Err? ==> r == Err(Active(b, files, c).error)
    ensures Active(b, files, c) == Ok(false) ==> r == Ok([])
    ensures Active(b, files, c) == Ok(true) ==> r == CategoryGauges(b, files, c)
  {
    match Active(b, files, c)
    case Err(e) => Err(e)
    case Ok(active) => if active then CategoryGauges(b, files, c) else Ok([])
  }

  /** `build`: info, stat, storage and share, in that order. It raises KeyError
      unless every category has a `metric_status` flag. */
  function Build(b: Builder, files: Files): (r: Result<seq<Gauge>>)
    ensures r.Ok? ==> Wired(b)
  {
    Chain(Part(b, files, Info), Chain(Part(b, files, Stat), Chain(Part(b, files, Storage), Part(b, files, Share))))
  }

  /** `build` looks up the `metric_status` flags in the order info, stat,
      storage, share: when every step before category `c` succeeds and `c` has
      no flag, the build raises KeyError naming `c`. */
  lemma BuildMissingFlag(b: Builder, files: Files, c: Category)
    requires c !in b.metricStatus
    requires c != Info ==> Part(b, files, Info).Ok?
    requires c == Storage || c == Share ==> Part(b, files, Stat).Ok?
    requires c == Share ==> Part(b, files, Storage).Ok?
    ensures Build(b, files) == Err(KeyError(CategoryName(c)))
  {
    var e := Err(KeyError(CategoryName(c)));
    assert Part(b, files, c) == e;
    var p1, p2, p3, p4 := Part(b, files, Info), Part(b, files, Stat), Part(b, files, Storage), Part(b, files, Share);
    if c == Info {
      assert Build(b, files) == Chain(e, Chain(p2, Chain(p3, p4)));
    } else if c == Stat {
      assert Chain(p2, Chain(p3, p4)) == e;
    } else if c == Storage {
      assert Chain(p3, p4) == e;
      assert Chain(p2, Chain(p3, p4)) == e;
    } else {
      assert Chain(p3, p4) == e;
      assert Chain(p2, Chain(p3, p4)) == e;
    }
  }

  /** Where a gauge's family comes in `build`'s order; 5 for a gauge of no family. */
  function RankOf(g: Gauge): nat {
    match FamilyOf(g)
    case None => 5
    case Some(f) => Rank(f)
  }

  ghost predicate SortedByFamily(gs: seq<Gauge>) {
    forall i, j :: 0 <= i < j < |gs| ==> RankOf(gs[i]) <= RankOf(gs[j])
  }

  /** The gauges of one family, in the order they come. */
  function OfFamily(gs: seq<Gauge>, f: Family): seq<Gauge> {
    if gs == [] then [] else Picked(gs[0], f) + OfFamily(gs[1..], f)
  }

  /** The gauge itself when it belongs to family `f`, nothing otherwise. */
  function Picked(g: Gauge, f: Family): seq<Gauge> {
    if FamilyOf(g) == Some(f) then [g] else []
  }

  lemma {:induction false} OfFamilyAppend(xs: seq<Gauge>, ys: seq<Gauge>, f: Family)
    ensures OfFamily(xs + ys, f) == OfFamily(xs, f) + OfFamily(ys, f)
  {
    if xs != [] {
      var head := Picked(xs[0], f);
      assert (xs + ys)[0] == xs[0];
      assert (xs + ys)[1..] == xs[1..] + ys;
      var t, u := OfFamily(xs[1..], f), OfFamily(ys, f);
      OfFamilyAppend(xs[1..], ys, f);
      calc {
        OfFamily(xs + ys, f);
        head + OfFamily(xs[1..] + ys, f);
        head + (t + u);
        (head + t) + u;
      }
    } else {
      assert xs + ys == ys;
    }
  }

  /** Gauges that all carry the help text of family `f'` are all picked for `f'`
      and none for any other family. */
  lemma {:induction false} OfFamilyUniform(xs: seq<Gauge>, f: Family, f': Family)
    requires forall i :: 0 <= i < |xs| ==> xs[i].documentation == Help(f')
    ensures OfFamily(xs, f) == if f == f' then xs else []
  {
    if xs != [] {
      var rest := xs[1..];
      FamilyOfHelp(xs[0], f');
      assert Picked(xs[0], f) == if f == f' then [xs[0]] else [];
      assert forall i :: 0 <= i < |rest| ==> rest[i] == xs[i + 1];
      OfFamilyUniform(rest, f, f');
      assert xs == [xs[0]] + rest;
    }
  }


  /** Gauges that all carry the help text of family `f'` all rank as `f'`. */
  lemma UniformRanks(xs: seq<Gauge>, f': Family)
    requires forall g :: g in xs ==> g.documentation == Help(f')
    ensures forall g :: g in xs ==> RankOf(g) == Rank(f')
  {
    forall g | g in xs ensures RankOf(g) == Rank(f') {
      FamilyOfHelp(g, f');
    }
  }


  /** Two runs sorted by family, the first ranking no later than the second. */
  lemma SortedAppend(xs: seq<Gauge>, ys: seq<Gauge>, lo: nat, mid: nat, hi: nat)
    requires SortedByFamily(xs) && SortedByFamily(ys) && lo <= mid <= hi
    requires forall x :: x in xs ==> lo <= RankOf(x) <= mid
    requires forall y :: y in ys ==> mid <= RankOf(y) <= hi
    ensures SortedByFamily(xs + ys)
    ensures forall z :: z in xs + ys ==> lo <= RankOf(z) <= hi
  {
    var zs := xs + ys;
    forall i, j | 0 <= i < j < |zs| ensures RankOf(zs[i]) <= RankOf(zs[j]) {
      if j < |xs| {
        assert zs[i] == xs[i] && zs[j] == xs[j];
      } else if i >= |xs| {
        assert zs[i] == ys[i - |xs|] && zs[j] == ys[j - |xs|];
      } else {
        assert zs[i] in xs && zs[j] in ys;
      }
    }
  }

  /** A run of one family's gauges: picking any family out of it gives the run or
      nothing, and it is in family order. */
  lemma RunOfFamily(gs: seq<Gauge>, f0: Family, f: Family)
    requires forall g :: g in gs ==> g.documentation == Help(f0)
    ensures OfFamily(gs, f) == if f == f0 then gs else []
    ensures forall g :: g in gs ==> RankOf(g) == Rank(f0)
    ensures SortedByFamily(gs)
  {
    assert forall i :: 0 <= i < |gs| ==> gs[i] in gs;
    OfFamilyUniform(gs, f, f0);
    UniformRanks(gs, f0);
  }

  /** The ranks of the families a category yields lie between these two. */
  function FirstRank(c: Category): nat {
    match c
    case Info => 0
    case Stat => 1
    case Storage => 2
    case Share => 4
  }

  function LastRank(c: Category): nat {
    if c == Storage then 3 else FirstRank(c)
  }

  /** The family a category other than storage yields. */
  function OnlyFamily(c: Category): Family
    requires c != Storage
  {
    match c
    case Info => InfoFamily
    case Stat => StatsFamily
    case Share => ShareFamily
  }

  /** A category yields its own family's gauges; storage yields volumes, then disks. */
  lemma CategoryGaugesUnfold(b: Builder, files: Files, c: Category)
    ensures c != Storage ==> CategoryGauges(b, files, c) == FamilyMetrics(b, files, OnlyFamily(c))
    ensures c == Storage ==>
      CategoryGauges(b, files, c) == Chain(FamilyMetrics(b, files, VolumeFamily), FamilyMetrics(b, files, DiskFamily))
  {
  }

  /** What one step of `build` yields: nothing unless its category is enabled and
      collected; otherwise its families' gauges, each family as its own function
      yields them. */
  lemma PartFamilies(b: Builder, files: Files, c: Category, f: Family)
    requires Part(b, files, c).Ok?
    ensures Active(b, files, c).Ok?
    ensures SourceOf(f) == c && Active(b, files, c) == Ok(true) ==> FamilyMetrics(b, files, f).Ok?
    ensures OfFamily(Part(b, files, c).value, f) ==
      if SourceOf(f) == c && Active(b, files, c) == Ok(true) then FamilyMetrics(b, files, f).value else []
  {
    if Active(b, files, c) == Ok(true) {
      CategoryGaugesUnfold(b, files, c);
      if c == Storage {
        var vol := FamilyMetrics(b, files, VolumeFamily).value;
        var disk := FamilyMetrics(b, files, DiskFamily).value;
        RunOfFamily(vol, VolumeFamily, f);
        RunOfFamily(disk, DiskFamily, f);
        OfFamilyAppend(vol, disk, f);
      } else {
        RunOfFamily(FamilyMetrics(b, files, OnlyFamily(c)).value, OnlyFamily(c), f);
      }
    }
  }

  /** Volume gauges followed by disk gauges are in family order, ranking between
      volumes and disks. */
  lemma StorageRunSorted(vol: seq<Gauge>, disk: seq<Gauge>, gs: seq<Gauge>)
    requires forall g :: g in vol ==> g.documentation == Help(VolumeFamily)
    requires forall g :: g in disk ==> g.documentation == Help(DiskFamily)
    requires gs == vol + disk
    ensures SortedByFamily(gs)
    ensures forall g :: g in gs ==> FirstRank(Storage) <= RankOf(g) <= LastRank(Storage)
  {
    RunOfFamily(vol, VolumeFamily, VolumeFamily);
    RunOfFamily(disk, DiskFamily, DiskFamily);
    SortedAppend(vol, disk, 2, 3, 3);
  }

  /** What a category yields from its dump is in family order, all ranking within
      the category's range. */
  lemma DumpSorted(device: string, c: Category, dump: Result<Record>)
    requires DumpGauges(device, c, dump).Ok?
    ensures SortedByFamily(DumpGauges(device, c, dump).value)
    ensures forall g :: g in DumpGauges(device, c, dump).value ==> FirstRank(c) <= RankOf(g) <= LastRank(c)
  {
    if c == Storage {
      var vol, disk := SectionGauges(device, VolumeFamily, dump), SectionGauges(device, DiskFamily, dump);
      assert DumpGauges(device, c, dump) == Chain(vol, disk);
      StorageRunSorted(vol.value, disk.value, DumpGauges(device, c, dump).value);
    } else {
      var f := OnlyFamily(c);
      var r := SectionGauges(device, f, dump);
      assert DumpGauges(device, c, dump) == r;
      RunOfFamily(r.value, f, f);
      assert FirstRank(c) == Rank(f) == LastRank(c);
    }
  }

  /** One step of `build` yields its families in order, all ranking within its
      category's range. */
  lemma PartSorted(b: Builder, files: Files, c: Category)
    requires Part(b, files, c).Ok?
    ensures SortedByFamily(Part(b, files, c).value)
    ensures forall g :: g in Part(b, files, c).value ==> FirstRank(c) <= RankOf(g) <= LastRank(c)
  {
    if Active(b, files, c) == Ok(true) {
      DumpSorted(b.name, c, ReadDump(b, files, c));
    } else {
      assert Part(b, files, c) == Ok([]);
    }
  }

  /** Four runs whose ranks climb from one category to the next make one sorted
      run, and every gauge in it belongs to one of the five families. */
  lemma SortedParts(p1: seq<Gauge>, p2: seq<Gauge>, p3: seq<Gauge>, p4: seq<Gauge>, gs: seq<Gauge>)
    requires SortedByFamily(p1) && SortedByFamily(p2) && SortedByFamily(p3) && SortedByFamily(p4)
    requires forall g :: g in p1 ==> FirstRank(Info) <= RankOf(g) <= LastRank(Info)
    requires forall g :: g in p2 ==> FirstRank(Stat) <= RankOf(g) <= LastRank(Stat)
    requires forall g :: g in p3 ==> FirstRank(Storage) <= RankOf(g) <= LastRank(Storage)
    requires forall g :: g in p4 ==> FirstRank(Share) <= RankOf(g) <= LastRank(Share)
    requires gs == p1 + (p2 + (p3 + p4))
    ensures SortedByFamily(gs)
    ensures forall g :: g in gs ==> FamilyOf(g).Some?
  {
    SortedAppend(p3, p4, 2, 3, 4);
    SortedAppend(p2, p3 + p4, 1, 2, 4);
    SortedAppend(p1, p2 + (p3 + p4), 0, 1, 4);
    forall g | g in gs ensures FamilyOf(g).Some? {
      assert RankOf(g) <= 4;
    }
  }

  /** `build` yields only gauges of the five families, and in a fixed order:
      info, stats, volumes, disks, shares. */
  lemma BuildOrdered(b: Builder, files: Files)
    requires Build(b, files).Ok?
    ensures SortedByFamily(Build(b, files).value)
    ensures forall g :: g in Build(b, files).value ==> FamilyOf(g).Some?
  {
    var p1, p2, p3, p4 := Part(b, files, Info).value, Part(b, files, Stat).value,
                          Part(b, files, Storage).value, Part(b, files, Share).value;
    assert Build(b, files).value == p1 + (p2 + (p3 + p4));
    PartSorted(b, files, Info);
    PartSorted(b, files, Stat);
    PartSorted(b, files, Storage);
    PartSorted(b, files, Share);
    SortedParts(p1, p2, p3, p4, Build(b, files).value);
  }


  /** Within `build`'s output, the gauges of each family are exactly what that
      family's function yields when its category is enabled and collected, and
      none otherwise: a disabled category, or one whose stored `collect_status` is
      0 or absent, contributes nothing. */
  lemma BuildFamilies(b: Builder, files: Files, f: Family)
    requires Build(b, files).Ok?
    ensures Active(b, files, SourceOf(f)) == Ok(true) ==>
      FamilyMetrics(b, files, f).Ok? && OfFamily(Build(b, files).value, f) == FamilyMetrics(b, files, f).value
    ensures Active(b, files, SourceOf(f)) != Ok(true) ==> OfFamily(Build(b, files).value, f) == []
  {
    var p1, p2, p3, p4 := Part(b, files, Info).value, Part(b, files, Stat).value,
                          Part(b, files, Storage).value, Part(b, files, Share).value;
    PartFamilies(b, files, Info, f);
    PartFamilies(b, files, Stat, f);
    PartFamilies(b, files, Storage, f);
    PartFamilies(b, files, Share, f);
    OfFamilyAppend(p3, p4, f);
    OfFamilyAppend(p2, p3 + p4, f);
    OfFamilyAppend(p1, p2 + (p3 + p4), f);
  }

  /** A category whose `metric_status` flag is false is never read: `build` gives
      the same outcome without that category's dump file entry and whatever its
      file holds, as long as the enabled categories' files read the same. */
  lemma DisabledNeverRead(b: Builder, files: Files, c: Category, files': Files)
    requires c in b.metricStatus && !b.metricStatus[c]
    requires forall c' :: c' != c && c' in b.dumpFiles ==>
      ReadData(files, b.dumpFiles[c']) == ReadData(files', b.dumpFiles[c'])
    ensures Build(b, files) == Build(b.(dumpFiles := b.dumpFiles - {c}), files')
  {
    var b' := b.(dumpFiles := b.dumpFiles - {c});
    PartUnread(b, files, c, files', Info);
    PartUnread(b, files, c, files', Stat);
    PartUnread(b, files, c, files', Storage);
    PartUnread(b, files, c, files', Share);
  }

  /** One step of `build` reads only its own category's dump file, and only when
      that category is enabled. */
  lemma PartUnread(b: Builder, files: Files, c: Category, files': Files, c': Category)
    requires c in b.metricStatus && !b.metricStatus[c]
    requires forall c'' :: c'' != c && c'' in b.dumpFiles ==>
      ReadData(files, b.dumpFiles[c'']) == ReadData(files', b.dumpFiles[c''])
    ensures Part(b, files, c') == Part(b.(dumpFiles := b.dumpFiles - {c}), files', c')
  {
    var b' := b.(dumpFiles := b.dumpFiles - {c});
    if c' != c {
      DumpUnread(b, files, c, files', c');
      SameDumpSameGauges(b, files, b', files', c');
    } else {
      assert Active(b, files, c') == Ok(false) == Active(b', files', c');
    }
  }

  /** Reading another category's dump file reads the same with or without the
      disabled category's entry. */
  lemma DumpUnread(b: Builder, files: Files, c: Category, files': Files, c': Category)
    requires c' != c
    requires forall c'' :: c'' != c && c'' in b.dumpFiles ==>
      ReadData(files, b.dumpFiles[c'']) == ReadData(files', b.dumpFiles[c''])
    ensures ReadDump(b, files, c') == ReadDump(b.(dumpFiles := b.dumpFiles - {c}), files', c')
  {
  }

  /** What one step of `build` yields depends on the files only through what its
      own dump file reads. */
  lemma SameDumpSameGauges(b: Builder, files: Files, b': Builder, files': Files, c: Category)
    requires b'.name == b.name && b'.metricStatus == b.metricStatus
    requires ReadDump(b, files, c) == ReadDump(b', files', c)
    ensures Part(b, files, c) == Part(b', files', c)
  {
    assert Active(b, files, c) == Active(b', files', c);
    assert CategoryGauges(b, files, c) == CategoryGauges(b', files', c);
  }
}
