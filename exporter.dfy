/** Where a poller and the metric builder meet: what a scrape yields for a
    category, given the record its poller has published to the dump file. */
module Exporter {
  import opened Snapshot
  import opened DumpStore
  import opened MetricBuilder
  import opened DataCollector

  /** Before its first successful cycle a poller's dump file holds
      `{"collect_status": 0}`, so its category is inactive and the scrape
      yields none of its families. */
  lemma FreshDumpYieldsNothing(b: Builder, files: Files, f: Family)
    requires SourceOf(f) in b.metricStatus && SourceOf(f) in b.dumpFiles
    requires ReadData(files, b.dumpFiles[SourceOf(f)]) == Ok(BlankData())
    ensures Active(b, files, SourceOf(f)) == Ok(false)
    ensures Build(b, files).Ok? ==> OfFamily(Build(b, files).value, f) == []
  {
    assert Get(BlankData(), "collect_status") == Some(Int(0));
    if Build(b, files).Ok? {
      BuildFamilies(b, files, f);
    }
  }

  /** Once its poller has had one successful cycle, an enabled category stays
      active: after any number of later failures the scrape still reports the
      families built from the last record published. */
  lemma CollectedDumpExported(b: Builder, files: Files, polls: seq<Poll>, i: int, f: Family)
    requires SourceOf(f) in b.metricStatus && b.metricStatus[SourceOf(f)] && SourceOf(f) in b.dumpFiles
    requires 0 <= i < |polls| && polls[i].Answered?
    requires ReadData(files, b.dumpFiles[SourceOf(f)]) == Ok(Replay(BlankData(), polls))
    ensures Active(b, files, SourceOf(f)) == Ok(true)
    ensures Build(b, files).Ok? ==> OfFamily(Build(b, files).value, f) == FamilyMetrics(b, files, f).value
  {
    StaysCollected(BlankData(), polls, i);
    if Build(b, files).Ok? {
      BuildFamilies(b, files, f);
    }
  }

  /** After a successful storage cycle the stored record has `collect_status` 1
      and the volume records of that cycle under `volumes`. */
  lemma StorageDump(data: Record, a: StorageReadings, d: real)
    ensures Get(Step(data, Answered(StorageApi(a), d)), "collect_status") == Some(Int(1))
    ensures Get(Step(data, Answered(StorageApi(a), d)), "volumes") == Some(List(Volumes(a)))
  {
    var api := StorageApi(a);
    SuccessfulStep(data, api, d, "collect_status");
    SuccessfulStep(data, api, d, "volumes");
    assert Get(Payload(api), "volumes") == Some(List(Volumes(a)));
  }

  /** After a successful storage cycle the dump is collected and its volume
      family is built from the volume records of that cycle. */
  lemma StorageSection(b: Builder, files: Files, data: Record, a: StorageReadings, d: real)
    requires Storage in b.dumpFiles
    requires ReadData(files, b.dumpFiles[Storage]) == Ok(Step(data, Answered(StorageApi(a), d)))
    ensures GetCollectStatus(b, files, Storage) == Ok(true)
    ensures FamilyMetrics(b, files, VolumeFamily) == ListGauges(b.name, VolumeFamily, Volumes(a))
  {
    var dump := Step(data, Answered(StorageApi(a), d));
    StorageDump(data, a, d);
    assert ReadDump(b, files, Storage) == Ok(dump);
    assert Lookup(dump, SectionKey(VolumeFamily)) == Ok(List(Volumes(a)));
  }

  /** A storage cycle that found no volume makes the volume metrics raise
      IndexError when the category is enabled, and with them the device's
      whole scrape. */
  lemma NoVolumeBreaksScrape(b: Builder, files: Files, data: Record, a: StorageReadings, d: real)
    requires Storage in b.metricStatus && b.metricStatus[Storage] && Storage in b.dumpFiles
    requires ReadData(files, b.dumpFiles[Storage]) == Ok(Step(data, Answered(StorageApi(a), d)))
    requires a.volumesIds == []
    ensures FamilyMetrics(b, files, VolumeFamily) == Err(IndexError)
    ensures Part(b, files, Storage) == Err(IndexError)
    ensures Build(b, files).Err?
  {
    StorageSection(b, files, data, a, d);
  }

  /** A volume record's keys hold in every volume record, so every record has
      the volume id and every numeric key of the first one. */
  lemma VolumeRecordsUniform(a: StorageReadings, p: int, j: int)
    requires 0 <= j < |Volumes(a)| && 0 <= p < |Volumes(a)[0]|
    ensures HasKeys(Volumes(a)[j], IdKeys(VolumeFamily))
    ensures HasKey(Volumes(a)[j], Volumes(a)[0][p].key)
  {
    var recs := Volumes(a);
    assert Keys(recs[0])[p] == recs[0][p].key;
    assert Keys(recs[j])[p] == recs[j][p].key;
    assert Get(recs[j], "id").Some?;
  }

  /** Volume records from a cycle that found volumes always yield their gauges. */
  lemma VolumeGaugesSucceed(device: string, a: StorageReadings)
    requires a.volumesIds != []
    ensures ListGauges(device, VolumeFamily, Volumes(a)).Ok?
  {
    var recs := Volumes(a);
    forall p, j | NumericAt(recs[0], p) && 0 <= j < |recs|
      ensures HasKeys(recs[j], IdKeys(VolumeFamily)) && HasKey(recs[j], recs[0][p].key)
    {
      VolumeRecordsUniform(a, p, j);
    }
    ListGaugesSucceeds(device, VolumeFamily, recs);
  }

  /** A sample tagged by a record's id alone is labelled by the device name and
      that id. */
  lemma TaggedById(s: Sample, device: string, rec: Record, id: Value)
    requires Tagged(s, device, ["id"], rec) && Get(rec, "id") == Some(id)
    ensures s.labels == [Str(device), id]
  {
    assert Get(rec, ["id"][0]) == Some(s.labels[1]);
  }

  /** One volume gauge holds one sample per volume, in id order, labelled by the
      device name and the volume id. */
  lemma VolumeGaugeSamplesAt(device: string, a: StorageReadings, i: int)
    requires ListGauges(device, VolumeFamily, Volumes(a)).Ok?
    requires 0 <= i < |ListGauges(device, VolumeFamily, Volumes(a)).value|
    ensures var g := ListGauges(device, VolumeFamily, Volumes(a)).value[i];
      |g.samples| == |a.volumesIds| &&
      forall j :: 0 <= j < |a.volumesIds| ==> g.samples[j].labels == [Str(device), a.volumesIds[j]]
  {
    var recs := Volumes(a);
    var g := ListGauges(device, VolumeFamily, recs).value[i];
    ListGaugesSamples(device, VolumeFamily, recs, i);
    forall j | 0 <= j < |a.volumesIds| ensures g.samples[j].labels == [Str(device), a.volumesIds[j]] {
      TaggedById(g.samples[j], device, recs[j], a.volumesIds[j]);
    }
  }

  /** Every volume gauge holds one sample per volume, in id order, labelled by
      the device name and the volume id. */
  lemma VolumeGaugeSamples(device: string, a: StorageReadings)
    requires ListGauges(device, VolumeFamily, Volumes(a)).Ok?
    ensures forall g :: g in ListGauges(device, VolumeFamily, Volumes(a)).value ==>
      |g.samples| == |a.volumesIds| &&
      forall j :: 0 <= j < |a.volumesIds| ==> g.samples[j].labels == [Str(device), a.volumesIds[j]]
  {
    var gs := ListGauges(device, VolumeFamily, Volumes(a)).value;
    forall g | g in gs
      ensures |g.samples| == |a.volumesIds|
      ensures forall j :: 0 <= j < |a.volumesIds| ==> g.samples[j].labels == [Str(device), a.volumesIds[j]]
    {
      var i :| 0 <= i < |gs| && gs[i] == g;
      VolumeGaugeSamplesAt(device, a, i);
    }
  }

  /** Every numeric key of the first record names a list gauge. */
  lemma ListGaugeNamed(device: string, f: Family, records: seq<Record>, p: int)
    requires ListGauges(device, f, records).Ok?
    requires records != [] && p in NumericPositions(records[0])
    ensures exists g :: g in ListGauges(device, f, records).value && g.name == Prefix(f) + records[0][p].key
  {
    var ps := NumericPositions(records[0]);
    var gs := ListGauges(device, f, records).value;
    var i :| 0 <= i < |ps| && ps[i] == p;
    ListGaugesSamples(device, f, records, i);
    assert gs[i] in gs;
  }

  /** The second key of a volume record is its status, always a number. */
  lemma VolumeStatusNumeric(a: StorageReadings)
    requires a.volumesIds != []
    ensures Volumes(a)[0][1].key == "status" && NumericAt(Volumes(a)[0], 1)
  {
    var r := VolumeRecord(a, a.volumesIds[0]);
    assert Volumes(a)[0] == r;
    assert Get(r, "status") == Some(r[1].value);
  }

  /** The volume status, always a number, always becomes a gauge. */
  lemma VolumeStatusGauge(device: string, a: StorageReadings)
    requires ListGauges(device, VolumeFamily, Volumes(a)).Ok?
    ensures exists g :: g in ListGauges(device, VolumeFamily, Volumes(a)).value && g.name == "synology_volume_status"
  {
    var recs := Volumes(a);
    VolumeStatusNumeric(a);
    assert 1 in NumericPositions(recs[0]);
    ListGaugeNamed(device, VolumeFamily, recs, 1);
    VolumeStatusName();
  }

  /** The volume status gauge's name. */
  lemma VolumeStatusName()
    ensures Prefix(VolumeFamily) + "status" == "synology_volume_status"
  {
  }

  /** After a storage cycle that found volumes, the volume family holds a gauge
      for the volume status and, for every gauge, one sample per volume, in id
      order, labelled by the device name and the volume id. */
  lemma VolumesExported(b: Builder, files: Files, data: Record, a: StorageReadings, d: real)
    requires Storage in b.dumpFiles
    requires ReadData(files, b.dumpFiles[Storage]) == Ok(Step(data, Answered(StorageApi(a), d)))
    requires a.volumesIds != []
    ensures FamilyMetrics(b, files, VolumeFamily).Ok?
    ensures exists g :: g in FamilyMetrics(b, files, VolumeFamily).value && g.name == "synology_volume_status"
    ensures forall g :: g in FamilyMetrics(b, files, VolumeFamily).value ==>
      |g.samples| == |a.volumesIds| &&
      forall j :: 0 <= j < |a.volumesIds| ==> g.samples[j].labels == [Str(b.name), a.volumesIds[j]]
  {
    StorageSection(b, files, data, a, d);
    VolumeGaugesSucceed(b.name, a);
    VolumeStatusGauge(b.name, a);
    VolumeGaugeSamples(b.name, a);
  }
}
