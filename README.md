# synology-exporter, modelled in Dafny

synology-exporter is a Prometheus exporter for Synology NAS devices. For each
configured device, one poller thread per enabled metric category (info, stat,
storage, share) polls the DSM API on its own interval. It merges the answers into one
dict, which it keeps for the poller's whole life, and publishes that dict to a
dump file: it pickles it to `<dump>.new` and renames that onto `<dump>`. When
Prometheus scrapes, a `SynoMetricBuilder` per device reads the dump files of
the enabled categories. When a file's `collect_status` is truthy, the builder
turns the numeric fields of the stored sections into gauges. `CollectMany`
chains the builders of all devices into one scrape.

The model has six modules, one per file:

- `Snapshot` (`snapshot.dfy`): the values a dump holds. A Python dict is an
  ordered sequence of fields. The module defines the dict operations the
  exporter uses: `d.get`, `d[k]` and `d.update`, with `d[k] = v` (`Set`) as
  the per-key step of `d.update`.
- `DumpStore` (`dump_store.dfy`): the dump files. The file system is a map
  from path to the pickled tuple. The module covers `write_data_to_file`,
  `read_data_from_file` and the write-then-rename publication, as pure
  functions and as a `Store` class whose methods update the map in place.
- `MetricBuilder` (`metric_builder.dfy`): `SynoMetricBuilder`. This covers
  `get_collect_status`, the five family generators and `build`, plus lemmas on
  which gauges come out, in what order, with what labels, and when a scrape
  raises.
- `DataCollector` (`data_collector.dfy`): `DataCollect.collect` and the
  record builders of its four subclasses.
  - The SynologyDSM client is represented by the values its accessors answer.
    A cycle in which `update()` or an accessor raises is a `Raised` poll.
  - The record builders are loop methods, proved against functions that
    specify them.
  - The `DataCollect` class holds the shared record `_blank_data` and the
    store it publishes to.
- `Aggregator` (`collect_many.dfy`): `CollectMany.collect`.
- `Exporter` (`exporter.dfy`): lemmas that join a poller's published record
  to what the builder yields for it.

A generator is modelled as a `Result` of its whole output. A scrape that
raises part-way is an `Err`, and the gauges yielded before the exception are
not kept. A Python bool is an `Int` (0 or 1), as `isinstance(True, int)`
holds in Python.

Two behaviours of the code are worth knowing, and the model states both:

- Empty lists: an empty volume, disk or share list raises IndexError at
  `data["volumes"][0]` (and likewise for disks and shares). The exception
  ends the device's whole scrape and, through `CollectMany`, the scrape of
  every device (`NoVolumeBreaksScrape`, `ListGauges`, `CollectManySucceeds`).
- Stale data after a failure: a failed cycle leaves the shared record as it
  was. So after one success, `collect_status` stays 1 and the last payload
  keeps being exported (`StaysCollected`, `FailuresKeepRecord`,
  `CollectedDumpExported`).

## Model

| member | source | states |
|---|---|---|
| Snapshot.Get | synology_exporter/metric_builder.py:17 | `d.get(k)` finds a value exactly when the dict has the key, and the value found is stored under that key |
| Snapshot.GetStored | synology_exporter/metric_builder.py:17 | in a dict without repeated keys, a lookup of a stored field's key gives that field's value |
| Snapshot.Lookup | synology_exporter/metric_builder.py:21 | `d[k]` succeeds exactly when the key is present, with the value `get` finds; otherwise it raises KeyError naming the key |
| Snapshot.Set | synology_exporter/data_collector.py:38-41 | the per-key step of `d.update`: `d[k] = v` makes `k` map to `v` and leaves every other key's value alone |
| Snapshot.SetKeys | synology_exporter/data_collector.py:38-41 | setting an existing key keeps the dict's key order; setting a new key appends it last |
| Snapshot.SetDistinct | synology_exporter/data_collector.py:38-41 | setting a key never creates a repeated key |
| Snapshot.Update | synology_exporter/data_collector.py:31 | `d.update(u)` with nothing in `u` leaves `d` as it was; its effect on values is stated by `UpdateGet` and on keys by `UpdateKeys` |
| Snapshot.UpdateGet | synology_exporter/data_collector.py:31 | after `d.update(u)`, the keys of `u` map to their values in `u` and every other key keeps its old value |
| Snapshot.UpdateKeys | synology_exporter/data_collector.py:31 | `d.update(u)` keeps every key of `d`, in order, and never creates a repeated key |
| DumpStore.ReadData | synology_exporter/utils.py:107-111 | reading a missing file raises FileNotFound; on files the exporter wrote, a read succeeds exactly when the file exists |
| DumpStore.WriteData | synology_exporter/utils.py:101-104 | after a write, reading the path gives back the record; the path is added and no other file changes |
| DumpStore.RenameData | synology_exporter/data_collector.py:45 | after `rename(src, dst)`, `dst` holds what `src` held, `src` is gone (unless the two are the same path), and no other file changes |
| DumpStore.NewPath | synology_exporter/data_collector.py:43 | the temporary file is never the dump file itself |
| DumpStore.Publish | synology_exporter/data_collector.py:43-45 | write-then-rename leaves the dump file holding the record and no `.new` file; no other file changes |
| DumpStore.Store.WriteDataToFile | synology_exporter/utils.py:101-104 | the store's files become the result of writing the record at the path |
| DumpStore.Store.ReadDataFromFile | synology_exporter/utils.py:107-111 | a read succeeds exactly when the file exists, and gives the first element of the stored tuple |
| DumpStore.Store.Rename | synology_exporter/data_collector.py:45 | a rename fails with FileNotFound, changing nothing, exactly when the source is missing; otherwise the files are renamed |
| MetricBuilder.FamilyOfHelp | synology_exporter/metric_builder.py:26 | a gauge built with a family's help text belongs to that family |
| MetricBuilder.GetCollectStatus | synology_exporter/metric_builder.py:15-17 | a read error propagates; otherwise the category counts as collected exactly when `collect_status` is present and truthy |
| MetricBuilder.NumericPositions | synology_exporter/metric_builder.py:21-23 | the fields kept are exactly the numeric ones, in the dict's order |
| MetricBuilder.ScalarGauge | synology_exporter/metric_builder.py:24-29 | the gauge for one numeric field belongs to the family, is named with its prefix and the field's key, has the label `dsm` and one sample, the field's value labelled by the device name |
| MetricBuilder.ScalarGauges | synology_exporter/metric_builder.py:19-43 | every scalar gauge comes from a numeric field and every numeric field yields one; each has the label `dsm` and one numeric sample labelled by the device name |
| MetricBuilder.NonNumericDropped | synology_exporter/metric_builder.py:22-23 | a non-numeric field (a version string, say) never yields a gauge |
| MetricBuilder.LookupAll | synology_exporter/metric_builder.py:56 | looking up the identifying keys succeeds exactly when all are present; otherwise it raises KeyError for a missing one |
| MetricBuilder.SamplesOf | synology_exporter/metric_builder.py:55-57 | one sample per record; a failure is a KeyError naming an identifying key or the metric |
| MetricBuilder.SamplesOfSucceeds | synology_exporter/metric_builder.py:55-57 | the inner loop succeeds exactly when every record has the identifying keys and the metric |
| MetricBuilder.SamplesOfValues | synology_exporter/metric_builder.py:55-57 | sample `j` is labelled by the device name and record `j`'s identifying values, and its value is record `j`'s metric |
| MetricBuilder.GaugesOver | synology_exporter/metric_builder.py:47-58 | one gauge per metric, each with the family's help text; any failure is a KeyError |
| MetricBuilder.GaugesOverSucceeds | synology_exporter/metric_builder.py:47-58 | the outer loop succeeds exactly when the inner loop succeeds for every metric |
| MetricBuilder.GaugesOverValue | synology_exporter/metric_builder.py:47-58 | gauge `i` is named with the family's prefix and metric `i`'s key, carries the family's help text and label names, and holds metric `i`'s samples |
| MetricBuilder.ListGauges | synology_exporter/metric_builder.py:45-88 | an empty list raises IndexError; any failure is an IndexError or a KeyError; on success there is one gauge per numeric key of the first record |
| MetricBuilder.ListGaugesSucceeds | synology_exporter/metric_builder.py:45-88 | the list metrics succeed exactly when the list is not empty and every record has the identifying keys and each numeric key of the first record |
| MetricBuilder.ListGaugesOkHasKeys | synology_exporter/metric_builder.py:45-58 | when the list metrics succeed, every record has the identifying keys and each numeric key of the first record |
| MetricBuilder.ListGaugesErrMissesKey | synology_exporter/metric_builder.py:45-58 | when the list metrics fail on a non-empty list, some record lacks an identifying key or a numeric key of the first record |
| MetricBuilder.ListGaugesSamples | synology_exporter/metric_builder.py:45-88 | each list gauge is named after a numeric key of the first record and has one sample per record, labelled by the device and that record's ids, whose value is that record's value |
| MetricBuilder.SectionGauges | synology_exporter/metric_builder.py:19-88 | a failed dump read propagates its error; every gauge built from a section carries the family's help text |
| MetricBuilder.FamilyMetrics | synology_exporter/metric_builder.py:19-88 | a failed dump read propagates its error; every gauge a family yields carries that family's help text |
| MetricBuilder.Chain | synology_exporter/metric_builder.py:98-100 | two generators in sequence succeed exactly when both do, yielding the first's output then the second's; the first error wins |
| MetricBuilder.ReadDump | synology_exporter/metric_builder.py:16 | `read_data_from_file(self._dump_files[c])`: a category without a dump file raises KeyError naming it, a missing file raises FileNotFound, and a read succeeds only on an existing file |
| MetricBuilder.Active | synology_exporter/metric_builder.py:92-102 | `metric_status[c] and get_collect_status(c)`: KeyError when the flag is missing; a disabled category is inactive without any read; active exactly when enabled and collected |
| MetricBuilder.DumpGauges | synology_exporter/metric_builder.py:98-100 | a dump read error propagates; storage succeeds exactly when both the volume and the disk metrics do |
| MetricBuilder.CategoryGauges | synology_exporter/metric_builder.py:98-100 | reading the category's dump file first: a read error propagates |
| MetricBuilder.Part | synology_exporter/metric_builder.py:92-103 | one `if ...: yield from ...` step: a disabled or uncollected category yields nothing, an error in the condition propagates, and an active category yields its families |
| MetricBuilder.Build | synology_exporter/metric_builder.py:90-103 | a build succeeds only if every category has a `metric_status` flag |
| MetricBuilder.BuildMissingFlag | synology_exporter/metric_builder.py:90-103 | when every step before category `c` succeeds and `c` has no `metric_status` flag, the build raises KeyError naming `c` |
| MetricBuilder.OfFamilyAppend | synology_exporter/metric_builder.py:90-103 | picking one family's gauges out of two runs is picking them out of each |
| MetricBuilder.OfFamilyUniform | synology_exporter/metric_builder.py:24-28 | picking a family out of gauges that share one family's help text gives all of them for that family and none for any other |
| MetricBuilder.UniformRanks | synology_exporter/metric_builder.py:24-28 | gauges that share a family's help text all rank as that family |
| MetricBuilder.SortedAppend | synology_exporter/metric_builder.py:90-103 | two runs in family order, the first ranking no later than the second, are in family order together |
| MetricBuilder.RunOfFamily | synology_exporter/metric_builder.py:19-88 | a family's gauges are picked out whole for that family and not at all for another, all rank as that family, and are in family order |
| MetricBuilder.PartFamilies | synology_exporter/metric_builder.py:92-103 | one step of `build` yields nothing unless its category is enabled and collected; otherwise, picking a family out of it gives exactly that family's gauges when the family belongs to the category, and nothing otherwise |
| MetricBuilder.StorageRunSorted | synology_exporter/metric_builder.py:98-100 | volume gauges followed by disk gauges are in family order and rank between volumes and disks |
| MetricBuilder.DumpSorted | synology_exporter/metric_builder.py:92-103 | what a category yields from its dump is in family order and ranks within the category's range |
| MetricBuilder.PartSorted | synology_exporter/metric_builder.py:92-103 | what one step of `build` yields is in family order and ranks within its category's range |
| MetricBuilder.SortedParts | synology_exporter/metric_builder.py:90-103 | the four steps' outputs, each within its category's range, are in family order when joined, and hold only gauges of the five families |
| MetricBuilder.BuildOrdered | synology_exporter/metric_builder.py:90-103 | `build` yields only gauges of the five families, in order: info, stats, volumes, disks, shares |
| MetricBuilder.BuildFamilies | synology_exporter/metric_builder.py:90-103 | within `build`'s output, each family's gauges are exactly what the family yields when its category is enabled and collected, and none otherwise |
| MetricBuilder.DisabledNeverRead | synology_exporter/metric_builder.py:92 | a disabled category's dump file is never read: `build` gives the same outcome whatever that file holds, or without it |
| MetricBuilder.PartUnread | synology_exporter/metric_builder.py:92-103 | no step of `build` reads a disabled category's dump file |
| MetricBuilder.DumpUnread | synology_exporter/metric_builder.py:92-103 | another category's dump reads the same with or without the disabled category's file |
| MetricBuilder.SameDumpSameGauges | synology_exporter/metric_builder.py:92-103 | a step of `build` depends on the files only through what its own dump file reads |
| DataCollector.GetStatus | synology_exporter/data_collector.py:98-100 | the status maps to 1 exactly when it is "normal", and to 0 otherwise |
| DataCollector.SynologyInfo | synology_exporter/data_collector.py:53-63 | the info record has the keys model, ram_mb, serial, temperature, temperature_warning, uptime and version, in that order, each once |
| DataCollector.SynologyUse | synology_exporter/data_collector.py:77-84 | the stats record has the keys cpu_load, mem_use, net_up and net_down, in that order, each once |
| DataCollector.VolumeRecord | synology_exporter/data_collector.py:105-109 | a volume record has the keys id, status and used_prc; it carries the volume id, and its status is always a number |
| DataCollector.DiskRecord | synology_exporter/data_collector.py:115-120 | a disk record has the keys id, name, status and temperature; it carries the disk id, and its status is always a number |
| DataCollector.ShareRecord | synology_exporter/data_collector.py:139-145 | a share record has the keys uuid, name, path, used and recycle_bin, and carries the share uuid |
| DataCollector.Volumes | synology_exporter/data_collector.py:102-110 | one volume record per volume id, in id order |
| DataCollector.Disks | synology_exporter/data_collector.py:112-121 | one disk record per disk id, in id order |
| DataCollector.Shares | synology_exporter/data_collector.py:136-146 | one share record per share uuid, in uuid order |
| DataCollector.GetSynologyVolumes | synology_exporter/data_collector.py:102-110 | the append loop builds exactly one record per volume id, in id order |
| DataCollector.GetSynologyDisks | synology_exporter/data_collector.py:112-121 | the append loop builds exactly one record per disk id, in id order |
| DataCollector.GetSynologyShares | synology_exporter/data_collector.py:136-146 | the append loop builds exactly one record per share uuid, in uuid order |
| DataCollector.Payload | synology_exporter/data_collector.py:31 | the payload's keys are the keys of the subclass's `functions` map, each once |
| DataCollector.Fetch | synology_exporter/data_collector.py:31 | evaluating the `functions` map gives the payload |
| DataCollector.PayloadHasKey | synology_exporter/data_collector.py:65-72 | a key is in the payload exactly when it is a key of `functions` |
| DataCollector.BlankData | synology_exporter/data_collector.py:18 | a poller starts from the one-key record `{"collect_status": 0}` |
| DataCollector.CollectFields | synology_exporter/data_collector.py:38-41 | a successful cycle sets `collect_status` to 1 and `collect_duration` to the duration, in that order, each once |
| DataCollector.Step | synology_exporter/data_collector.py:27-41 | a failed cycle leaves the record as it was; a successful one leaves `collect_status` 1 |
| DataCollector.Replay | synology_exporter/data_collector.py:25-46 | an empty run leaves the record as it was; a run ending in a successful cycle leaves `collect_status` 1 |
| DataCollector.SuccessfulStep | synology_exporter/data_collector.py:29-41 | after a successful cycle, `collect_status` is 1, `collect_duration` is the duration, each `functions` key holds its fresh section, and every other key keeps its old value |
| DataCollector.StepKeys | synology_exporter/data_collector.py:27-41 | a cycle never drops a key of the shared record and never repeats one |
| DataCollector.StaysCollected | synology_exporter/data_collector.py:27-41 | after one successful cycle, every later record says `collect_status` 1, whatever fails afterwards |
| DataCollector.FailuresKeepRecord | synology_exporter/data_collector.py:29-33 | failed cycles change nothing: after a success and then any number of failures, the record is the one that success left |
| DataCollector.KeysPersist | synology_exporter/data_collector.py:25-41 | across any run of cycles, no key of the record ever goes away, and no key is ever repeated |
| DataCollector.DataCollect.constructor | synology_exporter/data_collector.py:12-18 | a new poller's record is `{"collect_status": 0}` |
| DataCollector.DataCollect.Start | synology_exporter/data_collector.py:22-23 | before the loop, the dump file is written with the record as it stands |
| DataCollector.DataCollect.Cycle | synology_exporter/data_collector.py:25-46 | one pass of the loop: the shared record becomes its one-cycle successor and is published to the dump file |
| DataCollector.DataCollect.Collect | synology_exporter/data_collector.py:20-48 | after the initial write and a run of cycles, the record is the run's replay from the old record, and the dump file reads back as it. Every other existing file keeps its contents, the only path added is the dump file, and `<dump>.new` is gone once a cycle has run |
| Aggregator.CollectMany | synology_exporter/utils.py:57-59 | with no device the scrape yields nothing |
| Aggregator.CollectManySucceeds | synology_exporter/utils.py:57-59 | a scrape succeeds exactly when every device's build does |
| Aggregator.ChainAssoc | synology_exporter/utils.py:57-59 | chaining generators is associative |
| Aggregator.CollectManyAppend | synology_exporter/utils.py:57-59 | collecting two lists of builders in turn is collecting their concatenation |
| Aggregator.CollectManyBlock | synology_exporter/utils.py:57-59 | each device's gauges form one contiguous block of the scrape, after the devices before it and before those after it |
| Aggregator.CollectManyFirstError | synology_exporter/utils.py:57-59 | a failed scrape fails with the error of the first device whose build fails |
| Exporter.FreshDumpYieldsNothing | synology_exporter/data_collector.py:18-23 | before a poller's first success, its category is inactive and the scrape yields none of its families |
| Exporter.CollectedDumpExported | synology_exporter/data_collector.py:27-45 | once a poller has succeeded, its enabled category stays active after later failures, and the scrape exports the families built from the last published record |
| Exporter.StorageDump | synology_exporter/data_collector.py:29-41 | after a successful storage cycle the stored record has `collect_status` 1 and that cycle's volume records under `volumes` |
| Exporter.StorageSection | synology_exporter/metric_builder.py:45-58 | after a successful storage cycle, the dump counts as collected and the volume gauges are built from that cycle's volume records |
| Exporter.NoVolumeBreaksScrape | synology_exporter/metric_builder.py:47 | a storage cycle that found no volume makes the volume metrics raise IndexError and fails the device's whole build |
| Exporter.VolumeRecordsUniform | synology_exporter/data_collector.py:102-110 | all volume records have the same keys, so each has the id and every key of the first |
| Exporter.VolumeGaugesSucceed | synology_exporter/metric_builder.py:45-58 | volume records from a cycle that found volumes always yield their gauges |
| Exporter.VolumeGaugeSamplesAt | synology_exporter/metric_builder.py:55-57 | a volume gauge has one sample per volume, in id order, labelled by the device name and the volume id |
| Exporter.VolumeGaugeSamples | synology_exporter/metric_builder.py:55-57 | every volume gauge has one sample per volume, in id order, labelled by the device name and the volume id |
| Exporter.ListGaugeNamed | synology_exporter/metric_builder.py:47-53 | every numeric key of the first record names a list gauge |
| Exporter.VolumeStatusNumeric | synology_exporter/data_collector.py:105-109 | the second key of a volume record is `status`, and its value is always a number |
| Exporter.VolumeStatusGauge | synology_exporter/data_collector.py:107 | the volume status, always a number, always becomes the gauge `synology_volume_status` |
| Exporter.VolumesExported | synology_exporter/metric_builder.py:45-58 | after a storage cycle that found volumes, the volume metrics succeed, include `synology_volume_status`, and label every sample by the device and the volume id |

## Left out

- The threads, the `while True` loop and its `sleep`: `DataCollect.Collect`
  runs a finite sequence of cycles. The interleaving of poller threads and
  scrapes is not modelled. Each scrape reads the files as they stand, and a
  rename is taken as atomic.
- `time.time()`: the collect duration is a parameter of each successful poll.
  Float values are opaque reals. Logging is not modelled.
- The pickle encoding: a file maps to the tuple it decodes to. A dump that
  does not decode to a dict cannot be expressed.
- The SynologyDSM client: its accessors are represented by the values they
  answer. A network or API failure in `update()` or in an accessor is a
  `Raised` poll. Which accessor raised is not modelled, because a raising
  accessor leaves the record unchanged whichever it was.
- The Prometheus client: `GaugeMetricFamily` is a plain `Gauge` value.
  Registration with `REGISTRY`, the HTTP server and the exporter's `Info`
  metric are not modelled.
- FamilyMetrics: its own contract states only the help text. The exact
  gauges are stated by `ScalarGauges`, `ListGaugesSucceeds`,
  `ListGaugesSamples` and `BuildFamilies`. Any section of the wrong shape, that is
  neither a dict for a scalar family nor a list of dicts for a list family,
  ends as TypeError in the model. In Python the exception depends on the
  shape: AttributeError, KeyError, TypeError or IndexError (for example
  TypeError for an int where a list is expected, IndexError at `[0]` for an
  empty string). A list's elements are always dicts in the model, so a list
  of non-dicts is not represented.
- OS errors other than a missing file (permissions, a full disk) are not
  modelled.
- The gauges a generator yields before it raises are not kept. Prometheus
  discards a scrape that raises, so only the outcome of the whole scrape is
  modelled.
- `format_logger`, `start_prometheus_server`, `get_synology_client`,
  `create_dump_path`, `get_config` and the `__main__` bootstrap are not
  modelled. They are configuration and I/O around the core. `Wired` records
  the one fact about the bootstrap that the builder relies on: it gives
  every category a `metric_status` flag.
