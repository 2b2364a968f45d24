/** The pollers: `DataCollect.collect`, which keeps one record per poller and
    republishes it after every cycle, and the record builders of its four
    subclasses. The SynologyDSM client is represented by the values its
    accessors return after `update()`; a cycle in which `update()` or any
    accessor raises is a `Raised` poll. */
module DataCollector {
  import opened Snapshot
  import opened DumpStore

  /** A value a dict can be keyed by: what the status accessors return. */
  type Scalar = v: Value | !v.Dict? && !v.List? witness Int(0)

  /** `DataStorageCollect.get_status`: `{"normal": 1}.get(status, 0)`. */
  function GetStatus(status: Scalar): (r: Value)
    ensures r == Int(1) <==> status == Str("normal")
    ensures r == Int(0) <==> status != Str("normal")
  {
    if status == Str("normal") then Int(1) else Int(0)
  }

  /** What `client.information` answers. */
  datatype InformationReadings = InformationReadings(
    model: Value, ram: Value, serial: Value, temperature: Value,
    temperatureWarn: Value, uptime: Value, versionString: Value)

  /** What `client.utilisation` answers. */
  datatype UtilisationReadings = UtilisationReadings(
    cpuTotalLoad: Value, memoryRealUsage: Value, networkUp: Value, networkDown: Value)

  /** What `client.storage` answers: the id lists and the per-id accessors. */
  datatype StorageReadings = StorageReadings(
    volumesIds: seq<Value>, volumeStatus: Value -> Scalar, volumePercentageUsed: Value -> Value,
    disksIds: seq<Value>, diskName: Value -> Value, diskStatus: Value -> Scalar, diskTemp: Value -> Value)

  /** What `client.share` answers: the uuid list and the per-uuid accessors. */
  datatype ShareReadings = ShareReadings(
    sharesUuids: seq<Value>, shareName: Value -> Value, sharePath: Value -> Value,
    shareSize: Value -> Value, shareRecycleBin: Value -> Value)

  /** The API object a subclass's `run` hands to `collect`, once it has answered. */
  datatype Api =
    | InfoApi(information: InformationReadings)
    | StatApi(utilisation: UtilisationReadings)
    | StorageApi(storage: StorageReadings)
    | ShareApi(share: ShareReadings)

  function CategoryOf(api: Api): Category {
    match api
    case InfoApi(_) => Info
    case StatApi(_) => Stat
    case StorageApi(_) => Storage
    case ShareApi(_) => Share
  }

  /** `get_synology_info` */
  function SynologyInfo(api: InformationReadings): (r: Record)
    ensures Keys(r) == ["model", "ram_mb", "serial", "temperature", "temperature_warning", "uptime", "version"]
    ensures DistinctKeys(r)
  {
    [Field("model", api.model), Field("ram_mb", api.ram), Field("serial", api.serial),
     Field("temperature", api.temperature), Field("temperature_warning", api.temperatureWarn),
     Field("uptime", api.uptime), Field("version", api.versionString)]
  }

  /** `get_synology_use` */
  function SynologyUse(api: UtilisationReadings): (r: Record)
    ensures Keys(r) == ["cpu_load", "mem_use", "net_up", "net_down"]
    ensures DistinctKeys(r)
  {
    [Field("cpu_load", api.cpuTotalLoad), Field("mem_use", api.memoryRealUsage),
     Field("net_up", api.networkUp), Field("net_down", api.networkDown)]
  }

  /** The dict `get_synology_volumes` appends for one volume id. Its status is
      always a number, so every volume list yields a status gauge. */
  function VolumeRecord(api: StorageReadings, id: Value): (r: Record)
    ensures Keys(r) == ["id", "status", "used_prc"] && DistinctKeys(r)
    ensures Get(r, "id") == Some(id)
    ensures Get(r, "status").Some? && IsNumeric(Get(r, "status").value)
  {
    [Field("id", id), Field("status", GetStatus(api.volumeStatus(id))),
     Field("used_prc", api.volumePercentageUsed(id))]
  }

  /** The dict `get_synology_disks` appends for one disk id. */
  function DiskRecord(api: StorageReadings, id: Value): (r: Record)
    ensures Keys(r) == ["id", "name", "status", "temperature"] && DistinctKeys(r)
    ensures Get(r, "id") == Some(id)
    ensures Get(r, "status").Some? && IsNumeric(Get(r, "status").value)
  {
    var r := [Field("id", id), Field("name", api.diskName(id)),
              Field("status", GetStatus(api.diskStatus(id))), Field("temperature", api.diskTemp(id))];
    assert r[1..][1..] == r[2..];
    assert Get(r[2..], "status") == Some(r[2].value);
    r
  }

  /** The dict `get_synology_shares` appends for one share uuid. */
  function ShareRecord(api: ShareReadings, uuid: Value): (r: Record)
    ensures Keys(r) == ["uuid", "name", "path", "used", "recycle_bin"] && DistinctKeys(r)
    ensures Get(r, "uuid") == Some(uuid)
  {
    [Field("uuid", uuid), Field("name", api.shareName(uuid)), Field("path", api.sharePath(uuid)),
     Field("used", api.shareSize(uuid)), Field("recycle_bin", api.shareRecycleBin(uuid))]
  }

  /** One volume record per id, in id order. */
  function Volumes(api: StorageReadings): (vs: seq<Record>)
    ensures |vs| == |api.volumesIds|
    ensures forall i :: 0 <= i < |vs| ==>
      Keys(vs[i]) == ["id", "status", "used_prc"] && Get(vs[i], "id") == Some(api.volumesIds[i])
  {
    seq(|api.volumesIds|, i requires 0 <= i < |api.volumesIds| => VolumeRecord(api, api.volumesIds[i]))
  }

  /** One disk record per id, in id order. */
  function Disks(api: StorageReadings): (ds: seq<Record>)
    ensures |ds| == |api.disksIds|
    ensures forall i :: 0 <= i < |ds| ==>
      Keys(ds[i]) == ["id", "name", "status", "temperature"] && Get(ds[i], "id") == Some(api.disksIds[i])
  {
    seq(|api.disksIds|, i requires 0 <= i < |api.disksIds| => DiskRecord(api, api.disksIds[i]))
  }

  /** One share record per uuid, in uuid order. */
  function Shares(api: ShareReadings): (ss: seq<Record>)
    ensures |ss| == |api.sharesUuids|
    ensures forall i :: 0 <= i < |ss| ==>
      Keys(ss[i]) == ["uuid", "name", "path", "used", "recycle_bin"] && Get(ss[i], "uuid") == Some(api.sharesUuids[i])
  {
    seq(|api.sharesUuids|, i requires 0 <= i < |api.sharesUuids| => ShareRecord(api, api.sharesUuids[i]))
  }

  /** `get_synology_volumes`: appends one record per volume id. */
  method GetSynologyVolumes(api: StorageReadings) returns (volumes: seq<Record>)
    ensures volumes == Volumes(api)
  {
    volumes := [];
    for i := 0 to |api.volumesIds|
      invariant volumes == Volumes(api)[..i]
    {
      volumes := volumes + [VolumeRecord(api, api.volumesIds[i])];
    }
  }

  /** `get_synology_disks`: appends one record per disk id. */
  method GetSynologyDisks(api: StorageReadings) returns (disks: seq<Record>)
    ensures disks == Disks(api)
  {
    disks := [];
    for i := 0 to |api.disksIds|
      invariant disks == Disks(api)[..i]
    {
      disks := disks + [DiskRecord(api, api.disksIds[i])];
    }
  }

  /** `get_synology_shares`: appends one record per share uuid. */
  method GetSynologyShares(api: ShareReadings) returns (shares: seq<Record>)
    ensures shares == Shares(api)
  {
    shares := [];
    for i := 0 to |api.sharesUuids|
      invariant shares == Shares(api)[..i]
    {
      shares := shares + [ShareRecord(api, api.sharesUuids[i])];
    }
  }

  /** The keys of each subclass's `functions` map. */
  function PayloadKeys(c: Category): seq<string> {
    match c
    case Info => ["info"]
    case Stat => ["stats"]
    case Storage => ["volumes", "disks"]
    case Share => ["shares"]
  }

  /** `{k: f() for k, f in functions.items()}` for the subclass whose API answered. */
  function Payload(api: Api): (p: Record)
    ensures Keys(p) == PayloadKeys(CategoryOf(api)) && DistinctKeys(p)
  {
    match api
    case InfoApi(a) => [Field("info", Dict(SynologyInfo(a)))]
    case StatApi(a) => [Field("stats", Dict(SynologyUse(a)))]
    case StorageApi(a) => [Field("volumes", List(Volumes(a))), Field("disks", List(Disks(a)))]
    case ShareApi(a) => [Field("shares", List(Shares(a)))]
  }

  /** Evaluates the `functions` map, calling each record builder. */
  method Fetch(api: Api) returns (p: Record)
    ensures p == Payload(api)
  {
    match api
    case InfoApi(a) =>
      p := [Field("info", Dict(SynologyInfo(a)))];
    case StatApi(a) =>
      p := [Field("stats", Dict(SynologyUse(a)))];
    case StorageApi(a) =>
      var volumes := GetSynologyVolumes(a);
      var disks := GetSynologyDisks(a);
      p := [Field("volumes", List(volumes)), Field("disks", List(disks))];
    case ShareApi(a) =>
      var shares := GetSynologyShares(a);
      p := [Field("shares", List(shares))];
  }

  /** The record a poller starts from, `{"collect_status": 0}`. */
  function BlankData(): (r: Record)
    ensures Keys(r) == ["collect_status"] && Get(r, "collect_status") == Some(Int(0))
  {
    [Field("collect_status", Int(0))]
  }

  /** The outcome of one cycle's API calls: `update()` or an accessor raised, or all
      answered, taking `duration` (an opaque number). */
  datatype Poll = Raised | Answered(api: Api, duration: real)

  /** The fields merged after a successful cycle. */
  function CollectFields(duration: real): (r: Record)
    ensures Keys(r) == ["collect_status", "collect_duration"] && DistinctKeys(r)
    ensures Get(r, "collect_status") == Some(Int(1)) && Get(r, "collect_duration") == Some(Num(duration))
  {
    [Field("collect_status", Int(1)), Field("collect_duration", Num(duration))]
  }

  /** The shared record after one cycle: a success merges the payload, then
      `collect_status` 1 and the duration, into it; a failure leaves it as it was,
      since the payload dict is built before `update` is called. */
  function Step(data: Record, poll: Poll): (r: Record)
    ensures poll.Raised? ==> r == data
    ensures poll.Answered? ==> Get(r, "collect_status") == Some(Int(1))
  {
    match poll
    case Raised => data
    case Answered(api, duration) =>
      var mid := Update(data, Payload(api));
      UpdateGet(mid, CollectFields(duration), "collect_status");
      Update(mid, CollectFields(duration))
  }

  /** The shared record after a run of cycles. */
  function Replay(data: Record, polls: seq<Poll>): (r: Record)
    ensures polls == [] ==> r == data
    ensures polls != [] && polls[|polls| - 1].Answered? ==> Get(r, "collect_status") == Some(Int(1))
    decreases |polls|
  {
    if polls == [] then data
    else
      Step(Replay(data, polls[..|polls| - 1]), polls[|polls| - 1])
  }

  /** A key is in the payload exactly when it is a key of `functions`. */
  lemma PayloadHasKey(api: Api, k: string)
    ensures HasKey(Payload(api), k) <==> k in PayloadKeys(CategoryOf(api))
  {
    var p := Payload(api);
    if HasKey(p, k) {
      var i :| 0 <= i < |p| && p[i].key == k;
      assert Keys(p)[i] == k;
    }
  }

  /** After a successful cycle the record has `collect_status` 1, the duration,
      the payload under each key of `functions`, and under every other key what
      it had before. */
  lemma SuccessfulStep(data: Record, api: Api, duration: real, k: string)
    ensures Get(Step(data, Answered(api, duration)), k) ==
      if k == "collect_status" then Some(Int(1))
      else if k == "collect_duration" then Some(Num(duration))
      else if k in PayloadKeys(CategoryOf(api)) then Get(Payload(api), k)
      else Get(data, k)
    ensures k in PayloadKeys(CategoryOf(api)) ==> Get(Payload(api), k).Some?
  {
    var p := Payload(api);
    var mid := Update(data, p);
    var fs := CollectFields(duration);
    assert fs[0].key == "collect_status" && fs[1].key == "collect_duration";
    assert DistinctKeys(fs);
    UpdateGet(mid, fs, k);
    PayloadHasKey(api, k);
    if k != "collect_status" && k != "collect_duration" {
      assert !HasKey(fs, k);
      UpdateGet(data, p, k);
    } else {
      assert HasKey(fs, k);
    }
  }

  /** A cycle keeps every key of the record, and keeps it free of repeated keys. */
  lemma StepKeys(data: Record, poll: Poll)
    ensures Keys(data) <= Keys(Step(data, poll))
    ensures DistinctKeys(data) ==> DistinctKeys(Step(data, poll))
  {
    if poll.Answered? {
      UpdateKeys(data, Payload(poll.api));
      UpdateKeys(Update(data, Payload(poll.api)), CollectFields(poll.duration));
    }
  }

  /** Once a cycle has succeeded, the record says `collect_status` 1 for good:
      a later failure republishes it unchanged. */
  lemma {:induction false} StaysCollected(data: Record, polls: seq<Poll>, i: int)
    requires 0 <= i < |polls| && polls[i].Answered?
    ensures Get(Replay(data, polls), "collect_status") == Some(Int(1))
    decreases |polls|
  {
    var n := |polls| - 1;
    if i < n {
      StaysCollected(data, polls[..n], i);
    }
  }

  /** Failed cycles change nothing: the record after a success followed by any
      number of failures is the record that success left, payload included. */
  lemma {:induction false} FailuresKeepRecord(data: Record, polls: seq<Poll>, k: int)
    requires 0 <= k <= |polls|
    requires forall j :: k <= j < |polls| ==> polls[j].Raised?
    ensures Replay(data, polls) == Replay(data, polls[..k])
    decreases |polls|
  {
    if k < |polls| {
      var n := |polls| - 1;
      var init := polls[..n];
      assert init[..k] == polls[..k];
      assert forall j :: k <= j < n ==> init[j] == polls[j];
      assert polls[n].Raised?;
      FailuresKeepRecord(data, init, k);
    } else {
      assert polls[..k] == polls;
    }
  }

  /** Keys accumulate across cycles: no key of the record ever goes away, and a
      record without repeated keys stays that way. */
  lemma {:induction false} KeysPersist(data: Record, polls: seq<Poll>)
    ensures Keys(data) <= Keys(Replay(data, polls))
    ensures DistinctKeys(data) ==> DistinctKeys(Replay(data, polls))
    decreases |polls|
  {
    if polls != [] {
      var n := |polls| - 1;
      var prev := Replay(data, polls[..n]);
      KeysPersist(data, polls[..n]);
      StepKeys(prev, polls[n]);
    }
  }

  /** The paths after a cycle's publication: `<dump>` is there and `<dump>.new`
      is not, whatever came before. */
  lemma PublishedKeys(start: set<Path>, before: set<Path>, dump: Path, first: bool)
    requires before == (start + {dump}) - (if first then {} else {NewPath(dump)})
    ensures before - {NewPath(dump)} + {dump} == (start + {dump}) - {NewPath(dump)}
  {
  }

  /** A `DataCollect` thread, reduced to what one of its cycles does: it owns the
      record `_blank_data` and publishes it to its dump file in `store`. */
  class DataCollect {
    const name: string
    const category: Category
    const dumpFile: Path
    const store: Store
    var blankData: Record

    ghost predicate Valid()
      reads this, store
    {
      store.Valid() && DistinctKeys(blankData)
    }

    constructor (name: string, category: Category, dumpFile: Path, store: Store)
      requires store.Valid()
      ensures Valid()
      ensures this.name == name && this.category == category
      ensures this.dumpFile == dumpFile && this.store == store
      ensures blankData == BlankData()
    {
      this.name := name;
      this.category := category;
      this.dumpFile := dumpFile;
      this.store := store;
      blankData := BlankData();
    }

    /** The write before the loop: the dump file holds the record, which is
        `{"collect_status": 0}` on a fresh poller, before any API call. */
    method Start()
      requires Valid()
      modifies store
      ensures Valid() && blankData == old(blankData)
      ensures store.files == WriteData(old(store.files), dumpFile, blankData)
    {
      store.WriteDataToFile(dumpFile, blankData);
    }

    /** One pass of the `while True` loop, without the sleep: merge the answers
        into the shared record if the API answered, then write `<dump>.new` and
        rename it onto `<dump>`. */
    method Cycle(poll: Poll)
      requires Valid()
      requires poll.Answered? ==> CategoryOf(poll.api) == category
      modifies this, store
      ensures Valid()
      ensures blankData == Step(old(blankData), poll)
      ensures store.files == Publish(old(store.files), dumpFile, blankData)
    {
      if poll.Answered? {
        var payload := Fetch(poll.api);
        StepKeys(blankData, poll);
        blankData := Update(blankData, payload);
        blankData := Update(blankData, CollectFields(poll.duration));
      }
      var newDump := NewPath(dumpFile);
      store.WriteDataToFile(newDump, blankData);
      var moved := store.Rename(newDump, dumpFile);
      assert moved.Ok?;
    }

    /** `collect`: the initial write, then one cycle per poll, in order. */
    method Collect(polls: seq<Poll>)
      requires Valid()
      requires forall i :: 0 <= i < |polls| && polls[i].Answered? ==> CategoryOf(polls[i].api) == category
      modifies this, store
      ensures Valid()
      ensures blankData == Replay(old(blankData), polls)
      ensures ReadData(store.files, dumpFile) == Ok(blankData)
      ensures forall p :: p in old(store.files) && p != dumpFile && p != NewPath(dumpFile) ==>
        p in store.files && store.files[p] == old(store.files)[p]
      ensures store.files.Keys ==
        (old(store.files).Keys + {dumpFile}) - (if polls == [] then {} else {NewPath(dumpFile)})
    {
      Start();
      for i := 0 to |polls|
        invariant Valid()
        invariant blankData == Replay(old(blankData), polls[..i])
        invariant ReadData(store.files, dumpFile) == Ok(blankData)
        invariant forall p :: p in old(store.files) && p != dumpFile && p != NewPath(dumpFile) ==>
          p in store.files && store.files[p] == old(store.files)[p]
        invariant store.files.Keys ==
          (old(store.files).Keys + {dumpFile}) - (if i == 0 then {} else {NewPath(dumpFile)})
      {
        assert polls[..i + 1][..i] == polls[..i];
        ghost var before := store.files.Keys;
        Cycle(polls[i]);
        PublishedKeys(old(store.files).Keys, before, dumpFile, i == 0);
      }
      assert polls[..|polls|] == polls;
    }
  }
}
