/** The dump files through which pollers hand snapshots to the metric builder:
    `write_data_to_file` pickles a 1-tuple holding the record, `read_data_from_file`
    unpickles the tuple and takes its first element, and a poller publishes by
    writing `<dump>.new` and renaming it onto `<dump>`. The file system is a map
    from path to the pickled tuple; the pickle encoding itself is not modelled. */
module DumpStore {
  import opened Snapshot

  type Path = string

  /** Each file holds a pickled tuple of records. */
  type Files = map<Path, seq<Record>>

  /** Every file the exporter writes holds a 1-tuple. */
  ghost predicate WellFormed(files: Files) {
    forall p :: p in files ==> |files[p]| == 1
  }

  /** `read_data_from_file`: open fails on a missing file, `[0]` on an empty tuple. */
  function ReadData(files: Files, path: Path): (r: Result<Record>)
    ensures path !in files ==> r == Err(FileNotFound(path))
    ensures WellFormed(files) ==> (r.Ok? <==> path in files)
  {
    if path !in files then Err(FileNotFound(path))
    else if files[path] == [] then Err(IndexError)
    else Ok(files[path][0])
  }

  /** `write_data_to_file`: mode "wb+" truncates, so the path ends up holding just
      the new record; a read gives it back and no other path changes. */
  function WriteData(files: Files, path: Path, data: Record): (files': Files)
    ensures ReadData(files', path) == Ok(data)
    ensures files'.Keys == files.Keys + {path}
    ensures forall p :: p in files && p != path ==> files'[p] == files[p]
    ensures WellFormed(files) ==> WellFormed(files')
  {
    files[path := [data]]
  }

  /** `os.rename(src, dst)` once `src` exists: `dst` takes over what `src` held and
      `src` is gone; renaming a path onto itself changes nothing. */
  function RenameData(files: Files, src: Path, dst: Path): (files': Files)
    requires src in files
    ensures dst in files' && files'[dst] == files[src]
    ensures src != dst ==> src !in files'
    ensures forall p :: p != src && p != dst ==> (p in files' <==> p in files)
    ensures forall p :: p in files && p != src && p != dst ==> files'[p] == files[p]
    ensures WellFormed(files) ==> WellFormed(files')
  {
    if src == dst then files else (files - {src})[dst := files[src]]
  }

  /** The temporary file a poller writes before renaming it onto its dump file. */
  function NewPath(dump: Path): (p: Path)
    ensures p != dump
  {
    dump + ".new"
  }

  /** What `write_data_to_file(<dump>.new)` followed by `rename(<dump>.new, <dump>)`
      leaves behind: `<dump>` holds the record, `<dump>.new` is gone and no
      other path changes. */
  function Publish(files: Files, dump: Path, data: Record): (files': Files)
    ensures ReadData(files', dump) == Ok(data)
    ensures NewPath(dump) !in files'
    ensures files'.Keys == files.Keys - {NewPath(dump)} + {dump}
    ensures forall p :: p in files && p != dump && p != NewPath(dump) ==> files'[p] == files[p]
    ensures WellFormed(files) ==> WellFormed(files')
  {
    RenameData(WriteData(files, NewPath(dump), data), NewPath(dump), dump)
  }

  /** The file system as the exporter's threads share it. */
  class Store {
    var files: Files

    ghost predicate Valid()
      reads this
    {
      WellFormed(files)
    }

    constructor ()
      ensures Valid() && files == map[]
    {
      files := map[];
    }

    /** `write_data_to_file(dump_file, data)` */
    method WriteDataToFile(path: Path, data: Record)
      requires Valid()
      modifies this
      ensures Valid()
      ensures files == WriteData(old(files), path, data)
    {
      files := files[path := [data]];
    }

    /** `read_data_from_file(dump_file)`: fails exactly when the file was never written. */
    method ReadDataFromFile(path: Path) returns (r: Result<Record>)
      requires Valid()
      ensures r == ReadData(files, path)
      ensures r.Ok? <==> path in files
      ensures path in files ==> r.value == files[path][0]
    {
      if path !in files {
        r := Err(FileNotFound(path));
      } else {
        r := Ok(files[path][0]);
      }
    }

    /** `os.rename(src, dst)`, which fails when `src` does not exist. */
    method Rename(src: Path, dst: Path) returns (r: Result<()>)
      requires Valid()
      modifies this
      ensures Valid()
      ensures r.Ok? <==> src in old(files)
      ensures r.Err? ==> r.error == FileNotFound(src) && files == old(files)
      ensures r.Ok? ==> files == RenameData(old(files), src, dst)
    {
      if src !in files {
        r := Err(FileNotFound(src));
      } else {
        if src != dst {
          files := (files - {src})[dst := files[src]];
        }
        r := Ok(());
      }
    }
  }
}
