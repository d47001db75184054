/** The filesystem as the core sees it, as a value: which paths exist, which
    are regular files, what each directory lists, each path's modification
    time (an opaque ordered value), and what the JSON and metadata files
    decode to. Writes are returned as operations rather than performed. */
module Fs {
  import opened Json
  import opened Metadata
  import opened Text

  /** A metadata file as `Util.load_json` returns it: a dict from item name
      to item metadata, whose keys keep their insertion order. */
  datatype MetadataDoc = MetadataDoc(keys: seq<string>, entries: map<string, ItemMetadata>)
  {
    /** The keys list each entry once, in order. */
    ghost predicate WellFormed() {
      DistinctNames(keys) && forall k :: k in entries <==> k in keys
    }
  }

  datatype FileSystem = FileSystem(
    existing: set<string>,               // os.path.exists
    files: set<string>,                  // os.path.isfile
    listing: map<string, seq<string>>,   // os.listdir, per directory
    mtime: string -> int,                // os.path.getmtime
    documents: map<string, MetadataDoc>, // metadata files that decode
    json: map<string, Value>,            // other JSON files that decode
    bytes: map<string, seq<bv8>>)        // Path.read_bytes
  {
    /** What a real filesystem guarantees: files exist, a directory lists
        each name once. */
    ghost predicate Valid() {
      && files <= existing
      && (forall d :: d in listing ==> d in existing)
      && (forall d :: d in listing ==> DistinctNames(listing[d]))
      && (forall p :: p in documents ==> documents[p].WellFormed())
    }

    /** `os.listdir(d)`. A path without a listing lists nothing here,
        where `os.listdir` on a regular file would raise
        `NotADirectoryError`. */
    function ListDir(d: string): seq<string> {
      if d in listing then listing[d] else []
    }
  }

  predicate DistinctNames(s: seq<string>) {
    forall i, j :: 0 <= i < j < |s| ==> s[i] != s[j]
  }

  /** The item path `Util.join(directory, name)` gives. util/util.py defines
      no `join`, so the path is assumed to be the directory, one "/" and the
      name. */
  function JoinPath(directory: string, name: string): string {
    directory + "/" + name
  }

  /** Writes the core performs. */
  datatype FsOp =
    | Copy(source: string, target: string)          // shutil.copy2
    | WriteMetadata(path: string, doc: MetadataDoc) // Util.save_json of album metadata
    | WriteJson(path: string, value: Value)         // Util.save_json of other data

  /** The filesystem after one write. Modification times are left as they
      were: a write's new timestamp comes from the clock, which is not
      modelled, and the time `copy2` gives a backup copy is read by no
      operation of the core. A metadata write or a copy updates only the
      decoded metadata of its target, and a JSON write only its decoded
      value: raw `bytes` are never updated, so they describe the files as
      they were before the core wrote to them. */
  function Apply(fs: FileSystem, op: FsOp): (r: FileSystem)
    ensures fs.existing <= r.existing && fs.files <= r.files
  {
    match op
    case Copy(src, dst) =>
      fs.(existing := fs.existing + {dst}, files := fs.files + {dst},
          documents := if src in fs.documents then fs.documents[dst := fs.documents[src]] else fs.documents - {dst})
    case WriteMetadata(path, doc) =>
      fs.(existing := fs.existing + {path}, files := fs.files + {path},
          documents := fs.documents[path := doc])
    case WriteJson(path, v) =>
      fs.(existing := fs.existing + {path}, files := fs.files + {path},
          json := fs.json[path := v])
  }

  function ApplyAll(fs: FileSystem, ops: seq<FsOp>): FileSystem
    decreases ops
  {
    if ops == [] then fs else ApplyAll(Apply(fs, ops[0]), ops[1..])
  }

  /** The name of backup number i of a metadata file. */
  function BackupPath(metadataPath: string, i: nat): string {
    metadataPath + ".backup" + DecimalString(i)
  }

  /** A length no path of the set exceeds. */
  ghost function MaxLen(paths: set<string>): (r: nat)
    ensures forall p :: p in paths ==> |p| <= r
  {
    if paths == {} then 0
    else
      var p :| p in paths;
      var rest := MaxLen(paths - {p});
      if |p| > rest then |p| else rest
  }

  /** The least backup number, from `from` on, whose path does not exist. */
  function FirstFreeBackup(metadataPath: string, existing: set<string>, from: nat): (i: nat)
    ensures from <= i && BackupPath(metadataPath, i) !in existing
    ensures forall j :: from <= j < i ==> BackupPath(metadataPath, j) in existing
    decreases Pow10(MaxLen(existing)) - from
  {
    if BackupPath(metadataPath, from) !in existing then from
    else
      TakenBackupIsSmall(existing, metadataPath, from);
      FirstFreeBackup(metadataPath, existing, from + 1)
  }

  /** The writes of `save_metadata`: with `backup` set and an existing
      file, a copy to its first free backup path; then the metadata. */
  function SaveWrites(metadataPath: string, doc: MetadataDoc, existing: set<string>, backup: bool): (r: seq<FsOp>)
    ensures |r| >= 1 && r[|r| - 1] == WriteMetadata(metadataPath, doc)
    ensures |r| == 2 <==> backup && metadataPath in existing
    ensures |r| == 2 ==> r[0].Copy? && r[0].source == metadataPath && BackupPath(metadataPath, 0) != metadataPath && r[0].target !in existing
  {
    (if backup && metadataPath in existing
     then [Copy(metadataPath, BackupPath(metadataPath, FirstFreeBackup(metadataPath, existing, 0)))]
     else [])
    + [WriteMetadata(metadataPath, doc)]
  }

  /** Backup numbers past 10^MaxLen name no existing path, so the search
      for a free backup number ends. */
  lemma TakenBackupIsSmall(paths: set<string>, metadataPath: string, i: nat)
    requires BackupPath(metadataPath, i) in paths
    ensures i < Pow10(MaxLen(paths))
  {
    if i >= Pow10(MaxLen(paths)) {
      DecimalStringLength(i, MaxLen(paths));
    }
  }
}
