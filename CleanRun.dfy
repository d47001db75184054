/** What the clean run of screens/metadata/metadata_screen.py promises,
    proved about `CleanUpTo`: every album ends as `clean_metadata` leaves
    it, ordered by the modification times the run started with, and a
    second run changes no album. */
module CleanRun {
  import opened Fs
  import opened Albums
  import opened MetadataOptions

  /** The album data a clean leaves. */
  function CleanedData(d: AlbumData, mtime: string -> int): AlbumData {
    var c := Clean(d.items, d.metadata, mtime);
    AlbumData(c.items, c.keys, c.metadata)
  }

  /** Writes leave modification times as they were. */
  lemma {:induction false} ApplyAllKeepsMtime(fs: FileSystem, ops: seq<FsOp>)
    ensures ApplyAll(fs, ops).mtime == fs.mtime
    decreases ops
  {
    if ops != [] {
      ApplyAllKeepsMtime(Apply(fs, ops[0]), ops[1..]);
    }
  }

  /** One album of the clean run is cleaned with the modification times
      it starts from, and its save changes no modification time. */
  lemma CleanAlbumEffect(fs: FileSystem, d: AlbumData, metadataPath: string)
    ensures var r := CleanAlbum(fs, d, metadataPath);
      r.fs.mtime == fs.mtime && r.albums == [CleanedData(d, fs.mtime)]
  {
    var c := Clean(d.items, d.metadata, fs.mtime);
    ApplyAllKeepsMtime(fs, SaveWrites(metadataPath, MetadataDoc(c.keys, c.metadata), fs.existing, true));
  }

  /** The clean run over the first n albums has cleaned each of them
      with the modification times of fs, and left those times as they
      were. */
  ghost predicate CleanedWith(fs: FileSystem, inputs: seq<AlbumData>, metadataPaths: seq<string>, n: nat)
    requires n <= |inputs| == |metadataPaths|
  {
    var r := CleanUpTo(fs, inputs, metadataPaths, n);
    && r.fs.mtime == fs.mtime
    && forall k :: 0 <= k < n ==> r.albums[k] == CleanedData(inputs[k], fs.mtime)
  }

  /** Album n - 1 of the clean run extends `CleanedWith` by one album. */
  lemma CleanAlbumAtEffect(fs: FileSystem, inputs: seq<AlbumData>, metadataPaths: seq<string>, n: nat)
    requires 0 < n <= |inputs| == |metadataPaths|
    requires CleanedWith(fs, inputs, metadataPaths, n - 1)
    ensures CleanedWith(fs, inputs, metadataPaths, n)
  {
    var before := CleanUpTo(fs, inputs, metadataPaths, n - 1);
    var next := CleanAlbumAt(fs, inputs, metadataPaths, n - 1);
    CleanAlbumEffect(before.fs, inputs[n - 1], metadataPaths[n - 1]);
    var r := CleanUpTo(fs, inputs, metadataPaths, n);
    assert r == CleanResult(next.fs, before.albums + next.albums);
    forall k | 0 <= k < n ensures r.albums[k] == CleanedData(inputs[k], fs.mtime) {
      if k < n - 1 {
        assert r.albums[k] == before.albums[k];
      }
    }
  }

  /** The clean run over the first n albums cleans each of them with the
      modification times it started with, and its saves change no
      modification time. */
  lemma {:induction false} CleanUpToEffect(fs: FileSystem, inputs: seq<AlbumData>, metadataPaths: seq<string>, n: nat)
    requires n <= |inputs| == |metadataPaths|
    ensures CleanedWith(fs, inputs, metadataPaths, n)
  {
    if n > 0 {
      CleanUpToEffect(fs, inputs, metadataPaths, n - 1);
      CleanAlbumAtEffect(fs, inputs, metadataPaths, n);
    }
  }

  /** A second clean run, on the albums and filesystem the first one
      leaves, changes no album. */
  lemma CleanRunIsIdempotent(fs: FileSystem, inputs: seq<AlbumData>, metadataPaths: seq<string>)
    requires |inputs| == |metadataPaths|
    ensures var r := CleanUpTo(fs, inputs, metadataPaths, |inputs|);
      CleanUpTo(r.fs, r.albums, metadataPaths, |inputs|).albums == r.albums
  {
    var n := |inputs|;
    var r := CleanUpTo(fs, inputs, metadataPaths, n);
    CleanUpToEffect(fs, inputs, metadataPaths, n);
    CleanUpToEffect(r.fs, r.albums, metadataPaths, n);
    var again := CleanUpTo(r.fs, r.albums, metadataPaths, n);
    forall k | 0 <= k < n ensures again.albums[k] == r.albums[k] {
      CleanIsIdempotent(inputs[k].items, inputs[k].metadata, fs.mtime);
    }
  }

  /** The clean run over the albums of a screen: every album keeps its
      items, newest first, and keeps the metadata of exactly those of its
      items that had some, unchanged. */
  lemma ScreenCleanEffect(screen: MetadataScreen, fs: FileSystem)
    requires screen.Valid()
    ensures var r := screen.CleanOutcome(fs);
      var inputs := AlbumsData(screen.albums);
      forall k :: 0 <= k < |inputs| ==>
        && multiset(r.albums[k].items) == multiset(inputs[k].items)
        && NewestFirst(r.albums[k].items, fs.mtime)
        && (forall key :: key in r.albums[k].metadata <==> key in inputs[k].metadata && key in Names(inputs[k].items))
        && (forall key :: key in r.albums[k].metadata ==> r.albums[k].metadata[key] == inputs[k].metadata[key])
  {
    var inputs := AlbumsData(screen.albums);
    CleanUpToEffect(fs, inputs, MetadataPaths(screen.albums), |inputs|);
    forall k | 0 <= k < |inputs| ensures NewestFirst(screen.CleanOutcome(fs).albums[k].items, fs.mtime) {
      SortIsNewestFirst(inputs[k].items, fs.mtime);
    }
  }
}
