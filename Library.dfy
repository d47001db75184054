/** The link list and album loading of util/library.py: a link pairs an
    album folder with its metadata file; the links are saved to and loaded
    from a JSON file as a list of records, and albums are built from the
    links in order. */
module Library {
  import opened Json
  import opened Text
  import opened Fs
  import opened Albums

  /** `Filter.images`, `Filter.videos` and `Filter.all`. */
  const ImageSuffixes: seq<string> := [".png", ".jpg", ".jpeg", ".webp", ".bmp", ".gif", ".heic", ".heif", ".avif"]
  const VideoSuffixes: seq<string> := [".mp4", ".mkv", ".mov", ".webm", ".3gp"]
  const AllSuffixes: seq<string> := ImageSuffixes + VideoSuffixes

  /** `Filter.all` lists the image suffixes, then the video suffixes, and
      every suffix is already lower case, so each can match the lowered
      file name `load_items` compares it with. */
  lemma FilterAllIsImagesThenVideos()
    ensures |AllSuffixes| == |ImageSuffixes| + |VideoSuffixes|
    ensures AllSuffixes[..|ImageSuffixes|] == ImageSuffixes && AllSuffixes[|ImageSuffixes|..] == VideoSuffixes
    ensures forall f :: f in AllSuffixes ==> Lower(f) == f
  {
    forall f | f in AllSuffixes
      ensures Lower(f) == f
    {
      assert forall i :: 0 <= i < |f| ==> !('A' <= f[i] <= 'Z');
    }
  }

  /** A name passes `Filter.all` exactly when it passes the image or the
      video filter. */
  lemma FilterAllIsUnion(name: string)
    ensures MatchesFilter(name, AllSuffixes) <==> MatchesFilter(name, ImageSuffixes) || MatchesFilter(name, VideoSuffixes)
  {
    if MatchesFilter(name, AllSuffixes) {
      var f :| f in AllSuffixes && EndsWith(Lower(name), f);
      assert f in ImageSuffixes || f in VideoSuffixes;
    }
    if MatchesFilter(name, ImageSuffixes) {
      var f :| f in ImageSuffixes && EndsWith(Lower(name), f);
      assert f in AllSuffixes;
    }
    if MatchesFilter(name, VideoSuffixes) {
      var f :| f in VideoSuffixes && EndsWith(Lower(name), f);
      assert f in AllSuffixes;
    }
  }

  /** A link; the settings screens edit its two paths in place. */
  class Link {
    var albumPath: string
    var metadataPath: string

    constructor (albumPath: string, metadataPath: string)
      ensures this.albumPath == albumPath && this.metadataPath == metadataPath
    {
      this.albumPath := albumPath;
      this.metadataPath := metadataPath;
    }

    /** `isValid`: both paths exist. */
    predicate IsValid(fs: FileSystem)
      reads this
    {
      albumPath in fs.existing && metadataPath in fs.existing
    }
  }

  /** What the links file holds for one link. */
  datatype LinkRecord = LinkRecord(albumPath: string, metadataPath: string)

  const AlbumPathKey: string := "album_path"
  const MetadataPathKey: string := "metadata_path"

  /** The records of a list of links, in order. */
  function Records(links: seq<Link>): (r: seq<LinkRecord>)
    reads links
    ensures |r| == |links|
    ensures forall i :: 0 <= i < |links| ==> r[i] == LinkRecord(links[i].albumPath, links[i].metadataPath)
  {
    seq(|links|, i reads links requires 0 <= i < |links| => LinkRecord(links[i].albumPath, links[i].metadataPath))
  }

  /** The dict `save_links` writes for one link. */
  function RecordValue(record: LinkRecord): Value {
    JObject(map[AlbumPathKey := JStr(record.albumPath), MetadataPathKey := JStr(record.metadataPath)])
  }

  /** The list `save_links` writes: one dict per link, in order. */
  function SaveRecords(records: seq<LinkRecord>): (r: Value)
    ensures r.JList? && |r.items| == |records|
    ensures forall i :: 0 <= i < |records| ==> r.items[i].JObject? && r.items[i].fields.Keys == {AlbumPathKey, MetadataPathKey}
  {
    JList(seq(|records|, i requires 0 <= i < |records| => RecordValue(records[i])))
  }

  /** `Link(item["album_path"], item["metadata_path"])` for one entry: an
      entry that is not a dict or lacks either key raises. A link holds
      two string paths, so an entry whose path values are not strings is
      refused too, where Python would build a link from them. */
  function ParseRecord(item: Value): (r: Option<LinkRecord>)
    ensures r.Some? <==> item.JObject? && AlbumPathKey in item.fields && MetadataPathKey in item.fields
                         && item.fields[AlbumPathKey].JStr? && item.fields[MetadataPathKey].JStr?
    ensures r.Some? ==> r.value.albumPath == item.fields[AlbumPathKey].s && r.value.metadataPath == item.fields[MetadataPathKey].s
  {
    if item.JObject? && AlbumPathKey in item.fields && MetadataPathKey in item.fields
       && item.fields[AlbumPathKey].JStr? && item.fields[MetadataPathKey].JStr?
    then Some(LinkRecord(item.fields[AlbumPathKey].s, item.fields[MetadataPathKey].s))
    else None
  }

  /** The comprehension over a list: every entry must parse. */
  function ParseRecords(items: seq<Value>): (r: Option<seq<LinkRecord>>)
    ensures r.Some? <==> forall i :: 0 <= i < |items| ==> ParseRecord(items[i]).Some?
    ensures r.Some? ==> |r.value| == |items| && forall i :: 0 <= i < |items| ==> Some(r.value[i]) == ParseRecord(items[i])
  {
    if items == [] then Some([])
    else
      match ParseRecord(items[0])
      case None => None
      case Some(first) =>
        match ParseRecords(items[1..])
        case None => None
        case Some(rest) => Some([first] + rest)
  }

  /** `load_links` on what `Util.load_json` returned. Iterating a dict or a
      string yields keys or characters, which cannot be indexed by a string,
      so only an empty dict or an empty string gives no links; a number,
      a boolean or null is not iterable. */
  function LoadRecords(save: Value): (r: Option<seq<LinkRecord>>)
    ensures save.JList? ==> r == ParseRecords(save.items)
    ensures save.JObject? ==> (r.Some? <==> save.fields == map[]) && (r.Some? ==> r.value == [])
    ensures save.JStr? ==> (r.Some? <==> save.s == []) && (r.Some? ==> r.value == [])
    ensures save.JNull? || save.JBool? || save.JNum? ==> r.None?
  {
    match save
    case JList(items) => ParseRecords(items)
    case JObject(fields) => if fields == map[] then Some([]) else None
    case JStr(s) => if s == [] then Some([]) else None
    case _ => None
  }

  /** Loading what was saved gives back the same records in the same order. */
  lemma {:induction false} LoadSavedRecords(records: seq<LinkRecord>)
    ensures LoadRecords(SaveRecords(records)) == Some(records)
  {
    ParsesSaved(records);
  }

  lemma ParsesSaved(records: seq<LinkRecord>)
    ensures ParseRecords(SaveRecords(records).items) == Some(records)
  {
    var items := SaveRecords(records).items;
    forall i | 0 <= i < |items| ensures ParseRecord(items[i]) == Some(records[i]) {
      assert items[i] == RecordValue(records[i]);
    }
    assert ParseRecords(items).value == records;
  }

  /** `list.remove(x)`: drop the first element identical to x. */
  function RemoveFirst<T(==)>(s: seq<T>, x: T): (r: seq<T>)
    ensures x !in s ==> r == s
  {
    if s == [] then []
    else if s[0] == x then s[1..]
    else [s[0]] + RemoveFirst(s[1..], x)
  }

  /** Where the first occurrence of x is. */
  function FirstOccurrence<T(==)>(s: seq<T>, x: T): (i: nat)
    requires x in s
    ensures i < |s| && s[i] == x && x !in s[..i]
  {
    if s[0] == x then 0 else 1 + FirstOccurrence(s[1..], x)
  }

  /** `remove` takes out exactly the first occurrence: what comes before it
      and what comes after it stay, in order. */
  lemma {:induction false} RemoveFirstShape<T>(s: seq<T>, x: T)
    requires x in s
    ensures RemoveFirst(s, x) == s[..FirstOccurrence(s, x)] + s[FirstOccurrence(s, x) + 1..]
  {
    if s[0] != x {
      var i := FirstOccurrence(s, x);
      RemoveFirstShape(s[1..], x);
      assert s[..i] == [s[0]] + s[1..][..i - 1];
      assert s[i + 1..] == s[1..][i..];
    }
  }

  /** One copy of x is gone and nothing else. */
  lemma RemoveFirstCount<T>(s: seq<T>, x: T)
    requires x in s
    ensures multiset(RemoveFirst(s, x)) == multiset(s) - multiset{x}
  {
    var i := FirstOccurrence(s, x);
    RemoveFirstShape(s, x);
    assert s == s[..i] + [x] + s[i + 1..];
  }

  /** The class-level state of `Library`: the links file path, the links
      and the albums built from them. */
  class Library {
    const linksPath: string
    var links: seq<Link>
    var albums: seq<Album>

    constructor (linksPath: string)
      ensures this.linksPath == linksPath && links == [] && albums == []
    {
      this.linksPath := linksPath;
      links := [];
      albums := [];
    }

    /** What `Util.load_json` gives for the links file: `{}` when it is
        missing or does not decode. */
    function SavedLinks(fs: FileSystem): Value {
      if linksPath in fs.json then fs.json[linksPath] else JObject(map[])
    }

    /** `load_links`: replace the links by fresh ones built from the saved
        records; a save that does not parse raises and keeps the links. */
    method LoadLinks(fs: FileSystem) returns (raised: bool)
      modifies this`links
      ensures raised <==> LoadRecords(SavedLinks(fs)).None?
      ensures raised ==> links == old(links)
      ensures !raised ==> Records(links) == LoadRecords(SavedLinks(fs)).value
      ensures forall i :: 0 <= i < |links| && !raised ==> fresh(links[i])
    {
      var parsed := LoadRecords(SavedLinks(fs));
      if parsed.None? {
        return true;
      }
      var records := parsed.value;
      var made: seq<Link> := [];
      for i := 0 to |records|
        invariant |made| == i
        invariant forall k :: 0 <= k < i ==> fresh(made[k])
        invariant forall k :: 0 <= k < i ==> made[k].albumPath == records[k].albumPath && made[k].metadataPath == records[k].metadataPath
      {
        var link := new Link(records[i].albumPath, records[i].metadataPath);
        made := made + [link];
      }
      links := made;
      raised := false;
    }

    /** `save_links`: the write of the links file. Loading that file back
        gives the links' records in order. */
    method SaveLinks(fs: FileSystem) returns (op: FsOp)
      ensures op == WriteJson(linksPath, SaveRecords(Records(links)))
      ensures linksPath in Apply(fs, op).json
      ensures LoadRecords(Apply(fs, op).json[linksPath]) == Some(Records(links))
    {
      op := WriteJson(linksPath, SaveRecords(Records(links)));
      LoadSavedRecords(Records(links));
    }

    /** `add_link`: append, save, and return the new link's index. */
    method AddLink(link: Link, fs: FileSystem) returns (index: nat, op: FsOp)
      modifies this`links
      ensures links == old(links) + [link]
      ensures index == |old(links)| && links[index] == link
      ensures op == WriteJson(linksPath, SaveRecords(Records(links)))
    {
      links := links + [link];
      op := SaveLinks(fs);
      index := |links| - 1;
    }

    /** `remove_link`: remove the first occurrence (by identity) and save;
        a link that is not in the list raises before anything changes. */
    method RemoveLink(link: Link, fs: FileSystem) returns (raised: bool, op: Option<FsOp>)
      modifies this`links
      ensures raised <==> link !in old(links)
      ensures raised ==> links == old(links) && op == None
      ensures !raised ==> links == RemoveFirst(old(links), link)
      ensures !raised ==> op == Some(WriteJson(linksPath, SaveRecords(Records(links))))
    {
      if link !in links {
        return true, None;
      }
      links := RemoveFirst(links, link);
      var write := SaveLinks(fs);
      raised, op := false, Some(write);
    }

    /** `load_albums`: empty the albums, then build one per link in order,
        stopping with false at the first link whose paths do not exist. */
    method LoadAlbums(filter: seq<string>, fs: FileSystem) returns (success: bool)
      requires fs.Valid()
      modifies this`albums
      ensures success <==> forall i :: 0 <= i < |links| ==> links[i].IsValid(fs)
      ensures success ==> |albums| == |links|
      ensures !success ==> |albums| < |links| && !links[|albums|].IsValid(fs)
      ensures forall i :: 0 <= i < |albums| ==> links[i].IsValid(fs)
      ensures forall i :: 0 <= i < |albums| ==> fresh(albums[i]) && BuiltFrom(albums[i], links[i], filter, fs)
      ensures forall i, j :: 0 <= i < j < |albums| ==> albums[i] != albums[j]
    {
      // The list is built locally and stored when loading stops; no one
      // reads `albums` in between.
      var ls := links;
      var built: seq<Album> := [];
      for i := 0 to |ls|
        invariant |built| == i
        invariant forall k :: 0 <= k < i ==> ls[k].IsValid(fs)
        invariant forall k :: 0 <= k < i ==> fresh(built[k]) && BuiltFrom(built[k], ls[k], filter, fs)
        invariant forall k, l :: 0 <= k < l < i ==> built[k] != built[l]
      {
        var link := ls[i];
        if !link.IsValid(fs) {
          albums := built;
          assert !links[|albums|].IsValid(fs);
          return false;
        }
        var album := BuildAlbum(link, filter, fs);
        built := built + [album];
      }
      albums := built;
      success := true;
    }
  }

  /** `Album(link, filter)`: a new album with the link's two paths, loaded
      from the filesystem. */
  method BuildAlbum(link: Link, filter: seq<string>, fs: FileSystem) returns (album: Album)
    requires fs.Valid()
    ensures fresh(album) && BuiltFrom(album, link, filter, fs)
  {
    album := new Album(link.albumPath, link.metadataPath, filter, fs);
  }

  /** Album i is the one `Album(link, filter)` builds from link i. */
  ghost predicate BuiltFrom(album: Album, link: Link, filter: seq<string>, fs: FileSystem)
    reads album, link
  {
    && album.albumPath == link.albumPath
    && album.metadataPath == link.metadataPath
    && album.Valid()
    && album.IsLoaded(filter, fs)
  }
}
