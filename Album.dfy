/** An album: a folder of media items and the metadata file beside it
    (`Album` in util/album.py; util/library.py holds the same class). The
    metadata is an insertion-ordered dict from item name to item metadata,
    modelled as a map plus the order of its keys. */
module Albums {
  import opened Json
  import opened Metadata
  import opened Text
  import opened Fs

  /** A media file of the album: its full path and its file name. */
  datatype Item = Item(path: string, name: string)

  function Names(items: seq<Item>): (r: seq<string>)
    ensures |r| == |items|
    ensures forall i :: 0 <= i < |items| ==> r[i] == items[i].name
  {
    seq(|items|, i requires 0 <= i < |items| => items[i].name)
  }

  // ---------------------------------------------------------------------
  // Loading items (load_items)
  // ---------------------------------------------------------------------

  /** The format test of `load_items`: the lower-cased name ends with one
      of the filter's suffixes. */
  predicate MatchesFilter(name: string, filter: seq<string>) {
    exists f :: f in filter && EndsWith(Lower(name), f)
  }

  /** The items `load_items` keeps from a directory listing: regular files
      whose name matches the filter, in listing order. */
  function LoadedItems(dir: string, names: seq<string>, filter: seq<string>, files: set<string>): (r: seq<Item>)
    ensures |r| <= |names|
  {
    if names == [] then []
    else
      var rest := LoadedItems(dir, names[..|names| - 1], filter, files);
      var name := names[|names| - 1];
      if JoinPath(dir, name) in files && MatchesFilter(name, filter)
      then rest + [Item(JoinPath(dir, name), name)]
      else rest
  }

  /** An item is loaded exactly when its name is listed, it is a file and
      it matches the filter; its path is the directory joined with the name. */
  lemma {:induction false} LoadedItemsMembers(dir: string, names: seq<string>, filter: seq<string>, files: set<string>, item: Item)
    ensures item in LoadedItems(dir, names, filter, files) <==>
      item.name in names && item.path == JoinPath(dir, item.name) && item.path in files && MatchesFilter(item.name, filter)
  {
    if names != [] {
      var init := names[..|names| - 1];
      LoadedItemsMembers(dir, init, filter, files, item);
      assert names == init + [names[|names| - 1]];
    }
  }

  /** Distinct listed names give distinct item names. */
  lemma {:induction false} LoadedItemsDistinct(dir: string, names: seq<string>, filter: seq<string>, files: set<string>)
    requires DistinctNames(names)
    ensures DistinctNames(Names(LoadedItems(dir, names, filter, files)))
  {
    if names != [] {
      var init := names[..|names| - 1];
      var name := names[|names| - 1];
      LoadedItemsDistinct(dir, init, filter, files);
      var rest := LoadedItems(dir, init, filter, files);
      forall i | 0 <= i < |rest| ensures rest[i].name != name {
        LoadedItemsMembers(dir, init, filter, files, rest[i]);
      }
    }
  }

  /** Python's loop over the filter with `break`: whether the name has a
      valid format. */
  method HasValidFormat(name: string, filter: seq<string>) returns (isValid: bool)
    ensures isValid <==> MatchesFilter(name, filter)
  {
    var lowered := Lower(name);
    isValid := false;
    for i := 0 to |filter|
      invariant forall j :: 0 <= j < i ==> !EndsWith(lowered, filter[j])
    {
      if EndsWith(lowered, filter[i]) {
        isValid := true;
        break;
      }
    }
  }

  // ---------------------------------------------------------------------
  // Counters (load_items, refresh_items_stats)
  // ---------------------------------------------------------------------

  /** The number of items whose name is a metadata key. */
  function CountWithMetadata(items: seq<Item>, metadata: map<string, ItemMetadata>): (r: nat)
    ensures r <= |items|
  {
    if items == [] then 0
    else
      CountWithMetadata(items[..|items| - 1], metadata) + (if items[|items| - 1].name in metadata then 1 else 0)
  }

  /** Every item is counted with metadata exactly when it has a key: all of
      them when all have one, none when none has one. */
  lemma {:induction false} CountWithMetadataBounds(items: seq<Item>, metadata: map<string, ItemMetadata>)
    ensures (forall i :: 0 <= i < |items| ==> items[i].name in metadata) <==> CountWithMetadata(items, metadata) == |items|
    ensures (forall i :: 0 <= i < |items| ==> items[i].name !in metadata) <==> CountWithMetadata(items, metadata) == 0
  {
    if items != [] {
      var init := items[..|items| - 1];
      CountWithMetadataBounds(init, metadata);
      assert forall i :: 0 <= i < |init| ==> init[i] == items[i];
    }
  }

  // ---------------------------------------------------------------------
  // Sorting (sort_items): newest first, stable
  // ---------------------------------------------------------------------

  predicate NewestFirst(items: seq<Item>, mtime: string -> int) {
    forall i, j :: 0 <= i < j < |items| ==> mtime(items[i].path) >= mtime(items[j].path)
  }

  /** Puts x before the first item that is not newer than it. */
  function Insert(x: Item, sorted: seq<Item>, mtime: string -> int): (r: seq<Item>)
    ensures multiset(r) == multiset(sorted) + multiset{x}
  {
    if sorted == [] || mtime(x.path) >= mtime(sorted[0].path) then [x] + sorted
    else
      assert sorted == [sorted[0]] + sorted[1..];
      [sorted[0]] + Insert(x, sorted[1..], mtime)
  }

  /** `list.sort(key=getmtime, reverse=True)`: a stable sort, newest first. */
  function SortNewestFirst(items: seq<Item>, mtime: string -> int): (r: seq<Item>)
    ensures multiset(r) == multiset(items)
  {
    if items == [] then []
    else
      assert items == [items[0]] + items[1..];
      Insert(items[0], SortNewestFirst(items[1..], mtime), mtime)
  }

  /** Every inserted-into list holds only x and the items it had. */
  lemma {:induction false} InsertFrom(x: Item, sorted: seq<Item>, mtime: string -> int)
    ensures forall k :: 0 <= k < |Insert(x, sorted, mtime)| ==> Insert(x, sorted, mtime)[k] == x || Insert(x, sorted, mtime)[k] in sorted
  {
    if sorted != [] && mtime(x.path) < mtime(sorted[0].path) {
      InsertFrom(x, sorted[1..], mtime);
      var r := Insert(x, sorted[1..], mtime);
      assert Insert(x, sorted, mtime) == [sorted[0]] + r;
      assert forall y :: y in sorted[1..] ==> y in sorted;
    }
  }

  lemma {:induction false} InsertNewestFirst(x: Item, sorted: seq<Item>, mtime: string -> int)
    requires NewestFirst(sorted, mtime)
    ensures NewestFirst(Insert(x, sorted, mtime), mtime)
  {
    if sorted != [] && mtime(x.path) < mtime(sorted[0].path) {
      InsertNewestFirst(x, sorted[1..], mtime);
      InsertFrom(x, sorted[1..], mtime);
      var r := Insert(x, sorted[1..], mtime);
      forall k | 0 <= k < |r| ensures mtime(sorted[0].path) >= mtime(r[k].path) {
        if r[k] != x {
          var m :| 0 <= m < |sorted[1..]| && sorted[1..][m] == r[k];
          assert sorted[m + 1] == r[k];
        }
      }
      var res := [sorted[0]] + r;
      assert Insert(x, sorted, mtime) == res;
      forall i, j | 0 <= i < j < |res| ensures mtime(res[i].path) >= mtime(res[j].path) {
        assert res[j] == r[j - 1];
        if i > 0 {
          assert res[i] == r[i - 1];
        }
      }
    }
  }

  /** The sorted items are newest first and a permutation of the items. */
  lemma {:induction false} SortIsNewestFirst(items: seq<Item>, mtime: string -> int)
    ensures NewestFirst(SortNewestFirst(items, mtime), mtime)
    ensures multiset(SortNewestFirst(items, mtime)) == multiset(items)
  {
    if items != [] {
      SortIsNewestFirst(items[1..], mtime);
      InsertNewestFirst(items[0], SortNewestFirst(items[1..], mtime), mtime);
    }
  }

  /** Items already newest first are left in place (the sort is stable). */
  lemma {:induction false} SortOfSortedIsSame(items: seq<Item>, mtime: string -> int)
    requires NewestFirst(items, mtime)
    ensures SortNewestFirst(items, mtime) == items
  {
    if items != [] {
      SortOfSortedIsSame(items[1..], mtime);
      assert items == [items[0]] + items[1..];
    }
  }

  // ---------------------------------------------------------------------
  // Cleaning (clean_metadata)
  // ---------------------------------------------------------------------

  /** The keys of the cleaned metadata dict, in insertion order: the names of
      the items, in item order, that have metadata, each once. */
  function CleanedKeys(items: seq<Item>, metadata: map<string, ItemMetadata>): (r: seq<string>)
    ensures DistinctNames(r)
    ensures forall k :: k in r <==> k in metadata && k in Names(items)
  {
    if items == [] then []
    else
      var init := items[..|items| - 1];
      var rest := CleanedKeys(init, metadata);
      var name := items[|items| - 1].name;
      assert Names(items) == Names(init) + [name];
      if name in metadata && name !in rest then rest + [name] else rest
  }

  /** The cleaned dict: the given keys with their values unchanged. */
  function Restrict(metadata: map<string, ItemMetadata>, keys: seq<string>): (r: map<string, ItemMetadata>)
    ensures forall k :: k in r <==> k in metadata && k in keys
    ensures forall k :: k in r ==> r[k] == metadata[k]
  {
    map k | k in keys && k in metadata :: metadata[k]
  }

  /** The position of the first item with a name. */
  function FirstIndex(names: seq<string>, name: string): (i: nat)
    requires name in names
    ensures i < |names| && names[i] == name && name !in names[..i]
  {
    if names[0] == name then 0 else 1 + FirstIndex(names[1..], name)
  }

  lemma FirstIndexPrefix(names: seq<string>, n: nat, name: string)
    requires n <= |names| && name in names[..n]
    ensures FirstIndex(names[..n], name) == FirstIndex(names, name)
  {
  }

  /** The cleaned keys follow the order of the items. */
  lemma {:induction false} CleanedKeysFollowItems(items: seq<Item>, metadata: map<string, ItemMetadata>)
    ensures forall i, j :: 0 <= i < j < |CleanedKeys(items, metadata)| ==>
      FirstIndex(Names(items), CleanedKeys(items, metadata)[i]) < FirstIndex(Names(items), CleanedKeys(items, metadata)[j])
  {
    if items != [] {
      var init := items[..|items| - 1];
      var names := Names(items);
      var rest := CleanedKeys(init, metadata);
      var name := items[|items| - 1].name;
      CleanedKeysFollowItems(init, metadata);
      assert Names(init) == names[..|items| - 1];
      assert forall k :: 0 <= k < |rest| ==> rest[k] in rest;
      forall k | 0 <= k < |rest|
        ensures FirstIndex(Names(init), rest[k]) == FirstIndex(names, rest[k]) < |items| - 1
      {
        FirstIndexPrefix(names, |items| - 1, rest[k]);
      }
      if name in metadata && name !in rest {
        assert name !in Names(init);
      }
    }
  }

  /** After sorting, the cleaned keys run from the newest item to the oldest. */
  lemma CleanedKeysNewestFirst(items: seq<Item>, metadata: map<string, ItemMetadata>, mtime: string -> int)
    requires NewestFirst(items, mtime)
    ensures forall i, j :: 0 <= i < j < |CleanedKeys(items, metadata)| ==>
      mtime(items[FirstIndex(Names(items), CleanedKeys(items, metadata)[i])].path) >=
      mtime(items[FirstIndex(Names(items), CleanedKeys(items, metadata)[j])].path)
  {
    CleanedKeysFollowItems(items, metadata);
  }

  /** The cleaned keys only depend on which item names are keys. */
  lemma {:induction false} CleanedKeysSameKeys(items: seq<Item>, m1: map<string, ItemMetadata>, m2: map<string, ItemMetadata>)
    requires forall i :: 0 <= i < |items| ==> (items[i].name in m1 <==> items[i].name in m2)
    ensures CleanedKeys(items, m1) == CleanedKeys(items, m2)
  {
    if items != [] {
      CleanedKeysSameKeys(items[..|items| - 1], m1, m2);
    }
  }

  /** The state `clean_metadata` leaves: items newest first, the metadata
      restricted to the items' names in that order. */
  datatype Cleaned = Cleaned(items: seq<Item>, keys: seq<string>, metadata: map<string, ItemMetadata>)

  function Clean(items: seq<Item>, metadata: map<string, ItemMetadata>, mtime: string -> int): (r: Cleaned)
    ensures multiset(r.items) == multiset(items)
    ensures forall k :: k in r.metadata <==> k in metadata && k in Names(items)
    ensures forall k :: k in r.metadata ==> r.metadata[k] == metadata[k]
    ensures forall k :: k in r.keys <==> k in r.metadata
  {
    var sorted := SortNewestFirst(items, mtime);
    var keys := CleanedKeys(sorted, metadata);
    SameNamesAfterSort(items, sorted);
    Cleaned(sorted, keys, Restrict(metadata, keys))
  }

  /** Two arrangements of the same items have the same names. */
  lemma SameNamesAfterSort(items: seq<Item>, sorted: seq<Item>)
    requires multiset(sorted) == multiset(items)
    ensures forall k :: k in Names(sorted) <==> k in Names(items)
  {
    forall k | k in Names(sorted) ensures k in Names(items) {
      var i :| 0 <= i < |sorted| && sorted[i].name == k;
      assert sorted[i] in multiset(items);
      var j :| 0 <= j < |items| && items[j] == sorted[i];
      assert Names(items)[j] == k;
    }
    forall k | k in Names(items) ensures k in Names(sorted) {
      var i :| 0 <= i < |items| && items[i].name == k;
      assert items[i] in multiset(sorted);
      var j :| 0 <= j < |sorted| && sorted[j] == items[i];
      assert Names(sorted)[j] == k;
    }
  }

  /** Cleaning twice is cleaning once, as long as no modification time changed. */
  lemma CleanIsIdempotent(items: seq<Item>, metadata: map<string, ItemMetadata>, mtime: string -> int)
    ensures var c := Clean(items, metadata, mtime);
      Clean(c.items, c.metadata, mtime) == c
  {
    var c := Clean(items, metadata, mtime);
    SortIsNewestFirst(items, mtime);
    SortOfSortedIsSame(c.items, mtime);
    CleanKeepsItemKeys(items, metadata, mtime);
    CleanedKeysSameKeys(c.items, metadata, c.metadata);
    var again := Clean(c.items, c.metadata, mtime);
    assert again.items == c.items;
    assert again.keys == c.keys;
    RestrictTwice(metadata, c.keys);
  }

  lemma RestrictTwice(metadata: map<string, ItemMetadata>, keys: seq<string>)
    ensures Restrict(Restrict(metadata, keys), keys) == Restrict(metadata, keys)
  {
  }

  /** An item of the cleaned album has metadata after cleaning exactly
      when it had some before. */
  lemma CleanKeepsItemKeys(items: seq<Item>, metadata: map<string, ItemMetadata>, mtime: string -> int)
    ensures var c := Clean(items, metadata, mtime);
      forall i :: 0 <= i < |c.items| ==> (c.items[i].name in metadata <==> c.items[i].name in c.metadata)
  {
    var c := Clean(items, metadata, mtime);
    SameNamesAfterSort(items, c.items);
    forall i | 0 <= i < |c.items| ensures c.items[i].name in metadata <==> c.items[i].name in c.metadata {
      assert c.items[i].name in Names(c.items);
    }
  }

  // ---------------------------------------------------------------------
  // Searching (search)
  // ---------------------------------------------------------------------

  /** `any(search in s.casefold() for s in values)`; a value that is not a
      string raises (it has no `casefold`), modelled as None. */
  function AnyContains(values: seq<Value>, query: string): (r: Option<bool>)
    ensures r == Some(true) ==> exists k :: 0 <= k < |values| && values[k].JStr? && Contains(Lower(values[k].s), query)
  {
    if values == [] then Some(false)
    else match values[0]
      case JStr(s) => if Contains(Lower(s), query) then Some(true) else AnyContains(values[1..], query)
      case _ => None
  }

  /** `any` scans left to right: it is true when some string contains the
      query and only strings come before it; it raises when a non-string
      comes before any such string; and it is false when every value is a
      string without the query. */
  lemma {:induction false} AnyContainsCases(values: seq<Value>, query: string)
    ensures AnyContains(values, query) == Some(true) <==>
      exists k :: 0 <= k < |values| && values[k].JStr? && Contains(Lower(values[k].s), query)
                  && forall j :: 0 <= j < k ==> values[j].JStr?
    ensures AnyContains(values, query).None? <==>
      exists k :: 0 <= k < |values| && !values[k].JStr?
                  && forall j :: 0 <= j < k ==> values[j].JStr? && !Contains(Lower(values[j].s), query)
    ensures AnyContains(values, query) == Some(false) <==>
      forall k :: 0 <= k < |values| ==> values[k].JStr? && !Contains(Lower(values[k].s), query)
  {
    if values != [] {
      AnyContainsCases(values[1..], query);
      assert forall k :: 0 < k < |values| ==> values[k] == values[1..][k - 1];
    }
  }

  /** The condition of `search` for one item with metadata, evaluated left
      to right with short-circuits. The name is not case-folded. */
  function ItemMatches(name: string, m: ItemMetadata, query: string): Option<bool>
  {
    if Contains(name, query) then Some(true)
    else if HasValidCaption(m) && Contains(Lower(m[CaptionKey].s), query) then Some(true)
    else
      var labels := if HasValidLabels(m) then AnyContains(m[LabelsKey].items, query) else Some(false);
      match labels
      case None => None
      case Some(true) => Some(true)
      case Some(false) => if HasValidText(m) then AnyContains(m[TextKey].items, query) else Some(false)
  }

  /** What `search` reports: the paths of the matching items with metadata,
      in item order, and whether evaluating the condition raised (the loop
      stops there). */
  datatype SearchOutcome = SearchOutcome(paths: seq<string>, raised: bool)

  function SearchItems(items: seq<Item>, metadata: map<string, ItemMetadata>, query: string): (r: SearchOutcome)
    ensures |r.paths| <= |items|
  {
    if items == [] then SearchOutcome([], false)
    else
      var before := SearchItems(items[..|items| - 1], metadata, query);
      var item := items[|items| - 1];
      if before.raised || item.name !in metadata then before
      else match ItemMatches(item.name, metadata[item.name], query)
        case None => SearchOutcome(before.paths, true)
        case Some(true) => SearchOutcome(before.paths + [item.path], false)
        case Some(false) => before
  }

  /** The item has metadata and matches the query. */
  predicate Hit(item: Item, metadata: map<string, ItemMetadata>, query: string) {
    item.name in metadata && ItemMatches(item.name, metadata[item.name], query) == Some(true)
  }

  /** Every reported path is the path of a hit. */
  lemma {:induction false} SearchItemsSound(items: seq<Item>, metadata: map<string, ItemMetadata>, query: string)
    ensures forall p :: p in SearchItems(items, metadata, query).paths ==>
      exists i :: 0 <= i < |items| && items[i].path == p && Hit(items[i], metadata, query)
  {
    if items != [] {
      var init := items[..|items| - 1];
      SearchItemsSound(init, metadata, query);
      assert forall i :: 0 <= i < |init| ==> init[i] == items[i];
    }
  }

  /** A search that did not raise reports every hit, each path at most once
      when item paths are distinct. */
  lemma {:induction false} SearchItemsComplete(items: seq<Item>, metadata: map<string, ItemMetadata>, query: string)
    requires forall i, j :: 0 <= i < j < |items| ==> items[i].path != items[j].path
    ensures DistinctNames(SearchItems(items, metadata, query).paths)
    ensures !SearchItems(items, metadata, query).raised ==>
      forall i :: 0 <= i < |items| ==>
        (items[i].path in SearchItems(items, metadata, query).paths <==> Hit(items[i], metadata, query))
  {
    if items != [] {
      var init := items[..|items| - 1];
      var last := items[|items| - 1];
      SearchItemsComplete(init, metadata, query);
      SearchItemsSound(init, metadata, query);
      var before := SearchItems(init, metadata, query);
      assert last.path !in before.paths;
      assert forall i :: 0 <= i < |init| ==> init[i] == items[i];
    }
  }

  /** Any two paths come from items in the same order. */
  predicate InItemOrder(paths: seq<string>, items: seq<Item>) {
    forall a, b :: 0 <= a < b < |paths| ==> PairInItemOrder(paths, items, a, b)
  }

  /** Paths a and b are the paths of items i and j with i before j. */
  predicate PairInItemOrder(paths: seq<string>, items: seq<Item>, a: nat, b: nat)
    requires a < b < |paths|
  {
    exists i, j :: 0 <= i < j < |items| && items[i].path == paths[a] && items[j].path == paths[b]
  }

  /** The reported paths follow the order of the items. */
  lemma {:induction false} SearchItemsOrdered(items: seq<Item>, metadata: map<string, ItemMetadata>, query: string)
    ensures InItemOrder(SearchItems(items, metadata, query).paths, items)
  {
    if items != [] {
      var init := items[..|items| - 1];
      SearchItemsOrdered(init, metadata, query);
      SearchItemsSound(init, metadata, query);
      var before := SearchItems(init, metadata, query).paths;
      var paths := SearchItems(items, metadata, query).paths;
      assert forall i :: 0 <= i < |init| ==> init[i] == items[i];
      assert paths == before || paths == before + [items[|items| - 1].path];
      forall a, b | 0 <= a < b < |paths|
        ensures PairInItemOrder(paths, items, a, b)
      {
        if b < |before| {
          assert paths[a] == before[a] && paths[b] == before[b];
          assert PairInItemOrder(before, init, a, b);
          var i, j :| 0 <= i < j < |init| && init[i].path == before[a] && init[j].path == before[b];
          assert items[i].path == paths[a] && items[j].path == paths[b];
        } else {
          assert paths[a] == before[a] && before[a] in before;
          var i :| 0 <= i < |init| && init[i].path == before[a] && Hit(init[i], metadata, query);
          assert items[i].path == paths[a] && items[|items| - 1].path == paths[b];
        }
      }
      assert InItemOrder(paths, items);
    }
  }

  /** The loop of `clean_metadata`: a new dict holding, in item order, the
      entries of the items that have metadata. */
  method KeepItemsMetadata(items: seq<Item>, metadata: map<string, ItemMetadata>)
    returns (newKeys: seq<string>, newMetadata: map<string, ItemMetadata>)
    ensures newKeys == CleanedKeys(items, metadata)
    ensures newMetadata == Restrict(metadata, newKeys)
  {
    newMetadata := map[];
    newKeys := [];
    for i := 0 to |items|
      invariant newKeys == CleanedKeys(items[..i], metadata)
      invariant newMetadata == Restrict(metadata, newKeys)
    {
      var name := items[i].name;
      assert items[..i + 1][..i] == items[..i];
      if name in metadata {
        if name !in newMetadata {
          newKeys := newKeys + [name];
        }
        newMetadata := newMetadata[name := metadata[name]];
      }
    }
    assert items[..|items|] == items;
  }

  // ---------------------------------------------------------------------
  // The album object
  // ---------------------------------------------------------------------

  class Album {
    const albumPath: string
    const metadataPath: string
    var metadata: map<string, ItemMetadata>
    var keys: seq<string>       // insertion order of the metadata dict
    var items: seq<Item>
    var withMetadata: int
    var withoutMetadata: int

    ghost predicate Valid()
      reads this
    {
      && DistinctNames(keys)
      && (forall k :: k in metadata <==> k in keys)
      && DistinctNames(Names(items))
    }

    /** The state `__init__` leaves: the metadata file's dict (empty when
        the file is missing or does not decode), the filtered listing of the
        album folder (empty when the folder is missing), and the counters. */
    ghost predicate IsLoaded(filter: seq<string>, fs: FileSystem)
      reads this
    {
      && (metadataPath in fs.existing && metadataPath in fs.documents ==>
            keys == fs.documents[metadataPath].keys && metadata == fs.documents[metadataPath].entries)
      && (metadataPath !in fs.existing || metadataPath !in fs.documents ==> metadata == map[] && keys == [])
      && items == (if albumPath in fs.existing then LoadedItems(albumPath, fs.ListDir(albumPath), filter, fs.files) else [])
      && withMetadata == CountWithMetadata(items, metadata)
      && withMetadata + withoutMetadata == |items|
    }

    /** `__init__`: load the metadata file, then the items. */
    constructor (albumPath: string, metadataPath: string, filter: seq<string>, fs: FileSystem)
      requires fs.Valid()
      ensures Valid()
      ensures this.albumPath == albumPath && this.metadataPath == metadataPath
      ensures IsLoaded(filter, fs)
    {
      this.albumPath := albumPath;
      this.metadataPath := metadataPath;
      metadata := map[];
      keys := [];
      items := [];
      withMetadata := 0;
      withoutMetadata := 0;
      new;
      LoadMetadata(fs);
      LoadItems(filter, fs);
    }

    /** `load_metadata`: a missing file leaves the metadata as it is; a file
        that does not decode to a dict of item metadata gives an empty dict
        (`Util.load_json` would hand back any other JSON value as it is). */
    method LoadMetadata(fs: FileSystem)
      requires Valid() && fs.Valid()
      modifies this
      ensures Valid()
      ensures items == old(items) && withMetadata == old(withMetadata) && withoutMetadata == old(withoutMetadata)
      ensures metadataPath !in fs.existing ==> metadata == old(metadata) && keys == old(keys)
      ensures metadataPath in fs.existing && metadataPath in fs.documents ==>
        keys == fs.documents[metadataPath].keys && metadata == fs.documents[metadataPath].entries
      ensures metadataPath in fs.existing && metadataPath !in fs.documents ==> metadata == map[] && keys == []
    {
      if metadataPath !in fs.existing {
        return;
      }
      if metadataPath in fs.documents {
        keys := fs.documents[metadataPath].keys;
        metadata := fs.documents[metadataPath].entries;
      } else {
        keys := [];
        metadata := map[];
      }
    }

    /** `item_has_metadata`. */
    predicate HasMetadata(name: string)
      reads this
    {
      name in metadata
    }

    /** `get_item_metadata`: the stored dict, or an empty one. */
    function GetItemMetadata(name: string): (r: ItemMetadata)
      reads this
      ensures HasMetadata(name) ==> r == metadata[name]
      ensures !HasMetadata(name) ==> r == map[]
    {
      if name in metadata then metadata[name] else map[]
    }

    /** `set_item_metadata`: a new key goes to the end of the dict, an
        existing key keeps its place. */
    method SetItemMetadata(name: string, m: ItemMetadata)
      requires Valid()
      modifies this
      ensures Valid()
      ensures GetItemMetadata(name) == m && HasMetadata(name)
      ensures forall k :: k != name ==> HasMetadata(k) == old(HasMetadata(k)) && GetItemMetadata(k) == old(GetItemMetadata(k))
      ensures metadata == old(metadata)[name := m]
      ensures keys == if name in old(metadata) then old(keys) else old(keys) + [name]
      ensures items == old(items) && withMetadata == old(withMetadata) && withoutMetadata == old(withoutMetadata)
    {
      if name !in metadata {
        keys := keys + [name];
      }
      metadata := metadata[name := m];
    }

    /** `sort_items`. */
    method SortItems(fs: FileSystem)
      requires Valid()
      modifies this`items
      ensures Valid()
      ensures items == SortNewestFirst(old(items), fs.mtime)
    {
      items := SortNewestFirst(items, fs.mtime);
      SortedNamesDistinct(old(items), fs.mtime);
    }

    /** `clean_metadata`: sort the items, then keep only the keys of items
        that have metadata, newest item first. */
    method CleanMetadata(fs: FileSystem)
      requires Valid()
      modifies this
      ensures Valid()
      ensures Cleaned(items, keys, metadata) == Clean(old(items), old(metadata), fs.mtime)
      ensures withMetadata == old(withMetadata) && withoutMetadata == old(withoutMetadata)
    {
      SortItems(fs);
      var newKeys, newMetadata := KeepItemsMetadata(items, metadata);
      metadata := newMetadata;
      keys := newKeys;
    }

    /** `load_items`: a missing album folder leaves everything as it is;
        otherwise the items are the listed files with a valid format, and
        the two counters are recomputed. */
    method LoadItems(filter: seq<string>, fs: FileSystem)
      requires Valid() && fs.Valid()
      modifies this
      ensures Valid()
      ensures metadata == old(metadata) && keys == old(keys)
      ensures albumPath !in fs.existing ==>
        items == old(items) && withMetadata == old(withMetadata) && withoutMetadata == old(withoutMetadata)
      ensures albumPath in fs.existing ==>
        && items == LoadedItems(albumPath, fs.ListDir(albumPath), filter, fs.files)
        && withMetadata == CountWithMetadata(items, metadata)
        && withMetadata + withoutMetadata == |items|
    {
      if albumPath !in fs.existing {
        return;
      }
      items := [];
      withMetadata := 0;
      withoutMetadata := 0;
      var names := fs.ListDir(albumPath);
      for i := 0 to |names|
        invariant metadata == old(metadata) && keys == old(keys)
        invariant items == LoadedItems(albumPath, names[..i], filter, fs.files)
        invariant withMetadata == CountWithMetadata(items, metadata)
        invariant withMetadata + withoutMetadata == |items|
      {
        var name := names[i];
        assert names[..i + 1][..i] == names[..i];
        var path := JoinPath(albumPath, name);
        if path !in fs.files {
          continue;
        }
        var isValid := HasValidFormat(name, filter);
        if !isValid {
          continue;
        }
        items := items + [Item(path, name)];
        if HasMetadata(name) {
          withMetadata := withMetadata + 1;
        } else {
          withoutMetadata := withoutMetadata + 1;
        }
      }
      assert names[..|names|] == names;
      LoadedItemsDistinct(albumPath, names, filter, fs.files);
    }

    /** `refresh_items_stats`: recount the items with and without metadata. */
    method RefreshItemsStats()
      requires Valid()
      modifies this`withMetadata, this`withoutMetadata
      ensures Valid()
      ensures withMetadata == CountWithMetadata(items, metadata)
      ensures withMetadata + withoutMetadata == |items|
    {
      withMetadata := 0;
      withoutMetadata := 0;
      for i := 0 to |items|
        invariant withMetadata == CountWithMetadata(items[..i], metadata)
        invariant withMetadata + withoutMetadata == i
      {
        assert items[..i + 1][..i] == items[..i];
        if HasMetadata(items[i].name) {
          withMetadata := withMetadata + 1;
        } else {
          withoutMetadata := withoutMetadata + 1;
        }
      }
      assert items[..|items|] == items;
    }

    /** `save_metadata`: with `backup` set and an existing file, copy it to
        the first free `.backupN` path; then write the metadata. Returns
        the backup number used and the writes in order. */
    method SaveMetadata(fs: FileSystem, backup: bool) returns (backupIndex: Option<nat>, ops: seq<FsOp>)
      ensures backupIndex.Some? <==> backup && metadataPath in fs.existing
      ensures backupIndex.Some? ==>
        && BackupPath(metadataPath, backupIndex.value) !in fs.existing
        && (forall j :: 0 <= j < backupIndex.value ==> BackupPath(metadataPath, j) in fs.existing)
      ensures ops == (if backupIndex.Some? then [Copy(metadataPath, BackupPath(metadataPath, backupIndex.value))] else [])
                     + [WriteMetadata(metadataPath, MetadataDoc(keys, metadata))]
      ensures ops == SaveWrites(metadataPath, MetadataDoc(keys, metadata), fs.existing, backup)
    {
      ops := [];
      backupIndex := None;
      if backup && metadataPath in fs.existing {
        var index: nat := 0;
        ghost var bound := Pow10(MaxLen(fs.existing));
        while BackupPath(metadataPath, index) in fs.existing
          invariant index <= bound
          invariant forall j :: 0 <= j < index ==> BackupPath(metadataPath, j) in fs.existing
          decreases bound - index
        {
          TakenBackupIsSmall(fs.existing, metadataPath, index);
          index := index + 1;
        }
        backupIndex := Some(index);
        ops := [Copy(metadataPath, BackupPath(metadataPath, index))];
      }
      ops := ops + [WriteMetadata(metadataPath, MetadataDoc(keys, metadata))];
    }

    /** `search`: the paths of the matching items with metadata, in item
        order; the query is case-folded, the item name is not. */
    method Search(search: string) returns (found: seq<string>, raised: bool)
      ensures SearchOutcome(found, raised) == SearchItems(items, metadata, Lower(search))
    {
      var query := Lower(search);
      found := [];
      raised := false;
      for i := 0 to |items|
        invariant SearchOutcome(found, raised) == SearchItems(items[..i], metadata, query)
        invariant !raised
      {
        assert items[..i + 1][..i] == items[..i];
        var item := items[i];
        if !HasMetadata(item.name) {
          continue;
        }
        var m := GetItemMetadata(item.name);
        match ItemMatches(item.name, m, query) {
          case None =>
            raised := true;
            assert SearchOutcome(found, raised) == SearchItems(items[..i + 1], metadata, query);
            StaysRaised(items, metadata, query, i + 1);
            return;
          case Some(true) =>
            found := found + [item.path];
          case Some(false) =>
        }
      }
      assert items[..|items|] == items;
    }
  }

  /** Inserting an item whose name is new keeps the names distinct. */
  lemma {:induction false} InsertDistinct(x: Item, sorted: seq<Item>, mtime: string -> int)
    requires DistinctNames(Names(sorted)) && x.name !in Names(sorted)
    ensures DistinctNames(Names(Insert(x, sorted, mtime)))
    ensures forall k :: k in Names(Insert(x, sorted, mtime)) <==> k == x.name || k in Names(sorted)
  {
    if sorted != [] && mtime(x.path) < mtime(sorted[0].path) {
      assert Names(sorted[1..]) == Names(sorted)[1..];
      InsertDistinct(x, sorted[1..], mtime);
      assert Names(sorted)[0] == sorted[0].name;
      assert sorted[0].name != x.name && sorted[0].name !in Names(sorted[1..]);
      var tail := Names(Insert(x, sorted[1..], mtime));
      assert sorted[0].name !in tail;
      assert Names(Insert(x, sorted, mtime)) == [sorted[0].name] + tail;
    } else {
      assert Names(Insert(x, sorted, mtime)) == [x.name] + Names(sorted);
    }
  }

  /** Sorting keeps item names distinct. */
  lemma {:induction false} SortedNamesDistinct(items: seq<Item>, mtime: string -> int)
    requires DistinctNames(Names(items))
    ensures DistinctNames(Names(SortNewestFirst(items, mtime)))
  {
    if items != [] {
      assert Names(items[1..]) == Names(items)[1..];
      SortedNamesDistinct(items[1..], mtime);
      var rest := SortNewestFirst(items[1..], mtime);
      SameNamesAfterSort(items[1..], rest);
      assert items[0].name !in Names(items[1..]);
      InsertDistinct(items[0], rest, mtime);
    }
  }

  /** Once an item raises, the rest of the search is not run. */
  lemma {:induction false} StaysRaised(items: seq<Item>, metadata: map<string, ItemMetadata>, query: string, n: nat)
    requires n <= |items| && SearchItems(items[..n], metadata, query).raised
    ensures SearchItems(items, metadata, query) == SearchItems(items[..n], metadata, query)
    decreases |items| - n
  {
    if n < |items| {
      assert items[..n + 1][..n] == items[..n];
      StaysRaised(items, metadata, query, n + 1);
    } else {
      assert items[..n] == items;
    }
  }
}
