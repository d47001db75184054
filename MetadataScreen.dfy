/** The options of screens/metadata/metadata_screen.py: the button guards,
    the search input check and search run, the clean run, and the fix run
    that regenerates missing or malformed metadata fields with the AI
    models and saves each album on a schedule.

    The models are functions of the image path: `RawModels` gives the raw
    outputs, and `AiModels` the values util/ai.py makes of them. The fix run is specified by functions
    on values (`ItemStep`, `FixAlbum`, `FixUpTo`), and the methods of
    `MetadataScreen` are proved to follow them. */
module MetadataOptions {
  import opened Json
  import opened Text
  import opened Metadata
  import opened Fs
  import opened Ai
  import opened Albums
  import opened Library

  /** The raw outputs of the description model's caption and object
      detection tasks and of the OCR model's rendered text, per image. */
  datatype RawModels = RawModels(caption: string -> string, labels: string -> seq<string>, render: string -> string)

  /** What `generate_caption`, `generate_labels` and `detect_text` return
      for an image. */
  datatype Models = Models(caption: string -> string, labels: string -> seq<string>, text: string -> seq<string>)

  /** The three functions of util/ai.py over raw model outputs: every
      caption is stripped, every label list repeats no label, every text
      line is stripped and non-blank. */
  function AiModels(raw: RawModels): (r: Models)
    ensures forall path :: IsStripped(r.caption(path))
    ensures forall path :: Distinct(r.labels(path)) && (forall x :: x in r.labels(path) <==> x in raw.labels(path))
    ensures forall path :: CleanLines(r.text(path))
  {
    var r := Models(path => GenerateCaption(raw.caption(path)),
                    path => GenerateLabels(raw.labels(path)),
                    path => DetectText(raw.render(path)));
    assert forall path :: IsStripped(r.caption(path)) by {
      forall path ensures IsStripped(r.caption(path)) {
        assert r.caption(path) == GenerateCaption(raw.caption(path));
      }
    }
    assert forall path :: Distinct(r.labels(path)) && (forall x :: x in r.labels(path) <==> x in raw.labels(path)) by {
      forall path ensures Distinct(r.labels(path)) && (forall x :: x in r.labels(path) <==> x in raw.labels(path)) {
        assert r.labels(path) == GenerateLabels(raw.labels(path));
      }
    }
    assert forall path :: CleanLines(r.text(path)) by {
      forall path ensures CleanLines(r.text(path)) {
        assert r.text(path) == DetectText(raw.render(path));
      }
    }
    r
  }

  /** What the fix run does, in order: load a model, generate one field of
      one item, save an album (`backup` is the flag passed to
      `save_metadata`; `final` marks the save after cleaning). */
  datatype FixEvent =
    | LoadDescriptionModel
    | LoadTextModel
    | Generated(album: nat, item: string, key: string)
    | Saved(album: nat, backup: bool, final: bool)

  /** `save_every`. */
  const SaveEvery: nat := 5

  /** An album's items and metadata dict, as a value. */
  datatype AlbumData = AlbumData(items: seq<Item>, keys: seq<string>, metadata: map<string, ItemMetadata>)

  function DataOf(album: Album): AlbumData
    reads album
  {
    AlbumData(album.items, album.keys, album.metadata)
  }

  function Strings(xs: seq<string>): (r: seq<Value>)
    ensures |r| == |xs| && forall i :: 0 <= i < |xs| ==> r[i] == JStr(xs[i])
  {
    seq(|xs|, i requires 0 <= i < |xs| => JStr(xs[i]))
  }

  /** The caption `generate_caption` stores for an image. */
  function CaptionValue(models: Models, path: string): (v: Value)
    ensures v.JStr?
  {
    JStr(models.caption(path))
  }

  /** The labels `generate_labels` stores for an image. */
  function LabelsValue(models: Models, path: string): (v: Value)
    ensures v.JList?
  {
    JList(Strings(models.labels(path)))
  }

  /** The lines `detect_text` stores for an image. */
  function TextValue(models: Models, path: string): (v: Value)
    ensures v.JList?
  {
    JList(Strings(models.text(path)))
  }

  /** The metadata of one item after the fix: each invalid field takes the
      value its model generates (caption, then labels, then text); valid
      fields and every other key keep their values. */
  function FixedMetadata(m: ItemMetadata, caption: Value, labels: Value, text: Value): (r: ItemMetadata)
    requires caption.JStr? && labels.JList? && text.JList?
    ensures IsComplete(r)
    ensures r.Keys == m.Keys + {CaptionKey, LabelsKey, TextKey}
    ensures forall k :: k in m && k != CaptionKey && k != LabelsKey && k != TextKey ==> r[k] == m[k]
    ensures r[CaptionKey] == if HasValidCaption(m) then m[CaptionKey] else caption
    ensures r[LabelsKey] == if HasValidLabels(m) then m[LabelsKey] else labels
    ensures r[TextKey] == if HasValidText(m) then m[TextKey] else text
  {
    var m1 := Fill(m, CaptionKey, HasValidCaption(m), caption);
    var m2 := Fill(m1, LabelsKey, HasValidLabels(m), labels);
    Fill(m2, TextKey, HasValidText(m), text)
  }

  /** The fixed metadata of the item at `path`, with the models' outputs. */
  function FixedItemMetadata(m: ItemMetadata, path: string, models: Models): (r: ItemMetadata)
    ensures IsComplete(r)
  {
    FixedMetadata(m, CaptionValue(models, path), LabelsValue(models, path), TextValue(models, path))
  }

  /** `item_metadata[key] = v` unless the field is valid already. */
  function Fill(m: ItemMetadata, key: string, valid: bool, v: Value): (r: ItemMetadata)
    requires valid ==> key in m
    ensures key in r && r[key] == if valid then m[key] else v
    ensures r.Keys == m.Keys + {key}
    ensures forall k :: k in m && k != key ==> r[k] == m[k]
  {
    if valid then m else m[key := v]
  }

  /** `events` followed by `e` when `c` holds. */
  function AppendIf(events: seq<FixEvent>, c: bool, e: FixEvent): seq<FixEvent> {
    if c then events + [e] else events
  }

  /** The events of the description-model block of one item's fix: when
      the caption or the labels are invalid, the model is constructed on
      first need and then generates each invalid one. */
  function DescriptionEvents(events: seq<FixEvent>, albumIndex: nat, name: string, m: ItemMetadata, descLoaded: bool): seq<FixEvent> {
    if HasValidCaption(m) && HasValidLabels(m) then events
    else
      var e1 := AppendIf(events, !descLoaded, LoadDescriptionModel);
      var e2 := AppendIf(e1, !HasValidCaption(m), Generated(albumIndex, name, CaptionKey));
      AppendIf(e2, !HasValidLabels(m), Generated(albumIndex, name, LabelsKey))
  }

  /** The events of the text-model block of one item's fix: when the text
      is invalid, the model is constructed on first need and generates it. */
  function TextEvents(events: seq<FixEvent>, albumIndex: nat, name: string, m: ItemMetadata, textLoaded: bool): seq<FixEvent> {
    if HasValidText(m) then events
    else AppendIf(events, !textLoaded, LoadTextModel) + [Generated(albumIndex, name, TextKey)]
  }

  /** The events of fixing one item, after `events`. */
  function ItemEvents(events: seq<FixEvent>, albumIndex: nat, name: string, m: ItemMetadata, descLoaded: bool, textLoaded: bool): seq<FixEvent> {
    TextEvents(DescriptionEvents(events, albumIndex, name, m, descLoaded), albumIndex, name, m, textLoaded)
  }

  /** The run-wide variables of `execute_option_fix`: whether each model
      has been constructed, the two totals, the events so far and the
      filesystem the saves have written. */
  datatype RunState = RunState(descLoaded: bool, textLoaded: bool, totalCount: nat, totalFixed: nat,
                               events: seq<FixEvent>, fs: FileSystem)

  /** The per-album variables: the album's data, `album_items_fixed`,
      `was_album_modified` and `was_album_saved`. */
  datatype AlbumProgress = AlbumProgress(data: AlbumData, fixed: nat, modified: bool, saved: bool)

  datatype Progress = Progress(run: RunState, album: AlbumProgress)

  /** The metadata `get_item_metadata` gives for an item of the album. */
  function MetadataOf(d: AlbumData, name: string): ItemMetadata {
    if name in d.metadata then d.metadata[name] else map[]
  }

  /** The body of the item loop for item i of album `albumIndex`: a
      complete item is skipped; otherwise its fields are fixed and, every
      `SaveEvery` fixed items except after the last item, the album is
      saved. */
  function ItemStep(p: Progress, albumIndex: nat, metadataPath: string, i: nat, models: Models): (r: Progress)
    requires i < |p.album.data.items|
    ensures r.album.data.items == p.album.data.items
  {
    var d := p.album.data;
    var m := MetadataOf(d, d.items[i].name);
    if IsComplete(m) then p
    else SaveStep(FixStep(p, albumIndex, i, models), albumIndex, metadataPath, i)
  }

  /** The album data after `set_item_metadata(name, m)`: the items are
      kept, the name maps to m, a new name is added after the existing
      keys, and keys that list every entry once still do. */
  function SetMetadata(d: AlbumData, name: string, m: ItemMetadata): (r: AlbumData)
    ensures r.items == d.items && r.metadata == d.metadata[name := m]
    ensures d.keys <= r.keys
    ensures DistinctNames(d.keys) && (forall k :: k in d.metadata <==> k in d.keys) ==>
      DistinctNames(r.keys) && forall k :: k in r.metadata <==> k in r.keys
  {
    AlbumData(d.items, if name in d.metadata then d.keys else d.keys + [name], d.metadata[name := m])
  }

  /** Fixing the fields of item i: the models run, the fixed metadata is
      stored, and the counters advance. */
  function FixStep(p: Progress, albumIndex: nat, i: nat, models: Models): (r: Progress)
    requires i < |p.album.data.items|
    ensures r.album.data.items == p.album.data.items
  {
    var d := p.album.data;
    Progress(FixedRun(p.run, albumIndex, d.items[i].name, MetadataOf(d, d.items[i].name)),
             AlbumProgress(FixedData(d, i, models), p.album.fixed + 1, true, p.album.saved))
  }

  /** The run state after the models fix an item with metadata m: the
      total count and the filesystem are kept, one more item is fixed, a
      model once built stays built, and a model is built when a field
      it generates is invalid. */
  function FixedRun(run: RunState, albumIndex: nat, name: string, m: ItemMetadata): (r: RunState)
    ensures r.totalCount == run.totalCount && r.totalFixed == run.totalFixed + 1 && r.fs == run.fs
    ensures run.descLoaded ==> r.descLoaded
    ensures run.textLoaded ==> r.textLoaded
    ensures !HasValidCaption(m) || !HasValidLabels(m) ==> r.descLoaded
    ensures !HasValidText(m) ==> r.textLoaded
  {
    RunState(run.descLoaded || !HasValidCaption(m) || !HasValidLabels(m), run.textLoaded || !HasValidText(m),
             run.totalCount, run.totalFixed + 1,
             ItemEvents(run.events, albumIndex, name, m, run.descLoaded, run.textLoaded), run.fs)
  }

  /** The album data once item i holds its fixed metadata. */
  function FixedData(d: AlbumData, i: nat, models: Models): (r: AlbumData)
    requires i < |d.items|
    ensures r.items == d.items
  {
    var item := d.items[i];
    SetMetadata(d, item.name, FixedItemMetadata(MetadataOf(d, item.name), item.path, models))
  }

  /** The scheduled save after fixing item i: when the fixed count is a
      multiple of `SaveEvery` and i is not the last item, the album is
      saved, with a backup only if it was not saved before. */
  function SaveStep(p: Progress, albumIndex: nat, metadataPath: string, i: nat): (r: Progress)
    ensures r.album.data == p.album.data && r.album.fixed == p.album.fixed && r.album.modified == p.album.modified
    ensures r.run.totalCount == p.run.totalCount && r.run.totalFixed == p.run.totalFixed
  {
    var d := p.album.data;
    if p.album.fixed % SaveEvery == 0 && i < |d.items| - 1 then
      var ops := SaveWrites(metadataPath, MetadataDoc(d.keys, d.metadata), p.run.fs.existing, !p.album.saved);
      Progress(
        p.run.(events := p.run.events + [Saved(albumIndex, !p.album.saved, false)], fs := ApplyAll(p.run.fs, ops)),
        p.album.(saved := true))
    else p
  }

  /** The item loop over the first n items. */
  function ItemsUpTo(p: Progress, albumIndex: nat, metadataPath: string, n: nat, models: Models): (r: Progress)
    requires n <= |p.album.data.items|
    ensures r.album.data.items == p.album.data.items
    decreases n, 0
  {
    if n == 0 then p else ItemAt(p, albumIndex, metadataPath, n - 1, models)
  }

  /** The iteration for item k, after the items before it. */
  function ItemAt(p: Progress, albumIndex: nat, metadataPath: string, k: nat, models: Models): (r: Progress)
    requires k < |p.album.data.items|
    ensures r.album.data.items == p.album.data.items
    decreases k, 1
  {
    ItemStep(ItemsUpTo(p, albumIndex, metadataPath, k, models), albumIndex, metadataPath, k, models)
  }

  /** After the item loop: a modified album is cleaned and saved, with a
      backup only if it was not saved before. */
  function FinishAlbum(p: Progress, albumIndex: nat, metadataPath: string): (r: Progress)
  {
    if !p.album.modified then p
    else
      var d := p.album.data;
      var c := Clean(d.items, d.metadata, p.run.fs.mtime);
      var ops := SaveWrites(metadataPath, MetadataDoc(c.keys, c.metadata), p.run.fs.existing, !p.album.saved);
      Progress(
        p.run.(events := p.run.events + [Saved(albumIndex, !p.album.saved, true)], fs := ApplyAll(p.run.fs, ops)),
        p.album.(data := AlbumData(c.items, c.keys, c.metadata), saved := true))
  }

  /** The start of an album's iteration. */
  function StartAlbum(run: RunState, d: AlbumData): Progress {
    Progress(run.(totalCount := run.totalCount + |d.items|), AlbumProgress(d, 0, false, false))
  }

  /** One iteration of the album loop; `FixRun.FixAlbumEffect` states
      what it does. */
  function FixAlbum(run: RunState, d: AlbumData, albumIndex: nat, metadataPath: string, models: Models): Progress {
    FinishAlbum(ItemsUpTo(StartAlbum(run, d), albumIndex, metadataPath, |d.items|, models), albumIndex, metadataPath)
  }

  /** The run state and the albums' data after the first n albums. */
  datatype FixResult = FixResult(run: RunState, albums: seq<AlbumData>)

  function FixUpTo(run: RunState, inputs: seq<AlbumData>, metadataPaths: seq<string>, n: nat, models: Models): (r: FixResult)
    requires n <= |inputs| == |metadataPaths|
    ensures |r.albums| == n
    decreases n, 0
  {
    if n == 0 then FixResult(run, [])
    else
      var p := FixAlbumAt(run, inputs, metadataPaths, n - 1, models);
      FixResult(p.run, FixUpTo(run, inputs, metadataPaths, n - 1, models).albums + [p.album.data])
  }

  /** Iteration k of the album loop, from the state the first k albums
      leave. */
  function FixAlbumAt(run: RunState, inputs: seq<AlbumData>, metadataPaths: seq<string>, k: nat, models: Models): Progress
    requires k < |inputs| == |metadataPaths|
    decreases k, 1
  {
    FixAlbum(FixUpTo(run, inputs, metadataPaths, k, models).run, inputs[k], k, metadataPaths[k], models)
  }

  /** The state `execute_option_fix` starts from. */
  function InitialRun(fs: FileSystem): RunState {
    RunState(false, false, 0, 0, [], fs)
  }

  /** One pass of the item loop of `execute_option_fix`, on item i of the
      album. A model is constructed the first time a field needs it. Every
      item that is not skipped gets at least one field, so it is always
      marked modified. */
  method FixItem(album: Album, albumIndex: nat, i: nat, run: RunState, fixed: nat, modified: bool, saved: bool, models: Models)
    returns (run': RunState, fixed': nat, modified': bool, saved': bool)
    requires album.Valid() && i < |album.items|
    modifies album
    ensures album.Valid()
    ensures Progress(run', AlbumProgress(DataOf(album), fixed', modified', saved'))
         == ItemStep(Progress(run, AlbumProgress(old(DataOf(album)), fixed, modified, saved)), albumIndex, album.metadataPath, i, models)
  {
    ghost var p := Progress(run, AlbumProgress(DataOf(album), fixed, modified, saved));
    var item := album.items[i];
    var m := album.GetItemMetadata(item.name);
    if IsComplete(m) {
      return run, fixed, modified, saved;
    }
    ghost var q := FixStep(p, albumIndex, i, models);
    assert ItemStep(p, albumIndex, album.metadataPath, i, models) == SaveStep(q, albumIndex, album.metadataPath, i);
    run' := FixFields(album, albumIndex, i, run, models);
    fixed', modified' := fixed + 1, true;
    assert Progress(run', AlbumProgress(DataOf(album), fixed', modified', saved)) == q;
    run', saved' := SaveIfDue(album, albumIndex, i, run', fixed', saved);
  }

  /** The fields part of `FixItem`: the models fix item i. */
  method FixFields(album: Album, albumIndex: nat, i: nat, run: RunState, models: Models) returns (run': RunState)
    requires album.Valid() && i < |album.items|
    modifies album
    ensures album.Valid()
    ensures run' == FixedRun(run, albumIndex, old(album.items[i].name), MetadataOf(old(DataOf(album)), old(album.items[i].name)))
    ensures DataOf(album) == FixedData(old(DataOf(album)), i, models)
  {
    ghost var d := DataOf(album);
    var item := album.items[i];
    var m := album.GetItemMetadata(item.name);
    var events, descLoaded, textLoaded := GenerateFields(albumIndex, item.name, m, run.events, run.descLoaded, run.textLoaded);
    var itemMetadata := FixedItemMetadata(m, item.path, models);
    run' := RunState(descLoaded, textLoaded, run.totalCount, run.totalFixed + 1, events, run.fs);
    assert run' == FixedRun(run, albumIndex, item.name, m);
    assert SetMetadata(d, item.name, itemMetadata) == FixedData(d, i, models);
    StoreMetadata(album, item.name, itemMetadata);
  }

  /** `album.set_item_metadata(name, m)`, on the album's data. */
  method StoreMetadata(album: Album, name: string, m: ItemMetadata)
    requires album.Valid()
    modifies album
    ensures album.Valid() && DataOf(album) == SetMetadata(old(DataOf(album)), name, m)
  {
    album.SetItemMetadata(name, m);
  }

  /** The save of the item loop, after item i, as `SaveStep` says. */
  method SaveIfDue(album: Album, albumIndex: nat, i: nat, run: RunState, fixed: nat, saved: bool)
    returns (run': RunState, saved': bool)
    ensures Progress(run', AlbumProgress(DataOf(album), fixed, true, saved'))
         == SaveStep(Progress(run, AlbumProgress(DataOf(album), fixed, true, saved)), albumIndex, album.metadataPath, i)
  {
    run', saved' := run, saved;
    if fixed % SaveEvery == 0 && i < |album.items| - 1 {
      var backupIndex, ops := album.SaveMetadata(run.fs, !saved);
      run' := run.(events := run.events + [Saved(albumIndex, !saved, false)], fs := ApplyAll(run.fs, ops));
      saved' := true;
    }
  }

  /** One iteration of the album loop of `execute_option_fix`: the item
      loop, then the final clean and save of a modified album. */
  method FixAlbumItems(album: Album, albumIndex: nat, run: RunState, models: Models) returns (run': RunState)
    requires album.Valid()
    modifies album
    ensures album.Valid()
    ensures run' == FixAlbum(run, old(DataOf(album)), albumIndex, album.metadataPath, models).run
    ensures DataOf(album) == FixAlbum(run, old(DataOf(album)), albumIndex, album.metadataPath, models).album.data
  {
    ghost var start := StartAlbum(run, DataOf(album));
    var fixed, modified, saved;
    run', fixed, modified, saved := FixItems(album, albumIndex, run, models);
    ghost var p := Progress(run', AlbumProgress(DataOf(album), fixed, modified, saved));
    assert FixAlbum(run, start.album.data, albumIndex, album.metadataPath, models) == FinishAlbum(p, albumIndex, album.metadataPath);
    if modified {
      run' := FinishFix(album, albumIndex, run', fixed, saved);
    }
  }

  /** The item loop of `execute_option_fix` over one album. */
  method FixItems(album: Album, albumIndex: nat, run: RunState, models: Models)
    returns (run': RunState, fixed: nat, modified: bool, saved: bool)
    requires album.Valid()
    modifies album
    ensures album.Valid()
    ensures Progress(run', AlbumProgress(DataOf(album), fixed, modified, saved))
         == ItemsUpTo(StartAlbum(run, old(DataOf(album))), albumIndex, album.metadataPath, |old(album.items)|, models)
  {
    ghost var start := StartAlbum(run, DataOf(album));
    var items := album.items;
    run' := run.(totalCount := run.totalCount + |items|);
    fixed, modified, saved := 0, false, false;
    for i := 0 to |items|
      invariant ItemsFixedUpTo(album, start, albumIndex, i, models, Progress(run', AlbumProgress(DataOf(album), fixed, modified, saved)))
      invariant album.items == items
    {
      run', fixed, modified, saved := FixNext(album, albumIndex, i, run', fixed, modified, saved, models, start);
    }
  }

  /** The item loop of `execute_option_fix` has processed the first `i`
      items of the album, reaching progress `p`. */
  ghost predicate ItemsFixedUpTo(album: Album, start: Progress, albumIndex: nat, i: nat, models: Models, p: Progress)
    reads album
  {
    && album.Valid() && i <= |album.items| == |start.album.data.items|
    && p == ItemsUpTo(start, albumIndex, album.metadataPath, i, models)
  }

  /** One more iteration of the item loop. */
  method FixNext(album: Album, albumIndex: nat, i: nat, run: RunState, fixed: nat, modified: bool, saved: bool,
                 models: Models, ghost start: Progress)
    returns (run': RunState, fixed': nat, modified': bool, saved': bool)
    requires i < |album.items|
    requires ItemsFixedUpTo(album, start, albumIndex, i, models, Progress(run, AlbumProgress(DataOf(album), fixed, modified, saved)))
    modifies album
    ensures album.items == old(album.items)
    ensures ItemsFixedUpTo(album, start, albumIndex, i + 1, models, Progress(run', AlbumProgress(DataOf(album), fixed', modified', saved')))
  {
    ghost var before := ItemsUpTo(start, albumIndex, album.metadataPath, i, models);
    assert ItemsUpTo(start, albumIndex, album.metadataPath, i + 1, models)
        == ItemStep(before, albumIndex, album.metadataPath, i, models);
    run', fixed', modified', saved' := FixItem(album, albumIndex, i, run, fixed, modified, saved, models);
  }

  /** The end of an album's iteration when it was modified: clean, then
      save with a backup only if no save came before. */
  method FinishFix(album: Album, albumIndex: nat, run: RunState, ghost fixed: nat, saved: bool) returns (run': RunState)
    requires album.Valid()
    modifies album
    ensures album.Valid()
    ensures Progress(run', AlbumProgress(DataOf(album), fixed, true, true))
         == FinishAlbum(Progress(run, AlbumProgress(old(DataOf(album)), fixed, true, saved)), albumIndex, album.metadataPath)
  {
    album.CleanMetadata(run.fs);
    var backupIndex, ops := album.SaveMetadata(run.fs, !saved);
    run' := run.(events := run.events + [Saved(albumIndex, !saved, true)], fs := ApplyAll(run.fs, ops));
  }

  /** The model part of one item's fix: construct the description model
      on first need and generate the invalid caption and labels, then the
      same for the text model and the text. */
  method GenerateFields(albumIndex: nat, name: string, m: ItemMetadata, events: seq<FixEvent>, descLoaded: bool, textLoaded: bool)
    returns (events': seq<FixEvent>, descLoaded': bool, textLoaded': bool)
    ensures events' == ItemEvents(events, albumIndex, name, m, descLoaded, textLoaded)
    ensures descLoaded' == (descLoaded || !HasValidCaption(m) || !HasValidLabels(m))
    ensures textLoaded' == (textLoaded || !HasValidText(m))
  {
    events', descLoaded', textLoaded' := events, descLoaded, textLoaded;
    var fixCaption := !HasValidCaption(m);
    var fixLabels := !HasValidLabels(m);
    var fixText := !HasValidText(m);
    if fixCaption || fixLabels {
      if !descLoaded' {
        events' := events' + [LoadDescriptionModel];
        descLoaded' := true;
      }
      if fixCaption {
        events' := events' + [Generated(albumIndex, name, CaptionKey)];
      }
      if fixLabels {
        events' := events' + [Generated(albumIndex, name, LabelsKey)];
      }
    }
    if fixText {
      if !textLoaded' {
        events' := events' + [LoadTextModel];
        textLoaded' := true;
      }
      events' := events' + [Generated(albumIndex, name, TextKey)];
    }
  }

  // ---------------------------------------------------------------------
  // Runs over all albums
  // ---------------------------------------------------------------------

  /** The albums' data, in order. */
  function AlbumsData(albums: seq<Album>): (r: seq<AlbumData>)
    reads albums
    ensures |r| == |albums| && forall i :: 0 <= i < |albums| ==> r[i] == DataOf(albums[i])
  {
    if albums == [] then [] else AlbumsData(albums[..|albums| - 1]) + [DataOf(albums[|albums| - 1])]
  }

  /** The albums' metadata file paths, in order. */
  function MetadataPaths(albums: seq<Album>): (r: seq<string>)
    ensures |r| == |albums| && forall i :: 0 <= i < |albums| ==> r[i] == albums[i].metadataPath
  {
    seq(|albums|, i requires 0 <= i < |albums| => albums[i].metadataPath)
  }

  /** `search` over the first albums, in order; the run stops at the first
      album whose search raises. */
  function SearchAll(albums: seq<AlbumData>, query: string): (r: SearchOutcome)
  {
    if albums == [] then SearchOutcome([], false)
    else
      var before := SearchAll(albums[..|albums| - 1], query);
      var last := albums[|albums| - 1];
      if before.raised then before
      else
        var o := SearchItems(last.items, last.metadata, query);
        SearchOutcome(before.paths + o.paths, o.raised)
  }

  /** The clean run over the first n albums: each album is cleaned and
      saved with a backup, the filesystem threading through the saves. */
  datatype CleanResult = CleanResult(fs: FileSystem, albums: seq<AlbumData>)

  function CleanUpTo(fs: FileSystem, inputs: seq<AlbumData>, metadataPaths: seq<string>, n: nat): (r: CleanResult)
    requires n <= |inputs| == |metadataPaths|
    ensures |r.albums| == n
    decreases n, 0
  {
    if n == 0 then CleanResult(fs, [])
    else
      var next := CleanAlbumAt(fs, inputs, metadataPaths, n - 1);
      CleanResult(next.fs, CleanUpTo(fs, inputs, metadataPaths, n - 1).albums + next.albums)
  }

  /** Album k of the clean run, from the filesystem the first k albums
      leave. */
  function CleanAlbumAt(fs: FileSystem, inputs: seq<AlbumData>, metadataPaths: seq<string>, k: nat): (r: CleanResult)
    requires k < |inputs| == |metadataPaths|
    ensures |r.albums| == 1
    decreases k, 1
  {
    CleanAlbum(CleanUpTo(fs, inputs, metadataPaths, k).fs, inputs[k], metadataPaths[k])
  }

  /** One album of the clean run: `clean_metadata`, then `save_metadata`
      with its default backup. */
  function CleanAlbum(fs: FileSystem, d: AlbumData, metadataPath: string): (r: CleanResult)
    ensures |r.albums| == 1
  {
    var c := Clean(d.items, d.metadata, fs.mtime);
    var ops := SaveWrites(metadataPath, MetadataDoc(c.keys, c.metadata), fs.existing, true);
    CleanResult(ApplyAll(fs, ops), [AlbumData(c.items, c.keys, c.metadata)])
  }

  // ---------------------------------------------------------------------
  // The screen
  // ---------------------------------------------------------------------

  /** One pass of the loop of `execute_option_clean`. */
  method CleanAndSave(album: Album, fs: FileSystem) returns (fs': FileSystem)
    requires album.Valid()
    modifies album
    ensures album.Valid()
    ensures CleanResult(fs', [DataOf(album)]) == CleanAlbum(fs, old(DataOf(album)), album.metadataPath)
  {
    album.CleanMetadata(fs);
    var backupIndex, ops := album.SaveMetadata(fs, true);
    fs' := ApplyAll(fs, ops);
  }

  /** The buttons of the screen. */
  datatype ButtonId = Back | SearchAlbums | CleanAlbums | FixAlbums

  /** What pressing a button does. */
  datatype Outcome = Notified(message: string) | PoppedScreen | OpenedSearchDialog | StartedClean | StartedFix

  /** What the search dialog's answer does. */
  datatype SearchStart = Cancelled | Rejected(message: string) | StartedSearch

  const ExitWhileWorking := "Can't exit until the current action finishes"
  const WaitWhileWorking := "Wait until the current action finishes"
  const SearchTooShort := "Search must be at least 3 characters long"
  const MinSearchLength := 3

  /** `on_button_pressed`: while an action runs, every button only
      notifies; otherwise back leaves the screen, search opens the dialog,
      and clean and fix start their runs. */
  function Pressed(isWorking: bool, button: ButtonId): (r: Outcome)
    ensures r.Notified? <==> isWorking
    ensures r.Notified? ==> (r.message == ExitWhileWorking <==> button == Back)
    ensures r.StartedClean? <==> !isWorking && button == CleanAlbums
    ensures r.StartedFix? <==> !isWorking && button == FixAlbums
    ensures r.PoppedScreen? <==> !isWorking && button == Back
  {
    if isWorking then Notified(if button == Back then ExitWhileWorking else WaitWhileWorking)
    else match button
      case Back => PoppedScreen
      case SearchAlbums => OpenedSearchDialog
      case CleanAlbums => StartedClean
      case FixAlbums => StartedFix
  }

  /** The counts `update_info` shows. */
  datatype Info = Info(withMetadata: int, withoutMetadata: int)

  /** The sums of the albums' two counters. */
  function CountersSum(albums: seq<Album>): (r: Info)
    reads albums
  {
    if albums == [] then Info(0, 0)
    else
      var before := CountersSum(albums[..|albums| - 1]);
      var last := albums[|albums| - 1];
      Info(before.withMetadata + last.withMetadata, before.withoutMetadata + last.withoutMetadata)
  }

  /** The number of items of the albums. */
  function ItemCount(albums: seq<AlbumData>): nat {
    if albums == [] then 0 else ItemCount(albums[..|albums| - 1]) + |albums[|albums| - 1].items|
  }

  /** The counters of an album agree with its items, as `__init__` and
      `load_metadata` leave them. */
  ghost predicate CountersMatch(album: Album)
    reads album
  {
    album.withMetadata + album.withoutMetadata == |album.items|
  }

  /** The summing loop of `load_albums`. */
  method CountItems(albums: seq<Album>) returns (withMetadata: int, withoutMetadata: int)
    ensures Info(withMetadata, withoutMetadata) == CountersSum(albums)
  {
    withMetadata, withoutMetadata := 0, 0;
    for i := 0 to |albums|
      invariant Info(withMetadata, withoutMetadata) == CountersSum(albums[..i])
    {
      assert albums[..i + 1][..i] == albums[..i];
      withMetadata := withMetadata + albums[i].withMetadata;
      withoutMetadata := withoutMetadata + albums[i].withoutMetadata;
    }
    assert albums[..|albums|] == albums;
  }

  /** When every album's counters agree with its items, the summed
      counters count every item of every album. */
  lemma {:induction false} CountersSumCountsItems(albums: seq<Album>)
    requires forall i :: 0 <= i < |albums| ==> CountersMatch(albums[i])
    ensures CountersSum(albums).withMetadata + CountersSum(albums).withoutMetadata == ItemCount(AlbumsData(albums))
    decreases |albums|
  {
    if albums != [] {
      var init := albums[..|albums| - 1];
      CountersSumCountsItems(init);
      assert AlbumsData(albums)[..|albums| - 1] == AlbumsData(init);
    }
  }

  /** What the search logs: each hit's path, then the count unless the
      search raised. */
  function SearchLog(found: seq<string>, raised: bool): (r: seq<string>)
    ensures |found| <= |r| && r[..|found|] == found
    ensures raised <==> |r| == |found|
    ensures !raised ==> r[|found|] == FoundMessage(|found|)
  {
    if raised then found else found + [FoundMessage(|found|)]
  }

  function FixedMessage(n: nat): string {
    "Finished fixing albums metadata (fixed " + DecimalString(n) + ")"
  }

  function FoundMessage(n: nat): string {
    "Found " + DecimalString(n) + " items"
  }

  /** Each album is in a consistent state, and no album is listed twice. */
  ghost predicate AlbumsValid(albums: seq<Album>)
    reads albums
  {
    && (forall i :: 0 <= i < |albums| ==> albums[i].Valid())
    && (forall i, j :: 0 <= i < j < |albums| ==> albums[i] != albums[j])
  }

  /** The line `load_albums` logs when a link's path is missing. */
  const LoadFailed := "Failed to load albums (please check all links in settings have existing paths)"

  class MetadataScreen {
    var albums: seq<Album>
    var isWorking: bool
    var contentVisible: bool
    var info: Info
    var log: seq<string>

    /** The albums are distinct objects, each in a consistent state. */
    ghost predicate Valid()
      reads this`albums, albums
    {
      AlbumsValid(albums)
    }

    constructor ()
      ensures Valid() && albums == [] && !isWorking && log == []
    {
      albums := [];
      isWorking := false;
      contentVisible := true;
      info := Info(0, 0);
      log := [];
    }

    /** `load_albums` as it is written: `Library.load_albums` returns a
        bool, and unpacking it into two names raises, so the screen keeps
        no album. */
    method LoadAlbumsAsWritten(library: Library, fs: FileSystem) returns (raised: bool)
      requires fs.Valid()
      modifies library`albums
      ensures raised
      ensures albums == old(albums) && info == old(info) && log == old(log)
    {
      var success := library.LoadAlbums(ImageSuffixes, fs);
      raised := true;
    }

    /** `load_albums` with the albums `Library.load_albums` builds: the
        screen takes them, logs the outcome, shows its options only on
        success and shows the summed counters. */
    method LoadAlbums(library: Library, fs: FileSystem) returns (success: bool)
      requires fs.Valid()
      modifies this, library`albums
      ensures success <==> forall i :: 0 <= i < |library.links| ==> library.links[i].IsValid(fs)
      ensures albums == library.albums && Valid() && |albums| <= |library.links|
      ensures forall i :: 0 <= i < |albums| ==> BuiltFrom(albums[i], library.links[i], ImageSuffixes, fs)
      ensures contentVisible == success
      ensures info == CountersSum(albums)
      ensures log == old(log) + [if success then "Loaded " + DecimalString(|albums|) + " albums successfully"
                                 else LoadFailed]
    {
      success := library.LoadAlbums(ImageSuffixes, fs);
      ShowAlbums(library.albums, success);
    }

    /** The rest of `load_albums`: the screen takes the loaded albums, logs
        the outcome, shows its options only on success and shows the summed
        counters. */
    method ShowAlbums(loaded: seq<Album>, success: bool)
      requires AlbumsValid(loaded)
      modifies this
      ensures albums == loaded && Valid()
      ensures contentVisible == success
      ensures info == CountersSum(albums)
      ensures log == old(log) + [if success then "Loaded " + DecimalString(|albums|) + " albums successfully"
                                 else LoadFailed]
    {
      var withMetadata, withoutMetadata := CountItems(loaded);
      var message := if success then "Loaded " + DecimalString(|loaded|) + " albums successfully"
                     else LoadFailed;
      log, contentVisible, info := log + [message], success, Info(withMetadata, withoutMetadata);
      albums := loaded;
    }

    /** `on_button_pressed` with `option_clean` and `option_fix`, which
        mark the screen as working and log the start of their run. */
    method OnButtonPressed(button: ButtonId) returns (outcome: Outcome)
      modifies this`isWorking, this`log
      ensures outcome == Pressed(old(isWorking), button)
      ensures isWorking == (old(isWorking) || outcome.StartedClean? || outcome.StartedFix?)
      ensures log == old(log) + (if outcome.StartedClean? then ["Cleaning albums metadata..."]
                                 else if outcome.StartedFix? then ["Fixing albums metadata..."] else [])
    {
      if isWorking {
        if button == Back {
          return Notified(ExitWhileWorking);
        }
        return Notified(WaitWhileWorking);
      }
      match button {
        case Back => outcome := PoppedScreen;
        case SearchAlbums => outcome := OpenedSearchDialog;
        case CleanAlbums =>
          isWorking := true;
          log := log + ["Cleaning albums metadata..."];
          outcome := StartedClean;
        case FixAlbums =>
          isWorking := true;
          log := log + ["Fixing albums metadata..."];
          outcome := StartedFix;
      }
    }

    /** `on_result` of the search dialog: a cancelled dialog does nothing,
        a query shorter than three characters is refused, any other starts
        the search. */
    method OnSearchResult(value: Option<string>) returns (start: SearchStart)
      modifies this`isWorking, this`log
      ensures value.None? <==> start.Cancelled?
      ensures start.Rejected? <==> value.Some? && |value.value| < MinSearchLength
      ensures start.Rejected? ==> start.message == SearchTooShort
      ensures start.StartedSearch? ==> isWorking && log == old(log) + ["Searching for \"" + value.value + "\"..."]
      ensures !start.StartedSearch? ==> isWorking == old(isWorking) && log == old(log)
    {
      if value.None? {
        return Cancelled;
      }
      if |value.value| < MinSearchLength {
        return Rejected(SearchTooShort);
      }
      isWorking := true;
      log := log + ["Searching for \"" + value.value + "\"..."];
      start := StartedSearch;
    }

    /** `execute_option_search`: every album is searched in order and each
        hit is logged; when an album's search raises, the worker stops
        there and the screen stays working. */
    method ExecuteOptionSearch(value: string) returns (found: seq<string>, raised: bool)
      modifies this`isWorking, this`log
      ensures SearchOutcome(found, raised) == SearchAll(old(AlbumsData(albums)), Lower(value))
      ensures log == old(log) + SearchLog(found, raised)
      ensures isWorking == (old(isWorking) && raised)
    {
      found, raised := SearchAlbums(value);
      log := log + SearchLog(found, raised);
      if !raised {
        isWorking := false;
      }
    }

    /** The album loop of `execute_option_search`, which stops at the first
        search that raises. */
    method SearchAlbums(value: string) returns (found: seq<string>, raised: bool)
      ensures SearchOutcome(found, raised) == SearchAll(AlbumsData(albums), Lower(value))
    {
      ghost var datas := AlbumsData(albums);
      var query := Lower(value);
      found, raised := [], false;
      for a := 0 to |albums|
        invariant SearchOutcome(found, raised) == SearchAll(datas[..a], query)
      {
        var albumFound, albumRaised := albums[a].Search(value);
        SearchAllStep(datas, query, a, SearchOutcome(albumFound, albumRaised));
        found := found + albumFound;
        if albumRaised {
          raised := true;
          SearchAllStaysRaised(datas, query, a + 1);
          assert AlbumsData(albums) == datas;
          return;
        }
      }
      assert datas[..|albums|] == datas;
    }

    /** The clean run over every album of the screen. */
    ghost function CleanOutcome(fs: FileSystem): CleanResult
      reads this`albums, albums
    {
      CleanUpTo(fs, AlbumsData(albums), MetadataPaths(albums), |albums|)
    }

    /** The fix run over every album of the screen. */
    ghost function FixOutcome(fs: FileSystem, models: Models): FixResult
      reads this`albums, albums
    {
      FixUpTo(InitialRun(fs), AlbumsData(albums), MetadataPaths(albums), |albums|, models)
    }

    /** `execute_option_clean`: every album is cleaned and saved with a
        backup; then the screen stops working. */
    method ExecuteOptionClean(fs: FileSystem) returns (fs': FileSystem)
      requires Valid()
      modifies this`isWorking, this`log, albums
      ensures Valid()
      ensures fs' == old(CleanOutcome(fs)).fs
      ensures forall j :: 0 <= j < |albums| ==>
        DataOf(albums[j]) == old(CleanOutcome(fs)).albums[j]
      ensures !isWorking && log == old(log) + ["Finished cleaning albums metadata"]
    {
      fs' := CleanAll(fs);
      isWorking := false;
      log := log + ["Finished cleaning albums metadata"];
    }

    /** The album loop of `execute_option_clean`. */
    method CleanAll(fs: FileSystem) returns (fs': FileSystem)
      requires Valid()
      modifies albums
      ensures Valid()
      ensures fs' == old(CleanOutcome(fs)).fs
      ensures forall j :: 0 <= j < |albums| ==>
        DataOf(albums[j]) == old(CleanOutcome(fs)).albums[j]
    {
      ghost var inputs := AlbumsData(albums);
      ghost var paths := MetadataPaths(albums);
      ghost var done: seq<AlbumData> := [];
      fs' := fs;
      for a := 0 to |albums|
        invariant CleanedUpTo(a, fs, inputs, paths, fs', done)
      {
        fs' := CleanOne(a, fs', fs, inputs, paths, done);
        done := done + [DataOf(albums[a])];
      }
    }

    /** The album loop of `execute_option_clean` has processed the first
        `a` albums: their states are `done`, the later albums are
        untouched. */
    ghost predicate CleanedUpTo(a: nat, fs0: FileSystem, inputs: seq<AlbumData>, paths: seq<string>,
                                fs: FileSystem, done: seq<AlbumData>)
      reads this`albums, albums
    {
      && Valid() && a <= |albums| == |inputs| && paths == MetadataPaths(albums) && |done| == a
      && CleanUpTo(fs0, inputs, paths, a) == CleanResult(fs, done)
      && forall j :: 0 <= j < |albums| ==> DataOf(albums[j]) == if j < a then done[j] else inputs[j]
    }

    /** One album of the loop of `execute_option_clean`; the other albums
        keep their state. */
    method CleanOne(a: nat, fs: FileSystem, ghost fs0: FileSystem, ghost inputs: seq<AlbumData>,
                    ghost paths: seq<string>, ghost done: seq<AlbumData>) returns (fs': FileSystem)
      requires a < |albums| && CleanedUpTo(a, fs0, inputs, paths, fs, done)
      modifies albums[a]
      ensures CleanedUpTo(a + 1, fs0, inputs, paths, fs', done + [DataOf(albums[a])])
    {
      assert forall j :: 0 <= j < |albums| && j != a ==> albums[j] != albums[a];
      fs' := CleanAndSave(albums[a], fs);
    }

    /** `execute_option_fix`: the album loop, then the info shows every
        counted item as having metadata and the screen stops working. */
    method ExecuteOptionFix(models: Models, fs: FileSystem) returns (run: RunState)
      requires Valid()
      modifies this`isWorking, this`log, this`info, albums
      ensures Valid()
      ensures run == old(FixOutcome(fs, models)).run
      ensures forall j :: 0 <= j < |albums| ==>
        DataOf(albums[j]) == old(FixOutcome(fs, models)).albums[j]
      ensures info == Info(run.totalCount, 0)
      ensures !isWorking && log == old(log) + [FixedMessage(run.totalFixed)]
    {
      run := FixAll(models, fs);
      info := Info(run.totalCount, 0);
      isWorking := false;
      log := log + [FixedMessage(run.totalFixed)];
    }

    /** The album loop of `execute_option_fix`. */
    method FixAll(models: Models, fs: FileSystem) returns (run: RunState)
      requires Valid()
      modifies albums
      ensures Valid()
      ensures run == old(FixOutcome(fs, models)).run
      ensures forall j :: 0 <= j < |albums| ==>
        DataOf(albums[j]) == old(FixOutcome(fs, models)).albums[j]
    {
      ghost var inputs := AlbumsData(albums);
      ghost var paths := MetadataPaths(albums);
      ghost var done: seq<AlbumData> := [];
      run := InitialRun(fs);
      ghost var run0 := run;
      for a := 0 to |albums|
        invariant FixedUpTo(a, run0, inputs, paths, models, run, done)
      {
        run := FixOne(a, run, models, run0, inputs, paths, done);
        done := done + [DataOf(albums[a])];
      }
    }

    /** The album loop of `execute_option_fix` has processed the first `a`
        albums: their states are `done`, the later albums are untouched. */
    ghost predicate FixedUpTo(a: nat, run0: RunState, inputs: seq<AlbumData>, paths: seq<string>,
                              models: Models, run: RunState, done: seq<AlbumData>)
      reads this`albums, albums
    {
      && Valid() && a <= |albums| == |inputs| && paths == MetadataPaths(albums) && |done| == a
      && FixUpTo(run0, inputs, paths, a, models) == FixResult(run, done)
      && forall j :: 0 <= j < |albums| ==> DataOf(albums[j]) == if j < a then done[j] else inputs[j]
    }

    /** One album of the loop of `execute_option_fix`; the other albums
        keep their state. */
    method FixOne(a: nat, run: RunState, models: Models, ghost run0: RunState, ghost inputs: seq<AlbumData>,
                  ghost paths: seq<string>, ghost done: seq<AlbumData>) returns (run': RunState)
      requires a < |albums| && FixedUpTo(a, run0, inputs, paths, models, run, done)
      modifies albums[a]
      ensures FixedUpTo(a + 1, run0, inputs, paths, models, run', done + [DataOf(albums[a])])
    {
      assert forall j :: 0 <= j < |albums| && j != a ==> albums[j] != albums[a];
      run' := FixAlbumItems(albums[a], a, run, models);
    }
  }

  /** The search over one more album, given that album's outcome. */
  lemma SearchAllStep(albums: seq<AlbumData>, query: string, a: nat, o: SearchOutcome)
    requires a < |albums| && o == SearchItems(albums[a].items, albums[a].metadata, query)
    ensures var before := SearchAll(albums[..a], query);
      SearchAll(albums[..a + 1], query)
        == if before.raised then before else SearchOutcome(before.paths + o.paths, o.raised)
  {
    assert albums[..a + 1][..a] == albums[..a];
  }

  /** Every path the search over all albums reports is the path of a hit
      of one of them. */
  lemma {:induction false} SearchAllSound(albums: seq<AlbumData>, query: string)
    ensures forall p :: p in SearchAll(albums, query).paths ==>
      exists a, i :: 0 <= a < |albums| && 0 <= i < |albums[a].items|
        && albums[a].items[i].path == p && Hit(albums[a].items[i], albums[a].metadata, query)
  {
    if albums != [] {
      var init := albums[..|albums| - 1];
      var last := albums[|albums| - 1];
      SearchAllSound(init, query);
      SearchItemsSound(last.items, last.metadata, query);
      assert forall a :: 0 <= a < |init| ==> init[a] == albums[a];
    }
  }

  /** A search over all albums that did not raise reports every hit of
      every album, when each album's item paths are distinct. */
  lemma {:induction false} SearchAllComplete(albums: seq<AlbumData>, query: string)
    requires forall a, i, j :: 0 <= a < |albums| && 0 <= i < j < |albums[a].items| ==>
      albums[a].items[i].path != albums[a].items[j].path
    ensures !SearchAll(albums, query).raised ==>
      forall a, i :: 0 <= a < |albums| && 0 <= i < |albums[a].items| && Hit(albums[a].items[i], albums[a].metadata, query) ==>
        albums[a].items[i].path in SearchAll(albums, query).paths
  {
    if albums != [] {
      var init := albums[..|albums| - 1];
      var last := albums[|albums| - 1];
      assert forall a :: 0 <= a < |init| ==> init[a] == albums[a];
      SearchAllComplete(init, query);
      SearchItemsComplete(last.items, last.metadata, query);
    }
  }

  /** Once the search over the first albums raised, later albums add
      nothing. */
  lemma {:induction false} SearchAllStaysRaised(albums: seq<AlbumData>, query: string, n: nat)
    requires n <= |albums| && SearchAll(albums[..n], query).raised
    ensures SearchAll(albums, query) == SearchAll(albums[..n], query)
    decreases |albums| - n
  {
    if n < |albums| {
      assert albums[..n + 1][..n] == albums[..n];
      SearchAllStaysRaised(albums, query, n + 1);
    } else {
      assert albums[..n] == albums;
    }
  }
}
