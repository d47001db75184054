/** What the fix run of screens/metadata/metadata_screen.py promises,
    proved about the functions that specify it (`ItemStep`, `ItemsUpTo`,
    `FixAlbum`, `FixUpTo`): which items are fixed and counted, that every
    item ends complete, that each model is constructed once and before its
    first use, and when an album is saved and with which backup flag. */
module FixRun {
  import opened Json
  import opened Metadata
  import opened Fs
  import opened Albums
  import opened MetadataOptions

  // ---------------------------------------------------------------------
  // Items fixed and counted
  // ---------------------------------------------------------------------

  /** The number of items among the first n whose metadata is incomplete. */
  function IncompleteCount(d: AlbumData, n: nat): (r: nat)
    requires n <= |d.items|
    ensures r <= n
  {
    if n == 0 then 0
    else IncompleteCount(d, n - 1) + (if IsComplete(MetadataOf(d, d.items[n - 1].name)) then 0 else 1)
  }

  /** Fixing the fields of item i: the item ends complete, no other
      name's metadata changes, the counters advance by one and the album
      is marked modified. */
  lemma FixStepEffect(p: Progress, albumIndex: nat, i: nat, models: Models)
    requires i < |p.album.data.items|
    ensures var d := p.album.data;
      var name := d.items[i].name;
      var q := FixStep(p, albumIndex, i, models);
      && q.run.totalCount == p.run.totalCount && q.run.totalFixed == p.run.totalFixed + 1
      && q.album.fixed == p.album.fixed + 1 && q.album.modified
      && IsComplete(MetadataOf(q.album.data, name))
      && (forall k :: k != name ==> MetadataOf(q.album.data, k) == MetadataOf(d, k))
  {
    var d := p.album.data;
    var name := d.items[i].name;
    assert MetadataOf(FixedData(d, i, models), name) == FixedItemMetadata(MetadataOf(d, name), d.items[i].path, models);
  }

  /** Iteration k of the item loop, after the items before it: the item
      ends complete, no other name's metadata changes, and a complete item
      is skipped while an incomplete one is counted once and marks the
      album modified. */
  lemma ItemAtEffect(p: Progress, albumIndex: nat, metadataPath: string, k: nat, models: Models)
    requires k < |p.album.data.items|
    ensures var before := ItemsUpTo(p, albumIndex, metadataPath, k, models);
      var d := before.album.data;
      var name := d.items[k].name;
      var r := ItemsUpTo(p, albumIndex, metadataPath, k + 1, models);
      && r.run.totalCount == before.run.totalCount
      && IsComplete(MetadataOf(r.album.data, name))
      && (forall n :: n != name ==> MetadataOf(r.album.data, n) == MetadataOf(d, n))
      && (IsComplete(MetadataOf(d, name)) ==> r == before)
      && (!IsComplete(MetadataOf(d, name)) ==>
            r.album.fixed == before.album.fixed + 1 && r.run.totalFixed == before.run.totalFixed + 1 && r.album.modified)
  {
    var before := ItemsUpTo(p, albumIndex, metadataPath, k, models);
    assert ItemsUpTo(p, albumIndex, metadataPath, k + 1, models) == ItemStep(before, albumIndex, metadataPath, k, models);
    if !IsComplete(MetadataOf(before.album.data, before.album.data.items[k].name)) {
      FixStepEffect(before, albumIndex, k, models);
    }
  }

  /** The items of p's album from index n on have in q the metadata they
      have in p. */
  ghost predicate KeptFrom(p: Progress, q: Progress, n: nat) {
    var d := p.album.data;
    forall j :: n <= j < |d.items| ==> MetadataOf(q.album.data, d.items[j].name) == MetadataOf(d, d.items[j].name)
  }

  /** Iteration n - 1 of the item loop, in an album whose item names are
      distinct, keeps the metadata of the items after it. */
  lemma ItemAtKeepsLater(p: Progress, albumIndex: nat, metadataPath: string, n: nat, models: Models)
    requires 0 < n <= |p.album.data.items| && DistinctNames(Names(p.album.data.items))
    requires KeptFrom(p, ItemsUpTo(p, albumIndex, metadataPath, n - 1, models), n - 1)
    ensures KeptFrom(p, ItemsUpTo(p, albumIndex, metadataPath, n, models), n)
  {
    var d := p.album.data;
    var k := n - 1;
    var before := ItemsUpTo(p, albumIndex, metadataPath, k, models);
    var r := ItemsUpTo(p, albumIndex, metadataPath, k + 1, models);
    ItemAtEffect(p, albumIndex, metadataPath, k, models);
    forall j | k + 1 <= j < |d.items|
      ensures MetadataOf(r.album.data, d.items[j].name) == MetadataOf(d, d.items[j].name)
    {
      assert Names(d.items)[j] != Names(d.items)[k];
      assert MetadataOf(r.album.data, d.items[j].name) == MetadataOf(before.album.data, d.items[j].name);
    }
  }

  /** The item loop over the first n items of an album whose item names
      are distinct leaves the metadata of the later items as it was. */
  lemma {:induction false} ItemsUpToKeepsLater(p: Progress, albumIndex: nat, metadataPath: string, n: nat, models: Models)
    requires n <= |p.album.data.items| && DistinctNames(Names(p.album.data.items))
    ensures KeptFrom(p, ItemsUpTo(p, albumIndex, metadataPath, n, models), n)
  {
    if n > 0 {
      ItemsUpToKeepsLater(p, albumIndex, metadataPath, n - 1, models);
      ItemAtKeepsLater(p, albumIndex, metadataPath, n, models);
    }
  }

  /** The item loop over the first n items leaves each of them complete. */
  lemma {:induction false} ItemsUpToCompletes(p: Progress, albumIndex: nat, metadataPath: string, n: nat, models: Models)
    requires n <= |p.album.data.items|
    ensures var d := p.album.data;
      forall j :: 0 <= j < n ==> IsComplete(MetadataOf(ItemsUpTo(p, albumIndex, metadataPath, n, models).album.data, d.items[j].name))
  {
    if n > 0 {
      var d := p.album.data;
      var before := ItemsUpTo(p, albumIndex, metadataPath, n - 1, models);
      var r := ItemsUpTo(p, albumIndex, metadataPath, n, models);
      ItemsUpToCompletes(p, albumIndex, metadataPath, n - 1, models);
      ItemAtEffect(p, albumIndex, metadataPath, n - 1, models);
      forall j | 0 <= j < n ensures IsComplete(MetadataOf(r.album.data, d.items[j].name)) {
        if d.items[j].name != d.items[n - 1].name {
          assert MetadataOf(r.album.data, d.items[j].name) == MetadataOf(before.album.data, d.items[j].name);
        }
      }
    }
  }

  /** From p to q the loop fixed and counted exactly the items among the
      first n of p's album that were incomplete, and marked the album
      modified exactly when it fixed one. */
  ghost predicate CountedUpTo(p: Progress, q: Progress, n: nat)
    requires n <= |p.album.data.items|
  {
    var c := IncompleteCount(p.album.data, n);
    && q.album.fixed == p.album.fixed + c
    && q.run.totalFixed == p.run.totalFixed + c
    && q.run.totalCount == p.run.totalCount
    && (q.album.modified <==> p.album.modified || c > 0)
  }

  /** Iteration k of the item loop, in an album whose item names are
      distinct, extends `CountedUpTo` by item k. */
  lemma ItemAtCounts(p: Progress, albumIndex: nat, metadataPath: string, k: nat, models: Models)
    requires k < |p.album.data.items| && DistinctNames(Names(p.album.data.items))
    requires CountedUpTo(p, ItemsUpTo(p, albumIndex, metadataPath, k, models), k)
    ensures CountedUpTo(p, ItemsUpTo(p, albumIndex, metadataPath, k + 1, models), k + 1)
  {
    var d := p.album.data;
    var before := ItemsUpTo(p, albumIndex, metadataPath, k, models);
    ItemsUpToKeepsLater(p, albumIndex, metadataPath, k, models);
    assert MetadataOf(before.album.data, d.items[k].name) == MetadataOf(d, d.items[k].name);
    ItemAtEffect(p, albumIndex, metadataPath, k, models);
  }

  /** The item loop over the first n items of an album whose item names are
      distinct fixes and counts exactly the items that were incomplete, and
      the album is modified exactly when it fixed one. */
  lemma {:induction false} ItemsUpToCounts(p: Progress, albumIndex: nat, metadataPath: string, n: nat, models: Models)
    requires n <= |p.album.data.items| && DistinctNames(Names(p.album.data.items))
    ensures CountedUpTo(p, ItemsUpTo(p, albumIndex, metadataPath, n, models), n)
  {
    if n > 0 {
      ItemsUpToCounts(p, albumIndex, metadataPath, n - 1, models);
      ItemAtCounts(p, albumIndex, metadataPath, n - 1, models);
    }
  }

  /** Every item of the album has complete metadata. */
  ghost predicate AllComplete(d: AlbumData) {
    forall j :: 0 <= j < |d.items| ==> IsComplete(MetadataOf(d, d.items[j].name))
  }

  /** The end of an album's iteration keeps the totals, keeps the items up
      to their order, and keeps every item complete. */
  lemma FinishAlbumEffect(p: Progress, albumIndex: nat, metadataPath: string)
    ensures var r := FinishAlbum(p, albumIndex, metadataPath);
      && r.run.totalCount == p.run.totalCount && r.run.totalFixed == p.run.totalFixed
      && multiset(r.album.data.items) == multiset(p.album.data.items)
      && (AllComplete(p.album.data) ==> AllComplete(r.album.data))
  {
    if p.album.modified && AllComplete(p.album.data) {
      var d := p.album.data;
      var c := Clean(d.items, d.metadata, p.run.fs.mtime);
      var e := AlbumData(c.items, c.keys, c.metadata);
      forall j | 0 <= j < |c.items| ensures IsComplete(MetadataOf(e, c.items[j].name)) {
        assert c.items[j] in multiset(d.items);
        var i :| 0 <= i < |d.items| && d.items[i] == c.items[j];
        assert IsComplete(MetadataOf(d, d.items[i].name));
      }
    }
  }

  /** One iteration of the album loop, on an album whose item names are
      distinct: the total count grows by the album's items, the fixed total
      by its incomplete items, the items are kept up to their order, and
      every item ends complete. */
  lemma FixAlbumEffect(run: RunState, d: AlbumData, albumIndex: nat, metadataPath: string, models: Models)
    requires DistinctNames(Names(d.items))
    ensures var r := FixAlbum(run, d, albumIndex, metadataPath, models);
      && r.run.totalCount == run.totalCount + |d.items|
      && r.run.totalFixed == run.totalFixed + IncompleteCount(d, |d.items|)
      && multiset(r.album.data.items) == multiset(d.items)
      && AllComplete(r.album.data)
  {
    var start := StartAlbum(run, d);
    var q := ItemsUpTo(start, albumIndex, metadataPath, |d.items|, models);
    ItemsUpToCounts(start, albumIndex, metadataPath, |d.items|, models);
    ItemsUpToCompletes(start, albumIndex, metadataPath, |d.items|, models);
    FinishAlbumEffect(q, albumIndex, metadataPath);
  }

  /** The number of incomplete items over all the albums. */
  function TotalIncomplete(albums: seq<AlbumData>): nat {
    if albums == [] then 0
    else
      var last := albums[|albums| - 1];
      TotalIncomplete(albums[..|albums| - 1]) + IncompleteCount(last, |last.items|)
  }

  /** Iteration k of the album loop, as `FixAlbumEffect` states. */
  lemma FixAlbumAtEffect(run: RunState, inputs: seq<AlbumData>, metadataPaths: seq<string>, k: nat, models: Models)
    requires k < |inputs| == |metadataPaths| && DistinctNames(Names(inputs[k].items))
    ensures var before := FixUpTo(run, inputs, metadataPaths, k, models);
      var r := FixUpTo(run, inputs, metadataPaths, k + 1, models);
      && r.run.totalCount == before.run.totalCount + |inputs[k].items|
      && r.run.totalFixed == before.run.totalFixed + IncompleteCount(inputs[k], |inputs[k].items|)
      && r.albums == before.albums + [r.albums[k]]
      && multiset(r.albums[k].items) == multiset(inputs[k].items)
      && AllComplete(r.albums[k])
  {
    var p := FixAlbumAt(run, inputs, metadataPaths, k, models);
    assert FixUpTo(run, inputs, metadataPaths, k + 1, models) == FixResult(p.run, FixUpTo(run, inputs, metadataPaths, k, models).albums + [p.album.data]);
    FixAlbumEffect(FixUpTo(run, inputs, metadataPaths, k, models).run, inputs[k], k, metadataPaths[k], models);
  }

  /** The album loop over the first n albums, each with distinct item
      names: the total count is their number of items and the fixed total
      is their number of incomplete items. */
  lemma {:induction false} FixUpToCounts(run: RunState, inputs: seq<AlbumData>, metadataPaths: seq<string>, n: nat, models: Models)
    requires n <= |inputs| == |metadataPaths|
    requires forall a :: 0 <= a < |inputs| ==> DistinctNames(Names(inputs[a].items))
    ensures var r := FixUpTo(run, inputs, metadataPaths, n, models);
      && r.run.totalCount == run.totalCount + ItemCount(inputs[..n])
      && r.run.totalFixed == run.totalFixed + TotalIncomplete(inputs[..n])
  {
    if n > 0 {
      FixUpToCounts(run, inputs, metadataPaths, n - 1, models);
      FixAlbumAtEffect(run, inputs, metadataPaths, n - 1, models);
      assert inputs[..n][..n - 1] == inputs[..n - 1];
    }
  }

  /** The album loop over the first n albums, each with distinct item
      names, leaves every one of them with the same items, each complete. */
  lemma {:induction false} FixUpToCompletes(run: RunState, inputs: seq<AlbumData>, metadataPaths: seq<string>, n: nat, models: Models)
    requires n <= |inputs| == |metadataPaths|
    requires forall a :: 0 <= a < |inputs| ==> DistinctNames(Names(inputs[a].items))
    ensures FixedAlbums(inputs[..n], FixUpTo(run, inputs, metadataPaths, n, models).albums)
  {
    if n > 0 {
      FixUpToCompletes(run, inputs, metadataPaths, n - 1, models);
      FixAlbumAtCompletes(run, inputs, metadataPaths, n - 1, models);
    }
  }

  /** Iteration k of the album loop extends `FixedAlbums` by album k. */
  lemma FixAlbumAtCompletes(run: RunState, inputs: seq<AlbumData>, metadataPaths: seq<string>, k: nat, models: Models)
    requires k < |inputs| == |metadataPaths| && DistinctNames(Names(inputs[k].items))
    requires FixedAlbums(inputs[..k], FixUpTo(run, inputs, metadataPaths, k, models).albums)
    ensures FixedAlbums(inputs[..k + 1], FixUpTo(run, inputs, metadataPaths, k + 1, models).albums)
  {
    FixAlbumAtEffect(run, inputs, metadataPaths, k, models);
    var r := FixUpTo(run, inputs, metadataPaths, k + 1, models);
    FixedAlbumsAppend(inputs[..k], FixUpTo(run, inputs, metadataPaths, k, models).albums, inputs[k], r.albums[k]);
    assert inputs[..k + 1] == inputs[..k] + [inputs[k]];
  }

  lemma FixedAlbumsAppend(inputs: seq<AlbumData>, outputs: seq<AlbumData>, input: AlbumData, output: AlbumData)
    requires FixedAlbums(inputs, outputs)
    requires AllComplete(output) && multiset(output.items) == multiset(input.items)
    ensures FixedAlbums(inputs + [input], outputs + [output])
  {
  }

  /** Each output album has the items of its input album, each complete. */
  ghost predicate FixedAlbums(inputs: seq<AlbumData>, outputs: seq<AlbumData>) {
    |inputs| == |outputs| &&
    forall a :: 0 <= a < |inputs| ==> AllComplete(outputs[a]) && multiset(outputs[a].items) == multiset(inputs[a].items)
  }

  // ---------------------------------------------------------------------
  // Model construction
  // ---------------------------------------------------------------------

  /** The model that generates a field. */
  function ModelFor(key: string): FixEvent {
    if key == TextKey then LoadTextModel else LoadDescriptionModel
  }

  /** The model events so far agree with the two flags: a flag is set
      exactly when its model was constructed, each model is constructed at
      most once, and each generation comes after the construction of its
      model. */
  ghost predicate ModelEvents(descLoaded: bool, textLoaded: bool, events: seq<FixEvent>) {
    && (descLoaded <==> LoadDescriptionModel in events)
    && (textLoaded <==> LoadTextModel in events)
    && multiset(events)[LoadDescriptionModel] <= 1
    && multiset(events)[LoadTextModel] <= 1
    && forall i :: 0 <= i < |events| && events[i].Generated? ==> ModelFor(events[i].key) in events[..i]
  }

  /** A generation after its model's construction keeps `ModelEvents`. */
  lemma AppendGenerated(descLoaded: bool, textLoaded: bool, events: seq<FixEvent>, albumIndex: nat, name: string, key: string)
    requires ModelEvents(descLoaded, textLoaded, events) && ModelFor(key) in events
    ensures ModelEvents(descLoaded, textLoaded, events + [Generated(albumIndex, name, key)])
  {
    var e := events + [Generated(albumIndex, name, key)];
    assert e[..|events|] == events;
    forall i | 0 <= i < |events| ensures e[..i] == events[..i] {
    }
  }

  /** A save keeps `ModelEvents`. */
  lemma AppendSaved(descLoaded: bool, textLoaded: bool, events: seq<FixEvent>, albumIndex: nat, backup: bool, final: bool)
    requires ModelEvents(descLoaded, textLoaded, events)
    ensures ModelEvents(descLoaded, textLoaded, events + [Saved(albumIndex, backup, final)])
  {
    var e := events + [Saved(albumIndex, backup, final)];
    forall i | 0 <= i < |events| ensures e[..i] == events[..i] {
    }
  }

  /** Constructing a model that was not constructed yet sets its flag and
      keeps `ModelEvents`. */
  lemma AppendLoad(descLoaded: bool, textLoaded: bool, events: seq<FixEvent>, load: FixEvent)
    requires ModelEvents(descLoaded, textLoaded, events)
    requires (load == LoadDescriptionModel && !descLoaded) || (load == LoadTextModel && !textLoaded)
    ensures ModelEvents(descLoaded || load == LoadDescriptionModel, textLoaded || load == LoadTextModel, events + [load])
  {
    var e := events + [load];
    forall i | 0 <= i < |events| ensures e[..i] == events[..i] {
    }
  }

  /** The description-model block of one item's fix keeps
      `ModelEvents`: the model is constructed only when the caption or the
      labels need it and it was not constructed before. */
  lemma DescriptionEventsKeep(events: seq<FixEvent>, albumIndex: nat, name: string, m: ItemMetadata, descLoaded: bool, textLoaded: bool)
    requires ModelEvents(descLoaded, textLoaded, events)
    ensures ModelEvents(descLoaded || !HasValidCaption(m) || !HasValidLabels(m), textLoaded,
                        DescriptionEvents(events, albumIndex, name, m, descLoaded))
  {
    if !HasValidCaption(m) || !HasValidLabels(m) {
      var e1 := AppendIf(events, !descLoaded, LoadDescriptionModel);
      if !descLoaded {
        AppendLoad(descLoaded, textLoaded, events, LoadDescriptionModel);
      }
      var e2 := AppendIf(e1, !HasValidCaption(m), Generated(albumIndex, name, CaptionKey));
      if !HasValidCaption(m) {
        AppendGenerated(true, textLoaded, e1, albumIndex, name, CaptionKey);
      }
      if !HasValidLabels(m) {
        assert LoadDescriptionModel in e2 by {
          assert e1 <= e2;
        }
        AppendGenerated(true, textLoaded, e2, albumIndex, name, LabelsKey);
      }
    }
  }

  /** The text-model block of one item's fix keeps `ModelEvents`: the
      model is constructed only when the text needs it and it was not
      constructed before. */
  lemma TextEventsKeep(events: seq<FixEvent>, albumIndex: nat, name: string, m: ItemMetadata, descLoaded: bool, textLoaded: bool)
    requires ModelEvents(descLoaded, textLoaded, events)
    ensures ModelEvents(descLoaded, textLoaded || !HasValidText(m), TextEvents(events, albumIndex, name, m, textLoaded))
  {
    if !HasValidText(m) {
      var e1 := AppendIf(events, !textLoaded, LoadTextModel);
      if !textLoaded {
        AppendLoad(descLoaded, textLoaded, events, LoadTextModel);
      }
      AppendGenerated(descLoaded, true, e1, albumIndex, name, TextKey);
    }
  }

  /** Fixing one item keeps `ModelEvents`. */
  lemma ItemEventsKeep(events: seq<FixEvent>, albumIndex: nat, name: string, m: ItemMetadata, descLoaded: bool, textLoaded: bool)
    requires ModelEvents(descLoaded, textLoaded, events)
    ensures ModelEvents(descLoaded || !HasValidCaption(m) || !HasValidLabels(m), textLoaded || !HasValidText(m),
                        ItemEvents(events, albumIndex, name, m, descLoaded, textLoaded))
  {
    DescriptionEventsKeep(events, albumIndex, name, m, descLoaded, textLoaded);
    TextEventsKeep(DescriptionEvents(events, albumIndex, name, m, descLoaded), albumIndex, name, m,
                   descLoaded || !HasValidCaption(m) || !HasValidLabels(m), textLoaded);
  }

  /** The run's model flags and events agree as `ModelEvents` states. */
  ghost predicate RunModels(run: RunState) {
    ModelEvents(run.descLoaded, run.textLoaded, run.events)
  }

  /** Fixing the fields of an item keeps `RunModels`. */
  lemma FixStepModels(p: Progress, albumIndex: nat, i: nat, models: Models)
    requires i < |p.album.data.items| && RunModels(p.run)
    ensures RunModels(FixStep(p, albumIndex, i, models).run)
  {
    var d := p.album.data;
    ItemEventsKeep(p.run.events, albumIndex, d.items[i].name, MetadataOf(d, d.items[i].name), p.run.descLoaded, p.run.textLoaded);
  }

  /** The scheduled save keeps `RunModels`. */
  lemma SaveStepModels(p: Progress, albumIndex: nat, metadataPath: string, i: nat)
    requires RunModels(p.run)
    ensures RunModels(SaveStep(p, albumIndex, metadataPath, i).run)
  {
    AppendSaved(p.run.descLoaded, p.run.textLoaded, p.run.events, albumIndex, !p.album.saved, false);
  }

  /** Iteration k of the item loop keeps `RunModels`. */
  lemma ItemAtModels(p: Progress, albumIndex: nat, metadataPath: string, k: nat, models: Models)
    requires k < |p.album.data.items| && RunModels(ItemsUpTo(p, albumIndex, metadataPath, k, models).run)
    ensures RunModels(ItemsUpTo(p, albumIndex, metadataPath, k + 1, models).run)
  {
    var before := ItemsUpTo(p, albumIndex, metadataPath, k, models);
    assert ItemsUpTo(p, albumIndex, metadataPath, k + 1, models) == ItemAt(p, albumIndex, metadataPath, k, models);
    FixStepModels(before, albumIndex, k, models);
    SaveStepModels(FixStep(before, albumIndex, k, models), albumIndex, metadataPath, k);
  }

  /** The item loop keeps `RunModels`. */
  lemma {:induction false} ItemsUpToModels(p: Progress, albumIndex: nat, metadataPath: string, n: nat, models: Models)
    requires n <= |p.album.data.items| && RunModels(p.run)
    ensures RunModels(ItemsUpTo(p, albumIndex, metadataPath, n, models).run)
  {
    if n > 0 {
      ItemsUpToModels(p, albumIndex, metadataPath, n - 1, models);
      ItemAtModels(p, albumIndex, metadataPath, n - 1, models);
    }
  }

  /** One iteration of the album loop keeps `RunModels`. */
  lemma FixAlbumModels(run: RunState, d: AlbumData, albumIndex: nat, metadataPath: string, models: Models)
    requires RunModels(run)
    ensures RunModels(FixAlbum(run, d, albumIndex, metadataPath, models).run)
  {
    var q := ItemsUpTo(StartAlbum(run, d), albumIndex, metadataPath, |d.items|, models);
    ItemsUpToModels(StartAlbum(run, d), albumIndex, metadataPath, |d.items|, models);
    if q.album.modified {
      AppendSaved(q.run.descLoaded, q.run.textLoaded, q.run.events, albumIndex, !q.album.saved, true);
    }
  }

  /** Iteration k of the album loop keeps `RunModels`. */
  lemma FixAlbumAtModels(run: RunState, inputs: seq<AlbumData>, metadataPaths: seq<string>, k: nat, models: Models)
    requires k < |inputs| == |metadataPaths| && RunModels(FixUpTo(run, inputs, metadataPaths, k, models).run)
    ensures RunModels(FixUpTo(run, inputs, metadataPaths, k + 1, models).run)
  {
    assert FixUpTo(run, inputs, metadataPaths, k + 1, models).run == FixAlbumAt(run, inputs, metadataPaths, k, models).run;
    FixAlbumModels(FixUpTo(run, inputs, metadataPaths, k, models).run, inputs[k], k, metadataPaths[k], models);
  }

  /** The album loop keeps `RunModels`: over the whole run, each model is
      constructed at most once, before its first generation, and its flag
      is set exactly when it was constructed. */
  lemma {:induction false} FixUpToModels(run: RunState, inputs: seq<AlbumData>, metadataPaths: seq<string>, n: nat, models: Models)
    requires n <= |inputs| == |metadataPaths| && RunModels(run)
    ensures RunModels(FixUpTo(run, inputs, metadataPaths, n, models).run)
  {
    if n > 0 {
      FixUpToModels(run, inputs, metadataPaths, n - 1, models);
      FixAlbumAtModels(run, inputs, metadataPaths, n - 1, models);
    }
  }

  // ---------------------------------------------------------------------
  // Saves
  // ---------------------------------------------------------------------

  /** The number of saves of album a that ask for a backup. */
  function Backups(events: seq<FixEvent>, a: nat): nat {
    multiset(events)[Saved(a, true, false)] + multiset(events)[Saved(a, true, true)]
  }

  /** The number of saves of album a at the end of its iteration. */
  function FinalSaves(events: seq<FixEvent>, a: nat): nat {
    multiset(events)[Saved(a, false, true)] + multiset(events)[Saved(a, true, true)]
  }

  /** Fixing one item adds no save. */
  lemma ItemEventsNoSave(events: seq<FixEvent>, albumIndex: nat, name: string, m: ItemMetadata, descLoaded: bool, textLoaded: bool, e: FixEvent)
    requires e.Saved?
    ensures multiset(ItemEvents(events, albumIndex, name, m, descLoaded, textLoaded))[e] == multiset(events)[e]
  {
    var d := DescriptionEvents(events, albumIndex, name, m, descLoaded);
    assert multiset(d)[e] == multiset(events)[e];
  }

  /** The events of fixing one item hold no save. */
  lemma FixedRunSaves(run: RunState, albumIndex: nat, name: string, m: ItemMetadata, b: nat)
    ensures var r := FixedRun(run, albumIndex, name, m);
      && Backups(r.events, b) == Backups(run.events, b)
      && FinalSaves(r.events, b) == FinalSaves(run.events, b)
  {
    ItemEventsNoSave(run.events, albumIndex, name, m, run.descLoaded, run.textLoaded, Saved(b, true, false));
    ItemEventsNoSave(run.events, albumIndex, name, m, run.descLoaded, run.textLoaded, Saved(b, true, true));
    ItemEventsNoSave(run.events, albumIndex, name, m, run.descLoaded, run.textLoaded, Saved(b, false, true));
  }

  /** Fixing the fields of an item adds no save and marks the album
      modified. */
  lemma FixStepSaves(p: Progress, albumIndex: nat, i: nat, models: Models, b: nat)
    requires i < |p.album.data.items|
    ensures var q := FixStep(p, albumIndex, i, models);
      && Backups(q.run.events, b) == Backups(p.run.events, b)
      && FinalSaves(q.run.events, b) == FinalSaves(p.run.events, b)
      && q.album.saved == p.album.saved && q.album.modified
  {
    var d := p.album.data;
    FixedRunSaves(p.run, albumIndex, d.items[i].name, MetadataOf(d, d.items[i].name), b);
  }

  /** The scheduled save is of album `albumIndex`, asks for a backup
      exactly when it is the album's first save, and is not a final
      save. */
  lemma SaveStepSaves(p: Progress, albumIndex: nat, metadataPath: string, i: nat, b: nat)
    ensures var r := SaveStep(p, albumIndex, metadataPath, i);
      && Backups(r.run.events, b) == Backups(p.run.events, b) + (if b == albumIndex && r.album.saved && !p.album.saved then 1 else 0)
      && FinalSaves(r.run.events, b) == FinalSaves(p.run.events, b)
      && (p.album.saved ==> r.album.saved)
  {
  }

  /** Item i calls for an intermediate save: it is incomplete, the album's
      fixed count reaches a multiple of `SaveEvery` with it, and it is not
      the album's last item. */
  ghost predicate SaveDue(p: Progress, i: nat)
    requires i < |p.album.data.items|
  {
    && !IsComplete(MetadataOf(p.album.data, p.album.data.items[i].name))
    && (p.album.fixed + 1) % SaveEvery == 0 && i < |p.album.data.items| - 1
  }

  /** A pass on an item that calls for a save ends with a save of the
      album, asking for a backup exactly when it was not saved before. */
  lemma ItemStepSaves(p: Progress, albumIndex: nat, metadataPath: string, i: nat, models: Models)
    requires i < |p.album.data.items| && SaveDue(p, i)
    ensures var r := ItemStep(p, albumIndex, metadataPath, i, models);
      r.album.saved && |r.run.events| > 0 && r.run.events[|r.run.events| - 1] == Saved(albumIndex, !p.album.saved, false)
  {
    var q := FixStep(p, albumIndex, i, models);
    assert q.album.fixed == p.album.fixed + 1;
  }

  /** Fixing the fields of an item adds no save. */
  lemma FixStepNoSave(p: Progress, albumIndex: nat, i: nat, models: Models)
    requires i < |p.album.data.items|
    ensures forall e: FixEvent :: e.Saved? ==>
      multiset(FixStep(p, albumIndex, i, models).run.events)[e] == multiset(p.run.events)[e]
  {
    var d := p.album.data;
    forall e: FixEvent | e.Saved?
      ensures multiset(FixStep(p, albumIndex, i, models).run.events)[e] == multiset(p.run.events)[e]
    {
      ItemEventsNoSave(p.run.events, albumIndex, d.items[i].name, MetadataOf(d, d.items[i].name),
                       p.run.descLoaded, p.run.textLoaded, e);
    }
  }

  /** A pass on an item that does not call for a save adds none. With
      `ItemStepSaves`, an intermediate save comes exactly when `SaveDue`
      holds. */
  lemma ItemStepNoSave(p: Progress, albumIndex: nat, metadataPath: string, i: nat, models: Models)
    requires i < |p.album.data.items| && !SaveDue(p, i)
    ensures var r := ItemStep(p, albumIndex, metadataPath, i, models);
      r.album.saved == p.album.saved &&
      forall e: FixEvent :: e.Saved? ==> multiset(r.run.events)[e] == multiset(p.run.events)[e]
  {
    var d := p.album.data;
    if !IsComplete(MetadataOf(d, d.items[i].name)) {
      var q := FixStep(p, albumIndex, i, models);
      SaveStepNotDue(q, albumIndex, metadataPath, i);
      FixStepNoSave(p, albumIndex, i, models);
    }
  }

  /** The scheduled save is skipped when the fixed count is not a
      multiple of `SaveEvery` or the item is the last. */
  lemma SaveStepNotDue(q: Progress, albumIndex: nat, metadataPath: string, i: nat)
    requires !(q.album.fixed % SaveEvery == 0 && i < |q.album.data.items| - 1)
    ensures SaveStep(q, albumIndex, metadataPath, i) == q
  {
  }

  /** Within the iteration of album `albumIndex`, from a start where
      album b had `backups` saves asking for a backup and `finals` final
      saves: the album's saves asked for a backup only on its first save,
      none was final, no other album was saved, and the album is saved
      only once it is modified. */
  ghost predicate SavesSoFar(p: Progress, albumIndex: nat, b: nat, backups: nat, finals: nat) {
    && Backups(p.run.events, b) == backups + (if b == albumIndex && p.album.saved then 1 else 0)
    && FinalSaves(p.run.events, b) == finals
    && (p.album.saved ==> p.album.modified)
  }

  /** Iteration k of the item loop keeps `SavesSoFar`. */
  lemma ItemAtSaves(p: Progress, albumIndex: nat, metadataPath: string, k: nat, models: Models, b: nat, backups: nat, finals: nat)
    requires k < |p.album.data.items| && SavesSoFar(ItemsUpTo(p, albumIndex, metadataPath, k, models), albumIndex, b, backups, finals)
    ensures SavesSoFar(ItemsUpTo(p, albumIndex, metadataPath, k + 1, models), albumIndex, b, backups, finals)
  {
    var before := ItemsUpTo(p, albumIndex, metadataPath, k, models);
    assert ItemsUpTo(p, albumIndex, metadataPath, k + 1, models) == ItemAt(p, albumIndex, metadataPath, k, models);
    FixStepSaves(before, albumIndex, k, models, b);
    SaveStepSaves(FixStep(before, albumIndex, k, models), albumIndex, metadataPath, k, b);
  }

  /** The item loop keeps `SavesSoFar`. */
  lemma {:induction false} ItemsUpToSaves(p: Progress, albumIndex: nat, metadataPath: string, n: nat, models: Models, b: nat, backups: nat, finals: nat)
    requires n <= |p.album.data.items| && SavesSoFar(p, albumIndex, b, backups, finals)
    ensures SavesSoFar(ItemsUpTo(p, albumIndex, metadataPath, n, models), albumIndex, b, backups, finals)
  {
    if n > 0 {
      ItemsUpToSaves(p, albumIndex, metadataPath, n - 1, models, b, backups, finals);
      ItemAtSaves(p, albumIndex, metadataPath, n - 1, models, b, backups, finals);
    }
  }

  /** The end of an album's iteration: a modified album gets a final
      save, which asks for a backup when the album was not saved before. */
  lemma FinishAlbumSaves(p: Progress, albumIndex: nat, metadataPath: string, b: nat)
    ensures var r := FinishAlbum(p, albumIndex, metadataPath);
      && Backups(r.run.events, b) == Backups(p.run.events, b) + (if b == albumIndex && p.album.modified && !p.album.saved then 1 else 0)
      && FinalSaves(r.run.events, b) == FinalSaves(p.run.events, b) + (if b == albumIndex && p.album.modified then 1 else 0)
  {
  }

  /** One iteration of the album loop, on an album whose item names are
      distinct: the album gets one save asking for a backup and one final
      save when it had an incomplete item, and none otherwise; no other
      album is saved. */
  lemma FixAlbumSaves(run: RunState, d: AlbumData, albumIndex: nat, metadataPath: string, models: Models, b: nat)
    requires DistinctNames(Names(d.items))
    ensures var r := FixAlbum(run, d, albumIndex, metadataPath, models);
      var m := if b == albumIndex && IncompleteCount(d, |d.items|) > 0 then 1 else 0;
      && Backups(r.run.events, b) == Backups(run.events, b) + m
      && FinalSaves(r.run.events, b) == FinalSaves(run.events, b) + m
  {
    var start := StartAlbum(run, d);
    var q := ItemsUpTo(start, albumIndex, metadataPath, |d.items|, models);
    ItemsUpToSaves(start, albumIndex, metadataPath, |d.items|, models, b, Backups(run.events, b), FinalSaves(run.events, b));
    ItemsUpToCounts(start, albumIndex, metadataPath, |d.items|, models);
    FinishAlbumSaves(q, albumIndex, metadataPath, b);
  }

  /** Iteration k of the album loop, as `FixAlbumSaves` states. */
  lemma FixAlbumAtSaves(run: RunState, inputs: seq<AlbumData>, metadataPaths: seq<string>, k: nat, models: Models, b: nat)
    requires k < |inputs| == |metadataPaths| && DistinctNames(Names(inputs[k].items))
    ensures var before := FixUpTo(run, inputs, metadataPaths, k, models).run;
      var r := FixUpTo(run, inputs, metadataPaths, k + 1, models).run;
      var m := if b == k && IncompleteCount(inputs[k], |inputs[k].items|) > 0 then 1 else 0;
      && Backups(r.events, b) == Backups(before.events, b) + m
      && FinalSaves(r.events, b) == FinalSaves(before.events, b) + m
  {
    assert FixUpTo(run, inputs, metadataPaths, k + 1, models).run == FixAlbumAt(run, inputs, metadataPaths, k, models).run;
    FixAlbumSaves(FixUpTo(run, inputs, metadataPaths, k, models).run, inputs[k], k, metadataPaths[k], models, b);
  }

  /** The album loop over the first n albums, each with distinct item
      names: each of them got one save asking for a backup and one final
      save when it had an incomplete item, and none otherwise; the later
      albums got none. */
  lemma {:induction false} FixUpToSaves(run: RunState, inputs: seq<AlbumData>, metadataPaths: seq<string>, n: nat, models: Models, b: nat)
    requires n <= |inputs| == |metadataPaths|
    requires forall a :: 0 <= a < |inputs| ==> DistinctNames(Names(inputs[a].items))
    ensures var r := FixUpTo(run, inputs, metadataPaths, n, models);
      var m := if b < n && IncompleteCount(inputs[b], |inputs[b].items|) > 0 then 1 else 0;
      && Backups(r.run.events, b) == Backups(run.events, b) + m
      && FinalSaves(r.run.events, b) == FinalSaves(run.events, b) + m
  {
    if n > 0 {
      FixUpToSaves(run, inputs, metadataPaths, n - 1, models, b);
      FixAlbumAtSaves(run, inputs, metadataPaths, n - 1, models, b);
    }
  }

  // ---------------------------------------------------------------------
  // The whole run
  // ---------------------------------------------------------------------

  /** The fix run over albums whose item names are distinct, from the
      state `execute_option_fix` starts in: it counts every item and fixes
      exactly the incomplete ones, leaves every album with its items, each
      complete, constructs each model at most once and before its first
      use, and gives each album with an incomplete item exactly one save
      asking for a backup and one final save, and other albums none. */
  lemma FixRunEffect(inputs: seq<AlbumData>, metadataPaths: seq<string>, fs: FileSystem, models: Models, b: nat)
    requires |inputs| == |metadataPaths|
    requires forall a :: 0 <= a < |inputs| ==> DistinctNames(Names(inputs[a].items))
    ensures var r := FixUpTo(InitialRun(fs), inputs, metadataPaths, |inputs|, models);
      var m := if b < |inputs| && IncompleteCount(inputs[b], |inputs[b].items|) > 0 then 1 else 0;
      && r.run.totalCount == ItemCount(inputs)
      && r.run.totalFixed == TotalIncomplete(inputs)
      && FixedAlbums(inputs, r.albums)
      && RunModels(r.run)
      && Backups(r.run.events, b) == m
      && FinalSaves(r.run.events, b) == m
  {
    var n := |inputs|;
    assert inputs[..n] == inputs;
    FixUpToCounts(InitialRun(fs), inputs, metadataPaths, n, models);
    FixUpToCompletes(InitialRun(fs), inputs, metadataPaths, n, models);
    FixUpToModels(InitialRun(fs), inputs, metadataPaths, n, models);
    FixUpToSaves(InitialRun(fs), inputs, metadataPaths, n, models, b);
  }

  /** The fix run over the albums of a screen: the info it leaves shows
      every item of every album as having metadata, and every album keeps
      its items, each complete. */
  lemma ScreenFixEffect(screen: MetadataScreen, fs: FileSystem, models: Models)
    requires screen.Valid()
    ensures var r := screen.FixOutcome(fs, models);
      && r.run.totalCount == ItemCount(AlbumsData(screen.albums))
      && FixedAlbums(AlbumsData(screen.albums), r.albums)
  {
    var inputs := AlbumsData(screen.albums);
    var n := |inputs|;
    assert inputs[..n] == inputs;
    FixUpToCounts(InitialRun(fs), inputs, MetadataPaths(screen.albums), n, models);
    FixUpToCompletes(InitialRun(fs), inputs, MetadataPaths(screen.albums), n, models);
  }
}
