# Coon Gallery PC — a verified model of its core

Coon Gallery PC is a desktop companion to a phone gallery app. It keeps a list of
*links*. Each link pairs an album folder with a JSON *metadata file* that maps each
item name to a dict holding a `caption` (a string), `labels` (a list) and `text`
(a list). This project models, in Dafny, the parts of the program that decide what
happens to that data. It then proves what those parts promise.

- **Album** (`util/album.py`, repeated in `util/library.py`):
  - loading items through an extension filter;
  - the counters of items with and without metadata;
  - get and set of an item's metadata;
  - `clean_metadata`, which sorts items newest first and keeps only the keys of
    existing items;
  - `save_metadata` and its search for a free `.backupN` path;
  - `search`.
- **Validity checks** (`util/metadata.py`, `MetadataUtil` in `util/library.py`): what
  makes a caption, labels or text valid.
- **Library** (`util/library.py`):
  - the list of links, with add, remove, save and load;
  - the `Filter` suffix lists;
  - `load_albums`, which stops at the first link whose paths do not exist.
- **Sync server** (`screens/sync/sync_server.py`):
  - the control messages a phone sends (`endSync`, `albums`, `fileInfo`,
    `metadataInfo`, `requestMetadataInfo`, `requestMetadataData`) and the session
    state they change;
  - the reset when the connection closes;
  - the event-callback sets.
- **Metadata screen** (`screens/metadata/metadata_screen.py`):
  - the button guards while an action runs;
  - the search dialog's guard and the search over all albums;
  - the clean run;
  - the fix run, which regenerates invalid fields with two AI models. Each model is
    built once, when first needed. The run saves every 5 fixed items, with a backup
    only on an album's first save.
- **AI post-processing** (`util/ai.py`): what `generate_caption`, `generate_labels` and
  `detect_text` do to a model's raw output.

How the model is laid out:

- **Files and modules.** Each file holds one module: `Json`, `Text`, `Metadata`,
  `Fs`, `Ai`, `Albums`, `Library`, `Sync`, `MetadataOptions`, `FixRun` and
  `CleanRun`.
- **Filesystem and JSON decoder.** The filesystem is a value: which paths exist,
  which are files, directory listings, modification times and decoded JSON files.
  Writes are returned as operations, and the filesystem after them is computed by
  `Fs.Apply`.
- **Classes that mutate state.**
  - `Album`, `Library`, `SyncServer` and `MetadataScreen` are classes whose methods
    update their fields.
  - Each method is proved against a function that specifies it: `Clean`,
    `SortNewestFirst`, `Receive`, `ItemsUpTo`, `FixUpTo`, `CleanUpTo`, `SearchAll`.
  - The lemmas are stated about those functions.
- **Python exceptions.** An exception raised by a handler or a loop (a missing key, a
  bad index, a value without `casefold`) is a `raised` result. State changed before
  the exception stays changed.
- **Sync messages.** An incoming sync message is a decoded JSON value or `Invalid`
  when it does not parse. Messages the server sends are appended to an `outbox`.
- **Fix-run trace.** The fix run records a trace of events: a model was built, a
  field was generated, an album was saved, and with which backup flag. This is how
  the order of model construction and the save schedule are stated.

Where the code and its documentation disagree, the model follows the code:

- The search query is case-folded but the item name it is compared with is not
  (`util/album.py:145,158`).
- A value that is not a string inside `labels` or `text` makes the search raise.
- The trailing commas at `screens/sync/sync_server.py:220-225` make the default
  `albumIndex`, `fileIndex` and `lastModified` the tuple `(-1,)`.
  - A reset request therefore never matches an integer index.
  - While the request keeps that default, no `fileInfo` or `metadataInfo` is ever
    accepted (`Sync.DefaultRequestAcceptsNothing`).
- The request object is one shared dataclass default (`screens/sync/sync_server.py:242`).
  `reset_info` does not give a fresh request, so its fields keep what was stored in
  them (`Sync.Reset`).
- `load_links` iterates what the JSON loader returns. A dict or a string yields keys
  or characters, which cannot be indexed by a string. Only an empty dict or an empty
  string loads as no links; any other non-list raises (`Library.LoadRecords`).

## Model

| member | source | states |
|---|---|---|
| Json.Lookup | screens/sync/sync_server.py:142 | `d[key]` succeeds exactly when the key is present, and then gives its value |
| Text.TrimLeft | util/ai.py:35 | the result is a suffix of the input, what was cut is all whitespace (every character `str.isspace` accepts, 0x1C to 0x1F included), and it does not start with whitespace |
| Text.TrimRight | util/ai.py:35 | the result is a prefix of the input, what was cut is all whitespace (every character `str.isspace` accepts, 0x1C to 0x1F included), and it does not end with whitespace |
| Text.Strip | util/ai.py:35 | `str.strip()` gives text that neither starts nor ends with a character `str.isspace` accepts |
| Text.StripShape | util/ai.py:35 | the stripped text is the slice of the input between two runs of whitespace |
| Text.StripSlice | util/ai.py:35 | the stripped text is the slice of the input that starts where the leading whitespace ends |
| Text.StripCut | util/ai.py:35 | everything `strip` cuts before and after that slice is whitespace |
| Text.StrippedIsFixed | util/ai.py:35 | text already stripped is left as it is |
| Text.StripIdempotent | util/ai.py:35 | stripping twice is stripping once |
| Text.StripEmptyIffAllSpace | util/ai.py:69 | the stripped text is empty exactly when the input is all whitespace, which is when `if line.strip()` drops a line |
| Text.LowerChar | util/album.py:145 | a lowered character is never an upper-case ASCII letter |
| Text.Lower | util/album.py:145 | on the ASCII model of `casefold`: the length is kept, no upper-case ASCII letter is left, every other character is kept, and an upper-case letter becomes its lower-case partner |
| Text.LowerIdempotent | util/album.py:145 | case-folding twice is case-folding once |
| Text.Split | util/ai.py:69 | `split('\n')` gives at least one piece, and no piece holds the separator |
| Text.IndexOf | util/ai.py:69 | the position found holds the character, and no earlier position does |
| Text.SplitJoin | util/ai.py:69 | joining the pieces with the separator gives back the text |
| Text.SplitAppend | util/ai.py:69 | a text made of a piece, a separator and a rest splits into that piece followed by the pieces of the rest |
| Text.DecimalString | util/album.py:43 | `str(i)` of a natural number is a non-empty string of digits |
| Text.Pow10 | util/album.py:42-45 | a power of ten is at least one |
| Text.DecimalStringLength | util/album.py:42-45 | a number at least 10^k has more than k digits |
| Metadata.EmptyIsInvalid | util/metadata.py:4-16 | an empty metadata dict has no valid caption, labels or text |
| Metadata.WrongTypeIsInvalid | util/library.py:23-36 | a caption that is not a string, or labels or text that are not a list, are invalid |
| Metadata.ChecksAreLocal | util/metadata.py:4-16 | each check reads only its own key: setting or removing any other key leaves its answer unchanged |
| Fs.Apply | util/album.py:48-51 | a copy or a write never makes an existing path or file disappear |
| Fs.FirstFreeBackup | util/album.py:40-45 | the backup number chosen names no existing path, and every smaller number from the start does |
| Fs.SaveWrites | util/album.py:36-51 | the metadata is always written last; a copy comes first exactly when a backup is asked for and the file exists, and it copies the file to a path that does not exist yet |
| Fs.TakenBackupIsSmall | util/album.py:42-45 | only finitely many backup numbers are taken, so the `while True` search ends |
| Ai.GenerateCaption | util/ai.py:35 | the caption is the model's output with its outer whitespace removed, and it is stripped |
| Ai.GenerateLabels | util/ai.py:38 | each label of the model's output appears exactly once, and no other label does |
| Ai.KeepNonBlank | util/ai.py:69 | every kept line is non-empty and stripped, and there are no more lines than pieces |
| Ai.KeepLine | util/ai.py:69 | one piece gives at most one line, non-empty and stripped |
| Ai.DetectText | util/ai.py:68-69 | every line `detect_text` returns is stripped and non-empty |
| Ai.KeepNonBlankAppend | util/ai.py:69 | the comprehension maps a concatenation to the concatenation of its results |
| Ai.KeepNonBlankNoSeparator | util/ai.py:69 | pieces without a newline give lines without a newline |
| Ai.DetectTextLines | util/ai.py:68-69 | every returned line is stripped, non-empty and holds no newline |
| Ai.DetectTextOrder | util/ai.py:68-69 | lines keep the order of the rendered text: a first line, a newline and a rest give the first line's lines followed by the rest's |
| Albums.LoadedItems | util/album.py:97-114 | `load_items` never yields more items than the directory lists |
| Albums.LoadedItemsMembers | util/album.py:97-114 | an item is loaded exactly when its name is listed, its path is a file and its lowered name ends with a suffix of the filter; its path is the folder joined with its name |
| Albums.LoadedItemsDistinct | util/album.py:97-114 | a listing without repeated names gives items with distinct names |
| Albums.HasValidFormat | util/album.py:106-111 | the loop with `break` finds a format exactly when the lowered name ends with one of the filter's suffixes |
| Albums.CountWithMetadata | util/album.py:116-122 | the count of items with metadata never exceeds the number of items |
| Albums.CountWithMetadataBounds | util/album.py:128-141 | the count is the number of items exactly when every item has a key, and zero exactly when none has |
| Albums.Insert | util/album.py:126 | inserting adds exactly the new item |
| Albums.SortNewestFirst | util/album.py:124-126 | the sort is a permutation of the items |
| Albums.InsertNewestFirst | util/album.py:124-126 | inserting into a newest-first list keeps it newest first |
| Albums.InsertFrom | util/album.py:126 | insertion adds no item other than the inserted one |
| Albums.SortIsNewestFirst | util/album.py:124-126 | `sort(key=getmtime, reverse=True)` gives the items newest first, as a permutation of the items |
| Albums.SortOfSortedIsSame | util/album.py:124-126 | items already newest first stay in place, because the sort is stable |
| Albums.CleanedKeys | util/album.py:76-81 | the cleaned keys are distinct, and they are exactly the item names that have metadata |
| Albums.Restrict | util/album.py:81-84 | the new dict holds exactly the listed keys that have metadata, with their values unchanged |
| Albums.FirstIndex | util/album.py:77 | the position found holds the name, and no earlier position does |
| Albums.FirstIndexPrefix | util/album.py:77 | the first position of a name does not change when the list grows after it |
| Albums.CleanedKeysFollowItems | util/album.py:77-81 | the cleaned keys follow the order of the items |
| Albums.CleanedKeysNewestFirst | util/album.py:73-81 | after the sort, the cleaned keys run from the newest item to the oldest |
| Albums.CleanedKeysSameKeys | util/album.py:76-81 | the cleaned keys depend only on which item names are keys |
| Albums.Clean | util/album.py:68-84 | `clean_metadata` keeps the items up to their order; the new keys are exactly the item names that had metadata, with values unchanged, so no key is added |
| Albums.SameNamesAfterSort | util/album.py:73 | a permutation of the items has the same names |
| Albums.CleanIsIdempotent | util/album.py:68-84 | cleaning twice is cleaning once, when no modification time changed |
| Albums.RestrictTwice | util/album.py:81-84 | restricting twice to the same keys is restricting once |
| Albums.CleanKeepsItemKeys | util/album.py:76-84 | an item has metadata after cleaning exactly when it had some before |
| Albums.AnyContains | util/album.py:160-161 | when `any(...)` is true, some listed string holds the query once lowered |
| Albums.AnyContainsCases | util/album.py:160-161 | `any` over the values is true exactly when a string containing the query comes with only strings before it, raises exactly when a non-string comes before any such string, and is false exactly when every value is a string without the query |
| Albums.SearchItems | util/album.py:143-164 | the search reports at most one path per item |
| Albums.SearchItemsSound | util/album.py:149-164 | every reported path belongs to an item that has a metadata key and matches the query in its raw name, caption, labels or text |
| Albums.SearchItemsComplete | util/album.py:149-164 | with distinct item paths each path is reported at most once; a search that did not raise reports every matching item |
| Albums.SearchItemsOrdered | util/album.py:149-164 | any two reported paths are the paths of two items in the same order, so hits are reported in item order |
| Albums.StaysRaised | util/album.py:149-164 | once an item raises, the rest of the items are not searched |
| Albums.KeepItemsMetadata | util/album.py:70-81 | the loop builds the dict of `CleanedKeys`, with the original values |
| Albums.InsertDistinct | util/album.py:126 | inserting an item with a new name keeps the names distinct and adds exactly that name |
| Albums.SortedNamesDistinct | util/album.py:124-126 | sorting keeps item names distinct |
| Albums.Album.constructor | util/album.py:13-26 | `__init__` loads the metadata and then the items, and stores the link's two paths |
| Albums.Album.LoadMetadata | util/album.py:29-34 | a missing metadata file leaves the metadata as it is, a file that does not decode to a dict of item metadata gives an empty dict, and a decoded dict is taken whole |
| Albums.Album.GetItemMetadata | util/album.py:53-62 | the stored dict when the name is a key, `{}` otherwise |
| Albums.Album.SetItemMetadata | util/album.py:64-66 | afterwards the name has exactly the given metadata, and every other name's metadata and presence are unchanged |
| Albums.Album.SortItems | util/album.py:124-126 | the items become their newest-first sort |
| Albums.Album.CleanMetadata | util/album.py:68-84 | the album's items, keys and metadata become `Clean` of the old ones; the counters are untouched |
| Albums.Album.LoadItems | util/album.py:87-122 | a missing folder changes nothing; otherwise the items are the listed files that pass the filter, in listing order, and the counters count those with and without metadata |
| Albums.Album.RefreshItemsStats | util/album.py:128-141 | the with-metadata counter is the number of items with a key, and the two counters sum to the number of items |
| Albums.Album.SaveMetadata | util/album.py:36-51 | a backup is made exactly when asked for and the file exists, to the least free `.backupN` path; the metadata is always written |
| Albums.Album.Search | util/album.py:143-164 | the paths reported, and whether the search raised, are those of `SearchItems` with the case-folded query |
| Library.FilterAllIsImagesThenVideos | util/library.py:51-53 | `Filter.all` is the image suffixes followed by the video suffixes, all already lower case |
| Library.FilterAllIsUnion | util/library.py:51-53 | a name passes `Filter.all` exactly when it passes the image or the video filter |
| Library.Link.constructor | util/library.py:11-14 | a link stores the two paths it is given |
| Library.SaveRecords | util/library.py:230 | the saved list holds one dict per record, in order, with exactly the keys `album_path` and `metadata_path` |
| Library.ParseRecord | util/library.py:225 | an entry gives a link exactly when it is a dict with both keys holding strings, and the link takes their values |
| Library.ParseRecords | util/library.py:225 | the comprehension succeeds exactly when every entry parses, and keeps their order |
| Library.LoadRecords | util/library.py:219-225 | a list loads as its parsed entries; an empty dict or empty string loads as no links; any other value raises |
| Library.LoadSavedRecords | util/library.py:219-233 | loading what `save_links` wrote gives back the same records in the same order |
| Library.ParsesSaved | util/library.py:225-230 | every saved entry parses back to its record |
| Library.RemoveFirst | util/library.py:249 | removing a link that is not in the list changes nothing |
| Library.FirstOccurrence | util/library.py:249 | the position found holds the link, and no earlier position does |
| Library.RemoveFirstShape | util/library.py:249 | `remove` takes out only the first occurrence; the links before and after it stay in order |
| Library.RemoveFirstCount | util/library.py:249 | exactly one copy of the link is gone and nothing else |
| Library.Library.constructor | util/library.py:215-217 | the library starts with no links and no albums |
| Library.Library.LoadLinks | util/library.py:219-225 | the links become fresh links holding the loaded records, in order; a save that does not parse raises and keeps the links |
| Library.Library.SaveLinks | util/library.py:227-233 | the links file is written, and loading it back gives the links' records in order |
| Library.Library.AddLink | util/library.py:235-244 | the link is appended and earlier links are unchanged; the returned index is the old length, where the new link is; the list is saved |
| Library.Library.RemoveLink | util/library.py:246-252 | a link not in the list raises and changes nothing; otherwise only its first occurrence is removed and the list is saved |
| Library.Library.LoadAlbums | util/library.py:257-273 | success exactly when every link is valid; on success there is one album per link, album i built from link i; on failure the albums are those of the valid prefix, stopping at the first invalid link |
| Library.BuildAlbum | util/library.py:269 | `Album(link, filter)` gives a new album with the link's two paths, loaded from the filesystem |
| Sync.ListIndex | screens/sync/sync_server.py:194-197 | `links[i]` succeeds on an in-range index, counting negative ones from the end, and the index found is in range |
| Sync.RequestedMetadataFile | screens/sync/sync_server.py:194-197 | the file found is the metadata file of one of the links; without `albumIndex` there is none |
| Sync.SendMetadataInfo | screens/sync/sync_server.py:192-204 | a bad index or a missing file raises and sends nothing; otherwise exactly one `metadataInfo` is sent, with the file's modification time |
| Sync.SendMetadataData | screens/sync/sync_server.py:206-214 | a bad index or an unreadable file raises and sends nothing; otherwise exactly the file's bytes are sent |
| Sync.InvalidOnlyReportsError | screens/sync/sync_server.py:88-126 | text that does not decode reports one error and changes nothing else |
| Sync.MalformedChangesNothing | screens/sync/sync_server.py:95-122 | a value without `action`, or with an unknown action, changes nothing and sends nothing |
| Sync.AtMostOneMessage | screens/sync/sync_server.py:88-126 | whatever arrives, at most one message is sent, earlier messages are untouched, and no message starts syncing |
| Sync.EndSyncEffect | screens/sync/sync_server.py:133-138 | `endSync` stops syncing and logs the message exactly when present |
| Sync.AlbumsEffect | screens/sync/sync_server.py:140-145 | `albums` without the `albums` key raises and changes nothing; otherwise it replaces the phone's album list with the payload, logs one line, and changes nothing else |
| Sync.FileInfoRejected | screens/sync/sync_server.py:147-156 | a `fileInfo` for another album (with or without a `fileIndex`), for another file, or without `lastModified`, changes nothing and sends nothing |
| Sync.FileInfoAccepted | screens/sync/sync_server.py:158-170 | an accepted `fileInfo` copies the four file fields into the request, keeps its three indexes, and sends exactly one `requestFileData` carrying them |
| Sync.MetadataInfoEffect | screens/sync/sync_server.py:172-190 | `metadataInfo` is checked against the album index only; accepted, it updates only `lastModified` and sends one `requestMetadataData` for that album; rejected, it changes nothing |
| Sync.DefaultRequestAcceptsNothing | screens/sync/sync_server.py:147-190 | while the request holds its default `(-1,)` album index, no `fileInfo` or `metadataInfo` is accepted |
| Sync.IndexesNeverChange | screens/sync/sync_server.py:147-214 | no received message changes the request's three indexes |
| Sync.Reset | screens/sync/sync_server.py:29-34 | a reset stops syncing and empties the phone's album list; the shared request (the dataclass default of line 242), the outbox and the logs are kept |
| Sync.ConnectionStateChanged | screens/sync/sync_server.py:78-86 | a close resets the session info, an open leaves it unchanged |
| Sync.ResetThenNothingAccepted | screens/sync/sync_server.py:147-190 | after a close, while the shared request was never given an album index, every `fileInfo` and `metadataInfo` is rejected |
| Sync.CallbackSetLaws | screens/sync/sync_server.py:37-55 | registering twice is registering once; discarding an absent callback changes nothing; a discard undoes the add of a new callback |
| Sync.Request.constructor | screens/sync/sync_server.py:216-230 | a fresh request holds the dataclass defaults, with `(-1,)` for the two indexes and `lastModified` |
| Sync.SyncServer.constructor | screens/sync/sync_server.py:16-27 | the server starts not syncing, with no phone albums, nothing sent or logged, no callbacks, no connection changes passed to callbacks, and the shared request |
| Sync.SyncServer.ResetInfo | screens/sync/sync_server.py:29-34 | the info is reset as `Reset` states, the shared request is left as it is, and the callback sets and recorded connection changes are unchanged |
| Sync.SyncServer.RegisterEvents | screens/sync/sync_server.py:37-45 | each set becomes `AddCallback` of its argument |
| Sync.SyncServer.UnregisterEvents | screens/sync/sync_server.py:47-55 | each set becomes `DiscardCallback` of its argument |
| Sync.SyncServer.LogMessage | screens/sync/sync_server.py:57-62 | the message is appended to what the log callbacks have received |
| Sync.SyncServer.OnError | screens/sync/sync_server.py:64-69 | the error is appended to what the error callbacks have received |
| Sync.SyncServer.OnConnectionStateChanged | screens/sync/sync_server.py:78-86 | the session becomes `ConnectionStateChanged` of the old one; the pair `(is_open, client_ip)` is appended to the arguments passed to the connection-state callbacks; the callback sets are unchanged |
| Sync.SyncServer.OnReceivedString | screens/sync/sync_server.py:88-126 | the session and the raised flag become `Receive` of the old session and the message; the callback sets and recorded connection changes are unchanged |
| Sync.SyncServer.ActionEndSync | screens/sync/sync_server.py:133-138 | the session becomes `EndSync` of the old one |
| Sync.SyncServer.ActionReceivedAlbums | screens/sync/sync_server.py:140-145 | the session and the raised flag become `ReceivedAlbums` of the old session |
| Sync.SyncServer.ActionReceivedFileInfo | screens/sync/sync_server.py:147-170 | the session and the raised flag become `ReceivedFileInfo` of the old session, with the request's fields updated in place |
| Sync.SyncServer.ActionReceivedMetadataInfo | screens/sync/sync_server.py:172-190 | the session and the raised flag become `ReceivedMetadataInfo` of the old session |
| Sync.SyncServer.ActionSendMetadataInfo | screens/sync/sync_server.py:192-204 | the session and the raised flag become `SendMetadataInfo` of the old session |
| Sync.SyncServer.ActionSendMetadataData | screens/sync/sync_server.py:206-214 | the session and the raised flag become `SendMetadataData` of the old session |
| MetadataOptions.AiModels | util/ai.py:35-69 | every caption the models give is stripped, every label list repeats no label and keeps the raw labels, and every text line is stripped and non-blank |
| MetadataOptions.CaptionValue | screens/metadata/metadata_screen.py:275 | the stored caption is a string, so it is valid |
| MetadataOptions.LabelsValue | screens/metadata/metadata_screen.py:281 | the stored labels are a list, so they are valid |
| MetadataOptions.TextValue | screens/metadata/metadata_screen.py:293 | the stored text is a list, so it is valid |
| MetadataOptions.Fill | screens/metadata/metadata_screen.py:272-293 | a field is overwritten only when it was invalid; every other key keeps its value |
| MetadataOptions.FixedMetadata | screens/metadata/metadata_screen.py:257-296 | after the fix the item is complete; only the three fields may change, and a valid field keeps its value |
| MetadataOptions.FixedItemMetadata | screens/metadata/metadata_screen.py:257-296 | the fixed metadata of an item is complete |
| MetadataOptions.ItemStep | screens/metadata/metadata_screen.py:251-317 | one pass of the item loop keeps the album's items |
| MetadataOptions.SetMetadata | screens/metadata/metadata_screen.py:301 | `set_item_metadata` keeps the items, maps the name to the new metadata, keeps the existing key order, and keeps keys that list every entry once in that state |
| MetadataOptions.FixStep | screens/metadata/metadata_screen.py:264-308 | fixing an item keeps the album's items |
| MetadataOptions.FixedRun | screens/metadata/metadata_screen.py:264-296 | the models' work on an item keeps the total count and the filesystem and adds one fixed item; a model once built stays built, and a model is built when a field it generates is invalid |
| MetadataOptions.FixedData | screens/metadata/metadata_screen.py:301 | storing the fixed metadata keeps the album's items |
| MetadataOptions.SaveStep | screens/metadata/metadata_screen.py:311-317 | the scheduled save changes no metadata and no counter |
| MetadataOptions.ItemsUpTo | screens/metadata/metadata_screen.py:251-317 | the item loop keeps the album's items |
| MetadataOptions.ItemAt | screens/metadata/metadata_screen.py:251-317 | one iteration of the item loop keeps the album's items |
| MetadataOptions.FixUpTo | screens/metadata/metadata_screen.py:237-324 | the album loop over n albums gives n albums |
| MetadataOptions.FixItem | screens/metadata/metadata_screen.py:253-317 | one pass of the item loop follows `ItemStep` and keeps the album valid |
| MetadataOptions.FixFields | screens/metadata/metadata_screen.py:264-301 | the models' work on an item follows `FixedRun` and `FixedData` |
| MetadataOptions.StoreMetadata | screens/metadata/metadata_screen.py:301 | `set_item_metadata` follows `SetMetadata` |
| MetadataOptions.SaveIfDue | screens/metadata/metadata_screen.py:311-317 | the save follows `SaveStep` |
| MetadataOptions.FixAlbumItems | screens/metadata/metadata_screen.py:237-324 | one iteration of the album loop follows `FixAlbum` |
| MetadataOptions.FixItems | screens/metadata/metadata_screen.py:251-317 | the item loop follows `ItemsUpTo` |
| MetadataOptions.FixNext | screens/metadata/metadata_screen.py:251-317 | one more iteration extends the loop's progress to the next item |
| MetadataOptions.FinishFix | screens/metadata/metadata_screen.py:320-324 | a modified album is cleaned and saved, with a backup only if it was not saved before |
| MetadataOptions.GenerateFields | screens/metadata/metadata_screen.py:217-296 | the models are built on first need and generate exactly the invalid fields; each flag is set once its model is built |
| MetadataOptions.AlbumsData | screens/metadata/metadata_screen.py:237 | the albums' data, one per album, in order |
| MetadataOptions.CleanUpTo | screens/metadata/metadata_screen.py:189-194 | the clean run over n albums gives n albums |
| MetadataOptions.CleanAlbumAt | screens/metadata/metadata_screen.py:192-193 | one album of the clean run gives one album |
| MetadataOptions.CleanAlbum | screens/metadata/metadata_screen.py:192-193 | cleaning and saving one album gives one album |
| MetadataOptions.CleanAndSave | screens/metadata/metadata_screen.py:192-193 | `clean_metadata` and then `save_metadata` follow `CleanAlbum` |
| MetadataOptions.Pressed | screens/metadata/metadata_screen.py:67-92 | while working, every button only notifies, with the exit message exactly for back; otherwise back leaves, search opens the dialog, and clean and fix start their runs |
| MetadataOptions.CountItems | screens/metadata/metadata_screen.py:108-113 | the summing loop gives the sums of the albums' counters |
| MetadataOptions.CountersSumCountsItems | screens/metadata/metadata_screen.py:108-113 | when each album's counters agree with its items, the two sums add up to the number of items of all albums |
| MetadataOptions.SearchLog | screens/metadata/metadata_screen.py:166-177 | every hit's path is logged in order, then a count line with the number of paths logged, unless the search raised |
| MetadataOptions.SearchAllStep | screens/metadata/metadata_screen.py:171-174 | the search over one more album adds that album's paths, unless an earlier album raised |
| MetadataOptions.SearchAllSound | screens/metadata/metadata_screen.py:171-174 | every path the search logs is the path of a matching item of one of the albums |
| MetadataOptions.SearchAllComplete | screens/metadata/metadata_screen.py:171-174 | a search that did not raise logs every matching item of every album |
| MetadataOptions.SearchAllStaysRaised | screens/metadata/metadata_screen.py:171-174 | once an album's search raised, later albums add nothing |
| MetadataOptions.MetadataScreen.constructor | screens/metadata/metadata_screen.py:95-113 | the screen starts with no albums, not working, with an empty log |
| MetadataOptions.MetadataScreen.LoadAlbumsAsWritten | screens/metadata/metadata_screen.py:95-98 | the unpacking of the boolean `Library.load_albums` returns always raises, and nothing changes |
| MetadataOptions.MetadataScreen.LoadAlbums | screens/metadata/metadata_screen.py:95-113 | success exactly when every link is valid; the screen takes the library's albums, album i built from link i; the options are shown only on success, and the info shows the summed counters |
| MetadataOptions.MetadataScreen.ShowAlbums | screens/metadata/metadata_screen.py:100-113 | the screen takes the albums, logs the outcome, shows its options exactly on success, and shows the summed counters |
| MetadataOptions.MetadataScreen.OnButtonPressed | screens/metadata/metadata_screen.py:67-92 | the outcome is `Pressed`; the screen starts working, and logs the start line of `option_clean` or `option_fix` (lines 179-203), exactly when clean or fix starts |
| MetadataOptions.MetadataScreen.OnSearchResult | screens/metadata/metadata_screen.py:140-156 | a cancelled dialog does nothing; a query shorter than 3 characters is refused with a notice; any other starts the search and marks the screen working |
| MetadataOptions.MetadataScreen.ExecuteOptionSearch | screens/metadata/metadata_screen.py:161-177 | the paths found are those of `SearchAll` with the case-folded query; the log gets `SearchLog`; the screen stops working unless a search raised |
| MetadataOptions.MetadataScreen.SearchAlbums | screens/metadata/metadata_screen.py:171-174 | the album loop follows `SearchAll` |
| MetadataOptions.MetadataScreen.ExecuteOptionClean | screens/metadata/metadata_screen.py:186-196 | every album becomes its state after `CleanUpTo`; the filesystem after its writes is returned; the screen stops working and logs the end |
| MetadataOptions.MetadataScreen.CleanAll | screens/metadata/metadata_screen.py:189-194 | the album loop follows `CleanUpTo` |
| MetadataOptions.MetadataScreen.CleanOne | screens/metadata/metadata_screen.py:189-194 | one more album is cleaned and saved; the others keep their state |
| MetadataOptions.MetadataScreen.ExecuteOptionFix | screens/metadata/metadata_screen.py:205-330 | every album becomes its state after `FixUpTo`; the info shows every counted item as having metadata; the screen stops working and logs the fixed count |
| MetadataOptions.MetadataScreen.FixAll | screens/metadata/metadata_screen.py:235-324 | the album loop follows `FixUpTo` |
| MetadataOptions.MetadataScreen.FixOne | screens/metadata/metadata_screen.py:237-324 | one more album is fixed; the others keep their state |
| FixRun.IncompleteCount | screens/metadata/metadata_screen.py:257-261 | among the first n items, no more than n are incomplete |
| FixRun.FixStepEffect | screens/metadata/metadata_screen.py:257-308 | fixing an item makes it complete, changes no other name's metadata, adds one to both fixed counters, and marks the album modified |
| FixRun.ItemAtEffect | screens/metadata/metadata_screen.py:251-308 | a complete item is skipped and changes nothing; an incomplete one is made complete, counted once, and marks the album modified |
| FixRun.ItemAtKeepsLater | screens/metadata/metadata_screen.py:254-301 | with distinct names, an iteration leaves the metadata of later items as it was |
| FixRun.ItemsUpToKeepsLater | screens/metadata/metadata_screen.py:254-301 | with distinct names, the first n iterations leave the metadata of the items after them as it was |
| FixRun.ItemsUpToCompletes | screens/metadata/metadata_screen.py:257-301 | with distinct names, after the item loop every item is complete |
| FixRun.ItemAtCounts | screens/metadata/metadata_screen.py:299-308 | one iteration extends the count of fixed items by the item when it was incomplete |
| FixRun.ItemsUpToCounts | screens/metadata/metadata_screen.py:299-308 | the item loop fixes and counts exactly the incomplete items, and the album is modified exactly when it fixed one |
| FixRun.FinishAlbumEffect | screens/metadata/metadata_screen.py:320-324 | the end of an album keeps the totals and the items up to their order, and keeps every item complete |
| FixRun.FixAlbumEffect | screens/metadata/metadata_screen.py:237-324 | one album adds its items to the total count and its incomplete items to the fixed total, keeps its items, and ends with every item complete |
| FixRun.FixAlbumAtEffect | screens/metadata/metadata_screen.py:237-324 | iteration k of the album loop does what `FixAlbumEffect` states to album k |
| FixRun.FixUpToCounts | screens/metadata/metadata_screen.py:207-305 | the total count is the number of items and the fixed total the number of incomplete items |
| FixRun.FixUpToCompletes | screens/metadata/metadata_screen.py:237-324 | every album keeps its items, each complete |
| FixRun.FixAlbumAtCompletes | screens/metadata/metadata_screen.py:237-324 | iteration k extends `FixedAlbums` by album k |
| FixRun.FixedAlbumsAppend | screens/metadata/metadata_screen.py:237 | one more complete album that keeps its items extends `FixedAlbums` |
| FixRun.AppendGenerated | screens/metadata/metadata_screen.py:275-293 | generating a field after its model was built keeps the model discipline |
| FixRun.AppendSaved | screens/metadata/metadata_screen.py:314-324 | a save keeps the model discipline |
| FixRun.AppendLoad | screens/metadata/metadata_screen.py:217-233 | building a model not built before sets its flag and keeps the model discipline |
| FixRun.DescriptionEventsKeep | screens/metadata/metadata_screen.py:264-284 | the description model is built only when the caption or labels need it and it was not built before, and before it generates |
| FixRun.TextEventsKeep | screens/metadata/metadata_screen.py:287-296 | the text model is built only when the text needs it and it was not built before, and before it generates |
| FixRun.ItemEventsKeep | screens/metadata/metadata_screen.py:264-296 | fixing one item keeps the model discipline |
| FixRun.FixStepModels | screens/metadata/metadata_screen.py:264-301 | fixing an item keeps the model discipline of the run |
| FixRun.SaveStepModels | screens/metadata/metadata_screen.py:311-317 | the scheduled save keeps the model discipline of the run |
| FixRun.ItemAtModels | screens/metadata/metadata_screen.py:251-317 | an iteration of the item loop keeps the model discipline |
| FixRun.ItemsUpToModels | screens/metadata/metadata_screen.py:251-317 | the item loop keeps the model discipline |
| FixRun.FixAlbumModels | screens/metadata/metadata_screen.py:237-324 | an iteration of the album loop keeps the model discipline |
| FixRun.FixAlbumAtModels | screens/metadata/metadata_screen.py:237-324 | iteration k of the album loop keeps the model discipline |
| FixRun.FixUpToModels | screens/metadata/metadata_screen.py:214-233 | over the run, each model is built at most once, before its first use, and its flag is set exactly when it was built |
| FixRun.ItemEventsNoSave | screens/metadata/metadata_screen.py:264-296 | fixing one item's fields saves nothing |
| FixRun.FixedRunSaves | screens/metadata/metadata_screen.py:264-296 | the models' work on an item changes no album's backup or final save count |
| FixRun.FixStepSaves | screens/metadata/metadata_screen.py:264-308 | fixing an item adds no save and marks the album modified |
| FixRun.SaveStepSaves | screens/metadata/metadata_screen.py:311-317 | the scheduled save is of this album, asks for a backup exactly when it is the album's first save, and is not final |
| FixRun.FixStepNoSave | screens/metadata/metadata_screen.py:264-308 | fixing an item's fields adds no save of any album |
| FixRun.ItemStepSaves | screens/metadata/metadata_screen.py:299-317 | when the item was fixed, the album's fixed count reaches a multiple of 5 with it, and it is not the last item, the pass ends with a save of the album that asks for a backup exactly when the album was not saved before |
| FixRun.ItemStepNoSave | screens/metadata/metadata_screen.py:299-317 | in every other case the pass adds no save and leaves the saved flag as it was, so an intermediate save comes exactly in the case above |
| FixRun.ItemAtSaves | screens/metadata/metadata_screen.py:251-317 | an iteration keeps the save discipline: a backup only on the first save, no final save, no other album saved |
| FixRun.ItemsUpToSaves | screens/metadata/metadata_screen.py:251-317 | the item loop keeps the save discipline |
| FixRun.FinishAlbumSaves | screens/metadata/metadata_screen.py:320-324 | a modified album gets one final save, asking for a backup when it was not saved before; an unmodified one gets none |
| FixRun.FixAlbumSaves | screens/metadata/metadata_screen.py:237-324 | an album gets one save asking for a backup and one final save exactly when it had an incomplete item, and no other album is saved |
| FixRun.FixAlbumAtSaves | screens/metadata/metadata_screen.py:237-324 | iteration k of the album loop saves as `FixAlbumSaves` states |
| FixRun.FixUpToSaves | screens/metadata/metadata_screen.py:237-324 | after n albums, each of them with an incomplete item got exactly one backup and one final save, and the others none |
| FixRun.FixRunEffect | screens/metadata/metadata_screen.py:205-330 | the whole fix run counts every item, fixes exactly the incomplete ones, leaves every album with its items, each complete, builds each model at most once and before use, and gives each album with an incomplete item exactly one backup and one final save |
| FixRun.ScreenFixEffect | screens/metadata/metadata_screen.py:237-327 | on the screen's albums, the info counts every item and every album keeps its items, each complete |
| CleanRun.ApplyAllKeepsMtime | util/album.py:48-51 | the saves change no modification time |
| CleanRun.CleanAlbumEffect | screens/metadata/metadata_screen.py:192-193 | one album is cleaned with the modification times it starts from, and its save changes none |
| CleanRun.CleanAlbumAtEffect | screens/metadata/metadata_screen.py:189-194 | one more album of the clean run is cleaned with the run's starting modification times |
| CleanRun.CleanUpToEffect | screens/metadata/metadata_screen.py:189-194 | every album of the clean run is `Clean` of its input, with the run's starting modification times |
| CleanRun.CleanRunIsIdempotent | screens/metadata/metadata_screen.py:186-196 | a second clean run changes no album |
| CleanRun.ScreenCleanEffect | screens/metadata/metadata_screen.py:186-196 | every album keeps its items, newest first, and keeps the metadata of exactly those items that had some, unchanged |

## Left out

- The socket transport, `json.loads` and `connection.send`. An incoming message is
  already decoded (or `Invalid`), and sent messages are appended to an outbox.
- The `Server` base class (`util/util.py` does not define it). Its
  `on_server_state_changed` dispatch at `screens/sync/sync_server.py:71-76` is part
  of it and is not modelled.
- The album reconciliation, the transfer queue, the chunked file writer and the
  download and upload actions are not part of this model; no file shown here
  implements them.
- `util/link.py` is not part of this model. It duplicates `Link` from
  `util/library.py`.
- Event callbacks are identified by number. Calling them is modelled as appending
  what they receive: log messages to `log`, errors to `errors`, and each
  `(is_open, client_ip)` pair to `connectionChanges`. One entry is recorded per
  event, whatever the number of registered callbacks.
- The Python 3.11 error on the mutable dataclass default at
  `screens/sync/sync_server.py:242` is not modelled. The shared request it would
  create is.
- `is not` on integers is modelled as `!=`. CPython caches small integers, so this
  differs only for large indexes.
- JSON numbers are integers. A float modification time is an opaque integer.
- Filesystem calls are modelled as values: `exists`, `isfile`, `listdir`, `getmtime`,
  `copy2`, `read_bytes` and the JSON file reads and writes.
  - The clock is not modelled, so a write leaves modification times as they were.
  - The timestamp `copy2` gives a backup is not modelled.
- The AI models (torch, transformers, doctr), `Image.open(...).convert` and the
  OCR renderer are function parameters: raw caption, raw labels and rendered text,
  per image path.
- `Ai.GenerateLabels`: Python does not fix the order of a `set`. The model keeps
  first occurrences in order. Its contract promises only that each label appears
  once and the label set is kept.
- `Text.Lower`: `casefold` and `lower` are modelled on ASCII letters only. Unicode
  case folding is not, including folds that change the length (`'ß'.casefold()` is
  `'ss'`). `strip` removes every character `str.isspace` accepts,
  Unicode whitespace included.
- `Fs.JoinPath`: `Util.join` and `Util.get_data_path`, used at `util/album.py:100`,
  `util/library.py:146` and `util/library.py:216`, are not defined in `util/util.py`,
  which holds only `save_json` and `load_json`. As written, the class body of
  `Library` would raise `AttributeError` when the module is imported. The model
  assumes the path is the directory, one `/` and the name. That differs from
  `os.path.join` when the directory already ends with a separator. The links file
  path is a parameter.
- `Library.ParseRecord`: a link holds two string paths, so an entry whose
  `album_path` or `metadata_path` is not a string makes loading raise. Python would
  build a `Link` from any value.
- `Albums.Album.LoadMetadata`: a metadata file is either missing, a decoded dict of
  item metadata, or treated as undecodable, which gives `{}`. `Util.load_json` would
  hand back any other JSON value (a list, a dict of strings) and the album would
  keep it, so later membership tests would act on it.
- `Albums.Album.LoadItems`: an album path that exists but is a regular file lists no
  items. Python's `os.listdir` raises `NotADirectoryError` there, and
  `Library.load_albums` would raise rather than report success.
- `Fs.Apply`: a write updates only the decoded content of its target, not its raw
  `bytes`. A `requestMetadataData` after a save in the same session would send the
  bytes the file held before the save.
- The Textual UI is not modelled: rendering, `notify`, `toggle_content` styling,
  `update_info` text, the log's zebra classes and its 1000-line cap. The log is a
  list of strings, and the info is the pair of numbers shown.
- Worker threads (`run_worker`, `call_from_thread`) are not modelled. Each run is
  one sequential step, and interleaving with the UI thread is not modelled.
- The progress lines the clean and fix runs log (`Album i: Checking...`,
  `Generating caption...`, the saving lines, the model-loading lines) are not
  modelled. The fix run's event trace stands in for the ones that matter.
- The `confirm=` argument at `screens/metadata/metadata_screen.py:159` is passed to a
  dialog that does not accept it. Building the dialog is UI and is not modelled.
- The second copy of `Album` in `util/library.py` is line for line the same as
  `util/album.py`, apart from class names. One model, `Albums.Album`, covers both.
- `Library.links` and `Library.albums` are class-level lists in the source. Here
  they are fields of one `Library` object.

## Findings

| source | as written | input that shows it | evidently intended | confidence | as-written member | corrected member |
|---|---|---|---|---|---|---|
| screens/metadata/metadata_screen.py:98 | `(success, self.albums) = Library.load_albums(Filter.images)` unpacks the boolean that `load_albums` returns (util/library.py:257-273) | any call of `load_albums` on the screen: unpacking `True` or `False` raises `TypeError`, so the screen never gets its albums | take the success flag and then `Library.albums` | not executed | MetadataOptions.MetadataScreen.LoadAlbumsAsWritten | MetadataOptions.MetadataScreen.LoadAlbums |
