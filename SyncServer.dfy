/** The control-message side of screens/sync/sync_server.py: the session
    record (`SyncAppInfo`, `SyncClientInfo`, the active `SyncRequestInfo`),
    the dispatch of decoded messages to the `action_*` handlers, the reset
    when the connection closes, and the event-callback sets.

    The socket is an outbox of messages the server sends; the text the
    phone sends arrives already decoded (or as the decoding error). The
    handlers are specified by functions on a value snapshot of the session
    (`Session`), and the class methods are proved to follow them. */
module Sync {
  import opened Json
  import opened Text
  import opened Fs

  /** A request field: a JSON value, or the one-element tuple `(-1,)` that
      the trailing commas in `SyncRequestInfo` make the default of
      `albumIndex`, `fileIndex` and `lastModified`. A tuple is never the
      same object as a decoded JSON value. */
  datatype Field = Json(value: Value) | Tuple(n: int)

  /** The fields of a `SyncRequestInfo`, as a value. */
  datatype RequestInfo = RequestInfo(
    albumIndex: Field, fileIndex: Field, partIndex: Field,
    lastModified: Field, size: Field, parts: Field, maxPartSize: Field)

  /** `SyncRequestInfo()`. */
  const DefaultRequest: RequestInfo :=
    RequestInfo(Tuple(-1), Tuple(-1), Json(JNum(0)), Tuple(-1), Json(JNum(0)), Json(JNum(0)), Json(JNum(0)))

  /** What the server sends. */
  datatype Outbound =
    | RequestFileData(albumIndex: Field, fileIndex: Field, part: Field)
    | RequestMetadataData(albumIndex: Field)
    | MetadataInfo(album: Value, lastModified: int)
    | MetadataBytes(bytes: seq<bv8>)

  /** What arrives: text `json.loads` rejects (with its error text), or the
      decoded value. */
  datatype Inbound = Invalid(error: string) | Decoded(data: Value)

  /** A snapshot of the session: the app's syncing flag and active request,
      the phone's album list, and everything sent, logged or reported. */
  datatype Session = Session(
    isSyncing: bool,
    clientAlbums: Value,
    request: RequestInfo,
    outbox: seq<Outbound>,
    log: seq<Value>,
    errors: seq<string>)

  /** A handler's effect: the new session and whether it raised. */
  datatype Step = Step(session: Session, raised: bool)

  const AlbumsLogLine: string := "Received client albums list"
  const ParseErrorPrefix: string := "Failed to parse JSON: "

  /** `action_end_sync`: stop syncing and log the phone's message if any. */
  function EndSync(s: Session, data: Object): (r: Session)
    ensures !r.isSyncing
    ensures r.log == if "message" in data then s.log + [data["message"]] else s.log
    ensures r == s.(isSyncing := false, log := r.log)
  {
    s.(isSyncing := false, log := if "message" in data then s.log + [data["message"]] else s.log)
  }

  /** `action_received_albums`: a missing `albums` key raises. */
  function ReceivedAlbums(s: Session, data: Object): (r: Step)
    ensures r.raised <==> "albums" !in data
    ensures r.raised ==> r.session == s
    ensures !r.raised ==> r.session == s.(clientAlbums := data["albums"], log := s.log + [JStr(AlbumsLogLine)])
  {
    if "albums" !in data then Step(s, true)
    else Step(s.(clientAlbums := data["albums"], log := s.log + [JStr(AlbumsLogLine)]), false)
  }

  /** `action_received_file_info`. `is not` is modelled as inequality. The
      four fields are copied one by one, so a missing `size`, `parts` or
      `maxPartSize` raises after the earlier ones were stored. */
  function ReceivedFileInfo(s: Session, data: Object): Step
  {
    var request := s.request;
    if "albumIndex" !in data then Step(s, true)
    else if request.albumIndex != Json(data["albumIndex"]) then Step(s, false)
    else if "fileIndex" !in data then Step(s, true)
    else if request.fileIndex != Json(data["fileIndex"]) then Step(s, false)
    else if "lastModified" !in data then Step(s, false)
    else
      var r1 := request.(lastModified := Json(data["lastModified"]));
      if "size" !in data then Step(s.(request := r1), true)
      else
        var r2 := r1.(size := Json(data["size"]));
        if "parts" !in data then Step(s.(request := r2), true)
        else
          var r3 := r2.(parts := Json(data["parts"]));
          if "maxPartSize" !in data then Step(s.(request := r3), true)
          else
            var r4 := r3.(maxPartSize := Json(data["maxPartSize"]));
            Step(s.(request := r4, outbox := s.outbox + [RequestFileData(r4.albumIndex, r4.fileIndex, r4.partIndex)]), false)
  }

  /** `action_received_metadata_info`: checked against the album index only. */
  function ReceivedMetadataInfo(s: Session, data: Object): Step
  {
    var request := s.request;
    if "albumIndex" !in data then Step(s, true)
    else if request.albumIndex != Json(data["albumIndex"]) then Step(s, false)
    else if "lastModified" !in data then Step(s, false)
    else
      var r := request.(lastModified := Json(data["lastModified"]));
      Step(s.(request := r, outbox := s.outbox + [RequestMetadataData(r.albumIndex)]), false)
  }

  /** Python's `list[index]` on a list of the given length: an int or a
      bool indexes, a negative int counts from the end, anything else or
      an index out of range raises. */
  function ListIndex(index: Value, length: nat): (r: Option<nat>)
    ensures r.Some? ==> r.value < length
    ensures index.JNum? && 0 <= index.n < length ==> r == Some(index.n)
    ensures index.JNum? && -(length as int) <= index.n < 0 ==> r == Some((length + index.n) as nat)
    ensures !index.JNum? && !index.JBool? ==> r.None?
  {
    match index
    case JNum(n) =>
      if 0 <= n < length then Some(n)
      else if -(length as int) <= n < 0 then Some((length + n) as nat)
      else None
    case JBool(b) =>
      var n := if b then 1 else 0;
      if n < length then Some(n) else None
    case _ => None
  }

  /** The metadata file of the link the message names, if the lookup
      `Library.links[data['albumIndex']].metadata_path` succeeds. */
  function RequestedMetadataFile(data: Object, metadataFiles: seq<string>): (r: Option<string>)
    ensures r.Some? ==> r.value in metadataFiles
    ensures "albumIndex" !in data ==> r.None?
  {
    if "albumIndex" !in data then None
    else
      match ListIndex(data["albumIndex"], |metadataFiles|)
      case None => None
      case Some(i) => Some(metadataFiles[i])
  }

  /** `action_send_metadata_info`: send the file's modification time; a
      bad index or a missing file raises. */
  function SendMetadataInfo(s: Session, data: Object, metadataFiles: seq<string>, fs: FileSystem): (r: Step)
    ensures var file := RequestedMetadataFile(data, metadataFiles);
      && (r.raised <==> file.None? || file.value !in fs.existing)
      && (r.raised ==> r.session == s)
      && (!r.raised ==> r.session == s.(outbox := s.outbox + [MetadataInfo(data["albumIndex"], fs.mtime(file.value))]))
  {
    match RequestedMetadataFile(data, metadataFiles)
    case None => Step(s, true)
    case Some(path) =>
      if path !in fs.existing then Step(s, true)
      else Step(s.(outbox := s.outbox + [MetadataInfo(data["albumIndex"], fs.mtime(path))]), false)
  }

  /** `action_send_metadata_data`: send the file's bytes; a bad index or an
      unreadable file raises. */
  function SendMetadataData(s: Session, data: Object, metadataFiles: seq<string>, fs: FileSystem): (r: Step)
    ensures var file := RequestedMetadataFile(data, metadataFiles);
      && (r.raised <==> file.None? || file.value !in fs.bytes)
      && (r.raised ==> r.session == s)
      && (!r.raised ==> r.session == s.(outbox := s.outbox + [MetadataBytes(fs.bytes[file.value])]))
  {
    match RequestedMetadataFile(data, metadataFiles)
    case None => Step(s, true)
    case Some(path) =>
      if path !in fs.bytes then Step(s, true)
      else Step(s.(outbox := s.outbox + [MetadataBytes(fs.bytes[path])]), false)
  }

  /** The actions `on_received_string` dispatches. */
  predicate IsAction(v: Value) {
    v == JStr("endSync") || v == JStr("albums") || v == JStr("fileInfo") || v == JStr("metadataInfo")
    || v == JStr("requestMetadataInfo") || v == JStr("requestMetadataData")
  }

  /** `on_received_string` on what arrived. Undecodable text is reported
      as an error. For a decoded value that is not a dict, the `'action' in
      data` test either fails (nothing happens) or raises: it raises on a
      number, a boolean or null, and `data['action']` raises on a list or a
      string that contains `'action'`. */
  function Receive(s: Session, msg: Inbound, metadataFiles: seq<string>, fs: FileSystem): Step
  {
    match msg
    case Invalid(e) => Step(s.(errors := s.errors + [ParseErrorPrefix + e]), false)
    case Decoded(v) =>
      match v
      case JObject(data) =>
        if "action" !in data then Step(s, false)
        else
          var action := data["action"];
          if action == JStr("endSync") then Step(EndSync(s, data), false)
          else if action == JStr("albums") then ReceivedAlbums(s, data)
          else if action == JStr("fileInfo") then ReceivedFileInfo(s, data)
          else if action == JStr("metadataInfo") then ReceivedMetadataInfo(s, data)
          else if action == JStr("requestMetadataInfo") then SendMetadataInfo(s, data, metadataFiles, fs)
          else if action == JStr("requestMetadataData") then SendMetadataData(s, data, metadataFiles, fs)
          else Step(s, false)
      case JList(items) => Step(s, JStr("action") in items)
      case JStr(text) => Step(s, Contains(text, "action"))
      case _ => Step(s, true)
  }

  /** Undecodable text reports exactly one error and changes nothing else. */
  lemma InvalidOnlyReportsError(s: Session, e: string, metadataFiles: seq<string>, fs: FileSystem)
    ensures var r := Receive(s, Invalid(e), metadataFiles, fs);
      !r.raised && r.session.errors == s.errors + [ParseErrorPrefix + e] && r.session == s.(errors := r.session.errors)
  {
  }

  /** A decoded value that is not a dict, a dict without `action`, or an
      unknown action changes nothing and sends nothing. */
  lemma MalformedChangesNothing(s: Session, v: Value, metadataFiles: seq<string>, fs: FileSystem)
    requires !v.JObject? || "action" !in v.fields || !IsAction(v.fields["action"])
    ensures Receive(s, Decoded(v), metadataFiles, fs).session == s
  {
  }

  /** Whatever arrives, at most one message is sent, nothing sent before is
      altered, and no message starts syncing. */
  lemma AtMostOneMessage(s: Session, msg: Inbound, metadataFiles: seq<string>, fs: FileSystem)
    ensures var r := Receive(s, msg, metadataFiles, fs).session;
      (r.outbox == s.outbox || (|r.outbox| == |s.outbox| + 1 && r.outbox[..|s.outbox|] == s.outbox))
      && (r.isSyncing ==> s.isSyncing)
  {
    var r := Receive(s, msg, metadataFiles, fs).session;
    if r.outbox != s.outbox {
      assert r.outbox[..|s.outbox|] == s.outbox;
    }
  }

  /** `endSync` stops syncing and logs the message exactly when present. */
  lemma EndSyncEffect(s: Session, data: Object, metadataFiles: seq<string>, fs: FileSystem)
    requires "action" in data && data["action"] == JStr("endSync")
    ensures var r := Receive(s, Decoded(JObject(data)), metadataFiles, fs);
      && !r.raised && !r.session.isSyncing
      && (r.session.log == if "message" in data then s.log + [data["message"]] else s.log)
      && r.session == s.(isSyncing := false, log := r.session.log)
  {
  }

  /** `albums` without a payload raises and changes nothing; with one, it
      replaces the phone's album list with the payload and logs one line,
      and nothing else changes. */
  lemma AlbumsEffect(s: Session, data: Object, metadataFiles: seq<string>, fs: FileSystem)
    requires "action" in data && data["action"] == JStr("albums")
    ensures var r := Receive(s, Decoded(JObject(data)), metadataFiles, fs);
      && (r.raised <==> "albums" !in data)
      && (r.raised ==> r.session == s)
      && (!r.raised ==> r.session == s.(clientAlbums := data["albums"], log := s.log + [JStr(AlbumsLogLine)]))
  {
  }

  /** A `fileInfo` for another album (whether or not it has a `fileIndex`),
      for another file, or without `lastModified`, changes nothing and sends
      nothing. */
  lemma FileInfoRejected(s: Session, data: Object, metadataFiles: seq<string>, fs: FileSystem)
    requires "action" in data && data["action"] == JStr("fileInfo")
    requires "albumIndex" in data
    requires s.request.albumIndex != Json(data["albumIndex"])
          || ("fileIndex" in data && (s.request.fileIndex != Json(data["fileIndex"]) || "lastModified" !in data))
    ensures var r := Receive(s, Decoded(JObject(data)), metadataFiles, fs); !r.raised && r.session == s
  {
  }

  /** An accepted `fileInfo` stores the four file fields, keeps the three
      indexes, and sends exactly one `requestFileData` carrying them. */
  lemma FileInfoAccepted(s: Session, data: Object, metadataFiles: seq<string>, fs: FileSystem)
    requires "action" in data && data["action"] == JStr("fileInfo")
    requires "albumIndex" in data && "fileIndex" in data && "lastModified" in data
    requires "size" in data && "parts" in data && "maxPartSize" in data
    requires s.request.albumIndex == Json(data["albumIndex"]) && s.request.fileIndex == Json(data["fileIndex"])
    ensures var r := Receive(s, Decoded(JObject(data)), metadataFiles, fs);
      var q := r.session.request;
      && !r.raised
      && q == RequestInfo(s.request.albumIndex, s.request.fileIndex, s.request.partIndex,
                          Json(data["lastModified"]), Json(data["size"]), Json(data["parts"]), Json(data["maxPartSize"]))
      && r.session.outbox == s.outbox + [RequestFileData(q.albumIndex, q.fileIndex, q.partIndex)]
      && r.session == s.(request := q, outbox := r.session.outbox)
  {
  }

  /** `metadataInfo` is checked against the album index only; accepted, it
      stores only `lastModified` and sends one `requestMetadataData` for that
      album; rejected, it changes nothing. */
  lemma MetadataInfoEffect(s: Session, data: Object, metadataFiles: seq<string>, fs: FileSystem)
    requires "action" in data && data["action"] == JStr("metadataInfo") && "albumIndex" in data
    ensures var r := Receive(s, Decoded(JObject(data)), metadataFiles, fs);
      && !r.raised
      && (if s.request.albumIndex == Json(data["albumIndex"]) && "lastModified" in data then
            && r.session.request == s.request.(lastModified := Json(data["lastModified"]))
            && r.session == s.(request := r.session.request, outbox := s.outbox + [RequestMetadataData(s.request.albumIndex)])
          else r.session == s)
  {
  }

  /** While the request still holds its default `(-1,)` album index (no
      shown handler ever writes it), no `fileInfo` or `metadataInfo` is
      accepted: they change nothing and send nothing. */
  lemma DefaultRequestAcceptsNothing(s: Session, data: Object, metadataFiles: seq<string>, fs: FileSystem)
    requires s.request.albumIndex.Tuple?
    requires "action" in data && (data["action"] == JStr("fileInfo") || data["action"] == JStr("metadataInfo"))
    ensures Receive(s, Decoded(JObject(data)), metadataFiles, fs).session == s
  {
  }

  /** No received message changes the request's three indexes. */
  lemma IndexesNeverChange(s: Session, msg: Inbound, metadataFiles: seq<string>, fs: FileSystem)
    ensures var q := Receive(s, msg, metadataFiles, fs).session.request;
      q.albumIndex == s.request.albumIndex && q.fileIndex == s.request.fileIndex && q.partIndex == s.request.partIndex
  {
  }

  /** `reset_info` as it acts on the session: the syncing flag and the
      phone's albums are reset, but the request is the one shared default
      object, so its fields keep whatever was stored in them. */
  function Reset(s: Session): (r: Session)
    ensures !r.isSyncing && r.clientAlbums == JList([])
    ensures r.request == s.request && r.outbox == s.outbox && r.log == s.log && r.errors == s.errors
  {
    s.(isSyncing := false, clientAlbums := JList([]))
  }

  /** `on_connection_state_changed`: a close resets the session info, an
      open leaves it. */
  function ConnectionStateChanged(s: Session, isOpen: bool): (r: Session)
    ensures isOpen ==> r == s
    ensures !isOpen ==> r == Reset(s)
  {
    if isOpen then s else Reset(s)
  }

  /** After a reset every received `fileInfo` or `metadataInfo` is rejected,
      when the shared request was never given an album index. */
  lemma ResetThenNothingAccepted(s: Session, data: Object, metadataFiles: seq<string>, fs: FileSystem)
    requires s.request.albumIndex == DefaultRequest.albumIndex
    requires "action" in data && (data["action"] == JStr("fileInfo") || data["action"] == JStr("metadataInfo"))
    ensures var t := ConnectionStateChanged(s, false);
      Receive(t, Decoded(JObject(data)), metadataFiles, fs).session == t
  {
    DefaultRequestAcceptsNothing(ConnectionStateChanged(s, false), data, metadataFiles, fs);
  }

  /** An event callback, by identity. */
  type CallbackId = nat

  /** `set.add` of an optional callback; `None` is ignored. */
  function AddCallback(callbacks: set<CallbackId>, c: Option<CallbackId>): (r: set<CallbackId>)
    ensures c.None? ==> r == callbacks
    ensures c.Some? ==> r == callbacks + {c.value}
  {
    if c.Some? then callbacks + {c.value} else callbacks
  }

  /** `set.discard` of an optional callback; `None` is ignored. */
  function DiscardCallback(callbacks: set<CallbackId>, c: Option<CallbackId>): (r: set<CallbackId>)
    ensures c.None? ==> r == callbacks
    ensures c.Some? ==> r == callbacks - {c.value}
  {
    if c.Some? then callbacks - {c.value} else callbacks
  }

  /** Registering twice is registering once; discarding an absent callback
      changes nothing; a discard undoes the add of a new callback. */
  lemma CallbackSetLaws(callbacks: set<CallbackId>, c: Option<CallbackId>)
    ensures AddCallback(AddCallback(callbacks, c), c) == AddCallback(callbacks, c)
    ensures c.Some? && c.value !in callbacks ==> DiscardCallback(callbacks, c) == callbacks
    ensures c.Some? && c.value !in callbacks ==> DiscardCallback(AddCallback(callbacks, c), c) == callbacks
  {
  }

  /** A `SyncRequestInfo` object; the handlers write its fields in place. */
  class Request {
    var albumIndex: Field
    var fileIndex: Field
    var partIndex: Field
    var lastModified: Field
    var size: Field
    var parts: Field
    var maxPartSize: Field

    /** `SyncRequestInfo()`. */
    constructor ()
      ensures Info() == DefaultRequest
    {
      albumIndex, fileIndex, partIndex := Tuple(-1), Tuple(-1), Json(JNum(0));
      lastModified, size, parts, maxPartSize := Tuple(-1), Json(JNum(0)), Json(JNum(0)), Json(JNum(0));
    }

    function Info(): RequestInfo
      reads this
    {
      RequestInfo(albumIndex, fileIndex, partIndex, lastModified, size, parts, maxPartSize)
    }
  }

  /** `SyncServer`: the session info, the outbox standing for the
      connection, the log and error reports, and the callback sets. */
  class SyncServer {
    /** The `SyncRequestInfo()` created once as the class-level default of
        `SyncAppInfo.request`: every `SyncAppInfo()` shares it. */
    const sharedRequest: Request
    var request: Request
    var isSyncing: bool
    var clientAlbums: Value
    var outbox: seq<Outbound>
    var log: seq<Value>
    var errors: seq<string>
    var onLogMessage: set<CallbackId>
    var onError: set<CallbackId>
    var onServerStateChanged: set<CallbackId>
    var onConnectionStateChanged: set<CallbackId>
    /** The `(is_open, client_ip)` arguments the connection-state callbacks
        received, one entry per change. */
    var connectionChanges: seq<(bool, string)>

    /** Only `reset_info` sets the request, always to the shared default. */
    ghost predicate Valid()
      reads this
    {
      request == sharedRequest
    }

    function State(): Session
      reads this, request
    {
      Session(isSyncing, clientAlbums, request.Info(), outbox, log, errors)
    }

    /** `__init__`: reset the info and start with no callbacks. */
    constructor (sharedRequest: Request)
      ensures Valid() && this.sharedRequest == sharedRequest
      ensures !isSyncing && clientAlbums == JList([]) && outbox == [] && log == [] && errors == []
      ensures onLogMessage == {} && onError == {} && onServerStateChanged == {} && onConnectionStateChanged == {}
      ensures connectionChanges == []
    {
      this.sharedRequest := sharedRequest;
      request := sharedRequest;
      isSyncing := false;
      clientAlbums := JList([]);
      outbox := [];
      log := [];
      errors := [];
      onLogMessage, onError, onServerStateChanged, onConnectionStateChanged := {}, {}, {}, {};
      connectionChanges := [];
    }

    /** `reset_info`: fresh app and client info, whose request is the
        shared default object, left as it is. */
    method ResetInfo()
      modifies this
      ensures Valid() && unchanged(sharedRequest)
      ensures State() == old(State()).(isSyncing := false, clientAlbums := JList([]), request := sharedRequest.Info())
      ensures old(Valid()) ==> State() == Reset(old(State()))
      ensures onLogMessage == old(onLogMessage) && onError == old(onError)
      ensures onServerStateChanged == old(onServerStateChanged) && onConnectionStateChanged == old(onConnectionStateChanged)
      ensures connectionChanges == old(connectionChanges)
    {
      isSyncing := false;
      clientAlbums := JList([]);
      request := sharedRequest;
    }

    /** `register_events`: add each given callback to its set. */
    method RegisterEvents(logMessage: Option<CallbackId>, error: Option<CallbackId>,
                          serverStateChanged: Option<CallbackId>, connectionStateChanged: Option<CallbackId>)
      modifies this`onLogMessage, this`onError, this`onServerStateChanged, this`onConnectionStateChanged
      ensures onLogMessage == AddCallback(old(onLogMessage), logMessage)
      ensures onError == AddCallback(old(onError), error)
      ensures onServerStateChanged == AddCallback(old(onServerStateChanged), serverStateChanged)
      ensures onConnectionStateChanged == AddCallback(old(onConnectionStateChanged), connectionStateChanged)
    {
      if logMessage.Some? { onLogMessage := onLogMessage + {logMessage.value}; }
      if error.Some? { onError := onError + {error.value}; }
      if serverStateChanged.Some? { onServerStateChanged := onServerStateChanged + {serverStateChanged.value}; }
      if connectionStateChanged.Some? { onConnectionStateChanged := onConnectionStateChanged + {connectionStateChanged.value}; }
    }

    /** `unregister_events`: discard each given callback from its set. */
    method UnregisterEvents(logMessage: Option<CallbackId>, error: Option<CallbackId>,
                            serverStateChanged: Option<CallbackId>, connectionStateChanged: Option<CallbackId>)
      modifies this`onLogMessage, this`onError, this`onServerStateChanged, this`onConnectionStateChanged
      ensures onLogMessage == DiscardCallback(old(onLogMessage), logMessage)
      ensures onError == DiscardCallback(old(onError), error)
      ensures onServerStateChanged == DiscardCallback(old(onServerStateChanged), serverStateChanged)
      ensures onConnectionStateChanged == DiscardCallback(old(onConnectionStateChanged), connectionStateChanged)
    {
      if logMessage.Some? { onLogMessage := onLogMessage - {logMessage.value}; }
      if error.Some? { onError := onError - {error.value}; }
      if serverStateChanged.Some? { onServerStateChanged := onServerStateChanged - {serverStateChanged.value}; }
      if connectionStateChanged.Some? { onConnectionStateChanged := onConnectionStateChanged - {connectionStateChanged.value}; }
    }

    /** `log_message`: what the log callbacks receive. */
    method LogMessage(message: Value)
      modifies this`log
      ensures log == old(log) + [message]
    {
      log := log + [message];
    }

    /** `on_error`: what the error callbacks receive. */
    method OnError(error: string)
      modifies this`errors
      ensures errors == old(errors) + [error]
    {
      errors := errors + [error];
    }

    /** `on_connection_state_changed`: reset the info when closed, then
        pass `(is_open, client_ip)` to the connection-state callbacks. */
    method OnConnectionStateChanged(isOpen: bool, clientIp: string)
      requires Valid()
      modifies this
      ensures Valid() && unchanged(request)
      ensures State() == ConnectionStateChanged(old(State()), isOpen)
      ensures onLogMessage == old(onLogMessage) && onError == old(onError)
      ensures onServerStateChanged == old(onServerStateChanged) && onConnectionStateChanged == old(onConnectionStateChanged)
      ensures connectionChanges == old(connectionChanges) + [(isOpen, clientIp)]
    {
      if !isOpen {
        ResetInfo();
      }
      connectionChanges := connectionChanges + [(isOpen, clientIp)];
    }

    /** `on_received_string`. `metadataFiles` are the metadata paths of
        `Library.links`, in order. */
    method OnReceivedString(msg: Inbound, metadataFiles: seq<string>, fs: FileSystem) returns (raised: bool)
      requires Valid()
      modifies this, request
      ensures Valid() && request == old(request)
      ensures Step(State(), raised) == Receive(old(State()), msg, metadataFiles, fs)
      ensures onLogMessage == old(onLogMessage) && onError == old(onError)
      ensures onServerStateChanged == old(onServerStateChanged) && onConnectionStateChanged == old(onConnectionStateChanged)
      ensures connectionChanges == old(connectionChanges)
    {
      raised := false;
      match msg {
        case Invalid(e) =>
          OnError(ParseErrorPrefix + e);
        case Decoded(v) =>
          match v {
            case JObject(data) =>
              if "action" !in data {
                return;
              }
              var action := data["action"];
              if action == JStr("endSync") {
                ActionEndSync(data);
              } else if action == JStr("albums") {
                raised := ActionReceivedAlbums(data);
              } else if action == JStr("fileInfo") {
                raised := ActionReceivedFileInfo(data);
              } else if action == JStr("metadataInfo") {
                raised := ActionReceivedMetadataInfo(data);
              } else if action == JStr("requestMetadataInfo") {
                raised := ActionSendMetadataInfo(data, metadataFiles, fs);
              } else if action == JStr("requestMetadataData") {
                raised := ActionSendMetadataData(data, metadataFiles, fs);
              }
            case JList(items) =>
              raised := JStr("action") in items;
            case JStr(text) =>
              raised := Contains(text, "action");
            case _ =>
              raised := true;
          }
      }
    }

    /** `action_end_sync`. */
    method ActionEndSync(data: Object)
      modifies this`isSyncing, this`log
      ensures State() == EndSync(old(State()), data)
    {
      isSyncing := false;
      if "message" in data {
        LogMessage(data["message"]);
      }
    }

    /** `action_received_albums`. */
    method ActionReceivedAlbums(data: Object) returns (raised: bool)
      modifies this`clientAlbums, this`log
      ensures Step(State(), raised) == ReceivedAlbums(old(State()), data)
    {
      if "albums" !in data {
        return true;
      }
      clientAlbums := data["albums"];
      LogMessage(JStr(AlbumsLogLine));
      raised := false;
    }

    /** `action_received_file_info`. */
    method ActionReceivedFileInfo(data: Object) returns (raised: bool)
      modifies request, this`outbox
      ensures Step(State(), raised) == ReceivedFileInfo(old(State()), data)
    {
      var request := this.request;
      if "albumIndex" !in data {
        return true;
      }
      if request.albumIndex != Json(data["albumIndex"]) {
        return false;
      }
      if "fileIndex" !in data {
        return true;
      }
      if request.fileIndex != Json(data["fileIndex"]) {
        return false;
      }
      if "lastModified" !in data {
        return false;
      }
      request.lastModified := Json(data["lastModified"]);
      if "size" !in data {
        return true;
      }
      request.size := Json(data["size"]);
      if "parts" !in data {
        return true;
      }
      request.parts := Json(data["parts"]);
      if "maxPartSize" !in data {
        return true;
      }
      request.maxPartSize := Json(data["maxPartSize"]);
      outbox := outbox + [RequestFileData(request.albumIndex, request.fileIndex, request.partIndex)];
      raised := false;
    }

    /** `action_received_metadata_info`. */
    method ActionReceivedMetadataInfo(data: Object) returns (raised: bool)
      modifies request, this`outbox
      ensures Step(State(), raised) == ReceivedMetadataInfo(old(State()), data)
    {
      var request := this.request;
      if "albumIndex" !in data {
        return true;
      }
      if request.albumIndex != Json(data["albumIndex"]) {
        return false;
      }
      if "lastModified" !in data {
        return false;
      }
      request.lastModified := Json(data["lastModified"]);
      outbox := outbox + [RequestMetadataData(request.albumIndex)];
      raised := false;
    }

    /** `action_send_metadata_info`. */
    method ActionSendMetadataInfo(data: Object, metadataFiles: seq<string>, fs: FileSystem) returns (raised: bool)
      modifies this`outbox
      ensures Step(State(), raised) == SendMetadataInfo(old(State()), data, metadataFiles, fs)
    {
      var metadataFile := RequestedMetadataFile(data, metadataFiles);
      if metadataFile.None? || metadataFile.value !in fs.existing {
        return true;
      }
      outbox := outbox + [MetadataInfo(data["albumIndex"], fs.mtime(metadataFile.value))];
      raised := false;
    }

    /** `action_send_metadata_data`. */
    method ActionSendMetadataData(data: Object, metadataFiles: seq<string>, fs: FileSystem) returns (raised: bool)
      modifies this`outbox
      ensures Step(State(), raised) == SendMetadataData(old(State()), data, metadataFiles, fs)
    {
      var metadataFile := RequestedMetadataFile(data, metadataFiles);
      if metadataFile.None? || metadataFile.value !in fs.bytes {
        return true;
      }
      outbox := outbox + [MetadataBytes(fs.bytes[metadataFile.value])];
      raised := false;
    }
  }
}
