/**
 * The issue-agent chat room's model (script-js.js): `ChatModel`, the filters
 * its file and trace lists are rendered through, and the simpler, broadcasting
 * `WebSocketManager` defined at the end of the same file.
 *
 * Records that the source mutates in place live in the model's sequences and
 * are replaced there; `currentConversation`, which aliases one element of
 * `conversations`, is that element's index.  Observer notifications are
 * recorded by event name, and the calls the model makes on its socket manager
 * are recorded as requests.
 */
module IssueChat {
  import opened Wrappers
  import opened JsValue
  import opened JsArray
  import opened JsString

  // ------------------------------------------------------------------ records

  datatype Message = Message(
    id: int, sender: Option<string>, text: Option<string>, time: string, isSent: bool, image: Option<string>)

  datatype Conversation = Conversation(
    id: int, issueCode: string, name: string, summary: string, tags: seq<string>,
    lastMessageTime: string, isActive: bool, messages: seq<Message>)

  datatype FileRecord = FileRecord(
    id: int, name: string, size: string, date: string, source: string, isSelected: bool)

  datatype Trace = Trace(id: int, name: string, traceType: string, isSelected: bool)

  /** What `uploadFile` is given: the picked file's name, size and MIME type. */
  datatype FileData = FileData(name: string, size: string, mimeType: string)

  /** A call the model makes on its socket manager. */
  datatype SocketRequest =
    | SendChatMessage(message: Message)
    | UploadFile(file: FileRecord)
    | UpdateTraceSelection(trace: Trace)

  function ConversationId(c: Conversation): int { c.id }
  function IsActive(c: Conversation): bool { c.isActive }
  function FileId(f: FileRecord): int { f.id }
  function FileSource(f: FileRecord): string { f.source }
  function TraceId(t: Trace): int { t.id }
  function TraceType(t: Trace): string { t.traceType }

  // ---------------------------------------------------- selection and filters

  /** `conversations.find(conv => conv.isActive) || conversations[0]`: the first
      active conversation, else the first one, else none. */
  function InitialConversation(cs: seq<Conversation>): (r: Option<nat>)
    ensures r.Some? <==> |cs| > 0
    ensures r.Some? ==> r.value < |cs|
    ensures r.Some? && cs[r.value].isActive ==> forall j :: 0 <= j < r.value ==> !cs[j].isActive
    ensures r.Some? && !cs[r.value].isActive ==> r.value == 0 && forall j :: 0 <= j < |cs| ==> !cs[j].isActive
  {
    match FindIndex(cs, IsActive, true)
    case Some(i) => Some(i)
    case None => if |cs| > 0 then Some(0) else None
  }

  predicate IsDisplayMode(mode: string) {
    mode == "summary" || mode == "tags"
  }

  /** The source an uploaded file is filed under, from its MIME type and name. */
  function SourceOf(mimeType: string, name: string): (r: string)
    ensures r == "csv" || r == "elg" || r == "remote"
    ensures r == "csv" <==> Includes(mimeType, "csv")
    ensures r == "elg" <==> !Includes(mimeType, "csv") && (Includes(mimeType, "log") || EndsWith(name, ".elg"))
  {
    if Includes(mimeType, "csv") then "csv"
    else if Includes(mimeType, "log") || EndsWith(name, ".elg") then "elg"
    else "remote"
  }

  /** The files `renderFilesList` shows for a source tab: all of them for
      `'all'`, otherwise exactly those of that source, in list order. */
  function FilesShown(files: seq<FileRecord>, source: string): (r: seq<FileRecord>)
    ensures source == "all" ==> r == files
    ensures source != "all" ==> forall i :: 0 <= i < |r| ==> r[i] in files && r[i].source == source
    ensures source != "all" ==> forall i :: 0 <= i < |files| && files[i].source == source ==> files[i] in r
  {
    if source == "all" then files else Filter(files, FileSource, source)
  }

  /** The traces `renderTraceList` shows for a type tab. */
  function TracesShown(traces: seq<Trace>, traceType: string): (r: seq<Trace>)
    ensures traceType == "all" ==> r == traces
    ensures traceType != "all" ==> forall i :: 0 <= i < |r| ==> r[i] in traces && r[i].traceType == traceType
    ensures traceType != "all" ==> forall i :: 0 <= i < |traces| && traces[i].traceType == traceType ==> traces[i] in r
  {
    if traceType == "all" then traces else Filter(traces, TraceType, traceType)
  }

  /** An appended file shows up last on the `'all'` tab and on its own source's
      tab, and nowhere else; the other files keep their places. */
  lemma UploadedFileIsListed(files: seq<FileRecord>, f: FileRecord, source: string)
    ensures FilesShown(files + [f], source) ==
            FilesShown(files, source) + (if source == "all" || f.source == source then [f] else [])
  {
    if source != "all" {
      FilterAppend(files, [f], FileSource, source);
      assert [f][1..] == [];
    }
  }

  // ---------------------------------------------------------------- toggles

  function FlipFile(f: FileRecord): FileRecord { f.(isSelected := !f.isSelected) }
  function FlipTrace(t: Trace): Trace { t.(isSelected := !t.isSelected) }

  /** `toggleFileSelection`'s effect on the list: the first file with that id
      has its flag flipped; nothing else changes. */
  function ToggleFile(fs: seq<FileRecord>, id: int): (r: seq<FileRecord>)
    ensures |r| == |fs|
    ensures forall k :: 0 <= k < |fs| ==> r[k].(isSelected := fs[k].isSelected) == fs[k]
    ensures forall k :: 0 <= k < |fs| ==> (r[k].isSelected != fs[k].isSelected <==> FindIndex(fs, FileId, id) == Some(k))
  {
    FlipFirst(fs, FileId, id, FlipFile)
  }

  /** Toggling the same file twice restores the list. */
  lemma ToggleFileTwice(fs: seq<FileRecord>, id: int)
    ensures ToggleFile(ToggleFile(fs, id), id) == fs
  {
    FindIndexSameKeys(fs, ToggleFile(fs, id), FileId, id);
  }

  /** `toggleTraceSelection`'s effect on the list. */
  function ToggleTrace(ts: seq<Trace>, id: int): (r: seq<Trace>)
    ensures |r| == |ts|
    ensures forall k :: 0 <= k < |ts| ==> r[k].(isSelected := ts[k].isSelected) == ts[k]
    ensures forall k :: 0 <= k < |ts| ==> (r[k].isSelected != ts[k].isSelected <==> FindIndex(ts, TraceId, id) == Some(k))
  {
    FlipFirst(ts, TraceId, id, FlipTrace)
  }

  lemma ToggleTraceTwice(ts: seq<Trace>, id: int)
    ensures ToggleTrace(ToggleTrace(ts, id), id) == ts
  {
    FindIndexSameKeys(ts, ToggleTrace(ts, id), TraceId, id);
  }

  // ------------------------------------------------------------------ model

  class ChatModel {
    var conversations: seq<Conversation>
    /** `currentConversation`, as an index into `conversations`. */
    var current: Option<nat>
    var files: seq<FileRecord>
    var traces: seq<Trace>
    var displayMode: string
    var currentFileSource: string
    var currentTraceType: string
    /** The events passed to `notifyObservers`, in order. */
    var notifications: seq<string>
    /** The calls made on `this.socketManager`, in order. */
    var socketRequests: seq<SocketRequest>

    ghost predicate Valid()
      reads this
    {
      && (current.Some? ==> current.value < |conversations|)
      && IsDisplayMode(displayMode)
    }

    /** The model with the data `loadData` installs. */
    constructor (cs: seq<Conversation>, fs: seq<FileRecord>, ts: seq<Trace>)
      ensures Valid()
      ensures conversations == cs && files == fs && traces == ts
      ensures current == InitialConversation(cs)
      ensures displayMode == "summary" && currentFileSource == "all" && currentTraceType == "all"
      ensures notifications == [] && socketRequests == []
    {
      conversations, current, files, traces := [], None, [], [];
      displayMode, currentFileSource, currentTraceType := "summary", "all", "all";
      notifications, socketRequests := [], [];
      new;
      LoadData(cs, fs, ts);
    }

    method LoadData(cs: seq<Conversation>, fs: seq<FileRecord>, ts: seq<Trace>)
      requires Valid()
      modifies this
      ensures Valid()
      ensures conversations == cs && files == fs && traces == ts
      ensures current == InitialConversation(cs)
      ensures displayMode == old(displayMode) && currentFileSource == old(currentFileSource)
      ensures currentTraceType == old(currentTraceType)
      ensures notifications == old(notifications) && socketRequests == old(socketRequests)
    {
      conversations := cs;
      files := fs;
      traces := ts;
      current := InitialConversation(cs);
    }

    /** `setCurrentConversation(id)`: with a conversation of that id, the first
        one becomes the only active one and the current one; otherwise nothing
        changes. */
    method SetCurrentConversation(id: int)
      requires Valid()
      modifies this
      ensures Valid()
      ensures match old(FindIndex(conversations, ConversationId, id))
        case None =>
          conversations == old(conversations) && current == old(current) && notifications == old(notifications)
        case Some(i) =>
          && |conversations| == old(|conversations|)
          && (forall k :: 0 <= k < |conversations| ==> conversations[k] == old(conversations[k]).(isActive := k == i))
          && current == Some(i)
          && notifications == old(notifications) + ["conversationChanged"]
      ensures files == old(files) && traces == old(traces) && displayMode == old(displayMode)
      ensures currentFileSource == old(currentFileSource) && currentTraceType == old(currentTraceType)
      ensures socketRequests == old(socketRequests)
    {
      var found := FindIndex(conversations, ConversationId, id);
      if found.Some? {
        var i := 0;
        while i < |conversations|
          invariant 0 <= i <= |conversations| == old(|conversations|)
          invariant forall k :: 0 <= k < i ==> conversations[k] == old(conversations[k]).(isActive := false)
          invariant forall k :: i <= k < |conversations| ==> conversations[k] == old(conversations[k])
          invariant current == old(current) && files == old(files) && traces == old(traces)
          invariant displayMode == old(displayMode) && currentFileSource == old(currentFileSource)
          invariant currentTraceType == old(currentTraceType)
          invariant notifications == old(notifications) && socketRequests == old(socketRequests)
        {
          conversations := conversations[i := conversations[i].(isActive := false)];
          i := i + 1;
        }
        conversations := conversations[found.value := conversations[found.value].(isActive := true)];
        current := found;
        notifications := notifications + ["conversationChanged"];
      }
    }

    /** Appends a message to the current conversation and hands it to the socket. */
    method Post(message: Message)
      requires Valid() && current.Some?
      modifies this
      ensures Valid()
      ensures conversations == old(conversations[current.value := conversations[current.value].(
                messages := conversations[current.value].messages + [message])])
      ensures socketRequests == old(socketRequests) + [SendChatMessage(message)]
      ensures notifications == old(notifications) + ["messageSent"]
      ensures current == old(current) && files == old(files) && traces == old(traces)
      ensures displayMode == old(displayMode) && currentFileSource == old(currentFileSource)
      ensures currentTraceType == old(currentTraceType)
    {
      var i := current.value;
      conversations := conversations[i := conversations[i].(messages := conversations[i].messages + [message])];
      socketRequests := socketRequests + [SendChatMessage(message)];
      notifications := notifications + ["messageSent"];
    }

    /** `sendMessage(text)`: nothing without a current conversation; otherwise
        a sent message numbered one past the conversation's messages is
        appended to it alone, and returned. */
    method SendMessage(text: string, time: string) returns (r: Option<Message>)
      requires Valid()
      modifies this
      ensures Valid()
      ensures old(current).None? ==>
        r.None? && conversations == old(conversations)
        && socketRequests == old(socketRequests) && notifications == old(notifications)
      ensures old(current).Some? ==>
        var i := old(current).value;
        && r == Some(Message(|old(conversations[i].messages)| + 1, None, Some(text), time, true, None))
        && conversations == old(conversations)[i := old(conversations[i]).(messages := old(conversations[i].messages) + [r.value])]
        && socketRequests == old(socketRequests) + [SendChatMessage(r.value)]
        && notifications == old(notifications) + ["messageSent"]
      ensures current == old(current) && files == old(files) && traces == old(traces)
      ensures displayMode == old(displayMode) && currentFileSource == old(currentFileSource)
      ensures currentTraceType == old(currentTraceType)
    {
      if current.None? {
        return None;
      }
      var message := Message(|conversations[current.value].messages| + 1, None, Some(text), time, true, None);
      Post(message);
      r := Some(message);
    }

    /** `sendImageMessage(imageUrl)`: as SendMessage, with an image and no text. */
    method SendImageMessage(imageUrl: string, time: string) returns (r: Option<Message>)
      requires Valid()
      modifies this
      ensures Valid()
      ensures old(current).None? ==>
        r.None? && conversations == old(conversations)
        && socketRequests == old(socketRequests) && notifications == old(notifications)
      ensures old(current).Some? ==>
        var i := old(current).value;
        && r == Some(Message(|old(conversations[i].messages)| + 1, None, None, time, true, Some(imageUrl)))
        && conversations == old(conversations)[i := old(conversations[i]).(messages := old(conversations[i].messages) + [r.value])]
        && socketRequests == old(socketRequests) + [SendChatMessage(r.value)]
        && notifications == old(notifications) + ["messageSent"]
      ensures current == old(current) && files == old(files) && traces == old(traces)
      ensures displayMode == old(displayMode) && currentFileSource == old(currentFileSource)
      ensures currentTraceType == old(currentTraceType)
    {
      if current.None? {
        return None;
      }
      var message := Message(|conversations[current.value].messages| + 1, None, None, time, true, Some(imageUrl));
      Post(message);
      r := Some(message);
    }

    /** `setDisplayMode(mode)`: only `'summary'` and `'tags'` are taken, so the
        display mode is always one of them. */
    method SetDisplayMode(mode: string)
      requires Valid()
      modifies this
      ensures Valid()
      ensures displayMode == if IsDisplayMode(mode) then mode else old(displayMode)
      ensures notifications == old(notifications) + (if IsDisplayMode(mode) then ["displayModeChanged"] else [])
      ensures conversations == old(conversations) && current == old(current) && files == old(files)
      ensures traces == old(traces) && currentFileSource == old(currentFileSource)
      ensures currentTraceType == old(currentTraceType) && socketRequests == old(socketRequests)
    {
      if mode == "summary" || mode == "tags" {
        displayMode := mode;
        notifications := notifications + ["displayModeChanged"];
      }
    }

    method SetFileSource(source: string)
      requires Valid()
      modifies this
      ensures Valid()
      ensures currentFileSource == source
      ensures notifications == old(notifications) + ["fileSourceChanged"]
      ensures conversations == old(conversations) && current == old(current) && files == old(files)
      ensures traces == old(traces) && displayMode == old(displayMode)
      ensures currentTraceType == old(currentTraceType) && socketRequests == old(socketRequests)
    {
      currentFileSource := source;
      notifications := notifications + ["fileSourceChanged"];
    }

    method SetTraceType(traceType: string)
      requires Valid()
      modifies this
      ensures Valid()
      ensures currentTraceType == traceType
      ensures notifications == old(notifications) + ["traceTypeChanged"]
      ensures conversations == old(conversations) && current == old(current) && files == old(files)
      ensures traces == old(traces) && displayMode == old(displayMode)
      ensures currentFileSource == old(currentFileSource) && socketRequests == old(socketRequests)
    {
      currentTraceType := traceType;
      notifications := notifications + ["traceTypeChanged"];
    }

    method ToggleFileSelection(fileId: int)
      requires Valid()
      modifies this
      ensures Valid()
      ensures files == ToggleFile(old(files), fileId)
      ensures notifications == old(notifications)
                               + (if FindIndex(old(files), FileId, fileId).Some? then ["fileSelectionChanged"] else [])
      ensures conversations == old(conversations) && current == old(current) && traces == old(traces)
      ensures displayMode == old(displayMode) && currentFileSource == old(currentFileSource)
      ensures currentTraceType == old(currentTraceType) && socketRequests == old(socketRequests)
    {
      var found := FindIndex(files, FileId, fileId);
      if found.Some? {
        var i := found.value;
        files := files[i := files[i].(isSelected := !files[i].isSelected)];
        notifications := notifications + ["fileSelectionChanged"];
      }
    }

    /** `uploadFile(fileData)`: appends one unselected file numbered one past
        the list, filed under the source its type and name give, and hands it
        to the socket. */
    method UploadFileData(fileData: FileData, date: string) returns (newFile: FileRecord)
      requires Valid()
      modifies this
      ensures Valid()
      ensures newFile == FileRecord(|old(files)| + 1, fileData.name, fileData.size, date,
                                    SourceOf(fileData.mimeType, fileData.name), false)
      ensures files == old(files) + [newFile]
      ensures socketRequests == old(socketRequests) + [UploadFile(newFile)]
      ensures notifications == old(notifications) + ["fileUploaded"]
      ensures conversations == old(conversations) && current == old(current) && traces == old(traces)
      ensures displayMode == old(displayMode) && currentFileSource == old(currentFileSource)
      ensures currentTraceType == old(currentTraceType)
    {
      newFile := FileRecord(|files| + 1, fileData.name, fileData.size, date,
                            SourceOf(fileData.mimeType, fileData.name), false);
      files := files + [newFile];
      socketRequests := socketRequests + [UploadFile(newFile)];
      notifications := notifications + ["fileUploaded"];
    }

    /** `toggleTraceSelection(id)`: flips the trace and sends the flipped trace. */
    method ToggleTraceSelection(traceId: int)
      requires Valid()
      modifies this
      ensures Valid()
      ensures traces == ToggleTrace(old(traces), traceId)
      ensures match FindIndex(old(traces), TraceId, traceId)
        case None => socketRequests == old(socketRequests) && notifications == old(notifications)
        case Some(i) => socketRequests == old(socketRequests) + [UpdateTraceSelection(traces[i])]
                        && notifications == old(notifications) + ["traceSelectionChanged"]
      ensures conversations == old(conversations) && current == old(current) && files == old(files)
      ensures displayMode == old(displayMode) && currentFileSource == old(currentFileSource)
      ensures currentTraceType == old(currentTraceType)
    {
      var found := FindIndex(traces, TraceId, traceId);
      if found.Some? {
        var i := found.value;
        traces := traces[i := traces[i].(isSelected := !traces[i].isSelected)];
        socketRequests := socketRequests + [UpdateTraceSelection(traces[i])];
        notifications := notifications + ["traceSelectionChanged"];
      }
    }
  }

  // -------------------------------------------------- the broadcasting socket

  /** The five callback lists of this socket manager. */
  datatype Listeners = MessageListeners | FileListeners | TraceListeners | ConnectListeners | DisconnectListeners

  /** An outbound frame; each kind carries its payload under its own key. */
  datatype Outbound =
    | ChatMessageFrame(message: Message)       // {type: 'chat_message', message}
    | FileUploadFrame(file: FileRecord)        // {type: 'file_upload', file}
    | TraceSelectionFrame(trace: Trace)        // {type: 'trace_selection', trace}

  datatype SocketEffect =
    | Transmit(frame: Outbound)
    | Invoke(listeners: Listeners, callback: Callback, arg: Option<Value>)

  /** Calling every callback of a list, in registration order. */
  function Invocations(l: Listeners, cbs: seq<Callback>, arg: Option<Value>): (r: seq<SocketEffect>)
    ensures |r| == |cbs|
  {
    seq(|cbs|, i requires 0 <= i < |cbs| => Invoke(l, cbs[i], arg))
  }

  /** The inbound `type` and payload key that feed each list. */
  function InboundKey(l: Listeners): Option<(string, string)> {
    match l
    case MessageListeners => Some(("chat_message", "message"))
    case FileListeners => Some(("file_update", "file"))
    case TraceListeners => Some(("trace_update", "trace"))
    case _ => None
  }

  /** Where `onmessage` sends a frame: the list its `type` selects, with the
      member that list's payload is read from. */
  function Route(frame: Parse): (r: Option<(Listeners, Value)>)
    ensures frame.Malformed? ==> r.None?
    ensures forall l :: (r.Some? && r.value.0 == l) <==>
      frame.Parsed? && InboundKey(l).Some? && Member(frame.value, "type") == Str(InboundKey(l).value.0)
    ensures r.Some? ==> r.value.1 == Member(frame.value, InboundKey(r.value.0).value.1)
  {
    match frame
    case Malformed => None
    case Parsed(data) =>
      var kind := Member(data, "type");
      if kind == Str("chat_message") then Some((MessageListeners, Member(data, "message")))
      else if kind == Str("file_update") then Some((FileListeners, Member(data, "file")))
      else if kind == Str("trace_update") then Some((TraceListeners, Member(data, "trace")))
      else None
  }

  class WebSocketManager {
    /** Whether `this.socket` is set. */
    var hasSocket: bool
    var messageCallbacks: seq<Callback>
    var fileCallbacks: seq<Callback>
    var traceCallbacks: seq<Callback>
    var connectCallbacks: seq<Callback>
    var disconnectCallbacks: seq<Callback>
    /** Reconnect timers set and not yet fired. */
    var pendingReconnects: nat
    var effects: seq<SocketEffect>

    function Registered(l: Listeners): seq<Callback>
      reads this
    {
      match l
      case MessageListeners => messageCallbacks
      case FileListeners => fileCallbacks
      case TraceListeners => traceCallbacks
      case ConnectListeners => connectCallbacks
      case DisconnectListeners => disconnectCallbacks
    }

    constructor ()
      ensures !hasSocket && pendingReconnects == 0 && effects == []
      ensures forall l :: Registered(l) == []
    {
      hasSocket := false;
      messageCallbacks, fileCallbacks, traceCallbacks := [], [], [];
      connectCallbacks, disconnectCallbacks := [], [];
      pendingReconnects := 0;
      effects := [];
    }

    /** `connect()`; `accepted` is false when the transport's constructor throws. */
    method Connect(accepted: bool)
      modifies this
      ensures hasSocket == (old(hasSocket) || accepted)
      ensures forall l :: Registered(l) == old(Registered(l))
      ensures pendingReconnects == old(pendingReconnects) && effects == old(effects)
    {
      if accepted {
        hasSocket := true;
      }
    }

    /** `callbacks.forEach(callback => callback(arg))`. */
    method Broadcast(l: Listeners, arg: Option<Value>)
      modifies this
      ensures effects == old(effects) + Invocations(l, Registered(l), arg)
      ensures hasSocket == old(hasSocket) && pendingReconnects == old(pendingReconnects)
      ensures forall l' :: Registered(l') == old(Registered(l'))
    {
      var cbs := Registered(l);
      for i := 0 to |cbs|
        invariant effects == old(effects) + Invocations(l, cbs[..i], arg)
        invariant hasSocket == old(hasSocket) && pendingReconnects == old(pendingReconnects)
        invariant forall l' :: Registered(l') == old(Registered(l'))
      {
        effects := effects + [Invoke(l, cbs[i], arg)];
        assert Invocations(l, cbs[..i + 1], arg) == Invocations(l, cbs[..i], arg) + [Invoke(l, cbs[i], arg)];
      }
      assert cbs[..|cbs|] == cbs;
    }

    /** `onopen`: every connect callback, in registration order. */
    method HandleOpen()
      modifies this
      ensures effects == old(effects) + Invocations(ConnectListeners, connectCallbacks, None)
      ensures hasSocket == old(hasSocket) && pendingReconnects == old(pendingReconnects)
      ensures forall l :: Registered(l) == old(Registered(l))
    {
      Broadcast(ConnectListeners, None);
    }

    /** `onmessage`: every callback of the list the frame's `type` selects, with
        that list's payload member; nothing for other frames. */
    method HandleMessage(frame: Parse)
      modifies this
      ensures effects == old(effects) + match Route(frame)
                                         case None => []
                                         case Some(r) => Invocations(r.0, Registered(r.0), Some(r.1))
      ensures hasSocket == old(hasSocket) && pendingReconnects == old(pendingReconnects)
      ensures forall l :: Registered(l) == old(Registered(l))
    {
      match Route(frame)
      case None =>
      case Some(r) =>
        Broadcast(r.0, Some(r.1));
    }

    /** `onclose`: every disconnect callback, then a reconnect timer, always. */
    method HandleClose()
      modifies this
      ensures effects == old(effects) + Invocations(DisconnectListeners, disconnectCallbacks, None)
      ensures pendingReconnects == old(pendingReconnects) + 1
      ensures hasSocket == old(hasSocket)
      ensures forall l :: Registered(l) == old(Registered(l))
    {
      Broadcast(DisconnectListeners, None);
      pendingReconnects := pendingReconnects + 1;
    }

    method ReconnectTimerFires(accepted: bool)
      requires pendingReconnects > 0
      modifies this
      ensures pendingReconnects == old(pendingReconnects) - 1
      ensures hasSocket == (old(hasSocket) || accepted)
      ensures forall l :: Registered(l) == old(Registered(l))
      ensures effects == old(effects)
    {
      pendingReconnects := pendingReconnects - 1;
      Connect(accepted);
    }

    /** Transmits `frame` only when there is a socket and it is OPEN; otherwise
        the frame is dropped. */
    method SendIfOpen(frame: Outbound, channelOpen: bool)
      modifies this
      ensures effects == old(effects) + (if hasSocket && channelOpen then [Transmit(frame)] else [])
      ensures hasSocket == old(hasSocket) && pendingReconnects == old(pendingReconnects)
      ensures forall l :: Registered(l) == old(Registered(l))
    {
      if hasSocket && channelOpen {
        effects := effects + [Transmit(frame)];
      }
    }

    method SendChatMessage(message: Message, channelOpen: bool)
      modifies this
      ensures effects == old(effects) + (if hasSocket && channelOpen then [Transmit(ChatMessageFrame(message))] else [])
      ensures hasSocket == old(hasSocket) && pendingReconnects == old(pendingReconnects)
      ensures forall l :: Registered(l) == old(Registered(l))
    {
      SendIfOpen(ChatMessageFrame(message), channelOpen);
    }

    method UploadFile(file: FileRecord, channelOpen: bool)
      modifies this
      ensures effects == old(effects) + (if hasSocket && channelOpen then [Transmit(FileUploadFrame(file))] else [])
      ensures hasSocket == old(hasSocket) && pendingReconnects == old(pendingReconnects)
      ensures forall l :: Registered(l) == old(Registered(l))
    {
      SendIfOpen(FileUploadFrame(file), channelOpen);
    }

    method UpdateTraceSelection(trace: Trace, channelOpen: bool)
      modifies this
      ensures effects == old(effects) + (if hasSocket && channelOpen then [Transmit(TraceSelectionFrame(trace))] else [])
      ensures hasSocket == old(hasSocket) && pendingReconnects == old(pendingReconnects)
      ensures forall l :: Registered(l) == old(Registered(l))
    {
      SendIfOpen(TraceSelectionFrame(trace), channelOpen);
    }

    /** Registration appends to one list and leaves the other four alone. */
    method Subscribe(l: Listeners, cb: Callback)
      modifies this
      ensures Registered(l) == old(Registered(l)) + [cb]
      ensures forall l' :: l' != l ==> Registered(l') == old(Registered(l'))
      ensures hasSocket == old(hasSocket) && pendingReconnects == old(pendingReconnects) && effects == old(effects)
    {
      match l
      case MessageListeners => messageCallbacks := messageCallbacks + [cb];
      case FileListeners => fileCallbacks := fileCallbacks + [cb];
      case TraceListeners => traceCallbacks := traceCallbacks + [cb];
      case ConnectListeners => connectCallbacks := connectCallbacks + [cb];
      case DisconnectListeners => disconnectCallbacks := disconnectCallbacks + [cb];
    }

    method OnMessage(cb: Callback)
      modifies this
      ensures Registered(MessageListeners) == old(Registered(MessageListeners)) + [cb]
      ensures forall l :: l != MessageListeners ==> Registered(l) == old(Registered(l))
      ensures hasSocket == old(hasSocket) && pendingReconnects == old(pendingReconnects) && effects == old(effects)
    {
      Subscribe(MessageListeners, cb);
    }

    method OnFileReceived(cb: Callback)
      modifies this
      ensures Registered(FileListeners) == old(Registered(FileListeners)) + [cb]
      ensures forall l :: l != FileListeners ==> Registered(l) == old(Registered(l))
      ensures hasSocket == old(hasSocket) && pendingReconnects == old(pendingReconnects) && effects == old(effects)
    {
      Subscribe(FileListeners, cb);
    }

    method OnTraceUpdate(cb: Callback)
      modifies this
      ensures Registered(TraceListeners) == old(Registered(TraceListeners)) + [cb]
      ensures forall l :: l != TraceListeners ==> Registered(l) == old(Registered(l))
      ensures hasSocket == old(hasSocket) && pendingReconnects == old(pendingReconnects) && effects == old(effects)
    {
      Subscribe(TraceListeners, cb);
    }

    method OnConnect(cb: Callback)
      modifies this
      ensures Registered(ConnectListeners) == old(Registered(ConnectListeners)) + [cb]
      ensures forall l :: l != ConnectListeners ==> Registered(l) == old(Registered(l))
      ensures hasSocket == old(hasSocket) && pendingReconnects == old(pendingReconnects) && effects == old(effects)
    {
      Subscribe(ConnectListeners, cb);
    }

    method OnDisconnect(cb: Callback)
      modifies this
      ensures Registered(DisconnectListeners) == old(Registered(DisconnectListeners)) + [cb]
      ensures forall l :: l != DisconnectListeners ==> Registered(l) == old(Registered(l))
      ensures hasSocket == old(hasSocket) && pendingReconnects == old(pendingReconnects) && effects == old(effects)
    {
      Subscribe(DisconnectListeners, cb);
    }
  }
}
