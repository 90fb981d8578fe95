# Issue-agent and Teams-style chat clients, modelled in Dafny

This project models the client-side core of two browser chat rooms.

- **websocket-manager.js.** `WebSocketManager` is the chat's socket client. It
  queues outgoing `{type, data}` messages while the connection is down and flushes
  them when it opens. It routes inbound frames by `type` to one callback per slot.
  After an abnormal close it reconnects, at most five times in a row; every
  successful open resets that count (websocket-manager.js:28).
- **script-js.js.** The issue-agent chat's `ChatModel` covers:
  - conversation selection and sending text or image messages;
  - the summary/tags display mode;
  - file upload, with the rule that files a file under `csv`, `elg` or `remote`;
  - toggling the selection of files and traces;
  - the `'all'`-or-equal filters the file and trace lists are rendered through.

  The same file also defines a second, simpler `WebSocketManager`. That one keeps
  lists of callbacks and broadcasts to all of them. It drops a message when the
  socket is not open, and it reconnects after every close.
- **teams-chat-js.js.** The Teams-style `ChatModel` covers:
  - conversation selection;
  - posting a message, which updates the conversation preview;
  - toggling file and index selection, which re-derives the lists of selected ids;
  - multi-file upload placed before the existing files;
  - its pure helpers `getFileType` and `formatTime`.

Objects whose fields the JavaScript assigns become Dafny classes. Their methods
`modify` those fields and state the whole new state. The pure parts become
functions and lemmas. Some JavaScript runtime pieces are modelled as follows:

- The transport is not modelled. Whether `socket.readyState` is OPEN is a
  parameter of the calls that read it.
- Everything a manager does to the outside world goes into one ordered log,
  `effects`: a frame transmitted, a transport closed, a callback called.
- Each pending `setTimeout` reconnect is an entry in `pendingReconnects`.
- `JSON.parse` becomes the datatype `Parse`, which is either `Malformed` or
  `Parsed(value)`.
- Clock readings (`new Date()`, `Date.now()`, the hours and minutes) are
  parameters.
- Records that the JavaScript changes in place are replaced inside the model's
  sequences. `currentConversation` always aliases an element of `conversations`,
  so it is modelled as that element's index.

Modules:

| file | module | contents |
|---|---|---|
| wrappers.dfy | `Wrappers` | `Option` |
| js_value.dfy | `JsValue` | JSON values, member access, `JSON.parse` outcome, callback identities |
| js_array.dfy | `JsArray` | `find` (as the index it finds) and `filter` on a key, `FlipFirst` (flip the item `find` picks), `KeysWhere` (`filter(flag).map(key)`) and `DistinctKeys` (no key repeated) |
| js_string.dfy | `JsString` | `includes`, `endsWith`, ASCII `toLowerCase`, `toString` of a natural, `padStart` |
| socket_client.dfy | `SocketClient` | websocket-manager.js |
| issue_chat.dfy | `IssueChat` | script-js.js: `ChatModel`, list filters, the broadcasting `WebSocketManager` |
| teams_chat.dfy | `TeamsChat` | teams-chat-js.js: `ChatModel`, `getFileType`, `formatTime` |

Two JavaScript behaviours matter here:

- `disconnect()` only asks the transport to close with code 1000
  (websocket-manager.js:147-151). It does not cancel reconnect timers that are
  already set; those timers still fire and call `connect`. The model follows
  the code here.
- On open, the queue is flushed through `sendMessage`, which re-queues whatever
  it cannot transmit, so the flush never ends while `this.socket` is not OPEN
  (websocket-manager.js:31-34). The model keeps that loop as written in
  `FlushPassAsWritten`/`QueueAfterPasses` and proves it makes no progress
  (`FlushAsWrittenNeverEnds`). `WebSocketManager.HandleOpen` corrects it: the
  flush stops and the rest stays queued (see Findings).

## Model

| member | source | states |
|---|---|---|
| JsValue.Member | websocket-manager.js:46-49 | a member read returns the object's member when present and `undefined` otherwise |
| JsArray.FindIndex | script-js.js:186 | `find` on a key: the first index whose key matches, with no earlier match, and none exactly when no item matches |
| JsArray.FindIndexSameKeys | script-js.js:241-247 | rewriting fields other than the key never changes which item `find` picks |
| JsArray.Filter | script-js.js:571-573 | `filter` on a key keeps only items with that key, and keeps every such item |
| JsArray.FilterAppend | script-js.js:621-623 | filtering keeps relative order: it distributes over concatenation |
| JsArray.FilterAll | script-js.js:571-573 | when every item matches, the filter returns the whole list |
| JsArray.FlipFirst | script-js.js:241-247 | the find-then-flip of the toggles: the first item with the key is replaced by its flipped form and every other item is kept |
| JsArray.KeysWhere | teams-chat-js.js:161 | `filter(flag).map(key)`: a key is listed exactly when some flagged item has it, and there are no more keys than items |
| JsArray.KeysWhereAppend | teams-chat-js.js:161 | the keys of a concatenation are the keys of its first part followed by those of its second, so the keys come in list order |
| JsArray.KeysWhereOne | teams-chat-js.js:161 | one item gives its key when flagged and nothing otherwise; with `KeysWhereAppend` this fixes the result: one key per flagged item, in list order |
| JsString.Includes | script-js.js:256-257 | `includes`: `t` is a prefix of `s` or of one of its tails; its properties are `IncludesInfix` and `IncludesIsInfix` |
| JsString.EndsWith | script-js.js:257 | `endsWith`: `t` is no longer than `s` and equals its last `\|t\|` characters |
| JsString.IncludesInfix | script-js.js:256-257 | `includes` finds every infix |
| JsString.IncludesIsInfix | script-js.js:256-257 | whatever `includes` finds occurs at some position |
| JsString.LowerChar | teams-chat-js.js:197 | ASCII capitals map 32 code points up (`'A'` = 65 to `'a'` = 97); every other character is kept |
| JsString.ToLower | teams-chat-js.js:197 | `toLowerCase` keeps the length and lower-cases each character |
| JsString.ToLowerIdempotent | teams-chat-js.js:197 | lower-casing twice is lower-casing once |
| JsString.Digit | teams-chat-js.js:215-216 | a digit character whose code is `'0'` plus the digit |
| JsString.DecimalString | teams-chat-js.js:215-216 | `toString()` of a natural is a non-empty run of digits with no leading zero, one digit exactly below 10 |
| JsString.DecimalStringRoundTrip | teams-chat-js.js:215-216 | reading the decimal digits back gives the number |
| JsString.PadStart | teams-chat-js.js:215-216 | `padStart` reaches the width, with fill characters in front of the unchanged string |
| SocketClient.Callbacks.Set | websocket-manager.js:126-144 | registering replaces the callback of one slot and leaves the other four unchanged |
| SocketClient.Transmissions | websocket-manager.js:31-34 | one frame per queued message, in queue order |
| SocketClient.Route | websocket-manager.js:41-67 | a frame reaches a slot exactly when it parsed and its `type` feeds that slot (`chat_message`, `file_update`, `trace_update`), and carries the frame's `data`; a malformed frame or an unknown type reaches none |
| SocketClient.Fire | websocket-manager.js:36-38 | the `if (this.callbacks.X) this.callbacks.X(arg)` guard (also lines 48-60 and 74-76): at most one effect, none exactly when the slot is empty, otherwise one call of the registered callback of that slot with that argument |
| SocketClient.Run | websocket-manager.js:28 | the attempt counter after a run of opens (line 28) and closes (lines 79-80): it grows by at most one per notification, and it never drops while no open occurs |
| SocketClient.Retries | websocket-manager.js:79-83 | how many `setTimeout` reconnects a run of notifications schedules: at most one per notification, and with no open in the run the counter ends exactly that many above where it started |
| SocketClient.ShouldReconnect | websocket-manager.js:79 | the `onclose` test: a code other than 1000 with fewer than 5 attempts; used by `Step`, `Retries` and `HandleClose` |
| SocketClient.Step | websocket-manager.js:79-80 | the counter after one notification: 0 after an open (line 28), one more after a close that passes `ShouldReconnect`, unchanged otherwise; `HandleOpen` and `HandleClose` are proved to move the counter by it, and the lemmas below are about runs of it |
| SocketClient.RunBounded | websocket-manager.js:79-80 | over any run of opens and closes, `reconnectAttempts` stays at or below 5 |
| SocketClient.NormalClosesKeepCounter | websocket-manager.js:79 | code-1000 closes never change the counter and never schedule a reconnect |
| SocketClient.AbnormalClosesExhaust | websocket-manager.js:79-82 | successive abnormal closes schedule exactly min(n, 5 − attempts) reconnects, and the counter grows by that number |
| SocketClient.RunAppend | websocket-manager.js:28 | the counter and the reconnect count compose over consecutive runs |
| SocketClient.OpenResetsRetries | websocket-manager.js:28 | an open resets the counter, so an abnormal close after an open is always retried |
| SocketClient.FlushPassAsWritten | websocket-manager.js:31-34 | one pass of the flush loop as written: `shift` the head, then `sendMessage` it, which pushes it back on the tail when it cannot transmit |
| SocketClient.QueueAfterPasses | websocket-manager.js:31-34 | the queue after `n` passes of that loop, stopping once it is empty; its properties are `FlushAsWrittenNeverEnds` and `FlushAsWrittenDrains` |
| SocketClient.FlushAsWrittenNeverEnds | websocket-manager.js:31-34 | as written, when the socket is not OPEN, every pass of the flush loop leaves the queue as long as before |
| SocketClient.FlushAsWrittenDrains | websocket-manager.js:31-34 | as written, when the socket is OPEN, one pass per message empties the queue |
| SocketClient.WebSocketManager.constructor | websocket-manager.js:3-17 | starts with no socket, not connected, an empty queue, no callbacks, zero attempts and no pending reconnects |
| SocketClient.WebSocketManager.Connect | websocket-manager.js:20-23 | `connect(url)` makes a transport for that url the current socket, or changes nothing when the constructor throws |
| SocketClient.WebSocketManager.CanTransmit | websocket-manager.js:102 | the transmit test: connected and the socket OPEN; `SendMessage` and `HandleOpen` branch on it |
| SocketClient.WebSocketManager.SendMessage | websocket-manager.js:95-108 | when connected and OPEN, exactly one frame with type, data and timestamp is transmitted and the queue is kept; otherwise `{type, data}` joins the tail of the queue and nothing is transmitted |
| SocketClient.WebSocketManager.SendChatMessage | websocket-manager.js:111-113 | `sendMessage` with type `chat_message` |
| SocketClient.WebSocketManager.UploadFile | websocket-manager.js:116-118 | `sendMessage` with type `file_upload` |
| SocketClient.WebSocketManager.UpdateTraceSelection | websocket-manager.js:121-123 | `sendMessage` with type `trace_selection` |
| SocketClient.WebSocketManager.HandleOpen | websocket-manager.js:25-38 | the socket becomes connected with the counter at 0; with the socket OPEN, the whole queue goes out in enqueue order and ends empty; the connect callback runs after the flush |
| SocketClient.WebSocketManager.FlushQueue | websocket-manager.js:31-34 | the flush loop once connected: with the socket OPEN every queued message is transmitted, one frame each in enqueue order, and the queue ends empty; otherwise nothing is sent and the queue is kept; the connection fields are untouched |
| SocketClient.WebSocketManager.HandleMessage | websocket-manager.js:41-67 | at most the one callback the frame routes to is called, with its `data`; no other state changes |
| SocketClient.WebSocketManager.HandleClose | websocket-manager.js:70-84 | the socket becomes disconnected and the disconnect callback gets the close event; a reconnect to that socket's url is scheduled, and the counter incremented, only for a code other than 1000 with attempts below 5 |
| SocketClient.WebSocketManager.ReconnectTimerFires | websocket-manager.js:82 | the earliest pending timer calls `connect` with its url |
| SocketClient.WebSocketManager.OnMessage | websocket-manager.js:126-128 | replaces only the message slot |
| SocketClient.WebSocketManager.OnConnect | websocket-manager.js:130-132 | replaces only the connect slot |
| SocketClient.WebSocketManager.OnDisconnect | websocket-manager.js:134-136 | replaces only the disconnect slot |
| SocketClient.WebSocketManager.OnFileReceived | websocket-manager.js:138-140 | replaces only the file slot |
| SocketClient.WebSocketManager.OnTraceUpdate | websocket-manager.js:142-144 | replaces only the trace slot |
| SocketClient.WebSocketManager.Disconnect | websocket-manager.js:147-151 | asks for a code-1000 close only when a socket exists, and otherwise does nothing; nothing else changes |
| SocketClient.QueuedUntilOpen | websocket-manager.js:25-38 | two messages sent before the connection opens go out in the order they were sent when it opens |
| IssueChat.InitialConversation | script-js.js:166 | the first active conversation, else the first one, else none |
| IssueChat.IsDisplayMode | script-js.js:229 | the accepted modes, `'summary'` and `'tags'`; `SetDisplayMode` takes only these and `ChatModel.Valid` keeps the mode among them |
| IssueChat.SourceOf | script-js.js:256-257 | `csv` exactly when the type contains "csv"; otherwise `elg` exactly when the type contains "log" or the name ends in ".elg"; otherwise `remote` |
| IssueChat.FilesShown | script-js.js:571-573 | the whole list for `'all'`; otherwise exactly the files of that source |
| IssueChat.TracesShown | script-js.js:621-623 | the whole list for `'all'`; otherwise exactly the traces of that type |
| IssueChat.UploadedFileIsListed | script-js.js:261 | an appended file shows up last on the `'all'` tab and on its own source's tab, and on no other tab; the other files keep their places |
| IssueChat.ToggleFile | script-js.js:241-247 | flips `isSelected` of the first file with that id, and changes no other field and no other file; an unknown id changes nothing |
| IssueChat.ToggleFileTwice | script-js.js:241-247 | toggling twice restores the list |
| IssueChat.ToggleTrace | script-js.js:272-279 | flips `isSelected` of the first trace with that id, and changes nothing else |
| IssueChat.ToggleTraceTwice | script-js.js:272-279 | toggling twice restores the list |
| IssueChat.ChatModel.constructor | script-js.js:4-17 | installs the loaded data, makes the initial conversation current, and starts in summary mode with both filters on `'all'` |
| IssueChat.ChatModel.LoadData | script-js.js:50-167 | the current conversation is the initial one |
| IssueChat.ChatModel.SetCurrentConversation | script-js.js:185-193 | with a match, exactly that conversation is active and current, and the change is announced; with none, nothing changes |
| IssueChat.ChatModel.Post | script-js.js:205-207 | appends the message to the current conversation alone, hands it to the socket and announces `messageSent`; shared by both send methods (also lines 221-223) |
| IssueChat.ChatModel.SendMessage | script-js.js:195-209 | without a current conversation nothing changes; otherwise one sent text message, numbered one past the conversation's messages, is appended to it alone and handed to the socket |
| IssueChat.ChatModel.SendImageMessage | script-js.js:211-225 | as `sendMessage`, with an image and no text |
| IssueChat.ChatModel.SetDisplayMode | script-js.js:228-233 | only `'summary'` or `'tags'` is taken; any other value leaves the mode and the notifications unchanged |
| IssueChat.ChatModel.SetFileSource | script-js.js:236-239 | sets the file tab and announces it |
| IssueChat.ChatModel.SetTraceType | script-js.js:267-270 | sets the trace tab and announces it |
| IssueChat.ChatModel.ToggleFileSelection | script-js.js:241-247 | the files become `ToggleFile` of the old files; an announcement is made only for a known id |
| IssueChat.ChatModel.UploadFileData | script-js.js:249-264 | appends one unselected file numbered one past the list, filed under `SourceOf` its type and name, and hands it to the socket |
| IssueChat.ChatModel.ToggleTraceSelection | script-js.js:272-279 | the traces become `ToggleTrace` of the old traces; the flipped trace is sent only for a known id |
| IssueChat.Invocations | script-js.js:800 | one call per registered callback, in registration order |
| IssueChat.Route | script-js.js:803-826 | a parsed frame reaches a list exactly when its `type` feeds that list, and carries that list's own payload member (`message`, `file`, `trace`); other frames reach none |
| IssueChat.WebSocketManager.constructor | script-js.js:785-792 | no socket and five empty callback lists |
| IssueChat.WebSocketManager.Connect | script-js.js:794-796 | sets the socket unless the constructor throws |
| IssueChat.WebSocketManager.Broadcast | script-js.js:800 | every callback of the list is called with the argument, in registration order |
| IssueChat.WebSocketManager.HandleOpen | script-js.js:798-801 | every connect callback is called, in order |
| IssueChat.WebSocketManager.HandleMessage | script-js.js:803-826 | every callback of the routed list is called with the routed payload; nothing for other frames |
| IssueChat.WebSocketManager.HandleClose | script-js.js:828-834 | every disconnect callback is called, then a reconnect is scheduled, unconditionally |
| IssueChat.WebSocketManager.ReconnectTimerFires | script-js.js:833 | a pending timer fires and calls `connect` |
| IssueChat.WebSocketManager.SendIfOpen | script-js.js:844-853 | transmits only when a socket exists and is OPEN; otherwise the frame is dropped |
| IssueChat.WebSocketManager.SendChatMessage | script-js.js:844-853 | a `chat_message` frame carrying `message`, or nothing |
| IssueChat.WebSocketManager.UploadFile | script-js.js:855-864 | a `file_upload` frame carrying `file`, or nothing |
| IssueChat.WebSocketManager.UpdateTraceSelection | script-js.js:866-875 | a `trace_selection` frame carrying `trace`, or nothing |
| IssueChat.WebSocketManager.Subscribe | script-js.js:877-895 | registration appends to one list and leaves the other four alone |
| IssueChat.WebSocketManager.OnMessage | script-js.js:877-879 | appends to the message list only |
| IssueChat.WebSocketManager.OnFileReceived | script-js.js:881-883 | appends to the file list only |
| IssueChat.WebSocketManager.OnTraceUpdate | script-js.js:885-887 | appends to the trace list only |
| IssueChat.WebSocketManager.OnConnect | script-js.js:889-891 | appends to the connect list only |
| IssueChat.WebSocketManager.OnDisconnect | script-js.js:893-895 | appends to the disconnect list only |
| TeamsChat.Extension | teams-chat-js.js:197 | `split('.').pop()`: a dot-free suffix of the name, preceded by a dot unless it is the whole name |
| TeamsChat.KindOfExtension | teams-chat-js.js:198-204 | the if-chain of `getFileType` on a lower-cased extension; `KindOfExtensionIsTable` states it as a table |
| TeamsChat.GetFileType | teams-chat-js.js:196-205 | `getFileType`: the kind of the lower-cased `Extension` of the name; `KindOfExtensionIsTable`, `LastExtensionDecides` and `GetFileTypeIgnoresCase` carry its properties |
| TeamsChat.KindOfExtensionIsTable | teams-chat-js.js:198-204 | word for doc/docx, pdf for pdf, image for jpg/jpeg/png/gif/bmp, excel for xls/xlsx, powerpoint for ppt/pptx, archive for zip/rar/7z, file for anything else |
| TeamsChat.ExtensionAfterLastDot | teams-chat-js.js:197 | whatever the stem holds, the extension is the text after the last dot |
| TeamsChat.LastExtensionDecides | teams-chat-js.js:196-205 | `getFileType` classifies only on the lower-cased text after the last dot |
| TeamsChat.ExtensionOfLower | teams-chat-js.js:197 | lower-casing commutes with taking the extension |
| TeamsChat.GetFileTypeIgnoresCase | teams-chat-js.js:196-205 | the classification does not depend on letter case |
| TeamsChat.TwoDigits | teams-chat-js.js:215-216 | a number below 100, padded to two places, is its tens digit then its units digit |
| TeamsChat.FormatTime | teams-chat-js.js:214-217 | for values below 100, five characters: the two-digit hours, a colon at index 2, the two-digit minutes |
| TeamsChat.ParseDigits | teams-chat-js.js:214-217 | an `HH:MM` string made of digits reads back as those numbers |
| TeamsChat.FormatTimeRoundTrip | teams-chat-js.js:214-217 | every clock time, hours 0–23 and minutes 0–59, reads back from its formatted string, so distinct times format differently |
| TeamsChat.SelectedFileIds | teams-chat-js.js:161 | `KeysWhere` on `selected` and `id`: an id is listed exactly when some selected file has it; by `KeysWhereAppend` and `KeysWhereOne`, the list holds one id per selected file, in list order |
| TeamsChat.SelectedIndexIds | teams-chat-js.js:171 | `KeysWhere` on `selected` and `id`: an id is listed exactly when some selected index has it; by `KeysWhereAppend` and `KeysWhereOne`, the list holds one id per selected index, in list order |
| TeamsChat.ToggleFile | teams-chat-js.js:157-160 | flips `selected` of the first file with that id, and changes nothing else |
| TeamsChat.ToggleIndex | teams-chat-js.js:167-170 | flips `selected` of the first index with that id, and changes nothing else |
| TeamsChat.ToggleFileFlipsMembership | teams-chat-js.js:157-164 | when ids are distinct, toggling moves the id into the selected list if it was out, and out if it was in |
| TeamsChat.ToggleIndexFlipsMembership | teams-chat-js.js:167-174 | the same for indexes |
| TeamsChat.NewFileItems | teams-chat-js.js:180-190 | one record per picked file; the k-th has id old length + k + 1, that file's name and size label, `GetFileType` of its name, the date "今天" and no selection |
| TeamsChat.UploadKeepsIdsDistinct | teams-chat-js.js:177-194 | when the ids are distinct and lie in 1..length, they still do after an upload |
| TeamsChat.ChatModel.constructor | teams-chat-js.js:5-13 | installs the loaded data with the first conversation current and both selected-id lists empty |
| TeamsChat.ChatModel.LoadData | teams-chat-js.js:15-123 | the current conversation is the first one, or none for an empty list |
| TeamsChat.ChatModel.SetCurrentConversation | teams-chat-js.js:125-134 | true with exactly the first conversation of that id active and current; false, with nothing changed, when there is none |
| TeamsChat.ChatModel.AddMessage | teams-chat-js.js:136-155 | false, with nothing changed, without a current conversation; otherwise one sent message is appended to that conversation, which previews its text at "剛剛"; the image is attached only when it is a non-empty string |
| TeamsChat.ChatModel.ToggleFileSelection | teams-chat-js.js:157-165 | true for a known id, with the file flipped and the selected ids re-derived; false, with nothing changed, for an unknown id |
| TeamsChat.ChatModel.ToggleIndexSelection | teams-chat-js.js:167-175 | the same for indexes |
| TeamsChat.ChatModel.UploadFiles | teams-chat-js.js:177-194 | returns the new records and puts them before all existing files, which keep their order |

## Left out

- `ChatView` and `ChatController` in both files are DOM rendering, event wiring and scrolling. The model keeps only the filters the two list renderers apply.
- The real `WebSocket` object and its network I/O are left out. `readyState === OPEN` is the `channelOpen` parameter. The `onerror` handler only logs.
- `setTimeout` delays (3000 ms and 5000 ms) are not modelled as time. A pending reconnect is a queue entry, and its firing is a method call.
- `JSON.stringify` is left out. Outbound frames are records. `JSON.parse` is the `Parse` datatype. JSON numbers are integers only.
- `new Date()`, `toISOString`, `toLocaleTimeString`, `toLocaleDateString` and `Date.now()` are clock and locale readings. They are parameters.
- `formatFileSize` uses floating-point logarithms. It is left out, and its output label is an input of `PickedFile`.
- `console` logging is left out.
- The observers' own behaviour is external. script-js.js's `notifyObservers` is recorded as the appended event name. Its payload and `addObserver` are not modelled.
- `setupSocketListeners` (script-js.js:19-48) wires the model's own reactions onto its socket manager. The clients' callbacks are opaque identities, so what a callback does when called is not modelled.
- script-js.js's `ChatModel` keeps `selectedFiles` and `selectedTraces` fields that nothing updates after the constructor. The model drops them.
- The static mock data of both `loadData`s is not modelled beyond the rule that selects the current conversation.
- In teams-chat-js.js, `selectedIndexes` starts empty even though the mock index list has one selected item. The model takes its lists as parameters, so that mismatch is not represented.
- Callback values are not checked for being functions. A registered callback is modelled as `Some(id)` and is treated as truthy. The JavaScript guard tests truthiness (websocket-manager.js:36, 48, 53, 58, 74), so a slot set to `undefined`, `0`, `''` or `false` is never called; the model has no such values for a slot.
- The `size` of a script-js.js file record is a `string`. The mock files carry labels such as `'3.2 MB'` (script-js.js:121), while `uploadFile` copies the browser `File`'s byte count (script-js.js:254), so the JavaScript list mixes both. The model only copies the field and keeps both as text.
- If a callback throws, the JavaScript stops the rest of that handler. The model does not represent this.
- `JsString.ToLower` lower-cases ASCII letters only. The file names classified here are ASCII extensions.
- Strings are sequences of Unicode characters, not UTF-16 code units.
- `SocketClient.WebSocketManager.FlushQueue` and `SocketClient.WebSocketManager.HandleOpen` stamp all flushed frames with a single timestamp. The JavaScript takes a fresh `new Date()` per frame (websocket-manager.js:99); in the model it is one clock reading per call.
- `SocketClient.WebSocketManager.FlushQueue` and `SocketClient.WebSocketManager.HandleOpen`: when the socket is not OPEN, the model stops the flush and keeps the queue. The code as written never stops (see Findings).
- `SocketClient.WebSocketManager.SendMessage` queues an immutable `Value`, a snapshot of the payload at the call. The JavaScript queues `{type, data}` holding the caller's object by reference (websocket-manager.js:106) and stringifies it only at flush time (lines 33 and 96-100), so a payload changed between the send and `onopen` goes out in its later state. The model does not capture that aliasing.

## Findings

| source | as written | input that shows it | evidently intended | confidence | as-written member | corrected member |
|---|---|---|---|---|---|---|
| websocket-manager.js:31-34 | the `onopen` flush loop shifts a message and calls `sendMessage`, which pushes it back whenever `this.socket` is not OPEN, so the loop condition stays true forever | `connect()` is called twice, for example by a reconnect timer that fires while an earlier socket is still connecting. The older socket opens while the newer `this.socket` is CONNECTING and the queue holds one message. | flush only while the current socket can transmit, and leave the rest queued | not executed | SocketClient.FlushAsWrittenNeverEnds | SocketClient.WebSocketManager.FlushQueue |
