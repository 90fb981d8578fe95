/**
 * The Teams-style chat room's model (teams-chat-js.js, `ChatModel`):
 * conversation selection, message posting with the conversation preview,
 * file and index selection with their derived id lists, multi-file upload,
 * and the two pure helpers it uses, `getFileType` and `formatTime`.
 */
module TeamsChat {
  import opened Wrappers
  import opened JsArray
  import opened JsString

  /** The preview time a conversation shows right after a post ("just now"). */
  const JustNow: string := "剛剛"
  /** The date an uploaded file is given ("today"). */
  const Today: string := "今天"

  // ------------------------------------------------------------------ records

  datatype Message = Message(
    id: int, sender: Option<string>, text: string, time: string, isSent: bool, image: Option<string>)

  datatype Conversation = Conversation(
    id: int, name: string, avatar: string, lastMessage: string, lastMessageTime: string,
    isActive: bool, messages: seq<Message>)

  datatype FileItem = FileItem(id: int, name: string, fileType: string, size: string, date: string, selected: bool)

  datatype IndexItem = IndexItem(id: int, name: string, selected: bool)

  /** A picked file: its name and the label `formatFileSize` gives its byte count. */
  datatype PickedFile = PickedFile(name: string, sizeLabel: string)

  function ConversationId(c: Conversation): int { c.id }
  function FileId(f: FileItem): int { f.id }
  function FileSelected(f: FileItem): bool { f.selected }
  function IndexId(x: IndexItem): int { x.id }
  function IndexSelected(x: IndexItem): bool { x.selected }

  // ------------------------------------------------------------ getFileType

  /** `name.split('.').pop()`: the text after the last dot, or the whole name
      when there is no dot. */
  function Extension(name: string): (ext: string)
    ensures |ext| <= |name| && name[|name| - |ext|..] == ext
    ensures '.' !in ext
    ensures |ext| < |name| ==> name[|name| - |ext| - 1] == '.'
  {
    if |name| == 0 || name[|name| - 1] == '.' then ""
    else Extension(name[..|name| - 1]) + [name[|name| - 1]]
  }

  /** The kind the lists of `getFileType` give a lower-cased extension. */
  function KindOfExtension(ext: string): string {
    if ext == "doc" || ext == "docx" then "word"
    else if ext == "pdf" then "pdf"
    else if ext == "jpg" || ext == "jpeg" || ext == "png" || ext == "gif" || ext == "bmp" then "image"
    else if ext == "xls" || ext == "xlsx" then "excel"
    else if ext == "ppt" || ext == "pptx" then "powerpoint"
    else if ext == "zip" || ext == "rar" || ext == "7z" then "archive"
    else "file"
  }

  function GetFileType(fileName: string): string {
    KindOfExtension(ToLower(Extension(fileName)))
  }

  /** The classification as a table. */
  const FileKinds: map<string, string> := map[
    "doc" := "word", "docx" := "word", "pdf" := "pdf",
    "jpg" := "image", "jpeg" := "image", "png" := "image", "gif" := "image", "bmp" := "image",
    "xls" := "excel", "xlsx" := "excel", "ppt" := "powerpoint", "pptx" := "powerpoint",
    "zip" := "archive", "rar" := "archive", "7z" := "archive"]

  /** The lists `getFileType` tests are this table, and anything the table
      lacks is a plain `'file'`. */
  lemma KindOfExtensionIsTable(ext: string)
    ensures KindOfExtension(ext) == if ext in FileKinds then FileKinds[ext] else "file"
  {
  }

  /** Only the last extension counts: `a.zip.pdf` is a pdf, whatever the stem. */
  lemma {:induction false} ExtensionAfterLastDot(stem: string, ext: string)
    requires '.' !in ext
    ensures Extension(stem + "." + ext) == ext
    decreases |ext|
  {
    var name := stem + "." + ext;
    if ext != [] {
      assert name[..|name| - 1] == stem + "." + ext[..|ext| - 1];
      ExtensionAfterLastDot(stem, ext[..|ext| - 1]);
      assert ext == ext[..|ext| - 1] + [ext[|ext| - 1]];
    }
  }

  lemma LastExtensionDecides(stem: string, ext: string)
    requires '.' !in ext
    ensures GetFileType(stem + "." + ext) == KindOfExtension(ToLower(ext))
  {
    ExtensionAfterLastDot(stem, ext);
  }

  /** Lower-casing a string with one more character at the end. */
  lemma ToLowerSnoc(s: string, c: char)
    ensures ToLower(s + [c]) == ToLower(s) + [LowerChar(c)]
  {
  }

  /** A character other than a dot extends the extension. */
  lemma ExtensionSnoc(s: string, c: char)
    ensures Extension(s + [c]) == if c == '.' then "" else Extension(s) + [c]
  {
    assert (s + [c])[..|s|] == s;
  }

  /** Lower-casing commutes with taking the extension, since it keeps the dots. */
  lemma {:induction false} ExtensionOfLower(name: string)
    ensures Extension(ToLower(name)) == ToLower(Extension(name))
    decreases |name|
  {
    if |name| == 0 {
      assert ToLower(name) == [] && Extension(name) == [];
    } else {
      var init, c := name[..|name| - 1], name[|name| - 1];
      assert name == init + [c];
      ToLowerSnoc(init, c);
      ExtensionSnoc(ToLower(init), LowerChar(c));
      ExtensionSnoc(init, c);
      if c != '.' {
        ExtensionOfLower(init);
        ToLowerSnoc(Extension(init), c);
      }
    }
  }

  /** The classification ignores letter case: `REPORT.PDF` is a pdf. */
  lemma GetFileTypeIgnoresCase(fileName: string)
    ensures GetFileType(ToLower(fileName)) == GetFileType(fileName)
  {
    ExtensionOfLower(fileName);
    ToLowerIdempotent(Extension(fileName));
  }

  // ------------------------------------------------------------- formatTime

  /** A number below 100, padded to two digits. */
  lemma TwoDigits(n: nat)
    ensures n < 100 ==> PadStart(DecimalString(n), 2, '0') == [Digit(n / 10), Digit(n % 10)]
  {
    if n < 10 {
      assert DecimalString(n) == [Digit(n)];
      assert PadStart([Digit(n)], 2, '0') == ['0', Digit(n)];
    } else if n < 100 {
      var d := DecimalString(n / 10);
      assert d == [Digit(n / 10)];
      assert DecimalString(n) == [Digit(n / 10), Digit(n % 10)];
      assert PadStart([Digit(n / 10), Digit(n % 10)], 2, '0') == [Digit(n / 10), Digit(n % 10)];
    }
  }

  /** `HH:MM`: hours and minutes, each zero-padded to two digits. */
  function FormatTime(hours: nat, minutes: nat): (r: string)
    ensures hours < 100 && minutes < 100 ==>
      r == [Digit(hours / 10), Digit(hours % 10), ':', Digit(minutes / 10), Digit(minutes % 10)]
  {
    TwoDigits(hours);
    TwoDigits(minutes);
    PadStart(DecimalString(hours), 2, '0') + ":" + PadStart(DecimalString(minutes), 2, '0')
  }

  predicate IsDigit(c: char) { '0' <= c <= '9' }

  function DigitValue(c: char): int { c as int - '0' as int }

  /** Reading an `HH:MM` string back. */
  function ParseTime(s: string): Option<(int, int)> {
    if |s| == 5 && s[2] == ':' && IsDigit(s[0]) && IsDigit(s[1]) && IsDigit(s[3]) && IsDigit(s[4]) then
      Some((10 * DigitValue(s[0]) + DigitValue(s[1]), 10 * DigitValue(s[3]) + DigitValue(s[4])))
    else None
  }

  lemma ParseDigits(h1: nat, h0: nat, m1: nat, m0: nat)
    requires h1 < 10 && h0 < 10 && m1 < 10 && m0 < 10
    ensures ParseTime([Digit(h1), Digit(h0), ':', Digit(m1), Digit(m0)]) == Some((10 * h1 + h0, 10 * m1 + m0))
  {
  }

  /** For any clock time the formatted string reads back as that time, so
      distinct times are formatted differently. */
  lemma FormatTimeRoundTrip(hours: nat, minutes: nat)
    requires hours < 24 && minutes < 60
    ensures ParseTime(FormatTime(hours, minutes)) == Some((hours, minutes))
  {
    var h1, h0, m1, m0 := hours / 10, hours % 10, minutes / 10, minutes % 10;
    assert 10 * h1 + h0 == hours && 10 * m1 + m0 == minutes;
    ParseDigits(h1, h0, m1, m0);
  }

  // ------------------------------------------------------ selection toggles

  /** The ids of the selected files, in list order
      (`files.filter(f => f.selected).map(f => f.id)`). */
  function SelectedFileIds(fs: seq<FileItem>): seq<int> {
    KeysWhere(fs, FileSelected, FileId)
  }

  /** The ids of the selected indexes, in list order. */
  function SelectedIndexIds(xs: seq<IndexItem>): seq<int> {
    KeysWhere(xs, IndexSelected, IndexId)
  }

  function FlipFile(f: FileItem): FileItem { f.(selected := !f.selected) }
  function FlipIndex(x: IndexItem): IndexItem { x.(selected := !x.selected) }

  /** `toggleFileSelection`'s effect on the list: the first file with that id
      has `selected` flipped; nothing else changes. */
  function ToggleFile(fs: seq<FileItem>, id: int): (r: seq<FileItem>)
    ensures |r| == |fs|
    ensures forall k :: 0 <= k < |fs| ==> r[k].(selected := fs[k].selected) == fs[k]
    ensures forall k :: 0 <= k < |fs| ==> (r[k].selected != fs[k].selected <==> FindIndex(fs, FileId, id) == Some(k))
  {
    FlipFirst(fs, FileId, id, FlipFile)
  }

  /** `toggleIndexSelection`'s effect on the list. */
  function ToggleIndex(xs: seq<IndexItem>, id: int): (r: seq<IndexItem>)
    ensures |r| == |xs|
    ensures forall k :: 0 <= k < |xs| ==> r[k].(selected := xs[k].selected) == xs[k]
    ensures forall k :: 0 <= k < |xs| ==> (r[k].selected != xs[k].selected <==> FindIndex(xs, IndexId, id) == Some(k))
  {
    FlipFirst(xs, IndexId, id, FlipIndex)
  }

  /** With distinct ids, toggling an existing file moves its id into the
      selection when it was unselected and out of it when it was selected. */
  lemma ToggleFileFlipsMembership(fs: seq<FileItem>, id: int)
    requires DistinctKeys(fs, FileId)
    requires FindIndex(fs, FileId, id).Some?
    ensures var i := FindIndex(fs, FileId, id).value;
            id in SelectedFileIds(ToggleFile(fs, id)) <==> !fs[i].selected
  {
    var i := FindIndex(fs, FileId, id).value;
    var t := ToggleFile(fs, id);
    if id in SelectedFileIds(t) {
      var k :| 0 <= k < |t| && FileSelected(t[k]) && FileId(t[k]) == id;
      assert fs[k].id == id;
      assert k == i;
    } else {
      assert !FileSelected(t[i]);
    }
  }

  lemma ToggleIndexFlipsMembership(xs: seq<IndexItem>, id: int)
    requires DistinctKeys(xs, IndexId)
    requires FindIndex(xs, IndexId, id).Some?
    ensures var i := FindIndex(xs, IndexId, id).value;
            id in SelectedIndexIds(ToggleIndex(xs, id)) <==> !xs[i].selected
  {
    var i := FindIndex(xs, IndexId, id).value;
    var t := ToggleIndex(xs, id);
    if id in SelectedIndexIds(t) {
      var k :| 0 <= k < |t| && IndexSelected(t[k]) && IndexId(t[k]) == id;
      assert xs[k].id == id;
      assert k == i;
    } else {
      assert !IndexSelected(t[i]);
    }
  }

  // ------------------------------------------------------------------ upload

  /** The records `uploadFiles` builds: the k-th picked file gets id
      `base + k + 1`, its kind, today's date and no selection. */
  function NewFileItems(picked: seq<PickedFile>, base: nat): (r: seq<FileItem>)
    ensures |r| == |picked|
    ensures forall k :: 0 <= k < |r| ==>
      && r[k].id == base + k + 1 && r[k].name == picked[k].name && r[k].size == picked[k].sizeLabel
      && r[k].fileType == GetFileType(picked[k].name) && r[k].date == Today && !r[k].selected
  {
    seq(|picked|, k requires 0 <= k < |picked| =>
      FileItem(base + k + 1, picked[k].name, GetFileType(picked[k].name), picked[k].sizeLabel, Today, false))
  }

  /** Ids `1..n` held once each. */
  predicate IdsNumbered(fs: seq<FileItem>, n: nat) {
    DistinctKeys(fs, FileId) && forall i :: 0 <= i < |fs| ==> 1 <= fs[i].id <= n
  }

  /** When the file ids are distinct and run no higher than the list length,
      an upload keeps them so: the new ids lie above every old one. */
  lemma UploadKeepsIdsDistinct(fs: seq<FileItem>, picked: seq<PickedFile>)
    requires IdsNumbered(fs, |fs|)
    ensures IdsNumbered(NewFileItems(picked, |fs|) + fs, |fs| + |picked|)
  {
    var all := NewFileItems(picked, |fs|) + fs;
    var n := |picked|;
    forall i, j | 0 <= i < j < |all| ensures all[i].id != all[j].id {
      if j < n {
        assert all[i].id == |fs| + i + 1 && all[j].id == |fs| + j + 1;
      } else if i < n {
        assert all[i].id == |fs| + i + 1 && all[j] == fs[j - n];
      } else {
        assert all[i] == fs[i - n] && all[j] == fs[j - n];
      }
    }
  }

  // ------------------------------------------------------------------ model

  class ChatModel {
    var conversations: seq<Conversation>
    /** `currentConversation`, as an index into `conversations`. */
    var current: Option<nat>
    var files: seq<FileItem>
    var indexes: seq<IndexItem>
    var selectedFiles: seq<int>
    var selectedIndexes: seq<int>

    ghost predicate Valid()
      reads this
    {
      current.Some? ==> current.value < |conversations|
    }

    /** The model with the data `loadData` installs; the derived id lists start empty. */
    constructor (cs: seq<Conversation>, fs: seq<FileItem>, xs: seq<IndexItem>)
      ensures Valid()
      ensures conversations == cs && files == fs && indexes == xs
      ensures current == if cs == [] then None else Some(0)
      ensures selectedFiles == [] && selectedIndexes == []
    {
      conversations, current, files, indexes := [], None, [], [];
      selectedFiles, selectedIndexes := [], [];
      new;
      LoadData(cs, fs, xs);
    }

    /** `loadData()`: the current conversation is the first one. */
    method LoadData(cs: seq<Conversation>, fs: seq<FileItem>, xs: seq<IndexItem>)
      modifies this
      ensures Valid()
      ensures conversations == cs && files == fs && indexes == xs
      ensures current == if cs == [] then None else Some(0)
      ensures selectedFiles == old(selectedFiles) && selectedIndexes == old(selectedIndexes)
    {
      conversations := cs;
      files := fs;
      indexes := xs;
      current := if cs == [] then None else Some(0);
    }

    /** `setCurrentConversation(id)`: true, with the first conversation of that
        id the only active one and the current one; false, changing nothing,
        when there is none. */
    method SetCurrentConversation(conversationId: int) returns (ok: bool)
      requires Valid()
      modifies this
      ensures Valid()
      ensures ok == old(FindIndex(conversations, ConversationId, conversationId)).Some?
      ensures !ok ==> conversations == old(conversations) && current == old(current)
      ensures ok ==>
        var i := old(FindIndex(conversations, ConversationId, conversationId)).value;
        && |conversations| == old(|conversations|)
        && (forall k :: 0 <= k < |conversations| ==> conversations[k] == old(conversations[k]).(isActive := k == i))
        && current == Some(i)
      ensures files == old(files) && indexes == old(indexes)
      ensures selectedFiles == old(selectedFiles) && selectedIndexes == old(selectedIndexes)
    {
      var found := FindIndex(conversations, ConversationId, conversationId);
      if found.None? {
        return false;
      }
      var i := 0;
      while i < |conversations|
        invariant 0 <= i <= |conversations| == old(|conversations|)
        invariant forall k :: 0 <= k < i ==> conversations[k] == old(conversations[k]).(isActive := false)
        invariant forall k :: i <= k < |conversations| ==> conversations[k] == old(conversations[k])
        invariant current == old(current) && files == old(files) && indexes == old(indexes)
        invariant selectedFiles == old(selectedFiles) && selectedIndexes == old(selectedIndexes)
      {
        conversations := conversations[i := conversations[i].(isActive := false)];
        i := i + 1;
      }
      conversations := conversations[found.value := conversations[found.value].(isActive := true)];
      current := found;
      ok := true;
    }

    /** `addMessage(text, image)`: false without a current conversation;
        otherwise a sent message is appended to the current conversation, which
        now previews its text as sent just now.  The image is attached only when
        it is a non-empty string. */
    method AddMessage(text: string, image: Option<string>, now: int, hours: nat, minutes: nat)
      returns (r: Option<Message>)
      requires Valid()
      modifies this
      ensures Valid()
      ensures old(current).None? ==> r.None? && conversations == old(conversations)
      ensures old(current).Some? ==>
        var i := old(current).value;
        var c := old(conversations[i]);
        && r == Some(Message(now, None, text, FormatTime(hours, minutes), true,
                             if image.Some? && image.value != "" then image else None))
        && conversations == old(conversations)[i := c.(messages := c.messages + [r.value],
                                                       lastMessage := text, lastMessageTime := JustNow)]
      ensures current == old(current) && files == old(files) && indexes == old(indexes)
      ensures selectedFiles == old(selectedFiles) && selectedIndexes == old(selectedIndexes)
    {
      if current.None? {
        return None;
      }
      var attached := if image.Some? && image.value != "" then image else None;
      var message := Message(now, None, text, FormatTime(hours, minutes), true, attached);
      var i := current.value;
      var c := conversations[i];
      conversations := conversations[i := c.(messages := c.messages + [message],
                                             lastMessage := text, lastMessageTime := JustNow)];
      r := Some(message);
    }

    /** `toggleFileSelection(id)`: flips the file and recomputes the selected ids. */
    method ToggleFileSelection(fileId: int) returns (found: bool)
      modifies this
      ensures found == old(FindIndex(files, FileId, fileId)).Some?
      ensures files == ToggleFile(old(files), fileId)
      ensures selectedFiles == if found then SelectedFileIds(files) else old(selectedFiles)
      ensures conversations == old(conversations) && current == old(current)
      ensures indexes == old(indexes) && selectedIndexes == old(selectedIndexes)
    {
      var i := FindIndex(files, FileId, fileId);
      if i.None? {
        return false;
      }
      files := files[i.value := files[i.value].(selected := !files[i.value].selected)];
      selectedFiles := SelectedFileIds(files);
      found := true;
    }

    /** `toggleIndexSelection(id)`: flips the index and recomputes the selected ids. */
    method ToggleIndexSelection(indexId: int) returns (found: bool)
      modifies this
      ensures found == old(FindIndex(indexes, IndexId, indexId)).Some?
      ensures indexes == ToggleIndex(old(indexes), indexId)
      ensures selectedIndexes == if found then SelectedIndexIds(indexes) else old(selectedIndexes)
      ensures conversations == old(conversations) && current == old(current)
      ensures files == old(files) && selectedFiles == old(selectedFiles)
    {
      var i := FindIndex(indexes, IndexId, indexId);
      if i.None? {
        return false;
      }
      indexes := indexes[i.value := indexes[i.value].(selected := !indexes[i.value].selected)];
      selectedIndexes := SelectedIndexIds(indexes);
      found := true;
    }

    /** `uploadFiles(fileList)`: the new records go before all existing files,
        which keep their order. */
    method UploadFiles(picked: seq<PickedFile>) returns (newFiles: seq<FileItem>)
      modifies this
      ensures newFiles == NewFileItems(picked, |old(files)|)
      ensures files == newFiles + old(files)
      ensures files[|picked|..] == old(files)
      ensures conversations == old(conversations) && current == old(current) && indexes == old(indexes)
      ensures selectedFiles == old(selectedFiles) && selectedIndexes == old(selectedIndexes)
    {
      newFiles := NewFileItems(picked, |files|);
      files := newFiles + files;
    }
  }
}
