/** The file editor (FileEditorView.swift): a text buffer loaded from a file,
    saved back only when the file is writable, the unsaved-changes guard on
    cancel, and the hex viewer's 16-byte rows for binary files.

    The backend calls are oracle parameters: isExploitActive is active,
    getFileInfo is info, readFile is read, writeFile is write and readFileData
    is readData. */
module Editor {
  import opened Strings
  import FileBrowser
  import Navigation

  // ---------------------------------------------------------------------------
  // The editor

  /** The part of FileInfo the editor looks at. */
  datatype FileInfo = FileInfo(permissions: string)

  datatype EditorState = EditorState(
    content: string,
    originalContent: string,
    isLoading: bool,
    isSaving: bool,
    errorMessage: Option<string>,
    showingError: bool,
    showingDiscardConfirm: bool,
    isReadOnly: bool,
    fileInfo: Option<FileInfo>,
    dismissed: bool)

  /** What the body shows: a spinner, the load-error view, or the text editor. */
  datatype Screen = LoadingScreen | ErrorScreen(message: string) | EditorScreen

  type InfoSource = string -> Option<FileInfo>
  type Reader = string -> Option<string>
  type Writer = (string, string) -> bool

  const InitialEditor := EditorState("", "", true, false, None, false, false, false, None, false)

  predicate HasChanges(st: EditorState) {
    st.content != st.originalContent
  }

  /** isReadOnly as loadFile sets it: the permission string has no "w". */
  function ReadOnlyFor(permissions: string): (r: bool)
    ensures r <==> 'w' !in permissions
  {
    ContainsChar(permissions, 'w');
    !Contains(permissions, "w")
  }

  function Shown(st: EditorState): (s: Screen)
    ensures s == EditorScreen <==> !st.isLoading && st.errorMessage.None?
  {
    if st.isLoading then LoadingScreen
    else match st.errorMessage
      case Some(e) => ErrorScreen(e)
      case None => EditorScreen
  }

  /** The Save button: hidden (None) for a read-only file, otherwise enabled
      exactly while there are unsaved changes and no save is running. */
  function SaveButton(st: EditorState): (b: Option<bool>)
    ensures b.None? <==> st.isReadOnly
    ensures b == Some(true) <==> !st.isReadOnly && HasChanges(st) && !st.isSaving
  {
    if st.isReadOnly then None else Some(HasChanges(st) && !st.isSaving)
  }

  /** loadFile, with the backend's answers for this file. */
  function Loaded(st: EditorState, active: bool, info: Option<FileInfo>, read: Option<string>): EditorState {
    var starting := st.(isLoading := true, errorMessage := None);
    if !active then starting.(errorMessage := Some("Exploit not active"), isLoading := false)
    else
      var described := match info
        case Some(i) => starting.(fileInfo := info, isReadOnly := ReadOnlyFor(i.permissions))
        case None => starting;
      match read
      case Some(text) => described.(content := text, originalContent := text, isLoading := false)
      case None => described.(errorMessage := Some("Failed to read file"), isLoading := false)
  }

  /** saveFile, with the backend's answer to the write: a read-only file is not
      written; a write that succeeds records the text and dismisses the editor;
      one that fails raises the error alert. */
  function Saved(st: EditorState, written: bool): EditorState {
    if st.isReadOnly then st
    else if written then st.(isSaving := false, originalContent := st.content, dismissed := true)
    else st.(isSaving := false, errorMessage := Some("Failed to save file"), showingError := true)
  }

  /** handleCancel: ask first when there are unsaved changes, else dismiss. */
  function Cancelled(st: EditorState): EditorState {
    if HasChanges(st) then st.(showingDiscardConfirm := true) else st.(dismissed := true)
  }

  /** The "Discard Changes" button of the confirmation dialog; tapping a button of
      the alert also clears the binding that shows it. */
  function Discarded(st: EditorState): EditorState {
    st.(showingDiscardConfirm := false, dismissed := true)
  }

  // ---------------------------------------------------------------------------
  // Properties of the editor

  /** A load that reads the file shows the editor with no unsaved changes and the
      file's text; the read-only flag follows the permissions when they are known. */
  lemma LoadShowsFile(st: EditorState, active: bool, info: Option<FileInfo>, read: Option<string>)
    requires active && read.Some?
    ensures var r := Loaded(st, active, info, read);
      && Shown(r) == EditorScreen && !HasChanges(r) && r.content == read.value
      && r.isReadOnly == (if info.Some? then 'w' !in info.value.permissions else st.isReadOnly)
  {
  }

  /** A load that cannot start or cannot read shows its error and leaves the
      buffer alone. */
  lemma LoadFailures(st: EditorState, active: bool, info: Option<FileInfo>, read: Option<string>)
    ensures !active ==> Shown(Loaded(st, active, info, read)) == ErrorScreen("Exploit not active")
    ensures active && read.None? ==> Shown(Loaded(st, active, info, read)) == ErrorScreen("Failed to read file")
    ensures !active || read.None? ==>
      Loaded(st, active, info, read).content == st.content
      && Loaded(st, active, info, read).originalContent == st.originalContent
  {
  }

  /** Saving never changes the text being edited. A read-only file is never
      written; a successful write leaves nothing unsaved and closes the editor;
      a failed one keeps the changes and raises the alert. Either way saving is
      over, so after a failure the Save button is enabled again while changes
      remain. */
  lemma SaveOutcomes(st: EditorState, written: bool)
    ensures Saved(st, written).content == st.content
    ensures st.isReadOnly ==> Saved(st, written) == st
    ensures !st.isReadOnly && written ==> !HasChanges(Saved(st, written)) && Saved(st, written).dismissed
    ensures !st.isReadOnly && !written ==>
      var r := Saved(st, written);
      HasChanges(r) == HasChanges(st) && r.showingError && r.errorMessage == Some("Failed to save file")
    ensures !st.isReadOnly ==> !Saved(st, written).isSaving
    ensures !st.isReadOnly && !written ==> SaveButton(Saved(st, written)) == Some(HasChanges(st))
  {
  }

  /** Cancel closes the editor at once exactly when nothing is unsaved; otherwise
      it asks, and only "Discard Changes" closes it. Unsaved text is never lost
      without that confirmation. */
  lemma CancelGuardsChanges(st: EditorState)
    requires !st.dismissed
    ensures Cancelled(st).dismissed <==> !HasChanges(st)
    ensures Cancelled(st).showingDiscardConfirm <==> HasChanges(st) || st.showingDiscardConfirm
    ensures Discarded(Cancelled(st)).dismissed && !Discarded(Cancelled(st)).showingDiscardConfirm
  {
  }

  /** After a save that fails the body shows the load-error view with the save
      error, and its "Try Again" reloads the file over the unsaved text. */
  lemma FailedSaveHidesEditor(st: EditorState, text: string, info: Option<FileInfo>)
    requires !st.isReadOnly && !st.isLoading && HasChanges(st)
    ensures Shown(Saved(st, false)) == ErrorScreen("Failed to save file")
    ensures var again := Loaded(Saved(st, false), true, info, Some(text));
      again.content == text && !HasChanges(again)
  {
  }

  class FileEditor {
    const filePath: string
    const fileManager: Navigation.FileSystemManager
    var content: string
    var originalContent: string
    var isLoading: bool
    var isSaving: bool
    var errorMessage: Option<string>
    var showingError: bool
    var showingDiscardConfirm: bool
    var isReadOnly: bool
    var fileInfo: Option<FileInfo>
    var dismissed: bool

    function State(): EditorState
      reads this
    {
      EditorState(content, originalContent, isLoading, isSaving, errorMessage,
        showingError, showingDiscardConfirm, isReadOnly, fileInfo, dismissed)
    }

    constructor (path: string, manager: Navigation.FileSystemManager)
      ensures filePath == path && fileManager == manager && State() == InitialEditor
    {
      filePath := path;
      fileManager := manager;
      content := "";
      originalContent := "";
      isLoading := true;
      isSaving := false;
      errorMessage := None;
      showingError := false;
      showingDiscardConfirm := false;
      isReadOnly := false;
      fileInfo := None;
      dismissed := false;
    }

    /** loadFile; the background task's steps run in order. */
    method LoadFile(active: bool, info: InfoSource, read: Reader)
      modifies this
      ensures State() == Loaded(old(State()), active, info(filePath), read(filePath))
    {
      isLoading := true;
      errorMessage := None;
      if !active {
        errorMessage := Some("Exploit not active");
        isLoading := false;
        return;
      }
      var fetched := info(filePath);
      if fetched.Some? {
        fileInfo := fetched;
        isReadOnly := !Contains(fetched.value.permissions, "w");
      }
      var fileContent := read(filePath);
      if fileContent.Some? {
        content := fileContent.value;
        originalContent := fileContent.value;
        isLoading := false;
      } else {
        errorMessage := Some("Failed to read file");
        isLoading := false;
      }
    }

    /** saveFile; a successful write also refreshes the navigator's listing. */
    method SaveFile(write: Writer, list: FileBrowser.Listing)
      modifies this, fileManager`currentPath, fileManager`items, fileManager`isLoading, fileManager`errorMessage
      ensures State() == Saved(old(State()), write(filePath, old(content)))
      ensures fileManager.State() ==
        if !old(isReadOnly) && write(filePath, old(content)) then Navigation.Refreshed(old(fileManager.State()), list)
        else old(fileManager.State())
    {
      if isReadOnly {
        return;
      }
      isSaving := true;
      var success := write(filePath, content);
      isSaving := false;
      if success {
        originalContent := content;
        fileManager.Refresh(list);
        dismissed := true;
      } else {
        errorMessage := Some("Failed to save file");
        showingError := true;
      }
    }

    method HandleCancel()
      modifies this`showingDiscardConfirm, this`dismissed
      ensures State() == Cancelled(old(State()))
    {
      if content != originalContent {
        showingDiscardConfirm := true;
      } else {
        dismissed := true;
      }
    }

    method ConfirmDiscard()
      modifies this`showingDiscardConfirm, this`dismissed
      ensures State() == Discarded(old(State()))
    {
      showingDiscardConfirm := false;
      dismissed := true;
    }
  }

  // ---------------------------------------------------------------------------
  // Hexadecimal text

  type Byte = x: int | 0 <= x < 256

  function HexDigit(d: nat): (c: char)
    requires d < 16
    ensures ('0' <= c <= '9') || ('A' <= c <= 'F')
  {
    if d < 10 then '0' + d as char else 'A' + (d - 10) as char
  }

  predicate IsHexDigit(c: char) {
    ('0' <= c <= '9') || ('A' <= c <= 'F')
  }

  function HexDigitValue(c: char): (d: nat)
    requires IsHexDigit(c)
    ensures d < 16 && HexDigit(d) == c
  {
    if c <= '9' then (c - '0') as nat else (c - 'A') as nat + 10
  }

  /** The value of a string of upper-case hex digits, most significant first. */
  function HexValue(s: string): nat
    requires forall k :: 0 <= k < |s| ==> IsHexDigit(s[k])
  {
    if s == [] then 0 else HexValue(s[..|s| - 1]) * 16 + HexDigitValue(s[|s| - 1])
  }

  /** %X: the shortest upper-case hex numeral. */
  function HexNumeral(n: nat): (s: string)
    ensures |s| >= 1 && forall k :: 0 <= k < |s| ==> IsHexDigit(s[k])
  {
    if n < 16 then [HexDigit(n)] else HexNumeral(n / 16) + [HexDigit(n % 16)]
  }

  function Zeros(k: nat): (z: string)
    ensures |z| == k && forall i :: 0 <= i < k ==> z[i] == '0'
  {
    if k == 0 then "" else Zeros(k - 1) + "0"
  }

  /** %0<width>X: the numeral padded on the left with zeros to the width. */
  function PaddedHex(n: nat, width: nat): (s: string)
    ensures |s| >= width && forall k :: 0 <= k < |s| ==> IsHexDigit(s[k])
  {
    var digits := HexNumeral(n);
    if |digits| < width then Zeros(width - |digits|) + digits else digits
  }

  /** The offset column: "%08X". */
  function OffsetLabel(offset: nat): string {
    PaddedHex(offset, 8)
  }

  function Pow16(k: nat): (p: nat)
    ensures p >= 1
  {
    if k == 0 then 1 else 16 * Pow16(k - 1)
  }

  lemma {:induction false} HexNumeralValue(n: nat)
    ensures HexValue(HexNumeral(n)) == n
    decreases n
  {
    if n >= 16 {
      HexNumeralValue(n / 16);
      var s := HexNumeral(n);
      assert s[..|s| - 1] == HexNumeral(n / 16);
    }
  }

  /** Leading zeros do not change the value. */
  lemma {:induction false} ZerosValue(k: nat, s: string)
    requires forall i :: 0 <= i < |s| ==> IsHexDigit(s[i])
    ensures forall i :: 0 <= i < |Zeros(k) + s| ==> IsHexDigit((Zeros(k) + s)[i])
    ensures HexValue(Zeros(k) + s) == HexValue(s)
    decreases |s|, k
  {
    var z := Zeros(k) + s;
    if s == [] {
      assert z == Zeros(k);
      if k > 0 {
        assert z[..|z| - 1] == Zeros(k - 1) + s;
        ZerosValue(k - 1, s);
      }
    } else {
      assert z[..|z| - 1] == Zeros(k) + s[..|s| - 1];
      ZerosValue(k, s[..|s| - 1]);
    }
  }

  /** A number below 16^k needs at most k digits. */
  lemma {:induction false} HexNumeralLength(n: nat, k: nat)
    requires k >= 1 && n < Pow16(k)
    ensures |HexNumeral(n)| <= k
    decreases k
  {
    if n >= 16 {
      assert k > 1;
      assert n / 16 < Pow16(k - 1);
      HexNumeralLength(n / 16, k - 1);
    }
  }

  /** The offset column reads back as the offset, and has exactly eight digits
      for every offset below 16^8. */
  lemma OffsetLabelReadsBack(offset: nat)
    ensures HexValue(OffsetLabel(offset)) == offset
    ensures offset < Pow16(8) ==> |OffsetLabel(offset)| == 8
  {
    var digits := HexNumeral(offset);
    HexNumeralValue(offset);
    if |digits| < 8 {
      ZerosValue(8 - |digits|, digits);
      assert OffsetLabel(offset) == Zeros(8 - |digits|) + digits;
    } else {
      assert OffsetLabel(offset) == digits;
    }
    if offset < Pow16(8) {
      HexNumeralLength(offset, 8);
    }
  }

  /** "%02X" of one byte. */
  function HexByte(b: Byte): (s: string)
    ensures |s| == 2 && IsHexDigit(s[0]) && IsHexDigit(s[1])
  {
    [HexDigit(b / 16), HexDigit(b % 16)]
  }

  /** The hex column: each byte's two digits, separated by single spaces. */
  function HexField(row: seq<Byte>): string {
    Join(seq(|row|, i requires 0 <= i < |row| => HexByte(row[i])), ' ')
  }

  /** The ASCII column's character for a byte: itself when printable, else ".". */
  function AsciiChar(b: Byte): (c: char)
    ensures ' ' <= c <= '~'
    ensures 32 <= b < 127 ==> c as int == b
    ensures !(32 <= b < 127) ==> c == '.'
  {
    if 32 <= b < 127 then b as char else '.'
  }

  function AsciiField(row: seq<Byte>): (s: string)
    ensures |s| == |row|
  {
    seq(|row|, i requires 0 <= i < |row| => AsciiChar(row[i]))
  }

  /** Reading the hex column back: split at the spaces and decode each pair. */
  function DecodeHexField(s: string): Option<seq<Byte>> {
    if s == "" then Some([]) else DecodePairs(Split(s, ' '))
  }

  function DecodePairs(pieces: seq<string>): Option<seq<Byte>> {
    if pieces == [] then Some([])
    else
      var p := pieces[0];
      if |p| == 2 && IsHexDigit(p[0]) && IsHexDigit(p[1]) then
        match DecodePairs(pieces[1..])
        case Some(rest) => Some([HexDigitValue(p[0]) * 16 + HexDigitValue(p[1])] + rest)
        case None => None
      else None
  }

  lemma {:induction false} DecodePairsOfBytes(row: seq<Byte>)
    ensures DecodePairs(seq(|row|, i requires 0 <= i < |row| => HexByte(row[i]))) == Some(row)
    decreases |row|
  {
    if row != [] {
      var pieces := seq(|row|, i requires 0 <= i < |row| => HexByte(row[i]));
      assert pieces[1..] == seq(|row[1..]|, i requires 0 <= i < |row[1..]| => HexByte(row[1..][i]));
      DecodePairsOfBytes(row[1..]);
      assert row == [row[0]] + row[1..];
    }
  }

  /** The hex column decodes back to the row's bytes. */
  lemma HexFieldRoundTrip(row: seq<Byte>)
    ensures DecodeHexField(HexField(row)) == Some(row)
  {
    var pieces := seq(|row|, i requires 0 <= i < |row| => HexByte(row[i]));
    if row != [] {
      forall k | 0 <= k < |pieces| ensures ' ' !in pieces[k] {
        assert IsHexDigit(pieces[k][0]) && IsHexDigit(pieces[k][1]);
      }
      SplitJoin(pieces, ' ');
      assert |Join(pieces, ' ')| >= 2;
      DecodePairsOfBytes(row);
    }
  }

  // ---------------------------------------------------------------------------
  // The hex viewer's rows

  const BytesPerRow := 16
  const MaxShownBytes := 4096

  datatype HexRow = HexRow(offset: nat, hex: string, ascii: string)

  /** How many bytes the viewer shows: at most the first 4096. */
  function ShownCount(n: nat): nat {
    if n < MaxShownBytes then n else MaxShownBytes
  }

  /** One row per started 16 bytes of the shown part. */
  function RowCount(n: nat): nat {
    (ShownCount(n) + BytesPerRow - 1) / BytesPerRow
  }

  /** The bytes of the row starting at offset: up to 16, cut at the end of the data. */
  function RowBytes(data: seq<Byte>, offset: nat): seq<Byte>
    requires offset <= |data|
  {
    var e := if offset + BytesPerRow < |data| then offset + BytesPerRow else |data|;
    data[offset..e]
  }

  function RowAt(data: seq<Byte>, offset: nat): HexRow
    requires offset <= |data|
  {
    var bytes := RowBytes(data, offset);
    HexRow(offset, HexField(bytes), AsciiField(bytes))
  }

  /** The loop of loadHexData: one row for each multiple of 16 below the shown
      count. */
  method EncodeRows(data: seq<Byte>) returns (rows: seq<HexRow>)
    ensures |rows| == RowCount(|data|)
    ensures forall r :: 0 <= r < |rows| ==> BytesPerRow * r < |data| && rows[r] == RowAt(data, BytesPerRow * r)
  {
    var limit := ShownCount(|data|);
    rows := [];
    var offset := 0;
    while offset < limit
      invariant offset == BytesPerRow * |rows|
      invariant offset < limit + BytesPerRow
      invariant |rows| <= RowCount(|data|)
      invariant offset >= limit ==> |rows| == RowCount(|data|)
      invariant forall r :: 0 <= r < |rows| ==> BytesPerRow * r < |data| && rows[r] == RowAt(data, BytesPerRow * r)
      decreases limit - offset
    {
      rows := rows + [RowAt(data, offset)];
      offset := offset + BytesPerRow;
    }
  }

  /** The bytes the first k rows show, one after the other. */
  function RowsBytes(data: seq<Byte>, k: nat): seq<Byte>
    requires k <= RowCount(|data|)
  {
    if k == 0 then [] else RowsBytes(data, k - 1) + RowBytes(data, BytesPerRow * (k - 1))
  }

  /** Every row starts inside the shown part. */
  lemma RowStartInside(n: nat, r: nat)
    requires r < RowCount(n)
    ensures BytesPerRow * r < ShownCount(n) <= n
  {
  }

  lemma {:induction false} RowsBytesPrefix(data: seq<Byte>, k: nat)
    requires k <= RowCount(|data|)
    ensures BytesPerRow * k <= |data| ==> RowsBytes(data, k) == data[..BytesPerRow * k]
    ensures BytesPerRow * k > |data| ==> RowsBytes(data, k) == data
  {
    if k > 0 {
      RowsBytesPrefix(data, k - 1);
      var o := BytesPerRow * (k - 1);
      RowStartInside(|data|, k - 1);
      if BytesPerRow * k <= |data| {
        assert data[..BytesPerRow * k] == data[..o] + data[o..BytesPerRow * k];
      } else {
        assert data == data[..o] + data[o..];
      }
    }
  }

  /** The rows show exactly the first min(n, 4096) bytes, in order, each once;
      every row holds between 1 and 16 of them. */
  lemma RowsCoverShownBytes(data: seq<Byte>)
    ensures RowsBytes(data, RowCount(|data|)) == data[..ShownCount(|data|)]
    ensures forall r :: 0 <= r < RowCount(|data|) ==>
      BytesPerRow * r < |data| && 1 <= |RowBytes(data, BytesPerRow * r)| <= BytesPerRow
  {
    var k := RowCount(|data|);
    RowsBytesPrefix(data, k);
    if BytesPerRow * k > |data| {
      assert data[..|data|] == data;
    }
  }

  class HexViewer {
    const filePath: string
    var hexData: seq<HexRow>
    var isLoading: bool
    var errorMessage: Option<string>

    constructor (path: string)
      ensures filePath == path && hexData == [] && isLoading && errorMessage.None?
    {
      filePath := path;
      hexData := [];
      isLoading := true;
      errorMessage := None;
    }

    /** loadHexData: the rows of the file's bytes, or the read error. */
    method LoadHexData(readData: string -> Option<seq<Byte>>)
      modifies this`hexData, this`isLoading, this`errorMessage
      ensures !isLoading
      ensures readData(filePath).None? ==>
        errorMessage == Some("Failed to read file") && hexData == old(hexData)
      ensures readData(filePath).Some? ==>
        && errorMessage == old(errorMessage)
        && |hexData| == RowCount(|readData(filePath).value|)
        && forall r :: 0 <= r < |hexData| ==>
          BytesPerRow * r < |readData(filePath).value|
          && hexData[r] == RowAt(readData(filePath).value, BytesPerRow * r)
    {
      var data := readData(filePath);
      if data.None? {
        errorMessage := Some("Failed to read file");
        isLoading := false;
        return;
      }
      var finalRows := EncodeRows(data.value);
      hexData := finalRows;
      isLoading := false;
    }
  }
}
