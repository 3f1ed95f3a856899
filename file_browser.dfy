/** The file manager screen (FileManagerView.swift): the FileItem record with its
    size text and its icon and color tables, the screen's own stack-based
    FileSystemManager (a path stack, push on navigate, pop on back), the file
    search, the breadcrumb bar and the long-press action sheet.

    The backend's listDirectory is the oracle parameter list, and
    executeShellCommand is the oracle parameter shell. */
module FileBrowser {
  import opened Strings
  import opened Paths
  import opened Palette

  /** One directory entry; the UUID identity and the modification date are not
      modelled. size is Int64 in the source; it is an unbounded int here. */
  datatype FileItem = FileItem(
    name: string,
    path: string,
    isDirectory: bool,
    size: int,
    permissions: string,
    owner: string,
    group: string)

  /** The answer of listDirectory for a path, if any. */
  type Listing = string -> Option<seq<FileItem>>

  /** The answer of executeShellCommand for a command line, if any. */
  type Backend = string -> Option<string>

  // ---------------------------------------------------------------------------
  // Size text

  /** sizeString's byte branch: "<size> B" exactly below 1024. The KB, MB and GB
      branches format a Double and are None here. */
  function SizeString(size: int): (r: Option<string>)
    ensures r.Some? <==> size < 1024
    ensures r.Some? ==> HasSuffix(r.value, " B") && |r.value| >= 3
  {
    if size < 1024 then
      var t := IntToString(size) + " B";
      assert t[|t| - 2..] == " B";
      Some(t)
    else None
  }

  /** The byte text of a non-negative size reads back as that size. */
  lemma SizeStringReadsBack(size: int)
    requires 0 <= size < 1024
    ensures var t := SizeString(size).value;
      AllDigits(t[..|t| - 2]) && ParseNat(t[..|t| - 2]) == size
  {
    var t := SizeString(size).value;
    assert t[..|t| - 2] == NatToString(size);
    ParseNatToString(size);
  }

  // ---------------------------------------------------------------------------
  // Icons and colors

  /** The lower-cased extension the tables are keyed on. */
  function Extension(name: string): string {
    Lower(PathExtension(name))
  }

  /** icon's table for a file extension. */
  function ExtensionIcon(ext: string): string {
    if ext == "txt" || ext == "md" || ext == "log" then "doc.text.fill"
    else if ext == "plist" || ext == "xml" || ext == "json" then "doc.badge.gearshape.fill"
    else if ext == "dylib" || ext == "framework" then "shippingbox.fill"
    else if ext == "app" then "app.fill"
    else if ext == "png" || ext == "jpg" || ext == "jpeg" || ext == "gif" then "photo.fill"
    else if ext == "mp3" || ext == "wav" || ext == "m4a" then "music.note"
    else if ext == "mp4" || ext == "mov" then "video.fill"
    else if ext == "sh" || ext == "py" || ext == "swift" || ext == "c" || ext == "h" || ext == "m" then
      "chevron.left.forwardslash.chevron.right"
    else if ext == "deb" then "shippingbox.fill"
    else "doc.fill"
  }

  /** iconColor's table for a file extension. */
  function ExtensionColor(ext: string): Color {
    if ext == "dylib" || ext == "framework" || ext == "deb" then Purple
    else if ext == "app" then Green
    else if ext == "plist" || ext == "xml" || ext == "json" then Orange
    else if ext == "png" || ext == "jpg" || ext == "jpeg" || ext == "gif" then Pink
    else if ext == "sh" || ext == "py" || ext == "swift" || ext == "c" || ext == "h" || ext == "m" then Cyan
    else Gray
  }

  function Icon(item: FileItem): (icon: string)
    ensures item.isDirectory ==> icon == "folder.fill"
  {
    if item.isDirectory then "folder.fill" else ExtensionIcon(Extension(item.name))
  }

  function IconColor(item: FileItem): (c: Color)
    ensures item.isDirectory ==> c == Blue
  {
    if item.isDirectory then Blue else ExtensionColor(Extension(item.name))
  }

  /** The color that goes with each icon, as an independent table. */
  function ColorOfIcon(icon: string): Color {
    if icon == "folder.fill" then Blue
    else if icon == "shippingbox.fill" then Purple
    else if icon == "app.fill" then Green
    else if icon == "doc.badge.gearshape.fill" then Orange
    else if icon == "photo.fill" then Pink
    else if icon == "chevron.left.forwardslash.chevron.right" then Cyan
    else Gray
  }

  /** No extension gets the folder icon or the folder color. */
  lemma ExtensionNeverFolder(ext: string)
    ensures ExtensionIcon(ext) != "folder.fill"
    ensures ExtensionColor(ext) != Blue
  {
  }

  /** The folder icon and the blue color mark exactly the directories. */
  lemma FolderIffDirectory(item: FileItem)
    ensures Icon(item) == "folder.fill" <==> item.isDirectory
    ensures IconColor(item) == Blue <==> item.isDirectory
  {
    ExtensionNeverFolder(Extension(item.name));
  }

  /** The two tables agree: an item's color is the one its icon calls for. */
  lemma IconDeterminesColor(item: FileItem)
    ensures IconColor(item) == ColorOfIcon(Icon(item))
  {
    if !item.isDirectory {
      ExtensionTablesAgree(Extension(item.name));
    }
  }

  /** Both tables classify an extension the same way: the color iconColor picks
      for a file is the color ColorOfIcon assigns to the icon fileIcon picks. */
  lemma ExtensionTablesAgree(ext: string)
    ensures ExtensionColor(ext) == ColorOfIcon(ExtensionIcon(ext))
  {
    if ext == "txt" || ext == "md" || ext == "log" {
      TextExtensionsAgree(ext);
    } else if ext == "plist" || ext == "xml" || ext == "json" {
      ConfigExtensionsAgree(ext);
    } else if ext == "dylib" || ext == "framework" || ext == "deb" {
      PackageExtensionsAgree(ext);
    } else if ext == "app" {
      AppExtensionsAgree(ext);
    } else if ext == "png" || ext == "jpg" || ext == "jpeg" || ext == "gif" {
      ImageExtensionsAgree(ext);
    } else if ext == "mp3" || ext == "wav" || ext == "m4a" {
      AudioExtensionsAgree(ext);
    } else if ext == "mp4" || ext == "mov" {
      VideoExtensionsAgree(ext);
    } else if ext == "sh" || ext == "py" || ext == "swift" || ext == "c" || ext == "h" || ext == "m" {
      CodeExtensionsAgree(ext);
    } else {
      OtherExtensionsAgree(ext);
    }
  }

  lemma TextExtensionsAgree(ext: string)
    requires ext == "txt" || ext == "md" || ext == "log"
    ensures ExtensionIcon(ext) == "doc.text.fill" && ExtensionColor(ext) == Gray
    ensures ColorOfIcon("doc.text.fill") == Gray
  {
  }

  lemma ConfigExtensionsAgree(ext: string)
    requires ext == "plist" || ext == "xml" || ext == "json"
    ensures ExtensionIcon(ext) == "doc.badge.gearshape.fill" && ExtensionColor(ext) == Orange
    ensures ColorOfIcon("doc.badge.gearshape.fill") == Orange
  {
  }

  lemma PackageExtensionsAgree(ext: string)
    requires ext == "dylib" || ext == "framework" || ext == "deb"
    ensures ExtensionIcon(ext) == "shippingbox.fill" && ExtensionColor(ext) == Purple
    ensures ColorOfIcon("shippingbox.fill") == Purple
  {
  }

  lemma AppExtensionsAgree(ext: string)
    requires ext == "app"
    ensures ExtensionIcon(ext) == "app.fill" && ExtensionColor(ext) == Green
    ensures ColorOfIcon("app.fill") == Green
  {
  }

  lemma ImageExtensionsAgree(ext: string)
    requires ext == "png" || ext == "jpg" || ext == "jpeg" || ext == "gif"
    ensures ExtensionIcon(ext) == "photo.fill" && ExtensionColor(ext) == Pink
    ensures ColorOfIcon("photo.fill") == Pink
  {
  }

  lemma AudioExtensionsAgree(ext: string)
    requires ext == "mp3" || ext == "wav" || ext == "m4a"
    ensures ExtensionIcon(ext) == "music.note" && ExtensionColor(ext) == Gray
    ensures ColorOfIcon("music.note") == Gray
  {
  }

  lemma VideoExtensionsAgree(ext: string)
    requires ext == "mp4" || ext == "mov"
    ensures ExtensionIcon(ext) == "video.fill" && ExtensionColor(ext) == Gray
    ensures ColorOfIcon("video.fill") == Gray
  {
  }

  lemma CodeExtensionsAgree(ext: string)
    requires ext == "sh" || ext == "py" || ext == "swift" || ext == "c" || ext == "h" || ext == "m"
    ensures ExtensionIcon(ext) == "chevron.left.forwardslash.chevron.right" && ExtensionColor(ext) == Cyan
    ensures ColorOfIcon("chevron.left.forwardslash.chevron.right") == Cyan
  {
  }

  lemma OtherExtensionsAgree(ext: string)
    requires !(ext == "txt" || ext == "md" || ext == "log")
    requires !(ext == "plist" || ext == "xml" || ext == "json")
    requires !(ext == "dylib" || ext == "framework" || ext == "deb" || ext == "app")
    requires !(ext == "png" || ext == "jpg" || ext == "jpeg" || ext == "gif")
    requires !(ext == "mp3" || ext == "wav" || ext == "m4a" || ext == "mp4" || ext == "mov")
    requires !(ext == "sh" || ext == "py" || ext == "swift" || ext == "c" || ext == "h" || ext == "m")
    ensures ExtensionIcon(ext) == "doc.fill" && ExtensionColor(ext) == Gray
  {
  }

  /** A plain file name "<base>.<ext>" is looked up by its lower-cased ext, unless
      the base is empty: a dot-file has no extension. */
  lemma IconOfNamedFile(base: string, ext: string)
    requires '/' !in base && '/' !in ext && '.' !in ext
    ensures Extension(base + "." + ext) == if base == "" then "" else Lower(ext)
  {
    var name := base + "." + ext;
    assert name == base + ['.'] + ext;
    assert '/' !in name;
    NonEmptyIdentity([name]);
    LastIndexOfSplit(base, ext, '.');
  }

  /** A dot-file such as ".sh" or ".bashrc" is a plain document: the default icon
      in gray, whatever its name after the dot. */
  lemma DotFileIsPlain(item: FileItem, rest: string)
    requires !item.isDirectory && item.name == "." + rest && '/' !in rest && '.' !in rest
    ensures Icon(item) == "doc.fill" && IconColor(item) == Gray
  {
    assert "" + "." + rest == item.name;
    IconOfNamedFile("", rest);
    assert Extension(item.name) == "";
    EmptyExtensionIsPlain();
  }

  lemma EmptyExtensionIsPlain()
    ensures ExtensionIcon("") == "doc.fill" && ExtensionColor("") == Gray
  {
  }

  lemma {:induction false} LastIndexOfSplit(a: string, b: string, c: char)
    requires c !in b
    ensures LastIndexOf(a + [c] + b, c) == Some(|a|)
    decreases |b|
  {
    var s := a + [c] + b;
    if b != [] {
      var b' := b[..|b| - 1];
      assert s[..|s| - 1] == a + [c] + b';
      assert b[|b| - 1] in b;
      LastIndexOfSplit(a, b', c);
    }
  }

  // ---------------------------------------------------------------------------
  // The stack-based manager

  datatype BrowserState = BrowserState(
    currentPath: string,
    items: seq<FileItem>,
    isLoading: bool,
    error: Option<string>,
    pathHistory: seq<string>)

  /** The stack is never empty and its top is the current path. */
  predicate OnTop(st: BrowserState) {
    |st.pathHistory| >= 1 && st.currentPath == st.pathHistory[|st.pathHistory| - 1]
  }

  /** refresh: the listing of the current path, or an error and no items. */
  function Refreshed(st: BrowserState, list: Listing): (r: BrowserState)
    ensures !r.isLoading && r.currentPath == st.currentPath && r.pathHistory == st.pathHistory
    ensures list(st.currentPath).Some? ==> r.items == list(st.currentPath).value && r.error.None?
    ensures list(st.currentPath).None? ==> r.items == [] && r.error == Some("Failed to list directory")
  {
    match list(st.currentPath)
    case Some(items) => st.(items := items, isLoading := false, error := None)
    case None => st.(items := [], isLoading := false, error := Some("Failed to list directory"))
  }

  function Navigated(st: BrowserState, path: string, list: Listing): BrowserState {
    Refreshed(st.(currentPath := path, pathHistory := st.pathHistory + [path]), list)
  }

  /** goBack: false with nothing changed on a one-entry stack, else pop. */
  function WentBack(st: BrowserState, list: Listing): (r: (bool, BrowserState))
    ensures r.0 <==> |st.pathHistory| > 1
    ensures !r.0 ==> r.1 == st
  {
    if |st.pathHistory| <= 1 then (false, st)
    else
      var h := st.pathHistory[..|st.pathHistory| - 1];
      (true, Refreshed(st.(pathHistory := h, currentPath := h[|h| - 1]), list))
  }

  function InitialBrowser(list: Listing): BrowserState {
    Refreshed(BrowserState("/", [], false, None, ["/"]), list)
  }

  /** Every operation keeps the current path on top of a non-empty stack. */
  lemma StackInvariant(st: BrowserState, path: string, list: Listing)
    requires OnTop(st)
    ensures OnTop(InitialBrowser(list))
    ensures OnTop(Refreshed(st, list))
    ensures OnTop(Navigated(st, path, list))
    ensures OnTop(WentBack(st, list).1)
  {
  }

  /** navigateTo pushes exactly the given path and makes it current. */
  lemma NavigatePushes(st: BrowserState, path: string, list: Listing)
    ensures var r := Navigated(st, path, list);
      r.currentPath == path && r.pathHistory == st.pathHistory + [path]
  {
  }

  /** Back after a navigation returns to the same stack and path. */
  lemma BackUndoesNavigate(st: BrowserState, path: string, list: Listing)
    requires OnTop(st)
    ensures var (ok, r) := WentBack(Navigated(st, path, list), list);
      ok && r.pathHistory == st.pathHistory && r.currentPath == st.currentPath
  {
    var n := Navigated(st, path, list);
    assert n.pathHistory[..|n.pathHistory| - 1] == st.pathHistory;
  }

  class FileSystemManager {
    var currentPath: string
    var items: seq<FileItem>
    var isLoading: bool
    var error: Option<string>
    var pathHistory: seq<string>

    function State(): BrowserState
      reads this
    {
      BrowserState(currentPath, items, isLoading, error, pathHistory)
    }

    /** init: the root, listed at once. */
    constructor (list: Listing)
      ensures State() == InitialBrowser(list)
    {
      currentPath := "/";
      items := [];
      isLoading := false;
      error := None;
      pathHistory := ["/"];
      new;
      Refresh(list);
    }

    method NavigateTo(path: string, list: Listing)
      modifies this
      ensures State() == Navigated(old(State()), path, list)
    {
      currentPath := path;
      pathHistory := pathHistory + [path];
      Refresh(list);
    }

    method GoBack(list: Listing) returns (ok: bool)
      modifies this
      ensures (ok, State()) == WentBack(old(State()), list)
    {
      if |pathHistory| <= 1 {
        return false;
      }
      pathHistory := pathHistory[..|pathHistory| - 1];
      currentPath := pathHistory[|pathHistory| - 1];
      Refresh(list);
      return true;
    }

    /** The listing is read once the background call completes. */
    method Refresh(list: Listing)
      modifies this`items, this`isLoading, this`error
      ensures State() == Refreshed(old(State()), list)
    {
      isLoading := true;
      error := None;
      var fileItems := list(currentPath);
      if fileItems.Some? {
        items := fileItems.value;
        isLoading := false;
      } else {
        error := Some("Failed to list directory");
        items := [];
        isLoading := false;
      }
    }
  }

  // ---------------------------------------------------------------------------
  // Search

  /** The find command search hands to the backend. */
  function SearchCommand(query: string, path: string): string {
    "find '" + path + "' -name '*" + query + "*' -maxdepth 5 2>/dev/null | head -50"
  }

  /** search: the non-empty lines of the backend's answer, or none at all. */
  function Search(query: string, path: string, shell: Backend): (r: seq<string>)
    ensures shell(SearchCommand(query, path)).None? ==> r == []
    ensures forall k :: 0 <= k < |r| ==> r[k] != "" && '\n' !in r[k]
  {
    match shell(SearchCommand(query, path))
    case None => []
    case Some(output) =>
      NonEmptyFrom(Split(output, '\n'));
      NonEmpty(Split(output, '\n'))
  }

  /** A line of the answer is a result exactly when it is not empty. */
  lemma SearchKeepsEveryLine(query: string, path: string, shell: Backend)
    requires shell(SearchCommand(query, path)).Some?
    ensures var output := shell(SearchCommand(query, path)).value;
      forall x :: x in Search(query, path, shell) <==> x in Split(output, '\n') && x != ""
  {
    NonEmptyMembers(Split(shell(SearchCommand(query, path)).value, '\n'));
  }

  /** Search results, joined again, give back an answer that has no empty lines. */
  lemma SearchRoundTrip(query: string, path: string, shell: Backend)
    requires shell(SearchCommand(query, path)).Some?
    requires forall x :: x in Split(shell(SearchCommand(query, path)).value, '\n') ==> x != ""
    ensures Join(Search(query, path, shell), '\n') == shell(SearchCommand(query, path)).value
  {
    var output := shell(SearchCommand(query, path)).value;
    var pieces := Split(output, '\n');
    forall k | 0 <= k < |pieces| ensures pieces[k] != "" {
      assert pieces[k] in pieces;
    }
    NonEmptyIdentity(pieces);
    JoinSplit(output, '\n');
  }

  // ---------------------------------------------------------------------------
  // Breadcrumbs and the action sheet

  /** The path a breadcrumb button navigates to: the first i+1 segments. */
  function Breadcrumb(currentPath: string, i: nat): (p: string)
    requires i < |Components(currentPath)|
    ensures Absolute(p)
  {
    "/" + Join(Components(currentPath)[..i + 1], '/')
  }

  /** Breadcrumb i has exactly the first i+1 segments of the current path, and
      the last breadcrumb of a canonical path is that path. */
  lemma BreadcrumbSegments(currentPath: string, i: nat)
    requires i < |Components(currentPath)|
    ensures Components(Breadcrumb(currentPath, i)) == Components(currentPath)[..i + 1]
    ensures Canonical(Breadcrumb(currentPath, i))
    ensures Canonical(currentPath) && i == |Components(currentPath)| - 1 ==>
      Breadcrumb(currentPath, i) == currentPath
  {
    var c := Components(currentPath);
    RootedComponents(c[..i + 1]);
    assert Breadcrumb(currentPath, i) == Rooted(c[..i + 1]);
    if Canonical(currentPath) && i == |c| - 1 {
      assert c[..i + 1] == c;
      CanonicalRoundTrip(currentPath);
    }
  }

  datatype ActionButton = Edit | Rename | CopyPath | Permissions | Delete | Cancel

  /** fileActionButtons: Edit only for a selected file that is not a directory,
      the item actions for any selection, and cancel last. */
  function FileActionButtons(selected: Option<FileItem>): (r: seq<ActionButton>)
    ensures |r| > 0 && r[|r| - 1] == Cancel
    ensures Edit in r <==> selected.Some? && !selected.value.isDirectory
    ensures Delete in r <==> selected.Some?
    ensures selected.None? ==> r == [Cancel]
  {
    match selected
    case None => [Cancel]
    case Some(file) =>
      (if !file.isDirectory then [Edit] else []) + [Rename, CopyPath, Permissions, Delete, Cancel]
  }
}
