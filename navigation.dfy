/** The navigator (FileSystemManager.swift): a current directory with its
    listing and browser-style back/forward history, path normalisation, going
    up, and the breadcrumb helpers.

    The backend calls are oracle parameters: isExploitActive is active,
    isDirectory is isDir, listDirectory is list and moveItem is move. */
module Navigation {
  import opened Strings
  import opened Paths
  import FileBrowser

  // ---------------------------------------------------------------------------
  // Back/forward history

  /** navigationHistory with historyIndex. */
  datatype Trail = Trail(entries: seq<string>, index: int)

  predicate InBounds(t: Trail) {
    0 <= t.index < |t.entries|
  }

  function CanGoBack(t: Trail): bool { t.index > 0 }

  function CanGoForward(t: Trail): bool { t.index < |t.entries| - 1 }

  /** A successful navigation: drop everything after the current entry, append
      the new one and stand on it. */
  function Visit(t: Trail, p: string): (r: Trail)
    requires InBounds(t)
    ensures InBounds(r) && !CanGoForward(r)
    ensures |r.entries| == t.index + 2 && r.entries[r.index] == p
    ensures r.entries[..t.index + 1] == t.entries[..t.index + 1]
  {
    var kept := if t.index < |t.entries| - 1 then t.entries[..t.index + 1] else t.entries;
    var entries := kept + [p];
    assert entries[..t.index + 1] == kept;
    Trail(entries, |entries| - 1)
  }

  /** goBack's move: one step back when there is one, else nothing. */
  function Back(t: Trail): (r: Trail)
    requires InBounds(t)
    ensures InBounds(r) && r.entries == t.entries
    ensures r.index == (if CanGoBack(t) then t.index - 1 else t.index)
  {
    if t.index > 0 then t.(index := t.index - 1) else t
  }

  /** goForward's move: one step forward when there is one, else nothing. */
  function Forward(t: Trail): (r: Trail)
    requires InBounds(t)
    ensures InBounds(r) && r.entries == t.entries
    ensures r.index == (if CanGoForward(t) then t.index + 1 else t.index)
  {
    if t.index < |t.entries| - 1 then t.(index := t.index + 1) else t
  }

  /** Back and forward undo each other wherever they move. */
  lemma BackForwardInverse(t: Trail)
    requires InBounds(t)
    ensures CanGoBack(t) ==> Forward(Back(t)) == t
    ensures CanGoForward(t) ==> Back(Forward(t)) == t
  {
  }

  /** After two navigations, back reaches the first and forward the second. */
  lemma TwoVisitsBackForward(t: Trail, a: string, b: string)
    requires InBounds(t)
    ensures var v := Visit(Visit(t, a), b);
      Back(v).entries[Back(v).index] == a && Forward(Back(v)) == v
  {
  }

  /** From the start ["/"]: visit A, B and C, go back twice and visit D; the
      forward entries B and C are gone. */
  lemma HistoryExample(a: string, b: string, c: string, d: string)
    ensures Visit(Back(Back(Visit(Visit(Visit(Trail(["/"], 0), a), b), c))), d) == Trail(["/", a, d], 2)
  {
    var t3 := Visit(Visit(Visit(Trail(["/"], 0), a), b), c);
    assert t3 == Trail(["/", a, b, c], 3);
    var t := Back(Back(t3));
    assert t == Trail(["/", a, b, c], 1);
    assert t.entries[..2] == ["/", a];
  }

  // ---------------------------------------------------------------------------
  // Paths

  /** navigateTo's normalisation: "" becomes "/", and one trailing "/" is dropped
      from anything longer than "/". */
  function Normalize(path: string): (r: string)
    ensures r != ""
    ensures path != "" && !HasSuffix(path, "/") ==> r == path
    ensures |path| > 1 && HasSuffix(path, "/") ==> r + "/" == path
  {
    var p := if path == "" then "/" else path;
    if |p| > 1 && HasSuffix(p, "/") then
      assert p[..|p| - 1] + "/" == p;
      p[..|p| - 1]
    else p
  }

  /** Normalising twice changes nothing unless the path ends in two separators:
      only one trailing separator is ever dropped. */
  lemma NormalizeIdempotent(path: string)
    requires !HasSuffix(path, "//")
    ensures Normalize(Normalize(path)) == Normalize(path)
  {
    var r := Normalize(path);
    if |path| > 1 && HasSuffix(path, "/") && |r| > 1 {
      assert path[|path| - 2..] == [r[|r| - 1], '/'];
    }
  }

  lemma NormalizeDropsOnlyOne()
    ensures Normalize("/a//") == "/a/" && Normalize("/a/") == "/a"
  {
    assert "/a//"[..3] == "/a/";
    assert "/a/"[..2] == "/a";
  }

  /** pathComponents: "/" followed by the segments of the current path. */
  function PathComponents(currentPath: string): (r: seq<string>)
    ensures |r| >= 1 && r[0] == "/"
    ensures currentPath != "/" ==> r[1..] == Components(currentPath)
  {
    if currentPath == "/" then ["/"] else ["/"] + Components(currentPath)
  }

  /** isAtRoot on a canonical path: the root is the one path with no segments,
      whose path bar holds only the "/" crumb. */
  lemma AtRootIffNoSegments(currentPath: string)
    requires Canonical(currentPath)
    ensures currentPath == "/" <==> Components(currentPath) == []
    ensures currentPath == "/" <==> |PathComponents(currentPath)| == 1
  {
    CanonicalRoundTrip(currentPath);
    RootedComponents([]);
    assert Rooted([]) == "/";
  }

  /** pathForComponent: "/" for index 0, else "/" followed by the first index
      segments. Swift's prefix traps for a negative length. */
  function PathForComponent(currentPath: string, index: int): (p: string)
    requires index >= 0
    ensures Absolute(p)
  {
    if index == 0 then "/"
    else
      var c := Components(currentPath);
      var n := if index < |c| then index else |c|;
      Rooted(c[..n])
  }

  /** Breadcrumb index i leads to the path of the first i segments. */
  lemma BreadcrumbLeadsHome(currentPath: string, index: nat)
    ensures Components(PathForComponent(currentPath, index)) ==
      Components(currentPath)[..if index < |Components(currentPath)| then index else |Components(currentPath)|]
  {
    var c := Components(currentPath);
    if index == 0 {
      RootedComponents([]);
    } else {
      var n := if index < |c| then index else |c|;
      RootedComponents(c[..n]);
    }
  }

  /** The last breadcrumb leads back to a canonical current path. */
  lemma LastBreadcrumbIsCurrent(currentPath: string)
    requires Canonical(currentPath)
    ensures PathForComponent(currentPath, |PathComponents(currentPath)| - 1) == currentPath
  {
    var c := Components(currentPath);
    if currentPath != "/" {
      assert |PathComponents(currentPath)| - 1 == |c|;
      assert c[..|c|] == c;
      CanonicalRoundTrip(currentPath);
    }
  }

  /** Each breadcrumb after the root ends in its own segment. */
  lemma BreadcrumbEndsInSegment(currentPath: string, index: nat)
    requires 0 < index < |PathComponents(currentPath)|
    ensures HasSuffix(PathForComponent(currentPath, index), PathComponents(currentPath)[index])
  {
    var c := Components(currentPath);
    assert currentPath != "/" && index <= |c|;
    assert PathComponents(currentPath)[index] == c[index - 1];
    assert PathForComponent(currentPath, index) == Rooted(c[..index]);
    RootedEndsInLast(c, index);
  }

  /** The path of the first n segments ends in segment n. */
  lemma RootedEndsInLast(c: seq<string>, n: nat)
    requires 0 < n <= |c|
    ensures HasSuffix(Rooted(c[..n]), c[n - 1])
  {
    assert c[..n] == c[..n - 1] + [c[n - 1]];
    JoinLast(c[..n - 1], c[n - 1], '/');
    SuffixAfter("/", Join(c[..n], '/'), c[n - 1]);
  }

  /** Text put in front keeps a suffix a suffix. */
  lemma SuffixAfter(front: string, s: string, x: string)
    requires HasSuffix(s, x)
    ensures HasSuffix(front + s, x)
  {
    assert (front + s)[|front + s| - |x|..] == s[|s| - |x|..];
  }

  /** A join ends in its last piece. */
  lemma JoinLast(init: seq<string>, last: string, sep: char)
    ensures HasSuffix(Join(init + [last], sep), last)
    decreases |init|
  {
    var parts := init + [last];
    if |init| > 0 {
      assert parts[1..] == init[1..] + [last];
      JoinLast(init[1..], last, sep);
      var j := Join(parts[1..], sep);
      var whole := parts[0] + [sep] + j;
      assert whole[|whole| - |last|..] == j[|j| - |last|..];
    }
  }

  /** The file manager screen's breadcrumb for segment i is pathForComponent(i+1). */
  lemma BreadcrumbsAgree(currentPath: string, i: nat)
    requires i < |Components(currentPath)|
    ensures FileBrowser.Breadcrumb(currentPath, i) == PathForComponent(currentPath, i + 1)
  {
  }

  /** renameItem's target: the new name under the old path's parent. */
  function RenameTarget(oldPath: string, newName: string): string {
    AppendPathComponent(ParentPath(oldPath), newName)
  }

  /** Renaming keeps an absolute item in its directory: the target has the old
      parent's segments followed by the new name's. */
  lemma RenameStaysInDirectory(oldPath: string, newName: string)
    requires Absolute(oldPath)
    ensures var c := Components(oldPath);
      Components(RenameTarget(oldPath, newName)) ==
        (if c == [] then [] else c[..|c| - 1]) + Components(newName)
  {
    var parent := ParentPath(oldPath);
    DropLastComponents(oldPath);
    if parent == "/" {
      RenameAtRoot(oldPath, newName);
    } else {
      RenameBelowRoot(oldPath, newName);
    }
  }

  lemma RenameAtRoot(oldPath: string, newName: string)
    requires ParentPath(oldPath) == "/"
    ensures Components(RenameTarget(oldPath, newName)) == Components(newName)
    ensures Components(ParentPath(oldPath)) == []
  {
    assert RenameTarget(oldPath, newName) == "/" + newName;
    ComponentsOfRooted(newName);
    assert Components(newName) == NonEmpty(Split(newName, '/'));
    assert Split("/", '/') == ["", ""] by { SplitRooted(""); }
  }

  lemma RenameBelowRoot(oldPath: string, newName: string)
    requires ParentPath(oldPath) != "/" && Canonical(ParentPath(oldPath))
    ensures Components(RenameTarget(oldPath, newName)) ==
      Components(ParentPath(oldPath)) + Components(newName)
  {
    var parent := ParentPath(oldPath);
    var pc := Components(parent);
    CanonicalRoundTrip(parent);
    assert parent == Rooted(pc);
    assert pc != [];
    RootedLast(pc);
    assert RenameTarget(oldPath, newName) == parent + "/" + newName;
    ComponentsConcat(parent, newName);
  }

  /** A rooted join of proper segments ends in that last segment's last
      character, never in the separator. */
  lemma RootedLast(c: seq<string>)
    requires c != [] && forall k :: 0 <= k < |c| ==> c[k] != "" && '/' !in c[k]
    ensures !HasSuffix(Rooted(c), "/")
  {
    var last := c[|c| - 1];
    assert c == c[..|c| - 1] + [last];
    JoinLast(c[..|c| - 1], last, '/');
    var p := Rooted(c);
    assert p[|p| - 1] == last[|last| - 1];
    assert last[|last| - 1] in last;
  }

  // ---------------------------------------------------------------------------
  // The navigator's state

  /** The answer of isDirectory for a path. */
  type DirectoryProbe = string -> bool

  datatype NavState = NavState(
    currentPath: string,
    items: seq<FileBrowser.FileItem>,
    isLoading: bool,
    errorMessage: Option<string>,
    trail: Trail)

  /** The current path is the entry the history stands on. */
  predicate InSync(st: NavState)
    requires InBounds(st.trail)
  {
    st.currentPath == st.trail.entries[st.trail.index]
  }

  /** loadDirectory: the error is cleared first; on success the path becomes
      current with its items, on failure only the error and an empty listing. */
  function Loaded(st: NavState, path: string, list: FileBrowser.Listing): (r: NavState)
    ensures !r.isLoading && r.trail == st.trail
    ensures list(path).Some? ==>
      r.currentPath == path && r.items == list(path).value && r.errorMessage.None?
    ensures list(path).None? ==>
      r.currentPath == st.currentPath && r.items == [] && r.errorMessage == Some("Failed to load directory")
  {
    match list(path)
    case Some(loaded) => st.(currentPath := path, items := loaded, isLoading := false, errorMessage := None)
    case None => st.(errorMessage := Some("Failed to load directory"), items := [], isLoading := false)
  }

  function NavigatedTo(st: NavState, path: string, active: bool, isDir: DirectoryProbe, list: FileBrowser.Listing): NavState
    requires InBounds(st.trail)
  {
    if !active then st.(errorMessage := Some("Exploit not active"))
    else
      var p := Normalize(path);
      if !isDir(p) then st.(errorMessage := Some("Path does not exist or is not a directory"))
      else Loaded(st.(trail := Visit(st.trail, p)), p, list)
  }

  function WentBack(st: NavState, list: FileBrowser.Listing): NavState
    requires InBounds(st.trail)
  {
    if !CanGoBack(st.trail) then st
    else
      var t := Back(st.trail);
      Loaded(st.(trail := t), t.entries[t.index], list)
  }

  function WentForward(st: NavState, list: FileBrowser.Listing): NavState
    requires InBounds(st.trail)
  {
    if !CanGoForward(st.trail) then st
    else
      var t := Forward(st.trail);
      Loaded(st.(trail := t), t.entries[t.index], list)
  }

  function WentUp(st: NavState, active: bool, isDir: DirectoryProbe, list: FileBrowser.Listing): NavState
    requires InBounds(st.trail)
  {
    if st.currentPath == "/" then st
    else NavigatedTo(st, ParentPath(st.currentPath), active, isDir, list)
  }

  function Refreshed(st: NavState, list: FileBrowser.Listing): NavState {
    Loaded(st, st.currentPath, list)
  }

  function InitialNav(list: FileBrowser.Listing): NavState {
    Loaded(NavState("/", [], false, None, Trail(["/"], 0)), "/", list)
  }

  // ---------------------------------------------------------------------------
  // Properties of the navigator

  /** Every operation keeps the history index inside the history. */
  lemma IndexStaysInBounds(st: NavState, path: string, active: bool, isDir: DirectoryProbe, list: FileBrowser.Listing)
    requires InBounds(st.trail)
    ensures InBounds(InitialNav(list).trail)
    ensures InBounds(NavigatedTo(st, path, active, isDir, list).trail)
    ensures InBounds(WentBack(st, list).trail) && InBounds(WentForward(st, list).trail)
    ensures InBounds(WentUp(st, active, isDir, list).trail) && InBounds(Refreshed(st, list).trail)
  {
  }

  /** A refused navigation (inactive exploit, or not a directory) sets an error
      and changes neither the history nor the current path. */
  lemma RefusedNavigationKeepsPlace(st: NavState, path: string, active: bool, isDir: DirectoryProbe, list: FileBrowser.Listing)
    requires InBounds(st.trail)
    requires !active || !isDir(Normalize(path))
    ensures var r := NavigatedTo(st, path, active, isDir, list);
      r.trail == st.trail && r.currentPath == st.currentPath && r.items == st.items && r.errorMessage.Some?
  {
  }

  /** An accepted navigation records the normalised path, even when listing it
      then fails; the current path follows only when the listing succeeds. */
  lemma AcceptedNavigationRecords(st: NavState, path: string, active: bool, isDir: DirectoryProbe, list: FileBrowser.Listing)
    requires InBounds(st.trail) && active && isDir(Normalize(path))
    ensures var r := NavigatedTo(st, path, active, isDir, list);
      && r.trail == Visit(st.trail, Normalize(path))
      && (list(Normalize(path)).Some? ==> r.currentPath == Normalize(path) && InSync(r))
      && (list(Normalize(path)).None? ==> r.currentPath == st.currentPath)
  {
  }

  /** Back and forward never change the history list; each moves by one step
      only when it can, and a successful load puts the current path in step. */
  lemma BackForwardMoveByOne(st: NavState, list: FileBrowser.Listing)
    requires InBounds(st.trail)
    ensures var r := WentBack(st, list);
      r.trail.entries == st.trail.entries
      && r.trail.index == (if CanGoBack(st.trail) then st.trail.index - 1 else st.trail.index)
      && (CanGoBack(st.trail) && list(r.trail.entries[r.trail.index]).Some? ==> InSync(r))
    ensures var r := WentForward(st, list);
      r.trail.entries == st.trail.entries
      && r.trail.index == (if CanGoForward(st.trail) then st.trail.index + 1 else st.trail.index)
      && (CanGoForward(st.trail) && list(r.trail.entries[r.trail.index]).Some? ==> InSync(r))
    ensures !CanGoBack(st.trail) ==> WentBack(st, list) == st
    ensures !CanGoForward(st.trail) ==> WentForward(st, list) == st
  {
  }

  /** While every load succeeds, the current path is the history's entry. */
  lemma SyncKeptWhileLoadsSucceed(st: NavState, path: string, active: bool, isDir: DirectoryProbe, list: FileBrowser.Listing)
    requires InBounds(st.trail) && InSync(st)
    requires forall p :: list(p).Some?
    ensures InSync(InitialNav(list))
    ensures var r := NavigatedTo(st, path, active, isDir, list); InBounds(r.trail) && InSync(r)
    ensures var r := WentBack(st, list); InBounds(r.trail) && InSync(r)
    ensures var r := WentForward(st, list); InBounds(r.trail) && InSync(r)
    ensures var r := WentUp(st, active, isDir, list); InBounds(r.trail) && InSync(r)
    ensures var r := Refreshed(st, list); InBounds(r.trail) && InSync(r)
  {
  }

  /** A failed load after going back leaves the current path behind the history. */
  lemma FailedBackLeavesPath(st: NavState, list: FileBrowser.Listing)
    requires InBounds(st.trail) && CanGoBack(st.trail)
    requires list(st.trail.entries[st.trail.index - 1]).None?
    ensures var r := WentBack(st, list);
      r.currentPath == st.currentPath && r.trail.index == st.trail.index - 1 && r.items == []
  {
  }

  /** goUp does nothing at the root and otherwise navigates to the parent. */
  lemma UpGoesToParent(st: NavState, active: bool, isDir: DirectoryProbe, list: FileBrowser.Listing)
    requires InBounds(st.trail)
    ensures st.currentPath == "/" ==> WentUp(st, active, isDir, list) == st
    ensures Absolute(st.currentPath) && st.currentPath != "/" && active && isDir(DropLastComponent(st.currentPath))
      ==> WentUp(st, active, isDir, list).trail == Visit(st.trail, DropLastComponent(st.currentPath))
  {
    if Absolute(st.currentPath) && st.currentPath != "/" {
      var parent := DropLastComponent(st.currentPath);
      DropLastComponents(st.currentPath);
      NormalizeCanonical(parent);
    }
  }

  /** A canonical path is already normalised. */
  lemma NormalizeCanonical(p: string)
    requires Canonical(p)
    ensures Normalize(p) == p
  {
    TrailingSeparatorSplits(p);
  }

  /** A trailing separator leaves an empty last piece in the split. */
  lemma TrailingSeparatorSplits(p: string)
    ensures |p| > 1 && HasSuffix(p, "/") ==> "" in Split(p[1..], '/')
  {
    if |p| > 1 && HasSuffix(p, "/") {
      var a := p[1..|p| - 1];
      assert p[1..] == a + ['/'] + "";
      SplitConcat(a, "", '/');
      var parts := Split(p[1..], '/');
      assert parts[|parts| - 1] == "";
    }
  }

  // ---------------------------------------------------------------------------
  // The manager

  class FileSystemManager {
    var currentPath: string
    var items: seq<FileBrowser.FileItem>
    var isLoading: bool
    var errorMessage: Option<string>
    var navigationHistory: seq<string>
    var historyIndex: int

    function State(): NavState
      reads this
    {
      NavState(currentPath, items, isLoading, errorMessage, Trail(navigationHistory, historyIndex))
    }

    predicate Valid()
      reads this
    {
      InBounds(State().trail)
    }

    /** init: load the root. */
    constructor (list: FileBrowser.Listing)
      ensures State() == InitialNav(list) && Valid()
    {
      currentPath := "/";
      items := [];
      isLoading := false;
      errorMessage := None;
      navigationHistory := ["/"];
      historyIndex := 0;
      new;
      LoadDirectory("/", list);
    }

    method NavigateTo(path: string, active: bool, isDir: DirectoryProbe, list: FileBrowser.Listing)
      requires Valid()
      modifies this
      ensures Valid() && State() == NavigatedTo(old(State()), path, active, isDir, list)
    {
      if !active {
        errorMessage := Some("Exploit not active");
        return;
      }
      var normalizedPath := path;
      if normalizedPath == "" {
        normalizedPath := "/";
      }
      if |normalizedPath| > 1 && HasSuffix(normalizedPath, "/") {
        normalizedPath := normalizedPath[..|normalizedPath| - 1];
      }
      assert normalizedPath == Normalize(path);
      if !isDir(normalizedPath) {
        errorMessage := Some("Path does not exist or is not a directory");
        return;
      }
      PushHistory(normalizedPath);
      LoadDirectory(normalizedPath, list);
    }

    /** navigateTo's history update: forward entries are dropped and the path
        appended and made current. */
    method PushHistory(path: string)
      requires Valid()
      modifies this`navigationHistory, this`historyIndex
      ensures Trail(navigationHistory, historyIndex) == Visit(old(State()).trail, path)
    {
      if historyIndex < |navigationHistory| - 1 {
        navigationHistory := navigationHistory[..historyIndex + 1];
      }
      navigationHistory := navigationHistory + [path];
      historyIndex := |navigationHistory| - 1;
    }

    method GoBack(list: FileBrowser.Listing)
      requires Valid()
      modifies this
      ensures Valid() && State() == WentBack(old(State()), list)
    {
      if historyIndex <= 0 {
        return;
      }
      historyIndex := historyIndex - 1;
      LoadDirectory(navigationHistory[historyIndex], list);
    }

    method GoForward(list: FileBrowser.Listing)
      requires Valid()
      modifies this
      ensures Valid() && State() == WentForward(old(State()), list)
    {
      if historyIndex >= |navigationHistory| - 1 {
        return;
      }
      historyIndex := historyIndex + 1;
      LoadDirectory(navigationHistory[historyIndex], list);
    }

    method GoUp(active: bool, isDir: DirectoryProbe, list: FileBrowser.Listing)
      requires Valid()
      modifies this
      ensures Valid() && State() == WentUp(old(State()), active, isDir, list)
    {
      if IsAtRoot() {
        return;
      }
      var parentPath := ParentPath(currentPath);
      NavigateTo(parentPath, active, isDir, list);
    }

    method Refresh(list: FileBrowser.Listing)
      modifies this`currentPath, this`items, this`isLoading, this`errorMessage
      ensures State() == Refreshed(old(State()), list)
    {
      LoadDirectory(currentPath, list);
    }

    /** The listing is read once the background task completes. */
    method LoadDirectory(path: string, list: FileBrowser.Listing)
      modifies this`currentPath, this`items, this`isLoading, this`errorMessage
      ensures State() == Loaded(old(State()), path, list)
    {
      isLoading := true;
      errorMessage := None;
      var loadedItems := list(path);
      if loadedItems.Some? {
        currentPath := path;
        items := loadedItems.value;
        isLoading := false;
      } else {
        errorMessage := Some("Failed to load directory");
        items := [];
        isLoading := false;
      }
    }

    /** renameItem: move the item to the new name beside it, and reload the
        listing only when the move succeeded. */
    method RenameItem(oldPath: string, newName: string, move: (string, string) -> bool, list: FileBrowser.Listing)
      returns (success: bool)
      modifies this`currentPath, this`items, this`isLoading, this`errorMessage
      ensures success == move(oldPath, RenameTarget(oldPath, newName))
      ensures success ==> State() == Refreshed(old(State()), list)
      ensures !success ==> State() == old(State())
    {
      var parentPath := ParentPath(oldPath);
      var newPath := AppendPathComponent(parentPath, newName);
      success := move(oldPath, newPath);
      if success {
        Refresh(list);
      }
    }

    function IsAtRoot(): (r: bool)
      reads this
      ensures r <==> currentPath == "/"
    {
      currentPath == "/"
    }
  }
}
