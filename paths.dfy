/** Path-string helpers. Swift's split(separator: "/") is modelled exactly; the
    NSString helpers deletingLastPathComponent, appendingPathComponent and
    pathExtension are modelled by the simple rules stated on each function; those
    rules are assumed, and Foundation's full behaviour is not reproduced. */
module Paths {
  import opened Strings

  predicate Absolute(p: string) {
    |p| >= 1 && p[0] == '/'
  }

  /** The non-empty '/'-separated segments of a path: path.split(separator: "/"). */
  function Components(p: string): (c: seq<string>)
    ensures forall k :: 0 <= k < |c| ==> c[k] != "" && '/' !in c[k]
  {
    Segments(p, '/')
  }

  /** The absolute path made of the given segments: "/" + joined(separator: "/"). */
  function Rooted(c: seq<string>): (p: string)
    ensures Absolute(p)
  {
    "/" + Join(c, '/')
  }

  /** A path in the form the navigators produce: "/" or a leading "/" followed by
      non-empty segments, so no doubled and no trailing separator. */
  predicate Canonical(p: string) {
    p == "/" || (Absolute(p) && forall x :: x in Split(p[1..], '/') ==> x != "")
  }

  lemma SplitRooted(rest: string)
    ensures Split("/" + rest, '/') == [""] + Split(rest, '/')
  {
    var p := "/" + rest;
    assert IndexOf(p, '/') == Some(0);
    assert p[..0] == "" && p[1..] == rest;
  }

  /** A rooted join of proper segments is canonical and splits back into them. */
  lemma RootedComponents(c: seq<string>)
    requires forall k :: 0 <= k < |c| ==> c[k] != "" && '/' !in c[k]
    ensures Components(Rooted(c)) == c
    ensures Canonical(Rooted(c))
  {
    var j := Join(c, '/');
    SplitRooted(j);
    if c == [] {
      assert j == "";
      assert Split(j, '/') == [""];
      assert Rooted(c) == "/";
    } else {
      SplitJoin(c, '/');
      NonEmptyAppend([""], c);
      NonEmptyIdentity(c);
      assert NonEmpty([""]) == [];
      assert Rooted(c)[1..] == j;
    }
  }

  /** A canonical path is the rooted join of its own components. */
  lemma CanonicalRoundTrip(p: string)
    requires Canonical(p)
    ensures Rooted(Components(p)) == p
  {
    if p == "/" {
      RootedComponents([]);
    } else {
      NonRootRoundTrip(p[1..]);
      assert p == "/" + p[1..];
    }
  }

  lemma NonRootRoundTrip(rest: string)
    requires forall x :: x in Split(rest, '/') ==> x != ""
    ensures Rooted(Components("/" + rest)) == "/" + rest
  {
    var parts := Split(rest, '/');
    forall k | 0 <= k < |parts| ensures parts[k] != "" {
      assert parts[k] in parts;
    }
    ComponentsOfRooted(rest);
    NonEmptyIdentity(parts);
    JoinSplit(rest, '/');
  }

  lemma ComponentsOfRooted(rest: string)
    ensures Components("/" + rest) == NonEmpty(Split(rest, '/'))
  {
    SplitRooted(rest);
    NonEmptyAppend([""], Split(rest, '/'));
    assert NonEmpty([""]) == [];
  }

  /** Gluing two paths with a "/" puts their segments one after the other, however
      many separators that doubles. */
  lemma ComponentsConcat(a: string, b: string)
    ensures Components(a + "/" + b) == Components(a) + Components(b)
  {
    assert a + "/" + b == a + ['/'] + b;
    SplitConcat(a, b, '/');
    NonEmptyAppend(Split(a, '/'), Split(b, '/'));
  }

  /** The parent used by "cd ..": drop the last segment, or "/" when at most one
      segment is left. */
  function DropLastComponent(p: string): (r: string)
    ensures Absolute(r)
  {
    var c := Components(p);
    if |c| > 1 then Rooted(c[..|c| - 1]) else "/"
  }

  /** The parent of a path has one segment fewer, and is canonical. */
  lemma DropLastComponents(p: string)
    ensures var c := Components(p);
      Components(DropLastComponent(p)) == (if c == [] then [] else c[..|c| - 1])
    ensures Canonical(DropLastComponent(p))
  {
    var c := Components(p);
    if |c| > 1 {
      RootedComponents(c[..|c| - 1]);
    } else {
      RootedComponents([]);
    }
  }

  /** deletingLastPathComponent, modelled as follows: for an absolute path the segments but
      the last re-joined under "/" (at least "/"); for a relative path the segments
      but the last re-joined, or "" when at most one segment is left. */
  function ParentPath(p: string): (r: string)
    ensures Absolute(p) ==> r == DropLastComponent(p)
  {
    var c := Components(p);
    if Absolute(p) then DropLastComponent(p)
    else if |c| <= 1 then ""
    else Join(c[..|c| - 1], '/')
  }

  /** appendingPathComponent, modelled as follows: a single "/" between the two parts, and
      the bare name when the base is empty. */
  function AppendPathComponent(base: string, name: string): (r: string)
    ensures HasSuffix(r, name)
  {
    if base == "" then name
    else if HasSuffix(base, "/") then base + name
    else base + "/" + name
  }

  function LastIndexOf(s: string, c: char): (r: Option<nat>)
    ensures r.None? <==> c !in s
    ensures r.Some? ==> r.value < |s| && s[r.value] == c && c !in s[r.value + 1..]
    decreases |s|
  {
    if s == [] then None
    else if s[|s| - 1] == c then Some(|s| - 1)
    else LastIndexOf(s[..|s| - 1], c)
  }

  /** pathExtension: the text after the last "." of the last segment, or "" when
      that segment has no "." or its only "." is its first character, so a dot-file
      such as ".bashrc" has no extension. */
  function PathExtension(path: string): (ext: string)
    ensures '.' !in ext && '/' !in ext
  {
    var c := Components(path);
    var last := if c == [] then "" else c[|c| - 1];
    match LastIndexOf(last, '.')
    case None => ""
    case Some(i) => if i == 0 then "" else last[i + 1..]
  }
}
