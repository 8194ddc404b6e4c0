/**
  POSIX path strings: splitting, normalizing, joining, and the directory part.
 */
module PosixPaths {
  // ---- Segments ----------------------------------------------------------------------

  function Split(s: string): (parts: seq<string>)
    ensures parts != [] && forall p :: p in parts ==> '/' !in p
  {
    if s == "" then [""]
    else
      var rest := Split(s[1..]);
      if s[0] == '/' then [""] + rest else [[s[0]] + rest[0]] + rest[1..]
  }

  function Join(parts: seq<string>): string {
    if parts == [] then ""
    else if |parts| == 1 then parts[0]
    else parts[0] + "/" + Join(parts[1..])
  }

  lemma {:induction false} JoinSplit(s: string)
    ensures Join(Split(s)) == s
  {
    if s != "" {
      JoinSplit(s[1..]);
      var rest := Split(s[1..]);
      assert s == [s[0]] + s[1..];
      if s[0] == '/' {
        JoinConcat([""], rest);
        assert Join([""]) == "";
      } else {
        JoinHead(s[0], rest);
      }
    }
  }

  lemma JoinHead(c: char, parts: seq<string>)
    requires parts != []
    ensures Join([[c] + parts[0]] + parts[1..]) == [c] + Join(parts)
  {
    assert ([[c] + parts[0]] + parts[1..])[1..] == parts[1..];
  }

  lemma {:induction false} SplitSegment(p: string)
    requires '/' !in p
    ensures Split(p) == [p]
  {
    if p != "" {
      SplitSegment(p[1..]);
      assert p == [p[0]] + p[1..];
    }
  }

  // Splitting distributes over a slash.
  lemma {:induction false} SplitConcat(s: string, t: string)
    ensures Split(s + "/" + t) == Split(s) + Split(t)
  {
    if s == "" {
      assert s + "/" + t == "/" + t;
    } else {
      assert (s + "/" + t)[1..] == s[1..] + "/" + t;
      SplitConcat(s[1..], t);
    }
  }

  lemma {:induction false} JoinConcat(a: seq<string>, b: seq<string>)
    requires a != [] && b != []
    ensures Join(a + b) == Join(a) + "/" + Join(b)
  {
    if |a| == 1 {
      assert (a + b)[1..] == b;
    } else {
      assert (a + b)[1..] == a[1..] + b;
      JoinConcat(a[1..], b);
    }
  }

  lemma {:induction false} SplitJoin(parts: seq<string>)
    requires parts != [] && forall p :: p in parts ==> '/' !in p
    ensures Split(Join(parts)) == parts
  {
    SplitSegment(parts[0]);
    if |parts| == 1 {
      assert parts == [parts[0]];
    } else {
      SplitConcat(parts[0], Join(parts[1..]));
      SplitJoin(parts[1..]);
      assert parts == [parts[0]] + parts[1..];
    }
  }

  // ---- Normalizing -------------------------------------------------------------------

  predicate Plain(part: string) {
    part != "" && part != "." && part != ".." && '/' !in part
  }

  predicate AllPlain(parts: seq<string>) {
    forall p :: p in parts ==> Plain(p)
  }

  // Drops empty and `.` segments and lets `..` remove the one before it.
  function Resolve(parts: seq<string>): seq<string> {
    if parts == [] then []
    else
      var init, last := Resolve(parts[..|parts| - 1]), parts[|parts| - 1];
      if last == "" || last == "." then init
      else if last == ".." then (if init == [] then [] else init[..|init| - 1])
      else init + [last]
  }

  lemma {:induction false} ResolveAppendsPlain(parts: seq<string>, plain: seq<string>)
    requires AllPlain(plain)
    ensures Resolve(parts + plain) == Resolve(parts) + plain
  {
    if plain == [] {
      assert parts + plain == parts;
    } else {
      var n := |plain| - 1;
      assert (parts + plain)[..|parts + plain| - 1] == parts + plain[..n];
      ResolveAppendsPlain(parts, plain[..n]);
      assert plain == plain[..n] + [plain[n]] && plain[n] in plain;
      assert (parts + plain)[|parts + plain| - 1] == plain[n];
    }
  }

  // `path.join` of an absolute directory and a relative path.
  function JoinPaths(dir: string, relative: string): string {
    var joined := dir + "/" + relative;
    var resolved := "/" + Join(Resolve(Split(joined)));
    if joined[|joined| - 1] == '/' && resolved != "/" then resolved + "/" else resolved
  }

  // What `realpath` answers: the root, or plain segments after a leading slash.
  ghost predicate Canonical(path: string) {
    exists parts :: AllPlain(parts) && path == "/" + Join(parts)
  }

  // ---- The directory part ------------------------------------------------------------

  predicate IsAbsolute(path: string) {
    path != "" && path[0] == '/'
  }

  function WithoutTrailingSlashes(path: string): string {
    if |path| > 1 && path[|path| - 1] == '/' then WithoutTrailingSlashes(path[..|path| - 1]) else path
  }

  // Index of the last slash after the first character, or 0.
  function LastSlash(path: string): (n: nat)
    ensures n == 0 || (n < |path| && path[n] == '/')
    ensures forall i :: n < i < |path| ==> path[i] != '/'
  {
    if |path| <= 1 then 0
    else if path[|path| - 1] == '/' then |path| - 1
    else LastSlash(path[..|path| - 1])
  }

  function DirName(path: string): string {
    var p := WithoutTrailingSlashes(path);
    var end := LastSlash(p);
    if end == 0 then (if IsAbsolute(path) then "/" else ".")
    else if end == 1 && IsAbsolute(path) then "//"
    else p[..end]
  }

  function BaseName(path: string): string {
    var parts := Split(WithoutTrailingSlashes(path));
    parts[|parts| - 1]
  }

  lemma DirNameOf(dir: string, name: string)
    requires Plain(name) && (dir == "" || (|dir| > 1 && dir[0] == '/'))
    ensures DirName(dir + "/" + name) == if dir == "" then "/" else dir
  {
    var path := dir + "/" + name;
    assert path[|path| - 1] == name[|name| - 1];
    assert WithoutTrailingSlashes(path) == path;
    assert forall i :: |dir| < i < |path| ==> path[i] == name[i - |dir| - 1];
    assert path[|dir|] == '/';
    assert LastSlash(path) == |dir|;
    assert path[..|dir|] == dir;
  }

  // ---- Joining stays inside ----------------------------------------------------------

  // A relative path of plain segments.
  predicate PlainRelative(relative: string) {
    AllPlain(Split(relative))
  }

  // Inside `root`: one or more plain segments below it.
  ghost predicate Below(path: string, root: string) {
    exists parts :: AllPlain(parts) && parts != [] && path == Prefix(root) + Join(parts)
  }

  function Prefix(root: string): string {
    if root == "/" then "/" else root + "/"
  }

  lemma JoinOfPlain(root: string, relative: string)
    requires Canonical(root) && PlainRelative(relative)
    ensures JoinPaths(root, relative) == Prefix(root) + relative
  {
    var parts :| AllPlain(parts) && root == "/" + Join(parts);
    var added := Split(relative);
    SplitConcat(root, relative);
    JoinSplit(relative);
    EndsPlain(relative);
    ResolveOfCanonical(parts);
    ResolveAppendsPlain(Split(root), added);
    if parts == [] {
      assert parts + added == added;
    } else {
      JoinConcat(parts, added);
      JoinIsEmpty(parts);
    }
  }

  lemma JoinIsEmpty(parts: seq<string>)
    requires AllPlain(parts)
    ensures Join(parts) == "" <==> parts == []
  {
    if parts != [] {
      assert Plain(parts[0]);
    }
  }

  lemma EndsPlain(relative: string)
    requires PlainRelative(relative)
    ensures relative != "" && relative[|relative| - 1] != '/'
  {
    TrailingSlashLeavesEmpty(relative);
  }

  lemma TrailingSlashLeavesEmpty(s: string)
    ensures s == "" || s[|s| - 1] == '/' ==> "" in Split(s)
  {
    if s == "" {
      assert Split(s)[0] == "";
    } else if s[|s| - 1] == '/' {
      var init := s[..|s| - 1];
      assert s == init + "/" + "";
      SplitConcat(init, "");
      assert Split(s)[|Split(init)|] == "";
    }
  }

  lemma ResolveOfCanonical(parts: seq<string>)
    requires AllPlain(parts)
    ensures Resolve(Split("/" + Join(parts))) == parts
  {
    SplitConcat("", Join(parts));
    assert "" + "/" + Join(parts) == "/" + Join(parts);
    assert Split("") == [""];
    assert Resolve([""]) == [] && Resolve([]) == [];
    if parts == [] {
      assert Split("/" + Join(parts)) == ["", ""];
    } else {
      SplitJoin(parts);
      ResolveAppendsPlain([""], parts);
    }
  }

  // The directory of a joined path is the root itself or below it.
  lemma DirNameOfJoin(root: string, relative: string)
    requires Canonical(root) && PlainRelative(relative)
    ensures var dir := DirName(JoinPaths(root, relative));
            var parts := Split(relative);
            if |parts| == 1 then dir == root else dir == Prefix(root) + Join(parts[..|parts| - 1])
  {
    hide DirName, JoinPaths, Split, Join, Canonical;
    JoinOfPlain(root, relative);
    JoinSplit(relative);
    CanonicalIsAbsolute(root);
    LastSegmentAside(root, relative, Split(relative));
  }

  lemma LastSegmentAside(root: string, relative: string, parts: seq<string>)
    requires parts != [] && AllPlain(parts) && relative == Join(parts)
    requires root != "" && root[0] == '/' && (|root| == 1 ==> root == "/")
    ensures DirName(Prefix(root) + relative) == if |parts| == 1 then root else Prefix(root) + Join(parts[..|parts| - 1])
  {
    hide DirName, Join, AllPlain, Plain;
    var init, last := parts[..|parts| - 1], parts[|parts| - 1];
    var up := if root == "/" then "" else root;
    assert Prefix(root) == up + "/";
    JoinLast(parts);
    if init == [] {
      DirNameOf(up, last);
    } else {
      Regroup(up + "/", Join(init), last);
      DirNameOf(up + "/" + Join(init), last);
    }
  }

  lemma JoinLast(parts: seq<string>)
    requires parts != [] && AllPlain(parts)
    ensures Plain(parts[|parts| - 1])
    ensures var init, last := parts[..|parts| - 1], parts[|parts| - 1];
            Join(parts) == (if init == [] then last else Join(init) + "/" + last) && (init != [] ==> Join(init) != "")
  {
    var init, last := parts[..|parts| - 1], parts[|parts| - 1];
    if init != [] {
      assert parts == init + [last];
      JoinConcat(init, [last]);
      JoinIsEmpty(init);
    }
  }

  lemma Regroup(a: string, b: string, c: string)
    ensures a + (b + "/" + c) == (a + b) + "/" + c
  {
  }

  lemma CanonicalIsAbsolute(root: string)
    requires Canonical(root)
    ensures root != "" && root[0] == '/' && (|root| == 1 ==> root == "/")
  {
  }
}
