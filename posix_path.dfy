/** Python's lexical POSIX path functions (posixpath): join, normpath,
    abspath and commonpath, as pure functions on strings. The process's
    current directory is an explicit parameter; nothing here touches a
    filesystem and no symbolic link is followed. */
module PosixPath {
  import opened Text

  /** posixpath.isabs */
  predicate IsAbs(p: string) {
    StartsWith(p, "/")
  }

  /** posixpath.join(a, b): an absolute `b` discards `a`; otherwise a single
      '/' is inserted unless `a` is empty or already ends with one. */
  function Join(a: string, b: string): (r: string)
    ensures IsAbs(b) ==> r == b
    ensures !IsAbs(b) ==> StartsWith(r, a) && EndsWith(r, b)
  {
    if IsAbs(b) then b
    else if a == "" || EndsWith(a, "/") then
      assert (a + b)[..|a|] == a && (a + b)[|a|..] == b;
      a + b
    else
      assert (a + "/" + b)[..|a|] == a && (a + "/" + b)[|a| + 1..] == b;
      a + "/" + b
  }

  /** str.split('/'): at least one part, and none holding '/'. */
  function Split(s: string): (r: seq<string>)
    ensures |r| >= 1
    ensures forall i | 0 <= i < |r| :: '/' !in r[i]
    decreases |s|
  {
    if s == [] then [""]
    else
      var rest := Split(s[1..]);
      if s[0] == '/' then [""] + rest
      else
        var r := [[s[0]] + rest[0]] + rest[1..];
        assert forall i | 1 <= i < |r| :: r[i] == rest[i];
        r
  }

  /** '/'.join(parts) */
  function JoinWith(parts: seq<string>): string
    decreases |parts|
  {
    if parts == [] then ""
    else if |parts| == 1 then parts[0]
    else parts[0] + "/" + JoinWith(parts[1..])
  }

  /** A path component that survives normalisation of an absolute path. */
  predicate IsName(c: string) {
    c != "" && c != "." && c != ".." && '/' !in c
  }

  predicate AllNames(cs: seq<string>) {
    forall i | 0 <= i < |cs| :: IsName(cs[i])
  }

  /** What normpath computes before rendering: the number of leading
      slashes it keeps (0, 1 or 2) and the component stack. */
  datatype NormalPath = NormalPath(slashes: nat, parts: seq<string>)

  /** POSIX keeps exactly two leading slashes, but folds three or more to one. */
  function InitialSlashes(p: string): nat {
    if StartsWith(p, "//") && !StartsWith(p, "///") then 2
    else if StartsWith(p, "/") then 1
    else 0
  }

  /** Every part is non-empty and free of '/'. */
  predicate Plain(cs: seq<string>) {
    forall i | 0 <= i < |cs| :: cs[i] != "" && '/' !in cs[i]
  }

  /** One iteration of normpath's component loop: "" and "." vanish, a name
      is pushed, and under a root the stack of names stays a stack of names.
      What ".." does is stated by UpCancelsName, RootUpDropped and
      RelativeUpKept. */
  function Step(rooted: bool, stack: seq<string>, comp: string): (r: seq<string>)
    ensures comp == "" || comp == "." ==> r == stack
    ensures IsName(comp) ==> r == stack + [comp]
    ensures Plain(stack) && '/' !in comp ==> Plain(r)
    ensures rooted && AllNames(stack) && '/' !in comp ==> AllNames(r)
  {
    if comp == "" || comp == "." then stack
    else if comp != ".." || (!rooted && stack == []) || (stack != [] && stack[|stack| - 1] == "..") then
      stack + [comp]
    else if stack != [] then stack[..|stack| - 1]
    else stack
  }

  /** normpath's component loop, which keeps the invariants of Step. */
  function Fold(rooted: bool, stack: seq<string>, comps: seq<string>): (r: seq<string>)
    ensures (forall i | 0 <= i < |comps| :: '/' !in comps[i]) && Plain(stack) ==> Plain(r)
    ensures (forall i | 0 <= i < |comps| :: '/' !in comps[i]) && rooted && AllNames(stack) ==> AllNames(r)
    decreases |comps|
  {
    if comps == [] then stack
    else
      assert forall i | 0 <= i < |comps[1..]| :: comps[1..][i] == comps[i + 1];
      Fold(rooted, Step(rooted, stack, comps[0]), comps[1..])
  }

  /** normpath before rendering: an absolute path keeps one or two leading
      slashes and only proper names (no "", "." or ".." survives); a
      relative one keeps no slash and only non-empty, '/'-free parts. */
  function Normalize(p: string): (r: NormalPath)
    ensures IsAbs(p) ==> 1 <= r.slashes <= 2 && AllNames(r.parts)
    ensures !IsAbs(p) ==> r.slashes == 0 && Plain(r.parts)
  {
    var k := InitialSlashes(p);
    NormalPath(k, Fold(k > 0, [], Split(p)))
  }

  function Slashes(k: nat): string {
    if k == 0 then "" else "/" + Slashes(k - 1)
  }

  function Render(n: NormalPath): string {
    var s := Slashes(n.slashes) + JoinWith(n.parts);
    if s == "" then "." else s
  }

  /** posixpath.normpath: never empty, and absolute exactly when its
      argument is. */
  function NormPath(p: string): (r: string)
    ensures r != ""
    ensures IsAbs(r) <==> IsAbs(p)
  {
    if p == "" then
      assert "."[..1] == ".";
      "."
    else
      var n := Normalize(p);
      var body := JoinWith(n.parts);
      PlainJoinHead(n.parts);
      assert n.slashes > 0 ==> Slashes(n.slashes) == "/" + Slashes(n.slashes - 1);
      assert Slashes(n.slashes) + body == if n.slashes > 0 then "/" + (Slashes(n.slashes - 1) + body) else body;
      Render(n)
  }

  /** The path abspath hands to normpath. */
  function AbsInput(cwd: string, p: string): string {
    if IsAbs(p) then p else Join(cwd, p)
  }

  /** posixpath.abspath, with os.getcwd() passed in as `cwd`: absolute
      whenever the current directory is. */
  function AbsPath(cwd: string, p: string): (r: string)
    ensures r != ""
    ensures IsAbs(cwd) || IsAbs(p) ==> IsAbs(r)
  {
    var q := AbsInput(cwd, p);
    assert IsAbs(cwd) && !IsAbs(p) ==> q[..1] == q[..|cwd|][..1];
    NormPath(q)
  }

  /** The filter in posixpath.commonpath: the '/'-separated parts of `s`
      other than "" and ".". */
  function Components(s: string): seq<string> {
    Kept(Split(s))
  }

  function Kept(parts: seq<string>): seq<string>
    decreases |parts|
  {
    if parts == [] then []
    else (if parts[0] == "" || parts[0] == "." then [] else [parts[0]]) + Kept(parts[1..])
  }

  function CommonPrefix(a: seq<string>, b: seq<string>): (r: seq<string>)
    decreases |a|
  {
    if a != [] && b != [] && a[0] == b[0] then [a[0]] + CommonPrefix(a[1..], b[1..]) else []
  }

  /** posixpath.commonpath([a, b]). Python takes the common prefix of the
      lexicographically least and greatest component lists; with two paths
      that is the common prefix of the two. Mixing an absolute and a
      relative path raises ValueError, returned here as Err. */
  function CommonPath(a: string, b: string): (r: Result<string>)
    ensures r.Err? <==> IsAbs(a) != IsAbs(b)
    ensures r.Ok? ==> (IsAbs(r.value) <==> IsAbs(a))
  {
    if IsAbs(a) != IsAbs(b) then Err("Can't mix absolute and relative paths")
    else
      var common := CommonPrefix(Components(a), Components(b));
      KeptPlain(Split(a));
      CommonPrefixWhole(Components(a), Components(b));
      assert Plain(common);
      PlainJoinHead(common);
      Ok((if IsAbs(a) then "/" else "") + JoinWith(common))
  }

  // ---- lemmas ----

  /** The common prefix is the whole of `b` exactly when `b` is a prefix of `a`. */
  lemma {:induction false} CommonPrefixWhole(a: seq<string>, b: seq<string>)
    ensures CommonPrefix(a, b) <= a && CommonPrefix(a, b) <= b
    ensures CommonPrefix(a, b) == b <==> b <= a
    decreases |a|
  {
    if a != [] && b != [] && a[0] == b[0] {
      CommonPrefixWhole(a[1..], b[1..]);
      assert b <= a <==> b[1..] <= a[1..];
    }
  }

  lemma {:induction false} SplitPlainPrefix(a: string, t: string)
    requires '/' !in a
    ensures Split(a + t) == [a + Split(t)[0]] + Split(t)[1..]
    decreases |a|
  {
    if a == [] {
      var r := Split(t);
      assert a + t == t && a + r[0] == r[0];
      assert r == [r[0]] + r[1..];
    } else {
      assert (a + t)[1..] == a[1..] + t;
      SplitPlainPrefix(a[1..], t);
      assert [a[0]] + (a[1..] + Split(t)[0]) == a + Split(t)[0];
    }
  }

  lemma SplitAfterSlash(x: string)
    ensures Split("/" + x) == [""] + Split(x)
  {
    assert ("/" + x)[1..] == x;
  }

  /** A slash-free string splits into itself. */
  lemma SplitName(a: string)
    requires forall i | 0 <= i < |a| :: a[i] != '/'
    ensures Split(a) == [a]
  {
    SplitPlainPrefix(a, "");
    assert a + "" == a;
  }

  /** Splitting at a '/' splits the two sides independently. */
  lemma {:induction false} SplitConcat(x: string, y: string)
    ensures Split(x + "/" + y) == Split(x) + Split(y)
    decreases |x|
  {
    if x == [] {
      assert x + "/" + y == "/" + y;
      SplitAfterSlash(y);
    } else {
      assert (x + "/" + y)[1..] == x[1..] + "/" + y;
      SplitConcat(x[1..], y);
    }
  }

  /** '/'.join undoes str.split('/'). */
  lemma {:induction false} JoinSplit(s: string)
    ensures JoinWith(Split(s)) == s
    decreases |s|
  {
    if s != [] {
      var rest := Split(s[1..]);
      JoinSplit(s[1..]);
      if s[0] == '/' {
        assert JoinWith([""] + rest) == "" + "/" + JoinWith(rest);
      } else if |rest| == 1 {
        assert s == [s[0]] + s[1..];
      } else {
        var r := [[s[0]] + rest[0]] + rest[1..];
        assert r[1..] == rest[1..];
        assert s == [s[0]] + (rest[0] + "/" + JoinWith(rest[1..]));
      }
    }
  }

  /** str.split('/') undoes '/'.join on slash-free parts. */
  lemma {:induction false} SplitJoinWith(parts: seq<string>)
    requires |parts| >= 1 && forall i | 0 <= i < |parts| :: '/' !in parts[i]
    ensures Split(JoinWith(parts)) == parts
    decreases |parts|
  {
    if |parts| == 1 {
      SplitPlainPrefix(parts[0], "");
      assert parts[0] + "" == parts[0];
    } else {
      var rest := JoinWith(parts[1..]);
      SplitJoinWith(parts[1..]);
      SplitPlainPrefix(parts[0], "/" + rest);
      SplitAfterSlash(rest);
      assert parts[0] + "/" + rest == parts[0] + ("/" + rest);
      assert Split("/" + rest)[0] == "" && Split("/" + rest)[1..] == parts[1..];
      assert parts[0] + "" == parts[0];
      assert parts == [parts[0]] + parts[1..];
    }
  }

  /** commonpath's filter leaves only non-empty, '/'-free parts. */
  lemma {:induction false} KeptPlain(parts: seq<string>)
    requires forall i | 0 <= i < |parts| :: '/' !in parts[i]
    ensures Plain(Kept(parts))
    decreases |parts|
  {
    if parts != [] {
      assert forall i | 0 <= i < |parts[1..]| :: parts[1..][i] == parts[i + 1];
      KeptPlain(parts[1..]);
    }
  }

  lemma {:induction false} KeptNames(cs: seq<string>)
    requires AllNames(cs)
    ensures Kept(cs) == cs
    decreases |cs|
  {
    if cs != [] {
      KeptNames(cs[1..]);
      assert cs == [cs[0]] + cs[1..];
    }
  }

  /** join of a non-empty head not ending in '/' and a relative tail. */
  lemma JoinInserts(a: string, b: string)
    requires a != [] && a[|a| - 1] != '/' && (b == [] || b[0] != '/')
    ensures Join(a, b) == a + "/" + b
  {
    assert !EndsWith(a, "/") by {
      assert a[|a| - 1..][0] == a[|a| - 1];
    }
    assert !IsAbs(b) by {
      if |b| > 0 {
        assert b[..1][0] == b[0];
      }
    }
  }

  lemma SingleSlash(p: string)
    requires |p| >= 2 && p[0] == '/' && p[1] != '/'
    ensures InitialSlashes(p) == 1 && IsAbs(p)
  {
    assert p[..2][1] == p[1];
    assert p[..1] == "/";
  }

  lemma JoinWithCons(head: string, tail: seq<string>)
    requires tail != []
    ensures JoinWith([head] + tail) == head + "/" + JoinWith(tail)
  {
    assert ([head] + tail)[1..] == tail;
  }

  /** Joined names start with the first name and never with '/'. */
  lemma JoinWithHead(cs: seq<string>)
    requires cs != [] && AllNames(cs)
    ensures |JoinWith(cs)| >= |cs[0]| > 0 && JoinWith(cs)[..|cs[0]|] == cs[0]
    ensures JoinWith(cs)[0] != '/'
    ensures |cs| > 1 ==> JoinWith(cs) == cs[0] + "/" + JoinWith(cs[1..])
    ensures |cs| > 1 ==> |JoinWith(cs)| > |cs[0]| && JoinWith(cs)[|cs[0]|] == '/'
  {
    assert IsName(cs[0]);
    assert cs[0][0] != '/';
  }

  /** '/'.join is one-to-one on lists of names. */
  lemma JoinWithInjective(a: seq<string>, b: seq<string>)
    requires AllNames(a) && AllNames(b) && JoinWith(a) == JoinWith(b)
    ensures a == b
  {
    if a != [] && b != [] {
      SplitJoinWith(a);
      SplitJoinWith(b);
    } else if a != [] {
      JoinWithHead(a);
    } else if b != [] {
      JoinWithHead(b);
    }
  }

  /** normpath of names joined after a leading "" (that is, "/a/b/..."). */
  lemma NormalizeJoined(parts: seq<string>)
    requires |parts| >= 2 && parts[0] == "" && parts[1] != ""
    requires forall i | 0 <= i < |parts| :: '/' !in parts[i]
    ensures Normalize(JoinWith(parts)) == NormalPath(1, Fold(true, [], parts))
  {
    SplitJoinWith(parts);
    var rest := JoinWith(parts[1..]);
    assert JoinWith(parts) == "" + "/" + rest;
    assert '/' !in parts[1];
    if |parts| > 2 {
      assert rest == parts[1] + "/" + JoinWith(parts[2..]);
    }
    assert rest[0] == parts[1][0] != '/';
    SingleSlash(JoinWith(parts));
  }

  /** The early return for "" in normpath agrees with the general case. */
  lemma NormPathRender(p: string)
    ensures NormPath(p) == Render(Normalize(p))
  {
  }

  /** commonpath's component filter recovers the names of a normalised
      absolute path, whether it was rendered with one or two slashes. */
  lemma ComponentsOfRender(n: NormalPath)
    requires 1 <= n.slashes <= 2 && AllNames(n.parts)
    ensures Components(Render(n)) == n.parts
  {
    ComponentsPastSlashes(n);
    KeptSplitJoinWith(n.parts);
  }

  /** The filter drops the leading slashes of a rendered path. */
  lemma ComponentsPastSlashes(n: NormalPath)
    requires 1 <= n.slashes <= 2
    ensures Components(Render(n)) == Kept(Split(JoinWith(n.parts)))
  {
    var j := JoinWith(n.parts);
    var r := Render(n);
    if n.slashes == 1 {
      assert Slashes(1) == "/";
      assert r == "/" + j;
      KeptAfterSlash(j);
    } else {
      assert Slashes(2) == "/" + "/";
      assert r == "/" + ("/" + j);
      KeptAfterSlash("/" + j);
      KeptAfterSlash(j);
    }
  }

  /** The filter undoes '/'.join on names. */
  lemma KeptSplitJoinWith(parts: seq<string>)
    requires AllNames(parts)
    ensures Kept(Split(JoinWith(parts))) == parts
  {
    if parts == [] {
      assert Split(JoinWith(parts)) == [""];
    } else {
      SplitJoinWith(parts);
      KeptNames(parts);
    }
  }

  /** A leading '/' adds only an empty part, which the filter drops. */
  lemma KeptAfterSlash(x: string)
    ensures Kept(Split("/" + x)) == Kept(Split(x))
  {
    SplitAfterSlash(x);
    assert ([""] + Split(x))[1..] == Split(x);
  }

  /** '/'.join over a concatenation joins the two halves with one '/'. */
  lemma {:induction false} JoinWithAppend(a: seq<string>, b: seq<string>)
    requires a != [] && b != []
    ensures JoinWith(a + b) == JoinWith(a) + "/" + JoinWith(b)
    decreases |a|
  {
    if |a| == 1 {
      JoinWithCons(a[0], b);
    } else {
      assert (a + b)[1..] == a[1..] + b;
      JoinWithAppend(a[1..], b);
    }
  }

  /** The first character of a join is that of its first part. */
  lemma JoinWithFirst(parts: seq<string>)
    requires parts != [] && parts[0] != ""
    ensures JoinWith(parts) != "" && JoinWith(parts)[0] == parts[0][0]
  {
  }

  /** Joined plain parts open with a character other than '/'. */
  lemma PlainJoinHead(parts: seq<string>)
    requires Plain(parts)
    ensures parts != [] ==> JoinWith(parts) != "" && JoinWith(parts)[0] != '/'
  {
    if parts != [] {
      JoinWithFirst(parts);
    }
  }

  /** The last character of a join is that of its last part. */
  lemma {:induction false} JoinWithLast(parts: seq<string>)
    requires parts != [] && parts[|parts| - 1] != ""
    ensures JoinWith(parts) != ""
    ensures JoinWith(parts)[|JoinWith(parts)| - 1] == parts[|parts| - 1][|parts[|parts| - 1]| - 1]
    decreases |parts|
  {
    if |parts| > 1 {
      JoinWithLast(parts[1..]);
    }
  }

  /** normpath's loop over a concatenation runs over each half in turn. */
  lemma {:induction false} FoldAppend(rooted: bool, stack: seq<string>, a: seq<string>, b: seq<string>)
    ensures Fold(rooted, stack, a + b) == Fold(rooted, Fold(rooted, stack, a), b)
    decreases |a|
  {
    if a == [] {
      assert a + b == b;
    } else {
      assert (a + b)[1..] == a[1..] + b;
      FoldAppend(rooted, Step(rooted, stack, a[0]), a[1..], b);
    }
  }

  /** Proper names are simply pushed onto the stack. */
  lemma {:induction false} FoldNames(rooted: bool, stack: seq<string>, names: seq<string>)
    requires AllNames(names)
    ensures Fold(rooted, stack, names) == stack + names
    decreases |names|
  {
    if names != [] {
      assert IsName(names[0]);
      FoldNames(rooted, stack + [names[0]], names[1..]);
      assert stack + [names[0]] + names[1..] == stack + names;
    }
  }

  lemma RootedPartsPlain(names: seq<string>)
    requires AllNames(names)
    ensures forall i | 0 <= i < |[""] + names| :: '/' !in ([""] + names)[i]
  {
    forall i | 0 <= i < |[""] + names|
      ensures '/' !in ([""] + names)[i]
    {
      if i > 0 {
        assert ([""] + names)[i] == names[i - 1];
        assert IsName(names[i - 1]);
      }
    }
  }

  /** "/" followed by '/'-joined names is already normal. */
  lemma RootedNames(names: seq<string>)
    requires names != [] && AllNames(names)
    ensures Normalize("/" + JoinWith(names)) == NormalPath(1, names)
  {
    JoinWithCons("", names);
    assert "/" + JoinWith(names) == JoinWith([""] + names);
    assert IsName(names[0]);
    RootedPartsPlain(names);
    NormalizeJoined([""] + names);
    assert Fold(true, [], [""] + names) == Fold(true, [], names);
    FoldNames(true, [], names);
    assert [] + names == names;
  }

  /** normpath's ".." rule, "A/foo/../B becomes A/B": a name followed by
      ".." cancels out, whatever the stack below it. */
  lemma UpCancelsName(rooted: bool, stack: seq<string>, n: string, cs: seq<string>)
    requires IsName(n)
    ensures Fold(rooted, stack, [n, ".."] + cs) == Fold(rooted, stack, cs)
  {
    assert ([n, ".."] + cs)[1..] == [".."] + cs;
    assert ([".."] + cs)[1..] == cs;
    assert (stack + [n])[..|stack|] == stack;
  }

  /** At the root, ".." has nowhere to go and is dropped: "/.." is "/". */
  lemma RootUpDropped(cs: seq<string>)
    ensures Fold(true, [], [".."] + cs) == Fold(true, [], cs)
  {
    assert ([".."] + cs)[1..] == cs;
  }

  /** In a relative path, a ".." that cannot cancel a name (the stack is
      empty or already ends in "..") is kept: "../x" stays "../x". */
  lemma RelativeUpKept(stack: seq<string>, cs: seq<string>)
    requires stack == [] || stack[|stack| - 1] == ".."
    ensures Fold(false, stack, [".."] + cs) == Fold(false, stack + [".."], cs)
  {
    assert ([".."] + cs)[1..] == cs;
  }

  /** "//" followed by '/'-joined names keeps both slashes under normpath. */
  lemma DoubleRootedNames(names: seq<string>)
    requires names != [] && AllNames(names)
    ensures Normalize("/" + ("/" + JoinWith(names))) == NormalPath(2, names)
  {
    var j := JoinWith(names);
    var p := "/" + ("/" + j);
    JoinWithHead(names);
    assert p[..2] == "//" && p[..3] != "///" by {
      assert p[2] == j[0];
    }
    assert InitialSlashes(p) == 2;
    SplitAfterSlash("/" + j);
    SplitAfterSlash(j);
    assert forall i | 0 <= i < |names| :: '/' !in names[i] by {
      forall i | 0 <= i < |names| ensures '/' !in names[i] { assert IsName(names[i]); }
    }
    SplitJoinWith(names);
    assert Split(p) == [""] + ([""] + names);
    assert Fold(true, [], [""] + ([""] + names)) == Fold(true, [], names);
    FoldNames(true, [], names);
    assert [] + names == names;
  }
}
