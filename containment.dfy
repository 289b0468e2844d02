/** The two sandbox tests the tools use. get_file_content and
    get_files_info accept a path when its absolute form string-starts-with
    the absolute working directory; run_python_file accepts it when
    commonpath of the two absolute paths is the absolute working directory.
    The lemmas state exactly which paths each test accepts. */
module Containment {
  import opened Text
  import opened PosixPath

  /** functions/get_file_content.py:8 and functions/get_files_info.py:16: a
      string-prefix test of the two abspaths. An absolute path is checked as
      it stands, whatever the working directory. */
  predicate PrefixGuard(cwd: string, wd: string, path: string)
    ensures IsAbs(path) ==> (PrefixGuard(cwd, wd, path) <==> StartsWith(NormPath(path), AbsPath(cwd, wd)))
  {
    StartsWith(AbsPath(cwd, Join(wd, path)), AbsPath(cwd, wd))
  }

  /** functions/run_python_file.py:7: Ok(true) inside, Ok(false) outside,
      Err when commonpath raises, which it never does under an absolute
      current directory. */
  function CommonGuard(cwd: string, wd: string, path: string): (r: Result<bool>)
    ensures IsAbs(cwd) ==> r.Ok?
  {
    var w := AbsPath(cwd, wd);
    match CommonPath(AbsPath(cwd, Join(wd, path)), w)
    case Err(m) => Err(m)
    case Ok(c) => Ok(c == w)
  }

  /** The normalised form of abspath(p). */
  function Resolved(cwd: string, p: string): NormalPath {
    Normalize(AbsInput(cwd, p))
  }

  /** What the string-prefix test amounts to on components: every
      working-directory component but the last matches, and the last is a
      string prefix of the target's component at the same position. */
  predicate WithinByPrefix(w: seq<string>, t: seq<string>) {
    w == [] || (|w| <= |t| && w[..|w| - 1] == t[..|w| - 1] && StartsWith(t[|w| - 1], w[|w| - 1]))
  }

  // ---- string facts ----

  lemma StartsWithSameHead(x: string, a: string, b: string)
    ensures StartsWith(x + a, x + b) <==> StartsWith(a, b)
  {
    if |b| <= |a| {
      assert (x + a)[..|x + b|] == x + a[..|b|];
      if (x + a)[..|x + b|] == x + b {
        assert a[..|b|] == (x + a[..|b|])[|x|..] == (x + b)[|x|..] == b;
      }
    }
  }

  /** A slash-free `a` is a prefix of joined names exactly when it is a
      prefix of the first name. */
  lemma NameStartsWith(t: seq<string>, a: string)
    requires t != [] && AllNames(t) && '/' !in a
    ensures StartsWith(JoinWith(t), a) <==> StartsWith(t[0], a)
  {
    JoinWithHead(t);
    var j, n := JoinWith(t), |t[0]|;
    if StartsWith(t[0], a) {
      assert j[..|a|] == j[..n][..|a|];
    }
    if StartsWith(j, a) {
      assert |a| <= n;
      assert t[0][..|a|] == j[..n][..|a|] == j[..|a|];
    }
  }

  /** `a + "/"` is a prefix of joined names exactly when the first name is
      `a` and another name follows. */
  lemma HeadAgrees(t: seq<string>, a: string)
    requires t != [] && AllNames(t) && IsName(a)
    ensures StartsWith(JoinWith(t), a + "/") <==> |t| > 1 && t[0] == a
  {
    var j, p := JoinWith(t), a + "/";
    if StartsWith(j, p) {
      HeadFromPrefix(t, a);
    }
    if |t| > 1 && t[0] == a {
      assert j == p + JoinWith(t[1..]);
    }
  }

  lemma HeadFromPrefix(t: seq<string>, a: string)
    requires t != [] && AllNames(t) && IsName(a)
    requires StartsWith(JoinWith(t), a + "/")
    ensures |t| > 1 && t[0] == a
  {
    var j, p := JoinWith(t), a + "/";
    var rest := j[|p|..];
    assert j == a + "/" + rest by {
      assert j == j[..|p|] + rest;
    }
    SplitJoinWith(t);
    SplitConcat(a, rest);
    SplitName(a);
  }

  /** Dropping a shared first name keeps WithinByPrefix. */
  lemma WithinByPrefixCons(w: seq<string>, t: seq<string>)
    requires |w| > 1 && |t| > 1 && w[0] == t[0]
    ensures WithinByPrefix(w[1..], t[1..]) <==> WithinByPrefix(w, t)
  {
    assert w[..|w| - 1] == [w[0]] + w[1..][..|w| - 2];
    if |w| <= |t| {
      assert t[..|w| - 1] == [t[0]] + t[1..][..|w| - 2];
    }
  }

  /** The string-prefix relation between joined name lists, component by
      component. */
  lemma {:induction false} JoinWithStartsWith(t: seq<string>, w: seq<string>)
    requires AllNames(t) && AllNames(w) && w != []
    ensures StartsWith(JoinWith(t), JoinWith(w)) <==> WithinByPrefix(w, t)
    decreases |w|
  {
    JoinWithHead(w);
    if t == [] {
      assert JoinWith(t) == "";
    } else if |w| == 1 {
      NameStartsWith(t, w[0]);
    } else {
      var a, w', t' := w[0], w[1..], t[1..];
      assert JoinWith(w) == (a + "/") + JoinWith(w');
      HeadAgrees(t, a);
      if |t| > 1 && t[0] == a {
        assert JoinWith(t) == (a + "/") + JoinWith(t');
        StartsWithSameHead(a + "/", JoinWith(t'), JoinWith(w'));
        JoinWithStartsWith(t', w');
        WithinByPrefixCons(w, t);
      }
    }
  }

  // ---- abspath shape ----

  /** With an absolute current directory abspath yields one or two
      leading slashes followed by '/'-joined names. */
  lemma AbsPathShape(cwd: string, p: string)
    requires IsAbs(cwd)
    ensures IsAbs(AbsInput(cwd, p))
    ensures 1 <= Resolved(cwd, p).slashes <= 2 && AllNames(Resolved(cwd, p).parts)
    ensures AbsPath(cwd, p) == Render(Resolved(cwd, p))
    ensures AbsPath(cwd, p) == Slashes(Resolved(cwd, p).slashes) + JoinWith(Resolved(cwd, p).parts)
  {
    if !IsAbs(p) {
      assert Join(cwd, p)[..1] == Join(cwd, p)[..|cwd|][..1];
    }
    NormPathRender(AbsInput(cwd, p));
  }

  // ---- the two tests ----

  /** run_python_file's commonpath test accepts exactly the targets whose
      components extend the working directory's components (and never a
      working directory spelled with two leading slashes, whose abspath
      commonpath cannot reproduce). */
  lemma CommonGuardExact(cwd: string, wd: string, path: string)
    requires IsAbs(cwd)
    ensures CommonGuard(cwd, wd, path) ==
      Ok(Resolved(cwd, wd).slashes == 1 && Resolved(cwd, wd).parts <= Resolved(cwd, Join(wd, path)).parts)
  {
    var W, T := Resolved(cwd, wd), Resolved(cwd, Join(wd, path));
    AbsPathShape(cwd, wd);
    AbsPathShape(cwd, Join(wd, path));
    CommonOfRendered(T, W);
    var common := CommonPrefix(T.parts, W.parts);
    CommonPrefixWhole(T.parts, W.parts);
    CommonIsWhole(common, W);
  }

  /** commonpath of two rendered absolute paths is "/" and the names they
      share at the front. */
  lemma CommonOfRendered(T: NormalPath, W: NormalPath)
    requires 1 <= T.slashes <= 2 && AllNames(T.parts)
    requires 1 <= W.slashes <= 2 && AllNames(W.parts)
    ensures CommonPath(Render(T), Render(W)) == Ok("/" + JoinWith(CommonPrefix(T.parts, W.parts)))
    ensures AllNames(CommonPrefix(T.parts, W.parts))
  {
    assert Render(T)[0] == '/' && Render(W)[0] == '/';
    assert IsAbs(Render(T)) && IsAbs(Render(W));
    ComponentsOfRender(W);
    ComponentsOfRender(T);
    var common := CommonPrefix(T.parts, W.parts);
    CommonPrefixWhole(T.parts, W.parts);
    forall i | 0 <= i < |common|
      ensures IsName(common[i])
    {
      assert common[i] == T.parts[i];
    }
  }

  /** "/" and a prefix of the working directory's names render as the
      working directory exactly when it has one leading slash and the
      prefix is all of its names. */
  lemma CommonIsWhole(common: seq<string>, W: NormalPath)
    requires AllNames(common) && 1 <= W.slashes <= 2 && AllNames(W.parts)
    ensures ("/" + JoinWith(common) == Render(W)) <==> (W.slashes == 1 && common == W.parts)
  {
    var w := Render(W);
    if W.slashes == 1 {
      assert w == "/" + JoinWith(W.parts);
      if "/" + JoinWith(common) == w {
        assert JoinWith(common) == ("/" + JoinWith(common))[1..] == w[1..] == JoinWith(W.parts);
        JoinWithInjective(common, W.parts);
      }
    } else {
      assert w == "/" + ("/" + JoinWith(W.parts));
      if common != [] {
        JoinWithHead(common);
        assert ("/" + JoinWith(common))[1] != w[1];
      } else {
        assert |"/" + JoinWith(common)| < |w|;
      }
    }
  }

  /** The string-prefix test of get_file_content and get_files_info, for
      paths rendered with a single leading slash, accepts exactly the
      targets described by WithinByPrefix. */
  lemma PrefixGuardExact(cwd: string, wd: string, path: string)
    requires IsAbs(cwd)
    requires Resolved(cwd, wd).slashes == 1 && Resolved(cwd, Join(wd, path)).slashes == 1
    ensures PrefixGuard(cwd, wd, path) <==>
      WithinByPrefix(Resolved(cwd, wd).parts, Resolved(cwd, Join(wd, path)).parts)
  {
    var W, T := Resolved(cwd, wd), Resolved(cwd, Join(wd, path));
    AbsPathShape(cwd, wd);
    AbsPathShape(cwd, Join(wd, path));
    assert AbsPath(cwd, wd) == "/" + JoinWith(W.parts);
    assert AbsPath(cwd, Join(wd, path)) == "/" + JoinWith(T.parts);
    StartsWithSameHead("/", JoinWith(T.parts), JoinWith(W.parts));
    if W.parts != [] {
      JoinWithStartsWith(T.parts, W.parts);
    }
  }

  lemma JoinSingleRooted(a: string, b: string)
    requires InitialSlashes(a) == 1 && !IsAbs(b)
    ensures InitialSlashes(Join(a, b)) == 1
  {
    var j := Join(a, b);
    SingleSlashChars(a);
    SingleSlashChars(j);
    if |a| >= 3 {
      assert j[0] == a[0] && j[1] == a[1] && j[2] == a[2];
    } else if |a| == 2 {
      assert j[0] == a[0] && j[1] == a[1];
    } else {
      assert j == "/" + b;
      if b != [] {
        assert j[1] == b[0];
      }
    }
  }

  /** One leading slash, in terms of the first three characters. */
  lemma SingleSlashChars(p: string)
    ensures InitialSlashes(p) == 1 <==>
      |p| >= 1 && p[0] == '/' && (|p| == 1 || p[1] != '/' || (|p| >= 3 && p[2] == '/'))
  {
    if |p| >= 3 {
      assert p[..3] == [p[0], p[1], p[2]] && p[..2] == [p[0], p[1]] && p[..1] == [p[0]];
    } else if |p| == 2 {
      assert p[..2] == [p[0], p[1]] && p[..1] == [p[0]];
    } else if |p| == 1 {
      assert p[..1] == [p[0]];
    }
  }

  /** With a current directory, working directory and path none of which is
      spelled with exactly two leading slashes, both absolute paths have a
      single leading slash. */
  lemma SingleRootedInputs(cwd: string, wd: string, path: string)
    requires InitialSlashes(cwd) == 1
    requires IsAbs(wd) ==> InitialSlashes(wd) == 1
    requires IsAbs(path) ==> InitialSlashes(path) == 1
    ensures Resolved(cwd, wd).slashes == 1 && Resolved(cwd, Join(wd, path)).slashes == 1
  {
    SingleRootedAbsInputs(cwd, wd, path);
  }

  lemma SingleRootedAbsInputs(cwd: string, wd: string, path: string)
    requires InitialSlashes(cwd) == 1
    requires IsAbs(wd) ==> InitialSlashes(wd) == 1
    requires IsAbs(path) ==> InitialSlashes(path) == 1
    ensures InitialSlashes(AbsInput(cwd, wd)) == 1 && InitialSlashes(AbsInput(cwd, Join(wd, path))) == 1
  {
    if !IsAbs(wd) {
      JoinSingleRooted(cwd, wd);
    }
    var j := Join(wd, path);
    if !IsAbs(path) {
      if IsAbs(wd) {
        JoinSingleRooted(wd, path);
      } else {
        if wd != "" {
          assert j[..1] == j[..|wd|][..1];
        }
        JoinSingleRooted(cwd, j);
      }
    }
  }

  /** Whatever run_python_file accepts, get_file_content would accept too,
      for a target whose abspath keeps a single leading slash. */
  lemma CommonGuardImpliesPrefixGuard(cwd: string, wd: string, path: string)
    requires IsAbs(cwd) && Resolved(cwd, Join(wd, path)).slashes == 1
    requires CommonGuard(cwd, wd, path) == Ok(true)
    ensures PrefixGuard(cwd, wd, path)
  {
    CommonGuardExact(cwd, wd, path);
    PrefixGuardExact(cwd, wd, path);
    PrefixIsWithin(Resolved(cwd, wd).parts, Resolved(cwd, Join(wd, path)).parts);
  }

  /** A component-wise prefix passes the string-prefix test. */
  lemma PrefixIsWithin(w: seq<string>, t: seq<string>)
    requires w <= t
    ensures WithinByPrefix(w, t)
  {
    if w != [] {
      assert w[..|w| - 1] == t[..|w| - 1];
      assert t[|w| - 1] == w[|w| - 1];
      assert t[|w| - 1][..|w[|w| - 1]|] == w[|w| - 1];
    }
  }

  /** The converse fails exactly for siblings: a target whose component at
      the working directory's depth merely starts with the working
      directory's last name passes the string test and fails commonpath. */
  lemma SiblingSplitsTheGuards(cwd: string, wd: string, path: string)
    requires IsAbs(cwd)
    requires Resolved(cwd, wd).slashes == 1 && Resolved(cwd, Join(wd, path)).slashes == 1
    requires var w, t := Resolved(cwd, wd).parts, Resolved(cwd, Join(wd, path)).parts;
      w != [] && |w| <= |t| && w[..|w| - 1] == t[..|w| - 1]
      && StartsWith(t[|w| - 1], w[|w| - 1]) && t[|w| - 1] != w[|w| - 1]
    ensures PrefixGuard(cwd, wd, path)
    ensures CommonGuard(cwd, wd, path) == Ok(false)
  {
    CommonGuardExact(cwd, wd, path);
    PrefixGuardExact(cwd, wd, path);
  }

  /** The guards also differ in the other direction. normpath keeps two
      leading slashes, so "//<cwd>/<rest>" passes the commonpath test,
      whose filter drops the empty components, but fails the string-prefix
      test: its second character is '/' where the current directory has a
      name. */
  lemma DoubleSlashSplitsTheGuards(home: seq<string>, rest: seq<string>, cwd: string, path: string)
    requires home != [] && AllNames(home) && rest != [] && AllNames(rest)
    requires cwd == "/" + JoinWith(home) && path == "/" + ("/" + JoinWith(home + rest))
    ensures CommonGuard(cwd, ".", path) == Ok(true)
    ensures !PrefixGuard(cwd, ".", path)
  {
    DoubleSlashResolved(home, rest);
    assert home <= home + rest;
    assert cwd[..1] == "/";
    CommonGuardExact(cwd, ".", path);
    AbsPathRendered(cwd, ".");
    AbsPathRendered(cwd, Join(".", path));
    TwoSlashesNotUnderOne(home, home + rest);
  }

  /** The working directory "." and the target "//<cwd>/<rest>", resolved. */
  lemma DoubleSlashResolved(home: seq<string>, rest: seq<string>)
    requires home != [] && AllNames(home) && rest != [] && AllNames(rest)
    ensures AllNames(home + rest)
    ensures var cwd, path := "/" + JoinWith(home), "/" + ("/" + JoinWith(home + rest));
      && Resolved(cwd, ".") == NormalPath(1, home)
      && Resolved(cwd, Join(".", path)) == NormalPath(2, home + rest)
  {
    var cwd, path := "/" + JoinWith(home), "/" + ("/" + JoinWith(home + rest));
    var names := home + rest;
    forall i | 0 <= i < |names| ensures IsName(names[i]) {
      if i < |home| { assert names[i] == home[i]; } else { assert names[i] == rest[i - |home|]; }
    }
    assert path[..1] == "/";
    DoubleRootedNames(names);
    AbsolutePathIgnoresWd(cwd, ".", path);
    assert JoinWith(["."]) == ".";
    ResolvedUnder(home, ["."]);
    assert Fold(true, home, ["."]) == home;
  }

  /** abspath is the rendering of the resolved form. */
  lemma AbsPathRendered(cwd: string, p: string)
    ensures AbsPath(cwd, p) == Render(Resolved(cwd, p))
  {
    NormPathRender(AbsInput(cwd, p));
  }

  /** A path rendered with two leading slashes does not string-start-with
      one rendered with a single slash and at least one name. */
  lemma TwoSlashesNotUnderOne(w: seq<string>, t: seq<string>)
    requires w != [] && AllNames(w) && AllNames(t)
    ensures !StartsWith(Render(NormalPath(2, t)), Render(NormalPath(1, w)))
  {
    JoinWithHead(w);
    var jt, jw := JoinWith(t), JoinWith(w);
    assert Slashes(1) == "/" && Slashes(2) == "/" + "/";
    var a, b := "/" + ("/" + jt), "/" + jw;
    assert Render(NormalPath(2, t)) == a;
    assert Render(NormalPath(1, w)) == b;
    assert a[1] == '/' && b[1] == jw[0];
  }

  /** Under "/home", the target "//home/x" is run but not read. */
  lemma DoubleSlashExample()
    ensures CommonGuard("/home", ".", "//home/x") == Ok(true)
    ensures !PrefixGuard("/home", ".", "//home/x")
  {
    var home, rest := ["home"], ["x"];
    assert IsName("home") && IsName("x");
    assert JoinWith(home) == "home";
    assert JoinWith(home + rest) == "home/x" by {
      assert home + rest == ["home", "x"];
    }
    assert "/" + JoinWith(home) == "/home";
    assert "/" + ("/" + JoinWith(home + rest)) == "//home/x";
    DoubleSlashSplitsTheGuards(home, rest, "/home", "//home/x");
  }

  /** An absolute path makes join drop the working directory, so the test
      compares the path itself with the working directory. */
  lemma AbsolutePathIgnoresWd(cwd: string, wd: string, path: string)
    requires IsAbs(path)
    ensures AbsPath(cwd, Join(wd, path)) == NormPath(path)
    ensures Resolved(cwd, Join(wd, path)) == Normalize(path)
  {
  }

  // ---- the working directory main.py injects ----

  /** A current directory made of names is "/"-joined after a leading "",
      and does not end in '/'. */
  lemma RootedShape(home: seq<string>)
    requires home != [] && AllNames(home)
    ensures var cwd := "/" + JoinWith(home);
      cwd == JoinWith([""] + home) && cwd != [] && cwd[|cwd| - 1] != '/'
  {
    var last := home[|home| - 1];
    assert IsName(last);
    JoinWithLast(home);
    assert last[|last| - 1] != '/' by {
      assert last[|last| - 1] in last;
    }
    JoinWithCons("", home);
  }

  /** Joined parts whose first part is a slash-free name are relative. */
  lemma RelativeShape(rel: seq<string>)
    requires rel != [] && rel[0] != "" && '/' !in rel[0]
    ensures var j := JoinWith(rel); j != [] && j[0] != '/' && !IsAbs(j)
  {
    JoinWithFirst(rel);
    assert rel[0][0] != '/' by {
      assert rel[0][0] in rel[0];
    }
    var j := JoinWith(rel);
    assert j[..1][0] == j[0];
  }

  /** abspath of a relative path under an absolute current directory made of
      names is the '/'-join of "", the directory's names and the path's. */
  lemma ResolvedUnderInput(home: seq<string>, rel: seq<string>)
    requires home != [] && AllNames(home)
    requires rel != [] && rel[0] != "" && '/' !in rel[0]
    ensures AbsInput("/" + JoinWith(home), JoinWith(rel)) == JoinWith([""] + home + rel)
  {
    var cwd, j := "/" + JoinWith(home), JoinWith(rel);
    RootedShape(home);
    RelativeShape(rel);
    JoinInserts(cwd, j);
    assert AbsInput(cwd, j) == cwd + "/" + j;
    JoinWithAppend([""] + home, rel);
  }

  lemma ResolvedUnderPlain(home: seq<string>, rel: seq<string>)
    requires AllNames(home)
    requires forall i | 0 <= i < |rel| :: '/' !in rel[i]
    ensures forall i | 0 <= i < |[""] + home + rel| :: '/' !in ([""] + home + rel)[i]
  {
    RootedPartsPlain(home);
    var parts := [""] + home + rel;
    forall i | 0 <= i < |parts|
      ensures '/' !in parts[i]
    {
      if i <= |home| {
        assert parts[i] == ([""] + home)[i];
      } else {
        assert parts[i] == rel[i - 1 - |home|];
      }
    }
  }

  lemma FoldUnder(home: seq<string>, rel: seq<string>)
    requires AllNames(home)
    ensures Fold(true, [], [""] + home + rel) == Fold(true, home, rel)
  {
    FoldAppend(true, [], [""] + home, rel);
    FoldAppend(true, [], [""], home);
    FoldNames(true, [], home);
    assert [] + home == home;
  }

  /** abspath of a relative path under an absolute current directory made of
      names: normpath's loop continues from the current directory's names. */
  lemma ResolvedUnder(home: seq<string>, rel: seq<string>)
    requires home != [] && AllNames(home)
    requires rel != [] && rel[0] != "" && forall i | 0 <= i < |rel| :: '/' !in rel[i]
    ensures Resolved("/" + JoinWith(home), JoinWith(rel)) == NormalPath(1, Fold(true, home, rel))
  {
    ResolvedUnderInput(home, rel);
    ResolvedUnderPlain(home, rel);
    var parts := [""] + home + rel;
    assert IsName(home[0]);
    assert parts[1] == home[0];
    NormalizeJoined(parts);
    FoldUnder(home, rel);
  }

  /** main.py's working directory "./<d>" under the current directory. */
  lemma SandboxResolved(home: seq<string>, d: string)
    requires home != [] && AllNames(home) && IsName(d)
    ensures Resolved("/" + JoinWith(home), "./" + d) == NormalPath(1, home + [d])
  {
    JoinWithCons(".", [d]);
    assert "./" + d == JoinWith([".", d]);
    ResolvedUnder(home, [".", d]);
    assert IsName(d);
    assert Fold(true, home, [".", d]) == Fold(true, home, [d]) == Fold(true, home + [d], []);
  }

  lemma ExtendedName(d: string, x: string)
    requires IsName(d) && '/' !in x
    ensures IsName(d + x)
  {
    var dx := d + x;
    assert dx[0] == d[0];
    assert forall c | c in dx :: c in d || c in x;
    if |d| == 1 {
      assert dx != "." && dx != "..";
    }
  }

  /** The working directory "./<d>" and the joined target
      "./<d>/../<n>/<f>" as '/'-joined components. */
  lemma SiblingInputs(d: string, n: string, f: string)
    requires IsName(d) && IsName(n) && IsName(f)
    ensures "./" + d == JoinWith([".", d])
    ensures Join("./" + d, "../" + n + "/" + f) == JoinWith([".", d, "..", n, f])
  {
    var wd, path := "./" + d, "../" + n + "/" + f;
    JoinWithCons(".", [d]);
    JoinWithCons(n, [f]);
    JoinWithCons("..", [n, f]);
    assert path == JoinWith(["..", n, f]);
    assert d[|d| - 1] in d;
    JoinInserts(wd, path);
    JoinWithAppend([".", d], ["..", n, f]);
    assert [".", d] + ["..", n, f] == [".", d, "..", n, f];
  }

  /** "./<d>/../<n>/<f>" under the current directory: the ".." cancels d. */
  lemma SiblingFolds(home: seq<string>, d: string, n: string, f: string)
    requires AllNames(home) && IsName(d) && IsName(n) && IsName(f)
    ensures Fold(true, home, [".", d, "..", n, f]) == home + [n, f]
  {
    assert [".", d, "..", n, f][1..] == [d, ".."] + [n, f];
    UpCancelsName(true, home, d, [n, f]);
    FoldNames(true, home, [n, f]);
  }

  /** The working directory "./<d>" and the sibling target
      "../<d><x>/<f>", resolved under the current directory. */
  lemma SiblingResolved(home: seq<string>, d: string, x: string, f: string)
    requires home != [] && AllNames(home) && IsName(d) && IsName(f)
    requires x != [] && '/' !in x
    ensures IsName(d + x)
    ensures Resolved("/" + JoinWith(home), "./" + d) == NormalPath(1, home + [d])
    ensures Resolved("/" + JoinWith(home), Join("./" + d, "../" + d + x + "/" + f))
         == NormalPath(1, home + [d + x, f])
  {
    var cwd, dx := "/" + JoinWith(home), d + x;
    ExtendedName(d, x);
    var path := "../" + dx + "/" + f;
    assert "../" + d + x + "/" + f == path;
    var rel := [".", d, "..", dx, f];
    SiblingInputs(d, dx, f);
    var j := Join("./" + d, path);
    assert j == JoinWith(rel);
    assert '/' !in "." && '/' !in "..";
    forall i | 0 <= i < |rel|
      ensures '/' !in rel[i]
    {
      assert rel[i] == "." || rel[i] == d || rel[i] == ".." || rel[i] == dx || rel[i] == f;
    }
    ResolvedUnder(home, rel);
    SiblingFolds(home, d, dx, f);
    assert Resolved(cwd, j) == NormalPath(1, home + [dx, f]);
    SandboxResolved(home, d);
  }

  /** main.py hands every tool the working directory "./calculator", a
      subdirectory `d` of the current directory. A sibling directory whose
      name extends `d` (such as "calculatorX") is reached by
      "../<d><x>/<f>": get_file_content's string test lets it through, and
      run_python_file's commonpath test stops it. */
  lemma SiblingExample(home: seq<string>, d: string, x: string, f: string)
    requires home != [] && AllNames(home) && IsName(d) && IsName(f)
    requires x != [] && '/' !in x
    ensures PrefixGuard("/" + JoinWith(home), "./" + d, "../" + d + x + "/" + f)
    ensures CommonGuard("/" + JoinWith(home), "./" + d, "../" + d + x + "/" + f) == Ok(false)
    ensures Resolved("/" + JoinWith(home), Join("./" + d, "../" + d + x + "/" + f))
         == NormalPath(1, home + [d + x, f])
  {
    var cwd, wd, path := "/" + JoinWith(home), "./" + d, "../" + d + x + "/" + f;
    SiblingResolved(home, d, x, f);
    var w, t := home + [d], home + [d + x, f];
    assert w[..|w| - 1] == t[..|w| - 1];
    assert t[|w| - 1] == d + x;
    assert (d + x)[..|d|] == d;
    assert cwd[..1] == "/";
    SiblingSplitsTheGuards(cwd, wd, path);
  }

  /** An absolute path whose first name differs from the current
      directory's (such as "/etc/passwd" under "/home/user") is refused by
      both tests. */
  lemma ForeignRootRejected(home: seq<string>, d: string, other: seq<string>)
    requires home != [] && AllNames(home) && IsName(d)
    requires other != [] && AllNames(other) && other[0] != home[0]
    ensures !PrefixGuard("/" + JoinWith(home), "./" + d, "/" + JoinWith(other))
    ensures CommonGuard("/" + JoinWith(home), "./" + d, "/" + JoinWith(other)) == Ok(false)
  {
    var cwd, wd, path := "/" + JoinWith(home), "./" + d, "/" + JoinWith(other);
    assert path[..1] == "/" && cwd[..1] == "/";
    AbsolutePathIgnoresWd(cwd, wd, path);
    RootedNames(other);
    SandboxResolved(home, d);
    var w := home + [d];
    PrefixGuardExact(cwd, wd, path);
    CommonGuardExact(cwd, wd, path);
    assert w[..|w| - 1][0] == home[0];
  }

  /** A relative path made of names under "./<d>" is accepted by both
      tests. */
  lemma NamesInsideAccepted(home: seq<string>, d: string, names: seq<string>)
    requires home != [] && AllNames(home) && IsName(d)
    requires names != [] && AllNames(names)
    ensures PrefixGuard("/" + JoinWith(home), "./" + d, JoinWith(names))
    ensures CommonGuard("/" + JoinWith(home), "./" + d, JoinWith(names)) == Ok(true)
  {
    var cwd, wd, path := "/" + JoinWith(home), "./" + d, JoinWith(names);
    InsideResolved(home, d, names);
    SandboxResolved(home, d);
    assert cwd[..1] == "/";
    CommonGuardExact(cwd, wd, path);
    assert home + [d] <= home + [d] + names;
    CommonGuardImpliesPrefixGuard(cwd, wd, path);
  }

  lemma InsideResolved(home: seq<string>, d: string, names: seq<string>)
    requires home != [] && AllNames(home) && IsName(d)
    requires names != [] && AllNames(names)
    ensures Resolved("/" + JoinWith(home), Join("./" + d, JoinWith(names)))
         == NormalPath(1, home + [d] + names)
  {
    InsideInput(d, names);
    ResolvedUnder(home, [".", d] + names);
    FoldAppend(true, home, [".", d], names);
    assert IsName(d);
    assert Fold(true, home, [".", d]) == Fold(true, home, [d]) == Fold(true, home + [d], []);
    FoldNames(true, home + [d], names);
  }

  lemma InsideInput(d: string, names: seq<string>)
    requires IsName(d) && names != [] && AllNames(names)
    ensures Join("./" + d, JoinWith(names)) == JoinWith([".", d] + names)
    ensures forall i | 0 <= i < |[".", d] + names| :: '/' !in ([".", d] + names)[i]
  {
    var wd, path := "./" + d, JoinWith(names);
    JoinWithCons(".", [d]);
    JoinWithHead(names);
    assert d[|d| - 1] in d;
    JoinInserts(wd, path);
    JoinWithAppend([".", d], names);
    var rel := [".", d] + names;
    forall i | 0 <= i < |rel|
      ensures '/' !in rel[i]
    {
      if i >= 2 {
        assert rel[i] == names[i - 2];
        assert IsName(names[i - 2]);
      }
    }
  }
}
