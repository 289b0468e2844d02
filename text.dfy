/** String helpers that mirror the Python built-ins the tools rely on:
    str.startswith / str.endswith, str.strip() with Python's notion of
    whitespace, and str() of integers and booleans. */
module Text {

  datatype Option<T> = None | Some(value: T)

  /** A value or the text of the exception that replaced it. */
  datatype Result<T> = Ok(value: T) | Err(message: string)

  predicate StartsWith(s: string, prefix: string) {
    |prefix| <= |s| && s[..|prefix|] == prefix
  }

  predicate EndsWith(s: string, suffix: string) {
    |suffix| <= |s| && s[|s| - |suffix|..] == suffix
  }

  /** Python's str.isspace() for a single character; no digit and no sign
      counts as whitespace. */
  predicate IsSpace(c: char)
    ensures IsSpace(c) ==> !('0' <= c <= '9') && c != '-'
  {
    c == ' ' || ('\t' <= c <= '\r') || ('\U{1C}' <= c <= '\U{1F}')
    || c == '\U{85}' || c == '\U{A0}' || c == '\U{1680}'
    || ('\U{2000}' <= c <= '\U{200A}') || c == '\U{2028}' || c == '\U{2029}'
    || c == '\U{202F}' || c == '\U{205F}' || c == '\U{3000}'
  }

  /** Every character is whitespace (vacuously true of ""). */
  predicate Blank(s: string) {
    forall i | 0 <= i < |s| :: IsSpace(s[i])
  }

  function LStrip(s: string): (r: string)
    ensures |r| <= |s| && r == s[|s| - |r|..]
    ensures r == [] || !IsSpace(r[0])
    ensures forall i | 0 <= i < |s| - |r| :: IsSpace(s[i])
    decreases |s|
  {
    if s != [] && IsSpace(s[0]) then
      var r := LStrip(s[1..]);
      assert s[1..][|s[1..]| - |r|..] == s[|s| - |r|..];
      r
    else s
  }

  function RStrip(s: string): (r: string)
    ensures |r| <= |s| && r == s[..|r|]
    ensures r == [] || !IsSpace(r[|r| - 1])
    ensures Blank(s[|r|..])
    decreases |s|
  {
    if s != [] && IsSpace(s[|s| - 1]) then
      var r := RStrip(s[..|s| - 1]);
      assert s[..|s| - 1][..|r|] == s[..|r|];
      assert s[|r|..] == s[..|s| - 1][|r|..] + [s[|s| - 1]];
      r
    else s
  }

  /** Python's str.strip() with no argument: empty exactly when `s` is all
      whitespace, and otherwise free of whitespace at both ends. */
  function Strip(s: string): (r: string)
    ensures r == [] <==> Blank(s)
    ensures r == [] || (!IsSpace(r[0]) && !IsSpace(r[|r| - 1]))
  {
    StripBlank(s);
    StripEnds(s);
    RStrip(LStrip(s))
  }

  lemma StripBlank(s: string)
    ensures RStrip(LStrip(s)) == [] <==> Blank(s)
  {
    var l := LStrip(s);
    RStripBlank(l);

  }

  lemma StripEnds(s: string)
    ensures var r := RStrip(LStrip(s)); r == [] || (!IsSpace(r[0]) && !IsSpace(r[|r| - 1]))
  {
    var l := LStrip(s);
    var r := RStrip(l);
    if r != [] {
      assert r[0] == l[0];
    }
  }

  lemma {:induction false} LStripBlank(s: string)
    ensures LStrip(s) == [] <==> Blank(s)
  {
    var r := LStrip(s);
    var k := |s| - |r|;
    if r != [] {
      assert !IsSpace(s[k]);
    }
  }

  lemma {:induction false} RStripBlank(s: string)
    ensures RStrip(s) == [] <==> Blank(s)
  {
    var r := RStrip(s);
    if r == [] {
      assert s[|r|..] == s;
    } else {
      assert !IsSpace(s[|r| - 1]);
    }
  }

  /** Stripping on the right leaves a prefix alone when what follows it still
      has a non-space character. */
  lemma {:induction false} RStripKeepsPrefix(x: string, y: string)
    requires !Blank(y)
    ensures RStrip(x + y) == x + RStrip(y)
    decreases |y|
  {
    if IsSpace(y[|y| - 1]) {
      var y' := y[..|y| - 1];
      assert (x + y)[..|x + y| - 1] == x + y';
      assert !Blank(y') by {
        var i :| 0 <= i < |y| && !IsSpace(y[i]);
        assert y'[i] == y[i];
      }
      RStripKeepsPrefix(x, y');
    } else {
      assert (x + y)[|x + y| - 1] == y[|y| - 1];
    }
  }

  /** Right-stripping does nothing to a text ending in a non-space. */
  lemma RStripNoop(s: string)
    requires s != [] && !IsSpace(s[|s| - 1])
    ensures RStrip(s) == s
  {
  }

  /** Left-stripping does nothing to a text starting with a non-space. */
  lemma LStripNoop(s: string)
    requires s != [] && !IsSpace(s[0])
    ensures LStrip(s) == s
  {
  }

  lemma StartsWithConcat(a: string, b: string)
    ensures StartsWith(a + b, a)
  {
    assert (a + b)[..|a|] == a;
  }

  lemma StartsWithAppend(s: string, p: string, x: string)
    requires StartsWith(s, p)
    ensures StartsWith(s + x, p)
  {
    assert (s + x)[..|p|] == s[..|p|];
  }

  lemma StartsWithPrepend(a: string, s: string, p: string)
    requires StartsWith(s, p)
    ensures StartsWith(a + s, a + p)
  {
    assert (a + s)[..|a + p|] == a + s[..|p|];
  }

  lemma ConcatAssoc(a: string, b: string, c: string)
    ensures a + b + c == a + (b + c)
  {
  }

  /** Texts that start with prefixes differing at a common position do
      not share those prefixes. */
  lemma StartsWithDiffers(s: string, p: string, q: string, i: nat)
    requires StartsWith(s, q) && i < |p| && i < |q| && p[i] != q[i]
    ensures !StartsWith(s, p)
  {
    assert s[..|q|][i] == s[i];
    if |p| <= |s| {
      assert s[..|p|][i] == s[i];
    }
  }

  // ---- lines ----

  /** The index just past the last newline of `s`, or 0 when there is none. */
  function LineStart(s: string): (r: nat)
    ensures r <= |s|
    ensures '\n' !in s[r..]
    ensures r > 0 ==> s[r - 1] == '\n'
    decreases |s|
  {
    if s == [] then 0
    else if s[|s| - 1] == '\n' then |s|
    else
      var r := LineStart(s[..|s| - 1]);
      assert s[r..] == s[..|s| - 1][r..] + [s[|s| - 1]];
      r
  }

  /** `s` cut after each newline, as str.splitlines(keepends=True) does for
      '\n'; a text ending in a newline is a sequence of whole lines. */
  function Lines(s: string): seq<string>
    decreases |s|
  {
    if s == [] then []
    else
      var j := LineStart(s[..|s| - 1]);
      Lines(s[..j]) + [s[j..]]
  }

  lemma {:induction false} LineStartAfter(a: string, x: string)
    requires a == [] || a[|a| - 1] == '\n'
    requires '\n' !in x
    ensures LineStart(a + x) == |a|
    decreases |x|
  {
    if x == [] {
      assert a + x == a;
    } else {
      assert (a + x)[..|a + x| - 1] == a + x[..|x| - 1];
      assert (a + x)[|a + x| - 1] == x[|x| - 1];
      LineStartAfter(a, x[..|x| - 1]);
    }
  }

  /** Appending a line whose only newline is its last character adds that
      line and nothing else. */
  lemma LinesAppend(a: string, x: string)
    requires a == [] || a[|a| - 1] == '\n'
    requires '\n' !in x
    ensures Lines(a + (x + "\n")) == Lines(a) + [x + "\n"]
  {
    var s := a + (x + "\n");
    assert s[..|s| - 1] == a + x;
    LineStartAfter(a, x);
    assert s[..|a|] == a;
    assert s[|a|..] == x + "\n";
  }

  // ---- str() of integers and booleans ----

  predicate IsDigit(c: char) {
    '0' <= c <= '9'
  }

  function DigitChar(d: nat): (c: char)
    requires d < 10
    ensures IsDigit(c) && c as int - '0' as int == d
  {
    "0123456789"[d]
  }

  /** Python's str() of a non-negative integer: decimal, no leading zeros. */
  function NatToString(n: nat): (r: string)
    ensures r != [] && forall i | 0 <= i < |r| :: IsDigit(r[i])
    ensures n > 0 <==> r[0] != '0'
    decreases n
  {
    if n < 10 then [DigitChar(n)] else NatToString(n / 10) + [DigitChar(n % 10)]
  }

  /** Value of a non-empty decimal digit string. */
  function DecimalValue(s: string): nat
    requires forall i | 0 <= i < |s| :: IsDigit(s[i])
    decreases |s|
  {
    if s == [] then 0
    else
      assert IsDigit(s[|s| - 1]);
      10 * DecimalValue(s[..|s| - 1]) + (s[|s| - 1] as int - '0' as int)
  }

  /** The decimal rendering reads back to the same number. */
  lemma {:induction false} NatToStringRoundTrip(n: nat)
    ensures DecimalValue(NatToString(n)) == n
    decreases n
  {
    if n >= 10 {
      var r := NatToString(n);
      assert r[..|r| - 1] == NatToString(n / 10);
      NatToStringRoundTrip(n / 10);
    }
  }

  /** A minus sign before the digits of `n`: the digits still read back as `n`. */
  lemma SignedDigits(n: nat)
    ensures var r := "-" + NatToString(n);
      && r[1..] == NatToString(n) && DecimalValue(r[1..]) == n
      && forall k | 0 <= k < |r| :: IsDigit(r[k]) || (k == 0 && r[k] == '-')
  {
    var d := NatToString(n);
    var r := "-" + d;
    assert r[1..] == d;
    NatToStringRoundTrip(n);
    assert forall k | 1 <= k < |r| :: r[k] == d[k - 1];
  }

  /** Python's str() of an int: a leading '-' for negatives. */
  function IntToString(i: int): (r: string)
    ensures r != [] && IsDigit(r[|r| - 1])
    ensures forall k | 0 <= k < |r| :: IsDigit(r[k]) || (k == 0 && r[k] == '-')
    ensures i < 0 <==> r[0] == '-'
    ensures i >= 0 ==> DecimalValue(r) == i
    ensures i < 0 ==> DecimalValue(r[1..]) == -i
  {
    if i < 0 then
      SignedDigits(-i);
      "-" + NatToString(-i)
    else
      NatToStringRoundTrip(i);
      NatToString(i)
  }

  /** Python's str() of a bool. */
  function BoolToString(b: bool): string {
    if b then "True" else "False"
  }

  /** Number of occurrences of `c` in `s`. */
  function Count(s: string, c: char): nat
    decreases |s|
  {
    if s == [] then 0 else Count(s[..|s| - 1], c) + (if s[|s| - 1] == c then 1 else 0)
  }

  lemma {:induction false} CountAppend(a: string, b: string, c: char)
    ensures Count(a + b, c) == Count(a, c) + Count(b, c)
    decreases |b|
  {
    if b == [] {
      assert a + b == a;
    } else {
      assert (a + b)[..|a + b| - 1] == a + b[..|b| - 1];
      CountAppend(a, b[..|b| - 1], c);
    }
  }

  lemma {:induction false} CountAbsent(s: string, c: char)
    requires c !in s
    ensures Count(s, c) == 0
    decreases |s|
  {
    if s != [] {
      assert s[..|s| - 1] + [s[|s| - 1]] == s;
      CountAbsent(s[..|s| - 1], c);
    }
  }
}
