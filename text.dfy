/**
 * The string operations the source relies on: Python's `str.strip()`,
 * `str.lower()` (ASCII letters only), `str.startswith`, `"\n".join`, `str(n)`
 * for integers and `int(s)` for decimal text.
 */
module Text {
  import opened Wrappers

  /** The characters Python's `str.isspace()` accepts, i.e. what `strip()` removes. */
  predicate IsSpace(c: char) {
    c == ' ' || c == '\t' || c == '\n' || c == '\r' || c == '\U{B}' || c == '\U{C}'
    || ('\U{1C}' <= c <= '\U{1F}') || c == '\U{85}' || c == '\U{A0}' || c == '\U{1680}'
    || ('\U{2000}' <= c <= '\U{200A}') || c == '\U{2028}' || c == '\U{2029}'
    || c == '\U{202F}' || c == '\U{205F}' || c == '\U{3000}'
  }

  predicate AllSpace(s: string) {
    forall i :: 0 <= i < |s| ==> IsSpace(s[i])
  }

  /** `s.lstrip()`: the longest suffix of `s` that does not start with whitespace. */
  function TrimStart(s: string): (r: string)
    ensures |r| <= |s| && r == s[|s| - |r|..]
    ensures AllSpace(s[..|s| - |r|])
    ensures r == [] || !IsSpace(r[0])
    ensures r == [] <==> AllSpace(s)
  {
    if |s| > 0 && IsSpace(s[0]) then
      var p := s[1..];
      var r := TrimStart(p);
      assert AllSpace(p) ==> AllSpace(s) by {
        if AllSpace(p) {
          forall i | 1 <= i < |s| ensures IsSpace(s[i]) { assert s[i] == p[i - 1]; }
        }
      }
      var pre := s[..|s| - |r|];
      assert AllSpace(pre) by {
        forall j | 0 <= j < |pre| ensures IsSpace(pre[j]) {
          if j > 0 { assert pre[j] == p[..|p| - |r|][j - 1]; }
        }
      }
      assert r == s[|s| - |r|..] by { assert p[|p| - |r|..] == s[|s| - |r|..]; }
      r
    else s
  }

  /** `s.rstrip()`: the longest prefix of `s` that does not end with whitespace. */
  function TrimEnd(s: string): (r: string)
    ensures |r| <= |s| && r == s[..|r|]
    ensures AllSpace(s[|r|..])
    ensures r == [] || !IsSpace(r[|r| - 1])
    ensures r == [] <==> AllSpace(s)
  {
    if |s| > 0 && IsSpace(s[|s| - 1]) then
      var p := s[..|s| - 1];
      var r := TrimEnd(p);
      assert AllSpace(p) ==> AllSpace(s) by {
        if AllSpace(p) {
          forall i | 0 <= i < |s| - 1 ensures IsSpace(s[i]) { assert s[i] == p[i]; }
        }
      }
      var post := s[|r|..];
      assert AllSpace(post) by {
        forall j | 0 <= j < |post| ensures IsSpace(post[j]) {
          if j < |p| - |r| { assert post[j] == p[|r|..][j]; }
        }
      }
      assert r == s[..|r|] by { assert p[..|r|] == s[..|r|]; }
      r
    else s
  }

  /** `s.strip()`. */
  function Trim(s: string): (r: string)
    ensures |r| <= |s|
    ensures r == [] || (!IsSpace(r[0]) && !IsSpace(r[|r| - 1]))
    ensures r == [] <==> AllSpace(s)
    ensures exists a, b :: 0 <= a <= b <= |s| && r == s[a..b] && AllSpace(s[..a]) && AllSpace(s[b..])
  {
    var t := TrimStart(s);
    var r := TrimEnd(t);
    assert t != [] ==> !AllSpace(t) by {
      if t != [] { assert !IsSpace(t[0]); }
    }
    assert r != [] ==> r[0] == t[0];
    var a := |s| - |t|;
    SliceOfSuffix(s, a, t, |r|);
    r
  }

  /** Cutting the suffix `t` of `s` at `n` cuts `s` itself at `a + n`. */
  lemma SliceOfSuffix(s: string, a: nat, t: string, n: nat)
    requires a <= |s| && t == s[a..] && n <= |t|
    ensures t[..n] == s[a..a + n] && t[n..] == s[a + n..]
  {
  }

  /** A text that neither starts nor ends with whitespace is its own `strip()`. */
  lemma {:induction false} TrimUnpadded(s: string)
    requires s == [] || (!IsSpace(s[0]) && !IsSpace(s[|s| - 1]))
    ensures Trim(s) == s
  {
    assert TrimStart(s) == s;
    if s != [] { assert s[|s| - 1] == TrimStart(s)[|s| - 1]; }
    assert TrimEnd(s) == s;
  }

  /** Whitespace around a text that neither starts nor ends with whitespace is what `strip()` removes. */
  lemma TrimPadded(w1: string, t: string, w2: string)
    requires AllSpace(w1) && AllSpace(w2)
    requires t != [] && !IsSpace(t[0]) && !IsSpace(t[|t| - 1])
    ensures Trim(w1 + t + w2) == t
  {
    assert w1 + t + w2 == w1 + (t + w2);
    assert (t + w2)[0] == t[0];
    TrimStartPadded(w1, t + w2);
    TrimEndPadded(t, w2);
  }

  /** Leading whitespace before a text that starts with something else is what `lstrip()` removes. */
  lemma TrimStartPadded(w: string, u: string)
    requires AllSpace(w) && u != [] && !IsSpace(u[0])
    ensures TrimStart(w + u) == u
  {
    var x := w + u;
    var r := TrimStart(x);
    var k := |x| - |r|;
    assert x[|w|] == u[0];
    assert r != [];
    assert r[0] == x[k];
    PaddingBound(x[..k], x, |w|);
    PaddingBound(w, x, k);
    assert x[|w|..] == u;
  }

  /** Trailing whitespace after a text that ends with something else is what `rstrip()` removes. */
  lemma TrimEndPadded(u: string, w: string)
    requires AllSpace(w) && u != [] && !IsSpace(u[|u| - 1])
    ensures TrimEnd(u + w) == u
  {
    var x := u + w;
    var r := TrimEnd(x);
    assert x[|u| - 1] == u[|u| - 1];
    assert r != [];
    assert r[|r| - 1] == x[|r| - 1];
    PaddingEnd(x[|r|..], x, |u| - 1);
    PaddingEnd(w, x, |r| - 1);
    assert x[..|u|] == u;
  }

  /** A character of `s` that is not whitespace lies past a whitespace-only prefix `p` of `s`. */
  lemma PaddingBound(p: string, s: string, k: nat)
    requires AllSpace(p) && p <= s && k < |s| && !IsSpace(s[k])
    ensures |p| <= k
  {
  }

  /** A character of `s` that is not whitespace lies before a whitespace-only suffix `q` of `s`. */
  lemma PaddingEnd(q: string, s: string, k: nat)
    requires AllSpace(q) && |q| <= |s| && q == s[|s| - |q|..] && k < |s| && !IsSpace(s[k])
    ensures k < |s| - |q|
  {
  }

  /** Python's `str.lower()` restricted to ASCII. */
  function LowerChar(c: char): (r: char)
    ensures !('A' <= r <= 'Z')
    ensures !('A' <= c <= 'Z') ==> r == c
    ensures 'A' <= c <= 'Z' ==> r as int == c as int + 32
  {
    if 'A' <= c <= 'Z' then (c as int + 32) as char else c
  }

  function Lower(s: string): (r: string)
    ensures |r| == |s|
    ensures forall i :: 0 <= i < |s| ==> r[i] == LowerChar(s[i])
  {
    if s == [] then [] else [LowerChar(s[0])] + Lower(s[1..])
  }

  predicate StartsWith(s: string, prefix: string) {
    |prefix| <= |s| && s[..|prefix|] == prefix
  }

  /** `sep.join(xs)`. */
  function Join(xs: seq<string>, sep: char): (r: string)
    ensures xs == [] ==> r == ""
    ensures |xs| == 1 ==> r == xs[0]
  {
    if xs == [] then "" else if |xs| == 1 then xs[0] else xs[0] + [sep] + Join(xs[1..], sep)
  }

  /** `s.split(sep)`: the pieces between separators; never empty. */
  function Split(s: string, sep: char): (r: seq<string>)
    ensures |r| >= 1
    decreases |s|
  {
    if sep !in s then [s]
    else
      var k := FirstIndex(s, sep);
      [s[..k]] + Split(s[k + 1..], sep)
  }

  function FirstIndex(s: string, c: char): (k: nat)
    requires c in s
    ensures k < |s| && s[k] == c && c !in s[..k]
  {
    if s[0] == c then 0 else 1 + FirstIndex(s[1..], c)
  }

  lemma {:induction false} FirstIndexIs(s: string, c: char, k: nat)
    requires k < |s| && s[k] == c && c !in s[..k]
    ensures FirstIndex(s, c) == k
  {
    if k > 0 {
      assert s[0] == s[..k][0];
      assert s[1..][..k - 1] == s[1..k];
      assert s[1..k] == s[..k][1..];
      FirstIndexIs(s[1..], c, k - 1);
    }
  }

  lemma SliceAround(a: string, c: char, b: string)
    ensures (a + [c] + b)[..|a|] == a && (a + [c] + b)[|a|] == c && (a + [c] + b)[|a| + 1..] == b
  {
  }

  /** Splitting at the first separator. */
  lemma SplitAt(s: string, sep: char, n: nat)
    requires n < |s| && s[n] == sep && sep !in s[..n]
    ensures Split(s, sep) == [s[..n]] + Split(s[n + 1..], sep)
  {
    FirstIndexIs(s, sep, n);
  }

  /** Splitting a join recovers the pieces when none contains the separator. */
  lemma {:induction false} SplitJoin(xs: seq<string>, sep: char)
    requires xs != []
    requires forall i :: 0 <= i < |xs| ==> sep !in xs[i]
    ensures Split(Join(xs, sep), sep) == xs
  {
    if |xs| > 1 {
      var rest := Join(xs[1..], sep);
      assert Split(Join(xs, sep), sep) == [xs[0]] + Split(rest, sep) by {
        assert Join(xs, sep) == xs[0] + [sep] + rest;
        assert sep !in xs[0];
        SliceAround(xs[0], sep, rest);
        SplitAt(xs[0] + [sep] + rest, sep, |xs[0]|);
      }
      assert Split(rest, sep) == xs[1..] by {
        forall i | 0 <= i < |xs[1..]| ensures sep !in xs[1..][i] {
          assert xs[1..][i] == xs[i + 1];
        }
        SplitJoin(xs[1..], sep);
      }
      assert xs == [xs[0]] + xs[1..];
    }
  }

  function DigitChar(d: nat): (c: char)
    requires d < 10
    ensures '0' <= c <= '9' && c as int - '0' as int == d
  {
    ('0' as int + d) as char
  }

  predicate IsDigit(c: char) { '0' <= c <= '9' }

  /** `str(n)` for a natural number: decimal digits, most significant first. */
  function Decimal(n: nat): (r: string)
    ensures |r| >= 1 && forall i :: 0 <= i < |r| ==> IsDigit(r[i])
  {
    if n < 10 then [DigitChar(n)] else Decimal(n / 10) + [DigitChar(n % 10)]
  }

  /** `str(i)` for an integer. */
  function IntToString(i: int): (r: string)
    ensures r != [] && !IsSpace(r[0]) && !IsSpace(r[|r| - 1])
  {
    if i < 0 then "-" + Decimal(-i) else Decimal(i)
  }

  /** The value of a run of decimal digits. */
  function DigitsValue(s: string): (n: nat)
    requires forall i :: 0 <= i < |s| ==> IsDigit(s[i])
  {
    if s == [] then 0
    else
      assert IsDigit(s[|s| - 1]);
      10 * DigitsValue(s[..|s| - 1]) + (s[|s| - 1] as int - '0' as int)
  }

  /**
   * Python's `int(s)` on a string: surrounding whitespace, one optional sign,
   * then at least one decimal digit; anything else raises `ValueError`.
   */
  function ParseInt(s: string): (r: Option<int>)
    ensures r.Some? ==> Trim(s) != []
  {
    ParseSigned(Trim(s))
  }

  /** `int(t)` on text without surrounding whitespace. */
  function ParseSigned(t: string): (r: Option<int>)
    ensures r.Some? ==> t != []
  {
    if t == [] then None
    else
      var digits := if t[0] == '-' || t[0] == '+' then t[1..] else t;
      if digits == [] || !(forall i :: 0 <= i < |digits| ==> IsDigit(digits[i])) then None
      else
        var v: int := DigitsValue(digits);
        Some(if t[0] == '-' then -v else v)
  }

  lemma {:induction false} DigitsOfDecimal(n: nat)
    ensures DigitsValue(Decimal(n)) == n
  {
    if n >= 10 {
      var d := Decimal(n);
      assert d[..|d| - 1] == Decimal(n / 10);
      DigitsOfDecimal(n / 10);
    }
  }

  /** `int(str(i)) == i`. */
  lemma ParseIntToString(i: int)
    ensures ParseInt(IntToString(i)) == Some(i)
  {
    var s := IntToString(i);
    TrimUnpadded(s);
    SignedToString(i);
  }

  lemma SignedToString(i: int)
    ensures ParseSigned(IntToString(i)) == Some(i)
  {
    var s := IntToString(i);
    var n: nat := if i < 0 then -i else i;
    var d := Decimal(n);
    DigitsOfDecimal(n);
    if i < 0 {
      assert s[0] == '-' && s[1..] == d by {
        assert s == "-" + d;
      }
    } else {
      assert s == d;
      assert d[0] != '-' && d[0] != '+' by {
        assert IsDigit(d[0]);
      }
    }
  }
}
