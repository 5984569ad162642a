/**
 * Character classes and string operations of the Python runtime that the
 * normalisers rely on: `str.isspace`, `str.strip`, the case mappings, decimal
 * rendering of integers, fixed-width zero padding and the code-point
 * (lexicographic) order in which Python compares strings.
 */
module Text {

  /** Python's `str.isspace` (and the regex class `\s`) for one character. */
  predicate IsSpace(c: char) {
    c == ' ' || ('\t' <= c <= '\r') || ('\U{1c}' <= c <= '\U{1f}')
    || c == '\U{85}' || c == '\U{a0}' || c == '\U{1680}'
    || ('\U{2000}' <= c <= '\U{200a}') || c == '\U{2028}' || c == '\U{2029}'
    || c == '\U{202f}' || c == '\U{205f}' || c == '\U{3000}'
  }

  predicate IsDigit(c: char) {
    '0' <= c <= '9'
  }

  predicate AllDigits(s: string) {
    forall k :: 0 <= k < |s| ==> IsDigit(s[k])
  }

  /** Upper-case letters of Basic Latin and Latin-1, plus U+0178. */
  predicate IsUpperChar(c: char) {
    ('A' <= c <= 'Z') || ('\U{c0}' <= c <= '\U{de}' && c != '\U{d7}') || c == '\U{178}'
  }

  /** Lower-case letters whose upper case is a single character of the range above. */
  predicate IsLowerChar(c: char) {
    ('a' <= c <= 'z') || ('\U{e0}' <= c <= '\U{fe}' && c != '\U{f7}') || c == '\U{ff}'
  }

  function ToUpperChar(c: char): (u: char)
    ensures IsLowerChar(c) ==> IsUpperChar(u)
    ensures !IsLowerChar(c) ==> u == c
    ensures IsSpace(u) <==> IsSpace(c)
  {
    if ('a' <= c <= 'z') || ('\U{e0}' <= c <= '\U{fe}' && c != '\U{f7}') then (c as int - 32) as char
    else if c == '\U{ff}' then '\U{178}'
    else c
  }

  function ToLowerChar(c: char): (l: char)
    ensures IsUpperChar(c) ==> IsLowerChar(l)
    ensures !IsUpperChar(c) ==> l == c
    ensures IsSpace(l) <==> IsSpace(c)
  {
    if ('A' <= c <= 'Z') || ('\U{c0}' <= c <= '\U{de}' && c != '\U{d7}') then (c as int + 32) as char
    else if c == '\U{178}' then '\U{ff}'
    else c
  }

  /** The two letter classes are disjoint, so a mapped letter is never of the class it came from. */
  lemma CaseMapsLeaveClass(c: char)
    ensures !IsLowerChar(ToUpperChar(c))
    ensures !IsUpperChar(ToLowerChar(c))
  {
  }

  /** `str.upper()` */
  function Upper(s: string): (r: string)
    ensures |r| == |s| && forall k :: 0 <= k < |s| ==> r[k] == ToUpperChar(s[k])
  {
    seq(|s|, k requires 0 <= k < |s| => ToUpperChar(s[k]))
  }

  /** `str.lower()` */
  function Lower(s: string): (r: string)
    ensures |r| == |s| && forall k :: 0 <= k < |s| ==> r[k] == ToLowerChar(s[k])
  {
    seq(|s|, k requires 0 <= k < |s| => ToLowerChar(s[k]))
  }

  /** `str.capitalize()`: first character upper case, the rest lower case. */
  function Capitalize(s: string): (r: string)
    ensures |r| == |s|
    ensures s != [] ==> r[0] == ToUpperChar(s[0])
    ensures forall k :: 1 <= k < |s| ==> r[k] == ToLowerChar(s[k])
  {
    if s == [] then [] else [ToUpperChar(s[0])] + Lower(s[1..])
  }

  /** Leading whitespace removed: `r` is a suffix of `s` and only spaces were dropped. */
  function TrimLeft(s: string): (r: string)
    ensures |r| <= |s| && r == s[|s| - |r|..]
    ensures forall k :: 0 <= k < |s| - |r| ==> IsSpace(s[k])
    ensures r == [] || !IsSpace(r[0])
  {
    if s != [] && IsSpace(s[0]) then TrimLeft(s[1..]) else s
  }

  /** Trailing whitespace removed: `r` is a prefix of `s` and only spaces were dropped. */
  function TrimRight(s: string): (r: string)
    ensures |r| <= |s| && r == s[..|r|]
    ensures forall k :: |r| <= k < |s| ==> IsSpace(s[k])
    ensures r == [] || !IsSpace(r[|r| - 1])
  {
    if s != [] && IsSpace(s[|s| - 1]) then TrimRight(s[..|s| - 1]) else s
  }

  /** `str.strip()` */
  function Strip(s: string): (r: string)
    ensures r == [] || (!IsSpace(r[0]) && !IsSpace(r[|r| - 1]))
    ensures |r| <= |TrimLeft(s)| && r == TrimLeft(s)[..|r|]
  {
    TrimRight(TrimLeft(s))
  }

  /** A string without surrounding whitespace is left alone by `strip`. */
  lemma StripNoOp(s: string)
    requires s == [] || (!IsSpace(s[0]) && !IsSpace(s[|s| - 1]))
    ensures Strip(s) == s
  {
  }

  lemma StripIdempotent(s: string)
    ensures Strip(Strip(s)) == Strip(s)
  {
    StripNoOp(Strip(s));
  }

  /** A string containing no whitespace at all is its own strip. */
  lemma StripNoSpaces(s: string)
    requires forall k :: 0 <= k < |s| ==> !IsSpace(s[k])
    ensures Strip(s) == s
  {
    StripNoOp(s);
  }

  /** Lower-casing keeps every whitespace character where it is, so it commutes with the trims. */
  lemma {:induction false} TrimLeftLower(s: string)
    ensures TrimLeft(Lower(s)) == Lower(TrimLeft(s))
    decreases |s|
  {
    if s != [] && IsSpace(s[0]) {
      assert Lower(s)[1..] == Lower(s[1..]);
      TrimLeftLower(s[1..]);
    }
  }

  lemma {:induction false} TrimRightLower(s: string)
    ensures TrimRight(Lower(s)) == Lower(TrimRight(s))
    decreases |s|
  {
    if s != [] && IsSpace(s[|s| - 1]) {
      assert Lower(s)[..|s| - 1] == Lower(s[..|s| - 1]);
      TrimRightLower(s[..|s| - 1]);
    }
  }

  lemma StripLower(s: string)
    ensures Strip(Lower(s)) == Lower(Strip(s))
  {
    TrimLeftLower(s);
    TrimRightLower(TrimLeft(s));
  }

  /** Lower-casing forgets any earlier case change. */
  lemma LowerAfterCase(s: string)
    ensures Lower(Upper(s)) == Lower(s)
    ensures Lower(Lower(s)) == Lower(s)
    ensures Lower(Capitalize(s)) == Lower(s)
  {
  }

  /**
   * A string of the same length as a stripped one, with whitespace at its
   * two ends exactly where the stripped one has it, is stripped too.
   */
  lemma SameEndsStripped(t: string, r: string)
    requires |r| == |t| && (t == [] || (!IsSpace(t[0]) && !IsSpace(t[|t| - 1])))
    requires r != [] ==> (IsSpace(r[0]) <==> IsSpace(t[0])) && (IsSpace(r[|r| - 1]) <==> IsSpace(t[|t| - 1]))
    ensures Strip(r) == r
  {
    StripNoOp(r);
  }

  /** Each case change is idempotent. */
  lemma CaseIdempotent(s: string)
    ensures Upper(Upper(s)) == Upper(s)
    ensures Lower(Lower(s)) == Lower(s)
    ensures Capitalize(Capitalize(s)) == Capitalize(s)
  {
  }

  /** `"  " in s` */
  predicate HasDoubleSpace(s: string) {
    exists k :: 0 <= k < |s| - 1 && s[k] == ' ' && s[k + 1] == ' '
  }

  /** The characters `str(n)` prints for a non-negative integer. */
  function DigitChar(d: nat): (c: char)
    requires d < 10
    ensures IsDigit(c)
  {
    ('0' as int + d) as char
  }

  function NatText(n: nat): (r: string)
    ensures r != [] && AllDigits(r)
    decreases n
  {
    if n < 10 then [DigitChar(n)] else NatText(n / 10) + [DigitChar(n % 10)]
  }

  /** `str(n)` for a Python int. */
  function IntText(n: int): (r: string)
    ensures r != []
    ensures forall k :: 0 <= k < |r| ==> IsDigit(r[k]) || r[k] == '-'
  {
    if n < 0 then "-" + NatText(-n) else NatText(n)
  }

  function Pow10(w: nat): (p: nat)
    ensures p >= 1
  {
    if w == 0 then 1 else 10 * Pow10(w - 1)
  }

  /** `f"{n:0{w}d}"` for `0 <= n < 10^w`: exactly `w` digits. */
  function Pad(n: nat, w: nat): (r: string)
    requires n < Pow10(w)
    ensures |r| == w && AllDigits(r)
  {
    if w == 0 then [] else Pad(n / 10, w - 1) + [DigitChar(n % 10)]
  }

  /** The number a string of decimal digits denotes. */
  function DigitsValue(s: string): (v: nat)
    requires AllDigits(s)
  {
    if s == [] then 0 else DigitsValue(s[..|s| - 1]) * 10 + (s[|s| - 1] as int - '0' as int)
  }

  /** Reading a padded number back gives the number. */
  lemma {:induction false} PadValue(n: nat, w: nat)
    requires n < Pow10(w)
    ensures DigitsValue(Pad(n, w)) == n
  {
    if w > 0 {
      var r := Pad(n, w);
      PadValue(n / 10, w - 1);
      assert r[..|r| - 1] == Pad(n / 10, w - 1);
    }
  }

  /** Python's `<` on strings: code-point lexicographic order. */
  predicate LexLt(a: string, b: string)
    decreases |a|
  {
    b != [] && (a == [] || a[0] < b[0] || (a[0] == b[0] && LexLt(a[1..], b[1..])))
  }

  lemma {:induction false} LexLtIrreflexive(a: string)
    ensures !LexLt(a, a)
    decreases |a|
  {
    if a != [] {
      LexLtIrreflexive(a[1..]);
    }
  }

  lemma {:induction false} LexLtTransitive(a: string, b: string, c: string)
    requires LexLt(a, b) && LexLt(b, c)
    ensures LexLt(a, c)
    decreases |a|
  {
    if a != [] && a[0] == b[0] && b[0] == c[0] {
      LexLtTransitive(a[1..], b[1..], c[1..]);
    }
  }

  lemma {:induction false} LexTrichotomy(a: string, b: string)
    ensures LexLt(a, b) || a == b || LexLt(b, a)
    decreases |a|
  {
    if a != [] && b != [] && a[0] == b[0] {
      LexTrichotomy(a[1..], b[1..]);
      if a[1..] == b[1..] {
        assert a == [a[0]] + a[1..] && b == [b[0]] + b[1..];
      }
    }
  }

  lemma LexLtAsymmetric(a: string, b: string)
    requires LexLt(a, b)
    ensures !LexLt(b, a)
  {
    if LexLt(b, a) {
      LexLtTransitive(a, b, a);
      LexLtIrreflexive(a);
    }
  }

  /** Comparing two concatenations whose first parts have equal length. */
  lemma {:induction false} LexConcat(x: string, y: string, u: string, v: string)
    requires |x| == |u|
    ensures LexLt(x + y, u + v) <==> LexLt(x, u) || (x == u && LexLt(y, v))
    decreases |x|
  {
    if x == [] {
      assert x + y == y && u + v == v;
    } else {
      assert u != [] && (u + v) != [] && (x + y) != [];
      assert (x + y)[0] == x[0] && (u + v)[0] == u[0];
      assert (x + y)[1..] == x[1..] + y && (u + v)[1..] == u[1..] + v;
      LexConcat(x[1..], y, u[1..], v);
      assert x == u <==> x[0] == u[0] && x[1..] == u[1..] by {
        if x[0] == u[0] && x[1..] == u[1..] {
          assert x == [x[0]] + x[1..] && u == [u[0]] + u[1..];
        }
      }
    }
  }

  /** Zero-padded numbers of one width sort as the numbers do. */
  lemma {:induction false} PadOrder(n: nat, m: nat, w: nat)
    requires n < Pow10(w) && m < Pow10(w)
    ensures LexLt(Pad(n, w), Pad(m, w)) <==> n < m
    ensures Pad(n, w) == Pad(m, w) <==> n == m
  {
    PadValue(n, w);
    PadValue(m, w);
    if w > 0 {
      var x, u := Pad(n / 10, w - 1), Pad(m / 10, w - 1);
      var dn, dm := DigitChar(n % 10), DigitChar(m % 10);
      PadOrder(n / 10, m / 10, w - 1);
      LexConcat(x, [dn], u, [dm]);
      assert LexLt([dn], [dm]) <==> n % 10 < m % 10 by {
        assert [dn][1..] == [] && [dm][1..] == [];
      }
      assert n == 10 * (n / 10) + n % 10;
      assert m == 10 * (m / 10) + m % 10;
    }
  }

  /** No element occurs twice. */
  predicate NoDup<T(==)>(s: seq<T>) {
    forall i, j :: 0 <= i < j < |s| ==> s[i] != s[j]
  }
}
