/** The Python string built-ins the core relies on: `in`, `split(sep)`,
    `split()`, `strip()`, `isupper()`, `isdigit()`, `lower()`, slicing, and
    the decimal renderings `str(int)`, `{:02d}` and `{:,.0f}` of integers.
    Strings are sequences of Unicode scalar values, as Python's are (up to
    lone surrogates, which a Python string may hold and a Dafny one may not). */
module PyStrings {
  import opened Wrappers

  // ---------------------------------------------------------------------
  // Occurrence, `in`, and leftmost search
  // ---------------------------------------------------------------------

  /** `pat` occurs in `s` starting at index `i`. */
  predicate OccursAt(s: string, pat: string, i: int) {
    0 <= i && i + |pat| <= |s| && s[i..i + |pat|] == pat
  }

  /** Python's `pat in s`. */
  predicate Contains(s: string, pat: string) {
    exists i :: 0 <= i <= |s| - |pat| && OccursAt(s, pat, i)
  }

  /** The leftmost occurrence of `pat` in `s` at or after `from`. */
  function Find(s: string, pat: string, from: nat): (r: Option<nat>)
    requires pat != []
    decreases |s| - from
    ensures r.Some? ==> from <= r.value && OccursAt(s, pat, r.value)
    ensures r.Some? ==> forall j :: from <= j < r.value ==> !OccursAt(s, pat, j)
    ensures r.None? ==> forall j :: from <= j ==> !OccursAt(s, pat, j)
  {
    if from + |pat| > |s| then None
    else if s[from..from + |pat|] == pat then Some(from)
    else Find(s, pat, from + 1)
  }

  /** `Contains` is decided by a search from the start. */
  lemma ContainsIffFound(s: string, pat: string)
    requires pat != []
    ensures Contains(s, pat) <==> Find(s, pat, 0).Some?
  {
    if Find(s, pat, 0).Some? {
      assert OccursAt(s, pat, Find(s, pat, 0).value);
    }
  }

  /** An occurrence inside a slice is an occurrence in the whole string. */
  lemma OccursInSlice(s: string, pat: string, a: nat, b: nat, k: int)
    requires a <= b <= |s|
    requires OccursAt(s[a..b], pat, k)
    ensures OccursAt(s, pat, a + k) && a + k + |pat| <= b
  {
    var u := s[a..b][k..k + |pat|];
    var v := s[a + k..a + k + |pat|];
    forall m | 0 <= m < |pat|
      ensures u[m] == v[m]
    {
    }
    assert u == v;
  }

  /** A string holding no occurrence that fits in `[a, b)` of `s` does not contain `pat`. */
  lemma SliceAvoids(s: string, pat: string, a: nat, b: nat)
    requires a <= b <= |s|
    requires forall j :: a <= j && j + |pat| <= b ==> !OccursAt(s, pat, j)
    ensures !Contains(s[a..b], pat)
  {
    if Contains(s[a..b], pat) {
      var k :| OccursAt(s[a..b], pat, k);
      OccursInSlice(s, pat, a, b, k);
    }
  }

  // ---------------------------------------------------------------------
  // str.split(sep) and sep.join(parts)
  // ---------------------------------------------------------------------

  /** The pieces of `s[from..]` cut at each non-overlapping occurrence of
      `sep`, scanning left to right. */
  function SplitFrom(s: string, sep: string, from: nat): (parts: seq<string>)
    requires sep != [] && from <= |s|
    decreases |s| - from
    ensures |parts| >= 1
  {
    match Find(s, sep, from)
    case None => [s[from..]]
    case Some(i) => [s[from..i]] + SplitFrom(s, sep, i + |sep|)
  }

  /** Python's `s.split(sep)` for a non-empty separator (an empty one raises). */
  function Split(s: string, sep: string): (parts: seq<string>)
    requires sep != []
    ensures |parts| >= 1
  {
    SplitFrom(s, sep, 0)
  }

  /** Python's `sep.join(parts)`. */
  function Join(parts: seq<string>, sep: string): string
    decreases |parts|
  {
    if parts == [] then []
    else if |parts| == 1 then parts[0]
    else parts[0] + sep + Join(parts[1..], sep)
  }

  /** A suffix is the concatenation of its consecutive slices. */
  lemma SliceThree<T>(s: seq<T>, a: nat, b: nat, c: nat)
    requires a <= b <= c <= |s|
    ensures s[a..] == s[a..b] + s[b..c] + s[c..]
  {
    assert s[a..] == s[a..b] + s[b..];
    assert s[b..] == s[b..c] + s[c..];
  }

  lemma {:induction false} SplitFromJoin(s: string, sep: string, from: nat)
    requires sep != [] && from <= |s|
    decreases |s| - from
    ensures Join(SplitFrom(s, sep, from), sep) == s[from..]
  {
    match Find(s, sep, from)
    case None =>
    case Some(i) =>
      var rest := SplitFrom(s, sep, i + |sep|);
      SplitFromJoin(s, sep, i + |sep|);
      var parts := [s[from..i]] + rest;
      assert SplitFrom(s, sep, from) == parts;
      assert |parts| >= 2 && parts[0] == s[from..i] && parts[1..] == rest;
      assert Join(parts, sep) == s[from..i] + sep + s[i + |sep|..];
      assert s[i..i + |sep|] == sep;
      SliceThree(s, from, i, i + |sep|);
  }

  /** Splitting loses nothing: joining the pieces back with the separator
      gives the original string. */
  lemma SplitJoin(s: string, sep: string)
    requires sep != []
    ensures Join(Split(s, sep), sep) == s
  {
    SplitFromJoin(s, sep, 0);
  }

  lemma {:induction false} SplitFromPartsAvoidSep(s: string, sep: string, from: nat)
    requires sep != [] && from <= |s|
    decreases |s| - from
    ensures forall k :: 0 <= k < |SplitFrom(s, sep, from)| ==> !Contains(SplitFrom(s, sep, from)[k], sep)
  {
    var parts := SplitFrom(s, sep, from);
    match Find(s, sep, from)
    case None =>
      SliceAvoids(s, sep, from, |s|);
      assert parts == [s[from..]];
      assert s[from..] == s[from..|s|];
    case Some(i) =>
      SliceAvoids(s, sep, from, i);
      SplitFromPartsAvoidSep(s, sep, i + |sep|);
      forall k | 0 <= k < |parts|
        ensures !Contains(parts[k], sep)
      {
        if k > 0 {
          assert parts[k] == SplitFrom(s, sep, i + |sep|)[k - 1];
        }
      }
  }

  /** No piece of a split contains the separator. */
  lemma SplitPartsAvoidSep(s: string, sep: string)
    requires sep != []
    ensures forall k :: 0 <= k < |Split(s, sep)| ==> !Contains(Split(s, sep)[k], sep)
  {
    SplitFromPartsAvoidSep(s, sep, 0);
  }

  /** The first two pieces of a split, located in the original string: the
      first ends at the leftmost occurrence `i`; when there is one, the second
      runs from just after it to the next occurrence or to the end. */
  lemma SplitFirstPieces(s: string, sep: string)
    requires sep != []
    ensures Find(s, sep, 0).None? ==> Split(s, sep) == [s]
    ensures Find(s, sep, 0).Some? ==>
              var i := Find(s, sep, 0).value;
              var j := Find(s, sep, i + |sep|);
              && |Split(s, sep)| >= 2
              && Split(s, sep)[0] == s[..i]
              && Split(s, sep)[1] == s[i + |sep|..if j.Some? then j.value else |s|]
  {
    assert s[0..] == s;
    if Find(s, sep, 0).Some? {
      var i := Find(s, sep, 0).value;
      assert Split(s, sep) == [s[..i]] + SplitFrom(s, sep, i + |sep|);
    }
  }

  /** Python's `sep in s` holds exactly when `s.split(sep)` has a second piece. */
  lemma ContainsIffSplitsInTwo(s: string, sep: string)
    requires sep != []
    ensures Contains(s, sep) <==> |Split(s, sep)| >= 2
  {
    ContainsIffFound(s, sep);
    SplitFirstPieces(s, sep);
  }

  // ---------------------------------------------------------------------
  // Whitespace, str.strip() and str.split()
  // ---------------------------------------------------------------------

  /** Python's `str.isspace` for one character: the characters `strip()` and
      `split()` treat as whitespace. */
  predicate IsSpace(c: char) {
    || c == ' '
    || ('\t' <= c <= '\r')
    || ('\U{1c}' <= c <= '\U{1f}')
    || c == '\U{85}' || c == '\U{a0}' || c == '\U{1680}'
    || ('\U{2000}' <= c <= '\U{200a}')
    || c == '\U{2028}' || c == '\U{2029}' || c == '\U{202f}' || c == '\U{205f}' || c == '\U{3000}'
  }

  /** `s` with its leading whitespace removed. */
  function TrimStart(s: string): string {
    if s != [] && IsSpace(s[0]) then TrimStart(s[1..]) else s
  }

  /** `s` with its trailing whitespace removed. */
  function TrimEnd(s: string): string {
    if s != [] && IsSpace(s[|s| - 1]) then TrimEnd(s[..|s| - 1]) else s
  }

  /** Trimming the front drops a whitespace prefix and stops at the first
      other character. */
  lemma {:induction false} TrimStartSpec(s: string)
    ensures var r := TrimStart(s);
            && |r| <= |s| && r == s[|s| - |r|..]
            && (forall k :: 0 <= k < |s| - |r| ==> IsSpace(s[k]))
            && (r != [] ==> !IsSpace(r[0]))
  {
    if s != [] && IsSpace(s[0]) {
      var t := s[1..];
      TrimStartSpec(t);
      var r := TrimStart(t);
      assert TrimStart(s) == r;
      assert t[|t| - |r|..] == s[|s| - |r|..];
      forall k | 0 <= k < |s| - |r|
        ensures IsSpace(s[k])
      {
        if k > 0 {
          assert s[k] == t[k - 1];
        }
      }
    }
  }

  /** Trimming the back drops a whitespace suffix and stops at the last
      other character. */
  lemma {:induction false} TrimEndSpec(s: string)
    ensures var r := TrimEnd(s);
            && |r| <= |s| && r == s[..|r|]
            && (forall k :: |r| <= k < |s| ==> IsSpace(s[k]))
            && (r != [] ==> !IsSpace(r[|r| - 1]))
  {
    if s != [] && IsSpace(s[|s| - 1]) {
      TrimEndSpec(s[..|s| - 1]);
    }
  }

  /** Python's `s.strip()`. */
  function Strip(s: string): string {
    TrimEnd(TrimStart(s))
  }

  /** `strip()` cuts only whitespace, and only at the two ends: the result is
      the slice `s[a..b]`, everything outside it is whitespace, and it
      neither starts nor ends with whitespace. */
  lemma StripIsSlice(s: string) returns (a: nat, b: nat)
    ensures a <= b <= |s| && Strip(s) == s[a..b]
    ensures forall k :: 0 <= k < a ==> IsSpace(s[k])
    ensures forall k :: b <= k < |s| ==> IsSpace(s[k])
    ensures Strip(s) != [] ==> !IsSpace(Strip(s)[0]) && !IsSpace(Strip(s)[|Strip(s)| - 1])
  {
    var t := TrimStart(s);
    TrimStartSpec(s);
    TrimEndSpec(t);
    a := |s| - |t|;
    b := a + |Strip(s)|;
    assert t == s[a..];
    assert Strip(s) == t[..|Strip(s)|];
    forall k | b <= k < |s|
      ensures IsSpace(s[k])
    {
      assert s[k] == t[k - a];
    }
  }

  /** The longest prefix of `s` free of whitespace. */
  function WordPrefix(s: string): (w: string)
    ensures |w| <= |s| && w == s[..|w|]
    ensures forall k :: 0 <= k < |w| ==> !IsSpace(w[k])
    ensures |w| < |s| ==> IsSpace(s[|w|])
  {
    if s == [] || IsSpace(s[0]) then [] else [s[0]] + WordPrefix(s[1..])
  }

  /** Python's `s.split()` with no argument: the maximal runs of
      non-whitespace characters, left to right. */
  function Words(s: string): (ws: seq<string>)
    decreases |s|
  {
    if s == [] then []
    else if IsSpace(s[0]) then Words(s[1..])
    else
      var w := WordPrefix(s);
      [w] + Words(s[|w|..])
  }

  /** The characters of `s` that are not whitespace, in order. */
  function NonSpace(s: string): string {
    if s == [] then [] else (if IsSpace(s[0]) then [] else [s[0]]) + NonSpace(s[1..])
  }

  /** The concatenation of a sequence of strings. */
  function Concat(ws: seq<string>): string {
    if ws == [] then [] else ws[0] + Concat(ws[1..])
  }

  lemma {:induction false} NonSpaceAppend(a: string, b: string)
    ensures NonSpace(a + b) == NonSpace(a) + NonSpace(b)
  {
    if a != [] {
      assert (a + b)[1..] == a[1..] + b;
      NonSpaceAppend(a[1..], b);
      var h := if IsSpace(a[0]) then [] else [a[0]];
      calc {
        NonSpace(a + b);
        h + NonSpace(a[1..] + b);
        h + (NonSpace(a[1..]) + NonSpace(b));
        (h + NonSpace(a[1..])) + NonSpace(b);
        NonSpace(a) + NonSpace(b);
      }
    } else {
      assert a + b == b;
    }
  }

  lemma {:induction false} NonSpaceOfWord(w: string)
    requires forall k :: 0 <= k < |w| ==> !IsSpace(w[k])
    ensures NonSpace(w) == w
  {
    if w != [] {
      NonSpaceOfWord(w[1..]);
    }
  }

  /** What `split()` promises: every word is non-empty and free of
      whitespace, and the words together hold exactly the non-whitespace
      characters of `s`, in order. */
  lemma {:induction false} WordsSpec(s: string)
    decreases |s|
    ensures forall k :: 0 <= k < |Words(s)| ==> Words(s)[k] != []
    ensures forall k, j :: 0 <= k < |Words(s)| && 0 <= j < |Words(s)[k]| ==> !IsSpace(Words(s)[k][j])
    ensures Concat(Words(s)) == NonSpace(s)
  {
    if s == [] {
    } else if IsSpace(s[0]) {
      WordsSpec(s[1..]);
    } else {
      var w := WordPrefix(s);
      var rest := s[|w|..];
      WordsSpec(rest);
      assert Words(s) == [w] + Words(rest);
      assert s == w + rest;
      NonSpaceAppend(w, rest);
      NonSpaceOfWord(w);
      assert ([w] + Words(rest))[1..] == Words(rest);
    }
  }

  /** A scope containing whitespace, or an empty one, is never one of the
      words `split()` returns. */
  lemma NoWordHasSpace(s: string, x: string)
    requires x == [] || exists j :: 0 <= j < |x| && IsSpace(x[j])
    ensures x !in Words(s)
  {
    WordsSpec(s);
  }

  // ---------------------------------------------------------------------
  // Character classes (ASCII), case and slicing
  // ---------------------------------------------------------------------

  predicate IsDigit(c: char) { '0' <= c <= '9' }
  predicate IsLowerLetter(c: char) { 'a' <= c <= 'z' }
  predicate IsUpperLetter(c: char) { 'A' <= c <= 'Z' }
  predicate IsCased(c: char) { IsLowerLetter(c) || IsUpperLetter(c) }

  /** Python's `s.isupper()`: at least one cased character, and none lower-case. */
  predicate IsUpper(s: string) {
    && (exists i :: 0 <= i < |s| && IsCased(s[i]))
    && (forall i :: 0 <= i < |s| ==> !IsLowerLetter(s[i]))
  }

  /** Python's `s.lower()`. */
  function Lower(s: string): (r: string)
    ensures |r| == |s|
    ensures forall i :: 0 <= i < |s| ==> r[i] == if IsUpperLetter(s[i]) then (s[i] as int + 32) as char else s[i]
  {
    if s == [] then []
    else [if IsUpperLetter(s[0]) then (s[0] as int + 32) as char else s[0]] + Lower(s[1..])
  }

  /** Python's `s[:n]`. */
  function Take(s: string, n: nat): (r: string)
    ensures |r| == if |s| <= n then |s| else n
    ensures r == s[..|r|]
  {
    if |s| <= n then s else s[..n]
  }

  /** Python's `s.endswith(suffix)`. */
  predicate EndsWith(s: string, suffix: string) {
    |suffix| <= |s| && s[|s| - |suffix|..] == suffix
  }

  // ---------------------------------------------------------------------
  // Integers as text
  // ---------------------------------------------------------------------

  function DigitChar(d: nat): (c: char)
    requires d < 10
    ensures IsDigit(c)
  {
    ('0' as int + d) as char
  }

  predicate AllDigits(s: string) {
    forall k :: 0 <= k < |s| ==> IsDigit(s[k])
  }

  /** The number a string of decimal digits stands for. */
  function DigitsValue(s: string): nat
    requires AllDigits(s)
  {
    if s == [] then 0 else DigitsValue(s[..|s| - 1]) * 10 + (s[|s| - 1] as int - '0' as int)
  }

  /** The decimal digits of `n`, most significant first, without leading zeros. */
  function Decimal(n: nat): (r: string)
    ensures |r| >= 1 && AllDigits(r)
  {
    if n < 10 then [DigitChar(n)] else Decimal(n / 10) + [DigitChar(n % 10)]
  }

  /** Reading the digits of `Decimal(n)` gives `n` back. */
  lemma {:induction false} DecimalValue(n: nat)
    ensures DigitsValue(Decimal(n)) == n
  {
    if n >= 10 {
      DecimalValue(n / 10);
      var d := Decimal(n);
      assert d[..|d| - 1] == Decimal(n / 10);
    }
  }

  /** Python's `str(n)` for an integer. */
  function IntStr(n: int): string {
    if n < 0 then "-" + Decimal(-n) else Decimal(n)
  }

  /** Python's `f"{n:02d}"` for a non-negative integer: at least two digits. */
  function Pad2(n: nat): (r: string)
    ensures |r| >= 2 && AllDigits(r)
  {
    if n < 10 then "0" + Decimal(n) else Decimal(n)
  }

  /** The zero-padded rendering still reads back as `n`. */
  lemma Pad2Value(n: nat)
    ensures DigitsValue(Pad2(n)) == n
  {
    DecimalValue(n);
    if n < 10 {
      assert Pad2(n)[..1] == "0";
    }
  }

  /** Distinct numbers get distinct zero-padded renderings. */
  lemma Pad2Injective(a: nat, b: nat)
    requires Pad2(a) == Pad2(b)
    ensures a == b
  {
    Pad2Value(a);
    Pad2Value(b);
  }

  /** `n` as exactly three digits, zero-padded (for `n < 1000`). */
  function Pad3(n: nat): (r: string)
    requires n < 1000
    ensures |r| == 3 && AllDigits(r)
  {
    [DigitChar(n / 100), DigitChar(n / 10 % 10), DigitChar(n % 10)]
  }

  /** The digits of a non-negative integer with a comma between every group
      of three, as `{:,.0f}` renders it. */
  function Grouped(n: nat): string
    decreases n
  {
    if n < 1000 then Decimal(n) else Grouped(n / 1000) + "," + Pad3(n % 1000)
  }

  // ---------------------------------------------------------------------
  // float(n): the `f` format converts an int to the nearest double first
  // ---------------------------------------------------------------------

  /** 2^53: every integer up to it is exactly a binary64 double. */
  const DoubleExact: nat := 9007199254740992

  predicate IsPowerOfTwo(u: nat)
    decreases u
  {
    u == 1 || (u >= 2 && u % 2 == 0 && IsPowerOfTwo(u / 2))
  }

  /** The gap between consecutive doubles around `n`: 1 below 2^53, and
      twice as wide in each binade above. */
  function Ulp(n: nat): (u: nat)
    decreases n
    ensures u >= 1
  {
    if n < DoubleExact then 1 else 2 * Ulp(n / 2)
  }

  /** `n` plus a dropped fraction, rounded to an integer with at most 53
      significant bits: `half` says the fraction is at least one half,
      `sticky` that it is neither 0 nor one half. Each step to the right
      drops one more bit into the fraction; once 53 bits remain, the
      significand rounds up past a half, and on a tie only when it is odd. */
  function RoundBits(n: nat, half: bool, sticky: bool): nat
    decreases n
  {
    if n < DoubleExact then
      if half && (sticky || n % 2 == 1) then n + 1 else n
    else 2 * RoundBits(n / 2, n % 2 == 1, half || sticky)
  }

  /** The significand `RoundBits` keeps. */
  function RoundedSignificand(n: nat, half: bool, sticky: bool): nat
    decreases n
  {
    if n < DoubleExact then
      if half && (sticky || n % 2 == 1) then n + 1 else n
    else RoundedSignificand(n / 2, n % 2 == 1, half || sticky)
  }

  /** The integer value of `float(n)` for `n >= 0`. */
  function ToDouble(n: nat): nat {
    RoundBits(n, false, false)
  }

  /** Python's `f"{n:,.0f}"` for an integer `n`: the integer value of
      `float(n)`, with a comma between every group of three digits. */
  function Money(n: int): string {
    if n < 0 then "-" + Grouped(ToDouble(-n)) else Grouped(ToDouble(n))
  }

  /** `d * k >= d` for a positive factor `k`. */
  lemma {:induction false} MulAtLeast(d: nat, k: nat)
    requires k >= 1
    decreases k
    ensures d * k >= d
  {
    if k > 1 {
      MulAtLeast(d, k - 1);
      assert d * k == d * (k - 1) + d;
    }
  }

  /** The quotient and remainder of Euclidean division are unique. */
  lemma DivUnique(n: nat, d: nat, t: nat, r: nat)
    requires d > 0 && r < d && n == d * t + r
    ensures n / d == t
  {
    var t', r' := n / d, n % d;
    assert n == d * t' + r';
    if t > t' {
      MulAtLeast(d, t - t');
    } else if t < t' {
      MulAtLeast(d, t' - t);
    }
  }

  /** Halving, then dividing by `u`, divides by `2 * u`. */
  lemma DivTwice(n: nat, u: nat)
    requires u >= 1
    ensures n / (2 * u) == (n / 2) / u
  {
    var q := n / 2;
    var t, r := q / u, q % u;
    assert q == u * t + r;
    assert n == 2 * q + n % 2;
    assert n == (2 * u) * t + (2 * r + n % 2);
    DivUnique(n, 2 * u, t, 2 * r + n % 2);
  }

  /** `Ulp(n)` is a power of two that leaves a quotient of exactly 53 bits
      above 2^53 and of at most 53 bits below. */
  lemma {:induction false} UlpSpec(n: nat)
    decreases n
    ensures IsPowerOfTwo(Ulp(n))
    ensures n / Ulp(n) < DoubleExact
    ensures n >= DoubleExact ==> n / Ulp(n) >= DoubleExact / 2
  {
    if n >= DoubleExact {
      UlpSpec(n / 2);
      var u := Ulp(n / 2);
      DivTwice(n, u);
      assert Ulp(n) == 2 * u;
      assert (2 * u) / 2 == u;
    }
  }

  lemma MulTwice(k: nat, u: nat)
    ensures k * (2 * u) == 2 * (k * u)
  {
  }

  /** Rounding keeps at most 53 significant bits and lands on a multiple
      of `Ulp(n)`. */
  lemma {:induction false} RoundBitsSignificand(n: nat, half: bool, sticky: bool)
    decreases n
    ensures RoundedSignificand(n, half, sticky) <= DoubleExact
    ensures RoundBits(n, half, sticky) == RoundedSignificand(n, half, sticky) * Ulp(n)
  {
    if n >= DoubleExact {
      var m, b := n / 2, n % 2 == 1;
      RoundBitsSignificand(m, b, half || sticky);
      var k, u := RoundedSignificand(m, b, half || sticky), Ulp(m);
      assert RoundedSignificand(n, half, sticky) == k && Ulp(n) == 2 * u;
      assert RoundBits(n, half, sticky) == 2 * RoundBits(m, b, half || sticky);
      MulTwice(k, u);
    } else {
      assert Ulp(n) == 1;
    }
  }

  /** Rounding `n + f` moves it by at most half of `Ulp(n)`. */
  lemma {:induction false} RoundBitsNearest(n: nat, half: bool, sticky: bool, f: real)
    requires 0.0 <= f < 1.0 && half == (f >= 0.5) && sticky == (f != 0.0 && f != 0.5)
    decreases n
    ensures 2.0 * (RoundBits(n, half, sticky) as real - (n as real + f)) <= Ulp(n) as real
    ensures 2.0 * ((n as real + f) - RoundBits(n, half, sticky) as real) <= Ulp(n) as real
  {
    if n >= DoubleExact {
      var m, b := n / 2, n % 2;
      var f' := (b as real + f) / 2.0;
      assert n as real == 2.0 * m as real + b as real;
      RoundBitsNearest(m, b == 1, half || sticky, f');
      assert Ulp(n) == 2 * Ulp(m);
      assert RoundBits(n, half, sticky) == 2 * RoundBits(m, b == 1, half || sticky);
    }
  }

  /** `float(n)` has a significand of at most 53 bits times `Ulp(n)`, is at
      most half a gap from `n`, and equals `n` for every `n` up to 2^53. */
  lemma ToDoubleNearest(n: nat)
    ensures RoundedSignificand(n, false, false) <= DoubleExact
    ensures ToDouble(n) == RoundedSignificand(n, false, false) * Ulp(n)
    ensures 2 * (ToDouble(n) - n) <= Ulp(n) && 2 * (n - ToDouble(n)) <= Ulp(n)
    ensures n <= DoubleExact ==> ToDouble(n) == n
  {
    RoundBitsSignificand(n, false, false);
    RoundBitsNearest(n, false, false, 0.0);
    if n == DoubleExact {
      assert ToDouble(n) == 2 * RoundBits(n / 2, false, false);
    }
  }

  /** Above 2^53 the conversion rounds: 2^53 + 1 becomes 2^53. */
  lemma ToDoubleRoundsPast2To53()
    ensures ToDouble(DoubleExact + 1) == DoubleExact
  {
    assert ToDouble(DoubleExact + 1) == 2 * RoundBits(DoubleExact / 2, true, false);
  }

  /** `s` with every comma removed. */
  function DropCommas(s: string): string {
    if s == [] then [] else (if s[0] == ',' then [] else [s[0]]) + DropCommas(s[1..])
  }

  lemma {:induction false} DropCommasAppend(a: string, b: string)
    ensures DropCommas(a + b) == DropCommas(a) + DropCommas(b)
  {
    if a != [] {
      assert (a + b)[1..] == a[1..] + b;
      DropCommasAppend(a[1..], b);
      var h := if a[0] == ',' then [] else [a[0]];
      calc {
        DropCommas(a + b);
        h + DropCommas(a[1..] + b);
        h + (DropCommas(a[1..]) + DropCommas(b));
        (h + DropCommas(a[1..])) + DropCommas(b);
        DropCommas(a) + DropCommas(b);
      }
    } else {
      assert a + b == b;
    }
  }

  lemma {:induction false} DropCommasOfDigits(s: string)
    requires AllDigits(s)
    ensures DropCommas(s) == s
  {
    if s != [] {
      DropCommasOfDigits(s[1..]);
    }
  }

  function Pow10(k: nat): nat {
    if k == 0 then 1 else 10 * Pow10(k - 1)
  }

  lemma ScaleByTen(x: int, p: int, v: int, d: int)
    ensures (x * p + v) * 10 + d == x * (p * 10) + (v * 10 + d)
  {
  }

  lemma {:induction false} DigitsValueAppend(a: string, b: string)
    requires AllDigits(a) && AllDigits(b)
    decreases |b|
    ensures AllDigits(a + b)
    ensures DigitsValue(a + b) == DigitsValue(a) * Pow10(|b|) + DigitsValue(b)
  {
    if b != [] {
      var b' := b[..|b| - 1];
      var ab := a + b;
      assert ab[..|ab| - 1] == a + b';
      assert ab[|ab| - 1] == b[|b| - 1];
      DigitsValueAppend(a, b');
      var d := b[|b| - 1] as int - '0' as int;
      var x, p, v := DigitsValue(a), Pow10(|b'|), DigitsValue(b');
      assert DigitsValue(ab) == DigitsValue(a + b') * 10 + d;
      assert DigitsValue(a + b') == x * p + v;
      assert DigitsValue(b) == v * 10 + d;
      assert Pow10(|b|) == p * 10;
      ScaleByTen(x, p, v, d);
    } else {
      assert a + b == a;
    }
  }

  lemma Pad3Value(n: nat)
    requires n < 1000
    ensures DigitsValue(Pad3(n)) == n
  {
    var p := Pad3(n);
    var p1 := [DigitChar(n / 100)];
    var p2 := [DigitChar(n / 100), DigitChar(n / 10 % 10)];
    assert p1[..0] == [];
    assert DigitsValue(p1) == n / 100;
    assert p2[..1] == p1;
    assert DigitsValue(p2) == (n / 100) * 10 + n / 10 % 10;
    assert p[..2] == p2;
    assert DigitsValue(p) == ((n / 100) * 10 + n / 10 % 10) * 10 + n % 10;
  }

  /** The thousands separators are only decoration: dropping the commas of
      `Grouped(n)` leaves a digit string that reads back as `n`. */
  lemma {:induction false} GroupedValue(n: nat)
    decreases n
    ensures AllDigits(DropCommas(Grouped(n)))
    ensures DigitsValue(DropCommas(Grouped(n))) == n
  {
    if n < 1000 {
      DropCommasOfDigits(Decimal(n));
      DecimalValue(n);
    } else {
      var q, r := n / 1000, n % 1000;
      GroupedValue(q);
      assert Grouped(n) == Grouped(q) + ("," + Pad3(r));
      DropCommasOfGroup(Grouped(q), Pad3(r));
      ValueOfGroup(DropCommas(Grouped(q)), r);
    }
  }

  /** Dropping the commas of a prefix, a comma and a group of digits. */
  lemma DropCommasOfGroup(g: string, lo: string)
    requires AllDigits(lo)
    ensures DropCommas(g + ("," + lo)) == DropCommas(g) + lo
  {
    var tail := "," + lo;
    DropCommasAppend(g, tail);
    DropCommasOfDigits(lo);
    assert tail != [] && tail[0] == ',' && tail[1..] == lo;
    assert DropCommas(tail) == DropCommas(lo);
  }

  /** Three more digits multiply the value by a thousand and add the group. */
  lemma ValueOfGroup(hi: string, r: nat)
    requires r < 1000 && AllDigits(hi)
    ensures AllDigits(hi + Pad3(r))
    ensures DigitsValue(hi + Pad3(r)) == DigitsValue(hi) * 1000 + r
  {
    DigitsValueAppend(hi, Pad3(r));
    Pad3Value(r);
    assert Pow10(3) == 1000;
  }
}
