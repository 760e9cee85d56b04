/**
 * The .NET string primitives the core relies on: `Char.IsWhiteSpace`, `String.Trim`,
 * `String.Replace(x, "")`, `String.Contains`, `String.Split` with a string separator, and
 * `Int32.Parse` under `NumberStyles.Integer`. A C# `string` is a `seq<char>`.
 */
module Text {
  import opened Wrappers

  const MinInt32: int := -0x8000_0000
  const MaxInt32: int := 0x7FFF_FFFF

  /** `Char.IsWhiteSpace`: the Unicode space, line and paragraph separators and U+0009..U+000D, U+0085. */
  predicate IsWhiteSpace(c: char) {
    || c == ' ' || '\t' <= c <= '\r' || c == '\U{0085}' || c == '\U{00A0}' || c == '\U{1680}'
    || '\U{2000}' <= c <= '\U{200A}' || c == '\U{2028}' || c == '\U{2029}' || c == '\U{202F}'
    || c == '\U{205F}' || c == '\U{3000}'
  }

  /** The white space `Int32.Parse` skips before and after the number (`AllowLeadingWhite`, `AllowTrailingWhite`). */
  predicate IsNumberWhite(c: char) {
    c == ' ' || '\t' <= c <= '\r'
  }

  /** Drop the characters satisfying `white` from the front of `s`. */
  function TrimStartBy(s: string, white: char -> bool): (r: string)
    ensures |r| <= |s| && r == s[|s| - |r|..]
    ensures forall i :: 0 <= i < |s| - |r| ==> white(s[i])
    ensures |r| > 0 ==> !white(r[0])
  {
    if |s| > 0 && white(s[0]) then TrimStartBy(s[1..], white) else s
  }

  /** Drop the characters satisfying `white` from the end of `s`. */
  function TrimEndBy(s: string, white: char -> bool): (r: string)
    ensures |r| <= |s| && r == s[..|r|]
    ensures forall i :: |r| <= i < |s| ==> white(s[i])
    ensures |r| > 0 ==> !white(r[|r| - 1])
  {
    if |s| > 0 && white(s[|s| - 1]) then TrimEndBy(s[..|s| - 1], white) else s
  }

  /** Drop the characters satisfying `white` from both ends of `s`. */
  function TrimBy(s: string, white: char -> bool): string {
    TrimEndBy(TrimStartBy(s, white), white)
  }

  /** `String.Trim()`. */
  function Trim(s: string): string {
    TrimBy(s, IsWhiteSpace)
  }

  /** How many characters `TrimBy` cuts from the front of `s`. */
  function TrimmedLead(s: string, white: char -> bool): nat {
    |s| - |TrimStartBy(s, white)|
  }

  /** A trimmed string is a slice of the original with only white space cut away, and it neither starts nor ends with white space. */
  lemma TrimIsSlice(s: string, white: char -> bool)
    ensures TrimmedLead(s, white) + |TrimBy(s, white)| <= |s|
    ensures TrimBy(s, white) == s[TrimmedLead(s, white)..TrimmedLead(s, white) + |TrimBy(s, white)|]
    ensures forall k :: 0 <= k < TrimmedLead(s, white) ==> white(s[k])
    ensures forall k :: TrimmedLead(s, white) + |TrimBy(s, white)| <= k < |s| ==> white(s[k])
    ensures |TrimBy(s, white)| > 0 ==> !white(TrimBy(s, white)[0]) && !white(TrimBy(s, white)[|TrimBy(s, white)| - 1])
  {
    var t := TrimStartBy(s, white);
    var r := TrimEndBy(t, white);
    var i := |s| - |t|;
    assert t == s[i..];
    assert r == t[..|r|];
    assert r == s[i..i + |r|];
    forall k | i + |r| <= k < |s|
      ensures white(s[k])
    {
      assert s[k] == t[k - i];
    }
  }

  /** Trimming twice is trimming once. */
  lemma {:induction false} TrimIdempotent(s: string, white: char -> bool)
    ensures TrimBy(TrimBy(s, white), white) == TrimBy(s, white)
  {
    var r := TrimBy(s, white);
    TrimIsSlice(s, white);
    assert TrimStartBy(r, white) == r;
    assert TrimEndBy(r, white) == r;
  }

  /** `String.Replace(c, "")`: every occurrence of `c` removed, the other characters kept in order. */
  function RemoveAll(s: string, c: char): (r: string)
    ensures c !in r
    ensures forall x :: x != c ==> multiset(r)[x] == multiset(s)[x]
    ensures c !in s ==> r == s
  {
    if |s| == 0 then ""
    else if s[0] == c then (assert s == [s[0]] + s[1..]; RemoveAll(s[1..], c))
    else (assert s == [s[0]] + s[1..]; [s[0]] + RemoveAll(s[1..], c))
  }

  /** `String.Contains(d)` for a non-empty `d`: `d` occurs somewhere in `s`. */
  predicate Contains(s: string, d: string)
    requires |d| > 0
    decreases |s|
  {
    |s| >= |d| && (d <= s || Contains(s[1..], d))
  }

  /** `Contains` means an occurrence at some position. */
  lemma {:induction false} ContainsAt(s: string, d: string, i: nat)
    requires |d| > 0 && i + |d| <= |s| && s[i..i + |d|] == d
    ensures Contains(s, d)
    decreases i
  {
    if i > 0 {
      assert s[1..][i - 1..i - 1 + |d|] == s[i..i + |d|];
      ContainsAt(s[1..], d, i - 1);
    } else {
      assert d <= s;
    }
  }

  /** `String.Split(d)` with `StringSplitOptions.None`: the parts between non-overlapping occurrences of `d`, scanned left to right. */
  function Split(s: string, d: string): (parts: seq<string>)
    requires |d| > 0
    ensures |parts| >= 1
    decreases |s|
  {
    if |s| == 0 then [""]
    else if d <= s then [""] + Split(s[|d|..], d)
    else var rest := Split(s[1..], d); [[s[0]] + rest[0]] + rest[1..]
  }

  /** `String.Join(d, parts)`. */
  function Join(parts: seq<string>, d: string): string
    requires |parts| >= 1
  {
    if |parts| == 1 then parts[0] else parts[0] + d + Join(parts[1..], d)
  }

  lemma JoinPrepend(x: string, parts: seq<string>, d: string)
    requires |parts| >= 1
    ensures Join([x + parts[0]] + parts[1..], d) == x + Join(parts, d)
  {
    var q := [x + parts[0]] + parts[1..];
    if |parts| > 1 {
      assert q[1..] == parts[1..];
    }
  }

  lemma JoinEmptyFirst(parts: seq<string>, d: string)
    requires |parts| >= 1
    ensures Join([""] + parts, d) == d + Join(parts, d)
  {
    assert ([""] + parts)[1..] == parts;
  }

  /** Splitting loses nothing: joining the parts with the separator gives the string back. */
  lemma {:induction false} JoinSplit(s: string, d: string)
    requires |d| > 0
    ensures Join(Split(s, d), d) == s
    decreases |s|
  {
    if |s| == 0 {
    } else if d <= s {
      JoinSplit(s[|d|..], d);
      JoinEmptyFirst(Split(s[|d|..], d), d);
      assert s == d + s[|d|..];
    } else {
      JoinSplit(s[1..], d);
      JoinPrepend([s[0]], Split(s[1..], d), d);
      assert s == [s[0]] + s[1..];
    }
  }

  /** For a one-character separator, splitting `a + d + b` splits `a` and `b` separately. */
  lemma {:induction false} SplitAround(a: string, d: string, b: string)
    requires |d| == 1
    ensures Split(a + d + b, d) == Split(a, d) + Split(b, d)
    decreases |a|
  {
    if |a| == 0 {
      assert a + d + b == d + b;
      assert (d + b)[|d|..] == b;
    } else {
      var s := a + d + b;
      assert s[1..] == a[1..] + d + b;
      SplitAround(a[1..], d, b);
      if d <= a {
        assert d <= s;
      } else {
        assert !(d <= s);
      }
    }
  }

  /** A string without the separator's first character is one part. */
  lemma {:induction false} SplitWithout(s: string, d: string)
    requires |d| > 0 && forall i :: 0 <= i < |s| ==> s[i] != d[0]
    ensures Split(s, d) == [s]
    decreases |s|
  {
    if |s| > 0 {
      SplitWithout(s[1..], d);
      assert !(d <= s);
      assert s == [s[0]] + s[1..];
    }
  }

  /** A first part free of the separator's first character is cut off at the separator that follows it. */
  lemma {:induction false} SplitAfter(a: string, d: string, b: string)
    requires |d| > 0 && forall i :: 0 <= i < |a| ==> a[i] != d[0]
    ensures Split(a + d + b, d) == [a] + Split(b, d)
    decreases |a|
  {
    var s := a + d + b;
    if |a| == 0 {
      assert s == d + b;
      assert s[|d|..] == b;
    } else {
      assert s[1..] == a[1..] + d + b;
      SplitAfter(a[1..], d, b);
      assert !(d <= s);
      assert a == [a[0]] + a[1..];
    }
  }

  /** A string without the first character of `d` does not contain `d`. */
  lemma {:induction false} NotContains(s: string, d: string)
    requires |d| > 0 && forall i :: 0 <= i < |s| ==> s[i] != d[0]
    ensures !Contains(s, d)
    decreases |s|
  {
    if |s| >= |d| {
      assert s[0] != d[0];
      NotContains(s[1..], d);
    }
  }

  /** `StringSplitOptions.RemoveEmptyEntries`: the non-empty parts, in order. */
  function NonEmpty(parts: seq<string>): (r: seq<string>)
    ensures forall i :: 0 <= i < |r| ==> |r[i]| > 0
  {
    if |parts| == 0 then []
    else if |parts[0]| == 0 then NonEmpty(parts[1..])
    else [parts[0]] + NonEmpty(parts[1..])
  }

  lemma {:induction false} NonEmptyAppend(a: seq<string>, b: seq<string>)
    ensures NonEmpty(a + b) == NonEmpty(a) + NonEmpty(b)
  {
    if |a| > 0 {
      assert (a + b)[1..] == a[1..] + b;
      NonEmptyAppend(a[1..], b);
    } else {
      assert a + b == b;
    }
  }

  predicate IsDigit(c: char) {
    '0' <= c <= '9'
  }

  predicate AllDigits(s: string) {
    forall i :: 0 <= i < |s| ==> IsDigit(s[i])
  }

  /** The value of a string of decimal digits, most significant first. */
  function DigitsValue(s: string): nat
    requires AllDigits(s)
  {
    if |s| == 0 then 0 else DigitsValue(s[..|s| - 1]) * 10 + (s[|s| - 1] as int - '0' as int)
  }

  /**
   * `Int32.Parse(s)` under `NumberStyles.Integer` with an invariant culture: optional white space,
   * an optional `+` or `-`, one or more ASCII digits, optional white space, and a value that fits
   * in 32 bits; anything else throws, which is `None` here.
   */
  function ParseInt32(s: string): (r: Option<int>)
    ensures r.Some? ==> MinInt32 <= r.value <= MaxInt32
  {
    ParseSigned(TrimBy(s, IsNumberWhite))
  }

  /** The part of `ParseInt32` after the white space is cut: sign, digits and range. */
  function ParseSigned(t: string): (r: Option<int>)
    ensures r.Some? ==> MinInt32 <= r.value <= MaxInt32
  {
    if |t| == 0 then None
    else
      var negative := t[0] == '-';
      var digits := if t[0] == '-' || t[0] == '+' then t[1..] else t;
      if |digits| == 0 || !AllDigits(digits) then None
      else
        var v: int := if negative then -(DigitsValue(digits) as int) else DigitsValue(digits);
        if MinInt32 <= v <= MaxInt32 then Some(v) else None
  }

  /** The decimal digits of `n`, without leading zeros. */
  function Digits(n: nat): (s: string)
    ensures |s| > 0 && AllDigits(s)
  {
    var last := ['0' + (n % 10) as char];
    if n < 10 then last else Digits(n / 10) + last
  }

  /** `Int32.ToString()` for the invariant culture. */
  function FormatInt32(n: int): string {
    if n < 0 then "-" + Digits(-n) else Digits(n)
  }

  lemma {:induction false} DigitsValueOfDigits(n: nat)
    ensures DigitsValue(Digits(n)) == n
  {
    var s := Digits(n);
    if n >= 10 {
      DigitsValueOfDigits(n / 10);
      assert s[..|s| - 1] == Digits(n / 10);
    }
  }

  /** What `ToString` writes: an optional leading minus and then decimal digits, the last one a digit. */
  lemma FormatInt32Chars(n: int)
    ensures var s := FormatInt32(n);
      && |s| > 0 && IsDigit(s[|s| - 1])
      && forall i :: 0 <= i < |s| ==> IsDigit(s[i]) || (i == 0 && s[i] == '-')
  {
  }

  /** `Trim()` leaves what `ToString` writes as it is. */
  lemma {:induction false} TrimFormatInt32(n: int)
    ensures Trim(FormatInt32(n)) == FormatInt32(n)
  {
    var s := FormatInt32(n);
    FormatInt32Chars(n);
    assert !IsWhiteSpace(s[0]);
    assert TrimStartBy(s, IsWhiteSpace) == s;
    assert TrimEndBy(s, IsWhiteSpace) == s;
  }

  /** `Int32.Parse` reads back every 32-bit value that `ToString` writes. */
  lemma ParseFormatInt32(n: int)
    requires MinInt32 <= n <= MaxInt32
    ensures ParseInt32(FormatInt32(n)) == Some(n)
  {
    var s := FormatInt32(n);
    FormatInt32Chars(n);
    assert TrimStartBy(s, IsNumberWhite) == s;
    assert TrimEndBy(s, IsNumberWhite) == s;
    if n < 0 {
      ParseNegative(-n);
    } else {
      ParseNonNegative(n);
    }
  }

  lemma ParseNonNegative(m: nat)
    requires m <= MaxInt32
    ensures ParseSigned(Digits(m)) == Some(m)
  {
    DigitsValueOfDigits(m);
  }

  lemma ParseNegative(m: nat)
    requires 0 < m <= -MinInt32
    ensures ParseSigned("-" + Digits(m)) == Some(-(m as int))
  {
    DigitsValueOfDigits(m);
    assert ("-" + Digits(m))[1..] == Digits(m);
  }
}
