/**
 * `Repository`: a pool of entity ids read from a configuration setting such as "1, 4, 10..12",
 * from which `GetRandomId` picks one. Reading the setting and the lazy, thread-safe caching of the
 * parsed list are not modelled; `ParseIds` and `GetRandomId` are.
 */
module Repository {
  import opened Wrappers
  import opened Text

  const TokenDelimiter: string := ","
  const RangeDelimiter: string := ".."

  /** `Enumerable.Where`. */
  function Filter<T>(xs: seq<T>, keep: T -> bool): (r: seq<T>)
    ensures |r| <= |xs|
  {
    if |xs| == 0 then []
    else if keep(xs[0]) then [xs[0]] + Filter(xs[1..], keep)
    else Filter(xs[1..], keep)
  }

  /** `Select(f).ToArray()` for an `f` that may throw: every element mapped, or the whole thing fails. */
  function MapAll<A, B>(xs: seq<A>, f: A -> Option<B>): (r: Option<seq<B>>)
    ensures r.Some? <==> forall i :: 0 <= i < |xs| ==> f(xs[i]).Some?
    ensures r.Some? ==> |r.value| == |xs| && forall i :: 0 <= i < |xs| ==> r.value[i] == f(xs[i]).value
  {
    if |xs| == 0 then Some([])
    else match (f(xs[0]), MapAll(xs[1..], f))
      case (Some(y), Some(ys)) => Some([y] + ys)
      case _ => None
  }

  /** The comma-separated tokens of the setting, empty ones dropped (`Split(",", RemoveEmptyEntries)`). */
  function Tokens(rawIds: string): seq<string> {
    NonEmpty(Split(rawIds, TokenDelimiter))
  }

  /** A token containing ".." denotes a range of ids. */
  predicate IsRangeToken(t: string) {
    Contains(t, RangeDelimiter)
  }

  /** Any other token denotes a single id. */
  predicate IsIdToken(t: string) {
    !IsRangeToken(t)
  }

  /** `int.Parse(t.Trim())`: the value of a single-id token. */
  function ParseId(t: string): Option<int> {
    ParseInt32(Trim(t))
  }

  /** `System.Range(start, end)`, whose endpoints are `Index` values and so never negative. */
  datatype IdRange = IdRange(start: int, end: int)

  /**
   * A range token: its ".."-separated non-empty parts; the first two are parsed as ints and become
   * the endpoints (a third part is ignored). Fewer than two parts, an unparsable part or a negative
   * endpoint makes it throw.
   */
  function ParseRange(t: string): (r: Option<IdRange>)
    ensures r.Some? ==> 0 <= r.value.start <= MaxInt32 && 0 <= r.value.end <= MaxInt32
  {
    var parts := NonEmpty(Split(t, RangeDelimiter));
    if |parts| < 2 then None
    else match (ParseInt32(parts[0]), ParseInt32(parts[1]))
      case (Some(a), Some(b)) => if a < 0 || b < 0 then None else Some(IdRange(a, b))
      case _ => None
  }

  /** The number of ids in a range, `end - start + 1`, counted without overflow. */
  function Span(r: IdRange): int {
    r.end - r.start + 1
  }

  /** `start, start + 1, ..., end`. */
  function Expand(r: IdRange): (ids: seq<int>)
    requires Span(r) >= 0
    ensures |ids| == Span(r)
    ensures forall i :: 0 <= i < |ids| ==> ids[i] == r.start + i
    ensures |ids| > 0 ==> ids[|ids| - 1] == r.end
  {
    seq(Span(r), i => r.start + i)
  }

  predicate NoNegativeSpan(rs: seq<IdRange>) {
    forall i :: 0 <= i < |rs| ==> Span(rs[i]) >= 0
  }

  /** The expansions of the ranges, one after the other. */
  function ExpandAll(rs: seq<IdRange>): seq<int>
    requires NoNegativeSpan(rs)
  {
    if |rs| == 0 then [] else Expand(rs[0]) + ExpandAll(rs[1..])
  }

  function TotalSpan(rs: seq<IdRange>): int {
    if |rs| == 0 then 0 else Span(rs[0]) + TotalSpan(rs[1..])
  }

  lemma {:induction false} ExpandAllLength(rs: seq<IdRange>)
    requires NoNegativeSpan(rs)
    ensures |ExpandAll(rs)| == TotalSpan(rs)
  {
    if |rs| > 0 {
      ExpandAllLength(rs[1..]);
    }
  }

  /** The single ids, parsed in token order; `None` if one of them does not parse. */
  function ParsedIds(rawIds: string): Option<seq<int>> {
    MapAll(Filter(Tokens(rawIds), IsIdToken), ParseId)
  }

  /** The ranges, parsed in token order; `None` if one of them does not parse. */
  function ParsedRanges(rawIds: string): Option<seq<IdRange>> {
    MapAll(Filter(Tokens(rawIds), IsRangeToken), ParseRange)
  }

  /** The single ids followed by the expanded ranges, if every range is non-negative and the list holds at most `int.MaxValue` ids. */
  function Assemble(ids: Option<seq<int>>, ranges: Option<seq<IdRange>>): Option<seq<int>> {
    if ids.None? || ranges.None? || !NoNegativeSpan(ranges.value) then None
    else if |ids.value| + TotalSpan(ranges.value) > MaxInt32 then None
    else Some(ids.value + ExpandAll(ranges.value))
  }

  /**
   * What `ParseIds` returns for a setting: the single ids in token order, then each range expanded,
   * in token order; `None` (an exception) when a token is malformed, a range ends below `start - 1`,
   * or the list would hold more than `int.MaxValue` ids.
   */
  function IdList(rawIds: string): Option<seq<int>> {
    Assemble(ParsedIds(rawIds), ParsedRanges(rawIds))
  }

  /** C#'s unchecked `int` arithmetic: the 32-bit two's-complement value congruent to `x`. */
  function Wrap32(x: int): (r: int)
    ensures MinInt32 <= r <= MaxInt32
    ensures (r - x) % 0x1_0000_0000 == 0
    ensures MinInt32 <= x <= MaxInt32 ==> r == x
    ensures MaxInt32 < x <= MaxInt32 + 0x1_0000_0000 ==> r == x - 0x1_0000_0000
    decreases if x < MinInt32 then MinInt32 - x else x - MaxInt32
  {
    if x < MinInt32 then Wrap32(x + 0x1_0000_0000)
    else if x > MaxInt32 then Wrap32(x - 0x1_0000_0000)
    else x
  }

  /** The local function `Length(r)`: `r.End.Value - r.Start.Value + 1` in unchecked `int` arithmetic. */
  function RangeLength(r: IdRange): int {
    Wrap32(Span(r))
  }

  /** `Enumerable.Sum` over `int`s, which is checked: `None` once a running total leaves the `int` range. */
  function CheckedSum(acc: int, xs: seq<int>): (total: Option<int>)
    ensures total.Some? && |xs| > 0 ==> MinInt32 <= total.value <= MaxInt32
    decreases |xs|
  {
    if |xs| == 0 then Some(acc)
    else if acc + xs[0] < MinInt32 || acc + xs[0] > MaxInt32 then None
    else CheckedSum(acc + xs[0], xs[1..])
  }

  /** The lengths `ranges.Sum(r => Length(r))` adds up. */
  function RangeLengths(rs: seq<IdRange>): (r: seq<int>)
    ensures |r| == |rs| && forall i :: 0 <= i < |rs| ==> r[i] == RangeLength(rs[i])
  {
    seq(|rs|, i requires 0 <= i < |rs| => RangeLength(rs[i]))
  }

  /** Over non-negative lengths that fit in an `int`, the checked sum fails exactly when the true total does not fit. */
  lemma {:induction false} CheckedSumOfSpans(acc: int, rs: seq<IdRange>)
    requires 0 <= acc <= MaxInt32
    requires forall i :: 0 <= i < |rs| ==> 0 <= Span(rs[i]) <= MaxInt32
    ensures CheckedSum(acc, RangeLengths(rs)) == if acc + TotalSpan(rs) <= MaxInt32 then Some(acc + TotalSpan(rs)) else None
    decreases |rs|
  {
    if |rs| > 0 {
      assert RangeLengths(rs)[1..] == RangeLengths(rs[1..]);
      TotalSpanNonNegative(rs[1..]);
      if acc + Span(rs[0]) <= MaxInt32 {
        CheckedSumOfSpans(acc + Span(rs[0]), rs[1..]);
      }
    }
  }

  lemma {:induction false} TotalSpanNonNegative(rs: seq<IdRange>)
    requires NoNegativeSpan(rs)
    ensures TotalSpan(rs) >= 0
  {
    if |rs| > 0 {
      TotalSpanNonNegative(rs[1..]);
    }
  }

  /** Each range's span is at most the total once all spans are non-negative. */
  lemma {:induction false} SpanAtMostTotal(rs: seq<IdRange>, i: nat)
    requires NoNegativeSpan(rs) && i < |rs|
    ensures Span(rs[i]) <= TotalSpan(rs)
  {
    TotalSpanNonNegative(rs[1..]);
    if i > 0 {
      SpanAtMostTotal(rs[1..], i - 1);
    }
  }

  lemma {:induction false} ExpandAllAppend(rs: seq<IdRange>, r: IdRange)
    requires NoNegativeSpan(rs) && Span(r) >= 0
    ensures NoNegativeSpan(rs + [r]) && ExpandAll(rs + [r]) == ExpandAll(rs) + Expand(r)
  {
    if |rs| > 0 {
      assert (rs + [r])[1..] == rs[1..] + [r];
      ExpandAllAppend(rs[1..], r);
    } else {
      assert ExpandAll([r]) == Expand(r) + ExpandAll([]);
    }
  }

  /** Non-empty tokens are disjoint pieces of the string, so there are at most as many as characters. */
  lemma {:induction false} TokensBounded(s: string, d: string)
    requires |d| > 0
    ensures |NonEmpty(Split(s, d))| <= |s|
    decreases |s|
  {
    if |s| > 0 {
      if d <= s {
        TokensBounded(s[|d|..], d);
      } else {
        var rest := Split(s[1..], d);
        TokensBounded(s[1..], d);
        assert rest == [rest[0]] + rest[1..];
        NonEmptyAppend([rest[0]], rest[1..]);
        NonEmptyAppend([[s[0]] + rest[0]], rest[1..]);
      }
    }
  }

  lemma {:induction false} FilterPartition(xs: seq<string>)
    ensures |Filter(xs, IsIdToken)| + |Filter(xs, IsRangeToken)| == |xs|
  {
    if |xs| > 0 {
      FilterPartition(xs[1..]);
    }
  }

  /**
   * `ParseIds`: split the setting into tokens and parse the range tokens (`ToArray` forces them
   * all), then build the list. The exceptions of `int.Parse`, the range indexing, the checked
   * `Sum`, the list capacity and `Enumerable.Range` become `None`. A .NET string is shorter than
   * `int.MaxValue` characters.
   */
  method ParseIds(rawIds: string) returns (result: Option<seq<int>>)
    requires |rawIds| <= MaxInt32
    ensures result == IdList(rawIds)
  {
    var tokens := Tokens(rawIds);
    var ranges := ParsedRanges(rawIds);
    if ranges.None? {
      return None;
    }
    TokensBounded(rawIds, TokenDelimiter);
    FilterPartition(tokens);
    result := BuildIdList(ParsedIds(rawIds), ranges.value, |tokens|);
  }

  /**
   * The list-building half of `ParseIds`: sum the range lengths (checked), size the list with
   * `rangesLength + idTokensCount` (unchecked), add the single ids (parsed lazily, here), then append
   * each range with `Enumerable.Range(start, Length(range))`.
   */
  method BuildIdList(idTokens: Option<seq<int>>, ranges: seq<IdRange>, tokenCount: nat) returns (result: Option<seq<int>>)
    requires |ranges| <= tokenCount <= MaxInt32
    requires idTokens.Some? ==> |idTokens.value| == tokenCount - |ranges|
    requires forall i :: 0 <= i < |ranges| ==> 0 <= ranges[i].start && 0 <= ranges[i].end <= MaxInt32
    ensures result == Assemble(idTokens, Some(ranges))
  {
    var rangesLength := CheckedSum(0, RangeLengths(ranges));
    if rangesLength.None? {
      SumFailureMeansNoList(idTokens, ranges);
      return None;
    }
    var idTokensCount := tokenCount - |ranges|;
    var capacity := Wrap32(rangesLength.value + idTokensCount);
    if capacity < 0 {
      // new List<int>(capacity) throws
      CapacityFailureMeansNoList(idTokens, ranges, rangesLength.value, idTokensCount);
      return None;
    }
    if idTokens.None? {
      return None;
    }
    var appended := AppendRanges(idTokens.value, ranges);
    if appended.None? {
      MisfitMeansNoList(idTokens.value, ranges);
      return None;
    }
    SuccessMeansList(idTokens.value, ranges, rangesLength.value, idTokensCount);
    result := appended;
  }

  /** Every span is non-negative and fits in an `int`: what `Enumerable.Range` accepts. */
  predicate SpansFit(rs: seq<IdRange>) {
    forall i :: 0 <= i < |rs| ==> 0 <= Span(rs[i]) <= MaxInt32
  }

  /**
   * The final loop of `ParseIds`: append each range with `Enumerable.Range(start, Length(range))`,
   * which throws for a negative count or a range that runs past `int.MaxValue`.
   */
  method AppendRanges(ids: seq<int>, ranges: seq<IdRange>) returns (result: Option<seq<int>>)
    requires forall i :: 0 <= i < |ranges| ==> 0 <= ranges[i].start && 0 <= ranges[i].end <= MaxInt32
    ensures result.Some? <==> SpansFit(ranges)
    ensures result.Some? ==> NoNegativeSpan(ranges) && result.value == ids + ExpandAll(ranges)
  {
    var list := ids;
    for i := 0 to |ranges|
      invariant SpansFit(ranges[..i])
      invariant NoNegativeSpan(ranges[..i])
      invariant list == ids + ExpandAll(ranges[..i])
    {
      var count := RangeLength(ranges[i]);
      if count < 0 || ranges[i].start + count - 1 > MaxInt32 {
        RangeRejected(ranges, i);
        return None;
      }
      RangeAccepted(ranges[i]);
      ExpandPrefix(ranges, i);
      list := list + Expand(ranges[i]);
    }
    assert ranges[..|ranges|] == ranges;
    result := Some(list);
  }

  /** A range `Enumerable.Range` rejects makes the spans not fit. */
  lemma RangeRejected(ranges: seq<IdRange>, i: nat)
    requires i < |ranges| && 0 <= ranges[i].start && ranges[i].end <= MaxInt32
    requires RangeLength(ranges[i]) < 0 || ranges[i].start + RangeLength(ranges[i]) - 1 > MaxInt32
    ensures !SpansFit(ranges)
  {
  }

  /** Where `Assemble` gives a list, every span is non-negative and fits in an `int`. */
  lemma ListedSpansFit(ids: seq<int>, ranges: seq<IdRange>)
    requires Assemble(Some(ids), Some(ranges)).Some?
    ensures forall i :: 0 <= i < |ranges| ==> 0 <= Span(ranges[i]) <= MaxInt32
    ensures 0 <= TotalSpan(ranges) <= MaxInt32 - |ids|
  {
    TotalSpanNonNegative(ranges);
    forall i | 0 <= i < |ranges| ensures Span(ranges[i]) <= MaxInt32 {
      SpanAtMostTotal(ranges, i);
    }
  }

  /** The checked sum of the lengths fails only where `Assemble` fails. */
  lemma SumFailureMeansNoList(idTokens: Option<seq<int>>, ranges: seq<IdRange>)
    requires CheckedSum(0, RangeLengths(ranges)).None?
    ensures Assemble(idTokens, Some(ranges)).None?
  {
    if Assemble(idTokens, Some(ranges)).Some? {
      ListedSpansFit(idTokens.value, ranges);
      CheckedSumOfSpans(0, ranges);
    }
  }

  /** A list capacity that wraps to a negative number arises only where `Assemble` fails. */
  lemma CapacityFailureMeansNoList(idTokens: Option<seq<int>>, ranges: seq<IdRange>, rangesLength: int, idTokensCount: nat)
    requires idTokensCount <= MaxInt32
    requires idTokens.Some? ==> |idTokens.value| == idTokensCount
    requires CheckedSum(0, RangeLengths(ranges)) == Some(rangesLength)
    requires Wrap32(rangesLength + idTokensCount) < 0
    ensures Assemble(idTokens, Some(ranges)).None?
  {
    if Assemble(idTokens, Some(ranges)).Some? {
      ListedSpansFit(idTokens.value, ranges);
      CheckedSumOfSpans(0, ranges);
    }
  }

  /** A span that does not fit arises only where `Assemble` fails. */
  lemma MisfitMeansNoList(ids: seq<int>, ranges: seq<IdRange>)
    requires !SpansFit(ranges)
    ensures Assemble(Some(ids), Some(ranges)).None?
  {
    if Assemble(Some(ids), Some(ranges)).Some? {
      ListedSpansFit(ids, ranges);
    }
  }

  /** A range that `Enumerable.Range` accepts has a span that fits in an `int`. */
  lemma RangeAccepted(r: IdRange)
    requires 0 <= r.start && 0 <= r.end <= MaxInt32
    requires !(RangeLength(r) < 0 || r.start + RangeLength(r) - 1 > MaxInt32)
    ensures 0 <= Span(r) <= MaxInt32
  {
  }

  /** Extending the prefix of ranges by one range appends its expansion. */
  lemma ExpandPrefix(ranges: seq<IdRange>, i: nat)
    requires i < |ranges| && NoNegativeSpan(ranges[..i]) && Span(ranges[i]) >= 0
    ensures NoNegativeSpan(ranges[..i + 1])
    ensures ExpandAll(ranges[..i + 1]) == ExpandAll(ranges[..i]) + Expand(ranges[i])
  {
    assert ranges[..i + 1] == ranges[..i] + [ranges[i]];
    ExpandAllAppend(ranges[..i], ranges[i]);
  }

  /** When every step succeeds, the list built is the one `Assemble` describes. */
  lemma SuccessMeansList(ids: seq<int>, ranges: seq<IdRange>, rangesLength: int, idTokensCount: nat)
    requires idTokensCount <= MaxInt32 && |ids| == idTokensCount
    requires CheckedSum(0, RangeLengths(ranges)) == Some(rangesLength)
    requires Wrap32(rangesLength + idTokensCount) >= 0
    requires NoNegativeSpan(ranges)
    requires forall k :: 0 <= k < |ranges| ==> Span(ranges[k]) <= MaxInt32
    ensures Assemble(Some(ids), Some(ranges)) == Some(ids + ExpandAll(ranges))
  {
    TotalSpanNonNegative(ranges);
    CheckedSumOfSpans(0, ranges);
    WrapNonNegative(rangesLength + idTokensCount);
  }

  /** A sum of two `int`s that wraps to a non-negative value did not overflow. */
  lemma WrapNonNegative(x: int)
    requires 0 <= x <= MaxInt32 + MaxInt32 && Wrap32(x) >= 0
    ensures x <= MaxInt32
  {
  }

  /** Every element `keep` accepts survives `Filter`. */
  lemma {:induction false} FilterKeeps<T>(xs: seq<T>, keep: T -> bool, i: nat)
    requires i < |xs| && keep(xs[i])
    ensures exists j :: 0 <= j < |Filter(xs, keep)| && Filter(xs, keep)[j] == xs[i]
  {
    if i == 0 {
      assert Filter(xs, keep)[0] == xs[0];
    } else {
      FilterKeeps(xs[1..], keep, i - 1);
      var j :| 0 <= j < |Filter(xs[1..], keep)| && Filter(xs[1..], keep)[j] == xs[1..][i - 1];
      if keep(xs[0]) {
        assert Filter(xs, keep)[j + 1] == xs[i];
      } else {
        assert Filter(xs, keep)[j] == xs[i];
      }
    }
  }

  /**
   * One malformed token makes the whole parse fail, never a partial list: a single id that is not
   * an `int`, or a range with a missing, non-integer or negative endpoint or an end below `start - 1`.
   */
  lemma MalformedTokenFails(rawIds: string, i: nat)
    requires i < |Tokens(rawIds)|
    requires var t := Tokens(rawIds)[i];
      || (IsIdToken(t) && ParseId(t).None?)
      || (IsRangeToken(t) && (ParseRange(t).None? || Span(ParseRange(t).value) < 0))
    ensures IdList(rawIds).None?
  {
    var tokens := Tokens(rawIds);
    var t := tokens[i];
    if IsIdToken(t) {
      FilterKeeps(tokens, IsIdToken, i);
    } else {
      FilterKeeps(tokens, IsRangeToken, i);
    }
  }

  /** A parsed list holds one id per single-id token plus `end - start + 1` ids per range. */
  lemma IdListLength(rawIds: string)
    requires IdList(rawIds).Some?
    ensures ParsedRanges(rawIds).Some? && NoNegativeSpan(ParsedRanges(rawIds).value)
    ensures |IdList(rawIds).value| == |Filter(Tokens(rawIds), IsIdToken)| + TotalSpan(ParsedRanges(rawIds).value)
  {
    ExpandAllLength(ParsedRanges(rawIds).value);
  }

  /** Empty tokens are dropped: doubled, leading and trailing commas change nothing ("1,,2," reads as "1,2"). */
  lemma EmptyTokensIgnored(a: string, b: string)
    ensures IdList(a + ",," + b) == IdList(a + "," + b)
    ensures IdList(a + ",") == IdList(a)
    ensures IdList("," + a) == IdList(a)
  {
    var c := TokenDelimiter;
    SplitAround(a, c, c + b);
    SplitAround("", c, b);
    SplitAround(a, c, b);
    SplitAround(a, c, "");
    SplitAround("", c, a);
    assert a + ",," + b == a + c + (c + b);
    assert "" + c + b == c + b;
    assert a + "," == a + c + "";
    assert "," + a == "" + c + a;
    NonEmptyAppend(Split(a, c), Split(c + b, c));
    NonEmptyAppend(Split("", c), Split(b, c));
    NonEmptyAppend(Split(a, c), Split(b, c));
    NonEmptyAppend(Split(a, c), Split("", c));
    NonEmptyAppend(Split("", c), Split(a, c));
    assert NonEmpty(Split("", c)) == [];
    assert Tokens(a + ",," + b) == Tokens(a + "," + b);
    assert Tokens(a + ",") == Tokens(a);
    assert Tokens("," + a) == Tokens(a);
  }

  /** One entry of an id setting as a person writes it: a single id, or a range `first..last`. */
  datatype IdEntry = SingleId(id: int) | IdSpan(first: int, last: int)

  /** The entries `ParseIds` accepts: a 32-bit id, or non-negative 32-bit endpoints with `last >= first - 1`. */
  predicate ValidEntry(e: IdEntry) {
    match e
    case SingleId(n) => MinInt32 <= n <= MaxInt32
    case IdSpan(a, b) => 0 <= a <= MaxInt32 && 0 <= b <= MaxInt32 && b >= a - 1
  }

  function FormatEntry(e: IdEntry): string {
    match e
    case SingleId(n) => FormatInt32(n)
    case IdSpan(a, b) => FormatInt32(a) + RangeDelimiter + FormatInt32(b)
  }

  /** The setting listing `es` in order, separated by commas. */
  function FormatIds(es: seq<IdEntry>): string {
    if |es| == 0 then "" else if |es| == 1 then FormatEntry(es[0])
    else FormatEntry(es[0]) + TokenDelimiter + FormatIds(es[1..])
  }

  /** The values `pick` finds in `es`, in order. */
  function Collect<E, B>(es: seq<E>, pick: E -> Option<B>): seq<B> {
    if |es| == 0 then [] else (if pick(es[0]).Some? then [pick(es[0]).value] else []) + Collect(es[1..], pick)
  }

  function SingleIdOf(e: IdEntry): Option<int> {
    if e.SingleId? then Some(e.id) else None
  }

  function RangeOf(e: IdEntry): Option<IdRange> {
    if e.IdSpan? then Some(IdRange(e.first, e.last)) else None
  }

  /** The single ids among the entries, in order. */
  function EntryIds(es: seq<IdEntry>): seq<int> {
    Collect(es, SingleIdOf)
  }

  /** The ranges among the entries, in order. */
  function EntryRanges(es: seq<IdEntry>): seq<IdRange> {
    Collect(es, RangeOf)
  }

  function FormattedEntries(es: seq<IdEntry>): (ts: seq<string>)
    ensures |ts| == |es|
  {
    seq(|es|, i requires 0 <= i < |es| => FormatEntry(es[i]))
  }

  /** A single id formats to one id token that parses back to the id. */
  lemma FormattedSingle(n: int)
    requires MinInt32 <= n <= MaxInt32
    ensures IsIdToken(FormatInt32(n)) && ParseId(FormatInt32(n)) == Some(n)
  {
    FormatInt32Chars(n);
    NotContains(FormatInt32(n), RangeDelimiter);
    TrimFormatInt32(n);
    ParseFormatInt32(n);
  }

  /** Two dot-free, non-empty parts joined by `..` split back into those two parts. */
  lemma RangeParts(fa: string, fb: string)
    requires |fa| > 0 && |fb| > 0
    requires forall i :: 0 <= i < |fa| ==> fa[i] != '.'
    requires forall i :: 0 <= i < |fb| ==> fb[i] != '.'
    ensures Contains(fa + RangeDelimiter + fb, RangeDelimiter)
    ensures NonEmpty(Split(fa + RangeDelimiter + fb, RangeDelimiter)) == [fa, fb]
  {
    var t := fa + RangeDelimiter + fb;
    assert t[|fa|..|fa| + 2] == RangeDelimiter;
    ContainsAt(t, RangeDelimiter, |fa|);
    SplitAfter(fa, RangeDelimiter, fb);
    SplitWithout(fb, RangeDelimiter);
    NonEmptyAppend([fa], [fb]);
    assert [fa] + [fb] == [fa, fb];
  }

  /** A range `a..b` formats to one range token that parses back to the range. */
  lemma FormattedSpan(a: int, b: int)
    requires 0 <= a <= MaxInt32 && 0 <= b <= MaxInt32
    ensures IsRangeToken(FormatInt32(a) + RangeDelimiter + FormatInt32(b))
    ensures ParseRange(FormatInt32(a) + RangeDelimiter + FormatInt32(b)) == Some(IdRange(a, b))
  {
    var fa, fb := FormatInt32(a), FormatInt32(b);
    FormatInt32Chars(a);
    FormatInt32Chars(b);
    RangeParts(fa, fb);
    ParseFormatInt32(a);
    ParseFormatInt32(b);
  }

  /** A formatted entry is one non-empty token without a comma. */
  lemma FormattedEntryToken(e: IdEntry)
    ensures |FormatEntry(e)| > 0
    ensures forall i :: 0 <= i < |FormatEntry(e)| ==> FormatEntry(e)[i] != ','
  {
    match e
    case SingleId(n) =>
      FormatInt32Chars(n);
    case IdSpan(a, b) =>
      FormatInt32Chars(a);
      FormatInt32Chars(b);
  }

  /** The tokens of a formatted setting are the formatted entries. */
  lemma {:induction false} TokensOfFormat(es: seq<IdEntry>)
    requires forall i :: 0 <= i < |es| ==> ValidEntry(es[i])
    ensures Tokens(FormatIds(es)) == FormattedEntries(es)
  {
    if |es| == 0 {
      assert Split("", TokenDelimiter) == [""];
      assert NonEmpty([""]) == NonEmpty([]);
    } else if |es| == 1 {
      FormattedEntryToken(es[0]);
      OneToken(FormatEntry(es[0]));
      assert FormattedEntries(es) == [FormatEntry(es[0])];
    } else {
      TokensOfFormat(es[1..]);
      FormattedEntryToken(es[0]);
      TokenThenRest(FormatEntry(es[0]), FormatIds(es[1..]));
      assert FormattedEntries(es) == [FormatEntry(es[0])] + FormattedEntries(es[1..]);
    }
  }

  /** A non-empty string without a comma is one token. */
  lemma OneToken(t: string)
    requires |t| > 0 && forall i :: 0 <= i < |t| ==> t[i] != ','
    ensures Tokens(t) == [t]
  {
    SplitWithout(t, TokenDelimiter);
    assert NonEmpty([t]) == [t] + NonEmpty([]) == [t];
  }

  /** A non-empty string without a comma, a comma and more text: that token, then the tokens of the rest. */
  lemma TokenThenRest(t: string, rest: string)
    requires |t| > 0 && forall i :: 0 <= i < |t| ==> t[i] != ','
    ensures Tokens(t + TokenDelimiter + rest) == [t] + Tokens(rest)
  {
    OneToken(t);
    SplitAround(t, TokenDelimiter, rest);
    NonEmptyAppend(Split(t, TokenDelimiter), Split(rest, TokenDelimiter));
  }

  /** `t` is a token that `ParseIds` reads as the entry `e`. */
  predicate Denotes(t: string, e: IdEntry) {
    match e
    case SingleId(n) => IsIdToken(t) && ParseId(t) == Some(n)
    case IdSpan(a, b) => IsRangeToken(t) && ParseRange(t) == Some(IdRange(a, b))
  }

  lemma FormattedEntryDenotes(e: IdEntry)
    requires ValidEntry(e)
    ensures Denotes(FormatEntry(e), e)
  {
    if e.SingleId? {
      FormattedSingle(e.id);
    } else {
      FormattedSpan(e.first, e.last);
    }
  }

  /**
   * Keeping the tokens that `keep` accepts and mapping `f` over them gives what `pick` finds in
   * the corresponding entries, when `keep` and `f` agree with `pick` token by token.
   */
  lemma {:induction false} MapFilterCollect<A, E, B>(ts: seq<A>, es: seq<E>, keep: A -> bool, f: A -> Option<B>, pick: E -> Option<B>)
    requires |ts| == |es|
    requires forall i :: 0 <= i < |ts| ==> (keep(ts[i]) <==> pick(es[i]).Some?)
    requires forall i :: 0 <= i < |ts| ==> keep(ts[i]) ==> f(ts[i]) == pick(es[i])
    ensures MapAll(Filter(ts, keep), f) == Some(Collect(es, pick))
  {
    if |ts| > 0 {
      MapFilterCollect(ts[1..], es[1..], keep, f, pick);
      var ys := Collect(es[1..], pick);
      if keep(ts[0]) {
        var kept := Filter(ts, keep);
        assert kept == [ts[0]] + Filter(ts[1..], keep);
        assert kept[0] == ts[0] && kept[1..] == Filter(ts[1..], keep);
        assert Collect(es, pick) == [pick(es[0]).value] + ys;
      } else {
        assert Filter(ts, keep) == Filter(ts[1..], keep);
        assert Collect(es, pick) == [] + ys == ys;
      }
    }
  }

  /** Tokens that denote the entries `es` parse to the single ids of `es` and to its ranges, each in order. */
  lemma ParseDenoted(ts: seq<string>, es: seq<IdEntry>)
    requires |ts| == |es| && forall i :: 0 <= i < |ts| ==> Denotes(ts[i], es[i])
    ensures MapAll(Filter(ts, IsIdToken), ParseId) == Some(EntryIds(es))
    ensures MapAll(Filter(ts, IsRangeToken), ParseRange) == Some(EntryRanges(es))
  {
    MapFilterCollect(ts, es, IsIdToken, ParseId, SingleIdOf);
    MapFilterCollect(ts, es, IsRangeToken, ParseRange, RangeOf);
  }

  /** Each formatted entry denotes its entry. */
  lemma FormattedEntriesDenote(es: seq<IdEntry>)
    requires forall i :: 0 <= i < |es| ==> ValidEntry(es[i])
    ensures forall i :: 0 <= i < |es| ==> Denotes(FormattedEntries(es)[i], es[i])
  {
    forall i | 0 <= i < |es|
      ensures Denotes(FormattedEntries(es)[i], es[i])
    {
      FormattedEntryDenotes(es[i]);
    }
  }

  /**
   * `ParseIds` reads back any list of valid entries: first every single id in the order written,
   * then every range expanded, in the order written.
   */
  lemma ParseFormattedIds(es: seq<IdEntry>)
    requires forall i :: 0 <= i < |es| ==> ValidEntry(es[i])
    requires NoNegativeSpan(EntryRanges(es)) && |EntryIds(es)| + TotalSpan(EntryRanges(es)) <= MaxInt32
    ensures IdList(FormatIds(es)) == Some(EntryIds(es) + ExpandAll(EntryRanges(es)))
  {
    TokensOfFormat(es);
    FormattedEntriesDenote(es);
    ParseDenoted(FormattedEntries(es), es);
  }

  /**
   * `GetRandomId` with the value of `random.Next(0, Count)` passed in as `index`: 0 for an empty
   * pool, the only id of a one-element pool, otherwise the id at `index`.
   */
  function GetRandomId(ids: seq<int>, index: int): (id: int)
    requires |ids| >= 2 ==> 0 <= index < |ids|
    ensures |ids| == 0 ==> id == 0
    ensures |ids| > 0 ==> id in ids
    ensures |ids| >= 2 ==> id == ids[index]
  {
    if |ids| <= 1 then SingleOrDefault(ids) else ids[index]
  }

  /** `Enumerable.SingleOrDefault` on a list of at most one element. */
  function SingleOrDefault(ids: seq<int>): (id: int)
    requires |ids| <= 1
    ensures |ids| == 1 ==> id == ids[0]
  {
    if |ids| == 0 then 0 else ids[0]
  }
}
