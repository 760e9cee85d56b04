/**
 * `LinqExtensions.SplitPages`: cut a sequence into consecutive pages of `pageSize` elements,
 * the last page possibly shorter. The portioning and the batching of files both use it.
 */
module LinqExtensions {

  /** `Enumerable.Take(count)`: the first `count` elements, none when `count <= 0`. */
  function Take<T>(s: seq<T>, count: int): (r: seq<T>)
    ensures r <= s
    ensures |r| == if count <= 0 then 0 else if count < |s| then count else |s|
  {
    if count <= 0 then [] else if count < |s| then s[..count] else s
  }

  /** `Enumerable.Skip(count)`: all but the first `count` elements, the whole sequence when `count <= 0`. */
  function Skip<T>(s: seq<T>, count: int): (r: seq<T>)
    ensures Take(s, count) + r == s
  {
    if count <= 0 then s else if count < |s| then s[count..] else []
  }

  /** The pages `SplitPages` yields, in order. */
  function Pages<T>(s: seq<T>, pageSize: int): seq<seq<T>>
    requires pageSize > 0
    decreases |s|
  {
    if |s| == 0 then [] else [Take(s, pageSize)] + Pages(Skip(s, pageSize), pageSize)
  }

  /** The concatenation of a sequence of pages. */
  function Flatten<T>(pages: seq<seq<T>>): seq<T> {
    if |pages| == 0 then [] else pages[0] + Flatten(pages[1..])
  }

  lemma {:induction false} FlattenAppend<T>(a: seq<seq<T>>, b: seq<seq<T>>)
    ensures Flatten(a + b) == Flatten(a) + Flatten(b)
  {
    if |a| > 0 {
      assert (a + b)[1..] == a[1..] + b;
      FlattenAppend(a[1..], b);
    } else {
      assert a + b == b;
    }
  }

  /** Concatenating the pages in order gives back the source exactly. */
  lemma {:induction false} FlattenPages<T>(s: seq<T>, pageSize: int)
    requires pageSize > 0
    ensures Flatten(Pages(s, pageSize)) == s
    decreases |s|
  {
    if |s| > 0 {
      var pages := Pages(s, pageSize);
      assert pages[1..] == Pages(Skip(s, pageSize), pageSize);
      FlattenPages(Skip(s, pageSize), pageSize);
    }
  }

  /**
   * No page is empty, every page holds at most `pageSize` elements and every page but the last
   * exactly `pageSize`; the empty source gives no page at all.
   */
  lemma {:induction false} PagesSized<T>(s: seq<T>, pageSize: int)
    requires pageSize > 0
    ensures |Pages(s, pageSize)| == 0 <==> |s| == 0
    ensures forall i :: 0 <= i < |Pages(s, pageSize)| ==> 0 < |Pages(s, pageSize)[i]| <= pageSize
    ensures forall i :: 0 <= i < |Pages(s, pageSize)| - 1 ==> |Pages(s, pageSize)[i]| == pageSize
    decreases |s|
  {
    if |s| > 0 {
      var rest := Skip(s, pageSize);
      PagesSized(rest, pageSize);
      var pages := Pages(s, pageSize);
      assert forall i :: 1 <= i < |pages| ==> pages[i] == Pages(rest, pageSize)[i - 1];
      if |rest| > 0 {
        assert |s| > pageSize;
      }
    }
  }

  /** `d * x` for a positive `d` lies strictly between `0` and `2 * d` only at `x == 1`. */
  lemma MulBetween(d: int, x: int)
    requires d > 0 && 0 < d * x < 2 * d
    ensures x == 1
  {
  }

  /** `(n + d) / d == n / d + 1` for a positive divisor. */
  lemma DivAddDivisor(n: nat, d: int)
    requires d > 0
    ensures (n + d) / d == n / d + 1
  {
    var x := (n + d) / d - n / d;
    assert d * x == d * ((n + d) / d) - d * (n / d);
    assert d * x == d + n % d - (n + d) % d;
    MulBetween(d, x);
  }

  /** `ceil(n / d) == 1` for `0 < n <= d`. */
  lemma CeilOne(n: nat, d: int)
    requires 0 < n <= d
    ensures (n + d - 1) / d == 1
  {
    DivAddDivisor(n - 1, d);
    assert (n - 1) / d == 0;
  }

  /** There are `ceil(n / pageSize)` pages for `n` source elements. */
  lemma {:induction false} PagesCount<T>(s: seq<T>, pageSize: int)
    requires pageSize > 0
    ensures |Pages(s, pageSize)| == (|s| + pageSize - 1) / pageSize
    decreases |s|
  {
    if |s| > 0 {
      var rest := Skip(s, pageSize);
      assert |Pages(s, pageSize)| == 1 + |Pages(rest, pageSize)|;
      if |s| <= pageSize {
        assert rest == [];
        CeilOne(|s|, pageSize);
      } else {
        assert |rest| == |s| - pageSize;
        PagesCount(rest, pageSize);
        DivAddDivisor(|rest| + pageSize - 1, pageSize);
      }
    }
  }

  /**
   * `SplitPages(source, pageSize)`: while anything is left, yield the next `pageSize` elements as a
   * page and skip past them. `pageSize > 0` is needed for the loop to end; see
   * `NonPositivePageSizeNeverEnds`.
   */
  method SplitPages<T>(source: seq<T>, pageSize: int) returns (pages: seq<seq<T>>)
    requires pageSize > 0
    ensures pages == Pages(source, pageSize)
    ensures Flatten(pages) == source
    ensures forall i :: 0 <= i < |pages| ==> 0 < |pages[i]| <= pageSize
    ensures forall i :: 0 <= i < |pages| - 1 ==> |pages[i]| == pageSize
  {
    var rest := source;
    pages := [];
    while |rest| > 0
      invariant pages + Pages(rest, pageSize) == Pages(source, pageSize)
      decreases |rest|
    {
      pages := pages + [Take(rest, pageSize)];
      rest := Skip(rest, pageSize);
    }
    FlattenPages(source, pageSize);
    PagesSized(source, pageSize);
  }

  /** The variables of the `SplitPages` loop: the pages yielded so far and the current `source`. */
  datatype PagingState<T> = PagingState(yielded: seq<seq<T>>, source: seq<T>)

  /** The state after at most `k` more passes of the loop, which stops once `source` is empty. */
  function RunPaging<T>(st: PagingState<T>, pageSize: int, k: nat): PagingState<T>
    decreases k
  {
    if k == 0 || |st.source| == 0 then st
    else RunPaging(PagingState(st.yielded + [Take(st.source, pageSize)], Skip(st.source, pageSize)), pageSize, k - 1)
  }

  /**
   * With `pageSize <= 0` and a non-empty source, `Take` yields nothing and `Skip` leaves the source
   * as it is: after any number of passes the loop has yielded only empty pages and still runs.
   */
  lemma {:induction false} NonPositivePageSizeNeverEnds<T>(yielded: seq<seq<T>>, s: seq<T>, pageSize: int, k: nat)
    requires pageSize <= 0 && |s| > 0
    ensures RunPaging(PagingState(yielded, s), pageSize, k) == PagingState(yielded + seq(k, _ => []), s)
    decreases k
  {
    if k > 0 {
      NonPositivePageSizeNeverEnds(yielded + [[]], s, pageSize, k - 1);
      assert yielded + [[]] + seq(k - 1, _ => []) == yielded + seq(k, _ => []);
    }
  }

  /** With `pageSize > 0` the loop has stopped after `|source|` passes, having yielded exactly `Pages`. */
  lemma {:induction false} PositivePageSizeEnds<T>(yielded: seq<seq<T>>, s: seq<T>, pageSize: int, k: nat)
    requires pageSize > 0 && k >= |s|
    ensures RunPaging(PagingState(yielded, s), pageSize, k) == PagingState(yielded + Pages(s, pageSize), [])
    decreases |s|
  {
    if |s| > 0 {
      var rest := Skip(s, pageSize);
      PositivePageSizeEnds(yielded + [Take(s, pageSize)], rest, pageSize, k - 1);
      assert yielded + [Take(s, pageSize)] + Pages(rest, pageSize) == yielded + Pages(s, pageSize);
    }
  }
}
