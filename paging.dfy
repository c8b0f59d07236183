/**
  The two derived views of a paged observable array, `pageCount` and `page`,
  as pure functions of (totalCount, allData, pageSize, pageIndex), together with
  the JavaScript `Array.prototype.slice` that `page` is built on.
 */
module Paging {

  function Min(a: int, b: int): int { if a <= b then a else b }

  /** Ceiling division of a non-negative count by a positive size. */
  function CeilDiv(n: nat, size: nat): (q: nat)
    requires size >= 1
    ensures n <= size * q
    ensures q == 0 || size * (q - 1) < n
  {
    CeilDivBounds(n, size);
    (n + size - 1) / size
  }

  lemma CeilDivBounds(n: nat, size: nat)
    requires size >= 1
    ensures n <= size * ((n + size - 1) / size)
    ensures (n + size - 1) / size == 0 || size * ((n + size - 1) / size - 1) < n
  {
  }

  /** The count that pageCount divides: the server's totalCount when positive, else the local data length. */
  function EffectiveCount(totalCount: int, dataLength: nat): nat
  {
    if totalCount > 0 then totalCount else dataLength
  }

  /**
    `Math.ceil(count / pageSize) || 1`: the fewest pages of `pageSize` items that hold
    the effective count, and 1 when there is nothing to hold.
   */
  function PageCountOf(totalCount: int, dataLength: nat, pageSize: nat): (r: nat)
    requires pageSize >= 1
    ensures r >= 1
    ensures EffectiveCount(totalCount, dataLength) <= pageSize * r
    ensures EffectiveCount(totalCount, dataLength) == 0 ==> r == 1
    ensures EffectiveCount(totalCount, dataLength) > 0 ==> pageSize * (r - 1) < EffectiveCount(totalCount, dataLength)
  {
    var q := CeilDiv(EffectiveCount(totalCount, dataLength), pageSize);
    if q == 0 then 1 else q
  }

  /** How `slice` resolves one of its arguments against a sequence of length `len`. */
  function SliceIndex(k: int, len: nat): (r: nat)
    ensures r <= len
    ensures 0 <= k ==> r == Min(k, len)
  {
    if k < 0 then (if len + k < 0 then 0 else len + k)
    else if k > len then len
    else k
  }

  /**
    JavaScript `s.slice(start, end)`: a negative argument counts back from the end,
    both are clipped to the sequence, and an inverted range gives the empty sequence.
   */
  function Slice<T>(s: seq<T>, start: int, end: int): (r: seq<T>)
    ensures start <= end ==> |r| <= end - start
    ensures 0 <= start <= end ==> r == s[Min(start, |s|)..Min(end, |s|)]
    ensures forall k :: 0 <= k < |r| ==> r[k] in s
  {
    var lo, hi := SliceIndex(start, |s|), SliceIndex(end, |s|);
    if lo < hi then
      assert forall k :: 0 <= k < hi - lo ==> s[lo..hi][k] == s[lo + k];
      s[lo..hi]
    else []
  }

  /** `allData.slice(pageSize * pageIndex, pageSize * (pageIndex + 1))`. */
  function PageOf<T>(allData: seq<T>, pageSize: nat, pageIndex: int): (r: seq<T>)
    ensures |r| <= pageSize
    ensures 0 <= pageIndex ==>
      r == allData[Min(pageSize * pageIndex, |allData|)..Min(pageSize * pageIndex + pageSize, |allData|)]
    ensures forall k :: 0 <= k < |r| ==> r[k] in allData
  {
    MulSucc(pageSize, pageIndex);
    MulNonNegative(pageSize, pageIndex);
    Slice(allData, pageSize * pageIndex, pageSize * (pageIndex + 1))
  }

  lemma MulSucc(a: int, b: int)
    ensures a * (b + 1) == a * b + a
  {
  }

  /** The first `k` pages, one after another. */
  function Pages<T>(allData: seq<T>, pageSize: nat, k: nat): seq<T>
  {
    if k == 0 then [] else Pages(allData, pageSize, k - 1) + PageOf(allData, pageSize, k - 1)
  }

  /** The first `k` pages are exactly the first `pageSize * k` items (clipped). */
  lemma {:induction false} PagesArePrefix<T>(allData: seq<T>, pageSize: nat, k: nat)
    ensures Pages(allData, pageSize, k) == allData[..Min(pageSize * k, |allData|)]
  {
    if k > 0 {
      PagesArePrefix(allData, pageSize, k - 1);
      MulSucc(pageSize, k - 1);
      MulNonNegative(pageSize, k - 1);
      PrefixThenPage(allData, pageSize * (k - 1), pageSize);
    }
  }

  /** A clipped prefix followed by the clipped range after it is the longer clipped prefix. */
  lemma PrefixThenPage<T>(s: seq<T>, lo: int, size: nat)
    requires 0 <= lo
    ensures s[..Min(lo, |s|)] + s[Min(lo, |s|)..Min(lo + size, |s|)] == s[..Min(lo + size, |s|)]
  {
  }

  /**
    Client paging: with no server count, the pages 0 .. pageCount-1 laid end to end
    are the whole local data, each item once and in order.
   */
  lemma ClientPagesCoverData<T>(allData: seq<T>, pageSize: nat)
    requires pageSize >= 1
    ensures Pages(allData, pageSize, PageCountOf(0, |allData|, pageSize)) == allData
  {
    var n := PageCountOf(0, |allData|, pageSize);
    PagesArePrefix(allData, pageSize, n);
  }

  /**
    Client paging: every index in [0, pageCount) shows a non-empty page when there is data,
    and every page before the last one is full.
   */
  lemma ClientPageInRange<T>(allData: seq<T>, pageSize: nat, pageIndex: int)
    requires pageSize >= 1
    requires 0 <= pageIndex < PageCountOf(0, |allData|, pageSize)
    ensures |allData| > 0 ==> |PageOf(allData, pageSize, pageIndex)| >= 1
    ensures pageIndex < PageCountOf(0, |allData|, pageSize) - 1 ==> |PageOf(allData, pageSize, pageIndex)| == pageSize
  {
    var n := PageCountOf(0, |allData|, pageSize);
    MulSucc(pageSize, pageIndex);
    MulMonotone(pageSize, pageIndex, n - 1);
    if pageIndex < n - 1 {
      MulMonotone(pageSize, pageIndex + 1, n - 1);
    }
  }

  /**
    Server paging without aggregation keeps only the last fetched page in `allData`,
    so `page` shows nothing beyond the first page: the slice starts past the data.
   */
  lemma ServerPageBeyondData<T>(allData: seq<T>, pageSize: nat, pageIndex: int)
    requires |allData| <= pageSize && pageIndex >= 1
    ensures PageOf(allData, pageSize, pageIndex) == []
  {
    MulMonotone(pageSize, 1, pageIndex);
  }

  lemma MulMonotone(c: nat, a: int, b: int)
    requires a <= b
    ensures c * a <= c * b
  {
  }

  lemma MulNonNegative(a: nat, b: int)
    ensures 0 <= b ==> 0 <= a * b
  {
  }
}
