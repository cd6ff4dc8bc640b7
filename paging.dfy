/** The page/limit slicing shared by the product, stock-movement and category
    lists: `page = params.page || 1`, `limit = params.limit || 10`,
    `slice((page - 1) * limit, (page - 1) * limit + limit)` and
    `totalPages = Math.ceil(total / limit)`. */
module Paging {
  import opened Wrappers
  import opened Seqs

  datatype Meta = Meta(page: int, limit: int, total: nat, totalPages: int)

  datatype Page<T> = Page(items: seq<T>, meta: Meta)

  /** The metadata the unpaged lists report: the count, page 1 and limit 100,
      whatever the caller asked for. */
  datatype ListMeta = ListMeta(total: nat, page: int, limit: int)

  datatype Listing<T> = Listing(data: seq<T>, meta: ListMeta)

  function Unpaged<T>(items: seq<T>): Listing<T>
  {
    Listing(items, ListMeta(|items|, 1, 100))
  }

  /** `x || fallback` for an optional number: both `undefined` and 0 fall back. */
  function OrDefault(x: Option<int>, fallback: int): (r: int)
    ensures (x.None? || x.value == 0) ==> r == fallback
    ensures (x.Some? && x.value != 0) ==> r == x.value
    ensures fallback != 0 ==> r != 0
  {
    if x.Some? && x.value != 0 then x.value else fallback
  }

  /** `Math.ceil(total / limit)` for a non-zero integer limit. */
  function CeilDiv(total: nat, limit: int): int
    requires limit != 0
  {
    if limit > 0 then (total + limit - 1) / limit else -(total / -limit)
  }

  /** For a positive limit, `CeilDiv` is the least page count whose pages hold every item. */
  lemma CeilDivBounds(total: nat, limit: int)
    requires limit > 0
    ensures var r := CeilDiv(total, limit);
      0 <= r && total <= r * limit && (r == 0 || (r - 1) * limit < total)
  {
    var r := (total + limit - 1) / limit;
    assert r * limit <= total + limit - 1 < r * limit + limit;
  }

  function Min(a: int, b: int): int
  {
    if a <= b then a else b
  }

  /** Index of the first item of page `pg` at `lim` per page. */
  function PageStart(pg: int, lim: int): (r: int)
    ensures pg >= 1 && lim >= 1 ==> r >= 0
  {
    (pg - 1) * lim
  }

  lemma PageStartStep(pg: int, lim: int)
    requires pg >= 1 && lim >= 1
    ensures 0 <= PageStart(pg, lim) && PageStart(pg + 1, lim) == PageStart(pg, lim) + lim
  {
  }

  /** `slice(start, start + lim)` from a non-negative start is a window of at most `lim`. */
  lemma SliceWindow<T>(items: seq<T>, start: int, lim: int)
    requires start >= 0 && lim >= 1
    ensures var w := JsSlice(items, start, start + lim);
      |w| <= lim && w == items[Min(start, |items|)..Min(start + lim, |items|)]
  {
  }

  /** The items of page `pg` at `lim` per page: `slice(start, start + lim)`. */
  function Window<T>(items: seq<T>, pg: int, lim: int): (w: seq<T>)
    ensures forall k :: 0 <= k < |w| ==> w[k] in items
    ensures pg >= 1 && lim >= 1 ==>
      |w| <= lim && w == items[Min(PageStart(pg, lim), |items|)..Min(PageStart(pg, lim) + lim, |items|)]
  {
    var start := PageStart(pg, lim);
    JsSliceMembers(items, start, start + lim);
    if pg >= 1 && lim >= 1 then
      PageStartStep(pg, lim);
      SliceWindow(items, start, lim);
      JsSlice(items, start, start + lim)
    else JsSlice(items, start, start + lim)
  }

  /** One page of `items` and its metadata. */
  function Paginate<T>(items: seq<T>, page: Option<int>, limit: Option<int>): (r: Page<T>)
    ensures r.meta.page == OrDefault(page, 1) && r.meta.limit == OrDefault(limit, 10)
    ensures r.meta.total == |items|
    ensures r.meta.limit != 0 && r.meta.totalPages == CeilDiv(|items|, r.meta.limit)
    ensures r.items == Window(items, r.meta.page, r.meta.limit)
  {
    var pg := OrDefault(page, 1);
    var lim := OrDefault(limit, 10);
    Page(Window(items, pg, lim), Meta(pg, lim, |items|, CeilDiv(|items|, lim)))
  }

  /** Page `k` from 1 at `limit` per page is the window starting at `PageStart(k, limit)`. */
  lemma PageItems<T>(items: seq<T>, k: int, limit: int)
    requires k >= 1 && limit >= 1
    ensures Paginate(items, Some(k), Some(limit)).items
      == items[Min(PageStart(k, limit), |items|)..Min(PageStart(k, limit) + limit, |items|)]
  {
    var p := Paginate(items, Some(k), Some(limit));
    assert p.meta.page == k && p.meta.limit == limit;
  }

  /** Pages 1..k of `items` at `limit` per page, concatenated: each is the `Window` that
      `Paginate` returns as its items. */
  function FirstPages<T>(items: seq<T>, limit: int, k: nat): seq<T>
    requires limit >= 1
  {
    if k == 0 then [] else FirstPages(items, limit, k - 1) + Window(items, k, limit)
  }

  /** Pages 1..k together are exactly the first k * limit items. */
  lemma {:induction false} FirstPagesArePrefix<T>(items: seq<T>, limit: int, k: nat)
    requires limit >= 1
    ensures FirstPages(items, limit, k) == items[..Min(PageStart(k + 1, limit), |items|)]
  {
    if k > 0 {
      FirstPagesArePrefix(items, limit, k - 1);
      PageStartStep(k, limit);
      var a := Min(PageStart(k, limit), |items|);
      var b := Min(PageStart(k + 1, limit), |items|);
      assert FirstPages(items, limit, k) == items[..a] + items[a..b];
      PrefixJoin(items, a, b);
    }
  }

  /** Paging through pages 1..totalPages returns every item once, in order. */
  lemma PagesCoverAll<T>(items: seq<T>, limit: int)
    requires limit >= 1
    ensures FirstPages(items, limit, CeilDiv(|items|, limit)) == items
  {
    var n := CeilDiv(|items|, limit);
    CeilDivBounds(|items|, limit);
    FirstPagesArePrefix(items, limit, n);
    assert PageStart(n + 1, limit) == n * limit;
  }

  /** Page 2 at 10 per page of 25 items holds items 11 to 20, and there are 3 pages. */
  lemma SecondPageOfTwentyFive<T>(items: seq<T>)
    requires |items| == 25
    ensures var r := Paginate(items, Some(2), Some(10));
      r.items == items[10..20] && r.meta.totalPages == 3 && r.meta.total == 25
  {
  }
}
