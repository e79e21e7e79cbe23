/** The page arithmetic shared by the product listing (12 per page) and the
    admin order listing (10 per page): `Number(pageNumber) || 1`,
    `.skip(pageSize * (page - 1)).limit(pageSize)` and
    `Math.ceil(count / pageSize)`. The query's own filtering and sorting are
    done by the database; here the query result is the sequence `xs`. */
module Pagination {
  import opened Domain

  /** What a listing handler answers with. */
  datatype Page<T> = Page(items: seq<T>, page: int, pages: nat, total: nat)

  function Min(a: int, b: int): int { if a <= b then a else b }

  /** `Number(pageNumber) || 1`. `None` stands for a missing or non-numeric
      page number (NaN); it and 0 are falsy, so both fall back to page 1. */
  function PageNumber(pageNumber: Option<int>): (page: int)
    ensures page != 0
    ensures page == 1 || pageNumber == Some(page)
    ensures pageNumber.Some? && pageNumber.value != 0 ==> page == pageNumber.value
  {
    if pageNumber.Some? && pageNumber.value != 0 then pageNumber.value else 1
  }

  /** `Math.ceil(count / pageSize)`: the least number of pages that holds `count` items. */
  function PageCount(count: nat, pageSize: nat): (pages: nat)
    requires pageSize > 0
    ensures count <= pages * pageSize
    ensures pages > 0 ==> (pages - 1) * pageSize < count
  {
    var pages := (count + pageSize - 1) / pageSize;
    assert count + pageSize - 1 == pages * pageSize + (count + pageSize - 1) % pageSize;
    pages
  }

  /** `.skip(skip).limit(limit)` once the skip is known not to be negative:
      as many items as there are, up to `limit`, starting at position `skip`. */
  function Slice<T>(xs: seq<T>, skip: nat, limit: nat): (r: seq<T>)
    ensures |r| <= limit
    ensures forall i :: 0 <= i < |r| ==> skip + i < |xs| && r[i] == xs[skip + i]
    ensures |r| == limit || skip + |r| >= |xs|
  {
    if skip >= |xs| then []
    else if skip + limit <= |xs| then xs[skip..skip + limit]
    else xs[skip..]
  }

  /** One listing request over the query result `xs`. A page number below 1
      gives a negative skip, which the database refuses; the handler turns
      that into a 500 answer. */
  function Paginate<T>(xs: seq<T>, pageSize: nat, pageNumber: Option<int>): (r: Result<Page<T>>)
    requires pageSize > 0
    ensures r.Ok? <==> PageNumber(pageNumber) >= 1
    ensures r.Err? ==> r.error == ServerError
    ensures r.Ok? ==>
      && r.value.page == PageNumber(pageNumber)
      && r.value.total == |xs|
      && r.value.pages == PageCount(|xs|, pageSize)
      && r.value.items == Slice(xs, pageSize * (r.value.page - 1), pageSize)
  {
    var page := PageNumber(pageNumber);
    if page < 1 then Err(ServerError) else Ok(PageAt(xs, pageSize, page))
  }

  /** The answer for a page numbered 1 or more. */
  function PageAt<T>(xs: seq<T>, pageSize: nat, page: int): (r: Page<T>)
    requires pageSize > 0 && page >= 1
    ensures r.page == page && r.total == |xs| && r.pages == PageCount(|xs|, pageSize)
    ensures r.items == Slice(xs, pageSize * (page - 1), pageSize)
  {
    MonotoneProduct(pageSize, 0, page - 1);
    Page(Slice(xs, pageSize * (page - 1), pageSize), page, PageCount(|xs|, pageSize), |xs|)
  }

  lemma {:induction false} MonotoneProduct(a: nat, b: nat, c: nat)
    requires b <= c
    ensures a * b <= a * c
  {
  }

  /** Pages 1 to `k` laid end to end. */
  function FirstPages<T>(xs: seq<T>, pageSize: nat, k: nat): seq<T>
    requires pageSize > 0
  {
    if k == 0 then [] else FirstPages(xs, pageSize, k - 1) + Slice(xs, pageSize * (k - 1), pageSize)
  }

  /** Pages 1 to `k` are exactly the first `k * pageSize` items (or all of them). */
  lemma {:induction false} FirstPagesArePrefix<T>(xs: seq<T>, pageSize: nat, k: nat)
    requires pageSize > 0
    ensures FirstPages(xs, pageSize, k) == xs[..Min(pageSize * k, |xs|)]
  {
    if k > 0 {
      FirstPagesArePrefix(xs, pageSize, k - 1);
      var skip := pageSize * (k - 1);
      assert pageSize * k == skip + pageSize;
      PrefixThenSlice(xs, skip, pageSize);
    }
  }

  /** The items before position `skip` followed by the slice at `skip` are the
      items before `skip + limit`. */
  lemma {:induction false} PrefixThenSlice<T>(xs: seq<T>, skip: nat, limit: nat)
    ensures xs[..Min(skip, |xs|)] + Slice(xs, skip, limit) == xs[..Min(skip + limit, |xs|)]
  {
    if skip < |xs| {
      assert xs[..skip] + xs[skip..Min(skip + limit, |xs|)] == xs[..Min(skip + limit, |xs|)];
    }
  }

  /** Walking pages 1 to `pages` visits every item once, in order. */
  lemma {:induction false} PagesCoverAll<T>(xs: seq<T>, pageSize: nat)
    requires pageSize > 0
    ensures FirstPages(xs, pageSize, PageCount(|xs|, pageSize)) == xs
  {
    var pages := PageCount(|xs|, pageSize);
    FirstPagesArePrefix(xs, pageSize, pages);
    assert Min(pageSize * pages, |xs|) == |xs|;
  }

  /** A page numbered 1 or more has items exactly when it is one of the `pages` pages. */
  lemma {:induction false} PageNonEmptyIff<T>(xs: seq<T>, pageSize: nat, page: int)
    requires pageSize > 0 && page >= 1
    ensures |Slice(xs, pageSize * (page - 1), pageSize)| > 0 <==> page <= PageCount(|xs|, pageSize)
  {
    var pages := PageCount(|xs|, pageSize);
    if page <= pages {
      MonotoneProduct(pageSize, page - 1, pages - 1);
    } else {
      MonotoneProduct(pageSize, pages, page - 1);
    }
  }
}
