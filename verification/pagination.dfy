/** `paginate` and `validatePaginationParameters` of src/utils/utils.js: a
    list is cut into pages of `limit` items, numbered from 1. */
module Pagination {
  import opened Wrappers
  import opened Text

  /** `Math.ceil(n / limit)`. */
  function NumPages(n: nat, limit: int): (p: nat)
    requires limit >= 1
  {
    (n + limit - 1) / limit
  }

  /** The pages cover the list and the last one is not empty. */
  lemma NumPagesBounds(n: nat, limit: int)
    requires limit >= 1
    ensures var p := NumPages(n, limit);
            && (n == 0 <==> p == 0)
            && (p > 0 ==> (p - 1) * limit < n <= p * limit)
  {
    var p := NumPages(n, limit);
    var q := n + limit - 1;
    assert q == p * limit + q % limit;
    assert (p - 1) * limit == p * limit - limit;
  }

  const LIMIT_ERROR: string := "Limit query parameter must be greater than 0"

  function PageError(numPages: nat): string {
    "Page query parameter must be between 1 and " + IntToString(numPages)
    + ". Changing limit parameter can also change the number of pages."
  }

  function Min(a: int, b: int): int {
    if a <= b then a else b
  }

  /** A page in range starts inside the list. */
  lemma PageStart(n: nat, page: int, limit: int)
    requires limit >= 1 && 1 <= page <= NumPages(n, limit)
    ensures 0 <= (page - 1) * limit < n
  {
    var p := NumPages(n, limit);
    NumPagesBounds(n, limit);
    assert (p - 1) * limit - (page - 1) * limit == (p - page) * limit;
    assert 0 <= (page - 1) * limit;
  }

  /** `paginate(array, page, limit)`: the `page`-th run of `limit` items, or
      the message of the error it throws. */
  function Paginate<T>(xs: seq<T>, page: int, limit: int): (r: Result<seq<T>, string>)
    ensures r.Failure? <==> limit < 1 || page < 1 || page > NumPages(|xs|, limit)
    ensures r.Success? ==> 1 <= |r.value| <= limit
  {
    if limit < 1 then Failure(LIMIT_ERROR)
    else
      var numPages := NumPages(|xs|, limit);
      if page < 1 || page > numPages then Failure(PageError(numPages))
      else
        var start := (page - 1) * limit;
        PageStart(|xs|, page, limit);
        Success(xs[start .. Min(start + limit, |xs|)])
  }

  /** The error thrown: the limit is checked first, then the page. */
  lemma PaginateErrors<T>(xs: seq<T>, page: int, limit: int)
    ensures limit < 1 ==> Paginate(xs, page, limit) == Failure(LIMIT_ERROR)
    ensures limit >= 1 && (page < 1 || page > NumPages(|xs|, limit)) ==>
              Paginate(xs, page, limit) == Failure(PageError(NumPages(|xs|, limit)))
  {
  }

  /** Item `j` of page `page` is item `(page - 1) * limit + j` of the list. */
  lemma PageItems<T>(xs: seq<T>, page: int, limit: int)
    requires Paginate(xs, page, limit).Success?
    ensures var start := (page - 1) * limit;
            && 0 <= start && start + |Paginate(xs, page, limit).value| <= |xs|
            && Paginate(xs, page, limit).value == xs[start .. start + |Paginate(xs, page, limit).value|]
  {
    PageStart(|xs|, page, limit);
  }

  /** Every page but the last is full; the last holds what remains. */
  lemma PageLength<T>(xs: seq<T>, page: int, limit: int)
    requires Paginate(xs, page, limit).Success?
    ensures page < NumPages(|xs|, limit) ==> |Paginate(xs, page, limit).value| == limit
    ensures page == NumPages(|xs|, limit) ==>
              |Paginate(xs, page, limit).value| == |xs| - (page - 1) * limit
  {
    var n := |xs|;
    var p := NumPages(n, limit);
    var start := (page - 1) * limit;
    PageStart(n, page, limit);
    assert |Paginate(xs, page, limit).value| == Min(start + limit, n) - start;
    NumPagesBounds(n, limit);
    if page < p {
      PageFull(n, page, p, limit);
    }
  }

  lemma PageFull(n: nat, page: int, p: nat, limit: int)
    requires limit >= 1 && 1 <= page < p && (p - 1) * limit < n
    ensures (page - 1) * limit + limit <= n
  {
    MulMono(page, p - 1, limit);
  }

  lemma MulMono(a: int, b: int, c: int)
    requires a <= b && c >= 0
    ensures a * c <= b * c
  {
    var d := b - a;
    assert b * c == a * c + d * c;
  }

  /** An empty list has no page at all. */
  lemma PaginateEmpty<T>(xs: seq<T>, page: int, limit: int)
    requires xs == []
    ensures Paginate(xs, page, limit).Failure?
  {
  }

  /** Pages `1..k` laid end to end. */
  function PagesUpTo<T>(xs: seq<T>, limit: int, k: nat): seq<T>
    requires limit >= 1 && k <= NumPages(|xs|, limit)
  {
    if k == 0 then []
    else
      var page := Paginate(xs, k, limit);
      PagesUpTo(xs, limit, k - 1) + page.value
  }

  lemma {:induction false} PagesUpToPrefix<T>(xs: seq<T>, limit: int, k: nat)
    requires limit >= 1 && k <= NumPages(|xs|, limit)
    ensures PagesUpTo(xs, limit, k) == xs[..Min(k * limit, |xs|)]
  {
    if k > 0 {
      PagesUpToPrefix(xs, limit, k - 1);
      var start := (k - 1) * limit;
      PageStart(|xs|, k, limit);
      assert start + limit == k * limit;
      assert Min((k - 1) * limit, |xs|) == start;
      assert xs[..Min(start + limit, |xs|)] == xs[..start] + xs[start..Min(start + limit, |xs|)];
    }
  }

  /** The pages partition the list: read in order they give back every item
      exactly once. */
  lemma PagesPartition<T>(xs: seq<T>, limit: int)
    requires limit >= 1
    ensures PagesUpTo(xs, limit, NumPages(|xs|, limit)) == xs
  {
    PagesUpToPrefix(xs, limit, NumPages(|xs|, limit));
  }

  // ---------------------------------------------------------------------------
  // validatePaginationParameters
  // ---------------------------------------------------------------------------

  /** A query parameter: absent, or the string it was given. Both `undefined`
      and the empty string are falsy. */
  predicate Given(p: Option<string>) {
    p.Some? && p.value != ""
  }

  /** `validatePaginationParameters(req)` on `req.query.limit` and
      `req.query.page`: the message of the error it throws, if any. */
  function ValidatePaginationParameters(limit: Option<string>, page: Option<string>): (r: Option<string>)
    ensures r.None? <==> Given(limit) && Given(page)
    ensures !Given(limit) ==> r == Some("limit query parameter is required when using pagination")
    ensures Given(limit) && !Given(page) ==> r == Some("page query parameter is required when using pagination")
  {
    if !Given(limit) then Some("limit query parameter is required when using pagination")
    else if !Given(page) then Some("page query parameter is required when using pagination")
    else None
  }
}
