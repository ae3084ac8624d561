/** Pagination end to end: the server's page arithmetic (pkg/apiresponse/apiresponse.go, the limit and offset of
    list queries) and the client's fetchAllPages (app.js), over a list that does not change meanwhile. */
module Pagination {
  import opened Wrappers

  const DEFAULT_PAGE_SIZE := 20
  const MAX_PAGE_SIZE := 100

  datatype Page<T> = Page(items: seq<T>, page: int, pageSize: int, total: int, totalPages: int)

  /** The two query parameters as strconv.Atoi reads them, None where that fails. */
  function ParsePageQuery(page: Option<int>, pageSize: Option<int>): (int, int) {
    var size := if pageSize.Some? && pageSize.value > 0 then pageSize.value else DEFAULT_PAGE_SIZE;
    (if page.Some? && page.value > 0 then page.value else 1, if size > MAX_PAGE_SIZE then MAX_PAGE_SIZE else size)
  }

  /** The clamping of ListUsers, which sees what ParsePageQuery returned. */
  function ListUsersClamp(page: int, pageSize: int): (int, int) {
    (if page < 1 then 1 else page, if pageSize < 1 || pageSize > 100 then 20 else pageSize)
  }

  function TotalPages(pageSize: int, total: int): int {
    if pageSize > 0 then (total + pageSize - 1) / pageSize else 0
  }

  /** LIMIT limit OFFSET offset. */
  function Window<T>(list: seq<T>, limit: nat, offset: nat): seq<T> {
    if offset >= |list| then []
    else if offset + limit >= |list| then list[offset..]
    else list[offset..offset + limit]
  }

  lemma {:induction false} WindowFits<T>(list: seq<T>, limit: nat, offset: nat)
    ensures |Window(list, limit, offset)| <= limit
  {}

  /** One list endpoint: parse, query, describe. */
  function Serve<T>(list: seq<T>, page: Option<int>, pageSize: Option<int>): Page<T> {
    var (p, size) := ParsePageQuery(page, pageSize);
    Page(Window(list, size, (p - 1) * size), p, size, |list|, TotalPages(size, |list|))
  }

  /** Whatever the query says, a page is between 1 and 100 rows of the list, the default applies where the
      parameter is missing, malformed or not positive, and a request in range is served as asked. */
  lemma {:induction false} QueriesAreClamped<T>(list: seq<T>, page: Option<int>, pageSize: Option<int>)
    ensures var r := Serve(list, page, pageSize);
            && 1 <= r.page && 1 <= r.pageSize <= 100 && |r.items| <= r.pageSize
            && (page.Some? && page.value >= 1 ==> r.page == page.value)
            && (page.None? || page.value < 1 ==> r.page == 1)
            && (pageSize.None? || pageSize.value < 1 ==> r.pageSize == 20)
            && (pageSize.Some? && pageSize.value >= 1 ==>
                  r.pageSize == if pageSize.value <= 100 then pageSize.value else 100)
            && ListUsersClamp(r.page, r.pageSize) == (r.page, r.pageSize)
  {
    var (p, size) := ParsePageQuery(page, pageSize);
    assert (p - 1) * size >= 0;
    WindowFits(list, size, (p - 1) * size);
  }

  /** TotalPages is the least number of pages that hold the total. */
  lemma TotalPagesIsLeast(pageSize: int, total: nat, k: int)
    requires pageSize > 0
    ensures TotalPages(pageSize, total) <= k <==> total <= k * pageSize
  {
    var t := TotalPages(pageSize, total);
    assert total <= t * pageSize < total + pageSize;
    if k < t {
      assert k * pageSize <= (t - 1) * pageSize;
    } else {
      assert t * pageSize <= k * pageSize;
    }
  }

  /** Pages 1 to k of one size, joined. */
  function Joined<T>(list: seq<T>, pageSize: nat, k: nat): seq<T> {
    if k == 0 then [] else Joined(list, pageSize, k - 1) + Window(list, pageSize, (k - 1) * pageSize)
  }

  function Upto(n: nat, bound: nat): nat {
    if n <= bound then n else bound
  }

  lemma WindowExtendsPrefix<T>(list: seq<T>, limit: nat, offset: nat)
    ensures list[..Upto(offset, |list|)] + Window(list, limit, offset) == list[..Upto(offset + limit, |list|)]
  {}

  lemma OneMorePage(pageSize: nat, k: nat)
    requires k > 0
    ensures k * pageSize == (k - 1) * pageSize + pageSize
  {}

  lemma {:induction false} JoinedIsPrefix<T>(list: seq<T>, pageSize: nat, k: nat)
    ensures k * pageSize >= 0 && Joined(list, pageSize, k) == list[..Upto(k * pageSize, |list|)]
  {
    if k > 0 {
      JoinedIsPrefix(list, pageSize, k - 1);
      OneMorePage(pageSize, k);
      WindowExtendsPrefix(list, pageSize, (k - 1) * pageSize);
    }
  }

  /** The pages that the metadata announces are the list: every item once and in order. */
  lemma {:induction false} PagesAreTheList<T>(list: seq<T>, pageSize: nat)
    requires pageSize > 0
    ensures 0 <= TotalPages(pageSize, |list|) && Joined(list, pageSize, TotalPages(pageSize, |list|)) == list
  {
    TotalPagesIsLeast(pageSize, |list|, TotalPages(pageSize, |list|));
    TotalPagesIsLeast(pageSize, |list|, -1);
    JoinedIsPrefix(list, pageSize, TotalPages(pageSize, |list|));
  }

  function PagesOf(n: nat): (r: nat)
    ensures r >= 1
  {
    if n == 0 then 1 else (n + 99) / 100
  }

  /** The client's loop; None is the error it throws. */
  method FetchAllPages<T>(list: seq<T>, cap: nat) returns (result: Option<seq<T>>, requests: nat)
    ensures result.Some? <==> |list| <= cap
    ensures result.Some? ==> result.value == list && requests == PagesOf(|list|)
    ensures result.None? ==> requests == 1
  {
    var items: seq<T> := [];
    var page, totalPages := 1, 1;
    requests := 0;
    while page <= totalPages
      invariant 1 <= page <= PagesOf(|list|) + 1 && requests == page - 1
      invariant totalPages == if page == 1 then 1 else TotalPages(100, |list|)
      invariant page > 1 ==> |list| <= cap
      invariant items == Joined(list, 100, page - 1)
      decreases PagesOf(|list|) + 1 - page
    {
      var answer := Serve(list, Some(page), Some(100));
      requests := requests + 1;
      if answer.total > cap { return None, requests; }
      items := items + answer.items;
      JoinedIsPrefix(list, 100, page);
      if |items| > cap { return None, requests; }
      totalPages := answer.totalPages;
      page := page + 1;
    }
    PagesAreTheList(list, 100);
    if list == [] {
      JoinedIsPrefix(list, 100, 1);
    }
    return Some(items), requests;
  }
}
