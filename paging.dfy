/** The pagination both dashboard lists share (src/app/dashboard/stations/page.tsx
    and src/app/dashboard/users/page.tsx): ten records a page, a page count
    computed from the server's total, and previous / next buttons that clamp
    the page number. */
module Paging {
  import opened Wrappers

  const PageSize := 10

  /** The query a list fetch sends; `search` is None when the request has
      no `search` key at all. */
  datatype Query = Query(page: int, limit: int, search: Option<string>)

  /** What a successful list call returns: the page of records and the total
      count, either of which may be missing from the body. */
  datatype Listing<T> = Listing(items: Option<seq<T>>, total: Option<int>)

  /** `data.items || []`. */
  function ItemsOr<T>(l: Listing<T>): (r: seq<T>)
    ensures l.items.None? ==> r == []
    ensures l.items.Some? ==> r == l.items.value
  {
    if l.items.Some? then l.items.value else []
  }

  /** `data.total || 0`. */
  function TotalOr<T>(l: Listing<T>): int {
    if l.total.Some? then l.total.value else 0
  }

  /** `Math.ceil(total / 10)`: the least page count whose pages hold `total`
      records. */
  function PageCount(total: int): (n: int)
    ensures PageSize * n >= total
    ensures PageSize * (n - 1) < total
  {
    -((-total) / PageSize)
  }

  /** The count of pages is 0 for no records and at least 1 otherwise. */
  lemma PageCountBounds(total: int)
    ensures total <= 0 ==> PageCount(total) <= 0
    ensures total == 0 ==> PageCount(total) == 0
    ensures total > 0 ==> 1 <= PageCount(total) <= total
  {
  }

  /** The pagination bar is shown only when there is more than one page. */
  predicate Shown(totalPages: int) {
    totalPages > 1
  }

  /** `Math.max(1, page - 1)`. */
  function PrevPage(page: int): (p: int)
    ensures p >= 1
    ensures page > 1 ==> p == page - 1
  {
    if page - 1 > 1 then page - 1 else 1
  }

  /** `Math.min(totalPages, page + 1)`. */
  function NextPage(page: int, totalPages: int): (p: int)
    ensures p <= totalPages
    ensures page < totalPages ==> p == page + 1
  {
    if page + 1 < totalPages then page + 1 else totalPages
  }

  predicate PrevDisabled(page: int) {
    page == 1
  }

  predicate NextDisabled(page: int, totalPages: int) {
    page == totalPages
  }

  /** From any page in range, both buttons keep the page in range; an
      enabled button moves exactly one page. */
  lemma StepsStayInRange(page: int, totalPages: int)
    requires Shown(totalPages) && 1 <= page <= totalPages
    ensures 1 <= PrevPage(page) <= totalPages && 1 <= NextPage(page, totalPages) <= totalPages
    ensures !PrevDisabled(page) ==> PrevPage(page) == page - 1
    ensures !NextDisabled(page, totalPages) ==> NextPage(page, totalPages) == page + 1
  {
  }

  /** The disabled buttons are exactly those that would not move. */
  lemma DisabledIffNoMove(page: int, totalPages: int)
    requires Shown(totalPages) && 1 <= page <= totalPages
    ensures PrevDisabled(page) <==> PrevPage(page) == page
    ensures NextDisabled(page, totalPages) <==> NextPage(page, totalPages) == page
  {
  }

  /** The page a click leaves: a disabled button does nothing. */
  function AfterPrev(page: int): int {
    if PrevDisabled(page) then page else PrevPage(page)
  }

  function AfterNext(page: int, totalPages: int): int {
    if NextDisabled(page, totalPages) then page else NextPage(page, totalPages)
  }
}
