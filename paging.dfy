/** Offset paging as both the socialbanking and the wallet trees do it: the
    one-based `PageRequest` with its defaults, its zero-based Spring
    `Pageable`, the Spring `Page` a repository returns, the `PageInfo`
    block of a response, and the `PaginatedResponse` wrapper. The two
    trees' copies of these records are identical and share this module. */
module Paging {
  import opened Wrappers
  import opened JavaText

  const DEFAULT_PAGE := 1
  const DEFAULT_LIMIT := 20

  /** The request's page (one-based) and page size. */
  datatype PageRequest = PageRequest(page: int, limit: int)

  /** The canonical constructor: a missing page is 1, a missing limit 20. */
  function NewPageRequest(page: Option<int>, limit: Option<int>): (r: PageRequest)
    ensures page.Some? ==> r.page == page.value
    ensures page.None? ==> r.page == DEFAULT_PAGE
    ensures limit.Some? ==> r.limit == limit.value
    ensures limit.None? ==> r.limit == DEFAULT_LIMIT
  {
    PageRequest(page.GetOr(DEFAULT_PAGE), limit.GetOr(DEFAULT_LIMIT))
  }

  /** What the controllers let through: a page of at least 1 that fits an
      `Integer`, and a limit between 1 and `maxLimit` (100 for accounts,
      goals and loans, 20 for payees). */
  predicate ValidRequest(r: PageRequest, maxLimit: int) {
    1 <= r.page <= INT_MAX && 1 <= r.limit <= maxLimit
  }

  /** Spring's `Pageable`: a zero-based page number and a page size. */
  datatype Pageable = Pageable(pageNumber: nat, pageSize: nat)

  /** Spring's offset of a `Pageable`, computed in `long`, so exact here. */
  function PageableOffset(p: Pageable): nat {
    p.pageNumber * p.pageSize
  }

  /** `toPageable`: page `n` of the request is page `n - 1` for Spring. */
  function ToPageable(r: PageRequest): (p: Pageable)
    requires r.page >= 1 && r.limit >= 1
    ensures p.pageNumber + 1 == r.page && p.pageSize == r.limit
  {
    Pageable(r.page - 1, r.limit)
  }

  /** `getOffset` as written: `(page - 1) * limit` in 32-bit `int`
      arithmetic, which wraps around for large pages. */
  function GetOffsetAsWritten(r: PageRequest): (offset: int)
    requires r.page >= 1 && r.limit >= 1
    ensures IsInt32(offset)
    ensures (r.page - 1) * r.limit <= INT_MAX ==> offset == PageableOffset(ToPageable(r))
  {
    Wrap32((r.page - 1) * r.limit)
  }

  /** `getOffset` as intended: the number of rows on the pages before this
      one, the same offset Spring derives from `toPageable`. */
  function GetOffset(r: PageRequest): (offset: nat)
    requires r.page >= 1 && r.limit >= 1
    ensures offset == PageableOffset(ToPageable(r))
  {
    (r.page - 1) * r.limit
  }

  /** `stream().skip(offset).limit(limit)`: at most `limit` rows starting at
      row `offset`; nothing when `offset` is at or past the end. */
  function Window<T>(rows: seq<T>, offset: nat, limit: nat): (w: seq<T>)
    ensures offset >= |rows| ==> w == []
    ensures offset < |rows| ==> |w| == (if offset + limit <= |rows| then limit else |rows| - offset)
    ensures forall i :: 0 <= i < |w| ==> offset + i < |rows| && w[i] == rows[offset + i]
  {
    if offset >= |rows| then []
    else if offset + limit <= |rows| then rows[offset..offset + limit]
    else rows[offset..]
  }

  /** `skip` with an `int` argument: a negative count throws
      `IllegalArgumentException`, modelled as `None`. */
  function SkipLimit<T>(rows: seq<T>, offset: int, limit: nat): (w: Option<seq<T>>)
    ensures w.None? <==> offset < 0
    ensures offset >= 0 ==> w == Some(Window(rows, offset, limit))
  {
    if offset < 0 then None else Some(Window(rows, offset, limit))
  }

  /** `ceil(total / size)` for a positive size. */
  function CeilDiv(total: nat, size: nat): nat
    requires size >= 1
  {
    (total + size - 1) / size
  }

  /** The ceiling is the least page count whose pages hold every row. */
  lemma CeilDivIsLeast(total: nat, size: nat)
    requires size >= 1
    ensures CeilDiv(total, size) * size >= total
    ensures CeilDiv(total, size) == 0 || (CeilDiv(total, size) - 1) * size < total
    ensures CeilDiv(total, size) <= total
  {
    var q := CeilDiv(total, size);
    var r := (total + size - 1) % size;
    assert total + size - 1 == q * size + r && 0 <= r < size;
    assert (q - 1) * size == q * size - size;
    if q > total {
      MulMonotone(total + 1, q, size);
      assert (total + 1) * size == total * size + size;
      MulMonotone(1, size, total);
    }
  }

  lemma MulMonotone(a: nat, b: nat, c: nat)
    requires a <= b
    ensures a * c <= b * c
  {
    assert b * c == a * c + (b - a) * c;
  }

  /** Spring's `getTotalPages`: one page when the size is 0, otherwise the
      ceiling of `total / size`. */
  function TotalPages(total: nat, size: nat): nat {
    if size == 0 then 1 else CeilDiv(total, size)
  }

  /** Spring's `Page<T>`: the rows of one page and the numbers around it. */
  datatype SpringPage<T> = SpringPage(content: seq<T>, number: nat, size: nat, totalElements: nat)

  /** What a paging repository query returns for the matching `rows`. */
  function PageOf<T>(rows: seq<T>, p: Pageable): (page: SpringPage<T>)
    ensures page.content == Window(rows, PageableOffset(p), p.pageSize)
    ensures page.number == p.pageNumber && page.size == p.pageSize && page.totalElements == |rows|
  {
    SpringPage(Window(rows, PageableOffset(p), p.pageSize), p.pageNumber, p.pageSize, |rows|)
  }

  /** `Page.map`: the same page with every row converted. */
  function MapPage<T, U>(page: SpringPage<T>, f: T -> U): (mapped: SpringPage<U>)
    ensures |mapped.content| == |page.content|
    ensures forall i :: 0 <= i < |page.content| ==> mapped.content[i] == f(page.content[i])
    ensures mapped.number == page.number && mapped.size == page.size
    ensures mapped.totalElements == page.totalElements
  {
    SpringPage(seq(|page.content|, i requires 0 <= i < |page.content| => f(page.content[i])),
               page.number, page.size, page.totalElements)
  }

  /** The pagination block of a response. */
  datatype PageInfo = PageInfo(page: int, limit: int, total: int, totalPages: int)

  /** `PageInfo.of`: echoes the request and counts the pages `total` rows
      fill. The `double` division and `Math.ceil` are exact here, since a
      count below 2^31 and a limit of at most 100 leave every non-integral
      quotient far from an integer; the result fits an `int`. */
  function PageInfoOf(page: int, limit: int, total: nat): (info: PageInfo)
    requires 1 <= limit <= 100 && total <= INT_MAX
    ensures info.page == page && info.limit == limit && info.total == total
    ensures 0 <= info.totalPages <= total
    ensures info.totalPages * limit >= total
    ensures info.totalPages == 0 || (info.totalPages - 1) * limit < total
  {
    CeilDivIsLeast(total, limit);
    PageInfo(page, limit, total, CeilDiv(total, limit))
  }

  /** `PageInfo.fromSpringPage`: Spring's zero-based number made one-based. */
  function FromSpringPage<T>(p: SpringPage<T>): (info: PageInfo)
    ensures info.page == p.number + 1 && info.limit == p.size && info.total == p.totalElements
    ensures info.totalPages == TotalPages(p.totalElements, p.size)
  {
    PageInfo(p.number + 1, p.size, p.totalElements, TotalPages(p.totalElements, p.size))
  }

  datatype PaginatedResponse<T> = PaginatedResponse(data: seq<T>, pagination: PageInfo)

  /** `PaginatedResponse.fromSpringPage`: the page's rows and its info. */
  function ResponseFromSpringPage<T>(p: SpringPage<T>): (resp: PaginatedResponse<T>)
    ensures resp.data == p.content && resp.pagination == FromSpringPage(p)
  {
    PaginatedResponse(p.content, FromSpringPage(p))
  }

  /** The two ways the services build a `PageInfo` agree: through Spring
      (`toPageable`, then `fromSpringPage`) and by hand (`PageInfo.of` on
      the request and the row count). */
  lemma PageInfoPathsAgree<T>(rows: seq<T>, r: PageRequest)
    requires ValidRequest(r, 100) && |rows| <= INT_MAX
    ensures FromSpringPage(PageOf(rows, ToPageable(r))) == PageInfoOf(r.page, r.limit, |rows|)
  {
  }

  /** A page holds rows exactly when its number is within `totalPages`;
      the pages `1..totalPages` together are the whole row list. */
  lemma PageNonEmptyIffWithinTotal<T>(rows: seq<T>, r: PageRequest)
    requires ValidRequest(r, 100) && |rows| <= INT_MAX
    ensures |Window(rows, GetOffset(r), r.limit)| > 0 <==> r.page <= PageInfoOf(r.page, r.limit, |rows|).totalPages
  {
    var tp := PageInfoOf(r.page, r.limit, |rows|).totalPages;
    if r.page <= tp {
      assert (r.page - 1) * r.limit <= (tp - 1) * r.limit;
    } else {
      assert (r.page - 1) * r.limit >= tp * r.limit;
    }
  }

  /** The pages a client reads from page 1 up to `totalPages`, in order. */
  function PagesUpTo<T>(rows: seq<T>, limit: nat, pages: nat): seq<T>
    requires limit >= 1
  {
    if pages == 0 then [] else PagesUpTo(rows, limit, pages - 1) + Window(rows, (pages - 1) * limit, limit)
  }

  /** The rows before `lo` followed by the window at `lo` are the rows
      before `lo + limit`, both cut at the end of the rows. */
  lemma WindowExtendsPrefix<T>(rows: seq<T>, lo: nat, limit: nat)
    ensures rows[..if lo <= |rows| then lo else |rows|] + Window(rows, lo, limit)
            == rows[..if lo + limit <= |rows| then lo + limit else |rows|]
  {
    if lo >= |rows| {
    } else if lo + limit <= |rows| {
      assert rows[..lo] + rows[lo..lo + limit] == rows[..lo + limit];
    } else {
      assert rows[..lo] + rows[lo..] == rows[..|rows|];
    }
  }

  lemma {:induction false} PagesUpToIsPrefix<T>(rows: seq<T>, limit: nat, pages: nat)
    requires limit >= 1
    ensures PagesUpTo(rows, limit, pages) == rows[..if pages * limit <= |rows| then pages * limit else |rows|]
  {
    if pages > 0 {
      PagesUpToIsPrefix(rows, limit, pages - 1);
      var lo := (pages - 1) * limit;
      assert pages * limit == lo + limit;
      WindowExtendsPrefix(rows, lo, limit);
    }
  }

  /** Reading pages 1 to `totalPages` returns every row once, in order. */
  lemma AllPagesCoverRows<T>(rows: seq<T>, limit: int)
    requires 1 <= limit <= 100 && |rows| <= INT_MAX
    ensures PagesUpTo(rows, limit, PageInfoOf(1, limit, |rows|).totalPages) == rows
  {
    var tp := PageInfoOf(1, limit, |rows|).totalPages;
    PagesUpToIsPrefix(rows, limit, tp);
    assert rows[..|rows|] == rows;
  }

  /** Page 1073741825 of 20 payees passes validation, but `getOffset`
      wraps `1073741824 * 20 = 5 * 2^32` to 0 and serves the first page
      again, where the intended offset lies past any payee list. */
  lemma GetOffsetWrapsToFirstPage()
    ensures var r := PageRequest(1073741825, 20);
            && ValidRequest(r, 20)
            && GetOffsetAsWritten(r) == 0
            && GetOffset(r) == 21474836480
  {
  }

  /** Page 107374184 of 20 payees passes validation, but `getOffset`
      wraps `107374183 * 20 = 2147483660` to -2147483636 and `skip` throws,
      where the intended answer is an empty page. */
  lemma GetOffsetWrapsNegative<T>(rows: seq<T>)
    requires |rows| <= INT_MAX
    ensures var r := PageRequest(107374184, 20);
            && ValidRequest(r, 20)
            && GetOffsetAsWritten(r) == -2147483636
            && SkipLimit(rows, GetOffsetAsWritten(r), r.limit).None?
            && Window(rows, GetOffset(r), r.limit) == []
  {
  }

  /** The wallet's pagination examples, written against the model. */
  lemma WalletPaginationExamples()
    ensures NewPageRequest(None, None) == PageRequest(1, 20)
    ensures GetOffset(PageRequest(2, 10)) == 10
    ensures ToPageable(PageRequest(2, 10)) == Pageable(1, 10)
    ensures PageInfoOf(2, 10, 150) == PageInfo(2, 10, 150, 15)
    ensures ResponseFromSpringPage(SpringPage(["item1", "item2", "item3"], 1, 10, 100))
            == PaginatedResponse(["item1", "item2", "item3"], PageInfo(2, 10, 100, 10))
  {
  }
}
