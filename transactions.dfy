/** `TransactionServiceImpl` of the socialbanking tree: transaction history
    paged by an opaque cursor, and the summary list the payee views are
    built from.

    A cursor is the unpadded base64url encoding of the ASCII text "o:"
    followed by the decimal offset of the first row of the next page.
    Decoding never fails: a missing, blank or malformed cursor means
    offset 0. */
module Transactions {
  import opened Wrappers
  import opened JavaText
  import opened Base64Url

  /** A row of the transactions table. */
  datatype TransactionEntity = TransactionEntity(
    transactionId: string, userId: string, name: string, image: string, isBank: Option<bool>)

  datatype TransactionItem = TransactionItem(
    transactionId: string, name: string, image: string, isBank: Option<bool>)

  datatype TransactionSummary = TransactionSummary(transactionId: string, name: string, image: string)

  datatype TransactionsPage = TransactionsPage(items: seq<TransactionItem>, nextCursor: Option<string>)

  /** The bounds the controller validates `limit` against. */
  const MIN_LIMIT := 1
  const MAX_LIMIT := 100

  /** The bytes "o:" that every cursor text starts with. */
  const CURSOR_PREFIX: seq<byte> := [111, 58]

  // ---------------------------------------------------------------- cursor

  /** The text a cursor encodes, `"o:" + offset`, as UTF-8 bytes (all
      ASCII, so one byte per character). */
  function CursorText(offset: nat): seq<byte> {
    CURSOR_PREFIX + DecimalBytes(offset)
  }

  /** `encodeCursor`: URL-safe, non-empty, and it decodes (as base64url)
      to exactly the cursor text. */
  function EncodeCursor(offset: nat): (c: string)
    requires offset <= INT_MAX
    ensures |c| > 0 && AllUrlChars(c)
    ensures Decode(c) == Some(CursorText(offset))
  {
    DecodeEncode(CursorText(offset));
    EncodeUnpadded(CursorText(offset))
  }

  /** `decodeCursor`: total, and always an `int`. A null or blank cursor,
      one that is not base64url, one whose text does not start with "o:",
      and one whose tail is not an `int` all give 0. The tail may carry a
      sign, so a negative offset can come out; the caller clamps it. */
  function DecodeCursor(cursor: Option<string>): (n: int)
    ensures IsInt32(n)
  {
    if cursor.None? || IsBlank(cursor.value) then 0
    else match Decode(cursor.value)
      case None => 0
      case Some(text) =>
        if !StartsWith(text, CURSOR_PREFIX) then 0
        else ParseInt(text[|CURSOR_PREFIX|..]).GetOr(0)
  }

  /** Round trip: every offset the service can emit decodes back to itself. */
  lemma DecodeEncodeCursor(offset: nat)
    requires offset <= INT_MAX
    ensures DecodeCursor(Some(EncodeCursor(offset))) == offset
  {
    var c := EncodeCursor(offset);
    assert !IsBlank(c) by {
      assert IsUrlChar(c[0]);
    }
    assert CursorText(offset)[|CURSOR_PREFIX|..] == DecimalBytes(offset);
    ParseIntOfDecimal(offset);
  }

  /** Every kind of malformed cursor decodes to 0. */
  lemma MalformedCursorIsZero(cursor: Option<string>)
    requires || cursor.None?
             || IsBlank(cursor.value)
             || Decode(cursor.value).None?
             || !StartsWith(Decode(cursor.value).value, CURSOR_PREFIX)
             || ParseInt(Decode(cursor.value).value[2..]).None?
    ensures DecodeCursor(cursor) == 0
  {
  }

  /** Distinct offsets give distinct cursors. */
  lemma EncodeCursorInjective(m: nat, n: nat)
    requires m <= INT_MAX && n <= INT_MAX && m != n
    ensures EncodeCursor(m) != EncodeCursor(n)
  {
    DecodeEncodeCursor(m);
    DecodeEncodeCursor(n);
  }

  // ---------------------------------------------------------------- paging

  /** `findByUserIdOrderByTransactionIdAsc`: the user's rows, in table order
      (the table is taken to be stored in ascending transaction id). */
  function FindByUserId(table: seq<TransactionEntity>, userId: string): (rows: seq<TransactionEntity>)
    ensures |rows| <= |table|
    ensures forall i :: 0 <= i < |rows| ==> rows[i].userId == userId && rows[i] in table
    ensures forall t :: t in table && t.userId == userId ==> t in rows
  {
    if |table| == 0 then []
    else if table[0].userId == userId then [table[0]] + FindByUserId(table[1..], userId)
    else FindByUserId(table[1..], userId)
  }

  /** The query keeps a single row exactly when it is the user's. */
  lemma FindByUserIdSingle(t: TransactionEntity, userId: string)
    ensures FindByUserId([t], userId) == if t.userId == userId then [t] else []
  {
    assert [t][1..] == [];
  }

  /** The query is an order-preserving filter: the user's rows of a table
      split in two are the user's rows of the first part followed by those
      of the second, so every row keeps its place and appears once. */
  lemma {:induction false} FindByUserIdAppend(a: seq<TransactionEntity>, b: seq<TransactionEntity>, userId: string)
    ensures FindByUserId(a + b, userId) == FindByUserId(a, userId) + FindByUserId(b, userId)
  {
    if |a| == 0 {
      assert a + b == b;
    } else {
      assert (a + b)[1..] == a[1..] + b;
      FindByUserIdAppend(a[1..], b, userId);
    }
  }

  function ToItem(t: TransactionEntity): TransactionItem {
    TransactionItem(t.transactionId, t.name, t.image, t.isBank)
  }

  function ItemsOf(rows: seq<TransactionEntity>): (items: seq<TransactionItem>)
    ensures |items| == |rows|
    ensures forall i :: 0 <= i < |rows| ==> items[i] == ToItem(rows[i])
  {
    seq(|rows|, i requires 0 <= i < |rows| => ToItem(rows[i]))
  }

  function Min(a: int, b: int): int { if a <= b then a else b }

  /** The decoded cursor clamped into `[0, size]`. */
  function StartOffset(size: nat, cursor: Option<string>): (start: nat)
    ensures start <= size
    ensures 0 <= DecodeCursor(cursor) <= size ==> start == DecodeCursor(cursor)
    ensures DecodeCursor(cursor) < 0 ==> start == 0
    ensures DecodeCursor(cursor) > size ==> start == size
  {
    var d := DecodeCursor(cursor);
    if d < 0 then 0 else if d > size then size else d
  }

  /** The end of the page that starts at `start`. */
  function PageEnd(size: nat, start: nat, limit: nat): (end: nat)
    requires start <= size
    ensures start <= end <= size && end <= start + limit
    ensures end == start + limit || end == size
  {
    Min(start + limit, size)
  }

  /** The page of `all` that `cursor` selects, with the cursor of the next
      page when rows remain. */
  function PageFrom(all: seq<TransactionEntity>, cursor: Option<string>, limit: nat): (page: TransactionsPage)
    requires |all| + limit <= INT_MAX
    ensures var start := StartOffset(|all|, cursor);
            var end := PageEnd(|all|, start, limit);
            && page.items == ItemsOf(all[start..end])
            && (page.nextCursor.Some? <==> end < |all|)
            && (page.nextCursor.Some? ==> DecodeCursor(page.nextCursor) == end)
  {
    var start := StartOffset(|all|, cursor);
    var end := PageEnd(|all|, start, limit);
    var items := ItemsOf(all[start..end]);
    if end < |all| then
      var next := EncodeCursor(end);
      DecodeEncodeCursor(end);
      TransactionsPage(items, Some(next))
    else
      TransactionsPage(items, None)
  }

  /** `listTransactions`: the page is the user's rows `[start, end)` with
      `start` the clamped cursor and `end = min(start + limit, size)`; a
      next cursor is returned exactly when rows remain, and it decodes to
      `end`. `accountId` is accepted and ignored. */
  function ListTransactions(table: seq<TransactionEntity>, userId: string, accountId: string,
                            cursor: Option<string>, limit: int): (page: TransactionsPage)
    requires MIN_LIMIT <= limit <= MAX_LIMIT
    requires |table| + limit <= INT_MAX
    ensures var all := FindByUserId(table, userId);
            var start := StartOffset(|all|, cursor);
            var end := PageEnd(|all|, start, limit);
            && page.items == ItemsOf(all[start..end])
            && (page.nextCursor.Some? <==> end < |all|)
            && (page.nextCursor.Some? ==> DecodeCursor(page.nextCursor) == end)
  {
    PageFrom(FindByUserId(table, userId), cursor, limit)
  }

  /** Nothing but `userId` selects rows: the account id never matters. */
  lemma AccountIdIgnored(table: seq<TransactionEntity>, userId: string, a1: string, a2: string,
                         cursor: Option<string>, limit: int)
    requires MIN_LIMIT <= limit <= MAX_LIMIT && |table| + limit <= INT_MAX
    ensures ListTransactions(table, userId, a1, cursor, limit) == ListTransactions(table, userId, a2, cursor, limit)
  {
  }

  /** A cursor at or past the end, or a user without transactions (whatever
      the cursor), gives an empty page without a next cursor. */
  lemma PastEndIsEmpty(table: seq<TransactionEntity>, userId: string, accountId: string,
                       cursor: Option<string>, limit: int)
    requires MIN_LIMIT <= limit <= MAX_LIMIT && |table| + limit <= INT_MAX
    requires DecodeCursor(cursor) >= |FindByUserId(table, userId)| || |FindByUserId(table, userId)| == 0
    ensures ListTransactions(table, userId, accountId, cursor, limit) == TransactionsPage([], None)
  {
  }

  /** The pages a client sees when it starts from `cursor` and keeps
      following the returned cursors until none comes back. */
  function Walk(all: seq<TransactionEntity>, cursor: Option<string>, limit: nat): (pages: seq<TransactionsPage>)
    requires MIN_LIMIT <= limit && |all| + limit <= INT_MAX
    ensures |pages| >= 1 && pages[0] == PageFrom(all, cursor, limit)
    decreases |all| - StartOffset(|all|, cursor)
  {
    var page := PageFrom(all, cursor, limit);
    if page.nextCursor.None? then [page]
    else
      PageFromAdvances(all, cursor, limit);
      [page] + Walk(all, page.nextCursor, limit)
  }

  /** A page that hands out a cursor is full, and its cursor starts the
      next page right after it. */
  lemma PageFromAdvances(all: seq<TransactionEntity>, cursor: Option<string>, limit: nat)
    requires MIN_LIMIT <= limit && |all| + limit <= INT_MAX
    requires PageFrom(all, cursor, limit).nextCursor.Some?
    ensures var page := PageFrom(all, cursor, limit);
            && |page.items| == limit
            && StartOffset(|all|, page.nextCursor) == StartOffset(|all|, cursor) + limit
  {
  }

  /** The last page of a walk. */
  function LastPage(pages: seq<TransactionsPage>): TransactionsPage
    requires |pages| >= 1
  {
    pages[|pages| - 1]
  }

  lemma LastPageCons(page: TransactionsPage, rest: seq<TransactionsPage>)
    requires |rest| >= 1
    ensures LastPage([page] + rest) == LastPage(rest)
  {
  }

  /** The last page of a walk carries no cursor. */
  lemma {:induction false} WalkEndsWithoutCursor(all: seq<TransactionEntity>, cursor: Option<string>, limit: nat)
    requires MIN_LIMIT <= limit && |all| + limit <= INT_MAX
    ensures LastPage(Walk(all, cursor, limit)).nextCursor.None?
    decreases |all| - StartOffset(|all|, cursor)
  {
    var page := PageFrom(all, cursor, limit);
    if page.nextCursor.Some? {
      PageFromAdvances(all, cursor, limit);
      WalkEndsWithoutCursor(all, page.nextCursor, limit);
      LastPageCons(page, Walk(all, page.nextCursor, limit));
    }
  }

  /** Every page but the last is full and carries a cursor. */
  predicate FullBeforeLast(pages: seq<TransactionsPage>, limit: nat) {
    forall i :: 0 <= i < |pages| - 1 ==> pages[i].nextCursor.Some? && |pages[i].items| == limit
  }

  lemma FullBeforeLastCons(page: TransactionsPage, rest: seq<TransactionsPage>, limit: nat)
    requires page.nextCursor.Some? && |page.items| == limit && FullBeforeLast(rest, limit)
    ensures FullBeforeLast([page] + rest, limit)
  {
    var pages := [page] + rest;
    forall i | 0 <= i < |pages| - 1
      ensures pages[i].nextCursor.Some? && |pages[i].items| == limit
    {
      if i > 0 { assert pages[i] == rest[i - 1]; }
    }
  }

  /** Every page of a walk but the last is full and carries a cursor. */
  lemma {:induction false} WalkPagesFull(all: seq<TransactionEntity>, cursor: Option<string>, limit: nat)
    requires MIN_LIMIT <= limit && |all| + limit <= INT_MAX
    ensures FullBeforeLast(Walk(all, cursor, limit), limit)
    decreases |all| - StartOffset(|all|, cursor)
  {
    var page := PageFrom(all, cursor, limit);
    if page.nextCursor.Some? {
      PageFromAdvances(all, cursor, limit);
      WalkPagesFull(all, page.nextCursor, limit);
      FullBeforeLastCons(page, Walk(all, page.nextCursor, limit), limit);
    }
  }

  function Flatten(pages: seq<TransactionsPage>): seq<TransactionItem> {
    if |pages| == 0 then [] else pages[0].items + Flatten(pages[1..])
  }

  lemma {:induction false} WalkFrom(all: seq<TransactionEntity>, cursor: Option<string>, limit: nat)
    requires MIN_LIMIT <= limit && |all| + limit <= INT_MAX
    ensures Flatten(Walk(all, cursor, limit)) == ItemsOf(all[StartOffset(|all|, cursor)..])
    decreases |all| - StartOffset(|all|, cursor)
  {
    var next := PageFrom(all, cursor, limit).nextCursor;
    if next.None? {
      WalkLast(all, cursor, limit);
    } else {
      var end := WalkStep(all, cursor, limit);
      WalkFrom(all, next, limit);
      ItemsOfSplit(all, StartOffset(|all|, cursor), end);
    }
  }

  /** The last page holds everything from its start to the end. */
  lemma WalkLast(all: seq<TransactionEntity>, cursor: Option<string>, limit: nat)
    requires MIN_LIMIT <= limit && |all| + limit <= INT_MAX
    requires PageFrom(all, cursor, limit).nextCursor.None?
    ensures Flatten(Walk(all, cursor, limit)) == ItemsOf(all[StartOffset(|all|, cursor)..])
  {
    var page := PageFrom(all, cursor, limit);
    var pages := Walk(all, cursor, limit);
    assert pages == [page];
    assert Flatten(pages) == page.items + Flatten([]);
    assert all[StartOffset(|all|, cursor)..] == all[StartOffset(|all|, cursor)..PageEnd(|all|, StartOffset(|all|, cursor), limit)];
  }

  /** A page with a cursor is followed by the walk from the row after it. */
  lemma WalkStep(all: seq<TransactionEntity>, cursor: Option<string>, limit: nat) returns (end: nat)
    requires MIN_LIMIT <= limit && |all| + limit <= INT_MAX
    requires PageFrom(all, cursor, limit).nextCursor.Some?
    ensures StartOffset(|all|, cursor) < end <= |all|
    ensures StartOffset(|all|, PageFrom(all, cursor, limit).nextCursor) == end
    ensures Flatten(Walk(all, cursor, limit))
            == ItemsOf(all[StartOffset(|all|, cursor)..end]) + Flatten(Walk(all, PageFrom(all, cursor, limit).nextCursor, limit))
  {
    end := PageEnd(|all|, StartOffset(|all|, cursor), limit);
    var page := PageFrom(all, cursor, limit);
    var pages := Walk(all, cursor, limit);
    assert pages == [page] + Walk(all, page.nextCursor, limit);
    assert pages[1..] == Walk(all, page.nextCursor, limit);
  }

  lemma ItemsOfSplit(all: seq<TransactionEntity>, start: nat, end: nat)
    requires start <= end <= |all|
    ensures ItemsOf(all[start..end]) + ItemsOf(all[end..]) == ItemsOf(all[start..])
  {
    assert all[start..end] + all[end..] == all[start..];
    ItemsOfAppend(all[start..end], all[end..]);
  }

  lemma ItemsOfAppend(a: seq<TransactionEntity>, b: seq<TransactionEntity>)
    ensures ItemsOf(a + b) == ItemsOf(a) + ItemsOf(b)
  {
  }

  /** A walk from the first page covers all of `all`, in order. */
  lemma WalkFromStart(all: seq<TransactionEntity>, limit: nat)
    requires MIN_LIMIT <= limit && |all| + limit <= INT_MAX
    ensures Flatten(Walk(all, None, limit)) == ItemsOf(all)
  {
    WalkFrom(all, None, limit);
    assert StartOffset(|all|, None) == 0;
    assert all[0..] == all;
  }

  /** Paging coverage: a client that starts without a cursor and follows
      the cursors of `listTransactions` sees every one of the user's
      transactions exactly once and in order; every page but the last is
      full and the last carries no cursor. */
  lemma WalkVisitsEveryTransaction(table: seq<TransactionEntity>, userId: string, accountId: string, limit: int)
    requires MIN_LIMIT <= limit <= MAX_LIMIT && |table| + limit <= INT_MAX
    ensures Walk(FindByUserId(table, userId), None, limit)[0] == ListTransactions(table, userId, accountId, None, limit)
    ensures Flatten(Walk(FindByUserId(table, userId), None, limit)) == ItemsOf(FindByUserId(table, userId))
    ensures LastPage(Walk(FindByUserId(table, userId), None, limit)).nextCursor.None?
    ensures FullBeforeLast(Walk(FindByUserId(table, userId), None, limit), limit)
  {
    var all := FindByUserId(table, userId);
    WalkFromStart(all, limit);
    WalkEndsWithoutCursor(all, None, limit);
    WalkPagesFull(all, None, limit);
  }

  /** `listTransactionSummaries`: one summary per row of the user, in order. */
  function ListTransactionSummaries(table: seq<TransactionEntity>, userId: string): (summaries: seq<TransactionSummary>)
    ensures var all := FindByUserId(table, userId);
            |summaries| == |all|
            && forall i :: 0 <= i < |all| ==>
                 summaries[i] == TransactionSummary(all[i].transactionId, all[i].name, all[i].image)
  {
    var all := FindByUserId(table, userId);
    seq(|all|, i requires 0 <= i < |all| => TransactionSummary(all[i].transactionId, all[i].name, all[i].image))
  }
}
