/** `AccountServiceImpl`, the account read model. The socialbanking and the
    wallet trees carry the same implementation of account listing, quick
    payees and balances; the socialbanking one adds goal and loan listings.
    Repository results are the inputs: the rows the user's queries return,
    in the order they return them. */
module Accounts {
  import opened Wrappers
  import opened JavaText
  import opened Paging
  import Transactions

  const TYPE_GOAL := "GOAL"
  const TYPE_LOAN := "LOAN"
  const FLAG_FAVORITE := "FAVORITE"

  datatype AccountEntity = AccountEntity(
    accountId: string, accountType: string, currency: string, accountNumber: string, issuer: string)

  /** A balance row; the amount is an exact number of minor units. */
  datatype AccountBalance = AccountBalance(accountId: string, amount: int)

  datatype AccountDetail = AccountDetail(accountId: string, color: Option<string>, progress: Option<int>)

  datatype AccountFlag = AccountFlag(accountId: string, flagType: string, flagValue: string)

  datatype Status = NotStarted | InProgress | Completed | Unknown

  /** The text the API writes for a status. */
  function StatusName(s: Status): string {
    match s
    case NotStarted => "NOT_STARTED"
    case InProgress => "IN_PROGRESS"
    case Completed => "COMPLETED"
    case Unknown => "UNKNOWN"
  }

  /** `color` and `status` are null when the account has no detail row. */
  datatype AccountSummary = AccountSummary(
    accountId: string, accountType: string, currency: string, accountNumber: string, issuer: string,
    color: Option<string>, amount: int, status: Option<Status>)

  datatype PayeeItem = PayeeItem(transactionId: string, name: string, image: string, isFavorite: bool)

  datatype GoalItem = GoalItem(goalId: string, name: string, status: Option<Status>, issuer: string, amount: int)

  datatype LoanItem = LoanItem(loanId: string, name: string, status: Option<Status>, outstandingAmount: int)

  // ------------------------------------------------------------ status

  /** `getStatus`: a missing progress is UNKNOWN, 100 or more COMPLETED,
      1 to 99 IN_PROGRESS, and 0 or less NOT_STARTED. */
  function GetStatus(progress: Option<int>): (s: Status)
    ensures s == Unknown <==> progress.None?
    ensures s == Completed <==> progress.Some? && progress.value >= 100
    ensures s == InProgress <==> progress.Some? && 0 < progress.value < 100
    ensures s == NotStarted <==> progress.Some? && progress.value <= 0
  {
    if progress.Some? then
      if progress.value >= 100 then Completed
      else if progress.value > 0 then InProgress
      else NotStarted
    else Unknown
  }

  // ------------------------------------------------------------ maps

  /** The map a loop of `put(key(r), val(r))` over `rows` leaves behind:
      a later row with the same key overwrites an earlier one. */
  function IndexBy<R, V>(rows: seq<R>, key: R -> string, val: R -> V): map<string, V> {
    if |rows| == 0 then map[]
    else IndexBy(rows[..|rows| - 1], key, val)[key(rows[|rows| - 1]) := val(rows[|rows| - 1])]
  }

  /** Reference definition: the position of the last row carrying key `k`. */
  function LastWith<R>(rows: seq<R>, key: R -> string, k: string): (i: Option<nat>)
    ensures i.Some? ==> i.value < |rows| && key(rows[i.value]) == k
    ensures i.Some? ==> forall j :: i.value < j < |rows| ==> key(rows[j]) != k
    ensures i.None? ==> forall j :: 0 <= j < |rows| ==> key(rows[j]) != k
  {
    if |rows| == 0 then None
    else if key(rows[|rows| - 1]) == k then Some(|rows| - 1)
    else LastWith(rows[..|rows| - 1], key, k)
  }

  /** One key per distinct row key, holding the value of the last row with
      that key; no other keys. */
  lemma {:induction false} IndexByIsLastWrite<R, V>(rows: seq<R>, key: R -> string, val: R -> V, k: string)
    ensures k in IndexBy(rows, key, val) <==> LastWith(rows, key, k).Some?
    ensures k in IndexBy(rows, key, val) ==> IndexBy(rows, key, val)[k] == val(rows[LastWith(rows, key, k).value])
  {
    if |rows| > 0 {
      IndexByIsLastWrite(rows[..|rows| - 1], key, val, k);
    }
  }

  function BalanceKey(b: AccountBalance): string { b.accountId }
  function BalanceAmount(b: AccountBalance): int { b.amount }
  function DetailKey(d: AccountDetail): string { d.accountId }
  function DetailRow(d: AccountDetail): AccountDetail { d }

  /** `getBalancesByUserId`: account id to amount, amounts kept as they are
      (zero and negative included), a later duplicate row winning. */
  method GetBalancesByUserId(balances: seq<AccountBalance>) returns (result: map<string, int>)
    ensures result == IndexBy(balances, BalanceKey, BalanceAmount)
  {
    result := map[];
    var i := 0;
    while i < |balances|
      invariant 0 <= i <= |balances|
      invariant result == IndexBy(balances[..i], BalanceKey, BalanceAmount)
    {
      assert balances[..i + 1][..i] == balances[..i];
      result := result[balances[i].accountId := balances[i].amount];
      i := i + 1;
    }
    assert balances[..i] == balances;
  }

  /** The detail map the listings build before joining: account id to its
      detail row, a later duplicate winning. */
  method IndexDetails(details: seq<AccountDetail>) returns (result: map<string, AccountDetail>)
    ensures result == IndexBy(details, DetailKey, DetailRow)
  {
    result := map[];
    var i := 0;
    while i < |details|
      invariant 0 <= i <= |details|
      invariant result == IndexBy(details[..i], DetailKey, DetailRow)
    {
      assert details[..i + 1][..i] == details[..i];
      result := result[details[i].accountId := details[i]];
      i := i + 1;
    }
    assert details[..i] == details;
  }

  // ------------------------------------------------------------ summaries

  /** `mapToAccountSummary`: the account's own fields copied, the balance
      or 0 when there is none, and colour and status from the detail row,
      both null when there is none. */
  function MapToAccountSummary(a: AccountEntity, balances: map<string, int>,
                               details: map<string, AccountDetail>): (s: AccountSummary)
    ensures s.accountId == a.accountId && s.accountType == a.accountType && s.currency == a.currency
    ensures s.accountNumber == a.accountNumber && s.issuer == a.issuer
    ensures s.amount == (if a.accountId in balances then balances[a.accountId] else 0)
    ensures a.accountId !in details ==> s.color.None? && s.status.None?
    ensures a.accountId in details ==>
              s.color == details[a.accountId].color && s.status == Some(GetStatus(details[a.accountId].progress))
  {
    var amount := if a.accountId in balances then balances[a.accountId] else 0;
    if a.accountId in details then
      var d := details[a.accountId];
      AccountSummary(a.accountId, a.accountType, a.currency, a.accountNumber, a.issuer,
                     d.color, amount, Some(GetStatus(d.progress)))
    else
      AccountSummary(a.accountId, a.accountType, a.currency, a.accountNumber, a.issuer, None, amount, None)
  }

  /** A missing detail row gives a null status, which differs from the
      UNKNOWN a detail row without progress gives. */
  lemma MissingDetailIsNotUnknown(a: AccountEntity, balances: map<string, int>, d: AccountDetail)
    requires d.accountId == a.accountId && d.progress.None?
    ensures MapToAccountSummary(a, balances, map[]).status.None?
    ensures MapToAccountSummary(a, balances, map[a.accountId := d]).status == Some(Unknown)
  {
  }

  function Summaries(accounts: seq<AccountEntity>, balances: map<string, int>,
                     details: map<string, AccountDetail>): (r: seq<AccountSummary>)
    ensures |r| == |accounts|
    ensures forall i :: 0 <= i < |accounts| ==> r[i] == MapToAccountSummary(accounts[i], balances, details)
  {
    seq(|accounts|, i requires 0 <= i < |accounts| => MapToAccountSummary(accounts[i], balances, details))
  }

  /** `listAccounts(userId)`: one summary per account, in repository order,
      joined with the balance and detail maps. */
  method ListAccounts(accounts: seq<AccountEntity>, balances: seq<AccountBalance>, details: seq<AccountDetail>)
    returns (result: seq<AccountSummary>)
    ensures |result| == |accounts|
    ensures forall i :: 0 <= i < |accounts| ==>
              result[i] == MapToAccountSummary(accounts[i], IndexBy(balances, BalanceKey, BalanceAmount),
                                               IndexBy(details, DetailKey, DetailRow))
  {
    var balByAcc := GetBalancesByUserId(balances);
    var detByAcc := IndexDetails(details);
    result := Summaries(accounts, balByAcc, detByAcc);
  }

  /** `listAccounts(userId, pageRequest)`: the requested page of the user's
      accounts, each joined as in the unpaged listing, with the page info
      Spring reports for it. */
  method ListAccountsPage(accounts: seq<AccountEntity>, balances: seq<AccountBalance>,
                          details: seq<AccountDetail>, req: PageRequest)
    returns (result: PaginatedResponse<AccountSummary>)
    requires ValidRequest(req, 100) && |accounts| <= INT_MAX
    ensures var rows := Window(accounts, GetOffset(req), req.limit);
            && |result.data| == |rows|
            && (forall i :: 0 <= i < |rows| ==>
                  result.data[i] == MapToAccountSummary(rows[i], IndexBy(balances, BalanceKey, BalanceAmount),
                                                        IndexBy(details, DetailKey, DetailRow)))
    ensures result.pagination == PageInfoOf(req.page, req.limit, |accounts|)
  {
    var accountPage := PageOf(accounts, ToPageable(req));
    var accBalance := GetBalancesByUserId(balances);
    var accDetail := IndexDetails(details);
    var mapped := MapPage(accountPage, a => MapToAccountSummary(a, accBalance, accDetail));
    result := ResponseFromSpringPage(mapped);
    PageInfoPathsAgree(accounts, req);
  }

  // ------------------------------------------------------------ payees

  /** The ids the favourites set holds: the account ids of the user's
      FAVORITE flag rows (the query filters by flag type). */
  function FavoriteIds(flags: seq<AccountFlag>): set<string> {
    set f | f in flags && f.flagType == FLAG_FAVORITE :: f.accountId
  }

  /** A payee is a favourite exactly when some FAVORITE flag names its
      transaction id; the flag's value plays no part. */
  lemma FavoriteIffFlagged(flags: seq<AccountFlag>, id: string)
    ensures id in FavoriteIds(flags) <==>
            exists i :: 0 <= i < |flags| && flags[i].flagType == FLAG_FAVORITE && flags[i].accountId == id
  {
    if id in FavoriteIds(flags) {
      var f :| f in flags && f.flagType == FLAG_FAVORITE && f.accountId == id;
      var i :| 0 <= i < |flags| && flags[i] == f;
    }
  }

  /** The loop that fills the favourites set from the flag rows. */
  method CollectFavorites(flags: seq<AccountFlag>) returns (favorites: set<string>)
    ensures favorites == FavoriteIds(flags)
  {
    favorites := {};
    var i := 0;
    while i < |flags|
      invariant 0 <= i <= |flags|
      invariant favorites == FavoriteIds(flags[..i])
    {
      assert flags[..i + 1] == flags[..i] + [flags[i]];
      if flags[i].flagType == FLAG_FAVORITE {
        favorites := favorites + {flags[i].accountId};
      }
      i := i + 1;
    }
    assert flags[..i] == flags;
  }

  function ToPayee(t: Transactions.TransactionSummary, favorites: set<string>): PayeeItem {
    PayeeItem(t.transactionId, t.name, t.image, t.transactionId in favorites)
  }

  function Payees(summaries: seq<Transactions.TransactionSummary>, favorites: set<string>): (r: seq<PayeeItem>)
    ensures |r| == |summaries|
    ensures forall i :: 0 <= i < |summaries| ==> r[i] == ToPayee(summaries[i], favorites)
  {
    seq(|summaries|, i requires 0 <= i < |summaries| => ToPayee(summaries[i], favorites))
  }

  /** `listQuickPayees(userId, limit)`: the first `min(limit, n)` transaction
      summaries in order, each marked favourite iff flagged. A negative
      limit makes `Stream.limit` throw, so callers pass none. */
  method ListQuickPayees(summaries: seq<Transactions.TransactionSummary>, flags: seq<AccountFlag>, limit: int)
    returns (payees: seq<PayeeItem>)
    requires limit >= 0
    ensures |payees| == (if limit <= |summaries| then limit else |summaries|)
    ensures forall i :: 0 <= i < |payees| ==>
              payees[i].transactionId == summaries[i].transactionId
              && payees[i].name == summaries[i].name && payees[i].image == summaries[i].image
              && (payees[i].isFavorite <==> summaries[i].transactionId in FavoriteIds(flags))
  {
    var favorites := CollectFavorites(flags);
    payees := Payees(Window(summaries, 0, limit), favorites);
  }

  /** `listQuickPayees(userId, pageRequest)`: at most `limit` payees starting
      at row `(page - 1) * limit`, with page and limit echoed and the full
      list size as the total. The offset is the exact product, where the
      code as written computes it in 32-bit arithmetic. */
  method ListQuickPayeesPage(summaries: seq<Transactions.TransactionSummary>, flags: seq<AccountFlag>,
                             req: PageRequest)
    returns (result: PaginatedResponse<PayeeItem>)
    requires ValidRequest(req, 100) && |summaries| <= INT_MAX
    ensures var rows := Window(summaries, GetOffset(req), req.limit);
            && |result.data| == |rows|
            && (forall i :: 0 <= i < |rows| ==>
                  result.data[i] == ToPayee(rows[i], FavoriteIds(flags)))
    ensures result.pagination == PageInfoOf(req.page, req.limit, |summaries|)
  {
    var favorites := CollectFavorites(flags);
    var offset := GetOffset(req);
    var pageData := Payees(Window(summaries, offset, req.limit), favorites);
    result := PaginatedResponse(pageData, PageInfoOf(req.page, req.limit, |summaries|));
  }

  // ------------------------------------------------------------ goals and loans

  /** `findByUserIdAndTypeIgnoreCase`: the accounts of the given type,
      compared ignoring case, in repository order. */
  function OfType(accounts: seq<AccountEntity>, accountType: string): (rows: seq<AccountEntity>)
    ensures |rows| <= |accounts|
    ensures forall i :: 0 <= i < |rows| ==> rows[i] in accounts && EqualsIgnoreCase(rows[i].accountType, accountType)
    ensures forall a :: a in accounts && EqualsIgnoreCase(a.accountType, accountType) ==> a in rows
  {
    if |accounts| == 0 then []
    else
      var rest := OfType(accounts[1..], accountType);
      if EqualsIgnoreCase(accounts[0].accountType, accountType) then [accounts[0]] + rest else rest
  }

  function ToGoalItem(s: AccountSummary): GoalItem {
    GoalItem(s.accountId, s.accountNumber, s.status, s.issuer, s.amount)
  }

  function ToLoanItem(s: AccountSummary): LoanItem {
    LoanItem(s.accountId, s.accountNumber, s.status, s.amount)
  }

  /** `listGoalAccounts`: the requested page of the user's GOAL accounts,
      each as (account id, account number as name, status, issuer,
      amount), with the page info counting every GOAL account. */
  method ListGoalAccounts(accounts: seq<AccountEntity>, balances: seq<AccountBalance>,
                          details: seq<AccountDetail>, req: PageRequest)
    returns (result: PaginatedResponse<GoalItem>)
    requires ValidRequest(req, 100) && |accounts| <= INT_MAX
    ensures var rows := Window(OfType(accounts, TYPE_GOAL), GetOffset(req), req.limit);
            && |result.data| == |rows|
            && (forall i :: 0 <= i < |rows| ==>
                  result.data[i] == ToGoalItem(MapToAccountSummary(rows[i], IndexBy(balances, BalanceKey, BalanceAmount),
                                                                   IndexBy(details, DetailKey, DetailRow))))
    ensures result.pagination == PageInfoOf(req.page, req.limit, |OfType(accounts, TYPE_GOAL)|)
  {
    var goalPage := PageOf(OfType(accounts, TYPE_GOAL), ToPageable(req));
    var balancesByAcc := GetBalancesByUserId(balances);
    var detailsByAcc := IndexDetails(details);
    var summaries := Summaries(goalPage.content, balancesByAcc, detailsByAcc);
    var goalItems := seq(|summaries|, i requires 0 <= i < |summaries| => ToGoalItem(summaries[i]));
    result := PaginatedResponse(goalItems, PageInfoOf(req.page, req.limit, goalPage.totalElements));
  }

  /** `listLoanAccounts`: the requested page of the user's LOAN accounts,
      each as (account id, account number as name, status, amount as the
      outstanding amount), with the page info counting every LOAN account. */
  method ListLoanAccounts(accounts: seq<AccountEntity>, balances: seq<AccountBalance>,
                          details: seq<AccountDetail>, req: PageRequest)
    returns (result: PaginatedResponse<LoanItem>)
    requires ValidRequest(req, 100) && |accounts| <= INT_MAX
    ensures var rows := Window(OfType(accounts, TYPE_LOAN), GetOffset(req), req.limit);
            && |result.data| == |rows|
            && (forall i :: 0 <= i < |rows| ==>
                  result.data[i] == ToLoanItem(MapToAccountSummary(rows[i], IndexBy(balances, BalanceKey, BalanceAmount),
                                                                   IndexBy(details, DetailKey, DetailRow))))
    ensures result.pagination == PageInfoOf(req.page, req.limit, |OfType(accounts, TYPE_LOAN)|)
  {
    var loanPage := PageOf(OfType(accounts, TYPE_LOAN), ToPageable(req));
    var balancesByAcc := GetBalancesByUserId(balances);
    var detailsByAcc := IndexDetails(details);
    var summaries := Summaries(loanPage.content, balancesByAcc, detailsByAcc);
    var loanItems := seq(|summaries|, i requires 0 <= i < |summaries| => ToLoanItem(summaries[i]));
    result := PaginatedResponse(loanItems, PageInfoOf(req.page, req.limit, loanPage.totalElements));
  }
}
