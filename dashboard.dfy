/** `DashboardServiceImpl.getDashboard` of the wallet tree, after its five
    collaborator results are in: primary account selection, goal and loan
    cards, and the response. The parallel fetch becomes five calls in a
    row; any one of them failing fails the whole dashboard. */
module Dashboard {
  import opened Wrappers
  import opened JavaText
  import opened Paging
  import opened Accounts

  const QUICK_PAYEES_LIMIT := 10
  const GOALS_PAGE_SIZE := 10
  const LOANS_PAGE_SIZE := 10
  const PRIMARY_ACCOUNT_TYPE := "SAVING"

  datatype GoalCard = GoalCard(id: string, title: string, status: Option<Status>, amount: int)

  datatype LoanCard = LoanCard(id: string, title: string, status: Option<Status>, outstandingAmount: int)

  datatype DashboardResponse = DashboardResponse(
    greeting: string, primaryAccount: Option<AccountSummary>, accounts: seq<AccountSummary>,
    quickPayees: seq<PayeeItem>, goals: seq<GoalCard>, loans: seq<LoanCard>)

  /** The collaborators `getDashboard` calls; `None` is a call that throws. */
  datatype Sources = Sources(
    greeting: string -> Option<string>,
    accounts: string -> Option<seq<AccountSummary>>,
    quickPayees: (string, int) -> Option<seq<PayeeItem>>,
    goals: (string, PageRequest) -> Option<seq<GoalItem>>,
    loans: (string, PageRequest) -> Option<seq<LoanItem>>)

  predicate IsSaving(a: AccountSummary) {
    EqualsIgnoreCase(PRIMARY_ACCOUNT_TYPE, a.accountType)
  }

  /** `filter(...).findFirst()`: the position of the first SAVING account. */
  function FirstSaving(accounts: seq<AccountSummary>): (i: Option<nat>)
    ensures i.Some? ==> i.value < |accounts| && IsSaving(accounts[i.value])
    ensures i.Some? ==> forall j :: 0 <= j < i.value ==> !IsSaving(accounts[j])
    ensures i.None? ==> forall j :: 0 <= j < |accounts| ==> !IsSaving(accounts[j])
  {
    if |accounts| == 0 then None
    else if IsSaving(accounts[0]) then Some(0)
    else match FirstSaving(accounts[1..])
      case None => None
      case Some(k) => Some(k + 1)
  }

  /** The primary account: the first whose type is SAVING ignoring case,
      else the first account, else none. */
  function SelectPrimary(accounts: seq<AccountSummary>): (primary: Option<AccountSummary>)
    ensures primary.None? <==> |accounts| == 0
    ensures primary.Some? ==> primary.value in accounts
    ensures primary.Some? && IsSaving(primary.value) ==>
              exists i :: 0 <= i < |accounts| && accounts[i] == primary.value
                          && forall j :: 0 <= j < i ==> !IsSaving(accounts[j])
    ensures (exists i :: 0 <= i < |accounts| && IsSaving(accounts[i])) ==> primary.Some? && IsSaving(primary.value)
    ensures (forall i :: 0 <= i < |accounts| ==> !IsSaving(accounts[i])) && |accounts| > 0 ==>
              primary == Some(accounts[0])
  {
    match FirstSaving(accounts)
    case Some(i) => Some(accounts[i])
    case None => if |accounts| == 0 then None else Some(accounts[0])
  }

  function ToGoalCard(g: GoalItem): GoalCard {
    GoalCard(g.goalId, g.name, g.status, g.amount)
  }

  function ToLoanCard(l: LoanItem): LoanCard {
    LoanCard(l.loanId, l.name, l.status, l.outstandingAmount)
  }

  /** The response built from the five collaborator results: greeting,
      accounts and payees as they came, the primary account, and one card
      per goal and per loan in their order. */
  function Assemble(greeting: string, accounts: seq<AccountSummary>, payees: seq<PayeeItem>,
                    goals: seq<GoalItem>, loans: seq<LoanItem>): (r: DashboardResponse)
    ensures r.greeting == greeting && r.accounts == accounts && r.quickPayees == payees
    ensures r.primaryAccount == SelectPrimary(accounts)
    ensures |r.goals| == |goals| && forall i :: 0 <= i < |goals| ==> r.goals[i] == ToGoalCard(goals[i])
    ensures |r.loans| == |loans| && forall i :: 0 <= i < |loans| ==> r.loans[i] == ToLoanCard(loans[i])
  {
    DashboardResponse(greeting, SelectPrimary(accounts), accounts, payees,
                      seq(|goals|, i requires 0 <= i < |goals| => ToGoalCard(goals[i])),
                      seq(|loans|, i requires 0 <= i < |loans| => ToLoanCard(loans[i])))
  }

  /** `getDashboard` without its cache: payees asked for with limit 10,
      goals and loans for page 1 of size 10. It succeeds exactly when every
      collaborator does. */
  function BuildDashboard(src: Sources, userId: string): (r: Option<DashboardResponse>)
    ensures r.Some? <==>
              && src.greeting(userId).Some? && src.accounts(userId).Some?
              && src.quickPayees(userId, QUICK_PAYEES_LIMIT).Some?
              && src.goals(userId, PageRequest(1, GOALS_PAGE_SIZE)).Some?
              && src.loans(userId, PageRequest(1, LOANS_PAGE_SIZE)).Some?
    ensures r.Some? ==>
              r.value == Assemble(src.greeting(userId).value, src.accounts(userId).value,
                                  src.quickPayees(userId, QUICK_PAYEES_LIMIT).value,
                                  src.goals(userId, PageRequest(1, GOALS_PAGE_SIZE)).value,
                                  src.loans(userId, PageRequest(1, LOANS_PAGE_SIZE)).value)
  {
    var greeting :- src.greeting(userId);
    var accountList :- src.accounts(userId);
    var quickPayees :- src.quickPayees(userId, QUICK_PAYEES_LIMIT);
    var goalItems :- src.goals(userId, PageRequest(1, GOALS_PAGE_SIZE));
    var loanItems :- src.loans(userId, PageRequest(1, LOANS_PAGE_SIZE));
    Some(Assemble(greeting, accountList, quickPayees, goalItems, loanItems))
  }

  /** The primary account is the first SAVING account when there is one
      (the account list examples of the wallet's dashboard tests). */
  lemma PrimaryPrefersFirstSaving(accounts: seq<AccountSummary>, i: nat)
    requires i < |accounts| && IsSaving(accounts[i])
    requires forall j :: 0 <= j < i ==> !IsSaving(accounts[j])
    ensures SelectPrimary(accounts) == Some(accounts[i])
  {
  }
}
