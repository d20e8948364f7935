/**
 * backend/controllers/userSummary.js: the caller's income and expense
 * totals, balance, excess over their overall budget and the state of each
 * of their goals. Nothing is written.
 */
module UserSummaries {
  import opened Wrappers
  import opened Js
  import opened Http
  import opened Docs
  import opened Records
  import opened Ledger
  import opened Reports

  /** One entry of `goalsInfo`. */
  datatype GoalInfo = GoalInfo(name: string, remainingAmount: int, savedAmount: int, targetAmount: int)

  datatype Summary = Summary(totalIncome: int, totalExpense: int, balance: int, budgetExceed: int, goalsInfo: seq<GoalInfo>)

  /**
   * `find({ userId })`, `filter(t => t.type === k)` and `reduce` adding up
   * the amounts: the user's total of kind `k`.
   */
  function KindTotal(txs: seq<Transaction>, user: Id, k: Kind): (r: int)
    ensures r == Total(txs, user, k)
  {
    SumOfKindOwned(txs, user, k);
    Sum(OfKind(Owned(txs, user), k))
  }

  /**
   * `user.budget ? totalExpense - user.budget : 0`: an absent or zero
   * budget gives 0; otherwise the difference, negative while under budget.
   */
  function BudgetExceed(totalExpense: int, budget: Option<int>): (r: int)
    ensures !TruthyNumber(budget) ==> r == 0
    ensures TruthyNumber(budget) ==> r + budget.value == totalExpense
  {
    if TruthyNumber(budget) then totalExpense - budget.value else 0
  }

  /** A goal's `goalsInfo` entry: what is still missing to reach the target (negative once exceeded). */
  function Info(g: Goal): (i: GoalInfo)
    ensures i.name == g.val.name && i.savedAmount == g.val.savedAmount && i.targetAmount == g.val.targetAmount
    ensures i.savedAmount + i.remainingAmount == i.targetAmount
  {
    GoalInfo(g.val.name, g.val.targetAmount - g.val.savedAmount, g.val.savedAmount, g.val.targetAmount)
  }

  /** `goals.map(...)` over the user's goals: one entry per goal, in store order. */
  function GoalsInfo(goals: seq<Goal>, user: Id): (r: seq<GoalInfo>)
    ensures |r| == |Owned(goals, user)|
    ensures forall k :: 0 <= k < |r| ==> r[k] == Info(Owned(goals, user)[k])
  {
    var mine := Owned(goals, user);
    seq(|mine|, k requires 0 <= k < |mine| => Info(mine[k]))
  }

  /**
   * GET /summary/user-summary. A missing caller (`req.user._id`) or a
   * caller whose user record is gone (`user.budget` on null) throws inside
   * the `try` and gives 500.
   */
  function UserSummary(txs: seq<Transaction>, users: seq<User>, goals: seq<Goal>, caller: Option<Id>): (reply: Reply<Summary>)
    ensures caller.None? || FindUser(users, caller.value).None? ==> reply == Error(500, "Error fetching user summary")
    ensures caller.Some? && FindUser(users, caller.value).Some? ==> reply.Json? && reply.status == 200
    ensures reply.Json? ==>
      var user, s := caller.value, reply.body;
      && s.totalIncome == Total(txs, user, Income)
      && s.totalExpense == Total(txs, user, Expense)
      && s.balance == s.totalIncome - s.totalExpense
      && s.budgetExceed == BudgetExceed(s.totalExpense, FindUser(users, user).value.budget)
      && s.goalsInfo == GoalsInfo(goals, user)
  {
    if caller.None? then Error(500, "Error fetching user summary")
    else
      var user := caller.value;
      var totalIncome := KindTotal(txs, user, Income);
      var totalExpense := KindTotal(txs, user, Expense);
      match FindUser(users, user)
      case None => Error(500, "Error fetching user summary")
      case Some(u) =>
        Json(200, Summary(totalIncome, totalExpense, totalIncome - totalExpense, BudgetExceed(totalExpense, u.budget), GoalsInfo(goals, user)))
  }

  /** Selecting with a filter on the owner alone is `find({ userId })`. */
  lemma OwnerOnlySelect(txs: seq<Transaction>, user: Id)
    ensures Select(txs, TxFilter(user, None, None, None, None)) == Owned(txs, user)
  {
    FilterAgrees(txs, (t: Transaction) => Admits(TxFilter(user, None, None, None, None), t), (d: Transaction) => d.owner == user);
  }

  /** With no query filters, the financial report's totals and balance are the user summary's. */
  lemma UnfilteredReportAgrees(txs: seq<Transaction>, users: seq<User>, goals: seq<Goal>, user: Id)
    requires FindUser(users, user).Some?
    ensures var report := Select(txs, ReportFilter(user, ReportQuery(None, None, None, None)));
            var s := UserSummary(txs, users, goals, Some(user)).body;
            && Sum(OfKind(report, Income)) == s.totalIncome
            && Sum(OfKind(report, Expense)) == s.totalExpense
  {
    assert ReportFilter(user, ReportQuery(None, None, None, None)) == TxFilter(user, None, None, None, None);
    OwnerOnlySelect(txs, user);
    SumOfKindOwned(txs, user, Income);
    SumOfKindOwned(txs, user, Expense);
  }
}
