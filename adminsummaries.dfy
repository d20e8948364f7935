/**
 * backend/controllers/adminSummary.js: one summary entry per user, in the
 * order the users are listed, with that user's totals, balance and goals.
 */
module AdminSummaries {
  import opened Wrappers
  import opened Http
  import opened Docs
  import opened Records
  import opened Ledger
  import opened Store
  import opened UserSummaries

  /** One entry of an admin entry's `goalsInfo`. */
  datatype GoalBrief = GoalBrief(name: string, savedAmount: int, targetAmount: int)

  /** What is pushed onto `summary` for one user. */
  datatype Entry = Entry(name: string, totalIncome: int, totalExpense: int, balance: int, goalsInfo: seq<GoalBrief>)

  /**
   * Which storage read fails, if any: the user listing, or the transaction
   * or goal lookup made for the user at position `index`.
   */
  datatype StoreFault = Healthy | UserListFails | UserDataFails(index: nat)

  /** The goal as `goals.map` lists it: name, saved amount and target. */
  function Brief(g: Goal): GoalBrief {
    GoalBrief(g.val.name, g.val.savedAmount, g.val.targetAmount)
  }

  /** The entry for user `u`, from that user's transactions and goals only. */
  function EntryFor(u: User, txs: seq<Transaction>, goals: seq<Goal>): (e: Entry)
    ensures e.name == u.name
    ensures e.totalIncome == Total(txs, u.id, Income) && e.totalExpense == Total(txs, u.id, Expense)
    ensures e.balance == e.totalIncome - e.totalExpense
    ensures |e.goalsInfo| == |Owned(goals, u.id)|
    ensures forall k :: 0 <= k < |e.goalsInfo| ==> e.goalsInfo[k] == Brief(Owned(goals, u.id)[k])
  {
    var totalIncome := KindTotal(txs, u.id, Income);
    var totalExpense := KindTotal(txs, u.id, Expense);
    var mine := Owned(goals, u.id);
    Entry(u.name, totalIncome, totalExpense, totalIncome - totalExpense, seq(|mine|, k requires 0 <= k < |mine| => Brief(mine[k])))
  }

  /** Whether some read made while building the summary fails. */
  predicate Fails(fault: StoreFault, users: seq<User>) {
    fault.UserListFails? || (fault.UserDataFails? && fault.index < |users|)
  }

  /**
   * GET /summary/admin-summary. Any failed read lands in the `catch`: the
   * reply is the error alone, never a partial list.
   */
  method AdminSummary(db: Db, fault: StoreFault) returns (reply: Reply<seq<Entry>>)
    ensures Fails(fault, db.users) ==> reply == Error(500, "Error fetching admin summary")
    ensures !Fails(fault, db.users) ==> reply.Json? && reply.status == 200
    ensures reply.Json? ==>
      && |reply.body| == |db.users|
      && forall k :: 0 <= k < |db.users| ==> reply.body[k] == EntryFor(db.users[k], db.transactions, db.goals)
  {
    if fault.UserListFails? {
      return Error(500, "Error fetching admin summary");
    }
    var users, txs, goals := db.users, db.transactions, db.goals;
    var summary: seq<Entry> := [];
    var i := 0;
    while i < |users|
      invariant 0 <= i <= |users|
      invariant fault.UserDataFails? ==> fault.index >= i
      invariant |summary| == i
      invariant forall k :: 0 <= k < i ==> summary[k] == EntryFor(users[k], txs, goals)
    {
      if fault == UserDataFails(i) {
        return Error(500, "Error fetching admin summary");
      }
      summary := summary + [EntryFor(users[i], txs, goals)];
      i := i + 1;
    }
    reply := Json(200, summary);
  }

  /** An admin entry carries the same totals and balance the user would see in their own summary. */
  lemma EntryAgreesWithUserSummary(u: User, txs: seq<Transaction>, users: seq<User>, goals: seq<Goal>)
    requires u in users
    ensures var s := UserSummary(txs, users, goals, Some(u.id));
            var e := EntryFor(u, txs, goals);
            && s.Json?
            && e.totalIncome == s.body.totalIncome && e.totalExpense == s.body.totalExpense && e.balance == s.body.balance
            && |e.goalsInfo| == |s.body.goalsInfo|
            && forall k :: 0 <= k < |e.goalsInfo| ==>
                 e.goalsInfo[k].name == s.body.goalsInfo[k].name
                 && e.goalsInfo[k].savedAmount == s.body.goalsInfo[k].savedAmount
                 && e.goalsInfo[k].targetAmount == s.body.goalsInfo[k].targetAmount
  {
    assert FindUser(users, u.id).Some?;
  }
}
