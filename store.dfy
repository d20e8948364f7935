/**
 * The in-memory store that stands in for MongoDB: one sequence per
 * collection, in natural (insertion) order, and the source of fresh ids.
 */
module Store {
  import opened Wrappers
  import opened Docs
  import opened Records

  /** At most one budget per (owner, category): what createBudget's existence check keeps. */
  ghost predicate OnePerCategory(budgets: seq<Budget>) {
    forall i, j :: 0 <= i < j < |budgets| ==>
      budgets[i].owner != budgets[j].owner || budgets[i].val.category != budgets[j].val.category
  }

  /** User ids are below `next` and unique; so are emails, which register checks. */
  ghost predicate UsersKeyed(users: seq<User>, next: Id) {
    && (forall i :: 0 <= i < |users| ==> users[i].id < next)
    && (forall i, j :: 0 <= i < j < |users| ==> users[i].id != users[j].id && users[i].email != users[j].email)
  }

  /** `Budget.findOne({ userId, category })`: the first such budget, if any. */
  function FindBudget(budgets: seq<Budget>, user: Id, category: string): (r: Option<Budget>)
    ensures r.Some? ==> r.value in budgets && r.value.owner == user && r.value.val.category == category
    ensures r.None? <==> forall b :: b in budgets ==> !(b.owner == user && b.val.category == category)
  {
    if budgets == [] then None
    else if budgets[0].owner == user && budgets[0].val.category == category then Some(budgets[0])
    else FindBudget(budgets[1..], user, category)
  }

  /** With at most one budget per (user, category), the lookup finds exactly that budget. */
  lemma FindBudgetUnique(budgets: seq<Budget>, b: Budget)
    requires OnePerCategory(budgets) && b in budgets
    ensures FindBudget(budgets, b.owner, b.val.category) == Some(b)
  {
    var r := FindBudget(budgets, b.owner, b.val.category);
    var i :| 0 <= i < |budgets| && budgets[i] == b;
    var j :| 0 <= j < |budgets| && budgets[j] == r.value;
    assert i == j;
  }

  class Db {
    var transactions: seq<Transaction>
    var budgets: seq<Budget>
    var goals: seq<Goal>
    var schedules: seq<Schedule>
    var users: seq<User>
    var nextId: Id

    ghost predicate Valid()
      reads this
    {
      && Keyed(transactions, nextId)
      && Keyed(budgets, nextId)
      && Keyed(goals, nextId)
      && Keyed(schedules, nextId)
      && UsersKeyed(users, nextId)
      && OnePerCategory(budgets)
    }

    constructor ()
      ensures Valid()
      ensures transactions == [] && budgets == [] && goals == [] && schedules == [] && users == []
    {
      transactions, budgets, goals, schedules, users := [], [], [], [], [];
      nextId := 0;
    }

    /** The id a newly saved document receives: never used before. */
    method NewId() returns (id: Id)
      requires Valid()
      modifies this`nextId
      ensures Valid()
      ensures id == old(nextId) && nextId == id + 1
    {
      id := nextId;
      nextId := nextId + 1;
    }
  }
}
