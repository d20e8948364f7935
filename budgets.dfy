/**
 * backend/controllers/budgetController.js: one budget per (user, category),
 * created once and then merged field by field or deleted by its owner.
 */
module Budgets {
  import opened Wrappers
  import opened Js
  import opened Http
  import opened Docs
  import opened Records
  import opened Store

  /**
   * The fields of a request body (`category`, `limit`, `type`, `startDate`,
   * `endDate`); absent ones are None. An update reads all but `category`.
   */
  datatype BudgetBody = BudgetBody(
    category: Option<string>, limit: Option<int>, kind: Option<string>,
    startDate: Option<Time>, endDate: Option<Time>)

  // ---------------------------------------------------------------------
  // the per-category invariant

  /** Adding a budget for a (user, category) pair that has none keeps one budget per pair. */
  lemma AppendKeepsOnePerCategory(budgets: seq<Budget>, b: Budget)
    requires OnePerCategory(budgets)
    requires FindBudget(budgets, b.owner, b.val.category).None?
    ensures OnePerCategory(budgets + [b])
  {
    var r := budgets + [b];
    forall i, j | 0 <= i < j < |r|
      ensures r[i].owner != r[j].owner || r[i].val.category != r[j].val.category
    {
      if j == |budgets| {
        assert r[i] in budgets;
      } else {
        assert r[i] == budgets[i] && r[j] == budgets[j];
      }
    }
  }

  /** Replacing a budget by one with the same owner and category keeps one budget per pair. */
  lemma ReplaceKeepsOnePerCategory(budgets: seq<Budget>, i: nat, b: Budget)
    requires OnePerCategory(budgets) && i < |budgets|
    requires b.owner == budgets[i].owner && b.val.category == budgets[i].val.category
    ensures OnePerCategory(budgets[i := b])
  {
  }

  /** Removing a budget keeps one budget per pair. */
  lemma RemoveKeepsOnePerCategory(budgets: seq<Budget>, i: nat)
    requires OnePerCategory(budgets) && i < |budgets|
    ensures OnePerCategory(Remove(budgets, i))
  {
    var r := Remove(budgets, i);
    forall a, b | 0 <= a < b < |r|
      ensures r[a].owner != r[b].owner || r[a].val.category != r[b].val.category
    {
      var a' := if a < i then a else a + 1;
      var b' := if b < i then b else b + 1;
      assert r[a] == budgets[a'] && r[b] == budgets[b'] && a' < b';
    }
  }

  // ---------------------------------------------------------------------
  // createBudget

  /**
   * `Budget.findOne({ userId, category })`. An absent category is sent to
   * the store as null, which no stored budget (category is required) has.
   */
  function Existing(budgets: seq<Budget>, user: Id, category: Option<string>): (r: Option<Budget>)
    ensures r.Some? ==> category.Some? && r.value in budgets && r.value.owner == user && r.value.val.category == category.value
    ensures category.Some? && (exists b :: b in budgets && b.owner == user && b.val.category == category.value) ==> r.Some?
  {
    if category.None? then None else FindBudget(budgets, user, category.value)
  }

  /**
   * The record `new Budget({...})` saves, or None when validation rejects it:
   * `category` must be a non-empty string, `limit` given and `type` one of
   * the enum names. Absent dates default to `now`.
   */
  function BudgetDraft(body: BudgetBody, now: Time): (r: Option<BudgetData>)
    ensures r.Some? <==>
      TruthyText(body.category) && body.limit.Some? && body.kind.Some? && ParseWindow(body.kind.value).Some?
    ensures r.Some? ==>
      && Some(r.value.category) == body.category && Some(r.value.limit) == body.limit
      && Some(WindowName(r.value.window)) == body.kind
    ensures r.Some? ==>
      && r.value.startDate == (if body.startDate.Some? then body.startDate.value else now)
      && r.value.endDate == (if body.endDate.Some? then body.endDate.value else now)
  {
    if !TruthyText(body.category) || body.limit.None? || body.kind.None? then None
    else match ParseWindow(body.kind.value)
      case None => None
      case Some(w) =>
        Some(BudgetData(body.category.value, body.limit.value, w, OrPresent(body.startDate, now), OrPresent(body.endDate, now)))
  }

  /** POST /budgets. Reading `req.user._id` on a missing user throws inside the `try` (500). */
  method CreateBudget(db: Db, caller: Option<Id>, body: BudgetBody, now: Time) returns (reply: Reply<Budget>)
    requires db.Valid()
    modifies db`budgets, db`nextId
    ensures db.Valid()
    ensures caller.None? ==> reply == Error(500, "Error creating budget") && db.budgets == old(db.budgets) && db.nextId == old(db.nextId)
    ensures caller.Some? && Existing(old(db.budgets), caller.value, body.category).Some? ==>
      reply == Error(400, "Budget already set for this category") && db.budgets == old(db.budgets) && db.nextId == old(db.nextId)
    ensures caller.Some? && Existing(old(db.budgets), caller.value, body.category).None? && BudgetDraft(body, now).None? ==>
      reply == Error(500, "Error creating budget") && db.budgets == old(db.budgets) && db.nextId == old(db.nextId)
    ensures caller.Some? && Existing(old(db.budgets), caller.value, body.category).None? && BudgetDraft(body, now).Some? ==>
      var b := Doc(old(db.nextId), caller.value, BudgetDraft(body, now).value);
      && reply == Note(201, "Budget created successfully", Some(b))
      && db.budgets == old(db.budgets) + [b] && db.nextId == old(db.nextId) + 1
  {
    if caller.None? {
      return Error(500, "Error creating budget");
    }
    var existing := Existing(db.budgets, caller.value, body.category);
    if existing.Some? {
      return Error(400, "Budget already set for this category");
    }
    var data := BudgetDraft(body, now);
    if data.None? {
      // budget.save() rejects the document
      return Error(500, "Error creating budget");
    }
    var before := db.budgets;
    var id := db.NewId();
    var b := Doc(id, caller.value, data.value);
    AppendKeepsKeyed(before, b, id);
    AppendKeepsOnePerCategory(before, b);
    db.budgets := before + [b];
    reply := Note(201, "Budget created successfully", Some(b));
  }

  // ---------------------------------------------------------------------
  // getBudgets

  /** GET /budgets: the caller's budgets, in store order. */
  method GetBudgets(db: Db, caller: Option<Id>) returns (reply: Reply<seq<Budget>>)
    ensures caller.None? ==> reply == Error(500, "Error fetching budgets")
    ensures caller.Some? ==> reply.Json? && reply.status == 200
    ensures caller.Some? ==> reply.body == Owned(db.budgets, caller.value)
    ensures caller.Some? ==> forall b :: b in reply.body <==> b in db.budgets && b.owner == caller.value
    ensures caller.Some? ==> |reply.body| <= |db.budgets|
  {
    if caller.None? {
      return Error(500, "Error fetching budgets");
    }
    reply := Json(200, Owned(db.budgets, caller.value));
  }

  // ---------------------------------------------------------------------
  // updateBudget

  /**
   * `field = body.field || field` for limit, type, startDate and endDate;
   * None when the merged type is not an enum name (save() rejects it). The
   * category is never touched.
   */
  function BudgetPatched(b: BudgetData, body: BudgetBody): (r: Option<BudgetData>)
    ensures r.None? <==> TruthyText(body.kind) && ParseWindow(body.kind.value).None?
    ensures r.Some? ==> r.value.category == b.category
    ensures r.Some? ==> (if TruthyNumber(body.limit) then Some(r.value.limit) == body.limit else r.value.limit == b.limit)
    ensures r.Some? ==> (if TruthyText(body.kind) then Some(WindowName(r.value.window)) == body.kind else r.value.window == b.window)
    ensures r.Some? ==> (if body.startDate.Some? then Some(r.value.startDate) == body.startDate else r.value.startDate == b.startDate)
    ensures r.Some? ==> (if body.endDate.Some? then Some(r.value.endDate) == body.endDate else r.value.endDate == b.endDate)
  {
    match ParseWindow(OrText(body.kind, WindowName(b.window)))
    case None => None
    case Some(w) =>
      Some(BudgetData(b.category, OrNumber(body.limit, b.limit), w, OrPresent(body.startDate, b.startDate), OrPresent(body.endDate, b.endDate)))
  }

  /** Sending the same update twice changes nothing the second time. */
  lemma BudgetPatchedIdempotent(b: BudgetData, body: BudgetBody)
    requires BudgetPatched(b, body).Some?
    ensures BudgetPatched(BudgetPatched(b, body).value, body) == BudgetPatched(b, body)
  {
    var b' := BudgetPatched(b, body).value;
    assert ParseWindow(WindowName(b'.window)) == Some(b'.window);
  }

  /** PUT /budgets/:id. */
  method UpdateBudget(db: Db, caller: Option<Id>, id: Id, body: BudgetBody) returns (reply: Reply<Budget>)
    requires db.Valid()
    modifies db`budgets
    ensures db.Valid()
    ensures match Check(old(db.budgets), id, caller)
      case Missing => reply == Error(404, "Budget not found") && db.budgets == old(db.budgets)
      case NoCaller => reply == Error(500, "Error updating budget") && db.budgets == old(db.budgets)
      case Foreign => reply == Error(403, "Forbidden") && db.budgets == old(db.budgets)
      case Granted(i) =>
        var doc := old(db.budgets)[i];
        match BudgetPatched(doc.val, body)
        case None => reply == Error(500, "Error updating budget") && db.budgets == old(db.budgets)
        case Some(v) =>
          && reply == Note(200, "Budget updated successfully", Some(doc.(val := v)))
          && db.budgets == old(db.budgets)[i := doc.(val := v)]
  {
    var found := Find(db.budgets, id);
    if found.None? {
      return Error(404, "Budget not found");
    }
    var i := found.value;
    var doc := db.budgets[i];
    if caller.None? {
      return Error(500, "Error updating budget");
    }
    if doc.owner != caller.value {
      return Error(403, "Forbidden");
    }
    var v := doc.val;
    v := v.(limit := OrNumber(body.limit, v.limit));
    var window := ParseWindow(OrText(body.kind, WindowName(v.window)));
    v := v.(startDate := OrPresent(body.startDate, v.startDate));
    v := v.(endDate := OrPresent(body.endDate, v.endDate));
    if window.None? {
      // budget.save() rejects the type
      return Error(500, "Error updating budget");
    }
    v := v.(window := window.value);
    var updated := doc.(val := v);
    ReplaceKeepsKeyed(db.budgets, i, updated, db.nextId);
    ReplaceKeepsOnePerCategory(db.budgets, i, updated);
    db.budgets := db.budgets[i := updated];
    reply := Note(200, "Budget updated successfully", Some(updated));
  }

  // ---------------------------------------------------------------------
  // deleteBudget

  /** DELETE /budgets/:id. */
  method DeleteBudget(db: Db, caller: Option<Id>, id: Id) returns (reply: Reply<Budget>)
    requires db.Valid()
    modifies db`budgets
    ensures db.Valid()
    ensures match Check(old(db.budgets), id, caller)
      case Missing => reply == Error(404, "Budget not found") && db.budgets == old(db.budgets)
      case NoCaller => reply == Error(500, "Error deleting budget") && db.budgets == old(db.budgets)
      case Foreign => reply == Error(403, "Forbidden") && db.budgets == old(db.budgets)
      case Granted(i) =>
        reply == Note(200, "Budget deleted successfully", None) && db.budgets == Remove(old(db.budgets), i)
  {
    var found := Find(db.budgets, id);
    if found.None? {
      return Error(404, "Budget not found");
    }
    var i := found.value;
    if caller.None? {
      return Error(500, "Error deleting budget");
    }
    if db.budgets[i].owner != caller.value {
      return Error(403, "Forbidden");
    }
    RemoveKeepsKeyed(db.budgets, i, db.nextId);
    RemoveKeepsOnePerCategory(db.budgets, i);
    db.budgets := Remove(db.budgets, i);
    reply := Note(200, "Budget deleted successfully", None);
  }
}
