/**
 * backend/controllers/transactionController.js: posting a transaction with
 * the advisory budget check, listing, updating and deleting transactions.
 */
module Transactions {
  import opened Wrappers
  import opened Js
  import opened Http
  import opened Docs
  import opened Records
  import opened Ledger
  import opened Store

  /** The fields of a request body (`type`, `amount`, `category`, `tags`); absent ones are None. */
  datatype TxBody = TxBody(kind: Option<string>, amount: Option<int>, category: Option<string>, tags: Option<seq<string>>)

  /** The query string of GET /transactions; `tags` is the comma-separated list. */
  datatype TxQuery = TxQuery(kind: Option<string>, category: Option<string>, tags: Option<string>)

  /** The first and last millisecond of the server's current local day. */
  datatype Day = Day(start: Time, end: Time)

  // ---------------------------------------------------------------------
  // checkBudgetExceed

  /** The dates summed over: today for a daily budget, the budget's own range for a monthly one. */
  function WindowOf(b: BudgetData, today: Day): (Time, Time) {
    match b.window
    case PerDay => (today.start, today.end)
    case PerMonth => (b.startDate, b.endDate)
  }

  /**
   * The aggregate: all of the user's transactions in the category (income
   * as well as expense) dated within the window, both ends inclusive.
   */
  function Spent(txs: seq<Transaction>, user: Id, category: string, window: (Time, Time)): int {
    Sum(Select(txs, TxFilter(user, None, Some(category), None, Some(window))))
  }

  /**
   * Whether posting `amount` in `category` overruns the user's budget there:
   * what was spent in the window before this posting plus `amount` is
   * strictly above the limit. With no such budget there is nothing to flag.
   */
  function OverBudget(budgets: seq<Budget>, txs: seq<Transaction>, user: Id, category: string, amount: int, today: Day): (over: bool)
    ensures (forall b :: b in budgets ==> !(b.owner == user && b.val.category == category)) ==> !over
  {
    match FindBudget(budgets, user, category)
    case None => false
    case Some(b) => Spent(txs, user, category, WindowOf(b.val, today)) + amount > b.val.limit
  }

  /** The overage condition for the user's (unique) budget in that category; reaching the limit exactly is not an overage. */
  lemma OverBudgetIff(budgets: seq<Budget>, txs: seq<Transaction>, b: Budget, amount: int, today: Day)
    requires OnePerCategory(budgets) && b in budgets
    ensures OverBudget(budgets, txs, b.owner, b.val.category, amount, today)
        <==> Spent(txs, b.owner, b.val.category, WindowOf(b.val, today)) + amount > b.val.limit
  {
    FindBudgetUnique(budgets, b);
  }

  /**
   * The check as the code runs it: after `transaction.save()`, so the
   * aggregate already holds the posted transaction and its amount is added
   * a second time.
   */
  function OverBudgetAfterSave(budgets: seq<Budget>, before: seq<Transaction>, posted: Transaction, today: Day): bool {
    OverBudget(budgets, before + [posted], posted.owner, posted.val.category, posted.val.amount, today)
  }

  /** When the posted transaction falls inside the window, the check as written counts its amount twice. */
  lemma AfterSaveCountsPostedTwice(budgets: seq<Budget>, before: seq<Transaction>, posted: Transaction, today: Day, b: Budget)
    requires FindBudget(budgets, posted.owner, posted.val.category) == Some(b)
    requires WindowOf(b.val, today).0 <= posted.val.date <= WindowOf(b.val, today).1
    ensures OverBudgetAfterSave(budgets, before, posted, today)
        <==> Spent(before, posted.owner, posted.val.category, WindowOf(b.val, today)) + 2 * posted.val.amount > b.val.limit
  {
    var f := TxFilter(posted.owner, None, Some(posted.val.category), None, Some(WindowOf(b.val, today)));
    SelectSnoc(before, posted, f);
    assert Admits(f, posted);
    SumSnoc(Select(before, f), posted);
  }

  /** A daily budget of 100 with nothing spent yet: posting 60 is flagged as written, and is not over the limit. */
  lemma DoubleCountWitness()
    ensures var budgets := [Doc(0, 7, BudgetData("Food", 100, PerDay, 0, 0))];
            var posted := Doc(1, 7, TxData(Expense, 60, "Food", [], 5));
            var today := Day(0, 10);
            OverBudgetAfterSave(budgets, [], posted, today) && !OverBudget(budgets, [], 7, "Food", 60, today)
  {
    var budgets := [Doc(0, 7, BudgetData("Food", 100, PerDay, 0, 0))];
    var posted := Doc(1, 7, TxData(Expense, 60, "Food", [], 5));
    var today := Day(0, 10);
    assert FindBudget(budgets, 7, "Food") == Some(budgets[0]);
    AfterSaveCountsPostedTwice(budgets, [], posted, today, budgets[0]);
  }

  // ---------------------------------------------------------------------
  // createTransaction

  /**
   * The record `new Transaction({...})` saves, dated `now`, or None when
   * Mongoose's validation rejects it: `type` must be one of the enum names,
   * `amount` must be given and `category` must be a non-empty string.
   */
  function Draft(body: TxBody, now: Time): (r: Option<TxData>)
    ensures r.Some? <==> body.kind.Some? && ParseKind(body.kind.value).Some? && body.amount.Some? && TruthyText(body.category)
    ensures r.Some? ==> Some(KindName(r.value.kind)) == body.kind && Some(r.value.amount) == body.amount
    ensures r.Some? ==> Some(r.value.category) == body.category && r.value.date == now
    ensures r.Some? ==> r.value.tags == (if body.tags.Some? then body.tags.value else [])
  {
    if body.kind.None? || body.amount.None? || !TruthyText(body.category) then None
    else match ParseKind(body.kind.value)
      case None => None
      case Some(k) => Some(TxData(k, body.amount.value, body.category.value, OrPresent(body.tags, []), now))
  }

  /**
   * POST /transactions. The second result is the advisory budget flag (the
   * source only logs it): it never changes the reply or the store. It is the
   * check as the handler runs it, after the save, so a posting inside the
   * budget's window is counted twice (see `AfterSaveCountsPostedTwice`).
   */
  method CreateTransaction(db: Db, caller: Option<Id>, body: TxBody, now: Time, today: Day)
    returns (reply: Reply<Transaction>, overBudget: bool)
    requires db.Valid()
    modifies db`transactions, db`nextId
    ensures db.Valid()
    ensures caller.None? ==>
      reply == Error(400, "User not authenticated") && db.transactions == old(db.transactions) && db.nextId == old(db.nextId) && !overBudget
    ensures caller.Some? && Draft(body, now).None? ==>
      reply == Error(500, "Error creating transaction") && db.transactions == old(db.transactions) && db.nextId == old(db.nextId) && !overBudget
    ensures caller.Some? && Draft(body, now).Some? ==>
      var t := Doc(old(db.nextId), caller.value, Draft(body, now).value);
      && reply == Json(201, t)
      && db.transactions == old(db.transactions) + [t] && db.nextId == old(db.nextId) + 1
      && (forall d :: d in old(db.transactions) ==> d.id != t.id)
      && overBudget == OverBudgetAfterSave(db.budgets, old(db.transactions), t, today)
  {
    if caller.None? {
      return Error(400, "User not authenticated"), false;
    }
    var data := Draft(body, now);
    if data.None? {
      // transaction.save() rejects the document
      return Error(500, "Error creating transaction"), false;
    }
    var before := db.transactions;
    var id := db.NewId();
    var t := Doc(id, caller.value, data.value);
    AppendKeepsKeyed(before, t, id);
    db.transactions := before + [t];
    overBudget := OverBudgetAfterSave(db.budgets, before, t, today);
    reply := Json(201, t);
  }

  // ---------------------------------------------------------------------
  // getTransactions

  /** The filter the handler builds: only the truthy query fields add a condition. */
  function QueryFilter(user: Id, q: TxQuery): TxFilter {
    TxFilter(
      user,
      if TruthyText(q.kind) then q.kind else None,
      if TruthyText(q.category) then q.category else None,
      if TruthyText(q.tags) then Some(Split(q.tags.value, ',')) else None,
      None)
  }

  /** What GET /transactions lists for `user`: type and category by equality, tags by any-of. */
  predicate Listed(t: Transaction, user: Id, q: TxQuery) {
    && t.owner == user
    && (TruthyText(q.kind) ==> KindName(t.val.kind) == q.kind.value)
    && (TruthyText(q.category) ==> t.val.category == q.category.value)
    && (TruthyText(q.tags) ==> exists tag :: tag in t.val.tags && tag in Split(q.tags.value, ','))
  }

  /** The built filter admits exactly the listed transactions. */
  lemma QueryFilterListed(user: Id, q: TxQuery)
    ensures forall t :: Admits(QueryFilter(user, q), t) <==> Listed(t, user, q)
  {
  }

  /** `sort({ date: -1 })`: newest first. */
  ghost predicate NewestFirst(s: seq<Transaction>) {
    forall i, j :: 0 <= i < j < |s| ==> s[i].val.date >= s[j].val.date
  }

  /** After a removal of the head, nothing left or added is newer than the head. */
  lemma NotNewerThanHead(s: seq<Transaction>, t: Transaction, rest: seq<Transaction>)
    requires |s| > 0 && NewestFirst(s) && t.val.date < s[0].val.date
    requires multiset(rest) == multiset(s[1..]) + multiset{t}
    ensures forall k :: 0 <= k < |rest| ==> rest[k].val.date <= s[0].val.date
  {
    forall k | 0 <= k < |rest| ensures rest[k].val.date <= s[0].val.date {
      assert rest[k] in multiset(rest);
      if rest[k] != t {
        assert rest[k] in multiset(s[1..]);
        var j :| 0 <= j < |s[1..]| && s[1..][j] == rest[k];
        assert s[j + 1] == rest[k];
      }
    }
  }

  function InsertByDate(t: Transaction, s: seq<Transaction>): (r: seq<Transaction>)
    requires NewestFirst(s)
    ensures NewestFirst(r)
    ensures multiset(r) == multiset(s) + multiset{t}
  {
    if s == [] || t.val.date >= s[0].val.date then
      [t] + s
    else
      var rest := InsertByDate(t, s[1..]);
      NotNewerThanHead(s, t, rest);
      assert s == [s[0]] + s[1..];
      [s[0]] + rest
  }

  function SortNewestFirst(s: seq<Transaction>): (r: seq<Transaction>)
    ensures NewestFirst(r)
    ensures multiset(r) == multiset(s)
  {
    if s == [] then []
    else
      assert s == [s[0]] + s[1..];
      InsertByDate(s[0], SortNewestFirst(s[1..]))
  }

  /** Sequences with the same multiset have the same members. */
  lemma SameMembers(a: seq<Transaction>, b: seq<Transaction>)
    requires multiset(a) == multiset(b)
    ensures forall x :: x in a <==> x in b
  {
    forall x ensures x in a <==> x in b {
      assert x in a <==> x in multiset(a);
      assert x in b <==> x in multiset(b);
    }
  }

  /**
   * GET /transactions. `req.user._id` is read before the `try`, so a missing
   * user makes the handler throw without replying.
   */
  method GetTransactions(db: Db, caller: Option<Id>, q: TxQuery) returns (reply: Reply<seq<Transaction>>)
    ensures caller.None? ==> reply == Unhandled
    ensures caller.Some? ==> reply.Json? && reply.status == 200
    ensures caller.Some? ==> NewestFirst(reply.body)
    ensures caller.Some? ==> multiset(reply.body) == multiset(Select(db.transactions, QueryFilter(caller.value, q)))
    ensures caller.Some? ==> forall t :: t in reply.body <==> t in db.transactions && Listed(t, caller.value, q)
  {
    if caller.None? {
      return Unhandled;
    }
    var filter := TxFilter(caller.value, None, None, None, None);
    if TruthyText(q.kind) { filter := filter.(kind := q.kind); }
    if TruthyText(q.category) { filter := filter.(category := q.category); }
    if TruthyText(q.tags) { filter := filter.(tags := Some(Split(q.tags.value, ','))); }
    assert filter == QueryFilter(caller.value, q);
    var found := Select(db.transactions, filter);
    var sorted := SortNewestFirst(found);
    SameMembers(sorted, found);
    QueryFilterListed(caller.value, q);
    reply := Json(200, sorted);
  }

  // ---------------------------------------------------------------------
  // updateTransaction

  /**
   * `field = body.field || field` for type, amount, category and tags; None
   * when the merged type is not an enum name (save() rejects it). The date
   * is never touched.
   */
  function Patched(t: TxData, b: TxBody): (r: Option<TxData>)
    ensures r.None? <==> TruthyText(b.kind) && ParseKind(b.kind.value).None?
    ensures r.Some? ==> r.value.date == t.date
    ensures r.Some? ==> (if TruthyText(b.kind) then Some(KindName(r.value.kind)) == b.kind else r.value.kind == t.kind)
    ensures r.Some? ==> (if TruthyNumber(b.amount) then Some(r.value.amount) == b.amount else r.value.amount == t.amount)
    ensures r.Some? ==> (if TruthyText(b.category) then Some(r.value.category) == b.category else r.value.category == t.category)
    ensures r.Some? ==> (if b.tags.Some? then Some(r.value.tags) == b.tags else r.value.tags == t.tags)
  {
    match ParseKind(OrText(b.kind, KindName(t.kind)))
    case None => None
    case Some(k) => Some(TxData(k, OrNumber(b.amount, t.amount), OrText(b.category, t.category), OrPresent(b.tags, t.tags), t.date))
  }

  /** Sending the same update twice changes nothing the second time. */
  lemma PatchedIdempotent(t: TxData, b: TxBody)
    requires Patched(t, b).Some?
    ensures Patched(Patched(t, b).value, b) == Patched(t, b)
  {
    var t' := Patched(t, b).value;
    assert ParseKind(KindName(t'.kind)) == Some(t'.kind);
  }

  /** An update with no truthy field leaves the transaction as it was. */
  lemma EmptyPatchKeeps(t: TxData, b: TxBody)
    requires !TruthyText(b.kind) && !TruthyNumber(b.amount) && !TruthyText(b.category) && b.tags.None?
    ensures Patched(t, b) == Some(t)
  {
    assert ParseKind(KindName(t.kind)) == Some(t.kind);
  }

  /** PUT /transactions/:id. */
  method UpdateTransaction(db: Db, caller: Option<Id>, id: Id, body: TxBody) returns (reply: Reply<Transaction>)
    requires db.Valid()
    modifies db`transactions
    ensures db.Valid()
    ensures match Check(old(db.transactions), id, caller)
      case Missing => reply == Error(404, "Transaction not found") && db.transactions == old(db.transactions)
      case NoCaller => reply == Error(500, "Error updating transaction") && db.transactions == old(db.transactions)
      case Foreign => reply == Error(403, "Forbidden") && db.transactions == old(db.transactions)
      case Granted(i) =>
        var doc := old(db.transactions)[i];
        match Patched(doc.val, body)
        case None => reply == Error(500, "Error updating transaction") && db.transactions == old(db.transactions)
        case Some(t) => reply == Json(200, doc.(val := t)) && db.transactions == old(db.transactions)[i := doc.(val := t)]
  {
    var found := Find(db.transactions, id);
    if found.None? {
      return Error(404, "Transaction not found");
    }
    var i := found.value;
    var doc := db.transactions[i];
    if caller.None? {
      // req.user._id throws inside the try
      return Error(500, "Error updating transaction");
    }
    if doc.owner != caller.value {
      return Error(403, "Forbidden");
    }
    var t := doc.val;
    var kind := ParseKind(OrText(body.kind, KindName(t.kind)));
    t := t.(amount := OrNumber(body.amount, t.amount));
    t := t.(category := OrText(body.category, t.category));
    t := t.(tags := OrPresent(body.tags, t.tags));
    if kind.None? {
      // transaction.save() rejects the type
      return Error(500, "Error updating transaction");
    }
    t := t.(kind := kind.value);
    var updated := doc.(val := t);
    ReplaceKeepsKeyed(db.transactions, i, updated, db.nextId);
    db.transactions := db.transactions[i := updated];
    reply := Json(200, updated);
  }

  // ---------------------------------------------------------------------
  // deleteTransaction

  /** DELETE /transactions/:id. */
  method DeleteTransaction(db: Db, caller: Option<Id>, id: Id) returns (reply: Reply<Transaction>)
    requires db.Valid()
    modifies db`transactions
    ensures db.Valid()
    ensures match Check(old(db.transactions), id, caller)
      case Missing => reply == Error(404, "Transaction not found") && db.transactions == old(db.transactions)
      case NoCaller => reply == Error(500, "Error deleting transaction") && db.transactions == old(db.transactions)
      case Foreign =>
        && reply == Error(403, "Forbidden: You cannot delete someone else's transaction")
        && db.transactions == old(db.transactions)
      case Granted(i) =>
        reply == Note(200, "Transaction deleted", None) && db.transactions == Remove(old(db.transactions), i)
  {
    var found := Find(db.transactions, id);
    if found.None? {
      return Error(404, "Transaction not found");
    }
    var i := found.value;
    if caller.None? {
      return Error(500, "Error deleting transaction");
    }
    if db.transactions[i].owner != caller.value {
      return Error(403, "Forbidden: You cannot delete someone else's transaction");
    }
    RemoveKeepsKeyed(db.transactions, i, db.nextId);
    db.transactions := Remove(db.transactions, i);
    reply := Note(200, "Transaction deleted", None);
  }
}
