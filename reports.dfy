/**
 * backend/controllers/reportController.js: the financial report over the
 * caller's transactions that pass the query's filters: income and expense
 * totals, the balance and the per-category breakdown of expenses.
 */
module Reports {
  import opened Wrappers
  import opened Js
  import opened Http
  import opened Docs
  import opened Records
  import opened Ledger
  import opened Store

  /** The query string: `startDate`, `endDate`, `category` and the comma-separated `tags`. */
  datatype ReportQuery = ReportQuery(startDate: Option<Time>, endDate: Option<Time>, category: Option<string>, tags: Option<string>)

  /**
   * The `categoryBreakdown` object as its entries in key insertion order:
   * a category and the expense amount accumulated for it.
   */
  type Entries = seq<(string, int)>

  datatype Report = Report(
    totalIncome: int, totalExpense: int, balance: int,
    categoryBreakdown: Entries, transactions: seq<Transaction>)

  // ---------------------------------------------------------------------
  // the breakdown object

  /** Whether the object has key `c`. */
  predicate Has(b: Entries, c: string) {
    b != [] && (b[0].0 == c || Has(b[1..], c))
  }

  /** No key appears twice, as in any JS object. */
  predicate DistinctKeys(b: Entries) {
    b == [] || (!Has(b[1..], b[0].0) && DistinctKeys(b[1..]))
  }

  /** `categoryBreakdown[c] || 0`. */
  function Lookup(b: Entries, c: string): int {
    if b == [] then 0
    else if b[0].0 == c then b[0].1
    else Lookup(b[1..], c)
  }

  /**
   * `categoryBreakdown[c] = (categoryBreakdown[c] || 0) + a`: an existing
   * key keeps its place and gains `a`; a new key goes last.
   */
  function Bump(b: Entries, c: string, a: int): Entries {
    if b == [] then [(c, a)]
    else if b[0].0 == c then [(c, b[0].1 + a)] + b[1..]
    else [b[0]] + Bump(b[1..], c, a)
  }

  /** The sum of the object's values. */
  function SumValues(b: Entries): int {
    if b == [] then 0 else b[0].1 + SumValues(b[1..])
  }

  lemma {:induction false} BumpLookup(b: Entries, c: string, a: int, d: string)
    ensures Lookup(Bump(b, c, a), d) == Lookup(b, d) + (if d == c then a else 0)
  {
    if b != [] && b[0].0 != c {
      BumpLookup(b[1..], c, a, d);
    }
  }

  lemma {:induction false} BumpSum(b: Entries, c: string, a: int)
    ensures SumValues(Bump(b, c, a)) == SumValues(b) + a
  {
    if b != [] && b[0].0 != c {
      BumpSum(b[1..], c, a);
    }
  }

  lemma {:induction false} BumpHas(b: Entries, c: string, a: int, d: string)
    ensures Has(Bump(b, c, a), d) <==> Has(b, d) || d == c
  {
    if b == [] {
      assert Bump(b, c, a)[1..] == [];
    } else if b[0].0 == c {
      assert Bump(b, c, a)[1..] == b[1..];
    } else {
      BumpHas(b[1..], c, a, d);
      assert Bump(b, c, a)[1..] == Bump(b[1..], c, a);
    }
  }

  lemma {:induction false} BumpDistinct(b: Entries, c: string, a: int)
    requires DistinctKeys(b)
    ensures DistinctKeys(Bump(b, c, a))
  {
    if b == [] {
      assert Bump(b, c, a)[1..] == [];
    } else if b[0].0 == c {
      assert Bump(b, c, a)[1..] == b[1..];
    } else {
      BumpDistinct(b[1..], c, a);
      BumpHas(b[1..], c, a, b[0].0);
      assert Bump(b, c, a)[1..] == Bump(b[1..], c, a);
    }
  }

  // ---------------------------------------------------------------------
  // what the loop accumulates

  /** The breakdown after visiting `s` in order: only expenses add to it. */
  function Breakdown(s: seq<Transaction>): Entries {
    if s == [] then []
    else
      var t := s[|s| - 1];
      var b := Breakdown(s[..|s| - 1]);
      if t.val.kind == Expense then Bump(b, t.val.category, t.val.amount) else b
  }

  lemma BreakdownSnoc(s: seq<Transaction>, t: Transaction)
    ensures Breakdown(s + [t]) == if t.val.kind == Expense then Bump(Breakdown(s), t.val.category, t.val.amount) else Breakdown(s)
  {
    assert (s + [t])[..|s|] == s;
  }

  /** Reference definition: the expense amounts in category `c`. */
  function CategorySpend(s: seq<Transaction>, c: string): int {
    if s == [] then 0
    else
      var t := s[|s| - 1];
      CategorySpend(s[..|s| - 1], c) + (if t.val.kind == Expense && t.val.category == c then t.val.amount else 0)
  }

  /** Each category's entry is what was spent on it. */
  lemma {:induction false} BreakdownLookup(s: seq<Transaction>, c: string)
    ensures Lookup(Breakdown(s), c) == CategorySpend(s, c)
  {
    if s != [] {
      var t := s[|s| - 1];
      BreakdownLookup(s[..|s| - 1], c);
      if t.val.kind == Expense {
        BumpLookup(Breakdown(s[..|s| - 1]), t.val.category, t.val.amount, c);
      }
    }
  }

  /** The breakdown has a key exactly for the categories of the expenses, each key once. */
  lemma {:induction false} BreakdownKeys(s: seq<Transaction>)
    ensures DistinctKeys(Breakdown(s))
    ensures forall c :: Has(Breakdown(s), c) <==> exists t :: t in s && t.val.kind == Expense && t.val.category == c
  {
    if s != [] {
      var init, t := s[..|s| - 1], s[|s| - 1];
      assert s == init + [t];
      BreakdownKeys(init);
      if t.val.kind == Expense {
        BumpDistinct(Breakdown(init), t.val.category, t.val.amount);
        forall c {
          BumpHas(Breakdown(init), t.val.category, t.val.amount, c);
        }
      }
      forall c ensures Has(Breakdown(s), c) <==> exists x :: x in s && x.val.kind == Expense && x.val.category == c {
        if exists x :: x in s && x.val.kind == Expense && x.val.category == c {
          var x :| x in s && x.val.kind == Expense && x.val.category == c;
          if x != t {
            assert x in init;
          }
        }
      }
    }
  }

  /** Only expenses are broken down, so the breakdown adds up to the expense total. */
  lemma {:induction false} BreakdownSumsToExpense(s: seq<Transaction>)
    ensures SumValues(Breakdown(s)) == Sum(OfKind(s, Expense))
  {
    if s != [] {
      var init, t := s[..|s| - 1], s[|s| - 1];
      assert s == init + [t];
      BreakdownSumsToExpense(init);
      OfKindSnoc(init, t, Expense);
      if t.val.kind == Expense {
        assert Breakdown(s) == Bump(Breakdown(init), t.val.category, t.val.amount);
        BumpSum(Breakdown(init), t.val.category, t.val.amount);
        assert OfKind(s, Expense) == OfKind(init, Expense) + [t];
        SumSnoc(OfKind(init, Expense), t);
      } else {
        assert Breakdown(s) == Breakdown(init);
        assert OfKind(s, Expense) == OfKind(init, Expense);
      }
    }
  }

  // ---------------------------------------------------------------------
  // getFinancialReport

  /**
   * The filter the handler builds: the date range only when both ends are
   * given, the category by equality, the tags by any-of the split list.
   */
  function ReportFilter(user: Id, q: ReportQuery): (f: TxFilter)
    ensures f.userId == user && f.kind.None?
    ensures f.dates.Some? <==> q.startDate.Some? && q.endDate.Some?
    ensures f.dates.Some? ==> f.dates.value == (q.startDate.value, q.endDate.value)
    ensures f.category == (if TruthyText(q.category) then q.category else None)
    ensures TruthyText(q.tags) <==> f.tags.Some?
    ensures f.tags.Some? ==> f.tags.value == Split(q.tags.value, ',') && Join(f.tags.value, ',') == q.tags.value
  {
    var tags := if TruthyText(q.tags) then Some(Split(q.tags.value, ',')) else None;
    assert tags.Some? ==> Join(tags.value, ',') == q.tags.value by {
      if TruthyText(q.tags) { JoinSplit(q.tags.value, ','); }
    }
    TxFilter(
      user, None,
      if TruthyText(q.category) then q.category else None,
      tags,
      if q.startDate.Some? && q.endDate.Some? then Some((q.startDate.value, q.endDate.value)) else None)
  }

  /** What the report covers for `user`: dates inclusive at both ends, category by equality, tags by any-of. */
  predicate Reported(t: Transaction, user: Id, q: ReportQuery) {
    && t.owner == user
    && (q.startDate.Some? && q.endDate.Some? ==> q.startDate.value <= t.val.date <= q.endDate.value)
    && (TruthyText(q.category) ==> t.val.category == q.category.value)
    && (TruthyText(q.tags) ==> exists tag :: tag in t.val.tags && tag in Split(q.tags.value, ','))
  }

  lemma ReportFilterAdmits(user: Id, q: ReportQuery)
    ensures forall t :: Admits(ReportFilter(user, q), t) <==> Reported(t, user, q)
  {
  }

  /**
   * The `forEach` over the found transactions: income adds to totalIncome,
   * expense to totalExpense and to its category's entry.
   */
  method Tally(txs: seq<Transaction>) returns (totalIncome: int, totalExpense: int, breakdown: Entries)
    ensures totalIncome == Sum(OfKind(txs, Income))
    ensures totalExpense == Sum(OfKind(txs, Expense))
    ensures breakdown == Breakdown(txs)
  {
    totalIncome, totalExpense := 0, 0;
    breakdown := [];
    var i := 0;
    while i < |txs|
      invariant 0 <= i <= |txs|
      invariant totalIncome == Amounts(txs[..i], Income)
      invariant totalExpense == Amounts(txs[..i], Expense)
      invariant breakdown == Breakdown(txs[..i])
    {
      var t := txs[i];
      assert txs[..i + 1][..i] == txs[..i];
      if t.val.kind == Income {
        totalIncome := totalIncome + t.val.amount;
      } else {
        totalExpense := totalExpense + t.val.amount;
        breakdown := Bump(breakdown, t.val.category, t.val.amount);
      }
      i := i + 1;
    }
    assert txs[..i] == txs;
    AmountsOfKind(txs, Income);
    AmountsOfKind(txs, Expense);
  }

  /**
   * GET /reports. `req.user?._id` makes a missing user a 401, not a throw.
   * The loop visits the found transactions in store order.
   */
  method GetFinancialReport(db: Db, caller: Option<Id>, q: ReportQuery) returns (reply: Reply<Report>)
    ensures caller.None? ==> reply == Error(401, "Unauthorized access")
    ensures caller.Some? ==> reply.Json? && reply.status == 200
    ensures caller.Some? ==>
      var r := reply.body;
      && r.transactions == Select(db.transactions, ReportFilter(caller.value, q))
      && (forall t :: t in r.transactions <==> t in db.transactions && Reported(t, caller.value, q))
      && r.totalIncome == Sum(OfKind(r.transactions, Income))
      && r.totalExpense == Sum(OfKind(r.transactions, Expense))
      && r.balance == r.totalIncome - r.totalExpense
      && r.categoryBreakdown == Breakdown(r.transactions)
  {
    if caller.None? {
      return Error(401, "Unauthorized access");
    }
    var filter := TxFilter(caller.value, None, None, None, None);
    if q.startDate.Some? && q.endDate.Some? {
      filter := filter.(dates := Some((q.startDate.value, q.endDate.value)));
    }
    if TruthyText(q.category) { filter := filter.(category := q.category); }
    if TruthyText(q.tags) { filter := filter.(tags := Some(Split(q.tags.value, ','))); }
    assert filter == ReportFilter(caller.value, q);
    var txs := Select(db.transactions, filter);
    ReportFilterAdmits(caller.value, q);

    var totalIncome, totalExpense, breakdown := Tally(txs);
    reply := Json(200, Report(totalIncome, totalExpense, totalIncome - totalExpense, breakdown, txs));
  }
}
