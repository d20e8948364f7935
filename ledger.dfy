/**
 * Sums over transactions and the Mongo `find` filter over the transaction
 * collection, shared by the transaction listing, the financial report and
 * both summaries.
 */
module Ledger {
  import opened Wrappers
  import opened Docs
  import opened Records

  /** `reduce((acc, t) => acc + t.amount, 0)`. */
  function Sum(s: seq<Transaction>): int {
    if s == [] then 0 else Sum(s[..|s| - 1]) + s[|s| - 1].val.amount
  }

  lemma SumSnoc(s: seq<Transaction>, t: Transaction)
    ensures Sum(s + [t]) == Sum(s) + t.val.amount
  {
    assert (s + [t])[..|s|] == s;
  }

  /** `filter(t => t.type === <kind>)`. */
  function OfKind(s: seq<Transaction>, k: Kind): (r: seq<Transaction>)
    ensures forall t :: t in r <==> t in s && t.val.kind == k
  {
    Filter(s, (t: Transaction) => t.val.kind == k)
  }

  lemma OfKindSnoc(s: seq<Transaction>, t: Transaction, k: Kind)
    ensures OfKind(s + [t], k) == OfKind(s, k) + (if t.val.kind == k then [t] else [])
  {
    assert (s + [t])[..|s|] == s;
  }

  /** The amounts of kind `k`, added up in order as a running total does. */
  function Amounts(s: seq<Transaction>, k: Kind): int {
    if s == [] then 0
    else Amounts(s[..|s| - 1], k) + (if s[|s| - 1].val.kind == k then s[|s| - 1].val.amount else 0)
  }

  /** A running total of kind `k` equals filtering by `k` and then adding up. */
  lemma {:induction false} AmountsOfKind(s: seq<Transaction>, k: Kind)
    ensures Amounts(s, k) == Sum(OfKind(s, k))
  {
    if s != [] {
      var init, t := s[..|s| - 1], s[|s| - 1];
      var added := if t.val.kind == k then t.val.amount else 0;
      AmountsOfKind(init, k);
      assert Sum(OfKind(s, k)) == Sum(OfKind(init, k)) + added by {
        assert s == init + [t];
        SumOfKindSnoc(init, t, k);
      }
    }
  }

  /** Adding one more transaction adds its amount to the total of its kind and nothing to the other. */
  lemma SumOfKindSnoc(s: seq<Transaction>, t: Transaction, k: Kind)
    ensures Sum(OfKind(s + [t], k)) == Sum(OfKind(s, k)) + (if t.val.kind == k then t.val.amount else 0)
  {
    OfKindSnoc(s, t, k);
    if t.val.kind == k {
      SumSnoc(OfKind(s, k), t);
    } else {
      assert OfKind(s + [t], k) == OfKind(s, k);
    }
  }

  lemma OwnedSnoc<R(!new)>(c: seq<Doc<R>>, d: Doc<R>, user: Id)
    ensures Owned(c + [d], user) == Owned(c, user) + (if d.owner == user then [d] else [])
  {
    assert (c + [d])[..|c|] == c;
  }

  /**
   * Reference definition: the amounts of `user`'s transactions of kind `k`,
   * added up in store order.
   */
  function Total(s: seq<Transaction>, user: Id, k: Kind): int {
    if s == [] then 0
    else
      var t := s[|s| - 1];
      Total(s[..|s| - 1], user, k) + (if t.owner == user && t.val.kind == k then t.val.amount else 0)
  }

  /**
   * Filtering the user's transactions, then the kind, then adding up (as the
   * summaries do) gives the reference total.
   */
  lemma {:induction false} SumOfKindOwned(s: seq<Transaction>, user: Id, k: Kind)
    ensures Sum(OfKind(Owned(s, user), k)) == Total(s, user, k)
  {
    if s != [] {
      SumOfKindOwned(s[..|s| - 1], user, k);
      OwnedKindStep(s, user, k);
    }
  }

  /** The last transaction adds its amount when it is the user's and of kind `k`. */
  lemma OwnedKindStep(s: seq<Transaction>, user: Id, k: Kind)
    requires s != []
    ensures var t := s[|s| - 1];
      Sum(OfKind(Owned(s, user), k)) ==
      Sum(OfKind(Owned(s[..|s| - 1], user), k)) + (if t.owner == user && t.val.kind == k then t.val.amount else 0)
  {
    var init, t := s[..|s| - 1], s[|s| - 1];
    assert s == init + [t];
    OwnedSnoc(init, t, user);
    if t.owner == user {
      SumOfKindSnoc(Owned(init, user), t, k);
    } else {
      assert Owned(s, user) == Owned(init, user);
    }
  }

  /** The mongo filter a transaction query builds. */
  datatype TxFilter = TxFilter(
    userId: Id,
    kind: Option<string>,           // `type`, matched by equality with the stored name
    category: Option<string>,       // matched by equality
    tags: Option<seq<string>>,      // `{ $in: [...] }`: any stored tag in the list
    dates: Option<(Time, Time)>)    // `{ $gte, $lte }`: both ends inclusive

  predicate Admits(f: TxFilter, t: Transaction) {
    && t.owner == f.userId
    && (f.kind.Some? ==> KindName(t.val.kind) == f.kind.value)
    && (f.category.Some? ==> t.val.category == f.category.value)
    && (f.tags.Some? ==> exists tag :: tag in t.val.tags && tag in f.tags.value)
    && (f.dates.Some? ==> f.dates.value.0 <= t.val.date <= f.dates.value.1)
  }

  /** `Transaction.find(filter)`: the admitted transactions in store order. */
  function Select(s: seq<Transaction>, f: TxFilter): (r: seq<Transaction>)
    ensures forall t :: t in r <==> t in s && Admits(f, t)
  {
    Filter(s, (t: Transaction) => Admits(f, t))
  }

  lemma SelectSnoc(s: seq<Transaction>, t: Transaction, f: TxFilter)
    ensures Select(s + [t], f) == Select(s, f) + (if Admits(f, t) then [t] else [])
  {
    assert (s + [t])[..|s|] == s;
  }
}
