/**
 * A stored document: its id, the user that owns it (`userId`, or `user` for
 * recurrence schedules) and its own fields. A collection is the sequence of
 * its documents in the store's natural order. The owner-checked lookup that
 * every update and delete handler starts with is defined here once.
 */
module Docs {
  import opened Wrappers

  type Id = nat

  datatype Doc<R> = Doc(id: Id, owner: Id, val: R)

  /** No id repeats. */
  ghost predicate UniqueIds<R>(c: seq<Doc<R>>) {
    forall i, j :: 0 <= i < j < |c| ==> c[i].id != c[j].id
  }

  /** Every id is below `next` (the store's id source) and no id repeats. */
  ghost predicate Keyed<R>(c: seq<Doc<R>>, next: Id) {
    && (forall i :: 0 <= i < |c| ==> c[i].id < next)
    && UniqueIds(c)
  }

  /** The elements of `s` that satisfy `p`, in order. */
  function Filter<T(!new)>(s: seq<T>, p: T -> bool): (r: seq<T>)
    ensures |r| <= |s|
    ensures forall x :: x in r <==> x in s && p(x)
  {
    if s == [] then []
    else Filter(s[..|s| - 1], p) + (if p(s[|s| - 1]) then [s[|s| - 1]] else [])
  }

  /** Filtering by two predicates that agree everywhere gives the same sequence. */
  lemma {:induction false} FilterAgrees<T(!new)>(s: seq<T>, p: T -> bool, q: T -> bool)
    requires forall x :: p(x) == q(x)
    ensures Filter(s, p) == Filter(s, q)
  {
    if s != [] {
      FilterAgrees(s[..|s| - 1], p, q);
    }
  }

  /** Filtering `s + [x]` filters `s` and then looks at `x`. */
  lemma FilterSnoc<T(!new)>(s: seq<T>, x: T, p: T -> bool)
    ensures Filter(s + [x], p) == Filter(s, p) + (if p(x) then [x] else [])
  {
    assert (s + [x])[..|s|] == s;
  }

  /** `find({ <owner>: user })`: the user's documents, in store order. */
  function Owned<R(!new)>(c: seq<Doc<R>>, user: Id): (r: seq<Doc<R>>)
    ensures forall d :: d in r <==> d in c && d.owner == user
  {
    Filter(c, (d: Doc<R>) => d.owner == user)
  }

  /** `findById(id)`: the position of the document with that id, if any. */
  function Find<R>(c: seq<Doc<R>>, id: Id): (r: Option<nat>)
    ensures r.Some? ==> r.value < |c| && c[r.value].id == id
    ensures r.None? <==> forall d :: d in c ==> d.id != id
  {
    if c == [] then None
    else if c[0].id == id then Some(0)
    else match Find(c[1..], id)
      case None => None
      case Some(k) => Some(k + 1)
  }

  /** The outcomes shared by every update and delete handler. */
  datatype Access = Missing | NoCaller | Foreign | Granted(index: nat)

  /**
   * The state machine of the update and delete handlers: no document with
   * that id gives 404; otherwise reading `req.user._id` on a missing user
   * throws (500); a document of another user gives 403; only the owner acts.
   */
  function Check<R>(c: seq<Doc<R>>, id: Id, caller: Option<Id>): (a: Access)
    ensures a.Missing? <==> forall d :: d in c ==> d.id != id
    ensures a.NoCaller? <==> caller.None? && exists d :: d in c && d.id == id
    ensures a.Foreign? ==> caller.Some? && exists d :: d in c && d.id == id && d.owner != caller.value
    ensures a.Granted? ==> a.index < |c| && c[a.index].id == id && caller == Some(c[a.index].owner)
    ensures caller.Some? && UniqueIds(c) && (exists d :: d in c && d.id == id) ==>
              (a.Granted? <==> exists d :: d in c && d.id == id && d.owner == caller.value)
  {
    match Find(c, id)
    case None => Missing
    case Some(i) =>
      if caller.None? then NoCaller
      else if c[i].owner != caller.value then Foreign
      else Granted(i)
  }

  /** `deleteOne()`: the collection without the document at position `i`. */
  function Remove<R>(c: seq<Doc<R>>, i: nat): (r: seq<Doc<R>>)
    requires i < |c|
    ensures |r| == |c| - 1
    ensures forall k :: 0 <= k < i ==> r[k] == c[k]
    ensures forall k :: i <= k < |r| ==> r[k] == c[k + 1]
  {
    c[..i] + c[i + 1..]
  }

  /** Removing a document keeps the ids unique and below the bound. */
  lemma RemoveKeepsKeyed<R>(c: seq<Doc<R>>, i: nat, next: Id)
    requires i < |c| && Keyed(c, next)
    ensures Keyed(Remove(c, i), next)
  {
    var r := Remove(c, i);
    forall a, b | 0 <= a < b < |r| ensures r[a].id != r[b].id {
      var a' := if a < i then a else a + 1;
      var b' := if b < i then b else b + 1;
      assert r[a] == c[a'] && r[b] == c[b'] && a' < b';
    }
  }

  /** With unique ids, removal takes away exactly the document with that id. */
  lemma {:induction false} RemoveExactly<R>(c: seq<Doc<R>>, i: nat, next: Id)
    requires i < |c| && Keyed(c, next)
    ensures forall d :: d in Remove(c, i) <==> d in c && d.id != c[i].id
  {
    var r := Remove(c, i);
    forall d | d in r ensures d in c && d.id != c[i].id {
      var k :| 0 <= k < |r| && r[k] == d;
      var k' := if k < i then k else k + 1;
      assert r[k] == c[k'] && k' != i;
    }
    forall d | d in c && d.id != c[i].id ensures d in r {
      var k :| 0 <= k < |c| && c[k] == d;
      assert k != i;
      if k < i { assert r[k] == d; } else { assert r[k - 1] == d; }
    }
  }

  /** Appending a document with the next id keeps the ids unique. */
  lemma AppendKeepsKeyed<R>(c: seq<Doc<R>>, d: Doc<R>, next: Id)
    requires Keyed(c, next) && d.id == next
    ensures Keyed(c + [d], next + 1)
  {
  }

  /** Replacing a document by one with the same id keeps the ids unique. */
  lemma ReplaceKeepsKeyed<R>(c: seq<Doc<R>>, i: nat, d: Doc<R>, next: Id)
    requires i < |c| && Keyed(c, next) && d.id == c[i].id
    ensures Keyed(c[i := d], next)
  {
  }
}
