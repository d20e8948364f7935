/**
 * backend/controllers/goalController.js: savings goals, created with
 * nothing saved yet and then merged field by field or deleted by their owner.
 */
module Goals {
  import opened Wrappers
  import opened Js
  import opened Http
  import opened Docs
  import opened Records
  import opened Store

  /** The fields of a request body (`name`, `category`, `targetAmount`); absent ones are None. */
  datatype GoalBody = GoalBody(name: Option<string>, category: Option<string>, targetAmount: Option<int>)

  // ---------------------------------------------------------------------
  // createGoal

  /** The guard before the `try`: every required field must be truthy, so a target of 0 is refused too. */
  predicate Complete(body: GoalBody) {
    TruthyText(body.name) && TruthyText(body.category) && TruthyNumber(body.targetAmount)
  }

  /** The goal `new Goal({...})` builds from a complete body: nothing saved yet. */
  function NewGoal(body: GoalBody): (g: GoalData)
    requires Complete(body)
    ensures Some(g.name) == body.name && Some(g.category) == body.category && Some(g.targetAmount) == body.targetAmount
    ensures g.savedAmount == 0
  {
    GoalData(body.name.value, body.targetAmount.value, 0, body.category.value)
  }

  /**
   * POST /goals. The field check comes before the `try`, so an incomplete
   * body is refused before the caller is looked at.
   */
  method CreateGoal(db: Db, caller: Option<Id>, body: GoalBody) returns (reply: Reply<Goal>)
    requires db.Valid()
    modifies db`goals, db`nextId
    ensures db.Valid()
    ensures !Complete(body) ==>
      && reply == Error(400, "Please provide all required fields: name, category, targetAmount")
      && db.goals == old(db.goals) && db.nextId == old(db.nextId)
    ensures Complete(body) && caller.None? ==> reply == Error(500, "Error creating goal") && db.goals == old(db.goals) && db.nextId == old(db.nextId)
    ensures Complete(body) && caller.Some? ==>
      var g := Doc(old(db.nextId), caller.value, NewGoal(body));
      reply == Json(201, g) && db.goals == old(db.goals) + [g] && db.nextId == old(db.nextId) + 1
  {
    if !TruthyText(body.name) || !TruthyText(body.category) || !TruthyNumber(body.targetAmount) {
      return Error(400, "Please provide all required fields: name, category, targetAmount");
    }
    if caller.None? {
      return Error(500, "Error creating goal");
    }
    var before := db.goals;
    var id := db.NewId();
    var g := Doc(id, caller.value, NewGoal(body));
    AppendKeepsKeyed(before, g, id);
    db.goals := before + [g];
    reply := Json(201, g);
  }

  // ---------------------------------------------------------------------
  // getGoals

  /** GET /goals: the caller's goals, in store order. */
  method GetGoals(db: Db, caller: Option<Id>) returns (reply: Reply<seq<Goal>>)
    ensures caller.None? ==> reply == Error(500, "Error fetching goals")
    ensures caller.Some? ==> reply.Json? && reply.status == 200
    ensures caller.Some? ==> reply.body == Owned(db.goals, caller.value)
    ensures caller.Some? ==> forall g :: g in reply.body <==> g in db.goals && g.owner == caller.value
    ensures caller.Some? ==> |reply.body| <= |db.goals|
  {
    if caller.None? {
      return Error(500, "Error fetching goals");
    }
    reply := Json(200, Owned(db.goals, caller.value));
  }

  // ---------------------------------------------------------------------
  // updateGoal

  /** `field = body.field || field` for name, targetAmount and category; savedAmount is never touched. */
  function GoalPatched(g: GoalData, body: GoalBody): (r: GoalData)
    ensures r.savedAmount == g.savedAmount
    ensures if TruthyText(body.name) then Some(r.name) == body.name else r.name == g.name
    ensures if TruthyNumber(body.targetAmount) then Some(r.targetAmount) == body.targetAmount else r.targetAmount == g.targetAmount
    ensures if TruthyText(body.category) then Some(r.category) == body.category else r.category == g.category
  {
    g.(name := OrText(body.name, g.name), targetAmount := OrNumber(body.targetAmount, g.targetAmount), category := OrText(body.category, g.category))
  }

  /** Sending the same update twice changes nothing the second time. */
  lemma GoalPatchedIdempotent(g: GoalData, body: GoalBody)
    ensures GoalPatched(GoalPatched(g, body), body) == GoalPatched(g, body)
  {
  }

  /** PUT /goals/:id. */
  method UpdateGoal(db: Db, caller: Option<Id>, id: Id, body: GoalBody) returns (reply: Reply<Goal>)
    requires db.Valid()
    modifies db`goals
    ensures db.Valid()
    ensures match Check(old(db.goals), id, caller)
      case Missing => reply == Error(404, "Goal not found") && db.goals == old(db.goals)
      case NoCaller => reply == Error(500, "Error updating goal") && db.goals == old(db.goals)
      case Foreign => reply == Error(403, "Forbidden") && db.goals == old(db.goals)
      case Granted(i) =>
        var doc := old(db.goals)[i];
        var g := doc.(val := GoalPatched(doc.val, body));
        reply == Json(200, g) && db.goals == old(db.goals)[i := g]
  {
    var found := Find(db.goals, id);
    if found.None? {
      return Error(404, "Goal not found");
    }
    var i := found.value;
    var doc := db.goals[i];
    if caller.None? {
      return Error(500, "Error updating goal");
    }
    if doc.owner != caller.value {
      return Error(403, "Forbidden");
    }
    var v := doc.val;
    v := v.(name := OrText(body.name, v.name));
    v := v.(targetAmount := OrNumber(body.targetAmount, v.targetAmount));
    v := v.(category := OrText(body.category, v.category));
    var updated := doc.(val := v);
    ReplaceKeepsKeyed(db.goals, i, updated, db.nextId);
    db.goals := db.goals[i := updated];
    reply := Json(200, updated);
  }

  // ---------------------------------------------------------------------
  // deleteGoal

  /** DELETE /goals/:id. */
  method DeleteGoal(db: Db, caller: Option<Id>, id: Id) returns (reply: Reply<Goal>)
    requires db.Valid()
    modifies db`goals
    ensures db.Valid()
    ensures match Check(old(db.goals), id, caller)
      case Missing => reply == Error(404, "Goal not found") && db.goals == old(db.goals)
      case NoCaller => reply == Error(500, "Error deleting goal") && db.goals == old(db.goals)
      case Foreign => reply == Error(403, "Forbidden") && db.goals == old(db.goals)
      case Granted(i) => reply == Note(200, "Goal deleted", None) && db.goals == Remove(old(db.goals), i)
  {
    var found := Find(db.goals, id);
    if found.None? {
      return Error(404, "Goal not found");
    }
    var i := found.value;
    if caller.None? {
      return Error(500, "Error deleting goal");
    }
    if db.goals[i].owner != caller.value {
      return Error(403, "Forbidden");
    }
    RemoveKeepsKeyed(db.goals, i, db.nextId);
    db.goals := Remove(db.goals, i);
    reply := Note(200, "Goal deleted", None);
  }

  // ---------------------------------------------------------------------
  // what the goal handlers keep

  /** Nothing has been saved towards any goal. */
  ghost predicate NothingSaved(goals: seq<Goal>) {
    forall g :: g in goals ==> g.val.savedAmount == 0
  }

  /**
   * No handler ever writes savedAmount: a new goal starts at 0 and a merge
   * keeps it, so every stored goal still has nothing saved.
   */
  lemma MergeKeepsNothingSaved(goals: seq<Goal>, i: nat, body: GoalBody)
    requires NothingSaved(goals) && i < |goals|
    ensures NothingSaved(goals[i := goals[i].(val := GoalPatched(goals[i].val, body))])
  {
    var r := goals[i := goals[i].(val := GoalPatched(goals[i].val, body))];
    forall g | g in r ensures g.val.savedAmount == 0 {
      var k :| 0 <= k < |r| && r[k] == g;
      assert k != i ==> r[k] == goals[k];
    }
  }

  lemma CreateKeepsNothingSaved(goals: seq<Goal>, id: Id, owner: Id, body: GoalBody)
    requires NothingSaved(goals) && Complete(body)
    ensures NothingSaved(goals + [Doc(id, owner, NewGoal(body))])
  {
  }
}
