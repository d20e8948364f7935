/**
 * backend/controllers/recurrenceTransactionController.js: recurrence
 * schedules (owned through their `user` path), their owner-checked updates
 * and deletes, and the query for schedules starting within two days.
 */
module Recurrences {
  import opened Wrappers
  import opened Js
  import opened Http
  import opened Docs
  import opened Records
  import opened Store
  import opened Ledger

  /**
   * The fields of a request body (`type`, `amount`, `category`, `tags`,
   * `recurrence`, `startDate`, `endDate`); absent ones are None.
   */
  datatype ScheduleBody = ScheduleBody(
    kind: Option<string>, amount: Option<int>, category: Option<string>, tags: Option<seq<string>>,
    recurrence: Option<string>, startDate: Option<Time>, endDate: Option<Time>)

  /** `moment().add(2, 'days')`, taken as exactly 48 hours of milliseconds. */
  const TwoDays: int := 2 * 24 * 60 * 60 * 1000

  // ---------------------------------------------------------------------
  // createRecurrenceTransaction

  /**
   * The record `new RecurrenceTransaction({...})` saves, created at `now`, or
   * None when validation rejects it: `type` and `recurrence` must be enum
   * names, `amount` and `startDate` given and `category` a non-empty string.
   */
  function ScheduleDraft(body: ScheduleBody, now: Time): (r: Option<ScheduleData>)
    ensures r.Some? <==>
      && body.kind.Some? && ParseFlow(body.kind.value).Some?
      && body.amount.Some? && TruthyText(body.category)
      && body.recurrence.Some? && ParseCadence(body.recurrence.value).Some?
      && body.startDate.Some?
    ensures r.Some? ==>
      && Some(FlowName(r.value.flow)) == body.kind && Some(r.value.amount) == body.amount
      && Some(r.value.category) == body.category && Some(CadenceName(r.value.recurrence)) == body.recurrence
      && Some(r.value.startDate) == body.startDate && r.value.endDate == body.endDate
      && r.value.tags == (if body.tags.Some? then body.tags.value else [])
      && r.value.createdAt == now
  {
    if body.kind.None? || body.amount.None? || !TruthyText(body.category) || body.recurrence.None? || body.startDate.None? then None
    else match (ParseFlow(body.kind.value), ParseCadence(body.recurrence.value))
      case (Some(f), Some(c)) =>
        Some(ScheduleData(f, body.amount.value, body.category.value, OrPresent(body.tags, []), c, body.startDate.value, body.endDate, now))
      case _ => None
  }

  /** POST /recurrence-transactions. */
  method CreateSchedule(db: Db, caller: Option<Id>, body: ScheduleBody, now: Time) returns (reply: Reply<Schedule>)
    requires db.Valid()
    modifies db`schedules, db`nextId
    ensures db.Valid()
    ensures caller.None? || ScheduleDraft(body, now).None? ==>
      reply == Error(500, "Error creating recurrence transaction") && db.schedules == old(db.schedules) && db.nextId == old(db.nextId)
    ensures caller.Some? && ScheduleDraft(body, now).Some? ==>
      var s := Doc(old(db.nextId), caller.value, ScheduleDraft(body, now).value);
      reply == Json(201, s) && db.schedules == old(db.schedules) + [s] && db.nextId == old(db.nextId) + 1
  {
    if caller.None? {
      return Error(500, "Error creating recurrence transaction");
    }
    var data := ScheduleDraft(body, now);
    if data.None? {
      // save() rejects the document
      return Error(500, "Error creating recurrence transaction");
    }
    var before := db.schedules;
    var id := db.NewId();
    var s := Doc(id, caller.value, data.value);
    AppendKeepsKeyed(before, s, id);
    db.schedules := before + [s];
    reply := Json(201, s);
  }

  // ---------------------------------------------------------------------
  // getRecurrenceTransactions

  /** GET /recurrence-transactions: the caller's schedules, in store order. */
  method GetSchedules(db: Db, caller: Option<Id>) returns (reply: Reply<seq<Schedule>>)
    ensures caller.None? ==> reply == Error(500, "Error fetching recurrence transactions")
    ensures caller.Some? ==> reply.Json? && reply.status == 200
    ensures caller.Some? ==> reply.body == Owned(db.schedules, caller.value)
    ensures caller.Some? ==> forall s :: s in reply.body <==> s in db.schedules && s.owner == caller.value
    ensures caller.Some? ==> |reply.body| <= |db.schedules|
  {
    if caller.None? {
      return Error(500, "Error fetching recurrence transactions");
    }
    reply := Json(200, Owned(db.schedules, caller.value));
  }

  // ---------------------------------------------------------------------
  // updateRecurrenceTransaction

  /**
   * `field = body.field || field` for all seven fields; None when the merged
   * type or recurrence is not an enum name (save() rejects it). createdAt is
   * never touched.
   */
  function SchedulePatched(s: ScheduleData, body: ScheduleBody): (r: Option<ScheduleData>)
    ensures r.None? <==>
      || (TruthyText(body.kind) && ParseFlow(body.kind.value).None?)
      || (TruthyText(body.recurrence) && ParseCadence(body.recurrence.value).None?)
    ensures r.Some? ==> r.value.createdAt == s.createdAt
    ensures r.Some? ==> (if TruthyText(body.kind) then Some(FlowName(r.value.flow)) == body.kind else r.value.flow == s.flow)
    ensures r.Some? ==> (if TruthyNumber(body.amount) then Some(r.value.amount) == body.amount else r.value.amount == s.amount)
    ensures r.Some? ==> (if TruthyText(body.category) then Some(r.value.category) == body.category else r.value.category == s.category)
    ensures r.Some? ==> (if body.tags.Some? then Some(r.value.tags) == body.tags else r.value.tags == s.tags)
    ensures r.Some? ==>
      (if TruthyText(body.recurrence) then Some(CadenceName(r.value.recurrence)) == body.recurrence else r.value.recurrence == s.recurrence)
    ensures r.Some? ==> (if body.startDate.Some? then Some(r.value.startDate) == body.startDate else r.value.startDate == s.startDate)
    ensures r.Some? ==> r.value.endDate == (if body.endDate.Some? then body.endDate else s.endDate)
  {
    match (ParseFlow(OrText(body.kind, FlowName(s.flow))), ParseCadence(OrText(body.recurrence, CadenceName(s.recurrence))))
    case (Some(f), Some(c)) =>
      Some(ScheduleData(
        f, OrNumber(body.amount, s.amount), OrText(body.category, s.category), OrPresent(body.tags, s.tags),
        c, OrPresent(body.startDate, s.startDate), if body.endDate.Some? then body.endDate else s.endDate, s.createdAt))
    case _ => None
  }

  /** Sending the same update twice changes nothing the second time. */
  lemma SchedulePatchedIdempotent(s: ScheduleData, body: ScheduleBody)
    requires SchedulePatched(s, body).Some?
    ensures SchedulePatched(SchedulePatched(s, body).value, body) == SchedulePatched(s, body)
  {
    var s' := SchedulePatched(s, body).value;
    assert ParseFlow(FlowName(s'.flow)) == Some(s'.flow);
    assert ParseCadence(CadenceName(s'.recurrence)) == Some(s'.recurrence);
  }

  /** PUT /recurrence-transactions/:id. */
  method UpdateSchedule(db: Db, caller: Option<Id>, id: Id, body: ScheduleBody) returns (reply: Reply<Schedule>)
    requires db.Valid()
    modifies db`schedules
    ensures db.Valid()
    ensures match Check(old(db.schedules), id, caller)
      case Missing => reply == Error(404, "Recurrence transaction not found") && db.schedules == old(db.schedules)
      case NoCaller => reply == Error(500, "Error updating recurrence transaction") && db.schedules == old(db.schedules)
      case Foreign => reply == Error(403, "Forbidden") && db.schedules == old(db.schedules)
      case Granted(i) =>
        var doc := old(db.schedules)[i];
        match SchedulePatched(doc.val, body)
        case None => reply == Error(500, "Error updating recurrence transaction") && db.schedules == old(db.schedules)
        case Some(v) => reply == Json(200, doc.(val := v)) && db.schedules == old(db.schedules)[i := doc.(val := v)]
  {
    var found := Find(db.schedules, id);
    if found.None? {
      return Error(404, "Recurrence transaction not found");
    }
    var i := found.value;
    var doc := db.schedules[i];
    if caller.None? {
      return Error(500, "Error updating recurrence transaction");
    }
    if doc.owner != caller.value {
      return Error(403, "Forbidden");
    }
    var v := doc.val;
    var flow := ParseFlow(OrText(body.kind, FlowName(v.flow)));
    v := v.(amount := OrNumber(body.amount, v.amount));
    v := v.(category := OrText(body.category, v.category));
    v := v.(tags := OrPresent(body.tags, v.tags));
    var recurrence := ParseCadence(OrText(body.recurrence, CadenceName(v.recurrence)));
    v := v.(startDate := OrPresent(body.startDate, v.startDate));
    if body.endDate.Some? {
      v := v.(endDate := body.endDate);
    }
    if flow.None? || recurrence.None? {
      // save() rejects the type or the recurrence
      return Error(500, "Error updating recurrence transaction");
    }
    v := v.(flow := flow.value, recurrence := recurrence.value);
    var updated := doc.(val := v);
    ReplaceKeepsKeyed(db.schedules, i, updated, db.nextId);
    db.schedules := db.schedules[i := updated];
    reply := Json(200, updated);
  }

  // ---------------------------------------------------------------------
  // deleteRecurrenceTransaction

  /** DELETE /recurrence-transactions/:id. */
  method DeleteSchedule(db: Db, caller: Option<Id>, id: Id) returns (reply: Reply<Schedule>)
    requires db.Valid()
    modifies db`schedules
    ensures db.Valid()
    ensures match Check(old(db.schedules), id, caller)
      case Missing => reply == Error(404, "Recurrence transaction not found") && db.schedules == old(db.schedules)
      case NoCaller => reply == Error(500, "Error deleting recurrence transaction") && db.schedules == old(db.schedules)
      case Foreign => reply == Error(403, "Forbidden") && db.schedules == old(db.schedules)
      case Granted(i) =>
        reply == Note(200, "Recurrence transaction deleted", None) && db.schedules == Remove(old(db.schedules), i)
  {
    var found := Find(db.schedules, id);
    if found.None? {
      return Error(404, "Recurrence transaction not found");
    }
    var i := found.value;
    if caller.None? {
      return Error(500, "Error deleting recurrence transaction");
    }
    if db.schedules[i].owner != caller.value {
      return Error(403, "Forbidden");
    }
    RemoveKeepsKeyed(db.schedules, i, db.nextId);
    db.schedules := Remove(db.schedules, i);
    reply := Note(200, "Recurrence transaction deleted", None);
  }

  // ---------------------------------------------------------------------
  // checkUpcomingRecurrenceTransactions

  /** The date condition of the upcoming query: starting between now and two days on, both ends inclusive. */
  function StartsSoon(now: Time): Schedule -> bool {
    (s: Schedule) => now <= s.val.startDate <= now + TwoDays
  }

  /** The whole upcoming condition: the user's schedule, starting soon. */
  function UpcomingFor(user: Id, now: Time): Schedule -> bool {
    (s: Schedule) => s.owner == user && now <= s.val.startDate <= now + TwoDays
  }

  /** The `find` of the upcoming query, in store order. */
  function Upcoming(schedules: seq<Schedule>, user: Id, now: Time): (r: seq<Schedule>)
    ensures forall s :: s in r <==> s in schedules && s.owner == user && now <= s.val.startDate <= now + TwoDays
    ensures |r| <= |schedules|
  {
    Filter(schedules, UpcomingFor(user, now))
  }

  /** The upcoming schedules are the user's schedules narrowed to the window, in the same store order. */
  lemma {:induction false} UpcomingIsOwnedSubsequence(schedules: seq<Schedule>, user: Id, now: Time)
    ensures Upcoming(schedules, user, now) == Filter(Owned(schedules, user), StartsSoon(now))
  {
    if schedules != [] {
      var init, last := schedules[..|schedules| - 1], schedules[|schedules| - 1];
      assert schedules == init + [last];
      UpcomingIsOwnedSubsequence(init, user, now);
      FilterSnoc(init, last, UpcomingFor(user, now));
      OwnedSnoc(init, last, user);
      assert UpcomingFor(user, now)(last) == (last.owner == user && StartsSoon(now)(last));
      if last.owner == user {
        FilterSnoc(Owned(init, user), last, StartsSoon(now));
      } else {
        assert Owned(schedules, user) == Owned(init, user);
      }
    }
  }

  /** GET /recurrence-transactions/upcoming at time `now`. */
  function CheckUpcoming(schedules: seq<Schedule>, caller: Option<Id>, now: Time): (reply: Reply<seq<Schedule>>)
    ensures caller.None? ==> reply == Error(500, "Error checking upcoming recurrence transactions")
    ensures caller.Some? ==> reply.Json? && reply.status == 200
    ensures caller.Some? ==> forall s :: s in reply.body <==>
      s in schedules && s.owner == caller.value && now <= s.val.startDate <= now + TwoDays
  {
    if caller.None? then Error(500, "Error checking upcoming recurrence transactions")
    else Json(200, Upcoming(schedules, caller.value, now))
  }
}
