/** The occurrence endpoints: listing one day's occurrences, marking one done or skipped,
    and deleting orphaned rows in development. */
module OccurrenceRoutes {
  import opened Wrappers
  import opened Clock
  import opened Strings
  import opened Seqs
  import opened Models
  import ReminderEngine

  // ---------- Listing ----------

  /** One listed occurrence; `labelText` is the `label` field. */
  datatype OccurrenceOut = OccurrenceOut(id: int, reminderId: Option<int>, labelText: string, dueAt: Timestamp, state: string)

  /** The day listed: the given date, or today when it is absent or empty. */
  function TargetDay(date: Option<Day>, today: Day): Day {
    date.GetOr(today)
  }

  /** `if state:` filters on the upper-cased text; an absent or empty text does not filter. */
  predicate StateMatches(o: Occurrence, state: Option<string>) {
    state.None? || state.value == "" || o.state.Name() == Upper(state.value)
  }

  /** `if reminder_id:` filters; an absent or zero id does not. */
  predicate ReminderMatches(o: Occurrence, reminderId: Option<int>) {
    reminderId.None? || reminderId.value == 0 || o.reminderId == Some(reminderId.value)
  }

  /** The rows the listing query returns: due on the day, matching both filters, and
      not orphaned. */
  predicate Listed(o: Occurrence, day: Day, state: Option<string>, reminderId: Option<int>) {
    WithinDay(o.dueAt, day) && StateMatches(o, state) && ReminderMatches(o, reminderId) && o.reminderId.Some?
  }

  function ListFilter(day: Day, state: Option<string>, reminderId: Option<int>): Occurrence -> bool {
    (o: Occurrence) => Listed(o, day, state, reminderId)
  }

  /** The owner's label, or "Unknown" when the referenced reminder no longer exists. */
  function OwnerLabel(o: Occurrence, rems: seq<Reminder>): string {
    var k := IndexOf(rems, (r: Reminder) => o.reminderId == Some(r.id));
    if k < 0 then "Unknown" else rems[k].name
  }

  function OutOf(o: Occurrence, rems: seq<Reminder>): OccurrenceOut {
    OccurrenceOut(o.id, o.reminderId, OwnerLabel(o, rems), o.dueAt, o.state.Name())
  }

  /** The response of the listing, as a function of the tables. */
  function Listing(rows: seq<Occurrence>, rems: seq<Reminder>, day: Day, state: Option<string>, reminderId: Option<int>): (r: seq<OccurrenceOut>) {
    var listed := Filter(rows, ListFilter(day, state, reminderId));
    seq(|listed|, k requires 0 <= k < |listed| => OutOf(listed[k], rems))
  }

  /** The listing holds exactly the day's owned rows that match the filters, in key order. */
  lemma ListingExact(rows: seq<Occurrence>, rems: seq<Reminder>, day: Day, state: Option<string>, reminderId: Option<int>)
    requires OccurrenceKeys(rows)
    ensures var r := Listing(rows, rems, day, state, reminderId);
      && (forall k :: 0 <= k < |r| ==>
            && r[k].reminderId.Some? && DateOf(r[k].dueAt) == day
            && (reminderId.Some? && reminderId.value != 0 ==> r[k].reminderId == reminderId)
            && (state.Some? && state.value != "" ==> r[k].state == Upper(state.value))
            && exists i :: 0 <= i < |rows| && r[k] == OutOf(rows[i], rems))
      && (forall i :: 0 <= i < |rows| && Listed(rows[i], day, state, reminderId) ==>
            exists k :: 0 <= k < |r| && r[k] == OutOf(rows[i], rems))
      && (forall k, l :: 0 <= k < l < |r| ==> r[k].id < r[l].id)
  {
    var p := ListFilter(day, state, reminderId);
    var listed := Filter(rows, p);
    var r := Listing(rows, rems, day, state, reminderId);
    var byId := (a: Occurrence, b: Occurrence) => a.id < b.id;
    FilterOrdered(rows, p, byId);
    assert forall k, l :: 0 <= k < l < |listed| ==> byId(listed[k], listed[l]);
    forall k | 0 <= k < |r|
      ensures && r[k].reminderId.Some? && DateOf(r[k].dueAt) == day
              && (reminderId.Some? && reminderId.value != 0 ==> r[k].reminderId == reminderId)
              && (state.Some? && state.value != "" ==> r[k].state == Upper(state.value))
              && exists i :: 0 <= i < |rows| && r[k] == OutOf(rows[i], rems)
    {
      assert listed[k] in listed;
      assert Listed(listed[k], day, state, reminderId);
      WithinDayIsDateOf(listed[k].dueAt, day);
      var i :| 0 <= i < |rows| && rows[i] == listed[k];
    }
    forall i | 0 <= i < |rows| && Listed(rows[i], day, state, reminderId)
      ensures exists k :: 0 <= k < |r| && r[k] == OutOf(rows[i], rems)
    {
      assert rows[i] in listed;
      var k :| 0 <= k < |listed| && listed[k] == rows[i];
      assert r[k] == OutOf(rows[i], rems);
    }
  }

  /** `GET /occurrences`: the query, then one response item per row. */
  method ListOccurrences(occs: OccurrenceTable, reminders: ReminderTable, date: Option<Day>, today: Day,
                         state: Option<string>, reminderId: Option<int>)
    returns (result: seq<OccurrenceOut>)
    ensures result == Listing(occs.rows, reminders.rows, TargetDay(date, today), state, reminderId)
  {
    var day := TargetDay(date, today);
    var occurrences := Filter(occs.rows, ListFilter(day, state, reminderId));
    var rems := reminders.rows;
    result := [];
    var i := 0;
    while i < |occurrences|
      invariant 0 <= i <= |occurrences|
      invariant result == seq(i, k requires 0 <= k < i => OutOf(occurrences[k], rems))
    {
      result := result + [OutOf(occurrences[i], rems)];
      i := i + 1;
    }
  }

  // ---------- Cleanup ----------

  predicate Owned(o: Occurrence) {
    o.reminderId.Some?
  }

  /** Environments in which the cleanup endpoint is enabled. */
  predicate CleanupAllowed(environment: string) {
    var e := Lower(environment);
    e == "dev" || e == "development" || e == "test"
  }

  /** `POST /occurrences/cleanup-orphans`: refused outside development (403), refused
      without confirmation (400); otherwise every orphan row is deleted and counted. */
  method CleanupOrphans(occs: OccurrenceTable, environment: string, confirm: bool) returns (res: Result<int>)
    requires occs.Valid()
    modifies occs
    ensures occs.Valid()
    ensures !CleanupAllowed(environment) ==> res.Err? && res.error.Forbidden? && occs.rows == old(occs.rows)
    ensures CleanupAllowed(environment) && !confirm ==> res.Err? && res.error.BadRequest? && occs.rows == old(occs.rows)
    ensures CleanupAllowed(environment) && confirm ==>
      && occs.rows == Filter(old(occs.rows), Owned)
      && (forall o :: o in occs.rows <==> o in old(occs.rows) && o.reminderId.Some?)
      && res == Ok(|old(occs.rows)| - |occs.rows|)
  {
    if !CleanupAllowed(environment) {
      return Err(Forbidden("Cleanup only allowed in dev/test environments"));
    }
    if !confirm {
      return Err(BadRequest("Set confirm=true to delete orphan occurrences"));
    }
    var before := occs.rows;
    var byId := (a: Occurrence, b: Occurrence) => a.id < b.id;
    FilterOrdered(before, Owned, byId);
    assert forall k, l :: 0 <= k < l < |Filter(before, Owned)| ==> byId(Filter(before, Owned)[k], Filter(before, Owned)[l]);
    occs.rows := Filter(before, Owned);
    forall i | 0 <= i < |occs.rows|
      ensures occs.rows[i].id >= 1 && Settled(occs.rows[i])
    {
      assert occs.rows[i] in before;
    }
    res := Ok(|before| - |occs.rows|);
  }

  // ---------- Done and skip ----------

  datatype StateChange = StateChange(id: int, state: string, doneAt: Option<Timestamp>, skippedAt: Option<Timestamp>)

  function ResponseOf(o: Occurrence): StateChange {
    StateChange(o.id, o.state.Name(), o.doneAt, o.skippedAt)
  }

  predicate Terminal(o: Occurrence) {
    o.state == Done || o.state == Skipped
  }

  /** The row after `/done`: DONE and SKIPPED rows are returned as they are. */
  function MarkDoneRow(o: Occurrence, now: Timestamp): Occurrence {
    if Terminal(o) then o
    else o.(state := Done, doneAt := Some(now), skippedAt := None, updatedAt := now)
  }

  /** The row after `/skip`: DONE and SKIPPED rows are returned as they are. */
  function MarkSkippedRow(o: Occurrence, now: Timestamp): Occurrence {
    if Terminal(o) then o
    else o.(state := Skipped, skippedAt := Some(now), doneAt := None, updatedAt := now)
  }

  /** Marking sets the state and exactly the matching timestamp, unless the row was
      already settled; a settled row never moves again, and no other field changes. */
  lemma MarkOutcome(o: Occurrence, now: Timestamp)
    ensures Terminal(o) ==> MarkDoneRow(o, now) == o && MarkSkippedRow(o, now) == o
    ensures !Terminal(o) ==>
      && MarkDoneRow(o, now).state == Done && MarkDoneRow(o, now).doneAt == Some(now) && MarkDoneRow(o, now).skippedAt.None?
      && MarkSkippedRow(o, now).state == Skipped && MarkSkippedRow(o, now).skippedAt == Some(now) && MarkSkippedRow(o, now).doneAt.None?
    ensures MarkDoneRow(o, now).(state := o.state, doneAt := o.doneAt, skippedAt := o.skippedAt, updatedAt := o.updatedAt) == o
    ensures MarkSkippedRow(o, now).(state := o.state, doneAt := o.doneAt, skippedAt := o.skippedAt, updatedAt := o.updatedAt) == o
    ensures !Terminal(o) ==> Settled(MarkDoneRow(o, now)) && Settled(MarkSkippedRow(o, now))
  {
  }

  datatype OccOp = DoneOp(at: Timestamp) | SkipOp(at: Timestamp) | ExpireOp(at: Timestamp)

  function ApplyOp(o: Occurrence, op: OccOp): Occurrence {
    match op
    case DoneOp(t) => MarkDoneRow(o, t)
    case SkipOp(t) => MarkSkippedRow(o, t)
    case ExpireOp(t) => ReminderEngine.Expire(o, t)
  }

  function ApplyOps(o: Occurrence, ops: seq<OccOp>): Occurrence
    decreases |ops|
  {
    if |ops| == 0 then o else ApplyOps(ApplyOp(o, ops[0]), ops[1..])
  }

  /** DONE and SKIPPED are final: no later mark or expiry changes such a row. */
  lemma {:induction false} TerminalIsFinal(o: Occurrence, ops: seq<OccOp>)
    requires Terminal(o)
    decreases |ops|
    ensures ApplyOps(o, ops) == o
  {
    if |ops| > 0 {
      assert ApplyOp(o, ops[0]) == o;
      TerminalIsFinal(o, ops[1..]);
    }
  }

  /** Marking twice answers like marking once. */
  lemma MarkIdempotent(o: Occurrence, t1: Timestamp, t2: Timestamp)
    ensures MarkDoneRow(MarkDoneRow(o, t1), t2) == MarkDoneRow(o, t1)
    ensures MarkSkippedRow(MarkDoneRow(o, t1), t2) == MarkDoneRow(o, t1)
    ensures MarkSkippedRow(MarkSkippedRow(o, t1), t2) == MarkSkippedRow(o, t1)
    ensures MarkDoneRow(MarkSkippedRow(o, t1), t2) == MarkSkippedRow(o, t1)
  {
  }

  /** `POST /occurrences/{id}/done` (`skip` is false) and `/skip` (`skip` is true). */
  method Mark(occs: OccurrenceTable, occurrenceId: int, skip: bool, now: Timestamp) returns (res: Result<StateChange>)
    requires occs.Valid()
    modifies occs
    ensures occs.Valid()
    ensures var k := IndexOf(old(occs.rows), (o: Occurrence) => o.id == occurrenceId);
      && (k < 0 ==> res == Err(NotFound("Occurrence not found")) && occs.rows == old(occs.rows))
      && (k >= 0 ==>
            var o := old(occs.rows)[k];
            && occs.rows == old(occs.rows)[k := if skip then MarkSkippedRow(o, now) else MarkDoneRow(o, now)]
            && res == Ok(ResponseOf(occs.rows[k])))
  {
    var k := IndexOf(occs.rows, (o: Occurrence) => o.id == occurrenceId);
    if k < 0 {
      return Err(NotFound("Occurrence not found"));
    }
    var o := occs.rows[k];
    if Terminal(o) {
      return Ok(ResponseOf(o));
    }
    var updated := if skip then MarkSkippedRow(o, now) else MarkDoneRow(o, now);
    occs.rows := occs.rows[k := updated];
    res := Ok(ResponseOf(updated));
  }
}
