/** Schedule evaluation, occurrence materialisation, and the expire and notify steps
    of one scheduler cycle. */
module ReminderEngine {
  import opened Wrappers
  import opened Clock
  import opened Strings
  import opened Seqs
  import opened Models
  import opened Notifications

  // ---------- Schedule evaluation ----------

  predicate NonBlank(piece: string) {
    Strip(piece) != ""
  }

  /** `[int(x) for x in parts if x.strip() != ""]`: blank pieces are dropped and a
      piece that is not an integer raises ValueError. */
  function DayParts(parts: seq<string>): Result<seq<int>> {
    var kept := Filter(parts, NonBlank);
    if IndexOf(kept, (piece: string) => ParseInt(piece).None?) >= 0 then Err(Raised("ValueError"))
    else Ok(seq(|kept|, k requires 0 <= k < |kept| => ParseInt(kept[k]).value))
  }

  /** The pieces are read unless some non-blank piece is not an integer. */
  lemma DayPartsFails(parts: seq<string>)
    ensures DayParts(parts).Ok? <==> forall k :: 0 <= k < |parts| ==> Strip(parts[k]) == "" || ParseInt(parts[k]).Some?
  {
    var kept := Filter(parts, NonBlank);
    var bad := IndexOf(kept, (piece: string) => ParseInt(piece).None?);
    if bad >= 0 {
      assert kept[bad] in kept;
    } else {
      assert forall k :: 0 <= k < |parts| && NonBlank(parts[k]) ==> parts[k] in kept;
    }
  }

  /** The days read are the values of the non-blank pieces, in order. */
  lemma DayPartsValues(parts: seq<string>)
    ensures DayParts(parts).Ok? ==> var kept := Filter(parts, NonBlank);
      |DayParts(parts).value| == |kept| && forall k :: 0 <= k < |kept| ==> Some(DayParts(parts).value[k]) == ParseInt(kept[k])
  {
  }

  /** `_parse_days_of_week`: no days for a missing or empty text. */
  function ParseDaysOfWeek(days: Option<string>): (r: Result<seq<int>>)
    ensures days.None? || days == Some("") ==> r == Ok([])
  {
    if days.None? || days.value == "" then Ok([]) else DayParts(Split(days.value, ','))
  }

  /** `(reminder.schedule_kind or "").upper()`. */
  function KindOf(r: Reminder): string {
    Upper(r.scheduleKind)
  }

  /** `reminder_should_fire_on`; an error where parsing the weekly day list raises. */
  function ShouldFireOn(r: Reminder, d: Day): (res: Result<bool>)
    ensures !r.enabled ==> res == Ok(false)
    ensures res.Err? ==> r.enabled && KindOf(r) == "WEEKLY" && ParseDaysOfWeek(r.daysOfWeek).Err?
  {
    if !r.enabled then Ok(false)
    else
      var kind := KindOf(r);
      if kind == "DAILY" then Ok(true)
      else if kind == "WEEKLY" then
        match ParseDaysOfWeek(r.daysOfWeek)
        case Err(e) => Err(e)
        case Ok(days) => Ok(Weekday(d) in days)
      else if kind == "ONE_OFF" then
        Ok(r.oneOffAt.Some? && DateOf(r.oneOffAt.value) == d)
      else Ok(false)
  }

  predicate Fires(r: Reminder, d: Day) {
    ShouldFireOn(r, d) == Ok(true)
  }

  /** The meaning of each schedule kind for an enabled reminder. */
  lemma FiresByKind(r: Reminder, d: Day)
    requires r.enabled
    ensures KindOf(r) == "DAILY" ==> Fires(r, d)
    ensures KindOf(r) == "WEEKLY" && ParseDaysOfWeek(r.daysOfWeek).Ok? ==>
      (Fires(r, d) <==> Weekday(d) in ParseDaysOfWeek(r.daysOfWeek).value)
    ensures KindOf(r) == "ONE_OFF" ==> (Fires(r, d) <==> r.oneOffAt.Some? && DateOf(r.oneOffAt.value) == d)
    ensures KindOf(r) !in {"DAILY", "WEEKLY", "ONE_OFF"} ==> ShouldFireOn(r, d) == Ok(false)
  {
  }

  lemma WeekdayPeriodic(d: Day)
    ensures Weekday(d + 7) == Weekday(d)
  {
  }

  /** A recurring schedule repeats every seven days. */
  lemma RecurringIsWeekly(r: Reminder, d: Day)
    requires KindOf(r) != "ONE_OFF"
    ensures ShouldFireOn(r, d + 7) == ShouldFireOn(r, d)
  {
    WeekdayPeriodic(d);
  }

  /** A one-off reminder fires on at most one date. */
  lemma OneOffFiresOnce(r: Reminder, d1: Day, d2: Day)
    requires KindOf(r) == "ONE_OFF" && Fires(r, d1) && Fires(r, d2)
    ensures d1 == d2
  {
  }

  /** The decimal texts of a list of integers. */
  function IntTexts(ds: seq<int>): (r: seq<string>)
    ensures |r| == |ds| && forall k :: 0 <= k < |ds| ==> r[k] == IntToString(ds[k])
  {
    seq(|ds|, k requires 0 <= k < |ds| => IntToString(ds[k]))
  }

  /** The decimal text of an integer is one non-blank, comma-free piece that reads back as it. */
  lemma IntTextIsPiece(i: int)
    ensures Strip(IntToString(i)) != "" && ParseInt(IntToString(i)) == Some(i) && ',' !in IntToString(i)
  {
    var s := IntToString(i);
    ParseIntToString(i);
    assert !IsSpace(s[0]) && !IsSpace(s[|s| - 1]);
    StripUnchanged(s);
  }

  /** Reading back the decimal texts of a list of integers gives the list. */
  lemma DayPartsOfTexts(ds: seq<int>)
    ensures DayParts(IntTexts(ds)) == Ok(ds)
  {
    var t := IntTexts(ds);
    forall k | 0 <= k < |t|
      ensures NonBlank(t[k]) && ParseInt(t[k]) == Some(ds[k])
    {
      IntTextIsPiece(ds[k]);
    }
    FilterAll(t, NonBlank);
    DayPartsFails(t);
    DayPartsValues(t);
    assert DayParts(t).value == ds;
  }

  /** Reading back a comma-joined list of integers gives the list. */
  lemma ParseJoinedDays(ds: seq<int>)
    requires |ds| > 0
    ensures ParseDaysOfWeek(Some(Join(",", IntTexts(ds)))) == Ok(ds)
  {
    var t := IntTexts(ds);
    forall k | 0 <= k < |t|
      ensures ',' !in t[k]
    {
      IntTextIsPiece(ds[k]);
    }
    SplitJoin(t, ',');
    JoinNonEmpty(",", t);
    DayPartsOfTexts(ds);
  }

  // ---------- Occurrence materialisation ----------

  /** `grace or 0`. */
  function GraceMinutes(g: Option<int>): int {
    match g
    case None => 0
    case Some(m) => m
  }

  /** The due instant of the occurrence created for `r` on day `d`. */
  function DueAt(r: Reminder, d: Day): Timestamp {
    if KindOf(r) == "ONE_OFF" && r.oneOffAt.Some? then r.oneOffAt.value else Combine(d, r.timeOfDay)
  }

  function NewOccurrence(id: int, r: Reminder, d: Day, now: Timestamp): Occurrence {
    var due := DueAt(r, d);
    Occurrence(id, Some(r.id), due,
               due - Minutes(GraceMinutes(r.graceBeforeMin)),
               due + Minutes(GraceMinutes(r.graceAfterMin)),
               Pending, None, None, None, None, now, now)
  }

  /** A created occurrence is PENDING, due on the day it was created for, with its window
      spread by the grace minutes around the due instant (no clamping). */
  lemma NewOccurrenceOnDay(id: int, r: Reminder, d: Day, now: Timestamp)
    requires Fires(r, d)
    ensures var o := NewOccurrence(id, r, d, now);
      && WithinDay(o.dueAt, d)
      && o.state == Pending && o.reminderId == Some(r.id)
      && o.windowStartAt == o.dueAt - 60 * GraceMinutes(r.graceBeforeMin)
      && o.windowEndAt == o.dueAt + 60 * GraceMinutes(r.graceAfterMin)
      && (KindOf(r) == "ONE_OFF" ==> o.dueAt == r.oneOffAt.value)
      && (KindOf(r) != "ONE_OFF" ==> o.dueAt == Combine(d, r.timeOfDay))
  {
    var due := DueAt(r, d);
    if KindOf(r) == "ONE_OFF" {
      WithinDayIsDateOf(due, d);
    } else {
      CombineOnDay(d, r.timeOfDay);
      WithinDayIsDateOf(due, d);
    }
  }

  /** The existence check: some occurrence of reminder `id` already due within day `d`. */
  predicate HasOccurrenceOn(rows: seq<Occurrence>, id: int, d: Day) {
    exists i :: 0 <= i < |rows| && rows[i].reminderId == Some(id) && WithinDay(rows[i].dueAt, d)
  }

  /** What the loop does with one reminder. */
  function Step(r: Reminder, rows: seq<Occurrence>, d: Day, now: Timestamp): (res: Result<seq<Occurrence>>)
    requires OccurrenceKeys(rows)
    ensures res.Err? <==> ShouldFireOn(r, d).Err?
    ensures res.Ok? ==> OccurrenceKeys(res.value)
  {
    match ShouldFireOn(r, d)
    case Err(e) => Err(e)
    case Ok(fire) =>
      if !fire || r.id == 0 || HasOccurrenceOn(rows, r.id, d) then Ok(rows)
      else Ok(rows + [NewOccurrence(NextOccurrenceId(rows), r, d, now)])
  }

  /** `ensure_occurrences_for_date` on the occurrence rows: the rows it leaves, or the
      error that stops it (and then nothing is committed). */
  function MaterializeAll(rems: seq<Reminder>, rows: seq<Occurrence>, d: Day, now: Timestamp): (res: Result<seq<Occurrence>>)
    requires OccurrenceKeys(rows)
    ensures res.Ok? ==> OccurrenceKeys(res.value) && |rows| <= |res.value| && res.value[..|rows|] == rows
    ensures res.Err? <==> exists j :: 0 <= j < |rems| && ShouldFireOn(rems[j], d).Err?
    decreases |rems|
  {
    if |rems| == 0 then Ok(rows)
    else
      assert forall j :: 0 < j < |rems| ==> rems[j] == rems[1..][j - 1];
      match Step(rems[0], rows, d, now)
      case Err(e) => Err(e)
      case Ok(next) =>
        var res := MaterializeAll(rems[1..], next, d, now);
        assert res.Ok? ==> res.value[..|rows|] == next[..|next|][..|rows|];
        res
  }

  /** `o` is the occurrence that some firing reminder of `rems` gets on day `d`. */
  predicate MadeFor(o: Occurrence, rems: seq<Reminder>, d: Day, now: Timestamp) {
    exists j :: 0 <= j < |rems| && Fires(rems[j], d) && rems[j].id != 0 && o == NewOccurrence(o.id, rems[j], d, now)
  }

  lemma MadeForTail(o: Occurrence, rems: seq<Reminder>, d: Day, now: Timestamp)
    requires |rems| > 0 && MadeFor(o, rems[1..], d, now)
    ensures MadeFor(o, rems, d, now)
  {
    var j :| 0 <= j < |rems[1..]| && Fires(rems[1..][j], d) && rems[1..][j].id != 0
             && o == NewOccurrence(o.id, rems[1..][j], d, now);
    assert rems[1..][j] == rems[j + 1];
  }

  /** Every created row is the occurrence of a firing reminder for that day. */
  lemma {:induction false} MaterializeCreatesOnlyFiring(rems: seq<Reminder>, rows: seq<Occurrence>, d: Day, now: Timestamp)
    requires OccurrenceKeys(rows) && MaterializeAll(rems, rows, d, now).Ok?
    ensures var out := MaterializeAll(rems, rows, d, now).value;
      forall k :: |rows| <= k < |out| ==> MadeFor(out[k], rems, d, now)
  {
    if |rems| > 0 {
      var next := Step(rems[0], rows, d, now).value;
      MaterializeCreatesOnlyFiring(rems[1..], next, d, now);
      var out := MaterializeAll(rems[1..], next, d, now).value;
      assert MaterializeAll(rems, rows, d, now).value == out;
      forall k | |rows| <= k < |out|
        ensures MadeFor(out[k], rems, d, now)
      {
        if k < |next| {
          assert next != rows && k == |rows|;
          assert out[k] == next[k] == NewOccurrence(out[k].id, rems[0], d, now);
          assert Fires(rems[0], d) && rems[0].id != 0;
        } else {
          MadeForTail(out[k], rems, d, now);
        }
      }
    }
  }

  /** Afterwards every firing reminder has an occurrence due within the day. */
  lemma {:induction false} MaterializeCovers(rems: seq<Reminder>, rows: seq<Occurrence>, d: Day, now: Timestamp)
    requires OccurrenceKeys(rows) && MaterializeAll(rems, rows, d, now).Ok?
    ensures var out := MaterializeAll(rems, rows, d, now).value;
      forall j :: 0 <= j < |rems| && Fires(rems[j], d) && rems[j].id != 0 ==> HasOccurrenceOn(out, rems[j].id, d)
  {
    if |rems| > 0 {
      var next := Step(rems[0], rows, d, now).value;
      MaterializeCovers(rems[1..], next, d, now);
      var out := MaterializeAll(rems, rows, d, now).value;
      assert out == MaterializeAll(rems[1..], next, d, now).value;
      assert out[..|next|] == next;
      forall j | 0 <= j < |rems| && Fires(rems[j], d) && rems[j].id != 0
        ensures HasOccurrenceOn(out, rems[j].id, d)
      {
        if j == 0 {
          if HasOccurrenceOn(rows, rems[0].id, d) {
            var i :| 0 <= i < |rows| && rows[i].reminderId == Some(rems[0].id) && WithinDay(rows[i].dueAt, d);
            assert next == rows && out[i] == rows[i];
          } else {
            NewOccurrenceOnDay(NextOccurrenceId(rows), rems[0], d, now);
            assert out[|rows|] == next[|rows|];
          }
        } else {
          assert rems[j] == rems[1..][j - 1];
        }
      }
    }
  }

  /** A call in which nothing needs creating leaves the rows as they are. */
  lemma {:induction false} MaterializeNothingToDo(rems: seq<Reminder>, rows: seq<Occurrence>, d: Day, now: Timestamp)
    requires OccurrenceKeys(rows)
    requires forall j :: 0 <= j < |rems| ==> ShouldFireOn(rems[j], d).Ok?
    requires forall j :: 0 <= j < |rems| && Fires(rems[j], d) && rems[j].id != 0 ==> HasOccurrenceOn(rows, rems[j].id, d)
    ensures MaterializeAll(rems, rows, d, now) == Ok(rows)
  {
    if |rems| > 0 {
      assert Step(rems[0], rows, d, now) == Ok(rows);
      assert forall j :: 0 <= j < |rems[1..]| ==> rems[1..][j] == rems[j + 1];
      MaterializeNothingToDo(rems[1..], rows, d, now);
    }
  }

  /** Running materialisation again for the same day creates nothing. */
  lemma MaterializeIdempotent(rems: seq<Reminder>, rows: seq<Occurrence>, d: Day, now: Timestamp, later: Timestamp)
    requires OccurrenceKeys(rows) && MaterializeAll(rems, rows, d, now).Ok?
    ensures var out := MaterializeAll(rems, rows, d, now).value;
      MaterializeAll(rems, out, d, later) == Ok(out)
  {
    var out := MaterializeAll(rems, rows, d, now).value;
    MaterializeCovers(rems, rows, d, now);
    MaterializeNothingToDo(rems, out, d, later);
  }

  /** No reminder has two occurrences due within day `d`. */
  predicate AtMostOnePerDay(rows: seq<Occurrence>, d: Day) {
    forall i, j :: 0 <= i < j < |rows| && rows[i].reminderId.Some? && rows[i].reminderId == rows[j].reminderId
      ==> !(WithinDay(rows[i].dueAt, d) && WithinDay(rows[j].dueAt, d))
  }

  /** Materialisation never gives a reminder a second occurrence on the day. */
  lemma {:induction false} MaterializeAtMostOne(rems: seq<Reminder>, rows: seq<Occurrence>, d: Day, now: Timestamp)
    requires OccurrenceKeys(rows) && AtMostOnePerDay(rows, d) && MaterializeAll(rems, rows, d, now).Ok?
    ensures AtMostOnePerDay(MaterializeAll(rems, rows, d, now).value, d)
  {
    if |rems| > 0 {
      var next := Step(rems[0], rows, d, now).value;
      if next != rows {
        var o := next[|rows|];
        forall i | 0 <= i < |rows| && rows[i].reminderId == o.reminderId
          ensures !WithinDay(rows[i].dueAt, d)
        {
          assert rows[i].reminderId == Some(rems[0].id);
        }
        assert AtMostOnePerDay(next, d);
      }
      MaterializeAtMostOne(rems[1..], next, d, now);
    }
  }

  /** `ensure_occurrences_for_date`: the loop over the reminder table; the rows are
      committed only when the loop finishes, and the count of created rows is returned. */
  method EnsureOccurrencesForDate(reminders: ReminderTable, occs: OccurrenceTable, d: Day, now: Timestamp)
    returns (res: Result<int>)
    requires occs.Valid()
    modifies occs
    ensures occs.Valid()
    ensures var m := MaterializeAll(reminders.rows, old(occs.rows), d, now);
      && (m.Err? ==> res == Err(m.error) && occs.rows == old(occs.rows))
      && (m.Ok? ==> occs.rows == m.value && res == Ok(|m.value| - |old(occs.rows)|))
  {
    var rems := reminders.rows;
    var rows := occs.rows;
    var created := 0;
    var i := 0;
    while i < |rems|
      invariant 0 <= i <= |rems|
      invariant OccurrenceKeys(rows) && forall k :: 0 <= k < |rows| ==> Settled(rows[k])
      invariant MaterializeAll(rems, occs.rows, d, now) == MaterializeAll(rems[i..], rows, d, now)
      invariant created == |rows| - |occs.rows|
    {
      var r := rems[i];
      assert rems[i..][0] == r && rems[i..][1..] == rems[i + 1..];
      var fire := ShouldFireOn(r, d);
      if fire.Err? {
        return Err(fire.error);
      }
      if fire.value && r.id != 0 && !HasOccurrenceOn(rows, r.id, d) {
        rows := rows + [NewOccurrence(NextOccurrenceId(rows), r, d, now)];
        created := created + 1;
      }
      i := i + 1;
    }
    occs.rows := rows;
    res := Ok(created);
  }

  // ---------- As written: the undefined `kind` ----------

  /** The loop step as written: choosing the due instant reads `kind`, a name that is
      not defined in this function, so NameError is raised exactly where a row would be created. */
  function StepAsWritten(r: Reminder, rows: seq<Occurrence>, d: Day): Result<seq<Occurrence>> {
    match ShouldFireOn(r, d)
    case Err(e) => Err(e)
    case Ok(fire) =>
      if !fire || r.id == 0 || HasOccurrenceOn(rows, r.id, d) then Ok(rows)
      else Err(Raised("NameError"))
  }

  function MaterializeAsWritten(rems: seq<Reminder>, rows: seq<Occurrence>, d: Day): Result<seq<Occurrence>>
    decreases |rems|
  {
    if |rems| == 0 then Ok(rows)
    else match StepAsWritten(rems[0], rows, d)
      case Err(e) => Err(e)
      case Ok(next) => MaterializeAsWritten(rems[1..], next, d)
  }

  /** As written, the function never creates anything: wherever the intended version
      creates an occurrence, it raises NameError instead and commits nothing. */
  lemma {:induction false} MaterializeAsWrittenRaises(rems: seq<Reminder>, rows: seq<Occurrence>, d: Day, now: Timestamp)
    requires OccurrenceKeys(rows) && MaterializeAll(rems, rows, d, now).Ok?
    ensures MaterializeAsWritten(rems, rows, d)
         == if MaterializeAll(rems, rows, d, now).value == rows then Ok(rows) else Err(Raised("NameError"))
  {
    if |rems| > 0 {
      var next := Step(rems[0], rows, d, now).value;
      if next == rows {
        assert StepAsWritten(rems[0], rows, d) == Ok(rows);
        MaterializeAsWrittenRaises(rems[1..], rows, d, now);
      } else {
        assert StepAsWritten(rems[0], rows, d) == Err(Raised("NameError"));
        assert MaterializeAll(rems, rows, d, now).value[..|next|] == next;
      }
    }
  }

  /** The seeded daily reminder on an empty table: the intended version creates its
      occurrence, the code as written raises. */
  lemma DailyReminderAsWritten(d: Day, now: Timestamp)
    ensures var r := Reminder(1, "Morning pills", None, "DAILY", 9 * 3600, None, None, Some(0), Some(60),
                              Some("telegram,esp32"), true, now, now);
      && MaterializeAll([r], [], d, now) == Ok([NewOccurrence(1, r, d, now)])
      && MaterializeAsWritten([r], [], d) == Err(Raised("NameError"))
  {
    var r := Reminder(1, "Morning pills", None, "DAILY", 9 * 3600, None, None, Some(0), Some(60),
                      Some("telegram,esp32"), true, now, now);
    assert Upper("DAILY") == "DAILY";
    assert Fires(r, d);
  }

  // ---------- The expire step ----------

  function Expire(o: Occurrence, now: Timestamp): Occurrence {
    if o.state == Pending && o.windowEndAt < now then o.(state := Missed, updatedAt := now) else o
  }

  function ExpireAll(rows: seq<Occurrence>, now: Timestamp): (r: seq<Occurrence>)
    ensures |r| == |rows|
  {
    seq(|rows|, i requires 0 <= i < |rows| => Expire(rows[i], now))
  }

  /** Exactly the PENDING rows whose window has ended become MISSED, stamped with `now`;
      every other row, and every other field, is unchanged. */
  lemma ExpireExactly(rows: seq<Occurrence>, now: Timestamp, i: int)
    requires 0 <= i < |rows|
    ensures var o, e := rows[i], ExpireAll(rows, now)[i];
      && (o.state == Pending && o.windowEndAt < now ==> e == o.(state := Missed, updatedAt := now))
      && (!(o.state == Pending && o.windowEndAt < now) ==> e == o)
  {
  }

  /** After the expire step no PENDING row is overdue, and the table keys are kept. */
  lemma ExpireLeavesNoOverdue(rows: seq<Occurrence>, now: Timestamp)
    requires OccurrenceKeys(rows) && forall k :: 0 <= k < |rows| ==> Settled(rows[k])
    ensures var out := ExpireAll(rows, now);
      && OccurrenceKeys(out) && (forall k :: 0 <= k < |out| ==> Settled(out[k]))
      && forall k :: 0 <= k < |out| && out[k].state == Pending ==> out[k].windowEndAt >= now
  {
  }

  /** The expire step, row by row in place. */
  method ExpireOverdue(occs: OccurrenceTable, now: Timestamp)
    requires occs.Valid()
    modifies occs
    ensures occs.Valid()
    ensures occs.rows == ExpireAll(old(occs.rows), now)
  {
    ghost var rows0 := occs.rows;
    var i := 0;
    while i < |occs.rows|
      invariant 0 <= i <= |occs.rows| == |rows0|
      invariant forall k :: 0 <= k < i ==> occs.rows[k] == Expire(rows0[k], now)
      invariant forall k :: i <= k < |occs.rows| ==> occs.rows[k] == rows0[k]
    {
      var o := occs.rows[i];
      if o.state == Pending && o.windowEndAt < now {
        occs.rows := occs.rows[i := o.(state := Missed, updatedAt := now)];
      }
      i := i + 1;
    }
    ExpireLeavesNoOverdue(rows0, now);
  }

  // ---------- The notify step ----------

  predicate DueForAlert(o: Occurrence, now: Timestamp) {
    o.state == Pending && o.dueAt <= now && o.alertedAt.None?
  }

  predicate ChatEnabled(c: TelegramChat) {
    c.enabled
  }

  /** `occ.reminder.label if occ.reminder else "Reminder"`. */
  function LabelFor(o: Occurrence, rems: seq<Reminder>): string {
    var k := IndexOf(rems, (r: Reminder) => o.reminderId == Some(r.id));
    if k < 0 then "Reminder" else rems[k].name
  }

  function AlertText(name: string, due: Timestamp): string {
    "\U{23F0} Reminder: " + name + " (" + HourMinute(due) + ")"
  }

  /** The notification emitted for one due occurrence and one chat. */
  function AlertPayload(o: Occurrence, name: string, chatId: int): (n: Notification)
    ensures ChannelOf(n) == Ok("telegram")
  {
    map["channel" := VStr("telegram"), "chat_id" := VInt(chatId), "text" := VStr(AlertText(name, o.dueAt)),
        "occurrence_id" := VInt(o.id), "label" := VStr(name), "due_at" := VStr(IsoFormat(o.dueAt))]
  }

  /** The notification for one chat. */
  function AlertFor(o: Occurrence, name: string): TelegramChat -> Notification {
    (c: TelegramChat) => AlertPayload(o, name, c.chatId)
  }

  /** One notification per chat, in chat order. */
  function ChatAlerts(o: Occurrence, name: string, chats: seq<TelegramChat>): (r: seq<Notification>)
    ensures |r| == |chats|
    ensures forall k :: 0 <= k < |chats| ==> r[k] == AlertPayload(o, name, chats[k].chatId)
  {
    MapSeq(chats, AlertFor(o, name))
  }

  lemma ChatAlertsOneMore(o: Occurrence, name: string, chats: seq<TelegramChat>, j: int)
    requires 0 <= j < |chats|
    ensures ChatAlerts(o, name, chats[..j + 1])
         == ChatAlerts(o, name, chats[..j]) + [AlertPayload(o, name, chats[j].chatId)]
  {
    MapSeqSnoc(chats, j, AlertFor(o, name));
  }

  /** The notifications the notify step emits, in order, for the given enabled chats. */
  function Alerts(rows: seq<Occurrence>, rems: seq<Reminder>, chats: seq<TelegramChat>, now: Timestamp): (r: seq<Notification>)
    ensures forall k :: 0 <= k < |r| ==> ChannelOf(r[k]) == Ok("telegram")
  {
    if |rows| == 0 then []
    else
      var o := rows[|rows| - 1];
      Alerts(rows[..|rows| - 1], rems, chats, now)
      + (if DueForAlert(o, now) then ChatAlerts(o, LabelFor(o, rems), chats) else [])
  }

  lemma AlertsOneMore(rows: seq<Occurrence>, i: int, rems: seq<Reminder>, chats: seq<TelegramChat>, now: Timestamp)
    requires 0 <= i < |rows|
    ensures Alerts(rows[..i + 1], rems, chats, now)
         == Alerts(rows[..i], rems, chats, now)
            + RowAlerts(rows[i], rems, chats, now)
  {
    assert rows[..i + 1][..i] == rows[..i];
  }

  function MarkAlerted(o: Occurrence, now: Timestamp): Occurrence {
    if DueForAlert(o, now) then o.(alertedAt := Some(now), updatedAt := now) else o
  }

  function MarkAllAlerted(rows: seq<Occurrence>, now: Timestamp): (r: seq<Occurrence>)
    ensures |r| == |rows|
  {
    seq(|rows|, i requires 0 <= i < |rows| => MarkAlerted(rows[i], now))
  }

  function CountDue(rows: seq<Occurrence>, now: Timestamp): nat {
    if |rows| == 0 then 0
    else CountDue(rows[..|rows| - 1], now) + (if DueForAlert(rows[|rows| - 1], now) then 1 else 0)
  }

  /** `n` added up once per due row. */
  function DueTimes(rows: seq<Occurrence>, now: Timestamp, n: nat): nat {
    if |rows| == 0 then 0
    else DueTimes(rows[..|rows| - 1], now, n) + (if DueForAlert(rows[|rows| - 1], now) then n else 0)
  }

  lemma {:induction false} DueTimesCount(rows: seq<Occurrence>, now: Timestamp, n: nat)
    ensures DueTimes(rows, now, n) == CountDue(rows, now) * n
  {
    if |rows| > 0 {
      var c := CountDue(rows[..|rows| - 1], now);
      DueTimesCount(rows[..|rows| - 1], now, n);
      assert (c + 1) * n == c * n + n;
    }
  }

  lemma {:induction false} AlertsLength(rows: seq<Occurrence>, rems: seq<Reminder>, chats: seq<TelegramChat>, now: Timestamp)
    ensures |Alerts(rows, rems, chats, now)| == DueTimes(rows, now, |chats|)
  {
    if |rows| > 0 {
      AlertsLength(rows[..|rows| - 1], rems, chats, now);
    }
  }

  /** One notification per (due occurrence, enabled chat) pair. */
  lemma AlertsCount(rows: seq<Occurrence>, rems: seq<Reminder>, chats: seq<TelegramChat>, now: Timestamp)
    ensures |Alerts(rows, rems, chats, now)| == CountDue(rows, now) * |chats|
  {
    AlertsLength(rows, rems, chats, now);
    DueTimesCount(rows, now, |chats|);
  }

  /** Once stamped, nothing is due for an alert at the same instant, so a second
      notify step emits nothing. */
  lemma {:induction false} SecondNotifyEmitsNothing(rows: seq<Occurrence>, rems: seq<Reminder>, chats: seq<TelegramChat>, now: Timestamp)
    ensures Alerts(MarkAllAlerted(rows, now), rems, chats, now) == []
  {
    if |rows| > 0 {
      var marked := MarkAllAlerted(rows, now);
      assert marked[..|rows| - 1] == MarkAllAlerted(rows[..|rows| - 1], now);
      SecondNotifyEmitsNothing(rows[..|rows| - 1], rems, chats, now);
    }
  }

  /** An occurrence alerted once is never alerted again, at any later instant. */
  lemma AlertedOnce(rows: seq<Occurrence>, now: Timestamp, later: Timestamp, i: int)
    requires 0 <= i < |rows| && DueForAlert(rows[i], now)
    ensures MarkAllAlerted(rows, now)[i].alertedAt == Some(now)
    ensures !DueForAlert(MarkAllAlerted(rows, now)[i], later)
  {
  }

  /** Run after the expire step, the notify step never alerts an occurrence whose window
      has already ended: such a row is MISSED by then. */
  lemma NoAlertAfterWindow(rows: seq<Occurrence>, now: Timestamp, i: int)
    requires 0 <= i < |rows|
    requires DueForAlert(ExpireAll(rows, now)[i], now)
    ensures rows[i].windowEndAt >= now && rows[i].dueAt <= now
  {
  }

  /** The inner loop of the notify step: one emission per enabled chat, in chat order. */
  method AlertChats(o: Occurrence, name: string, enabled: seq<TelegramChat>, outbox: Outbox, now: Timestamp)
    requires outbox.Valid()
    modifies outbox
    ensures outbox.Valid() && outbox.handler == old(outbox.handler)
    ensures outbox.events == EnqueueAll(old(outbox.events), ChatAlerts(o, name, enabled), now)
    ensures outbox.deliveries == old(outbox.deliveries) + HandledAll(old(outbox.handler), ChatAlerts(o, name, enabled))
  {
    ghost var events0, deliveries0, h := outbox.events, outbox.deliveries, outbox.handler;
    var j := 0;
    while j < |enabled|
      invariant 0 <= j <= |enabled|
      invariant outbox.Valid() && outbox.handler == h
      invariant outbox.events == EnqueueAll(events0, ChatAlerts(o, name, enabled[..j]), now)
      invariant outbox.deliveries == deliveries0 + HandledAll(h, ChatAlerts(o, name, enabled[..j]))
    {
      ghost var sent := ChatAlerts(o, name, enabled[..j]);
      var n := AlertPayload(o, name, enabled[j].chatId);
      ChatAlertsOneMore(o, name, enabled, j);
      EnqueueOneMore(events0, sent, n, now);
      DeliveriesGrow(deliveries0, h, sent, [n]);
      var emitted := outbox.Emit(n, now);
      j := j + 1;
    }
    assert enabled[..j] == enabled;
  }

  /** The notifications for one occurrence row. */
  function RowAlerts(o: Occurrence, rems: seq<Reminder>, chats: seq<TelegramChat>, now: Timestamp): seq<Notification> {
    if DueForAlert(o, now) then ChatAlerts(o, LabelFor(o, rems), chats) else []
  }

  /** Loop state of the notify step over the first `i` rows: the rows so far are stamped. */
  ghost predicate StampedUpTo(rows: seq<Occurrence>, rows0: seq<Occurrence>, i: int, now: Timestamp) {
    && 0 <= i <= |rows| == |rows0|
    && (forall k :: 0 <= k < i ==> rows[k] == MarkAlerted(rows0[k], now))
    && (forall k :: i <= k < |rows| ==> rows[k] == rows0[k])
  }

  /** Loop state of the notify step over the first `i` rows: their notifications are emitted. */
  ghost predicate EmittedUpTo(events: seq<NotificationEvent>, deliveries: seq<Delivery>,
                              events0: seq<NotificationEvent>, deliveries0: seq<Delivery>, h: Option<Handler>,
                              rows0: seq<Occurrence>, i: int, rems: seq<Reminder>, chats: seq<TelegramChat>, now: Timestamp)
    requires EventKeys(events0) && 0 <= i <= |rows0|
  {
    var ns := Alerts(rows0[..i], rems, chats, now);
    events == EnqueueAll(events0, ns, now) && deliveries == deliveries0 + HandledAll(h, ns)
  }

  lemma StampedGrows(rows: seq<Occurrence>, rows0: seq<Occurrence>, i: int, now: Timestamp)
    requires StampedUpTo(rows, rows0, i, now) && i < |rows|
    ensures rows[i] == rows0[i]
    ensures StampedUpTo(rows[i := MarkAlerted(rows[i], now)], rows0, i + 1, now)
  {
  }

  lemma EmittedGrows(events: seq<NotificationEvent>, deliveries: seq<Delivery>,
                     events0: seq<NotificationEvent>, deliveries0: seq<Delivery>, h: Option<Handler>,
                     rows0: seq<Occurrence>, i: int, rems: seq<Reminder>, chats: seq<TelegramChat>, now: Timestamp)
    requires EventKeys(events0) && 0 <= i < |rows0|
    requires EmittedUpTo(events, deliveries, events0, deliveries0, h, rows0, i, rems, chats, now)
    ensures EventKeys(events) && Routable(RowAlerts(rows0[i], rems, chats, now))
    ensures var more := RowAlerts(rows0[i], rems, chats, now);
      EmittedUpTo(EnqueueAll(events, more, now), deliveries + HandledAll(h, more),
                  events0, deliveries0, h, rows0, i + 1, rems, chats, now)
  {
    var before := Alerts(rows0[..i], rems, chats, now);
    var more := RowAlerts(rows0[i], rems, chats, now);
    AlertsOneMore(rows0, i, rems, chats, now);
    EnqueueAllAppend(events0, before, more, now);
    DeliveriesGrow(deliveries0, h, before, more);
  }

  lemma DeliveriesGrow(deliveries0: seq<Delivery>, h: Option<Handler>, before: seq<Notification>, more: seq<Notification>)
    ensures (deliveries0 + HandledAll(h, before)) + HandledAll(h, more) == deliveries0 + HandledAll(h, before + more)
  {
    HandledAllAppend(h, before, more);
  }

  /** Stamping a row keeps the keys and the settled rows. */
  lemma StampKeepsKeys(rows: seq<Occurrence>, i: int, now: Timestamp)
    requires OccurrenceKeys(rows) && (forall k :: 0 <= k < |rows| ==> Settled(rows[k])) && 0 <= i < |rows|
    ensures var r := rows[i := MarkAlerted(rows[i], now)];
      OccurrenceKeys(r) && forall k :: 0 <= k < |r| ==> Settled(r[k])
  {
  }

  /** The body of the notify loop for row `i`: the row's notifications are emitted and
      the row is stamped. */
  method NotifyRow(occs: OccurrenceTable, i: int, reminders: ReminderTable, enabled: seq<TelegramChat>, outbox: Outbox, now: Timestamp)
    requires occs.Valid() && outbox.Valid() && 0 <= i < |occs.rows|
    modifies occs, outbox
    ensures occs.Valid() && outbox.Valid() && outbox.handler == old(outbox.handler)
    ensures occs.rows == old(occs.rows)[i := MarkAlerted(old(occs.rows)[i], now)]
    ensures var more := RowAlerts(old(occs.rows)[i], reminders.rows, enabled, now);
      && outbox.events == EnqueueAll(old(outbox.events), more, now)
      && outbox.deliveries == old(outbox.deliveries) + HandledAll(old(outbox.handler), more)
  {
    var o := occs.rows[i];
    if DueForAlert(o, now) {
      var name := LabelFor(o, reminders.rows);
      AlertChats(o, name, enabled, outbox, now);
      StampKeepsKeys(occs.rows, i, now);
      occs.rows := occs.rows[i := o.(alertedAt := Some(now), updatedAt := now)];
    } else {
      assert outbox.deliveries == old(outbox.deliveries) + [];
    }
  }

  /** The notify step: for each PENDING, due, not yet alerted occurrence, one emission
      per enabled chat, then the occurrence is stamped with `alerted_at = now`. */
  method NotifyDue(occs: OccurrenceTable, reminders: ReminderTable, chats: ChatTable, outbox: Outbox, now: Timestamp)
    requires occs.Valid() && outbox.Valid()
    modifies occs, outbox
    ensures occs.Valid() && outbox.Valid() && outbox.handler == old(outbox.handler)
    ensures occs.rows == MarkAllAlerted(old(occs.rows), now)
    ensures var ns := Alerts(old(occs.rows), reminders.rows, Filter(chats.rows, ChatEnabled), now);
      && outbox.events == EnqueueAll(old(outbox.events), ns, now)
      && outbox.deliveries == old(outbox.deliveries) + HandledAll(old(outbox.handler), ns)
  {
    var enabled := Filter(chats.rows, ChatEnabled);
    ghost var rows0, events0, deliveries0 := occs.rows, outbox.events, outbox.deliveries;
    ghost var h := outbox.handler;
    assert rows0[..0] == [];
    var i := 0;
    while i < |occs.rows|
      invariant occs.Valid() && outbox.Valid() && outbox.handler == h
      invariant StampedUpTo(occs.rows, rows0, i, now)
      invariant EmittedUpTo(outbox.events, outbox.deliveries, events0, deliveries0, h, rows0, i, reminders.rows, enabled, now)
    {
      StampedGrows(occs.rows, rows0, i, now);
      EmittedGrows(outbox.events, outbox.deliveries, events0, deliveries0, h, rows0, i, reminders.rows, enabled, now);
      NotifyRow(occs, i, reminders, enabled, outbox, now);
      i := i + 1;
    }
    assert rows0[..i] == rows0;
  }

  // ---------- One scheduler cycle ----------

  datatype CycleOutcome = Completed(created: int) | Crashed(error: Error)

  /** One iteration of the scheduler loop with the evident intent of the code: materialise
      today's occurrences, expire overdue ones, alert due ones. An error while
      materialising ends the loop before the other two steps. */
  method SchedulerCycle(reminders: ReminderTable, occs: OccurrenceTable, chats: ChatTable, outbox: Outbox,
                        today: Day, now: Timestamp)
    returns (outcome: CycleOutcome)
    requires occs.Valid() && outbox.Valid()
    modifies occs, outbox
    ensures occs.Valid() && outbox.Valid()
    ensures var m := MaterializeAll(reminders.rows, old(occs.rows), today, now);
      && (m.Err? ==> outcome == Crashed(m.error) && occs.rows == old(occs.rows)
                     && outbox.events == old(outbox.events) && outbox.deliveries == old(outbox.deliveries))
      && (m.Ok? ==>
            var expired := ExpireAll(m.value, now);
            var ns := Alerts(expired, reminders.rows, Filter(chats.rows, ChatEnabled), now);
            && outcome == Completed(|m.value| - |old(occs.rows)|)
            && occs.rows == MarkAllAlerted(expired, now)
            && outbox.events == EnqueueAll(old(outbox.events), ns, now)
            && outbox.deliveries == old(outbox.deliveries) + HandledAll(old(outbox.handler), ns))
  {
    ghost var m := MaterializeAll(reminders.rows, occs.rows, today, now);
    var made := EnsureOccurrencesForDate(reminders, occs, today, now);
    if made.Err? {
      return Crashed(made.error);
    }
    assert m.Ok? && occs.rows == m.value;
    ExpireOverdue(occs, now);
    assert occs.rows == ExpireAll(m.value, now);
    NotifyDue(occs, reminders, chats, outbox, now);
    outcome := Completed(made.value);
  }

  // ---------- As written: the missing `alerted_at` attribute ----------

  /** One cycle as written, on the occurrence rows: materialisation as written, then the
      expire step (committed), then the notify query, which names `alerted_at` — an
      attribute the mapped class does not declare — and raises AttributeError. */
  function CycleAsWritten(rems: seq<Reminder>, rows: seq<Occurrence>, today: Day, now: Timestamp): (CycleOutcome, seq<Occurrence>) {
    match MaterializeAsWritten(rems, rows, today)
    case Err(e) => (Crashed(e), rows)
    case Ok(_) => (Crashed(Raised("AttributeError")), ExpireAll(rows, now))
  }

  /** As written, every cycle crashes, creates no occurrence and alerts none. A cycle in
      which materialisation raises (the NameError of a would-be insert) ends with that
      error; any other ends with the AttributeError of the notify query. */
  lemma {:induction false} CycleAsWrittenNeverAlerts(rems: seq<Reminder>, rows: seq<Occurrence>, today: Day, now: Timestamp)
    ensures CycleAsWritten(rems, rows, today, now).0.Crashed?
    ensures MaterializeAsWritten(rems, rows, today).Err? ==>
              CycleAsWritten(rems, rows, today, now).0 == Crashed(MaterializeAsWritten(rems, rows, today).error)
    ensures MaterializeAsWritten(rems, rows, today).Ok? ==>
              CycleAsWritten(rems, rows, today, now).0 == Crashed(Raised("AttributeError"))
    ensures var out := CycleAsWritten(rems, rows, today, now).1;
      |out| == |rows| && forall i :: 0 <= i < |rows| ==> out[i].alertedAt == rows[i].alertedAt && out[i].id == rows[i].id
  {
    MaterializeAsWrittenKeeps(rems, rows, today);
  }

  lemma {:induction false} MaterializeAsWrittenKeeps(rems: seq<Reminder>, rows: seq<Occurrence>, d: Day)
    ensures MaterializeAsWritten(rems, rows, d).Ok? ==> MaterializeAsWritten(rems, rows, d).value == rows
  {
    if |rems| > 0 {
      MaterializeAsWrittenKeeps(rems[1..], rows, d);
    }
  }
}
