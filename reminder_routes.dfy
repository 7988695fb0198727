/** The reminder endpoints: request validation, the comma-joined storage of day and
    channel lists, create, read, partial update and delete. */
module ReminderRoutes {
  import opened Wrappers
  import opened Clock
  import opened Strings
  import opened Seqs
  import opened Sorting
  import opened Models
  import ReminderEngine

  // ---------- Validators ----------

  /** The schedule kinds the API accepts. */
  predicate KnownKind(k: string) {
    k == "DAILY" || k == "WEEKLY" || k == "ONE_OFF"
  }

  /** `validate_schedule_kind`: accepted in any case, stored upper-cased. */
  function ValidateScheduleKind(v: string): (r: Result<string>)
    ensures r.Ok? <==> KnownKind(Upper(v))
    ensures r.Ok? ==> r.value == Upper(v)
  {
    var up := Upper(v);
    if KnownKind(up) then Ok(up)
    else Err(Invalid("schedule_kind must be one of {'DAILY', 'WEEKLY', 'ONE_OFF'}"))
  }

  /** The hour and minute of an `H:M` text: exactly two ':'-separated integers, the hour
      in 0..23 and the minute in 0..59. */
  function HourMinuteOf(v: string): (r: Option<(int, int)>)
    ensures r.Some? ==> 0 <= r.value.0 <= 23 && 0 <= r.value.1 <= 59
  {
    var parts := Split(v, ':');
    if |parts| != 2 then None
    else
      var h, m := ParseInt(parts[0]), ParseInt(parts[1]);
      if h.Some? && m.Some? && 0 <= h.value <= 23 && 0 <= m.value <= 59 then Some((h.value, m.value)) else None
  }

  /** `validate_time`: the text is kept as given when it reads as a time of day. */
  function ValidateTime(v: string): (r: Result<string>)
    ensures r.Ok? <==> HourMinuteOf(v).Some?
    ensures r.Ok? ==> r.value == v
  {
    if HourMinuteOf(v).Some? then Ok(v) else Err(Invalid("time_of_day must be in HH:MM format"))
  }

  /** A whole number of minutes is a whole number of seconds divisible by 60; kept
      apart so that the modular fact is proved without the parser in scope. */
  lemma WholeMinutes(minutes: int)
    ensures (minutes * 60) % 60 == 0
  {
  }

  /** `_parse_time_str`: unpacking, `int` and `time(hour, minute)` each raise ValueError. */
  function ParseTimeStr(t: string): (r: Result<TimeOfDay>)
    ensures r.Ok? <==> ValidateTime(t).Ok?
    ensures r.Ok? ==> r.value == (HourMinuteOf(t).value.0 * 60 + HourMinuteOf(t).value.1) * 60
    ensures r.Ok? ==> r.value % 60 == 0
  {
    var hm := HourMinuteOf(t);
    if hm.None? then Err(Raised("ValueError"))
    else
      var minutes := hm.value.0 * 60 + hm.value.1;
      WholeMinutes(minutes);
      Ok(minutes * 60)
  }

  /** Every listed weekday is in 0..6; an absent list passes. */
  predicate DaysInRange(v: Option<seq<int>>) {
    v.None? || forall k :: 0 <= k < |v.value| ==> 0 <= v.value[k] <= 6
  }

  /** `validate_days`: the entries are checked one by one, and the loop accepts exactly
      the lists `DaysInRange` describes. */
  method ValidateDays(v: Option<seq<int>>) returns (r: Result<Option<seq<int>>>)
    ensures r.Ok? <==> DaysInRange(v)
    ensures r.Ok? ==> r.value == v
  {
    if v.None? {
      return Ok(v);
    }
    var days := v.value;
    var i := 0;
    while i < |days|
      invariant 0 <= i <= |days|
      invariant forall k :: 0 <= k < i ==> 0 <= days[k] <= 6
    {
      if days[i] < 0 || days[i] > 6 {
        return Err(Invalid("days_of_week entries must be between 0 and 6"));
      }
      i := i + 1;
    }
    r := Ok(v);
  }

  // ---------- Time text ----------

  /** `time.strftime("%H:%M")`: the seconds are dropped. */
  function TimeText(t: TimeOfDay): (s: string)
    ensures |s| == 5 && s[2] == ':'
  {
    var minutes := t / 60;
    TwoDigits(minutes / 60) + ":" + TwoDigits(minutes % 60)
  }

  /** Two colon-free pieces that read as an hour and a minute, joined by ':'. */
  lemma HourMinuteOfParts(h: string, m: string, hh: int, mm: int)
    requires ':' !in h && ':' !in m && ParseInt(h) == Some(hh) && ParseInt(m) == Some(mm)
    requires 0 <= hh <= 23 && 0 <= mm <= 59
    ensures HourMinuteOf(h + ":" + m) == Some((hh, mm))
  {
    SplitTwo(h, ':', m);
  }

  /** `HH:MM` reads back as its hour and minute. */
  lemma HourMinuteOfText(hh: int, mm: int)
    requires 0 <= hh <= 23 && 0 <= mm <= 59
    ensures HourMinuteOf(TwoDigits(hh) + ":" + TwoDigits(mm)) == Some((hh, mm))
  {
    var h, m := TwoDigits(hh), TwoDigits(mm);
    TwoDigitsRoundTrip(hh);
    TwoDigitsRoundTrip(mm);
    assert ':' !in h && ':' !in m;
    HourMinuteOfParts(h, m, hh, mm);
  }

  /** A text that reads as an hour and a minute parses to that time of day. */
  lemma ParsedTime(v: string, hh: int, mm: int)
    requires HourMinuteOf(v) == Some((hh, mm))
    ensures ParseTimeStr(v) == Ok((hh * 60 + mm) * 60)
  {
    var r := ParseTimeStr(v);
    assert r.Ok?;
    var hm := HourMinuteOf(v).value;
    assert hm.0 == hh && hm.1 == mm;
    var minutes := hh * 60 + mm;
    assert r.value == minutes * 60;
  }

  lemma WholeMinutesSplit(t: int, hh: int, mm: int)
    requires 0 <= t && t % 60 == 0 && hh == t / 60 / 60 && mm == (t / 60) % 60
    ensures (hh * 60 + mm) * 60 == t
  {
  }

  /** A stored time of whole minutes prints as a text that parses back to it. */
  lemma TimeTextRoundTrip(t: TimeOfDay)
    requires t % 60 == 0
    ensures ParseTimeStr(TimeText(t)) == Ok(t)
  {
    var hh, mm := t / 60 / 60, (t / 60) % 60;
    HourMinuteOfText(hh, mm);
    ParsedTime(TimeText(t), hh, mm);
    WholeMinutesSplit(t, hh, mm);
  }

  // ---------- Comma-joined storage ----------

  function SortedDays(days: seq<int>): (r: seq<int>)
    ensures Increasing(r, IntLess) && forall x :: x in r <==> x in days
  {
    IntLessIsStrictTotal();
    SortDedup(days, IntLess)
  }

  function SortedNames(names: seq<string>): (r: seq<string>)
    ensures Increasing(r, StrLess) && forall x :: x in r <==> x in names
  {
    StrLessIsStrictTotal();
    SortDedup(names, StrLess)
  }

  /** `_days_to_str`: the distinct days in ascending order, comma-joined. */
  function DaysToStr(days: Option<seq<int>>): Option<string> {
    match days
    case None => None
    case Some(d) => Some(Join(",", ReminderEngine.IntTexts(SortedDays(d))))
  }

  /** `[int(part) for part in parts]`: every piece must be an integer. */
  function IntParts(parts: seq<string>): (r: Result<seq<int>>)
    ensures r.Ok? <==> forall k :: 0 <= k < |parts| ==> ParseInt(parts[k]).Some?
    ensures r.Ok? ==> |r.value| == |parts| && forall k :: 0 <= k < |parts| ==> ParseInt(parts[k]) == Some(r.value[k])
  {
    if IndexOf(parts, (part: string) => ParseInt(part).None?) >= 0 then Err(Raised("ValueError"))
    else Ok(seq(|parts|, k requires 0 <= k < |parts| => ParseInt(parts[k]).value))
  }

  /** `_str_to_days`: no list for a missing or empty text. */
  function StrToDays(s: Option<string>): (r: Result<Option<seq<int>>>)
    ensures s.None? || s == Some("") ==> r == Ok(None)
  {
    if s.None? || s.value == "" then Ok(None)
    else match IntParts(Split(s.value, ','))
      case Err(e) => Err(e)
      case Ok(ds) => Ok(Some(ds))
  }

  /** `_channels_to_str`: the distinct names in ascending order, comma-joined. */
  function ChannelsToStr(channels: Option<seq<string>>): Option<string> {
    match channels
    case None => None
    case Some(c) => Some(Join(",", SortedNames(c)))
  }

  /** `_str_to_channels`: no channels for a missing or empty text. */
  function StrToChannels(s: Option<string>): seq<string> {
    if s.None? || s.value == "" then [] else Split(s.value, ',')
  }

  lemma IntPartsOfTexts(ds: seq<int>)
    ensures IntParts(ReminderEngine.IntTexts(ds)) == Ok(ds)
  {
    var t := ReminderEngine.IntTexts(ds);
    forall k | 0 <= k < |ds|
      ensures ParseInt(t[k]) == Some(ds[k])
    {
      ParseIntToString(ds[k]);
    }
    var r := IntParts(t);
    assert r.Ok?;
    assert forall k :: 0 <= k < |ds| ==> r.value[k] == ds[k];
    assert r.value == ds;
  }

  /** Storing a non-empty day list and reading it back gives its distinct days in
      ascending order; an empty list is stored as "" and reads back as no list. */
  lemma DaysRoundTrip(days: seq<int>)
    ensures |days| > 0 ==> StrToDays(DaysToStr(Some(days))) == Ok(Some(SortedDays(days)))
    ensures |days| == 0 ==> DaysToStr(Some(days)) == Some("") && StrToDays(DaysToStr(Some(days))) == Ok(None)
  {
    var sorted := SortedDays(days);
    var t := ReminderEngine.IntTexts(sorted);
    if |days| > 0 {
      assert days[0] in sorted;
      forall k | 0 <= k < |t|
        ensures ',' !in t[k]
      {
        ReminderEngine.IntTextIsPiece(sorted[k]);
      }
      SplitJoin(t, ',');
      JoinNonEmpty(",", t);
      IntPartsOfTexts(sorted);
    } else {
      assert sorted == [];
    }
  }

  /** A channel name that survives storage: non-empty and free of commas. */
  predicate ChannelName(name: string) {
    name != "" && ',' !in name
  }

  /** Storing channel names and reading them back gives the distinct names in ascending
      order; no channels read back as the empty list. */
  lemma ChannelsRoundTrip(channels: seq<string>)
    requires forall k :: 0 <= k < |channels| ==> ChannelName(channels[k])
    ensures StrToChannels(ChannelsToStr(Some(channels))) == SortedNames(channels)
  {
    var sorted := SortedNames(channels);
    if |channels| > 0 {
      assert channels[0] in sorted;
      forall k | 0 <= k < |sorted|
        ensures ',' !in sorted[k]
      {
        assert sorted[k] in channels;
      }
      assert sorted[0] in channels;
      SplitJoin(sorted, ',');
      JoinNonEmpty(",", sorted);
    } else {
      assert sorted == [];
    }
  }

  lemma NoChannels()
    ensures ChannelsToStr(None) == None && StrToChannels(None) == [] && StrToChannels(Some("")) == []
  {
  }

  // ---------- Requests and responses ----------

  /** The body of a create request, with the defaults of the schema already applied to
      omitted fields: grace of 0 minutes before and 60 after, and `enabled`. */
  datatype ReminderCreate = ReminderCreate(
    name: string, description: Option<string>, scheduleKind: string, timeOfDay: string,
    daysOfWeek: Option<seq<int>>, oneOffAt: Option<Timestamp>, graceBeforeMin: int, graceAfterMin: int,
    channels: Option<seq<string>>, enabled: bool)

  /** The three field validators; a passing request has its kind upper-cased. */
  function Validate(p: ReminderCreate): (r: Result<ReminderCreate>)
    ensures r.Ok? <==> ValidateScheduleKind(p.scheduleKind).Ok? && ValidateTime(p.timeOfDay).Ok? && DaysInRange(p.daysOfWeek)
    ensures r.Ok? ==> r.value == p.(scheduleKind := Upper(p.scheduleKind))
  {
    var kind := ValidateScheduleKind(p.scheduleKind);
    if kind.Err? then Err(kind.error)
    else if ValidateTime(p.timeOfDay).Err? then Err(ValidateTime(p.timeOfDay).error)
    else if !DaysInRange(p.daysOfWeek) then Err(Invalid("days_of_week entries must be between 0 and 6"))
    else Ok(p.(scheduleKind := kind.value))
  }

  /** A reminder as the API returns it. */
  datatype ReminderOut = ReminderOut(
    id: int, name: string, description: Option<string>, scheduleKind: string, timeOfDay: string,
    daysOfWeek: Option<seq<int>>, oneOffAt: Option<Timestamp>, graceBeforeMin: int, graceAfterMin: int,
    channels: Option<seq<string>>, enabled: bool, createdAt: Timestamp, updatedAt: Timestamp)

  /** Building the response from a row: reading the day list back may raise ValueError,
      and the response schema runs the same validators as a request and needs both grace
      values. */
  function OutOf(r: Reminder): (res: Result<ReminderOut>)
    ensures res.Ok? ==> res.value.id == r.id && res.value.scheduleKind == Upper(r.scheduleKind)
                        && res.value.timeOfDay == TimeText(r.timeOfDay)
  {
    match StrToDays(r.daysOfWeek)
    case Err(e) => Err(e)
    case Ok(days) =>
      if ValidateScheduleKind(r.scheduleKind).Err? || !DaysInRange(days)
         || r.graceBeforeMin.None? || r.graceAfterMin.None? then Err(Raised("ValidationError"))
      else Ok(ReminderOut(r.id, r.name, r.description, Upper(r.scheduleKind), TimeText(r.timeOfDay), days,
                          r.oneOffAt, r.graceBeforeMin.value, r.graceAfterMin.value,
                          Some(StrToChannels(r.channels)), r.enabled, r.createdAt, r.updatedAt))
  }

  /** The row a validated create request inserts. A missing channel list is left out of
      the insert, so the column default applies. */
  function NewReminder(id: int, p: ReminderCreate, now: Timestamp): Reminder
    requires ValidateTime(p.timeOfDay).Ok?
  {
    Reminder(id, p.name, p.description, p.scheduleKind, ParseTimeStr(p.timeOfDay).value,
             DaysToStr(p.daysOfWeek), p.oneOffAt, Some(p.graceBeforeMin), Some(p.graceAfterMin),
             if p.channels.None? then Some(DefaultChannels) else ChannelsToStr(p.channels),
             p.enabled, now, now)
  }

  /** A validated day list reads back sorted and deduplicated, and still in range. */
  lemma DaysReadBack(days: Option<seq<int>>)
    requires DaysInRange(days)
    ensures var back := if days.None? || days.value == [] then None else Some(SortedDays(days.value));
      StrToDays(DaysToStr(days)) == Ok(back) && DaysInRange(back)
  {
    if days.Some? {
      DaysRoundTrip(days.value);
      var sorted := SortedDays(days.value);
      forall k | 0 <= k < |sorted|
        ensures 0 <= sorted[k] <= 6
      {
        assert sorted[k] in days.value;
      }
    }
  }

  /** The column default reads back as its two channels. */
  lemma DefaultChannelsReadBack()
    ensures StrToChannels(Some(DefaultChannels)) == ["telegram", "esp32"]
  {
    SplitTwo("telegram", ',', "esp32");
    assert DefaultChannels == "telegram" + [','] + "esp32";
  }

  /** A row whose days read back in range, whose kind is known and whose grace values
      are set reads back field by field. */
  lemma ReadableRow(r: Reminder, days: Option<seq<int>>)
    requires StrToDays(r.daysOfWeek) == Ok(days) && DaysInRange(days)
    requires ValidateScheduleKind(r.scheduleKind).Ok? && r.graceBeforeMin.Some? && r.graceAfterMin.Some?
    ensures OutOf(r) == Ok(ReminderOut(r.id, r.name, r.description, Upper(r.scheduleKind), TimeText(r.timeOfDay),
                                       days, r.oneOffAt, r.graceBeforeMin.value, r.graceAfterMin.value,
                                       Some(StrToChannels(r.channels)), r.enabled, r.createdAt, r.updatedAt))
  {
  }

  /** What a created reminder reads back as: the request with its kind upper-cased, its
      time normalised to `HH:MM`, its days and channels sorted and deduplicated. */
  lemma CreatedReadsBack(id: int, p: ReminderCreate, now: Timestamp)
    requires Validate(p).Ok?
    ensures var out := OutOf(NewReminder(id, Validate(p).value, now));
      && out.Ok?
      && out.value.id == id && out.value.name == p.name && out.value.description == p.description
      && out.value.scheduleKind == Upper(p.scheduleKind)
      && ParseTimeStr(out.value.timeOfDay) == ParseTimeStr(p.timeOfDay)
      && out.value.daysOfWeek == (if p.daysOfWeek.None? || p.daysOfWeek.value == [] then None
                                  else Some(SortedDays(p.daysOfWeek.value)))
      && (p.channels.None? ==> out.value.channels == Some(["telegram", "esp32"]))
      && (p.channels.Some? && (forall k :: 0 <= k < |p.channels.value| ==> ChannelName(p.channels.value[k])) ==>
            out.value.channels == Some(SortedNames(p.channels.value)))
      && out.value.oneOffAt == p.oneOffAt && out.value.enabled == p.enabled
      && out.value.graceBeforeMin == p.graceBeforeMin && out.value.graceAfterMin == p.graceAfterMin
      && out.value.createdAt == now && out.value.updatedAt == now
  {
    var row := NewReminder(id, Validate(p).value, now);
    var days := if p.daysOfWeek.None? || p.daysOfWeek.value == [] then None else Some(SortedDays(p.daysOfWeek.value));
    var t := ValidatedRow(id, p, now);
    TimeTextRoundTrip(t);
    DaysReadBack(p.daysOfWeek);
    ReadableRow(row, days);
    if p.channels.None? {
      DefaultChannelsReadBack();
    } else if forall k :: 0 <= k < |p.channels.value| ==> ChannelName(p.channels.value[k]) {
      ChannelsRoundTrip(p.channels.value);
    }
  }

  /** The row a validated request inserts, field by field. */
  lemma ValidatedRow(id: int, p: ReminderCreate, now: Timestamp) returns (t: TimeOfDay)
    requires Validate(p).Ok?
    ensures var row := NewReminder(id, Validate(p).value, now);
      && ValidateScheduleKind(row.scheduleKind).Ok? && row.scheduleKind == Upper(p.scheduleKind)
      && DaysInRange(p.daysOfWeek) && row.daysOfWeek == DaysToStr(p.daysOfWeek)
      && t % 60 == 0 && row.timeOfDay == t && ParseTimeStr(p.timeOfDay) == Ok(t)
      && row.graceBeforeMin == Some(p.graceBeforeMin) && row.graceAfterMin == Some(p.graceAfterMin)
      && row.channels == (if p.channels.None? then Some(DefaultChannels) else ChannelsToStr(p.channels))
      && row.id == id && row.name == p.name && row.description == p.description && row.oneOffAt == p.oneOffAt
      && row.enabled == p.enabled && row.createdAt == now && row.updatedAt == now
  {
    UpperTwice(p.scheduleKind);
    assert ValidateScheduleKind(Upper(p.scheduleKind)).Ok?;
    t := ParseTimeStr(p.timeOfDay).value;
  }

  lemma CreatedIsReadable(id: int, p: ReminderCreate, now: Timestamp)
    requires Validate(p).Ok?
    ensures OutOf(NewReminder(id, Validate(p).value, now)).Ok?
  {
    CreatedReadsBack(id, p, now);
  }

  // ---------- Endpoints ----------

  lemma AppendKeepsKeys(rows: seq<Reminder>, row: Reminder)
    requires ReminderKeys(rows) && row.id == NextReminderId(rows)
    ensures ReminderKeys(rows + [row])
  {
  }

  function FindReminder(rows: seq<Reminder>, id: int): (k: int)
    ensures -1 <= k < |rows|
    ensures k >= 0 ==> rows[k].id == id
    ensures k < 0 ==> forall i :: 0 <= i < |rows| ==> rows[i].id != id
  {
    IndexOf(rows, (r: Reminder) => r.id == id)
  }

  /** `POST /reminders`: a request failing validation is rejected before anything is
      stored; otherwise the row is inserted and read back. */
  method CreateReminder(table: ReminderTable, p: ReminderCreate, now: Timestamp) returns (res: Result<ReminderOut>)
    requires table.Valid()
    modifies table
    ensures table.Valid()
    ensures Validate(p).Err? ==> res == Err(Validate(p).error) && table.rows == old(table.rows)
    ensures Validate(p).Ok? ==>
      var row := NewReminder(NextReminderId(old(table.rows)), Validate(p).value, now);
      table.rows == old(table.rows) + [row] && res.Ok? && res == OutOf(row)
  {
    var v := Validate(p);
    if v.Err? {
      return Err(v.error);
    }
    var row := NewReminder(NextReminderId(table.rows), v.value, now);
    CreatedIsReadable(row.id, p, now);
    res := OutOf(row);
    AppendKeepsKeys(table.rows, row);
    table.rows := table.rows + [row];
  }

  /** `GET /reminders/{id}`. */
  method GetReminder(table: ReminderTable, id: int) returns (res: Result<ReminderOut>)
    ensures FindReminder(table.rows, id) < 0 ==> res == Err(NotFound("Reminder not found"))
    ensures FindReminder(table.rows, id) >= 0 ==> res == OutOf(table.rows[FindReminder(table.rows, id)])
  {
    var k := FindReminder(table.rows, id);
    if k < 0 {
      return Err(NotFound("Reminder not found"));
    }
    res := OutOf(table.rows[k]);
  }

  /** `GET /reminders`: one response per row, in table order; the first row that cannot
      be read back fails the whole request. */
  method ListReminders(table: ReminderTable) returns (res: Result<seq<ReminderOut>>)
    ensures res.Ok? <==> forall k :: 0 <= k < |table.rows| ==> OutOf(table.rows[k]).Ok?
    ensures res.Ok? ==> |res.value| == |table.rows|
                        && forall k :: 0 <= k < |table.rows| ==> res.value[k] == OutOf(table.rows[k]).value
    ensures res.Err? ==> exists k :: 0 <= k < |table.rows| && OutOf(table.rows[k]) == Err(res.error)
                                     && forall j :: 0 <= j < k ==> OutOf(table.rows[j]).Ok?
  {
    res := ConvertAll(table.rows, OutOf);
  }

  /** A partial update: `None` leaves a field alone; for the nullable columns kept
      optional here `Some(None)` stores null. `enabled` is nullable too, but only a
      value can be given for it. */
  datatype ReminderPatch = ReminderPatch(
    name: Option<string>, description: Option<Option<string>>, scheduleKind: Option<string>,
    timeOfDay: Option<string>, daysOfWeek: Option<Option<seq<int>>>, oneOffAt: Option<Option<Timestamp>>,
    graceBeforeMin: Option<Option<int>>, graceAfterMin: Option<Option<int>>,
    channels: Option<Option<seq<string>>>, enabled: Option<bool>)

  function PatchField<T>(old_: T, given: Option<T>): T {
    if given.Some? then given.value else old_
  }

  /** The row after a patch, field by field in the order of the handler; a time text that
      does not parse raises before anything is committed. The update request is not
      validated: the kind is upper-cased but not checked, and the days are not range-checked. */
  function ApplyPatch(r: Reminder, p: ReminderPatch, now: Timestamp): (res: Result<Reminder>)
    ensures res.Err? <==> p.timeOfDay.Some? && ParseTimeStr(p.timeOfDay.value).Err?
  {
    var time := if p.timeOfDay.Some? then ParseTimeStr(p.timeOfDay.value) else Ok(r.timeOfDay);
    if time.Err? then Err(time.error)
    else Ok(r.(name := PatchField(r.name, p.name),
               description := PatchField(r.description, p.description),
               scheduleKind := if p.scheduleKind.Some? then Upper(p.scheduleKind.value) else r.scheduleKind,
               timeOfDay := time.value,
               daysOfWeek := if p.daysOfWeek.Some? then DaysToStr(p.daysOfWeek.value) else r.daysOfWeek,
               oneOffAt := PatchField(r.oneOffAt, p.oneOffAt),
               graceBeforeMin := PatchField(r.graceBeforeMin, p.graceBeforeMin),
               graceAfterMin := PatchField(r.graceAfterMin, p.graceAfterMin),
               channels := if p.channels.Some? then ChannelsToStr(p.channels.value) else r.channels,
               enabled := PatchField(r.enabled, p.enabled),
               updatedAt := now))
  }

  /** A field absent from the patch keeps its value; a present one takes the given value
      (the kind upper-cased, the lists in their stored form); `updated_at` always moves
      to `now`, and the key and creation time never change. */
  lemma PatchChangesOnlyGiven(r: Reminder, p: ReminderPatch, now: Timestamp)
    requires ApplyPatch(r, p, now).Ok?
    ensures var u := ApplyPatch(r, p, now).value;
      && u.id == r.id && u.createdAt == r.createdAt && u.updatedAt == now
      && (p.name.None? ==> u.name == r.name) && (p.name.Some? ==> u.name == p.name.value)
      && (p.description.None? ==> u.description == r.description)
      && (p.description.Some? ==> u.description == p.description.value)
      && (p.scheduleKind.None? ==> u.scheduleKind == r.scheduleKind)
      && (p.scheduleKind.Some? ==> u.scheduleKind == Upper(p.scheduleKind.value))
      && (p.timeOfDay.None? ==> u.timeOfDay == r.timeOfDay)
      && (p.timeOfDay.Some? ==> TimeText(u.timeOfDay) == TimeText(ParseTimeStr(p.timeOfDay.value).value))
      && (p.daysOfWeek.None? ==> u.daysOfWeek == r.daysOfWeek)
      && (p.daysOfWeek.Some? ==> u.daysOfWeek == DaysToStr(p.daysOfWeek.value))
      && (p.oneOffAt.None? ==> u.oneOffAt == r.oneOffAt) && (p.oneOffAt.Some? ==> u.oneOffAt == p.oneOffAt.value)
      && (p.graceBeforeMin.None? ==> u.graceBeforeMin == r.graceBeforeMin)
      && (p.graceBeforeMin.Some? ==> u.graceBeforeMin == p.graceBeforeMin.value)
      && (p.graceAfterMin.None? ==> u.graceAfterMin == r.graceAfterMin)
      && (p.graceAfterMin.Some? ==> u.graceAfterMin == p.graceAfterMin.value)
      && (p.channels.None? ==> u.channels == r.channels)
      && (p.channels.Some? ==> u.channels == ChannelsToStr(p.channels.value))
      && (p.enabled.None? ==> u.enabled == r.enabled) && (p.enabled.Some? ==> u.enabled == p.enabled.value)
  {
  }

  /** An empty patch only moves `updated_at`. */
  lemma EmptyPatch(r: Reminder, now: Timestamp)
    ensures ApplyPatch(r, ReminderPatch(None, None, None, None, None, None, None, None, None, None), now)
         == Ok(r.(updatedAt := now))
  {
  }

  /** `PATCH /reminders/{id}`: unknown ids and unparsable times change nothing; otherwise
      the patched row is committed and then read back, which may still fail. */
  method UpdateReminder(table: ReminderTable, id: int, p: ReminderPatch, now: Timestamp) returns (res: Result<ReminderOut>)
    requires table.Valid()
    modifies table
    ensures table.Valid()
    ensures var k := FindReminder(old(table.rows), id);
      && (k < 0 ==> res == Err(NotFound("Reminder not found")) && table.rows == old(table.rows))
      && (k >= 0 && ApplyPatch(old(table.rows)[k], p, now).Err? ==>
            res == Err(ApplyPatch(old(table.rows)[k], p, now).error) && table.rows == old(table.rows))
      && (k >= 0 && ApplyPatch(old(table.rows)[k], p, now).Ok? ==>
            var u := ApplyPatch(old(table.rows)[k], p, now).value;
            table.rows == old(table.rows)[k := u] && res == OutOf(u))
  {
    var k := FindReminder(table.rows, id);
    if k < 0 {
      return Err(NotFound("Reminder not found"));
    }
    var u := ApplyPatch(table.rows[k], p, now);
    if u.Err? {
      return Err(u.error);
    }
    table.rows := table.rows[k := u.value];
    res := OutOf(u.value);
  }

  /** The occurrences once their reminder `id` is gone: the ORM nulls their reference. */
  function Orphaned(rows: seq<Occurrence>, id: int): (r: seq<Occurrence>)
    ensures |r| == |rows|
  {
    seq(|rows|, i requires 0 <= i < |rows| => if rows[i].reminderId == Some(id) then rows[i].(reminderId := None) else rows[i])
  }

  /** Deleting a reminder leaves no occurrence pointing at it and touches nothing else. */
  lemma OrphanedExactly(rows: seq<Occurrence>, id: int)
    ensures forall i :: 0 <= i < |rows| ==> Orphaned(rows, id)[i].reminderId != Some(id)
    ensures forall i :: 0 <= i < |rows| && rows[i].reminderId != Some(id) ==> Orphaned(rows, id)[i] == rows[i]
    ensures forall i :: 0 <= i < |rows| ==> Orphaned(rows, id)[i] == rows[i].(reminderId := Orphaned(rows, id)[i].reminderId)
  {
  }

  /** `DELETE /reminders/{id}`: the row goes, and its occurrences stay behind as orphans. */
  method DeleteReminder(table: ReminderTable, occs: OccurrenceTable, id: int) returns (res: Result<()>)
    requires table.Valid() && occs.Valid()
    modifies table, occs
    ensures table.Valid() && occs.Valid()
    ensures var k := FindReminder(old(table.rows), id);
      && (k < 0 ==> res == Err(NotFound("Reminder not found")) && table.rows == old(table.rows) && occs.rows == old(occs.rows))
      && (k >= 0 ==> res == Ok(()) && table.rows == RemoveAt(old(table.rows), k)
                     && occs.rows == Orphaned(old(occs.rows), id))
  {
    var k := FindReminder(table.rows, id);
    if k < 0 {
      return Err(NotFound("Reminder not found"));
    }
    RemoveKeepsPairs(table.rows, k, (a: Reminder, b: Reminder) => a.id < b.id);
    table.rows := RemoveAt(table.rows, k);
    occs.rows := Orphaned(occs.rows, id);
    res := Ok(());
  }
}
