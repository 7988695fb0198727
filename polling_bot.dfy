/** The Telegram polling bot: the text of its replies, the command routing, and the
    offset and skip rules of one batch of updates. Fetching from the backend and sending
    to Telegram are left out; the backend's answers are parameters. */
module PollingBot {
  import opened Wrappers
  import opened Strings
  import opened Seqs
  import opened ReminderRoutes

  // ---------- /today ----------

  /** The parts of the `/status/today` answer the message uses. */
  datatype WordOfDay = WordOfDay(word: string, definition: string)
  datatype NextDue = NextDue(name: string, dueAt: string)   // the `label` and `due_at` fields
  /** `next` is `None` for a null (or empty) `next` object. */
  datatype Summary = Summary(total: int, done: int, pending: int, missed: int, next: Option<NextDue>)
  datatype ServiceView = ServiceView(name: string, isUp: bool)
  datatype Mood = Mood(state: string, message: string)
  datatype TodayData = TodayData(word: WordOfDay, summary: Summary, services: seq<ServiceView>, expression: Mood)

  const ServicesHeader := "\U{1F5A5} *Services:*"
  const NoServicesLine := "\U{1F5A5} No services configured."
  const UpDot := "\U{1F7E2}"
  const DownDot := "\U{1F534}"

  function WordLine(w: WordOfDay): string {
    "\U{1F4DA} *Word of the day:* _" + w.word + "_"
  }

  function SummaryLine(s: Summary): string {
    "\U{23F0} Reminders: " + IntToString(s.done) + "/" + IntToString(s.total) + " done, "
    + IntToString(s.pending) + " pending, " + IntToString(s.missed) + " missed"
  }

  function NextLine(n: NextDue): string {
    "\U{27A1} Next: *" + n.name + "* at " + n.dueAt
  }

  function ServiceLine(s: ServiceView): string {
    "- " + (if s.isUp then UpDot else DownDot) + " " + s.name
  }

  function MoodLine(e: Mood): string {
    "\U{1F636} Minerva: *" + e.state + "* \U{2014} " + e.message
  }

  function ServiceLines(ss: seq<ServiceView>): (r: seq<string>)
    ensures |r| == |ss| && forall k :: 0 <= k < |ss| ==> r[k] == ServiceLine(ss[k])
  {
    seq(|ss|, k requires 0 <= k < |ss| => ServiceLine(ss[k]))
  }

  /** The lines before the services block. */
  function TodayHead(data: TodayData): seq<string> {
    [WordLine(data.word), data.word.definition, "", SummaryLine(data.summary)]
    + (if data.summary.next.Some? then [NextLine(data.summary.next.value)] else [])
    + [""]
  }

  /** The services block: a header and one line per service, or a single line. */
  function ServicesBlock(ss: seq<ServiceView>): seq<string> {
    if |ss| == 0 then [NoServicesLine] else [ServicesHeader] + ServiceLines(ss)
  }

  function TodayLines(data: TodayData): seq<string> {
    TodayHead(data) + ServicesBlock(data.services) + ["", MoodLine(data.expression)]
  }

  /** `format_today_message`: the lines are collected one by one and joined by newlines. */
  method FormatTodayMessage(data: TodayData) returns (msg: string)
    ensures msg == Join("\n", TodayLines(data))
  {
    var lines: seq<string> := [];
    lines := lines + [WordLine(data.word)];
    lines := lines + [data.word.definition];
    lines := lines + [""];
    lines := lines + [SummaryLine(data.summary)];
    if data.summary.next.Some? {
      lines := lines + [NextLine(data.summary.next.value)];
    }
    lines := lines + [""];
    assert lines == TodayHead(data);
    if |data.services| > 0 {
      lines := lines + [ServicesHeader];
      var i := 0;
      while i < |data.services|
        invariant 0 <= i <= |data.services|
        invariant lines == TodayHead(data) + [ServicesHeader] + ServiceLines(data.services[..i])
      {
        assert ServiceLines(data.services[..i + 1]) == ServiceLines(data.services[..i]) + [ServiceLine(data.services[i])];
        lines := lines + [ServiceLine(data.services[i])];
        i := i + 1;
      }
      assert data.services[..i] == data.services;
    } else {
      lines := lines + [NoServicesLine];
    }
    lines := lines + [""];
    lines := lines + [MoodLine(data.expression)];
    assert lines == TodayLines(data);
    msg := Join("\n", lines);
  }

  /** The shape of the message: the summary on line 3; line 4 is the "Next:" line exactly
      when a next reminder is given (and blank otherwise); then the services block, one
      green or red line per service in order or the single "No services configured." line;
      the mood line last. */
  lemma TodayShape(data: TodayData)
    ensures var lines := TodayLines(data);
      var h := if data.summary.next.Some? then 6 else 5;
      var n := |data.services|;
      && |lines| == h + (if n == 0 then 1 else n + 1) + 2
      && lines[0] == WordLine(data.word) && lines[3] == SummaryLine(data.summary)
      && (data.summary.next.Some? ==> lines[4] == NextLine(data.summary.next.value))
      && (data.summary.next.None? ==> lines[4] == "")
      && (lines[4] != "" <==> data.summary.next.Some?)
      && (n == 0 ==> lines[h] == NoServicesLine)
      && (n > 0 ==> lines[h] == ServicesHeader
                    && forall k :: 0 <= k < n ==> lines[h + 1 + k] == ServiceLine(data.services[k]))
      && lines[|lines| - 1] == MoodLine(data.expression)
  {
    var lines := TodayLines(data);
    var head := TodayHead(data);
    assert |head| == (if data.summary.next.Some? then 6 else 5);
    if data.summary.next.Some? {
      assert lines[4] == NextLine(data.summary.next.value);
      assert NextLine(data.summary.next.value)[0] == '\U{27A1}';
    }
    var block := ServicesBlock(data.services);
    forall k | 0 <= k < |block|
      ensures lines[|head| + k] == block[k]
    {
    }
  }

  /** A service line starts with the green dot exactly when the service is up. */
  lemma ServiceLineMark(s: ServiceView)
    ensures StartsWith(ServiceLine(s), "- " + UpDot) <==> s.isUp
    ensures StartsWith(ServiceLine(s), "- " + DownDot) <==> !s.isUp
  {
    var l := ServiceLine(s);
    assert l[..3] == "- " + (if s.isUp then UpDot else DownDot);
    assert ("- " + UpDot)[2] != ("- " + DownDot)[2];
  }

  // ---------- /reminders ----------

  const NoRemindersText := "No reminders configured yet."
  const RemindersHeader := "\U{1F4CB} *Your reminders:*"
  const DayNames := ["Mon", "Tue", "Wed", "Thu", "Fri", "Sat", "Sun"]
  const EnabledMark := "\U{2705}"
  const PausedMark := "\U{23F8}"

  /** `day_names[d]` with list indexing: 0..6 from the front, -7..-1 from the back, and
      anything else raises IndexError. */
  function DayName(d: int): (r: Result<string>)
    ensures r.Ok? <==> -7 <= d < 7
    ensures r.Err? ==> r.error == Raised("IndexError")
    ensures 0 <= d < 7 ==> r == Ok(DayNames[d])
  {
    if 0 <= d < 7 then Ok(DayNames[d])
    else if -7 <= d < 0 then Ok(DayNames[d + 7])
    else Err(Raised("IndexError"))
  }

  predicate BadDay(d: int) {
    DayName(d).Err?
  }

  /** `", ".join(day_names[d] for d in days)`. */
  function DayList(days: seq<int>): (r: Result<string>)
    ensures r.Err? ==> r.error == Raised("IndexError")
  {
    if IndexOf(days, BadDay) >= 0 then Err(Raised("IndexError"))
    else Ok(Join(", ", seq(|days|, k requires 0 <= k < |days| => DayName(days[k]).value)))
  }

  /** The schedule part of a reminder line. */
  function Schedule(r: ReminderOut): (res: Result<string>)
    ensures res.Err? ==> res.error == Raised("IndexError")
  {
    if r.scheduleKind == "DAILY" then Ok("daily at " + r.timeOfDay)
    else if r.scheduleKind == "WEEKLY" then
      var days := r.daysOfWeek.GetOr([]);
      if |days| == 0 then Ok("weekly on no days at " + r.timeOfDay)
      else
        match DayList(days)
        case Err(e) => Err(e)
        case Ok(dn) => Ok("weekly on " + dn + " at " + r.timeOfDay)
    else Ok(r.scheduleKind + " at " + r.timeOfDay)
  }

  function ReminderLine(r: ReminderOut): (res: Result<string>)
    ensures res.Err? ==> res.error == Raised("IndexError")
  {
    match Schedule(r)
    case Err(e) => Err(e)
    case Ok(sched) => Ok("- " + (if r.enabled then EnabledMark else PausedMark) + " *" + r.name + "* \U{2014} " + sched)
  }

  predicate LineFails(r: ReminderOut) {
    ReminderLine(r).Err?
  }

  /** The header and one line per reminder; the first reminder whose line raises stops it. */
  function RemindersLines(rs: seq<ReminderOut>): (res: Result<seq<string>>)
    ensures res.Err? ==> res.error == Raised("IndexError")
  {
    if IndexOf(rs, LineFails) >= 0 then Err(Raised("IndexError"))
    else Ok([RemindersHeader] + seq(|rs|, k requires 0 <= k < |rs| => ReminderLine(rs[k]).value))
  }

  function RemindersMessage(rs: seq<ReminderOut>): Result<string> {
    if |rs| == 0 then Ok(NoRemindersText)
    else
      match RemindersLines(rs)
      case Err(e) => Err(e)
      case Ok(lines) => Ok(Join("\n", lines))
  }

  /** `format_reminders_message`. */
  method FormatRemindersMessage(rs: seq<ReminderOut>) returns (res: Result<string>)
    ensures res == RemindersMessage(rs)
  {
    if |rs| == 0 {
      return Ok(NoRemindersText);
    }
    var lines := [RemindersHeader];
    var i := 0;
    while i < |rs|
      invariant 0 <= i <= |rs|
      invariant forall k :: 0 <= k < i ==> !LineFails(rs[k])
      invariant |lines| == i + 1 && lines[0] == RemindersHeader
      invariant forall k :: 0 <= k < i ==> lines[k + 1] == ReminderLine(rs[k]).value
    {
      var line := ReminderLine(rs[i]);
      if line.Err? {
        assert IndexOf(rs, LineFails) >= 0;
        return Err(line.error);
      }
      lines := lines + [line.value];
      i := i + 1;
    }
    assert lines == RemindersLines(rs).value;
    res := Ok(Join("\n", lines));
  }

  /** An empty list gives the fixed text; otherwise the message is the header and one
      line per reminder, each marked as enabled or paused, or IndexError when some
      reminder's line raises. */
  lemma RemindersShape(rs: seq<ReminderOut>)
    ensures |rs| == 0 ==> RemindersMessage(rs) == Ok(NoRemindersText)
    ensures RemindersLines(rs).Err? <==> exists k :: 0 <= k < |rs| && ReminderLine(rs[k]).Err?
    ensures RemindersLines(rs).Ok? ==>
      var lines := RemindersLines(rs).value;
      && |lines| == |rs| + 1 && lines[0] == RemindersHeader
      && forall k :: 0 <= k < |rs| ==>
           && (StartsWith(lines[k + 1], "- " + EnabledMark) <==> rs[k].enabled)
           && (StartsWith(lines[k + 1], "- " + PausedMark) <==> !rs[k].enabled)
  {
    if RemindersLines(rs).Ok? {
      var lines := RemindersLines(rs).value;
      forall k | 0 <= k < |rs|
        ensures StartsWith(lines[k + 1], "- " + EnabledMark) <==> rs[k].enabled
        ensures StartsWith(lines[k + 1], "- " + PausedMark) <==> !rs[k].enabled
      {
        assert !LineFails(rs[k]);
        assert lines[k + 1][..3] == "- " + (if rs[k].enabled then EnabledMark else PausedMark);
        assert ("- " + EnabledMark)[2] != ("- " + PausedMark)[2];
      }
    }
  }

  /** The schedule text by kind: "daily at T"; "weekly on" the joined day names, or
      "no days"; "KIND at T" for any other kind. Only a weekly reminder listing a day
      outside -7..6 raises. */
  lemma ScheduleByKind(r: ReminderOut)
    ensures r.scheduleKind == "DAILY" ==> Schedule(r) == Ok("daily at " + r.timeOfDay)
    ensures r.scheduleKind == "WEEKLY" && (r.daysOfWeek.None? || r.daysOfWeek == Some([])) ==>
      Schedule(r) == Ok("weekly on no days at " + r.timeOfDay)
    ensures r.scheduleKind == "WEEKLY" && r.daysOfWeek.Some? && |r.daysOfWeek.value| > 0
            && (forall k :: 0 <= k < |r.daysOfWeek.value| ==> 0 <= r.daysOfWeek.value[k] <= 6) ==>
      var days := r.daysOfWeek.value;
      Schedule(r) == Ok("weekly on " + Join(", ", seq(|days|, k requires 0 <= k < |days| => DayNames[days[k]]))
                        + " at " + r.timeOfDay)
    ensures r.scheduleKind != "DAILY" && r.scheduleKind != "WEEKLY" ==>
      Schedule(r) == Ok(r.scheduleKind + " at " + r.timeOfDay)
    ensures Schedule(r).Err? <==>
      r.scheduleKind == "WEEKLY" && r.daysOfWeek.Some?
      && exists k :: 0 <= k < |r.daysOfWeek.value| && !(-7 <= r.daysOfWeek.value[k] < 7)
  {
    if r.scheduleKind == "WEEKLY" && r.daysOfWeek.Some? && |r.daysOfWeek.value| > 0 {
      var days := r.daysOfWeek.value;
      if forall k :: 0 <= k < |days| ==> 0 <= days[k] <= 6 {
        assert seq(|days|, k requires 0 <= k < |days| => DayName(days[k]).value)
            == seq(|days|, k requires 0 <= k < |days| => DayNames[days[k]]);
      }
    }
  }

  /** Reminders as the API returns them never make the bot raise: the response schema
      already keeps every weekday in 0..6. */
  lemma ApiRemindersFormat(rs: seq<ReminderOut>)
    requires forall k :: 0 <= k < |rs| ==> DaysInRange(rs[k].daysOfWeek)
    ensures RemindersMessage(rs).Ok?
  {
    forall k | 0 <= k < |rs|
      ensures !LineFails(rs[k])
    {
      ScheduleByKind(rs[k]);
    }
  }

  // ---------- Command routing ----------

  datatype Command = Start | Today | Reminders | Unknown

  /** The prefix tests of `handle_command`, in their order. */
  function Dispatch(text: string): Command {
    if StartsWith(text, "/start") then Start
    else if StartsWith(text, "/today") then Today
    else if StartsWith(text, "/reminders") then Reminders
    else Unknown
  }

  /** The three prefixes exclude one another, so each command is chosen exactly when the
      text starts with its own prefix, whatever the order of the tests. */
  lemma DispatchByPrefix(text: string)
    ensures Dispatch(text) == Start <==> StartsWith(text, "/start")
    ensures Dispatch(text) == Today <==> StartsWith(text, "/today")
    ensures Dispatch(text) == Reminders <==> StartsWith(text, "/reminders")
    ensures Dispatch(text) == Unknown <==>
      !StartsWith(text, "/start") && !StartsWith(text, "/today") && !StartsWith(text, "/reminders")
  {
    assert StartsWith(text, "/start") ==> text[1] == 's';
    assert StartsWith(text, "/today") ==> text[1] == 't';
    assert StartsWith(text, "/reminders") ==> text[1] == 'r';
  }

  datatype Reply = Reply(text: string, parseMode: Option<string>)

  const StartText := "\U{1F44B} Hey, I'm Minerva.\n\nI live in your homelab and I can:\n"
                     + "- show today's overview: /today\n- show your reminders: /reminders\n\n"
                     + "More commands coming soon."
  const UnknownText := "I know /today and /reminders for now."

  /** `handle_command`, with the backend's answers for `/today` and `/reminders` given. */
  function HandleCommand(text: string, today: TodayData, reminders: seq<ReminderOut>): (r: Result<Reply>)
    ensures r.Ok? ==> (r.value.parseMode == Some("Markdown") <==> Dispatch(text) in {Today, Reminders})
    ensures r.Ok? ==> r.value.parseMode.None? ==> Dispatch(text) in {Start, Unknown}
    ensures r.Err? <==> Dispatch(text) == Reminders && RemindersMessage(reminders).Err?
  {
    match Dispatch(text)
    case Start => Ok(Reply(StartText, None))
    case Today => Ok(Reply(Join("\n", TodayLines(today)), Some("Markdown")))
    case Reminders =>
      (match RemindersMessage(reminders)
       case Err(e) => Err(e)
       case Ok(m) => Ok(Reply(m, Some("Markdown"))))
    case Unknown => Ok(Reply(UnknownText, None))
  }

  // ---------- One batch of updates ----------

  datatype Message = Message(chatId: Option<int>, text: Option<string>)
  /** `message` is `None` when the update has none (or an empty one). */
  datatype Update = Update(updateId: int, message: Option<Message>)
  /** A command handed to `handle_command`. */
  datatype Incoming = Incoming(chatId: int, text: string)

  /** An update is handled when it has a message, a non-zero chat id and non-empty text. */
  predicate Accepted(u: Update) {
    && u.message.Some?
    && u.message.value.chatId.Some? && u.message.value.chatId.value != 0
    && u.message.value.text.Some? && u.message.value.text.value != ""
  }

  function IncomingOf(u: Update): Incoming
    requires Accepted(u)
  {
    Incoming(u.message.value.chatId.value, Strip(u.message.value.text.value))
  }

  /** The commands a batch hands on, in order. */
  function Handled(us: seq<Update>): seq<Incoming> {
    var acc := Filter(us, Accepted);
    seq(|acc|, k requires 0 <= k < |acc| => IncomingOf(acc[k]))
  }

  /** Where a batch stands: the offset for the next `getUpdates`, the commands handed to
      `handle_command` so far, and the exception that ended the polling loop, if any. */
  datatype PollState = PollState(next: Option<int>, handled: seq<Incoming>, error: Option<Error>)

  /** One update's turn: the offset moves past it, and an accepted update's command is
      handed on. Nothing catches a failure of `handle_command`. */
  function PollStep(prev: PollState, u: Update, handle: Incoming -> Result<()>): PollState {
    var next := Some(u.updateId + 1);
    if !Accepted(u) then prev.(next := next)
    else
      var c := IncomingOf(u);
      PollState(next, prev.handled + [c], if handle(c).Err? then Some(handle(c).error) else None)
  }

  /** The state after the updates `us`, where `handle` is the outcome of awaiting
      `handle_command` on a command. Once a command has raised, nothing more happens. */
  function Poll(us: seq<Update>, offset: Option<int>, handle: Incoming -> Result<()>): PollState {
    if |us| == 0 then PollState(offset, [], None)
    else
      var prev := Poll(us[..|us| - 1], offset, handle);
      if prev.error.Some? then prev else PollStep(prev, us[|us| - 1], handle)
  }

  lemma {:induction false} PollStopsAtError(us: seq<Update>, offset: Option<int>, handle: Incoming -> Result<()>,
                                           i: nat, n: nat)
    requires i <= n <= |us|
    requires Poll(us[..i], offset, handle).error.Some?
    ensures Poll(us[..n], offset, handle) == Poll(us[..i], offset, handle)
    decreases n
  {
    if n > i {
      PollStopsAtError(us, offset, handle, i, n - 1);
      assert us[..n][..n - 1] == us[..n - 1];
    }
  }

  /** The turn of update `i`, read off the prefix that ends with it. */
  lemma PollSnoc(us: seq<Update>, offset: Option<int>, handle: Incoming -> Result<()>, i: nat)
    requires i < |us|
    ensures var prev := Poll(us[..i], offset, handle);
      Poll(us[..i + 1], offset, handle) == if prev.error.Some? then prev else PollStep(prev, us[i], handle)
  {
    assert us[..i + 1][..i] == us[..i];
  }

  /** The body of `polling_loop` for one `getUpdates` answer. The awaited
      `handle_command` sits in no `try`, so its first failure ends the loop with the rest
      of the batch unhandled. */
  method PollBatch(updates: seq<Update>, offset: Option<int>, handle: Incoming -> Result<()>)
    returns (next: Option<int>, handled: seq<Incoming>, error: Option<Error>)
    ensures PollState(next, handled, error) == Poll(updates, offset, handle)
  {
    next, handled, error := offset, [], None;
    var i := 0;
    while i < |updates|
      invariant 0 <= i <= |updates|
      invariant error.None?
      invariant PollState(next, handled, error) == Poll(updates[..i], offset, handle)
    {
      var u := updates[i];
      PollSnoc(updates, offset, handle, i);
      next := Some(u.updateId + 1);
      i := i + 1;
      if u.message.None? {
        continue;
      }
      var chatId := u.message.value.chatId;
      var text := u.message.value.text.GetOr("");
      if chatId.None? || chatId.value == 0 || text == "" {
        continue;
      }
      var c := Incoming(chatId.value, Strip(text));
      handled := handled + [c];
      var outcome := handle(c);
      if outcome.Err? {
        error := Some(outcome.error);
        PollStopsAtError(updates, offset, handle, i, |updates|);
        assert updates[..|updates|] == updates;
        return;
      }
    }
    assert updates[..i] == updates;
  }

  /** `Handled` grows by the last update's command, if it has one. */
  lemma HandledSnoc(us: seq<Update>)
    requires |us| > 0
    ensures Handled(us) == Handled(us[..|us| - 1])
                           + (if Accepted(us[|us| - 1]) then [IncomingOf(us[|us| - 1])] else [])
  {
    var init := us[..|us| - 1];
    var acc, acc0 := Filter(us, Accepted), Filter(init, Accepted);
    assert acc == acc0 + (if Accepted(us[|us| - 1]) then [us[|us| - 1]] else []);
    var h, h0 := Handled(us), Handled(init);
    var extra := if Accepted(us[|us| - 1]) then [IncomingOf(us[|us| - 1])] else [];
    assert |h| == |h0| + |extra|;
    forall k | 0 <= k < |h|
      ensures h[k] == (h0 + extra)[k]
    {
      if k < |h0| {
        assert acc[k] == acc0[k];
      }
    }
  }

  /** A batch hands on a prefix of the accepted updates' commands; if nothing raised, it
      handed on all of them and the offset moved past the last update. */
  lemma {:induction false} PollHandledPrefix(us: seq<Update>, offset: Option<int>, handle: Incoming -> Result<()>)
    ensures var s := Poll(us, offset, handle);
      && s.handled <= Handled(us)
      && (s.error.None? ==>
            s.handled == Handled(us) && s.next == (if |us| == 0 then offset else Some(us[|us| - 1].updateId + 1)))
  {
    if |us| > 0 {
      var init := us[..|us| - 1];
      PollHandledPrefix(init, offset, handle);
      HandledSnoc(us);
      PollSnoc(us, offset, handle, |us| - 1);
      assert us[..|us|] == us;
      PrefixStep(Poll(init, offset, handle), us[|us| - 1], handle, Handled(init));
    }
  }

  /** The induction step of `PollHandledPrefix`, on the states alone. */
  lemma PrefixStep(prev: PollState, u: Update, handle: Incoming -> Result<()>, h0: seq<Incoming>)
    requires prev.handled <= h0 && (prev.error.None? ==> prev.handled == h0)
    ensures var s := if prev.error.Some? then prev else PollStep(prev, u, handle);
      var h := h0 + (if Accepted(u) then [IncomingOf(u)] else []);
      && s.handled <= h
      && (s.error.None? ==> s.handled == h && s.next == Some(u.updateId + 1))
  {
    var h := h0 + (if Accepted(u) then [IncomingOf(u)] else []);
    assert h[..|h0|] == h0;
    if prev.error.Some? {
      assert prev.handled == h0[..|prev.handled|] == h[..|prev.handled|];
    }
  }

  /** If a command raised, it is the last one handed on and the batch's error is its
      error; every earlier command succeeded, and if nothing raised, every one did. */
  lemma {:induction false} PollErrors(us: seq<Update>, offset: Option<int>, handle: Incoming -> Result<()>)
    ensures var s := Poll(us, offset, handle);
      && (s.error.None? ==> forall k :: 0 <= k < |s.handled| ==> handle(s.handled[k]).Ok?)
      && (s.error.Some? ==>
            && |s.handled| > 0
            && handle(s.handled[|s.handled| - 1]) == Err(s.error.value)
            && forall k :: 0 <= k < |s.handled| - 1 ==> handle(s.handled[k]).Ok?)
  {
    if |us| > 0 {
      var init := us[..|us| - 1];
      PollErrors(init, offset, handle);
      PollSnoc(us, offset, handle, |us| - 1);
      assert us[..|us|] == us;
    }
  }

  /** When no command raises, the whole batch is handled: the offset moves past the last
      update and every accepted update's command is handed on. */
  lemma {:induction false} PollAllOk(us: seq<Update>, offset: Option<int>, handle: Incoming -> Result<()>)
    requires forall i :: 0 <= i < |us| && Accepted(us[i]) ==> handle(IncomingOf(us[i])).Ok?
    ensures Poll(us, offset, handle)
         == PollState(if |us| == 0 then offset else Some(us[|us| - 1].updateId + 1), Handled(us), None)
  {
    if |us| > 0 {
      var init := us[..|us| - 1];
      assert forall i :: 0 <= i < |init| ==> init[i] == us[i];
      PollAllOk(init, offset, handle);
      HandledSnoc(us);
    }
  }

  /** The outcome of `handle_command` when the backend answers with `today` and
      `reminders` and sending succeeds. */
  function CommandOutcome(today: TodayData, reminders: seq<ReminderOut>): Incoming -> Result<()> {
    (c: Incoming) =>
      match HandleCommand(c.text, today, reminders)
      case Err(e) => Err(e)
      case Ok(_) => Ok(())
  }

  /** With reminders as the API returns them, no command of a batch raises, so only the
      network can end the polling loop. */
  lemma ApiBatchCompletes(us: seq<Update>, offset: Option<int>, today: TodayData, reminders: seq<ReminderOut>)
    requires forall k :: 0 <= k < |reminders| ==> DaysInRange(reminders[k].daysOfWeek)
    ensures Poll(us, offset, CommandOutcome(today, reminders))
         == PollState(if |us| == 0 then offset else Some(us[|us| - 1].updateId + 1), Handled(us), None)
  {
    ApiRemindersFormat(reminders);
    PollAllOk(us, offset, CommandOutcome(today, reminders));
  }

  /** Exactly the accepted updates are handed on, with their text stripped, in order;
      a batch whose updates are all accepted hands on one command per update. */
  lemma HandledExactly(us: seq<Update>)
    ensures |Handled(us)| <= |us|
    ensures forall x :: x in Handled(us) <==> exists i :: 0 <= i < |us| && Accepted(us[i]) && x == IncomingOf(us[i])
    ensures (forall i :: 0 <= i < |us| ==> Accepted(us[i])) ==>
      |Handled(us)| == |us| && forall i :: 0 <= i < |us| ==> Handled(us)[i] == IncomingOf(us[i])
  {
    var acc := Filter(us, Accepted);
    var h := Handled(us);
    forall x | x in h
      ensures exists i :: 0 <= i < |us| && Accepted(us[i]) && x == IncomingOf(us[i])
    {
      var k :| 0 <= k < |h| && h[k] == x;
      assert acc[k] in acc;
      var i :| 0 <= i < |us| && us[i] == acc[k];
    }
    forall i | 0 <= i < |us| && Accepted(us[i])
      ensures IncomingOf(us[i]) in h
    {
      assert us[i] in acc;
      var k :| 0 <= k < |acc| && acc[k] == us[i];
      assert h[k] == IncomingOf(us[i]);
    }
    if forall i :: 0 <= i < |us| ==> Accepted(us[i]) {
      FilterAll(us, Accepted);
    }
  }
}
