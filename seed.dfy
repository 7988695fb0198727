/** First-start seeding: a word, a monitored service with its status row, and a daily
    reminder with today's occurrence, each written only into a table that is empty. */
module Seed {
  import opened Wrappers
  import opened Clock
  import opened Strings
  import opened Models
  import opened ReminderEngine

  // ---------- The seeded rows ----------

  function SeedWord(now: Timestamp): Word {
    Word(1, "serendipity", "The occurrence of events by chance in a happy or beneficial way.",
         Some("{\"examples\": [\"Finding Minerva bugs before they happen.\"]}"), true, now, now)
  }

  /** The service, with the column defaults for the alert flags. */
  function SeedService(now: Timestamp): Service {
    Service(1, "Cartofia site", "cartofia", "HTTP", "https://cartofia.com", 60, 5, true, true, true, now, now)
  }

  function SeedStatus(id: int, serviceId: int, now: Timestamp): ServiceStatus {
    ServiceStatus(id, serviceId, true, Some(123.0), Some(now), 0, Some(now))
  }

  function SeedReminder(now: Timestamp): Reminder {
    Reminder(1, "Morning pills", Some("Take your morning meds."), "DAILY", 9 * 3600, None, None,
             Some(0), Some(60), Some("telegram,esp32"), true, now, now)
  }

  /** Today's occurrence as the seed writes it out: due at the reminder's time today, the
      window opening at the due time and closing `grace_after_min` minutes later. */
  function SeedOccurrence(id: int, r: Reminder, today: Day, now: Timestamp): Occurrence {
    var due := Combine(today, r.timeOfDay);
    Occurrence(id, Some(r.id), due, due, due + Minutes(GraceMinutes(r.graceAfterMin)),
               Pending, None, None, None, None, now, now)
  }

  // ---------- The tables after seeding ----------

  function SeedWords(rows: seq<Word>, now: Timestamp): seq<Word> {
    if |rows| == 0 then [SeedWord(now)] else rows
  }

  function SeedServices(services: seq<Service>, statuses: seq<ServiceStatus>, now: Timestamp)
    : (seq<Service>, seq<ServiceStatus>)
    requires StatusKeys(statuses)
  {
    if |services| == 0 then ([SeedService(now)], statuses + [SeedStatus(NextStatusId(statuses), 1, now)])
    else (services, statuses)
  }

  function SeedReminders(rems: seq<Reminder>, occs: seq<Occurrence>, today: Day, now: Timestamp)
    : (seq<Reminder>, seq<Occurrence>)
    requires OccurrenceKeys(occs)
  {
    if |rems| == 0 then ([SeedReminder(now)], occs + [SeedOccurrence(NextOccurrenceId(occs), SeedReminder(now), today, now)])
    else (rems, occs)
  }

  /** `seed_initial_data`: one transaction over the four tables. */
  method SeedInitialData(words: WordTable, services: ServiceTable, reminders: ReminderTable,
                         occs: OccurrenceTable, today: Day, now: Timestamp)
    requires words.Valid() && services.Valid() && reminders.Valid() && occs.Valid()
    modifies words, services, reminders, occs
    ensures words.Valid() && services.Valid() && reminders.Valid() && occs.Valid()
    ensures words.rows == SeedWords(old(words.rows), now)
    ensures (services.services, services.statuses) == SeedServices(old(services.services), old(services.statuses), now)
    ensures (reminders.rows, occs.rows) == SeedReminders(old(reminders.rows), old(occs.rows), today, now)
  {
    SeedWordTable(words, now);
    SeedServiceTable(services, now);
    SeedReminderTable(reminders, occs, today, now);
  }

  method SeedWordTable(words: WordTable, now: Timestamp)
    requires words.Valid()
    modifies words
    ensures words.Valid() && words.rows == SeedWords(old(words.rows), now)
  {
    if |words.rows| == 0 {
      words.rows := [SeedWord(now)];
    }
  }

  /** The service is flushed first so that its status row can point at its id. */
  method SeedServiceTable(services: ServiceTable, now: Timestamp)
    requires services.Valid()
    modifies services
    ensures services.Valid()
    ensures (services.services, services.statuses) == SeedServices(old(services.services), old(services.statuses), now)
  {
    if |services.services| == 0 {
      SeedServicesValid(services.services, services.statuses, now);
      var s := SeedService(now);
      services.services := [s];
      services.statuses := services.statuses + [SeedStatus(NextStatusId(services.statuses), s.id, now)];
    }
  }

  method SeedReminderTable(reminders: ReminderTable, occs: OccurrenceTable, today: Day, now: Timestamp)
    requires reminders.Valid() && occs.Valid()
    modifies reminders, occs
    ensures reminders.Valid() && occs.Valid()
    ensures (reminders.rows, occs.rows) == SeedReminders(old(reminders.rows), old(occs.rows), today, now)
  {
    if |reminders.rows| == 0 {
      var r := SeedReminder(now);
      reminders.rows := [r];
      var o := SeedOccurrence(NextOccurrenceId(occs.rows), r, today, now);
      occs.rows := occs.rows + [o];
    }
  }

  // ---------- Properties ----------

  /** Seeding never touches a table that already has rows. */
  lemma SeedOnlyEmpty(words: seq<Word>, services: seq<Service>, statuses: seq<ServiceStatus>,
                      rems: seq<Reminder>, occs: seq<Occurrence>, today: Day, now: Timestamp)
    requires StatusKeys(statuses) && OccurrenceKeys(occs)
    ensures |words| > 0 ==> SeedWords(words, now) == words
    ensures |services| > 0 ==> SeedServices(services, statuses, now) == (services, statuses)
    ensures |rems| > 0 ==> SeedReminders(rems, occs, today, now) == (rems, occs)
  {
  }

  /** An empty table gets exactly one row, and the service and the reminder bring one
      status row and one occurrence with them. */
  lemma SeedFillsEmpty(words: seq<Word>, services: seq<Service>, statuses: seq<ServiceStatus>,
                       rems: seq<Reminder>, occs: seq<Occurrence>, today: Day, now: Timestamp)
    requires StatusKeys(statuses) && OccurrenceKeys(occs)
    ensures |words| == 0 ==> |SeedWords(words, now)| == 1
    ensures |services| == 0 ==> |SeedServices(services, statuses, now).0| == 1
                                && |SeedServices(services, statuses, now).1| == |statuses| + 1
    ensures |rems| == 0 ==> |SeedReminders(rems, occs, today, now).0| == 1
                            && |SeedReminders(rems, occs, today, now).1| == |occs| + 1
  {
  }

  /** Seeding twice, at any two instants, is seeding once. */
  lemma SeedWordsIdempotent(words: seq<Word>, now: Timestamp, later: Timestamp)
    ensures SeedWords(SeedWords(words, now), later) == SeedWords(words, now)
  {
  }

  lemma SeedServicesIdempotent(services: seq<Service>, statuses: seq<ServiceStatus>, now: Timestamp, later: Timestamp)
    requires StatusKeys(statuses)
    ensures var (s, st) := SeedServices(services, statuses, now);
      StatusKeys(st) && SeedServices(s, st, later) == (s, st)
  {
  }

  lemma SeedRemindersIdempotent(rems: seq<Reminder>, occs: seq<Occurrence>, today: Day, now: Timestamp,
                                today2: Day, later: Timestamp)
    requires OccurrenceKeys(occs)
    ensures var (r, o) := SeedReminders(rems, occs, today, now);
      OccurrenceKeys(o) && SeedReminders(r, o, today2, later) == (r, o)
  {
  }

  /** The seeded service table is valid: one service, and a status row that belongs to it. */
  lemma SeedServicesValid(services: seq<Service>, statuses: seq<ServiceStatus>, now: Timestamp)
    requires ServiceKeys(services) && UniqueSlugs(services) && StatusKeys(statuses)
    requires forall i :: 0 <= i < |statuses| ==> HasService(services, statuses[i].serviceId)
    requires forall i, j :: 0 <= i < j < |statuses| ==> statuses[i].serviceId != statuses[j].serviceId
    ensures var (s, st) := SeedServices(services, statuses, now);
      && ServiceKeys(s) && UniqueSlugs(s) && StatusKeys(st)
      && (forall i, j :: 0 <= i < j < |st| ==> st[i].serviceId != st[j].serviceId)
      && (forall i :: 0 <= i < |st| ==> HasService(s, st[i].serviceId))
  {
    if |services| == 0 {
      assert |statuses| > 0 ==> HasService(services, statuses[0].serviceId);
      var st := SeedServices(services, statuses, now).1;
      assert st[0] == SeedStatus(NextStatusId(statuses), 1, now);
      assert [SeedService(now)][0].id == 1;
    }
  }

  /** The occurrence the seed writes is exactly the one the scheduler would create for the
      seeded reminder today. */
  lemma SeedOccurrenceIsScheduled(id: int, today: Day, now: Timestamp)
    ensures SeedOccurrence(id, SeedReminder(now), today, now) == NewOccurrence(id, SeedReminder(now), today, now)
    ensures Fires(SeedReminder(now), today)
  {
    assert Upper("DAILY") == "DAILY";
  }

  /** So a scheduler cycle run on the seeded tables the same day creates nothing more. */
  lemma SeedThenMaterializeNothing(occs: seq<Occurrence>, today: Day, now: Timestamp, later: Timestamp)
    requires OccurrenceKeys(occs)
    ensures var (r, o) := SeedReminders([], occs, today, now);
      OccurrenceKeys(o) && MaterializeAll(r, o, today, later) == Ok(o)
  {
    var r := SeedReminder(now);
    var o := SeedReminders([], occs, today, now).1;
    var id := NextOccurrenceId(occs);
    SeedOccurrenceIsScheduled(id, today, now);
    NewOccurrenceOnDay(id, r, today, now);
    assert o[|occs|] == NewOccurrence(id, r, today, now);
    assert HasOccurrenceOn(o, r.id, today);
    MaterializeNothingToDo([r], o, today, later);
  }
}
