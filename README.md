# Homelab assistant backend — a verified model

This project models the core of a small homelab assistant backend. The backend keeps
reminders and their daily occurrences, watches a list of HTTP and TCP services, and
offers a word of the day. It hands reminder alerts to a Telegram bot through a durable
notification outbox. The modelled parts are:

- the reminder engine: schedule evaluation, the once-per-day materialisation of
  occurrences, and one scheduler cycle (materialise, expire overdue occurrences, alert
  due ones once per enabled Telegram chat);
- the notification outbox: emission, and the lease protocol of its consumers
  (claim oldest-first with a lock timeout, acknowledge, fail with a retry budget of 5);
- the service checker: HTTP and TCP probes with the network as a parameter, and the
  per-service status row with its failure streak and change time;
- the expression engine that picks the assistant's mood;
- the HTTP endpoints for reminders, occurrences, services, words and Telegram chat
  registration;
- first-start seeding;
- the text and routing of the Telegram polling bot.

Each database table is a class holding a `seq` of rows in ascending key order. Each
endpoint is a method on those tables, with `modifies` and an `ensures` that gives the new
rows as a function of the old ones. Each method is then related to a specification
function whose properties are proved as lemmas. Pure logic (schedules, validators, the
mood, message formatting) is written as functions.

Modelling conventions:

- Instants are whole seconds since 1970-01-01 UTC. Days are day numbers, with
  weekday `(d + 3) % 7` (Monday is 0).
- "Today" and "now" are parameters, and so are the network and the environment name.
- An exception that ends a request or a background step is an `Err` value, and nothing
  the request had not yet committed is stored.
- In a partial-update request, `None` means the field was left out. The nullable columns
  the model keeps optional (a reminder's description, days, one-off instant, grace minutes
  and channels, and a word's `extra_json`) take `Option<Option<T>>`, where `Some(None)`
  stores null. Every other patch field is a plain `Option<T>`, so an explicit null cannot
  be expressed for it (see "Left out").

## Model

| member | source | states |
|---|---|---|
| Clock.WithinDayIsDateOf | backend/app/core/reminder_engine.py:52-53 | the `time.min`..`time.max` range test of a day holds exactly for the instants whose date is that day |
| Clock.CombineOnDay | backend/app/core/reminder_engine.py:80 | an instant combined from a day and a time of day falls on that day |
| Strings.ParseIntToString | backend/app/api/routes_reminders.py:106-115 | the decimal text of any integer reads back as that integer |
| ReminderEngine.DayPartsFails | backend/app/core/reminder_engine.py:18 | reading the day list fails exactly when some non-blank comma piece is not an integer |
| ReminderEngine.DayPartsValues | backend/app/core/reminder_engine.py:18 | on success, the days are the values of the non-blank pieces, in order; blank pieces are dropped |
| ReminderEngine.ParseDaysOfWeek | backend/app/core/reminder_engine.py:15-18 | a missing or empty day text gives no days |
| ReminderEngine.ParseJoinedDays | backend/app/core/reminder_engine.py:15-18 | a comma-joined list of integers reads back as that list (round trip with the stored form) |
| ReminderEngine.DayPartsOfTexts | backend/app/core/reminder_engine.py:18 | reading back the decimal texts of a list of integers gives the list |
| ReminderEngine.ShouldFireOn | backend/app/core/reminder_engine.py:21-41 | a disabled reminder never fires; the only failure is an enabled WEEKLY reminder whose day list does not parse |
| ReminderEngine.FiresByKind | backend/app/core/reminder_engine.py:26-41 | the kind is compared upper-cased: DAILY fires every day; WEEKLY fires iff the weekday is listed; ONE_OFF fires iff `one_off_at` is set and falls on the day; any other kind never fires |
| ReminderEngine.RecurringIsWeekly | backend/app/core/reminder_engine.py:28-33 | for every kind other than ONE_OFF, the answer for day d+7 equals the answer for day d |
| ReminderEngine.OneOffFiresOnce | backend/app/core/reminder_engine.py:35-38 | a ONE_OFF reminder fires on at most one date |
| ReminderEngine.NewOccurrenceOnDay | backend/app/core/reminder_engine.py:77-91 | a created occurrence is PENDING, belongs to its reminder and is due within the day. It is due at `one_off_at` for ONE_OFF and at the day combined with `time_of_day` otherwise. Its window is due minus grace-before to due plus grace-after, with a missing grace counted as 0 |
| ReminderEngine.Step | backend/app/core/reminder_engine.py:57-93 | one reminder's turn fails exactly when its schedule cannot be evaluated, and keeps the key order of the rows |
| ReminderEngine.MaterializeAll | backend/app/core/reminder_engine.py:44-98 | the rows are only appended to, in key order; the run fails iff some reminder's schedule cannot be evaluated |
| ReminderEngine.MaterializeCreatesOnlyFiring | backend/app/core/reminder_engine.py:57-91 | every created row is the occurrence of a reminder that fires on that day |
| ReminderEngine.MaterializeCovers | backend/app/core/reminder_engine.py:57-91 | afterwards, every firing reminder with an id has an occurrence due within the day |
| ReminderEngine.MaterializeNothingToDo | backend/app/core/reminder_engine.py:64-75 | when every firing reminder already has an occurrence that day, the rows are left as they are |
| ReminderEngine.MaterializeIdempotent | backend/app/core/reminder_engine.py:44-98 | a second run for the same day, at any later instant, creates nothing |
| ReminderEngine.MaterializeAtMostOne | backend/app/core/reminder_engine.py:64-75 | no reminder gets a second occurrence on the day |
| ReminderEngine.EnsureOccurrencesForDate | backend/app/core/reminder_engine.py:44-98 | the table becomes the materialised rows and the result is the count created; on an error nothing is committed |
| ReminderEngine.MaterializeAsWrittenRaises | backend/app/core/reminder_engine.py:77 | as written, the run raises NameError exactly when the intended version would create a row, so it never creates one |
| ReminderEngine.DailyReminderAsWritten | backend/app/core/reminder_engine.py:77 | for the seeded daily reminder on an empty table, the intended version creates one occurrence and the code as written raises NameError |
| ReminderEngine.ExpireAll | backend/app/core/reminder_engine.py:130-139 | the expire step keeps the number of rows |
| ReminderEngine.ExpireExactly | backend/app/core/reminder_engine.py:130-137 | exactly the PENDING rows whose window has ended become MISSED, stamped with now; every other row and field is unchanged |
| ReminderEngine.ExpireLeavesNoOverdue | backend/app/core/reminder_engine.py:130-139 | after the expire step no PENDING row is overdue, and the keys and settled rows are kept |
| ReminderEngine.ExpireOverdue | backend/app/core/reminder_engine.py:130-139 | the in-place loop leaves the table equal to the expire step applied to the old rows |
| ReminderEngine.AlertPayload | backend/app/core/reminder_engine.py:155-163 | every alert is routed to the "telegram" channel |
| ReminderEngine.ChatAlerts | backend/app/core/reminder_engine.py:154-164 | one alert per enabled chat, in chat order, each addressed to that chat |
| ReminderEngine.Alerts | backend/app/core/reminder_engine.py:141-164 | every alert of the notify step has a storable channel ("telegram") |
| ReminderEngine.AlertsCount | backend/app/core/reminder_engine.py:141-164 | the notify step emits one alert per (due occurrence, enabled chat) pair |
| ReminderEngine.SecondNotifyEmitsNothing | backend/app/core/reminder_engine.py:143-166 | once rows are stamped with `alerted_at`, a second notify step at the same instant emits nothing |
| ReminderEngine.AlertedOnce | backend/app/core/reminder_engine.py:143-166 | an alerted occurrence is stamped with now and is never due for an alert again, at any later instant |
| ReminderEngine.NoAlertAfterWindow | backend/app/core/reminder_engine.py:130-147 | run after the expire step, the notify step alerts only occurrences whose due time has come and whose window is still open |
| ReminderEngine.MarkAllAlerted | backend/app/core/reminder_engine.py:165-166 | stamping keeps the number of rows |
| ReminderEngine.AlertChats | backend/app/core/reminder_engine.py:154-164 | the inner loop appends one event per enabled chat to the outbox and calls the handler with each alert, in order |
| ReminderEngine.NotifyRow | backend/app/core/reminder_engine.py:149-166 | one row's alerts are emitted and only that row is stamped |
| ReminderEngine.NotifyDue | backend/app/core/reminder_engine.py:141-168 | the outbox gains exactly the alerts for the due rows and enabled chats, in order, and the due rows are stamped |
| ReminderEngine.SchedulerCycle | backend/app/core/reminder_engine.py:117-168 | one cycle materialises, then expires, then notifies. A materialisation error stops the cycle with nothing changed; otherwise the rows, the outbox and the created count are as the three steps compose |
| ReminderEngine.CycleAsWrittenNeverAlerts | backend/app/core/reminder_engine.py:141-147 | as written, every cycle crashes and no occurrence is created or alerted. A cycle that would create a row fails first, with the NameError of line 77; any other fails with AttributeError on the undeclared `alerted_at` |
| ReminderEngine.IntTexts | backend/app/api/routes_reminders.py:106-109 | the decimal texts of a list of integers, one per element |
| ReminderEngine.IntTextIsPiece | backend/app/api/routes_reminders.py:106-109 | the decimal text of an integer is non-blank, comma-free and reads back as the integer |
| Notifications.ChannelOf | backend/app/core/notifications.py:37 | the channel defaults to "default" when absent. An explicit null fails the NOT NULL insert, and that is the only failure |
| Notifications.EnqueueAll | backend/app/core/notifications.py:36-42 | emitting a list adds one event per notification and keeps the keys ascending |
| Notifications.EnqueueAllAppends | backend/app/core/notifications.py:36-42 | old events are kept; each new event is PENDING, unsent and unlocked, and carries its notification and channel |
| Notifications.EnqueueOneMore | backend/app/core/notifications.py:36-42 | emitting one more notification appends exactly its event |
| Notifications.EnqueueAllAppend | backend/app/core/notifications.py:36-42 | emitting `a` then `b` is emitting `a + b` |
| Notifications.HandledAll | backend/app/core/notifications.py:46-52 | with no handler nothing is called; otherwise the handler is called once per notification, in order |
| Notifications.HandledAllAppend | backend/app/core/notifications.py:46-52 | handler calls for `a + b` are those for `a` followed by those for `b` |
| Notifications.Outbox.RegisterHandler | backend/app/core/notifications.py:19-25 | the last registration wins; events and calls are unchanged |
| Notifications.Outbox.Emit | backend/app/core/notifications.py:28-52 | emission succeeds iff the channel is storable. On success one PENDING event is appended and the handler, if any, is called once; a failed insert changes nothing and calls no handler |
| NotificationRoutes.AgeOrderIsStrictTotal | backend/app/api/routes_notifications.py:68 | ordering by `created_at` with ties by table position is a strict total order |
| NotificationRoutes.EligibleIndices | backend/app/api/routes_notifications.py:57-67 | exactly the positions of the events that pass the claim filter |
| NotificationRoutes.Take | backend/app/api/routes_notifications.py:69 | `limit` keeps a prefix of at most `limit` elements, and the whole list when it is shorter |
| NotificationRoutes.CandidatesAreOldestEligible | backend/app/api/routes_notifications.py:57-71 | the claim selects only eligible events, oldest first, at most `limit`, and skips no eligible event older than one it takes (nor any at all while room is left) |
| NotificationRoutes.SendingNeverClaimed | backend/app/api/routes_notifications.py:62 | a SENDING event is never claimed, however old its lock |
| NotificationRoutes.LeasedNotEligible | backend/app/api/routes_notifications.py:62-78 | a leased event stays out of every claim until it is acknowledged or failed |
| NotificationRoutes.AckIdempotent | backend/app/api/routes_notifications.py:120-126 | acknowledging twice is acknowledging once at the later time; attempts and last error are untouched |
| NotificationRoutes.FailedEligibility | backend/app/api/routes_notifications.py:150-154 | a failed, unsent event is claimable again exactly while its attempts are below MAX_ATTEMPTS (5) |
| NotificationRoutes.AckedNeverClaimable | backend/app/api/routes_notifications.py:120-126 | once acknowledged, an event is never claimable again, whatever operations follow |
| NotificationRoutes.ExhaustedNeverClaimable | backend/app/api/routes_notifications.py:61 | once its attempts reach 5, an event is never claimable again, whatever operations follow |
| NotificationRoutes.AttemptsCountFailures | backend/app/api/routes_notifications.py:150 | each fail adds one attempt and no other operation changes the count |
| NotificationRoutes.FiveFailuresExhaust | backend/app/api/routes_notifications.py:150 | a new event failed five times is never claimed again |
| NotificationRoutes.EmittedIsEligible | backend/app/core/notifications.py:36-40 | a freshly emitted event is claimable at once |
| NotificationRoutes.Leased | backend/app/api/routes_notifications.py:75-81 | leasing keeps every row and every key |
| NotificationRoutes.LeaseAll | backend/app/api/routes_notifications.py:74-86 | the claim loop leases exactly the selected rows and returns them, in selection order |
| NotificationRoutes.Claim | backend/app/api/routes_notifications.py:46-111 | the query bounds (limit 1..100, consumer id 1..128 characters, lock 1..3600 seconds) are enforced, and a violation changes nothing. Otherwise the oldest eligible events are leased and returned |
| NotificationRoutes.Ack | backend/app/api/routes_notifications.py:114-137 | an unknown id gives 404 with nothing changed; otherwise exactly that event becomes SENT, unlocked and stamped, and its new state is returned |
| NotificationRoutes.Fail | backend/app/api/routes_notifications.py:140-166 | an unknown id gives 404 with nothing changed; otherwise exactly that event becomes FAILED and unlocked, its attempt count (null read as 0) grows by one and the message is stored |
| OccurrenceRoutes.ListingExact | backend/app/api/routes_occurrences.py:65-109 | the listing is exactly the day's rows that have an owner and match the upper-cased state filter and the non-zero reminder filter, in key order, each labelled from its reminder |
| OccurrenceRoutes.ListOccurrences | backend/app/api/routes_occurrences.py:48-109 | the loop's response is the listing for the given day, or for today when no date is given |
| OccurrenceRoutes.CleanupOrphans | backend/app/api/routes_occurrences.py:112-128 | outside dev/development/test (any case) the result is 403, and without confirmation 400, with nothing changed. Otherwise exactly the rows without a reminder are deleted and counted |
| OccurrenceRoutes.MarkOutcome | backend/app/api/routes_occurrences.py:144-157 | DONE and SKIPPED rows are returned as they are. Any other row gets the new state and exactly the matching timestamp, and the other one is cleared; `updated_at` aside, no other field changes |
| OccurrenceRoutes.TerminalIsFinal | backend/app/api/routes_occurrences.py:144-151 | no sequence of marks or expiries changes a DONE or SKIPPED row |
| OccurrenceRoutes.MarkIdempotent | backend/app/api/routes_occurrences.py:144-151 | marking twice answers like marking once, whichever mark comes second |
| OccurrenceRoutes.Mark | backend/app/api/routes_occurrences.py:131-207 | an unknown id gives 404 with nothing changed; otherwise exactly that row is marked and its state is returned |
| ExpressionEngine.ComputeExpression | backend/app/core/expression_engine.py:11-56 | the mood is one of alert, sleepy, warning, focused, happy |
| ExpressionEngine.StateByPriority | backend/app/core/expression_engine.py:24-56 | each mood in terms of the inputs. Night hours 1-5 pass only outages; an outage outranks the reminder counts; missed outranks pending |
| ExpressionEngine.MessageNames | backend/app/core/expression_engine.py:30-53 | outage messages name the first failing service when there is one; the focused message names the next reminder when it is known |
| ExpressionEngine.QuietNightIgnoresCounts | backend/app/core/expression_engine.py:27-35 | at night with no outage the answer is "Quiet hours..." whatever the counts |
| ExpressionEngine.Examples | backend/app/core/expression_engine.py:27-52 | a database outage at 02:00 and two pending reminders at 14:00 give the expected moods |
| ServiceChecker.CheckHttp | backend/app/core/service_checker.py:14-27 | up iff the server answered with a status below 500; a latency exactly when it answered |
| ServiceChecker.SplitTarget | backend/app/core/service_checker.py:35-37 | splitting at the first ':' gives back the target, and the host part holds no ':' |
| ServiceChecker.CheckTcp | backend/app/core/service_checker.py:30-51 | a target without ':' is down. A port that is not an integer raises ValueError; otherwise the target is up iff the connection opens |
| ServiceChecker.TcpProbe | backend/app/core/service_checker.py:41-51 | up iff the connection opened |
| ServiceChecker.TcpTargetSplit | backend/app/core/service_checker.py:35-38 | a `host:port` target with a colon-free host splits into that host and port |
| ServiceChecker.CheckOne | backend/app/core/service_checker.py:54-59 | dispatch on the upper-cased kind; any other kind is down |
| ServiceChecker.FirstProbe | backend/app/core/service_checker.py:77-87 | the first result creates a row checked and changed now, with a streak of 0 when up and 1 when down |
| ServiceChecker.LaterProbe | backend/app/core/service_checker.py:88-104 | a later result overwrites the reading. The change time moves iff up/down flips; the streak resets when up and grows by one when down |
| ServiceChecker.StreakCountsTrailingDowns | backend/app/core/service_checker.py:77-104 | after any series of results, the streak is the number of down results since the last up one |
| ServiceChecker.Record | backend/app/core/service_checker.py:75-104 | recording a result keeps the status keys ascending |
| ServiceChecker.RecordKeepsTable | backend/app/core/service_checker.py:75-104 | recording keeps one row per service, each owned by a service, touches no other service's row, and leaves the service's row holding the result: up/down state, latency, and `last_checked_at` = now |
| ServiceChecker.RecordHolds | backend/app/core/service_checker.py:75-104 | the recorded service's row holds the new up/down state and latency, checked now; other services' readings (state, latency, check time) are kept |
| ServiceChecker.ProbeAll | backend/app/core/service_checker.py:71-72 | one probe result per service, in order |
| ServiceChecker.Step | backend/app/core/service_checker.py:71-106 | one service's turn keeps the status keys |
| ServiceChecker.Pass | backend/app/core/service_checker.py:71-106 | the pass so far keeps the status keys |
| ServiceChecker.StepTouchesOnlyItsRow | backend/app/core/service_checker.py:75-106 | a turn leaves every other service's row where it was |
| ServiceChecker.StepHolds | backend/app/core/service_checker.py:75-106 | a turn that does not raise records its result (state, latency, check time) and keeps every other service's reading |
| ServiceChecker.PassTouchesOnlyChecked | backend/app/core/service_checker.py:69-106 | a pass touches only the rows of the services it checked |
| ServiceChecker.PassRecordsEachResult | backend/app/core/service_checker.py:71-106 | when no probe raised, each checked service's row holds its result: its state and latency, checked at the instant of its own turn |
| ServiceChecker.HoldsExtend | backend/app/core/service_checker.py:71-106 | induction step: rows recorded earlier keep their state, latency and check time as the pass goes on |
| ServiceChecker.PassStopsAtError | backend/app/core/service_checker.py:62-106 | once a probe raises, the rest of the list is never reached |
| ServiceChecker.Ids | backend/app/core/service_checker.py:71 | the ids of the services, in order |
| ServiceChecker.EnabledIsListed | backend/app/core/service_checker.py:69 | every enabled service is a service of the table |
| ServiceChecker.RecordProbe | backend/app/core/service_checker.py:75-106 | the table's statuses become the recorded ones; services are untouched |
| ServiceChecker.CheckStep | backend/app/core/service_checker.py:71-106 | the loop body advances the pass by one service |
| ServiceChecker.CheckServices | backend/app/core/service_checker.py:62-106 | the statuses become the pass over the enabled services; the outcome is the count, or the exception that stopped the pass, with earlier commits kept |
| ServiceChecker.DisabledUntouched | backend/app/core/service_checker.py:69 | a pass never touches the status of a disabled service |
| ServiceChecker.EnabledRecorded | backend/app/core/service_checker.py:69-106 | when no probe raises, every enabled service has a row holding its latest result: its state and latency, checked at the instant of its turn |
| ReminderRoutes.ValidateScheduleKind | backend/app/api/routes_reminders.py:28-35 | accepted iff the upper-cased kind is DAILY, WEEKLY or ONE_OFF; stored upper-cased |
| ReminderRoutes.HourMinuteOf | backend/app/api/routes_reminders.py:37-49 | a recognised time has an hour 0..23 and a minute 0..59 |
| ReminderRoutes.ValidateTime | backend/app/api/routes_reminders.py:37-49 | accepted iff the text is two ':'-separated integers giving a valid hour and minute; kept as given |
| ReminderRoutes.ParseTimeStr | backend/app/api/routes_reminders.py:101-103 | parses exactly the texts the validator accepts, to whole minutes of the day |
| ReminderRoutes.ValidateDays | backend/app/api/routes_reminders.py:51-59 | accepted iff `DaysInRange` holds, the same condition the create validation checks: every listed day is in 0..6 and a missing list passes. The list is kept |
| ReminderRoutes.TimeText | backend/app/api/routes_reminders.py:145 | `HH:MM` text |
| ReminderRoutes.HourMinuteOfParts | backend/app/api/routes_reminders.py:37-49 | two colon-free pieces that read as an hour and a minute are recognised as that time |
| ReminderRoutes.HourMinuteOfText | backend/app/api/routes_reminders.py:37-49 | every zero-padded `HH:MM` is recognised as its hour and minute |
| ReminderRoutes.ParsedTime | backend/app/api/routes_reminders.py:101-103 | a recognised time parses to that many seconds since midnight |
| ReminderRoutes.TimeTextRoundTrip | backend/app/api/routes_reminders.py:101-103 | a stored time in whole minutes prints as a text that parses back to it |
| ReminderRoutes.SortedDays | backend/app/api/routes_reminders.py:106-109 | `sorted(set(days))`: strictly ascending, same elements |
| ReminderRoutes.SortedNames | backend/app/api/routes_reminders.py:118-121 | `sorted(set(names))`: strictly ascending, same elements |
| ReminderRoutes.IntParts | backend/app/api/routes_reminders.py:112-115 | reading fails iff some piece is not an integer; otherwise one value per piece |
| ReminderRoutes.StrToDays | backend/app/api/routes_reminders.py:112-115 | a missing or empty text gives no list |
| ReminderRoutes.IntPartsOfTexts | backend/app/api/routes_reminders.py:106-115 | decimal texts read back as their integers |
| ReminderRoutes.DaysRoundTrip | backend/app/api/routes_reminders.py:106-115 | storing a non-empty day list and reading it back gives its distinct days in ascending order; an empty list reads back as none |
| ReminderRoutes.ChannelsRoundTrip | backend/app/api/routes_reminders.py:118-127 | storing comma-free, non-empty channel names and reading them back gives the distinct names in ascending order |
| ReminderRoutes.NoChannels | backend/app/api/routes_reminders.py:118-127 | no channel list is stored as null and reads back as the empty list |
| ReminderRoutes.Validate | backend/app/api/routes_reminders.py:16-62 | a create request passes iff kind, time and days all pass; the kind is then upper-cased |
| ReminderRoutes.OutOf | backend/app/api/routes_reminders.py:133-156 | a readable row answers with its id, its upper-cased kind and its `HH:MM` time |
| ReminderRoutes.DaysReadBack | backend/app/api/routes_reminders.py:106-115 | a validated day list reads back sorted, deduplicated and still in range |
| ReminderRoutes.DefaultChannelsReadBack | backend/app/models/reminders.py:24 | the column default reads back as the two channels telegram and esp32 |
| ReminderRoutes.ReadableRow | backend/app/api/routes_reminders.py:79-85 | a row with readable days in range, a known kind and both grace values answers with its fields |
| ReminderRoutes.CreatedReadsBack | backend/app/api/routes_reminders.py:159-193 | a created reminder reads back as its request: kind upper-cased, time as `HH:MM` that parses to the same time, days and channels sorted and deduplicated, channel default when none given |
| ReminderRoutes.ValidatedRow | backend/app/api/routes_reminders.py:159-193 | the inserted row field by field, with a time in whole minutes |
| ReminderRoutes.CreatedIsReadable | backend/app/api/routes_reminders.py:159-193 | a validated create always reads back without error |
| ReminderRoutes.AppendKeepsKeys | backend/app/api/routes_reminders.py:159-193 | appending with the next id keeps keys ascending |
| ReminderRoutes.FindReminder | backend/app/api/routes_reminders.py:199 | the position of the reminder with the id, or -1 when there is none |
| ReminderRoutes.CreateReminder | backend/app/api/routes_reminders.py:159-193 | a failed validation is returned with nothing stored; otherwise the row is appended and its readback returned |
| ReminderRoutes.GetReminder | backend/app/api/routes_reminders.py:196-216 | 404 for an unknown id, otherwise the row's readback |
| ReminderRoutes.ListReminders | backend/app/api/routes_reminders.py:133-156 | succeeds iff every row reads back, giving one answer per row in order; otherwise the error of an unreadable row |
| ReminderRoutes.ApplyPatch | backend/app/api/routes_reminders.py:229-252 | a patch fails iff a given time text does not parse |
| ReminderRoutes.PatchChangesOnlyGiven | backend/app/api/routes_reminders.py:229-252 | a field left out keeps its value; a given one takes it (kind upper-cased, lists in stored form); `updated_at` moves to now; key and creation time never change |
| ReminderRoutes.EmptyPatch | backend/app/api/routes_reminders.py:229-252 | an empty patch only moves `updated_at` |
| ReminderRoutes.UpdateReminder | backend/app/api/routes_reminders.py:219-272 | unknown ids (404) and unparsable times change nothing; otherwise the patched row is committed and its readback returned |
| ReminderRoutes.Orphaned | backend/app/api/routes_reminders.py:275-283 | deleting a reminder keeps the number of occurrence rows |
| ReminderRoutes.OrphanedExactly | backend/app/api/routes_reminders.py:275-283 | no occurrence points at the deleted reminder afterwards, and nothing else about any row changes |
| ReminderRoutes.DeleteReminder | backend/app/api/routes_reminders.py:275-283 | 404 changes nothing; otherwise exactly that row goes and its occurrences stay as orphans |
| ServiceRoutes.ValidateKind | backend/app/api/routes_services.py:29-34 | accepted iff the upper-cased kind is HTTP or TCP; stored upper-cased; otherwise the schema error |
| ServiceRoutes.ValidateKindCaseless | backend/app/api/routes_services.py:29-34 | the validator ignores case, and an accepted kind passes again unchanged |
| ServiceRoutes.ServiceOut | backend/app/api/routes_services.py:53-59 | a stored row answers iff its upper-cased kind is HTTP or TCP, with the kind upper-cased |
| ServiceRoutes.FindService | backend/app/api/routes_services.py:73 | the position of the service with the id, or -1 when there is none |
| ServiceRoutes.FindSlug | backend/app/api/routes_services.py:82 | the position of a service holding the slug, or -1 when there is none |
| ServiceRoutes.FoundIsOnly | backend/app/api/routes_services.py:73 | with unique keys, the row found for an id is the only one |
| ServiceRoutes.NewServiceReadsBack | backend/app/api/routes_services.py:86-101 | an accepted kind is stored and returned unchanged |
| ServiceRoutes.AppendKeepsValid | backend/app/api/routes_services.py:86-101 | appending a row with a fresh key and slug keeps keys, unique slugs and status owners |
| ServiceRoutes.CreateService | backend/app/api/routes_services.py:79-101 | a bad kind gives the schema error and a taken slug gives 400, both with nothing stored; otherwise the row is appended and returned |
| ServiceRoutes.GetService | backend/app/api/routes_services.py:71-76 | 404 for an unknown id, otherwise the row through the response schema |
| ServiceRoutes.ListServices | backend/app/api/routes_services.py:65-68 | succeeds iff every row passes the response schema, giving one answer per row |
| ServiceRoutes.PatchChangesOnlyGiven | backend/app/api/routes_services.py:112-134 | a field left out keeps its value; a given one takes it (kind upper-cased, not validated); `updated_at` moves to now; key and creation time never change |
| ServiceRoutes.SlugFreeForOthers | backend/app/api/routes_services.py:114-118 | when the slug check passes, no other row holds the updated row's slug |
| ServiceRoutes.PatchKeepsValid | backend/app/api/routes_services.py:104-138 | replacing a row by its patch keeps the table valid once the slug check passed |
| ServiceRoutes.UpdateService | backend/app/api/routes_services.py:104-138 | 404, or 400 when another service holds the slug, both with nothing changed; otherwise the patched row is stored and read back through the schema |
| ServiceRoutes.OwnSlugAllowed | backend/app/api/routes_services.py:114-118 | re-sending a service's own slug is never refused |
| ServiceRoutes.DropStatusExactly | backend/app/api/routes_services.py:148-149 | deleting a service removes exactly the status rows that point at it and keeps the others |
| ServiceRoutes.DeleteKeepsValid | backend/app/api/routes_services.py:141-153 | deleting a service and its status keeps the table valid |
| ServiceRoutes.RemoveKeepsServiceKeys | backend/app/api/routes_services.py:141-153 | removing a service keeps keys ascending and slugs unique |
| ServiceRoutes.DropStatusKeepsKeys | backend/app/api/routes_services.py:148-149 | removing the status row keeps status keys ascending and one row per service |
| ServiceRoutes.DropStatusKeepsOwners | backend/app/api/routes_services.py:141-153 | every remaining status row still belongs to a remaining service |
| ServiceRoutes.DeleteService | backend/app/api/routes_services.py:141-153 | 404 changes nothing; otherwise the service and its status row are deleted together |
| ServiceRoutes.DeleteLeavesNoTrace | backend/app/api/routes_services.py:141-153 | afterwards no service has that id and no status row points at it |
| WordRoutes.FindWord | backend/app/api/routes_words.py:52 | the position of the word with the id, or -1 when there is none |
| WordRoutes.FindText | backend/app/api/routes_words.py:61 | the position of a word with the text, or -1 when there is none |
| WordRoutes.CreateWord | backend/app/api/routes_words.py:58-74 | an existing text gives 400 "Word already exists" with nothing stored; otherwise the row is appended and returned |
| WordRoutes.GetWord | backend/app/api/routes_words.py:50-55 | 404 for an unknown id, otherwise the row |
| WordRoutes.ListWords | backend/app/api/routes_words.py:45-47 | every word, by ascending id |
| WordRoutes.PatchChangesOnlyGiven | backend/app/api/routes_words.py:83-101 | a field left out keeps its value, a given one takes it, `updated_at` moves to now, and the key and creation time never change |
| WordRoutes.PatchKeepsValid | backend/app/api/routes_words.py:85-99 | once the text check passed, the patched table keeps keys and unique texts |
| WordRoutes.OwnTextAllowed | backend/app/api/routes_words.py:87-89 | re-sending a word's own text is never refused |
| WordRoutes.UpdateWord | backend/app/api/routes_words.py:77-105 | 404, or 400 when another word holds the text, both with nothing changed; otherwise the patched row is stored and returned |
| WordRoutes.DeleteWord | backend/app/api/routes_words.py:108-116 | 404 changes nothing; otherwise exactly that row goes |
| WordRoutes.DeleteExactly | backend/app/api/routes_words.py:108-116 | afterwards no word has that id and every other word is still there |
| TelegramRoutes.ChatTypeOr | backend/app/api/routes_telegram.py:35-44 | a null or empty chat type falls back; any other is kept |
| TelegramRoutes.FindChat | backend/app/api/routes_telegram.py:28 | the first row with the chat id, or -1 when there is none |
| TelegramRoutes.RegisterChat | backend/app/api/routes_telegram.py:26-53 | the table becomes the upsert of the request. The answer is ok with the chat id and the enabled flag: true for a new chat, the stored flag otherwise |
| TelegramRoutes.UpsertKeepsValid | backend/app/api/routes_telegram.py:32-48 | registration keeps ids ascending and chat ids unique |
| TelegramRoutes.AppendKeepsValid | backend/app/api/routes_telegram.py:32-42 | inserting an unknown chat with the next id keeps the table valid |
| TelegramRoutes.ReplaceKeepsValid | backend/app/api/routes_telegram.py:43-48 | refreshing a row in place keeps the table valid |
| TelegramRoutes.UpsertRegisters | backend/app/api/routes_telegram.py:28-48 | afterwards the chat has exactly one row, holding the request's username and title and last seen now. A new row is enabled and first seen now with the chat type defaulting to private; a known row keeps its id, enabled flag and first-seen time |
| TelegramRoutes.UpsertOthersUnchanged | backend/app/api/routes_telegram.py:28-48 | other chats' rows are untouched and at most one row is added |
| TelegramRoutes.UpsertIdempotent | backend/app/api/routes_telegram.py:26-53 | registering the same request twice at the same instant is registering once |
| Seed.SeedInitialData | backend/app/core/seed.py:9-75 | each table is seeded as its seed function says, and all four tables stay valid |
| Seed.SeedWordTable | backend/app/core/seed.py:11-19 | the word table becomes the seeded words |
| Seed.SeedServiceTable | backend/app/core/seed.py:21-43 | the services and statuses become the seeded pair |
| Seed.SeedReminderTable | backend/app/core/seed.py:45-73 | the reminders and occurrences become the seeded pair |
| Seed.SeedOnlyEmpty | backend/app/core/seed.py:9-75 | a table with rows is never touched |
| Seed.SeedFillsEmpty | backend/app/core/seed.py:9-75 | an empty table gets exactly one row, plus one status row or one occurrence |
| Seed.SeedWordsIdempotent | backend/app/core/seed.py:12-19 | seeding words twice, at any two instants, is seeding once |
| Seed.SeedServicesIdempotent | backend/app/core/seed.py:22-43 | seeding services twice is seeding once |
| Seed.SeedRemindersIdempotent | backend/app/core/seed.py:46-73 | seeding reminders twice, on any days, is seeding once |
| Seed.SeedServicesValid | backend/app/core/seed.py:22-43 | the seeded service table is valid: one service, and a status row that belongs to it |
| Seed.SeedOccurrenceIsScheduled | backend/app/core/seed.py:61-73 | the seeded occurrence is exactly the one the scheduler would create for the seeded reminder today (its grace-before is 0), and the reminder fires today |
| Seed.SeedThenMaterializeNothing | backend/app/core/seed.py:46-73 | after seeding, materialising the same day creates nothing more |
| PollingBot.ServiceLines | backend/app/integrations/telegram_polling_bot.py:77-79 | one line per service, in order |
| PollingBot.FormatTodayMessage | backend/app/integrations/telegram_polling_bot.py:53-86 | the loop builds the lines of the message, joined by newlines |
| PollingBot.TodayShape | backend/app/integrations/telegram_polling_bot.py:59-86 | the summary is on line 3. Line 4 is the Next line exactly when a next reminder is given. Then comes the services header with one line per service in order, or the single "No services configured." line, and the mood line comes last |
| PollingBot.ServiceLineMark | backend/app/integrations/telegram_polling_bot.py:78-79 | a service line starts with the green dot iff the service is up, and with the red dot iff it is down |
| PollingBot.DayName | backend/app/integrations/telegram_polling_bot.py:95-107 | list indexing: -7..6 succeed (0..6 give Mon..Sun), anything else raises IndexError |
| PollingBot.DayList | backend/app/integrations/telegram_polling_bot.py:107 | the only failure is IndexError |
| PollingBot.Schedule | backend/app/integrations/telegram_polling_bot.py:103-110 | the only failure is IndexError |
| PollingBot.ReminderLine | backend/app/integrations/telegram_polling_bot.py:97-112 | the only failure is IndexError |
| PollingBot.RemindersLines | backend/app/integrations/telegram_polling_bot.py:93-112 | the only failure is IndexError |
| PollingBot.FormatRemindersMessage | backend/app/integrations/telegram_polling_bot.py:89-114 | the loop's result is the reminders message |
| PollingBot.RemindersShape | backend/app/integrations/telegram_polling_bot.py:89-114 | an empty list gives the fixed text. The message fails iff some reminder's line fails; otherwise it is the header plus one line per reminder in order |
| PollingBot.ScheduleByKind | backend/app/integrations/telegram_polling_bot.py:103-110 | "daily at T"; "weekly on" the day names, or "no days"; any other kind is printed as is. Failure iff a WEEKLY day is outside -7..6 |
| PollingBot.ApiRemindersFormat | backend/app/integrations/telegram_polling_bot.py:89-114 | reminders as the API answers them (days within 0..6) never make the bot raise |
| PollingBot.DispatchByPrefix | backend/app/integrations/telegram_polling_bot.py:123-156 | each command is chosen exactly when the text starts with its prefix; anything else gets the default reply |
| PollingBot.HandleCommand | backend/app/integrations/telegram_polling_bot.py:117-156 | /today and /reminders reply in Markdown and the others in plain text. It fails only when the /reminders message fails |
| PollingBot.PollBatch | backend/app/integrations/telegram_polling_bot.py:180-194 | the loop over one `getUpdates` answer ends in exactly the state `Poll` describes: offset, commands handed to `handle_command` in order, and the error of the first command that raised, after which the batch stops |
| PollingBot.PollStopsAtError | backend/app/integrations/telegram_polling_bot.py:180-194 | once a command has raised, later updates change nothing: the offset stays where that update left it |
| PollingBot.PollHandledPrefix | backend/app/integrations/telegram_polling_bot.py:180-194 | the commands handed on are a prefix of the accepted updates' commands. If nothing raised, they are all of them and the offset is the last update id plus one (unchanged for an empty batch) |
| PollingBot.PollErrors | backend/app/integrations/telegram_polling_bot.py:180-194 | if nothing raised, every command handed on succeeded. If something raised, it is the last command handed on, its error is the batch's error, and every earlier command succeeded |
| PollingBot.PollAllOk | backend/app/integrations/telegram_polling_bot.py:180-194 | when no accepted command raises, the batch ends with no error, every accepted command handed on, and the offset past the last update |
| PollingBot.ApiBatchCompletes | backend/app/integrations/telegram_polling_bot.py:117-194 | with reminders whose days are all within 0..6, as the API returns them, no command of a batch raises, so the whole batch is handled |
| PollingBot.HandledExactly | backend/app/integrations/telegram_polling_bot.py:183-194 | exactly the updates with a message, a non-zero chat id and non-empty text are handled, in order, with their text stripped |

## Left out

- The network: HTTP and TCP probes, Telegram's `getUpdates` and `sendMessage`, and the bot's calls to the backend are parameters or left out. Latency is an opaque measurement; its floating-point value and the clock that measures it are not modelled.
- Concurrency and the async loops: the sleeps between cycles, and two consumers claiming at once. The claim is modelled as one atomic step; SQLite serialises the real writes.
- JSON: payloads are stored as the notification map itself, and `json.loads`/`json.dumps` are not modelled. A payload that does not decode gives `{}` in the claim response, which cannot happen to the stored map.
- Date and time parsing of query strings (`?date=YYYY-MM-DD`, `one_off_at` bodies): the model takes the parsed day or instant, so a malformed date's ValueError is not modelled.
- Schema migrations (`ensure_schema_compatibility`, `ensure_notification_schema`) are not modelled; the `alerted_at` column they add appears only where the Findings need it.
- String handling is limited to ASCII: `upper`/`lower` fold ASCII letters only, and `int()` accepts only ASCII digits (Python also takes Unicode digits and `_` separators).
- Length limits of the Telegram chat columns (`String(32)`, `String(128)`, `String(256)`) are not modelled.
- Explicit `null` for a non-nullable field of a partial update (word text, definition, reminder label, service name, and so on) is not modelled. The patch types can only leave such fields out; the real code would hit a NOT NULL error or a response validation error.
- Explicit `null` for the nullable boolean and integer columns that the model keeps as plain values. These are `reminders.enabled` (backend/app/models/reminders.py:25); `check_interval_sec`, `timeout_sec`, `enabled`, `alert_on_down` and `alert_on_recovery` of services (backend/app/models/services.py:27-32); and `words.active` (backend/app/models/words.py:17). The update schemas accept `null` for them (backend/app/api/routes_reminders.py:76, backend/app/api/routes_services.py:46-50, backend/app/api/routes_words.py:31), and the routes assign it (backend/app/api/routes_reminders.py:249-250, backend/app/api/routes_services.py:123-132, backend/app/api/routes_words.py:98-99). So the real PATCH commits NULL and then fails the response schema (`bool` or `int`) with a 500. The NULL also stays behind: the `enabled == True` query skips such a service, `should_fire` treats such a reminder as disabled, and a NULL `timeout_sec` removes the probe timeout. The patch types `ReminderPatch`, `ServicePatch` and `WordPatch` can only leave these fields out or set a value, and the rows hold a plain `bool` or `int`.
- SQL row order: queries without `ORDER BY` (occurrence listing, enabled services, reminders) are taken in key order. Claim ties on `created_at` are broken by table position.
- Ack response: an event whose `attempt_count` is null would fail the `AckResponse` schema after the commit. The model answers with the stored value.
- In the bot, a `next` object or a message that is an empty dictionary counts as absent, as Python's truthiness does, and `summary["next"]` is taken as present or absent. Missing keys in the backend's answer (KeyError) are not modelled.
- Alerting on up/down changes and `check_interval_sec`: the service checker does not act on `alert_on_down`, `alert_on_recovery` or the per-service interval, and neither does the model.
- `/status/today` is a fixed stub and the assistant chat is an LLM call; neither is modelled. telegram_bot.py and config.py are not part of this model.
- Package exports: backend/app/models/__init__.py:1-11 exports neither `TelegramChat` nor `NotificationEvent`. So as written the imports at backend/app/core/reminder_engine.py:10, backend/app/core/notifications.py:10, backend/app/api/routes_notifications.py:11 and backend/app/api/routes_telegram.py:8 raise ImportError, and none of these modules loads. The model assumes both classes are exported (they are defined at backend/app/models/telegram.py:9 and backend/app/models/notification.py:8), and the two Findings presuppose this fix.
- PollBatch: an exception from `handle_command` propagates out of `polling_loop` and ends the bot process. The model returns that error and stops the batch; the process ending and what `main` does afterwards are not modelled.
- Handler exceptions are swallowed and printed. Only the call is recorded in the model, not what the handler does.

## Findings

| source | as written | input that shows it | evidently intended | confidence | as-written member | corrected member |
|---|---|---|---|---|---|---|
| backend/app/core/reminder_engine.py:77 | the due instant is chosen by testing `kind`, a name that is only local to `reminder_should_fire_on`, so NameError is raised whenever an occurrence would be created, and nothing is committed (this presupposes the ImportError of line 10 is fixed; see Left out) | the seeded DAILY reminder "Morning pills" on an empty occurrence table | test the reminder's upper-cased `schedule_kind`, so ONE_OFF uses `one_off_at` and the others use the day at `time_of_day` | high (by reading; not executed) | ReminderEngine.DailyReminderAsWritten | ReminderEngine.MaterializeAll |
| backend/app/core/reminder_engine.py:143-147 | the notify query filters on `ReminderOccurrence.alerted_at`, which the mapped class (models/reminders.py:33-52) does not declare; only the table gains the column (line 114), so every cycle that gets past materialisation raises AttributeError before alerting (this presupposes the ImportError of line 10 is fixed; see Left out) | any cycle that creates no occurrence, even on empty tables | declare `alerted_at` on the model so that due occurrences are alerted once | high (by reading; not executed) | ReminderEngine.CycleAsWrittenNeverAlerts | ReminderEngine.NotifyDue |
