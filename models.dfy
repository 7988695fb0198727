/** The persisted rows of the backend (one datatype per table, with the column defaults
    as named constants) and one class per table holding its rows in primary-key order. */
module Models {
  import opened Wrappers
  import opened Clock

  // ---------- reminders ----------

  datatype Reminder = Reminder(
    id: int,
    name: string,                     // the `label` column (`label` is a Dafny keyword)
    description: Option<string>,
    scheduleKind: string,            // "DAILY", "WEEKLY" or "ONE_OFF" as written by the API
    timeOfDay: TimeOfDay,
    daysOfWeek: Option<string>,       // comma-separated weekday numbers, e.g. "1,3,5"
    oneOffAt: Option<Timestamp>,
    graceBeforeMin: Option<int>,
    graceAfterMin: Option<int>,
    channels: Option<string>,         // comma-separated channel names
    enabled: bool,
    createdAt: Timestamp,
    updatedAt: Timestamp)

  const DefaultChannels := "telegram,esp32"

  datatype OccState = Pending | Done | Missed | Skipped {
    /** The text stored in the `state` column. */
    function Name(): string {
      match this
      case Pending => "PENDING"
      case Done => "DONE"
      case Missed => "MISSED"
      case Skipped => "SKIPPED"
    }
  }

  datatype Occurrence = Occurrence(
    id: int,
    reminderId: Option<int>,          // None once the owning reminder has been deleted
    dueAt: Timestamp,
    windowStartAt: Timestamp,
    windowEndAt: Timestamp,
    state: OccState,
    doneAt: Option<Timestamp>,
    skippedAt: Option<Timestamp>,
    note: Option<string>,
    alertedAt: Option<Timestamp>,
    createdAt: Timestamp,
    updatedAt: Timestamp)

  // ---------- services ----------

  datatype Service = Service(
    id: int,
    name: string,
    slug: string,
    kind: string,                     // "HTTP" or "TCP"
    target: string,                   // a URL, or "host:port"
    checkIntervalSec: int,
    timeoutSec: int,
    enabled: bool,
    alertOnDown: bool,
    alertOnRecovery: bool,
    createdAt: Timestamp,
    updatedAt: Timestamp)

  /** Latency in milliseconds; the floating-point measurement is not modelled. */
  type Latency = real

  datatype ServiceStatus = ServiceStatus(
    id: int,
    serviceId: int,
    isUp: bool,
    latencyMs: Option<Latency>,
    lastCheckedAt: Option<Timestamp>,
    consecutiveFailures: int,
    lastChangeAt: Option<Timestamp>)

  // ---------- words ----------

  datatype Word = Word(
    id: int,
    word: string,
    definition: string,
    extraJson: Option<string>,
    active: bool,
    createdAt: Timestamp,
    updatedAt: Timestamp)

  // ---------- telegram chats ----------

  datatype TelegramChat = TelegramChat(
    id: int,
    chatId: int,
    chatType: string,                 // private, group, supergroup or channel
    username: Option<string>,
    title: Option<string>,
    enabled: bool,
    firstSeenAt: Timestamp,
    lastSeenAt: Timestamp)

  const DefaultChatType := "private"

  // ---------- notification events ----------

  datatype EventStatus = EvPending | EvSending | EvFailed | EvSent {
    function Name(): string {
      match this
      case EvPending => "PENDING"
      case EvSending => "SENDING"
      case EvFailed => "FAILED"
      case EvSent => "SENT"
    }
  }

  /** One value of a notification dictionary; instants travel as their
      `isoformat()` text (see `Clock.IsoFormat`). */
  datatype Value = VStr(s: string) | VInt(i: int) | VNull

  /** A notification as emitted: a dictionary from keys to values. */
  type Notification = map<string, Value>

  datatype NotificationEvent = NotificationEvent(
    id: int,
    channel: string,
    payload: Notification,            // the JSON text of the notification, kept as the value itself
    status: EventStatus,
    attemptCount: Option<int>,
    lastError: Option<string>,
    lockedAt: Option<Timestamp>,
    lockedBy: Option<string>,
    sentAt: Option<Timestamp>,
    createdAt: Timestamp,
    updatedAt: Timestamp,
    ackedAt: Option<Timestamp>)

  const DefaultAttemptCount := 0

  // ---------- primary keys ----------
  // A table's rows are kept in ascending primary-key order, starting at 1; a new row
  // gets one more than the largest key, as SQLite assigns rowids.

  predicate ReminderKeys(rows: seq<Reminder>) {
    && (forall i :: 0 <= i < |rows| ==> rows[i].id >= 1)
    && (forall i, j :: 0 <= i < j < |rows| ==> rows[i].id < rows[j].id)
  }

  function NextReminderId(rows: seq<Reminder>): (id: int)
    requires ReminderKeys(rows)
    ensures id >= 1 && forall i :: 0 <= i < |rows| ==> rows[i].id < id
  {
    if |rows| == 0 then 1 else rows[|rows| - 1].id + 1
  }

  predicate OccurrenceKeys(rows: seq<Occurrence>) {
    && (forall i :: 0 <= i < |rows| ==> rows[i].id >= 1)
    && (forall i, j :: 0 <= i < j < |rows| ==> rows[i].id < rows[j].id)
  }

  function NextOccurrenceId(rows: seq<Occurrence>): (id: int)
    requires OccurrenceKeys(rows)
    ensures id >= 1 && forall i :: 0 <= i < |rows| ==> rows[i].id < id
  {
    if |rows| == 0 then 1 else rows[|rows| - 1].id + 1
  }

  predicate ServiceKeys(rows: seq<Service>) {
    && (forall i :: 0 <= i < |rows| ==> rows[i].id >= 1)
    && (forall i, j :: 0 <= i < j < |rows| ==> rows[i].id < rows[j].id)
  }

  function NextServiceId(rows: seq<Service>): (id: int)
    requires ServiceKeys(rows)
    ensures id >= 1 && forall i :: 0 <= i < |rows| ==> rows[i].id < id
  {
    if |rows| == 0 then 1 else rows[|rows| - 1].id + 1
  }

  predicate StatusKeys(rows: seq<ServiceStatus>) {
    && (forall i :: 0 <= i < |rows| ==> rows[i].id >= 1)
    && (forall i, j :: 0 <= i < j < |rows| ==> rows[i].id < rows[j].id)
  }

  function NextStatusId(rows: seq<ServiceStatus>): (id: int)
    requires StatusKeys(rows)
    ensures id >= 1 && forall i :: 0 <= i < |rows| ==> rows[i].id < id
  {
    if |rows| == 0 then 1 else rows[|rows| - 1].id + 1
  }

  predicate WordKeys(rows: seq<Word>) {
    && (forall i :: 0 <= i < |rows| ==> rows[i].id >= 1)
    && (forall i, j :: 0 <= i < j < |rows| ==> rows[i].id < rows[j].id)
  }

  function NextWordId(rows: seq<Word>): (id: int)
    requires WordKeys(rows)
    ensures id >= 1 && forall i :: 0 <= i < |rows| ==> rows[i].id < id
  {
    if |rows| == 0 then 1 else rows[|rows| - 1].id + 1
  }

  predicate ChatKeys(rows: seq<TelegramChat>) {
    && (forall i :: 0 <= i < |rows| ==> rows[i].id >= 1)
    && (forall i, j :: 0 <= i < j < |rows| ==> rows[i].id < rows[j].id)
  }

  function NextChatId(rows: seq<TelegramChat>): (id: int)
    requires ChatKeys(rows)
    ensures id >= 1 && forall i :: 0 <= i < |rows| ==> rows[i].id < id
  {
    if |rows| == 0 then 1 else rows[|rows| - 1].id + 1
  }

  predicate EventKeys(rows: seq<NotificationEvent>) {
    && (forall i :: 0 <= i < |rows| ==> rows[i].id >= 1)
    && (forall i, j :: 0 <= i < j < |rows| ==> rows[i].id < rows[j].id)
  }

  function NextEventId(rows: seq<NotificationEvent>): (id: int)
    requires EventKeys(rows)
    ensures id >= 1 && forall i :: 0 <= i < |rows| ==> rows[i].id < id
  {
    if |rows| == 0 then 1 else rows[|rows| - 1].id + 1
  }

  // ---------- tables ----------

  class ReminderTable {
    var rows: seq<Reminder>

    predicate Valid()
      reads this
    {
      ReminderKeys(rows)
    }

    constructor ()
      ensures Valid() && rows == []
    {
      rows := [];
    }
  }

  /** done_at and skipped_at are never both set. */
  predicate Settled(o: Occurrence) {
    !(o.doneAt.Some? && o.skippedAt.Some?)
  }

  class OccurrenceTable {
    var rows: seq<Occurrence>

    predicate Valid()
      reads this
    {
      OccurrenceKeys(rows) && forall i :: 0 <= i < |rows| ==> Settled(rows[i])
    }

    constructor ()
      ensures Valid() && rows == []
    {
      rows := [];
    }
  }

  /** Service slugs are unique. */
  predicate UniqueSlugs(rows: seq<Service>) {
    forall i, j :: 0 <= i < j < |rows| ==> rows[i].slug != rows[j].slug
  }

  predicate HasService(rows: seq<Service>, id: int) {
    exists i :: 0 <= i < |rows| && rows[i].id == id
  }

  /** Services and their one-to-one status rows. */
  class ServiceTable {
    var services: seq<Service>
    var statuses: seq<ServiceStatus>

    predicate Valid()
      reads this
    {
      && ServiceKeys(services)
      && UniqueSlugs(services)
      && StatusKeys(statuses)
      && (forall i, j :: 0 <= i < j < |statuses| ==> statuses[i].serviceId != statuses[j].serviceId)
      && (forall i :: 0 <= i < |statuses| ==> HasService(services, statuses[i].serviceId))
    }

    constructor ()
      ensures Valid() && services == [] && statuses == []
    {
      services, statuses := [], [];
    }
  }

  /** Word texts are unique. */
  predicate UniqueWords(rows: seq<Word>) {
    forall i, j :: 0 <= i < j < |rows| ==> rows[i].word != rows[j].word
  }

  class WordTable {
    var rows: seq<Word>

    predicate Valid()
      reads this
    {
      WordKeys(rows) && UniqueWords(rows)
    }

    constructor ()
      ensures Valid() && rows == []
    {
      rows := [];
    }
  }

  /** At most one row per Telegram chat id. */
  predicate UniqueChatIds(rows: seq<TelegramChat>) {
    forall i, j :: 0 <= i < j < |rows| ==> rows[i].chatId != rows[j].chatId
  }

  class ChatTable {
    var rows: seq<TelegramChat>

    predicate Valid()
      reads this
    {
      ChatKeys(rows) && UniqueChatIds(rows)
    }

    constructor ()
      ensures Valid() && rows == []
    {
      rows := [];
    }
  }
}
