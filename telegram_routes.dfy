/** Registration of Telegram chats: the first call for a chat id inserts an enabled
    row, later calls refresh its details and leave its `enabled` flag alone. */
module TelegramRoutes {
  import opened Wrappers
  import opened Clock
  import opened Seqs
  import opened Models

  /** The register request; `chatType` is `Some("private")` when the field is omitted,
      and `None` when it is sent as null. */
  datatype RegisterRequest = RegisterRequest(
    chatId: int,
    chatType: Option<string>,
    username: Option<string>,
    title: Option<string>)

  datatype RegisterResponse = RegisterResponse(ok: bool, chatId: int, enabled: bool)

  /** `payload.chat_type or fallback`: null and the empty string are both falsy. */
  function ChatTypeOr(given: Option<string>, fallback: string): (t: string)
    ensures given.Some? && given.value != "" ==> t == given.value
    ensures given.None? || given.value == "" ==> t == fallback
  {
    if given.Some? && given.value != "" then given.value else fallback
  }

  /** `query(TelegramChat).filter(chat_id == ...).first()`. */
  function FindChat(rows: seq<TelegramChat>, chatId: int): (k: int)
    ensures -1 <= k < |rows|
    ensures k < 0 <==> forall i :: 0 <= i < |rows| ==> rows[i].chatId != chatId
    ensures k >= 0 ==> rows[k].chatId == chatId && forall i :: 0 <= i < k ==> rows[i].chatId != chatId
  {
    IndexOf(rows, (c: TelegramChat) => c.chatId == chatId)
  }

  /** The row inserted for an unknown chat. */
  function NewChat(id: int, p: RegisterRequest, now: Timestamp): TelegramChat {
    TelegramChat(id, p.chatId, ChatTypeOr(p.chatType, DefaultChatType), p.username, p.title, true, now, now)
  }

  /** The update of a known chat: username and title are overwritten even with null. */
  function Refresh(c: TelegramChat, p: RegisterRequest, now: Timestamp): TelegramChat {
    c.(chatType := ChatTypeOr(p.chatType, c.chatType), username := p.username, title := p.title,
       lastSeenAt := now)
  }

  /** The table after `register_chat`. */
  function Upsert(rows: seq<TelegramChat>, p: RegisterRequest, now: Timestamp): seq<TelegramChat>
    requires ChatKeys(rows)
  {
    var k := FindChat(rows, p.chatId);
    if k < 0 then rows + [NewChat(NextChatId(rows), p, now)] else rows[k := Refresh(rows[k], p, now)]
  }

  /** `POST /integrations/telegram/register`. */
  method RegisterChat(table: ChatTable, p: RegisterRequest, now: Timestamp) returns (res: RegisterResponse)
    requires table.Valid()
    modifies table
    ensures table.Valid()
    ensures table.rows == Upsert(old(table.rows), p, now)
    ensures var k := FindChat(old(table.rows), p.chatId);
      res == RegisterResponse(true, p.chatId, k < 0 || old(table.rows)[k].enabled)
  {
    UpsertKeepsValid(table.rows, p, now);
    var k := FindChat(table.rows, p.chatId);
    if k < 0 {
      var chat := NewChat(NextChatId(table.rows), p, now);
      table.rows := table.rows + [chat];
      res := RegisterResponse(true, chat.chatId, chat.enabled);
    } else {
      var chat := Refresh(table.rows[k], p, now);
      table.rows := table.rows[k := chat];
      res := RegisterResponse(true, chat.chatId, chat.enabled);
    }
  }

  /** Registration keeps ids ascending and chat ids unique. */
  lemma UpsertKeepsValid(rows: seq<TelegramChat>, p: RegisterRequest, now: Timestamp)
    requires ChatKeys(rows) && UniqueChatIds(rows)
    ensures ChatKeys(Upsert(rows, p, now)) && UniqueChatIds(Upsert(rows, p, now))
  {
    var k := FindChat(rows, p.chatId);
    if k < 0 {
      AppendKeepsValid(rows, NewChat(NextChatId(rows), p, now));
    } else {
      ReplaceKeepsValid(rows, k, Refresh(rows[k], p, now));
    }
  }

  lemma AppendKeepsValid(rows: seq<TelegramChat>, c: TelegramChat)
    requires ChatKeys(rows) && UniqueChatIds(rows)
    requires c.id == NextChatId(rows)
    requires forall i :: 0 <= i < |rows| ==> rows[i].chatId != c.chatId
    ensures ChatKeys(rows + [c]) && UniqueChatIds(rows + [c])
  {
  }

  lemma ReplaceKeepsValid(rows: seq<TelegramChat>, k: int, c: TelegramChat)
    requires ChatKeys(rows) && UniqueChatIds(rows) && 0 <= k < |rows|
    requires c.id == rows[k].id && c.chatId == rows[k].chatId
    ensures ChatKeys(rows[k := c]) && UniqueChatIds(rows[k := c])
  {
  }

  /** Afterwards the chat id has exactly one row, carrying the request's details and
      `now` as last-seen time; `enabled` and the first-seen time are those of the old
      row when there was one, `true` and `now` otherwise. */
  lemma UpsertRegisters(rows: seq<TelegramChat>, p: RegisterRequest, now: Timestamp)
    requires ChatKeys(rows) && UniqueChatIds(rows)
    ensures var r := Upsert(rows, p, now); var k := FindChat(r, p.chatId); var old_k := FindChat(rows, p.chatId);
      && k >= 0
      && (forall i :: 0 <= i < |r| && i != k ==> r[i].chatId != p.chatId)
      && r[k].username == p.username && r[k].title == p.title && r[k].lastSeenAt == now
      && (old_k < 0 ==> k == |rows| && r[k].enabled && r[k].firstSeenAt == now
                        && r[k].chatType == ChatTypeOr(p.chatType, DefaultChatType))
      && (old_k >= 0 ==> k == old_k && r[k].id == rows[old_k].id && r[k].enabled == rows[old_k].enabled
                         && r[k].firstSeenAt == rows[old_k].firstSeenAt
                         && r[k].chatType == ChatTypeOr(p.chatType, rows[old_k].chatType))
  {
    UpsertKeepsValid(rows, p, now);
    var r := Upsert(rows, p, now);
    var old_k := FindChat(rows, p.chatId);
    var pos := if old_k < 0 then |rows| else old_k;
    assert r[pos].chatId == p.chatId;
    var k := FindChat(r, p.chatId);
    assert k >= 0 && r[k].chatId == r[pos].chatId;
  }

  /** Rows of other chats are untouched, and at most one row is added. */
  lemma UpsertOthersUnchanged(rows: seq<TelegramChat>, p: RegisterRequest, now: Timestamp)
    requires ChatKeys(rows)
    ensures var r := Upsert(rows, p, now);
      && |rows| <= |r| <= |rows| + 1
      && forall i :: 0 <= i < |rows| && rows[i].chatId != p.chatId ==> r[i] == rows[i]
  {
  }

  /** Registering the same request twice at the same instant is the same as once. */
  lemma {:induction false} UpsertIdempotent(rows: seq<TelegramChat>, p: RegisterRequest, now: Timestamp)
    requires ChatKeys(rows) && UniqueChatIds(rows)
    ensures ChatKeys(Upsert(rows, p, now))
    ensures Upsert(Upsert(rows, p, now), p, now) == Upsert(rows, p, now)
  {
    UpsertKeepsValid(rows, p, now);
    UpsertRegisters(rows, p, now);
    var r := Upsert(rows, p, now);
    var k := FindChat(r, p.chatId);
    assert Refresh(r[k], p, now) == r[k];
  }
}
