/**
 The bookkeeping of the Telegram front end of the assistant
 (`TelegramAssistant`): the long-polling offset, the allow-list, the two
 built-in commands, the per-user conversation histories and the per-chat
 status messages. Every Telegram API call the bot makes is recorded, in
 order, in `outbox`; what a call returned (a message id, or 0 on failure)
 is passed in as a parameter.
 */
module Telegram {
  import opened Wrappers

  // ----- Fixed texts -----

  const WelcomeMessage: string :=
    "\U{1F44B} Hello! I'm an anime resource download assistant.\n\n"
    + "I can help you:\n"
    + "1\U{FE0F}\U{20E3} Download anime resources from RSS feeds\n"
    + "2\U{FE0F}\U{20E3} Search for resources on mikan.moe, dmhy, acg.rip and other websites\n"
    + "3\U{FE0F}\U{20E3} View search results and decide what to download\n\n"
    + "Usage examples:\n"
    + "- \"Search for Frieren\"\n"
    + "- \"Search for Oshi no Ko on mikan\"\n"
    + "- \"Download this RSS: https://mikan.moe/RSS/...\"\n\n"
    + "Note: I will respond in the same language you use to communicate with me!\n\n"
    + "Start chatting with me!"
  const UnauthorizedMessage: string := "\U{274C} You are not authorized to use this bot"
  const HistoryClearedMessage: string := "\U{2705} Conversation history cleared"
  const ErrorPrefix: string := "\U{274C} Error processing message: "

  const StartCommand: string := "/start"
  const ClearCommand: string := "/clear"

  const ThinkingText: string := "\U{1F914} 正在思考..."
  const FinalizingText: string := "\U{270D}\U{FE0F} 正在整理回复..."
  const DownloadingPrefix: string := "\U{2B07}\U{FE0F} 正在下载: "
  const SearchingText: string := "\U{1F50D} 正在搜索动画资源..."
  const ParsingRssText: string := "\U{1F4E1} 正在解析 RSS 订阅..."
  const QueryingText: string := "\U{1F4BE} 正在查询下载历史数据库..."
  const ExecutingPrefix: string := "\U{2699}\U{FE0F} 正在执行 "
  const ExecutingSuffix: string := "..."
  const ProcessingText: string := "\U{2699}\U{FE0F} 正在处理中..."

  const DownloadTool: string := "download_resource"
  const SearchTool: string := "search_anime_resources"
  const ParseRssTool: string := "parse_rss"
  const SqlTool: string := "execute_sql_query"

  // ----- Updates -----

  /**
   The fields of an incoming message that the bot reads: `chat.id`,
   `from.id` and `text`, each absent when the key (or the enclosing object)
   is missing.
   */
  datatype Message = Message(chatId: Option<int>, fromId: Option<int>, text: Option<string>)

  /** An update from `getUpdates`; `message` is None when it is absent or empty. */
  datatype Update = Update(updateId: Option<int>, message: Option<Message>)

  /** What a message is answered from: the chat, the sender (possibly unknown) and the text. */
  datatype MessageContext = MessageContext(chatId: int, userId: Option<int>, text: string)

  /** Python truthiness of an optional integer: present and non-zero. */
  predicate TruthyInt(x: Option<int>) {
    x.Some? && x.value != 0
  }

  /** Python truthiness of an optional string: present and non-empty. */
  predicate TruthyText(x: Option<string>) {
    x.Some? && x.value != ""
  }

  /**
   `_update_polling_offset`: the offset after seeing an update id. It never
   moves back, it passes every truthy id, and a missing or zero id leaves it
   where it was.
   */
  function NextOffset(offset: int, updateId: Option<int>): (r: int)
    ensures r >= offset
    ensures TruthyInt(updateId) ==> r >= updateId.value + 1
    ensures TruthyInt(updateId) ==> r == offset || r == updateId.value + 1
    ensures !TruthyInt(updateId) ==> r == offset
  {
    if TruthyInt(updateId) then
      if offset >= updateId.value + 1 then offset else updateId.value + 1
    else offset
  }

  /** The offset after a run of updates, seen in order. */
  function OffsetAfter(offset: int, ids: seq<Option<int>>): int
  {
    if ids == [] then offset else NextOffset(OffsetAfter(offset, ids[..|ids| - 1]), ids[|ids| - 1])
  }

  /**
   Over any run of updates the offset never decreases and ends past every
   truthy update id seen, so no acknowledged update is fetched again.
   */
  lemma {:induction false} OffsetAfterPassesAll(offset: int, ids: seq<Option<int>>)
    ensures OffsetAfter(offset, ids) >= offset
    ensures forall i :: 0 <= i < |ids| && TruthyInt(ids[i]) ==> OffsetAfter(offset, ids) > ids[i].value
    decreases |ids|
  {
    if ids != [] {
      var prefix := ids[..|ids| - 1];
      OffsetAfterPassesAll(offset, prefix);
      forall i | 0 <= i < |ids| && TruthyInt(ids[i])
        ensures OffsetAfter(offset, ids) > ids[i].value
      {
        if i < |ids| - 1 {
          assert ids[i] == prefix[i];
        }
      }
    }
  }

  /**
   `_extract_message_context`: a context exactly when the message is present
   and both its chat id and its text are truthy; the sender may be unknown.
   */
  function ExtractMessageContext(update: Update): (r: Option<MessageContext>)
    ensures r.Some? <==>
      update.message.Some? && TruthyInt(update.message.value.chatId) && TruthyText(update.message.value.text)
    ensures r.Some? ==>
      r.value.chatId == update.message.value.chatId.value && r.value.chatId != 0
      && r.value.userId == update.message.value.fromId
      && r.value.text == update.message.value.text.value && r.value.text != ""
  {
    match update.message
    case None => None
    case Some(m) =>
      if !TruthyInt(m.chatId) || !TruthyText(m.text) then None
      else Some(MessageContext(m.chatId.value, m.fromId, m.text.value))
  }

  /** The allow-list test of `_authorize_user`: an empty list admits everybody. */
  predicate Authorized(allowed: set<int>, user: Option<int>) {
    allowed == {} || (user.Some? && user.value in allowed)
  }

  /**
   With an allow-list, a sender whose id is unknown is refused, and a known
   sender is admitted exactly when listed.
   */
  lemma AuthorizedCases(allowed: set<int>, user: Option<int>)
    ensures allowed == {} ==> Authorized(allowed, user)
    ensures allowed != {} && user.None? ==> !Authorized(allowed, user)
    ensures allowed != {} && user.Some? ==> (Authorized(allowed, user) <==> user.value in allowed)
  {
  }

  /** The only texts `_handle_command` answers itself. */
  predicate IsCommand(text: string) {
    text == StartCommand || text == ClearCommand
  }

  /** The reply to a built-in command: the welcome text or the history-cleared note. */
  function CommandReply(text: string): (r: string)
    requires IsCommand(text)
    ensures text == StartCommand ==> r == WelcomeMessage
    ensures text == ClearCommand ==> r == HistoryClearedMessage
  {
    if text == StartCommand then WelcomeMessage else HistoryClearedMessage
  }

  // ----- Status messages -----

  /** The progress events the assistant reports while it answers. */
  datatype Status = Thinking | Finalizing | ToolExecuting | OtherStatus

  /**
   The payload keys the bot reads. A missing `tool_name` reads as the empty
   string; `title` is None when missing.
   */
  datatype Payload = Payload(toolName: string, title: Option<string>)

  /** `_status_to_text`. */
  function StatusToText(status: Status, payload: Payload): (r: string)
    ensures r != []
  {
    match status
    case Thinking => ThinkingText
    case Finalizing => FinalizingText
    case ToolExecuting =>
      if payload.toolName == DownloadTool && TruthyText(payload.title) then
        DownloadingPrefix + payload.title.value
      else if payload.toolName == SearchTool then SearchingText
      else if payload.toolName == ParseRssTool then ParsingRssText
      else if payload.toolName == SqlTool then QueryingText
      else ExecutingPrefix + payload.toolName + ExecutingSuffix
    case OtherStatus => ProcessingText
  }

  /**
   Each status has its own text: thinking, finalizing and the catch-all
   status have fixed texts; a download names its title when there is one;
   the three other known tools have fixed texts; any other tool, and a
   download without a title, is named in the text.
   */
  lemma StatusTextCases(status: Status, payload: Payload)
    ensures status == Thinking ==> StatusToText(status, payload) == ThinkingText
    ensures status == Finalizing ==> StatusToText(status, payload) == FinalizingText
    ensures status == OtherStatus ==> StatusToText(status, payload) == ProcessingText
    ensures status == ToolExecuting && payload.toolName == DownloadTool && TruthyText(payload.title) ==>
      StatusToText(status, payload) == DownloadingPrefix + payload.title.value
    ensures status == ToolExecuting && payload.toolName == SearchTool ==> StatusToText(status, payload) == SearchingText
    ensures status == ToolExecuting && payload.toolName == ParseRssTool ==> StatusToText(status, payload) == ParsingRssText
    ensures status == ToolExecuting && payload.toolName == SqlTool ==> StatusToText(status, payload) == QueryingText
    ensures (status == ToolExecuting && payload.toolName != DownloadTool && payload.toolName != SearchTool
             && payload.toolName != ParseRssTool && payload.toolName != SqlTool)
      ==> StatusToText(status, payload) == ExecutingPrefix + payload.toolName + ExecutingSuffix
    ensures status == ToolExecuting && payload.toolName == DownloadTool && !TruthyText(payload.title) ==>
      StatusToText(status, payload) == ExecutingPrefix + DownloadTool + ExecutingSuffix
  {
  }

  /** A Telegram API call the bot makes. */
  datatype Outgoing =
    | SendMessage(chatId: int, text: string)
    | EditMessage(chatId: int, messageId: int, text: string)
    | DeleteMessage(chatId: int, messageId: int)

  /** Whether a chat has a tracked status message (present and non-zero). */
  predicate HasStatusMessage(table: map<int, int>, chat: int) {
    chat in table && table[chat] != 0
  }

  /** Every tracked status message id is a real one (non-zero). */
  predicate NonZeroIds(table: map<int, int>) {
    forall c :: c in table ==> table[c] != 0
  }

  /** The call `_upsert_status_message` makes: an edit of the tracked message, or a new message. */
  function UpsertCall(table: map<int, int>, chat: int, text: string): Outgoing
  {
    if HasStatusMessage(table, chat) then EditMessage(chat, table[chat], text) else SendMessage(chat, text)
  }

  /** The status table after `_upsert_status_message`, `sent` being what the send returned when one was made. */
  function UpsertedTable(table: map<int, int>, chat: int, sent: int): map<int, int>
  {
    if HasStatusMessage(table, chat) then table
    else if sent != 0 then table[chat := sent]
    else table
  }

  /**
   An upsert edits a tracked message and never replaces its id; otherwise
   it sends a new message and stores the id only when the send returned
   one. Ids stay non-zero.
   */
  lemma UpsertCases(table: map<int, int>, chat: int, text: string, sent: int)
    ensures HasStatusMessage(table, chat) ==>
      UpsertedTable(table, chat, sent) == table && UpsertCall(table, chat, text) == EditMessage(chat, table[chat], text)
    ensures !HasStatusMessage(table, chat) ==> UpsertCall(table, chat, text) == SendMessage(chat, text)
    ensures !HasStatusMessage(table, chat) && sent != 0 ==> UpsertedTable(table, chat, sent) == table[chat := sent]
    ensures !HasStatusMessage(table, chat) && sent == 0 ==> UpsertedTable(table, chat, sent) == table
    ensures NonZeroIds(table) ==> NonZeroIds(UpsertedTable(table, chat, sent))
  {
  }

  /** The call `_clear_status_message` makes: a delete when a message was tracked. */
  function ClearCalls(table: map<int, int>, chat: int): seq<Outgoing>
  {
    if HasStatusMessage(table, chat) then [DeleteMessage(chat, table[chat])] else []
  }

  /** One progress event: its status, its payload and what sending a new status message would return. */
  datatype StatusEvent = StatusEvent(status: Status, payload: Payload, sent: int)

  /** The status table after the assistant reported `events` to `chat`. */
  function TableAfterEvents(table: map<int, int>, chat: int, events: seq<StatusEvent>): map<int, int>
  {
    if events == [] then table
    else UpsertedTable(TableAfterEvents(table, chat, events[..|events| - 1]), chat, events[|events| - 1].sent)
  }

  /** The calls made while the assistant reported `events` to `chat`. */
  function CallsForEvents(table: map<int, int>, chat: int, events: seq<StatusEvent>): seq<Outgoing>
  {
    if events == [] then []
    else
      var prefix := events[..|events| - 1];
      var last := events[|events| - 1];
      CallsForEvents(table, chat, prefix)
      + [UpsertCall(TableAfterEvents(table, chat, prefix), chat, StatusToText(last.status, last.payload))]
  }

  lemma EventsStep(table: map<int, int>, chat: int, events: seq<StatusEvent>, k: nat)
    requires k < |events|
    ensures TableAfterEvents(table, chat, events[..k + 1])
         == UpsertedTable(TableAfterEvents(table, chat, events[..k]), chat, events[k].sent)
    ensures CallsForEvents(table, chat, events[..k + 1])
         == CallsForEvents(table, chat, events[..k])
            + [UpsertCall(TableAfterEvents(table, chat, events[..k]), chat,
                          StatusToText(events[k].status, events[k].payload))]
  {
    assert events[..k + 1][..k] == events[..k];
  }

  /** Progress reports to one chat never touch another chat's entry, and keep every id non-zero. */
  lemma {:induction false} EventsKeepOtherChats(table: map<int, int>, chat: int, events: seq<StatusEvent>)
    ensures forall c :: c != chat ==>
      (c in TableAfterEvents(table, chat, events) <==> c in table)
      && (c in table ==> TableAfterEvents(table, chat, events)[c] == table[c])
    ensures NonZeroIds(table) ==> NonZeroIds(TableAfterEvents(table, chat, events))
    decreases |events|
  {
    if events != [] {
      var prefix := events[..|events| - 1];
      EventsKeepOtherChats(table, chat, prefix);
      UpsertCases(TableAfterEvents(table, chat, prefix), chat, "", events[|events| - 1].sent);
    }
  }

  /** Once a chat has a status message, progress reports leave the table as it is. */
  lemma {:induction false} EventsKeepTrackedMessage(table: map<int, int>, chat: int, events: seq<StatusEvent>)
    requires HasStatusMessage(table, chat)
    ensures TableAfterEvents(table, chat, events) == table
    decreases |events|
  {
    if events != [] {
      EventsKeepTrackedMessage(table, chat, events[..|events| - 1]);
    }
  }

  /** Edits of message `id` in `chat` showing the text of each event in turn. */
  function Edits(chat: int, id: int, events: seq<StatusEvent>): seq<Outgoing>
  {
    if events == [] then []
    else
      var last := events[|events| - 1];
      Edits(chat, id, events[..|events| - 1]) + [EditMessage(chat, id, StatusToText(last.status, last.payload))]
  }

  /**
   Once a chat has a status message, every later progress report edits that
   same message: no second message is sent.
   */
  lemma {:induction false} EventsEditTrackedMessage(table: map<int, int>, chat: int, events: seq<StatusEvent>)
    requires HasStatusMessage(table, chat)
    ensures CallsForEvents(table, chat, events) == Edits(chat, table[chat], events)
    decreases |events|
  {
    if events != [] {
      var prefix, last := events[..|events| - 1], events[|events| - 1];
      EventsEditTrackedMessage(table, chat, prefix);
      EventsKeepTrackedMessage(table, chat, prefix);
    }
  }

  // ----- Histories -----

  datatype Role = UserRole | AssistantRole

  /** One history entry: who spoke and what was said. */
  datatype Turn = Turn(role: Role, content: string)

  /** Where Python's `h[k:]` starts, for a list of length `len`; a negative `k` counts from the end. */
  function SliceStart(len: nat, k: int): (r: nat)
    ensures r <= len
  {
    if k >= 0 then (if k <= len then k else len)
    else if len + k >= 0 then len + k else 0
  }

  /** `b` ends with `a`. */
  predicate IsSuffix<T(==)>(a: seq<T>, b: seq<T>) {
    |a| <= |b| && a == b[|b| - |a|..]
  }

  /**
   The trim of `_append_history`: a history longer than `m` becomes
   `h[-m:]`. With m > 0 that is the last m entries; with m = 0 the slice
   `h[-0:]` is the whole list, so nothing is dropped.
   */
  function TrimHistory(h: seq<Turn>, m: int): seq<Turn>
  {
    if |h| > m then h[SliceStart(|h|, -m)..] else h
  }

  /**
   The trim keeps a suffix; with m > 0 it keeps min(|h|, m) entries, with
   m = 0 everything, and with m < 0 all but the first -m.
   */
  lemma TrimHistoryCases(h: seq<Turn>, m: int)
    ensures IsSuffix(TrimHistory(h, m), h)
    ensures m > 0 ==> |TrimHistory(h, m)| == if |h| > m then m else |h|
    ensures m == 0 ==> TrimHistory(h, m) == h
    ensures m < 0 ==> TrimHistory(h, m) == h[if -m <= |h| then -m else |h|..]
  {
  }

  /** The history a user's turn is appended to: theirs, or a fresh one. */
  function HistoryOf(histories: map<int, seq<Turn>>, user: Option<int>): seq<Turn>
  {
    if user.Some? && user.value in histories then histories[user.value] else []
  }

  /** A history after one exchange, with a limit of `m` entries. */
  function Appended(h: seq<Turn>, userText: string, response: string, m: int): seq<Turn>
  {
    TrimHistory(h + [Turn(UserRole, userText), Turn(AssistantRole, response)], m)
  }

  /**
   With a limit of at least one exchange the history ends with the user turn
   and then the reply, holds at most m entries and is what the untrimmed
   history ends with.
   */
  lemma AppendedEndsWithExchange(h: seq<Turn>, userText: string, response: string, m: int)
    requires m >= 2
    ensures var r := Appended(h, userText, response, m);
      |r| >= 2 && |r| <= m
      && r[|r| - 2] == Turn(UserRole, userText) && r[|r| - 1] == Turn(AssistantRole, response)
      && IsSuffix(r, h + [Turn(UserRole, userText), Turn(AssistantRole, response)])
  {
    var full := h + [Turn(UserRole, userText), Turn(AssistantRole, response)];
    var r := Appended(h, userText, response, m);
    assert r == full[|full| - |r|..];
    assert r[|r| - 2] == full[|full| - 2];
  }

  /** With no limit (m = 0) the exchange is appended and nothing is dropped. */
  lemma AppendedWithoutLimit(h: seq<Turn>, userText: string, response: string)
    ensures Appended(h, userText, response, 0) == h + [Turn(UserRole, userText), Turn(AssistantRole, response)]
  {
  }

  // ----- One answer -----

  /**
   How the assistant's answer went: the progress events it reported, then
   either its reply or the text of the exception it raised.
   */
  datatype AssistantRun =
    | Replied(events: seq<StatusEvent>, response: string)
    | Raised(events: seq<StatusEvent>, error: string)

  /**
   The status table after `_process_user_message`. On a reply the chat's
   status message is dropped; when the assistant raised, it is left tracked.
   */
  function StatusAfterRun(table: map<int, int>, chat: int, run: AssistantRun): map<int, int>
  {
    var t := TableAfterEvents(table, chat, run.events);
    if run.Replied? then t - {chat} else t
  }

  /** The calls `_process_user_message` makes: status updates, then the reply or the error note. */
  function RunCalls(table: map<int, int>, chat: int, run: AssistantRun): seq<Outgoing>
  {
    var statusCalls := CallsForEvents(table, chat, run.events);
    if run.Replied? then
      statusCalls + ClearCalls(TableAfterEvents(table, chat, run.events), chat) + [SendMessage(chat, run.response)]
    else
      statusCalls + [SendMessage(chat, ErrorPrefix + run.error)]
  }

  /** The histories after `_get_or_create_history`: a known sender without one gets an empty one. */
  function WithHistory(histories: map<int, seq<Turn>>, user: Option<int>): map<int, seq<Turn>>
  {
    if user.Some? && user.value !in histories then histories[user.value := []] else histories
  }

  /** The histories after a known sender's history was replaced by `h`; an unknown sender's is not kept. */
  function Recorded(histories: map<int, seq<Turn>>, user: Option<int>, h: seq<Turn>): map<int, seq<Turn>>
  {
    if user.Some? then histories[user.value := h] else histories
  }

  /**
   The histories after `_process_user_message`: a known sender's history
   gains the exchange (trimmed to m entries) on a reply, and is created
   empty if it did not exist when the assistant raised; an unknown sender's
   exchange is not kept.
   */
  function HistoriesAfterRun(histories: map<int, seq<Turn>>, user: Option<int>, text: string,
                             run: AssistantRun, m: int): map<int, seq<Turn>>
  {
    var created := WithHistory(histories, user);
    if run.Replied? then Recorded(created, user, Appended(HistoryOf(histories, user), text, run.response, m))
    else created
  }

  /** Answering one chat leaves every other chat's status message as it was, and ends with none for that chat on a reply. */
  lemma RunKeepsOtherChats(table: map<int, int>, chat: int, run: AssistantRun)
    ensures forall c :: c != chat ==>
      (c in StatusAfterRun(table, chat, run) <==> c in table)
      && (c in table ==> StatusAfterRun(table, chat, run)[c] == table[c])
    ensures run.Replied? ==> chat !in StatusAfterRun(table, chat, run)
    ensures NonZeroIds(table) ==> NonZeroIds(StatusAfterRun(table, chat, run))
  {
    EventsKeepOtherChats(table, chat, run.events);
  }

  /** Answering one user leaves every other user's history as it was. */
  lemma RunKeepsOtherHistories(histories: map<int, seq<Turn>>, user: Option<int>, text: string,
                               run: AssistantRun, m: int)
    ensures forall u :: (user.None? || u != user.value) ==>
      (u in HistoriesAfterRun(histories, user, text, run, m) <==> u in histories)
      && (u in histories ==> HistoriesAfterRun(histories, user, text, run, m)[u] == histories[u])
  {
  }

  /**
   With a limit m >= 2 histories never outgrow it: if every stored history
   has at most m entries before an answer, the same holds after it.
   */
  lemma RunKeepsHistoryBound(histories: map<int, seq<Turn>>, user: Option<int>, text: string,
                             run: AssistantRun, m: int)
    requires m >= 2
    requires forall u :: u in histories ==> |histories[u]| <= m
    ensures forall u :: u in HistoriesAfterRun(histories, user, text, run, m) ==>
      |HistoriesAfterRun(histories, user, text, run, m)[u]| <= m
  {
    var after := HistoriesAfterRun(histories, user, text, run, m);
    forall u | u in after
      ensures |after[u]| <= m
    {
      if user.Some? && u == user.value && run.Replied? {
        AppendedEndsWithExchange(HistoryOf(histories, user), text, run.response, m);
      }
    }
  }

  // ----- The bot -----

  class TelegramAssistant {
    /** The allow-list; empty admits everybody. */
    const allowedUsers: set<int>
    /** The assistant's history limit, in exchanges; stored histories keep twice as many turns. */
    const maxHistory: int

    var updateOffset: int
    var userHistories: map<int, seq<Turn>>
    var statusMessages: map<int, int>
    /** Every Telegram API call made so far, in order. */
    var outbox: seq<Outgoing>

    /** The offset is never negative and every tracked status message id is non-zero. */
    predicate Valid()
      reads this
    {
      updateOffset >= 0 && NonZeroIds(statusMessages)
    }

    constructor(allowedUsers: set<int>, maxHistory: int)
      ensures this.allowedUsers == allowedUsers && this.maxHistory == maxHistory
      ensures updateOffset == 0 && userHistories == map[] && statusMessages == map[] && outbox == []
      ensures Valid()
    {
      this.allowedUsers := allowedUsers;
      this.maxHistory := maxHistory;
      updateOffset := 0;
      userHistories := map[];
      statusMessages := map[];
      outbox := [];
    }

    /** `_update_polling_offset`. */
    method UpdatePollingOffset(updateId: Option<int>)
      requires Valid()
      modifies this
      ensures Valid()
      ensures updateOffset == NextOffset(old(updateOffset), updateId)
      ensures userHistories == old(userHistories) && statusMessages == old(statusMessages) && outbox == old(outbox)
    {
      if TruthyInt(updateId) {
        var next := updateId.value + 1;
        if next > updateOffset {
          updateOffset := next;
        }
      }
    }

    /** `_authorize_user`: a refused sender is told so, nothing else changes. */
    method AuthorizeUser(chat: int, user: Option<int>) returns (ok: bool)
      requires Valid()
      modifies this
      ensures Valid()
      ensures ok == Authorized(allowedUsers, user)
      ensures outbox == old(outbox) + (if ok then [] else [SendMessage(chat, UnauthorizedMessage)])
      ensures updateOffset == old(updateOffset) && userHistories == old(userHistories)
      ensures statusMessages == old(statusMessages)
    {
      if allowedUsers == {} || (user.Some? && user.value in allowedUsers) {
        return true;
      }
      outbox := outbox + [SendMessage(chat, UnauthorizedMessage)];
      return false;
    }

    /**
     `_handle_command`: `/start` and `/clear` are answered here and nothing
     else is; `/clear` drops only the sender's own history, and only when the
     sender is known.
     */
    method HandleCommand(chat: int, user: Option<int>, text: string) returns (handled: bool)
      requires Valid()
      modifies this
      ensures Valid()
      ensures handled <==> IsCommand(text)
      ensures handled ==> outbox == old(outbox) + [SendMessage(chat, CommandReply(text))]
      ensures !handled ==> outbox == old(outbox)
      ensures userHistories ==
        if text == ClearCommand && user.Some? then old(userHistories) - {user.value} else old(userHistories)
      ensures updateOffset == old(updateOffset) && statusMessages == old(statusMessages)
    {
      if text == StartCommand {
        outbox := outbox + [SendMessage(chat, WelcomeMessage)];
        return true;
      }
      if text == ClearCommand {
        if user.Some? {
          userHistories := userHistories - {user.value};
        }
        outbox := outbox + [SendMessage(chat, HistoryClearedMessage)];
        return true;
      }
      return false;
    }

    /** `_get_or_create_history`: a known sender's history, created empty (and stored) if missing. */
    method GetOrCreateHistory(user: Option<int>) returns (history: seq<Turn>)
      requires Valid()
      modifies this
      ensures Valid()
      ensures history == HistoryOf(old(userHistories), user)
      ensures userHistories == WithHistory(old(userHistories), user)
      ensures updateOffset == old(updateOffset) && statusMessages == old(statusMessages) && outbox == old(outbox)
    {
      if user.None? {
        return [];
      }
      if user.value !in userHistories {
        userHistories := userHistories[user.value := []];
      }
      history := userHistories[user.value];
    }

    /**
     `_append_history`: the user turn, then the reply, then the trim to
     twice the history limit. Returns the updated list.
     */
    method AppendHistory(history: seq<Turn>, userText: string, response: string) returns (updated: seq<Turn>)
      ensures updated == Appended(history, userText, response, 2 * maxHistory)
    {
      updated := history + [Turn(UserRole, userText)];
      updated := updated + [Turn(AssistantRole, response)];
      var limit := maxHistory * 2;
      if |updated| > limit {
        updated := updated[SliceStart(|updated|, -limit)..];
      }
    }

    /**
     `_upsert_status_message`: edit the chat's tracked status message, or
     send a new one and track it when the send returned an id.
     */
    method UpsertStatusMessage(chat: int, text: string, sent: int)
      requires Valid()
      modifies this
      ensures Valid()
      ensures statusMessages == UpsertedTable(old(statusMessages), chat, sent)
      ensures outbox == old(outbox) + [UpsertCall(old(statusMessages), chat, text)]
      ensures updateOffset == old(updateOffset) && userHistories == old(userHistories)
    {
      if chat in statusMessages && statusMessages[chat] != 0 {
        outbox := outbox + [EditMessage(chat, statusMessages[chat], text)];
        return;
      }
      outbox := outbox + [SendMessage(chat, text)];
      if sent != 0 {
        statusMessages := statusMessages[chat := sent];
      }
    }

    /** `_clear_status_message`: stop tracking the chat's status message and delete it if there was one. */
    method ClearStatusMessage(chat: int)
      requires Valid()
      modifies this
      ensures Valid()
      ensures statusMessages == old(statusMessages) - {chat}
      ensures outbox == old(outbox) + ClearCalls(old(statusMessages), chat)
      ensures updateOffset == old(updateOffset) && userHistories == old(userHistories)
    {
      var messageId: Option<int> := None;
      if chat in statusMessages {
        messageId := Some(statusMessages[chat]);
        statusMessages := statusMessages - {chat};
      }
      if TruthyInt(messageId) {
        outbox := outbox + [DeleteMessage(chat, messageId.value)];
      }
    }

    /**
     The status callback of `_build_status_callback`, called once per
     progress event: each event's text goes to the chat's status message.
     */
    method RelayStatusEvents(chat: int, events: seq<StatusEvent>)
      requires Valid()
      modifies this
      ensures Valid()
      ensures statusMessages == TableAfterEvents(old(statusMessages), chat, events)
      ensures outbox == old(outbox) + CallsForEvents(old(statusMessages), chat, events)
      ensures updateOffset == old(updateOffset) && userHistories == old(userHistories)
    {
      var k := 0;
      while k < |events|
        invariant 0 <= k <= |events|
        invariant Valid()
        invariant statusMessages == TableAfterEvents(old(statusMessages), chat, events[..k])
        invariant outbox == old(outbox) + CallsForEvents(old(statusMessages), chat, events[..k])
        invariant updateOffset == old(updateOffset) && userHistories == old(userHistories)
      {
        var event := events[k];
        EventsStep(old(statusMessages), chat, events, k);
        UpsertStatusMessage(chat, StatusToText(event.status, event.payload), event.sent);
        k := k + 1;
      }
      assert events[..k] == events;
    }

    /**
     The end of `_process_user_message` once the assistant replied: drop the
     chat's status message, record the exchange in the sender's history and
     send the reply.
     */
    method DeliverReply(chat: int, user: Option<int>, history: seq<Turn>, text: string, response: string)
      requires Valid()
      modifies this
      ensures Valid()
      ensures statusMessages == old(statusMessages) - {chat}
      ensures outbox == old(outbox) + (ClearCalls(old(statusMessages), chat) + [SendMessage(chat, response)])
      ensures userHistories == Recorded(old(userHistories), user, Appended(history, text, response, 2 * maxHistory))
      ensures updateOffset == old(updateOffset)
    {
      ClearStatusMessage(chat);
      var updated := AppendHistory(history, text, response);
      if user.Some? {
        userHistories := userHistories[user.value := updated];
      }
      outbox := outbox + [SendMessage(chat, response)];
    }

    /**
     `_process_user_message`: fetch the history, relay the assistant's
     progress as a status message, then on a reply drop the status message,
     record the exchange and send the reply; if the assistant raised, send
     the error note instead.
     */
    method ProcessUserMessage(chat: int, user: Option<int>, text: string, run: AssistantRun)
      requires Valid()
      modifies this
      ensures Valid()
      ensures statusMessages == StatusAfterRun(old(statusMessages), chat, run)
      ensures outbox == old(outbox) + RunCalls(old(statusMessages), chat, run)
      ensures userHistories == HistoriesAfterRun(old(userHistories), user, text, run, 2 * maxHistory)
      ensures updateOffset == old(updateOffset)
    {
      var history := GetOrCreateHistory(user);
      RelayStatusEvents(chat, run.events);
      ghost var statusCalls := CallsForEvents(old(statusMessages), chat, run.events);
      if run.Replied? {
        ghost var tail := ClearCalls(statusMessages, chat) + [SendMessage(chat, run.response)];
        DeliverReply(chat, user, history, text, run.response);
        assert outbox == old(outbox) + statusCalls + tail;
      } else {
        outbox := outbox + [SendMessage(chat, ErrorPrefix + run.error)];
      }
    }

    /**
     `process_update`: the offset moves past the update first, so an update
     that is ignored, refused or a command still advances it; then the
     message is extracted, the sender checked, commands answered, and
     anything else handed to the assistant.
     */
    method ProcessUpdate(update: Update, run: AssistantRun)
      requires Valid()
      modifies this
      ensures Valid()
      ensures updateOffset == NextOffset(old(updateOffset), update.updateId)
      ensures ExtractMessageContext(update).None? ==>
        userHistories == old(userHistories) && statusMessages == old(statusMessages) && outbox == old(outbox)
      ensures ExtractMessageContext(update).Some? ==>
        var ctx := ExtractMessageContext(update).value;
        if !Authorized(allowedUsers, ctx.userId) then
          outbox == old(outbox) + [SendMessage(ctx.chatId, UnauthorizedMessage)]
          && userHistories == old(userHistories) && statusMessages == old(statusMessages)
        else if IsCommand(ctx.text) then
          outbox == old(outbox) + [SendMessage(ctx.chatId, CommandReply(ctx.text))]
          && statusMessages == old(statusMessages)
          && userHistories ==
             (if ctx.text == ClearCommand && ctx.userId.Some? then old(userHistories) - {ctx.userId.value}
              else old(userHistories))
        else
          outbox == old(outbox) + RunCalls(old(statusMessages), ctx.chatId, run)
          && statusMessages == StatusAfterRun(old(statusMessages), ctx.chatId, run)
          && userHistories == HistoriesAfterRun(old(userHistories), ctx.userId, ctx.text, run, 2 * maxHistory)
    {
      UpdatePollingOffset(update.updateId);
      var context := ExtractMessageContext(update);
      if context.None? {
        return;
      }
      var MessageContext(chat, user, text) := context.value;
      var ok := AuthorizeUser(chat, user);
      if !ok {
        return;
      }
      var handled := HandleCommand(chat, user, text);
      if handled {
        return;
      }
      ProcessUserMessage(chat, user, text, run);
    }
  }
}
