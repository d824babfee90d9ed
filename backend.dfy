/**
 * The socket handler and the snapshot endpoint of the backend
 * (backend/app/main.py): resolving the thread a message is for, storing the
 * user and assistant chats, and emitting the events of one exchange in a
 * fixed order; and reading a thread's chats.
 *
 * The database is an object holding the thread table as a map from id to
 * row, the chat table as a sequence in insertion order, and the two id
 * sequences; every commit is immediate.
 */
module Backend {
  import opened Wrappers
  import opened Api
  import opened Models
  import opened Socket
  import opened Rag

  /** An `HTTPException`: status code and detail. */
  datatype HttpError = HttpError(status: int, detail: string)

  const NotAuthorized: HttpError := HttpError(403, "Not authorized to access this thread")

  /** The clock as the handler reads it: local time formatted for titles, UTC time in ISO form for rows. */
  datatype Clock = Clock(local: string, utc: string)

  class Database {
    var threads: map<int, ThreadRow>
    var chats: seq<ChatRow>
    /** The next value of the thread id sequence. */
    var nextThreadId: int
    /** The next value of the chat id sequence. */
    var nextChatId: int

    ghost predicate Valid()
      reads this
    {
      && 1 <= nextThreadId && 1 <= nextChatId
      && (forall id :: id in threads ==> threads[id].id == id && 1 <= id < nextThreadId)
      && (forall k :: 0 <= k < |chats| ==> 1 <= chats[k].id < nextChatId && chats[k].thread_id in threads)
      && DistinctIds(chats)
    }

    constructor ()
      ensures Valid() && threads == map[] && chats == [] && nextThreadId == 1 && nextChatId == 1
    {
      threads := map[];
      chats := [];
      nextThreadId := 1;
      nextChatId := 1;
    }

    /** `db.add(thread); db.commit(); db.refresh(thread)`: the row takes the next id. */
    method AddThread(userId: string, title: string, createdAt: string) returns (row: ThreadRow)
      requires Valid()
      modifies this`threads, this`nextThreadId
      ensures Valid()
      ensures row == ThreadRow(old(nextThreadId), userId, title, createdAt) && row.id !in old(threads)
      ensures threads == old(threads)[row.id := row] && nextThreadId == old(nextThreadId) + 1
    {
      row := ThreadRow(nextThreadId, userId, title, createdAt);
      threads := threads[row.id := row];
      nextThreadId := nextThreadId + 1;
    }

    /** `db.add(chat); db.commit()`: the row takes the next id and goes last. */
    method AddChat(threadId: int, content: string, role: Role, createdAt: string) returns (row: ChatRow)
      requires Valid() && threadId in threads
      modifies this`chats, this`nextChatId
      ensures Valid()
      ensures row == ChatRow(old(nextChatId), threadId, content, role, createdAt)
      ensures chats == old(chats) + [row] && nextChatId == old(nextChatId) + 1
    {
      row := ChatRow(nextChatId, threadId, content, role, createdAt);
      chats := chats + [row];
      nextChatId := nextChatId + 1;
    }

    /** `chat.content = ...; db.add(chat); db.commit()` */
    method UpdateContent(id: int, content: string)
      requires Valid()
      modifies this`chats
      ensures Valid()
      ensures chats == WithContent(old(chats), id, content)
    {
      chats := WithContent(chats, id, content);
    }
  }

  /** The chat table with the content of chat `id` replaced. */
  function WithContent(chats: seq<ChatRow>, id: int, content: string): (r: seq<ChatRow>)
    ensures |r| == |chats|
    ensures forall k :: 0 <= k < |r| ==> r[k].(content := chats[k].content) == chats[k]
    ensures forall k :: 0 <= k < |r| ==> r[k].content == if chats[k].id == id then content else chats[k].content
  {
    seq(|chats|, k requires 0 <= k < |chats| => if chats[k].id == id then chats[k].(content := content) else chats[k])
  }

  /** Replacing the content of the last row, whose id no earlier row has, touches that row only. */
  lemma {:induction false} WithContentOfLast(chats: seq<ChatRow>, last: ChatRow, content: string)
    requires forall k :: 0 <= k < |chats| ==> chats[k].id != last.id
    ensures WithContent(chats + [last], last.id, content) == chats + [last.(content := content)]
  {
    var r := WithContent(chats + [last], last.id, content);
    forall k | 0 <= k < |chats| + 1
      ensures r[k] == (chats + [last.(content := content)])[k]
    {
      if k < |chats| {
        assert (chats + [last])[k] == chats[k];
      }
    }
  }

  // ---------------------------------------------------------------------
  // get_or_create_thread and is_new
  // ---------------------------------------------------------------------

  /** What the lookup of the requested thread finds. */
  datatype Lookup = Owned(row: ThreadRow) | OwnedByOther | NotFound

  /**
   * `if thread_id:` then the row with that id: a requested id of `None` or
   * 0 is not looked up at all.
   */
  function Look(threads: map<int, ThreadRow>, requested: Option<int>, userId: string): (l: Lookup)
    ensures l.Owned? <==> requested.Some? && requested.value != 0 && requested.value in threads && threads[requested.value].user_id == userId
    ensures l.OwnedByOther? <==> requested.Some? && requested.value != 0 && requested.value in threads && threads[requested.value].user_id != userId
    ensures l.Owned? ==> l.row == threads[requested.value]
  {
    if requested.Some? && requested.value != 0 && requested.value in threads then
      if threads[requested.value].user_id != userId then OwnedByOther else Owned(threads[requested.value])
    else NotFound
  }

  /** The title of a thread created by the handler: `"Thread {now}"`. */
  function NewThreadTitle(clock: Clock): string {
    "Thread " + clock.local
  }

  /** The thread `get_or_create_thread` returns when it does not raise. */
  function Resolved(threads: map<int, ThreadRow>, nextThreadId: int, requested: Option<int>, userId: string, clock: Clock): (row: ThreadRow)
    requires !Look(threads, requested, userId).OwnedByOther?
    ensures row.user_id == userId
    ensures Look(threads, requested, userId).Owned? ==> row == threads[requested.value]
    ensures Look(threads, requested, userId).NotFound? ==>
              row.id == nextThreadId && row.title == NewThreadTitle(clock) && row.created_at == clock.utc
  {
    match Look(threads, requested, userId)
    case Owned(row) => row
    case NotFound => ThreadRow(nextThreadId, userId, NewThreadTitle(clock), clock.utc)
  }

  /**
   * `get_or_create_thread`: an owned thread is returned as it is; a thread
   * of another user raises 403; otherwise one new thread owned by the user
   * is created and returned. Nothing is created except in the last case.
   */
  method GetOrCreateThread(db: Database, requested: Option<int>, userId: string, clock: Clock)
    returns (r: Result<ThreadRow, HttpError>)
    requires db.Valid()
    modifies db`threads, db`nextThreadId
    ensures db.Valid()
    ensures Look(old(db.threads), requested, userId).OwnedByOther? ==>
              r == Err(NotAuthorized) && db.threads == old(db.threads) && db.nextThreadId == old(db.nextThreadId)
    ensures Look(old(db.threads), requested, userId).Owned? ==>
              r == Ok(Look(old(db.threads), requested, userId).row) &&
              db.threads == old(db.threads) && db.nextThreadId == old(db.nextThreadId)
    ensures r.Ok? ==> r.value.id in db.threads && db.threads[r.value.id] == r.value
    ensures Look(old(db.threads), requested, userId).NotFound? ==>
              r == Ok(Resolved(old(db.threads), old(db.nextThreadId), requested, userId, clock)) &&
              r.value.id !in old(db.threads) && r.value.user_id == userId &&
              db.threads == old(db.threads)[r.value.id := r.value] && db.nextThreadId == old(db.nextThreadId) + 1
  {
    if requested.Some? && requested.value != 0 {
      if requested.value in db.threads {
        var thread := db.threads[requested.value];
        if thread.user_id != userId {
          return Err(NotAuthorized);
        }
        return Ok(thread);
      }
    }
    var thread := db.AddThread(userId, NewThreadTitle(clock), clock.utc);
    return Ok(thread);
  }

  /** `thread_id is None or thread_id != thread.id` */
  function IsNew(requested: Option<int>, resolvedId: int): bool {
    requested.None? || requested.value != resolvedId
  }

  /** A message for a thread the user owns is never reported as opening a new thread. */
  lemma OwnedThreadIsNotNew(threads: map<int, ThreadRow>, requested: Option<int>, userId: string)
    requires forall id :: id in threads ==> threads[id].id == id
    requires Look(threads, requested, userId).Owned?
    ensures !IsNew(requested, Look(threads, requested, userId).row.id)
  {
  }

  /**
   * A created thread is reported new unless the requested id, absent from
   * the table, is exactly the id the sequence hands out next.
   */
  lemma CreatedThreadIsNewUnlessIdReused(threads: map<int, ThreadRow>, nextThreadId: int, requested: Option<int>, userId: string, clock: Clock)
    requires Look(threads, requested, userId).NotFound?
    ensures var row := Resolved(threads, nextThreadId, requested, userId, clock);
            IsNew(requested, row.id) <==> requested != Some(nextThreadId)
  {
  }

  /** With thread 1 stored and 2 next, a message for thread 2 creates it yet reports `is_new` false. */
  lemma ReusedIdHidesCreation()
    ensures var threads := map[1 := ThreadRow(1, "alice", "Thread a", "t0")];
            && Look(threads, Some(2), "alice").NotFound?
            && !IsNew(Some(2), Resolved(threads, 2, Some(2), "alice", Clock("now", "t1")).id)
  {
  }

  /**
   * A thread the handler creates has no chats yet, so the model is prompted
   * with an empty history: every chat belongs to a stored thread, and every
   * stored thread's id is below the one handed out next.
   */
  lemma CreatedThreadHasNoHistory(db: Database, requested: Option<int>, userId: string, clock: Clock)
    requires db.Valid() && Look(db.threads, requested, userId).NotFound?
    ensures ChatsOf(db.chats, Resolved(db.threads, db.nextThreadId, requested, userId, clock).id) == []
  {
    var id := db.nextThreadId;
    forall k | 0 <= k < |db.chats| ensures db.chats[k].thread_id != id {
      assert db.chats[k].thread_id in db.threads;
    }
    ChatsOfOtherThreads(db.chats, id);
  }

  // ---------------------------------------------------------------------
  // chat_message
  // ---------------------------------------------------------------------

  /** The payload of an inbound `chat_message`: `data["message"]` and `data.get("thread_id")`. */
  datatype ChatRequest = ChatRequest(message: Option<string>, thread_id: Option<int>)

  /** How the handler ends abnormally: the 403 of the lookup, or the `KeyError` of a payload without a message. */
  datatype HandlerFailure = Raised(error: HttpError) | MissingMessage

  const ProcessingStatusMessage: string := "Processing your message"
  const CompletedStatusMessage: string := "Processing completed"

  /** The two `chat_message` events: the user's chat, then the empty assistant chat. */
  function Announcements(threadId: int, message: string, userChatId: int, assistantChatId: int, createdAt: string): seq<Event> {
    [ ChatMessageOut(threadId, userChatId, User, message, createdAt),
      ChatMessageOut(threadId, assistantChatId, Assistant, "", createdAt) ]
  }

  /**
   * The events of the inner `try`: `started`, everything `process_message`
   * emits, then `completed`, or an `error` event if the model raised.
   */
  function ProcessingEvents(message: string, threadId: int, chatId: int, reply: LlmReply): seq<Event> {
    [StatusOut(Started, ProcessingStatusMessage, threadId, chatId)]
    + ReplyEvents(message, threadId, chatId, reply)
    + (if reply.failure.None? then [StatusOut(Completed, CompletedStatusMessage, threadId, chatId)]
       else [ErrorOut(reply.failure.value, threadId, chatId)])
  }

  /** The events the handler emits after `thread_info`. */
  function ExchangeEvents(threadId: int, message: string, userChatId: int, assistantChatId: int,
                          createdAt: string, reply: LlmReply): seq<Event>
  {
    Announcements(threadId, message, userChatId, assistantChatId, createdAt)
    + ProcessingEvents(message, threadId, assistantChatId, reply)
  }

  /** The `thread_info` event for the resolved thread. */
  function ThreadInfo(row: ThreadRow, requested: Option<int>): Event {
    ThreadInfoOut(row.id, IsNew(requested, row.id), row.title, row.created_at)
  }

  /** The user chat and the empty assistant chat are stored and announced. */
  method Announce(db: Database, sio: SocketServer, threadId: int, message: string, clock: Clock)
    returns (userChat: ChatRow, assistant: ChatRow)
    requires db.Valid() && threadId in db.threads
    modifies db`chats, db`nextChatId, sio
    ensures db.Valid()
    ensures userChat == ChatRow(old(db.nextChatId), threadId, message, User, clock.utc)
    ensures assistant == ChatRow(old(db.nextChatId) + 1, threadId, "", Assistant, clock.utc)
    ensures db.chats == old(db.chats) + [userChat] + [assistant] && db.nextChatId == old(db.nextChatId) + 2
    ensures sio.sent == old(sio.sent) + Announcements(threadId, message, userChat.id, assistant.id, clock.utc)
  {
    ghost var sentBefore := sio.sent;
    userChat := db.AddChat(threadId, message, User, clock.utc);
    sio.Emit(ChatMessageOut(threadId, userChat.id, userChat.role, userChat.content, userChat.created_at));
    assistant := db.AddChat(threadId, "", Assistant, clock.utc);
    sio.Emit(ChatMessageOut(threadId, assistant.id, assistant.role, assistant.content, assistant.created_at));
    assert sio.sent == sentBefore + Announcements(threadId, message, userChat.id, assistant.id, clock.utc);
  }

  /**
   * Proof step for `Process` only: `ProcessingEvents` unfolded behind an
   * existing log. It states nothing about the program beyond the definition.
   */
  lemma ProcessingEmittedInOrder(sent: seq<Event>, message: string, threadId: int, chatId: int, reply: LlmReply)
    ensures sent + ProcessingEvents(message, threadId, chatId, reply)
            == sent + [StatusOut(Started, ProcessingStatusMessage, threadId, chatId)] + ReplyEvents(message, threadId, chatId, reply)
               + (if reply.failure.None? then [StatusOut(Completed, CompletedStatusMessage, threadId, chatId)]
                  else [ErrorOut(reply.failure.value, threadId, chatId)])
  {
  }

  /** `assistant_chat.content = result["response"]`, committed: the last chat takes the response. */
  method StoreResponse(db: Database, ghost earlier: seq<ChatRow>, assistant: ChatRow, response: string)
    requires db.Valid() && db.chats == earlier + [assistant]
    requires forall k :: 0 <= k < |earlier| ==> earlier[k].id != assistant.id
    modifies db`chats
    ensures db.Valid()
    ensures db.chats == earlier + [assistant.(content := response)]
  {
    WithContentOfLast(earlier, assistant, response);
    db.UpdateContent(assistant.id, response);
  }

  /**
   * The inner `try` of `chat_message`: `started`, the reply, then either the
   * response stored in the assistant chat and `completed`, or an `error`
   * event with the chat left empty.
   */
  method Process(db: Database, sio: SocketServer, bot: RagChatbot, threadId: int, message: string,
                 history: seq<ChatRow>, ghost earlier: seq<ChatRow>, assistant: ChatRow)
    requires db.Valid() && db.chats == earlier + [assistant] && assistant.content == ""
    requires forall k :: 0 <= k < |earlier| ==> earlier[k].id != assistant.id
    modifies db`chats, sio
    ensures db.Valid()
    ensures var reply := bot.llm(PromptHistory(history), message);
            && db.chats == earlier + [assistant.(content := if reply.failure.None? then Concat(reply.chunks) else "")]
            && sio.sent == old(sio.sent) + ProcessingEvents(message, threadId, assistant.id, reply)
  {
    ghost var sentBefore := sio.sent;
    ghost var started := [StatusOut(Started, ProcessingStatusMessage, threadId, assistant.id)];
    sio.Emit(StatusOut(Started, ProcessingStatusMessage, threadId, assistant.id));
    var result := bot.ProcessMessage(sio, message, threadId, assistant.id, history);
    ghost var reply := bot.llm(PromptHistory(history), message);
    ghost var replied := ReplyEvents(message, threadId, assistant.id, reply);
    assert sio.sent == sentBefore + started + replied;
    match result {
      case Ok(response) =>
        StoreResponse(db, earlier, assistant, response);
        sio.Emit(StatusOut(Completed, CompletedStatusMessage, threadId, assistant.id));
      case Err(e) =>
        sio.Emit(ErrorOut(e, threadId, assistant.id));
        // db.rollback() has nothing left to undo: both chats are committed.
    }
    ProcessingEmittedInOrder(sentBefore, message, threadId, assistant.id, reply);
  }

  /**
   * The part of `chat_message` after the thread is resolved and announced:
   * both chats are stored and announced, the reply is streamed, and the
   * assistant chat takes the response, or stays empty if the model raised.
   * The model is prompted with `history`.
   */
  method Exchange(db: Database, sio: SocketServer, bot: RagChatbot, thread: ThreadRow, message: string,
                  history: seq<ChatRow>, clock: Clock)
    requires db.Valid() && thread.id in db.threads
    modifies db`chats, db`nextChatId, sio
    ensures db.Valid()
    ensures var u, a := old(db.nextChatId), old(db.nextChatId) + 1;
            var reply := bot.llm(PromptHistory(history), message);
            && db.chats == old(db.chats) + [ ChatRow(u, thread.id, message, User, clock.utc),
                                             ChatRow(a, thread.id, if reply.failure.None? then Concat(reply.chunks) else "", Assistant, clock.utc) ]
            && db.nextChatId == a + 1
            && sio.sent == old(sio.sent) + ExchangeEvents(thread.id, message, u, a, clock.utc, reply)
  {
    ghost var before, sentBefore := db.chats, sio.sent;
    var chat, assistant := Announce(db, sio, thread.id, message, clock);
    ghost var announcements := Announcements(thread.id, message, chat.id, assistant.id, clock.utc);
    ghost var sentAnnounced := sio.sent;
    ghost var earlier := before + [chat];
    forall k | 0 <= k < |earlier|
      ensures earlier[k].id != assistant.id
    {
      if k < |before| {
        assert earlier[k] == before[k];
      }
    }
    Process(db, sio, bot, thread.id, message, history, earlier, assistant);
    ghost var reply := bot.llm(PromptHistory(history), message);
    ghost var stored := assistant.(content := if reply.failure.None? then Concat(reply.chunks) else "");
    assert earlier + [stored] == before + [chat, stored];
    ghost var processing := ProcessingEvents(message, thread.id, assistant.id, reply);
    assert sio.sent == sentAnnounced + processing;
    assert sio.sent == sentBefore + (announcements + processing);
  }

  /**
   * `chat_message`: resolve the thread (a 403 ends the handler before any
   * event), announce it, then run the exchange. A payload without a message
   * fails after the announcement, with the thread already created.
   */
  method ChatMessage(db: Database, sio: SocketServer, bot: RagChatbot, userId: string, request: ChatRequest, clock: Clock)
    returns (failure: Option<HandlerFailure>)
    requires db.Valid()
    modifies db, sio
    ensures db.Valid()
    ensures Look(old(db.threads), request.thread_id, userId).OwnedByOther? ==>
              && failure == Some(Raised(NotAuthorized))
              && db.threads == old(db.threads) && db.chats == old(db.chats) && sio.sent == old(sio.sent)
              && db.nextThreadId == old(db.nextThreadId) && db.nextChatId == old(db.nextChatId)
    ensures !Look(old(db.threads), request.thread_id, userId).OwnedByOther? ==>
              var row := Resolved(old(db.threads), old(db.nextThreadId), request.thread_id, userId, clock);
              && db.threads == old(db.threads)[row.id := row]
              && db.nextThreadId == old(db.nextThreadId) + (if Look(old(db.threads), request.thread_id, userId).NotFound? then 1 else 0)
              && db.nextChatId == old(db.nextChatId) + (if request.message.Some? then 2 else 0)
              && (request.message.None? ==>
                    && failure == Some(MissingMessage)
                    && db.chats == old(db.chats)
                    && sio.sent == old(sio.sent) + [ThreadInfo(row, request.thread_id)])
              && (request.message.Some? ==>
                    var u, a := old(db.nextChatId), old(db.nextChatId) + 1;
                    var message := request.message.value;
                    var reply := bot.llm(PromptHistory(ChatsOf(old(db.chats), row.id)), message);
                    && failure.None?
                    && db.chats == old(db.chats) + [ ChatRow(u, row.id, message, User, clock.utc),
                                                     ChatRow(a, row.id, if reply.failure.None? then Concat(reply.chunks) else "", Assistant, clock.utc) ]
                    && sio.sent == old(sio.sent) + [ThreadInfo(row, request.thread_id)]
                                   + ExchangeEvents(row.id, message, u, a, clock.utc, reply))
  {
    var resolved := GetOrCreateThread(db, request.thread_id, userId, clock);
    if resolved.Err? {
      return Some(Raised(resolved.error));
    }
    var thread := resolved.value;
    sio.Emit(ThreadInfoOut(thread.id, IsNew(request.thread_id, thread.id), thread.title, thread.created_at));
    var history := ChatsOf(db.chats, thread.id);
    if request.message.None? {
      return Some(MissingMessage);
    }
    Exchange(db, sio, bot, thread, request.message.value, history, clock);
    failure := None;
  }

  // ---------------------------------------------------------------------
  // GET /threads/{thread_id}/chats
  // ---------------------------------------------------------------------

  /** A stored chat as the endpoint serialises it. */
  function ToChat(c: ChatRow): Chat {
    Chat(c.id, c.content, c.role, c.created_at)
  }

  function Snapshot(rows: seq<ChatRow>): (r: seq<Chat>)
    ensures |r| == |rows|
    ensures forall k :: 0 <= k < |rows| ==> r[k] == ToChat(rows[k])
  {
    seq(|rows|, k requires 0 <= k < |rows| => ToChat(rows[k]))
  }

  const NotFound404: HttpError := HttpError(404, "Thread not found")

  /** The number a string of decimal digits denotes, most significant digit first. */
  function DigitsValue(s: string): int
    decreases |s|
  {
    if s == [] then 0 else DigitsValue(s[..|s| - 1]) * 10 + (s[|s| - 1] as int - '0' as int)
  }

  /** The decimal numeral of `n`: digits only, no leading zero, denoting `n`. */
  function Decimal(n: nat): (s: string)
    ensures |s| >= 1
    ensures forall k :: 0 <= k < |s| ==> '0' <= s[k] <= '9'
    ensures n > 0 ==> s[0] != '0'
    ensures DigitsValue(s) == n
    decreases n
  {
    var digit := ('0' as int + n % 10) as char;
    if n < 10 then [digit] else Decimal(n / 10) + [digit]
  }

  /** `str(e)` of an `HTTPException`: `"{status_code}: {detail}"`. */
  function Str(e: HttpError): string
    requires e.status >= 0
  {
    Decimal(e.status) + ": " + e.detail
  }

  /** `except Exception as e: raise HTTPException(status_code=500, detail=str(e))` */
  function Rewrapped(e: HttpError): (r: HttpError)
    requires e.status >= 0
    ensures r.status == 500 && r.detail == Str(e)
  {
    HttpError(500, Str(e))
  }

  /** The user's own thread, found by id and owner as the endpoint's query does. */
  predicate OwnsThread(threads: map<int, ThreadRow>, threadId: int, userId: string) {
    threadId in threads && threads[threadId].user_id == userId
  }

  /**
   * `get_chats` as written: the 404 it raises for a missing or foreign
   * thread is caught by its own `except` and re-raised as a 500.
   */
  function GetChats(threads: map<int, ThreadRow>, chats: seq<ChatRow>, threadId: int, userId: string): (r: Result<seq<Chat>, HttpError>)
    ensures r.Ok? <==> OwnsThread(threads, threadId, userId)
    ensures r.Ok? ==> r.value == Snapshot(ChatsOf(chats, threadId))
  {
    if OwnsThread(threads, threadId, userId) then Ok(Snapshot(ChatsOf(chats, threadId)))
    else Err(Rewrapped(NotFound404))
  }

  /** A thread the user cannot read surfaces as status 500, never as the intended 404. */
  lemma GetChatsMasksNotFound(threads: map<int, ThreadRow>, chats: seq<ChatRow>, threadId: int, userId: string)
    requires !OwnsThread(threads, threadId, userId)
    ensures GetChats(threads, chats, threadId, userId).Err?
    ensures GetChats(threads, chats, threadId, userId).error.status == 500
    ensures GetChats(threads, chats, threadId, userId).error.detail == "404: Thread not found"
  {
    assert Decimal(404) == "404" by {
      assert Decimal(4) == "4";
      assert Decimal(40) == "40";
    }
  }

  /** `get_chats` with the 404 let through the handler, as its `raise` intends. */
  function GetChatsIntended(threads: map<int, ThreadRow>, chats: seq<ChatRow>, threadId: int, userId: string): (r: Result<seq<Chat>, HttpError>)
    ensures r.Ok? <==> OwnsThread(threads, threadId, userId)
    ensures r.Err? ==> r.error == NotFound404
    ensures r.Ok? ==> r == GetChats(threads, chats, threadId, userId)
  {
    if OwnsThread(threads, threadId, userId) then Ok(Snapshot(ChatsOf(chats, threadId)))
    else Err(NotFound404)
  }

  /** The two rows an exchange stores: the user's message and the assistant's final content. */
  function ExchangeRows(threadId: int, message: string, userChatId: int, assistantChatId: int,
                        createdAt: string, reply: LlmReply): seq<ChatRow>
  {
    [ ChatRow(userChatId, threadId, message, User, createdAt),
      ChatRow(assistantChatId, threadId, if reply.failure.None? then Concat(reply.chunks) else "", Assistant, createdAt) ]
  }

  /** Rows of an owned thread appended to the table come last in its snapshot. */
  lemma GetChatsAfterAppend(threads: map<int, ThreadRow>, chats: seq<ChatRow>, threadId: int, userId: string, rows: seq<ChatRow>)
    requires OwnsThread(threads, threadId, userId)
    requires forall k :: 0 <= k < |rows| ==> rows[k].thread_id == threadId
    ensures GetChatsIntended(threads, chats + rows, threadId, userId) == Ok(Snapshot(ChatsOf(chats, threadId) + rows))
  {
    AppendedRowsComeLast(chats, rows, threadId);
  }
}
