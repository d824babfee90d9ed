/**
 * The socket between the backend and the chat view: which emitted events the
 * view has a listener for, and what one whole exchange of `chat_message`
 * leaves on screen.
 *
 * The view subscribes to `status`, `response_chunk`, `chat_message` and
 * `thread_info` only (frontend/components/chat-interface.tsx); the
 * `search_results` and `error` events the backend emits reach no handler.
 * Delivery is in emission order and nothing is lost.
 */
module Channel {
  import opened Wrappers
  import opened Api
  import opened Models
  import opened Socket
  import opened Rag
  import opened Transcript
  import opened Backend

  /** What the view's listeners receive for one emitted event, if they listen for it at all. */
  function Deliver(e: Event): (r: Option<Inbound>)
    ensures r.None? <==> e.SearchResultsOut? || e.ErrorOut?
    ensures e.StatusOut? ==> r == Some(StatusIn(ChatStatus(PhaseName(e.phase), e.message, e.thread_id, e.chat_id)))
    ensures e.ResponseChunkOut? ==> r == Some(ChunkIn(e.chunk, e.chat_id))
    ensures e.ChatMessageOut? ==> r == Some(MessageIn(MessageNotice(e.chat_id, e.thread_id, e.content, e.role, e.created_at)))
    ensures e.ThreadInfoOut? ==> r == Some(ThreadInfoIn(ThreadNotice(e.thread_id, e.title, e.created_at, e.is_new)))
  {
    match e
    case ThreadInfoOut(t, isNew, title, createdAt) => Some(ThreadInfoIn(ThreadNotice(t, title, createdAt, isNew)))
    case ChatMessageOut(t, c, role, content, createdAt) => Some(MessageIn(MessageNotice(c, t, content, role, createdAt)))
    case StatusOut(p, m, t, c) => Some(StatusIn(ChatStatus(PhaseName(p), m, t, c)))
    case ResponseChunkOut(chunk, _, c) => Some(ChunkIn(chunk, c))
    case SearchResultsOut(_, _, _) => None
    case ErrorOut(_, _, _) => None
  }

  /** The events the view's handlers run on, in order, for the events emitted to it. */
  function Received(evs: seq<Event>): (r: seq<Inbound>)
    ensures |r| <= |evs|
    decreases |evs|
  {
    if evs == [] then []
    else (if Deliver(evs[0]).Some? then [Deliver(evs[0]).value] else []) + Received(evs[1..])
  }

  lemma {:induction false} ReceivedAppend(a: seq<Event>, b: seq<Event>)
    ensures Received(a + b) == Received(a) + Received(b)
    decreases |a|
  {
    if a == [] {
      assert a + b == b;
    } else {
      assert (a + b)[0] == a[0] && (a + b)[1..] == a[1..] + b;
      ReceivedAppend(a[1..], b);
    }
  }

  /** Proof step for the lemmas below: `Received` unfolded on a single event. */
  lemma ReceivedOne(e: Event)
    ensures Received([e]) == if Deliver(e).Some? then [Deliver(e).value] else []
  {
    assert [e][1..] == [];
  }

  /**
   * Events about one chat that announce no chat reach the view as statuses
   * and chunks for that chat only.
   */
  lemma {:induction false} ReceivedAboutOneChat(evs: seq<Event>, threadId: int, chatId: int)
    requires forall k :: 0 <= k < |evs| ==> About(evs[k], threadId, chatId) && !evs[k].ChatMessageOut?
    ensures forall k :: 0 <= k < |Received(evs)| ==>
              || (Received(evs)[k].StatusIn? && Received(evs)[k].status.chat_id == chatId)
              || (Received(evs)[k].ChunkIn? && Received(evs)[k].chat_id == chatId)
    decreases |evs|
  {
    if evs != [] {
      assert About(evs[0], threadId, chatId) && !evs[0].ChatMessageOut?;
      ReceivedAboutOneChat(evs[1..], threadId, chatId);
    }
  }

  /** The chunk text of one received event: the chunk itself if it is one for the chat. */
  lemma ChunkTextOfOne(e: Event, chatId: int)
    requires e.ResponseChunkOut? ==> e.chat_id == chatId
    ensures ChunkText(Received([e]), chatId) == if e.ResponseChunkOut? then e.chunk else ""
  {
    ReceivedOne(e);
    if Deliver(e).Some? {
      assert [Deliver(e).value][1..] == [];
    }
  }

  /** The chunks the view appends for a chat are the chunk events emitted for it. */
  lemma {:induction false} ChunkTextOfReceived(evs: seq<Event>, chatId: int)
    requires forall k :: 0 <= k < |evs| && evs[k].ResponseChunkOut? ==> evs[k].chat_id == chatId
    ensures ChunkText(Received(evs), chatId) == StreamedText(evs)
    decreases |evs|
  {
    if evs != [] {
      assert evs == [evs[0]] + evs[1..];
      ReceivedAppend([evs[0]], evs[1..]);
      ChunkTextAppend(Received([evs[0]]), Received(evs[1..]), chatId);
      ChunkTextOfOne(evs[0], chatId);
      ChunkTextOfReceived(evs[1..], chatId);
    }
  }

  /** Events without a status keep the last status. */
  lemma {:induction false} NoStatusKeepsLastStatus(evs: seq<Inbound>, id: int, x: Option<ChatStatus>)
    requires forall k :: 0 <= k < |evs| ==> !evs[k].StatusIn?
    ensures LastStatus(evs, id, x) == x
    decreases |evs|
  {
    if evs != [] {
      assert !evs[0].StatusIn?;
      NoStatusKeepsLastStatus(evs[1..], id, x);
    }
  }

  /** A run of events that ends with a status for `id` leaves that status. */
  lemma LastStatusIsFinalStatus(evs: seq<Inbound>, s: ChatStatus, id: int, x: Option<ChatStatus>)
    requires |evs| > 0 && evs[|evs| - 1] == StatusIn(s) && s.chat_id == id
    ensures LastStatus(evs, id, x) == Some(s)
  {
    var init := evs[..|evs| - 1];
    assert evs == init + [StatusIn(s)];
    LastStatusAppend(init, [StatusIn(s)], id, x);
    assert [StatusIn(s)][1..] == [];
  }

  /** The chunk events of a reply reach the view as exactly those chunks, for that chat, in order. */
  lemma {:induction false} ReceivedChunkEvents(chunks: seq<string>, threadId: int, chatId: int)
    ensures Received(ChunkEvents(chunks, threadId, chatId))
            == seq(|chunks|, k requires 0 <= k < |chunks| => ChunkIn(chunks[k], chatId))
    decreases |chunks|
  {
    if chunks != [] {
      ReceivedChunkEvents(chunks[1..], threadId, chatId);
      var evs := ChunkEvents(chunks, threadId, chatId);
      assert evs[0] == ResponseChunkOut(chunks[0], threadId, chatId);
      assert evs[1..] == ChunkEvents(chunks[1..], threadId, chatId);
    }
  }

  /** `thread_info` and the two `chat_message` events append the two chats, once each. */
  lemma OpeningAppendsBothChats(chats: seq<Entry>, info: ThreadNotice, user: MessageNotice, assistant: MessageNotice)
    requires user.chat_id != assistant.chat_id
    requires !HasId(chats, user.chat_id) && !HasId(chats, assistant.chat_id)
    ensures Fold(chats, [ThreadInfoIn(info), MessageIn(user), MessageIn(assistant)])
         == chats + [NewEntry(user), NewEntry(assistant)]
  {
    var evs := [ThreadInfoIn(info), MessageIn(user), MessageIn(assistant)];
    var one := chats + [NewEntry(user)];
    assert !HasId(one, assistant.chat_id) by {
      forall i | 0 <= i < |one| ensures one[i].chat.id != assistant.chat_id {
        if i < |chats| {
          assert one[i] == chats[i];
        }
      }
    }
    var two := one + [NewEntry(assistant)];
    assert evs[1..] == [MessageIn(user), MessageIn(assistant)];
    assert evs[1..][1..] == [MessageIn(assistant)];
    assert evs[1..][1..][1..] == [];
    calc {
      Fold(chats, evs);
      Fold(Apply(chats, ThreadInfoIn(info)), evs[1..]);
      Fold(chats, evs[1..]);
      Fold(WithMessage(chats, user), evs[1..][1..]);
      Fold(one, evs[1..][1..]);
      Fold(WithMessage(one, assistant), evs[1..][1..][1..]);
      Fold(two, []);
    }
    assert two == chats + [NewEntry(user), NewEntry(assistant)];
  }

  /** The status the view last receives when the model raises: the `processing` one. */
  function StuckStatus(threadId: int, chatId: int): ChatStatus {
    ChatStatus("processing", "Generating response with AI", threadId, chatId)
  }

  /** Everything the view receives after the two chats concerns the assistant chat only. */
  lemma TailConcernsAssistant(message: string, threadId: int, chatId: int, reply: LlmReply)
    ensures ConcernsOnly(Received(ProcessingEvents(message, threadId, chatId, reply)), chatId)
  {
    var tail := ProcessingEvents(message, threadId, chatId, reply);
    var replyEvs := ReplyEvents(message, threadId, chatId, reply);
    var closing := tail[1 + |replyEvs|..];
    ReplyEventsShape(message, threadId, chatId, reply);
    forall k | 0 <= k < |tail|
      ensures About(tail[k], threadId, chatId) && !tail[k].ChatMessageOut?
    {
      if 0 < k < 1 + |replyEvs| {
        assert tail[k] == replyEvs[k - 1];
      }
    }
    ReceivedAboutOneChat(tail, threadId, chatId);
  }

  /**
   * Everything one `chat_message` handler emits after a resolved thread names
   * that thread: `thread_info` first, then the user chat's announcement, and
   * every later event (the assistant announcement, statuses, chunks, the
   * closing `completed` or `error`) names the assistant chat.
   */
  lemma {:induction false} HandlerEventsNameTheirChats(row: ThreadRow, requested: Option<int>, message: string,
                                                        u: int, a: int, createdAt: string, reply: LlmReply)
    ensures var evs := [ThreadInfo(row, requested)] + ExchangeEvents(row.id, message, u, a, createdAt, reply);
            && evs[0].ThreadInfoOut?
            && (forall k :: 0 <= k < |evs| ==> evs[k].thread_id == row.id)
            && (forall k :: 1 <= k < |evs| ==> !evs[k].ThreadInfoOut? && evs[k].chat_id == (if k == 1 then u else a))
  {
    var tail := ProcessingEvents(message, row.id, a, reply);
    var replyEvs := ReplyEvents(message, row.id, a, reply);
    var evs := [ThreadInfo(row, requested)] + ExchangeEvents(row.id, message, u, a, createdAt, reply);
    assert evs == [ThreadInfo(row, requested)] + Announcements(row.id, message, u, a, createdAt) + tail;
    ReplyEventsShape(message, row.id, a, reply);
    forall k | 3 <= k < |evs|
      ensures About(evs[k], row.id, a)
    {
      assert evs[k] == tail[k - 3];
      if 1 <= k - 3 < 1 + |replyEvs| {
        assert tail[k - 3] == replyEvs[k - 4];
      }
    }
  }

  /** The chunks the view appends to the assistant chat spell the model's response. */
  lemma TailSpellsResponse(message: string, threadId: int, chatId: int, reply: LlmReply)
    ensures ChunkText(Received(ProcessingEvents(message, threadId, chatId, reply)), chatId) == Concat(reply.chunks)
  {
    var started := [StatusOut(Started, ProcessingStatusMessage, threadId, chatId)];
    var replyEvs := ReplyEvents(message, threadId, chatId, reply);
    var tail := ProcessingEvents(message, threadId, chatId, reply);
    var closing := tail[1 + |replyEvs|..];
    assert tail == started + replyEvs + closing;
    ReplyEventsShape(message, threadId, chatId, reply);
    forall k | 0 <= k < |tail| && tail[k].ResponseChunkOut?
      ensures tail[k].chat_id == chatId
    {
      if 0 < k < 1 + |replyEvs| {
        assert tail[k] == replyEvs[k - 1];
      }
    }
    ChunkTextOfReceived(tail, chatId);
    StreamedTextAppend(started + replyEvs, closing);
    StreamedTextAppend(started, replyEvs);
    StreamedTextIsResponse(message, threadId, chatId, reply);
    assert StreamedText(started) == "" by { assert started[1..] == []; }
    assert StreamedText(closing) == "" by { assert closing[1..] == []; }
  }

  /**
   * The assistant chat's last status is `completed` when the stream ended,
   * and the `processing` one when the model raised.
   */
  lemma TailLastStatus(message: string, threadId: int, chatId: int, reply: LlmReply)
    ensures reply.failure.None? ==>
              LastStatus(Received(ProcessingEvents(message, threadId, chatId, reply)), chatId, None)
              == Some(ChatStatus(CompletedPhase, CompletedStatusMessage, threadId, chatId))
    ensures reply.failure.Some? ==>
              LastStatus(Received(ProcessingEvents(message, threadId, chatId, reply)), chatId, None) == Some(StuckStatus(threadId, chatId))
  {
    var started := [StatusOut(Started, ProcessingStatusMessage, threadId, chatId)];
    var pre := Preamble(message, threadId, chatId);
    var mid := ChunkEvents(reply.chunks, threadId, chatId);
    var replyEvs := ReplyEvents(message, threadId, chatId, reply);
    var tail := ProcessingEvents(message, threadId, chatId, reply);
    var closing := tail[1 + |replyEvs|..];
    assert tail == started + replyEvs + closing;
    assert closing == [closing[0]];
    ReceivedAppend(started + replyEvs, closing);
    ReceivedOne(closing[0]);
    if reply.failure.None? {
      LastStatusIsFinalStatus(Received(tail), ChatStatus(CompletedPhase, CompletedStatusMessage, threadId, chatId), chatId, None);
    } else {
      assert Received(tail) == Received(started + replyEvs);
      var sp := started + pre;
      assert started + replyEvs == sp + mid;
      ReceivedAppend(sp, mid);
      ReceivedChunkEvents(reply.chunks, threadId, chatId);
      LastStatusAppend(Received(sp), Received(mid), chatId, None);
      NoStatusKeepsLastStatus(Received(mid), chatId, LastStatus(Received(sp), chatId, None));
      PreambleEndsProcessing(message, threadId, chatId);
    }
  }

  /** After `started` and the preamble, the last status is the `processing` one. */
  lemma PreambleEndsProcessing(message: string, threadId: int, chatId: int)
    ensures LastStatus(Received([StatusOut(Started, ProcessingStatusMessage, threadId, chatId)] + Preamble(message, threadId, chatId)),
                       chatId, None) == Some(StuckStatus(threadId, chatId))
  {
    var sp := [StatusOut(Started, ProcessingStatusMessage, threadId, chatId)] + Preamble(message, threadId, chatId);
    assert sp == sp[..|sp| - 1] + [sp[|sp| - 1]];
    assert sp[|sp| - 1] == StatusOut(Processing, "Generating response with AI", threadId, chatId);
    ReceivedAppend(sp[..|sp| - 1], [sp[|sp| - 1]]);
    ReceivedOne(sp[|sp| - 1]);
    LastStatusIsFinalStatus(Received(sp), StuckStatus(threadId, chatId), chatId, None);
  }

  /** The user's chat as the view receives it. */
  function UserNotice(threadId: int, message: string, userChatId: int, createdAt: string): MessageNotice {
    MessageNotice(userChatId, threadId, message, User, createdAt)
  }

  /** The empty assistant chat as the view receives it. */
  function AssistantNotice(threadId: int, assistantChatId: int, createdAt: string): MessageNotice {
    MessageNotice(assistantChatId, threadId, "", Assistant, createdAt)
  }

  /** The view receives `thread_info`, both chats, then the tail. */
  lemma ExchangeReceived(thread: ThreadRow, requested: Option<int>, message: string,
                         userChatId: int, assistantChatId: int, createdAt: string, reply: LlmReply)
    ensures Received([ThreadInfo(thread, requested)] + ExchangeEvents(thread.id, message, userChatId, assistantChatId, createdAt, reply))
         == [ ThreadInfoIn(ThreadNotice(thread.id, thread.title, thread.created_at, IsNew(requested, thread.id))),
              MessageIn(UserNotice(thread.id, message, userChatId, createdAt)),
              MessageIn(AssistantNotice(thread.id, assistantChatId, createdAt)) ]
            + Received(ProcessingEvents(message, thread.id, assistantChatId, reply))
  {
    var tid, u, a := thread.id, userChatId, assistantChatId;
    var info := ThreadInfo(thread, requested);
    var mu := ChatMessageOut(tid, u, User, message, createdAt);
    var ma := ChatMessageOut(tid, a, Assistant, "", createdAt);
    var tail := ProcessingEvents(message, tid, a, reply);
    var head := [info, mu, ma];
    assert [info] + ExchangeEvents(tid, message, u, a, createdAt, reply) == head + tail by {
      assert [info] + Announcements(tid, message, u, a, createdAt) == head;
    }
    ReceivedAppend(head, tail);
    ReceivedThree(info, mu, ma);
  }

  /** Three events the view listens to reach it as they are, in order. */
  lemma ReceivedThree(e0: Event, e1: Event, e2: Event)
    requires Deliver(e0).Some? && Deliver(e1).Some? && Deliver(e2).Some?
    ensures Received([e0, e1, e2]) == [Deliver(e0).value, Deliver(e1).value, Deliver(e2).value]
  {
    assert [e0, e1, e2] == [e0] + [e1] + [e2];
    ReceivedAppend([e0] + [e1], [e2]);
    ReceivedAppend([e0], [e1]);
    ReceivedOne(e0);
    ReceivedOne(e1);
    ReceivedOne(e2);
  }

  /** Statuses and chunks for one chat that all name `chatId`. */
  predicate ConcernsOnly(r: seq<Inbound>, chatId: int) {
    forall k :: 0 <= k < |r| ==> (r[k].StatusIn? && r[k].status.chat_id == chatId) || (r[k].ChunkIn? && r[k].chat_id == chatId)
  }

  /** Events for one chat leave every entry of another chat as it was, and add none. */
  lemma OneChatLeavesOthers(base: seq<Entry>, r: seq<Inbound>, chatId: int, i: int)
    requires ConcernsOnly(r, chatId)
    requires 0 <= i < |base| && base[i].chat.id != chatId
    ensures |Fold(base, r)| == |base|
    ensures Fold(base, r)[i] == base[i]
  {
    FoldWithoutMessagesKeepsLength(base, r);
    FoldAt(base, r, i);
    var id := base[i].chat.id;
    forall k | 0 <= k < |r| ensures !Targets(r[k], id) { }
    UntargetedLeavesChatAlone(r, id, base[i].status, base[i].streamed);
  }

  /** An entry with no status, no streamed text and no content shows the chunks and the last status for it. */
  lemma FreshEntryShows(base: seq<Entry>, r: seq<Inbound>, i: int)
    requires 0 <= i < |base| && base[i].status.None? && base[i].streamed.None? && base[i].chat.content == ""
    ensures var shown := Render(Fold(base, r)[i]);
            var last := LastStatus(r, base[i].chat.id, None);
            && shown.text == ChunkText(r, base[i].chat.id)
            && shown.fromUser == (base[i].chat.role == User)
            && (shown.badge.Some? <==> last.Some? && last.value.phase != CompletedPhase)
            && (shown.badge.Some? ==> shown.badge == last)
  {
    FoldAt(base, r, i);
    RenderAfterEvents(base, r, i);
  }

  /**
   * One exchange end to end: after the events `chat_message` emits, the view
   * holds its earlier entries untouched and, after them, the user's chat
   * showing the message and the assistant's chat showing the streamed
   * response. On success no badge remains; when the model raised, the badge
   * stays on `processing`, since the `error` event has no listener.
   */
  lemma ExchangeReachesView(chats: seq<Entry>, thread: ThreadRow, requested: Option<int>, message: string,
                            userChatId: int, assistantChatId: int, createdAt: string, reply: LlmReply)
    requires userChatId != assistantChatId
    requires !HasId(chats, userChatId) && !HasId(chats, assistantChatId)
    ensures var after := Fold(chats, Received([ThreadInfo(thread, requested)]
                                            + ExchangeEvents(thread.id, message, userChatId, assistantChatId, createdAt, reply)));
            && |after| == |chats| + 2
            && after[..|chats|] == chats
            && Render(after[|chats|]) == View(message, None, true)
            && Render(after[|chats| + 1]).text == Concat(reply.chunks)
            && !Render(after[|chats| + 1]).fromUser
            && (reply.failure.None? ==> Render(after[|chats| + 1]).badge.None?)
            && (reply.failure.Some? ==> Render(after[|chats| + 1]).badge == Some(StuckStatus(thread.id, assistantChatId)))
  {
    var tid, a := thread.id, assistantChatId;
    var head := [ ThreadInfoIn(ThreadNotice(tid, thread.title, thread.created_at, IsNew(requested, tid))),
                  MessageIn(UserNotice(tid, message, userChatId, createdAt)),
                  MessageIn(AssistantNotice(tid, a, createdAt)) ];
    var r := Received(ProcessingEvents(message, tid, a, reply));
    ExchangeReceived(thread, requested, message, userChatId, a, createdAt, reply);
    OpeningAppendsBothChats(chats, head[0].info, head[1].notice, head[2].notice);
    FoldAppend(chats, head, r);
    var base := chats + [NewEntry(head[1].notice), NewEntry(head[2].notice)];
    TailConcernsAssistant(message, tid, a, reply);
    TailSpellsResponse(message, tid, a, reply);
    TailLastStatus(message, tid, a, reply);
    ExchangeEndsInView(chats, base, r, message, a, Concat(reply.chunks),
                       if reply.failure.None? then Some(ChatStatus(CompletedPhase, CompletedStatusMessage, tid, a))
                       else Some(StuckStatus(tid, a)));
  }

  /** The fold of the tail over the view with both chats appended, with the tail's effect given. */
  lemma ExchangeEndsInView(chats: seq<Entry>, base: seq<Entry>, r: seq<Inbound>, message: string, a: int,
                           text: string, last: Option<ChatStatus>)
    requires |base| == |chats| + 2 && base[..|chats|] == chats
    requires base[|chats|].chat.id != a && base[|chats|].status.None? && base[|chats|].streamed.None?
    requires base[|chats|].chat.content == message && base[|chats|].chat.role == User
    requires base[|chats| + 1].chat.id == a && base[|chats| + 1].status.None? && base[|chats| + 1].streamed.None?
    requires base[|chats| + 1].chat.content == "" && base[|chats| + 1].chat.role == Assistant
    requires !HasId(chats, a)
    requires ConcernsOnly(r, a) && ChunkText(r, a) == text && LastStatus(r, a, None) == last
    ensures var after := Fold(base, r);
            && |after| == |chats| + 2
            && after[..|chats|] == chats
            && Render(after[|chats|]) == View(message, None, true)
            && Render(after[|chats| + 1]).text == text
            && !Render(after[|chats| + 1]).fromUser
            && (Render(after[|chats| + 1]).badge.Some? <==> last.Some? && last.value.phase != CompletedPhase)
            && (Render(after[|chats| + 1]).badge.Some? ==> Render(after[|chats| + 1]).badge == last)
  {
    var after := Fold(base, r);
    OneChatLeavesOthers(base, r, a, |chats|);
    forall i | 0 <= i < |chats| + 1
      ensures after[i] == base[i]
    {
      if i < |chats| {
        assert base[i] == base[..|chats|][i];
      }
      OneChatLeavesOthers(base, r, a, i);
    }
    assert after[..|chats|] == chats;
    FreshEntryShows(base, r, |chats| + 1);
  }

  /**
   * Reloading the thread after an exchange (the snapshot call, then the
   * seeding effect) shows the user's message and the stored reply: the
   * streamed response on success, as the live view does, but an empty
   * assistant chat when the model raised, where the live view still shows
   * the chunks streamed before the failure.
   */
  lemma ReloadAfterExchange(threads: map<int, ThreadRow>, chats: seq<ChatRow>, thread: ThreadRow, userId: string,
                            message: string, userChatId: int, assistantChatId: int, createdAt: string, reply: LlmReply)
    requires OwnsThread(threads, thread.id, userId)
    ensures var r := GetChatsIntended(threads, chats + ExchangeRows(thread.id, message, userChatId, assistantChatId, createdAt, reply),
                                      thread.id, userId);
            && r.Ok?
            && var shown := Seeded(r.value);
            && |shown| == |ChatsOf(chats, thread.id)| + 2
            && Render(shown[|shown| - 2]) == View(message, None, true)
            && Render(shown[|shown| - 1]) == View(if reply.failure.None? then Concat(reply.chunks) else "", None, false)
  {
    var rows := ExchangeRows(thread.id, message, userChatId, assistantChatId, createdAt, reply);
    GetChatsAfterAppend(threads, chats, thread.id, userId, rows);
    SeededEndsWith(ChatsOf(chats, thread.id), rows);
  }

  /**
   * The snapshot the endpoint serves for any thread the user owns seeds the
   * view with unique chat ids, since the chat table's ids are distinct.
   */
  lemma SnapshotSeedsUniqueIds(db: Database, threadId: int, userId: string)
    requires db.Valid() && OwnsThread(db.threads, threadId, userId)
    ensures var r := GetChatsIntended(db.threads, db.chats, threadId, userId);
            r.Ok? && UniqueIds(Seeded(r.value))
  {
    var rows := ChatsOf(db.chats, threadId);
    ChatsOfKeepsDistinctIds(db.chats, threadId);
    var shown := Seeded(Snapshot(rows));
    forall i, j | 0 <= i < j < |shown|
      ensures shown[i].chat.id != shown[j].chat.id
    {
      assert shown[i].chat == ToChat(rows[i]) && shown[j].chat == ToChat(rows[j]);
    }
  }

  /** Seeding from a snapshot that ends with two rows puts their chats last, with no annotation. */
  lemma SeededEndsWith(earlier: seq<ChatRow>, rows: seq<ChatRow>)
    requires |rows| == 2
    ensures var shown := Seeded(Snapshot(earlier + rows));
            && |shown| == |earlier| + 2
            && shown[|shown| - 2] == Entry(ToChat(rows[0]), None, None)
            && shown[|shown| - 1] == Entry(ToChat(rows[1]), None, None)
  {
    var all := earlier + rows;
    assert all[|all| - 2] == rows[0] && all[|all| - 1] == rows[1];
  }
}
