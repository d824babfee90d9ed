/**
 * The transcript reducer of the chat view (frontend/components/chat-interface.tsx).
 *
 * Each socket handler of the view is a pure transition on the list of
 * entries (`prevChats => ...` passed to `setChats`); this module states them
 * as functions, folds a sequence of inbound events through them, and gives
 * the display rule of one entry and the guard of the composer.
 *
 * Faithful to the client as written: no handler looks at `thread_id`, and a
 * `completed` status is overwritten by any later status for the same chat.
 */
module Transcript {
  import opened Wrappers
  import opened Api

  /** A chat extended with its live annotations (`ExtendedChat`). */
  datatype Entry = Entry(chat: Chat, status: Option<ChatStatus>, streamed: Option<string>)

  /** The payload of a `chat_message` event. */
  datatype MessageNotice = MessageNotice(chat_id: int, thread_id: int, content: string, role: Role, created_at: string)

  /** The payload of a `thread_info` event. */
  datatype ThreadNotice = ThreadNotice(thread_id: int, title: string, created_at: string, is_new: bool)

  /**
   * The four socket events the view listens to. The `response_chunk`
   * handler destructures only `chunk` and `chat_id`, so nothing else of that
   * event is kept.
   */
  datatype Inbound =
    | StatusIn(status: ChatStatus)
    | ChunkIn(chunk: string, chat_id: int)
    | MessageIn(notice: MessageNotice)
    | ThreadInfoIn(info: ThreadNotice)

  /** `prevChats.some(chat => chat.id === id)` */
  predicate HasId(chats: seq<Entry>, id: int) {
    exists i :: 0 <= i < |chats| && chats[i].chat.id == id
  }

  /** At most one entry per chat id. */
  predicate UniqueIds(chats: seq<Entry>) {
    forall i, j :: 0 <= i < j < |chats| ==> chats[i].chat.id != chats[j].chat.id
  }

  /** `chat.streamedContent || ''` */
  function Streamed(e: Entry): string {
    e.streamed.GetOr("")
  }

  /** The seeding effect `setChats(currentChats)`: snapshot chats carry no annotation. */
  function Seeded(snapshot: seq<Chat>): (r: seq<Entry>)
    ensures |r| == |snapshot|
    ensures forall i :: 0 <= i < |r| ==> r[i].chat == snapshot[i] && r[i].status.None? && r[i].streamed.None?
  {
    seq(|snapshot|, i requires 0 <= i < |snapshot| => Entry(snapshot[i], None, None))
  }

  // ---------------------------------------------------------------------
  // The handlers
  // ---------------------------------------------------------------------

  /**
   * `handleStatus`: every entry whose id is the status's `chat_id` takes the
   * status; nothing else changes, and the list keeps its length and order.
   */
  function WithStatus(chats: seq<Entry>, s: ChatStatus): (r: seq<Entry>)
    ensures |r| == |chats|
    ensures forall i :: 0 <= i < |r| ==> r[i].chat == chats[i].chat && r[i].streamed == chats[i].streamed
    ensures forall i :: 0 <= i < |r| ==>
              r[i].status == if chats[i].chat.id == s.chat_id then Some(s) else chats[i].status
  {
    if chats == [] then []
    else
      var head := if chats[0].chat.id == s.chat_id then chats[0].(status := Some(s)) else chats[0];
      [head] + WithStatus(chats[1..], s)
  }

  /**
   * `handleResponseChunk`: every entry whose id is `chatId` has `chunk`
   * appended to its streamed text (a missing text counts as empty).
   */
  function WithChunk(chats: seq<Entry>, chunk: string, chatId: int): (r: seq<Entry>)
    ensures |r| == |chats|
    ensures forall i :: 0 <= i < |r| ==> r[i].chat == chats[i].chat && r[i].status == chats[i].status
    ensures forall i :: 0 <= i < |r| ==>
              r[i].streamed == if chats[i].chat.id == chatId then Some(Streamed(chats[i]) + chunk) else chats[i].streamed
  {
    if chats == [] then []
    else
      var head := if chats[0].chat.id == chatId then chats[0].(streamed := Some(Streamed(chats[0]) + chunk)) else chats[0];
      [head] + WithChunk(chats[1..], chunk, chatId)
  }

  /** The entry `handleChatMessage` builds: no status, no streamed text. */
  function NewEntry(m: MessageNotice): Entry {
    Entry(Chat(m.chat_id, m.content, m.role, m.created_at), None, None)
  }

  /**
   * `handleChatMessage`: a message whose id is already present changes
   * nothing; otherwise exactly one entry is appended at the end. In both
   * cases the id is present afterwards and the earlier entries are kept.
   */
  function WithMessage(chats: seq<Entry>, m: MessageNotice): (r: seq<Entry>)
    ensures HasId(r, m.chat_id)
    ensures |r| == if HasId(chats, m.chat_id) then |chats| else |chats| + 1
    ensures r[..|chats|] == chats
    ensures |r| > |chats| ==> r[|chats|] == NewEntry(m)
  {
    if HasId(chats, m.chat_id) then chats
    else
      var r := chats + [NewEntry(m)];
      assert r[|chats|].chat.id == m.chat_id;
      r
  }

  /** One inbound event applied to the entries; `thread_info` does not touch them. */
  function Apply(chats: seq<Entry>, ev: Inbound): (r: seq<Entry>)
    ensures |r| >= |chats|
  {
    match ev
    case StatusIn(s) => WithStatus(chats, s)
    case ChunkIn(chunk, id) => WithChunk(chats, chunk, id)
    case MessageIn(m) => WithMessage(chats, m)
    case ThreadInfoIn(_) => chats
  }

  /** The events applied one after another, in arrival order. */
  function Fold(chats: seq<Entry>, evs: seq<Inbound>): (r: seq<Entry>)
    ensures |r| >= |chats|
    decreases |evs|
  {
    if evs == [] then chats else Fold(Apply(chats, evs[0]), evs[1..])
  }

  // ---------------------------------------------------------------------
  // What the events do to one chat id
  // ---------------------------------------------------------------------

  /** The status of chat `id` after one event, given it was `x` before. */
  function StatusStep(ev: Inbound, id: int, x: Option<ChatStatus>): Option<ChatStatus> {
    if ev.StatusIn? && ev.status.chat_id == id then Some(ev.status) else x
  }

  /** The status of chat `id` after all the events: the last one received for it, else `x`. */
  function LastStatus(evs: seq<Inbound>, id: int, x: Option<ChatStatus>): Option<ChatStatus>
    decreases |evs|
  {
    if evs == [] then x else LastStatus(evs[1..], id, StatusStep(evs[0], id, x))
  }

  /** The streamed text of chat `id` after one event, given it was `s` before. */
  function StreamStep(ev: Inbound, id: int, s: Option<string>): Option<string> {
    if ev.ChunkIn? && ev.chat_id == id then Some(s.GetOr("") + ev.chunk) else s
  }

  /** The streamed text of chat `id` after all the events, given it was `s` before. */
  function StreamAfter(evs: seq<Inbound>, id: int, s: Option<string>): Option<string>
    decreases |evs|
  {
    if evs == [] then s else StreamAfter(evs[1..], id, StreamStep(evs[0], id, s))
  }

  /** The chunks addressed to chat `id`, concatenated in arrival order. */
  function ChunkText(evs: seq<Inbound>, id: int): string
    decreases |evs|
  {
    if evs == [] then ""
    else (if evs[0].ChunkIn? && evs[0].chat_id == id then evs[0].chunk else "") + ChunkText(evs[1..], id)
  }

  /** An event that names chat `id` through a status or a chunk. */
  predicate Targets(ev: Inbound, id: int) {
    (ev.StatusIn? && ev.status.chat_id == id) || (ev.ChunkIn? && ev.chat_id == id)
  }

  // ---------------------------------------------------------------------
  // Properties of the handlers
  // ---------------------------------------------------------------------

  /** A status or a chunk for a chat id that no entry has leaves the list as it is. */
  lemma {:induction false} OrphanEventIsDropped(chats: seq<Entry>, ev: Inbound)
    requires ev.StatusIn? || ev.ChunkIn?
    requires !HasId(chats, if ev.StatusIn? then ev.status.chat_id else ev.chat_id)
    ensures Apply(chats, ev) == chats
  {
    var r := Apply(chats, ev);
    assert |r| == |chats|;
    forall i | 0 <= i < |chats|
      ensures r[i] == chats[i]
    {
      if ev.StatusIn? {
        assert chats[i].chat.id != ev.status.chat_id;
      } else {
        assert chats[i].chat.id != ev.chat_id;
      }
    }
  }

  /** Delivering the same `chat_message` twice leaves the list as after one delivery. */
  lemma {:induction false} MessageIsIdempotent(chats: seq<Entry>, m: MessageNotice)
    ensures WithMessage(WithMessage(chats, m), m) == WithMessage(chats, m)
  {
    var once := WithMessage(chats, m);
    assert HasId(once, m.chat_id);
  }

  /** One event keeps every entry that was there, at its index, with its chat. */
  lemma {:induction false} ApplyAt(chats: seq<Entry>, ev: Inbound, i: int)
    requires 0 <= i < |chats|
    ensures |Apply(chats, ev)| >= |chats|
    ensures Apply(chats, ev)[i] == Entry(chats[i].chat,
                                         StatusStep(ev, chats[i].chat.id, chats[i].status),
                                         StreamStep(ev, chats[i].chat.id, chats[i].streamed))
  {
    match ev
    case StatusIn(s) =>
    case ChunkIn(chunk, id) =>
    case MessageIn(m) =>
      var r := WithMessage(chats, m);
      assert r[..|chats|][i] == chats[i];
    case ThreadInfoIn(_) =>
  }

  /**
   * After any events, the entry at index `i` still holds the same chat; its
   * status is the last one received for its id and its streamed text is what
   * the chunks for its id built on it.
   */
  lemma {:induction false} FoldAt(chats: seq<Entry>, evs: seq<Inbound>, i: int)
    requires 0 <= i < |chats|
    ensures |Fold(chats, evs)| >= |chats|
    ensures Fold(chats, evs)[i] == Entry(chats[i].chat,
                                         LastStatus(evs, chats[i].chat.id, chats[i].status),
                                         StreamAfter(evs, chats[i].chat.id, chats[i].streamed))
    decreases |evs|
  {
    if evs != [] {
      ApplyAt(chats, evs[0], i);
      FoldAt(Apply(chats, evs[0]), evs[1..], i);
    }
  }

  /** Streaming only appends: the text is the old text followed by the chunks for that id. */
  lemma {:induction false} StreamAfterIsConcatenation(evs: seq<Inbound>, id: int, s: Option<string>)
    ensures StreamAfter(evs, id, s).GetOr("") == s.GetOr("") + ChunkText(evs, id)
    decreases |evs|
  {
    if evs != [] {
      var s' := StreamStep(evs[0], id, s);
      StreamAfterIsConcatenation(evs[1..], id, s');
      var head := if evs[0].ChunkIn? && evs[0].chat_id == id then evs[0].chunk else "";
      assert s'.GetOr("") == s.GetOr("") + head;
      assert StreamAfter(evs, id, s).GetOr("") == s.GetOr("") + head + ChunkText(evs[1..], id);
    }
  }

  /**
   * After chunks c1..cn for an entry's id, interleaved with any other events,
   * its `streamedContent` is its earlier text followed by c1 + ... + cn.
   */
  lemma StreamedContentAccumulates(chats: seq<Entry>, evs: seq<Inbound>, i: int)
    requires 0 <= i < |chats|
    ensures Streamed(Fold(chats, evs)[i]) == Streamed(chats[i]) + ChunkText(evs, chats[i].chat.id)
  {
    FoldAt(chats, evs, i);
    StreamAfterIsConcatenation(evs, chats[i].chat.id, chats[i].streamed);
  }

  /** The last status can be read off the last segment that carries one. */
  lemma {:induction false} LastStatusAppend(a: seq<Inbound>, b: seq<Inbound>, id: int, x: Option<ChatStatus>)
    ensures LastStatus(a + b, id, x) == LastStatus(b, id, LastStatus(a, id, x))
    decreases |a|
  {
    if a != [] {
      assert (a + b)[0] == a[0] && (a + b)[1..] == a[1..] + b;
      LastStatusAppend(a[1..], b, id, StatusStep(a[0], id, x));
    } else {
      assert a + b == b;
    }
  }

  /** The chunk text of two segments is the chunk text of the first followed by that of the second. */
  lemma {:induction false} ChunkTextAppend(a: seq<Inbound>, b: seq<Inbound>, id: int)
    ensures ChunkText(a + b, id) == ChunkText(a, id) + ChunkText(b, id)
    decreases |a|
  {
    if a == [] {
      assert a + b == b;
    } else {
      assert (a + b)[0] == a[0] && (a + b)[1..] == a[1..] + b;
      ChunkTextAppend(a[1..], b, id);
    }
  }

  /** Events that do not name `id` leave its status and streamed text as they were. */
  lemma {:induction false} UntargetedLeavesChatAlone(evs: seq<Inbound>, id: int, x: Option<ChatStatus>, s: Option<string>)
    requires forall k :: 0 <= k < |evs| ==> !Targets(evs[k], id)
    ensures LastStatus(evs, id, x) == x
    ensures StreamAfter(evs, id, s) == s
    ensures ChunkText(evs, id) == ""
    decreases |evs|
  {
    if evs != [] {
      assert !Targets(evs[0], id);
      UntargetedLeavesChatAlone(evs[1..], id, x, s);
    }
  }

  /** The fold of two segments is the fold of the second over the fold of the first. */
  lemma {:induction false} FoldAppend(chats: seq<Entry>, a: seq<Inbound>, b: seq<Inbound>)
    ensures Fold(chats, a + b) == Fold(Fold(chats, a), b)
    decreases |a|
  {
    if a != [] {
      assert (a + b)[0] == a[0] && (a + b)[1..] == a[1..] + b;
      FoldAppend(Apply(chats, a[0]), a[1..], b);
    } else {
      assert a + b == b;
    }
  }

  /** Status, chunk and thread events never change the number of entries. */
  lemma {:induction false} FoldWithoutMessagesKeepsLength(chats: seq<Entry>, evs: seq<Inbound>)
    requires forall k :: 0 <= k < |evs| ==> !evs[k].MessageIn?
    ensures |Fold(chats, evs)| == |chats|
    decreases |evs|
  {
    if evs != [] {
      assert !evs[0].MessageIn?;
      FoldWithoutMessagesKeepsLength(Apply(chats, evs[0]), evs[1..]);
    }
  }

  /** Every handler keeps chat ids unique. */
  lemma {:induction false} ApplyKeepsIdsUnique(chats: seq<Entry>, ev: Inbound)
    requires UniqueIds(chats)
    ensures UniqueIds(Apply(chats, ev))
  {
    var r := Apply(chats, ev);
    if ev.MessageIn? && !HasId(chats, ev.notice.chat_id) {
      forall i, j | 0 <= i < j < |r|
        ensures r[i].chat.id != r[j].chat.id
      {
        assert r[..|chats|] == chats;
        if j == |chats| {
          assert r[i] == chats[i];
        } else {
          assert r[i] == chats[i] && r[j] == chats[j];
        }
      }
    } else if ev.MessageIn? {
    } else {
      forall i, j | 0 <= i < j < |r|
        ensures r[i].chat.id != r[j].chat.id
      {
        ApplyAt(chats, ev, i);
        ApplyAt(chats, ev, j);
      }
    }
  }

  /** Any run of events keeps chat ids unique. */
  lemma {:induction false} FoldKeepsIdsUnique(chats: seq<Entry>, evs: seq<Inbound>)
    requires UniqueIds(chats)
    ensures UniqueIds(Fold(chats, evs))
    decreases |evs|
  {
    if evs != [] {
      ApplyKeepsIdsUnique(chats, evs[0]);
      FoldKeepsIdsUnique(Apply(chats, evs[0]), evs[1..]);
    }
  }

  /**
   * No handler checks `thread_id`: a status that names another thread than
   * the one on screen is still applied to the matching entry.
   */
  lemma ForeignThreadStatusIsApplied(chats: seq<Entry>, s: ChatStatus, activeThread: int, i: int)
    requires 0 <= i < |chats| && chats[i].chat.id == s.chat_id
    requires s.thread_id != activeThread
    ensures Apply(chats, StatusIn(s))[i].status == Some(s)
  {
  }

  // ---------------------------------------------------------------------
  // The display rule (`ChatMessage`)
  // ---------------------------------------------------------------------

  /** What one entry shows: its text, its status badge, and which side it sits on. */
  datatype View = View(text: string, badge: Option<ChatStatus>, fromUser: bool)

  /** `chat.streamedContent || chat.content`, and a badge unless the status is completed. */
  function Render(e: Entry): (v: View)
    ensures v.fromUser <==> e.chat.role == User
    ensures v.badge.Some? <==> e.status.Some? && e.status.value.phase != CompletedPhase
    ensures v.badge.Some? ==> v.badge == e.status
    ensures v.text == "" <==> Streamed(e) == "" && e.chat.content == ""
    ensures Streamed(e) != "" ==> v.text == Streamed(e)
    ensures Streamed(e) == "" ==> v.text == e.chat.content
  {
    View(if Streamed(e) != "" then Streamed(e) else e.chat.content,
         if e.status.Some? && e.status.value.phase != CompletedPhase then e.status else None,
         e.chat.role == User)
  }

  /**
   * After a run of events, an entry shows the text it had plus every chunk
   * for its id, or its content when no text was ever streamed; a badge shows
   * iff the last status received is not `completed`.
   */
  lemma RenderAfterEvents(chats: seq<Entry>, evs: seq<Inbound>, i: int)
    requires 0 <= i < |chats|
    ensures var shown := Render(Fold(chats, evs)[i]);
            var text := Streamed(chats[i]) + ChunkText(evs, chats[i].chat.id);
            var last := LastStatus(evs, chats[i].chat.id, chats[i].status);
            && shown.text == (if text != "" then text else chats[i].chat.content)
            && (shown.badge.Some? <==> last.Some? && last.value.phase != CompletedPhase)
            && (shown.badge.Some? ==> shown.badge == last)
  {
    FoldAt(chats, evs, i);
    StreamedContentAccumulates(chats, evs, i);
  }

  /**
   * A `completed` status is not protected: a later status for the same chat
   * brings the badge back.
   */
  lemma {:induction false} CompletedIsOverwritten(chats: seq<Entry>, done: ChatStatus, later: ChatStatus, i: int)
    requires 0 <= i < |chats|
    requires done.chat_id == chats[i].chat.id && done.phase == CompletedPhase
    requires later.chat_id == chats[i].chat.id && later.phase != CompletedPhase
    ensures Render(Fold(chats, [StatusIn(done)])[i]).badge == None
    ensures Render(Fold(chats, [StatusIn(done), StatusIn(later)])[i]).badge == Some(later)
  {
    var id := chats[i].chat.id;
    FoldAt(chats, [StatusIn(done)], i);
    assert LastStatus([StatusIn(done)], id, chats[i].status) == Some(done);
    FoldAt(chats, [StatusIn(done), StatusIn(later)], i);
    assert [StatusIn(done), StatusIn(later)][1..] == [StatusIn(later)];
    assert [StatusIn(later)][1..] == [];
    assert LastStatus([StatusIn(later)], id, Some(done)) == Some(later);
    assert LastStatus([StatusIn(done), StatusIn(later)], id, chats[i].status) == Some(later);
  }

  // ---------------------------------------------------------------------
  // The composer (`handleSubmit`) and `handleThreadInfo`
  // ---------------------------------------------------------------------

  /** The characters `String.prototype.trim` removes: WhiteSpace and LineTerminator of ECMAScript. */
  predicate IsTrimmed(c: char) {
    var n := c as int;
    n == 0x09 || n == 0x0A || n == 0x0B || n == 0x0C || n == 0x0D || n == 0x20 || n == 0xA0 ||
    n == 0x1680 || (0x2000 <= n <= 0x200A) || n == 0x2028 || n == 0x2029 || n == 0x202F ||
    n == 0x205F || n == 0x3000 || n == 0xFEFF
  }

  function TrimStart(s: string): string {
    if |s| > 0 && IsTrimmed(s[0]) then TrimStart(s[1..]) else s
  }

  function TrimEnd(s: string): string {
    if |s| > 0 && IsTrimmed(s[|s| - 1]) then TrimEnd(s[..|s| - 1]) else s
  }

  /** `s.trim()` */
  function Trim(s: string): string {
    TrimEnd(TrimStart(s))
  }

  /** A message that is empty or made only of white space. */
  predicate Blank(s: string) {
    forall k :: 0 <= k < |s| ==> IsTrimmed(s[k])
  }

  lemma {:induction false} TrimStartEmptyIffBlank(s: string)
    ensures TrimStart(s) == "" <==> Blank(s)
  {
    if |s| > 0 && IsTrimmed(s[0]) {
      TrimStartEmptyIffBlank(s[1..]);
      if Blank(s[1..]) {
        forall k | 0 <= k < |s| ensures IsTrimmed(s[k]) {
          if k > 0 { assert s[k] == s[1..][k - 1]; }
        }
      }
      if Blank(s) {
        forall k | 0 <= k < |s[1..]| ensures IsTrimmed(s[1..][k]) {
          assert s[1..][k] == s[k + 1];
        }
      }
    } else if |s| > 0 {
      assert !IsTrimmed(s[0]);
    }
  }

  lemma {:induction false} TrimEndOfNonEmpty(s: string)
    requires s != "" && !IsTrimmed(s[0])
    ensures TrimEnd(s) != ""
    decreases |s|
  {
    if IsTrimmed(s[|s| - 1]) {
      assert |s| > 1;
      var t := s[..|s| - 1];
      assert t[0] == s[0];
      TrimEndOfNonEmpty(t);
    }
  }

  /** `!message.trim()` holds exactly of the blank messages. */
  lemma TrimEmptyIffBlank(s: string)
    ensures Trim(s) == "" <==> Blank(s)
  {
    TrimStartEmptyIffBlank(s);
    var t := TrimStart(s);
    if t != "" {
      TrimStartStopsAtText(s);
      TrimEndOfNonEmpty(t);
    }
  }

  lemma {:induction false} TrimStartStopsAtText(s: string)
    requires TrimStart(s) != ""
    ensures !IsTrimmed(TrimStart(s)[0])
  {
    if |s| > 0 && IsTrimmed(s[0]) {
      TrimStartStopsAtText(s[1..]);
    }
  }

  /** The outbound `chat_message` event of the composer. */
  datatype Outbound = SendChat(message: string, thread_id: int)

  /**
   * `handleSubmit`: nothing is sent for a blank message or when no thread is
   * current; otherwise the message, untrimmed, goes to the current thread.
   */
  function SubmitOutcome(message: string, current: Option<Thread>): (r: Option<Outbound>)
    ensures r.None? <==> Blank(message) || current.None?
    ensures r.Some? ==> r.value.message == message && r.value.thread_id == current.value.id
  {
    TrimEmptyIffBlank(message);
    if Trim(message) == "" || current.None? then None
    else Some(SendChat(message, current.value.id))
  }

  /**
   * `handleThreadInfo`: the thread handed to `onThreadSelect`, present iff
   * the server declares the thread new.
   */
  function Promotion(info: ThreadNotice): (r: Option<Thread>)
    ensures r.Some? <==> info.is_new
    ensures r.Some? ==> r.value.id == info.thread_id && r.value.title == info.title && r.value.created_at == info.created_at
  {
    if info.is_new then Some(Thread(info.thread_id, info.title, info.created_at)) else None
  }
}
