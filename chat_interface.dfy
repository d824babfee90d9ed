/**
 * The chat view component (frontend/components/chat-interface.tsx) as an
 * object: its two pieces of React state, the transcript `chats` and the
 * composer text `message`, and the handlers that replace them.
 */
module ChatInterface {
  import opened Wrappers
  import opened Api
  import opened Transcript

  class ChatView {
    /** `const [chats, setChats] = useState<ExtendedChat[]>([])` */
    var chats: seq<Entry>
    /** `const [message, setMessage] = useState('')` */
    var message: string

    constructor ()
      ensures chats == [] && message == ""
    {
      chats := [];
      message := "";
    }

    /**
     * The effect on `currentChats`: a new snapshot replaces the whole
     * transcript, dropping any status or streamed text held so far.
     */
    method Seed(currentChats: seq<Chat>)
      modifies this`chats
      ensures chats == Seeded(currentChats)
      ensures UniqueIds(chats) <==> (forall i, j :: 0 <= i < j < |currentChats| ==> currentChats[i].id != currentChats[j].id)
    {
      chats := Seeded(currentChats);
      assert forall i :: 0 <= i < |chats| ==> chats[i].chat == currentChats[i];
    }

    /** `socket.on('status', handleStatus)` */
    method OnStatus(s: ChatStatus)
      modifies this`chats
      ensures chats == WithStatus(old(chats), s)
      ensures UniqueIds(old(chats)) ==> UniqueIds(chats)
      ensures !HasId(old(chats), s.chat_id) ==> chats == old(chats)
    {
      if UniqueIds(chats) {
        ApplyKeepsIdsUnique(chats, StatusIn(s));
      }
      if !HasId(chats, s.chat_id) {
        OrphanEventIsDropped(chats, StatusIn(s));
      }
      chats := WithStatus(chats, s);
    }

    /** `socket.on('response_chunk', handleResponseChunk)` */
    method OnResponseChunk(chunk: string, chatId: int)
      modifies this`chats
      ensures chats == WithChunk(old(chats), chunk, chatId)
      ensures UniqueIds(old(chats)) ==> UniqueIds(chats)
      ensures !HasId(old(chats), chatId) ==> chats == old(chats)
    {
      if UniqueIds(chats) {
        ApplyKeepsIdsUnique(chats, ChunkIn(chunk, chatId));
      }
      if !HasId(chats, chatId) {
        OrphanEventIsDropped(chats, ChunkIn(chunk, chatId));
      }
      chats := WithChunk(chats, chunk, chatId);
    }

    /** `socket.on('chat_message', handleChatMessage)` */
    method OnChatMessage(m: MessageNotice)
      modifies this`chats
      ensures chats == WithMessage(old(chats), m)
      ensures UniqueIds(old(chats)) ==> UniqueIds(chats)
    {
      if UniqueIds(chats) {
        ApplyKeepsIdsUnique(chats, MessageIn(m));
      }
      chats := WithMessage(chats, m);
    }

    /**
     * `socket.on('thread_info', handleThreadInfo)`: the transcript is left
     * alone; the result is the thread passed to `onThreadSelect`, if any.
     */
    method OnThreadInfo(info: ThreadNotice) returns (selected: Option<Thread>)
      ensures selected.Some? <==> info.is_new
      ensures selected.Some? ==> selected.value == Thread(info.thread_id, info.title, info.created_at)
    {
      selected := Promotion(info);
    }

    /** The input's `onChange`. */
    method Edit(text: string)
      modifies this`message
      ensures message == text
    {
      message := text;
    }

    /**
     * `handleSubmit`: sends `{message, thread_id}` and clears the input, or
     * does nothing at all for a blank message or without a current thread.
     */
    method Submit(currentThread: Option<Thread>) returns (sent: Option<Outbound>)
      modifies this`message
      ensures sent.None? <==> Blank(old(message)) || currentThread.None?
      ensures sent.Some? ==> sent.value == SendChat(old(message), currentThread.value.id)
      ensures message == if sent.Some? then "" else old(message)
    {
      sent := SubmitOutcome(message, currentThread);
      if sent.Some? {
        message := "";
      }
    }
  }
}
