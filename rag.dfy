/**
 * The reply pipeline of the backend (backend/app/rag.py): the progress
 * statuses, the prompt history, and the loop that streams the model's
 * chunks to the client while accumulating the response.
 *
 * The language model is a parameter of the chatbot: a function from the
 * prompt (history turns and question) to the stream it produces, which may
 * end with an exception after some chunks. Sleeps and prompt templating are
 * not modelled.
 */
module Rag {
  import opened Wrappers
  import opened Api
  import opened Models
  import opened Socket

  /** One earlier turn handed to the prompt: `(c.role, c.content)`. */
  datatype Turn = Turn(role: Role, content: string)

  /** What the model streams for a prompt: its chunks, then the end of the stream or an exception. */
  datatype LlmReply = LlmReply(chunks: seq<string>, failure: Option<string>)

  // ---------------------------------------------------------------------
  // The prompt history
  // ---------------------------------------------------------------------

  /** `[(c.role, c.content) for c in history if c.content]` */
  function PromptHistory(history: seq<ChatRow>): (r: seq<Turn>)
    ensures |r| <= |history|
    decreases |history|
  {
    if history == [] then []
    else
      (if history[0].content != "" then [Turn(history[0].role, history[0].content)] else [])
      + PromptHistory(history[1..])
  }

  /** The filter keeps order: the history of a concatenation is the concatenation of the histories. */
  lemma {:induction false} PromptHistoryAppend(a: seq<ChatRow>, b: seq<ChatRow>)
    ensures PromptHistory(a + b) == PromptHistory(a) + PromptHistory(b)
    decreases |a|
  {
    if a == [] {
      assert a + b == b;
    } else {
      assert (a + b)[0] == a[0] && (a + b)[1..] == a[1..] + b;
      PromptHistoryAppend(a[1..], b);
    }
  }

  /** No turn of the prompt history is empty. */
  lemma {:induction false} PromptHistoryHasNoEmptyTurn(history: seq<ChatRow>)
    ensures forall k :: 0 <= k < |PromptHistory(history)| ==> PromptHistory(history)[k].content != ""
    decreases |history|
  {
    if history != [] {
      PromptHistoryHasNoEmptyTurn(history[1..]);
    }
  }

  /** Every row with content is in the prompt history. */
  lemma {:induction false} PromptHistoryKeepsNonEmpty(history: seq<ChatRow>)
    ensures forall c :: c in history && c.content != "" ==> Turn(c.role, c.content) in PromptHistory(history)
    decreases |history|
  {
    if history != [] {
      PromptHistoryKeepsNonEmpty(history[1..]);
      forall c | c in history && c.content != ""
        ensures Turn(c.role, c.content) in PromptHistory(history)
      {
        if c != history[0] {
          assert c in history[1..];
        }
      }
    }
  }

  /** Every turn of the prompt history comes from a row of the history that has content. */
  lemma {:induction false} PromptHistoryOnlyFromRows(history: seq<ChatRow>)
    ensures forall t :: t in PromptHistory(history) ==>
              exists c :: c in history && c.content != "" && t == Turn(c.role, c.content)
    decreases |history|
  {
    if history != [] {
      PromptHistoryOnlyFromRows(history[1..]);
      forall t | t in PromptHistory(history)
        ensures exists c :: c in history && c.content != "" && t == Turn(c.role, c.content)
      {
        if history[0].content != "" && t == Turn(history[0].role, history[0].content) {
          assert history[0] in history;
        } else {
          assert t in PromptHistory(history[1..]);
          var c :| c in history[1..] && c.content != "" && t == Turn(c.role, c.content);
          assert c in history;
        }
      }
    }
  }

  /** A history with no empty row is passed whole, turn for row. */
  lemma {:induction false} PromptHistoryOfNonEmptyRows(history: seq<ChatRow>)
    requires forall k :: 0 <= k < |history| ==> history[k].content != ""
    ensures |PromptHistory(history)| == |history|
    ensures forall k :: 0 <= k < |history| ==> PromptHistory(history)[k] == Turn(history[k].role, history[k].content)
    decreases |history|
  {
    if history != [] {
      assert history[0].content != "";
      assert forall k :: 0 <= k < |history[1..]| ==> history[1..][k].content != "" by {
        forall k | 0 <= k < |history[1..]| ensures history[1..][k].content != "" {
          assert history[1..][k] == history[k + 1];
        }
      }
      PromptHistoryOfNonEmptyRows(history[1..]);
    }
  }

  // ---------------------------------------------------------------------
  // The events of one reply
  // ---------------------------------------------------------------------

  /** The chunks joined in order. */
  function Concat(chunks: seq<string>): string
    decreases |chunks|
  {
    if chunks == [] then "" else chunks[0] + Concat(chunks[1..])
  }

  /** `response += chunk` on a response built from the earlier chunks. */
  lemma {:induction false} ConcatSnoc(chunks: seq<string>, last: string)
    ensures Concat(chunks + [last]) == Concat(chunks) + last
    decreases |chunks|
  {
    if chunks == [] {
      assert chunks + [last] == [last];
      assert Concat([last]) == last + Concat([]);
    } else {
      assert (chunks + [last])[0] == chunks[0] && (chunks + [last])[1..] == chunks[1..] + [last];
      ConcatSnoc(chunks[1..], last);
    }
  }

  /** The statuses and the search results emitted before the model is called. */
  function Preamble(message: string, threadId: int, chatId: int): seq<Event> {
    [ StatusOut(Started, "Beginning to process your message", threadId, chatId),
      StatusOut(Searching, "Searching through relevant documents", threadId, chatId),
      StatusOut(Retrieving, "Found 3 relevant documents", threadId, chatId),
      SearchResultsOut("Simulated search results for: " + message, threadId, chatId),
      StatusOut(Embedding, "Calculating embeddings for context", threadId, chatId),
      StatusOut(Processing, "Generating response with AI", threadId, chatId) ]
  }

  /** One `response_chunk` event per chunk, in order. */
  function ChunkEvents(chunks: seq<string>, threadId: int, chatId: int): (evs: seq<Event>)
    ensures |evs| == |chunks|
    ensures forall k :: 0 <= k < |chunks| ==> evs[k] == ResponseChunkOut(chunks[k], threadId, chatId)
    decreases |chunks|
  {
    if chunks == [] then [] else [ResponseChunkOut(chunks[0], threadId, chatId)] + ChunkEvents(chunks[1..], threadId, chatId)
  }

  const FinishedStatusMessage: string := "Finished processing your message"

  /** The closing status, emitted only when the stream ended without an exception. */
  function Finish(reply: LlmReply, threadId: int, chatId: int): seq<Event> {
    if reply.failure.None? then [StatusOut(Completed, FinishedStatusMessage, threadId, chatId)] else []
  }

  /** Everything `process_message` emits for one reply, in order. */
  function ReplyEvents(message: string, threadId: int, chatId: int, reply: LlmReply): seq<Event> {
    Preamble(message, threadId, chatId) + ChunkEvents(reply.chunks, threadId, chatId) + Finish(reply, threadId, chatId)
  }

  /** The phases of the `status` events, in emission order. */
  function Phases(evs: seq<Event>): seq<Phase>
    decreases |evs|
  {
    if evs == [] then []
    else (if evs[0].StatusOut? then [evs[0].phase] else []) + Phases(evs[1..])
  }

  lemma {:induction false} PhasesAppend(a: seq<Event>, b: seq<Event>)
    ensures Phases(a + b) == Phases(a) + Phases(b)
    decreases |a|
  {
    if a == [] {
      assert a + b == b;
    } else {
      assert (a + b)[0] == a[0] && (a + b)[1..] == a[1..] + b;
      PhasesAppend(a[1..], b);
    }
  }

  lemma {:induction false} ChunkEventsHaveNoPhase(chunks: seq<string>, threadId: int, chatId: int)
    ensures Phases(ChunkEvents(chunks, threadId, chatId)) == []
    decreases |chunks|
  {
    if chunks != [] {
      ChunkEventsHaveNoPhase(chunks[1..], threadId, chatId);
    }
  }

  /** The five statuses before the model is called, in order. */
  lemma PreamblePhases(message: string, threadId: int, chatId: int)
    ensures Phases(Preamble(message, threadId, chatId)) == [Started, Searching, Retrieving, Embedding, Processing]
  {
    var pre := Preamble(message, threadId, chatId);
    assert pre[6..] == [];
    assert Phases(pre[5..]) == [Processing] by { assert pre[5..][1..] == pre[6..]; }
    assert Phases(pre[4..]) == [Embedding, Processing] by { assert pre[4..][1..] == pre[5..]; }
    assert Phases(pre[3..]) == [Embedding, Processing] by { assert pre[3..][1..] == pre[4..]; }
    assert Phases(pre[2..]) == [Retrieving, Embedding, Processing] by { assert pre[2..][1..] == pre[3..]; }
    assert Phases(pre[1..]) == [Searching, Retrieving, Embedding, Processing] by { assert pre[1..][1..] == pre[2..]; }
  }

  /**
   * The statuses of a reply come in the order started, searching,
   * retrieving, embedding, processing, then completed when the stream ended
   * normally.
   */
  lemma PhasesInOrder(message: string, threadId: int, chatId: int, reply: LlmReply)
    ensures Phases(ReplyEvents(message, threadId, chatId, reply)) ==
            [Started, Searching, Retrieving, Embedding, Processing] + (if reply.failure.None? then [Completed] else [])
  {
    var pre := Preamble(message, threadId, chatId);
    var mid := ChunkEvents(reply.chunks, threadId, chatId);
    var fin := Finish(reply, threadId, chatId);
    PhasesAppend(pre + mid, fin);
    PhasesAppend(pre, mid);
    ChunkEventsHaveNoPhase(reply.chunks, threadId, chatId);
    PreamblePhases(message, threadId, chatId);
    if reply.failure.None? {
      assert fin[1..] == [];
    }
  }

  /** The text of the `response_chunk` events, joined in order. */
  function StreamedText(evs: seq<Event>): string
    decreases |evs|
  {
    if evs == [] then ""
    else (if evs[0].ResponseChunkOut? then evs[0].chunk else "") + StreamedText(evs[1..])
  }

  lemma {:induction false} StreamedTextAppend(a: seq<Event>, b: seq<Event>)
    ensures StreamedText(a + b) == StreamedText(a) + StreamedText(b)
    decreases |a|
  {
    if a == [] {
      assert a + b == b;
    } else {
      assert (a + b)[0] == a[0] && (a + b)[1..] == a[1..] + b;
      StreamedTextAppend(a[1..], b);
    }
  }

  lemma {:induction false} ChunkEventsText(chunks: seq<string>, threadId: int, chatId: int)
    ensures StreamedText(ChunkEvents(chunks, threadId, chatId)) == Concat(chunks)
    decreases |chunks|
  {
    if chunks != [] {
      ChunkEventsText(chunks[1..], threadId, chatId);
    }
  }

  /** The chunks the client was sent spell out exactly the model's response. */
  lemma StreamedTextIsResponse(message: string, threadId: int, chatId: int, reply: LlmReply)
    ensures StreamedText(ReplyEvents(message, threadId, chatId, reply)) == Concat(reply.chunks)
  {
    var pre := Preamble(message, threadId, chatId);
    var mid := ChunkEvents(reply.chunks, threadId, chatId);
    var fin := Finish(reply, threadId, chatId);
    StreamedTextAppend(pre + mid, fin);
    StreamedTextAppend(pre, mid);
    ChunkEventsText(reply.chunks, threadId, chatId);
    assert StreamedText(pre) == "" by {
      assert pre[6..] == [];
      assert StreamedText(pre[5..]) == "" by { assert pre[5..][1..] == pre[6..]; }
      assert StreamedText(pre[4..]) == "" by { assert pre[4..][1..] == pre[5..]; }
      assert StreamedText(pre[3..]) == "" by { assert pre[3..][1..] == pre[4..]; }
      assert StreamedText(pre[2..]) == "" by { assert pre[2..][1..] == pre[3..]; }
      assert StreamedText(pre[1..]) == "" by { assert pre[1..][1..] == pre[2..]; }
    }
    if reply.failure.None? {
      assert fin[1..] == [];
    }
  }

  /** An event addressed to chat `chatId` of thread `threadId`. */
  predicate About(e: Event, threadId: int, chatId: int) {
    match e
    case ThreadInfoOut(t, _, _, _) => false
    case ChatMessageOut(t, c, _, _, _) => t == threadId && c == chatId
    case StatusOut(_, _, t, c) => t == threadId && c == chatId
    case SearchResultsOut(_, t, c) => t == threadId && c == chatId
    case ResponseChunkOut(_, t, c) => t == threadId && c == chatId
    case ErrorOut(_, t, c) => t == threadId && c == chatId
  }

  /**
   * Every event of a reply carries the thread and chat ids of the call, and
   * `completed`, when sent, is the last event, after every chunk.
   */
  lemma ReplyEventsShape(message: string, threadId: int, chatId: int, reply: LlmReply)
    ensures var evs := ReplyEvents(message, threadId, chatId, reply);
            && (forall k :: 0 <= k < |evs| ==> About(evs[k], threadId, chatId))
            && (forall i, j :: 0 <= i < j < |evs| && evs[j].ResponseChunkOut? ==>
                  !(evs[i].StatusOut? && evs[i].phase == Completed))
            && (reply.failure.None? <==> |evs| > 0 && evs[|evs| - 1].StatusOut? && evs[|evs| - 1].phase == Completed)
  {
    var pre := Preamble(message, threadId, chatId);
    var mid := ChunkEvents(reply.chunks, threadId, chatId);
    var fin := Finish(reply, threadId, chatId);
    var evs := ReplyEvents(message, threadId, chatId, reply);
    assert evs == pre + mid + fin;
    forall k | 0 <= k < |evs|
      ensures About(evs[k], threadId, chatId)
    {
      if k < |pre| {
      } else if k < |pre| + |mid| {
        assert evs[k] == mid[k - |pre|];
      } else {
        assert evs[k] == fin[k - |pre| - |mid|];
      }
    }
    forall i, j | 0 <= i < j < |evs| && evs[j].ResponseChunkOut?
      ensures !(evs[i].StatusOut? && evs[i].phase == Completed)
    {
      if i >= |pre| {
        assert evs[i] == mid[i - |pre|];
      }
    }
    if reply.failure.Some? {
      assert fin == [];
      if |mid| > 0 {
        assert evs[|evs| - 1] == mid[|mid| - 1];
      } else {
        assert evs[|evs| - 1] == pre[5];
      }
    }
  }

  /** One more turn of the streaming loop extends the response and the chunk events by one chunk. */
  lemma StreamStepFacts(chunks: seq<string>, i: int, threadId: int, chatId: int)
    requires 0 <= i < |chunks|
    ensures Concat(chunks[..i + 1]) == Concat(chunks[..i]) + chunks[i]
    ensures ChunkEvents(chunks[..i + 1], threadId, chatId)
         == ChunkEvents(chunks[..i], threadId, chatId) + [ResponseChunkOut(chunks[i], threadId, chatId)]
  {
    assert chunks[..i + 1] == chunks[..i] + [chunks[i]];
    ConcatSnoc(chunks[..i], chunks[i]);
  }

  /**
   * Proof step for `ProcessMessage` only: `ReplyEvents` unfolded behind an
   * existing log, so that the method's loop states meet its postcondition.
   * It states nothing about the program beyond the definition.
   */
  lemma ReplyEmittedInOrder(sent: seq<Event>, message: string, threadId: int, chatId: int, reply: LlmReply)
    ensures sent + ReplyEvents(message, threadId, chatId, reply)
            == sent + Preamble(message, threadId, chatId) + ChunkEvents(reply.chunks, threadId, chatId)
               + (if reply.failure.None? then [StatusOut(Completed, FinishedStatusMessage, threadId, chatId)] else [])
  {
  }

  /** The status and search-result emits that open `process_message`. */
  method EmitPreamble(sio: SocketServer, message: string, threadId: int, chatId: int)
    modifies sio
    ensures sio.sent == old(sio.sent) + Preamble(message, threadId, chatId)
  {
    sio.Emit(StatusOut(Started, "Beginning to process your message", threadId, chatId));
    sio.Emit(StatusOut(Searching, "Searching through relevant documents", threadId, chatId));
    sio.Emit(StatusOut(Retrieving, "Found 3 relevant documents", threadId, chatId));
    sio.Emit(SearchResultsOut("Simulated search results for: " + message, threadId, chatId));
    sio.Emit(StatusOut(Embedding, "Calculating embeddings for context", threadId, chatId));
    sio.Emit(StatusOut(Processing, "Generating response with AI", threadId, chatId));
  }

  /**
   * The `async for chunk in ...` loop: each chunk is appended to the
   * response and sent to the client, so the response is the concatenation
   * of exactly the chunks sent.
   */
  method StreamChunks(sio: SocketServer, chunks: seq<string>, threadId: int, chatId: int) returns (response: string)
    modifies sio
    ensures response == Concat(chunks)
    ensures sio.sent == old(sio.sent) + ChunkEvents(chunks, threadId, chatId)
  {
    response := "";
    var i := 0;
    while i < |chunks|
      invariant 0 <= i <= |chunks|
      invariant response == Concat(chunks[..i])
      invariant sio.sent == old(sio.sent) + ChunkEvents(chunks[..i], threadId, chatId)
    {
      StreamStepFacts(chunks, i, threadId, chatId);
      response := response + chunks[i];
      sio.Emit(ResponseChunkOut(chunks[i], threadId, chatId));
      i := i + 1;
    }
    assert chunks[..i] == chunks;
  }

  class RagChatbot {
    /** The streaming model, as a function of the prompt it is given. */
    const llm: (seq<Turn>, string) -> LlmReply

    constructor (llm: (seq<Turn>, string) -> LlmReply)
      ensures this.llm == llm
    {
      this.llm := llm;
    }

    /**
     * `process_message`: emits the preamble, then one chunk event per chunk
     * while appending it to the response, then `completed`. The response is
     * the concatenation of the chunks; an exception from the model stops the
     * run before `completed` and is raised to the caller.
     */
    method ProcessMessage(sio: SocketServer, message: string, threadId: int, chatId: int, history: seq<ChatRow>)
      returns (r: Result<string, string>)
      modifies sio
      ensures var reply := llm(PromptHistory(history), message);
              && sio.sent == old(sio.sent) + ReplyEvents(message, threadId, chatId, reply)
              && r == if reply.failure.None? then Ok(Concat(reply.chunks)) else Err(reply.failure.value)
    {
      ghost var before := sio.sent;
      EmitPreamble(sio, message, threadId, chatId);
      var prompt := PromptHistory(history);
      var reply := llm(prompt, message);
      var response := StreamChunks(sio, reply.chunks, threadId, chatId);
      ReplyEmittedInOrder(before, message, threadId, chatId, reply);
      if reply.failure.Some? {
        r := Err(reply.failure.value);
        return;
      }
      sio.Emit(StatusOut(Completed, FinishedStatusMessage, threadId, chatId));
      r := Ok(response);
    }
  }
}
