/**
 * The events the backend emits on the socket of one client (the `sio.emit`
 * calls of backend/app/main.py and backend/app/rag.py). The transport is not
 * modelled: a server is the sequence of events sent to that client so far.
 */
module Socket {
  import opened Api

  /** The phases the backend reports on `status` events. */
  datatype Phase = Started | Searching | Retrieving | Embedding | Processing | Completed

  /** The `phase` string the event carries. */
  function PhaseName(p: Phase): (name: string)
    ensures name == CompletedPhase <==> p == Completed
  {
    match p
    case Started => "started"
    case Searching => "searching"
    case Retrieving => "retrieving"
    case Embedding => "embedding"
    case Processing => "processing"
    case Completed => "completed"
  }

  datatype Event =
    | ThreadInfoOut(thread_id: int, is_new: bool, title: string, created_at: string)
    | ChatMessageOut(thread_id: int, chat_id: int, role: Role, content: string, created_at: string)
    | StatusOut(phase: Phase, message: string, thread_id: int, chat_id: int)
    | SearchResultsOut(results: string, thread_id: int, chat_id: int)
    | ResponseChunkOut(chunk: string, thread_id: int, chat_id: int)
      /** The `error` event (its payload's phase is always "error"). */
    | ErrorOut(message: string, thread_id: int, chat_id: int)

  class SocketServer {
    /** Every event emitted to the client, in emission order. */
    var sent: seq<Event>

    constructor ()
      ensures sent == []
    {
      sent := [];
    }

    /** `await sio.emit(...)` */
    method Emit(e: Event)
      modifies this
      ensures sent == old(sent) + [e]
    {
      sent := sent + [e];
    }
  }
}
