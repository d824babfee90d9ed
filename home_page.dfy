/**
 * The thread directory of the home page (frontend/app/page.tsx): the list of
 * threads, the current thread, the snapshot of its chats and the socket, all
 * React state that the page's handlers set one after another.
 *
 * Requests to the server are outside the model: each handler takes the
 * server's answer (or failure) as a parameter.
 */
module HomePage {
  import opened Wrappers
  import opened Api
  import opened AuthContext

  /** A socket opened with a token; `connected` turns false when its effect is cleaned up. */
  datatype Connection = Connection(token: string, connected: bool)

  /** A rejected request as the page reads it: `error?.data?.detail`. */
  datatype RequestFailure = RequestFailure(detail: Option<string>)

  const SelectFailedNotice: string := "Failed to fetch thread chats"

  /** The toast shown when loading a thread's chats fails. */
  function SelectNotice(f: RequestFailure): (notice: string)
    ensures f.detail.Some? && f.detail.value != "" ==> notice == f.detail.value
    ensures f.detail.None? || f.detail.value == "" ==> notice == SelectFailedNotice
  {
    if f.detail.Some? && f.detail.value != "" then f.detail.value else SelectFailedNotice
  }

  /** The connection after the cleanup of the effect that opened it. */
  function Closed(socket: Option<Connection>): (r: Option<Connection>)
    ensures r.Some? <==> socket.Some?
    ensures r.Some? ==> r.value.token == socket.value.token && !r.value.connected
  {
    if socket.Some? then Some(socket.value.(connected := false)) else None
  }

  class Page {
    var threads: seq<Thread>
    var currentThread: Option<Thread>
    var currentChats: seq<Chat>
    var socket: Option<Connection>

    constructor ()
      ensures threads == [] && currentThread.None? && currentChats == [] && socket.None?
    {
      threads := [];
      currentThread := None;
      currentChats := [];
      socket := None;
    }

    /** The current thread, when there is one, is in the list of threads. */
    predicate CurrentListed()
      reads this
    {
      currentThread.Some? ==> currentThread.value in threads
    }

    /**
     * The effect on `token`: the previous run's socket is disconnected; a
     * `null` token calls `logout`; a falsy token stops there, building no
     * client and no socket; a truthy one opens a socket with it and starts
     * fetching the thread list.
     */
    method OnTokenChange(token: Token) returns (callsLogout: bool, fetchesThreads: bool)
      modifies this`socket
      ensures callsLogout <==> token.None?
      ensures fetchesThreads <==> Truthy(token)
      ensures Truthy(token) ==> socket == Some(Connection(token.value, true))
      ensures !Truthy(token) ==> socket == Closed(old(socket))
    {
      socket := Closed(socket);
      callsLogout := token.None?;
      if !Truthy(token) {
        fetchesThreads := false;
        return;
      }
      socket := Some(Connection(token.value, true));
      fetchesThreads := true;
    }

    /** `fetchThreads` completing: the list is replaced on success, kept on failure. */
    method OnThreadsFetched(response: Result<seq<Thread>, RequestFailure>)
      modifies this`threads
      ensures threads == if response.Ok? then response.value else old(threads)
    {
      if response.Ok? {
        threads := response.value;
      }
    }

    /**
     * `handleCreateThread`: with a truthy token and a created thread, the
     * thread is appended to the list and becomes current; otherwise nothing
     * changes.
     */
    method CreateThread(token: Token, response: Result<Thread, RequestFailure>)
      modifies this`threads, this`currentThread
      ensures Truthy(token) && response.Ok? ==>
                threads == old(threads) + [response.value] && currentThread == Some(response.value) && CurrentListed()
      ensures !Truthy(token) || response.Err? ==> threads == old(threads) && currentThread == old(currentThread)
    {
      if !Truthy(token) {
        return;
      }
      if response.Ok? {
        threads := threads + [response.value];
        currentThread := Some(response.value);
      }
    }

    /**
     * `handleThreadSelect`: with a truthy token and a snapshot, the thread
     * becomes current and the snapshot replaces `currentChats`; a failure
     * changes neither and yields the toast text.
     */
    method SelectThread(token: Token, thread: Thread, response: Result<seq<Chat>, RequestFailure>)
      returns (notice: Option<string>)
      modifies this`currentThread, this`currentChats
      ensures Truthy(token) && response.Ok? ==>
                currentThread == Some(thread) && currentChats == response.value && notice.None?
      ensures Truthy(token) && response.Err? ==>
                currentThread == old(currentThread) && currentChats == old(currentChats) &&
                notice == Some(SelectNotice(response.error))
      ensures !Truthy(token) ==>
                currentThread == old(currentThread) && currentChats == old(currentChats) && notice.None?
    {
      notice := None;
      if !Truthy(token) {
        return;
      }
      match response
      case Ok(snapshot) =>
        currentThread := Some(thread);
        currentChats := snapshot;
      case Err(failure) =>
        notice := Some(SelectNotice(failure));
    }

    /**
     * `onThreadSelect={setCurrentThread}`: a thread the server declared new
     * becomes current without being added to the list, so the current thread
     * can be one the list does not hold.
     */
    method PromoteThread(t: Thread)
      modifies this`currentThread
      ensures currentThread == Some(t)
      ensures t !in threads ==> !CurrentListed()
    {
      currentThread := Some(t);
    }

    /** The chat view is rendered only with a truthy token, a current thread and a socket. */
    predicate ShowsChatView(token: Token)
      reads this
    {
      Truthy(token) && currentThread.Some? && socket.Some?
    }
  }
}
