/**
 * The stored rows of the backend (backend/app/models.py): a thread belongs
 * to one user; a chat belongs to one thread.
 */
module Models {
  import opened Api

  datatype ThreadRow = ThreadRow(id: int, user_id: string, title: string, created_at: string)

  datatype ChatRow = ChatRow(id: int, thread_id: int, content: string, role: Role, created_at: string)

  /** `thread.chats`: the rows of one thread, in insertion order. */
  function ChatsOf(chats: seq<ChatRow>, threadId: int): (r: seq<ChatRow>)
    ensures forall k :: 0 <= k < |r| ==> r[k].thread_id == threadId
    ensures |r| <= |chats|
  {
    if chats == [] then []
    else (if chats[0].thread_id == threadId then [chats[0]] else []) + ChatsOf(chats[1..], threadId)
  }

  /** The rows of a thread in a table extended at its end: the old ones, then the new ones. */
  lemma {:induction false} ChatsOfAppend(a: seq<ChatRow>, b: seq<ChatRow>, threadId: int)
    ensures ChatsOf(a + b, threadId) == ChatsOf(a, threadId) + ChatsOf(b, threadId)
    decreases |a|
  {
    if a == [] {
      assert a + b == b;
    } else {
      assert (a + b)[0] == a[0] && (a + b)[1..] == a[1..] + b;
      ChatsOfAppend(a[1..], b, threadId);
    }
  }

  /** Rows that all belong to the thread are kept whole. */
  lemma {:induction false} ChatsOfOwnRows(rows: seq<ChatRow>, threadId: int)
    requires forall k :: 0 <= k < |rows| ==> rows[k].thread_id == threadId
    ensures ChatsOf(rows, threadId) == rows
    decreases |rows|
  {
    if rows != [] {
      assert rows[0].thread_id == threadId;
      ChatsOfOwnRows(rows[1..], threadId);
    }
  }

  /** Rows of the thread appended to the table come last among its rows, in order. */
  lemma AppendedRowsComeLast(chats: seq<ChatRow>, rows: seq<ChatRow>, threadId: int)
    requires forall k :: 0 <= k < |rows| ==> rows[k].thread_id == threadId
    ensures ChatsOf(chats + rows, threadId) == ChatsOf(chats, threadId) + rows
  {
    ChatsOfAppend(chats, rows, threadId);
    ChatsOfOwnRows(rows, threadId);
  }

  /** `thread.chats` holds exactly the rows of the table that belong to the thread. */
  lemma {:induction false} ChatsOfSelects(chats: seq<ChatRow>, threadId: int)
    ensures forall c :: c in ChatsOf(chats, threadId) <==> c in chats && c.thread_id == threadId
    decreases |chats|
  {
    if chats != [] {
      ChatsOfSelects(chats[1..], threadId);
      var head := if chats[0].thread_id == threadId then [chats[0]] else [];
      assert ChatsOf(chats, threadId) == head + ChatsOf(chats[1..], threadId);
      forall c ensures c in chats <==> c == chats[0] || c in chats[1..] {
        assert chats == [chats[0]] + chats[1..];
      }
    }
  }

  /** The primary key of the chat table: no two rows share an id. */
  predicate DistinctIds(rows: seq<ChatRow>) {
    forall i, j :: 0 <= i < j < |rows| ==> rows[i].id != rows[j].id
  }

  /** Selecting the rows of one thread keeps the primary key. */
  lemma {:induction false} ChatsOfKeepsDistinctIds(chats: seq<ChatRow>, threadId: int)
    requires DistinctIds(chats)
    ensures DistinctIds(ChatsOf(chats, threadId))
    decreases |chats|
  {
    if chats != [] {
      var rest := chats[1..];
      assert DistinctIds(rest) by {
        forall i, j | 0 <= i < j < |rest| ensures rest[i].id != rest[j].id {
          assert rest[i] == chats[i + 1] && rest[j] == chats[j + 1];
        }
      }
      ChatsOfKeepsDistinctIds(rest, threadId);
      if chats[0].thread_id == threadId {
        var tail := ChatsOf(rest, threadId);
        ChatsOfSelects(rest, threadId);
        var r := [chats[0]] + tail;
        assert ChatsOf(chats, threadId) == r;
        forall i, j | 0 <= i < j < |r| ensures r[i].id != r[j].id {
          if i == 0 {
            assert r[j] == tail[j - 1] && r[j] in rest;
            var m :| 0 <= m < |rest| && rest[m] == r[j];
            assert chats[m + 1] == r[j];
          } else {
            assert r[i] == tail[i - 1] && r[j] == tail[j - 1];
          }
        }
      }
    }
  }

  /** A thread no row points to has no chats. */
  lemma {:induction false} ChatsOfOtherThreads(chats: seq<ChatRow>, threadId: int)
    requires forall k :: 0 <= k < |chats| ==> chats[k].thread_id != threadId
    ensures ChatsOf(chats, threadId) == []
    decreases |chats|
  {
    if chats != [] {
      assert chats[0].thread_id != threadId;
      ChatsOfOtherThreads(chats[1..], threadId);
    }
  }
}
