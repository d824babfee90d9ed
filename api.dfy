/**
 * The shapes shared by the REST calls and the socket events of the web
 * client (frontend/lib/api.ts): threads, chats and stream statuses.
 * Timestamps travel as ISO-8601 strings and are kept as such.
 */
module Api {

  datatype Role = User | Assistant

  /** A conversation thread as listed, created or declared by the server. */
  datatype Thread = Thread(id: int, title: string, created_at: string)

  /** One finalized chat turn as returned by the snapshot call. */
  datatype Chat = Chat(id: int, content: string, role: Role, created_at: string)

  /**
   * A progress update for an assistant reply. The client keeps `phase` as
   * the free-form string it receives; only "completed" is special to it.
   */
  datatype ChatStatus = ChatStatus(phase: string, message: string, thread_id: int, chat_id: int)

  const CompletedPhase: string := "completed"
}
