# Transcript sync of the RAG chat proof of concept

This project models how one chat exchange travels through the chatbot
application and proves properties of that journey:

- A web client (Next.js) sends a `chat_message` over Socket.IO.
- The FastAPI server resolves or creates the thread and stores the user's chat and an empty assistant chat.
- The server then runs the retrieval pipeline, which emits a fixed series of `status` phases and streams the model's reply as `response_chunk` events.
- Finally the server stores the full response and emits `completed`, or emits `error` when the model raised.
- On the client, the chat view folds those events into its transcript and renders each entry.
- The home page keeps the thread list, the current thread and the chats snapshot.
- The session provider keeps the token.

Modules, one per part of the program:

- `Api`: the wire shapes `Thread`, `Chat` and `ChatStatus` (frontend/lib/api.ts).
- `Models`: the `threads` and `chats` rows, and the chats of one thread in insertion order (backend/app/models.py).
- `Socket`: the server's events, and the socket as an object whose `sent` log only grows.
- `Rag`: `RAGChatbot.process_message`:
  - the phase sequence;
  - the history filter;
  - the chunk stream and its accumulation;
  - the model as a function from prompt to chunks and an optional failure.
- `Backend`:
  - the database as an object with the two tables and their id sequences;
  - `get_or_create_thread`;
  - `is_new`;
  - the `chat_message` handler;
  - the `GET /threads/{id}/chats` endpoint.
- `Transcript`: the pure reducers of the chat view, the display rule of one message, and the submit guard.
- `ChatInterface`: the chat view component as an object, whose handlers replace its state with those reducers.
- `HomePage`: the home page's state and handlers.
- `AuthContext`: the session provider's token, loading flag, stored token and navigations.
- `Channel`: which server events the client listens to. It holds the end-to-end lemmas:
  - what the view shows after a whole exchange;
  - what it shows after a reload.

Timestamps come in as a `Clock` parameter. Server answers to client requests come in as parameters too. The language model is a function fixed when the chatbot is built.

## Model

| member | source | states |
|---|---|---|
| Transcript.WithStatus | frontend/components/chat-interface.tsx:87-96 | every entry with the status's chat id takes the status, whatever its thread; the other entries, the chats and the streamed texts are unchanged; length and order are kept |
| Transcript.WithChunk | frontend/components/chat-interface.tsx:98-111 | every entry with the chunk's chat id has the chunk appended to its streamed text, a missing text counting as empty; nothing else changes |
| Transcript.WithMessage | frontend/components/chat-interface.tsx:113-133 | the id is present afterwards; the earlier entries are kept as a prefix; exactly one bare entry is appended iff the id was absent |
| Transcript.MessageIsIdempotent | frontend/components/chat-interface.tsx:120-132 | delivering the same chat_message twice leaves the transcript as one delivery does |
| Transcript.OrphanEventIsDropped | frontend/components/chat-interface.tsx:87-111 | a status or chunk for a chat id no entry has leaves the transcript unchanged |
| Transcript.ApplyAt | frontend/components/chat-interface.tsx:86-154 | one event changes an existing entry only through its status and streamed text, as the event's kind and target say |
| Transcript.FoldAt | frontend/components/chat-interface.tsx:86-154 | after any run of events, an existing entry keeps its chat, has the last status addressed to it and the streamed text accumulated from its chunks |
| Transcript.StreamAfterIsConcatenation | frontend/components/chat-interface.tsx:105 | the streamed text after a run is the text before it followed by every chunk for that id, in arrival order |
| Transcript.StreamedContentAccumulates | frontend/components/chat-interface.tsx:98-111 | an entry's streamed text after any run of events is its earlier text plus the concatenation of the chunks addressed to it |
| Transcript.LastStatusAppend | frontend/components/chat-interface.tsx:87-96 | the status after two runs is the status after the second run started from the status after the first |
| Transcript.ChunkTextAppend | frontend/components/chat-interface.tsx:98-111 | the chunk text of two runs is the concatenation of their chunk texts |
| Transcript.UntargetedLeavesChatAlone | frontend/components/chat-interface.tsx:87-111 | events that name another chat leave this chat's status and streamed text unchanged |
| Transcript.FoldAppend | frontend/components/chat-interface.tsx:88-132 | folding two runs of events is folding the second over the result of the first |
| Transcript.FoldWithoutMessagesKeepsLength | frontend/components/chat-interface.tsx:87-111 | statuses, chunks and thread_info never add or remove entries |
| Transcript.ApplyKeepsIdsUnique | frontend/components/chat-interface.tsx:120-132 | every handler keeps chat ids unique in the transcript |
| Transcript.FoldKeepsIdsUnique | frontend/components/chat-interface.tsx:86-154 | any run of events keeps chat ids unique |
| Transcript.ForeignThreadStatusIsApplied | frontend/components/chat-interface.tsx:87-96 | a status whose thread_id is not the current thread is still applied to a matching entry |
| Transcript.RenderAfterEvents | frontend/components/chat-interface.tsx:47-69 | after any run, an entry shows its earlier streamed text plus its chunks, or its content when that is empty; it shows a badge iff the last status for it is not `completed`, and the badge is that status |
| Transcript.CompletedIsOverwritten | frontend/components/chat-interface.tsx:52 | `completed` hides the badge, but a later non-completed status for the same chat brings it back |
| Transcript.TrimStartEmptyIffBlank | frontend/components/chat-interface.tsx:167 | trimming the start leaves nothing iff every character is white space or a line terminator |
| Transcript.TrimEndOfNonEmpty | frontend/components/chat-interface.tsx:167 | a string that starts with text keeps something after trimming its end |
| Transcript.TrimStartStopsAtText | frontend/components/chat-interface.tsx:167 | a non-empty start-trimmed string starts with a character that is not trimmed |
| Transcript.TrimEmptyIffBlank | frontend/components/chat-interface.tsx:167 | `message.trim()` is empty iff the message is blank |
| Transcript.SubmitOutcome | frontend/components/chat-interface.tsx:165-175 | nothing is sent iff the message is blank or no thread is current; otherwise `{message, thread_id}` with the untrimmed message and the current thread's id |
| Transcript.Promotion | frontend/components/chat-interface.tsx:135-148 | a thread is passed up iff `is_new`, built from the notice's id, title and created_at |
| Transcript.Seeded | frontend/components/chat-interface.tsx:82-84 | one entry per snapshot chat, in order, carrying that chat with no status and no streamed text |
| Transcript.Apply | frontend/components/chat-interface.tsx:151-154 | each event goes to its handler (status, response_chunk, chat_message); thread_info leaves the entries alone; no entry is removed |
| Transcript.Fold | frontend/components/chat-interface.tsx:86-154 | the events applied one after another in arrival order; no entry is removed |
| Transcript.Render | frontend/components/chat-interface.tsx:47-69 | the entry sits on the user side iff its role is user; it shows a badge iff it has a status other than `completed`, and the badge is that status; it shows the streamed text when that is non-empty, else the content |
| Transcript.Trim | frontend/components/chat-interface.tsx:167 | `trim()` as start-trimming then end-trimming; `TrimEmptyIffBlank` states when it is empty |
| ChatInterface.ChatView.constructor | frontend/components/chat-interface.tsx:79-80 | empty transcript and empty input |
| ChatInterface.ChatView.Seed | frontend/components/chat-interface.tsx:82-84 | the snapshot replaces the transcript, with no status or streamed text; ids are unique iff the snapshot's are |
| ChatInterface.ChatView.OnStatus | frontend/components/chat-interface.tsx:87-96 | the new transcript is `WithStatus` of the old; unique ids are kept; an orphan status changes nothing |
| ChatInterface.ChatView.OnResponseChunk | frontend/components/chat-interface.tsx:98-111 | the new transcript is `WithChunk` of the old; unique ids are kept; an orphan chunk changes nothing |
| ChatInterface.ChatView.OnChatMessage | frontend/components/chat-interface.tsx:113-133 | the new transcript is `WithMessage` of the old; unique ids are kept |
| ChatInterface.ChatView.OnThreadInfo | frontend/components/chat-interface.tsx:135-148 | a thread is selected iff `is_new`, carrying the notice's id, title and created_at; the transcript is not touched |
| ChatInterface.ChatView.Edit | frontend/components/chat-interface.tsx:189 | the input holds the typed text |
| ChatInterface.ChatView.Submit | frontend/components/chat-interface.tsx:165-175 | nothing is sent and the input is kept iff the message is blank or no thread is current; otherwise the message goes to the current thread and the input is cleared |
| AuthContext.Rethrown | frontend/contexts/auth-context.tsx:31-33 | an axios error is rethrown as its response, any other error as itself |
| AuthContext.AuthProvider.constructor | frontend/contexts/auth-context.tsx:17-18 | the token starts as the falsy `""`, loading as true |
| AuthContext.AuthProvider.VerifyToken | frontend/contexts/auth-context.tsx:21-37 | on acceptance the token is set and stored; on refusal it is removed, the token becomes null and the failure is rethrown; loading ends either way |
| AuthContext.AuthProvider.Startup | frontend/contexts/auth-context.tsx:39-47 | a stored token is kept iff the server accepts it, else removed; with none stored the token is null; loading ends |
| AuthContext.AuthProvider.Login | frontend/contexts/auth-context.tsx:49-52 | navigates to `/` iff verification succeeded; a refusal propagates with no navigation |
| AuthContext.AuthProvider.Logout | frontend/contexts/auth-context.tsx:54-58 | the stored token is removed, the token becomes null and `/login` is appended to the navigations |
| HomePage.SelectNotice | frontend/app/page.tsx:70-78 | the toast is the failure's detail when present and non-empty, else the generic message |
| HomePage.Closed | frontend/app/page.tsx:42-44 | the cleanup disconnects the socket that was open, keeping its token, and creates none |
| HomePage.Page.ShowsChatView | frontend/app/page.tsx:81-113 | the chat view is rendered iff the token is truthy, a thread is current and a socket exists |
| HomePage.Page.constructor | frontend/app/page.tsx:15-18 | no threads, no current thread, no chats, no socket |
| HomePage.Page.OnTokenChange | frontend/app/page.tsx:20-45 | logout is called iff the token is null; the previous socket is disconnected; threads are fetched and a socket opened with the token iff it is truthy |
| HomePage.Page.OnThreadsFetched | frontend/app/page.tsx:31-40 | the thread list is replaced on success and kept on failure |
| HomePage.Page.CreateThread | frontend/app/page.tsx:47-59 | with a truthy token and a created thread, the thread is appended and becomes current (so the current thread is listed); otherwise nothing changes |
| HomePage.Page.SelectThread | frontend/app/page.tsx:61-79 | on success the thread becomes current and its chats replace the snapshot; on failure neither changes and the toast text is returned; without a token nothing happens |
| HomePage.Page.PromoteThread | frontend/app/page.tsx:111 | a thread declared new becomes current without being added to the list, so the current thread may be unlisted |
| Models.ChatsOf | backend/app/models.py:16 | the chats of a thread all carry its id and are no more than all chats |
| Models.ChatsOfAppend | backend/app/models.py:16 | the chats of a thread over two runs of rows are the chats from each, in order |
| Models.ChatsOfSelects | backend/app/models.py:16 | a row is among the chats of a thread iff it is stored with that thread's id |
| Models.ChatsOfOwnRows | backend/app/models.py:16 | rows that all belong to the thread are selected unchanged |
| Models.AppendedRowsComeLast | backend/app/models.py:16 | rows newly stored for a thread come after its earlier chats, in insertion order |
| Models.ChatsOfKeepsDistinctIds | backend/app/models.py:16-22 | selecting one thread's chats keeps the chat table's primary key: their ids stay distinct |
| Models.ChatsOfOtherThreads | backend/app/models.py:16-23 | a thread no chat points to has no chats |
| Socket.PhaseName | backend/app/rag.py:24-135 | a phase's wire name is `"completed"` iff the phase is Completed |
| Socket.SocketServer.Emit | backend/app/main.py:93-102 | each emit appends exactly that event to the log |
| Rag.PromptHistoryAppend | backend/app/rag.py:109 | the history filter distributes over concatenation |
| Rag.PromptHistoryHasNoEmptyTurn | backend/app/rag.py:109 | no turn given to the model has empty content |
| Rag.PromptHistoryKeepsNonEmpty | backend/app/rag.py:109 | every chat with content reaches the model as a turn with its role and content |
| Rag.PromptHistoryOfNonEmptyRows | backend/app/rag.py:109 | a history with no empty chat reaches the model whole, in order, role and content kept |
| Rag.PromptHistory | backend/app/rag.py:109 | the filter never yields more turns than there are chats |
| Rag.PromptHistoryOnlyFromRows | backend/app/rag.py:109 | every turn given to the model comes from a chat of the history that has content, with its role and content |
| Rag.ConcatSnoc | backend/app/rag.py:117-119 | adding one chunk to the response appends it at the end |
| Rag.ChunkEvents | backend/app/rag.py:118-124 | one `response_chunk` per chunk, in order, for the given thread and chat |
| Rag.PhasesAppend | backend/app/rag.py:24-135 | the phases of two runs of events are their phases in order |
| Rag.ChunkEventsHaveNoPhase | backend/app/rag.py:118-124 | chunk events carry no status phase |
| Rag.PreamblePhases | backend/app/rag.py:24-100 | the statuses before streaming are started, searching, retrieving, embedding and processing, in that order |
| Rag.Preamble | backend/app/rag.py:24-100 | the six emits before streaming: started, searching, retrieving, search_results, embedding, processing, with their messages; `PreamblePhases` states the phase order |
| Rag.ReplyEvents | backend/app/rag.py:24-135 | the preamble, one chunk event per chunk, then `completed` unless the model raised; `ReplyEventsShape`, `PhasesInOrder` and `StreamedTextIsResponse` state its properties |
| Rag.PhasesInOrder | backend/app/rag.py:24-135 | a run's phases are the five preamble phases, then `completed` iff the model did not raise |
| Rag.StreamedTextAppend | backend/app/rag.py:117-124 | streamed text distributes over concatenation |
| Rag.ChunkEventsText | backend/app/rag.py:117-124 | the chunk events spell the concatenated chunks |
| Rag.StreamedTextIsResponse | backend/app/rag.py:117-124 | the chunks emitted in a run spell the model's output, even when it raised part way |
| Rag.ReplyEventsShape | backend/app/rag.py:24-135 | every event of a run names its thread and chat; no `completed` status precedes a chunk; the run ends with `completed` iff the model did not raise |
| Rag.StreamStepFacts | backend/app/rag.py:117-124 | one more chunk extends the response and the chunk events by exactly that chunk |
| Rag.EmitPreamble | backend/app/rag.py:24-100 | the five statuses and the search results are emitted, in order |
| Rag.StreamChunks | backend/app/rag.py:117-124 | the response is the concatenation of the chunks and one chunk event per chunk is emitted, in order |
| Rag.RagChatbot.constructor | backend/app/rag.py:11-18 | the chatbot holds the given model |
| Rag.RagChatbot.ProcessMessage | backend/app/rag.py:20-139 | emits the run for the model's answer to the filtered history; returns the concatenated response, or the model's failure with `completed` not emitted |
| Backend.Database.constructor | backend/app/models.py:9-27 | empty tables whose id sequences start at 1 |
| Backend.Database.AddThread | backend/app/main.py:71-78 | the new thread takes the next id, which was free; nothing else is changed |
| Backend.Database.AddChat | backend/app/main.py:107-109 | for a stored thread, the new chat takes the next id, which no chat has, and is appended; the table keeps its primary key and foreign key |
| Backend.Database.UpdateContent | backend/app/main.py:165-167 | only the chat with that id changes, and only its content |
| Backend.WithContent | backend/app/main.py:165 | the chats keep their number and every field but content; the content changes exactly on the chat with that id |
| Backend.WithContentOfLast | backend/app/main.py:165-167 | with a unique id, rewriting the last chat's content changes only that chat |
| Backend.Look | backend/app/main.py:61-68 | a non-zero requested id finds the user's own thread, another user's thread, or nothing, each iff the table says so |
| Backend.GetOrCreateThread | backend/app/main.py:58-78 | another user's thread gives 403 with nothing changed; an owned thread is returned with nothing changed; otherwise a thread titled `"Thread " + local time` is created at a free id; a returned thread is stored under its id |
| Backend.Resolved | backend/app/main.py:61-78 | the thread returned is the user's: the owned row when found, else a new row at the next id with the `"Thread " + local time` title |
| Backend.IsNew | backend/app/main.py:97 | `thread_id is None or thread_id != thread.id`; the three lemmas below state when it holds |
| Backend.OwnedThreadIsNotNew | backend/app/main.py:97 | a message to a thread the user owns is never reported new |
| Backend.CreatedThreadIsNewUnlessIdReused | backend/app/main.py:97 | a created thread is reported new iff the requested id was not the one the sequence hands out next |
| Backend.ReusedIdHidesCreation | backend/app/main.py:61-97 | requesting the unused next id creates a thread at that id yet reports `is_new` false |
| Backend.CreatedThreadHasNoHistory | backend/app/main.py:71-104 | a thread the handler creates has no chats, so its history is empty |
| Backend.Announce | backend/app/main.py:106-139 | stores the user chat, then an empty assistant chat, each at the next chat id, and emits both chat_message events in that order |
| Backend.ProcessingEvents | backend/app/main.py:141-192 | the inner `try`'s events: `started` "Processing your message", the pipeline's run, then `completed` "Processing completed", or an `error` event carrying the failure |
| Backend.StoreResponse | backend/app/main.py:165-167 | the last chat, whose id is unique, takes the response and nothing else changes |
| Backend.Process | backend/app/main.py:141-193 | emits the started status, the pipeline's run, then `completed` or `error`; the assistant chat takes the full response, or stays empty if the model raised |
| Backend.Exchange | backend/app/main.py:104-193 | appends exactly the user chat and the assistant chat with its final content, and emits the announcements and the processing events |
| Backend.ChatMessage | backend/app/main.py:81-196 | another user's thread raises 403 and changes nothing; otherwise the resolved thread row is stored and thread_info is emitted first; a missing message then fails with no chat stored (a created thread stays); both id sequences advance by exactly the rows inserted; the model is prompted with the thread's chats stored before the message |
| Backend.Snapshot | backend/app/main.py:249-257 | one serialised chat per stored chat, in order |
| Backend.Decimal | backend/app/main.py:259 | the decimal rendering of a status code: a non-empty string of digits, with no leading zero, whose value is the code |
| Backend.Str | backend/app/main.py:259 | `str(e)` of an `HTTPException`: its status code in decimal, `": "`, then its detail |
| Backend.Rewrapped | backend/app/main.py:258-259 | the re-raised error has status 500 and the caught error's `str` as detail |
| Backend.GetChats | backend/app/main.py:235-259 | as written: the thread's chats iff the user owns it, else a 500 |
| Backend.GetChatsMasksNotFound | backend/app/main.py:247-259 | a thread the user does not own yields status 500 with detail `"404: Thread not found"` |
| Backend.GetChatsIntended | backend/app/main.py:235-257 | the thread's chats iff the user owns it, else 404 `"Thread not found"`; agrees with `GetChats` whenever that succeeds |
| Backend.GetChatsAfterAppend | backend/app/main.py:235-257 | after rows are stored for an owned thread, the endpoint returns its earlier chats followed by those rows |
| Channel.Deliver | frontend/components/chat-interface.tsx:151-154 | `search_results` and `error` reach no handler; status, response_chunk, chat_message and thread_info reach theirs with their payload |
| Channel.Received | frontend/components/chat-interface.tsx:151-154 | the handler inputs for a run of server events, in order; events with no listener are dropped, so there are never more inputs than events |
| Channel.ReceivedAppend | frontend/components/chat-interface.tsx:151-154 | delivery distributes over concatenation |
| Channel.ReceivedAboutOneChat | backend/app/rag.py:24-135 | the events of a run reach the client as statuses and chunks for that one chat only |
| Channel.ChunkTextOfReceived | frontend/components/chat-interface.tsx:98-111 | the chunk text the client sees is exactly the text the server streamed |
| Channel.ReceivedChunkEvents | backend/app/rag.py:118-124 | the chunk events of a reply reach the view as exactly those chunks for that chat, in order |
| Channel.OpeningAppendsBothChats | backend/app/main.py:93-139 | thread_info followed by the two chat_message events appends the user chat then the empty assistant chat |
| Channel.TailConcernsAssistant | backend/app/main.py:141-193 | everything after the two chat_message events concerns only the assistant chat |
| Channel.HandlerEventsNameTheirChats | backend/app/main.py:81-196 | of everything one `chat_message` handler emits, `thread_info` comes first and every event names the resolved thread; every later event names the user chat (the first announcement) or the assistant chat (all the rest) |
| Channel.TailSpellsResponse | backend/app/main.py:141-193 | the chunks delivered after the announcements spell the model's output |
| Channel.TailLastStatus | backend/app/main.py:169-192 | the last status the client receives is `completed` on success, and the pipeline's `processing` status on failure |
| Channel.ExchangeReachesView | backend/app/main.py:81-196 | after an exchange, the earlier entries are untouched; the user's message shows without a badge; the assistant entry shows the streamed output; it has no badge on success, and is stuck on `processing` when the model raised |
| Channel.ReloadAfterExchange | backend/app/main.py:235-257 | reloading the thread shows the user message, then the full response, or an empty assistant chat when the model raised |
| Channel.SeededEndsWith | frontend/components/chat-interface.tsx:82-84 | seeding from a snapshot that ends with two chats shows them last, bare |
| Channel.SnapshotSeedsUniqueIds | backend/app/main.py:235-257 | the snapshot of any owned thread seeds the view with unique chat ids, because the chat table's ids are distinct |

## Left out

- Backend.ChatMessage: each `chat_message` handler is modelled as running with no other handler's database writes or emits in between. In the server, every `await` at backend/app/main.py:93-139 and backend/app/rag.py:24-100 lets another client's handler run. Another exchange's chats can then be committed between this handler's user chat and its assistant chat. `Backend.Announce`, `Backend.Process` and `Backend.Exchange` rely on the same assumption for the shape of the chat table they promise. The handler also reads one `Clock`. Its `utc` time stamps a created thread and both chats alike, while the server takes one `utcnow()` per insert.
- Socket transport:
  - Socket.IO sids and rooms, sessions, and the `connect`/`disconnect` handlers with their token check;
  - JWT verification (backend/app/auth.py is not part of this model);
  - delivery is in order and lossless, to the one client.
- The `asyncio.sleep` pauses, the system prompt and the prompt template text: they change no state the model tracks.
- The language model is a parameter: a list of chunks and an optional failure. The `ChatAnthropic` client that `RAGChatbot.__init__` configures (model name, API key, `max_tokens`, streaming) and its `StrOutputParser` are not part of this model. An exception raised before any chunk is the same as a failure with no chunks.
- `search_results` is modelled by its event's position only. Its documents and relevance floats are not modelled, and it reaches no handler.
- Timestamps are given by a `Clock` parameter: the local time for the title and the UTC time for `created_at`.
- `str(e)` for an exception that is not an `HTTPException` is taken to be the failure message the model carries.
- `GET /threads`, `POST /threads` and `POST /auth/verify` are modelled on the client only:
  - their answers are parameters of `OnThreadsFetched`, `CreateThread` and `VerifyToken`;
  - the server side of those three endpoints is not part of this model.
- `get_chats`' serialisation of `created_at` as a datetime: chats carry timestamps as strings.
- The login page, the thread list component, the error boundary, the status icons, `console` logging and the toast widget itself: these are presentation only.
- The React effect cleanup of the chat view's listeners: every event is assumed to reach the listeners of the one mounted view.
- `db.rollback()` and `db.close()`: by the time the model can raise, both chats are committed, so there is nothing left to roll back. `print_exc` is logging only.
- `data["message"]` missing: it is modelled as `MissingMessage`, returned once `thread_info` has been sent. The `KeyError` and its logging by Socket.IO are not modelled.
- `String.prototype.trim` is modelled by its character set: ECMAScript's WhiteSpace and LineTerminator code points, with the Unicode space separators listed as of the current Unicode version.
- Models.ChatsOf: `thread.chats` is taken to be in insertion order. The relationship sets no `order_by`, so the actual database order is an assumption.

## Findings

| source | as written | input that shows it | evidently intended | confidence | as-written member | corrected member |
|---|---|---|---|---|---|---|
| backend/app/main.py:247-259 | the `HTTPException(404)` raised inside the `try` is caught by `except Exception` and re-raised as a 500 whose detail is `str(e)` | any thread id the user does not own, e.g. a missing id: the response is status 500 with detail "404: Thread not found" | status 404 with detail "Thread not found" | not executed | Backend.GetChatsMasksNotFound | Backend.GetChatsIntended |

## Behaviour of the code worth knowing

The model follows the code in these places:

- No chat-view handler compares `thread_id` with the current thread (`Transcript.ForeignThreadStatusIsApplied`).
- A `completed` status can be overwritten by a later status (`Transcript.CompletedIsOverwritten`).
- A thread promoted by `thread_info` is not added to the thread list (`HomePage.Page.PromoteThread`).
- The client has no listener for `error`. So when the model raises, the assistant entry stays on the `processing` badge. It shows the partial text live, but an empty chat after a reload (`Channel.ExchangeReachesView`, `Channel.ReloadAfterExchange`).
- `is_new` is false for a thread created at exactly the requested id (`Backend.ReusedIdHidesCreation`).
- Errors from axios carry the detail under `response.data`, not `data`. So for those errors the thread-select toast falls back to its generic text.
