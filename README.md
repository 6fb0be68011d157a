# Offline message queue and reconciliation — a Dafny model

This project models the message delivery core of an Android chat client
(`com.example.chatbot`):

- the **pending queue** (`InMemoryMessageQueue`): locally written messages
  that are not yet confirmed;
- the **reconciling repository** (`ChatRepositoryImpl`): it keeps the remote
  list of confirmed messages beside the queue and reacts to three events.
  A send enqueues a PENDING message and hands it to the transport when
  online. An inbound message supersedes its pending copy and any earlier
  remote copy. Coming online flushes the queue. It publishes the merged
  feed: pending plus remote, newest first;
- the **view-model projection** (`ChatViewModel`): chat previews, the open
  conversation's messages (oldest first), the selection commands and the
  guarded send;
- the **socket client** (`PieSocketClient`): the decoding of inbound frames
  into messages, the frame `emitMessage` writes, and the connection flag
  kept beside the current socket.

Each coroutine or Flow collector step is one atomic, sequential method.
Connectivity is a boolean input. Fresh ids (`UUID.randomUUID()`) and clock
readings (`System.currentTimeMillis()`) are parameters. At the repository
boundary the transport is the log of calls made to its `emitMessage`.

Files: `domain.dfy` (messages, chats, the id vocabulary and `Without`),
`message_queue.dfy`, `sorting.dfy` (the stable timestamp sort Kotlin's
`sortedBy`/`sortedByDescending` perform), `chat_repository.dfy`,
`chat_view_model.dfy`, `pie_socket_client.dfy`, and `delivery.dfy`, which
joins the socket echo to the repository's reconcile step and runs an
offline send followed by reconnection through the repository's methods,
and a flush whose send the socket client drops.

The central invariant is `ChatRepository.Consistent(pending, remote)`: ids
are unique in the queue, unique in the remote list, and no id is in both.
A send with a fresh id, an inbound message and a flush all preserve it.
Under it the merged feed holds at most one entry per id.

Four facts about the code shape the model:

- `add` (`InMemoryMessageQueue.kt:15-19`) does not reject or overwrite an
  entry with the same id; it appends.
- `flushQueue` (`ChatRepositoryImpl.kt:83-94`) removes every queued message
  and records a SENT copy whether or not the transport wrote it. So a send
  that the socket client drops (flag false or no socket,
  `PieSocketClient.kt:122-125`) is shown as SENT and never retried
  (`Delivery.DroppedSendShownAsSent`).
- The merged feed (`ChatRepositoryImpl.kt:24-27`) has no id filter. Its
  uniqueness rests on the invariant.
- `MessageStatus.FAILED` (`Message.kt:15`) is declared, but no flow of the
  modelled code produces it.

## Model

| member | source | states |
|---|---|---|
| MessageQueue.InMemoryMessageQueue.constructor | app/src/main/java/com/example/chatbot/data/queue/InMemoryMessageQueue.kt:10-13 | the queue starts empty |
| MessageQueue.InMemoryMessageQueue.Add | app/src/main/java/com/example/chatbot/data/queue/InMemoryMessageQueue.kt:15-19 | the queue becomes one longer with the message last and the earlier entries unchanged and in order; a duplicate id is not rejected |
| MessageQueue.InMemoryMessageQueue.Remove | app/src/main/java/com/example/chatbot/data/queue/InMemoryMessageQueue.kt:21-25 | the queue becomes `Without(old queue, id)`: the entries with another id, in their order (what that leaves is stated by the `Without` lemmas below) |
| MessageQueue.InMemoryMessageQueue.GetAll | app/src/main/java/com/example/chatbot/data/queue/InMemoryMessageQueue.kt:27 | returns exactly the current contents and changes nothing |
| MessageQueue.InMemoryMessageQueue.Clear | app/src/main/java/com/example/chatbot/data/queue/InMemoryMessageQueue.kt:29-31 | the queue is empty afterwards |
| Domain.WithoutMembers | app/src/main/java/com/example/chatbot/data/queue/InMemoryMessageQueue.kt:23 | an entry survives removal of `id` exactly when it was there and has another id |
| Domain.WithoutIds | app/src/main/java/com/example/chatbot/data/queue/InMemoryMessageQueue.kt:21-25 | after removal the ids present are the old ones minus `id` |
| Domain.WithoutAppend | app/src/main/java/com/example/chatbot/data/queue/InMemoryMessageQueue.kt:23 | removal distributes over concatenation, so the kept entries stay in their relative order |
| Domain.WithoutLength | app/src/main/java/com/example/chatbot/data/queue/InMemoryMessageQueue.kt:23 | removal shortens the list by exactly the number of entries carrying `id` |
| Domain.WithoutAbsent | app/src/main/java/com/example/chatbot/data/queue/InMemoryMessageQueue.kt:21-25 | removing an id that is absent changes nothing |
| Domain.WithoutIdempotent | app/src/main/java/com/example/chatbot/data/queue/InMemoryMessageQueue.kt:21-25 | removing an id twice equals removing it once |
| Domain.UniqueCountAtMostOne | app/src/main/java/com/example/chatbot/data/repository/ChatRepositoryImpl.kt:24-27 | with unique ids every id occurs at most once |
| Sorting.SortIsOrderedPermutation | app/src/main/java/com/example/chatbot/data/repository/ChatRepositoryImpl.kt:26 | the timestamp sort returns a permutation of its input in timestamp order, ascending or descending |
| Sorting.SortIsStable | app/src/main/java/com/example/chatbot/presentation/viewModel/ChatViewModel.kt:56 | entries with equal timestamps keep their input order, as Kotlin's stable sort keeps them |
| Sorting.SortKeepsIds | app/src/main/java/com/example/chatbot/data/repository/ChatRepositoryImpl.kt:26 | sorting keeps the set of ids and their uniqueness |
| ChatRepository.MergedIsOrderedPermutation | app/src/main/java/com/example/chatbot/data/repository/ChatRepositoryImpl.kt:24-27 | the merged feed is a permutation of pending ++ remote, as long as both together, and its timestamps never increase from one entry to the next |
| ChatRepository.MergedIsStable | app/src/main/java/com/example/chatbot/data/repository/ChatRepositoryImpl.kt:26 | messages with equal timestamps appear in pending-then-remote order |
| ChatRepository.MergedIsUnique | app/src/main/java/com/example/chatbot/data/repository/ChatRepositoryImpl.kt:24-27 | under the invariant the feed has unique ids, at most one entry per id, and exactly the ids of queue and remote list |
| ChatRepository.ReconciledSupersedes | app/src/main/java/com/example/chatbot/data/repository/ChatRepositoryImpl.kt:43-46 | after an inbound message the remote list has it at the head, exactly one entry with its id, and every other entry in its prior order |
| ChatRepository.ReconciledIdempotent | app/src/main/java/com/example/chatbot/data/repository/ChatRepositoryImpl.kt:41-46 | applying the same inbound message twice gives the same queue and remote list as applying it once |
| ChatRepository.SentStackAt | app/src/main/java/com/example/chatbot/data/repository/ChatRepositoryImpl.kt:85-93 | a flush prepends one SENT copy per queued entry, so the remote list grows by the queue length and the last-queued message ends up first |
| ChatRepository.EmissionsAt | app/src/main/java/com/example/chatbot/data/repository/ChatRepositoryImpl.kt:84-86 | a flush calls `emitMessage` once per queued entry, with its (content, id, chatId), in queue order |
| ChatRepository.FlushLosesNothing | app/src/main/java/com/example/chatbot/data/repository/ChatRepositoryImpl.kt:83-93 | every queued message reaches the remote list as a SENT copy |
| ChatRepository.SentStackIds | app/src/main/java/com/example/chatbot/data/repository/ChatRepositoryImpl.kt:85-93 | the flushed block carries exactly the queue's ids, unique when the queue's are |
| ChatRepository.FlushStep | app/src/main/java/com/example/chatbot/data/repository/ChatRepositoryImpl.kt:85-93 | one iteration of the flush loop extends the removals, the prepended copies and the emitted calls by the current message |
| ChatRepository.RemoveEachIsWithoutAll | app/src/main/java/com/example/chatbot/data/repository/ChatRepositoryImpl.kt:85-88 | removing the ids of the flushed messages one at a time removes exactly the entries carrying any of those ids |
| ChatRepository.DrainEmpties | app/src/main/java/com/example/chatbot/data/repository/ChatRepositoryImpl.kt:84-88 | removing the id of every message of a queue snapshot, one at a time, leaves that snapshot empty |
| ChatRepository.SendKeepsConsistent | app/src/main/java/com/example/chatbot/data/repository/ChatRepositoryImpl.kt:59-72 | a send with a fresh id keeps the invariant |
| ChatRepository.InboundKeepsConsistent | app/src/main/java/com/example/chatbot/data/repository/ChatRepositoryImpl.kt:38-48 | an inbound message keeps the invariant, whatever its id |
| ChatRepository.FlushKeepsConsistent | app/src/main/java/com/example/chatbot/data/repository/ChatRepositoryImpl.kt:83-94 | a flush keeps the invariant, so it adds no duplicate to the remote list |
| ChatRepository.ChatRepositoryImpl.constructor | app/src/main/java/com/example/chatbot/data/repository/ChatRepositoryImpl.kt:16-22 | the repository holds the injected queue, an empty remote list and no transport calls |
| ChatRepository.ChatRepositoryImpl.SendMessage | app/src/main/java/com/example/chatbot/data/repository/ChatRepositoryImpl.kt:59-81 | enqueues exactly one PENDING, user-authored message with the given content, chatId, id and timestamp; leaves the remote list alone; calls `emitMessage(content, id, chatId)` once when online and never when offline; keeps the invariant for a fresh id |
| ChatRepository.ChatRepositoryImpl.OnIncomingMessage | app/src/main/java/com/example/chatbot/data/repository/ChatRepositoryImpl.kt:38-48 | takes the message's id out of the queue, puts the message at the head of the remote list in place of any earlier copy, calls no transport, keeps the invariant |
| ChatRepository.ChatRepositoryImpl.OnOnlineChanged | app/src/main/java/com/example/chatbot/data/repository/ChatRepositoryImpl.kt:31-36 | flushes on every `true` and changes nothing on `false`; keeps the invariant |
| ChatRepository.ChatRepositoryImpl.FlushQueue | app/src/main/java/com/example/chatbot/data/repository/ChatRepositoryImpl.kt:83-94 | empties the queue, prepends the SENT copies in turn and emits every queued message in queue order; flushing an empty queue changes nothing |
| ChatRepository.ChatRepositoryImpl.FlushOne | app/src/main/java/com/example/chatbot/data/repository/ChatRepositoryImpl.kt:85-92 | one message of the flush: emitted once, its id removed from the queue, its SENT copy put at the head of the remote list |
| ChatViewModel.LatestIndex | app/src/main/java/com/example/chatbot/presentation/viewModel/ChatViewModel.kt:42 | `maxByOrNull`: an entry with the largest timestamp, the first such one on ties |
| ChatViewModel.InChatMembers | app/src/main/java/com/example/chatbot/presentation/viewModel/ChatViewModel.kt:41 | the chat filter keeps exactly the messages of that chat |
| ChatViewModel.PreviewFromLatest | app/src/main/java/com/example/chatbot/presentation/viewModel/ChatViewModel.kt:40-51 | a chat with messages shows content and time of its latest message (the first on ties) and an unread count of 1 exactly when that message is not the user's; a chat without messages is unchanged; id and name are kept |
| ChatViewModel.UpdatedChats | app/src/main/java/com/example/chatbot/presentation/viewModel/ChatViewModel.kt:40-52 | same length, ids and names as the chat list, in the same order; a chat with no messages is returned unchanged; the unread count is 0 or 1 otherwise |
| ChatViewModel.ActiveMessagesOfSelected | app/src/main/java/com/example/chatbot/presentation/viewModel/ChatViewModel.kt:55-59 | empty when nothing is selected; otherwise exactly the messages with the selected chatId, as a permutation of them, in ascending timestamp order |
| ChatViewModel.Project | app/src/main/java/com/example/chatbot/presentation/viewModel/ChatViewModel.kt:37-66 | the UI state's `isOnline` is the repository's value, its selection the current one, `isLoading` false, no active messages without a selection, one preview per chat |
| ChatViewModel.ChatViewModel.constructor | app/src/main/java/com/example/chatbot/presentation/viewModel/ChatViewModel.kt:19-29 | nothing is selected and the three initial chats are in place |
| ChatViewModel.ChatViewModel.SelectChat | app/src/main/java/com/example/chatbot/presentation/viewModel/ChatViewModel.kt:75-77 | the selection becomes the given chat id |
| ChatViewModel.ChatViewModel.CloseChat | app/src/main/java/com/example/chatbot/presentation/viewModel/ChatViewModel.kt:79-81 | the selection becomes empty |
| ChatViewModel.ChatViewModel.SendMessage | app/src/main/java/com/example/chatbot/presentation/viewModel/ChatViewModel.kt:83-92 | changes nothing when no chat is selected or the content is blank; otherwise has the repository send the content to the selected chat |
| PieSocketClient.DecimalString | app/src/main/java/com/example/chatbot/data/socket/PieSocketClient.kt:53 | the fallback id is a non-empty string of decimal digits |
| PieSocketClient.DecimalRoundTrip | app/src/main/java/com/example/chatbot/data/socket/PieSocketClient.kt:53 | the fallback id is the decimal notation of the clock reading: it parses back to the reading and has no leading zero |
| PieSocketClient.SenderIsUser | app/src/main/java/com/example/chatbot/data/socket/PieSocketClient.kt:60-61 | a sender counts as the user exactly when it spells "User" in any mix of cases |
| PieSocketClient.DecodeRule | app/src/main/java/com/example/chatbot/data/socket/PieSocketClient.kt:48-68 | an unparseable frame, or one with neither `content` nor `message`, yields no message; a decoded message is SENT, its id defaults to the clock as a decimal string, its chatId to "1", its content is `content` else `message`, and it is the user's exactly when `sender` equals "User" ignoring case (a missing sender gives false) |
| PieSocketClient.EchoDecodes | app/src/main/java/com/example/chatbot/data/socket/PieSocketClient.kt:128-134 | a frame `emitMessage` writes carries content, id, chatId, sender "User" and a timestamp, and decodes back to the user's SENT message with those values |
| PieSocketClient.PieSocketClient.constructor | app/src/main/java/com/example/chatbot/data/socket/PieSocketClient.kt:25-30 | no socket and the flag false |
| PieSocketClient.PieSocketClient.Connect | app/src/main/java/com/example/chatbot/data/socket/PieSocketClient.kt:92-112 | closes any existing socket with code 1000 before opening a new one; a failure leaves no socket and the flag false; otherwise the flag is untouched |
| PieSocketClient.PieSocketClient.Disconnect | app/src/main/java/com/example/chatbot/data/socket/PieSocketClient.kt:114-119 | closes the socket if any; afterwards no socket and the flag false; a second call changes nothing |
| PieSocketClient.PieSocketClient.EmitMessage | app/src/main/java/com/example/chatbot/data/socket/PieSocketClient.kt:121-145 | writes nothing unless the flag is set and a socket exists; otherwise writes exactly one frame to the current socket |
| PieSocketClient.PieSocketClient.OnOpen | app/src/main/java/com/example/chatbot/data/socket/PieSocketClient.kt:40-44 | sets the flag |
| PieSocketClient.PieSocketClient.OnMessage | app/src/main/java/com/example/chatbot/data/socket/PieSocketClient.kt:46-69 | hands the decoded message, if any, to the collector |
| PieSocketClient.PieSocketClient.OnClosing | app/src/main/java/com/example/chatbot/data/socket/PieSocketClient.kt:75-79 | closes the closing socket with code 1000 and clears the flag |
| PieSocketClient.PieSocketClient.OnClosed | app/src/main/java/com/example/chatbot/data/socket/PieSocketClient.kt:81-84 | clears the flag |
| PieSocketClient.PieSocketClient.OnFailure | app/src/main/java/com/example/chatbot/data/socket/PieSocketClient.kt:86-89 | clears the flag |
| Delivery.EchoConfirmsPending | app/src/main/java/com/example/chatbot/data/repository/ChatRepositoryImpl.kt:38-48 | a send with a fresh id followed by the server's echo of its frame leaves no pending copy, one remote entry with that id at the head as the user's SENT message, the invariant intact and a feed with unique ids |
| Delivery.FlushPlacesLastQueued | app/src/main/java/com/example/chatbot/data/repository/ChatRepositoryImpl.kt:83-93 | the message queued last is emitted by the flush after everything queued before it, and its SENT copy heads the remote list |
| Delivery.OfflineSendThenReconnect | app/src/main/java/com/example/chatbot/data/repository/ChatRepositoryImpl.kt:59-94 | on a fresh repository, a send while offline only queues the PENDING message and calls no transport; coming online emits it once, empties the queue and leaves its SENT copy as the only remote message; coming online again changes nothing |
| Delivery.DroppedSendShownAsSent | app/src/main/java/com/example/chatbot/data/repository/ChatRepositoryImpl.kt:83-94 | when the socket client's flag is false (a socket opened but not yet confirmed), the flush's `emitMessage` call writes no frame, yet the queue is emptied and the message's SENT copy is the remote list |

## Left out

- Coroutines, `Flow`, `combine`, `stateIn`, `callbackFlow` and dispatchers: each collector callback is one atomic step, so interleavings are not modelled.
- `NetworkMonitor` is not part of this model: connectivity is a boolean parameter of `SendMessage` and `OnOnlineChanged`.
- `RealTimeClient` is an interface: the repository records its `emitMessage` calls instead of calling a client object, so the repository model does not see whether the socket client actually wrote the frame. `PieSocketClient.EmitMessage` models that decision on its own.
- `ChatRepositoryImpl.connect`/`disconnect`, the view model's `init` and `onCleared` are one-line delegations to the transport's `connect`/`disconnect`, which `PieSocketClient.Connect`/`Disconnect` model.
- OkHttp, the socket URL and API key, the ping interval, `Log`/`println`, and JSON text parsing and printing. A frame is an already-parsed map from keys to `optString` values plus the `optLong("timestamp")` reading. The `sent` result of `WebSocket.send` is only logged by the source and is dropped here.
- `OnMessage` always delivers to the collector. The source drops a decoded message in two cases, and the model captures neither. First, when no one collects the inbound flow (`messageChannel` is null). Second, when `trySend` fails because the `callbackFlow` buffer is full (`PieSocketClient.kt:33-36`, `:64`).
- `PieSocketClient.EqualsIgnoreCase` folds the ASCII letters and U+0130, U+0131, U+017F and U+212A. This is exact for the one comparison made, against "User", but not a general Unicode case-insensitive comparison.
- `ChatViewModel.IsWhitespace` lists the characters that Kotlin's `isWhitespace` accepts under current Unicode. Older Unicode tables (U+180E) differ.
- `ChatViewModel.ChatViewModel.constructor` takes one clock reading for both initial previews. The source reads the clock twice.
- `ChatViewModel.UiState` reads `isOnline` as a parameter: the flow is only passed through.
- Timestamps are unbounded integers: 64-bit `Long` overflow plays no role in comparisons of clock readings.
- The Compose screens, Hilt wiring and date formatting helpers are presentation and configuration only.
