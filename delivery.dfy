/** How the transport and the repository meet: a message the user sends is
    written to the socket, echoed back by the server to its sender, decoded,
    and reconciled against its own pending copy. */
module Delivery {
  import opened Domain
  import opened ChatRepository
  import opened PieSocketClient
  import opened MessageQueue
  import Socket = PieSocketClient

  /** Send with a fresh id, then receive the server's echo of the written
      frame: the pending copy is gone, the remote list leads with the user's
      SENT message, that id occurs once, and the invariant still holds. */
  lemma EchoConfirmsPending(pending: seq<Message>, remote: seq<Message>,
                            content: string, chatId: string, id: string, timestamp: int,
                            now: nat, idClock: nat, tsClock: int)
    requires Consistent(pending, remote)
    requires id !in Ids(pending) && id !in Ids(remote)
    ensures
      var queued := pending + [PendingMessage(id, chatId, content, timestamp)];
      var echo := Decode(AsReceived(OutgoingFrame(content, id, chatId, now)), idClock, tsClock);
      echo.Some?
      && id !in Ids(Without(queued, echo.value.id))
      && Reconciled(remote, echo.value)[0] == Message(id, chatId, content, now, true, Sent)
      && CountId(Reconciled(remote, echo.value), id) == 1
      && Consistent(Without(queued, id), Reconciled(remote, echo.value))
      && UniqueIds(Merged(Without(queued, id), Reconciled(remote, echo.value)))
  {
    var queued := pending + [PendingMessage(id, chatId, content, timestamp)];
    EchoDecodes(content, id, chatId, now, idClock, tsClock);
    var echo := Message(id, chatId, content, now, true, Sent);
    WithoutIds(queued, id);
    ReconciledSupersedes(remote, echo);
    SendKeepsConsistent(pending, remote, PendingMessage(id, chatId, content, timestamp));
    InboundKeepsConsistent(queued, remote, echo);
    MergedIsUnique(Without(queued, id), Reconciled(remote, echo));
  }

  /** The flush puts the last-queued message last among the transport calls
      and its SENT copy first in the prepended block. */
  lemma FlushPlacesLastQueued(pending: seq<Message>, remote: seq<Message>,
                              content: string, chatId: string, id: string, timestamp: int)
    ensures
      var queued := pending + [PendingMessage(id, chatId, content, timestamp)];
      SentStack(queued)[0] == Message(id, chatId, content, timestamp, true, Sent)
      && |Emissions(queued)| == |pending| + 1
      && Emissions(queued)[|pending|] == Emission(content, id, chatId)
  {
    var queued := pending + [PendingMessage(id, chatId, content, timestamp)];
    SentStackAt(queued, 0);
    EmissionsAt(queued, |pending|);
  }

  /** On a fresh repository: a send while offline only queues the PENDING
      message; coming online emits it once, empties the queue and leaves its
      SENT copy as the only remote message; coming online again changes
      nothing. */
  method OfflineSendThenReconnect(content: string, chatId: string, id: string, timestamp: int)
    returns (queuedOffline: seq<Message>, emittedOffline: seq<Emission>,
             pending: seq<Message>, remote: seq<Message>, emitted: seq<Emission>,
             pendingAgain: seq<Message>, remoteAgain: seq<Message>, emittedAgain: seq<Emission>)
    ensures queuedOffline == [Message(id, chatId, content, timestamp, true, Pending)]
    ensures emittedOffline == []
    ensures pending == []
    ensures remote == [Message(id, chatId, content, timestamp, true, Sent)]
    ensures emitted == [Emission(content, id, chatId)]
    ensures pendingAgain == pending && remoteAgain == remote && emittedAgain == emitted
  {
    var queue := new InMemoryMessageQueue();
    var repository := new ChatRepositoryImpl(queue);
    repository.SendMessage(content, chatId, id, timestamp, false);
    queuedOffline, emittedOffline := queue.queue, repository.emitted;
    repository.OnOnlineChanged(true);
    pending, remote, emitted := queue.queue, repository.remoteMessages, repository.emitted;
    repository.OnOnlineChanged(true);
    pendingAgain, remoteAgain, emittedAgain := queue.queue, repository.remoteMessages, repository.emitted;
  }

  /** A flush while the socket client's flag is still false (a socket has
      been opened but has not reported open): the repository makes its one
      `emitMessage` call, the client writes no frame, and still the queue is
      emptied and the message's SENT copy is the only remote message. */
  method DroppedSendShownAsSent(content: string, chatId: string, id: string, timestamp: int, now: nat)
    returns (calls: seq<Emission>, events: seq<SocketEvent>, pending: seq<Message>, remote: seq<Message>)
    ensures calls == [Emission(content, id, chatId)]
    ensures forall k :: 0 <= k < |events| ==> !events[k].SendingText?
    ensures pending == []
    ensures remote == [Message(id, chatId, content, timestamp, true, Sent)]
  {
    var queue := new InMemoryMessageQueue();
    var repository := new ChatRepositoryImpl(queue);
    var client := new Socket.PieSocketClient();
    client.Connect(false);
    repository.SendMessage(content, chatId, id, timestamp, false);
    repository.OnOnlineChanged(true);
    calls := repository.emitted;
    client.EmitMessage(calls[0].content, calls[0].id, calls[0].chatId, now);
    events, pending, remote := client.events, queue.queue, repository.remoteMessages;
  }
}
