/** The reconciling repository: it keeps the remote (confirmed) message
    list beside the pending queue, reacts to sends, inbound messages and
    connectivity, and derives the merged feed.

    The transport is seen through the calls made to its `emitMessage`,
    logged as `Emission`s; connectivity is a boolean input; fresh ids and
    clock readings are parameters. Each collector callback is one atomic
    step. */
module ChatRepository {
  import opened Domain
  import opened Sorting
  import opened MessageQueue

  /** One call `emitMessage(content, id, chatId)` on the transport. */
  datatype Emission = Emission(content: string, id: string, chatId: string)

  function EmissionOf(m: Message): Emission
  {
    Emission(m.content, m.id, m.chatId)
  }

  /** The copy of `m` that a flush puts in the remote list. */
  function AsSent(m: Message): Message
  {
    m.(status := Sent)
  }

  /** The message `sendMessage` builds and enqueues. */
  function PendingMessage(id: string, chatId: string, content: string, timestamp: int): Message
  {
    Message(id, chatId, content, timestamp, true, Pending)
  }

  /** The merged feed: pending entries then remote ones, newest first,
      with no filtering by id. */
  function Merged(pending: seq<Message>, remote: seq<Message>): seq<Message>
  {
    SortByTimestamp(pending + remote, true)
  }

  /** The remote list after an inbound message: the message in front, every
      earlier entry with its id dropped. */
  function Reconciled(remote: seq<Message>, msg: Message): seq<Message>
  {
    [msg] + Without(remote, msg.id)
  }

  /** What a flush of queue `q` prepends to the remote list: one SENT copy
      per queued entry, each prepended in turn, so the last one is first. */
  function SentStack(q: seq<Message>): seq<Message>
  {
    if q == [] then [] else [AsSent(q[|q| - 1])] + SentStack(q[..|q| - 1])
  }

  /** The transport calls a flush of queue `q` makes, in queue order. */
  function Emissions(q: seq<Message>): seq<Emission>
  {
    if q == [] then [] else Emissions(q[..|q| - 1]) + [EmissionOf(q[|q| - 1])]
  }

  /** The repository invariant: ids are unique within the queue and within
      the remote list, and no id is in both. */
  predicate Consistent(pending: seq<Message>, remote: seq<Message>)
  {
    UniqueIds(pending + remote)
  }

  // ---------------------------------------------------------------------
  // The merged feed

  /** The feed holds exactly the pending and the remote entries, with
      timestamps that never increase from one entry to the next. */
  lemma MergedIsOrderedPermutation(pending: seq<Message>, remote: seq<Message>)
    ensures multiset(Merged(pending, remote)) == multiset(pending) + multiset(remote)
    ensures |Merged(pending, remote)| == |pending| + |remote|
    ensures forall i :: 0 <= i < |Merged(pending, remote)| - 1 ==>
      Merged(pending, remote)[i].timestamp >= Merged(pending, remote)[i + 1].timestamp
  {
    var r := Merged(pending, remote);
    SortIsOrderedPermutation(pending + remote, true);
    assert |multiset(r)| == |multiset(pending + remote)|;
    forall i | 0 <= i < |r| - 1 ensures r[i].timestamp >= r[i + 1].timestamp {
      assert Key(r[i], true) <= Key(r[i + 1], true);
    }
  }

  /** Messages with equal timestamps appear in the feed in their
      pending-then-remote order. */
  lemma MergedIsStable(pending: seq<Message>, remote: seq<Message>, t: int)
    ensures WithKey(Merged(pending, remote), true, -t) == WithKey(pending + remote, true, -t)
  {
    SortIsStable(pending + remote, true, -t);
  }

  /** When the repository invariant holds the feed has one entry per id,
      and its ids are those of the queue and the remote list. */
  lemma MergedIsUnique(pending: seq<Message>, remote: seq<Message>)
    requires Consistent(pending, remote)
    ensures UniqueIds(Merged(pending, remote))
    ensures Ids(Merged(pending, remote)) == Ids(pending) + Ids(remote)
    ensures forall id :: CountId(Merged(pending, remote), id) <= 1
  {
    SortKeepsIds(pending + remote, true);
    IdsAppend(pending, remote);
    forall id ensures CountId(Merged(pending, remote), id) <= 1 {
      UniqueCountAtMostOne(Merged(pending, remote), id);
    }
  }

  // ---------------------------------------------------------------------
  // Reconcile on inbound

  /** After an inbound message the remote list has it in front, exactly
      once, and all other entries in their prior order. */
  lemma ReconciledSupersedes(remote: seq<Message>, msg: Message)
    ensures Reconciled(remote, msg)[0] == msg
    ensures CountId(Reconciled(remote, msg), msg.id) == 1
    ensures Without(Reconciled(remote, msg), msg.id) == Without(remote, msg.id)
  {
    var r := Reconciled(remote, msg);
    WithoutIds(remote, msg.id);
    CountIdPositive(Without(remote, msg.id), msg.id);
    assert r[1..] == Without(remote, msg.id);
    WithoutIdempotent(remote, msg.id);
  }

  /** Applying the same inbound message twice is the same as once. */
  lemma ReconciledIdempotent(pending: seq<Message>, remote: seq<Message>, msg: Message)
    ensures Reconciled(Reconciled(remote, msg), msg) == Reconciled(remote, msg)
    ensures Without(Without(pending, msg.id), msg.id) == Without(pending, msg.id)
  {
    var r := Reconciled(remote, msg);
    assert r[1..] == Without(remote, msg.id);
    assert Without(r, msg.id) == Without(r[1..], msg.id);
    WithoutIdempotent(remote, msg.id);
    WithoutIdempotent(pending, msg.id);
  }

  // ---------------------------------------------------------------------
  // Flush

  /** Entry `k` of a flush's prepended block is the SENT copy of the
      `k`-th queued entry counted from the back. */
  lemma {:induction false} SentStackAt(q: seq<Message>, k: nat)
    requires k < |q|
    ensures |SentStack(q)| == |q|
    ensures SentStack(q)[k] == AsSent(q[|q| - 1 - k])
  {
    if k > 0 {
      SentStackAt(q[..|q| - 1], k - 1);
    } else if |q| > 1 {
      SentStackAt(q[..|q| - 1], 0);
    }
  }

  /** A flush emits every queued entry once, in queue order. */
  lemma {:induction false} EmissionsAt(q: seq<Message>, k: nat)
    requires k < |q|
    ensures |Emissions(q)| == |q|
    ensures Emissions(q)[k] == EmissionOf(q[k])
  {
    if k < |q| - 1 {
      EmissionsAt(q[..|q| - 1], k);
    } else if |q| > 1 {
      EmissionsAt(q[..|q| - 1], 0);
    }
  }

  /** Every queued message reaches the remote list as a SENT copy. */
  lemma FlushLosesNothing(q: seq<Message>, m: Message)
    requires m in q
    ensures AsSent(m) in SentStack(q)
  {
    var i :| 0 <= i < |q| && q[i] == m;
    SentStackAt(q, |q| - 1 - i);
  }

  /** The prepended block carries the queue's ids, unique when the queue's are. */
  lemma {:induction false} SentStackIds(q: seq<Message>)
    ensures Ids(SentStack(q)) == Ids(q)
    ensures UniqueIds(q) ==> UniqueIds(SentStack(q))
  {
    if q != [] {
      var init, last := q[..|q| - 1], q[|q| - 1];
      assert q == init + [last];
      SentStackIds(init);
      IdsAppend(init, [last]);
      IdsCons(AsSent(last), SentStack(init));
      UniqueAppend(init, [last]);
      assert Ids([last]) == {last.id};
    }
  }

  /** The queue after `remove(m.id)` for each `m` of `done`, in order. */
  function RemoveEach(queue: seq<Message>, done: seq<Message>): seq<Message>
  {
    if done == [] then queue
    else Without(RemoveEach(queue, done[..|done| - 1]), done[|done| - 1].id)
  }

  /** Removing the ids of `done` one by one removes all of them. */
  lemma {:induction false} RemoveEachIsWithoutAll(queue: seq<Message>, done: seq<Message>)
    ensures RemoveEach(queue, done) == WithoutAll(queue, Ids(done))
  {
    if done == [] {
      WithoutAllNone(queue);
      assert Ids(done) == {};
    } else {
      var init, last := done[..|done| - 1], done[|done| - 1];
      RemoveEachIsWithoutAll(queue, init);
      WithoutAllStep(queue, Ids(init), last.id);
      assert done == init + [last];
      IdsSnoc(init, last);
    }
  }

  /** Removing, one by one, the id of every queued entry empties the queue. */
  lemma DrainEmpties(queue: seq<Message>)
    ensures RemoveEach(queue, queue) == []
  {
    RemoveEachIsWithoutAll(queue, queue);
    WithoutAllCovering(queue, Ids(queue));
  }

  /** One iteration of the flush loop, on the specification functions:
      the queue loses the current id, and the prepended copies and the
      emitted calls grow by the current message. */
  lemma FlushStep(q: seq<Message>, i: nat)
    requires i < |q|
    ensures RemoveEach(q, q[..i + 1]) == Without(RemoveEach(q, q[..i]), q[i].id)
    ensures SentStack(q[..i + 1]) == [AsSent(q[i])] + SentStack(q[..i])
    ensures Emissions(q[..i + 1]) == Emissions(q[..i]) + [EmissionOf(q[i])]
  {
    var next := q[..i + 1];
    assert next[..|next| - 1] == q[..i] && next[|next| - 1] == q[i];
  }

  // ---------------------------------------------------------------------
  // The repository invariant is preserved

  /** Sending with a fresh id keeps the invariant. */
  lemma SendKeepsConsistent(pending: seq<Message>, remote: seq<Message>, m: Message)
    requires Consistent(pending, remote)
    requires m.id !in Ids(pending) && m.id !in Ids(remote)
    ensures Consistent(pending + [m], remote)
  {
    UniqueAppend(pending, remote);
    UniqueAppend(pending, [m]);
    IdsAppend(pending, [m]);
    assert Ids([m]) == {m.id};
    UniqueAppend(pending + [m], remote);
  }

  /** An inbound message keeps the invariant, whatever its id. */
  lemma InboundKeepsConsistent(pending: seq<Message>, remote: seq<Message>, msg: Message)
    requires Consistent(pending, remote)
    ensures Consistent(Without(pending, msg.id), Reconciled(remote, msg))
  {
    UniqueAppend(pending, remote);
    WithoutUnique(pending, msg.id);
    WithoutUnique(remote, msg.id);
    WithoutIds(pending, msg.id);
    WithoutIds(remote, msg.id);
    IdsCons(msg, Without(remote, msg.id));
    UniqueAppend(Without(pending, msg.id), Reconciled(remote, msg));
  }

  /** A flush keeps the invariant. */
  lemma FlushKeepsConsistent(pending: seq<Message>, remote: seq<Message>)
    requires Consistent(pending, remote)
    ensures Consistent([], SentStack(pending) + remote)
  {
    UniqueAppend(pending, remote);
    SentStackIds(pending);
    UniqueAppend(SentStack(pending), remote);
    assert [] + (SentStack(pending) + remote) == SentStack(pending) + remote;
  }

  // ---------------------------------------------------------------------

  class ChatRepositoryImpl {
    const messageQueue: InMemoryMessageQueue
    /** Confirmed messages, most recent first. */
    var remoteMessages: seq<Message>
    /** Every call made to the transport's `emitMessage`, oldest first. */
    var emitted: seq<Emission>

    constructor (messageQueue: InMemoryMessageQueue)
      ensures this.messageQueue == messageQueue
      ensures remoteMessages == [] && emitted == []
    {
      this.messageQueue := messageQueue;
      remoteMessages := [];
      emitted := [];
    }

    /** The merged feed the repository publishes. */
    function Messages(): seq<Message>
      reads this, messageQueue
    {
      Merged(messageQueue.queue, remoteMessages)
    }

    predicate IsConsistent()
      reads this, messageQueue
    {
      Consistent(messageQueue.queue, remoteMessages)
    }

    /** Enqueues a PENDING message; hands it to the transport only when online. */
    method SendMessage(content: string, chatId: string, id: string, timestamp: int, online: bool)
      modifies this, messageQueue
      ensures messageQueue.queue == old(messageQueue.queue) + [PendingMessage(id, chatId, content, timestamp)]
      ensures remoteMessages == old(remoteMessages)
      ensures emitted == old(emitted) + (if online then [Emission(content, id, chatId)] else [])
      ensures old(IsConsistent()) && id !in old(Ids(messageQueue.queue) + Ids(remoteMessages))
        ==> IsConsistent()
    {
      ghost var pending0, remote0 := messageQueue.queue, remoteMessages;
      var pendingMessage := Message(id, chatId, content, timestamp, true, Pending);
      messageQueue.Add(pendingMessage);
      if online {
        emitted := emitted + [Emission(content, id, chatId)];
      }
      if Consistent(pending0, remote0) && id !in Ids(pending0) + Ids(remote0) {
        SendKeepsConsistent(pending0, remote0, pendingMessage);
      }
    }

    /** The inbound collector: the message supersedes its pending copy and
      any earlier remote copy. */
    method OnIncomingMessage(serverMsg: Message)
      modifies this, messageQueue
      ensures messageQueue.queue == Without(old(messageQueue.queue), serverMsg.id)
      ensures remoteMessages == Reconciled(old(remoteMessages), serverMsg)
      ensures emitted == old(emitted)
      ensures serverMsg.id !in Ids(messageQueue.queue)
      ensures old(IsConsistent()) ==> IsConsistent()
    {
      ghost var pending0, remote0 := messageQueue.queue, remoteMessages;
      messageQueue.Remove(serverMsg.id);
      WithoutIds(pending0, serverMsg.id);
      remoteMessages := [serverMsg] + Without(remoteMessages, serverMsg.id);
      if Consistent(pending0, remote0) {
        InboundKeepsConsistent(pending0, remote0, serverMsg);
      }
    }

    /** The connectivity collector: flushes on every `true`, nothing on `false`. */
    method OnOnlineChanged(online: bool)
      modifies this, messageQueue
      ensures !online ==> (messageQueue.queue == old(messageQueue.queue)
        && remoteMessages == old(remoteMessages) && emitted == old(emitted))
      ensures online ==> (messageQueue.queue == []
        && remoteMessages == SentStack(old(messageQueue.queue)) + old(remoteMessages)
        && emitted == old(emitted) + Emissions(old(messageQueue.queue)))
      ensures old(IsConsistent()) ==> IsConsistent()
    {
      if online {
        ghost var pending0, remote0 := messageQueue.queue, remoteMessages;
        FlushQueue();
        if Consistent(pending0, remote0) {
          FlushKeepsConsistent(pending0, remote0);
        }
      }
    }

    /** Emits each queued message in queue order, removes its id from the
        queue and prepends a SENT copy to the remote list, whether or not
        the transport actually sent it. */
    method FlushQueue()
      modifies this, messageQueue
      ensures messageQueue.queue == []
      ensures remoteMessages == SentStack(old(messageQueue.queue)) + old(remoteMessages)
      ensures emitted == old(emitted) + Emissions(old(messageQueue.queue))
    {
      var queuedMessages := messageQueue.GetAll();
      ghost var remote0, emitted0 := remoteMessages, emitted;
      var i := 0;
      while i < |queuedMessages|
        invariant 0 <= i <= |queuedMessages|
        invariant messageQueue.queue == RemoveEach(queuedMessages, queuedMessages[..i])
        invariant remoteMessages == SentStack(queuedMessages[..i]) + remote0
        invariant emitted == emitted0 + Emissions(queuedMessages[..i])
      {
        FlushStep(queuedMessages, i);
        FlushOne(queuedMessages[i]);
        i := i + 1;
      }
      assert queuedMessages[..i] == queuedMessages;
      DrainEmpties(queuedMessages);
    }

    /** The body of the flush loop for one queued message: emit it, drop
        its id from the queue, put its SENT copy at the front of the remote
        list. */
    method FlushOne(msg: Message)
      modifies this, messageQueue
      ensures messageQueue.queue == Without(old(messageQueue.queue), msg.id)
      ensures remoteMessages == [AsSent(msg)] + old(remoteMessages)
      ensures emitted == old(emitted) + [EmissionOf(msg)]
    {
      emitted := emitted + [EmissionOf(msg)];
      messageQueue.Remove(msg.id);
      var sentMsg := msg.(status := Sent);
      remoteMessages := [sentMsg] + remoteMessages;
    }
  }
}
