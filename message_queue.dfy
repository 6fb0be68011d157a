/** The pending store: an ordered, in-memory list of messages written
    locally and not yet confirmed by the transport. */
module MessageQueue {
  import opened Domain

  class InMemoryMessageQueue {
    /** The current snapshot; every operation replaces it as a whole. */
    var queue: seq<Message>

    constructor ()
      ensures queue == []
    {
      queue := [];
    }

    /** Appends `message`; an entry with the same id is not rejected. */
    method Add(message: Message)
      modifies this
      ensures queue == old(queue) + [message]
      ensures |queue| == |old(queue)| + 1 && queue[|queue| - 1] == message
      ensures queue[..|old(queue)|] == old(queue)
    {
      queue := queue + [message];
    }

    /** Deletes every entry whose id is `messageId`. */
    method Remove(messageId: string)
      modifies this
      ensures queue == Without(old(queue), messageId)
    {
      queue := Without(queue, messageId);
    }

    /** The current snapshot, unchanged. */
    method GetAll() returns (r: seq<Message>)
      ensures r == queue
    {
      r := queue;
    }

    method Clear()
      modifies this
      ensures queue == []
    {
      queue := [];
    }
  }
}
