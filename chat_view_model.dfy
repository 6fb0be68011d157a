/** The view model: a pure projection of the repository's feed, the
    connectivity flag, the selected conversation and the chat list into one
    UI state, plus the selection commands and the guarded send. */
module ChatViewModel {
  import opened Domain
  import opened Sorting
  import opened ChatRepository

  datatype ChatUiState = ChatUiState(
    chats: seq<Chat>,
    selectedChatId: Option<string>,
    activeMessages: seq<Message>,
    isOnline: bool,
    isLoading: bool)

  /** The entries of `messages` that belong to conversation `chatId`, in order. */
  function InChat(messages: seq<Message>, chatId: string): seq<Message>
  {
    if messages == [] then []
    else
      var rest := InChat(messages[1..], chatId);
      if messages[0].chatId == chatId then [messages[0]] + rest else rest
  }

  /** Kotlin's `maxByOrNull { it.timestamp }` on a non-empty list: the
      position of the first entry with the largest timestamp (a later entry
      replaces the best so far only when its timestamp is strictly larger). */
  function LatestIndex(s: seq<Message>): (r: nat)
    requires |s| > 0
    ensures r < |s|
    ensures forall k :: 0 <= k < |s| ==> s[k].timestamp <= s[r].timestamp
    ensures forall k :: 0 <= k < r ==> s[k].timestamp < s[r].timestamp
  {
    if |s| == 1 then 0
    else
      var best := LatestIndex(s[..|s| - 1]);
      if s[best].timestamp < s[|s| - 1].timestamp then |s| - 1 else best
  }

  /** A chat's preview, taken from its latest message when it has any. */
  function Preview(chat: Chat, messages: seq<Message>): Chat
  {
    var chatMessages := InChat(messages, chat.id);
    if chatMessages == [] then chat
    else
      var last := chatMessages[LatestIndex(chatMessages)];
      chat.(lastMessage := Some(last.content),
            lastMessageTime := Some(last.timestamp),
            unreadCount := if !last.isSentByUser then 1 else 0)
  }

  /** Every chat with its preview refreshed from the feed. */
  function UpdatedChats(chats: seq<Chat>, messages: seq<Message>): (r: seq<Chat>)
    ensures |r| == |chats|
    ensures forall i :: 0 <= i < |r| ==>
      r[i].id == chats[i].id && r[i].name == chats[i].name
      && (InChat(messages, chats[i].id) == [] ==> r[i] == chats[i])
      && (InChat(messages, chats[i].id) != [] ==> 0 <= r[i].unreadCount <= 1)
  {
    seq(|chats|, i requires 0 <= i < |chats| => Preview(chats[i], messages))
  }

  /** The open conversation's messages, oldest first; none when no chat is open. */
  function ActiveMessages(messages: seq<Message>, selectedId: Option<string>): seq<Message>
  {
    match selectedId
    case None => []
    case Some(id) => SortByTimestamp(InChat(messages, id), false)
  }

  /** The `combine` lambda: one UI state from the four inputs. */
  function Project(messages: seq<Message>, isOnline: bool, selectedId: Option<string>,
                   chats: seq<Chat>): (r: ChatUiState)
    ensures r.isOnline == isOnline && r.selectedChatId == selectedId && !r.isLoading
    ensures selectedId.None? ==> r.activeMessages == []
    ensures |r.chats| == |chats|
  {
    ChatUiState(UpdatedChats(chats, messages), selectedId,
                ActiveMessages(messages, selectedId), isOnline, false)
  }

  /** Kotlin's `Char.isWhitespace`: Unicode space, line and paragraph
      separators plus the control characters U+0009..U+000D and U+001C..U+001F. */
  predicate IsWhitespace(c: char)
  {
    '\t' <= c <= '\r' || '\U{1C}' <= c <= '\U{1F}' || c == ' ' || c == '\U{A0}'
    || c == '\U{1680}' || '\U{2000}' <= c <= '\U{200A}' || c == '\U{2028}'
    || c == '\U{2029}' || c == '\U{202F}' || c == '\U{205F}' || c == '\U{3000}'
  }

  /** Kotlin's `isBlank`: empty or only whitespace. */
  predicate IsBlank(s: string)
  {
    forall i :: 0 <= i < |s| ==> IsWhitespace(s[i])
  }

  /** The three chats the view model starts with. */
  function InitialChats(now: int): seq<Chat>
  {
    [Chat("1", "Support Bot", Some("Welcome!"), Some(now), 0),
     Chat("2", "Sales Assistant", Some("Check our offers."), Some(now), 1),
     Chat("3", "Feedback Bot", None, None, 0)]
  }

  // ---------------------------------------------------------------------

  /** `InChat` keeps exactly the entries of the conversation. */
  lemma {:induction false} InChatMembers(messages: seq<Message>, chatId: string, m: Message)
    ensures m in InChat(messages, chatId) <==> m in messages && m.chatId == chatId
  {
    if messages != [] {
      InChatMembers(messages[1..], chatId, m);
      assert m in messages <==> m == messages[0] || m in messages[1..];
    }
  }

  /** A chat with messages shows the content and time of its latest one
      (the first of them on a tie) and is unread exactly when that message
      is not the user's; a chat without messages is returned as it is. */
  lemma PreviewFromLatest(chat: Chat, messages: seq<Message>)
    ensures Preview(chat, messages).id == chat.id && Preview(chat, messages).name == chat.name
    ensures (forall m :: m in messages ==> m.chatId != chat.id) ==> Preview(chat, messages) == chat
    ensures (exists m :: m in messages && m.chatId == chat.id) ==>
      exists k :: 0 <= k < |InChat(messages, chat.id)| &&
        var last := InChat(messages, chat.id)[k];
        (forall j :: 0 <= j < |InChat(messages, chat.id)| ==>
           InChat(messages, chat.id)[j].timestamp <= last.timestamp) &&
        (forall j :: 0 <= j < k ==> InChat(messages, chat.id)[j].timestamp < last.timestamp) &&
        Preview(chat, messages).lastMessage == Some(last.content) &&
        Preview(chat, messages).lastMessageTime == Some(last.timestamp) &&
        Preview(chat, messages).unreadCount == (if last.isSentByUser then 0 else 1)
  {
    var cm := InChat(messages, chat.id);
    if cm == [] {
      forall m | m in messages && m.chatId == chat.id ensures false {
        InChatMembers(messages, chat.id, m);
      }
    } else {
      var k := LatestIndex(cm);
      InChatMembers(messages, chat.id, cm[0]);
    }
  }

  /** With no chat selected nothing is shown; with one selected, exactly its
      messages are shown, oldest first. */
  lemma ActiveMessagesOfSelected(messages: seq<Message>, selectedId: Option<string>)
    ensures selectedId.None? ==> ActiveMessages(messages, selectedId) == []
    ensures selectedId.Some? ==>
      multiset(ActiveMessages(messages, selectedId)) == multiset(InChat(messages, selectedId.value))
    ensures selectedId.Some? ==> forall m ::
      m in ActiveMessages(messages, selectedId) <==> m in messages && m.chatId == selectedId.value
    ensures forall i :: 0 <= i < |ActiveMessages(messages, selectedId)| - 1 ==>
      ActiveMessages(messages, selectedId)[i].timestamp <= ActiveMessages(messages, selectedId)[i + 1].timestamp
  {
    if selectedId.Some? {
      var id := selectedId.value;
      var r := ActiveMessages(messages, selectedId);
      SortIsOrderedPermutation(InChat(messages, id), false);
      forall m ensures m in r <==> m in messages && m.chatId == id {
        InChatMembers(messages, id, m);
        assert m in r <==> m in multiset(r);
      }
      forall i | 0 <= i < |r| - 1 ensures r[i].timestamp <= r[i + 1].timestamp {
        assert Key(r[i], false) <= Key(r[i + 1], false);
      }
    }
  }

  // ---------------------------------------------------------------------

  class ChatViewModel {
    const repository: ChatRepositoryImpl
    const chats: seq<Chat>
    var selectedChatId: Option<string>

    /** `now` stands for the clock reading the initial previews carry. */
    constructor (repository: ChatRepositoryImpl, now: int)
      ensures this.repository == repository
      ensures chats == InitialChats(now) && selectedChatId == None
    {
      this.repository := repository;
      chats := InitialChats(now);
      selectedChatId := None;
    }

    /** The UI state for the current inputs; `isOnline` is the network's value. */
    function UiState(isOnline: bool): ChatUiState
      reads this, repository, repository.messageQueue
    {
      Project(repository.Messages(), isOnline, selectedChatId, chats)
    }

    method SelectChat(chatId: string)
      modifies this
      ensures selectedChatId == Some(chatId)
    {
      selectedChatId := Some(chatId);
    }

    method CloseChat()
      modifies this
      ensures selectedChatId == None
    {
      selectedChatId := None;
    }

    /** Hands non-blank content to the repository for the open chat; does
        nothing when no chat is open or the content is blank. */
    method SendMessage(content: string, id: string, timestamp: int, online: bool)
      modifies repository, repository.messageQueue
      ensures selectedChatId.None? || IsBlank(content) ==>
        repository.messageQueue.queue == old(repository.messageQueue.queue)
        && repository.remoteMessages == old(repository.remoteMessages)
        && repository.emitted == old(repository.emitted)
      ensures selectedChatId.Some? && !IsBlank(content) ==>
        repository.messageQueue.queue == old(repository.messageQueue.queue)
          + [PendingMessage(id, selectedChatId.value, content, timestamp)]
        && repository.remoteMessages == old(repository.remoteMessages)
        && repository.emitted == old(repository.emitted)
          + (if online then [Emission(content, id, selectedChatId.value)] else [])
    {
      if selectedChatId.None? {
        return;
      }
      var currentChatId := selectedChatId.value;
      if IsBlank(content) {
        return;
      }
      repository.SendMessage(content, currentChatId, id, timestamp, online);
    }
  }
}
