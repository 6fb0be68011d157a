/** The chat domain: messages, their status and conversations, plus the
    id-level vocabulary (which ids a list holds, whether they are unique,
    taking one id out) that the queue and the repository share. */
module Domain {

  datatype Option<T> = None | Some(value: T)

  /** A message's delivery status. `Failed` exists but no flow produces it. */
  datatype MessageStatus = Pending | Sent | Failed

  /** A chat message; `timestamp` is milliseconds since the epoch. Only
      comparisons are made on it, so its 64-bit width plays no role. */
  datatype Message = Message(
    id: string,
    chatId: string,
    content: string,
    timestamp: int,
    isSentByUser: bool,
    status: MessageStatus)

  /** A conversation with its derived preview. */
  datatype Chat = Chat(
    id: string,
    name: string,
    lastMessage: Option<string>,
    lastMessageTime: Option<int>,
    unreadCount: int)

  /** The set of ids occurring in `s`. */
  function Ids(s: seq<Message>): set<string>
  {
    set m | m in s :: m.id
  }

  /** No two entries of `s` share an id. */
  predicate UniqueIds(s: seq<Message>)
  {
    s == [] || (s[0].id !in Ids(s[1..]) && UniqueIds(s[1..]))
  }

  /** How many entries of `s` carry `id`. */
  function CountId(s: seq<Message>, id: string): nat
  {
    if s == [] then 0
    else (if s[0].id == id then 1 else 0) + CountId(s[1..], id)
  }

  /** `s` with every entry whose id is `id` taken out (Kotlin's
      `removeAll { it.id == id }` and `filterNot { it.id == id }`). */
  function Without(s: seq<Message>, id: string): seq<Message>
  {
    if s == [] then []
    else if s[0].id == id then Without(s[1..], id)
    else [s[0]] + Without(s[1..], id)
  }

  /** `s` with every entry whose id is in `ids` taken out. */
  function WithoutAll(s: seq<Message>, ids: set<string>): seq<Message>
  {
    if s == [] then []
    else if s[0].id in ids then WithoutAll(s[1..], ids)
    else [s[0]] + WithoutAll(s[1..], ids)
  }

  lemma IdsCons(m: Message, s: seq<Message>)
    ensures Ids([m] + s) == {m.id} + Ids(s)
  {
    assert forall x :: x in [m] + s <==> x == m || x in s;
  }

  lemma IdsSnoc(s: seq<Message>, m: Message)
    ensures Ids(s + [m]) == Ids(s) + {m.id}
  {
    IdsAppend(s, [m]);
    assert Ids([m]) == {m.id};
  }

  lemma {:induction false} IdsAppend(a: seq<Message>, b: seq<Message>)
    ensures Ids(a + b) == Ids(a) + Ids(b)
  {
    assert forall x :: x in a + b <==> x in a || x in b;
  }

  /** An id occurs in `s` exactly when some entry carries it. */
  lemma {:induction false} CountIdPositive(s: seq<Message>, id: string)
    ensures CountId(s, id) > 0 <==> id in Ids(s)
  {
    if s != [] {
      CountIdPositive(s[1..], id);
      assert s == [s[0]] + s[1..];
      IdsCons(s[0], s[1..]);
    }
  }

  /** With unique ids, every id occurs at most once. */
  lemma {:induction false} UniqueCountAtMostOne(s: seq<Message>, id: string)
    requires UniqueIds(s)
    ensures CountId(s, id) <= 1
  {
    if s != [] {
      UniqueCountAtMostOne(s[1..], id);
      if s[0].id == id {
        CountIdPositive(s[1..], id);
      }
    }
  }

  /** `Without` keeps exactly the entries with another id. */
  lemma {:induction false} WithoutMembers(s: seq<Message>, id: string, m: Message)
    ensures m in Without(s, id) <==> m in s && m.id != id
  {
    if s != [] {
      WithoutMembers(s[1..], id, m);
      assert m in s <==> m == s[0] || m in s[1..];
    }
  }

  /** After `Without(s, id)` no entry with `id` remains; every other id stays. */
  lemma {:induction false} WithoutIds(s: seq<Message>, id: string)
    ensures Ids(Without(s, id)) == Ids(s) - {id}
  {
    forall x | x in Ids(s) - {id} ensures x in Ids(Without(s, id)) {
      var m :| m in s && m.id == x;
      WithoutMembers(s, id, m);
    }
    forall x | x in Ids(Without(s, id)) ensures x in Ids(s) - {id} {
      var m :| m in Without(s, id) && m.id == x;
      WithoutMembers(s, id, m);
    }
  }

  /** `Without` distributes over concatenation: the kept entries stay in
      their original relative order. */
  lemma {:induction false} WithoutAppend(a: seq<Message>, b: seq<Message>, id: string)
    ensures Without(a + b, id) == Without(a, id) + Without(b, id)
  {
    if a == [] {
      assert a + b == b;
    } else {
      var ab := a + b;
      assert ab[0] == a[0] && ab[1..] == a[1..] + b;
      WithoutAppend(a[1..], b, id);
    }
  }

  /** Taking out an id that is absent changes nothing. */
  lemma {:induction false} WithoutAbsent(s: seq<Message>, id: string)
    requires id !in Ids(s)
    ensures Without(s, id) == s
  {
    if s != [] {
      assert s == [s[0]] + s[1..];
      IdsCons(s[0], s[1..]);
      WithoutAbsent(s[1..], id);
    }
  }

  /** Taking out an id twice is the same as taking it out once. */
  lemma WithoutIdempotent(s: seq<Message>, id: string)
    ensures Without(Without(s, id), id) == Without(s, id)
  {
    WithoutIds(s, id);
    WithoutAbsent(Without(s, id), id);
  }

  /** `Without` removes exactly the entries that carry `id`. */
  lemma {:induction false} WithoutLength(s: seq<Message>, id: string)
    ensures |Without(s, id)| == |s| - CountId(s, id)
  {
    if s != [] {
      WithoutLength(s[1..], id);
    }
  }

  /** Taking out a sub-list keeps ids unique. */
  lemma {:induction false} WithoutUnique(s: seq<Message>, id: string)
    requires UniqueIds(s)
    ensures UniqueIds(Without(s, id))
  {
    if s != [] {
      WithoutUnique(s[1..], id);
      WithoutIds(s[1..], id);
    }
  }

  /** Taking out one more id after a set of them extends the set. */
  lemma {:induction false} WithoutAllStep(s: seq<Message>, ids: set<string>, id: string)
    ensures Without(WithoutAll(s, ids), id) == WithoutAll(s, ids + {id})
  {
    if s != [] {
      WithoutAllStep(s[1..], ids, id);
    }
  }

  /** Taking out every id a list holds leaves nothing. */
  lemma {:induction false} WithoutAllCovering(s: seq<Message>, ids: set<string>)
    requires Ids(s) <= ids
    ensures WithoutAll(s, ids) == []
  {
    if s != [] {
      assert s == [s[0]] + s[1..];
      IdsCons(s[0], s[1..]);
      WithoutAllCovering(s[1..], ids);
    }
  }

  /** Taking out no id changes nothing. */
  lemma {:induction false} WithoutAllNone(s: seq<Message>)
    ensures WithoutAll(s, {}) == s
  {
    if s != [] {
      WithoutAllNone(s[1..]);
    }
  }

  /** Unique ids of a concatenation: each side unique and no id on both. */
  lemma {:induction false} UniqueAppend(a: seq<Message>, b: seq<Message>)
    ensures UniqueIds(a + b) <==> UniqueIds(a) && UniqueIds(b) && Ids(a) !! Ids(b)
  {
    if a == [] {
      assert a + b == b;
    } else {
      UniqueAppend(a[1..], b);
      assert (a + b)[1..] == a[1..] + b;
      IdsAppend(a[1..], b);
      assert a == [a[0]] + a[1..];
      IdsCons(a[0], a[1..]);
    }
  }
}
