/** Stable sorting of messages by timestamp, ascending or descending, as
    Kotlin's `sortedBy { it.timestamp }` and
    `sortedByDescending { it.timestamp }` do it: entries with equal
    timestamps keep their input order. */
module Sorting {
  import opened Domain

  /** The sort key: the timestamp, negated for a descending sort. */
  function Key(m: Message, descending: bool): int
  {
    if descending then -m.timestamp else m.timestamp
  }

  /** `s` is in key order (ascending keys). */
  predicate Ordered(s: seq<Message>, descending: bool)
  {
    forall i, j :: 0 <= i < j < |s| ==> Key(s[i], descending) <= Key(s[j], descending)
  }

  /** The entries of `s` whose key is `k`, in their order in `s`. */
  function WithKey(s: seq<Message>, descending: bool, k: int): seq<Message>
  {
    if s == [] then []
    else (if Key(s[0], descending) == k then [s[0]] else []) + WithKey(s[1..], descending, k)
  }

  /** Puts `x` in front of the first entry whose key is not smaller. */
  function Insert(x: Message, s: seq<Message>, descending: bool): seq<Message>
  {
    if s == [] || Key(x, descending) <= Key(s[0], descending) then [x] + s
    else [s[0]] + Insert(x, s[1..], descending)
  }

  /** Stable insertion sort by timestamp. */
  function SortByTimestamp(s: seq<Message>, descending: bool): seq<Message>
  {
    if s == [] then [] else Insert(s[0], SortByTimestamp(s[1..], descending), descending)
  }

  lemma {:induction false} InsertPermutation(x: Message, s: seq<Message>, descending: bool)
    ensures multiset(Insert(x, s, descending)) == multiset{x} + multiset(s)
  {
    if s == [] || Key(x, descending) <= Key(s[0], descending) {
      assert Insert(x, s, descending) == [x] + s;
    } else {
      var tail := Insert(x, s[1..], descending);
      assert Insert(x, s, descending) == [s[0]] + tail;
      InsertPermutation(x, s[1..], descending);
      assert s == [s[0]] + s[1..];
    }
  }

  /** A lower bound on the keys of `x` and of `s` bounds the keys of the result. */
  lemma {:induction false} InsertLowerBound(x: Message, s: seq<Message>, descending: bool, k: int)
    requires k <= Key(x, descending)
    requires forall i :: 0 <= i < |s| ==> k <= Key(s[i], descending)
    ensures forall i :: 0 <= i < |Insert(x, s, descending)| ==> k <= Key(Insert(x, s, descending)[i], descending)
  {
    if s != [] && Key(x, descending) > Key(s[0], descending) {
      InsertLowerBound(x, s[1..], descending, k);
    }
  }

  lemma {:induction false} InsertOrdered(x: Message, s: seq<Message>, descending: bool)
    requires Ordered(s, descending)
    ensures Ordered(Insert(x, s, descending), descending)
  {
    if s != [] && Key(x, descending) > Key(s[0], descending) {
      InsertOrdered(x, s[1..], descending);
      InsertLowerBound(x, s[1..], descending, Key(s[0], descending));
    }
  }

  /** Inserting `x` puts it before every entry that already has its key. */
  lemma {:induction false} InsertStable(x: Message, s: seq<Message>, descending: bool, k: int)
    ensures WithKey(Insert(x, s, descending), descending, k)
         == (if Key(x, descending) == k then [x] else []) + WithKey(s, descending, k)
  {
    if s != [] && Key(x, descending) > Key(s[0], descending) {
      var tail := Insert(x, s[1..], descending);
      assert Insert(x, s, descending) == [s[0]] + tail;
      assert ([s[0]] + tail)[1..] == tail;
      InsertStable(x, s[1..], descending, k);
    }
  }

  lemma {:induction false} InsertUnique(x: Message, s: seq<Message>, descending: bool)
    requires UniqueIds(s) && x.id !in Ids(s)
    ensures UniqueIds(Insert(x, s, descending))
    ensures Ids(Insert(x, s, descending)) == {x.id} + Ids(s)
  {
    if s == [] || Key(x, descending) <= Key(s[0], descending) {
      IdsCons(x, s);
    } else {
      assert s == [s[0]] + s[1..];
      IdsCons(s[0], s[1..]);
      InsertUnique(x, s[1..], descending);
      IdsCons(s[0], Insert(x, s[1..], descending));
      assert ([s[0]] + Insert(x, s[1..], descending))[1..] == Insert(x, s[1..], descending);
    }
  }

  /** The sort returns a permutation of its input, in key order. */
  lemma {:induction false} SortIsOrderedPermutation(s: seq<Message>, descending: bool)
    ensures multiset(SortByTimestamp(s, descending)) == multiset(s)
    ensures Ordered(SortByTimestamp(s, descending), descending)
  {
    if s != [] {
      SortIsOrderedPermutation(s[1..], descending);
      InsertPermutation(s[0], SortByTimestamp(s[1..], descending), descending);
      InsertOrdered(s[0], SortByTimestamp(s[1..], descending), descending);
      assert s == [s[0]] + s[1..];
    }
  }

  /** The sort is stable: entries with equal timestamps keep their order. */
  lemma {:induction false} SortIsStable(s: seq<Message>, descending: bool, k: int)
    ensures WithKey(SortByTimestamp(s, descending), descending, k) == WithKey(s, descending, k)
  {
    if s != [] {
      SortIsStable(s[1..], descending, k);
      InsertStable(s[0], SortByTimestamp(s[1..], descending), descending, k);
    }
  }

  /** Sorting neither adds nor removes ids, and keeps them unique. */
  lemma {:induction false} SortKeepsIds(s: seq<Message>, descending: bool)
    requires UniqueIds(s)
    ensures UniqueIds(SortByTimestamp(s, descending))
    ensures Ids(SortByTimestamp(s, descending)) == Ids(s)
  {
    if s != [] {
      SortKeepsIds(s[1..], descending);
      assert s == [s[0]] + s[1..];
      IdsCons(s[0], s[1..]);
      InsertUnique(s[0], SortByTimestamp(s[1..], descending), descending);
    }
  }
}
