/** The ORM queries of the two GET handlers for messages, stated over tables
    held as sequences: `filter(...)` as Filter, `order_by(timestamp)` as
    SortByKey, and the two-party conversation query built from them. */
module Queries {
  import opened Wrappers
  import opened Database
  import opened Models

  /** The rows that satisfy `keep`, in table order. */
  function Filter<T(!new)>(t: seq<T>, keep: T -> bool): (r: seq<T>)
    ensures forall x :: x in r <==> x in t && keep(x)
    ensures forall x :: multiset(r)[x] == if keep(x) then multiset(t)[x] else 0
  {
    if |t| == 0 then []
    else
      assert t == [t[0]] + t[1..];
      if keep(t[0]) then [t[0]] + Filter(t[1..], keep) else Filter(t[1..], keep)
  }

  /** Two filters whose conditions agree on every row select the same rows. */
  lemma {:induction false} FilterExtensional<T(!new)>(t: seq<T>, p: T -> bool, q: T -> bool)
    requires forall x :: p(x) == q(x)
    ensures Filter(t, p) == Filter(t, q)
  {
    if |t| > 0 {
      FilterExtensional(t[1..], p, q);
    }
  }

  predicate SortedBy<T>(t: seq<T>, key: T -> nat) {
    forall i, j :: 0 <= i < j < |t| ==> key(t[i]) <= key(t[j])
  }

  /** Appending a row whose key is at least every key already present keeps the
      sequence sorted. */
  lemma AppendLatestKeepsSorted<T>(t: seq<T>, key: T -> nat, x: T)
    requires SortedBy(t, key)
    requires forall y :: y in t ==> key(y) <= key(x)
    ensures SortedBy(t + [x], key)
  {
    forall i, j | 0 <= i < j < |t| + 1 ensures key((t + [x])[i]) <= key((t + [x])[j]) {
      assert (t + [x])[i] in t;
    }
  }

  /** A filter keeps the relative order of the rows it selects. */
  lemma {:induction false} FilterKeepsSorted<T(!new)>(t: seq<T>, keep: T -> bool, key: T -> nat)
    requires SortedBy(t, key)
    ensures SortedBy(Filter(t, keep), key)
  {
    if |t| > 0 {
      var tail := t[1..];
      FilterKeepsSorted(tail, keep, key);
      var rest := Filter(tail, keep);
      if keep(t[0]) {
        if |rest| > 0 {
          assert rest[0] in tail;
          var k :| 0 <= k < |tail| && tail[k] == rest[0];
          assert t[k + 1] == rest[0];
        }
        ConsKeepsSorted(t[0], rest, key);
      }
    }
  }

  /** Inserts `x` into a sorted sequence just before the first row whose key is
      not smaller than its own. */
  function Insert<T>(x: T, t: seq<T>, key: T -> nat): (r: seq<T>)
    requires SortedBy(t, key)
    ensures SortedBy(r, key)
    ensures multiset(r) == multiset(t) + multiset{x}
    ensures |r| == |t| + 1 && (r[0] == x || (|t| > 0 && r[0] == t[0]))
  {
    if |t| == 0 then [x]
    else if key(x) <= key(t[0]) then
      ConsKeepsSorted(x, t, key);
      [x] + t
    else
      var rest := Insert(x, t[1..], key);
      assert t == [t[0]] + t[1..];
      ConsKeepsSorted(t[0], rest, key);
      [t[0]] + rest
  }

  lemma ConsKeepsSorted<T>(h: T, t: seq<T>, key: T -> nat)
    requires SortedBy(t, key)
    requires |t| > 0 ==> key(h) <= key(t[0])
    ensures SortedBy([h] + t, key)
  {
    forall i, j | 0 <= i < j < |t| + 1 ensures key(([h] + t)[i]) <= key(([h] + t)[j]) {
      if i > 0 {
        assert ([h] + t)[i] == t[i - 1];
      } else {
        assert key(t[0]) <= key(t[j - 1]);
      }
    }
  }

  /** A stable sort of the rows by a key: the model of `order_by(timestamp)`. */
  function SortByKey<T>(t: seq<T>, key: T -> nat): (r: seq<T>)
    ensures SortedBy(r, key)
    ensures multiset(r) == multiset(t)
  {
    if |t| == 0 then []
    else
      assert t == [t[0]] + t[1..];
      Insert(t[0], SortByKey(t[1..], key), key)
  }

  /** Sorting rows that are already in key order leaves them as they are: the
      sort is stable. */
  lemma {:induction false} SortByKeyOfSorted<T>(t: seq<T>, key: T -> nat)
    requires SortedBy(t, key)
    ensures SortByKey(t, key) == t
  {
    if |t| > 0 {
      SortByKeyOfSorted(t[1..], key);
      assert t == [t[0]] + t[1..];
    }
  }

  /** Where a message table keeps its sender, recipient and timestamp. */
  datatype Columns<-T> = Columns(sender: T -> Key, recipient: T -> Key, time: T -> nat)

  const TextColumns: Columns<Message> := Columns(MessageSender, MessageRecipient, MessageTime)
  const VoiceColumns: Columns<VoiceMessage> := Columns(VoiceSender, VoiceRecipient, VoiceTime)

  /** The row was sent from `a` to `b` or from `b` to `a`. */
  predicate Between<T>(row: T, cols: Columns<T>, a: Key, b: Key) {
    (cols.sender(row) == a && cols.recipient(row) == b) ||
    (cols.sender(row) == b && cols.recipient(row) == a)
  }

  /** The rows exchanged between `a` and `b` in either direction, ordered by
      timestamp. */
  function Conversation<T(!new)>(t: seq<T>, cols: Columns<T>, a: Key, b: Key): (r: seq<T>)
    ensures SortedBy(r, cols.time)
    ensures forall x :: x in r <==> x in t && Between(x, cols, a, b)
    ensures forall x :: multiset(r)[x] == if Between(x, cols, a, b) then multiset(t)[x] else 0
  {
    var selected := Filter(t, row => Between(row, cols, a, b));
    var r := SortByKey(selected, cols.time);
    assert forall x :: x in r <==> x in multiset(selected);
    r
  }

  /** Asking for the conversation of (b, a) gives exactly the rows, in exactly
      the order, that asking for (a, b) gives. */
  lemma ConversationSymmetric<T(!new)>(t: seq<T>, cols: Columns<T>, a: Key, b: Key)
    ensures Conversation(t, cols, a, b) == Conversation(t, cols, b, a)
  {
    FilterExtensional(t, row => Between(row, cols, a, b), row => Between(row, cols, b, a));
  }

  /** In a table whose timestamps never decrease from one row to the next, the
      sort reorders nothing: the conversation is the selected rows in the order
      they were inserted. */
  lemma ConversationInInsertionOrder<T(!new)>(t: seq<T>, cols: Columns<T>, a: Key, b: Key)
    requires SortedBy(t, cols.time)
    ensures Conversation(t, cols, a, b) == Filter(t, row => Between(row, cols, a, b))
  {
    FilterKeepsSorted(t, row => Between(row, cols, a, b), cols.time);
    SortByKeyOfSorted(Filter(t, row => Between(row, cols, a, b)), cols.time);
  }

  /** A row appended to a table that did not already hold it shows up exactly
      once in the conversation of its own sender and recipient, whichever way
      round they are asked for, and leaves every conversation it does not
      belong to as it was. */
  lemma AppendedRowInConversation<T(!new)>(t: seq<T>, cols: Columns<T>, row: T, a: Key, b: Key)
    requires row !in t
    ensures Between(row, cols, a, b) ==> multiset(Conversation(t + [row], cols, a, b))[row] == 1
    ensures Between(row, cols, a, b) ==> multiset(Conversation(t + [row], cols, b, a))[row] == 1
    ensures !Between(row, cols, a, b) ==> Conversation(t + [row], cols, a, b) == Conversation(t, cols, a, b)
  {
    var keep := x => Between(x, cols, a, b);
    ConversationSymmetric(t + [row], cols, a, b);
    assert multiset(t + [row])[row] == multiset(t)[row] + 1;
    if !Between(row, cols, a, b) {
      FilterAppendRejected(t, keep, row);
    }
  }

  lemma {:induction false} FilterAppendRejected<T(!new)>(t: seq<T>, keep: T -> bool, x: T)
    requires !keep(x)
    ensures Filter(t + [x], keep) == Filter(t, keep)
  {
    if |t| > 0 {
      assert (t + [x])[1..] == t[1..] + [x];
      FilterAppendRejected(t[1..], keep, x);
    } else {
      assert Filter([x][1..], keep) == [];
    }
  }

  /** A sequence is free of duplicates exactly when no value occurs in it more
      than once. */
  lemma {:induction false} DistinctIffSingleOccurrences<T>(s: seq<T>)
    ensures Distinct(s) <==> forall x :: multiset(s)[x] <= 1
  {
    if |s| > 0 {
      DistinctIffSingleOccurrences(s[1..]);
      assert s == [s[0]] + s[1..];
      if Distinct(s) {
        assert s[0] !in s[1..];
      } else {
        var i, j :| 0 <= i < j < |s| && s[i] == s[j];
        if i == 0 {
          assert s[j] in s[1..];
          assert multiset(s)[s[0]] >= 2;
        } else {
          assert !Distinct(s[1..]) by { assert s[1..][i - 1] == s[1..][j - 1]; }
          var x :| multiset(s[1..])[x] > 1;
          assert multiset(s)[x] >= multiset(s[1..])[x];
        }
      }
    }
  }

  /** A conversation drawn from a table without duplicate rows has none
      either. */
  lemma ConversationDistinct<T(!new)>(t: seq<T>, cols: Columns<T>, a: Key, b: Key)
    requires Distinct(t)
    ensures Distinct(Conversation(t, cols, a, b))
  {
    DistinctIffSingleOccurrences(t);
    DistinctIffSingleOccurrences(Conversation(t, cols, a, b));
  }
}
