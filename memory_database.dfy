/** app/config/memory_database.py: the in-memory stand-in for the PostgreSQL
    message store. The module-level list `_messages_store` is the field
    `messages` of `MessageStore`; each stored record carries the time it was
    inserted, which comes in as the parameter `now`.

    A dialog's history is its messages sorted by insertion time with
    Python's `list.sort`, which is stable. `SortByTime` is a stable
    insertion sort; `StableSortUnique` shows that a stable sort by time has
    exactly one possible result, so it is the one `list.sort` gives. */
module MemoryDatabase {
  import opened Models

  datatype StoredMessage = StoredMessage(
    id: string,
    text: string,
    dialogId: string,
    participantIndex: int,
    createdAt: int)

  /** One row of a dialog's history: `{"text": ..., "participant_index": ...}`. */
  datatype DialogEntry = DialogEntry(text: string, participantIndex: int)

  datatype MemoryStats = MemoryStats(totalMessages: nat, uniqueDialogs: nat, storageType: string)

  const StorageType: string := "in-memory"

  // ------------------------------------------------------------- filtering

  /** The messages of dialog `d`, in stored order. */
  function InDialog(s: seq<StoredMessage>, d: string): (r: seq<StoredMessage>)
    ensures |r| <= |s|
    ensures forall m :: m in r ==> m in s && m.dialogId == d
  {
    if s == [] then []
    else InDialog(s[..|s| - 1], d) + (if s[|s| - 1].dialogId == d then [s[|s| - 1]] else [])
  }

  lemma {:induction false} InDialogMembers(s: seq<StoredMessage>, d: string, m: StoredMessage)
    ensures m in InDialog(s, d) <==> m in s && m.dialogId == d
  {
    if s != [] {
      InDialogMembers(s[..|s| - 1], d, m);
      assert s == s[..|s| - 1] + [s[|s| - 1]];
    }
  }

  /** The messages stamped with time `t`, in order. */
  function WithTime(s: seq<StoredMessage>, t: int): seq<StoredMessage>
  {
    if s == [] then []
    else WithTime(s[..|s| - 1], t) + (if s[|s| - 1].createdAt == t then [s[|s| - 1]] else [])
  }

  lemma {:induction false} WithTimeMembers(s: seq<StoredMessage>, t: int, m: StoredMessage)
    requires m in WithTime(s, t)
    ensures m in s && m.createdAt == t
  {
    var front := s[..|s| - 1];
    if m in WithTime(front, t) {
      WithTimeMembers(front, t, m);
    }
  }

  function Entry(m: StoredMessage): DialogEntry
  {
    DialogEntry(m.text, m.participantIndex)
  }

  /** `[{"text": m["text"], "participant_index": ...} for m in s]`. */
  function Project(s: seq<StoredMessage>): (r: seq<DialogEntry>)
    ensures |r| == |s|
    ensures forall i :: 0 <= i < |s| ==> r[i] == Entry(s[i])
  {
    if s == [] then [] else Project(s[..|s| - 1]) + [Entry(s[|s| - 1])]
  }

  // --------------------------------------------------------------- sorting

  predicate SortedByTime(s: seq<StoredMessage>)
  {
    forall i, j :: 0 <= i < j < |s| ==> s[i].createdAt <= s[j].createdAt
  }

  /** Puts `m` after every element whose time is not later than its own. */
  function InsertByTime(sorted: seq<StoredMessage>, m: StoredMessage): (r: seq<StoredMessage>)
    ensures |r| == |sorted| + 1
    ensures multiset(r) == multiset(sorted) + multiset{m}
    ensures forall y :: y in r ==> y == m || y in sorted
  {
    if sorted == [] || sorted[|sorted| - 1].createdAt <= m.createdAt then sorted + [m]
    else
      var front, last := sorted[..|sorted| - 1], sorted[|sorted| - 1];
      assert sorted == front + [last];
      InsertByTime(front, m) + [last]
  }

  /** The stable sort by `created_at`. */
  function SortByTime(s: seq<StoredMessage>): (r: seq<StoredMessage>)
    ensures multiset(r) == multiset(s)
  {
    if s == [] then []
    else
      assert s == s[..|s| - 1] + [s[|s| - 1]];
      InsertByTime(SortByTime(s[..|s| - 1]), s[|s| - 1])
  }

  lemma {:induction false} InsertByTimeSorted(sorted: seq<StoredMessage>, m: StoredMessage)
    requires SortedByTime(sorted)
    ensures SortedByTime(InsertByTime(sorted, m))
  {
    if sorted != [] && sorted[|sorted| - 1].createdAt > m.createdAt {
      var front, last := sorted[..|sorted| - 1], sorted[|sorted| - 1];
      InsertByTimeSorted(front, m);
      var r' := InsertByTime(front, m);
      forall y | y in r' ensures y.createdAt <= last.createdAt {
        if y != m {
          var k :| 0 <= k < |front| && front[k] == y;
          assert sorted[k] == y;
        }
      }
    }
  }

  lemma WithTimeSnoc(s: seq<StoredMessage>, m: StoredMessage, t: int)
    ensures WithTime(s + [m], t) == WithTime(s, t) + (if m.createdAt == t then [m] else [])
  {
    assert (s + [m])[..|s|] == s;
  }

  lemma {:induction false} InsertByTimeWithTime(sorted: seq<StoredMessage>, m: StoredMessage, t: int)
    ensures WithTime(InsertByTime(sorted, m), t) == WithTime(sorted, t) + (if m.createdAt == t then [m] else [])
  {
    if sorted == [] || sorted[|sorted| - 1].createdAt <= m.createdAt {
      WithTimeSnoc(sorted, m, t);
    } else {
      var front, last := sorted[..|sorted| - 1], sorted[|sorted| - 1];
      assert sorted == front + [last];
      var inserted := InsertByTime(front, m);
      assert InsertByTime(sorted, m) == inserted + [last];
      InsertByTimeWithTime(front, m, t);
      WithTimeSnoc(inserted, last, t);
      WithTimeSnoc(front, last, t);
      assert last.createdAt == t ==> m.createdAt != t;
    }
  }

  /** `SortByTime` is a stable sort: its result is ordered by time, is a
      permutation of its input, and keeps the input order of messages with
      equal times. */
  lemma {:induction false} SortByTimeIsStableSort(s: seq<StoredMessage>)
    ensures SortedByTime(SortByTime(s))
    ensures multiset(SortByTime(s)) == multiset(s)
    ensures forall t :: WithTime(SortByTime(s), t) == WithTime(s, t)
  {
    if s != [] {
      var front, last := s[..|s| - 1], s[|s| - 1];
      SortByTimeIsStableSort(front);
      InsertByTimeSorted(SortByTime(front), last);
      forall t ensures WithTime(SortByTime(s), t) == WithTime(s, t) {
        InsertByTimeWithTime(SortByTime(front), last, t);
      }
    }
  }

  lemma NonEmptyHasLastTime(s: seq<StoredMessage>)
    ensures s != [] ==> s[|s| - 1] in WithTime(s, s[|s| - 1].createdAt)
  {
  }

  /** In a time-ordered sequence, every message is no later than the last. */
  lemma NotLaterThanLast(s: seq<StoredMessage>, z: StoredMessage)
    requires SortedByTime(s) && z in s
    ensures z.createdAt <= s[|s| - 1].createdAt
  {
    var k :| 0 <= k < |s| && s[k] == z;
  }

  /** Two time-ordered sequences that agree on the messages of every time
      end with messages of the same time. */
  lemma LastTimesAgree(a: seq<StoredMessage>, b: seq<StoredMessage>)
    requires a != [] && b != []
    requires SortedByTime(a) && SortedByTime(b)
    requires forall t :: WithTime(a, t) == WithTime(b, t)
    ensures a[|a| - 1].createdAt == b[|b| - 1].createdAt
  {
    var x, y := a[|a| - 1], b[|b| - 1];
    NonEmptyHasLastTime(a);
    NonEmptyHasLastTime(b);
    assert y in WithTime(a, y.createdAt);
    WithTimeMembers(a, y.createdAt, y);
    NotLaterThanLast(a, y);
    assert x in WithTime(b, x.createdAt);
    WithTimeMembers(b, x.createdAt, x);
    NotLaterThanLast(b, x);
  }

  /** Dropping the last message removes it from the messages of its time
      and leaves the other times alone. */
  lemma WithTimeDropLast(s: seq<StoredMessage>, t: int)
    requires s != []
    ensures s[|s| - 1].createdAt == t ==> WithTime(s, t) == WithTime(s[..|s| - 1], t) + [s[|s| - 1]]
    ensures s[|s| - 1].createdAt != t ==> WithTime(s, t) == WithTime(s[..|s| - 1], t)
  {
  }

  /** Removing equal last messages from two sequences that agree on the
      messages of time `t` leaves sequences that still agree on them. */
  lemma FrontsAgree(a: seq<StoredMessage>, b: seq<StoredMessage>, t: int)
    requires a != [] && b != [] && a[|a| - 1] == b[|b| - 1]
    requires WithTime(a, t) == WithTime(b, t)
    ensures WithTime(a[..|a| - 1], t) == WithTime(b[..|b| - 1], t)
  {
    WithTimeDropLast(a, t);
    WithTimeDropLast(b, t);
    var wa, wb := WithTime(a[..|a| - 1], t), WithTime(b[..|b| - 1], t);
    if a[|a| - 1].createdAt == t {
      assert wa == (wa + [a[|a| - 1]])[..|wa|];
      assert wb == (wb + [b[|b| - 1]])[..|wb|];
    }
  }

  /** Two time-ordered sequences that agree on the messages of every time
      end with the same message. */
  lemma LastsAgree(a: seq<StoredMessage>, b: seq<StoredMessage>)
    requires a != [] && b != []
    requires SortedByTime(a) && SortedByTime(b)
    requires forall t :: WithTime(a, t) == WithTime(b, t)
    ensures a[|a| - 1] == b[|b| - 1]
  {
    LastTimesAgree(a, b);
    var k := a[|a| - 1].createdAt;
    WithTimeDropLast(a, k);
    WithTimeDropLast(b, k);
    assert WithTime(a, k) == WithTime(b, k);
  }

  lemma AllFrontsAgree(a: seq<StoredMessage>, b: seq<StoredMessage>, a': seq<StoredMessage>, b': seq<StoredMessage>)
    requires a != [] && b != [] && a[|a| - 1] == b[|b| - 1]
    requires a' == a[..|a| - 1] && b' == b[..|b| - 1]
    requires forall t :: WithTime(a, t) == WithTime(b, t)
    ensures forall t :: WithTime(a', t) == WithTime(b', t)
  {
    forall t ensures WithTime(a', t) == WithTime(b', t) {
      FrontsAgree(a, b, t);
    }
  }

  lemma SortedFront(s: seq<StoredMessage>)
    requires s != [] && SortedByTime(s)
    ensures SortedByTime(s[..|s| - 1])
  {
  }

  /** Two time-ordered sequences that agree on the order of the messages of
      every time are equal: a stable sort by time has one possible result. */
  lemma {:induction false} StableSortUnique(a: seq<StoredMessage>, b: seq<StoredMessage>)
    requires SortedByTime(a) && SortedByTime(b)
    requires forall t :: WithTime(a, t) == WithTime(b, t)
    ensures a == b
    decreases |a| + |b|
  {
    NonEmptyHasLastTime(a);
    NonEmptyHasLastTime(b);
    if a != [] && b != [] {
      LastsAgree(a, b);
      var a', b' := a[..|a| - 1], b[..|b| - 1];
      AllFrontsAgree(a, b, a', b');
      SortedFront(a);
      SortedFront(b);
      StableSortUnique(a', b');
      assert a == a' + [a[|a| - 1]];
      assert b == b' + [b[|b| - 1]];
    }
  }

  /** Any stable sort by time of `s` is `SortByTime(s)`. */
  lemma StableSortIsSortByTime(s: seq<StoredMessage>, r: seq<StoredMessage>)
    requires SortedByTime(r)
    requires forall t :: WithTime(r, t) == WithTime(s, t)
    ensures r == SortByTime(s)
  {
    SortByTimeIsStableSort(s);
    StableSortUnique(r, SortByTime(s));
  }

  lemma {:induction false} SortedIsFixed(s: seq<StoredMessage>)
    requires SortedByTime(s)
    ensures SortByTime(s) == s
  {
    if s != [] {
      var front := s[..|s| - 1];
      SortedIsFixed(front);
      assert s == front + [s[|s| - 1]];
    }
  }

  lemma {:induction false} InDialogSorted(s: seq<StoredMessage>, d: string)
    requires SortedByTime(s)
    ensures SortedByTime(InDialog(s, d))
  {
    if s != [] {
      var front, last := s[..|s| - 1], s[|s| - 1];
      InDialogSorted(front, d);
      forall y | y in InDialog(front, d) ensures y.createdAt <= last.createdAt {
        var k :| 0 <= k < |front| && front[k] == y;
        assert s[k] == y;
      }
    }
  }

  // --------------------------------------------------------------- history

  /** What `select_messages_by_dialog(d)` returns for the stored list `s`. */
  function History(s: seq<StoredMessage>, d: string): (r: seq<DialogEntry>)
    ensures |r| == |InDialog(s, d)|
    ensures forall m :: m in s && m.dialogId == d ==> Entry(m) in r
    ensures forall e :: e in r ==> exists m :: m in s && m.dialogId == d && e == Entry(m)
  {
    var selected := InDialog(s, d);
    assert forall m :: m in selected <==> m in s && m.dialogId == d by {
      forall m ensures m in selected <==> m in s && m.dialogId == d {
        InDialogMembers(s, d, m);
      }
    }
    ProjectPermutation(selected, SortByTime(selected));
    Project(SortByTime(selected))
  }

  /** Projecting a reordering of `s` gives one row per message, and the
      rows are the entries of the messages of `s`. */
  lemma ProjectPermutation(s: seq<StoredMessage>, t: seq<StoredMessage>)
    requires multiset(t) == multiset(s)
    ensures |Project(t)| == |s|
    ensures forall m :: m in s ==> Entry(m) in Project(t)
    ensures forall e :: e in Project(t) ==> exists m :: m in s && e == Entry(m)
  {
    assert |t| == |multiset(t)| == |multiset(s)| == |s|;
    forall m | m in s
      ensures Entry(m) in Project(t)
    {
      assert m in multiset(t);
      var i :| 0 <= i < |t| && t[i] == m;
      assert Project(t)[i] == Entry(m);
    }
    forall e | e in Project(t)
      ensures exists m :: m in s && e == Entry(m)
    {
      var i :| 0 <= i < |t| && Project(t)[i] == e;
      assert t[i] in multiset(s);
    }
  }

  /** A history is the dialog's messages reordered by time: the rows of
      any stable sort by time of them, such as Python's `list.sort`. */
  lemma HistoryIsStableSort(s: seq<StoredMessage>, d: string, r: seq<StoredMessage>)
    requires SortedByTime(r)
    requires forall t :: WithTime(r, t) == WithTime(InDialog(s, d), t)
    ensures History(s, d) == Project(r)
  {
    StableSortIsSortByTime(InDialog(s, d), r);
  }

  /** A dialog with no stored message has an empty history. */
  lemma {:induction false} UnknownDialogHasNoHistory(s: seq<StoredMessage>, d: string)
    requires forall i :: 0 <= i < |s| ==> s[i].dialogId != d
    ensures InDialog(s, d) == [] && History(s, d) == []
  {
    if s != [] {
      UnknownDialogHasNoHistory(s[..|s| - 1], d);
    }
  }

  /** With a clock that never goes back, the history is the dialog's
      messages in insertion order. */
  lemma HistoryInInsertionOrder(s: seq<StoredMessage>, d: string)
    requires SortedByTime(s)
    ensures History(s, d) == Project(InDialog(s, d))
  {
    InDialogSorted(s, d);
    SortedIsFixed(InDialog(s, d));
  }

  /** Storing a message no older than any stored one appends its row to
      its own dialog's history and leaves every other history unchanged. */
  lemma HistoryAfterInsert(s: seq<StoredMessage>, m: StoredMessage, d: string)
    requires forall i :: 0 <= i < |s| ==> s[i].createdAt <= m.createdAt
    ensures m.dialogId == d ==> History(s + [m], d) == History(s, d) + [Entry(m)]
    ensures m.dialogId != d ==> History(s + [m], d) == History(s, d)
  {
    assert (s + [m])[..|s|] == s;
    assert m.dialogId != d ==> InDialog(s + [m], d) == InDialog(s, d);
    if m.dialogId == d {
      var x := InDialog(s, d);
      assert InDialog(s + [m], d) == x + [m];
      SortAppendLatest(x, m);
      var sorted := SortByTime(x);
      assert (sorted + [m])[..|sorted|] == sorted;
    }
  }

  /** Sorting after appending a message no older than the rest puts it
      last. */
  lemma SortAppendLatest(x: seq<StoredMessage>, m: StoredMessage)
    requires forall y :: y in x ==> y.createdAt <= m.createdAt
    ensures SortByTime(x + [m]) == SortByTime(x) + [m]
  {
    assert (x + [m])[..|x|] == x;
    var sorted := SortByTime(x);
    if sorted != [] {
      assert sorted[|sorted| - 1] in multiset(x);
    }
  }

  /** Two messages of one dialog inserted in order come back in that order
      when the clock did not go back between them, and swapped when it
      did. */
  lemma TwoMessageHistory(m1: StoredMessage, m2: StoredMessage)
    requires m1.dialogId == m2.dialogId
    ensures m1.createdAt <= m2.createdAt ==> History([m1, m2], m1.dialogId) == [Entry(m1), Entry(m2)]
    ensures m2.createdAt < m1.createdAt ==> History([m1, m2], m1.dialogId) == [Entry(m2), Entry(m1)]
  {
    var d := m1.dialogId;
    assert [m1, m2][..1] == [m1];
    assert [m1][..0] == [];
    assert InDialog([m1, m2], d) == [m1, m2];
    assert [m1, m2][..1] == [m1];
    assert SortByTime([m1]) == [m1];
    if m2.createdAt < m1.createdAt {
      assert InsertByTime([m1], m2) == [m2, m1];
    }
  }

  // ----------------------------------------------------------------- stats

  /** `set(msg["dialog_id"] for msg in s)`. */
  function DialogIds(s: seq<StoredMessage>): set<string>
  {
    if s == [] then {} else DialogIds(s[..|s| - 1]) + {s[|s| - 1].dialogId}
  }

  /** A dialog id is counted exactly when some stored message has it, and
      there are never more dialogs than messages. */
  lemma {:induction false} DialogIdsMeaning(s: seq<StoredMessage>)
    ensures forall d :: d in DialogIds(s) <==> exists i :: 0 <= i < |s| && s[i].dialogId == d
    ensures |DialogIds(s)| <= |s|
    ensures DialogIds(s) == {} <==> s == []
  {
    if s != [] {
      var front := s[..|s| - 1];
      DialogIdsMeaning(front);
      forall d ensures d in DialogIds(s) <==> exists i :: 0 <= i < |s| && s[i].dialogId == d {
        if d in DialogIds(front) {
          var i :| 0 <= i < |front| && front[i].dialogId == d;
          assert s[i].dialogId == d;
        }
        if exists i :: 0 <= i < |s| && s[i].dialogId == d {
          var i :| 0 <= i < |s| && s[i].dialogId == d;
          if i < |front| {
            assert front[i].dialogId == d;
          }
        }
      }
      assert s[|s| - 1].dialogId in DialogIds(s);
    }
  }

  // ----------------------------------------------------------------- store

  class MessageStore {
    /** `_messages_store`, oldest first. */
    var messages: seq<StoredMessage>

    constructor ()
      ensures messages == []
    {
      messages := [];
    }

    /** `init_db`: empties the store. */
    method InitDb()
      modifies this
      ensures messages == []
    {
      messages := [];
    }

    /** `insert_message`: appends one record, ids as their strings, stamped
        with `now`. */
    method InsertMessage(id: Uuid, text: string, dialogId: Uuid, participantIndex: int, now: int)
      modifies this
      ensures messages == old(messages) + [StoredMessage(UuidStr(id), text, UuidStr(dialogId), participantIndex, now)]
    {
      messages := messages + [StoredMessage(UuidStr(id), text, UuidStr(dialogId), participantIndex, now)];
    }

    /** `select_messages_by_dialog`: the dialog's rows ordered by time. */
    method SelectMessagesByDialog(dialogId: Uuid) returns (rows: seq<DialogEntry>)
      ensures rows == History(messages, UuidStr(dialogId))
    {
      var d := UuidStr(dialogId);
      var dialogMessages: seq<StoredMessage> := [];
      var i := 0;
      while i < |messages|
        invariant 0 <= i <= |messages|
        invariant dialogMessages == InDialog(messages[..i], d)
      {
        assert messages[..i + 1][..i] == messages[..i];
        if messages[i].dialogId == d {
          dialogMessages := dialogMessages + [messages[i]];
        }
        i := i + 1;
      }
      assert messages[..i] == messages;
      var sorted := SortByTime(dialogMessages);
      rows := [];
      var j := 0;
      while j < |sorted|
        invariant 0 <= j <= |sorted|
        invariant rows == Project(sorted[..j])
      {
        assert sorted[..j + 1][..j] == sorted[..j];
        rows := rows + [Entry(sorted[j])];
        j := j + 1;
      }
      assert sorted[..j] == sorted;
    }

    /** `get_memory_stats`. */
    method GetMemoryStats() returns (stats: MemoryStats)
      ensures stats.totalMessages == |messages|
      ensures stats.uniqueDialogs == |DialogIds(messages)|
      ensures stats.uniqueDialogs <= stats.totalMessages
      ensures stats.storageType == StorageType
    {
      var ids: set<string> := {};
      var i := 0;
      while i < |messages|
        invariant 0 <= i <= |messages|
        invariant ids == DialogIds(messages[..i])
      {
        assert messages[..i + 1][..i] == messages[..i];
        ids := ids + {messages[i].dialogId};
        i := i + 1;
      }
      assert messages[..i] == messages;
      DialogIdsMeaning(messages);
      stats := MemoryStats(|messages|, |ids|, StorageType);
    }
  }

  /** The scenario of test_memory_db.py: after `init_db`, two messages of
      one dialog come back as two rows in insertion order, provided the
      clock did not go back between the two inserts. */
  method TwoMessageScenario(dialogId: Uuid, id1: Uuid, id2: Uuid, t1: int, t2: int)
    returns (rows: seq<DialogEntry>)
    requires t1 <= t2
    ensures rows == [DialogEntry("Hello, are you a bot?", 0), DialogEntry("No, I'm human!", 1)]
  {
    var store := new MessageStore();
    store.InitDb();
    store.InsertMessage(id1, "Hello, are you a bot?", dialogId, 0, t1);
    store.InsertMessage(id2, "No, I'm human!", dialogId, 1, t2);
    rows := store.SelectMessagesByDialog(dialogId);
    var m1 := StoredMessage(UuidStr(id1), "Hello, are you a bot?", UuidStr(dialogId), 0, t1);
    var m2 := StoredMessage(UuidStr(id2), "No, I'm human!", UuidStr(dialogId), 1, t2);
    assert store.messages == [m1, m2];
    TwoMessageHistory(m1, m2);
  }
}
