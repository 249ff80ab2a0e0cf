/** The registry's entries and the operations on a list of entries that the tracker's
    methods perform: first-match lookup, first-match removal, timestamp overwrite,
    the stable sort by timestamp and the "due" filter. */
module ThreadEntries {

  /** One observed thread: its last-activity clock in milliseconds, its id and the id
      of the channel it was opened in. */
  datatype Entry = Entry(timestamp: int, threadId: string, channelId: string)


  /** True when some entry of `s` carries `id`. */
  predicate HasThread(s: seq<Entry>, id: string)
  {
    exists i :: 0 <= i < |s| && s[i].threadId == id
  }

  /** No two entries of `s` carry the same thread id. */
  predicate DistinctIds(s: seq<Entry>)
  {
    forall i, j :: 0 <= i < j < |s| ==> s[i].threadId != s[j].threadId
  }

  /** `findIndex` with the predicate "threadId equals id": the smallest index whose
      entry carries `id`, or -1 when none does. */
  function IndexOf(s: seq<Entry>, id: string): (r: int)
    ensures -1 <= r < |s|
    ensures r == -1 <==> !HasThread(s, id)
    ensures 0 <= r ==> s[r].threadId == id && forall i :: 0 <= i < r ==> s[i].threadId != id
  {
    if s == [] then -1
    else if s[0].threadId == id then 0
    else
      var k := IndexOf(s[1..], id);
      if k == -1 then -1 else k + 1
  }

  /** `splice(IndexOf(s, id), 1)` guarded by "found": deletes the first entry carrying
      `id` and keeps the others in order. */
  function RemoveFirst(s: seq<Entry>, id: string): seq<Entry>
  {
    var k := IndexOf(s, id);
    if k == -1 then s else s[..k] + s[k + 1..]
  }

  /** Overwrites the timestamp of the first entry carrying `id`, if there is one. */
  function Retimed(s: seq<Entry>, id: string, t: int): seq<Entry>
  {
    var k := IndexOf(s, id);
    if k == -1 then s else s[k := s[k].(timestamp := t)]
  }

  /** Ascending by timestamp. */
  predicate SortedByTimestamp(s: seq<Entry>)
  {
    forall i, j :: 0 <= i < j < |s| ==> s[i].timestamp <= s[j].timestamp
  }

  /** Inserts `e` before the first entry whose timestamp is not smaller than its own. */
  function Insert(e: Entry, s: seq<Entry>): (r: seq<Entry>)
    ensures |r| == |s| + 1
    ensures multiset(r) == multiset(s) + multiset{e}
    ensures r[0] == e || (s != [] && r[0] == s[0])
  {
    if s == [] || e.timestamp <= s[0].timestamp then [e] + s
    else
      assert s == [s[0]] + s[1..];
      [s[0]] + Insert(e, s[1..])
  }

  lemma {:induction false} InsertKeepsSorted(e: Entry, s: seq<Entry>)
    requires SortedByTimestamp(s)
    ensures SortedByTimestamp(Insert(e, s))
  {
    if s != [] && e.timestamp > s[0].timestamp {
      var rest := Insert(e, s[1..]);
      InsertKeepsSorted(e, s[1..]);
      assert s[0].timestamp <= rest[0].timestamp;
      var r := [s[0]] + rest;
      forall i, j | 0 <= i < j < |r| ensures r[i].timestamp <= r[j].timestamp {
        if i == 0 {
          assert r[j] == rest[j - 1];
        } else {
          assert r[i] == rest[i - 1] && r[j] == rest[j - 1];
        }
      }
    }
  }

  /** The in-place `sort((a, b) => a.timestamp - b.timestamp)`. The language's sort is
      stable, so this is a stable insertion sort. */
  function SortByTimestamp(s: seq<Entry>): (r: seq<Entry>)
    ensures multiset(r) == multiset(s)
    ensures SortedByTimestamp(r)
  {
    if s == [] then []
    else
      assert s == [s[0]] + s[1..];
      var rest := SortByTimestamp(s[1..]);
      InsertKeepsSorted(s[0], rest);
      Insert(s[0], rest)
  }

  /** The entries of `s` whose timestamp is `t`, in order. */
  function WithTimestamp(s: seq<Entry>, t: int): seq<Entry>
  {
    if s == [] then []
    else (if s[0].timestamp == t then [s[0]] else []) + WithTimestamp(s[1..], t)
  }

  /** The filter predicate: strictly more than `timeout` milliseconds have passed. */
  predicate IsDue(e: Entry, now: int, timeout: int)
  {
    now - e.timestamp > timeout
  }

  /** `filter(thread => now - thread.timestamp > timeout)`. */
  function DueEntries(s: seq<Entry>, now: int, timeout: int): seq<Entry>
  {
    if s == [] then []
    else (if IsDue(s[0], now, timeout) then [s[0]] else []) + DueEntries(s[1..], now, timeout)
  }

  /** The filter keeps every due entry, as often as it occurs, and nothing else. */
  lemma {:induction false} DueEntriesExactly(s: seq<Entry>, now: int, timeout: int)
    ensures forall e ::
      multiset(DueEntries(s, now, timeout))[e] == (if IsDue(e, now, timeout) then multiset(s)[e] else 0)
  {
    if s != [] {
      DueEntriesExactly(s[1..], now, timeout);
      assert s == [s[0]] + s[1..];
    }
  }

  // ---------------------------------------------------------------------------
  // First-match lookup, removal and overwrite
  // ---------------------------------------------------------------------------

  /** Appending an entry with a new id: the lookup finds it at the end. */
  lemma {:induction false} IndexOfAppended(s: seq<Entry>, e: Entry)
    requires !HasThread(s, e.threadId)
    ensures IndexOf(s + [e], e.threadId) == |s|
  {
    assert (s + [e])[|s|] == e;
    assert forall i :: 0 <= i < |s| ==> (s + [e])[i] == s[i];
  }

  /** Appending keeps every earlier first match where it was. */
  lemma {:induction false} IndexOfAppendedFound(s: seq<Entry>, e: Entry, id: string)
    requires HasThread(s, id)
    ensures IndexOf(s + [e], id) == IndexOf(s, id)
  {
    var k := IndexOf(s, id);
    assert (s + [e])[k] == s[k];
    assert forall i :: 0 <= i < k ==> (s + [e])[i] == s[i];
  }

  /** Removing the first match: one entry fewer when the id is present, none otherwise;
      the removed entry carries the id; entries with other ids keep their multiplicity. */
  lemma {:induction false} RemoveFirstEffect(s: seq<Entry>, id: string)
    ensures !HasThread(s, id) ==> RemoveFirst(s, id) == s
    ensures HasThread(s, id) ==>
      |RemoveFirst(s, id)| == |s| - 1 &&
      multiset(RemoveFirst(s, id)) + multiset{s[IndexOf(s, id)]} == multiset(s)
    ensures forall e: Entry :: e.threadId != id ==> multiset(RemoveFirst(s, id))[e] == multiset(s)[e]
  {
    var k := IndexOf(s, id);
    if k != -1 {
      assert s == s[..k] + [s[k]] + s[k + 1..];
    }
  }

  /** Adding a thread with a new id and then removing it restores the list. */
  lemma {:induction false} RemoveFirstUndoesAppend(s: seq<Entry>, e: Entry)
    requires !HasThread(s, e.threadId)
    ensures RemoveFirst(s + [e], e.threadId) == s
  {
    IndexOfAppended(s, e);
    assert (s + [e])[..|s|] == s;
  }

  /** Where each entry of `s` sits once the entry at `k` is spliced out. */
  lemma SplicedAt(s: seq<Entry>, k: int)
    requires 0 <= k < |s|
    ensures |s[..k] + s[k + 1..]| == |s| - 1
    ensures forall i :: 0 <= i < |s| - 1 ==> (s[..k] + s[k + 1..])[i] == if i < k then s[i] else s[i + 1]
  {
  }

  /** Removing the first match keeps the list sorted. */
  lemma {:induction false} RemoveFirstKeepsSorted(s: seq<Entry>, id: string)
    requires SortedByTimestamp(s)
    ensures SortedByTimestamp(RemoveFirst(s, id))
  {
    var k := IndexOf(s, id);
    if k != -1 {
      var r := s[..k] + s[k + 1..];
      assert SortedByTimestamp(r) by {
        SplicedAt(s, k);
        forall i, j | 0 <= i < j < |r| ensures r[i].timestamp <= r[j].timestamp {
          var i' := if i < k then i else i + 1;
          var j' := if j < k then j else j + 1;
          assert r[i] == s[i'] && r[j] == s[j'];
        }
      }
    }
  }

  /** With distinct ids, one removal leaves no entry carrying the id, so a second
      removal changes nothing. */
  lemma {:induction false} RemoveFirstDistinct(s: seq<Entry>, id: string)
    requires DistinctIds(s)
    ensures !HasThread(RemoveFirst(s, id), id)
    ensures RemoveFirst(RemoveFirst(s, id), id) == RemoveFirst(s, id)
    ensures DistinctIds(RemoveFirst(s, id))
  {
    var k := IndexOf(s, id);
    var r := RemoveFirst(s, id);
    if k != -1 {
      SplicedAt(s, k);
      forall i | 0 <= i < |r| ensures r[i].threadId != id {
        if i < k {
          assert r[i] == s[i];
        } else {
          assert r[i] == s[i + 1];
        }
      }
      forall i, j | 0 <= i < j < |r| ensures r[i].threadId != r[j].threadId {
        var i' := if i < k then i else i + 1;
        var j' := if j < k then j else j + 1;
        assert r[i] == s[i'] && r[j] == s[j'];
      }
    }
  }

  /** Adding the same id twice yields two entries: one removal leaves the second one,
      which the lookup then finds. */
  lemma {:induction false} DuplicateSurvivesRemoval(s: seq<Entry>, first: Entry, second: Entry)
    requires !HasThread(s, first.threadId)
    requires second.threadId == first.threadId
    ensures RemoveFirst(s + [first] + [second], first.threadId) == s + [second]
    ensures IndexOf(RemoveFirst(s + [first] + [second], first.threadId), first.threadId) == |s|
  {
    IndexOfAppended(s, first);
    IndexOfAppendedFound(s + [first], second, first.threadId);
    var t := s + [first] + [second];
    assert t[..|s|] == s && t[|s| + 1..] == [second];
    assert (s + [second])[|s|] == second;
    assert forall i :: 0 <= i < |s| ==> (s + [second])[i] == s[i];
  }

  /** The timestamp overwrite touches the first match's timestamp and nothing else. */
  lemma {:induction false} RetimedEffect(s: seq<Entry>, id: string, t: int)
    ensures |Retimed(s, id, t)| == |s|
    ensures forall i :: 0 <= i < |s| ==>
      Retimed(s, id, t)[i].threadId == s[i].threadId && Retimed(s, id, t)[i].channelId == s[i].channelId
    ensures forall i :: 0 <= i < |s| && i != IndexOf(s, id) ==> Retimed(s, id, t)[i] == s[i]
    ensures HasThread(s, id) ==> Retimed(s, id, t)[IndexOf(s, id)].timestamp == t
    ensures IndexOf(Retimed(s, id, t), id) == IndexOf(s, id)
  {
    var k := IndexOf(s, id);
    var r := Retimed(s, id, t);
    if k != -1 {
      assert r[k].threadId == id;
      assert forall i :: 0 <= i < k ==> r[i] == s[i];
    }
  }

  /** Two overwrites of the same id: the last one wins. */
  lemma {:induction false} RetimedTwice(s: seq<Entry>, id: string, t1: int, t2: int)
    ensures Retimed(Retimed(s, id, t1), id, t2) == Retimed(s, id, t2)
  {
    RetimedEffect(s, id, t1);
  }

  // ---------------------------------------------------------------------------
  // The sort: sorted, a permutation (in the contracts above) and stable
  // ---------------------------------------------------------------------------

  /** Inserting `e` places it before every entry that has its timestamp. */
  lemma {:induction false} InsertKeepsTies(e: Entry, s: seq<Entry>, t: int)
    ensures WithTimestamp(Insert(e, s), t) == (if e.timestamp == t then [e] else []) + WithTimestamp(s, t)
  {
    var r := Insert(e, s);
    if s == [] || e.timestamp <= s[0].timestamp {
      assert r[0] == e && r[1..] == s;
    } else {
      var rest := Insert(e, s[1..]);
      assert WithTimestamp(r, t) == (if s[0].timestamp == t then [s[0]] else []) + WithTimestamp(rest, t) by {
        assert r[0] == s[0] && r[1..] == rest;
      }
      InsertKeepsTies(e, s[1..], t);
      if s[0].timestamp == t {
        assert WithTimestamp(r, t) == [s[0]] + WithTimestamp(s[1..], t);
      } else {
        assert WithTimestamp(s, t) == WithTimestamp(s[1..], t);
      }
    }
  }

  /** The sort is stable: entries with equal timestamps keep their relative order. */
  lemma {:induction false} SortKeepsTies(s: seq<Entry>, t: int)
    ensures WithTimestamp(SortByTimestamp(s), t) == WithTimestamp(s, t)
  {
    if s != [] {
      SortKeepsTies(s[1..], t);
      InsertKeepsTies(s[0], SortByTimestamp(s[1..]), t);
    }
  }

  /** Sorting preserves distinct ids. */
  lemma {:induction false} SortKeepsDistinctIds(s: seq<Entry>)
    requires DistinctIds(s)
    ensures DistinctIds(SortByTimestamp(s))
  {
    if s != [] {
      var rest := SortByTimestamp(s[1..]);
      SortKeepsDistinctIds(s[1..]);
      forall x | x in rest ensures x.threadId != s[0].threadId {
        assert x in multiset(s[1..]);
      }
      InsertKeepsDistinctIds(s[0], rest);
    }
  }

  lemma {:induction false} InsertKeepsDistinctIds(e: Entry, s: seq<Entry>)
    requires DistinctIds(s)
    requires forall x :: x in s ==> x.threadId != e.threadId
    ensures DistinctIds(Insert(e, s))
  {
    var r := Insert(e, s);
    if s == [] || e.timestamp <= s[0].timestamp {
      forall i, j | 0 <= i < j < |r| ensures r[i].threadId != r[j].threadId {
        assert r[j] == s[j - 1];
        if i > 0 {
          assert r[i] == s[i - 1];
        }
      }
    } else {
      var rest := Insert(e, s[1..]);
      InsertKeepsDistinctIds(e, s[1..]);
      forall j | 0 <= j < |rest| ensures rest[j].threadId != s[0].threadId {
        assert rest[j] in multiset(rest);
      }
      forall i, j | 0 <= i < j < |r| ensures r[i].threadId != r[j].threadId {
        assert r[j] == rest[j - 1];
        if i > 0 {
          assert r[i] == rest[i - 1];
        }
      }
    }
  }

  // ---------------------------------------------------------------------------
  // The due filter over the sorted list
  // ---------------------------------------------------------------------------

  /** Over a sorted list, once one entry is not due no later entry is. */
  lemma {:induction false} NoneDueAfter(s: seq<Entry>, now: int, timeout: int)
    requires SortedByTimestamp(s)
    requires s != [] && !IsDue(s[0], now, timeout)
    ensures DueEntries(s, now, timeout) == []
  {
    if |s| > 1 {
      NoneDueAfter(s[1..], now, timeout);
    }
  }

  /** Over a sorted list the due entries are exactly a prefix: everything due is older
      than everything not due. */
  lemma {:induction false} DueIsPrefixOfSorted(s: seq<Entry>, now: int, timeout: int)
    requires SortedByTimestamp(s)
    ensures |DueEntries(s, now, timeout)| <= |s|
    ensures DueEntries(s, now, timeout) == s[..|DueEntries(s, now, timeout)|]
  {
    if s != [] {
      if IsDue(s[0], now, timeout) {
        var tail := DueEntries(s[1..], now, timeout);
        DueIsPrefixOfSorted(s[1..], now, timeout);
        assert DueEntries(s, now, timeout) == [s[0]] + tail;
        assert s[..|tail| + 1] == [s[0]] + s[1..][..|tail|];
      } else {
        NoneDueAfter(s, now, timeout);
      }
    }
  }

  /** Nothing is due after the sort exactly when no pending entry is due. */
  lemma {:induction false} NothingDueIff(s: seq<Entry>, now: int, timeout: int)
    ensures DueEntries(SortByTimestamp(s), now, timeout) == [] <==>
      forall i :: 0 <= i < |s| ==> !IsDue(s[i], now, timeout)
  {
    var d := DueEntries(SortByTimestamp(s), now, timeout);
    DueEntriesExactly(SortByTimestamp(s), now, timeout);
    if d != [] {
      assert d[0] in multiset(d);
      assert d[0] in multiset(s);
      var i :| 0 <= i < |s| && s[i] == d[0];
    } else {
      forall i | 0 <= i < |s| ensures !IsDue(s[i], now, timeout) {
        assert s[i] in multiset(s);
        assert multiset(d)[s[i]] == 0;
      }
    }
  }

  /** The first due entry after the sort is a pending entry that is due, no pending
      entry is older, and among the oldest it is the one that was added first. */
  lemma {:induction false} OldestDueFirst(s: seq<Entry>, now: int, timeout: int)
    requires DueEntries(SortByTimestamp(s), now, timeout) != []
    ensures var d := DueEntries(SortByTimestamp(s), now, timeout)[0];
      d in s && IsDue(d, now, timeout) &&
      (forall i :: 0 <= i < |s| ==> d.timestamp <= s[i].timestamp) &&
      WithTimestamp(s, d.timestamp) != [] && d == WithTimestamp(s, d.timestamp)[0]
  {
    var sorted := SortByTimestamp(s);
    var due := DueEntries(sorted, now, timeout);
    DueIsPrefixOfSorted(sorted, now, timeout);
    DueEntriesExactly(sorted, now, timeout);
    var d := due[0];
    assert d == sorted[0];
    assert d in multiset(due);
    assert d in multiset(sorted);
    forall i | 0 <= i < |s| ensures d.timestamp <= s[i].timestamp {
      assert s[i] in multiset(sorted);
      var j :| 0 <= j < |sorted| && sorted[j] == s[i];
    }
    SortKeepsTies(s, d.timestamp);
  }
}
