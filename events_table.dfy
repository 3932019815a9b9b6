/**
 * The `tracking_data` table as the sequence of its rows in insertion order,
 * with the two statements that change it (`DELETE ... WHERE id = ?` and
 * `DELETE FROM tracking_data`) and the query the dashboard runs
 * (`SELECT * ... ORDER BY timestamp DESC`).
 */
module EventsTable {
  import opened Records
  import opened Text

  /** The primary keys present in the table. */
  function Ids(s: seq<TrackingEvent>): set<string>
  {
    set e | e in s :: e.id
  }

  /** `id` is the primary key: no two rows share it. */
  ghost predicate DistinctIds(s: seq<TrackingEvent>)
  {
    forall i, j :: 0 <= i < j < |s| ==> s[i].id != s[j].id
  }

  // ----- DELETE FROM tracking_data WHERE id = ? -----

  /** The table after deleting every row whose key is `id`; the other rows keep their order. */
  function WithoutId(s: seq<TrackingEvent>, id: string): (r: seq<TrackingEvent>)
    ensures forall e :: e in r <==> e in s && e.id != id
    ensures |r| <= |s|
  {
    if s == [] then []
    else if s[0].id == id then WithoutId(s[1..], id)
    else [s[0]] + WithoutId(s[1..], id)
  }

  /** Deleting a key that is not in the table changes nothing (the handler still reports success). */
  lemma {:induction false} WithoutIdAbsent(s: seq<TrackingEvent>, id: string)
    requires id !in Ids(s)
    ensures WithoutId(s, id) == s
  {
    if s != [] {
      assert s[0] in s;
      assert Ids(s[1..]) <= Ids(s) by {
        forall e | e in s[1..] ensures e in s { }
      }
      WithoutIdAbsent(s[1..], id);
      assert s == [s[0]] + s[1..];
    }
  }

  /** Deleting by key twice leaves the table as deleting once does. */
  lemma {:induction false} WithoutIdIdempotent(s: seq<TrackingEvent>, id: string)
    ensures WithoutId(WithoutId(s, id), id) == WithoutId(s, id)
  {
    if s != [] {
      WithoutIdIdempotent(s[1..], id);
      if s[0].id != id {
        var rest := WithoutId(s[1..], id);
        assert ([s[0]] + rest)[0] == s[0] && ([s[0]] + rest)[1..] == rest;
      }
    }
  }

  /** With distinct keys, deleting the key of row `i` removes exactly that row and keeps every other row in place. */
  lemma {:induction false} WithoutIdExact(s: seq<TrackingEvent>, id: string, i: nat)
    requires DistinctIds(s)
    requires i < |s| && s[i].id == id
    ensures WithoutId(s, id) == s[..i] + s[i + 1..]
  {
    var tail := s[1..];
    assert DistinctIds(tail);
    if i == 0 {
      assert id !in Ids(tail);
      WithoutIdAbsent(tail, id);
      assert s[..0] + s[1..] == tail;
    } else {
      assert s[0].id != id;
      WithoutIdExact(tail, id, i - 1);
      assert s[..i] == [s[0]] + tail[..i - 1];
      assert s[i + 1..] == tail[i..];
    }
  }

  /** A row whose key is not yet in a table with distinct keys can go in front without a clash. */
  lemma PrependDistinct(x: TrackingEvent, s: seq<TrackingEvent>)
    requires DistinctIds(s) && x.id !in Ids(s)
    ensures DistinctIds([x] + s)
  {
    var r := [x] + s;
    forall i, j | 0 <= i < j < |r| ensures r[i].id != r[j].id {
      assert r[j] == s[j - 1];
      if i > 0 {
        assert r[i] == s[i - 1];
      } else {
        assert s[j - 1] in s;
      }
    }
  }

  /** Deleting rows never breaks the primary-key constraint. */
  lemma {:induction false} WithoutIdKeepsDistinct(s: seq<TrackingEvent>, id: string)
    requires DistinctIds(s)
    ensures DistinctIds(WithoutId(s, id))
  {
    if s != [] {
      var tail := s[1..];
      assert DistinctIds(tail);
      WithoutIdKeepsDistinct(tail, id);
      if s[0].id != id {
        var rest := WithoutId(tail, id);
        assert s[0].id !in Ids(rest) by {
          forall e | e in rest ensures e.id != s[0].id {
            assert e in tail;
            var k :| 0 <= k < |tail| && tail[k] == e;
            assert s[k + 1] == e;
          }
        }
        PrependDistinct(s[0], rest);
      }
    }
  }

  // ----- SELECT * FROM tracking_data ORDER BY timestamp DESC -----

  /** Newest first: timestamps never increase along the listing. */
  ghost predicate SortedDesc(s: seq<TrackingEvent>)
  {
    forall i, j :: 0 <= i < j < |s| ==> LexLe(s[j].timestamp, s[i].timestamp)
  }

  /** Places `e` before the first row whose timestamp is not later than its own. */
  function InsertDesc(e: TrackingEvent, s: seq<TrackingEvent>): (r: seq<TrackingEvent>)
    ensures multiset(r) == multiset(s) + multiset{e}
  {
    if s == [] then [e]
    else if LexLe(s[0].timestamp, e.timestamp) then [e] + s
    else
      assert s == [s[0]] + s[1..];
      [s[0]] + InsertDesc(e, s[1..])
  }

  /** A row no older than every row of a newest-first listing can go in front of it. */
  lemma PrependSorted(x: TrackingEvent, s: seq<TrackingEvent>)
    requires SortedDesc(s)
    requires forall j :: 0 <= j < |s| ==> LexLe(s[j].timestamp, x.timestamp)
    ensures SortedDesc([x] + s)
  {
    var r := [x] + s;
    forall i, j | 0 <= i < j < |r| ensures LexLe(r[j].timestamp, r[i].timestamp) {
      assert r[j] == s[j - 1];
      if i > 0 {
        assert r[i] == s[i - 1];
      }
    }
  }

  lemma {:induction false} InsertDescSorted(e: TrackingEvent, s: seq<TrackingEvent>)
    requires SortedDesc(s)
    ensures SortedDesc(InsertDesc(e, s))
  {
    if s == [] {
    } else if LexLe(s[0].timestamp, e.timestamp) {
      forall j | 0 <= j < |s| ensures LexLe(s[j].timestamp, e.timestamp) {
        if j > 0 {
          LexLeTransitive(s[j].timestamp, s[0].timestamp, e.timestamp);
        }
      }
      PrependSorted(e, s);
    } else {
      LexLeTotal(s[0].timestamp, e.timestamp);
      var tail := s[1..];
      assert SortedDesc(tail);
      InsertDescSorted(e, tail);
      var rest := InsertDesc(e, tail);
      forall j | 0 <= j < |rest| ensures LexLe(rest[j].timestamp, s[0].timestamp) {
        var x := rest[j];
        assert x in multiset(rest);
        if x != e {
          assert x in multiset(tail);
          var k :| 0 <= k < |tail| && tail[k] == x;
          assert s[k + 1] == x;
        }
      }
      PrependSorted(s[0], rest);
    }
  }

  /** The dashboard's listing: all rows of the table, newest first. */
  function SortDesc(s: seq<TrackingEvent>): (r: seq<TrackingEvent>)
    ensures SortedDesc(r)
    ensures multiset(r) == multiset(s)
  {
    if s == [] then []
    else
      var rest := SortDesc(s[1..]);
      InsertDescSorted(s[0], rest);
      assert s == [s[0]] + s[1..];
      InsertDesc(s[0], rest)
  }

  /** No two rows carry the same timestamp. */
  ghost predicate DistinctTimestamps(s: seq<TrackingEvent>)
  {
    forall i, j :: 0 <= i < j < |s| ==> s[i].timestamp != s[j].timestamp
  }

  /** Removing equal first rows from two listings of the same rows leaves listings of the same rows. */
  lemma TailsSameRows(x: seq<TrackingEvent>, y: seq<TrackingEvent>)
    requires |x| > 0 && |y| > 0 && x[0] == y[0] && multiset(x) == multiset(y)
    ensures multiset(x[1..]) == multiset(y[1..])
  {
    assert x == [x[0]] + x[1..];
    assert y == [y[0]] + y[1..];
    calc {
      multiset(x[1..]);
      multiset(x) - multiset{x[0]};
      multiset(y) - multiset{y[0]};
      multiset(y[1..]);
    }
  }

  /** Two newest-first listings of the same rows with distinct timestamps start with the same row. */
  lemma {:induction false} SortedHeadsAgree(x: seq<TrackingEvent>, y: seq<TrackingEvent>)
    requires SortedDesc(x) && SortedDesc(y) && multiset(x) == multiset(y)
    requires DistinctTimestamps(x) && |x| > 0
    ensures |y| > 0 && x[0] == y[0]
  {
    assert x[0] in multiset(y);
    var k :| 0 <= k < |y| && y[k] == x[0];
    assert y[0] in multiset(x);
    var m :| 0 <= m < |x| && x[m] == y[0];
    if k == 0 {
      LexLeReflexive(y[0].timestamp);
    }
    if m == 0 {
      LexLeReflexive(x[0].timestamp);
    }
    LexLeAntisymmetric(x[0].timestamp, x[m].timestamp);
  }

  /** When timestamps are distinct, "newest first and a permutation" leaves only one possible listing. */
  lemma {:induction false} SortedDescUnique(x: seq<TrackingEvent>, y: seq<TrackingEvent>)
    requires SortedDesc(x) && SortedDesc(y) && multiset(x) == multiset(y)
    requires DistinctTimestamps(x)
    ensures x == y
  {
    assert |x| == |multiset(x)| == |multiset(y)| == |y|;
    if x != [] {
      SortedHeadsAgree(x, y);
      TailsSameRows(x, y);
      assert SortedDesc(x[1..]) && SortedDesc(y[1..]) && DistinctTimestamps(x[1..]);
      SortedDescUnique(x[1..], y[1..]);
      assert x == [x[0]] + x[1..] && y == [y[0]] + y[1..];
    }
  }

  /** The rows in reverse order. */
  function Reverse(s: seq<TrackingEvent>): (r: seq<TrackingEvent>)
    ensures |r| == |s|
    ensures forall k :: 0 <= k < |s| ==> r[k] == s[|s| - 1 - k]
    ensures multiset(r) == multiset(s)
  {
    if s == [] then []
    else
      assert s == [s[0]] + s[1..];
      Reverse(s[1..]) + [s[0]]
  }

  /**
   * Rows inserted with strictly increasing timestamps are listed in exactly
   * the reverse of insertion order: E1, E2, E3 are listed as E3, E2, E1.
   */
  lemma NewestFirst(s: seq<TrackingEvent>)
    requires forall i, j :: 0 <= i < j < |s| ==> LexLt(s[i].timestamp, s[j].timestamp)
    ensures SortDesc(s) == Reverse(s)
  {
    var r := Reverse(s);
    assert SortedDesc(r);
    assert DistinctTimestamps(r);
    SortedDescUnique(r, SortDesc(s));
  }
}
