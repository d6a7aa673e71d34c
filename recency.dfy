/**
 * Stored risk events and the `sort({ generatedAt: -1 })` the alert queries
 * apply to them: newest first, events with equal timestamps kept in store
 * order.
 */
module Recency {
  import opened Records

  /** An event together with its position in the store, which stands for its document id. */
  datatype Stored = Stored(id: nat, event: RiskEvent)

  /** The store's events, each with its position. */
  function Numbered(events: seq<RiskEvent>): (s: seq<Stored>)
    ensures |s| == |events|
    ensures forall k :: 0 <= k < |s| ==> s[k] == Stored(k, events[k])
  {
    seq(|events|, k requires 0 <= k < |events| => Stored(k, events[k]))
  }

  /** Newest first. */
  predicate NewestFirst(s: seq<Stored>)
  {
    forall i, j :: 0 <= i < j < |s| ==> s[i].event.generatedAt >= s[j].event.generatedAt
  }

  /** Puts `x` after every element at least as recent as it. */
  function Insert(x: Stored, s: seq<Stored>): (r: seq<Stored>)
    ensures |r| == |s| + 1
    ensures multiset(r) == multiset(s) + multiset{x}
    ensures forall k :: 0 <= k < |r| ==> r[k] == x || r[k] in s
  {
    if s == [] then [x]
    else if x.event.generatedAt > s[0].event.generatedAt then [x] + s
    else
      assert s == [s[0]] + s[1..];
      [s[0]] + Insert(x, s[1..])
  }

  /** Inserting into a newest-first list keeps it newest first. */
  lemma {:induction false} InsertKeepsOrder(x: Stored, s: seq<Stored>)
    requires NewestFirst(s)
    ensures NewestFirst(Insert(x, s))
  {
    if s != [] && x.event.generatedAt <= s[0].event.generatedAt {
      var tail := Insert(x, s[1..]);
      InsertKeepsOrder(x, s[1..]);
      forall k | 0 <= k < |tail|
        ensures s[0].event.generatedAt >= tail[k].event.generatedAt
      {
        if tail[k] != x {
          var m :| 0 <= m < |s[1..]| && s[1..][m] == tail[k];
          assert s[1..][m] == s[m + 1];
        }
      }
      assert Insert(x, s) == [s[0]] + tail;
    }
  }

  /** A stable insertion sort, newest first. */
  function SortByRecency(s: seq<Stored>): (r: seq<Stored>)
    ensures NewestFirst(r)
    ensures multiset(r) == multiset(s)
    ensures |r| == |s|
  {
    if s == [] then []
    else
      assert s == s[..|s| - 1] + [s[|s| - 1]];
      InsertKeepsOrder(s[|s| - 1], SortByRecency(s[..|s| - 1]));
      Insert(s[|s| - 1], SortByRecency(s[..|s| - 1]))
  }

  /** Every element of a sorted list comes from the list it sorts, and the other way round. */
  lemma SortedMembers(s: seq<Stored>, x: Stored)
    ensures x in SortByRecency(s) <==> x in s
  {
    var r := SortByRecency(s);
    assert x in r <==> x in multiset(r);
    assert x in s <==> x in multiset(s);
  }

  /** The first `limit` elements, or all of them when `limit` is 0 (no limit). */
  function Take(s: seq<Stored>, limit: nat): (r: seq<Stored>)
    ensures limit == 0 || |s| <= limit ==> r == s
    ensures limit > 0 && |s| > limit ==> r == s[..limit]
    ensures r <= s
  {
    if limit == 0 || |s| <= limit then s else s[..limit]
  }
}
