/**
 * The five-day forecast strip (src/components/FiveDayForecast.jsx).
 *
 * The reducer folds the 3-hourly feed into a dictionary keyed by UTC calendar
 * date, keeping per date the entry whose local hour is closest to noon (the
 * earlier one on a tie), and shows the first five values in key insertion
 * order.  Date strings are not array-index keys, so a JavaScript object lists
 * them in insertion order (section 10.1.11.1 of ECMA-262, OrdinaryOwnPropertyKeys);
 * the model keeps that order as an explicit sequence of keys beside the map.
 */
module Forecast {
  import opened Clock
  import opened Payloads

  /** How many days the strip shows (`slice(0, 5)`). */
  const DaysShown := 5

  /** `Math.abs(getHours() - 12)`: how far an entry's local hour lies from noon. */
  function NoonDistance(dt: int, offset: int): (d: int)
    ensures 0 <= d <= 12
    ensures d == LocalHour(dt, offset) - 12 || d == 12 - LocalHour(dt, offset)
    ensures d == 0 <==> LocalHour(dt, offset) == 12
  {
    var h := LocalHour(dt, offset);
    if h >= 12 then h - 12 else 12 - h
  }

  /** The calendar dates of `list` in the order each first occurs: the reducer's key order. */
  function DateOrder(list: seq<ForecastEntry>): seq<int>
  {
    if list == [] then []
    else
      var dates := DateOrder(list[..|list| - 1]);
      var key := DateKey(list[|list| - 1].dt);
      if key in dates then dates else dates + [key]
  }

  /** The set of calendar dates occurring in `list`. */
  ghost function Dates(list: seq<ForecastEntry>): set<int>
  {
    set m | 0 <= m < |list| :: DateKey(list[m].dt)
  }

  ghost predicate SameDate(a: ForecastEntry, b: ForecastEntry)
  {
    DateKey(a.dt) == DateKey(b.dt)
  }

  /**
   * Among the first `n` entries of `list`, entry `j` is, for its date, one whose
   * local hour is closest to noon, and the first such one.
   */
  ghost predicate ClosestToNoonAmong(list: seq<ForecastEntry>, offset: int, n: int, j: int)
  {
    && 0 <= j < n <= |list|
    && (forall m :: 0 <= m < n && SameDate(list[m], list[j]) ==>
          NoonDistance(list[j].dt, offset) <= NoonDistance(list[m].dt, offset))
    && (forall m :: 0 <= m < j && SameDate(list[m], list[j]) ==>
          NoonDistance(list[j].dt, offset) < NoonDistance(list[m].dt, offset))
  }

  /** Entry `j` is the one the reducer should keep for its date. */
  ghost predicate ClosestToNoon(list: seq<ForecastEntry>, offset: int, j: int)
  {
    ClosestToNoonAmong(list, offset, |list|, j)
  }

  /** `e` is an entry of `list` that is the one closest to noon for its date. */
  ghost predicate KeptFor(list: seq<ForecastEntry>, offset: int, e: ForecastEntry)
  {
    exists j :: ClosestToNoon(list, offset, j) && e == list[j]
  }

  /**
   * The reducer's accumulator after the first `i` entries: `acc` maps each date
   * seen so far to its entry closest to noon, `keys` lists those dates in
   * insertion order, and `chosen` gives each stored entry's list position.
   */
  ghost predicate Digested(list: seq<ForecastEntry>, offset: int, i: int,
                           acc: map<int, ForecastEntry>, keys: seq<int>, chosen: map<int, int>)
  {
    && 0 <= i <= |list|
    && keys == DateOrder(list[..i])
    && (forall k {:trigger k in acc} {:trigger k in keys} :: k in acc <==> k in keys)
    && chosen.Keys == acc.Keys
    && (forall k {:trigger k in acc} :: k in acc ==>
          && 0 <= chosen[k] < i
          && DateKey(list[chosen[k]].dt) == k
          && acc[k] == list[chosen[k]]
          && ClosestToNoonAmong(list, offset, i, chosen[k]))
  }

  /**
   * `Object.values(list.reduce(...)).slice(0, 5)`: one entry per calendar date,
   * for the first five dates in order of first occurrence, each the first entry
   * of its date whose local hour is closest to noon.
   */
  method DailyForecast(list: seq<ForecastEntry>, offset: int) returns (forecasts: seq<ForecastEntry>)
    ensures |forecasts| == if |DateOrder(list)| < DaysShown then |DateOrder(list)| else DaysShown
    ensures forall p :: 0 <= p < |forecasts| ==> DateKey(forecasts[p].dt) == DateOrder(list)[p]
    ensures forall p :: 0 <= p < |forecasts| ==> KeptFor(list, offset, forecasts[p])
  {
    var acc, keys, chosen := Reduce(list, offset);
    DigestedLookup(list, offset, acc, keys, chosen);
    forecasts := FirstValues(acc, keys, DaysShown);
    forall q | 0 <= q < |forecasts|
      ensures KeptFor(list, offset, forecasts[q])
    {
      var j := chosen[keys[q]];
      assert ClosestToNoon(list, offset, j) && forecasts[q] == list[j];
    }
  }

  /**
   * The `reduce` of lines 9 to 18: the dictionary `acc` from date to entry and
   * its keys in insertion order; `chosen` records where each stored entry sits
   * in the feed.
   */
  method Reduce(list: seq<ForecastEntry>, offset: int)
    returns (acc: map<int, ForecastEntry>, keys: seq<int>, ghost chosen: map<int, int>)
    ensures Digested(list, offset, |list|, acc, keys, chosen)
    ensures keys == DateOrder(list)
  {
    acc, keys, chosen := map[], [], map[];
    var i := 0;
    DigestedStart(list, offset);
    while i < |list|
      invariant Digested(list, offset, i, acc, keys, chosen)
    {
      var forecast := list[i];
      var dateStr := DateKey(forecast.dt);
      ghost var acc0, keys0, chosen0 := acc, keys, chosen;
      if dateStr !in acc || NoonDistance(forecast.dt, offset) < NoonDistance(acc[dateStr].dt, offset) {
        if dateStr !in acc {
          keys := keys + [dateStr];
        }
        acc := acc[dateStr := forecast];
        chosen := chosen[dateStr := i];
      }
      DigestStep(list, offset, i, acc0, keys0, chosen0, acc, keys, chosen);
      i := i + 1;
    }
    DigestedAll(list, offset, acc, keys, chosen);
  }

  /** Nothing digested yet: no keys, no stored entries. */
  lemma DigestedStart(list: seq<ForecastEntry>, offset: int)
    ensures Digested(list, offset, 0, map[], [], map[])
  {
    assert list[..0] == [];
  }

  /** With the whole list digested the key order is the date order of the list. */
  lemma DigestedAll(list: seq<ForecastEntry>, offset: int,
                    acc: map<int, ForecastEntry>, keys: seq<int>, chosen: map<int, int>)
    requires Digested(list, offset, |list|, acc, keys, chosen)
    ensures keys == DateOrder(list)
  {
    assert list[..|list|] == list;
  }

  /** `Object.values(acc).slice(0, n)`: the values of the first `n` keys, in key order. */
  method FirstValues(acc: map<int, ForecastEntry>, keys: seq<int>, n: nat) returns (values: seq<ForecastEntry>)
    requires forall q :: 0 <= q < |keys| ==> keys[q] in acc
    ensures |values| == if |keys| < n then |keys| else n
    ensures forall q :: 0 <= q < |values| ==> values[q] == acc[keys[q]]
  {
    values := [];
    var p := 0;
    while p < |keys| && p < n
      invariant 0 <= p <= |keys| && p <= n
      invariant |values| == p
      invariant forall q :: 0 <= q < p ==> values[q] == acc[keys[q]]
    {
      values := values + [acc[keys[p]]];
      p := p + 1;
    }
  }

  /** Once the whole feed is folded, each key's stored entry is the one closest to noon. */
  lemma DigestedLookup(list: seq<ForecastEntry>, offset: int,
                       acc: map<int, ForecastEntry>, keys: seq<int>, chosen: map<int, int>)
    requires Digested(list, offset, |list|, acc, keys, chosen)
    ensures forall q :: 0 <= q < |keys| ==>
              && keys[q] in acc
              && 0 <= chosen[keys[q]] < |list|
              && acc[keys[q]] == list[chosen[keys[q]]]
              && ClosestToNoon(list, offset, chosen[keys[q]])
  {
    assert forall k :: k in acc <==> k in keys;
    assert forall k {:trigger k in acc} :: k in acc ==>
      && 0 <= chosen[k] < |list|
      && acc[k] == list[chosen[k]]
      && ClosestToNoon(list, offset, chosen[k]);
    forall q | 0 <= q < |keys|
      ensures keys[q] in acc
    {
      assert keys[q] in keys;
    }
  }

  /** One step of the fold keeps the accumulator's invariant. */
  lemma DigestStep(list: seq<ForecastEntry>, offset: int, i: int,
                   acc: map<int, ForecastEntry>, keys: seq<int>, chosen: map<int, int>,
                   acc': map<int, ForecastEntry>, keys': seq<int>, chosen': map<int, int>)
    requires i < |list| && Digested(list, offset, i, acc, keys, chosen)
    requires
      var key := DateKey(list[i].dt);
      var replace := key !in acc || NoonDistance(list[i].dt, offset) < NoonDistance(acc[key].dt, offset);
      && keys' == (if key in acc then keys else keys + [key])
      && acc' == (if replace then acc[key := list[i]] else acc)
      && chosen' == (if replace then chosen[key := i] else chosen)
    ensures Digested(list, offset, i + 1, acc', keys', chosen')
  {
    var key := DateKey(list[i].dt);
    DateOrderSnoc(list, i);
    assert key in acc <==> key in keys;
    var replace := key !in acc || NoonDistance(list[i].dt, offset) < NoonDistance(acc[key].dt, offset);
    if key !in acc {
      DateOrderCoversDates(list[..i]);
      forall m | 0 <= m < i
        ensures !SameDate(list[m], list[i])
      {
        assert list[..i][m] == list[m];
      }
      FirstOfItsDate(list, offset, i);
    } else if replace {
      CloserEntryTakesOver(list, offset, i, chosen[key]);
    } else {
      StoredEntryStays(list, offset, i, chosen[key]);
    }
    forall k | k in acc'
      ensures && 0 <= chosen'[k] < i + 1
              && DateKey(list[chosen'[k]].dt) == k
              && acc'[k] == list[chosen'[k]]
              && ClosestToNoonAmong(list, offset, i + 1, chosen'[k])
    {
      if k != key {
        OtherDateUnaffected(list, offset, i, chosen[k]);
      }
    }
  }

  /** The reducer's keys are exactly the dates occurring in the feed. */
  lemma {:induction false} DateOrderCoversDates(list: seq<ForecastEntry>)
    ensures forall k :: k in DateOrder(list) <==> k in Dates(list)
  {
    if list != [] {
      var n := |list| - 1;
      var pre := list[..n];
      DateOrderCoversDates(pre);
      forall k
        ensures k in Dates(list) <==> k in Dates(pre) || k == DateKey(list[n].dt)
      {
        if k in Dates(list) {
          var m :| 0 <= m < |list| && DateKey(list[m].dt) == k;
          if m < n {
            assert pre[m] == list[m];
          }
        }
        if k in Dates(pre) {
          var m :| 0 <= m < n && DateKey(pre[m].dt) == k;
          assert pre[m] == list[m];
        }
      }
    }
  }

  lemma DateOrderSnoc(list: seq<ForecastEntry>, i: int)
    requires 0 <= i < |list|
    ensures DateOrder(list[..i + 1]) ==
      var key := DateKey(list[i].dt);
      if key in DateOrder(list[..i]) then DateOrder(list[..i]) else DateOrder(list[..i]) + [key]
  {
    assert list[..i + 1][..i] == list[..i];
  }

  /** The first entry of a date is, so far, the one closest to noon for it. */
  lemma FirstOfItsDate(list: seq<ForecastEntry>, offset: int, i: int)
    requires 0 <= i < |list|
    requires forall m :: 0 <= m < i ==> !SameDate(list[m], list[i])
    ensures ClosestToNoonAmong(list, offset, i + 1, i)
  {
  }

  /** An entry strictly closer to noon than the stored one of its date takes its place. */
  lemma CloserEntryTakesOver(list: seq<ForecastEntry>, offset: int, i: int, j: int)
    requires i < |list| && ClosestToNoonAmong(list, offset, i, j) && SameDate(list[i], list[j])
    requires NoonDistance(list[i].dt, offset) < NoonDistance(list[j].dt, offset)
    ensures ClosestToNoonAmong(list, offset, i + 1, i)
  {
  }

  /** An entry no closer to noon than the stored one of its date leaves it in place. */
  lemma StoredEntryStays(list: seq<ForecastEntry>, offset: int, i: int, j: int)
    requires i < |list| && ClosestToNoonAmong(list, offset, i, j) && SameDate(list[i], list[j])
    requires NoonDistance(list[j].dt, offset) <= NoonDistance(list[i].dt, offset)
    ensures ClosestToNoonAmong(list, offset, i + 1, j)
  {
  }

  /** An entry of another date does not affect the stored one. */
  lemma OtherDateUnaffected(list: seq<ForecastEntry>, offset: int, i: int, j: int)
    requires i < |list| && ClosestToNoonAmong(list, offset, i, j) && !SameDate(list[i], list[j])
    ensures ClosestToNoonAmong(list, offset, i + 1, j)
  {
  }

  /** The reducer never stores a date twice. */
  lemma {:induction false} DateOrderDistinct(list: seq<ForecastEntry>)
    ensures forall p, q :: 0 <= p < q < |DateOrder(list)| ==> DateOrder(list)[p] != DateOrder(list)[q]
  {
    if list != [] {
      DateOrderDistinct(list[..|list| - 1]);
    }
  }

  /** Date `a` occurs in `list` before date `b` first does. */
  ghost predicate OccursBefore(list: seq<ForecastEntry>, a: int, b: int)
  {
    exists m :: 0 <= m < |list| && DateKey(list[m].dt) == a &&
      forall m' :: 0 <= m' <= m ==> DateKey(list[m'].dt) != b
  }

  /** The keys come in the order in which their dates first occur in the feed. */
  lemma {:induction false} DateOrderFirstSeen(list: seq<ForecastEntry>)
    ensures forall p, q :: 0 <= p < q < |DateOrder(list)| ==>
              OccursBefore(list, DateOrder(list)[p], DateOrder(list)[q])
  {
    if list != [] {
      var n := |list| - 1;
      var pre := list[..n];
      var dates := DateOrder(pre);
      var key := DateKey(list[n].dt);
      DateOrderFirstSeen(pre);
      DateOrderCoversDates(pre);
      forall p, q | 0 <= p < q < |DateOrder(list)|
        ensures OccursBefore(list, DateOrder(list)[p], DateOrder(list)[q])
      {
        var a, b := DateOrder(list)[p], DateOrder(list)[q];
        if q < |dates| {
          assert OccursBefore(pre, a, b);
          var m :| 0 <= m < |pre| && DateKey(pre[m].dt) == a &&
            forall m' :: 0 <= m' <= m ==> DateKey(pre[m'].dt) != b;
          assert list[m] == pre[m];
          forall m' | 0 <= m' <= m
            ensures DateKey(list[m'].dt) != b
          {
            assert list[m'] == pre[m'];
          }
        } else {
          assert a in dates && b == key && key !in Dates(pre);
          var m :| 0 <= m < |pre| && DateKey(pre[m].dt) == a;
          assert list[m] == pre[m];
          forall m' | 0 <= m' <= m
            ensures DateKey(list[m'].dt) != b
          {
            assert list[m'] == pre[m'];
          }
        }
      }
    }
  }

  /** A sequence without repetitions has as many elements as its set of elements. */
  lemma {:induction false} DistinctCount(s: seq<int>)
    requires forall p, q :: 0 <= p < q < |s| ==> s[p] != s[q]
    ensures |set x | x in s| == |s|
  {
    if s != [] {
      var pre := s[..|s| - 1];
      DistinctCount(pre);
      assert (set x | x in s) == (set x | x in pre) + {s[|s| - 1]};
    }
  }

  /** The strip has min(5, number of distinct dates) entries: the reducer keeps one entry per date. */
  lemma DateOrderCountsDates(list: seq<ForecastEntry>)
    ensures |DateOrder(list)| == |Dates(list)|
  {
    DateOrderDistinct(list);
    DateOrderCoversDates(list);
    DistinctCount(DateOrder(list));
    assert (set x | x in DateOrder(list)) == Dates(list);
  }

  /** At most one entry of a date is the one closest to noon. */
  lemma ClosestToNoonUnique(list: seq<ForecastEntry>, offset: int, i: int, j: int)
    requires ClosestToNoon(list, offset, i) && ClosestToNoon(list, offset, j)
    requires SameDate(list[i], list[j])
    ensures i == j
  {
  }

  /** On equal distance from noon the later entry of a date is never the one kept. */
  lemma LaterTieNotKept(list: seq<ForecastEntry>, offset: int, i: int, j: int)
    requires 0 <= i < j < |list| && SameDate(list[i], list[j])
    requires NoonDistance(list[i].dt, offset) == NoonDistance(list[j].dt, offset)
    ensures !ClosestToNoon(list, offset, j)
  {
  }

  /** An entry of the same date strictly closer to noon, earlier or later, displaces it. */
  lemma CloserEntryDisplaces(list: seq<ForecastEntry>, offset: int, i: int, j: int)
    requires 0 <= i < |list| && 0 <= j < |list| && SameDate(list[i], list[j])
    requires NoonDistance(list[j].dt, offset) < NoonDistance(list[i].dt, offset)
    ensures !ClosestToNoon(list, offset, i)
  {
  }
}
