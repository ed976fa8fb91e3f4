/** `filterDataByDateRange`: the records of a series whose date lies in an inclusive range. */
module Filtering {
  import opened Calendar

  /** `r` is an order-preserving subsequence of `s`. */
  ghost predicate IsSubsequence<T>(r: seq<T>, s: seq<T>)
    decreases |s|
  {
    if r == [] then true
    else if s == [] then false
    else (r[0] == s[0] && IsSubsequence(r[1..], s[1..])) || IsSubsequence(r, s[1..])
  }

  /** Keeps, in order, every record whose date `d` satisfies start <= d <= end. */
  function FilterByDateRange<T(==)>(data: seq<T>, dateOf: T -> Day, start: Day, end: Day): (r: seq<T>)
    ensures forall x :: x in r ==> x in data && start <= dateOf(x) <= end
    ensures forall x :: x in data && start <= dateOf(x) <= end ==> x in r
    ensures IsSubsequence(r, data)
    ensures start > end ==> r == []
  {
    if data == [] then []
    else
      var rest := FilterByDateRange(data[1..], dateOf, start, end);
      assert forall x :: x in data ==> x == data[0] || x in data[1..];
      if start <= dateOf(data[0]) <= end then
        assert ([data[0]] + rest)[1..] == rest;
        [data[0]] + rest
      else rest
  }

  /** The filter keeps every copy of an in-range record and no copy of any other record. */
  lemma {:induction false} FilterMultiplicity<T>(data: seq<T>, dateOf: T -> Day, start: Day, end: Day)
    ensures forall x :: x in data ==>
              multiset(FilterByDateRange(data, dateOf, start, end))[x]
              == if start <= dateOf(x) <= end then multiset(data)[x] else 0
  {
    if data != [] {
      FilterMultiplicity(data[1..], dateOf, start, end);
      assert data == [data[0]] + data[1..];
      assert multiset(data) == multiset{data[0]} + multiset(data[1..]);
    }
  }

  /** Filtering a concatenation filters each part: the filter keeps relative order. */
  lemma {:induction false} FilterAppend<T>(a: seq<T>, b: seq<T>, dateOf: T -> Day, start: Day, end: Day)
    ensures FilterByDateRange(a + b, dateOf, start, end)
         == FilterByDateRange(a, dateOf, start, end) + FilterByDateRange(b, dateOf, start, end)
  {
    if a == [] {
      assert a + b == b;
    } else {
      assert (a + b)[1..] == a[1..] + b;
      FilterAppend(a[1..], b, dateOf, start, end);
    }
  }

  /** Filtering a filtered series filters once by the intersection of the two ranges. */
  lemma {:induction false} FilterCompose<T>(data: seq<T>, dateOf: T -> Day,
                                                 start1: Day, end1: Day, start2: Day, end2: Day)
    ensures FilterByDateRange(FilterByDateRange(data, dateOf, start1, end1), dateOf, start2, end2)
         == FilterByDateRange(data, dateOf, Max(start1, start2), Min(end1, end2))
  {
    if data != [] {
      FilterCompose(data[1..], dateOf, start1, end1, start2, end2);
    }
  }

  /** Filtering twice with the same bounds equals filtering once. */
  lemma {:induction false} FilterIdempotent<T>(data: seq<T>, dateOf: T -> Day, start: Day, end: Day)
    ensures FilterByDateRange(FilterByDateRange(data, dateOf, start, end), dateOf, start, end)
         == FilterByDateRange(data, dateOf, start, end)
  {
    FilterCompose(data, dateOf, start, end, start, end);
  }

  /** On a contiguous series starting at `first`, the filter returns the slice of the
      days the two ranges share. */
  lemma {:induction false} FilterContiguous<T>(data: seq<T>, dateOf: T -> Day, first: Day, start: Day, end: Day)
    requires Contiguous(data, dateOf, first)
    ensures var lo := Clamp(start - first, |data|);
            var hi := Clamp(end - first + 1, |data|);
            FilterByDateRange(data, dateOf, start, end) == if lo <= hi then data[lo..hi] else []
    decreases |data|
  {
    if data != [] {
      var n := |data|;
      var tail := data[1..];
      var lo := Clamp(start - first, n);
      var hi := Clamp(end - first + 1, n);
      var lo' := Clamp(start - first - 1, n - 1);
      var hi' := Clamp(end - first, n - 1);
      var rest := FilterByDateRange(tail, dateOf, start, end);
      assert rest == if lo' <= hi' then tail[lo'..hi'] else [] by {
        assert Contiguous(tail, dateOf, first + 1) by {
          forall i | 0 <= i < |tail| ensures dateOf(tail[i]) == first + 1 + i {
            assert tail[i] == data[i + 1];
          }
        }
        FilterContiguous(tail, dateOf, first + 1, start, end);
      }
      assert FilterByDateRange(data, dateOf, start, end)
          == if start <= first <= end then [data[0]] + rest else rest by {
        assert dateOf(data[0]) == first;
      }
      if start <= first <= end {
        assert lo == 0 && lo' == 0 && hi' == hi - 1;
        assert data[lo..hi] == [data[0]] + tail[lo'..hi'];
      } else if first < start {
        assert lo == lo' + 1 && (hi == 0 ==> hi' == 0) && (hi > 0 ==> hi' == hi - 1);
        if lo <= hi {
          assert data[lo..hi] == tail[lo'..hi'];
        }
      } else {
        assert hi == 0 && hi' == 0 && lo == 0 && lo' == 0;
      }
    }
  }

  /** A single-day range over a contiguous series yields at most one record: the record of
      that day when the series covers it. */
  lemma FilterSingleDay<T>(data: seq<T>, dateOf: T -> Day, first: Day, day: Day)
    requires Contiguous(data, dateOf, first)
    ensures FilterByDateRange(data, dateOf, day, day)
         == if first <= day < first + |data| then [data[day - first]] else []
  {
    FilterContiguous(data, dateOf, first, day, day);
  }

  /** On a contiguous series, a range that lies within the series' days keeps exactly
      end - start + 1 records, and they form a contiguous series from `start`. */
  lemma FilterSubRange<T>(data: seq<T>, dateOf: T -> Day, first: Day, start: Day, end: Day)
    requires Contiguous(data, dateOf, first)
    requires first <= start && end < first + |data|
    ensures |FilterByDateRange(data, dateOf, start, end)| == DayCount(start, end)
    ensures Contiguous(FilterByDateRange(data, dateOf, start, end), dateOf, start)
  {
    FilterContiguous(data, dateOf, first, start, end);
  }

  function Max(a: int, b: int): int { if a < b then b else a }
  function Min(a: int, b: int): int { if a < b then a else b }

  /** `k` limited to [0, n]. */
  function Clamp(k: int, n: nat): nat { if k < 0 then 0 else if k > n then n else k }
}
