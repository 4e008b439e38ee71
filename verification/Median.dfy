/** Summarising repeated runs by their extremes and their median (src/bench.c). Samples are
    quotients of integers, taken as real numbers. */
module Median {

  predicate Sorted(s: seq<real>) {
    forall i, j :: 0 <= i < j < |s| ==> s[i] <= s[j]
  }

  function Insert(x: real, s: seq<real>): seq<real> {
    if s == [] || x <= s[0] then [x] + s else [s[0]] + Insert(x, s[1..])
  }

  function Sort(s: seq<real>): (r: seq<real>)
    ensures |r| == |s|
  {
    if s == [] then [] else var r := Insert(s[0], Sort(s[1..])); InsertSize(s[0], Sort(s[1..])); r
  }

  lemma InsertSize(x: real, s: seq<real>)
    ensures |Insert(x, s)| == |s| + 1
  {
  }

  /** How many samples are at most y, and how many are below it. */
  function CountLe(s: seq<real>, y: real): nat {
    if s == [] then 0 else (if s[0] <= y then 1 else 0) + CountLe(s[1..], y)
  }

  function CountLt(s: seq<real>, y: real): nat {
    if s == [] then 0 else (if s[0] < y then 1 else 0) + CountLt(s[1..], y)
  }

  lemma {:induction false} InsertCounts(x: real, s: seq<real>, y: real)
    ensures CountLe(Insert(x, s), y) == CountLe([x] + s, y) && CountLt(Insert(x, s), y) == CountLt([x] + s, y)
  {
    assert ([x] + s)[1..] == s;
    if s != [] && x > s[0] {
      InsertCounts(x, s[1..], y);
      assert ([x] + s[1..])[1..] == s[1..];
      assert Insert(x, s)[1..] == Insert(x, s[1..]);
    }
  }

  lemma {:induction false} SortCounts(s: seq<real>, y: real)
    ensures CountLe(Sort(s), y) == CountLe(s, y) && CountLt(Sort(s), y) == CountLt(s, y)
  {
    if s != [] {
      SortCounts(s[1..], y);
      InsertCounts(s[0], Sort(s[1..]), y);
      assert ([s[0]] + Sort(s[1..]))[1..] == Sort(s[1..]);
    }
  }

  lemma {:induction false} InsertContents(x: real, s: seq<real>)
    ensures multiset(Insert(x, s)) == multiset([x] + s)
    ensures forall e :: e in Insert(x, s) ==> e == x || e in s
  {
    if s != [] && x > s[0] {
      InsertContents(x, s[1..]);
      assert s == [s[0]] + s[1..];
    }
  }

  lemma {:induction false} InsertSorted(x: real, s: seq<real>)
    requires Sorted(s)
    ensures Sorted(Insert(x, s))
  {
    if s != [] && x > s[0] {
      InsertSorted(x, s[1..]);
      var r := Insert(x, s[1..]);
      forall k | 0 <= k < |r| ensures s[0] <= r[k] {
        InsertContents(x, s[1..]);
        assert r[k] in r;
        if r[k] != x { assert r[k] in s[1..]; }
      }
    }
  }

  lemma {:induction false} SortSorted(s: seq<real>)
    ensures Sorted(Sort(s)) && multiset(Sort(s)) == multiset(s)
  {
    if s != [] {
      SortSorted(s[1..]);
      InsertSorted(s[0], Sort(s[1..]));
      InsertContents(s[0], Sort(s[1..]));
      assert s == [s[0]] + s[1..];
    }
  }

  /** The order statistics of sorted samples are determined by the counts. */
  lemma {:induction false} SortedRank(t: seq<real>, k: nat, y: real)
    requires Sorted(t) && k < |t|
    ensures t[k] <= y <==> CountLe(t, y) > k
    ensures t[k] < y <==> CountLt(t, y) > k
  {
    if k > 0 {
      SortedRank(t[1..], k - 1, y);
    } else {
      NoneBelow(t, y);
    }
  }

  lemma {:induction false} NoneBelow(t: seq<real>, y: real)
    requires Sorted(t) && t != []
    ensures (t[0] > y ==> CountLe(t, y) == 0) && (t[0] >= y ==> CountLt(t, y) == 0)
  {
    if |t| > 1 {
      NoneBelow(t[1..], y);
    }
  }

  /** So are those of the samples as they come. */
  lemma SortRank(s: seq<real>, k: nat, y: real)
    requires k < |s|
    ensures Sort(s)[k] <= y <==> CountLe(s, y) > k
    ensures Sort(s)[k] < y <==> CountLt(s, y) > k
  {
    SortSorted(s);
    SortCounts(s, y);
    SortedRank(Sort(s), k, y);
  }

  lemma {:induction false} CountsConcat(a: seq<real>, b: seq<real>, y: real)
    ensures CountLe(a + b, y) == CountLe(a, y) + CountLe(b, y)
    ensures CountLt(a + b, y) == CountLt(a, y) + CountLt(b, y)
  {
    if a == [] {
      assert a + b == b;
    } else {
      CountsConcat(a[1..], b, y);
      assert (a + b)[1..] == a[1..] + b;
    }
  }

  lemma CountsAt(s: seq<real>, i: nat, y: real)
    requires i < |s|
    ensures CountLe(s, y) == CountLe(s[..i], y) + (if s[i] <= y then 1 else 0) + CountLe(s[i + 1..], y)
    ensures CountLt(s, y) == CountLt(s[..i], y) + (if s[i] < y then 1 else 0) + CountLt(s[i + 1..], y)
  {
    assert s == s[..i] + s[i..];
    CountsConcat(s[..i], s[i..], y);
    assert s[i..][1..] == s[i + 1..];
  }

  /** Replacing one sample changes a count by what the two values contribute. */
  lemma ReplaceCounts(s: seq<real>, i: nat, x: real, y: real)
    requires i < |s|
    ensures CountLe(s[i := x], y) == CountLe(s, y) - (if s[i] <= y then 1 else 0) + (if x <= y then 1 else 0)
    ensures CountLt(s[i := x], y) == CountLt(s, y) - (if s[i] < y then 1 else 0) + (if x < y then 1 else 0)
  {
    CountsAt(s, i, y);
    CountsAt(s[i := x], i, y);
    assert s[i := x][..i] == s[..i] && s[i := x][i + 1..] == s[i + 1..];
  }

  lemma RemoveOne<T>(a: seq<T>, b: seq<T>, i: nat)
    requires a != [] && i < |b| && a[0] == b[i] && multiset(a) == multiset(b)
    ensures multiset(a[1..]) == multiset(b[..i] + b[i + 1..])
  {
    assert a == [a[0]] + a[1..];
    assert b == b[..i] + [b[i]] + b[i + 1..];
    assert multiset(a[1..]) == multiset(a) - multiset{a[0]};
    assert multiset(b[..i] + b[i + 1..]) == multiset(b) - multiset{b[i]};
  }

  lemma {:induction false} CountsPermute(a: seq<real>, b: seq<real>, y: real)
    requires multiset(a) == multiset(b)
    ensures CountLe(a, y) == CountLe(b, y)
  {
    if a == [] {
      assert |multiset(b)| == 0;
    } else {
      assert a[0] in multiset(b);
      var i :| 0 <= i < |b| && b[i] == a[0];
      RemoveOne(a, b, i);
      CountsPermute(a[1..], b[..i] + b[i + 1..], y);
      CountsConcat(b[..i], b[i + 1..], y);
      CountsAt(b, i, y);
    }
  }

  /** Whatever qsort does, a sorted permutation of the samples is this one. */
  lemma SortIsUnique(s: seq<real>, t: seq<real>)
    requires Sorted(t) && multiset(t) == multiset(s)
    ensures t == Sort(s)
  {
    SortSorted(s);
    assert |t| == |multiset(t)| == |multiset(s)| == |s|;
    forall k | 0 <= k < |t| ensures t[k] == Sort(s)[k] {
      SortedRank(t, k, t[k]);
      SortedRank(t, k, Sort(s)[k]);
      CountsPermute(t, s, t[k]);
      CountsPermute(t, s, Sort(s)[k]);
      SortRank(s, k, t[k]);
      SortRank(s, k, Sort(s)[k]);
    }
  }

  /** The median as an average of order statistics, both `shift` places from the middle. */
  function Shifted(s: seq<real>, shift: int): real
    requires 0 <= (|s| - 1) / 2 + shift && |s| / 2 + shift < |s|
  {
    if |s| % 2 == 1 then Sort(s)[|s| / 2 + shift]
    else (Sort(s)[|s| / 2 - 1 + shift] + Sort(s)[|s| / 2 + shift]) / 2.0
  }

  function Median(s: seq<real>): real
    requires s != []
  {
    Shifted(s, 0)
  }

  /** In any sorted arrangement of the samples the median is midway between the two in the middle, which
      for an odd number are one; and so for the places next to it. */
  lemma ShiftedIsMidway(s: seq<real>, t: seq<real>, shift: int)
    requires Sorted(t) && multiset(t) == multiset(s)
    requires 0 <= (|s| - 1) / 2 + shift && |s| / 2 + shift < |s|
    ensures |t| == |s| && 2.0 * Shifted(s, shift) == t[(|t| - 1) / 2 + shift] + t[|t| / 2 + shift]
    ensures shift == 0 ==> 2.0 * Median(s) == t[(|t| - 1) / 2] + t[|t| / 2]
  {
    SortIsUnique(s, t);
    assert |s| % 2 == 1 ==> (|s| - 1) / 2 == |s| / 2;
    assert |s| % 2 == 0 ==> (|s| - 1) / 2 == |s| / 2 - 1;
    hide Sort, Sorted;
  }

  /** The median depends on which samples there are and not on their order. */
  lemma MedianPermutes(a: seq<real>, b: seq<real>)
    requires multiset(a) == multiset(b) && a != []
    ensures |a| == |b| && Median(a) == Median(b)
  {
    SortSorted(a);
    SortIsUnique(b, Sort(a));
    assert |a| == |multiset(a)| == |b|;
  }

  /** One replaced sample moves an order statistic by at most one place. */
  lemma ReplaceShifts(s: seq<real>, i: nat, x: real, k: nat)
    requires i < |s| && k + 1 < |s|
    ensures Sort(s)[k] <= Sort(s[i := x])[k + 1] && Sort(s[i := x])[k] <= Sort(s)[k + 1]
  {
    var r := s[i := x];
    var y, z := Sort(s)[k + 1], Sort(r)[k + 1];
    SortRank(s, k + 1, y);
    ReplaceCounts(s, i, x, y);
    SortRank(r, k, y);
    SortRank(r, k + 1, z);
    ReplaceCounts(s, i, x, z);
    SortRank(s, k, z);
  }

  /** Of three or more samples, no single one can move the median out of the range between what it
      would be one place down and one place up, however wild its value. */
  lemma OutlierIsBounded(s: seq<real>, i: nat, x: real)
    requires 3 <= |s| && i < |s|
    ensures Shifted(s, -1) <= Median(s[i := x]) <= Shifted(s, 1)
  {
    var h := |s| / 2;
    ReplaceShifts(s, i, x, h - 1);
    ReplaceShifts(s, i, x, h);
    if |s| % 2 == 0 {
      ReplaceShifts(s, i, x, h - 2);
    }
  }

  /** An odd number of samples has the median in the middle. */
  lemma MedianByCounts(s: seq<real>, v: real)
    requires |s| % 2 == 1
    ensures Median(s) == v <==> CountLt(s, v) <= |s| / 2 < CountLe(s, v)
  {
    SortRank(s, |s| / 2, v);
  }

  lemma CountCons(x: real, s: seq<real>, y: real)
    ensures CountLe([x] + s, y) == (if x <= y then 1 else 0) + CountLe(s, y)
    ensures CountLt([x] + s, y) == (if x < y then 1 else 0) + CountLt(s, y)
  {
    assert ([x] + s)[1..] == s;
  }

  lemma CountFive(a: real, b: real, c: real, d: real, e: real, y: real)
    ensures var s := [a, b, c, d, e];
            && CountLe(s, y) == (if a <= y then 1 else 0) + (if b <= y then 1 else 0) + (if c <= y then 1 else 0) +
                                (if d <= y then 1 else 0) + (if e <= y then 1 else 0)
            && CountLt(s, y) == (if a < y then 1 else 0) + (if b < y then 1 else 0) + (if c < y then 1 else 0) +
                                (if d < y then 1 else 0) + (if e < y then 1 else 0)
  {
    CountCons(a, [b, c, d, e], y);
    CountCons(b, [c, d, e], y);
    CountCons(c, [d, e], y);
    CountCons(d, [e], y);
    CountCons(e, [], y);
  }

  /** But it can move it: a hiccup in the fastest of five runs does. */
  lemma HiccupMovesMedian()
    ensures Median([1.0, 2.0, 3.0, 4.0, 5.0]) == 3.0 && Median([100.0, 2.0, 3.0, 4.0, 5.0]) == 4.0
  {
    CountFive(1.0, 2.0, 3.0, 4.0, 5.0, 3.0);
    MedianByCounts([1.0, 2.0, 3.0, 4.0, 5.0], 3.0);
    CountFive(100.0, 2.0, 3.0, 4.0, 5.0, 4.0);
    MedianByCounts([100.0, 2.0, 3.0, 4.0, 5.0], 4.0);
    hide CountLe, CountLt, Median;
  }

  /** The replacement leaves order statistic k alone: it does not cross it, or there are samples to
      spare on the side it leaves. */
  predicate Keeps(s: seq<real>, i: nat, x: real, k: nat)
    requires i < |s| && k < |s|
  {
    var v := Sort(s)[k];
    && !(x < v <= s[i] && CountLt(s, v) == k)
    && !(s[i] <= v < x && CountLe(s, v) == k + 1)
  }

  lemma OrderStaysIff(s: seq<real>, i: nat, x: real, k: nat)
    requires i < |s| && k < |s|
    ensures Sort(s[i := x])[k] == Sort(s)[k] <==> Keeps(s, i, x, k)
  {
    var v := Sort(s)[k];
    SortRank(s, k, v);
    SortRank(s[i := x], k, v);
    ReplaceCounts(s, i, x, v);
    hide Sort, CountLe, CountLt;
  }

  /** A larger value in the place of a sample makes no order statistic smaller. */
  lemma ReplaceRaises(s: seq<real>, i: nat, x: real, k: nat)
    requires i < |s| && k < |s| && s[i] <= x
    ensures Sort(s)[k] <= Sort(s[i := x])[k]
  {
    var v := Sort(s[i := x])[k];
    SortRank(s, k, v);
    SortRank(s[i := x], k, v);
    ReplaceCounts(s, i, x, v);
    hide Sort, CountLe, CountLt;
  }

  /** And a smaller one makes none larger. */
  lemma ReplaceLowers(s: seq<real>, i: nat, x: real, k: nat)
    requires i < |s| && k < |s| && x <= s[i]
    ensures Sort(s[i := x])[k] <= Sort(s)[k]
  {
    var v := Sort(s)[k];
    SortRank(s, k, v);
    SortRank(s[i := x], k, v);
    ReplaceCounts(s, i, x, v);
    hide Sort, CountLe, CountLt;
  }

  /** Exactly when replacing one sample, of any number, does not move the median: when it leaves the
      middle order statistic alone, or both of them. Two cannot make up for each other, because they
      move the same way. */
  lemma MedianStaysIff(s: seq<real>, i: nat, x: real)
    requires i < |s|
    ensures Median(s[i := x]) == Median(s) <==> Keeps(s, i, x, (|s| - 1) / 2) && Keeps(s, i, x, |s| / 2)
  {
    var low, high := (|s| - 1) / 2, |s| / 2;
    OrderStaysIff(s, i, x, low);
    OrderStaysIff(s, i, x, high);
    if s[i] <= x {
      ReplaceRaises(s, i, x, low);
      ReplaceRaises(s, i, x, high);
    } else {
      ReplaceLowers(s, i, x, low);
      ReplaceLowers(s, i, x, high);
    }
    hide Sort, Keeps;
  }

  lemma SortedEnds(t: seq<real>, lo: real, hi: real)
    requires Sorted(t) && t != [] && lo in t && hi in t && forall x :: x in t ==> lo <= x <= hi
    ensures t[0] == lo && t[|t| - 1] == hi
  {
    var a :| 0 <= a < |t| && t[a] == lo;
    var b :| 0 <= b < |t| && t[b] == hi;
    assert t[0] in t && t[|t| - 1] in t;
  }

  /** The extremes are the first and last order statistics. */
  lemma SortEnds(s: seq<real>, lo: real, hi: real)
    requires s != [] && lo in s && hi in s && forall x :: x in s ==> lo <= x <= hi
    ensures Sort(s)[0] == lo && Sort(s)[|s| - 1] == hi
  {
    SortSorted(s);
    SameElements(s, Sort(s));
    hide Sort, Sorted;
    SortedEnds(Sort(s), lo, hi);
  }

  lemma SameElements<T>(a: seq<T>, b: seq<T>)
    requires multiset(a) == multiset(b)
    ensures forall x :: x in a ==> x in b
    ensures forall x :: x in b ==> x in a
  {
    assert forall x :: x in a ==> x in multiset(a);
    assert forall x :: x in b ==> x in multiset(b);
  }

  lemma MedianBetween(s: seq<real>)
    requires s != []
    ensures Sort(s)[0] <= Median(s) <= Sort(s)[|s| - 1]
  {
    SortSorted(s);
    var t := Sort(s);
    assert t[0] <= t[|s| / 2] <= t[|s| - 1] && t[0] <= t[(|s| - 1) / 2] <= t[|s| - 1];
    hide Sort, Sorted;
    assert |s| % 2 == 0 ==> (|s| - 1) / 2 == |s| / 2 - 1;
  }

  /** qsort with compare_double, which by SortIsUnique can only do this. */
  method Qsort(v: array<real>, n: nat)
    requires n <= v.Length
    modifies v
    ensures v[..n] == Sort(old(v[..n])) && v[n..] == old(v[n..])
  {
    var t := Sort(v[..n]);
    forall i | 0 <= i < n { v[i] := t[i]; }
  }

  method MedianOf(v: array<real>, n: nat) returns (m: real)
    requires 1 <= n <= v.Length
    modifies v
    ensures Sorted(v[..n]) && multiset(v[..n]) == multiset(old(v[..n]))
    ensures 2.0 * m == v[(n - 1) / 2] + v[n / 2]
    ensures m == Median(old(v[..n])) && v[..n] == Sort(old(v[..n])) && v[n..] == old(v[n..])
  {
    hide Sort, Sorted, Median, Shifted;
    ghost var s := v[..n];
    Qsort(v, n);
    ghost var t := v[..n];
    SortSorted(s);
    ShiftedIsMidway(s, t, 0);
    assert forall k :: 0 <= k < n ==> v[k] == t[k];
    if n % 2 == 1 {
      assert (n - 1) / 2 == n / 2;
      m := v[n / 2];
    } else {
      assert (n - 1) / 2 == n / 2 - 1;
      m := (v[n / 2 - 1] + v[n / 2]) / 2.0;
    }
  }

  /** The loop of bench_main over the samples. */
  method Extremes(samples: array<real>, count: nat) returns (lo: real, hi: real)
    requires 1 <= count <= samples.Length
    ensures lo in samples[..count] && hi in samples[..count]
    ensures forall i :: 0 <= i < count ==> lo <= samples[i] <= hi
  {
    lo, hi := samples[0], samples[0];
    assert samples[..count][0] == samples[0];
    for r := 1 to count
      invariant lo in samples[..count] && hi in samples[..count]
      invariant forall i :: 0 <= i < r ==> lo <= samples[i] <= hi
    {
      assert samples[..count][r] == samples[r];
      if samples[r] < lo { lo := samples[r]; }
      if samples[r] > hi { hi := samples[r]; }
    }
  }

  /** What bench_main reports of the samples. The extremes are taken before the median sorts the
      samples in place, and the median lies between them. */
  method Summarise(samples: array<real>, count: nat) returns (lo: real, hi: real, mid: real)
    requires 1 <= count <= samples.Length
    modifies samples
    ensures var s := old(samples[..count]);
            && lo == Sort(s)[0] && hi == Sort(s)[count - 1] && mid == Median(s)
            && lo in s && hi in s && (forall x :: x in s ==> lo <= x <= hi)
    ensures Sorted(samples[..count]) && multiset(samples[..count]) == multiset(old(samples[..count]))
    ensures 2.0 * mid == samples[(count - 1) / 2] + samples[count / 2]
    ensures lo <= mid <= hi
  {
    hide Sort, Sorted, Median;
    ghost var s := samples[..count];
    lo, hi := Extremes(samples, count);
    forall x | x in s ensures lo <= x <= hi {
      var i :| 0 <= i < count && s[i] == x;
      assert samples[i] == x;
    }
    SortEnds(s, lo, hi);
    MedianBetween(s);
    mid := MedianOf(samples, count);
  }
}
