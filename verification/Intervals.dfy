/** Half-open intervals of instants, the sets of instants they cover, and their measure. */
module Intervals {
  import opened Domain
  import opened Sorting

  datatype Interval = Interval(start: Instant, end: Instant) {
    function Length(): int { end - start }
  }

  predicate AnyInstant(t: Instant) { true }

  ghost function Range(lo: Instant, hi: Instant): (r: set<Instant>) {
    set t: int {:trigger AnyInstant(t)} | lo <= t < hi && AnyInstant(t)
  }

  /** The instants that lie in some interval of the list. */
  ghost function Instants(s: seq<Interval>): set<Instant> {
    if s == [] then {} else Instants(s[..|s| - 1]) + Range(s[|s| - 1].start, s[|s| - 1].end)
  }

  lemma {:induction false} InstantsAt(s: seq<Interval>, t: Instant)
    ensures t in Instants(s) <==> exists i :: 0 <= i < |s| && s[i].start <= t < s[i].end
  {
    if s != [] {
      var init := s[..|s| - 1];
      InstantsAt(init, t);
      if exists i :: 0 <= i < |s| && s[i].start <= t < s[i].end {
        var i :| 0 <= i < |s| && s[i].start <= t < s[i].end;
        assert i < |init| ==> init[i] == s[i];
      } else {
        assert forall i :: 0 <= i < |init| ==> init[i] == s[i];
      }
    }
  }

  lemma InstantsPushed(s: seq<Interval>, x: Interval)
    ensures Instants(s + [x]) == Instants(s) + Range(x.start, x.end)
  {
    assert (s + [x])[..|s + [x]| - 1] == s;
  }

  lemma ExtendPrefix(s: seq<Interval>, k: nat)
    requires k < |s|
    ensures Instants(s[..k + 1]) == Instants(s[..k]) + Range(s[k].start, s[k].end)
  {
    assert s[..k + 1] == s[..k] + [s[k]];
    InstantsPushed(s[..k], s[k]);
  }

  lemma {:induction false} InstantsAppended(a: seq<Interval>, b: seq<Interval>)
    ensures Instants(a + b) == Instants(a) + Instants(b)
  {
    if b == [] {
      assert a + b == a;
    } else {
      var init, last := b[..|b| - 1], b[|b| - 1];
      assert a + b == (a + init) + [last];
      InstantsPushed(a + init, last);
      InstantsAppended(a, init);
    }
  }

  /** Covering depends only on which intervals occur, not on their order. */
  lemma InstantsIgnoreOrder(a: seq<Interval>, b: seq<Interval>)
    requires multiset(a) == multiset(b)
    ensures Instants(a) == Instants(b)
  {
    forall t ensures t in Instants(a) <==> t in Instants(b) {
      InstantsAt(a, t);
      InstantsAt(b, t);
      if t in Instants(a) {
        var i :| 0 <= i < |a| && a[i].start <= t < a[i].end;
        assert a[i] in multiset(b);
      }
      if t in Instants(b) {
        var i :| 0 <= i < |b| && b[i].start <= t < b[i].end;
        assert b[i] in multiset(a);
      }
    }
  }

  // ----- measure -----

  lemma {:induction false} RangeSize(lo: Instant, hi: Instant)
    ensures |Range(lo, hi)| == if lo <= hi then hi - lo else 0
    decreases hi - lo
  {
    if lo < hi {
      RangeSize(lo, hi - 1);
      assert Range(lo, hi) == Range(lo, hi - 1) + {hi - 1};
    } else {
      assert Range(lo, hi) == {};
    }
  }

  lemma SubsetSize<T>(a: set<T>, b: set<T>)
    requires a <= b
    ensures |a| <= |b|
  {
    assert b == a + (b - a);
    assert |b| == |a| + |b - a|;
  }

  lemma UnionSize<T>(a: set<T>, b: set<T>)
    requires a !! b
    ensures |a + b| == |a| + |b|
  {
  }

  function TotalDuration(s: seq<Interval>): int {
    if s == [] then 0 else TotalDuration(s[..|s| - 1]) + s[|s| - 1].Length()
  }

  lemma DurationPushed(s: seq<Interval>, x: Interval)
    ensures TotalDuration(s + [x]) == TotalDuration(s) + x.Length()
  {
    assert (s + [x])[..|s + [x]| - 1] == s;
  }

  /** The canonical shape every merge returns: non-empty intervals in order, with a real gap between
      neighbours. */
  ghost predicate Separated(s: seq<Interval>) {
    && (forall i :: 0 <= i < |s| ==> s[i].start < s[i].end)
    && (forall i, j :: 0 <= i < j < |s| ==> s[i].end < s[j].start)
  }

  /** Ordered, disjoint and non-empty, but possibly touching. */
  ghost predicate Ordered(s: seq<Interval>) {
    && (forall i :: 0 <= i < |s| ==> s[i].start < s[i].end)
    && (forall i, j :: 0 <= i < j < |s| ==> s[i].end <= s[j].start)
  }

  lemma OrderedInstantsBeforeEnd(s: seq<Interval>, t: Instant)
    requires Ordered(s) && t in Instants(s)
    ensures s != [] && s[0].start <= t < s[|s| - 1].end
  {
    InstantsAt(s, t);
    var i :| 0 <= i < |s| && s[i].start <= t < s[i].end;
  }

  /** The summed length of an ordered list is the number of instants it covers. */
  lemma {:induction false} DurationIsMeasure(s: seq<Interval>)
    requires Ordered(s)
    ensures TotalDuration(s) == |Instants(s)|
  {
    if s != [] {
      var init, last := s[..|s| - 1], s[|s| - 1];
      DurationIsMeasure(init);
      forall t | t in Instants(init) ensures t !in Range(last.start, last.end) {
        OrderedInstantsBeforeEnd(init, t);
      }
      RangeSize(last.start, last.end);
      UnionSize(Instants(init), Range(last.start, last.end));
    }
  }

  lemma FirstEndIsUncovered(s: seq<Interval>)
    requires Separated(s) && s != []
    ensures s[0].start in Instants(s) && s[0].end !in Instants(s)
    ensures forall t :: s[0].start <= t < s[0].end ==> t in Instants(s)
  {
    InstantsAt(s, s[0].end);
    forall t | s[0].start <= t < s[0].end ensures t in Instants(s) { InstantsAt(s, t); }
  }

  lemma TailInstants(s: seq<Interval>, t: Instant)
    requires Separated(s) && s != []
    ensures t in Instants(s[1..]) <==> t in Instants(s) && s[0].end <= t
  {
    InstantsAt(s, t);
    InstantsAt(s[1..], t);
    if t in Instants(s) && s[0].end <= t {
      var i :| 0 <= i < |s| && s[i].start <= t < s[i].end;
      assert i > 0 && s[1..][i - 1] == s[i];
    }
  }

  lemma CanonicalHeadsAgree(a: seq<Interval>, b: seq<Interval>)
    requires Separated(a) && Separated(b) && Instants(a) == Instants(b) && a != [] && b != []
    ensures a[0] == b[0]
  {
    FirstEndIsUncovered(a);
    FirstEndIsUncovered(b);
    OrderedInstantsBeforeEnd(b, a[0].start);
    OrderedInstantsBeforeEnd(a, b[0].start);
  }

  /** Two canonical lists that cover the same instants are the same list, so a merge is determined by
      the set it covers. */
  lemma {:induction false} CanonicalIsUnique(a: seq<Interval>, b: seq<Interval>)
    requires Separated(a) && Separated(b) && Instants(a) == Instants(b)
    ensures a == b
  {
    if a == [] || b == [] {
      if a != [] { FirstEndIsUncovered(a); }
      if b != [] { FirstEndIsUncovered(b); }
    } else {
      CanonicalHeadsAgree(a, b);
      forall t ensures t in Instants(a[1..]) <==> t in Instants(b[1..]) {
        TailInstants(a, t);
        TailInstants(b, t);
      }
      CanonicalIsUnique(a[1..], b[1..]);
      assert a == [a[0]] + a[1..] && b == [b[0]] + b[1..];
    }
  }

  lemma SingleInstants(x: Interval)
    ensures Instants([x]) == Range(x.start, x.end)
  {
    InstantsPushed([], x);
    assert [] + [x] == [x];
  }

  lemma PrependKeepsSeparated(x: Interval, s: seq<Interval>)
    requires Separated(s) && x.start < x.end
    requires s != [] ==> x.end < s[0].start
    ensures Separated([x] + s)
    ensures forall t :: t in Instants([x] + s) <==> x.start <= t < x.end || t in Instants(s)
  {
    var all := [x] + s;
    assert forall i :: 0 < i < |all| ==> all[i] == s[i - 1];
    SingleInstants(x);
    InstantsAppended([x], s);
  }

  // ----- counting the instants of a range -----

  /** How many instants of a set lie in [lo, hi). */
  ghost function Count(work: set<Instant>, lo: Instant, hi: Instant): nat
    decreases hi - lo
  {
    if hi <= lo then 0 else Count(work, lo, hi - 1) + if hi - 1 in work then 1 else 0
  }

  lemma {:induction false} CountIsMeasure(work: set<Instant>, lo: Instant, hi: Instant)
    ensures Count(work, lo, hi) == |work * Range(lo, hi)|
    decreases hi - lo
  {
    if lo < hi {
      CountIsMeasure(work, lo, hi - 1);
      var before := work * Range(lo, hi - 1);
      if hi - 1 in work {
        assert work * Range(lo, hi) == before + {hi - 1};
        UnionSize(before, {hi - 1});
      } else {
        assert work * Range(lo, hi) == before;
      }
    } else {
      assert work * Range(lo, hi) == {};
    }
  }

  lemma {:induction false} CountAgrees(a: set<Instant>, b: set<Instant>, lo: Instant, hi: Instant)
    requires forall t :: lo <= t < hi ==> (t in a <==> t in b)
    ensures Count(a, lo, hi) == Count(b, lo, hi)
    decreases hi - lo
  {
    if lo < hi { CountAgrees(a, b, lo, hi - 1); }
  }

  lemma {:induction false} CountSkips(work: set<Instant>, lo: Instant, mid: Instant, hi: Instant)
    requires mid <= hi && forall t :: mid <= t < hi ==> t !in work
    ensures Count(work, lo, hi) == Count(work, lo, mid)
    decreases hi - mid
  {
    if mid < hi { CountSkips(work, lo, mid, hi - 1); }
  }

  lemma {:induction false} CountRuns(work: set<Instant>, lo: Instant, mid: Instant, hi: Instant)
    requires lo <= mid <= hi && forall t :: mid <= t < hi ==> t in work
    ensures Count(work, lo, hi) == Count(work, lo, mid) + (hi - mid)
    decreases hi - mid
  {
    if mid < hi { CountRuns(work, lo, mid, hi - 1); }
  }

  lemma {:induction false} CountIsBounded(work: set<Instant>, lo: Instant, hi: Instant)
    requires lo <= hi
    ensures Count(work, lo, hi) <= hi - lo
    decreases hi - lo
  {
    if lo < hi { CountIsBounded(work, lo, hi - 1); }
  }

  lemma {:induction false} CountGrows(work: set<Instant>, lo: Instant, mid: Instant, hi: Instant)
    requires mid <= hi
    ensures Count(work, lo, mid) <= Count(work, lo, hi)
    decreases hi - mid
  {
    if mid < hi { CountGrows(work, lo, mid, hi - 1); }
  }

  lemma {:induction false} CountSplits(work: set<Instant>, lo: Instant, mid: Instant, hi: Instant)
    requires lo <= mid <= hi
    ensures Count(work, lo, hi) == Count(work, lo, mid) + Count(work, mid, hi)
    decreases hi - mid
  {
    if mid < hi { CountSplits(work, lo, mid, hi - 1); }
  }

  // ----- the simulator's interval helpers -----

  predicate IntervalLeq(a: Interval, b: Interval) {
    a.start < b.start || (a.start == b.start && a.end <= b.end)
  }

  function ClipInterval(x: Interval, lower: Instant, upper: Instant): (r: Interval)
    ensures Range(r.start, r.end) == Range(x.start, x.end) * Range(lower, upper)
  {
    Interval(if x.start < lower then lower else x.start, if x.end > upper then upper else x.end)
  }

  method KeepNonEmpty(intervals: seq<Interval>) returns (filtered: seq<Interval>)
    ensures forall i :: 0 <= i < |filtered| ==> filtered[i].start < filtered[i].end
    ensures Instants(filtered) == Instants(intervals)
  {
    filtered := [];
    for k := 0 to |intervals|
      invariant forall i :: 0 <= i < |filtered| ==> filtered[i].start < filtered[i].end
      invariant Instants(filtered) == Instants(intervals[..k])
    {
      assert intervals[..k + 1] == intervals[..k] + [intervals[k]];
      InstantsPushed(intervals[..k], intervals[k]);
      InstantsPushed(filtered, intervals[k]);
      if intervals[k].end > intervals[k].start {
        filtered := filtered + [intervals[k]];
      }
    }
    assert intervals[..|intervals|] == intervals;
  }

  /** Growing the last interval to swallow a touching or overlapping successor. */
  lemma LastAbsorbs(merged: seq<Interval>, x: Interval)
    requires Separated(merged) && merged != []
    requires merged[|merged| - 1].start <= x.start <= merged[|merged| - 1].end < x.end
    ensures var n := |merged| - 1;
            var grown := merged[n := merged[n].(end := x.end)];
            Separated(grown) && Instants(grown) == Instants(merged) + Range(x.start, x.end)
  {
    var init, last := merged[..|merged| - 1], merged[|merged| - 1];
    InstantsPushed(init, last.(end := x.end));
    assert merged[|merged| - 1 := last.(end := x.end)] == init + [last.(end := x.end)];
  }

  lemma LastContains(merged: seq<Interval>, x: Interval)
    requires merged != []
    requires merged[|merged| - 1].start <= x.start && x.end <= merged[|merged| - 1].end
    ensures Instants(merged) == Instants(merged) + Range(x.start, x.end)
  {
    assert Range(x.start, x.end) <= Range(merged[|merged| - 1].start, merged[|merged| - 1].end);
  }

  lemma AppendKeepsSeparated(merged: seq<Interval>, x: Interval)
    requires Separated(merged) && x.start < x.end
    requires merged != [] ==> merged[|merged| - 1].end < x.start
    ensures Separated(merged + [x])
    ensures Instants(merged + [x]) == Instants(merged) + Range(x.start, x.end)
  {
    InstantsPushed(merged, x);
  }

  method MergeSorted(sorted: seq<Interval>) returns (merged: seq<Interval>)
    requires forall i :: 0 <= i < |sorted| ==> sorted[i].start < sorted[i].end
    requires forall i, j :: 0 <= i < j < |sorted| ==> sorted[i].start <= sorted[j].start
    ensures Separated(merged)
    ensures Instants(merged) == Instants(sorted)
  {
    merged := [];
    ghost var covered := {};
    for k := 0 to |sorted|
      invariant Separated(merged)
      invariant merged != [] && k < |sorted| ==> merged[|merged| - 1].start <= sorted[k].start
      invariant covered == Instants(sorted[..k])
      invariant Instants(merged) == covered
    {
      var x := sorted[k];
      ExtendPrefix(sorted, k);
      covered := covered + Range(x.start, x.end);
      if merged == [] || x.start > merged[|merged| - 1].end {
        AppendKeepsSeparated(merged, x);
        merged := merged + [x];
      } else if x.end > merged[|merged| - 1].end {
        LastAbsorbs(merged, x);
        merged := merged[|merged| - 1 := merged[|merged| - 1].(end := x.end)];
      } else {
        LastContains(merged, x);
      }
    }
    assert sorted[..|sorted|] == sorted;
  }

  /** Returns the canonical list covering exactly the instants of the argument. */
  method MergeIntervals(intervals: seq<Interval>) returns (merged: seq<Interval>)
    ensures Separated(merged)
    ensures Instants(merged) == Instants(intervals)
  {
    var filtered := KeepNonEmpty(intervals);
    var sorted := Sort(filtered, IntervalLeq);
    SortSorts(filtered, IntervalLeq);
    InstantsIgnoreOrder(filtered, sorted);
    forall i | 0 <= i < |sorted| ensures sorted[i].start < sorted[i].end {
      assert sorted[i] in multiset(sorted);
      assert sorted[i] in multiset(filtered);
    }
    merged := MergeSorted(sorted);
  }

  method ContainsInstant(intervals: seq<Interval>, instant: Instant) returns (found: bool)
    ensures found <==> instant in Instants(intervals)
  {
    InstantsAt(intervals, instant);
    for k := 0 to |intervals|
      invariant forall i :: 0 <= i < k ==> !(intervals[i].start <= instant < intervals[i].end)
    {
      if intervals[k].start <= instant && instant < intervals[k].end {
        return true;
      }
    }
    return false;
  }

  /** The measure of what two interval lists cover in common. */
  method CoverageDuration(windows: seq<Interval>, work: seq<Interval>) returns (total: int)
    ensures total == |Instants(windows) * Instants(work)|
  {
    var intersections: seq<Interval> := [];
    for i := 0 to |windows|
      invariant Instants(intersections) == Instants(windows[..i]) * Instants(work)
    {
      ghost var before := Instants(intersections);
      var window := windows[i];
      for j := 0 to |work|
        invariant Instants(intersections) ==
                  before + Range(window.start, window.end) * Instants(work[..j])
      {
        var period := work[j];
        var start := if period.start > window.start then period.start else window.start;
        var end := if period.end < window.end then period.end else window.end;
        assert work[..j + 1] == work[..j] + [period];
        InstantsPushed(work[..j], period);
        InstantsPushed(intersections, Interval(start, end));
        if end > start {
          intersections := intersections + [Interval(start, end)];
        }
      }
      assert work[..|work|] == work;
      assert windows[..i + 1] == windows[..i] + [window];
      InstantsPushed(windows[..i], window);
    }
    assert windows[..|windows|] == windows;
    var merged := MergeIntervals(intersections);
    DurationIsMeasure(merged);
    total := TotalDuration(merged);
  }
}
