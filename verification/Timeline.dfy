/** The strategy timeline of a day: segments cut at every boundary, classified by one sampled instant
    and joined while the kind stays the same. */
module Timeline {
  import opened Domain
  import opened Sorting
  import opened Intervals

  datatype Kind = Idle | Limited | Available | Break

  datatype Segment = Segment(kind: Kind, start: Instant, end: Instant)

  /** The kind an instant of the day deserves. */
  ghost function KindAt(work: seq<Interval>, available: seq<Interval>, t: Instant): Kind {
    if t in Instants(work) then
      if t in Instants(available) then Available else Limited
    else if work != [] && work[0].start < t < work[|work| - 1].end then Break
    else Idle
  }

  /** The segments fill [lo, hi) without gap or overlap, and none is empty. */
  ghost predicate Tiles(s: seq<Segment>, lo: Instant, hi: Instant) {
    if s == [] then lo == hi
    else
      && s[|s| - 1].end == hi
      && s[|s| - 1].start < hi
      && Tiles(s[..|s| - 1], lo, s[|s| - 1].start)
  }

  ghost predicate NeighboursDiffer(s: seq<Segment>) {
    forall i :: 0 <= i < |s| - 1 ==> s[i].kind != s[i + 1].kind
  }

  ghost predicate KindsAreRight(s: seq<Segment>, work: seq<Interval>, available: seq<Interval>) {
    forall i, t :: 0 <= i < |s| && s[i].start <= t < s[i].end ==> s[i].kind == KindAt(work, available, t)
  }

  ghost predicate IsTimeline(
    s: seq<Segment>, work: seq<Interval>, available: seq<Interval>, lo: Instant, hi: Instant)
  {
    Tiles(s, lo, hi) && NeighboursDiffer(s) && KindsAreRight(s, work, available)
  }

  lemma {:induction false} TilesBounds(s: seq<Segment>, lo: Instant, hi: Instant, i: nat)
    requires Tiles(s, lo, hi) && i < |s|
    ensures lo <= s[i].start < s[i].end <= hi
  {
    var last := |s| - 1;
    if i < last {
      TilesBounds(s[..last], lo, s[last].start, i);
    } else if 0 < last {
      TilesBounds(s[..last], lo, s[last].start, last - 1);
    }
  }

  lemma {:induction false} TilesAreOrdered(s: seq<Segment>, lo: Instant, hi: Instant)
    requires Tiles(s, lo, hi)
    ensures lo <= hi
  {
    if s != [] { TilesBounds(s, lo, hi, 0); }
  }

  /** Two timelines of one day with the same work and coverage are the same timeline. */
  lemma {:induction false} TimelineIsUnique(
    a: seq<Segment>, b: seq<Segment>, work: seq<Interval>, available: seq<Interval>, lo: Instant, hi: Instant)
    requires IsTimeline(a, work, available, lo, hi) && IsTimeline(b, work, available, lo, hi)
    ensures a == b
  {
    if a == [] || b == [] {
      if a != [] { TilesBounds(a, lo, hi, 0); }
      if b != [] { TilesBounds(b, lo, hi, 0); }
    } else {
      var m, n := |a| - 1, |b| - 1;
      var a', b' := a[..m], b[..n];
      assert a[m].kind == KindAt(work, available, hi - 1) == b[n].kind;
      if a[m].start < b[n].start {
        LastStartsAgree(a, b, work, available, lo, hi);
      } else if b[n].start < a[m].start {
        LastStartsAgree(b, a, work, available, lo, hi);
      }
      TimelineIsUnique(a', b', work, available, lo, a[m].start);
      assert a == a' + [a[m]] && b == b' + [b[n]];
    }
  }

  lemma LastSegmentStartsAtAChange(
    s: seq<Segment>, work: seq<Interval>, available: seq<Interval>, lo: Instant, hi: Instant)
    requires IsTimeline(s, work, available, lo, hi) && s != [] && lo < s[|s| - 1].start
    ensures KindAt(work, available, s[|s| - 1].start - 1) != KindAt(work, available, s[|s| - 1].start)
  {
    var n := |s| - 1;
    assert Tiles(s[..n], lo, s[n].start);
    assert s[..n][n - 1] == s[n - 1];
    TilesBounds(s[..n], lo, s[n].start, n - 1);
    var t := s[n].start - 1;
    assert s[n - 1].start <= t < s[n - 1].end;
  }

  lemma LastStartsAgree(
    a: seq<Segment>, b: seq<Segment>, work: seq<Interval>, available: seq<Interval>, lo: Instant, hi: Instant)
    requires IsTimeline(a, work, available, lo, hi) && IsTimeline(b, work, available, lo, hi)
    requires a != [] && b != []
    ensures b[|b| - 1].start <= a[|a| - 1].start
  {
    var m, n := |a| - 1, |b| - 1;
    if a[m].start < b[n].start {
      TilesBounds(a, lo, hi, m);
      TilesBounds(b, lo, hi, n);
      var t := b[n].start;
      assert a[m].start <= t - 1 < t < a[m].end;
      assert KindAt(work, available, t - 1) == KindAt(work, available, t);
      LastSegmentStartsAtAChange(b, work, available, lo, hi);
    }
  }

  // ----- the total length of one kind -----

  function KindLength(s: seq<Segment>, kind: Kind): int {
    if s == [] then 0
    else KindLength(s[..|s| - 1], kind)
         + if s[|s| - 1].kind == kind then s[|s| - 1].end - s[|s| - 1].start else 0
  }

  /** The green length of the chart is the measure of the covered work, the number the metric reports. */
  lemma {:induction false} CoveredLength(
    s: seq<Segment>, work: seq<Interval>, available: seq<Interval>, lo: Instant, hi: Instant)
    requires Tiles(s, lo, hi) && KindsAreRight(s, work, available)
    ensures KindLength(s, Available) == |Instants(work) * Instants(available) * Range(lo, hi)|
  {
    var both := Instants(work) * Instants(available);
    if s == [] {
      assert both * Range(lo, hi) == {};
    } else {
      var init, last := s[..|s| - 1], s[|s| - 1];
      assert forall i :: 0 <= i < |init| ==> init[i] == s[i];
      CoveredLength(init, work, available, lo, last.start);
      TilesAreOrdered(init, lo, last.start);
      forall t | last.start <= t < hi ensures t in both <==> last.kind == Available {
        assert s[|s| - 1].kind == KindAt(work, available, t);
      }
      LastPiece(both, lo, last.start, hi, last.kind == Available);
    }
  }

  lemma LastPiece(both: set<Instant>, lo: Instant, mid: Instant, hi: Instant, all: bool)
    requires lo <= mid <= hi && forall t :: mid <= t < hi ==> (t in both <==> all)
    ensures |both * Range(lo, hi)| == |both * Range(lo, mid)| + if all then hi - mid else 0
  {
    var before := both * Range(lo, mid);
    if all {
      assert both * Range(lo, hi) == before + Range(mid, hi);
      RangeSize(mid, hi);
      UnionSize(before, Range(mid, hi));
    } else {
      assert both * Range(lo, hi) == before;
    }
  }

  // ----- boundaries -----

  predicate InstantLeq(a: Instant, b: Instant) { a <= b }

  ghost predicate StrictlyIncreasing(s: seq<Instant>) {
    forall i, j :: 0 <= i < j < |s| ==> s[i] < s[j]
  }

  method UniqueTimes(values: seq<Instant>) returns (unique: seq<Instant>)
    requires SortedBy(values, InstantLeq)
    ensures StrictlyIncreasing(unique)
    ensures forall t :: t in unique <==> t in values
  {
    unique := [];
    for k := 0 to |values|
      invariant StrictlyIncreasing(unique)
      invariant forall t :: t in unique <==> t in values[..k]
      invariant unique != [] ==> k > 0 && unique[|unique| - 1] == values[k - 1]
      invariant k > 0 ==> unique != []
    {
      assert values[..k + 1] == values[..k] + [values[k]];
      assert k > 0 ==> InstantLeq(values[k - 1], values[k]);
      if |unique| == 0 || values[k] != unique[|unique| - 1] {
        unique := unique + [values[k]];
      }
    }
    assert values[..|values|] == values;
  }

  ghost predicate HasEndpoints(boundaries: seq<Instant>, s: seq<Interval>) {
    forall i :: 0 <= i < |s| ==> s[i].start in boundaries && s[i].end in boundaries
  }

  ghost predicate Within(s: seq<Interval>, lo: Instant, hi: Instant) {
    forall i :: 0 <= i < |s| ==> lo <= s[i].start && s[i].start <= s[i].end && s[i].end <= hi
  }

  method Endpoints(intervals: seq<Interval>) returns (points: seq<Instant>)
    ensures HasEndpoints(points, intervals)
    ensures forall t :: t in points ==>
              exists i :: 0 <= i < |intervals| && (t == intervals[i].start || t == intervals[i].end)
  {
    points := [];
    for k := 0 to |intervals|
      invariant HasEndpoints(points, intervals[..k])
      invariant forall t :: t in points ==>
                  exists i :: 0 <= i < k && (t == intervals[i].start || t == intervals[i].end)
    {
      points := points + [intervals[k].start, intervals[k].end];
      assert intervals[k].start in points && intervals[k].end in points;
    }
    assert intervals[..|intervals|] == intervals;
  }

  lemma SortedMembers(s: seq<Instant>)
    ensures SortedBy(Sort(s, InstantLeq), InstantLeq)
    ensures forall t :: t in Sort(s, InstantLeq) <==> t in s
  {
    SortSorts(s, InstantLeq);
    assert forall t :: t in Sort(s, InstantLeq) <==> t in multiset(Sort(s, InstantLeq));
    assert forall t :: t in s <==> t in multiset(s);
  }

  lemma OutermostBoundaries(boundaries: seq<Instant>, all: seq<Instant>, lo: Instant, hi: Instant)
    requires StrictlyIncreasing(boundaries) && (forall t :: t in boundaries <==> t in all)
    requires lo in all && hi in all && forall t :: t in all ==> lo <= t <= hi
    ensures boundaries != [] && boundaries[0] == lo && boundaries[|boundaries| - 1] == hi
  {
    var i :| 0 <= i < |boundaries| && boundaries[i] == lo;
    var j :| 0 <= j < |boundaries| && boundaries[j] == hi;
    assert boundaries[0] in boundaries && boundaries[|boundaries| - 1] in boundaries;
  }

  lemma EndpointsAreKept(points: seq<Instant>, boundaries: seq<Instant>, s: seq<Interval>)
    requires HasEndpoints(points, s) && forall t :: t in points ==> t in boundaries
    ensures HasEndpoints(boundaries, s)
  {
  }

  lemma AllPoints(a: seq<Instant>, b: seq<Instant>, lo: Instant, hi: Instant)
    ensures forall t :: t in [lo, hi] + a + b <==> t == lo || t == hi || t in a || t in b
  {
  }

  /** Day start, day end and every interval endpoint, sorted and without repetition. */
  method Boundaries(lo: Instant, hi: Instant, work: seq<Interval>, available: seq<Interval>)
    returns (boundaries: seq<Instant>)
    requires lo <= hi && Within(work, lo, hi) && Within(available, lo, hi)
    ensures StrictlyIncreasing(boundaries)
    ensures HasEndpoints(boundaries, work) && HasEndpoints(boundaries, available)
    ensures boundaries != [] && boundaries[0] == lo && boundaries[|boundaries| - 1] == hi
  {
    var a := Endpoints(work);
    var b := Endpoints(available);
    var all := [lo, hi] + a + b;
    AllPoints(a, b, lo, hi);
    SortedMembers(all);
    boundaries := UniqueTimes(Sort(all, InstantLeq));
    OutermostBoundaries(boundaries, all, lo, hi);
    EndpointsAreKept(a, boundaries, work);
    EndpointsAreKept(b, boundaries, available);
  }

  // ----- between two neighbouring boundaries nothing changes -----

  lemma ConstantBetween(boundaries: seq<Instant>, i: nat, s: seq<Interval>, t: Instant, u: Instant)
    requires StrictlyIncreasing(boundaries) && HasEndpoints(boundaries, s)
    requires i + 1 < |boundaries|
    requires boundaries[i] <= t < boundaries[i + 1] && boundaries[i] <= u < boundaries[i + 1]
    ensures t in Instants(s) ==> u in Instants(s)
  {
    InstantsAt(s, t);
    InstantsAt(s, u);
    if t in Instants(s) {
      var j :| 0 <= j < |s| && s[j].start <= t < s[j].end;
      NoBoundaryBetween(boundaries, i, s[j].start);
      NoBoundaryBetween(boundaries, i, s[j].end);
      assert s[j].start <= u < s[j].end;
    }
  }

  lemma NoBoundaryBetween(boundaries: seq<Instant>, i: nat, b: Instant)
    requires StrictlyIncreasing(boundaries) && i + 1 < |boundaries| && b in boundaries
    ensures b <= boundaries[i] || boundaries[i + 1] <= b
  {
  }

  lemma KindIsConstantBetween(boundaries: seq<Instant>, i: nat, work: seq<Interval>,
                              available: seq<Interval>, t: Instant, u: Instant)
    requires StrictlyIncreasing(boundaries)
    requires HasEndpoints(boundaries, work) && HasEndpoints(boundaries, available)
    requires Separated(work) && i + 1 < |boundaries|
    requires boundaries[i] <= t < boundaries[i + 1] && boundaries[i] <= u < boundaries[i + 1]
    ensures KindAt(work, available, t) == KindAt(work, available, u)
  {
    ConstantBetween(boundaries, i, work, t, u);
    ConstantBetween(boundaries, i, work, u, t);
    ConstantBetween(boundaries, i, available, t, u);
    ConstantBetween(boundaries, i, available, u, t);
    if work != [] {
      FirstEndIsUncovered(work);
      NoBoundaryBetween(boundaries, i, work[0].start);
      NoBoundaryBetween(boundaries, i, work[|work| - 1].end);
      if boundaries[i] == work[0].start {
        ConstantBetween(boundaries, i, work, work[0].start, t);
      }
    }
  }

  // ----- strategyTimeline -----

  method Classify(work: seq<Interval>, available: seq<Interval>, midpoint: Instant) returns (kind: Kind)
    ensures kind == KindAt(work, available, midpoint)
  {
    kind := Idle;
    var worked := ContainsInstant(work, midpoint);
    if worked {
      kind := Limited;
      var covered := ContainsInstant(available, midpoint);
      if covered {
        kind := Available;
      }
    } else if |work| > 0 && midpoint > work[0].start && midpoint < work[|work| - 1].end {
      kind := Break;
    }
  }

  lemma TimelineExtends(s: seq<Segment>, work: seq<Interval>, available: seq<Interval>,
                        lo: Instant, mid: Instant, hi: Instant, kind: Kind)
    requires IsTimeline(s, work, available, lo, mid) && mid < hi
    requires forall t :: mid <= t < hi ==> kind == KindAt(work, available, t)
    ensures s != [] && s[|s| - 1].kind == kind ==>
              IsTimeline(s[|s| - 1 := s[|s| - 1].(end := hi)], work, available, lo, hi)
    ensures s == [] || s[|s| - 1].kind != kind ==>
              IsTimeline(s + [Segment(kind, mid, hi)], work, available, lo, hi)
  {
    if s != [] && s[|s| - 1].kind == kind {
      var n := |s| - 1;
      var grown := s[n := s[n].(end := hi)];
      assert grown[..n] == s[..n];
      forall i, t | 0 <= i < |grown| && grown[i].start <= t < grown[i].end
        ensures grown[i].kind == KindAt(work, available, t)
      {
        assert i < n ==> grown[i] == s[i];
        assert i == n && t < mid ==> s[n].start <= t < s[n].end;
      }
    } else {
      var longer := s + [Segment(kind, mid, hi)];
      assert longer[..|s|] == s;
    }
  }

  /** Sampling one instant per gap yields the one right timeline of the day. */
  method StrategyTimeline(dayStart: Instant, dayEnd: Instant, work: seq<Interval>, available: seq<Interval>)
    returns (segments: seq<Segment>)
    requires dayStart <= dayEnd && Separated(work)
    requires Within(work, dayStart, dayEnd) && Within(available, dayStart, dayEnd)
    ensures IsTimeline(segments, work, available, dayStart, dayEnd)
  {
    var boundaries := Boundaries(dayStart, dayEnd, work, available);
    segments := [];
    var i := 0;
    while i + 1 < |boundaries|
      invariant 0 <= i < |boundaries|
      invariant IsTimeline(segments, work, available, dayStart, boundaries[i])
    {
      var start, end := boundaries[i], boundaries[i + 1];
      var midpoint := start + (end - start) / 2;
      var kind := Classify(work, available, midpoint);
      forall t | start <= t < end ensures kind == KindAt(work, available, t) {
        KindIsConstantBetween(boundaries, i, work, available, t, midpoint);
      }
      TimelineExtends(segments, work, available, dayStart, start, end, kind);
      if |segments| > 0 && segments[|segments| - 1].kind == kind {
        segments := segments[|segments| - 1 := segments[|segments| - 1].(end := end)];
      } else {
        segments := segments + [Segment(kind, start, end)];
      }
      i := i + 1;
    }
  }
}
