/** Where a plan's slots lie: inside the allowed time and the reported window, in increasing order, and
    off the blacked-out minutes unless the clock falls back. */
module Slots {
  import opened Domain
  import opened Intervals
  import opened LocalTime
  import opened Planner

  // ----- the arithmetic of equally spaced slots -----

  lemma ProductGrows(a: int, b: int, c: int)
    requires 0 <= a && b <= c
    ensures a * b <= a * c
  {
  }

  lemma ProductGrowsStrictly(a: int, b: int, c: int)
    requires 0 < a && b < c
    ensures a * b < a * c
  {
  }

  lemma QuotientIsBelow(x: int, c: int, d: int)
    requires 0 <= x && 0 < d && x < c * d
    ensures 0 <= x / d < c
  {
  }

  lemma QuotientSteps(x: int, y: int, d: int)
    requires 0 < d && x + d <= y
    ensures x / d < y / d
  {
    var q, r := x / d, x % d;
    assert x + d == (q + 1) * d + r;
    if y / d <= q {
      ProductGrows(d, y / d, q);
    }
  }

  lemma SlotIsInside(total: int, index: nat, count: nat)
    requires 0 < total && index < count
    ensures 0 <= Slot(total, index, count) < total
  {
    var odd, d := 2 * index + 1, 2 * count;
    ProductGrows(total, 0, odd);
    ProductGrowsStrictly(total, odd, d);
    QuotientIsBelow(total * odd, total, d);
  }

  lemma NextSlotIsLater(total: int, index: nat, count: nat)
    requires 0 < count <= total
    ensures Slot(total, index, count) < Slot(total, index + 1, count)
  {
    var odd, d := 2 * index + 1, 2 * count;
    assert 2 * (index + 1) + 1 == odd + 2;
    assert total * (odd + 2) == total * odd + 2 * total;
    QuotientSteps(total * odd, total * (odd + 2), d);
  }

  lemma {:induction false} LaterSlotIsLater(total: int, i: nat, j: nat, count: nat)
    requires 0 < count <= total && i < j
    ensures Slot(total, i, count) < Slot(total, j, count)
    decreases j
  {
    NextSlotIsLater(total, j - 1, count);
    if i < j - 1 { LaterSlotIsLater(total, i, j - 1, count); }
  }

  ghost predicate SlotsIncrease(total: int, count: nat)
    requires 0 < count
  {
    forall i, j :: 0 <= i < j < count ==> Slot(total, i, count) < Slot(total, j, count)
  }

  lemma {:induction false} SlotsReachTheirIndex(total: int, index: nat, count: nat)
    requires 0 < total && index < count && SlotsIncrease(total, count)
    ensures index <= Slot(total, index, count)
  {
    SlotIsInside(total, index, count);
    if index > 0 {
      SlotsReachTheirIndex(total, index - 1, count);
      assert Slot(total, index - 1, count) < Slot(total, index, count);
    }
  }

  /** The slots are all different exactly when there is at least one nanosecond per account. */
  lemma SlotsIncreaseExactlyWhen(total: int, count: nat)
    requires 0 < total && 0 < count
    ensures SlotsIncrease(total, count) <==> count <= total
  {
    if count <= total {
      forall i, j | 0 <= i < j < count ensures Slot(total, i, count) < Slot(total, j, count) {
        LaterSlotIsLater(total, i, j, count);
      }
    }
    if SlotsIncrease(total, count) {
      SlotsReachTheirIndex(total, count - 1, count);
      SlotIsInside(total, count - 1, count);
    }
  }

  const MAX_INT64: int := 0x7fff_ffff_ffff_ffff

  /** The product the code forms fits a 64-bit duration for up to 50,000 accounts and 1537 minutes. */
  lemma SlotProductFits(total: int, index: nat, count: nat)
    requires 0 <= total <= 1537 * MINUTE && index < count <= 50_000
    ensures 0 <= total * (2 * index + 1) <= MAX_INT64
  {
    var factor := 2 * index + 1;
    ProductGrows(total, 0, factor);
    ProductGrows(total, factor, 99_999);
  }

  // ----- instantAtOffset -----

  ghost predicate AllNonEmpty(s: seq<Interval>) {
    forall i :: 0 <= i < |s| ==> s[i].start < s[i].end
  }

  lemma {:induction false} DurationFromFront(s: seq<Interval>)
    requires s != []
    ensures TotalDuration(s) == s[0].Length() + TotalDuration(s[1..])
  {
    var n := |s| - 1;
    if n == 0 {
      assert s[..0] == [] && s[1..] == [];
    } else {
      DurationFromFront(s[..n]);
      assert s[..n][1..] == s[1..][..n - 1];
    }
  }

  /** Below the total, the offset lands inside an interval: the end-of-list fallback is unreachable. */
  lemma {:induction false} OffsetLandsInside(s: seq<Interval>, offset: int)
    requires s != [] && AllNonEmpty(s) && 0 <= offset < TotalDuration(s)
    ensures exists i :: 0 <= i < |s| && s[i].start <= AtOffset(s, offset) < s[i].end
  {
    DurationFromFront(s);
    if offset < s[0].Length() {
      assert s[0].start <= AtOffset(s, offset) < s[0].end;
    } else {
      OffsetLandsInside(s[1..], offset - s[0].Length());
      var i :| 0 <= i < |s[1..]| &&
               s[1..][i].start <= AtOffset(s[1..], offset - s[0].Length()) < s[1..][i].end;
      assert s[i + 1].start <= AtOffset(s, offset) < s[i + 1].end;
    }
  }

  /** The instant at an offset has exactly that much allowed time before it. */
  lemma {:induction false} OffsetCountsAllowedTime(s: seq<Interval>, lo: Instant, offset: int)
    requires s != [] && Ordered(s) && lo <= s[0].start && 0 <= offset < TotalDuration(s)
    ensures AtOffset(s, offset) in Instants(s)
    ensures Count(Instants(s), lo, AtOffset(s, offset)) == offset
  {
    var all, first := Instants(s), s[0];
    DurationFromFront(s);
    FrontInstants(s);
    if offset < first.Length() {
      CountSkips(all, lo, lo, first.start);
      CountRuns(all, lo, first.start, first.start + offset);
    } else {
      var rest, left := s[1..], offset - first.Length();
      OffsetCountsAllowedTime(rest, first.end, left);
      var at := AtOffset(rest, left);
      OrderedInstantsBeforeEnd(rest, at);
      CountSkips(all, lo, lo, first.start);
      CountRuns(all, lo, first.start, first.end);
      CountSplits(all, lo, first.end, at);
      CountAgrees(all, Instants(rest), first.end, at);
    }
  }

  lemma FrontInstants(s: seq<Interval>)
    requires s != [] && Ordered(s)
    ensures forall t :: t in Instants(s) <==> s[0].start <= t < s[0].end || t in Instants(s[1..])
    ensures forall t :: t in Instants(s[1..]) ==> s[0].end <= t
  {
    assert s == [s[0]] + s[1..];
    SingleInstants(s[0]);
    InstantsAppended([s[0]], s[1..]);
    forall t | t in Instants(s[1..]) ensures s[0].end <= t { InstantsAt(s[1..], t); }
  }

  lemma LaterOffsetIsLater(s: seq<Interval>, a: int, b: int)
    requires s != [] && Ordered(s) && 0 <= a < b < TotalDuration(s)
    ensures AtOffset(s, a) < AtOffset(s, b)
  {
    OffsetCountsAllowedTime(s, s[0].start, a);
    OffsetCountsAllowedTime(s, s[0].start, b);
    if AtOffset(s, b) <= AtOffset(s, a) {
      CountGrows(Instants(s), s[0].start, AtOffset(s, b), AtOffset(s, a));
    }
  }

  // ----- the resolved allowed time -----

  lemma {:induction false} PositiveIsTotal(s: seq<Interval>)
    requires AllNonEmpty(s)
    ensures PositiveDuration(s) == TotalDuration(s)
    ensures s != [] ==> 0 < PositiveDuration(s)
  {
    if s != [] {
      PositiveIsTotal(s[..|s| - 1]);
    }
  }

  /** Resolved pieces come from wall pieces, in the same order. */
  lemma {:induction false} ResolvedInOrder(z: Zone, day: int, walls: seq<Interval>, k: nat, l: nat)
    returns (i: nat, j: nat)
    requires k <= l < |ResolveAll(z, day, walls)|
    ensures i <= j < |walls| && (k < l ==> i < j)
    ensures ResolveWall(z, day, walls[i]).Some? && ResolveWall(z, day, walls[j]).Some?
    ensures ResolveAll(z, day, walls)[k] == InNanos(ResolveWall(z, day, walls[i]).value)
    ensures ResolveAll(z, day, walls)[l] == InNanos(ResolveWall(z, day, walls[j]).value)
  {
    var n := |walls| - 1;
    var before := ResolveAll(z, day, walls[..n]);
    if l < |before| {
      i, j := ResolvedInOrder(z, day, walls[..n], k, l);
    } else {
      j := n;
      if k < l {
        var same;
        i, same := ResolvedInOrder(z, day, walls[..n], k, k);
      } else {
        i := n;
      }
    }
  }

  lemma ResolvedAreNonEmpty(z: Zone, day: int, walls: seq<Interval>)
    ensures AllNonEmpty(ResolveAll(z, day, walls))
  {
    forall k | 0 <= k < |ResolveAll(z, day, walls)|
      ensures ResolveAll(z, day, walls)[k].start < ResolveAll(z, day, walls)[k].end
    {
      var i, _ := ResolvedInOrder(z, day, walls, k, k);
    }
  }

  /** With at most one offset change, ordered wall pieces resolve to ordered instants. */
  lemma ResolvedAreOrdered(z: Zone, day: int, walls: seq<Interval>)
    requires AtMostOneChange(z, day) && Separated(walls)
    ensures Ordered(ResolveAll(z, day, walls))
  {
    var all := ResolveAll(z, day, walls);
    ResolvedAreNonEmpty(z, day, walls);
    forall k, l | 0 <= k < l < |all| ensures all[k].end <= all[l].start {
      var i, j := ResolvedInOrder(z, day, walls, k, l);
      FirstValidIsMonotone(z, day, walls[i].end, walls[j].start, DAY, walls[j].end);
    }
  }

  /** The allowed time lies inside the window the plan reports. */
  lemma AllowedIsInsideWindow(z: Zone, date: Date, preheat: Interval, blackouts: seq<Interval>, k: nat)
    requires AtMostOneChange(z, date.ordinal) && Ordered(blackouts)
    requires 0 <= preheat.start < preheat.end <= DAY
    requires k < |AllowedTime(z, date, preheat, blackouts)|
    ensures var allowed := AllowedTime(z, date, preheat, blackouts);
            var window := ReportedWindow(z, date, preheat, allowed);
            window.start <= allowed[k].start && allowed[k].end <= window.end
  {
    var day := date.ordinal;
    var walls := Subtract(preheat.start, preheat.end, blackouts);
    var allowed := AllowedTime(z, date, preheat, blackouts);
    SubtractCovers(preheat.start, preheat.end, blackouts);
    match ResolvedInterval(z, day, preheat)
    case Some(_) =>
      var i, _ := ResolvedInOrder(z, day, walls, k, k);
      FirstValidIsMonotone(z, day, preheat.start, walls[i].start, preheat.end, walls[i].end);
      FirstValidIsMonotone(z, day, walls[i].end, preheat.end, DAY, DAY);
    case None =>
      ResolvedAreOrdered(z, day, walls);
      assert k > 0 ==> allowed[0].end <= allowed[k].start;
      assert k < |allowed| - 1 ==> allowed[k].end <= allowed[|allowed| - 1].start;
  }

  // ----- the theorems about one anchor -----

  /** An occurrence is missed exactly when nothing is allowed; otherwise it lies inside the allowed time
      and inside its window, with exactly its slot's share of the allowed time before it. */
  lemma OccurrenceLiesInside(z: Zone, date: Date, index: nat, preheat: Interval, blackouts: seq<Interval>,
                             ranked: seq<string>, i: nat)
    requires AtMostOneChange(z, date.ordinal) && Ordered(blackouts)
    requires 0 <= preheat.start < preheat.end <= DAY && i < |ranked|
    ensures var allowed := AllowedTime(z, date, preheat, blackouts);
            var o := AnchorPlan(z, date, index, preheat, blackouts, ranked)[i];
            && (o.missed <==> allowed == [])
            && (!o.missed ==>
                  && o.plannedAt in Instants(allowed)
                  && o.windowStart <= o.plannedAt < o.windowEnd
                  && Count(Instants(allowed), allowed[0].start, o.plannedAt)
                     == Slot(TotalDuration(allowed), i, |ranked|))
  {
    var walls := Subtract(preheat.start, preheat.end, blackouts);
    var allowed := AllowedTime(z, date, preheat, blackouts);
    SubtractCovers(preheat.start, preheat.end, blackouts);
    ResolvedAreOrdered(z, date.ordinal, walls);
    PositiveIsTotal(allowed);
    if allowed != [] {
      var total := TotalDuration(allowed);
      SlotIsInside(total, i, |ranked|);
      OffsetCountsAllowedTime(allowed, allowed[0].start, Slot(total, i, |ranked|));
      var at := AtOffset(allowed, Slot(total, i, |ranked|));
      InstantsAt(allowed, at);
      var k :| 0 <= k < |allowed| && allowed[k].start <= at < allowed[k].end;
      AllowedIsInsideWindow(z, date, preheat, blackouts, k);
    }
  }

  /** With at least one nanosecond per account, the planned instants follow the ranking strictly. */
  lemma PlannedInRankOrder(z: Zone, date: Date, index: nat, preheat: Interval, blackouts: seq<Interval>,
                           ranked: seq<string>, i: nat, j: nat)
    requires AtMostOneChange(z, date.ordinal) && Ordered(blackouts)
    requires 0 <= preheat.start < preheat.end <= DAY && i < j < |ranked|
    requires |ranked| <= TotalDuration(AllowedTime(z, date, preheat, blackouts))
    ensures var plan := AnchorPlan(z, date, index, preheat, blackouts, ranked);
            plan[i].plannedAt < plan[j].plannedAt
  {
    var walls := Subtract(preheat.start, preheat.end, blackouts);
    var allowed := AllowedTime(z, date, preheat, blackouts);
    SubtractCovers(preheat.start, preheat.end, blackouts);
    ResolvedAreOrdered(z, date.ordinal, walls);
    PositiveIsTotal(allowed);
    var total := TotalDuration(allowed);
    SlotIsInside(total, i, |ranked|);
    SlotIsInside(total, j, |ranked|);
    LaterSlotIsLater(total, i, j, |ranked|);
    LaterOffsetIsLater(allowed, Slot(total, i, |ranked|), Slot(total, j, |ranked|));
  }

  // ----- blackouts -----

  /** The minute of the local day shown at an instant. */
  function ShownMinute(z: Zone, day: int, at: Instant): int {
    Wall(z, at / MINUTE) - day * DAY
  }

  /** Where the clock does not go back around the day, no planned instant shows a blacked-out minute. */
  lemma NeverInABlackout(z: Zone, date: Date, index: nat, preheat: Interval, blackouts: seq<Interval>,
                         ranked: seq<string>, i: nat)
    requires NeverBackward(z, date.ordinal) && Ordered(blackouts)
    requires 0 <= preheat.start < preheat.end <= DAY && i < |ranked|
    requires !AnchorPlan(z, date, index, preheat, blackouts, ranked)[i].missed
    ensures var shown := ShownMinute(z, date.ordinal,
                           AnchorPlan(z, date, index, preheat, blackouts, ranked)[i].plannedAt);
            preheat.start <= shown < preheat.end && shown !in Instants(blackouts)
  {
    var walls := Subtract(preheat.start, preheat.end, blackouts);
    var allowed := AllowedTime(z, date, preheat, blackouts);
    SubtractCovers(preheat.start, preheat.end, blackouts);
    ResolvedAreNonEmpty(z, date.ordinal, walls);
    PositiveIsTotal(allowed);
    var total := TotalDuration(allowed);
    var at := AtOffset(allowed, Slot(total, i, |ranked|));
    SlotIsInside(total, i, |ranked|);
    OffsetLandsInside(allowed, Slot(total, i, |ranked|));
    var k :| 0 <= k < |allowed| && allowed[k].start <= at < allowed[k].end;
    var w, _ := ResolvedInOrder(z, date.ordinal, walls, k, k);
    ShowsOnlyItsOwnMinutes(z, date.ordinal, walls[w], at / MINUTE);
    InstantsAt(walls, ShownMinute(z, date.ordinal, at));
  }

  // ----- when the clock falls back -----

  /** With one offset change, a resolved wall interval shows a minute of its own at every instant unless
      the clock falls back inside it to a minute before its start. */
  lemma ShowsItsOwnMinutesExactlyWhen(z: Zone, day: int, wall: Interval, change: int, early: int, late: int)
    requires 0 <= wall.start < wall.end <= DAY
    requires ChangesAt(z, day, change, early, late)
    requires ResolvedInterval(z, day, wall).Some?
    ensures var r := ResolvedInterval(z, day, wall).value;
            (forall t :: r.start <= t < r.end ==> wall.start <= Wall(z, t) - day * DAY < wall.end)
            <==> !(r.start < change < r.end && change + late - day * DAY < wall.start)
  {
    var r := ResolvedInterval(z, day, wall).value;
    var base := day * DAY;
    var i := FirstValidIsFirst(z, day, wall.start, wall.end);
    var j := FirstValidIsFirst(z, day, wall.end, DAY);
    EarliestShows(z, base + i);
    EarliestShows(z, base + j);
    ShownNearby(z, base + i, r.start);
    ShownNearby(z, base + j, r.end);
    if r.start < change < r.end && change + late - base < wall.start {
      assert Wall(z, change) == change + late;
    } else {
      forall t | r.start <= t < r.end ensures wall.start <= Wall(z, t) - base < wall.end {
        ShownWithinInterval(z, day, wall, change, early, late, i, j, t);
      }
    }
  }

  lemma ShownWithinInterval(z: Zone, day: int, wall: Interval, change: int, early: int, late: int,
                            i: int, j: int, t: int)
    requires 0 <= wall.start <= i < wall.end <= j < DAY
    requires ChangesAt(z, day, change, early, late)
    requires Resolve(z, day, i).Some? && Resolve(z, day, j).Some?
    requires forall m :: wall.end <= m < j ==> Resolve(z, day, m) == None
    requires Resolve(z, day, i).value <= t < Resolve(z, day, j).value
    requires !(Resolve(z, day, i).value < change < Resolve(z, day, j).value
               && change + late - day * DAY < wall.start)
    ensures wall.start <= Wall(z, t) - day * DAY < wall.end
  {
    var base := day * DAY;
    var from, to := Resolve(z, day, i).value, Resolve(z, day, j).value;
    EarliestShows(z, base + i);
    EarliestShows(z, base + j);
    ShownNearby(z, base + i, from);
    ShownNearby(z, base + j, to);
    var m := Wall(z, t) - base;
    assert Wall(z, from) == from + if from < change then early else late;
    assert Wall(z, to) == to + if to < change then early else late;
    assert Wall(z, t) == t + if t < change then early else late;
    assert m != j;
    // Had t shown a minute after j, j itself would have been shown even earlier.
    assert Wall(z, t - (m - j)) == base + j ==> to <= t - (m - j);
    if wall.end <= m < j {
      assert Resolve(z, day, m) == None;
      ShownIsResolved(z, base + m, t);
    }
  }

  /** A zone that falls back one hour when its clock would read 02:00 of day 0. */
  function FallBackZone(): Zone {
    var z := t => if t < 60 then 60 else 0;
    z
  }

  lemma FirstShown(minute: int, at: int)
    requires 0 <= minute < DAY
    requires at == if minute < 120 then minute - 60 else minute
    ensures Resolve(FallBackZone(), 0, minute) == Some(at)
    ensures FirstValid(FallBackZone(), 0, minute, DAY) == Some(at)
  {
    var z := FallBackZone();
    forall u | Wall(z, u) == minute ensures at <= u {
    }
    assert Wall(z, at) == minute;
    FoundIsEarliest(z, minute, at);
  }

  lemma FirstShownWithin(minute: int, before: int, at: int)
    requires 0 <= minute < before <= DAY
    requires at == if minute < 120 then minute - 60 else minute
    ensures FirstValid(FallBackZone(), 0, minute, before) == Some(at)
  {
    FirstShown(minute, at);
  }

  const FIRST_HALF: Interval := InNanos(Interval(-30, 0))
  const SECOND_HALF: Interval := InNanos(Interval(30, 150))

  lemma FallBackAllowedTime(date: Date)
    requires date.ordinal == 0
    ensures AllowedTime(FallBackZone(), date, Interval(30, 150), [Interval(60, 90)]) == [FIRST_HALF, SECOND_HALF]
  {
    var z, blackouts := FallBackZone(), [Interval(60, 90)];
    var first, second := Interval(30, 60), Interval(90, 150);
    assert blackouts[1..] == [];
    assert Subtract(90, 150, []) == [second];
    assert Subtract(30, 150, blackouts) == [first, second];
    FirstShownWithin(30, 60, -30); FirstShown(60, 0);
    FirstShownWithin(90, 150, 30); FirstShown(150, 150);
    assert ResolveAll(z, 0, [first]) == [FIRST_HALF] by { assert [first][..0] == []; }
    assert ResolveAll(z, 0, [first, second]) == [FIRST_HALF, SECOND_HALF] by {
      assert [first, second][..1] == [first];
    }
  }

  lemma MiddleOfTheAllowedTime()
    ensures PositiveDuration([FIRST_HALF, SECOND_HALF]) == 150 * MINUTE
    ensures AtOffset([FIRST_HALF, SECOND_HALF], Slot(150 * MINUTE, 0, 1)) == 75 * MINUTE
  {
    var a, b := FIRST_HALF, SECOND_HALF;
    assert PositiveDuration([a]) == 30 * MINUTE by { assert [a][..0] == []; }
    assert [a, b][..1] == [a] && [a, b][1..] == [b];
    assert Slot(150 * MINUTE, 0, 1) == 75 * MINUTE;
  }

  /** Blackout 01:00 to 01:30, preheat window 00:30 to 02:30, one account: the middle of the allowed time
      is the second 01:15 of the night, a blacked-out minute. */
  lemma SecondCopyOfABlackoutCanBeChosen(date: Date, index: nat, account: string)
    requires date.ordinal == 0
    ensures var blackouts := [Interval(60, 90)];
            var o := AnchorPlan(FallBackZone(), date, index, Interval(30, 150), blackouts, [account])[0];
            !o.missed && ShownMinute(FallBackZone(), 0, o.plannedAt) in Instants(blackouts)
  {
    FallBackAllowedTime(date);
    MiddleOfTheAllowedTime();
    SingleInstants(Interval(60, 90));
  }

  // ----- the size of the slot product -----

  lemma SpanBoundsDuration(s: seq<Interval>)
    requires Ordered(s) && s != []
    ensures TotalDuration(s) <= s[|s| - 1].end - s[0].start
  {
    var lo, hi := s[0].start, s[|s| - 1].end;
    DurationIsMeasure(s);
    forall t | t in Instants(s) ensures lo <= t < hi { OrderedInstantsBeforeEnd(s, t); }
    SubsetSize(Instants(s), Range(lo, hi));
    RangeSize(lo, hi);
  }

  predicate ProductFits(total: int, index: nat) {
    0 <= total * (2 * index + 1) <= MAX_INT64
  }

  /** The products of all slots fit a 64-bit duration exactly when the last one does. */
  lemma ProductsFitExactlyWhen(total: int, count: nat)
    requires 0 <= total && 0 < count
    ensures (forall index: nat :: index < count ==> ProductFits(total, index)) <==> total * (2 * count - 1) <= MAX_INT64
  {
    assert ProductFits(total, count - 1) <==> total * (2 * count - 1) <= MAX_INT64 by {
      assert 2 * (count - 1) + 1 == 2 * count - 1;
      ProductGrows(total, 0, 2 * count - 1);
    }
    if total * (2 * count - 1) <= MAX_INT64 {
      forall index: nat | index < count ensures ProductFits(total, index) {
        ProductGrows(total, 0, 2 * index + 1);
        ProductGrows(total, 2 * index + 1, 2 * count - 1);
      }
    }
  }

  /** The allowed time is no longer than the reported window. */
  lemma AllowedTimeFitsTheWindow(z: Zone, date: Date, preheat: Interval, blackouts: seq<Interval>)
    requires AtMostOneChange(z, date.ordinal) && Ordered(blackouts)
    requires 0 <= preheat.start < preheat.end <= DAY && AllowedTime(z, date, preheat, blackouts) != []
    ensures var allowed := AllowedTime(z, date, preheat, blackouts);
            0 < TotalDuration(allowed) <= ReportedWindow(z, date, preheat, allowed).Length()
  {
    var walls := Subtract(preheat.start, preheat.end, blackouts);
    var allowed := AllowedTime(z, date, preheat, blackouts);
    SubtractCovers(preheat.start, preheat.end, blackouts);
    ResolvedAreOrdered(z, date.ordinal, walls);
    ResolvedAreNonEmpty(z, date.ordinal, walls);
    PositiveIsTotal(allowed);
    SpanBoundsDuration(allowed);
    AllowedIsInsideWindow(z, date, preheat, blackouts, 0);
    AllowedIsInsideWindow(z, date, preheat, blackouts, |allowed| - 1);
  }

  /** The slot products of a window's plan fit a 64-bit duration if and only if twice the accounts less one times
      the allowed time does, for which the same of the window's length is enough. */
  lemma DayProductFits(z: Zone, date: Date, preheat: Interval, blackouts: seq<Interval>, count: nat)
    requires AtMostOneChange(z, date.ordinal) && Ordered(blackouts) && 0 < count
    requires 0 <= preheat.start < preheat.end <= DAY && AllowedTime(z, date, preheat, blackouts) != []
    ensures var allowed := AllowedTime(z, date, preheat, blackouts);
            var total := TotalDuration(allowed);
            && ((forall index: nat :: index < count ==> ProductFits(total, index))
                <==> total * (2 * count - 1) <= MAX_INT64)
            && (ReportedWindow(z, date, preheat, allowed).Length() * (2 * count - 1) <= MAX_INT64 ==>
                  total * (2 * count - 1) <= MAX_INT64)
  {
    var allowed := AllowedTime(z, date, preheat, blackouts);
    AllowedTimeFitsTheWindow(z, date, preheat, blackouts);
    ProductsFitExactlyWhen(TotalDuration(allowed), count);
    ProductGrows(2 * count - 1, TotalDuration(allowed), ReportedWindow(z, date, preheat, allowed).Length());
  }

  /** A reported window is at most a day and the amount by which the clock falls back. */
  lemma WindowIsBounded(z: Zone, date: Date, preheat: Interval, blackouts: seq<Interval>,
                        change: int, early: int, late: int)
    requires ChangesAt(z, date.ordinal, change, early, late) && Ordered(blackouts)
    requires 0 <= preheat.start < preheat.end <= DAY && AllowedTime(z, date, preheat, blackouts) != []
    ensures var allowed := AllowedTime(z, date, preheat, blackouts);
            ReportedWindow(z, date, preheat, allowed).Length()
            <= (1439 + if late < early then early - late else 0) * MINUTE
  {
    var walls := Subtract(preheat.start, preheat.end, blackouts);
    SubtractCovers(preheat.start, preheat.end, blackouts);
    match ResolvedInterval(z, date.ordinal, preheat)
    case Some(_) =>
      var m := FirstValidIsFirst(z, date.ordinal, preheat.start, preheat.end);
      var n := FirstValidIsFirst(z, date.ordinal, preheat.end, DAY);
      DistanceOfMinutes(z, date.ordinal, m, n, change, early, late);
    case None => SpanIsBounded(z, date.ordinal, walls, change, early, late);
  }

  lemma SpanIsBounded(z: Zone, day: int, walls: seq<Interval>, change: int, early: int, late: int)
    requires ChangesAt(z, day, change, early, late) && Separated(walls) && ResolveAll(z, day, walls) != []
    ensures var allowed := ResolveAll(z, day, walls);
            allowed[|allowed| - 1].end - allowed[0].start
            <= (1439 + if late < early then early - late else 0) * MINUTE
  {
    var allowed := ResolveAll(z, day, walls);
    assert AtMostOneChange(z, day);
    ResolvedAreOrdered(z, day, walls);
    var i, j := ResolvedInOrder(z, day, walls, 0, |allowed| - 1);
    var m := FirstValidIsFirst(z, day, walls[i].start, walls[i].end);
    var n := FirstValidIsFirst(z, day, walls[j].end, DAY);
    DistanceOfMinutes(z, day, m, n, change, early, late);
  }

  lemma DistanceOfMinutes(z: Zone, day: int, m: int, n: int, change: int, early: int, late: int)
    requires ChangesAt(z, day, change, early, late)
    requires Resolve(z, day, m).Some? && Resolve(z, day, n).Some?
    requires Resolve(z, day, m).value <= Resolve(z, day, n).value
    ensures Resolve(z, day, n).value - Resolve(z, day, m).value <= 1439 + if late < early then early - late else 0
  {
    var s, t := Resolve(z, day, m).value, Resolve(z, day, n).value;
    EarliestShows(z, day * DAY + m);
    EarliestShows(z, day * DAY + n);
    ShownNearby(z, day * DAY + m, s);
    ShownNearby(z, day * DAY + n, t);
    assert Wall(z, s) == s + if s < change then early else late;
    assert Wall(z, t) == t + if t < change then early else late;
  }
}
