/** When the clock falls back: exactly when the allowed time of a preheat window, and the instants planned in it, can
    show a minute that is blacked out or outside the window. */
module Blackouts {
  import opened Domain
  import opened Intervals
  import opened LocalTime
  import opened Planner
  import opened Slots

  /** A wall piece inside which the clock goes back to a minute before its start. */
  ghost predicate FoldsBack(z: Zone, day: int, wall: Interval, change: int, late: int) {
    && ResolveWall(z, day, wall).Some?
    && ResolveWall(z, day, wall).value.start < change < ResolveWall(z, day, wall).value.end
    && change + late - day * DAY < wall.start
  }

  ghost predicate SomePieceFoldsBack(z: Zone, day: int, walls: seq<Interval>, change: int, late: int) {
    exists i :: 0 <= i < |walls| && FoldsBack(z, day, walls[i], change, late)
  }

  /** A minute of the window that is not blacked out. */
  ghost predicate IsOpen(preheat: Interval, blackouts: seq<Interval>, minute: int) {
    preheat.start <= minute < preheat.end && minute !in Instants(blackouts)
  }

  lemma {:induction false} ResolvedPieceIsAllowed(z: Zone, day: int, walls: seq<Interval>, i: nat)
    requires i < |walls| && ResolveWall(z, day, walls[i]).Some?
    ensures InNanos(ResolveWall(z, day, walls[i]).value) in ResolveAll(z, day, walls)
  {
    var n := |walls| - 1;
    if i < n {
      ResolvedPieceIsAllowed(z, day, walls[..n], i);
    }
  }

  /** The instant right before the clock is back at the start of a piece that folds back: it belongs to the piece
      and shows the minute before it. */
  lemma FoldShowsTheMinuteBefore(z: Zone, day: int, wall: Interval, change: int, early: int, late: int) returns (t: int)
    requires 0 <= wall.start < wall.end <= DAY && ChangesAt(z, day, change, early, late)
    requires FoldsBack(z, day, wall, change, late)
    ensures ResolveWall(z, day, wall).value.start <= t < ResolveWall(z, day, wall).value.end
    ensures Wall(z, t) - day * DAY == wall.start - 1
  {
    var base := day * DAY;
    var r := ResolveWall(z, day, wall).value;
    var i := FirstValidIsFirst(z, day, wall.start, wall.end);
    var j := FirstValidIsFirst(z, day, wall.end, DAY);
    EarliestShows(z, base + i);
    EarliestShows(z, base + j);
    ShownNearby(z, base + i, r.start);
    ShownNearby(z, base + j, r.end);
    t := base + wall.start - 1 - late;
    assert Wall(z, r.end) == r.end + late;
    assert Wall(z, t) == t + late;
  }

  lemma MinuteBeforeAPieceIsNotOpen(walls: seq<Interval>, i: nat)
    requires Separated(walls) && i < |walls|
    ensures walls[i].start - 1 !in Instants(walls)
  {
    InstantsAt(walls, walls[i].start - 1);
    forall k | 0 <= k < |walls| ensures !(walls[k].start <= walls[i].start - 1 < walls[k].end) {
    }
  }

  lemma InstantOfMinute(r: Interval, t: int)
    requires r.start <= t < r.end
    ensures InNanos(r).start <= t * MINUTE < InNanos(r).end && t * MINUTE / MINUTE == t
  {
  }

  lemma MinuteOfInstant(r: Interval, at: Instant)
    requires InNanos(r).start <= at < InNanos(r).end
    ensures r.start <= at / MINUTE < r.end
  {
  }

  /** The wall pieces cover exactly the open minutes. */
  lemma PiecesAreOpen(preheat: Interval, blackouts: seq<Interval>, minute: int)
    requires Ordered(blackouts)
    ensures minute in Instants(Subtract(preheat.start, preheat.end, blackouts)) <==> IsOpen(preheat, blackouts, minute)
  {
    SubtractCovers(preheat.start, preheat.end, blackouts);
  }

  /** No fold: every allowed instant shows an open minute. */
  lemma AllowedShowsOpenMinute(z: Zone, date: Date, preheat: Interval, blackouts: seq<Interval>,
                               change: int, early: int, late: int, at: Instant)
    requires ChangesAt(z, date.ordinal, change, early, late) && Ordered(blackouts)
    requires 0 <= preheat.start < preheat.end <= DAY
    requires !SomePieceFoldsBack(z, date.ordinal, Subtract(preheat.start, preheat.end, blackouts), change, late)
    requires at in Instants(AllowedTime(z, date, preheat, blackouts))
    ensures IsOpen(preheat, blackouts, ShownMinute(z, date.ordinal, at))
  {
    var day := date.ordinal;
    var walls := Subtract(preheat.start, preheat.end, blackouts);
    var allowed := AllowedTime(z, date, preheat, blackouts);
    SubtractCovers(preheat.start, preheat.end, blackouts);
    InstantsAt(allowed, at);
    var k :| 0 <= k < |allowed| && allowed[k].start <= at < allowed[k].end;
    var w, _ := ResolvedInOrder(z, day, walls, k, k);
    var r := ResolveWall(z, day, walls[w]).value;
    MinuteOfInstant(r, at);
    ShowsItsOwnMinutesExactlyWhen(z, day, walls[w], change, early, late);
    assert !FoldsBack(z, day, walls[w], change, late);
    assert r.start <= at / MINUTE < r.end;
    InstantsAt(walls, ShownMinute(z, day, at));
    PiecesAreOpen(preheat, blackouts, ShownMinute(z, day, at));
  }

  lemma PieceIsAllowed(z: Zone, day: int, walls: seq<Interval>, i: nat, t: int)
    requires i < |walls| && ResolveWall(z, day, walls[i]).Some?
    requires ResolveWall(z, day, walls[i]).value.start <= t < ResolveWall(z, day, walls[i]).value.end
    ensures t * MINUTE in Instants(ResolveAll(z, day, walls)) && t * MINUTE / MINUTE == t
  {
    var allowed, r := ResolveAll(z, day, walls), ResolveWall(z, day, walls[i]).value;
    ResolvedPieceIsAllowed(z, day, walls, i);
    InstantOfMinute(r, t);
    var k :| 0 <= k < |allowed| && allowed[k] == InNanos(r);
    InstantsAt(allowed, t * MINUTE);
  }

  lemma FoldInPieces(z: Zone, day: int, walls: seq<Interval>, change: int, early: int, late: int)
    returns (at: Instant, minute: int)
    requires ChangesAt(z, day, change, early, late) && Separated(walls)
    requires forall i :: 0 <= i < |walls| ==> 0 <= walls[i].start < walls[i].end <= DAY
    requires SomePieceFoldsBack(z, day, walls, change, late)
    ensures at in Instants(ResolveAll(z, day, walls))
    ensures minute == ShownMinute(z, day, at) && minute !in Instants(walls)
  {
    var i :| 0 <= i < |walls| && FoldsBack(z, day, walls[i], change, late);
    var t := FoldShowsTheMinuteBefore(z, day, walls[i], change, early, late);
    PieceIsAllowed(z, day, walls, i, t);
    MinuteBeforeAPieceIsNotOpen(walls, i);
    at, minute := t * MINUTE, walls[i].start - 1;
  }

  /** A fold: some allowed instant shows a minute that is not open. */
  lemma FoldIsAllowed(z: Zone, date: Date, preheat: Interval, blackouts: seq<Interval>,
                      change: int, early: int, late: int) returns (at: Instant)
    requires ChangesAt(z, date.ordinal, change, early, late) && Ordered(blackouts)
    requires 0 <= preheat.start < preheat.end <= DAY
    requires SomePieceFoldsBack(z, date.ordinal, Subtract(preheat.start, preheat.end, blackouts), change, late)
    ensures at in Instants(AllowedTime(z, date, preheat, blackouts))
    ensures !IsOpen(preheat, blackouts, ShownMinute(z, date.ordinal, at))
  {
    var walls := Subtract(preheat.start, preheat.end, blackouts);
    SubtractCovers(preheat.start, preheat.end, blackouts);
    var minute: int;
    at, minute := FoldInPieces(z, date.ordinal, walls, change, early, late);
    PiecesAreOpen(preheat, blackouts, minute);
  }

  /** With one offset change around the day, all allowed time shows minutes of the window that are not blacked out
      if and only if the clock does not fall back inside an allowed piece to a minute before that piece. */
  lemma AllowedTimeIsOpenExactlyWhen(z: Zone, date: Date, preheat: Interval, blackouts: seq<Interval>,
                                     change: int, early: int, late: int)
    requires ChangesAt(z, date.ordinal, change, early, late) && Ordered(blackouts)
    requires 0 <= preheat.start < preheat.end <= DAY
    ensures (forall at :: at in Instants(AllowedTime(z, date, preheat, blackouts)) ==>
               IsOpen(preheat, blackouts, ShownMinute(z, date.ordinal, at)))
            <==> !SomePieceFoldsBack(z, date.ordinal, Subtract(preheat.start, preheat.end, blackouts), change, late)
  {
    if SomePieceFoldsBack(z, date.ordinal, Subtract(preheat.start, preheat.end, blackouts), change, late) {
      var at := FoldIsAllowed(z, date, preheat, blackouts, change, early, late);
    } else {
      forall at | at in Instants(AllowedTime(z, date, preheat, blackouts))
        ensures IsOpen(preheat, blackouts, ShownMinute(z, date.ordinal, at))
      {
        AllowedShowsOpenMinute(z, date, preheat, blackouts, change, early, late, at);
      }
    }
  }

  // ----- planned instants -----

  /** Every allowed instant has an offset. */
  lemma {:induction false} OffsetOf(s: seq<Interval>, at: Instant) returns (offset: int)
    requires AllNonEmpty(s) && at in Instants(s)
    requires Ordered(s)
    ensures s != [] && 0 <= offset < TotalDuration(s) && AtOffset(s, offset) == at
  {
    InstantsAt(s, at);
    DurationFromFront(s);
    PositiveIsTotal(s[1..]);
    if s[0].start <= at < s[0].end {
      offset := at - s[0].start;
    } else {
      FrontInstants(s);
      var rest := OffsetOf(s[1..], at);
      offset := rest + s[0].Length();
    }
  }

  /** As many accounts as there are nanoseconds reach every offset. */
  lemma SlotPerNanosecond(total: int, index: nat)
    requires index < total
    ensures Slot(total, index, total) == index
  {
    var odd := 2 * index + 1;
    assert total * odd == index * (2 * total) + total;
    QuotientOfRemainder(index, 2 * total, total);
  }

  lemma QuotientOfRemainder(q: int, d: int, r: int)
    requires 0 < d && 0 <= r < d && 0 <= q
    ensures (q * d + r) / d == q
  {
    var x := q * d + r;
    assert x == (x / d) * d + x % d;
    if x / d < q {
      ProductGrows(d, x / d + 1, q);
    } else if x / d > q {
      ProductGrows(d, q + 1, x / d);
    }
  }

  ghost predicate PlannedIsOpen(z: Zone, date: Date, index: nat, preheat: Interval, blackouts: seq<Interval>,
                                ranked: seq<string>, i: nat)
    requires 0 <= preheat.start && i < |ranked|
  {
    var o := AnchorPlan(z, date, index, preheat, blackouts, ranked)[i];
    !o.missed ==> IsOpen(preheat, blackouts, ShownMinute(z, date.ordinal, o.plannedAt))
  }

  lemma WithoutFoldPlannedIsOpen(z: Zone, date: Date, index: nat, preheat: Interval, blackouts: seq<Interval>,
                                 change: int, early: int, late: int, ranked: seq<string>, i: nat)
    requires ChangesAt(z, date.ordinal, change, early, late) && Ordered(blackouts)
    requires 0 <= preheat.start < preheat.end <= DAY && i < |ranked|
    requires !SomePieceFoldsBack(z, date.ordinal, Subtract(preheat.start, preheat.end, blackouts), change, late)
    ensures PlannedIsOpen(z, date, index, preheat, blackouts, ranked, i)
  {
    assert AtMostOneChange(z, date.ordinal);
    OccurrenceLiesInside(z, date, index, preheat, blackouts, ranked, i);
    var o := AnchorPlan(z, date, index, preheat, blackouts, ranked)[i];
    if !o.missed {
      AllowedShowsOpenMinute(z, date, preheat, blackouts, change, early, late, o.plannedAt);
    }
  }

  /** The plan of a window never shows a blacked-out minute, however many accounts are scheduled, if and only if no
      allowed piece folds back. */
  lemma PlansAreOpenExactlyWhen(z: Zone, date: Date, index: nat, preheat: Interval, blackouts: seq<Interval>,
                                change: int, early: int, late: int)
    requires ChangesAt(z, date.ordinal, change, early, late) && Ordered(blackouts)
    requires 0 <= preheat.start < preheat.end <= DAY
    ensures (forall ranked: seq<string>, i: nat :: i < |ranked| ==>
               PlannedIsOpen(z, date, index, preheat, blackouts, ranked, i))
            <==> !SomePieceFoldsBack(z, date.ordinal, Subtract(preheat.start, preheat.end, blackouts), change, late)
  {
    if SomePieceFoldsBack(z, date.ordinal, Subtract(preheat.start, preheat.end, blackouts), change, late) {
      var ranked, i := FoldIsPlanned(z, date, index, preheat, blackouts, change, early, late);
    } else {
      forall ranked: seq<string>, i: nat | i < |ranked|
        ensures PlannedIsOpen(z, date, index, preheat, blackouts, ranked, i)
      {
        WithoutFoldPlannedIsOpen(z, date, index, preheat, blackouts, change, early, late, ranked, i);
      }
    }
  }

  lemma FoldIsPlanned(z: Zone, date: Date, index: nat, preheat: Interval, blackouts: seq<Interval>,
                      change: int, early: int, late: int) returns (ranked: seq<string>, i: nat)
    requires ChangesAt(z, date.ordinal, change, early, late) && Ordered(blackouts)
    requires 0 <= preheat.start < preheat.end <= DAY
    requires SomePieceFoldsBack(z, date.ordinal, Subtract(preheat.start, preheat.end, blackouts), change, late)
    ensures i < |ranked| && !PlannedIsOpen(z, date, index, preheat, blackouts, ranked, i)
  {
    var walls := Subtract(preheat.start, preheat.end, blackouts);
    var allowed := AllowedTime(z, date, preheat, blackouts);
    assert AtMostOneChange(z, date.ordinal);
    SubtractCovers(preheat.start, preheat.end, blackouts);
    ResolvedAreOrdered(z, date.ordinal, walls);
    ResolvedAreNonEmpty(z, date.ordinal, walls);
    PositiveIsTotal(allowed);
    var at := FoldIsAllowed(z, date, preheat, blackouts, change, early, late);
    var offset := OffsetOf(allowed, at);
    var total := TotalDuration(allowed);
    ranked, i := seq(total, _ => ""), offset;
    SlotPerNanosecond(total, offset);
    assert AnchorPlan(z, date, index, preheat, blackouts, ranked)[i].plannedAt == at;
  }
}
