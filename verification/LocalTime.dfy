/** Mapping local wall-clock minutes to instants. Instants here count whole minutes of UTC; a wall
    minute counts minutes of the local calendar, so day `d`, minute `m` is `d * DAY + m`. */
module LocalTime {
  import opened Domain
  import opened Intervals

  const DAY: int := 1440
  const MAX_OFFSET: int := 18 * 60
  const SCAN_RADIUS: int := 36 * 60

  ghost predicate WholeMinuteOffsets(z: int -> int) {
    forall t :: -MAX_OFFSET <= z(t) <= MAX_OFFSET
  }

  /** A time zone as its offset, in whole minutes east of UTC, at every minute instant. */
  type Zone = z: int -> int | WholeMinuteOffsets(z) witness (t => 0)

  /** The wall minute a zone displays at an instant. */
  function Wall(z: Zone, t: int): int { t + z(t) }

  ghost predicate IsEarliest(z: Zone, wall: int, t: int) {
    Wall(z, t) == wall && forall u :: Wall(z, u) == wall ==> t <= u
  }

  /** The earliest instant of all time that displays a wall minute, if any does. */
  ghost function Earliest(z: Zone, wall: int): (r: Option<int>) {
    if exists t :: IsEarliest(z, wall, t) then
      var t :| IsEarliest(z, wall, t);
      Some(t)
    else None
  }

  lemma ShownNearby(z: Zone, wall: int, t: int)
    requires Wall(z, t) == wall
    ensures wall - MAX_OFFSET <= t <= wall + MAX_OFFSET
  {
  }

  lemma FoundIsEarliest(z: Zone, wall: int, t: int)
    requires IsEarliest(z, wall, t)
    ensures Earliest(z, wall) == Some(t)
  {
    var u :| Earliest(z, wall) == Some(u) && IsEarliest(z, wall, u);
  }

  lemma NeverShown(z: Zone, wall: int)
    requires forall t :: Wall(z, t) != wall
    ensures Earliest(z, wall) == None
  {
  }

  /** A wall minute that is ever shown has an earliest instant. */
  lemma {:induction false} ShownIsResolved(z: Zone, wall: int, t: int)
    requires Wall(z, t) == wall
    ensures Earliest(z, wall).Some? && Earliest(z, wall).value <= t
    decreases t + MAX_OFFSET - wall
  {
    ShownNearby(z, wall, t);
    if u :| Wall(z, u) == wall && u < t {
      ShownNearby(z, wall, u);
      ShownIsResolved(z, wall, u);
    } else {
      FoundIsEarliest(z, wall, t);
    }
  }

  lemma EarliestShows(z: Zone, wall: int)
    requires Earliest(z, wall).Some?
    ensures IsEarliest(z, wall, Earliest(z, wall).value)
  {
  }

  // ----- resolveLocalMinute -----

  ghost function Resolve(z: Zone, day: int, minute: int): Option<int> {
    if 0 <= minute < DAY then Earliest(z, day * DAY + minute) else None
  }

  /** The bounded scan finds the globally earliest instant, and fails exactly when there is none. */
  method ResolveLocalMinute(z: Zone, day: int, minute: int) returns (r: Option<int>)
    ensures r == Resolve(z, day, minute)
  {
    if minute < 0 || minute >= DAY {
      return None;
    }
    var wall := day * DAY + minute;
    var center := wall - z(wall);
    var candidate, end := center - SCAN_RADIUS, center + SCAN_RADIUS;
    while candidate <= end
      invariant candidate <= end + 1
      invariant forall u :: u < candidate ==> Wall(z, u) != wall
      decreases end + 1 - candidate
    {
      if Wall(z, candidate) == wall {
        FoundIsEarliest(z, wall, candidate);
        return Some(candidate);
      }
      candidate := candidate + 1;
    }
    NeverShown(z, wall);
    return None;
  }

  // ----- firstValidMinute -----

  ghost function FirstValid(z: Zone, day: int, from: int, before: int): Option<int>
    decreases before - from
  {
    if before <= from then None
    else if Resolve(z, day, from).Some? then Resolve(z, day, from)
    else FirstValid(z, day, from + 1, before)
  }

  /** The first minute at or after from that the day shows at all. */
  lemma {:induction false} FirstValidIsFirst(z: Zone, day: int, from: int, before: int) returns (minute: int)
    requires FirstValid(z, day, from, before).Some?
    ensures from <= minute < before
    ensures Resolve(z, day, minute) == FirstValid(z, day, from, before)
    ensures forall m :: from <= m < minute ==> Resolve(z, day, m) == None
    decreases before - from
  {
    if Resolve(z, day, from).Some? {
      minute := from;
    } else {
      minute := FirstValidIsFirst(z, day, from + 1, before);
    }
  }

  method FirstValidMinute(z: Zone, day: int, from: int, before: int) returns (r: Option<int>)
    ensures r == FirstValid(z, day, if from < 0 then 0 else from, if before > DAY then DAY else before)
  {
    var minute := if from < 0 then 0 else from;
    var end := if before > DAY then DAY else before;
    ghost var goal := FirstValid(z, day, minute, end);
    while minute < end
      invariant goal == FirstValid(z, day, minute, end)
    {
      var instant := ResolveLocalMinute(z, day, minute);
      if instant.Some? {
        return instant;
      }
      minute := minute + 1;
    }
    return None;
  }

  // ----- resolveWallInterval, resolveWindowBoundaries -----

  ghost function ResolvedInterval(z: Zone, day: int, wall: Interval): Option<Interval>
    requires 0 <= wall.start
  {
    var start := FirstValid(z, day, wall.start, if wall.end > DAY then DAY else wall.end);
    var end := FirstValid(z, day, if wall.end < 0 then 0 else wall.end, DAY);
    if start.Some? && end.Some? && start.value < end.value then Some(Interval(start.value, end.value))
    else None
  }

  method ResolveWallInterval(z: Zone, day: int, wall: Interval) returns (r: Option<Interval>)
    ensures r == if wall.start < 0 || wall.end > DAY || wall.start >= wall.end then None
                 else ResolvedInterval(z, day, wall)
  {
    if wall.start < 0 || wall.end > DAY || wall.start >= wall.end {
      return None;
    }
    var start := FirstValidMinute(z, day, wall.start, wall.end);
    if start.None? {
      return None;
    }
    var end := FirstValidMinute(z, day, wall.end, DAY);
    if end.None? || !(end.value > start.value) {
      return None;
    }
    return Some(Interval(start.value, end.value));
  }

  method ResolveWindowBoundaries(z: Zone, day: int, wall: Interval) returns (r: Option<Interval>)
    requires 0 <= wall.start
    ensures r == ResolvedInterval(z, day, wall)
  {
    var start := FirstValidMinute(z, day, wall.start, wall.end);
    if start.None? {
      return None;
    }
    var end := FirstValidMinute(z, day, wall.end, DAY);
    if end.None? || !(end.value > start.value) {
      return None;
    }
    return Some(Interval(start.value, end.value));
  }

  // ----- monotonicity -----

  /** Around the day, the offset changes at most once. */
  ghost predicate AtMostOneChange(z: Zone, day: int) {
    exists change, early, late :: ChangesAt(z, day, change, early, late)
  }

  ghost predicate ChangesAt(z: Zone, day: int, change: int, early: int, late: int) {
    forall t :: day * DAY - MAX_OFFSET <= t < (day + 1) * DAY + MAX_OFFSET ==>
                  Wall(z, t) == t + if t < change then early else late
  }

  /** Later wall minutes of one day resolve to later instants. */
  lemma ResolutionIsMonotone(z: Zone, day: int, m: int, n: int)
    requires AtMostOneChange(z, day) && m < n
    requires Resolve(z, day, m).Some? && Resolve(z, day, n).Some?
    ensures Resolve(z, day, m).value < Resolve(z, day, n).value
  {
    var change, early, late :| ChangesAt(z, day, change, early, late);
    var s, t := Resolve(z, day, m).value, Resolve(z, day, n).value;
    var wall := day * DAY;
    EarliestShows(z, wall + m);
    EarliestShows(z, wall + n);
    ShownNearby(z, wall + m, s);
    ShownNearby(z, wall + n, t);
    // Were n shown no later than m, the clock would have gone back in between, and m would already
    // have been shown n - m minutes before n.
    assert Wall(z, t - (n - m)) == wall + m ==> s <= t - (n - m);
  }

  lemma FirstValidIsMonotone(z: Zone, day: int, a: int, b: int, m: int, n: int)
    requires AtMostOneChange(z, day) && 0 <= a <= b
    requires FirstValid(z, day, a, m).Some? && FirstValid(z, day, b, n).Some?
    ensures FirstValid(z, day, a, m).value <= FirstValid(z, day, b, n).value
  {
    var i := FirstValidIsFirst(z, day, a, m);
    var j := FirstValidIsFirst(z, day, b, n);
    if i < j {
      ResolutionIsMonotone(z, day, i, j);
    }
  }

  /** Around the day, the clock never goes back. */
  ghost predicate NeverBackward(z: Zone, day: int) {
    forall t, u :: day * DAY - MAX_OFFSET <= t < u < (day + 1) * DAY + MAX_OFFSET ==> Wall(z, t) < Wall(z, u)
  }

  /** One change around the day is never backward exactly when the offset does not shrink, or the change lies
      out of reach. */
  lemma NeverBackwardExactlyWhen(z: Zone, day: int, change: int, early: int, late: int)
    requires ChangesAt(z, day, change, early, late)
    ensures NeverBackward(z, day) <==>
              early <= late || change <= day * DAY - MAX_OFFSET || (day + 1) * DAY + MAX_OFFSET <= change
  {
    if day * DAY - MAX_OFFSET < change < (day + 1) * DAY + MAX_OFFSET && NeverBackward(z, day) {
      assert Wall(z, change - 1) < Wall(z, change);
    }
  }

  /** Without a backward change around the day, a resolved interval shows only wall minutes of the wall interval. */
  lemma ShowsOnlyItsOwnMinutes(z: Zone, day: int, wall: Interval, t: int)
    requires NeverBackward(z, day) && 0 <= wall.start < wall.end <= DAY
    requires ResolvedInterval(z, day, wall).Some?
    requires ResolvedInterval(z, day, wall).value.start <= t < ResolvedInterval(z, day, wall).value.end
    ensures wall.start <= Wall(z, t) - day * DAY < wall.end
  {
    var i := FirstValidIsFirst(z, day, wall.start, wall.end);
    var j := FirstValidIsFirst(z, day, wall.end, DAY);
    var base := day * DAY;
    var r := ResolvedInterval(z, day, wall).value;
    EarliestShows(z, base + i);
    EarliestShows(z, base + j);
    ShownNearby(z, base + i, r.start);
    ShownNearby(z, base + j, r.end);
    assert Wall(z, r.start) == base + i && Wall(z, r.end) == base + j;
    assert Wall(z, r.start) <= Wall(z, t) < Wall(z, r.end);
    var m := Wall(z, t) - base;
    if wall.end <= m {
      assert Resolve(z, day, m) == None;
      ShownIsResolved(z, base + m, t);
    }
  }

  // ----- subtractBlackouts -----

  /** What is left of [cursor, end) after the blackouts, in order. */
  function Subtract(cursor: int, end: int, blackouts: seq<Interval>): seq<Interval>
    decreases |blackouts|
  {
    if blackouts == [] || (blackouts[0].start >= end && blackouts[0].end > cursor) then
      if cursor < end then [Interval(cursor, end)] else []
    else if blackouts[0].end <= cursor then Subtract(cursor, end, blackouts[1..])
    else
      (if cursor < blackouts[0].start then [Interval(cursor, blackouts[0].start)] else [])
      + (if blackouts[0].end >= end then [] else Subtract(blackouts[0].end, end, blackouts[1..]))
  }

  lemma SubtractFirst(cursor: int, end: int, blackouts: seq<Interval>, b: Interval, rest: seq<Interval>)
    requires blackouts != [] && blackouts[0] == b && blackouts[1..] == rest
    ensures Subtract(cursor, end, blackouts) ==
            if b.end <= cursor then Subtract(cursor, end, rest)
            else if b.start >= end then if cursor < end then [Interval(cursor, end)] else []
            else (if cursor < b.start then [Interval(cursor, b.start)] else [])
                 + if b.end >= end then [] else Subtract(b.end, end, rest)
  {
  }

  lemma Regroup(a: seq<Interval>, x: Interval, b: seq<Interval>)
    ensures a + ([x] + b) == (a + [x]) + b
    ensures [] + b == b && a + [] == a
  {
  }

  method SubtractBlackouts(base: Interval, blackouts: seq<Interval>) returns (allowed: seq<Interval>)
    ensures allowed == Subtract(base.start, base.end, blackouts)
  {
    allowed := [];
    var cursor := base.start;
    ghost var goal := Subtract(base.start, base.end, blackouts);
    for k := 0 to |blackouts|
      invariant goal == allowed + Subtract(cursor, base.end, blackouts[k..])
    {
      var blackout := blackouts[k];
      SubtractFirst(cursor, base.end, blackouts[k..], blackout, blackouts[k + 1..]);
      if blackout.end <= cursor {
        continue;
      }
      if blackout.start >= base.end {
        if cursor < base.end {
          allowed := allowed + [Interval(cursor, base.end)];
        }
        return;
      }
      ghost var tail := if blackout.end >= base.end then [] else Subtract(blackout.end, base.end, blackouts[k + 1..]);
      Regroup(allowed, Interval(cursor, blackout.start), tail);
      if blackout.start > cursor {
        var end := blackout.start;
        if end > base.end {
          end := base.end;
        }
        if cursor < end {
          allowed := allowed + [Interval(cursor, end)];
        }
      }
      assert goal == allowed + tail;
      if blackout.end > cursor {
        cursor := blackout.end;
        if cursor >= base.end {
          return;
        }
      }
    }
    if cursor < base.end {
      allowed := allowed + [Interval(cursor, base.end)];
    }
  }

  ghost predicate IsLeftOver(allowed: seq<Interval>, cursor: int, end: int, blackouts: seq<Interval>) {
    && Separated(allowed)
    && (forall i :: 0 <= i < |allowed| ==> cursor <= allowed[i].start && allowed[i].end <= end)
    && (forall t :: t in Instants(allowed) <==> cursor <= t < end && t !in Instants(blackouts))
  }

  /** The remaining pieces cover exactly the interval minus the blackouts, in canonical form. */
  lemma {:induction false} SubtractCovers(cursor: int, end: int, blackouts: seq<Interval>)
    requires Ordered(blackouts)
    ensures IsLeftOver(Subtract(cursor, end, blackouts), cursor, end, blackouts)
    decreases |blackouts|
  {
    if blackouts == [] {
      SingleRange(cursor, end);
    } else {
      var b, rest := blackouts[0], blackouts[1..];
      FirstBlackout(blackouts);
      if b.start >= end && b.end > cursor {
        SingleRange(cursor, end);
      } else if b.end <= cursor {
        SubtractCovers(cursor, end, rest);
      } else if b.end >= end {
        SingleRange(cursor, b.start);
      } else {
        SubtractCovers(b.end, end, rest);
        PieceBeforeBlackout(cursor, end, blackouts, Subtract(b.end, end, rest));
      }
    }
  }

  lemma PieceBeforeBlackout(cursor: int, end: int, blackouts: seq<Interval>, tail: seq<Interval>)
    requires Ordered(blackouts) && blackouts != [] && cursor < blackouts[0].end < end
    requires IsLeftOver(tail, blackouts[0].end, end, blackouts[1..])
    ensures var head := if cursor < blackouts[0].start then [Interval(cursor, blackouts[0].start)] else [];
            IsLeftOver(head + tail, cursor, end, blackouts)
  {
    var b := blackouts[0];
    FirstBlackout(blackouts);
    if cursor < b.start {
      PrependKeepsSeparated(Interval(cursor, b.start), tail);
    } else {
      assert [] + tail == tail;
    }
  }

  lemma SingleRange(lo: int, hi: int)
    ensures var s := if lo < hi then [Interval(lo, hi)] else [];
            forall t :: t in Instants(s) <==> lo <= t < hi
  {
    SingleInstants(Interval(lo, hi));
  }

  lemma FirstBlackout(blackouts: seq<Interval>)
    requires Ordered(blackouts) && blackouts != []
    ensures Ordered(blackouts[1..])
    ensures forall t :: t in Instants(blackouts) <==>
              blackouts[0].start <= t < blackouts[0].end || t in Instants(blackouts[1..])
    ensures forall t :: t in Instants(blackouts[1..]) ==> blackouts[0].end <= t
  {
    var b, rest := blackouts[0], blackouts[1..];
    assert blackouts == [b] + rest;
    InstantsAppended([b], rest);
    SingleRange(b.start, b.end);
    forall t | t in Instants(rest) ensures b.end <= t { InstantsAt(rest, t); }
  }
}
