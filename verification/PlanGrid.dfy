/** Which minutes a day's plan is made for, in which order, and for whom, told from the configuration's periods, times
    and hours alone. */
module PlanGrid {
  import opened Domain
  import opened Sorting
  import opened Intervals
  import opened LocalTime
  import opened Config
  import ConfigOutcomes
  import opened Planner
  import opened Plans
  import opened Slots
  import opened Blackouts
  import opened DayPlans

  // ----- the minutes -----

  /** The minutes a whole number of usage windows after the start of work, the default window being five hours. */
  ghost predicate OnWindowGrid(first: int, windowHours: int, m: int) {
    exists n: nat :: m == first + GridOffset(windowHours, n)
  }

  function GridOffset(windowHours: int, n: nat): int {
    n * (if windowHours > 0 then windowHours * 60 else 300)
  }

  ghost predicate InWork(work: seq<Interval>, m: int) {
    exists i :: 0 <= i < |work| && work[i].start <= m < work[i].end
  }

  ghost predicate IsSkipped(times: seq<string>, m: int) {
    exists t :: t in times && ParseClock(t) == Some(m)
  }

  /** The minutes that get windows: on the grid, inside work and not a skip time. */
  ghost predicate GetsWindows(cfg: Config, work: seq<Interval>, m: int)
    requires work != []
  {
    OnWindowGrid(work[0].start, cfg.windowHours, m) && InWork(work, m) && !IsSkipped(cfg.skipWindowTimes, m)
  }

  lemma {:induction false} GridIsMultiples(first: int, step: int, m: int)
    requires 0 < step
    ensures OnGrid(first, step, m) <==> exists n: nat :: m == first + n * step
    decreases m - first
  {
    if first < m {
      GridIsMultiples(first + step, step, m);
      if OnGrid(first, step, m) {
        var n: nat :| m == first + step + n * step;
        assert m == first + (n + 1) * step;
      }
      if n: nat :| m == first + n * step {
        assert n > 0;
        assert m == first + step + (n - 1) * step;
      }
    } else if first == m {
      assert m == first + 0 * step;
    } else if n: nat :| m == first + n * step {
      ProductGrows(step, 0, n);
    }
  }

  lemma GridIsWindowGrid(first: int, windowHours: int, m: int)
    ensures OnGrid(first, WindowMinutes(windowHours), m) <==> OnWindowGrid(first, windowHours, m)
  {
    GridIsMultiples(first, WindowMinutes(windowHours), m);
    if n: nat :| m == first + n * WindowMinutes(windowHours) { assert m == first + GridOffset(windowHours, n); }
    if n: nat :| m == first + GridOffset(windowHours, n) { assert m == first + n * WindowMinutes(windowHours); }
  }

  lemma {:induction false} SkipsAreSkipped(times: seq<string>, m: int)
    requires SkipMinutes(times).Some?
    ensures m in SkipMinutes(times).value <==> IsSkipped(times, m)
  {
    if times != [] {
      var init, last := times[..|times| - 1], times[|times| - 1];
      SkipsAreSkipped(init, m);
      assert times == init + [last];
    }
  }

  lemma WorkEndsLast(work: seq<Interval>, m: int)
    requires Ordered(work) && InWork(work, m)
    ensures work != [] && m < work[|work| - 1].end
  {
    var i :| 0 <= i < |work| && work[i].start <= m < work[i].end;
    if i < |work| - 1 { assert work[i].end <= work[|work| - 1].start; }
  }

  ghost predicate Increasing(s: seq<int>) { forall i, j :: 0 <= i < j < |s| ==> s[i] < s[j] }

  lemma AcceptedAnchors(cfg: Config, known: set<string>)
    requires ValidConfig(cfg, known, true) && cfg.workPeriods != []
    ensures ParsePeriods(cfg.workPeriods).Some? && SkipMinutes(cfg.skipWindowTimes).Some?
    ensures var work := ParsePeriods(cfg.workPeriods).value;
            Increasing(AnchorsOf(cfg)) && forall m :: m in AnchorsOf(cfg) <==> GetsWindows(cfg, work, m)
  {
    AcceptedParses(cfg, known);
    var work, skips := ParsePeriods(cfg.workPeriods).value, SkipMinutes(cfg.skipWindowTimes).value;
    AnchorsAreTheGrid(work[0].start, work[|work| - 1].end, WindowMinutes(cfg.windowHours), work, skips);
    forall m ensures m in AnchorsOf(cfg) <==> GetsWindows(cfg, work, m) {
      GridIsWindowGrid(work[0].start, cfg.windowHours, m);
      SkipsAreSkipped(cfg.skipWindowTimes, m);
      if InWork(work, m) { WorkEndsLast(work, m); }
    }
  }

  // ----- the plan -----

  /** The wall window of a minute: it ends `lead` minutes before it and is `span` minutes long. */
  function WindowBefore(cfg: Config, m: int): Interval
    requires cfg.lead.Some? && cfg.span.Some?
  {
    Interval(m - cfg.lead.value - cfg.span.value, m - cfg.lead.value)
  }

  /** The occurrence belongs to the n-th minute: its identity and date say so, it is missed without allowed time in the
      window of that minute, and otherwise lies in that allowed time and reports that window. */
  ghost predicate BelongsTo(cfg: Config, z: Zone, date: Date, o: PlannedOccurrence, n: nat, m: int)
    requires cfg.lead.Some? && cfg.span.Some? && ParsePeriods(cfg.blackoutPeriods).Some?
    requires 0 <= WindowBefore(cfg, m).start
  {
    var allowed := AllowedTime(z, date, WindowBefore(cfg, m), ParsePeriods(cfg.blackoutPeriods).value);
    && o.periodIndex == n && o.localDate == DateText(date)
    && o.accountKey in cfg.scheduledAccountKeys
    && o.id == DateText(date) + "/p" + Itoa(n) + "/" + o.accountKey
    && (o.missed <==> PositiveDuration(allowed) <= 0)
    && if o.missed then o.missedReason == "no_allowed_time" && o.plannedAt == o.windowStart == o.windowEnd == 0
       else && o.missedReason == "" && allowed != []
            && Interval(o.windowStart, o.windowEnd) == ReportedWindow(z, date, WindowBefore(cfg, m), allowed)
  }

  /** For an accepted configuration with something to do on the date: the plan is made for exactly the minutes on the
      window grid, inside work and not skipped. The period indices number them in increasing order, and for each of
      them the plan holds every scheduled account exactly once and nothing else. */
  lemma PlanIsMadeForTheGrid(cfg: Config, known: set<string>, z: Zone, date: Date, rank: Rank) returns (minutes: seq<int>)
    requires ValidConfig(cfg, known, true) && Active(cfg, date)
    ensures ParsePeriods(cfg.workPeriods).Some? && ParsePeriods(cfg.blackoutPeriods).Some? && cfg.span.Some?
    ensures Increasing(minutes)
    ensures forall m :: m in minutes <==> GetsWindows(cfg, ParsePeriods(cfg.workPeriods).value, m)
    ensures PlanFor(cfg, Some(z), date, rank).Planned?
    ensures var plan := PlanFor(cfg, Some(z), date, rank).occurrences;
            && |plan| == |minutes| * |cfg.scheduledAccountKeys|
            && (forall n: nat, key :: TimesPlanned(plan, n, key)
                  == if n < |minutes| && key in cfg.scheduledAccountKeys then 1 else 0)
            && (forall i :: 0 <= i < |plan| ==>
                  && plan[i].periodIndex < |minutes|
                  && 0 <= WindowBefore(cfg, minutes[plan[i].periodIndex]).start
                  && BelongsTo(cfg, z, date, plan[i], plan[i].periodIndex, minutes[plan[i].periodIndex]))
  {
    AcceptedParses(cfg, known);
    AcceptedAnchors(cfg, known);
    ValidConfigPlans(cfg, known, z, date, rank);
    minutes := AnchorsOf(cfg);
    var plan := PlanFor(cfg, Some(z), date, rank).occurrences;
    assert plan == DayPlan(cfg, z, date, rank);
    forall n: nat, key
      ensures TimesPlanned(plan, n, key) == if n < |minutes| && key in cfg.scheduledAccountKeys then 1 else 0
    {
      EveryAccountOncePerDay(cfg, known, z, date, rank, n, key);
    }
    EveryAccountOncePerDay(cfg, known, z, date, rank, 0, "");
    forall i | 0 <= i < |plan|
      ensures plan[i].periodIndex < |minutes|
      ensures 0 <= WindowBefore(cfg, minutes[plan[i].periodIndex]).start
      ensures BelongsTo(cfg, z, date, plan[i], plan[i].periodIndex, minutes[plan[i].periodIndex])
    {
      OneBelongs(cfg, known, z, date, rank, i);
    }
  }

  lemma OneBelongs(cfg: Config, known: set<string>, z: Zone, date: Date, rank: Rank, i: nat)
    requires ValidConfig(cfg, known, true) && i < |DayPlan(cfg, z, date, rank)|
    ensures ParsePeriods(cfg.workPeriods).Some? && SkipMinutes(cfg.skipWindowTimes).Some? && cfg.workPeriods != []
    ensures cfg.lead.Some? && cfg.span.Some? && ParsePeriods(cfg.blackoutPeriods).Some?
    ensures var o, minutes := DayPlan(cfg, z, date, rank)[i], AnchorsOf(cfg);
            && o.periodIndex < |minutes|
            && 0 <= WindowBefore(cfg, minutes[o.periodIndex]).start < WindowBefore(cfg, minutes[o.periodIndex]).end < DAY
            && BelongsTo(cfg, z, date, o, o.periodIndex, minutes[o.periodIndex])
  {
    var index, place := PlaceInDay(cfg, known, z, date, rank, i);
    var minutes := AnchorsOf(cfg);
    assert WindowBefore(cfg, minutes[index]) == WindowOf(cfg, index);
    var ranked := RankedFor(cfg, date, rank, index);
    assert ranked[place] in multiset(ranked);
    assert multiset(ranked) == multiset(cfg.scheduledAccountKeys);
    NoDurationWithoutIntervals();
  }

  lemma NoDurationWithoutIntervals()
    ensures PositiveDuration([]) == 0
  {
  }

  // ----- the order of the accounts -----

  /** The one text is a prefix of the other, or smaller at the first place where they differ. */
  ghost predicate InTextOrder(a: string, b: string) {
    a <= b || exists k :: SmallerAt(a, b, k)
  }

  ghost predicate SmallerAt(a: string, b: string, k: int) {
    0 <= k < |a| && k < |b| && a[..k] == b[..k] && a[k] < b[k]
  }

  lemma {:induction false} TextOrderIsMeant(a: string, b: string)
    requires StringLeq(a, b)
    ensures InTextOrder(a, b)
  {
    if a != "" {
      if a[0] < b[0] {
        assert SmallerAt(a, b, 0);
      } else {
        TextOrderIsMeant(a[1..], b[1..]);
        if a[1..] <= b[1..] {
          assert a == [a[0]] + a[1..] && b == [b[0]] + b[1..];
        } else {
          var k :| SmallerAt(a[1..], b[1..], k);
          assert a[..k + 1] == [a[0]] + a[1..][..k] && b[..k + 1] == [b[0]] + b[1..][..k];
          assert SmallerAt(a, b, k + 1);
        }
      }
    }
  }

  /** The occurrences of one minute stand in the order of their digests for that occurrence of the day, and of their
      keys where the digests agree. */
  lemma PlanFollowsTheDigests(cfg: Config, known: set<string>, z: Zone, date: Date, rank: Rank, i: nat, j: nat)
    requires ValidConfig(cfg, known, true) && i < j < |DayPlan(cfg, z, date, rank)|
    requires DayPlan(cfg, z, date, rank)[i].periodIndex == DayPlan(cfg, z, date, rank)[j].periodIndex
    ensures var o, p := DayPlan(cfg, z, date, rank)[i], DayPlan(cfg, z, date, rank)[j];
            var occurrence := DateText(date) + "/p" + Itoa(o.periodIndex);
            || rank(occurrence, o.accountKey) < rank(occurrence, p.accountKey)
            || (rank(occurrence, o.accountKey) == rank(occurrence, p.accountKey)
                && InTextOrder(o.accountKey, p.accountKey))
  {
    var index, place := PlaceInDay(cfg, known, z, date, rank, i);
    var index', place' := PlaceInDay(cfg, known, z, date, rank, j);
    var ranked := RankedFor(cfg, date, rank, index);
    var o, p := DayPlan(cfg, z, date, rank)[i], DayPlan(cfg, z, date, rank)[j];
    assert o.periodIndex == index && o.accountKey == ranked[place];
    assert p.periodIndex == index' && p.accountKey == ranked[place'];
    RankedInOrder(cfg.scheduledAccountKeys, rank, LocalOccurrence(DateText(date), index), place, place', ranked);
  }

  lemma RankedInOrder(accounts: seq<string>, rank: Rank, occurrence: string, i: nat, j: nat, ranked: seq<string>)
    requires ranked == RankedAccounts(accounts, rank, occurrence) && i < j < |ranked|
    ensures || rank(occurrence, ranked[i]) < rank(occurrence, ranked[j])
            || (rank(occurrence, ranked[i]) == rank(occurrence, ranked[j]) && InTextOrder(ranked[i], ranked[j]))
  {
    RankingIsTotal(rank, occurrence);
    SortSorts(accounts, RankedBefore(rank, occurrence));
    if StringLeq(ranked[i], ranked[j]) { TextOrderIsMeant(ranked[i], ranked[j]); }
  }

  // ----- the slots -----

  lemma SlotIsTheMiddle(total: int, index: nat, count: nat)
    requires 0 < count && 0 <= total
    ensures 2 * count * Slot(total, index, count) <= total * (2 * index + 1) < 2 * count * (Slot(total, index, count) + 1)
  {
  }

  /** The occurrence belongs to the minute and is planned in the middle of its share of the allowed time. */
  ghost predicate HasItsShare(cfg: Config, z: Zone, date: Date, o: PlannedOccurrence, minute: int, place: nat) {
    && cfg.lead.Some? && cfg.span.Some? && ParsePeriods(cfg.blackoutPeriods).Some?
    && 0 <= WindowBefore(cfg, minute).start
    && BelongsTo(cfg, z, date, o, o.periodIndex, minute)
    && var allowed := AllowedTime(z, date, WindowBefore(cfg, minute), ParsePeriods(cfg.blackoutPeriods).value);
       && allowed != [] && o.plannedAt in Instants(allowed)
       && InTheMiddle(Instants(allowed), allowed[0].start, o.plannedAt, place, |cfg.scheduledAccountKeys|)
  }

  /** With at most one offset change around the day, the allowed time of a minute is divided into as many equal parts as
      there are accounts, and the n-th account of its order is planned in the middle of the n-th part: so much allowed
      time lies before it, rounded down. */
  lemma PlannedInTheMiddle(cfg: Config, known: set<string>, z: Zone, date: Date, rank: Rank, i: nat)
    returns (minute: int, place: nat)
    requires ValidConfig(cfg, known, true) && i < |DayPlan(cfg, z, date, rank)| && AtMostOneChange(z, date.ordinal)
    requires !DayPlan(cfg, z, date, rank)[i].missed
    ensures place < |cfg.scheduledAccountKeys|
    ensures i == DayPlan(cfg, z, date, rank)[i].periodIndex * |cfg.scheduledAccountKeys| + place
    ensures HasItsShare(cfg, z, date, DayPlan(cfg, z, date, rank)[i], minute, place)
  {
    var index;
    OneBelongs(cfg, known, z, date, rank, i);
    index, place := DayOccurrenceLiesInside(cfg, known, z, date, rank, i);
    minute := AnchorsOf(cfg)[index];
    assert WindowBefore(cfg, minute) == WindowOf(cfg, index);
    ShareFromSlot(cfg, known, z, date, DayPlan(cfg, z, date, rank)[i], minute, place);
  }

  lemma ShareFromSlot(cfg: Config, known: set<string>, z: Zone, date: Date, o: PlannedOccurrence, minute: int, place: nat)
    requires ValidConfig(cfg, known, true) && AtMostOneChange(z, date.ordinal) && cfg.scheduledAccountKeys != []
    requires cfg.lead.Some? && cfg.span.Some? && ParsePeriods(cfg.blackoutPeriods).Some?
    requires 0 <= WindowBefore(cfg, minute).start < WindowBefore(cfg, minute).end <= DAY
    requires BelongsTo(cfg, z, date, o, o.periodIndex, minute)
    requires var allowed := AllowedTime(z, date, WindowBefore(cfg, minute), ParsePeriods(cfg.blackoutPeriods).value);
             && allowed != [] && o.plannedAt in Instants(allowed)
             && Count(Instants(allowed), allowed[0].start, o.plannedAt)
                == Slot(TotalDuration(allowed), place, |cfg.scheduledAccountKeys|)
    ensures HasItsShare(cfg, z, date, o, minute, place)
  {
    AllowedIsOrdered(cfg, known, z, date, WindowBefore(cfg, minute));
    SlotLiesInTheMiddle(AllowedTime(z, date, WindowBefore(cfg, minute), ParsePeriods(cfg.blackoutPeriods).value),
                        o.plannedAt, place, |cfg.scheduledAccountKeys|);
  }

  /** The middle of the place-th of so many equal parts of the time lies before the instant, rounded down. */
  ghost predicate InTheMiddle(time: set<Instant>, from: Instant, at: Instant, place: nat, count: nat) {
    var total, before := |time|, Count(time, from, at);
    2 * count * before <= total * (2 * place + 1) < 2 * count * (before + 1)
  }

  lemma SlotLiesInTheMiddle(allowed: seq<Interval>, at: Instant, place: nat, count: nat)
    requires Ordered(allowed) && allowed != [] && 0 < count
    requires Count(Instants(allowed), allowed[0].start, at) == Slot(TotalDuration(allowed), place, count)
    ensures InTheMiddle(Instants(allowed), allowed[0].start, at, place, count)
  {
    DurationIsMeasure(allowed);
    SlotIsTheMiddle(TotalDuration(allowed), place, count);
  }

  lemma AllowedIsOrdered(cfg: Config, known: set<string>, z: Zone, date: Date, window: Interval)
    requires ValidConfig(cfg, known, true) && AtMostOneChange(z, date.ordinal)
    requires ParsePeriods(cfg.blackoutPeriods).Some? && 0 <= window.start < window.end <= DAY
    ensures Ordered(AllowedTime(z, date, window, ParsePeriods(cfg.blackoutPeriods).value))
  {
    AcceptedParses(cfg, known);
    var blackouts := ParsePeriods(cfg.blackoutPeriods).value;
    SubtractCovers(window.start, window.end, blackouts);
    ResolvedAreOrdered(z, date.ordinal, Subtract(window.start, window.end, blackouts));
  }

  // ----- the allowed time -----

  lemma OpenMinuteIsInAPiece(z: Zone, day: int, wall: Interval, m: int)
    requires AtMostOneChange(z, day) && 0 <= wall.start <= m < wall.end < DAY
    requires Resolve(z, day, m).Some? && Resolve(z, day, DAY - 1).Some?
    ensures ResolveWall(z, day, wall).Some?
    ensures ResolveWall(z, day, wall).value.start <= Resolve(z, day, m).value < ResolveWall(z, day, wall).value.end
  {
    FirstValidExists(z, day, wall.start, wall.end, m);
    FirstValidExists(z, day, wall.end, DAY, DAY - 1);
    var i := FirstValidIsFirst(z, day, wall.start, wall.end);
    var j := FirstValidIsFirst(z, day, wall.end, DAY);
    if i < m { ResolutionIsMonotone(z, day, i, m); }
    ResolutionIsMonotone(z, day, m, j);
  }

  lemma {:induction false} FirstValidExists(z: Zone, day: int, from: int, before: int, m: int)
    requires from <= m < before && Resolve(z, day, m).Some?
    ensures FirstValid(z, day, from, before).Some?
    decreases m - from
  {
    if Resolve(z, day, from).None? { FirstValidExists(z, day, from + 1, before, m); }
  }

  /** With at most one offset change around a day that shows its last minute, the first showing of every minute of the
      window that is not blacked out is allowed time, whole. */
  lemma OpenMinutesAreAllowed(z: Zone, date: Date, window: Interval, blackouts: seq<Interval>, m: int, at: Instant)
    requires AtMostOneChange(z, date.ordinal) && Ordered(blackouts)
    requires 0 <= window.start < window.end < DAY && IsOpen(window, blackouts, m)
    requires Resolve(z, date.ordinal, m).Some? && Resolve(z, date.ordinal, DAY - 1).Some?
    requires at / MINUTE == Resolve(z, date.ordinal, m).value
    ensures at in Instants(AllowedTime(z, date, window, blackouts))
  {
    var walls := Subtract(window.start, window.end, blackouts);
    PiecesAreOpen(window, blackouts, m);
    InstantsAt(walls, m);
    var i :| 0 <= i < |walls| && walls[i].start <= m < walls[i].end;
    PiecesLieInside(window, blackouts, i);
    OpenMinuteIsInAPiece(z, date.ordinal, walls[i], m);
    ResolvedPieceIsAllowed(z, date.ordinal, walls, i);
    var allowed, r := AllowedTime(z, date, window, blackouts), ResolveWall(z, date.ordinal, walls[i]).value;
    var k :| 0 <= k < |allowed| && allowed[k] == InNanos(r);
    assert InNanos(r).start <= at < InNanos(r).end;
    InstantsAt(allowed, at);
  }

  lemma PiecesLieInside(window: Interval, blackouts: seq<Interval>, i: nat)
    requires Ordered(blackouts) && window.start < window.end
    requires i < |Subtract(window.start, window.end, blackouts)|
    ensures var piece := Subtract(window.start, window.end, blackouts)[i];
            window.start <= piece.start < piece.end <= window.end
  {
    SubtractCovers(window.start, window.end, blackouts);
  }

  // ----- when there is no plan -----

  ghost predicate AllPeriodsParse(periods: seq<LocalPeriod>) {
    forall i :: 0 <= i < |periods| ==> ParsePeriod(periods[i]).Some?
  }

  lemma SkipsParse(times: seq<string>)
    ensures SkipMinutes(times).Some? <==> forall t :: t in times ==> ParseClock(t).Some?
  {
    if forall t :: t in times ==> ParseClock(t).Some? {
      SkipMinutesParse(times);
    } else {
      var t :| t in times && ParseClock(t).None?;
      var i :| 0 <= i < |times| && times[i] == t;
      SkipMinutesFails(times, i);
    }
  }

  /** Something is selected for the date. */
  ghost predicate IsSelectedFor(cfg: Config, date: Date) {
    cfg.scheduledAccountKeys != [] && cfg.workPeriods != [] && date.weekday in cfg.weekdays
  }

  ghost predicate IsReadable(cfg: Config) {
    && AllPeriodsParse(cfg.workPeriods) && AllPeriodsParse(cfg.blackoutPeriods)
    && forall t :: t in cfg.skipWindowTimes ==> ParseClock(t).Some?
  }

  /** A minute before the end of the last period gets a window that would begin on the day before. */
  ghost predicate SomeWindowLeavesTheDate(cfg: Config)
    requires cfg.lead.Some? && cfg.span.Some? && cfg.workPeriods != [] && ParsePeriods(cfg.workPeriods).Some?
  {
    var work := ParsePeriods(cfg.workPeriods).value;
    exists m :: GetsWindows(cfg, work, m) && m < work[|work| - 1].end && WindowBefore(cfg, m).start < 0
  }

  /** For every configuration, accepted or not: there is no plan exactly if the zone does not load, or something is
      selected and lead or span are missing or not positive, a period or skip time cannot be read, or a window leaves
      the date; and with nothing selected the plan is empty. */
  lemma PlanFailsExactlyWhen(cfg: Config, zone: Option<Zone>, date: Date, rank: Rank)
    ensures PlanFor(cfg, zone, date, rank) == Failed <==>
              || zone.None?
              || (IsSelectedFor(cfg, date)
                  && (|| cfg.lead.None? || cfg.span.None? || cfg.lead.value < 1 || cfg.span.value < 1
                      || !IsReadable(cfg)
                      || (ParsePeriods(cfg.workPeriods).Some? && SomeWindowLeavesTheDate(cfg))))
    ensures zone.Some? && !IsSelectedFor(cfg, date) ==> PlanFor(cfg, zone, date, rank) == Planned([])
  {
    if zone.Some? && IsSelectedFor(cfg, date) && cfg.lead.Some? && cfg.span.Some? {
      ConfigOutcomes.PeriodsParse(cfg.workPeriods);
      ConfigOutcomes.PeriodsParse(cfg.blackoutPeriods);
      SkipsParse(cfg.skipWindowTimes);
      if IsReadable(cfg) && cfg.lead.value >= 1 && cfg.span.value >= 1 {
        ReadableFailsExactlyWhen(cfg, zone.value, date, rank);
      }
    }
  }

  lemma ReadableFailsExactlyWhen(cfg: Config, z: Zone, date: Date, rank: Rank)
    requires cfg.workPeriods != [] && cfg.lead.Some? && cfg.span.Some? && cfg.lead.value >= 1 && cfg.span.value >= 1
    requires ParsePeriods(cfg.workPeriods).Some? && ParsePeriods(cfg.blackoutPeriods).Some?
    requires SkipMinutes(cfg.skipWindowTimes).Some?
    ensures (PlanAnchors(z, date, cfg.lead.value, cfg.span.value, BlackoutsOf(cfg), cfg.scheduledAccountKeys, rank,
                         AnchorsOf(cfg)) == Failed)
            <==> SomeWindowLeavesTheDate(cfg)
  {
    var work, skips := ParsePeriods(cfg.workPeriods).value, SkipMinutes(cfg.skipWindowTimes).value;
    var anchors := AnchorsOf(cfg);
    AnchorsAreTheGrid(work[0].start, work[|work| - 1].end, WindowMinutes(cfg.windowHours), work, skips);
    forall m ensures m in anchors <==> GetsWindows(cfg, work, m) && m < work[|work| - 1].end {
      GridIsWindowGrid(work[0].start, cfg.windowHours, m);
      SkipsAreSkipped(cfg.skipWindowTimes, m);
    }
    if SomeWindowLeavesTheDate(cfg) {
      var m :| m in anchors && WindowBefore(cfg, m).start < 0;
      var i :| 0 <= i < |anchors| && anchors[i] == m;
      BadAnchorFails(z, date, cfg.lead.value, cfg.span.value, BlackoutsOf(cfg), cfg.scheduledAccountKeys, rank, anchors,
                     i);
    } else {
      forall a | a in anchors ensures 0 <= Preheat(cfg.lead.value, cfg.span.value, a).start {
        assert WindowBefore(cfg, a) == Preheat(cfg.lead.value, cfg.span.value, a);
      }
      GoodAnchorsPlan(z, date, cfg.lead.value, cfg.span.value, BlackoutsOf(cfg), cfg.scheduledAccountKeys, rank, anchors);
    }
  }
}
