/** The strategy simulator: recurring usage windows fixed in phase by an anchor, one productivity
    budget per window, and a day timeline built by sampling one instant per gap between boundaries. */
module Simulator {
  import opened Domain
  import opened Intervals
  import opened Timeline

  // ----- what one cycle, and all cycles, make available -----

  /** The instants of work in [lo, hi) reached before budget instants of work in [lo, hi) are spent. */
  ghost function Used(work: set<Instant>, lo: Instant, hi: Instant, budget: int): set<Instant> {
    set t | t in work && lo <= t < hi && Count(work, lo, t) < budget
  }

  function Min(a: int, b: int): int { if a <= b then a else b }

  lemma {:induction false} UsedSize(work: set<Instant>, lo: Instant, hi: Instant, budget: int)
    requires 0 <= budget
    ensures |Used(work, lo, hi, budget)| == Min(budget, Count(work, lo, hi))
    decreases hi - lo
  {
    if lo < hi {
      UsedSize(work, lo, hi - 1, budget);
      assert Used(work, lo, hi, budget)
          == Used(work, lo, hi - 1, budget)
               + (if hi - 1 in work && Count(work, lo, hi - 1) < budget then {hi - 1} else {});
    } else {
      assert Used(work, lo, hi, budget) == {};
    }
  }

  /** The start of the cycle, counted from anchor, in which t lies. */
  function CycleStart(anchor: Instant, cycle: int, t: Instant): (s: Instant)
    requires 0 < cycle && anchor <= t
    ensures anchor <= s <= t < s + cycle
    decreases t - anchor
  {
    if t < anchor + cycle then anchor else CycleStart(anchor + cycle, cycle, t)
  }

  /** The work instants from anchor on that find their own cycle's budget not yet spent. */
  ghost function AvailableWork(work: set<Instant>, anchor: Instant, cycle: int, budget: int): set<Instant>
    requires 0 < cycle
  {
    set t | t in work && anchor <= t && Count(work, CycleStart(anchor, cycle, t), t) < budget
  }

  /** The first cycle boundary at or after end. */
  function CyclesEnd(anchor: Instant, cycle: int, end: Instant): (stop: Instant)
    requires 0 < cycle
    ensures anchor <= stop && end <= stop
    decreases end - anchor
  {
    if end <= anchor then anchor else CyclesEnd(anchor + cycle, cycle, end)
  }

  /** Sum, over the cycles that start before end, of min(budget, work inside that cycle). */
  ghost function BudgetedWork(work: set<Instant>, anchor: Instant, cycle: int, budget: int, end: Instant): int
    requires 0 < cycle
    decreases end - anchor
  {
    if end <= anchor then 0
    else Min(budget, Count(work, anchor, anchor + cycle))
         + BudgetedWork(work, anchor + cycle, cycle, budget, end)
  }

  lemma FirstCycleSplitsOff(work: set<Instant>, anchor: Instant, next: Instant, cycle: int, budget: int)
    requires 0 < cycle && next == anchor + cycle
    ensures AvailableWork(work, anchor, cycle, budget)
         == Used(work, anchor, next, budget) + AvailableWork(work, next, cycle, budget)
    ensures |AvailableWork(work, anchor, cycle, budget)|
         == |Used(work, anchor, next, budget)| + |AvailableWork(work, next, cycle, budget)|
  {
    var first, later := Used(work, anchor, next, budget), AvailableWork(work, next, cycle, budget);
    forall t | anchor <= t
      ensures CycleStart(anchor, cycle, t) == if t < next then anchor else CycleStart(next, cycle, t)
    {
    }
    forall t ensures t in AvailableWork(work, anchor, cycle, budget) <==> t in first + later {
    }
    assert AvailableWork(work, anchor, cycle, budget) == first + later;
    UnionSize(first, later);
  }

  /** The total of what is available is the sum of the budgeted cycles. */
  lemma {:induction false} AvailableTotal(
    work: set<Instant>, anchor: Instant, cycle: int, budget: int, end: Instant)
    requires 0 < cycle && 0 <= budget
    requires forall t :: t in work ==> t < end
    ensures |AvailableWork(work, anchor, cycle, budget)| == BudgetedWork(work, anchor, cycle, budget, end)
    decreases end - anchor
  {
    if end <= anchor {
      assert AvailableWork(work, anchor, cycle, budget) == {};
    } else {
      var next := anchor + cycle;
      assert BudgetedWork(work, anchor, cycle, budget, end)
          == Min(budget, Count(work, anchor, next)) + BudgetedWork(work, next, cycle, budget, end);
      AvailableTotal(work, next, cycle, budget, end);
      FirstCycleSplitsOff(work, anchor, next, cycle, budget);
      UsedSize(work, anchor, next, budget);
    }
  }

  /** A budget as long as the cycle never runs out. */
  lemma FullBudgetCoversAllWork(work: set<Instant>, anchor: Instant, cycle: int, budget: int)
    requires 0 < cycle <= budget
    requires forall t :: t in work ==> anchor <= t
    ensures AvailableWork(work, anchor, cycle, budget) == work
  {
    forall t | t in work ensures t in AvailableWork(work, anchor, cycle, budget) {
      var s := CycleStart(anchor, cycle, t);
      CountIsBounded(work, s, t);
    }
  }

  // ----- cycleAvailability -----

  /** How much of a period's overlap with [lo, hi) the remaining budget pays for. */
  ghost function Paid(done: set<Instant>, period: Interval, lo: Instant, hi: Instant, budget: int): int {
    var length := ClipInterval(period, lo, hi).Length();
    if length > 0 then Min(budget - Min(budget, Count(done, lo, hi)), length) else 0
  }

  /** Work before t, with a period that follows everything in done taken in. */
  lemma CountWithPeriod(done: set<Instant>, period: Interval, lo: Instant, hi: Instant, t: Instant)
    requires forall u :: u in done ==> u < period.start
    requires lo <= t <= hi
    ensures var overlap := ClipInterval(period, lo, hi);
            var now := done + Range(period.start, period.end);
            && (t <= overlap.start || overlap.Length() <= 0 ==> Count(now, lo, t) == Count(done, lo, t))
            && (overlap.start <= t && overlap.Length() > 0 ==>
                  Count(now, lo, t) == Count(done, lo, hi) + Min(t, overlap.end) - overlap.start)
  {
    var overlap := ClipInterval(period, lo, hi);
    var now := done + Range(period.start, period.end);
    if t <= overlap.start || overlap.Length() <= 0 {
      CountAgrees(now, done, lo, t);
    }
    if overlap.start <= t && overlap.Length() > 0 {
      var last := Min(t, overlap.end);
      CountSkips(now, lo, last, t);
      CountRuns(now, lo, overlap.start, last);
      CountAgrees(now, done, lo, overlap.start);
      CountSkips(done, lo, overlap.start, hi);
    }
  }

  /** How one more period changes what is left of the budget. */
  lemma NextPeriod(done: set<Instant>, period: Interval, lo: Instant, hi: Instant, budget: int)
    requires forall t :: t in done ==> t < period.start
    requires 0 < budget
    ensures Min(budget, Count(done + Range(period.start, period.end), lo, hi))
         == Min(budget, Count(done, lo, hi)) + Paid(done, period, lo, hi, budget)
  {
    if lo <= hi { CountWithPeriod(done, period, lo, hi, hi); }
  }

  /** How one more period changes what has been used. */
  lemma NextPeriodUsed(done: set<Instant>, period: Interval, lo: Instant, hi: Instant, budget: int)
    requires forall t :: t in done ==> t < period.start
    requires 0 < budget
    ensures var from := ClipInterval(period, lo, hi).start;
            Used(done + Range(period.start, period.end), lo, hi, budget)
            == Used(done, lo, hi, budget) + Range(from, from + Paid(done, period, lo, hi, budget))
  {
    var overlap := ClipInterval(period, lo, hi);
    var now := done + Range(period.start, period.end);
    var end := overlap.start + Paid(done, period, lo, hi, budget);
    forall t ensures t in Used(now, lo, hi, budget) <==>
                     t in Used(done, lo, hi, budget) || overlap.start <= t < end
    {
      if lo <= t < hi { CountWithPeriod(done, period, lo, hi, t); }
    }
  }

  lemma EarlierPeriodsEndBefore(work: seq<Interval>, k: nat)
    requires Separated(work) && k < |work|
    ensures forall t :: t in Instants(work[..k]) ==> t < work[k].start
  {
    forall t | t in Instants(work[..k]) ensures t < work[k].start {
      InstantsAt(work[..k], t);
    }
  }

  /** One cycle served period by period: the intervals made available and the budget left over. */
  function Serve(work: seq<Interval>, window: Interval, budget: int): (seq<Interval>, int) {
    if work == [] then ([], budget)
    else
      var (served, remaining) := Serve(work[..|work| - 1], window, budget);
      var overlap := ClipInterval(work[|work| - 1], window.start, window.end);
      if overlap.Length() <= 0 || remaining <= 0 then (served, remaining)
      else
        var used := Min(overlap.Length(), remaining);
        (served + [Interval(overlap.start, overlap.start + used)], remaining - used)
  }

  lemma ServeLast(work: seq<Interval>, window: Interval, budget: int)
    requires work != []
    ensures var (served, remaining) := Serve(work[..|work| - 1], window, budget);
            var overlap := ClipInterval(work[|work| - 1], window.start, window.end);
            var paid := if overlap.Length() > 0 && remaining > 0 then Min(overlap.Length(), remaining) else 0;
            && Serve(work, window, budget).1 == remaining - paid
            && Instants(Serve(work, window, budget).0)
               == Instants(served) + Range(overlap.start, overlap.start + paid)
  {
    var (served, remaining) := Serve(work[..|work| - 1], window, budget);
    var overlap := ClipInterval(work[|work| - 1], window.start, window.end);
    if overlap.Length() > 0 && remaining > 0 {
      InstantsPushed(served, Interval(overlap.start, overlap.start + Min(overlap.Length(), remaining)));
    } else {
      assert Instants(served) + Range(overlap.start, overlap.start) == Instants(served);
    }
  }

  lemma {:induction false} BudgetLeft(work: seq<Interval>, window: Interval, budget: int)
    requires Separated(work) && 0 < budget
    ensures Serve(work, window, budget).1
         == budget - Min(budget, Count(Instants(work), window.start, window.end))
  {
    if work == [] {
      if window.start <= window.end { CountSkips({}, window.start, window.start, window.end); }
    } else {
      var init, last := work[..|work| - 1], work[|work| - 1];
      EarlierPeriodsEndBefore(work, |work| - 1);
      BudgetLeft(init, window, budget);
      ServeLast(work, window, budget);
      NextPeriod(Instants(init), last, window.start, window.end, budget);
    }
  }

  lemma {:induction false} ServeUsesBudget(work: seq<Interval>, window: Interval, budget: int)
    requires Separated(work) && 0 < budget
    ensures Instants(Serve(work, window, budget).0)
         == Used(Instants(work), window.start, window.end, budget)
  {
    if work == [] {
      assert Used({}, window.start, window.end, budget) == {};
    } else {
      var init, last := work[..|work| - 1], work[|work| - 1];
      EarlierPeriodsEndBefore(work, |work| - 1);
      ServeUsesBudget(init, window, budget);
      BudgetLeft(init, window, budget);
      ServeLast(work, window, budget);
      NextPeriodUsed(Instants(init), last, window.start, window.end, budget);
    }
  }

  /** The inner loop over the work periods of one cycle. */
  method ServeCycle(work: seq<Interval>, window: Interval, budget: int) returns (served: seq<Interval>)
    ensures served == Serve(work, window, budget).0
  {
    served := [];
    var remaining := budget;
    for k := 0 to |work|
      invariant (served, remaining) == Serve(work[..k], window, budget)
    {
      assert work[..k + 1][..k] == work[..k];
      var overlap := ClipInterval(work[k], window.start, window.end);
      if !(overlap.end > overlap.start) || remaining <= 0 {
        continue;
      }
      var used := overlap.end - overlap.start;
      if used > remaining {
        used := remaining;
      }
      served := served + [Interval(overlap.start, overlap.start + used)];
      remaining := remaining - used;
    }
    assert work[..|work|] == work;
  }

  datatype Day = Day(start: Instant, end: Instant)

  function Window(start: Instant, cycle: int, day: Day): Interval {
    ClipInterval(Interval(start, start + cycle), day.start, day.end)
  }

  /** Everything the cycles from start on make available, cycle by cycle. */
  function Pieces(work: seq<Interval>, start: Instant, cycle: int, budget: int, day: Day, end: Instant): seq<Interval>
    requires 0 < cycle
    decreases end - start
  {
    if end <= start then []
    else Serve(work, Window(start, cycle, day), budget).0
         + Pieces(work, start + cycle, cycle, budget, day, end)
  }

  function Frames(start: Instant, cycle: int, day: Day, end: Instant): seq<Interval>
    requires 0 < cycle
    decreases end - start
  {
    if end <= start then [] else [Window(start, cycle, day)] + Frames(start + cycle, cycle, day, end)
  }

  lemma WorkWithinDay(work: seq<Interval>, dayStart: Instant, dayEnd: Instant)
    requires Separated(work) && work != []
    requires dayStart <= work[0].start && work[|work| - 1].end <= dayEnd
    ensures forall t :: t in Instants(work) ==>
              dayStart <= work[0].start <= t < work[|work| - 1].end <= dayEnd
  {
    forall t | t in Instants(work) ensures work[0].start <= t < work[|work| - 1].end {
      OrderedInstantsBeforeEnd(work, t);
    }
  }

  /** Clipping a cycle to the day changes nothing it serves, since all work lies within the day. */
  lemma CycleShare(work: seq<Interval>, start: Instant, next: Instant, budget: int, day: Day)
    requires Separated(work) && 0 < budget && day.start <= start < next
    requires forall t :: t in Instants(work) ==> t < day.end
    ensures Instants(Serve(work, Window(start, next - start, day), budget).0)
         == Used(Instants(work), start, next, budget)
  {
    var window := Window(start, next - start, day);
    ServeUsesBudget(work, window, budget);
    forall t ensures t in Used(Instants(work), window.start, window.end, budget) <==>
                     t in Used(Instants(work), start, next, budget) {
    }
  }

  lemma {:induction false} PiecesAreAvailableWork(
    work: seq<Interval>, start: Instant, cycle: int, budget: int, day: Day, end: Instant)
    requires Separated(work) && 0 < cycle && 0 < budget && day.start <= start
    requires forall t :: t in Instants(work) ==> t < end && t < day.end
    ensures Instants(Pieces(work, start, cycle, budget, day, end))
         == AvailableWork(Instants(work), start, cycle, budget)
    decreases end - start
  {
    if end <= start {
      assert AvailableWork(Instants(work), start, cycle, budget) == {};
    } else {
      var next := start + cycle;
      assert cycle == next - start;
      var served := Serve(work, Window(start, cycle, day), budget).0;
      var later := Pieces(work, next, cycle, budget, day, end);
      assert Pieces(work, start, cycle, budget, day, end) == served + later;
      InstantsAppended(served, later);
      CycleShare(work, start, next, budget, day);
      PiecesAreAvailableWork(work, next, cycle, budget, day, end);
      FirstCycleSplitsOff(Instants(work), start, next, cycle, budget);
    }
  }

  lemma {:induction false} FramesCover(start: Instant, cycle: int, day: Day, end: Instant)
    requires 0 < cycle && day.start <= start
    ensures Instants(Frames(start, cycle, day, end))
         == Range(start, Min(CyclesEnd(start, cycle, end), day.end))
    decreases end - start
  {
    if end <= start {
      assert Range(start, Min(start, day.end)) == {};
    } else {
      var next, stop := start + cycle, CyclesEnd(start, cycle, end);
      FramesCover(next, cycle, day, end);
      assert stop == CyclesEnd(next, cycle, end) >= next;
      SingleInstants(Window(start, cycle, day));
      InstantsAppended([Window(start, cycle, day)], Frames(next, cycle, day, end));
      RangesJoin(start, next, stop, day);
    }
  }

  lemma RangesJoin(start: Instant, next: Instant, stop: Instant, day: Day)
    requires day.start <= start < next <= stop
    ensures var window := Window(start, next - start, day);
            Range(window.start, window.end) + Range(next, Min(stop, day.end)) == Range(start, Min(stop, day.end))
  {
  }

  lemma OneWindow(windows: seq<Interval>, lo: Instant, hi: Instant)
    requires Separated(windows) && lo < hi && Instants(windows) == Range(lo, hi)
    ensures windows == [Interval(lo, hi)]
  {
    SingleInstants(Interval(lo, hi));
    CanonicalIsUnique(windows, [Interval(lo, hi)]);
  }

  /** What one more cycle adds to the pieces and frames collected so far. */
  lemma OneMoreCycle(work: seq<Interval>, start: Instant, cycle: int, budget: int, day: Day, end: Instant,
                     pieces: seq<Interval>, frames: seq<Interval>)
    requires 0 < cycle && start < end
    ensures var window := Window(start, cycle, day);
            && pieces + Pieces(work, start, cycle, budget, day, end)
               == pieces + Serve(work, window, budget).0 + Pieces(work, start + cycle, cycle, budget, day, end)
            && frames + Frames(start, cycle, day, end) == frames + [window] + Frames(start + cycle, cycle, day, end)
  {
  }

  /** The loop over the cycles, before its results are merged. */
  method CollectCycles(work: seq<Interval>, anchor: Instant, cycle: int, budget: int, day: Day, end: Instant)
    returns (pieces: seq<Interval>, frames: seq<Interval>)
    requires 0 < cycle
    ensures pieces == Pieces(work, anchor, cycle, budget, day, end)
    ensures frames == Frames(anchor, cycle, day, end)
  {
    var start := anchor;
    pieces, frames := [], [];
    while start < end
      invariant Pieces(work, anchor, cycle, budget, day, end)
             == pieces + Pieces(work, start, cycle, budget, day, end)
      invariant Frames(anchor, cycle, day, end) == frames + Frames(start, cycle, day, end)
      decreases end - start
    {
      OneMoreCycle(work, start, cycle, budget, day, end, pieces, frames);
      var window := ClipInterval(Interval(start, start + cycle), day.start, day.end);
      frames := frames + [window];
      var served := ServeCycle(work, window, budget);
      pieces := pieces + served;
      start := start + cycle;
    }
  }

  /** The available instants are exactly the work instants whose own cycle still has budget, and the
      windows merge into one interval from the anchor on. */
  method CycleAvailability(work: seq<Interval>, anchor: Instant, cycle: int, budget: int, day: Day)
    returns (available: seq<Interval>, windows: seq<Interval>)
    requires Separated(work) && 0 < cycle && 0 < budget
    requires work != [] ==> day.start <= anchor <= work[0].start && work[|work| - 1].end <= day.end
    ensures work == [] || anchor == ZERO_TIME ==> available == [] && windows == []
    ensures Separated(available)
    ensures work != [] && anchor != ZERO_TIME ==>
              && Instants(available) == AvailableWork(Instants(work), anchor, cycle, budget)
              && windows == [Interval(anchor, Min(CyclesEnd(anchor, cycle, work[|work| - 1].end), day.end))]
  {
    if |work| == 0 || anchor == ZERO_TIME {
      return [], [];
    }
    var end := work[|work| - 1].end;
    var pieces, frames := CollectCycles(work, anchor, cycle, budget, day, end);
    available := MergeIntervals(pieces);
    windows := MergeIntervals(frames);
    WorkWithinDay(work, day.start, day.end);
    PiecesAreAvailableWork(work, anchor, cycle, budget, day, end);
    FramesCover(anchor, cycle, day, end);
    OneWindow(windows, anchor, Min(CyclesEnd(anchor, cycle, end), day.end));
  }

  // ----- Run -----

  datatype Planned = Planned(missed: bool, plannedAt: Instant)

  datatype Metrics = Metrics(coverageMinutes: int, idleMinutes: int, timeline: seq<Segment>)

  datatype Simulation = Simulation(workMinutes: int, baseline: Metrics, scheduled: Metrics, netGain: int)

  datatype Outcome = Simulated(result: Simulation) | InvalidProductivity | InvalidWindowHours

  function WholeMinutes(duration: int): int {
    if duration <= 0 then 0 else duration / MINUTE
  }

  function IdleDuration(windows: seq<Interval>, coverage: int): int {
    var idle := TotalDuration(windows) - coverage;
    if idle < 0 then 0 else idle
  }

  /** The occurrences that may move the scheduled anchor ahead of the first work instant. */
  predicate Counts(o: Planned, dayStart: Instant) {
    !o.missed && o.plannedAt != ZERO_TIME && dayStart <= o.plannedAt
  }

  /** The scheduled anchor: the earliest of the first work instant and the counting preheats. */
  ghost predicate IsScheduledAnchor(anchor: Instant, occurrences: seq<Planned>, dayStart: Instant, first: Instant) {
    && anchor <= first
    && (anchor == first || exists o :: o in occurrences && Counts(o, dayStart) && o.plannedAt == anchor)
    && forall o :: o in occurrences && Counts(o, dayStart) ==> anchor <= o.plannedAt
  }

  method EarliestAnchor(occurrences: seq<Planned>, dayStart: Instant, first: Instant) returns (anchor: Instant)
    ensures IsScheduledAnchor(anchor, occurrences, dayStart, first)
  {
    anchor := first;
    for k := 0 to |occurrences|
      invariant IsScheduledAnchor(anchor, occurrences[..k], dayStart, first)
    {
      var o := occurrences[k];
      assert occurrences[..k + 1] == occurrences[..k] + [o];
      if !o.missed && o.plannedAt != ZERO_TIME && !(o.plannedAt < dayStart) && o.plannedAt < anchor {
        anchor := o.plannedAt;
      }
    }
    assert occurrences[..|occurrences|] == occurrences;
  }

  /** The work instants of the day from which both strategies are computed. */
  ghost function DayWork(resolved: seq<Interval>, day: Day): set<Instant> {
    Instants(resolved) * Range(day.start, day.end)
  }

  method ClipToDay(resolved: seq<Interval>, day: Day) returns (work: seq<Interval>)
    ensures Separated(work) && Instants(work) == DayWork(resolved, day)
  {
    var periods: seq<Interval> := [];
    for k := 0 to |resolved|
      invariant Instants(periods) == DayWork(resolved[..k], day)
    {
      var period := ClipInterval(resolved[k], day.start, day.end);
      ExtendPrefix(resolved, k);
      InstantsPushed(periods, period);
      if period.end > period.start {
        periods := periods + [period];
      }
    }
    assert resolved[..|resolved|] == resolved;
    work := MergeIntervals(periods);
  }

  /** What a strategy anchored at anchor must report about a day with this work, given the canonical
      list of what it makes available. */
  ghost predicate MetricsMatch(
    m: Metrics, available: seq<Interval>, work: seq<Interval>, anchor: Instant, cycle: int, budget: int, day: Day)
    requires 0 < cycle
  {
    && Separated(available)
    && Instants(available) == (if work == [] then {} else AvailableWork(Instants(work), anchor, cycle, budget))
    && IsTimeline(m.timeline, work, available, day.start, day.end)
    && m.coverageMinutes == WholeMinutes(|Instants(available)|)
    && m.coverageMinutes == WholeMinutes(KindLength(m.timeline, Kind.Available))
    && m.idleMinutes == WholeMinutes(IdleTime(work, anchor, cycle, day))
  }

  ghost predicate MetricsAreRight(
    m: Metrics, work: seq<Interval>, anchor: Instant, cycle: int, budget: int, day: Day)
    requires 0 < cycle
  {
    exists available: seq<Interval> :: MetricsMatch(m, available, work, anchor, cycle, budget, day)
  }

  /** Wall-clock time inside the usage windows but outside work. */
  ghost function IdleTime(work: seq<Interval>, anchor: Instant, cycle: int, day: Day): int
    requires 0 < cycle
  {
    if work == [] then 0
    else Min(CyclesEnd(anchor, cycle, work[|work| - 1].end), day.end) - anchor - |Instants(work)|
  }

  /** The clamp in IdleDuration never fires: the windows form one interval that covers all the work. */
  lemma IdleIsNeverClamped(work: seq<Interval>, anchor: Instant, last: Instant)
    requires Separated(work) && work != [] && anchor <= work[0].start && work[|work| - 1].end <= last
    ensures var covered := |Instants([Interval(anchor, last)]) * Instants(work)|;
            IdleDuration([Interval(anchor, last)], covered) == last - anchor - |Instants(work)| >= 0
  {
    var all := Instants(work);
    SingleInstants(Interval(anchor, last));
    DurationPushed([], Interval(anchor, last));
    assert [] + [Interval(anchor, last)] == [Interval(anchor, last)];
    forall t | t in all ensures anchor <= t < last { OrderedInstantsBeforeEnd(work, t); }
    assert Instants([Interval(anchor, last)]) * all == all;
    SubsetSize(all, Range(anchor, last));
    RangeSize(anchor, last);
  }

  lemma SeparatedWithin(s: seq<Interval>, lo: Instant, hi: Instant)
    requires Separated(s) && forall t :: t in Instants(s) ==> lo <= t < hi
    ensures Within(s, lo, hi)
  {
    forall i | 0 <= i < |s| ensures lo <= s[i].start && s[i].start <= s[i].end && s[i].end <= hi {
      InstantsAt(s, s[i].start);
      InstantsAt(s, s[i].end - 1);
    }
  }

  lemma AvailableIsWork(work: seq<Interval>, available: seq<Interval>, day: Day)
    requires Separated(work) && Within(work, day.start, day.end)
    requires Instants(available) <= Instants(work)
    ensures forall t :: t in Instants(available) ==> day.start <= t < day.end
    ensures Instants(work) * Instants(available) * Range(day.start, day.end) == Instants(available)
  {
    forall t | t in Instants(available) ensures day.start <= t < day.end {
      OrderedInstantsBeforeEnd(work, t);
    }
  }

  method Strategy(work: seq<Interval>, anchor: Instant, cycle: int, budget: int, day: Day)
    returns (m: Metrics)
    requires Separated(work) && Within(work, day.start, day.end) && 0 < cycle && 0 < budget
    requires ZERO_TIME < day.start <= day.end
    requires work != [] ==> day.start <= anchor <= work[0].start
    ensures MetricsAreRight(m, work, anchor, cycle, budget, day)
  {
    var available, windows := CycleAvailability(work, anchor, cycle, budget, day);
    var covered := CoverageDuration(windows, work);
    assert Instants(available) <= Instants(work);
    AvailableIsWork(work, available, day);
    SeparatedWithin(available, day.start, day.end);
    var timeline := StrategyTimeline(day.start, day.end, work, available);
    m := Metrics(WholeMinutes(TotalDuration(available)), WholeMinutes(IdleDuration(windows, covered)), timeline);
    DurationIsMeasure(available);
    CoveredLength(timeline, work, available, day.start, day.end);
    if work != [] {
      IdleIsNeverClamped(work, anchor, Min(CyclesEnd(anchor, cycle, work[|work| - 1].end), day.end));
    } else {
      NoWindows(covered);
    }
    assert MetricsMatch(m, available, work, anchor, cycle, budget, day);
  }

  lemma NoWindows(covered: int)
    requires covered >= 0
    ensures IdleDuration([], covered) == 0
  {
  }

  /** The canonical work of the day and, if there is any, the anchor of the scheduled strategy. */
  ghost predicate IsBasis(work: seq<Interval>, anchor: Instant, resolved: seq<Interval>, occurrences: seq<Planned>,
                          day: Day)
  {
    && Separated(work) && Instants(work) == DayWork(resolved, day)
    && (work != [] ==> IsScheduledAnchor(anchor, occurrences, day.start, work[0].start))
  }

  ghost predicate Reports(s: Simulation, work: seq<Interval>, anchor: Instant, cycle: int, budget: int, day: Day)
    requires 0 < cycle
  {
    && s.workMinutes == WholeMinutes(|Instants(work)|)
    && MetricsAreRight(s.baseline, work, if work == [] then ZERO_TIME else work[0].start, cycle, budget, day)
    && MetricsAreRight(s.scheduled, work, anchor, cycle, budget, day)
    && s.netGain == s.scheduled.coverageMinutes - s.baseline.coverageMinutes
  }

  /** What a simulation of a day must report. */
  ghost predicate IsSimulation(s: Simulation, resolved: seq<Interval>, occurrences: seq<Planned>, day: Day,
                               cycle: int, budget: int)
    requires 0 < cycle
  {
    exists work: seq<Interval>, anchor: Instant ::
      IsBasis(work, anchor, resolved, occurrences, day) && Reports(s, work, anchor, cycle, budget, day)
  }

  /** The whole simulation, from resolved work periods and planned occurrences to the reported metrics. */
  method Run(resolved: seq<Interval>, occurrences: seq<Planned>, day: Day,
             productivityMinutes: int, windowHours: int) returns (r: Outcome)
    requires ZERO_TIME < day.start <= day.end
    ensures r == InvalidProductivity <==> productivityMinutes <= 0
    ensures r == InvalidWindowHours <==> 0 < productivityMinutes && !(1 <= windowHours <= 24)
    ensures r.Simulated? ==> IsSimulation(r.result, resolved, occurrences, day,
                                          windowHours * 3_600_000_000_000, productivityMinutes * 60_000_000_000)
  {
    var work := ClipToDay(resolved, day);
    var workMinutes := WholeMinutes(TotalDuration(work));
    if productivityMinutes <= 0 {
      return InvalidProductivity;
    }
    if windowHours < 1 || windowHours > 24 {
      return InvalidWindowHours;
    }
    var cycle, budget := windowHours * HOUR, productivityMinutes * MINUTE;
    var baselineAnchor, scheduledAnchor := ZERO_TIME, ZERO_TIME;
    SeparatedWithin(work, day.start, day.end);
    if |work| > 0 {
      baselineAnchor := work[0].start;
      scheduledAnchor := EarliestAnchor(occurrences, day.start, baselineAnchor);
    }
    var baseline := Strategy(work, baselineAnchor, cycle, budget, day);
    var scheduled := Strategy(work, scheduledAnchor, cycle, budget, day);
    DurationIsMeasure(work);
    r := Simulated(Simulation(workMinutes, baseline, scheduled,
                              scheduled.coverageMinutes - baseline.coverageMinutes));
    assert IsBasis(work, scheduledAnchor, resolved, occurrences, day);
    assert Reports(r.result, work, scheduledAnchor, cycle, budget, day);
  }
}
