/** What a simulation reports, told from the work of the day, the planned instants and the settings alone. */
module SimulationOutcomes {
  import opened Domain
  import opened Intervals
  import opened Timeline
  import opened Simulator
  import opened NetGain

  /** A duration in whole minutes, rounded down. */
  ghost predicate InMinutes(minutes: int, duration: int) {
    if duration <= 0 then minutes == 0
    else minutes * 60_000_000_000 <= duration < (minutes + 1) * 60_000_000_000
  }

  lemma MinutesAreMeant(duration: int)
    ensures InMinutes(WholeMinutes(duration), duration)
  {
  }

  /** The start of a usage window: a whole number of windows after the anchor. */
  ghost predicate StartsWindow(s: Instant, anchor: Instant, cycle: int)
    requires 0 < cycle
  {
    anchor <= s && (s - anchor) % cycle == 0
  }

  /** The work instants of [lo, hi). */
  ghost function WorkBetween(all: set<Instant>, lo: Instant, hi: Instant): set<Instant> {
    set t | t in all && lo <= t < hi
  }

  /** A work instant is available if its usage window has had less work before it than the budget. */
  ghost predicate IsAvailable(all: set<Instant>, anchor: Instant, cycle: int, budget: int, t: Instant)
    requires 0 < cycle
  {
    && t in all && anchor <= t
    && exists s :: StartsWindow(s, anchor, cycle) && s <= t < s + cycle && |WorkBetween(all, s, t)| < budget
  }

  lemma CountIsWorkBetween(all: set<Instant>, lo: Instant, hi: Instant)
    ensures Count(all, lo, hi) == |WorkBetween(all, lo, hi)|
  {
    CountIsMeasure(all, lo, hi);
    assert WorkBetween(all, lo, hi) == all * Range(lo, hi);
  }

  lemma MultipleReachesOnce(x: int, cycle: int)
    requires 0 < cycle && 0 < x && x % cycle == 0
    ensures cycle <= x
  {
    AtLeastOnce(cycle, x / cycle);
  }

  lemma WindowIsUnique(s: Instant, anchor: Instant, cycle: int, t: Instant)
    requires 0 < cycle && StartsWindow(s, anchor, cycle) && s <= t < s + cycle
    ensures s == CycleStart(anchor, cycle, t)
    decreases s - anchor
  {
    if s == anchor {
    } else {
      MultipleReachesOnce(s - anchor, cycle);
      ModStep(s - anchor, cycle);
      WindowIsUnique(s, anchor + cycle, cycle, t);
    }
  }

  lemma WindowIsFound(anchor: Instant, cycle: int, t: Instant)
    requires 0 < cycle && anchor <= t
    ensures StartsWindow(CycleStart(anchor, cycle, t), anchor, cycle)
    decreases t - anchor
  {
    if anchor + cycle <= t {
      WindowIsFound(anchor + cycle, cycle, t);
      var s := CycleStart(anchor + cycle, cycle, t);
      ModStep(s - anchor, cycle);
    }
  }

  /** The instants made available are exactly those. */
  lemma AvailableIsMeant(all: set<Instant>, anchor: Instant, cycle: int, budget: int, t: Instant)
    requires 0 < cycle
    ensures t in AvailableWork(all, anchor, cycle, budget) <==> IsAvailable(all, anchor, cycle, budget, t)
  {
    if t in all && anchor <= t {
      var s := CycleStart(anchor, cycle, t);
      WindowIsFound(anchor, cycle, t);
      CountIsWorkBetween(all, s, t);
      if r :| StartsWindow(r, anchor, cycle) && r <= t < r + cycle && |WorkBetween(all, r, t)| < budget {
        WindowIsUnique(r, anchor, cycle, t);
      }
    }
  }

  /** The work of the day: the instants of the resolved periods between its bounds. */
  ghost predicate IsWorkOf(all: set<Instant>, resolved: seq<Interval>, day: Day) {
    forall t :: t in all <==>
      day.start <= t < day.end && exists i :: 0 <= i < |resolved| && resolved[i].start <= t < resolved[i].end
  }

  lemma DayWorkIsMeant(resolved: seq<Interval>, day: Day)
    ensures IsWorkOf(DayWork(resolved, day), resolved, day)
  {
    forall t ensures t in DayWork(resolved, day) <==>
      day.start <= t < day.end && exists i :: 0 <= i < |resolved| && resolved[i].start <= t < resolved[i].end
    {
      InstantsAt(resolved, t);
    }
  }

  lemma SameWork(all: set<Instant>, resolved: seq<Interval>, day: Day)
    requires IsWorkOf(all, resolved, day)
    ensures all == DayWork(resolved, day)
  {
    DayWorkIsMeant(resolved, day);
    forall t ensures t in all <==> t in DayWork(resolved, day) {}
  }

  // ----- the strategies -----

  /** The end of the usage windows: the first boundary at or after the end of work, or the end of the day. */
  ghost predicate EndsWindows(stop: Instant, anchor: Instant, cycle: int, end: Instant, day: Day)
    requires 0 < cycle
  {
    exists s :: StartsWindow(s, anchor, cycle) && end <= s && (s == anchor || s - cycle < end)
                && stop == if s < day.end then s else day.end
  }

  lemma LastWindow(anchor: Instant, cycle: int, end: Instant)
    requires 0 < cycle
    ensures var s := CyclesEnd(anchor, cycle, end);
            StartsWindow(s, anchor, cycle) && end <= s && (s == anchor || s - cycle < end)
    decreases end - anchor
  {
    if anchor < end {
      LastWindow(anchor + cycle, cycle, end);
      ModStep(CyclesEnd(anchor + cycle, cycle, end) - anchor, cycle);
    }
  }

  /** What each instant of a segment is. */
  ghost predicate KindTells(kind: Kind, all: set<Instant>, anchor: Instant, cycle: int, budget: int, t: Instant)
    requires 0 < cycle
  {
    && (kind == Available <==> IsAvailable(all, anchor, cycle, budget, t))
    && (kind == Limited <==> t in all && !IsAvailable(all, anchor, cycle, budget, t))
    && (kind == Break <==> t !in all && (exists u :: u in all && u < t) && (exists u :: u in all && t < u))
  }

  /** Segments that follow one another from the start to the end of the day, none empty, no two neighbours alike. */
  ghost predicate FillsDay(s: seq<Segment>, day: Day) {
    && (if s == [] then day.start == day.end else s[0].start == day.start && s[|s| - 1].end == day.end)
    && (forall i :: 0 <= i < |s| ==> s[i].start < s[i].end)
    && (forall i :: 0 <= i < |s| - 1 ==> s[i].end == s[i + 1].start && s[i].kind != s[i + 1].kind)
  }

  ghost predicate CoverageTells(minutes: int, all: set<Instant>, anchor: Instant, cycle: int, budget: int)
    requires 0 < cycle
  {
    exists available: set<Instant> ::
      (forall t :: t in available <==> IsAvailable(all, anchor, cycle, budget, t)) && InMinutes(minutes, |available|)
  }

  ghost predicate IdleTells(minutes: int, all: set<Instant>, end: Instant, anchor: Instant, cycle: int, day: Day)
    requires 0 < cycle
  {
    exists stop :: EndsWindows(stop, anchor, cycle, end, day) && InMinutes(minutes, stop - anchor - |all|)
  }

  ghost predicate TimelineTells(s: seq<Segment>, all: set<Instant>, anchor: Instant, cycle: int, budget: int, day: Day)
    requires 0 < cycle
  {
    && FillsDay(s, day)
    && forall i, t :: 0 <= i < |s| && s[i].start <= t < s[i].end ==>
         KindTells(s[i].kind, all, anchor, cycle, budget, t)
  }

  /** The metrics of a strategy anchored at `anchor`, on a day with work. */
  ghost predicate StrategyTells(m: Metrics, all: set<Instant>, end: Instant, anchor: Instant, cycle: int, budget: int,
                                day: Day)
    requires 0 < cycle
  {
    && CoverageTells(m.coverageMinutes, all, anchor, cycle, budget)
    && IdleTells(m.idleMinutes, all, end, anchor, cycle, day)
    && TimelineTells(m.timeline, all, anchor, cycle, budget, day)
  }

  lemma {:induction false} TilesFill(s: seq<Segment>, lo: Instant, hi: Instant)
    requires Tiles(s, lo, hi)
    ensures if s == [] then lo == hi else s[0].start == lo && s[|s| - 1].end == hi
    ensures forall i :: 0 <= i < |s| - 1 ==> s[i].end == s[i + 1].start
  {
    if |s| > 1 {
      var init := s[..|s| - 1];
      TilesFill(init, lo, s[|s| - 1].start);
      forall i | 0 <= i < |s| - 1 ensures s[i].end == s[i + 1].start {
        if i < |init| - 1 { assert init[i].end == init[i + 1].start; }
      }
    }
  }

  lemma TimelineFills(s: seq<Segment>, work: seq<Interval>, available: seq<Interval>, day: Day)
    requires IsTimeline(s, work, available, day.start, day.end)
    ensures FillsDay(s, day)
  {
    TilesFill(s, day.start, day.end);
    forall i | 0 <= i < |s| ensures s[i].start < s[i].end { TilesBounds(s, day.start, day.end, i); }
  }

  lemma KindIsMeant(work: seq<Interval>, available: seq<Interval>, anchor: Instant, cycle: int, budget: int, t: Instant)
    requires 0 < cycle && Separated(work) && work != []
    requires Instants(available) == AvailableWork(Instants(work), anchor, cycle, budget)
    ensures KindTells(KindAt(work, available, t), Instants(work), anchor, cycle, budget, t)
  {
    var all := Instants(work);
    AvailableIsMeant(all, anchor, cycle, budget, t);
    InstantsAt(work, work[0].start);
    InstantsAt(work, work[|work| - 1].end - 1);
    forall u | u in all ensures work[0].start <= u < work[|work| - 1].end { OrderedInstantsBeforeEnd(work, u); }
  }

  lemma CoverageIsMeant(available: set<Instant>, all: set<Instant>, anchor: Instant, cycle: int, budget: int)
    requires 0 < cycle && available == AvailableWork(all, anchor, cycle, budget)
    ensures CoverageTells(WholeMinutes(|available|), all, anchor, cycle, budget)
  {
    forall t ensures t in available <==> IsAvailable(all, anchor, cycle, budget, t) {
      AvailableIsMeant(all, anchor, cycle, budget, t);
    }
    MinutesAreMeant(|available|);
  }

  lemma IdleIsMeant(work: seq<Interval>, anchor: Instant, cycle: int, day: Day)
    requires 0 < cycle && work != []
    ensures IdleTells(WholeMinutes(IdleTime(work, anchor, cycle, day)), Instants(work), work[|work| - 1].end, anchor,
                      cycle, day)
  {
    var end := work[|work| - 1].end;
    var stop := Min(CyclesEnd(anchor, cycle, end), day.end);
    LastWindow(anchor, cycle, end);
    assert EndsWindows(stop, anchor, cycle, end, day);
    MinutesAreMeant(stop - anchor - |Instants(work)|);
  }

  lemma TimelineIsMeant(s: seq<Segment>, work: seq<Interval>, available: seq<Interval>, anchor: Instant, cycle: int,
                        budget: int, day: Day)
    requires 0 < cycle && Separated(work) && work != [] && IsTimeline(s, work, available, day.start, day.end)
    requires Instants(available) == AvailableWork(Instants(work), anchor, cycle, budget)
    ensures TimelineTells(s, Instants(work), anchor, cycle, budget, day)
  {
    TimelineFills(s, work, available, day);
    forall i, t | 0 <= i < |s| && s[i].start <= t < s[i].end
      ensures KindTells(s[i].kind, Instants(work), anchor, cycle, budget, t)
    {
      KindIsMeant(work, available, anchor, cycle, budget, t);
    }
  }

  lemma MetricsTell(m: Metrics, work: seq<Interval>, anchor: Instant, cycle: int, budget: int, day: Day)
    requires 0 < cycle && Separated(work) && work != [] && MetricsAreRight(m, work, anchor, cycle, budget, day)
    ensures StrategyTells(m, Instants(work), work[|work| - 1].end, anchor, cycle, budget, day)
  {
    var available :| MetricsMatch(m, available, work, anchor, cycle, budget, day);
    CoverageIsMeant(Instants(available), Instants(work), anchor, cycle, budget);
    IdleIsMeant(work, anchor, cycle, day);
    TimelineIsMeant(m.timeline, work, available, anchor, cycle, budget, day);
  }

  // ----- the simulation -----

  /** The earliest instant planned on the day before work, or the start of work. */
  ghost predicate IsEarliest(anchor: Instant, first: Instant, occurrences: seq<Planned>, day: Day) {
    var counting := set o | o in occurrences && !o.missed && o.plannedAt != 0 && day.start <= o.plannedAt :: o.plannedAt;
    anchor in counting + {first} && forall t :: t in counting + {first} ==> anchor <= t
  }

  /** On a day with work every simulation reports the minutes of work, what a strategy anchored at the start of work and
      one anchored at the earliest planned instant before it report, and the difference of their coverage. */
  lemma SimulationTells(s: Simulation, resolved: seq<Interval>, occurrences: seq<Planned>, day: Day, cycle: int,
                        budget: int, all: set<Instant>)
    returns (first: Instant, end: Instant, anchor: Instant)
    requires 0 < cycle && IsSimulation(s, resolved, occurrences, day, cycle, budget)
    requires IsWorkOf(all, resolved, day) && all != {}
    ensures first in all && end - 1 in all && forall t :: t in all ==> first <= t < end
    ensures IsEarliest(anchor, first, occurrences, day)
    ensures InMinutes(s.workMinutes, |all|)
    ensures StrategyTells(s.baseline, all, end, first, cycle, budget, day)
    ensures StrategyTells(s.scheduled, all, end, anchor, cycle, budget, day)
    ensures s.netGain == s.scheduled.coverageMinutes - s.baseline.coverageMinutes
  {
    var work: seq<Interval>;
    work, anchor :| IsBasis(work, anchor, resolved, occurrences, day) && Reports(s, work, anchor, cycle, budget, day);
    SameWork(all, resolved, day);
    first, end := BoundsAndReports(s, work, anchor, occurrences, day, cycle, budget);
  }

  lemma BoundsAndReports(s: Simulation, work: seq<Interval>, anchor: Instant, occurrences: seq<Planned>, day: Day,
                         cycle: int, budget: int)
    returns (first: Instant, end: Instant)
    requires 0 < cycle && Separated(work) && Instants(work) != {} && Reports(s, work, anchor, cycle, budget, day)
    requires work != [] ==> IsScheduledAnchor(anchor, occurrences, day.start, work[0].start)
    ensures var all := Instants(work); first in all && end - 1 in all && forall t :: t in all ==> first <= t < end
    ensures IsEarliest(anchor, first, occurrences, day)
    ensures InMinutes(s.workMinutes, |Instants(work)|)
    ensures StrategyTells(s.baseline, Instants(work), end, first, cycle, budget, day)
    ensures StrategyTells(s.scheduled, Instants(work), end, anchor, cycle, budget, day)
    ensures s.netGain == s.scheduled.coverageMinutes - s.baseline.coverageMinutes
  {
    first, end := work[0].start, work[|work| - 1].end;
    BoundsOfWork(work);
    AnchorIsEarliest(anchor, first, occurrences, day);
    ReportsTell(s, work, anchor, cycle, budget, day);
  }

  lemma AnchorIsEarliest(anchor: Instant, first: Instant, occurrences: seq<Planned>, day: Day)
    requires IsScheduledAnchor(anchor, occurrences, day.start, first)
    ensures IsEarliest(anchor, first, occurrences, day)
  {
  }

  lemma ReportsTell(s: Simulation, work: seq<Interval>, anchor: Instant, cycle: int, budget: int, day: Day)
    requires 0 < cycle && Separated(work) && work != [] && Reports(s, work, anchor, cycle, budget, day)
    ensures InMinutes(s.workMinutes, |Instants(work)|)
    ensures StrategyTells(s.baseline, Instants(work), work[|work| - 1].end, work[0].start, cycle, budget, day)
    ensures StrategyTells(s.scheduled, Instants(work), work[|work| - 1].end, anchor, cycle, budget, day)
    ensures s.netGain == s.scheduled.coverageMinutes - s.baseline.coverageMinutes
  {
    MinutesAreMeant(|Instants(work)|);
    MetricsTell(s.baseline, work, work[0].start, cycle, budget, day);
    MetricsTell(s.scheduled, work, anchor, cycle, budget, day);
  }

  lemma BoundsOfWork(work: seq<Interval>)
    requires Separated(work) && work != []
    ensures var all := Instants(work);
            work[0].start in all && work[|work| - 1].end - 1 in all
            && forall t :: t in all ==> work[0].start <= t < work[|work| - 1].end
  {
    InstantsAt(work, work[0].start);
    InstantsAt(work, work[|work| - 1].end - 1);
    forall t | t in Instants(work) ensures work[0].start <= t < work[|work| - 1].end {
      OrderedInstantsBeforeEnd(work, t);
    }
  }

  /** A day without work reports nothing but idle time that no window covers. */
  lemma FreeDayTells(s: Simulation, resolved: seq<Interval>, occurrences: seq<Planned>, day: Day, cycle: int, budget: int)
    requires 0 < cycle && IsSimulation(s, resolved, occurrences, day, cycle, budget)
    requires IsWorkOf({}, resolved, day)
    ensures s.workMinutes == 0 && s.netGain == 0
    ensures s.baseline.coverageMinutes == 0 && s.baseline.idleMinutes == 0 && FreeTimeline(s.baseline.timeline, day)
    ensures s.scheduled.coverageMinutes == 0 && s.scheduled.idleMinutes == 0 && FreeTimeline(s.scheduled.timeline, day)
  {
    var work, anchor :| IsBasis(work, anchor, resolved, occurrences, day) && Reports(s, work, anchor, cycle, budget, day);
    SameWork({}, resolved, day);
    if work != [] { BoundsOfWork(work); }
    FreeMetrics(s.baseline, ZERO_TIME, cycle, budget, day);
    FreeMetrics(s.scheduled, anchor, cycle, budget, day);
  }

  ghost predicate FreeTimeline(s: seq<Segment>, day: Day) {
    FillsDay(s, day) && forall i :: 0 <= i < |s| ==> s[i].kind == Idle
  }

  lemma FreeMetrics(m: Metrics, anchor: Instant, cycle: int, budget: int, day: Day)
    requires 0 < cycle && MetricsAreRight(m, [], anchor, cycle, budget, day)
    ensures m.coverageMinutes == 0 && m.idleMinutes == 0 && FreeTimeline(m.timeline, day)
  {
    var available :| MetricsMatch(m, available, [], anchor, cycle, budget, day);
    TimelineFills(m.timeline, [], available, day);
    forall i | 0 <= i < |m.timeline| ensures m.timeline[i].kind == Idle {
      assert m.timeline[i].start <= m.timeline[i].start < m.timeline[i].end;
      assert m.timeline[i].kind == KindAt([], available, m.timeline[i].start);
    }
  }
}
