/** When moving the anchor of the usage windows ahead of the work can lose coverage, and when it cannot. */
module NetGain {
  import opened Domain
  import opened Intervals
  import opened Simulator

  ghost predicate StartsAt(work: set<Instant>, first: Instant) {
    first in work && forall t :: t in work ==> first <= t
  }

  /** Whatever work starts at `first`, the earlier anchor makes at least as much of it available. */
  ghost predicate NeverLoses(anchor: Instant, first: Instant, cycle: int, budget: int)
    requires 0 < cycle
  {
    forall work: set<Instant> :: StartsAt(work, first) ==>
      |AvailableWork(work, first, cycle, budget)| <= |AvailableWork(work, anchor, cycle, budget)|
  }

  // ----- only the phase of the anchor matters -----

  lemma {:induction false} AtLeastOnce(cycle: int, e: int)
    requires 0 < cycle && 0 < e
    ensures cycle <= cycle * e
    decreases e
  {
    if e > 1 { AtLeastOnce(cycle, e - 1); }
  }

  lemma SmallMultiple(cycle: int, e: int)
    requires 0 < cycle && -cycle < cycle * e < cycle
    ensures e == 0
  {
    if e > 0 { AtLeastOnce(cycle, e); }
    if e < 0 { AtLeastOnce(cycle, -e); }
  }

  lemma ModStep(x: int, cycle: int)
    requires 0 < cycle <= x
    ensures (x - cycle) % cycle == x % cycle
  {
    var q, q' := x / cycle, (x - cycle) / cycle;
    assert cycle * (q - 1 - q') == cycle * q - cycle - cycle * q';
    SmallMultiple(cycle, q - 1 - q');
  }

  lemma {:induction false} CycleStartPhase(anchor: Instant, cycle: int, t: Instant)
    requires 0 < cycle && anchor <= t
    ensures t - CycleStart(anchor, cycle, t) == (t - anchor) % cycle
    decreases t - anchor
  {
    if anchor + cycle <= t {
      CycleStartPhase(anchor + cycle, cycle, t);
      ModStep(t - anchor, cycle);
    }
  }

  /** Cycles that end before the work starts change nothing. */
  lemma {:induction false} EmptyCyclesDrop(work: set<Instant>, anchor: Instant, first: Instant, cycle: int, budget: int)
    requires 0 < cycle && anchor <= first && forall t :: t in work ==> first <= t
    ensures AvailableWork(work, anchor, cycle, budget)
         == AvailableWork(work, CycleStart(anchor, cycle, first), cycle, budget)
    decreases first - anchor
  {
    if anchor + cycle <= first {
      var next := anchor + cycle;
      EmptyCyclesDrop(work, next, first, cycle, budget);
      FirstCycleSplitsOff(work, anchor, next, cycle, budget);
      assert Used(work, anchor, next, budget) == {};
    }
  }

  // ----- the work that loses -----

  /** A little work at the first instant, and later work around a boundary of the windows that start with it: `p`
      instants before the boundary and `q` after it. */
  function Straddling(first: Instant, boundary: Instant, m: int, p: int, q: int): seq<Interval> {
    [Interval(first, first + m), Interval(boundary - p, boundary + q)]
  }

  lemma StraddlingInstants(first: Instant, boundary: Instant, m: int, p: int, q: int)
    ensures Instants(Straddling(first, boundary, m, p, q))
         == Range(first, first + m) + Range(boundary - p, boundary + q)
  {
    SingleInstants(Interval(first, first + m));
    InstantsPushed([Interval(first, first + m)], Interval(boundary - p, boundary + q));
    assert Straddling(first, boundary, m, p, q)
        == [Interval(first, first + m)] + [Interval(boundary - p, boundary + q)];
  }

  lemma ThreeCycles(work: set<Instant>, anchor: Instant, cycle: int, budget: int, end: Instant)
    requires 0 < cycle && anchor + 2 * cycle < end <= anchor + 3 * cycle
    ensures BudgetedWork(work, anchor, cycle, budget, end)
         == Min(budget, Count(work, anchor, anchor + cycle))
            + Min(budget, Count(work, anchor + cycle, anchor + 2 * cycle))
            + Min(budget, Count(work, anchor + 2 * cycle, anchor + 3 * cycle))
  {
    var second, third, stop := anchor + cycle, anchor + 2 * cycle, anchor + 3 * cycle;
    assert second + cycle == third && third + cycle == stop;
    assert BudgetedWork(work, stop, cycle, budget, end) == 0;
    assert BudgetedWork(work, third, cycle, budget, end) == Min(budget, Count(work, third, stop)) + 0;
  }

  lemma CountBetween(work: set<Instant>, lo: Instant, from: Instant, to: Instant, hi: Instant)
    requires lo <= from <= to <= hi
    requires forall t :: lo <= t < hi ==> (t in work <==> from <= t < to)
    ensures Count(work, lo, hi) == to - from
  {
    CountSkips(work, lo, lo, from);
    CountRuns(work, lo, from, to);
    CountSkips(work, lo, to, hi);
  }

  lemma StraddlingFromItsStart(
    work: set<Instant>, first: Instant, boundary: Instant, cycle: int, budget: int, m: int, p: int, q: int)
    requires boundary == first + 2 * cycle && work == Range(first, first + m) + Range(boundary - p, boundary + q)
    requires 0 < m <= budget && 0 < p <= budget && 0 < q <= budget && m <= cycle && p < cycle && q <= cycle
    ensures |AvailableWork(work, first, cycle, budget)| == m + p + q
  {
    var end := boundary + q;
    AvailableTotal(work, first, cycle, budget, end);
    ThreeCycles(work, first, cycle, budget, end);
    CountBetween(work, first, first, first + m, first + cycle);
    CountBetween(work, first + cycle, boundary - p, boundary, boundary);
    CountBetween(work, boundary, boundary, boundary + q, first + 3 * cycle);
  }

  lemma StraddlingFromAnEarlierAnchor(
    work: set<Instant>, start: Instant, first: Instant, boundary: Instant, cycle: int, budget: int,
    m: int, p: int, q: int)
    requires boundary == first + 2 * cycle && work == Range(first, first + m) + Range(boundary - p, boundary + q)
    requires start < first && 0 < m <= budget && first + m <= start + cycle
    requires 0 < p <= first - start && 0 < q <= start + cycle - first && budget < p + q
    ensures |AvailableWork(work, start, cycle, budget)| == m + budget
  {
    var end := boundary + q;
    AvailableTotal(work, start, cycle, budget, end);
    ThreeCycles(work, start, cycle, budget, end);
    CountBetween(work, start, first, first + m, start + cycle);
    CountBetween(work, start + cycle, start + cycle, start + cycle, start + 2 * cycle);
    CountBetween(work, start + 2 * cycle, boundary - p, boundary + q, start + 3 * cycle);
  }

  /** Work that an anchor inside the window before it serves worse: each side of the boundary within the budget, both
      together beyond it, and both in one window of the earlier anchor. */
  function LosingWork(anchor: Instant, first: Instant, cycle: int, budget: int, m: int): seq<Interval>
    requires 0 < cycle && anchor <= first
  {
    var start := CycleStart(anchor, cycle, first);
    Straddling(first, first + 2 * cycle, m, Min(first - start, budget), Min(start + cycle - first, budget))
  }

  lemma LosingWorkIsServedWorse(anchor: Instant, first: Instant, cycle: int, budget: int, m: int)
    requires 0 < m <= budget < cycle && anchor <= first
    requires var start := CycleStart(anchor, cycle, first); start < first && first + m <= start + cycle
    ensures var work := Instants(LosingWork(anchor, first, cycle, budget, m));
            var start := CycleStart(anchor, cycle, first);
            && |AvailableWork(work, anchor, cycle, budget)| == m + budget
            && |AvailableWork(work, first, cycle, budget)|
               == m + Min(first - start, budget) + Min(start + cycle - first, budget) > m + budget
  {
    var start, boundary := CycleStart(anchor, cycle, first), first + 2 * cycle;
    var p, q := Min(first - start, budget), Min(start + cycle - first, budget);
    var work := Instants(LosingWork(anchor, first, cycle, budget, m));
    StraddlingInstants(first, boundary, m, p, q);
    StraddlingFromItsStart(work, first, boundary, cycle, budget, m, p, q);
    StraddlingFromAnEarlierAnchor(work, start, first, boundary, cycle, budget, m, p, q);
    EmptyCyclesDrop(work, anchor, first, cycle, budget);
  }

  lemma EarlierPhaseLoses(anchor: Instant, first: Instant, cycle: int, budget: int)
    requires 0 < budget < cycle && anchor <= first && (first - anchor) % cycle != 0
    ensures !NeverLoses(anchor, first, cycle, budget)
  {
    var start, work := CycleStart(anchor, cycle, first), LosingWork(anchor, first, cycle, budget, 1);
    CycleStartPhase(anchor, cycle, first);
    LosingWorkIsServedWorse(anchor, first, cycle, budget, 1);
    StraddlingInstants(
      first, first + 2 * cycle, 1, Min(first - start, budget), Min(start + cycle - first, budget));
    assert StartsAt(Instants(work), first);
  }

  /** An earlier anchor never loses coverage, whatever the work, if and only if the budget lasts a whole window or the
      anchor is a whole number of windows ahead. */
  lemma NeverLosesExactlyWhen(anchor: Instant, first: Instant, cycle: int, budget: int)
    requires 0 < cycle && 0 < budget && anchor <= first
    ensures NeverLoses(anchor, first, cycle, budget) <==> cycle <= budget || (first - anchor) % cycle == 0
  {
    if cycle <= budget {
      forall work: set<Instant> | StartsAt(work, first)
        ensures |AvailableWork(work, first, cycle, budget)| <= |AvailableWork(work, anchor, cycle, budget)|
      {
        FullBudgetCoversAllWork(work, anchor, cycle, budget);
        FullBudgetCoversAllWork(work, first, cycle, budget);
      }
    } else if (first - anchor) % cycle == 0 {
      CycleStartPhase(anchor, cycle, first);
      forall work: set<Instant> | StartsAt(work, first)
        ensures |AvailableWork(work, first, cycle, budget)| <= |AvailableWork(work, anchor, cycle, budget)|
      {
        EmptyCyclesDrop(work, anchor, first, cycle, budget);
      }
    } else {
      EarlierPhaseLoses(anchor, first, cycle, budget);
    }
  }

  // ----- short work -----

  /** However the work falls into cycles, at least one budget of it is available. */
  lemma {:induction false} OneBudgetIsAvailable(
    work: set<Instant>, anchor: Instant, cycle: int, budget: int, end: Instant)
    requires 0 < cycle && 0 <= budget && forall t :: t in work ==> t < end
    ensures BudgetedWork(work, anchor, cycle, budget, end) >= Min(budget, Count(work, anchor, end))
    decreases end - anchor
  {
    if anchor < end {
      var next := anchor + cycle;
      OneBudgetIsAvailable(work, next, cycle, budget, end);
      if next <= end {
        CountSplits(work, anchor, next, end);
      } else {
        CountSkips(work, anchor, end, next);
      }
    }
  }

  /** Work that fits into the first window loses nothing to an earlier anchor. */
  lemma ShortWorkNeverLoses(work: set<Instant>, anchor: Instant, first: Instant, cycle: int, budget: int)
    requires 0 < cycle && 0 < budget && anchor <= first
    requires forall t :: t in work ==> first <= t < first + cycle
    ensures |AvailableWork(work, first, cycle, budget)| <= |AvailableWork(work, anchor, cycle, budget)|
  {
    var end := first + cycle;
    AvailableTotal(work, first, cycle, budget, end);
    AvailableTotal(work, anchor, cycle, budget, end);
    OneBudgetIsAvailable(work, anchor, cycle, budget, end);
    CountSplits(work, anchor, first, end);
    assert BudgetedWork(work, end, cycle, budget, end) == 0;
  }

  // ----- what a simulation reports -----

  /** The net gain a simulation reports is the difference of what the two anchors make available, in whole minutes. */
  lemma NetGainIs(s: Simulation, work: seq<Interval>, anchor: Instant, resolved: seq<Interval>,
                  occurrences: seq<Planned>, day: Day, cycle: int, budget: int)
    requires 0 < cycle && IsSimulation(s, resolved, occurrences, day, cycle, budget)
    requires IsBasis(work, anchor, resolved, occurrences, day) && work != []
    ensures s.netGain == WholeMinutes(|AvailableWork(DayWork(resolved, day), anchor, cycle, budget)|)
                         - WholeMinutes(|AvailableWork(DayWork(resolved, day), work[0].start, cycle, budget)|)
  {
    var w, a :| IsBasis(w, a, resolved, occurrences, day) && Reports(s, w, a, cycle, budget, day);
    CanonicalIsUnique(w, work);
    AnchorIsUnique(a, anchor, occurrences, day.start, work[0].start);
  }

  lemma AnchorIsUnique(a: Instant, b: Instant, occurrences: seq<Planned>, dayStart: Instant, first: Instant)
    requires IsScheduledAnchor(a, occurrences, dayStart, first) && IsScheduledAnchor(b, occurrences, dayStart, first)
    ensures a == b
  {
  }

  ghost predicate CannotLose(work: seq<Interval>, anchor: Instant, cycle: int, budget: int)
    requires 0 < cycle && work != []
  {
    || cycle <= budget
    || (work[0].start - anchor) % cycle == 0
    || work[|work| - 1].end <= work[0].start + cycle
  }

  lemma CannotLoseIsMeant(work: seq<Interval>, anchor: Instant, cycle: int, budget: int)
    requires 0 < cycle && 0 < budget && Separated(work) && work != [] && anchor <= work[0].start
    requires CannotLose(work, anchor, cycle, budget)
    ensures |AvailableWork(Instants(work), work[0].start, cycle, budget)|
         <= |AvailableWork(Instants(work), anchor, cycle, budget)|
  {
    var all, first := Instants(work), work[0].start;
    forall t | t in all ensures first <= t < work[|work| - 1].end { OrderedInstantsBeforeEnd(work, t); }
    if work[|work| - 1].end <= first + cycle {
      ShortWorkNeverLoses(all, anchor, first, cycle, budget);
    } else {
      FirstEndIsUncovered(work);
      assert StartsAt(all, first);
      NeverLosesExactlyWhen(anchor, first, cycle, budget);
    }
  }

  /** A simulation whose budget lasts a whole window, whose scheduled anchor is a whole number of windows ahead, or
      whose work fits into the first window reports no loss. */
  lemma NetGainIsNotNegative(s: Simulation, work: seq<Interval>, anchor: Instant, resolved: seq<Interval>,
                             occurrences: seq<Planned>, day: Day, cycle: int, budget: int)
    requires 0 < cycle && 0 < budget && IsSimulation(s, resolved, occurrences, day, cycle, budget)
    requires IsBasis(work, anchor, resolved, occurrences, day) && work != []
    requires CannotLose(work, anchor, cycle, budget)
    ensures s.netGain >= 0
  {
    NetGainIs(s, work, anchor, resolved, occurrences, day, cycle, budget);
    CannotLoseIsMeant(work, anchor, cycle, budget);
    MinutesGrow(|AvailableWork(Instants(work), work[0].start, cycle, budget)|,
                |AvailableWork(Instants(work), anchor, cycle, budget)|);
  }

  lemma MinutesGrow(a: int, b: int)
    requires a <= b
    ensures WholeMinutes(a) <= WholeMinutes(b)
  {
  }

  // ----- days that lose -----

  lemma {:induction false} WholeMinutesAhead(anchor: Instant, first: Instant, cycle: int)
    requires 0 < cycle && cycle % MINUTE == 0 && anchor <= first && (first - anchor) % MINUTE == 0
    ensures (first - CycleStart(anchor, cycle, first)) % MINUTE == 0
    decreases first - anchor
  {
    if anchor + cycle <= first { WholeMinutesAhead(anchor + cycle, first, cycle); }
  }

  lemma DayWorkIsAllWork(work: seq<Interval>, day: Day)
    requires Separated(work) && work != [] && day.start <= work[0].start && work[|work| - 1].end <= day.end
    ensures DayWork(work, day) == Instants(work)
  {
    WorkWithinDay(work, day.start, day.end);
  }

  /** The net gain of a day that holds all the work and has one preheat before it. */
  lemma NetGainOfWork(s: Simulation, work: seq<Interval>, anchor: Instant, first: Instant, day: Day, cycle: int,
                      budget: int, shifted: int, baseline: int)
    requires Separated(work) && work != [] && ZERO_TIME < day.start <= anchor <= first == work[0].start
    requires work[|work| - 1].end <= day.end
    requires 0 < cycle && IsSimulation(s, work, [Planned(false, anchor)], day, cycle, budget)
    requires WholeMinutes(|AvailableWork(Instants(work), anchor, cycle, budget)|) == shifted
    requires WholeMinutes(|AvailableWork(Instants(work), first, cycle, budget)|) == baseline
    ensures s.netGain == shifted - baseline
  {
    DayWorkIsAllWork(work, day);
    PreheatIsTheAnchor(anchor, day.start, work[0].start);
    NetGainIs(s, work, anchor, work, [Planned(false, anchor)], day, cycle, budget);
  }

  lemma LosingWorkFits(anchor: Instant, first: Instant, cycle: int, budget: int, m: int)
    requires 0 < m <= budget < cycle && anchor <= first
    requires var start := CycleStart(anchor, cycle, first); start < first && first + m <= start + cycle
    ensures var work := LosingWork(anchor, first, cycle, budget, m);
            Separated(work) && work != [] && work[0].start == first
            && work[|work| - 1].end <= first + 2 * cycle + budget
  {
  }

  /** The other half, at whole minutes and for whole simulations: whenever the budget is shorter than a window and the
      preheat is not a whole number of windows ahead, a day that reaches far enough has work for which every
      simulation reports a loss. */
  lemma SomeWorkReportsALoss(s: Simulation, anchor: Instant, first: Instant, day: Day, cycle: int, budget: int)
    requires 0 < budget < cycle && cycle % MINUTE == 0 && budget % MINUTE == 0
    requires ZERO_TIME < day.start <= anchor <= first && first + 2 * cycle + budget <= day.end
    requires (first - anchor) % MINUTE == 0 && (first - anchor) % cycle != 0
    requires IsSimulation(s, LosingWork(anchor, first, cycle, budget, MINUTE), [Planned(false, anchor)], day, cycle,
                          budget)
    ensures s.netGain < 0
  {
    var work := LosingWork(anchor, first, cycle, budget, MINUTE);
    LosingWorkInMinutes(anchor, first, cycle, budget, work);
    NetGainOfWork(s, work, anchor, first, day, cycle, budget,
                  WholeMinutes(|AvailableWork(Instants(work), anchor, cycle, budget)|),
                  WholeMinutes(|AvailableWork(Instants(work), first, cycle, budget)|));
  }

  lemma LosingWorkInMinutes(anchor: Instant, first: Instant, cycle: int, budget: int, work: seq<Interval>)
    requires 0 < budget < cycle && cycle % MINUTE == 0 && budget % MINUTE == 0 && anchor <= first
    requires (first - anchor) % MINUTE == 0 && (first - anchor) % cycle != 0
    requires work == LosingWork(anchor, first, cycle, budget, MINUTE)
    ensures Separated(work) && work != [] && work[0].start == first
    ensures work[|work| - 1].end <= first + 2 * cycle + budget
    ensures WholeMinutes(|AvailableWork(Instants(work), anchor, cycle, budget)|)
          < WholeMinutes(|AvailableWork(Instants(work), first, cycle, budget)|)
  {
    var start := CycleStart(anchor, cycle, first);
    CycleStartPhase(anchor, cycle, first);
    WholeMinutesAhead(anchor, first, cycle);
    MinutesFit(first - start, cycle);
    LosingWorkFits(anchor, first, cycle, budget, MINUTE);
    LosingWorkIsServedWorse(anchor, first, cycle, budget, MINUTE);
    MinutesApart(first - start, start + cycle - first, cycle, budget);
  }

  lemma MinutesFit(gap: int, cycle: int)
    requires 0 < gap < cycle && gap % MINUTE == 0 && cycle % MINUTE == 0
    ensures gap + MINUTE <= cycle
  {
  }

  lemma PreheatIsTheAnchor(anchor: Instant, dayStart: Instant, first: Instant)
    requires ZERO_TIME < dayStart <= anchor <= first
    ensures IsScheduledAnchor(anchor, [Planned(false, anchor)], dayStart, first)
  {
    assert Planned(false, anchor) in [Planned(false, anchor)];
  }

  lemma MinutesApart(p: int, q: int, cycle: int, budget: int)
    requires 0 < p && 0 < q && 0 < budget < Min(p, budget) + Min(q, budget)
    requires p % MINUTE == 0 && cycle % MINUTE == 0 && p + q == cycle && budget % MINUTE == 0
    ensures WholeMinutes(MINUTE + budget) < WholeMinutes(MINUTE + Min(p, budget) + Min(q, budget))
  {
  }

  // ----- a concrete day -----

  /** A minute of work, and two hours of work four hours later. */
  function SplitWork(at: Instant): seq<Interval> {
    [Interval(at, at + MINUTE), Interval(at + 4 * HOUR, at + 6 * HOUR)]
  }

  lemma SplitWorkInstants(at: Instant)
    ensures Instants(SplitWork(at)) == Range(at, at + MINUTE) + Range(at + 4 * HOUR, at + 6 * HOUR)
  {
    SingleInstants(Interval(at, at + MINUTE));
    InstantsPushed([Interval(at, at + MINUTE)], Interval(at + 4 * HOUR, at + 6 * HOUR));
    assert SplitWork(at) == [Interval(at, at + MINUTE)] + [Interval(at + 4 * HOUR, at + 6 * HOUR)];
  }

  lemma SplitWorkFromItsStart(at: Instant)
    ensures |AvailableWork(Instants(SplitWork(at)), at, 5 * HOUR, 60 * MINUTE)| == 120 * MINUTE
  {
    var budget, cycle, work := 60 * MINUTE, 5 * HOUR, Instants(SplitWork(at));
    SplitWorkInstants(at);
    AvailableTotal(work, at, cycle, budget, at + 6 * HOUR);
    TwoCycles(work, at, cycle, budget, at + 6 * HOUR);
    CountRuns(work, at, at, at + MINUTE);
    CountSkips(work, at, at + MINUTE, at + 4 * HOUR);
    CountRuns(work, at, at + 4 * HOUR, at + 5 * HOUR);
    CountBetween(work, at + 5 * HOUR, at + 5 * HOUR, at + 6 * HOUR, at + 10 * HOUR);
  }

  lemma SplitWorkFromAnEarlierAnchor(at: Instant, early: Instant)
    requires early == at - 90 * MINUTE
    ensures |AvailableWork(Instants(SplitWork(at)), early, 5 * HOUR, 60 * MINUTE)| == 61 * MINUTE
  {
    var budget, cycle, work := 60 * MINUTE, 5 * HOUR, Instants(SplitWork(at));
    SplitWorkInstants(at);
    AvailableTotal(work, early, cycle, budget, at + 6 * HOUR);
    TwoCycles(work, early, cycle, budget, at + 6 * HOUR);
    CountBetween(work, early, at, at + MINUTE, early + cycle);
    CountBetween(work, early + cycle, at + 4 * HOUR, at + 6 * HOUR, early + 2 * cycle);
  }

  lemma TwoCycles(work: set<Instant>, anchor: Instant, cycle: int, budget: int, end: Instant)
    requires 0 < cycle && anchor + cycle < end <= anchor + 2 * cycle
    ensures BudgetedWork(work, anchor, cycle, budget, end)
         == Min(budget, Count(work, anchor, anchor + cycle))
            + Min(budget, Count(work, anchor + cycle, anchor + 2 * cycle))
  {
    var next, stop := anchor + cycle, anchor + 2 * cycle;
    assert next + cycle == stop;
    assert BudgetedWork(work, stop, cycle, budget, end) == 0;
  }

  lemma SplitWorkInMinutes(at: Instant, early: Instant, work: seq<Interval>, cycle: int, budget: int)
    requires early == at - 90 * MINUTE && work == SplitWork(at) && cycle == 5 * HOUR && budget == 60 * MINUTE
    ensures Separated(work) && work != [] && work[0].start == at && work[|work| - 1].end == at + 6 * HOUR
    ensures WholeMinutes(|AvailableWork(Instants(work), early, cycle, budget)|) == 61
    ensures WholeMinutes(|AvailableWork(Instants(work), at, cycle, budget)|) == 120
  {
    SplitWorkFromItsStart(at);
    SplitWorkFromAnEarlierAnchor(at, early);
  }

  /** With five-hour windows and an hour of productivity, a preheat 90 minutes before this work costs 59 minutes of
      coverage on every day that holds it. */
  lemma NetGainCanBeNegative(s: Simulation, at: Instant, day: Day)
    requires ZERO_TIME < day.start <= at - 90 * MINUTE && at + 6 * HOUR <= day.end
    requires IsSimulation(s, SplitWork(at), [Planned(false, at - 90 * MINUTE)], day, 5 * HOUR, 60 * MINUTE)
    ensures s.netGain == -59
  {
    var work, early := SplitWork(at), at - 90 * MINUTE;
    SplitWorkInMinutes(at, early, work, 5 * HOUR, 60 * MINUTE);
    NetGainOfWork(s, work, early, at, day, 5 * HOUR, 60 * MINUTE, 61, 120);
  }
}
