/** The theorems about single anchors and slots, for whole day plans of accepted configurations. */
module DayPlans {
  import opened Domain
  import opened Sorting
  import opened Intervals
  import opened LocalTime
  import opened Config
  import opened Planner
  import opened Plans
  import opened Slots
  import opened Blackouts

  /** The configuration plans something on the date, and says when. */
  predicate Active(cfg: Config, date: Date) {
    cfg.scheduledAccountKeys != [] && cfg.workPeriods != [] && date.weekday in cfg.weekdays && cfg.lead.Some?
  }

  /** The anchors of an accepted configuration. */
  ghost function AnchorsOf(cfg: Config): seq<int>
    requires ParsePeriods(cfg.workPeriods).Some? && cfg.workPeriods != [] && SkipMinutes(cfg.skipWindowTimes).Some?
  {
    var work := ParsePeriods(cfg.workPeriods).value;
    Anchors(work[0].start, work[|work| - 1].end, WindowMinutes(cfg.windowHours), work,
            SkipMinutes(cfg.skipWindowTimes).value)
  }

  ghost function BlackoutsOf(cfg: Config): seq<Interval>
    requires ParsePeriods(cfg.blackoutPeriods).Some?
  {
    ParsePeriods(cfg.blackoutPeriods).value
  }

  lemma AcceptedParses(cfg: Config, known: set<string>)
    requires ValidConfig(cfg, known, true)
    ensures ParsePeriods(cfg.workPeriods).Some? && ParsePeriods(cfg.blackoutPeriods).Some?
    ensures SkipMinutes(cfg.skipWindowTimes).Some? && Ordered(ParsePeriods(cfg.blackoutPeriods).value)
    ensures Distinct(cfg.scheduledAccountKeys) && (cfg.lead.Some? <==> cfg.span.Some?)
  {
    SkipMinutesParse(cfg.skipWindowTimes);
  }

  /** The plan of a date, as the plan of its anchors. */
  ghost function DayPlan(cfg: Config, z: Zone, date: Date, rank: Rank): seq<PlannedOccurrence> {
    match PlanFor(cfg, Some(z), date, rank)
    case Planned(occurrences) => occurrences
    case Failed => []
  }

  lemma DayPlanIsAnchors(cfg: Config, known: set<string>, z: Zone, date: Date, rank: Rank)
    requires ValidConfig(cfg, known, true) && Active(cfg, date)
    ensures ParsePeriods(cfg.workPeriods).Some? && ParsePeriods(cfg.blackoutPeriods).Some?
    ensures SkipMinutes(cfg.skipWindowTimes).Some? && cfg.span.Some?
    ensures PlanAnchors(z, date, cfg.lead.value, cfg.span.value, BlackoutsOf(cfg), cfg.scheduledAccountKeys, rank,
                        AnchorsOf(cfg)) == Planned(DayPlan(cfg, z, date, rank))
  {
    AcceptedParses(cfg, known);
    ValidConfigPlans(cfg, known, z, date, rank);
  }

  /** A date without work, accounts or a selected weekday has an empty plan, and a draft without preheat settings
      none at all. */
  lemma NothingPlanned(cfg: Config, known: set<string>, z: Zone, date: Date, rank: Rank)
    requires ValidConfig(cfg, known, true) && !Active(cfg, date)
    ensures DayPlan(cfg, z, date, rank) == []
  {
    AcceptedParses(cfg, known);
  }

  // ----- completeness and identities -----

  /** A day's plan holds every scheduled account exactly once per anchor, and nothing else. */
  lemma EveryAccountOncePerDay(cfg: Config, known: set<string>, z: Zone, date: Date, rank: Rank, index: nat, key: string)
    requires ValidConfig(cfg, known, true) && Active(cfg, date)
    ensures ParsePeriods(cfg.workPeriods).Some? && SkipMinutes(cfg.skipWindowTimes).Some?
    ensures |DayPlan(cfg, z, date, rank)| == |AnchorsOf(cfg)| * |cfg.scheduledAccountKeys|
    ensures TimesPlanned(DayPlan(cfg, z, date, rank), index, key)
            == if index < |AnchorsOf(cfg)| && key in cfg.scheduledAccountKeys then 1 else 0
  {
    AcceptedParses(cfg, known);
    DayPlanIsAnchors(cfg, known, z, date, rank);
    EveryAccountOncePerAnchor(z, date, cfg.lead.value, cfg.span.value, BlackoutsOf(cfg), cfg.scheduledAccountKeys,
                              rank, AnchorsOf(cfg), index, key);
    DistinctOccursOnce(cfg.scheduledAccountKeys, key);
    assert key in cfg.scheduledAccountKeys <==> key in multiset(cfg.scheduledAccountKeys);
  }

  /** No two occurrences of accepted configurations share an identity: neither within one day's plan nor between the
      plans of two dates, even of different configurations in different zones. */
  lemma IdentitiesAreUnique(cfg: Config, known: set<string>, z: Zone, d: Date, i: nat,
                            cfg': Config, known': set<string>, z': Zone, e: Date, j: nat, rank: Rank)
    requires ValidConfig(cfg, known, true) && ValidConfig(cfg', known', true)
    requires i < |DayPlan(cfg, z, d, rank)| && j < |DayPlan(cfg', z', e, rank)|
    requires !SameDate(d, e) || (cfg == cfg' && z == z' && d == e && i != j)
    ensures DayPlan(cfg, z, d, rank)[i].id != DayPlan(cfg', z', e, rank)[j].id
  {
    if !Active(cfg, d) { NothingPlanned(cfg, known, z, d, rank); }
    if !Active(cfg', e) { NothingPlanned(cfg', known', z', e, rank); }
    AcceptedParses(cfg, known);
    AcceptedParses(cfg', known');
    DayPlanIsAnchors(cfg, known, z, d, rank);
    DayPlanIsAnchors(cfg', known', z', e, rank);
    if !SameDate(d, e) {
      PlansOfDifferentDatesAreDisjoint(
        z, d, cfg.lead.value, cfg.span.value, BlackoutsOf(cfg), cfg.scheduledAccountKeys, AnchorsOf(cfg),
        z', e, cfg'.lead.value, cfg'.span.value, BlackoutsOf(cfg'), cfg'.scheduledAccountKeys, AnchorsOf(cfg'),
        rank, i, j);
    } else {
      PlanIdsAreDistinct(z, d, cfg.lead.value, cfg.span.value, BlackoutsOf(cfg), cfg.scheduledAccountKeys, rank,
                         AnchorsOf(cfg));
    }
  }

  // ----- where the occurrences lie -----

  /** The account at one place of an anchor's ranking. */
  function RankedFor(cfg: Config, date: Date, rank: Rank, index: nat): seq<string> {
    RankedAccounts(cfg.scheduledAccountKeys, rank, LocalOccurrence(DateText(date), index))
  }

  lemma LastAnchor(z: Zone, date: Date, lead: int, span: int, blackouts: seq<Interval>,
                   accounts: seq<string>, rank: Rank, anchors: seq<int>, n: nat)
    requires |anchors| == n + 1
    requires PlanAnchors(z, date, lead, span, blackouts, accounts, rank, anchors).Planned?
    ensures 0 <= Preheat(lead, span, anchors[n]).start && 0 < span
    ensures var before := PlanAnchors(z, date, lead, span, blackouts, accounts, rank, anchors[..n]);
            && before.Planned? && |before.occurrences| == n * |accounts|
            && PlanAnchors(z, date, lead, span, blackouts, accounts, rank, anchors).occurrences
               == before.occurrences
                  + AnchorPlan(z, date, n, Preheat(lead, span, anchors[n]), blackouts,
                               RankedAccounts(accounts, rank, LocalOccurrence(DateText(date), n)))
  {
    EveryAccountOncePerAnchor(z, date, lead, span, blackouts, accounts, rank, anchors[..n], 0, "");
  }

  lemma {:induction false} PlaceInPlan(
    z: Zone, date: Date, lead: int, span: int, blackouts: seq<Interval>,
    accounts: seq<string>, rank: Rank, anchors: seq<int>, i: nat)
    returns (index: nat, place: nat)
    requires PlanAnchors(z, date, lead, span, blackouts, accounts, rank, anchors).Planned?
    requires i < |PlanAnchors(z, date, lead, span, blackouts, accounts, rank, anchors).occurrences|
    ensures index < |anchors| && 0 <= Preheat(lead, span, anchors[index]).start && 0 < span
    ensures place < |RankedAccounts(accounts, rank, LocalOccurrence(DateText(date), index))|
    ensures i == index * |accounts| + place
    ensures PlanAnchors(z, date, lead, span, blackouts, accounts, rank, anchors).occurrences[i]
            == AnchorPlan(z, date, index, Preheat(lead, span, anchors[index]), blackouts,
                          RankedAccounts(accounts, rank, LocalOccurrence(DateText(date), index)))[place]
  {
    var n := |anchors| - 1;
    LastAnchor(z, date, lead, span, blackouts, accounts, rank, anchors, n);
    var before := PlanAnchors(z, date, lead, span, blackouts, accounts, rank, anchors[..n]).occurrences;
    if i < |before| {
      index, place := PlaceInPlan(z, date, lead, span, blackouts, accounts, rank, anchors[..n], i);
    } else {
      index, place := n, i - |before|;
    }
  }

  /** The window of one anchor. */
  ghost function WindowOf(cfg: Config, index: nat): Interval
    requires ParsePeriods(cfg.workPeriods).Some? && cfg.workPeriods != [] && SkipMinutes(cfg.skipWindowTimes).Some?
    requires index < |AnchorsOf(cfg)| && cfg.lead.Some? && cfg.span.Some?
  {
    Preheat(cfg.lead.value, cfg.span.value, AnchorsOf(cfg)[index])
  }

  /** Which anchor and which place in its ranking the i-th occurrence of a day's plan belongs to. */
  lemma PlaceInDay(cfg: Config, known: set<string>, z: Zone, date: Date, rank: Rank, i: nat)
    returns (index: nat, place: nat)
    requires ValidConfig(cfg, known, true) && i < |DayPlan(cfg, z, date, rank)|
    ensures Active(cfg, date) && cfg.span.Some?
    ensures ParsePeriods(cfg.workPeriods).Some? && ParsePeriods(cfg.blackoutPeriods).Some?
    ensures SkipMinutes(cfg.skipWindowTimes).Some? && Ordered(BlackoutsOf(cfg))
    ensures index < |AnchorsOf(cfg)| && place < |RankedFor(cfg, date, rank, index)|
    ensures i == index * |cfg.scheduledAccountKeys| + place
    ensures 0 <= WindowOf(cfg, index).start < WindowOf(cfg, index).end < DAY
    ensures DayPlan(cfg, z, date, rank)[i]
            == AnchorPlan(z, date, index, WindowOf(cfg, index), BlackoutsOf(cfg), RankedFor(cfg, date, rank, index))[place]
  {
    if !Active(cfg, date) { NothingPlanned(cfg, known, z, date, rank); }
    AcceptedParses(cfg, known);
    DayPlanIsAnchors(cfg, known, z, date, rank);
    index, place := PlaceInPlan(z, date, cfg.lead.value, cfg.span.value, BlackoutsOf(cfg), cfg.scheduledAccountKeys,
                                rank, AnchorsOf(cfg), i);
    AnchorsLeaveRoom(cfg, ParsePeriods(cfg.workPeriods).value, SkipMinutes(cfg.skipWindowTimes).value,
                     WindowMinutes(cfg.windowHours), AnchorsOf(cfg));
    assert AnchorsOf(cfg)[index] in AnchorsOf(cfg);
  }

  /** Every occurrence of a day's plan is missed exactly when its window has no allowed time, and otherwise lies in
      allowed time, inside its reported window, with exactly its slot of the allowed time before it. */
  lemma DayOccurrenceLiesInside(cfg: Config, known: set<string>, z: Zone, date: Date, rank: Rank, i: nat)
    returns (index: nat, place: nat)
    requires ValidConfig(cfg, known, true) && i < |DayPlan(cfg, z, date, rank)| && AtMostOneChange(z, date.ordinal)
    ensures cfg.lead.Some? && cfg.span.Some? && cfg.workPeriods != []
    ensures ParsePeriods(cfg.workPeriods).Some? && ParsePeriods(cfg.blackoutPeriods).Some?
    ensures SkipMinutes(cfg.skipWindowTimes).Some? && index < |AnchorsOf(cfg)|
    ensures i == index * |cfg.scheduledAccountKeys| + place && place < |cfg.scheduledAccountKeys|
    ensures DayPlan(cfg, z, date, rank)[i].periodIndex == index
    ensures var allowed := AllowedTime(z, date, WindowOf(cfg, index), BlackoutsOf(cfg));
            var o := DayPlan(cfg, z, date, rank)[i];
            && (o.missed <==> allowed == [])
            && (!o.missed ==>
                  && o.plannedAt in Instants(allowed)
                  && o.windowStart <= o.plannedAt < o.windowEnd
                  && cfg.scheduledAccountKeys != []
                  && Count(Instants(allowed), allowed[0].start, o.plannedAt)
                     == Slot(TotalDuration(allowed), place, |cfg.scheduledAccountKeys|))
  {
    index, place := PlaceInDay(cfg, known, z, date, rank, i);
    OccurrenceLiesInside(z, date, index, WindowOf(cfg, index), BlackoutsOf(cfg), RankedFor(cfg, date, rank, index), place);
    RankingKeepsCount(cfg, date, rank, index);
  }

  lemma RankingKeepsCount(cfg: Config, date: Date, rank: Rank, index: nat)
    ensures |RankedFor(cfg, date, rank, index)| == |cfg.scheduledAccountKeys|
  {
    assert |multiset(RankedFor(cfg, date, rank, index))| == |multiset(cfg.scheduledAccountKeys)|;
  }

  /** Two occurrences of one anchor with allowed time for all accounts are planned strictly in plan order. */
  lemma DayIsInRankOrder(cfg: Config, known: set<string>, z: Zone, date: Date, rank: Rank, i: nat, j: nat)
    requires ValidConfig(cfg, known, true) && i < j < |DayPlan(cfg, z, date, rank)| && AtMostOneChange(z, date.ordinal)
    requires DayPlan(cfg, z, date, rank)[i].periodIndex == DayPlan(cfg, z, date, rank)[j].periodIndex
    ensures ParsePeriods(cfg.workPeriods).Some? && ParsePeriods(cfg.blackoutPeriods).Some?
    ensures SkipMinutes(cfg.skipWindowTimes).Some? && cfg.workPeriods != [] && cfg.lead.Some? && cfg.span.Some?
    ensures DayPlan(cfg, z, date, rank)[i].periodIndex < |AnchorsOf(cfg)|
    ensures |cfg.scheduledAccountKeys|
            <= TotalDuration(AllowedTime(z, date, WindowOf(cfg, DayPlan(cfg, z, date, rank)[i].periodIndex),
                                         BlackoutsOf(cfg))) ==>
              DayPlan(cfg, z, date, rank)[i].plannedAt < DayPlan(cfg, z, date, rank)[j].plannedAt
  {
    var index, place := PlaceInDay(cfg, known, z, date, rank, i);
    var index', place' := PlaceInDay(cfg, known, z, date, rank, j);
    assert DayPlan(cfg, z, date, rank)[i].periodIndex == index;
    assert DayPlan(cfg, z, date, rank)[j].periodIndex == index';
    RankingKeepsCount(cfg, date, rank, index);
    if |cfg.scheduledAccountKeys|
       <= TotalDuration(AllowedTime(z, date, WindowOf(cfg, index), BlackoutsOf(cfg))) {
      PlannedInRankOrder(z, date, index, WindowOf(cfg, index), BlackoutsOf(cfg), RankedFor(cfg, date, rank, index),
                         place, place');
    }
  }

  /** Where the clock does not go back around the day, no occurrence of its plan shows a blacked-out minute. */
  lemma DayKeepsBlackouts(cfg: Config, known: set<string>, z: Zone, date: Date, rank: Rank, i: nat)
    requires ValidConfig(cfg, known, true) && i < |DayPlan(cfg, z, date, rank)| && NeverBackward(z, date.ordinal)
    ensures ParsePeriods(cfg.blackoutPeriods).Some?
    ensures var o := DayPlan(cfg, z, date, rank)[i];
            !o.missed ==> ShownMinute(z, date.ordinal, o.plannedAt) !in Instants(BlackoutsOf(cfg))
  {
    var index, place := PlaceInDay(cfg, known, z, date, rank, i);
    if !DayPlan(cfg, z, date, rank)[i].missed {
      NeverInABlackout(z, date, index, WindowOf(cfg, index), BlackoutsOf(cfg), RankedFor(cfg, date, rank, index), place);
    }
  }

  /** With one offset change, blacked-out minutes are kept as long as no allowed piece of a window folds back. */
  lemma DayKeepsBlackoutsUnlessItFolds(cfg: Config, known: set<string>, z: Zone, date: Date, rank: Rank, i: nat,
                                       change: int, early: int, late: int)
    requires ValidConfig(cfg, known, true) && i < |DayPlan(cfg, z, date, rank)|
    requires ChangesAt(z, date.ordinal, change, early, late)
    ensures ParsePeriods(cfg.workPeriods).Some? && ParsePeriods(cfg.blackoutPeriods).Some?
    ensures SkipMinutes(cfg.skipWindowTimes).Some? && cfg.workPeriods != [] && cfg.lead.Some? && cfg.span.Some?
    ensures var o := DayPlan(cfg, z, date, rank)[i];
            && o.periodIndex < |AnchorsOf(cfg)|
            && var window := WindowOf(cfg, o.periodIndex);
               !o.missed && !SomePieceFoldsBack(z, date.ordinal, Subtract(window.start, window.end, BlackoutsOf(cfg)),
                                                change, late) ==>
                 IsOpen(window, BlackoutsOf(cfg), ShownMinute(z, date.ordinal, o.plannedAt))
  {
    var index, place := PlaceInDay(cfg, known, z, date, rank, i);
    assert DayPlan(cfg, z, date, rank)[i].periodIndex == index;
    var window := WindowOf(cfg, index);
    if !SomePieceFoldsBack(z, date.ordinal, Subtract(window.start, window.end, BlackoutsOf(cfg)), change, late) {
      WithoutFoldPlannedIsOpen(z, date, index, window, BlackoutsOf(cfg), change, early, late,
                               RankedFor(cfg, date, rank, index), place);
    }
  }
}
