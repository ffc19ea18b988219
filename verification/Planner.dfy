/** Deriving one occurrence per scheduled account for every window anchor of a local date. */
module Planner {
  import opened Domain
  import opened Sorting
  import opened Intervals
  import opened LocalTime
  import opened Config

  /** A local calendar date: its civil fields, its day number and its weekday (1 is Monday). */
  datatype Date = Date(year: nat, month: nat, dayOfMonth: nat, ordinal: int, weekday: int)

  // ----- rendering -----

  function Digit(n: nat): char
    requires n < 10
  {
    "0123456789"[n]
  }

  function Itoa(n: nat): (s: string)
    ensures |s| >= 1
  {
    if n < 10 then [Digit(n)] else Itoa(n / 10) + [Digit(n % 10)]
  }

  function Zeros(n: int): string
    decreases n
  {
    if n <= 0 then "" else "0" + Zeros(n - 1)
  }

  function Pad(n: nat, width: nat): string {
    Zeros(width - |Itoa(n)|) + Itoa(n)
  }

  function DateText(d: Date): string {
    Pad(d.year, 4) + "-" + Pad(d.month, 2) + "-" + Pad(d.dayOfMonth, 2)
  }

  function LocalOccurrence(date: string, periodIndex: nat): string {
    date + "/p" + Itoa(periodIndex)
  }

  function OccurrenceID(date: string, periodIndex: nat, accountKey: string): string {
    date + "/p" + Itoa(periodIndex) + "/" + accountKey
  }

  // ----- ranking the accounts -----

  /** The SHA-256 digest of an occurrence and an account, read as a number. */
  type Rank = (string, string) -> nat

  predicate StringLeq(a: string, b: string) {
    a == "" || (b != "" && (a[0] < b[0] || (a[0] == b[0] && StringLeq(a[1..], b[1..]))))
  }

  function RankedBefore(rank: Rank, occurrence: string): (string, string) -> bool {
    (a, b) => rank(occurrence, a) < rank(occurrence, b)
              || (rank(occurrence, a) == rank(occurrence, b) && StringLeq(a, b))
  }

  function RankedAccounts(accounts: seq<string>, rank: Rank, occurrence: string): seq<string> {
    Sort(accounts, RankedBefore(rank, occurrence))
  }

  // ----- the window anchors -----

  predicate Inside(work: seq<Interval>, minute: int) {
    exists i :: 0 <= i < |work| && work[i].start <= minute < work[i].end
  }

  /** The grid minutes from anchor up to stop that fall inside work and are not skipped. */
  function Anchors(anchor: int, stop: int, step: int, work: seq<Interval>, skips: set<int>): seq<int>
    requires 0 < step
    decreases stop - anchor
  {
    if stop <= anchor then []
    else (if Inside(work, anchor) && anchor !in skips then [anchor] else [])
         + Anchors(anchor + step, stop, step, work, skips)
  }

  function WindowMinutes(windowHours: int): (minutes: int)
    ensures 0 < minutes
  {
    if windowHours * 60 <= 0 then 5 * 60 else windowHours * 60
  }

  method CollectAnchors(work: seq<Interval>, step: int, skips: set<int>) returns (anchors: seq<int>)
    requires work != [] && 0 < step
    ensures anchors == Anchors(work[0].start, work[|work| - 1].end, step, work, skips)
  {
    anchors := [];
    var anchor, stop := work[0].start, work[|work| - 1].end;
    ghost var goal := Anchors(anchor, stop, step, work, skips);
    while anchor < stop
      invariant goal == anchors + Anchors(anchor, stop, step, work, skips)
      decreases stop - anchor
    {
      var insideWork := false;
      for i := 0 to |work|
        invariant !insideWork
        invariant forall j :: 0 <= j < i ==> !(work[j].start <= anchor < work[j].end)
      {
        if anchor >= work[i].start && anchor < work[i].end {
          insideWork := true;
          break;
        }
      }
      if insideWork && anchor !in skips {
        anchors := anchors + [anchor];
      }
      anchor := anchor + step;
    }
  }

  /** The skipped minutes, or None if an entry is not a clock. */
  function SkipMinutes(times: seq<string>): Option<set<int>> {
    if times == [] then Some({})
    else
      match (SkipMinutes(times[..|times| - 1]), ParseClock(times[|times| - 1]))
      case (Some(init), Some(minute)) => Some(init + {minute})
      case _ => None
  }

  // ----- allowed time inside one preheat window -----

  function InNanos(minutes: Interval): Interval {
    Interval(minutes.start * MINUTE, minutes.end * MINUTE)
  }

  ghost function ResolveWall(z: Zone, day: int, wall: Interval): Option<Interval> {
    if wall.start < 0 || wall.end > DAY || wall.start >= wall.end then None
    else ResolvedInterval(z, day, wall)
  }

  /** The wall intervals that resolve, as instants. */
  ghost function ResolveAll(z: Zone, day: int, walls: seq<Interval>): seq<Interval> {
    if walls == [] then []
    else
      ResolveAll(z, day, walls[..|walls| - 1])
      + match ResolveWall(z, day, walls[|walls| - 1])
        case Some(resolved) => [InNanos(resolved)]
        case None => []
  }

  function PositiveDuration(s: seq<Interval>): int {
    if s == [] then 0
    else PositiveDuration(s[..|s| - 1])
         + if s[|s| - 1].end > s[|s| - 1].start then s[|s| - 1].end - s[|s| - 1].start else 0
  }

  method IntervalDuration(intervals: seq<Interval>) returns (total: int)
    ensures total == PositiveDuration(intervals)
  {
    total := 0;
    for k := 0 to |intervals|
      invariant total == PositiveDuration(intervals[..k])
    {
      assert intervals[..k + 1][..k] == intervals[..k];
      if intervals[k].end > intervals[k].start {
        total := total + (intervals[k].end - intervals[k].start);
      }
    }
    assert intervals[..|intervals|] == intervals;
  }

  /** The instant a given distance into the allowed time, or the very end if there is not that much. */
  function AtOffset(intervals: seq<Interval>, offset: int): Instant
    requires intervals != []
  {
    if offset < intervals[0].Length() then intervals[0].start + offset
    else if |intervals| == 1 then intervals[0].end
    else AtOffset(intervals[1..], offset - intervals[0].Length())
  }

  method InstantAtOffset(intervals: seq<Interval>, offset: int) returns (at: Instant)
    requires intervals != []
    ensures at == AtOffset(intervals, offset)
  {
    var left := offset;
    for k := 0 to |intervals|
      invariant k < |intervals| ==> AtOffset(intervals, offset) == AtOffset(intervals[k..], left)
      invariant k == |intervals| ==> AtOffset(intervals, offset) == intervals[k - 1].end
    {
      var duration := intervals[k].end - intervals[k].start;
      if left < duration {
        return intervals[k].start + left;
      }
      left := left - duration;
      assert intervals[k..][1..] == intervals[k + 1..];
    }
    return intervals[|intervals| - 1].end;
  }

  // ----- one anchor -----

  function Slot(total: int, index: nat, count: nat): int
    requires 0 < count
  {
    total * (2 * index + 1) / (2 * count)
  }

  function MissedOccurrence(date: Date, periodIndex: nat, accountKey: string): PlannedOccurrence {
    PlannedOccurrence(OccurrenceID(DateText(date), periodIndex, accountKey), accountKey, DateText(date),
                      periodIndex, ZERO_TIME, ZERO_TIME, ZERO_TIME, true, "no_allowed_time")
  }

  function SlotOccurrence(date: Date, periodIndex: nat, accountKey: string, window: Interval, at: Instant)
    : PlannedOccurrence
  {
    PlannedOccurrence(OccurrenceID(DateText(date), periodIndex, accountKey), accountKey, DateText(date),
                      periodIndex, window.start, window.end, at, false, "")
  }

  ghost function AllowedTime(z: Zone, date: Date, preheat: Interval, blackouts: seq<Interval>): seq<Interval> {
    ResolveAll(z, date.ordinal, Subtract(preheat.start, preheat.end, blackouts))
  }

  /** The reported window: the resolved preheat window, or the span of the allowed time without one. */
  ghost function ReportedWindow(z: Zone, date: Date, preheat: Interval, allowed: seq<Interval>): Interval
    requires 0 <= preheat.start && allowed != []
  {
    match ResolvedInterval(z, date.ordinal, preheat)
    case Some(window) => InNanos(window)
    case None => Interval(allowed[0].start, allowed[|allowed| - 1].end)
  }

  ghost function AnchorPlan(z: Zone, date: Date, index: nat, preheat: Interval, blackouts: seq<Interval>,
                            ranked: seq<string>): (r: seq<PlannedOccurrence>)
    requires 0 <= preheat.start
    ensures |r| == |ranked|
  {
    var allowed := AllowedTime(z, date, preheat, blackouts);
    var total := PositiveDuration(allowed);
    if allowed == [] || total <= 0 then
      seq(|ranked|, i requires 0 <= i < |ranked| => MissedOccurrence(date, index, ranked[i]))
    else
      var window := ReportedWindow(z, date, preheat, allowed);
      seq(|ranked|, i requires 0 <= i < |ranked| =>
        SlotOccurrence(date, index, ranked[i], window, AtOffset(allowed, Slot(total, i, |ranked|))))
  }

  method AllMissed(date: Date, index: nat, ranked: seq<string>) returns (r: seq<PlannedOccurrence>)
    ensures r == seq(|ranked|, i requires 0 <= i < |ranked| => MissedOccurrence(date, index, ranked[i]))
  {
    r := [];
    for k := 0 to |ranked|
      invariant r == seq(k, i requires 0 <= i < k => MissedOccurrence(date, index, ranked[i]))
    {
      r := r + [MissedOccurrence(date, index, ranked[k])];
    }
  }

  method ResolveAllowed(z: Zone, day: int, walls: seq<Interval>) returns (allowed: seq<Interval>)
    ensures allowed == ResolveAll(z, day, walls)
  {
    allowed := [];
    for k := 0 to |walls|
      invariant allowed == ResolveAll(z, day, walls[..k])
    {
      assert walls[..k + 1][..k] == walls[..k];
      var resolved := ResolveWallInterval(z, day, walls[k]);
      if resolved.Some? {
        allowed := allowed + [InNanos(resolved.value)];
      }
    }
    assert walls[..|walls|] == walls;
  }

  method PlanAnchor(z: Zone, date: Date, index: nat, preheat: Interval, blackouts: seq<Interval>,
                    ranked: seq<string>) returns (r: seq<PlannedOccurrence>)
    requires 0 <= preheat.start
    ensures r == AnchorPlan(z, date, index, preheat, blackouts, ranked)
  {
    var walls := SubtractBlackouts(preheat, blackouts);
    var allowed := ResolveAllowed(z, date.ordinal, walls);
    var window := ResolveWindowBoundaries(z, date.ordinal, preheat);
    if |allowed| == 0 {
      r := AllMissed(date, index, ranked);
      return;
    }
    var total := IntervalDuration(allowed);
    if total <= 0 {
      r := AllMissed(date, index, ranked);
      return;
    }
    var reported := if window.Some? then InNanos(window.value)
                    else Interval(allowed[0].start, allowed[|allowed| - 1].end);
    r := [];
    for k := 0 to |ranked|
      invariant r == seq(k, i requires 0 <= i < k =>
                  SlotOccurrence(date, index, ranked[i], reported, AtOffset(allowed, Slot(total, i, |ranked|))))
    {
      var at := InstantAtOffset(allowed, total * (2 * k + 1) / (2 * |ranked|));
      r := r + [SlotOccurrence(date, index, ranked[k], reported, at)];
    }
  }

  // ----- the whole date -----

  datatype Plan = Failed | Planned(occurrences: seq<PlannedOccurrence>)

  function Preheat(lead: int, span: int, anchor: int): Interval {
    Interval(anchor - lead - span, anchor - lead)
  }

  ghost function PlanAnchors(z: Zone, date: Date, lead: int, span: int, blackouts: seq<Interval>,
                             accounts: seq<string>, rank: Rank, anchors: seq<int>): Plan
  {
    if anchors == [] then Planned([])
    else
      var index := |anchors| - 1;
      var preheat := Preheat(lead, span, anchors[index]);
      match PlanAnchors(z, date, lead, span, blackouts, accounts, rank, anchors[..index])
      case Failed => Failed
      case Planned(before) =>
        if preheat.start < 0 || preheat.start >= preheat.end then Failed
        else Planned(before + AnchorPlan(z, date, index, preheat, blackouts,
                                         RankedAccounts(accounts, rank, LocalOccurrence(DateText(date), index))))
  }

  /** What PlanDay computes: zone is None when the timezone does not load. */
  ghost function PlanFor(cfg: Config, zone: Option<Zone>, date: Date, rank: Rank): Plan {
    if zone.None? then Failed
    else if cfg.scheduledAccountKeys == [] || cfg.workPeriods == [] || date.weekday !in cfg.weekdays then
      Planned([])
    else if cfg.lead.None? || cfg.span.None? || cfg.lead.value < 1 || cfg.span.value < 1 then Failed
    else
      match (ParsePeriods(cfg.blackoutPeriods), ParsePeriods(cfg.workPeriods), SkipMinutes(cfg.skipWindowTimes))
      case (Some(blackouts), Some(work), Some(skips)) =>
        PlanAnchors(zone.value, date, cfg.lead.value, cfg.span.value, blackouts, cfg.scheduledAccountKeys, rank,
                    Anchors(work[0].start, work[|work| - 1].end, WindowMinutes(cfg.windowHours), work, skips))
      case _ => Failed
  }

  method ParseAll(periods: seq<LocalPeriod>) returns (r: Option<seq<Interval>>)
    ensures r == ParsePeriods(periods)
  {
    var parsed: seq<Interval> := [];
    for k := 0 to |periods|
      invariant ParsePeriods(periods[..k]) == Some(parsed)
    {
      NextPeriodParses(periods, k);
      var period := ParsePeriod(periods[k]);
      if period.None? {
        ParsePeriodsFails(periods, k);
        return None;
      }
      parsed := parsed + [period.value];
    }
    assert periods[..|periods|] == periods;
    return Some(parsed);
  }

  lemma {:induction false} SkipMinutesFails(times: seq<string>, i: nat)
    requires i < |times| && ParseClock(times[i]) == None
    ensures SkipMinutes(times) == None
  {
    if i < |times| - 1 { SkipMinutesFails(times[..|times| - 1], i); }
  }

  method ParseSkips(times: seq<string>) returns (r: Option<set<int>>)
    ensures r == SkipMinutes(times)
  {
    var skips: set<int> := {};
    for k := 0 to |times|
      invariant SkipMinutes(times[..k]) == Some(skips)
    {
      assert times[..k + 1][..k] == times[..k];
      var minute := ParseClock(times[k]);
      if minute.None? {
        SkipMinutesFails(times, k);
        return None;
      }
      skips := skips + {minute.value};
    }
    assert times[..|times|] == times;
    return Some(skips);
  }

  lemma {:induction false} BadAnchorFails(z: Zone, date: Date, lead: int, span: int, blackouts: seq<Interval>,
                                          accounts: seq<string>, rank: Rank, anchors: seq<int>, i: nat)
    requires i < |anchors|
    requires Preheat(lead, span, anchors[i]).start < 0 || span <= 0
    ensures PlanAnchors(z, date, lead, span, blackouts, accounts, rank, anchors) == Failed
  {
    if i < |anchors| - 1 {
      BadAnchorFails(z, date, lead, span, blackouts, accounts, rank, anchors[..|anchors| - 1], i);
    }
  }

  lemma NextAnchor(z: Zone, date: Date, lead: int, span: int, blackouts: seq<Interval>,
                   accounts: seq<string>, rank: Rank, anchors: seq<int>, k: nat)
    requires k < |anchors|
    requires Preheat(lead, span, anchors[k]).start >= 0 && span > 0
    requires PlanAnchors(z, date, lead, span, blackouts, accounts, rank, anchors[..k]).Planned?
    ensures var before := PlanAnchors(z, date, lead, span, blackouts, accounts, rank, anchors[..k]).occurrences;
            PlanAnchors(z, date, lead, span, blackouts, accounts, rank, anchors[..k + 1])
            == Planned(before + AnchorPlan(z, date, k, Preheat(lead, span, anchors[k]), blackouts,
                                           RankedAccounts(accounts, rank, LocalOccurrence(DateText(date), k))))
  {
    assert anchors[..k + 1][..k] == anchors[..k];
  }

  method PlanAllAnchors(z: Zone, date: Date, lead: int, span: int, blackouts: seq<Interval>,
                        accounts: seq<string>, rank: Rank, anchors: seq<int>) returns (r: Plan)
    ensures r == PlanAnchors(z, date, lead, span, blackouts, accounts, rank, anchors)
  {
    var occurrences: seq<PlannedOccurrence> := [];
    for index := 0 to |anchors|
      invariant PlanAnchors(z, date, lead, span, blackouts, accounts, rank, anchors[..index])
             == Planned(occurrences)
    {
      var windowEnd := anchors[index] - lead;
      var windowStart := windowEnd - span;
      if windowStart < 0 || windowStart >= windowEnd {
        BadAnchorFails(z, date, lead, span, blackouts, accounts, rank, anchors, index);
        return Failed;
      }
      NextAnchor(z, date, lead, span, blackouts, accounts, rank, anchors, index);
      ghost var preheat := Preheat(lead, span, anchors[index]);
      assert preheat == Interval(windowStart, windowEnd);
      var ranked := RankedAccounts(accounts, rank, LocalOccurrence(DateText(date), index));
      var planned := PlanAnchor(z, date, index, Interval(windowStart, windowEnd), blackouts, ranked);
      assert planned == AnchorPlan(z, date, index, preheat, blackouts, ranked);
      occurrences := occurrences + planned;
    }
    assert anchors[..|anchors|] == anchors;
    return Planned(occurrences);
  }

  method PlanDay(cfg: Config, zone: Option<Zone>, date: Date, rank: Rank) returns (r: Plan)
    ensures r == PlanFor(cfg, zone, date, rank)
  {
    if zone.None? {
      return Failed;
    }
    if |cfg.scheduledAccountKeys| == 0 || |cfg.workPeriods| == 0 || date.weekday !in cfg.weekdays {
      return Planned([]);
    }
    if cfg.lead.None? || cfg.span.None? || cfg.lead.value < 1 || cfg.span.value < 1 {
      return Failed;
    }
    var blackouts := ParseAll(cfg.blackoutPeriods);
    if blackouts.None? {
      return Failed;
    }
    var work := ParseAll(cfg.workPeriods);
    if work.None? {
      return Failed;
    }
    var skips := ParseSkips(cfg.skipWindowTimes);
    if skips.None? {
      return Failed;
    }
    var anchors := CollectAnchors(work.value, WindowMinutes(cfg.windowHours), skips.value);
    r := PlanAllAnchors(zone.value, date, cfg.lead.value, cfg.span.value, blackouts.value,
                        cfg.scheduledAccountKeys, rank, anchors);
  }
}
