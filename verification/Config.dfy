/** The schedule configuration and its validation, the precondition everything planned relies on. */
module Config {
  import opened Domain
  import opened Intervals

  datatype LocalPeriod = LocalPeriod(start: string, end: string)

  datatype Config = Config(
    enabled: bool,
    timezone: string,
    weekdays: seq<int>,
    workPeriods: seq<LocalPeriod>,
    lead: Option<int>,
    span: Option<int>,
    productivityMinutes: int,
    windowHours: int,
    healthThresholdPercent: int,
    skipWindowTimes: seq<string>,
    remainingQuotaFloorPercent: int,
    remainingWindowFloorMinutes: int,
    longWindowFloorPercent: int,
    blackoutPeriods: seq<LocalPeriod>,
    probeModel: string,
    probeTimeoutSeconds: int,
    scheduledAccountKeys: seq<string>)

  // ----- clocks and periods -----

  predicate IsDigit(c: char) { '0' <= c <= '9' }

  function DigitValue(c: char): nat
    requires IsDigit(c)
  {
    (c as int) - ('0' as int)
  }

  /** A strict HH:MM clock as minutes after midnight. */
  function ParseClock(s: string): (r: Option<int>)
    ensures r.Some? ==> 0 <= r.value < 1440
  {
    if |s| == 5 && IsDigit(s[0]) && IsDigit(s[1]) && s[2] == ':' && IsDigit(s[3]) && IsDigit(s[4]) then
      var hour := 10 * DigitValue(s[0]) + DigitValue(s[1]);
      var minute := 10 * DigitValue(s[3]) + DigitValue(s[4]);
      if hour < 24 && minute < 60 then Some(60 * hour + minute) else None
    else None
  }

  function ParsePeriod(p: LocalPeriod): (r: Option<Interval>)
    ensures r.Some? ==> 0 <= r.value.start < r.value.end < 1440
  {
    match (ParseClock(p.start), ParseClock(p.end))
    case (Some(start), Some(end)) => if start < end then Some(Interval(start, end)) else None
    case _ => None
  }

  /** All periods parsed, or None if one does not parse. */
  function ParsePeriods(periods: seq<LocalPeriod>): (r: Option<seq<Interval>>)
    ensures r.Some? ==> |r.value| == |periods|
    ensures r.Some? ==> forall i :: 0 <= i < |periods| ==> ParsePeriod(periods[i]) == Some(r.value[i])
  {
    if periods == [] then Some([])
    else
      match (ParsePeriods(periods[..|periods| - 1]), ParsePeriod(periods[|periods| - 1]))
      case (Some(init), Some(last)) => Some(init + [last])
      case _ => None
  }

  lemma {:induction false} ParsePeriodsFails(periods: seq<LocalPeriod>, i: nat)
    requires i < |periods| && ParsePeriod(periods[i]) == None
    ensures ParsePeriods(periods) == None
  {
    if i < |periods| - 1 {
      ParsePeriodsFails(periods[..|periods| - 1], i);
    }
  }

  // ----- what a valid configuration is -----

  ghost predicate ValidPeriods(periods: seq<LocalPeriod>) {
    ParsePeriods(periods).Some? && Ordered(ParsePeriods(periods).value)
  }

  ghost predicate ValidPreheat(cfg: Config) {
    && (cfg.lead.Some? <==> cfg.span.Some?)
    && (cfg.lead.Some? ==>
          && 1 <= cfg.lead.value <= 1440
          && 1 <= cfg.span.value <= 1440
          && forall i :: 0 <= i < |cfg.workPeriods| ==>
               ParsePeriod(cfg.workPeriods[i]).Some? ==>
                 cfg.lead.value + cfg.span.value <= ParsePeriod(cfg.workPeriods[i]).value.start)
  }

  ghost predicate ValidNumbers(cfg: Config) {
    && 0 < cfg.productivityMinutes
    && 1 <= cfg.windowHours <= 24
    && 0 <= cfg.healthThresholdPercent <= 100
    && 0 < cfg.remainingWindowFloorMinutes
    && 0 <= cfg.remainingQuotaFloorPercent <= 100
    && 0 <= cfg.longWindowFloorPercent <= 100
    && 5 <= cfg.probeTimeoutSeconds <= 120
  }

  ghost predicate ValidLists(cfg: Config, known: set<string>) {
    && (forall w :: w in cfg.weekdays ==> 1 <= w <= 7) && Distinct(cfg.weekdays)
    && (forall t :: t in cfg.skipWindowTimes ==> ParseClock(t).Some?) && Distinct(cfg.skipWindowTimes)
    && (forall k :: k in cfg.scheduledAccountKeys ==> TrimSpace(k) != "" && k in known)
    && Distinct(cfg.scheduledAccountKeys)
  }

  ghost predicate ValidConfig(cfg: Config, known: set<string>, zoneLoads: bool) {
    && cfg.timezone != "Local" && zoneLoads
    && ValidPeriods(cfg.workPeriods) && ValidPeriods(cfg.blackoutPeriods)
    && ValidNumbers(cfg) && TrimSpace(cfg.probeModel) != ""
    && ValidPreheat(cfg)
    && ValidLists(cfg, known)
    && (cfg.enabled ==> cfg.workPeriods != [] && cfg.lead.Some? && cfg.span.Some?)
  }

  // ----- validatePeriods -----

  lemma NextPeriodParses(periods: seq<LocalPeriod>, k: nat)
    requires k < |periods| && ParsePeriods(periods[..k]).Some?
    ensures ParsePeriods(periods[..k + 1])
         == if ParsePeriod(periods[k]).Some?
            then Some(ParsePeriods(periods[..k]).value + [ParsePeriod(periods[k]).value]) else None
  {
    assert periods[..k + 1][..k] == periods[..k];
  }

  lemma NextPeriodOrdered(parsed: seq<Interval>, x: Interval)
    requires Ordered(parsed) && x.start < x.end
    ensures Ordered(parsed + [x]) <==> parsed == [] || parsed[|parsed| - 1].end <= x.start
  {
    var all := parsed + [x];
    if parsed != [] {
      var last := |parsed| - 1;
      assert all[last] == parsed[last] && all[last + 1] == x;
    }
  }

  method ValidatePeriods(periods: seq<LocalPeriod>) returns (ok: bool)
    ensures ok <==> ValidPeriods(periods)
  {
    var previousEnd := 0;
    ghost var parsed: seq<Interval> := [];
    for k := 0 to |periods|
      invariant ParsePeriods(periods[..k]) == Some(parsed) && Ordered(parsed)
      invariant k > 0 ==> parsed[k - 1].end == previousEnd
    {
      NextPeriodParses(periods, k);
      var start, end := ParseClock(periods[k].start), ParseClock(periods[k].end);
      if start.None? || end.None? || start.value >= end.value {
        ParsePeriodsFails(periods, k);
        return false;
      }
      NextPeriodOrdered(parsed, Interval(start.value, end.value));
      parsed := parsed + [Interval(start.value, end.value)];
      if k > 0 && start.value < previousEnd {
        PrefixDecides(periods, k + 1, parsed);
        return false;
      }
      previousEnd := end.value;
    }
    assert periods[..|periods|] == periods;
    return true;
  }

  lemma PrefixDecides(periods: seq<LocalPeriod>, k: nat, parsed: seq<Interval>)
    requires k <= |periods| && ParsePeriods(periods[..k]) == Some(parsed) && !Ordered(parsed)
    ensures !ValidPeriods(periods)
  {
    if ValidPeriods(periods) {
      var all := ParsePeriods(periods).value;
      forall i | 0 <= i < k ensures parsed[i] == all[i] {
        assert periods[..k][i] == periods[i];
      }
    }
  }

  // ----- the duplicate checks -----

  method UniqueInts(s: seq<int>, lo: int, hi: int) returns (ok: bool)
    ensures ok <==> (forall x :: x in s ==> lo <= x <= hi) && Distinct(s)
  {
    var seen: set<int> := {};
    for k := 0 to |s|
      invariant forall x :: x in seen <==> x in s[..k]
      invariant forall x :: x in s[..k] ==> lo <= x <= hi
      invariant Distinct(s[..k])
    {
      if s[k] < lo || s[k] > hi {
        assert s[k] in s;
        return false;
      }
      if s[k] in seen {
        var i :| 0 <= i < k && s[..k][i] == s[k];
        return false;
      }
      seen := seen + {s[k]};
      assert s[..k + 1] == s[..k] + [s[k]];
    }
    assert s[..|s|] == s;
    return true;
  }

  method UniqueClocks(s: seq<string>) returns (ok: bool)
    ensures ok <==> (forall x :: x in s ==> ParseClock(x).Some?) && Distinct(s)
  {
    var seen: set<string> := {};
    for k := 0 to |s|
      invariant forall x :: x in seen <==> x in s[..k]
      invariant forall x :: x in s[..k] ==> ParseClock(x).Some?
      invariant Distinct(s[..k])
    {
      if ParseClock(s[k]).None? {
        assert s[k] in s;
        return false;
      }
      if s[k] in seen {
        var i :| 0 <= i < k && s[..k][i] == s[k];
        return false;
      }
      seen := seen + {s[k]};
      assert s[..k + 1] == s[..k] + [s[k]];
    }
    assert s[..|s|] == s;
    return true;
  }

  method UniqueAccounts(s: seq<string>, known: set<string>) returns (ok: bool)
    ensures ok <==> (forall x :: x in s ==> TrimSpace(x) != "" && x in known) && Distinct(s)
  {
    var seen: set<string> := {};
    for k := 0 to |s|
      invariant forall x :: x in seen <==> x in s[..k]
      invariant forall x :: x in s[..k] ==> TrimSpace(x) != "" && x in known
      invariant Distinct(s[..k])
    {
      if TrimSpace(s[k]) == "" {
        assert s[k] in s;
        return false;
      }
      if s[k] in seen {
        var i :| 0 <= i < k && s[..k][i] == s[k];
        return false;
      }
      seen := seen + {s[k]};
      if s[k] !in known {
        assert s[k] in s;
        return false;
      }
      assert s[..k + 1] == s[..k] + [s[k]];
    }
    assert s[..|s|] == s;
    return true;
  }

  method ValidatePreheat(cfg: Config) returns (ok: bool)
    requires ValidPeriods(cfg.workPeriods)
    ensures ok <==> ValidPreheat(cfg)
  {
    if cfg.lead.None? != cfg.span.None? {
      return false;
    }
    if cfg.lead.None? {
      return true;
    }
    if cfg.lead.value < 1 || cfg.lead.value > 1440 || cfg.span.value < 1 || cfg.span.value > 1440 {
      return false;
    }
    for k := 0 to |cfg.workPeriods|
      invariant forall i :: 0 <= i < k ==>
                  cfg.lead.value + cfg.span.value <= ParsePeriod(cfg.workPeriods[i]).value.start
    {
      var start := ParseClock(cfg.workPeriods[k].start);
      if start.value < cfg.lead.value + cfg.span.value {
        assert ParsePeriod(cfg.workPeriods[k]).Some?;
        return false;
      }
    }
    return true;
  }

  /** Validation accepts exactly the valid configurations. */
  method ValidateConfig(cfg: Config, known: set<string>, zoneLoads: bool) returns (ok: bool)
    ensures ok <==> ValidConfig(cfg, known, zoneLoads)
  {
    if cfg.timezone == "Local" || !zoneLoads {
      return false;
    }
    var weekdaysOk := UniqueInts(cfg.weekdays, 1, 7);
    if !weekdaysOk {
      return false;
    }
    var workOk := ValidatePeriods(cfg.workPeriods);
    if !workOk {
      return false;
    }
    var blackoutsOk := ValidatePeriods(cfg.blackoutPeriods);
    if !blackoutsOk {
      return false;
    }
    if cfg.productivityMinutes <= 0 || cfg.windowHours < 1 || cfg.windowHours > 24
       || cfg.healthThresholdPercent < 0 || cfg.healthThresholdPercent > 100
    {
      return false;
    }
    var skipsOk := UniqueClocks(cfg.skipWindowTimes);
    if !skipsOk {
      return false;
    }
    if cfg.remainingWindowFloorMinutes <= 0
       || cfg.remainingQuotaFloorPercent < 0 || cfg.remainingQuotaFloorPercent > 100
       || cfg.longWindowFloorPercent < 0 || cfg.longWindowFloorPercent > 100
       || cfg.probeTimeoutSeconds < 5 || cfg.probeTimeoutSeconds > 120
       || TrimSpace(cfg.probeModel) == ""
    {
      return false;
    }
    var preheatOk := ValidatePreheat(cfg);
    if !preheatOk {
      return false;
    }
    var accountsOk := UniqueAccounts(cfg.scheduledAccountKeys, known);
    if !accountsOk {
      return false;
    }
    if cfg.enabled && (|cfg.workPeriods| == 0 || cfg.lead.None? || cfg.span.None?) {
      return false;
    }
    return true;
  }
}
