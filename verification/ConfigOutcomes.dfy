/** Which configurations are accepted, told from their fields and texts. */
module ConfigOutcomes {
  import opened Domain
  import opened Intervals
  import opened Config

  // ----- clocks -----

  function TwoDigits(n: nat): string
    requires n < 100
  {
    ["0123456789"[n / 10], "0123456789"[n % 10]]
  }

  function ClockText(minute: nat): string
    requires minute < 1440
  {
    TwoDigits(minute / 60) + ":" + TwoDigits(minute % 60)
  }

  lemma DigitsAreMeant(n: nat)
    requires n < 10
    ensures IsDigit("0123456789"[n]) && DigitValue("0123456789"[n]) == n
  {
  }

  lemma ClockRoundTrips(minute: nat)
    requires minute < 1440
    ensures ParseClock(ClockText(minute)) == Some(minute)
  {
    var hour, rest := minute / 60, minute % 60;
    DigitsAreMeant(hour / 10);
    DigitsAreMeant(hour % 10);
    DigitsAreMeant(rest / 10);
    DigitsAreMeant(rest % 10);
    var s := ClockText(minute);
    assert |s| == 5 && s[2] == ':';
  }

  lemma DigitIsRendered(c: char)
    requires IsDigit(c)
    ensures DigitValue(c) < 10 && "0123456789"[DigitValue(c)] == c
  {
  }

  lemma HoursAndMinutes(hour: nat, minute: nat)
    ensures hour < 24 && minute < 60 ==> (60 * hour + minute) / 60 == hour && (60 * hour + minute) % 60 == minute
  {
  }

  lemma DigitsAreRendered(c: char, d: char, n: nat)
    requires IsDigit(c) && IsDigit(d) && n == 10 * DigitValue(c) + DigitValue(d)
    ensures n < 100 && TwoDigits(n) == [c, d]
  {
    DigitIsRendered(c);
    DigitIsRendered(d);
  }

  lemma ParsedIsRendered(s: string, hour: nat, minute: nat)
    requires ParseClock(s).Some? && IsDigit(s[0]) && IsDigit(s[1]) && IsDigit(s[3]) && IsDigit(s[4])
    requires hour == 10 * DigitValue(s[0]) + DigitValue(s[1]) && minute == 10 * DigitValue(s[3]) + DigitValue(s[4])
    ensures hour < 24 && minute < 60 && ParseClock(s) == Some(60 * hour + minute)
    ensures s == ClockText(60 * hour + minute)
  {
    HoursAndMinutes(hour, minute);
    DigitsAreRendered(s[0], s[1], hour);
    DigitsAreRendered(s[3], s[4], minute);
    assert s == [s[0], s[1]] + ":" + [s[3], s[4]];
  }

  /** A text is a clock exactly if it is the two-digit rendering of one, and then it stands for that minute. */
  lemma ClocksAreRendered(s: string)
    ensures ParseClock(s).Some? <==> exists minute: nat :: minute < 1440 && s == ClockText(minute)
    ensures ParseClock(s).Some? ==> s == ClockText(ParseClock(s).value)
  {
    if ParseClock(s).Some? {
      ParsedIsRendered(s, 10 * DigitValue(s[0]) + DigitValue(s[1]), 10 * DigitValue(s[3]) + DigitValue(s[4]));
    } else if minute: nat :| minute < 1440 && s == ClockText(minute) {
      ClockRoundTrips(minute);
    }
  }

  // ----- acceptance -----

  /** Clocks in order, one period after the other. */
  ghost predicate InOrder(periods: seq<LocalPeriod>) {
    && (forall i :: 0 <= i < |periods| ==>
          && ParseClock(periods[i].start).Some? && ParseClock(periods[i].end).Some?
          && ParseClock(periods[i].start).value < ParseClock(periods[i].end).value)
    && (forall i, j :: 0 <= i < j < |periods| ==>
          ParseClock(periods[i].end).Some? && ParseClock(periods[j].start).Some? ==>
            ParseClock(periods[i].end).value <= ParseClock(periods[j].start).value)
  }

  lemma {:induction false} PeriodsParse(periods: seq<LocalPeriod>)
    ensures ParsePeriods(periods).Some? <==> forall i :: 0 <= i < |periods| ==> ParsePeriod(periods[i]).Some?
  {
    if periods != [] {
      var init := periods[..|periods| - 1];
      PeriodsParse(init);
      if forall i :: 0 <= i < |periods| ==> ParsePeriod(periods[i]).Some? {
        forall i | 0 <= i < |init| ensures ParsePeriod(init[i]).Some? { assert init[i] == periods[i]; }
      } else {
        var i :| 0 <= i < |periods| && ParsePeriod(periods[i]).None?;
        ParsePeriodsFails(periods, i);
      }
    }
  }

  lemma PeriodsAreMeant(periods: seq<LocalPeriod>)
    ensures ValidPeriods(periods) <==> InOrder(periods)
  {
    PeriodsParse(periods);
    if InOrder(periods) {
      forall i | 0 <= i < |periods| ensures ParsePeriod(periods[i]).Some? {}
      var parsed := ParsePeriods(periods).value;
      forall i, j | 0 <= i < j < |parsed| ensures parsed[i].end <= parsed[j].start {
        assert ParsePeriod(periods[i]) == Some(parsed[i]) && ParsePeriod(periods[j]) == Some(parsed[j]);
      }
      forall i | 0 <= i < |parsed| ensures parsed[i].start < parsed[i].end {
        assert ParsePeriod(periods[i]) == Some(parsed[i]);
      }
    } else if ValidPeriods(periods) {
      var parsed := ParsePeriods(periods).value;
      forall i | 0 <= i < |periods| ensures ParsePeriod(periods[i]) == Some(parsed[i]) {}
      assert InOrder(periods);
    }
  }

  /** Neither lead nor span, or both within a day and together no longer than every work period is from midnight. */
  ghost predicate PreheatFits(cfg: Config) {
    || (cfg.lead == None && cfg.span == None)
    || (&& cfg.lead.Some? && 1 <= cfg.lead.value <= 1440 && cfg.span.Some? && 1 <= cfg.span.value <= 1440
        && forall p :: p in cfg.workPeriods && ParseClock(p.start).Some? ==>
             cfg.lead.value + cfg.span.value <= ParseClock(p.start).value)
  }

  ghost predicate NoneTwice<T>(s: seq<T>) {
    forall i, j :: 0 <= i < j < |s| ==> s[i] != s[j]
  }

  /** Accepted are exactly the configurations whose zone loads and is not the local one, whose periods are clocks in
      order, whose numbers are in range, whose preheat window stays on the date, whose weekdays, skip times and accounts
      are proper and named once, and that have work and preheat settings if they are enabled. */
  lemma AcceptedExactlyWhen(cfg: Config, known: set<string>, zoneLoads: bool)
    ensures ValidConfig(cfg, known, zoneLoads) <==>
              && zoneLoads && cfg.timezone != "Local"
              && InOrder(cfg.workPeriods) && InOrder(cfg.blackoutPeriods)
              && cfg.productivityMinutes >= 1 && cfg.windowHours >= 1 && cfg.windowHours <= 24
              && cfg.healthThresholdPercent >= 0 && cfg.healthThresholdPercent <= 100
              && cfg.remainingQuotaFloorPercent >= 0 && cfg.remainingQuotaFloorPercent <= 100
              && cfg.longWindowFloorPercent >= 0 && cfg.longWindowFloorPercent <= 100
              && cfg.remainingWindowFloorMinutes >= 1
              && cfg.probeTimeoutSeconds >= 5 && cfg.probeTimeoutSeconds <= 120 && TrimSpace(cfg.probeModel) != ""
              && PreheatFits(cfg)
              && NoneTwice(cfg.weekdays) && (forall w :: w in cfg.weekdays ==> w in {1, 2, 3, 4, 5, 6, 7})
              && NoneTwice(cfg.skipWindowTimes) && (forall t :: t in cfg.skipWindowTimes ==> ParseClock(t).Some?)
              && NoneTwice(cfg.scheduledAccountKeys)
              && (forall k :: k in cfg.scheduledAccountKeys ==> TrimSpace(k) != "" && k in known)
              && (cfg.enabled ==> cfg.workPeriods != [] && cfg.lead != None && cfg.span != None)
  {
    PeriodsAreMeant(cfg.workPeriods);
    PeriodsAreMeant(cfg.blackoutPeriods);
    if InOrder(cfg.workPeriods) { PreheatIsMeant(cfg); }
  }

  lemma PreheatIsMeant(cfg: Config)
    requires InOrder(cfg.workPeriods)
    ensures ValidPreheat(cfg) <==> PreheatFits(cfg)
  {
    forall i | 0 <= i < |cfg.workPeriods|
      ensures ParsePeriod(cfg.workPeriods[i]).Some?
      ensures ParsePeriod(cfg.workPeriods[i]).value.start == ParseClock(cfg.workPeriods[i].start).value
    {
    }
    if ValidPreheat(cfg) && cfg.lead.Some? {
      forall p | p in cfg.workPeriods ensures cfg.lead.value + cfg.span.value <= ParseClock(p.start).value {
        var i :| 0 <= i < |cfg.workPeriods| && cfg.workPeriods[i] == p;
      }
    }
  }
}
