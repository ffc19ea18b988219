/** The laws of a day's plan: who is planned, where the slots lie, and when planning can fail. */
module Plans {
  import opened Domain
  import opened Sorting
  import opened Intervals
  import opened LocalTime
  import opened Config
  import opened Planner

  // ----- the order of the account list does not matter -----

  lemma {:induction false} StringLeqIsTotal(a: string, b: string)
    ensures StringLeq(a, b) || StringLeq(b, a)
    ensures StringLeq(a, b) && StringLeq(b, a) ==> a == b
  {
    if a != "" && b != "" {
      StringLeqIsTotal(a[1..], b[1..]);
      assert a == [a[0]] + a[1..] && b == [b[0]] + b[1..];
    }
  }

  lemma {:induction false} StringLeqIsTransitive(a: string, b: string, c: string)
    requires StringLeq(a, b) && StringLeq(b, c)
    ensures StringLeq(a, c)
  {
    if a != "" && b != "" && c != "" && a[0] == b[0] == c[0] {
      StringLeqIsTransitive(a[1..], b[1..], c[1..]);
    }
  }

  lemma RankingIsTotal(rank: Rank, occurrence: string)
    ensures TotalOrder(RankedBefore(rank, occurrence))
  {
    var leq := RankedBefore(rank, occurrence);
    forall a, b ensures (leq(a, b) || leq(b, a)) && (leq(a, b) && leq(b, a) ==> a == b) {
      StringLeqIsTotal(a, b);
    }
    forall a, b, c | leq(a, b) && leq(b, c) ensures leq(a, c) {
      if StringLeq(a, b) && StringLeq(b, c) { StringLeqIsTransitive(a, b, c); }
    }
  }

  lemma {:induction false} AnchorsIgnoreAccountOrder(
    z: Zone, date: Date, lead: int, span: int, blackouts: seq<Interval>,
    a: seq<string>, b: seq<string>, rank: Rank, anchors: seq<int>)
    requires multiset(a) == multiset(b)
    ensures PlanAnchors(z, date, lead, span, blackouts, a, rank, anchors)
         == PlanAnchors(z, date, lead, span, blackouts, b, rank, anchors)
  {
    if anchors != [] {
      var index := |anchors| - 1;
      AnchorsIgnoreAccountOrder(z, date, lead, span, blackouts, a, b, rank, anchors[..index]);
      var occurrence := LocalOccurrence(DateText(date), index);
      RankingIsTotal(rank, occurrence);
      SortIgnoresOrder(a, b, RankedBefore(rank, occurrence));
    }
  }

  /** Permuting the scheduled accounts leaves every plan exactly as it was. */
  lemma PlanIgnoresAccountOrder(cfg: Config, keys: seq<string>, zone: Option<Zone>, date: Date, rank: Rank)
    requires multiset(keys) == multiset(cfg.scheduledAccountKeys)
    ensures PlanFor(cfg.(scheduledAccountKeys := keys), zone, date, rank) == PlanFor(cfg, zone, date, rank)
  {
    assert |multiset(keys)| == |multiset(cfg.scheduledAccountKeys)|;
    match (ParsePeriods(cfg.blackoutPeriods), ParsePeriods(cfg.workPeriods), SkipMinutes(cfg.skipWindowTimes))
    case (Some(blackouts), Some(work), Some(skips)) =>
      if zone.Some? && cfg.workPeriods != [] && cfg.lead.Some? && cfg.span.Some? {
        AnchorsIgnoreAccountOrder(
          zone.value, date, cfg.lead.value, cfg.span.value, blackouts, keys, cfg.scheduledAccountKeys, rank,
          Anchors(work[0].start, work[|work| - 1].end, WindowMinutes(cfg.windowHours), work, skips));
      }
    case _ =>
  }

  // ----- the anchors -----

  /** The minutes a whole number of steps after the first. */
  predicate OnGrid(first: int, step: int, minute: int)
    requires 0 < step
    decreases minute - first
  {
    first <= minute && (first == minute || OnGrid(first + step, step, minute))
  }

  /** The anchors are exactly the grid minutes inside work that are not skipped, in increasing order. */
  lemma {:induction false} AnchorsAreTheGrid(first: int, stop: int, step: int, work: seq<Interval>, skips: set<int>)
    requires 0 < step
    ensures var anchors := Anchors(first, stop, step, work, skips);
            && (forall a :: a in anchors <==>
                  OnGrid(first, step, a) && a < stop && Inside(work, a) && a !in skips)
            && (forall i, j :: 0 <= i < j < |anchors| ==> anchors[i] < anchors[j])
            && (forall a :: a in anchors ==> first <= a)
    decreases stop - first
  {
    if first < stop {
      AnchorsAreTheGrid(first + step, stop, step, work, skips);
      var rest := Anchors(first + step, stop, step, work, skips);
      forall a ensures OnGrid(first, step, a) <==> a == first || OnGrid(first + step, step, a) {
      }
      forall i | 0 <= i < |rest| ensures first < rest[i] { assert rest[i] in rest; }
    }
  }

  // ----- when planning fails -----

  lemma {:induction false} SkipMinutesParse(times: seq<string>)
    requires forall t :: t in times ==> ParseClock(t).Some?
    ensures SkipMinutes(times).Some?
  {
    if times != [] {
      assert times[|times| - 1] in times;
      SkipMinutesParse(times[..|times| - 1]);
    }
  }

  lemma {:induction false} GoodAnchorsPlan(z: Zone, date: Date, lead: int, span: int, blackouts: seq<Interval>,
                                           accounts: seq<string>, rank: Rank, anchors: seq<int>)
    requires 1 <= span && forall a :: a in anchors ==> 0 <= Preheat(lead, span, a).start
    ensures PlanAnchors(z, date, lead, span, blackouts, accounts, rank, anchors).Planned?
  {
    if anchors != [] {
      assert anchors[|anchors| - 1] in anchors;
      GoodAnchorsPlan(z, date, lead, span, blackouts, accounts, rank, anchors[..|anchors| - 1]);
    }
  }

  /** No window derived from an anchor of a valid configuration crosses midnight. */
  lemma AnchorsLeaveRoom(cfg: Config, work: seq<Interval>, skips: set<int>, step: int, anchors: seq<int>)
    requires ValidPreheat(cfg) && cfg.lead.Some? && 0 < step
    requires cfg.workPeriods != [] && ParsePeriods(cfg.workPeriods) == Some(work)
    requires anchors == Anchors(work[0].start, work[|work| - 1].end, step, work, skips)
    ensures forall a :: a in anchors ==>
              && 0 <= Preheat(cfg.lead.value, cfg.span.value, a).start
              && Preheat(cfg.lead.value, cfg.span.value, a).end < DAY
  {
    AnchorsAreTheGrid(work[0].start, work[|work| - 1].end, step, work, skips);
    assert ParsePeriod(cfg.workPeriods[0]) == Some(work[0]);
    assert ParsePeriod(cfg.workPeriods[|work| - 1]) == Some(work[|work| - 1]);
  }

  lemma ActiveConfigPlans(cfg: Config, known: set<string>, z: Zone, date: Date, rank: Rank)
    requires ValidConfig(cfg, known, true) && cfg.workPeriods != [] && cfg.lead.Some?
    ensures PlanFor(cfg, Some(z), date, rank).Planned?
  {
    SkipMinutesParse(cfg.skipWindowTimes);
    var work := ParsePeriods(cfg.workPeriods).value;
    var blackouts := ParsePeriods(cfg.blackoutPeriods).value;
    var skips := SkipMinutes(cfg.skipWindowTimes).value;
    var step := WindowMinutes(cfg.windowHours);
    var anchors := Anchors(work[0].start, work[|work| - 1].end, step, work, skips);
    AnchorsLeaveRoom(cfg, work, skips, step, anchors);
    GoodAnchorsPlan(z, date, cfg.lead.value, cfg.span.value, blackouts, cfg.scheduledAccountKeys, rank, anchors);
  }

  /** An accepted configuration plans every date, except when it is a disabled draft that selects
      accounts, work and the weekday but leaves the preheat window unset. */
  lemma ValidConfigPlans(cfg: Config, known: set<string>, z: Zone, date: Date, rank: Rank)
    requires ValidConfig(cfg, known, true)
    ensures PlanFor(cfg, Some(z), date, rank) == Failed <==>
              cfg.scheduledAccountKeys != [] && cfg.workPeriods != [] && date.weekday in cfg.weekdays
              && cfg.lead.None?
    ensures cfg.enabled ==> PlanFor(cfg, Some(z), date, rank).Planned?
  {
    if cfg.workPeriods != [] && cfg.lead.Some? {
      ActiveConfigPlans(cfg, known, z, date, rank);
    }
  }

  // ----- one occurrence per anchor and account -----

  /** How often a plan holds an occurrence of one anchor for one account. */
  function TimesPlanned(s: seq<PlannedOccurrence>, index: nat, key: string): nat {
    if s == [] then 0
    else TimesPlanned(s[..|s| - 1], index, key)
         + if s[|s| - 1].periodIndex == index && s[|s| - 1].accountKey == key then 1 else 0
  }

  lemma {:induction false} TimesAppended(a: seq<PlannedOccurrence>, b: seq<PlannedOccurrence>, index: nat, key: string)
    ensures TimesPlanned(a + b, index, key) == TimesPlanned(a, index, key) + TimesPlanned(b, index, key)
  {
    if b == [] {
      assert a + b == a;
    } else {
      assert (a + b)[..|a + b| - 1] == a + b[..|b| - 1];
      TimesAppended(a, b[..|b| - 1], index, key);
    }
  }

  lemma {:induction false} TimesOfOneAnchor(
    s: seq<PlannedOccurrence>, ranked: seq<string>, own: nat, index: nat, key: string)
    requires |s| == |ranked|
    requires forall i :: 0 <= i < |s| ==> s[i].periodIndex == own && s[i].accountKey == ranked[i]
    ensures TimesPlanned(s, index, key) == if index == own then multiset(ranked)[key] else 0
  {
    if s != [] {
      var n := |s| - 1;
      TimesOfOneAnchor(s[..n], ranked[..n], own, index, key);
      assert ranked == ranked[..n] + [ranked[n]];
    }
  }

  lemma TimesPlannedTwice(s: seq<PlannedOccurrence>, i: nat, j: nat)
    requires i < j < |s| && s[i].periodIndex == s[j].periodIndex && s[i].accountKey == s[j].accountKey
    ensures TimesPlanned(s, s[i].periodIndex, s[i].accountKey) >= 2
  {
    var index, key := s[i].periodIndex, s[i].accountKey;
    assert s == s[..i] + [s[i]] + s[i + 1..j] + [s[j]] + s[j + 1..];
    TimesAppended(s[..i] + [s[i]] + s[i + 1..j] + [s[j]], s[j + 1..], index, key);
    TimesAppended(s[..i] + [s[i]] + s[i + 1..j], [s[j]], index, key);
    TimesAppended(s[..i] + [s[i]], s[i + 1..j], index, key);
    TimesAppended(s[..i], [s[i]], index, key);
    assert TimesPlanned([s[i]], index, key) == 1 && TimesPlanned([s[j]], index, key) == 1;
  }

  /** A plan holds, for every anchor, each scheduled account exactly as often as the account list. */
  lemma {:induction false} EveryAccountOncePerAnchor(
    z: Zone, date: Date, lead: int, span: int, blackouts: seq<Interval>,
    accounts: seq<string>, rank: Rank, anchors: seq<int>, index: nat, key: string)
    requires PlanAnchors(z, date, lead, span, blackouts, accounts, rank, anchors).Planned?
    ensures var plan := PlanAnchors(z, date, lead, span, blackouts, accounts, rank, anchors).occurrences;
            && |plan| == |anchors| * |accounts|
            && TimesPlanned(plan, index, key) == if index < |anchors| then multiset(accounts)[key] else 0
  {
    if anchors != [] {
      var n := |anchors| - 1;
      EveryAccountOncePerAnchor(z, date, lead, span, blackouts, accounts, rank, anchors[..n], index, key);
      var before := PlanAnchors(z, date, lead, span, blackouts, accounts, rank, anchors[..n]).occurrences;
      var ranked := RankedAccounts(accounts, rank, LocalOccurrence(DateText(date), n));
      var own := AnchorPlan(z, date, n, Preheat(lead, span, anchors[n]), blackouts, ranked);
      TimesAppended(before, own, index, key);
      TimesOfOneAnchor(own, ranked, n, index, key);
      assert |anchors| * |accounts| == n * |accounts| + |accounts|;
    }
  }

  // ----- occurrence identities -----

  function ParseNat(s: string): int {
    if s == "" then 0 else 10 * ParseNat(s[..|s| - 1]) + (s[|s| - 1] as int - '0' as int)
  }

  lemma {:induction false} ItoaRoundTrips(n: nat)
    ensures ParseNat(Itoa(n)) == n
    ensures forall c :: c in Itoa(n) ==> IsDigit(c)
  {
    if n >= 10 {
      ItoaRoundTrips(n / 10);
      assert Itoa(n)[..|Itoa(n)| - 1] == Itoa(n / 10);
    }
  }

  lemma {:induction false} LeadingZeros(k: int, s: string)
    ensures ParseNat(Zeros(k) + s) == ParseNat(s)
    ensures forall c :: c in Zeros(k) ==> c == '0'
    decreases k, |s|
  {
    if k > 0 {
      LeadingZeros(k - 1, s);
      assert Zeros(k) + s == "0" + (Zeros(k - 1) + s);
      OneLeadingZero(Zeros(k - 1) + s);
    } else {
      assert Zeros(k) + s == s;
    }
  }

  lemma {:induction false} OneLeadingZero(s: string)
    ensures ParseNat("0" + s) == ParseNat(s)
  {
    if s == "" {
      assert "0" + s == "0";
    } else {
      assert ("0" + s)[..|"0" + s| - 1] == "0" + s[..|s| - 1];
      OneLeadingZero(s[..|s| - 1]);
    }
  }

  lemma PadRoundTrips(n: nat, width: nat)
    ensures ParseNat(Pad(n, width)) == n
    ensures forall c :: c in Pad(n, width) ==> IsDigit(c)
  {
    LeadingZeros(width - |Itoa(n)|, Itoa(n));
    ItoaRoundTrips(n);
  }

  /** The first separator splits a text in only one way. */
  lemma SplitIsUnique(a: string, b: string, c: string, d: string, sep: char)
    requires a + [sep] + b == c + [sep] + d
    requires sep !in a && sep !in c
    ensures a == c && b == d
  {
    var text := a + [sep] + b;
    assert text[|a|] == sep && text[|c|] == sep;
    assert |a| == |c|;
    assert a == text[..|a|] == c;
    assert b == text[|a| + 1..] == d;
  }

  lemma SplitTwiceIsUnique(a: string, b: string, c: string, a': string, b': string, c': string, sep: char)
    requires a + [sep] + b + [sep] + c == a' + [sep] + b' + [sep] + c'
    requires sep !in a && sep !in a' && sep !in b && sep !in b'
    ensures a == a' && b == b' && c == c'
  {
    assert a + [sep] + b + [sep] + c == a + [sep] + (b + [sep] + c);
    assert a' + [sep] + b' + [sep] + c' == a' + [sep] + (b' + [sep] + c');
    SplitIsUnique(a, b + [sep] + c, a', b' + [sep] + c', sep);
    SplitIsUnique(b, c, b', c', sep);
  }

  ghost predicate SameDate(d: Date, e: Date) {
    d.year == e.year && d.month == e.month && d.dayOfMonth == e.dayOfMonth
  }

  lemma DateTextIsInjective(d: Date, e: Date)
    requires DateText(d) == DateText(e)
    ensures SameDate(d, e)
  {
    PadRoundTrips(d.year, 4); PadRoundTrips(e.year, 4);
    PadRoundTrips(d.month, 2); PadRoundTrips(e.month, 2);
    PadRoundTrips(d.dayOfMonth, 2); PadRoundTrips(e.dayOfMonth, 2);
    SplitTwiceIsUnique(Pad(d.year, 4), Pad(d.month, 2), Pad(d.dayOfMonth, 2),
                       Pad(e.year, 4), Pad(e.month, 2), Pad(e.dayOfMonth, 2), '-');
  }

  lemma DateTextHasNoSlash(d: Date)
    ensures '/' !in DateText(d)
  {
    PadRoundTrips(d.year, 4);
    PadRoundTrips(d.month, 2);
    PadRoundTrips(d.dayOfMonth, 2);
  }

  /** An occurrence identity determines its date, its anchor and its account, whatever the account key. */
  lemma OccurrenceIDIsInjective(d: Date, i: nat, k: string, e: Date, j: nat, l: string)
    requires OccurrenceID(DateText(d), i, k) == OccurrenceID(DateText(e), j, l)
    ensures SameDate(d, e) && i == j && k == l
  {
    DateTextHasNoSlash(d);
    DateTextHasNoSlash(e);
    ItoaRoundTrips(i);
    ItoaRoundTrips(j);
    IdPieces(DateText(d), Itoa(i), k);
    IdPieces(DateText(e), Itoa(j), l);
    SplitTwiceIsUnique(DateText(d), ['p'] + Itoa(i), k, DateText(e), ['p'] + Itoa(j), l, '/');
    assert (['p'] + Itoa(i))[1..] == Itoa(i) && (['p'] + Itoa(j))[1..] == Itoa(j);
    DateTextIsInjective(d, e);
  }

  lemma IdPieces(date: string, index: string, key: string)
    ensures date + "/p" + index + "/" + key == date + ['/'] + (['p'] + index) + ['/'] + key
  {
    assert "/p" == ['/'] + ['p'];
  }

  lemma {:induction false} IdsAreRendered(z: Zone, date: Date, lead: int, span: int, blackouts: seq<Interval>,
                                          accounts: seq<string>, rank: Rank, anchors: seq<int>, i: nat)
    requires PlanAnchors(z, date, lead, span, blackouts, accounts, rank, anchors).Planned?
    requires i < |PlanAnchors(z, date, lead, span, blackouts, accounts, rank, anchors).occurrences|
    ensures var o := PlanAnchors(z, date, lead, span, blackouts, accounts, rank, anchors).occurrences[i];
            o.id == OccurrenceID(DateText(date), o.periodIndex, o.accountKey) && o.localDate == DateText(date)
  {
    var n := |anchors| - 1;
    var before := PlanAnchors(z, date, lead, span, blackouts, accounts, rank, anchors[..n]).occurrences;
    var ranked := RankedAccounts(accounts, rank, LocalOccurrence(DateText(date), n));
    var own := AnchorPlan(z, date, n, Preheat(lead, span, anchors[n]), blackouts, ranked);
    assert PlanAnchors(z, date, lead, span, blackouts, accounts, rank, anchors).occurrences == before + own;
    if i < |before| {
      IdsAreRendered(z, date, lead, span, blackouts, accounts, rank, anchors[..n], i);
    } else {
      assert own[i - |before|].id
          == OccurrenceID(DateText(date), own[i - |before|].periodIndex, own[i - |before|].accountKey);
    }
  }

  lemma {:induction false} DistinctOccursOnce(s: seq<string>, key: string)
    requires Distinct(s)
    ensures multiset(s)[key] <= 1
  {
    if s != [] {
      var n := |s| - 1;
      DistinctOccursOnce(s[..n], key);
      assert s == s[..n] + [s[n]];
      assert key in s[..n] <==> key in multiset(s[..n]);
    }
  }

  /** All identities of one plan are different. */
  lemma PlanIdsAreDistinct(z: Zone, date: Date, lead: int, span: int, blackouts: seq<Interval>,
                           accounts: seq<string>, rank: Rank, anchors: seq<int>)
    requires Distinct(accounts)
    requires PlanAnchors(z, date, lead, span, blackouts, accounts, rank, anchors).Planned?
    ensures var plan := PlanAnchors(z, date, lead, span, blackouts, accounts, rank, anchors).occurrences;
            forall i, j :: 0 <= i < j < |plan| ==> plan[i].id != plan[j].id
  {
    var plan := PlanAnchors(z, date, lead, span, blackouts, accounts, rank, anchors).occurrences;
    forall i, j | 0 <= i < j < |plan| ensures plan[i].id != plan[j].id {
      IdsAreRendered(z, date, lead, span, blackouts, accounts, rank, anchors, i);
      IdsAreRendered(z, date, lead, span, blackouts, accounts, rank, anchors, j);
      if plan[i].id == plan[j].id {
        OccurrenceIDIsInjective(date, plan[i].periodIndex, plan[i].accountKey,
                                date, plan[j].periodIndex, plan[j].accountKey);
        TimesPlannedTwice(plan, i, j);
        EveryAccountOncePerAnchor(z, date, lead, span, blackouts, accounts, rank, anchors,
                                  plan[i].periodIndex, plan[i].accountKey);
        DistinctOccursOnce(accounts, plan[i].accountKey);
      }
    }
  }

  /** Plans of different dates share no identity, even under different configurations and zones. */
  lemma PlansOfDifferentDatesAreDisjoint(
    z: Zone, d: Date, lead: int, span: int, blackouts: seq<Interval>, accounts: seq<string>, anchors: seq<int>,
    z': Zone, e: Date, lead': int, span': int, blackouts': seq<Interval>, accounts': seq<string>, anchors': seq<int>,
    rank: Rank, i: nat, j: nat)
    requires !SameDate(d, e)
    requires var p := PlanAnchors(z, d, lead, span, blackouts, accounts, rank, anchors);
             p.Planned? && i < |p.occurrences|
    requires var q := PlanAnchors(z', e, lead', span', blackouts', accounts', rank, anchors');
             q.Planned? && j < |q.occurrences|
    ensures PlanAnchors(z, d, lead, span, blackouts, accounts, rank, anchors).occurrences[i].id
         != PlanAnchors(z', e, lead', span', blackouts', accounts', rank, anchors').occurrences[j].id
  {
    var o := PlanAnchors(z, d, lead, span, blackouts, accounts, rank, anchors).occurrences[i];
    var u := PlanAnchors(z', e, lead', span', blackouts', accounts', rank, anchors').occurrences[j];
    IdsAreRendered(z, d, lead, span, blackouts, accounts, rank, anchors, i);
    IdsAreRendered(z', e, lead', span', blackouts', accounts', rank, anchors', j);
    if o.id == u.id {
      OccurrenceIDIsInjective(d, o.periodIndex, o.accountKey, e, u.periodIndex, u.accountKey);
    }
  }
}
