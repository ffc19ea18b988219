/** What every run of refreshes, evaluations, cache clears and restarts keeps: one refresh at a time per account, and a
    hold that only a proven recovery removes. */
module QuotaRuns {
  import opened Domain
  import opened Quota

  // ----- decisions -----

  /** With a stored hold the guardrail yields exactly to a fresh, error-free snapshot without a low long window
      (and, if that snapshot proves recovery, once the removal of the hold is written). */
  lemma HeldYieldsExactlyWhen(view: Option<SnapshotView>, floors: Floors, now: Instant, write: Write)
    ensures Evaluation(view, true, floors, now, true, write) != GuardrailHold <==>
              && view.Some? && !view.value.failed && !view.value.stale
              && !SomeLongLow(view.value.snapshot.windows, floors.longPercent)
              && (HasLong(view.value.snapshot.windows) ==> write.Ok?)
  {
  }

  /** An absent, stale or failed snapshot is waved through as unknown exactly when no hold is stored; an unreadable
      store never waves anything through. */
  lemma FailsOpenExactlyWhen(
    view: Option<SnapshotView>, held: bool, floors: Floors, now: Instant, readable: bool, write: Write)
    ensures Evaluation(view, held, floors, now, readable, write) == UnknownFailOpen <==>
              readable && !held && (view.None? || view.value.failed)
  {
  }

  /** A window counts as sufficient only on a fresh, error-free snapshot whose long windows are all above the
      floor and whose shortest window has quota and time to spare. */
  lemma SufficientExactlyWhen(
    view: Option<SnapshotView>, held: bool, floors: Floors, now: Instant, readable: bool, write: Write)
    ensures Evaluation(view, held, floors, now, readable, write) == SufficientWindow <==>
              && readable && view.Some? && !view.value.failed && !view.value.stale
              && !SomeLongLow(view.value.snapshot.windows, floors.longPercent)
              && ShortSuffices(view.value.snapshot.windows, floors, now)
              && (held && HasLong(view.value.snapshot.windows) ==> write.Ok?)
  {
  }

  /** The two guardrail triggers exclude one another and, on a fresh snapshot with long windows, one of them fires. */
  lemma LowAndRecoveredAreComplements(view: SnapshotView, floors: Floors)
    requires !view.failed && !view.stale && HasLong(view.snapshot.windows)
    ensures (TransitionFor(view, false, floors) == Establish) <==> (TransitionFor(view, true, floors) != Release)
    ensures TransitionFor(view, true, floors) == Release <==> ProvesRecovery(view, floors)
  {
  }

  /** A fresh snapshot without any long window slips past a stored hold: here it is even found sufficient, and the
      hold stays. */
  lemma HoldIsPassedWithoutLongWindows()
    ensures var window := Window(true, 300, 80, 2 * HOUR);
            var view := SnapshotView(Snapshot("a", 1, [window]), false, false);
            var floors := Floors(20, 50, 60);
            && Evaluation(Some(view), true, floors, 1, true, Ok) == SufficientWindow
            && TransitionFor(view, true, floors) == Keep
  {
    var windows := [Window(true, 300, 80, 2 * HOUR)];
    assert IsShortest(windows, 0);
  }

  /** A stored hold is passed and kept exactly when the fresh, error-free snapshot has no long window at all. */
  lemma PassedAndKeptExactlyWhen(view: Option<SnapshotView>, floors: Floors, now: Instant)
    ensures (Evaluation(view, true, floors, now, true, Ok) != GuardrailHold
             && view.Some? && TransitionFor(view.value, true, floors) == Keep) <==>
              && view.Some? && !view.value.failed && !view.value.stale && !HasLong(view.value.snapshot.windows)
  {
    if view.Some? && !HasLong(view.value.snapshot.windows) {
      NoLongNoneLow(view.value.snapshot.windows, floors.longPercent);
    }
  }

  lemma NoLongNoneLow(windows: seq<Window>, floor: int)
    requires !HasLong(windows)
    ensures !SomeLongLow(windows, floor)
  {
  }

  // ----- runs -----

  /** One evaluation between its three sections: it has seen a view, and then perhaps chosen to change the hold. Both
      kinds remember after how many events they read. */
  datatype Eval =
    | Viewed(key: Key, floors: Floors, now: Instant, seen: Option<SnapshotView>, viewedAt: nat)
    | Chosen(key: Key, floors: Floors, now: Instant, view: SnapshotView, viewedAt: nat,
             held: bool, transition: Transition, chosenAt: nat)

  /** A decision, with everything it was taken from. */
  datatype Told = Told(
    key: Key, floors: Floors, now: Instant, view: Option<SnapshotView>, viewedAt: nat,
    readable: bool, held: bool, chosenAt: nat, write: Write, decision: Decision)

  /** A caller of Refresh: the owner of its flight, or one that joined it. */
  datatype Refresher = Owner(key: Key, flight: nat) | Joined(key: Key, flight: nat) | Served(flight: nat, landing: Landing)

  type Refreshers = map<nat, Refresher>

  /** `holds` survives a restart; `decisions` and `clock`, the number of events so far, are the history. */
  datatype Guard = Guard(
    cache: Cache, holds: map<Key, Hold>, refreshers: Refreshers, evals: map<nat, Eval>,
    decisions: seq<Told>, clock: nat)

  const INITIAL := Guard(EMPTY_CACHE, map[], map[], map[], [], 0)

  datatype Event =
    | RefreshBegins(caller: nat, key: Key, at: Instant)
    | RefreshEnds(caller: nat, fetched: Option<seq<Window>>)
    | RefreshJoins(caller: nat)
    | CacheCleared
    | Restarted
    | EvaluationViews(evaluation: nat, key: Key, floors: Floors, now: Instant)
    | EvaluationChooses(evaluation: nat, readable: bool)
    | EvaluationWrites(evaluation: nat, write: Write)

  /** An evaluation reads the stored hold and either decides at once or sets out to change the hold. */
  ghost function ChooseEval(g: Guard, i: nat, readable: bool): Guard
    requires i in g.evals && g.evals[i].Viewed?
  {
    var v := g.evals[i];
    var held := v.key in g.holds;
    if readable && v.seen.Some? && !TransitionFor(v.seen.value, held, v.floors).Keep? then
      g.(evals := g.evals[i := Chosen(v.key, v.floors, v.now, v.seen.value, v.viewedAt, held,
                                      TransitionFor(v.seen.value, held, v.floors), g.clock)])
    else
      var decision := if !readable then GuardrailHold
                      else if v.seen.None? then if held then GuardrailHold else UnknownFailOpen
                      else Decide(v.seen.value, held, v.floors, v.now);
      g.(evals := g.evals - {i},
         decisions := g.decisions + [Told(v.key, v.floors, v.now, v.seen, v.viewedAt, readable, held, g.clock, Ok,
                                          decision)])
  }

  /** The hold is written, and the evaluation decides by the hold it left or, if the write failed, decides hold. */
  ghost function WriteEval(g: Guard, i: nat, write: Write): Guard
    requires i in g.evals && g.evals[i].Chosen?
  {
    var v := g.evals[i];
    var decision := if write.Ok? then Decide(v.view, v.transition.Establish?, v.floors, v.now) else GuardrailHold;
    g.(holds := Written(g.holds, Applied(g.holds, v.key, v.transition, v.floors, v.now), write),
       evals := g.evals - {i},
       decisions := g.decisions + [Told(v.key, v.floors, v.now, Some(v.view), v.viewedAt, true, v.held, v.chosenAt,
                                        write, decision)])
  }

  ghost function Happens(g: Guard, e: Event): Guard {
    match e
    case RefreshBegins(caller, key, at) =>
      if caller in g.refreshers || key == "" then g
      else
        var c := BeginRefresh(g.cache, key, at);
        var id := c.flights[key].id;
        g.(cache := c,
           refreshers := g.refreshers[caller := if key in g.cache.flights then Joined(key, id) else Owner(key, id)])
    case RefreshEnds(caller, fetched) =>
      if caller !in g.refreshers || !g.refreshers[caller].Owner? || g.refreshers[caller].key !in g.cache.flights then g
      else
        var id := g.cache.flights[g.refreshers[caller].key].id;
        var c := EndRefresh(g.cache, g.refreshers[caller].key, fetched);
        g.(cache := c, refreshers := g.refreshers[caller := Served(id, c.landings[id])])
    case RefreshJoins(caller) =>
      if caller !in g.refreshers || !g.refreshers[caller].Joined?
         || g.refreshers[caller].flight !in g.cache.landings then g
      else
        var id := g.refreshers[caller].flight;
        g.(refreshers := g.refreshers[caller := Served(id, g.cache.landings[id])])
    case CacheCleared => g.(cache := g.cache.(entries := map[]))
    case Restarted =>
      g.(cache := EMPTY_CACHE.(nextFlight := g.cache.nextFlight), refreshers := map[], evals := map[])
    case EvaluationViews(i, key, floors, now) =>
      if i in g.evals then g
      else g.(evals := g.evals[i := Viewed(key, floors, now, ViewOf(g.cache, key, now), g.clock)])
    case EvaluationChooses(i, readable) =>
      if i !in g.evals || !g.evals[i].Viewed? then g else ChooseEval(g, i, readable || g.evals[i].key == "")
    case EvaluationWrites(i, write) =>
      if i !in g.evals || !g.evals[i].Chosen? then g else WriteEval(g, i, write)
  }

  ghost function Next(g: Guard, e: Event): Guard {
    Happens(g, e).(clock := g.clock + 1)
  }

  ghost function Run(g: Guard, events: seq<Event>): Guard {
    if events == [] then g else Next(Run(g, events[..|events| - 1]), events[|events| - 1])
  }

  // ----- one refresh at a time -----

  ghost predicate FlightOwned(c: Cache, rs: Refreshers, key: Key)
    requires key in c.flights
  {
    exists caller :: caller in rs && rs[caller] == Owner(key, c.flights[key].id)
  }

  ghost predicate RefresherOk(c: Cache, rs: Refreshers, caller: nat)
    requires caller in rs
  {
    match rs[caller]
    case Owner(key, id) =>
      && key in c.flights && c.flights[key].id == id && id < c.nextFlight
      && (forall other :: other in rs && other != caller && rs[other].Owner? ==> rs[other].key != key)
    case Joined(key, id) =>
      && id < c.nextFlight
      && (id in c.landings || (key in c.flights && c.flights[key].id == id))
    case Served(id, landing) => id in c.landings && c.landings[id] == landing
  }

  ghost predicate CacheOk(c: Cache) {
    && (forall id :: id in c.landings ==> id < c.nextFlight)
    && (forall key :: key in c.flights ==> c.flights[key].id < c.nextFlight && c.flights[key].id !in c.landings)
    && (forall j, k :: j in c.flights && k in c.flights && j != k ==> c.flights[j].id != c.flights[k].id)
    && (forall key :: key in c.entries && !c.entries[key].failed ==>
          c.entries[key].snapshot.capturedAt == c.entries[key].lastAttemptAt && c.entries[key].snapshot.accountKey == key)
  }

  ghost predicate RefreshOk(c: Cache, rs: Refreshers) {
    && CacheOk(c)
    && (forall caller :: caller in rs ==> RefresherOk(c, rs, caller))
    && (forall key :: key in c.flights ==> FlightOwned(c, rs, key))
  }

  ghost predicate EvalOk(v: Eval) {
    v.Chosen? && v.transition.Release? ==> ProvesRecovery(v.view, v.floors)
  }

  ghost predicate Inv(g: Guard) {
    RefreshOk(g.cache, g.refreshers) && (forall i :: i in g.evals ==> EvalOk(g.evals[i]))
  }

  lemma BeginsKeeps(c: Cache, rs: Refreshers, caller: nat, key: Key, at: Instant, u: Cache, us: Refreshers)
    requires RefreshOk(c, rs) && caller !in rs
    requires u == BeginRefresh(c, key, at)
    requires us == rs[caller := if key in c.flights then Joined(key, u.flights[key].id) else Owner(key, u.flights[key].id)]
    ensures RefreshOk(u, us)
  {
    forall other | other in us ensures RefresherOk(u, us, other) {
      if other != caller { assert RefresherOk(c, rs, other); }
      forall o | o in rs ensures RefresherOk(c, rs, o) {}
    }
    forall k | k in u.flights ensures FlightOwned(u, us, k) {
      if k in c.flights {
        assert FlightOwned(c, rs, k);
        var o :| o in rs && rs[o] == Owner(k, c.flights[k].id);
        assert us[o] == Owner(k, u.flights[k].id);
      } else {
        assert us[caller] == Owner(k, u.flights[k].id);
      }
    }
  }

  lemma EndsKeeps(
    c: Cache, rs: Refreshers, caller: nat, key: Key, fetched: Option<seq<Window>>, u: Cache, us: Refreshers)
    requires RefreshOk(c, rs) && caller in rs && rs[caller].Owner? && rs[caller].key == key && key in c.flights
    requires u == EndRefresh(c, key, fetched)
    requires us == rs[caller := Served(c.flights[key].id, u.landings[c.flights[key].id])]
    ensures RefreshOk(u, us)
  {
    assert RefresherOk(c, rs, caller);
    forall other | other in us ensures RefresherOk(u, us, other) { assert RefresherOk(c, rs, other); }
    forall k | k in u.flights ensures FlightOwned(u, us, k) {
      assert FlightOwned(c, rs, k);
      var o :| o in rs && rs[o] == Owner(k, c.flights[k].id);
      assert us[o] == Owner(k, u.flights[k].id);
    }
  }

  lemma JoinsKeeps(c: Cache, rs: Refreshers, caller: nat, us: Refreshers)
    requires RefreshOk(c, rs) && caller in rs && rs[caller].Joined? && rs[caller].flight in c.landings
    requires us == rs[caller := Served(rs[caller].flight, c.landings[rs[caller].flight])]
    ensures RefreshOk(c, us)
  {
    forall other | other in us ensures RefresherOk(c, us, other) { assert RefresherOk(c, rs, other); }
    forall k | k in c.flights ensures FlightOwned(c, us, k) {
      assert FlightOwned(c, rs, k);
      var o :| o in rs && rs[o] == Owner(k, c.flights[k].id);
      assert us[o] == Owner(k, c.flights[k].id);
    }
  }

  lemma ClearKeeps(c: Cache, rs: Refreshers)
    requires RefreshOk(c, rs)
    ensures RefreshOk(c.(entries := map[]), rs)
  {
    var u := c.(entries := map[]);
    forall other | other in rs ensures RefresherOk(u, rs, other) { assert RefresherOk(c, rs, other); }
    forall k | k in u.flights ensures FlightOwned(u, rs, k) { assert FlightOwned(c, rs, k); }
  }

  lemma RefreshesKeep(g: Guard, e: Event)
    requires RefreshOk(g.cache, g.refreshers)
    ensures RefreshOk(Next(g, e).cache, Next(g, e).refreshers)
  {
    var u := Next(g, e);
    match e
    case RefreshBegins(caller, key, at) =>
      if caller !in g.refreshers && key != "" {
        BeginsKeeps(g.cache, g.refreshers, caller, key, at, u.cache, u.refreshers);
      }
    case RefreshEnds(caller, fetched) =>
      if caller in g.refreshers && g.refreshers[caller].Owner? && g.refreshers[caller].key in g.cache.flights {
        EndsKeeps(g.cache, g.refreshers, caller, g.refreshers[caller].key, fetched, u.cache, u.refreshers);
      }
    case RefreshJoins(caller) =>
      if caller in g.refreshers && g.refreshers[caller].Joined? && g.refreshers[caller].flight in g.cache.landings {
        JoinsKeeps(g.cache, g.refreshers, caller, u.refreshers);
      }
    case CacheCleared => ClearKeeps(g.cache, g.refreshers);
    case _ =>
  }

  lemma EvaluationsKeep(g: Guard, e: Event)
    requires forall i :: i in g.evals ==> EvalOk(g.evals[i])
    ensures forall i :: i in Next(g, e).evals ==> EvalOk(Next(g, e).evals[i])
  {
  }

  lemma {:induction false} RunKeeps(events: seq<Event>)
    ensures Inv(Run(INITIAL, events))
  {
    if events != [] {
      var g, e := Run(INITIAL, events[..|events| - 1]), events[|events| - 1];
      RunKeeps(events[..|events| - 1]);
      RefreshesKeep(g, e);
      EvaluationsKeep(g, e);
    }
  }

  /** At most one refresh per account is in flight, and everyone who shared a flight was served the same. */
  lemma RefreshesAreShared(events: seq<Event>, a: nat, b: nat)
    requires a in Run(INITIAL, events).refreshers && b in Run(INITIAL, events).refreshers
    ensures var g := Run(INITIAL, events);
            && (g.refreshers[a].Owner? && g.refreshers[b].Owner? && g.refreshers[a].key == g.refreshers[b].key ==> a == b)
            && (g.refreshers[a].Served? && g.refreshers[b].Served? && g.refreshers[a].flight == g.refreshers[b].flight ==>
                  g.refreshers[a].landing == g.refreshers[b].landing)
  {
    RunKeeps(events);
    var g := Run(INITIAL, events);
    assert RefresherOk(g.cache, g.refreshers, a) && RefresherOk(g.cache, g.refreshers, b);
  }

  // ----- the hold -----

  /** In every reachable state, a step that removes a hold is the write of an evaluation that saw a fresh, error-free
      snapshot with long windows, all above the floor; a restart, a refresh or a cleared cache never removes one. */
  lemma OnlyRecoveryLifts(events: seq<Event>, e: Event, key: Key)
    requires key in Run(INITIAL, events).holds && key !in Next(Run(INITIAL, events), e).holds
    ensures var g := Run(INITIAL, events);
            && e.EvaluationWrites? && e.evaluation in g.evals && !e.write.Lost?
            && var v := g.evals[e.evaluation];
               v.Chosen? && v.key == key && ProvesRecovery(v.view, v.floors)
  {
    RunKeeps(events);
  }

  ghost predicate Lifts(g: Guard, e: Event, key: Key) {
    && e.EvaluationWrites? && e.evaluation in g.evals && g.evals[e.evaluation].Chosen?
    && g.evals[e.evaluation].key == key && g.evals[e.evaluation].transition.Release?
  }

  lemma HoldStays(g: Guard, e: Event, key: Key)
    requires key in g.holds && !Lifts(g, e, key)
    ensures key in Next(g, e).holds && Next(g, e).holds[key] == g.holds[key]
  {
  }

  /** A hold survives, with the floor and instant of its establishment, every run without such an evaluation. */
  lemma {:induction false} HoldPersists(g: Guard, events: seq<Event>, key: Key)
    requires key in g.holds
    requires forall i :: 0 <= i < |events| ==> !Lifts(Run(g, events[..i]), events[i], key)
    ensures key in Run(g, events).holds && Run(g, events).holds[key] == g.holds[key]
  {
    if events != [] {
      var init := events[..|events| - 1];
      forall i | 0 <= i < |init| ensures !Lifts(Run(g, init[..i]), init[i], key) {
        assert init[..i] == events[..i];
      }
      HoldPersists(g, init, key);
      HoldStays(Run(g, init), events[|events| - 1], key);
    }
  }

  /** A view is what the cache holds, and a view without an error was captured by the last attempt: it is not stale
      exactly while that attempt is less than five minutes old. */
  lemma FreshMeansRecent(events: seq<Event>, key: Key, now: Instant)
    requires ViewOf(Run(INITIAL, events).cache, key, now).Some?
    requires !ViewOf(Run(INITIAL, events).cache, key, now).value.failed
    ensures var c := Run(INITIAL, events).cache;
            && key in c.entries && c.entries[key].snapshot.accountKey == key
            && (c.entries[key].lastAttemptAt != ZERO_TIME ==>
                  (ViewOf(c, key, now).value.stale <==> now - c.entries[key].lastAttemptAt >= STALE_AFTER))
  {
    RunKeeps(events);
  }
}
