/** How guardrail holds come and go over runs, told from the views, the floors and the writes. */
module QuotaHolds {
  import opened Domain
  import opened Quota
  import opened QuotaRuns
  import opened QuotaDecisions

  // ----- what a view says -----

  ghost predicate FreshLow(view: SnapshotView, floors: Floors) {
    !view.failed && !view.stale && SomeLongLow(view.snapshot.windows, floors.longPercent)
  }

  ghost predicate Recovered(view: SnapshotView, floors: Floors) {
    && !view.failed && !view.stale
    && |view.snapshot.windows| >= 2 && !SomeLongLow(view.snapshot.windows, floors.longPercent)
  }

  /** Among windows of which exactly one is marked short, the others are the long ones. */
  lemma LongWindowsAreTheOthers(windows: seq<Window>, k: nat, floor: int)
    requires k < |windows| && windows[k].short && forall j :: 0 <= j < |windows| && j != k ==> !windows[j].short
    ensures SomeLongLow(windows, floor) <==>
              exists j :: 0 <= j < |windows| && j != k && windows[j].remainingPercent <= floor
  {
    assert IsShortest(windows, k);
    if j: nat :| j < |windows| && j != k && windows[j].remainingPercent <= floor {
      assert IsLong(windows, k, j);
    }
  }

  /** Without any mark, the first window of the least duration is the short one. */
  lemma LongWindowsAreNotTheShortest(windows: seq<Window>, k: nat, floor: int)
    requires k < |windows| && forall j :: 0 <= j < |windows| ==> !windows[j].short
    requires forall j :: 0 <= j < |windows| ==> windows[k].durationMinutes <= windows[j].durationMinutes
    requires forall j :: 0 <= j < k ==> windows[k].durationMinutes < windows[j].durationMinutes
    ensures SomeLongLow(windows, floor) <==>
              exists j :: 0 <= j < |windows| && j != k && windows[j].remainingPercent <= floor
  {
    assert IsShortest(windows, k);
    if j: nat :| j < |windows| && j != k && windows[j].remainingPercent <= floor {
      assert IsLong(windows, k, j);
    }
  }

  /** The shortest window suffices by its own quota and the minutes left to its reset. */
  lemma ShortWindowSuffices(windows: seq<Window>, k: nat, floors: Floors, now: Instant)
    requires IsShortest(windows, k)
    ensures ShortSuffices(windows, floors, now) <==>
              && windows[k].remainingPercent >= floors.quotaPercent
              && windows[k].resetAt - now >= floors.windowMinutes * 60_000_000_000
  {
    if i: nat :| IsShortest(windows, i) { ShortestIsUnique(windows, i, k); }
  }

  // ----- one step -----

  /** An evaluation that has chosen to change the hold saw a low view without a hold, or a recovery with one. */
  lemma ChosenSawWhy(events: seq<Event>, i: nat)
    requires i in Run(INITIAL, events).evals && Run(INITIAL, events).evals[i].Chosen?
    ensures var v := Run(INITIAL, events).evals[i];
            if v.held then Recovered(v.view, v.floors) && v.transition == Release
            else FreshLow(v.view, v.floors) && v.transition == Establish
  {
    RunReads(events);
  }

  /** The step writes what an evaluation of the account has chosen, and the write reaches the disk. */
  ghost predicate WritesFor(g: Guard, e: Event, key: Key) {
    && e.EvaluationWrites? && e.write != Lost
    && e.evaluation in g.evals && g.evals[e.evaluation].Chosen? && g.evals[e.evaluation].key == key
  }

  ghost predicate WritesLow(g: Guard, e: Event, key: Key) {
    WritesFor(g, e, key) && FreshLow(g.evals[e.evaluation].view, g.evals[e.evaluation].floors)
  }

  ghost predicate WritesRecovery(g: Guard, e: Event, key: Key) {
    WritesFor(g, e, key) && Recovered(g.evals[e.evaluation].view, g.evals[e.evaluation].floors)
  }

  ghost function HoldOf(g: Guard, key: Key): Option<Hold> {
    if key in g.holds then Some(g.holds[key]) else None
  }

  /** In every reachable state and for every step: a hold is there afterwards exactly if it was and no recovery is
      written, or a low view is written; a new one bears the instant and the floor of that evaluation, an old one
      those it had. */
  lemma HoldsChangeExactlyWhen(events: seq<Event>, e: Event, key: Key)
    ensures var g := Run(INITIAL, events);
            HoldOf(Next(g, e), key)
            == if WritesRecovery(g, e, key) then None
               else if WritesLow(g, e, key) && key !in g.holds then
                 Some(RuntimeState.Hold(g.evals[e.evaluation].now, g.evals[e.evaluation].floors.longPercent))
               else HoldOf(g, key)
  {
    var g := Run(INITIAL, events);
    if e.EvaluationWrites? && e.evaluation in g.evals && g.evals[e.evaluation].Chosen? {
      ChosenSawWhy(events, e.evaluation);
    }
  }

  /** An evaluation goes on to write exactly if the store can be read and its view is low without a hold, or recovered
      with one; it keeps what it saw. Otherwise it decides at once. */
  lemma GoesOnExactlyWhen(events: seq<Event>, i: nat, readable: bool)
    requires i in Run(INITIAL, events).evals && Run(INITIAL, events).evals[i].Viewed?
    ensures var g := Run(INITIAL, events);
            var u, v := Next(g, EvaluationChooses(i, readable)), g.evals[i];
            if && (readable || v.key == "") && v.seen.Some?
               && (if v.key in g.holds then Recovered(v.seen.value, v.floors) else FreshLow(v.seen.value, v.floors))
            then i in u.evals && u.evals[i].Chosen? && u.evals[i].view == v.seen.value && u.evals[i].key == v.key
                 && u.evals[i].floors == v.floors && u.evals[i].now == v.now && u.evals[i].held == (v.key in g.holds)
                 && u.decisions == g.decisions
            else i !in u.evals && |u.decisions| == |g.decisions| + 1
  {
  }

  /** An evaluation that begins has seen what is cached for its account, or that nothing is. */
  lemma BeginningSees(g: Guard, i: nat, key: Key, floors: Floors, now: Instant)
    requires i !in g.evals
    ensures var u := Next(g, EvaluationViews(i, key, floors, now));
            && i in u.evals && u.evals[i].Viewed? && u.evals[i].key == key && u.evals[i].floors == floors
            && u.evals[i].now == now && u.decisions == g.decisions && u.holds == g.holds && u.cache == g.cache
            && (u.evals[i].seen.None? <==> key !in g.cache.entries)
            && (key in g.cache.entries ==>
                  && u.evals[i].seen.value.snapshot == g.cache.entries[key].snapshot
                  && u.evals[i].seen.value.failed == g.cache.entries[key].failed)
  {
  }

  /** An evaluation that writes has decided, whichever way its write ends. */
  lemma WritingDecides(g: Guard, i: nat, write: Write)
    requires i in g.evals && g.evals[i].Chosen?
    ensures var u := Next(g, EvaluationWrites(i, write));
            && i !in u.evals && |u.decisions| == |g.decisions| + 1
            && u.decisions[|g.decisions|].key == g.evals[i].key
            && u.decisions[|g.decisions|].view == Some(g.evals[i].view) && u.decisions[|g.decisions|].write == write
  {
  }

  /** Who asks while a refresh is in flight joins it and is served what it brings; a cleared cache keeps the refreshes in
      flight, and a restart keeps nothing but the holds. */
  lemma SharingSteps(g: Guard, caller: nat, key: Key, at: Instant)
    ensures caller !in g.refreshers && key != "" && key in g.cache.flights ==>
              && caller in Next(g, RefreshBegins(caller, key, at)).refreshers
              && Next(g, RefreshBegins(caller, key, at)).refreshers[caller] == Joined(key, g.cache.flights[key].id)
    ensures caller !in g.refreshers && key != "" && key !in g.cache.flights ==>
              && caller in Next(g, RefreshBegins(caller, key, at)).refreshers
              && Next(g, RefreshBegins(caller, key, at)).refreshers[caller] == Owner(key, g.cache.nextFlight)
    ensures caller in g.refreshers && g.refreshers[caller].Joined? && g.refreshers[caller].flight in g.cache.landings ==>
              var u := Next(g, RefreshJoins(caller));
              && caller in u.refreshers
              && u.refreshers[caller] == Served(g.refreshers[caller].flight,
                                                g.cache.landings[g.refreshers[caller].flight])
    ensures var u := Next(g, CacheCleared);
            && u.cache.entries == map[] && u.cache.flights == g.cache.flights && u.cache.landings == g.cache.landings
            && u.refreshers == g.refreshers && u.evals == g.evals && u.holds == g.holds && u.decisions == g.decisions
    ensures var u := Next(g, Restarted);
            && u.cache.entries == map[] && u.cache.flights == map[] && u.refreshers == map[] && u.evals == map[]
            && u.holds == g.holds && u.decisions == g.decisions
  {
  }

  // ----- runs -----

  lemma {:induction false} RunGoesOn(first: seq<Event>, later: seq<Event>)
    ensures Run(INITIAL, first + later) == Run(Run(INITIAL, first), later)
  {
    if later == [] {
      assert first + later == first;
    } else {
      var init := later[..|later| - 1];
      assert (first + later)[..|first + later| - 1] == first + init;
      RunGoesOn(first, init);
    }
  }

  /** The event neither restarts the process nor belongs to the evaluation. */
  ghost predicate LeavesAlone(e: Event, i: nat) {
    match e
    case Restarted => false
    case EvaluationChooses(j, _) => i != j
    case EvaluationWrites(j, _) => i != j
    case _ => true
  }

  lemma {:induction false} EvaluationWaits(g: Guard, later: seq<Event>, i: nat)
    requires i in g.evals && forall k :: 0 <= k < |later| ==> LeavesAlone(later[k], i)
    ensures i in Run(g, later).evals && Run(g, later).evals[i] == g.evals[i]
  {
    if later != [] {
      var init, e := later[..|later| - 1], later[|later| - 1];
      EvaluationWaits(g, init, i);
      assert LeavesAlone(e, i);
    }
  }

  /** An evaluation that has seen a fresh, error-free, low view and finds no hold leaves one for the account, whatever
      happens before its write, unless that write is lost or the process restarts; with its instant and floor, if no
      other evaluation has stored one in between. */
  lemma LowViewStoresAHold(events: seq<Event>, i: nat, readable: bool, between: seq<Event>, write: Write)
    requires i in Run(INITIAL, events).evals && Run(INITIAL, events).evals[i].Viewed?
    requires var g := Run(INITIAL, events);
             && (readable || g.evals[i].key == "") && g.evals[i].key !in g.holds
             && g.evals[i].seen.Some? && FreshLow(g.evals[i].seen.value, g.evals[i].floors)
    requires forall k :: 0 <= k < |between| ==> LeavesAlone(between[k], i)
    requires write != Lost
    ensures var v := Run(INITIAL, events).evals[i];
            var before := events + [EvaluationChooses(i, readable)] + between;
            var g := Run(INITIAL, before + [EvaluationWrites(i, write)]);
            && v.key in g.holds
            && (v.key !in Run(INITIAL, before).holds ==>
                  g.holds[v.key] == RuntimeState.Hold(v.now, v.floors.longPercent))
  {
    var choice := [EvaluationChooses(i, readable)];
    var before := events + choice + between;
    assert (events + choice)[..|events|] == events;
    GoesOnExactlyWhen(events, i, readable);
    EvaluationWaits(Run(INITIAL, events + choice), between, i);
    RunGoesOn(events + choice, between);
    assert (before + [EvaluationWrites(i, write)])[..|before|] == before;
    HoldsChangeExactlyWhen(before, EvaluationWrites(i, write), Run(INITIAL, events).evals[i].key);
  }

  /** No recovery of the account is written while these events follow. */
  ghost predicate NoRecovery(events: seq<Event>, later: seq<Event>, key: Key) {
    forall n :: 0 <= n < |later| ==> !WritesRecovery(Run(INITIAL, events + later[..n]), later[n], key)
  }

  lemma NoRecoveryBefore(events: seq<Event>, later: seq<Event>, key: Key, n: nat)
    requires NoRecovery(events, later, key) && n <= |later|
    ensures NoRecovery(events, later[..n], key)
  {
    forall m | 0 <= m < n ensures !WritesRecovery(Run(INITIAL, events + later[..n][..m]), later[..n][m], key) {
      assert later[..n][..m] == later[..m];
    }
  }

  lemma OneMoreEvent(events: seq<Event>, init: seq<Event>, e: Event, key: Key)
    ensures HoldOf(Run(INITIAL, events + (init + [e])), key) == HoldOf(Next(Run(INITIAL, events + init), e), key)
  {
    var all := events + (init + [e]);
    assert all[..|all| - 1] == events + init;
  }

  lemma {:induction false} HoldSurvives(events: seq<Event>, later: seq<Event>, key: Key)
    requires key in Run(INITIAL, events).holds && NoRecovery(events, later, key)
    ensures HoldOf(Run(INITIAL, events + later), key) == HoldOf(Run(INITIAL, events), key)
  {
    if later == [] {
      assert events + later == events;
    } else {
      var n := |later| - 1;
      assert later == later[..n] + [later[n]];
      NoRecoveryBefore(events, later, key, n);
      HoldSurvives(events, later[..n], key);
      HoldsChangeExactlyWhen(events + later[..n], later[n], key);
      OneMoreEvent(events, later[..n], later[n], key);
    }
  }

  /** While a stored hold is not lifted by a written recovery, every decision taken from then on for an absent, stale,
      failed or low view is to hold, through cleared caches, failed refreshes and restarts. */
  lemma StoredHoldDecides(events: seq<Event>, later: seq<Event>, k: nat)
    requires k < |Run(INITIAL, events + later).decisions|
    requires var d := Run(INITIAL, events + later).decisions[k];
             && d.key in Run(INITIAL, events).holds && |events| <= d.chosenAt && Unproven(d.view, d.floors)
             && NoRecovery(events, later, d.key)
    ensures Run(INITIAL, events + later).decisions[k].decision == GuardrailHold
  {
    var all := events + later;
    var d := Run(INITIAL, all).decisions[k];
    DecisionsInRuns(all, k);
    var n := d.chosenAt - |events|;
    assert all[..d.chosenAt] == events + later[..n];
    NoRecoveryBefore(events, later, d.key, n);
    HoldSurvives(events, later[..n], d.key);
  }
}
