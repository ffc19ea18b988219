/** What one successful reconciliation leaves behind, and why a second one at the same instant changes nothing. */
module Reconciling {
  import opened Domain
  import opened RuntimeState
  import opened SchedulerState
  import C = Config

  // ----- one occurrence at a time -----

  /** What the durable state holds about one occurrence: its entry and its next run. */
  datatype Line = Line(entry: Option<OccurrenceState>, next: Option<Instant>)

  function LineOf(d: RuntimeState, id: Id): Line {
    Line(if id in d.occurrences then Some(d.occurrences[id]) else None,
         if id in d.nextRuns then Some(d.nextRuns[id]) else None)
  }

  lemma LinesDetermineTheState(d: RuntimeState, e: RuntimeState)
    requires d.holds == e.holds && forall id: Id :: LineOf(d, id) == LineOf(e, id)
    ensures d == e
  {
    assert d.occurrences == e.occurrences by {
      forall id: Id ensures id in d.occurrences <==> id in e.occurrences { assert LineOf(d, id) == LineOf(e, id); }
      forall id | id in d.occurrences ensures d.occurrences[id] == e.occurrences[id] {
        assert LineOf(d, id) == LineOf(e, id);
      }
    }
    assert d.nextRuns == e.nextRuns by {
      forall id: Id ensures id in d.nextRuns <==> id in e.nextRuns { assert LineOf(d, id) == LineOf(e, id); }
      forall id | id in d.nextRuns ensures d.nextRuns[id] == e.nextRuns[id] { assert LineOf(d, id) == LineOf(e, id); }
    }
  }

  function ApplyLine(l: Line, plan: PlannedOccurrence, now: Instant): Line {
    match l.entry
    case None =>
      Line(Some(Refresh(OccurrenceState(plan, Blank, ZERO_TIME, false), plan, now)),
           if IsFuture(plan, now) then Some(plan.plannedAt) else l.next)
    case Some(o) =>
      if o.status.Planned? then
        Line(Some(Refresh(o, plan, now)), if IsFuture(plan, now) then Some(plan.plannedAt) else None)
      else if OwesCompensation(o) then Line(l.entry, Some(o.due))
      else l
  }

  predicate IsFor(plan: PlannedOccurrence, id: Id) { id != "" && TrimSpace(plan.id) == id }

  function ApplyLines(l: Line, plans: seq<PlannedOccurrence>, now: Instant, id: Id): Line {
    if plans == [] then l
    else
      var before := ApplyLines(l, plans[..|plans| - 1], now, id);
      if IsFor(plans[|plans| - 1], id) then ApplyLine(before, Stored(plans[|plans| - 1]), now) else before
  }

  function SettleLine(l: Line, desired: bool): Line {
    match l.entry
    case None => l.(next := None)
    case Some(o) =>
      if !desired && OwesCompensation(o) then Line(Some(MarkMissed(o, "selection_removed")), None)
      else if (desired || !o.status.Planned?) && MayRun(o) then l
      else l.(next := None)
  }

  lemma ApplyPlanByLine(d: RuntimeState, plan: PlannedOccurrence, now: Instant, id: Id)
    ensures LineOf(ApplyPlan(d, plan, now), id)
            == if IsFor(plan, id) then ApplyLine(LineOf(d, id), Stored(plan), now) else LineOf(d, id)
  {
  }

  lemma {:induction false} ApplyPlansByLine(d: RuntimeState, plans: seq<PlannedOccurrence>, now: Instant, id: Id)
    ensures LineOf(ApplyPlans(d, plans, now), id) == ApplyLines(LineOf(d, id), plans, now, id)
    ensures ApplyPlans(d, plans, now).holds == d.holds
  {
    if plans != [] {
      ApplyPlansByLine(d, plans[..|plans| - 1], now, id);
      ApplyPlanByLine(ApplyPlans(d, plans[..|plans| - 1], now), plans[|plans| - 1], now, id);
    }
  }

  lemma SettleByLine(d: RuntimeState, desired: set<Id>, id: Id)
    ensures LineOf(Prune(DropUnselected(d, desired)), id) == SettleLine(LineOf(d, id), id in desired)
  {
  }

  /** Reconciling treats every occurrence on its own: it applies the plans of that occurrence in order and then
      drops what is no longer selected. */
  lemma ReconcileByLine(d: RuntimeState, plans: seq<PlannedOccurrence>, now: Instant, id: Id)
    ensures LineOf(Reconcile(d, plans, now), id)
            == SettleLine(ApplyLines(LineOf(d, id), plans, now, id), id in Desired(plans))
    ensures Reconcile(d, plans, now).holds == d.holds
  {
    ApplyPlansByLine(d, plans, now, id);
    SettleByLine(ApplyPlans(d, plans, now), Desired(plans), id);
  }

  // ----- the next runs -----

  function RunAt(o: OccurrenceState): Instant {
    if o.status.Planned? then o.plan.plannedAt else o.due
  }

  /** A selected occurrence that may run has its instant as next run, and a planned one lies ahead. */
  predicate LineIsCurrent(l: Line, now: Instant) {
    && l.entry.Some?
    && (MayRun(l.entry.value) ==> l.next == Some(RunAt(l.entry.value)))
    && (l.entry.value.status.Planned? ==>
          l.entry.value.plan.plannedAt > now && l.entry.value.plan.plannedAt != ZERO_TIME)
  }

  predicate Selected(plans: seq<PlannedOccurrence>, id: Id) {
    plans != [] && (Selected(plans[..|plans| - 1], id) || IsFor(plans[|plans| - 1], id))
  }

  lemma DesiredByLast(plans: seq<PlannedOccurrence>, init: seq<PlannedOccurrence>, last: PlannedOccurrence, id: Id)
    requires plans == init + [last]
    ensures id in Desired(plans) <==> id in Desired(init) || IsFor(last, id)
  {
    DesiredGrows(init, last);
    if id in Desired(init) {
      var p :| p in init && TrimSpace(p.id) != "" && TrimSpace(p.id) == id;
    }
  }

  lemma {:induction false} DesiredByPlan(plans: seq<PlannedOccurrence>, id: Id)
    ensures id in Desired(plans) <==> Selected(plans, id)
  {
    if plans != [] {
      DesiredByPlan(plans[..|plans| - 1], id);
      DesiredByLast(plans, plans[..|plans| - 1], plans[|plans| - 1], id);
    }
  }

  lemma {:induction false} SelectedLinesAreCurrent(l: Line, plans: seq<PlannedOccurrence>, now: Instant, id: Id)
    ensures if Selected(plans, id) then LineIsCurrent(ApplyLines(l, plans, now, id), now)
            else ApplyLines(l, plans, now, id) == l
    ensures l.entry.Some? && !l.entry.value.status.Planned? ==> ApplyLines(l, plans, now, id).entry == l.entry
  {
    if plans != [] {
      SelectedLinesAreCurrent(l, plans[..|plans| - 1], now, id);
    }
  }

  /** After a reconciliation the next runs are exactly the selected occurrences that may run: a planned one at
      its planned instant, which lies ahead, and a failed one that owes a compensation at its due time. */
  lemma NextRunsAreExactlyDue(d: RuntimeState, plans: seq<PlannedOccurrence>, now: Instant, id: Id)
    ensures var e := Reconcile(d, plans, now);
            && (id in e.nextRuns <==> id in e.occurrences && MayRun(e.occurrences[id]) && id in Desired(plans))
            && (id in e.nextRuns ==> e.nextRuns[id] == RunAt(e.occurrences[id]))
            && (id in e.nextRuns && e.occurrences[id].status.Planned? ==>
                  e.nextRuns[id] > now && e.nextRuns[id] != ZERO_TIME)
            && (id in e.occurrences && OwesCompensation(e.occurrences[id]) ==> id in e.nextRuns)
  {
    ReconcileByLine(d, plans, now, id);
    DesiredByPlan(plans, id);
    SelectedLinesAreCurrent(LineOf(d, id), plans, now, id);
    var e := Reconcile(d, plans, now);
    assert LineOf(e, id) == SettleLine(ApplyLines(LineOf(d, id), plans, now, id), id in Desired(plans));
  }

  /** Nothing that ran, runs or was given up is touched, and a debt survives exactly while it is selected. */
  lemma HistoryIsUntouched(d: RuntimeState, plans: seq<PlannedOccurrence>, now: Instant, id: Id)
    requires id in d.occurrences && !d.occurrences[id].status.Planned?
    ensures var e := Reconcile(d, plans, now);
            && id in e.occurrences
            && e.occurrences[id] == if OwesCompensation(d.occurrences[id]) && id !in Desired(plans)
                                    then MarkMissed(d.occurrences[id], "selection_removed") else d.occurrences[id]
  {
    ReconcileByLine(d, plans, now, id);
    SelectedLinesAreCurrent(LineOf(d, id), plans, now, id);
    assert LineOf(Reconcile(d, plans, now), id).entry.Some?;
  }

  /** An occurrence the horizon does not name keeps its entry unless it owed a compensation, and is never due. */
  lemma UnselectedLosesItsRun(d: RuntimeState, plans: seq<PlannedOccurrence>, now: Instant, id: Id)
    requires id !in Desired(plans)
    ensures var e := Reconcile(d, plans, now);
            && id !in e.nextRuns
            && (id in e.occurrences <==> id in d.occurrences)
            && (id in d.occurrences && !OwesCompensation(d.occurrences[id]) ==> e.occurrences[id] == d.occurrences[id])
  {
    ReconcileByLine(d, plans, now, id);
    DesiredByPlan(plans, id);
    SelectedLinesAreCurrent(LineOf(d, id), plans, now, id);
    assert LineOf(Reconcile(d, plans, now), id) == SettleLine(LineOf(d, id), false);
  }

  // ----- a second reconciliation -----

  predicate SameDebt(o: OccurrenceState, p: OccurrenceState) { o.due == p.due && o.attempted == p.attempted }

  /** If applying the plans leaves an occurrence planned, applying them again to any planned entry with the same
      debt gives the same line. */
  lemma {:induction false} PlannedAgain(l: Line, m: Line, plans: seq<PlannedOccurrence>, now: Instant, id: Id)
    requires ApplyLines(l, plans, now, id).entry.Some?
    requires m.entry.Some? && m.entry.value.status.Planned?
    requires var o := ApplyLines(l, plans, now, id).entry.value;
             o.status.Planned? && SameDebt(o, m.entry.value)
    ensures ApplyLines(m, plans, now, id)
            == if Selected(plans, id) then ApplyLines(l, plans, now, id) else m
  {
    if plans != [] {
      var init := plans[..|plans| - 1];
      var before := ApplyLines(l, init, now, id);
      if before.entry.Some? {
        PlannedAgain(l, m, init, now, id);
      } else {
        SelectedLinesAreCurrent(l, init, now, id);
        SelectedLinesAreCurrent(m, init, now, id);
      }
    }
  }

  lemma {:induction false} SettledAgain(l: Line, plans: seq<PlannedOccurrence>, now: Instant, id: Id)
    requires l.entry.Some? && !l.entry.value.status.Planned?
    requires OwesCompensation(l.entry.value) ==> l.next == Some(l.entry.value.due)
    ensures ApplyLines(l, plans, now, id) == l
  {
    if plans != [] { SettledAgain(l, plans[..|plans| - 1], now, id); }
  }

  lemma ReconcileLineAgain(l: Line, plans: seq<PlannedOccurrence>, now: Instant, id: Id)
    ensures var m := SettleLine(ApplyLines(l, plans, now, id), id in Desired(plans));
            SettleLine(ApplyLines(m, plans, now, id), id in Desired(plans)) == m
  {
    var applied := ApplyLines(l, plans, now, id);
    var m := SettleLine(applied, id in Desired(plans));
    DesiredByPlan(plans, id);
    SelectedLinesAreCurrent(l, plans, now, id);
    SelectedLinesAreCurrent(m, plans, now, id);
    if m.entry.Some? && id in Desired(plans) {
      if m.entry.value.status.Planned? {
        PlannedAgain(l, m, plans, now, id);
      } else {
        SettledAgain(m, plans, now, id);
      }
    }
  }

  lemma ReconcileIsIdempotent(d: RuntimeState, plans: seq<PlannedOccurrence>, now: Instant)
    ensures Reconcile(Reconcile(d, plans, now), plans, now) == Reconcile(d, plans, now)
  {
    var e := Reconcile(d, plans, now);
    forall id: Id ensures LineOf(Reconcile(e, plans, now), id) == LineOf(e, id) {
      ReconcileByLine(d, plans, now, id);
      ReconcileByLine(e, plans, now, id);
      ReconcileLineAgain(LineOf(d, id), plans, now, id);
    }
    ReconcileByLine(d, plans, now, "");
    ReconcileByLine(e, plans, now, "");
    LinesDetermineTheState(Reconcile(e, plans, now), e);
  }

  // ----- timers -----

  lemma WantedIsACandidate(s: Sched, now: Instant, t: TimerId)
    requires Wanted(s, now, t).Some?
    ensures t in Candidates(s)
  {
    match t
    case OccurrenceTimer(id) => assert id in s.durable.occurrences.Keys;
    case CompensationTimer(id) => assert id in s.durable.occurrences.Keys;
    case _ =>
  }

  /** Rearming brings exactly the wanted timers to exactly the wanted instants, and every timer that changes gets
      a new generation. */
  lemma RearmedTimersAreWanted(s: Sched, now: Instant, t: TimerId)
    ensures var r := RearmTimers(s, now);
            && Due(r, t) == Wanted(s, now, t)
            && Generation(r, t) == Generation(s, t) + (if Wanted(s, now, t) == Due(s, t) then 0 else 1)
  {
    if Wanted(s, now, t).Some? { WantedIsACandidate(s, now, t); }
  }

  /** Two schedulers that differ at most in their timers agree if they agree timer by timer. */
  lemma TimersDetermine(s: Sched, t: Sched)
    requires t == s.(timers := t.timers, generations := t.generations)
    requires forall k: TimerId :: Due(s, k) == Due(t, k) && (k in s.generations <==> k in t.generations)
                                  && Generation(s, k) == Generation(t, k)
    ensures s == t
  {
    assert s.timers == t.timers by {
      forall k: TimerId ensures k in s.timers <==> k in t.timers { assert Due(s, k) == Due(t, k); }
      forall k | k in s.timers ensures s.timers[k] == t.timers[k] { assert Due(s, k) == Due(t, k); }
    }
    assert s.generations == t.generations by {
      forall k: TimerId ensures k in s.generations <==> k in t.generations { assert Due(s, k) == Due(t, k); }
      forall k | k in s.generations ensures s.generations[k] == t.generations[k] {
        assert Generation(s, k) == Generation(t, k);
      }
    }
  }

  /** Rearming changes nothing exactly when every timer already stands where it is wanted. */
  lemma NothingToRearm(s: Sched, now: Instant)
    requires forall t: TimerId :: Wanted(s, now, t) == Due(s, t)
    ensures RearmTimers(s, now) == s
  {
    forall t: TimerId
      ensures Due(RearmTimers(s, now), t) == Due(s, t) && Generation(RearmTimers(s, now), t) == Generation(s, t)
    {
      RearmedTimersAreWanted(s, now, t);
    }
    TimersDetermine(s, RearmTimers(s, now));
  }

  lemma RearmedIsWanted(s: Sched, now: Instant, t: TimerId)
    ensures Wanted(RearmTimers(s, now), now, t) == Due(RearmTimers(s, now), t)
  {
    RearmedTimersAreWanted(s, now, t);
  }

  lemma RearmingAgainChangesNothing(s: Sched, now: Instant, midnight: Instant)
    ensures RearmTimers(ArmMidnight(RearmTimers(s, now), midnight), now) == ArmMidnight(RearmTimers(s, now), midnight)
  {
    var r := RearmTimers(s, now);
    var a := ArmMidnight(r, midnight);
    forall t: TimerId ensures Wanted(a, now, t) == Due(a, t) {
      RearmedIsWanted(s, now, t);
      assert !t.MidnightTimer? ==> Due(a, t) == Due(r, t);
    }
    NothingToRearm(a, now);
  }

  /** The timer that runs an occurrence's next run. */
  function RunTimer(o: OccurrenceState, id: Id): TimerId {
    if o.status.Planned? then OccurrenceTimer(id) else CompensationTimer(id)
  }

  /** After a successful enabled reconciliation every next run has a timer armed at that very instant. */
  lemma EveryNextRunIsArmed(s: Sched, config: C.Config, env: ReconcileEnv, id: Id)
    requires config.enabled && ReconcileOwned(s, config, env).ok
    ensures var r := ReconcileOwned(s, config, env).s;
            id in r.durable.nextRuns ==>
              && id in r.durable.occurrences
              && Due(r, RunTimer(r.durable.occurrences[id], id)) == Some(r.durable.nextRuns[id])
  {
    var d := Reconcile(s.durable, Horizon(env.days).value, env.now);
    var stored := s.(durable := d);
    EnabledSuccess(s, config, env, d);
    if id in d.nextRuns {
      NextRunsAreExactlyDue(s.durable, Horizon(env.days).value, env.now, id);
      RunTimerIsWanted(stored, env.now, id);
      RearmedTimersAreWanted(stored, env.now, RunTimer(d.occurrences[id], id));
    }
  }

  lemma RunTimerIsWanted(s: Sched, now: Instant, id: Id)
    requires id in s.durable.occurrences && MayRun(s.durable.occurrences[id])
    requires s.durable.occurrences[id].status.Planned? ==>
               s.durable.occurrences[id].plan.plannedAt > now && s.durable.occurrences[id].plan.plannedAt != ZERO_TIME
    ensures Wanted(s, now, RunTimer(s.durable.occurrences[id], id)) == Some(RunAt(s.durable.occurrences[id]))
  {
  }

  /** A timer does not imply a next run: a planned occurrence that is no longer selected keeps a timer at its
      instant, has no next run, and is refused whenever that timer fires. */
  lemma UnselectedKeepsItsTimer(s: Sched, config: C.Config, env: ReconcileEnv, id: Id, firedAt: Instant)
    requires config.enabled && ReconcileOwned(s, config, env).ok
    requires id in s.durable.occurrences && s.durable.occurrences[id].status.Planned?
    requires s.durable.occurrences[id].plan.plannedAt > env.now && s.durable.occurrences[id].plan.plannedAt != ZERO_TIME
    requires id !in Desired(Horizon(env.days).value)
    ensures var r := ReconcileOwned(s, config, env).s;
            && Due(r, OccurrenceTimer(id)) == Some(s.durable.occurrences[id].plan.plannedAt)
            && id !in r.durable.nextRuns && !Guard(r, id, firedAt)
  {
    var d := Reconcile(s.durable, Horizon(env.days).value, env.now);
    EnabledSuccess(s, config, env, d);
    UnselectedLosesItsRun(s.durable, Horizon(env.days).value, env.now, id);
    RearmedTimersAreWanted(s.(durable := d), env.now, OccurrenceTimer(id));
  }

  /** A waiting verdict of a running occurrence keeps its retry timer, or gets one. */
  predicate AwaitsVerdict(s: Sched, id: Id) {
    && id in s.durable.occurrences && s.durable.occurrences[id].status.Running?
    && id in s.pending && s.pending[id].kind.OccurrenceKind?
    && (OccurrenceTimer(id) in s.timers || s.phase.Live?)
  }

  /** After a successful enabled reconciliation an occurrence timer stands without a next run if and only if its
      occurrence is planned ahead but no longer selected, or running with a verdict that waits to be written. */
  lemma TimerWithoutNextRunExactlyWhen(s: Sched, config: C.Config, env: ReconcileEnv, id: Id)
    requires config.enabled && ReconcileOwned(s, config, env).ok
    ensures var r := ReconcileOwned(s, config, env).s;
            Due(r, OccurrenceTimer(id)).Some? && id !in r.durable.nextRuns <==>
              || (&& id in s.durable.occurrences && s.durable.occurrences[id].status.Planned?
                  && s.durable.occurrences[id].plan.plannedAt > env.now
                  && s.durable.occurrences[id].plan.plannedAt != ZERO_TIME
                  && id !in Desired(Horizon(env.days).value))
              || AwaitsVerdict(s, id)
  {
    var d := Reconcile(s.durable, Horizon(env.days).value, env.now);
    EnabledSuccess(s, config, env, d);
    RearmedTimersAreWanted(s.(durable := d), env.now, OccurrenceTimer(id));
    WithoutNextRun(s.durable, d, Horizon(env.days).value, env.now, id);
  }

  predicate PlannedAhead(d: RuntimeState, now: Instant, id: Id) {
    && id in d.occurrences && d.occurrences[id].status.Planned?
    && d.occurrences[id].plan.plannedAt > now && d.occurrences[id].plan.plannedAt != ZERO_TIME
  }

  predicate Runs(d: RuntimeState, id: Id) { id in d.occurrences && d.occurrences[id].status.Running? }

  /** Reconciling neither starts nor ends a running occurrence, and one that is planned ahead afterwards lacks a next
      run exactly when it was planned ahead before and is not selected. */
  lemma WithoutNextRun(d: RuntimeState, e: RuntimeState, plans: seq<PlannedOccurrence>, now: Instant, id: Id)
    requires e == Reconcile(d, plans, now)
    ensures PlannedAhead(e, now, id) && id !in e.nextRuns <==> PlannedAhead(d, now, id) && id !in Desired(plans)
    ensures Runs(e, id) <==> Runs(d, id)
    ensures Runs(e, id) ==> id !in e.nextRuns
  {
    NextRunsAreExactlyDue(d, plans, now, id);
    if id !in Desired(plans) { UnselectedLosesItsRun(d, plans, now, id); }
    if id in d.occurrences && !d.occurrences[id].status.Planned? {
      HistoryIsUntouched(d, plans, now, id);
    } else {
      NothingStartsRunning(d, plans, now, id);
    }
  }

  lemma {:induction false} PlansNeverRun(l: Line, plans: seq<PlannedOccurrence>, now: Instant, id: Id)
    requires l.entry.Some? ==> !l.entry.value.status.Running?
    ensures var m := ApplyLines(l, plans, now, id); m.entry.Some? ==> !m.entry.value.status.Running?
  {
    if plans != [] { PlansNeverRun(l, plans[..|plans| - 1], now, id); }
  }

  lemma NothingStartsRunning(d: RuntimeState, plans: seq<PlannedOccurrence>, now: Instant, id: Id)
    requires id in d.occurrences ==> !d.occurrences[id].status.Running?
    ensures var e := Reconcile(d, plans, now); id in e.occurrences ==> !e.occurrences[id].status.Running?
  {
    ReconcileByLine(d, plans, now, id);
    PlansNeverRun(LineOf(d, id), plans, now, id);
    assert LineOf(Reconcile(d, plans, now), id)
           == SettleLine(ApplyLines(LineOf(d, id), plans, now, id), id in Desired(plans));
  }

  /** Reconciling again in the same circumstances changes neither the durable state nor a timer nor a
      generation, whether the schedule is enabled or not. */
  lemma ReconcilingAgainChangesNothing(s: Sched, config: C.Config, env: ReconcileEnv)
    requires ReconcileOwned(s, config, env).ok
    ensures ReconcileOwned(ReconcileOwned(s, config, env).s, config, env) == ReconcileOwned(s, config, env)
  {
    if config.enabled {
      EnabledAgain(s, config, env);
    } else {
      DisabledAgain(s, config, env);
    }
  }

  lemma EnabledSuccess(s: Sched, config: C.Config, env: ReconcileEnv, d: RuntimeState)
    requires config.enabled && env.zoneLoads && env.write.Ok? && Horizon(env.days).Some?
    requires d == Reconcile(s.durable, Horizon(env.days).value, env.now)
    ensures ReconcileOwned(s, config, env)
            == Result(ArmMidnight(RearmTimers(s.(durable := d), env.now), env.midnight), true)
  {
  }

  lemma EnabledAgain(s: Sched, config: C.Config, env: ReconcileEnv)
    requires config.enabled && ReconcileOwned(s, config, env).ok
    ensures ReconcileOwned(ReconcileOwned(s, config, env).s, config, env) == ReconcileOwned(s, config, env)
  {
    var d := Reconcile(s.durable, Horizon(env.days).value, env.now);
    var r := ReconcileOwned(s, config, env).s;
    EnabledSuccess(s, config, env, d);
    ReconcileIsIdempotent(s.durable, Horizon(env.days).value, env.now);
    RearmingAgainChangesNothing(s.(durable := d), env.now, env.midnight);
    EnabledSuccess(r, config, env, d);
    assert r.(durable := d) == r;
  }

  lemma CancellingAgainChangesNothing(s: Sched)
    requires forall t :: t in s.timers ==> Survives(s, t)
    ensures CancelOccurrenceTimers(s) == s
  {
    var c := CancelOccurrenceTimers(s);
    assert c.timers == s.timers;
    assert c.generations == s.generations;
  }

  lemma DisableIsIdempotent(d: RuntimeState)
    ensures Disable(Disable(d)) == Disable(d)
  {
    assert Disable(Disable(d)).occurrences == Disable(d).occurrences;
  }

  lemma DisabledSuccess(s: Sched, config: C.Config, env: ReconcileEnv, d: RuntimeState)
    requires !config.enabled && env.zoneLoads && env.write.Ok? && d == Disable(s.durable)
    ensures ReconcileOwned(s, config, env)
            == Result(ArmMidnight(CancelOccurrenceTimers(s.(durable := d)), env.midnight), true)
  {
  }

  lemma DisabledAgain(s: Sched, config: C.Config, env: ReconcileEnv)
    requires !config.enabled && ReconcileOwned(s, config, env).ok
    ensures ReconcileOwned(ReconcileOwned(s, config, env).s, config, env) == ReconcileOwned(s, config, env)
  {
    var d := Disable(s.durable);
    var r := ReconcileOwned(s, config, env).s;
    DisabledSuccess(s, config, env, d);
    DisableIsIdempotent(s.durable);
    DisabledSuccess(r, config, env, d);
    assert r.(durable := d) == r;
    CancellingAgainChangesNothing(r);
  }
}
