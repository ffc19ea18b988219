/** What a start and a reconciliation leave of every occurrence, told from the stored fields and the plans alone. */
module ReconcileOutcomes {
  import opened Domain
  import opened RuntimeState
  import opened SchedulerState
  import opened Reconciling
  import C = Config

  // ----- in terms of the fields -----

  /** A failed occurrence whose one compensation is due and not spent. */
  ghost predicate Owes(o: OccurrenceState) {
    o.status == Failed && !o.attempted && o.due != 0
  }

  ghost function GivenUp(o: OccurrenceState, reason: string): OccurrenceState {
    OccurrenceState(o.plan.(missed := true, missedReason := reason), Missed, 0, false)
  }

  ghost predicate Ahead(p: PlannedOccurrence, now: Instant) {
    !p.missed && p.plannedAt != 0 && now < p.plannedAt
  }

  /** Why a plan that is not ahead is missed. */
  ghost function Reason(p: PlannedOccurrence): string {
    if !p.missed then "past_due" else if TrimSpace(p.missedReason) == "" then "restart" else p.missedReason
  }

  ghost predicate NamesAt(plans: seq<PlannedOccurrence>, k: int, id: Id) {
    0 <= k < |plans| && id != "" && TrimSpace(plans[k].id) == id
  }

  ghost predicate Names(plans: seq<PlannedOccurrence>, id: Id) {
    exists k :: NamesAt(plans, k, id)
  }

  ghost predicate AllAhead(plans: seq<PlannedOccurrence>, now: Instant, id: Id) {
    forall k :: NamesAt(plans, k, id) ==> Ahead(plans[k], now)
  }

  ghost predicate LastAt(plans: seq<PlannedOccurrence>, k: int, id: Id) {
    NamesAt(plans, k, id) && forall j :: k < j ==> !NamesAt(plans, j, id)
  }

  ghost predicate FailsFirstAt(plans: seq<PlannedOccurrence>, now: Instant, k: int, id: Id) {
    && NamesAt(plans, k, id) && !Ahead(plans[k], now)
    && forall j :: j < k && NamesAt(plans, j, id) ==> Ahead(plans[j], now)
  }

  /** Planned by this plan: its payload with identity and account trimmed, and the debt there was. */
  ghost predicate PlannedBy(before: Option<OccurrenceState>, after: OccurrenceState, p: PlannedOccurrence) {
    && after.status == Planned
    && after.plan == p.(id := TrimSpace(p.id), accountKey := TrimSpace(p.accountKey))
    && after.due == (if before.Some? then before.value.due else 0)
    && after.attempted == (before.Some? && before.value.attempted)
  }

  /** Missed because of this plan. */
  ghost predicate MissedBy(after: OccurrenceState, p: PlannedOccurrence) {
    after == OccurrenceState(p.(id := TrimSpace(p.id), accountKey := TrimSpace(p.accountKey), missed := true,
                                missedReason := Reason(p)), Missed, 0, false)
  }

  /** A new or still planned occurrence that the plans name: planned by the last of its plans if all of them lie
      ahead, missed because of the first that does not otherwise. */
  ghost predicate IsScheduled(before: Option<OccurrenceState>, after: OccurrenceState, plans: seq<PlannedOccurrence>,
                              now: Instant, id: Id)
  {
    if AllAhead(plans, now, id) then exists k :: LastAt(plans, k, id) && PlannedBy(before, after, plans[k])
    else exists k :: FailsFirstAt(plans, now, k, id) && MissedBy(after, plans[k])
  }

  ghost function EntryOf(d: RuntimeState, id: Id): Option<OccurrenceState> {
    if id in d.occurrences then Some(d.occurrences[id]) else None
  }

  ghost predicate EntryReconciled(before: Option<OccurrenceState>, after: Option<OccurrenceState>,
                                  plans: seq<PlannedOccurrence>, now: Instant, id: Id)
  {
    if Names(plans, id) then
      if before.Some? && before.value.status != Planned then after == before
      else after.Some? && IsScheduled(before, after.value, plans, now, id)
    else if before.Some? && Owes(before.value) then after == Some(GivenUp(before.value, "selection_removed"))
    else after == before
  }

  /** The next run of a named occurrence is its planned instant or the due time of its debt; no other has one. */
  ghost predicate NextRunReconciled(d: RuntimeState, plans: seq<PlannedOccurrence>, id: Id) {
    && (id in d.nextRuns <==> Names(plans, id) && id in d.occurrences
                              && (d.occurrences[id].status == Planned || Owes(d.occurrences[id])))
    && (id in d.nextRuns ==>
          d.nextRuns[id] == if d.occurrences[id].status == Planned then d.occurrences[id].plan.plannedAt
                            else d.occurrences[id].due)
  }

  /** What the enabled transaction makes of the state, occurrence by occurrence. */
  ghost predicate IsReconciled(d: RuntimeState, e: RuntimeState, plans: seq<PlannedOccurrence>, now: Instant) {
    && e.holds == d.holds
    && (forall id: Id :: EntryReconciled(EntryOf(d, id), EntryOf(e, id), plans, now, id))
    && (forall id: Id :: NextRunReconciled(e, plans, id))
  }

  // ----- the enabled transaction -----

  lemma NamesOneMore(plans: seq<PlannedOccurrence>, init: seq<PlannedOccurrence>, n: nat, id: Id)
    requires |plans| == n + 1 && init == plans[..n]
    ensures forall k :: k != n ==> (NamesAt(plans, k, id) <==> NamesAt(init, k, id))
    ensures NamesAt(plans, n, id) <==> IsFor(plans[n], id)
    ensures !NamesAt(init, n, id)
  {
  }

  lemma {:induction false} NamesIsSelected(plans: seq<PlannedOccurrence>, id: Id)
    ensures Names(plans, id) <==> Selected(plans, id)
  {
    if plans != [] {
      var n := |plans| - 1;
      NamesIsSelected(plans[..n], id);
      NamesOneMore(plans, plans[..n], n, id);
      if Names(plans[..n], id) {
        var k :| NamesAt(plans[..n], k, id);
        assert NamesAt(plans, k, id);
      }
    }
  }

  /** Nothing is there and nothing was, or what is there is planned with the debt there was. */
  ghost predicate Continues(before: Option<OccurrenceState>, entry: Option<OccurrenceState>) {
    match entry
    case None => before.None?
    case Some(o) =>
      && o.status == Planned
      && o.due == (if before.Some? then before.value.due else 0)
      && o.attempted == (before.Some? && before.value.attempted)
  }

  lemma BareIsNotBlank(s: string)
    requires s != "" && !IsSpace(s[0]) && !IsSpace(s[|s| - 1])
    ensures TrimSpace(s) == s
  {
  }

  /** The reasons the transactions give are not blank. */
  lemma ReasonsAreNotBlank()
    ensures TrimSpace("past_due") != "" && TrimSpace("selection_removed") != ""
    ensures TrimSpace("scheduler_disabled") != "" && TrimSpace("restart") != ""
  {
    BareIsNotBlank("past_due");
    BareIsNotBlank("selection_removed");
    BareIsNotBlank("scheduler_disabled");
    BareIsNotBlank("restart");
  }

  /** One more plan of the occurrence, after plans that all lie ahead or none at all. */
  lemma PlanRefreshes(before: Option<OccurrenceState>, l: Line, plan: PlannedOccurrence, now: Instant)
    requires Continues(before, l.entry)
    ensures var m := ApplyLine(l, Stored(plan), now);
            m.entry.Some? && if Ahead(plan, now) then PlannedBy(before, m.entry.value, plan)
                             else MissedBy(m.entry.value, plan)
  {
    ReasonsAreNotBlank();
  }

  lemma LaterPlanSchedules(before: Option<OccurrenceState>, l: Line, plans: seq<PlannedOccurrence>, now: Instant,
                           id: Id, n: nat)
    requires |plans| == n + 1 && IsFor(plans[n], id)
    requires if Names(plans[..n], id) then l.entry.Some? && IsScheduled(before, l.entry.value, plans[..n], now, id)
             else Continues(before, l.entry)
    ensures var m := ApplyLine(l, Stored(plans[n]), now);
            m.entry.Some? && IsScheduled(before, m.entry.value, plans, now, id)
  {
    var init, m := plans[..n], ApplyLine(l, Stored(plans[n]), now);
    NamesOneMore(plans, init, n, id);
    if Names(init, id) && !AllAhead(init, now, id) {
      var k :| FailsFirstAt(init, now, k, id) && MissedBy(l.entry.value, init[k]);
      assert FailsFirstAt(plans, now, k, id);
    } else {
      PlanRefreshes(before, l, plans[n], now);
      if Ahead(plans[n], now) {
        assert LastAt(plans, n, id);
        assert AllAhead(plans, now, id);
      } else {
        assert FailsFirstAt(plans, now, n, id);
      }
    }
  }

  lemma OtherPlanSchedules(before: Option<OccurrenceState>, after: OccurrenceState, plans: seq<PlannedOccurrence>,
                           now: Instant, id: Id, n: nat)
    requires |plans| == n + 1 && !IsFor(plans[n], id)
    requires Names(plans[..n], id) && IsScheduled(before, after, plans[..n], now, id)
    ensures IsScheduled(before, after, plans, now, id)
  {
    var init := plans[..n];
    NamesOneMore(plans, init, n, id);
    if AllAhead(init, now, id) {
      var k :| LastAt(init, k, id) && PlannedBy(before, after, init[k]);
      assert LastAt(plans, k, id);
      assert AllAhead(plans, now, id);
    } else {
      var k :| FailsFirstAt(init, now, k, id) && MissedBy(after, init[k]);
      assert FailsFirstAt(plans, now, k, id);
    }
  }

  lemma {:induction false} PlansSchedule(l: Line, plans: seq<PlannedOccurrence>, now: Instant, id: Id)
    requires l.entry.Some? ==> l.entry.value.status == Planned
    ensures var m := ApplyLines(l, plans, now, id);
            if Names(plans, id) then m.entry.Some? && IsScheduled(l.entry, m.entry.value, plans, now, id)
            else m == l
  {
    if plans != [] {
      var n := |plans| - 1;
      PlansSchedule(l, plans[..n], now, id);
      NamesIsSelected(plans, id);
      NamesIsSelected(plans[..n], id);
      if IsFor(plans[n], id) {
        LaterPlanSchedules(l.entry, ApplyLines(l, plans[..n], now, id), plans, now, id, n);
      } else if Names(plans, id) {
        OtherPlanSchedules(l.entry, ApplyLines(l, plans[..n], now, id).entry.value, plans, now, id, n);
      }
    }
  }

  lemma SettledEntry(l: Line, desired: bool)
    ensures SettleLine(l, desired).entry
         == if l.entry.Some? && !desired && Owes(l.entry.value)
            then Some(GivenUp(l.entry.value, "selection_removed")) else l.entry
  {
    ReasonsAreNotBlank();
  }

  lemma EntryAfterLine(l: Line, m: Line, plans: seq<PlannedOccurrence>, now: Instant, id: Id)
    requires m == ApplyLines(l, plans, now, id)
    ensures EntryReconciled(l.entry, SettleLine(m, Names(plans, id)).entry, plans, now, id)
  {
    SettledEntry(m, Names(plans, id));
    if l.entry.Some? && l.entry.value.status != Planned {
      SelectedLinesAreCurrent(l, plans, now, id);
    } else {
      PlansSchedule(l, plans, now, id);
    }
  }

  lemma EntryAfterPlans(d: RuntimeState, plans: seq<PlannedOccurrence>, now: Instant, id: Id)
    ensures EntryReconciled(EntryOf(d, id), EntryOf(Reconcile(d, plans, now), id), plans, now, id)
  {
    NamesIsSelected(plans, id);
    DesiredByPlan(plans, id);
    ReconcileByLine(d, plans, now, id);
    EntryAfterLine(LineOf(d, id), ApplyLines(LineOf(d, id), plans, now, id), plans, now, id);
    assert LineOf(Reconcile(d, plans, now), id).entry == EntryOf(Reconcile(d, plans, now), id);
  }

  /** Every transaction of an enabled reconciliation does to every occurrence just that. */
  lemma ReconcileIsReconciled(d: RuntimeState, plans: seq<PlannedOccurrence>, now: Instant)
    ensures IsReconciled(d, Reconcile(d, plans, now), plans, now)
  {
    var e := Reconcile(d, plans, now);
    ReconcileByLine(d, plans, now, "");
    forall id: Id ensures EntryReconciled(EntryOf(d, id), EntryOf(e, id), plans, now, id) {
      EntryAfterPlans(d, plans, now, id);
    }
    forall id: Id ensures NextRunReconciled(e, plans, id) {
      NextRunsAreExactlyDue(d, plans, now, id);
      NamesIsSelected(plans, id);
      DesiredByPlan(plans, id);
    }
  }

  // ----- the plans of a horizon -----

  /** How many plans the first dates have. */
  function PlansBefore(days: seq<Option<seq<PlannedOccurrence>>>, n: nat): nat
    requires n <= |days|
  {
    if n == 0 then 0 else PlansBefore(days, n - 1) + (if days[n - 1].Some? then |days[n - 1].value| else 0)
  }

  ghost predicate AllPlanned(days: seq<Option<seq<PlannedOccurrence>>>) {
    forall i :: 0 <= i < |days| ==> days[i].Some?
  }

  /** The plans of one date stand in their own order after those of the dates before. */
  ghost predicate DayStands(days: seq<Option<seq<PlannedOccurrence>>>, plans: seq<PlannedOccurrence>, i: nat)
    requires i < |days| && days[i].Some?
  {
    var from := PlansBefore(days, i);
    from + |days[i].value| <= |plans| && plans[from..from + |days[i].value|] == days[i].value
  }

  /** The plans of every date, date after date, and nothing else. */
  ghost predicate IsHorizon(days: seq<Option<seq<PlannedOccurrence>>>, plans: seq<PlannedOccurrence>) {
    && AllPlanned(days) && |plans| == PlansBefore(days, |days|)
    && forall i :: 0 <= i < |days| ==> DayStands(days, plans, i)
  }

  lemma {:induction false} PlansBeforePrefix(days: seq<Option<seq<PlannedOccurrence>>>, m: nat, n: nat)
    requires n <= m <= |days|
    ensures PlansBefore(days[..m], n) == PlansBefore(days, n)
    decreases n
  {
    if n > 0 { PlansBeforePrefix(days, m, n - 1); }
  }

  /** The planner's answers for the dates are put together without loss, and one failing date fails them all. */
  lemma {:induction false} HorizonIsHorizon(days: seq<Option<seq<PlannedOccurrence>>>)
    ensures Horizon(days).Some? <==> AllPlanned(days)
    ensures Horizon(days).Some? ==> IsHorizon(days, Horizon(days).value)
  {
    if days != [] {
      var n := |days| - 1;
      HorizonIsHorizon(days[..n]);
      assert AllPlanned(days) <==> AllPlanned(days[..n]) && days[n].Some? by {
        forall i | 0 <= i < n ensures days[i] == days[..n][i] {}
      }
      if Horizon(days).Some? { OneMoreDay(days, Horizon(days[..n]).value, Horizon(days).value, n); }
    }
  }

  lemma OneMoreDay(days: seq<Option<seq<PlannedOccurrence>>>, before: seq<PlannedOccurrence>,
                   all: seq<PlannedOccurrence>, n: nat)
    requires |days| == n + 1 && days[n].Some? && IsHorizon(days[..n], before) && all == before + days[n].value
    requires AllPlanned(days)
    ensures IsHorizon(days, all)
  {
    PlansBeforePrefix(days, n, n);
    assert |days[..n]| == n && |before| == PlansBefore(days, n);
    assert PlansBefore(days, n + 1) == PlansBefore(days, n) + |days[n].value|;
    forall i | 0 <= i < |days| ensures DayStands(days, all, i) {
      if i < n {
        PlansBeforePrefix(days, n, i);
        assert DayStands(days[..n], before, i);
        var from := PlansBefore(days, i);
        assert all[from..from + |days[i].value|] == before[from..from + |days[i].value|];
      }
    }
  }

  // ----- one reconciliation -----

  /** A disabled schedule has no next run, and what was owed is given up. */
  ghost predicate IsDisabled(d: RuntimeState, e: RuntimeState) {
    && e.holds == d.holds && e.nextRuns == map[] && e.occurrences.Keys == d.occurrences.Keys
    && forall id :: id in d.occurrences ==>
         e.occurrences[id] == if Owes(d.occurrences[id]) then GivenUp(d.occurrences[id], "scheduler_disabled")
                              else d.occurrences[id]
  }

  /** What a reconciliation may write it has written, unless the write is lost. */
  ghost predicate DurableReconciled(d: RuntimeState, e: RuntimeState, config: C.Config, env: ReconcileEnv) {
    if env.write.Lost? then e == d
    else if !config.enabled then IsDisabled(d, e)
    else if !env.zoneLoads || !AllPlanned(env.days) then e == d
    else exists plans :: IsHorizon(env.days, plans) && IsReconciled(d, e, plans, env.now)
  }

  lemma DisableIsDisabled(d: RuntimeState)
    ensures IsDisabled(d, Disable(d))
  {
    ReasonsAreNotBlank();
  }

  lemma PlanningWrites(s: Sched, config: C.Config, env: ReconcileEnv)
    requires config.enabled
    ensures AllPlanned(env.days) <==> Horizon(env.days).Some?
    ensures ReconcileOwned(s, config, env).s.durable
         == if env.zoneLoads && AllPlanned(env.days) && !env.write.Lost?
            then Reconcile(s.durable, Horizon(env.days).value, env.now) else s.durable
    ensures ReconcileOwned(s, config, env).ok <==> env.zoneLoads && AllPlanned(env.days) && env.write.Ok?
  {
    HorizonIsHorizon(env.days);
  }

  lemma DisablingWrites(s: Sched, config: C.Config, env: ReconcileEnv)
    requires !config.enabled
    ensures ReconcileOwned(s, config, env).s.durable == if env.write.Lost? then s.durable else Disable(s.durable)
    ensures ReconcileOwned(s, config, env).ok <==> env.zoneLoads && env.write.Ok?
  {
  }

  /** Reconciling neither calls the executor nor touches a waiting verdict. */
  predicate SameHistory(s: Sched, t: Sched) {
    t.calls == s.calls && t.pending == s.pending && t.phase == s.phase && t.config == s.config
    && t.startFailed == s.startFailed
  }

  lemma ReconcileKeepsHistory(s: Sched, config: C.Config, env: ReconcileEnv)
    ensures SameHistory(s, ReconcileOwned(s, config, env).s)
  {
  }

  /** A reconciliation changes the durable state exactly as told; it succeeds exactly when the zone loads, every date is
      planned if it is enabled, and the write is confirmed. */
  lemma ReconcileLeaves(s: Sched, config: C.Config, env: ReconcileEnv)
    ensures var r := ReconcileOwned(s, config, env);
            && DurableReconciled(s.durable, r.s.durable, config, env) && SameHistory(s, r.s)
            && (r.ok <==> env.zoneLoads && env.write.Ok? && (config.enabled ==> AllPlanned(env.days)))
  {
    ReconcileKeepsHistory(s, config, env);
    if config.enabled {
      PlanningWrites(s, config, env);
      if AllPlanned(env.days) {
        HorizonIsHorizon(env.days);
        ReconcileIsReconciled(s.durable, Horizon(env.days).value, env.now);
      }
    } else {
      DisablingWrites(s, config, env);
      DisableIsDisabled(s.durable);
    }
  }

  lemma AfterCallbackLeaves(s: Sched, env: ReconcileEnv)
    ensures var t := AfterCallback(s, env);
            && DurableReconciled(s.durable, t.durable, s.config, env)
            && SameHistory(s, t)
  {
    ReconcileLeaves(s, s.config, env);
  }

  // ----- the start -----

  /** After a restart whatever was planned, running or owing is missed; next runs and holds stay. */
  ghost predicate IsRecovered(d: RuntimeState, e: RuntimeState) {
    && e.holds == d.holds && e.nextRuns == d.nextRuns && e.occurrences.Keys == d.occurrences.Keys
    && forall id :: id in d.occurrences ==>
         var o := d.occurrences[id];
         e.occurrences[id] == if o.status == Planned || o.status == Running || (!o.attempted && o.due != 0)
                              then GivenUp(o, "restart") else o
  }

  lemma RecoverIsRecovered(d: RuntimeState)
    ensures IsRecovered(d, Recover(d))
  {
    ReasonsAreNotBlank();
  }

  /** A process starts once, from the recovered state, and remembers whether that was confirmed. */
  lemma StartLeaves(s: Sched, write: Write)
    ensures var t := Start(s, write);
            if s.phase != Idle then t == s
            else && t == s.(durable := t.durable, phase := Live, startFailed := write != Ok)
                 && (if write == Lost then t.durable == s.durable else IsRecovered(s.durable, t.durable))
  {
    RecoverIsRecovered(s.durable);
  }

  // ----- what becomes of one occurrence -----

  ghost predicate NamedOnSomeDate(days: seq<Option<seq<PlannedOccurrence>>>, id: Id) {
    exists i :: 0 <= i < |days| && days[i].Some? && Names(days[i].value, id)
  }

  lemma {:induction false} DateOf(days: seq<Option<seq<PlannedOccurrence>>>, n: nat, k: nat) returns (i: nat)
    requires n <= |days| && k < PlansBefore(days, n)
    ensures i < n && PlansBefore(days, i) <= k < PlansBefore(days, i + 1)
  {
    if k < PlansBefore(days, n - 1) { i := DateOf(days, n - 1, k); } else { i := n - 1; }
  }

  lemma HorizonNames(days: seq<Option<seq<PlannedOccurrence>>>, plans: seq<PlannedOccurrence>, id: Id)
    requires IsHorizon(days, plans)
    ensures Names(plans, id) <==> NamedOnSomeDate(days, id)
  {
    if Names(plans, id) {
      var k :| NamesAt(plans, k, id);
      var i := DateOf(days, |days|, k);
      assert DayStands(days, plans, i);
      var from := PlansBefore(days, i);
      assert plans[from..from + |days[i].value|][k - from] == plans[k];
      assert NamesAt(days[i].value, k - from, id);
    }
    if NamedOnSomeDate(days, id) {
      var i :| 0 <= i < |days| && days[i].Some? && Names(days[i].value, id);
      var k :| NamesAt(days[i].value, k, id);
      assert DayStands(days, plans, i);
      var from := PlansBefore(days, i);
      assert plans[from..from + |days[i].value|][k] == plans[from + k];
      assert NamesAt(plans, from + k, id);
    }
  }

  /** A reconciliation that reaches the disk and does not select the occurrence. */
  ghost predicate GivesUp(config: C.Config, env: ReconcileEnv, id: Id) {
    && env.write != Lost
    && (config.enabled ==> env.zoneLoads && AllPlanned(env.days) && !NamedOnSomeDate(env.days, id))
  }

  /** Of what is no longer planned, a reconciliation changes only debts it gives up. */
  lemma ReconciledHistory(d: RuntimeState, e: RuntimeState, config: C.Config, env: ReconcileEnv, id: Id)
    requires DurableReconciled(d, e, config, env)
    requires id in d.occurrences && d.occurrences[id].status != Planned
    ensures id in e.occurrences
    ensures e.occurrences[id]
         == if !Owes(d.occurrences[id]) || !GivesUp(config, env, id) then d.occurrences[id]
            else GivenUp(d.occurrences[id], if config.enabled then "selection_removed" else "scheduler_disabled")
  {
    if env.write != Lost && config.enabled && env.zoneLoads && AllPlanned(env.days) {
      var plans :| IsHorizon(env.days, plans) && IsReconciled(d, e, plans, env.now);
      HorizonNames(env.days, plans, id);
      assert EntryReconciled(EntryOf(d, id), EntryOf(e, id), plans, env.now, id);
    }
  }
}
