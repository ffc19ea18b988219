/** The scheduler as the source writes it: an object whose methods change the store, the timers and the saved
    verdicts step by step. Every method is proved equal to the function of module SchedulerState of that name. */
module Scheduler {
  import opened Domain
  import opened RuntimeState
  import opened SchedulerState
  import C = Config
  import opened TimerLoops

  /** The runtime state file: one read-modify-write at a time. */
  class Repository {
    var state: RuntimeState

    constructor ()
      ensures state == EMPTY_STATE
    {
      state := EMPTY_STATE;
    }

    method Load() returns (s: RuntimeState)
      ensures s == state
    {
      return state;
    }

    /** Write the successor of the state just loaded; the environment decides how the write ends. */
    method Save(after: RuntimeState, write: Write) returns (ok: bool)
      modifies this
      ensures state == Written(old(state), after, write) && ok == write.Ok?
    {
      if write != Lost { state := after; }
      return write == Ok;
    }
  }

  class Scheduler {
    const store: Repository
    var phase: Phase
    var startFailed: bool
    var config: C.Config
    var timers: map<TimerId, Instant>
    var generations: map<TimerId, nat>
    var pending: map<Id, Pending>
    ghost var calls: seq<Call>

    constructor (store: Repository, ghost history: seq<Call>)
      ensures this.store == store
      ensures View() == Sched(store.state, Idle, false, NO_CONFIG, map[], map[], map[], history)
    {
      this.store := store;
      phase, startFailed, config := Idle, false, NO_CONFIG;
      timers, generations, pending := map[], map[], map[];
      calls := history;
    }

    ghost function View(): Sched
      reads this, store
    {
      Sched(store.state, phase, startFailed, config, timers, generations, pending, calls)
    }

    // ----- timers -----

    method ReplaceTimer(t: TimerId, due: Instant)
      modifies this
      ensures View() == Arm(old(View()), t, due)
    {
      timers := timers - {t};
      generations := generations[t := (if t in generations then generations[t] else 0) + 1];
      timers := timers[t := due];
      assert timers == old(timers)[t := due];
    }

    method StopTimer(t: TimerId)
      modifies this
      ensures View() == Disarm(old(View()), t)
    {
      timers := timers - {t};
      generations := generations[t := (if t in generations then generations[t] else 0) + 1];
    }

    method ConsumeTimer(t: TimerId, generation: nat) returns (owned: bool)
      modifies this
      ensures owned == Owns(old(View()), t, generation)
      ensures View() == if owned then Consume(old(View()), t) else old(View())
    {
      if generation != 0 && (if t in generations then generations[t] else 0) != generation {
        return false;
      }
      if t !in timers {
        return generation == 0;
      }
      StopTimer(t);
      return true;
    }

    method RetryLater(t: TimerId, now: Instant)
      modifies this
      ensures View() == ArmRetry(old(View()), t, now)
    {
      if phase != Live {
        return;
      }
      ReplaceTimer(t, now + RETRY_DELAY);
    }

    method ScheduleReconcileRetry(now: Instant)
      modifies this
      ensures View() == ArmReconcileRetry(old(View()), now)
    {
      if phase != Live {
        return;
      }
      if RetryTimer in timers && timers[RetryTimer] > now {
        return;
      }
      ReplaceTimer(RetryTimer, now + RETRY_DELAY);
    }

    method ScheduleMidnight(zoneLoads: bool, midnight: Instant) returns (ok: bool)
      modifies this
      ensures ok == zoneLoads
      ensures View() == if zoneLoads then ArmMidnight(old(View()), midnight) else old(View())
    {
      if !zoneLoads {
        return false;
      }
      if MidnightTimer in timers && timers[MidnightTimer] == midnight {
        return true;
      }
      ReplaceTimer(MidnightTimer, midnight);
      return true;
    }

    method CancelTimers()
      modifies this
      ensures View() == CancelOccurrenceTimers(old(View()))
    {
      ghost var before := View();
      var rest := timers.Keys;
      while rest != {}
        invariant CancelledUpTo(before, View(), rest)
        invariant rest <= timers.Keys && rest <= before.timers.Keys
      {
        var t :| t in rest;
        ghost var v := View();
        if !(t == MidnightTimer || t == RetryTimer || HasPending(t)) {
          StopTimer(t);
        }
        CancelOne(before, v, rest, t);
        rest := rest - {t};
      }
      CancelledAll(before, View());
    }

    predicate HasPending(t: TimerId)
      reads this
    {
      && (t.OccurrenceTimer? || t.CompensationTimer?)
      && t.id in pending && PendingTimer(t.id, pending[t.id].kind) == t
    }

    method StopAllTimers()
      modifies this
      ensures View() == StopTimers(old(View()))
    {
      ghost var before := View();
      var rest := timers.Keys;
      while rest != {}
        invariant StoppedUpTo(before, View(), rest)
        invariant rest <= timers.Keys && rest <= before.timers.Keys
      {
        var t :| t in rest;
        ghost var v := View();
        StopTimer(t);
        StopOne(before, v, rest, t);
        rest := rest - {t};
      }
      StoppedAll(before, View());
    }

    method ArmAt(t: TimerId, due: Instant)
      modifies this
      ensures View() == ArmIfMoved(old(View()), t, due)
    {
      if t !in timers || timers[t] != due {
        ReplaceTimer(t, due);
      }
    }

    /** One occurrence of a reconciliation: arm the timer it wants and note that timer as active. */
    method VisitOccurrence(id: Id, o: OccurrenceState, now: Instant, active: map<TimerId, Instant>, ghost before: Sched)
      returns (newActive: map<TimerId, Instant>)
      requires id in store.state.occurrences && store.state.occurrences[id] == o
      requires ReadyToVisit(before, View(), id, active)
      modifies this
      ensures Visited(before, old(View()), View(), now, id, active, newActive)
    {
      newActive := active;
      ghost var v := View();
      if o.status == Planned && o.plan.plannedAt != ZERO_TIME && o.plan.plannedAt > now {
        newActive := active[OccurrenceTimer(id) := o.plan.plannedAt];
        ArmAt(OccurrenceTimer(id), o.plan.plannedAt);
        WantedVisit(before, v, now, id, OccurrenceTimer(id), o.plan.plannedAt, active);
      } else if o.status == Running && id in pending {
        var t := PendingTimer(id, pending[id].kind);
        if t !in timers {
          RetryLater(t, now);
        }
        newActive := active[t := if t in timers then timers[t] else ZERO_TIME];
        RetryVisit(before, v, now, id, active);
      } else if o.status == Failed && !o.attempted && o.due != ZERO_TIME {
        newActive := active[CompensationTimer(id) := o.due];
        ArmAt(CompensationTimer(id), o.due);
        WantedVisit(before, v, now, id, CompensationTimer(id), o.due, active);
      } else {
        IdleVisit(before, v, now, id, active);
      }
    }

    method ReconcileTimers(now: Instant)
      modifies this
      ensures View() == RearmTimers(old(View()), now)
    {
      ghost var before := View();
      var active: map<TimerId, Instant> := map[];
      var ids := store.state.occurrences.Keys;
      while ids != {}
        invariant ids <= store.state.occurrences.Keys
        invariant RearmedUpTo(before, View(), now, ids, active)
      {
        var id :| id in ids;
        ghost var v, was := View(), active;
        UnvisitedIsReady(before, v, now, ids, active, id);
        active := VisitOccurrence(id, store.state.occurrences[id], now, active, before);
        VisitOne(before, v, View(), now, ids, id, was, active);
        ids := ids - {id};
      }
      RearmedThenPruned(before, View(), now, active);
      StopInactive(now, active, before);
    }

    method StopInactive(now: Instant, active: map<TimerId, Instant>, ghost before: Sched)
      requires RearmedUpTo(before, View(), now, {}, active) && PrunedUpTo(before, View(), now, timers.Keys)
      modifies this
      ensures View() == RearmTimers(before, now)
    {
      var rest := timers.Keys;
      ActiveIsWanted(before, View(), now, active);
      while rest != {}
        invariant rest <= timers.Keys && PrunedUpTo(before, View(), now, rest)
        invariant forall k :: k in rest ==>
                    (k in timers && IsActive(active, k, timers[k]) <==> Wanted(before, now, k).Some?)
      {
        var t :| t in rest;
        ghost var v := View();
        if !IsActive(active, t, timers[t]) {
          StopTimer(t);
        }
        PruneOne(before, v, now, rest, t);
        rest := rest - {t};
      }
      PrunedAll(before, View(), now);
    }

    // ----- start, stop and crash -----

    method StartUp(write: Write)
      modifies this, store
      ensures View() == Start(old(View()), write)
    {
      if phase != Idle {
        return;
      }
      var recovered := RecoverAll(store.state);
      var ok := store.Save(recovered, write);
      phase := Live;
      startFailed := !ok;
    }

    method ShutDown()
      modifies this
      ensures View() == Stop(old(View()))
    {
      if phase == Idle {
        phase := Stopped;
        return;
      }
      if phase == Stopped {
        return;
      }
      StopAllTimers();
      phase := Stopped;
    }

    // ----- reconciliation -----

    method PlanHorizon(days: Days) returns (plans: Option<seq<PlannedOccurrence>>)
      ensures plans == Horizon(days)
    {
      var all := [];
      for offset := 0 to HORIZON_DAYS + 1
        invariant Horizon(days[..offset]) == Some(all)
      {
        assert days[..offset + 1][..offset] == days[..offset];
        if days[offset] == None {
          HorizonFails(days, offset);
          return None;
        }
        all := all + days[offset].value;
      }
      assert days[..HORIZON_DAYS + 1] == days;
      return Some(all);
    }

    method DisableAndCancel(env: ReconcileEnv) returns (ok: bool)
      modifies this, store
      ensures Result(View(), ok) == Disabling(old(View()), env)
    {
      var disabled := DisableAll(store.state);
      var written := store.Save(disabled, env.write);
      if !written {
        return false;
      }
      CancelTimers();
      ok := ScheduleMidnight(env.zoneLoads, env.midnight);
    }

    method UpdatePlans(plans: seq<PlannedOccurrence>, now: Instant, write: Write) returns (ok: bool)
      modifies store
      ensures store.state == Written(old(store.state), Reconcile(old(store.state), plans, now), write)
      ensures ok == write.Ok?
    {
      var state := store.Load();
      var applied, desired := ApplyAll(state, plans, now);
      var dropped := DropAll(applied, desired);
      var pruned := PruneAll(dropped);
      ok := store.Save(pruned, write);
    }

    method PlanAndRearm(env: ReconcileEnv) returns (ok: bool)
      modifies this, store
      ensures Result(View(), ok) == Planning(old(View()), env)
    {
      if !env.zoneLoads {
        return false;
      }
      var plans := PlanHorizon(env.days);
      if plans == None {
        return false;
      }
      var written := UpdatePlans(plans.value, env.now, env.write);
      if !written {
        return false;
      }
      ReconcileTimers(env.now);
      ok := ScheduleMidnight(env.zoneLoads, env.midnight);
    }

    method ReconcileNow(settings: C.Config, env: ReconcileEnv) returns (ok: bool)
      modifies this, store
      ensures Result(View(), ok) == ReconcileOwned(old(View()), settings, env)
    {
      if !settings.enabled {
        ok := DisableAndCancel(env);
      } else {
        ok := PlanAndRearm(env);
      }
    }

    method ReconcileAfterCallback(env: ReconcileEnv)
      modifies this, store
      ensures View() == AfterCallback(old(View()), env)
    {
      var ok := ReconcileNow(config, env);
      if !ok {
        ScheduleReconcileRetry(env.retryNow);
      }
    }

    // ----- commands -----

    method OnReconcile(settings: C.Config, start: Write, env: ReconcileEnv)
      modifies this, store
      ensures View() == HandleReconcile(old(View()), settings, start, env)
    {
      StartUp(start);
      if startFailed || phase != Live {
        return;
      }
      config := settings;
      var _ := ReconcileNow(settings, env);
    }

    method OnRetry(generation: nat, env: ReconcileEnv)
      modifies this, store
      ensures View() == HandleRetry(old(View()), generation, env)
    {
      if phase != Live {
        return;
      }
      var owned := ConsumeTimer(RetryTimer, generation);
      if owned {
        ReconcileAfterCallback(env);
      }
    }

    method OnMidnight(generation: nat, env: ReconcileEnv, zoneLoadsLater: bool, laterMidnight: Instant)
      modifies this, store
      ensures View() == HandleMidnight(old(View()), generation, env, zoneLoadsLater, laterMidnight)
    {
      if phase != Live {
        return;
      }
      var owned := ConsumeTimer(MidnightTimer, generation);
      if !owned {
        return;
      }
      var ok := ReconcileNow(config, env);
      if !ok {
        var _ := ScheduleMidnight(zoneLoadsLater, laterMidnight);
        ScheduleReconcileRetry(env.retryNow);
      }
    }

    method SaveVerdict(id: Id, p: Pending, write: Write) returns (ok: bool)
      modifies store
      ensures store.state == Written(old(store.state), PersistTerminal(old(store.state), id, p), write)
      ensures ok == write.Ok?
    {
      var state := store.Load();
      if id in state.occurrences {
        var entry := state.occurrences[id].(status := p.status);
        if p.kind == CompensationKind {
          entry := entry.(due := ZERO_TIME, attempted := true);
          state := state.(nextRuns := state.nextRuns - {id});
        } else {
          if p.status != Failed {
            entry := entry.(due := ZERO_TIME, attempted := false);
          }
          if p.status == Failed && !entry.attempted && entry.due != ZERO_TIME {
            state := state.(nextRuns := state.nextRuns[id := entry.due]);
          } else {
            state := state.(nextRuns := state.nextRuns - {id});
          }
        }
        state := state.(occurrences := state.occurrences[id := entry]);
      }
      ok := store.Save(state, write);
    }

    method SettleVerdict(id: Id, p: Pending, write: Write, retryNow: Instant)
      modifies this, store
      ensures View() == Settle(old(View()), id, p, write, retryNow)
    {
      var ok := SaveVerdict(id, p, write);
      if ok {
        pending := pending - {id};
      } else {
        pending := pending[id := p];
        RetryLater(PendingTimer(id, p.kind), retryNow);
      }
    }

    method RewriteVerdict(id: Id, write: Write, now: Instant, env: ReconcileEnv)
      requires id in pending
      modifies this, store
      ensures View() == Resettle(old(View()), id, write, now, env)
    {
      SettleVerdict(id, pending[id], write, now);
      if write == Ok {
        ReconcileAfterCallback(env);
      }
    }

    /** The executor's own transaction. */
    method WriteDue(occurrence: PlannedOccurrence, due: Instant, write: Write)
      modifies store
      ensures store.state == Written(old(store.state), UpdateCompensation(old(store.state), occurrence, due), write)
    {
      if TrimSpace(occurrence.id) == "" {
        return;
      }
      var state := store.Load();
      var entry := OccurrenceState(occurrence, Blank, ZERO_TIME, false);
      if occurrence.id in state.occurrences {
        entry := state.occurrences[occurrence.id];
      }
      entry := entry.(due := due);
      var _ := store.Save(state.(occurrences := state.occurrences[occurrence.id := entry]), write);
    }

    method RunOccurrence(id: Id, occurrence: PlannedOccurrence, env: OccurrenceEnv)
      requires id in store.state.occurrences && store.state.occurrences[id].plan == occurrence
      modifies this, store
      ensures View() == RunPreheat(old(View()), id, env)
    {
      if env.gate != Open { phase := Stopping; }
      if env.gate == ClosedBefore {
        return;
      }
      calls := calls + [Preheat(id, CallStatus(env.result))];
      if env.result.Attempted? {
        WriteDue(occurrence, DueAfter(env.result), env.result.dueWrite);
      }
      SettleVerdict(id, Pending(OccurrenceKind, CallStatus(env.result)), env.terminal, env.now);
      ReconcileAfterCallback(env.reconcile);
    }

    method ClaimOccurrence(id: Id, env: OccurrenceEnv)
      modifies this, store
      ensures View() == ClaimAndRun(old(View()), id, env)
    {
      var state := store.Load();
      var claimed := false;
      if id in state.occurrences && state.occurrences[id].status == Planned && id in state.nextRuns {
        var entry := state.occurrences[id];
        var selected := ScheduledForConfig(config.scheduledAccountKeys, entry.plan.accountKey);
        if !(entry.plan.plannedAt == ZERO_TIME || entry.plan.plannedAt > env.now
             || state.nextRuns[id] != entry.plan.plannedAt || !config.enabled || !selected)
        {
          state := state.(occurrences := state.occurrences[id := entry.(status := Running)],
                          nextRuns := state.nextRuns - {id});
          claimed := true;
        }
      }
      var ok := store.Save(state, env.claim);
      if !ok {
        RetryLater(OccurrenceTimer(id), env.now);
        return;
      }
      if claimed {
        RunOccurrence(id, state.occurrences[id].plan, env);
      }
    }

    method OnOccurrence(id: Id, generation: nat, env: OccurrenceEnv)
      modifies this, store
      ensures View() == HandleOccurrence(old(View()), id, generation, env)
    {
      if phase != Live {
        return;
      }
      var owned := ConsumeTimer(OccurrenceTimer(id), generation);
      if !owned {
        return;
      }
      if id in pending && pending[id].kind == OccurrenceKind {
        RewriteVerdict(id, env.terminal, env.now, env.reconcile);
        return;
      }
      ClaimOccurrence(id, env);
    }

    method RunSecondAttempt(id: Id, env: CompensationEnv)
      modifies this, store
      ensures View() == RunCompensation(old(View()), id, env)
    {
      if env.gate != Open { phase := Stopping; }
      if env.gate == ClosedBefore {
        return;
      }
      calls := calls + [Compensation(id, CallStatus(env.result))];
      SettleVerdict(id, Pending(CompensationKind, CallStatus(env.result)), env.terminal, env.terminalRetryNow);
      ReconcileAfterCallback(env.reconcile);
    }

    method ClaimSecondAttempt(id: Id, env: CompensationEnv)
      modifies this, store
      ensures View() == ClaimAndCompensate(old(View()), id, env)
    {
      if !env.loads {
        RetryLater(CompensationTimer(id), env.now);
        return;
      }
      var state := store.Load();
      if id !in state.occurrences || id !in state.nextRuns {
        return;
      }
      var entry := state.occurrences[id];
      var selected := ScheduledForConfig(config.scheduledAccountKeys, entry.plan.accountKey);
      if entry.status != Failed || entry.attempted || entry.due == ZERO_TIME || state.nextRuns[id] != entry.due
         || !config.enabled || !selected
      {
        return;
      }
      var eligible := env.eligible;
      if TrimSpace(state.occurrences[id].plan.accountKey) in state.holds {
        eligible := false;
      }
      entry := entry.(attempted := true, due := ZERO_TIME, status := if eligible then Running else Skipped);
      state := state.(occurrences := state.occurrences[id := entry], nextRuns := state.nextRuns - {id});
      var ok := store.Save(state, env.claim);
      if !ok {
        RetryLater(CompensationTimer(id), env.claimRetryNow);
        return;
      }
      if !eligible {
        ReconcileAfterCallback(env.reconcile);
        return;
      }
      RunSecondAttempt(id, env);
    }

    method OnCompensation(id: Id, generation: nat, env: CompensationEnv)
      modifies this, store
      ensures View() == HandleCompensation(old(View()), id, generation, env)
    {
      if phase != Live {
        return;
      }
      var owned := ConsumeTimer(CompensationTimer(id), generation);
      if !owned {
        return;
      }
      if id in pending && pending[id].kind == CompensationKind {
        RewriteVerdict(id, env.terminal, env.now, env.reconcile);
        return;
      }
      ClaimSecondAttempt(id, env);
    }
  }

  method ScheduledForConfig(keys: seq<string>, account: string) returns (found: bool)
    ensures found <==> ScheduledFor(keys, account)
  {
    var key := TrimSpace(account);
    for i := 0 to |keys|
      invariant forall j :: 0 <= j < i ==> TrimSpace(keys[j]) != key
    {
      if TrimSpace(keys[i]) == key {
        return true;
      }
    }
    return false;
  }

  lemma {:induction false} HorizonFails(days: seq<Option<seq<PlannedOccurrence>>>, k: nat)
    requires k < |days| && days[k] == None
    ensures Horizon(days) == None
  {
    if k < |days| - 1 { HorizonFails(days[..|days| - 1], k); }
  }
}
