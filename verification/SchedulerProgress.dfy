/** With all-or-nothing writes: finished occurrences are final and no work is stranded. */
module SchedulerProgress {
  import opened Domain
  import opened RuntimeState
  import opened SchedulerState
  import opened SchedulerSafety
  import opened SchedulerOrder
  import opened Reconciling
  import C = Config

  // ----- writes that are either reported and applied or neither -----

  predicate Honest(result: ExecResult) { result.Attempted? ==> !result.dueWrite.Ambiguous? }

  predicate AllOrNothing(e: Event) {
    match e
    case Started(write) => !write.Ambiguous?
    case ReconcileRequested(_, start, env) => !start.Ambiguous? && !env.write.Ambiguous?
    case OccurrenceFired(_, _, env) =>
      !env.claim.Ambiguous? && Honest(env.result) && !env.terminal.Ambiguous? && !env.reconcile.write.Ambiguous?
    case CompensationFired(_, _, env) =>
      !env.claim.Ambiguous? && Honest(env.result) && !env.terminal.Ambiguous? && !env.reconcile.write.Ambiguous?
    case MidnightFired(_, env, _, _) => !env.write.Ambiguous?
    case RetryFired(_, env) => !env.write.Ambiguous?
    case _ => true
  }

  // ----- the invariant -----

  /** A saved verdict belongs to an occurrence that is durably running and has its retry timer armed; only a
      running or failed occurrence has a due time. */
  predicate OrderlyAt(s: Sched, id: Id) {
    && (id in s.pending ==>
          && !s.phase.Idle? && id in s.durable.occurrences && s.durable.occurrences[id].status.Running?
          && (s.phase.Live? ==> PendingTimer(id, s.pending[id].kind) in s.timers))
    && (id in s.durable.occurrences && s.durable.occurrences[id].due != ZERO_TIME ==>
          s.durable.occurrences[id].status.Running? || s.durable.occurrences[id].status.Failed?)
  }

  ghost predicate Orderly(s: Sched) {
    forall id: Id :: OrderlyAt(s, id)
  }

  // ----- reconciliation -----

  predicate EntryIsTidy(d: RuntimeState, id: Id) {
    id in d.occurrences ==>
      && DebtIsFresh(d.occurrences[id])
      && (d.occurrences[id].due != ZERO_TIME ==> d.occurrences[id].status.Running? || d.occurrences[id].status.Failed?)
  }

  lemma {:induction false} ApplyPlansTidy(d: RuntimeState, plans: seq<PlannedOccurrence>, now: Instant, id: Id)
    requires EntryIsTidy(d, id)
    ensures EntryIsTidy(ApplyPlans(d, plans, now), id)
  {
    if plans != [] { ApplyPlansTidy(d, plans[..|plans| - 1], now, id); }
  }

  lemma ReconcileTidy(d: RuntimeState, plans: seq<PlannedOccurrence>, now: Instant, id: Id)
    requires EntryIsTidy(d, id)
    ensures EntryIsTidy(Reconcile(d, plans, now), id)
  {
    ApplyPlansTidy(d, plans, now, id);
  }

  lemma RunningIsUntouched(s: Sched, config: C.Config, env: ReconcileEnv, id: Id)
    requires id in s.durable.occurrences && s.durable.occurrences[id].status.Running?
    ensures var r := ReconcileOwned(s, config, env).s;
            id in r.durable.occurrences && r.durable.occurrences[id] == s.durable.occurrences[id]
  {
    ReconcileOwnedWrites(s, config, env);
    if config.enabled && Horizon(env.days).Some? {
      HistoryIsUntouched(s.durable, Horizon(env.days).value, env.now, id);
    }
  }

  lemma PendingTimerSurvives(s: Sched, config: C.Config, env: ReconcileEnv, id: Id)
    requires id in s.pending && id in s.durable.occurrences && s.durable.occurrences[id].status.Running?
    requires PendingTimer(id, s.pending[id].kind) in s.timers
    ensures PendingTimer(id, s.pending[id].kind) in ReconcileOwned(s, config, env).s.timers
  {
    var r := ReconcileOwned(s, config, env);
    if r.ok && config.enabled {
      var d := Reconcile(s.durable, Horizon(env.days).value, env.now);
      HistoryIsUntouched(s.durable, Horizon(env.days).value, env.now, id);
      EnabledSuccess(s, config, env, d);
      RearmedTimersAreWanted(s.(durable := d), env.now, PendingTimer(id, s.pending[id].kind));
    } else if r.ok {
      DisabledSuccess(s, config, env, Disable(s.durable));
    }
  }

  lemma ReconcileOwnedOrderlyAt(s: Sched, config: C.Config, env: ReconcileEnv, id: Id)
    requires OrderlyAt(s, id) && EntryIsTidy(s.durable, id)
    ensures OrderlyAt(ReconcileOwned(s, config, env).s, id)
  {
    ReconcileOwnedWrites(s, config, env);
    if config.enabled && Horizon(env.days).Some? {
      ReconcileTidy(s.durable, Horizon(env.days).value, env.now, id);
    }
    if id in s.pending {
      RunningIsUntouched(s, config, env, id);
      if s.phase.Live? { PendingTimerSurvives(s, config, env, id); }
    }
  }

  lemma AfterCallbackOrderlyAt(s: Sched, env: ReconcileEnv, id: Id)
    requires OrderlyAt(s, id) && EntryIsTidy(s.durable, id)
    ensures OrderlyAt(AfterCallback(s, env), id)
  {
    ReconcileOwnedOrderlyAt(s, s.config, env, id);
  }

  // ----- callbacks -----

  predicate RunsFresh(s: Sched, id: Id) {
    && !s.phase.Idle?
    && id in s.durable.occurrences && s.durable.occurrences[id].status.Running? && DebtIsFresh(s.durable.occurrences[id])
  }

  lemma SettleOrderlyAt(s: Sched, id: Id, p: Pending, write: Write, retryNow: Instant, other: Id)
    requires RunsFresh(s, id) && IsVerdict(p.status) && !write.Ambiguous?
    requires other != id ==> OrderlyAt(s, other) && EntryIsTidy(s.durable, other)
    ensures var t := Settle(s, id, p, write, retryNow);
            OrderlyAt(t, other) && EntryIsTidy(t.durable, other)
  {
  }

  lemma SettleAndReconcileOrderlyAt(
    s: Sched, id: Id, p: Pending, write: Write, retryNow: Instant, env: ReconcileEnv, other: Id)
    requires RunsFresh(s, id) && IsVerdict(p.status) && !write.Ambiguous?
    requires other != id ==> OrderlyAt(s, other) && EntryIsTidy(s.durable, other)
    ensures OrderlyAt(AfterCallback(Settle(s, id, p, write, retryNow), env), other)
  {
    SettleOrderlyAt(s, id, p, write, retryNow, other);
    AfterCallbackOrderlyAt(Settle(s, id, p, write, retryNow), env, other);
  }

  lemma ResettleOrderlyAt(s: Sched, id: Id, write: Write, now: Instant, env: ReconcileEnv, other: Id)
    requires id in s.pending && RunsFresh(s, id) && IsVerdict(s.pending[id].status) && !write.Ambiguous?
    requires other != id ==> OrderlyAt(s, other) && EntryIsTidy(s.durable, other)
    ensures OrderlyAt(Resettle(s, id, write, now, env), other)
  {
    SettleOrderlyAt(s, id, s.pending[id], write, now, other);
    SettleAndReconcileOrderlyAt(s, id, s.pending[id], write, now, env, other);
  }

  lemma PreheatOrderlyAt(s: Sched, id: Id, result: ExecResult, other: Id)
    requires RunsFresh(s, id) && !s.durable.occurrences[id].attempted && s.durable.occurrences[id].plan.id == id
    requires OrderlyAt(s, other) && EntryIsTidy(s.durable, other)
    ensures var t := ExecutePreheat(s, id, s.durable.occurrences[id].plan, result);
            RunsFresh(t, id) && OrderlyAt(t, other) && EntryIsTidy(t.durable, other)
  {
    ExecutorWrites(s.durable, id, DueAfter(result), other);
  }

  lemma RunPreheatOrderlyAt(s: Sched, id: Id, env: OccurrenceEnv, other: Id)
    requires RunsFresh(s, id) && !s.durable.occurrences[id].attempted && s.durable.occurrences[id].plan.id == id
    requires OrderlyAt(s, other) && EntryIsTidy(s.durable, other) && !env.terminal.Ambiguous?
    ensures OrderlyAt(RunPreheat(s, id, env), other)
  {
    var gated := PassGate(s, env.gate);
    if !env.gate.ClosedBefore? {
      PreheatOrderlyAt(gated, id, env.result, other);
      SettleAndReconcileOrderlyAt(ExecutePreheat(gated, id, s.durable.occurrences[id].plan, env.result), id,
                                  Pending(OccurrenceKind, CallStatus(env.result)), env.terminal, env.now,
                                  env.reconcile, other);
    }
  }

  lemma ClaimAndRunOrderlyAt(s: Sched, id: Id, env: OccurrenceEnv, other: Id)
    requires Safe(s) && !s.phase.Idle? && OrderlyAt(s, id) && OrderlyAt(s, other) && EntryIsTidy(s.durable, other)
    requires !env.claim.Ambiguous? && !env.terminal.Ambiguous?
    ensures OrderlyAt(ClaimAndRun(s, id, env), other)
  {
    if Guard(s, id, env.now) {
      assert EntryOk(s.durable, s.calls, id);
      var stored := Store(s, Claim(s.durable, id), env.claim);
      assert OrderlyAt(stored, other) && EntryIsTidy(stored.durable, other);
      if env.claim.Ok? { RunPreheatOrderlyAt(stored, id, env, other); }
    }
  }

  lemma OccurrenceOrderlyAt(s: Sched, id: Id, generation: nat, env: OccurrenceEnv, other: Id)
    requires Safe(s) && OrderlyAt(s, id) && OrderlyAt(s, other)
    requires !env.claim.Ambiguous? && !env.terminal.Ambiguous?
    ensures OrderlyAt(HandleOccurrence(s, id, generation, env), other)
  {
    if s.phase.Live? && Owns(s, OccurrenceTimer(id), generation) {
      var t := Consume(s, OccurrenceTimer(id));
      VolatileKeepsSafe(s, t);
      assert EntryOk(s.durable, s.calls, id) && EntryOk(s.durable, s.calls, other) && PendingOk(s, id);
      if id in t.pending && t.pending[id].kind.OccurrenceKind? {
        ResettleOrderlyAt(t, id, env.terminal, env.now, env.reconcile, other);
      } else {
        ClaimAndRunOrderlyAt(t, id, env, other);
      }
    }
  }

  lemma RunCompensationOrderlyAt(s: Sched, id: Id, env: CompensationEnv, other: Id)
    requires RunsFresh(s, id) && OrderlyAt(s, other) && EntryIsTidy(s.durable, other) && !env.terminal.Ambiguous?
    ensures OrderlyAt(RunCompensation(s, id, env), other)
  {
    var gated := PassGate(s, env.gate);
    if !env.gate.ClosedBefore? {
      var done := ExecuteCompensation(gated, id, env.result);
      assert RunsFresh(done, id) && OrderlyAt(done, other);
      SettleAndReconcileOrderlyAt(done, id, Pending(CompensationKind, CallStatus(env.result)), env.terminal,
                                  env.terminalRetryNow, env.reconcile, other);
    }
  }

  lemma ClaimAndCompensateOrderlyAt(s: Sched, id: Id, env: CompensationEnv, other: Id)
    requires !s.phase.Idle? && OrderlyAt(s, id) && OrderlyAt(s, other) && EntryIsTidy(s.durable, other)
    requires !env.claim.Ambiguous? && !env.terminal.Ambiguous?
    ensures OrderlyAt(ClaimAndCompensate(s, id, env), other)
  {
    if env.loads && CompensationGuard(s, id) {
      var eligible := env.eligible && !Held(s.durable, id);
      var stored := Store(s, ClaimCompensation(s.durable, id, eligible), env.claim);
      assert OrderlyAt(stored, other) && EntryIsTidy(stored.durable, other);
      if env.claim.Ok? {
        if eligible {
          RunCompensationOrderlyAt(stored, id, env, other);
        } else {
          AfterCallbackOrderlyAt(stored, env.reconcile, other);
        }
      }
    }
  }

  lemma CompensationOrderlyAt(s: Sched, id: Id, generation: nat, env: CompensationEnv, other: Id)
    requires Safe(s) && OrderlyAt(s, id) && OrderlyAt(s, other)
    requires !env.claim.Ambiguous? && !env.terminal.Ambiguous?
    ensures OrderlyAt(HandleCompensation(s, id, generation, env), other)
  {
    if s.phase.Live? && Owns(s, CompensationTimer(id), generation) {
      var t := Consume(s, CompensationTimer(id));
      assert EntryOk(s.durable, s.calls, id) && EntryOk(s.durable, s.calls, other) && PendingOk(s, id);
      if id in t.pending && t.pending[id].kind.CompensationKind? {
        ResettleOrderlyAt(t, id, env.terminal, env.now, env.reconcile, other);
      } else {
        ClaimAndCompensateOrderlyAt(t, id, env, other);
      }
    }
  }

  // ----- every step -----

  lemma StartOrderlyAt(s: Sched, write: Write, id: Id)
    requires OrderlyAt(s, id) && EntryIsTidy(s.durable, id)
    ensures OrderlyAt(Start(s, write), id) && EntryIsTidy(Start(s, write).durable, id)
  {
  }

  lemma ReconcileRequestOrderlyAt(s: Sched, config: C.Config, start: Write, env: ReconcileEnv, id: Id)
    requires OrderlyAt(s, id) && EntryIsTidy(s.durable, id)
    ensures OrderlyAt(HandleReconcile(s, config, start, env), id)
  {
    StartOrderlyAt(s, start, id);
    ReconcileOwnedOrderlyAt(Start(s, start).(config := config), config, env, id);
  }

  lemma MidnightOrderlyAt(s: Sched, generation: nat, env: ReconcileEnv, later: bool, midnight: Instant, id: Id)
    requires OrderlyAt(s, id) && EntryIsTidy(s.durable, id)
    ensures OrderlyAt(HandleMidnight(s, generation, env, later, midnight), id)
  {
    ReconcileOwnedOrderlyAt(Consume(s, MidnightTimer), s.config, env, id);
  }

  lemma StepOrderlyAt(s: Sched, e: Event, id: Id)
    requires Safe(s) && Orderly(s) && AllOrNothing(e)
    ensures OrderlyAt(Step(s, e), id)
  {
    assert OrderlyAt(s, id) && EntryOk(s.durable, s.calls, id);
    match e
    case OccurrenceFired(fired, generation, env) => OccurrenceOrderlyAt(s, fired, generation, env, id);
    case CompensationFired(fired, generation, env) => CompensationOrderlyAt(s, fired, generation, env, id);
    case Started(write) => StartOrderlyAt(s, write, id);
    case StopRequested =>
    case Crashed =>
    case HoldsChanged(_) =>
    case ReconcileRequested(config, start, env) => ReconcileRequestOrderlyAt(s, config, start, env, id);
    case MidnightFired(generation, env, later, midnight) => MidnightOrderlyAt(s, generation, env, later, midnight, id);
    case RetryFired(_, env) => AfterCallbackOrderlyAt(Consume(s, RetryTimer), env, id);
  }

  lemma {:induction false} RunIsOrderly(events: seq<Event>)
    requires forall e :: e in events ==> AllOrNothing(e)
    ensures var s := Run(INITIAL, events);
            Safe(s) && Orderly(s)
  {
    RunIsSafe(events);
    if events != [] {
      var s := Run(INITIAL, events[..|events| - 1]);
      var e := events[|events| - 1];
      RunIsOrderly(events[..|events| - 1]);
      forall id: Id ensures OrderlyAt(Step(s, e), id) { StepOrderlyAt(s, e, id); }
    }
  }

  // ----- the promises -----

  /** With all-or-nothing writes a succeeded, skipped or missed occurrence is final: its entry never changes
      again and it is never executed again, over every continuation whatsoever. */
  lemma FinishedIsFinal(events: seq<Event>, later: seq<Event>, id: Id)
    requires forall e :: e in events ==> AllOrNothing(e)
    requires var d := Run(INITIAL, events).durable;
             id in d.occurrences
             && (d.occurrences[id].status.Succeeded? || d.occurrences[id].status.Skipped?
                 || d.occurrences[id].status.Missed?)
    ensures var s := Run(INITIAL, events);
            var t := Run(s, later);
            && id in t.durable.occurrences && t.durable.occurrences[id] == s.durable.occurrences[id]
            && Preheats(t.calls, id) == Preheats(s.calls, id)
            && Compensations(t.calls, id) == Compensations(s.calls, id)
  {
    RunIsOrderly(events);
    assert OrderlyAt(Run(INITIAL, events), id);
    OverForever(Run(INITIAL, events), later, id);
  }

  /** A due time is only ever set on a running or failed occurrence whose one attempt is unspent, and the
      occurrence was preheated; a debt is owed only for a preheat that ended failed. */
  lemma DebtsAreEarned(events: seq<Event>, id: Id)
    requires forall e :: e in events ==> AllOrNothing(e)
    requires id in Run(INITIAL, events).durable.occurrences
    ensures var s := Run(INITIAL, events);
            var o := s.durable.occurrences[id];
            && (o.due != ZERO_TIME ==>
                  (o.status.Running? || o.status.Failed?) && !o.attempted && Preheats(s.calls, id) == 1)
            && (OwesCompensation(o) ==> Preheat(id, Failed) in s.calls && Compensations(s.calls, id) == 0)
  {
    RunIsOrderly(events);
    var s := Run(INITIAL, events);
    assert OrderlyAt(s, id) && EntryOk(s.durable, s.calls, id);
  }

  /** A verdict that could not be written is never lost: while the process is live the occurrence is durably
      running and a retry timer for exactly that verdict is armed. */
  lemma NoVerdictIsStranded(events: seq<Event>, id: Id)
    requires forall e :: e in events ==> AllOrNothing(e)
    requires id in Run(INITIAL, events).pending && Run(INITIAL, events).phase.Live?
    ensures var s := Run(INITIAL, events);
            && id in s.durable.occurrences && s.durable.occurrences[id].status.Running?
            && PendingTimer(id, s.pending[id].kind) in s.timers
            && (if s.pending[id].kind.OccurrenceKind? then Preheat(id, s.pending[id].status) in s.calls
                else Compensations(s.calls, id) == 1)
  {
    RunIsOrderly(events);
    assert OrderlyAt(Run(INITIAL, events), id) && PendingOk(Run(INITIAL, events), id);
  }

  /** Handling the retry timer of a verdict never calls the executor: it rewrites that verdict, and gives it up
      exactly when the write succeeds. */
  lemma RetryOnlyRewrites(s: Sched, id: Id, generation: nat, env: OccurrenceEnv)
    requires s.phase.Live? && Owns(s, OccurrenceTimer(id), generation)
    requires id in s.pending && s.pending[id].kind.OccurrenceKind?
    ensures var t := HandleOccurrence(s, id, generation, env);
            && t.calls == s.calls
            && (id in t.pending <==> !env.terminal.Ok?)
            && (id in t.pending ==> t.pending[id] == s.pending[id] && OccurrenceTimer(id) in t.timers)
  {
    var u := Consume(s, OccurrenceTimer(id));
    var settled := Settle(u, id, u.pending[id], env.terminal, env.now);
    ReconcileOwnedWrites(settled, settled.config, env.reconcile);
  }

  lemma CompensationRetryOnlyRewrites(s: Sched, id: Id, generation: nat, env: CompensationEnv)
    requires s.phase.Live? && Owns(s, CompensationTimer(id), generation)
    requires id in s.pending && s.pending[id].kind.CompensationKind?
    ensures var t := HandleCompensation(s, id, generation, env);
            && t.calls == s.calls
            && (id in t.pending <==> !env.terminal.Ok?)
            && (id in t.pending ==> t.pending[id] == s.pending[id] && CompensationTimer(id) in t.timers)
  {
    var u := Consume(s, CompensationTimer(id));
    var settled := Settle(u, id, u.pending[id], env.terminal, env.now);
    ReconcileOwnedWrites(settled, settled.config, env.reconcile);
  }

  // ----- the horizon never runs dry -----

  lemma DisabledKeepsMidnight(s: Sched, config: C.Config, env: ReconcileEnv)
    requires !config.enabled
    ensures var r := ReconcileOwned(s, config, env);
            && Due(r.s, MidnightTimer) == (if r.ok then Some(env.midnight) else Due(s, MidnightTimer))
            && Due(r.s, RetryTimer) == Due(s, RetryTimer)
  {
  }

  lemma EnabledFailureChangesNoTimer(s: Sched, config: C.Config, env: ReconcileEnv)
    requires config.enabled && !ReconcileOwned(s, config, env).ok
    ensures ReconcileOwned(s, config, env).s.timers == s.timers
  {
  }

  lemma ReconcileKeepsMidnight(s: Sched, config: C.Config, env: ReconcileEnv)
    ensures var r := ReconcileOwned(s, config, env);
            && Due(r.s, MidnightTimer) == (if r.ok then Some(env.midnight) else Due(s, MidnightTimer))
            && Due(r.s, RetryTimer) == Due(s, RetryTimer)
            && r.s.phase == s.phase
  {
    ReconcileOwnedWrites(s, config, env);
    if !config.enabled {
      DisabledKeepsMidnight(s, config, env);
    } else if !ReconcileOwned(s, config, env).ok {
      EnabledFailureChangesNoTimer(s, config, env);
    } else {
      var d := Reconcile(s.durable, Horizon(env.days).value, env.now);
      EnabledSuccess(s, config, env, d);
      RearmedTimersAreWanted(s.(durable := d), env.now, MidnightTimer);
      RearmedTimersAreWanted(s.(durable := d), env.now, RetryTimer);
    }
  }

  /** Timers that lead to another reconciliation. */
  predicate HasHorizon(s: Sched) { MidnightTimer in s.timers || RetryTimer in s.timers }

  /** What every part of a callback does to the two reconciliation timers and to the phase. */
  predicate KeepsHorizon(s: Sched, t: Sched) {
    && (t.phase.Live? ==> s.phase.Live?)
    && (t.phase.Idle? <==> s.phase.Idle?)
    && (MidnightTimer in s.timers ==> MidnightTimer in t.timers)
    && (RetryTimer in s.timers ==> RetryTimer in t.timers)
  }

  lemma AfterCallbackKeepsHorizon(s: Sched, env: ReconcileEnv)
    ensures KeepsHorizon(s, AfterCallback(s, env))
    ensures AfterCallback(s, env).phase.Live? ==> HasHorizon(AfterCallback(s, env))
  {
    ReconcileKeepsMidnight(s, s.config, env);
  }

  lemma SettleKeepsHorizon(s: Sched, id: Id, p: Pending, write: Write, retryNow: Instant)
    ensures KeepsHorizon(s, Settle(s, id, p, write, retryNow))
  {
  }

  lemma SettleAndReconcileKeepsHorizon(s: Sched, id: Id, p: Pending, write: Write, retryNow: Instant, env: ReconcileEnv)
    ensures KeepsHorizon(s, AfterCallback(Settle(s, id, p, write, retryNow), env))
  {
    SettleKeepsHorizon(s, id, p, write, retryNow);
    AfterCallbackKeepsHorizon(Settle(s, id, p, write, retryNow), env);
  }

  lemma ResettleKeepsHorizon(s: Sched, id: Id, write: Write, now: Instant, env: ReconcileEnv)
    requires id in s.pending
    ensures KeepsHorizon(s, Resettle(s, id, write, now, env))
  {
    SettleKeepsHorizon(s, id, s.pending[id], write, now);
    SettleAndReconcileKeepsHorizon(s, id, s.pending[id], write, now, env);
  }

  lemma RunPreheatKeepsHorizon(s: Sched, id: Id, env: OccurrenceEnv)
    requires s.phase.Live? && id in s.durable.occurrences
    ensures KeepsHorizon(s, RunPreheat(s, id, env))
  {
    var gated := PassGate(s, env.gate);
    SettleAndReconcileKeepsHorizon(ExecutePreheat(gated, id, s.durable.occurrences[id].plan, env.result), id,
                                   Pending(OccurrenceKind, CallStatus(env.result)), env.terminal, env.now,
                                   env.reconcile);
  }

  lemma ClaimAndRunKeepsHorizon(s: Sched, id: Id, env: OccurrenceEnv)
    requires s.phase.Live?
    ensures KeepsHorizon(s, ClaimAndRun(s, id, env))
  {
    if Guard(s, id, env.now) { RunPreheatKeepsHorizon(Store(s, Claim(s.durable, id), Ok), id, env); }
  }

  lemma OccurrenceKeepsHorizon(s: Sched, id: Id, generation: nat, env: OccurrenceEnv)
    ensures KeepsHorizon(s, HandleOccurrence(s, id, generation, env))
  {
    var t := Consume(s, OccurrenceTimer(id));
    assert KeepsHorizon(s, t);
    if s.phase.Live? {
      if id in t.pending && t.pending[id].kind.OccurrenceKind? {
        ResettleKeepsHorizon(t, id, env.terminal, env.now, env.reconcile);
      } else {
        ClaimAndRunKeepsHorizon(t, id, env);
      }
    }
  }

  lemma RunCompensationKeepsHorizon(s: Sched, id: Id, env: CompensationEnv)
    requires s.phase.Live?
    ensures KeepsHorizon(s, RunCompensation(s, id, env))
  {
    var gated := PassGate(s, env.gate);
    SettleAndReconcileKeepsHorizon(ExecuteCompensation(gated, id, env.result), id,
                                   Pending(CompensationKind, CallStatus(env.result)), env.terminal,
                                   env.terminalRetryNow, env.reconcile);
  }

  lemma ClaimAndCompensateKeepsHorizon(s: Sched, id: Id, env: CompensationEnv)
    requires s.phase.Live?
    ensures KeepsHorizon(s, ClaimAndCompensate(s, id, env))
  {
    if env.loads && CompensationGuard(s, id) {
      var stored := Store(s, ClaimCompensation(s.durable, id, env.eligible && !Held(s.durable, id)), env.claim);
      assert KeepsHorizon(s, stored);
      RunCompensationKeepsHorizon(stored, id, env);
      AfterCallbackKeepsHorizon(stored, env.reconcile);
    }
  }

  lemma CompensationKeepsHorizon(s: Sched, id: Id, generation: nat, env: CompensationEnv)
    ensures KeepsHorizon(s, HandleCompensation(s, id, generation, env))
  {
    var t := Consume(s, CompensationTimer(id));
    assert KeepsHorizon(s, t);
    if s.phase.Live? {
      if id in t.pending && t.pending[id].kind.CompensationKind? {
        ResettleKeepsHorizon(t, id, env.terminal, env.now, env.reconcile);
      } else {
        ClaimAndCompensateKeepsHorizon(t, id, env);
      }
    }
  }

  lemma MidnightKeepsHorizon(s: Sched, generation: nat, env: ReconcileEnv, later: bool, midnight: Instant)
    ensures var t := HandleMidnight(s, generation, env, later, midnight);
            && t.phase == s.phase
            && (s.phase.Live? && HasHorizon(s) ==> HasHorizon(t))
            && (MidnightTimer in s.timers ==>
                  (MidnightTimer in t.timers
                   <==> !(s.phase.Live? && Owns(s, MidnightTimer, generation) && !later
                          && !ReconcileOwned(Consume(s, MidnightTimer), s.config, env).ok)))
  {
    ReconcileKeepsMidnight(Consume(s, MidnightTimer), s.config, env);
  }

  lemma StepKeepsHorizon(s: Sched, e: Event)
    requires !s.phase.Idle? && !e.StopRequested? && !e.Crashed?
    requires s.phase.Live? ==> HasHorizon(s)
    ensures !Step(s, e).phase.Idle?
    ensures Step(s, e).phase.Live? ==> HasHorizon(Step(s, e))
    ensures (s.phase.Live? ==> MidnightTimer in s.timers) && (e.MidnightFired? ==> e.zoneLoadsLater) ==>
              (Step(s, e).phase.Live? ==> MidnightTimer in Step(s, e).timers)
  {
    match e
    case OccurrenceFired(id, generation, env) => OccurrenceKeepsHorizon(s, id, generation, env);
    case CompensationFired(id, generation, env) => CompensationKeepsHorizon(s, id, generation, env);
    case MidnightFired(generation, env, later, midnight) => MidnightKeepsHorizon(s, generation, env, later, midnight);
    case RetryFired(_, env) => AfterCallbackKeepsHorizon(Consume(s, RetryTimer), env);
    case ReconcileRequested(config, _, env) => ReconcileKeepsMidnight(s.(config := config), config, env);
    case _ =>
  }

  /** Once a reconciliation has succeeded, a live scheduler always has a timer that leads to the next one, whatever
      fails in between; and as long as the time zone loads when midnight is rescheduled, the midnight timer
      itself is always armed. */
  lemma {:induction false} HorizonNeverRunsDry(s: Sched, config: C.Config, env: ReconcileEnv, events: seq<Event>)
    requires s.phase.Live? && ReconcileOwned(s, config, env).ok
    requires forall e :: e in events ==> !e.StopRequested? && !e.Crashed?
    ensures var t := Run(ReconcileOwned(s, config, env).s, events);
            && !t.phase.Idle?
            && (t.phase.Live? ==> HasHorizon(t))
            && ((forall e :: e in events && e.MidnightFired? ==> e.zoneLoadsLater) ==>
                  (t.phase.Live? ==> MidnightTimer in t.timers))
  {
    if events == [] {
      ReconcileKeepsMidnight(s, config, env);
    } else {
      HorizonNeverRunsDry(s, config, env, events[..|events| - 1]);
      StepKeepsHorizon(Run(ReconcileOwned(s, config, env).s, events[..|events| - 1]), events[|events| - 1]);
    }
  }
}
