/** No catch-up and no way back: what is over stays over, and what a dead process had planned or begun never runs. */
module SchedulerOrder {
  import opened Domain
  import opened RuntimeState
  import opened SchedulerState
  import opened SchedulerSafety
  import C = Config

  // ----- what a step does to an occurrence it is not about -----

  /** Neither planned, nor running, nor owing anything. */
  predicate Over(o: OccurrenceState) {
    !o.status.Planned? && !o.status.Running? && o.due == ZERO_TIME
  }

  ghost predicate EntryKeeps(d: RuntimeState, e: RuntimeState, id: Id) {
    && (id in d.occurrences ==> id in e.occurrences)
    && (id in d.occurrences && Over(d.occurrences[id]) ==> e.occurrences[id] == d.occurrences[id])
  }

  ghost predicate Spares(s: Sched, t: Sched, id: Id) {
    && EntryKeeps(s.durable, t.durable, id)
    && (id in t.pending ==> id in s.pending)
    && Preheats(t.calls, id) == Preheats(s.calls, id)
    && Compensations(t.calls, id) == Compensations(s.calls, id)
  }

  lemma SparesIsTransitive(s: Sched, t: Sched, u: Sched, id: Id)
    requires Spares(s, t, id) && Spares(t, u, id)
    ensures Spares(s, u, id)
  {
  }

  lemma ApplyPlanEntryKeeps(d: RuntimeState, plan: PlannedOccurrence, now: Instant, id: Id)
    ensures EntryKeeps(d, ApplyPlan(d, plan, now), id)
  {
  }

  lemma {:induction false} ApplyPlansEntryKeeps(d: RuntimeState, plans: seq<PlannedOccurrence>, now: Instant, id: Id)
    ensures EntryKeeps(d, ApplyPlans(d, plans, now), id)
  {
    if plans != [] {
      ApplyPlansEntryKeeps(d, plans[..|plans| - 1], now, id);
      ApplyPlanEntryKeeps(ApplyPlans(d, plans[..|plans| - 1], now), plans[|plans| - 1], now, id);
    }
  }

  lemma ReconcileEntryKeeps(d: RuntimeState, plans: seq<PlannedOccurrence>, now: Instant, id: Id)
    ensures EntryKeeps(d, Reconcile(d, plans, now), id)
  {
    var applied := ApplyPlans(d, plans, now);
    ApplyPlansEntryKeeps(d, plans, now, id);
    assert EntryKeeps(applied, Prune(DropUnselected(applied, Desired(plans))), id);
  }

  lemma ReconcileOwnedSpares(s: Sched, config: C.Config, env: ReconcileEnv, id: Id)
    ensures Spares(s, ReconcileOwned(s, config, env).s, id)
  {
    ReconcileOwnedWrites(s, config, env);
    if config.enabled && Horizon(env.days).Some? {
      ReconcileEntryKeeps(s.durable, Horizon(env.days).value, env.now, id);
    }
  }

  lemma AfterCallbackSpares(s: Sched, env: ReconcileEnv, id: Id)
    ensures Spares(s, AfterCallback(s, env), id)
  {
    ReconcileOwnedSpares(s, s.config, env, id);
  }

  lemma SettleSpares(s: Sched, id: Id, p: Pending, write: Write, retryNow: Instant, other: Id)
    requires other != id
    ensures Spares(s, Settle(s, id, p, write, retryNow), other)
  {
  }

  lemma SettleAndReconcileSpares(
    s: Sched, id: Id, p: Pending, write: Write, retryNow: Instant, env: ReconcileEnv, other: Id)
    requires other != id
    ensures Spares(s, AfterCallback(Settle(s, id, p, write, retryNow), env), other)
  {
    var settled := Settle(s, id, p, write, retryNow);
    SettleSpares(s, id, p, write, retryNow, other);
    AfterCallbackSpares(settled, env, other);
    SparesIsTransitive(s, settled, AfterCallback(settled, env), other);
  }

  lemma ResettleSpares(s: Sched, id: Id, write: Write, now: Instant, env: ReconcileEnv, other: Id)
    requires id in s.pending && other != id
    ensures Spares(s, Resettle(s, id, write, now, env), other)
  {
    SettleSpares(s, id, s.pending[id], write, now, other);
    SettleAndReconcileSpares(s, id, s.pending[id], write, now, env, other);
  }

  lemma PreheatSpares(s: Sched, id: Id, result: ExecResult, other: Id)
    requires id in s.durable.occurrences && s.durable.occurrences[id].plan.id == id && other != id
    ensures Spares(s, ExecutePreheat(s, id, s.durable.occurrences[id].plan, result), other)
  {
    CallAppended(s.calls, Preheat(id, CallStatus(result)), other);
    assert EntryKeeps(s.durable, UpdateCompensation(s.durable, s.durable.occurrences[id].plan, DueAfter(result)), other);
  }

  lemma CompensationSpares(s: Sched, id: Id, result: ExecResult, other: Id)
    requires other != id
    ensures Spares(s, ExecuteCompensation(s, id, result), other)
  {
    CallAppended(s.calls, Compensation(id, CallStatus(result)), other);
  }

  lemma RunPreheatSpares(s: Sched, id: Id, env: OccurrenceEnv, other: Id)
    requires id in s.durable.occurrences && s.durable.occurrences[id].plan.id == id && other != id
    ensures Spares(s, RunPreheat(s, id, env), other)
  {
    var gated := PassGate(s, env.gate);
    if !env.gate.ClosedBefore? {
      var done := ExecutePreheat(gated, id, s.durable.occurrences[id].plan, env.result);
      var p := Pending(OccurrenceKind, CallStatus(env.result));
      PreheatSpares(gated, id, env.result, other);
      SettleAndReconcileSpares(done, id, p, env.terminal, env.now, env.reconcile, other);
      SparesIsTransitive(gated, done, RunPreheat(s, id, env), other);
    }
  }

  lemma ClaimAndRunSpares(s: Sched, id: Id, env: OccurrenceEnv, other: Id)
    requires Safe(s)
    requires other == id ==> id in s.durable.occurrences && Over(s.durable.occurrences[id])
    ensures Spares(s, ClaimAndRun(s, id, env), other)
  {
    if Guard(s, id, env.now) {
      assert EntryOk(s.durable, s.calls, id);
      var stored := Store(s, Claim(s.durable, id), env.claim);
      assert Spares(s, stored, other);
      if env.claim.Ok? {
        RunPreheatSpares(stored, id, env, other);
        SparesIsTransitive(s, stored, RunPreheat(stored, id, env), other);
      }
    }
  }

  lemma RunCompensationSpares(s: Sched, id: Id, env: CompensationEnv, other: Id)
    requires other != id
    ensures Spares(s, RunCompensation(s, id, env), other)
  {
    var gated := PassGate(s, env.gate);
    if !env.gate.ClosedBefore? {
      var done := ExecuteCompensation(gated, id, env.result);
      var p := Pending(CompensationKind, CallStatus(env.result));
      CompensationSpares(gated, id, env.result, other);
      SettleAndReconcileSpares(done, id, p, env.terminal, env.terminalRetryNow, env.reconcile, other);
      SparesIsTransitive(gated, done, RunCompensation(s, id, env), other);
    }
  }

  lemma ClaimAndCompensateSpares(s: Sched, id: Id, env: CompensationEnv, other: Id)
    requires other == id ==> id in s.durable.occurrences && Over(s.durable.occurrences[id])
    ensures Spares(s, ClaimAndCompensate(s, id, env), other)
  {
    if env.loads && CompensationGuard(s, id) {
      var eligible := env.eligible && !Held(s.durable, id);
      var stored := Store(s, ClaimCompensation(s.durable, id, eligible), env.claim);
      assert Spares(s, stored, other);
      if env.claim.Ok? {
        RunCompensationSpares(stored, id, env, other);
        AfterCallbackSpares(stored, env.reconcile, other);
        SparesIsTransitive(s, stored, ClaimAndCompensate(s, id, env), other);
      }
    }
  }

  // ----- what is over stays over -----

  ghost predicate Settled(s: Sched, id: Id) {
    id in s.durable.occurrences && Over(s.durable.occurrences[id]) && id !in s.pending
  }

  lemma OccurrenceSpares(s: Sched, fired: Id, generation: nat, env: OccurrenceEnv, id: Id)
    requires Safe(s) && Settled(s, id)
    ensures Spares(s, HandleOccurrence(s, fired, generation, env), id)
  {
    var t := Consume(s, OccurrenceTimer(fired));
    VolatileKeepsSafe(s, t);
    if fired in t.pending && t.pending[fired].kind.OccurrenceKind? {
      ResettleSpares(t, fired, env.terminal, env.now, env.reconcile, id);
    } else {
      ClaimAndRunSpares(t, fired, env, id);
    }
  }

  lemma CompensationFiredSpares(s: Sched, fired: Id, generation: nat, env: CompensationEnv, id: Id)
    requires Settled(s, id)
    ensures Spares(s, HandleCompensation(s, fired, generation, env), id)
  {
    var t := Consume(s, CompensationTimer(fired));
    if fired in t.pending && t.pending[fired].kind.CompensationKind? {
      ResettleSpares(t, fired, env.terminal, env.now, env.reconcile, id);
    } else {
      ClaimAndCompensateSpares(t, fired, env, id);
    }
  }

  lemma ReconcileRequestSpares(s: Sched, config: C.Config, start: Write, env: ReconcileEnv, id: Id)
    ensures Spares(s, HandleReconcile(s, config, start, env), id)
  {
    var t := Start(s, start);
    assert Spares(s, t, id);
    if !t.startFailed && t.phase.Live? {
      var u := t.(config := config);
      ReconcileOwnedSpares(u, config, env, id);
      SparesIsTransitive(s, u, HandleReconcile(s, config, start, env), id);
    }
  }

  lemma MidnightSpares(s: Sched, generation: nat, env: ReconcileEnv, later: bool, midnight: Instant, id: Id)
    ensures Spares(s, HandleMidnight(s, generation, env, later, midnight), id)
  {
    if s.phase.Live? && Owns(s, MidnightTimer, generation) {
      var t := Consume(s, MidnightTimer);
      var r := ReconcileOwned(t, s.config, env);
      ReconcileOwnedSpares(t, s.config, env, id);
      assert Spares(r.s, ArmReconcileRetry(if later then ArmMidnight(r.s, midnight) else r.s, env.retryNow), id);
    }
  }

  lemma RetrySpares(s: Sched, generation: nat, env: ReconcileEnv, id: Id)
    ensures Spares(s, HandleRetry(s, generation, env), id)
  {
    AfterCallbackSpares(Consume(s, RetryTimer), env, id);
  }

  lemma StartSpares(s: Sched, write: Write, id: Id)
    ensures Spares(s, Start(s, write), id)
  {
  }

  lemma StepSpares(s: Sched, e: Event, id: Id)
    requires Safe(s) && Settled(s, id)
    ensures Spares(s, Step(s, e), id)
  {
    match e
    case OccurrenceFired(fired, generation, env) => OccurrenceSpares(s, fired, generation, env, id);
    case CompensationFired(fired, generation, env) => CompensationFiredSpares(s, fired, generation, env, id);
    case ReconcileRequested(config, start, env) => ReconcileRequestSpares(s, config, start, env, id);
    case MidnightFired(generation, env, later, midnight) => MidnightSpares(s, generation, env, later, midnight, id);
    case RetryFired(generation, env) => RetrySpares(s, generation, env, id);
    case Started(write) => StartSpares(s, write, id);
    case _ =>
  }

  /** An occurrence that is over, with no verdict left to write, never changes again and is never executed
      again, over every continuation: lost and ambiguous writes, crashes and restarts included. */
  lemma {:induction false} OverForever(s: Sched, events: seq<Event>, id: Id)
    requires Safe(s) && Settled(s, id)
    ensures var t := Run(s, events);
            && Safe(t) && Settled(t, id) && t.durable.occurrences[id] == s.durable.occurrences[id]
            && Preheats(t.calls, id) == Preheats(s.calls, id)
            && Compensations(t.calls, id) == Compensations(s.calls, id)
  {
    if events != [] {
      var before := Run(s, events[..|events| - 1]);
      OverForever(s, events[..|events| - 1], id);
      StepSpares(before, events[|events| - 1], id);
      StepKeepsSafe(before, events[|events| - 1]);
    }
  }

  // ----- no catch-up after a restart -----

  /** No callback of this process can reach the executor. */
  predicate Inert(s: Sched) {
    && s.pending == map[]
    && (s.phase.Live? ==> s.startFailed && s.timers == map[])
    && (s.phase.Idle? ==> s.timers == map[] && !s.startFailed)
  }

  /** An inert process stays inert until a recovery succeeds, and a successful recovery leaves nothing that it
      found planned, running or owing. */
  lemma InertStep(s: Sched, e: Event, id: Id)
    requires Safe(s) && Inert(s) && id in s.durable.occurrences
    ensures var t := Step(s, e);
            && t.calls == s.calls && id in t.durable.occurrences
            && (Inert(t) || Settled(t, id))
  {
    assert EntryOk(s.durable, s.calls, id);
    match e
    case ReconcileRequested(config, start, env) =>
      var t := Start(s, start);
      if s.phase.Idle? && start.Ok? {
        assert Settled(t, id);
        ReconcileOwnedSpares(t.(config := config), config, env, id);
        ReconcileOwnedWrites(t.(config := config), config, env);
      }
    case _ =>
  }

  lemma {:induction false} KnownBeforeARestart(s: Sched, events: seq<Event>, id: Id)
    requires Safe(s) && Inert(s) && id in s.durable.occurrences
    ensures var t := Run(s, events);
            && Safe(t) && id in t.durable.occurrences && (Inert(t) || Settled(t, id))
            && Preheats(t.calls, id) == Preheats(s.calls, id)
            && Compensations(t.calls, id) == Compensations(s.calls, id)
  {
    if events != [] {
      var before := Run(s, events[..|events| - 1]);
      KnownBeforeARestart(s, events[..|events| - 1], id);
      StepKeepsSafe(before, events[|events| - 1]);
      if Inert(before) {
        InertStep(before, events[|events| - 1], id);
      } else {
        StepSpares(before, events[|events| - 1], id);
      }
    }
  }

  /** No catch-up: whatever a process knew when it died is never executed by any later process, whether it was
      planned, running or owed a compensation, and whether or not later recoveries succeed. */
  lemma NoCatchUp(events: seq<Event>, later: seq<Event>, id: Id)
    requires id in Run(INITIAL, events).durable.occurrences
    ensures var s := Run(INITIAL, events);
            var t := Run(Crash(s), later);
            Preheats(t.calls, id) == Preheats(s.calls, id) && Compensations(t.calls, id) == Compensations(s.calls, id)
  {
    RunIsSafe(events);
    CrashKeepsSafe(Run(INITIAL, events));
    KnownBeforeARestart(Crash(Run(INITIAL, events)), later, id);
  }
}
