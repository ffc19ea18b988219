/** What only ever grows: a planned occurrence that has left that state never returns to it, and timer generations
    never decrease, so a superseded callback stays superseded. */
module SchedulerMonotone {
  import opened Domain
  import opened RuntimeState
  import opened SchedulerState
  import opened SchedulerSafety
  import opened Reconciling
  import C = Config

  ghost predicate HasLeft(d: RuntimeState, id: Id) {
    id in d.occurrences && Spent(d.occurrences[id])
  }

  ghost predicate Advances(s: Sched, t: Sched, id: Id, k: TimerId) {
    (HasLeft(s.durable, id) ==> HasLeft(t.durable, id)) && Generation(s, k) <= Generation(t, k)
  }

  lemma ReconcileOwnedAdvances(s: Sched, config: C.Config, env: ReconcileEnv, id: Id, k: TimerId)
    ensures Advances(s, ReconcileOwned(s, config, env).s, id, k)
  {
    ReconcileOwnedKeeps(s, config, env);
    assert Quiet(s.durable, ReconcileOwned(s, config, env).s.durable, id);
    ReconcileOwnedTimers(s, config, env, k);
  }

  lemma ReconcileOwnedTimers(s: Sched, config: C.Config, env: ReconcileEnv, k: TimerId)
    ensures Generation(s, k) <= Generation(ReconcileOwned(s, config, env).s, k)
  {
    if config.enabled && ReconcileOwned(s, config, env).ok {
      var d := Reconcile(s.durable, Horizon(env.days).value, env.now);
      EnabledSuccess(s, config, env, d);
      RearmedTimersAreWanted(s.(durable := d), env.now, k);
    } else if config.enabled {
      EnabledFailureChangesNoGeneration(s, config, env);
    } else {
      DisabledNeverDecreases(s, config, env, k);
    }
  }

  lemma DisabledNeverDecreases(s: Sched, config: C.Config, env: ReconcileEnv, k: TimerId)
    requires !config.enabled
    ensures Generation(s, k) <= Generation(ReconcileOwned(s, config, env).s, k)
  {
  }

  lemma EnabledFailureChangesNoGeneration(s: Sched, config: C.Config, env: ReconcileEnv)
    requires config.enabled && !ReconcileOwned(s, config, env).ok
    ensures ReconcileOwned(s, config, env).s.generations == s.generations
  {
  }

  lemma AfterCallbackAdvances(s: Sched, env: ReconcileEnv, id: Id, k: TimerId)
    ensures Advances(s, AfterCallback(s, env), id, k)
  {
    ReconcileOwnedAdvances(s, s.config, env, id, k);
  }

  lemma SettleAdvances(s: Sched, id: Id, p: Pending, write: Write, retryNow: Instant, other: Id, k: TimerId)
    requires IsVerdict(p.status)
    ensures Advances(s, Settle(s, id, p, write, retryNow), other, k)
  {
  }

  lemma SettleAndReconcileAdvances(
    s: Sched, id: Id, p: Pending, write: Write, retryNow: Instant, env: ReconcileEnv, other: Id, k: TimerId)
    requires IsVerdict(p.status)
    ensures Advances(s, AfterCallback(Settle(s, id, p, write, retryNow), env), other, k)
  {
    SettleAdvances(s, id, p, write, retryNow, other, k);
    AfterCallbackAdvances(Settle(s, id, p, write, retryNow), env, other, k);
  }

  lemma ResettleAdvances(s: Sched, id: Id, write: Write, now: Instant, env: ReconcileEnv, other: Id, k: TimerId)
    requires id in s.pending && IsVerdict(s.pending[id].status)
    ensures Advances(s, Resettle(s, id, write, now, env), other, k)
  {
    SettleAdvances(s, id, s.pending[id], write, now, other, k);
    SettleAndReconcileAdvances(s, id, s.pending[id], write, now, env, other, k);
  }

  lemma PreheatAdvances(s: Sched, id: Id, result: ExecResult, other: Id, k: TimerId)
    requires id in s.durable.occurrences && s.durable.occurrences[id].status.Running?
    requires s.durable.occurrences[id].plan.id == id
    ensures Advances(s, ExecutePreheat(s, id, s.durable.occurrences[id].plan, result), other, k)
  {
    ExecutorWrites(s.durable, id, DueAfter(result), other);
  }

  lemma RunPreheatAdvances(s: Sched, id: Id, env: OccurrenceEnv, other: Id, k: TimerId)
    requires id in s.durable.occurrences && s.durable.occurrences[id].status.Running?
    requires s.durable.occurrences[id].plan.id == id
    ensures Advances(s, RunPreheat(s, id, env), other, k)
  {
    var gated := PassGate(s, env.gate);
    if !env.gate.ClosedBefore? {
      var done := ExecutePreheat(gated, id, s.durable.occurrences[id].plan, env.result);
      PreheatAdvances(gated, id, env.result, other, k);
      SettleAndReconcileAdvances(done, id, Pending(OccurrenceKind, CallStatus(env.result)), env.terminal, env.now,
                                 env.reconcile, other, k);
    }
  }

  lemma ClaimAndRunAdvances(s: Sched, id: Id, env: OccurrenceEnv, other: Id, k: TimerId)
    requires Safe(s)
    ensures Advances(s, ClaimAndRun(s, id, env), other, k)
  {
    if Guard(s, id, env.now) {
      assert EntryOk(s.durable, s.calls, id);
      var stored := Store(s, Claim(s.durable, id), env.claim);
      assert Advances(s, stored, other, k);
      if env.claim.Ok? { RunPreheatAdvances(stored, id, env, other, k); }
    }
  }

  lemma OccurrenceAdvances(s: Sched, id: Id, generation: nat, env: OccurrenceEnv, other: Id, k: TimerId)
    requires Safe(s)
    ensures Advances(s, HandleOccurrence(s, id, generation, env), other, k)
  {
    var t := Consume(s, OccurrenceTimer(id));
    VolatileKeepsSafe(s, t);
    assert PendingOk(s, id);
    if id in t.pending && t.pending[id].kind.OccurrenceKind? {
      ResettleAdvances(t, id, env.terminal, env.now, env.reconcile, other, k);
    } else {
      ClaimAndRunAdvances(t, id, env, other, k);
    }
  }

  lemma RunCompensationAdvances(s: Sched, id: Id, env: CompensationEnv, other: Id, k: TimerId)
    ensures Advances(s, RunCompensation(s, id, env), other, k)
  {
    var gated := PassGate(s, env.gate);
    if !env.gate.ClosedBefore? {
      SettleAndReconcileAdvances(ExecuteCompensation(gated, id, env.result), id,
                                 Pending(CompensationKind, CallStatus(env.result)), env.terminal,
                                 env.terminalRetryNow, env.reconcile, other, k);
    }
  }

  lemma ClaimAndCompensateAdvances(s: Sched, id: Id, env: CompensationEnv, other: Id, k: TimerId)
    ensures Advances(s, ClaimAndCompensate(s, id, env), other, k)
  {
    if env.loads && CompensationGuard(s, id) {
      var stored := Store(s, ClaimCompensation(s.durable, id, env.eligible && !Held(s.durable, id)), env.claim);
      assert Advances(s, stored, other, k);
      if env.claim.Ok? && env.eligible && !Held(s.durable, id) {
        RunCompensationAdvances(stored, id, env, other, k);
      } else if env.claim.Ok? {
        AfterCallbackAdvances(stored, env.reconcile, other, k);
      }
    }
  }

  lemma CompensationAdvances(s: Sched, id: Id, generation: nat, env: CompensationEnv, other: Id, k: TimerId)
    requires Safe(s)
    ensures Advances(s, HandleCompensation(s, id, generation, env), other, k)
  {
    var t := Consume(s, CompensationTimer(id));
    assert PendingOk(s, id);
    if id in t.pending && t.pending[id].kind.CompensationKind? {
      ResettleAdvances(t, id, env.terminal, env.now, env.reconcile, other, k);
    } else {
      ClaimAndCompensateAdvances(t, id, env, other, k);
    }
  }

  lemma ReconcileRequestAdvances(s: Sched, config: C.Config, start: Write, env: ReconcileEnv, id: Id, k: TimerId)
    ensures Advances(s, HandleReconcile(s, config, start, env), id, k)
  {
    var t := Start(s, start).(config := config);
    RecoverIsQuiet(s.durable, id);
    assert Advances(s, t, id, k);
    ReconcileOwnedAdvances(t, config, env, id, k);
  }

  lemma MidnightAdvances(s: Sched, generation: nat, env: ReconcileEnv, later: bool, midnight: Instant, id: Id, k: TimerId)
    ensures Advances(s, HandleMidnight(s, generation, env, later, midnight), id, k)
  {
    var t := Consume(s, MidnightTimer);
    ReconcileOwnedAdvances(t, s.config, env, id, k);
  }

  lemma RetryAdvances(s: Sched, generation: nat, env: ReconcileEnv, id: Id, k: TimerId)
    ensures Advances(s, HandleRetry(s, generation, env), id, k)
  {
    AfterCallbackAdvances(Consume(s, RetryTimer), env, id, k);
  }

  lemma StartAdvances(s: Sched, write: Write, id: Id, k: TimerId)
    ensures Advances(s, Start(s, write), id, k)
  {
    assert HasLeft(s.durable, id) ==> HasLeft(Recover(s.durable), id);
  }

  lemma StopAdvances(s: Sched, id: Id, k: TimerId)
    ensures Advances(s, Stop(s), id, k)
  {
  }

  lemma StepAdvances(s: Sched, e: Event, id: Id, k: TimerId)
    requires Safe(s)
    ensures HasLeft(s.durable, id) ==> HasLeft(Step(s, e).durable, id)
    ensures !e.Crashed? ==> Generation(s, k) <= Generation(Step(s, e), k)
  {
    match e
    case OccurrenceFired(fired, generation, env) => OccurrenceAdvances(s, fired, generation, env, id, k);
    case CompensationFired(fired, generation, env) => CompensationAdvances(s, fired, generation, env, id, k);
    case ReconcileRequested(config, start, env) => ReconcileRequestAdvances(s, config, start, env, id, k);
    case MidnightFired(generation, env, later, midnight) => MidnightAdvances(s, generation, env, later, midnight, id, k);
    case RetryFired(generation, env) => RetryAdvances(s, generation, env, id, k);
    case Started(write) => StartAdvances(s, write, id, k);
    case StopRequested => StopAdvances(s, id, k);
    case Crashed =>
    case HoldsChanged(_) =>
  }

  /** Planned is never re-entered: over every continuation, crashes and ambiguous writes included. */
  lemma {:induction false} PlannedIsNeverReentered(s: Sched, events: seq<Event>, id: Id)
    requires Safe(s) && id in s.durable.occurrences && !s.durable.occurrences[id].status.Planned?
    ensures var t := Run(s, events);
            && Safe(t) && id in t.durable.occurrences && !t.durable.occurrences[id].status.Planned?
  {
    assert EntryOk(s.durable, s.calls, id);
    if events != [] {
      var before := Run(s, events[..|events| - 1]);
      PlannedIsNeverReentered(s, events[..|events| - 1], id);
      assert EntryOk(before.durable, before.calls, id);
      StepAdvances(before, events[|events| - 1], id, MidnightTimer);
      StepKeepsSafe(before, events[|events| - 1]);
    }
  }

  /** A callback whose timer has been stopped or replaced never owns it again in the life of its process. */
  lemma {:induction false} SupersededStaysSuperseded(
    s: Sched, events: seq<Event>, k: TimerId, generation: CallbackGeneration)
    requires Safe(s) && Generation(s, k) > generation
    requires forall e :: e in events ==> !e.Crashed?
    ensures Safe(Run(s, events)) && Generation(Run(s, events), k) > generation && !Owns(Run(s, events), k, generation)
  {
    if events != [] {
      SupersededStaysSuperseded(s, events[..|events| - 1], k, generation);
      StepAdvances(Run(s, events[..|events| - 1]), events[|events| - 1], "", k);
      StepKeepsSafe(Run(s, events[..|events| - 1]), events[|events| - 1]);
    }
  }

  // ----- exactly when the executor is called -----

  /** A callback calls the executor for a preheat exactly when it owns its timer, no verdict waits to be written,
      the occurrence is due, selected and owned, the claim is written and the gate is not yet closed. */
  lemma PreheatsExactlyWhen(s: Sched, id: Id, generation: nat, env: OccurrenceEnv)
    ensures HandleOccurrence(s, id, generation, env).calls
            == if && s.phase.Live? && Owns(s, OccurrenceTimer(id), generation)
                  && !(id in s.pending && s.pending[id].kind.OccurrenceKind?)
                  && Guard(s, id, env.now) && env.claim.Ok? && !env.gate.ClosedBefore?
               then s.calls + [Preheat(id, CallStatus(env.result))] else s.calls
  {
    var t := Consume(s, OccurrenceTimer(id));
    if s.phase.Live? && Owns(s, OccurrenceTimer(id), generation) {
      if id in s.pending && s.pending[id].kind.OccurrenceKind? {
        ResettleCallsNothing(t, id, env.terminal, env.now, env.reconcile);
      } else {
        PreheatIsCalled(t, id, env);
      }
    }
  }

  lemma ResettleCallsNothing(s: Sched, id: Id, write: Write, now: Instant, env: ReconcileEnv)
    requires id in s.pending
    ensures Resettle(s, id, write, now, env).calls == s.calls
  {
    AfterCallbackKeeps(Settle(s, id, s.pending[id], write, now), env);
  }

  lemma PreheatRuns(s: Sched, id: Id, env: OccurrenceEnv)
    requires id in s.durable.occurrences
    ensures RunPreheat(s, id, env).calls
            == if env.gate.ClosedBefore? then s.calls else s.calls + [Preheat(id, CallStatus(env.result))]
  {
    var done := ExecutePreheat(PassGate(s, env.gate), id, s.durable.occurrences[id].plan, env.result);
    AfterCallbackKeeps(Settle(done, id, Pending(OccurrenceKind, CallStatus(env.result)), env.terminal, env.now),
                       env.reconcile);
  }

  lemma PreheatIsCalled(s: Sched, id: Id, env: OccurrenceEnv)
    ensures ClaimAndRun(s, id, env).calls
            == if Guard(s, id, env.now) && env.claim.Ok? && !env.gate.ClosedBefore?
               then s.calls + [Preheat(id, CallStatus(env.result))] else s.calls
  {
    if Guard(s, id, env.now) && env.claim.Ok? { PreheatRuns(Store(s, Claim(s.durable, id), env.claim), id, env); }
  }

  /** A preheat is never early, never for an account that is not selected, and never without ownership. */
  lemma PreheatsAreDueAndSelected(s: Sched, id: Id, generation: nat, env: OccurrenceEnv)
    requires HandleOccurrence(s, id, generation, env).calls != s.calls
    ensures id in s.durable.occurrences && id in s.durable.nextRuns
    ensures s.durable.occurrences[id].status == Planned
    ensures ZERO_TIME != s.durable.nextRuns[id] == s.durable.occurrences[id].plan.plannedAt <= env.now
    ensures s.config.enabled
            && exists i :: 0 <= i < |s.config.scheduledAccountKeys|
                           && TrimSpace(s.config.scheduledAccountKeys[i])
                              == TrimSpace(s.durable.occurrences[id].plan.accountKey)
  {
    PreheatsExactlyWhen(s, id, generation, env);
  }

  /** A compensation is called exactly when, besides owning its timer, the occurrence still owes it durably at
      its next run, is selected and eligible, its account is not held, and the attempt has been written as spent. */
  lemma CompensatesExactlyWhen(s: Sched, id: Id, generation: nat, env: CompensationEnv)
    ensures HandleCompensation(s, id, generation, env).calls
            == if && s.phase.Live? && Owns(s, CompensationTimer(id), generation)
                  && !(id in s.pending && s.pending[id].kind.CompensationKind?)
                  && env.loads && CompensationGuard(s, id) && env.eligible && !Held(s.durable, id)
                  && env.claim.Ok? && !env.gate.ClosedBefore?
               then s.calls + [Compensation(id, CallStatus(env.result))] else s.calls
  {
    var t := Consume(s, CompensationTimer(id));
    if s.phase.Live? && Owns(s, CompensationTimer(id), generation) {
      if id in s.pending && s.pending[id].kind.CompensationKind? {
        ResettleCallsNothing(t, id, env.terminal, env.now, env.reconcile);
      } else {
        CompensationIsCalled(t, id, env);
      }
    }
  }

  lemma CompensationRuns(s: Sched, id: Id, env: CompensationEnv)
    ensures RunCompensation(s, id, env).calls
            == if env.gate.ClosedBefore? then s.calls else s.calls + [Compensation(id, CallStatus(env.result))]
  {
    var done := ExecuteCompensation(PassGate(s, env.gate), id, env.result);
    AfterCallbackKeeps(Settle(done, id, Pending(CompensationKind, CallStatus(env.result)), env.terminal,
                              env.terminalRetryNow), env.reconcile);
  }

  lemma CompensationIsCalled(s: Sched, id: Id, env: CompensationEnv)
    ensures ClaimAndCompensate(s, id, env).calls
            == if && env.loads && CompensationGuard(s, id) && env.eligible && !Held(s.durable, id)
                  && env.claim.Ok? && !env.gate.ClosedBefore?
               then s.calls + [Compensation(id, CallStatus(env.result))] else s.calls
  {
    if env.loads && CompensationGuard(s, id) {
      var stored := Store(s, ClaimCompensation(s.durable, id, env.eligible && !Held(s.durable, id)), env.claim);
      if env.eligible && !Held(s.durable, id) {
        CompensationRuns(stored, id, env);
      } else {
        AfterCallbackKeeps(stored, env.reconcile);
      }
    }
  }
}
