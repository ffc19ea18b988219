/** At most one preheat and at most one compensation per occurrence, over every run: with stale callbacks, lost
    and ambiguous writes, stops, crashes and restarts. */
module SchedulerSafety {
  import opened Domain
  import opened RuntimeState
  import opened SchedulerState
  import C = Config

  // ----- counting calls -----

  function Preheats(calls: seq<Call>, id: Id): nat {
    if calls == [] then 0
    else Preheats(calls[..|calls| - 1], id) + (if calls[|calls| - 1].Preheat? && calls[|calls| - 1].id == id then 1 else 0)
  }

  function Compensations(calls: seq<Call>, id: Id): nat {
    if calls == [] then 0
    else
      Compensations(calls[..|calls| - 1], id)
      + (if calls[|calls| - 1].Compensation? && calls[|calls| - 1].id == id then 1 else 0)
  }

  /** Every compensation comes after a preheat of the same occurrence that ended failed. */
  ghost predicate CompensationsFollowFailures(calls: seq<Call>) {
    forall j :: 0 <= j < |calls| && calls[j].Compensation? ==> Preheat(calls[j].id, Failed) in calls[..j]
  }

  lemma CallAppended(calls: seq<Call>, call: Call, id: Id)
    ensures Preheats(calls + [call], id) == Preheats(calls, id) + (if call.Preheat? && call.id == id then 1 else 0)
    ensures Compensations(calls + [call], id)
            == Compensations(calls, id) + (if call.Compensation? && call.id == id then 1 else 0)
  {
    assert (calls + [call])[..|calls|] == calls;
  }

  lemma CompensationAppended(calls: seq<Call>, call: Call)
    requires CompensationsFollowFailures(calls)
    requires call.Compensation? ==> Preheat(call.id, Failed) in calls
    ensures CompensationsFollowFailures(calls + [call])
  {
    forall j | 0 <= j < |calls + [call]| && (calls + [call])[j].Compensation?
      ensures Preheat((calls + [call])[j].id, Failed) in (calls + [call])[..j]
    {
      assert (calls + [call])[..j] == calls[..j];
      if j == |calls| { assert calls[..j] == calls; }
    }
  }

  // ----- the invariant, one occurrence at a time -----

  predicate Spent(o: OccurrenceState) { !o.status.Planned? && !o.status.Blank? }

  predicate IsVerdict(status: Status) { status.Succeeded? || status.Skipped? || status.Failed? }

  /** A succeeded, skipped or missed occurrence. */
  predicate IsFinished(status: Status) { status.Succeeded? || status.Skipped? || status.Missed? }

  /** A due time and a spent attempt exclude one another, a planned occurrence has neither, and a finished one has no
      due time. */
  predicate DebtIsFresh(o: OccurrenceState) {
    && (o.due != ZERO_TIME ==> !o.attempted && !IsFinished(o.status))
    && (o.status.Planned? ==> !o.attempted && o.due == ZERO_TIME)
  }

  ghost predicate EntryOk(d: RuntimeState, calls: seq<Call>, id: Id) {
    && Preheats(calls, id) <= 1
    && Compensations(calls, id) <= 1
    && (Preheats(calls, id) == 1 ==> id in d.occurrences && Spent(d.occurrences[id]))
    && (Compensations(calls, id) == 1 ==>
          id in d.occurrences && d.occurrences[id].due == ZERO_TIME && Preheats(calls, id) == 1)
    && (id in d.occurrences ==>
          var o := d.occurrences[id];
          && o.plan.id == id && !o.status.Blank? && DebtIsFresh(o)
          && (o.due != ZERO_TIME ==> Preheats(calls, id) == 1)
          && (OwesCompensation(o) ==> Preheat(id, Failed) in calls))
  }

  ghost predicate PendingOk(s: Sched, id: Id) {
    id in s.pending ==>
      && IsVerdict(s.pending[id].status)
      && (s.pending[id].kind.OccurrenceKind? ==> Preheat(id, s.pending[id].status) in s.calls)
      && (s.pending[id].kind.CompensationKind? ==> Compensations(s.calls, id) == 1)
  }

  ghost predicate Safe(s: Sched) {
    && CompensationsFollowFailures(s.calls)
    && (forall id: Id :: EntryOk(s.durable, s.calls, id))
    && (forall id: Id :: PendingOk(s, id))
  }

  // ----- quiet changes: no call, no new debt, nothing executed becomes executable -----

  ghost predicate Quiet(d: RuntimeState, e: RuntimeState, id: Id) {
    && (id in d.occurrences ==>
          && id in e.occurrences
          && (d.occurrences[id].plan.id == id ==> e.occurrences[id].plan.id == id)
          && (Spent(d.occurrences[id]) ==> Spent(e.occurrences[id]))
          && (!d.occurrences[id].status.Blank? ==> !e.occurrences[id].status.Blank?)
          && (!d.occurrences[id].status.Blank? && DebtIsFresh(d.occurrences[id]) ==> DebtIsFresh(e.occurrences[id]))
          && (e.occurrences[id].due == ZERO_TIME || e.occurrences[id].due == d.occurrences[id].due)
          && (OwesCompensation(e.occurrences[id]) ==> OwesCompensation(d.occurrences[id])))
    && (id !in d.occurrences && id in e.occurrences ==>
          && e.occurrences[id].plan.id == id && !e.occurrences[id].status.Blank? && e.occurrences[id].due == ZERO_TIME
          && DebtIsFresh(e.occurrences[id]))
  }

  ghost predicate Keeps(s: Sched, t: Sched) {
    && t.calls == s.calls
    && (forall id: Id :: id in t.pending ==> id in s.pending && t.pending[id] == s.pending[id])
    && (forall id: Id :: Quiet(s.durable, t.durable, id))
  }

  lemma QuietKeepsSafe(s: Sched, t: Sched)
    requires Safe(s) && Keeps(s, t)
    ensures Safe(t)
  {
    forall id: Id ensures EntryOk(t.durable, t.calls, id) {
      assert EntryOk(s.durable, s.calls, id) && Quiet(s.durable, t.durable, id);
    }
    forall id: Id ensures PendingOk(t, id) { assert PendingOk(s, id); }
  }

  lemma QuietIsTransitive(d: RuntimeState, e: RuntimeState, f: RuntimeState, id: Id)
    requires Quiet(d, e, id) && Quiet(e, f, id)
    ensures Quiet(d, f, id)
  {
  }

  lemma ApplyPlanIsQuiet(d: RuntimeState, plan: PlannedOccurrence, now: Instant, id: Id)
    ensures Quiet(d, ApplyPlan(d, plan, now), id)
  {
  }

  lemma {:induction false} ApplyPlansIsQuiet(d: RuntimeState, plans: seq<PlannedOccurrence>, now: Instant, id: Id)
    ensures Quiet(d, ApplyPlans(d, plans, now), id)
  {
    if plans != [] {
      var before := ApplyPlans(d, plans[..|plans| - 1], now);
      ApplyPlansIsQuiet(d, plans[..|plans| - 1], now, id);
      ApplyPlanIsQuiet(before, plans[|plans| - 1], now, id);
      QuietIsTransitive(d, before, ApplyPlan(before, plans[|plans| - 1], now), id);
    }
  }

  lemma ReconcileIsQuiet(d: RuntimeState, plans: seq<PlannedOccurrence>, now: Instant, id: Id)
    ensures Quiet(d, Reconcile(d, plans, now), id)
  {
    var applied := ApplyPlans(d, plans, now);
    ApplyPlansIsQuiet(d, plans, now, id);
    assert Quiet(applied, Prune(DropUnselected(applied, Desired(plans))), id);
    QuietIsTransitive(d, applied, Prune(DropUnselected(applied, Desired(plans))), id);
  }

  lemma DisableIsQuiet(d: RuntimeState, id: Id)
    ensures Quiet(d, Disable(d), id)
  {
  }

  lemma ReconcileOwnedWrites(s: Sched, config: C.Config, env: ReconcileEnv)
    ensures var r := ReconcileOwned(s, config, env).s;
            && r.calls == s.calls && r.pending == s.pending && r.config == s.config && r.phase == s.phase
            && r.startFailed == s.startFailed
            && (|| r.durable == s.durable
                || (!config.enabled && r.durable == Disable(s.durable))
                || (config.enabled && Horizon(env.days).Some?
                    && r.durable == Reconcile(s.durable, Horizon(env.days).value, env.now)))
  {
    if config.enabled && Horizon(env.days).Some? {
      EnabledWrites(s, config, env, Reconcile(s.durable, Horizon(env.days).value, env.now));
    }
  }

  lemma EnabledWrites(s: Sched, config: C.Config, env: ReconcileEnv, d: RuntimeState)
    requires config.enabled && Horizon(env.days).Some? && d == Reconcile(s.durable, Horizon(env.days).value, env.now)
    ensures var r := ReconcileOwned(s, config, env).s;
            && r == s.(durable := r.durable, timers := r.timers, generations := r.generations)
            && (r.durable == s.durable || r.durable == d)
  {
  }

  lemma ReconcileOwnedKeeps(s: Sched, config: C.Config, env: ReconcileEnv)
    ensures Keeps(s, ReconcileOwned(s, config, env).s)
    ensures ReconcileOwned(s, config, env).s.config == s.config
  {
    ReconcileOwnedWrites(s, config, env);
    var r := ReconcileOwned(s, config, env).s;
    forall id: Id ensures Quiet(s.durable, r.durable, id) {
      if r.durable == s.durable {
      } else if r.durable == Disable(s.durable) {
        DisableIsQuiet(s.durable, id);
      } else {
        ReconcileIsQuiet(s.durable, Horizon(env.days).value, env.now, id);
      }
    }
  }

  lemma AfterCallbackKeeps(s: Sched, env: ReconcileEnv)
    ensures Keeps(s, AfterCallback(s, env))
  {
    ReconcileOwnedKeeps(s, s.config, env);
  }

  lemma AfterCallbackKeepsSafe(s: Sched, env: ReconcileEnv)
    requires Safe(s)
    ensures Safe(AfterCallback(s, env))
  {
    AfterCallbackKeeps(s, env);
    QuietKeepsSafe(s, AfterCallback(s, env));
  }

  /** Volatile changes that touch neither the calls nor a saved status. */
  lemma VolatileKeepsSafe(s: Sched, t: Sched)
    requires Safe(s) && t.durable == s.durable && t.calls == s.calls && t.pending == s.pending
    ensures Safe(t)
  {
    QuietKeepsSafe(s, t);
  }

  // ----- the executor's call and its verdict -----

  /** Only the entry whose due time the executor wrote changes, and it owes nothing while it runs. */
  lemma ExecutorWrites(d: RuntimeState, id: Id, due: Instant, other: Id)
    requires id in d.occurrences && d.occurrences[id].status.Running? && d.occurrences[id].plan.id == id
    ensures var e := UpdateCompensation(d, d.occurrences[id].plan, due);
            && e.occurrences.Keys == d.occurrences.Keys
            && (other in d.occurrences && other != id ==> e.occurrences[other] == d.occurrences[other])
            && (e.occurrences[id] == d.occurrences[id].(due := due) || e.occurrences[id] == d.occurrences[id])
  {
  }

  /** The call and the due time reach the trace and the store together. */
  lemma EntryAfterPreheat(d: RuntimeState, calls: seq<Call>, id: Id, status: Status, due: Instant, write: Write, other: Id)
    requires EntryOk(d, calls, id) && EntryOk(d, calls, other)
    requires id in d.occurrences && d.occurrences[id].status.Running? && !d.occurrences[id].attempted
    requires Preheats(calls, id) == 0
    ensures EntryOk(Written(d, UpdateCompensation(d, d.occurrences[id].plan, due), write),
                    calls + [Preheat(id, status)], other)
    ensures EntryOk(d, calls + [Preheat(id, status)], other)
  {
    CallAppended(calls, Preheat(id, status), other);
    ExecutorWrites(d, id, due, other);
  }

  lemma PendingAfterCall(s: Sched, call: Call, id: Id)
    requires PendingOk(s, id)
    requires call.Compensation? && call.id == id ==> Compensations(s.calls, id) == 0
    requires call.Compensation? && call.id == id && id in s.pending ==> s.pending[id].kind.OccurrenceKind?
    ensures PendingOk(s.(calls := s.calls + [call]), id)
  {
    CallAppended(s.calls, call, id);
  }

  lemma PreheatKeepsSafe(s: Sched, id: Id, result: ExecResult)
    requires Safe(s) && id in s.durable.occurrences && s.durable.occurrences[id].status.Running?
    requires !s.durable.occurrences[id].attempted && Preheats(s.calls, id) == 0
    ensures var t := ExecutePreheat(s, id, s.durable.occurrences[id].plan, result);
            Safe(t) && Preheat(id, CallStatus(result)) in t.calls
  {
    var call := Preheat(id, CallStatus(result));
    var t := ExecutePreheat(s, id, s.durable.occurrences[id].plan, result);
    assert t.calls[|s.calls|] == call;
    CompensationAppended(s.calls, call);
    var write := if result.Attempted? then result.dueWrite else Lost;
    forall other: Id ensures EntryOk(t.durable, t.calls, other) {
      assert EntryOk(s.durable, s.calls, id) && EntryOk(s.durable, s.calls, other);
      EntryAfterPreheat(s.durable, s.calls, id, CallStatus(result), DueAfter(result), write, other);
    }
    forall other: Id ensures PendingOk(t, other) {
      assert PendingOk(s, other);
      PendingAfterCall(s, call, other);
    }
  }

  lemma CompensationKeepsSafe(s: Sched, id: Id, result: ExecResult)
    requires Safe(s) && id in s.durable.occurrences && s.durable.occurrences[id].status.Running?
    requires s.durable.occurrences[id].due == ZERO_TIME
    requires Preheat(id, Failed) in s.calls && Preheats(s.calls, id) == 1 && Compensations(s.calls, id) == 0
    ensures var t := ExecuteCompensation(s, id, result);
            Safe(t) && Compensations(t.calls, id) == 1
  {
    var call := Compensation(id, CallStatus(result));
    var t := ExecuteCompensation(s, id, result);
    CompensationAppended(s.calls, call);
    CallAppended(s.calls, call, id);
    forall other: Id ensures EntryOk(t.durable, t.calls, other) {
      CallAppended(s.calls, call, other);
      assert EntryOk(s.durable, s.calls, other);
    }
    forall other: Id ensures PendingOk(t, other) {
      CallAppended(s.calls, call, other);
      assert PendingOk(s, other);
      assert EntryOk(s.durable, s.calls, other);
    }
  }

  lemma PreheatMeansCounted(calls: seq<Call>, id: Id, status: Status)
    requires Preheat(id, status) in calls
    ensures Preheats(calls, id) >= 1
  {
    if calls[|calls| - 1] != Preheat(id, status) {
      PreheatMeansCounted(calls[..|calls| - 1], id, status);
    }
  }

  lemma EntryAfterVerdict(d: RuntimeState, calls: seq<Call>, id: Id, p: Pending, write: Write, other: Id)
    requires EntryOk(d, calls, other) && IsVerdict(p.status)
    requires p.kind.OccurrenceKind? ==> Preheat(id, p.status) in calls
    requires p.kind.CompensationKind? ==> Compensations(calls, id) == 1
    ensures EntryOk(Written(d, PersistTerminal(d, id, p), write), calls, other)
  {
    if p.kind.OccurrenceKind? { PreheatMeansCounted(calls, id, p.status); }
  }

  lemma SettleKeepsSafe(s: Sched, id: Id, p: Pending, write: Write, retryNow: Instant)
    requires Safe(s) && IsVerdict(p.status)
    requires p.kind.OccurrenceKind? ==> Preheat(id, p.status) in s.calls
    requires p.kind.CompensationKind? ==> Compensations(s.calls, id) == 1
    ensures Safe(Settle(s, id, p, write, retryNow))
  {
    var t := Settle(s, id, p, write, retryNow);
    assert t.calls == s.calls && t.durable == Written(s.durable, PersistTerminal(s.durable, id, p), write);
    forall other: Id ensures EntryOk(t.durable, t.calls, other) {
      assert EntryOk(s.durable, s.calls, other);
      EntryAfterVerdict(s.durable, s.calls, id, p, write, other);
    }
    forall other: Id ensures PendingOk(t, other) { assert PendingOk(s, other); }
  }

  // ----- commands -----

  lemma ResettleKeepsSafe(s: Sched, id: Id, write: Write, now: Instant, env: ReconcileEnv)
    requires Safe(s) && id in s.pending
    ensures Safe(Resettle(s, id, write, now, env))
  {
    assert PendingOk(s, id);
    SettleKeepsSafe(s, id, s.pending[id], write, now);
    if write.Ok? { AfterCallbackKeepsSafe(Settle(s, id, s.pending[id], write, now), env); }
  }

  lemma RunPreheatKeepsSafe(s: Sched, id: Id, env: OccurrenceEnv)
    requires Safe(s) && id in s.durable.occurrences && s.durable.occurrences[id].status.Running?
    requires !s.durable.occurrences[id].attempted && Preheats(s.calls, id) == 0
    ensures Safe(RunPreheat(s, id, env))
  {
    var gated := PassGate(s, env.gate);
    VolatileKeepsSafe(s, gated);
    if !env.gate.ClosedBefore? {
      var done := ExecutePreheat(gated, id, s.durable.occurrences[id].plan, env.result);
      PreheatKeepsSafe(gated, id, env.result);
      var p := Pending(OccurrenceKind, CallStatus(env.result));
      SettleKeepsSafe(done, id, p, env.terminal, env.now);
      AfterCallbackKeepsSafe(Settle(done, id, p, env.terminal, env.now), env.reconcile);
    }
  }

  lemma ClaimIsQuiet(d: RuntimeState, id: Id, other: Id)
    requires id in d.occurrences && d.occurrences[id].status.Planned?
    ensures Quiet(d, Claim(d, id), other)
  {
  }

  lemma ClaimAndRunKeepsSafe(s: Sched, id: Id, env: OccurrenceEnv)
    requires Safe(s)
    ensures Safe(ClaimAndRun(s, id, env))
  {
    var claimed := Guard(s, id, env.now);
    var stored := Store(s, if claimed then Claim(s.durable, id) else s.durable, env.claim);
    assert claimed ==> Preheats(s.calls, id) == 0 && !s.durable.occurrences[id].attempted by {
      assert EntryOk(s.durable, s.calls, id);
    }
    assert Safe(stored) by {
      if claimed {
        forall other: Id ensures Quiet(s.durable, stored.durable, other) { ClaimIsQuiet(s.durable, id, other); }
        QuietKeepsSafe(s, stored);
      } else {
        VolatileKeepsSafe(s, stored);
      }
    }
    if !env.claim.Ok? {
      VolatileKeepsSafe(stored, ArmRetry(stored, OccurrenceTimer(id), env.now));
    } else if claimed {
      RunPreheatKeepsSafe(stored, id, env);
    }
  }

  lemma HandleOccurrenceKeepsSafe(s: Sched, id: Id, generation: nat, env: OccurrenceEnv)
    requires Safe(s)
    ensures Safe(HandleOccurrence(s, id, generation, env))
  {
    var t := Consume(s, OccurrenceTimer(id));
    VolatileKeepsSafe(s, t);
    if id in t.pending && t.pending[id].kind.OccurrenceKind? {
      ResettleKeepsSafe(t, id, env.terminal, env.now, env.reconcile);
    } else {
      ClaimAndRunKeepsSafe(t, id, env);
    }
  }

  ghost predicate OwedOnce(s: Sched, id: Id) {
    Preheat(id, Failed) in s.calls && Preheats(s.calls, id) == 1 && Compensations(s.calls, id) == 0
  }

  lemma RunCompensationKeepsSafe(s: Sched, id: Id, env: CompensationEnv)
    requires Safe(s) && id in s.durable.occurrences && s.durable.occurrences[id].status.Running?
    requires s.durable.occurrences[id].due == ZERO_TIME && OwedOnce(s, id)
    ensures Safe(RunCompensation(s, id, env))
  {
    var gated := PassGate(s, env.gate);
    VolatileKeepsSafe(s, gated);
    if !env.gate.ClosedBefore? {
      var done := ExecuteCompensation(gated, id, env.result);
      CompensationKeepsSafe(gated, id, env.result);
      var p := Pending(CompensationKind, CallStatus(env.result));
      SettleKeepsSafe(done, id, p, env.terminal, env.terminalRetryNow);
      AfterCallbackKeepsSafe(Settle(done, id, p, env.terminal, env.terminalRetryNow), env.reconcile);
    }
  }

  lemma ClaimCompensationIsQuiet(d: RuntimeState, id: Id, eligible: bool, other: Id)
    requires id in d.occurrences && OwesCompensation(d.occurrences[id])
    ensures Quiet(d, ClaimCompensation(d, id, eligible), other)
  {
  }

  lemma ClaimAndCompensateKeepsSafe(s: Sched, id: Id, env: CompensationEnv)
    requires Safe(s)
    ensures Safe(ClaimAndCompensate(s, id, env))
  {
    if !env.loads {
      VolatileKeepsSafe(s, ArmRetry(s, CompensationTimer(id), env.now));
    } else if CompensationGuard(s, id) {
      var eligible := env.eligible && !Held(s.durable, id);
      var stored := Store(s, ClaimCompensation(s.durable, id, eligible), env.claim);
      assert OwedOnce(s, id) by { assert EntryOk(s.durable, s.calls, id); }
      assert Safe(stored) by {
        forall other: Id ensures Quiet(s.durable, stored.durable, other) {
          ClaimCompensationIsQuiet(s.durable, id, eligible, other);
        }
        QuietKeepsSafe(s, stored);
      }
      if !env.claim.Ok? {
        VolatileKeepsSafe(stored, ArmRetry(stored, CompensationTimer(id), env.claimRetryNow));
      } else if eligible {
        RunCompensationKeepsSafe(stored, id, env);
      } else {
        AfterCallbackKeepsSafe(stored, env.reconcile);
      }
    }
  }

  lemma HandleCompensationKeepsSafe(s: Sched, id: Id, generation: nat, env: CompensationEnv)
    requires Safe(s)
    ensures Safe(HandleCompensation(s, id, generation, env))
  {
    var t := Consume(s, CompensationTimer(id));
    VolatileKeepsSafe(s, t);
    if id in t.pending && t.pending[id].kind.CompensationKind? {
      ResettleKeepsSafe(t, id, env.terminal, env.now, env.reconcile);
    } else {
      ClaimAndCompensateKeepsSafe(t, id, env);
    }
  }

  lemma HandleReconcileKeepsSafe(s: Sched, config: C.Config, start: Write, env: ReconcileEnv)
    requires Safe(s)
    ensures Safe(HandleReconcile(s, config, start, env))
  {
    var t := Start(s, start);
    StartKeepsSafe(s, start);
    if !t.startFailed && t.phase.Live? {
      var u := t.(config := config);
      VolatileKeepsSafe(t, u);
      ReconcileOwnedKeeps(u, config, env);
      QuietKeepsSafe(u, ReconcileOwned(u, config, env).s);
    }
  }

  lemma HandleMidnightKeepsSafe(s: Sched, generation: nat, env: ReconcileEnv, later: bool, midnight: Instant)
    requires Safe(s)
    ensures Safe(HandleMidnight(s, generation, env, later, midnight))
  {
    var t := Consume(s, MidnightTimer);
    var r := ReconcileOwned(t, s.config, env).s;
    VolatileKeepsSafe(s, t);
    ReconcileOwnedKeeps(t, s.config, env);
    QuietKeepsSafe(t, r);
    VolatileKeepsSafe(r, ArmReconcileRetry(if later then ArmMidnight(r, midnight) else r, env.retryNow));
  }

  lemma RecoverIsQuiet(d: RuntimeState, id: Id)
    ensures Quiet(d, Recover(d), id)
  {
  }

  lemma StartKeepsSafe(s: Sched, write: Write)
    requires Safe(s)
    ensures Safe(Start(s, write))
  {
    forall id: Id ensures Quiet(s.durable, Start(s, write).durable, id) { RecoverIsQuiet(s.durable, id); }
    QuietKeepsSafe(s, Start(s, write));
  }

  lemma StopKeepsSafe(s: Sched)
    requires Safe(s)
    ensures Safe(Stop(s))
  {
    VolatileKeepsSafe(s, Stop(s));
  }

  lemma CrashKeepsSafe(s: Sched)
    requires Safe(s)
    ensures Safe(Crash(s))
  {
    QuietKeepsSafe(s, Crash(s));
  }

  lemma HoldsKeepSafe(s: Sched, holds: map<string, Hold>)
    requires Safe(s)
    ensures Safe(s.(durable := s.durable.(holds := holds)))
  {
    QuietKeepsSafe(s, s.(durable := s.durable.(holds := holds)));
  }

  lemma HandleRetryKeepsSafe(s: Sched, generation: nat, env: ReconcileEnv)
    requires Safe(s)
    ensures Safe(HandleRetry(s, generation, env))
  {
    var t := Consume(s, RetryTimer);
    VolatileKeepsSafe(s, t);
    AfterCallbackKeepsSafe(t, env);
  }

  lemma StepKeepsSafe(s: Sched, e: Event)
    requires Safe(s)
    ensures Safe(Step(s, e))
  {
    match e
    case OccurrenceFired(id, generation, env) => HandleOccurrenceKeepsSafe(s, id, generation, env);
    case CompensationFired(id, generation, env) => HandleCompensationKeepsSafe(s, id, generation, env);
    case ReconcileRequested(config, start, env) => HandleReconcileKeepsSafe(s, config, start, env);
    case MidnightFired(generation, env, later, midnight) => HandleMidnightKeepsSafe(s, generation, env, later, midnight);
    case RetryFired(generation, env) => HandleRetryKeepsSafe(s, generation, env);
    case Started(write) => StartKeepsSafe(s, write);
    case StopRequested => StopKeepsSafe(s);
    case Crashed => CrashKeepsSafe(s);
    case HoldsChanged(holds) => HoldsKeepSafe(s, holds);
  }

  lemma {:induction false} RunIsSafe(events: seq<Event>)
    ensures Safe(Run(INITIAL, events))
  {
    if events != [] {
      RunIsSafe(events[..|events| - 1]);
      StepKeepsSafe(Run(INITIAL, events[..|events| - 1]), events[|events| - 1]);
    }
  }

  /** Over every run, whichever writes are lost or applied in spite of a reported failure: an occurrence is
      preheated at most once and compensated at most once, and only after its preheat ended failed. */
  lemma AtMostOnce(events: seq<Event>, id: Id)
    ensures Preheats(Run(INITIAL, events).calls, id) <= 1
    ensures Compensations(Run(INITIAL, events).calls, id) <= Preheats(Run(INITIAL, events).calls, id)
    ensures CompensationsFollowFailures(Run(INITIAL, events).calls)
  {
    RunIsSafe(events);
    assert EntryOk(Run(INITIAL, events).durable, Run(INITIAL, events).calls, id);
  }
}
