/** Which timers stand, and when, after a reconciliation or a refused write, told from the stored fields. */
module TimerOutcomes {
  import opened Domain
  import opened RuntimeState
  import opened SchedulerState
  import opened Reconciling
  import opened ReconcileOutcomes
  import opened CallbackOutcomes
  import C = Config

  ghost function StandsAt(s: Sched, t: TimerId): Option<Instant> {
    if t in s.timers then Some(s.timers[t]) else None
  }

  ghost function GenerationOf(s: Sched, t: TimerId): nat {
    if t in s.generations then s.generations[t] else 0
  }

  /** A timer of a running occurrence stands for its waiting verdict; it is set a second ahead if it does not stand. */
  ghost function RetryAt(s: Sched, t: TimerId, now: Instant): Option<Instant> {
    if t in s.timers || s.phase != Live then StandsAt(s, t) else Some(now + 1_000_000_000)
  }

  ghost predicate RunsWaiting(s: Sched, id: Id, kind: Kind) {
    id in s.durable.occurrences && s.durable.occurrences[id].status == Running && Waits(s, id, kind)
  }

  ghost predicate IsPlannedAhead(d: RuntimeState, id: Id, now: Instant) {
    && id in d.occurrences && d.occurrences[id].status == Planned
    && d.occurrences[id].plan.plannedAt != 0 && now < d.occurrences[id].plan.plannedAt
  }

  /** The timers of an occurrence that the durable state asks for. */
  ghost predicate AskedFor(s: Sched, r: Sched, id: Id, now: Instant) {
    && StandsAt(r, OccurrenceTimer(id))
       == (if IsPlannedAhead(s.durable, id, now) then Some(s.durable.occurrences[id].plan.plannedAt)
           else if RunsWaiting(s, id, OccurrenceKind) then RetryAt(s, OccurrenceTimer(id), now) else None)
    && StandsAt(r, CompensationTimer(id))
       == (if id in s.durable.occurrences && Owes(s.durable.occurrences[id]) then Some(s.durable.occurrences[id].due)
           else if RunsWaiting(s, id, CompensationKind) then RetryAt(s, CompensationTimer(id), now) else None)
  }

  /** Only timers of waiting verdicts are left. */
  ghost predicate OnlyVerdictsStand(s: Sched, r: Sched, id: Id) {
    && StandsAt(r, OccurrenceTimer(id))
       == (if Waits(s, id, OccurrenceKind) then StandsAt(s, OccurrenceTimer(id)) else None)
    && StandsAt(r, CompensationTimer(id))
       == (if Waits(s, id, CompensationKind) then StandsAt(s, CompensationTimer(id)) else None)
  }

  /** A timer gets the next generation exactly when it changes. */
  ghost predicate GenerationsFollow(s: Sched, r: Sched) {
    forall t: TimerId :: GenerationOf(r, t) == GenerationOf(s, t) + if StandsAt(r, t) == StandsAt(s, t) then 0 else 1
  }

  lemma RearmingAsksFor(s: Sched, now: Instant, id: Id)
    ensures AskedFor(s, RearmTimers(s, now), id, now)
  {
    RearmedTimersAreWanted(s, now, OccurrenceTimer(id));
    RearmedTimersAreWanted(s, now, CompensationTimer(id));
  }

  lemma RearmingFollows(s: Sched, now: Instant)
    ensures GenerationsFollow(s, RearmTimers(s, now))
    ensures StandsAt(RearmTimers(s, now), MidnightTimer) == StandsAt(s, MidnightTimer)
    ensures StandsAt(RearmTimers(s, now), RetryTimer) == StandsAt(s, RetryTimer)
  {
    RearmedTimersAreWanted(s, now, MidnightTimer);
    RearmedTimersAreWanted(s, now, RetryTimer);
    forall t: TimerId
      ensures GenerationOf(RearmTimers(s, now), t)
           == GenerationOf(s, t) + if StandsAt(RearmTimers(s, now), t) == StandsAt(s, t) then 0 else 1
    {
      RearmedTimersAreWanted(s, now, t);
    }
  }

  lemma MidnightStands(r: Sched, midnight: Instant)
    ensures StandsAt(ArmMidnight(r, midnight), MidnightTimer) == Some(midnight)
    ensures forall t: TimerId :: t != MidnightTimer ==> StandsAt(ArmMidnight(r, midnight), t) == StandsAt(r, t)
  {
  }

  lemma RearmedThenArmed(s: Sched, now: Instant, midnight: Instant, r: Sched)
    requires r == ArmMidnight(RearmTimers(s, now), midnight)
    ensures forall id: Id :: AskedFor(s, r, id, now)
    ensures StandsAt(r, MidnightTimer) == Some(midnight) && StandsAt(r, RetryTimer) == StandsAt(s, RetryTimer)
    ensures GenerationsFollow(s, r)
  {
    RearmingFollows(s, now);
    MidnightStands(RearmTimers(s, now), midnight);
    forall id: Id ensures AskedFor(s, r, id, now) { RearmingAsksFor(s, now, id); }
    ArmingFollows(s, RearmTimers(s, now), midnight);
  }

  /** After a successful enabled reconciliation the timers of every occurrence are those its new entry asks for, the
      midnight timer stands at the next midnight, and generations follow. */
  lemma EnabledTimers(s: Sched, config: C.Config, env: ReconcileEnv)
    requires config.enabled && ReconcileOwned(s, config, env).ok
    ensures var r := ReconcileOwned(s, config, env).s;
            && (forall id: Id :: AskedFor(s.(durable := r.durable), r, id, env.now))
            && StandsAt(r, MidnightTimer) == Some(env.midnight) && StandsAt(r, RetryTimer) == StandsAt(s, RetryTimer)
            && GenerationsFollow(s, r)
  {
    var d := Reconcile(s.durable, Horizon(env.days).value, env.now);
    EnabledSuccess(s, config, env, d);
    var r := ReconcileOwned(s, config, env).s;
    assert r.durable == d;
    RearmedThenArmed(s.(durable := d), env.now, env.midnight, r);
  }

  lemma ArmingFollows(s: Sched, r: Sched, midnight: Instant)
    requires GenerationsFollow(s, r) && StandsAt(r, MidnightTimer) == StandsAt(s, MidnightTimer)
    ensures GenerationsFollow(s, ArmMidnight(r, midnight))
  {
  }

  lemma CancellingFollows(s: Sched)
    ensures GenerationsFollow(s, CancelOccurrenceTimers(s))
    ensures forall id: Id :: OnlyVerdictsStand(s, CancelOccurrenceTimers(s), id)
    ensures StandsAt(CancelOccurrenceTimers(s), MidnightTimer) == StandsAt(s, MidnightTimer)
    ensures StandsAt(CancelOccurrenceTimers(s), RetryTimer) == StandsAt(s, RetryTimer)
  {
  }

  lemma DisablingTimers(s: Sched, config: C.Config, env: ReconcileEnv, d: RuntimeState)
    requires !config.enabled && env.write == Ok && d == Disable(s.durable)
    ensures ReconcileOwned(s, config, env).s
         == var c := CancelOccurrenceTimers(s.(durable := d)); if env.zoneLoads then ArmMidnight(c, env.midnight) else c
  {
  }

  /** After a disabled reconciliation whose write is confirmed only the timers of waiting verdicts stand, besides the
      midnight timer. */
  lemma DisabledTimers(s: Sched, config: C.Config, env: ReconcileEnv)
    requires !config.enabled && env.write == Ok
    ensures var r := ReconcileOwned(s, config, env).s;
            && (forall id: Id :: OnlyVerdictsStand(s, r, id)) && StandsAt(r, RetryTimer) == StandsAt(s, RetryTimer)
            && StandsAt(r, MidnightTimer) == (if env.zoneLoads then Some(env.midnight) else StandsAt(s, MidnightTimer))
            && GenerationsFollow(s, r)
  {
    var d := Disable(s.durable);
    DisablingTimers(s, config, env, d);
    CancelledThenArmed(s.(durable := d), s, env.zoneLoads, env.midnight, ReconcileOwned(s, config, env).s);
  }

  lemma CancelledThenArmed(s: Sched, before: Sched, armed: bool, midnight: Instant, r: Sched)
    requires s == before.(durable := s.durable)
    requires var c := CancelOccurrenceTimers(s); r == if armed then ArmMidnight(c, midnight) else c
    ensures forall id: Id :: OnlyVerdictsStand(before, r, id)
    ensures StandsAt(r, RetryTimer) == StandsAt(before, RetryTimer)
    ensures StandsAt(r, MidnightTimer) == if armed then Some(midnight) else StandsAt(before, MidnightTimer)
    ensures GenerationsFollow(before, r)
  {
    CancellingFollows(s);
    MidnightStands(CancelOccurrenceTimers(s), midnight);
    ArmingFollows(s, CancelOccurrenceTimers(s), midnight);
    forall id: Id ensures OnlyVerdictsStand(before, r, id) {
      assert OnlyVerdictsStand(s, CancelOccurrenceTimers(s), id);
    }
    forall t: TimerId ensures StandsAt(before, t) == StandsAt(s, t) && GenerationOf(before, t) == GenerationOf(s, t) {}
  }

  /** Every other reconciliation leaves all timers alone. */
  lemma FailedReconcileKeepsTimers(s: Sched, config: C.Config, env: ReconcileEnv)
    requires if config.enabled then !ReconcileOwned(s, config, env).ok else env.write != Ok
    ensures var r := ReconcileOwned(s, config, env).s; r.timers == s.timers && r.generations == s.generations
  {
  }

  /** A callback whose reconciliation fails sees to a retry within a second, unless one lies ahead or it is stopping;
      one whose reconciliation succeeds arms none. */
  lemma FailureArmsRetry(s: Sched, env: ReconcileEnv)
    ensures var r, t := ReconcileOwned(s, s.config, env), AfterCallback(s, env);
            && StandsAt(t, RetryTimer)
               == (if r.ok || s.phase != Live || (RetryTimer in s.timers && env.retryNow < s.timers[RetryTimer])
                   then StandsAt(s, RetryTimer) else Some(env.retryNow + 1_000_000_000))
            && (forall k: TimerId :: k != RetryTimer ==> StandsAt(t, k) == StandsAt(r.s, k))
  {
    ReconcileKeepsHistory(s, s.config, env);
    if s.config.enabled {
      if ReconcileOwned(s, s.config, env).ok { EnabledTimers(s, s.config, env); }
      else { FailedReconcileKeepsTimers(s, s.config, env); }
    } else if env.write == Ok {
      DisabledTimers(s, s.config, env);
    } else {
      FailedReconcileKeepsTimers(s, s.config, env);
    }
  }

  /** A claim that is not confirmed is tried again a second later, under the next generation. */
  lemma RefusedClaimRetries(s: Sched, id: Id, generation: CallbackGeneration, env: OccurrenceEnv)
    requires Fires(s, OccurrenceTimer(id), generation) && !Waits(s, id, OccurrenceKind) && env.claim != Ok
    ensures var t := Step(s, OccurrenceFired(id, generation, env));
            && StandsAt(t, OccurrenceTimer(id)) == Some(env.now + 1_000_000_000)
            && GenerationOf(t, OccurrenceTimer(id)) == generation + 2
            && (forall k :: k != OccurrenceTimer(id) ==> StandsAt(t, k) == StandsAt(s, k))
  {
  }

  /** So is a compensation whose state cannot be read or whose claim is not confirmed. */
  lemma RefusedSecondClaimRetries(s: Sched, id: Id, generation: CallbackGeneration, env: CompensationEnv)
    requires Fires(s, CompensationTimer(id), generation) && !Waits(s, id, CompensationKind)
    requires !env.loads || (MayTryAgain(s, id) && env.claim != Ok)
    ensures var t := Step(s, CompensationFired(id, generation, env));
            && StandsAt(t, CompensationTimer(id))
               == Some((if env.loads then env.claimRetryNow else env.now) + 1_000_000_000)
            && (forall k :: k != CompensationTimer(id) ==> StandsAt(t, k) == StandsAt(s, k))
  {
    LooksAreMeant(Consume(s, CompensationTimer(id)), id, env.now, CompensationTimer(id), generation);
  }

  /** A verdict that is not confirmed again waits on its own timer, a second later. */
  lemma RefusedVerdictRetries(s: Sched, id: Id, generation: CallbackGeneration, env: OccurrenceEnv)
    requires Fires(s, OccurrenceTimer(id), generation) && Waits(s, id, OccurrenceKind) && env.terminal != Ok
    ensures var t := Step(s, OccurrenceFired(id, generation, env));
            && StandsAt(t, OccurrenceTimer(id)) == Some(env.now + 1_000_000_000)
            && (forall k :: k != OccurrenceTimer(id) ==> StandsAt(t, k) == StandsAt(s, k))
  {
  }

  lemma RefusedSecondVerdictRetries(s: Sched, id: Id, generation: CallbackGeneration, env: CompensationEnv)
    requires Fires(s, CompensationTimer(id), generation) && Waits(s, id, CompensationKind) && env.terminal != Ok
    ensures var t := Step(s, CompensationFired(id, generation, env));
            && StandsAt(t, CompensationTimer(id)) == Some(env.now + 1_000_000_000)
            && (forall k :: k != CompensationTimer(id) ==> StandsAt(t, k) == StandsAt(s, k))
  {
  }

  /** A callback that has nothing to do takes its own timer away and no other. */
  lemma IdleCallbackConsumes(s: Sched, id: Id, generation: CallbackGeneration, env: OccurrenceEnv)
    requires Fires(s, OccurrenceTimer(id), generation) && !Waits(s, id, OccurrenceKind)
    requires env.claim == Ok && (!MayStart(s, id, env.now) || env.gate == ClosedBefore)
    ensures var t := Step(s, OccurrenceFired(id, generation, env));
            && t.timers == s.timers - {OccurrenceTimer(id)}
            && GenerationOf(t, OccurrenceTimer(id)) == generation + 1
  {
    LooksAreMeant(Consume(s, OccurrenceTimer(id)), id, env.now, OccurrenceTimer(id), generation);
  }
}
