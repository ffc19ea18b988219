/** Exactly when a finished occurrence changes, and a run in which it does: a verdict that was written, although its
    write was reported as failed, later overwrites the missed occurrence. */
module SchedulerSharpness {
  import opened Domain
  import opened RuntimeState
  import opened SchedulerState
  import opened SchedulerSafety
  import opened SchedulerOrder
  import opened Reconciling
  import C = Config

  // ----- exactly when -----

  /** The step is a callback that owns its timer and rewrites the waiting verdict of the occurrence, onto the disk. */
  predicate RewritesVerdict(s: Sched, e: Event, id: Id) {
    && s.phase.Live? && id in s.pending
    && match e
       case OccurrenceFired(fired, generation, env) =>
         && fired == id && Owns(s, OccurrenceTimer(id), generation) && s.pending[id].kind.OccurrenceKind?
         && !env.terminal.Lost?
       case CompensationFired(fired, generation, env) =>
         && fired == id && Owns(s, CompensationTimer(id), generation) && s.pending[id].kind.CompensationKind?
         && !env.terminal.Lost?
       case _ => false
  }

  /** The entry a waiting verdict would leave. */
  function VerdictEntry(s: Sched, id: Id): OccurrenceState
    requires id in s.pending && id in s.durable.occurrences
  {
    PersistTerminal(s.durable, id, s.pending[id]).occurrences[id]
  }

  ghost predicate IsFinishedAt(s: Sched, id: Id) {
    id in s.durable.occurrences && IsFinished(s.durable.occurrences[id].status)
  }

  lemma VerdictStaysOver(s: Sched, id: Id)
    requires Safe(s) && IsFinishedAt(s, id) && id in s.pending
    ensures Over(s.durable.occurrences[id]) && Over(VerdictEntry(s, id))
  {
    assert EntryOk(s.durable, s.calls, id) && PendingOk(s, id);
  }

  lemma RewriteLeavesTheVerdict(s: Sched, id: Id, write: Write, now: Instant, env: ReconcileEnv)
    requires Safe(s) && IsFinishedAt(s, id) && id in s.pending
    ensures var d := Resettle(s, id, write, now, env).durable;
            && id in d.occurrences
            && d.occurrences[id] == if write.Lost? then s.durable.occurrences[id] else VerdictEntry(s, id)
  {
    VerdictStaysOver(s, id);
    var settled := Settle(s, id, s.pending[id], write, now);
    assert settled.durable.occurrences[id] == if write.Lost? then s.durable.occurrences[id] else VerdictEntry(s, id);
    AfterCallbackSpares(settled, env, id);
  }

  lemma OccurrenceCallbackOnFinished(s: Sched, fired: Id, generation: nat, env: OccurrenceEnv, id: Id)
    requires Safe(s) && IsFinishedAt(s, id)
    ensures var d := HandleOccurrence(s, fired, generation, env).durable;
            && id in d.occurrences
            && d.occurrences[id]
               == if && s.phase.Live? && id in s.pending && fired == id && Owns(s, OccurrenceTimer(id), generation)
                     && s.pending[id].kind.OccurrenceKind? && !env.terminal.Lost?
                  then VerdictEntry(s, id) else s.durable.occurrences[id]
  {
    assert EntryOk(s.durable, s.calls, id);
    if s.phase.Live? && Owns(s, OccurrenceTimer(fired), generation) {
      var t := Consume(s, OccurrenceTimer(fired));
      VolatileKeepsSafe(s, t);
      if fired in t.pending && t.pending[fired].kind.OccurrenceKind? {
        if fired == id {
          RewriteLeavesTheVerdict(t, id, env.terminal, env.now, env.reconcile);
        } else {
          ResettleSpares(t, fired, env.terminal, env.now, env.reconcile, id);
        }
      } else {
        ClaimAndRunSpares(t, fired, env, id);
      }
    }
  }

  lemma CompensationCallbackOnFinished(s: Sched, fired: Id, generation: nat, env: CompensationEnv, id: Id)
    requires Safe(s) && IsFinishedAt(s, id)
    ensures var d := HandleCompensation(s, fired, generation, env).durable;
            && id in d.occurrences
            && d.occurrences[id]
               == if && s.phase.Live? && id in s.pending && fired == id && Owns(s, CompensationTimer(id), generation)
                     && s.pending[id].kind.CompensationKind? && !env.terminal.Lost?
                  then VerdictEntry(s, id) else s.durable.occurrences[id]
  {
    assert EntryOk(s.durable, s.calls, id);
    if s.phase.Live? && Owns(s, CompensationTimer(fired), generation) {
      var t := Consume(s, CompensationTimer(fired));
      VolatileKeepsSafe(s, t);
      if fired in t.pending && t.pending[fired].kind.CompensationKind? {
        if fired == id {
          RewriteLeavesTheVerdict(t, id, env.terminal, env.now, env.reconcile);
        } else {
          ResettleSpares(t, fired, env.terminal, env.now, env.reconcile, id);
        }
      } else {
        ClaimAndCompensateSpares(t, fired, env, id);
      }
    }
  }

  lemma OtherStepsOnFinished(s: Sched, e: Event, id: Id)
    requires Safe(s) && IsFinishedAt(s, id) && !e.OccurrenceFired? && !e.CompensationFired?
    ensures id in Step(s, e).durable.occurrences
    ensures Step(s, e).durable.occurrences[id] == s.durable.occurrences[id]
  {
    assert EntryOk(s.durable, s.calls, id);
    match e
    case ReconcileRequested(config, start, env) => ReconcileRequestSpares(s, config, start, env, id);
    case MidnightFired(generation, env, later, midnight) => MidnightSpares(s, generation, env, later, midnight, id);
    case RetryFired(generation, env) => RetrySpares(s, generation, env, id);
    case Started(write) => StartSpares(s, write, id);
    case _ =>
  }

  /** In every reachable state, whatever writes were lost or ambiguous, a step changes a succeeded, skipped or missed
      occurrence if and only if it rewrites a waiting verdict of that occurrence onto the disk and that verdict
      leaves another entry; then that entry is what is there. */
  lemma FinishedChangesExactlyWhen(events: seq<Event>, e: Event, id: Id)
    requires IsFinishedAt(Run(INITIAL, events), id)
    ensures var s := Run(INITIAL, events);
            && id in Step(s, e).durable.occurrences
            && (Step(s, e).durable.occurrences[id] != s.durable.occurrences[id] <==>
                  RewritesVerdict(s, e, id) && VerdictEntry(s, id) != s.durable.occurrences[id])
            && (RewritesVerdict(s, e, id) ==> Step(s, e).durable.occurrences[id] == VerdictEntry(s, id))
  {
    RunIsSafe(events);
    var s := Run(INITIAL, events);
    match e
    case OccurrenceFired(fired, generation, env) => OccurrenceCallbackOnFinished(s, fired, generation, env, id);
    case CompensationFired(fired, generation, env) => CompensationCallbackOnFinished(s, fired, generation, env, id);
    case _ => OtherStepsOnFinished(s, e, id);
  }

  // ----- a run in which it does -----

  const ID: Id := "o"
  const PLAN := PlannedOccurrence("o", "k", "", 0, 0, 0, 10, false, "")
  const ENABLED := NO_CONFIG.(enabled := true, scheduledAccountKeys := ["k"])

  const DAYS: Days := [Some([PLAN]), Some([]), Some([]), Some([]), Some([]), Some([]), Some([]), Some([])]
  const PLANNING := ReconcileEnv(1, true, DAYS, Ok, 100, 1)
  const UNZONED := ReconcileEnv(10, false, DAYS, Ok, 100, 10)

  /** The probe fails for lack of a network; its verdict reaches the disk although the write reports an error. */
  const FAILING := OccurrenceEnv(10, Ok, Open, Attempted(NetworkError, 0, 10, Ok), Ambiguous, UNZONED)
  const RETRYING := OccurrenceEnv(11, Ok, Open, Refused(false), Ok, UNZONED)

  const PLAN_IT := ReconcileRequested(ENABLED, Ok, PLANNING)
  const FIRE_IT := OccurrenceFired(ID, 1, FAILING)
  const DISABLE_IT := ReconcileRequested(NO_CONFIG, Ok, PLANNING)
  const REWRITE_IT := OccurrenceFired(ID, 3, RETRYING)

  lemma LetterIsTrimmed(s: string)
    requires |s| == 1 && !IsSpace(s[0])
    ensures TrimSpace(s) == s
  {
    assert TrimLeft(s) == s && TrimRight(s) == s;
  }

  lemma Letters()
    ensures TrimSpace("o") == "o" && TrimSpace("k") == "k"
  {
    LetterIsTrimmed("o");
    LetterIsTrimmed("k");
  }

  lemma {:induction false} EmptyDays(days: seq<Option<seq<PlannedOccurrence>>>)
    requires |days| >= 1 && days[0] == Some([PLAN]) && forall i :: 1 <= i < |days| ==> days[i] == Some([])
    ensures Horizon(days) == Some([PLAN])
  {
    var init := days[..|days| - 1];
    if |days| == 1 {
      assert init == [] && [] + [PLAN] == [PLAN];
    } else {
      EmptyDays(init);
      assert [PLAN] + [] == [PLAN];
    }
  }

  lemma OnePlan()
    ensures Stored(PLAN) == PLAN
    ensures ApplyLines(Line(None, None), [PLAN], 1, ID)
            == Line(Some(OccurrenceState(PLAN, Planned, ZERO_TIME, false)), Some(10))
    ensures ID in Desired([PLAN])
  {
    Letters();
    assert [PLAN][..0] == [];
    DesiredGrows([], PLAN);
    assert [] + [PLAN] == [PLAN];
  }

  predicate AtLine(s: Sched, entry: OccurrenceState, next: Option<Instant>) {
    LineOf(s.durable, ID) == Line(Some(entry), next)
  }

  predicate IsPlanned(s: Sched) {
    && s.phase.Live? && !s.startFailed && s.config == ENABLED && s.pending == map[]
    && AtLine(s, OccurrenceState(PLAN, Planned, ZERO_TIME, false), Some(10))
    && Due(s, OccurrenceTimer(ID)) == Some(10) && Generation(s, OccurrenceTimer(ID)) == 1
  }

  predicate IsFailed(s: Sched) {
    && s.phase.Live? && !s.startFailed && s.pending == map[ID := Pending(OccurrenceKind, Failed)]
    && AtLine(s, OccurrenceState(PLAN, Failed, 10 + COMPENSATION_DELAY, false), Some(10 + COMPENSATION_DELAY))
    && Due(s, OccurrenceTimer(ID)).Some? && Generation(s, OccurrenceTimer(ID)) == 3
  }

  predicate IsMissed(s: Sched) {
    && s.phase.Live? && s.pending == map[ID := Pending(OccurrenceKind, Failed)]
    && ID in s.durable.occurrences && s.durable.occurrences[ID].status.Missed?
    && s.durable.occurrences[ID].due == ZERO_TIME && !s.durable.occurrences[ID].attempted
    && Due(s, OccurrenceTimer(ID)).Some? && Generation(s, OccurrenceTimer(ID)) == 3
  }

  lemma Planning()
    ensures IsPlanned(Step(INITIAL, PLAN_IT))
  {
    OnePlan();
    EmptyDays(DAYS);
    var t := Start(INITIAL, Ok).(config := ENABLED);
    assert t.durable == EMPTY_STATE;
    var d := Reconcile(t.durable, [PLAN], 1);
    EnabledSuccess(t, ENABLED, PLANNING, d);
    ReconcileByLine(t.durable, [PLAN], 1, ID);
    RearmedTimersAreWanted(t.(durable := d), 1, OccurrenceTimer(ID));
  }

  lemma Firing(s: Sched)
    requires IsPlanned(s)
    ensures IsFailed(Step(s, FIRE_IT))
  {
    Letters();
    var t := Consume(s, OccurrenceTimer(ID));
    assert ENABLED.scheduledAccountKeys[0] == "k";
    assert Guard(t, ID, 10);
    var stored := Store(t, Claim(t.durable, ID), Ok);
    var done := ExecutePreheat(stored, ID, PLAN, FAILING.result);
    assert AtLine(done, OccurrenceState(PLAN, Running, 10 + COMPENSATION_DELAY, false), None);
    var settled := Settle(done, ID, Pending(OccurrenceKind, Failed), Ambiguous, 10);
    assert IsFailed(settled);
  }

  lemma Disabling(s: Sched)
    requires IsFailed(s)
    ensures IsMissed(Step(s, DISABLE_IT))
  {
    var t := s.(config := NO_CONFIG);
    DisabledSuccess(t, NO_CONFIG, PLANNING, Disable(t.durable));
  }

  lemma Rewriting(s: Sched)
    requires IsMissed(s)
    ensures var d := Step(s, REWRITE_IT).durable;
            ID in d.occurrences && d.occurrences[ID].status == Failed
  {
    var t := Consume(s, OccurrenceTimer(ID));
    var settled := Settle(t, ID, Pending(OccurrenceKind, Failed), Ok, 11);
    assert AfterCallback(settled, UNZONED).durable == settled.durable || !settled.config.enabled;
  }

  lemma FourSteps(s: Sched, a: Event, b: Event, c: Event, d: Event)
    ensures Run(s, [a, b, c]) == Step(Step(Step(s, a), b), c)
    ensures Run(s, [a, b, c, d]) == Step(Run(s, [a, b, c]), d)
  {
    assert [a][..0] == [];
    assert Run(s, [a]) == Step(s, a);
    assert [a, b][..1] == [a];
    assert Run(s, [a, b]) == Step(Run(s, [a]), b);
    assert [a, b, c][..2] == [a, b];
    assert [a, b, c, d][..3] == [a, b, c];
  }

  /** Missed is not absorbing once a write may be ambiguous: this run makes the occurrence missed, and the retry of
      the verdict that had in fact been written makes it failed. */
  lemma AmbiguousVerdictOverwritesMissed() returns (s: Sched, t: Sched)
    ensures s == Run(INITIAL, [PLAN_IT, FIRE_IT, DISABLE_IT])
    ensures t == Run(INITIAL, [PLAN_IT, FIRE_IT, DISABLE_IT, REWRITE_IT])
    ensures ID in s.durable.occurrences && s.durable.occurrences[ID].status == Missed
    ensures ID in t.durable.occurrences && t.durable.occurrences[ID].status == Failed
  {
    var planned := Step(INITIAL, PLAN_IT);
    Planning();
    var failed := Step(planned, FIRE_IT);
    Firing(planned);
    s := Step(failed, DISABLE_IT);
    Disabling(failed);
    t := Step(s, REWRITE_IT);
    Rewriting(s);
    FourSteps(INITIAL, PLAN_IT, FIRE_IT, DISABLE_IT, REWRITE_IT);
  }
}
