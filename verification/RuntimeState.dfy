/** The durable runtime state shared by the scheduler and the quota service, and every transition the
    scheduler and its executor make on it inside one store transaction. */
module RuntimeState {
  import opened Domain

  type Id = string

  datatype Status = Blank | Planned | Running | Succeeded | Failed | Skipped | Missed

  datatype OccurrenceState = OccurrenceState(plan: PlannedOccurrence, status: Status, due: Instant, attempted: bool)

  datatype Hold = Hold(establishedAt: Instant, floorPercent: int)

  datatype RuntimeState = RuntimeState(
    occurrences: map<Id, OccurrenceState>,
    nextRuns: map<Id, Instant>,
    holds: map<string, Hold>)

  const EMPTY_STATE := RuntimeState(map[], map[], map[])

  // ----- entries -----

  /** A failed occurrence that still owes its one compensation attempt. */
  predicate OwesCompensation(o: OccurrenceState) {
    o.status.Failed? && !o.attempted && o.due != ZERO_TIME
  }

  function MarkMissed(o: OccurrenceState, reason: string): OccurrenceState {
    OccurrenceState(
      o.plan.(missed := true, missedReason := if TrimSpace(reason) == "" then "restart" else reason),
      Missed, ZERO_TIME, false)
  }

  // ----- start: recovery -----

  function RecoverEntry(o: OccurrenceState): OccurrenceState {
    if o.status.Planned? || o.status.Running? || (!o.attempted && o.due != ZERO_TIME)
    then MarkMissed(o, "restart") else o
  }

  function Recover(s: RuntimeState): RuntimeState {
    s.(occurrences := map id | id in s.occurrences :: RecoverEntry(s.occurrences[id]))
  }

  method RecoverAll(s: RuntimeState) returns (r: RuntimeState)
    ensures r == Recover(s)
  {
    r := s;
    var rest := s.occurrences.Keys;
    while rest != {}
      invariant rest <= s.occurrences.Keys == r.occurrences.Keys
      invariant forall id :: id in s.occurrences ==>
                  r.occurrences[id] == if id in rest then s.occurrences[id] else RecoverEntry(s.occurrences[id])
      invariant r == s.(occurrences := r.occurrences)
    {
      var id :| id in rest;
      var o := s.occurrences[id];
      if o.status == Planned || o.status == Running || (!o.attempted && o.due != ZERO_TIME) {
        r := r.(occurrences := r.occurrences[id := MarkMissed(o, "restart")]);
      }
      rest := rest - {id};
    }
    assert r.occurrences == Recover(s).occurrences;
  }

  // ----- reconcile with a disabled schedule -----

  function DisableEntry(o: OccurrenceState): OccurrenceState {
    if OwesCompensation(o) then MarkMissed(o, "scheduler_disabled") else o
  }

  function Disable(s: RuntimeState): RuntimeState {
    s.(nextRuns := map[], occurrences := map id | id in s.occurrences :: DisableEntry(s.occurrences[id]))
  }

  method ForgetNextRuns(s: RuntimeState) returns (r: RuntimeState)
    ensures r == s.(nextRuns := map[])
  {
    r := s;
    var rest := s.nextRuns.Keys;
    while rest != {}
      invariant r == s.(nextRuns := r.nextRuns) && r.nextRuns.Keys == rest
    {
      var id :| id in rest;
      r := r.(nextRuns := r.nextRuns - {id});
      rest := rest - {id};
    }
  }

  method DisableAll(s: RuntimeState) returns (r: RuntimeState)
    ensures r == Disable(s)
  {
    r := ForgetNextRuns(s);
    var rest := s.occurrences.Keys;
    while rest != {}
      invariant rest <= s.occurrences.Keys == r.occurrences.Keys
      invariant forall id :: id in s.occurrences ==>
                  r.occurrences[id] == if id in rest then s.occurrences[id] else DisableEntry(s.occurrences[id])
      invariant r == s.(occurrences := r.occurrences, nextRuns := map[])
    {
      var id :| id in rest;
      var o := s.occurrences[id];
      if o.status == Failed && !o.attempted && o.due != ZERO_TIME {
        r := r.(occurrences := r.occurrences[id := MarkMissed(o, "scheduler_disabled")]);
      }
      rest := rest - {id};
    }
    assert r.occurrences == Disable(s).occurrences;
  }

  // ----- reconcile with an enabled schedule -----

  /** A plan as it is stored: identity and account trimmed. */
  function Stored(plan: PlannedOccurrence): PlannedOccurrence {
    plan.(id := TrimSpace(plan.id), accountKey := TrimSpace(plan.accountKey))
  }

  predicate IsFuture(plan: PlannedOccurrence, now: Instant) {
    !plan.missed && plan.plannedAt != ZERO_TIME && plan.plannedAt > now
  }

  /** An entry that a plan refreshes or creates: planned if it lies ahead, missed otherwise. */
  function Refresh(o: OccurrenceState, plan: PlannedOccurrence, now: Instant): OccurrenceState {
    var entry := o.(plan := plan);
    if plan.missed then MarkMissed(entry, plan.missedReason)
    else if plan.plannedAt == ZERO_TIME || plan.plannedAt <= now then MarkMissed(entry, "past_due")
    else entry.(status := Planned)
  }

  function ApplyPlan(s: RuntimeState, plan: PlannedOccurrence, now: Instant): RuntimeState {
    var p := Stored(plan);
    if p.id == "" then s
    else if p.id in s.occurrences then
      var existing := s.occurrences[p.id];
      if existing.status.Planned? then
        s.(occurrences := s.occurrences[p.id := Refresh(existing, p, now)],
           nextRuns := if IsFuture(p, now) then s.nextRuns[p.id := p.plannedAt] else s.nextRuns - {p.id})
      else if OwesCompensation(existing) then s.(nextRuns := s.nextRuns[p.id := existing.due])
      else s
    else
      s.(occurrences := s.occurrences[p.id := Refresh(OccurrenceState(p, Blank, ZERO_TIME, false), p, now)],
         nextRuns := if IsFuture(p, now) then s.nextRuns[p.id := p.plannedAt] else s.nextRuns)
  }

  function ApplyPlans(s: RuntimeState, plans: seq<PlannedOccurrence>, now: Instant): RuntimeState {
    if plans == [] then s
    else ApplyPlan(ApplyPlans(s, plans[..|plans| - 1], now), plans[|plans| - 1], now)
  }

  function Desired(plans: seq<PlannedOccurrence>): set<Id> {
    set p | p in plans && TrimSpace(p.id) != "" :: TrimSpace(p.id)
  }

  function DropEntry(o: OccurrenceState, desired: bool): OccurrenceState {
    if !desired && OwesCompensation(o) then MarkMissed(o, "selection_removed") else o
  }

  function DropUnselected(s: RuntimeState, desired: set<Id>): RuntimeState {
    s.(occurrences := map id | id in s.occurrences :: DropEntry(s.occurrences[id], id in desired),
       nextRuns := map id | id in s.nextRuns
                            && !(id in s.occurrences && id !in desired && s.occurrences[id].status.Planned?)
                   :: s.nextRuns[id])
  }

  predicate MayRun(o: OccurrenceState) { o.status.Planned? || OwesCompensation(o) }

  function Prune(s: RuntimeState): RuntimeState {
    s.(nextRuns := map id | id in s.nextRuns && id in s.occurrences && MayRun(s.occurrences[id])
                   :: s.nextRuns[id])
  }

  function Reconcile(s: RuntimeState, plans: seq<PlannedOccurrence>, now: Instant): RuntimeState {
    Prune(DropUnselected(ApplyPlans(s, plans, now), Desired(plans)))
  }

  method ApplyOne(s: RuntimeState, stored: PlannedOccurrence, now: Instant) returns (r: RuntimeState)
    requires stored == Stored(stored) && stored.id != ""
    ensures r == ApplyPlan(s, stored, now)
  {
    r := s;
    var id := stored.id;
    if id in r.occurrences {
      var existing := r.occurrences[id];
      if existing.status == Planned {
        existing := existing.(plan := stored);
        var nextRuns := r.nextRuns - {id};
        if stored.missed {
          existing := MarkMissed(existing, stored.missedReason);
        } else if stored.plannedAt == ZERO_TIME || !(stored.plannedAt > now) {
          existing := MarkMissed(existing, "past_due");
        } else {
          existing := existing.(status := Planned);
          nextRuns := nextRuns[id := stored.plannedAt];
          assert nextRuns == r.nextRuns[id := stored.plannedAt];
        }
        r := r.(occurrences := r.occurrences[id := existing], nextRuns := nextRuns);
      } else if existing.status == Failed && !existing.attempted && existing.due != ZERO_TIME {
        r := r.(nextRuns := r.nextRuns[id := existing.due]);
      }
      return;
    }
    var entry := OccurrenceState(stored, Blank, ZERO_TIME, false);
    if stored.missed {
      entry := MarkMissed(entry, stored.missedReason);
    } else if stored.plannedAt == ZERO_TIME || !(stored.plannedAt > now) {
      entry := MarkMissed(entry, "past_due");
    } else {
      entry := entry.(status := Planned);
      r := r.(nextRuns := r.nextRuns[id := stored.plannedAt]);
    }
    r := r.(occurrences := r.occurrences[id := entry]);
  }

  lemma DesiredGrows(plans: seq<PlannedOccurrence>, plan: PlannedOccurrence)
    ensures Desired(plans + [plan]) ==
            Desired(plans) + (if TrimSpace(plan.id) == "" then {} else {TrimSpace(plan.id)})
  {
    var all := plans + [plan];
    assert all[|plans|] == plan;
    assert forall p :: p in plans ==> p in all;
  }

  lemma StoringAgainChangesNothing(s: RuntimeState, plan: PlannedOccurrence, now: Instant)
    ensures Stored(Stored(plan)) == Stored(plan)
    ensures ApplyPlan(s, Stored(plan), now) == ApplyPlan(s, plan, now)
  {
    TrimIsIdempotent(plan.id);
    TrimIsIdempotent(plan.accountKey);
  }

  lemma OneMorePlan(s: RuntimeState, plans: seq<PlannedOccurrence>, k: nat, now: Instant)
    requires k < |plans|
    ensures ApplyPlans(s, plans[..k + 1], now) == ApplyPlan(ApplyPlans(s, plans[..k], now), plans[k], now)
    ensures ApplyPlans(s, plans[..k + 1], now) == ApplyPlan(ApplyPlans(s, plans[..k], now), Stored(plans[k]), now)
    ensures Desired(plans[..k + 1]) ==
            Desired(plans[..k]) + (if TrimSpace(plans[k].id) == "" then {} else {TrimSpace(plans[k].id)})
  {
    assert plans[..k + 1][..k] == plans[..k];
    assert plans[..k + 1] == plans[..k] + [plans[k]];
    DesiredGrows(plans[..k], plans[k]);
    StoringAgainChangesNothing(ApplyPlans(s, plans[..k], now), plans[k], now);
  }

  method ApplyAll(s: RuntimeState, plans: seq<PlannedOccurrence>, now: Instant)
    returns (r: RuntimeState, desired: set<Id>)
    ensures r == ApplyPlans(s, plans, now) && desired == Desired(plans)
  {
    r, desired := s, {};
    for k := 0 to |plans|
      invariant r == ApplyPlans(s, plans[..k], now)
      invariant desired == Desired(plans[..k])
    {
      OneMorePlan(s, plans, k, now);
      var plan := Stored(plans[k]);
      if plan.id == "" {
        continue;
      }
      TrimIsIdempotent(plans[k].id);
      TrimIsIdempotent(plans[k].accountKey);
      desired := desired + {plan.id};
      r := ApplyOne(r, plan, now);
    }
    assert plans[..|plans|] == plans;
  }

  method DropAll(s: RuntimeState, desired: set<Id>) returns (r: RuntimeState)
    ensures r == DropUnselected(s, desired)
  {
    r := s;
    var rest := s.occurrences.Keys;
    while rest != {}
      invariant rest <= s.occurrences.Keys == r.occurrences.Keys
      invariant forall id :: id in s.occurrences ==>
                  r.occurrences[id] == if id in rest then s.occurrences[id]
                                       else DropEntry(s.occurrences[id], id in desired)
      invariant forall id :: id in r.nextRuns <==>
                  id in s.nextRuns
                  && !(id in s.occurrences && id !in rest && id !in desired && s.occurrences[id].status.Planned?)
      invariant forall id :: id in r.nextRuns ==> r.nextRuns[id] == s.nextRuns[id]
      invariant r == s.(occurrences := r.occurrences, nextRuns := r.nextRuns)
    {
      var id :| id in rest;
      rest := rest - {id};
      if id in desired {
        continue;
      }
      var o := s.occurrences[id];
      if o.status == Planned {
        r := r.(nextRuns := r.nextRuns - {id});
      } else if o.status == Failed {
        if !o.attempted && o.due != ZERO_TIME {
          r := r.(occurrences := r.occurrences[id := MarkMissed(o, "selection_removed")]);
        }
      }
    }
    assert r.occurrences == DropUnselected(s, desired).occurrences;
    assert r.nextRuns == DropUnselected(s, desired).nextRuns;
  }

  method PruneAll(s: RuntimeState) returns (r: RuntimeState)
    ensures r == Prune(s)
  {
    r := s;
    var rest := s.nextRuns.Keys;
    while rest != {}
      invariant rest <= s.nextRuns.Keys
      invariant forall id :: id in r.nextRuns <==>
                  id in s.nextRuns
                  && (id in rest || (id in s.occurrences && MayRun(s.occurrences[id])))
      invariant forall id :: id in r.nextRuns ==> r.nextRuns[id] == s.nextRuns[id]
      invariant r == s.(nextRuns := r.nextRuns)
    {
      var id :| id in rest;
      rest := rest - {id};
      if id !in s.occurrences || !(s.occurrences[id].status == Planned || OwesCompensation(s.occurrences[id])) {
        r := r.(nextRuns := r.nextRuns - {id});
      }
    }
    assert r.nextRuns == Prune(s).nextRuns;
  }

  // ----- claims -----

  predicate ScheduledFor(keys: seq<string>, account: string) {
    exists i :: 0 <= i < |keys| && TrimSpace(keys[i]) == TrimSpace(account)
  }

  /** The guard under which a planned occurrence may start. */
  predicate MayClaim(s: RuntimeState, id: Id, now: Instant, enabled: bool, keys: seq<string>) {
    && id in s.occurrences && id in s.nextRuns
    && var o := s.occurrences[id];
       && o.status.Planned? && o.plan.plannedAt != ZERO_TIME && o.plan.plannedAt <= now
       && s.nextRuns[id] == o.plan.plannedAt
       && enabled && ScheduledFor(keys, o.plan.accountKey)
  }

  function Claim(s: RuntimeState, id: Id): RuntimeState
    requires id in s.occurrences
  {
    s.(occurrences := s.occurrences[id := s.occurrences[id].(status := Running)], nextRuns := s.nextRuns - {id})
  }

  predicate MayCompensate(s: RuntimeState, id: Id, enabled: bool, keys: seq<string>) {
    && id in s.occurrences && id in s.nextRuns
    && var o := s.occurrences[id];
       OwesCompensation(o) && s.nextRuns[id] == o.due && enabled && ScheduledFor(keys, o.plan.accountKey)
  }

  predicate Held(s: RuntimeState, id: Id)
    requires id in s.occurrences
  {
    TrimSpace(s.occurrences[id].plan.accountKey) in s.holds
  }

  /** Spend the one compensation attempt: run it if eligible, skip it otherwise. */
  function ClaimCompensation(s: RuntimeState, id: Id, eligible: bool): RuntimeState
    requires id in s.occurrences
  {
    s.(occurrences := s.occurrences[id := s.occurrences[id].(
                        attempted := true, due := ZERO_TIME, status := if eligible then Running else Skipped)],
       nextRuns := s.nextRuns - {id})
  }

  // ----- results -----

  datatype Kind = OccurrenceKind | CompensationKind

  datatype Pending = Pending(kind: Kind, status: Status)

  /** Record how an executor call ended. */
  function PersistTerminal(s: RuntimeState, id: Id, p: Pending): RuntimeState {
    if id !in s.occurrences then s
    else
      var entry := s.occurrences[id].(status := p.status);
      if p.kind.CompensationKind? then
        s.(occurrences := s.occurrences[id := entry.(due := ZERO_TIME, attempted := true)],
           nextRuns := s.nextRuns - {id})
      else
        var settled := if p.status.Failed? then entry else entry.(due := ZERO_TIME, attempted := false);
        s.(occurrences := s.occurrences[id := settled],
           nextRuns := if OwesCompensation(settled) then s.nextRuns[id := settled.due] else s.nextRuns - {id})
  }

  /** The executor's own write during a preheat: set or clear the compensation due time. */
  function UpdateCompensation(s: RuntimeState, occurrence: PlannedOccurrence, due: Instant): RuntimeState {
    if TrimSpace(occurrence.id) == "" then s
    else
      var entry := if occurrence.id in s.occurrences then s.occurrences[occurrence.id]
                   else OccurrenceState(occurrence, Blank, ZERO_TIME, false);
      s.(occurrences := s.occurrences[occurrence.id := entry.(due := due)])
  }

  // ----- the executor's verdict -----

  datatype RequestOutcome =
    | RequestSucceeded | Unauthorized | Forbidden | PaymentRequired | RateLimited | UpstreamError
    | NetworkError | Timeout | ResponseError | UnexpectedOutput | CredentialError | RequestDisabled

  function StatusForRecord(outcome: RequestOutcome): Status {
    match outcome
    case RequestSucceeded => Succeeded
    case RequestDisabled => Skipped
    case _ => Failed
  }

  /** Whether a probe result earns a delayed second attempt. */
  predicate Compensable(outcome: RequestOutcome, httpStatus: int) {
    match outcome
    case NetworkError => true
    case Timeout => true
    case RateLimited => true
    case ResponseError => httpStatus == 429
    case UpstreamError => 500 <= httpStatus <= 599
    case _ => false
  }

  lemma OnlyFailuresAreCompensable(outcome: RequestOutcome, httpStatus: int)
    requires Compensable(outcome, httpStatus)
    ensures StatusForRecord(outcome) == Failed
  {
  }
}
