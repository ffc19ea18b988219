/** The timer loops of a reconciliation, one timer at a time: why visiting the occurrences in any order and then
    stopping what is left over ends at the wanted timers. */
module TimerLoops {
  import opened Domain
  import opened RuntimeState
  import opened SchedulerState
  import opened Reconciling

  /** Timer k of v stands at the target, and has a new generation exactly if it stood elsewhere in s. */
  predicate Stands(s: Sched, v: Sched, k: TimerId, target: Option<Instant>) {
    && Due(v, k) == target
    && Generation(v, k) == Generation(s, k) + (if target == Due(s, k) then 0 else 1)
    && (k in v.generations <==> k in s.generations || target != Due(s, k))
  }

  predicate OnlyTimersDiffer(s: Sched, v: Sched) {
    v == s.(timers := v.timers, generations := v.generations)
  }

  // ----- cancelling and stopping -----

  /** The timers that cancelling has dealt with are those no longer in `rest`. */
  ghost predicate CancelledUpTo(s: Sched, v: Sched, rest: set<TimerId>) {
    && OnlyTimersDiffer(s, v)
    && forall k: TimerId ::
         Stands(s, v, k, if k in s.timers && k !in rest && !Survives(s, k) then None else Due(s, k))
  }

  lemma CancelOne(s: Sched, v: Sched, rest: set<TimerId>, t: TimerId)
    requires CancelledUpTo(s, v, rest) && t in rest && t in s.timers
    ensures CancelledUpTo(s, if Survives(s, t) then v else Disarm(v, t), rest - {t})
  {
    var w := if Survives(s, t) then v else Disarm(v, t);
    forall k: TimerId
      ensures Stands(s, w, k, if k in s.timers && k !in rest - {t} && !Survives(s, k) then None else Due(s, k))
    {
      assert Stands(s, v, k, if k in s.timers && k !in rest && !Survives(s, k) then None else Due(s, k));
    }
  }

  lemma CancelledAll(s: Sched, v: Sched)
    requires CancelledUpTo(s, v, {})
    ensures v == CancelOccurrenceTimers(s)
  {
    var c := CancelOccurrenceTimers(s);
    forall k: TimerId
      ensures Due(v, k) == Due(c, k) && (k in v.generations <==> k in c.generations)
      ensures Generation(v, k) == Generation(c, k)
    {
      assert Stands(s, v, k, if k in s.timers && k !in {} && !Survives(s, k) then None else Due(s, k));
    }
    TimersDetermine(v, c);
  }

  ghost predicate StoppedUpTo(s: Sched, v: Sched, rest: set<TimerId>) {
    && OnlyTimersDiffer(s, v)
    && forall k: TimerId :: Stands(s, v, k, if k in rest then Due(s, k) else None)
  }

  lemma StopOne(s: Sched, v: Sched, rest: set<TimerId>, t: TimerId)
    requires StoppedUpTo(s, v, rest) && t in rest && t in s.timers
    ensures StoppedUpTo(s, Disarm(v, t), rest - {t})
  {
    forall k: TimerId ensures Stands(s, Disarm(v, t), k, if k in rest - {t} then Due(s, k) else None) {
      assert Stands(s, v, k, if k in rest then Due(s, k) else None);
    }
  }

  lemma StoppedAll(s: Sched, v: Sched)
    requires StoppedUpTo(s, v, {})
    ensures v == StopTimers(s)
  {
    var c := StopTimers(s);
    forall k: TimerId
      ensures Due(v, k) == Due(c, k) && (k in v.generations <==> k in c.generations)
      ensures Generation(v, k) == Generation(c, k)
    {
      assert Stands(s, v, k, if k in {} then Due(s, k) else None);
    }
    TimersDetermine(v, c);
  }

  // ----- rearming -----

  predicate BelongsTo(k: TimerId, id: Id) {
    (k.OccurrenceTimer? || k.CompensationTimer?) && k.id == id
  }

  predicate Unvisited(k: TimerId, rest: set<Id>) {
    (k.OccurrenceTimer? || k.CompensationTimer?) ==> k.id in rest
  }

  /** Visiting an occurrence arms what it wants; what nothing wants is stopped afterwards. */
  function Target(s: Sched, now: Instant, rest: set<Id>, k: TimerId): Option<Instant> {
    if Unvisited(k, rest) || Wanted(s, now, k).None? then Due(s, k) else Wanted(s, now, k)
  }

  /** `active` names exactly the armed timers of visited occurrences that are wanted. */
  predicate ActiveAt(s: Sched, v: Sched, now: Instant, rest: set<Id>, active: map<TimerId, Instant>, k: TimerId) {
    if Unvisited(k, rest) then k !in active
    else k in v.timers ==> ((k in active && active[k] == v.timers[k]) <==> Wanted(s, now, k).Some?)
  }

  ghost predicate RearmedUpTo(s: Sched, v: Sched, now: Instant, rest: set<Id>, active: map<TimerId, Instant>) {
    && OnlyTimersDiffer(s, v)
    && (forall k: TimerId :: Stands(s, v, k, Target(s, now, rest, k)))
    && (forall k: TimerId :: ActiveAt(s, v, now, rest, active, k))
  }

  /** What one visit does to the timers and to `active`. */
  ghost predicate Visited(s: Sched, v: Sched, w: Sched, now: Instant, id: Id,
                          active: map<TimerId, Instant>, newActive: map<TimerId, Instant>)
  {
    && OnlyTimersDiffer(v, w)
    && (forall k: TimerId :: !BelongsTo(k, id) ==>
          && Due(w, k) == Due(v, k) && Generation(w, k) == Generation(v, k)
          && (k in w.generations <==> k in v.generations)
          && (k in newActive <==> k in active) && (k in active ==> newActive[k] == active[k]))
    && (forall k: TimerId :: BelongsTo(k, id) ==> VisitedAt(s, v, w, now, newActive, k))
  }

  predicate VisitedAt(s: Sched, v: Sched, w: Sched, now: Instant, newActive: map<TimerId, Instant>, k: TimerId) {
    && Stands(v, w, k, if Wanted(s, now, k).None? then Due(v, k) else Wanted(s, now, k))
    && (k in w.timers ==> ((k in newActive && newActive[k] == w.timers[k]) <==> Wanted(s, now, k).Some?))
  }

  lemma VisitOne(s: Sched, v: Sched, w: Sched, now: Instant, rest: set<Id>, id: Id,
                 active: map<TimerId, Instant>, newActive: map<TimerId, Instant>)
    requires RearmedUpTo(s, v, now, rest, active) && id in rest && Visited(s, v, w, now, id, active, newActive)
    ensures RearmedUpTo(s, w, now, rest - {id}, newActive)
  {
    forall k: TimerId
      ensures Stands(s, w, k, Target(s, now, rest - {id}, k)) && ActiveAt(s, w, now, rest - {id}, newActive, k)
    {
      assert Stands(s, v, k, Target(s, now, rest, k)) && ActiveAt(s, v, now, rest, active, k);
      if BelongsTo(k, id) { assert VisitedAt(s, v, w, now, newActive, k); }
    }
  }

  /** Stopping the armed timers that are not active, those no longer in `rest` being dealt with. */
  ghost predicate PrunedUpTo(s: Sched, v: Sched, now: Instant, rest: set<TimerId>) {
    && OnlyTimersDiffer(s, v)
    && forall k: TimerId ::
         Stands(s, v, k, if k in rest && Wanted(s, now, k).None? then Due(s, k) else Wanted(s, now, k))
  }

  lemma RearmedThenPruned(s: Sched, v: Sched, now: Instant, active: map<TimerId, Instant>)
    requires RearmedUpTo(s, v, now, {}, active)
    ensures PrunedUpTo(s, v, now, v.timers.Keys)
  {
    forall k: TimerId
      ensures Stands(s, v, k, if k in v.timers.Keys && Wanted(s, now, k).None? then Due(s, k) else Wanted(s, now, k))
    {
      assert Stands(s, v, k, Target(s, now, {}, k));
    }
  }

  lemma PruneOne(s: Sched, v: Sched, now: Instant, rest: set<TimerId>, t: TimerId)
    requires PrunedUpTo(s, v, now, rest) && t in rest && t in v.timers
    ensures PrunedUpTo(s, if Wanted(s, now, t).Some? then v else Disarm(v, t), now, rest - {t})
  {
    var w := if Wanted(s, now, t).Some? then v else Disarm(v, t);
    forall k: TimerId
      ensures Stands(s, w, k, if k in rest - {t} && Wanted(s, now, k).None? then Due(s, k) else Wanted(s, now, k))
    {
      assert Stands(s, v, k, if k in rest && Wanted(s, now, k).None? then Due(s, k) else Wanted(s, now, k));
    }
  }

  lemma PrunedAll(s: Sched, v: Sched, now: Instant)
    requires PrunedUpTo(s, v, now, {})
    ensures v == RearmTimers(s, now)
  {
    var r := RearmTimers(s, now);
    forall k: TimerId
      ensures Due(v, k) == Due(r, k) && (k in v.generations <==> k in r.generations)
      ensures Generation(v, k) == Generation(r, k)
    {
      assert Stands(s, v, k, if k in {} && Wanted(s, now, k).None? then Due(s, k) else Wanted(s, now, k));
      RearmedTimersAreWanted(s, now, k);
      if Wanted(s, now, k).Some? { WantedIsACandidate(s, now, k); }
    }
    TimersDetermine(v, r);
  }

  ghost predicate ReadyToVisit(s: Sched, v: Sched, id: Id, active: map<TimerId, Instant>) {
    && OnlyTimersDiffer(s, v)
    && forall k: TimerId :: BelongsTo(k, id) ==> Due(v, k) == Due(s, k) && k !in active
  }

  lemma UnvisitedIsReady(s: Sched, v: Sched, now: Instant, rest: set<Id>, active: map<TimerId, Instant>, id: Id)
    requires RearmedUpTo(s, v, now, rest, active) && id in rest
    ensures ReadyToVisit(s, v, id, active)
  {
    forall k: TimerId | BelongsTo(k, id) ensures Due(v, k) == Due(s, k) && k !in active {
      assert Stands(s, v, k, Target(s, now, rest, k)) && ActiveAt(s, v, now, rest, active, k);
    }
  }

  function ArmIfMoved(s: Sched, t: TimerId, due: Instant): Sched {
    if Due(s, t) == Some(due) then s else Arm(s, t, due)
  }

  /** A visit that wants one timer at one instant. */
  lemma WantedVisit(s: Sched, v: Sched, now: Instant, id: Id, t: TimerId, due: Instant, active: map<TimerId, Instant>)
    requires ReadyToVisit(s, v, id, active) && BelongsTo(t, id)
    requires forall k: TimerId :: BelongsTo(k, id) ==> Wanted(s, now, k) == if k == t then Some(due) else None
    ensures Visited(s, v, ArmIfMoved(v, t, due), now, id, active, active[t := due])
  {
    forall k: TimerId | BelongsTo(k, id)
      ensures VisitedAt(s, v, ArmIfMoved(v, t, due), now, active[t := due], k)
    {
      WantedVisitAt(s, v, now, id, t, due, active, k);
    }
  }

  lemma WantedVisitAt(s: Sched, v: Sched, now: Instant, id: Id, t: TimerId, due: Instant, active: map<TimerId, Instant>,
                      k: TimerId)
    requires BelongsTo(t, id) && k !in active && Due(v, k) == Due(s, k)
    requires Wanted(s, now, k) == if k == t then Some(due) else None
    ensures VisitedAt(s, v, ArmIfMoved(v, t, due), now, active[t := due], k)
  {
  }

  lemma IdleVisit(s: Sched, v: Sched, now: Instant, id: Id, active: map<TimerId, Instant>)
    requires ReadyToVisit(s, v, id, active)
    requires forall k: TimerId :: BelongsTo(k, id) ==> Wanted(s, now, k) == None
    ensures Visited(s, v, v, now, id, active, active)
  {
  }

  /** A visit to a running occurrence whose verdict waits to be written: its timer is armed if it is missing. */
  lemma RetryVisit(s: Sched, v: Sched, now: Instant, id: Id, active: map<TimerId, Instant>)
    requires ReadyToVisit(s, v, id, active) && id in s.pending
    requires id in s.durable.occurrences && s.durable.occurrences[id].status.Running?
    ensures var t := PendingTimer(id, s.pending[id].kind);
            var w := if t in v.timers then v else ArmRetry(v, t, now);
            Visited(s, v, w, now, id, active, active[t := if t in w.timers then w.timers[t] else ZERO_TIME])
  {
    var t := PendingTimer(id, s.pending[id].kind);
    assert Due(v, t) == Due(s, t);
    if t in v.timers {
      WantedVisit(s, v, now, id, t, v.timers[t], active);
    } else if s.phase.Live? {
      WantedVisit(s, v, now, id, t, now + RETRY_DELAY, active);
    }
  }

  predicate IsActive(active: map<TimerId, Instant>, t: TimerId, due: Instant) {
    t == MidnightTimer || t == RetryTimer || (t in active && active[t] == due)
  }

  lemma ActiveIsWanted(s: Sched, v: Sched, now: Instant, active: map<TimerId, Instant>)
    requires RearmedUpTo(s, v, now, {}, active)
    ensures forall k :: k in v.timers.Keys ==>
              (k in v.timers && IsActive(active, k, v.timers[k]) <==> Wanted(s, now, k).Some?)
  {
    forall k | k in v.timers.Keys ensures IsActive(active, k, v.timers[k]) <==> Wanted(s, now, k).Some? {
      assert Stands(s, v, k, Target(s, now, {}, k)) && ActiveAt(s, v, now, {}, active, k);
    }
  }
}
