/** What every callback leaves of its occurrence and of the rest, told from what was stored, what the executor answered
    and how the writes ended. */
module CallbackOutcomes {
  import opened Domain
  import opened RuntimeState
  import opened SchedulerState
  import opened SchedulerSafety
  import opened Reconciling
  import opened ReconcileOutcomes
  import C = Config

  // ----- the executor's answer -----

  ghost predicate Succeeds(r: ExecResult) { r.Attempted? && r.outcome == RequestSucceeded }

  /** Nothing was to be sent: requests are disabled, or the executor refused although the account was not busy. */
  ghost predicate Declines(r: ExecResult) {
    if r.Refused? then !r.busy else r.outcome == RequestDisabled
  }

  ghost predicate IsAnswer(r: ExecResult, status: Status) {
    && (status == Succeeded <==> Succeeds(r))
    && (status == Skipped <==> Declines(r))
    && (status == Failed <==> !Succeeds(r) && !Declines(r))
  }

  /** No network, no answer in time, too many requests, or a server error. */
  ghost predicate EarnsSecondAttempt(r: ExecResult) {
    && r.Attempted?
    && (|| r.outcome in {NetworkError, Timeout, RateLimited}
        || (r.outcome == ResponseError && r.httpStatus == 429)
        || (r.outcome == UpstreamError && 500 <= r.httpStatus < 600))
  }


  lemma AnswerIsStatus(r: ExecResult)
    ensures IsAnswer(r, CallStatus(r))
    ensures DueAfter(r) == if EarnsSecondAttempt(r) then r.at + 300_000_000_000 else 0
    ensures EarnsSecondAttempt(r) ==> CallStatus(r) == Failed
  {
  }

  // ----- what callbacks look at -----

  /** A timer callback of the current generation, while the scheduler is live. */
  ghost predicate Fires(s: Sched, t: TimerId, generation: nat) {
    s.phase == Live && t in s.timers && t in s.generations && s.generations[t] == generation
  }

  ghost predicate Waits(s: Sched, id: Id, kind: Kind) {
    id in s.pending && s.pending[id].kind == kind
  }

  ghost predicate IsSelected(keys: seq<string>, account: string) {
    exists key :: key in keys && TrimSpace(key) == TrimSpace(account)
  }

  /** Planned, due, owned by its next run, and selected by an enabled configuration. */
  ghost predicate MayStart(s: Sched, id: Id, now: Instant) {
    && id in s.durable.occurrences && id in s.durable.nextRuns
    && var o := s.durable.occurrences[id];
       && o.status == Planned && o.plan.plannedAt != 0 && o.plan.plannedAt <= now
       && s.durable.nextRuns[id] == o.plan.plannedAt
       && s.config.enabled && IsSelected(s.config.scheduledAccountKeys, o.plan.accountKey)
  }

  /** Owing its compensation, owned by its next run, and selected by an enabled configuration. */
  ghost predicate MayTryAgain(s: Sched, id: Id) {
    && id in s.durable.occurrences && id in s.durable.nextRuns
    && var o := s.durable.occurrences[id];
       && Owes(o) && s.durable.nextRuns[id] == o.due
       && s.config.enabled && IsSelected(s.config.scheduledAccountKeys, o.plan.accountKey)
  }

  ghost predicate OnHold(s: Sched, account: string) { TrimSpace(account) in s.durable.holds }

  lemma SelectionIsMeant(keys: seq<string>, account: string)
    ensures ScheduledFor(keys, account) <==> IsSelected(keys, account)
  {
    if IsSelected(keys, account) {
      var key :| key in keys && TrimSpace(key) == TrimSpace(account);
      var i :| 0 <= i < |keys| && keys[i] == key;
    }
  }

  lemma LooksAreMeant(s: Sched, id: Id, now: Instant, t: TimerId, generation: nat)
    ensures Guard(s, id, now) <==> MayStart(s, id, now)
    ensures CompensationGuard(s, id) <==> MayTryAgain(s, id)
    ensures generation > 0 ==> (s.phase.Live? && Owns(s, t, generation) <==> Fires(s, t, generation))
  {
    if id in s.durable.occurrences {
      SelectionIsMeant(s.config.scheduledAccountKeys, s.durable.occurrences[id].plan.accountKey);
    }
  }

  // ----- what they write -----

  /** The entry and next run of one occurrence, and nothing else, have become these. */
  ghost predicate OnlyLine(d: RuntimeState, e: RuntimeState, id: Id, line: Line) {
    && e.holds == d.holds && LineOf(e, id) == line
    && forall other: Id :: other != id ==> LineOf(e, other) == LineOf(d, other)
  }

  /** A write of one line: not done if it is lost. */
  ghost predicate Wrote(d: RuntimeState, e: RuntimeState, id: Id, line: Line, write: Write) {
    if write == Lost then e == d else OnlyLine(d, e, id, line)
  }

  ghost function Started(o: OccurrenceState): Line {
    Line(Some(o.(status := Running)), None)
  }

  ghost function Spending(o: OccurrenceState, runs: bool): Line {
    Line(Some(o.(status := if runs then Running else Skipped, attempted := true, due := 0)), None)
  }

  /** A verdict: a second attempt is never repeated; a failed first one is owed while it has a due time. */
  ghost function Verdict(o: OccurrenceState, kind: Kind, status: Status): Line {
    if kind == CompensationKind then Line(Some(o.(status := status, attempted := true, due := 0)), None)
    else if status == Failed then
      Line(Some(o.(status := Failed)), if !o.attempted && o.due != 0 then Some(o.due) else None)
    else Line(Some(o.(status := status, attempted := false, due := 0)), None)
  }

  /** The due time after a preheat: the executor sets it five minutes after an answer that earns a second attempt and
      clears it after any other, if its write comes through. */
  ghost function DueThen(o: OccurrenceState, id: Id, r: ExecResult): Instant {
    if r.Refused? || r.dueWrite == Lost || TrimSpace(id) == "" then o.due
    else if EarnsSecondAttempt(r) then r.at + 300_000_000_000 else 0
  }

  lemma ClaimWrites(d: RuntimeState, id: Id)
    requires id in d.occurrences
    ensures OnlyLine(d, Claim(d, id), id, Started(d.occurrences[id]))
    ensures forall eligible :: OnlyLine(d, ClaimCompensation(d, id, eligible), id, Spending(d.occurrences[id], eligible))
  {
  }

  lemma VerdictWrites(d: RuntimeState, id: Id, p: Pending)
    requires id in d.occurrences
    ensures OnlyLine(d, PersistTerminal(d, id, p), id, Verdict(d.occurrences[id], p.kind, p.status))
  {
  }

  lemma ExecutorWritesDue(s: Sched, id: Id, r: ExecResult)
    requires id in s.durable.occurrences && s.durable.occurrences[id].plan.id == id
    ensures var o := s.durable.occurrences[id];
            var t := ExecutePreheat(s, id, o.plan, r);
            && OnlyLine(s.durable, t.durable, id, Line(Some(o.(due := DueThen(o, id, r))), LineOf(s.durable, id).next))
            && t == s.(durable := t.durable, calls := s.calls + [Preheat(id, CallStatus(r))])
  {
    AnswerIsStatus(r);
  }

  ghost function PendingAfter(pending: map<Id, Pending>, id: Id, p: Pending, write: Write): map<Id, Pending> {
    if write == Ok then pending - {id} else pending[id := p]
  }

  lemma SettleWrites(s: Sched, id: Id, p: Pending, write: Write, now: Instant)
    requires id in s.durable.occurrences
    ensures var t := Settle(s, id, p, write, now);
            && Wrote(s.durable, t.durable, id, Verdict(s.durable.occurrences[id], p.kind, p.status), write)
            && t.pending == PendingAfter(s.pending, id, p, write)
            && t.calls == s.calls && t.phase == s.phase && t.config == s.config
  {
    VerdictWrites(s.durable, id, p);
  }

  // ----- a first attempt -----

  /** What the occurrence is when its probe has been answered and the verdict has been written or lost. */
  ghost function Preheated(o: OccurrenceState, id: Id, r: ExecResult, status: Status, write: Write): Line {
    var run := o.(status := Running, due := DueThen(o, id, r));
    if write == Lost then Line(Some(run), None) else Verdict(run, OccurrenceKind, status)
  }

  ghost predicate PreheatLeaves(s: Sched, id: Id, env: OccurrenceEnv, t: Sched)
    requires id in s.durable.occurrences
  {
    exists status: Status, d: RuntimeState ::
      && IsAnswer(env.result, status) && t.calls == s.calls + [Preheat(id, status)]
      && OnlyLine(s.durable, d, id, Preheated(s.durable.occurrences[id], id, env.result, status, env.terminal))
      && DurableReconciled(d, t.durable, s.config, env.reconcile)
      && t.pending == PendingAfter(s.pending, id, Pending(OccurrenceKind, status), env.terminal)
      && t.phase == (if env.gate == ClosesDuring then Stopping else s.phase)
      && t.config == s.config
  }

  lemma RunPreheatLeaves(s: Sched, id: Id, env: OccurrenceEnv, before: Sched)
    requires id in before.durable.occurrences && before.durable.occurrences[id].plan.id == id
    requires s == before.(durable := s.durable, timers := s.timers, generations := s.generations)
    requires OnlyLine(before.durable, s.durable, id, Started(before.durable.occurrences[id]))
    requires env.gate != ClosedBefore
    ensures PreheatLeaves(before, id, env, RunPreheat(s, id, env))
  {
    var o := before.durable.occurrences[id];
    var gated := PassGate(s, env.gate);
    assert LineOf(s.durable, id) == Started(o);
    var run := s.durable.occurrences[id];
    var status := CallStatus(env.result);
    var done := ExecutePreheat(gated, id, run.plan, env.result);
    ExecutorWritesDue(gated, id, env.result);
    var settled := Settle(done, id, Pending(OccurrenceKind, status), env.terminal, env.now);
    SettleWrites(done, id, Pending(OccurrenceKind, status), env.terminal, env.now);
    assert done.durable.occurrences[id] == o.(status := Running, due := DueThen(o, id, env.result)) by {
      assert LineOf(done.durable, id).entry == Some(run.(due := DueThen(run, id, env.result)));
    }
    assert OnlyLine(before.durable, settled.durable, id, Preheated(o, id, env.result, status, env.terminal));
    AfterCallbackLeaves(settled, env.reconcile);
    AnswerIsStatus(env.result);
  }

  lemma ClaimAndRunLeaves(s: Sched, id: Id, env: OccurrenceEnv, before: Sched)
    requires s == before.(timers := s.timers, generations := s.generations)
    requires id in s.durable.occurrences ==> s.durable.occurrences[id].plan.id == id
    ensures OccurrenceLeaves(before, id, env, ClaimAndRun(s, id, env))
  {
    LooksAreMeant(s, id, env.now, MidnightTimer, 0);
    if Guard(s, id, env.now) {
      ClaimWrites(s.durable, id);
      if env.claim == Ok && env.gate != ClosedBefore {
        RunPreheatLeaves(Store(s, Claim(s.durable, id), Ok), id, env, before);
      }
    }
  }

  /** What an occurrence callback that fires without a waiting verdict leaves. */
  ghost predicate OccurrenceLeaves(s: Sched, id: Id, env: OccurrenceEnv, t: Sched) {
    if !MayStart(s, id, env.now) then t.durable == s.durable && SameHistory(s, t)
    else if env.claim != Ok then
      Wrote(s.durable, t.durable, id, Started(s.durable.occurrences[id]), env.claim) && SameHistory(s, t)
    else if env.gate == ClosedBefore then
      && OnlyLine(s.durable, t.durable, id, Started(s.durable.occurrences[id]))
      && SameHistory(s.(phase := Stopping), t)
    else PreheatLeaves(s, id, env, t)
  }

  // ----- a second attempt -----

  ghost predicate SecondAttemptLeaves(s: Sched, id: Id, env: CompensationEnv, t: Sched)
    requires id in s.durable.occurrences
  {
    exists status: Status, d: RuntimeState ::
      && IsAnswer(env.result, status) && t.calls == s.calls + [Compensation(id, status)]
      && OnlyLine(s.durable, d, id, if env.terminal == Lost then Spending(s.durable.occurrences[id], true)
                                    else Verdict(s.durable.occurrences[id], CompensationKind, status))
      && DurableReconciled(d, t.durable, s.config, env.reconcile)
      && t.pending == PendingAfter(s.pending, id, Pending(CompensationKind, status), env.terminal)
      && t.phase == (if env.gate == ClosesDuring then Stopping else s.phase)
      && t.config == s.config
  }

  lemma RunCompensationLeaves(s: Sched, id: Id, env: CompensationEnv, before: Sched)
    requires id in before.durable.occurrences
    requires s == before.(durable := s.durable, timers := s.timers, generations := s.generations)
    requires OnlyLine(before.durable, s.durable, id, Spending(before.durable.occurrences[id], true))
    requires env.gate != ClosedBefore
    ensures SecondAttemptLeaves(before, id, env, RunCompensation(s, id, env))
  {
    var o := before.durable.occurrences[id];
    var status := CallStatus(env.result);
    var done := ExecuteCompensation(PassGate(s, env.gate), id, env.result);
    var p := Pending(CompensationKind, status);
    var settled := Settle(done, id, p, env.terminal, env.terminalRetryNow);
    assert LineOf(done.durable, id) == Spending(o, true);
    SettleWrites(done, id, p, env.terminal, env.terminalRetryNow);
    assert OnlyLine(before.durable, settled.durable, id,
                    if env.terminal == Lost then Spending(o, true) else Verdict(o, CompensationKind, status));
    AfterCallbackLeaves(settled, env.reconcile);
    AnswerIsStatus(env.result);
  }

  /** What a compensation callback that fires without a waiting verdict leaves: an attempt that is not eligible or on
      hold is spent and skipped, any other is spent before it is made. */
  ghost predicate CompensationLeaves(s: Sched, id: Id, env: CompensationEnv, t: Sched) {
    if !env.loads || !MayTryAgain(s, id) then t.durable == s.durable && SameHistory(s, t)
    else
      var o := s.durable.occurrences[id];
      var runs := env.eligible && !OnHold(s, o.plan.accountKey);
      if env.claim != Ok then Wrote(s.durable, t.durable, id, Spending(o, runs), env.claim) && SameHistory(s, t)
      else if !runs then
        && SameHistory(s, t)
        && exists d :: OnlyLine(s.durable, d, id, Spending(o, false))
                       && DurableReconciled(d, t.durable, s.config, env.reconcile)
      else if env.gate == ClosedBefore then
        OnlyLine(s.durable, t.durable, id, Spending(o, true)) && SameHistory(s.(phase := Stopping), t)
      else SecondAttemptLeaves(s, id, env, t)
  }

  lemma ClaimAndCompensateLeaves(s: Sched, id: Id, env: CompensationEnv, before: Sched)
    requires s == before.(timers := s.timers, generations := s.generations)
    ensures CompensationLeaves(before, id, env, ClaimAndCompensate(s, id, env))
  {
    LooksAreMeant(s, id, env.now, MidnightTimer, 0);
    if env.loads && CompensationGuard(s, id) {
      var runs := env.eligible && !Held(s.durable, id);
      var stored := Store(s, ClaimCompensation(s.durable, id, runs), env.claim);
      ClaimWrites(s.durable, id);
      if env.claim == Ok {
        if !runs {
          AfterCallbackLeaves(stored, env.reconcile);
        } else if env.gate != ClosedBefore {
          RunCompensationLeaves(stored, id, env, before);
        }
      }
    }
  }

  // ----- a verdict that waits -----

  /** Writing a waiting verdict again makes no call; only a confirmed write ends the wait and goes on to reconcile. */
  ghost predicate RewriteLeaves(s: Sched, id: Id, write: Write, env: ReconcileEnv, t: Sched)
    requires id in s.pending && id in s.durable.occurrences
  {
    var verdict := Verdict(s.durable.occurrences[id], s.pending[id].kind, s.pending[id].status);
    && t.calls == s.calls && t.phase == s.phase && t.config == s.config
    && t.pending == (if write == Ok then s.pending - {id} else s.pending)
    && if write != Ok then Wrote(s.durable, t.durable, id, verdict, write)
       else exists d :: OnlyLine(s.durable, d, id, verdict) && DurableReconciled(d, t.durable, s.config, env)
  }

  lemma ResettleLeaves(s: Sched, id: Id, write: Write, now: Instant, env: ReconcileEnv, before: Sched)
    requires id in before.pending && id in before.durable.occurrences
    requires s == before.(timers := s.timers, generations := s.generations)
    ensures RewriteLeaves(before, id, write, env, Resettle(s, id, write, now, env))
  {
    var settled := Settle(s, id, s.pending[id], write, now);
    SettleWrites(s, id, s.pending[id], write, now);
    if write == Ok { AfterCallbackLeaves(settled, env); }
    assert s.pending[id := s.pending[id]] == s.pending;
  }

  // ----- callbacks -----

  /** In every reachable state, what an occurrence callback leaves: nothing unless it fires; a waiting verdict is
      written again; otherwise the occurrence is started, called and settled as told. */
  lemma OccurrenceCallbackLeaves(events: seq<Event>, id: Id, generation: CallbackGeneration, env: OccurrenceEnv)
    ensures var s := Run(INITIAL, events);
            var t := Step(s, OccurrenceFired(id, generation, env));
            if !Fires(s, OccurrenceTimer(id), generation) then t == s
            else if Waits(s, id, OccurrenceKind) then
              id in s.durable.occurrences && RewriteLeaves(s, id, env.terminal, env.reconcile, t)
            else OccurrenceLeaves(s, id, env, t)
  {
    var s := Run(INITIAL, events);
    RunIsSafe(events);
    LooksAreMeant(s, id, env.now, OccurrenceTimer(id), generation);
    assert EntryOk(s.durable, s.calls, id) && PendingOk(s, id);
    if Fires(s, OccurrenceTimer(id), generation) {
      var t := Consume(s, OccurrenceTimer(id));
      if Waits(s, id, OccurrenceKind) {
        PreheatMeansCounted(s.calls, id, s.pending[id].status);
        ResettleLeaves(t, id, env.terminal, env.now, env.reconcile, s);
      } else {
        ClaimAndRunLeaves(t, id, env, s);
      }
    }
  }

  /** The same for a compensation callback. */
  lemma CompensationCallbackLeaves(events: seq<Event>, id: Id, generation: CallbackGeneration, env: CompensationEnv)
    ensures var s := Run(INITIAL, events);
            var t := Step(s, CompensationFired(id, generation, env));
            if !Fires(s, CompensationTimer(id), generation) then t == s
            else if Waits(s, id, CompensationKind) then
              id in s.durable.occurrences && RewriteLeaves(s, id, env.terminal, env.reconcile, t)
            else CompensationLeaves(s, id, env, t)
  {
    var s := Run(INITIAL, events);
    RunIsSafe(events);
    LooksAreMeant(s, id, env.now, CompensationTimer(id), generation);
    assert EntryOk(s.durable, s.calls, id) && PendingOk(s, id);
    if Fires(s, CompensationTimer(id), generation) {
      var t := Consume(s, CompensationTimer(id));
      if Waits(s, id, CompensationKind) {
        ResettleLeaves(t, id, env.terminal, env.now, env.reconcile, s);
      } else {
        ClaimAndCompensateLeaves(t, id, env, s);
      }
    }
  }

  // ----- the recorded status -----

  /** The status on the disk tells the answer: succeeded, skipped or failed, except that a failure whose compensation
      the following reconciliation gives up is missed. */
  ghost predicate Records(d: RuntimeState, id: Id, r: ExecResult, givenUp: bool) {
    && id in d.occurrences
    && var status := d.occurrences[id].status;
       && (status == Succeeded <==> Succeeds(r))
       && (status == Skipped <==> Declines(r))
       && (status == Failed <==> !Succeeds(r) && !Declines(r) && !givenUp)
       && (status == Missed <==> !Succeeds(r) && !Declines(r) && givenUp)
  }

  /** In every reachable state: after a preheat whose verdict is written, the call and the durable status tell what the
      executor answered, and no verdict waits. The failure is given up exactly if it earns a second attempt, its due
      time came through and the reconciliation reaches the disk without selecting the occurrence. */
  lemma PreheatIsRecorded(events: seq<Event>, id: Id, generation: CallbackGeneration, env: OccurrenceEnv)
    requires Step(Run(INITIAL, events), OccurrenceFired(id, generation, env)).calls != Run(INITIAL, events).calls
    requires env.terminal == Ok
    ensures var s := Run(INITIAL, events);
            var t := Step(s, OccurrenceFired(id, generation, env));
            && (exists status :: IsAnswer(env.result, status) && t.calls == s.calls + [Preheat(id, status)])
            && id !in t.pending && id in s.durable.occurrences
            && Records(t.durable, id, env.result,
                       DueThen(s.durable.occurrences[id], id, env.result) != 0
                       && GivesUp(s.config, env.reconcile, id))
  {
    var s := Run(INITIAL, events);
    var t := Step(s, OccurrenceFired(id, generation, env));
    OccurrenceCallbackLeaves(events, id, generation, env);
    RunIsSafe(events);
    assert EntryOk(s.durable, s.calls, id);
    var o := s.durable.occurrences[id];
    var status: Status, d: RuntimeState :|
      && IsAnswer(env.result, status) && t.calls == s.calls + [Preheat(id, status)]
      && OnlyLine(s.durable, d, id, Preheated(o, id, env.result, status, env.terminal))
      && DurableReconciled(d, t.durable, s.config, env.reconcile)
      && t.pending == PendingAfter(s.pending, id, Pending(OccurrenceKind, status), env.terminal);
    assert LineOf(d, id) == Preheated(o, id, env.result, status, env.terminal);
    ReconciledHistory(d, t.durable, s.config, env.reconcile, id);
  }

  /** The same for a second attempt, which is never given up. */
  lemma SecondAttemptIsRecorded(events: seq<Event>, id: Id, generation: CallbackGeneration, env: CompensationEnv)
    requires Step(Run(INITIAL, events), CompensationFired(id, generation, env)).calls != Run(INITIAL, events).calls
    requires env.terminal == Ok
    ensures var s := Run(INITIAL, events);
            var t := Step(s, CompensationFired(id, generation, env));
            && (exists status :: IsAnswer(env.result, status) && t.calls == s.calls + [Compensation(id, status)])
            && id !in t.pending && Records(t.durable, id, env.result, false)
            && t.durable.occurrences[id].attempted && t.durable.occurrences[id].due == 0
  {
    var s := Run(INITIAL, events);
    var t := Step(s, CompensationFired(id, generation, env));
    CompensationCallbackLeaves(events, id, generation, env);
    var o := s.durable.occurrences[id];
    var status: Status, d: RuntimeState :|
      && IsAnswer(env.result, status) && t.calls == s.calls + [Compensation(id, status)]
      && OnlyLine(s.durable, d, id, Verdict(o, CompensationKind, status))
      && DurableReconciled(d, t.durable, s.config, env.reconcile)
      && t.pending == PendingAfter(s.pending, id, Pending(CompensationKind, status), env.terminal);
    assert LineOf(d, id) == Verdict(o, CompensationKind, status);
    ReconciledHistory(d, t.durable, s.config, env.reconcile, id);
  }

  /** A verdict that waits is recorded as it was answered once a callback writes it, unless the reconciliation that
      follows a confirmed write gives it up. */
  lemma WaitingVerdictIsRecorded(s: Sched, id: Id, write: Write, env: ReconcileEnv, t: Sched)
    requires id in s.pending && id in s.durable.occurrences && IsVerdict(s.pending[id].status)
    requires RewriteLeaves(s, id, write, env, t) && write != Lost
    ensures id in t.durable.occurrences
    ensures var o, p := s.durable.occurrences[id], s.pending[id];
            t.durable.occurrences[id].status
            == if && write == Ok && p == Pending(OccurrenceKind, Failed) && !o.attempted && o.due != 0
                  && GivesUp(s.config, env, id)
               then Missed else p.status
  {
    var o, p := s.durable.occurrences[id], s.pending[id];
    var verdict := Verdict(o, p.kind, p.status);
    if write == Ok {
      var d :| OnlyLine(s.durable, d, id, verdict) && DurableReconciled(d, t.durable, s.config, env);
      assert LineOf(d, id) == verdict;
      ReconciledHistory(d, t.durable, s.config, env, id);
    } else {
      assert LineOf(t.durable, id) == verdict;
    }
  }

  // ----- calls, in terms of the fields -----

  /** In every reachable state the executor is called for a preheat exactly when the timer fires, no verdict waits, the
      occurrence may start, the claim is confirmed and the gate is not closed before. */
  lemma PreheatIsCalledExactlyWhen(events: seq<Event>, id: Id, generation: CallbackGeneration, env: OccurrenceEnv)
    ensures var s := Run(INITIAL, events);
            Step(s, OccurrenceFired(id, generation, env)).calls != s.calls <==>
              && Fires(s, OccurrenceTimer(id), generation) && !Waits(s, id, OccurrenceKind)
              && MayStart(s, id, env.now) && env.claim == Ok && env.gate != ClosedBefore
  {
    OccurrenceCallbackLeaves(events, id, generation, env);
  }

  /** A second attempt is made exactly when its timer fires, no verdict waits, it is owed and selected, the account is
      eligible and not on hold, it has been recorded as spent and the gate is not closed before. */
  lemma SecondAttemptIsMadeExactlyWhen(events: seq<Event>, id: Id, generation: CallbackGeneration, env: CompensationEnv)
    ensures var s := Run(INITIAL, events);
            Step(s, CompensationFired(id, generation, env)).calls != s.calls <==>
              && Fires(s, CompensationTimer(id), generation) && !Waits(s, id, CompensationKind)
              && env.loads && MayTryAgain(s, id)
              && env.eligible && !OnHold(s, s.durable.occurrences[id].plan.accountKey)
              && env.claim == Ok && env.gate != ClosedBefore
  {
    CompensationCallbackLeaves(events, id, generation, env);
  }

  // ----- the other steps -----

  /** What every other event leaves: a request starts an idle process and reconciles unless the start has failed or the
      process is stopping; the midnight and the retry timer reconcile when they fire; a stop and a crash change
      nothing durable. */
  ghost predicate OtherLeaves(s: Sched, e: Event, t: Sched) {
    match e
    case Started(write) => IsStart(s, write, t)
    case ReconcileRequested(config, start, env) =>
      exists u :: IsStart(s, start, u)
                  && if u.startFailed || u.phase != Live then t == u
                     else DurableReconciled(u.durable, t.durable, config, env)
                          && SameHistory(u.(config := config), t)
    case MidnightFired(generation, env, _, _) =>
      if !Fires(s, MidnightTimer, generation) then t == s
      else DurableReconciled(s.durable, t.durable, s.config, env) && SameHistory(s, t)
    case RetryFired(generation, env) =>
      if !Fires(s, RetryTimer, generation) then t == s
      else DurableReconciled(s.durable, t.durable, s.config, env) && SameHistory(s, t)
    case StopRequested =>
      && t.durable == s.durable && t.calls == s.calls && t.pending == s.pending && t.phase == Stopped
      && (s.phase == Live || s.phase == Stopping ==> t.timers == map[])
    case Crashed =>
      && t.durable == s.durable && t.calls == s.calls && t.phase == Idle && !t.startFailed && !t.config.enabled
      && t.pending == map[] && t.timers == map[] && t.generations == map[]
    case HoldsChanged(holds) => t == s.(durable := s.durable.(holds := holds))
    case _ => true
  }

  ghost predicate IsStart(s: Sched, write: Write, t: Sched) {
    if s.phase != Idle then t == s
    else && t == s.(durable := t.durable, phase := Live, startFailed := write != Ok)
         && (if write == Lost then t.durable == s.durable else IsRecovered(s.durable, t.durable))
  }

  lemma MidnightLeaves(s: Sched, generation: nat, env: ReconcileEnv, later: bool, midnight: Instant)
    requires s.phase == Live && Owns(s, MidnightTimer, generation)
    ensures var t := HandleMidnight(s, generation, env, later, midnight);
            DurableReconciled(s.durable, t.durable, s.config, env) && SameHistory(s, t)
  {
    ReconcileLeaves(Consume(s, MidnightTimer), s.config, env);
  }

  lemma OtherStepLeaves(s: Sched, e: Event)
    requires !e.OccurrenceFired? && !e.CompensationFired?
    ensures OtherLeaves(s, e, Step(s, e))
  {
    match e
    case Started(write) => StartLeaves(s, write);
    case ReconcileRequested(config, start, env) =>
      StartLeaves(s, start);
      var u := Start(s, start);
      assert IsStart(s, start, u);
      ReconcileLeaves(u.(config := config), config, env);
    case MidnightFired(generation, env, later, midnight) =>
      LooksAreMeant(s, "", 0, MidnightTimer, generation);
      if Fires(s, MidnightTimer, generation) { MidnightLeaves(s, generation, env, later, midnight); }
    case RetryFired(generation, env) =>
      LooksAreMeant(s, "", 0, RetryTimer, generation);
      if Fires(s, RetryTimer, generation) { AfterCallbackLeaves(Consume(s, RetryTimer), env); }
    case _ =>
  }

  // ----- waiting verdicts repeat answers -----

  ghost predicate RepeatsAnswers(s: Sched) {
    forall id :: id in s.pending ==>
      (if s.pending[id].kind == OccurrenceKind then Preheat(id, s.pending[id].status)
       else Compensation(id, s.pending[id].status)) in s.calls
  }

  lemma CalledStillRepeats(s: Sched, t: Sched, id: Id, p: Pending, write: Write)
    requires RepeatsAnswers(s) && t.pending == PendingAfter(s.pending, id, p, write)
    requires t.calls == s.calls + [if p.kind == OccurrenceKind then Preheat(id, p.status) else Compensation(id, p.status)]
    ensures RepeatsAnswers(t)
  {
    assert t.calls[|s.calls|] in t.calls;
    assert forall c :: c in s.calls ==> c in t.calls;
  }

  lemma OccurrenceStepRepeats(events: seq<Event>, id: Id, generation: CallbackGeneration, env: OccurrenceEnv)
    requires RepeatsAnswers(Run(INITIAL, events))
    ensures RepeatsAnswers(Step(Run(INITIAL, events), OccurrenceFired(id, generation, env)))
  {
    var s := Run(INITIAL, events);
    var t := Step(s, OccurrenceFired(id, generation, env));
    OccurrenceCallbackLeaves(events, id, generation, env);
    if t.calls != s.calls {
      var status: Status :| t.calls == s.calls + [Preheat(id, status)]
        && t.pending == PendingAfter(s.pending, id, Pending(OccurrenceKind, status), env.terminal);
      CalledStillRepeats(s, t, id, Pending(OccurrenceKind, status), env.terminal);
    }
  }

  lemma CompensationStepRepeats(events: seq<Event>, id: Id, generation: CallbackGeneration, env: CompensationEnv)
    requires RepeatsAnswers(Run(INITIAL, events))
    ensures RepeatsAnswers(Step(Run(INITIAL, events), CompensationFired(id, generation, env)))
  {
    var s := Run(INITIAL, events);
    var t := Step(s, CompensationFired(id, generation, env));
    CompensationCallbackLeaves(events, id, generation, env);
    if t.calls != s.calls {
      var status: Status :| t.calls == s.calls + [Compensation(id, status)]
        && t.pending == PendingAfter(s.pending, id, Pending(CompensationKind, status), env.terminal);
      CalledStillRepeats(s, t, id, Pending(CompensationKind, status), env.terminal);
    }
  }

  /** Over every run a verdict that waits is what the executor answered for that occurrence. */
  lemma {:induction false} WaitingVerdictsRepeatAnswers(events: seq<Event>)
    ensures RepeatsAnswers(Run(INITIAL, events))
  {
    if events != [] {
      var init, e := events[..|events| - 1], events[|events| - 1];
      WaitingVerdictsRepeatAnswers(init);
      match e
      case OccurrenceFired(id, generation, env) => OccurrenceStepRepeats(init, id, generation, env);
      case CompensationFired(id, generation, env) => CompensationStepRepeats(init, id, generation, env);
      case _ => OtherStepLeaves(Run(INITIAL, init), e);
    }
  }

  /** In every reachable state, a callback that writes a waiting verdict onto the disk makes no call and records what
      was answered, unless the reconciliation after a confirmed write gives a failed first attempt up. */
  lemma RewrittenVerdictIsRecorded(events: seq<Event>, id: Id, generation: CallbackGeneration, kind: Kind,
                                   first: OccurrenceEnv, second: CompensationEnv)
    requires var s := Run(INITIAL, events);
             && Waits(s, id, kind)
             && if kind == OccurrenceKind then Fires(s, OccurrenceTimer(id), generation) && first.terminal != Lost
                else Fires(s, CompensationTimer(id), generation) && second.terminal != Lost
    ensures var s := Run(INITIAL, events);
            var write, env := if kind == OccurrenceKind then first.terminal else second.terminal,
                              if kind == OccurrenceKind then first.reconcile else second.reconcile;
            var t := Step(s, if kind == OccurrenceKind then OccurrenceFired(id, generation, first)
                             else CompensationFired(id, generation, second));
            && t.calls == s.calls && id in s.durable.occurrences && id in t.durable.occurrences
            && (id in t.pending <==> write == Ambiguous)
            && var o, status := s.durable.occurrences[id], s.pending[id].status;
               && (if kind == OccurrenceKind then Preheat(id, status) else Compensation(id, status)) in s.calls
               && t.durable.occurrences[id].status
                  == if && write == Ok && kind == OccurrenceKind && status == Failed && !o.attempted && o.due != 0
                        && GivesUp(s.config, env, id)
                     then Missed else status
  {
    var s := Run(INITIAL, events);
    WaitingVerdictsRepeatAnswers(events);
    RunIsSafe(events);
    assert PendingOk(s, id);
    if kind == OccurrenceKind {
      OccurrenceCallbackLeaves(events, id, generation, first);
      WaitingVerdictIsRecorded(s, id, first.terminal, first.reconcile,
                               Step(s, OccurrenceFired(id, generation, first)));
    } else {
      CompensationCallbackLeaves(events, id, generation, second);
      WaitingVerdictIsRecorded(s, id, second.terminal, second.reconcile,
                               Step(s, CompensationFired(id, generation, second)));
    }
  }
}
