/** The promises of the reset protocol over every run, and the one promise it does not keep. */
module ResetTheorems {
  import opened Domain
  import opened ResetAudit
  import opened ResetProtocol
  import opened ResetSafety

  // ----- at most one consume -----

  /** The upstream credit is consumed at most once per key and removal of its record, over any interleaving of
      requests, cancellations, failed or ambiguous writes, recoveries and crashes. */
  lemma OneConsumePerRemoval(retention: int, steps: seq<Step>, k: Key)
    ensures var s := Run(Initial(retention), steps);
            Consumed(s.consumes, k) <= 1 + Removed(s.removals, k)
  {
    RunKeeps(retention, steps);
    assert KeyOk(Run(Initial(retention), steps), k);
  }

  lemma {:induction false} ConsumedCounts(consumes: seq<Consume>, c: Consume, d: Consume)
    requires c in consumes && d in consumes && c.key == d.key && c != d
    ensures Consumed(consumes, c.key) >= 2
  {
    var init, last := consumes[..|consumes| - 1], consumes[|consumes| - 1];
    if c in init && d in init {
      ConsumedCounts(init, c, d);
    } else if c in init {
      ConsumedAtLeastOnce(init, c);
    } else {
      ConsumedAtLeastOnce(init, d);
    }
  }

  lemma {:induction false} ConsumedAtLeastOnce(consumes: seq<Consume>, c: Consume)
    requires c in consumes
    ensures Consumed(consumes, c.key) >= 1
  {
    if c in consumes[..|consumes| - 1] { ConsumedAtLeastOnce(consumes[..|consumes| - 1], c); }
  }

  /** While no record of a key has been removed, its consume leaves a durable record of the same account, and a
      durable success or failure is what the upstream answered to that one consume. */
  lemma EvidenceIsDurableAndTrue(retention: int, steps: seq<Step>, c: Consume)
    requires c in Run(Initial(retention), steps).consumes
    requires Removed(Run(Initial(retention), steps).removals, c.key) == 0
    ensures var s := Run(Initial(retention), steps);
            && Consumed(s.consumes, c.key) == 1
            && c.key in s.book && s.book[c.key].account == c.account
            && (Definite(s.book[c.key].outcome) ==> s.book[c.key].outcome == c.outcome)
  {
    RunKeeps(retention, steps);
    var s := Run(Initial(retention), steps);
    assert KeyOk(s, c.key);
    ConsumedAtLeastOnce(s.consumes, c);
    if Definite(s.book[c.key].outcome) && s.book[c.key].outcome != c.outcome {
      var d :| d in s.consumes && d.key == c.key && d.outcome == s.book[c.key].outcome;
      ConsumedCounts(s.consumes, c, d);
      assert false;
    }
  }

  /** A success or failure, durable or told to any caller (the one that ran the request, one that waited for it or
      one that came later), is never made up. */
  lemma OutcomesAreWitnessed(retention: int, steps: seq<Step>, k: Key)
    requires Removed(Run(Initial(retention), steps).removals, k) == 0
    ensures var s := Run(Initial(retention), steps);
            && (k in s.book && Definite(s.book[k].outcome) ==> Witnessed(s.consumes, k, s.book[k].outcome))
            && (forall t :: t in s.threads && s.threads[t].key == k && s.threads[t].pc.Answered? ==>
                  AnswerIsTrue(s, k, s.threads[t].pc.answer))
  {
    RunKeeps(retention, steps);
    var s := Run(Initial(retention), steps);
    assert KeyOk(s, k);
    forall t | t in s.threads && s.threads[t].key == k && s.threads[t].pc.Answered?
      ensures AnswerIsTrue(s, k, s.threads[t].pc.answer)
    {
      assert PcOk(s, s.threads[t]);
    }
  }

  /** What a consume's outcome says about the upstream's answer: a success is a 2xx without an error, a failure is
      any other answer, and no answer or a deadline is neither. */
  lemma OutcomeReflectsTheAnswer(result: HttpResult)
    ensures FinalOutcome(result) == Succeeded <==> result.err.NoError? && 200 <= result.statusCode <= 299
    ensures FinalOutcome(result) == Failed <==>
              && result.statusCode != 0 && !result.err.DeadlineExceeded?
              && (result.err.NoError? ==> !(200 <= result.statusCode <= 299))
    ensures FinalOutcome(result) != Pending
  {
  }

  // ----- the account of a record -----

  predicate AccountKept(s: Protocol, u: Protocol, k: Key) {
    k in s.book && Removed(u.removals, k) == 0 ==> k in u.book && u.book[k].account == s.book[k].account
  }

  lemma DropsKeepsAccount(s: Protocol, c: Change, k: Key)
    requires Drops(s.book, c, k)
    ensures AccountKept(s, Changed(s, c), k)
  {
    RemovedAppended(s.removals, c.lost, k);
  }

  lemma ReadingKeepsAccount(s: Protocol, access: Access, k: Key)
    ensures AccountKept(s, Reading(s, access), k)
  {
    LoadingEffect(s.book, s.retention, access, k);
    DropsKeepsAccount(s, LoadingChange(s.book, s.retention, access), k);
  }

  lemma AppendKeepsAccount(s: Protocol, audit: Audit, access: Access, k: Key)
    ensures AccountKept(s, Changed(s, Append(s.book, s.retention, audit, access)), k)
  {
    AppendEffect(s.book, s.retention, audit, access, k);
    RemovedAppended(s.removals, Append(s.book, s.retention, audit, access).lost, k);
  }

  lemma ReplaceKeepsAccount(s: Protocol, audit: Audit, access: Access, k: Key)
    requires Removed(s.removals, audit.key) == 0 && audit.key in s.book ==> s.book[audit.key].account == audit.account
    ensures AccountKept(s, Changed(s, Replace(s.book, s.retention, audit, access)), k)
  {
    ReplaceEffect(s.book, s.retention, audit, access, k);
    RemovedAppended(s.removals, Replace(s.book, s.retention, audit, access).lost, k);
  }

  lemma AuditStepKeepsAccount(s: Protocol, step: Step, k: Key)
    requires step.AuditListed? || step.AuditCleared? || step.AuditDeleted? || step.AuditRecovered?
    ensures AccountKept(s, Next(s, step), k)
  {
    match step
    case AuditListed(access) => ReadingKeepsAccount(s, access, k);
    case AuditCleared(access) =>
      ClearEffect(s.book, access, k);
      DropsKeepsAccount(s, Clear(s.book, access), k);
    case AuditDeleted(cutoff, access) =>
      DeleteEffect(s.book, s.retention, cutoff, access, k);
      DropsKeepsAccount(s, Delete(s.book, s.retention, cutoff, access), k);
    case AuditRecovered(now, access) =>
      RecoverEffect(s.book, s.retention, now, access, k);
      RemovedAppended(s.removals, Recover(s.book, s.retention, now, access).lost, k);
  }

  /** The steps of a request that reach the audit file. */
  predicate UsesAudit(pc: Pc) {
    pc.Finding? || pc.Conflicting? || pc.Reloading? || pc.Appending? || pc.Replacing? || pc.Recovering?
  }

  predicate SameAudit(s: Protocol, u: Protocol) { u.book == s.book && u.removals == s.removals }

  lemma BeginSparesAudit(s: Protocol, t: ThreadId)
    requires t in s.threads
    ensures SameAudit(s, Begin(s, t))
  {
  }

  lemma FinishSparesAudit(s: Protocol, t: ThreadId, answer: Answer)
    requires t in s.threads
    ensures SameAudit(s, Finish(s, t, answer))
  {
  }

  lemma SpendSparesAudit(s: Protocol, t: ThreadId, audit: Audit, choice: Choice)
    requires t in s.threads
    ensures SameAudit(s, Spend(s, t, audit, choice))
  {
  }

  lemma WaitSparesAudit(s: Protocol, t: ThreadId, flight: nat, cancelled: bool)
    requires t in s.threads
    ensures SameAudit(s, Wait(s, t, flight, cancelled))
  {
  }

  lemma OtherStepsSpareAudit(s: Protocol, t: ThreadId, choice: Choice)
    requires t in s.threads && !UsesAudit(s.threads[t].pc)
    ensures SameAudit(s, AdvanceThread(s, t, choice))
  {
    match s.threads[t].pc
    case Beginning => BeginSparesAudit(s, t);
    case Finishing(answer) => FinishSparesAudit(s, t, answer);
    case InGate(audit) => SpendSparesAudit(s, t, audit, choice);
    case Waiting(flight) => WaitSparesAudit(s, t, flight, choice.cancelled);
    case _ =>
  }

  lemma UnownedKeepsAccount(s: Protocol, t: ThreadId, choice: Choice, k: Key)
    requires t in s.threads && PcOk(s, s.threads[t]) && UsesAudit(s.threads[t].pc) && !OwnsFlight(s.threads[t].pc)
    ensures AccountKept(s, AdvanceThread(s, t, choice), k)
  {
    var me := s.threads[t];
    match me.pc
    case Finding => ReadingKeepsAccount(s, choice.access, k);
    case Reloading(_) => ReadingKeepsAccount(s, choice.access, k);
    case Recovering(orphan) =>
      ReplaceKeepsAccount(s, orphan.(outcome := Unknown, finishedAt := choice.now), choice.access, k);
  }

  lemma OwnerKeepsAccount(s: Protocol, t: ThreadId, choice: Choice, k: Key)
    requires t in s.threads && PcOk(s, s.threads[t]) && UsesAudit(s.threads[t].pc) && OwnsFlight(s.threads[t].pc)
    ensures AccountKept(s, AdvanceThread(s, t, choice), k)
  {
    var me := s.threads[t];
    match me.pc
    case Conflicting => ReadingKeepsAccount(s, choice.access, k);
    case Appending => AppendKeepsAccount(s, Audit(me.key, me.account, choice.now, Pending, ZERO_TIME), choice.access, k);
    case Replacing(audit) => ReplaceKeepsAccount(s, audit, choice.access, k);
  }

  lemma AdvanceKeepsAccount(s: Protocol, t: ThreadId, choice: Choice, k: Key)
    requires Inv(s) && t in s.threads
    ensures AccountKept(s, AdvanceThread(s, t, choice), k)
  {
    if !UsesAudit(s.threads[t].pc) {
      OtherStepsSpareAudit(s, t, choice);
    } else if OwnsFlight(s.threads[t].pc) {
      OwnerKeepsAccount(s, t, choice, k);
    } else {
      UnownedKeepsAccount(s, t, choice, k);
    }
  }

  lemma NextKeepsAccount(s: Protocol, step: Step, k: Key)
    requires Inv(s)
    ensures AccountKept(s, Next(s, step), k)
    ensures Removed(s.removals, k) <= Removed(Next(s, step).removals, k)
  {
    RemovedGrows(s, step, k);
    match step
    case Advance(t, choice) =>
      if t in s.threads { AdvanceKeepsAccount(s, t, choice, k); }
    case AuditListed(_) => AuditStepKeepsAccount(s, step, k);
    case AuditCleared(_) => AuditStepKeepsAccount(s, step, k);
    case AuditDeleted(_, _) => AuditStepKeepsAccount(s, step, k);
    case AuditRecovered(_, _) => AuditStepKeepsAccount(s, step, k);
    case _ =>
  }

  predicate RemovalsExtend(s: Protocol, u: Protocol) {
    u.removals == s.removals || (|u.removals| == |s.removals| + 1 && u.removals[..|s.removals|] == s.removals)
  }

  lemma ReadingExtends(s: Protocol, t: ThreadId, access: Access, pc: Pc)
    requires t in s.threads
    ensures RemovalsExtend(s, Goto(Reading(s, access), t, pc))
  {
  }

  lemma WritesExtend(s: Protocol, t: ThreadId, audit: Audit, choice: Choice)
    requires t in s.threads
    ensures RemovalsExtend(s, AppendPending(s, t, choice))
    ensures RemovalsExtend(s, ReplaceAudit(s, t, audit, choice.access))
    ensures RemovalsExtend(s, RecoverOrphan(s, t, audit, choice))
  {
  }

  lemma ReloadExtends(s: Protocol, t: ThreadId, flight: nat, access: Access)
    requires t in s.threads
    ensures RemovalsExtend(s, Reload(s, t, flight, access))
  {
    if flight in s.landings {
      ReadingExtends(s, t, access, Answered(AfterReload(Find(s.book, s.retention, s.threads[t].key, access),
                                                        s.landings[flight].answer)));
    }
  }

  lemma AdvanceExtends(s: Protocol, t: ThreadId, choice: Choice)
    requires t in s.threads && UsesAudit(s.threads[t].pc)
    ensures RemovalsExtend(s, AdvanceThread(s, t, choice))
  {
    var me := s.threads[t];
    match me.pc
    case Finding =>
      ReadingExtends(s, t, choice.access, AfterFind(Find(s.book, s.retention, me.key, choice.access), me.account));
    case Conflicting =>
      ReadingExtends(s, t, choice.access, AfterConflict(Find(s.book, s.retention, me.key, choice.access), me.account));
    case Reloading(flight) => ReloadExtends(s, t, flight, choice.access);
    case Appending => WritesExtend(s, t, Audit(me.key, me.account, choice.now, Pending, ZERO_TIME), choice);
    case Replacing(audit) => WritesExtend(s, t, audit, choice);
    case Recovering(orphan) => WritesExtend(s, t, orphan, choice);
  }

  lemma RemovedGrows(s: Protocol, step: Step, k: Key)
    ensures Removed(s.removals, k) <= Removed(Next(s, step).removals, k)
  {
    var u := Next(s, step);
    if step.Advance? && step.thread in s.threads {
      if UsesAudit(s.threads[step.thread].pc) {
        AdvanceExtends(s, step.thread, step.choice);
      } else {
        OtherStepsSpareAudit(s, step.thread, step.choice);
      }
    }
    assert RemovalsExtend(s, u);
  }

  /** A record keeps its account for as long as it is not removed. */
  lemma {:induction false} AccountNeverChanges(s: Protocol, steps: seq<Step>, k: Key)
    requires Inv(s) && k in s.book && Removed(Run(s, steps).removals, k) == 0
    ensures Inv(Run(s, steps))
    ensures k in Run(s, steps).book && Run(s, steps).book[k].account == s.book[k].account
  {
    if steps != [] {
      var init := steps[..|steps| - 1];
      var before := Run(s, init);
      InvHolds(s, init);
      NextKeepsAccount(before, steps[|steps| - 1], k);
      AccountNeverChanges(s, init, k);
      NextKeeps(before, steps[|steps| - 1]);
    }
  }

  lemma {:induction false} InvHolds(s: Protocol, steps: seq<Step>)
    requires Inv(s)
    ensures Inv(Run(s, steps))
  {
    if steps != [] {
      InvHolds(s, steps[..|steps| - 1]);
      NextKeeps(Run(s, steps[..|steps| - 1]), steps[|steps| - 1]);
    }
  }

  // ----- a terminal outcome is not final -----

  /** The step of a request that took a pending record for an orphan, found no flight when it first looked, and
      now gets its verdict onto the disk. */
  predicate RecoversOrphan(s: Protocol, step: Step, k: Key) {
    && step.Advance? && step.thread in s.threads
    && s.threads[step.thread].key == k && s.threads[step.thread].pc.Recovering?
    && Loading(s.book, s.retention, step.choice.access).found.Records? && !step.choice.access.write.Lost?
  }

  predicate OutcomeKept(s: Protocol, u: Protocol, k: Key) {
    k in u.book && k in s.book && u.book[k].outcome == s.book[k].outcome
  }

  /** A definite record that nobody has removed. */
  predicate Terminal(s: Protocol, u: Protocol, k: Key) {
    k in s.book && Definite(s.book[k].outcome) && Removed(u.removals, k) == 0
  }

  lemma DropsKeepsOutcome(s: Protocol, c: Change, k: Key)
    requires Drops(s.book, c, k) && Terminal(s, Changed(s, c), k)
    ensures OutcomeKept(s, Changed(s, c), k)
  {
    RemovedAppended(s.removals, c.lost, k);
  }

  lemma ReadingKeepsOutcome(s: Protocol, access: Access, k: Key)
    requires Terminal(s, Reading(s, access), k)
    ensures OutcomeKept(s, Reading(s, access), k)
  {
    LoadingEffect(s.book, s.retention, access, k);
    DropsKeepsOutcome(s, LoadingChange(s.book, s.retention, access), k);
  }

  lemma AppendKeepsOutcome(s: Protocol, audit: Audit, access: Access, k: Key)
    requires Terminal(s, Changed(s, Append(s.book, s.retention, audit, access)), k)
    ensures OutcomeKept(s, Changed(s, Append(s.book, s.retention, audit, access)), k)
  {
    AppendEffect(s.book, s.retention, audit, access, k);
    RemovedAppended(s.removals, Append(s.book, s.retention, audit, access).lost, k);
  }

  lemma ReplaceOthersKeepsOutcome(s: Protocol, audit: Audit, access: Access, k: Key)
    requires k != audit.key && Terminal(s, Changed(s, Replace(s.book, s.retention, audit, access)), k)
    ensures OutcomeKept(s, Changed(s, Replace(s.book, s.retention, audit, access)), k)
  {
    ReplaceEffect(s.book, s.retention, audit, access, k);
    DropsKeepsOutcome(s, Replace(s.book, s.retention, audit, access), k);
  }

  lemma ReplaceOwnOutcome(s: Protocol, audit: Audit, access: Access)
    requires Terminal(s, Changed(s, Replace(s.book, s.retention, audit, access)), audit.key)
    ensures var u := Changed(s, Replace(s.book, s.retention, audit, access));
            && audit.key in u.book
            && u.book[audit.key].outcome
               == if Loading(s.book, s.retention, access).found.Records? && !access.write.Lost? then audit.outcome
                  else s.book[audit.key].outcome
  {
    RemovedAppended(s.removals, Replace(s.book, s.retention, audit, access).lost, audit.key);
  }

  lemma AuditStepKeepsOutcome(s: Protocol, step: Step, k: Key)
    requires step.AuditListed? || step.AuditCleared? || step.AuditDeleted? || step.AuditRecovered?
    requires Terminal(s, Next(s, step), k)
    ensures OutcomeKept(s, Next(s, step), k)
  {
    match step
    case AuditListed(access) => ReadingKeepsOutcome(s, access, k);
    case AuditCleared(access) =>
      ClearEffect(s.book, access, k);
      DropsKeepsOutcome(s, Clear(s.book, access), k);
    case AuditDeleted(cutoff, access) =>
      DeleteEffect(s.book, s.retention, cutoff, access, k);
      DropsKeepsOutcome(s, Delete(s.book, s.retention, cutoff, access), k);
    case AuditRecovered(now, access) =>
      RecoverEffect(s.book, s.retention, now, access, k);
      RemovedAppended(s.removals, Recover(s.book, s.retention, now, access).lost, k);
  }

  lemma AdvanceOutcome(s: Protocol, t: ThreadId, choice: Choice, k: Key)
    requires t in s.threads && PcOk(s, s.threads[t]) && UsesAudit(s.threads[t].pc)
    requires Removed(s.removals, k) == 0
    requires Terminal(s, AdvanceThread(s, t, choice), k)
    ensures k in AdvanceThread(s, t, choice).book
    ensures AdvanceThread(s, t, choice).book[k].outcome
            == if RecoversOrphan(s, Advance(t, choice), k) then Unknown else s.book[k].outcome
  {
    var me := s.threads[t];
    match me.pc
    case Finding => ReadingKeepsOutcome(s, choice.access, k);
    case Conflicting => ReadingKeepsOutcome(s, choice.access, k);
    case Reloading(flight) => ReloadOutcome(s, t, flight, choice.access, k);
    case Appending => AppendKeepsOutcome(s, Audit(me.key, me.account, choice.now, Pending, ZERO_TIME), choice.access, k);
    case Replacing(audit) => ReplaceOthersKeepsOutcome(s, audit, choice.access, k);
    case Recovering(orphan) =>
      var record := orphan.(outcome := Unknown, finishedAt := choice.now);
      if k == me.key { ReplaceOwnOutcome(s, record, choice.access); }
      else { ReplaceOthersKeepsOutcome(s, record, choice.access, k); }
  }

  lemma AdvanceOutcomeAlways(s: Protocol, t: ThreadId, choice: Choice, k: Key)
    requires t in s.threads && PcOk(s, s.threads[t]) && Removed(s.removals, k) == 0
    requires Terminal(s, AdvanceThread(s, t, choice), k)
    ensures k in AdvanceThread(s, t, choice).book
    ensures AdvanceThread(s, t, choice).book[k].outcome
            == if RecoversOrphan(s, Advance(t, choice), k) then Unknown else s.book[k].outcome
  {
    if UsesAudit(s.threads[t].pc) {
      AdvanceOutcome(s, t, choice, k);
    } else {
      OtherStepsSpareAudit(s, t, choice);
    }
  }

  lemma ReloadOutcome(s: Protocol, t: ThreadId, flight: nat, access: Access, k: Key)
    requires t in s.threads && Terminal(s, Reload(s, t, flight, access), k)
    ensures OutcomeKept(s, Reload(s, t, flight, access), k)
  {
    if Reload(s, t, flight, access).removals == Reading(s, access).removals { ReadingKeepsOutcome(s, access, k); }
  }

  lemma OutcomeAfter(s: Protocol, step: Step, k: Key)
    requires Inv(s) && Terminal(s, Next(s, step), k) && Removed(s.removals, k) == 0
    ensures k in Next(s, step).book
    ensures Next(s, step).book[k].outcome == if RecoversOrphan(s, step, k) then Unknown else s.book[k].outcome
  {
    if step.Advance? {
      if step.thread in s.threads { AdvanceOutcomeAlways(s, step.thread, step.choice, k); }
    } else if step.AuditListed? || step.AuditCleared? || step.AuditDeleted? || step.AuditRecovered? {
      AuditStepKeepsOutcome(s, step, k);
    }
  }

  /** A durable success or failure whose record is not removed changes in a step exactly when a racing orphan
      recovery of that key reaches the disk, and then it becomes unknown. */
  lemma OutcomeChangesExactlyWhen(s: Protocol, step: Step, k: Key)
    requires Inv(s) && Terminal(s, Next(s, step), k)
    ensures k in Next(s, step).book
    ensures Next(s, step).book[k].outcome == if RecoversOrphan(s, step, k) then Unknown else s.book[k].outcome
    ensures Next(s, step).book[k].outcome != s.book[k].outcome <==> RecoversOrphan(s, step, k)
  {
    RemovedGrows(s, step, k);
    OutcomeAfter(s, step, k);
  }
}
