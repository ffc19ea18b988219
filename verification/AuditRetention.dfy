/** What every operation of the reset audit leaves on the disk, and what can ever remove a record, told from request
    times, cutoffs and how the writes end. */
module AuditRetention {
  import opened Domain
  import opened ResetAudit
  import opened ResetProtocol
  import opened ResetSafety
  import opened ResetTheorems

  // ----- retention -----

  ghost predicate TooOld(a: Audit, cutoff: Instant) {
    a.requestedAt != 0 && a.requestedAt < cutoff
  }

  /** A positive retention drops what was requested longer ago; a record without a request time is never dropped. */
  ghost predicate Outlived(a: Audit, retention: int, now: Instant) {
    retention > 0 && TooOld(a, now - retention)
  }

  /** The records that have not outlived the retention. */
  ghost function Young(book: Book, retention: int, now: Instant): Book {
    map k | k in book && !Outlived(book[k], retention, now) :: book[k]
  }

  /** A load succeeds if the file can be read and nothing has to be dropped, or the rewrite is confirmed. */
  ghost predicate Loads(book: Book, retention: int, env: Access) {
    env.readable && (Young(book, retention, env.now) == book || env.trim == Ok)
  }

  /** The file after a load: without what is too old, unless it could not be read or the rewrite was lost. */
  ghost function AfterLoad(book: Book, retention: int, env: Access): Book {
    if env.readable && env.trim != Lost then Young(book, retention, env.now) else book
  }

  lemma LoadingLeaves(book: Book, retention: int, env: Access)
    ensures var l := Loading(book, retention, env);
            && l.disk == AfterLoad(book, retention, env)
            && l.found == if Loads(book, retention, env) then Records(Young(book, retention, env.now))
                          else if env.readable && env.trimMissing then Missing else Unreadable
  {
    if retention > 0 {
      assert Young(book, retention, env.now) == Trim(book, env.now - retention);
    } else {
      assert Young(book, retention, env.now) == book;
    }
  }

  /** After loading, a record is on the disk if and only if it was and it has not outlived the retention, or nothing
      was rewritten. */
  lemma LoadKeepsExactlyWhen(book: Book, retention: int, env: Access, k: Key)
    ensures var disk := Loading(book, retention, env).disk;
            && (k in disk <==> k in book && (|| retention <= 0 || book[k].requestedAt == 0
                                             || book[k].requestedAt >= env.now - retention
                                             || !env.readable || env.trim == Lost))
            && (k in disk ==> disk[k] == book[k])
  {
    LoadingLeaves(book, retention, env);
  }

  // ----- the operations -----

  ghost function Told(write: Write): Verdict { if write == Ok then Done else Failure }

  /** Finding a key answers with its record unless that has outlived the retention, and only if the load succeeds. */
  lemma FindAnswers(book: Book, retention: int, key: Key, env: Access)
    ensures Find(book, retention, key, env)
         == if !Loads(book, retention, env) then Unreadable
            else Records(if key in book && !Outlived(book[key], retention, env.now) then Some(book[key]) else None)
  {
    LoadingLeaves(book, retention, env);
  }

  /** Appending refuses a key that has a record, adds a new one to what the load kept, and starts a new history when the
      retention rewrite fails with a not-exist error. */
  lemma AppendLeaves(book: Book, retention: int, audit: Audit, env: Access)
    ensures var c, young := Append(book, retention, audit, env), Young(book, retention, env.now);
            var disk := AfterLoad(book, retention, env);
            if Loads(book, retention, env) then
              if audit.key in young then c.book == young && c.verdict == Conflict
              else c.book == (if env.write == Lost then young else young[audit.key := audit])
                   && c.verdict == Told(env.write)
            else if env.readable && env.trimMissing then
              c.book == (if env.write == Lost then disk else map[audit.key := audit]) && c.verdict == Told(env.write)
            else c.book == disk && c.verdict == Failure
  {
    LoadingLeaves(book, retention, env);
  }

  /** Replacing changes the record of the key, and fails without one. */
  lemma ReplaceLeaves(book: Book, retention: int, audit: Audit, env: Access)
    ensures var c, young := Replace(book, retention, audit, env), Young(book, retention, env.now);
            if Loads(book, retention, env) && audit.key in young then
              c.book == (if env.write == Lost then young else young[audit.key := audit])
              && c.verdict == Told(env.write)
            else c.book == AfterLoad(book, retention, env) && c.verdict == Failure
  {
    LoadingLeaves(book, retention, env);
  }

  /** Deleting drops exactly what was requested before the cutoff, and succeeds if there is nothing to drop. */
  lemma DeleteLeaves(book: Book, retention: int, cutoff: Instant, env: Access)
    ensures var c, young := Delete(book, retention, cutoff, env), Young(book, retention, env.now);
            if !Loads(book, retention, env) then c.book == AfterLoad(book, retention, env) && c.verdict == Failure
            else
              && (forall k :: k in c.book <==> k in young && (env.write == Lost || !TooOld(young[k], cutoff)))
              && (forall k :: k in c.book ==> c.book[k] == young[k])
              && (c.verdict == Done <==> env.write == Ok || forall k :: k in young ==> !TooOld(young[k], cutoff))
              && c.verdict != Conflict
  {
    LoadingLeaves(book, retention, env);
    var young := Young(book, retention, env.now);
    if forall k :: k in young ==> !TooOld(young[k], cutoff) {
      assert Trim(young, cutoff) == young;
    } else {
      var k :| k in young && TooOld(young[k], cutoff);
      assert k !in Trim(young, cutoff);
    }
  }

  /** Recovering makes exactly the pending outcomes unknown, as of now. */
  lemma RecoverLeaves(book: Book, retention: int, now: Instant, env: Access)
    ensures var c, young := Recover(book, retention, now, env), Young(book, retention, env.now);
            if !Loads(book, retention, env) then c.book == AfterLoad(book, retention, env) && c.verdict == Failure
            else
              && c.book.Keys == young.Keys
              && (forall k :: k in young ==>
                    c.book[k] == if young[k].outcome == Pending && env.write != Lost
                                 then young[k].(outcome := Unknown, finishedAt := now) else young[k])
              && (c.verdict == Done <==> env.write == Ok || forall k :: k in young ==> young[k].outcome != Pending)
              && c.verdict != Conflict
  {
    LoadingLeaves(book, retention, env);
    var young := Young(book, retention, env.now);
    if forall k :: k in young ==> young[k].outcome != Pending {
      assert Settle(young, now) == young;
    } else {
      var k :| k in young && young[k].outcome == Pending;
      assert Settle(young, now)[k] != young[k];
    }
  }

  lemma ClearLeaves(book: Book, env: Access)
    ensures Clear(book, env).book == (if env.write == Lost then book else map[])
    ensures Clear(book, env).verdict == Told(env.write)
  {
  }

  // ----- removals -----

  /** The access of a step that reaches the audit file. */
  ghost function AccessOf(s: Protocol, step: Step): Option<Access> {
    match step
    case Advance(t, choice) => if t in s.threads && UsesAudit(s.threads[t].pc) then Some(choice.access) else None
    case AuditListed(access) => Some(access)
    case AuditCleared(access) => Some(access)
    case AuditDeleted(_, access) => Some(access)
    case AuditRecovered(_, access) => Some(access)
    case _ => None
  }

  /** Why a step may remove a record: the audit is cleared, a request appends after its retention rewrite failed with a
      not-exist error, or the record was requested before a cutoff of that step. */
  ghost predicate MayRemove(s: Protocol, step: Step, a: Audit) {
    && AccessOf(s, step).Some?
    && var access := AccessOf(s, step).value;
       || (step.AuditCleared? && access.write != Lost)
       || (step.Advance? && s.threads[step.thread].pc.Appending? && access.readable && access.trimMissing
           && access.write != Lost)
       || (!step.AuditCleared? && access.readable && Outlived(a, s.retention, access.now))
       || (step.AuditDeleted? && access.write != Lost && TooOld(a, step.cutoff))
  }

  /** The keys one operation reports as lost are keys it dropped for a cause, and it reports every key it dropped. */
  ghost predicate LostFor(book: Book, after: Book, lost: set<Key>, cause: Audit -> bool) {
    && (forall k :: k in lost ==> k in book && cause(book[k]))
    && (forall k :: k in book && k !in after ==> k in lost)
  }

  lemma LoadingLoses(book: Book, retention: int, env: Access)
    ensures var disk := Loading(book, retention, env).disk;
            LostFor(book, disk, book.Keys - disk.Keys, a => env.readable && Outlived(a, retention, env.now))
  {
    LoadingLeaves(book, retention, env);
  }

  lemma AppendLoses(book: Book, retention: int, audit: Audit, env: Access)
    ensures var c := Append(book, retention, audit, env);
            LostFor(book, c.book, c.lost,
                    a => env.readable && (Outlived(a, retention, env.now) || (env.trimMissing && env.write != Lost)))
  {
    LoadingLeaves(book, retention, env);
    AppendLeaves(book, retention, audit, env);
  }

  lemma ReplaceLoses(book: Book, retention: int, audit: Audit, env: Access)
    ensures var c := Replace(book, retention, audit, env);
            LostFor(book, c.book, c.lost, a => env.readable && Outlived(a, retention, env.now))
  {
    LoadingLeaves(book, retention, env);
    ReplaceLeaves(book, retention, audit, env);
  }

  lemma DeleteLoses(book: Book, retention: int, cutoff: Instant, env: Access)
    ensures var c := Delete(book, retention, cutoff, env);
            LostFor(book, c.book, c.lost, a => env.readable && (|| Outlived(a, retention, env.now)
                                                                || (env.write != Lost && TooOld(a, cutoff))))
  {
    LoadingLeaves(book, retention, env);
    DeleteLeaves(book, retention, cutoff, env);
  }

  lemma RecoverLoses(book: Book, retention: int, now: Instant, env: Access)
    ensures var c := Recover(book, retention, now, env);
            LostFor(book, c.book, c.lost, a => env.readable && Outlived(a, retention, env.now))
  {
    LoadingLeaves(book, retention, env);
    RecoverLeaves(book, retention, now, env);
  }

  /** What one step makes of the history of removals, as far as one key is concerned. */
  ghost predicate RemovesFor(s: Protocol, step: Step, u: Protocol, k: Key) {
    && Removed(s.removals, k) <= Removed(u.removals, k) <= Removed(s.removals, k) + 1
    && (Removed(u.removals, k) > Removed(s.removals, k) ==> k in s.book && MayRemove(s, step, s.book[k]))
    && (k in s.book && k !in u.book ==> Removed(u.removals, k) > Removed(s.removals, k))
  }

  lemma ChangeRemoves(s: Protocol, step: Step, u: Protocol, c: Change, cause: Audit -> bool, k: Key)
    requires LostFor(s.book, c.book, c.lost, cause) && u.book == c.book && u.removals == s.removals + [c.lost]
    requires forall a :: cause(a) ==> MayRemove(s, step, a)
    ensures RemovesFor(s, step, u, k)
  {
    RemovedAppended(s.removals, c.lost, k);
  }

  ghost function ByAge(s: Protocol, env: Access): Audit -> bool {
    a => env.readable && Outlived(a, s.retention, env.now)
  }

  lemma ReadingRemoves(s: Protocol, step: Step, u: Protocol, env: Access, k: Key)
    requires AccessOf(s, step) == Some(env) && !step.AuditCleared?
    requires u.book == Reading(s, env).book && u.removals == Reading(s, env).removals
    ensures RemovesFor(s, step, u, k)
  {
    LoadingLoses(s.book, s.retention, env);
    var disk := Loading(s.book, s.retention, env).disk;
    ChangeRemoves(s, step, u, Change(disk, s.book.Keys - disk.Keys, Done), ByAge(s, env), k);
  }

  lemma ReplaceRemoves(s: Protocol, step: Step, u: Protocol, audit: Audit, env: Access, k: Key)
    requires AccessOf(s, step) == Some(env) && !step.AuditCleared?
    requires var c := Replace(s.book, s.retention, audit, env); u.book == c.book && u.removals == s.removals + [c.lost]
    ensures RemovesFor(s, step, u, k)
  {
    ReplaceLoses(s.book, s.retention, audit, env);
    ChangeRemoves(s, step, u, Replace(s.book, s.retention, audit, env), ByAge(s, env), k);
  }

  lemma AppendRemoves(s: Protocol, t: ThreadId, choice: Choice, k: Key)
    requires t in s.threads && s.threads[t].pc.Appending?
    ensures RemovesFor(s, Advance(t, choice), AppendPending(s, t, choice), k)
  {
    var me, env := s.threads[t], choice.access;
    var audit := Audit(me.key, me.account, choice.now, Pending, ZERO_TIME);
    AppendLoses(s.book, s.retention, audit, env);
    ChangeRemoves(s, Advance(t, choice), AppendPending(s, t, choice), Append(s.book, s.retention, audit, env),
      a => env.readable && (Outlived(a, s.retention, env.now) || (env.trimMissing && env.write != Lost)), k);
  }

  lemma ReloadRemoves(s: Protocol, t: ThreadId, flight: nat, choice: Choice, k: Key)
    requires t in s.threads && s.threads[t].pc == Reloading(flight)
    ensures RemovesFor(s, Advance(t, choice), Reload(s, t, flight, choice.access), k)
  {
    var u := Reload(s, t, flight, choice.access);
    if u.removals != s.removals { ReadingRemoves(s, Advance(t, choice), u, choice.access, k); }
  }

  lemma AdvanceRemoves(s: Protocol, t: ThreadId, choice: Choice, k: Key)
    requires t in s.threads && UsesAudit(s.threads[t].pc)
    ensures RemovesFor(s, Advance(t, choice), AdvanceThread(s, t, choice), k)
  {
    var step, u := Advance(t, choice), AdvanceThread(s, t, choice);
    match s.threads[t].pc
    case Appending => AppendRemoves(s, t, choice, k);
    case Replacing(audit) => ReplaceRemoves(s, step, u, audit, choice.access, k);
    case Recovering(orphan) =>
      ReplaceRemoves(s, step, u, orphan.(outcome := Unknown, finishedAt := choice.now), choice.access, k);
    case Reloading(flight) => ReloadRemoves(s, t, flight, choice, k);
    case _ => ReadingRemoves(s, step, u, choice.access, k);
  }

  lemma ClearRemoves(s: Protocol, env: Access, k: Key)
    ensures RemovesFor(s, AuditCleared(env), Changed(s, Clear(s.book, env)), k)
  {
    ChangeRemoves(s, AuditCleared(env), Changed(s, Clear(s.book, env)), Clear(s.book, env), a => env.write != Lost, k);
  }

  lemma DeleteRemoves(s: Protocol, cutoff: Instant, env: Access, k: Key)
    ensures RemovesFor(s, AuditDeleted(cutoff, env), Changed(s, Delete(s.book, s.retention, cutoff, env)), k)
  {
    var c := Delete(s.book, s.retention, cutoff, env);
    DeleteLoses(s.book, s.retention, cutoff, env);
    ChangeRemoves(s, AuditDeleted(cutoff, env), Changed(s, c), c,
      a => env.readable && (Outlived(a, s.retention, env.now) || (env.write != Lost && TooOld(a, cutoff))), k);
  }

  lemma RecoverRemoves(s: Protocol, now: Instant, env: Access, k: Key)
    ensures RemovesFor(s, AuditRecovered(now, env), Changed(s, Recover(s.book, s.retention, now, env)), k)
  {
    var c := Recover(s.book, s.retention, now, env);
    RecoverLoses(s.book, s.retention, now, env);
    ChangeRemoves(s, AuditRecovered(now, env), Changed(s, c), c, ByAge(s, env), k);
  }

  /** Over every step: a record is removed, and the removal counted, only because the audit is cleared, because a request
      appends after a not-exist error, or because the record was requested before a cutoff of that step. */
  lemma RemovalsHaveACause(s: Protocol, step: Step, k: Key)
    ensures RemovesFor(s, step, Next(s, step), k)
  {
    match step
    case Advance(t, choice) =>
      if t in s.threads {
        if UsesAudit(s.threads[t].pc) { AdvanceRemoves(s, t, choice, k); } else { OtherStepsSpareAudit(s, t, choice); }
      }
    case AuditListed(env) => ReadingRemoves(s, step, Next(s, step), env, k);
    case AuditCleared(env) => ClearRemoves(s, env, k);
    case AuditDeleted(cutoff, env) => DeleteRemoves(s, cutoff, env, k);
    case AuditRecovered(now, env) => RecoverRemoves(s, now, env, k);
    case _ =>
  }

  // ----- within one retention period -----

  predicate Since(a: Audit, from: Instant) { a.requestedAt == 0 || from <= a.requestedAt }

  predicate CalmAccess(env: Access, retention: int, from: Instant) {
    !env.trimMissing && (retention > 0 ==> env.now - retention <= from)
  }

  /** Nothing is cleared, no not-exist error occurs, no cutoff lies after `from`, and requests are dated from then on. */
  predicate Calm(step: Step, retention: int, from: Instant) {
    match step
    case Advance(_, choice) => from <= choice.now && CalmAccess(choice.access, retention, from)
    case AuditListed(env) => CalmAccess(env, retention, from)
    case AuditCleared(env) => env.write == Lost
    case AuditDeleted(cutoff, env) => cutoff <= from && CalmAccess(env, retention, from)
    case AuditRecovered(_, env) => CalmAccess(env, retention, from)
    case _ => true
  }

  predicate PcSince(pc: Pc, from: Instant) {
    match pc
    case Recovering(a) => Since(a, from)
    case AtGate(a) => Since(a, from)
    case InGate(a) => Since(a, from)
    case Replacing(a) => Since(a, from)
    case _ => true
  }

  /** What holds of all records, and stays so with the retention. */
  ghost predicate StaysSince(s: Protocol, u: Protocol, from: Instant) {
    AllSince(s, from) ==> AllSince(u, from) && u.retention == s.retention
  }

  ghost predicate AllSince(s: Protocol, from: Instant) {
    && (forall k :: k in s.book ==> Since(s.book[k], from))
    && (forall t :: t in s.threads ==> PcSince(s.threads[t].pc, from))
  }

  /** Every record was there, with another outcome perhaps, or is the one that was written. */
  ghost predicate BookSince(book: Book, after: Book, from: Instant) {
    (forall k :: k in book ==> Since(book[k], from)) ==> forall k :: k in after ==> Since(after[k], from)
  }

  lemma OperationsSince(book: Book, retention: int, audit: Audit, now: Instant, env: Access, cutoff: Instant, from: Instant)
    requires Since(audit, from)
    ensures BookSince(book, Loading(book, retention, env).disk, from)
    ensures BookSince(book, Append(book, retention, audit, env).book, from)
    ensures BookSince(book, Replace(book, retention, audit, env).book, from)
    ensures BookSince(book, Delete(book, retention, cutoff, env).book, from)
    ensures BookSince(book, Recover(book, retention, now, env).book, from)
  {
    LoadingLeaves(book, retention, env);
  }

  lemma GotoSince(s: Protocol, u: Protocol, t: ThreadId, pc: Pc, from: Instant)
    requires t in s.threads && u.threads == s.threads && u.retention == s.retention && PcSince(pc, from)
    requires BookSince(s.book, u.book, from)
    ensures StaysSince(s, Goto(u, t, pc), from)
  {
  }

  lemma ReadingSince(s: Protocol, t: ThreadId, pc: Pc, env: Access, from: Instant)
    requires t in s.threads && PcSince(pc, from)
    ensures StaysSince(s, Goto(Reading(s, env), t, pc), from)
  {
    LoadingLeaves(s.book, s.retention, env);
    GotoSince(s, Reading(s, env), t, pc, from);
  }

  lemma FindingSince(s: Protocol, t: ThreadId, env: Access, from: Instant)
    requires t in s.threads && AllSince(s, from)
    ensures var me := s.threads[t];
            StaysSince(s, Goto(Reading(s, env), t, AfterFind(Find(s.book, s.retention, me.key, env), me.account)), from)
  {
    var me := s.threads[t];
    FindAnswers(s.book, s.retention, me.key, env);
    ReadingSince(s, t, AfterFind(Find(s.book, s.retention, me.key, env), me.account), env, from);
  }

  lemma ReloadSince(s: Protocol, t: ThreadId, flight: nat, env: Access, from: Instant)
    requires t in s.threads
    ensures StaysSince(s, Reload(s, t, flight, env), from)
  {
    if flight in s.landings {
      var landed := s.landings[flight].answer;
      GotoSince(s, s, t, Answered(landed), from);
      ReadingSince(s, t, Answered(AfterReload(Find(s.book, s.retention, s.threads[t].key, env), landed)), env, from);
    }
  }

  lemma JoinSince(s: Protocol, t: ThreadId, from: Instant)
    requires t in s.threads && s.threads[t].key in s.flights
    ensures StaysSince(s, Join(s, t), from)
  {
    var flight := s.flights[s.threads[t].key];
    GotoSince(s, s, t, if flight.account == s.threads[t].account then Waiting(flight.id) else Answered(REFUSED), from);
  }

  lemma BeginSince(s: Protocol, t: ThreadId, from: Instant)
    requires t in s.threads
    ensures StaysSince(s, Begin(s, t), from)
  {
    var me := s.threads[t];
    if me.key in s.flights {
      JoinSince(s, t, from);
    } else {
      GotoSince(s, s, t, Answered(REFUSED), from);
      GotoSince(s, s.(busy := s.busy + {me.account},
                      flights := s.flights[me.key := Flight(s.nextFlight, me.account, t)],
                      nextFlight := s.nextFlight + 1), t, Refreshing, from);
    }
  }

  lemma FinishSince(s: Protocol, t: ThreadId, answer: Answer, from: Instant)
    requires t in s.threads
    ensures StaysSince(s, Finish(s, t, answer), from)
  {
    var me := s.threads[t];
    GotoSince(s, s, t, Answered(answer), from);
    if me.key in s.flights {
      var flight := s.flights[me.key];
      GotoSince(s, s.(flights := s.flights - {me.key}, busy := s.busy - {flight.account},
                      landings := s.landings[flight.id := Landing(me.key, answer)]), t, Answered(answer), from);
    }
  }

  lemma SpendSince(s: Protocol, t: ThreadId, audit: Audit, choice: Choice, from: Instant)
    requires t in s.threads && Since(audit, from)
    ensures StaysSince(s, Spend(s, t, audit, choice), from)
  {
  }

  lemma AppendingSince(s: Protocol, t: ThreadId, choice: Choice, from: Instant)
    requires t in s.threads && from <= choice.now
    ensures StaysSince(s, AppendPending(s, t, choice), from)
  {
    var me := s.threads[t];
    var audit := Audit(me.key, me.account, choice.now, Pending, ZERO_TIME);
    OperationsSince(s.book, s.retention, audit, 0, choice.access, 0, from);
    var c := Append(s.book, s.retention, audit, choice.access);
    GotoSince(s, Changed(s, c), t, match c.verdict
                                   case Done => AtGate(audit)
                                   case Conflict => Conflicting
                                   case Failure => Finishing(REFUSED), from);
  }

  lemma ReplacingSince(s: Protocol, t: ThreadId, audit: Audit, access: Access, from: Instant)
    requires t in s.threads && Since(audit, from)
    ensures StaysSince(s, ReplaceAudit(s, t, audit, access), from)
  {
    OperationsSince(s.book, s.retention, audit, 0, access, 0, from);
    var c := Replace(s.book, s.retention, audit, access);
    GotoSince(s, Changed(s, c), t,
              if c.verdict.Done? then Finishing(Answer(Some(audit.outcome), audit.outcome.Unknown?))
              else Finishing(Answer(Some(Unknown), true)), from);
  }

  lemma RecoveringSince(s: Protocol, t: ThreadId, orphan: Audit, choice: Choice, from: Instant)
    requires t in s.threads && Since(orphan, from)
    ensures StaysSince(s, RecoverOrphan(s, t, orphan, choice), from)
  {
    var audit := orphan.(outcome := Unknown, finishedAt := choice.now);
    OperationsSince(s.book, s.retention, audit, 0, choice.access, 0, from);
    var c := Replace(s.book, s.retention, audit, choice.access);
    GotoSince(s, Changed(s, c), t,
              Answered(if c.verdict.Done? then Answer(Some(Unknown), false) else Answer(Some(Pending), true)), from);
  }

  lemma AdvanceSince(s: Protocol, t: ThreadId, choice: Choice, from: Instant)
    requires t in s.threads && AllSince(s, from) && from <= choice.now
    ensures StaysSince(s, AdvanceThread(s, t, choice), from)
  {
    var me := s.threads[t];
    assert PcSince(me.pc, from);
    match me.pc
    case Recovering(orphan) => RecoveringSince(s, t, orphan, choice, from);
    case Replacing(audit) => ReplacingSince(s, t, audit, choice.access, from);
    case Appending => AppendingSince(s, t, choice, from);
    case Finding => FindingSince(s, t, choice.access, from);
    case Conflicting =>
      ReadingSince(s, t, AfterConflict(Find(s.book, s.retention, me.key, choice.access), me.account), choice.access,
                   from);
    case Reloading(flight) => ReloadSince(s, t, flight, choice.access, from);
    case InGate(audit) => SpendSince(s, t, audit, choice, from);
    case _ => PlainSince(s, t, choice, from);
  }

  lemma PlainSince(s: Protocol, t: ThreadId, choice: Choice, from: Instant)
    requires t in s.threads && AllSince(s, from) && !UsesAudit(s.threads[t].pc) && !s.threads[t].pc.InGate?
    ensures StaysSince(s, AdvanceThread(s, t, choice), from)
  {
    var me := s.threads[t];
    assert PcSince(me.pc, from);
    match me.pc
    case Looking => if me.key in s.flights { JoinSince(s, t, from); } else { GotoSince(s, s, t, Finding, from); }
    case Checking => GotoSince(s, s, t, if choice.accountOk then Beginning else Answered(REFUSED), from);
    case Beginning => BeginSince(s, t, from);
    case Refreshing => GotoSince(s, s, t, if choice.creditsOk then Appending else Finishing(REFUSED), from);
    case AtGate(audit) =>
      GotoSince(s, s, t, if s.stopped || choice.cancelled then Finishing(Answer(Some(Pending), true)) else InGate(audit),
                from);
    case Finishing(answer) => FinishSince(s, t, answer, from);
    case Waiting(flight) => WaitSince(s, t, flight, choice.cancelled, from);
    case Answered(_) =>
  }

  lemma WaitSince(s: Protocol, t: ThreadId, flight: nat, cancelled: bool, from: Instant)
    requires t in s.threads
    ensures StaysSince(s, Wait(s, t, flight, cancelled), from)
  {
    GotoSince(s, s, t, Answered(REFUSED), from);
    GotoSince(s, s, t, Reloading(flight), from);
  }

  lemma NextSince(s: Protocol, step: Step, from: Instant)
    requires AllSince(s, from) && Calm(step, s.retention, from)
    ensures AllSince(Next(s, step), from) && Next(s, step).retention == s.retention
  {
    var any := Audit("", "", 0, Pending, 0);
    match step
    case Advance(t, choice) => if t in s.threads { AdvanceSince(s, t, choice, from); }
    case AuditListed(env) => OperationsSince(s.book, s.retention, any, 0, env, 0, from);
    case AuditDeleted(cutoff, env) => OperationsSince(s.book, s.retention, any, 0, env, cutoff, from);
    case AuditRecovered(now, env) => OperationsSince(s.book, s.retention, any, now, env, 0, from);
    case _ =>
  }

  lemma CalmRemovesNothing(s: Protocol, step: Step, from: Instant, k: Key)
    requires AllSince(s, from) && Calm(step, s.retention, from)
    ensures Removed(Next(s, step).removals, k) == Removed(s.removals, k)
  {
    RemovalsHaveACause(s, step, k);
  }

  lemma {:induction false} CalmRunRemovesNothing(retention: int, steps: seq<Step>, from: Instant, k: Key)
    requires forall i :: 0 <= i < |steps| ==> Calm(steps[i], retention, from)
    ensures var s := Run(Initial(retention), steps);
            s.retention == retention && AllSince(s, from) && Removed(s.removals, k) == 0
  {
    if steps != [] {
      var s := Run(Initial(retention), steps[..|steps| - 1]);
      CalmRunRemovesNothing(retention, steps[..|steps| - 1], from, k);
      NextSince(s, steps[|steps| - 1], from);
      CalmRemovesNothing(s, steps[|steps| - 1], from, k);
    }
  }

  /** Within one retention period the upstream credit of a key is consumed at most once, whatever requests, restarts,
      recoveries, cancellations and failing writes occur: no record is lost while the clock stays inside that period,
      nothing is cleared and no cutoff or not-exist error comes up. */
  lemma ConsumedOnceWithinRetention(retention: int, steps: seq<Step>, from: Instant, k: Key)
    requires forall i :: 0 <= i < |steps| ==> Calm(steps[i], retention, from)
    ensures Consumed(Run(Initial(retention), steps).consumes, k) <= 1
  {
    CalmRunRemovesNothing(retention, steps, from, k);
    OneConsumePerRemoval(retention, steps, k);
  }
}
