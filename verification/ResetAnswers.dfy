/** What one step of a reset request does and tells its caller, told from the stored records, the live flights, the
    checks and the answer of the upstream; and what every consumed credit has passed before. */
module ResetAnswers {
  import opened Domain
  import opened ResetAudit
  import opened ResetProtocol
  import opened ResetTheorems
  import opened AuditRetention

  // ----- the upstream's answer -----

  /** A success is a 2xx without an error; no answer or an expired deadline is unknown; anything else has failed. */
  ghost predicate IsOutcome(result: HttpResult, outcome: Outcome) {
    if result.err == NoError && 200 <= result.statusCode <= 299 then outcome == Succeeded
    else if result.statusCode == 0 || result.err == DeadlineExceeded then outcome == Unknown
    else outcome == Failed
  }

  lemma OutcomeIsMeant(result: HttpResult)
    ensures IsOutcome(result, FinalOutcome(result))
  {
    OutcomeReflectsTheAnswer(result);
  }

  // ----- one step of a request -----

  /** What a load finds under a key. */
  ghost function Stored(s: Protocol, key: Key, env: Access): Option<Audit> {
    if key in s.book && !Outlived(s.book[key], s.retention, env.now) then Some(s.book[key]) else None
  }

  ghost function Refused(): Answer { Answer(None, true) }

  /** Meeting a live flight: waiting for it, unless it is for another account. */
  ghost function Meeting(s: Protocol, me: Thread): Pc
    requires me.key in s.flights
  {
    if s.flights[me.key].account == me.account then Waiting(s.flights[me.key].id) else Answered(Refused())
  }

  /** Looking for a record: a finished one is the answer, a pending one without a flight is an orphan, and only without
      any does the request go on; it is refused for another account or an unreadable file. */
  ghost function Found(s: Protocol, me: Thread, env: Access): Pc {
    if !Loads(s.book, s.retention, env) then Answered(Refused())
    else match Stored(s, me.key, env)
         case None => Checking
         case Some(record) =>
           if record.account != me.account then Answered(Refused())
           else if record.outcome == Pending then Recovering(record)
           else Answered(Answer(Some(record.outcome), false))
  }

  /** A record that appeared before the append is answered if it is finished and for the same account. */
  ghost function FoundInstead(s: Protocol, me: Thread, env: Access): Answer {
    match Stored(s, me.key, env)
    case Some(record) =>
      if Loads(s.book, s.retention, env) && record.account == me.account && record.outcome != Pending
      then Answer(Some(record.outcome), false) else Refused()
    case None => Refused()
  }

  /** A waiter gets the durable record's outcome, with the error its flight left. */
  ghost function FoundAfter(s: Protocol, me: Thread, env: Access, landed: Answer): Answer {
    if !Loads(s.book, s.retention, env) then Answer(landed.outcome, true)
    else match Stored(s, me.key, env)
         case Some(record) =>
           if record.outcome == Pending then landed else Answer(Some(record.outcome), landed.failed)
         case None => landed
  }

  ghost predicate Rewrites(s: Protocol, key: Key, env: Access) {
    Loads(s.book, s.retention, env) && Stored(s, key, env).Some? && env.write == Ok
  }

  /** The pending record is on the disk before anything is sent. */
  ghost function Appended(s: Protocol, me: Thread, choice: Choice): Pc {
    var env := choice.access;
    if Loads(s.book, s.retention, env) && Stored(s, me.key, env).Some? then Conflicting
    else if env.write == Ok && (Loads(s.book, s.retention, env) || (env.readable && env.trimMissing)) then
      AtGate(Audit(me.key, me.account, choice.now, Pending, 0))
    else Finishing(Refused())
  }

  /** Where a request that is not waiting, answered or in the gate goes next. */
  ghost function Goes(s: Protocol, me: Thread, choice: Choice): Pc {
    match me.pc
    case Looking => if me.key in s.flights then Meeting(s, me) else Finding
    case Finding => Found(s, me, choice.access)
    case Recovering(orphan) =>
      Answered(if Rewrites(s, orphan.key, choice.access) then Answer(Some(Unknown), false)
               else Answer(Some(Pending), true))
    case Checking => if choice.accountOk then Beginning else Answered(Refused())
    case Beginning =>
      if me.key in s.flights then Meeting(s, me)
      else if s.stopped || me.account in s.busy then Answered(Refused()) else Refreshing
    case Refreshing => if choice.creditsOk then Appending else Finishing(Refused())
    case Appending => Appended(s, me, choice)
    case Conflicting => Finishing(FoundInstead(s, me, choice.access))
    case AtGate(audit) =>
      if s.stopped || choice.cancelled then Finishing(Answer(Some(Pending), true)) else InGate(audit)
    case Replacing(audit) =>
      Finishing(if Rewrites(s, audit.key, choice.access) then Answer(Some(audit.outcome), audit.outcome == Unknown)
                else Answer(Some(Unknown), true))
    case Finishing(answer) => Answered(answer)
    case Waiting(flight) =>
      if choice.cancelled then Answered(Refused()) else if flight in s.landings then Reloading(flight) else me.pc
    case Reloading(flight) =>
      if flight !in s.landings then me.pc
      else
        var landed := s.landings[flight].answer;
        if landed == Answer(Some(Pending), true) then Answered(landed)
        else Answered(FoundAfter(s, me, choice.access, landed))
    case _ => me.pc
  }

  /** The same request, there and nowhere else. */
  ghost predicate AtPc(s: Protocol, u: Protocol, t: ThreadId, pc: Pc)
    requires t in s.threads
  {
    u.threads == s.threads[t := s.threads[t].(pc := pc)]
  }

  lemma LooksAtAudit(s: Protocol, t: ThreadId, choice: Choice)
    requires t in s.threads
    requires s.threads[t].pc.Finding? || s.threads[t].pc.Conflicting? || s.threads[t].pc.Reloading?
    ensures AtPc(s, AdvanceThread(s, t, choice), t, Goes(s, s.threads[t], choice))
  {
    FindAnswers(s.book, s.retention, s.threads[t].key, choice.access);
    assert s.threads[t := s.threads[t]] == s.threads;
  }

  lemma WritesAudit(s: Protocol, t: ThreadId, choice: Choice)
    requires t in s.threads
    requires s.threads[t].pc.Recovering? || s.threads[t].pc.Appending? || s.threads[t].pc.Replacing?
    ensures AtPc(s, AdvanceThread(s, t, choice), t, Goes(s, s.threads[t], choice))
  {
    LoadingLeaves(s.book, s.retention, choice.access);
  }

  lemma UsesFlights(s: Protocol, t: ThreadId, choice: Choice)
    requires t in s.threads
    requires s.threads[t].pc.Looking? || s.threads[t].pc.Beginning? || s.threads[t].pc.Finishing?
             || s.threads[t].pc.Waiting?
    ensures AtPc(s, AdvanceThread(s, t, choice), t, Goes(s, s.threads[t], choice))
  {
    assert s.threads[t := s.threads[t]] == s.threads;
  }

  lemma ChecksOnly(s: Protocol, t: ThreadId, choice: Choice)
    requires t in s.threads
    requires s.threads[t].pc.Checking? || s.threads[t].pc.Refreshing? || s.threads[t].pc.AtGate?
             || s.threads[t].pc.Answered?
    ensures AtPc(s, AdvanceThread(s, t, choice), t, Goes(s, s.threads[t], choice))
  {
    assert s.threads[t := s.threads[t]] == s.threads;
  }

  /** Every step of a request but the upstream call goes where the stored record, the flights and the checks send it. */
  lemma RequestGoes(s: Protocol, t: ThreadId, choice: Choice)
    requires t in s.threads && !s.threads[t].pc.InGate?
    ensures AtPc(s, Next(s, Advance(t, choice)), t, Goes(s, s.threads[t], choice))
  {
    var pc := s.threads[t].pc;
    if pc.Finding? || pc.Conflicting? || pc.Reloading? {
      LooksAtAudit(s, t, choice);
    } else if pc.Recovering? || pc.Appending? || pc.Replacing? {
      WritesAudit(s, t, choice);
    } else if pc.Looking? || pc.Beginning? || pc.Finishing? || pc.Waiting? {
      UsesFlights(s, t, choice);
    } else {
      ChecksOnly(s, t, choice);
    }
  }

  // ----- what the step changes besides -----

  ghost function Replaced(s: Protocol, audit: Audit, env: Access): Book {
    if Loads(s.book, s.retention, env) && Stored(s, audit.key, env).Some? && env.write != Lost
    then Young(s.book, s.retention, env.now)[audit.key := audit] else AfterLoad(s.book, s.retention, env)
  }

  /** A new record joins the history; after a not-exist error it is the history. */
  ghost function WithNew(s: Protocol, audit: Audit, env: Access): Book {
    if env.write == Lost || (Loads(s.book, s.retention, env) && Stored(s, audit.key, env).Some?) then
      AfterLoad(s.book, s.retention, env)
    else if Loads(s.book, s.retention, env) then Young(s.book, s.retention, env.now)[audit.key := audit]
    else if env.readable && env.trimMissing then map[audit.key := audit]
    else AfterLoad(s.book, s.retention, env)
  }

  /** The audit file after the step of a request. */
  ghost function BookAfter(s: Protocol, me: Thread, choice: Choice): Book {
    match me.pc
    case Finding => AfterLoad(s.book, s.retention, choice.access)
    case Conflicting => AfterLoad(s.book, s.retention, choice.access)
    case Reloading(flight) =>
      if flight !in s.landings || s.landings[flight].answer == Answer(Some(Pending), true) then s.book
      else AfterLoad(s.book, s.retention, choice.access)
    case Recovering(orphan) => Replaced(s, orphan.(outcome := Unknown, finishedAt := choice.now), choice.access)
    case Replacing(audit) => Replaced(s, audit, choice.access)
    case Appending => WithNew(s, Audit(me.key, me.account, choice.now, Pending, 0), choice.access)
    case _ => s.book
  }

  lemma LoadsLeaveYoung(s: Protocol, env: Access)
    ensures Loads(s.book, s.retention, env) ==>
              AfterLoad(s.book, s.retention, env) == Young(s.book, s.retention, env.now)
              || Young(s.book, s.retention, env.now) == s.book
  {
  }

  lemma ReloadLeavesBook(s: Protocol, t: ThreadId, flight: nat, choice: Choice)
    requires t in s.threads && s.threads[t].pc == Reloading(flight)
    ensures Reload(s, t, flight, choice.access).book == BookAfter(s, s.threads[t], choice)
  {
    LoadingLeaves(s.book, s.retention, choice.access);
  }

  lemma ReadingLeavesBook(s: Protocol, t: ThreadId, pc: Pc, env: Access)
    requires t in s.threads
    ensures Goto(Reading(s, env), t, pc).book == AfterLoad(s.book, s.retention, env)
  {
    LoadingLeaves(s.book, s.retention, env);
  }

  lemma LooksLeaveBook(s: Protocol, t: ThreadId, choice: Choice)
    requires t in s.threads
    requires s.threads[t].pc.Finding? || s.threads[t].pc.Conflicting? || s.threads[t].pc.Reloading?
    ensures AdvanceThread(s, t, choice).book == BookAfter(s, s.threads[t], choice)
  {
    var me, env := s.threads[t], choice.access;
    match me.pc
    case Finding =>
      ReadingLeavesBook(s, t, AfterFind(Find(s.book, s.retention, me.key, env), me.account), env);
    case Conflicting =>
      ReadingLeavesBook(s, t, AfterConflict(Find(s.book, s.retention, me.key, env), me.account), env);
    case Reloading(flight) => ReloadLeavesBook(s, t, flight, choice);
  }

  lemma WritesLeaveBook(s: Protocol, t: ThreadId, choice: Choice)
    requires t in s.threads
    requires s.threads[t].pc.Recovering? || s.threads[t].pc.Appending? || s.threads[t].pc.Replacing?
    ensures AdvanceThread(s, t, choice).book == BookAfter(s, s.threads[t], choice)
  {
    LoadingLeaves(s.book, s.retention, choice.access);
    LoadsLeaveYoung(s, choice.access);
  }

  /** The audit file after the step of a request, told by its place, the file and how the writes end. */
  lemma RequestWrites(s: Protocol, t: ThreadId, choice: Choice)
    requires t in s.threads
    ensures Next(s, Advance(t, choice)).book == BookAfter(s, s.threads[t], choice)
  {
    var pc := s.threads[t].pc;
    if pc.Finding? || pc.Conflicting? || pc.Reloading? {
      LooksLeaveBook(s, t, choice);
    } else if pc.Recovering? || pc.Appending? || pc.Replacing? {
      WritesLeaveBook(s, t, choice);
    } else {
      OtherStepsSpareAudit(s, t, choice);
    }
  }

  /** Only beginning and finishing touch the flights: a flight marks its account busy under a new number, and its end
      frees the account and leaves the answer for those who wait. Nothing else but the gate consumes. */
  lemma RequestFlies(s: Protocol, t: ThreadId, choice: Choice)
    requires t in s.threads && !s.threads[t].pc.InGate?
    ensures FliesAfter(s, t, choice, Next(s, Advance(t, choice)))
  {
    match s.threads[t].pc
    case Recovering(orphan) => WritesKeepFlights(s, t, orphan, choice);
    case Replacing(audit) => WritesKeepFlights(s, t, audit, choice);
    case Appending => WritesKeepFlights(s, t, Audit("", "", 0, Pending, 0), choice);
    case Finding => ReadsKeepFlights(s, t, 0, choice);
    case Conflicting => ReadsKeepFlights(s, t, 0, choice);
    case Reloading(flight) => ReadsKeepFlights(s, t, flight, choice);
    case Beginning => BeginFlies(s, t, choice);
    case Finishing(answer) => FinishFlies(s, t, answer, choice);
    case _ => ChecksKeepFlights(s, t, choice);
  }

  ghost predicate FliesAfter(s: Protocol, t: ThreadId, choice: Choice, u: Protocol)
    requires t in s.threads
  {
    var me := s.threads[t];
    if me.pc.Beginning? && Goes(s, me, choice).Refreshing? then
      && u.flights == s.flights[me.key := Flight(s.nextFlight, me.account, t)]
      && u.busy == s.busy + {me.account} && u.nextFlight == s.nextFlight + 1
      && u.landings == s.landings && u.consumes == s.consumes && u.probes == s.probes
    else if me.pc.Finishing? && me.key in s.flights then
      && u.flights == s.flights - {me.key} && u.busy == s.busy - {s.flights[me.key].account}
      && u.landings == s.landings[s.flights[me.key].id := Landing(me.key, me.pc.answer)]
      && u.nextFlight == s.nextFlight && u.consumes == s.consumes && u.probes == s.probes
    else SameFlights(s, u)
  }

  lemma BeginFlies(s: Protocol, t: ThreadId, choice: Choice)
    requires t in s.threads && s.threads[t].pc.Beginning?
    ensures FliesAfter(s, t, choice, Begin(s, t))
  {
  }

  lemma FinishFlies(s: Protocol, t: ThreadId, answer: Answer, choice: Choice)
    requires t in s.threads && s.threads[t].pc == Finishing(answer)
    ensures FliesAfter(s, t, choice, Finish(s, t, answer))
  {
  }

  lemma ChecksKeepFlights(s: Protocol, t: ThreadId, choice: Choice)
    requires t in s.threads
    requires var pc := s.threads[t].pc;
             pc.Looking? || pc.Checking? || pc.Refreshing? || pc.AtGate? || pc.Waiting? || pc.Answered?
    ensures SameFlights(s, AdvanceThread(s, t, choice))
  {
  }

  ghost predicate SameFlights(s: Protocol, u: Protocol) {
    && u.flights == s.flights && u.busy == s.busy && u.nextFlight == s.nextFlight && u.landings == s.landings
    && u.consumes == s.consumes && u.probes == s.probes
  }

  lemma WritesKeepFlights(s: Protocol, t: ThreadId, audit: Audit, choice: Choice)
    requires t in s.threads
    ensures SameFlights(s, RecoverOrphan(s, t, audit, choice)) && SameFlights(s, AppendPending(s, t, choice))
    ensures SameFlights(s, ReplaceAudit(s, t, audit, choice.access))
  {
  }

  lemma ReadsKeepFlights(s: Protocol, t: ThreadId, flight: nat, choice: Choice)
    requires t in s.threads
    ensures forall pc :: SameFlights(s, Goto(Reading(s, choice.access), t, pc))
    ensures SameFlights(s, Reload(s, t, flight, choice.access))
  {
  }

  /** The upstream call consumes once, for the key and account of the request, and goes on to record the outcome that the
      answer means. */
  lemma GateConsumes(s: Protocol, t: ThreadId, choice: Choice)
    requires t in s.threads && s.threads[t].pc.InGate?
    ensures var me, u := s.threads[t], Next(s, Advance(t, choice));
            exists outcome ::
              && IsOutcome(choice.result, outcome)
              && u.consumes == s.consumes + [Consume(me.key, me.account, outcome)]
              && AtPc(s, u, t, Replacing(me.pc.audit.(outcome := outcome, finishedAt := choice.now)))
              && u.book == s.book && u.flights == s.flights && u.busy == s.busy
  {
    OutcomeIsMeant(choice.result);
  }

  // ----- the other steps -----

  /** The audit file after an operation that is not part of a request. */
  ghost predicate AuditStepLeaves(s: Protocol, step: Step, after: Book) {
    match step
    case AuditListed(env) => after == AfterLoad(s.book, s.retention, env)
    case AuditCleared(env) => after == if env.write == Lost then s.book else map[]
    case AuditDeleted(cutoff, env) =>
      if !Loads(s.book, s.retention, env) then after == AfterLoad(s.book, s.retention, env)
      else forall k ::
        && (k in after <==> && k in s.book && !Outlived(s.book[k], s.retention, env.now)
                            && (env.write == Lost || !TooOld(s.book[k], cutoff)))
        && (k in after ==> after[k] == s.book[k])
    case AuditRecovered(now, env) =>
      if !Loads(s.book, s.retention, env) then after == AfterLoad(s.book, s.retention, env)
      else forall k ::
        && (k in after <==> k in s.book && !Outlived(s.book[k], s.retention, env.now))
        && (k in after ==> after[k] == if s.book[k].outcome == Pending && env.write != Lost
                                       then s.book[k].(outcome := Unknown, finishedAt := now) else s.book[k])
    case _ => after == s.book
  }

  /** Outside requests, only the audit's own operations touch the file, and nothing consumes. */
  lemma OtherStepsWrite(s: Protocol, step: Step)
    requires !step.Advance?
    ensures AuditStepLeaves(s, step, Next(s, step).book) && Next(s, step).consumes == s.consumes
  {
    match step
    case AuditListed(env) => LoadingLeaves(s.book, s.retention, env);
    case AuditCleared(env) => ClearLeaves(s.book, env);
    case AuditDeleted(cutoff, env) => DeleteLeaves(s.book, s.retention, cutoff, env);
    case AuditRecovered(now, env) => RecoverLeaves(s.book, s.retention, now, env);
    case _ =>
  }

  /** A probe takes an account only before a stop and while nobody works on it, and gives back only what it took; a stop
      passes the gate as soon as nobody is inside, and returns once no flight is left; a crash keeps nothing but the file
      and the history. */
  lemma LifecycleLeaves(s: Protocol, step: Step)
    ensures var u := Next(s, step);
            match step
            case ProbeBegins(account) =>
              if !s.stopped && account !in s.busy then
                u == s.(busy := s.busy + {account}, probes := s.probes + {account})
              else u == s
            case ProbeEnds(account) =>
              if account in s.probes then u == s.(busy := s.busy - {account}, probes := s.probes - {account}) else u == s
            case StopBegins => u == s.(stopped := true)
            case StopPassesGate =>
              u == s.(gatePassed := s.gatePassed
                                    || (s.stopped && forall t :: t in s.threads ==> !s.threads[t].pc.InGate?))
            case StopReturns => u == s.(returned := s.returned || (s.gatePassed && s.flights.Keys == {}))
            case Crashes =>
              && u.book == s.book && u.consumes == s.consumes && u.removals == s.removals
              && u.nextFlight == s.nextFlight && u.retention == s.retention
              && u.threads == map[] && u.flights == map[] && u.landings == map[] && u.busy == {} && u.probes == {}
              && !u.stopped && !u.gatePassed && !u.returned
            case Call(t, key, account) =>
              if t in s.threads then u == s else u == s.(threads := s.threads[t := Thread(key, account, Looking)])
            case _ => true
  {
  }

  // ----- what every consumed credit has passed -----

  /** Step i of the run is a step of the request at its account check, which it passes without a stored record, or at
      its credit check. */
  ghost predicate ChecksAccount(retention: int, steps: seq<Step>, i: nat, t: ThreadId)
    requires i < |steps|
  {
    var s := Run(Initial(retention), steps[..i]);
    && steps[i].Advance? && steps[i].thread == t && t in s.threads
    && s.threads[t].pc == Checking && steps[i].choice.accountOk
  }

  ghost predicate ChecksCredits(retention: int, steps: seq<Step>, i: nat, t: ThreadId)
    requires i < |steps|
  {
    var s := Run(Initial(retention), steps[..i]);
    && steps[i].Advance? && steps[i].thread == t && t in s.threads
    && s.threads[t].pc == Refreshing && steps[i].choice.creditsOk
  }

  predicate PastAccount(pc: Pc) {
    pc.Beginning? || pc.Refreshing? || PastCredits(pc)
  }

  predicate PastCredits(pc: Pc) {
    pc.Appending? || pc.Conflicting? || pc.AtGate? || pc.InGate? || pc.Replacing?
  }

  ghost predicate HasChecked(retention: int, steps: seq<Step>, t: ThreadId, pc: Pc) {
    && (PastAccount(pc) ==> exists i :: 0 <= i < |steps| && ChecksAccount(retention, steps, i, t))
    && (PastCredits(pc) ==> exists i :: 0 <= i < |steps| && ChecksCredits(retention, steps, i, t))
  }

  lemma CheckedBefore(retention: int, steps: seq<Step>, last: Step, t: ThreadId, pc: Pc)
    requires HasChecked(retention, steps, t, pc)
    ensures HasChecked(retention, steps + [last], t, pc)
  {
    var all := steps + [last];
    if i :| 0 <= i < |steps| && ChecksAccount(retention, steps, i, t) {
      assert all[..i] == steps[..i];
      assert ChecksAccount(retention, all, i, t);
    }
    if i :| 0 <= i < |steps| && ChecksCredits(retention, steps, i, t) {
      assert all[..i] == steps[..i];
      assert ChecksCredits(retention, all, i, t);
    }
  }

  lemma GoesPastByChecks(s: Protocol, me: Thread, choice: Choice)
    ensures var pc := Goes(s, me, choice);
            && (PastAccount(pc) ==> PastAccount(me.pc) || (me.pc.Checking? && choice.accountOk))
            && (PastCredits(pc) ==> PastCredits(me.pc) || (me.pc.Refreshing? && choice.creditsOk))
  {
  }

  /** A request gets past a check only from before it, by passing it. */
  lemma OnlyChecksLeadOn(s: Protocol, t: ThreadId, choice: Choice)
    requires t in s.threads
    ensures var pc := s.threads[t].pc;
            var u := Next(s, Advance(t, choice));
            && t in u.threads
            && (PastAccount(u.threads[t].pc) ==> PastAccount(pc) || (pc.Checking? && choice.accountOk))
            && (PastCredits(u.threads[t].pc) ==> PastCredits(pc) || (pc.Refreshing? && choice.creditsOk))
  {
    GoesPastByChecks(s, s.threads[t], choice);
    var u := Next(s, Advance(t, choice));
    if s.threads[t].pc.InGate? {
      GateConsumes(s, t, choice);
    } else {
      RequestGoes(s, t, choice);
      assert u.threads[t].pc == Goes(s, s.threads[t], choice);
    }
  }

  lemma OwnStepChecks(retention: int, steps: seq<Step>, t: ThreadId, choice: Choice, s: Protocol)
    requires s == Run(Initial(retention), steps) && t in s.threads
    requires HasChecked(retention, steps, t, s.threads[t].pc)
    ensures t in Next(s, Advance(t, choice)).threads
    ensures HasChecked(retention, steps + [Advance(t, choice)], t, Next(s, Advance(t, choice)).threads[t].pc)
  {
    var all, pc := steps + [Advance(t, choice)], s.threads[t].pc;
    CheckedBefore(retention, steps, Advance(t, choice), t, pc);
    OnlyChecksLeadOn(s, t, choice);
    assert all[..|steps|] == steps && all[|steps|] == Advance(t, choice);
    if pc.Checking? && choice.accountOk { assert ChecksAccount(retention, all, |steps|, t); }
    if pc.Refreshing? && choice.creditsOk { assert ChecksCredits(retention, all, |steps|, t); }
  }

  lemma OtherStepKeepsPc(s: Protocol, step: Step, t: ThreadId)
    requires t in Next(s, step).threads && !(step.Advance? && step.thread == t)
    ensures if t in s.threads then Next(s, step).threads[t] == s.threads[t]
            else Next(s, step).threads[t].pc == Looking
  {
    if step.Advance? && step.thread in s.threads {
      if s.threads[step.thread].pc.InGate? { GateConsumes(s, step.thread, step.choice); }
      else { RequestGoes(s, step.thread, step.choice); }
    }
  }

  lemma {:induction false} RequestsHaveChecked(retention: int, steps: seq<Step>, t: ThreadId)
    requires t in Run(Initial(retention), steps).threads
    ensures HasChecked(retention, steps, t, Run(Initial(retention), steps).threads[t].pc)
  {
    if steps != [] {
      var init, last := steps[..|steps| - 1], steps[|steps| - 1];
      var s := Run(Initial(retention), init);
      assert steps == init + [last];
      if t in s.threads {
        RequestsHaveChecked(retention, init, t);
        CheckedBefore(retention, init, last, t, s.threads[t].pc);
      }
      if last.Advance? && last.thread == t {
        if t in s.threads { OwnStepChecks(retention, init, t, last.choice, s); }
      } else {
        OtherStepKeepsPc(s, last, t);
      }
    }
  }

  lemma OnlyTheGateConsumes(s: Protocol, step: Step)
    requires Next(s, step).consumes != s.consumes
    ensures step.Advance? && step.thread in s.threads && s.threads[step.thread].pc.InGate?
  {
    if step.Advance? && step.thread in s.threads && !s.threads[step.thread].pc.InGate? {
      RequestFlies(s, step.thread, step.choice);
    }
  }

  /** Over every run, a credit is consumed in a step only if it is the gate step of a request that has passed both its
      account check, taken when no record of its key was found, and its credit check. */
  lemma CreditsAreCheckedFirst(retention: int, steps: seq<Step>, step: Step)
    requires Next(Run(Initial(retention), steps), step).consumes != Run(Initial(retention), steps).consumes
    ensures var s := Run(Initial(retention), steps);
            && step.Advance? && step.thread in s.threads && s.threads[step.thread].pc.InGate?
            && (exists i :: 0 <= i < |steps| && ChecksAccount(retention, steps, i, step.thread))
            && (exists i :: 0 <= i < |steps| && ChecksCredits(retention, steps, i, step.thread))
  {
    OnlyTheGateConsumes(Run(Initial(retention), steps), step);
    RequestsHaveChecked(retention, steps, step.thread);
  }
}
