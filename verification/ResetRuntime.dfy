/** The reset half of the runtime as the source writes it: an object whose critical sections change the flights, the
    busy accounts and the audit file. A ghost copy of the protocol state moves along, one step per section. */
module ResetRuntime {
  import opened Domain
  import A = ResetAudit
  import opened ResetProtocol

  class Runtime {
    const audit: A.Repository
    var flights: map<A.Key, Flight>
    var nextFlight: nat
    var landings: map<nat, Landing>
    var busy: set<Account>
    var stopped: bool
    ghost var protocol: Protocol

    constructor (audit: A.Repository)
      requires audit.Valid() && audit.Contents() == map[]
      ensures Valid() && protocol == Initial(audit.retention) && this.audit == audit
    {
      this.audit := audit;
      flights, nextFlight, landings, busy, stopped := map[], 0, map[], {}, false;
      protocol := Initial(audit.retention);
    }

    ghost predicate Valid()
      reads this, audit
    {
      && audit.Valid() && protocol.book == audit.Contents() && protocol.retention == audit.retention
      && protocol.flights == flights && protocol.nextFlight == nextFlight && protocol.landings == landings
      && protocol.busy == busy && protocol.stopped == stopped
    }

    /** The request t is where the protocol says. */
    ghost predicate At(t: ThreadId, key: A.Key, account: Account, pc: Pc)
      reads this
    {
      t in protocol.threads && protocol.threads[t] == Thread(key, account, pc)
    }

    method AcquireBusy(account: Account) returns (acquired: bool)
      requires Valid()
      modifies this
      ensures Valid() && protocol == Next(old(protocol), ProbeBegins(account))
      ensures acquired <==> !old(stopped) && account !in old(busy)
    {
      if stopped {
        return false;
      }
      if account in busy {
        return false;
      }
      busy := busy + {account};
      protocol := Next(protocol, ProbeBegins(account));
      return true;
    }

    /** Only the holder releases an account. */
    method ReleaseBusy(account: Account)
      requires Valid() && account in protocol.probes
      modifies this
      ensures Valid() && protocol == Next(old(protocol), ProbeEnds(account))
    {
      busy := busy - {account};
      protocol := Next(protocol, ProbeEnds(account));
    }

    method BeginResetFlight(t: ThreadId, key: A.Key, account: Account, ghost choice: Choice)
      returns (flight: Option<Flight>, started: bool)
      requires Valid() && At(t, key, account, Beginning)
      modifies this
      ensures Valid() && protocol == Next(old(protocol), Advance(t, choice))
      ensures started ==> At(t, key, account, Refreshing)
      ensures !started && flight.Some? ==> key in flights && flights[key] == flight.value
      ensures !started && flight.Some? ==>
                At(t, key, account,
                   if flight.value.account == account then Waiting(flight.value.id) else Answered(REFUSED))
      ensures !started && flight.None? ==> At(t, key, account, Answered(REFUSED))
    {
      protocol := Next(protocol, Advance(t, choice));
      if key in flights {
        return Some(flights[key]), false;
      }
      if stopped {
        return None, false;
      }
      if account in busy {
        return None, false;
      }
      var begun := Flight(nextFlight, account, t);
      busy := busy + {account};
      flights := flights[key := begun];
      nextFlight := nextFlight + 1;
      return Some(begun), true;
    }

    method FinishResetFlight(t: ThreadId, key: A.Key, account: Account, answer: Answer, ghost choice: Choice)
      requires Valid() && At(t, key, account, Finishing(answer))
      modifies this
      ensures Valid() && protocol == Next(old(protocol), Advance(t, choice))
      ensures At(t, key, account, Answered(answer))
    {
      protocol := Next(protocol, Advance(t, choice));
      if key !in flights {
        return;
      }
      var flight := flights[key];
      landings := landings[flight.id := Landing(key, answer)];
      flights := flights - {key};
      busy := busy - {flight.account};
    }

    /** Past the gate check the call is made; before it a stop or a cancellation still wins. */
    method ResetConsume(t: ThreadId, key: A.Key, account: Account, record: A.Audit, gate: Choice, call: Choice)
      returns (entered: bool, finished: A.Audit)
      requires Valid() && At(t, key, account, AtGate(record))
      modifies this
      ensures Valid()
      ensures entered <==> !old(stopped) && !gate.cancelled
      ensures entered ==>
                && protocol == Next(Next(old(protocol), Advance(t, gate)), Advance(t, call))
                && At(t, key, account, Replacing(finished))
      ensures !entered ==>
                && protocol == Next(old(protocol), Advance(t, gate))
                && At(t, key, account, Finishing(Answer(Some(A.Pending), true)))
    {
      finished := record;
      protocol := Next(protocol, Advance(t, gate));
      if stopped || gate.cancelled {
        return false, record;
      }
      assert At(t, key, account, InGate(record));
      protocol := Next(protocol, Advance(t, call));
      return true, record.(outcome := FinalOutcome(call.result), finishedAt := call.now);
    }

    method RecoverOrphanedReset(t: ThreadId, key: A.Key, account: Account, record: A.Audit, choice: Choice)
      returns (answer: Answer)
      requires Valid() && At(t, key, account, Recovering(record))
      modifies this, audit
      ensures Valid() && protocol == Next(old(protocol), Advance(t, choice))
      ensures At(t, key, account, Answered(answer))
    {
      protocol := Next(protocol, Advance(t, choice));
      var recovered := record.(outcome := A.Unknown, finishedAt := choice.now);
      var verdict := audit.ReplaceRecord(recovered, choice.access);
      if verdict != A.Done {
        return Answer(Some(A.Pending), true);
      }
      return Answer(Some(A.Unknown), false);
    }

    method HandlePendingAppendConflict(t: ThreadId, key: A.Key, account: Account, choice: Choice)
      returns (answer: Answer)
      requires Valid() && At(t, key, account, Conflicting)
      modifies this, audit
      ensures Valid() && protocol == Next(old(protocol), Advance(t, choice))
      ensures At(t, key, account, Finishing(answer))
    {
      protocol := Next(protocol, Advance(t, choice));
      var found := audit.FindByKey(key, choice.access);
      if !found.Records? || found.items.None? {
        return REFUSED;
      }
      var existing := found.items.value;
      if existing.account != account {
        return REFUSED;
      }
      if existing.outcome == A.Pending {
        return REFUSED;
      }
      return Answer(Some(existing.outcome), false);
    }

    /** A waiter that wakes up, because its flight has landed or its own request was cancelled. */
    method WaitResetFlight(t: ThreadId, key: A.Key, account: Account, flight: nat, wait: Choice, reload: Choice)
      returns (answer: Answer, ghost steps: seq<Step>)
      requires Valid() && At(t, key, account, Waiting(flight))
      requires wait.cancelled || flight in landings
      modifies this, audit
      ensures Valid() && OnlyAdvances(steps, t) && protocol == Run(old(protocol), steps)
      ensures At(t, key, account, Answered(answer))
    {
      steps := [Advance(t, wait)];
      RunStep(protocol, [], Advance(t, wait));
      protocol := Next(protocol, Advance(t, wait));
      if wait.cancelled {
        return REFUSED, steps;
      }
      answer := Reload(t, key, account, flight, reload);
      RunStep(old(protocol), steps, Advance(t, reload));
      steps := steps + [Advance(t, reload)];
    }

    method Reload(t: ThreadId, key: A.Key, account: Account, flight: nat, choice: Choice) returns (answer: Answer)
      requires Valid() && At(t, key, account, Reloading(flight)) && flight in landings
      modifies this, audit
      ensures Valid() && protocol == Next(old(protocol), Advance(t, choice))
      ensures At(t, key, account, Answered(answer))
    {
      protocol := Next(protocol, Advance(t, choice));
      var landed := landings[flight].answer;
      if landed.failed && landed.outcome == Some(A.Pending) {
        return landed;
      }
      var found := audit.FindByKey(key, choice.access);
      if found.Records? && found.items.Some? && found.items.value.outcome != A.Pending {
        return Answer(Some(found.items.value.outcome), landed.failed);
      }
      if !found.Records? {
        return Answer(landed.outcome, true);
      }
      return landed;
    }

    method FindRecord(t: ThreadId, key: A.Key, account: Account, choice: Choice)
      returns (answer: Option<Answer>, orphan: Option<A.Audit>)
      requires Valid() && At(t, key, account, Finding)
      modifies this, audit
      ensures Valid() && protocol == Next(old(protocol), Advance(t, choice))
      ensures At(t, key, account, if answer.Some? then Answered(answer.value)
                                  else if orphan.Some? then Recovering(orphan.value) else Checking)
    {
      protocol := Next(protocol, Advance(t, choice));
      var found := audit.FindByKey(key, choice.access);
      if !found.Records? {
        return Some(REFUSED), None;
      }
      if found.items.None? {
        return None, None;
      }
      var existing := found.items.value;
      if existing.account != account {
        return Some(REFUSED), None;
      }
      if existing.outcome != A.Pending {
        return Some(Answer(Some(existing.outcome), false)), None;
      }
      return None, Some(existing);
    }

    method AppendRecord(t: ThreadId, key: A.Key, account: Account, choice: Choice)
      returns (verdict: A.Verdict, record: A.Audit)
      requires Valid() && At(t, key, account, Appending)
      modifies this, audit
      ensures Valid() && protocol == Next(old(protocol), Advance(t, choice))
      ensures At(t, key, account, match verdict
                                  case Done => AtGate(record)
                                  case Conflict => Conflicting
                                  case Failure => Finishing(REFUSED))
    {
      protocol := Next(protocol, Advance(t, choice));
      record := A.Audit(key, account, choice.now, A.Pending, ZERO_TIME);
      verdict := audit.AppendPending(record, choice.access);
    }

    method ReplaceAuditRecord(t: ThreadId, key: A.Key, account: Account, record: A.Audit, choice: Choice)
      returns (answer: Answer)
      requires Valid() && At(t, key, account, Replacing(record))
      modifies this, audit
      ensures Valid() && protocol == Next(old(protocol), Advance(t, choice))
      ensures At(t, key, account, Finishing(answer))
    {
      protocol := Next(protocol, Advance(t, choice));
      var verdict := audit.ReplaceRecord(record, choice.access);
      if verdict != A.Done {
        return Answer(Some(A.Unknown), true);
      }
      if record.outcome == A.Unknown {
        return Answer(Some(A.Unknown), true);
      }
      return Answer(Some(record.outcome), false);
    }

    /** From the quota refresh to the answer, owning the flight. */
    method RunFlight(t: ThreadId, key: A.Key, account: Account, script: Script)
      returns (answer: Answer, ghost steps: seq<Step>)
      requires Valid() && At(t, key, account, Refreshing)
      modifies this, audit
      ensures Valid() && OnlyAdvances(steps, t) && protocol == Run(old(protocol), steps)
      ensures At(t, key, account, Finishing(answer))
    {
      steps := [Advance(t, script.refresh)];
      RunStep(protocol, [], Advance(t, script.refresh));
      protocol := Next(protocol, Advance(t, script.refresh));
      if !script.refresh.creditsOk {
        return REFUSED, steps;
      }
      assert At(t, key, account, Appending);
      var verdict, record := AppendRecord(t, key, account, script.append);
      RunStep(old(protocol), steps, Advance(t, script.append));
      steps := steps + [Advance(t, script.append)];
      if verdict == A.Failure {
        return REFUSED, steps;
      }
      if verdict == A.Conflict {
        answer := HandlePendingAppendConflict(t, key, account, script.conflict);
        RunStep(old(protocol), steps, Advance(t, script.conflict));
        steps := steps + [Advance(t, script.conflict)];
        return answer, steps;
      }
      ghost var more;
      answer, more := SpendAndRecord(t, key, account, record, script);
      RunSplits(old(protocol), steps, more);
      steps := steps + more;
    }

    /** From the committed record to its final form. */
    method SpendAndRecord(t: ThreadId, key: A.Key, account: Account, record: A.Audit, script: Script)
      returns (answer: Answer, ghost steps: seq<Step>)
      requires Valid() && At(t, key, account, AtGate(record))
      modifies this, audit
      ensures Valid() && OnlyAdvances(steps, t) && protocol == Run(old(protocol), steps)
      ensures At(t, key, account, Finishing(answer))
    {
      var entered, finished := ResetConsume(t, key, account, record, script.gate, script.call);
      steps := [Advance(t, script.gate)];
      RunStep(old(protocol), [], Advance(t, script.gate));
      if !entered {
        return Answer(Some(A.Pending), true), steps;
      }
      RunStep(old(protocol), steps, Advance(t, script.call));
      steps := steps + [Advance(t, script.call)];
      answer := ReplaceAuditRecord(t, key, account, finished, script.replace);
      RunStep(old(protocol), steps, Advance(t, script.replace));
      steps := steps + [Advance(t, script.replace)];
    }

    method LookForFlight(t: ThreadId, key: A.Key, account: Account, ghost choice: Choice) returns (flight: Option<Flight>)
      requires Valid() && At(t, key, account, Looking)
      modifies this
      ensures Valid() && protocol == Next(old(protocol), Advance(t, choice))
      ensures flight == if key in flights then Some(flights[key]) else None
      ensures flight.None? ==> At(t, key, account, Finding)
      ensures flight.Some? ==>
                At(t, key, account,
                   if flight.value.account == account then Waiting(flight.value.id) else Answered(REFUSED))
    {
      protocol := Next(protocol, Advance(t, choice));
      return if key in flights then Some(flights[key]) else None;
    }

    method CheckAccount(t: ThreadId, key: A.Key, account: Account, choice: Choice) returns (ok: bool)
      requires Valid() && At(t, key, account, Checking)
      modifies this
      ensures Valid() && protocol == Next(old(protocol), Advance(t, choice))
      ensures ok == choice.accountOk && At(t, key, account, if ok then Beginning else Answered(REFUSED))
    {
      protocol := Next(protocol, Advance(t, choice));
      return choice.accountOk;
    }

    /** The sections before a flight: the durable record and the account. */
    method Prepare(t: ThreadId, key: A.Key, account: Account, script: Script)
      returns (answer: Option<Answer>, ghost steps: seq<Step>)
      requires Valid() && At(t, key, account, Finding)
      modifies this, audit
      ensures Valid() && OnlyAdvances(steps, t) && protocol == Run(old(protocol), steps)
      ensures At(t, key, account, if answer.None? then Beginning else Answered(answer.value))
    {
      var known, orphan := FindRecord(t, key, account, script.find);
      steps := [Advance(t, script.find)];
      RunStep(old(protocol), [], Advance(t, script.find));
      if known.Some? {
        return known, steps;
      }
      if orphan.Some? {
        var recovered := RecoverOrphanedReset(t, key, account, orphan.value, script.recover);
        RunStep(old(protocol), steps, Advance(t, script.recover));
        return Some(recovered), steps + [Advance(t, script.recover)];
      }
      var ok := CheckAccount(t, key, account, script.check);
      RunStep(old(protocol), steps, Advance(t, script.check));
      return if ok then None else Some(REFUSED), steps + [Advance(t, script.check)];
    }

    /** The sections of a flight: begin it, run it, finish it. */
    method Fly(t: ThreadId, key: A.Key, account: Account, script: Script)
      returns (answer: Option<Answer>, ghost steps: seq<Step>)
      requires Valid() && At(t, key, account, Beginning)
      modifies this, audit
      ensures Valid() && OnlyAdvances(steps, t) && protocol == Run(old(protocol), steps)
      ensures answer.Some? ==> At(t, key, account, Answered(answer.value))
      ensures answer.None? ==> key in flights && At(t, key, account, Waiting(flights[key].id))
    {
      var flight, started := BeginResetFlight(t, key, account, script.begin);
      steps := [Advance(t, script.begin)];
      RunStep(old(protocol), [], Advance(t, script.begin));
      if !started {
        return if flight.Some? && flight.value.account == account then None else Some(REFUSED), steps;
      }
      var told, more := RunFlight(t, key, account, script);
      RunSplits(old(protocol), steps, more);
      steps := steps + more;
      FinishResetFlight(t, key, account, told, script.finish);
      RunStep(old(protocol), steps, Advance(t, script.finish));
      return Some(told), steps + [Advance(t, script.finish)];
    }

    /** One request with no other request moving in between: it ends with an answer, or waits for the live flight
        of its key. Its sections are exactly the protocol's steps of one thread. */
    method ResetQuota(t: ThreadId, key: A.Key, account: Account, script: Script)
      returns (answer: Option<Answer>, ghost steps: seq<Step>)
      requires Valid() && At(t, key, account, Looking)
      modifies this, audit
      ensures Valid() && OnlyAdvances(steps, t) && protocol == Run(old(protocol), steps)
      ensures answer.Some? ==> At(t, key, account, Answered(answer.value))
      ensures answer.None? ==> key in flights && At(t, key, account, Waiting(flights[key].id))
    {
      var flight := LookForFlight(t, key, account, script.find);
      steps := [Advance(t, script.find)];
      RunStep(old(protocol), [], Advance(t, script.find));
      if flight.Some? {
        return if flight.value.account == account then None else Some(REFUSED), steps;
      }
      ghost var more;
      answer, more := Prepare(t, key, account, script);
      RunSplits(old(protocol), steps, more);
      steps := steps + more;
      if answer.Some? {
        return;
      }
      answer, more := Fly(t, key, account, script);
      RunSplits(old(protocol), steps, more);
      steps := steps + more;
    }
  }

  /** What the environment decides at each section of one request. */
  datatype Script = Script(
    find: Choice, recover: Choice, check: Choice, begin: Choice, refresh: Choice, append: Choice, conflict: Choice,
    gate: Choice, call: Choice, replace: Choice, finish: Choice)

  ghost predicate OnlyAdvances(steps: seq<Step>, t: ThreadId) {
    forall i :: 0 <= i < |steps| ==> steps[i].Advance? && steps[i].thread == t
  }

  lemma RunStep(s: Protocol, steps: seq<Step>, step: Step)
    ensures Run(s, steps + [step]) == Next(Run(s, steps), step)
    ensures steps == [] ==> Run(s, [step]) == Next(s, step)
  {
    assert (steps + [step])[..|steps|] == steps;
    if steps == [] { assert steps + [step] == [step]; }
  }
}
