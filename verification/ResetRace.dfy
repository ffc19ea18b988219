/** The run in which another request for the same key overwrites a spent credit's durable success with unknown. */
module ResetRace {
  import opened Domain
  import opened ResetAudit
  import opened ResetProtocol
  import opened ResetSafety
  import opened ResetTheorems

  // ----- the race -----

  const FINE := Access(true, 1, Ok, false, Ok)
  const FAIR := Choice(FINE, true, true, 1, false, HttpResult(200, NoError))
  const PENDING_RECORD := Audit("k", "a", 1, Pending, ZERO_TIME)
  const SPENT_RECORD := Audit("k", "a", 1, Succeeded, 1)

  /** Request 1 looks for a flight before request 0 begins one, and reads the record after request 0 wrote it. */
  const CALL := [Call(0, "k", "a"), Call(1, "k", "a"), Advance(1, FAIR), Advance(0, FAIR)]
  const CHECK := [Advance(0, FAIR), Advance(0, FAIR), Advance(0, FAIR), Advance(0, FAIR)]
  const COMMIT := [Advance(0, FAIR), Advance(1, FAIR), Advance(0, FAIR), Advance(0, FAIR)]

  lemma RunOne(s: Protocol, step: Step)
    ensures Run(s, [step]) == Next(s, step)
  {
    assert [step][..0] == [];
  }

  lemma RunFour(s: Protocol, a: Step, b: Step, c: Step, d: Step)
    ensures Run(s, [a, b, c, d]) == Next(Next(Next(Next(s, a), b), c), d)
  {
    RunOne(s, a);
    assert [a, b][..1] == [a];
    assert Run(s, [a, b]) == Next(Run(s, [a]), b);
    assert [a, b, c][..2] == [a, b];
    assert Run(s, [a, b, c]) == Next(Run(s, [a, b]), c);
    assert [a, b, c, d][..3] == [a, b, c];
  }

  predicate Raced(s: Protocol) {
    && s.book == map["k" := SPENT_RECORD] && s.retention == 0
    && 0 in s.threads && s.threads[0] == Thread("k", "a", Finishing(Answer(Some(Succeeded), false)))
    && 1 in s.threads && s.threads[1] == Thread("k", "a", Recovering(PENDING_RECORD))
    && s.consumes == [Consume("k", "a", Succeeded)] && Removed(s.removals, "k") == 0
  }

  lemma ReadingDropsNothing(s: Protocol, k: Key)
    requires s.retention == 0
    ensures Reading(s, FINE).book == s.book && Removed(Reading(s, FINE).removals, k) == Removed(s.removals, k)
  {
    RemovedAppended(s.removals, s.book.Keys - s.book.Keys, k);
  }

  lemma ReplaceDropsNothing(s: Protocol, audit: Audit, k: Key)
    requires s.retention == 0 && audit.key in s.book
    ensures var c := Replace(s.book, 0, audit, FINE);
            c.verdict == Done && c.book == s.book[audit.key := audit]
            && Removed(Changed(s, c).removals, k) == Removed(s.removals, k)
  {
    RemovedAppended(s.removals, Replace(s.book, 0, audit, FINE).lost, k);
  }

  lemma AppendDropsNothing(s: Protocol, audit: Audit, k: Key)
    requires s.retention == 0 && audit.key !in s.book
    ensures var c := Append(s.book, 0, audit, FINE);
            c.verdict == Done && c.book == s.book[audit.key := audit]
            && Removed(Changed(s, c).removals, k) == Removed(s.removals, k)
  {
    RemovedAppended(s.removals, Append(s.book, 0, audit, FINE).lost, k);
  }

  predicate Called(s: Protocol, pc: Pc) {
    && s.book == map[] && s.retention == 0 && !s.stopped && s.consumes == [] && Removed(s.removals, "k") == 0
    && s.threads == map[0 := Thread("k", "a", pc), 1 := Thread("k", "a", Finding)]
    && (pc.Finding? || pc.Checking? || pc.Beginning? ==> s.flights == map[] && s.busy == {})
  }

  lemma Calling(s: Protocol)
    requires s == Initial(0)
    ensures Called(Run(s, CALL), Finding)
  {
    var s1 := Next(s, Call(0, "k", "a"));
    var s2 := Next(s1, Call(1, "k", "a"));
    var s3 := Next(s2, Advance(1, FAIR));
    var s4 := Next(s3, Advance(0, FAIR));
    RunFour(s, Call(0, "k", "a"), Call(1, "k", "a"), Advance(1, FAIR), Advance(0, FAIR));
    assert s4.threads == map[0 := Thread("k", "a", Finding), 1 := Thread("k", "a", Finding)];
  }

  lemma FindingNothing(s: Protocol)
    requires Called(s, Finding)
    ensures Called(Next(s, Advance(0, FAIR)), Checking)
  {
    ReadingDropsNothing(s, "k");
  }

  lemma Taking(s: Protocol, from: Pc, to: Pc)
    requires Called(s, from)
    requires (from == Checking && to == Beginning) || (from == Beginning && to == Refreshing)
             || (from == Refreshing && to == Appending)
    ensures Called(Next(s, Advance(0, FAIR)), to)
  {
  }

  lemma CheckingUp(s: Protocol)
    requires Called(s, Finding)
    ensures Called(Run(s, CHECK), Appending)
  {
    RunFour(s, Advance(0, FAIR), Advance(0, FAIR), Advance(0, FAIR), Advance(0, FAIR));
    FindingNothing(s);
    var s1 := Next(s, Advance(0, FAIR));
    Taking(s1, Checking, Beginning);
    Taking(Next(s1, Advance(0, FAIR)), Beginning, Refreshing);
    Taking(Next(Next(s1, Advance(0, FAIR)), Advance(0, FAIR)), Refreshing, Appending);
  }

  predicate Committing(s: Protocol, mine: Pc, other: Pc, spent: seq<Consume>) {
    && s.book == map["k" := PENDING_RECORD] && s.retention == 0 && !s.stopped
    && s.threads == map[0 := Thread("k", "a", mine), 1 := Thread("k", "a", other)]
    && s.consumes == spent && Removed(s.removals, "k") == 0
  }

  lemma AppendingFirst(s: Protocol)
    requires Called(s, Appending)
    ensures Committing(Next(s, Advance(0, FAIR)), AtGate(PENDING_RECORD), Finding, [])
  {
    AppendDropsNothing(s, PENDING_RECORD, "k");
  }

  lemma FindingThePending(s: Protocol)
    requires Committing(s, AtGate(PENDING_RECORD), Finding, [])
    ensures Committing(Next(s, Advance(1, FAIR)), AtGate(PENDING_RECORD), Recovering(PENDING_RECORD), [])
  {
    ReadingDropsNothing(s, "k");
  }

  lemma SpendingIt(s: Protocol)
    requires Committing(s, AtGate(PENDING_RECORD), Recovering(PENDING_RECORD), [])
    ensures Committing(Next(Next(s, Advance(0, FAIR)), Advance(0, FAIR)), Replacing(SPENT_RECORD),
                       Recovering(PENDING_RECORD), [Consume("k", "a", Succeeded)])
  {
    var u := Next(s, Advance(0, FAIR));
    assert Committing(u, InGate(PENDING_RECORD), Recovering(PENDING_RECORD), []);
  }

  lemma CommittingUp(s: Protocol)
    requires Called(s, Appending)
    ensures Committing(Run(s, COMMIT), Replacing(SPENT_RECORD), Recovering(PENDING_RECORD),
                       [Consume("k", "a", Succeeded)])
  {
    RunFour(s, Advance(0, FAIR), Advance(1, FAIR), Advance(0, FAIR), Advance(0, FAIR));
    AppendingFirst(s);
    FindingThePending(Next(s, Advance(0, FAIR)));
    SpendingIt(Next(Next(s, Advance(0, FAIR)), Advance(1, FAIR)));
  }

  lemma OwnerReplaces(s: Protocol, t: ThreadId, audit: Audit)
    requires s.retention == 0 && audit.key in s.book && t in s.threads
    ensures var u := ReplaceAudit(s, t, audit, FINE);
            && u.book == s.book[audit.key := audit] && u.retention == 0 && u.consumes == s.consumes
            && Removed(u.removals, audit.key) == Removed(s.removals, audit.key)
            && u.threads == s.threads[t := s.threads[t].(
                              pc := Finishing(Answer(Some(audit.outcome), audit.outcome.Unknown?)))]
  {
    ReplaceDropsNothing(s, audit, audit.key);
  }

  lemma Replaced(s: Protocol)
    requires Committing(s, Replacing(SPENT_RECORD), Recovering(PENDING_RECORD), [Consume("k", "a", Succeeded)])
    ensures Raced(Next(s, Advance(0, FAIR)))
  {
    assert 0 in s.threads && s.threads[0] == Thread("k", "a", Replacing(SPENT_RECORD));
    assert Next(s, Advance(0, FAIR)) == ReplaceAudit(s, 0, SPENT_RECORD, FINE);
    OwnerReplaces(s, 0, SPENT_RECORD);
  }

  lemma Overwritten(s: Protocol)
    requires Raced(s)
    ensures var u := Next(s, Advance(1, FAIR));
            && "k" in u.book && u.book["k"].outcome == Unknown
            && u.consumes == s.consumes && Removed(u.removals, "k") == 0
  {
    ReplaceDropsNothing(s, PENDING_RECORD.(outcome := Unknown, finishedAt := 1), "k");
  }

  /** A terminal outcome is not final: this run spends the credit, makes its success durable and is about to tell
      the caller so, and one more step of another request leaves the outcome durably unknown. No record is ever
      removed. */
  lemma TerminalOutcomeIsNotFinal() returns (steps: seq<Step>, last: Step)
    ensures var s := Run(Initial(0), steps);
            var u := Run(Initial(0), steps + [last]);
            && Raced(s)
            && "k" in u.book && u.book["k"].outcome == Unknown
            && u.consumes == [Consume("k", "a", Succeeded)] && Removed(u.removals, "k") == 0
  {
    var first := CALL + CHECK + COMMIT;
    steps, last := first + [Advance(0, FAIR)], Advance(1, FAIR);
    RunSplits(Initial(0), CALL, CHECK);
    RunSplits(Initial(0), CALL + CHECK, COMMIT);
    RunSplits(Initial(0), first, [Advance(0, FAIR)]);
    RunSplits(Initial(0), steps, [last]);
    Calling(Initial(0));
    CheckingUp(Run(Initial(0), CALL));
    CommittingUp(Run(Initial(0), CALL + CHECK));
    RunOne(Run(Initial(0), first), Advance(0, FAIR));
    Replaced(Run(Initial(0), first));
    RunOne(Run(Initial(0), steps), last);
    Overwritten(Run(Initial(0), steps));
  }
}
