/** What every interleaving of reset requests keeps: one consume per key and removal, durable evidence of every
    consume, truthful outcomes. */
module ResetSafety {
  import opened Domain
  import opened ResetAudit
  import opened ResetProtocol

  predicate Definite(outcome: Outcome) { outcome.Succeeded? || outcome.Failed? }

  ghost predicate Witnessed(consumes: seq<Consume>, key: Key, outcome: Outcome) {
    exists c :: c in consumes && c.key == key && c.outcome == outcome
  }

  ghost predicate AnswerIsTrue(s: Protocol, key: Key, answer: Answer) {
    answer.outcome.Some? && Definite(answer.outcome.value) ==> Witnessed(s.consumes, key, answer.outcome.value)
  }

  // ----- what an audit operation does to one key -----

  predicate Drops(book: Book, c: Change, k: Key) {
    && (k in c.book ==> k in book && c.book[k] == book[k])
    && (k in book && k !in c.book ==> k in c.lost)
  }

  predicate Inserts(book: Book, c: Change, audit: Audit) {
    && audit.key in c.book && c.book[audit.key] == audit
    && (audit.key in book ==> audit.key in c.lost)
  }

  predicate Overwrites(book: Book, c: Change, audit: Audit) {
    audit.key in book && audit.key in c.book && c.book[audit.key] == audit && audit.key !in c.lost
  }

  function LoadingChange(book: Book, retention: int, env: Access): Change {
    var disk := Loading(book, retention, env).disk;
    Change(disk, book.Keys - disk.Keys, Done)
  }

  lemma LoadingEffect(book: Book, retention: int, env: Access, k: Key)
    ensures Drops(book, LoadingChange(book, retention, env), k)
  {
  }

  lemma AppendEffect(book: Book, retention: int, audit: Audit, env: Access, k: Key)
    ensures var c := Append(book, retention, audit, env);
            && (k != audit.key ==> Drops(book, c, k))
            && (Drops(book, c, audit.key) || Inserts(book, c, audit))
            && (c.verdict.Done? ==> Inserts(book, c, audit))
  {
  }

  lemma ReplaceEffect(book: Book, retention: int, audit: Audit, env: Access, k: Key)
    ensures var c := Replace(book, retention, audit, env);
            && (k != audit.key ==> Drops(book, c, k))
            && (Drops(book, c, audit.key) || Overwrites(book, c, audit))
            && (c.verdict.Done? ==> Overwrites(book, c, audit))
  {
  }

  lemma RecoverEffect(book: Book, retention: int, now: Instant, env: Access, k: Key)
    ensures var c := Recover(book, retention, now, env);
            || Drops(book, c, k)
            || (k in book && k in c.book && k !in c.lost && c.book[k] == WithOutcomeKnown(book[k], now))
  {
  }

  lemma DeleteEffect(book: Book, retention: int, cutoff: Instant, env: Access, k: Key)
    ensures Drops(book, Delete(book, retention, cutoff, env), k)
  {
  }

  lemma ClearEffect(book: Book, env: Access, k: Key)
    ensures Drops(book, Clear(book, env), k)
  {
  }

  // ----- the invariant -----

  predicate Committed(s: Protocol, k: Key) {
    && k in s.flights && s.flights[k].owner in s.threads
    && (s.threads[s.flights[k].owner].pc.AtGate? || s.threads[s.flights[k].owner].pc.InGate?)
  }

  ghost predicate KeyOk(s: Protocol, k: Key) {
    && (k in s.book ==> s.book[k].key == k)
    && Consumed(s.consumes, k) + (if Committed(s, k) then 1 else 0)
       <= (if k in s.book then 1 else 0) + Removed(s.removals, k)
    && (Removed(s.removals, k) == 0 ==>
          && (forall c :: c in s.consumes && c.key == k ==> k in s.book && s.book[k].account == c.account)
          && (k in s.book && Definite(s.book[k].outcome) ==> Witnessed(s.consumes, k, s.book[k].outcome)))
  }

  predicate HoldsAudit(pc: Pc) {
    pc.AtGate? || pc.InGate? || pc.Replacing?
  }

  ghost predicate PcOk(s: Protocol, me: Thread) {
    match me.pc
    case Recovering(a) =>
      && a.key == me.key && a.account == me.account
      && (Removed(s.removals, me.key) == 0 ==> me.key in s.book && s.book[me.key].account == me.account)
    case AtGate(a) => HeldAuditOk(s, me, a)
    case InGate(a) => HeldAuditOk(s, me, a)
    case Replacing(a) =>
      && HeldAuditOk(s, me, a)
      && (Removed(s.removals, me.key) == 0 ==> Consume(me.key, me.account, a.outcome) in s.consumes)
    case Finishing(answer) => Removed(s.removals, me.key) == 0 ==> AnswerIsTrue(s, me.key, answer)
    case Answered(answer) => Removed(s.removals, me.key) == 0 ==> AnswerIsTrue(s, me.key, answer)
    case Waiting(id) => WaitOk(s, me.key, id)
    case Reloading(id) => WaitOk(s, me.key, id)
    case _ => true
  }

  predicate HeldAuditOk(s: Protocol, me: Thread, a: Audit) {
    && a.key == me.key && a.account == me.account
    && (Removed(s.removals, me.key) == 0 ==>
          me.key in s.book && s.book[me.key].account == me.account && !Definite(s.book[me.key].outcome))
  }

  ghost predicate WaitOk(s: Protocol, key: Key, id: nat) {
    && id < s.nextFlight
    && (id in s.landings ==> s.landings[id].key == key)
    && (forall k :: k in s.flights && s.flights[k].id == id ==> k == key)
  }

  ghost predicate LandingOk(s: Protocol, id: nat)
    requires id in s.landings
  {
    && id < s.nextFlight
    && (Removed(s.removals, s.landings[id].key) == 0 ==> AnswerIsTrue(s, s.landings[id].key, s.landings[id].answer))
  }

  predicate FlightOk(s: Protocol, k: Key)
    requires k in s.flights
  {
    var f := s.flights[k];
    && f.owner in s.threads && s.threads[f.owner].key == k && s.threads[f.owner].account == f.account
    && OwnsFlight(s.threads[f.owner].pc) && f.id < s.nextFlight && f.id !in s.landings
  }

  predicate OwnerOk(s: Protocol, t: ThreadId)
    requires t in s.threads
  {
    OwnsFlight(s.threads[t].pc) ==> s.threads[t].key in s.flights && s.flights[s.threads[t].key].owner == t
  }

  function FlightAccounts(flights: map<Key, Flight>): set<Account> {
    set k | k in flights :: flights[k].account
  }

  /** A flight and its owner name each other, no two flights share an account, and the busy accounts are exactly
      those of the flights and those of the probes. */
  ghost predicate FlightsOk(s: Protocol) {
    && (forall k :: k in s.flights ==> FlightOk(s, k))
    && (forall t :: t in s.threads ==> OwnerOk(s, t))
    && (forall j, k :: j in s.flights && k in s.flights && j != k ==>
          s.flights[j].account != s.flights[k].account && s.flights[j].id != s.flights[k].id)
    && s.busy == FlightAccounts(s.flights) + s.probes
    && FlightAccounts(s.flights) !! s.probes
  }

  ghost predicate Inv(s: Protocol) {
    && FlightsOk(s)
    && (forall k: Key :: KeyOk(s, k))
    && (forall t :: t in s.threads ==> PcOk(s, s.threads[t]))
    && (forall id :: id in s.landings ==> LandingOk(s, id))
  }

  // ----- counting -----

  lemma RemovedAppended(removals: seq<set<Key>>, lost: set<Key>, k: Key)
    ensures Removed(removals + [lost], k) == Removed(removals, k) + (if k in lost then 1 else 0)
  {
    assert (removals + [lost])[..|removals|] == removals;
  }

  lemma ConsumedAppended(consumes: seq<Consume>, c: Consume, k: Key)
    ensures Consumed(consumes + [c], k) == Consumed(consumes, k) + (if c.key == k then 1 else 0)
  {
    assert (consumes + [c])[..|consumes|] == consumes;
  }

  // ----- one request moves -----

  /** Whether the key has room for one more consume. */
  predicate HasRoom(s: Protocol, k: Key) {
    Consumed(s.consumes, k) + 1 <= (if k in s.book then 1 else 0) + Removed(s.removals, k)
  }

  predicate IsCommitted(pc: Pc) { pc.AtGate? || pc.InGate? }

  lemma GotoKeepsKey(s: Protocol, t: ThreadId, pc: Pc, k: Key)
    requires FlightsOk(s) && KeyOk(s, k) && t in s.threads
    requires OwnsFlight(pc) == OwnsFlight(s.threads[t].pc)
    requires IsCommitted(pc) && !IsCommitted(s.threads[t].pc) ==> HasRoom(s, s.threads[t].key)
    ensures KeyOk(Goto(s, t, pc), k)
  {
    if k in s.flights { assert FlightOk(s, k); }
  }

  lemma GotoKeepsFlights(s: Protocol, t: ThreadId, pc: Pc)
    requires FlightsOk(s) && t in s.threads
    requires OwnsFlight(pc) == OwnsFlight(s.threads[t].pc)
    ensures FlightsOk(Goto(s, t, pc))
  {
    var u := Goto(s, t, pc);
    forall k | k in u.flights ensures FlightOk(u, k) { assert FlightOk(s, k); }
    forall v | v in u.threads ensures OwnerOk(u, v) { assert OwnerOk(s, v); }
  }

  lemma GotoKeeps(s: Protocol, t: ThreadId, pc: Pc)
    requires Inv(s) && t in s.threads
    requires OwnsFlight(pc) == OwnsFlight(s.threads[t].pc)
    requires PcOk(s, s.threads[t].(pc := pc))
    requires IsCommitted(pc) && !IsCommitted(s.threads[t].pc) ==> HasRoom(s, s.threads[t].key)
    ensures Inv(Goto(s, t, pc))
  {
    var u := Goto(s, t, pc);
    GotoKeepsFlights(s, t, pc);
    forall k: Key ensures KeyOk(u, k) { GotoKeepsKey(s, t, pc, k); }
    forall v | v in u.threads ensures PcOk(u, u.threads[v]) { PcOkFrame(s, u, u.threads[v]); }
    forall id | id in u.landings ensures LandingOk(u, id) { assert LandingOk(s, id); }
  }

  /** What a request knows depends only on the shared state. */
  lemma PcOkFrame(s: Protocol, u: Protocol, me: Thread)
    requires PcOk(s, me)
    requires u == s.(threads := u.threads)
    ensures PcOk(u, me)
  {
  }

  // ----- the audit changes -----

  ghost predicate NobodyHolds(s: Protocol, k: Key) {
    forall t :: t in s.threads && s.threads[t].key == k ==> !HoldsAudit(s.threads[t].pc)
  }

  /** The changes of the audit that keep the invariant for one key: its record is dropped and counted, appears
      anew, keeps its account without becoming definite, or becomes what the one consume showed. */
  ghost predicate Softens(s: Protocol, c: Change, k: Key) {
    || Drops(s.book, c, k)
    || (&& k in c.book && c.book[k].key == k
        && (|| ((k in s.book ==> k in c.lost) && !Definite(c.book[k].outcome))
            || (&& k in s.book && k !in c.lost
                && (Removed(s.removals, k) == 0 ==>
                      && c.book[k].account == s.book[k].account
                      && (Definite(c.book[k].outcome) ==>
                            || c.book[k].outcome == s.book[k].outcome
                            || (Witnessed(s.consumes, k, c.book[k].outcome) && NobodyHolds(s, k)))))))
  }

  lemma ChangeKeepsKey(s: Protocol, c: Change, k: Key)
    requires KeyOk(s, k) && Softens(s, c, k)
    ensures KeyOk(Changed(s, c), k)
  {
    RemovedAppended(s.removals, c.lost, k);
  }

  lemma ChangeKeepsPc(s: Protocol, c: Change, t: ThreadId)
    requires t in s.threads && PcOk(s, s.threads[t]) && Softens(s, c, s.threads[t].key)
    ensures PcOk(Changed(s, c), s.threads[t])
  {
    RemovedAppended(s.removals, c.lost, s.threads[t].key);
  }

  lemma ChangedKeeps(s: Protocol, c: Change)
    requires Inv(s) && forall k: Key :: Softens(s, c, k)
    ensures Inv(Changed(s, c))
  {
    var u := Changed(s, c);
    forall k: Key ensures KeyOk(u, k) { ChangeKeepsKey(s, c, k); }
    forall t | t in u.threads ensures PcOk(u, u.threads[t]) { ChangeKeepsPc(s, c, t); }
    forall id | id in u.landings ensures LandingOk(u, id) {
      assert LandingOk(s, id);
      RemovedAppended(s.removals, c.lost, s.landings[id].key);
    }
    forall k | k in u.flights ensures FlightOk(u, k) { assert FlightOk(s, k); }
    forall t | t in u.threads ensures OwnerOk(u, t) { assert OwnerOk(s, t); }
  }

  lemma ReadingKeeps(s: Protocol, access: Access)
    requires Inv(s)
    ensures Inv(Reading(s, access))
  {
    var c := LoadingChange(s.book, s.retention, access);
    forall k: Key ensures Softens(s, c, k) { LoadingEffect(s.book, s.retention, access, k); }
    ChangedKeeps(s, c);
  }

  // ----- the steps of a request -----

  lemma FindIsOnDisk(s: Protocol, key: Key, access: Access)
    ensures var u := Reading(s, access);
            Find(s.book, s.retention, key, access).Records? ==>
              var found := Find(s.book, s.retention, key, access).items;
              (found.Some? <==> key in u.book) && (found.Some? ==> u.book[key] == found.value)
  {
  }

  /** The record of a key is as true as an answer. */
  lemma RecordIsTrue(s: Protocol, k: Key)
    requires KeyOk(s, k) && k in s.book
    ensures Removed(s.removals, k) == 0 ==> forall failed :: AnswerIsTrue(s, k, Answer(Some(s.book[k].outcome), failed))
  {
  }

  lemma FindingKeeps(s: Protocol, t: ThreadId, access: Access)
    requires Inv(s) && t in s.threads && s.threads[t].pc.Finding?
    ensures var me := s.threads[t];
            Inv(Goto(Reading(s, access), t, AfterFind(Find(s.book, s.retention, me.key, access), me.account)))
  {
    var me := s.threads[t];
    var u := Reading(s, access);
    ReadingKeeps(s, access);
    FindIsOnDisk(s, me.key, access);
    assert KeyOk(u, me.key);
    if me.key in u.book { RecordIsTrue(u, me.key); }
    GotoKeeps(u, t, AfterFind(Find(s.book, s.retention, me.key, access), me.account));
  }

  lemma ConflictingKeeps(s: Protocol, t: ThreadId, access: Access)
    requires Inv(s) && t in s.threads && s.threads[t].pc.Conflicting?
    ensures var me := s.threads[t];
            Inv(Goto(Reading(s, access), t, AfterConflict(Find(s.book, s.retention, me.key, access), me.account)))
  {
    var me := s.threads[t];
    var u := Reading(s, access);
    ReadingKeeps(s, access);
    FindIsOnDisk(s, me.key, access);
    assert KeyOk(u, me.key);
    if me.key in u.book { RecordIsTrue(u, me.key); }
    GotoKeeps(u, t, AfterConflict(Find(s.book, s.retention, me.key, access), me.account));
  }

  lemma ReloadedAnswer(s: Protocol, t: ThreadId, flight: nat, access: Access)
    requires Inv(s) && t in s.threads && s.threads[t].pc == Reloading(flight) && flight in s.landings
    ensures var key := s.threads[t].key;
            var found := Find(s.book, s.retention, key, access);
            Inv(Goto(Reading(s, access), t, Answered(AfterReload(found, s.landings[flight].answer))))
  {
    var key := s.threads[t].key;
    var u := Reading(s, access);
    assert PcOk(s, s.threads[t]);
    ReadingKeeps(s, access);
    FindIsOnDisk(s, key, access);
    assert KeyOk(u, key) && LandingOk(u, flight);
    if key in u.book { RecordIsTrue(u, key); }
    GotoKeeps(u, t, Answered(AfterReload(Find(s.book, s.retention, key, access), s.landings[flight].answer)));
  }

  lemma ReloadKeeps(s: Protocol, t: ThreadId, flight: nat, access: Access)
    requires Inv(s) && t in s.threads && s.threads[t].pc == Reloading(flight)
    ensures Inv(Reload(s, t, flight, access))
  {
    if flight in s.landings {
      assert PcOk(s, s.threads[t]) && LandingOk(s, flight);
      var landed := s.landings[flight].answer;
      if landed.failed && landed.outcome == Some(Pending) {
        GotoKeeps(s, t, Answered(landed));
      } else {
        ReloadedAnswer(s, t, flight, access);
      }
    }
  }

  lemma JoinKeeps(s: Protocol, t: ThreadId)
    requires Inv(s) && t in s.threads && !OwnsFlight(s.threads[t].pc) && s.threads[t].key in s.flights
    ensures Inv(Join(s, t))
  {
    assert FlightOk(s, s.threads[t].key);
    GotoKeeps(s, t, if s.flights[s.threads[t].key].account == s.threads[t].account
                    then Waiting(s.flights[s.threads[t].key].id) else Answered(REFUSED));
  }

  lemma AppendingKeeps(s: Protocol, t: ThreadId, choice: Choice)
    requires Inv(s) && t in s.threads && s.threads[t].pc.Appending?
    ensures Inv(AppendPending(s, t, choice))
  {
    var me := s.threads[t];
    var audit := Audit(me.key, me.account, choice.now, Pending, ZERO_TIME);
    var c := Append(s.book, s.retention, audit, choice.access);
    forall k: Key ensures Softens(s, c, k) { AppendEffect(s.book, s.retention, audit, choice.access, k); }
    ChangedKeeps(s, c);
    AppendEffect(s.book, s.retention, audit, choice.access, me.key);
    if c.verdict.Done? {
      NewRecordHasRoom(s, t, c, audit);
      GotoKeeps(Changed(s, c), t, AtGate(audit));
    } else {
      GotoKeeps(Changed(s, c), t, if c.verdict.Conflict? then Conflicting else Finishing(REFUSED));
    }
  }

  lemma NewRecordHasRoom(s: Protocol, t: ThreadId, c: Change, audit: Audit)
    requires FlightsOk(s) && t in s.threads && s.threads[t].pc.Appending? && KeyOk(s, s.threads[t].key)
    requires audit.key == s.threads[t].key && Inserts(s.book, c, audit)
    ensures HasRoom(Changed(s, c), audit.key)
  {
    assert OwnerOk(s, t);
    RemovedAppended(s.removals, c.lost, audit.key);
  }

  lemma RecoverOrphanKeeps(s: Protocol, t: ThreadId, orphan: Audit, choice: Choice)
    requires Inv(s) && t in s.threads && s.threads[t].pc == Recovering(orphan)
    ensures Inv(RecoverOrphan(s, t, orphan, choice))
  {
    var record := orphan.(outcome := Unknown, finishedAt := choice.now);
    var c := Replace(s.book, s.retention, record, choice.access);
    assert PcOk(s, s.threads[t]);
    forall k: Key ensures Softens(s, c, k) { ReplaceEffect(s.book, s.retention, record, choice.access, k); }
    ChangedKeeps(s, c);
    GotoKeeps(Changed(s, c), t,
              Answered(if c.verdict.Done? then Answer(Some(Unknown), false) else Answer(Some(Pending), true)));
  }

  /** Two holders of one key are the same request. */
  lemma HolderIsOwner(s: Protocol, t: ThreadId, u: ThreadId)
    requires FlightsOk(s) && t in s.threads && u in s.threads && s.threads[t].key == s.threads[u].key
    requires OwnsFlight(s.threads[t].pc) && OwnsFlight(s.threads[u].pc)
    ensures t == u
  {
    assert OwnerOk(s, t) && OwnerOk(s, u);
  }

  lemma OwnerWriteSoftens(s: Protocol, u: Protocol, audit: Audit, access: Access, k: Key)
    requires u.book == s.book && u.retention == s.retention && u.consumes == s.consumes && u.removals == s.removals
    requires NobodyHolds(u, audit.key)
    requires Removed(s.removals, audit.key) == 0 ==>
               && (audit.key in s.book ==> s.book[audit.key].account == audit.account)
               && Witnessed(s.consumes, audit.key, audit.outcome)
    ensures Softens(u, Replace(s.book, s.retention, audit, access), k)
  {
    ReplaceEffect(s.book, s.retention, audit, access, k);
  }

  lemma NobodyElseHolds(s: Protocol, t: ThreadId, pc: Pc)
    requires FlightsOk(s) && t in s.threads && OwnsFlight(s.threads[t].pc) && !HoldsAudit(pc)
    ensures NobodyHolds(Goto(s, t, pc), s.threads[t].key)
  {
    var u := Goto(s, t, pc);
    forall v | v in u.threads && u.threads[v].key == s.threads[t].key ensures !HoldsAudit(u.threads[v].pc) {
      if v != t && OwnsFlight(s.threads[v].pc) { HolderIsOwner(s, t, v); }
    }
  }

  lemma ReplacingKeeps(s: Protocol, t: ThreadId, audit: Audit, access: Access)
    requires Inv(s) && t in s.threads && s.threads[t].pc == Replacing(audit)
    ensures Inv(ReplaceAudit(s, t, audit, access))
  {
    var c := Replace(s.book, s.retention, audit, access);
    var done := Finishing(if c.verdict.Done? then Answer(Some(audit.outcome), audit.outcome.Unknown?)
                          else Answer(Some(Unknown), true));
    var u := Goto(s, t, done);
    assert PcOk(s, s.threads[t]);
    GotoKeeps(s, t, done);
    NobodyElseHolds(s, t, done);
    forall k: Key ensures Softens(u, c, k) { OwnerWriteSoftens(s, u, audit, access, k); }
    ChangedKeeps(u, c);
    assert Changed(u, c) == ReplaceAudit(s, t, audit, access);
  }

  // ----- spending -----

  /** The state right after the upstream call, the request having let go of its audit. */
  function Spent(s: Protocol, t: ThreadId, outcome: Outcome): Protocol
    requires t in s.threads
  {
    Goto(s.(consumes := s.consumes + [Consume(s.threads[t].key, s.threads[t].account, outcome)]), t, Finishing(REFUSED))
  }

  lemma SpentKey(s: Protocol, t: ThreadId, outcome: Outcome, k: Key)
    requires Inv(s) && t in s.threads && s.threads[t].pc.InGate?
    ensures KeyOk(Spent(s, t, outcome), k)
  {
    var me := s.threads[t];
    var u := Spent(s, t, outcome);
    var c := Consume(me.key, me.account, outcome);
    ConsumedAppended(s.consumes, c, k);
    assert KeyOk(s, k) && PcOk(s, me) && OwnerOk(s, t);
    if k in s.flights { assert FlightOk(s, k); }
    WitnessKept(s.consumes, c);
  }

  lemma WitnessKept(consumes: seq<Consume>, c: Consume)
    ensures forall key, outcome :: Witnessed(consumes, key, outcome) ==> Witnessed(consumes + [c], key, outcome)
    ensures c in consumes + [c]
  {
    forall key, outcome | Witnessed(consumes, key, outcome) ensures Witnessed(consumes + [c], key, outcome) {
      var d :| d in consumes && d.key == key && d.outcome == outcome;
      assert d in consumes + [c];
    }
    assert (consumes + [c])[|consumes|] == c;
  }

  lemma SpentPc(s: Protocol, u: Protocol, me: Thread)
    requires PcOk(s, me) && u == s.(consumes := u.consumes, threads := u.threads)
    requires forall c :: c in s.consumes ==> c in u.consumes
    requires forall key, outcome :: Witnessed(s.consumes, key, outcome) ==> Witnessed(u.consumes, key, outcome)
    ensures PcOk(u, me)
  {
  }

  lemma SpentKeeps(s: Protocol, t: ThreadId, outcome: Outcome)
    requires Inv(s) && t in s.threads && s.threads[t].pc.InGate?
    ensures Inv(Spent(s, t, outcome))
  {
    var u := Spent(s, t, outcome);
    WitnessKept(s.consumes, Consume(s.threads[t].key, s.threads[t].account, outcome));
    forall k: Key ensures KeyOk(u, k) { SpentKey(s, t, outcome, k); }
    forall v | v in u.threads ensures PcOk(u, u.threads[v]) { if v != t { SpentPc(s, u, s.threads[v]); } }
    forall id | id in u.landings ensures LandingOk(u, id) { assert LandingOk(s, id); }
    GotoKeepsFlights(s, t, Finishing(REFUSED));
    SpentFlights(s, t, outcome);
  }

  lemma SpendIsSpent(s: Protocol, t: ThreadId, audit: Audit, choice: Choice)
    requires t in s.threads
    ensures var outcome := FinalOutcome(choice.result);
            Goto(Spent(s, t, outcome), t, Replacing(audit.(outcome := outcome, finishedAt := choice.now)))
            == Spend(s, t, audit, choice)
  {
    var outcome := FinalOutcome(choice.result);
    assert Goto(Spent(s, t, outcome), t, Replacing(audit.(outcome := outcome, finishedAt := choice.now))).threads
           == Spend(s, t, audit, choice).threads;
  }

  lemma SpentPcOk(s: Protocol, t: ThreadId, outcome: Outcome, audit: Audit, pc: Pc)
    requires t in s.threads && s.threads[t].pc == InGate(audit) && PcOk(s, s.threads[t])
    requires pc.Replacing? && pc.audit.key == audit.key && pc.audit.account == audit.account && pc.audit.outcome == outcome
    ensures PcOk(Spent(s, t, outcome), s.threads[t].(pc := pc))
  {
    WitnessKept(s.consumes, Consume(s.threads[t].key, s.threads[t].account, outcome));
  }

  lemma SpendKeeps(s: Protocol, t: ThreadId, audit: Audit, choice: Choice)
    requires Inv(s) && t in s.threads && s.threads[t].pc == InGate(audit)
    ensures Inv(Spend(s, t, audit, choice))
  {
    var outcome := FinalOutcome(choice.result);
    var replacing := Replacing(audit.(outcome := outcome, finishedAt := choice.now));
    SpentKeeps(s, t, outcome);
    SpentPcOk(s, t, outcome, audit, replacing);
    GotoKeeps(Spent(s, t, outcome), t, replacing);
    SpendIsSpent(s, t, audit, choice);
  }

  lemma SpentFlights(s: Protocol, t: ThreadId, outcome: Outcome)
    requires t in s.threads && FlightsOk(Goto(s, t, Finishing(REFUSED)))
    ensures FlightsOk(Spent(s, t, outcome))
  {
    var g, u := Goto(s, t, Finishing(REFUSED)), Spent(s, t, outcome);
    forall k | k in u.flights ensures FlightOk(u, k) { assert FlightOk(g, k); }
    forall v | v in u.threads ensures OwnerOk(u, v) { assert OwnerOk(g, v); }
  }

  // ----- flights begin and end -----

  lemma KeyOkFrame(s: Protocol, u: Protocol, k: Key)
    requires KeyOk(s, k) && u.book == s.book && u.consumes == s.consumes && u.removals == s.removals
    requires Committed(u, k) ==> Committed(s, k)
    ensures KeyOk(u, k)
  {
  }

  lemma BegunCommits(s: Protocol, t: ThreadId, k: Key)
    requires FlightsOk(s) && t in s.threads && s.threads[t].pc.Beginning? && s.threads[t].key !in s.flights
    ensures Committed(Begin(s, t), k) ==> Committed(s, k)
  {
    if k in s.flights { assert FlightOk(s, k); }
  }

  lemma PcOkWaitFrame(s: Protocol, u: Protocol, me: Thread)
    requires PcOk(s, me) && u.book == s.book && u.consumes == s.consumes && u.removals == s.removals
    requires me.pc.Waiting? || me.pc.Reloading? ==> WaitOk(u, me.key, me.pc.flight)
    ensures PcOk(u, me)
  {
  }

  lemma BegunPc(s: Protocol, t: ThreadId, v: ThreadId)
    requires t in s.threads && s.threads[t].pc.Beginning? && v in s.threads && PcOk(s, s.threads[v])
    requires s.threads[t].key !in s.flights
    ensures PcOk(Begin(s, t), Begin(s, t).threads[v])
  {
    if v != t { PcOkWaitFrame(s, Begin(s, t), s.threads[v]); }
  }

  lemma BeginKeeps(s: Protocol, t: ThreadId)
    requires Inv(s) && t in s.threads && s.threads[t].pc.Beginning?
    ensures Inv(Begin(s, t))
  {
    var me := s.threads[t];
    if me.key in s.flights {
      JoinKeeps(s, t);
    } else if s.stopped || me.account in s.busy {
      GotoKeeps(s, t, Answered(REFUSED));
    } else {
      var u := Begin(s, t);
      forall id | id in s.landings ensures id != s.nextFlight { assert LandingOk(s, id); }
      NewFlight(s, t);
      forall k: Key ensures KeyOk(u, k) {
        BegunCommits(s, t, k);
        KeyOkFrame(s, u, k);
      }
      forall v | v in u.threads ensures PcOk(u, u.threads[v]) { BegunPc(s, t, v); }
      forall id | id in u.landings ensures LandingOk(u, id) { assert LandingOk(s, id); }
    }
  }

  lemma FlightAccountsGrow(flights: map<Key, Flight>, key: Key, f: Flight)
    requires key !in flights
    ensures FlightAccounts(flights[key := f]) == FlightAccounts(flights) + {f.account}
  {
    var after := flights[key := f];
    assert after[key] == f;
    forall k | k in flights ensures flights[k].account in FlightAccounts(after) { assert after[k] == flights[k]; }
  }

  lemma FlightAccountsShrink(flights: map<Key, Flight>, key: Key)
    requires key in flights
    requires forall k :: k in flights && k != key ==> flights[k].account != flights[key].account
    ensures FlightAccounts(flights - {key}) == FlightAccounts(flights) - {flights[key].account}
  {
    var after := flights - {key};
    forall k | k in after ensures after[k].account in FlightAccounts(flights) { assert flights[k] == after[k]; }
    forall k | k in flights && k != key ensures flights[k].account in FlightAccounts(after) {
      assert after[k] == flights[k];
    }
  }

  lemma NewFlight(s: Protocol, t: ThreadId)
    requires FlightsOk(s) && t in s.threads && s.threads[t].pc.Beginning? && s.nextFlight !in s.landings
    requires s.threads[t].key !in s.flights && s.threads[t].account !in s.busy && !s.stopped
    ensures FlightsOk(Begin(s, t))
  {
    var me := s.threads[t];
    var u := Begin(s, t);
    FlightAccountsGrow(s.flights, me.key, Flight(s.nextFlight, me.account, t));
    forall k | k in u.flights ensures FlightOk(u, k) { if k != me.key { assert FlightOk(s, k); } }
    forall v | v in u.threads ensures OwnerOk(u, v) { assert OwnerOk(s, v); }
    forall k | k in s.flights ensures s.flights[k].account != me.account && s.flights[k].id != s.nextFlight {
      assert s.flights[k].account in FlightAccounts(s.flights);
      assert FlightOk(s, k);
    }
  }

  lemma LandedFlights(s: Protocol, t: ThreadId, answer: Answer)
    requires FlightsOk(s) && t in s.threads && s.threads[t].pc == Finishing(answer)
    ensures FlightsOk(Finish(s, t, answer))
  {
    var me := s.threads[t];
    assert OwnerOk(s, t);
    var u := Finish(s, t, answer);
    FlightAccountsShrink(s.flights, me.key);
    forall k | k in u.flights ensures FlightOk(u, k) { assert FlightOk(s, k); }
    forall v | v in u.threads ensures OwnerOk(u, v) {
      assert OwnerOk(s, v);
      if v != t && OwnsFlight(s.threads[v].pc) && s.threads[v].key == me.key { HolderIsOwner(s, t, v); }
    }
  }

  lemma FinishCommits(s: Protocol, t: ThreadId, answer: Answer, k: Key)
    requires FlightsOk(s) && t in s.threads && s.threads[t].pc == Finishing(answer)
    ensures Committed(Finish(s, t, answer), k) ==> Committed(s, k)
  {
    assert OwnerOk(s, t);
  }

  lemma FinishedPc(s: Protocol, t: ThreadId, answer: Answer, v: ThreadId)
    requires FlightsOk(s) && t in s.threads && s.threads[t].pc == Finishing(answer)
    requires v in s.threads && PcOk(s, s.threads[v]) && PcOk(s, s.threads[t])
    ensures PcOk(Finish(s, t, answer), Finish(s, t, answer).threads[v])
  {
    assert OwnerOk(s, t) && FlightOk(s, s.threads[t].key);
  }

  lemma FinishKeeps(s: Protocol, t: ThreadId, answer: Answer)
    requires Inv(s) && t in s.threads && s.threads[t].pc == Finishing(answer)
    ensures Inv(Finish(s, t, answer))
  {
    assert OwnerOk(s, t) && FlightOk(s, s.threads[t].key) && PcOk(s, s.threads[t]);
    var u := Finish(s, t, answer);
    LandedFlights(s, t, answer);
    forall k: Key ensures KeyOk(u, k) {
      FinishCommits(s, t, answer, k);
      KeyOkFrame(s, u, k);
    }
    forall v | v in u.threads ensures PcOk(u, u.threads[v]) { FinishedPc(s, t, answer, v); }
    forall id | id in u.landings ensures LandingOk(u, id) { if id in s.landings { assert LandingOk(s, id); } }
  }

  // ----- every step -----

  lemma AdvanceWithoutFlight(s: Protocol, t: ThreadId, choice: Choice)
    requires Inv(s) && t in s.threads && !OwnsFlight(s.threads[t].pc)
    ensures Inv(AdvanceThread(s, t, choice))
  {
    var me := s.threads[t];
    assert PcOk(s, me);
    match me.pc
    case Looking => if me.key in s.flights { JoinKeeps(s, t); } else { GotoKeeps(s, t, Finding); }
    case Finding => FindingKeeps(s, t, choice.access);
    case Recovering(orphan) => RecoverOrphanKeeps(s, t, orphan, choice);
    case Checking => GotoKeeps(s, t, if choice.accountOk then Beginning else Answered(REFUSED));
    case Beginning => BeginKeeps(s, t);
    case Waiting(flight) =>
      if choice.cancelled { GotoKeeps(s, t, Answered(REFUSED)); }
      else if flight in s.landings { GotoKeeps(s, t, Reloading(flight)); }
    case Reloading(flight) => ReloadKeeps(s, t, flight, choice.access);
    case _ =>
  }

  lemma AdvanceInFlight(s: Protocol, t: ThreadId, choice: Choice)
    requires Inv(s) && t in s.threads && OwnsFlight(s.threads[t].pc)
    ensures Inv(AdvanceThread(s, t, choice))
  {
    var me := s.threads[t];
    assert PcOk(s, me);
    match me.pc
    case Refreshing => GotoKeeps(s, t, if choice.creditsOk then Appending else Finishing(REFUSED));
    case Appending => AppendingKeeps(s, t, choice);
    case Conflicting => ConflictingKeeps(s, t, choice.access);
    case AtGate(audit) =>
      GotoKeeps(s, t, if s.stopped || choice.cancelled then Finishing(Answer(Some(Pending), true)) else InGate(audit));
    case InGate(audit) => SpendKeeps(s, t, audit, choice);
    case Replacing(audit) => ReplacingKeeps(s, t, audit, choice.access);
    case Finishing(answer) => FinishKeeps(s, t, answer);
    case _ =>
  }

  lemma AuditStepKeeps(s: Protocol, step: Step)
    requires Inv(s) && (step.AuditListed? || step.AuditCleared? || step.AuditDeleted? || step.AuditRecovered?)
    ensures Inv(Next(s, step))
  {
    match step
    case AuditListed(access) => ReadingKeeps(s, access);
    case AuditCleared(access) =>
      var c := Clear(s.book, access);
      forall k: Key ensures Softens(s, c, k) { ClearEffect(s.book, access, k); }
      ChangedKeeps(s, c);
    case AuditDeleted(cutoff, access) =>
      var c := Delete(s.book, s.retention, cutoff, access);
      forall k: Key ensures Softens(s, c, k) { DeleteEffect(s.book, s.retention, cutoff, access, k); }
      ChangedKeeps(s, c);
    case AuditRecovered(now, access) =>
      var c := Recover(s.book, s.retention, now, access);
      forall k: Key ensures Softens(s, c, k) {
        RecoverEffect(s.book, s.retention, now, access, k);
        assert KeyOk(s, k);
      }
      ChangedKeeps(s, c);
  }

  lemma CallKeeps(s: Protocol, t: ThreadId, key: Key, account: Account)
    requires Inv(s) && t !in s.threads
    ensures Inv(s.(threads := s.threads[t := Thread(key, account, Looking)]))
  {
    var u := s.(threads := s.threads[t := Thread(key, account, Looking)]);
    forall k: Key ensures KeyOk(u, k) {
      assert KeyOk(s, k);
      if k in s.flights { assert FlightOk(s, k); }
    }
    forall v | v in u.threads ensures PcOk(u, u.threads[v]) { if v != t { PcOkFrame(s, u, s.threads[v]); } }
    forall id | id in u.landings ensures LandingOk(u, id) { assert LandingOk(s, id); }
    forall k | k in u.flights ensures FlightOk(u, k) { assert FlightOk(s, k); }
    forall v | v in u.threads ensures OwnerOk(u, v) { if v != t { assert OwnerOk(s, v); } }
  }

  /** Steps that touch only the probes, the busy accounts and the stop fence. */
  lemma FenceKeeps(s: Protocol, u: Protocol)
    requires Inv(s)
    requires u == s.(busy := u.busy, probes := u.probes, stopped := u.stopped, gatePassed := u.gatePassed,
                     returned := u.returned)
    requires u.busy == FlightAccounts(s.flights) + u.probes && FlightAccounts(s.flights) !! u.probes
    ensures Inv(u)
  {
    forall k: Key ensures KeyOk(u, k) { assert KeyOk(s, k); }
    forall v | v in u.threads ensures PcOk(u, u.threads[v]) { assert PcOk(s, s.threads[v]); }
    forall id | id in u.landings ensures LandingOk(u, id) { assert LandingOk(s, id); }
    forall k | k in u.flights ensures FlightOk(u, k) { assert FlightOk(s, k); }
    forall v | v in u.threads ensures OwnerOk(u, v) { assert OwnerOk(s, v); }
  }

  lemma ProbesAndFenceKeep(s: Protocol, step: Step)
    requires Inv(s)
    requires step.ProbeBegins? || step.ProbeEnds? || step.StopBegins? || step.StopPassesGate? || step.StopReturns?
    ensures Inv(Next(s, step))
  {
    FenceKeeps(s, Next(s, step));
  }

  lemma CrashKeeps(s: Protocol)
    requires Inv(s)
    ensures Inv(Next(s, Crashes))
  {
    var u := Next(s, Crashes);
    forall k: Key ensures KeyOk(u, k) { assert KeyOk(s, k); }
  }

  lemma NextKeeps(s: Protocol, step: Step)
    requires Inv(s)
    ensures Inv(Next(s, step))
  {
    match step
    case Advance(t, choice) => 
      if t in s.threads {
        if OwnsFlight(s.threads[t].pc) { AdvanceInFlight(s, t, choice); } else { AdvanceWithoutFlight(s, t, choice); }
      }
    case AuditListed(_) => AuditStepKeeps(s, step);
    case AuditCleared(_) => AuditStepKeeps(s, step);
    case AuditDeleted(_, _) => AuditStepKeeps(s, step);
    case AuditRecovered(_, _) => AuditStepKeeps(s, step);
    case Call(t, key, account) => if t !in s.threads { CallKeeps(s, t, key, account); }
    case Crashes => CrashKeeps(s);
    case _ => ProbesAndFenceKeep(s, step);
  }

  lemma {:induction false} RunKeeps(retention: int, steps: seq<Step>)
    ensures Inv(Run(Initial(retention), steps))
  {
    if steps != [] {
      RunKeeps(retention, steps[..|steps| - 1]);
      NextKeeps(Run(Initial(retention), steps[..|steps| - 1]), steps[|steps| - 1]);
    }
  }
}
