/** The reset-credit protocol: any number of concurrent requests, each a program counter over the shared flights,
    busy accounts, stop fence and durable audit, with a record of every upstream consume. */
module ResetProtocol {
  import opened Domain
  import opened ResetAudit

  type Account = string
  type ThreadId = nat

  // ----- the upstream call -----

  datatype CallError = NoError | DeadlineExceeded | OtherError

  datatype HttpResult = HttpResult(statusCode: int, err: CallError)

  function FinalOutcome(result: HttpResult): Outcome {
    if result.err.NoError? && 200 <= result.statusCode < 300 then Succeeded
    else if result.statusCode == 0 || result.err.DeadlineExceeded? then Unknown
    else Failed
  }

  // ----- one request -----

  /** What a caller is told: the outcome it gets to see, if any, and whether an error comes with it. */
  datatype Answer = Answer(outcome: Option<Outcome>, failed: bool)

  const REFUSED := Answer(None, true)

  datatype Pc =
    | Looking
    | Finding
    | Recovering(orphan: Audit)
    | Checking
    | Beginning
    | Refreshing
    | Appending
    | Conflicting
    | AtGate(audit: Audit)
    | InGate(audit: Audit)
    | Replacing(audit: Audit)
    | Finishing(answer: Answer)
    | Waiting(flight: nat)
    | Reloading(flight: nat)
    | Answered(answer: Answer)

  datatype Thread = Thread(key: Key, account: Account, pc: Pc)

  /** The steps at which a request owns the flight of its key. */
  predicate OwnsFlight(pc: Pc) {
    pc.Refreshing? || pc.Appending? || pc.Conflicting? || pc.AtGate? || pc.InGate? || pc.Replacing? || pc.Finishing?
  }

  // ----- the shared state -----

  datatype Flight = Flight(id: nat, account: Account, owner: ThreadId)

  /** A flight that has ended: its key and what it left for those who wait for it. */
  datatype Landing = Landing(key: Key, answer: Answer)

  datatype Consume = Consume(key: Key, account: Account, outcome: Outcome)

  /** `book` survives a crash; `consumes` and `removals` are the history over all processes. */
  datatype Protocol = Protocol(
    book: Book,
    retention: int,
    threads: map<ThreadId, Thread>,
    flights: map<Key, Flight>,
    nextFlight: nat,
    landings: map<nat, Landing>,
    busy: set<Account>,
    probes: set<Account>,
    stopped: bool,
    gatePassed: bool,
    returned: bool,
    consumes: seq<Consume>,
    removals: seq<set<Key>>)

  function Initial(retention: int): Protocol {
    Protocol(map[], retention, map[], map[], 0, map[], {}, {}, false, false, false, [], [])
  }

  /** What the environment decides in one step of one request. */
  datatype Choice = Choice(
    access: Access, accountOk: bool, creditsOk: bool, now: Instant, cancelled: bool, result: HttpResult)

  datatype Step =
    | Call(thread: ThreadId, key: Key, account: Account)
    | Advance(thread: ThreadId, choice: Choice)
    | AuditListed(access: Access)
    | AuditCleared(access: Access)
    | AuditDeleted(cutoff: Instant, access: Access)
    | AuditRecovered(now: Instant, access: Access)
    | ProbeBegins(account: Account)
    | ProbeEnds(account: Account)
    | StopBegins
    | StopPassesGate
    | StopReturns
    | Crashes

  // ----- building blocks -----

  function Goto(s: Protocol, t: ThreadId, pc: Pc): Protocol
    requires t in s.threads
  {
    s.(threads := s.threads[t := s.threads[t].(pc := pc)])
  }

  function Changed(s: Protocol, c: Change): Protocol {
    s.(book := c.book, removals := s.removals + [c.lost])
  }

  /** An operation that only loads may still drop records that are too old. */
  function Reading(s: Protocol, access: Access): Protocol {
    var disk := Loading(s.book, s.retention, access).disk;
    s.(book := disk, removals := s.removals + [s.book.Keys - disk.Keys])
  }

  /** A request that meets a live flight joins it, unless the flight is for another account. */
  function Join(s: Protocol, t: ThreadId): Protocol
    requires t in s.threads && s.threads[t].key in s.flights
  {
    var flight := s.flights[s.threads[t].key];
    Goto(s, t, if flight.account == s.threads[t].account then Waiting(flight.id) else Answered(REFUSED))
  }

  function AfterFind(found: Found<Option<Audit>>, account: Account): Pc {
    match found
    case Records(Some(record)) =>
      if record.account != account then Answered(REFUSED)
      else if !record.outcome.Pending? then Answered(Answer(Some(record.outcome), false))
      else Recovering(record)
    case Records(None) => Checking
    case _ => Answered(REFUSED)
  }

  function AfterConflict(found: Found<Option<Audit>>, account: Account): Pc {
    match found
    case Records(Some(record)) =>
      if record.account == account && !record.outcome.Pending? then Finishing(Answer(Some(record.outcome), false))
      else Finishing(REFUSED)
    case _ => Finishing(REFUSED)
  }

  function AfterReload(found: Found<Option<Audit>>, landed: Answer): Answer {
    match found
    case Records(Some(record)) => if record.outcome.Pending? then landed else Answer(Some(record.outcome), landed.failed)
    case Records(None) => landed
    case _ => Answer(landed.outcome, true)
  }

  function Begin(s: Protocol, t: ThreadId): Protocol
    requires t in s.threads
  {
    var me := s.threads[t];
    if me.key in s.flights then Join(s, t)
    else if s.stopped || me.account in s.busy then Goto(s, t, Answered(REFUSED))
    else
      Goto(s.(busy := s.busy + {me.account},
              flights := s.flights[me.key := Flight(s.nextFlight, me.account, t)],
              nextFlight := s.nextFlight + 1), t, Refreshing)
  }

  function Finish(s: Protocol, t: ThreadId, answer: Answer): Protocol
    requires t in s.threads
  {
    var me := s.threads[t];
    if me.key !in s.flights then Goto(s, t, Answered(answer))
    else
      var flight := s.flights[me.key];
      Goto(s.(flights := s.flights - {me.key}, busy := s.busy - {flight.account},
              landings := s.landings[flight.id := Landing(me.key, answer)]), t, Answered(answer))
  }

  function AppendPending(s: Protocol, t: ThreadId, choice: Choice): Protocol
    requires t in s.threads
  {
    var me := s.threads[t];
    var audit := Audit(me.key, me.account, choice.now, Pending, ZERO_TIME);
    var c := Append(s.book, s.retention, audit, choice.access);
    Goto(Changed(s, c), t, match c.verdict
                           case Done => AtGate(audit)
                           case Conflict => Conflicting
                           case Failure => Finishing(REFUSED))
  }

  /** Under the gate the credit is spent upstream, once and irrevocably. A process that dies while the call is out, whether
      or not upstream acted on it, is this step followed by `Crashes`: the call counts, and its answer is lost with the
      thread. */
  function Spend(s: Protocol, t: ThreadId, audit: Audit, choice: Choice): Protocol
    requires t in s.threads
  {
    var outcome := FinalOutcome(choice.result);
    Goto(s.(consumes := s.consumes + [Consume(s.threads[t].key, s.threads[t].account, outcome)]), t,
         Replacing(audit.(outcome := outcome, finishedAt := choice.now)))
  }

  function ReplaceAudit(s: Protocol, t: ThreadId, audit: Audit, access: Access): Protocol
    requires t in s.threads
  {
    var c := Replace(s.book, s.retention, audit, access);
    Goto(Changed(s, c), t,
         if c.verdict.Done? then Finishing(Answer(Some(audit.outcome), audit.outcome.Unknown?))
         else Finishing(Answer(Some(Unknown), true)))
  }

  /** A pending record without a live flight is taken for a crash, without looking for a flight again. */
  function RecoverOrphan(s: Protocol, t: ThreadId, orphan: Audit, choice: Choice): Protocol
    requires t in s.threads
  {
    var c := Replace(s.book, s.retention, orphan.(outcome := Unknown, finishedAt := choice.now), choice.access);
    Goto(Changed(s, c), t,
         Answered(if c.verdict.Done? then Answer(Some(Unknown), false) else Answer(Some(Pending), true)))
  }

  function Wait(s: Protocol, t: ThreadId, flight: nat, cancelled: bool): Protocol
    requires t in s.threads
  {
    if cancelled then Goto(s, t, Answered(REFUSED))
    else if flight in s.landings then Goto(s, t, Reloading(flight))
    else s
  }

  function Reload(s: Protocol, t: ThreadId, flight: nat, access: Access): Protocol
    requires t in s.threads
  {
    if flight !in s.landings then s
    else
      var landed := s.landings[flight].answer;
      if landed.failed && landed.outcome == Some(Pending) then Goto(s, t, Answered(landed))
      else
        Goto(Reading(s, access), t,
             Answered(AfterReload(Find(s.book, s.retention, s.threads[t].key, access), landed)))
  }

  function AdvanceThread(s: Protocol, t: ThreadId, choice: Choice): Protocol
    requires t in s.threads
  {
    var me := s.threads[t];
    match me.pc
    case Looking => if me.key in s.flights then Join(s, t) else Goto(s, t, Finding)
    case Finding =>
      Goto(Reading(s, choice.access), t, AfterFind(Find(s.book, s.retention, me.key, choice.access), me.account))
    case Recovering(orphan) => RecoverOrphan(s, t, orphan, choice)
    case Checking => Goto(s, t, if choice.accountOk then Beginning else Answered(REFUSED))
    case Beginning => Begin(s, t)
    case Refreshing => Goto(s, t, if choice.creditsOk then Appending else Finishing(REFUSED))
    case Appending => AppendPending(s, t, choice)
    case Conflicting =>
      Goto(Reading(s, choice.access), t, AfterConflict(Find(s.book, s.retention, me.key, choice.access), me.account))
    case AtGate(audit) =>
      Goto(s, t, if s.stopped || choice.cancelled then Finishing(Answer(Some(Pending), true)) else InGate(audit))
    case InGate(audit) => Spend(s, t, audit, choice)
    case Replacing(audit) => ReplaceAudit(s, t, audit, choice.access)
    case Finishing(answer) => Finish(s, t, answer)
    case Waiting(flight) => Wait(s, t, flight, choice.cancelled)
    case Reloading(flight) => Reload(s, t, flight, choice.access)
    case Answered(_) => s
  }

  /** Somebody holds the consume gate. */
  predicate GateHeld(s: Protocol) {
    exists t :: t in s.threads && s.threads[t].pc.InGate?
  }

  function Next(s: Protocol, step: Step): Protocol {
    match step
    case Call(t, key, account) =>
      if t in s.threads then s else s.(threads := s.threads[t := Thread(key, account, Looking)])
    case Advance(t, choice) => if t in s.threads then AdvanceThread(s, t, choice) else s
    case AuditListed(access) => Reading(s, access)
    case AuditCleared(access) => Changed(s, Clear(s.book, access))
    case AuditDeleted(cutoff, access) => Changed(s, Delete(s.book, s.retention, cutoff, access))
    case AuditRecovered(now, access) => Changed(s, Recover(s.book, s.retention, now, access))
    case ProbeBegins(account) =>
      if s.stopped || account in s.busy then s
      else s.(busy := s.busy + {account}, probes := s.probes + {account})
    case ProbeEnds(account) =>
      if account !in s.probes then s else s.(busy := s.busy - {account}, probes := s.probes - {account})
    case StopBegins => s.(stopped := true)
    case StopPassesGate => if s.stopped && !GateHeld(s) then s.(gatePassed := true) else s
    case StopReturns => if s.gatePassed && s.flights == map[] then s.(returned := true) else s
    case Crashes =>
      Initial(s.retention).(book := s.book, consumes := s.consumes, removals := s.removals, nextFlight := s.nextFlight)
  }

  function Run(s: Protocol, steps: seq<Step>): Protocol {
    if steps == [] then s else Next(Run(s, steps[..|steps| - 1]), steps[|steps| - 1])
  }

  lemma {:induction false} RunSplits(s: Protocol, first: seq<Step>, second: seq<Step>)
    ensures Run(s, first + second) == Run(Run(s, first), second)
  {
    if second == [] {
      assert first + second == first;
    } else {
      assert (first + second)[..|first + second| - 1] == first + second[..|second| - 1];
      RunSplits(s, first, second[..|second| - 1]);
    }
  }

  // ----- counting -----

  function Consumed(consumes: seq<Consume>, key: Key): nat {
    if consumes == [] then 0
    else Consumed(consumes[..|consumes| - 1], key) + (if consumes[|consumes| - 1].key == key then 1 else 0)
  }

  function Removed(removals: seq<set<Key>>, key: Key): nat {
    if removals == [] then 0
    else Removed(removals[..|removals| - 1], key) + (if key in removals[|removals| - 1] then 1 else 0)
  }
}
