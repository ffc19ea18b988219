/** What the scheduler's owner goroutine does to its state, one command at a time, as functions on values. The
    class in module Scheduler is proved equal to these functions; the run theorems are about them. */
module SchedulerState {
  import opened Domain
  import opened RuntimeState
  import C = Config

  const HORIZON_DAYS := 7
  const RETRY_DELAY: int := 1_000_000_000
  const COMPENSATION_DELAY: int := 5 * MINUTE

  const NO_CONFIG := C.Config(false, "", [], [], None, None, 0, 0, 0, [], 0, 0, 0, [], "", 0, [])

  datatype TimerId = OccurrenceTimer(id: Id) | CompensationTimer(id: Id) | MidnightTimer | RetryTimer

  /** One call of the executor, with the status its operation record stands for. */
  datatype Call = Preheat(id: Id, status: Status) | Compensation(id: Id, status: Status)

  datatype Phase = Idle | Live | Stopping | Stopped

  /** `durable` survives a crash; `calls` is the history of executor calls over all processes. */
  datatype Sched = Sched(
    durable: RuntimeState,
    phase: Phase,
    startFailed: bool,
    config: C.Config,
    timers: map<TimerId, Instant>,
    generations: map<TimerId, nat>,
    pending: map<Id, Pending>,
    calls: seq<Call>)

  const INITIAL := Sched(EMPTY_STATE, Idle, false, NO_CONFIG, map[], map[], map[], [])

  // ----- what the environment decides during one command -----

  type Days = d: seq<Option<seq<PlannedOccurrence>>> | |d| == HORIZON_DAYS + 1
    witness [None, None, None, None, None, None, None, None]

  /** One reconciliation: the clock, whether the time zone loads, what the planner answers for today and each of
      the next seven dates, how the state write ends, the next local midnight, and the later clock reading
      used if a retry is armed. */
  datatype ReconcileEnv = ReconcileEnv(
    now: Instant, zoneLoads: bool, days: Days, write: Write, midnight: Instant, retryNow: Instant)

  /** When a concurrent Stop closes the execution gate, relative to the executor call. */
  datatype Gate = Open | ClosedBefore | ClosesDuring

  /** What the executor reports: it refused without a request, or it sent the request and, for a preheat, wrote
      the compensation due time. */
  datatype ExecResult =
    | Refused(busy: bool)
    | Attempted(outcome: RequestOutcome, httpStatus: int, at: Instant, dueWrite: Write)

  datatype OccurrenceEnv = OccurrenceEnv(
    now: Instant, claim: Write, gate: Gate, result: ExecResult, terminal: Write, reconcile: ReconcileEnv)

  datatype CompensationEnv = CompensationEnv(
    now: Instant, loads: bool, eligible: bool, claim: Write, claimRetryNow: Instant, gate: Gate,
    result: ExecResult, terminal: Write, terminalRetryNow: Instant, reconcile: ReconcileEnv)

  // ----- store writes -----

  function Store(s: Sched, after: RuntimeState, write: Write): Sched {
    s.(durable := Written(s.durable, after, write))
  }

  // ----- timers -----

  function Generation(s: Sched, t: TimerId): nat {
    if t in s.generations then s.generations[t] else 0
  }

  function Due(s: Sched, t: TimerId): Option<Instant> {
    if t in s.timers then Some(s.timers[t]) else None
  }

  function Arm(s: Sched, t: TimerId, due: Instant): Sched {
    s.(timers := s.timers[t := due], generations := s.generations[t := Generation(s, t) + 1])
  }

  function Disarm(s: Sched, t: TimerId): Sched {
    s.(timers := s.timers - {t}, generations := s.generations[t := Generation(s, t) + 1])
  }

  /** Whether a callback of the given generation still owns its timer. */
  predicate Owns(s: Sched, t: TimerId, generation: nat) {
    if generation != 0 && Generation(s, t) != generation then false
    else t in s.timers || generation == 0
  }

  function Consume(s: Sched, t: TimerId): Sched {
    if t in s.timers then Disarm(s, t) else s
  }

  function ArmRetry(s: Sched, t: TimerId, now: Instant): Sched {
    if s.phase.Live? then Arm(s, t, now + RETRY_DELAY) else s
  }

  function ArmReconcileRetry(s: Sched, now: Instant): Sched {
    if !s.phase.Live? || (RetryTimer in s.timers && s.timers[RetryTimer] > now) then s
    else Arm(s, RetryTimer, now + RETRY_DELAY)
  }

  function ArmMidnight(s: Sched, midnight: Instant): Sched {
    if Due(s, MidnightTimer) == Some(midnight) then s else Arm(s, MidnightTimer, midnight)
  }

  function PendingTimer(id: Id, kind: Kind): TimerId {
    if kind.CompensationKind? then CompensationTimer(id) else OccurrenceTimer(id)
  }

  /** Timers that cancelling the occurrence timers leaves alone. */
  predicate Survives(s: Sched, t: TimerId) {
    match t
    case OccurrenceTimer(id) => id in s.pending && s.pending[id].kind.OccurrenceKind?
    case CompensationTimer(id) => id in s.pending && s.pending[id].kind.CompensationKind?
    case _ => true
  }

  function CancelOccurrenceTimers(s: Sched): Sched {
    s.(timers := map t | t in s.timers && Survives(s, t) :: s.timers[t],
       generations := map t | t in s.generations.Keys + s.timers.Keys && (t in s.generations || !Survives(s, t)) ::
                        Generation(s, t) + (if t in s.timers && !Survives(s, t) then 1 else 0))
  }

  /** The instant at which a timer should fire after reconciling, or None if it should not exist. */
  function Wanted(s: Sched, now: Instant, t: TimerId): Option<Instant> {
    match t
    case OccurrenceTimer(id) =>
      if id !in s.durable.occurrences then None
      else
        var o := s.durable.occurrences[id];
        if o.status.Planned? then
          (if o.plan.plannedAt != ZERO_TIME && o.plan.plannedAt > now then Some(o.plan.plannedAt) else None)
        else if o.status.Running? && id in s.pending && s.pending[id].kind.OccurrenceKind? then WantedRetry(s, now, t)
        else None
    case CompensationTimer(id) =>
      if id !in s.durable.occurrences then None
      else
        var o := s.durable.occurrences[id];
        if OwesCompensation(o) then Some(o.due)
        else if o.status.Running? && id in s.pending && s.pending[id].kind.CompensationKind? then WantedRetry(s, now, t)
        else None
    case _ => Due(s, t)
  }

  function WantedRetry(s: Sched, now: Instant, t: TimerId): Option<Instant> {
    if t in s.timers then Some(s.timers[t])
    else if s.phase.Live? then Some(now + RETRY_DELAY)
    else None
  }

  function EntryTimers(ids: set<Id>): set<TimerId> {
    (set id | id in ids :: OccurrenceTimer(id)) + (set id | id in ids :: CompensationTimer(id))
  }

  /** Every timer a reconciliation may touch. */
  function Candidates(s: Sched): set<TimerId> {
    s.timers.Keys + EntryTimers(s.durable.occurrences.Keys)
  }

  /** Bring every timer to its wanted instant; a timer already there is left alone. */
  function RearmTimers(s: Sched, now: Instant): Sched {
    s.(timers := map t | t in Candidates(s) && Wanted(s, now, t).Some? :: Wanted(s, now, t).value,
       generations := map t | t in s.generations.Keys + Candidates(s)
                              && (t in s.generations || Wanted(s, now, t) != Due(s, t)) ::
                        Generation(s, t) + (if Wanted(s, now, t) != Due(s, t) then 1 else 0))
  }

  // ----- start and stop -----

  function Start(s: Sched, write: Write): Sched {
    if !s.phase.Idle? then s
    else Store(s, Recover(s.durable), write).(phase := Live, startFailed := !write.Ok?)
  }

  function StopTimers(s: Sched): Sched {
    s.(timers := map[],
       generations := map t | t in s.generations.Keys + s.timers.Keys ::
                        Generation(s, t) + (if t in s.timers then 1 else 0))
  }

  function Stop(s: Sched): Sched {
    match s.phase
    case Idle => s.(phase := Stopped)
    case Stopped => s
    case _ => StopTimers(s).(phase := Stopped)
  }

  /** A process dies: only the durable state and the history of calls remain. */
  function Crash(s: Sched): Sched {
    Sched(s.durable, Idle, false, NO_CONFIG, map[], map[], map[], s.calls)
  }

  // ----- reconciliation -----

  /** All plans of the horizon, or None if the planner fails on one date. */
  function Horizon(days: seq<Option<seq<PlannedOccurrence>>>): Option<seq<PlannedOccurrence>> {
    if days == [] then Some([])
    else
      match (Horizon(days[..|days| - 1]), days[|days| - 1])
      case (Some(before), Some(last)) => Some(before + last)
      case _ => None
  }

  datatype Result = Result(s: Sched, ok: bool)

  function FinishReconcile(s: Sched, env: ReconcileEnv): Result {
    if env.zoneLoads then Result(ArmMidnight(s, env.midnight), true) else Result(s, false)
  }

  /** A disabled schedule forgets its next runs and gives up what is owed. */
  function Disabling(s: Sched, env: ReconcileEnv): Result {
    var stored := Store(s, Disable(s.durable), env.write);
    if env.write.Ok? then FinishReconcile(CancelOccurrenceTimers(stored), env) else Result(stored, false)
  }

  function Planning(s: Sched, env: ReconcileEnv): Result {
    if !env.zoneLoads || Horizon(env.days).None? then Result(s, false)
    else
      var stored := Store(s, Reconcile(s.durable, Horizon(env.days).value, env.now), env.write);
      if env.write.Ok? then FinishReconcile(RearmTimers(stored, env.now), env) else Result(stored, false)
  }

  function ReconcileOwned(s: Sched, config: C.Config, env: ReconcileEnv): Result {
    if config.enabled then Planning(s, env) else Disabling(s, env)
  }

  function AfterCallback(s: Sched, env: ReconcileEnv): Sched {
    var r := ReconcileOwned(s, s.config, env);
    if r.ok then r.s else ArmReconcileRetry(r.s, env.retryNow)
  }

  // ----- commands -----

  /** Commands are refused once a stop has begun; a failed recovery refuses every reconcile request. */
  function HandleReconcile(s: Sched, config: C.Config, start: Write, env: ReconcileEnv): Sched {
    var t := Start(s, start);
    if t.startFailed || !t.phase.Live? then t else ReconcileOwned(t.(config := config), config, env).s
  }

  function HandleRetry(s: Sched, generation: nat, env: ReconcileEnv): Sched {
    if !s.phase.Live? || !Owns(s, RetryTimer, generation) then s
    else AfterCallback(Consume(s, RetryTimer), env)
  }

  function HandleMidnight(s: Sched, generation: nat, env: ReconcileEnv, zoneLoadsLater: bool, laterMidnight: Instant)
    : Sched
  {
    if !s.phase.Live? || !Owns(s, MidnightTimer, generation) then s
    else
      var r := ReconcileOwned(Consume(s, MidnightTimer), s.config, env);
      if r.ok then r.s
      else ArmReconcileRetry(if zoneLoadsLater then ArmMidnight(r.s, laterMidnight) else r.s, env.retryNow)
  }

  /** Write a terminal status; keep it in memory with an armed retry if the write fails. */
  function Settle(s: Sched, id: Id, p: Pending, write: Write, retryNow: Instant): Sched {
    var stored := Store(s, PersistTerminal(s.durable, id, p), write);
    if write.Ok? then stored.(pending := stored.pending - {id})
    else ArmRetry(stored.(pending := stored.pending[id := p]), PendingTimer(id, p.kind), retryNow)
  }

  /** A retry timer of a saved status: only the write is repeated. */
  function Resettle(s: Sched, id: Id, write: Write, now: Instant, env: ReconcileEnv): Sched
    requires id in s.pending
  {
    var settled := Settle(s, id, s.pending[id], write, now);
    if write.Ok? then AfterCallback(settled, env) else settled
  }

  function CallStatus(result: ExecResult): Status {
    match result
    case Refused(busy) => if busy then Failed else Skipped
    case Attempted(outcome, _, _, _) => StatusForRecord(outcome)
  }

  function DueAfter(result: ExecResult): Instant {
    if result.Attempted? && Compensable(result.outcome, result.httpStatus) then result.at + COMPENSATION_DELAY
    else ZERO_TIME
  }

  function ExecutePreheat(s: Sched, id: Id, occurrence: PlannedOccurrence, result: ExecResult): Sched {
    var called := s.(calls := s.calls + [Preheat(id, CallStatus(result))]);
    if result.Refused? then called
    else Store(called, UpdateCompensation(called.durable, occurrence, DueAfter(result)), result.dueWrite)
  }

  function ExecuteCompensation(s: Sched, id: Id, result: ExecResult): Sched {
    s.(calls := s.calls + [Compensation(id, CallStatus(result))])
  }

  predicate Guard(s: Sched, id: Id, now: Instant) {
    MayClaim(s.durable, id, now, s.config.enabled, s.config.scheduledAccountKeys)
  }

  predicate CompensationGuard(s: Sched, id: Id) {
    MayCompensate(s.durable, id, s.config.enabled, s.config.scheduledAccountKeys)
  }

  function PassGate(s: Sched, gate: Gate): Sched {
    if gate.Open? then s else s.(phase := Stopping)
  }

  function RunPreheat(s: Sched, id: Id, env: OccurrenceEnv): Sched
    requires id in s.durable.occurrences
  {
    var gated := PassGate(s, env.gate);
    if env.gate.ClosedBefore? then gated
    else
      var done := ExecutePreheat(gated, id, s.durable.occurrences[id].plan, env.result);
      AfterCallback(Settle(done, id, Pending(OccurrenceKind, CallStatus(env.result)), env.terminal, env.now),
                    env.reconcile)
  }

  function ClaimAndRun(s: Sched, id: Id, env: OccurrenceEnv): Sched {
    var claimed := Guard(s, id, env.now);
    var stored := Store(s, if claimed then Claim(s.durable, id) else s.durable, env.claim);
    if !env.claim.Ok? then ArmRetry(stored, OccurrenceTimer(id), env.now)
    else if claimed then RunPreheat(stored, id, env)
    else stored
  }

  function HandleOccurrence(s: Sched, id: Id, generation: nat, env: OccurrenceEnv): Sched {
    if !s.phase.Live? || !Owns(s, OccurrenceTimer(id), generation) then s
    else
      var t := Consume(s, OccurrenceTimer(id));
      if id in t.pending && t.pending[id].kind.OccurrenceKind? then Resettle(t, id, env.terminal, env.now, env.reconcile)
      else ClaimAndRun(t, id, env)
  }

  function RunCompensation(s: Sched, id: Id, env: CompensationEnv): Sched {
    var gated := PassGate(s, env.gate);
    if env.gate.ClosedBefore? then gated
    else
      var done := ExecuteCompensation(gated, id, env.result);
      AfterCallback(Settle(done, id, Pending(CompensationKind, CallStatus(env.result)), env.terminal,
                           env.terminalRetryNow), env.reconcile)
  }

  function ClaimAndCompensate(s: Sched, id: Id, env: CompensationEnv): Sched {
    if !env.loads then ArmRetry(s, CompensationTimer(id), env.now)
    else if !CompensationGuard(s, id) then s
    else
      var eligible := env.eligible && !Held(s.durable, id);
      var stored := Store(s, ClaimCompensation(s.durable, id, eligible), env.claim);
      if !env.claim.Ok? then ArmRetry(stored, CompensationTimer(id), env.claimRetryNow)
      else if eligible then RunCompensation(stored, id, env)
      else AfterCallback(stored, env.reconcile)
  }

  function HandleCompensation(s: Sched, id: Id, generation: nat, env: CompensationEnv): Sched {
    if !s.phase.Live? || !Owns(s, CompensationTimer(id), generation) then s
    else
      var t := Consume(s, CompensationTimer(id));
      if id in t.pending && t.pending[id].kind.CompensationKind? then Resettle(t, id, env.terminal, env.now, env.reconcile)
      else ClaimAndCompensate(t, id, env)
  }

  // ----- runs -----

  /** Everything that can happen to a scheduler, its store and its process. A callback carries the generation of
      the timer that started it, at least 1, which may have been superseded; the quota service may rewrite the
      guardrail holds between any two commands. */
  type CallbackGeneration = g: nat | g > 0 witness 1

  datatype Event =
    | Started(write: Write)
    | ReconcileRequested(config: C.Config, start: Write, env: ReconcileEnv)
    | OccurrenceFired(id: Id, generation: CallbackGeneration, occurrence: OccurrenceEnv)
    | CompensationFired(id: Id, generation: CallbackGeneration, compensation: CompensationEnv)
    | MidnightFired(generation: CallbackGeneration, env: ReconcileEnv, zoneLoadsLater: bool, laterMidnight: Instant)
    | RetryFired(generation: CallbackGeneration, env: ReconcileEnv)
    | StopRequested
    | Crashed
    | HoldsChanged(holds: map<string, Hold>)

  function Step(s: Sched, e: Event): Sched {
    match e
    case Started(write) => Start(s, write)
    case ReconcileRequested(config, start, env) => HandleReconcile(s, config, start, env)
    case OccurrenceFired(id, generation, env) => HandleOccurrence(s, id, generation, env)
    case CompensationFired(id, generation, env) => HandleCompensation(s, id, generation, env)
    case MidnightFired(generation, env, later, midnight) => HandleMidnight(s, generation, env, later, midnight)
    case RetryFired(generation, env) => HandleRetry(s, generation, env)
    case StopRequested => Stop(s)
    case Crashed => Crash(s)
    case HoldsChanged(holds) => s.(durable := s.durable.(holds := holds))
  }

  function Run(s: Sched, events: seq<Event>): Sched {
    if events == [] then s else Step(Run(s, events[..|events| - 1]), events[|events| - 1])
  }
}
