/** The fences around the upstream call: one operation per account at a time, and nothing after a stop. */
module ResetFences {
  import opened Domain
  import opened ResetAudit
  import opened ResetProtocol
  import opened ResetSafety

  // ----- busy accounts -----

  /** In every reachable state the busy accounts are the disjoint union of those with a live flight and those with
      a live probe, and no account has two flights. */
  lemma BusyIsExactlyWhoWorks(retention: int, steps: seq<Step>, a: Account)
    ensures var s := Run(Initial(retention), steps);
            && (a in s.busy <==> a in s.probes || exists k :: k in s.flights && s.flights[k].account == a)
            && !(a in s.probes && exists k :: k in s.flights && s.flights[k].account == a)
            && (forall j, k :: j in s.flights && k in s.flights ==>
                  s.flights[j].account == a == s.flights[k].account ==> j == k)
  {
    RunKeeps(retention, steps);
    var s := Run(Initial(retention), steps);
    forall k | k in s.flights ensures s.flights[k].account in FlightAccounts(s.flights) {}
  }

  /** Whoever is inside the gate is alone with its key and its account. */
  lemma TheSpenderIsAlone(retention: int, steps: seq<Step>, t: ThreadId, u: ThreadId)
    requires var s := Run(Initial(retention), steps);
             t in s.threads && u in s.threads && s.threads[t].pc.InGate? && OwnsFlight(s.threads[u].pc)
             && (s.threads[u].key == s.threads[t].key || s.threads[u].account == s.threads[t].account)
    ensures t == u
    ensures var s := Run(Initial(retention), steps); s.threads[t].account in s.busy - s.probes
  {
    RunKeeps(retention, steps);
    var s := Run(Initial(retention), steps);
    assert OwnerOk(s, t) && OwnerOk(s, u);
    assert FlightOk(s, s.threads[t].key) && FlightOk(s, s.threads[u].key);
    assert s.flights[s.threads[t].key].account in FlightAccounts(s.flights);
  }

  // ----- stopping -----

  ghost predicate Fenced(s: Protocol) {
    && (s.gatePassed ==> s.stopped && !GateHeld(s))
    && (s.returned ==> s.gatePassed && s.flights == map[])
  }

  /** How one step of a request may change what the fence watches. */
  ghost predicate KeepsFence(s: Protocol, u: Protocol) {
    && u.stopped == s.stopped && u.gatePassed == s.gatePassed && u.returned == s.returned
    && (s.stopped && !GateHeld(s) ==> !GateHeld(u) && u.consumes == s.consumes)
    && (s.stopped && s.flights == map[] ==> u.flights == map[])
  }

  lemma GotoKeepsFence(s: Protocol, u: Protocol, t: ThreadId, pc: Pc)
    requires t in s.threads && !pc.InGate?
    requires u == s.(book := u.book, removals := u.removals)
    ensures KeepsFence(s, Goto(u, t, pc))
  {
    if GateHeld(Goto(u, t, pc)) {
      var v :| v in Goto(u, t, pc).threads && Goto(u, t, pc).threads[v].pc.InGate?;
      assert v != t && s.threads[v].pc.InGate?;
    }
  }

  lemma NoHolder(s: Protocol, t: ThreadId)
    requires !GateHeld(s) && t in s.threads
    ensures !s.threads[t].pc.InGate?
  {
  }

  lemma FinishKeepsFence(s: Protocol, t: ThreadId, answer: Answer)
    requires t in s.threads
    ensures KeepsFence(s, Finish(s, t, answer))
  {
    var u := Finish(s, t, answer);
    if GateHeld(u) {
      var v :| v in u.threads && u.threads[v].pc.InGate?;
      assert v != t && s.threads[v].pc.InGate?;
    }
  }

  lemma ReloadKeepsFence(s: Protocol, t: ThreadId, flight: nat, access: Access)
    requires t in s.threads
    ensures KeepsFence(s, Reload(s, t, flight, access))
  {
    if flight in s.landings {
      var landed := s.landings[flight].answer;
      GotoKeepsFence(s, s, t, Answered(landed));
      GotoKeepsFence(s, Reading(s, access), t,
                     Answered(AfterReload(Find(s.book, s.retention, s.threads[t].key, access), landed)));
    }
  }

  lemma RecoverOrphanKeepsFence(s: Protocol, t: ThreadId, orphan: Audit, choice: Choice)
    requires t in s.threads
    ensures KeepsFence(s, RecoverOrphan(s, t, orphan, choice))
  {
    var c := Replace(s.book, s.retention, orphan.(outcome := Unknown, finishedAt := choice.now), choice.access);
    GotoKeepsFence(s, Changed(s, c), t,
                   Answered(if c.verdict.Done? then Answer(Some(Unknown), false) else Answer(Some(Pending), true)));
  }

  lemma StoppedBegin(s: Protocol, t: ThreadId)
    requires t in s.threads && s.stopped
    ensures KeepsFence(s, Begin(s, t))
  {
    if s.threads[t].key in s.flights { JoinKeepsFence(s, t); } else { GotoKeepsFence(s, s, t, Answered(REFUSED)); }
  }

  lemma JoinKeepsFence(s: Protocol, t: ThreadId)
    requires t in s.threads && s.threads[t].key in s.flights
    ensures KeepsFence(s, Join(s, t))
  {
    GotoKeepsFence(s, s, t, if s.flights[s.threads[t].key].account == s.threads[t].account
                            then Waiting(s.flights[s.threads[t].key].id) else Answered(REFUSED));
  }

  lemma UnownedKeepsFence(s: Protocol, t: ThreadId, choice: Choice)
    requires t in s.threads && !OwnsFlight(s.threads[t].pc) && s.stopped
    ensures KeepsFence(s, AdvanceThread(s, t, choice))
  {
    var me := s.threads[t];
    match me.pc
    case Looking => if me.key in s.flights { JoinKeepsFence(s, t); } else { GotoKeepsFence(s, s, t, Finding); }
    case Finding =>
      GotoKeepsFence(s, Reading(s, choice.access), t,
                     AfterFind(Find(s.book, s.retention, me.key, choice.access), me.account));
    case Recovering(orphan) => RecoverOrphanKeepsFence(s, t, orphan, choice);
    case Checking => GotoKeepsFence(s, s, t, if choice.accountOk then Beginning else Answered(REFUSED));
    case Beginning => StoppedBegin(s, t);
    case Waiting(flight) =>
      if choice.cancelled { GotoKeepsFence(s, s, t, Answered(REFUSED)); }
      else if flight in s.landings { GotoKeepsFence(s, s, t, Reloading(flight)); }
    case Reloading(flight) => ReloadKeepsFence(s, t, flight, choice.access);
    case _ =>
  }

  lemma ReplaceKeepsFence(s: Protocol, t: ThreadId, audit: Audit, access: Access)
    requires t in s.threads
    ensures KeepsFence(s, ReplaceAudit(s, t, audit, access))
  {
    var c := Replace(s.book, s.retention, audit, access);
    GotoKeepsFence(s, Changed(s, c), t,
                   if c.verdict.Done? then Finishing(Answer(Some(audit.outcome), audit.outcome.Unknown?))
                   else Finishing(Answer(Some(Unknown), true)));
  }

  lemma AppendKeepsFence(s: Protocol, t: ThreadId, choice: Choice)
    requires t in s.threads
    ensures KeepsFence(s, AppendPending(s, t, choice))
  {
    var me := s.threads[t];
    var audit := Audit(me.key, me.account, choice.now, Pending, ZERO_TIME);
    var c := Append(s.book, s.retention, audit, choice.access);
    GotoKeepsFence(s, Changed(s, c), t, match c.verdict
                                        case Done => AtGate(audit)
                                        case Conflict => Conflicting
                                        case Failure => Finishing(REFUSED));
  }

  lemma OwnerKeepsFence(s: Protocol, t: ThreadId, choice: Choice)
    requires t in s.threads && OwnsFlight(s.threads[t].pc) && s.stopped && !GateHeld(s)
    ensures KeepsFence(s, AdvanceThread(s, t, choice))
  {
    var me := s.threads[t];
    NoHolder(s, t);
    match me.pc
    case Refreshing => GotoKeepsFence(s, s, t, if choice.creditsOk then Appending else Finishing(REFUSED));
    case Appending => AppendKeepsFence(s, t, choice);
    case Conflicting =>
      GotoKeepsFence(s, Reading(s, choice.access), t,
                     AfterConflict(Find(s.book, s.retention, me.key, choice.access), me.account));
    case AtGate(_) => GotoKeepsFence(s, s, t, Finishing(Answer(Some(Pending), true)));
    case Replacing(audit) => ReplaceKeepsFence(s, t, audit, choice.access);
    case Finishing(answer) => FinishKeepsFence(s, t, answer);
    case _ =>
  }

  lemma StoppedAdvance(s: Protocol, t: ThreadId, choice: Choice)
    requires t in s.threads && s.gatePassed && Fenced(s)
    ensures KeepsFence(s, AdvanceThread(s, t, choice))
  {
    if OwnsFlight(s.threads[t].pc) { OwnerKeepsFence(s, t, choice); } else { UnownedKeepsFence(s, t, choice); }
  }

  lemma CallKeepsGate(s: Protocol, step: Step)
    requires step.Call? && GateHeld(Next(s, step))
    ensures GateHeld(s)
  {
    var u := Next(s, step);
    var v :| v in u.threads && u.threads[v].pc.InGate?;
    assert v in s.threads && s.threads[v].pc.InGate?;
  }

  lemma FenceAfter(s: Protocol, step: Step)
    requires Fenced(s) && s.gatePassed && !step.Crashes?
    ensures var u := Next(s, step);
            && Fenced(u) && u.gatePassed && u.consumes == s.consumes
            && (s.returned ==> u.returned)
  {
    match step
    case Advance(t, choice) => if t in s.threads { StoppedAdvance(s, t, choice); }
    case Call(t, key, account) =>
      if GateHeld(Next(s, step)) { CallKeepsGate(s, step); }
    case _ =>
  }

  lemma FenceBefore(s: Protocol, step: Step)
    requires Fenced(s) && (s.gatePassed ==> step.Crashes?)
    ensures Fenced(Next(s, step))
  {
    match step
    case Advance(t, choice) => if t in s.threads { AdvanceLeavesFlags(s, t, choice); }
    case _ =>
  }

  predicate SameFlags(s: Protocol, u: Protocol) {
    u.stopped == s.stopped && u.gatePassed == s.gatePassed && u.returned == s.returned
  }

  lemma FlightsLeaveFlags(s: Protocol, t: ThreadId, answer: Answer)
    requires t in s.threads
    ensures SameFlags(s, Begin(s, t)) && SameFlags(s, Finish(s, t, answer))
  {
  }

  lemma WritesLeaveFlags(s: Protocol, t: ThreadId, audit: Audit, choice: Choice)
    requires t in s.threads
    ensures SameFlags(s, AppendPending(s, t, choice)) && SameFlags(s, Spend(s, t, audit, choice))
    ensures SameFlags(s, ReplaceAudit(s, t, audit, choice.access)) && SameFlags(s, RecoverOrphan(s, t, audit, choice))
  {
  }

  lemma WaitsLeaveFlags(s: Protocol, t: ThreadId, flight: nat, choice: Choice)
    requires t in s.threads
    ensures SameFlags(s, Wait(s, t, flight, choice.cancelled)) && SameFlags(s, Reload(s, t, flight, choice.access))
  {
  }

  lemma AdvanceLeavesFlags(s: Protocol, t: ThreadId, choice: Choice)
    requires t in s.threads
    ensures SameFlags(s, AdvanceThread(s, t, choice))
  {
    var me := s.threads[t];
    match me.pc
    case Recovering(orphan) => WritesLeaveFlags(s, t, orphan, choice);
    case Beginning => FlightsLeaveFlags(s, t, REFUSED);
    case Appending => WritesLeaveFlags(s, t, Audit(me.key, me.account, choice.now, Pending, ZERO_TIME), choice);
    case InGate(audit) => WritesLeaveFlags(s, t, audit, choice);
    case Replacing(audit) => WritesLeaveFlags(s, t, audit, choice);
    case Finishing(answer) => FlightsLeaveFlags(s, t, answer);
    case Waiting(flight) => WaitsLeaveFlags(s, t, flight, choice);
    case Reloading(flight) => WaitsLeaveFlags(s, t, flight, choice);
    case _ =>
  }

  lemma {:induction false} RunIsFenced(retention: int, steps: seq<Step>)
    ensures Fenced(Run(Initial(retention), steps))
  {
    if steps != [] {
      var s, step := Run(Initial(retention), steps[..|steps| - 1]), steps[|steps| - 1];
      RunIsFenced(retention, steps[..|steps| - 1]);
      if s.gatePassed && !step.Crashes? { FenceAfter(s, step); } else { FenceBefore(s, step); }
    }
  }

  /** Once Stop has passed the gate nothing is consumed any more, and once it has returned no flight is live, whatever
      the requests still running or newly arriving do. */
  lemma {:induction false} NothingAfterStop(s: Protocol, later: seq<Step>)
    requires Fenced(s) && s.gatePassed && forall step :: step in later ==> !step.Crashes?
    ensures var u := Run(s, later);
            && Fenced(u) && u.gatePassed && u.consumes == s.consumes
            && (s.returned ==> u.returned && u.flights == map[])
  {
    if later != [] {
      NothingAfterStop(s, later[..|later| - 1]);
      FenceAfter(Run(s, later[..|later| - 1]), later[|later| - 1]);
    }
  }
}
