/** Bulk runs over a list of accounts, at most three at a time: manual probes, which count what is completed, and
    quota refreshes, which fill one result slot per account. Both hand jobs to workers until a cancellation. */
module BulkRuns {
  import opened Domain

  const MAX_WORKERS := 3

  // ----- the requested accounts -----

  /** The requested keys, trimmed, exactly if there is one and they are non-blank and pairwise different. */
  method RequestedKeys(keys: seq<string>) returns (normalized: Option<seq<string>>)
    ensures normalized.Some? <==>
              && keys != []
              && (forall i :: 0 <= i < |keys| ==> TrimSpace(keys[i]) != "")
              && (forall i, j :: 0 <= i < j < |keys| ==> TrimSpace(keys[i]) != TrimSpace(keys[j]))
    ensures normalized.Some? ==> |normalized.value| == |keys| && Distinct(normalized.value)
    ensures normalized.Some? ==> forall i :: 0 <= i < |keys| ==> normalized.value[i] == TrimSpace(keys[i])
  {
    if |keys| == 0 {
      return None;
    }
    var seen: set<string> := {};
    var result := [];
    for k := 0 to |keys|
      invariant |result| == k && Distinct(result)
      invariant forall i :: 0 <= i < k ==> result[i] == TrimSpace(keys[i]) && result[i] != ""
      invariant seen == set i | 0 <= i < k :: result[i]
    {
      var key := TrimSpace(keys[k]);
      if key == "" {
        return None;
      }
      if key in seen {
        var i :| 0 <= i < k && result[i] == key;
        assert TrimSpace(keys[i]) == TrimSpace(keys[k]);
        return None;
      }
      seen := seen + {key};
      result := result + [key];
    }
    return Some(result);
  }

  // ----- a run -----

  datatype Worker = Idle | Working(job: nat) | Gone

  /** Jobs are handed out in order; a cancellation settles the rest without running them. */
  datatype Phase = Dispatching | Cancelling(next: nat) | Closed | Finished

  /** `started` and `settled` are the jobs handed to a worker and the jobs counted as completed, in that order. */
  datatype Bulk = Bulk(
    total: nat, workers: seq<Worker>, dispatched: nat, phase: Phase, started: seq<nat>, settled: seq<nat>)

  function Initial(total: nat): Bulk {
    Bulk(total, seq(if total > MAX_WORKERS then MAX_WORKERS else total, _ => Idle), 0, Dispatching, [], [])
  }

  datatype Step =
    | Hand(worker: nat)
    | Complete(worker: nat)
    | Cancel
    | Skip
    | Close
    | Leave(worker: nat)
    | Finish

  predicate Enabled(b: Bulk, step: Step) {
    match step
    case Hand(w) => b.phase.Dispatching? && b.dispatched < b.total && w < |b.workers| && b.workers[w].Idle?
    case Complete(w) => w < |b.workers| && b.workers[w].Working?
    case Cancel => b.phase.Dispatching? && b.dispatched < b.total
    case Skip => b.phase.Cancelling? && b.phase.next < b.total
    case Close => (b.phase.Dispatching? && b.dispatched == b.total) || (b.phase.Cancelling? && b.phase.next >= b.total)
    case Leave(w) => b.phase.Closed? && w < |b.workers| && b.workers[w].Idle?
    case Finish => b.phase.Closed? && forall w :: 0 <= w < |b.workers| ==> b.workers[w].Gone?
  }

  function Apply(b: Bulk, step: Step): Bulk
    requires Enabled(b, step)
  {
    match step
    case Hand(w) =>
      b.(workers := b.workers[w := Working(b.dispatched)], dispatched := b.dispatched + 1,
         started := b.started + [b.dispatched])
    case Complete(w) => b.(workers := b.workers[w := Idle], settled := b.settled + [b.workers[w].job])
    case Cancel => b.(phase := Cancelling(b.dispatched))
    case Skip => b.(phase := Cancelling(b.phase.next + 1), settled := b.settled + [b.phase.next])
    case Close => b.(phase := Closed)
    case Leave(w) => b.(workers := b.workers[w := Gone])
    case Finish => b.(phase := Finished)
  }

  function Next(b: Bulk, step: Step): Bulk {
    if Enabled(b, step) then Apply(b, step) else b
  }

  function Run(b: Bulk, steps: seq<Step>): Bulk {
    if steps == [] then b else Next(Run(b, steps[..|steps| - 1]), steps[|steps| - 1])
  }

  /** The counter a manual run reports. */
  function Completed(b: Bulk): nat { |b.settled| }

  // ----- where every job is -----

  /** Jobs below this bound have been handed out or given up. */
  function Reached(b: Bulk): nat {
    match b.phase
    case Dispatching => b.dispatched
    case Cancelling(next) => next
    case _ => b.total
  }

  predicate Held(b: Bulk, job: nat) {
    exists w :: 0 <= w < |b.workers| && b.workers[w] == Working(job)
  }

  /** A job is settled once, or in exactly one worker's hands, or not reached yet. */
  ghost predicate JobOk(b: Bulk, job: nat) {
    && (job in b.settled ==> job < Reached(b) && !Held(b, job))
    && (Held(b, job) ==> job < b.dispatched)
    && (job < Reached(b) ==> job in b.settled || Held(b, job))
  }

  ghost predicate Inv(b: Bulk) {
    && b.dispatched <= Reached(b) <= b.total
    && |b.workers| == (if b.total < MAX_WORKERS then b.total else MAX_WORKERS)
    && (b.total > 0 ==> b.workers != [])
    && Distinct(b.settled)
    && b.started == seq(b.dispatched, i => i)
    && (forall job: nat :: JobOk(b, job))
    && (forall v, w :: 0 <= v < w < |b.workers| && b.workers[v].Working? && b.workers[w].Working? ==>
          b.workers[v].job != b.workers[w].job)
    && (b.phase.Finished? ==> forall w :: 0 <= w < |b.workers| ==> b.workers[w].Gone?)
    && (!b.phase.Closed? && !b.phase.Finished? ==> forall w :: 0 <= w < |b.workers| ==> !b.workers[w].Gone?)
  }

  lemma HandKeeps(b: Bulk, w: nat)
    requires Inv(b) && Enabled(b, Hand(w))
    ensures Inv(Apply(b, Hand(w)))
  {
    var c := Apply(b, Hand(w));
    forall job: nat ensures JobOk(c, job) {
      assert JobOk(b, job);
      if Held(b, job) {
        var v :| 0 <= v < |b.workers| && b.workers[v] == Working(job);
        assert c.workers[v] == Working(job);
      }
      assert job == b.dispatched ==> c.workers[w] == Working(job);
    }
    assert c.started == seq(c.dispatched, i => i);
    forall v | 0 <= v < |b.workers| && b.workers[v].Working? ensures b.workers[v].job != b.dispatched {
      assert Held(b, b.workers[v].job) && JobOk(b, b.workers[v].job);
    }
  }

  lemma CompleteKeeps(b: Bulk, w: nat)
    requires Inv(b) && Enabled(b, Complete(w))
    ensures Inv(Apply(b, Complete(w)))
  {
    var c := Apply(b, Complete(w));
    var done := b.workers[w].job;
    assert Held(b, done) && JobOk(b, done);
    forall job: nat ensures JobOk(c, job) {
      assert JobOk(b, job);
      if job != done && Held(b, job) {
        var v :| 0 <= v < |b.workers| && b.workers[v] == Working(job);
        assert c.workers[v] == Working(job);
      }
      assert c.settled[|b.settled|] == done;
      if job in b.settled { assert job in c.settled; }
    }
  }

  lemma SkipKeeps(b: Bulk)
    requires Inv(b) && Enabled(b, Skip)
    ensures Inv(Apply(b, Skip))
  {
    var c := Apply(b, Skip);
    assert JobOk(b, b.phase.next);
    forall job: nat ensures JobOk(c, job) {
      assert JobOk(b, job);
      assert c.settled[|b.settled|] == b.phase.next;
      if job in b.settled { assert job in c.settled; }
      assert Held(c, job) <==> Held(b, job);
    }
  }

  lemma OthersKeep(b: Bulk, step: Step)
    requires Inv(b) && Enabled(b, step) && !step.Hand? && !step.Complete? && !step.Skip?
    ensures Inv(Apply(b, step))
  {
    var c := Apply(b, step);
    forall job: nat ensures JobOk(c, job) {
      assert JobOk(b, job);
      if Held(b, job) {
        var v :| 0 <= v < |b.workers| && b.workers[v] == Working(job);
        assert c.workers[v] == Working(job);
      }
    }
  }

  lemma {:induction false} RunKeeps(total: nat, steps: seq<Step>)
    ensures Inv(Run(Initial(total), steps)) && Run(Initial(total), steps).total == total
  {
    if steps != [] {
      var b, step := Run(Initial(total), steps[..|steps| - 1]), steps[|steps| - 1];
      RunKeeps(total, steps[..|steps| - 1]);
      if Enabled(b, step) {
        match step
        case Hand(w) => HandKeeps(b, w);
        case Complete(w) => CompleteKeeps(b, w);
        case Skip => SkipKeeps(b);
        case _ => OthersKeep(b, step);
      }
    }
  }

  // ----- the promises -----

  lemma {:induction false} DistinctBelow(s: seq<nat>, n: nat)
    requires Distinct(s) && forall i: nat :: i < n <==> i in s
    ensures |s| == n
    decreases n
  {
    assert s == [] || s[0] in s;
    if n > 0 {
      var last: nat := n - 1;
      assert last in s;
      var k :| 0 <= k < |s| && s[k] == last;
      var rest := s[..k] + s[k + 1..];
      forall i: nat ensures i < n - 1 <==> i in rest {
        if i in rest { assert i in s && i != n - 1; }
        if i < n - 1 {
          assert i in s;
          var j :| 0 <= j < |s| && s[j] == i;
          assert rest[if j < k then j else j - 1] == i;
        }
      }
      DistinctBelow(rest, n - 1);
    }
  }

  /** Under any schedule and cancellation point: there are three workers, or one per job if there are fewer, no job is
      started or settled twice, jobs start in request order, and a finished run has completed exactly as many jobs as
      requested, each of them once. */
  lemma WorkIsConserved(total: nat, steps: seq<Step>)
    ensures var b := Run(Initial(total), steps);
            && |b.workers| == (if total < 3 then total else 3)
            && b.started == seq(b.dispatched, i => i) && b.dispatched <= total
            && Distinct(b.settled) && Completed(b) <= total
            && (b.phase.Finished? ==> Completed(b) == total && forall job: nat :: job < total <==> job in b.settled)
  {
    RunKeeps(total, steps);
    var b := Run(Initial(total), steps);
    SettledIsBounded(b.settled, total) by {
      forall i | 0 <= i < |b.settled| ensures b.settled[i] < total { assert JobOk(b, b.settled[i]); }
    }
    if b.phase.Finished? {
      forall job: nat ensures job < total <==> job in b.settled {
        assert JobOk(b, job);
      }
      DistinctBelow(b.settled, total);
    }
  }

  lemma {:induction false} SettledIsBounded(s: seq<nat>, n: nat)
    requires Distinct(s) && forall i :: 0 <= i < |s| ==> s[i] < n
    ensures |s| <= n
    decreases n
  {
    var first := if s == [] then 0 else s[0];
    if n == 0 {
      assert first == 0;
    } else if n - 1 in s {
      var k :| 0 <= k < |s| && s[k] == n - 1;
      var rest := s[..k] + s[k + 1..];
      assert forall i :: 0 <= i < |rest| ==> rest[i] == s[if i < k then i else i + 1];
      SettledIsBounded(rest, n - 1);
    } else {
      assert forall i :: 0 <= i < |s| ==> s[i] in s;
      SettledIsBounded(s, n - 1);
    }
  }

  lemma {:induction false} NothingStartsAnyMore(b: Bulk, later: seq<Step>)
    requires !b.phase.Dispatching?
    ensures !Run(b, later).phase.Dispatching? && Run(b, later).started == b.started
  {
    if later != [] { NothingStartsAnyMore(b, later[..|later| - 1]); }
  }

  /** A cancellation while jobs are left takes effect at once: whatever happens afterwards, no further job is started. */
  lemma CancellationStartsNothing(b: Bulk, later: seq<Step>)
    requires b.phase == Dispatching && b.dispatched < b.total
    ensures Run(Next(b, Cancel), later).started == b.started && Next(b, Cancel).phase == Cancelling(b.dispatched)
  {
    NothingStartsAnyMore(Next(b, Cancel), later);
  }

  lemma {:induction false} UncancelledIsDispatched(total: nat, steps: seq<Step>)
    requires Cancel !in steps
    ensures var b := Run(Initial(total), steps);
            !b.phase.Cancelling? && b.total == total && (b.phase.Closed? || b.phase.Finished? ==> b.dispatched == total)
  {
    if steps != [] { UncancelledIsDispatched(total, steps[..|steps| - 1]); }
  }

  /** Without a cancellation a finished run has started every job, in request order. */
  lemma UncancelledStartsEverything(total: nat, steps: seq<Step>)
    requires Cancel !in steps && Run(Initial(total), steps).phase == Finished
    ensures Run(Initial(total), steps).started == seq(total, i => i)
  {
    UncancelledIsDispatched(total, steps);
    RunKeeps(total, steps);
  }

  // ----- termination -----

  /** What is left to do: every enabled step makes it smaller. */
  function Remaining(b: Bulk): nat {
    4 * (b.total - (if b.dispatched <= b.total then b.dispatched else b.total))
    + 2 * CountWorking(b.workers) + CountPresent(b.workers)
    + (match b.phase
       case Dispatching => b.total + 4
       case Cancelling(next) => (if next <= b.total then b.total - next else 0) + 3
       case Closed => 2
       case Finished => 0)
  }

  function CountWorking(ws: seq<Worker>): nat {
    if ws == [] then 0 else CountWorking(ws[1..]) + (if ws[0].Working? then 1 else 0)
  }

  function CountPresent(ws: seq<Worker>): nat {
    if ws == [] then 0 else CountPresent(ws[1..]) + (if ws[0].Gone? then 0 else 1)
  }

  lemma {:induction false} CountsAfter(ws: seq<Worker>, w: nat, to: Worker)
    requires w < |ws|
    ensures CountWorking(ws[w := to])
            == CountWorking(ws) - (if ws[w].Working? then 1 else 0) + (if to.Working? then 1 else 0)
    ensures CountPresent(ws[w := to])
            == CountPresent(ws) - (if ws[w].Gone? then 0 else 1) + (if to.Gone? then 0 else 1)
  {
    if w == 0 {
      assert ws[w := to][1..] == ws[1..];
    } else {
      assert ws[w := to][1..] == ws[1..][w - 1 := to];
      CountsAfter(ws[1..], w - 1, to);
    }
  }

  lemma StepsEnd(b: Bulk, step: Step)
    requires Inv(b) && Enabled(b, step)
    ensures Remaining(Apply(b, step)) < Remaining(b)
  {
    match step
    case Hand(w) => CountsAfter(b.workers, w, Working(b.dispatched));
    case Complete(w) => CountsAfter(b.workers, w, Idle);
    case Leave(w) => CountsAfter(b.workers, w, Gone);
    case _ =>
  }

  /** A run never gets stuck and needs no cancellation to go on: until it is finished some other step is enabled,
      and every step brings the end nearer. */
  lemma RunsAlwaysFinish(total: nat, steps: seq<Step>) returns (step: Step)
    ensures var b := Run(Initial(total), steps);
            !b.phase.Finished? ==>
              Enabled(b, step) && Remaining(Next(b, step)) < Remaining(b) && step != Cancel
  {
    RunKeeps(total, steps);
    var b := Run(Initial(total), steps);
    if w: nat :| w < |b.workers| && b.workers[w].Working? {
      step := Complete(w);
    } else if b.phase.Dispatching? {
      step := if b.dispatched < b.total then Hand(0) else Close;
    } else if b.phase.Cancelling? {
      step := if b.phase.next < b.total then Skip else Close;
    } else if w: nat :| w < |b.workers| && !b.workers[w].Gone? && b.phase.Closed? {
      step := Leave(w);
    } else {
      step := Finish;
    }
    if !b.phase.Finished? { StepsEnd(b, step); }
  }

  // ----- the counter of a manual run -----

  /** The workers and the dispatcher of a manual run, counting what is completed: when the run has finished the
      counter equals the total, however early it was cancelled. */
  method RunManual(total: nat, schedule: seq<Step>) returns (completed: nat, executed: seq<nat>, active: bool)
    ensures var b := Run(Initial(total), schedule);
            && completed == Completed(b) <= total && executed == b.started && (active <==> !b.phase.Finished?)
    ensures !active ==> completed == total
    ensures Distinct(executed) && forall i :: 0 <= i < |executed| ==> executed[i] < total
  {
    var b := Initial(total);
    completed, executed, active := 0, [], true;
    for k := 0 to |schedule|
      invariant b == Run(Initial(total), schedule[..k])
      invariant completed == Completed(b) && executed == b.started && (active <==> !b.phase.Finished?)
    {
      assert schedule[..k + 1][..k] == schedule[..k];
      var step := schedule[k];
      if Enabled(b, step) {
        if step.Complete? || step.Skip? {
          completed := completed + 1;
        }
        if step.Hand? {
          executed := executed + [b.dispatched];
        }
        if step.Finish? {
          active := false;
        }
      }
      b := Next(b, step);
    }
    assert schedule[..|schedule|] == schedule;
    WorkIsConserved(total, schedule);
  }

  // ----- the result slots of a quota refresh -----

  /** What a refresh puts into the slot of one key: what a worker fetched, or the failure of undispatched work. */
  datatype View = Fetched(key: string) | Undispatched(key: string)

  /** The slots after a schedule: a settled job holds its own view and is never written again. */
  ghost predicate SlotOk(b: Bulk, keys: seq<string>, slot: Option<View>, job: nat)
    requires job < |keys|
  {
    && (job in b.settled <==> slot.Some?)
    && (slot.Some? ==> slot.value == if job < b.dispatched then Fetched(keys[job]) else Undispatched(keys[job]))
  }

  /** The workers and the dispatcher filling the slots in place, under any schedule. */
  method RefreshQuotas(keys: seq<string>, schedule: seq<Step>) returns (views: array<Option<View>>, b: Bulk)
    ensures fresh(views) && views.Length == |keys| && b == Run(Initial(|keys|), schedule)
    ensures forall job :: 0 <= job < |keys| ==> SlotOk(b, keys, views[job], job)
    ensures b.phase.Finished? ==>
              forall job :: 0 <= job < |keys| ==>
                views[job] == Some(if job < b.dispatched then Fetched(keys[job]) else Undispatched(keys[job]))
  {
    views := new Option<View>[|keys|](_ => None);
    b := Initial(|keys|);
    for k := 0 to |schedule|
      invariant b == Run(Initial(|keys|), schedule[..k]) && fresh(views) && views.Length == |keys|
      invariant b.total == |keys| && Inv(b)
      invariant forall job :: 0 <= job < |keys| ==> SlotOk(b, keys, views[job], job)
    {
      assert schedule[..k + 1][..k] == schedule[..k];
      RunKeeps(|keys|, schedule[..k + 1]);
      b := Write(keys, views, b, schedule[k]);
    }
    assert schedule[..|schedule|] == schedule;
    if b.phase.Finished? {
      forall job | 0 <= job < |keys| ensures views[job].Some? { assert JobOk(b, job) && SlotOk(b, keys, views[job], job); }
    }
  }

  /** One step: the slot it settles, if any, is written. */
  method Write(keys: seq<string>, views: array<Option<View>>, b: Bulk, step: Step) returns (c: Bulk)
    requires views.Length == |keys| == b.total && Inv(b)
    requires forall job :: 0 <= job < |keys| ==> SlotOk(b, keys, views[job], job)
    modifies views
    ensures c == Next(b, step)
    ensures forall job :: 0 <= job < |keys| ==> SlotOk(c, keys, views[job], job)
  {
    if !Enabled(b, step) {
      return b;
    }
    c := Apply(b, step);
    if step.Complete? {
      var job := b.workers[step.worker].job;
      assert Held(b, job) && JobOk(b, job);
      views[job] := Some(Fetched(keys[job]));
      assert c.settled[|b.settled|] == job;
    } else if step.Skip? {
      var job := b.phase.next;
      assert JobOk(b, job);
      views[job] := Some(Undispatched(keys[job]));
      assert c.settled[|b.settled|] == job;
    } else if step.Hand? {
      assert JobOk(b, b.dispatched);
    }
  }
}
