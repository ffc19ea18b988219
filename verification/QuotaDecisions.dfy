/** What evaluations decide when their sections interleave with refreshes, cache clears, restarts and one another. */
module QuotaDecisions {
  import opened Domain
  import opened Quota
  import opened QuotaRuns

  /** What the cache showed after so many events. */
  ghost function ShownThen(events: seq<Event>, n: nat, key: Key, now: Instant): Option<SnapshotView>
    requires n <= |events|
  {
    ViewOf(Run(INITIAL, events[..n]).cache, key, now)
  }

  /** Whether a hold was stored after so many events. */
  ghost predicate HeldThen(events: seq<Event>, n: nat, key: Key)
    requires n <= |events|
  {
    key in Run(INITIAL, events[..n]).holds
  }

  /** An evaluation in progress remembers what the cache showed and what was stored when it looked. */
  ghost predicate EvalReads(events: seq<Event>, v: Eval) {
    match v
    case Viewed(key, _, now, seen, viewedAt) => viewedAt <= |events| && seen == ShownThen(events, viewedAt, key, now)
    case Chosen(key, floors, now, view, viewedAt, held, transition, chosenAt) =>
      && viewedAt <= chosenAt <= |events|
      && Some(view) == ShownThen(events, viewedAt, key, now)
      && held == HeldThen(events, chosenAt, key)
      && transition == TransitionFor(view, held, floors) && !transition.Keep?
  }

  /** A decision is the evaluation of what the cache showed at one time and what was stored at a later one. */
  ghost predicate ToldReads(events: seq<Event>, d: Told) {
    && d.viewedAt <= d.chosenAt <= |events|
    && d.view == ShownThen(events, d.viewedAt, d.key, d.now)
    && d.held == HeldThen(events, d.chosenAt, d.key)
    && d.decision == Evaluation(d.view, d.held, d.floors, d.now, d.readable, d.write)
  }

  ghost predicate AllRead(events: seq<Event>, g: Guard) {
    && g.clock == |events|
    && (forall i :: i in g.evals ==> EvalReads(events, g.evals[i]))
    && (forall i :: 0 <= i < |g.decisions| ==> ToldReads(events, g.decisions[i]))
  }

  lemma ReadsStay(events: seq<Event>, e: Event, v: Eval)
    requires EvalReads(events, v)
    ensures EvalReads(events + [e], v)
  {
    assert (events + [e])[..v.viewedAt] == events[..v.viewedAt];
    if v.Chosen? { assert (events + [e])[..v.chosenAt] == events[..v.chosenAt]; }
  }

  lemma TellsStay(events: seq<Event>, e: Event, d: Told)
    requires ToldReads(events, d)
    ensures ToldReads(events + [e], d)
  {
    assert (events + [e])[..d.viewedAt] == events[..d.viewedAt];
    assert (events + [e])[..d.chosenAt] == events[..d.chosenAt];
  }

  lemma NowReads(events: seq<Event>, e: Event, key: Key, now: Instant)
    ensures ShownThen(events + [e], |events|, key, now) == ViewOf(Run(INITIAL, events).cache, key, now)
    ensures HeldThen(events + [e], |events|, key) <==> key in Run(INITIAL, events).holds
  {
    assert (events + [e])[..|events|] == events;
  }

  /** What earlier events read stays what they read. */
  lemma EarlierReads(events: seq<Event>, e: Event, g: Guard)
    requires AllRead(events, g)
    ensures forall i :: i in g.evals ==> EvalReads(events + [e], g.evals[i])
    ensures forall i :: 0 <= i < |g.decisions| ==> ToldReads(events + [e], g.decisions[i])
  {
    forall i | i in g.evals ensures EvalReads(events + [e], g.evals[i]) { ReadsStay(events, e, g.evals[i]); }
    forall i | 0 <= i < |g.decisions| ensures ToldReads(events + [e], g.decisions[i]) {
      TellsStay(events, e, g.decisions[i]);
    }
  }

  lemma ChoosingReads(events: seq<Event>, e: Event, g: Guard, i: nat, readable: bool)
    requires g == Run(INITIAL, events) && AllRead(events, g)
    requires i in g.evals && g.evals[i].Viewed?
    ensures var u := ChooseEval(g, i, readable);
            if i in u.evals then u.decisions == g.decisions && EvalReads(events + [e], u.evals[i])
            else |u.decisions| == |g.decisions| + 1 && u.decisions[..|g.decisions|] == g.decisions
                 && ToldReads(events + [e], u.decisions[|g.decisions|])
  {
    ReadsStay(events, e, g.evals[i]);
    NowReads(events, e, g.evals[i].key, g.evals[i].now);
  }

  lemma WritingReads(events: seq<Event>, e: Event, g: Guard, i: nat, write: Write)
    requires AllRead(events, g)
    requires i in g.evals && g.evals[i].Chosen?
    ensures var u := WriteEval(g, i, write);
            |u.decisions| == |g.decisions| + 1 && ToldReads(events + [e], u.decisions[|g.decisions|])
  {
    ReadsStay(events, e, g.evals[i]);
  }

  lemma StillReads(events: seq<Event>, e: Event, g: Guard, u: Guard)
    requires AllRead(events, g) && u.clock == g.clock + 1
    requires forall i :: i in u.evals ==>
               (i in g.evals && u.evals[i] == g.evals[i]) || EvalReads(events + [e], u.evals[i])
    requires |g.decisions| <= |u.decisions| && u.decisions[..|g.decisions|] == g.decisions
    requires forall i :: |g.decisions| <= i < |u.decisions| ==> ToldReads(events + [e], u.decisions[i])
    ensures AllRead(events + [e], u)
  {
    EarlierReads(events, e, g);
    forall i | 0 <= i < |u.decisions| ensures ToldReads(events + [e], u.decisions[i]) {
      if i < |g.decisions| { assert u.decisions[i] == g.decisions[i]; }
    }
  }

  lemma ChooseStepReads(events: seq<Event>, e: Event, g: Guard, i: nat, readable: bool)
    requires g == Run(INITIAL, events) && AllRead(events, g)
    requires e == EvaluationChooses(i, readable) && i in g.evals && g.evals[i].Viewed?
    ensures AllRead(events + [e], Next(g, e))
  {
    var may := readable || g.evals[i].key == "";
    ChoosingReads(events, e, g, i, may);
    OthersWait(g, i, may);
    var u := ChooseEval(g, i, may);
    ChosenStillReads(events, e, g, i, u);
    assert Next(g, e) == u.(clock := g.clock + 1);
  }

  lemma ChosenStillReads(events: seq<Event>, e: Event, g: Guard, i: nat, u: Guard)
    requires AllRead(events, g) && u.clock == g.clock
    requires forall j :: j in u.evals && j != i ==> j in g.evals && u.evals[j] == g.evals[j]
    requires if i in u.evals then u.decisions == g.decisions && EvalReads(events + [e], u.evals[i])
             else |u.decisions| == |g.decisions| + 1 && u.decisions[..|g.decisions|] == g.decisions
                  && ToldReads(events + [e], u.decisions[|g.decisions|])
    ensures AllRead(events + [e], u.(clock := g.clock + 1))
  {
    StillReads(events, e, g, u.(clock := g.clock + 1));
  }

  lemma OthersWait(g: Guard, i: nat, readable: bool)
    requires i in g.evals && g.evals[i].Viewed?
    ensures var u := ChooseEval(g, i, readable);
            && u.clock == g.clock
            && forall j :: j in u.evals && j != i ==> j in g.evals && u.evals[j] == g.evals[j]
  {
  }

  lemma WriteStepReads(events: seq<Event>, e: Event, g: Guard, i: nat, write: Write)
    requires AllRead(events, g)
    requires e == EvaluationWrites(i, write) && i in g.evals && g.evals[i].Chosen?
    ensures AllRead(events + [e], Next(g, e))
  {
    WritingReads(events, e, g, i, write);
    StillReads(events, e, g, WriteEval(g, i, write).(clock := g.clock + 1));
  }

  lemma ViewStepReads(events: seq<Event>, e: Event, g: Guard, i: nat, key: Key, floors: Floors, now: Instant)
    requires g == Run(INITIAL, events) && AllRead(events, g)
    requires e == EvaluationViews(i, key, floors, now) && i !in g.evals
    ensures AllRead(events + [e], Next(g, e))
  {
    NowReads(events, e, key, now);
    StillReads(events, e, g, Next(g, e));
  }

  lemma StepReads(events: seq<Event>, e: Event, g: Guard)
    requires g == Run(INITIAL, events) && AllRead(events, g)
    ensures AllRead(events + [e], Next(g, e))
  {
    if e.EvaluationViews? && e.evaluation !in g.evals {
      ViewStepReads(events, e, g, e.evaluation, e.key, e.floors, e.now);
    } else if e.EvaluationChooses? && e.evaluation in g.evals && g.evals[e.evaluation].Viewed? {
      ChooseStepReads(events, e, g, e.evaluation, e.readable);
    } else if e.EvaluationWrites? && e.evaluation in g.evals && g.evals[e.evaluation].Chosen? {
      WriteStepReads(events, e, g, e.evaluation, e.write);
    } else {
      assert Next(g, e).decisions == g.decisions;
      StillReads(events, e, g, Next(g, e));
    }
  }

  lemma {:induction false} RunReads(events: seq<Event>)
    ensures AllRead(events, Run(INITIAL, events))
  {
    if events != [] {
      var init, e := events[..|events| - 1], events[|events| - 1];
      assert events == init + [e];
      RunReads(init);
      StepReads(init, e, Run(INITIAL, init));
    }
  }

  /** Snapshots that must not lift or pass a hold: none, a stale or failed one, or one with a low long window. */
  ghost predicate Unproven(view: Option<SnapshotView>, floors: Floors) {
    view.None? || view.value.stale || view.value.failed || SomeLongLow(view.value.snapshot.windows, floors.longPercent)
  }

  /** Without a hold a low view holds back, unless its last refresh failed; with one, so does every unproven view, and
      a recovery whose write is not confirmed. */
  ghost predicate HoldsBack(view: Option<SnapshotView>, floors: Floors, held: bool, write: Write) {
    if held then Unproven(view, floors) || (HasLong(view.value.snapshot.windows) && !write.Ok?)
    else view.Some? && !view.value.failed && SomeLongLow(view.value.snapshot.windows, floors.longPercent)
  }

  /** Over every run and interleaving, a decision is taken from what the cache showed at one time and whether a hold
      was stored at a later one: stored and unproven decides hold; sufficient-window is decided exactly on a fresh,
      error-free view that is not low and has room in its shortest window (once a removal that is due is written);
      fail-open exactly without a hold, on an absent or failed view, from a readable store; hold exactly from an
      unreadable store or where it holds back; anything else proceeds. */
  lemma DecisionsInRuns(events: seq<Event>, i: nat)
    requires i < |Run(INITIAL, events).decisions|
    ensures var d := Run(INITIAL, events).decisions[i];
            && d.viewedAt <= d.chosenAt <= |events|
            && d.view == ShownThen(events, d.viewedAt, d.key, d.now)
            && (HeldThen(events, d.chosenAt, d.key) && Unproven(d.view, d.floors) ==> d.decision == GuardrailHold)
            && (d.decision == SufficientWindow <==>
                  && d.readable && !Unproven(d.view, d.floors)
                  && ShortSuffices(d.view.value.snapshot.windows, d.floors, d.now)
                  && (HeldThen(events, d.chosenAt, d.key) && HasLong(d.view.value.snapshot.windows) ==> d.write.Ok?))
            && (d.decision == UnknownFailOpen <==>
                  d.readable && !HeldThen(events, d.chosenAt, d.key) && (d.view.None? || d.view.value.failed))
            && (d.decision == GuardrailHold <==>
                  || !d.readable
                  || HoldsBack(d.view, d.floors, HeldThen(events, d.chosenAt, d.key), d.write))
  {
    RunReads(events);
    var d := Run(INITIAL, events).decisions[i];
    assert ToldReads(events, d);
    HeldYieldsExactlyWhen(d.view, d.floors, d.now, d.write);
    FailsOpenExactlyWhen(d.view, d.held, d.floors, d.now, d.readable, d.write);
    SufficientExactlyWhen(d.view, d.held, d.floors, d.now, d.readable, d.write);
  }

  /** With a hold stored when it was looked up, the guardrail yields exactly to a fresh, error-free view that is not
      low, from a readable store, once a removal that is due has been written. */
  lemma HoldIsPassedExactlyWhen(events: seq<Event>, i: nat)
    requires i < |Run(INITIAL, events).decisions|
    ensures var d := Run(INITIAL, events).decisions[i];
            && d.chosenAt <= |events|
            && (HeldThen(events, d.chosenAt, d.key) ==>
                  (d.decision != GuardrailHold <==>
                     && d.readable && !Unproven(d.view, d.floors)
                     && (HasLong(d.view.value.snapshot.windows) ==> d.write.Ok?)))
  {
    RunReads(events);
    var d := Run(INITIAL, events).decisions[i];
    assert ToldReads(events, d);
    HeldYieldsExactlyWhen(d.view, d.floors, d.now, d.write);
  }
}
