/** The quota cache and guardrail: cached usage snapshots with one refresh at a time per account, the persistent hold
    they drive, and the decision taken before a probe. */
module Quota {
  import opened Domain
  import RuntimeState

  type Key = string
  type Hold = RuntimeState.Hold

  const STALE_AFTER: int := 5 * MINUTE

  datatype Window = Window(short: bool, durationMinutes: int, remainingPercent: int, resetAt: Instant)

  datatype Snapshot = Snapshot(accountKey: Key, capturedAt: Instant, windows: seq<Window>)

  const NO_SNAPSHOT := Snapshot("", ZERO_TIME, [])

  datatype Entry = Entry(snapshot: Snapshot, failed: bool, lastAttemptAt: Instant)

  /** What a reader sees of an entry: the snapshot, whether it is too old, and whether the last refresh failed. */
  datatype SnapshotView = SnapshotView(snapshot: Snapshot, stale: bool, failed: bool)

  datatype Floors = Floors(longPercent: int, quotaPercent: int, windowMinutes: int)

  datatype Decision = Proceed | SufficientWindow | GuardrailHold | UnknownFailOpen

  // ----- windows -----

  /** `i` is the first of the shortest windows among those marked short, or among all if none is marked. */
  ghost predicate IsShortest(windows: seq<Window>, i: nat) {
    && i < |windows|
    && (forall j :: 0 <= j < |windows| && Competes(windows, j) ==>
          windows[i].durationMinutes < windows[j].durationMinutes
          || (windows[i].durationMinutes == windows[j].durationMinutes && i <= j))
    && Competes(windows, i)
  }

  ghost predicate Competes(windows: seq<Window>, i: nat)
    requires i < |windows|
  {
    windows[i].short || forall j :: 0 <= j < |windows| ==> !windows[j].short
  }

  method ShortestIndex(windows: seq<Window>) returns (index: nat, ok: bool)
    ensures ok <==> windows != []
    ensures ok ==> IsShortest(windows, index)
  {
    if |windows| == 0 {
      return 0, false;
    }
    var marked := -1;
    for i := 0 to |windows|
      invariant -1 <= marked < i
      invariant marked == -1 <==> forall j :: 0 <= j < i ==> !windows[j].short
      invariant marked >= 0 ==> windows[marked].short && forall j :: 0 <= j < i && windows[j].short ==>
                  windows[marked].durationMinutes < windows[j].durationMinutes
                  || (windows[marked].durationMinutes == windows[j].durationMinutes && marked <= j)
    {
      if !windows[i].short {
        continue;
      }
      if marked == -1 || windows[i].durationMinutes < windows[marked].durationMinutes {
        marked := i;
      }
    }
    if marked >= 0 {
      return marked, true;
    }
    index := 0;
    for candidate := 1 to |windows|
      invariant index < candidate
      invariant forall j :: 0 <= j < candidate ==>
                  windows[index].durationMinutes < windows[j].durationMinutes
                  || (windows[index].durationMinutes == windows[j].durationMinutes && index <= j)
    {
      if windows[candidate].durationMinutes < windows[index].durationMinutes {
        index := candidate;
      }
    }
    return index, true;
  }

  lemma ShortestIsUnique(windows: seq<Window>, i: nat, j: nat)
    requires IsShortest(windows, i) && IsShortest(windows, j)
    ensures i == j
  {
  }

  /** Some window other than the shortest is at or below the floor. */
  ghost predicate SomeLongLow(windows: seq<Window>, floor: int) {
    exists i: nat, j: nat :: IsShortest(windows, i) && IsLong(windows, i, j) && windows[j].remainingPercent <= floor
  }

  predicate IsLong(windows: seq<Window>, shortest: nat, j: nat) {
    j < |windows| && j != shortest
  }

  ghost predicate HasLong(windows: seq<Window>) { |windows| >= 2 }

  method AnyLongAtOrBelow(windows: seq<Window>, floor: int) returns (low: bool)
    ensures low <==> SomeLongLow(windows, floor)
  {
    var shortest, ok := ShortestIndex(windows);
    if !ok {
      return false;
    }
    for i := 0 to |windows|
      invariant forall j :: 0 <= j < i ==> !(IsLong(windows, shortest, j) && windows[j].remainingPercent <= floor)
    {
      if i != shortest && windows[i].remainingPercent <= floor {
        assert IsLong(windows, shortest, i);
        return true;
      }
    }
    forall i: nat, j: nat | IsShortest(windows, i) && IsLong(windows, i, j) ensures windows[j].remainingPercent > floor {
      ShortestIsUnique(windows, i, shortest);
    }
    return false;
  }

  /** There is a long window, and all of them are above the floor. */
  method AllLongAbove(windows: seq<Window>, floor: int) returns (above: bool)
    ensures above <==> HasLong(windows) && !SomeLongLow(windows, floor)
  {
    var shortest, ok := ShortestIndex(windows);
    if !ok || |windows| < 2 {
      return false;
    }
    for i := 0 to |windows|
      invariant forall j :: 0 <= j < i ==> !(IsLong(windows, shortest, j) && windows[j].remainingPercent <= floor)
    {
      if i != shortest && windows[i].remainingPercent <= floor {
        assert IsLong(windows, shortest, i);
        return false;
      }
    }
    forall i: nat, j: nat | IsShortest(windows, i) && IsLong(windows, i, j) ensures windows[j].remainingPercent > floor {
      ShortestIsUnique(windows, i, shortest);
    }
    return true;
  }

  // ----- the cache -----

  datatype RefreshFlight = RefreshFlight(id: nat, before: Snapshot, attemptAt: Instant)

  /** What a finished refresh hands to everyone who shared it. */
  datatype Landing = Landing(snapshot: Snapshot, failed: bool)

  datatype Cache = Cache(
    entries: map<Key, Entry>, flights: map<Key, RefreshFlight>, nextFlight: nat, landings: map<nat, Landing>)

  const EMPTY_CACHE := Cache(map[], map[], 0, map[])

  function BeginRefresh(c: Cache, key: Key, at: Instant): Cache {
    if key in c.flights then c
    else
      var before := if key in c.entries then c.entries[key].snapshot else NO_SNAPSHOT;
      c.(flights := c.flights[key := RefreshFlight(c.nextFlight, before, at)], nextFlight := c.nextFlight + 1)
  }

  /** A failed refresh puts back what was cached when it began. */
  function Refreshed(key: Key, f: RefreshFlight, fetched: Option<seq<Window>>): Entry {
    match fetched
    case Some(windows) => Entry(Snapshot(key, f.attemptAt, windows), false, f.attemptAt)
    case None =>
      Entry(if f.before.accountKey == "" then f.before.(accountKey := key) else f.before, true, f.attemptAt)
  }

  function EndRefresh(c: Cache, key: Key, fetched: Option<seq<Window>>): Cache
    requires key in c.flights
  {
    var entry := Refreshed(key, c.flights[key], fetched);
    c.(entries := c.entries[key := entry], flights := c.flights - {key},
       landings := c.landings[c.flights[key].id := Landing(entry.snapshot, entry.failed)])
  }

  function ViewOf(c: Cache, key: Key, now: Instant): Option<SnapshotView> {
    if key !in c.entries then None
    else
      var e := c.entries[key];
      Some(SnapshotView(
        e.snapshot,
        e.snapshot.capturedAt != ZERO_TIME && now - e.snapshot.capturedAt >= STALE_AFTER,
        e.failed))
  }

  // ----- the guardrail -----

  datatype Transition = Keep | Establish | Release

  ghost function TransitionFor(view: SnapshotView, held: bool, floors: Floors): Transition {
    if view.failed || view.stale then Keep
    else if SomeLongLow(view.snapshot.windows, floors.longPercent) && !held then Establish
    else if held && HasLong(view.snapshot.windows) && !SomeLongLow(view.snapshot.windows, floors.longPercent) then Release
    else Keep
  }

  /** The shortest window still has enough quota and enough time left. */
  ghost predicate ShortSuffices(windows: seq<Window>, floors: Floors, now: Instant) {
    exists i: nat ::
      && IsShortest(windows, i)
      && windows[i].remainingPercent >= floors.quotaPercent
      && windows[i].resetAt - now >= floors.windowMinutes * MINUTE
  }

  ghost function Decide(view: SnapshotView, held: bool, floors: Floors, now: Instant): Decision {
    if held && (view.failed || view.stale) then GuardrailHold
    else if view.failed then UnknownFailOpen
    else if SomeLongLow(view.snapshot.windows, floors.longPercent) then GuardrailHold
    else if !view.stale && ShortSuffices(view.snapshot.windows, floors, now) then SufficientWindow
    else Proceed
  }

  /** The decision from what was read: the cached view, the stored hold, and how the hold's own write ended. */
  ghost function Evaluation(view: Option<SnapshotView>, held: bool, floors: Floors, now: Instant, readable: bool,
                            write: Write): Decision
  {
    if !readable then GuardrailHold
    else
      match view
      case None => if held then GuardrailHold else UnknownFailOpen
      case Some(v) =>
        match TransitionFor(v, held, floors)
        case Keep => Decide(v, held, floors, now)
        case Establish => if write.Ok? then Decide(v, true, floors, now) else GuardrailHold
        case Release => if write.Ok? then Decide(v, false, floors, now) else GuardrailHold
  }

  function Applied(holds: map<Key, Hold>, key: Key, transition: Transition, floors: Floors, now: Instant): map<Key, Hold> {
    match transition
    case Keep => holds
    case Establish => if key in holds then holds else holds[key := RuntimeState.Hold(now, floors.longPercent)]
    case Release => holds - {key}
  }

  /** A snapshot that proves recovery: fresh, free of errors, with long windows, all above the floor. */
  ghost predicate ProvesRecovery(view: SnapshotView, floors: Floors) {
    && !view.failed && !view.stale
    && HasLong(view.snapshot.windows) && !SomeLongLow(view.snapshot.windows, floors.longPercent)
  }

  // ----- the service -----

  class Service {
    const states: HoldStore
    var cache: Cache

    constructor (states: HoldStore)
      ensures cache == EMPTY_CACHE && this.states == states
    {
      this.states := states;
      cache := EMPTY_CACHE;
    }

    /** Join the refresh in flight, or become its owner. */
    method Begin(account: string, at: Instant) returns (key: Key, owner: bool, flight: nat)
      modifies this
      ensures key == TrimSpace(account)
      ensures key == "" ==> !owner && cache == old(cache)
      ensures key != "" ==>
                && cache == BeginRefresh(old(cache), key, at)
                && (owner <==> key !in old(cache).flights)
                && key in cache.flights && cache.flights[key].id == flight
    {
      key := TrimSpace(account);
      if key == "" {
        return key, false, 0;
      }
      if key in cache.flights {
        return key, false, cache.flights[key].id;
      }
      var current := if key in cache.entries then cache.entries[key].snapshot else NO_SNAPSHOT;
      flight := cache.nextFlight;
      cache := cache.(flights := cache.flights[key := RefreshFlight(flight, current, at)], nextFlight := flight + 1);
      return key, true, flight;
    }

    /** The owner stores what the two requests returned and lands the flight. */
    method End(key: Key, fetched: Option<seq<Window>>) returns (snapshot: Snapshot, failed: bool)
      requires key in cache.flights
      modifies this
      ensures cache == EndRefresh(old(cache), key, fetched)
      ensures cache.landings[old(cache).flights[key].id] == Landing(snapshot, failed)
    {
      var f := cache.flights[key];
      var entry;
      if fetched == None {
        var restored := f.before;
        if restored.accountKey == "" {
          restored := restored.(accountKey := key);
        }
        entry := Entry(restored, true, f.attemptAt);
      } else {
        entry := Entry(Snapshot(key, f.attemptAt, fetched.value), false, f.attemptAt);
      }
      cache := cache.(entries := cache.entries[key := entry], flights := cache.flights - {key},
                      landings := cache.landings[f.id := Landing(entry.snapshot, entry.failed)]);
      return entry.snapshot, entry.failed;
    }

    method Get(account: string, now: Instant) returns (view: Option<SnapshotView>)
      ensures view == ViewOf(cache, TrimSpace(account), now)
    {
      var key := TrimSpace(account);
      if key !in cache.entries {
        return None;
      }
      var e := cache.entries[key];
      var stale := false;
      if e.snapshot.capturedAt != ZERO_TIME {
        stale := now - e.snapshot.capturedAt >= STALE_AFTER;
      }
      return Some(SnapshotView(e.snapshot, stale, e.failed));
    }

    method ClearSnapshots()
      modifies this
      ensures cache == old(cache).(entries := map[])
    {
      cache := cache.(entries := map[]);
    }

    method Evaluate(account: string, floors: Floors, now: Instant, readable: bool, write: Write)
      returns (decision: Decision)
      modifies states
      ensures var key := TrimSpace(account);
              var held := key != "" && key in old(states.holds);
              var view := ViewOf(cache, key, now);
              && decision == Evaluation(view, held, floors, now, readable || key == "", write)
              && states.holds
                 == if (readable || key == "") && view.Some?
                    then Written(old(states.holds),
                                 Applied(old(states.holds), key, TransitionFor(view.value, held, floors), floors, now),
                                 write)
                    else old(states.holds)
    {
      var key := TrimSpace(account);
      TrimIsIdempotent(account);
      var view := Get(key, now);
      if !readable && key != "" {
        return GuardrailHold;
      }
      var held := key != "" && key in states.holds;
      if view == None {
        return if held then GuardrailHold else UnknownFailOpen;
      }
      var transition := Choose(view.value, held, floors);
      if transition == Keep {
        decision := MakeDecision(view.value, held, floors, now);
        return;
      }
      var ok := states.Save(Applied(states.holds, key, transition, floors, now), write);
      if !ok {
        return GuardrailHold;
      }
      decision := MakeDecision(view.value, transition == Establish, floors, now);
    }
  }

  /** The guardrail holds inside the runtime state file. */
  class HoldStore {
    var holds: map<Key, Hold>

    method Save(after: map<Key, Hold>, write: Write) returns (ok: bool)
      modifies this
      ensures holds == Written(old(holds), after, write) && ok == write.Ok?
    {
      if write != Lost { holds := after; }
      return write == Ok;
    }
  }

  method Choose(view: SnapshotView, held: bool, floors: Floors) returns (transition: Transition)
    ensures transition == TransitionFor(view, held, floors)
  {
    if view.failed || view.stale {
      return Keep;
    }
    var longLow := AnyLongAtOrBelow(view.snapshot.windows, floors.longPercent);
    if longLow && !held {
      return Establish;
    }
    var above := AllLongAbove(view.snapshot.windows, floors.longPercent);
    if held && |view.snapshot.windows| >= 2 && above {
      return Release;
    }
    return Keep;
  }

  method MakeDecision(view: SnapshotView, held: bool, floors: Floors, now: Instant) returns (decision: Decision)
    ensures decision == Decide(view, held, floors, now)
  {
    if held && (view.failed || view.stale) {
      return GuardrailHold;
    }
    if view.failed && !held {
      return UnknownFailOpen;
    }
    var low := AnyLongAtOrBelow(view.snapshot.windows, floors.longPercent);
    if low {
      return GuardrailHold;
    }
    var index, ok := ShortestIndex(view.snapshot.windows);
    if !view.stale && ok && view.snapshot.windows[index].remainingPercent >= floors.quotaPercent
       && view.snapshot.windows[index].resetAt - now >= floors.windowMinutes * MINUTE
    {
      return SufficientWindow;
    }
    forall i: nat | IsShortest(view.snapshot.windows, i) ensures i == index {
      ShortestIsUnique(view.snapshot.windows, i, index);
    }
    return Proceed;
  }
}
