/** Which snapshots a cleared cache can show again: every cached snapshot is traced back to the refresh that made it. */
module CacheClears {
  import opened Domain
  import opened Quota
  import opened QuotaRuns

  // ----- where snapshots come from -----

  ghost predicate Starts(g: Guard, e: Event, key: Key) {
    && e.RefreshBegins? && e.key == key && key != ""
    && e.caller !in g.refreshers && key !in g.cache.flights
  }

  ghost predicate Ends(g: Guard, e: Event, key: Key) {
    && e.RefreshEnds? && e.caller in g.refreshers && g.refreshers[e.caller].Owner?
    && g.refreshers[e.caller].key == key && key in g.cache.flights
  }

  /** The event that made the cached snapshot, and the one that made the snapshot the refresh in flight remembers. */
  datatype Origin = Origin(cached: Option<nat>, remembered: Option<nat>)

  ghost function Traced(o: Origin, g: Guard, e: Event, now: nat, key: Key): Origin {
    if Starts(g, e, key) then o.(remembered := o.cached)
    else if Ends(g, e, key) then
      Origin(if e.fetched.Some? || o.remembered.None? then Some(now) else o.remembered, None)
    else if e.CacheCleared? then o.(cached := None)
    else if e.Restarted? then Origin(None, None)
    else o
  }

  ghost function OriginOf(events: seq<Event>, key: Key): Origin {
    if events == [] then Origin(None, None)
    else
      var init, e := events[..|events| - 1], events[|events| - 1];
      Traced(OriginOf(init, key), Run(INITIAL, init), e, |init|, key)
  }

  /** Event `n` ended a refresh of the account, and the snapshot is what that refresh brought, or the placeholder
      a failed refresh leaves when it had nothing to put back. */
  ghost predicate MadeAt(events: seq<Event>, n: nat, key: Key, snapshot: Snapshot) {
    && n < |events|
    && var g := Run(INITIAL, events[..n]);
       && Ends(g, events[n], key)
       && (events[n].fetched.None? ==> g.cache.flights[key].before.accountKey == "")
       && snapshot == match events[n].fetched
                      case Some(windows) => Snapshot(key, g.cache.flights[key].attemptAt, windows)
                      case None => Snapshot(key, 0, [])
  }

  /** A refresh that starts remembers what is cached, or nothing, and when it started. */
  lemma StartRemembers(g: Guard, e: Event, key: Key)
    requires Starts(g, e, key)
    ensures var c := Next(g, e).cache;
            && key in c.flights && c.flights[key].id == g.cache.nextFlight < c.nextFlight
            && c.flights[key].attemptAt == e.at
            && c.flights[key].before
               == (if key in g.cache.entries then g.cache.entries[key].snapshot else Snapshot("", 0, []))
            && c.entries == g.cache.entries && c.landings == g.cache.landings
            && (forall other :: other != key ==>
                  (other in c.flights <==> other in g.cache.flights)
                  && (other in c.flights ==> c.flights[other] == g.cache.flights[other]))
  {
  }

  /** A refresh that ends caches what it brought, or what it remembered under its own account; everyone who shared it
      gets the same, and the accounts of others are left alone. */
  lemma EndCaches(g: Guard, e: Event, key: Key)
    requires Ends(g, e, key)
    ensures var f, c := g.cache.flights[key], Next(g, e).cache;
            var snapshot := match e.fetched
                            case Some(windows) => Snapshot(key, f.attemptAt, windows)
                            case None => if f.before.accountKey == "" then f.before.(accountKey := key) else f.before;
            && key in c.entries && c.entries[key] == Entry(snapshot, e.fetched.None?, f.attemptAt)
            && f.id in c.landings && c.landings[f.id] == Landing(snapshot, e.fetched.None?)
            && key !in c.flights
            && (forall other :: other != key ==>
                  (other in c.entries <==> other in g.cache.entries)
                  && (other in c.entries ==> c.entries[other] == g.cache.entries[other]))
  {
  }

  /** What a reader sees: the cached snapshot, stale from five minutes after it was captured. */
  lemma ViewShowsTheCache(c: Cache, key: Key, now: Instant)
    ensures ViewOf(c, key, now).Some? <==> key in c.entries
    ensures key in c.entries ==>
              var e, view := c.entries[key], ViewOf(c, key, now).value;
              && view.snapshot == e.snapshot && view.failed == e.failed
              && (view.stale <==> e.snapshot.capturedAt != 0 && now - e.snapshot.capturedAt >= 300_000_000_000)
  {
  }

  ghost predicate CachedIsTraced(events: seq<Event>, o: Origin, c: Cache, key: Key) {
    if key in c.entries then o.cached.Some? && MadeAt(events, o.cached.value, key, c.entries[key].snapshot)
    else o.cached.None?
  }

  ghost predicate RememberedIsTraced(events: seq<Event>, o: Origin, c: Cache, key: Key) {
    if key in c.flights && c.flights[key].before.accountKey != "" then
      o.remembered.Some? && MadeAt(events, o.remembered.value, key, c.flights[key].before)
    else o.remembered.None? && (key in c.flights ==> c.flights[key].before == Snapshot("", 0, []))
  }

  ghost predicate IsTraced(events: seq<Event>, o: Origin, c: Cache, key: Key) {
    CachedIsTraced(events, o, c, key) && RememberedIsTraced(events, o, c, key)
  }

  lemma MadeStays(events: seq<Event>, e: Event, n: nat, key: Key, snapshot: Snapshot)
    requires MadeAt(events, n, key, snapshot)
    ensures MadeAt(events + [e], n, key, snapshot)
    ensures key != "" ==> snapshot.accountKey != ""
  {
    assert (events + [e])[..n] == events[..n];
  }

  lemma TraceStays(events: seq<Event>, e: Event, o: Origin, c: Cache, key: Key)
    requires IsTraced(events, o, c, key)
    ensures IsTraced(events + [e], o, c, key)
  {
    if o.cached.Some? { MadeStays(events, e, o.cached.value, key, c.entries[key].snapshot); }
    if o.remembered.Some? { MadeStays(events, e, o.remembered.value, key, c.flights[key].before); }
  }

  lemma EndMakes(events: seq<Event>, e: Event, g: Guard, o: Origin, key: Key)
    requires g == Run(INITIAL, events) && IsTraced(events, o, g.cache, key) && Ends(g, e, key)
    ensures IsTraced(events + [e], Traced(o, g, e, |events|, key), Next(g, e).cache, key)
  {
    EndCaches(g, e, key);
    if e.fetched.None? && o.remembered.Some? {
      MadeStays(events, e, o.remembered.value, key, g.cache.flights[key].before);
    } else {
      MadeNow(events, e, g, key, Next(g, e).cache.entries[key].snapshot);
    }
  }

  lemma MadeNow(events: seq<Event>, e: Event, g: Guard, key: Key, snapshot: Snapshot)
    requires g == Run(INITIAL, events) && Ends(g, e, key)
    requires e.fetched.None? ==> g.cache.flights[key].before.accountKey == ""
    requires snapshot == match e.fetched
                         case Some(windows) => Snapshot(key, g.cache.flights[key].attemptAt, windows)
                         case None => Snapshot(key, 0, [])
    ensures MadeAt(events + [e], |events|, key, snapshot)
  {
    assert (events + [e])[..|events|] == events;
  }

  lemma StepIsTraced(events: seq<Event>, e: Event, g: Guard, o: Origin, key: Key)
    requires key != "" && g == Run(INITIAL, events) && IsTraced(events, o, g.cache, key)
    ensures IsTraced(events + [e], Traced(o, g, e, |events|, key), Next(g, e).cache, key)
  {
    TraceStays(events, e, o, g.cache, key);
    if Starts(g, e, key) {
      if o.cached.Some? { MadeStays(events, e, o.cached.value, key, g.cache.entries[key].snapshot); }
    } else if Ends(g, e, key) {
      EndMakes(events, e, g, o, key);
    } else if e.CacheCleared? || e.Restarted? {
    } else {
      OtherAccountsStay(g, e, key);
    }
  }

  lemma OtherAccountsStay(g: Guard, e: Event, key: Key)
    requires !Starts(g, e, key) && !Ends(g, e, key) && !e.CacheCleared? && !e.Restarted?
    ensures key in Next(g, e).cache.entries <==> key in g.cache.entries
    ensures key in g.cache.entries ==> Next(g, e).cache.entries[key] == g.cache.entries[key]
    ensures key in Next(g, e).cache.flights <==> key in g.cache.flights
    ensures key in g.cache.flights ==> Next(g, e).cache.flights[key] == g.cache.flights[key]
  {
  }

  /** The trace is right in every run: whatever is cached or remembered was made by the event it names. */
  lemma {:induction false} RunIsTraced(events: seq<Event>, key: Key)
    requires key != ""
    ensures IsTraced(events, OriginOf(events, key), Run(INITIAL, events).cache, key)
  {
    if events != [] {
      var init, e := events[..|events| - 1], events[|events| - 1];
      assert events == init + [e];
      RunIsTraced(init, key);
      StepIsTraced(init, e, Run(INITIAL, init), OriginOf(init, key), key);
    }
  }

  /** A refresh of the account is in flight that remembers a snapshot. */
  ghost predicate Remembers(g: Guard, key: Key) {
    key in g.cache.flights && g.cache.flights[key].before.accountKey != ""
  }

  /** A failed refresh caches again the very snapshot it remembered, marked as failed. */
  lemma FailureRestores(events: seq<Event>, e: Event, key: Key)
    requires key != "" && Remembers(Run(INITIAL, events), key)
    requires Ends(Run(INITIAL, events), e, key) && e.fetched.None?
    ensures var f := Run(INITIAL, events).cache.flights[key];
            var c := Run(INITIAL, events + [e]).cache;
            && key !in c.flights && key in c.entries && c.entries[key] == Entry(f.before, true, f.attemptAt)
            && OriginOf(events, key).remembered.Some?
            && OriginOf(events + [e], key).cached == OriginOf(events, key).remembered
  {
    RunIsTraced(events, key);
    assert (events + [e])[..|events|] == events;
  }

  // ----- after a clear -----

  ghost function After(before: seq<Event>, later: seq<Event>): seq<Event> {
    before + [CacheCleared] + later
  }

  /** After these events the cache shows a snapshot that was made before the clear. */
  ghost predicate ShowsOld(before: seq<Event>, later: seq<Event>, key: Key) {
    var o := OriginOf(After(before, later), key);
    o.cached.Some? && o.cached.value < |before|
  }

  ghost predicate Returns(before: seq<Event>, later: seq<Event>, key: Key) {
    exists n :: 0 <= n <= |later| && ShowsOld(before, later[..n], key)
  }

  ghost predicate Flies(g: Guard, key: Key, flight: nat) {
    key in g.cache.flights && g.cache.flights[key].id == flight
  }

  ghost predicate FailsAt(before: seq<Event>, later: seq<Event>, n: nat, key: Key, flight: nat)
    requires n < |later|
  {
    var g := Run(INITIAL, After(before, later[..n]));
    Flies(g, key, flight) && Ends(g, later[n], key) && later[n].fetched.None?
  }

  ghost predicate Fails(before: seq<Event>, later: seq<Event>, key: Key, flight: nat) {
    exists n :: 0 <= n < |later| && FailsAt(before, later, n, key, flight)
  }

  /** Nothing from before the clear is cached, and only the refresh that was in flight then may still remember it. */
  ghost predicate Clean(o: Origin, g: Guard, cleared: Guard, remembered: Option<nat>, clear: nat, key: Key) {
    && cleared.cache.nextFlight <= g.cache.nextFlight
    && (o.cached.Some? ==> o.cached.value >= clear)
    && (if StillFlies(g, cleared, key) then o.remembered == remembered
        else o.remembered.Some? ==> o.remembered.value >= clear)
  }

  ghost predicate StillFlies(g: Guard, cleared: Guard, key: Key) {
    key in cleared.cache.flights && Flies(g, key, cleared.cache.flights[key].id)
  }

  lemma FlightsOnlyGrow(g: Guard, e: Event)
    ensures g.cache.nextFlight <= Next(g, e).cache.nextFlight
  {
  }

  lemma StaysClean(
    o: Origin, g: Guard, e: Event, cleared: Guard, remembered: Option<nat>, clear: nat, now: nat, key: Key)
    requires CacheOk(cleared.cache) && clear <= now
    requires Clean(o, g, cleared, remembered, clear, key)
    requires remembered.Some? && StillFlies(g, cleared, key) && Ends(g, e, key) ==> e.fetched.Some?
    ensures Clean(Traced(o, g, e, now, key), Next(g, e), cleared, remembered, clear, key)
  {
    FlightsOnlyGrow(g, e);
    if Starts(g, e, key) {
    } else if Ends(g, e, key) {
    } else if e.CacheCleared? || e.Restarted? {
    } else {
      OtherAccountsStay(g, e, key);
    }
  }

  lemma ClearIsClean(before: seq<Event>, key: Key)
    requires key != ""
    ensures Clean(OriginOf(before + [CacheCleared], key), Run(INITIAL, before + [CacheCleared]), Run(INITIAL, before),
                  OriginOf(before, key).remembered, |before|, key)
  {
    RunIsTraced(before, key);
    assert (before + [CacheCleared])[..|before|] == before;
  }

  lemma NotFailedEarlier(before: seq<Event>, init: seq<Event>, e: Event, key: Key, flight: nat)
    requires !Fails(before, init + [e], key, flight)
    ensures !Fails(before, init, key, flight)
    ensures var g := Run(INITIAL, After(before, init));
            !(Flies(g, key, flight) && Ends(g, e, key) && e.fetched.None?)
  {
    var later := init + [e];
    assert later[..|init|] == init;
    assert !FailsAt(before, later, |init|, key, flight);
    forall n | 0 <= n < |init| ensures !FailsAt(before, init, n, key, flight) {
      assert init[..n] == later[..n];
      assert !FailsAt(before, later, n, key, flight);
    }
  }

  lemma OneMore(before: seq<Event>, init: seq<Event>, e: Event, key: Key)
    ensures Run(INITIAL, After(before, init + [e])) == Next(Run(INITIAL, After(before, init)), e)
    ensures OriginOf(After(before, init + [e]), key)
         == Traced(OriginOf(After(before, init), key), Run(INITIAL, After(before, init)), e, |before| + 1 + |init|, key)
  {
    var all := After(before, init + [e]);
    assert all == After(before, init) + [e];
    assert all[..|all| - 1] == After(before, init);
  }

  lemma RememberedIsOld(before: seq<Event>, key: Key)
    requires key != ""
    ensures var o := OriginOf(before, key);
            && (o.remembered.Some? <==> Remembers(Run(INITIAL, before), key))
            && (o.remembered.Some? ==> o.remembered.value < |before|)
    ensures CacheOk(Run(INITIAL, before).cache)
  {
    RunIsTraced(before, key);
    RunKeeps(before);
  }

  lemma {:induction false} AfterClearIsClean(before: seq<Event>, later: seq<Event>, key: Key, cleared: Guard)
    requires key != "" && cleared == Run(INITIAL, before)
    requires !(Remembers(cleared, key) && Fails(before, later, key, cleared.cache.flights[key].id))
    ensures Clean(OriginOf(After(before, later), key), Run(INITIAL, After(before, later)), cleared,
                  OriginOf(before, key).remembered, |before|, key)
  {
    if later == [] {
      ClearIsClean(before, key);
      assert After(before, later) == before + [CacheCleared];
    } else {
      var init, e := later[..|later| - 1], later[|later| - 1];
      assert later == init + [e];
      if Remembers(cleared, key) { NotFailedEarlier(before, init, e, key, cleared.cache.flights[key].id); }
      AfterClearIsClean(before, init, key, cleared);
      RememberedIsOld(before, key);
      StepIsClean(before, init, e, key, cleared, Run(INITIAL, After(before, init)));
    }
  }

  lemma StepIsClean(before: seq<Event>, init: seq<Event>, e: Event, key: Key, cleared: Guard, g: Guard)
    requires CacheOk(cleared.cache) && g == Run(INITIAL, After(before, init))
    requires Clean(OriginOf(After(before, init), key), g, cleared, OriginOf(before, key).remembered, |before|, key)
    requires OriginOf(before, key).remembered.Some? && StillFlies(g, cleared, key) && Ends(g, e, key) ==>
               e.fetched.Some?
    ensures Clean(OriginOf(After(before, init + [e]), key), Run(INITIAL, After(before, init + [e])), cleared,
                  OriginOf(before, key).remembered, |before|, key)
  {
    OneMore(before, init, e, key);
    StaysClean(OriginOf(After(before, init), key), g, e, cleared, OriginOf(before, key).remembered, |before|,
               |before| + 1 + |init|, key);
  }

  lemma NoneFailedBefore(before: seq<Event>, later: seq<Event>, n: nat, key: Key, flight: nat)
    requires n <= |later|
    requires forall m :: 0 <= m < n ==> !FailsAt(before, later, m, key, flight)
    ensures !Fails(before, later[..n], key, flight)
  {
    var init := later[..n];
    forall m | 0 <= m < n ensures !FailsAt(before, init, m, key, flight) {
      assert init[..m] == later[..m];
      assert !FailsAt(before, later, m, key, flight);
    }
  }

  /** When the refresh that was in flight fails, it puts back what it remembered, unless that has happened before. */
  lemma FailureShowsOld(before: seq<Event>, later: seq<Event>, n: nat, key: Key, cleared: Guard)
    requires key != "" && cleared == Run(INITIAL, before) && Remembers(cleared, key)
    requires n < |later| && FailsAt(before, later, n, key, cleared.cache.flights[key].id)
    requires forall m :: 0 <= m < n ==> !FailsAt(before, later, m, key, cleared.cache.flights[key].id)
    ensures ShowsOld(before, later[..n + 1], key)
  {
    NoneFailedBefore(before, later, n, key, cleared.cache.flights[key].id);
    AfterClearIsClean(before, later[..n], key, cleared);
    RememberedIsOld(before, key);
    assert later[..n + 1] == later[..n] + [later[n]];
    FailingShowsOld(before, later[..n], later[n], key, cleared, Run(INITIAL, After(before, later[..n])));
  }

  lemma FailingShowsOld(before: seq<Event>, init: seq<Event>, e: Event, key: Key, cleared: Guard, g: Guard)
    requires g == Run(INITIAL, After(before, init))
    requires Clean(OriginOf(After(before, init), key), g, cleared, OriginOf(before, key).remembered, |before|, key)
    requires StillFlies(g, cleared, key) && Ends(g, e, key) && e.fetched.None?
    requires OriginOf(before, key).remembered.Some? && OriginOf(before, key).remembered.value < |before|
    ensures ShowsOld(before, init + [e], key)
  {
    OneMore(before, init, e, key);
  }

  lemma {:induction false} FirstFailure(before: seq<Event>, later: seq<Event>, n: nat, key: Key, flight: nat)
    returns (first: nat)
    requires n < |later| && FailsAt(before, later, n, key, flight)
    ensures first < |later| && FailsAt(before, later, first, key, flight)
    ensures forall m :: 0 <= m < first ==> !FailsAt(before, later, m, key, flight)
  {
    if m :| 0 <= m < n && FailsAt(before, later, m, key, flight) {
      first := FirstFailure(before, later, m, key, flight);
    } else {
      first := n;
    }
  }

  /** Over every run: a snapshot that was cached before the cache was cleared is cached again afterwards if and only if
      a refresh of its account that was in flight at the clear remembers one, and that refresh ends failed. */
  lemma ClearedReturnsExactlyWhen(before: seq<Event>, later: seq<Event>, key: Key)
    requires key != ""
    ensures var cleared := Run(INITIAL, before);
            Returns(before, later, key) <==>
              Remembers(cleared, key) && Fails(before, later, key, cleared.cache.flights[key].id)
  {
    var cleared := Run(INITIAL, before);
    if Remembers(cleared, key) && Fails(before, later, key, cleared.cache.flights[key].id) {
      var n :| 0 <= n < |later| && FailsAt(before, later, n, key, cleared.cache.flights[key].id);
      var first := FirstFailure(before, later, n, key, cleared.cache.flights[key].id);
      FailureShowsOld(before, later, first, key, cleared);
    } else {
      forall n | 0 <= n <= |later| ensures !ShowsOld(before, later[..n], key) {
        NothingOld(before, later, n, key, cleared);
      }
    }
  }

  lemma NothingOld(before: seq<Event>, later: seq<Event>, n: nat, key: Key, cleared: Guard)
    requires key != "" && cleared == Run(INITIAL, before) && n <= |later|
    requires !(Remembers(cleared, key) && Fails(before, later, key, cleared.cache.flights[key].id))
    ensures !ShowsOld(before, later[..n], key)
  {
    if Remembers(cleared, key) {
      forall m | 0 <= m < n ensures !FailsAt(before, later, m, key, cleared.cache.flights[key].id) {}
      NoneFailedBefore(before, later, n, key, cleared.cache.flights[key].id);
    }
    AfterClearIsClean(before, later[..n], key, cleared);
  }

  /** Without such a refresh the clear is final: whatever is cached afterwards was brought by a refresh that ended
      after the clear. */
  lemma ClearedStaysCleared(before: seq<Event>, later: seq<Event>, key: Key)
    requires key != ""
    requires var cleared := Run(INITIAL, before);
             !(Remembers(cleared, key) && Fails(before, later, key, cleared.cache.flights[key].id))
    ensures var c := Run(INITIAL, After(before, later)).cache;
            key in c.entries ==>
              exists n :: |before| < n && MadeAt(After(before, later), n, key, c.entries[key].snapshot)
  {
    var all := After(before, later);
    RunIsTraced(all, key);
    AfterClearIsClean(before, later, key, Run(INITIAL, before));
    if key in Run(INITIAL, all).cache.entries {
      var n := OriginOf(all, key).cached.value;
      assert MadeAt(all, n, key, Run(INITIAL, all).cache.entries[key].snapshot);
      assert all[|before|] == CacheCleared;
    }
  }
}
