/** What happens to an older search when a newer one starts while it is
    still in flight (src/store/slices/tourSearchSlice.ts:142-206).

    The older run is one continuation; everything else that touches the store
    (the newer search, hotel loads, any other dispatch) is a foreign action.
    An interleaving is a sequence of events, each either a foreign action or
    an input that resumes the older run. */
module Supersession {
  import opened Wrappers
  import opened ApiTypes
  import opened Backend
  import opened SearchState
  import opened PollPolicy
  import opened SearchDriver

  datatype Event = Foreign(action: Action) | Resumed(input: Input)

  /** The foreign actions among `events`, in order. */
  function ForeignActions(events: seq<Event>): (actions: seq<Action>)
    ensures |actions| <= |events|
    decreases |events|
  {
    if |events| == 0 then []
    else (if events[0].Foreign? then [events[0].action] else []) + ForeignActions(events[1..])
  }

  /** The older run `p` interleaved with `events` from store `s`: the store
      after all of it, and the older run's own effects. */
  function Interleave(p: Phase, s: State, events: seq<Event>): Step
    decreases |events|
  {
    if |events| == 0 then Step(p, s, [])
    else
      var e := events[0];
      if e.Foreign? then Interleave(p, Reduce(s, e.action), events[1..])
      else
        var first := Resume(p, s, e.input);
        var rest := Interleave(first.phase, first.state, events[1..]);
        Step(rest.phase, rest.state, first.effects + rest.effects)
  }

  /** The run is parked at an await after which it checks whether it is still
      current, and it is not; or it has returned. */
  predicate Superseded(p: Phase, s: State) {
    match p
    case Starting(c) => !IsSearchStillCurrent(s, c, None)
    case Waiting(c, t, _, _) => !IsSearchStillCurrent(s, c, Some(t))
    case Fetching(c, t, _, _) => !IsSearchStillCurrent(s, c, Some(t))
    case BackingOff(c, t, _, _) => !IsSearchStillCurrent(s, c, Some(t))
    case Finished => true
    case _ => false
  }

  /** The foreign actions that would make a superseded run current again:
      reinstalling its token, or (before it has one) re-selecting its country. */
  predicate Revives(p: Phase, a: Action) {
    match p
    case Starting(c) => SelectsCountry(a, c)
    case Waiting(_, t, _, _) => InstallsToken(a, t)
    case Fetching(_, t, _, _) => InstallsToken(a, t)
    case BackingOff(_, t, _, _) => InstallsToken(a, t)
    case _ => false
  }

  /** Staleness survives a foreign action that does not revive the run. */
  lemma SupersededSurvivesForeign(p: Phase, s: State, a: Action)
    requires Superseded(p, s) && !Revives(p, a)
    ensures Superseded(p, Reduce(s, a))
  {
    match p
    case Starting(c) => StalenessPersists(s, a, c, None);
    case Waiting(c, t, _, _) => StalenessPersists(s, a, c, Some(t));
    case Fetching(c, t, _, _) => StalenessPersists(s, a, c, Some(t));
    case BackingOff(c, t, _, _) => StalenessPersists(s, a, c, Some(t));
    case Finished =>
  }

  /** A superseded run resumed does nothing visible but, at most, one more
      sleep; it stays superseded and is revived by no more than before. */
  lemma SupersededResumeIsSilent(p: Phase, s: State, i: Input)
    requires Superseded(p, s)
    ensures var r := Resume(p, s, i);
      && r.state == s
      && Superseded(r.phase, s)
      && (forall a :: Revives(r.phase, a) ==> Revives(p, a))
      && (forall k :: 0 <= k < |r.effects| ==> r.effects[k].Sleep?)
  {
  }

  /** A run that is superseded, and that no later foreign action revives,
      never dispatches, starts, polls, stops or loads anything again, whatever
      it is resumed with and however it is interleaved; the store ends as the
      foreign actions alone leave it. */
  lemma {:induction false} SupersededRunStaysSilent(p: Phase, s: State, events: seq<Event>)
    requires Superseded(p, s)
    requires forall k :: 0 <= k < |events| && events[k].Foreign? ==> !Revives(p, events[k].action)
    ensures var r := Interleave(p, s, events);
      && (forall k :: 0 <= k < |r.effects| ==> r.effects[k].Sleep?)
      && Dispatched(r.effects) == []
      && r.state == ApplyAll(s, ForeignActions(events))
    decreases |events|
  {
    if |events| > 0 {
      var e := events[0];
      var rest := events[1..];
      assert forall k :: 0 <= k < |rest| && rest[k].Foreign? ==> !Revives(p, rest[k].action) by {
        forall k | 0 <= k < |rest| && rest[k].Foreign?
          ensures !Revives(p, rest[k].action)
        {
          assert rest[k] == events[k + 1];
        }
      }
      if e.Foreign? {
        SupersededSurvivesForeign(p, s, e.action);
        SupersededRunStaysSilent(p, Reduce(s, e.action), rest);
        assert ForeignActions(events) == [e.action] + ForeignActions(rest);
      } else {
        var first := Resume(p, s, e.input);
        SupersededResumeIsSilent(p, s, e.input);
        SupersededRunStaysSilent(first.phase, s, rest);
        var r := Interleave(first.phase, s, rest);
        assert ForeignActions(events) == ForeignActions(rest);
        DispatchedAppend(first.effects, r.effects);
        assert Dispatched(first.effects) == [] by {
          SleepsDispatchNothing(first.effects);
        }
      }
    }
  }

  lemma {:induction false} SleepsDispatchNothing(effects: seq<Effect>)
    requires forall k :: 0 <= k < |effects| ==> effects[k].Sleep?
    ensures Dispatched(effects) == []
    decreases |effects|
  {
    if |effects| > 0 {
      SleepsDispatchNothing(effects[1..]);
    }
  }

  /** Once a newer search for `countryId` has got past its stop request (or
      had no token to stop), the store holds no token and names `countryId`
      as the last requested country; this holds on a cache hit and a miss. */
  lemma NewerSearchTakesOver(s: State, countryId: string, cache: map<string, PricesMap>, later: State)
    ensures AfterStop(s, countryId, cache).state.activeToken == None
    ensures AfterStop(s, countryId, cache).state.lastCountryId == Some(countryId)
    ensures !Truthy(s.activeToken) ==> Begin(s, countryId) == AfterStop(s, countryId, s.cache)
    ensures Resume(Stopping(countryId, cache), later, StopSettled).state
              == AfterStop(Reduce(later, ClearActiveToken), countryId, cache).state
  {
    if CacheHit(cache, countryId) {
      CacheHitShowsCached(s, countryId, cache);
    } else {
      CacheMissStartsJob(s, countryId, cache);
    }
  }

  /** The older run, parked anywhere in its poll loop, is superseded by the
      newer search's takeover; parked at its start request, it is superseded
      exactly when the newer search is for a different country. */
  lemma TakeoverSupersedes(p: Phase, s: State, countryId: string, cache: map<string, PricesMap>)
    requires p.Waiting? || p.Fetching? || p.BackingOff? || p.Starting?
    ensures p.Starting? ==> (Superseded(p, AfterStop(s, countryId, cache).state) <==> p.countryId != countryId)
    ensures !p.Starting? ==> Superseded(p, AfterStop(s, countryId, cache).state)
  {
    NewerSearchTakesOver(s, countryId, cache, s);
  }

  /** Supersession end to end: an older run parked in its poll loop when a
      newer search takes over dispatches nothing from then on, provided no
      later `searchPolling` hands it back its own token (backend tokens are
      never reused). */
  lemma OlderRunDispatchesNothing(p: Phase, s: State, countryId: string, cache: map<string, PricesMap>, events: seq<Event>)
    requires p.Waiting? || p.Fetching? || p.BackingOff?
    requires forall k :: 0 <= k < |events| && events[k].Foreign? ==> !InstallsToken(events[k].action, p.token)
    ensures Dispatched(Interleave(p, AfterStop(s, countryId, cache).state, events).effects) == []
  {
    TakeoverSupersedes(p, s, countryId, cache);
    SupersededRunStaysSilent(p, AfterStop(s, countryId, cache).state, events);
  }

  /** The same for an older run still waiting for its start request, when the
      newer search is for another country and nothing re-selects the older
      one's country. */
  lemma OlderStartDispatchesNothing(c: string, s: State, countryId: string, cache: map<string, PricesMap>, events: seq<Event>)
    requires c != countryId
    requires forall k :: 0 <= k < |events| && events[k].Foreign? ==> !SelectsCountry(events[k].action, c)
    ensures Dispatched(Interleave(Starting(c), AfterStop(s, countryId, cache).state, events).effects) == []
  {
    TakeoverSupersedes(Starting(c), s, countryId, cache);
    SupersededRunStaysSilent(Starting(c), AfterStop(s, countryId, cache).state, events);
  }

  /** The currency check before a token exists compares countries only: a
      newer search for the same country does not stop the older run, whose
      successful start then installs its own token and sets status
      `Polling`. When the newer search was served from the cache, that
      overwrites the success on display. */
  lemma SameCountryStartStaysCurrent(c: string, s: State, cache: map<string, PricesMap>, token: string, waitUntil: int, now: int)
    ensures var taken := AfterStop(s, c, cache).state;
            var r := Resume(Starting(c), taken, StartSettled(StartOk(token, waitUntil), now));
      && !Superseded(Starting(c), taken)
      && r.effects[0] == Dispatch(SearchPolling(token, waitUntil))
      && r.state.status == Polling && r.state.activeToken == Some(token)
      && (CacheHit(cache, c) ==> taken.status == Success && taken.prices == cache[c])
  {
    NewerSearchTakesOver(s, c, cache, s);
    if CacheHit(cache, c) {
      CacheHitShowsCached(s, c, cache);
    }
  }

  /** A run parked at its stop request is not silenced: nothing is checked
      after `await stopSearchPrices` (lines 147-159). Two searches that both
      found the same previous token active both stop it; if the newer one's
      stop settles first and it misses the cache, the older one's later
      settling clears the token and announces its own country, and the newer
      run, still waiting on its start request, is the one that goes silent. */
  lemma StoppingRunOverridesNewer(older: string, newer: string, olderCache: map<string, PricesMap>,
                                  newerCache: map<string, PricesMap>, s: State)
    requires older != newer && !CacheHit(olderCache, older) && !CacheHit(newerCache, newer)
    ensures var taken := AfterStop(s, newer, newerCache);
            var r := Resume(Stopping(older, olderCache), taken.state, StopSettled);
      && taken.phase == Starting(newer)
      && Dispatched(r.effects) == [ClearActiveToken, SearchStarted(older)]
      && r.phase == Starting(older)
      && r.state.lastCountryId == Some(older) && r.state.status == Loading
      && Superseded(Starting(newer), r.state)
  {
    CacheMissStartsJob(s, newer, newerCache);
    var taken := AfterStop(s, newer, newerCache).state;
    CacheMissStartsJob(Reduce(taken, ClearActiveToken), older, olderCache);
  }

  /** The same race when the older search's country has a cached table: it
      shows that table as a success over the newer search. */
  lemma StoppingRunShowsItsCache(older: string, newer: string, olderCache: map<string, PricesMap>,
                                 newerCache: map<string, PricesMap>, s: State)
    requires older != newer && CacheHit(olderCache, older) && !CacheHit(newerCache, newer)
    ensures var taken := AfterStop(s, newer, newerCache);
            var r := Resume(Stopping(older, olderCache), taken.state, StopSettled);
      && taken.phase == Starting(newer)
      && Dispatched(r.effects) == [ClearActiveToken, SearchSuccess(older, olderCache[older])]
      && r.state.status == Success && r.state.prices == olderCache[older]
      && r.state.lastCountryId == Some(older)
      && Superseded(Starting(newer), r.state)
  {
    CacheMissStartsJob(s, newer, newerCache);
    var taken := AfterStop(s, newer, newerCache).state;
    CacheHitShowsCached(Reduce(taken, ClearActiveToken), older, olderCache);
  }
}
