/** The `startSearch` thunk (src/store/slices/tourSearchSlice.ts:142-208) and
    `ensureHotelsLoaded` (117-130) as a resumable continuation.

    The thunk is suspended at one `await` at a time. `Phase` names the await it
    is suspended at, with the locals live there. `Resume` runs the
    continuation from that await to the next one, reading the store as it is
    at that moment (other code may have changed it in between) and returning
    the next phase, the store after its own dispatches, and its visible
    effects in order. Timers are abstract: each input that ends a wait or a
    request carries the current time where the code reads the clock. */
module SearchDriver {
  import opened Wrappers
  import opened ApiTypes
  import opened Backend
  import opened SearchState
  import opened PollPolicy

  /** What the thunk does that the outside world can see. */
  datatype Effect =
    | Dispatch(action: Action)
    | StopCall(token: string)
    | StartCall(countryId: string)
    | PollCall(token: string)
    | Sleep(ms: nat)
    | HotelsCall(countryId: string)

  /** The await the thunk is suspended at. */
  datatype Phase =
    /** `await stopSearchPrices(prevToken)` (147); `cache` is the table read before it (144). */
    | Stopping(countryId: string, cache: map<string, PricesMap>)
    /** `await startSearchPrices(countryId)` (161). */
    | Starting(countryId: string)
    /** `await sleep(delay)` at the top of the poll loop (176). */
    | Waiting(countryId: string, token: string, waitUntil: int, retriesLeft: nat)
    /** `await getSearchPrices(token)` (179). */
    | Fetching(countryId: string, token: string, waitUntil: int, retriesLeft: nat)
    /** `await sleep(RETRY_DELAY_MS)` (200). */
    | BackingOff(countryId: string, token: string, waitUntil: int, retriesLeft: nat)
    /** `await fetchHotels(countryId)` inside `ensureHotelsLoaded` (125). */
    | LoadingHotels(countryId: string)
    /** The thunk has returned. */
    | Finished

  /** The event that ends an await. One meant for a different await does not
      resume the continuation. */
  datatype Input =
    | StopSettled
    | StartSettled(started: StartOutcome, now: int)
    | Timer
    | PollSettled(polled: PollOutcome, now: int)
    | BackoffElapsed(now: int)
    | HotelsSettled(fetched: HotelsOutcome)

  datatype Step = Step(phase: Phase, state: State, effects: seq<Effect>)

  /** The actions among `effects`, in order. */
  function Dispatched(effects: seq<Effect>): (actions: seq<Action>)
    ensures |actions| <= |effects|
    decreases |effects|
  {
    if |effects| == 0 then []
    else (if effects[0].Dispatch? then [effects[0].action] else []) + Dispatched(effects[1..])
  }

  lemma {:induction false} DispatchedAppend(xs: seq<Effect>, ys: seq<Effect>)
    ensures Dispatched(xs + ys) == Dispatched(xs) + Dispatched(ys)
    decreases |xs|
  {
    if |xs| == 0 {
      assert xs + ys == ys;
    } else {
      var head := if xs[0].Dispatch? then [xs[0].action] else [];
      assert (xs + ys)[0] == xs[0];
      assert (xs + ys)[1..] == xs[1..] + ys;
      calc {
        Dispatched(xs + ys);
        head + Dispatched(xs[1..] + ys);
        { DispatchedAppend(xs[1..], ys); }
        head + (Dispatched(xs[1..]) + Dispatched(ys));
        (head + Dispatched(xs[1..])) + Dispatched(ys);
      }
    }
  }

  /** The timer delay before polling: how far `waitUntil` lies ahead, or 0. */
  function Delay(waitUntil: int, now: int): (d: nat)
    ensures d >= waitUntil - now
    ensures d == 0 || d == waitUntil - now
  {
    if waitUntil > now then waitUntil - now else 0
  }

  /** A cache entry that short-circuits a search: present and non-empty. */
  predicate CacheHit(cache: map<string, PricesMap>, countryId: string) {
    countryId in cache && |cache[countryId]| > 0
  }

  /** A stored hotel table that makes a fetch unnecessary: present and non-empty. */
  predicate HotelsKnown(s: State, countryId: string) {
    countryId in s.hotelsByCountryId && |s.hotelsByCountryId[countryId]| > 0
  }

  /** The first segment of `ensureHotelsLoaded`: nothing to do when a non-empty
      table is stored, otherwise ask for the country's hotels. */
  function EnsureHotelsLoaded(s: State, countryId: string): (r: Step)
    ensures r.state == s
    ensures HotelsKnown(s, countryId) ==> r.phase == Finished && r.effects == []
    ensures !HotelsKnown(s, countryId) ==> r.phase == LoadingHotels(countryId) && r.effects == [HotelsCall(countryId)]
  {
    if HotelsKnown(s, countryId) then Step(Finished, s, [])
    else Step(LoadingHotels(countryId), s, [HotelsCall(countryId)])
  }

  /** Dispatches `a` and continues with `next`, which was computed on the
      store after `a`. */
  function DispatchThen(s: State, a: Action, next: Step): (r: Step)
    requires next.state == ApplyAll(Reduce(s, a), Dispatched(next.effects))
    ensures r.state == ApplyAll(s, Dispatched(r.effects))
    ensures r.phase == next.phase
    ensures Dispatched(r.effects) == [a] + Dispatched(next.effects)
  {
    DispatchedAppend([Dispatch(a)], next.effects);
    assert Dispatched([Dispatch(a)]) == [a];
    assert ([a] + Dispatched(next.effects))[1..] == Dispatched(next.effects);
    Step(next.phase, next.state, [Dispatch(a)] + next.effects)
  }

  /** Lines 152-161, from the cache lookup on: a hit is shown at once and
      followed by the hotel load; a miss (an absent or an empty entry)
      announces the search and asks the backend to start a job. */
  function AfterStop(s: State, countryId: string, cache: map<string, PricesMap>): (r: Step)
    ensures r.state == ApplyAll(s, Dispatched(r.effects))
  {
    if CacheHit(cache, countryId) then
      var a := SearchSuccess(countryId, cache[countryId]);
      DispatchThen(s, a, EnsureHotelsLoaded(Reduce(s, a), countryId))
    else
      var a := SearchStarted(countryId);
      DispatchThen(s, a, Step(Starting(countryId), Reduce(s, a), [StartCall(countryId)]))
  }

  /** The synchronous start of `startSearch(countryId)`: the table and the
      token are read once; a (truthy) previous token is stopped first, and the
      rest waits for that request to settle. */
  function Begin(s: State, countryId: string): (r: Step)
    ensures r.state == ApplyAll(s, Dispatched(r.effects))
  {
    if Truthy(s.activeToken) then Step(Stopping(countryId, s.cache), s, [StopCall(s.activeToken.value)])
    else AfterStop(s, countryId, s.cache)
  }

  /** The top of the poll loop: sleep until `waitUntil`. */
  function LoopTop(s: State, countryId: string, token: string, waitUntil: int, retriesLeft: nat, now: int): (r: Step)
    ensures r.state == s && Dispatched(r.effects) == []
  {
    assert Dispatched([Sleep(Delay(waitUntil, now))]) == [];
    Step(Waiting(countryId, token, waitUntil, retriesLeft), s, [Sleep(Delay(waitUntil, now))])
  }

  /** Resumes the continuation suspended at `p` with event `i`, the store
      reading `s` at that moment. The store afterwards is `s` with exactly
      the continuation's own dispatches applied. */
  function Resume(p: Phase, s: State, i: Input): (r: Step)
    ensures r.state == ApplyAll(s, Dispatched(r.effects))
  {
    match (p, i)
    case (Stopping(c, cache), StopSettled) =>
      var a := ClearActiveToken;
      DispatchThen(s, a, AfterStop(Reduce(s, a), c, cache))
    case (Starting(c), StartSettled(o, now)) =>
      // A rethrown rejection leaves the thunk before the currency check.
      if o.StartThrew? then Step(Finished, s, [])
      else if !IsSearchStillCurrent(s, c, None) then Step(Finished, s, [])
      else if o.StartFailed? then
        var a := SearchError(o.message);
        DispatchThen(s, a, Step(Finished, Reduce(s, a), []))
      else
        var a := SearchPolling(o.token, o.waitUntil);
        DispatchThen(s, a, LoopTop(Reduce(s, a), c, o.token, o.waitUntil, MaxRetries, now))
    case (Waiting(c, t, w, n), Timer) =>
      if !IsSearchStillCurrent(s, c, Some(t)) then Step(Finished, s, [])
      else
        assert Dispatched([PollCall(t)]) == [];
        Step(Fetching(c, t, w, n), s, [PollCall(t)])
    case (Fetching(c, t, w, n), PollSettled(o, now)) =>
      if o.PollThrew? then Step(Finished, s, [])
      else if !IsSearchStillCurrent(s, c, Some(t)) then Step(Finished, s, [])
      else if o.PollOk? then
        var a := if |o.prices| > 0 then SearchSuccess(c, o.prices) else SearchEmpty(c);
        DispatchThen(s, a, EnsureHotelsLoaded(Reduce(s, a), c))
      else if IsRateLimited(o) then LoopTop(s, c, t, o.waitUntil.value, n, now)
      else if n > 0 then
        assert Dispatched([Sleep(RetryDelayMs)]) == [];
        Step(BackingOff(c, t, w, n - 1), s, [Sleep(RetryDelayMs)])
      else
        var a := SearchError(o.message);
        DispatchThen(s, a, Step(Finished, Reduce(s, a), []))
    case (BackingOff(c, t, w, n), BackoffElapsed(now)) =>
      LoopTop(s, c, t, w, n, now)
    case (LoadingHotels(c), HotelsSettled(o)) =>
      var hotels := if o.HotelsOk? then o.hotels else map[];
      var a := SetHotelsForCountry(c, hotels);
      DispatchThen(s, a, Step(Finished, Reduce(s, a), []))
    case _ => Step(p, s, [])
  }

  /** An uninterrupted run: the continuation resumed by each input in turn,
      with nothing else touching the store in between. */
  function Run(p: Phase, s: State, inputs: seq<Input>): (r: Step)
    decreases |inputs|
  {
    if |inputs| == 0 then Step(p, s, [])
    else
      var first := Resume(p, s, inputs[0]);
      var rest := Run(first.phase, first.state, inputs[1..]);
      Step(rest.phase, rest.state, first.effects + rest.effects)
  }

  /** An uninterrupted run changes the store exactly by the actions it
      dispatches, in order. */
  lemma {:induction false} RunAppliesItsDispatches(p: Phase, s: State, inputs: seq<Input>)
    ensures var r := Run(p, s, inputs);
            r.state == ApplyAll(s, Dispatched(r.effects))
    decreases |inputs|
  {
    if |inputs| > 0 {
      var first := Resume(p, s, inputs[0]);
      var rest := Run(first.phase, first.state, inputs[1..]);
      RunAppliesItsDispatches(first.phase, first.state, inputs[1..]);
      DispatchedAppend(first.effects, rest.effects);
      ApplyAllAppend(s, Dispatched(first.effects), Dispatched(rest.effects));
    }
  }

  /** A run is its first resumption followed by the run of the rest. */
  lemma RunCons(p: Phase, s: State, i: Input, rest: seq<Input>)
    ensures var first := Resume(p, s, i);
            var r := Run(first.phase, first.state, rest);
            Run(p, s, [i] + rest) == Step(r.phase, r.state, first.effects + r.effects)
  {
    assert ([i] + rest)[0] == i;
    assert ([i] + rest)[1..] == rest;
  }

  /** A run that starts with two given resumptions. */
  lemma RunTwoThen(p: Phase, s: State, i1: Input, i2: Input, rest: seq<Input>)
    ensures var r1 := Resume(p, s, i1);
            var r2 := Resume(r1.phase, r1.state, i2);
            var r := Run(r2.phase, r2.state, rest);
            Run(p, s, [i1, i2] + rest) == Step(r.phase, r.state, r1.effects + (r2.effects + r.effects))
  {
    var r1 := Resume(p, s, i1);
    RunCons(r1.phase, r1.state, i2, rest);
    RunCons(p, s, i1, [i2] + rest);
    assert [i1, i2] + rest == [i1] + ([i2] + rest);
  }

  /** A run that starts with three given resumptions. */
  lemma RunThreeThen(p: Phase, s: State, i1: Input, i2: Input, i3: Input, rest: seq<Input>)
    ensures var r1 := Resume(p, s, i1);
            var r2 := Resume(r1.phase, r1.state, i2);
            var r3 := Resume(r2.phase, r2.state, i3);
            var r := Run(r3.phase, r3.state, rest);
            Run(p, s, [i1, i2, i3] + rest) == Step(r.phase, r.state, r1.effects + (r2.effects + (r3.effects + r.effects)))
  {
    var r1 := Resume(p, s, i1);
    RunTwoThen(r1.phase, r1.state, i2, i3, rest);
    RunCons(p, s, i1, [i2, i3] + rest);
    assert [i1, i2, i3] + rest == [i1] + ([i2, i3] + rest);
  }

  /** `startSearch(countryId)` run alone from store `s`. */
  function StartSearch(s: State, countryId: string, inputs: seq<Input>): (r: Step)
    ensures r.state == ApplyAll(s, Dispatched(r.effects))
  {
    var b := Begin(s, countryId);
    var rest := Run(b.phase, b.state, inputs);
    RunAppliesItsDispatches(b.phase, b.state, inputs);
    DispatchedAppend(b.effects, rest.effects);
    ApplyAllAppend(s, Dispatched(b.effects), Dispatched(rest.effects));
    Step(rest.phase, rest.state, b.effects + rest.effects)
  }

  /** A search is its synchronous start followed by the run of the rest. */
  lemma StartSearchSplit(s: State, countryId: string, inputs: seq<Input>)
    ensures var b := Begin(s, countryId);
            var r := Run(b.phase, b.state, inputs);
            StartSearch(s, countryId, inputs) == Step(r.phase, r.state, b.effects + r.effects)
  {
  }

  /** A backend call that belongs to a price search: starting a job or polling one. */
  predicate CallsSearch(e: Effect) {
    e.StartCall? || e.PollCall?
  }

  /** A previous (truthy) token is stopped and its stop request awaited before
      anything is dispatched; `clearActiveToken` is the first dispatch after
      it settles. An absent or empty token is not stopped at all. */
  lemma StopPrecedesClear(s: State, countryId: string, later: State)
    ensures Truthy(s.activeToken) ==>
      && Begin(s, countryId) == Step(Stopping(countryId, s.cache), s, [StopCall(s.activeToken.value)])
      && Resume(Stopping(countryId, s.cache), later, StopSettled).effects[0] == Dispatch(ClearActiveToken)
    ensures !Truthy(s.activeToken) ==>
      forall k :: 0 <= k < |Begin(s, countryId).effects| ==> !Begin(s, countryId).effects[k].StopCall?
  {
    if !Truthy(s.activeToken) {
      if CacheHit(s.cache, countryId) {
        var a := SearchSuccess(countryId, s.cache[countryId]);
        var h := EnsureHotelsLoaded(Reduce(s, a), countryId);
        assert Begin(s, countryId).effects == [Dispatch(a)] + h.effects;
      } else {
        assert Begin(s, countryId).effects == [Dispatch(SearchStarted(countryId)), StartCall(countryId)];
      }
    }
  }

  /** On a cache miss, which includes a cached empty table, the search is
      announced (status `Loading`, country recorded, token cleared) and a job
      is requested; nothing else happens before the backend answers. */
  lemma CacheMissStartsJob(s: State, countryId: string, cache: map<string, PricesMap>)
    requires !CacheHit(cache, countryId)
    ensures AfterStop(s, countryId, cache)
      == Step(Starting(countryId), ApplySearchStarted(s, countryId), [Dispatch(SearchStarted(countryId)), StartCall(countryId)])
    ensures AfterStop(s, countryId, cache).state.status == Loading
  {
  }

  /** On a cache hit the cached table is shown at once as a success, before
      any hotel request, and no job is started. */
  lemma CacheHitShowsCached(s: State, countryId: string, cache: map<string, PricesMap>)
    requires CacheHit(cache, countryId)
    ensures var r := AfterStop(s, countryId, cache);
      && r.effects[0] == Dispatch(SearchSuccess(countryId, cache[countryId]))
      && Dispatched(r.effects) == [SearchSuccess(countryId, cache[countryId])]
      && r.state.status == Success && r.state.prices == cache[countryId]
      && (r.phase.Finished? || r.phase == LoadingHotels(countryId))
  {
  }

  /** The phases from which no price search can follow. */
  predicate SearchOff(p: Phase) {
    || p.Finished?
    || p.LoadingHotels?
    || (p.Stopping? && CacheHit(p.cache, p.countryId))
  }

  lemma ResumeSearchOff(p: Phase, s: State, i: Input)
    requires SearchOff(p)
    ensures SearchOff(Resume(p, s, i).phase)
    ensures forall k :: 0 <= k < |Resume(p, s, i).effects| ==> !CallsSearch(Resume(p, s, i).effects[k])
  {
    if p.Stopping? && i.StopSettled? {
      var s1 := Reduce(s, ClearActiveToken);
      var a := SearchSuccess(p.countryId, p.cache[p.countryId]);
      var h := EnsureHotelsLoaded(Reduce(s1, a), p.countryId);
      assert Resume(p, s, i).effects == [Dispatch(ClearActiveToken)] + ([Dispatch(a)] + h.effects);
    }
  }

  lemma {:induction false} RunSearchOff(p: Phase, s: State, inputs: seq<Input>)
    requires SearchOff(p)
    ensures forall k :: 0 <= k < |Run(p, s, inputs).effects| ==> !CallsSearch(Run(p, s, inputs).effects[k])
    decreases |inputs|
  {
    if |inputs| > 0 {
      var first := Resume(p, s, inputs[0]);
      ResumeSearchOff(p, s, inputs[0]);
      RunSearchOff(first.phase, first.state, inputs[1..]);
    }
  }

  /** A search whose country has a non-empty cached table never starts or
      polls a job, whatever the backend and the timers do. */
  lemma CacheHitNeverSearches(s: State, countryId: string, inputs: seq<Input>)
    requires CacheHit(s.cache, countryId)
    ensures forall k :: 0 <= k < |StartSearch(s, countryId, inputs).effects| ==> !CallsSearch(StartSearch(s, countryId, inputs).effects[k])
  {
    var b := Begin(s, countryId);
    if !Truthy(s.activeToken) {
      CacheHitShowsCached(s, countryId, s.cache);
    }
    assert SearchOff(b.phase);
    RunSearchOff(b.phase, b.state, inputs);
    if !Truthy(s.activeToken) {
      var a := SearchSuccess(countryId, s.cache[countryId]);
      assert b.effects == [Dispatch(a)] + EnsureHotelsLoaded(Reduce(s, a), countryId).effects;
    }
  }

  /** The hotel load stores what the backend returned, or an empty table when
      the request failed; a stored empty table does not count as loaded, so a
      later load asks again. */
  lemma HotelsLoadStores(s: State, countryId: string, o: HotelsOutcome)
    ensures var r := Resume(LoadingHotels(countryId), s, HotelsSettled(o));
      && r.phase == Finished
      && Dispatched(r.effects) == [SetHotelsForCountry(countryId, if o.HotelsOk? then o.hotels else map[])]
      && r.state.hotelsByCountryId[countryId] == (if o.HotelsOk? then o.hotels else map[])
    ensures o.HotelsFailed? ==>
      EnsureHotelsLoaded(Resume(LoadingHotels(countryId), s, HotelsSettled(o)).state, countryId).effects == [HotelsCall(countryId)]
  {
  }

  /** The start request's answer, while the search is current: a failure is
      reported with its message and ends the thunk; a token is installed and
      the loop sleeps until the backend's `waitUntil` with the full budget. */
  lemma StartAnswerHandled(s: State, countryId: string, o: StartOutcome, now: int)
    requires IsSearchStillCurrent(s, countryId, None)
    ensures var r := Resume(Starting(countryId), s, StartSettled(o, now));
      && (o.StartFailed? ==> r.phase == Finished && Dispatched(r.effects) == [SearchError(o.message)]
                              && r.state.status == Error && r.state.error == Some(o.message))
      && (o.StartOk? ==> r.phase == Waiting(countryId, o.token, o.waitUntil, MaxRetries)
                           && r.effects == [Dispatch(SearchPolling(o.token, o.waitUntil)), Sleep(Delay(o.waitUntil, now))]
                           && r.state.activeToken == Some(o.token) && r.state.status == Polling)
  {
  }

  /** One poll answer, while the token is current:
      - offers end the loop with `searchSuccess`, an empty table with `searchEmpty`;
      - a 425 with a `waitUntil` sleeps until then with the budget unchanged;
      - any other failure sleeps `RetryDelayMs` and spends one retry, or,
        with none left, reports its message and ends the loop. */
  lemma PollAnswerHandled(s: State, c: string, t: string, w: int, n: nat, o: PollOutcome, now: int)
    requires s.activeToken == Some(t)
    ensures var r := Resume(Fetching(c, t, w, n), s, PollSettled(o, now));
      && (o.PollOk? && |o.prices| > 0 ==>
            Dispatched(r.effects) == [SearchSuccess(c, o.prices)] && r.state.status == Success
            && r.state.cache[c] == o.prices && (r.phase.Finished? || r.phase == LoadingHotels(c)))
      && (o.PollOk? && |o.prices| == 0 ==>
            Dispatched(r.effects) == [SearchEmpty(c)] && r.state.status == Empty
            && r.state.cache[c] == [] && (r.phase.Finished? || r.phase == LoadingHotels(c)))
      && (IsRateLimited(o) ==>
            r == Step(Waiting(c, t, o.waitUntil.value, n), s, [Sleep(Delay(o.waitUntil.value, now))]))
      && (IsTransient(o) && n > 0 ==>
            r == Step(BackingOff(c, t, w, n - 1), s, [Sleep(RetryDelayMs)]))
      && (IsTransient(o) && n == 0 ==>
            r.phase == Finished && Dispatched(r.effects) == [SearchError(o.message)]
            && r.state.status == Error && r.state.error == Some(o.message))
      && (o.PollThrew? ==> r == Step(Finished, s, []))
  {
  }

  /** Once the thunk has returned, nothing resumes it. */
  lemma {:induction false} FinishedStaysFinished(s: State, inputs: seq<Input>)
    ensures Run(Finished, s, inputs) == Step(Finished, s, [])
    decreases |inputs|
  {
    if |inputs| > 0 {
      FinishedStaysFinished(s, inputs[1..]);
    }
  }

  /** A start request that rejects with something other than an error
      response ends the thunk with the search announced and nothing more:
      the store keeps status `Loading` for good, whatever follows. A truthy
      previous token is stopped and cleared first. */
  lemma ThrownStartStrandsSearch(s: State, countryId: string, now: int, inputs: seq<Input>)
    requires !CacheHit(s.cache, countryId)
    ensures var stop := if Truthy(s.activeToken) then [StopSettled] else [];
            var r := StartSearch(s, countryId, stop + ([StartSettled(StartThrew, now)] + inputs));
      && r.phase == Finished
      && Dispatched(r.effects) == (if Truthy(s.activeToken) then [ClearActiveToken] else []) + [SearchStarted(countryId)]
      && r.state.status == Loading && r.state.lastCountryId == Some(countryId) && r.state.activeToken == None
  {
    var thrown := StartSettled(StartThrew, now);
    var started := Dispatch(SearchStarted(countryId));
    if Truthy(s.activeToken) {
      ThrownStartAfterStop(s, countryId, now, inputs);
      assert Dispatched([started, StartCall(countryId)]) == [SearchStarted(countryId)];
      assert Dispatched([Dispatch(ClearActiveToken), started, StartCall(countryId)]) == [ClearActiveToken, SearchStarted(countryId)];
    } else {
      ThrownStartWithoutStop(s, countryId, now, inputs);
      assert [] + ([thrown] + inputs) == [thrown] + inputs;
      assert Dispatched([StartCall(countryId)]) == [];
    }
  }

  /** The start request rejecting: the thunk returns on the spot. */
  lemma ThrownStartStep(s: State, countryId: string, now: int)
    ensures Resume(Starting(countryId), s, StartSettled(StartThrew, now)) == Step(Finished, s, [])
  {
  }

  /** The stop settling before a cache miss: the token is cleared, the search
      announced and the job requested. */
  lemma StopThenMiss(s: State, countryId: string)
    requires !CacheHit(s.cache, countryId)
    ensures Resume(Stopping(countryId, s.cache), s, StopSettled)
      == Step(Starting(countryId), ApplySearchStarted(Reduce(s, ClearActiveToken), countryId),
              [Dispatch(ClearActiveToken), Dispatch(SearchStarted(countryId)), StartCall(countryId)])
  {
    CacheMissStartsJob(Reduce(s, ClearActiveToken), countryId, s.cache);
  }

  /** `ThrownStartStrandsSearch` with no previous token: the exact run. */
  lemma ThrownStartWithoutStop(s: State, countryId: string, now: int, inputs: seq<Input>)
    requires !Truthy(s.activeToken) && !CacheHit(s.cache, countryId)
    ensures StartSearch(s, countryId, [StartSettled(StartThrew, now)] + inputs)
      == Step(Finished, ApplySearchStarted(s, countryId), [Dispatch(SearchStarted(countryId)), StartCall(countryId)])
  {
    var b := Begin(s, countryId);
    CacheMissStartsJob(s, countryId, s.cache);
    StartSearchSplit(s, countryId, [StartSettled(StartThrew, now)] + inputs);
    ThrownStartStep(b.state, countryId, now);
    RunCons(b.phase, b.state, StartSettled(StartThrew, now), inputs);
    FinishedStaysFinished(b.state, inputs);
    assert b.effects + ([] + []) == b.effects;
  }

  /** `ThrownStartStrandsSearch` after stopping a previous token: the exact run. */
  lemma ThrownStartAfterStop(s: State, countryId: string, now: int, inputs: seq<Input>)
    requires Truthy(s.activeToken) && !CacheHit(s.cache, countryId)
    ensures StartSearch(s, countryId, [StopSettled] + ([StartSettled(StartThrew, now)] + inputs))
      == Step(Finished, ApplySearchStarted(Reduce(s, ClearActiveToken), countryId),
              [StopCall(s.activeToken.value), Dispatch(ClearActiveToken), Dispatch(SearchStarted(countryId)), StartCall(countryId)])
  {
    var thrown := StartSettled(StartThrew, now);
    var b := Begin(s, countryId);
    var announced := ApplySearchStarted(Reduce(s, ClearActiveToken), countryId);
    StartSearchSplit(s, countryId, [StopSettled] + ([thrown] + inputs));
    StopThenMiss(s, countryId);
    ThrownStartStep(announced, countryId, now);
    assert [StopSettled] + ([thrown] + inputs) == [StopSettled, thrown] + inputs;
    RunTwoThen(b.phase, b.state, StopSettled, thrown, inputs);
    FinishedStaysFinished(announced, inputs);
    assert [StopCall(s.activeToken.value)]
             + ([Dispatch(ClearActiveToken), Dispatch(SearchStarted(countryId)), StartCall(countryId)] + ([] + []))
        == [StopCall(s.activeToken.value), Dispatch(ClearActiveToken), Dispatch(SearchStarted(countryId)), StartCall(countryId)];
  }

  /** A poll request that rejects the same way ends the thunk with nothing
      dispatched: a valid store stays `Polling` with the token held. */
  lemma ThrownPollStrandsSearch(s: State, c: string, t: string, w: int, n: nat, now: int, inputs: seq<Input>)
    ensures var r := Run(Fetching(c, t, w, n), s, [PollSettled(PollThrew, now)] + inputs);
      && r == Step(Finished, s, [])
      && (Valid(s) && s.activeToken == Some(t) ==> r.state.status == Polling && r.state.activeToken == Some(t))
  {
    RunCons(Fetching(c, t, w, n), s, PollSettled(PollThrew, now), inputs);
    FinishedStaysFinished(s, inputs);
  }

  /** A search run alone keeps the store valid and never drops a cache entry. */
  lemma StartSearchKeepsValid(s: State, countryId: string, inputs: seq<Input>)
    requires Valid(s)
    ensures Valid(StartSearch(s, countryId, inputs).state)
    ensures s.cache.Keys <= StartSearch(s, countryId, inputs).state.cache.Keys
  {
    ApplyAllPreserves(s, Dispatched(StartSearch(s, countryId, inputs).effects));
  }
}
