# Tour search orchestration: a Dafny model

This project models the client-side search engine of a tour-booking front end. A
search for a country's tour offers goes through these steps:

- the previous backend job is stopped;
- the result cache is consulted;
- a backend job is started;
- the job is polled until it answers. The poll loop has a retry budget of two, a
  one-second back-off, and server-dictated waits on `425 Too Early`;
- the result and the country's hotel table are stored.

A search may be overtaken by a newer one at any `await`. Three continuations
check `isSearchStillCurrent` before they go on: the one after the start request
(line 161 of the slice), the one after the loop's sleep (line 176) and the one
after each poll (line 179). The continuation after the stop request (line 147,
dispatching at lines 149, 154 and 159) and the one after the hotel fetch
(line 125, dispatching at 126 or 128) run unchecked, and the model keeps them
so.

The model covers the Redux slice `src/store/slices/tourSearchSlice.ts`: its
state, its seven reducers, `ensureHotelsLoaded`, `isSearchStillCurrent` and the
`startSearch` thunk. It also covers `selectToursWithHotels` in
`src/store/slices/tourSearchSelectors.ts` and `deriveCountryId` in
`src/utils/direction.ts`.

How the asynchronous thunk is modelled without concurrency:

- `SearchDriver.Phase` names the `await` the thunk is suspended at.
- `SearchDriver.Resume` runs the thunk from one `await` to the next. It reads
  the store as it is at that moment and returns three things: the next phase,
  the store after the thunk's own dispatches, and the effects in order.
  Effects are dispatches, backend calls and sleeps.
- Backend answers and timer expiries are inputs. Inputs that need a clock
  carry the current time.
- `SearchDriver.Run` is a search with nothing else going on.
  `Supersession.Interleave` mixes the older run's resumptions with arbitrary
  foreign dispatches, such as those of a newer search.
- `PollPolicy.Policy` restates the retry rules on a plain list of poll answers.
  `PollLoop.LoopFollowsPolicy` proves that the driver follows it.

Files: `wrappers.dfy` (Option, JavaScript truthiness), `api_types.dfy`,
`backend.dfy` (API outcomes), `direction.dfy`, `search_state.dfy`,
`search_driver.dfy`, `poll_policy.dfy`, `poll_loop.dfy`, `supersession.dfy`,
`selectors.dfy`, `scenarios.dfy`.

Behaviour worth noting:

- A cached empty price table is not a cache hit. The next search for that
  country starts a new job (`Scenarios.EmptyResultIsSearchedAgain`).
- A stored empty hotel table does not count as loaded. A failed hotel fetch
  stores `{}`, so the next load fetches again (`SearchDriver.HotelsLoadStores`).
- The previous token's stop request is awaited before `clearActiveToken` is
  dispatched (`SearchDriver.StopPrecedesClear`).
- The cache lookup uses the table read before that await.
- A run parked at that await is not silenced by a newer search. When the stop
  settles it dispatches `clearActiveToken` and then either its cached result or
  `searchStarted`, over whatever search the store was showing
  (`Supersession.StoppingRunOverridesNewer`, `Supersession.StoppingRunShowsItsCache`).
- Before a token exists the currency check compares countries only. An older
  run for the same country is not stopped by a newer search, and its
  successful start installs its token and sets `polling`, even over a cached
  success the newer search had just shown
  (`Supersession.SameCountryStartStaysCurrent`).
- A `425` answer without a `waitUntil` counts as an ordinary failure.
- An error thrown by a start or poll request that is not an HTTP response is
  rethrown and ends the thunk with no further dispatch. The store is left
  `loading` (after `clearActiveToken` and `searchStarted`, or `searchStarted`
  alone), or `polling` with the token still held
  (`SearchDriver.ThrownStartStrandsSearch`, `SearchDriver.ThrownPollStrandsSearch`).
- JavaScript truthiness is kept: an empty-string token is never stopped, an
  empty `waitUntil` counts as absent, an empty `lastCountryId` selects nothing,
  and an empty `hotelID` has no hotel.

## Model

| member | source | states |
|---|---|---|
| Direction.DeriveCountryId | src/utils/direction.ts:3-9 | none gives none; a country gives its id; a hotel gives its countryId; a city gives its optional countryId; the result is absent exactly for no selection or a city without countryId |
| SearchState.ApplySearchStarted | src/store/slices/tourSearchSlice.ts:45-50 | status loading, error and token cleared, lastCountryId set; prices, cache and hotel tables unchanged |
| SearchState.ApplySearchPolling | src/store/slices/tourSearchSlice.ts:51-57 | status polling and the token becomes the active one; nothing else changes |
| SearchState.ApplySearchSuccess | src/store/slices/tourSearchSlice.ts:58-66 | prices shown and cached under the country, which becomes lastCountryId; error and token cleared; no other cache entry changes |
| SearchState.ApplySearchEmpty | src/store/slices/tourSearchSlice.ts:67-75 | empty prices shown and cached under the country; status empty; no other cache entry changes |
| SearchState.ApplySearchError | src/store/slices/tourSearchSlice.ts:76-80 | only status, error and token change; prices, cache and lastCountryId are kept |
| SearchState.ApplySetHotelsForCountry | src/store/slices/tourSearchSlice.ts:81-86 | the country's hotel table is replaced; nothing else changes |
| SearchState.ApplyClearActiveToken | src/store/slices/tourSearchSlice.ts:87-89 | only the token is cleared |
| SearchState.InitialStateValid | src/store/slices/tourSearchSlice.ts:31-39 | the initial store is idle with no error, shows no prices, holds no country or token, has empty cache and hotel tables, and is valid |
| SearchState.ReducePreserves | src/store/slices/tourSearchSlice.ts:44-90 | every action keeps the store valid: a token only while polling, an error status always has a message, and success or empty shows exactly the cached table of lastCountryId; cache and hotel keys are never lost; only the named country's cache entry can change |
| SearchState.ApplyAllPreserves | src/store/slices/tourSearchSlice.ts:44-90 | the same validity and key growth over any trace of dispatched actions |
| SearchState.Reduce | src/store/slices/tourSearchSlice.ts:44-90 | only `searchPolling` installs a token, and any other change of the token clears it; `lastCountryId` moves only to the country an action selects |
| SearchState.IsSearchStillCurrent | src/store/slices/tourSearchSlice.ts:132-140 | the currency check: with a token, that token is the active one; before a token, the country is still `lastCountryId` |
| SearchState.CurrentMeans | src/store/slices/tourSearchSlice.ts:132-140 | in a valid store, a continuation that passes the check with a token finds the search polling under that token; one before a token, over a shown result, finds its country's cached table on display |
| SearchState.StalenessPersists | src/store/slices/tourSearchSlice.ts:132-140 | a continuation that fails the currency check stays stale under every action except a searchPolling for its own token, or (before a token) one that re-selects its country |
| SearchState.StalenessPersistsAll | src/store/slices/tourSearchSlice.ts:132-140 | the same over any sequence of non-reviving actions |
| SearchDriver.Delay | src/store/slices/tourSearchSlice.ts:175 | the sleep is how far waitUntil lies ahead, never negative |
| SearchDriver.HotelsKnown | src/store/slices/tourSearchSlice.ts:123 | a hotel table counts as loaded only when present and non-empty |
| SearchDriver.CacheHit | src/store/slices/tourSearchSlice.ts:153 | a cache entry short-circuits a search only when present and non-empty |
| SearchDriver.EnsureHotelsLoaded | src/store/slices/tourSearchSlice.ts:117-123 | no fetch exactly when a non-empty hotel table is stored; otherwise one hotel request |
| SearchDriver.HotelsLoadStores | src/store/slices/tourSearchSlice.ts:124-130 | the fetched table is stored, or `{}` on failure; after a failure the next load fetches again |
| SearchDriver.AfterStop | src/store/slices/tourSearchSlice.ts:152-161 | after the stop, the store changes only through the dispatched actions |
| SearchDriver.Begin | src/store/slices/tourSearchSlice.ts:142-150 | the thunk's synchronous start changes the store only through its dispatches |
| SearchDriver.Resume | src/store/slices/tourSearchSlice.ts:142-208 | every continuation changes the store exactly by its own dispatches, in order |
| SearchDriver.RunAppliesItsDispatches | src/store/slices/tourSearchSlice.ts:142-208 | an uninterrupted run changes the store exactly by the actions it dispatches |
| SearchDriver.StartSearch | src/store/slices/tourSearchSlice.ts:142-208 | the whole thunk run alone changes the store exactly by its dispatches |
| SearchDriver.StopPrecedesClear | src/store/slices/tourSearchSlice.ts:144-150 | a truthy previous token is stopped first and nothing is dispatched until that settles; clearActiveToken is the first dispatch afterwards; an absent or empty token is never stopped |
| SearchDriver.CacheMissStartsJob | src/store/slices/tourSearchSlice.ts:152-161 | an absent or empty cache entry leads to searchStarted and one start request, status loading |
| SearchDriver.CacheHitShowsCached | src/store/slices/tourSearchSlice.ts:152-157 | a non-empty cache entry is dispatched at once as searchSuccess and shown; then the thunk ends or waits only for hotels |
| SearchDriver.CacheHitNeverSearches | src/store/slices/tourSearchSlice.ts:152-157 | with a cache hit, no start or poll request is ever issued, whatever the inputs |
| SearchDriver.StartAnswerHandled | src/store/slices/tourSearchSlice.ts:161-172 | a failed start is reported with its message; a started job installs its token, sets status polling and sleeps until waitUntil with the full budget |
| SearchDriver.PollAnswerHandled | src/store/slices/tourSearchSlice.ts:179-205 | offers give success and are cached; no offers give empty; a 425 with waitUntil sleeps until then with the budget unchanged; other failures back off 1000 ms and spend one retry, or report their message when none is left; a thrown request ends the thunk with nothing dispatched |
| SearchDriver.ThrownStartStrandsSearch | src/store/slices/tourSearchSlice.ts:144-162 | on a cache miss, a start request that throws ends the search after `clearActiveToken` (when a truthy previous token was stopped) and `searchStarted`, and nothing else: the store stays `loading` for that country with no token, whatever follows |
| SearchDriver.ThrownPollStrandsSearch | src/store/slices/tourSearchSlice.ts:179-180 | a poll request that throws ends the search with nothing dispatched: the store stays `polling` with the token held, whatever follows |
| SearchDriver.StartSearchKeepsValid | src/store/slices/tourSearchSlice.ts:142-208 | a search run alone keeps the store valid and keeps every cache key |
| PollPolicy.IsRateLimited | src/store/slices/tourSearchSlice.ts:193 | a failure counts as rate-limited only when its code is 425 and it carries a (non-empty) `waitUntil` |
| PollPolicy.IsTransient | src/store/slices/tourSearchSlice.ts:198-205 | every other failure, a 425 without `waitUntil` included, draws on the retry budget |
| PollPolicy.Policy | src/store/slices/tourSearchSlice.ts:174-205 | the retry rules on a list of answers: while polling, no answer has come and exactly the ordinary failures were spent; giving up needs more ordinary failures than the budget; a found result has offers |
| PollPolicy.PolicyStep | src/store/slices/tourSearchSlice.ts:174-205 | the verdict over a list is the first answer's verdict, or, if that keeps polling, the verdict over the rest with the budget it leaves |
| PollPolicy.FailuresSpendBudget | src/store/slices/tourSearchSlice.ts:193-202 | a run of failures within budget costs exactly its non-rate-limited failures |
| PollPolicy.RateLimitsAreFree | src/store/slices/tourSearchSlice.ts:193-196 | any number of 425 answers with waitUntil leave the budget and the outcome unchanged |
| PollPolicy.GivesUpOnFailureBeyondBudget | src/store/slices/tourSearchSlice.ts:198-205 | the ordinary failure that finds the budget spent ends the loop with its own message |
| PollPolicy.AnswerWithinBudgetEnds | src/store/slices/tourSearchSlice.ts:182-191 | an answer within budget ends the loop: found if it has offers, none-found otherwise |
| PollPolicy.ThirdFailureGivesUp | src/store/slices/tourSearchSlice.ts:172-205 | from the initial budget two ordinary failures are retried and the third gives up with its message |
| PollPolicy.RateLimitedThenThirdFailure | src/store/slices/tourSearchSlice.ts:193-205 | any number of rate-limited answers before three ordinary failures leave the third one giving up with its message |
| PollLoop.OneRound | src/store/slices/tourSearchSlice.ts:174-202 | one loop round, at any clock readings, dispatches the policy's verdict for that answer and, if the loop goes on, leaves the store alone and keeps the policy's budget |
| PollLoop.RateLimitedRound | src/store/slices/tourSearchSlice.ts:174-196 | a 425 with waitUntil: one poll, then a sleep until waitUntil measured from when the answer arrived; budget and store unchanged, nothing dispatched |
| PollLoop.BackedOffRound | src/store/slices/tourSearchSlice.ts:174-202 | another failure with budget left: one poll, a 1000 ms back-off, then a sleep until the loop's waitUntil measured from when the back-off ended; one retry spent, store unchanged, nothing dispatched |
| PollLoop.LoopFollowsPolicy | src/store/slices/tourSearchSlice.ts:171-206 | the driver's loop over any sequence of poll answers, each round at its own clock readings, dispatches exactly the policy's verdict and holds the policy's remaining budget while still polling |
| PollLoop.RateLimitedRoundsSpendNothing | src/store/slices/tourSearchSlice.ts:193-205 | after any number of rate-limited rounds, at any clock readings, the third ordinary failure still ends the search with its message |
| Supersession.SupersededResumeIsSilent | src/store/slices/tourSearchSlice.ts:161-200 | a stale continuation resumed at an await followed by a currency check (lines 161, 176, 179) or at the back-off (line 200) does nothing but, at most, sleep |
| Supersession.SupersededRunStaysSilent | src/store/slices/tourSearchSlice.ts:161-206 | a stale run that nothing revives never dispatches or calls the backend again, under any interleaving; the store ends as the foreign actions leave it |
| Supersession.NewerSearchTakesOver | src/store/slices/tourSearchSlice.ts:144-159 | once a newer search passes its stop, the store holds no token and names the new country, whether or not the cache hit |
| Supersession.TakeoverSupersedes | src/store/slices/tourSearchSlice.ts:132-140 | after the takeover, an older run in its poll loop is stale; one still waiting on its start request is stale exactly when the countries differ |
| Supersession.OlderRunDispatchesNothing | src/store/slices/tourSearchSlice.ts:174-206 | an older run in its poll loop dispatches nothing after a newer search takes over, provided its token is never reissued |
| Supersession.OlderStartDispatchesNothing | src/store/slices/tourSearchSlice.ts:161-166 | an older run waiting on its start request dispatches nothing after a newer search for another country takes over |
| Supersession.StoppingRunOverridesNewer | src/store/slices/tourSearchSlice.ts:144-161 | an older run still waiting on its stop request, resumed after a newer search has started, clears the token and announces its own country, leaving the newer run stale at its start request |
| Supersession.StoppingRunShowsItsCache | src/store/slices/tourSearchSlice.ts:144-157 | the same older run with a cached result clears the token and shows its own cached table over the newer search |
| Supersession.SameCountryStartStaysCurrent | src/store/slices/tourSearchSlice.ts:144-169 | a newer search for the same country, cache hit or miss, does not stop an older run waiting on its start request; that run then installs its own token and sets status polling, replacing the cached success the newer search showed on a hit |
| Selectors.HotelFor | src/store/slices/tourSearchSelectors.ts:19 | no hotel without a (non-empty) hotelID; otherwise the table's hotel for that id when present, none when absent |
| Selectors.SortByAmount | src/store/slices/tourSearchSelectors.ts:21 | the result is sorted by ascending amount and is a permutation of the input |
| Selectors.SortIsStable | src/store/slices/tourSearchSelectors.ts:21 | entries of equal amount keep their relative order |
| Selectors.SelectToursWithHotels | src/store/slices/tourSearchSelectors.ts:10-23 | empty unless status is success with a non-empty lastCountryId; otherwise each offer of prices exactly once, each with its hotel from the last country's table, sorted by amount, ties in enumeration order |
| Scenarios.RateLimitedThenFound | src/store/slices/tourSearchSlice.ts:142-208 | start under any token, one 425 with waitUntil, then one offer: the exact effect sequence; status success; offer cached; one hotel request |
| Scenarios.TwoFailuresThenEmpty | src/store/slices/tourSearchSlice.ts:142-208 | a 425 without waitUntil and a 503 each cost a 1000 ms back-off, then an empty answer: status empty, no error, empty table cached, `{}` stored for hotels |
| Scenarios.EmptyResultIsSearchedAgain | src/store/slices/tourSearchSlice.ts:152-159 | an empty result is cached, yet the next search for that country starts a new job |
| Scenarios.SuccessIsServedFromCache | src/store/slices/tourSearchSlice.ts:152-157 | after a success, the next search for that country is served from the cache with no job |

## Left out

- `src/services/tourApi.ts`: fetch and JSON handling and the mapping of thrown
  responses to result records. Each API operation is an abstract outcome
  (`Backend`); an error that is not a response, which the API rethrows, is the
  outcome `StartThrew` or `PollThrew`. The search form's disabled submit button
  while a search looks pending is UI and is not modelled. The slice imports
  `stopSearchPrices` from that file, but the file as it stands does not
  define it; the model assumes an asynchronous stop request whose answer and
  errors the slice ignores, so its settling is a bare input.
- Clocks and timers: `Date.now()`, `setTimeout` and `new Date(waitUntil)` are
  replaced by integer millisecond timestamps carried by the inputs. An
  unparsable `waitUntil`, which gives a `NaN` delay in JavaScript, is not
  modelled.
- SearchDriver.Delay: sleeps the whole delay, however long. Hosts that follow
  the HTML timer rules fire a `setTimeout` longer than 2^31-1 ms at once, so a
  `waitUntil` more than about 24.8 days ahead is polled early there.
- Real concurrency: interleavings are explicit event sequences. The
  `ensureHotelsLoaded` that follows a passed currency check is not re-checked in
  the code, and the model keeps it that way.
- Redux plumbing: `createSlice`, `createSelector` memoisation and store wiring
  (`src/store/index.ts`).
- UI components (`DirectionCombobox`, `SearchForm`, `SearchResults`,
  `TourCard`, `App`): rendering, debounce timers and locale formatting.
- The order of `Object.values`. A prices object is modelled as a list in its
  enumeration order. JavaScript's rule that integer-like keys come first is not
  re-derived.
- The `waitUntil` string carried by `searchPolling` is an integer here. The
  reducer never reads it.
- `City` has no `countryId` in `src/types/api.ts`, but `deriveCountryId` reads
  one. It is modelled as an optional field.
- `PriceOffer`, `PricesMap` and `HotelsMap` are not declared in the files shown.
  They are defined minimally: id, integer amount, currency, dates and an
  optional string `hotelID`.
- PollLoop.LoopFollowsPolicy: states the dispatched actions and the remaining
  budget over many rounds, not the sleep durations. `PollLoop.RateLimitedRound`,
  `PollLoop.BackedOffRound`, `SearchDriver.PollAnswerHandled` and the two
  scenarios state those round by round.
- Supersession.OlderRunDispatchesNothing: assumes backend tokens are never
  reused. A reissued token would make the older run current again, and
  `SearchState.StalenessPersists` names exactly that exception.
- Supersession.SupersededRunStaysSilent: covers runs past the stop request
  and before the hotel fetch only. A run still parked at its stop request is
  not silenced by a newer search; `Supersession.StoppingRunOverridesNewer`
  shows it taking the store back. A run parked at its hotel fetch is not
  covered either (`Superseded` is false there): it stores its country's hotel
  table whenever the fetch settles, since that continuation is unchecked.
