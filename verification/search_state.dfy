/** The tour-search slice: its state, the actions its reducers accept, the
    reducers themselves and the staleness predicate every continuation of a
    search consults (src/store/slices/tourSearchSlice.ts). */
module SearchState {
  import opened Wrappers
  import opened ApiTypes

  /** The search status. `Loading` is the state between `searchStarted` and
      the backend's answer to the start request. */
  datatype Status = Idle | Loading | Polling | Success | Empty | Error

  datatype State = State(
    status: Status,
    prices: PricesMap,
    error: Option<string>,
    lastCountryId: Option<string>,
    activeToken: Option<string>,
    cache: map<string, PricesMap>,
    hotelsByCountryId: map<string, HotelsMap>
  )

  const InitialState: State := State(Idle, [], None, None, None, map[], map[])

  /** The slice's actions. `waitUntil` of `searchPolling` is carried but never
      read by the reducer. */
  datatype Action =
    | SearchStarted(countryId: string)
    | SearchPolling(token: string, waitUntil: int)
    | SearchSuccess(countryId: string, prices: PricesMap)
    | SearchEmpty(countryId: string)
    | SearchError(message: string)
    | SetHotelsForCountry(countryId: string, hotels: HotelsMap)
    | ClearActiveToken

  /** A new search for `countryId` is under way: status `Loading`, no error,
      no token; the displayed prices and both tables are untouched. */
  function ApplySearchStarted(s: State, countryId: string): (r: State)
    ensures r.status == Loading && r.error == None && r.activeToken == None
    ensures r.lastCountryId == Some(countryId)
    ensures r.prices == s.prices && r.cache == s.cache && r.hotelsByCountryId == s.hotelsByCountryId
  {
    s.(status := Loading, error := None, lastCountryId := Some(countryId), activeToken := None)
  }

  /** The backend issued `token`: it becomes the active one. */
  function ApplySearchPolling(s: State, token: string): (r: State)
    ensures r.status == Polling && r.activeToken == Some(token)
    ensures r.prices == s.prices && r.error == s.error && r.lastCountryId == s.lastCountryId
    ensures r.cache == s.cache && r.hotelsByCountryId == s.hotelsByCountryId
  {
    s.(status := Polling, activeToken := Some(token))
  }

  /** Results arrived: they are displayed and cached under `countryId`; no
      other cache entry changes. */
  function ApplySearchSuccess(s: State, countryId: string, prices: PricesMap): (r: State)
    ensures r.status == Success && r.prices == prices && r.error == None && r.activeToken == None
    ensures r.lastCountryId == Some(countryId)
    ensures r.cache.Keys == s.cache.Keys + {countryId} && r.cache[countryId] == prices
    ensures forall k :: k in s.cache && k != countryId ==> r.cache[k] == s.cache[k]
    ensures r.hotelsByCountryId == s.hotelsByCountryId
  {
    s.(status := Success, prices := prices, error := None, activeToken := None,
       lastCountryId := Some(countryId), cache := s.cache[countryId := prices])
  }

  /** No results: the empty table is displayed and cached under `countryId`. */
  function ApplySearchEmpty(s: State, countryId: string): (r: State)
    ensures r.status == Empty && r.prices == [] && r.error == None && r.activeToken == None
    ensures r.lastCountryId == Some(countryId)
    ensures r.cache.Keys == s.cache.Keys + {countryId} && r.cache[countryId] == []
    ensures forall k :: k in s.cache && k != countryId ==> r.cache[k] == s.cache[k]
    ensures r.hotelsByCountryId == s.hotelsByCountryId
  {
    s.(status := Empty, prices := [], error := None, activeToken := None,
       lastCountryId := Some(countryId), cache := s.cache[countryId := []])
  }

  /** The search failed: only the status, the error and the token change; the
      last results, the cache and the requested country stay. */
  function ApplySearchError(s: State, message: string): (r: State)
    ensures r.status == Error && r.error == Some(message) && r.activeToken == None
    ensures r.prices == s.prices && r.lastCountryId == s.lastCountryId
    ensures r.cache == s.cache && r.hotelsByCountryId == s.hotelsByCountryId
  {
    s.(status := Error, error := Some(message), activeToken := None)
  }

  /** Stores a country's hotel table, overwriting any earlier one. */
  function ApplySetHotelsForCountry(s: State, countryId: string, hotels: HotelsMap): (r: State)
    ensures r.hotelsByCountryId.Keys == s.hotelsByCountryId.Keys + {countryId}
    ensures r.hotelsByCountryId[countryId] == hotels
    ensures forall k :: k in s.hotelsByCountryId && k != countryId ==> r.hotelsByCountryId[k] == s.hotelsByCountryId[k]
    ensures r.(hotelsByCountryId := s.hotelsByCountryId) == s
  {
    s.(hotelsByCountryId := s.hotelsByCountryId[countryId := hotels])
  }

  /** Forgets the active token and nothing else. */
  function ApplyClearActiveToken(s: State): (r: State)
    ensures r.activeToken == None
    ensures r.(activeToken := s.activeToken) == s
  {
    s.(activeToken := None)
  }

  /** The slice reducer. Only `searchPolling` installs a token, and only the
      actions that select a country move `lastCountryId`. */
  function Reduce(s: State, a: Action): (r: State)
    ensures r.activeToken != s.activeToken ==>
      r.activeToken == None || (a.SearchPolling? && r.activeToken == Some(a.token))
    ensures r.lastCountryId != s.lastCountryId ==>
      r.lastCountryId.Some? && SelectsCountry(a, r.lastCountryId.value)
  {
    match a
    case SearchStarted(c) => ApplySearchStarted(s, c)
    case SearchPolling(t, _) => ApplySearchPolling(s, t)
    case SearchSuccess(c, p) => ApplySearchSuccess(s, c, p)
    case SearchEmpty(c) => ApplySearchEmpty(s, c)
    case SearchError(m) => ApplySearchError(s, m)
    case SetHotelsForCountry(c, h) => ApplySetHotelsForCountry(s, c, h)
    case ClearActiveToken => ApplyClearActiveToken(s)
  }

  /** The store after dispatching `actions` in order. */
  function ApplyAll(s: State, actions: seq<Action>): State
    decreases |actions|
  {
    if |actions| == 0 then s else ApplyAll(Reduce(s, actions[0]), actions[1..])
  }

  lemma {:induction false} ApplyAllAppend(s: State, xs: seq<Action>, ys: seq<Action>)
    ensures ApplyAll(s, xs + ys) == ApplyAll(ApplyAll(s, xs), ys)
    decreases |xs|
  {
    if |xs| == 0 {
      assert xs + ys == ys;
    } else {
      assert (xs + ys)[1..] == xs[1..] + ys;
      ApplyAllAppend(Reduce(s, xs[0]), xs[1..], ys);
    }
  }

  /** Whether a continuation of the search for `countryId` may still change
      the state: one bound to a backend token is current while that token is
      the active one; one that runs before a token exists is current while
      `countryId` is still the last requested country. */
  predicate IsSearchStillCurrent(s: State, countryId: string, token: Option<string>)
  {
    if token.Some? then s.activeToken == token else s.lastCountryId == Some(countryId)
  }

  /** The actions that set the active token to `token`. */
  predicate InstallsToken(a: Action, token: string) {
    a.SearchPolling? && a.token == token
  }

  /** The actions that set the last requested country to `countryId`. */
  predicate SelectsCountry(a: Action, countryId: string) {
    (a.SearchStarted? || a.SearchSuccess? || a.SearchEmpty?) && a.countryId == countryId
  }

  /** Staleness is permanent unless revived: a token-bound continuation that is
      not current stays so under every action but a `searchPolling` for its
      own token, and a pre-token one under every action but those selecting
      its own country. */
  lemma StalenessPersists(s: State, a: Action, countryId: string, token: Option<string>)
    requires !IsSearchStillCurrent(s, countryId, token)
    requires token.Some? ==> !InstallsToken(a, token.value)
    requires token.None? ==> !SelectsCountry(a, countryId)
    ensures !IsSearchStillCurrent(Reduce(s, a), countryId, token)
  {
  }

  /** The same, over any sequence of actions none of which revives the continuation. */
  lemma {:induction false} StalenessPersistsAll(s: State, actions: seq<Action>, countryId: string, token: Option<string>)
    requires !IsSearchStillCurrent(s, countryId, token)
    requires token.Some? ==> forall i :: 0 <= i < |actions| ==> !InstallsToken(actions[i], token.value)
    requires token.None? ==> forall i :: 0 <= i < |actions| ==> !SelectsCountry(actions[i], countryId)
    ensures !IsSearchStillCurrent(ApplyAll(s, actions), countryId, token)
    decreases |actions|
  {
    if |actions| > 0 {
      StalenessPersists(s, actions[0], countryId, token);
      StalenessPersistsAll(Reduce(s, actions[0]), actions[1..], countryId, token);
    }
  }

  /** The consistency the reducers keep:
      - a token is held only while polling;
      - an error status always carries a message;
      - a success or empty status displays exactly what is cached for the
        last requested country. */
  predicate Valid(s: State) {
    && (s.activeToken.Some? ==> s.status == Polling)
    && (s.status == Error ==> s.error.Some?)
    && ((s.status == Success || s.status == Empty) ==>
          s.lastCountryId.Some? && s.lastCountryId.value in s.cache && s.cache[s.lastCountryId.value] == s.prices)
  }

  /** What passing the currency check tells a continuation about a valid
      store: one holding a token finds the search polling under that token;
      one before a token, over a shown result, finds its own country's cached
      table on display. */
  lemma CurrentMeans(s: State, countryId: string, token: Option<string>)
    requires Valid(s) && IsSearchStillCurrent(s, countryId, token)
    ensures token.Some? ==> s.status == Polling && s.activeToken == token
    ensures token.None? && (s.status == Success || s.status == Empty) ==>
      countryId in s.cache && s.cache[countryId] == s.prices
  {
  }

  /** The store before any search: idle, showing and holding nothing, and
      valid. */
  lemma InitialStateValid()
    ensures InitialState.status == Idle && InitialState.error == None
    ensures |InitialState.prices| == 0
    ensures InitialState.lastCountryId == None && InitialState.activeToken == None
    ensures |InitialState.cache| == 0 && |InitialState.hotelsByCountryId| == 0
    ensures Valid(InitialState)
  {
  }

  /** Every action keeps the store valid, never drops a cache or hotel entry,
      and rewrites at most the entry of the country it names. */
  lemma ReducePreserves(s: State, a: Action)
    requires Valid(s)
    ensures Valid(Reduce(s, a))
    ensures s.cache.Keys <= Reduce(s, a).cache.Keys
    ensures s.hotelsByCountryId.Keys <= Reduce(s, a).hotelsByCountryId.Keys
    ensures forall k :: k in s.cache && !SelectsCountry(a, k) ==> Reduce(s, a).cache[k] == s.cache[k]
  {
  }

  /** Validity and table growth over a whole trace of dispatched actions. */
  lemma {:induction false} ApplyAllPreserves(s: State, actions: seq<Action>)
    requires Valid(s)
    ensures Valid(ApplyAll(s, actions))
    ensures s.cache.Keys <= ApplyAll(s, actions).cache.Keys
    ensures s.hotelsByCountryId.Keys <= ApplyAll(s, actions).hotelsByCountryId.Keys
    decreases |actions|
  {
    if |actions| > 0 {
      ReducePreserves(s, actions[0]);
      ApplyAllPreserves(Reduce(s, actions[0]), actions[1..]);
    }
  }
}
