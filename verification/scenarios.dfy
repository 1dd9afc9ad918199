/** Whole searches, run alone from a given store: one slowed by a 425 that
    then finds an offer, one whose two retried failures end in an empty
    result, and what the cache makes of an empty and of a non-empty result. */
module Scenarios {
  import opened Wrappers
  import opened ApiTypes
  import opened Backend
  import opened SearchState
  import opened PollPolicy
  import opened SearchDriver

  const Offer500: PriceOffer := PriceOffer("1", 500, "USD", "2026-07-01", "2026-07-08", None)

  const OneOffer: PricesMap := [("1", Offer500)]
  const NotReady: Input := PollSettled(PollFailed(TooEarly, "not ready", Some(50)), 0)

  /** The store once "UA" is polling under token `t`. */
  function PollingUA(t: string): State {
    ApplySearchPolling(ApplySearchStarted(InitialState, "UA"), t)
  }

  /** The store at the end of the "UA" run. */
  function FoundUA(t: string, hotels: HotelsMap): State {
    ApplySetHotelsForCountry(ApplySearchSuccess(PollingUA(t), "UA", OneOffer), "UA", hotels)
  }

  /** The offer is shown and cached, and the hotels are stored. */
  lemma FoundUAShows(t: string, hotels: HotelsMap)
    ensures FoundUA(t, hotels).status == Success && FoundUA(t, hotels).prices == OneOffer
    ensures "UA" in FoundUA(t, hotels).cache && FoundUA(t, hotels).cache["UA"] == OneOffer
    ensures "UA" in FoundUA(t, hotels).hotelsByCountryId && FoundUA(t, hotels).hotelsByCountryId["UA"] == hotels
  {
  }

  /** The single steps at the end of the run: the hotels, */
  lemma HotelsStep(t: string, hotels: HotelsMap)
    ensures Resume(LoadingHotels("UA"), ApplySearchSuccess(PollingUA(t), "UA", OneOffer), HotelsSettled(HotelsOk(hotels)))
      == Step(Finished, FoundUA(t, hotels), [Dispatch(SetHotelsForCountry("UA", hotels))])
  {
  }

  /** and before them the offers. */
  lemma FoundStep(t: string)
    ensures Resume(Fetching("UA", t, 50, 2), PollingUA(t), PollSettled(PollOk(OneOffer), 50))
      == Step(LoadingHotels("UA"), ApplySearchSuccess(PollingUA(t), "UA", OneOffer), [Dispatch(SearchSuccess("UA", OneOffer)), HotelsCall("UA")])
  {
  }

  /** The end of the run: offers arrive at the second poll, then the hotels. */
  lemma FoundThenHotels(t: string, hotels: HotelsMap)
    ensures Run(Fetching("UA", t, 50, 2), PollingUA(t), [PollSettled(PollOk(OneOffer), 50), HotelsSettled(HotelsOk(hotels))])
      == Step(Finished, FoundUA(t, hotels),
              [Dispatch(SearchSuccess("UA", OneOffer)), HotelsCall("UA"), Dispatch(SetHotelsForCountry("UA", hotels))])
  {
    var s2 := PollingUA(t);
    var s5 := ApplySearchSuccess(s2, "UA", OneOffer);
    var i5 := PollSettled(PollOk(OneOffer), 50);
    var i6 := HotelsSettled(HotelsOk(hotels));
    HotelsStep(t, hotels);
    FoundStep(t);
    RunCons(LoadingHotels("UA"), s5, i6, []);
    assert [i6] + [] == [i6];
    RunCons(Fetching("UA", t, 50, 2), s2, i5, [i6]);
    assert [i5] + [i6] == [i5, i6];
  }

  /** The loop's single steps: each poll goes out, and "not ready" sleeps until 50. */
  lemma LoopSteps(t: string)
    ensures Resume(Waiting("UA", t, 50, 2), PollingUA(t), Timer) == Step(Fetching("UA", t, 50, 2), PollingUA(t), [PollCall(t)])
    ensures Resume(Fetching("UA", t, 0, 2), PollingUA(t), NotReady) == Step(Waiting("UA", t, 50, 2), PollingUA(t), [Sleep(50)])
    ensures Resume(Waiting("UA", t, 0, 2), PollingUA(t), Timer) == Step(Fetching("UA", t, 0, 2), PollingUA(t), [PollCall(t)])
  {
  }

  /** The first round: the poll says "not ready until 50", costing nothing. */
  lemma NotReadyRound(t: string, rest: seq<Input>)
    ensures var r := Run(Waiting("UA", t, 50, 2), PollingUA(t), rest);
            Run(Waiting("UA", t, 0, 2), PollingUA(t), [Timer, NotReady] + rest)
              == Step(r.phase, r.state, [PollCall(t), Sleep(50)] + r.effects)
  {
    var s2 := PollingUA(t);
    var r := Run(Waiting("UA", t, 50, 2), s2, rest);
    LoopSteps(t);
    RunTwoThen(Waiting("UA", t, 0, 2), s2, Timer, NotReady, rest);
    assert [PollCall(t)] + ([Sleep(50)] + r.effects) == [PollCall(t), Sleep(50)] + r.effects;
  }

  /** The second round: the offers arrive, then the hotels. */
  lemma FoundRound(t: string, hotels: HotelsMap)
    ensures Run(Waiting("UA", t, 50, 2), PollingUA(t), [Timer, PollSettled(PollOk(OneOffer), 50), HotelsSettled(HotelsOk(hotels))])
      == Step(Finished, FoundUA(t, hotels),
              [PollCall(t), Dispatch(SearchSuccess("UA", OneOffer)), HotelsCall("UA"), Dispatch(SetHotelsForCountry("UA", hotels))])
  {
    var i5 := PollSettled(PollOk(OneOffer), 50);
    var i6 := HotelsSettled(HotelsOk(hotels));
    FoundThenHotels(t, hotels);
    LoopSteps(t);
    RunCons(Waiting("UA", t, 50, 2), PollingUA(t), Timer, [i5, i6]);
    assert [Timer] + [i5, i6] == [Timer, i5, i6];
  }

  /** The start of the run: the job is started and the first sleep set. */
  lemma StartOfRun(t: string)
    ensures Begin(InitialState, "UA")
      == Step(Starting("UA"), ApplySearchStarted(InitialState, "UA"), [Dispatch(SearchStarted("UA")), StartCall("UA")])
    ensures Resume(Starting("UA"), ApplySearchStarted(InitialState, "UA"), StartSettled(StartOk(t, 0), 0))
      == Step(Waiting("UA", t, 0, 2), PollingUA(t), [Dispatch(SearchPolling(t, 0)), Sleep(0)])
  {
  }

  /** The whole search up to the top of the poll loop, whatever follows. */
  lemma StartedUA(t: string, rest: seq<Input>)
    ensures var r := Run(Waiting("UA", t, 0, 2), PollingUA(t), rest);
            StartSearch(InitialState, "UA", [StartSettled(StartOk(t, 0), 0)] + rest)
              == Step(r.phase, r.state,
                      [Dispatch(SearchStarted("UA")), StartCall("UA")] + ([Dispatch(SearchPolling(t, 0)), Sleep(0)] + r.effects))
  {
    var i1 := StartSettled(StartOk(t, 0), 0);
    StartOfRun(t);
    StartSearchSplit(InitialState, "UA", [i1] + rest);
    RunCons(Starting("UA"), ApplySearchStarted(InitialState, "UA"), i1, rest);
  }

  /** A search for "UA" from the initial store: the job is started under
      token `t`, the first poll says "not ready until 50", the second returns
      one offer. The store goes loading, polling, success; the offer is
      displayed and cached; the hotels are asked for once and stored. */
  lemma RateLimitedThenFound(t: string, hotels: HotelsMap)
    ensures var r := StartSearch(InitialState, "UA", [StartSettled(StartOk(t, 0), 0)]
              + ([Timer, NotReady]
              + [Timer, PollSettled(PollOk(OneOffer), 50), HotelsSettled(HotelsOk(hotels))]));
      && r.effects == [Dispatch(SearchStarted("UA")), StartCall("UA")]
                      + ([Dispatch(SearchPolling(t, 0)), Sleep(0)]
                      + ([PollCall(t), Sleep(50)]
                      + [PollCall(t), Dispatch(SearchSuccess("UA", OneOffer)), HotelsCall("UA"),
                         Dispatch(SetHotelsForCountry("UA", hotels))]))
      && r.phase == Finished
      && r.state.status == Success && r.state.prices == OneOffer
      && "UA" in r.state.cache && r.state.cache["UA"] == OneOffer
      && "UA" in r.state.hotelsByCountryId && r.state.hotelsByCountryId["UA"] == hotels
  {
    var found := [Timer, PollSettled(PollOk(OneOffer), 50), HotelsSettled(HotelsOk(hotels))];
    FoundRound(t, hotels);
    NotReadyRound(t, found);
    StartedUA(t, [Timer, NotReady] + found);
    FoundUAShows(t, hotels);
  }

  const NoWait: PollOutcome := PollFailed(TooEarly, "too early", None)
  const Unavailable: PollOutcome := PollFailed(503, "unavailable", None)

  /** The store once "PL" is polling under token t. */
  function PollingPL(token: string): State {
    ApplySearchPolling(ApplySearchStarted(InitialState, "PL"), token)
  }

  function EmptyPL(token: string): State {
    ApplySetHotelsForCountry(ApplySearchEmpty(PollingPL(token), "PL"), "PL", map[])
  }

  /** The single steps at the end of the "PL" run: the hotel request fails, */
  lemma NoHotelsStep(t: string)
    ensures Resume(LoadingHotels("PL"), ApplySearchEmpty(PollingPL(t), "PL"), HotelsSettled(HotelsFailed))
      == Step(Finished, EmptyPL(t), [Dispatch(SetHotelsForCountry("PL", map[]))])
  {
  }

  /** the poll answers with no offers, */
  lemma EmptyAnswerStep(t: string)
    ensures Resume(Fetching("PL", t, 0, 0), PollingPL(t), PollSettled(PollOk([]), 2000))
      == Step(LoadingHotels("PL"), ApplySearchEmpty(PollingPL(t), "PL"), [Dispatch(SearchEmpty("PL")), HotelsCall("PL")])
  {
  }

  /** and before that the last poll goes out. */
  lemma LastPollStep(t: string)
    ensures Resume(Waiting("PL", t, 0, 0), PollingPL(t), Timer) == Step(Fetching("PL", t, 0, 0), PollingPL(t), [PollCall(t)])
  {
  }

  /** The end of the "PL" run: an empty answer, then a failed hotel request. */
  lemma EmptyThenNoHotels(t: string)
    ensures Run(Fetching("PL", t, 0, 0), PollingPL(t), [PollSettled(PollOk([]), 2000), HotelsSettled(HotelsFailed)])
      == Step(Finished, EmptyPL(t), [Dispatch(SearchEmpty("PL")), HotelsCall("PL"), Dispatch(SetHotelsForCountry("PL", map[]))])
  {
    var s2 := PollingPL(t);
    var s3 := ApplySearchEmpty(s2, "PL");
    var i3 := HotelsSettled(HotelsFailed);
    NoHotelsStep(t);
    EmptyAnswerStep(t);
    RunCons(LoadingHotels("PL"), s3, i3, []);
    assert [i3] + [] == [i3];
    var tail := Run(LoadingHotels("PL"), s3, [i3]);
    assert tail == Step(Finished, EmptyPL(t), [Dispatch(SetHotelsForCountry("PL", map[]))]);
    var i2 := PollSettled(PollOk([]), 2000);
    RunCons(Fetching("PL", t, 0, 0), s2, i2, [i3]);
    assert [i2] + [i3] == [i2, i3];
  }

  /** The last round of the "PL" run, from the top of the loop with no retries left. */
  lemma LastRoundEmpty(t: string)
    ensures Run(Waiting("PL", t, 0, 0), PollingPL(t),
                [Timer, PollSettled(PollOk([]), 2000), HotelsSettled(HotelsFailed)])
      == Step(Finished, EmptyPL(t),
              [PollCall(t), Dispatch(SearchEmpty("PL")), HotelsCall("PL"), Dispatch(SetHotelsForCountry("PL", map[]))])
  {
    var s2 := PollingPL(t);
    EmptyThenNoHotels(t);
    LastPollStep(t);
    RunCons(Waiting("PL", t, 0, 0), s2, Timer, [PollSettled(PollOk([]), 2000), HotelsSettled(HotelsFailed)]);
  }

  /** The single steps of a retried failure: the timer fires and the poll goes out, */
  lemma RetryPolls(t: string, n: nat)
    ensures Resume(Waiting("PL", t, 0, n), PollingPL(t), Timer) == Step(Fetching("PL", t, 0, n), PollingPL(t), [PollCall(t)])
  {
  }

  /** the failure costs a retry and a one-second back-off, */
  lemma RetryBacksOff(t: string, n: nat, o: PollOutcome, now: int)
    requires IsTransient(o) && n > 0
    ensures Resume(Fetching("PL", t, 0, n), PollingPL(t), PollSettled(o, now))
      == Step(BackingOff("PL", t, 0, n - 1), PollingPL(t), [Sleep(RetryDelayMs)])
  {
  }

  /** and after it the loop sleeps until the (past) `waitUntil`. */
  lemma RetryResumes(t: string, n: nat, later: int)
    requires later >= 0
    ensures Resume(BackingOff("PL", t, 0, n), PollingPL(t), BackoffElapsed(later))
      == Step(Waiting("PL", t, 0, n), PollingPL(t), [Sleep(0)])
  {
  }

  /** One retried failure: poll, fail, back off a second, sleep until `waitUntil`. */
  lemma RetriedRound(t: string, n: nat, o: PollOutcome, now: int, later: int, rest: seq<Input>)
    requires IsTransient(o) && n > 0 && now >= 0 && later >= 0
    ensures var r := Run(Waiting("PL", t, 0, n - 1), PollingPL(t), rest);
            Run(Waiting("PL", t, 0, n), PollingPL(t), [Timer, PollSettled(o, now), BackoffElapsed(later)] + rest)
              == Step(r.phase, r.state, [PollCall(t), Sleep(RetryDelayMs), Sleep(0)] + r.effects)
  {
    var s2 := PollingPL(t);
    var i2 := PollSettled(o, now);
    var i3 := BackoffElapsed(later);
    RetryPolls(t, n);
    RetryBacksOff(t, n, o, now);
    RetryResumes(t, n - 1, later);
    RunThreeThen(Waiting("PL", t, 0, n), s2, Timer, i2, i3, rest);
    var r := Run(Waiting("PL", t, 0, n - 1), s2, rest);
    assert [PollCall(t)] + ([Sleep(RetryDelayMs)] + ([Sleep(0)] + r.effects)) == [PollCall(t), Sleep(RetryDelayMs), Sleep(0)] + r.effects;
  }

  /** The first retried failure of the "PL" run (a 425 without `waitUntil`). */
  lemma FirstRetry(t: string, xs: seq<Input>)
    ensures var r := Run(Waiting("PL", t, 0, 1), PollingPL(t), xs);
            Run(Waiting("PL", t, 0, 2), PollingPL(t), [Timer, PollSettled(NoWait, 0), BackoffElapsed(1000)] + xs)
              == Step(r.phase, r.state, [PollCall(t), Sleep(1000), Sleep(0)] + r.effects)
  {
    RetriedRound(t, 2, NoWait, 0, 1000, xs);
  }

  /** The second retried failure of the "PL" run (a 503). */
  lemma SecondRetry(t: string, xs: seq<Input>)
    ensures var r := Run(Waiting("PL", t, 0, 0), PollingPL(t), xs);
            Run(Waiting("PL", t, 0, 1), PollingPL(t), [Timer, PollSettled(Unavailable, 1000), BackoffElapsed(2000)] + xs)
              == Step(r.phase, r.state, [PollCall(t), Sleep(1000), Sleep(0)] + r.effects)
  {
    RetriedRound(t, 1, Unavailable, 1000, 2000, xs);
  }

  /** A poll that fails and is retried: the request, the one-second back-off,
      then the sleep until the (past) `waitUntil`. */
  function RetriedPoll(t: string): seq<Effect> {
    [PollCall(t), Sleep(RetryDelayMs), Sleep(0)]
  }

  /** The poll loop of the "PL" run: two retried failures, then no offers. */
  lemma LoopOfTwoFailuresThenEmpty(t: string)
    ensures Run(Waiting("PL", t, 0, 2), PollingPL(t),
                [Timer, PollSettled(NoWait, 0), BackoffElapsed(1000)]
                + ([Timer, PollSettled(Unavailable, 1000), BackoffElapsed(2000)]
                + [Timer, PollSettled(PollOk([]), 2000), HotelsSettled(HotelsFailed)]))
      == Step(Finished, EmptyPL(t),
              RetriedPoll(t) + (RetriedPoll(t) +
              [PollCall(t), Dispatch(SearchEmpty("PL")), HotelsCall("PL"), Dispatch(SetHotelsForCountry("PL", map[]))]))
  {
    var last := [Timer, PollSettled(PollOk([]), 2000), HotelsSettled(HotelsFailed)];
    var second := [Timer, PollSettled(Unavailable, 1000), BackoffElapsed(2000)];
    LastRoundEmpty(t);
    SecondRetry(t, last);
    FirstRetry(t, second + last);
  }

  /** The start of the "PL" run: the job is started under token `t`. */
  lemma StartOfPLRun(t: string)
    ensures Begin(InitialState, "PL")
      == Step(Starting("PL"), ApplySearchStarted(InitialState, "PL"), [Dispatch(SearchStarted("PL")), StartCall("PL")])
    ensures Resume(Starting("PL"), ApplySearchStarted(InitialState, "PL"), StartSettled(StartOk(t, 0), 0))
      == Step(Waiting("PL", t, 0, 2), PollingPL(t), [Dispatch(SearchPolling(t, 0)), Sleep(0)])
  {
  }

  /** A search for "PL": the job starts under token `t`, the first poll
      answers 425 without a `waitUntil` and the second 503, each followed by a
      one-second back-off; the third returns no offers and the hotel request
      fails. The search ends empty, with no error, an empty table cached for
      "PL" and an empty hotel table stored. */
  lemma TwoFailuresThenEmpty(t: string)
    ensures var r := StartSearch(InitialState, "PL", [
              StartSettled(StartOk(t, 0), 0),
              Timer, PollSettled(NoWait, 0), BackoffElapsed(1000),
              Timer, PollSettled(Unavailable, 1000), BackoffElapsed(2000),
              Timer, PollSettled(PollOk([]), 2000),
              HotelsSettled(HotelsFailed)]);
      && r.effects == [Dispatch(SearchStarted("PL")), StartCall("PL")]
                      + ([Dispatch(SearchPolling(t, 0)), Sleep(0)]
                      + (RetriedPoll(t) + (RetriedPoll(t)
                      + [PollCall(t), Dispatch(SearchEmpty("PL")), HotelsCall("PL"),
                         Dispatch(SetHotelsForCountry("PL", map[]))])))
      && r.phase == Finished
      && r.state.status == Empty && r.state.error == None && r.state.prices == []
      && "PL" in r.state.cache && r.state.cache["PL"] == []
      && "PL" in r.state.hotelsByCountryId && r.state.hotelsByCountryId["PL"] == map[]
  {
    var last := [Timer, PollSettled(PollOk([]), 2000), HotelsSettled(HotelsFailed)];
    var second := [Timer, PollSettled(Unavailable, 1000), BackoffElapsed(2000)];
    var first := [Timer, PollSettled(NoWait, 0), BackoffElapsed(1000)];
    LoopOfTwoFailuresThenEmpty(t);
    var s1 := ApplySearchStarted(InitialState, "PL");
    var i1 := StartSettled(StartOk(t, 0), 0);
    StartOfPLRun(t);
    RunCons(Starting("PL"), s1, i1, first + (second + last));
    StartSearchSplit(InitialState, "PL", [i1] + (first + (second + last)));
    assert [i1] + (first + (second + last)) == [
              StartSettled(StartOk(t, 0), 0),
              Timer, PollSettled(NoWait, 0), BackoffElapsed(1000),
              Timer, PollSettled(Unavailable, 1000), BackoffElapsed(2000),
              Timer, PollSettled(PollOk([]), 2000),
              HotelsSettled(HotelsFailed)];
  }

  /** An empty result is cached, but an empty cached table is not a hit: the
      next search for the same country starts a new job. */
  lemma EmptyResultIsSearchedAgain(s: State, countryId: string)
    ensures var after := ApplySearchEmpty(s, countryId);
      && countryId in after.cache && after.cache[countryId] == []
      && Begin(after, countryId).effects == [Dispatch(SearchStarted(countryId)), StartCall(countryId)]
  {
    CacheMissStartsJob(ApplySearchEmpty(s, countryId), countryId, ApplySearchEmpty(s, countryId).cache);
  }

  /** A success is cached, and the next search for the same country is served
      from the cache without any job. */
  lemma SuccessIsServedFromCache(s: State, countryId: string, prices: PricesMap, inputs: seq<Input>)
    requires |prices| > 0
    ensures var after := ApplySearchSuccess(s, countryId, prices);
            var r := StartSearch(after, countryId, inputs);
      && (forall k :: 0 <= k < |r.effects| ==> !CallsSearch(r.effects[k]))
      && Begin(after, countryId).effects[0] == Dispatch(SearchSuccess(countryId, prices))
  {
    var after := ApplySearchSuccess(s, countryId, prices);
    CacheHitNeverSearches(after, countryId, inputs);
    CacheHitShowsCached(after, countryId, after.cache);
  }
}
