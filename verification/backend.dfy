/** What the search API's operations can answer, as the search slice sees
    them (the result types of src/services/tourApi.ts). Timestamps are
    milliseconds; an absent or empty `waitUntil` is None. */
module Backend {
  import opened Wrappers
  import opened ApiTypes

  /** `startSearchPrices` answers with a job or an error response; any other
      rejection (a network failure, a body that is not JSON) is rethrown to
      the thunk (src/services/tourApi.ts:34-47). */
  datatype StartOutcome =
    | StartOk(token: string, waitUntil: int)
    | StartFailed(code: int, message: string)
    | StartThrew

  /** `getSearchPrices` likewise: prices, an error response, or a rethrown
      rejection (src/services/tourApi.ts:54-72). */
  datatype PollOutcome =
    | PollOk(prices: PricesMap)
    | PollFailed(code: int, message: string, waitUntil: Option<int>)
    | PollThrew

  /** `fetchHotels` either yields a table or throws. */
  datatype HotelsOutcome = HotelsOk(hotels: HotelsMap) | HotelsFailed
}
