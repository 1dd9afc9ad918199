/** The records the backend returns, as declared in src/types/api.ts, plus the
    price and hotel tables the search slice stores. */
module ApiTypes {
  import opened Wrappers

  datatype Country = Country(id: string, name: string, flag: string)

  /** A city. The declared type has no `countryId`, but src/utils/direction.ts
      reads one when present, so it is an optional field here. */
  datatype City = City(id: int, name: string, countryId: Option<string>)

  datatype Hotel = Hotel(
    id: int,
    name: string,
    img: string,
    cityId: int,
    cityName: string,
    countryId: string,
    countryName: string
  )

  /** The tagged union of search-place results, discriminated by `type`. */
  datatype GeoEntity =
    | CountryEntity(country: Country)
    | CityEntity(city: City)
    | HotelEntity(hotel: Hotel)

  /** One price offer. Dates are kept as the backend's strings; the model
      never parses them. */
  datatype PriceOffer = PriceOffer(
    id: string,
    amount: int,
    currency: string,
    startDate: string,
    endDate: string,
    hotelID: Option<string>
  )

  /** A prices object, in its property enumeration order (offer id, offer).
      `Object.keys(p).length` is `|p|` and `Object.values(p)` is `Values(p)`. */
  type PricesMap = seq<(string, PriceOffer)>

  /** A hotels object, keyed by hotel id. */
  type HotelsMap = map<string, Hotel>

  /** `Object.values(p)`: the offers in enumeration order. */
  function Values(p: PricesMap): (vs: seq<PriceOffer>)
    ensures |vs| == |p|
    ensures forall i :: 0 <= i < |p| ==> vs[i] == p[i].1
  {
    seq(|p|, i requires 0 <= i < |p| => p[i].1)
  }
}
