/** The country a selected direction belongs to (src/utils/direction.ts). */
module Direction {
  import opened Wrappers
  import opened ApiTypes

  /** The country id of a geo entity; None for no selection, or for a city
      that carries no country id. An empty string is a value here: the city
      case uses `??`, which only replaces null and undefined. */
  function DeriveCountryId(direction: Option<GeoEntity>): (r: Option<string>)
    ensures direction.None? ==> r.None?
    ensures direction.Some? && direction.value.CountryEntity? ==> r == Some(direction.value.country.id)
    ensures direction.Some? && direction.value.HotelEntity? ==> r == Some(direction.value.hotel.countryId)
    ensures direction.Some? && direction.value.CityEntity? ==> r == direction.value.city.countryId
    ensures r.None? <==> (direction.None? || (direction.value.CityEntity? && direction.value.city.countryId.None?))
  {
    match direction
    case None => None
    case Some(CountryEntity(c)) => Some(c.id)
    case Some(HotelEntity(h)) => Some(h.countryId)
    case Some(CityEntity(c)) => c.countryId
  }
}
