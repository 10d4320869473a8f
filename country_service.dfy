/**
 * `getCountryCurrency`: coordinates to country code (reverse geocoding),
 * then country code to currency (country information), recording the
 * country code in the pin on the way.
 */
module CountryService {
  import opened Optional
  import opened LocationRecord

  datatype Name = Name(common: string, official: string)
  datatype Currency = Currency(name: string, symbol: string)

  /**
   * `CountryInfo`. The `currencies` map is kept as its entries in iteration
   * order (the order of the JSON object), since the code takes the first value.
   */
  datatype CountryInfo = CountryInfo(name: Name, currencies: seq<(string, Currency)>)

  /** A reverse-geocoding result; only its `country` code is read. */
  datatype ReverseEntry = ReverseEntry(country: string)

  /** The outcome of one HTTP call: the decoded body, or a thrown exception. */
  datatype Http<T> = Ok(body: T) | Fail

  /** The lookups issued, in order. */
  datatype Request = ReverseLookup(lat: real, lon: real) | CountryLookup(code: string)

  /** `countryInfo.firstOrNull()?.currencies?.values?.firstOrNull()` */
  function FirstCurrency(infos: seq<CountryInfo>): (c: Option<Currency>)
    ensures c.Some? <==> |infos| > 0 && |infos[0].currencies| > 0
    ensures c.Some? ==> c.value == infos[0].currencies[0].1
  {
    if |infos| > 0 && |infos[0].currencies| > 0 then Some(infos[0].currencies[0].1) else None
  }

  /**
   * `getCountryCurrency`. `reverse(lat, lon)` is the reverse-geocoding call
   * and `countryInfo(code)` the country-information call; `Fail` stands for
   * any exception either throws, which the function turns into null.
   */
  method GetCountryCurrency(lat: Option<real>, lon: Option<real>, location: Location,
                            reverse: (real, real) -> Http<seq<ReverseEntry>>,
                            countryInfo: string -> Http<seq<CountryInfo>>)
    returns (currency: Option<Currency>, requests: seq<Request>)
    modifies location`countryCode
    // only the country code of the pin is ever written
    ensures location.latitude == old(location.latitude) && location.longitude == old(location.longitude)
    ensures location.searchName == old(location.searchName) && location.currency == old(location.currency)
    // no coordinates: null, without any lookup
    ensures lat.None? || lon.None? ==>
              currency == None && requests == [] && location.countryCode == old(location.countryCode)
    ensures lat.Some? && lon.Some? ==>
              var places := reverse(lat.value, lon.value);
              if places.Fail? || |places.body| == 0 then
                // the reverse lookup failed or found nothing: null, and the pin is untouched
                && currency == None
                && requests == [ReverseLookup(lat.value, lon.value)]
                && location.countryCode == old(location.countryCode)
              else
                // the first place's country is written to the pin before the second lookup,
                // so it stays written whatever that lookup returns
                var code := places.body[0].country;
                && location.countryCode == code
                && requests == [ReverseLookup(lat.value, lon.value), CountryLookup(code)]
                && currency == (if countryInfo(code).Fail? then None else FirstCurrency(countryInfo(code).body))
  {
    currency, requests := None, [];
    if lat.None? || lon.None? {
      return;
    }
    requests := requests + [ReverseLookup(lat.value, lon.value)];
    var locations := reverse(lat.value, lon.value);
    if locations.Fail? {
      return;
    }
    if |locations.body| == 0 {
      return;
    }
    var countryCode := locations.body[0].country;
    location.countryCode := countryCode;
    requests := requests + [CountryLookup(countryCode)];
    var info := countryInfo(countryCode);
    if info.Fail? {
      return;
    }
    currency := FirstCurrency(info.body);
  }
}
