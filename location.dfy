/** The shared, mutable `Location` record (package `data`). */
module LocationRecord {
  import opened Optional

  /** The five fields of a `Location`, as a value. */
  datatype LocationValue = LocationValue(
    latitude: Option<real>,
    longitude: Option<real>,
    searchName: string,
    countryCode: string,
    currency: string)

  /** The value that stands for "nothing selected yet": `Location(null, null, "", "")`. */
  const NoSelection: LocationValue := LocationValue(None, None, "", "", "")

  /**
   * A Kotlin `data class` whose five fields are all `var`: callers (the
   * search bar, the country lookup) update them in place.
   */
  class Location {
    var latitude: Option<real>
    var longitude: Option<real>
    var searchName: string
    var countryCode: string
    var currency: string

    /** The primary constructor; the three text fields default to "". */
    constructor (latitude: Option<real>, longitude: Option<real>,
                 searchName: string := "", countryCode: string := "", currency: string := "")
      ensures Value() == LocationValue(latitude, longitude, searchName, countryCode, currency)
    {
      this.latitude := latitude;
      this.longitude := longitude;
      this.searchName := searchName;
      this.countryCode := countryCode;
      this.currency := currency;
    }

    /** The current contents of the record. */
    function Value(): LocationValue
      reads this
    {
      LocationValue(latitude, longitude, searchName, countryCode, currency)
    }

    /** The generated `equals` of a data class: field-by-field comparison. */
    predicate Equals(other: Location)
      reads this, other
      ensures Equals(other) <==> Value() == other.Value()
    {
      latitude == other.latitude && longitude == other.longitude &&
      searchName == other.searchName && countryCode == other.countryCode &&
      currency == other.currency
    }
  }

  /** `Location(null, null, "", "")`, the initial state of both pins, is the no-selection value. */
  method NewUnselected() returns (loc: Location)
    ensures fresh(loc)
    ensures loc.Value() == NoSelection
  {
    loc := new Location(None, None, "", "");
  }

  /** Equality ignores object identity: two records with equal fields are equal. */
  lemma EqualsIsStructural(a: Location, b: Location)
    ensures a.Equals(b) <==> (a.latitude == b.latitude && a.longitude == b.longitude &&
                              a.searchName == b.searchName && a.countryCode == b.countryCode &&
                              a.currency == b.currency)
    ensures a.Equals(b) <==> b.Equals(a)
  {
  }
}
