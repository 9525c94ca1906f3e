/** The address picker: a street address, and a country, region and city chosen in cascade
    from a place database, each change forwarded to the parent when it asked to hear of it.

    The database is a parameter: `Catalog` gives the countries, the regions of a country and
    the cities of a region, each list empty when the database has nothing for the code. */
module AddressSelector {
  import opened Wrappers

  datatype Place = Place(isoCode: string, name: string)

  datatype Catalog = Catalog(countries: seq<Place>, regions: map<string, seq<Place>>,
                             cities: map<(string, string), seq<Place>>)

  /** `State.getStatesOfCountry(country)`. */
  function RegionsOf(catalog: Catalog, country: string): seq<Place> {
    if country in catalog.regions then catalog.regions[country] else []
  }

  /** `City.getCitiesOfState(country, region)`. */
  function CitiesOf(catalog: Catalog, country: string, region: string): seq<Place> {
    if (country, region) in catalog.cities then catalog.cities[(country, region)] else []
  }

  /** `find`: the index of the first element satisfying `p`, if any. */
  function Find<T>(s: seq<T>, p: T -> bool): (r: Option<nat>)
    ensures r.Some? ==> r.value < |s| && p(s[r.value]) && forall j :: 0 <= j < r.value ==> !p(s[j])
    ensures r.None? ==> forall j :: 0 <= j < |s| ==> !p(s[j])
  {
    if |s| == 0 then None
    else if p(s[0]) then Some(0)
    else match Find(s[1..], p)
      case None => None
      case Some(k) => Some(k + 1)
  }

  /** The first place of `places` whose ISO code is `code`. */
  function WithCode(places: seq<Place>, code: string): (r: Option<Place>)
    ensures r.Some? ==> r.value in places && r.value.isoCode == code
    ensures r.None? <==> forall i :: 0 <= i < |places| ==> places[i].isoCode != code
  {
    match Find(places, (q: Place) => q.isoCode == code)
    case Some(i) => Some(places[i])
    case None => None
  }

  /** The first place of `places` called `name`. */
  function WithName(places: seq<Place>, name: string): (r: Option<Place>)
    ensures r.Some? ==> r.value in places && r.value.name == name
    ensures r.None? <==> forall i :: 0 <= i < |places| ==> places[i].name != name
  {
    match Find(places, (q: Place) => q.name == name)
    case Some(i) => Some(places[i])
    case None => None
  }

  /** Among several places with the same code the first is chosen. */
  lemma WithCodeIsFirst(places: seq<Place>, code: string, i: nat)
    requires i < |places| && places[i].isoCode == code
    requires forall j :: 0 <= j < i ==> places[j].isoCode != code
    ensures WithCode(places, code) == Some(places[i])
  {
  }

  class Selector {
    const catalog: Catalog
    /** Which of the four callbacks the parent passed. */
    const onAddress: bool
    const onCountry: bool
    const onRegion: bool
    const onCity: bool
    var address: string
    var selectedCountry: Option<Place>
    var selectedRegion: Option<Place>
    var selectedCity: Option<Place>

    /** The cascade: a region is one of the chosen country's, a city one of the chosen
        region's. */
    ghost predicate Valid()
      reads this
    {
      && (selectedRegion.Some? ==> selectedRegion.value in Regions())
      && (selectedCity.Some? ==> selectedCity.value in Cities())
    }

    constructor (catalog: Catalog, onAddress: bool, onCountry: bool, onRegion: bool, onCity: bool)
      ensures this.catalog == catalog
      ensures this.onAddress == onAddress && this.onCountry == onCountry
      ensures this.onRegion == onRegion && this.onCity == onCity
      ensures address == "" && selectedCountry == None && selectedRegion == None && selectedCity == None
      ensures Valid()
    {
      this.catalog := catalog;
      this.onAddress := onAddress;
      this.onCountry := onCountry;
      this.onRegion := onRegion;
      this.onCity := onCity;
      address := "";
      selectedCountry := None;
      selectedRegion := None;
      selectedCity := None;
    }

    /** `states`: the chosen country's regions; none without a country. */
    function Regions(): (r: seq<Place>)
      reads this
      ensures selectedCountry.None? ==> r == []
      ensures selectedCountry.Some? ==> r == RegionsOf(catalog, selectedCountry.value.isoCode)
    {
      match selectedCountry
      case None => []
      case Some(c) => RegionsOf(catalog, c.isoCode)
    }

    /** `cities`: the chosen region's cities; none unless both a country and a region are
        chosen. */
    function Cities(): (r: seq<Place>)
      reads this
      ensures selectedCountry.None? || selectedRegion.None? ==> r == []
      ensures selectedCountry.Some? && selectedRegion.Some? ==>
        r == CitiesOf(catalog, selectedCountry.value.isoCode, selectedRegion.value.isoCode)
    {
      if selectedCountry.None? || selectedRegion.None? then []
      else CitiesOf(catalog, selectedCountry.value.isoCode, selectedRegion.value.isoCode)
    }

    /** `handleAddressChange`: stores the address; returns what is passed to the parent. */
    method HandleAddressChange(value: string) returns (forwarded: Option<string>)
      requires Valid()
      modifies this`address
      ensures address == value && Valid()
      ensures forwarded.Some? <==> onAddress
      ensures forwarded.Some? ==> forwarded.value == value
    {
      address := value;
      forwarded := if onAddress then Some(value) else None;
    }

    /** `handleCountryChange`: chooses the first country with the code, or none, and clears
        the region and the city. */
    method HandleCountryChange(code: string) returns (forwarded: Option<string>)
      requires Valid()
      modifies this`selectedCountry, this`selectedRegion, this`selectedCity
      ensures selectedCountry == WithCode(catalog.countries, code)
      ensures selectedRegion == None && selectedCity == None
      ensures Valid()
      ensures forwarded.Some? <==> onCountry
      ensures forwarded.Some? ==> forwarded.value == code
    {
      selectedCountry := WithCode(catalog.countries, code);
      selectedRegion := None;
      selectedCity := None;
      forwarded := if onCountry then Some(code) else None;
    }

    /** `handleRegionChange`: chooses the first of the listed regions with the code, or none,
        and clears the city; the country stays. */
    method HandleRegionChange(code: string) returns (forwarded: Option<string>)
      requires Valid()
      modifies this`selectedRegion, this`selectedCity
      ensures selectedRegion == WithCode(old(Regions()), code)
      ensures selectedCity == None
      ensures Valid()
      ensures forwarded.Some? <==> onRegion
      ensures forwarded.Some? ==> forwarded.value == code
    {
      selectedRegion := WithCode(Regions(), code);
      selectedCity := None;
      forwarded := if onRegion then Some(code) else None;
    }

    /** `handleCityChange`: chooses the first of the listed cities with the name, or none. */
    method HandleCityChange(name: string) returns (forwarded: Option<string>)
      requires Valid()
      modifies this`selectedCity
      ensures selectedCity == WithName(old(Cities()), name)
      ensures Valid()
      ensures forwarded.Some? <==> onCity
      ensures forwarded.Some? ==> forwarded.value == name
    {
      selectedCity := WithName(Cities(), name);
      forwarded := if onCity then Some(name) else None;
    }
  }
}
