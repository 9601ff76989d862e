/** The records the PowerWatch build works on: plants as seen by one source,
    the country dictionary, the WRI-GEO-CARMA concordance, and the source
    databases as dictionaries with an explicit iteration order. */
module Records {
  import opened Wrappers

  type Id = string

  /** Smallest capacity (MW) a national or WRI plant needs to be admitted. */
  const MinimumCapacityMw: real := 1.0

  /** A coordinate pair; either coordinate may be missing (`None`). */
  datatype Location = Location(latitude: Option<real>, longitude: Option<real>)

  /** One plant as seen by one source. `capacity` is `None` when the source
      holds no number there; `coordSource` and `idnr` are set by the build. */
  datatype Plant = Plant(
    country: string,
    capacity: Option<real>,
    location: Location,
    coordSource: string,
    idnr: string)

  /** An entry of the WRI database: a power-plant object, or some other object. */
  datatype WriRecord = PowerPlant(plant: Plant) | OtherObject

  /** Routing flags of one country. */
  datatype Country = Country(isoCode: string, hasApi: bool, useGeo: bool)

  /** The concordance entry of one WRI plant: matched GEO and CARMA ids. */
  datatype Match = Match(geoId: Option<Id>, carmaId: Option<Id>)

  /** Lines the build writes to its log file. */
  datatype LogEvent =
    | NotAPowerPlant(plantId: Id)
    | CountryNotRecognized(country: string)
    | NoGeoLocation(wriId: Id, geoId: Id)
    | NoCarmaLocation(wriId: Id, carmaId: Id)
    | InvalidGeoCapacity(geoPlantId: Id)

  /** A dictionary together with the order in which the build iterates it. */
  datatype Table<V> = Table(entries: map<Id, V>, order: seq<Id>) {

    /** Every key the iteration visits is a key of the dictionary. */
    predicate WellOrdered() {
      forall k :: k in order ==> k in entries
    }

    /** The iteration visits every key of the dictionary exactly once. */
    predicate Enumerated() {
      && WellOrdered()
      && (forall k :: k in entries ==> k in order)
      && (forall i, j :: 0 <= i < j < |order| ==> order[i] != order[j])
    }
  }

  /** The database loaded for one country that has a national data feed. */
  datatype NationalSource = NationalSource(countryName: string, plants: Table<Plant>)

  /** Python truthiness of a number that may be `None`. */
  predicate Truthy(x: Option<real>) {
    x.Some? && x.value != 0.0
  }

  /** Python truthiness of an identifier that may be `None`. */
  predicate PresentId(x: Option<Id>) {
    x.Some? && x.value != ""
  }

  /** The truthiness test `latitude and longitude` used when a location is borrowed. */
  predicate HasLatLong(loc: Location) {
    Truthy(loc.latitude) && Truthy(loc.longitude)
  }

  /** The full location test: both coordinates truthy and both different from 0. */
  predicate ValidLocation(loc: Location) {
    && HasLatLong(loc)
    && loc.latitude.value != 0.0 && loc.longitude.value != 0.0
  }

  /** `capacity >= MINIMUM_CAPACITY_MW` in Python 2, where `None` is below every number. */
  predicate AtLeastMinimum(capacity: Option<real>) {
    capacity.Some? && capacity.value >= MinimumCapacityMw
  }

  /** `capacity < MINIMUM_CAPACITY_MW` in Python 2, where `None` is below every number. */
  predicate BelowMinimum(capacity: Option<real>) {
    capacity.None? || capacity.value < MinimumCapacityMw
  }

  /** The gate of Steps 1 and 2: at least the minimum capacity and a valid location. */
  predicate Gated(p: Plant) {
    AtLeastMinimum(p.capacity) && ValidLocation(p.location)
  }

  /** For numbers, the truthiness test and the full location test coincide, and
      the two capacity comparisons are each other's negation. */
  lemma LocationTestsAgree(loc: Location, capacity: Option<real>)
    ensures HasLatLong(loc) <==> ValidLocation(loc)
    ensures HasLatLong(loc) <==>
              loc.latitude.Some? && loc.longitude.Some? &&
              loc.latitude.value != 0.0 && loc.longitude.value != 0.0
    ensures BelowMinimum(capacity) <==> !AtLeastMinimum(capacity)
  {
  }

  // Provenance labels written to `coord_source`.
  function NationalLabel(countryName: string): string {
    countryName + " national data"
  }
  const WriLabel: string := "WRI data"
  const GeoLabel: string := "GEO data"
  const CarmaLabel: string := "CARMA data"
  const SourceWatchLabel: string := "SourceWatch data"
}
