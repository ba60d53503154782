/** The parts of the statistics API's JSON envelope (`{"MRData": {"<Table>": …}}`)
    that the modelled code reads. Every key the code looks up is an `Option`
    (`None` = key absent); every leaf is a string, as the API sends it. */
module Ergast {
  import opened Wrappers

  datatype Driver = Driver(
    driverId: Option<string>,
    givenName: Option<string>,
    familyName: Option<string>,
    nationality: Option<string>,
    dateOfBirth: Option<string>,
    url: Option<string>,
    code: Option<string>,
    permanentNumber: Option<string>)

  /** An element of a standing's `Constructors` list. */
  datatype ConstructorRef = ConstructorRef(name: Option<string>)

  /** The value under a constructor standing's `Constructor` key: normally an object;
      any other JSON value makes `.get('name', …)` raise `AttributeError`. */
  datatype ConstructorNode = AsObject(name: Option<string>) | NotAnObject

  datatype DriverStanding = DriverStanding(
    position: Option<string>,
    points: Option<string>,
    wins: Option<string>,
    driver: Option<Driver>,
    constructors: Option<seq<ConstructorRef>>)

  datatype ConstructorStanding = ConstructorStanding(
    position: Option<string>,
    points: Option<string>,
    wins: Option<string>,
    constructorNode: Option<ConstructorNode>)

  datatype StandingsList = StandingsList(
    driverStandings: Option<seq<DriverStanding>>,
    constructorStandings: Option<seq<ConstructorStanding>>)

  datatype StandingsTable = StandingsTable(standingsLists: Option<seq<StandingsList>>)

  datatype DriverTable = DriverTable(drivers: Option<seq<Driver>>)

  datatype Season = Season(season: Option<string>)

  datatype SeasonTable = SeasonTable(seasons: Option<seq<Season>>)

  datatype RaceResult = RaceResult(position: Option<string>)

  datatype Race = Race(results: Option<seq<RaceResult>>)

  datatype RaceTable = RaceTable(races: Option<seq<Race>>)

  datatype MRData = MRData(
    driverTable: Option<DriverTable>,
    standingsTable: Option<StandingsTable>,
    seasonTable: Option<SeasonTable>,
    raceTable: Option<RaceTable>)

  /** A decoded response body. `otherKeys` records whether the dict has keys besides
      `MRData`, which only matters for its truthiness. */
  datatype Payload = Payload(mrData: Option<MRData>, otherKeys: bool)

  /** Python truthiness of the decoded body: a non-empty dict. */
  predicate Truthy(p: Payload) {
    p.mrData.Some? || p.otherKeys
  }

  /** `data and 'MRData' in data` for a `_make_request` result. */
  function Envelope(p: Option<Payload>): (r: Option<MRData>)
    ensures r.Some? ==> p.Some? && Truthy(p.value)
  {
    if p.Some? then p.value.mrData else None
  }

  /** `x or []` / `.get(k, [])` for an optional list. */
  function ListOr<T>(o: Option<seq<T>>): seq<T> {
    o.GetOr([])
  }
}
