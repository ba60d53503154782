/** `get_driver_profile`: the driver's identity, optionally one season's standing and the
    previous/next drivers around them in that season's roster re-sorted by position,
    and optionally the career statistics read from the long-term cache (a placeholder
    of zeros on a miss). The driver request and the season-standings request are the
    parameters `driverResponse` and `standingsResponse`; the roster is the parameter
    `roster`, what `search_drivers(year)` returned. */
module DriverProfile {
  import opened Wrappers
  import opened PyInt
  import opened Ergast
  import opened Sorting
  import opened ResponseCache
  import opened DriverCode
  import opened DriverSearch
  import opened CareerStats

  datatype SeasonStats = SeasonStats(position: string, points: string, wins: string, constructorName: Option<string>)

  datatype Neighbour = Neighbour(id: string, name: string, position: string)

  datatype Neighbours = Neighbours(prev: Option<Neighbour>, next: Option<Neighbour>)

  datatype Profile = Profile(
    id: string,
    name: string,
    givenName: string,
    familyName: string,
    nationality: string,
    dateOfBirth: string,
    wikiUrl: string,
    code: string,
    number: string,
    season: Option<(string, SeasonStats)>,
    prev: Option<Neighbour>,
    next: Option<Neighbour>,
    careerStats: Option<Stats>)

  /** `int(position)` for a roster entry; only consulted once every position parses. */
  function PositionKey(d: DriverInfo): int {
    ParseInt(d.position).GetOr(0)
  }

  predicate ByPosition(a: DriverInfo, b: DriverInfo) {
    PositionKey(a) <= PositionKey(b)
  }

  /** Every roster position parses, so computing the sort keys raises no `ValueError`. */
  predicate AllParse(roster: seq<DriverInfo>) {
    forall i :: 0 <= i < |roster| ==> ParseInt(roster[i].position).Some?
  }

  /** `next((i for i, d in enumerate(xs) if d['id'] == id), -1)`, with `None` for `-1`. */
  function FirstIndex(xs: seq<DriverInfo>, id: string): (r: Option<nat>)
    ensures r.None? <==> forall j :: 0 <= j < |xs| ==> xs[j].id != id
    ensures r.Some? ==> r.value < |xs| && xs[r.value].id == id
    ensures r.Some? ==> forall j :: 0 <= j < r.value ==> xs[j].id != id
  {
    if |xs| == 0 then None
    else if xs[0].id == id then Some(0)
    else match FirstIndex(xs[1..], id)
      case None => None
      case Some(i) => Some(i + 1)
  }

  function Summary(d: DriverInfo): Neighbour {
    Neighbour(d.id, d.name, d.position)
  }

  /** The neighbour selection: an empty roster has none; otherwise the roster is sorted
      by `int(position)` (one unparsable position raises `ValueError`) and the entries
      either side of the driver's first occurrence are taken. */
  function SelectNeighbours(roster: seq<DriverInfo>, driverId: string): (r: Result<Neighbours>)
    ensures r.Success? <==> |roster| == 0 || AllParse(roster)
  {
    if |roster| == 0 then Success(Neighbours(None, None))
    else if !AllParse(roster) then Failure(ValueError)
    else
      var sorted := Sort(roster, ByPosition);
      match FirstIndex(sorted, driverId)
      case None => Success(Neighbours(None, None))
      case Some(i) =>
        Success(Neighbours(if i > 0 then Some(Summary(sorted[i - 1])) else None,
                           if i < |sorted| - 1 then Some(Summary(sorted[i + 1])) else None))
  }

  /** The neighbours sit either side of the driver in the position-sorted roster: the
      previous one (absent at the front) has a position no greater than the driver's, the
      next one (absent at the back) no smaller, and neither is the driver's first entry. */
  lemma NeighbourSelection(roster: seq<DriverInfo>, driverId: string)
    requires |roster| > 0 && AllParse(roster)
    ensures var sorted := Sort(roster, ByPosition);
            var n := SelectNeighbours(roster, driverId).value;
            && multiset(sorted) == multiset(roster)
            && Sorted(sorted, ByPosition)
            && (FirstIndex(sorted, driverId).None? ==> n.prev.None? && n.next.None?)
            && (FirstIndex(sorted, driverId).Some? ==>
                  var i := FirstIndex(sorted, driverId).value;
                  && (n.prev.Some? <==> i > 0)
                  && (n.next.Some? <==> i < |sorted| - 1)
                  && (n.prev.Some? ==>
                        && n.prev.value == Summary(sorted[i - 1])
                        && PositionKey(sorted[i - 1]) <= PositionKey(sorted[i])
                        && n.prev.value.id != driverId)
                  && (n.next.Some? ==>
                        && n.next.value == Summary(sorted[i + 1])
                        && PositionKey(sorted[i]) <= PositionKey(sorted[i + 1])))
  {
    ByPositionIsTotalPreorder();
    SortSorted(roster, ByPosition);
    var sorted := Sort(roster, ByPosition);
    match FirstIndex(sorted, driverId)
    case None =>
    case Some(i) =>
      if i > 0 {
        assert ByPosition(sorted[i - 1], sorted[i]);
      }
      if i < |sorted| - 1 {
        assert ByPosition(sorted[i], sorted[i + 1]);
      }
  }

  lemma ByPositionIsTotalPreorder()
    ensures TotalPreorder(ByPosition)
  {
  }

  /** A driver absent from the roster gets no neighbours. */
  lemma AbsentDriverHasNoNeighbours(roster: seq<DriverInfo>, driverId: string)
    requires forall d | d in roster :: d.id != driverId
    requires |roster| == 0 || AllParse(roster)
    ensures SelectNeighbours(roster, driverId) == Success(Neighbours(None, None))
  {
    if |roster| > 0 {
      var sorted := Sort(roster, ByPosition);
      forall j | 0 <= j < |sorted|
        ensures sorted[j].id != driverId
      {
        assert sorted[j] in multiset(sorted);
        assert sorted[j] in roster;
      }
    }
  }

  /** The first entry of the standings for the year: `position`, `points` and `wins` are
      required, the constructor is the first `Constructors` name when that list is
      non-empty. `None` when there is no payload, no standings list or no standing. */
  function SeasonEntry(standingsResponse: Option<Payload>): (r: Result<Option<SeasonStats>>)
    ensures FirstStandings(standingsResponse).Failure? ==> r.Failure?
    ensures FirstStandings(standingsResponse) == Success([]) ==> r == Success(None)
    ensures FirstStandings(standingsResponse).Success? && FirstStandings(standingsResponse).value != [] ==>
              var s := FirstStandings(standingsResponse).value[0];
              var named := s.constructors.Some? && |s.constructors.value| > 0;
              && (r.Success? <==>
                    && s.position.Some? && s.points.Some? && s.wins.Some?
                    && (named ==> s.constructors.value[0].name.Some?))
              && (r.Success? ==>
                    r.value == Some(SeasonStats(s.position.value, s.points.value, s.wins.value,
                                                if named then s.constructors.value[0].name else None)))
  {
    match Envelope(standingsResponse)
    case None => Success(None)
    case Some(mr) =>
      var table :- Need(mr.standingsTable);
      var lists := ListOr(table.standingsLists);
      if |lists| == 0 then Success(None)
      else
        var standings := ListOr(lists[0].driverStandings);
        if |standings| == 0 then Success(None)
        else
          var s := standings[0];
          var position :- Need(s.position);
          var points :- Need(s.points);
          var wins :- Need(s.wins);
          var constructorName :- match s.constructors
            case Some(cs) => if |cs| == 0 then Success(None) else
              var name :- Need(cs[0].name);
              Success(Some(name))
            case None => Success(None);
          Success(Some(SeasonStats(position, points, wins, constructorName)))
  }

  /** The keys the profile reads unconditionally. */
  predicate Identified(d: Driver) {
    && d.driverId.Some? && d.givenName.Some? && d.familyName.Some?
    && d.nationality.Some? && d.dateOfBirth.Some?
  }

  /** `p` carries the identity of the driver record `d`: the five required keys as
      given, the optional url and number defaulting to "", and the record's own code
      unless it is missing or empty, in which case the generated one. */
  predicate Describes(p: Profile, d: Driver) {
    && d.driverId == Some(p.id)
    && d.givenName == Some(p.givenName)
    && d.familyName == Some(p.familyName)
    && d.nationality == Some(p.nationality)
    && d.dateOfBirth == Some(p.dateOfBirth)
    && p.wikiUrl == d.url.GetOr("")
    && p.number == d.permanentNumber.GetOr("")
    && (d.code.Some? && d.code.value != "" ==> p.code == d.code.value)
    && (d.code.None? || d.code.value == "" ==> p.code == GenerateCode(p.givenName, p.familyName))
  }

  /** The identity part of the profile, from the first driver of the response. */
  function BaseProfile(driverResponse: Option<Payload>): (r: Result<Option<Profile>>)
    ensures r.Failure? <==>
              Envelope(driverResponse).Some?
              && (|| Envelope(driverResponse).value.driverTable.None?
                  || (var drivers := ListOr(Envelope(driverResponse).value.driverTable.value.drivers);
                      |drivers| > 0 && !Identified(drivers[0])))
    ensures r.Success? ==>
              (r.value.Some? <==>
                 && Envelope(driverResponse).Some?
                 && |ListOr(Envelope(driverResponse).value.driverTable.value.drivers)| > 0)
    ensures r.Success? && r.value.Some? ==>
              Describes(r.value.value, ListOr(Envelope(driverResponse).value.driverTable.value.drivers)[0])
    ensures r.Success? && r.value.Some? ==>
              var p := r.value.value;
              && p.name == p.givenName + " " + p.familyName
              && (p.code == "" ==> p.givenName + p.familyName == "")
              && p.season.None? && p.prev.None? && p.next.None? && p.careerStats.None?
  {
    match Envelope(driverResponse)
    case None => Success(None)
    case Some(mr) =>
      var table :- Need(mr.driverTable);
      var drivers := ListOr(table.drivers);
      if |drivers| == 0 then Success(None)
      else
        var d := drivers[0];
        var id :- Need(d.driverId);
        var given :- Need(d.givenName);
        var family :- Need(d.familyName);
        var nationality :- Need(d.nationality);
        var dateOfBirth :- Need(d.dateOfBirth);
        var code := if d.code.Some? && d.code.value != "" then d.code.value else GenerateCode(given, family);
        Success(Some(Profile(id, given + " " + family, given, family, nationality, dateOfBirth,
                             d.url.GetOr(""), code, d.permanentNumber.GetOr(""), None, None, None, None)))
  }

  /** `if year:` */
  predicate YearGiven(year: Option<string>) {
    year.Some? && year.value != ""
  }

  /** Everything before the career-statistics step, which is the only one touching the
      cache. It raises iff the base profile raises or, with a year, the season entry or
      the neighbour selection raises. A profile differs from the base profile only in
      its season and neighbours, which stay empty without a year. */
  function ProfileBeforeCareer(driverId: string, year: Option<string>, driverResponse: Option<Payload>,
                               standingsResponse: Option<Payload>, roster: seq<DriverInfo>): (r: Result<Option<Profile>>)
    ensures BaseProfile(driverResponse).Failure? ==> r.Failure?
    ensures BaseProfile(driverResponse) == Success(None) ==> r == Success(None)
    ensures BaseProfile(driverResponse).Success? && BaseProfile(driverResponse).value.Some? ==>
              var base := BaseProfile(driverResponse).value.value;
              && (r.Success? <==>
                    !YearGiven(year) || (SeasonEntry(standingsResponse).Success? && SelectNeighbours(roster, driverId).Success?))
              && (r.Success? ==> r.value.Some? && r.value.value.(season := None, prev := None, next := None) == base)
              && (r.Success? && !YearGiven(year) ==> r.value.value == base)
              && (r.Success? && YearGiven(year) ==>
                    var season := SeasonEntry(standingsResponse).value;
                    && r.value.value.season == (if season.Some? then Some((year.value, season.value)) else None)
                    && r.value.value.prev == SelectNeighbours(roster, driverId).value.prev
                    && r.value.value.next == SelectNeighbours(roster, driverId).value.next)
  {
    var base :- BaseProfile(driverResponse);
    if base.None? then Success(None)
    else if !YearGiven(year) then Success(base)
    else
      var season :- SeasonEntry(standingsResponse);
      var neighbours :- SelectNeighbours(roster, driverId);
      Success(Some(base.value.(season := if season.Some? then Some((year.value, season.value)) else None,
                               prev := neighbours.prev,
                               next := neighbours.next)))
  }

  datatype ProfileOutcome = ProfileOutcome(profile: Option<Profile>, store: Store<Stats>)

  /** The profile, and the career cache after the read; any exception yields `None` and
      leaves the cache as it was. */
  function GetDriverProfile(driverId: string, year: Option<string>, loadCareerStats: bool,
                            driverResponse: Option<Payload>, standingsResponse: Option<Payload>,
                            roster: seq<DriverInfo>, store: Store<Stats>, now: real): (r: ProfileOutcome)
    ensures r.profile.None? ==> r.store == store
    ensures r.profile.Some? <==>
              var before := ProfileBeforeCareer(driverId, year, driverResponse, standingsResponse, roster);
              before.Success? && before.value.Some?
    ensures r.profile.Some? ==>
              r.profile.value.(careerStats := None)
              == ProfileBeforeCareer(driverId, year, driverResponse, standingsResponse, roster).value.value
    ensures loadCareerStats && r.profile.Some? ==> r.store == Get(store, CacheKey(driverId), true, now).store
    ensures !loadCareerStats ==> r.store == store && (r.profile.Some? ==> r.profile.value.careerStats.None?)
    ensures loadCareerStats && r.profile.Some? ==>
              var key := CacheKey(driverId);
              r.profile.value.careerStats == Some(if Fresh(store, key, true, now) then store[key].value else Zeros)
    ensures r.profile.Some? && !YearGiven(year) ==>
              r.profile.value.season.None? && r.profile.value.prev.None? && r.profile.value.next.None?
  {
    match ProfileBeforeCareer(driverId, year, driverResponse, standingsResponse, roster)
    case Success(Some(p)) =>
      if loadCareerStats then
        var lookup := Get(store, CacheKey(driverId), true, now);
        ProfileOutcome(Some(p.(careerStats := Some(lookup.hit.GetOr(Zeros)))), lookup.store)
      else ProfileOutcome(Some(p), store)
    case _ => ProfileOutcome(None, store)
  }

  /** With a year, the profile's neighbours are exactly the selection over the roster,
      and one unparsable roster position loses the whole profile. */
  lemma ProfileNeighbours(driverId: string, year: Option<string>, loadCareerStats: bool,
                          driverResponse: Option<Payload>, standingsResponse: Option<Payload>,
                          roster: seq<DriverInfo>, store: Store<Stats>, now: real)
    requires YearGiven(year)
    ensures var r := GetDriverProfile(driverId, year, loadCareerStats, driverResponse, standingsResponse, roster, store, now);
            r.profile.Some? ==>
              && SelectNeighbours(roster, driverId).Success?
              && r.profile.value.prev == SelectNeighbours(roster, driverId).value.prev
              && r.profile.value.next == SelectNeighbours(roster, driverId).value.next
    ensures |roster| > 0 && !AllParse(roster) ==>
              GetDriverProfile(driverId, year, loadCareerStats, driverResponse, standingsResponse, roster, store, now).profile.None?
  {
  }
}
