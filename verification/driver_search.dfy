/** `search_drivers`: the season's driver roster filtered by a case-insensitive query,
    each kept driver merged with its current standing (or placeholder zeros), sorted by
    position with unknown or zero positions last and ties broken by name. Any
    `KeyError` outside the standings loop's `try` turns the whole result into `[]`.
    The two requests are the parameters `driversResponse` and `standingsResponse`
    (what `_make_request` returned for the drivers and driver-standings URLs). */
module DriverSearch {
  import opened Wrappers
  import opened Text
  import opened PyInt
  import opened Ergast
  import opened Sorting
  import opened DriverCode

  datatype StandingInfo = StandingInfo(position: string, points: string, wins: string, constructorName: Option<string>)

  datatype DriverInfo = DriverInfo(
    id: string,
    name: string,
    nationality: string,
    dateOfBirth: string,
    wikiUrl: string,
    code: string,
    number: string,
    position: string,
    points: string,
    wins: string,
    constructorName: Option<string>)

  /** One pass of the standings loop: `standing['Driver']['driverId']` (outside the
      `try`, so a missing key fails the search), then the entry, or `None` when the
      first constructor has no `name` and the `try` skips the entry. */
  function StandingEntry(s: DriverStanding): Result<Option<(string, StandingInfo)>> {
    var driver :- Need(s.driver);
    var id :- Need(driver.driverId);
    var position := s.position.GetOr("0");
    var points := s.points.GetOr("0");
    var wins := s.wins.GetOr("0");
    match s.constructors
    case Some(cs) =>
      if |cs| == 0 then Success(Some((id, StandingInfo(position, points, wins, None))))
      else if cs[0].name.None? then Success(None)
      else Success(Some((id, StandingInfo(position, points, wins, Some(cs[0].name.value)))))
    case None => Success(Some((id, StandingInfo(position, points, wins, None))))
  }

  /** What one standing contributes to the dictionary: its entry, or nothing when it is
      skipped (or raises, which the loop's success rules out). */
  function Indexed(s: DriverStanding): Option<(string, StandingInfo)> {
    match StandingEntry(s)
    case Success(e) => e
    case Failure(_) => None
  }

  /** The record of the last standing in `standings` that contributes an entry for `id`,
      found by reading the list from its end. */
  function LastEntry(standings: seq<DriverStanding>, id: string): Option<StandingInfo>
    decreases |standings|
  {
    if |standings| == 0 then None
    else
      var e := Indexed(standings[|standings| - 1]);
      if e.Some? && e.value.0 == id then Some(e.value.1)
      else LastEntry(standings[..|standings| - 1], id)
  }

  /** Reading from the front: the rest's last entry wins over the first standing's. */
  lemma {:induction false} LastEntryFront(standings: seq<DriverStanding>, id: string)
    requires |standings| > 0
    ensures var e := Indexed(standings[0]);
            LastEntry(standings, id) ==
              if LastEntry(standings[1..], id).Some? then LastEntry(standings[1..], id)
              else if e.Some? && e.value.0 == id then Some(e.value.1)
              else None
    decreases |standings|
  {
    var n := |standings|;
    if n > 1 {
      assert standings[1..][..n - 2] == standings[..n - 1][1..];
      assert standings[1..][n - 2] == standings[n - 1];
      assert standings[..n - 1][0] == standings[0];
      LastEntryFront(standings[..n - 1], id);
    } else {
      assert standings[..n - 1] == [];
    }
  }

  /** The `driver_standings` dictionary built in order: it holds the ids of `acc` and of
      every standing the loop keeps, each mapped to the record of the last standing kept
      for it, or else to its value in `acc`. */
  function IndexStandings(standings: seq<DriverStanding>, acc: map<string, StandingInfo>): (r: Result<map<string, StandingInfo>>)
    ensures r.Success? <==> forall i :: 0 <= i < |standings| ==> StandingEntry(standings[i]).Success?
    ensures r.Success? ==> forall id :: id in r.value <==> id in acc || LastEntry(standings, id).Some?
    ensures r.Success? ==> forall id | id in r.value ::
              r.value[id] == if LastEntry(standings, id).Some? then LastEntry(standings, id).value else acc[id]
    decreases |standings|
  {
    if |standings| == 0 then Success(acc)
    else
      var entry :- StandingEntry(standings[0]);
      var acc' := match entry
        case Some((id, info)) => acc[id := info]
        case None => acc;
      var r := IndexStandings(standings[1..], acc');
      assert forall id :: LastEntry(standings, id) ==
               if LastEntry(standings[1..], id).Some? then LastEntry(standings[1..], id)
               else if entry.Some? && entry.value.0 == id then Some(entry.value.1)
               else None by {
        forall id
          ensures LastEntry(standings, id) ==
                    if LastEntry(standings[1..], id).Some? then LastEntry(standings[1..], id)
                    else if entry.Some? && entry.value.0 == id then Some(entry.value.1)
                    else None
        {
          LastEntryFront(standings, id);
        }
      }
      r
  }

  /** The standings the loop reads: the first list's `DriverStandings`, none when the
      request failed, has no `MRData` or no standings list; `KeyError` without
      `StandingsTable`. */
  function FirstStandings(standingsResponse: Option<Payload>): Result<seq<DriverStanding>> {
    match Envelope(standingsResponse)
    case None => Success([])
    case Some(mr) =>
      var table :- Need(mr.standingsTable);
      var lists := ListOr(table.standingsLists);
      if |lists| == 0 then Success([]) else Success(ListOr(lists[0].driverStandings))
  }

  /** The `driver_standings` dictionary: built iff no standing lacks `Driver.driverId`,
      and then mapping exactly the ids some standing is kept for, each to the last such
      standing's record. */
  function StandingsMap(standingsResponse: Option<Payload>): (r: Result<map<string, StandingInfo>>)
    ensures r.Success? <==>
              && FirstStandings(standingsResponse).Success?
              && forall st | st in FirstStandings(standingsResponse).value :: StandingEntry(st).Success?
    ensures r.Success? ==> forall id ::
              (id in r.value <==> LastEntry(FirstStandings(standingsResponse).value, id).Some?)
              && (id in r.value ==> r.value[id] == LastEntry(FirstStandings(standingsResponse).value, id).value)
  {
    var standings :- FirstStandings(standingsResponse);
    IndexStandings(standings, map[])
  }

  /** The filter, for an already lower-cased query. */
  predicate Matches(query: string, givenName: string, familyName: string) {
    || query == ""
    || IsSubstring(query, Lower(givenName))
    || IsSubstring(query, Lower(familyName))
    || IsSubstring(query, Lower(givenName + " " + familyName))
  }

  /** Both name keys are present: the filter and the name field read them. */
  predicate Named(d: Driver) {
    d.givenName.Some? && d.familyName.Some?
  }

  predicate Kept(query: string, d: Driver) {
    Named(d) && Matches(query, d.givenName.value, d.familyName.value)
  }

  /** The keys read only for a kept driver. */
  predicate Listable(d: Driver) {
    d.driverId.Some? && d.nationality.Some? && d.dateOfBirth.Some?
  }

  /** Processing the driver raises no `KeyError`. */
  predicate Admissible(query: string, d: Driver) {
    Named(d) && (Kept(query, d) ==> Listable(d))
  }

  /** The record built for a kept driver: `code` falls back to the generated code when
      absent or empty; standings fields fall back to `'0'` and no constructor. */
  function InfoOf(standings: map<string, StandingInfo>, d: Driver): DriverInfo {
    var id := d.driverId.GetOr("");
    var given := d.givenName.GetOr("");
    var family := d.familyName.GetOr("");
    var code := if d.code.Some? && d.code.value != "" then d.code.value else GenerateCode(given, family);
    var st := if id in standings then standings[id] else StandingInfo("0", "0", "0", None);
    DriverInfo(id, given + " " + family, d.nationality.GetOr(""), d.dateOfBirth.GetOr(""),
               d.url.GetOr(""), code, d.permanentNumber.GetOr(""),
               st.position, st.points, st.wins, st.constructorName)
  }

  /** One pass of the roster loop. */
  function DriverEntry(query: string, standings: map<string, StandingInfo>, d: Driver): (r: Result<Option<DriverInfo>>)
    ensures r.Success? <==> Admissible(query, d)
    ensures r.Success? ==> (r.value.Some? <==> Kept(query, d))
    ensures r.Success? && r.value.Some? ==> r.value.value == InfoOf(standings, d)
  {
    var given :- Need(d.givenName);
    var family :- Need(d.familyName);
    if !Matches(query, given, family) then Success(None)
    else
      var id :- Need(d.driverId);
      var nationality :- Need(d.nationality);
      var dateOfBirth :- Need(d.dateOfBirth);
      Success(Some(InfoOf(standings, d)))
  }

  /** The roster loop: the kept drivers' records in roster order, or the first `KeyError`. */
  function Collect(query: string, standings: map<string, StandingInfo>, drivers: seq<Driver>): (r: Result<seq<DriverInfo>>)
    ensures r.Success? <==> forall i :: 0 <= i < |drivers| ==> Admissible(query, drivers[i])
    ensures r.Success? ==> r.value == Map((d: Driver) => InfoOf(standings, d), Filter((d: Driver) => Kept(query, d), drivers))
  {
    if |drivers| == 0 then Success([])
    else
      var entry :- DriverEntry(query, standings, drivers[0]);
      var rest :- Collect(query, standings, drivers[1..]);
      Success(if entry.Some? then [entry.value] + rest else rest)
  }

  /** The sort key's first component: `int(position)`, or `None` (infinity) when the
      position is zero or does not parse. */
  function Rank(position: string): Option<int> {
    match ParseInt(position)
    case Some(n) => if n == 0 then None else Some(n)
    case None => None
  }

  /** `a`'s rank is strictly smaller than `b`'s; every number is below infinity. */
  predicate RankBelow(a: Option<int>, b: Option<int>) {
    a.Some? && (b.None? || a.value < b.value)
  }

  /** The search order: `(rank, name)` compared as a Python tuple. */
  predicate SearchOrder(a: DriverInfo, b: DriverInfo) {
    RankBelow(Rank(a.position), Rank(b.position))
    || (Rank(a.position) == Rank(b.position) && Le(a.name, b.name))
  }

  lemma SearchOrderIsTotalPreorder()
    ensures TotalPreorder(SearchOrder)
  {
    forall a, b
      ensures SearchOrder(a, b) || SearchOrder(b, a)
    {
      LeTotal(a.name, b.name);
    }
    forall a, b, c | SearchOrder(a, b) && SearchOrder(b, c)
      ensures SearchOrder(a, c)
    {
      if Rank(a.position) == Rank(b.position) && Rank(b.position) == Rank(c.position) {
        LeTransitive(a.name, b.name, c.name);
      }
    }
  }

  /** The roster the search reads: none when the request failed or has no `MRData`;
      `KeyError` without `DriverTable`. */
  function Roster(driversResponse: Option<Payload>): Result<seq<Driver>> {
    match Envelope(driversResponse)
    case None => Success([])
    case Some(mr) =>
      var table :- Need(mr.driverTable);
      Success(ListOr(table.drivers))
  }

  /** The kept drivers' merged records, in roster order. */
  function Matching(query: string, standings: map<string, StandingInfo>, drivers: seq<Driver>): seq<DriverInfo> {
    Map((d: Driver) => InfoOf(standings, d), Filter((d: Driver) => Kept(Lower(query), d), drivers))
  }

  /** The body of `search_drivers` inside its `try`. An empty roster gives `[]` before
      the standings are read. Otherwise the search raises iff the standings dictionary
      cannot be built or some driver is not admissible; it then returns the kept drivers'
      merged records, reordered by `(rank, name)`. */
  function Search(driversResponse: Option<Payload>, standingsResponse: Option<Payload>, query: string): (r: Result<seq<DriverInfo>>)
    ensures Roster(driversResponse).Failure? ==> r.Failure?
    ensures Roster(driversResponse) == Success([]) ==> r == Success([])
    ensures Roster(driversResponse).Success? && Roster(driversResponse).value != [] ==>
              (r.Success? <==>
                 && StandingsMap(standingsResponse).Success?
                 && forall d | d in Roster(driversResponse).value :: Admissible(Lower(query), d))
    ensures r.Success? ==> Sorted(r.value, SearchOrder)
    ensures r.Success? && Roster(driversResponse).value != [] ==>
              multiset(r.value) == multiset(Matching(query, StandingsMap(standingsResponse).value, Roster(driversResponse).value))
  {
    var drivers :- Roster(driversResponse);
    if |drivers| == 0 then Success([])
    else
      var standings :- StandingsMap(standingsResponse);
      var infos :- Collect(Lower(query), standings, drivers);
      SearchOrderIsTotalPreorder();
      SortSorted(infos, SearchOrder);
      Success(Sort(infos, SearchOrder))
  }

  /** `search_drivers`: whatever the `try` raises becomes `[]`. The result is always in
      `(rank, name)` order; when nothing raises and the roster is not empty it is a
      permutation of the kept drivers' merged records. */
  function SearchDrivers(driversResponse: Option<Payload>, standingsResponse: Option<Payload>, query: string): (r: seq<DriverInfo>)
    ensures Sorted(r, SearchOrder)
    ensures Search(driversResponse, standingsResponse, query).Failure? ==> r == []
    ensures Roster(driversResponse) == Success([]) ==> r == []
    ensures && Roster(driversResponse).Success? && Roster(driversResponse).value != []
            && StandingsMap(standingsResponse).Success?
            && (forall d | d in Roster(driversResponse).value :: Admissible(Lower(query), d)) ==>
              multiset(r) == multiset(Matching(query, StandingsMap(standingsResponse).value, Roster(driversResponse).value))
  {
    Search(driversResponse, standingsResponse, query).GetOr([])
  }

  /** In any sequence in search order, and so in the search result, every driver with a
      known non-zero position comes before every driver without one, and known positions
      ascend. */
  lemma UnknownPositionsLast(out: seq<DriverInfo>, i: nat, j: nat)
    requires Sorted(out, SearchOrder)
    requires i < j < |out|
    requires Rank(out[j].position).Some?
    ensures Rank(out[i].position).Some? && Rank(out[i].position).value <= Rank(out[j].position).value
  {
    assert SearchOrder(out[i], out[j]);
  }

  /** The empty query keeps every driver whose two name keys are present. */
  lemma EmptyQueryKeepsAll(d: Driver)
    requires Named(d)
    ensures Kept(Lower(""), d)
  {
  }

  /** A non-empty query keeps a named driver exactly when its lower case occurs in the
      lower-cased given name, family name or "given family". */
  lemma QueryFilter(query: string, d: Driver)
    requires query != "" && Named(d)
    ensures Kept(Lower(query), d) <==>
              || IsSubstring(Lower(query), Lower(d.givenName.value))
              || IsSubstring(Lower(query), Lower(d.familyName.value))
              || IsSubstring(Lower(query), Lower(d.givenName.value + " " + d.familyName.value))
  {
    assert Lower(query) != "" by {
      assert |Lower(query)| == |query|;
    }
  }

  /** A kept driver without a standings entry gets position, points and wins `'0'` and
      no constructor; with one, it gets that entry's fields. */
  lemma StandingsMerge(standings: map<string, StandingInfo>, d: Driver)
    ensures var info := InfoOf(standings, d);
            d.driverId.Some? && d.driverId.value !in standings ==>
              info.position == "0" && info.points == "0" && info.wins == "0" && info.constructorName.None?
    ensures var info := InfoOf(standings, d);
            d.driverId.Some? && d.driverId.value in standings ==>
              var st := standings[d.driverId.value];
              info.position == st.position && info.points == st.points
              && info.wins == st.wins && info.constructorName == st.constructorName
  {
  }

  /** Any driver missing a name key, or a kept driver missing its id, nationality or date
      of birth, empties the whole result. */
  lemma InadmissibleDriverEmpties(drivers: seq<Driver>, standings: map<string, StandingInfo>, query: string, k: nat)
    requires k < |drivers| && !Admissible(Lower(query), drivers[k])
    ensures Collect(Lower(query), standings, drivers).Failure?
  {
  }
}
