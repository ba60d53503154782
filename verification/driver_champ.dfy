/** `driverStandings.get_driver_standings`: project the first standings list of a
    driver-standings response into flat rows. Unlike the constructor projection it is
    all-or-nothing: any missing key, or an empty `Constructors` list, anywhere in the
    path or in any entry raises, and the caught exception turns the whole result
    into `[]`. The HTTP call is the parameter `response`. */
module DriverChamp {
  import opened Wrappers
  import opened Ergast

  datatype Row = Row(position: string, points: string, driver: string, constructorName: string)

  /** Every key the row comprehension reads is present, and `Constructors` is non-empty. */
  predicate Complete(item: DriverStanding) {
    && item.position.Some?
    && item.points.Some?
    && item.driver.Some?
    && item.driver.value.givenName.Some?
    && item.driver.value.familyName.Some?
    && item.constructors.Some?
    && |item.constructors.value| > 0
    && item.constructors.value[0].name.Some?
  }

  function EntryRow(item: DriverStanding): (r: Result<Row>)
    ensures r.Success? <==> Complete(item)
    ensures r.Success? ==>
              && r.value.position == item.position.value
              && r.value.points == item.points.value
              && r.value.driver == item.driver.value.givenName.value + " " + item.driver.value.familyName.value
              && r.value.constructorName == item.constructors.value[0].name.value
  {
    var position :- Need(item.position);
    var points :- Need(item.points);
    var driver :- Need(item.driver);
    var given :- Need(driver.givenName);
    var family :- Need(driver.familyName);
    var constructors :- Need(item.constructors);
    if |constructors| == 0 then Failure(IndexError)
    else
      var name :- Need(constructors[0].name);
      Success(Row(position, points, given + " " + family, name))
  }

  /** The list comprehension: one row per entry, or the first exception raised. */
  function AllRows(items: seq<DriverStanding>): (r: Result<seq<Row>>)
    ensures r.Success? <==> forall i :: 0 <= i < |items| ==> Complete(items[i])
    ensures r.Success? ==> |r.value| == |items|
    ensures r.Success? ==> forall i :: 0 <= i < |items| ==> r.value[i] == EntryRow(items[i]).value
  {
    if |items| == 0 then Success([])
    else
      var row :- EntryRow(items[0]);
      var rest :- AllRows(items[1..]);
      Success([row] + rest)
  }

  /** `data['MRData']['StandingsTable']['StandingsLists'][0]['DriverStandings']`. */
  function StandingsPath(data: Payload): Result<seq<DriverStanding>> {
    var mr :- Need(data.mrData);
    var table :- Need(mr.standingsTable);
    var lists :- Need(table.standingsLists);
    if |lists| == 0 then Failure(IndexError)
    else Need(lists[0].driverStandings)
  }

  /** `get_driver_standings`: `[]` when the request failed, the path is missing or any
      entry is incomplete; otherwise one row per entry, in order, copying position and
      points, naming the driver "given family" and the first constructor. */
  function GetDriverStandings(response: Option<Payload>): (r: seq<Row>)
    ensures response.None? || StandingsPath(response.value).Failure? ==> r == []
    ensures response.Some? && StandingsPath(response.value).Success? ==>
              var items := StandingsPath(response.value).value;
              && ((exists i :: 0 <= i < |items| && !Complete(items[i])) ==> r == [])
              && ((forall i :: 0 <= i < |items| ==> Complete(items[i])) ==>
                    && |r| == |items|
                    && forall i :: 0 <= i < |items| ==>
                         && r[i].position == items[i].position.value
                         && r[i].points == items[i].points.value
                         && r[i].driver == items[i].driver.value.givenName.value + " " + items[i].driver.value.familyName.value
                         && r[i].constructorName == items[i].constructors.value[0].name.value)
  {
    match response
    case None => []
    case Some(data) =>
      match StandingsPath(data)
      case Failure(_) => []
      case Success(items) => AllRows(items).GetOr([])
  }
}
