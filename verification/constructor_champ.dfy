/** `constructorStandings.get_constructor_standings`: project the first standings list
    of a constructor-standings response into flat rows, skipping every entry that lacks
    a required key or whose processing raises, and keeping its siblings. The HTTP call
    is the parameter `response`: `None` when `requests` raised (network error, HTTP
    error status, undecodable body). */
module ConstructorChamp {
  import opened Wrappers
  import opened Ergast
  import opened Sorting

  datatype Row = Row(position: string, points: string, constructorName: string, wins: string)

  /** The entry has the four keys the loop checks for. */
  predicate HasKeys(c: ConstructorStanding) {
    c.position.Some? && c.points.Some? && c.constructorNode.Some? && c.wins.Some?
  }

  /** The entry reaches the output: it has the four keys and building its row does not raise. */
  predicate Accepted(c: ConstructorStanding) {
    HasKeys(c) && c.constructorNode.value.AsObject?
  }

  /** The row built for an entry, with the source's `.get` defaults. */
  function RowOf(c: ConstructorStanding): Row {
    var name := match c.constructorNode
      case Some(AsObject(n)) => n.GetOr("Unknown")
      case _ => "Unknown";
    Row(c.position.GetOr("N/A"), c.points.GetOr("0"), name, c.wins.GetOr("0"))
  }

  /** The loop over `ConstructorStandings`: one row per accepted entry, in input order. */
  function Rows(entries: seq<ConstructorStanding>): (r: seq<Row>)
    ensures r == Map(RowOf, Filter(Accepted, entries))
  {
    if |entries| == 0 then []
    else
      var c := entries[0];
      var rest := Rows(entries[1..]);
      if !HasKeys(c) then rest
      else
        match c.constructorNode.value
        case NotAnObject => rest
        case AsObject(name) => [Row(c.position.value, c.points.value, name.GetOr("Unknown"), c.wins.value)] + rest
  }

  /** The entries the loop walks: the first standings list's `ConstructorStandings`,
      or none when the request failed, the body has no `MRData`, or there is no
      standings list. */
  function ConstructorEntries(response: Option<Payload>): seq<ConstructorStanding> {
    match response
    case None => []
    case Some(data) =>
      match data.mrData
      case None => []
      case Some(mr) =>
        var lists := match mr.standingsTable
          case Some(t) => ListOr(t.standingsLists)
          case None => [];
        if |lists| == 0 then [] else ListOr(lists[0].constructorStandings)
  }

  /** `get_constructor_standings`: the rows of exactly the accepted entries of the list
      it walks, in order, and so never more rows than entries. */
  function GetConstructorStandings(response: Option<Payload>): (r: seq<Row>)
    ensures r == Map(RowOf, Filter(Accepted, ConstructorEntries(response)))
    ensures |r| <= |ConstructorEntries(response)|
  {
    Rows(ConstructorEntries(response))
  }

  /** Rows of a concatenation are the concatenation of rows: input order is kept. */
  lemma RowsAppend(a: seq<ConstructorStanding>, b: seq<ConstructorStanding>)
    ensures Rows(a + b) == Rows(a) + Rows(b)
  {
    FilterAppend(Accepted, a, b);
    MapAppend(RowOf, Filter(Accepted, a), Filter(Accepted, b));
  }

  /** A malformed entry anywhere in the list is skipped without affecting its siblings. */
  lemma BadEntrySkipped(a: seq<ConstructorStanding>, bad: ConstructorStanding, b: seq<ConstructorStanding>)
    requires !Accepted(bad)
    ensures Rows(a + [bad] + b) == Rows(a + b)
  {
    assert Rows([bad]) == [] by {
      assert [bad][1..] == [];
    }
    RowsAppend(a, [bad]);
    RowsAppend(a + [bad], b);
    RowsAppend(a, b);
  }

  /** Each row copies its entry's position, points and wins, and names the constructor
      (or `Unknown` when the constructor object has no name). */
  lemma RowContents(entries: seq<ConstructorStanding>, k: nat)
    requires k < |Rows(entries)|
    ensures exists i :: 0 <= i < |entries| && Accepted(entries[i])
              && Rows(entries)[k] == Row(entries[i].position.value, entries[i].points.value,
                                         entries[i].constructorNode.value.name.GetOr("Unknown"),
                                         entries[i].wins.value)
  {
    var kept := Filter(Accepted, entries);
    var c := kept[k];
    assert c in entries;
    var i :| 0 <= i < |entries| && entries[i] == c;
  }

  /** No more rows than entries. */
  lemma RowsBounded(entries: seq<ConstructorStanding>)
    ensures |Rows(entries)| <= |entries|
  {
  }

  /** A failed request, a body without `MRData`, or no standings lists gives `[]`;
      only the first standings list is read. */
  lemma EmptyCases(response: Option<Payload>, mr: MRData, t: StandingsTable, first: StandingsList, more: seq<StandingsList>)
    ensures GetConstructorStandings(None) == []
    ensures response.Some? && response.value.mrData.None? ==> GetConstructorStandings(response) == []
    ensures GetConstructorStandings(Some(Payload(Some(mr.(standingsTable := None)), false))) == []
    ensures GetConstructorStandings(Some(Payload(Some(mr.(standingsTable := Some(StandingsTable(Some([]))))), false))) == []
    ensures GetConstructorStandings(Some(Payload(Some(mr.(standingsTable := Some(StandingsTable(Some([first] + more))))), false)))
            == Rows(ListOr(first.constructorStandings))
  {
  }
}
