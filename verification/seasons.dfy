/** `get_available_years`: the season labels of the seasons endpoint, most recent
    first. A season without a `season` key raises `KeyError`, which the function's
    `except` turns into `[]`. The request is the parameter `response` (what
    `_make_request` returned). */
module Seasons {
  import opened Wrappers
  import opened Text
  import opened Ergast
  import opened Sorting

  /** `[season['season'] for season in seasons]`. */
  function SeasonLabels(seasons: seq<Season>): (r: Result<seq<string>>)
    ensures r.Success? <==> forall i :: 0 <= i < |seasons| ==> seasons[i].season.Some?
    ensures r.Success? ==> |r.value| == |seasons|
    ensures r.Success? ==> forall i :: 0 <= i < |seasons| ==> r.value[i] == seasons[i].season.value
  {
    if |seasons| == 0 then Success([])
    else
      var year :- Need(seasons[0].season);
      var rest :- SeasonLabels(seasons[1..]);
      Success([year] + rest)
  }

  /** Ordering for `sorted(..., reverse=True)` on strings: `a` may precede `b` when `a >= b`. */
  predicate Descending(a: string, b: string) {
    Le(b, a)
  }

  lemma DescendingIsTotalPreorder()
    ensures TotalPreorder(Descending)
  {
    forall a, b
      ensures Descending(a, b) || Descending(b, a)
    {
      LeTotal(a, b);
    }
    forall a, b, c | Descending(a, b) && Descending(b, c)
      ensures Descending(a, c)
    {
      LeTransitive(c, b, a);
    }
  }

  /** `get_available_years`: always in descending string order. When the response
      has a season table whose seasons are all labelled, it holds exactly their labels,
      each as often as it occurs; otherwise it is `[]`. */
  function AvailableYears(response: Option<Payload>): (r: seq<string>)
    ensures forall i, j :: 0 <= i < j < |r| ==> Le(r[j], r[i])
    ensures Envelope(response).None? || Envelope(response).value.seasonTable.None? ==> r == []
    ensures Envelope(response).Some? && Envelope(response).value.seasonTable.Some? ==>
              var seasons := ListOr(Envelope(response).value.seasonTable.value.seasons);
              && (SeasonLabels(seasons).Failure? ==> r == [])
              && (SeasonLabels(seasons).Success? ==> multiset(r) == multiset(SeasonLabels(seasons).value))
  {
    match Envelope(response)
    case None => []
    case Some(mr) =>
      match mr.seasonTable
      case None => []
      case Some(table) =>
        match SeasonLabels(ListOr(table.seasons))
        case Failure(_) => []
        case Success(labels) =>
          DescendingIsTotalPreorder();
          SortSorted(labels, Descending);
          Sort(labels, Descending)
  }

  /** One unlabelled season empties the result. */
  lemma UnlabelledSeasonEmpties(response: Option<Payload>, k: nat)
    requires Envelope(response).Some? && Envelope(response).value.seasonTable.Some?
    requires k < |ListOr(Envelope(response).value.seasonTable.value.seasons)|
    requires ListOr(Envelope(response).value.seasonTable.value.seasons)[k].season.None?
    ensures AvailableYears(response) == []
  {
  }
}
