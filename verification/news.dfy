/** The news service: construction-time API-key check, the process-wide singleton, the
    domain selection for a query from comma-separated source ids, the shape of the
    news outcome, and the fixed source list. The environment variable is the parameter
    `env`; the third-party client's search call is the parameter `api`; the date thirty
    days back is the parameter `fromDate`. */
module News {
  import opened Wrappers
  import opened Text
  import opened PyInt
  import opened Sorting

  /** The source id → domain map, in its literal order. */
  function DomainOf(id: string): Option<string> {
    match id
    case "formula1" => Some("formula1.com")
    case "motorsport" => Some("motorsport.com")
    case "racefans" => Some("racefans.net")
    case "crash" => Some("crash.net")
    case "therace" => Some("the-race.com")
    case "gpfans" => Some("gpfans.com")
    case _ => None
  }

  const SourceIds: seq<string> := ["formula1", "motorsport", "racefans", "crash", "therace", "gpfans"]

  const DomainList: seq<string> := ["formula1.com", "motorsport.com", "racefans.net", "crash.net", "the-race.com", "gpfans.com"]

  /** The default domain string,
      `formula1.com,motorsport.com,racefans.net,crash.net,the-race.com,gpfans.com`:
      the six domains joined with commas. */
  const F1Domains: string := Join(DomainList, ',')

  /** The map's keys are exactly the six source ids, and its values exactly the six
      default domains, in the same order. */
  lemma DomainMapShape(id: string)
    ensures DomainOf(id).Some? <==> id in SourceIds
    ensures DomainOf(id).Some? ==> DomainOf(id).value in DomainList
    ensures forall i :: 0 <= i < |SourceIds| ==> DomainOf(SourceIds[i]) == Some(DomainList[i])
  {
  }

  predicate Known(id: string) {
    DomainOf(id).Some?
  }

  function DomainFor(id: string): string {
    DomainOf(id).GetOr("")
  }

  /** `[source_domain_map[s] for s in ids if s in source_domain_map]`. */
  function Selected(ids: seq<string>): (r: seq<string>)
    ensures r == Map(DomainFor, Filter(Known, ids))
    ensures forall i :: 0 <= i < |r| ==> r[i] in DomainList
  {
    if |ids| == 0 then []
    else if Known(ids[0]) then [DomainFor(ids[0])] + Selected(ids[1..])
    else Selected(ids[1..])
  }

  /** `if sources:` */
  predicate SourcesGiven(sources: Option<string>) {
    sources.Some? && sources.value != ""
  }

  /** The `domains` argument of the query. */
  function SelectDomains(sources: Option<string>): (r: string)
    ensures !SourcesGiven(sources) ==> r == F1Domains
    ensures SourcesGiven(sources) && |Selected(Split(sources.value, ','))| == 0 ==> r == F1Domains
    ensures SourcesGiven(sources) && |Selected(Split(sources.value, ','))| > 0 ==>
              r == Join(Selected(Split(sources.value, ',')), ',')
  {
    if SourcesGiven(sources) then
      var selected := Selected(Split(sources.value, ','));
      if |selected| > 0 then Join(selected, ',') else F1Domains
    else F1Domains
  }

  lemma NoCommaInDomains()
    ensures forall i :: 0 <= i < |DomainList| ==> ',' !in DomainList[i]
  {
  }

  /** Whatever the sources, every comma-separated domain of the query is one of the six
      defaults; with recognised ids they are those ids' domains, in order, duplicates
      kept. */
  lemma {:induction false} DomainsAlwaysKnown(sources: Option<string>)
    ensures var parts := Split(SelectDomains(sources), ',');
            forall i :: 0 <= i < |parts| ==> parts[i] in DomainList
    ensures SourcesGiven(sources) && |Selected(Split(sources.value, ','))| > 0 ==>
              Split(SelectDomains(sources), ',') == Map(DomainFor, Filter(Known, Split(sources.value, ',')))
  {
    NoCommaInDomains();
    var r := SelectDomains(sources);
    if SourcesGiven(sources) && |Selected(Split(sources.value, ','))| > 0 {
      var selected := Selected(Split(sources.value, ','));
      SplitJoin(selected, ',');
    } else {
      SplitJoin(DomainList, ',');
    }
  }

  /** What the client's search is called with. */
  datatype Query = Query(q: string, domains: string, language: string, fromDate: string,
                         sortBy: string, pageSize: int, page: int)

  const SearchText: string := "Formula 1 OR Formula One OR F1"

  /** The client's reply: a response whose `articles` key may be missing, or an exception
      with its message. */
  datatype ApiReply<A> = Replied(articles: Option<seq<A>>) | Errored(message: string)

  /** `page` as passed by the caller: a number, or text for `int()` to parse. */
  datatype PageArg = PageNumber(n: int) | PageText(text: string)

  function PageOf(page: PageArg): Option<int> {
    match page
    case PageNumber(n) => Some(n)
    case PageText(t) => ParseInt(t)
  }

  datatype NewsOutcome<A> = NewsSuccess(articles: seq<A>) | NewsError(message: string)

  /** `int()`'s message for text it cannot parse. */
  function BadPageMessage(text: string): string {
    "invalid literal for int() with base 10: '" + text + "'"
  }

  /** `get_f1_news`: never raises; a success carries the reply's articles (`[]` when the
      key is missing), an error carries the exception's message. */
  function GetF1News<A>(sources: Option<string>, pageSize: int, page: PageArg, fromDate: string,
                        api: Query -> ApiReply<A>): (r: NewsOutcome<A>)
    ensures PageOf(page).None? ==> r.NewsError?
    ensures PageOf(page).Some? ==>
              var reply := api(Query(SearchText, SelectDomains(sources), "en", fromDate, "publishedAt", pageSize, PageOf(page).value));
              && (r.NewsSuccess? <==> reply.Replied?)
              && (r.NewsSuccess? ==> r.articles == reply.articles.GetOr([]))
              && (r.NewsError? ==> r.message == reply.message)
  {
    var domains := SelectDomains(sources);
    match PageOf(page)
    case None => NewsError(BadPageMessage(page.text))
    case Some(p) =>
      match api(Query(SearchText, domains, "en", fromDate, "publishedAt", pageSize, p))
      case Errored(m) => NewsError(m)
      case Replied(articles) => NewsSuccess(articles.GetOr([]))
  }

  /** The constructed service keeps the key it was given. */
  datatype NewsService = NewsService(apiKey: string)

  const MissingKeyMessage: string := "NEWS_API_KEY not found in environment variables"

  /** `NewsService()`: `ValueError` when the variable is unset or empty. */
  function NewService(env: Option<string>): (r: Result<NewsService>)
    ensures r.Failure? <==> env.None? || env.value == ""
    ensures r.Failure? ==> r.error == ValueError
    ensures r.Success? ==> r.value.apiKey == env.value
  {
    if env.None? || env.value == "" then Failure(ValueError)
    else Success(NewsService(env.value))
  }

  /** A call to `get_news_service`: what it returns, and the module-level slot after it. */
  datatype Access = Access(result: Result<NewsService>, slot: Option<NewsService>)

  function GetNewsService(slot: Option<NewsService>, env: Option<string>): (r: Access)
    ensures slot.Some? ==> r == Access(Success(slot.value), slot)
    ensures slot.None? ==> r.result == NewService(env)
    ensures r.result.Success? ==> r.slot == Some(r.result.value)
    ensures r.result.Failure? ==> r.slot == slot
  {
    if slot.Some? then Access(Success(slot.value), slot)
    else match NewService(env)
      case Success(s) => Access(Success(s), Some(s))
      case Failure(e) => Access(Failure(e), slot)
  }

  /** The results of successive calls, the environment read by each given in `envs`. */
  function Accesses(slot: Option<NewsService>, envs: seq<Option<string>>): (r: seq<Result<NewsService>>)
    ensures |r| == |envs|
    decreases |envs|
  {
    if |envs| == 0 then []
    else
      var a := GetNewsService(slot, envs[0]);
      [a.result] + Accesses(a.slot, envs[1..])
  }

  /** The service is constructed at most once: every successful call returns the same
      instance, which is the one in the slot if there was one. */
  lemma {:induction false} SingletonReturnsOneInstance(slot: Option<NewsService>, envs: seq<Option<string>>, i: nat, j: nat)
    requires i < |envs| && j < |envs|
    requires Accesses(slot, envs)[i].Success? && Accesses(slot, envs)[j].Success?
    ensures Accesses(slot, envs)[i].value == Accesses(slot, envs)[j].value
    ensures slot.Some? ==> Accesses(slot, envs)[i].value == slot.value
    decreases |envs|
  {
    var a := GetNewsService(slot, envs[0]);
    var rs := Accesses(slot, envs);
    assert rs[1..] == Accesses(a.slot, envs[1..]);
    if i > 0 && j > 0 {
      SingletonReturnsOneInstance(a.slot, envs[1..], i - 1, j - 1);
    } else if i > 0 {
      SingletonReturnsOneInstance(a.slot, envs[1..], i - 1, i - 1);
    } else if j > 0 {
      SingletonReturnsOneInstance(a.slot, envs[1..], j - 1, j - 1);
    }
  }

  datatype Source = Source(id: string, name: string)

  const Sources: seq<Source> := [
    Source("formula1", "Formula1.com"),
    Source("motorsport", "Motorsport.com"),
    Source("racefans", "RaceFans.net"),
    Source("crash", "Crash.net"),
    Source("therace", "The Race"),
    Source("gpfans", "GPFans")
  ]

  function SourceId(s: Source): string {
    s.id
  }

  /** `get_available_sources`: always a success with the six fixed sources. */
  function GetAvailableSources(): (r: seq<Source>)
    ensures |r| == 6
    ensures Map(SourceId, r) == SourceIds
    ensures forall i :: 0 <= i < |r| ==> Known(r[i].id)
  {
    Sources
  }
}
