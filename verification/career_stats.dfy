/** `_get_driver_career_stats`: a fold over the seasons a driver took part in and the
    race results of each, into races, wins, podiums, best finish and first/last season,
    kept in the long-term tier of the cache under `career_stats_<id>`. The seasons
    request is the parameter `seasonsPayload`; the per-season results request is the
    parameter `fetch`, from season year to payload. Wall-clock time is `now` at the
    cache read and `doneAt` at the cache write. */
module CareerStats {
  import opened Wrappers
  import opened Text
  import opened PyInt
  import opened Ergast
  import opened Sorting
  import opened ResponseCache

  datatype Stats = Stats(
    totalRaces: nat,
    totalWins: nat,
    totalPodiums: nat,
    bestFinish: string,
    firstRace: string,
    lastRace: string)

  /** The dictionary returned when an exception is caught. */
  const Zeros: Stats := Stats(0, 0, 0, "N/A", "N/A", "N/A")

  /** The starting value of `best_finish`, and the bound below which it is reported. */
  const NoFinish: int := 999

  function CacheKey(driverId: string): string {
    "career_stats_" + driverId
  }

  predicate IsWin(p: Option<string>) {
    p == Some("1")
  }

  predicate IsPodium(p: Option<string>) {
    p == Some("1") || p == Some("2") || p == Some("3")
  }

  /** `int(position)`, `None` when it raises (`ValueError`, or `TypeError` on a missing key). */
  function Parsed(p: Option<string>): Option<int> {
    if p.Some? then ParseInt(p.value) else None
  }

  /** The `position` of each result, in order. */
  function ResultPositions(results: seq<RaceResult>): (r: seq<Option<string>>)
    ensures |r| == |results|
    ensures forall i :: 0 <= i < |results| ==> r[i] == results[i].position
  {
    seq(|results|, i requires 0 <= i < |results| => results[i].position)
  }

  /** The positions of all results of all races, race by race. */
  function Positions(races: seq<Race>): seq<Option<string>> {
    if |races| == 0 then [] else ResultPositions(ListOr(races[0].results)) + Positions(races[1..])
  }

  /** The loop variables: `total_races`, `total_wins`, `total_podiums`, `best_finish`,
      `first_race`, `last_race`. */
  datatype Tally = Tally(races: nat, wins: nat, podiums: nat, best: int, first: Option<string>, last: Option<string>)

  const Start: Tally := Tally(0, 0, 0, NoFinish, None, None)

  /** `best` is the minimum of `start` and every parsable position in `ps`. */
  ghost predicate MinOver(best: int, start: int, ps: seq<Option<string>>) {
    && best <= start
    && (forall p | p in ps && Parsed(p).Some? :: best <= Parsed(p).value)
    && (best == start || exists p | p in ps :: Parsed(p) == Some(best))
  }

  function CountPosition(t: Tally, p: Option<string>): Tally {
    var best := match Parsed(p)
      case Some(n) => if n < t.best then n else t.best
      case None => t.best;
    t.(wins := t.wins + (if IsWin(p) then 1 else 0),
       podiums := t.podiums + (if IsPodium(p) then 1 else 0),
       best := best)
  }

  /** The inner loops over one season's races and their results. */
  function TallyPositions(t: Tally, ps: seq<Option<string>>): (r: Tally)
    ensures r.races == t.races && r.first == t.first && r.last == t.last
    ensures r.wins == t.wins + |Filter(IsWin, ps)|
    ensures r.podiums == t.podiums + |Filter(IsPodium, ps)|
    ensures MinOver(r.best, t.best, ps)
    decreases |ps|
  {
    if |ps| == 0 then t
    else
      var next := CountPosition(t, ps[0]);
      var r := TallyPositions(next, ps[1..]);
      CountStep(t, ps, r);
      r
  }

  /** Counting the first position and then the rest counts the whole sequence. */
  lemma CountStep(t: Tally, ps: seq<Option<string>>, r: Tally)
    requires |ps| > 0
    requires var next := CountPosition(t, ps[0]);
             && r.wins == next.wins + |Filter(IsWin, ps[1..])|
             && r.podiums == next.podiums + |Filter(IsPodium, ps[1..])|
             && MinOver(r.best, next.best, ps[1..])
    ensures r.wins == t.wins + |Filter(IsWin, ps)|
    ensures r.podiums == t.podiums + |Filter(IsPodium, ps)|
    ensures MinOver(r.best, t.best, ps)
  {
    var next := CountPosition(t, ps[0]);
    assert forall p | p in ps :: p == ps[0] || p in ps[1..];
    if r.best != t.best && r.best != next.best {
      var p :| p in ps[1..] && Parsed(p) == Some(r.best);
      assert p in ps;
    }
  }

  /** One season with races: its race count, its results, and the running first/last
      labels compared as strings. A season without races changes nothing. */
  function AddSeason(t: Tally, year: string, races: seq<Race>): Tally {
    if |races| == 0 then t
    else
      var counted := TallyPositions(t.(races := t.races + |races|), Positions(races));
      counted.(first := if t.first.None? || Lt(year, t.first.value) then Some(year) else t.first,
               last := if t.last.None? || Lt(t.last.value, year) then Some(year) else t.last)
  }

  /** The races of one season's payload: none when the request failed or the payload has
      no `MRData`; `KeyError` when `RaceTable` is missing. */
  function SeasonRaces(payload: Option<Payload>): Result<seq<Race>> {
    match Envelope(payload)
    case None => Success([])
    case Some(mr) =>
      var table :- Need(mr.raceTable);
      Success(ListOr(table.races))
  }

  /** The season loop as written: year, request, races, then the tally. It gives the
      same result as collecting the contributing seasons first and tallying them
      afterwards, and fails exactly when collecting them raises. */
  function TallySeasons(t: Tally, seasons: seq<Season>, fetch: string -> Option<Payload>): (r: Result<Tally>)
    ensures r.Success? <==> Contributing(seasons, fetch).Success?
    ensures r.Success? ==> r.value == TallyPlayed(t, Contributing(seasons, fetch).value)
    decreases |seasons|
  {
    if |seasons| == 0 then Success(t)
    else
      var year :- Need(seasons[0].season);
      var races :- SeasonRaces(fetch(year));
      TallySeasons(AddSeason(t, year, races), seasons[1..], fetch)
  }

  /** A season's label and the races its request returned. */
  function Labelled(s: Season, fetch: string -> Option<Payload>): (string, seq<Race>) {
    (s.season.GetOr(""), SeasonRaces(fetch(s.season.GetOr(""))).GetOr([]))
  }

  /** The seasons that contribute — year and races of every season with at least one
      race — or the `KeyError` the season loop raises. */
  function Contributing(seasons: seq<Season>, fetch: string -> Option<Payload>): (r: Result<seq<(string, seq<Race>)>>)
    ensures r.Success? ==> forall e | e in r.value :: |e.1| > 0
    ensures r.Success? <==> forall i :: 0 <= i < |seasons| ==>
              seasons[i].season.Some? && SeasonRaces(fetch(seasons[i].season.value)).Success?
    ensures r.Success? ==>
              r.value == Filter((e: (string, seq<Race>)) => |e.1| > 0, Map((s: Season) => Labelled(s, fetch), seasons))
  {
    if |seasons| == 0 then Success([])
    else
      var year :- Need(seasons[0].season);
      var races :- SeasonRaces(fetch(year));
      var rest :- Contributing(seasons[1..], fetch);
      Success(if |races| == 0 then rest else [(year, races)] + rest)
  }

  function TallyPlayed(t: Tally, played: seq<(string, seq<Race>)>): Tally
    decreases |played|
  {
    if |played| == 0 then t else TallyPlayed(AddSeason(t, played[0].0, played[0].1), played[1..])
  }

  function RaceCount(played: seq<(string, seq<Race>)>): nat {
    if |played| == 0 then 0 else |played[0].1| + RaceCount(played[1..])
  }

  function AllPositions(played: seq<(string, seq<Race>)>): seq<Option<string>> {
    if |played| == 0 then [] else Positions(played[0].1) + AllPositions(played[1..])
  }

  /** `first` is the least of `start` and every year in `played`. */
  ghost predicate FirstOf(first: Option<string>, start: Option<string>, played: seq<(string, seq<Race>)>) {
    && (first.Some? <==> start.Some? || |played| > 0)
    && (first.Some? ==>
          && (start.Some? ==> Le(first.value, start.value))
          && (forall e | e in played :: Le(first.value, e.0))
          && (first == start || exists e | e in played :: first.value == e.0))
  }

  /** `last` is the greatest of `start` and every year in `played`. */
  ghost predicate LastOf(last: Option<string>, start: Option<string>, played: seq<(string, seq<Race>)>) {
    && (last.Some? <==> start.Some? || |played| > 0)
    && (last.Some? ==>
          && (start.Some? ==> Le(start.value, last.value))
          && (forall e | e in played :: Le(e.0, last.value))
          && (last == start || exists e | e in played :: last.value == e.0))
  }

  /** What the fold computes from the contributing seasons. */
  ghost predicate Summarises(r: Tally, t: Tally, played: seq<(string, seq<Race>)>) {
    && r.races == t.races + RaceCount(played)
    && r.wins == t.wins + |Filter(IsWin, AllPositions(played))|
    && r.podiums == t.podiums + |Filter(IsPodium, AllPositions(played))|
    && MinOver(r.best, t.best, AllPositions(played))
    && FirstOf(r.first, t.first, played)
    && LastOf(r.last, t.last, played)
  }

  lemma {:induction false} MinOverChain(best: int, mid: int, start: int, a: seq<Option<string>>, b: seq<Option<string>>)
    requires MinOver(mid, start, a) && MinOver(best, mid, b)
    ensures MinOver(best, start, a + b)
  {
    forall p | p in a + b && Parsed(p).Some?
      ensures best <= Parsed(p).value
    {
      if p in a {
        assert mid <= Parsed(p).value;
      } else {
        assert p in b;
      }
    }
    if best != start {
      if best == mid {
        var p :| p in a && Parsed(p) == Some(best);
        assert p in a + b;
      } else {
        var p :| p in b && Parsed(p) == Some(best);
        assert p in a + b;
      }
    }
  }

  lemma {:induction false} FirstChain(first: Option<string>, t: Tally, year: string, races: seq<Race>, rest: seq<(string, seq<Race>)>)
    requires |races| > 0
    requires FirstOf(first, AddSeason(t, year, races).first, rest)
    ensures FirstOf(first, t.first, [(year, races)] + rest)
  {
    var played := [(year, races)] + rest;
    var mid := AddSeason(t, year, races).first;
    assert mid.Some?;
    LeReflexive(mid.value);
    assert Le(mid.value, year) by {
      if mid.value != year {
        LeTotal(year, t.first.value);
      }
    }
    assert t.first.Some? ==> Le(mid.value, t.first.value) by {
      if t.first.Some? {
        LeReflexive(t.first.value);
        LeTotal(year, t.first.value);
      }
    }
    LeTransitive(first.value, mid.value, year);
    if t.first.Some? {
      LeTransitive(first.value, mid.value, t.first.value);
    }
    forall e | e in played
      ensures Le(first.value, e.0)
    {
      if e !in rest {
        assert e == (year, races);
      }
    }
    if first != t.first {
      if first == mid {
        assert mid == Some(year);
        assert (year, races) in played;
      } else {
        var e :| e in rest && first.value == e.0;
        assert e in played;
      }
    }
  }

  lemma {:induction false} LastChain(last: Option<string>, t: Tally, year: string, races: seq<Race>, rest: seq<(string, seq<Race>)>)
    requires |races| > 0
    requires LastOf(last, AddSeason(t, year, races).last, rest)
    ensures LastOf(last, t.last, [(year, races)] + rest)
  {
    var played := [(year, races)] + rest;
    var mid := AddSeason(t, year, races).last;
    assert mid.Some?;
    LeReflexive(mid.value);
    assert Le(year, mid.value) by {
      if mid.value != year {
        LeTotal(year, t.last.value);
      }
    }
    assert t.last.Some? ==> Le(t.last.value, mid.value) by {
      if t.last.Some? {
        LeReflexive(t.last.value);
        LeTotal(year, t.last.value);
      }
    }
    LeTransitive(year, mid.value, last.value);
    if t.last.Some? {
      LeTransitive(t.last.value, mid.value, last.value);
    }
    forall e | e in played
      ensures Le(e.0, last.value)
    {
      if e !in rest {
        assert e == (year, races);
      }
    }
    if last != t.last {
      if last == mid {
        assert mid == Some(year);
        assert (year, races) in played;
      } else {
        var e :| e in rest && last.value == e.0;
        assert e in played;
      }
    }
  }

  /** Tallying the contributing seasons yields the race count, the win and podium counts
      over all their results, the least parsable position, and the least and greatest
      season labels. */
  lemma {:induction false} PlayedSummary(t: Tally, played: seq<(string, seq<Race>)>)
    requires forall e | e in played :: |e.1| > 0
    ensures Summarises(TallyPlayed(t, played), t, played)
    decreases |played|
  {
    if |played| == 0 {
      if t.first.Some? {
        LeReflexive(t.first.value);
      }
      if t.last.Some? {
        LeReflexive(t.last.value);
      }
    } else {
      var (year, races) := played[0];
      var rest := played[1..];
      assert played == [(year, races)] + rest;
      assert forall e | e in rest :: e in played;
      var mid := AddSeason(t, year, races);
      var r := TallyPlayed(mid, rest);
      PlayedSummary(mid, rest);
      FilterAppend(IsWin, Positions(races), AllPositions(rest));
      FilterAppend(IsPodium, Positions(races), AllPositions(rest));
      MinOverChain(r.best, mid.best, t.best, Positions(races), AllPositions(rest));
      FirstChain(r.first, t, year, races, rest);
      LastChain(r.last, t, year, races, rest);
    }
  }

  /** The dictionary built after the loop: the counts as they are, `'N/A'` for a best
      finish of 999 or more, and no empty label. */
  function Finalize(t: Tally): (r: Stats)
    ensures r.totalRaces == t.races && r.totalWins == t.wins && r.totalPodiums == t.podiums
    ensures r.bestFinish == "N/A" <==> t.best >= NoFinish
    ensures t.best < NoFinish ==> ParseInt(r.bestFinish) == Some(t.best)
    ensures r.firstRace != "" && r.lastRace != ""
  {
    DecimalRoundTrip(t.best);
    NotApplicableIsNotDecimal(t.best);
    Stats(t.races, t.wins, t.podiums,
          if t.best < NoFinish then Decimal(t.best) else "N/A",
          if t.first.Some? && t.first.value != "" then t.first.value else "N/A",
          if t.last.Some? && t.last.value != "" then t.last.value else "N/A")
  }

  /** What the function returns and the cache left behind. */
  datatype Outcome = Outcome(stats: Option<Stats>, store: Store<Stats>)

  function DriverCareerStats(driverId: string, store: Store<Stats>, now: real, seasonsPayload: Option<Payload>,
                             fetch: string -> Option<Payload>, doneAt: real): (r: Outcome)
    ensures Fresh(store, CacheKey(driverId), true, now) ==> r == Outcome(Some(store[CacheKey(driverId)].value), store)
    ensures !Fresh(store, CacheKey(driverId), true, now) ==>
              r.store == store - {CacheKey(driverId)} || (r.stats.Some? && r.store == (store - {CacheKey(driverId)})[CacheKey(driverId) := Entry(doneAt, r.stats.value)])
    ensures !Fresh(store, CacheKey(driverId), true, now) && Envelope(seasonsPayload).None? ==>
              r == Outcome(None, store - {CacheKey(driverId)})
    ensures !Fresh(store, CacheKey(driverId), true, now) && Envelope(seasonsPayload).Some?
            && Envelope(seasonsPayload).value.seasonTable.None? ==>
              r == Outcome(Some(Zeros), store - {CacheKey(driverId)})
    ensures !Fresh(store, CacheKey(driverId), true, now) && Envelope(seasonsPayload).Some?
            && Envelope(seasonsPayload).value.seasonTable.Some? && !HasSeasons(seasonsPayload) ==>
              r == Outcome(None, store - {CacheKey(driverId)})
    ensures !Fresh(store, CacheKey(driverId), true, now) && HasSeasons(seasonsPayload)
            && TallySeasons(Start, SeasonsOf(seasonsPayload), fetch).Failure? ==>
              r == Outcome(Some(Zeros), store - {CacheKey(driverId)})
  {
    var key := CacheKey(driverId);
    var lookup := Get(store, key, true, now);
    if lookup.hit.Some? then Outcome(lookup.hit, lookup.store)
    else match Envelope(seasonsPayload)
      case None => Outcome(None, lookup.store)
      case Some(mr) =>
        match mr.seasonTable
        case None => Outcome(Some(Zeros), lookup.store)
        case Some(table) =>
          var seasons := ListOr(table.seasons);
          if |seasons| == 0 then Outcome(None, lookup.store)
          else match TallySeasons(Start, seasons, fetch)
            case Failure(_) => Outcome(Some(Zeros), lookup.store)
            case Success(t) =>
              var stats := Finalize(t);
              Outcome(Some(stats), Set(lookup.store, key, stats, true, doneAt))
  }

  /** The seasons list the computation runs over: present, with a season table and at
      least one season. */
  predicate HasSeasons(seasonsPayload: Option<Payload>) {
    && Envelope(seasonsPayload).Some?
    && Envelope(seasonsPayload).value.seasonTable.Some?
    && |ListOr(Envelope(seasonsPayload).value.seasonTable.value.seasons)| > 0
  }

  function SeasonsOf(seasonsPayload: Option<Payload>): seq<Season>
    requires HasSeasons(seasonsPayload)
  {
    ListOr(Envelope(seasonsPayload).value.seasonTable.value.seasons)
  }

  /** The dictionary reports the contributing seasons: their race count, wins and
      podiums among all their results (never more wins than podiums), the least parsable
      position as a decimal string that parses back to it when it is below 999 and
      `'N/A'` otherwise, and the least and greatest contributing labels, each read as
      `'N/A'` when there is no contributing season or that label is `""`. */
  ghost predicate Reports(s: Stats, played: seq<(string, seq<Race>)>) {
    var ps := AllPositions(played);
    && s.totalRaces == RaceCount(played)
    && s.totalWins == |Filter(IsWin, ps)|
    && s.totalPodiums == |Filter(IsPodium, ps)|
    && s.totalWins <= s.totalPodiums
    && (s.bestFinish == "N/A" <==> forall p | p in ps && Parsed(p).Some? :: Parsed(p).value >= NoFinish)
    && (s.bestFinish != "N/A" ==>
          var best := ParseInt(s.bestFinish);
          && best.Some?
          && (exists p | p in ps :: Parsed(p) == best)
          && (forall p | p in ps && Parsed(p).Some? :: best.value <= Parsed(p).value))
    && (played == [] || (exists e | e in played :: e.0 == "") ==> s.firstRace == "N/A")
    && (played != [] && (forall e | e in played :: e.0 != "") ==>
          && (exists e | e in played :: e.0 == s.firstRace)
          && (forall e | e in played :: Le(s.firstRace, e.0)))
    && ((forall e | e in played :: e.0 == "") ==> s.lastRace == "N/A")
    && ((exists e | e in played :: e.0 != "") ==>
          && (exists e | e in played :: e.0 == s.lastRace)
          && (forall e | e in played :: Le(e.0, s.lastRace)))
  }

  lemma FinalizeReports(t: Tally, played: seq<(string, seq<Race>)>)
    requires Summarises(t, Start, played)
    ensures Reports(Finalize(t), played)
  {
    WinsWithinPodiums(AllPositions(played));
  }

  /** On a cache miss with seasons whose loop raises nothing, the result reports the
      contributing seasons and is then in the long-term cache. */
  lemma ComputedStats(driverId: string, store: Store<Stats>, now: real, seasonsPayload: Option<Payload>,
                      fetch: string -> Option<Payload>, doneAt: real)
    requires !Fresh(store, CacheKey(driverId), true, now)
    requires HasSeasons(seasonsPayload)
    requires Contributing(SeasonsOf(seasonsPayload), fetch).Success?
    ensures var r := DriverCareerStats(driverId, store, now, seasonsPayload, fetch, doneAt);
            && r.stats.Some?
            && Reports(r.stats.value, Contributing(SeasonsOf(seasonsPayload), fetch).value)
            && Get(r.store, CacheKey(driverId), true, doneAt).hit == r.stats
  {
    var seasons := SeasonsOf(seasonsPayload);
    var played := Contributing(seasons, fetch).value;
    PlayedSummary(Start, played);
    FinalizeReports(TallyPlayed(Start, played), played);
  }

  /** Every win is a podium. */
  lemma {:induction false} WinsWithinPodiums(ps: seq<Option<string>>)
    ensures |Filter(IsWin, ps)| <= |Filter(IsPodium, ps)|
  {
    if |ps| > 0 {
      WinsWithinPodiums(ps[1..]);
    }
  }

  /** `str(n)` never reads `'N/A'`: its last character is a digit. */
  lemma NotApplicableIsNotDecimal(n: int)
    ensures Decimal(n) != "N/A"
  {
    var m: nat := if n < 0 then -n else n;
    var d := NatDecimal(m);
    assert Decimal(n)[|Decimal(n)| - 1] == d[|d| - 1];
  }

  /** A loop that raises (a season without a year, or a season payload without a race
      table) yields the zero dictionary and caches nothing. */
  lemma RaisingLoopYieldsZeros(driverId: string, store: Store<Stats>, now: real, seasonsPayload: Option<Payload>,
                               fetch: string -> Option<Payload>, doneAt: real)
    requires !Fresh(store, CacheKey(driverId), true, now)
    requires HasSeasons(seasonsPayload)
    requires Contributing(SeasonsOf(seasonsPayload), fetch).Failure?
    ensures var r := DriverCareerStats(driverId, store, now, seasonsPayload, fetch, doneAt);
            r.stats == Some(Zeros) && CacheKey(driverId) !in r.store
  {
  }
}
