# F1 dashboard services — a Dafny model

This project models the data handling at the core of a Flask dashboard for Formula 1
statistics and news. The model covers the following:

- **Statistics client** (`app/services/jolpica.py`):
  - an in-process response cache with a one-hour and a 24-hour tier;
  - a request helper with retries that caches its successes;
  - the season list, sorted most recent first;
  - the three-letter driver code;
  - the driver search: a substring filter, a merge with the season's standings, and an ordering that puts unknown positions last;
  - the driver profile, with its previous/next neighbours in the standings and the career-statistics placeholder;
  - the career-statistics fold over seasons and race results;
  - the country-name → flag-code table.
- **Championship projections**:
  - constructor standings, which skip bad entries one at a time (`app/services/constructorChamp.py`);
  - driver standings, which are all-or-nothing (`app/services/driverChamp.py`).
- **News service** (`app/services/news.py`): the API-key check, the singleton accessor, domain selection from source ids, the outcome shape and the fixed source list.
- **Input validators** (`app/utils/validators.py`): password, email, username, and sanitising.

JSON payloads are typed records in which every key the code reads is an `Option`. Leaf values are strings.

A Python exception raised inside a function is a `Result.Failure`. The function's broad `except` then turns it into `[]`, `None` or the zero dictionary.

Some inputs are parameters instead of effects:

- `now`: the wall clock at a cache read;
- `doneAt`: the wall clock at a cache write;
- `network`: the outcome of each request attempt;
- `clock`: the time at which each attempt finished;
- `fetch`: the payload of a per-season request;
- `env`: the environment variable;
- `api`: the news client's search call.

Python's `int()` is modelled exactly for ASCII digits, and the model proves that it undoes `str()`. That covers surrounding whitespace, a sign, and single underscores between digits.

Sorting is a stable insertion sort over a total preorder. It is proved to return a sorted permutation of its input.

Modules:

| file | module | models |
|---|---|---|
| wrappers.dfy | Wrappers | `Option`, `Result`, the exception kinds |
| text.dfy | Text | ASCII classes, `lower`/`upper`, `in`, string `<=`, `strip`, `split`/`join` |
| pyint.dfy | PyInt | `int(s)` and `str(n)` |
| sorting.dfy | Sorting | `sorted`, list comprehensions as `Filter`/`Map` |
| ergast.dfy | Ergast | the response records |
| cache.dfy | ResponseCache | `_get_cache`, `_set_cache` |
| fetch.dfy | Fetch | `_make_request` |
| seasons.dfy | Seasons | `get_available_years` |
| driver_code.dfy | DriverCode | `_generate_driver_code` |
| driver_search.dfy | DriverSearch | `search_drivers` |
| driver_profile.dfy | DriverProfile | `get_driver_profile` |
| career_stats.dfy | CareerStats | `_get_driver_career_stats` |
| countries.dfy | Countries | `get_country_code` |
| constructor_champ.dfy | ConstructorChamp | `get_constructor_standings` |
| driver_champ.dfy | DriverChamp | `get_driver_standings` |
| news.dfy | News | `NewsService`, `get_news_service` |
| email.dfy | Email | `validate_email` |
| validators.dfy | Validators | `validate_password`, `validate_username`, `sanitize_input` |

## Model

| member | source | states |
|---|---|---|
| ResponseCache.Get | app/services/jolpica.py:14-23 | a read returns the stored value exactly when it is younger than the reader's tier (3600 s, or 86400 s for the long tier) and then leaves the cache unchanged; otherwise it returns nothing and removes exactly that key |
| ResponseCache.Set | app/services/jolpica.py:25-27 | a write adds or overwrites exactly the written key, stamped with the write time, and leaves every other key as it was |
| ResponseCache.SetIgnoresTier | app/services/jolpica.py:25-27 | what a write stores does not depend on the tier the writer names |
| ResponseCache.SetThenGet | app/services/jolpica.py:14-27 | a value read back at the instant it was written is returned on either tier, and the read leaves the cache as the write left it |
| ResponseCache.ExpiryBoundary | app/services/jolpica.py:14-27 | a value written at time w is returned exactly while now − w is below the tier's duration; after that the read misses and deletes the entry |
| ResponseCache.GetKeepsOtherKeys | app/services/jolpica.py:14-23 | a read neither adds, removes nor changes any other key |
| ResponseCache.LongTierOutlivesShort | app/services/jolpica.py:14-23 | whatever the one-hour tier still returns, the 24-hour tier returns too |
| Fetch.FirstSuccess | app/services/jolpica.py:39-54 | the first successful attempt in the range, with all earlier attempts failed, or none when every attempt in the range failed |
| Fetch.MakeRequest | app/services/jolpica.py:29-54 | a truthy cache hit makes 0 attempts. Otherwise: at most max(max_retries, 0) attempts; data is returned iff some attempt below max_retries succeeds, and it is the first success; that payload is cached under the URL at that attempt's time; when nothing is returned, every attempt was made and nothing was written |
| Fetch.RepeatServedFromCache | app/services/jolpica.py:29-47 | a truthy payload just fetched is served from the cache, with no attempt, to a repeat request for the same URL within the hour |
| Fetch.FalsyEntryIsMiss | app/services/jolpica.py:33-37 | a fresh but falsy cached payload (an empty dict) does not short-circuit: at least one attempt is made |
| Seasons.SeasonLabels | app/services/jolpica.py:68 | the labels are taken iff every season has a `season` key; they come one per season, in order |
| Seasons.DescendingIsTotalPreorder | app/services/jolpica.py:69 | reverse string order is a total preorder, so the sort is well defined |
| Seasons.AvailableYears | app/services/jolpica.py:62-73 | the result is always in non-increasing string order; without a season table it is `[]`; with one, it is `[]` if a season is unlabelled and otherwise holds exactly the labels with their multiplicities |
| Seasons.UnlabelledSeasonEmpties | app/services/jolpica.py:66-73 | one season without a label makes the result `[]` |
| DriverCode.GenerateCode | app/services/jolpica.py:76-91 | the code has at most 3 characters and no lower-case letter, and is empty iff both names are. With a name missing it is the upper-cased first 3 characters of the concatenation; with a family name of 2 or more characters it is that name's upper-cased first 3; otherwise it is the two initials upper-cased |
| DriverCode.CodeIsUpperCase | app/services/jolpica.py:76-91 | the code is its own upper case |
| DriverCode.CodeIgnoresGivenName | app/services/jolpica.py:86-88 | with both names present and a family name of 2 or more characters, the given name does not affect the code |
| DriverSearch.IndexStandings | app/services/jolpica.py:123-134 | the loop succeeds iff every standing has `Driver.driverId`; the dictionary then holds exactly the ids already present and those some kept standing names, each mapped to the record of the last standing kept for it (a standing whose first constructor has no name is skipped), or else to its earlier value |
| DriverSearch.StandingsMap | app/services/jolpica.py:114-134 | the dictionary is built iff the standings path has `StandingsTable` (when `MRData` is there) and every standing has `Driver.driverId`; it maps exactly the ids some kept standing names, each to the last such standing's record |
| DriverSearch.DriverEntry | app/services/jolpica.py:139-168 | a driver is processed without `KeyError` iff both name keys are present and, if kept, id, nationality and birth date are too; it yields a record iff it passes the filter; that record is the merged one |
| DriverSearch.Collect | app/services/jolpica.py:136-168 | the loop succeeds iff every driver is admissible, and then yields exactly the merged records of the kept drivers, in roster order |
| DriverSearch.SearchOrderIsTotalPreorder | app/services/jolpica.py:172-182 | the (rank, name) key with unknown or zero positions as infinity is a total preorder |
| DriverSearch.Search | app/services/jolpica.py:103-182 | without `MRData` or drivers the result is `[]`; without `DriverTable` it raises; otherwise it raises iff the standings dictionary cannot be built or some driver is not admissible. It is always in (rank, name) order and, with a non-empty roster, a permutation of the kept drivers' merged records |
| DriverSearch.SearchDrivers | app/services/jolpica.py:94-186 | the result is in (rank, name) order; anything raised, or an empty roster, gives `[]`; when nothing raises it is a permutation of the kept drivers' merged records |
| DriverSearch.UnknownPositionsLast | app/services/jolpica.py:172-182 | in any sequence in search order, so in the search result, a driver with a known non-zero position is never preceded by one without, and known positions ascend |
| DriverSearch.EmptyQueryKeepsAll | app/services/jolpica.py:140 | the empty query keeps every driver that has both name keys |
| DriverSearch.QueryFilter | app/services/jolpica.py:137-143 | a non-empty query keeps a driver iff its lower case occurs in the lower-cased given name, family name or "given family" |
| DriverSearch.StandingsMerge | app/services/jolpica.py:156-166 | a driver without a standings entry gets position, points and wins "0" and no constructor; with one, it gets that entry's four fields |
| DriverSearch.InadmissibleDriverEmpties | app/services/jolpica.py:139-153 | any driver missing a name key, or a kept driver missing id, nationality or birth date, fails the whole loop |
| DriverProfile.FirstIndex | app/services/jolpica.py:247 | the index of the first entry with the id, or none iff no entry has it |
| DriverProfile.SelectNeighbours | app/services/jolpica.py:241-244 | the selection raises iff the roster is non-empty and some position does not parse as an integer |
| DriverProfile.NeighbourSelection | app/services/jolpica.py:241-264 | the roster is sorted by integer position as a permutation. The previous driver exists iff the driver's first index is above 0, and is the entry before it, with no greater position and a different id. The next driver exists iff the index is not the last one, and is the entry after it, with no smaller position. Both are absent when the driver is not found |
| DriverProfile.AbsentDriverHasNoNeighbours | app/services/jolpica.py:247-264 | a driver not in the roster has no neighbours |
| DriverProfile.BaseProfile | app/services/jolpica.py:197-219 | the profile raises iff the response has `MRData` and either `DriverTable` is missing or its first driver lacks a required key. Otherwise there is a profile exactly when there is `MRData` and at least one driver. It carries the first driver's id, names, nationality and date of birth, its url and permanent number (or ""), and its own code unless that is missing or empty, in which case the generated one. Its name is "given family", and its code is empty only when both names are |
| DriverProfile.SeasonEntry | app/services/jolpica.py:222-236 | the season entry raises iff `StandingsTable` is missing (with `MRData`) or the first standing lacks position, points or wins, or a non-empty `Constructors` whose first element has no name; it is none without a first standing, and otherwise copies the first standing's fields |
| DriverProfile.ProfileBeforeCareer | app/services/jolpica.py:197-264 | the profile raises iff the base profile raises or, with a year, the season entry or neighbour selection raises; it differs from the base profile only in its season and neighbours, which are the year's entry and the roster selection with a year and empty without |
| DriverProfile.GetDriverProfile | app/services/jolpica.py:189-289 | there is a profile exactly when the steps before the career statistics give one, and it is that profile plus the career statistics. A lost profile leaves the career-statistics store unchanged. Without career loading that store is untouched and there are no career stats. With it, the store is the one the long-term read leaves, and the stats are the fresh long-term cached value or else the zero placeholder. Without a year there is no season or neighbour |
| DriverProfile.ProfileNeighbours | app/services/jolpica.py:223-264 | with a year, the profile's neighbours are the roster selection's, and an unparsable roster position loses the whole profile |
| CareerStats.TallyPositions | app/services/jolpica.py:338-349 | over a sequence of positions: wins grow by the number equal to '1', podiums by the number in {'1','2','3'}, and best becomes the minimum of its start and every integer-parsable position |
| CareerStats.Contributing | app/services/jolpica.py:323-333 | the season loop raises iff some season lacks a label or some fetched payload with `MRData` lacks `RaceTable`; every contributing season has at least one race. On success the seasons are, in order, the label and races of every season whose request returned at least one race |
| CareerStats.TallySeasons | app/services/jolpica.py:323-355 | the interleaved loop gives the same result as collecting the contributing seasons first and then tallying them, and fails exactly when collecting fails |
| CareerStats.PlayedSummary | app/services/jolpica.py:315-355 | tallying the contributing seasons gives their total race count, the win and podium counts over all their results, the least parsable position, and the least and greatest season labels |
| CareerStats.WinsWithinPodiums | app/services/jolpica.py:341-344 | there are never more wins than podiums |
| CareerStats.NotApplicableIsNotDecimal | app/services/jolpica.py:358 | a formatted best finish can never read 'N/A' |
| CareerStats.Finalize | app/services/jolpica.py:357-367 | the counts are reported as tallied; bestFinish is 'N/A' iff the tally's best is 999 or more, and otherwise parses back to it; neither label is ever empty |
| CareerStats.FinalizeReports | app/services/jolpica.py:357-367 | the dictionary reports those counts. bestFinish is 'N/A' iff no parsable position is below 999; otherwise it is a decimal that parses back to the least position. firstRace is the least contributing label and lastRace the greatest, each attained by a contributing season; firstRace is 'N/A' when there is none or one label is "", lastRace when every label is "" |
| CareerStats.ComputedStats | app/services/jolpica.py:296-372 | on a cache miss with seasons whose loop raises nothing, the result reports the contributing seasons and can then be read back from the long-term cache under `career_stats_<id>` |
| CareerStats.RaisingLoopYieldsZeros | app/services/jolpica.py:374-383 | a raising season loop gives the zero dictionary and writes nothing to the career-statistics store |
| CareerStats.DriverCareerStats | app/services/jolpica.py:296-383 | a fresh long-term entry of the career-statistics store is returned as it is. Otherwise that store afterwards is the one the read left, or that plus the new result stamped at the write time. Without `MRData` the result is `None`; without `SeasonTable` it is the zero dictionary; with no seasons it is `None`; when the season loop raises it is the zero dictionary. None of these writes to the store |
| Countries.LookupShape | app/services/jolpica.py:568-634 | the lookup, which reads the entries from the end as a dictionary display keeps the last value of a key, gives a two-letter lower-case code for a listed name and "" for any other name |
| Countries.LookupLast | app/services/jolpica.py:568-634 | a name gets exactly the code of the last entry listing it |
| Countries.CountryCode | app/services/jolpica.py:559-634 | `get_country_code` is total: a listed name gets the two lower-case letters of the last table entry listing it, and every other input gets "" |
| ConstructorChamp.Rows | app/services/constructorChamp.py:34-50 | the output is the projection of exactly the accepted entries, in input order |
| ConstructorChamp.GetConstructorStandings | app/services/constructorChamp.py:16-50 | the rows of exactly the accepted entries of the first standings list, in order, and never more rows than entries |
| ConstructorChamp.RowsAppend | app/services/constructorChamp.py:35-48 | rows of a concatenation are the concatenation of rows |
| ConstructorChamp.BadEntrySkipped | app/services/constructorChamp.py:36-48 | a malformed entry is skipped without changing its siblings' rows |
| ConstructorChamp.RowContents | app/services/constructorChamp.py:40-45 | every row copies an accepted entry's position, points and wins, with the constructor's name or 'Unknown' |
| ConstructorChamp.RowsBounded | app/services/constructorChamp.py:34-50 | there are no more rows than entries |
| ConstructorChamp.EmptyCases | app/services/constructorChamp.py:16-32 | a failed request, no `MRData`, no standings table or no standings lists gives `[]`; only the first list is read |
| DriverChamp.EntryRow | app/services/driverChamp.py:28-33 | an entry yields a row iff it has every key read and a non-empty `Constructors`; the row's driver is "given family" |
| DriverChamp.AllRows | app/services/driverChamp.py:28-33 | the comprehension succeeds iff every entry is complete, and then gives one row per entry, in order |
| DriverChamp.GetDriverStandings | app/services/driverChamp.py:21-37 | a failed request, a missing step of the path, or one incomplete entry anywhere gives `[]`; otherwise one row per entry, in order, copying position and points, naming the driver "given family" and the first constructor |
| News.DomainMapShape | app/services/news.py:34-41 | the map's keys are exactly the six source ids, and the id in position i maps to the default domain in position i |
| News.Selected | app/services/news.py:42 | the selection maps exactly the known ids to their domains, in order and with duplicates kept; every selected domain is one of the six defaults |
| News.SelectDomains | app/services/news.py:33-45 | with no sources, or with no recognised id, the domains are the default string; otherwise they are the selected domains joined with ',' |
| News.DomainsAlwaysKnown | app/services/news.py:15-45 | splitting the domain argument on ',' gives only default domains, and with recognised ids gives exactly their domains in order |
| News.GetF1News | app/services/news.py:23-69 | an unparsable page gives an error. Otherwise the client is asked with the selected domains and the parsed page; the outcome is a success iff the client replies, carrying its articles (or `[]`), else an error carrying the client's message |
| News.NewService | app/services/news.py:17-21 | construction raises `ValueError` iff the key is unset or empty; otherwise the service keeps the key |
| News.GetNewsService | app/services/news.py:7-11 | a filled slot is returned as it is; an empty one is filled exactly when construction succeeds, with the instance returned |
| News.SingletonReturnsOneInstance | app/services/news.py:5-11 | across any run of calls every successful call returns the same instance, the pre-existing one if there was one |
| News.GetAvailableSources | app/services/news.py:71-82 | the six sources, whose ids are exactly the keys of the domain map, in the same order |
| Email.IndexOf | app/utils/validators.py:23 | the first position of the character, or none iff it does not occur |
| Email.LastIndexOf | app/utils/validators.py:23 | the last position of the character, or none iff it does not occur |
| Email.RecogniseIsPattern | app/utils/validators.py:23-24 | the hand-written recogniser accepts exactly the strings matching the pattern body: a non-empty local part over `[A-Za-z0-9._%+-]`, `@`, a non-empty domain prefix over `[A-Za-z0-9.-]`, a dot, and two or more letters |
| Email.ValidateEmail | app/utils/validators.py:19-26 | accepted iff the text matches the pattern, allowing the one trailing newline `$` admits; the message follows the verdict |
| Validators.AnyUpper | app/utils/validators.py:13 | the scan finds an upper-case letter iff there is one |
| Validators.AnyDigit | app/utils/validators.py:15 | the scan finds a digit iff there is one |
| Validators.ValidatePassword | app/utils/validators.py:4-17 | accepted iff length ≥ 8 and the password has an upper-case letter and a digit. A short password always gets the length message, before case or digits are looked at; then the upper-case message; then the digit message |
| Validators.IsAlnumString | app/utils/validators.py:34 | `isalnum` holds iff the text is non-empty and all letters and digits |
| Validators.ValidateUsername | app/utils/validators.py:28-36 | accepted iff at most 20 characters, non-empty and alphanumeric; more than 20 always gets the length message, so exactly 20 passes the length check |
| Validators.ReplaceAppend | app/utils/validators.py:43 | replacing a character distributes over concatenation |
| Validators.EscapeIsPerChar | app/utils/validators.py:43 | the five chained replacements, `&` first, escape each character independently |
| Validators.EscapeEachHasNoRaw | app/utils/validators.py:43 | escaped text contains no raw `<`, `>`, `"` or `'` |
| Validators.EscapeRoundTrip | app/utils/validators.py:43 | unescaping recovers the original text |
| Validators.SanitizeInput | app/utils/validators.py:38-44 | non-strings come back unchanged. A string comes back as the stripped input with each character escaped on its own, so with no raw `<`, `>` or quote, and it unescapes to the stripped input |
| PyInt.DecimalRoundTrip | app/services/jolpica.py:358 | `int(str(n)) == n` for every integer |
| PyInt.ParseInt | app/services/jolpica.py:346 | text is accepted only when, stripped, it is non-empty and after its first character holds only digits and underscores; a negative value needs a leading '-' |
| Sorting.SortSorted | app/services/jolpica.py:182 | the insertion sort returns a sorted result under any total preorder; `Sort` itself keeps the multiset of its input |
| Text.SplitJoin | app/services/news.py:42-43 | splitting a join on the same separator gives the parts back when none contains the separator |
| Text.Strip | app/utils/validators.py:43 | the result is a middle part of the input that neither starts nor ends with whitespace, with only whitespace cut from either end |

## Left out

- The HTTP client, `raise_for_status` and `.json()` are not modelled: each request is a parameter giving the payload or `None`.
- `time.sleep` backoff delays are not modelled, since they do not affect any returned value.
- `time.time()` and `datetime.now()` are parameters (`now`, `doneAt`, `clock`, `fromDate`).
- ResponseCache.Get: time stamps are exact real numbers, so the rounding of `time.time()`'s floating-point values is not modelled.
- The `print` calls that log errors and missing data are not modelled: they only write to standard output.
- The URLs are not built, because they only feed the request parameters. For the same reason, the default year (`datetime.now().year`) of the two championship projections is not modelled.
- `@lru_cache` memoisation is not modelled: the memoised functions are modelled as pure functions of their inputs.
- `get_driver_results`, `get_race_results` (including the `isFutureRace` date parsing) and `get_races_by_season` are not part of this model.
- Unicode semantics of `upper`, `lower`, `isupper`, `isdigit` and `isalnum` are not modelled: characters outside ASCII are treated as neither letters nor digits. `int()` likewise accepts only ASCII digits. `strip()` uses Python's full whitespace set.
- The sort key's `float('inf')` is modelled as an `Option` rank, with `None` placed after every number.
- JSON values of unexpected types are not modelled. The exception is a constructor-standings `Constructor` that is not an object, so the skip branch of that loop is reachable.
- The single `_cache` dictionary is modelled as two typed stores: responses keyed by URL, and career statistics keyed by `career_stats_<id>`. The two key spaces never meet, since the URLs begin with `https`.
- News.GetF1News: the `ValueError` message for an unparsable page wraps the text in single quotes instead of reproducing Python's `repr` escaping. Articles are opaque values.
- News.F1Domains is defined as the six domains joined with ',', which spells out the class constant's literal.
- DriverProfile.GetDriverProfile takes the roster as the parameter `roster` instead of calling the search again, and leaves out the search's own cache traffic.
- The short-term response-cache reads and writes that `_make_request` does inside `get_available_years`, `search_drivers`, `get_driver_profile` and `_get_driver_career_stats` are not threaded through those operations. Each response is a parameter, and only the career-statistics store is threaded. The response cache's behaviour is stated on its own by `Fetch.MakeRequest`.
- News.GetAvailableSources returns the list of sources without the constant `{'status': 'success', 'sources': …}` wrapper. Its contract states the ids but not the display names, which are literal strings.
- CareerStats.DriverCareerStats: every cached statistics dictionary counts as a truthy hit, since the dictionaries built are never empty.
- PyInt.ParseInt: its own contract gives only what accepted text must look like; its exact value is stated through `PyInt.DecimalRoundTrip`, for the text `str()` produces.
- Sorting.SortSorted: stability of Python's `sorted` is not stated, although the insertion sort used is stable.
- The Flask routes, the user model, the JavaScript front end and the backup copies are not part of this model.
- Article de-duplication, keyword exclusion, over-fetching, per-race cumulative points, two-driver padding, a constructor rebrand table and request timeouts are not modelled, because no code for them exists in the modelled files.
