/** `get_country_code`: the fixed country-name → ISO 3166-1 alpha-2 table used for flag
    display (including regional aliases such as Emilia Romagna and Styria, and the
    non-ISO `eu` for Europe). Lookup is total: an unknown name gives `""`. */
module Countries {
  import opened Text

  type LowerLetter = c: char | IsLower(c) witness 'a'

  /** An entry: a country name and the two letters of its code. */
  type Entry = (string, LowerLetter, LowerLetter)

  function Row(name: string, first: LowerLetter, second: LowerLetter): Entry {
    (name, first, second)
  }

  /** The table, one entry per entry of the source's dictionary, in order; its type
      makes every code two lower-case letters. */
  const CountryTable: seq<Entry> := [
      Row("Abu Dhabi", 'a', 'e'),
      Row("Argentina", 'a', 'r'),
      Row("Australia", 'a', 'u'),
      Row("Austria", 'a', 't'),
      Row("Azerbaijan", 'a', 'z'),
      Row("Bahrain", 'b', 'h'),
      Row("Belgium", 'b', 'e'),
      Row("Brazil", 'b', 'r'),
      Row("Canada", 'c', 'a'),
      Row("China", 'c', 'n'),
      Row("France", 'f', 'r'),
      Row("Germany", 'd', 'e'),
      Row("Hungary", 'h', 'u'),
      Row("India", 'i', 'n'),
      Row("Italy", 'i', 't'),
      Row("Japan", 'j', 'p'),
      Row("Korea", 'k', 'r'),
      Row("Malaysia", 'm', 'y'),
      Row("Mexico", 'm', 'x'),
      Row("Monaco", 'm', 'c'),
      Row("Morocco", 'm', 'a'),
      Row("Netherlands", 'n', 'l'),
      Row("Portugal", 'p', 't'),
      Row("Qatar", 'q', 'a'),
      Row("Russia", 'r', 'u'),
      Row("Saudi Arabia", 's', 'a'),
      Row("Singapore", 's', 'g'),
      Row("South Africa", 'z', 'a'),
      Row("Spain", 'e', 's'),
      Row("Sweden", 's', 'e'),
      Row("Switzerland", 'c', 'h'),
      Row("Turkey", 't', 'r'),
      Row("UK", 'g', 'b'),
      Row("United Kingdom", 'g', 'b'),
      Row("Great Britain", 'g', 'b'),
      Row("USA", 'u', 's'),
      Row("United States", 'u', 's'),
      Row("Vietnam", 'v', 'n'),
      Row("Emilia Romagna", 'i', 't'),
      Row("Styria", 'a', 't'),
      Row("Tuscany", 'i', 't'),
      Row("Miami", 'u', 's'),
      Row("Las Vegas", 'u', 's'),
      Row("Sakhir", 'b', 'h'),
      Row("Europe", 'e', 'u'),
      Row("San Marino", 's', 'm'),
      Row("UAE", 'a', 'e'),
      Row("United Arab Emirates", 'a', 'e'),
      Row("Czech Republic", 'c', 'z'),
      Row("Czechoslovakia", 'c', 'z'),
      Row("Finland", 'f', 'i'),
      Row("Ireland", 'i', 'e'),
      Row("New Zealand", 'n', 'z'),
      Row("Poland", 'p', 'l'),
      Row("United States of America", 'u', 's'),
      Row("America", 'u', 's'),
      Row("Denmark", 'd', 'k'),
      Row("Australia/Pacific", 'a', 'u'),
      Row("Catalunya", 'e', 's'),
      Row("Imola", 'i', 't'),
      Row("Zandvoort", 'n', 'l'),
      Row("Monza", 'i', 't'),
      Row("Silverstone", 'g', 'b')
    ]

  /** A two-letter lower-case code. */
  predicate IsAlpha2(code: string) {
    |code| == 2 && IsLower(code[0]) && IsLower(code[1])
  }

  /** The dictionary's `.get(name, '')`: a dictionary display keeps the value of the last
      entry with a given key, so the lookup reads the entries from the end. */
  function Lookup(name: string, entries: seq<Entry>): string
    decreases |entries|
  {
    if |entries| == 0 then ""
    else
      var last := entries[|entries| - 1];
      if last.0 == name then [last.1, last.2]
      else Lookup(name, entries[..|entries| - 1])
  }

  /** The names a table lists. */
  function Names(entries: seq<Entry>): set<string> {
    if |entries| == 0 then {} else {entries[0].0} + Names(entries[1..])
  }

  /** `get_country_code`: a listed name gets a two-letter lower-case code, and any other
      name gets `""`. */
  function CountryCode(countryName: string): (r: string)
    ensures countryName in Names(CountryTable) ==> IsAlpha2(r)
    ensures countryName !in Names(CountryTable) ==> r == ""
    ensures forall i | LastNamed(CountryTable, i, countryName) :: r == [CountryTable[i].1, CountryTable[i].2]
  {
    LookupShape(countryName, CountryTable);
    LookupLast(countryName, CountryTable);
    Lookup(countryName, CountryTable)
  }

  /** Entry `i` is the last one in `entries` listing `name`. */
  predicate LastNamed(entries: seq<Entry>, i: int, name: string) {
    && 0 <= i < |entries|
    && entries[i].0 == name
    && forall j | i < j < |entries| :: entries[j].0 != name
  }

  /** The code a name gets is the one of the last entry listing it, as in a dict display
      where a repeated key keeps its last value. */
  lemma {:induction false} LookupLast(name: string, entries: seq<Entry>)
    ensures forall i | LastNamed(entries, i, name) :: Lookup(name, entries) == [entries[i].1, entries[i].2]
    decreases |entries|
  {
    if |entries| > 0 {
      var n := |entries|;
      if entries[n - 1].0 != name {
        LookupLast(name, entries[..n - 1]);
        forall i | LastNamed(entries, i, name)
          ensures Lookup(name, entries) == [entries[i].1, entries[i].2]
        {
          assert i < n - 1;
          assert LastNamed(entries[..n - 1], i, name);
        }
      }
    }
  }

  /** A name the table lists gets a two-letter lower-case code; any other name gets `""`. */
  lemma {:induction false} LookupShape(name: string, entries: seq<Entry>)
    ensures name in Names(entries) ==> IsAlpha2(Lookup(name, entries))
    ensures name !in Names(entries) ==> Lookup(name, entries) == ""
    decreases |entries|
  {
    if |entries| > 0 {
      var n := |entries|;
      NamesSplit(entries[..n - 1], [entries[n - 1]]);
      assert entries[..n - 1] + [entries[n - 1]] == entries;
      if entries[n - 1].0 != name {
        LookupShape(name, entries[..n - 1]);
      }
    }
  }

  lemma {:induction false} NamesSplit(a: seq<Entry>, b: seq<Entry>)
    ensures Names(a + b) == Names(a) + Names(b)
  {
    if |a| > 0 {
      assert (a + b)[1..] == a[1..] + b;
      NamesSplit(a[1..], b);
    } else {
      assert a + b == b;
    }
  }
}
