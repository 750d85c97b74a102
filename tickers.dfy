/**
 * The ticker list: the Euronext CSV cleaning pipeline, the column check of
 * the bulk upsert, the market filters over the ticker table and the ccxt
 * pair list.
 */
module Tickers {
  import opened Common

  // ---------------------------------------------------------------------------
  // `str.strip()`

  /** The characters Python's `str.isspace` accepts, which `strip()` removes. */
  predicate IsSpace(c: char) {
    || ('\t' <= c <= '\r')
    || ('\U{1C}' <= c <= '\U{1F}')
    || c == ' ' || c == '\U{85}' || c == '\U{A0}' || c == '\U{1680}'
    || ('\U{2000}' <= c <= '\U{200A}')
    || c == '\U{2028}' || c == '\U{2029}' || c == '\U{202F}' || c == '\U{205F}' || c == '\U{3000}'
  }

  /** The number of whitespace characters that open `s`. */
  function LeadingSpace(s: string): (n: nat)
    ensures n <= |s|
    ensures forall i :: 0 <= i < n ==> IsSpace(s[i])
    ensures n == |s| || !IsSpace(s[n])
  {
    if s != [] && IsSpace(s[0]) then 1 + LeadingSpace(s[1..]) else 0
  }

  /** The number of whitespace characters that close `s`. */
  function TrailingSpace(s: string): (n: nat)
    ensures n <= |s|
    ensures forall i :: |s| - n <= i < |s| ==> IsSpace(s[i])
    ensures n == |s| || !IsSpace(s[|s| - n - 1])
  {
    if s != [] && IsSpace(s[|s| - 1]) then 1 + TrailingSpace(s[..|s| - 1]) else 0
  }

  /** `s.strip()`: `s` without its leading and trailing whitespace. */
  function Strip(s: string): string {
    var a := LeadingSpace(s);
    s[a..|s| - TrailingSpace(s[a..])]
  }

  /** Neither end of `s` is whitespace. */
  predicate Trimmed(s: string) {
    s == [] || (!IsSpace(s[0]) && !IsSpace(s[|s| - 1]))
  }

  /** The stripped string is trimmed. */
  lemma StripIsTrimmed(s: string)
    ensures Trimmed(Strip(s))
  {
    var a := LeadingSpace(s);
    var rest := s[a..];
    var b := TrailingSpace(rest);
    var r := Strip(s);
    if r != [] {
      assert r[0] == rest[0];
      assert r[|r| - 1] == rest[|rest| - b - 1];
    }
  }

  /**
   * Stripping keeps the middle piece of `s` and cuts only whitespace: the
   * result starts after the leading whitespace, and all after it is
   * whitespace too.
   */
  lemma StripCutsOnlySpace(s: string)
    ensures LeadingSpace(s) + |Strip(s)| <= |s|
    ensures Strip(s) == s[LeadingSpace(s)..LeadingSpace(s) + |Strip(s)|]
    ensures forall i :: LeadingSpace(s) + |Strip(s)| <= i < |s| ==> IsSpace(s[i])
  {
    var a := LeadingSpace(s);
    var rest := s[a..];
    var b := TrailingSpace(rest);
    forall i | a + |Strip(s)| <= i < |s|
      ensures IsSpace(s[i])
    {
      assert s[i] == rest[i - a];
    }
  }

  /** One space on each side of a trimmed, non-empty string is stripped off. */
  lemma StripPadded(s: string)
    requires s != [] && Trimmed(s)
    ensures Strip([' '] + s + [' ']) == s
  {
    var p := [' '] + s + [' '];
    assert p[1..] == s + [' '];
    assert (s + [' '])[0] == s[0];
    assert LeadingSpace(s + [' ']) == 0;
    assert LeadingSpace(p) == 1;
    assert (s + [' '])[..|s|] == s;
    assert s[|s| - 1] == s[..|s|][|s| - 1];
    assert TrailingSpace(s) == 0;
    assert TrailingSpace(s + [' ']) == 1;
  }

  /** A string whose ends are not whitespace is left as it is. */
  lemma StripTrimmed(s: string)
    requires Trimmed(s)
    ensures Strip(s) == s
  {
    if s != [] {
      assert LeadingSpace(s) == 0;
      assert TrailingSpace(s) == 0;
    }
  }

  /** Stripping twice is stripping once. */
  lemma StripIdempotent(s: string)
    ensures Strip(Strip(s)) == Strip(s)
  {
    StripIsTrimmed(s);
    StripTrimmed(Strip(s));
  }

  // ---------------------------------------------------------------------------
  // `load_euronext_csv`

  /** One CSV row: company name, short code and compartment; an empty cell is None. */
  datatype CsvRow = CsvRow(company: Option<string>, code: Option<string>, compartment: Option<string>)

  /** One row of the normalised frame (and of the ticker table). */
  datatype Listing = Listing(ticker: string, company: string, market: string)

  const RequiredCsvColumns: set<string> := {"Nom de l'entreprise", "Code court", "Compartiment"}

  /** The default `allowed_exchanges`. */
  const DefaultCompartments: seq<string> := ["A", "B", "C", "Euronext Growth", "Euronext Access"]

  /** The markets `get_all_euronext_tickers` selects. */
  const EuronextMarkets: seq<string> :=
    ["Euronext Growth", "Euronext Access", "Euronext_cat_A", "Euronext_cat_B", "Euronext_cat_C"]

  /** The markets `get_all_crypto_tickers` selects. */
  const CryptoMarkets: seq<string> := ["Crypto_EUR", "Crypto_USDT"]

  /**
   * A row survives the compartment filter (on the raw, untrimmed value) and
   * `dropna` (no missing field).
   */
  predicate Kept(row: CsvRow, allowed: seq<string>) {
    && row.compartment.Some? && row.compartment.value in allowed
    && row.company.Some? && row.code.Some?
  }

  /** The compartments A, B and C become Euronext categories; other markets are unchanged. */
  function Relabel(market: string): string {
    if market == "A" then "Euronext_cat_A"
    else if market == "B" then "Euronext_cat_B"
    else if market == "C" then "Euronext_cat_C"
    else market
  }

  /** Rename, strip the three fields, append ".PA" to the ticker and relabel the market. */
  function Normalize(row: CsvRow): Listing
    requires row.company.Some? && row.code.Some? && row.compartment.Some?
  {
    Listing(Strip(row.code.value) + ".PA", Strip(row.company.value), Relabel(Strip(row.compartment.value)))
  }

  /** The filtered rows, normalised, in file order. */
  function Normalized(rows: seq<CsvRow>, allowed: seq<string>): (r: seq<Listing>)
    ensures |r| <= |rows|
  {
    if rows == [] then []
    else (if Kept(rows[0], allowed) then [Normalize(rows[0])] else []) + Normalized(rows[1..], allowed)
  }

  /** The ticker column. */
  function TickersOf(xs: seq<Listing>): (r: seq<string>)
    ensures |r| == |xs| && forall i :: 0 <= i < |xs| ==> r[i] == xs[i].ticker
  {
    if xs == [] then [] else [xs[0].ticker] + TickersOf(xs[1..])
  }

  /** `drop_duplicates(subset="Ticker", keep="last")`. */
  function DedupeKeepLast(xs: seq<Listing>): (r: seq<Listing>)
    ensures |r| <= |xs|
  {
    if xs == [] then []
    else if xs[0].ticker in TickersOf(xs[1..]) then DedupeKeepLast(xs[1..])
    else [xs[0]] + DedupeKeepLast(xs[1..])
  }

  /** `load_euronext_csv` on the columns and rows of the file: the missing column names, or the frame. */
  function LoadEuronextCsv(columns: set<string>, rows: seq<CsvRow>, allowed: seq<string>): Result<seq<Listing>, set<string>> {
    var missing := RequiredCsvColumns - columns;
    if missing != {} then Err(missing) else Ok(DedupeKeepLast(Normalized(rows, allowed)))
  }

  /** A missing required column is reported, by name, and nothing else is. */
  lemma MissingCsvColumnsRejected(columns: set<string>, rows: seq<CsvRow>, allowed: seq<string>)
    ensures LoadEuronextCsv(columns, rows, allowed).Err? <==> !(RequiredCsvColumns <= columns)
    ensures LoadEuronextCsv(columns, rows, allowed).Err? ==>
      LoadEuronextCsv(columns, rows, allowed).error == RequiredCsvColumns - columns
  {
    var missing := RequiredCsvColumns - columns;
    if RequiredCsvColumns <= columns {
      assert missing == {};
    } else {
      var c :| c in RequiredCsvColumns && c !in columns;
      assert c in missing;
    }
  }

  /** A normalised listing comes from a kept row, and every kept row gives one. */
  lemma {:induction false} NormalizedMembers(rows: seq<CsvRow>, allowed: seq<string>)
    ensures forall x :: x in Normalized(rows, allowed) <==>
      exists i :: 0 <= i < |rows| && Kept(rows[i], allowed) && x == Normalize(rows[i])
  {
    if rows != [] {
      NormalizedMembers(rows[1..], allowed);
      forall x | x in Normalized(rows, allowed)
        ensures exists i :: 0 <= i < |rows| && Kept(rows[i], allowed) && x == Normalize(rows[i])
      {
        if x in Normalized(rows[1..], allowed) {
          var i :| 0 <= i < |rows[1..]| && Kept(rows[1..][i], allowed) && x == Normalize(rows[1..][i]);
          assert rows[i + 1] == rows[1..][i];
        }
      }
      forall x, i | 0 <= i < |rows| && Kept(rows[i], allowed) && x == Normalize(rows[i])
        ensures x in Normalized(rows, allowed)
      {
        if i > 0 {
          assert rows[1..][i - 1] == rows[i];
        }
      }
    }
  }

  /** Row `i` is the last one carrying its ticker. */
  predicate LastOfTicker(xs: seq<Listing>, i: int) {
    0 <= i < |xs| && forall j :: i < j < |xs| ==> xs[j].ticker != xs[i].ticker
  }

  /** De-duplication keeps exactly the rows that no later row shares a ticker with. */
  lemma {:induction false} DedupeKeepsLast(xs: seq<Listing>)
    ensures forall x :: x in DedupeKeepLast(xs) <==> exists i :: LastOfTicker(xs, i) && xs[i] == x
  {
    if xs != [] {
      DedupeKeepsLast(xs[1..]);
      var tail := xs[1..];
      forall x | x in DedupeKeepLast(xs)
        ensures exists i :: LastOfTicker(xs, i) && xs[i] == x
      {
        if x in DedupeKeepLast(tail) {
          var i :| LastOfTicker(tail, i) && tail[i] == x;
          assert LastOfTicker(xs, i + 1);
        } else {
          assert x == xs[0] && xs[0].ticker !in TickersOf(tail);
          forall j | 0 < j < |xs|
            ensures xs[j].ticker != xs[0].ticker
          {
            assert TickersOf(tail)[j - 1] == xs[j].ticker;
          }
          assert LastOfTicker(xs, 0);
        }
      }
      forall x, i | LastOfTicker(xs, i) && xs[i] == x
        ensures x in DedupeKeepLast(xs)
      {
        if i > 0 {
          assert LastOfTicker(tail, i - 1);
        } else {
          assert xs[0].ticker !in TickersOf(tail);
        }
      }
    }
  }

  /** After de-duplication no two rows share a ticker. */
  lemma {:induction false} DedupeUnique(xs: seq<Listing>)
    ensures forall i, j :: 0 <= i < j < |DedupeKeepLast(xs)| ==>
      DedupeKeepLast(xs)[i].ticker != DedupeKeepLast(xs)[j].ticker
  {
    if xs != [] {
      var tail := xs[1..];
      DedupeUnique(tail);
      if xs[0].ticker !in TickersOf(tail) {
        var d := DedupeKeepLast(xs);
        DedupeKeepsLast(tail);
        forall j | 0 < j < |d|
          ensures d[j].ticker != xs[0].ticker
        {
          assert d[j] in DedupeKeepLast(tail);
          var k :| LastOfTicker(tail, k) && tail[k] == d[j];
          assert TickersOf(tail)[k] == d[j].ticker;
        }
      }
    }
  }

  /** De-duplication loses no ticker. */
  lemma DedupeCoversTickers(xs: seq<Listing>)
    ensures forall t :: t in TickersOf(DedupeKeepLast(xs)) <==> t in TickersOf(xs)
  {
    DedupeKeepsLast(xs);
    var d := DedupeKeepLast(xs);
    forall t | t in TickersOf(xs)
      ensures t in TickersOf(d)
    {
      var i :| 0 <= i < |xs| && xs[i].ticker == t;
      var k := LastIndexOf(xs, i);
      assert xs[k] in d;
      var m :| 0 <= m < |d| && d[m] == xs[k];
      assert TickersOf(d)[m] == t;
    }
    forall t | t in TickersOf(d)
      ensures t in TickersOf(xs)
    {
      var m :| 0 <= m < |d| && TickersOf(d)[m] == t;
      assert d[m] in d;
      var i :| LastOfTicker(xs, i) && xs[i] == d[m];
      assert TickersOf(xs)[i] == t;
    }
  }

  /** The last row from `i` on that carries the ticker of row `i`. */
  function LastIndexOf(xs: seq<Listing>, i: nat): (k: nat)
    requires i < |xs|
    ensures i <= k && LastOfTicker(xs, k) && xs[k].ticker == xs[i].ticker
    decreases |xs| - i
  {
    if exists j :: i < j < |xs| && xs[j].ticker == xs[i].ticker then
      var j :| i < j < |xs| && xs[j].ticker == xs[i].ticker;
      LastIndexOf(xs, j)
    else i
  }

  /**
   * Every row of the loaded frame comes from a kept CSV row and is the
   * last kept row with its ticker; its ticker is that row's stripped code
   * followed by ".PA"; no two rows share a ticker.
   */
  lemma LoadedListings(columns: set<string>, rows: seq<CsvRow>, allowed: seq<string>)
    requires LoadEuronextCsv(columns, rows, allowed).Ok?
    ensures var ls := LoadEuronextCsv(columns, rows, allowed).value;
      && (forall x :: x in ls ==> exists i :: 0 <= i < |rows| && Kept(rows[i], allowed) && x == Normalize(rows[i]))
      && (forall x :: x in ls ==> x.ticker == Strip(x.ticker[..|x.ticker| - 3]) + ".PA")
      && (forall i, j :: 0 <= i < j < |ls| ==> ls[i].ticker != ls[j].ticker)
  {
    var n := Normalized(rows, allowed);
    var ls := DedupeKeepLast(n);
    NormalizedMembers(rows, allowed);
    DedupeKeepsLast(n);
    DedupeUnique(n);
    forall x | x in ls
      ensures exists i :: 0 <= i < |rows| && Kept(rows[i], allowed) && x == Normalize(rows[i])
      ensures x.ticker == Strip(x.ticker[..|x.ticker| - 3]) + ".PA"
    {
      var k :| LastOfTicker(n, k) && n[k] == x;
      assert n[k] in n;
      var i :| 0 <= i < |rows| && Kept(rows[i], allowed) && x == Normalize(rows[i]);
      var code := Strip(rows[i].code.value);
      assert x.ticker[..|x.ticker| - 3] == code;
      StripIdempotent(rows[i].code.value);
    }
  }

  /** Each default compartment is stripped to itself and relabelled into the Euronext markets. */
  lemma DefaultCompartmentRelabels(c: string)
    requires c in DefaultCompartments
    ensures Relabel(Strip(c)) in EuronextMarkets
  {
    assert Trimmed(c);
    StripTrimmed(c);
  }

  /** With the default compartments every loaded market is one of the five Euronext markets. */
  lemma DefaultMarketsAreEuronext(columns: set<string>, rows: seq<CsvRow>)
    requires LoadEuronextCsv(columns, rows, DefaultCompartments).Ok?
    ensures forall x :: x in LoadEuronextCsv(columns, rows, DefaultCompartments).value ==> x.market in EuronextMarkets
  {
    LoadedListings(columns, rows, DefaultCompartments);
    forall x | x in LoadEuronextCsv(columns, rows, DefaultCompartments).value
      ensures x.market in EuronextMarkets
    {
      var i :| 0 <= i < |rows| && Kept(rows[i], DefaultCompartments) && x == Normalize(rows[i]);
      DefaultCompartmentRelabels(rows[i].compartment.value);
    }
  }

  /**
   * The compartment is filtered before it is stripped: with the default
   * compartments a value opening with whitespace drops the row, while
   * padding around the name and the code is trimmed away.
   */
  lemma FilterPrecedesStrip(company: string, code: string, compartment: string)
    ensures compartment != [] && IsSpace(compartment[0]) ==>
      !Kept(CsvRow(Some(company), Some(code), Some(compartment)), DefaultCompartments)
    ensures company != [] && Trimmed(company) && code != [] && Trimmed(code) ==>
      Normalize(CsvRow(Some([' '] + company + [' ']), Some([' '] + code + [' ']), Some(compartment))) ==
      Normalize(CsvRow(Some(company), Some(code), Some(compartment)))
  {
    assert forall c :: c in DefaultCompartments ==> !IsSpace(c[0]);
    if company != [] && Trimmed(company) && code != [] && Trimmed(code) {
      StripPadded(company);
      StripPadded(code);
      StripTrimmed(company);
      StripTrimmed(code);
    }
  }

  /** Of two kept rows whose codes strip to the same ticker, the later one is the one loaded. */
  lemma DuplicateKeepsLater(first: CsvRow, last: CsvRow, allowed: seq<string>)
    requires Kept(first, allowed) && Kept(last, allowed)
    requires Strip(first.code.value) == Strip(last.code.value)
    ensures LoadEuronextCsv(RequiredCsvColumns, [first, last], allowed) == Ok([Normalize(last)])
  {
    var rows := [first, last];
    var older := Normalize(first);
    var newer := Normalize(last);
    assert rows[1..] == [last] && [last][1..] == [];
    assert Normalized([last], allowed) == [newer];
    assert Normalized(rows, allowed) == [older, newer];
    assert [older, newer][1..] == [newer] && [newer][1..] == [];
    assert TickersOf([newer]) == [newer.ticker];
    assert DedupeKeepLast([newer]) == [newer];
    assert DedupeKeepLast([older, newer]) == [newer];
  }

  // ---------------------------------------------------------------------------
  // `bulk_upsert` column check

  const UpsertColumns: set<string> := {"Ticker", "Company", "Market"}

  /** `df[["Ticker", "Company", "Market"]].values.tolist()`. */
  function Projected(rows: seq<map<string, string>>): (r: seq<Listing>)
    requires forall k :: 0 <= k < |rows| ==> UpsertColumns <= rows[k].Keys
    ensures |r| == |rows|
    ensures forall k :: 0 <= k < |rows| ==> r[k] == Listing(rows[k]["Ticker"], rows[k]["Company"], rows[k]["Market"])
  {
    if rows == [] then []
    else [Listing(rows[0]["Ticker"], rows[0]["Company"], rows[0]["Market"])] + Projected(rows[1..])
  }

  /**
   * The rows `bulk_upsert` writes, or the missing column names, which it
   * raises before any write. A frame gives each row a value in every one
   * of its columns.
   */
  function BulkUpsertRows(columns: set<string>, rows: seq<map<string, string>>): (r: Result<seq<Listing>, set<string>>)
    requires forall k :: 0 <= k < |rows| ==> columns <= rows[k].Keys
    ensures r.Err? <==> !(UpsertColumns <= columns)
    ensures r.Err? ==> r.error == UpsertColumns - columns && r.error != {}
    ensures r.Ok? ==> |r.value| == |rows| && forall k :: 0 <= k < |rows| ==>
      r.value[k] == Listing(rows[k]["Ticker"], rows[k]["Company"], rows[k]["Market"])
  {
    var missing := UpsertColumns - columns;
    if missing != {} then Err(missing)
    else
      assert forall c :: c in UpsertColumns ==> c !in missing;
      Ok(Projected(rows))
  }

  // ---------------------------------------------------------------------------
  // Market filters

  /** The tickers, in table order, of the rows whose market is one of `markets`. */
  function TickersIn(table: seq<Listing>, markets: seq<string>): (r: seq<string>)
    ensures |r| <= |table|
  {
    if table == [] then []
    else (if table[0].market in markets then [table[0].ticker] else []) + TickersIn(table[1..], markets)
  }

  /** `get_all_euronext_tickers` on the table as fetched. */
  function EuronextTickers(table: seq<Listing>): seq<string> {
    TickersIn(table, EuronextMarkets)
  }

  /** `get_all_crypto_tickers` on the table as fetched. */
  function CryptoTickers(table: seq<Listing>): seq<string> {
    TickersIn(table, CryptoMarkets)
  }

  /** A ticker is selected exactly when some row carries it under a listed market. */
  lemma {:induction false} TickersInMembers(table: seq<Listing>, markets: seq<string>)
    ensures forall t :: t in TickersIn(table, markets) <==>
      exists i :: 0 <= i < |table| && table[i].ticker == t && table[i].market in markets
  {
    if table != [] {
      TickersInMembers(table[1..], markets);
      forall t | t in TickersIn(table, markets)
        ensures exists i :: 0 <= i < |table| && table[i].ticker == t && table[i].market in markets
      {
        if t in TickersIn(table[1..], markets) {
          var i :| 0 <= i < |table[1..]| && table[1..][i].ticker == t && table[1..][i].market in markets;
          assert table[i + 1] == table[1..][i];
        }
      }
      forall t, i | 0 <= i < |table| && table[i].ticker == t && table[i].market in markets
        ensures t in TickersIn(table, markets)
      {
        if i > 0 {
          assert table[1..][i - 1] == table[i];
        }
      }
    }
  }

  /** The filter keeps table order: filtering a concatenation concatenates the filtered parts. */
  lemma {:induction false} TickersInAppend(a: seq<Listing>, b: seq<Listing>, markets: seq<string>)
    ensures TickersIn(a + b, markets) == TickersIn(a, markets) + TickersIn(b, markets)
  {
    if a == [] {
      assert a + b == b;
    } else {
      assert (a + b)[0] == a[0];
      assert (a + b)[1..] == a[1..] + b;
      TickersInAppend(a[1..], b, markets);
      var head := if a[0].market in markets then [a[0].ticker] else [];
      assert TickersIn(a + b, markets) == head + TickersIn(a[1..] + b, markets);
      assert TickersIn(a, markets) == head + TickersIn(a[1..], markets);
    }
  }

  /** A table whose every market is listed yields its whole ticker column. */
  lemma {:induction false} AllListedSelectsAll(table: seq<Listing>, markets: seq<string>)
    requires forall k :: 0 <= k < |table| ==> table[k].market in markets
    ensures TickersIn(table, markets) == TickersOf(table)
  {
    if table != [] {
      AllListedSelectsAll(table[1..], markets);
    }
  }

  /** A table none of whose markets is listed yields nothing. */
  lemma {:induction false} NoneListedSelectsNone(table: seq<Listing>, markets: seq<string>)
    requires forall k :: 0 <= k < |table| ==> table[k].market !in markets
    ensures TickersIn(table, markets) == []
  {
    if table != [] {
      NoneListedSelectsNone(table[1..], markets);
    }
  }

  /**
   * A frame loaded with the default compartments is selected in full by
   * the Euronext filter and not at all by the crypto filter.
   */
  lemma LoadedEuronextIsSelected(columns: set<string>, rows: seq<CsvRow>)
    requires LoadEuronextCsv(columns, rows, DefaultCompartments).Ok?
    ensures var ls := LoadEuronextCsv(columns, rows, DefaultCompartments).value;
      EuronextTickers(ls) == TickersOf(ls) && CryptoTickers(ls) == []
  {
    var ls := LoadEuronextCsv(columns, rows, DefaultCompartments).value;
    DefaultMarketsAreEuronext(columns, rows);
    AllListedSelectsAll(ls, EuronextMarkets);
    forall k | 0 <= k < |ls|
      ensures ls[k].market !in CryptoMarkets
    {
      assert ls[k] in ls;
    }
    NoneListedSelectsNone(ls, CryptoMarkets);
  }

  // ---------------------------------------------------------------------------
  // The ccxt pair list

  predicate EndsWith(s: string, suffix: string) {
    |suffix| <= |s| && s[|s| - |suffix|..] == suffix
  }

  /** The pairs ending with `suffix`, in the exchange's order. */
  function PairsEndingWith(pairs: seq<string>, suffix: string): (r: seq<string>)
    ensures |r| <= |pairs|
    ensures forall p :: p in r <==> p in pairs && EndsWith(p, suffix)
  {
    if pairs == [] then []
    else (if EndsWith(pairs[0], suffix) then [pairs[0]] else []) + PairsEndingWith(pairs[1..], suffix)
  }

  /** One row per pair, the pair as ticker and company, under `market`. */
  function PairListings(pairs: seq<string>, market: string): (r: seq<Listing>)
    ensures |r| == |pairs| && forall k :: 0 <= k < |pairs| ==> r[k] == Listing(pairs[k], pairs[k], market)
  {
    if pairs == [] then [] else [Listing(pairs[0], pairs[0], market)] + PairListings(pairs[1..], market)
  }

  /** The frame `load_crypto_tickers_ccxt` builds from the exchange's pair names. */
  function CryptoPairs(pairs: seq<string>): seq<Listing> {
    PairListings(PairsEndingWith(pairs, "/EUR"), "Crypto_EUR") + PairListings(PairsEndingWith(pairs, "/USDT"), "Crypto_USDT")
  }

  /** The ticker column of a concatenation is the concatenation of the ticker columns. */
  lemma {:induction false} TickersOfAppend(a: seq<Listing>, b: seq<Listing>)
    ensures TickersOf(a + b) == TickersOf(a) + TickersOf(b)
  {
    if a == [] {
      assert a + b == b;
    } else {
      assert (a + b)[0] == a[0];
      assert (a + b)[1..] == a[1..] + b;
      TickersOfAppend(a[1..], b);
      assert TickersOf(a + b) == [a[0].ticker] + TickersOf(a[1..] + b);
    }
  }

  /** The ticker column is all euro pairs, then all USDT pairs, each also in the company column. */
  lemma CryptoPairsOrder(pairs: seq<string>)
    ensures var r := CryptoPairs(pairs);
      && TickersOf(r) == PairsEndingWith(pairs, "/EUR") + PairsEndingWith(pairs, "/USDT")
      && forall k :: 0 <= k < |r| ==> r[k].company == r[k].ticker
  {
    var eur := PairListings(PairsEndingWith(pairs, "/EUR"), "Crypto_EUR");
    var usdt := PairListings(PairsEndingWith(pairs, "/USDT"), "Crypto_USDT");
    TickersOfAppend(eur, usdt);
    assert TickersOf(eur) == PairsEndingWith(pairs, "/EUR");
    assert TickersOf(usdt) == PairsEndingWith(pairs, "/USDT");
  }

  /**
   * The market column is aligned with the pairs: "Crypto_EUR" exactly on
   * the euro pairs, which come first, and "Crypto_USDT" on the rest, each
   * under a pair with that quote currency.
   */
  lemma CryptoPairsMarkets(pairs: seq<string>)
    ensures var eur := PairsEndingWith(pairs, "/EUR");
      var r := CryptoPairs(pairs);
      && |r| == |eur| + |PairsEndingWith(pairs, "/USDT")|
      && forall k :: 0 <= k < |r| ==>
        if k < |eur| then r[k].market == "Crypto_EUR" && EndsWith(r[k].ticker, "/EUR")
        else r[k].market == "Crypto_USDT" && EndsWith(r[k].ticker, "/USDT")
  {
    var eur := PairsEndingWith(pairs, "/EUR");
    var usdt := PairsEndingWith(pairs, "/USDT");
    var r := CryptoPairs(pairs);
    forall k | 0 <= k < |r|
      ensures if k < |eur| then r[k].market == "Crypto_EUR" && EndsWith(r[k].ticker, "/EUR")
              else r[k].market == "Crypto_USDT" && EndsWith(r[k].ticker, "/USDT")
    {
      if k < |eur| {
        assert r[k] == Listing(eur[k], eur[k], "Crypto_EUR");
        assert eur[k] in eur;
      } else {
        assert r[k] == Listing(usdt[k - |eur|], usdt[k - |eur|], "Crypto_USDT");
        assert usdt[k - |eur|] in usdt;
      }
    }
  }

  /** Every pair row of the ccxt frame is picked by the crypto filter and none by the Euronext filter. */
  lemma CryptoPairsSelected(pairs: seq<string>)
    ensures CryptoTickers(CryptoPairs(pairs)) == TickersOf(CryptoPairs(pairs))
    ensures EuronextTickers(CryptoPairs(pairs)) == []
  {
    var r := CryptoPairs(pairs);
    CryptoPairsMarkets(pairs);
    assert |"Crypto_EUR"| == 10 && |"Crypto_USDT"| == 11;
    assert forall m :: m in EuronextMarkets ==> |m| >= 14;
    forall k | 0 <= k < |r|
      ensures r[k].market in CryptoMarkets && r[k].market !in EuronextMarkets
    {
    }
    AllListedSelectsAll(r, CryptoMarkets);
    NoneListedSelectsNone(r, EuronextMarkets);
  }
}
