/** The per-symbol transforms of one analysis run: extracting one symbol's
    columns from the fetched table, falling back from "Adj Close" to "Close",
    resolving the share count, and deriving the market capitalisation and its
    day-over-day change. Tables are column maps; every column of one table
    has one value per trading day. */
module Frames {
  import opened Wrappers

  type Column = seq<real>

  /** A flat table: field name to column. */
  type Table = map<string, Column>

  /** A change column: None where pandas leaves NaN. */
  type Change = seq<Option<real>>

  /** The fetched table. For one symbol the download is flat; for several it
      has one column per (field, symbol) pair. */
  datatype Frame =
    | Flat(table: Table)
    | Multi(groups: map<(string, string), Column>)

  const AdjClose := "Adj Close"
  const Close := "Close"
  const MarketCap := "Market Cap"
  const MarketCapChange := "Market Cap Change"

  /** The share count assumed when the lookup fails. */
  const DefaultShares: int := 1_000_000_000

  /** DataFrame.empty: no column holds a row (this includes having no column). */
  predicate IsEmpty(f: Frame) {
    match f
    case Flat(t) => forall k :: k in t ==> |t[k]| == 0
    case Multi(g) => forall p :: p in g ==> |g[p]| == 0
  }

  // ---------------------------------------------------------------------
  // Extraction of one symbol's columns

  /** Drops the symbol level from the (field, symbol) columns of one symbol. */
  function Group(g: map<(string, string), Column>, stock: string): (t: Table)
    ensures forall f :: f in t <==> (f, stock) in g
    ensures forall f :: f in t ==> t[f] == g[(f, stock)]
  {
    map p | p in g && p.1 == stock :: p.0 := g[p]
  }

  /** The grouped download has at least one column for the symbol. */
  predicate HasSymbol(g: map<(string, string), Column>, stock: string) {
    exists p :: p in g && p.1 == stock
  }

  /** The symbol's own flat table, given how many symbols were requested.
      Several symbols: the (field, stock) column group with the symbol level
      dropped, or None where the selection of line 53 raises (a flat
      download, or no column for the symbol). One symbol: the fetched flat
      table itself; a grouped download for one symbol is outside what the
      download returns and is mapped to None, the generic error. */
  function Extract(f: Frame, count: nat, stock: string): (r: Option<Table>)
    ensures count > 1 ==> (r.Some? <==> f.Multi? && HasSymbol(f.groups, stock))
    ensures count <= 1 ==> (r.Some? <==> f.Flat?)
    ensures count > 1 && r.Some? ==>
              (forall k :: k in r.value <==> (k, stock) in f.groups)
              && (forall k :: k in r.value ==> r.value[k] == f.groups[(k, stock)])
    ensures count <= 1 && r.Some? ==> r.value == f.table
  {
    if count > 1 then
      match f
      case Multi(g) => if HasSymbol(g, stock) then Some(Group(g, stock)) else None
      case Flat(_) => None
    else
      match f
      case Flat(t) => Some(t)
      case Multi(_) => None
  }

  // ---------------------------------------------------------------------
  // Price-field resolution

  /** Makes sure "Adj Close" is present, copying "Close" into it when it is
      missing; None when neither field exists (reading "Close" raises). */
  function ResolvePrice(t: Table): (r: Option<Table>)
    ensures r.Some? <==> AdjClose in t || Close in t
    ensures r.Some? ==> AdjClose in r.value && r.value.Keys == t.Keys + {AdjClose}
    ensures r.Some? ==> forall k :: k in t ==> r.value[k] == t[k]
    ensures r.Some? && AdjClose !in t ==> r.value[AdjClose] == t[Close]
  {
    if AdjClose in t then Some(t)
    else if Close in t then Some(t[AdjClose := t[Close]])
    else None
  }

  // ---------------------------------------------------------------------
  // Share count

  /** The answer to the share lookup of lines 69-70: it raised (the info
      request failed or has no "sharesOutstanding" key), it gave a count, or
      it gave a value that is not a number, such as None. */
  datatype ShareLookup = Raised | Count(count: int) | NotANumber

  /** The share count the market cap is computed with: the looked-up count,
      the placeholder when the lookup raised, and None when the value is not
      a number, so that multiplying the prices by it raises. */
  function ResolveShares(lookup: ShareLookup): (n: Option<int>)
    ensures n.None? <==> lookup.NotANumber?
    ensures lookup.Count? ==> n == Some(lookup.count)
    ensures lookup.Raised? ==> n == Some(DefaultShares)
  {
    match lookup
    case Raised => Some(DefaultShares)
    case Count(v) => Some(v)
    case NotANumber => None
  }

  // ---------------------------------------------------------------------
  // Market capitalisation and its change

  /** Column times scalar: one capitalisation per trading day. */
  function Capitalisation(prices: Column, shares: int): (cap: Column)
    ensures |cap| == |prices|
    ensures forall t :: 0 <= t < |prices| ==> cap[t] == prices[t] * shares as real
  {
    seq(|prices|, t requires 0 <= t < |prices| => prices[t] * shares as real)
  }

  /** Series.diff(): undefined on the first day, then today minus yesterday. */
  function Diff(xs: Column): (d: Change)
    ensures |d| == |xs|
    ensures |xs| > 0 ==> d[0] == None
    ensures forall t :: 1 <= t < |xs| ==> d[t] == Some(xs[t] - xs[t - 1])
  {
    seq(|xs|, t requires 0 <= t < |xs| => if t == 0 then None else Some(xs[t] - xs[t - 1]))
  }

  /** Series.sum(): the sum of the defined values, NaN skipped (0 if none). */
  function SumDefined(c: Change): real {
    if c == [] then 0.0
    else
      SumDefined(c[..|c| - 1]) + match c[|c| - 1] { case Some(v) => v case None => 0.0 }
  }

  /** Summing day-over-day changes up to day k gives the change since day 0. */
  lemma {:induction false} TelescopePrefix(xs: Column, k: nat)
    requires k < |xs|
    ensures SumDefined(Diff(xs)[..k + 1]) == xs[k] - xs[0]
  {
    var d := Diff(xs);
    if k > 0 {
      TelescopePrefix(xs, k - 1);
      assert d[..k + 1][..k] == d[..k];
    }
  }

  /** The move of a series over the window: last value minus first, 0 for
      an empty series. */
  function Move(xs: Column): real {
    if |xs| == 0 then 0.0 else xs[|xs| - 1] - xs[0]
  }

  /** The summed day-over-day changes of a series are its move. */
  lemma Telescope(xs: Column)
    ensures SumDefined(Diff(xs)) == Move(xs)
  {
    if |xs| > 0 {
      TelescopePrefix(xs, |xs| - 1);
      assert Diff(xs)[..|xs|] == Diff(xs);
    }
  }

  /** One symbol's table after the transforms: its columns, with "Market Cap"
      added, and the "Market Cap Change" column, undefined on the first day. */
  datatype Enriched = Enriched(table: Table, change: Change)

  /** Adds the "Market Cap" column, the adjusted close times the share
      count, and the "Market Cap Change" column, its day-over-day change;
      every other column is kept as it was. */
  function Enrich(t: Table, shares: int): (e: Enriched)
    requires AdjClose in t
    ensures e.table.Keys == (t.Keys + {MarketCap}) - {MarketCapChange}
    ensures forall k :: k in t && k != MarketCap && k != MarketCapChange ==> e.table[k] == t[k]
    ensures e.table[MarketCap] == Capitalisation(t[AdjClose], shares)
    ensures e.change == Diff(e.table[MarketCap])
  {
    var cap := Capitalisation(t[AdjClose], shares);
    Enriched(t[MarketCap := cap] - {MarketCapChange}, Diff(cap))
  }

  /** The total change of one symbol over the window: the sum of its
      defined market-cap changes (line 100). */
  function Total(e: Enriched): real {
    SumDefined(e.change)
  }

  /** The total change of an enriched table is the move of its market cap
      over the window (0 when it has no rows); with ScaledMove, that is
      shares times the move of the adjusted close. */
  lemma TotalIsCapMove(t: Table, shares: int)
    requires AdjClose in t
    ensures Total(Enrich(t, shares)) == Move(Enrich(t, shares).table[MarketCap])
  {
    Telescope(Enrich(t, shares).table[MarketCap]);
  }

  /** Scaling a series scales its move. */
  lemma ScaledMove(prices: Column, shares: int)
    ensures Move(Capitalisation(prices, shares)) == Move(prices) * shares as real
  {
    var n := |prices|;
    if n > 0 {
      ScaledDifference(prices[n - 1], prices[0], shares as real);
    }
  }

  lemma ScaledDifference(a: real, b: real, c: real)
    ensures a * c - b * c == (a - b) * c
  {
  }
}
