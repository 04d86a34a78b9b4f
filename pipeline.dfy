/** One analysis run: the date guard, the download, the per-symbol loop that
    fills the stock_data dictionary, the loop that collects each symbol's
    total change, and the two leaderboards. Widgets, downloads and the share
    lookup are inputs; what the page would display is the list of notices and
    the report. */
module Pipeline {
  import opened Wrappers
  import opened Tickers
  import opened Frames
  import opened Movers

  /** What the run shows besides the report, in the order it shows them. */
  datatype Notice =
    | DateRangeError            // "End date must fall after start date."
    | NoSymbols                 // "Please enter stock symbols."
    | NoData                    // "No data found for the selected stock(s) and date range."
    | AdjCloseFallback(stock: string)
    | SharesFallback(stock: string)
    | Failure                   // "An error occurred: ..." from the outer except

  // ---------------------------------------------------------------------
  // The stock_data dictionary

  /** A Python dict from symbol to table: its keys in insertion order and
      the entries. */
  datatype StockData = StockData(order: seq<string>, entries: map<string, Enriched>)

  predicate NoDuplicates(s: seq<string>) {
    forall i, j :: 0 <= i < j < |s| ==> s[i] != s[j]
  }

  function Elements(s: seq<string>): set<string> {
    set x | x in s
  }

  predicate WellFormed(d: StockData) {
    NoDuplicates(d.order) && d.entries.Keys == Elements(d.order)
  }

  const EmptyData := StockData([], map[])

  /** Assigning v to key k in the dictionary (line 86): a new key goes to
      the end of the order, an existing key keeps its place and gets the new
      value. */
  function Store(d: StockData, k: string, v: Enriched): (r: StockData)
    ensures r.entries == d.entries[k := v]
    ensures k in d.entries ==> r.order == d.order
    ensures k !in d.entries ==> r.order == d.order + [k]
  {
    if k in d.entries then StockData(d.order, d.entries[k := v])
    else StockData(d.order + [k], d.entries[k := v])
  }

  /** The symbols of s in order of first appearance, each once. */
  function Distinct(s: seq<string>): (r: seq<string>)
    ensures NoDuplicates(r)
    ensures Elements(r) == Elements(s)
  {
    if s == [] then []
    else
      var p, x := Distinct(s[..|s| - 1]), s[|s| - 1];
      assert s == s[..|s| - 1] + [x];
      assert Elements(s) == Elements(s[..|s| - 1]) + {x};
      if x in p then p
      else
        assert Elements(p + [x]) == Elements(p) + {x};
        p + [x]
  }

  /** Where x first occurs in s (|s| if it does not occur). */
  function FirstIndex(s: seq<string>, x: string): (k: nat)
    ensures k <= |s|
    ensures k < |s| <==> x in s
    ensures k < |s| ==> s[k] == x
    ensures forall m :: 0 <= m < k ==> s[m] != x
  {
    if s == [] then 0
    else if s[0] == x then 0
    else
      var k := FirstIndex(s[1..], x);
      assert forall m :: 0 < m < |s| ==> s[m] == s[1..][m - 1];
      1 + k
  }

  /** A symbol that occurs in s first occurs there at the same place after
      one more symbol is appended. */
  lemma FirstIndexAppend(s: seq<string>, x: string, y: string)
    ensures y in s ==> FirstIndex(s + [x], y) == FirstIndex(s, y)
    ensures y !in s && y == x ==> FirstIndex(s + [x], y) == |s|
  {
    var k, k' := FirstIndex(s, y), FirstIndex(s + [x], y);
    if y in s {
      assert (s + [x])[k] == y;
      assert k' <= k;
      assert k' < |s| ==> s[k'] == y;
    } else if y == x {
      assert (s + [x])[|s|] == y;
    }
  }

  /** Distinct lists the symbols in order of their first appearance in s. */
  lemma {:induction false} DistinctOrder(s: seq<string>)
    ensures forall i, j :: 0 <= i < j < |Distinct(s)| ==>
              FirstIndex(s, Distinct(s)[i]) < FirstIndex(s, Distinct(s)[j])
  {
    if s != [] {
      var p, x := s[..|s| - 1], s[|s| - 1];
      assert s == p + [x];
      DistinctOrder(p);
      var d := Distinct(p);
      forall i, j | 0 <= i < j < |Distinct(s)|
        ensures FirstIndex(s, Distinct(s)[i]) < FirstIndex(s, Distinct(s)[j])
      {
        var r := Distinct(s);
        assert r[i] in Elements(r);
        assert r[i] in p by {
          if i < |d| { assert d[i] in Elements(d); } else { assert false; }
        }
        FirstIndexAppend(p, x, r[i]);
        FirstIndexAppend(p, x, r[j]);
        if j < |d| {
          assert r[j] == d[j] && r[i] == d[i];
          assert d[j] in Elements(d);
        } else {
          assert x !in d && r == d + [x];
          assert x !in Elements(d);
        }
      }
    }
  }

  lemma {:induction false} NoDuplicatesCount(s: seq<string>)
    requires NoDuplicates(s)
    ensures |Elements(s)| == |s|
  {
    if s != [] {
      var p := s[..|s| - 1];
      assert s == p + [s[|s| - 1]];
      assert Elements(s) == Elements(p) + {s[|s| - 1]};
      assert s[|s| - 1] !in Elements(p);
      NoDuplicatesCount(p);
    }
  }

  /** Position j holds the last occurrence of its symbol in s. */
  predicate LastOccurrence(s: seq<string>, j: int) {
    0 <= j < |s| && forall i :: j < i < |s| ==> s[i] != s[j]
  }

  // ---------------------------------------------------------------------
  // One iteration of the per-symbol loop

  datatype Processed = Processed(notices: seq<Notice>, result: Option<Enriched>)

  /** Extraction, the "Adj Close" fallback, the share count, the market cap
      and its change for one symbol; result None where pandas raises. */
  function ProcessSymbol(f: Frame, count: nat, stock: string, lookup: ShareLookup): Processed {
    match Extract(f, count, stock)
    case None => Processed([], None)
    case Some(t) =>
      var priceNotice := if AdjClose in t then [] else [AdjCloseFallback(stock)];
      match ResolvePrice(t)
      case None => Processed(priceNotice, None)
      case Some(priced) =>
        var sharesNotice := if lookup.Raised? then [SharesFallback(stock)] else [];
        match ResolveShares(lookup)
        case None => Processed(priceNotice + sharesNotice, None)
        case Some(shares) => Processed(priceNotice + sharesNotice, Some(Enrich(priced, shares)))
  }

  /** When one iteration fails and which notices it emits, in order: the
      price notice exactly when the symbol's table lacks "Adj Close", then
      the share notice exactly when the iteration gets through and the
      lookup raised. */
  lemma ProcessSymbolNotices(f: Frame, count: nat, stock: string, lookup: ShareLookup)
    ensures var p := ProcessSymbol(f, count, stock, lookup);
            var t := Extract(f, count, stock);
            && (p.result.Some? <==>
                  t.Some? && (AdjClose in t.value || Close in t.value) && !lookup.NotANumber?)
            && p.notices == (if t.Some? && AdjClose !in t.value then [AdjCloseFallback(stock)] else [])
                            + (if p.result.Some? && lookup.Raised? then [SharesFallback(stock)] else [])
            && (forall n :: n in p.notices ==> n.AdjCloseFallback? || n.SharesFallback?)
  {
    var p := ProcessSymbol(f, count, stock, lookup);
    var t := Extract(f, count, stock);
    if t.Some? {
      var priceNotice := if AdjClose in t.value then [] else [AdjCloseFallback(stock)];
      if ResolvePrice(t.value).Some? {
        var sharesNotice := if lookup.Raised? then [SharesFallback(stock)] else [];
        assert p.notices == priceNotice + sharesNotice;
      } else {
        assert p.notices == priceNotice + [];
      }
    } else {
      assert p.notices == [] + [];
    }
  }

  /** The total change one successful iteration records: its "Adj Close" is
      the effective price ("Adj Close", else "Close"), its "Market Cap" is
      that price times the resolved share count, and its total is the move
      of the market cap, which ScaledMove turns into shares times the move
      of the price. */
  lemma ProcessSymbolTotal(f: Frame, count: nat, stock: string, lookup: ShareLookup)
    requires ProcessSymbol(f, count, stock, lookup).result.Some?
    ensures var e := ProcessSymbol(f, count, stock, lookup).result.value;
            var t := Extract(f, count, stock).value;
            var price := if AdjClose in t then t[AdjClose] else t[Close];
            && e.table[AdjClose] == price
            && ResolveShares(lookup).Some?
            && e.table[MarketCap] == Capitalisation(price, ResolveShares(lookup).value)
            && Total(e) == Move(e.table[MarketCap])
  {
    var t := Extract(f, count, stock).value;
    var priced := ResolvePrice(t).value;
    TotalIsCapMove(priced, ResolveShares(lookup).value);
  }

  // ---------------------------------------------------------------------
  // The per-symbol loop

  datatype Progress = Progress(notices: seq<Notice>, data: Option<StockData>)

  /** The outcome of every iteration of the loop: stocks[j] with the answer
      to the j-th share lookup. */
  function Attempts(f: Frame, stocks: seq<string>, lookup: nat -> ShareLookup): (r: seq<Processed>)
    ensures |r| == |stocks|
    ensures forall j :: 0 <= j < |stocks| ==> r[j] == ProcessSymbol(f, |stocks|, stocks[j], lookup(j))
  {
    seq(|stocks|, j requires 0 <= j < |stocks| => ProcessSymbol(f, |stocks|, stocks[j], lookup(j)))
  }

  predicate Succeeded(outcomes: seq<Processed>, i: nat) {
    forall j :: 0 <= j < i && j < |outcomes| ==> outcomes[j].result.Some?
  }

  /** The state after the first i iterations, iteration j having the outcome
      outcomes[j]; once an iteration raises, the loop is left and nothing
      further happens. */
  function Build(stocks: seq<string>, outcomes: seq<Processed>, i: nat): Progress
    requires |outcomes| == |stocks| && i <= |stocks|
  {
    if i == 0 then Progress([], Some(EmptyData))
    else
      var p := Build(stocks, outcomes, i - 1);
      if p.data.None? then p
      else
        var q := outcomes[i - 1];
        match q.result
        case None => Progress(p.notices + q.notices, None)
        case Some(e) => Progress(p.notices + q.notices, Some(Store(p.data.value, stocks[i - 1], e)))
  }

  lemma {:induction false} BuildStaysFailed(stocks: seq<string>, outcomes: seq<Processed>, i: nat, j: nat)
    requires |outcomes| == |stocks| && i <= j <= |stocks|
    requires Build(stocks, outcomes, i).data.None?
    ensures Build(stocks, outcomes, j) == Build(stocks, outcomes, i)
  {
    if j > i {
      BuildStaysFailed(stocks, outcomes, i, j - 1);
    }
  }

  /** One more iteration with the loop still running stores that
      iteration's table under its symbol. */
  lemma BuildStep(stocks: seq<string>, outcomes: seq<Processed>, i: nat)
    requires |outcomes| == |stocks| && 0 < i <= |stocks|
    requires Build(stocks, outcomes, i).data.Some?
    ensures Build(stocks, outcomes, i - 1).data.Some? && outcomes[i - 1].result.Some?
    ensures Build(stocks, outcomes, i).data.value
            == Store(Build(stocks, outcomes, i - 1).data.value, stocks[i - 1], outcomes[i - 1].result.value)
  {
  }

  /** The next iteration, from a state where the loop is still running. */
  lemma BuildNext(stocks: seq<string>, outcomes: seq<Processed>, i: nat, notices: seq<Notice>, d: StockData)
    requires |outcomes| == |stocks| && i < |stocks|
    requires Build(stocks, outcomes, i) == Progress(notices, Some(d))
    ensures Build(stocks, outcomes, i + 1)
            == match outcomes[i].result
               case None => Progress(notices + outcomes[i].notices, None)
               case Some(e) => Progress(notices + outcomes[i].notices, Some(Store(d, stocks[i], e)))
  {
  }

  /** After i iterations the loop is still running exactly when every one of
      them got through. */
  lemma {:induction false} BuildSucceeds(stocks: seq<string>, outcomes: seq<Processed>, i: nat)
    requires |outcomes| == |stocks| && i <= |stocks|
    ensures Build(stocks, outcomes, i).data.Some? <==> Succeeded(outcomes, i)
  {
    if i > 0 {
      BuildSucceeds(stocks, outcomes, i - 1);
    }
  }

  /** The loop emits the iterations' notices and nothing else. */
  lemma {:induction false} BuildNotices(stocks: seq<string>, outcomes: seq<Processed>, i: nat)
    requires |outcomes| == |stocks| && i <= |stocks|
    ensures forall n :: n in Build(stocks, outcomes, i).notices ==>
              exists j :: 0 <= j < i && n in outcomes[j].notices
  {
    if i > 0 {
      BuildNotices(stocks, outcomes, i - 1);
    }
  }

  /** The notices of the first k iterations, one iteration after another. */
  function NoticesOf(outcomes: seq<Processed>, k: nat): seq<Notice>
    requires k <= |outcomes|
  {
    if k == 0 then [] else NoticesOf(outcomes, k - 1) + outcomes[k - 1].notices
  }

  /** The loop shows the notices of every iteration it reaches, in order:
      all of them when every iteration got through, and otherwise those up
      to and including the first iteration that raised. */
  lemma {:induction false} BuildNoticesInOrder(stocks: seq<string>, outcomes: seq<Processed>, i: nat)
    requires |outcomes| == |stocks| && i <= |stocks|
    ensures Succeeded(outcomes, i) ==> Build(stocks, outcomes, i).notices == NoticesOf(outcomes, i)
    ensures forall j :: 0 <= j < i && Succeeded(outcomes, j) && outcomes[j].result.None? ==>
              Build(stocks, outcomes, i).notices == NoticesOf(outcomes, j + 1)
  {
    if i > 0 {
      BuildNoticesInOrder(stocks, outcomes, i - 1);
      BuildSucceeds(stocks, outcomes, i - 1);
      forall j | 0 <= j < i - 1 && Succeeded(outcomes, j) && outcomes[j].result.None?
        ensures Build(stocks, outcomes, i) == Build(stocks, outcomes, i - 1)
      {
        assert !Succeeded(outcomes, i - 1);
      }
    }
  }

  /** d is the dictionary of the symbols s: each distinct symbol once, in
      order of first appearance. */
  predicate KeyedBy(d: StockData, s: seq<string>) {
    WellFormed(d) && d.order == Distinct(s) && d.entries.Keys == Elements(s)
  }

  /** While the loop runs, the dictionary holds each distinct symbol seen so
      far once, in order of first appearance. */
  lemma {:induction false} BuildKeys(stocks: seq<string>, outcomes: seq<Processed>, i: nat)
    requires |outcomes| == |stocks| && i <= |stocks|
    requires Build(stocks, outcomes, i).data.Some?
    ensures KeyedBy(Build(stocks, outcomes, i).data.value, stocks[..i])
  {
    if i > 0 {
      BuildStep(stocks, outcomes, i);
      BuildKeys(stocks, outcomes, i - 1);
      BuildKeysStep(stocks, outcomes, i);
    }
  }

  lemma BuildKeysStep(stocks: seq<string>, outcomes: seq<Processed>, i: nat)
    requires |outcomes| == |stocks| && 0 < i <= |stocks|
    requires Build(stocks, outcomes, i).data.Some?
    requires Build(stocks, outcomes, i - 1).data.Some?
    requires KeyedBy(Build(stocks, outcomes, i - 1).data.value, stocks[..i - 1])
    ensures KeyedBy(Build(stocks, outcomes, i).data.value, stocks[..i])
  {
    BuildStep(stocks, outcomes, i);
    StoreKeys(Build(stocks, outcomes, i - 1).data.value, stocks, i - 1, outcomes[i - 1].result.value);
  }

  /** Storing the next symbol extends the order by first appearance. */
  lemma StoreKeys(d: StockData, s: seq<string>, i: nat, v: Enriched)
    requires i < |s| && KeyedBy(d, s[..i])
    ensures KeyedBy(Store(d, s[i], v), s[..i + 1])
  {
    var s' := s[..i + 1];
    assert s'[..|s'| - 1] == s[..i];
    assert Elements(s') == Elements(s[..i]) + {s[i]};
  }

  /** The value stored for a symbol is the table of its LAST iteration: a
      repeated symbol overwrites its earlier entry. */
  lemma {:induction false} BuildLastWins(stocks: seq<string>, outcomes: seq<Processed>, i: nat)
    requires |outcomes| == |stocks| && i <= |stocks|
    requires Build(stocks, outcomes, i).data.Some?
    ensures HoldsLast(Build(stocks, outcomes, i).data.value, stocks, outcomes, i)
  {
    if i > 0 {
      BuildStep(stocks, outcomes, i);
      BuildLastWins(stocks, outcomes, i - 1);
      LastWinsStep(stocks, outcomes, i, Build(stocks, outcomes, i - 1).data.value,
                   outcomes[i - 1].result.value);
    }
  }

  /** d holds, for each symbol of the first i iterations, the table of its
      last iteration among them. */
  ghost predicate HoldsLast(d: StockData, stocks: seq<string>, outcomes: seq<Processed>, i: nat)
    requires |outcomes| == |stocks| && i <= |stocks|
  {
    forall j :: LastOccurrence(stocks[..i], j) ==>
      && outcomes[j].result.Some?
      && stocks[j] in d.entries
      && d.entries[stocks[j]] == outcomes[j].result.value
  }

  /** Storing iteration i - 1's table keeps HoldsLast one iteration further. */
  lemma LastWinsStep(stocks: seq<string>, outcomes: seq<Processed>, i: nat, d: StockData, v: Enriched)
    requires |outcomes| == |stocks| && 0 < i <= |stocks|
    requires outcomes[i - 1].result == Some(v)
    requires HoldsLast(d, stocks, outcomes, i - 1)
    ensures HoldsLast(Store(d, stocks[i - 1], v), stocks, outcomes, i)
  {
    var s, s' := stocks[..i - 1], stocks[..i];
    var d' := Store(d, stocks[i - 1], v);
    forall j | LastOccurrence(s', j)
      ensures outcomes[j].result.Some? && stocks[j] in d'.entries
      ensures d'.entries[stocks[j]] == outcomes[j].result.value
    {
      if j < i - 1 {
        assert LastOccurrence(s, j);
        assert stocks[j] == s'[j] != s'[i - 1];
      }
    }
  }

  /** What the source promises of the whole loop ending in state p: it gets
      through exactly when every iteration does, it emits only the two
      fallback notices, and the dictionary then has each distinct symbol
      once, in order of first appearance, with the table of its last
      iteration. */
  ghost predicate LoopOutcome(f: Frame, stocks: seq<string>, lookup: nat -> ShareLookup, p: Progress) {
    && (p.data.Some? <==>
          forall j :: 0 <= j < |stocks| ==> ProcessSymbol(f, |stocks|, stocks[j], lookup(j)).result.Some?)
    && (forall n :: n in p.notices ==> n.AdjCloseFallback? || n.SharesFallback?)
    && (p.data.Some? ==>
          && WellFormed(p.data.value)
          && p.data.value.order == Distinct(stocks)
          && p.data.value.entries.Keys == Elements(stocks)
          && forall j :: LastOccurrence(stocks, j) ==>
               p.data.value.entries[stocks[j]] == ProcessSymbol(f, |stocks|, stocks[j], lookup(j)).result.value)
  }

  /** The specification of the loop meets that promise. */
  lemma BuildSpec(f: Frame, stocks: seq<string>, lookup: nat -> ShareLookup)
    ensures LoopOutcome(f, stocks, lookup, Build(stocks, Attempts(f, stocks, lookup), |stocks|))
  {
    var n := |stocks|;
    var outcomes := Attempts(f, stocks, lookup);
    assert stocks[..n] == stocks;
    BuildSucceeds(stocks, outcomes, n);
    BuildNotices(stocks, outcomes, n);
    forall j | 0 <= j < n
      ensures forall m :: m in outcomes[j].notices ==> m.AdjCloseFallback? || m.SharesFallback?
    {
      ProcessSymbolNotices(f, n, stocks[j], lookup(j));
    }
    if Build(stocks, outcomes, n).data.Some? {
      BuildKeys(stocks, outcomes, n);
      BuildLastWins(stocks, outcomes, n);
    }
  }

  /** The outcomes of the iterations of a loop whose j-th iteration yields step(j). */
  function Steps(stocks: seq<string>, step: nat -> Processed): (r: seq<Processed>)
    ensures |r| == |stocks|
    ensures forall j :: 0 <= j < |stocks| ==> r[j] == step(j)
  {
    seq(|stocks|, j requires 0 <= j < |stocks| => step(j))
  }

  /** The dictionary-filling loop over the symbols, iteration j yielding
      step(j); it stops at the first iteration that raises. */
  method FillStockData(stocks: seq<string>, step: nat -> Processed)
    returns (notices: seq<Notice>, data: Option<StockData>)
    ensures Progress(notices, data) == Build(stocks, Steps(stocks, step), |stocks|)
  {
    ghost var outcomes := Steps(stocks, step);
    notices := [];
    var d := EmptyData;
    var i := 0;
    while i < |stocks|
      invariant 0 <= i <= |stocks|
      invariant Build(stocks, outcomes, i) == Progress(notices, Some(d))
    {
      var p := step(i);
      BuildNext(stocks, outcomes, i, notices, d);
      notices := notices + p.notices;
      if p.result.None? {
        data := None;
        BuildStaysFailed(stocks, outcomes, i + 1, |stocks|);
        return;
      }
      d := Store(d, stocks[i], p.result.value);
      i := i + 1;
    }
    data := Some(d);
  }

  lemma StepsAreAttempts(f: Frame, stocks: seq<string>, lookup: nat -> ShareLookup, step: nat -> Processed)
    requires forall j :: 0 <= j < |stocks| ==> step(j) == ProcessSymbol(f, |stocks|, stocks[j], lookup(j))
    ensures Steps(stocks, step) == Attempts(f, stocks, lookup)
  {
  }

  /** The loop of lines 50-86 over the symbols, each iteration being
      ProcessSymbol with that iteration's share lookup and storing its table
      under its symbol. */
  method BuildStockData(f: Frame, stocks: seq<string>, lookup: nat -> ShareLookup)
    returns (notices: seq<Notice>, data: Option<StockData>)
    ensures Progress(notices, data) == Build(stocks, Attempts(f, stocks, lookup), |stocks|)
    ensures LoopOutcome(f, stocks, lookup, Progress(notices, data))
  {
    var step := (j: nat) => if j < |stocks| then ProcessSymbol(f, |stocks|, stocks[j], lookup(j))
                            else Processed([], None);
    notices, data := FillStockData(stocks, step);
    StepsAreAttempts(f, stocks, lookup, step);
    BuildSpec(f, stocks, lookup);
  }

  // ---------------------------------------------------------------------
  // The top-movers loop

  /** One record per dictionary entry, in the dictionary's order. */
  function MoversOf(d: StockData): (ms: seq<Mover>)
    requires WellFormed(d)
    ensures |ms| == |d.order|
    ensures forall i :: 0 <= i < |ms| ==>
              ms[i].stock == d.order[i] && ms[i].total == Total(d.entries[d.order[i]])
  {
    seq(|d.order|, i requires 0 <= i < |d.order| => Mover(d.order[i], Total(d.entries[d.order[i]])))
  }

  /** There is exactly one record per distinct key of the dictionary. */
  lemma MoversOfCount(d: StockData)
    requires WellFormed(d)
    ensures |MoversOf(d)| == |d.entries|
  {
    NoDuplicatesCount(d.order);
  }

  /** The loop of lines 99-106: one record per dictionary entry, appended
      in the dictionary's order. */
  method CollectMovers(d: StockData) returns (movers: seq<Mover>)
    requires WellFormed(d)
    ensures movers == MoversOf(d)
  {
    movers := [];
    for i := 0 to |d.order|
      invariant movers == MoversOf(d)[..i]
    {
      var stock := d.order[i];
      movers := movers + [Mover(stock, Total(d.entries[stock]))];
    }
  }

  // ---------------------------------------------------------------------
  // The whole run

  datatype Report = Report(data: StockData, gainers: seq<Mover>, losers: seq<Mover>)

  datatype Run = Run(notices: seq<Notice>, report: Option<Report>)

  /** The body of the try block once a non-empty download is in hand: the
      per-symbol loop, then, if it got through, the records and the boards;
      if an iteration raised, the generic error follows its notices. */
  function Evaluate(f: Frame, stocks: seq<string>, lookup: nat -> ShareLookup): Run {
    var p := Build(stocks, Attempts(f, stocks, lookup), |stocks|);
    match p.data
    case None => Run(p.notices + [Failure], None)
    case Some(d) =>
      BuildSpec(f, stocks, lookup);
      var movers := MoversOf(d);
      Run(p.notices, Some(Report(d, Gainers(movers), Losers(movers))))
  }

  /** One run: dates are day numbers, fetched is the answer to the download
      (None if it raised) and lookup(i) the answer to the i-th share lookup. */
  function Pipeline(raw: string, start: int, end: int, fetched: Option<Frame>,
                    lookup: nat -> ShareLookup): Run
  {
    var stocks := Normalise(raw);
    if start >= end then Run([DateRangeError], None)
    else if |stocks| == 0 then Run([NoSymbols], None)
    else
      match fetched
      case None => Run([Failure], None)
      case Some(f) => if IsEmpty(f) then Run([NoData], None) else Evaluate(f, stocks, lookup)
  }

  /** The script's top level, from the date check to the leaderboards. */
  method Analyze(raw: string, start: int, end: int, fetched: Option<Frame>,
                 lookup: nat -> ShareLookup) returns (run: Run)
    ensures run == Pipeline(raw, start, end, fetched, lookup)
  {
    var stocks := Normalise(raw);
    if start >= end {
      return Run([DateRangeError], None);
    }
    if |stocks| == 0 {
      return Run([NoSymbols], None);
    }
    if fetched.None? {
      return Run([Failure], None);
    }
    var f := fetched.value;
    if IsEmpty(f) {
      return Run([NoData], None);
    }
    var notices, data := BuildStockData(f, stocks, lookup);
    if data.None? {
      return Run(notices + [Failure], None);
    }
    var movers := CollectMovers(data.value);
    run := Run(notices, Some(Report(data.value, Gainers(movers), Losers(movers))));
  }

  // ---------------------------------------------------------------------
  // Properties of a run

  /** What the try block yields: only fallback notices and possibly the
      generic error; a report exactly when every iteration got through, and
      then a dictionary keyed by the distinct symbols and two valid top-five
      boards over one record per distinct symbol. */
  lemma EvaluateSpec(f: Frame, stocks: seq<string>, lookup: nat -> ShareLookup)
    ensures var run := Evaluate(f, stocks, lookup);
            && (forall n :: n in run.notices ==> n.AdjCloseFallback? || n.SharesFallback? || n == Failure)
            && (run.report.Some? <==>
                  forall j :: 0 <= j < |stocks| ==> ProcessSymbol(f, |stocks|, stocks[j], lookup(j)).result.Some?)
            && (run.report.None? ==> Failure in run.notices)
            && (run.report.Some? ==>
                  var r := run.report.value;
                  && WellFormed(r.data)
                  && r.data.entries.Keys == Elements(stocks)
                  && r.data.order == Distinct(stocks)
                  && |MoversOf(r.data)| == |Elements(stocks)|
                  && IsTop(r.gainers, MoversOf(r.data), BoardSize, true)
                  && IsTop(r.losers, MoversOf(r.data), BoardSize, false))
  {
    BuildSpec(f, stocks, lookup);
    var p := Build(stocks, Attempts(f, stocks, lookup), |stocks|);
    if p.data.Some? {
      var d := p.data.value;
      MoversOfCount(d);
      NoDuplicatesCount(d.order);
      GainersSpec(MoversOf(d));
      LosersSpec(MoversOf(d));
    }
  }

  /** The notices of the try block in order: every iteration's notices when
      all got through; otherwise those of the iterations up to the first one
      that raised, followed by the generic error. */
  lemma EvaluateNotices(f: Frame, stocks: seq<string>, lookup: nat -> ShareLookup)
    ensures var run := Evaluate(f, stocks, lookup);
            var outcomes := Attempts(f, stocks, lookup);
            && (Succeeded(outcomes, |stocks|) ==> run.notices == NoticesOf(outcomes, |stocks|))
            && (forall j :: 0 <= j < |stocks| && Succeeded(outcomes, j) && outcomes[j].result.None? ==>
                  run.notices == NoticesOf(outcomes, j + 1) + [Failure])
  {
    var outcomes := Attempts(f, stocks, lookup);
    BuildNoticesInOrder(stocks, outcomes, |stocks|);
    BuildSucceeds(stocks, outcomes, |stocks|);
  }

  /** The date guard: the error is shown exactly when start >= end, and
      then it is all that happens. */
  lemma DateGuard(raw: string, start: int, end: int, fetched: Option<Frame>, lookup: nat -> ShareLookup)
    ensures var run := Pipeline(raw, start, end, fetched, lookup);
            && (DateRangeError in run.notices <==> start >= end)
            && (start >= end ==> run == Run([DateRangeError], None))
            && (run.report.Some? ==> start < end)
  {
    NormaliseShape(raw);
    if start < end && fetched.Some? && !IsEmpty(fetched.value) {
      EvaluateSpec(fetched.value, Normalise(raw), lookup);
    }
  }

  /** The "Please enter stock symbols." branch is dead: splitting always
      yields at least one token. */
  lemma NoSymbolsUnreachable(raw: string, start: int, end: int, fetched: Option<Frame>, lookup: nat -> ShareLookup)
    ensures NoSymbols !in Pipeline(raw, start, end, fetched, lookup).notices
  {
    NormaliseShape(raw);
    if start < end && fetched.Some? && !IsEmpty(fetched.value) {
      EvaluateSpec(fetched.value, Normalise(raw), lookup);
    }
  }

  /** An empty download ends the run with the no-data warning alone. */
  lemma EmptyDownload(raw: string, start: int, end: int, f: Frame, lookup: nat -> ShareLookup)
    requires start < end && IsEmpty(f)
    ensures Pipeline(raw, start, end, Some(f), lookup) == Run([NoData], None)
  {
    NormaliseShape(raw);
  }

  /** A report is produced exactly when the dates are ordered, the download
      answered with a non-empty table and every symbol went through. */
  lemma ReportSpec(raw: string, start: int, end: int, fetched: Option<Frame>, lookup: nat -> ShareLookup)
    ensures var run := Pipeline(raw, start, end, fetched, lookup);
            var stocks := Normalise(raw);
            run.report.Some? <==>
              && start < end && fetched.Some? && !IsEmpty(fetched.value)
              && forall j :: 0 <= j < |stocks| ==> ProcessSymbol(fetched.value, |stocks|, stocks[j], lookup(j)).result.Some?
  {
    NormaliseShape(raw);
    if start < end && fetched.Some? && !IsEmpty(fetched.value) {
      EvaluateSpec(fetched.value, Normalise(raw), lookup);
    }
  }

  // ---------------------------------------------------------------------
  // A worked run

  lemma ScenarioSymbols()
    ensures Normalise("AAPL") == ["AAPL"]
  {
    assert IsSymbol("AAPL");
    NormaliseJoin(["AAPL"]);
    assert Join(["AAPL"], Comma) == "AAPL";
  }

  /** The table the worked run records for its one symbol. */
  const ScenarioPrices: Column := [100.0, 102.0, 101.0]
  const ScenarioEntry := Enriched(
    map[Close := ScenarioPrices, AdjClose := ScenarioPrices,
        MarketCap := [100000000000.0, 102000000000.0, 101000000000.0]],
    [None, Some(2000000000.0), Some(-1000000000.0)])

  lemma ScenarioIteration()
    ensures ProcessSymbol(Flat(map[Close := ScenarioPrices]), 1, "AAPL", Raised)
            == Processed([AdjCloseFallback("AAPL"), SharesFallback("AAPL")], Some(ScenarioEntry))
    ensures Total(ScenarioEntry) == 1000000000.0
  {
    var t := map[Close := ScenarioPrices];
    var priced := t[AdjClose := t[Close]];
    assert ResolvePrice(t) == Some(priced);
    var e := Enrich(priced, DefaultShares);
    assert e.table.Keys == {Close, AdjClose, MarketCap};
    assert e.table[MarketCap] == [100000000000.0, 102000000000.0, 101000000000.0];
    assert e.change == [None, Some(2000000000.0), Some(-1000000000.0)];
    assert e == ScenarioEntry;
    TotalIsCapMove(priced, DefaultShares);
  }

  lemma ScenarioEvaluate(lookup: nat -> ShareLookup)
    requires lookup(0) == Raised
    ensures Evaluate(Flat(map[Close := ScenarioPrices]), ["AAPL"], lookup)
            == Run([AdjCloseFallback("AAPL"), SharesFallback("AAPL")],
                   Some(Report(StockData(["AAPL"], map["AAPL" := ScenarioEntry]),
                               [Mover("AAPL", 1000000000.0)], [Mover("AAPL", 1000000000.0)])))
  {
    var f := Flat(map[Close := ScenarioPrices]);
    ScenarioIteration();
    var stocks := ["AAPL"];
    var outcomes := Attempts(f, stocks, lookup);
    var p := Processed([AdjCloseFallback("AAPL"), SharesFallback("AAPL")], Some(ScenarioEntry));
    assert outcomes == [p];
    var d := StockData(["AAPL"], map["AAPL" := ScenarioEntry]);
    assert Store(EmptyData, "AAPL", ScenarioEntry) == d by {
      assert [] + ["AAPL"] == ["AAPL"];
    }
    assert [] + p.notices == p.notices;
    assert Build(stocks, outcomes, 1) == Progress(p.notices, Some(d));
    assert MoversOf(d) == [Mover("AAPL", 1000000000.0)];
  }

  /** One symbol, three days of closes 100, 102, 101, no "Adj Close" and no
      share count: both fallback notices, changes undefined, +2e9, -1e9, a
      total of 1e9, and the symbol is the only gainer and the only loser. */
  lemma SingleSymbolScenario(lookup: nat -> ShareLookup)
    requires lookup(0) == Raised
    ensures Pipeline("AAPL", 0, 3, Some(Flat(map[Close := ScenarioPrices])), lookup)
            == Run([AdjCloseFallback("AAPL"), SharesFallback("AAPL")],
                   Some(Report(StockData(["AAPL"], map["AAPL" := ScenarioEntry]),
                               [Mover("AAPL", 1000000000.0)], [Mover("AAPL", 1000000000.0)])))
  {
    var f := Flat(map[Close := ScenarioPrices]);
    ScenarioSymbols();
    assert !IsEmpty(f) by { assert |f.table[Close]| == 3; }
    ScenarioEvaluate(lookup);
  }

  /** Two symbols requested and a grouped download with columns for the
      first only: selecting the second symbol's columns raises before that
      iteration shows anything, so the run shows the generic error alone. */
  lemma MissingSymbolScenario(lookup: nat -> ShareLookup)
    requires lookup(0).Count?
    ensures Evaluate(Multi(map[(AdjClose, "AAPL") := ScenarioPrices]), ["AAPL", "MSFT"], lookup)
            == Run([Failure], None)
  {
    var g := map[(AdjClose, "AAPL") := ScenarioPrices];
    var f, stocks := Multi(g), ["AAPL", "MSFT"];
    var outcomes := Attempts(f, stocks, lookup);
    PresentSymbol(g, lookup(0));
    MissingSymbol(g, lookup(1));
    assert outcomes[0].notices == [] && outcomes[0].result.Some?;
    assert outcomes[1] == Processed([], None);
    var d := Store(EmptyData, "AAPL", outcomes[0].result.value);
    BuildNext(stocks, outcomes, 0, [], EmptyData);
    assert Build(stocks, outcomes, 1) == Progress([], Some(d));
    BuildNext(stocks, outcomes, 1, [], d);
  }

  lemma PresentSymbol(g: map<(string, string), Column>, lookup: ShareLookup)
    requires g == map[(AdjClose, "AAPL") := ScenarioPrices] && lookup.Count?
    ensures ProcessSymbol(Multi(g), 2, "AAPL", lookup).notices == []
    ensures ProcessSymbol(Multi(g), 2, "AAPL", lookup).result.Some?
  {
    assert (AdjClose, "AAPL") in g;
    var t := Group(g, "AAPL");
    assert AdjClose in t;
    assert Extract(Multi(g), 2, "AAPL") == Some(t);
  }

  lemma MissingSymbol(g: map<(string, string), Column>, lookup: ShareLookup)
    requires g == map[(AdjClose, "AAPL") := ScenarioPrices]
    ensures ProcessSymbol(Multi(g), 2, "MSFT", lookup) == Processed([], None)
  {
    forall q | q in g
      ensures q.1 != "MSFT"
    {
      assert q == (AdjClose, "AAPL");
    }
    assert !HasSymbol(g, "MSFT");
  }
}
