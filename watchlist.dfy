/**
 * The watchlist panel (components/Watchlist.tsx): load the saved tickers (or
 * the default five), fetch their quotes through the batch endpoint, join
 * each quote with the first calendar entry for its ticker, remove rows, and
 * present a sorted copy under one of four keys.
 */
module WatchlistView {
  import opened Types
  import opened Text
  import opened Days
  import opened Sorting
  import opened TickerStorage
  import opened BatchQuotes
  import PositionCalculator
  import StockScanner

  /** The tickers shown before anything has been saved. */
  const DefaultTickers: seq<string> := ["AGIO", "CYTK", "CORT", "DNLI", "TVTX"]

  /** `saved ? JSON.parse(saved) : defaultTickers`. */
  function InitialTickers(saved: Option<seq<string>>): (tickers: seq<string>)
    ensures saved.Some? ==> tickers == saved.value
    ensures saved.None? ==> tickers == DefaultTickers
  {
    saved.GetOr(DefaultTickers)
  }

  /** k is the position of the first calendar entry whose ticker is `ticker`. */
  ghost predicate IsFirstMatch(calendar: seq<PDUFAEntry>, ticker: string, k: int) {
    && 0 <= k < |calendar|
    && calendar[k].ticker == ticker
    && forall j :: 0 <= j < k ==> calendar[j].ticker != ticker
  }

  /** Only one position can be the first match. */
  lemma FirstMatchUnique(calendar: seq<PDUFAEntry>, ticker: string, k: int)
    requires IsFirstMatch(calendar, ticker, k)
    ensures forall k' :: IsFirstMatch(calendar, ticker, k') ==> k' == k
  {
  }

  /** `pdufa_data.find(p => p.ticker === stock.ticker)`, as an index. */
  function FirstMatch(calendar: seq<PDUFAEntry>, ticker: string): (r: Option<nat>)
    ensures r.None? <==> forall k :: 0 <= k < |calendar| ==> calendar[k].ticker != ticker
    ensures r.Some? ==> IsFirstMatch(calendar, ticker, r.value)
  {
    if calendar == [] then None
    else if calendar[0].ticker == ticker then Some(0)
    else
      match FirstMatch(calendar[1..], ticker)
      case None => None
      case Some(k) => Some(k + 1)
  }

  /**
   * One quote joined with the calendar: the first matching entry supplies the
   * date, drug and indication, and the day count from now; with no match
   * the quote is kept as it is.
   */
  function EnrichStock(stock: Stock, calendar: seq<PDUFAEntry>, nowMs: int, parse: DateParser): (w: WatchlistStock)
    ensures w.stock == stock
    ensures (forall k :: 0 <= k < |calendar| ==> calendar[k].ticker != stock.ticker) ==> w == Plain(stock)
    ensures forall k :: IsFirstMatch(calendar, stock.ticker, k) ==>
      && w.pdufaDate == Some(calendar[k].pdufaDate)
      && w.drugName == Some(calendar[k].drugName)
      && w.indication == Some(calendar[k].indication)
      && w.daysUntilPDUFA == Some(DaysUntil(parse(calendar[k].pdufaDate), nowMs))
  {
    match FirstMatch(calendar, stock.ticker)
    case None => Plain(stock)
    case Some(k) =>
      var e := calendar[k];
      FirstMatchUnique(calendar, stock.ticker, k);
      WatchlistStock(stock, Some(e.pdufaDate), Some(e.drugName), Some(e.indication),
                     Some(DaysUntil(parse(e.pdufaDate), nowMs)))
  }

  /** `stocks.map(...)`: one row per quote, in the same order. */
  function EnrichAll(stocks: seq<Stock>, calendar: seq<PDUFAEntry>, nowMs: int, parse: DateParser): (rows: seq<WatchlistStock>)
    ensures |rows| == |stocks|
    ensures forall i :: 0 <= i < |stocks| ==> rows[i] == EnrichStock(stocks[i], calendar, nowMs, parse)
  {
    seq(|stocks|, i requires 0 <= i < |stocks| => EnrichStock(stocks[i], calendar, nowMs, parse))
  }

  /** The request body `{ tickers }` built from a stored list of strings. */
  function AsItems(tickers: seq<string>): (items: seq<TickerItem>)
    ensures |items| == |tickers| && AllStrings(items)
    ensures forall i :: 0 <= i < |tickers| ==> items[i] == Str(tickers[i])
  {
    seq(|tickers|, i requires 0 <= i < |tickers| => Str(tickers[i]))
  }

  /**
   * The rows after `fetchStockData(tickers)`: replaced by the enriched quotes
   * when the batch call succeeds and the calendar loads; otherwise (non-OK
   * response, or the calendar fetch throwing) the rows already shown stay.
   */
  function Refreshed(rows: seq<WatchlistStock>, tickers: seq<string>, provider: string -> Upstream,
                     calendarData: Option<seq<PDUFAEntry>>, nowMs: int, parse: DateParser): (r: seq<WatchlistStock>)
    ensures tickers == [] ==> r == rows
    ensures calendarData.None? ==> r == rows
    ensures Post(Body(Array(AsItems(tickers))), provider, nowMs).Error? ==> r == rows
    ensures Post(Body(Array(AsItems(tickers))), provider, nowMs).Stocks? && calendarData.Some? ==>
      var quotes := provider(SymbolsParam(AsItems(tickers))).quotes.value;
      && r == EnrichAll(MapQuotes(quotes, nowMs), calendarData.value, nowMs, parse)
      && |r| == |quotes|
      && forall i :: 0 <= i < |quotes| ==> r[i].stock.ticker == quotes[i].symbol
  {
    var response := Post(Body(Array(AsItems(tickers))), provider, nowMs);
    if response.Stocks? && calendarData.Some? then EnrichAll(response.stocks, calendarData.value, nowMs, parse)
    else rows
  }

  /** `watchlist.filter(s => s.ticker !== ticker)`. */
  function WithoutTicker(rows: seq<WatchlistStock>, t: string): (r: seq<WatchlistStock>)
    ensures |r| <= |rows|
    ensures forall x :: x in r <==> x in rows && x.Ticker() != t
    ensures (forall i :: 0 <= i < |rows| ==> rows[i].Ticker() != t) ==> r == rows
  {
    if rows == [] then []
    else
      assert rows == [rows[0]] + rows[1..];
      (if rows[0].Ticker() == t then [] else [rows[0]]) + WithoutTicker(rows[1..], t)
  }

  /** Filtering distributes over concatenation, so the kept rows keep their order. */
  lemma {:induction false} WithoutTickerAppend(a: seq<WatchlistStock>, b: seq<WatchlistStock>, t: string)
    ensures WithoutTicker(a + b, t) == WithoutTicker(a, t) + WithoutTicker(b, t)
  {
    if a != [] {
      assert (a + b)[1..] == a[1..] + b;
      WithoutTickerAppend(a[1..], b, t);
    } else {
      assert a + b == b;
    }
  }

  /** `updated.map(s => s.ticker)`. */
  function Tickers(rows: seq<WatchlistStock>): (ts: seq<string>)
    ensures |ts| == |rows|
    ensures forall i :: 0 <= i < |rows| ==> ts[i] == rows[i].Ticker()
  {
    seq(|rows|, i requires 0 <= i < |rows| => rows[i].Ticker())
  }

  /** After removal the saved list no longer holds the ticker, and nothing else was dropped. */
  lemma RemovedTickerGone(rows: seq<WatchlistStock>, t: string)
    ensures t !in Tickers(WithoutTicker(rows, t))
    ensures forall i :: 0 <= i < |rows| && rows[i].Ticker() != t ==> rows[i].Ticker() in Tickers(WithoutTicker(rows, t))
  {
    var kept := WithoutTicker(rows, t);
    var ts := Tickers(kept);
    forall i | 0 <= i < |rows| && rows[i].Ticker() != t
      ensures rows[i].Ticker() in ts
    {
      assert rows[i] in kept;
      var j :| 0 <= j < |kept| && kept[j] == rows[i];
      assert ts[j] == rows[i].Ticker();
    }
  }

  datatype SortKey = ByPdufa | ByPrice | ByChange | ByTicker

  /** `!row.daysUntilPDUFA`: absent, or zero, which the falsy test cannot tell apart. */
  predicate NoDays(w: WatchlistStock) {
    w.daysUntilPDUFA.None? || w.daysUntilPDUFA.value == 0
  }

  /**
   * The comparator handed to `sort` for each key: price and change put the
   * larger value first, ticker the earlier string, and the date key sends a
   * row without a day count to the back.
   */
  function Compare(key: SortKey, a: WatchlistStock, b: WatchlistStock): (r: real)
    ensures key == ByPrice ==> (r <= 0.0 <==> a.stock.currentPrice >= b.stock.currentPrice)
    ensures key == ByChange ==> (r <= 0.0 <==> a.stock.changePercent >= b.stock.changePercent)
    ensures key == ByTicker ==> (r <= 0.0 <==> LexLessEq(a.Ticker(), b.Ticker()))
    ensures key == ByTicker ==> (r == 0.0 <==> a.Ticker() == b.Ticker())
    ensures key == ByPdufa && NoDays(a) ==> r > 0.0
    ensures key == ByPdufa && !NoDays(a) && NoDays(b) ==> r < 0.0
  {
    match key
    case ByPdufa =>
      if NoDays(a) then 1.0
      else if NoDays(b) then -1.0
      else (a.daysUntilPDUFA.value - b.daysUntilPDUFA.value) as real
    case ByPrice => b.stock.currentPrice - a.stock.currentPrice
    case ByChange => b.stock.changePercent - a.stock.changePercent
    case ByTicker => LexCompare(a.Ticker(), b.Ticker()) as real
  }

  function Comparator(key: SortKey): (cmp: (WatchlistStock, WatchlistStock) -> real)
    ensures forall a, b :: cmp(a, b) == Compare(key, a, b)
  {
    (a, b) => Compare(key, a, b)
  }

  /**
   * Under `'pdufa'` a row without a day count (absent or 0) goes after every
   * row with one, rows with day counts go by ascending count, and two rows
   * without both claim to go after the other.
   */
  lemma PdufaComparatorFacts(a: WatchlistStock, b: WatchlistStock)
    ensures NoDays(a) && !NoDays(b) ==> Compare(ByPdufa, a, b) > 0.0 && Compare(ByPdufa, b, a) < 0.0
    ensures !NoDays(a) && !NoDays(b) ==>
      (Compare(ByPdufa, a, b) < 0.0 <==> a.daysUntilPDUFA.value < b.daysUntilPDUFA.value)
    ensures NoDays(a) && NoDays(b) ==> Compare(ByPdufa, a, b) == 1.0 == Compare(ByPdufa, b, a)
    ensures a.daysUntilPDUFA == Some(0) ==> NoDays(a)
  {
  }

  /** Hence the `'pdufa'` comparator is not consistent: a row without days even sorts after itself. */
  lemma PdufaComparatorInconsistent()
    ensures !Consistent(Comparator(ByPdufa))
  {
    var s := Stock("", "", 0.0, 0.0, 0, 0, 0);
    var w := Plain(s);
    assert Comparator(ByPdufa)(w, w) == 1.0;
    assert !NotAfter(Comparator(ByPdufa), w, w);
  }

  /** The other three keys give consistent comparators. */
  lemma {:induction false} KeyComparatorConsistent(key: SortKey)
    requires key != ByPdufa
    ensures Consistent(Comparator(key))
  {
    var cmp := Comparator(key);
    if key == ByTicker {
      forall a, b ensures NotAfter(cmp, a, b) || NotAfter(cmp, b, a) {
        LexTotal(a.Ticker(), b.Ticker());
      }
      forall a, b, c | NotAfter(cmp, a, b) && NotAfter(cmp, b, c) ensures NotAfter(cmp, a, c) {
        LexTransitive(a.Ticker(), b.Ticker(), c.Ticker());
      }
    }
  }

  /** Sorting a copy: the rows are neither lost nor duplicated, and each consistent key orders them. */
  function SortRows(rows: seq<WatchlistStock>, key: SortKey): (r: seq<WatchlistStock>)
    ensures multiset(r) == multiset(rows)
    ensures key == ByPrice ==> forall i, j :: 0 <= i < j < |r| ==> r[i].stock.currentPrice >= r[j].stock.currentPrice
    ensures key == ByChange ==> forall i, j :: 0 <= i < j < |r| ==> r[i].stock.changePercent >= r[j].stock.changePercent
    ensures key == ByTicker ==> forall i, j :: 0 <= i < j < |r| ==> LexLessEq(r[i].Ticker(), r[j].Ticker())
  {
    var r := Sort(rows, Comparator(key));
    if key != ByPdufa then
      KeyComparatorConsistent(key);
      SortSorted(rows, Comparator(key));
      r
    else r
  }

  /** The "PASSED" flag of a row: it has a day count and that count is negative. */
  function RowIsPast(w: WatchlistStock): (b: bool)
    ensures w.daysUntilPDUFA.None? ==> !b
    ensures w.daysUntilPDUFA.Some? && w.daysUntilPDUFA.value < 0 ==> b
    ensures w.daysUntilPDUFA.Some? && w.daysUntilPDUFA.value >= 0 ==> !b
    ensures b ==> !NoDays(w)
  {
    w.daysUntilPDUFA.Some? && w.daysUntilPDUFA.value < 0
  }

  /** An enriched row shows PASSED exactly when its decision date is a full day or more behind now. */
  lemma EnrichedRowPastIff(stock: Stock, calendar: seq<PDUFAEntry>, nowMs: int, parse: DateParser)
    ensures RowIsPast(EnrichStock(stock, calendar, nowMs, parse)) <==>
      exists k :: IsFirstMatch(calendar, stock.ticker, k) && parse(calendar[k].pdufaDate) <= nowMs - MsPerDay
  {
    match FirstMatch(calendar, stock.ticker)
    case None =>
    case Some(k) =>
      DaysUntilNegativeIff(parse(calendar[k].pdufaDate), nowMs);
      FirstMatchUnique(calendar, stock.ticker, k);
  }

  /** The panel's state: the rows last fetched, the active sort key and the spinner. */
  class Watchlist {
    var rows: seq<WatchlistStock>
    var sortBy: SortKey
    var loading: bool

    constructor ()
      ensures rows == [] && sortBy == ByPdufa && loading
    {
      rows := [];
      sortBy := ByPdufa;
      loading := true;
    }

    /** `fetchStockData(tickers)`: the batch call, the calendar load and the join. */
    method FetchStockData(tickers: seq<string>, provider: string -> Upstream,
                          calendarData: Option<seq<PDUFAEntry>>, nowMs: int, parse: DateParser)
      modifies this`rows
      ensures rows == Refreshed(old(rows), tickers, provider, calendarData, nowMs, parse)
    {
      var response := Post(Body(Array(AsItems(tickers))), provider, nowMs);
      if response.Stocks? {
        if calendarData.Some? {
          rows := EnrichAll(response.stocks, calendarData.value, nowMs, parse);
        }
      }
    }

    /** `loadWatchlist`: the saved tickers or the defaults; the default list is not written back. */
    method LoadWatchlist(store: TickerStore, provider: string -> Upstream,
                         calendarData: Option<seq<PDUFAEntry>>, nowMs: int, parse: DateParser)
      modifies this`rows, this`loading
      ensures rows == Refreshed(old(rows), InitialTickers(store.saved), provider, calendarData, nowMs, parse)
      ensures !loading
    {
      loading := true;
      var tickers := InitialTickers(store.saved);
      FetchStockData(tickers, provider, calendarData, nowMs, parse);
      loading := false;
    }

    /** `removeStock(ticker)`: drop its rows and save the remaining tickers. */
    method RemoveStock(store: TickerStore, t: string)
      modifies this`rows, store
      ensures rows == WithoutTicker(old(rows), t)
      ensures store.saved == Some(Tickers(rows))
    {
      rows := WithoutTicker(rows, t);
      store.Write(Tickers(rows));
    }

    method SetSortBy(key: SortKey)
      modifies this`sortBy
      ensures sortBy == key
    {
      sortBy := key;
    }

    /** `sortedWatchlist`: a sorted copy; `rows` itself is left as it is. */
    function SortedWatchlist(): (r: seq<WatchlistStock>)
      reads this
      ensures multiset(r) == multiset(rows)
      ensures sortBy == ByPrice ==> forall i, j :: 0 <= i < j < |r| ==> r[i].stock.currentPrice >= r[j].stock.currentPrice
      ensures sortBy == ByChange ==> forall i, j :: 0 <= i < j < |r| ==> r[i].stock.changePercent >= r[j].stock.changePercent
      ensures sortBy == ByTicker ==> forall i, j :: 0 <= i < j < |r| ==> LexLessEq(r[i].Ticker(), r[j].Ticker())
    {
      SortRows(rows, sortBy)
    }
  }

  /** The "Safe" / "DQ Risk" badge of a row: the same rule as the scanner's badge for that stock. */
  function RowMeetsMinimum(w: WatchlistStock): (b: bool)
    ensures b <==> StockScanner.MeetsMinimum(Some(w.stock))
  {
    w.stock.currentPrice >= 10.0
  }

  /** The badge agrees with the calculator's eligibility flag for the row's price. */
  lemma RowBadgeAgreesWithCalculator(w: WatchlistStock)
    requires w.stock.currentPrice > 0.0
    ensures PositionCalculator.Calculate(Some(w.stock.currentPrice)).Some?
    ensures RowMeetsMinimum(w) == PositionCalculator.Calculate(Some(w.stock.currentPrice)).value.meetsMinimum
  {
  }
}
