/**
 * The single-stock scanner (components/StockScanner.tsx): look up one ticker,
 * show whether its price meets the competition minimum and, when it does, a
 * quick position-size view; add the scanned ticker to the saved watchlist.
 * The single-quote endpoint is the function `lookup`, giving the stock for
 * an uppercased ticker or `None` when the response is not OK.
 */
module StockScanner {
  import opened Types
  import opened Text
  import opened TickerStorage
  import PositionCalculator

  const NotFoundMessage: string := "Stock not found. Please check the ticker symbol."

  /** The three figures of the quick position-size view. */
  datatype QuickView = QuickView(shares: int, totalCost: real, leftover: real)

  /** `stock ? stock.currentPrice >= 10 : false`: no stock never qualifies; a stock uses the calculator's rule. */
  function MeetsMinimum(stock: Option<Stock>): (b: bool)
    ensures stock.None? ==> !b
    ensures stock.Some? ==> (b <==> PositionCalculator.MeetsMinimum(stock.value.currentPrice))
  {
    stock.Some? && stock.value.currentPrice >= 10.0
  }

  /**
   * The quick view, written in the component with the literals 9990, 10 and
   * 10000; shown only for a stock at or above the minimum price.
   */
  function QuickSizing(stock: Option<Stock>): (r: Option<QuickView>)
    ensures r.Some? <==> MeetsMinimum(stock)
    ensures r.Some? ==>
      var s := PositionCalculator.Calculate(Some(stock.value.currentPrice));
      && s.Some?
      && r.value == QuickView(s.value.shares, s.value.totalCost, s.value.leftover)
  {
    if !MeetsMinimum(stock) then None
    else
      var p := stock.value.currentPrice;
      var shares := (9990.0 / p).Floor;
      Some(QuickView(shares, shares as real * p + 10.0, 10000.0 - (shares as real * p + 10.0)))
  }

  /** The scanner's state: the ticker field, the last stock found, the spinner and the error line. */
  class Scanner {
    var ticker: string
    var stock: Option<Stock>
    var loading: bool
    var error: string

    constructor ()
      ensures ticker == "" && stock.None? && !loading && error == ""
    {
      ticker := "";
      stock := None;
      loading := false;
      error := "";
    }

    /** The input field uppercases what is typed. */
    method SetTicker(input: string)
      modifies this`ticker
      ensures ticker == Upper(input)
    {
      ticker := Upper(input);
    }

    /**
     * `scanStock`: a blank ticker does nothing at all; otherwise the
     * uppercased ticker is looked up (`requested`) and the stock or the error
     * replaces what was shown.
     */
    method Scan(lookup: string -> Option<Stock>) returns (requested: Option<string>)
      modifies this
      ensures IsBlank(old(ticker)) ==>
        requested.None? && ticker == old(ticker) && stock == old(stock) &&
        loading == old(loading) && error == old(error)
      ensures !IsBlank(old(ticker)) ==>
        && ticker == old(ticker)
        && requested == Some(Upper(ticker))
        && stock == lookup(Upper(ticker))
        && error == (if stock.None? then NotFoundMessage else "")
        && !loading
    {
      if IsBlank(ticker) {
        return None;
      }
      requested := Fetch(lookup);
    }

    /** The lookup of a non-blank ticker: the uppercased ticker is requested and its result shown. */
    method Fetch(lookup: string -> Option<Stock>) returns (requested: Option<string>)
      modifies this
      ensures ticker == old(ticker)
      ensures requested == Some(Upper(ticker))
      ensures stock == lookup(Upper(ticker))
      ensures error == (if stock.None? then NotFoundMessage else "")
      ensures !loading
    {
      var key := Upper(ticker);
      loading := true;
      error := "";
      stock := None;
      requested := Some(key);
      var found := lookup(key);
      if found.Some? {
        stock := found;
      } else {
        error := NotFoundMessage;
      }
      loading := false;
    }

    /** `addToWatchlist`: nothing without a scanned stock, otherwise add its ticker. */
    method AddToWatchlist(store: TickerStore) returns (notice: Option<Notice>)
      modifies store
      ensures stock.None? ==> notice.None? && store.saved == old(store.saved)
      ensures stock.Some? ==>
        var t := stock.value.ticker;
        && notice.Some? && notice.value.ticker == t
        && (notice.value.Added? <==> t !in Current(old(store.saved)))
        && (notice.value.Added? ==> store.saved == Some(Current(old(store.saved)) + [t]))
        && (notice.value.AlreadyPresent? ==> store.saved == old(store.saved))
    {
      if stock.None? {
        return None;
      }
      var n := store.Add(stock.value.ticker);
      notice := Some(n);
    }
  }
}
