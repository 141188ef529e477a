/**
 * The batch quote endpoint (app/api/stocks/batch/route.ts): validate the
 * ticker list, build the provider's `symbols` parameter, call the provider
 * once and map each returned quote to a Stock with fallbacks for missing
 * fields. The provider call is the function `provider`, taking the symbols
 * string and giving what came back; every exception is caught and becomes a
 * 500 with no partial result.
 */
module BatchQuotes {
  import opened Types
  import opened Text

  /** One element of the `tickers` array: a string, or some other JSON value. */
  datatype TickerItem = Str(s: string) | NonString

  /** The `tickers` member of the request body. */
  datatype TickersField = NotAnArray | Array(items: seq<TickerItem>)

  /** The request body: unparseable JSON makes `request.json()` throw. */
  datatype Request = MalformedJson | Body(tickers: TickersField)

  /** One element of `quoteResponse.result`; `None` is an absent (or null) field. */
  datatype Quote = Quote(
    symbol: string,
    longName: Option<string>,
    shortName: Option<string>,
    regularMarketPrice: Option<real>,
    regularMarketChangePercent: Option<real>,
    regularMarketVolume: Option<int>,
    marketCap: Option<int>)

  /**
   * What the provider call gives: a thrown network error, or a response with
   * its `ok` flag and, when the body has `quoteResponse.result`, the quotes.
   */
  datatype Upstream = NetworkError | Reply(ok: bool, quotes: Option<seq<Quote>>)

  datatype Response = Stocks(stocks: seq<Stock>) | Error(status: int, message: string)

  const InvalidTickers: string := "Invalid tickers array"
  const FetchFailed: string := "Failed to fetch stock data"

  /** `!Array.isArray(tickers) || tickers.length === 0`. */
  predicate Rejected(field: TickersField) {
    field.NotAnArray? || |field.items| == 0
  }

  predicate AllStrings(items: seq<TickerItem>) {
    forall i :: 0 <= i < |items| ==> items[i].Str?
  }

  /** `tickers.map(t => t.toUpperCase()).join(',')`, once every item is a string. */
  function SymbolsParam(items: seq<TickerItem>): (r: string)
    requires AllStrings(items)
    ensures |items| == 1 ==> r == Upper(items[0].s)
    ensures forall k :: 0 <= k < |r| ==> !IsLower(r[k])
  {
    var upper := seq(|items|, i requires 0 <= i < |items| => Upper(items[i].s));
    var r := Join(upper, ',');
    forall k | 0 <= k < |r| ensures !IsLower(r[k]) {
      assert r[k] in r;
      if r[k] != ',' {
        var i :| 0 <= i < |upper| && r[k] in upper[i];
        var j :| 0 <= j < |upper[i]| && upper[i][j] == r[k];
        assert upper[i][j] == UpperChar(items[i].s[j]);
      }
    }
    r
  }

  /** The uppercased tickers, in order, are recovered by splitting the parameter at commas. */
  lemma SymbolsParamRoundTrip(items: seq<TickerItem>)
    requires |items| > 0 && AllStrings(items)
    requires forall i :: 0 <= i < |items| ==> ',' !in items[i].s
    ensures |Split(SymbolsParam(items), ',')| == |items|
    ensures forall i :: 0 <= i < |items| ==> Split(SymbolsParam(items), ',')[i] == Upper(items[i].s)
  {
    var upper := seq(|items|, i requires 0 <= i < |items| => Upper(items[i].s));
    forall i | 0 <= i < |upper| ensures ',' !in upper[i] {
      forall k | 0 <= k < |upper[i]| ensures upper[i][k] != ',' {
        assert upper[i][k] == UpperChar(items[i].s[k]);
      }
    }
    SplitJoin(upper, ',');
  }

  /** `x || fallback` on an optional string: absent and "" are both falsy. */
  function OrString(x: Option<string>, fallback: string): (r: string)
    ensures x.Some? && x.value != "" ==> r == x.value
    ensures x.None? || x.value == "" ==> r == fallback
  {
    if x.Some? && x.value != "" then x.value else fallback
  }

  /**
   * `Number(x.toFixed(2))` on an exact real: round half away from zero to
   * two decimals.
   */
  function Round2(x: real): (r: real)
    ensures -0.005 <= r - x <= 0.005
    ensures (r * 100.0).Floor as real == r * 100.0
    ensures x >= 0.0 ==> r >= 0.0
  {
    if x >= 0.0 then RoundCents(x)
    else
      var m := RoundCents(-x);
      var k := (m * 100.0).Floor;
      assert -m * 100.0 == (-k) as real;
      assert ((-k) as real).Floor == -k;
      -m
  }

  /** Rounding a non-negative amount to the nearest cent, halves upward. */
  function RoundCents(y: real): (r: real)
    requires y >= 0.0
    ensures -0.005 < r - y <= 0.005
    ensures (r * 100.0).Floor as real == r * 100.0
    ensures r >= 0.0
  {
    var n := (y * 100.0 + 0.5).Floor;
    assert n as real <= y * 100.0 + 0.5 < n as real + 1.0;
    var r := n as real / 100.0;
    assert r * 100.0 == n as real;
    assert (n as real).Floor == n;
    r
  }

  /** Field mapping for one provider quote, stamped with the response time. */
  function ToStock(q: Quote, nowMs: int): (s: Stock)
    ensures s.ticker == q.symbol
    ensures q.longName.Some? && q.longName.value != "" ==> s.companyName == q.longName.value
    ensures (q.longName.None? || q.longName.value == "") && q.shortName.Some? && q.shortName.value != "" ==>
      s.companyName == q.shortName.value
    ensures (q.longName.None? || q.longName.value == "") && (q.shortName.None? || q.shortName.value == "") ==>
      s.companyName == q.symbol
    ensures s.companyName == "" ==> q.symbol == ""
    ensures q.regularMarketPrice.None? ==> s.currentPrice == 0.0
    ensures q.regularMarketPrice.Some? ==> -0.005 <= s.currentPrice - q.regularMarketPrice.value <= 0.005
    ensures q.regularMarketChangePercent.None? ==> s.changePercent == 0.0
    ensures q.regularMarketChangePercent.Some? ==>
      -0.005 <= s.changePercent - q.regularMarketChangePercent.value <= 0.005
    ensures s.volume == q.regularMarketVolume.GetOr(0)
    ensures s.marketCap == q.marketCap.GetOr(0)
    ensures s.lastUpdated == nowMs
  {
    Stock(
      q.symbol,
      OrString(q.longName, OrString(q.shortName, q.symbol)),
      Round2(q.regularMarketPrice.GetOr(0.0)),
      Round2(q.regularMarketChangePercent.GetOr(0.0)),
      q.regularMarketVolume.GetOr(0),
      q.marketCap.GetOr(0),
      nowMs)
  }

  /** `quotes.map(...)`: one Stock per quote, in provider order. */
  function MapQuotes(quotes: seq<Quote>, nowMs: int): (stocks: seq<Stock>)
    ensures |stocks| == |quotes|
    ensures forall i :: 0 <= i < |quotes| ==> stocks[i] == ToStock(quotes[i], nowMs)
  {
    seq(|quotes|, i requires 0 <= i < |quotes| => ToStock(quotes[i], nowMs))
  }

  /** `POST /api/stocks/batch`. */
  function Post(req: Request, provider: string -> Upstream, nowMs: int): (r: Response)
    ensures r.Error? ==> (r.status == 400 && r.message == InvalidTickers) || (r.status == 500 && r.message == FetchFailed)
    ensures r.Error? && r.status == 400 <==> req.Body? && Rejected(req.tickers)
    ensures r.Stocks? <==>
      && req.Body? && !Rejected(req.tickers) && AllStrings(req.tickers.items)
      && provider(SymbolsParam(req.tickers.items)).Reply?
      && provider(SymbolsParam(req.tickers.items)).ok
      && provider(SymbolsParam(req.tickers.items)).quotes.Some?
    ensures r.Stocks? ==>
      var quotes := provider(SymbolsParam(req.tickers.items)).quotes.value;
      && r.stocks == MapQuotes(quotes, nowMs)
      && |r.stocks| == |quotes|
      && forall i :: 0 <= i < |quotes| ==> r.stocks[i].ticker == quotes[i].symbol
  {
    match req
    case MalformedJson => Error(500, FetchFailed)
    case Body(field) =>
      if Rejected(field) then Error(400, InvalidTickers)
      else if !AllStrings(field.items) then Error(500, FetchFailed)
      else
        match provider(SymbolsParam(field.items))
        case NetworkError => Error(500, FetchFailed)
        case Reply(ok, quotes) =>
          if !ok then Error(500, FetchFailed)
          else if quotes.None? then Error(500, FetchFailed)
          else Stocks(MapQuotes(quotes.value, nowMs))
  }

  /** A request refused for its ticker list never reaches the provider. */
  lemma RejectedRequestSkipsProvider(req: Request, p1: string -> Upstream, p2: string -> Upstream, nowMs: int)
    requires req.MalformedJson? || (req.Body? && Rejected(req.tickers))
    ensures Post(req, p1, nowMs) == Post(req, p2, nowMs)
  {
  }

  /** The response depends on the provider only through what it gives for the symbols string. */
  lemma ProviderSeenOnlyThroughSymbols(req: Request, p1: string -> Upstream, p2: string -> Upstream, nowMs: int)
    requires req.Body? && !Rejected(req.tickers) && AllStrings(req.tickers.items)
    requires p1(SymbolsParam(req.tickers.items)) == p2(SymbolsParam(req.tickers.items))
    ensures Post(req, p1, nowMs) == Post(req, p2, nowMs)
  {
  }
}
