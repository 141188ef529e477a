/**
 * The record shapes shared by the dashboard's components (types/index.ts),
 * plus the Option wrapper used for optional fields and for "no value".
 * Dates are kept as ISO strings where the source keeps strings; timestamps
 * are integer milliseconds since the epoch.
 */
module Types {

  datatype Option<+T> = None | Some(value: T) {
    function GetOr(default: T): T {
      match this
      case Some(v) => v
      case None => default
    }
  }

  /** A quote snapshot, replaced wholesale on every fetch. */
  datatype Stock = Stock(
    ticker: string,
    companyName: string,
    currentPrice: real,
    changePercent: real,
    volume: int,
    marketCap: int,
    lastUpdated: int)

  /** One entry of the static regulatory-decision calendar. */
  datatype PDUFAEntry = PDUFAEntry(
    ticker: string,
    companyName: string,
    drugName: string,
    indication: string,
    pdufaDate: string,
    approvalType: string,
    notes: Option<string>)

  /**
   * A Stock optionally augmented with calendar data. The four optional
   * fields are either all present (the stock matched a calendar entry) or
   * all absent; absence is distinct from "0 days until".
   */
  datatype WatchlistStock = WatchlistStock(
    stock: Stock,
    pdufaDate: Option<string>,
    drugName: Option<string>,
    indication: Option<string>,
    daysUntilPDUFA: Option<int>)
  {
    function Ticker(): string { stock.ticker }
  }

  /** A Stock as the watchlist holds it before enrichment: no calendar fields. */
  function Plain(s: Stock): WatchlistStock {
    WatchlistStock(s, None, None, None, None)
  }

  /** `new Date(iso).getTime()`: the parser is supplied by the caller. */
  type DateParser = string -> int
}
