# Biotech trading dashboard: verified model of its sequential logic

This project models the parts of a small biotech-trading dashboard that can be stated exactly:

- **Position sizing.** The calculator works out the largest whole number of shares that fits a $10,000 position after a $10 trading fee. It also reports the cost and the cash left over, and whether the price meets the $10 competition minimum. The scanner shows the same figures as a quick view.
- **The saved watchlist.** This is an ordered list of tickers kept in browser storage, modelled by the class `TickerStorage.TickerStore`.
  - The scanner and the calendar append a ticker to it if it is absent.
  - The watchlist panel reads it, or falls back to five default tickers.
  - Removing a stock rewrites the list.
- **The watchlist panel** (`WatchlistView.Watchlist`).
  - It fetches quotes through the batch endpoint.
  - It joins each quote with the first calendar entry for its ticker and computes a day count, rounded up, to the regulatory decision (PDUFA) date.
  - It presents a sorted copy of its rows under one of four keys.
- **The PDUFA calendar panel** (`PDUFACalendar.Calendar`). It filters entries into upcoming, past or all, sorts what it keeps by date, and flags cards as passed or urgent.
- **The batch quote endpoint** (`BatchQuotes.Post`).
  - It validates the ticker array and builds the comma-joined, uppercased symbols parameter.
  - It maps each provider quote to a `Stock`, falling back to defaults for missing fields.
  - It returns status 400 or 500 on the error paths.

Parts of the system that the model cannot hold are passed in as parameters:

- The quote provider is a function from the symbols string to an `Upstream` reply.
- The single-quote route is a function from a ticker to `Option<Stock>`.
- Date parsing is a `DateParser` (`string -> int`, milliseconds).
- The clock is a `nowMs: int` parameter.
- A calendar load is `Option<seq<PDUFAEntry>>`, where `None` means the fetch threw.

Prices are exact reals. `Array.sort` with a comparator is modelled by a stable insertion sort (`Sorting.Sort`). That sort is proved to be a permutation, and to be ordered whenever the comparator is consistent.

Where a component's stated intent and its code differ, the model follows the code:

- Loading the watchlist with nothing saved shows the five default tickers but does not write them to storage (components/Watchlist.tsx:27-29).
- The calendar's "past" filter compares the raw timestamp with now (`date < now`), not the day count (components/PDUFACalendar.tsx:30). An entry dated less than a day ago is therefore filtered as past while its card shows 0 days and the urgent flag (`PDUFACalendar.PastEntryWithinADayIsUrgent`).
- If the calendar load throws inside `fetchStockData`, the `catch` at components/Watchlist.tsx:73 skips `setWatchlist`. The rows already shown stay; they are not replaced by unenriched quotes.

## Model

| member | source | states |
|---|---|---|
| Days.CeilDiv | components/PDUFACalendar.tsx:40 | the result is the ceiling of a / d: `(q-1)*d < a <= q*d` |
| Days.DaysUntil | components/PDUFACalendar.tsx:37-42 | the day count is the least whole number of days, counted from now, that reaches the decision date |
| Days.CeilUnique | components/Watchlist.tsx:58 | the two ceiling inequalities determine the day count uniquely |
| Days.DaysUntilExamples | components/PDUFACalendar.tsx:37-42 | a date equal to now gives 0, one day ahead gives 1, one day back gives -1 |
| Days.DaysUntilNegativeIff | components/PDUFACalendar.tsx:117 | the count is negative exactly when the date is at least one full day before now |
| Days.DaysUntilMonotone | components/PDUFACalendar.tsx:40 | a later date never gets a smaller day count |
| Text.Upper | components/StockScanner.tsx:68 | uppercasing keeps the length and maps each character through the case table |
| Text.UpperIdempotent | components/StockScanner.tsx:21 | uppercasing the already-uppercased field again changes nothing |
| Text.LexTotal | components/Watchlist.tsx:96 | any two tickers are comparable under the ticker order |
| Text.LexTransitive | components/Watchlist.tsx:96 | the ticker order is transitive |
| Text.LexAntisymmetric | components/Watchlist.tsx:96 | two tickers each before the other are equal |
| Text.LexCompare | components/Watchlist.tsx:96 | the comparison is 0 exactly for equal tickers and not positive exactly when the first is ordered before the second |
| Text.LexCompareSwap | components/Watchlist.tsx:96 | swapping the arguments negates the sign of the comparison |
| Text.TrimStart | components/StockScanner.tsx:14 | the result is a suffix of the input that starts with a non-space character, and everything dropped was whitespace |
| Text.TrimEnd | components/StockScanner.tsx:14 | the result is a prefix of the input that ends with a non-space character, and everything dropped was whitespace |
| Text.Trim | components/StockScanner.tsx:14 | the trimmed string is a contiguous window of the input with only whitespace outside it, and when non-empty it starts and ends with a non-space character, so exactly the leading and trailing whitespace is removed |
| Text.IsBlank | components/StockScanner.tsx:14 | `!ticker.trim()` holds exactly when every character is whitespace, so "" and "  " are blank and " A" is not |
| Text.Join | app/api/stocks/batch/route.ts:14 | no items join to the empty string, one item to itself, and every character of the result is the separator or comes from an item |
| Text.SplitJoin | app/api/stocks/batch/route.ts:14 | splitting the joined string at the separator gives back the items, when no item contains the separator |
| Sorting.Sort | components/Watchlist.tsx:85 | the sorted copy is a permutation of its input |
| Sorting.SortSorted | components/PDUFACalendar.tsx:35 | under a total, transitive comparator the sorted copy is ordered |
| PositionCalculator.Calculate | components/PositionCalculator.tsx:18-39 | NaN or non-positive prices give no result; otherwise `shares*p <= 9990 < (shares+1)*p`, `totalCost = shares*p + 10 <= 10000`, `leftover = 10000 - totalCost` with `0 <= leftover < p`, and meetsMinimum iff `p >= 10` |
| PositionCalculator.MeetsMinimum | components/PositionCalculator.tsx:31 | a price qualifies exactly when it is at least 10, and a qualifying price is always a valid one |
| PositionCalculator.FloorBounds | components/PositionCalculator.tsx:28 | `floor(a/p)` shares cost at most a, and one more share would exceed it |
| PositionCalculator.CalculateExamples | components/PositionCalculator.tsx:27-31 | price 5 gives 1998 / 10000 / 0 / false; price 100 gives 99 / 9910 / 90 / true; price 10 gives 999 / 10000 / 0 / true |
| PositionCalculator.PriceAboveAvailableBuysNothing | components/PositionCalculator.tsx:27-30 | a price above 9990 gives 0 shares, cost 10 and leftover 9990 |
| PositionCalculator.Submit | components/PositionCalculator.tsx:21-38 | a rejected price leaves the calculator as it was; an accepted one shows exactly the sizing for that price |
| PositionCalculator.Reset | components/PositionCalculator.tsx:41-44 | reset clears the price text and the result |
| TickerStorage.Current | components/StockScanner.tsx:39-40 | a missing stored list reads as empty |
| TickerStorage.AddIfAbsent | components/PDUFACalendar.tsx:57-58 | the ticker ends up in the list; an absent ticker is appended at the end with earlier entries unchanged and the length one greater; a present one leaves the length unchanged |
| TickerStorage.AddIdempotent | components/StockScanner.tsx:42-44 | adding the same ticker twice is adding it once |
| TickerStorage.AddKeepsNoDuplicates | components/StockScanner.tsx:42-44 | a list without duplicates stays without duplicates |
| TickerStorage.TickerStore.Add | components/StockScanner.tsx:39-48 | adds and reports Added exactly when the ticker was absent; otherwise leaves the slot untouched and reports the duplicate |
| TickerStorage.TickerStore.Write | components/Watchlist.tsx:82 | the slot then holds exactly the given list |
| TickerStorage.TickerStore.constructor | components/StockScanner.tsx:39 | the slot starts with what the browser had stored, possibly nothing |
| StockScanner.QuickSizing | components/StockScanner.tsx:153-172 | the quick view is shown exactly when the scanned price is at least 10, and its three figures equal the calculator's shares, totalCost and leftover |
| StockScanner.MeetsMinimum | components/StockScanner.tsx:57 | no scanned stock never qualifies; a stock qualifies exactly under the calculator's rule for its price |
| StockScanner.Scanner.constructor | components/StockScanner.tsx:7-10 | the scanner starts with an empty ticker, no stock, no spinner and no error |
| StockScanner.Scanner.SetTicker | components/StockScanner.tsx:68 | the field holds the uppercased input |
| StockScanner.Scanner.Scan | components/StockScanner.tsx:12-34 | a blank ticker changes nothing and looks nothing up; otherwise the uppercased ticker is looked up, and either the stock or the not-found message replaces what was shown |
| StockScanner.Scanner.Fetch | components/StockScanner.tsx:16-33 | the uppercased ticker is requested, and the stock found or the not-found message is shown, with the spinner off at the end and the ticker field untouched |
| StockScanner.Scanner.AddToWatchlist | components/StockScanner.tsx:36-49 | with no scanned stock nothing happens; otherwise its ticker is appended if absent, and the notice says which case occurred |
| BatchQuotes.SymbolsParamRoundTrip | app/api/stocks/batch/route.ts:14 | the symbols parameter splits back, at commas, into the uppercased tickers in input order |
| BatchQuotes.SymbolsParam | app/api/stocks/batch/route.ts:14 | a single ticker gives its uppercased self, and the parameter never contains a lower-case letter |
| BatchQuotes.OrString | app/api/stocks/batch/route.ts:38 | a present, non-empty string wins; otherwise the fallback is used |
| BatchQuotes.Round2 | app/api/stocks/batch/route.ts:39-40 | the rounded value is a whole number of cents within half a cent of the input, and never negative for a non-negative input |
| BatchQuotes.ToStock | app/api/stocks/batch/route.ts:36-44 | ticker is the symbol; the company name is a non-empty longName, else a non-empty shortName, else the symbol; a missing price or change becomes 0 and a present one is rounded to within half a cent; a missing volume or market cap becomes 0; the stamp is the response time |
| BatchQuotes.MapQuotes | app/api/stocks/batch/route.ts:36 | one Stock per provider quote, in provider order |
| BatchQuotes.Post | app/api/stocks/batch/route.ts:3-55 | a non-array or empty list gives 400 `Invalid tickers array`; every other failure gives 500 `Failed to fetch stock data`; stocks come back exactly when the provider replies OK with a result list, and they are then the quotes mapped one by one in provider order (so ticker == symbol and the field defaults hold) |
| BatchQuotes.RejectedRequestSkipsProvider | app/api/stocks/batch/route.ts:7-12 | a rejected or unparseable request gives the same response whatever the provider would do, so no upstream call is made |
| BatchQuotes.ProviderSeenOnlyThroughSymbols | app/api/stocks/batch/route.ts:14-24 | the response depends on the provider only through its reply to the symbols string |
| WatchlistView.InitialTickers | components/Watchlist.tsx:22-30 | the saved list if there is one, else exactly AGIO, CYTK, CORT, DNLI, TVTX |
| WatchlistView.FirstMatch | components/Watchlist.tsx:54 | finds nothing iff no calendar entry has the ticker; otherwise finds the first entry that has it |
| WatchlistView.FirstMatchUnique | components/Watchlist.tsx:54 | the first matching entry is unique |
| WatchlistView.EnrichStock | components/Watchlist.tsx:53-69 | the base stock is unchanged; an unmatched stock gets no optional fields; a matched one gets the first entry's date, drug and indication and the day count from now |
| WatchlistView.EnrichAll | components/Watchlist.tsx:53 | one enriched row per returned stock, in the same order |
| WatchlistView.AsItems | components/Watchlist.tsx:42 | the request body carries the stored tickers, all strings, in order |
| WatchlistView.Refreshed | components/Watchlist.tsx:37-76 | an error response, an empty ticker list or a calendar failure leaves the rows unchanged; otherwise the rows are the provider quotes, mapped to stocks and each joined with the calendar, one per quote in provider order |
| WatchlistView.WithoutTicker | components/Watchlist.tsx:79 | keeps exactly the rows whose ticker differs, and removing an absent ticker changes nothing |
| WatchlistView.WithoutTickerAppend | components/Watchlist.tsx:79 | removal distributes over concatenation, so the kept rows keep their order |
| WatchlistView.Tickers | components/Watchlist.tsx:81 | the saved list is the rows' tickers, position by position |
| WatchlistView.RemovedTickerGone | components/Watchlist.tsx:78-83 | the saved list no longer holds the removed ticker but holds every other row's ticker |
| WatchlistView.PdufaComparatorFacts | components/Watchlist.tsx:87-90 | a row with days absent or 0 goes after any row with non-zero days; two such rows compare by ascending days; two rows without days both compare as 1 |
| WatchlistView.Compare | components/Watchlist.tsx:86-99 | price and change let a row stay in front exactly when its value is not smaller; ticker exactly when its ticker is not later, with 0 only for equal tickers; the date key sends a row without days after anything and a row with days before one without |
| WatchlistView.PdufaComparatorInconsistent | components/Watchlist.tsx:88-89 | the date comparator is not a consistent order |
| WatchlistView.KeyComparatorConsistent | components/Watchlist.tsx:91-96 | the price, change and ticker comparators are total and transitive |
| WatchlistView.SortRows | components/Watchlist.tsx:85-100 | the sorted copy is a permutation of the rows, with descending price, descending change or ascending ticker for those keys |
| WatchlistView.EnrichedRowPastIff | components/Watchlist.tsx:166 | an enriched row shows PASSED exactly when its first matching entry's date is at least a full day before now |
| WatchlistView.RowIsPast | components/Watchlist.tsx:166 | a row is PASSED exactly when it has a negative day count: a row without a count, or with a count of 0 or more, never is |
| WatchlistView.RowMeetsMinimum | components/Watchlist.tsx:165 | the row badge follows the same rule as the scanner's badge for that stock |
| WatchlistView.RowBadgeAgreesWithCalculator | components/Watchlist.tsx:165 | the row's minimum-price badge equals the calculator's eligibility for that price |
| WatchlistView.Watchlist.constructor | components/Watchlist.tsx:11-13 | the panel starts with no rows, the date key and the spinner on |
| WatchlistView.Watchlist.FetchStockData | components/Watchlist.tsx:37-76 | the rows become the refreshed rows for the ticker list, provider reply and calendar |
| WatchlistView.Watchlist.LoadWatchlist | components/Watchlist.tsx:19-35 | the saved tickers, or the defaults, are fetched; the spinner ends off |
| WatchlistView.Watchlist.RemoveStock | components/Watchlist.tsx:78-83 | the rows lose the ticker, and storage then holds exactly the remaining rows' tickers |
| WatchlistView.Watchlist.SetSortBy | components/Watchlist.tsx:125 | the chosen key becomes the sort key |
| WatchlistView.Watchlist.SortedWatchlist | components/Watchlist.tsx:85-100 | a sorted copy: a permutation of the rows, ordered for the price, change and ticker keys |
| PDUFACalendar.FilterEntries | components/PDUFACalendar.tsx:27-34 | keeps exactly the entries the filter accepts: upcoming is `date >= now`, past is `date < now`, and all keeps everything |
| PDUFACalendar.Keeps | components/PDUFACalendar.tsx:30-34 | upcoming accepts `date >= now`, past accepts `date < now`, all accepts every date |
| PDUFACalendar.UpcomingPastDisjoint | components/PDUFACalendar.tsx:30-33 | no entry is both upcoming and past |
| PDUFACalendar.UpcomingPastPartition | components/PDUFACalendar.tsx:30-34 | upcoming plus past is the whole calendar as a multiset |
| PDUFACalendar.ByDate | components/PDUFACalendar.tsx:35 | an entry may stay in front of another exactly when its date is not later, so the comparator is total and transitive |
| PDUFACalendar.FilteredCalendar | components/PDUFACalendar.tsx:27-35 | the shown list is a permutation of the kept entries, each accepted by the filter, in ascending date order |
| PDUFACalendar.FlagsExclusive | components/PDUFACalendar.tsx:116-118 | a card is never both passed and urgent, and a count of 0 is urgent |
| PDUFACalendar.IsPassed | components/PDUFACalendar.tsx:117 | a count of 0 or more is not passed, a count of -1 or less is |
| PDUFACalendar.IsUrgent | components/PDUFACalendar.tsx:118 | every count from 0 to 14 is urgent, anything above 14 is not, and an urgent count is never passed |
| PDUFACalendar.UpcomingNeverPassed | components/PDUFACalendar.tsx:32 | an upcoming entry's card is never shown as passed |
| PDUFACalendar.PastEntryWithinADayIsUrgent | components/PDUFACalendar.tsx:30-40 | an entry less than a day before now is filtered as past, yet shows 0 days and the urgent flag |
| PDUFACalendar.PastEntryPassedIff | components/PDUFACalendar.tsx:116-117 | a past entry's card shows passed exactly when its date is at least a full day back |
| PDUFACalendar.Calendar.constructor | components/PDUFACalendar.tsx:7-8 | the panel starts empty on the upcoming filter |
| PDUFACalendar.Calendar.LoadCalendar | components/PDUFACalendar.tsx:15-25 | a successful load replaces the entries; a failed one keeps them |
| PDUFACalendar.Calendar.SetFilter | components/PDUFACalendar.tsx:8 | the chosen filter becomes active |
| PDUFACalendar.Calendar.Shown | components/PDUFACalendar.tsx:27-35 | the panel shows the kept entries, permuted into ascending date order |
| PDUFACalendar.Calendar.AddToWatchlist | components/PDUFACalendar.tsx:53-64 | appends the ticker if absent, otherwise leaves storage untouched; the notice names the ticker and says which case occurred |

## Left out

- Network calls:
  - The provider URL, request headers and the 60-second revalidation cache are not modelled. The provider is the reply it gives for the symbols string.
  - The single-quote route is not part of this model. Its result is a lookup parameter.
  - The calendar file fetch is not modelled; its outcome is a parameter.
- Browser storage and JSON: the stored list is always a list of strings. A stored value that is not an array of strings, or that fails to parse, is not modelled.
- Rendering, `alert` text, `console.error`, the loading spinner markup, `toLocaleString`, `formatMarketCap` and the page layout with its dark-mode toggle are not modelled. They are presentation only.
- Floating point: prices are exact reals. IEEE-754 rounding, `Infinity` and the textual behaviour of `parseFloat` are not modelled. NaN is `None` in the parsed price.
- BatchQuotes.Round2: this is `toFixed(2)` on an exact real, with halves rounded away from zero. It does not capture the binary-float cases where `toFixed` rounds a printed half the other way.
- BatchQuotes.ToStock: `lastUpdated` is the response time as milliseconds, not its ISO string. A provider value of another JSON type is not modelled: fields are typed options, so `||` falls back only on absent values, "" and 0.
- Dates: `new Date(text)` is the `DateParser` parameter, and an invalid date (NaN time) is not modelled. All `new Date()` calls in one evaluation share one `nowMs`.
- Text.LexCompare: `localeCompare` is approximated by plain code-point lexicographic order; locale collation rules are not modelled.
- Text.Upper: `toUpperCase` is modelled for ASCII letters only.
- Text.Trim / Text.IsBlank: whitespace is the ASCII whitespace characters and the no-break space (U+00A0) only; JavaScript's `trim` also strips U+FEFF, U+1680, U+2000–U+200A, U+2028, U+2029, U+202F, U+205F and U+3000, so a ticker made only of those counts as non-blank here.
- WatchlistView.SortRows: under the date key the comparator is inconsistent, so the order `Array.sort` produces is engine-defined. Only the permutation is stated for that key, and the facts about the comparator are proved separately.
- Sorting.Sort: the sort is a stable insertion sort standing in for `Array.sort`. Only its permutation and ordering results carry over.
- The days-until colour threshold of 7 and the status badge text are presentation only.
