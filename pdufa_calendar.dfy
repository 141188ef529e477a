/**
 * The regulatory-decision calendar panel (components/PDUFACalendar.tsx):
 * filter the entries by whether their date is before now, sort what is kept
 * by date, show each entry's day count with "passed" and "urgent" flags, and
 * add an entry's ticker to the saved watchlist.
 */
module PDUFACalendar {
  import opened Types
  import opened Days
  import opened Sorting
  import opened TickerStorage

  datatype Filter = All | Upcoming | Past

  /** `pdufa_date < today`: the raw timestamp comparison the filter uses. */
  predicate IsPastDate(dateMs: int, nowMs: int) {
    dateMs < nowMs
  }

  /** Upcoming keeps `date >= now`, past keeps `date < now`, all keeps everything. */
  function Keeps(filter: Filter, dateMs: int, nowMs: int): (b: bool)
    ensures filter == Upcoming ==> (b <==> dateMs >= nowMs)
    ensures filter == Past ==> (b <==> dateMs < nowMs)
    ensures filter == All ==> b
  {
    match filter
    case Upcoming => !IsPastDate(dateMs, nowMs)
    case Past => IsPastDate(dateMs, nowMs)
    case All => true
  }

  /** `calendar.filter(...)`: the entries the filter keeps, in their original order. */
  function FilterEntries(entries: seq<PDUFAEntry>, filter: Filter, nowMs: int, parse: DateParser): (r: seq<PDUFAEntry>)
    ensures |r| <= |entries|
    ensures forall e :: e in r <==> e in entries && Keeps(filter, parse(e.pdufaDate), nowMs)
    ensures filter == All ==> r == entries
  {
    if entries == [] then []
    else
      assert entries == [entries[0]] + entries[1..];
      (if Keeps(filter, parse(entries[0].pdufaDate), nowMs) then [entries[0]] else [])
        + FilterEntries(entries[1..], filter, nowMs, parse)
  }

  /** No entry is both upcoming and past. */
  lemma UpcomingPastDisjoint(entries: seq<PDUFAEntry>, nowMs: int, parse: DateParser)
    ensures forall e :: e in FilterEntries(entries, Upcoming, nowMs, parse) ==> e !in FilterEntries(entries, Past, nowMs, parse)
  {
  }

  /** Filtering a list with a known first entry. */
  lemma FilterCons(entries: seq<PDUFAEntry>, filter: Filter, nowMs: int, parse: DateParser)
    requires entries != []
    ensures FilterEntries(entries, filter, nowMs, parse)
            == (if Keeps(filter, parse(entries[0].pdufaDate), nowMs) then [entries[0]] else [])
               + FilterEntries(entries[1..], filter, nowMs, parse)
  {
  }

  /** Upcoming and past together make up the whole calendar, counting repeated entries. */
  lemma {:induction false} UpcomingPastPartition(entries: seq<PDUFAEntry>, nowMs: int, parse: DateParser)
    ensures multiset(FilterEntries(entries, Upcoming, nowMs, parse)) + multiset(FilterEntries(entries, Past, nowMs, parse))
            == multiset(entries)
  {
    if entries != [] {
      UpcomingPastPartition(entries[1..], nowMs, parse);
      PartitionStep(entries, nowMs, parse);
    }
  }

  /** The inductive step: the first entry lands in exactly one of the two halves. */
  lemma PartitionStep(entries: seq<PDUFAEntry>, nowMs: int, parse: DateParser)
    requires entries != []
    requires multiset(FilterEntries(entries[1..], Upcoming, nowMs, parse)) + multiset(FilterEntries(entries[1..], Past, nowMs, parse))
             == multiset(entries[1..])
    ensures multiset(FilterEntries(entries, Upcoming, nowMs, parse)) + multiset(FilterEntries(entries, Past, nowMs, parse))
            == multiset(entries)
  {
    var e, rest := entries[0], entries[1..];
    var d := parse(e.pdufaDate);
    FilterCons(entries, Upcoming, nowMs, parse);
    FilterCons(entries, Past, nowMs, parse);
    assert Keeps(Upcoming, d, nowMs) == !Keeps(Past, d, nowMs);
    assert entries == [e] + rest;
    OneSideStep(e, rest, FilterEntries(rest, Upcoming, nowMs, parse), FilterEntries(rest, Past, nowMs, parse),
                FilterEntries(entries, Upcoming, nowMs, parse), FilterEntries(entries, Past, nowMs, parse));
  }

  /** Putting one more element on exactly one side of a split keeps it a split. */
  lemma OneSideStep<T>(e: T, rest: seq<T>, up: seq<T>, past: seq<T>, up2: seq<T>, past2: seq<T>)
    requires multiset(up) + multiset(past) == multiset(rest)
    requires (up2 == [e] + up && past2 == past) || (up2 == up && past2 == [e] + past)
    ensures multiset(up2) + multiset(past2) == multiset([e] + rest)
  {
    assert multiset([e] + rest) == multiset{e} + multiset(rest);
    if up2 == [e] + up {
      assert multiset(up2) == multiset{e} + multiset(up);
    } else {
      assert multiset(past2) == multiset{e} + multiset(past);
    }
  }

  /**
   * `(a, b) => date(a) - date(b)`: a may stay in front of b exactly when its
   * date is not later, which makes it a consistent comparator.
   */
  function ByDate(parse: DateParser): (cmp: (PDUFAEntry, PDUFAEntry) -> real)
    ensures forall a, b :: NotAfter(cmp, a, b) <==> parse(a.pdufaDate) <= parse(b.pdufaDate)
    ensures Consistent(cmp)
  {
    (a: PDUFAEntry, b: PDUFAEntry) => (parse(a.pdufaDate) - parse(b.pdufaDate)) as real
  }

  /** `filteredCalendar`: the kept entries, rearranged into ascending date order. */
  function FilteredCalendar(entries: seq<PDUFAEntry>, filter: Filter, nowMs: int, parse: DateParser): (r: seq<PDUFAEntry>)
    ensures multiset(r) == multiset(FilterEntries(entries, filter, nowMs, parse))
    ensures forall i :: 0 <= i < |r| ==> Keeps(filter, parse(r[i].pdufaDate), nowMs)
    ensures forall i, j :: 0 <= i < j < |r| ==> parse(r[i].pdufaDate) <= parse(r[j].pdufaDate)
  {
    var kept := FilterEntries(entries, filter, nowMs, parse);
    var cmp := ByDate(parse);
    var r := Sort(kept, cmp);
    SortSorted(kept, cmp);
    forall i | 0 <= i < |r| ensures Keeps(filter, parse(r[i].pdufaDate), nowMs) {
      assert r[i] in multiset(kept);
    }
    r
  }

  /** `isPast` on a card: the day count is negative. */
  function IsPassed(days: int): (b: bool)
    ensures days >= 0 ==> !b
    ensures days <= -1 ==> b
  {
    days < 0
  }

  /** `isUrgent` on a card: the decision is today or within two weeks. */
  function IsUrgent(days: int): (b: bool)
    ensures b ==> !IsPassed(days)
    ensures 0 <= days <= 14 ==> b
    ensures days > 14 ==> !b
  {
    0 <= days <= 14
  }

  /** A card is never both passed and urgent, and a count of 0 is urgent. */
  lemma FlagsExclusive(days: int)
    ensures !(IsPassed(days) && IsUrgent(days))
    ensures IsUrgent(0) && !IsPassed(0)
  {
  }

  /** An upcoming entry's card is never shown as passed. */
  lemma UpcomingNeverPassed(dateMs: int, nowMs: int)
    requires Keeps(Upcoming, dateMs, nowMs)
    ensures !IsPassed(DaysUntil(dateMs, nowMs))
  {
    DaysUntilNegativeIff(dateMs, nowMs);
  }

  /**
   * The filter and the day count disagree on the last day: an entry dated
   * less than a day before now is listed under "past" yet its card shows
   * 0 days and the urgent flag.
   */
  lemma PastEntryWithinADayIsUrgent(dateMs: int, nowMs: int)
    requires nowMs - MsPerDay < dateMs < nowMs
    ensures Keeps(Past, dateMs, nowMs) && !Keeps(Upcoming, dateMs, nowMs)
    ensures DaysUntil(dateMs, nowMs) == 0
    ensures !IsPassed(DaysUntil(dateMs, nowMs)) && IsUrgent(DaysUntil(dateMs, nowMs))
  {
    CeilUnique(dateMs - nowMs, MsPerDay, 0);
  }

  /** A past entry's card shows "passed" exactly when its date is at least a full day back. */
  lemma PastEntryPassedIff(dateMs: int, nowMs: int)
    requires Keeps(Past, dateMs, nowMs)
    ensures IsPassed(DaysUntil(dateMs, nowMs)) <==> dateMs <= nowMs - MsPerDay
  {
    DaysUntilNegativeIff(dateMs, nowMs);
  }

  /** The panel's state: the loaded entries and the active filter. */
  class Calendar {
    var entries: seq<PDUFAEntry>
    var filter: Filter

    constructor ()
      ensures entries == [] && filter == Upcoming
    {
      entries := [];
      filter := Upcoming;
    }

    /** `loadCalendar`: the fetched entries, or (if the fetch throws) what was there before. */
    method LoadCalendar(data: Option<seq<PDUFAEntry>>)
      modifies this`entries
      ensures data.Some? ==> entries == data.value
      ensures data.None? ==> entries == old(entries)
    {
      if data.Some? {
        entries := data.value;
      }
    }

    method SetFilter(f: Filter)
      modifies this`filter
      ensures filter == f
    {
      filter := f;
    }

    function Shown(nowMs: int, parse: DateParser): (r: seq<PDUFAEntry>)
      reads this
      ensures multiset(r) == multiset(FilterEntries(entries, filter, nowMs, parse))
      ensures forall i, j :: 0 <= i < j < |r| ==> parse(r[i].pdufaDate) <= parse(r[j].pdufaDate)
    {
      FilteredCalendar(entries, filter, nowMs, parse)
    }

    /** `addToWatchlist(ticker)` from a calendar card. */
    method AddToWatchlist(store: TickerStore, t: string) returns (notice: Notice)
      modifies store
      ensures notice.ticker == t
      ensures notice.Added? <==> t !in Current(old(store.saved))
      ensures notice.Added? ==> store.saved == Some(Current(old(store.saved)) + [t])
      ensures notice.AlreadyPresent? ==> store.saved == old(store.saved)
    {
      notice := store.Add(t);
    }
  }
}
