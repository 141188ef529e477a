/**
 * The browser-local `'watchlist'` slot: an ordered list of ticker strings,
 * or nothing at all before the first write. The scanner and the calendar
 * append to it (components/StockScanner.tsx:36-49,
 * components/PDUFACalendar.tsx:53-64); the watchlist reads it and rewrites
 * it on removal (components/Watchlist.tsx:22-30,78-83).
 */
module TickerStorage {
  import opened Types

  /** `saved ? JSON.parse(saved) : []`: a missing list reads as empty. */
  function Current(saved: Option<seq<string>>): (list: seq<string>)
    ensures saved.None? ==> list == []
    ensures saved.Some? ==> list == saved.value
  {
    saved.GetOr([])
  }

  /** The list after an add: the ticker appended at the end unless it is already there. */
  function AddIfAbsent(list: seq<string>, t: string): (r: seq<string>)
    ensures t in r
    ensures |r| == if t in list then |list| else |list| + 1
    ensures r[..|list|] == list
    ensures t !in list ==> r[|list|] == t
  {
    if t in list then list else list + [t]
  }

  ghost predicate NoDuplicates(list: seq<string>) {
    forall i, j :: 0 <= i < j < |list| ==> list[i] != list[j]
  }

  /** Adding twice is adding once. */
  lemma AddIdempotent(list: seq<string>, t: string)
    ensures AddIfAbsent(AddIfAbsent(list, t), t) == AddIfAbsent(list, t)
  {
  }

  /** A list without duplicates keeps that property under add. */
  lemma AddKeepsNoDuplicates(list: seq<string>, t: string)
    requires NoDuplicates(list)
    ensures NoDuplicates(AddIfAbsent(list, t))
  {
    var r := AddIfAbsent(list, t);
    if t !in list {
      forall i, j | 0 <= i < j < |r| ensures r[i] != r[j] {
        if j == |list| {
          assert r[i] == list[i];
        }
      }
    }
  }

  /** The alert shown after an add. */
  datatype Notice = Added(ticker: string) | AlreadyPresent(ticker: string)

  /** The storage slot itself; both adding components and the watchlist share one. */
  class TickerStore {
    var saved: Option<seq<string>>

    constructor (initial: Option<seq<string>>)
      ensures saved == initial
    {
      saved := initial;
    }

    /**
     * Read the list, push the ticker if absent and write the list back;
     * otherwise leave the slot untouched and report the duplicate.
     */
    method Add(t: string) returns (notice: Notice)
      modifies this
      ensures notice.ticker == t
      ensures notice.Added? <==> t !in Current(old(saved))
      ensures notice.Added? ==> saved == Some(AddIfAbsent(Current(old(saved)), t))
      ensures notice.AlreadyPresent? ==> saved == old(saved)
    {
      var list := Current(saved);
      if t !in list {
        list := list + [t];
        saved := Some(list);
        notice := Added(t);
      } else {
        notice := AlreadyPresent(t);
      }
    }

    /** `localStorage.setItem('watchlist', JSON.stringify(list))`. */
    method Write(list: seq<string>)
      modifies this
      ensures saved == Some(list)
    {
      saved := Some(list);
    }
  }
}
