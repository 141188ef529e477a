/**
 * The day count shown next to a decision date:
 * `Math.ceil((date - now) / (1000 * 60 * 60 * 24))` on millisecond timestamps
 * (components/Watchlist.tsx:58, components/PDUFACalendar.tsx:37-42).
 */
module Days {

  const MsPerDay: int := 1000 * 60 * 60 * 24

  /** The ceiling of a / d, characterised by the two inequalities that define it. */
  function CeilDiv(a: int, d: int): (q: int)
    requires d > 0
    ensures (q - 1) * d < a <= q * d
  {
    var k := (-a) / d;
    var m := (-a) % d;
    assert -a == d * k + m && 0 <= m < d;
    assert -k * d == a + m;
    -k
  }

  /** Whole days, rounded up, from `nowMs` to `dateMs`; negative once the date has passed. */
  function DaysUntil(dateMs: int, nowMs: int): (days: int)
    ensures (days - 1) * MsPerDay < dateMs - nowMs <= days * MsPerDay
  {
    CeilDiv(dateMs - nowMs, MsPerDay)
  }

  /** A ceiling is determined by its defining inequalities. */
  lemma CeilUnique(a: int, d: int, q: int)
    requires d > 0
    requires (q - 1) * d < a <= q * d
    ensures CeilDiv(a, d) == q
  {
  }

  /** Same instant gives 0, one day ahead gives 1, one day back gives -1. */
  lemma DaysUntilExamples(nowMs: int)
    ensures DaysUntil(nowMs, nowMs) == 0
    ensures DaysUntil(nowMs + MsPerDay, nowMs) == 1
    ensures DaysUntil(nowMs - MsPerDay, nowMs) == -1
  {
    CeilUnique(0, MsPerDay, 0);
    CeilUnique(MsPerDay, MsPerDay, 1);
    CeilUnique(-MsPerDay, MsPerDay, -1);
  }

  /** The count is negative exactly when the date lies at least one full day before now. */
  lemma DaysUntilNegativeIff(dateMs: int, nowMs: int)
    ensures DaysUntil(dateMs, nowMs) < 0 <==> dateMs <= nowMs - MsPerDay
  {
    var q := DaysUntil(dateMs, nowMs);
    if q < 0 {
      assert q * MsPerDay <= -MsPerDay;
    } else {
      assert (q - 1) * MsPerDay >= -MsPerDay;
    }
  }

  /** A later date never has a smaller day count. */
  lemma DaysUntilMonotone(d1: int, d2: int, nowMs: int)
    requires d1 <= d2
    ensures DaysUntil(d1, nowMs) <= DaysUntil(d2, nowMs)
  {
  }
}
