/**
 * The month cursor that drives the monthly series endpoints: start at the
 * first day of the start month, step one calendar month at a time while the
 * cursor is not past the end date, and stop after at most 120 steps.
 */
module MonthCursor {
  import opened Wrappers

  /** A calendar date; only its ordering and its month matter here. */
  datatype Date = Date(year: int, month: int, day: int)

  /** What `strptime` guarantees of a parsed date. */
  predicate ValidDate(d: Date) {
    1 <= d.month <= 12 && 1 <= d.day <= 31
  }

  /** Chronological order of dates, as `datetime` compares them. */
  predicate Before(a: Date, b: Date) {
    a.year < b.year
    || (a.year == b.year && a.month < b.month)
    || (a.year == b.year && a.month == b.month && a.day <= b.day)
  }

  /** The cap on the number of months the loop visits. */
  const MaxIterations: nat := 120

  /** Months counted from January of year 0, so that consecutive months differ by one. */
  function MonthIndex(d: Date): int {
    d.year * 12 + d.month - 1
  }

  /** The first day of the month with index `m`. */
  function FromMonthIndex(m: int): (d: Date)
    ensures ValidDate(d) && d.day == 1
    ensures MonthIndex(d) == m
  {
    Date(m / 12, m % 12 + 1, 1)
  }

  /** `d.replace(day=1)`. */
  function MonthStart(d: Date): (r: Date)
    requires ValidDate(d)
    ensures r == FromMonthIndex(MonthIndex(d))
  {
    d.(day := 1)
  }

  /** The cursor step: December rolls over to January of the next year. */
  function NextMonth(c: Date): Date {
    if c.month == 12 then Date(c.year + 1, 1, 1) else Date(c.year, c.month + 1, 1)
  }

  /** The step lands on the first of the following month, across year ends too. */
  lemma NextMonthAdvancesOne(m: int)
    ensures NextMonth(FromMonthIndex(m)) == FromMonthIndex(m + 1)
  {
  }

  /** A first-of-month date is not past the end date exactly when its month is not after the end's month. */
  lemma MonthStartBeforeIff(m: int, end: Date)
    requires ValidDate(end)
    ensures Before(FromMonthIndex(m), end) <==> m <= MonthIndex(end)
  {
  }

  function Min(a: int, b: int): int { if a <= b then a else b }
  function Max(a: int, b: int): int { if a >= b then a else b }

  /** How many months the loop visits: those from the start month to the end month, at most 120. */
  function MonthCount(start: Date, end: Date): nat {
    Min(MaxIterations, Max(0, MonthIndex(end) - MonthIndex(start) + 1))
  }

  /** The cursors the loop visits, in order: the first of each month of the range, capped at 120. */
  function MonthCursors(start: Date, end: Date): (cs: seq<Date>)
    ensures |cs| == MonthCount(start, end) <= MaxIterations
  {
    seq(MonthCount(start, end), i => FromMonthIndex(MonthIndex(start) + i))
  }

  /** The entries that the month function produced, in cursor order; `None` months are skipped. */
  function Produced<T>(cs: seq<Date>, entryFor: Date -> Option<T>): seq<T> {
    if cs == [] then []
    else
      var rest := Produced(cs[..|cs| - 1], entryFor);
      match entryFor(cs[|cs| - 1])
      case Some(e) => rest + [e]
      case None => rest
  }

  /**
   * The loop of `get_lst_monthly`: one call of the month function per cursor;
   * a month that yields nothing (or raises) is skipped.
   */
  method MonthlySeries<T>(start: Date, end: Date, entryFor: Date -> Option<T>) returns (series: seq<T>)
    requires ValidDate(start) && ValidDate(end)
    ensures series == Produced(MonthCursors(start, end), entryFor)
  {
    ghost var all := MonthCursors(start, end);
    ghost var first := MonthIndex(start);
    series := [];
    var cursor := MonthStart(start);
    var iteration := 0;
    while Before(cursor, end) && iteration < MaxIterations
      invariant 0 <= iteration <= |all|
      invariant cursor == FromMonthIndex(first + iteration)
      invariant series == Produced(all[..iteration], entryFor)
      decreases MaxIterations - iteration
    {
      MonthStartBeforeIff(first + iteration, end);
      assert all[..iteration + 1][..iteration] == all[..iteration];
      var entry := entryFor(cursor);
      if entry.Some? {
        series := series + [entry.value];
      }
      NextMonthAdvancesOne(first + iteration);
      if cursor.month == 12 {
        cursor := Date(cursor.year + 1, 1, 1);
      } else {
        cursor := Date(cursor.year, cursor.month + 1, 1);
      }
      iteration := iteration + 1;
    }
    MonthStartBeforeIff(first + iteration, end);
    assert all[..iteration] == all;
  }

  /**
   * The visited months are consecutive first-of-months starting at the start
   * month, none of them past the end date, and the end's month is visited
   * unless the 120-month cap stopped the loop first.
   */
  lemma MonthCursorsProperties(start: Date, end: Date)
    requires ValidDate(start) && ValidDate(end)
    ensures var cs := MonthCursors(start, end);
      && (cs != [] ==> cs[0] == MonthStart(start))
      && (forall i :: 0 <= i < |cs| ==> cs[i].day == 1 && Before(cs[i], end))
      && (forall i :: 0 < i < |cs| ==> cs[i] == NextMonth(cs[i - 1]))
      && (Before(MonthStart(start), end) && |cs| < MaxIterations ==> MonthIndex(cs[|cs| - 1]) == MonthIndex(end))
  {
    var cs := MonthCursors(start, end);
    forall i | 0 <= i < |cs|
      ensures cs[i].day == 1 && Before(cs[i], end)
    {
      MonthStartBeforeIff(MonthIndex(start) + i, end);
    }
    forall i | 0 < i < |cs|
      ensures cs[i] == NextMonth(cs[i - 1])
    {
      NextMonthAdvancesOne(MonthIndex(start) + i - 1);
    }
    MonthStartBeforeIff(MonthIndex(start), end);
    if Before(MonthStart(start), end) && |cs| < MaxIterations {
      assert |cs| == MonthIndex(end) - MonthIndex(start) + 1;
      assert cs[|cs| - 1] == FromMonthIndex(MonthIndex(end));
    }
  }
}
