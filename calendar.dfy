/**
 * Calendar dates and fiscal quarters, with the two pieces of pandas date
 * arithmetic the resolver relies on: adding the anchored `QuarterEnd` offset
 * to a date, and `date_range(start, end, freq='Q')`.
 */
module Calendar {

  type Month = m: int | 1 <= m <= 12 witness 1

  type QuarterNumber = n: int | 1 <= n <= 4 witness 1

  /** A calendar date as the date parser returns it. */
  datatype Date = Date(year: nat, month: Month, day: nat)

  predicate IsLeapYear(y: nat) {
    y % 4 == 0 && (y % 100 != 0 || y % 400 == 0)
  }

  function DaysInMonth(y: nat, m: Month): nat {
    if m == 2 then (if IsLeapYear(y) then 29 else 28)
    else if m == 4 || m == 6 || m == 9 || m == 11 then 30
    else 31
  }

  predicate ValidDate(d: Date) {
    1 <= d.day <= DaysInMonth(d.year, d.month)
  }

  /** Chronological order: `a` is strictly earlier than `b`. */
  predicate Before(a: Date, b: Date) {
    a.year < b.year || (a.year == b.year && (a.month < b.month || (a.month == b.month && a.day < b.day)))
  }

  /** A quarter of the calendar year (pandas' `Period` with frequency 'Q'). */
  datatype Quarter = Quarter(year: nat, number: QuarterNumber)

  /** Position of a quarter on the time line; consecutive quarters are one apart. */
  function Ordinal(p: Quarter): nat {
    4 * p.year + p.number - 1
  }

  /** The quarter at a position, the inverse of Ordinal. */
  function QuarterAt(i: nat): (p: Quarter)
    ensures Ordinal(p) == i
  {
    Quarter(i / 4, i % 4 + 1)
  }

  lemma OrdinalInjective(p: Quarter, r: Quarter)
    requires Ordinal(p) == Ordinal(r)
    ensures p == r
  {
  }

  /** The quarter containing a date (`to_period('Q')`). */
  function QuarterOf(d: Date): Quarter {
    Quarter(d.year, (d.month - 1) / 3 + 1)
  }

  /** The last day of a quarter: March 31, June 30, September 30 or December 31. */
  function QuarterEnd(p: Quarter): (d: Date)
    ensures ValidDate(d) && QuarterOf(d) == p
  {
    Date(p.year, 3 * p.number, if p.number == 1 || p.number == 4 then 31 else 30)
  }

  predicate IsQuarterEnd(d: Date) {
    d == QuarterEnd(QuarterOf(d))
  }

  /**
   * A date is not after a quarter end exactly when its quarter is not after
   * that quarter end's quarter.
   */
  lemma NotAfterQuarterEnd(d: Date, x: Date)
    requires ValidDate(d) && IsQuarterEnd(x)
    ensures !Before(x, d) <==> Ordinal(QuarterOf(d)) <= Ordinal(QuarterOf(x))
  {
  }

  /** Quarter ends are ordered as their quarters are. */
  lemma QuarterEndsInOrder(p: Quarter, r: Quarter)
    requires Ordinal(p) < Ordinal(r)
    ensures Before(QuarterEnd(p), QuarterEnd(r))
  {
  }

  /** The quarter of a date never goes back as the date goes forward. */
  lemma QuarterOfMonotone(a: Date, b: Date)
    requires !Before(b, a)
    ensures Ordinal(QuarterOf(a)) <= Ordinal(QuarterOf(b))
  {
  }

  /**
   * `date + pd.offsets.QuarterEnd()`: the anchored offset always moves
   * forward, so a date that already is a quarter end moves to the next one.
   */
  function RollForward(d: Date): (r: Date)
    ensures IsQuarterEnd(r)
  {
    var p := QuarterOf(d);
    if IsQuarterEnd(d) then QuarterEnd(QuarterAt(Ordinal(p) + 1)) else QuarterEnd(p)
  }

  /** The quarter RollForward lands in: the date's own, or the next one for a quarter end. */
  lemma RollForwardQuarter(d: Date)
    ensures Ordinal(QuarterOf(RollForward(d))) == Ordinal(QuarterOf(d)) + (if IsQuarterEnd(d) then 1 else 0)
  {
  }

  /**
   * RollForward gives the first quarter end strictly after the date: it is
   * after the date, and a quarter end is after the date exactly when it is
   * not before RollForward's result.
   */
  lemma RollForwardIsFirstQuarterEndAfter(d: Date, x: Date)
    requires ValidDate(d) && IsQuarterEnd(x)
    ensures Before(d, RollForward(d))
    ensures Before(d, x) <==> !Before(x, RollForward(d))
  {
  }

  /** The quarter ends at positions lo, lo + 1, ..., hi (none when hi < lo). */
  function QuarterEndsFrom(lo: nat, hi: int): seq<Date> {
    seq(if hi < lo then 0 else hi - lo + 1, k requires k >= 0 => QuarterEnd(QuarterAt(lo + k)))
  }

  /** The last position DateRange(_, e) reaches. */
  function LastRangeOrdinal(e: Date): int {
    if IsQuarterEnd(e) then Ordinal(QuarterOf(e)) else Ordinal(QuarterOf(e)) - 1
  }

  /**
   * `pd.date_range(s, e, freq='Q')`: the quarter ends from the first one on
   * or after `s` to the last one on or before `e`.
   */
  function DateRange(s: Date, e: Date): seq<Date> {
    QuarterEndsFrom(Ordinal(QuarterOf(s)), LastRangeOrdinal(e))
  }

  /** The k-th element of DateRange is the quarter end k quarters after the start's quarter. */
  lemma DateRangeAt(s: Date, e: Date, k: nat)
    requires k < |DateRange(s, e)|
    ensures IsQuarterEnd(DateRange(s, e)[k]) && Ordinal(QuarterOf(DateRange(s, e)[k])) == Ordinal(QuarterOf(s)) + k
  {
    var lo := Ordinal(QuarterOf(s));
    var p := QuarterAt(lo + k);
    var d := QuarterEnd(p);
    assert DateRange(s, e)[k] == QuarterEndsFrom(lo, LastRangeOrdinal(e))[k] == d;
    assert QuarterOf(d) == p && Ordinal(p) == lo + k;
  }

  /**
   * DateRange enumerates quarter ends one quarter apart, in increasing order,
   * and holds exactly the quarter ends between its bounds.
   */
  lemma DateRangeIsQuarterEndsBetween(s: Date, e: Date)
    requires ValidDate(s) && ValidDate(e)
    ensures forall k :: 0 <= k < |DateRange(s, e)| ==> IsQuarterEnd(DateRange(s, e)[k])
    ensures forall k :: 0 <= k < |DateRange(s, e)| - 1 ==>
      Ordinal(QuarterOf(DateRange(s, e)[k + 1])) == Ordinal(QuarterOf(DateRange(s, e)[k])) + 1
    ensures forall j, k :: 0 <= j < k < |DateRange(s, e)| ==> Before(DateRange(s, e)[j], DateRange(s, e)[k])
    ensures forall x :: x in DateRange(s, e) <==> IsQuarterEnd(x) && !Before(x, s) && !Before(e, x)
  {
    var r := DateRange(s, e);
    var lo := Ordinal(QuarterOf(s));
    forall k | 0 <= k < |r|
      ensures IsQuarterEnd(r[k]) && Ordinal(QuarterOf(r[k])) == lo + k
    {
      DateRangeAt(s, e, k);
    }
    forall j, k | 0 <= j < k < |r|
      ensures Before(r[j], r[k])
    {
      QuarterEndsInOrder(QuarterOf(r[j]), QuarterOf(r[k]));
    }
    forall x
      ensures x in r <==> IsQuarterEnd(x) && !Before(x, s) && !Before(e, x)
    {
      InDateRange(s, e, x);
    }
  }

  /** Membership in DateRange: exactly the quarter ends between the bounds. */
  lemma InDateRange(s: Date, e: Date, x: Date)
    requires ValidDate(s) && ValidDate(e)
    ensures x in DateRange(s, e) <==> IsQuarterEnd(x) && !Before(x, s) && !Before(e, x)
  {
    var lo := Ordinal(QuarterOf(s));
    var r := DateRange(s, e);
    if x in r {
      var k :| 0 <= k < |r| && r[k] == x;
      DateRangeAt(s, e, k);
      NotAfterQuarterEnd(s, x);
      QuarterEndAtMostEnd(e, x);
    }
    if IsQuarterEnd(x) && !Before(x, s) && !Before(e, x) {
      NotAfterQuarterEnd(s, x);
      QuarterEndAtMostEnd(e, x);
      var k := Ordinal(QuarterOf(x)) - lo;
      assert 0 <= k < |r|;
      OrdinalInjective(QuarterAt(lo + k), QuarterOf(x));
      assert r[k] == x;
    }
  }

  /** A quarter end is not after `e` exactly when its position is at most LastRangeOrdinal(e). */
  lemma QuarterEndAtMostEnd(e: Date, x: Date)
    requires ValidDate(e) && IsQuarterEnd(x)
    ensures !Before(e, x) <==> Ordinal(QuarterOf(x)) <= LastRangeOrdinal(e)
  {
  }
}
