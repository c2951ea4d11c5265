/** Derivation of the pre-test and previous-year windows from the test window
    chosen by the user (app.py, lines 48-57). */
module Periods {
  import opened Records

  /** The previous-year window is a fixed shift, with no leap-year correction. */
  const YearShift: int := 365

  /** A date window given by its two end dates; nothing orders them. */
  datatype Window = Window(start: Ordinal, end: Ordinal)

  datatype PeriodSet = PeriodSet(test: Window, preTest: Window, previousYear: Window)

  /** The plain day delta `(end - start).days`; negative for a reversed window. */
  function Length(w: Window): int {
    w.end - w.start
  }

  predicate Contains(w: Window, d: int) {
    w.start <= d <= w.end
  }

  /** `d - timedelta(days=n)`, failing as Python does outside the date range. */
  function SubtractDays(d: Ordinal, n: int): (r: Result<Ordinal>)
    ensures r.Ok? <==> InDateRange(d - n)
    ensures r.Ok? ==> r.value + n == d
  {
    if InDateRange(d - n) then Ok(d - n) else Err(DateOverflow)
  }

  /** The pre-test window ends the day before the test window and spans the
      same day delta; the previous-year window is the test window moved back
      365 days. The computation fails exactly when one of the four derived
      dates leaves the date range. */
  function DerivePeriods(testStart: Ordinal, testEnd: Ordinal): (r: Result<PeriodSet>)
    ensures r.Ok? <==>
      && InDateRange(testStart - 1)
      && InDateRange(testStart - 1 - (testEnd - testStart))
      && InDateRange(testStart - YearShift)
      && InDateRange(testEnd - YearShift)
    ensures r.Ok? ==> r.value.test == Window(testStart, testEnd)
    ensures r.Ok? ==> r.value.preTest.end + 1 == testStart
    ensures r.Ok? ==> Length(r.value.preTest) == Length(r.value.test)
    ensures r.Ok? ==> r.value.previousYear.start + YearShift == testStart
    ensures r.Ok? ==> r.value.previousYear.end + YearShift == testEnd
  {
    var testPeriodLength := testEnd - testStart;
    var preTestEnd :- SubtractDays(testStart, 1);
    var preTestStart :- SubtractDays(preTestEnd, testPeriodLength);
    var prevYearStart :- SubtractDays(testStart, YearShift);
    var prevYearEnd :- SubtractDays(testEnd, YearShift);
    Ok(PeriodSet(Window(testStart, testEnd), Window(preTestStart, preTestEnd), Window(prevYearStart, prevYearEnd)))
  }

  /** No ordering check is made: each derived window is ordered exactly when
      the test window is, so reversed input gives reversed windows. */
  lemma DerivedWindowsKeepOrder(testStart: Ordinal, testEnd: Ordinal)
    requires DerivePeriods(testStart, testEnd).Ok?
    ensures var p := DerivePeriods(testStart, testEnd).value;
      && (p.preTest.start <= p.preTest.end <==> testStart <= testEnd)
      && (p.previousYear.start <= p.previousYear.end <==> testStart <= testEnd)
      && Length(p.previousYear) == Length(p.test)
  {
  }

  /** For an ordered test window, the pre-test and test windows together cover
      one unbroken run of days with no day in both. */
  lemma PreTestAdjoinsTest(testStart: Ordinal, testEnd: Ordinal, d: int)
    requires testStart <= testEnd
    requires DerivePeriods(testStart, testEnd).Ok?
    ensures var p := DerivePeriods(testStart, testEnd).value;
      && !(Contains(p.preTest, d) && Contains(p.test, d))
      && (p.preTest.start <= d <= p.test.end <==> Contains(p.preTest, d) || Contains(p.test, d))
  {
  }

  /** For an ordered test window the only way to fail is to reach before
      0001-01-01: the pre-test start must be a valid date and the test start
      must lie at least 365 days after the first date (an ordinal above 365). */
  lemma DerivePeriodsDefined(testStart: Ordinal, testEnd: Ordinal)
    requires testStart <= testEnd
    ensures DerivePeriods(testStart, testEnd).Ok? <==> 2 * testStart - testEnd >= 2 && testStart > YearShift
  {
    assert MinOrdinal == 1 && MaxOrdinal == 3652059;
    assert InDateRange(testStart) && InDateRange(testEnd);
  }

  /** Test window 2024-03-01..2024-03-10 (ordinals 738946..738955): the
      pre-test window is 2024-02-20..2024-02-29 and the previous-year window is
      2023-03-02..2023-03-11, because the 365-day shift crosses 2024-02-29. */
  lemma LeapYearScenario()
    ensures DerivePeriods(738946, 738955)
         == Ok(PeriodSet(Window(738946, 738955), Window(738936, 738945), Window(738581, 738590)))
  {
  }
}
