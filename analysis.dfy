/** The "Analyze" step: derive the comparison windows, split the table into
    groups, and count distinct pages and days of the test group in each window
    (app.py, lines 48-76). */
module Analysis {
  import opened Records
  import opened Periods
  import opened Cohorts
  import opened Summary

  datatype TestGroupSummary = TestGroupSummary(test: Counts, preTest: Counts, previousYear: Counts)

  datatype Report = Report(periods: PeriodSet, groups: Groups, summary: TestGroupSummary)

  /** The report of one "Analyze" press. It fails exactly when deriving the
      windows overflows the date range; otherwise it holds the derived windows
      (the pre-test window adjoining the test window with its length, the
      previous-year window 365 days back), the two groups, and the test
      group's counts in the test, pre-test and previous-year windows. */
  function Analyze(data: Dataset, testRegex: Pattern, controlRegex: Pattern, testStart: Ordinal, testEnd: Ordinal,
                   matches: Matcher, keep: DateFilter): (r: Result<Report>)
    ensures r.Ok? <==> DerivePeriods(testStart, testEnd).Ok?
    ensures r.Ok? ==> r.value.periods == DerivePeriods(testStart, testEnd).value
    ensures r.Ok? ==> r.value.groups == Partition(data, testRegex, controlRegex, matches)
    ensures r.Ok? ==>
      var p := r.value.periods;
      var g := r.value.groups.test;
      && r.value.summary.test == CountUniquePagesAndDays(data, g, testStart, testEnd, keep)
      && r.value.summary.preTest == CountUniquePagesAndDays(data, g, p.preTest.start, p.preTest.end, keep)
      && r.value.summary.previousYear == CountUniquePagesAndDays(data, g, p.previousYear.start, p.previousYear.end, keep)
    ensures r.Ok? ==>
      && r.value.periods.test == Window(testStart, testEnd)
      && r.value.periods.preTest.end + 1 == testStart
      && Length(r.value.periods.preTest) == Length(r.value.periods.test)
      && r.value.periods.previousYear.start + YearShift == testStart
      && r.value.periods.previousYear.end + YearShift == testEnd
    ensures r.Ok? ==> WithinDataset(data, r.value.groups.test) && WithinDataset(data, r.value.groups.control)
    ensures r.Ok? ==>
      var s := r.value.summary;
      var n := |r.value.groups.test|;
      && s.test.uniquePages <= n && s.test.numDays <= n
      && s.preTest.uniquePages <= n && s.preTest.numDays <= n
      && s.previousYear.uniquePages <= n && s.previousYear.numDays <= n
  {
    var periods :- DerivePeriods(testStart, testEnd);
    var groups := Partition(data, testRegex, controlRegex, matches);
    var testGroup := groups.test;
    var summary := TestGroupSummary(
      CountUniquePagesAndDays(data, testGroup, periods.test.start, periods.test.end, keep),
      CountUniquePagesAndDays(data, testGroup, periods.preTest.start, periods.preTest.end, keep),
      CountUniquePagesAndDays(data, testGroup, periods.previousYear.start, periods.previousYear.end, keep));
    Ok(Report(periods, groups, summary))
  }

  /** Under the inclusive-window assumption and an ordered test window, none
      of the three windows can report more days than the test window spans:
      the pre-test and previous-year windows have the same length. */
  lemma InclusiveDayCountsBounded(data: Dataset, testRegex: Pattern, controlRegex: Pattern, testStart: Ordinal, testEnd: Ordinal,
                                  matches: Matcher)
    requires testStart <= testEnd
    requires Analyze(data, testRegex, controlRegex, testStart, testEnd, matches, InclusiveWindow).Ok?
    ensures var s := Analyze(data, testRegex, controlRegex, testStart, testEnd, matches, InclusiveWindow).value.summary;
      var span := testEnd - testStart + 1;
      s.test.numDays <= span && s.preTest.numDays <= span && s.previousYear.numDays <= span
  {
    var r := Analyze(data, testRegex, controlRegex, testStart, testEnd, matches, InclusiveWindow).value;
    var p := r.periods;
    var g := r.groups.test;
    InclusiveDaysBound(data, g, p.test.start, p.test.end);
    InclusiveDaysBound(data, g, p.preTest.start, p.preTest.end);
    InclusiveDaysBound(data, g, p.previousYear.start, p.previousYear.end);
  }

  /** The four-row table of the scenario below, dated 2023-09-01..04
      (ordinals 738764..738767). */
  function ScenarioData(): Dataset {
    [Row(Some(738764), Some("/test-page-1"), Some(100), Some(1000)),
     Row(Some(738765), Some("/test-page-2"), Some(150), Some(1200)),
     Row(Some(738766), Some("/control-page-1"), Some(200), Some(1500)),
     Row(Some(738767), Some("/control-page-2"), Some(120), Some(1100))]
  }

  /** Test pattern `test-page`, matching the two test pages and neither
      control page, no control pattern, test window 2023-09-01..02: the test
      group is the first two rows, the control group the other two, and the
      test group has two pages and two days in the test window. */
  lemma FourRowScenario(matches: Matcher)
    requires matches("test-page", Some("/test-page-1")) && matches("test-page", Some("/test-page-2"))
    requires !matches("test-page", Some("/control-page-1")) && !matches("test-page", Some("/control-page-2"))
    ensures var r := Analyze(ScenarioData(), "test-page", "", 738764, 738765, matches, InclusiveWindow);
      && r.Ok?
      && r.value.groups == Groups({0, 1}, {2, 3})
      && r.value.summary.test == Counts(2, 2)
  {
    ScenarioGroups(matches);
    ScenarioTestCounts();
    assert DerivePeriods(738764, 738765).Ok?;
  }

  lemma ScenarioTestCounts()
    ensures CountUniquePagesAndDays(ScenarioData(), {0, 1}, 738764, 738765, InclusiveWindow) == Counts(2, 2)
  {
    var data := ScenarioData();
    var kept := FilterByDate(data, {0, 1}, 738764, 738765, InclusiveWindow);
    assert data[0].date == Some(738764) && data[1].date == Some(738765);
    assert data[0].page == Some("/test-page-1") && data[1].page == Some("/test-page-2");
    assert kept == {0, 1};
    assert PagesIn(data, kept) == {"/test-page-1", "/test-page-2"};
    assert DatesIn(data, kept) == {Some(738764), Some(738765)};
  }

  lemma ScenarioGroups(matches: Matcher)
    requires matches("test-page", Some("/test-page-1")) && matches("test-page", Some("/test-page-2"))
    requires !matches("test-page", Some("/control-page-1")) && !matches("test-page", Some("/control-page-2"))
    ensures Partition(ScenarioData(), "test-page", "", matches) == Groups({0, 1}, {2, 3})
  {
    var data := ScenarioData();
    assert data[0].page == Some("/test-page-1") && data[1].page == Some("/test-page-2");
    assert data[2].page == Some("/control-page-1") && data[3].page == Some("/control-page-2");
    var g := Partition(data, "test-page", "", matches);
    forall i ensures i in g.test <==> i in {0, 1} {
    }
    forall i ensures i in g.control <==> i in {2, 3} {
    }
  }
}
