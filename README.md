# GSC page-group analysis: verified model of the comparison rules

The application compares search-console traffic of a group of pages (the
test group) before and after a change, against a control group. Around its
Streamlit widgets sit three precise rules, modelled and proved here:

- **Period derivation** (`Periods`): from the chosen test window
  `[test_start, test_end]` the pre-test window ends the day before the test
  window and has the same day delta `(test_end - test_start).days`; the
  previous-year window is the test window moved back a fixed 365 days. Dates
  are Python date ordinals (0001-01-01 is 1, 9999-12-31 is 3652059), so day
  arithmetic is integer subtraction. `date - timedelta` raises OverflowError
  when it leaves that range; the model returns `Err(DateOverflow)` then.
- **Cohort partitioning** (`Cohorts`): the test group is the rows whose page
  the test pattern matches; a non-empty control pattern selects the control
  group independently (overlap allowed); an empty one makes the control group
  every row whose index is not in the test group. Groups are sets of index
  labels; after `read_csv` the index is the default range index, so a label is
  a row's position. Regex matching is a parameter `matches`.
- **Distinct counting** (`Summary`): `count_unique_pages_and_days` counts the
  distinct non-null `Landing Page` values (`nunique()` drops NaN) and the
  distinct `Date` values (`len(unique())` counts NaT once) of the rows that
  `filter_by_date` keeps. The window test of `filter_by_date` is a parameter
  `keep`; `InclusiveWindow` (valid dates in `[start, end]`) is an assumed
  instance, used only by the lemmas that name it.
- `Analysis.Analyze` strings these together as one press of "Analyze" does:
  windows, groups, and the test group's counts in each of the three windows.

The code makes no ordering check on the test window; `DerivedWindowsKeepOrder`
states what a reversed window gives. The fixed 365-day shift crosses
2024-02-29, so 2024-03-01..10 maps to 2023-03-02..11; `LeapYearScenario`
states this.

## Model

| member | source | states |
|---|---|---|
| Periods.SubtractDays | app.py:52-57 | `d - timedelta(days=n)` succeeds exactly when the result is a valid date, and then the result plus n is d |
| Periods.DerivePeriods | app.py:48-57 | fails exactly when one of the four derived dates leaves the date range; otherwise the pre-test window ends the day before the test start, has the test window's day delta, and the previous-year window is the test window shifted 365 days at both ends |
| Periods.DerivedWindowsKeepOrder | app.py:48-57 | with no ordering check, the pre-test and previous-year windows are ordered exactly when the test window is; the previous-year window has the test window's length |
| Periods.PreTestAdjoinsTest | app.py:52-53 | for an ordered test window, the pre-test and test windows share no day and together cover exactly the days from the pre-test start to the test end |
| Periods.DerivePeriodsDefined | app.py:49-57 | for an ordered test window, derivation succeeds exactly when `2*start - end >= 2` and the start lies at least 365 days after 0001-01-01 (an ordinal above 365) |
| Periods.LeapYearScenario | app.py:56-57 | 2024-03-01..10 gives pre-test 2024-02-20..29 and previous-year 2023-03-02..11 (no leap-year correction) |
| Cohorts.FilterByRegexAppend | app.py:64 | selection is row by row: appending a row adds its label exactly when the pattern matches its page and leaves the earlier selection unchanged |
| Cohorts.ExcludeGroup | app.py:71 | the result is disjoint from the group and every row position is in one of the two |
| Cohorts.Partition | app.py:63-71 | test group = rows matching the test pattern; control = rows matching a non-empty control pattern, else exactly the rows the test pattern does not match |
| Cohorts.DefaultControlIsComplement | app.py:69-71 | with no control pattern the groups are disjoint and their union is every index of the table |
| Cohorts.ExplicitControlIgnoresTestPattern | app.py:67-68 | with a control pattern the control group is the same whatever the test pattern |
| Cohorts.ExplicitControlMayOverlap | app.py:67-68 | with a control pattern a row matched by both patterns is in both groups |
| Summary.FilterByDateOneMoreRow | app.py:3 | adding one row to the view adds it to the kept rows exactly when the window test keeps its date, and the rows already kept stay |
| Summary.CountUniquePagesAndDays | app.py:2-6 | both counts are at most the number of kept rows (itself at most the view's size); the day count is 0 exactly when no row is kept, the page count exactly when no kept row has a page |
| Summary.PagesAtMostRows | app.py:4 | the distinct pages of a set of rows are no more than the rows |
| Summary.DatesAtMostRows | app.py:5 | the distinct dates of a set of rows are no more than the rows |
| Summary.FilterIdempotent | app.py:3 | filtering the filtered view again with the same window gives the same view |
| Summary.DuplicateRowLeavesCounts | app.py:4-5 | appending a row whose date occurs among the kept rows, and whose page (if any) occurs among their pages, leaves both counts unchanged |
| Summary.InclusiveDaysBound | app.py:3-5 | under the inclusive-window assumption, NaT is never counted and the day count is at most `end - start + 1` (0 for a reversed window) |
| Summary.ValidDatesBound | app.py:5 | a set of valid dates inside `[lo, hi]` has at most `hi - lo + 1` members |
| Analysis.Analyze | app.py:48-76 | fails exactly when period derivation does; otherwise holds the derived windows (pre-test adjoining with equal length, previous year shifted 365 days at both ends), the partition of the table, the test group's counts over the test, pre-test and previous-year windows, each at most the size of the test group |
| Analysis.InclusiveDayCountsBounded | app.py:74-76 | under the inclusive-window assumption and an ordered test window, the test, pre-test and previous-year day counts are each at most the test window's span |
| Analysis.FourRowScenario | app.py:62-76 | the four-row example splits into test rows {0,1} and control rows {2,3}, and the test group has 2 pages and 2 days in 2023-09-01..02 |
| Analysis.ScenarioGroups | app.py:63-71 | the four-row example's groups are {0,1} and {2,3} for any matcher that matches exactly the two test pages |
| Analysis.ScenarioTestCounts | app.py:2-6 | rows {0,1} of the four-row example have 2 distinct pages and 2 distinct days in 2023-09-01..02 |

## Left out

- The Streamlit interface (titles, markdown, download button, uploader, text and date inputs, buttons, `st.write`, `st.error`, `st.warning`, app.py:9-19, 41-46, 59-62, 79-81): presentation and widget state. The user's choices enter as parameters.
- Loading and cleaning (app.py:20-38): `pd.read_csv`, the check for a `Date` column, `pd.to_datetime(..., errors='coerce')`, `pd.to_numeric(..., errors='coerce')` are library calls; their results appear as the `Option` fields of `Row`. `create_sample_csv` and `convert_df_to_csv` are not part of this model.
- Regex semantics of `filter_by_regex` (app.py:64, 68): its body is not part of this model; matching is the parameter `matches`, so an invalid pattern's behaviour is not modelled. `Cohorts.FilterByRegex` is the definition of that selection in terms of `matches`, not a proved property.
- The body of `filter_by_date` (app.py:3) is not part of this model: the window test is the parameter `keep`, and `InclusiveWindow` is an assumption, not a fact about the code. `Summary.FilterByDate` is the definition of that selection in terms of `keep`, not a proved property.
- The guard `if test_start and test_end` (app.py:48): a Python `date` is always truthy, so the model always derives the windows.
- The `clicks` and `impressions` fields are carried but unused: the code shown computes no sums, deltas, averages or significance tests (it stops at app.py:83); those would be floating point anyway.
- The control group is computed but, as in the code shown, no counts are taken of it.
