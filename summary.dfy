/** The distinct-page and distinct-day counts over a date-filtered view
    (app.py, lines 1-6). */
module Summary {
  import opened Records

  /** The window test `filter_by_date` applies to a row's date. Its body is
      not part of this model, so it is a parameter of every member that needs
      it; `InclusiveWindow` below is one candidate, stated as an assumption. */
  type DateFilter = (Option<Ordinal>, Ordinal, Ordinal) -> bool

  /** An assumed `filter_by_date`: keeps valid dates in `[start, end]`. */
  predicate InclusiveWindow(d: Option<Ordinal>, start: Ordinal, end: Ordinal) {
    d.Some? && start <= d.value <= end
  }

  /** `filter_by_date(view, start, end)`: the rows of the view whose date the
      window test keeps. */
  function FilterByDate(data: Dataset, view: Cohort, start: Ordinal, end: Ordinal, keep: DateFilter): (r: Cohort)
    requires WithinDataset(data, view)
    ensures r <= view
    ensures forall i :: i in r <==> i in view && keep(data[i].date, start, end)
  {
    set i | i in view && keep(data[i].date, start, end)
  }

  /** The non-null `Landing Page` values of the rows: what `nunique()` counts. */
  function PagesIn(data: Dataset, rows: Cohort): set<Page>
    requires WithinDataset(data, rows)
  {
    set i | i in rows && data[i].page.Some? :: data[i].page.value
  }

  /** The `Date` values of the rows, NaT included: what `len(unique())` counts. */
  function DatesIn(data: Dataset, rows: Cohort): set<Option<Ordinal>>
    requires WithinDataset(data, rows)
  {
    set i | i in rows :: data[i].date
  }

  datatype Counts = Counts(uniquePages: nat, numDays: nat)

  /** `count_unique_pages_and_days`: the number of distinct pages and of
      distinct dates among the rows the date filter keeps. Each is at most the
      number of kept rows; the day count is zero exactly when no row is kept,
      the page count exactly when no kept row has a page. */
  function CountUniquePagesAndDays(data: Dataset, view: Cohort, start: Ordinal, end: Ordinal, keep: DateFilter): (r: Counts)
    requires WithinDataset(data, view)
    ensures var kept := FilterByDate(data, view, start, end, keep);
      && r.uniquePages <= |kept| <= |view|
      && r.numDays <= |kept|
      && (r.numDays == 0 <==> kept == {})
      && (r.uniquePages == 0 <==> forall i :: i in kept ==> data[i].page.None?)
  {
    var kept := FilterByDate(data, view, start, end, keep);
    PagesAtMostRows(data, kept);
    DatesAtMostRows(data, kept);
    assert view == kept + (view - kept);
    assert kept != {} ==> DatesIn(data, kept) != {} by {
      if kept != {} {
        var i :| i in kept;
        assert data[i].date in DatesIn(data, kept);
      }
    }
    assert PagesIn(data, kept) == {} <==> forall i :: i in kept ==> data[i].page.None? by {
      forall i | i in kept && data[i].page.Some? ensures data[i].page.value in PagesIn(data, kept) {
      }
    }
    Counts(|PagesIn(data, kept)|, |DatesIn(data, kept)|)
  }

  /** Every row contributes at most one distinct page. */
  lemma {:induction false} PagesAtMostRows(data: Dataset, rows: Cohort)
    requires WithinDataset(data, rows)
    ensures |PagesIn(data, rows)| <= |rows|
    decreases |rows|
  {
    if rows != {} {
      var i :| i in rows;
      var rest := rows - {i};
      PagesAtMostRows(data, rest);
      if data[i].page.Some? {
        assert PagesIn(data, rows) == PagesIn(data, rest) + {data[i].page.value};
      } else {
        assert PagesIn(data, rows) == PagesIn(data, rest);
      }
    }
  }

  /** Every row contributes at most one distinct date. */
  lemma {:induction false} DatesAtMostRows(data: Dataset, rows: Cohort)
    requires WithinDataset(data, rows)
    ensures |DatesIn(data, rows)| <= |rows|
    decreases |rows|
  {
    if rows != {} {
      var i :| i in rows;
      var rest := rows - {i};
      DatesAtMostRows(data, rest);
      assert DatesIn(data, rows) == DatesIn(data, rest) + {data[i].date};
    }
  }

  /** Filtering a filtered view again by the same window changes nothing. */
  lemma FilterIdempotent(data: Dataset, view: Cohort, start: Ordinal, end: Ordinal, keep: DateFilter)
    requires WithinDataset(data, view)
    ensures var once := FilterByDate(data, view, start, end, keep);
      FilterByDate(data, once, start, end, keep) == once
  {
  }

  /** Appending a row whose date already occurs among the kept rows, and whose
      page (when it has one) does too, leaves both counts unchanged: each count
      is the size of a set of values. */
  lemma DuplicateRowLeavesCounts(data: Dataset, view: Cohort, start: Ordinal, end: Ordinal, keep: DateFilter, extra: Row)
    requires WithinDataset(data, view)
    requires var kept := FilterByDate(data, view, start, end, keep);
      && extra.date in DatesIn(data, kept)
      && (extra.page.Some? ==> extra.page.value in PagesIn(data, kept))
    ensures WithinDataset(data + [extra], view + {|data|})
    ensures CountUniquePagesAndDays(data + [extra], view + {|data|}, start, end, keep)
         == CountUniquePagesAndDays(data, view, start, end, keep)
  {
    var data' := data + [extra];
    var view' := view + {|data|};
    var kept := FilterByDate(data, view, start, end, keep);
    var kept' := FilterByDate(data', view', start, end, keep);
    var j :| j in kept && data[j].date == extra.date;
    assert keep(extra.date, start, end);
    assert kept' == kept + {|data|};
    assert PagesIn(data', kept') == PagesIn(data, kept) by {
      assert PagesIn(data', kept) == PagesIn(data, kept);
    }
    assert DatesIn(data', kept') == DatesIn(data, kept) by {
      assert DatesIn(data', kept) == DatesIn(data, kept);
    }
  }

  /** Taking one more row into the view adds it to the kept rows exactly when
      the window test keeps its date; the rows already kept stay as they are. */
  lemma FilterByDateOneMoreRow(data: Dataset, view: Cohort, start: Ordinal, end: Ordinal, keep: DateFilter, j: nat)
    requires WithinDataset(data, view) && j < |data|
    ensures WithinDataset(data, view + {j})
    ensures FilterByDate(data, view + {j}, start, end, keep)
         == FilterByDate(data, view, start, end, keep) + (if keep(data[j].date, start, end) then {j} else {})
  {
  }

  /** Under the inclusive-window assumption no NaT is counted as a day, and a
      window holds at most `end - start + 1` distinct days (none when it is
      reversed). */
  lemma InclusiveDaysBound(data: Dataset, view: Cohort, start: Ordinal, end: Ordinal)
    requires WithinDataset(data, view)
    ensures var kept := FilterByDate(data, view, start, end, InclusiveWindow);
      None !in DatesIn(data, kept)
    ensures var n := CountUniquePagesAndDays(data, view, start, end, InclusiveWindow).numDays;
      n <= if start <= end then end - start + 1 else 0
  {
    var kept := FilterByDate(data, view, start, end, InclusiveWindow);
    ValidDatesBound(DatesIn(data, kept), start, end);
  }

  /** A set of valid dates inside `[lo, hi]` has at most `hi - lo + 1` members. */
  lemma {:induction false} ValidDatesBound(days: set<Option<Ordinal>>, lo: int, hi: int)
    requires forall d :: d in days ==> d.Some? && lo <= d.value <= hi
    ensures |days| <= if lo <= hi then hi - lo + 1 else 0
    decreases hi - lo
  {
    if lo <= hi {
      var rest := set d | d in days && d.value < hi;
      ValidDatesBound(rest, lo, hi - 1);
      assert days == rest + (set d | d in days && d.value == hi);
      assert |set d | d in days && d.value == hi| <= 1 by {
        var top := set d | d in days && d.value == hi;
        if top != {} {
          var d :| d in top;
          assert top == {d};
        }
      }
    } else {
      assert forall d :: d !in days;
    }
  }
}
