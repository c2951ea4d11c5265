/** The row shape of a loaded search-console export and the small value types
    shared by the other modules. */
module Records {

  datatype Option<+T> = None | Some(value: T)

  /** A calendar date as Python's `date.toordinal()`: 1 is 0001-01-01 and
      3652059 is 9999-12-31, the whole range of `datetime.date`. */
  const MinOrdinal: int := 1
  const MaxOrdinal: int := 3652059

  predicate InDateRange(d: int) {
    MinOrdinal <= d <= MaxOrdinal
  }

  type Ordinal = d: int | InDateRange(d) witness MinOrdinal

  type Page = string

  /** One row of the export after loading: `Date` is None where the date did
      not parse (NaT), `Landing Page` is None for an empty cell (NaN), and the
      metric columns are None where numeric conversion failed. */
  datatype Row = Row(date: Option<Ordinal>, page: Option<Page>, clicks: Option<int>, impressions: Option<int>)

  /** The loaded table; its index is the default range index, so a row's
      index label is its position. */
  type Dataset = seq<Row>

  /** A view of the table: the index labels of the rows it keeps. */
  type Cohort = set<nat>

  predicate WithinDataset(data: Dataset, c: Cohort) {
    forall i :: i in c ==> i < |data|
  }

  /** Every index label of the table. */
  function AllIndices(data: Dataset): (c: Cohort)
    ensures forall i :: i in c <==> 0 <= i < |data|
  {
    IndicesBelow(|data|)
  }

  function IndicesBelow(n: nat): (c: Cohort)
    ensures forall i :: i in c <==> 0 <= i < n
  {
    if n == 0 then {} else IndicesBelow(n - 1) + {n - 1}
  }

  /** The failure of `date - timedelta(...)`: Python raises OverflowError when
      the result leaves the date range. */
  datatype DateError = DateOverflow

  datatype Result<+T> = Ok(value: T) | Err(error: DateError) {
    predicate IsFailure() {
      Err?
    }

    function PropagateFailure<U>(): Result<U>
      requires Err?
    {
      Err(error)
    }

    function Extract(): T
      requires Ok?
    {
      value
    }
  }
}
