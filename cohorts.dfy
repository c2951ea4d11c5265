/** Splitting the table into a test group and a control group by page
    pattern (app.py, lines 63-71). */
module Cohorts {
  import opened Records

  type Pattern = string

  /** Regex matching of a pattern against a row's `Landing Page`. The body of
      `filter_by_regex` is not part of this model, so the match relation is a
      parameter of every member that needs it. */
  type Matcher = (Pattern, Option<Page>) -> bool

  /** `filter_by_regex(data, pattern)`: the rows whose page the pattern matches. */
  function FilterByRegex(data: Dataset, pattern: Pattern, matches: Matcher): (c: Cohort)
    ensures WithinDataset(data, c)
    ensures forall i :: i in c <==> 0 <= i < |data| && matches(pattern, data[i].page)
  {
    set i | i in AllIndices(data) && matches(pattern, data[i].page)
  }

  /** Selection is row by row: appending a row adds its index label exactly
      when the pattern matches its page, and leaves the earlier labels as they
      were. */
  lemma FilterByRegexAppend(data: Dataset, pattern: Pattern, matches: Matcher, row: Row)
    ensures FilterByRegex(data + [row], pattern, matches)
         == FilterByRegex(data, pattern, matches) + (if matches(pattern, row.page) then {|data|} else {})
  {
  }

  /** `data[~data.index.isin(group.index)]`: the rows whose index label is not
      in the group. */
  function ExcludeGroup(data: Dataset, group: Cohort): (c: Cohort)
    ensures WithinDataset(data, c)
    ensures c !! group
    ensures forall i :: 0 <= i < |data| ==> (i in c || i in group)
  {
    AllIndices(data) - group
  }

  datatype Groups = Groups(test: Cohort, control: Cohort)

  /** The test group is the rows matching the test pattern. A non-empty
      control pattern selects the control group on its own; an empty one makes
      the control group every row outside the test group. */
  function Partition(data: Dataset, testPattern: Pattern, controlPattern: Pattern, matches: Matcher): (g: Groups)
    ensures WithinDataset(data, g.test) && WithinDataset(data, g.control)
    ensures forall i :: i in g.test <==> 0 <= i < |data| && matches(testPattern, data[i].page)
    ensures controlPattern != "" ==>
      forall i :: i in g.control <==> 0 <= i < |data| && matches(controlPattern, data[i].page)
    ensures controlPattern == "" ==>
      forall i :: i in g.control <==> 0 <= i < |data| && !matches(testPattern, data[i].page)
  {
    var test := FilterByRegex(data, testPattern, matches);
    var control := if controlPattern != "" then FilterByRegex(data, controlPattern, matches)
                   else ExcludeGroup(data, test);
    Groups(test, control)
  }

  /** With no control pattern the two groups split the table: they share no
      row and together hold every row. */
  lemma DefaultControlIsComplement(data: Dataset, testPattern: Pattern, matches: Matcher)
    ensures var g := Partition(data, testPattern, "", matches);
      g.test !! g.control && g.test + g.control == AllIndices(data)
  {
    var g := Partition(data, testPattern, "", matches);
    forall i | i in AllIndices(data) ensures i in g.test + g.control {
    }
  }

  /** With a control pattern the control group does not depend on the test
      pattern at all. */
  lemma ExplicitControlIgnoresTestPattern(data: Dataset, t1: Pattern, t2: Pattern, controlPattern: Pattern, matches: Matcher)
    requires controlPattern != ""
    ensures Partition(data, t1, controlPattern, matches).control == Partition(data, t2, controlPattern, matches).control
  {
  }

  /** With a control pattern the groups may overlap: a row that both patterns
      match is in both groups, and nothing removes it from either. */
  lemma ExplicitControlMayOverlap(data: Dataset, testPattern: Pattern, controlPattern: Pattern, matches: Matcher, i: nat)
    requires controlPattern != ""
    requires i < |data| && matches(testPattern, data[i].page) && matches(controlPattern, data[i].page)
    ensures var g := Partition(data, testPattern, controlPattern, matches);
      i in g.test * g.control
  {
  }
}
