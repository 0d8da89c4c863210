// The reports page's filter bar: a search box, one selectable tag and one
// selectable date range, each change forwarded to the page's callbacks.
module ReportFilterBar {
  import opened Wrappers

  const Tags := ["Transactions", "Failures", "Network", "Peak Hours", "Trends"]
  const DateRanges := ["Today", "This Week", "This Month", "All Time"]

  /** The argument of onFilterChange; `{}` has neither field. */
  datatype Filters = Filters(tag: Option<string>, dateRange: Option<string>)

  /** One callback invocation, in the order the handler makes them. */
  datatype Emission = SearchChanged(query: string) | FilterChanged(filters: Filters)

  /** Selecting the selected value clears it; any other value replaces it. */
  function Toggled(current: Option<string>, value: string): (r: Option<string>)
    ensures current == Some(value) ==> r.None?
    ensures current != Some(value) ==> r == Some(value)
  {
    if current == Some(value) then None else Some(value)
  }

  /** Selecting the same value twice from nothing selected ends with nothing
    * selected; selecting two values in turn keeps the second. */
  lemma ToggledTwice(current: Option<string>, a: string, b: string)
    ensures Toggled(Toggled(None, a), a).None?
    ensures a != b ==> Toggled(Toggled(current, a), b) == Some(b)
  {
  }

  /** `searchQuery || selectedTag || selectedDateRange`, as a truth value. */
  function HasActiveFilters(searchQuery: string, tag: Option<string>, dateRange: Option<string>): (b: bool)
    ensures b <==> searchQuery != "" || (tag.Some? && tag.value != "") || (dateRange.Some? && dateRange.value != "")
  {
    searchQuery != "" || (tag.Some? && tag.value != "") || (dateRange.Some? && dateRange.value != "")
  }

  /** Selecting a non-empty tag that was not selected makes a filter active;
    * selecting the only active tag again clears every filter. */
  lemma TagSelectActivates(searchQuery: string, tag: Option<string>, dateRange: Option<string>, t: string)
    ensures t != "" && tag != Some(t) ==> HasActiveFilters(searchQuery, Toggled(tag, t), dateRange)
    ensures searchQuery == "" && dateRange.None? && tag == Some(t) ==> !HasActiveFilters(searchQuery, Toggled(tag, t), dateRange)
  {
  }

  /** The three state variables, changed in place by the handlers. */
  class FilterBar {
    var searchQuery: string
    var selectedTag: Option<string>
    var selectedDateRange: Option<string>

    constructor()
      ensures searchQuery == "" && selectedTag.None? && selectedDateRange.None?
      ensures !HasActiveFilters(searchQuery, selectedTag, selectedDateRange)
    {
      searchQuery := "";
      selectedTag := None;
      selectedDateRange := None;
    }

    /** handleSearchChange: store and forward the exact text. */
    method SearchChange(value: string) returns (emitted: seq<Emission>)
      modifies this
      ensures searchQuery == value && emitted == [SearchChanged(value)]
      ensures selectedTag == old(selectedTag) && selectedDateRange == old(selectedDateRange)
    {
      searchQuery := value;
      emitted := [SearchChanged(value)];
    }

    /** handleTagSelect: toggle the tag and report it with the current range. */
    method TagSelect(tag: string) returns (emitted: seq<Emission>)
      modifies this
      ensures selectedTag == Toggled(old(selectedTag), tag)
      ensures searchQuery == old(searchQuery) && selectedDateRange == old(selectedDateRange)
      ensures emitted == [FilterChanged(Filters(selectedTag, selectedDateRange))]
    {
      var newTag := if selectedTag == Some(tag) then None else Some(tag);
      selectedTag := newTag;
      emitted := [FilterChanged(Filters(newTag, selectedDateRange))];
    }

    /** handleDateRangeSelect: toggle the range and report it with the current tag. */
    method DateRangeSelect(range: string) returns (emitted: seq<Emission>)
      modifies this
      ensures selectedDateRange == Toggled(old(selectedDateRange), range)
      ensures searchQuery == old(searchQuery) && selectedTag == old(selectedTag)
      ensures emitted == [FilterChanged(Filters(selectedTag, selectedDateRange))]
    {
      var newRange := if selectedDateRange == Some(range) then None else Some(range);
      selectedDateRange := newRange;
      emitted := [FilterChanged(Filters(selectedTag, newRange))];
    }

    /** handleClearFilters: reset all three and tell both callbacks. */
    method ClearFilters() returns (emitted: seq<Emission>)
      modifies this
      ensures searchQuery == "" && selectedTag.None? && selectedDateRange.None?
      ensures !HasActiveFilters(searchQuery, selectedTag, selectedDateRange)
      ensures emitted == [SearchChanged(""), FilterChanged(Filters(None, None))]
    {
      searchQuery := "";
      selectedTag := None;
      selectedDateRange := None;
      emitted := [SearchChanged(""), FilterChanged(Filters(None, None))];
    }
  }
}
