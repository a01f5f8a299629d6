/** The search bar shared by the list screens: a term, a map of filter values
    keyed by filter name, and what it hands to the screen's callbacks. */
module SearchBar {
  import opened Wrappers

  class SearchBarState {
    var searchTerm: string
    var activeFilters: map<string, string>

    constructor ()
      ensures searchTerm == "" && activeFilters == map[]
    {
      searchTerm := "";
      activeFilters := map[];
    }

    /** Typing into the search box. */
    method SetSearchTerm(term: string)
      modifies this
      ensures searchTerm == term && activeFilters == old(activeFilters)
    {
      searchTerm := term;
    }

    /** `handleSearch`: hands the term and the filter map, as they are, to
        `onSearch`. */
    method HandleSearch() returns (term: string, filters: map<string, string>)
      ensures term == searchTerm && filters == activeFilters
    {
      term, filters := searchTerm, activeFilters;
    }

    /** `handleFilterChange`: sets one filter and keeps the others; when the
        screen listens, it receives the whole new map. */
    method HandleFilterChange(name: string, value: string, hasOnFilterChange: bool)
      returns (notified: Option<map<string, string>>)
      modifies this
      ensures activeFilters == old(activeFilters)[name := value]
      ensures name in activeFilters && activeFilters[name] == value
      ensures forall k :: k != name ==> (k in activeFilters <==> k in old(activeFilters))
      ensures forall k :: k != name && k in activeFilters ==> activeFilters[k] == old(activeFilters)[k]
      ensures notified == if hasOnFilterChange then Some(activeFilters) else None
      ensures ClearButtonShown()
      ensures searchTerm == old(searchTerm)
    {
      activeFilters := activeFilters[name := value];
      notified := if hasOnFilterChange then Some(activeFilters) else None;
    }

    /** `clearFilters`: empties the filters and the term, and searches for
        everything. */
    method ClearFilters() returns (term: string, filters: map<string, string>)
      modifies this
      ensures activeFilters == map[] && searchTerm == ""
      ensures term == "" && filters == map[]
      ensures !ClearButtonShown()
    {
      activeFilters := map[];
      searchTerm := "";
      term, filters := "", map[];
    }

    /** The Clear button is shown while any filter key exists, even one whose
        value is the empty "All" choice. */
    predicate ClearButtonShown()
      reads this
    {
      |activeFilters.Keys| > 0
    }
  }

  /** Choosing "All" for a filter still shows the Clear button. */
  lemma ClearShownForAllChoice(filters: map<string, string>, name: string)
    ensures |filters[name := ""].Keys| > 0
  {
    assert name in filters[name := ""].Keys;
  }
}
