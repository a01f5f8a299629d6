/** The inventory screen: the loaded items, the search-and-filter chain that
    chooses which of them are shown, and the rental dialog's round trip. */
module InventoryGrid {
  import opened Wrappers
  import opened Seqs
  import opened Text
  import opened Records
  import opened Lookup
  import opened InventoryService
  import opened Store

  /** The value of a filter when it is set to something other than "All" (the
      empty string, which `filters.category` treats as unset). */
  function Wanted(filters: map<string, string>, key: string): (w: Option<string>)
    ensures w.Some? <==> key in filters && filters[key] != ""
    ensures w.Some? ==> w.value == filters[key]
  {
    if key in filters && filters[key] != "" then Some(filters[key]) else None
  }

  function WithCategory(c: string): Item -> bool { (i: Item) => i.category == c }
  function WithSize(z: string): Item -> bool { (i: Item) => i.size == z }
  function WithStatus(t: string): Item -> bool { (i: Item) => StatusText(i.status) == t }

  function FilterIf(s: seq<Item>, w: Option<string>, p: string -> (Item -> bool)): seq<Item> {
    if w.Some? then Filter(s, p(w.value)) else s
  }

  /** The three filters in turn: category, then size, then status. */
  function ApplyFilters(s: seq<Item>, filters: map<string, string>): seq<Item> {
    FilterIf(FilterIf(FilterIf(s, Wanted(filters, "category"), WithCategory),
                      Wanted(filters, "size"), WithSize),
             Wanted(filters, "status"), WithStatus)
  }

  /** Every item kept matches every filter that is set. */
  predicate MatchesFilters(i: Item, filters: map<string, string>) {
    (Wanted(filters, "category").Some? ==> i.category == Wanted(filters, "category").value)
    && (Wanted(filters, "size").Some? ==> i.size == Wanted(filters, "size").value)
    && (Wanted(filters, "status").Some? ==> StatusText(i.status) == Wanted(filters, "status").value)
  }

  /** One stage of the chain keeps exactly the items that pass its filter. */
  lemma FilterIfKeeps(s: seq<Item>, w: Option<string>, p: string -> (Item -> bool))
    ensures IsSubseq(FilterIf(s, w, p), s)
    ensures forall x :: x in FilterIf(s, w, p) <==> x in s && (w.Some? ==> p(w.value)(x))
  {
    if w.Some? {
      FilterIsSubseq(s, p(w.value));
    } else {
      SubseqRefl(s);
    }
  }

  /** The filtered list keeps the order of the list it starts from, and holds
      exactly its items that match every set filter. */
  lemma FiltersSelect(s: seq<Item>, filters: map<string, string>)
    ensures IsSubseq(ApplyFilters(s, filters), s)
    ensures forall x :: x in ApplyFilters(s, filters) <==> x in s && MatchesFilters(x, filters)
  {
    var a := FilterIf(s, Wanted(filters, "category"), WithCategory);
    var b := FilterIf(a, Wanted(filters, "size"), WithSize);
    FilterIfKeeps(s, Wanted(filters, "category"), WithCategory);
    FilterIfKeeps(a, Wanted(filters, "size"), WithSize);
    FilterIfKeeps(b, Wanted(filters, "status"), WithStatus);
    SubseqTrans(b, a, s);
    SubseqTrans(ApplyFilters(s, filters), b, s);
  }

  /** Narrowing the store's search results by the filters keeps exactly the
      stored items that match both the query and every set filter. */
  lemma FilteredSearch(items: map<int, Item>, found: seq<Item>, term: string, filters: map<string, string>)
    requires forall i :: 0 <= i < |found| ==> Stored(items, found[i]) && InventoryService.MatchesQuery(found[i], term)
    requires forall k :: k in items && InventoryService.MatchesQuery(items[k], term) ==> items[k] in found
    ensures forall i :: 0 <= i < |ApplyFilters(found, filters)| ==>
      Stored(items, ApplyFilters(found, filters)[i])
      && InventoryService.MatchesQuery(ApplyFilters(found, filters)[i], term)
      && MatchesFilters(ApplyFilters(found, filters)[i], filters)
    ensures forall k ::
      (k in items && InventoryService.MatchesQuery(items[k], term) && MatchesFilters(items[k], filters)) ==>
      items[k] in ApplyFilters(found, filters)
  {
    var shown := ApplyFilters(found, filters);
    FiltersSelect(found, filters);
    forall i | 0 <= i < |shown|
      ensures Stored(items, shown[i]) && InventoryService.MatchesQuery(shown[i], term)
      ensures MatchesFilters(shown[i], filters)
    {
      var x := shown[i];
      assert x in shown;
      assert x in found && MatchesFilters(x, filters);
      var j :| 0 <= j < |found| && found[j] == x;
    }
    forall k | k in items && InventoryService.MatchesQuery(items[k], term) && MatchesFilters(items[k], filters)
      ensures items[k] in shown
    {
      assert items[k] in found;
    }
  }

  /** A filter set to the empty "All" value filters nothing: the result is the
      same as with that filter absent. */
  lemma EmptyFilterIgnored(s: seq<Item>, filters: map<string, string>, key: string)
    ensures ApplyFilters(s, filters[key := ""]) == ApplyFilters(s, filters - {key})
  {
    assert forall k :: Wanted(filters[key := ""], k) == Wanted(filters - {key}, k);
  }

  /** The screen's state. */
  class InventoryView {
    var items: seq<Item>
    var filteredItems: seq<Item>
    var selectedItem: Option<Item>
    var showRentalModal: bool

    constructor ()
      ensures items == [] && filteredItems == [] && selectedItem.None? && !showRentalModal
    {
      items, filteredItems := [], [];
      selectedItem, showRentalModal := None, false;
    }

    /** `loadItems`, given what `getAll` returned: everything is shown. */
    method Load(allItems: seq<Item>)
      modifies this
      ensures items == allItems && filteredItems == allItems
      ensures selectedItem == old(selectedItem) && showRentalModal == old(showRentalModal)
    {
      items := allItems;
      filteredItems := allItems;
    }

    /** `handleSearch`: with no term and no filter key, everything loaded is
        shown. Otherwise the list starts from the loaded items, or from the
        store's search when there is a term, and each set filter narrows it. */
    method HandleSearch(store: RecordStore, term: string, filters: map<string, string>)
      modifies this
      ensures items == old(items) && selectedItem == old(selectedItem)
      ensures showRentalModal == old(showRentalModal)
      ensures term == "" && |filters.Keys| == 0 ==> filteredItems == items
      ensures term == "" ==> filteredItems == ApplyFilters(items, filters)
      ensures term != "" ==> forall i :: 0 <= i < |filteredItems| ==>
        Stored(store.items, filteredItems[i]) && InventoryService.MatchesQuery(filteredItems[i], term)
        && MatchesFilters(filteredItems[i], filters)
      ensures term != "" ==> forall k ::
        (k in store.items && InventoryService.MatchesQuery(store.items[k], term)
         && MatchesFilters(store.items[k], filters)) ==>
        store.items[k] in filteredItems
    {
      if term == "" && |filters.Keys| == 0 {
        assert filters == map[];
        assert ApplyFilters(items, filters) == items;
        filteredItems := items;
        return;
      }
      var results := items;
      if term != "" {
        results := store.SearchItems(term);
      }
      ghost var start := results;
      var category := Wanted(filters, "category");
      if category.Some? {
        results := Filter(results, WithCategory(category.value));
      }
      var size := Wanted(filters, "size");
      if size.Some? {
        results := Filter(results, WithSize(size.value));
      }
      var status := Wanted(filters, "status");
      if status.Some? {
        results := Filter(results, WithStatus(status.value));
      }
      assert results == ApplyFilters(start, filters);
      if term != "" {
        FilteredSearch(store.items, start, term, filters);
      }
      filteredItems := results;
    }

    /** `handleRentItem`: opens the rental dialog for an item. */
    method HandleRentItem(item: Item)
      modifies this
      ensures selectedItem == Some(item) && showRentalModal
      ensures items == old(items) && filteredItems == old(filteredItems)
    {
      selectedItem := Some(item);
      showRentalModal := true;
    }

    /** `handleRentalCreated`: closes the dialog, clears the selection and loads
        the items again. */
    method HandleRentalCreated(allItems: seq<Item>)
      modifies this
      ensures !showRentalModal && selectedItem.None?
      ensures items == allItems && filteredItems == allItems
    {
      showRentalModal := false;
      selectedItem := None;
      Load(allItems);
    }
  }
}
