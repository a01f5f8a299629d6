/** The active-rentals screen: lookups by `Id`, the split into overdue and
    regular rentals, the empty state, and the reload after a return. */
module ActiveRentalsList {
  import opened Wrappers
  import opened Seqs
  import opened Records
  import opened Lookup
  import opened Store

  function DueBefore(now: int): Rental -> bool {
    (r: Rental) => r.dueDate < now
  }

  function DueAtOrAfter(now: int): Rental -> bool {
    (r: Rental) => r.dueDate >= now
  }

  /** The overdue section: the loaded rentals due strictly before `now`. */
  function OverdueSection(rentals: seq<Rental>, now: int): seq<Rental> {
    Filter(rentals, DueBefore(now))
  }

  /** The regular section: the loaded rentals due at or after `now`. */
  function RegularSection(rentals: seq<Rental>, now: int): seq<Rental> {
    Filter(rentals, DueAtOrAfter(now))
  }

  /** Every loaded rental is in exactly one section, each section keeps the
      loaded order, and the section sizes add up to the number loaded. */
  lemma SectionsPartition(rentals: seq<Rental>, now: int)
    ensures |OverdueSection(rentals, now)| + |RegularSection(rentals, now)| == |rentals|
    ensures IsSubseq(OverdueSection(rentals, now), rentals)
    ensures IsSubseq(RegularSection(rentals, now), rentals)
    ensures forall i :: 0 <= i < |rentals| ==>
      (rentals[i] in OverdueSection(rentals, now) <==> rentals[i].dueDate < now)
      && (rentals[i] in RegularSection(rentals, now) <==> rentals[i].dueDate >= now)
  {
    PartitionCount(rentals, DueBefore(now));
    FilterCongruent(rentals, DueAtOrAfter(now), Neg(DueBefore(now)));
    FilterIsSubseq(rentals, DueBefore(now));
    FilterIsSubseq(rentals, DueAtOrAfter(now));
  }

  /** Over the store's active rentals, the overdue section holds exactly the
      rentals the store's overdue query and the dashboard count. */
  lemma OverdueSectionOfActive(all: seq<Rental>, now: int)
    ensures OverdueSection(Filter(all, IsActive), now) == Filter(all, (r: Rental) => OverdueAt(r, now))
  {
    FilterFilter(all, IsActive, DueBefore(now));
    FilterCongruent(all, Both(IsActive, DueBefore(now)), (r: Rental) => OverdueAt(r, now));
  }

  datatype Screen = EmptyState | Sections(overdue: seq<Rental>, regular: seq<Rental>)

  /** What the screen renders once loaded: the empty state for no rentals,
      otherwise the two sections. */
  function ScreenFor(rentals: seq<Rental>, now: int): (s: Screen)
    ensures s.EmptyState? <==> rentals == []
    ensures s.Sections? ==> |s.overdue| + |s.regular| == |rentals|
  {
    if |rentals| == 0 then EmptyState
    else
      SectionsPartition(rentals, now);
      Sections(OverdueSection(rentals, now), RegularSection(rentals, now))
  }

  function ItemId(i: Item): int { i.id }

  function CustomerId(c: Customer): int { c.id }

  /** The items lookup built from the whole table is the table itself: each
      `Id` maps to the item stored under it, and no other `Id` appears. */
  method ItemsLookup(store: RecordStore) returns (m: map<int, Item>)
    requires store.Valid()
    ensures m == store.items
  {
    var all := store.AllItems();
    m := IndexBy(all, ItemId);
    forall k | k in store.items ensures k in m && m[k] == store.items[k] {
      var x := store.items[k];
      assert x in all;
      var idx :| 0 <= idx < |all| && all[idx] == x;
      assert ItemId(all[idx]) == k;
      var li := LastIndexWith(all, ItemId, k);
      assert li >= 0;
      StoredUnder(store, all[li], k);
    }
    forall k | k in m ensures k in store.items {
      var li := LastIndexWith(all, ItemId, k);
      StoredUnder(store, all[li], k);
    }
  }

  /** A stored item whose `Id` is `k` is the one stored under `k`. */
  lemma StoredUnder(store: RecordStore, x: Item, k: int)
    requires store.Valid()
    requires Stored(store.items, x) && x.id == k
    ensures k in store.items && store.items[k] == x
  {
    var k' :| k' in store.items && store.items[k'] == x;
  }

  /** The screen's state. */
  class ActiveRentalsView {
    var rentals: seq<Rental>
    var items: map<int, Item>
    var customers: map<int, Customer>
    var selectedRental: Option<Rental>
    var showReturnModal: bool

    constructor ()
      ensures rentals == [] && items == map[] && customers == map[]
      ensures selectedRental.None? && !showReturnModal
    {
      rentals, items, customers := [], map[], map[];
      selectedRental, showReturnModal := None, false;
    }

    /** `loadActiveRentals`, given what the three queries returned: the rentals
        as returned, and each lookup keyed by `Id`, the last record with a given
        `Id` winning. */
    method Load(activeRentals: seq<Rental>, allItems: seq<Item>, allCustomers: seq<Customer>)
      modifies this
      ensures rentals == activeRentals
      ensures forall k :: k in items <==> LastIndexWith(allItems, ItemId, k) >= 0
      ensures forall k :: k in items ==> items[k] == allItems[LastIndexWith(allItems, ItemId, k)]
      ensures forall k :: k in customers <==> LastIndexWith(allCustomers, CustomerId, k) >= 0
      ensures forall k :: k in customers ==>
        customers[k] == allCustomers[LastIndexWith(allCustomers, CustomerId, k)]
      ensures selectedRental == old(selectedRental) && showReturnModal == old(showReturnModal)
    {
      var itemsMap := IndexBy(allItems, ItemId);
      var customersMap := IndexBy(allCustomers, CustomerId);
      rentals := activeRentals;
      items := itemsMap;
      customers := customersMap;
    }

    /** `handleReturnItem`: opens the return dialog for a rental. */
    method HandleReturnItem(r: Rental)
      modifies this
      ensures selectedRental == Some(r) && showReturnModal
      ensures rentals == old(rentals) && items == old(items) && customers == old(customers)
    {
      selectedRental := Some(r);
      showReturnModal := true;
    }

    /** `handleReturnProcessed`: closes the dialog, clears the selection and
        loads the list again from the queries' fresh results. */
    method HandleReturnProcessed(activeRentals: seq<Rental>, allItems: seq<Item>, allCustomers: seq<Customer>)
      modifies this
      ensures !showReturnModal && selectedRental.None?
      ensures rentals == activeRentals
      ensures forall k :: k in items <==> LastIndexWith(allItems, ItemId, k) >= 0
      ensures forall k :: k in items ==> items[k] == allItems[LastIndexWith(allItems, ItemId, k)]
      ensures forall k :: k in customers <==> LastIndexWith(allCustomers, CustomerId, k) >= 0
      ensures forall k :: k in customers ==>
        customers[k] == allCustomers[LastIndexWith(allCustomers, CustomerId, k)]
    {
      showReturnModal := false;
      selectedRental := None;
      Load(activeRentals, allItems, allCustomers);
    }

    /** The screen for the current state. */
    function Screen(now: int): Screen
      reads this
    {
      ScreenFor(rentals, now)
    }
  }
}
