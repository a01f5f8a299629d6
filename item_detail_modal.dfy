/** The item detail dialog: the item's rental history, its earnings and count,
    the rental currently out, and the history shown newest first. */
module ItemDetailModal {
  import opened Wrappers
  import opened Seqs
  import opened Records
  import opened Lookup
  import opened Store

  function OfItem(itemId: int): Rental -> bool {
    (r: Rental) => r.itemId == itemId
  }

  /** The rentals of one item, in the order loaded. */
  function History(rentals: seq<Rental>, itemId: int): (h: seq<Rental>)
    ensures forall i :: 0 <= i < |h| ==> h[i].itemId == itemId && h[i] in rentals
    ensures forall i :: 0 <= i < |rentals| && rentals[i].itemId == itemId ==> rentals[i] in h
  {
    Filter(rentals, OfItem(itemId))
  }

  /** `totalEarnings`: what was charged over the history. */
  function TotalEarnings(history: seq<Rental>): int {
    SumBy(history, AmountCharged)
  }

  /** The earnings of one item and of all other items add up to everything
      charged; with non-negative charges no item earns more than the total. */
  lemma EarningsShare(rentals: seq<Rental>, itemId: int)
    ensures TotalEarnings(History(rentals, itemId))
      + SumBy(Filter(rentals, Neg(OfItem(itemId))), AmountCharged) == SumBy(rentals, AmountCharged)
    ensures (forall i :: 0 <= i < |rentals| ==> AmountCharged(rentals[i]) >= 0) ==>
      TotalEarnings(History(rentals, itemId)) <= SumBy(rentals, AmountCharged)
  {
    PartitionSum(rentals, OfItem(itemId), AmountCharged);
    if forall i :: 0 <= i < |rentals| ==> AmountCharged(rentals[i]) >= 0 {
      FilterSumLe(rentals, OfItem(itemId), AmountCharged);
    }
  }

  /** `currentRental`: the first active rental of the history, if any. */
  function CurrentRental(history: seq<Rental>): (r: Option<Rental>)
    ensures r.None? <==> forall i :: 0 <= i < |history| ==> history[i].status != Active
    ensures r.Some? ==> r.value.status == Active
    ensures r.Some? ==>
      exists k :: 0 <= k < |history| && history[k] == r.value && (forall j :: 0 <= j < k ==> history[j].status != Active)
  {
    var k := FirstIndex(history, IsActive);
    if k < |history| then Some(history[k]) else None
  }

  /** The history is shown newest start first. */
  ghost predicate NewestFirst(s: seq<Rental>) {
    forall i, j :: 0 <= i < j < |s| ==> s[i].startDate >= s[j].startDate
  }

  /** `rentalHistory.sort((a, b) => b.startDate - a.startDate)`, in place: an
      insertion sort that moves a later start date left past earlier ones. */
  method SortNewestFirst(a: array<Rental>)
    modifies a
    ensures NewestFirst(a[..])
    ensures multiset(a[..]) == multiset(old(a[..]))
  {
    var n := 0;
    while n < a.Length
      invariant 0 <= n <= a.Length
      invariant NewestFirst(a[..n])
      invariant multiset(a[..]) == multiset(old(a[..]))
    {
      InsertLast(a, n);
      n := n + 1;
    }
    assert a[..] == a[..n];
  }

  /** Moves `a[n]` left into the newest-first prefix `a[..n]`. */
  method InsertLast(a: array<Rental>, n: nat)
    requires n < a.Length && NewestFirst(a[..n])
    modifies a
    ensures NewestFirst(a[..n + 1])
    ensures multiset(a[..]) == multiset(old(a[..]))
  {
    var j := n;
    while j > 0 && a[j - 1].startDate < a[j].startDate
      invariant 0 <= j <= n
      invariant forall i, k :: 0 <= i < k <= n && i != j && k != j ==> a[i].startDate >= a[k].startDate
      invariant forall k :: j < k <= n ==> a[k].startDate < a[j].startDate
      invariant multiset(a[..]) == multiset(old(a[..]))
    {
      SwapAdjacent(a, j);
      j := j - 1;
    }
  }

  method SwapAdjacent(a: array<Rental>, j: nat)
    requires 0 < j < a.Length
    modifies a
    ensures a[..] == old(a[..])[j - 1 := old(a[j])][j := old(a[j - 1])]
    ensures multiset(a[..]) == multiset(old(a[..]))
  {
    a[j - 1], a[j] := a[j], a[j - 1];
  }

  /** Reordering the history for display keeps it the item's history, with the
      same count and the same earnings. */
  lemma ReorderKeepsFigures(history: seq<Rental>, shown: seq<Rental>, itemId: int)
    requires multiset(shown) == multiset(history)
    requires forall i :: 0 <= i < |history| ==> history[i].itemId == itemId
    ensures |shown| == |history|
    ensures TotalEarnings(shown) == TotalEarnings(history)
    ensures forall i :: 0 <= i < |shown| ==> shown[i].itemId == itemId
  {
    assert |multiset(shown)| == |multiset(history)|;
    SumPermutation(shown, history, AmountCharged);
    forall i | 0 <= i < |shown| ensures shown[i].itemId == itemId {
      assert shown[i] in multiset(history);
    }
  }

  function CustomerId(c: Customer): int { c.id }

  /** The dialog's state for one item. */
  class ItemDetailView {
    const itemId: int
    var history: array<Rental>
    var customers: map<int, Customer>
    var loading: bool

    constructor (itemId: int)
      ensures this.itemId == itemId && history.Length == 0 && customers == map[] && loading
    {
      this.itemId := itemId;
      history := new Rental[0];
      customers := map[];
      loading := true;
    }

    /** `loadRentalHistory`, given what the two queries returned. */
    method Load(allRentals: seq<Rental>, allCustomers: seq<Customer>)
      modifies this
      ensures fresh(history) && history[..] == History(allRentals, itemId)
      ensures forall k :: k in customers <==> LastIndexWith(allCustomers, CustomerId, k) >= 0
      ensures forall k :: k in customers ==>
        customers[k] == allCustomers[LastIndexWith(allCustomers, CustomerId, k)]
      ensures !loading
    {
      loading := true;
      var h := History(allRentals, itemId);
      var lookup := IndexBy(allCustomers, CustomerId);
      history := new Rental[|h|](i requires 0 <= i < |h| => h[i]);
      customers := lookup;
      loading := false;
    }

    /** Rendering the history sorts it in place. */
    method ShowHistory()
      modifies history
      ensures NewestFirst(history[..])
      ensures multiset(history[..]) == multiset(old(history[..]))
    {
      SortNewestFirst(history);
    }

    function TotalRentals(): int
      reads this
    {
      history.Length
    }

    function Earnings(): int
      reads this, history
    {
      TotalEarnings(history[..])
    }
  }
}
