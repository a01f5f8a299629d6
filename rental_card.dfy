/** The rental card: overdue test, status badge, Return button and the
    displayed total. */
module RentalCard {
  import opened Wrappers
  import opened Seqs
  import opened Records
  import opened Billing
  import opened RentalService
  import opened Store
  import opened ActiveRentalsList

  /** The badge's colour variant and text. */
  datatype Badge = Badge(variant: string, text: string)

  /** `getStatusVariant` and `getStatusText`. A card is overdue when
      `OverdueAt` holds: the rental is active and `now` is after its due time. */
  function StatusBadge(r: Rental, now: int): (b: Badge)
    ensures b.text == "Overdue" <==> OverdueAt(r, now)
    ensures b.text == "Active" <==> r.status == Active && now <= r.dueDate
    ensures b.text == "Returned" <==> r.status == Returned
    ensures b.variant == "overdue" <==> b.text == "Overdue"
    ensures b.variant == "rented" <==> b.text == "Active"
    ensures b.variant == "success" <==> b.text == "Returned"
  {
    if OverdueAt(r, now) then Badge("overdue", "Overdue")
    else if r.status == Active then Badge("rented", "Active")
    else Badge("success", "Returned")
  }

  /** A returned rental reads "Returned" at every moment, however late it was. */
  lemma ReturnedNeverOverdue(r: Rental, now: int, notes: Option<string>)
    ensures StatusBadge(AfterReturn(r, now, notes), now).text == "Returned"
    ensures forall t :: StatusBadge(AfterReturn(r, now, notes), t).variant == "success"
  {
  }

  /** Once overdue, an active card stays overdue as time passes. */
  lemma OverdueStaysOverdue(r: Rental, t1: int, t2: int)
    requires t1 <= t2 && StatusBadge(r, t1).text == "Overdue"
    ensures StatusBadge(r, t2).text == "Overdue"
  {
  }

  /** On the active-rentals screen a card shows "Overdue" exactly when its
      rental sits in the overdue section. */
  lemma CardMatchesSection(rentals: seq<Rental>, now: int)
    requires forall i :: 0 <= i < |rentals| ==> rentals[i].status == Active
    ensures forall i :: 0 <= i < |rentals| ==>
      (StatusBadge(rentals[i], now).text == "Overdue" <==> rentals[i] in OverdueSection(rentals, now))
  {
    SectionsPartition(rentals, now);
  }

  /** The Return button: shown for an active rental when a handler is given,
      in the `danger` variant when overdue and `success` otherwise. */
  function ReturnButton(r: Rental, hasOnReturn: bool, now: int): (b: Option<string>)
    ensures b.Some? <==> r.status == Active && hasOnReturn
    ensures b.Some? ==> (b.value == "danger" <==> StatusBadge(r, now).text == "Overdue")
  {
    if r.status == Active && hasOnReturn then
      Some(if OverdueAt(r, now) then "danger" else "success")
    else None
  }

  /** The card's total is the booked price before a return and the booked price
      plus the recorded late fee after it. */
  lemma DisplayedTotal(id: int, d: RentalDraft, now: int, notes: Option<string>)
    ensures AmountCharged(NewRental(id, d)) == d.totalPrice
    ensures AmountCharged(AfterReturn(NewRental(id, d), now, notes))
      == d.totalPrice + LateFee(d.dueDate, now)
  {
  }

  /** The item line: the item's name, or "Unknown Item" when the lookup has no
      item or its name is empty. */
  function ItemLabel(item: Option<Item>): (s: string)
    ensures s == "Unknown Item" <==> item.None? || item.value.name in {"", "Unknown Item"}
    ensures item.Some? && item.value.name != "" ==> s == item.value.name
  {
    if item.Some? && item.value.name != "" then item.value.name else "Unknown Item"
  }

  /** The customer line, with the same fallback. */
  function CustomerLabel(customer: Option<Customer>): (s: string)
    ensures customer.Some? && customer.value.name.Some? && customer.value.name.value != ""
      ==> s == customer.value.name.value
    ensures s == "Unknown Customer" <==>
      customer.None? || customer.value.name.None? || customer.value.name.value in {"", "Unknown Customer"}
  {
    if customer.Some? && customer.value.name.Some? && customer.value.name.value != ""
    then customer.value.name.value
    else "Unknown Customer"
  }
}
