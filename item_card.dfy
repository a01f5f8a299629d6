/** The item card: status badge variant and icon, and the Rent and Edit buttons.
    The switch on status text is the same in the item detail dialog. */
module ItemCard {
  import opened Records
  import opened InventoryService

  predicate KnownStatusText(t: string) {
    t == "available" || t == "rented" || t == "maintenance"
  }

  /** `getStatusVariant`: the three known status texts name their own variant,
      every other text falls back to `default`. */
  function StatusVariant(s: ItemStatus): (v: string)
    ensures KnownStatusText(StatusText(s)) ==> v == StatusText(s)
    ensures !KnownStatusText(StatusText(s)) ==> v == "default"
  {
    match StatusText(s)
    case "available" => "available"
    case "rented" => "rented"
    case "maintenance" => "maintenance"
    case _ => "default"
  }

  /** `getStatusIcon`. */
  function StatusIcon(s: ItemStatus): (icon: string)
    ensures StatusText(s) == "available" <==> icon == "CheckCircle"
    ensures StatusText(s) == "rented" <==> icon == "Clock"
    ensures StatusText(s) == "maintenance" <==> icon == "Wrench"
    ensures !KnownStatusText(StatusText(s)) <==> icon == "Circle"
  {
    match StatusText(s)
    case "available" => "CheckCircle"
    case "rented" => "Clock"
    case "maintenance" => "Wrench"
    case _ => "Circle"
  }

  /** Two statuses share a badge colour exactly when they share an icon. */
  lemma IconFollowsVariant(a: ItemStatus, b: ItemStatus)
    ensures StatusVariant(a) == StatusVariant(b) <==> StatusIcon(a) == StatusIcon(b)
  {
  }

  /** The Rent button is offered for an available item when a handler is given. */
  predicate RentButton(i: Item, hasOnRent: bool) {
    StatusText(i.status) == "available" && hasOnRent
  }

  /** The Edit button's `flex-1` class. */
  predicate EditFullWidth(i: Item, hasOnRent: bool) {
    !hasOnRent || StatusText(i.status) != "available"
  }

  /** The Edit button fills the row exactly when there is no Rent button beside it. */
  lemma EditWideIffNoRent(i: Item, hasOnRent: bool)
    ensures EditFullWidth(i, hasOnRent) <==> !RentButton(i, hasOnRent)
  {
  }

  /** A freshly added item without a status can be rented; once marked rented
      or under maintenance it cannot. */
  lemma RentEligibility(id: int, d: ItemDraft, now: int, i: Item)
    ensures d.status.None? ==> RentButton(NewItem(id, d, now), true)
    ensures i.status in {Rented, Maintenance} ==> !RentButton(i, true)
  {
  }
}
