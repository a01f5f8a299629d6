/** The rental records the rental service writes: the defaults of a new rental,
    the partial update, and the changes a return makes. */
module RentalService {
  import opened Wrappers
  import opened Text
  import opened Records
  import opened Billing

  /** What a caller hands to `create`. */
  datatype RentalDraft = RentalDraft(
    customerId: int,
    itemId: int,
    startDate: int,
    dueDate: int,
    totalPrice: int,
    notes: Option<string>)

  /** The name a new rental is stored under: `Rental for ${customerId}`. */
  function RentalName(customerId: int): string {
    "Rental for " + IntToString(customerId)
  }

  /** The customer a rental's name refers to can be read back from the name. */
  lemma RentalNameNamesCustomer(customerId: int)
    ensures |RentalName(customerId)| > 11
    ensures RentalName(customerId)[..11] == "Rental for "
    ensures ParseInt(RentalName(customerId)[11..]) == Some(customerId)
  {
    assert RentalName(customerId)[11..] == IntToString(customerId);
    IntToStringRoundTrip(customerId);
  }

  /** A JavaScript string with a fallback: `s || fallback`. */
  function TextOr(s: Option<string>, fallback: string): string {
    if s.Some? && s.value != "" then s.value else fallback
  }

  /** The record `create` stores for a draft under a fresh id. */
  function NewRental(id: int, d: RentalDraft): (r: Rental)
    ensures r.id == id && r.customerId == d.customerId && r.itemId == d.itemId
    ensures r.status == Active && r.lateFee == 0 && r.returnDate.None?
    ensures r.name == RentalName(d.customerId)
    ensures r.notes == "" <==> d.notes.None? || d.notes.value == ""
    ensures d.notes.Some? && d.notes.value != "" ==> r.notes == d.notes.value
    ensures r.startDate == d.startDate && r.dueDate == d.dueDate && r.totalPrice == d.totalPrice
  {
    Rental(id, RentalName(d.customerId), d.customerId, d.itemId, d.startDate, d.dueDate,
           None, d.totalPrice, 0, Active, TextOr(d.notes, ""))
  }

  /** The fields `update` is given; `None` is a field left undefined. A present
      `returnDate` may itself be `None`, the stored `null`. */
  datatype RentalPatch = RentalPatch(
    name: Option<string>,
    customerId: Option<int>,
    itemId: Option<int>,
    startDate: Option<int>,
    dueDate: Option<int>,
    returnDate: Option<Option<int>>,
    totalPrice: Option<int>,
    lateFee: Option<int>,
    status: Option<RentalStatus>,
    notes: Option<string>)

  const NoRentalChanges := RentalPatch(None, None, None, None, None, None, None, None, None, None)

  /** The stored rental after `update`: each supplied field replaces the stored one. */
  function ApplyRentalPatch(r: Rental, p: RentalPatch): (r': Rental)
    ensures r'.id == r.id
    ensures Merged(p.name, r.name, r'.name) && Merged(p.customerId, r.customerId, r'.customerId)
    ensures Merged(p.itemId, r.itemId, r'.itemId) && Merged(p.startDate, r.startDate, r'.startDate)
    ensures Merged(p.dueDate, r.dueDate, r'.dueDate) && Merged(p.returnDate, r.returnDate, r'.returnDate)
    ensures Merged(p.totalPrice, r.totalPrice, r'.totalPrice) && Merged(p.lateFee, r.lateFee, r'.lateFee)
    ensures Merged(p.status, r.status, r'.status) && Merged(p.notes, r.notes, r'.notes)
  {
    Rental(r.id, p.name.GetOr(r.name), p.customerId.GetOr(r.customerId), p.itemId.GetOr(r.itemId),
           p.startDate.GetOr(r.startDate), p.dueDate.GetOr(r.dueDate), p.returnDate.GetOr(r.returnDate),
           p.totalPrice.GetOr(r.totalPrice), p.lateFee.GetOr(r.lateFee), p.status.GetOr(r.status),
           p.notes.GetOr(r.notes))
  }

  predicate Keeps<T(==)>(supplied: Option<T>, current: T) {
    supplied.None? || supplied.value == current
  }

  /** An update leaves a rental as it was exactly when every field it supplies
      already holds the supplied value. */
  lemma RentalPatchNoOp(r: Rental, p: RentalPatch)
    ensures ApplyRentalPatch(r, p) == r <==>
      Keeps(p.name, r.name) && Keeps(p.customerId, r.customerId) && Keeps(p.itemId, r.itemId)
      && Keeps(p.startDate, r.startDate) && Keeps(p.dueDate, r.dueDate)
      && Keeps(p.returnDate, r.returnDate) && Keeps(p.totalPrice, r.totalPrice)
      && Keeps(p.lateFee, r.lateFee) && Keeps(p.status, r.status) && Keeps(p.notes, r.notes)
  {
  }

  /** Sending the same update twice is the same as sending it once. */
  lemma RentalPatchIdempotent(r: Rental, p: RentalPatch)
    ensures ApplyRentalPatch(ApplyRentalPatch(r, p), p) == ApplyRentalPatch(r, p)
  {
  }

  /** The later of two updates wins field by field. */
  function ThenRentalPatch(p: RentalPatch, q: RentalPatch): RentalPatch {
    RentalPatch(
      if q.name.Some? then q.name else p.name,
      if q.customerId.Some? then q.customerId else p.customerId,
      if q.itemId.Some? then q.itemId else p.itemId,
      if q.startDate.Some? then q.startDate else p.startDate,
      if q.dueDate.Some? then q.dueDate else p.dueDate,
      if q.returnDate.Some? then q.returnDate else p.returnDate,
      if q.totalPrice.Some? then q.totalPrice else p.totalPrice,
      if q.lateFee.Some? then q.lateFee else p.lateFee,
      if q.status.Some? then q.status else p.status,
      if q.notes.Some? then q.notes else p.notes)
  }

  /** Two updates in a row act as their field-wise merge. */
  lemma RentalPatchCompose(r: Rental, p: RentalPatch, q: RentalPatch)
    ensures ApplyRentalPatch(ApplyRentalPatch(r, p), q) == ApplyRentalPatch(r, ThenRentalPatch(p, q))
  {
  }

  /** The rental after a return at `now`: returned, stamped, charged the late fee,
      with the supplied notes when they are non-empty; nothing else changes. */
  function AfterReturn(r: Rental, now: int, notes: Option<string>): Rental {
    r.(status := Returned, returnDate := Some(now), lateFee := LateFee(r.dueDate, now),
       notes := TextOr(notes, r.notes))
  }

  /** A return made twice records the second return's time and fee: nothing in a
      return looks at the rental's status. */
  lemma ReturnTwice(r: Rental, t1: int, t2: int, notes: Option<string>)
    ensures AfterReturn(AfterReturn(r, t1, notes), t2, notes) == AfterReturn(r, t2, notes)
  {
  }
}
