/** The return dialog: the late-fee preview, the item's next status, and the two
    writes that process a return. */
module ReturnProcessModal {
  import opened Wrappers
  import opened Records
  import opened Billing
  import opened Remote
  import opened RentalService
  import opened InventoryService
  import opened Store

  datatype ReturnPreview = ReturnPreview(isOverdue: bool, daysLate: int, lateFee: int, totalAmount: int)

  /** What the dialog shows before the return is processed at `now`. */
  function Preview(rental: Rental, now: int): (p: ReturnPreview)
    ensures p.isOverdue <==> now > rental.dueDate
    ensures !p.isOverdue ==> p.daysLate == 0 && p.lateFee == 0
    ensures p.isOverdue ==> p.daysLate * DayMs <= now - rental.dueDate < (p.daysLate + 1) * DayMs
    ensures p.lateFee == p.daysLate * LateFeePerDay
    ensures p.totalAmount == rental.totalPrice + p.lateFee
    ensures p.lateFee <= LateFee(rental.dueDate, now) <= p.lateFee + LateFeePerDay
  {
    PreviewVersusCharged(rental.dueDate, now);
    var isOverdue := now > rental.dueDate;
    var daysLate := DaysLate(rental.dueDate, now);
    var lateFee := daysLate * LateFeePerDay;
    ReturnPreview(isOverdue, daysLate, lateFee, rental.totalPrice + lateFee)
  }

  /** A rental due at the start of day 20000 and returned an hour later: the
      dialog previews no fee, and the return then charges a full day. */
  lemma PreviewUnderquotes()
    ensures var due := 20000 * DayMs;
      var r := Rental(1, "Rental for 1", 1, 1, due - 3 * DayMs, due, None, 30, 0, Active, "");
      var later := due + 3_600_000;
      Preview(r, later).isOverdue && Preview(r, later).lateFee == 0
      && AfterReturn(r, later, None).lateFee == LateFeePerDay
  {
    var due := 20000 * DayMs;
    assert DaysLate(due, due + 3_600_000) == 0;
    assert CeilDays(3_600_000) == 1;
  }

  /** The preview the dialog evidently means to show: the fee the return will
      charge at the same moment, counting every started day. */
  function IntendedPreview(rental: Rental, now: int): (p: ReturnPreview)
    ensures p.isOverdue <==> now > rental.dueDate
    ensures !p.isOverdue ==> p.daysLate == 0 && p.lateFee == 0
    ensures p.isOverdue ==> (p.daysLate - 1) * DayMs < now - rental.dueDate <= p.daysLate * DayMs
    ensures p.lateFee == p.daysLate * LateFeePerDay
    ensures p.totalAmount == rental.totalPrice + p.lateFee
  {
    LateFeeIsCeiling(rental.dueDate, now);
    var isOverdue := now > rental.dueDate;
    var daysLate := if isOverdue then CeilDays(now - rental.dueDate) else 0;
    var lateFee := daysLate * LateFeePerDay;
    ReturnPreview(isOverdue, daysLate, lateFee, rental.totalPrice + lateFee)
  }

  /** What the intended preview shows is what processing the return at that
      moment records, and it agrees with the written preview on whole days. */
  lemma IntendedPreviewIsCharged(rental: Rental, now: int, notes: Option<string>)
    ensures IntendedPreview(rental, now).lateFee == AfterReturn(rental, now, notes).lateFee
    ensures IntendedPreview(rental, now).totalAmount
      == AfterReturn(rental, now, notes).totalPrice + AfterReturn(rental, now, notes).lateFee
    ensures (now - rental.dueDate) % DayMs == 0 ==> IntendedPreview(rental, now) == Preview(rental, now)
  {
    PreviewVersusCharged(rental.dueDate, now);
    LateFeeIsCeiling(rental.dueDate, now);
  }

  /** The status an item returns to: under repair when it came back in poor
      condition, otherwise available again. */
  function NextItemStatus(condition: Condition): (s: ItemStatus)
    ensures s == Maintenance <==> condition == Poor
    ensures s == Available <==> condition != Poor
  {
    if condition == Poor then Maintenance else Available
  }

  /** The notes sent with a return: the typed notes, or "Item returned". */
  function NotesSent(typed: string): (n: string)
    ensures n != ""
    ensures typed != "" ==> n == typed
  {
    if typed == "" then "Item returned" else typed
  }

  datatype Outcome = Processed | Aborted(message: string)

  /** `handleProcessReturn`: processes the rental's return with the notes sent,
      then sets the item's status and condition. A failure stops the sequence;
      a rental already marked returned stays returned. */
  method HandleProcessReturn(store: RecordStore, rental: Rental, condition: Condition, typedNotes: string,
                             now: int, returnReply: Reply, itemReply: Reply)
    returns (outcome: Outcome)
    requires store.Valid()
    modifies store
    ensures store.Valid()
    ensures store.customers == old(store.customers) && store.nextId == old(store.nextId)
    ensures
      var returned := rental.id in old(store.rentals) && WriteError(returnReply, UpdateRentalFailed).None?;
      var synced := returned && rental.itemId in old(store.items)
                    && WriteError(itemReply, UpdateItemFailed).None?;
      (outcome == Processed <==> synced)
      && (outcome != Processed ==> outcome.Aborted?)
      && store.rentals == (if returned
                           then old(store.rentals)[rental.id :=
                                  AfterReturn(old(store.rentals)[rental.id], now, Some(NotesSent(typedNotes)))]
                           else old(store.rentals))
      && (returned ==> store.rentals[rental.id].notes == NotesSent(typedNotes)
                       && store.rentals[rental.id].status == Returned)
      && store.items == (if synced
                         then old(store.items)[rental.itemId :=
                                old(store.items)[rental.itemId].(status := NextItemStatus(condition),
                                                                 condition := condition)]
                         else old(store.items))
  {
    var processed := store.ProcessReturn(rental.id, Some(NotesSent(typedNotes)), now, returnReply);
    if processed.Err? {
      return Aborted(processed.message);
    }
    var newStatus := if condition == Poor then Maintenance else Available;
    var synced := store.UpdateItem(rental.itemId, StatusAndCondition(newStatus, condition), itemReply);
    if synced.Err? {
      return Aborted(synced.message);
    }
    return Processed;
  }
}
