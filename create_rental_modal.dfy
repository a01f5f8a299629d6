/** The rental-creation dialog: the customer picker's filter, the inline
    new-customer form, the rental-period input and the three writes that create
    a rental. */
module CreateRentalModal {
  import opened Wrappers
  import opened Text
  import opened Seqs
  import opened Records
  import opened Remote
  import opened RentalService
  import opened InventoryService
  import opened CustomerService
  import opened Store

  /** How a press of the create button ends. `Aborted` carries the error the
      failing write threw; the dialog then shows its fixed failure text. */
  datatype Outcome = NoCustomer | PeriodTooShort | Created | Aborted(message: string)

  /** The price the dialog shows: the item's daily rental price times the days. */
  function PreviewTotal(item: Item, rentalDays: int): int {
    item.rentalPrice * rentalDays
  }

  /** The due date the dialog shows for a rental starting at `now`. */
  function PreviewDueDate(now: int, rentalDays: int): int {
    AddDays(now, rentalDays)
  }

  /** A rental of `n` days is due on the calendar day `n` days after its start. */
  lemma DueDayIsDaysAfterStart(now: int, rentalDays: int)
    ensures DayIndex(PreviewDueDate(now, rentalDays)) == DayIndex(now) + rentalDays
    ensures PreviewDueDate(now, rentalDays) - now == rentalDays * DayMs
  {
    var q, r := now / DayMs, now % DayMs;
    assert now == q * DayMs + r;
    assert PreviewDueDate(now, rentalDays) == (q + rentalDays) * DayMs + r;
  }

  /** What `rentalService.create` is handed: the selected customer, the item,
      the start `now`, the due date and price as previewed, and the notes. */
  function DraftFor(customerId: int, item: Item, rentalDays: int, notes: string, now: int): RentalDraft {
    RentalDraft(customerId, item.id, now, PreviewDueDate(now, rentalDays),
                PreviewTotal(item, rentalDays), Some(notes))
  }

  /** `handleCreateRental`: refuses without a customer or with fewer than one
      day; otherwise hands the previewed rental to `RecordRental`. */
  method HandleCreateRental(store: RecordStore, selected: Option<int>, item: Item, rentalDays: int,
                            notes: string, now: int,
                            rentalReply: Reply, itemReply: Reply, countReply: Reply)
    returns (outcome: Outcome)
    requires store.Valid()
    modifies store
    ensures store.Valid()
    ensures store.nextId >= old(store.nextId)
    ensures selected.None? ==> outcome == NoCustomer && unchanged(store)
    ensures selected.Some? && rentalDays < 1 ==> outcome == PeriodTooShort && unchanged(store)
    ensures selected.Some? && rentalDays >= 1 ==>
      Recorded(old(store.rentals), old(store.items), old(store.customers), old(store.nextId),
               DraftFor(selected.value, item, rentalDays, notes, now),
               WriteError(rentalReply, CreateRentalFailed).None?, WriteError(itemReply, UpdateItemFailed).None?,
               WriteError(countReply, UpdateCustomerFailed).None?, outcome,
               store.rentals, store.items, store.customers)
    ensures selected.Some? && rentalDays >= 1 && WriteError(rentalReply, CreateRentalFailed).None? ==>
      var r := store.rentals[old(store.nextId)];
      r.totalPrice == PreviewTotal(item, rentalDays) && r.dueDate == PreviewDueDate(now, rentalDays)
      && r.startDate == now && r.status == Active && r.customerId == selected.value && r.itemId == item.id
  {
    if selected.None? {
      return NoCustomer;
    }
    if rentalDays < 1 {
      return PeriodTooShort;
    }
    var startDate := now;
    var dueDate := AddDays(startDate, rentalDays);
    var draft := RentalDraft(selected.value, item.id, startDate, dueDate, item.rentalPrice * rentalDays,
                             Some(notes));
    outcome := RecordRental(store, draft, rentalReply, itemReply, countReply);
  }

  /** The three tables after the create-rental sequence, from the tables before
      it: the rental is stored if its write succeeds; then the item is marked
      rented if that write succeeds too; then the customer's count rises by one
      if all three succeed. `rentalOk`, `itemOk` and `countOk` say whether the
      service accepted each write. The outcome is `Created` exactly when all three
      writes happened, and otherwise the first failure. */
  ghost predicate Recorded(rentals: map<int, Rental>, items: map<int, Item>, customers: map<int, Customer>,
                           id: int, draft: RentalDraft, rentalOk: bool, itemOk: bool, countOk: bool,
                           outcome: Outcome,
                           rentals': map<int, Rental>, items': map<int, Item>, customers': map<int, Customer>)
  {
    if rentalOk
    then rentals' == rentals[id := NewRental(id, draft)]
         && Marked(items, customers, draft, itemOk, countOk, outcome, items', customers')
    else rentals' == rentals && items' == items && customers' == customers && outcome.Aborted?
  }

  /** The item and customer tables after the last two writes: the item is
      marked rented if its write succeeds, and then the customer's count rises
      by one if that write succeeds too; `Created` exactly when both happened. */
  ghost predicate Marked(items: map<int, Item>, customers: map<int, Customer>, draft: RentalDraft,
                         itemOk: bool, countOk: bool, outcome: Outcome,
                         items': map<int, Item>, customers': map<int, Customer>)
  {
    var marked := draft.itemId in items && itemOk;
    var counted := marked && draft.customerId in customers && countOk;
    (outcome == Created <==> counted)
    && (outcome != Created ==> outcome.Aborted?)
    && items' == (if marked then items[draft.itemId := items[draft.itemId].(status := Rented)] else items)
    && customers' == (if counted
                      then customers[draft.customerId :=
                             customers[draft.customerId].(totalRentals :=
                               Some(customers[draft.customerId].totalRentals.GetOr(0) + 1))]
                      else customers)
  }

  /** The three writes in order, stopping at the first failure; nothing is
      undone, so the writes before a failure stay. */
  method RecordRental(store: RecordStore, draft: RentalDraft, rentalReply: Reply, itemReply: Reply,
                      countReply: Reply)
    returns (outcome: Outcome)
    requires store.Valid()
    modifies store
    ensures store.Valid()
    ensures store.nextId >= old(store.nextId)
    ensures Recorded(old(store.rentals), old(store.items), old(store.customers), old(store.nextId), draft,
                     WriteError(rentalReply, CreateRentalFailed).None?, WriteError(itemReply, UpdateItemFailed).None?,
                     WriteError(countReply, UpdateCustomerFailed).None?, outcome,
                     store.rentals, store.items, store.customers)
  {
    ghost var rentals0, id := store.rentals, store.nextId;
    var created := store.CreateRental(draft, rentalReply);
    if created.Err? {
      return Aborted(created.message);
    }
    assert store.rentals == rentals0[id := NewRental(id, draft)];
    outcome := MarkRented(store, draft, itemReply, countReply);
  }

  /** The second and third writes, once the rental is stored: the item is
      marked rented, then the customer's count rises by one. */
  method MarkRented(store: RecordStore, draft: RentalDraft, itemReply: Reply, countReply: Reply)
    returns (outcome: Outcome)
    requires store.Valid()
    modifies store
    ensures store.Valid()
    ensures store.rentals == old(store.rentals) && store.nextId == old(store.nextId)
    ensures Marked(old(store.items), old(store.customers), draft, WriteError(itemReply, UpdateItemFailed).None?,
                   WriteError(countReply, UpdateCustomerFailed).None?, outcome, store.items, store.customers)
  {
    ghost var items0 := store.items;
    var marked := store.UpdateItem(draft.itemId, NoItemChanges.(status := Some(Rented)), itemReply);
    if marked.Err? {
      return Aborted(marked.message);
    }
    assert store.items == items0[draft.itemId := items0[draft.itemId].(status := Rented)];
    outcome := CountRental(store, draft.customerId, countReply);
  }

  /** The last write: the customer's rental count rises by one. */
  method CountRental(store: RecordStore, customerId: int, countReply: Reply) returns (outcome: Outcome)
    requires store.Valid()
    modifies store
    ensures store.Valid()
    ensures store.rentals == old(store.rentals) && store.items == old(store.items)
    ensures store.nextId == old(store.nextId)
    ensures outcome == Created || outcome.Aborted?
    ensures outcome == Created <==>
      customerId in old(store.customers) && WriteError(countReply, UpdateCustomerFailed).None?
    ensures store.customers == (if outcome == Created
      then old(store.customers)[customerId :=
             old(store.customers)[customerId].(totalRentals :=
               Some(old(store.customers)[customerId].totalRentals.GetOr(0) + 1))]
      else old(store.customers))
  {
    var counted := store.IncrementRentalCount(customerId, countReply);
    if counted.Err? {
      return Aborted(counted.message);
    }
    return Created;
  }

  /** The inline customer form's required fields: name, email and phone. */
  datatype CustomerForm = CustomerForm(name: string, email: string, phone: string, address: string)

  predicate FormComplete(f: CustomerForm) {
    f.name != "" && f.email != "" && f.phone != ""
  }

  /** `handleCreateCustomer`: with name, email and phone filled in, creates the
      customer and selects it; the address may be empty. Returns the newly
      selected customer's `Id`, if any. */
  method HandleCreateCustomer(store: RecordStore, form: CustomerForm, now: int, reply: Reply)
    returns (selectedId: Option<int>)
    requires store.Valid()
    modifies store
    ensures store.Valid()
    ensures store.items == old(store.items) && store.rentals == old(store.rentals)
    ensures !FormComplete(form) ==> selectedId.None? && unchanged(store)
    ensures FormComplete(form) && WriteError(reply, CreateCustomerFailed).Some? ==>
      selectedId.None? && store.customers == old(store.customers)
    ensures FormComplete(form) && WriteError(reply, CreateCustomerFailed).None? ==>
      selectedId == Some(old(store.nextId))
      && store.customers == old(store.customers)[old(store.nextId) :=
           NewCustomer(old(store.nextId), CustomerFields(Some(form.name), Some(form.email), Some(form.phone),
                                                         Some(form.address), None), now)]
  {
    if form.name == "" || form.email == "" || form.phone == "" {
      return None;
    }
    var fields := CustomerFields(Some(form.name), Some(form.email), Some(form.phone), Some(form.address), None);
    var customer := store.CreateCustomer(fields, now, reply);
    if customer.Err? {
      return None;
    }
    return Some(customer.value.id);
  }

  /** The rental-period input: `parseInt(value) || 1`. */
  function RentalDaysInput(text: string): (days: int)
    ensures days != 0
  {
    var n := ParseInt(text);
    if n.None? || n.value == 0 then 1 else n.value
  }

  /** Any non-zero number typed as its numeral reaches the guard unchanged,
      negative ones included. */
  lemma RentalDaysInputKeepsNumbers(n: int)
    requires n != 0
    ensures RentalDaysInput(IntToString(n)) == n
  {
    IntToStringRoundTrip(n);
  }

  /** After leading white space and an optional sign, the input does not start
      with a digit, so `parseInt` finds no number in it. */
  predicate NoLeadingNumber(text: string) {
    var t := TrimStart(text);
    var u := if t != [] && (t[0] == '-' || t[0] == '+') then t[1..] else t;
    u == [] || !IsDecimalDigit(u[0])
  }

  /** `k` zero digits. */
  function Zeros(k: nat): (z: string)
    ensures |z| == k && forall i :: 0 <= i < k ==> z[i] == '0'
  {
    seq(k, i => '0')
  }

  /** An input with no leading number becomes one day, and so does one made of
      zeros (`0`, `00`, ...) followed by anything that does not continue the
      number. */
  lemma RentalDaysInputDefaults(text: string, k: nat, rest: string)
    ensures NoLeadingNumber(text) ==> RentalDaysInput(text) == 1
    ensures k > 0 && (rest == [] || !(IsDecimalDigit(rest[0]) || rest[0] == 'x' || rest[0] == 'X')) ==>
      RentalDaysInput(Zeros(k) + rest) == 1
  {
    if k > 0 && (rest == [] || !(IsDecimalDigit(rest[0]) || rest[0] == 'x' || rest[0] == 'X')) {
      var z := Zeros(k) + rest;
      assert TrimStart(z) == z;
      assert |z| >= 2 ==> z[1] != 'x' && z[1] != 'X';
      ZerosPrefix(k, rest);
      ZerosValue(k);
    }
  }

  lemma {:induction false} ZerosPrefix(k: nat, rest: string)
    requires rest == [] || !IsDecimalDigit(rest[0])
    ensures DigitPrefix(Zeros(k) + rest, 10) == Zeros(k)
  {
    if k > 0 {
      assert (Zeros(k) + rest)[1..] == Zeros(k - 1) + rest;
      ZerosPrefix(k - 1, rest);
      assert Zeros(k) == [Zeros(k)[0]] + Zeros(k - 1);
    }
  }

  lemma {:induction false} ZerosValue(k: nat)
    ensures DigitsValue(Zeros(k), 10) == 0
  {
    if k > 0 {
      assert Zeros(k)[..k - 1] == Zeros(k - 1);
      ZerosValue(k - 1);
    }
  }

  /** The name-or-email half of the picker's filter, which lower-cases both
      sides. */
  predicate MatchesNameOrEmail(c: Customer, term: string) {
    Contains(Lower(c.name.GetOr("")), Lower(term))
    || Contains(Lower(c.email.GetOr("")), Lower(term))
  }

  /** The customer picker's filter: the term, lower-cased, occurs in the
      lower-cased name or email, or the term as typed occurs in the phone number. */
  predicate MatchesPicker(c: Customer, term: string) {
    MatchesNameOrEmail(c, term) || Contains(c.phone.GetOr(""), term)
  }

  function FilteredCustomers(customers: seq<Customer>, term: string): (r: seq<Customer>)
    ensures forall i :: 0 <= i < |r| ==> r[i] in customers && MatchesPicker(r[i], term)
    ensures forall i :: 0 <= i < |customers| && MatchesPicker(customers[i], term) ==> customers[i] in r
  {
    Filter(customers, (c: Customer) => MatchesPicker(c, term))
  }

  /** With nothing typed, the picker lists every loaded customer in order. */
  lemma EmptyTermListsAll(customers: seq<Customer>)
    ensures FilteredCustomers(customers, "") == customers
  {
    forall i | 0 <= i < |customers| ensures MatchesPicker(customers[i], "") {
      ContainsEmpty(Lower(customers[i].name.GetOr("")));
    }
    FilterAll(customers, (c: Customer) => MatchesPicker(c, ""));
  }

  /** Names and emails match whatever the letter case of the term or of the
      stored text: two terms that lower-case alike find the same names and
      emails, and so do two customers whose names and emails lower-case alike.
      The phone number alone is compared as typed. */
  lemma PickerIgnoresCaseOfName(c: Customer, d: Customer, t1: string, t2: string)
    ensures Lower(t1) == Lower(t2) ==> (MatchesNameOrEmail(c, t1) <==> MatchesNameOrEmail(c, t2))
    ensures (Lower(c.name.GetOr("")) == Lower(d.name.GetOr(""))
             && Lower(c.email.GetOr("")) == Lower(d.email.GetOr("")) && c.phone == d.phone) ==>
      (MatchesPicker(c, t1) <==> MatchesPicker(d, t1))
  {
  }

  /** Unlike names and emails, a phone number is matched with the case typed: a
      phone holding `A` is found by the term `A` but not by `a`. */
  lemma PhoneMatchKeepsCase()
    ensures var c := Customer(1, None, None, Some("A"), None, 0, Some(0));
      Lower("A") == Lower("a") && MatchesPicker(c, "A") && !MatchesPicker(c, "a")
  {
    var c := Customer(1, None, None, Some("A"), None, 0, Some(0));
    assert StartsWith("A", "A");
    assert !Contains("", "a");
    assert !Contains("A"[1..], "a");
    assert Lower("a") == "a";
    assert !Contains("", Lower("a"));
  }

}
