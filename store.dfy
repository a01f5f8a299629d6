/** The shop's record store as the three services see it: one table per record
    kind, keyed by `Id`. Every write takes the store's reply as a parameter and
    commits only when the reply reports no failure. */
module Store {
  import opened Wrappers
  import opened Seqs
  import opened Records
  import opened Billing
  import opened Remote
  import opened Lookup
  import opened RentalService
  import opened InventoryService
  import opened CustomerService

  const CreateRentalFailed := "Failed to create rental"
  const UpdateRentalFailed := "Failed to update rental"
  const CreateItemFailed := "Failed to create item"
  const UpdateItemFailed := "Failed to update item"
  const CreateCustomerFailed := "Failed to create customer"
  const UpdateCustomerFailed := "Failed to update customer"

  /** The error a read or an update reports for an `Id` the table does not hold. */
  const RecordNotFound := "Record not found"

  predicate IsActive(r: Rental) {
    r.status == Active
  }

  /** The `getOverdueRentals` condition: active and due strictly before `now`. */
  predicate OverdueAt(r: Rental, now: int) {
    r.status == Active && r.dueDate < now
  }

  /** The stored rental with the supplied fields copied onto it one at a time, as
      `rentalService.update` assembles its record. */
  method MergeRental(r: Rental, patch: RentalPatch) returns (merged: Rental)
    ensures merged == ApplyRentalPatch(r, patch)
  {
    var name := r.name;
    if patch.name.Some? { name := patch.name.value; }
    assert name == patch.name.GetOr(r.name);
    var customerId := r.customerId;
    if patch.customerId.Some? { customerId := patch.customerId.value; }
    assert customerId == patch.customerId.GetOr(r.customerId);
    var itemId := r.itemId;
    if patch.itemId.Some? { itemId := patch.itemId.value; }
    assert itemId == patch.itemId.GetOr(r.itemId);
    var startDate := r.startDate;
    if patch.startDate.Some? { startDate := patch.startDate.value; }
    assert startDate == patch.startDate.GetOr(r.startDate);
    var dueDate := r.dueDate;
    if patch.dueDate.Some? { dueDate := patch.dueDate.value; }
    assert dueDate == patch.dueDate.GetOr(r.dueDate);
    var returnDate := r.returnDate;
    if patch.returnDate.Some? { returnDate := patch.returnDate.value; }
    assert returnDate == patch.returnDate.GetOr(r.returnDate);
    var totalPrice := r.totalPrice;
    if patch.totalPrice.Some? { totalPrice := patch.totalPrice.value; }
    assert totalPrice == patch.totalPrice.GetOr(r.totalPrice);
    var lateFee := r.lateFee;
    if patch.lateFee.Some? { lateFee := patch.lateFee.value; }
    assert lateFee == patch.lateFee.GetOr(r.lateFee);
    var status := r.status;
    if patch.status.Some? { status := patch.status.value; }
    assert status == patch.status.GetOr(r.status);
    var notes := r.notes;
    if patch.notes.Some? { notes := patch.notes.value; }
    assert notes == patch.notes.GetOr(r.notes);
    merged := Rental(r.id, name, customerId, itemId, startDate, dueDate, returnDate, totalPrice, lateFee,
                     status, notes);
  }

  /** The stored item with the supplied fields copied onto it one at a time, as
      `inventoryService.update` assembles its record. */
  method MergeItem(i: Item, patch: ItemPatch) returns (merged: Item)
    ensures merged == ApplyItemPatch(i, patch)
  {
    var name := i.name;
    if patch.name.Some? { name := patch.name.value; }
    assert name == patch.name.GetOr(i.name);
    var sku := i.sku;
    if patch.sku.Some? { sku := patch.sku.value; }
    assert sku == patch.sku.GetOr(i.sku);
    var category := i.category;
    if patch.category.Some? { category := patch.category.value; }
    assert category == patch.category.GetOr(i.category);
    var size := i.size;
    if patch.size.Some? { size := patch.size.value; }
    assert size == patch.size.GetOr(i.size);
    var color := i.color;
    if patch.color.Some? { color := patch.color.value; }
    assert color == patch.color.GetOr(i.color);
    var brand := i.brand;
    if patch.brand.Some? { brand := patch.brand.value; }
    assert brand == patch.brand.GetOr(i.brand);
    var purchasePrice := i.purchasePrice;
    if patch.purchasePrice.Some? { purchasePrice := patch.purchasePrice.value; }
    assert purchasePrice == patch.purchasePrice.GetOr(i.purchasePrice);
    var rentalPrice := i.rentalPrice;
    if patch.rentalPrice.Some? { rentalPrice := patch.rentalPrice.value; }
    assert rentalPrice == patch.rentalPrice.GetOr(i.rentalPrice);
    var status := i.status;
    if patch.status.Some? { status := patch.status.value; }
    assert status == patch.status.GetOr(i.status);
    var condition := i.condition;
    if patch.condition.Some? { condition := patch.condition.value; }
    assert condition == patch.condition.GetOr(i.condition);
    var photoUrl := i.photoUrl;
    if patch.photoUrl.Some? { photoUrl := patch.photoUrl.value; }
    assert photoUrl == patch.photoUrl.GetOr(i.photoUrl);
    merged := Item(i.id, name, sku, category, size, color, brand, purchasePrice, rentalPrice, status,
                   condition, photoUrl, i.dateAdded);
  }

  class RecordStore {
    var items: map<int, Item>
    var customers: map<int, Customer>
    var rentals: map<int, Rental>
    /** The `Id` the next created record receives. */
    var nextId: int

    /** Every record sits under its own `Id`, and every `Id` was handed out. */
    ghost predicate Valid()
      reads this
    {
      (forall k :: k in items ==> items[k].id == k && k < nextId)
      && (forall k :: k in customers ==> customers[k].id == k && k < nextId)
      && (forall k :: k in rentals ==> rentals[k].id == k && k < nextId)
    }

    constructor ()
      ensures Valid()
      ensures items == map[] && customers == map[] && rentals == map[]
    {
      items, customers, rentals := map[], map[], map[];
      nextId := 1;
    }

    // ---------------------------------------------------------------- rentals

    /** `rentalService.create`: stores the rental with its defaults under a fresh
        `Id`, or fails with the reply's error and stores nothing. */
    method CreateRental(draft: RentalDraft, reply: Reply) returns (res: Result<Rental>)
      requires Valid()
      modifies this
      ensures Valid()
      ensures items == old(items) && customers == old(customers)
      ensures old(nextId) !in old(rentals)
      ensures WriteError(reply, CreateRentalFailed).Some? ==>
        res == Err(WriteError(reply, CreateRentalFailed).value)
        && rentals == old(rentals) && nextId == old(nextId)
      ensures WriteError(reply, CreateRentalFailed).None? ==>
        res == Ok(NewRental(old(nextId), draft))
        && rentals == old(rentals)[old(nextId) := res.value] && nextId == old(nextId) + 1
    {
      var e := WriteError(reply, CreateRentalFailed);
      if e.Some? {
        return Err(e.value);
      }
      var rental := NewRental(nextId, draft);
      rentals := rentals[nextId := rental];
      nextId := nextId + 1;
      return Ok(rental);
    }

    /** `rentalService.update`: the supplied fields are copied one by one onto the
        stored rental; every other field and every other record stays. */
    method UpdateRental(id: int, patch: RentalPatch, reply: Reply) returns (res: Result<Rental>)
      requires Valid()
      modifies this
      ensures Valid()
      ensures items == old(items) && customers == old(customers) && nextId == old(nextId)
      ensures WriteError(reply, UpdateRentalFailed).Some? ==>
        res == Err(WriteError(reply, UpdateRentalFailed).value)
      ensures WriteError(reply, UpdateRentalFailed).None? && id !in old(rentals) ==>
        res == Err(RecordNotFound)
      ensures res.Err? ==> rentals == old(rentals)
      ensures res.Ok? <==> WriteError(reply, UpdateRentalFailed).None? && id in old(rentals)
      ensures res.Ok? ==>
        res.value == ApplyRentalPatch(old(rentals)[id], patch)
        && rentals == old(rentals)[id := res.value]
    {
      var e := WriteError(reply, UpdateRentalFailed);
      if e.Some? {
        return Err(e.value);
      }
      if id !in rentals {
        return Err(RecordNotFound);
      }
      var r := MergeRental(rentals[id], patch);
      rentals := rentals[id := r];
      return Ok(r);
    }

    /** `rentalService.processReturn`: reads the rental, charges 15 per started day
        past the due date, and marks it returned at `now`. The rental's current
        status is not consulted. */
    method ProcessReturn(id: int, notes: Option<string>, now: int, reply: Reply)
      returns (res: Result<Rental>)
      requires Valid()
      modifies this
      ensures Valid()
      ensures items == old(items) && customers == old(customers) && nextId == old(nextId)
      ensures id !in old(rentals) ==> res == Err(RecordNotFound)
      ensures id in old(rentals) && WriteError(reply, UpdateRentalFailed).Some? ==>
        res == Err(WriteError(reply, UpdateRentalFailed).value)
      ensures res.Err? ==> rentals == old(rentals)
      ensures res.Ok? <==> id in old(rentals) && WriteError(reply, UpdateRentalFailed).None?
      ensures res.Ok? ==>
        res.value == AfterReturn(old(rentals)[id], now, notes)
        && rentals == old(rentals)[id := res.value]
    {
      if id !in rentals {
        return Err(RecordNotFound);
      }
      var rental := rentals[id];
      var lateFee := 0;
      if now > rental.dueDate {
        var daysLate := CeilDays(now - rental.dueDate);
        lateFee := daysLate * LateFeePerDay;
      }
      var patch := NoRentalChanges.(status := Some(Returned), returnDate := Some(Some(now)),
                                    lateFee := Some(lateFee), notes := Some(TextOr(notes, rental.notes)));
      res := UpdateRental(id, patch, reply);
    }

    /** `rentalService.getAll`: every stored rental. */
    method AllRentals() returns (r: seq<Rental>)
      ensures |r| == |rentals.Keys|
      ensures forall i :: 0 <= i < |r| ==> Stored(rentals, r[i])
      ensures forall k :: k in rentals ==> rentals[k] in r
    {
      r := ValuesOf(rentals);
    }

    /** `rentalService.getActiveRentals`: exactly the stored rentals whose status is
        active. */
    method ActiveRentals() returns (r: seq<Rental>)
      ensures forall i :: 0 <= i < |r| ==> Stored(rentals, r[i]) && r[i].status == Active
      ensures forall k :: k in rentals && rentals[k].status == Active ==> rentals[k] in r
    {
      var all := ValuesOf(rentals);
      r := Filter(all, IsActive);
    }

    /** `rentalService.getOverdueRentals`: exactly the stored active rentals due
        strictly before `now`. */
    method OverdueRentals(now: int) returns (r: seq<Rental>)
      ensures forall i :: 0 <= i < |r| ==> Stored(rentals, r[i]) && OverdueAt(r[i], now)
      ensures forall k :: k in rentals && OverdueAt(rentals[k], now) ==> rentals[k] in r
    {
      var all := ValuesOf(rentals);
      r := Filter(all, (x: Rental) => OverdueAt(x, now));
    }

    // ------------------------------------------------------------------ items

    /** `inventoryService.create`: stores the item with its fallbacks under a fresh
        `Id`, or fails with the reply's error and stores nothing. */
    method CreateItem(draft: ItemDraft, now: int, reply: Reply) returns (res: Result<Item>)
      requires Valid()
      modifies this
      ensures Valid()
      ensures rentals == old(rentals) && customers == old(customers)
      ensures old(nextId) !in old(items)
      ensures WriteError(reply, CreateItemFailed).Some? ==>
        res == Err(WriteError(reply, CreateItemFailed).value)
        && items == old(items) && nextId == old(nextId)
      ensures WriteError(reply, CreateItemFailed).None? ==>
        res == Ok(NewItem(old(nextId), draft, now))
        && items == old(items)[old(nextId) := res.value] && nextId == old(nextId) + 1
    {
      var e := WriteError(reply, CreateItemFailed);
      if e.Some? {
        return Err(e.value);
      }
      var item := NewItem(nextId, draft, now);
      items := items[nextId := item];
      nextId := nextId + 1;
      return Ok(item);
    }

    /** `inventoryService.update`: the supplied fields are copied one by one onto
        the stored item; every other field and every other record stays. */
    method UpdateItem(id: int, patch: ItemPatch, reply: Reply) returns (res: Result<Item>)
      requires Valid()
      modifies this
      ensures Valid()
      ensures rentals == old(rentals) && customers == old(customers) && nextId == old(nextId)
      ensures WriteError(reply, UpdateItemFailed).Some? ==>
        res == Err(WriteError(reply, UpdateItemFailed).value)
      ensures WriteError(reply, UpdateItemFailed).None? && id !in old(items) ==>
        res == Err(RecordNotFound)
      ensures res.Err? ==> items == old(items)
      ensures res.Ok? <==> WriteError(reply, UpdateItemFailed).None? && id in old(items)
      ensures res.Ok? ==>
        res.value == ApplyItemPatch(old(items)[id], patch)
        && items == old(items)[id := res.value]
    {
      var e := WriteError(reply, UpdateItemFailed);
      if e.Some? {
        return Err(e.value);
      }
      if id !in items {
        return Err(RecordNotFound);
      }
      var i := MergeItem(items[id], patch);
      items := items[id := i];
      return Ok(i);
    }

    /** `inventoryService.getAll`: every stored item. */
    method AllItems() returns (r: seq<Item>)
      ensures |r| == |items.Keys|
      ensures forall i :: 0 <= i < |r| ==> Stored(items, r[i])
      ensures forall k :: k in items ==> items[k] in r
    {
      r := ValuesOf(items);
    }

    /** `inventoryService.getByStatus`: exactly the stored items with that status. */
    method ItemsWithStatus(status: ItemStatus) returns (r: seq<Item>)
      ensures forall i :: 0 <= i < |r| ==>
        Stored(items, r[i]) && StatusText(r[i].status) == StatusText(status)
      ensures forall k :: k in items && StatusText(items[k].status) == StatusText(status) ==>
        items[k] in r
    {
      var all := ValuesOf(items);
      r := Filter(all, (x: Item) => StatusText(x.status) == StatusText(status));
    }

    /** `inventoryService.getByCategory`: exactly the stored items in that category. */
    method ItemsInCategory(category: string) returns (r: seq<Item>)
      ensures forall i :: 0 <= i < |r| ==> Stored(items, r[i]) && r[i].category == category
      ensures forall k :: k in items && items[k].category == category ==> items[k] in r
    {
      var all := ValuesOf(items);
      r := Filter(all, (x: Item) => x.category == category);
    }

    /** `inventoryService.search`: exactly the stored items whose name, sku, brand or
        category contains the query. */
    method SearchItems(query: string) returns (r: seq<Item>)
      ensures forall i :: 0 <= i < |r| ==> Stored(items, r[i]) && InventoryService.MatchesQuery(r[i], query)
      ensures forall k :: k in items && InventoryService.MatchesQuery(items[k], query) ==> items[k] in r
    {
      var all := ValuesOf(items);
      r := Filter(all, (x: Item) => InventoryService.MatchesQuery(x, query));
    }

    // -------------------------------------------------------------- customers

    /** `customerService.create`: stores the customer with a zero count under a
        fresh `Id`, or fails with the reply's error and stores nothing. */
    method CreateCustomer(fields: CustomerFields, now: int, reply: Reply) returns (res: Result<Customer>)
      requires Valid()
      modifies this
      ensures Valid()
      ensures rentals == old(rentals) && items == old(items)
      ensures old(nextId) !in old(customers)
      ensures WriteError(reply, CreateCustomerFailed).Some? ==>
        res == Err(WriteError(reply, CreateCustomerFailed).value)
        && customers == old(customers) && nextId == old(nextId)
      ensures WriteError(reply, CreateCustomerFailed).None? ==>
        res == Ok(NewCustomer(old(nextId), fields, now))
        && customers == old(customers)[old(nextId) := res.value] && nextId == old(nextId) + 1
    {
      var e := WriteError(reply, CreateCustomerFailed);
      if e.Some? {
        return Err(e.value);
      }
      var customer := NewCustomer(nextId, fields, now);
      customers := customers[nextId := customer];
      nextId := nextId + 1;
      return Ok(customer);
    }

    /** `customerService.update`: writes all five fields, defined or not. */
    method UpdateCustomer(id: int, fields: CustomerFields, reply: Reply) returns (res: Result<Customer>)
      requires Valid()
      modifies this
      ensures Valid()
      ensures rentals == old(rentals) && items == old(items) && nextId == old(nextId)
      ensures WriteError(reply, UpdateCustomerFailed).Some? ==>
        res == Err(WriteError(reply, UpdateCustomerFailed).value)
      ensures WriteError(reply, UpdateCustomerFailed).None? && id !in old(customers) ==>
        res == Err(RecordNotFound)
      ensures res.Err? ==> customers == old(customers)
      ensures res.Ok? <==> WriteError(reply, UpdateCustomerFailed).None? && id in old(customers)
      ensures res.Ok? ==>
        res.value == Overwrite(old(customers)[id], fields)
        && customers == old(customers)[id := res.value]
    {
      var e := WriteError(reply, UpdateCustomerFailed);
      if e.Some? {
        return Err(e.value);
      }
      if id !in customers {
        return Err(RecordNotFound);
      }
      var c := customers[id].(name := fields.name, email := fields.email, phone := fields.phone,
                              address := fields.address, totalRentals := fields.totalRentals);
      customers := customers[id := c];
      return Ok(c);
    }

    /** `customerService.incrementRentalCount`: reads the customer and writes it
        back with its count one higher (a missing count counts as 0). */
    method IncrementRentalCount(id: int, reply: Reply) returns (res: Result<Customer>)
      requires Valid()
      modifies this
      ensures Valid()
      ensures rentals == old(rentals) && items == old(items) && nextId == old(nextId)
      ensures id !in old(customers) ==> res == Err(RecordNotFound)
      ensures id in old(customers) && WriteError(reply, UpdateCustomerFailed).Some? ==>
        res == Err(WriteError(reply, UpdateCustomerFailed).value)
      ensures res.Err? ==> customers == old(customers)
      ensures res.Ok? <==> id in old(customers) && WriteError(reply, UpdateCustomerFailed).None?
      ensures res.Ok? ==>
        var c := old(customers)[id];
        res.value == c.(totalRentals := Some(c.totalRentals.GetOr(0) + 1))
        && customers == old(customers)[id := res.value]
    {
      if id !in customers {
        return Err(RecordNotFound);
      }
      var customer := customers[id];
      var newCount := customer.totalRentals.GetOr(0) + 1;
      res := UpdateCustomer(id, CustomerFields(customer.name, customer.email, customer.phone,
                                               customer.address, Some(newCount)), reply);
    }

    /** `customerService.getAll`: every stored customer. */
    method AllCustomers() returns (r: seq<Customer>)
      ensures |r| == |customers.Keys|
      ensures forall i :: 0 <= i < |r| ==> Stored(customers, r[i])
      ensures forall k :: k in customers ==> customers[k] in r
    {
      r := ValuesOf(customers);
    }

    /** `customerService.search`: exactly the stored customers whose name, email or
        phone contains the query. */
    method SearchCustomers(query: string) returns (r: seq<Customer>)
      ensures forall i :: 0 <= i < |r| ==> Stored(customers, r[i]) && CustomerService.MatchesQuery(r[i], query)
      ensures forall k :: k in customers && CustomerService.MatchesQuery(customers[k], query) ==> customers[k] in r
    {
      var all := ValuesOf(customers);
      r := Filter(all, (x: Customer) => CustomerService.MatchesQuery(x, query));
    }
  }
}
