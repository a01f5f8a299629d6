/** The customer records the customer service writes. */
module CustomerService {
  import opened Wrappers
  import opened Text
  import opened Records

  /** The five fields `create` and `update` read from their argument; a field
      the caller leaves undefined is `None`. */
  datatype CustomerFields = CustomerFields(
    name: Option<string>,
    email: Option<string>,
    phone: Option<string>,
    address: Option<string>,
    totalRentals: Option<int>)

  /** The record `create` stores under a fresh id at time `now`; the count a
      caller passes is ignored. */
  function NewCustomer(id: int, f: CustomerFields, now: int): (c: Customer)
    ensures c.id == id && c.joinDate == now && c.totalRentals == Some(0)
    ensures c.name == f.name && c.email == f.email && c.phone == f.phone && c.address == f.address
  {
    Customer(id, f.name, f.email, f.phone, f.address, now, Some(0))
  }

  /** The stored customer after `update`: all five fields are written, including
      the ones the caller left undefined; the join date stays. */
  function Overwrite(c: Customer, f: CustomerFields): (c': Customer)
    ensures c'.id == c.id && c'.joinDate == c.joinDate
    ensures c'.name == f.name && c'.email == f.email && c'.phone == f.phone && c'.address == f.address
    ensures c'.totalRentals == f.totalRentals
  {
    c.(name := f.name, email := f.email, phone := f.phone, address := f.address,
       totalRentals := f.totalRentals)
  }

  /** Unlike the item and rental updates, an update that leaves a field undefined
      clears it, whichever of the five fields that is: the result no longer
      depends on the stored value of any of them. */
  lemma OverwriteClearsOmitted(c: Customer, f: CustomerFields)
    ensures f.name.None? ==> Overwrite(c, f).name.None?
    ensures f.email.None? ==> Overwrite(c, f).email.None?
    ensures f.phone.None? ==> Overwrite(c, f).phone.None?
    ensures f.address.None? ==> Overwrite(c, f).address.None?
    ensures f.totalRentals.None? ==> Overwrite(c, f).totalRentals.None?
    ensures forall d: Customer :: d.id == c.id && d.joinDate == c.joinDate ==> Overwrite(d, f) == Overwrite(c, f)
  {
  }

  /** The fields `incrementRentalCount` sends: the stored ones, with the count one
      higher (a missing count counts as 0). */
  function IncrementedFields(c: Customer): CustomerFields {
    CustomerFields(c.name, c.email, c.phone, c.address, Some(c.totalRentals.GetOr(0) + 1))
  }

  /** `update` with those fields raises the count by exactly one and changes
      nothing else. */
  lemma IncrementChangesOnlyCount(c: Customer)
    ensures Overwrite(c, IncrementedFields(c)) == c.(totalRentals := Some(c.totalRentals.GetOr(0) + 1))
  {
  }

  /** `field` holds a value that contains `query`. */
  predicate FieldContains(field: Option<string>, query: string) {
    field.Some? && Contains(field.value, query)
  }

  /** The `search` condition: the query occurs in the name, email or phone. */
  predicate MatchesQuery(c: Customer, query: string) {
    FieldContains(c.name, query) || FieldContains(c.email, query) || FieldContains(c.phone, query)
  }
}
