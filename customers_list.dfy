/** The customers screen: rentals grouped by customer, per-customer statistics
    and badge, the search reset, and the add-customer form with its validation. */
module CustomersList {
  import opened Wrappers
  import opened Text
  import opened Seqs
  import opened Records
  import opened Remote
  import opened CustomerService
  import opened Lookup
  import opened Store

  /** Selects the rentals of one customer. */
  function OfCustomer(customerId: int): Rental -> bool {
    (r: Rental) => r.customerId == customerId
  }

  /** `rentalsMap`, filled by one pass over the loaded rentals: each rental is
      pushed onto its customer's list, so every customer with a rental gets the
      list of exactly its rentals, in loaded order. */
  method GroupByCustomer(rentals: seq<Rental>) returns (m: map<int, seq<Rental>>)
    ensures forall c :: c in m <==> Count(rentals, OfCustomer(c)) > 0
    ensures forall c :: c in m ==> m[c] == Filter(rentals, OfCustomer(c))
  {
    m := map[];
    var n := 0;
    while n < |rentals|
      invariant 0 <= n <= |rentals|
      invariant Grouped(rentals[..n], m)
    {
      var rental := rentals[n];
      assert rentals[..n + 1] == rentals[..n] + [rental];
      GroupStep(rentals[..n], rental, m);
      if rental.customerId !in m {
        m := m[rental.customerId := []];
      }
      m := m[rental.customerId := m[rental.customerId] + [rental]];
      n := n + 1;
    }
    assert rentals[..n] == rentals;
  }

  /** `m` holds a bucket for exactly the customers with rentals in `rs`, each
      bucket listing that customer's rentals in order. */
  ghost predicate Grouped(rs: seq<Rental>, m: map<int, seq<Rental>>) {
    (forall c :: c in m <==> Count(rs, OfCustomer(c)) > 0)
    && (forall c :: c in m ==> m[c] == Filter(rs, OfCustomer(c)))
  }

  /** Appending one rental to its customer's bucket (made empty first when
      missing) keeps the grouping exact. */
  lemma GroupStep(rs: seq<Rental>, r: Rental, m: map<int, seq<Rental>>)
    requires Grouped(rs, m)
    ensures Grouped(rs + [r], m[r.customerId := (if r.customerId in m then m[r.customerId] else []) + [r]])
  {
    forall c {
      FilterSnoc(rs, r, OfCustomer(c));
    }
  }

  /** Distinct entries. */
  predicate Distinct(ids: seq<int>) {
    forall i, j :: 0 <= i < j < |ids| ==> ids[i] != ids[j]
  }

  function BucketSize(rentals: seq<Rental>): int -> int {
    (c: int) => Count(rentals, OfCustomer(c))
  }

  /** Summed over any list of distinct customers that covers every rental's
      customer, the bucket sizes add up to the number of rentals: every rental
      is in exactly one bucket. */
  lemma {:induction false} BucketSizesSum(rentals: seq<Rental>, ids: seq<int>)
    requires Distinct(ids)
    requires forall i :: 0 <= i < |rentals| ==> rentals[i].customerId in ids
    ensures SumBy(ids, BucketSize(rentals)) == |rentals|
  {
    if rentals == [] {
      SumZero(ids, BucketSize(rentals));
    } else {
      var rs', r := rentals[..|rentals| - 1], rentals[|rentals| - 1];
      assert rentals == rs' + [r];
      var hit: int -> int := c => if c == r.customerId then 1 else 0;
      forall i | 0 <= i < |ids|
        ensures BucketSize(rentals)(ids[i]) == BucketSize(rs')(ids[i]) + hit(ids[i])
      {
        FilterSnoc(rs', r, OfCustomer(ids[i]));
      }
      SumByAdd(ids, BucketSize(rentals), BucketSize(rs'), hit);
      BucketSizesSum(rs', ids);
      SumHitOnce(ids, r.customerId, 1);
    }
  }

  lemma {:induction false} SumZero(ids: seq<int>, f: int -> int)
    requires forall i :: 0 <= i < |ids| ==> f(ids[i]) == 0
    ensures SumBy(ids, f) == 0
  {
    if ids != [] {
      SumZero(ids[..|ids| - 1], f);
    }
  }

  /** A distinct list holding `x` counts it once. */
  lemma {:induction false} SumHitOnce(ids: seq<int>, x: int, v: int)
    requires Distinct(ids)
    ensures SumBy(ids, c => if c == x then v else 0) == if x in ids then v else 0
  {
    if ids != [] {
      var ids', y := ids[..|ids| - 1], ids[|ids| - 1];
      assert ids == ids' + [y];
      SumHitOnce(ids', x, v);
      forall k | 0 <= k < |ids'| ensures ids'[k] != y {
        assert ids'[k] == ids[k];
      }
    }
  }

  datatype CustomerStats = CustomerStats(activeRentals: int, totalSpent: int, totalRentals: int)

  /** `getCustomerStats` over one customer's bucket (the empty list when the
      customer has none). */
  function StatsOf(bucket: seq<Rental>): (s: CustomerStats)
    ensures 0 <= s.activeRentals <= s.totalRentals == |bucket|
    ensures s.activeRentals == Count(bucket, IsActive)
    ensures s.totalSpent == SumBy(bucket, AmountCharged)
    ensures bucket == [] ==> s.totalSpent == 0
  {
    CustomerStats(Count(bucket, IsActive), SumBy(bucket, AmountCharged), |bucket|)
  }

  function BucketSpend(rentals: seq<Rental>): int -> int {
    (c: int) => StatsOf(Filter(rentals, OfCustomer(c))).totalSpent
  }

  /** Summed over any list of distinct customers that covers every rental's
      customer, the amounts spent add up to what was charged over all rentals:
      every charge is counted for exactly one customer. */
  lemma {:induction false} SpendingSumsToCharged(rentals: seq<Rental>, ids: seq<int>)
    requires Distinct(ids)
    requires forall i :: 0 <= i < |rentals| ==> rentals[i].customerId in ids
    ensures SumBy(ids, BucketSpend(rentals)) == SumBy(rentals, AmountCharged)
  {
    if rentals == [] {
      SumZero(ids, BucketSpend(rentals));
    } else {
      var rs', r := rentals[..|rentals| - 1], rentals[|rentals| - 1];
      assert rentals == rs' + [r];
      var v := AmountCharged(r);
      var hit: int -> int := c => if c == r.customerId then v else 0;
      assert SumBy(ids, BucketSpend(rentals)) == SumBy(ids, BucketSpend(rs')) + SumBy(ids, hit) by {
        forall i | 0 <= i < |ids|
          ensures BucketSpend(rentals)(ids[i]) == BucketSpend(rs')(ids[i]) + hit(ids[i])
        {
          BucketSpendSnoc(rs', r, ids[i]);
        }
        SumByAdd(ids, BucketSpend(rentals), BucketSpend(rs'), hit);
      }
      assert SumBy(ids, BucketSpend(rs')) == SumBy(rs', AmountCharged) by {
        assert forall i :: 0 <= i < |rs'| ==> rs'[i] == rentals[i];
        SpendingSumsToCharged(rs', ids);
      }
      assert SumBy(ids, hit) == v by {
        assert r.customerId in ids by { assert r == rentals[|rentals| - 1]; }
        SumHitOnce(ids, r.customerId, v);
      }
      assert SumBy(rentals, AmountCharged) == SumBy(rs', AmountCharged) + v by {
        SumSnoc(rs', r, AmountCharged);
      }
    }
  }

  /** One more rental adds its charge to its own customer's spending only. */
  lemma BucketSpendSnoc(rs: seq<Rental>, r: Rental, c: int)
    ensures BucketSpend(rs + [r])(c) == BucketSpend(rs)(c) + (if c == r.customerId then AmountCharged(r) else 0)
  {
    var before := Filter(rs, OfCustomer(c));
    FilterSnoc(rs, r, OfCustomer(c));
    assert BucketSpend(rs)(c) == SumBy(before, AmountCharged);
    assert BucketSpend(rs + [r])(c) == SumBy(Filter(rs + [r], OfCustomer(c)), AmountCharged);
    if r.customerId == c {
      assert Filter(rs + [r], OfCustomer(c)) == before + [r];
      SumSnoc(before, r, AmountCharged);
    } else {
      assert Filter(rs + [r], OfCustomer(c)) == before;
    }
  }

  /** The statistics shown for a customer, from the grouped rentals. */
  function StatsFor(grouped: map<int, seq<Rental>>, customerId: int): CustomerStats {
    StatsOf(if customerId in grouped then grouped[customerId] else [])
  }

  /** Over the grouping of the loaded rentals, a customer's active count is the
      number of loaded rentals that are both the customer's and active. */
  lemma ActiveCountIsJoint(rentals: seq<Rental>, customerId: int)
    ensures StatsOf(Filter(rentals, OfCustomer(customerId))).activeRentals
            == Count(rentals, Both(OfCustomer(customerId), IsActive))
  {
    FilterFilter(rentals, OfCustomer(customerId), IsActive);
  }

  /** The badge: "Active Rental" when the customer has an active rental. */
  function BadgeText(s: CustomerStats): string {
    if s.activeRentals > 0 then "Active Rental" else "Available"
  }

  /** The badge reads "Active Rental" exactly when some loaded rental of the
      customer is active. */
  lemma BadgeShowsActiveRental(rentals: seq<Rental>, customerId: int)
    ensures BadgeText(StatsOf(Filter(rentals, OfCustomer(customerId)))) == "Active Rental"
            <==> exists i :: 0 <= i < |rentals| && rentals[i].customerId == customerId
                             && rentals[i].status == Active
  {
    var p := Both(OfCustomer(customerId), IsActive);
    ActiveCountIsJoint(rentals, customerId);
    CountPositiveIff(rentals, p);
    assert forall i :: 0 <= i < |rentals| ==>
      (p(rentals[i]) <==> rentals[i].customerId == customerId && rentals[i].status == Active);
  }

  // ------------------------------------------------------------ add customer

  datatype CustomerFormData = CustomerFormData(name: string, email: string, phone: string, address: string)

  datatype FormField = NameField | EmailField | PhoneField | AddressField

  /** Neither white space nor `@`: the class `[^\s@]`. */
  predicate Plain(c: char) {
    c != '@' && !IsSpace(c)
  }

  predicate AllPlain(s: string) {
    forall k :: 0 <= k < |s| ==> Plain(s[k])
  }

  /** The pattern `^[^\s@]+@[^\s@]+\.[^\s@]+$` read literally: three non-empty
      runs of plain characters joined by `@` and `.`. */
  ghost predicate MatchesEmailPattern(s: string) {
    exists a, b, c :: a != [] && b != [] && c != [] && AllPlain(a) && AllPlain(b) && AllPlain(c)
                      && s == a + "@" + b + "." + c
  }

  /** The check the form runs: one `@`, not first, and a `.` at least two places
      after it and before the last character; no white space and no other `@`. */
  predicate EmailShaped(s: string) {
    exists i, j :: 0 < i < |s| && i + 1 < j < |s| - 1 && s[i] == '@' && s[j] == '.' && PlainBesides(s, i)
  }

  predicate PlainBesides(s: string, i: int) {
    forall k :: 0 <= k < |s| && k != i ==> Plain(s[k])
  }

  /** The index check accepts exactly the strings the pattern matches. */
  lemma EmailShapedIff(s: string)
    ensures EmailShaped(s) <==> MatchesEmailPattern(s)
  {
    if EmailShaped(s) {
      var i, j :| 0 < i < |s| && i + 1 < j < |s| - 1 && s[i] == '@' && s[j] == '.' && PlainBesides(s, i);
      var a, b, c := s[..i], s[i + 1..j], s[j + 1..];
      assert s == a + "@" + b + "." + c;
      assert AllPlain(a) by {
        forall k | 0 <= k < |a| ensures Plain(a[k]) { assert a[k] == s[k]; }
      }
      assert AllPlain(b) by {
        forall k | 0 <= k < |b| ensures Plain(b[k]) { assert b[k] == s[i + 1 + k]; }
      }
      assert AllPlain(c) by {
        forall k | 0 <= k < |c| ensures Plain(c[k]) { assert c[k] == s[j + 1 + k]; }
      }
    }
    if MatchesEmailPattern(s) {
      var a, b, c :| a != [] && b != [] && c != [] && AllPlain(a) && AllPlain(b) && AllPlain(c)
                     && s == a + "@" + b + "." + c;
      var i, j := |a|, |a| + 1 + |b|;
      assert s[i] == '@' && s[j] == '.';
      forall k | 0 <= k < |s| && k != i ensures Plain(s[k]) {
        if k < i {
          assert s[k] == a[k];
        } else if k < j {
          assert s[k] == b[k - i - 1];
        } else if k > j {
          assert s[k] == c[k - j - 1];
        }
      }
      assert PlainBesides(s, i);
    }
  }

  const NameRequired := "Name is required"
  const EmailRequired := "Email is required"
  const EmailInvalid := "Invalid email format"
  const PhoneRequired := "Phone number is required"
  const AddressRequired := "Address is required"

  /** `errors` holds one message for each field of `form` that fails its check,
      and nothing else. */
  ghost predicate ReportsFailures(form: CustomerFormData, errors: map<FormField, string>) {
    (NameField in errors <==> IsBlank(form.name))
    && (EmailField in errors <==> IsBlank(form.email) || !MatchesEmailPattern(form.email))
    && (PhoneField in errors <==> IsBlank(form.phone))
    && (AddressField in errors <==> IsBlank(form.address))
    && (NameField in errors ==> errors[NameField] == NameRequired)
    && (EmailField in errors ==> errors[EmailField] == if IsBlank(form.email) then EmailRequired else EmailInvalid)
    && (PhoneField in errors ==> errors[PhoneField] == PhoneRequired)
    && (AddressField in errors ==> errors[AddressField] == AddressRequired)
  }

  /** `validateForm`: collects one message per failing field; the form is valid
      when there is none. Name, phone and address must not be blank; the email
      must not be blank and must match the pattern. */
  method ValidateCustomerForm(form: CustomerFormData) returns (valid: bool, errors: map<FormField, string>)
    ensures NameField in errors <==> IsBlank(form.name)
    ensures EmailField in errors <==> IsBlank(form.email) || !MatchesEmailPattern(form.email)
    ensures PhoneField in errors <==> IsBlank(form.phone)
    ensures AddressField in errors <==> IsBlank(form.address)
    ensures NameField in errors ==> errors[NameField] == NameRequired
    ensures EmailField in errors ==>
      errors[EmailField] == if IsBlank(form.email) then EmailRequired else EmailInvalid
    ensures PhoneField in errors ==> errors[PhoneField] == PhoneRequired
    ensures AddressField in errors ==> errors[AddressField] == AddressRequired
    ensures valid <==> errors == map[]
    ensures valid <==> !IsBlank(form.name) && MatchesEmailPattern(form.email)
                       && !IsBlank(form.phone) && !IsBlank(form.address)
  {
    TrimEmptyIffBlank(form.name);
    TrimEmptyIffBlank(form.email);
    TrimEmptyIffBlank(form.phone);
    TrimEmptyIffBlank(form.address);
    EmailShapedIff(form.email);
    errors := map[];
    if Trim(form.name) == "" {
      errors := errors[NameField := NameRequired];
    }
    if Trim(form.email) == "" {
      errors := errors[EmailField := EmailRequired];
    } else if !EmailShaped(form.email) {
      errors := errors[EmailField := EmailInvalid];
    }
    if Trim(form.phone) == "" {
      errors := errors[PhoneField := PhoneRequired];
    }
    if Trim(form.address) == "" {
      errors := errors[AddressField := AddressRequired];
    }
    valid := |errors.Keys| == 0;
    assert valid <==> errors == map[] by {
      if errors != map[] {
        var f :| f in errors;
        assert f in errors.Keys;
      }
    }
    if EmailShaped(form.email) {
      var i, j :| 0 < i < |form.email| && i + 1 < j < |form.email| - 1 && form.email[i] == '@'
                  && form.email[j] == '.' && PlainBesides(form.email, i);
      assert !IsSpace(form.email[i]);
    }
  }

  function WithField(d: CustomerFormData, field: FormField, value: string): CustomerFormData {
    match field
    case NameField => d.(name := value)
    case EmailField => d.(email := value)
    case PhoneField => d.(phone := value)
    case AddressField => d.(address := value)
  }

  /** The add-customer dialog's state. */
  class AddCustomerForm {
    var formData: CustomerFormData
    var errors: map<FormField, string>

    constructor ()
      ensures formData == CustomerFormData("", "", "", "") && errors == map[]
    {
      formData := CustomerFormData("", "", "", "");
      errors := map[];
    }

    /** `handleInputChange`: stores the value and blanks that field's message if
        it had one; every other field and message stays. */
    method HandleInputChange(field: FormField, value: string)
      modifies this
      ensures formData == WithField(old(formData), field, value)
      ensures errors == if field in old(errors) && old(errors)[field] != ""
                        then old(errors)[field := ""] else old(errors)
      ensures forall f :: f != field && f in old(errors) ==> f in errors && errors[f] == old(errors)[f]
    {
      formData := WithField(formData, field, value);
      if field in errors && errors[field] != "" {
        errors := errors[field := ""];
      }
    }

    /** `handleSubmit`: validates, and when valid creates the customer from the
        four fields. Returns the created customer, if any. */
    method HandleSubmit(store: RecordStore, now: int, reply: Reply) returns (created: Option<Customer>)
      requires store.Valid()
      modifies this, store
      ensures store.Valid()
      ensures formData == old(formData)
      ensures store.items == old(store.items) && store.rentals == old(store.rentals)
      ensures ReportsFailures(formData, errors)
      ensures errors == map[] <==>
        (!IsBlank(formData.name) && MatchesEmailPattern(formData.email)
         && !IsBlank(formData.phone) && !IsBlank(formData.address))
      ensures created.Some? <==> errors == map[] && WriteError(reply, CreateCustomerFailed).None?
      ensures created.None? ==> store.customers == old(store.customers)
      ensures created.Some? ==>
        errors == map[] && WriteError(reply, CreateCustomerFailed).None?
        && created.value == NewCustomer(old(store.nextId),
             CustomerFields(Some(formData.name), Some(formData.email), Some(formData.phone),
                            Some(formData.address), None), now)
        && store.customers == old(store.customers)[created.value.id := created.value]
    {
      var valid, newErrors := ValidateCustomerForm(formData);
      errors := newErrors;
      if !valid {
        return None;
      }
      var fields := CustomerFields(Some(formData.name), Some(formData.email), Some(formData.phone),
                                   Some(formData.address), None);
      var res := store.CreateCustomer(fields, now, reply);
      if res.Err? {
        return None;
      }
      return Some(res.value);
    }
  }

  // ------------------------------------------------------------ the list

  /** The screen's state: the loaded customers, the shown subset, and the
      loaded rentals grouped by customer. */
  class CustomersListView {
    var customers: seq<Customer>
    var filteredCustomers: seq<Customer>
    var customerRentals: map<int, seq<Rental>>

    constructor ()
      ensures customers == [] && filteredCustomers == [] && customerRentals == map[]
    {
      customers, filteredCustomers, customerRentals := [], [], map[];
    }

    /** `loadCustomers`, given what the two `getAll` calls returned. */
    method Load(allCustomers: seq<Customer>, allRentals: seq<Rental>)
      modifies this
      ensures customers == allCustomers && filteredCustomers == allCustomers
      ensures forall c :: c in customerRentals <==> Count(allRentals, OfCustomer(c)) > 0
      ensures forall c :: c in customerRentals ==> customerRentals[c] == Filter(allRentals, OfCustomer(c))
    {
      var rentalsMap := GroupByCustomer(allRentals);
      customers := allCustomers;
      filteredCustomers := allCustomers;
      customerRentals := rentalsMap;
    }

    /** The statistics row for a customer. */
    function Stats(customerId: int): CustomerStats
      reads this
    {
      StatsFor(customerRentals, customerId)
    }

    /** `handleCustomerCreated`: the new customer goes to the end of both lists. */
    method HandleCustomerCreated(c: Customer)
      modifies this
      ensures customers == old(customers) + [c]
      ensures filteredCustomers == old(filteredCustomers) + [c]
      ensures customerRentals == old(customerRentals)
    {
      customers := customers + [c];
      filteredCustomers := filteredCustomers + [c];
    }

    /** `handleSearch`: an empty term shows the full list again; any other term
        shows what the store's search returns. */
    method HandleSearch(store: RecordStore, term: string)
      modifies this
      ensures customers == old(customers) && customerRentals == old(customerRentals)
      ensures term == "" ==> filteredCustomers == customers
      ensures term != "" ==>
        (forall i :: 0 <= i < |filteredCustomers| ==>
           Stored(store.customers, filteredCustomers[i])
           && CustomerService.MatchesQuery(filteredCustomers[i], term))
        && (forall k :: k in store.customers && CustomerService.MatchesQuery(store.customers[k], term)
                        ==> store.customers[k] in filteredCustomers)
    {
      if term == "" {
        filteredCustomers := customers;
        return;
      }
      var results := store.SearchCustomers(term);
      filteredCustomers := results;
    }
  }
}
