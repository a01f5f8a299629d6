/** The dashboard's six figures, computed from the three loaded lists. */
module DashboardStats {
  import opened Wrappers
  import opened Seqs
  import opened Records
  import opened Billing
  import opened RentalService
  import opened Store

  datatype Stats = Stats(
    totalItems: int,
    availableItems: int,
    activeRentals: int,
    totalCustomers: int,
    monthlyRevenue: int,
    overdueRentals: int)

  function IsAvailable(i: Item): bool {
    StatusText(i.status) == "available"
  }

  function IsOverdue(now: int): Rental -> bool {
    (r: Rental) => OverdueAt(r, now)
  }

  /** The rental started in the given (year, month). */
  function StartedIn(ym: YearMonth): Rental -> bool {
    (r: Rental) => MonthOf(r.startDate) == ym
  }

  /** What was charged for the rentals started in the month of `now`, returned
      or not. */
  function MonthlyRevenue(rentals: seq<Rental>, now: int): int {
    SumBy(Filter(rentals, StartedIn(MonthOf(now))), AmountCharged)
  }

  /** `loadStats`: the two totals are the list lengths; the available items, the
      active rentals and the overdue rentals are counted from the lists, and no
      more rentals are overdue than active; the revenue is the month's. */
  function LoadStats(items: seq<Item>, rentals: seq<Rental>, customers: seq<Customer>, now: int): (s: Stats)
    ensures s.totalItems == |items| && s.totalCustomers == |customers|
    ensures 0 <= s.availableItems <= s.totalItems
    ensures 0 <= s.overdueRentals <= s.activeRentals <= |rentals|
    ensures s.overdueRentals == |Filter(Filter(rentals, IsActive), (r: Rental) => r.dueDate < now)|
    ensures s.availableItems == Count(items, IsAvailable) && s.activeRentals == Count(rentals, IsActive)
    ensures s.monthlyRevenue == MonthlyRevenue(rentals, now)
  {
    CountMonotone(rentals, IsOverdue(now), IsActive);
    FilterFilter(rentals, IsActive, (r: Rental) => r.dueDate < now);
    FilterCongruent(rentals, Both(IsActive, (r: Rental) => r.dueDate < now), IsOverdue(now));
    Stats(
      |items|,
      Count(items, IsAvailable),
      Count(rentals, IsActive),
      |customers|,
      MonthlyRevenue(rentals, now),
      Count(rentals, IsOverdue(now)))
  }

  /** The month's revenue and the revenue of every other month add up to the
      amount charged over all rentals. */
  lemma RevenueSplitsByMonth(rentals: seq<Rental>, now: int)
    ensures MonthlyRevenue(rentals, now)
      + SumBy(Filter(rentals, Neg(StartedIn(MonthOf(now)))), AmountCharged)
      == SumBy(rentals, AmountCharged)
  {
    PartitionSum(rentals, StartedIn(MonthOf(now)), AmountCharged);
  }

  /** Processing the return of a rental started this month adds exactly the
      change in its late fee to the month's revenue; other returns leave it. */
  lemma ReturnMovesRevenueByFee(rentals: seq<Rental>, i: nat, now: int, t: int, notes: Option<string>)
    requires i < |rentals|
    ensures MonthlyRevenue(rentals[i := AfterReturn(rentals[i], t, notes)], now)
      == MonthlyRevenue(rentals, now)
         + (if MonthOf(rentals[i].startDate) == MonthOf(now)
            then LateFee(rentals[i].dueDate, t) - rentals[i].lateFee else 0)
  {
    FilterSumUpdate(rentals, i, AfterReturn(rentals[i], t, notes), StartedIn(MonthOf(now)), AmountCharged);
  }

  /** The overdue card's colour. */
  function OverdueColor(s: Stats): string {
    if s.overdueRentals > 0 then "danger" else "success"
  }

  /** The card turns red exactly when some loaded rental is active and past due. */
  lemma DangerIffSomeOverdue(items: seq<Item>, rentals: seq<Rental>, customers: seq<Customer>, now: int)
    ensures OverdueColor(LoadStats(items, rentals, customers, now)) == "danger"
      <==> exists i :: 0 <= i < |rentals| && rentals[i].status == Active && rentals[i].dueDate < now
  {
    CountPositiveIff(rentals, IsOverdue(now));
  }
}
