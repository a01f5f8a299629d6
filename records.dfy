/** The three record kinds of the shop's store (inventory items, customers,
    rentals), their status and condition values, and the clock arithmetic the
    screens use. Timestamps are integer milliseconds (UTC); money is an integer. */
module Records {
  import opened Wrappers

  /** One day in milliseconds: `1000 * 60 * 60 * 24`. */
  const DayMs: int := 86_400_000

  /** The late fee charged per started day past the due date. */
  const LateFeePerDay: int := 15

  /** An item's `status`. The store accepts any text; the shop uses three values. */
  datatype ItemStatus = Available | Rented | Maintenance | OtherStatus(text: string)

  /** The text the store keeps for a status. */
  function StatusText(s: ItemStatus): string {
    match s
    case Available => "available"
    case Rented => "rented"
    case Maintenance => "maintenance"
    case OtherStatus(text) => text
  }

  /** An item's physical `condition`. */
  datatype Condition = Excellent | Good | Fair | Poor

  /** A rental's `status`. */
  datatype RentalStatus = Active | Returned

  datatype Item = Item(
    id: int,
    name: string,
    sku: string,
    category: string,
    size: string,
    color: string,
    brand: string,
    purchasePrice: int,
    rentalPrice: int,
    status: ItemStatus,
    condition: Condition,
    photoUrl: string,
    dateAdded: int)

  /** A customer. The full-overwrite update can leave any of the contact fields
      and the rental count without a value, hence the options. */
  datatype Customer = Customer(
    id: int,
    name: Option<string>,
    email: Option<string>,
    phone: Option<string>,
    address: Option<string>,
    joinDate: int,
    totalRentals: Option<int>)

  datatype Rental = Rental(
    id: int,
    name: string,
    customerId: int,
    itemId: int,
    startDate: int,
    dueDate: int,
    returnDate: Option<int>,
    totalPrice: int,
    lateFee: int,
    status: RentalStatus,
    notes: string)

  /** What the screens display as a rental's total: `totalPrice + (lateFee || 0)`. */
  function AmountCharged(r: Rental): int {
    r.totalPrice + r.lateFee
  }

  /** date-fns `addDays` on a UTC clock. */
  function AddDays(t: int, days: int): int {
    t + days * DayMs
  }

  /** The UTC calendar day a timestamp falls on (days since the epoch, floored). */
  function DayIndex(t: int): int {
    t / DayMs
  }

  /** date-fns `isSameDay` on a UTC clock. */
  predicate SameDay(a: int, b: int) {
    DayIndex(a) == DayIndex(b)
  }

  datatype YearMonth = YearMonth(year: int, month: int)

  /** The UTC (year, month) of a timestamp: `getFullYear()` and `getMonth()` (months
      numbered from 1 here). The proleptic Gregorian conversion from a day count. */
  function MonthOf(t: int): YearMonth {
    var z := DayIndex(t) + 719468;
    var era := z / 146097;
    var doe := z - era * 146097;
    var yoe := (doe - doe / 1460 + doe / 36524 - doe / 146096) / 365;
    var doy := doe - (365 * yoe + yoe / 4 - yoe / 100);
    var mp := (5 * doy + 2) / 153;
    var m := if mp < 10 then mp + 3 else mp - 9;
    YearMonth(yoe + era * 400 + (if m <= 2 then 1 else 0), m)
  }
}
