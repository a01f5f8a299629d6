/** The rental calendar: which rentals a day cell lists, which returns fall due
    on it, how many entries it hides, the month navigation and the summary
    figures. A day cell stands for the timestamp of the start of its UTC day. */
module CalendarView {
  import opened Wrappers
  import opened Seqs
  import opened Records
  import opened Lookup
  import opened Store
  import opened DashboardStats

  /** The timestamp is the first moment of a UTC day, as a cell's date is. */
  predicate IsDayStart(day: int) {
    day % DayMs == 0
  }

  /** `getRentalsForDay` as written: the cell's moment lies between the rental's
      start and due moments, both included, whatever the rental's status. */
  function CoversMoment(day: int): Rental -> bool {
    (r: Rental) => r.startDate <= day && day <= r.dueDate
  }

  function RentalsForDay(rentals: seq<Rental>, day: int): (s: seq<Rental>)
    ensures forall i :: 0 <= i < |s| ==> s[i].startDate <= day <= s[i].dueDate
    ensures forall i :: 0 <= i < |rentals| && rentals[i].startDate <= day <= rentals[i].dueDate ==>
      rentals[i] in s
  {
    Filter(rentals, CoversMoment(day))
  }

  /** A rental that starts after midnight is missing from the cell of the day it
      starts on: one starting at 10:00 on day 20000 and due three days later. */
  lemma StartDayMissing()
    ensures var day := 20000 * DayMs;
      var r := Rental(1, "Rental for 1", 1, 1, day + 36_000_000, day + 36_000_000 + 3 * DayMs,
                      None, 30, 0, Active, "");
      IsDayStart(day) && SameDay(r.startDate, day) && RentalsForDay([r], day) == []
  {
    var day := 20000 * DayMs;
    var r := Rental(1, "Rental for 1", 1, 1, day + 36_000_000, day + 36_000_000 + 3 * DayMs,
                    None, 30, 0, Active, "");
    assert !CoversMoment(day)(r);
    assert [r][..0] == [];
  }

  /** The calendar day of `day` is one of the days the rental spans, from the
      day it starts to the day it is due. */
  function SpansDay(day: int): Rental -> bool {
    (r: Rental) => DayIndex(r.startDate) <= DayIndex(day) <= DayIndex(r.dueDate)
  }

  /** The rentals a cell lists, counted by calendar day. */
  function RentalsSpanningDay(rentals: seq<Rental>, day: int): (s: seq<Rental>)
    ensures forall i :: 0 <= i < |s| ==> DayIndex(s[i].startDate) <= DayIndex(day) <= DayIndex(s[i].dueDate)
    ensures forall i :: 0 <= i < |rentals| && DayIndex(rentals[i].startDate) <= DayIndex(day) <= DayIndex(rentals[i].dueDate) ==>
      rentals[i] in s
  {
    Filter(rentals, SpansDay(day))
  }

  /** Counted by day, a rental is listed on the day it starts and on the day it
      is due, and on every day the moment test lists it. */
  lemma SpanningDayCoversMoments(rentals: seq<Rental>, day: int)
    ensures forall i ::
      (0 <= i < |rentals| && rentals[i].startDate <= rentals[i].dueDate
       && (SameDay(rentals[i].startDate, day) || SameDay(rentals[i].dueDate, day))) ==>
      rentals[i] in RentalsSpanningDay(rentals, day)
    ensures IsSubseq(RentalsForDay(rentals, day), RentalsSpanningDay(rentals, day))
  {
    forall i | 0 <= i < |rentals| && rentals[i].startDate <= rentals[i].dueDate
      ensures DayIndex(rentals[i].startDate) <= DayIndex(rentals[i].dueDate)
    {
      DayIndexMonotone(rentals[i].startDate, rentals[i].dueDate);
    }
    forall i | 0 <= i < |rentals| && CoversMoment(day)(rentals[i])
      ensures SpansDay(day)(rentals[i])
    {
      DayIndexMonotone(rentals[i].startDate, day);
      DayIndexMonotone(day, rentals[i].dueDate);
    }
    FilterWeakerSubseq(rentals, CoversMoment(day), SpansDay(day));
  }

  lemma DayIndexMonotone(a: int, b: int)
    requires a <= b
    ensures DayIndex(a) <= DayIndex(b)
  {
    assert a == DayIndex(a) * DayMs + a % DayMs;
    assert b == DayIndex(b) * DayMs + b % DayMs;
  }

  function DueOn(day: int): Rental -> bool {
    (r: Rental) => SameDay(r.dueDate, day) && r.status == Active
  }

  /** `getReturnsDueOnDay`: the active rentals due on the cell's calendar day. */
  function ReturnsDueOnDay(rentals: seq<Rental>, day: int): (s: seq<Rental>)
    ensures forall i :: 0 <= i < |s| ==> s[i].status == Active && SameDay(s[i].dueDate, day)
    ensures forall i :: 0 <= i < |rentals| && rentals[i].status == Active && SameDay(rentals[i].dueDate, day) ==>
      rentals[i] in s
  {
    Filter(rentals, DueOn(day))
  }

  /** A return falls due on exactly one day: no rental is due on two days. */
  lemma DueOnOneDay(rentals: seq<Rental>, d1: int, d2: int)
    requires !SameDay(d1, d2)
    ensures forall i :: 0 <= i < |rentals| ==>
      !(rentals[i] in ReturnsDueOnDay(rentals, d1) && rentals[i] in ReturnsDueOnDay(rentals, d2))
  {
  }

  /** The "+N more" line as written: N is the total minus two, shown when the
      total exceeds two, although up to two rentals and two returns are listed. */
  function MoreAsWritten(dayRentals: seq<Rental>, returnsDue: seq<Rental>): Option<int> {
    var total := |dayRentals| + |returnsDue|;
    if total > 2 then Some(total - 2) else None
  }

  /** Two rentals and two returns are all listed, yet the cell adds "+2 more". */
  lemma MoreOvercounts(r: Rental)
    ensures MoreAsWritten([r, r], [r, r]) == Some(2)
    ensures |[r, r][..2]| + |[r, r][..2]| == 4
  {
  }

  function Min(a: int, b: int): int { if a <= b then a else b }

  /** A day cell: the first two of each list and the count of entries left out. */
  datatype Cell = Cell(rentals: seq<Rental>, dueBack: seq<Rental>, more: Option<int>)

  function CellFor(dayRentals: seq<Rental>, returnsDue: seq<Rental>): (c: Cell)
    ensures |c.rentals| == (if |dayRentals| < 2 then |dayRentals| else 2)
    ensures |c.dueBack| == (if |returnsDue| < 2 then |returnsDue| else 2)
    ensures c.rentals == dayRentals[..|c.rentals|] && c.dueBack == returnsDue[..|c.dueBack|]
    ensures c.more.Some? <==> |c.rentals| + |c.dueBack| < |dayRentals| + |returnsDue|
    ensures c.more.Some? ==>
      c.more.value > 0 && |c.rentals| + |c.dueBack| + c.more.value == |dayRentals| + |returnsDue|
  {
    var shown := dayRentals[..Min(2, |dayRentals|)];
    var dueBack := returnsDue[..Min(2, |returnsDue|)];
    var hidden := |dayRentals| + |returnsDue| - |shown| - |dueBack|;
    Cell(shown, dueBack, if hidden > 0 then Some(hidden) else None)
  }

  /** The "+N more" line as written and as intended agree exactly when one of
      the two lists is empty or there are at most two entries in all. */
  lemma MoreAgreesWhenFew(dayRentals: seq<Rental>, returnsDue: seq<Rental>)
    ensures MoreAsWritten(dayRentals, returnsDue) == CellFor(dayRentals, returnsDue).more <==>
      |dayRentals| == 0 || |returnsDue| == 0 || |dayRentals| + |returnsDue| <= 2
  {
    var c := CellFor(dayRentals, returnsDue);
    var total := |dayRentals| + |returnsDue|;
    if |dayRentals| > 0 && |returnsDue| > 0 && total > 2 {
      assert |c.rentals| + |c.dueBack| > 2;
      assert c.more != Some(total - 2);
    }
  }

  /** A day cell as the screen draws it: the first two rentals and the first
      two returns, with the "+N more" line as written. */
  function CellAsWritten(dayRentals: seq<Rental>, returnsDue: seq<Rental>): (c: Cell)
    ensures c.rentals == CellFor(dayRentals, returnsDue).rentals
    ensures c.dueBack == CellFor(dayRentals, returnsDue).dueBack
    ensures c.more.Some? <==> |dayRentals| + |returnsDue| > 2
    ensures c.more.Some? ==> c.more.value == |dayRentals| + |returnsDue| - 2
  {
    CellFor(dayRentals, returnsDue).(more := MoreAsWritten(dayRentals, returnsDue))
  }

  /** Months are counted as `year * 12 + month`, months numbered 1 to 12. */
  function AddMonths(ym: YearMonth, k: int): (r: YearMonth)
    requires 1 <= ym.month <= 12
    ensures 1 <= r.month <= 12
    ensures r.year * 12 + r.month == ym.year * 12 + ym.month + k
  {
    var total := ym.year * 12 + (ym.month - 1) + k;
    YearMonth(total / 12, total % 12 + 1)
  }

  /** `navigateMonth`: `prev` goes back a month, any other direction forward. */
  function NavigateMonth(ym: YearMonth, direction: string): (r: YearMonth)
    requires 1 <= ym.month <= 12
    ensures 1 <= r.month <= 12
    ensures direction == "prev" ==> r.year * 12 + r.month == ym.year * 12 + ym.month - 1
    ensures direction != "prev" ==> r.year * 12 + r.month == ym.year * 12 + ym.month + 1
  {
    if direction == "prev" then AddMonths(ym, -1) else AddMonths(ym, 1)
  }

  lemma SameMonthCount(a: YearMonth, b: YearMonth)
    requires 1 <= a.month <= 12 && 1 <= b.month <= 12
    requires a.year * 12 + a.month == b.year * 12 + b.month
    ensures a == b
  {
  }

  /** Going back a month and then forward (or the reverse) shows the same month. */
  lemma NavigateRoundTrip(ym: YearMonth, direction: string)
    requires 1 <= ym.month <= 12 && direction != "prev"
    ensures NavigateMonth(NavigateMonth(ym, "prev"), direction) == ym
    ensures NavigateMonth(NavigateMonth(ym, direction), "prev") == ym
  {
    SameMonthCount(NavigateMonth(NavigateMonth(ym, "prev"), direction), ym);
    SameMonthCount(NavigateMonth(NavigateMonth(ym, direction), "prev"), ym);
  }

  /** The three summary figures under the calendar. */
  datatype Summary = Summary(active: int, overdue: int, available: int)

  function SummaryOf(rentals: seq<Rental>, items: map<int, Item>, now: int): (s: Summary)
    ensures 0 <= s.overdue <= s.active <= |rentals|
    ensures 0 <= s.available <= |items|
    ensures s.active == Count(rentals, IsActive) && s.overdue == Count(rentals, IsOverdue(now))
    ensures s.available == |set k | k in items && IsAvailable(items[k])|
  {
    CountMonotone(rentals, IsOverdue(now), IsActive);
    var avail := set k | k in items && IsAvailable(items[k]);
    SubsetCardinality(avail, items.Keys);
    Summary(Count(rentals, IsActive), Count(rentals, IsOverdue(now)), |avail|)
  }

  /** Given the same rentals, the calendar's active and overdue figures are the
      dashboard's. */
  lemma SummaryMatchesDashboard(items: seq<Item>, rentals: seq<Rental>, customers: seq<Customer>,
                                lookup: map<int, Item>, now: int)
    ensures SummaryOf(rentals, lookup, now).active == LoadStats(items, rentals, customers, now).activeRentals
    ensures SummaryOf(rentals, lookup, now).overdue == LoadStats(items, rentals, customers, now).overdueRentals
  {
  }

  function ItemId(i: Item): int { i.id }

  /** The calendar's state. */
  class CalendarState {
    var month: YearMonth
    var rentals: seq<Rental>
    var items: map<int, Item>

    constructor (now: int)
      ensures month == MonthOf(now) && rentals == [] && items == map[]
    {
      month := MonthOf(now);
      rentals := [];
      items := map[];
    }

    /** `loadCalendarData`, given what the two queries returned. */
    method Load(allRentals: seq<Rental>, allItems: seq<Item>)
      modifies this
      ensures rentals == allRentals && month == old(month)
      ensures forall k :: k in items <==> LastIndexWith(allItems, ItemId, k) >= 0
      ensures forall k :: k in items ==> items[k] == allItems[LastIndexWith(allItems, ItemId, k)]
    {
      var lookup := IndexBy(allItems, ItemId);
      rentals := allRentals;
      items := lookup;
    }

    method Navigate(direction: string)
      requires 1 <= month.month <= 12
      modifies this
      ensures month == NavigateMonth(old(month), direction)
      ensures rentals == old(rentals) && items == old(items)
    {
      month := NavigateMonth(month, direction);
    }

    /** The cell of the day starting at `day`, as the screen draws it: the
        rentals whose start and due moments enclose that moment, and the active
        rentals due back that day. */
    function DayCell(day: int): (c: Cell)
      reads this
      ensures |c.rentals| <= 2 && |c.dueBack| <= 2
      ensures forall i :: 0 <= i < |c.rentals| ==> c.rentals[i] in rentals && c.rentals[i].startDate <= day <= c.rentals[i].dueDate
      ensures forall i :: 0 <= i < |c.dueBack| ==>
        c.dueBack[i] in rentals && c.dueBack[i].status == Active && SameDay(c.dueBack[i].dueDate, day)
      ensures c.rentals == RentalsForDay(rentals, day)[..Min(2, |RentalsForDay(rentals, day)|)]
      ensures c.dueBack == ReturnsDueOnDay(rentals, day)[..Min(2, |ReturnsDueOnDay(rentals, day)|)]
      ensures c.more.Some? <==> |RentalsForDay(rentals, day)| + |ReturnsDueOnDay(rentals, day)| > 2
      ensures c.more.Some? ==>
        c.more.value == |RentalsForDay(rentals, day)| + |ReturnsDueOnDay(rentals, day)| - 2
    {
      var dayRentals := RentalsForDay(rentals, day);
      var returnsDue := ReturnsDueOnDay(rentals, day);
      CellAsWritten(dayRentals, returnsDue)
    }
  }
}
