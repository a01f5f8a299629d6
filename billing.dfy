/** Late fees. The return service charges `LateFeePerDay` for every started day
    past the due date (a ceiling); the return screen previews the fee from the
    number of whole days late (a floor). */
module Billing {
  import opened Records

  /** `Math.ceil(ms / DayMs)` for a positive span. */
  function CeilDays(ms: int): int
    requires ms > 0
  {
    (ms + DayMs - 1) / DayMs
  }

  /** The fee the return service records: nothing when returned by the due
      moment, otherwise 15 per started day. */
  function LateFee(due: int, returned: int): int {
    if returned > due then CeilDays(returned - due) * LateFeePerDay else 0
  }

  /** The fee is the smallest multiple of the daily fee whose days cover the
      whole delay: no fee on time, and `k` started days for a delay in
      `((k - 1) * DayMs, k * DayMs]`. */
  lemma LateFeeIsCeiling(due: int, returned: int)
    ensures returned <= due ==> LateFee(due, returned) == 0
    ensures returned > due ==>
      var k := LateFee(due, returned) / LateFeePerDay;
      LateFee(due, returned) == k * LateFeePerDay && k >= 1
      && (k - 1) * DayMs < returned - due <= k * DayMs
  {
    if returned > due {
      var d := returned - due;
      var k := CeilDays(d);
      assert d + DayMs - 1 == k * DayMs + (d + DayMs - 1) % DayMs;
    }
  }

  /** Returning later never costs less. */
  lemma LateFeeMonotone(due: int, t1: int, t2: int)
    requires t1 <= t2
    ensures LateFee(due, t1) <= LateFee(due, t2)
  {
    if t1 > due {
      var a, b := t1 - due + DayMs - 1, t2 - due + DayMs - 1;
      assert a == (a / DayMs) * DayMs + a % DayMs;
      assert b == (b / DayMs) * DayMs + b % DayMs;
      assert a / DayMs <= b / DayMs;
    }
  }

  /** date-fns `differenceInDays(now, due)` for a return after the due moment:
      whole days, rounded down. */
  function DaysLate(due: int, now: int): int {
    if now > due then (now - due) / DayMs else 0
  }

  /** The fee the return screen shows before the return is processed. */
  function PreviewFee(due: int, now: int): int {
    DaysLate(due, now) * LateFeePerDay
  }

  /** The preview never exceeds the fee charged at the same moment, and falls short
      by exactly one day's fee when the delay is not a whole number of days. */
  lemma PreviewVersusCharged(due: int, now: int)
    ensures PreviewFee(due, now) <= LateFee(due, now)
    ensures LateFee(due, now) - PreviewFee(due, now) ==
      if now > due && (now - due) % DayMs != 0 then LateFeePerDay else 0
  {
    if now > due {
      var d := now - due;
      var q, r := d / DayMs, d % DayMs;
      assert d == q * DayMs + r;
      if r == 0 {
        assert d + DayMs - 1 == q * DayMs + (DayMs - 1);
        assert CeilDays(d) == q;
      } else {
        assert d + DayMs - 1 == (q + 1) * DayMs + (r - 1);
        assert CeilDays(d) == q + 1;
      }
    }
  }
}
