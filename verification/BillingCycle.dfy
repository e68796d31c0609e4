/** Fixed-length billing cycles (hysteria/cycle.py). Days are numbered from 1 January of the
    year 1, which is day 1; a calendar date is needed only to find the settlement day a cycle
    falls back to. */
module BillingCycle {
  import opened StateStore

  const SETTLEMENT_DAY_DEFAULT := 12
  const CYCLE_LENGTH_DAYS_DEFAULT := 30
  const CYCLE_LENGTH_MIN := 1
  const CYCLE_LENGTH_MAX := 90

  function Clamp(low: int, high: int, v: int): int {
    if v < low then low else if v > high then high else v
  }

  function ClampSettlementDay(v: Option<int>): (d: int)
    ensures 1 <= d <= 28
  {
    if v.None? then SETTLEMENT_DAY_DEFAULT else Clamp(1, 28, v.value)
  }

  function ClampCycleLength(v: Option<int>): (n: int)
    ensures CYCLE_LENGTH_MIN <= n <= CYCLE_LENGTH_MAX
  {
    if v.None? then CYCLE_LENGTH_DAYS_DEFAULT else Clamp(CYCLE_LENGTH_MIN, CYCLE_LENGTH_MAX, v.value)
  }

  /* ---- The settlement anchor ---- */

  datatype Date = Date(year: int, month: int, day: int)

  predicate NotAfter(a: Date, b: Date) {
    a.year < b.year || (a.year == b.year && (a.month < b.month || (a.month == b.month && a.day <= b.day)))
  }

  predicate InCalendar(d: Date) { 1 <= d.month <= 12 && 1 <= d.day <= 31 }

  /** `settlement_anchor_date`: this month's settlement day, or last month's before it. */
  function SettlementAnchor(now: Date, day: int): Date {
    if now.day >= day then Date(now.year, now.month, day)
    else if now.month == 1 then Date(now.year - 1, 12, day)
    else Date(now.year, now.month - 1, day)
  }

  /** It is the latest date with that day of the month that is not after today. */
  lemma AnchorIsLatest(now: Date, day: int, other: Date)
    requires InCalendar(now) && 1 <= day <= 28
    requires InCalendar(other) && other.day == day
    ensures InCalendar(SettlementAnchor(now, day)) && SettlementAnchor(now, day).day == day
    ensures NotAfter(SettlementAnchor(now, day), now)
    ensures NotAfter(other, now) <==> NotAfter(other, SettlementAnchor(now, day))
  {
  }

  predicate LeapYear(y: int) { y % 4 == 0 && (y % 100 != 0 || y % 400 == 0) }

  function MonthLength(y: int, m: int): (n: int)
    ensures 28 <= n <= 31
  {
    if m == 2 then (if LeapYear(y) then 29 else 28) else if m == 4 || m == 6 || m == 9 || m == 11 then 30 else 31
  }

  function NextDate(d: Date): Date {
    if d.day < MonthLength(d.year, d.month) then d.(day := d.day + 1)
    else if d.month < 12 then Date(d.year, d.month + 1, 1)
    else Date(d.year + 1, 1, 1)
  }

  /** The calendar date of a day number. */
  function DateOf(n: int): (d: Date)
    ensures 1 <= d.month <= 12 && 1 <= d.day <= MonthLength(d.year, d.month)
  {
    if n <= 1 then Date(1, 1, 1) else NextDate(DateOf(n - 1))
  }

  /** The days of the year before a month. */
  function DaysBefore(y: int, m: int): int
    requires 1 <= m <= 12
  {
    [0, 31, 59, 90, 120, 151, 181, 212, 243, 273, 304, 334][m - 1] + (if m > 2 && LeapYear(y) then 1 else 0)
  }

  /** The calendar's own count of days: 365 a year, one more every fourth, but not in the
      years of full centuries unless their number divides by 400. */
  function Ordinal(d: Date): int
    requires 1 <= d.month <= 12
  {
    var y := d.year - 1;
    365 * y + y / 4 - y / 100 + y / 400 + DaysBefore(d.year, d.month) + d.day
  }

  lemma Quotients(y: int, n: int)
    requires n > 0
    ensures y / n - (y - 1) / n == if y % n == 0 then 1 else 0
  {
    var (q, r) := (y / n, y % n);
    assert y == q * n + r;
    if r == 0 {
      OnlyMultiple(q - 1, (y - 1) / n, n, y - 1);
    } else {
      OnlyMultiple(q, (y - 1) / n, n, y - 1);
    }
  }

  lemma LeapDivides(y: int)
    ensures y % 400 == 0 ==> y % 100 == 0
    ensures y % 100 == 0 ==> y % 4 == 0
  {
    if y % 400 == 0 {
      MultipleRemainder(4 * (y / 400), 100);
    }
    if y % 100 == 0 {
      MultipleRemainder(25 * (y / 100), 4);
    }
  }

  lemma YearLength(y: int)
    ensures DaysBefore(y, 12) + 31 == 365 + y / 4 - y / 100 + y / 400 - (y - 1) / 4 + (y - 1) / 100 - (y - 1) / 400
  {
    Quotients(y, 4);
    Quotients(y, 100);
    Quotients(y, 400);
    LeapDivides(y);
  }

  lemma NextOrdinal(d: Date)
    requires 1 <= d.month <= 12 && 1 <= d.day <= MonthLength(d.year, d.month)
    ensures Ordinal(NextDate(d)) == Ordinal(d) + 1
  {
    if d.day == MonthLength(d.year, d.month) && d.month == 12 {
      YearLength(d.year);
    }
  }

  /** Every day has the date whose count it is. */
  lemma {:induction false} DateOfOrdinal(n: int)
    requires 1 <= n
    ensures Ordinal(DateOf(n)) == n
  {
    hide NextDate, MonthLength, LeapYear, Ordinal;
    if n == 1 {
      FirstOrdinal();
    } else {
      DateOfOrdinal(n - 1);
      NextOrdinal(DateOf(n - 1));
    }
  }

  lemma FirstOrdinal()
    ensures Ordinal(Date(1, 1, 1)) == 1
  {
  }

  /** The day number of the settlement anchor: the latest day up to today, counted from the
      first, that has this day of the month. */
  function SettledOn(today: int, day: int): int {
    if today <= 1 || DateOf(today).day == day then today else SettledOn(today - 1, day)
  }

  lemma NextInJanuary(y: int, day: int)
    requires 1 < day <= 31
    ensures NextDate(Date(y, 1, day - 1)) == Date(y, 1, day)
  {
  }

  lemma {:induction false} FirstMonth(n: int)
    requires 1 <= n <= 31
    ensures DateOf(n) == Date(1, 1, n)
  {
    hide NextDate, MonthLength, LeapYear;
    if n > 1 {
      FirstMonth(n - 1);
      NextInJanuary(1, n);
    }
  }

  /** A day that is not a settlement day has the anchor of the day before. */
  lemma AnchorOfNext(d: Date, day: int)
    requires 1 <= d.month <= 12 && 1 <= d.day <= MonthLength(d.year, d.month) && 1 <= day <= 28
    requires NextDate(d).day != day
    ensures SettlementAnchor(NextDate(d), day) == SettlementAnchor(d, day)
  {
  }

  /** It is the date `settlement_anchor_date` gives, as long as the calendar has one. */
  lemma {:induction false} SettledOnAnchor(today: int, day: int)
    requires 1 <= day <= 28 && day <= today
    ensures SettledOn(today, day) <= today
    ensures DateOf(SettledOn(today, day)) == SettlementAnchor(DateOf(today), day)
  {
    hide NextDate, MonthLength, LeapYear;
    if DateOf(today).day != day {
      if today == day {
        FirstMonth(day);
      }
      SettledOnAnchor(today - 1, day);
      AnchorOfNext(DateOf(today - 1), day);
    }
  }

  lemma {:induction false} SettledOnLatest(today: int, day: int)
    requires 1 <= day <= 28 && day <= today
    ensures DateOf(SettledOn(today, day)).day == day
    ensures forall d | SettledOn(today, day) < d <= today :: DateOf(d).day != day
  {
    hide NextDate, MonthLength, LeapYear;
    if DateOf(today).day != day {
      if today == day {
        FirstMonth(day);
      }
      SettledOnLatest(today - 1, day);
    }
  }

  /* ---- Cycles ---- */

  /** `cycle_start_for`, given the anchor's day number. */
  function CycleStart(today: int, anchor: int, length: int): int
    requires length > 0
  {
    if today < anchor then anchor else anchor + ((today - anchor) / length) * length
  }

  /** The days of the cycle that begins at `start`, up to today, oldest first. */
  function DaysFrom(start: int, today: int, length: int): (days: seq<int>) {
    var end := if start + length - 1 < today then start + length - 1 else today;
    if end < start then [] else seq(end - start + 1, i requires 0 <= i => start + i)
  }

  function CycleDays(today: int, anchor: int, length: int): (days: seq<int>)
    requires length > 0
  {
    DaysFrom(CycleStart(today, anchor, length), today, length)
  }

  /** s starts a cycle that contains the day d. */
  predicate Starts(s: int, d: int, anchor: int, length: int)
    requires length > 0
  {
    s <= d < s + length && (s - anchor) % length == 0
  }

  lemma MulLess(k: int, m: int, n: int)
    requires n > 0 && k < m
    ensures k * n + n <= m * n
  {
    var d := m - k - 1;
    assert 0 <= d * n;
  }

  /** Two multiples of n within n below the same number are equal. */
  lemma OnlyMultiple(k: int, m: int, n: int, a: int)
    requires n > 0 && k * n <= a < k * n + n && m * n <= a < m * n + n
    ensures k == m
  {
    if k < m {
      MulLess(k, m, n);
    } else if m < k {
      MulLess(m, k, n);
    }
  }

  lemma MultipleRemainder(k: int, n: int)
    requires n > 0
    ensures (k * n) % n == 0
  {
    var q := (k * n) / n;
    OnlyMultiple(k, q, n, k * n);
  }

  /** On or after the anchor, today lies in its cycle, and the cycle starts a whole number
      of cycles after the anchor. */
  lemma CycleContainsToday(today: int, anchor: int, length: int)
    requires length > 0 && anchor <= today
    ensures var start := CycleStart(today, anchor, length);
            Starts(start, today, anchor, length) && anchor <= start
  {
    var k := (today - anchor) / length;
    MultipleRemainder(k, length);
  }

  /** No other start does. */
  lemma CycleStartUnique(today: int, anchor: int, length: int, s: int)
    requires length > 0 && anchor <= today && Starts(s, today, anchor, length)
    ensures s == CycleStart(today, anchor, length)
  {
    var k, m := (s - anchor) / length, (today - anchor) / length;
    assert k * length == s - anchor;
    OnlyMultiple(k, m, length, today - anchor);
  }

  /** The listed days are exactly those up to today that start the same cycle: the cycles
      partition the days from the anchor on. */
  lemma CyclePartition(today: int, anchor: int, length: int, d: int)
    requires length > 0 && anchor <= today
    ensures d in CycleDays(today, anchor, length) <==>
            d <= today && anchor <= d && CycleStart(d, anchor, length) == CycleStart(today, anchor, length)
  {
    CycleContainsToday(today, anchor, length);
    var days, start := CycleDays(today, anchor, length), CycleStart(today, anchor, length);
    assert start <= d <= today ==> days[d - start] == d;
    if anchor <= d {
      if start <= d <= today {
        CycleStartUnique(d, anchor, length, start);
      }
    }
    hide CycleStart;
  }

  /** Today lies before the end of its cycle, also before the first one. */
  lemma CycleNotOver(today: int, anchor: int, length: int)
    requires length > 0
    ensures today < CycleStart(today, anchor, length) + length
  {
  }

  /** No cycle of a legal length reaches back more than 89 days. */
  lemma CycleReachesBack(start: int, today: int, length: int, d: int)
    requires CYCLE_LENGTH_MIN <= length <= CYCLE_LENGTH_MAX && today < start + length
    requires d in DaysFrom(start, today, length)
    ensures today - (CYCLE_LENGTH_MAX - 1) <= d <= today
  {
  }

  /** `cycle_days`, day by day. */
  method ListCycleDays(today: int, anchor: int, length: int) returns (out: seq<int>)
    requires length > 0
    ensures out == CycleDays(today, anchor, length)
  {
    var start := if today < anchor then anchor else anchor + ((today - anchor) / length) * length;
    var end := if start + length - 1 < today then start + length - 1 else today;
    out := [];
    var cur := start;
    while cur <= end
      invariant start <= cur && |out| == cur - start
      invariant cur <= end + 1 || out == []
      invariant forall i | 0 <= i < |out| :: out[i] == start + i
    {
      out := out + [cur];
      cur := cur + 1;
    }
  }
}
