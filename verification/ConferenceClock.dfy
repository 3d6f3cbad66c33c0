/** firmware/devices_badge/conference_clock.h: the UTC calendar of the RX8130 and its binary-coded
    registers. */
module ConferenceClock {
  import opened Wrappers

  const MIN_EPOCH := 1704067200
  const MAX_EPOCH := 4102444800
  const DAY := 86400

  datatype Date = Date(year: int, month: int, day: int, hour: int, minute: int, second: int)

  predicate ValidEpoch(epoch: int) { MIN_EPOCH <= epoch < MAX_EPOCH }

  function Leap(year: int): int { if year % 4 == 0 then 1 else 0 }

  function DaysIn(year: int, month: int): (n: int)
    ensures 28 <= n <= 31
  {
    if month == 2 then 28 + Leap(year)
    else if month == 4 || month == 6 || month == 9 || month == 11 then 30
    else 31
  }

  predicate Valid(d: Date) {
    && 2024 <= d.year <= 2099 && 1 <= d.month <= 12 && 1 <= d.day <= DaysIn(d.year, d.month)
    && 0 <= d.hour <= 23 && 0 <= d.minute <= 59 && 0 <= d.second <= 59
  }

  /** Days from the start of 1970 to the start of a year. */
  function YearDays(year: int): int
    decreases year
  {
    if year <= 1970 then 0 else YearDays(year - 1) + 365 + Leap(year - 1)
  }

  /** Days from the start of the year to the start of a month. */
  function MonthDays(year: int, month: int): int
    decreases month
  {
    if month <= 1 then 0 else MonthDays(year, month - 1) + DaysIn(year, month - 1)
  }

  function DayNumber(d: Date): int { YearDays(d.year) + MonthDays(d.year, d.month) + d.day - 1 }

  function TimeOfDay(d: Date): int { d.hour * 3600 + d.minute * 60 + d.second }

  function Epoch(d: Date): int {
    if Valid(d) then DayNumber(d) * DAY + TimeOfDay(d) else -1
  }

  method CalendarEpoch(year: int, month: int, day: int, hour: int, minute: int, second: int) returns (epoch: int)
    ensures epoch == Epoch(Date(year, month, day, hour, minute, second))
  {
    if year < 2024 || year > 2099 || month < 1 || month > 12 || hour < 0 || hour > 23 ||
       minute < 0 || minute > 59 || second < 0 || second > 59 {
      return -1;
    }
    if day < 1 || day > DaysIn(year, month) { return -1; }
    var days := 0;
    for y := 1970 to year
      invariant days == YearDays(y)
    {
      days := days + 365 + Leap(y);
    }
    for m := 1 to month
      invariant days == YearDays(year) + MonthDays(year, m)
    {
      days := days + DaysIn(year, m);
    }
    days := days + (day - 1);
    epoch := days * DAY + hour * 3600 + minute * 60 + second;
  }

  // ---------------------------------------------------------------- order

  predicate Before(a: Date, b: Date) {
    || a.year < b.year
    || (a.year == b.year && a.month < b.month)
    || (a.year == b.year && a.month == b.month && a.day < b.day)
    || (a.year == b.year && a.month == b.month && a.day == b.day && TimeOfDay(a) < TimeOfDay(b))
  }

  lemma {:induction false} MonthsGrow(year: int, m: int, n: int)
    requires 1 <= m < n
    ensures MonthDays(year, m) + DaysIn(year, m) <= MonthDays(year, n)
    decreases n
  {
    if m < n - 1 { MonthsGrow(year, m, n - 1); }
  }

  lemma YearLength(year: int)
    ensures MonthDays(year, 13) == 365 + Leap(year)
  {
    assert MonthDays(year, 1) == 0 && MonthDays(year, 2) == 31;
    var leap := Leap(year);
    assert MonthDays(year, 3) == 59 + leap && MonthDays(year, 4) == 90 + leap;
    assert MonthDays(year, 5) == 120 + leap && MonthDays(year, 6) == 151 + leap;
    assert MonthDays(year, 7) == 181 + leap && MonthDays(year, 8) == 212 + leap;
    assert MonthDays(year, 9) == 243 + leap && MonthDays(year, 10) == 273 + leap;
    assert MonthDays(year, 11) == 304 + leap && MonthDays(year, 12) == 334 + leap;
  }

  lemma {:induction false} YearsGrow(y: int, z: int)
    requires 1970 <= y < z
    ensures YearDays(y) + 365 + Leap(y) <= YearDays(z)
    decreases z
  {
    if y < z - 1 { YearsGrow(y, z - 1); }
  }

  lemma DaysStayInYear(d: Date)
    requires Valid(d)
    ensures YearDays(d.year) <= DayNumber(d) < YearDays(d.year + 1)
  {
    YearLength(d.year);
    MonthsGrow(d.year, d.month, 13);
    MonthsNotNegative(d.year, d.month);
  }

  lemma {:induction false} MonthsNotNegative(year: int, month: int)
    ensures 0 <= MonthDays(year, month)
    decreases month
  {
    if month > 1 { MonthsNotNegative(year, month - 1); }
  }

  lemma DayNumbersGrow(a: Date, b: Date)
    requires Valid(a) && Valid(b)
    requires a.year < b.year || (a.year == b.year && (a.month < b.month || (a.month == b.month && a.day < b.day)))
    ensures DayNumber(a) < DayNumber(b)
  {
    DaysStayInYear(a);
    DaysStayInYear(b);
    if a.year < b.year {
      YearsGrow(a.year, b.year);
    } else if a.month < b.month {
      MonthsGrow(a.year, a.month, b.month);
    }
  }

  /** Later dates have larger epochs, strictly. */
  lemma EpochIsIncreasing(a: Date, b: Date)
    requires Valid(a) && Valid(b) && Before(a, b)
    ensures Epoch(a) < Epoch(b)
  {
    if a.year == b.year && a.month == b.month && a.day == b.day {
    } else {
      DayNumbersGrow(a, b);
      assert 0 <= TimeOfDay(a) < DAY && 0 <= TimeOfDay(b);
    }
  }

  // ---------------------------------------------------------------- the inverse

  function YearAt(days: int, year: int): (y: int)
    requires 2024 <= year <= 2099 && YearDays(year) <= days
    ensures year <= y <= 2099 && YearDays(y) <= days && (days < YearDays(y + 1) || y == 2099)
    decreases 2099 - year
  {
    if year < 2099 && YearDays(year + 1) <= days then YearAt(days, year + 1) else year
  }

  function MonthAt(year: int, days: int, month: int): (m: int)
    requires 1 <= month <= 12 && MonthDays(year, month) <= days
    ensures month <= m <= 12 && MonthDays(year, m) <= days && (days < MonthDays(year, m + 1) || m == 12)
    decreases 12 - month
  {
    if month < 12 && MonthDays(year, month + 1) <= days then MonthAt(year, days, month + 1) else month
  }

  lemma {:induction false} YearDaysUpTo(year: int)
    requires 1970 <= year < 2100
    ensures YearDays(year) == 365 * (year - 1970) + (year - 1969) / 4
    decreases year
  {
    if year > 1970 { YearDaysUpTo(year - 1); }
  }

  lemma Bounds()
    ensures YearDays(2024) * DAY == MIN_EPOCH && (YearDays(2099) + 365) * DAY == MAX_EPOCH
  {
    YearDaysUpTo(2024);
    YearDaysUpTo(2099);
  }

  function DateAt(epoch: int): Date
    requires ValidEpoch(epoch)
  {
    Bounds();
    var days, time := epoch / DAY, epoch % DAY;
    var year := YearAt(days, 2024);
    var day := days - YearDays(year);
    assert MonthDays(year, 1) == 0;
    var month := MonthAt(year, day, 1);
    Date(year, month, day - MonthDays(year, month) + 1, time / 3600, time % 3600 / 60, time % 60)
  }

  lemma TimeParts(time: int)
    requires 0 <= time < DAY
    ensures 0 <= time / 3600 <= 23 && 0 <= time % 3600 / 60 <= 59 && 0 <= time % 60 <= 59
    ensures time / 3600 * 3600 + time % 3600 / 60 * 60 + time % 60 == time
  {
    var h, m := time / 3600, time % 3600 / 60;
    assert time % 60 == time - h * 3600 - m * 60;
  }

  /** Every epoch of the range is the epoch of a valid date. */
  lemma DateAtIsInverse(epoch: int)
    requires ValidEpoch(epoch)
    ensures Valid(DateAt(epoch)) && Epoch(DateAt(epoch)) == epoch
  {
    Bounds();
    var days, time := epoch / DAY, epoch % DAY;
    var year := YearAt(days, 2024);
    var day := days - YearDays(year);
    assert MonthDays(year, 1) == 0;
    var month := MonthAt(year, day, 1);
    YearLength(year);
    assert days < YearDays(year) + 365 + Leap(year);
    assert day < MonthDays(year, month + 1);
    TimeParts(time);
  }

  /** Every valid date has an epoch in the range, and is the date of that epoch: with
      DateAtIsInverse, dates and epochs correspond one to one. */
  lemma EpochIsOntoRange(d: Date)
    requires Valid(d)
    ensures ValidEpoch(Epoch(d)) && DateAt(Epoch(d)) == d
  {
    Bounds();
    DaysStayInYear(d);
    if d.year > 2024 { YearsGrow(2024, d.year); }
    if d.year < 2099 { YearsGrow(d.year, 2099); }
    assert 0 <= TimeOfDay(d) < DAY;
    var e := DateAt(Epoch(d));
    DateAtIsInverse(Epoch(d));
    if e != d {
      Ordered(d, e);
      if Before(d, e) { EpochIsIncreasing(d, e); } else { EpochIsIncreasing(e, d); }
    }
  }

  lemma Ordered(a: Date, b: Date)
    requires Valid(a) && Valid(b) && a != b
    ensures Before(a, b) || Before(b, a)
  {
    if TimeOfDay(a) == TimeOfDay(b) {
      assert a.hour == TimeOfDay(a) / 3600 && b.hour == TimeOfDay(b) / 3600;
    }
  }

  // ---------------------------------------------------------------- the registers

  type Byte = x: int | 0 <= x < 256

  function Bcd(value: Byte): int {
    if value % 16 <= 9 && value / 16 <= 9 then value / 16 * 10 + value % 16 else -1
  }

  function ToBcd(n: int): Byte
    requires 0 <= n <= 99
  {
    n / 10 * 16 + n % 10
  }

  /** The decimal digits of a register, and nothing else, decode. */
  lemma BcdRoundTrip(n: int, value: Byte)
    ensures 0 <= n <= 99 ==> Bcd(ToBcd(n)) == n
    ensures Bcd(value) != -1 ==> 0 <= Bcd(value) <= 99 && ToBcd(Bcd(value)) == value
  {
  }

  /** The seven registers from 0x10: seconds, minutes, hours, weekday, day, month, year. */
  datatype Registers = Registers(second: Byte, minute: Byte, hour: Byte, weekday: Byte, day: Byte, month: Byte, year: Byte)

  function DateIn(r: Registers): Date {
    Date(2000 + Bcd(r.year), Bcd(r.month), Bcd(r.day), Bcd(r.hour), Bcd(r.minute), Bcd(r.second))
  }

  /** The decoding part of readRtc. */
  function Decoded(r: Registers): Option<int> {
    if r.second >= 0x80 || r.minute >= 0x80 || r.hour >= 0x40 || r.day >= 0x40 || r.month >= 0x20 then None
    else if Bcd(r.year) < 0 then None
    else
      var epoch := Epoch(DateIn(r));
      if ValidEpoch(epoch) then Some(epoch) else None
  }

  function Encoded(d: Date, weekday: Byte): Registers
    requires Valid(d)
  {
    Registers(ToBcd(d.second), ToBcd(d.minute), ToBcd(d.hour), weekday, ToBcd(d.day), ToBcd(d.month), ToBcd(d.year - 2000))
  }

  lemma DateInEncoded(d: Date, weekday: Byte)
    requires Valid(d)
    ensures DateIn(Encoded(d, weekday)) == d
  {
    BcdRoundTrip(d.second, 0);
    BcdRoundTrip(d.minute, 0);
    BcdRoundTrip(d.hour, 0);
    BcdRoundTrip(d.day, 0);
    BcdRoundTrip(d.month, 0);
    BcdRoundTrip(d.year - 2000, 0);
  }

  lemma EncodedDecodes(d: Date, weekday: Byte)
    requires Valid(d)
    ensures Decoded(Encoded(d, weekday)) == Some(Epoch(d))
  {
    DateInEncoded(d, weekday);
    BcdRoundTrip(d.year - 2000, 0);
    EpochIsOntoRange(d);
  }

  /** A time written to the registers reads back as the same epoch, whatever the weekday register. */
  lemma ClockRoundTrip(epoch: int, weekday: Byte)
    requires ValidEpoch(epoch)
    ensures Valid(DateAt(epoch)) && Decoded(Encoded(DateAt(epoch), weekday)) == Some(epoch)
  {
    DateAtIsInverse(epoch);
    EncodedDecodes(DateAt(epoch), weekday);
  }

  lemma InvalidHasNoEpoch(d: Date)
    ensures Epoch(d) == -1 || Valid(d)
  {
  }

  lemma DigitsAreTheirs(r: Registers)
    requires Valid(DateIn(r))
    ensures r == Encoded(DateIn(r), r.weekday)
  {
    BcdRoundTrip(0, r.second);
    BcdRoundTrip(0, r.minute);
    BcdRoundTrip(0, r.hour);
    BcdRoundTrip(0, r.day);
    BcdRoundTrip(0, r.month);
    BcdRoundTrip(0, r.year);
  }

  ghost predicate HoldsDate(r: Registers, d: Date) { Valid(d) && r == Encoded(d, r.weekday) }

  /** Registers are accepted exactly when they hold the binary-coded digits of a valid date, and then
      the epoch returned is that date's: no impossible date is ever read as a time. */
  lemma DecodedIff(r: Registers)
    ensures Decoded(r).Some? <==> exists d :: HoldsDate(r, d)
    ensures Decoded(r).Some? ==> HoldsDate(r, DateIn(r)) && Decoded(r).value == Epoch(DateIn(r))
  {
    if Decoded(r).Some? {
      InvalidHasNoEpoch(DateIn(r));
      DigitsAreTheirs(r);
      assert HoldsDate(r, DateIn(r));
    }
    forall d | HoldsDate(r, d)
      ensures Decoded(r).Some?
    {
      EncodedDecodes(d, r.weekday);
    }
  }
}
