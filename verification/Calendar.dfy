/** Gregorian dates as the daily feed uses them: shifting by months, the day after, and the customer numbers and
    telephone numbers made from a date and a slot. */
module Calendar {
  import opened Wrappers

  datatype Date = Date(year: int, month: int, day: int)

  const MIN_YEAR := 1
  const MAX_YEAR := 9999

  predicate Leap(year: int) {
    year % 4 == 0 && (year % 100 != 0 || year % 400 == 0)
  }

  function DaysIn(year: int, month: int): (n: int)
    ensures 28 <= n <= 31
  {
    if month == 2 then (if Leap(year) then 29 else 28)
    else if month == 4 || month == 6 || month == 9 || month == 11 then 30
    else 31
  }

  predicate Valid(d: Date) {
    MIN_YEAR <= d.year <= MAX_YEAR && 1 <= d.month <= 12 && 1 <= d.day <= DaysIn(d.year, d.month)
  }

  predicate Before(a: Date, b: Date) {
    a.year < b.year || (a.year == b.year && (a.month < b.month || (a.month == b.month && a.day < b.day)))
  }

  predicate AtMost(a: Date, b: Date) {
    a == b || Before(a, b)
  }

  function Earlier(a: Date, b: Date): Date {
    if Before(b, a) then b else a
  }

  /** Months since the start of year 0. */
  function MonthIndex(d: Date): int {
    d.year * 12 + d.month - 1
  }

  function InMonth(index: int, day: int): Date {
    var year, month := index / 12, index % 12 + 1;
    Date(year, month, if day <= DaysIn(year, month) then day else DaysIn(year, month))
  }

  predicate Representable(index: int) {
    MIN_YEAR <= index / 12 <= MAX_YEAR
  }

  /** None where the date would leave the calendar. */
  function ShiftMonths(d: Date, months: int): Option<Date> {
    var index := MonthIndex(d) + months;
    if Representable(index) then Some(InMonth(index, d.day)) else None
  }

  /** A shift moves the month exactly, keeps the day unless the month is too short for it, and fails only outside
      the calendar. */
  lemma ShiftMovesMonths(d: Date, months: int)
    requires Valid(d)
    ensures ShiftMonths(d, months).Some? <==> 12 <= MonthIndex(d) + months <= 12 * MAX_YEAR + 11
    ensures ShiftMonths(d, months).Some? ==>
      var r := ShiftMonths(d, months).value;
      Valid(r) && MonthIndex(r) == MonthIndex(d) + months && r.day <= d.day &&
      (r.day == d.day || (r.day == DaysIn(r.year, r.month) < d.day))
  {
  }

  /** Later dates and longer shifts never end up earlier; longer shifts of one date always end up later. */
  lemma ShiftIsMonotone(a: Date, b: Date, m: int, n: int)
    requires Valid(a) && Valid(b) && AtMost(a, b) && m <= n
    requires ShiftMonths(a, m).Some? && ShiftMonths(b, n).Some?
    ensures AtMost(ShiftMonths(a, m).value, ShiftMonths(b, n).value)
    ensures m < n ==> Before(ShiftMonths(a, m).value, ShiftMonths(b, n).value)
  {
  }

  /** Two shifts are one exactly when the month in between is not what shortens the day. */
  lemma ShiftsComposeExactly(d: Date, m: int, n: int)
    requires Valid(d) && ShiftMonths(d, m).Some? && ShiftMonths(d, m + n).Some?
    ensures var mid, end := ShiftMonths(d, m).value, ShiftMonths(d, m + n).value;
      ShiftMonths(mid, n) == Some(end) <==>
      d.day <= DaysIn(mid.year, mid.month) || DaysIn(end.year, end.month) <= DaysIn(mid.year, mid.month)
  {
  }

  /** Shifting there and back is the identity for every distance exactly when the day exists in every month. */
  lemma ShiftRoundTripExactly(d: Date)
    requires Valid(d)
    ensures (forall m: int | ShiftMonths(d, m).Some? :: ShiftMonths(ShiftMonths(d, m).value, -m) == Some(d)) <==>
      d.day <= 28
  {
    if d.day <= 28 {
      forall m: int | ShiftMonths(d, m).Some? ensures ShiftMonths(ShiftMonths(d, m).value, -m) == Some(d) {
        ShiftMovesMonths(d, m);
        OwnMonth(d);
        hide Valid, MonthIndex;
      }
    } else {
      var m := (2001 * 12 + 1) - MonthIndex(d);
      assert ShiftMonths(d, m) == Some(Date(2001, 2, 28));
    }
  }

  lemma OwnMonth(d: Date)
    requires Valid(d)
    ensures Representable(MonthIndex(d)) && InMonth(MonthIndex(d), d.day) == d
  {
  }

  /** The seed never reaches past the anniversary. */
  lemma SeedEndsByAnniversary(start: Date, today: Date, history: int)
    requires Valid(start) && Valid(today) && 1 <= history <= 12
    requires ShiftMonths(start, 12).Some?
    ensures ShiftMonths(start, history).Some?
    ensures AtMost(Earlier(ShiftMonths(start, history).value, today), ShiftMonths(start, 12).value)
    ensures AtMost(start, today) ==> AtMost(start, Earlier(ShiftMonths(start, history).value, today))
  {
  }

  /** Days of the year before a month, and days before a year. */
  function DaysBeforeMonth(year: int, month: int): int
    requires 1 <= month <= 13
  {
    if month == 1 then 0 else DaysBeforeMonth(year, month - 1) + DaysIn(year, month - 1)
  }

  function DaysBeforeYear(year: int): int {
    365 * (year - 1) + (year - 1) / 4 - (year - 1) / 100 + (year - 1) / 400
  }

  /** The proleptic Gregorian ordinal; 1 January of year 1 is day 1. */
  function Ordinal(d: Date): int
    requires Valid(d)
  {
    DaysBeforeYear(d.year) + DaysBeforeMonth(d.year, d.month) + d.day
  }

  function NextDay(d: Date): Date {
    if d.day < DaysIn(d.year, d.month) then d.(day := d.day + 1)
    else if d.month < 12 then Date(d.year, d.month + 1, 1)
    else Date(d.year + 1, 1, 1)
  }

  lemma YearLength(year: int)
    ensures DaysBeforeMonth(year, 13) == if Leap(year) then 366 else 365
  {
    assert DaysBeforeMonth(year, 2) == DaysIn(year, 1);
    assert DaysBeforeMonth(year, 3) == DaysIn(year, 1) + DaysIn(year, 2);
    assert DaysBeforeMonth(year, 5) == DaysBeforeMonth(year, 3) + DaysIn(year, 3) + DaysIn(year, 4);
    assert DaysBeforeMonth(year, 7) == DaysBeforeMonth(year, 5) + DaysIn(year, 5) + DaysIn(year, 6);
    assert DaysBeforeMonth(year, 9) == DaysBeforeMonth(year, 7) + DaysIn(year, 7) + DaysIn(year, 8);
    assert DaysBeforeMonth(year, 11) == DaysBeforeMonth(year, 9) + DaysIn(year, 9) + DaysIn(year, 10);
    assert DaysBeforeMonth(year, 13) == DaysBeforeMonth(year, 11) + DaysIn(year, 11) + DaysIn(year, 12);
  }

  lemma By4(year: int)
    ensures year / 4 == (year - 1) / 4 + if year % 4 == 0 then 1 else 0
  {
  }

  lemma By100(year: int)
    ensures year / 100 == (year - 1) / 100 + if year % 100 == 0 then 1 else 0
    ensures year % 100 == 0 ==> year % 4 == 0
  {
  }

  lemma By400(year: int)
    ensures year / 400 == (year - 1) / 400 + if year % 400 == 0 then 1 else 0
    ensures year % 400 == 0 ==> year % 100 == 0
  {
  }

  lemma YearStep(year: int)
    ensures DaysBeforeYear(year + 1) == DaysBeforeYear(year) + if Leap(year) then 366 else 365
  {
    By4(year);
    By100(year);
    By400(year);
  }

  /** The day after is the next ordinal, across months, years and leap days. */
  lemma NextDayIsNext(d: Date)
    requires Valid(d) && d != Date(MAX_YEAR, 12, 31)
    ensures Valid(NextDay(d)) && Ordinal(NextDay(d)) == Ordinal(d) + 1
  {
    YearLength(d.year);
    YearStep(d.year);
    hide DaysBeforeYear, Leap;
  }

  lemma {:induction false} DaysBeforeMonthGrows(year: int, m: int, n: int)
    requires 1 <= m < n <= 13
    ensures DaysBeforeMonth(year, m) + DaysIn(year, m) <= DaysBeforeMonth(year, n)
    decreases n
  {
    if m < n - 1 { DaysBeforeMonthGrows(year, m, n - 1); }
  }

  lemma {:induction false} DaysBeforeYearGrows(y: int, z: int)
    requires y < z
    ensures DaysBeforeYear(y) + (if Leap(y) then 366 else 365) <= DaysBeforeYear(z)
    decreases z - y
  {
    hide DaysBeforeYear;
    YearStep(z - 1);
    if y < z - 1 { DaysBeforeYearGrows(y, z - 1); }
  }

  /** Ordinals order dates, so a date is determined by its ordinal. */
  lemma OrdinalOrders(a: Date, b: Date)
    requires Valid(a) && Valid(b)
    ensures Before(a, b) <==> Ordinal(a) < Ordinal(b)
    ensures a == b <==> Ordinal(a) == Ordinal(b)
  {
    if Before(a, b) {
      OrdinalGrows(a, b);
    } else if Before(b, a) {
      OrdinalGrows(b, a);
    }
    hide Ordinal;
  }

  lemma OrdinalGrows(a: Date, b: Date)
    requires Valid(a) && Valid(b) && Before(a, b)
    ensures Ordinal(a) < Ordinal(b)
  {
    hide DaysBeforeYear;
    if a.year < b.year {
      DaysBeforeYearGrows(a.year, b.year);
      YearLength(a.year);
      DaysBeforeMonthGrows(a.year, a.month, 13);
      if b.month > 1 { DaysBeforeMonthGrows(b.year, 1, b.month); }
      hide DaysBeforeMonth, Leap;
    } else if a.month < b.month {
      DaysBeforeMonthGrows(a.year, a.month, b.month);
      hide DaysBeforeMonth;
    }
  }

  const SLOTS := 100_000
  const PHONES := 10_000_000

  /** The customer counter of a date and slot: the digits of the date, five digits of slot, and the step that takes
      it up. */
  function CustomerNumber(d: Date, slot: nat): int {
    DateDigits(d) * SLOTS + slot + 1
  }

  /** YYYYMMDD. */
  function DateDigits(d: Date): int {
    d.year * 10000 + d.month * 100 + d.day
  }

  /** The seven digits after +1555, from an offset of the run. */
  function PhoneDigits(offset: nat, d: Date, slot: nat): int {
    (offset + CustomerNumber(d, slot)) % PHONES
  }

  lemma NumberParts(d: Date, slot: nat)
    requires Valid(d) && slot < SLOTS
    ensures var n := CustomerNumber(d, slot) - 1;
      && n % SLOTS == slot && n / SLOTS % 100 == d.day
      && n / SLOTS / 100 % 100 == d.month && n / SLOTS / 100 / 100 == d.year
  {
    var date := d.year * 10000 + d.month * 100 + d.day;
    assert (date * SLOTS + slot) / SLOTS == date;
    assert date / 100 == d.year * 100 + d.month && date % 100 == d.day;
  }

  /** No two slots of any two dates share a customer number. */
  lemma CustomerNumbersAreDistinct(a: Date, i: nat, b: Date, j: nat)
    requires Valid(a) && Valid(b) && i < SLOTS && j < SLOTS
    ensures CustomerNumber(a, i) == CustomerNumber(b, j) <==> a == b && i == j
  {
    NumberParts(a, i);
    NumberParts(b, j);
    hide CustomerNumber, Valid;
  }

  /** Telephone numbers repeat from month to month: exactly for the same day of the month and the same slot. */
  lemma PhonesCollideExactly(offset: nat, a: Date, i: nat, b: Date, j: nat)
    requires Valid(a) && Valid(b) && i < SLOTS && j < SLOTS
    ensures PhoneDigits(offset, a, i) == PhoneDigits(offset, b, j) <==> a.day == b.day && i == j
  {
    var x, y := a.day * SLOTS + i, b.day * SLOTS + j;
    var p, q := (a.year * 100 + a.month), (b.year * 100 + b.month);
    assert CustomerNumber(a, i) == PHONES * p + x + 1 && CustomerNumber(b, j) == PHONES * q + y + 1;
    assert 0 <= x < PHONES && 0 <= y < PHONES;
    SameResidue(offset + 1, p, x, q, y);
    assert x == y <==> a.day == b.day && i == j;
    hide CustomerNumber, Valid;
  }

  lemma SameResidue(c: nat, p: int, x: int, q: int, y: int)
    requires 0 <= x < PHONES && 0 <= y < PHONES
    ensures (c + PHONES * p + x) % PHONES == (c + PHONES * q + y) % PHONES <==> x == y
  {
    DropMultiple(c + x, p);
    DropMultiple(c + y, q);
  }

  lemma DropMultiple(n: int, k: int)
    ensures (n + PHONES * k) % PHONES == n % PHONES
  {
  }

  /** To the nearest integer, halves to the even one. */
  function Round(x: real): int {
    var floor := x.Floor;
    var rest := x - floor as real;
    if rest < 0.5 then floor
    else if rest > 0.5 then floor + 1
    else if floor % 2 == 0 then floor else floor + 1
  }

  function Factor(weekend: bool, wave: real): real {
    (if weekend then 0.75 else 1.0) * (1.0 + 0.18 * wave)
  }

  function Unrounded(base: int, weekend: bool, wave: real, jitter: real): real {
    base as real * Factor(weekend, wave) * jitter
  }

  /** A day's customers: the baseline, less on weekends, with a seasonal `wave` and a `jitter`. */
  function Volume(base: int, weekend: bool, wave: real, jitter: real): int {
    var n := Round(Unrounded(base, weekend, wave, jitter));
    if n < 4 then 4 else n
  }

  lemma RoundAtMost(x: real, n: int)
    requires x <= n as real
    ensures Round(x) <= n
  {
  }

  lemma Scaled(x: real, y: real, a: real, b: real)
    requires 0.0 <= x <= a && 0.0 <= y <= b
    ensures 0.0 <= x * y <= a * b
  {
    assert x * y <= a * y;
    assert a * y <= a * b;
  }

  lemma UnroundedAtMost(base: int, weekend: bool, wave: real, jitter: real)
    requires 4 <= base <= 10000 && -1.0 <= wave <= 1.0 && 0.9 <= jitter <= 1.1
    ensures Unrounded(base, weekend, wave, jitter) <= 12980.0
  {
    Scaled(if weekend then 0.75 else 1.0, 1.0 + 0.18 * wave, 1.0, 1.18);
    Scaled(base as real, Factor(weekend, wave), 10000.0, 1.18);
    Scaled(base as real * Factor(weekend, wave), jitter, 11800.0, 1.1);
  }

  /** Every day has the four customers that cover the grades, and a number of slots that fits the numbering. */
  lemma VolumeInRange(base: int, weekend: bool, wave: real, jitter: real)
    requires 4 <= base <= 10000 && -1.0 <= wave <= 1.0 && 0.9 <= jitter <= 1.1
    ensures 4 <= Volume(base, weekend, wave, jitter) <= 12980 < SLOTS
  {
    UnroundedAtMost(base, weekend, wave, jitter);
    RoundAtMost(Unrounded(base, weekend, wave, jitter), 12980);
    hide Unrounded, Round;
  }

  /** The lengths of the twelve months. */
  lemma MonthLengths(year: int, month: int)
    requires 1 <= month <= 12
    ensures DaysIn(year, month) ==
      [31, if Leap(year) then 29 else 28, 31, 30, 31, 30, 31, 31, 30, 31, 30, 31][month - 1]
    ensures Leap(year) <==> (if year % 100 == 0 then year % 400 == 0 else year % 4 == 0)
  {
  }

  /** A day's volume is the whole number nearest to the baseline, three quarters of it on weekends, up to 18 per cent
      more or less by season, times the jitter; or four, if that is less. */
  lemma VolumeIsNearest(base: int, weekend: bool, wave: real, jitter: real)
    ensures var n, x := Volume(base, weekend, wave, jitter),
                        base as real * (if weekend then 0.75 else 1.0) * (1.0 + 0.18 * wave) * jitter;
      && n >= 4 && (n == 4 ==> x <= 4.5) && (n > 4 ==> -0.5 <= n as real - x <= 0.5)
      && (n > 4 && (n as real - x == 0.5 || n as real - x == -0.5) ==> n % 2 == 0)
  {
    var f, b, w := Factor(weekend, wave), base as real, 1.0 + 0.18 * wave;
    var q := if weekend then 0.75 else 1.0;
    Grouping(b, q, w, jitter);
    assert Unrounded(base, weekend, wave, jitter) == b * q * w * jitter;
    RoundIsNearest(Unrounded(base, weekend, wave, jitter));
    hide Round, Unrounded;
  }

  lemma Grouping(b: real, q: real, w: real, j: real)
    ensures b * (q * w) * j == b * q * w * j
  {
  }

  lemma RoundIsNearest(x: real)
    ensures -0.5 <= Round(x) as real - x <= 0.5
    ensures Round(x) as real - x == 0.5 || Round(x) as real - x == -0.5 ==> Round(x) % 2 == 0
  {
  }

  /** For one baseline, season and jitter a weekend never has more customers than a weekday. */
  lemma WeekendsAreQuieter(base: int, wave: real, jitter: real)
    requires base >= 0 && -1.0 <= wave <= 1.0 && jitter >= 0.0
    ensures Volume(base, true, wave, jitter) <= Volume(base, false, wave, jitter)
  {
    var w := 1.0 + 0.18 * wave;
    Scaled(0.75 * w, jitter, 1.0 * w, jitter);
    assert base as real * (0.75 * w) <= base as real * (1.0 * w);
    assert base as real * (0.75 * w) * jitter <= base as real * (1.0 * w) * jitter;
    RoundGrows(Unrounded(base, true, wave, jitter), Unrounded(base, false, wave, jitter));
    hide Round;
  }

  lemma RoundGrows(x: real, y: real)
    requires x <= y
    ensures Round(x) <= Round(y)
  {
  }

  /** The telephone number comes from the day of the month and the slot alone: month and year do not enter. */
  lemma PhoneFromDay(offset: nat, d: Date, slot: nat)
    requires Valid(d)
    ensures PhoneDigits(offset, d, slot) == (offset + d.day * 100_000 + slot + 1) % 10_000_000
  {
    DropMultiple(offset + d.day * SLOTS + slot + 1, d.year * 100 + d.month);
    assert CustomerNumber(d, slot) == PHONES * (d.year * 100 + d.month) + d.day * SLOTS + slot + 1;
  }
}
