/** The closed-form day count behind the prompt's weekday, against the Gregorian calendar day by day. */
module Calendar {
  datatype Date = Date(year: int, month: int, day: int)

  predicate Leap(year: int) {
    year % 4 == 0 && (year % 100 != 0 || year % 400 == 0)
  }

  function MonthDays(year: int, month: int): int {
    if month == 2 then (if Leap(year) then 29 else 28)
    else if month == 4 || month == 6 || month == 9 || month == 11 then 30
    else 31
  }

  /** The dates the prompt accepts. */
  predicate ValidDate(d: Date) {
    d.year != 0 && 1 <= d.month <= 12 && 1 <= d.day <= MonthDays(d.year, d.month)
  }

  /** A date of the proleptic calendar, year zero included. */
  predicate RealDate(d: Date) {
    1 <= d.month <= 12 && 1 <= d.day <= MonthDays(d.year, d.month)
  }

  function NextDay(d: Date): Date {
    if d.day < MonthDays(d.year, d.month) then Date(d.year, d.month, d.day + 1)
    else if d.month < 12 then Date(d.year, d.month + 1, 1)
    else Date(d.year + 1, 1, 1)
  }

  const EPOCH: Date := Date(1970, 1, 1)

  /** Days since the epoch, in closed form: years from March, eras of 400 years. */
  function UnixDays(d: Date): int {
    var year := if d.month <= 2 then d.year - 1 else d.year;
    var era := year / 400;
    var yearOfEra := year - era * 400;
    var shifted := if d.month > 2 then d.month - 3 else d.month + 9;
    var dayOfYear := (153 * shifted + 2) / 5 + d.day - 1;
    var dayOfEra := yearOfEra * 365 + yearOfEra / 4 - yearOfEra / 100 + dayOfYear;
    era * 146097 + dayOfEra - 719468
  }

  /** Days from March 1 to the first of a month. */
  function MonthOffset(month: int): int {
    (153 * (if month > 2 then month - 3 else month + 9) + 2) / 5
  }

  lemma UnixDaysParts(d: Date)
    ensures UnixDays(d)
            == MarchYears(if d.month <= 2 then d.year - 1 else d.year) + MonthOffset(d.month) + d.day - 1 - 719468
  {
  }

  const NAMES := ["Sunday", "Monday", "Tuesday", "Wednesday", "Thursday", "Friday", "Saturday"]

  function Weekday(d: Date): string {
    NAMES[(UnixDays(d) + 4) % 7]
  }

  /** Days from the start of an era to a March year of it. */
  function EraDays(yearOfEra: int): int {
    yearOfEra * 365 + yearOfEra / 4 - yearOfEra / 100
  }

  /** Days before a year that starts in March, in closed form. */
  function MarchYears(year: int): int {
    year / 400 * 146097 + EraDays(year - year / 400 * 400)
  }

  lemma Mod4(k: int, y: int)
    ensures (4 * k + y) % 4 == y % 4
  {
  }

  lemma Mod100(k: int, y: int)
    ensures (100 * k + y) % 100 == y % 100
  {
  }

  lemma Mod400(k: int, y: int)
    ensures (400 * k + y) % 400 == y % 400
  {
  }

  lemma LeapShift(era: int, y: int)
    ensures Leap(400 * era + y) == Leap(y)
  {
    Mod4(100 * era, y);
    Mod100(4 * era, y);
    Mod400(era, y);
  }

  lemma EraYearLength(y: int)
    requires 0 <= y < 400
    ensures (if y == 399 then 146097 else EraDays(y + 1)) - EraDays(y) == if Leap(y + 1) then 366 else 365
  {
    assert (y + 1) / 4 - y / 4 == if (y + 1) % 4 == 0 then 1 else 0;
    assert (y + 1) / 100 - y / 100 == if (y + 1) % 100 == 0 then 1 else 0;
  }

  lemma EraOf(year: int)
    ensures var era, y := year / 400, year - year / 400 * 400;
      0 <= y < 400 && year == 400 * era + y
      && (year + 1) / 400 == (if y == 399 then era + 1 else era)
  {
  }

  /** A March year has 366 days exactly when the February that ends it belongs to a leap year. */
  lemma MarchYearLength(year: int)
    ensures MarchYears(year + 1) - MarchYears(year) == if Leap(year + 1) then 366 else 365
  {
    var era, y := year / 400, year - year / 400 * 400;
    EraOf(year);
    EraYearLength(y);
    LeapShift(era, y + 1);
    assert EraDays(0) == 0;
  }

  lemma MonthSteps(month: int)
    requires 1 <= month <= 12 && month != 2
    ensures MonthOffset(if month == 12 then 1 else month + 1) - MonthOffset(month) == MonthDays(1, month)
    ensures MonthOffset(2) == 337 && MonthOffset(3) == 0
  {
  }

  /** The count moves by exactly one from each date to the next. */
  lemma NextDayCounts(d: Date)
    requires RealDate(d)
    ensures RealDate(NextDay(d)) && UnixDays(NextDay(d)) == UnixDays(d) + 1
  {
    UnixDaysParts(d);
    UnixDaysParts(NextDay(d));
    MonthSteps(if d.month == 2 then 1 else d.month);
    if d.month == 2 { MarchYearLength(d.year - 1); }
  }

  lemma EpochIsDayZero()
    ensures UnixDays(EPOCH) == 0 && Weekday(EPOCH) == "Thursday"
  {
  }

  /** The calendar walked one day at a time. */
  function Walk(d: Date, n: nat): Date {
    if n == 0 then d else NextDay(Walk(d, n - 1))
  }

  lemma {:induction false} WalkCounts(d: Date, n: nat)
    requires RealDate(d)
    ensures RealDate(Walk(d, n)) && UnixDays(Walk(d, n)) == UnixDays(d) + n
  {
    if n > 0 {
      WalkCounts(d, n - 1);
      NextDayCounts(Walk(d, n - 1));
    }
  }

  function PreviousDay(d: Date): Date {
    if d.day > 1 then Date(d.year, d.month, d.day - 1)
    else if d.month > 1 then Date(d.year, d.month - 1, MonthDays(d.year, d.month - 1))
    else Date(d.year - 1, 12, 31)
  }

  predicate Before(c: Date, d: Date) {
    c.year < d.year || (c.year == d.year && (c.month < d.month || (c.month == d.month && c.day < d.day)))
  }

  /** Walking back from a later date reaches every earlier one. */
  lemma {:induction false} Reaches(c: Date, d: Date) returns (n: nat)
    requires RealDate(c) && RealDate(d) && (c == d || Before(c, d))
    ensures Walk(c, n) == d
    decreases d.year - c.year, d.month, d.day
  {
    if c == d { return 0; }
    var p := PreviousDay(d);
    assert RealDate(p) && NextDay(p) == d && (c == p || Before(c, p));
    n := Reaches(c, p);
    n := n + 1;
  }

  /** The name after a weekday's name, as the week goes. */
  function NextName(name: string): string {
    match name
    case "Sunday" => "Monday"
    case "Monday" => "Tuesday"
    case "Tuesday" => "Wednesday"
    case "Wednesday" => "Thursday"
    case "Thursday" => "Friday"
    case "Friday" => "Saturday"
    case _ => "Sunday"
  }

  /** The week counted one name at a time. */
  function NameAfter(name: string, n: nat): string {
    if n == 0 then name else NextName(NameAfter(name, n - 1))
  }

  lemma NamesCycle(i: int)
    ensures NAMES[(i + 1) % 7] == NextName(NAMES[i % 7])
  {
    var r := i % 7;
    assert (i + 1) % 7 == if r == 6 then 0 else r + 1;
  }

  lemma WeekdayNext(d: Date, next: Date)
    requires RealDate(d) && next == NextDay(d)
    ensures Weekday(next) == NextName(Weekday(d))
  {
    NextDayCounts(d);
    NamesCycle(UnixDays(d) + 4);
  }

  /** Walking n days through the calendar walks n names through the week. */
  lemma {:induction false} WeekdayWalks(d: Date, n: nat)
    requires RealDate(d)
    ensures Weekday(Walk(d, n)) == NameAfter(Weekday(d), n)
  {
    if n > 0 {
      WeekdayWalks(d, n - 1);
      WalkCounts(d, n - 1);
      WeekdayNext(Walk(d, n - 1), NextDay(Walk(d, n - 1)));
    }
  }

  /** A later date is some number of calendar days away, that number is the difference of the day numbers, and its
    * weekday is that many names on. */
  lemma WeekdayCorrect(c: Date, d: Date) returns (n: nat)
    requires RealDate(c) && RealDate(d) && (c == d || Before(c, d))
    ensures Walk(c, n) == d && n == UnixDays(d) - UnixDays(c)
    ensures Weekday(d) == NameAfter(Weekday(c), n)
  {
    n := Reaches(c, d);
    WalkCounts(c, n);
    WeekdayWalks(c, n);
  }

  predicate FitsInt32(x: int) {
    -0x8000_0000 <= x <= 0x7FFF_FFFF
  }

  /** For the accepted dates of four-digit years every intermediate result fits a signed 32-bit integer, and the days of
    * the year and of the era stay within one year and one era. */
  lemma FitsI32(d: Date)
    requires ValidDate(d) && 1 <= d.year <= 9999
    ensures var year := if d.month <= 2 then d.year - 1 else d.year;
      var era := year / 400;
      var yearOfEra := year - era * 400;
      var shifted := if d.month > 2 then d.month - 3 else d.month + 9;
      var dayOfYear := (153 * shifted + 2) / 5 + d.day - 1;
      var dayOfEra := yearOfEra * 365 + yearOfEra / 4 - yearOfEra / 100 + dayOfYear;
      && 0 <= yearOfEra < 400 && 0 <= shifted < 12 && 0 <= dayOfYear < 366 && 0 <= dayOfEra < 146097
      && FitsInt32(year) && FitsInt32(era * 400) && FitsInt32(153 * shifted + 2)
      && FitsInt32(yearOfEra * 365 + yearOfEra / 4) && FitsInt32(era * 146097) && FitsInt32(era * 146097 + dayOfEra)
      && UnixDays(d) == era * 146097 + dayOfEra - 719468 && FitsInt32(UnixDays(d)) && FitsInt32(UnixDays(d) + 4)
  {
  }
}
