/** UTC days and the `%Y-%m-%d` text the budget stores file a day's usage under. */
module Calendar {

  import opened Common

  const SECONDS_PER_DAY: nat := 86400

  datatype Date = Date(year: nat, month: nat, day: nat)

  predicate IsLeap(year: nat) {
    year % 4 == 0 && (year % 100 != 0 || year % 400 == 0)
  }

  function MonthLength(year: nat, month: nat): nat {
    if month == 2 then (if IsLeap(year) then 29 else 28)
    else if month in {4, 6, 9, 11} then 30
    else 31
  }

  predicate Proper(d: Date) {
    1 <= d.month <= 12 && 1 <= d.day <= MonthLength(d.year, d.month)
  }

  function NextDate(d: Date): Date {
    if d.day < MonthLength(d.year, d.month) then d.(day := d.day + 1)
    else if d.month < 12 then Date(d.year, d.month + 1, 1)
    else Date(d.year + 1, 1, 1)
  }

  /** The date of the `n`-th day after 1970-01-01. */
  function Civil(n: nat): (d: Date)
    ensures Proper(d)
  {
    if n == 0 then Date(1970, 1, 1) else NextDate(Civil(n - 1))
  }

  predicate Before(a: Date, b: Date) {
    || a.year < b.year
    || (a.year == b.year && (a.month < b.month || (a.month == b.month && a.day < b.day)))
  }

  lemma NotBeforeItself(d: Date)
    ensures !Before(d, d)
  {
  }

  lemma {:induction false} LaterDaysHaveLaterDates(m: nat, n: nat)
    requires m < n
    ensures Before(Civil(m), Civil(n))
  {
    assert Before(Civil(n - 1), NextDate(Civil(n - 1)));
    if m < n - 1 {
      LaterDaysHaveLaterDates(m, n - 1);
    }
  }

  function Two(n: nat): (s: string)
    requires n < 100
    ensures |s| == 2
  {
    [Digit(n / 10), Digit(n % 10)]
  }

  function Four(n: nat): (s: string)
    requires n < 10000
    ensures |s| == 4
  {
    Two(n / 100) + Two(n % 100)
  }

  lemma TwoInjective(a: nat, b: nat)
    requires a < 100 && b < 100 && Two(a) == Two(b)
    ensures a == b
  {
    assert Digit(a / 10) == Two(a)[0] == Two(b)[0] == Digit(b / 10);
    assert Digit(a % 10) == Two(a)[1] == Two(b)[1] == Digit(b % 10);
  }

  lemma FourInjective(a: nat, b: nat)
    requires a < 10000 && b < 10000 && Four(a) == Four(b)
    ensures a == b
  {
    assert Two(a / 100) == Four(a)[..2] == Four(b)[..2] == Two(b / 100);
    assert Two(a % 100) == Four(a)[2..] == Four(b)[2..] == Two(b % 100);
    TwoInjective(a / 100, b / 100);
    TwoInjective(a % 100, b % 100);
  }

  /** The days a four-digit year can name: `datetime` has no later ones. */
  predicate Datable(day: nat) {
    Civil(day).year <= 9999
  }

  function DateText(day: nat): (s: string)
    requires Datable(day)
    ensures |s| == 10
  {
    var d := Civil(day);
    Four(d.year) + "-" + Two(d.month) + "-" + Two(d.day)
  }

  /** Where the three numbers stand in a date text. */
  lemma DateTextParts(day: nat)
    requires Datable(day)
    ensures var d, s := Civil(day), DateText(day);
            s[..4] == Four(d.year) && s[5..7] == Two(d.month) && s[8..] == Two(d.day)
  {
    hide Four, Two, Civil;
  }

  /** No two days share a date text. */
  lemma DateTextInjective(m: nat, n: nat)
    requires Datable(m) && Datable(n) && DateText(m) == DateText(n)
    ensures m == n
  {
    hide DateText, Four, Two, Before;
    var a, b := Civil(m), Civil(n);
    DateTextParts(m);
    DateTextParts(n);
    FourInjective(a.year, b.year);
    TwoInjective(a.month, b.month);
    TwoInjective(a.day, b.day);
    if m < n {
      LaterDaysHaveLaterDates(m, n);
      NotBeforeItself(a);
    } else if n < m {
      LaterDaysHaveLaterDates(n, m);
      NotBeforeItself(a);
    }
  }

  // ---- the calendar by counting days ------------------------------------------------------------------------

  /** Leap days in the years before `year`: every fourth, but for centuries, but for every fourth century. */
  function LeapDays(year: nat): int
    requires year >= 1
  {
    (year - 1) / 4 - (year - 1) / 100 + (year - 1) / 400
  }

  /** Days from 1970-01-01 to the first of January. */
  function NewYear(year: nat): int
    requires year >= 1
  {
    365 * (year - 1970) + LeapDays(year) - LeapDays(1970)
  }

  /** Days before each month of a year without a leap day. */
  const BEFORE_MONTH: seq<nat> := [0, 31, 59, 90, 120, 151, 181, 212, 243, 273, 304, 334]

  /** The days from 1970-01-01 to `d`, by the Gregorian rule. */
  function DayNumber(d: Date): int
    requires Proper(d) && d.year >= 1
  {
    NewYear(d.year) + BEFORE_MONTH[d.month - 1] + (if d.month > 2 then LeapDays(d.year + 1) - LeapDays(d.year) else 0)
    + d.day - 1
  }

  lemma LeapDayCounts(year: nat)
    requires year >= 1
    ensures LeapDays(year + 1) - LeapDays(year) == if IsLeap(year) then 1 else 0
  {
    assert year / 4 - (year - 1) / 4 == if year % 4 == 0 then 1 else 0;
    assert year / 100 - (year - 1) / 100 == if year % 100 == 0 then 1 else 0;
    assert year / 400 - (year - 1) / 400 == if year % 400 == 0 then 1 else 0;
  }

  lemma NextDayIsOneMore(d: Date)
    requires Proper(d) && d.year >= 1
    ensures Proper(NextDate(d)) && NextDate(d).year >= 1 && DayNumber(NextDate(d)) == DayNumber(d) + 1
  {
    LeapDayCounts(d.year);
  }

  /** The n-th day is the date that the Gregorian rule counts n days to. */
  lemma {:induction false} CivilCounts(n: nat)
    ensures Civil(n).year >= 1970 && DayNumber(Civil(n)) == n
  {
    if n != 0 {
      CivilCounts(n - 1);
      NextDayIsOneMore(Civil(n - 1));
    }
  }

  /** What a text of digits says. */
  function Reads(s: string): int {
    if s == "" then 0 else 10 * Reads(s[..|s| - 1]) + (s[|s| - 1] as int - '0' as int)
  }

  lemma TwoReads(n: nat)
    requires n < 100
    ensures Reads(Two(n)) == n
  {
    assert Two(n)[..1] == [Digit(n / 10)] && [Digit(n / 10)][..0] == "";
    assert Reads([Digit(n / 10)]) == n / 10;
  }

  lemma {:induction false} ReadsMore(a: string, b: string)
    requires |b| == 2
    ensures Reads(a + b) == 100 * Reads(a) + Reads(b)
  {
    var s := a + b;
    assert s[..|s| - 1] == a + b[..1] && (a + b[..1])[..|a|] == a && b[..1][..0] == "";
    assert Reads(b[..1]) == b[0] as int - '0' as int;
    assert Reads(a + b[..1]) == 10 * Reads(a) + (b[0] as int - '0' as int);
  }

  /** A day's text is year, month and day, four, two and two digits, with hyphens between. */
  lemma DateTextReads(day: nat)
    requires Datable(day)
    ensures var s := DateText(day);
            && s[4] == '-' && s[7] == '-'
            && Reads(s[..4]) == Civil(day).year && Reads(s[5..7]) == Civil(day).month && Reads(s[8..]) == Civil(day).day
  {
    var d := Civil(day);
    DateTextParts(day);
    TwoReads(d.year / 100);
    TwoReads(d.year % 100);
    ReadsMore(Two(d.year / 100), Two(d.year % 100));
    TwoReads(d.month);
    TwoReads(d.day);
  }
}
