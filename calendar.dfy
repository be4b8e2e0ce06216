/** The part of Python's `datetime.date` the agents use: the proleptic Gregorian
    calendar, dates as ordinals, `date + timedelta(days=k)`, `weekday()`,
    `isoformat()`, `fromisoformat()` for the `YYYY-MM-DD` form, and the English
    `strftime` directives `%A %d %B %b %Y`. */
module Calendar {
  import opened Wrappers
  import opened Text

  /** `date.max.toordinal()`, the ordinal of 31 December 9999. */
  const MaxOrdinal: int := 3652059

  /** A Python `date`, by its ordinal: 1 January of year 1 is day 1. */
  type Ordinal = n: int | 1 <= n <= MaxOrdinal witness 1

  /** Year, month and day, the fields `date(year, month, day)` is built from. */
  datatype YMD = YMD(year: int, month: int, day: int)

  predicate IsLeap(y: int) {
    y % 4 == 0 && (y % 100 != 0 || y % 400 == 0)
  }

  function DaysInYear(y: int): int {
    if IsLeap(y) then 366 else 365
  }

  function DaysInMonth(y: int, m: int): int
    requires 1 <= m <= 12
  {
    if m == 2 then (if IsLeap(y) then 29 else 28)
    else if m == 4 || m == 6 || m == 9 || m == 11 then 30
    else 31
  }

  /** Days in the months of year `y` before month `m`. */
  function DaysBeforeMonth(y: int, m: int): int
    requires 1 <= m <= 12
  {
    [0, 31, 59, 90, 120, 151, 181, 212, 243, 273, 304, 334][m - 1]
    + (if m > 2 && IsLeap(y) then 1 else 0)
  }

  /** Days in the years before year `y`. */
  function DaysBeforeYear(y: int): int
    requires y >= 1
  {
    var p := y - 1;
    p * 365 + p / 4 - p / 100 + p / 400
  }

  /** The months tile the year. */
  lemma MonthStep(y: int, m: int)
    requires 1 <= m <= 12
    ensures DaysBeforeMonth(y, m) + DaysInMonth(y, m)
            == if m == 12 then DaysInYear(y) else DaysBeforeMonth(y, m + 1)
  {
  }

  /** The years tile the ordinals. */
  lemma YearStep(y: int)
    requires y >= 1
    ensures DaysBeforeYear(y + 1) == DaysBeforeYear(y) + DaysInYear(y)
  {
    var p := y - 1;
    DivStep(y, 4);
    DivStep(y, 100);
    DivStep(y, 400);
    Divisibility(y);
    assert DaysBeforeYear(y + 1) - DaysBeforeYear(y)
           == 365 + (y / 4 - p / 4) - (y / 100 - p / 100) + (y / 400 - p / 400);
  }

  /** A multiple of 400 is a multiple of 100, which is a multiple of 4. */
  lemma Divisibility(y: int)
    ensures y % 400 == 0 ==> y % 100 == 0
    ensures y % 100 == 0 ==> y % 4 == 0
  {
    if y % 400 == 0 {
      var t := 4 * (y / 400);
      assert y == 100 * t;
      Hundreds(t);
    }
    if y % 100 == 0 {
      var t := 25 * (y / 100);
      assert y == 4 * t;
      Fours(t);
    }
  }

  lemma Hundreds(t: int)
    ensures (100 * t) % 100 == 0
  {
  }

  lemma Fours(t: int)
    ensures (4 * t) % 4 == 0
  {
  }

  /** Going from `y - 1` to `y`, the quotient by `k` grows exactly when `k` divides `y`. */
  lemma DivStep(y: int, k: int)
    requires k == 4 || k == 100 || k == 400
    ensures y / k - (y - 1) / k == if y % k == 0 then 1 else 0
  {
    if k == 4 {
      assert y / 4 - (y - 1) / 4 == if y % 4 == 0 then 1 else 0;
    } else if k == 100 {
      assert y / 100 - (y - 1) / 100 == if y % 100 == 0 then 1 else 0;
    } else {
      assert y / 400 - (y - 1) / 400 == if y % 400 == 0 then 1 else 0;
    }
  }

  lemma {:induction false} YearMonotone(a: int, b: int)
    requires 1 <= a <= b
    ensures DaysBeforeYear(a) + (b - a) * 365 <= DaysBeforeYear(b)
    decreases b - a
  {
    if a < b {
      YearMonotone(a, b - 1);
      YearStep(b - 1);
    }
  }

  /** A real calendar date with a year `date` accepts (1 to 9999). */
  predicate ValidYMD(d: YMD) {
    && 1 <= d.year <= 9999
    && 1 <= d.month <= 12
    && 1 <= d.day <= DaysInMonth(d.year, d.month)
  }

  /** `date(y, m, d).toordinal()`. */
  function ToOrdinal(d: YMD): (n: Ordinal)
    requires ValidYMD(d)
    ensures DaysBeforeYear(d.year) < n <= DaysBeforeYear(d.year + 1)
  {
    DayWithinYear(d);
    DaysBeforeYear(d.year) + DaysBeforeMonth(d.year, d.month) + d.day
  }

  /** A valid date's day of the year lies inside its year, and its year ends by
      `date.max`. */
  lemma DayWithinYear(d: YMD)
    requires ValidYMD(d)
    ensures 1 <= DaysBeforeMonth(d.year, d.month) + d.day <= DaysInYear(d.year)
    ensures DaysBeforeYear(d.year + 1) == DaysBeforeYear(d.year) + DaysInYear(d.year) <= MaxOrdinal
  {
    MonthStep(d.year, d.month);
    YearStep(d.year);
    YearMonotone(d.year + 1, 10000);
    assert DaysBeforeYear(10000) == MaxOrdinal;
  }

  /** The year holding ordinal `n`, searched upwards from year `y`. */
  function YearOf(n: int, y: int): (r: int)
    requires 1 <= y <= 9999 && DaysBeforeYear(y) < n <= MaxOrdinal
    ensures y <= r <= 9999 && DaysBeforeYear(r) < n <= DaysBeforeYear(r + 1)
    decreases 9999 - y
  {
    if n <= DaysBeforeYear(y + 1) then y else YearOf(n, y + 1)
  }

  /** The month of year `y` holding day `k` of that year, searched upwards from month `m`. */
  function MonthOf(y: int, k: int, m: int): (r: int)
    requires 1 <= m <= 12 && DaysBeforeMonth(y, m) < k <= DaysInYear(y)
    ensures m <= r <= 12 && DaysBeforeMonth(y, r) < k <= DaysBeforeMonth(y, r) + DaysInMonth(y, r)
    decreases 12 - m
  {
    MonthStep(y, m);
    if k <= DaysBeforeMonth(y, m) + DaysInMonth(y, m) then m else MonthOf(y, k, m + 1)
  }

  /** `date.fromordinal(n)`: the valid date whose ordinal is `n`. */
  function FromOrdinal(n: Ordinal): (d: YMD)
    ensures ValidYMD(d) && ToOrdinal(d) == n
  {
    var y := YearOf(n, 1);
    YearStep(y);
    var k := n - DaysBeforeYear(y);
    var m := MonthOf(y, k, 1);
    YMD(y, m, k - DaysBeforeMonth(y, m))
  }

  lemma {:induction false} YearOfFinds(n: int, s: int, y: int)
    requires 1 <= s <= y <= 9999 && DaysBeforeYear(s) < n <= MaxOrdinal
    requires DaysBeforeYear(y) < n <= DaysBeforeYear(y + 1)
    ensures YearOf(n, s) == y
    decreases y - s
  {
    if s < y {
      YearMonotone(s + 1, y);
      YearOfFinds(n, s + 1, y);
    }
  }

  /** A month ends no later than its year. */
  lemma MonthWithinYear(y: int, m: int)
    requires 1 <= m <= 12
    ensures DaysBeforeMonth(y, m) + DaysInMonth(y, m) <= DaysInYear(y)
  {
  }

  lemma {:induction false} MonthOfFinds(y: int, k: int, s: int, m: int)
    requires 1 <= s <= m <= 12 && DaysBeforeMonth(y, s) < k <= DaysInYear(y)
    requires DaysBeforeMonth(y, m) < k <= DaysBeforeMonth(y, m) + DaysInMonth(y, m)
    ensures MonthOf(y, k, s) == m
    decreases m - s
  {
    if s < m {
      MonthStep(y, s);
      MonthOfFinds(y, k, s + 1, m);
    }
  }

  /** `date.fromordinal(d.toordinal()) == d`: every valid date has one ordinal. */
  lemma FromToOrdinal(d: YMD)
    requires ValidYMD(d)
    ensures FromOrdinal(ToOrdinal(d)) == d
  {
    var n := ToOrdinal(d);
    YearOfFinds(n, 1, d.year);
    YearStep(d.year);
    DayOfYearMonth(d);
    FromOrdinalParts(n, d.year, d.month);
  }

  /** The month search finds the month of a valid date from its day of the year. */
  lemma DayOfYearMonth(d: YMD)
    requires ValidYMD(d)
    ensures MonthOf(d.year, ToOrdinal(d) - DaysBeforeYear(d.year), 1) == d.month
    ensures ToOrdinal(d) - DaysBeforeYear(d.year) == DaysBeforeMonth(d.year, d.month) + d.day
  {
    var y := d.year;
    var k := ToOrdinal(d) - DaysBeforeYear(y);
    MonthStep(y, d.month);
    MonthWithinYear(y, d.month);
    MonthOfFinds(y, k, 1, d.month);
  }

  /** `FromOrdinal` once its year and month searches are known. */
  lemma FromOrdinalParts(n: Ordinal, y: int, m: int)
    requires 1 <= y <= 9999 && YearOf(n, 1) == y
    requires DaysBeforeYear(y) < n && n - DaysBeforeYear(y) <= DaysInYear(y) && 1 <= m <= 12
    requires MonthOf(y, n - DaysBeforeYear(y), 1) == m
    ensures FromOrdinal(n) == YMD(y, m, n - DaysBeforeYear(y) - DaysBeforeMonth(y, m))
  {
  }

  /** Different ordinals are different dates. */
  lemma FromOrdinalInjective(a: Ordinal, b: Ordinal)
    requires FromOrdinal(a) == FromOrdinal(b)
    ensures a == b
  {
  }

  /** `date.weekday()`: Monday is 0 and Sunday is 6; 1 January of year 1 was a Monday. */
  function Weekday(n: Ordinal): (w: int)
    ensures 0 <= w <= 6
    ensures n == 1 ==> w == 0
  {
    (n + 6) % 7
  }

  /** Seven days later is the same weekday, and the next day is the next weekday. */
  lemma WeekdayShift(n: Ordinal, k: int)
    requires 1 <= n + k <= MaxOrdinal
    ensures Weekday(n + k) == (Weekday(n) + k) % 7
  {
  }

  /** `date + timedelta(days=k)`: `timedelta` refuses more than 999999999 days and the
      sum must stay within year 1 to year 9999, each otherwise an `OverflowError`. */
  function AddDays(n: Ordinal, k: int): (r: Result<Ordinal>)
    ensures r.Success? <==> -999999999 <= k <= 999999999 && 1 <= n + k <= MaxOrdinal
    ensures r.Success? ==> r.value == n + k
  {
    if k < -999999999 || k > 999999999 then
      Failure(DaysOverflow(k))
    else if n + k < 1 || n + k > MaxOrdinal then Failure("date value out of range")
    else Success(n + k)
  }

  /** The message of the `OverflowError` for a day count `timedelta` refuses. */
  function DaysOverflow(k: int): string {
    "days=" + IntToStr(k) + "; must have magnitude <= 999999999"
  }

  /** Three fields joined by a one-character separator. */
  function Joined3(a: string, sep: char, b: string, c: string): (s: string)
    ensures |s| == |a| + |b| + |c| + 2
    ensures s[|a|] == sep && s[|a| + 1 + |b|] == sep
    ensures s[..|a|] == a && s[|a| + 1..|a| + 1 + |b|] == b && s[|a| + 2 + |b|..] == c
  {
    var s := a + [sep] + b + [sep] + c;
    assert s[..|a|] == a;
    assert s[|a| + 1..|a| + 1 + |b|] == b;
    assert s[|a| + 2 + |b|..] == c;
    s
  }

  /** Text split at two separator positions is the join of its three fields. */
  lemma JoinedSplit(s: string, i: nat, j: nat)
    requires i < j < |s|
    ensures s == Joined3(s[..i], s[i], s[i + 1..j], s[j + 1..]) <== s[j] == s[i]
  {
    if s[j] == s[i] {
      var t := Joined3(s[..i], s[i], s[i + 1..j], s[j + 1..]);
      assert |t| == |s|;
      forall k | 0 <= k < |s| ensures t[k] == s[k] {
        if k < i {
          assert t[k] == t[..i][k];
        } else if i < k < j {
          assert t[k] == t[i + 1..j][k - i - 1];
        } else if j < k {
          assert t[k] == t[j + 1..][k - j - 1];
        }
      }
    }
  }

  /** `date.isoformat()`: `YYYY-MM-DD`, each field zero padded. */
  function Iso(n: Ordinal): (s: string)
    ensures |s| == 10 && s[4] == '-' && s[7] == '-'
  {
    var d := FromOrdinal(n);
    IsoFieldWidths(n);
    Joined3(ZeroPad(d.year, 4), '-', ZeroPad(d.month, 2), ZeroPad(d.day, 2))
  }

  /** The padded year, month and day of a date are four, two and two digits long. */
  lemma IsoFieldWidths(n: Ordinal)
    ensures var d := FromOrdinal(n);
            |ZeroPad(d.year, 4)| == 4 && |ZeroPad(d.month, 2)| == 2 && |ZeroPad(d.day, 2)| == 2
  {
    var d := FromOrdinal(n);
    assert Pow10(4) == 10000 && Pow10(2) == 100;
    ZeroPadWidth(d.year, 4);
    ZeroPadWidth(d.month, 2);
    ZeroPadWidth(d.day, 2);
  }

  /** `date.fromisoformat(s)` for the `YYYY-MM-DD` form: four, two and two ASCII digits
      forming a valid date. None stands for the `ValueError`. */
  function ParseIso(s: string): (r: Option<Ordinal>)
    ensures r.Some? ==> |s| == 10
  {
    if |s| == 10 && s[4] == '-' && s[7] == '-'
       && AllDigits(s[..4]) && AllDigits(s[5..7]) && AllDigits(s[8..])
    then
      var d := YMD(DigitsValue(s[..4]), DigitsValue(s[5..7]), DigitsValue(s[8..]));
      if ValidYMD(d) then Some(ToOrdinal(d)) else None
    else None
  }

  /** `date.fromisoformat(d.isoformat()) == d`. */
  lemma ParseIsoIso(n: Ordinal)
    ensures ParseIso(Iso(n)) == Some(n)
  {
    var d := FromOrdinal(n);
    IsoFieldWidths(n);
    var s := Iso(n);
    assert s[..4] == ZeroPad(d.year, 4);
    assert s[5..7] == ZeroPad(d.month, 2);
    assert s[8..] == ZeroPad(d.day, 2);
  }

  /** The only text `fromisoformat` turns into a date is that date's `isoformat()`. */
  lemma IsoParseIso(s: string)
    requires ParseIso(s).Some?
    ensures Iso(ParseIso(s).value) == s
  {
    var n := ParseIso(s).value;
    var d := YMD(DigitsValue(s[..4]), DigitsValue(s[5..7]), DigitsValue(s[8..]));
    FromToOrdinal(d);
    assert Pow10(4) == 10000 && Pow10(2) == 100;
    ZeroPadExact(d.year, 4, s[..4]);
    ZeroPadExact(d.month, 2, s[5..7]);
    ZeroPadExact(d.day, 2, s[8..]);
    JoinedSplit(s, 4, 7);
  }

  /** The English day names `%A` prints, indexed by `weekday()`. */
  const DayNames: seq<string> :=
    ["Monday", "Tuesday", "Wednesday", "Thursday", "Friday", "Saturday", "Sunday"]

  /** The English month names `%B` prints. */
  const MonthNames: seq<string> :=
    ["January", "February", "March", "April", "May", "June", "July", "August",
     "September", "October", "November", "December"]

  /** `%b`: the first three letters of the month name. */
  function MonthAbbrev(m: int): (r: string)
    requires 1 <= m <= 12
    ensures |r| == 3 && r == MonthNames[m - 1][..3]
  {
    ["Jan", "Feb", "Mar", "Apr", "May", "Jun", "Jul", "Aug", "Sep", "Oct", "Nov", "Dec"][m - 1]
  }

  /** `%Y`: the year in decimal, as the C library prints it. */
  function YearText(n: Ordinal): string {
    NatToStr(FromOrdinal(n).year)
  }

  /** `strftime("%A %d %B %Y")`, such as `Friday 07 March 2025`. */
  function LongDate(n: Ordinal): (s: string)
    ensures StartsWith(s, DayNames[Weekday(n)] + " ")
  {
    var d := FromOrdinal(n);
    var head := DayNames[Weekday(n)] + " ";
    var rest := ZeroPad(d.day, 2) + " " + MonthNames[d.month - 1] + " " + YearText(n);
    PrefixOf(head, rest);
    head + rest
  }

  /** `strftime("%d %b %Y")`, such as `07 Mar 2025`. */
  function ShortDate(n: Ordinal): (s: string)
    ensures |s| >= 8 && s[2] == ' ' && s[6] == ' '
  {
    var d := FromOrdinal(n);
    assert Pow10(2) == 100;
    ZeroPadWidth(d.day, 2);
    Joined3(ZeroPad(d.day, 2), ' ', MonthAbbrev(d.month), YearText(n))
  }
}
