/**
 `format_utc_compact` (crates/link/src-tauri/src/setup.rs:1336-1364): seconds since
 1970 as `YYYYMMDD_HHMMSS`, by the civil-from-days arithmetic, against the
 Gregorian calendar itself.
 */
module Calendar {

  datatype Date = Date(year: int, month: int, day: int)

  // ------------------------------------------------- the Gregorian calendar

  predicate IsLeap(y: int) { y % 4 == 0 && (y % 100 != 0 || y % 400 == 0) }

  function DaysInMonth(y: int, m: int): (n: int)
    requires 1 <= m <= 12
  {
    if m == 2 then (if IsLeap(y) then 29 else 28)
    else if m == 4 || m == 6 || m == 9 || m == 11 then 30
    else 31
  }

  predicate IsDate(d: Date) { 1 <= d.month <= 12 && 1 <= d.day <= DaysInMonth(d.year, d.month) }

  function NextDay(d: Date): (r: Date)
    requires IsDate(d)
    ensures IsDate(r)
  {
    if d.day < DaysInMonth(d.year, d.month) then d.(day := d.day + 1)
    else if d.month < 12 then Date(d.year, d.month + 1, 1)
    else Date(d.year + 1, 1, 1)
  }

  /** The date `n` days after 1970-01-01, counted one day at a time. */
  function DateAfter(n: nat): (d: Date)
    ensures IsDate(d)
  {
    if n == 0 then Date(1970, 1, 1) else NextDay(DateAfter(n - 1))
  }

  // ------------------------------------------------- the arithmetic of the code

  // Day of era to year of era; the era starts on 1 March of a year divisible by 400.
  function YearOfEra(doe: int): (yoe: int) {
    (doe - doe / 1460 + doe / 36_524 - doe / 146_096) / 365
  }

  // First day of year `y` within its era.
  function YearStart(y: int): (n: int) { 365 * y + y / 4 - y / 100 }

  function MonthStart(mp: int): (n: int) { (153 * mp + 2) / 5 }

  function MonthIndex(doy: int): (mp: int) { (5 * doy + 2) / 153 }

  // Day `doy` of the year that starts on 1 March of `y`.
  function CivilInYear(y: int, doy: int): (d: Date) {
    var mp := MonthIndex(doy);
    var day := doy - MonthStart(mp) + 1;
    var month := if mp < 10 then mp + 3 else mp - 9;
    Date(if month <= 2 then y + 1 else y, month, day)
  }

  function CivilFromEra(era: int, doe: int): (d: Date) {
    var yoe := YearOfEra(doe);
    CivilInYear(yoe + era * 400, doe - YearStart(yoe))
  }

  function CivilFromDays(days: nat): (d: Date) {
    var z := days + 719_468;
    var era := z / 146_097;
    CivilFromEra(era, z - era * 146_097)
  }

  // -------------------------------------------------- years within an era

  // Length of the year that starts on 1 March of `y`: it contains February of y + 1.
  function YearLength(y: int): (n: int) { if IsLeap(y + 1) then 366 else 365 }

  lemma YearsAbut(y: int)
    requires 0 <= y < 400
    ensures YearStart(y) + YearLength(y) == if y < 399 then YearStart(y + 1) else 146_097
  {
    var c, t := y / 100, y % 100;
    var u, b := t / 4, t % 4;
    assert y == 100 * c + 4 * u + b;
    YearStartParts(c, u, b);
    YearLengthParts(c, u, b);
    if b < 3 {
      YearStartParts(c, u, b + 1);
    } else if u < 24 {
      YearStartParts(c, u + 1, 0);
    } else if c < 3 {
      YearStartParts(c + 1, 0, 0);
    }
  }

  lemma YearLengthParts(c: int, u: int, b: int)
    requires 0 <= c < 4 && 0 <= u < 25 && 0 <= b < 4
    ensures YearLength(100 * c + 4 * u + b) == if b == 3 && (u < 24 || c == 3) then 366 else 365
  {
    var n := 100 * c + 4 * u + b + 1;
    if b < 3 {
      assert n == 4 * (25 * c + u) + b + 1;
    } else if u < 24 {
      assert n == 4 * (25 * c + u + 1) && n % 100 == 4 * u + 4;
    } else {
      assert n == 100 * (c + 1);
    }
  }

  lemma YearStartParts(c: int, u: int, b: int)
    requires 0 <= c < 4 && 0 <= u < 25 && 0 <= b < 4
    ensures YearStart(100 * c + 4 * u + b) == 36_524 * c + 1461 * u + 365 * b
  {
    var y := 100 * c + 4 * u + b;
    assert y / 4 == 25 * c + u && y / 100 == c;
  }

  /** The division formula inverts the layout of years in the era. */
  lemma YearOfEraInverts(y: int, k: int)
    requires 0 <= y < 400 && 0 <= k < YearLength(y)
    ensures YearOfEra(YearStart(y) + k) == y
  {
    var c, t := y / 100, y % 100;
    var u, b := t / 4, t % 4;
    assert y == 100 * c + 4 * u + b;
    YearStartParts(c, u, b);
    YearLengthParts(c, u, b);
    YearOfParts(c, u, b, k);
  }

  // The formula on day `k` of year 100c + 4u + b.
  lemma YearOfParts(c: int, u: int, b: int, k: int)
    requires 0 <= c < 4 && 0 <= u < 25 && 0 <= b < 4 && 0 <= k < 366
    requires k == 365 ==> b == 3 && (u == 24 ==> c == 3)
    ensures YearOfEra(36_524 * c + 1461 * u + 365 * b + k) == 100 * c + 4 * u + b
  {
    var doe := 36_524 * c + 1461 * u + 365 * b + k;
    if doe != 146_096 {
      assert doe / 36_524 == c;
      assert doe / 146_096 == 0;
      var a := 25 * c + u;
      assert doe == 1460 * a + (a + 365 * b - c + k);
      assert doe / 1460 == if a + 365 * b - c + k >= 1460 then a + 1 else a;
    }
  }

  lemma FindYear(doe: int) returns (y: int, k: int)
    requires 0 <= doe <= 146_096
    ensures 0 <= y < 400 && 0 <= k < YearLength(y) && doe == YearStart(y) + k
  {
    y := 0;
    while y < 399 && YearStart(y + 1) <= doe
      invariant 0 <= y < 400 && YearStart(y) <= doe
    {
      y := y + 1;
    }
    k := doe - YearStart(y);
    YearsAbut(y);
  }

  /** The intermediate values of the code stay in the ranges its comments claim. */
  lemma IntermediateRanges(doe: int)
    requires 0 <= doe <= 146_096
    ensures
      var yoe := YearOfEra(doe);
      var doy := doe - YearStart(yoe);
      0 <= yoe <= 399 && 0 <= doy <= 365 && 0 <= MonthIndex(doy) <= 11
  {
    var y, k := FindYear(doe);
    YearOfEraInverts(y, k);
  }

  // -------------------------------------------------- months within a year

  lemma MonthBounds(doy: int)
    requires 0 <= doy <= 365
    ensures 0 <= MonthIndex(doy) <= 11
    ensures MonthStart(MonthIndex(doy)) <= doy < MonthStart(MonthIndex(doy) + 1)
  {
  }

  lemma MonthLayout(y: int, mp: int)
    requires 0 <= mp < 11
    ensures
      var month := if mp < 10 then mp + 3 else mp - 9;
      MonthStart(mp + 1) - MonthStart(mp) == DaysInMonth(if month <= 2 then y + 1 else y, month)
    ensures MonthStart(0) == 0 && MonthStart(11) == 337
  {
  }

  lemma MonthIndexInverts(mp: int, i: int)
    requires 0 <= mp <= 11 && 0 <= i && MonthStart(mp) + i < MonthStart(mp + 1)
    ensures MonthIndex(MonthStart(mp) + i) == mp
  {
  }

  lemma DayStep(y: int, doy: int)
    requires 0 <= doy && doy + 1 < YearLength(y)
    ensures IsDate(CivilInYear(y, doy))
    ensures CivilInYear(y, doy + 1) == NextDay(CivilInYear(y, doy))
  {
    var mp := MonthIndex(doy);
    var i := doy - MonthStart(mp);
    MonthBounds(doy);
    MonthBounds(doy + 1);
    if mp < 11 {
      MonthLayout(y, mp);
    } else {
      MonthLayout(y, 0);
    }
    if doy + 1 < MonthStart(mp + 1) {
      MonthIndexInverts(mp, i + 1);
    } else {
      MonthIndexInverts(mp + 1, 0);
    }
  }

  lemma YearStep(y: int)
    ensures IsDate(CivilInYear(y, YearLength(y) - 1))
    ensures CivilInYear(y + 1, 0) == NextDay(CivilInYear(y, YearLength(y) - 1))
  {
    MonthIndexInverts(11, YearLength(y) - 1 - 337);
    MonthLayout(y, 0);
  }

  // --------------------------------------------------------- main theorem

  lemma Repeats4(x: int, n: int)
    ensures (x + 4 * n) % 4 == x % 4
  {
  }

  lemma Repeats100(x: int, n: int)
    ensures (x + 100 * n) % 100 == x % 100
  {
  }

  lemma Repeats400(x: int, n: int)
    ensures (x + 400 * n) % 400 == x % 400
  {
  }

  lemma LeapRepeats(era: int, y: int)
    ensures YearLength(y + era * 400) == YearLength(y)
  {
    Repeats4(y + 1, 100 * era);
    Repeats100(y + 1, 4 * era);
    Repeats400(y + 1, era);
  }

  lemma CivilAt(days: nat, era: int, y: int, k: int)
    requires 0 <= y < 400 && 0 <= k < YearLength(y)
    requires days + 719_468 == era * 146_097 + YearStart(y) + k
    ensures CivilFromDays(days) == CivilInYear(y + era * 400, k)
  {
    YearsAbut(y);
    YearStartBound(y);
    YearOfEraInverts(y, k);
    assert (days + 719_468) / 146_097 == era;
  }

  lemma YearStartBound(y: int)
    requires 0 <= y < 400
    ensures 0 <= YearStart(y) && YearStart(y) + YearLength(y) <= 146_097
  {
  }

  // The year, counted from 1 March, and the day in it that follow day `k` of year `y` of that length.
  function Following(y: int, k: int, length: int): (r: (int, int)) {
    if k + 1 < length then (y, k + 1) else (y + 1, 0)
  }

  lemma FollowingDay(y: int, k: int)
    requires 0 <= k < YearLength(y)
    ensures IsDate(CivilInYear(y, k))
    ensures var f := Following(y, k, YearLength(y)); CivilInYear(f.0, f.1) == NextDay(CivilInYear(y, k))
  {
    if k + 1 < YearLength(y) {
      DayStep(y, k);
    } else {
      YearStep(y);
    }
  }

  lemma FollowingCount(days: nat, era: int, y: int, k: int, year: int, day: int)
    requires 0 <= y < 400 && 0 <= k < YearLength(y)
    requires days + 719_468 == era * 146_097 + YearStart(y) + k
    requires (year, day) == Following(y + era * 400, k, YearLength(y))
    ensures CivilFromDays(days + 1) == CivilInYear(year, day)
  {
    if k + 1 < YearLength(y) {
      CivilAt(days + 1, era, y, day);
    } else {
      FollowingYear(days, era, y, k, year);
    }
  }

  lemma FollowingYear(days: nat, era: int, y: int, k: int, year: int)
    requires 0 <= y < 400 && k + 1 == YearLength(y) && year == y + era * 400 + 1
    requires days + 719_468 == era * 146_097 + YearStart(y) + k
    ensures CivilFromDays(days + 1) == CivilInYear(year, 0)
  {
    YearsAbut(y);
    if y < 399 {
      CivilAt(days + 1, era, y + 1, 0);
    } else {
      CivilAt(days + 1, era + 1, 0, 0);
    }
  }

  lemma CivilStepFrom(days: nat, era: int, y: int, k: int, year: int)
    requires 0 <= y < 400 && 0 <= k < YearLength(y) && year == y + era * 400 && YearLength(year) == YearLength(y)
    requires days + 719_468 == era * 146_097 + YearStart(y) + k
    ensures IsDate(CivilFromDays(days)) && CivilFromDays(days + 1) == NextDay(CivilFromDays(days))
  {
    var next := Following(year, k, YearLength(y));
    CivilAtYear(days, era, y, k, year);
    FollowingCount(days, era, y, k, next.0, next.1);
    FollowingDay(year, k);
  }

  lemma CivilAtYear(days: nat, era: int, y: int, k: int, year: int)
    requires 0 <= y < 400 && 0 <= k < YearLength(y) && year == y + era * 400
    requires days + 719_468 == era * 146_097 + YearStart(y) + k
    ensures CivilFromDays(days) == CivilInYear(year, k)
  {
    CivilAt(days, era, y, k);
  }

  /** Advancing the day count by one gives the calendar's next day. */
  lemma CivilStep(days: nat)
    ensures IsDate(CivilFromDays(days))
    ensures CivilFromDays(days + 1) == NextDay(CivilFromDays(days))
  {
    var era := (days + 719_468) / 146_097;
    var y, k := FindYear(days + 719_468 - era * 146_097);
    LeapRepeats(era, y);
    CivilStepFrom(days, era, y, k, y + era * 400);
  }

  lemma Epoch()
    ensures CivilFromDays(0) == Date(1970, 1, 1)
  {
    assert YearStart(369) == 134_774;
    CivilAt(0, 4, 369, 306);
    assert MonthIndex(306) == 10 && MonthStart(10) == 306;
  }

  /** For every day count the code computes the proleptic Gregorian date. */
  lemma {:induction false} CivilIsGregorian(days: nat)
    ensures CivilFromDays(days) == DateAfter(days)
    decreases days
  {
    if days == 0 {
      Epoch();
    } else {
      CivilIsGregorian(days - 1);
      NextOfPrevious(days);
    }
  }

  lemma {:induction false} NextOfPrevious(days: nat)
    requires days > 0 && CivilFromDays(days - 1) == DateAfter(days - 1)
    ensures CivilFromDays(days) == DateAfter(days)
  {
    CivilStep(days - 1);
  }
}
