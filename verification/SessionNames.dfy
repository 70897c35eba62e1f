/**
 The order of session files: `format_utc_compact` names them
 (crates/link/src-tauri/src/setup.rs:593-598, 1336-1364) and
 `_get_latest_session_file` takes the last in string order
 (src/link/app/state.py:191-197).
 */
module SessionNames {
  import opened Calendar

  // ------------------------------------------------------------ string order

  /** Strict lexicographic order, shorter first on a tie. */
  predicate Less(a: string, b: string)
    decreases |a|
  {
    b != [] && (a == [] || a[0] < b[0] || (a[0] == b[0] && Less(a[1..], b[1..])))
  }

  lemma {:induction false} LessAfter(p: string, a: string, b: string)
    requires Less(a, b)
    ensures Less(p + a, p + b)
    decreases |p|
  {
    if p == [] {
      assert p + a == a && p + b == b;
    } else {
      LessAfter(p[1..], a, b);
      assert (p + a)[1..] == p[1..] + a && (p + b)[1..] == p[1..] + b;
    }
  }

  lemma {:induction false} LessBefore(a: string, b: string, x: string, y: string)
    requires |a| == |b| && Less(a, b)
    ensures Less(a + x, b + y)
    decreases |a|
  {
    if a[0] == b[0] {
      LessBefore(a[1..], b[1..], x, y);
      assert (a + x)[1..] == a[1..] + x && (b + y)[1..] == b[1..] + y;
    }
  }

  lemma {:induction false} LessIsStrict(a: string, b: string)
    ensures !(Less(a, b) && Less(b, a)) && !Less(a, a)
    decreases |a|
  {
    if a != [] && b != [] {
      LessIsStrict(a[1..], b[1..]);
    }
    if a != [] {
      LessIsStrict(a[1..], a[1..]);
    }
  }

  // ---------------------------------------------------------- decimal fields

  function Digit(n: nat): (c: char)
    requires n < 10
  {
    '0' + (n as char)
  }

  /** `{n:0w}`: decimal, zero-padded to at least `w` places. */
  function PadDec(n: nat, w: nat): (r: string)
    decreases n, w
  {
    if n == 0 && w == 0 then "" else PadDec(n / 10, if w == 0 then 0 else w - 1) + [Digit(n % 10)]
  }

  function Pow10(w: nat): (r: nat)
    ensures r > 0
  {
    if w == 0 then 1 else 10 * Pow10(w - 1)
  }

  lemma {:induction false} PadDecWidth(n: nat, w: nat)
    requires n < Pow10(w)
    ensures |PadDec(n, w)| == w
    decreases w
  {
    if w > 0 {
      PadDecWidth(n / 10, w - 1);
    }
  }

  /** In a fixed width, smaller numbers are smaller strings. */
  lemma {:induction false} PadDecOrder(a: nat, b: nat, w: nat)
    requires a < b < Pow10(w)
    ensures Less(PadDec(a, w), PadDec(b, w))
    decreases w
  {
    var p, q := PadDec(a / 10, w - 1), PadDec(b / 10, w - 1);
    PadDecWidth(a / 10, w - 1);
    PadDecWidth(b / 10, w - 1);
    if a / 10 < b / 10 {
      PadDecOrder(a / 10, b / 10, w - 1);
      LessBefore(p, q, [Digit(a % 10)], [Digit(b % 10)]);
    } else {
      assert a % 10 < b % 10;
      LessAfter(p, [Digit(a % 10)], [Digit(b % 10)]);
    }
  }

  // A row of fields, each with its width and the text that follows it.
  datatype Field = Field(width: nat, suffix: string)

  function Render(values: seq<nat>, fields: seq<Field>): (r: string)
    requires |values| == |fields|
    decreases |values|
  {
    if values == [] then "" else PadDec(values[0], fields[0].width) + fields[0].suffix + Render(values[1..], fields[1..])
  }

  predicate Before(a: seq<nat>, b: seq<nat>)
    requires |a| == |b|
    decreases |a|
  {
    a != [] && (a[0] < b[0] || (a[0] == b[0] && Before(a[1..], b[1..])))
  }

  predicate Fits(values: seq<nat>, fields: seq<Field>) {
    |values| == |fields| && forall i :: 0 <= i < |values| ==> values[i] < Pow10(fields[i].width)
  }

  lemma {:induction false} RenderOrder(a: seq<nat>, b: seq<nat>, fields: seq<Field>)
    requires Fits(a, fields) && Fits(b, fields) && Before(a, b)
    ensures Less(Render(a, fields), Render(b, fields))
    decreases |a|
  {
    var w, suffix := fields[0].width, fields[0].suffix;
    var restA, restB := Render(a[1..], fields[1..]), Render(b[1..], fields[1..]);
    if a[0] < b[0] {
      PadDecWidth(a[0], w);
      PadDecWidth(b[0], w);
      PadDecOrder(a[0], b[0], w);
      LessBefore(PadDec(a[0], w), PadDec(b[0], w), suffix + restA, suffix + restB);
      assert PadDec(a[0], w) + suffix + restA == PadDec(a[0], w) + (suffix + restA);
      assert PadDec(b[0], w) + suffix + restB == PadDec(b[0], w) + (suffix + restB);
    } else {
      RenderOrder(a[1..], b[1..], fields[1..]);
      LessAfter(PadDec(a[0], w) + suffix, restA, restB);
    }
  }

  // -------------------------------------------------------------- time stamps

  lemma {:induction false} YearsFrom1970(days: nat)
    ensures DateAfter(days).year >= 1970
    decreases days
  {
    if days > 0 {
      YearsFrom1970(days - 1);
    }
  }

  function Fields(d: Date, tod: nat): (v: seq<nat>)
    requires IsDate(d) && d.year >= 0 && tod < 86_400
    ensures |v| == 6 && d == Date(v[0], v[1], v[2])
    ensures v[3] < 24 && v[4] < 60 && v[5] < 60 && tod == 3600 * v[3] + 60 * v[4] + v[5]
  {
    var h, m := tod / 3600, (tod % 3600) / 60;
    assert tod % 60 == (tod % 3600) % 60;
    [d.year, d.month, d.day, h, m, tod % 60]
  }

  /** Year, month, day, hour, minute, second, as the code computes them. */
  function Values(secs: nat): (v: seq<nat>)
    ensures IsStamp(secs, v)
  {
    CivilIsGregorian(secs / 86_400);
    YearsFrom1970(secs / 86_400);
    Fields(CivilFromDays(secs / 86_400), secs % 86_400)
  }

  /** The same six fields, from the calendar. */
  predicate IsStamp(secs: nat, v: seq<nat>) {
    var d, tod := DateAfter(secs / 86_400), secs % 86_400;
    && |v| == 6
    && d == Date(v[0], v[1], v[2])
    && v[3] < 24 && v[4] < 60 && v[5] < 60
    && tod == 3600 * v[3] + 60 * v[4] + v[5]
  }

  const LAYOUT: seq<Field> :=
    [Field(4, ""), Field(2, ""), Field(2, "_"), Field(2, ""), Field(2, ""), Field(2, "")]

  function FormatUtcCompact(secs: nat): (r: string) { Render(Values(secs), LAYOUT) }

  predicate DateBefore(a: Date, b: Date) {
    a.year < b.year || (a.year == b.year && (a.month < b.month || (a.month == b.month && a.day < b.day)))
  }

  lemma {:induction false} LaterDays(a: nat, b: nat)
    requires a < b
    ensures DateBefore(DateAfter(a), DateAfter(b))
    decreases b
  {
    if a < b - 1 {
      LaterDays(a, b - 1);
    }
  }

  lemma {:induction false} LaterSeconds(a: nat, b: nat, x: seq<nat>, y: seq<nat>)
    requires a < b && IsStamp(a, x) && IsStamp(b, y)
    ensures Before(x, y)
  {
    if a / 86_400 < b / 86_400 {
      LaterDays(a / 86_400, b / 86_400);
      BeforeByDate(x, y);
    } else {
      BeforeByTime(x, y);
    }
  }

  lemma {:induction false} BeforeByDate(x: seq<nat>, y: seq<nat>)
    requires |x| == |y| == 6 && DateBefore(Date(x[0], x[1], x[2]), Date(y[0], y[1], y[2]))
    ensures Before(x, y)
  {
    assert x[1..][0] == x[1] && y[1..][0] == y[1];
    assert x[1..][1..][0] == x[2] && y[1..][1..][0] == y[2];
    assert x[2] < y[2] ==> Before(x[1..][1..], y[1..][1..]);
  }

  lemma {:induction false} BeforeByTime(x: seq<nat>, y: seq<nat>)
    requires |x| == |y| == 6 && x[0] == y[0] && x[1] == y[1] && x[2] == y[2]
    requires x[4] < 60 && x[5] < 60 && y[4] < 60 && y[5] < 60
    requires 3600 * x[3] + 60 * x[4] + x[5] < 3600 * y[3] + 60 * y[4] + y[5]
    ensures Before(x, y)
  {
    var x3, y3 := x[1..][1..][1..], y[1..][1..][1..];
    assert x3 == [x[3], x[4], x[5]] && y3 == [y[3], y[4], y[5]];
    assert x3[1..] == [x[4], x[5]] && y3[1..] == [y[4], y[5]];
    assert x3[1..][1..] == [x[5]] && y3[1..][1..] == [y[5]];
    assert Before(x3, y3);
    assert x[1..][1..][0] == x[2] && y[1..][1..][0] == y[2];
    assert Before(x[1..][1..], y[1..][1..]);
    assert Before(x[1..], y[1..]);
  }

  predicate FourDigitYear(secs: nat) { DateAfter(secs / 86_400).year <= 9999 }

  lemma ValuesFit(secs: nat)
    requires FourDigitYear(secs)
    ensures Fits(Values(secs), LAYOUT)
  {
    assert Pow10(2) == 100 by { assert Pow10(1) == 10; }
    assert Pow10(4) == 10_000 by { assert Pow10(3) == 1000; }
  }

  /** Up to the year 9999, later times have strictly greater names. */
  lemma FormatOrder(a: nat, b: nat)
    requires a < b && FourDigitYear(a) && FourDigitYear(b)
    ensures Less(FormatUtcCompact(a), FormatUtcCompact(b))
  {
    LaterSeconds(a, b, Values(a), Values(b));
    ValuesFit(a);
    ValuesFit(b);
    RenderOrder(Values(a), Values(b), LAYOUT);
  }

  // ------------------------------------------------------- the newest session

  function SessionName(secs: nat): (r: string) { "session_" + FormatUtcCompact(secs) + ".json" }

  /** `sorted(files)[-1]` */
  function LastSorted(files: seq<string>): (r: string)
    requires files != []
    ensures r in files
  {
    if |files| == 1 then files[0]
    else
      var rest := LastSorted(files[1..]);
      if Less(rest, files[0]) then files[0] else rest
  }

  function NamesOf(times: seq<nat>): (r: seq<string>)
    ensures |r| == |times| && forall i :: 0 <= i < |times| ==> r[i] == SessionName(times[i])
  {
    seq(|times|, i requires 0 <= i < |times| => SessionName(times[i]))
  }

  lemma SessionOrder(a: nat, b: nat)
    requires a < b && FourDigitYear(a) && FourDigitYear(b)
    ensures Less(SessionName(a), SessionName(b))
  {
    FormatOrder(a, b);
    FormatLength(a);
    FormatLength(b);
    LessBefore(FormatUtcCompact(a), FormatUtcCompact(b), ".json", ".json");
    LessAfter("session_", FormatUtcCompact(a) + ".json", FormatUtcCompact(b) + ".json");
    assert SessionName(a) == "session_" + (FormatUtcCompact(a) + ".json");
    assert SessionName(b) == "session_" + (FormatUtcCompact(b) + ".json");
  }

  lemma FormatLength(secs: nat)
    requires FourDigitYear(secs)
    ensures |FormatUtcCompact(secs)| == 15
  {
    ValuesFit(secs);
    RenderLength(Values(secs), LAYOUT);
  }

  function TotalWidth(fields: seq<Field>): (n: nat)
    decreases |fields|
  {
    if fields == [] then 0 else fields[0].width + |fields[0].suffix| + TotalWidth(fields[1..])
  }

  lemma {:induction false} RenderLength(values: seq<nat>, fields: seq<Field>)
    requires Fits(values, fields)
    ensures |Render(values, fields)| == TotalWidth(fields)
    decreases |values|
  {
    if values != [] {
      PadDecWidth(values[0], fields[0].width);
      RenderLength(values[1..], fields[1..]);
    }
  }

  // A sequence of keys and names in which greater keys have greater names.
  ghost predicate SameOrder(keys: seq<nat>, names: seq<string>) {
    && |keys| == |names|
    && (forall i, j :: 0 <= i < |keys| && 0 <= j < |keys| && keys[i] < keys[j] ==> Less(names[i], names[j]))
    && (forall i, j :: 0 <= i < |keys| && 0 <= j < |keys| && keys[i] == keys[j] ==> names[i] == names[j])
  }

  lemma {:induction false} LastSortedHasGreatestKey(keys: seq<nat>, names: seq<string>) returns (k: nat)
    requires keys != [] && SameOrder(keys, names)
    ensures k < |keys| && LastSorted(names) == names[k]
    ensures forall i :: 0 <= i < |keys| ==> keys[i] <= keys[k]
    decreases |keys|
  {
    if |keys| == 1 {
      k := 0;
    } else {
      assert SameOrder(keys[1..], names[1..]) by {
        assert forall i :: 0 <= i < |keys| - 1 ==> keys[1..][i] == keys[i + 1] && names[1..][i] == names[i + 1];
      }
      var r := LastSortedHasGreatestKey(keys[1..], names[1..]);
      assert forall i :: 1 <= i < |keys| ==> keys[i] == keys[1..][i - 1];
      LessIsStrict(names[0], names[r + 1]);
      k := if keys[r + 1] < keys[0] then 0 else r + 1;
    }
  }

  /** Among session files of four-digit years, the last in string order is the latest. */
  lemma {:induction false} LastSortedIsLatest(times: seq<nat>) returns (latest: nat)
    requires times != [] && forall i :: 0 <= i < |times| ==> FourDigitYear(times[i])
    ensures latest in times && forall i :: 0 <= i < |times| ==> times[i] <= latest
    ensures LastSorted(NamesOf(times)) == SessionName(latest)
  {
    var names := NamesOf(times);
    forall i, j | 0 <= i < |times| && 0 <= j < |times| && times[i] < times[j] ensures Less(names[i], names[j]) {
      SessionOrder(times[i], times[j]);
    }
    var k := LastSortedHasGreatestKey(times, names);
    latest := times[k];
  }

  /** The last second of the year 9999. */
  const LAST_SECOND: nat := 253_402_300_799

  lemma YearOfLastSecond()
    ensures DateAfter(LAST_SECOND / 86_400).year == 9999 && DateAfter((LAST_SECOND + 1) / 86_400).year == 10_000
  {
    assert LAST_SECOND / 86_400 == 2_932_896 && (LAST_SECOND + 1) / 86_400 == 2_932_897;
    CivilAt(2_932_896, 24, 399, 305);
    CivilAt(2_932_897, 24, 399, 306);
    CivilIsGregorian(2_932_896);
    CivilIsGregorian(2_932_897);
  }

  /** The first second of the year 10000 sorts before the last of 9999. */
  lemma FiveDigitYearsSortWrong()
    ensures Less(FormatUtcCompact(LAST_SECOND + 1), FormatUtcCompact(LAST_SECOND))
  {
    YearOfLastSecond();
    CivilIsGregorian(LAST_SECOND / 86_400);
    CivilIsGregorian((LAST_SECOND + 1) / 86_400);
    assert Values(LAST_SECOND)[0] == 9999 && Values(LAST_SECOND + 1)[0] == 10_000;
    StartsWith(9999, '9');
    StartsWith(10_000, '1');
    assert FormatUtcCompact(LAST_SECOND)[0] == '9';
    assert FormatUtcCompact(LAST_SECOND + 1)[0] == '1';
  }

  lemma {:induction false} YearsGrow(a: nat, b: nat)
    requires a <= b
    ensures DateAfter(a / 86_400).year <= DateAfter(b / 86_400).year
  {
    if a / 86_400 < b / 86_400 {
      LaterDays(a / 86_400, b / 86_400);
    }
  }

  lemma FourDigitsIff(secs: nat)
    ensures FourDigitYear(secs) <==> secs <= LAST_SECOND
  {
    YearOfLastSecond();
    if secs <= LAST_SECOND {
      YearsGrow(secs, LAST_SECOND);
    } else {
      YearsGrow(LAST_SECOND + 1, secs);
    }
  }

  /** Names sort by time up to `limit`. */
  ghost predicate SortsByTime(limit: nat) {
    forall a: nat, b: nat :: a < b <= limit ==> Less(FormatUtcCompact(a), FormatUtcCompact(b))
  }

  /** All names up to a time sort by time if and only if that time is in a four-digit year. */
  lemma SortsByTimeIff(limit: nat)
    ensures SortsByTime(limit) <==> FourDigitYear(limit)
  {
    FourDigitsIff(limit);
    if FourDigitYear(limit) {
      forall a: nat, b: nat | a < b <= limit ensures Less(FormatUtcCompact(a), FormatUtcCompact(b)) {
        FourDigitsIff(a);
        FourDigitsIff(b);
        FormatOrder(a, b);
      }
    } else {
      FiveDigitYearsSortWrong();
      LessIsStrict(FormatUtcCompact(LAST_SECOND + 1), FormatUtcCompact(LAST_SECOND));
    }
  }

  lemma {:induction false} StartsWith(year: nat, c: char)
    requires (year == 9999 && c == '9') || (year == 10_000 && c == '1')
    ensures PadDec(year, 4) != [] && PadDec(year, 4)[0] == c
  {
    assert PadDec(0, 0) == "";
    if year == 9999 {
      assert PadDec(9, 1) == ['9'];
      assert PadDec(99, 2) == ['9', '9'];
      assert PadDec(999, 3) == ['9', '9', '9'];
    } else {
      assert PadDec(1, 0) == ['1'];
      assert PadDec(10, 1) == ['1', '0'];
      assert PadDec(100, 2) == ['1', '0', '0'];
      assert PadDec(1000, 3) == ['1', '0', '0', '0'];
    }
  }
}
