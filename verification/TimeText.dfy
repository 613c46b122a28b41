/**
 Times as the store keeps them: RFC 3339 text with trimmed nanoseconds, always in UTC,
 compared by the database as text (internal/store/store.go, formatTime and parseTime).

 A time is a number of nanoseconds since the start of year 0000.
 */
module TimeText {
  import opened Wrappers

  type Time = int

  const SECOND: int := 1_000_000_000
  const DAY: int := 86_400

  datatype Civil = Civil(year: nat, month: nat, day: nat, hour: nat, minute: nat, second: nat, nanos: nat)

  // The calendar.

  predicate Leap(year: nat) {
    year % 4 == 0 && (year % 100 != 0 || year % 400 == 0)
  }

  function DaysInMonth(year: nat, month: nat): (n: nat)
    ensures 28 <= n <= 31
  {
    if month == 2 then (if Leap(year) then 29 else 28)
    else if month == 4 || month == 6 || month == 9 || month == 11 then 30
    else 31
  }

  function DaysInYear(year: nat): nat {
    if Leap(year) then 366 else 365
  }

  /** Days before 1 January of a year. */
  function YearStart(year: nat): nat {
    if year == 0 then 0 else YearStart(year - 1) + DaysInYear(year - 1)
  }

  /** Days of the year before the first of a month. */
  function MonthStart(year: nat, month: nat): nat {
    if month <= 1 then 0 else MonthStart(year, month - 1) + DaysInMonth(year, month - 1)
  }

  predicate Valid(c: Civil) {
    && 1 <= c.month <= 12 && 1 <= c.day <= DaysInMonth(c.year, c.month)
    && c.hour < 24 && c.minute < 60 && c.second < 60 && c.nanos < SECOND
  }

  function DayNumber(c: Civil): int {
    YearStart(c.year) + MonthStart(c.year, c.month) + c.day - 1
  }

  function Seconds(c: Civil): int {
    DayNumber(c) * DAY + c.hour * 3600 + c.minute * 60 + c.second
  }

  function Instant(c: Civil): Time {
    Seconds(c) * SECOND + c.nanos
  }

  function FindYear(day: nat, year: nat): (found: nat)
    requires YearStart(year) <= day
    ensures YearStart(found) <= day < YearStart(found + 1)
    decreases day - YearStart(year)
  {
    if day < YearStart(year + 1) then year else FindYear(day, year + 1)
  }

  function FindMonth(year: nat, dayOfYear: nat, month: nat): (found: nat)
    requires 1 <= month <= 12 && MonthStart(year, month) <= dayOfYear < DaysInYear(year)
    ensures 1 <= found <= 12 && MonthStart(year, found) <= dayOfYear
    ensures dayOfYear < MonthStart(year, found) + DaysInMonth(year, found)
    decreases 12 - month
  {
    if month == 12 then YearHasItsMonths(year); 12
    else if dayOfYear < MonthStart(year, month + 1) then month
    else FindMonth(year, dayOfYear, month + 1)
  }

  lemma YearHasItsMonths(year: nat)
    ensures MonthStart(year, 12) + DaysInMonth(year, 12) == DaysInYear(year)
  {
    assert MonthStart(year, 2) == 31;
    assert MonthStart(year, 3) == 31 + DaysInMonth(year, 2);
    assert MonthStart(year, 4) == MonthStart(year, 3) + 31;
    assert MonthStart(year, 6) == MonthStart(year, 4) + 61;
    assert MonthStart(year, 8) == MonthStart(year, 6) + 61;
    assert MonthStart(year, 10) == MonthStart(year, 8) + 61;
    assert MonthStart(year, 12) == MonthStart(year, 10) + 61;
  }

  function CivilOfSecond(seconds: nat, nanos: nat): (c: Civil)
    requires nanos < SECOND
    ensures Valid(c) && Seconds(c) == seconds && c.nanos == nanos
  {
    var day, clock := seconds / DAY, seconds % DAY;
    var year := FindYear(day, 0);
    var month := FindMonth(year, day - YearStart(year), 1);
    Civil(year, month, day - YearStart(year) - MonthStart(year, month) + 1,
          clock / 3600, clock % 3600 / 60, clock % 60, nanos)
  }

  /** The date and clock fields of a time. */
  function CivilOf(t: Time): (c: Civil)
    requires t >= 0
    ensures Valid(c) && Instant(c) == t
  {
    CivilOfSecond(t / SECOND, t % SECOND)
  }

  // The calendar is strictly monotone, so the fields of a time are the only valid ones.

  lemma {:induction false} YearsGrow(a: nat, b: nat)
    requires a < b
    ensures YearStart(a) + DaysInYear(a) <= YearStart(b)
  {
    if a + 1 < b {
      YearsGrow(a, b - 1);
    }
  }

  lemma {:induction false} MonthsGrow(year: nat, a: nat, b: nat)
    requires 1 <= a < b
    ensures MonthStart(year, a) + DaysInMonth(year, a) <= MonthStart(year, b)
  {
    if a + 1 < b {
      MonthsGrow(year, a, b - 1);
    }
  }

  lemma MonthInYear(year: nat, month: nat)
    requires 1 <= month <= 12
    ensures MonthStart(year, month) + DaysInMonth(year, month) <= DaysInYear(year)
  {
    YearHasItsMonths(year);
    if month < 12 {
      MonthsGrow(year, month, 12);
    }
  }

  /** Calendar order of the date and clock fields, seconds included. */
  predicate Before(a: Civil, b: Civil) {
    || a.year < b.year
    || (a.year == b.year && (|| a.month < b.month
    || (a.month == b.month && (|| a.day < b.day
    || (a.day == b.day && (|| a.hour < b.hour
    || (a.hour == b.hour && (|| a.minute < b.minute
    || (a.minute == b.minute && a.second < b.second)))))))))
  }

  predicate SameSecond(a: Civil, b: Civil) {
    a.(nanos := 0) == b.(nanos := 0)
  }

  lemma EarlierDate(a: Civil, b: Civil)
    requires Valid(a) && Valid(b)
    requires a.year < b.year || (a.year == b.year && (a.month < b.month || (a.month == b.month && a.day < b.day)))
    ensures DayNumber(a) < DayNumber(b)
  {
    MonthInYear(a.year, a.month);
    if a.year < b.year {
      YearsGrow(a.year, b.year);
    } else if a.month < b.month {
      MonthsGrow(a.year, a.month, b.month);
    }
  }

  lemma BeforeIsEarlier(a: Civil, b: Civil)
    requires Valid(a) && Valid(b) && Before(a, b)
    ensures Seconds(a) < Seconds(b)
  {
    if a.year != b.year || a.month != b.month || a.day != b.day {
      EarlierDate(a, b);
    }
  }

  lemma SecondsDecide(a: Civil, b: Civil)
    requires Valid(a) && Valid(b)
    ensures Seconds(a) < Seconds(b) <==> Before(a, b)
    ensures Seconds(a) == Seconds(b) <==> SameSecond(a, b)
  {
    if Before(a, b) {
      BeforeIsEarlier(a, b);
    } else if Before(b, a) {
      BeforeIsEarlier(b, a);
    } else {
      assert SameSecond(a, b);
    }
  }

  /** The fields of the time of some valid fields are those fields. */
  lemma CivilUnique(c: Civil)
    requires Valid(c)
    ensures Instant(c) >= 0 && CivilOf(Instant(c)) == c
  {
    var d := CivilOf(Instant(c));
    assert Seconds(d) == Seconds(c) && d.nanos == c.nanos;
    SecondsDecide(c, d);
  }

  // Writing.

  predicate IsDigit(c: char) { '0' <= c <= '9' }

  predicate AllDigits(s: string) { forall i | 0 <= i < |s| :: IsDigit(s[i]) }

  function Digit(n: nat): (c: char)
    requires n < 10
    ensures IsDigit(c) && c as int - '0' as int == n
  {
    ('0' as int + n) as char
  }

  function Pow10(k: nat): nat {
    if k == 0 then 1 else 10 * Pow10(k - 1)
  }

  /** n in decimal, with exactly `width` digits. */
  function Pad(n: nat, width: nat): (s: string)
    requires n < Pow10(width)
    ensures |s| == width && AllDigits(s)
  {
    if width == 0 then "" else Pad(n / 10, width - 1) + [Digit(n % 10)]
  }

  function TrimZeros(s: string): (r: string)
    ensures r <= s && (r != "" ==> r[|r| - 1] != '0')
    ensures forall i | |r| <= i < |s| :: s[i] == '0'
  {
    if s != "" && s[|s| - 1] == '0' then TrimZeros(s[..|s| - 1]) else s
  }

  lemma PowersOfTen()
    ensures Pow10(2) == 100 && Pow10(4) == 10_000 && Pow10(9) == SECOND
  {
    assert Pow10(3) == 1000;
    assert Pow10(6) == 1_000_000;
  }

  /** The digits of the fraction of a second, without trailing zeros. */
  function FractionDigits(nanos: nat): string
    requires nanos < SECOND
  {
    PowersOfTen();
    TrimZeros(Pad(nanos, 9))
  }

  function Stamp(c: Civil): (s: string)
    requires Valid(c) && c.year <= 9999
    ensures |s| == 19
  {
    PowersOfTen();
    Pad(c.year, 4) + "-" + Pad(c.month, 2) + "-" + Pad(c.day, 2) + "T" +
    Pad(c.hour, 2) + ":" + Pad(c.minute, 2) + ":" + Pad(c.second, 2)
  }

  function Tail(nanos: nat): string
    requires nanos < SECOND
  {
    (if nanos == 0 then "" else "." + FractionDigits(nanos)) + "Z"
  }

  predicate InRange(t: Time) {
    t >= 0 && CivilOf(t).year <= 9999
  }

  function FormatTime(t: Time): string
    requires InRange(t)
  {
    Stamp(CivilOf(t)) + Tail(CivilOf(t).nanos)
  }

  // Reading.

  function Number(s: string): nat
    requires AllDigits(s)
  {
    if s == "" then 0
    else
      10 * Number(s[..|s| - 1]) + (s[|s| - 1] as int - '0' as int)
  }

  function ParseNumber(s: string, lo: nat, hi: nat): Option<nat>
  {
    if AllDigits(s) && lo <= Number(s) <= hi then Some(Number(s)) else None
  }

  /** How many digits s starts with. */
  function DigitRun(s: string): (n: nat)
    ensures n <= |s| && forall i | 0 <= i < n :: IsDigit(s[i])
    ensures n < |s| ==> !IsDigit(s[n])
  {
    if s != "" && IsDigit(s[0]) then 1 + DigitRun(s[1..]) else 0
  }

  /** Nanoseconds of a run of fraction digits; digits after the ninth are dropped. */
  function Nanos(digits: string): nat
    requires AllDigits(digits)
  {
    if |digits| >= 9 then Number(digits[..9])
    else Number(digits + Zeros(9 - |digits|))
  }

  function Zeros(n: nat): string { seq(n, _ => '0') }

  /** The offset of a zone designator in seconds. */
  function ParseZone(s: string): Option<int>
  {
    if s == "Z" then Some(0)
    else if |s| == 6 && (s[0] == '+' || s[0] == '-') && s[3] == ':' then
      var hours, minutes := ParseNumber(s[1..3], 0, 23), ParseNumber(s[4..6], 0, 59);
      if hours.None? || minutes.None? then None
      else
        var offset := hours.value * 3600 + minutes.value * 60;
        Some(if s[0] == '-' then -offset else offset)
    else None
  }

  /** The fixed-width date and clock at the front, with no fraction. */
  function ParseStamp(s: string): (r: Option<Civil>)
    requires |s| == 19
    ensures r.Some? ==> Valid(r.value) && r.value.nanos == 0
  {
    if s[4] != '-' || s[7] != '-' || s[10] != 'T' || s[13] != ':' || s[16] != ':' then None
    else
      var year, month := ParseNumber(s[0..4], 0, 9999), ParseNumber(s[5..7], 1, 12);
      if year.None? || month.None? then None
      else
        var day := ParseNumber(s[8..10], 1, DaysInMonth(year.value, month.value));
        var hour, minute, second := ParseNumber(s[11..13], 0, 23), ParseNumber(s[14..16], 0, 59), ParseNumber(s[17..19], 0, 59);
        if day.None? || hour.None? || minute.None? || second.None? then None
        else Some(Civil(year.value, month.value, day.value, hour.value, minute.value, second.value, 0))
  }

  /** An optional fraction and a zone: what is to be added to the stamp, in nanoseconds. */
  function ParseTail(s: string): Option<int>
    requires s != ""
  {
    var run := if s[0] == '.' then DigitRun(s[1..]) else 0;
    var nanos := if run == 0 then 0 else Nanos(s[1..1 + run]);
    var zone := ParseZone(if run == 0 then s else s[1 + run..]);
    if zone.None? then None else Some(nanos - zone.value * SECOND)
  }

  function ParseTime(s: string): Option<Time>
  {
    if |s| < 20 then None
    else
      var stamp, tail := ParseStamp(s[..19]), ParseTail(s[19..]);
      if stamp.None? || tail.None? then None else Some(Instant(stamp.value) + tail.value)
  }

  // Round trip.

  lemma {:induction false} NumberOfPad(n: nat, width: nat)
    requires n < Pow10(width)
    ensures Number(Pad(n, width)) == n
  {
    if width > 0 {
      NumberOfPad(n / 10, width - 1);
      assert Pad(n, width)[..width - 1] == Pad(n / 10, width - 1);
    }
  }

  lemma NanosOfFraction(nanos: nat)
    requires nanos < SECOND
    ensures AllDigits(FractionDigits(nanos))
    ensures |FractionDigits(nanos)| <= 9 && Nanos(FractionDigits(nanos)) == nanos
    ensures nanos > 0 ==> FractionDigits(nanos) != ""
  {
    PowersOfTen();
    var all, digits := Pad(nanos, 9), FractionDigits(nanos);
    NumberOfPad(nanos, 9);
    assert digits <= all;
    assert forall i | 0 <= i < |digits| :: digits[i] == all[i];
    assert digits + Zeros(9 - |digits|) == all;
    if digits == "" {
      ZerosAreZero(9);
      assert all == Zeros(9);
    }
    if |digits| == 9 {
      assert digits == all && digits[..9] == digits;
    }
  }

  lemma {:induction false} ZerosAreZero(n: nat)
    ensures AllDigits(Zeros(n)) && Number(Zeros(n)) == 0
  {
    if n > 0 {
      ZerosAreZero(n - 1);
      assert Zeros(n)[..n - 1] == Zeros(n - 1);
    }
  }

  lemma DigitRunOf(digits: string, rest: string)
    requires AllDigits(digits)
    requires rest == "" || !IsDigit(rest[0])
    ensures DigitRun(digits + rest) == |digits|
  {
    if digits == "" {
      assert digits + rest == rest;
    } else {
      assert (digits + rest)[1..] == digits[1..] + rest;
      DigitRunOf(digits[1..], rest);
    }
  }

  lemma StampReads(c: Civil)
    requires Valid(c) && c.year <= 9999
    ensures ParseStamp(Stamp(c)) == Some(c.(nanos := 0))
  {
    PowersOfTen();
    var s := Stamp(c);
    NumberOfPad(c.year, 4);
    NumberOfPad(c.month, 2);
    NumberOfPad(c.day, 2);
    NumberOfPad(c.hour, 2);
    NumberOfPad(c.minute, 2);
    NumberOfPad(c.second, 2);
    assert s[0..4] == Pad(c.year, 4);
    assert s[5..7] == Pad(c.month, 2);
    assert s[8..10] == Pad(c.day, 2);
    assert s[11..13] == Pad(c.hour, 2);
    assert s[14..16] == Pad(c.minute, 2);
    var p := Pad(c.second, 2);
    assert s[17..19] == [s[17], s[18]] == [p[0], p[1]] == p;
  }

  lemma FractionReads(digits: string)
    requires digits != "" && AllDigits(digits)
    ensures ParseTail("." + digits + "Z") == Some(Nanos(digits))
  {
    var s := "." + digits + "Z";
    assert s[1..] == digits + "Z";
    DigitRunOf(digits, "Z");
    assert s[1..1 + |digits|] == digits && s[1 + |digits|..] == "Z";
  }

  lemma TailReads(nanos: nat)
    requires nanos < SECOND
    ensures ParseTail(Tail(nanos)) == Some(nanos)
  {
    if nanos > 0 {
      NanosOfFraction(nanos);
      FractionReads(FractionDigits(nanos));
    }
  }

  lemma JoinReads(c: Civil, stamp: string, tail: string)
    requires |stamp| == 19 && tail != ""
    requires ParseStamp(stamp) == Some(c.(nanos := 0)) && ParseTail(tail) == Some(c.nanos)
    ensures ParseTime(stamp + tail) == Some(Instant(c))
  {
    assert (stamp + tail)[..19] == stamp && (stamp + tail)[19..] == tail;
  }

  /** Stored text reads back as the time that was written. */
  lemma TextRoundTrip(t: Time)
    requires InRange(t)
    ensures ParseTime(FormatTime(t)) == Some(t)
  {
    var c := CivilOf(t);
    StampReads(c);
    TailReads(c.nanos);
    JoinReads(c, Stamp(c), Tail(c.nanos));
  }

  // Comparing as text.

  /** Byte order of text, as the database compares it. */
  predicate TextBefore(a: string, b: string)
  {
    b != "" && (a == "" || a[0] < b[0] || (a[0] == b[0] && TextBefore(a[1..], b[1..])))
  }

  predicate TextAtMost(a: string, b: string) { a == b || TextBefore(a, b) }

  /** Text order is decided by the first place where two texts differ. */
  lemma {:induction false} FirstDifference(a: string, b: string, k: nat)
    requires k < |a| && k < |b| && a[..k] == b[..k] && a[k] != b[k]
    ensures TextBefore(a, b) <==> a[k] < b[k]
  {
    if k > 0 {
      assert a[0] == a[..k][0] == b[..k][0] == b[0];
      assert a[1..][..k - 1] == a[..k][1..] == b[..k][1..] == b[1..][..k - 1];
      FirstDifference(a[1..], b[1..], k - 1);
    }
  }

  /** Two texts of which neither is a prefix of the other differ somewhere, and agree before. */
  lemma {:induction false} FindDifference(a: string, b: string) returns (k: nat)
    requires !(a <= b) && !(b <= a)
    ensures k < |a| && k < |b| && a[..k] == b[..k] && a[k] != b[k]
  {
    if a[0] != b[0] {
      k := 0;
    } else {
      assert a == [a[0]] + a[1..] && b == [b[0]] + b[1..];
      k := FindDifference(a[1..], b[1..]);
      k := k + 1;
      assert a[..k] == [a[0]] + a[1..][..k - 1] && b[..k] == [b[0]] + b[1..][..k - 1];
    }
  }

  lemma {:induction false} CommonPrefix(p: string, a: string, b: string)
    ensures TextBefore(p + a, p + b) <==> TextBefore(a, b)
  {
    if p == "" {
      assert p + a == a && p + b == b;
    } else {
      assert (p + a)[1..] == p[1..] + a && (p + b)[1..] == p[1..] + b;
      CommonPrefix(p[1..], a, b);
    }
  }

  /** Texts that start with different texts of one length are ordered by those. */
  lemma FrontDecides(p: string, q: string, a: string, b: string)
    requires |p| == |q| && p != q
    ensures TextBefore(p + a, q + b) <==> TextBefore(p, q)
  {
    var k := FindDifference(p, q);
    assert (p + a)[..k] == p[..k] && (q + b)[..k] == q[..k];
    FirstDifference(p, q, k);
    FirstDifference(p + a, q + b, k);
  }

  lemma {:induction false} PadOrder(m: nat, n: nat, width: nat)
    requires m < Pow10(width) && n < Pow10(width)
    ensures TextBefore(Pad(m, width), Pad(n, width)) <==> m < n
    ensures Pad(m, width) == Pad(n, width) <==> m == n
  {
    NumberOfPad(m, width);
    NumberOfPad(n, width);
    if width > 0 {
      PadOrder(m / 10, n / 10, width - 1);
      var p, q := Pad(m / 10, width - 1), Pad(n / 10, width - 1);
      if p == q {
        CommonPrefix(p, [Digit(m % 10)], [Digit(n % 10)]);
      } else {
        FrontDecides(p, q, [Digit(m % 10)], [Digit(n % 10)]);
      }
    }
  }

  /** One fixed-width field, then the rest. */
  lemma FieldOrder(m: nat, n: nat, width: nat, a: string, b: string)
    requires m < Pow10(width) && n < Pow10(width)
    ensures TextBefore(Pad(m, width) + a, Pad(n, width) + b) <==> m < n || (m == n && TextBefore(a, b))
  {
    PadOrder(m, n, width);
    if m == n {
      CommonPrefix(Pad(m, width), a, b);
    } else {
      FrontDecides(Pad(m, width), Pad(n, width), a, b);
    }
  }

  function FromSecond(c: Civil): string
    requires Valid(c)
  { PowersOfTen(); Pad(c.second, 2) + Tail(c.nanos) }

  function FromMinute(c: Civil): string
    requires Valid(c)
  { PowersOfTen(); Pad(c.minute, 2) + (":" + FromSecond(c)) }

  function FromHour(c: Civil): string
    requires Valid(c)
  { PowersOfTen(); Pad(c.hour, 2) + (":" + FromMinute(c)) }

  function FromDay(c: Civil): string
    requires Valid(c)
  { PowersOfTen(); Pad(c.day, 2) + ("T" + FromHour(c)) }

  function FromMonth(c: Civil): string
    requires Valid(c)
  { PowersOfTen(); Pad(c.month, 2) + ("-" + FromDay(c)) }

  lemma ClockOrder(a: Civil, b: Civil)
    requires Valid(a) && Valid(b)
    ensures TextBefore(FromHour(a), FromHour(b)) <==>
            || a.hour < b.hour
            || (a.hour == b.hour && (|| a.minute < b.minute
            || (a.minute == b.minute && (|| a.second < b.second
            || (a.second == b.second && TextBefore(Tail(a.nanos), Tail(b.nanos)))))))
  {
    PowersOfTen();
    FieldOrder(a.second, b.second, 2, Tail(a.nanos), Tail(b.nanos));
    CommonPrefix(":", FromSecond(a), FromSecond(b));
    FieldOrder(a.minute, b.minute, 2, ":" + FromSecond(a), ":" + FromSecond(b));
    CommonPrefix(":", FromMinute(a), FromMinute(b));
    FieldOrder(a.hour, b.hour, 2, ":" + FromMinute(a), ":" + FromMinute(b));
  }

  lemma DateOrder(a: Civil, b: Civil)
    requires Valid(a) && Valid(b)
    ensures TextBefore(FromMonth(a), FromMonth(b)) <==>
            || a.month < b.month
            || (a.month == b.month && (|| a.day < b.day
            || (a.day == b.day && TextBefore(FromHour(a), FromHour(b)))))
  {
    PowersOfTen();
    CommonPrefix("T", FromHour(a), FromHour(b));
    FieldOrder(a.day, b.day, 2, "T" + FromHour(a), "T" + FromHour(b));
    CommonPrefix("-", FromDay(a), FromDay(b));
    FieldOrder(a.month, b.month, 2, "-" + FromDay(a), "-" + FromDay(b));
  }

  lemma ClockByFields(c: Civil)
    requires Valid(c)
    ensures Pow10(2) == 100
    ensures Pad(c.hour, 2) + ":" + Pad(c.minute, 2) + ":" + Pad(c.second, 2) + Tail(c.nanos) == FromHour(c)
  {
    PowersOfTen();
    var h, m, s, tail := Pad(c.hour, 2), Pad(c.minute, 2), Pad(c.second, 2), Tail(c.nanos);
    assert h + ":" + m + ":" + s + tail == h + (":" + (m + (":" + (s + tail))));
  }

  lemma Regroup(y: string, m: string, d: string, clock: string, tail: string)
    ensures y + "-" + m + "-" + d + "T" + clock + tail == y + ("-" + (m + ("-" + (d + ("T" + (clock + tail))))))
  {
  }

  lemma StampByFields(c: Civil)
    requires Valid(c) && c.year <= 9999
    ensures Pow10(4) == 10_000 && Stamp(c) + Tail(c.nanos) == Pad(c.year, 4) + ("-" + FromMonth(c))
  {
    PowersOfTen();
    ClockByFields(c);
    var y, m, d := Pad(c.year, 4), Pad(c.month, 2), Pad(c.day, 2);
    var clock, tail := Pad(c.hour, 2) + ":" + Pad(c.minute, 2) + ":" + Pad(c.second, 2), Tail(c.nanos);
    assert Stamp(c) == y + "-" + m + "-" + d + "T" + clock;
    Regroup(y, m, d, clock, tail);
  }

  lemma CivilTextOrder(a: Civil, b: Civil)
    requires Valid(a) && Valid(b) && a.year <= 9999 && b.year <= 9999
    ensures TextBefore(Stamp(a) + Tail(a.nanos), Stamp(b) + Tail(b.nanos)) <==>
            Before(a, b) || (SameSecond(a, b) && TextBefore(Tail(a.nanos), Tail(b.nanos)))
  {
    StampByFields(a);
    StampByFields(b);
    ClockOrder(a, b);
    DateOrder(a, b);
    CommonPrefix("-", FromMonth(a), FromMonth(b));
    FieldOrder(a.year, b.year, 4, "-" + FromMonth(a), "-" + FromMonth(b));
  }

  /** Text order is time order between different seconds, and the order of the tails within one. */
  lemma TextOrder(s: Time, t: Time)
    requires InRange(s) && InRange(t)
    ensures var a, b := CivilOf(s), CivilOf(t);
            TextBefore(FormatTime(s), FormatTime(t)) <==>
            s / SECOND < t / SECOND || (s / SECOND == t / SECOND && TextBefore(Tail(a.nanos), Tail(b.nanos)))
  {
    var a, b := CivilOf(s), CivilOf(t);
    CivilTextOrder(a, b);
    SecondsDecide(a, b);
    assert s / SECOND == Seconds(a) && t / SECOND == Seconds(b);
  }

  ghost predicate ProperPrefix(a: string, b: string) { a < b }

  /** Padding a digit string with zeros leaves it below one that goes on and does not end in zero. */
  lemma PaddedPrefix(a: string, b: string, p: string, q: string)
    requires a < b && a <= p && b <= q && |p| == |q| && b[|b| - 1] != '0'
    requires AllDigits(q) && forall i | |a| <= i < |p| :: p[i] == '0'
    ensures TextBefore(p, q)
  {
    assert p[|b| - 1] != q[|b| - 1];
    var k := FindDifference(p, q);
    assert forall i | 0 <= i < |a| :: p[i] == a[i] == b[i] == q[i];
    FirstDifference(p, q, k);
  }

  /** Of two digit strings neither of which starts the other, padding keeps the order. */
  lemma PaddedApart(a: string, b: string, p: string, q: string)
    requires !(a <= b) && !(b <= a) && a <= p && b <= q && |p| == |q|
    ensures TextBefore(p, q) <==> TextBefore("." + a + "Z", "." + b + "Z")
  {
    var k := FindDifference(a, b);
    assert p[..k] == a[..k] && q[..k] == b[..k];
    FirstDifference(p, q, k);
    var x, y := "." + a + "Z", "." + b + "Z";
    assert x[..k + 1] == "." + a[..k] && y[..k + 1] == "." + b[..k];
    FirstDifference(x, y, k + 1);
  }

  /** A fraction whose digits start the digits of another is smaller. */
  lemma PrefixIsSmaller(m: nat, n: nat)
    requires m < SECOND && n < SECOND && ProperPrefix(FractionDigits(m), FractionDigits(n))
    ensures m < n
  {
    PowersOfTen();
    PaddedPrefix(FractionDigits(m), FractionDigits(n), Pad(m, 9), Pad(n, 9));
    PadOrder(m, n, 9);
  }

  /** A text that ends where the other goes on with digits is the larger of the two. */
  lemma EndsLater(a: string, c: string)
    requires c != "" && IsDigit(c[0])
    ensures TextBefore("." + (a + c) + "Z", "." + a + "Z")
  {
    assert "." + (a + c) + "Z" == ("." + a) + (c + "Z");
    CommonPrefix("." + a, c + "Z", "Z");
    FirstDifference(c + "Z", "Z", 0);
  }

  lemma PrefixTail(m: nat, n: nat)
    requires m < SECOND && n < SECOND && ProperPrefix(FractionDigits(m), FractionDigits(n))
    ensures TextBefore(Tail(n), Tail(m))
  {
    var a, b := FractionDigits(m), FractionDigits(n);
    NanosOfFraction(m);
    NanosOfFraction(n);
    FractionOfZero();
    if m == 0 {
      FirstDifference(Tail(n), Tail(m), 0);
    } else {
      var c := b[|a|..];
      assert b == a + c && IsDigit(c[0]);
      EndsLater(a, c);
    }
  }

  /** Fractions of which neither starts the other compare as text the way they compare as numbers. */
  lemma ApartTails(m: nat, n: nat)
    requires m < SECOND && n < SECOND
    requires !(FractionDigits(m) <= FractionDigits(n)) && !(FractionDigits(n) <= FractionDigits(m))
    ensures TextBefore(Tail(m), Tail(n)) <==> m < n
  {
    PowersOfTen();
    FractionOfZero();
    PaddedApart(FractionDigits(m), FractionDigits(n), Pad(m, 9), Pad(n, 9));
    PadOrder(m, n, 9);
  }

  lemma FractionOfZero()
    ensures FractionDigits(0) == ""
  {
    PowersOfTen();
    PadOfZero(9);
    var d := FractionDigits(0);
    assert forall i | 0 <= i < |d| :: d[i] == Zeros(9)[i] == '0';
  }

  lemma {:induction false} PadOfZero(width: nat)
    requires 0 < Pow10(width)
    ensures Pad(0, width) == Zeros(width)
  {
    if width > 0 {
      PadOfZero(width - 1);
      assert Zeros(width) == Zeros(width - 1) + "0";
    }
  }

  lemma {:induction false} Antisymmetric(a: string, b: string)
    ensures !(TextBefore(a, b) && TextBefore(b, a))
    ensures TextBefore(a, b) || TextBefore(b, a) || a == b
  {
    if a != "" && b != "" && a[0] == b[0] {
      Antisymmetric(a[1..], b[1..]);
      assert a == [a[0]] + a[1..] && b == [b[0]] + b[1..];
    }
  }

  lemma {:induction false} TextTransitive(a: string, b: string, c: string)
    requires TextBefore(a, b) && TextBefore(b, c)
    ensures TextBefore(a, c)
  {
    if a != "" && a[0] == b[0] == c[0] {
      TextTransitive(a[1..], b[1..], c[1..]);
    }
  }

  /** Text order is total and transitive. */
  lemma TextSorts(a: string, b: string, c: string)
    ensures TextAtMost(a, b) || TextBefore(b, a)
    ensures TextAtMost(a, b) && TextAtMost(b, c) ==> TextAtMost(a, c)
  {
    Antisymmetric(a, b);
    if TextBefore(a, b) && TextBefore(b, c) {
      TextTransitive(a, b, c);
    }
  }

  lemma EqualFractions(m: nat, n: nat)
    requires m < SECOND && n < SECOND && FractionDigits(m) == FractionDigits(n)
    ensures m == n
  {
    NanosOfFraction(m);
    NanosOfFraction(n);
  }

  /** When stored text disagrees with time: exactly for two times of one second where the trimmed
      fraction digits of the earlier one are a proper prefix of those of the later one. */
  lemma TextDisagreesExactly(s: Time, t: Time)
    requires InRange(s) && InRange(t) && s < t
    ensures !TextBefore(FormatTime(s), FormatTime(t)) <==>
            s / SECOND == t / SECOND && ProperPrefix(FractionDigits(s % SECOND), FractionDigits(t % SECOND))
  {
    TextOrder(s, t);
    var m, n := s % SECOND, t % SECOND;
    assert CivilOf(s).nanos == m && CivilOf(t).nanos == n;
    if s / SECOND == t / SECOND {
      var a, b := FractionDigits(m), FractionDigits(n);
      if a == b {
        EqualFractions(m, n);
      } else if a <= b {
        PrefixIsSmaller(m, n);
        PrefixTail(m, n);
        Antisymmetric(Tail(m), Tail(n));
      } else if b <= a {
        PrefixIsSmaller(n, m);
      } else {
        ApartTails(m, n);
      }
    }
  }

  /** The disagreement does happen: half a second is written after no fraction, and sorts before it. */
  lemma TextOrderWitness()
    ensures InRange(0) && InRange(500_000_000)
    ensures TextBefore(FormatTime(500_000_000), FormatTime(0))
  {
    var half: Time := 500_000_000;
    assert half / SECOND == 0 && half / SECOND / DAY == 0;
    FractionOfZero();
    NanosOfFraction(half);
    TextDisagreesExactly(0, half);
    Antisymmetric(FormatTime(0), FormatTime(half));
    TextRoundTrip(0);
    TextRoundTrip(half);
  }

  /** The due test compares text. It lets nothing through that is due a second or more from now,
      and it never holds back what was due a second or more ago. */
  lemma DueWithinASecond(due: Time, now: Time)
    requires InRange(due) && InRange(now)
    ensures TextAtMost(FormatTime(due), FormatTime(now)) ==> due < now + SECOND
    ensures due <= now - SECOND ==> TextAtMost(FormatTime(due), FormatTime(now))
  {
    TextOrder(due, now);
    if FormatTime(due) == FormatTime(now) {
      TextRoundTrip(due);
      TextRoundTrip(now);
    }
  }
}
