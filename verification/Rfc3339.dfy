/** The build-time timestamp of `rust/tp-relay/build.rs`, in machine integers. */
module Rfc3339 {
  import opened Calendar
  import Lexical

  newtype u64 = x: int | 0 <= x < 0x1_0000_0000_0000_0000
  newtype i64 = x: int | -0x8000_0000_0000_0000 <= x < 0x8000_0000_0000_0000

  datatype Stamp = Stamp(date: Date, hour: int, minute: int, second: int)

  /** The division chain from a day count to its date. That it is accepted at these types says no step overflows. */
  function CivilFromDays(days: u64): Date
    requires days <= 0xFFFF_FFFF_FFFF_FFFF / 86_400
  {
    var z: i64 := days as i64 + 719_468;
    var era := z / 146_097;
    var doe := z - era * 146_097;
    var yoe := (doe - doe / 1460 + doe / 36_524 - doe / 146_096) / 365;
    var y := yoe + era * 400;
    var doy := doe - (365 * yoe + yoe / 4 - yoe / 100);
    var mp := (5 * doy + 2) / 153;
    var day := doy - (153 * mp + 2) / 5 + 1;
    var month := if mp < 10 then mp + 3 else mp - 9;
    var year := if month <= 2 then y + 1 else y;
    Date(year as int, month as int, day as int)
  }

  /** The fields of a Unix time, each as the source computes it. */
  function Civil(secs: u64): Stamp {
    var day_secs := secs % 86_400;
    var s := day_secs % 60;
    var m := (day_secs / 60) % 60;
    var h := day_secs / 3600;
    Stamp(CivilFromDays(secs / 86_400), h as int, m as int, s as int)
  }

  lemma Quotient(n: int, d: int, q: int, r: int)
    requires d > 0 && n == d * q + r && 0 <= r < d
    ensures n / d == q && n % d == r
  {
    var k := n / d - q;
    assert k * d == r - n % d;
    NonZeroMultiple(k, d);
  }

  lemma NonZeroMultiple(k: int, d: int)
    requires d > 0
    ensures k != 0 ==> k * d >= d || k * d <= -d
  {
    if k > 0 {
      assert (k - 1) * d >= 0;
    } else if k < 0 {
      assert (-k - 1) * d >= 0;
    }
  }

  /** The quotient of an era's day given by century, four-year cycle and day of cycle. */
  lemma YearOfParts(doe: int, c: int, f: int, t: int)
    requires 0 <= c <= 3 && 0 <= f <= 24 && 0 <= t <= 1460
    requires f == 24 && t == 1460 ==> c == 3
    requires doe == 36_524 * c + 1461 * f + t
    ensures var g := if t == 1460 then 3 else t / 365;
            (doe - doe / 1460 + doe / 36_524 - doe / 146_096) / 365 == 100 * c + 4 * f + g
  {
    var carry := if 24 * c + f + t >= 1460 then 1 else 0;
    Quotient(doe, 1460, 25 * c + f + carry, 24 * c + f + t - 1460 * carry);
    var g := if t == 1460 then 3 else t / 365;
    var last := if f == 24 && t == 1460 then 1 else 0;
    Quotient(doe, 36_524, c + last, 1461 * f + t - 36_524 * last);
    Quotient(doe, 146_096, last, doe - 146_096 * last);
    assert 0 <= t - carry - 365 * g < 365;
    Quotient(365 * (100 * c + 4 * f + g) + (t - carry - 365 * g), 365, 100 * c + 4 * f + g, t - carry - 365 * g);
  }

  lemma DayOfParts(c: int, f: int, g: int)
    requires 0 <= c <= 3 && 0 <= f <= 24 && 0 <= g <= 3
    ensures var yoe := 100 * c + 4 * f + g;
            && 365 * yoe + yoe / 4 - yoe / 100 == 36_524 * c + 1461 * f + 365 * g
            && (g == 3 && (f < 24 || c == 3) ==> LeapYear(yoe + 1))
  {
    var yoe := 100 * c + 4 * f + g;
    Quotient(yoe, 4, 25 * c + f, g);
    Quotient(yoe, 100, c, 4 * f + g);
    if g == 3 && f < 24 {
      Quotient(yoe + 1, 4, 25 * c + f + 1, 0);
      Quotient(yoe + 1, 100, c, 4 * f + 4);
    }
  }

  /** The year the quotient finds inside a 400-year era, and the day left over in it. */
  lemma YearOfEra(doe: int)
    requires 0 <= doe < 146_097
    ensures var yoe := (doe - doe / 1460 + doe / 36_524 - doe / 146_096) / 365;
            var doy := doe - (365 * yoe + yoe / 4 - yoe / 100);
            && 0 <= yoe <= 399
            && 0 <= doy <= 365
            && (doy == 365 ==> LeapYear(yoe + 1))
  {
    var c := if doe == 146_096 then 3 else doe / 36_524;
    var r := doe - 36_524 * c;
    var f := r / 1461;
    var t := r - 1461 * f;
    YearOfParts(doe, c, f, t);
    DayOfParts(c, f, if t == 1460 then 3 else t / 365);
  }

  /** Months counted from March have the lengths the month table gives. */
  lemma MonthOfYear(doy: int, y: int)
    requires 0 <= doy <= 365 && (doy == 365 ==> LeapYear(y + 1))
    ensures var mp := (5 * doy + 2) / 153;
            var month := if mp < 10 then mp + 3 else mp - 9;
            var year := if month <= 2 then y + 1 else y;
            var date := Date(year, month, doy - (153 * mp + 2) / 5 + 1);
            && 0 <= mp <= 11
            && Valid(date)
            && DayNumber(date) == DaysBeforeYear(y) + doy
  {
  }

  lemma EraShift(yoe: int, era: int)
    requires 0 <= yoe <= 399
    ensures DaysBeforeYear(yoe + era * 400) == era * 146_097 + 365 * yoe + yoe / 4 - yoe / 100
    ensures LeapYear(yoe + era * 400 + 1) <==> LeapYear(yoe + 1)
  {
    var y := yoe + era * 400;
    assert y == 4 * (yoe / 4 + 100 * era) + yoe % 4;
    Quotient(y, 4, yoe / 4 + 100 * era, yoe % 4);
    Quotient(y, 100, yoe / 100 + 4 * era, yoe % 100);
    Quotient(y, 400, era, yoe);
    var n := yoe + 1;
    Quotient(y + 1, 4, n / 4 + 100 * era, n % 4);
    Quotient(y + 1, 100, n / 100 + 4 * era, n % 100);
    Quotient(y + 1, 400, n / 400 + era, n % 400);
  }

  lemma DateOfNumber(days: nat, date: Date)
    requires Valid(date) && DayNumber(date) == days + 719_468
    ensures date == DaysLater(days)
  {
    DaysLaterNumber(days);
    NumberOrder(date, DaysLater(days));
  }

  /** A March-based year and the day in it, numbered by the closed form, lead to the date. */
  lemma DateOfYearDay(days: nat, y: int, doy: int)
    requires 0 <= doy <= 365 && (doy == 365 ==> LeapYear(y + 1))
    requires days + 719_468 == DaysBeforeYear(y) + doy
    ensures var mp := (5 * doy + 2) / 153;
            var month := if mp < 10 then mp + 3 else mp - 9;
            Date(if month <= 2 then y + 1 else y, month, doy - (153 * mp + 2) / 5 + 1) == DaysLater(days)
  {
    MonthOfYear(doy, y);
    var mp := (5 * doy + 2) / 153;
    var month := if mp < 10 then mp + 3 else mp - 9;
    DateOfNumber(days, Date(if month <= 2 then y + 1 else y, month, doy - (153 * mp + 2) / 5 + 1));
  }

  lemma ClockOfSecond(secs: int)
    requires secs >= 0
    ensures var r := secs % 86_400;
            && 0 <= r / 3600 <= 23 && 0 <= r / 60 % 60 <= 59 && 0 <= r % 60 <= 59
            && secs == 86_400 * (secs / 86_400) + 3600 * (r / 3600) + 60 * (r / 60 % 60) + r % 60
  {
    var r := secs % 86_400;
    var q := r / 60;
    assert r == 60 * q + r % 60;
    assert q == 60 * (q / 60) + q % 60;
    Quotient(r, 3600, q / 60, 60 * (q % 60) + r % 60);
  }

  lemma DateOfEraDay(days: nat, era: int, yoe: int, doy: int)
    requires 0 <= yoe <= 399 && 0 <= doy <= 365 && (doy == 365 ==> LeapYear(yoe + 1))
    requires days + 719_468 == era * 146_097 + (365 * yoe + yoe / 4 - yoe / 100) + doy
    ensures var mp := (5 * doy + 2) / 153;
            var month := if mp < 10 then mp + 3 else mp - 9;
            var y := yoe + era * 400;
            Date(if month <= 2 then y + 1 else y, month, doy - (153 * mp + 2) / 5 + 1) == DaysLater(days)
  {
    EraShift(yoe, era);
    DateOfYearDay(days, yoe + era * 400, doy);
  }

  lemma CivilDate(days: u64)
    requires days <= 0xFFFF_FFFF_FFFF_FFFF / 86_400
    ensures CivilFromDays(days) == DaysLater(days as int)
  {
    hide DaysLater, LeapYear;
    var z := days as int + 719_468;
    var era := z / 146_097;
    EraDate(days as int, era, z - era * 146_097);
  }

  /** The closed form over unbounded integers, from the era and the day in it. */
  lemma EraDate(days: nat, era: int, doe: int)
    requires 0 <= doe < 146_097 && days + 719_468 == era * 146_097 + doe
    ensures var yoe := (doe - doe / 1460 + doe / 36_524 - doe / 146_096) / 365;
            var doy := doe - (365 * yoe + yoe / 4 - yoe / 100);
            var mp := (5 * doy + 2) / 153;
            var month := if mp < 10 then mp + 3 else mp - 9;
            var y := yoe + era * 400;
            && 0 <= yoe <= 399 && 0 <= doy <= 365
            && Date(if month <= 2 then y + 1 else y, month, doy - (153 * mp + 2) / 5 + 1) == DaysLater(days)
  {
    hide DaysLater, LeapYear;
    YearOfEra(doe);
    var yoe := (doe - doe / 1460 + doe / 36_524 - doe / 146_096) / 365;
    DateOfEraDay(days, era, yoe, doe - (365 * yoe + yoe / 4 - yoe / 100));
  }

  lemma CivilClock(secs: u64)
    ensures var c := Civil(secs);
            && 0 <= c.hour <= 23 && 0 <= c.minute <= 59 && 0 <= c.second <= 59
            && secs as int == 86_400 * (secs / 86_400) as int + 3600 * c.hour + 60 * c.minute + c.second
  {
    ClockOfSecond(secs as int);
  }

  /** For every 64-bit input the fields are the calendar's date and the clock's time of day. */
  lemma CivilIsCalendar(secs: u64)
    ensures var c := Civil(secs);
            && c.date == DaysLater((secs / 86_400) as int)
            && Valid(c.date)
            && 0 <= c.hour <= 23 && 0 <= c.minute <= 59 && 0 <= c.second <= 59
            && secs as int == 86_400 * (secs / 86_400) as int + 3600 * c.hour + 60 * c.minute + c.second
  {
    hide CivilFromDays;
    CivilDate(secs / 86_400);
    CivilClock(secs);
    DaysLaterNumber((secs / 86_400) as int);
  }

  // The text form: four-digit year, two-digit fields (RFC 3339, section 5.6).

  function Digit(n: int): char
    requires 0 <= n <= 9
  {
    ['0', '1', '2', '3', '4', '5', '6', '7', '8', '9'][n]
  }

  function Decimal(n: nat): string {
    if n < 10 then [Digit(n)] else Decimal(n / 10) + [Digit(n % 10)]
  }

  function Zeros(n: nat): string {
    if n == 0 then "" else "0" + Zeros(n - 1)
  }

  /** Rust's `{:0width}` for a non-negative number. */
  function Padded(n: nat, width: nat): string {
    Zeros(if |Decimal(n)| < width then width - |Decimal(n)| else 0) + Decimal(n)
  }

  function Text(year: nat, month: nat, day: nat, hour: nat, minute: nat, second: nat): string {
    Padded(year, 4) + ("-" + (Padded(month, 2) + ("-" + (Padded(day, 2) + ("T" +
    (Padded(hour, 2) + (":" + (Padded(minute, 2) + (":" + (Padded(second, 2) + "Z"))))))))))
  }

  function Rfc3339Utc(secs: u64): string {
    CivilIsCalendar(secs);
    YearAfterEpoch((secs / 86_400) as int);
    var c := Civil(secs);
    Text(c.date.year, c.date.month, c.date.day, c.hour, c.minute, c.second)
  }

  lemma {:induction false} YearAfterEpoch(n: nat)
    ensures DaysLater(n).year >= 1970
  {
    if n > 0 {
      YearAfterEpoch(n - 1);
    }
  }

  function Power10(w: nat): nat {
    if w == 0 then 1 else 10 * Power10(w - 1)
  }

  /** Exactly `w` digits. */
  function Fixed(n: nat, w: nat): (r: string)
    requires n < Power10(w)
    ensures |r| == w
  {
    if w == 0 then "" else Fixed(n / 10, w - 1) + [Digit(n % 10)]
  }

  lemma {:induction false} FixedZero(w: nat)
    requires 0 < Power10(w)
    ensures Fixed(0, w) == Zeros(w)
  {
    if w > 0 {
      PowerPositive(w - 1);
      FixedZero(w - 1);
      ZerosSnoc(w - 1);
    }
  }

  lemma {:induction false} PowerPositive(w: nat)
    ensures Power10(w) >= 1
  {
    if w > 0 {
      PowerPositive(w - 1);
    }
  }

  lemma {:induction false} ZerosSnoc(n: nat)
    ensures Zeros(n) + "0" == "0" + Zeros(n) && |Zeros(n)| == n
  {
    if n > 0 {
      ZerosSnoc(n - 1);
      assert Zeros(n) + "0" == "0" + (Zeros(n - 1) + "0");
    }
  }

  /** Padding a number that fits the width gives its fixed-width digits. */
  lemma {:induction false} PaddedFixed(n: nat, w: nat)
    requires w >= 1 && n < Power10(w)
    ensures |Decimal(n)| <= w && Padded(n, w) == Fixed(n, w)
  {
    if n < 10 {
      PowerPositive(w - 1);
      FixedZero(w - 1);
      ZerosSnoc(w - 1);
      assert Fixed(n, w) == Zeros(w - 1) + [Digit(n)];
    } else {
      PowerPositive(w - 1);
      assert w >= 2;
      PaddedFixed(n / 10, w - 1);
      assert Decimal(n) == Decimal(n / 10) + [Digit(n % 10)];
      assert Fixed(n, w) == Fixed(n / 10, w - 1) + [Digit(n % 10)];
      hide Decimal, Fixed, Zeros, Power10, Digit;
      var pad := Zeros(w - 1 - |Decimal(n / 10)|);
      assert pad + (Decimal(n / 10) + [Digit(n % 10)]) == (pad + Decimal(n / 10)) + [Digit(n % 10)];
    }
  }

  lemma {:induction false} FixedOrder(a: nat, b: nat, w: nat)
    requires a < Power10(w) && b < Power10(w)
    ensures Lexical.Less(Fixed(a, w), Fixed(b, w)) <==> a < b
    ensures Fixed(a, w) == Fixed(b, w) <==> a == b
  {
    if w > 0 {
      var p, q := Fixed(a / 10, w - 1), Fixed(b / 10, w - 1);
      FixedOrder(a / 10, b / 10, w - 1);
      DigitOrder(a % 10, b % 10);
      assert Fixed(a, w) == p + [Digit(a % 10)] && Fixed(b, w) == q + [Digit(b % 10)];
      hide Fixed, Digit, Lexical.Less;
      Lexical.Concatenation(p, [Digit(a % 10)], q, [Digit(b % 10)]);
      SameSplit(p, [Digit(a % 10)], q, [Digit(b % 10)]);
    }
  }

  lemma DigitOrder(a: int, b: int)
    requires 0 <= a <= 9 && 0 <= b <= 9
    ensures Lexical.Less([Digit(a)], [Digit(b)]) <==> a < b
    ensures [Digit(a)] == [Digit(b)] <==> a == b
  {
  }

  lemma SameSplit(a: string, b: string, c: string, d: string)
    requires |a| == |c|
    ensures a + b == c + d <==> a == c && b == d
  {
    assert (a + b)[..|a|] == a && (a + b)[|a|..] == b;
    assert (c + d)[..|c|] == c && (c + d)[|c|..] == d;
  }

  /** One padded field in front of two texts: compared first, then the rest. */
  lemma FieldOrder(a: nat, b: nat, w: nat, s: string, t: string)
    requires w >= 1 && a < Power10(w) && b < Power10(w)
    ensures |Padded(a, w)| == w && |Padded(b, w)| == w
    ensures Lexical.Less(Padded(a, w) + s, Padded(b, w) + t) <==> a < b || (a == b && Lexical.Less(s, t))
  {
    PaddedFixed(a, w);
    PaddedFixed(b, w);
    FixedOrder(a, b, w);
    Lexical.Concatenation(Padded(a, w), s, Padded(b, w), t);
  }

  lemma SeparatorOrder(c: string, s: string, t: string)
    requires |c| == 1
    ensures Lexical.Less(c + s, c + t) <==> Lexical.Less(s, t)
  {
    Lexical.Concatenation(c, s, c, t);
    Lexical.Irreflexive(c);
  }

  predicate FitsText(year: nat, month: nat, day: nat, hour: nat, minute: nat, second: nat) {
    year <= 9999 && month <= 99 && day <= 99 && hour <= 99 && minute <= 99 && second <= 99
  }

  predicate Digits(s: string) {
    forall c :: c in s ==> '0' <= c <= '9'
  }

  /** The number a string of digits spells. */
  function Value(s: string): int {
    if s == "" then 0 else 10 * Value(s[..|s| - 1]) + (s[|s| - 1] as int - '0' as int)
  }

  lemma {:induction false} FixedSpells(n: nat, w: nat)
    requires n < Power10(w)
    ensures Digits(Fixed(n, w)) && Value(Fixed(n, w)) == n
  {
    if w > 0 {
      FixedSpells(n / 10, w - 1);
      var front := Fixed(n / 10, w - 1);
      assert Fixed(n, w) == front + [Digit(n % 10)];
      assert (front + [Digit(n % 10)])[..|front|] == front;
      DigitSpells(n % 10);
    }
  }

  lemma DigitSpells(n: int)
    requires 0 <= n <= 9
    ensures '0' <= Digit(n) <= '9' && Digit(n) as int - '0' as int == n
  {
  }

  lemma PaddedSpells(n: nat, w: nat)
    requires w >= 1 && n < Power10(w)
    ensures |Padded(n, w)| == w && Digits(Padded(n, w)) && Value(Padded(n, w)) == n
  {
    PaddedFixed(n, w);
    FixedSpells(n, w);
  }

  /** A date and a time of day written out: 20 characters, six numbers and what separates them. */
  ghost predicate Spells(r: string, date: Date, hour: int, minute: int, second: int) {
    && |r| == 20 && r[4] == '-' && r[7] == '-' && r[10] == 'T' && r[13] == ':' && r[16] == ':' && r[19] == 'Z'
    && Digits(r[..4]) && Digits(r[5..7]) && Digits(r[8..10]) && Digits(r[11..13]) && Digits(r[14..16])
    && Digits(r[17..19])
    && Value(r[..4]) == date.year && Value(r[5..7]) == date.month && Value(r[8..10]) == date.day
    && Value(r[11..13]) == hour && Value(r[14..16]) == minute && Value(r[17..19]) == second
  }

  lemma TimeParts(h: string, mi: string, s: string)
    requires |h| == |mi| == |s| == 2
    ensures var t := h + (":" + (mi + (":" + (s + "Z"))));
            && |t| == 9 && t[2] == ':' && t[5] == ':' && t[8] == 'Z' && t[..2] == h && t[3..5] == mi && t[6..8] == s
  {
  }

  lemma DateParts(y: string, mo: string, d: string, t: string)
    requires |y| == 4 && |mo| == |d| == 2 && |t| == 9
    ensures var r := y + ("-" + (mo + ("-" + (d + ("T" + t)))));
            && |r| == 20 && r[4] == '-' && r[7] == '-' && r[10] == 'T'
            && r[..4] == y && r[5..7] == mo && r[8..10] == d && r[11..] == t
  {
  }

  lemma Parts(y: string, mo: string, d: string, h: string, mi: string, s: string)
    requires |y| == 4 && |mo| == |d| == |h| == |mi| == |s| == 2
    ensures var r := y + ("-" + (mo + ("-" + (d + ("T" + (h + (":" + (mi + (":" + (s + "Z"))))))))));
            && |r| == 20 && r[4] == '-' && r[7] == '-' && r[10] == 'T' && r[13] == ':' && r[16] == ':' && r[19] == 'Z'
            && r[..4] == y && r[5..7] == mo && r[8..10] == d && r[11..13] == h && r[14..16] == mi && r[17..19] == s
  {
    var t := h + (":" + (mi + (":" + (s + "Z"))));
    TimeParts(h, mi, s);
    DateParts(y, mo, d, t);
    Tail(y + ("-" + (mo + ("-" + (d + ("T" + t))))), t);
  }

  lemma Tail(r: string, t: string)
    requires |r| == 20 && r[11..] == t
    ensures r[13] == t[2] && r[16] == t[5] && r[19] == t[8]
    ensures r[11..13] == t[..2] && r[14..16] == t[3..5] && r[17..19] == t[6..8]
  {
  }

  lemma TextSpells(y: nat, mo: nat, d: nat, h: nat, mi: nat, s: nat)
    requires FitsText(y, mo, d, h, mi, s)
    ensures Spells(Text(y, mo, d, h, mi, s), Date(y, mo, d), h, mi, s)
  {
    assert Power10(2) == 100 && Power10(4) == 10000;
    hide Padded, Digits, Value;
    PaddedSpells(y, 4);
    PaddedSpells(mo, 2);
    PaddedSpells(d, 2);
    PaddedSpells(h, 2);
    PaddedSpells(mi, 2);
    PaddedSpells(s, 2);
    Parts(Padded(y, 4), Padded(mo, 2), Padded(d, 2), Padded(h, 2), Padded(mi, 2), Padded(s, 2));
  }

  lemma TextLength(y: nat, mo: nat, d: nat, h: nat, mi: nat, s: nat)
    requires FitsText(y, mo, d, h, mi, s)
    ensures |Text(y, mo, d, h, mi, s)| == 20
  {
    hide Text;
    TextSpells(y, mo, d, h, mi, s);
  }

  lemma CivilFields(secs: u64)
    ensures var c, n := Civil(secs), secs as int;
            && c.date == DaysLater(n / 86_400) && Valid(c.date) && c.date.year >= 1970
            && c.hour == n % 86_400 / 3600 && c.minute == n % 86_400 / 60 % 60 && c.second == n % 86_400 % 60
            && c.hour <= 23 && c.minute <= 59 && c.second <= 59
  {
    hide CivilFromDays, DaysLater;
    CivilIsCalendar(secs);
    YearAfterEpoch((secs / 86_400) as int);
  }

  /** While the year has four digits, the text spells the date reached day by day and the time of day. */
  lemma TextSpellsFields(secs: u64)
    requires DaysLater(secs as int / 86_400).year <= 9999
    ensures var n := secs as int;
            Spells(Rfc3339Utc(secs), DaysLater(n / 86_400), n % 86_400 / 3600, n % 86_400 / 60 % 60, n % 86_400 % 60)
  {
    hide Civil, DaysLater, Spells, Text;
    CivilFields(secs);
    var c := Civil(secs);
    TextSpells(c.date.year, c.date.month, c.date.day, c.hour, c.minute, c.second);
  }

  /** Text order is field order, most significant field first. */
  lemma TextFieldOrder(y: nat, mo: nat, d: nat, h: nat, mi: nat, s: nat,
                       y': nat, mo': nat, d': nat, h': nat, mi': nat, s': nat)
    requires FitsText(y, mo, d, h, mi, s) && FitsText(y', mo', d', h', mi', s')
    ensures Lexical.Less(Text(y, mo, d, h, mi, s), Text(y', mo', d', h', mi', s'))
            <==> (y < y' || (y == y' && (mo < mo' || (mo == mo' && (d < d' || (d == d' &&
                 (h < h' || (h == h' && (mi < mi' || (mi == mi' && s < s'))))))))))
  {
    assert Power10(2) == 100 && Power10(4) == 10000;
    FieldOrder(s, s', 2, "Z", "Z");
    Lexical.Irreflexive("Z");
    var a5, b5 := Padded(s, 2) + "Z", Padded(s', 2) + "Z";
    SeparatorOrder(":", a5, b5);
    FieldOrder(mi, mi', 2, ":" + a5, ":" + b5);
    var a4, b4 := Padded(mi, 2) + (":" + a5), Padded(mi', 2) + (":" + b5);
    SeparatorOrder(":", a4, b4);
    FieldOrder(h, h', 2, ":" + a4, ":" + b4);
    var a3, b3 := Padded(h, 2) + (":" + a4), Padded(h', 2) + (":" + b4);
    SeparatorOrder("T", a3, b3);
    FieldOrder(d, d', 2, "T" + a3, "T" + b3);
    var a2, b2 := Padded(d, 2) + ("T" + a3), Padded(d', 2) + ("T" + b3);
    SeparatorOrder("-", a2, b2);
    FieldOrder(mo, mo', 2, "-" + a2, "-" + b2);
    var a1, b1 := Padded(mo, 2) + ("-" + a2), Padded(mo', 2) + ("-" + b2);
    SeparatorOrder("-", a1, b1);
    FieldOrder(y, y', 4, "-" + a1, "-" + b1);
  }

  lemma FieldsFit(c: Stamp)
    requires Valid(c.date) && 0 <= c.date.year <= 9999
    requires 0 <= c.hour <= 23 && 0 <= c.minute <= 59 && 0 <= c.second <= 59
    ensures 0 <= c.date.month && 0 <= c.date.day
    ensures FitsText(c.date.year, c.date.month, c.date.day, c.hour, c.minute, c.second)
  {
  }

  /** Instants compare by day, then hour, minute and second. */
  lemma ClockOrder(a: nat, b: nat)
    ensures var (h, h') := (a % 86_400 / 3600, b % 86_400 / 3600);
            var (m, m') := (a % 86_400 / 60 % 60, b % 86_400 / 60 % 60);
            var (s, s') := (a % 86_400 % 60, b % 86_400 % 60);
            && (a < b <==> a / 86_400 < b / 86_400 || (a / 86_400 == b / 86_400
                           && (h < h' || (h == h' && (m < m' || (m == m' && s < s'))))))
            && (a == b <==> a / 86_400 == b / 86_400 && h == h' && m == m' && s == s')
  {
    ClockOfSecond(a);
    ClockOfSecond(b);
  }

  /** While the year has four digits, timestamps have 20 characters and sort as the seconds do. */
  lemma TextOrderIsTimeOrder(a: u64, b: u64)
    requires Civil(a).date.year <= 9999 && Civil(b).date.year <= 9999
    ensures |Rfc3339Utc(a)| == 20
    ensures Lexical.Less(Rfc3339Utc(a), Rfc3339Utc(b)) <==> a < b
    ensures Rfc3339Utc(a) == Rfc3339Utc(b) <==> a == b
  {
    hide Civil, CivilFromDays, DaysLater, Text, DayNumber;
    CivilFields(a);
    CivilFields(b);
    var m, n := (a / 86_400) as int, (b / 86_400) as int;
    DaysLaterNumber(m);
    DaysLaterNumber(n);
    var c, d := Civil(a), Civil(b);
    NumberOrder(c.date, d.date);
    NumberOrder(d.date, c.date);
    FieldsFit(c);
    FieldsFit(d);
    ClockOrder(a as int, b as int);
    TextLength(c.date.year, c.date.month, c.date.day, c.hour, c.minute, c.second);
    TextFieldOrder(c.date.year, c.date.month, c.date.day, c.hour, c.minute, c.second,
                   d.date.year, d.date.month, d.date.day, d.hour, d.minute, d.second);
    TextFieldOrder(d.date.year, d.date.month, d.date.day, d.hour, d.minute, d.second,
                   c.date.year, c.date.month, c.date.day, c.hour, c.minute, c.second);
    Lexical.Irreflexive(Rfc3339Utc(a));
  }
}
