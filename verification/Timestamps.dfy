/** Printed timestamps: fixed width, and ordered as the times they show. */
module Timestamps {
  import opened Ordering
  import opened Calendar

  function Digit(n: nat): char
    requires n < 10
  {
    '0' + n as char
  }

  function Digits(n: nat): string {
    if n < 10 then [Digit(n)] else Digits(n / 10) + [Digit(n % 10)]
  }

  function Zeros(n: int): string {
    if n <= 0 then "" else "0" + Zeros(n - 1)
  }

  /** Zero-padded to a minimum width; a sign counts towards the width. */
  function Padded(x: int, width: nat): string {
    if x < 0 then "-" + Zeros(width - 1 - |Digits(-x)|) + Digits(-x)
    else Zeros(width - |Digits(x)|) + Digits(x)
  }

  function Format(c: Civil): string {
    Padded(c.year, 4) + ("-" + (Padded(c.month, 2) + ("-" + (Padded(c.day, 2) + ("T" + (Padded(c.hour, 2)
      + (":" + (Padded(c.minute, 2) + (":" + (Padded(c.second, 2) + "Z"))))))))))
  }

  function FormatIso8601(epochSecs: int): string {
    Format(EpochToCivil(epochSecs))
  }

  /** The number that a text of decimal digits stands for. */
  function Decimal(s: string): int {
    if s == "" then 0 else 10 * Decimal(s[..|s| - 1]) + (s[|s| - 1] as int - 48)
  }

  predicate AllDigits(s: string) {
    forall i :: 0 <= i < |s| ==> '0' <= s[i] <= '9'
  }

  lemma {:induction false} DigitsMean(n: nat)
    ensures Digits(n) != "" && AllDigits(Digits(n)) && Decimal(Digits(n)) == n
    ensures Digits(n)[0] == '0' ==> n == 0 && |Digits(n)| == 1
  {
    if n < 10 {
      assert Digits(n)[..0] == "";
    } else {
      DigitsMean(n / 10);
      assert Digits(n)[..|Digits(n)| - 1] == Digits(n / 10);
    }
  }

  lemma {:induction false} ZerosMean(n: int, s: string)
    requires AllDigits(s)
    ensures |Zeros(n)| == (if n < 0 then 0 else n) && AllDigits(Zeros(n) + s) && Decimal(Zeros(n) + s) == Decimal(s)
    decreases n
  {
    if n > 0 {
      ZerosMean(n - 1, s);
      assert Zeros(n) + s == "0" + (Zeros(n - 1) + s);
      LeadingZero(Zeros(n - 1) + s);
    } else {
      assert Zeros(n) + s == s;
    }
  }

  lemma {:induction false} LeadingZero(s: string)
    ensures Decimal("0" + s) == Decimal(s)
  {
    if s != "" {
      assert ("0" + s)[..|"0" + s| - 1] == "0" + s[..|s| - 1];
      LeadingZero(s[..|s| - 1]);
    } else {
      assert "0" + s == "0" && "0"[..0] == "";
    }
  }

  /** The text shows a number in at least this many characters, longer only without leading zeros. */
  predicate Fills(s: string, n: nat, room: int) {
    AllDigits(s) && Decimal(s) == n && s != "" && |s| >= room && (|s| > room ==> s == "0" || s[0] != '0')
  }

  /** Digits behind as many zeros as there is room for. */
  lemma {:induction false} FilledMeans(n: nat, room: int)
    ensures Zeros(room - |Digits(n)|) + Digits(n) != "" && Fills(Zeros(room - |Digits(n)|) + Digits(n), n, room)
  {
    DigitsMean(n);
    hide Decimal;
    ZerosMean(room - |Digits(n)|, Digits(n));
    hide Digits, Zeros;
    if |Digits(n)| >= room {
      assert Zeros(room - |Digits(n)|) == "";
      assert "" + Digits(n) == Digits(n);
    }
  }

  lemma {:induction false} Signed(filled: string)
    ensures ("-" + filled)[0] == '-' && ("-" + filled)[1..] == filled
  {
  }

  lemma {:induction false} NegativePadded(x: int, width: nat)
    requires x < 0
    ensures Padded(x, width) == "-" + (Zeros(width - 1 - |Digits(-x)|) + Digits(-x))
  {
    hide Digits, Zeros;
    assert "-" + Zeros(width - 1 - |Digits(-x)|) + Digits(-x) == "-" + (Zeros(width - 1 - |Digits(-x)|) + Digits(-x));
  }

  /** A padded number is its digits, behind a minus sign when it is negative. */
  lemma {:induction false} PaddedMeans(x: int, width: nat)
    ensures x >= 0 ==> Fills(Padded(x, width), x, width)
    ensures x < 0 ==>
      var s := Padded(x, width);
      |s| > 1 && s[0] == '-' && Fills(s[1..], -x, width - 1)
  {
    if x >= 0 {
      FilledMeans(x, width);
    } else {
      FilledMeans(-x, width - 1);
      NegativePadded(x, width);
      hide *;
      Signed(Zeros(width - 1 - |Digits(-x)|) + Digits(-x));
    }
  }

  // ----- fixed width

  lemma {:induction false} TwoDigits(x: int)
    requires 0 <= x < 100
    ensures Padded(x, 2) == [Digit(x / 10), Digit(x % 10)]
  {
    if x < 10 {
      assert Digits(x) == [Digit(x)];
      assert Zeros(1) == "0" + Zeros(0);
    } else {
      assert Digits(x) == Digits(x / 10) + [Digit(x % 10)];
      assert Digits(x / 10) == [Digit(x / 10)];
    }
  }

  lemma {:induction false} SmallDigits(x: nat)
    requires x < 10000
    ensures x < 10 ==> Digits(x) == [Digit(x)]
    ensures 10 <= x < 100 ==> Digits(x) == [Digit(x / 10), Digit(x % 10)]
    ensures 100 <= x < 1000 ==> Digits(x) == [Digit(x / 100), Digit(x / 10 % 10), Digit(x % 10)]
    ensures 1000 <= x ==> Digits(x) == [Digit(x / 1000), Digit(x / 100 % 10), Digit(x / 10 % 10), Digit(x % 10)]
  {
    if x >= 10 {
      SmallDigits(x / 10);
    }
  }

  lemma {:induction false} FourChars(x: int)
    requires 0 <= x < 10000
    ensures Padded(x, 4) == [Digit(x / 1000), Digit(x / 100 % 10), Digit(x / 10 % 10), Digit(x % 10)]
  {
    SmallDigits(x);
    hide Digits;
    assert Zeros(0) == "" && Zeros(1) == "0" + Zeros(0) && Zeros(2) == "0" + Zeros(1) && Zeros(3) == "0" + Zeros(2);
    assert Digit(0) == '0';
    if x < 10 {
      assert |Digits(x)| == 1 && x / 10 == 0;
    } else if x < 100 {
      assert |Digits(x)| == 2 && x / 100 == 0 && x / 10 % 10 == x / 10;
    } else if x < 1000 {
      assert |Digits(x)| == 3 && x / 1000 == 0 && x / 100 % 10 == x / 100;
    } else {
      assert |Digits(x)| == 4;
    }
  }

  lemma {:induction false} FourDigits(x: int)
    requires 0 <= x < 10000
    ensures Padded(x, 4) == Padded(x / 100, 2) + Padded(x % 100, 2)
  {
    FourChars(x);
    TwoDigits(x / 100);
    TwoDigits(x % 100);
    hide Padded, Digit;
    HundredSplits(x, x / 100, x % 100);
  }

  lemma {:induction false} HundredSplits(x: nat, h: nat, r: nat)
    requires x == 100 * h + r && r < 100 && h < 100
    ensures h / 10 == x / 1000 && h % 10 == x / 100 % 10 && r / 10 == x / 10 % 10 && r % 10 == x % 10
  {
    var a, b, c, d := h / 10, h % 10, r / 10, r % 10;
    assert x == 1000 * a + 100 * b + 10 * c + d;
    assert x / 10 == 100 * a + 10 * b + c;
    assert x / 100 == 10 * a + b;
  }

  // ----- order

  /** Strings of equal length decide the order of what they start. */
  lemma {:induction false} LtByPrefix(p: string, q: string, r: string, s: string)
    requires |p| == |q|
    ensures Lt(p + r, q + s) <==> Lt(p, q) || (p == q && Lt(r, s))
  {
    if p == "" {
      assert p + r == r && q + s == s;
    } else {
      assert (p + r)[1..] == p[1..] + r && (q + s)[1..] == q[1..] + s;
      LtByPrefix(p[1..], q[1..], r, s);
      assert p == [p[0]] + p[1..] && q == [q[0]] + q[1..];
    }
  }

  lemma {:induction false} DigitOrder(m: nat, n: nat)
    requires m < 10 && n < 10
    ensures Digit(m) < Digit(n) <==> m < n
    ensures Digit(m) == Digit(n) <==> m == n
  {
  }

  lemma {:induction false} LtOfTwo(a: char, b: char, c: char, d: char)
    ensures Lt([a, b], [c, d]) <==> a < c || (a == c && b < d)
  {
    assert [a, b][1..] == [b] && [c, d][1..] == [d];
    assert !Lt("", "") && [b][1..] == "" && [d][1..] == "";
    assert Lt([b], [d]) <==> b < d;
  }

  lemma {:induction false} TwoDigitOrder(x: int, y: int)
    requires 0 <= x < 100 && 0 <= y < 100
    ensures Lt(Padded(x, 2), Padded(y, 2)) <==> x < y
    ensures Padded(x, 2) == Padded(y, 2) <==> x == y
    ensures |Padded(x, 2)| == |Padded(y, 2)| == 2
  {
    hide Padded, Lt, Digit;
    TwoDigits(x);
    TwoDigits(y);
    LtOfTwo(Digit(x / 10), Digit(x % 10), Digit(y / 10), Digit(y % 10));
    DigitOrder(x / 10, y / 10);
    DigitOrder(x % 10, y % 10);
    assert x == 10 * (x / 10) + x % 10 && y == 10 * (y / 10) + y % 10;
    if Padded(x, 2) == Padded(y, 2) {
      assert Padded(x, 2)[0] == Padded(y, 2)[0] && Padded(x, 2)[1] == Padded(y, 2)[1];
    }
  }

  lemma {:induction false} FourDigitOrder(x: int, y: int)
    requires 0 <= x < 10000 && 0 <= y < 10000
    ensures Lt(Padded(x, 4), Padded(y, 4)) <==> x < y
    ensures Padded(x, 4) == Padded(y, 4) <==> x == y
    ensures |Padded(x, 4)| == |Padded(y, 4)| == 4
  {
    FourDigits(x);
    FourDigits(y);
    hide Padded, Lt;
    TwoDigitOrder(x / 100, y / 100);
    TwoDigitOrder(x % 100, y % 100);
    LtByPrefix(Padded(x / 100, 2), Padded(y / 100, 2), Padded(x % 100, 2), Padded(y % 100, 2));
    if Padded(x, 4) == Padded(y, 4) {
      assert Padded(x, 4)[..2] == Padded(x / 100, 2) && Padded(x, 4)[2..] == Padded(x % 100, 2);
      assert Padded(y, 4)[..2] == Padded(y / 100, 2) && Padded(y, 4)[2..] == Padded(y % 100, 2);
    }
  }

  /** Every field in the range its width can show. */
  predicate Printable(c: Civil) {
    && 0 <= c.year < 10000 && 0 <= c.month < 100 && 0 <= c.day < 100
    && 0 <= c.hour < 100 && 0 <= c.minute < 100 && 0 <= c.second < 100
  }

  /** Lexicographic, from the year down. */
  predicate EarlierFields(c: Civil, d: Civil) {
    c.year < d.year || (c.year == d.year && (
    c.month < d.month || (c.month == d.month && (
    c.day < d.day || (c.day == d.day && (
    c.hour < d.hour || (c.hour == d.hour && (
    c.minute < d.minute || (c.minute == d.minute && c.second < d.second)))))))))
  }

  /** One more two-digit field behind a separator. */
  lemma {:induction false} FieldOrder(sep: string, x: int, y: int, r: string, s: string)
    requires 0 <= x < 100 && 0 <= y < 100
    ensures Lt(sep + (Padded(x, 2) + r), sep + (Padded(y, 2) + s)) <==> x < y || (x == y && Lt(r, s))
  {
    hide Lt, Padded;
    TwoDigitOrder(x, y);
    LtByPrefix(sep, sep, Padded(x, 2) + r, Padded(y, 2) + s);
    LtIrreflexive(sep);
    LtByPrefix(Padded(x, 2), Padded(y, 2), r, s);
  }

  lemma {:induction false} FormatOrder(c: Civil, d: Civil)
    requires Printable(c) && Printable(d)
    ensures Lt(Format(c), Format(d)) <==> EarlierFields(c, d)
  {
    hide Lt, Padded;
    var s1, t1 := ":" + (Padded(c.second, 2) + "Z"), ":" + (Padded(d.second, 2) + "Z");
    var s2, t2 := ":" + (Padded(c.minute, 2) + s1), ":" + (Padded(d.minute, 2) + t1);
    var s3, t3 := "T" + (Padded(c.hour, 2) + s2), "T" + (Padded(d.hour, 2) + t2);
    var s4, t4 := "-" + (Padded(c.day, 2) + s3), "-" + (Padded(d.day, 2) + t3);
    var s5, t5 := "-" + (Padded(c.month, 2) + s4), "-" + (Padded(d.month, 2) + t4);
    LtIrreflexive("Z");
    FieldOrder(":", c.second, d.second, "Z", "Z");
    FieldOrder(":", c.minute, d.minute, s1, t1);
    FieldOrder("T", c.hour, d.hour, s2, t2);
    FieldOrder("-", c.day, d.day, s3, t3);
    FieldOrder("-", c.month, d.month, s4, t4);
    FourDigitOrder(c.year, d.year);
    LtByPrefix(Padded(c.year, 4), Padded(d.year, 4), s5, t5);
  }

  predicate EarlierDate(a: Date, b: Date) {
    a.year < b.year || (a.year == b.year && (a.month < b.month || (a.month == b.month && a.day < b.day)))
  }

  lemma {:induction false} DayAfter(days: int)
    ensures DateOf(days + 1) == NextDay(DateOf(days))
  {
    if days < 0 {
      DateOfMeaning(days + 1);
      StepsInvert(DateOf(days + 1));
    }
  }

  lemma {:induction false} DatesAdvance(a: int, b: int)
    requires a < b
    ensures EarlierDate(DateOf(a), DateOf(b))
    decreases b - a
  {
    hide DateOf, MonthLength;
    DayAfter(b - 1);
    DateOfMeaning(b - 1);
    if a < b - 1 {
      DatesAdvance(a, b - 1);
    }
  }

  /** The year shown for a second lies between 0 and 9999. */
  predicate InFourDigits(epochSecs: int) {
    0 <= DateOf(DayOf(epochSecs)).year < 10000
  }

  lemma {:induction false} ClockOrder(a: int, b: int)
    requires 0 <= a < 86400 && 0 <= b < 86400
    ensures var k, l := ClockOf(a), ClockOf(b);
      a < b <==> k.hour < l.hour || (k.hour == l.hour && (k.minute < l.minute || (k.minute == l.minute && k.second < l.second)))
  {
    ClockSplits(a);
    ClockSplits(b);
    hide ClockOf;
  }

  lemma {:induction false} Shown(epochSecs: int)
    requires InFourDigits(epochSecs)
    ensures var c := EpochToCivil(epochSecs);
      && Printable(c) && Date(c.year, c.month, c.day) == DateOf(DayOf(epochSecs))
  {
    EpochMeaning(epochSecs);
    hide DateOf, EpochToCivil, SecondsOf, MonthLength;
    assert MonthLength(DateOf(DayOf(epochSecs)).year, DateOf(DayOf(epochSecs)).month) <= 31 by {
      MonthsAreShort(DateOf(DayOf(epochSecs)).year, DateOf(DayOf(epochSecs)).month);
    }
  }

  lemma {:induction false} MonthsAreShort(y: int, m: int)
    ensures MonthLength(y, m) <= 31
  {
  }

  lemma {:induction false} FieldsOrder(a: int, b: int)
    requires InFourDigits(a) && InFourDigits(b) && a < b
    ensures EarlierFields(EpochToCivil(a), EpochToCivil(b))
  {
    hide DateOf, InFourDigits, Printable, CivilFromDays, Wrap32, DayOf, SecondOfDay, ClockOf;
    Shown(a);
    Shown(b);
    DaySplits(a);
    DaySplits(b);
    if DayOf(a) < DayOf(b) {
      DatesAdvance(DayOf(a), DayOf(b));
      hide EpochToCivil;
    } else {
      ClockOrder(SecondOfDay(a), SecondOfDay(b));
    }
  }

  /** Twenty characters in the form of section 5.6 of RFC 3339. */
  predicate InForm(s: string) {
    && |s| == 20 && s[4] == '-' && s[7] == '-' && s[10] == 'T' && s[13] == ':' && s[16] == ':' && s[19] == 'Z'
  }

  function DigitValue(c: char): int {
    c as int - '0' as int
  }

  function TwoDigitValue(a: char, b: char): int {
    10 * DigitValue(a) + DigitValue(b)
  }

  /** The fields of a text in the fixed form, read as decimal numbers. */
  function ReadBack(s: string): Civil
    requires |s| == 20
  {
    Civil(100 * TwoDigitValue(s[0], s[1]) + TwoDigitValue(s[2], s[3]), TwoDigitValue(s[5], s[6]), TwoDigitValue(s[8], s[9]),
      TwoDigitValue(s[11], s[12]), TwoDigitValue(s[14], s[15]), TwoDigitValue(s[17], s[18]))
  }

  lemma {:induction false} TwoReadBack(x: int)
    requires 0 <= x < 100
    ensures |Padded(x, 2)| == 2 && TwoDigitValue(Padded(x, 2)[0], Padded(x, 2)[1]) == x
  {
    TwoDigits(x);
  }

  lemma {:induction false} FieldsReadBack(c: Civil)
    requires Printable(c)
    ensures InForm(Format(c)) && ReadBack(Format(c)) == c
  {
    FourDigits(c.year);
    TwoReadBack(c.year / 100);
    TwoReadBack(c.year % 100);
    TwoReadBack(c.month);
    TwoReadBack(c.day);
    TwoReadBack(c.hour);
    TwoReadBack(c.minute);
    TwoReadBack(c.second);
    hide Padded, TwoDigitValue;
  }

  /** A printed timestamp, read as a date and a clock time, is the second it was printed from. */
  lemma {:induction false} PrintedReadsBack(epochSecs: int)
    requires InFourDigits(epochSecs)
    ensures |FormatIso8601(epochSecs)| == 20 && SecondsOf(ReadBack(FormatIso8601(epochSecs))) == epochSecs
  {
    hide DateOf, EpochToCivil, Format, SecondsOf, ReadBack, MonthLength;
    Shown(epochSecs);
    FieldsReadBack(EpochToCivil(epochSecs));
    EpochMeaning(epochSecs);
  }

  /** Printed timestamps order as time: in years 0 to 9999 every output has the fixed form, and one
      output precedes another exactly when its second does. */
  lemma {:induction false} PrintedOrder(a: int, b: int)
    requires InFourDigits(a) && InFourDigits(b)
    ensures InForm(FormatIso8601(a))
    ensures Lt(FormatIso8601(a), FormatIso8601(b)) <==> a < b
    ensures FormatIso8601(a) == FormatIso8601(b) <==> a == b
  {
    hide DateOf, Lt, EpochToCivil, Format, InFourDigits, EarlierFields;
    Shown(a);
    Shown(b);
    FieldsReadBack(EpochToCivil(a));
    FormatOrder(EpochToCivil(a), EpochToCivil(b));
    FormatOrder(EpochToCivil(b), EpochToCivil(a));
    LtIrreflexive(FormatIso8601(a));
    if a < b {
      FieldsOrder(a, b);
      LtAsymmetric(FormatIso8601(a), FormatIso8601(b));
    } else if b < a {
      FieldsOrder(b, a);
      LtAsymmetric(FormatIso8601(b), FormatIso8601(a));
    }
  }
}
