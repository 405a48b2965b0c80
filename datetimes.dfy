/**
 * Naive date-times to the minute and the strict textual form "YYYY-MM-DD HH:MM"
 * that main.py parses with `datetime.strptime(s, "%Y-%m-%d %H:%M")` before any
 * reminder is written.
 */
module DateTimes {
  import opened Wrappers

  datatype DateTime = DateTime(year: int, month: int, day: int, hour: int, minute: int)

  predicate IsLeapYear(y: int) {
    y % 4 == 0 && (y % 100 != 0 || y % 400 == 0)
  }

  function DaysInMonth(y: int, m: int): (n: int)
    requires 1 <= m <= 12
    ensures 28 <= n <= 31
    ensures m == 2 ==> (n == 29 <==> IsLeapYear(y))
  {
    if m == 2 then (if IsLeapYear(y) then 29 else 28)
    else if m == 4 || m == 6 || m == 9 || m == 11 then 30
    else 31
  }

  /** The date-times Python's `datetime` can represent (years 1 to 9999, real calendar days). */
  predicate ValidDateTime(d: DateTime) {
    && 1 <= d.year <= 9999
    && 1 <= d.month <= 12
    && 1 <= d.day <= DaysInMonth(d.year, d.month)
    && 0 <= d.hour <= 23
    && 0 <= d.minute <= 59
  }

  predicate IsDigit(c: char) {
    '0' <= c <= '9'
  }

  predicate AllDigits(s: string) {
    forall i :: 0 <= i < |s| ==> IsDigit(s[i])
  }

  function Pow10(n: nat): (p: nat)
    ensures p >= 1
  {
    if n == 0 then 1 else 10 * Pow10(n - 1)
  }

  /** The value of a run of decimal digits, most significant digit first. */
  function DigitsValue(s: string): (v: nat)
    requires AllDigits(s)
    ensures v < Pow10(|s|)
  {
    if s == [] then 0
    else
      var init := DigitsValue(s[..|s| - 1]);
      assert init + 1 <= Pow10(|s| - 1);
      init * 10 + (s[|s| - 1] as int - '0' as int)
  }

  /** `n` written with exactly `width` decimal digits, zero-padded on the left. */
  function Padded(n: nat, width: nat): (s: string)
    ensures |s| == width && AllDigits(s)
  {
    if width == 0 then ""
    else Padded(n / 10, width - 1) + [('0' as int + n % 10) as char]
  }

  lemma {:induction false} ValueOfPadded(n: nat, width: nat)
    requires n < Pow10(width)
    ensures DigitsValue(Padded(n, width)) == n
  {
    if width > 0 {
      ValueOfPadded(n / 10, width - 1);
      var s := Padded(n, width);
      assert s[..|s| - 1] == Padded(n / 10, width - 1);
    }
  }

  lemma DivModTen(q: nat, d: int)
    requires 0 <= d < 10
    ensures (q * 10 + d) / 10 == q && (q * 10 + d) % 10 == d
  {
  }

  lemma {:induction false} PaddedOfValue(s: string)
    requires AllDigits(s)
    ensures Padded(DigitsValue(s), |s|) == s
  {
    if s != [] {
      var init := s[..|s| - 1];
      var last := s[|s| - 1];
      var d := last as int - '0' as int;
      PaddedOfValue(init);
      DivModTen(DigitsValue(init), d);
      calc {
        Padded(DigitsValue(s), |s|);
        Padded(DigitsValue(s) / 10, |s| - 1) + [('0' as int + DigitsValue(s) % 10) as char];
        Padded(DigitsValue(init), |init|) + [last];
        init + [last];
      }
      assert s == init + [last];
    }
  }

  /**
   * The strict reading of "%Y-%m-%d %H:%M": four digits, '-', two digits, '-',
   * two digits, ' ', two digits, ':', two digits, nothing else, and the fields
   * must name a real minute. `None` is the `ValueError` strptime raises.
   */
  function ParseScheduleTime(s: string): (r: Option<DateTime>)
    ensures r.Some? ==> ValidDateTime(r.value) && |s| == 16
  {
    if && |s| == 16
       && s[4] == '-' && s[7] == '-' && s[10] == ' ' && s[13] == ':'
       && AllDigits(s[0..4]) && AllDigits(s[5..7]) && AllDigits(s[8..10])
       && AllDigits(s[11..13]) && AllDigits(s[14..16])
    then
      var d := DateTime(DigitsValue(s[0..4]), DigitsValue(s[5..7]), DigitsValue(s[8..10]),
                        DigitsValue(s[11..13]), DigitsValue(s[14..16]));
      if ValidDateTime(d) then Some(d) else None
    else
      None
  }

  /** strftime("%Y-%m-%d %H:%M") of a representable date-time. */
  function Format(d: DateTime): (s: string)
    requires ValidDateTime(d)
    ensures |s| == 16
  {
    Padded(d.year, 4) + "-" + Padded(d.month, 2) + "-" + Padded(d.day, 2) + " "
      + Padded(d.hour, 2) + ":" + Padded(d.minute, 2)
  }

  /** Every representable date-time, once formatted, parses back to itself. */
  lemma ParseFormat(d: DateTime)
    requires ValidDateTime(d)
    ensures ParseScheduleTime(Format(d)) == Some(d)
  {
    var s := Format(d);
    assert Pow10(2) == 100 && Pow10(4) == 10000;
    assert s[0..4] == Padded(d.year, 4);
    assert s[5..7] == Padded(d.month, 2);
    assert s[8..10] == Padded(d.day, 2);
    assert s[11..13] == Padded(d.hour, 2);
    assert s[14..16] == Padded(d.minute, 2);
    ValueOfPadded(d.year, 4);
    ValueOfPadded(d.month, 2);
    ValueOfPadded(d.day, 2);
    ValueOfPadded(d.hour, 2);
    ValueOfPadded(d.minute, 2);
  }

  /** The parse is strict: a string it accepts is exactly the formatting of its result. */
  lemma ParseIsCanonical(s: string)
    requires ParseScheduleTime(s).Some?
    ensures Format(ParseScheduleTime(s).value) == s
  {
    var d := ParseScheduleTime(s).value;
    PaddedOfValue(s[0..4]);
    PaddedOfValue(s[5..7]);
    PaddedOfValue(s[8..10]);
    PaddedOfValue(s[11..13]);
    PaddedOfValue(s[14..16]);
    assert s == s[0..4] + "-" + s[5..7] + "-" + s[8..10] + " " + s[11..13] + ":" + s[14..16];
  }
}
