/** `AudioCDWriter._format_time` (Singe.py): seconds rendered as `M:SS`, or
    `H:MM:SS` once there is at least one whole hour. */
module ClockFormat {
  import opened Results
  import opened TextUtil

  /** Python's `int(x)` on a float: truncation toward zero. */
  function TruncateTowardZero(x: real): (n: int)
    ensures x >= 0.0 ==> 0 <= n && n as real <= x < n as real + 1.0
    ensures x < 0.0 ==> n <= 0 && n as real - 1.0 < x <= n as real
  {
    if x >= 0.0 then x.Floor else -((-x).Floor)
  }

  /** The text `_format_time` builds from the whole number of seconds. Python's
      `//` and `%` by a positive divisor round toward negative infinity, as
      Dafny's do, so `minutes` and `secs` are never negative. */
  function FormatClock(total: int): string {
    var hours := total / 3600;
    var minutes := (total % 3600) / 60;
    var secs := total % 60;
    if hours > 0 then NatToDecimal(hours) + ":" + ZeroPad2(minutes) + ":" + ZeroPad2(secs)
    else NatToDecimal(minutes) + ":" + ZeroPad2(secs)
  }

  /** `_format_time(seconds)`: `timedelta(seconds=int(seconds))` keeps the
      truncated whole number of seconds, which is then formatted. */
  function FormatTime(seconds: real): string {
    FormatClock(TruncateTowardZero(seconds))
  }

  predicate IsNumeral(f: string) { |f| >= 1 && AllIn(f, Digit) }

  /** A two-digit field holding a value below 60. */
  predicate IsSexagesimal(f: string) { |f| == 2 && AllIn(f, Digit) && DecimalValue(f) < 60 }

  /** Reads `M:SS` or `H:MM:SS` back into a number of seconds. */
  function ParseClock(s: string): Option<int> {
    FieldsValue(SplitOn(s, ':'))
  }

  /** The number of seconds the fields of a clock text stand for. */
  function FieldsValue(f: seq<string>): Option<int> {
    if |f| == 2 && IsNumeral(f[0]) && IsSexagesimal(f[1]) then
      Some(DecimalValue(f[0]) * 60 + DecimalValue(f[1]))
    else if |f| == 3 && IsNumeral(f[0]) && IsSexagesimal(f[1]) && IsSexagesimal(f[2]) then
      Some(DecimalValue(f[0]) * 3600 + DecimalValue(f[1]) * 60 + DecimalValue(f[2]))
    else None
  }

  lemma NoColonInDigits(s: string)
    requires AllIn(s, Digit)
    ensures ':' !in s
  {
  }

  lemma SplitTwoFields(a: string, c: string)
    requires AllIn(a, Digit) && AllIn(c, Digit)
    ensures SplitOn(a + ":" + c, ':') == [a, c]
  {
    NoColonInDigits(a);
    NoColonInDigits(c);
    SplitOnWithout(c, ':');
    SplitOnFirst(a, c, ':');
  }

  lemma SplitThreeFields(a: string, b: string, c: string)
    requires AllIn(a, Digit) && AllIn(b, Digit) && AllIn(c, Digit)
    ensures SplitOn(a + ":" + b + ":" + c, ':') == [a, b, c]
  {
    NoColonInDigits(a);
    SplitTwoFields(b, c);
    assert a + ":" + b + ":" + c == a + [':'] + (b + ":" + c);
    SplitOnFirst(a, b + ":" + c, ':');
  }

  lemma DivModBySixty(n: int, q: int, r: int)
    requires 0 <= r < 60 && n == 60 * q + r
    ensures n / 60 == q && n % 60 == r
  {
  }

  lemma DivModByHour(n: int, q: int, r: int)
    requires 0 <= r < 3600 && n == 3600 * q + r
    ensures n / 3600 == q && n % 3600 == r
  {
  }

  /** The three fields of a count: `h*3600 + m*60 + s == n`, with `m` and `s` below 60. */
  lemma ClockFields(n: int)
    ensures 0 <= (n % 3600) / 60 < 60 && 0 <= n % 60 < 60
    ensures n == (n / 3600) * 3600 + ((n % 3600) / 60) * 60 + n % 60
    ensures n % 3600 == ((n % 3600) / 60) * 60 + n % 60
  {
    var r := n % 3600;
    DivModBySixty(r, r / 60, r % 60);
    DivModBySixty(n, (n / 3600) * 60 + r / 60, r % 60);
  }

  /** Fields that add up to a count are the ones `_format_time` computes. */
  lemma FieldsOfClock(n: int, h: int, m: int, s: int)
    requires 0 <= m < 60 && 0 <= s < 60 && n == h * 3600 + m * 60 + s
    ensures n / 3600 == h && (n % 3600) / 60 == m && n % 60 == s
  {
    DivModByHour(n, h, m * 60 + s);
    DivModBySixty(m * 60 + s, m, s);
    DivModBySixty(n, h * 60 + m, s);
  }

  /** The text of a count, given its fields. */
  lemma FormatClockByFields(n: int, h: int, m: int, s: int)
    requires 0 <= m < 60 && 0 <= s < 60 && n == h * 3600 + m * 60 + s
    ensures h > 0 ==> FormatClock(n) == NatToDecimal(h) + ":" + ZeroPad2(m) + ":" + ZeroPad2(s)
    ensures h <= 0 ==> FormatClock(n) == NatToDecimal(m) + ":" + ZeroPad2(s)
  {
    FieldsOfClock(n, h, m, s);
  }

  /** The fields `H`, `MM` and `SS` stand for `H*3600 + MM*60 + SS` seconds. */
  lemma ThreeFieldValue(f: seq<string>, a: string, b: string, c: string)
    requires |f| == 3 && f[0] == a && f[1] == b && f[2] == c
    requires IsNumeral(a) && IsSexagesimal(b) && IsSexagesimal(c)
    ensures FieldsValue(f) == Some(DecimalValue(a) * 3600 + DecimalValue(b) * 60 + DecimalValue(c))
  {
  }

  /** The fields `M` and `SS` stand for `M*60 + SS` seconds. */
  lemma TwoFieldValue(f: seq<string>, a: string, c: string)
    requires |f| == 2 && f[0] == a && f[1] == c
    requires IsNumeral(a) && IsSexagesimal(c)
    ensures FieldsValue(f) == Some(DecimalValue(a) * 60 + DecimalValue(c))
  {
  }

  /** For a non-negative count the text has two fields below one hour and three
      from one hour on, every field after the first is two digits below 60 (and
      the first one too below one hour), and the fields add back up to the
      count: `h*3600 + m*60 + s == n`. */
  lemma FormatClockRoundTrip(n: int)
    requires n >= 0
    ensures |SplitOn(FormatClock(n), ':')| == (if n < 3600 then 2 else 3)
    ensures n < 3600 ==> var f := SplitOn(FormatClock(n), ':'); IsNumeral(f[0]) && DecimalValue(f[0]) < 60
    ensures ParseClock(FormatClock(n)) == Some(n)
  {
    ClockFields(n);
    var hours, minutes, secs := n / 3600, (n % 3600) / 60, n % 60;
    FormatClockByFields(n, hours, minutes, secs);
    if hours > 0 {
      ReadBackWithHours(FormatClock(n), hours, minutes, secs);
    } else {
      ReadBackUnderHour(FormatClock(n), minutes, secs);
    }
  }

  lemma ReadBackWithHours(t: string, h: nat, m: nat, s: nat)
    requires m < 60 && s < 60
    requires t == NatToDecimal(h) + ":" + ZeroPad2(m) + ":" + ZeroPad2(s)
    ensures SplitOn(t, ':') == [NatToDecimal(h), ZeroPad2(m), ZeroPad2(s)]
    ensures ParseClock(t) == Some(h * 3600 + m * 60 + s)
  {
    var a, b, c := NatToDecimal(h), ZeroPad2(m), ZeroPad2(s);
    SplitThreeFields(a, b, c);
    ThreeFieldValue([a, b, c], a, b, c);
  }

  lemma ReadBackUnderHour(t: string, m: nat, s: nat)
    requires m < 60 && s < 60
    requires t == NatToDecimal(m) + ":" + ZeroPad2(s)
    ensures SplitOn(t, ':') == [NatToDecimal(m), ZeroPad2(s)]
    ensures ParseClock(t) == Some(m * 60 + s)
  {
    var a, c := NatToDecimal(m), ZeroPad2(s);
    SplitTwoFields(a, c);
    TwoFieldValue([a, c], a, c);
  }

  /** A negative count never shows hours: `hours` is then negative, and the
      text is that of the count taken modulo one hour. */
  lemma FormatClockNegative(n: int)
    requires n < 0
    ensures FormatClock(n) == FormatClock(n % 3600)
  {
    ClockFields(n);
    var hours, minutes, secs := n / 3600, (n % 3600) / 60, n % 60;
    FormatClockByFields(n, hours, minutes, secs);
    FormatClockByFields(n % 3600, 0, minutes, secs);
  }

  /** Non-negative seconds are formatted from their floor. */
  lemma FormatTimeOfNonNegative(seconds: real)
    requires seconds >= 0.0
    ensures FormatTime(seconds) == FormatClock(seconds.Floor)
    ensures ParseClock(FormatTime(seconds)) == Some(seconds.Floor)
  {
    FormatClockRoundTrip(seconds.Floor);
  }

  /** Sample renderings. */
  lemma FormatClockExamples()
    ensures FormatClock(0) == "0:00"
    ensures FormatClock(125) == "2:05"
    ensures FormatClock(3661) == "1:01:01"
    ensures FormatClock(-5) == "59:55"
  {
    FormatClockByFields(0, 0, 0, 0);
    FormatClockByFields(125, 0, 2, 5);
    FormatClockByFields(3661, 1, 1, 1);
    FormatClockNegative(-5);
    FormatClockByFields(3595, 0, 59, 55);
    assert NatToDecimal(0) == "0";
    assert NatToDecimal(2) == "2";
    assert NatToDecimal(1) == "1";
    assert NatToDecimal(59) == "59";
    assert ZeroPad2(0) == "00";
    assert ZeroPad2(5) == "05";
    assert ZeroPad2(1) == "01";
    assert ZeroPad2(55) == "55";
  }
}
