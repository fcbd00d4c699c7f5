/** The string primitives that the helpers of Singe.py rely on, restated for
    ASCII text: Python's `str.isdigit`, `str.isspace`, `str.lower`,
    `str.strip`, `str.split`, `int(...)`, `str(...)`, the `{:02d}` format
    and `os.path.basename`. */
module TextUtil {
  import opened Results

  /** An ASCII decimal digit: the ASCII part of `\d` and of `str.isdigit`. */
  predicate IsDigit(c: char) { '0' <= c <= '9' }

  /** The ASCII part of `str.isspace` (and of `\s` in a str pattern): tab,
      line feed, vertical tab, form feed, carriage return, the information
      separators 0x1C-0x1F, and space. */
  predicate IsSpace(c: char) { 9 <= c as int <= 13 || 28 <= c as int <= 32 }

  /** The character classes that the source's regular expressions repeat. */
  datatype CharClass = Digit | NonDigit | Space | UnderscoreOrSpace | NotCloseBracket

  predicate InClass(c: char, cls: CharClass) {
    match cls
    case Digit => IsDigit(c)
    case NonDigit => !IsDigit(c)
    case Space => IsSpace(c)
    case UnderscoreOrSpace => c == '_' || IsSpace(c)
    case NotCloseBracket => c != ']'
  }

  predicate AllIn(s: string, cls: CharClass) {
    forall i :: 0 <= i < |s| ==> InClass(s[i], cls)
  }

  /** Length of the longest prefix of `s` made of characters of `cls`: what a
      greedy repetition of that class consumes. */
  function Span(s: string, cls: CharClass): (n: nat)
    ensures n <= |s| && AllIn(s[..n], cls)
    ensures n < |s| ==> !InClass(s[n], cls)
  {
    if s == [] || !InClass(s[0], cls) then 0 else 1 + Span(s[1..], cls)
  }

  /** A greedy run stops exactly where the class stops. */
  lemma {:induction false} SpanConcat(a: string, b: string, cls: CharClass)
    requires AllIn(a, cls)
    requires b == [] || !InClass(b[0], cls)
    ensures Span(a + b, cls) == |a|
  {
    if a == [] {
      assert a + b == b;
    } else {
      assert (a + b)[1..] == a[1..] + b;
      SpanConcat(a[1..], b, cls);
    }
  }

  /** The leading run of ASCII digits of `s` (what `^(\d+)` captures, or empty). */
  function LeadingDigits(s: string): string {
    s[..Span(s, Digit)]
  }

  function DigitValue(c: char): nat
    requires IsDigit(c)
  {
    c as int - '0' as int
  }

  function DigitChar(d: nat): (c: char)
    requires d < 10
    ensures IsDigit(c) && DigitValue(c) == d
  {
    ('0' as int + d) as char
  }

  /** Python's `int(s)` on a string of ASCII digits: base 10, leading zeros allowed. */
  function DecimalValue(s: string): nat
    requires AllIn(s, Digit)
  {
    if s == [] then 0 else DecimalValue(s[..|s| - 1]) * 10 + DigitValue(s[|s| - 1])
  }

  lemma DecimalValueSnoc(s: string, c: char)
    requires AllIn(s, Digit) && IsDigit(c)
    ensures AllIn(s + [c], Digit)
    ensures DecimalValue(s + [c]) == DecimalValue(s) * 10 + DigitValue(c)
  {
    assert (s + [c])[..|s|] == s;
  }

  /** Python's `str(n)` for a natural number: its decimal digits, without a
      leading zero unless the number is zero. */
  function NatToDecimal(n: nat): (s: string)
    ensures |s| >= 1 && AllIn(s, Digit)
    ensures DecimalValue(s) == n
    ensures s[0] == '0' ==> s == "0"
    ensures n >= 10 ==> |s| >= 2
    ensures n < 100 ==> |s| <= 2
    decreases n
  {
    if n < 10 then [DigitChar(n)]
    else
      var prefix := NatToDecimal(n / 10);
      DecimalValueSnoc(prefix, DigitChar(n % 10));
      prefix + [DigitChar(n % 10)]
  }

  /** Python's `str(i)` for an integer. */
  function IntToDecimal(i: int): string {
    if i < 0 then "-" + NatToDecimal(-i) else NatToDecimal(i)
  }

  /** Python's `f"{n:02d}"` for a natural number: zero-padded to at least two digits. */
  function ZeroPad2(n: nat): (s: string)
    ensures |s| >= 2 && AllIn(s, Digit) && DecimalValue(s) == n
    ensures n < 100 ==> |s| == 2
  {
    if n < 10 then
      DecimalValueSnoc("0", DigitChar(n));
      "0" + [DigitChar(n)]
    else NatToDecimal(n)
  }

  /** Number of whitespace characters at the end of `s`. */
  function TrailingSpaces(s: string): (n: nat)
    ensures n <= |s| && AllIn(s[|s| - n..], Space)
    ensures n < |s| ==> !IsSpace(s[|s| - n - 1])
  {
    if s == [] || !IsSpace(s[|s| - 1]) then 0
    else
      var m := TrailingSpaces(s[..|s| - 1]);
      assert s[|s| - (1 + m)..] == s[..|s| - 1][|s| - 1 - m..] + [s[|s| - 1]];
      1 + m
  }

  /** Python's `s.strip()`: `s` without its leading and trailing whitespace. */
  function Strip(s: string): string {
    var t := s[Span(s, Space)..];
    t[..|t| - TrailingSpaces(t)]
  }

  /** What `strip` leaves is a slice of `s` with only whitespace around it, and
      it starts and ends with no whitespace. */
  lemma {:induction false} StripShape(s: string)
    ensures var r := Strip(s);
      && (r == [] || (!IsSpace(r[0]) && !IsSpace(r[|r| - 1])))
      && exists i, j :: 0 <= i <= j <= |s| && r == s[i..j] && AllIn(s[..i], Space) && AllIn(s[j..], Space)
  {
    var i := Span(s, Space);
    var t := s[i..];
    var n := TrailingSpaces(t);
    var j := |s| - n;
    var r := t[..|t| - n];
    assert r == Strip(s);
    assert r == s[i..j];
    assert s[j..] == t[|t| - n..];
    assert AllIn(s[..i], Space) && AllIn(s[j..], Space);
    if r != [] {
      assert r[0] == t[0];
      assert r[|r| - 1] == t[|t| - n - 1];
    }
  }

  lemma StripUnchanged(s: string)
    requires s == [] || (!IsSpace(s[0]) && !IsSpace(s[|s| - 1]))
    ensures Strip(s) == s
  {
    assert s[0..] == s;
  }

  /** Stripping twice is stripping once. */
  lemma StripIdempotent(s: string)
    ensures Strip(Strip(s)) == Strip(s)
  {
    StripUnchanged(Strip(s));
  }

  function LowerChar(c: char): char {
    if 'A' <= c <= 'Z' then (c as int + 32) as char else c
  }

  /** Python's `s.lower()` restricted to ASCII letters. */
  function Lower(s: string): string {
    seq(|s|, i requires 0 <= i < |s| => LowerChar(s[i]))
  }

  /** Python's `s.split(sep)` for a one-character separator: the pieces
      between separators, an empty piece wherever two separators meet or the
      text starts or ends with one. */
  function SplitOn(s: string, sep: char): (parts: seq<string>)
    ensures |parts| >= 1
    ensures forall k :: 0 <= k < |parts| ==> sep !in parts[k]
  {
    if s == [] then [[]]
    else
      var rest := SplitOn(s[1..], sep);
      if s[0] == sep then [[]] + rest else [[s[0]] + rest[0]] + rest[1..]
  }

  /** Python's `sep.join(parts)`. */
  function JoinWith(parts: seq<string>, sep: char): string
    requires |parts| >= 1
  {
    if |parts| == 1 then parts[0] else parts[0] + [sep] + JoinWith(parts[1..], sep)
  }

  /** Splitting loses nothing: joining the pieces again gives the text back. */
  lemma {:induction false} SplitJoin(s: string, sep: char)
    ensures JoinWith(SplitOn(s, sep), sep) == s
  {
    if s != [] {
      var rest := SplitOn(s[1..], sep);
      SplitJoin(s[1..], sep);
      if s[0] == sep {
        assert SplitOn(s, sep)[1..] == rest;
      } else if |rest| > 1 {
        var parts := SplitOn(s, sep);
        assert parts[1..] == rest[1..];
        assert JoinWith(rest, sep) == rest[0] + [sep] + JoinWith(rest[1..], sep);
      }
    }
  }

  lemma {:induction false} SplitOnWithout(a: string, sep: char)
    requires sep !in a
    ensures SplitOn(a, sep) == [a]
  {
    if a != [] {
      SplitOnWithout(a[1..], sep);
      assert [a[0]] + a[1..] == a;
    }
  }

  /** The first separator ends the first piece. */
  lemma {:induction false} SplitOnFirst(a: string, b: string, sep: char)
    requires sep !in a
    ensures SplitOn(a + [sep] + b, sep) == [a] + SplitOn(b, sep)
  {
    if a == [] {
      assert (a + [sep] + b)[1..] == b;
    } else {
      assert (a + [sep] + b)[1..] == a[1..] + [sep] + b;
      SplitOnFirst(a[1..], b, sep);
      assert [a[0]] + a[1..] == a;
    }
  }

  /** `"".join(pieces)`. */
  function Concat(pieces: seq<string>): string {
    if pieces == [] then [] else pieces[0] + Concat(pieces[1..])
  }

  /** The text of `lines` written one after the other, each ended by a line feed. */
  function Unlines(lines: seq<string>): string {
    if lines == [] then [] else lines[0] + "\n" + Unlines(lines[1..])
  }

  lemma {:induction false} UnlinesConcat(a: seq<string>, b: seq<string>)
    ensures Unlines(a + b) == Unlines(a) + Unlines(b)
  {
    if a == [] {
      assert a + b == b;
    } else {
      assert (a + b)[1..] == a[1..] + b;
      UnlinesConcat(a[1..], b);
    }
  }

  lemma {:induction false} UnlinesSnoc(lines: seq<string>, line: string)
    ensures Unlines(lines + [line]) == Unlines(lines) + line + "\n"
  {
    UnlinesConcat(lines, [line]);
    assert [line][1..] == [];
  }

  /** Writing lines and splitting the text at line feeds gives the lines back,
      with the empty piece after the last line feed. */
  lemma {:induction false} SplitUnlines(lines: seq<string>)
    requires forall k :: 0 <= k < |lines| ==> '\n' !in lines[k]
    ensures SplitOn(Unlines(lines), '\n') == lines + [[]]
  {
    if lines != [] {
      SplitUnlines(lines[1..]);
      assert lines[0] + "\n" + Unlines(lines[1..]) == lines[0] + ['\n'] + Unlines(lines[1..]);
      SplitOnFirst(lines[0], Unlines(lines[1..]), '\n');
      assert [lines[0]] + (lines[1..] + [[]]) == lines + [[]];
    }
  }

  lemma {:induction false} BasenameKeepsOut(p: string, c: char)
    requires c !in p
    ensures c !in Basename(p)
    decreases |p|
  {
    if p != [] && p[|p| - 1] != '/' {
      BasenameKeepsOut(p[..|p| - 1], c);
      assert c != p[|p| - 1];
    }
  }

  /** POSIX `os.path.basename`: the part of the path after its last '/'. */
  function Basename(p: string): (b: string)
    ensures |b| <= |p|
  {
    if p == [] || p[|p| - 1] == '/' then []
    else Basename(p[..|p| - 1]) + [p[|p| - 1]]
  }

  /** The base name is the suffix of the path after its last '/': it holds no
      '/', and the character before it, if any, is one. */
  lemma {:induction false} BasenameIsLastComponent(p: string)
    ensures var b := Basename(p);
      && '/' !in b
      && b == p[|p| - |b|..]
      && (|b| < |p| ==> p[|p| - |b| - 1] == '/')
    decreases |p|
  {
    if p != [] && p[|p| - 1] != '/' {
      var b := Basename(p[..|p| - 1]);
      BasenameIsLastComponent(p[..|p| - 1]);
      assert p[|p| - |b| - 1..] == p[..|p| - 1][|p| - 1 - |b|..] + [p[|p| - 1]];
    }
  }

  /** What Python's `int` accepts after the sign: ASCII digits with single
      underscores between them. */
  predicate IsDigitGroups(s: string) {
    && |s| >= 1 && IsDigit(s[0]) && IsDigit(s[|s| - 1])
    && (forall i :: 0 <= i < |s| ==> IsDigit(s[i]) || s[i] == '_')
    && (forall i :: 0 <= i < |s| - 1 ==> !(s[i] == '_' && s[i + 1] == '_'))
  }

  function DropUnderscores(s: string): (r: string)
    requires forall i :: 0 <= i < |s| ==> IsDigit(s[i]) || s[i] == '_'
    ensures AllIn(r, Digit)
    ensures AllIn(s, Digit) ==> r == s
  {
    if s == [] then []
    else (if s[0] == '_' then [] else [s[0]]) + DropUnderscores(s[1..])
  }

  function ParseUnsigned(s: string): Option<nat> {
    if IsDigitGroups(s) then Some(DecimalValue(DropUnderscores(s))) else None
  }

  /** Python's `int(s)` for a str in base 10, over ASCII: surrounding
      whitespace is ignored, then one optional sign, then digit groups;
      anything else raises ValueError, which is `None` here. */
  function ParseInt(s: string): Option<int> {
    var t := Strip(s);
    if |t| > 0 && (t[0] == '+' || t[0] == '-') then
      match ParseUnsigned(t[1..])
      case Some(n) =>
        var v: int := if t[0] == '-' then -(n as int) else n;
        Some(v)
      case None => None
    else
      match ParseUnsigned(t)
      case Some(n) => Some(n)
      case None => None
  }

  lemma DigitsAreDigitGroups(d: string)
    requires |d| >= 1 && AllIn(d, Digit)
    ensures ParseUnsigned(d) == Some(DecimalValue(d))
  {
    assert IsDigitGroups(d);
  }

  /** `int(str(i)) == i`. */
  lemma ParseIntRoundTrip(i: int)
    ensures ParseInt(IntToDecimal(i)) == Some(i)
  {
    var n: nat := if i < 0 then -i else i;
    var d := NatToDecimal(n);
    DigitsAreDigitGroups(d);
    var s := IntToDecimal(i);
    if i < 0 {
      assert s == "-" + d;
      assert s[1..] == d;
      assert !IsSpace(s[0]) && !IsSpace(s[|s| - 1]);
      StripUnchanged(s);
      assert Strip(s) == s;
      assert ParseUnsigned(s[1..]) == Some(n);
      assert |s| > 0 && s[0] == '-';
      assert ParseInt(s) == Some(-(n as int));
    } else {
      assert s == d;
      assert IsDigit(s[0]);
      assert !IsSpace(s[0]) && !IsSpace(s[|s| - 1]);
      StripUnchanged(s);
      assert Strip(s) == s;
      assert ParseUnsigned(s) == Some(n);
      assert !(s[0] == '+' || s[0] == '-');
      assert ParseInt(s) == Some(n);
    }
  }
}
