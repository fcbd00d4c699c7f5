/** `AudioCDWriter._natural_sort_key` (Singe.py) and the ordering it gives to
    `scan_folder_for_audio`: a path is cut into alternating runs of non-digits
    and digits, the digit runs compare as numbers and the rest as lower-cased
    text, so `2.wav` comes before `10.wav`. */
module NaturalSort {
  import opened TextUtil
  import opened StableSort

  /** `re.split(r'(\d+)', s)`: the maximal digit runs of `s` (captured, so
      kept) with the non-digit text around them. */
  function SplitDigitRuns(s: string): (r: seq<string>)
    ensures |r| >= 1
    decreases |s|
  {
    var n := Span(s, NonDigit);
    var rest := s[n..];
    if rest == [] then [s]
    else
      var d := Span(rest, Digit);
      [s[..n], rest[..d]] + SplitDigitRuns(rest[d..])
  }

  lemma {:induction false} ConcatTwoMore(a: string, b: string, t: seq<string>)
    ensures Concat([a, b] + t) == a + b + Concat(t)
  {
    assert ([a, b] + t)[1..] == [b] + t;
    assert ([b] + t)[1..] == t;
  }

  /** One step of the split: the leading text, the digit run after it, and the
      split of what follows. */
  lemma {:induction false} SplitDigitRunsStep(s: string)
    requires Span(s, NonDigit) < |s|
    ensures var n := Span(s, NonDigit);
      var rest := s[n..];
      var d := Span(rest, Digit);
      && 0 < d
      && SplitDigitRuns(s) == [s[..n], rest[..d]] + SplitDigitRuns(rest[d..])
      && s == s[..n] + rest[..d] + rest[d..]
      && AllIn(s[..n], NonDigit) && AllIn(rest[..d], Digit)
      && (d < |rest| ==> !IsDigit(rest[d]))
      && (n == 0 <==> IsDigit(s[0]))
  {
    var n := Span(s, NonDigit);
    var rest := s[n..];
    assert s == s[..n] + rest;
    assert rest == rest[..Span(rest, Digit)] + rest[Span(rest, Digit)..];
  }

  /** The pieces put together are `s` again: the split loses nothing. */
  lemma {:induction false} SplitDigitRunsConcat(s: string)
    ensures Concat(SplitDigitRuns(s)) == s
    decreases |s|
  {
    var n := Span(s, NonDigit);
    if n == |s| {
      assert s[n..] == [];
      assert Concat([s]) == s + Concat([]);
    } else {
      SplitDigitRunsStep(s);
      var rest := s[n..];
      var d := Span(rest, Digit);
      SplitDigitRunsConcat(rest[d..]);
      ConcatTwoMore(s[..n], rest[..d], SplitDigitRuns(rest[d..]));
    }
  }

  /** `r` alternates non-digit text and non-empty digit runs, starting and
      ending with text. */
  predicate Alternating(r: seq<string>)
    decreases |r|
  {
    && |r| >= 1 && AllIn(r[0], NonDigit)
    && (|r| == 1 || (|r| >= 3 && r[1] != [] && AllIn(r[1], Digit) && Alternating(r[2..])))
  }

  /** The same alternation by position: text at the even positions (possibly
      empty), a non-empty digit run at the odd ones, one text piece more than
      there are runs. */
  lemma {:induction false} AlternatingByPosition(r: seq<string>)
    requires Alternating(r)
    ensures |r| % 2 == 1
    ensures forall i :: 0 <= i < |r| && i % 2 == 0 ==> AllIn(r[i], NonDigit)
    ensures forall i :: 0 <= i < |r| && i % 2 == 1 ==> r[i] != [] && AllIn(r[i], Digit)
    decreases |r|
  {
    if |r| > 1 {
      var t := r[2..];
      AlternatingByPosition(t);
      forall i | 2 <= i < |r| ensures r[i] == t[i - 2] && (i - 2) % 2 == i % 2 { }
    }
  }

  /** The pieces of the split alternate. */
  lemma {:induction false} SplitDigitRunsAlternate(s: string)
    ensures Alternating(SplitDigitRuns(s))
    decreases |s|
  {
    var n := Span(s, NonDigit);
    if n == |s| {
      assert s[n..] == [];
      assert s[..n] == s;
    } else {
      SplitDigitRunsStep(s);
      var rest := s[n..];
      var d := Span(rest, Digit);
      var tail := rest[d..];
      SplitDigitRunsAlternate(tail);
      var t := SplitDigitRuns(tail);
      assert ([s[..n], rest[..d]] + t)[2..] == t;
    }
  }

  /** The runs are maximal: a text piece between two digit runs is never empty,
      and the first piece is empty exactly when `s` starts with a digit. */
  lemma {:induction false} SplitDigitRunsMaximal(s: string)
    ensures forall i :: 0 < i < |SplitDigitRuns(s)| - 1 && i % 2 == 0 ==> SplitDigitRuns(s)[i] != []
    ensures s != [] ==> (SplitDigitRuns(s)[0] == [] <==> IsDigit(s[0]))
    decreases |s|
  {
    var n := Span(s, NonDigit);
    if n == |s| {
      assert s[n..] == [];
      assert s[..n] == s;
      assert SplitDigitRuns(s) == [s];
    } else {
      SplitDigitRunsStep(s);
      var rest := s[n..];
      var d := Span(rest, Digit);
      var tail := rest[d..];
      SplitDigitRunsMaximal(tail);
      var t := SplitDigitRuns(tail);
      var r := [s[..n], rest[..d]] + t;
      assert SplitDigitRuns(s) == r;
      assert r[0] == s[..n];
      if |t| > 1 {
        EmptySplit();
        assert tail != [];
        assert tail[0] == rest[d];
      }
      InnerTextsStep(s[..n], rest[..d], t);
    }
  }

  /** Prepending a text and a run keeps the inner texts nonempty when the old
      first piece, now inner, is nonempty. */
  lemma {:induction false} InnerTextsStep(a: string, b: string, t: seq<string>)
    requires forall i :: 0 < i < |t| - 1 && i % 2 == 0 ==> t[i] != []
    requires |t| > 1 ==> t[0] != []
    ensures var r := [a, b] + t; forall i :: 0 < i < |r| - 1 && i % 2 == 0 ==> r[i] != []
  {
    var r := [a, b] + t;
    forall i | 0 < i < |r| - 1 && i % 2 == 0 ensures r[i] != [] {
      assert r[i] == t[i - 2];
      if i > 2 {
        assert 0 < i - 2 < |t| - 1 && (i - 2) % 2 == 0;
      }
    }
  }

  /** The split of the empty text is one empty piece. */
  lemma {:induction false} EmptySplit()
    ensures SplitDigitRuns([]) == [[]]
  {
    assert Span([], NonDigit) == 0;
  }

  /** An element of the key: text, or a number. */
  datatype KeyPart = Text(text: string) | Num(n: nat)

  /** `[int(t) if t.isdigit() else t.lower() for t in re.split(r'(\d+)', path)]`:
      the key has odd length, its even positions are digit-free lower-cased
      text (possibly empty), its odd positions the values of the digit runs. */
  function NaturalSortKey(path: string): seq<KeyPart> {
    var pieces := SplitDigitRuns(path);
    seq(|pieces|, i requires 0 <= i < |pieces| =>
      if |pieces[i]| >= 1 && AllIn(pieces[i], Digit) then Num(DecimalValue(pieces[i]))
      else Text(Lower(pieces[i])))
  }

  /** The key has odd length; its even positions are digit-free text (possibly
      empty) and its odd positions numbers. */
  lemma {:induction false} NaturalSortKeyShape(path: string)
    ensures var key := NaturalSortKey(path);
      && |key| % 2 == 1
      && (forall i :: 0 <= i < |key| ==> (key[i].Text? <==> i % 2 == 0))
      && (forall i :: 0 <= i < |key| && key[i].Text? ==> AllIn(key[i].text, NonDigit))
  {
    var pieces := SplitDigitRuns(path);
    SplitDigitRunsAlternate(path);
    AlternatingByPosition(pieces);
  }

  /** The key in terms of the pieces of the path: text pieces lower-cased, digit
      runs as their values, and the pieces rebuild the path. */
  lemma {:induction false} NaturalSortKeyPieces(path: string)
    ensures var pieces := SplitDigitRuns(path);
      && Concat(pieces) == path
      && |NaturalSortKey(path)| == |pieces|
      && (forall i :: 0 <= i < |pieces| && i % 2 == 0 ==> NaturalSortKey(path)[i] == Text(Lower(pieces[i])))
      && (forall i :: 0 <= i < |pieces| && i % 2 == 1 ==>
            AllIn(pieces[i], Digit) && NaturalSortKey(path)[i] == Num(DecimalValue(pieces[i])))
  {
    SplitDigitRunsConcat(path);
    SplitDigitRunsAlternate(path);
    AlternatingByPosition(SplitDigitRuns(path));
  }

  /** Python's comparison of two sequences: the first position where they
      differ decides, and a proper prefix comes first. */
  predicate Lex<T(==)>(a: seq<T>, b: seq<T>, le: (T, T) -> bool) {
    if a == [] then true
    else if b == [] then false
    else if a[0] == b[0] then Lex(a[1..], b[1..], le)
    else le(a[0], b[0])
  }

  lemma {:induction false} LexReflexive<T>(a: seq<T>, le: (T, T) -> bool)
    ensures Lex(a, a, le)
  {
    if a != [] { LexReflexive(a[1..], le); }
  }

  lemma {:induction false} LexAntisymmetric<T(!new)>(a: seq<T>, b: seq<T>, le: (T, T) -> bool)
    requires IsTotalOrder(le)
    ensures Lex(a, b, le) && Lex(b, a, le) ==> a == b
  {
    if a != [] && b != [] && a[0] == b[0] {
      LexAntisymmetric(a[1..], b[1..], le);
      if a[1..] == b[1..] {
        assert a == [a[0]] + a[1..] && b == [b[0]] + b[1..];
      }
    }
  }

  lemma {:induction false} LexTransitive<T(!new)>(a: seq<T>, b: seq<T>, c: seq<T>, le: (T, T) -> bool)
    requires IsTotalOrder(le)
    ensures Lex(a, b, le) && Lex(b, c, le) ==> Lex(a, c, le)
  {
    if a != [] && b != [] && c != [] && a[0] == b[0] && b[0] == c[0] {
      LexTransitive(a[1..], b[1..], c[1..], le);
    }
  }

  lemma {:induction false} LexTotal<T(!new)>(a: seq<T>, b: seq<T>, le: (T, T) -> bool)
    requires IsTotalOrder(le)
    ensures Lex(a, b, le) || Lex(b, a, le)
  {
    if a != [] && b != [] && a[0] == b[0] {
      LexTotal(a[1..], b[1..], le);
    }
  }

  /** The lexicographic extension of a total order is a total order. */
  lemma LexIsTotalOrder<T(!new)>(le: (T, T) -> bool)
    requires IsTotalOrder(le)
    ensures forall a: seq<T>, b: seq<T> :: Lex(a, b, le) && Lex(b, a, le) ==> a == b
    ensures forall a: seq<T>, b: seq<T>, c: seq<T> :: Lex(a, b, le) && Lex(b, c, le) ==> Lex(a, c, le)
    ensures forall a: seq<T>, b: seq<T> :: Lex(a, b, le) || Lex(b, a, le)
  {
    forall a: seq<T>, b: seq<T> ensures Lex(a, b, le) && Lex(b, a, le) ==> a == b {
      LexAntisymmetric(a, b, le);
    }
    forall a: seq<T>, b: seq<T>, c: seq<T> ensures Lex(a, b, le) && Lex(b, c, le) ==> Lex(a, c, le) {
      LexTransitive(a, b, c, le);
    }
    forall a: seq<T>, b: seq<T> ensures Lex(a, b, le) || Lex(b, a, le) {
      LexTotal(a, b, le);
    }
  }

  function CharLe(a: char, b: char): bool { a <= b }

  /** Python's `<=` on str: code point by code point. */
  function StrLe(a: string, b: string): bool { Lex(a, b, CharLe) }

  /** Python's `<=` on two key elements. Two texts or two numbers compare as
      such; a text against a number would raise TypeError in Python, which
      `NaturalKeysAligned` shows never happens, and is ordered here text first
      only so that the order is total. */
  function PartLe(x: KeyPart, y: KeyPart): bool {
    match (x, y)
    case (Text(s), Text(t)) => StrLe(s, t)
    case (Num(m), Num(n)) => m <= n
    case (Text(_), Num(_)) => true
    case (Num(_), Text(_)) => false
  }

  /** Python's `<=` on two natural sort keys. */
  function KeyLe(a: seq<KeyPart>, b: seq<KeyPart>): bool { Lex(a, b, PartLe) }

  lemma StrLeIsTotalOrder()
    ensures IsTotalOrder(StrLe)
  {
    assert IsTotalOrder(CharLe);
    LexIsTotalOrder(CharLe);
    forall a: string ensures StrLe(a, a) { LexReflexive(a, CharLe); }
  }

  lemma PartLeIsTotalOrder()
    ensures IsTotalOrder(PartLe)
  {
    StrLeIsTotalOrder();
  }

  /** The order of natural sort keys is total, so sorting by it is well defined. */
  lemma KeyLeIsTotalOrder()
    ensures IsTotalOrder(KeyLe)
  {
    PartLeIsTotalOrder();
    LexIsTotalOrder(PartLe);
    forall a: seq<KeyPart> ensures KeyLe(a, a) { LexReflexive(a, PartLe); }
  }

  /** Two keys have a text at the same positions and a number at the same
      positions, so Python never compares a number with a text. */
  lemma NaturalKeysAligned(p: string, q: string, i: nat)
    requires i < |NaturalSortKey(p)| && i < |NaturalSortKey(q)|
    ensures NaturalSortKey(p)[i].Text? == NaturalSortKey(q)[i].Text?
  {
    NaturalSortKeyShape(p);
    NaturalSortKeyShape(q);
  }

  /** The order `scan_folder_for_audio` gives its files: a stable sort by the
      natural key of the whole path. */
  function FolderOrder(paths: seq<string>): seq<string> {
    SortBy(paths, NaturalSortKey, KeyLe)
  }

  /** The folder order is a permutation of the scanned paths, non-decreasing in
      the natural key, and paths with equal keys keep their scan order. */
  lemma FolderOrderSortedStable(paths: seq<string>)
    ensures multiset(FolderOrder(paths)) == multiset(paths)
    ensures forall i, j :: 0 <= i < j < |FolderOrder(paths)| ==>
      KeyLe(NaturalSortKey(FolderOrder(paths)[i]), NaturalSortKey(FolderOrder(paths)[j]))
    ensures forall k :: KeyFilter(FolderOrder(paths), NaturalSortKey, k) == KeyFilter(paths, NaturalSortKey, k)
  {
    KeyLeIsTotalOrder();
    SortByPermutes(paths, NaturalSortKey, KeyLe);
    SortBySorted(paths, NaturalSortKey, KeyLe);
    forall k ensures KeyFilter(FolderOrder(paths), NaturalSortKey, k) == KeyFilter(paths, NaturalSortKey, k) {
      SortByStable(paths, NaturalSortKey, KeyLe, k);
    }
  }

  lemma {:induction false} LowerWithoutCapitals(s: string)
    requires forall i :: 0 <= i < |s| ==> !('A' <= s[i] <= 'Z')
    ensures Lower(s) == s
  {
  }

  /** A number followed by digit-free text splits into an empty text, the
      number, and the text. */
  lemma {:induction false} SplitNumberedName(d: string, t: string)
    requires |d| >= 1 && AllIn(d, Digit) && AllIn(t, NonDigit)
    ensures SplitDigitRuns(d + t) == [[], d, t]
  {
    var s := d + t;
    SpanConcat([], s, NonDigit);
    assert [] + s == s;
    assert s[0..] == s;
    SpanConcat(d, t, Digit);
    assert s[..|d|] == d && s[|d|..] == t;
    SpanConcat(t, [], NonDigit);
    assert t + [] == t && t[..|t|] == t && t[|t|..] == [];
    assert SplitDigitRuns(t) == [t];
  }

  /** A name that is a number followed by digit-free, lower-case text (`10.wav`)
      has the key text `""`, that number, then the text. */
  lemma {:induction false} NumberedNameKey(d: string, t: string)
    requires |d| >= 1 && AllIn(d, Digit)
    requires AllIn(t, NonDigit) && forall i :: 0 <= i < |t| ==> !('A' <= t[i] <= 'Z')
    ensures NaturalSortKey(d + t) == [Text(""), Num(DecimalValue(d)), Text(t)]
  {
    SplitNumberedName(d, t);
    LowerWithoutCapitals(t);
    KeyOfThreePieces(d + t, d, t);
  }

  lemma {:induction false} KeyOfThreePieces(path: string, d: string, t: string)
    requires SplitDigitRuns(path) == [[], d, t]
    requires |d| >= 1 && AllIn(d, Digit) && (t == [] || !IsDigit(t[0])) && Lower(t) == t
    ensures NaturalSortKey(path) == [Text(""), Num(DecimalValue(d)), Text(t)]
  {
    var pieces := SplitDigitRuns(path);
    assert pieces[0] == [] && pieces[1] == d && pieces[2] == t;
    assert Lower([]) == [];
    var key := NaturalSortKey(path);
    assert |key| == 3;
    assert key[0] == Text("") && key[1] == Num(DecimalValue(d)) && key[2] == Text(t);
  }

  lemma {:induction false} DigitStrings()
    ensures AllIn("1", Digit) && DecimalValue("1") == 1
    ensures AllIn("2", Digit) && DecimalValue("2") == 2
    ensures AllIn("10", Digit) && DecimalValue("10") == 10
    ensures AllIn(".wav", NonDigit)
  {
    DecimalValueSnoc("1", '0');
    assert !IsDigit('.') && !IsDigit('w') && !IsDigit('a') && !IsDigit('v');
    assert "1" + ['0'] == "10";
  }

  lemma {:induction false} WavKeys()
    ensures NaturalSortKey("1.wav") == [Text(""), Num(1), Text(".wav")]
    ensures NaturalSortKey("2.wav") == [Text(""), Num(2), Text(".wav")]
    ensures NaturalSortKey("10.wav") == [Text(""), Num(10), Text(".wav")]
  {
    assert "1" + ".wav" == "1.wav";
    assert "2" + ".wav" == "2.wav";
    assert "10" + ".wav" == "10.wav";
    DigitStrings();
    NumberedNameKey("1", ".wav");
    NumberedNameKey("2", ".wav");
    NumberedNameKey("10", ".wav");
  }

  /** The keys of `1.wav`, `2.wav` and `10.wav` compare by their numbers. */
  lemma {:induction false} WavKeyOrder(m: nat, n: nat)
    ensures KeyLe([Text(""), Num(m), Text(".wav")], [Text(""), Num(n), Text(".wav")]) <==> m <= n
  {
    var a := [Text(""), Num(m), Text(".wav")];
    var b := [Text(""), Num(n), Text(".wav")];
    assert a[1..] == [Num(m), Text(".wav")] && b[1..] == [Num(n), Text(".wav")];
    assert a[1..][1..] == [Text(".wav")] && b[1..][1..] == [Text(".wav")];
    assert KeyLe(a, b) == Lex(a[1..], b[1..], PartLe);
    if m == n {
      LexReflexive(a, PartLe);
    } else {
      assert a[1..][0] != b[1..][0];
      assert Lex(a[1..], b[1..], PartLe) == PartLe(Num(m), Num(n));
    }
  }

  /** The documented example: `1.wav`, `2.wav`, `10.wav` come in that order. */
  lemma {:induction false} NaturalOrderExample()
    ensures KeyLe(NaturalSortKey("1.wav"), NaturalSortKey("2.wav"))
    ensures !KeyLe(NaturalSortKey("2.wav"), NaturalSortKey("1.wav"))
    ensures KeyLe(NaturalSortKey("2.wav"), NaturalSortKey("10.wav"))
    ensures !KeyLe(NaturalSortKey("10.wav"), NaturalSortKey("2.wav"))
    ensures !KeyLe(NaturalSortKey("10.wav"), NaturalSortKey("1.wav"))
  {
    WavKeys();
    WavKeysOrder(NaturalSortKey("1.wav"), NaturalSortKey("2.wav"), NaturalSortKey("10.wav"));
  }

  lemma {:induction false} WavKeysOrder(k1: seq<KeyPart>, k2: seq<KeyPart>, k10: seq<KeyPart>)
    requires k1 == [Text(""), Num(1), Text(".wav")]
    requires k2 == [Text(""), Num(2), Text(".wav")]
    requires k10 == [Text(""), Num(10), Text(".wav")]
    ensures KeyLe(k1, k2) && !KeyLe(k2, k1) && KeyLe(k2, k10) && !KeyLe(k10, k2) && !KeyLe(k10, k1)
  {
    WavKeyOrder(1, 2);
    WavKeyOrder(2, 1);
    WavKeyOrder(2, 10);
    WavKeyOrder(10, 2);
    WavKeyOrder(10, 1);
  }

  /** Plain string order would put `10.wav` before `2.wav`. */
  lemma {:induction false} StringOrderExample()
    ensures StrLe("10.wav", "2.wav") && !StrLe("2.wav", "10.wav")
  {
  }

  /** Scanning `10.wav`, `2.wav`, `1.wav` gives them in numeric order. */
  lemma {:induction false} FolderOrderExample()
    ensures FolderOrder(["10.wav", "2.wav", "1.wav"]) == ["1.wav", "2.wav", "10.wav"]
  {
    NaturalOrderExample();
    SortThreeReversed("10.wav", "2.wav", "1.wav", NaturalSortKey, KeyLe);
  }
}
