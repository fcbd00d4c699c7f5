/** The burn order of `AudioCDWriter.burn_audio_cd` (Singe.py): the nested
    `extract_track_number` key and the stable sort of the files by it.
    `re.search(r'track[_\s]*(\d+)', filename, re.IGNORECASE)` is written out
    as a scanner over ASCII text. */
module TrackOrder {
  import opened Results
  import opened TextUtil
  import opened StableSort

  /** The number a file gets when its name carries none. */
  const UNNUMBERED: int := 999

  /** Where the separators after a `track` word starting at `i` end. */
  function AfterSeparators(s: string, i: nat): (j: nat)
    requires i + 5 <= |s|
    ensures i + 5 <= j <= |s|
    ensures AllIn(s[i + 5..j], UnderscoreOrSpace)
    ensures j < |s| ==> !InClass(s[j], UnderscoreOrSpace)
  {
    assert s[i + 5..][..Span(s[i + 5..], UnderscoreOrSpace)] == s[i + 5..i + 5 + Span(s[i + 5..], UnderscoreOrSpace)];
    i + 5 + Span(s[i + 5..], UnderscoreOrSpace)
  }

  /** The pattern matches at `i`: the five letters `track` in any case, then
      underscores and whitespace, then a digit. A greedy separator run cannot
      give back a character that a digit could use, so this is the only way
      the pattern can match there. */
  predicate TrackMatchAt(s: string, i: nat) {
    && i + 5 <= |s|
    && Lower(s[i..i + 5]) == "track"
    && AfterSeparators(s, i) < |s|
    && IsDigit(s[AfterSeparators(s, i)])
  }

  /** `match.group(1)` for a match at `i`: the whole digit run after the separators. */
  function TrackDigitsAt(s: string, i: nat): (d: string)
    requires TrackMatchAt(s, i)
    ensures |d| >= 1 && AllIn(d, Digit)
    ensures var j := AfterSeparators(s, i); j + |d| <= |s| && d == s[j..j + |d|]
    ensures var j := AfterSeparators(s, i); j + |d| < |s| ==> !IsDigit(s[j + |d|])
  {
    var j := AfterSeparators(s, i);
    var d := LeadingDigits(s[j..]);
    assert d == s[j..j + |d|];
    d
  }

  /** `i` is where `re.search` finds the pattern: the first position it matches. */
  predicate LeftmostTrackMatch(s: string, i: nat) {
    TrackMatchAt(s, i) && forall k: nat :: k < i ==> !TrackMatchAt(s, k)
  }

  /** The scan of `re.search` from position `from` on. */
  function FindTrackMatch(s: string, from: nat): (r: Option<nat>)
    requires from <= |s|
    ensures r.Some? ==>
      && from <= r.value && TrackMatchAt(s, r.value)
      && forall k: nat :: from <= k < r.value ==> !TrackMatchAt(s, k)
    ensures r.None? ==> forall k: nat :: from <= k ==> !TrackMatchAt(s, k)
    decreases |s| - from
  {
    if TrackMatchAt(s, from) then Some(from)
    else if from + 5 >= |s| then None
    else FindTrackMatch(s, from + 1)
  }

  /** `extract_track_number(filename)`: the number after the leftmost `track`
      word anywhere in the path, else the leading digits of the base name,
      else 999. */
  function ExtractTrackNumber(path: string): (n: int)
    ensures n >= 0
  {
    match FindTrackMatch(path, 0)
    case Some(i) => DecimalValue(TrackDigitsAt(path, i))
    case None =>
      var d := LeadingDigits(Basename(path));
      if d != [] then DecimalValue(d) else UNNUMBERED
  }

  /** The three cases of the key, in the order the source tries them: the
      leftmost `track` match decides when there is one; otherwise the leading
      digits of the base name, or 999 when it starts with no digit. */
  lemma ExtractTrackNumberCases(path: string)
    ensures forall i: nat :: LeftmostTrackMatch(path, i) ==>
      ExtractTrackNumber(path) == DecimalValue(TrackDigitsAt(path, i))
    ensures (forall i: nat :: !TrackMatchAt(path, i)) && LeadingDigits(Basename(path)) != [] ==>
      ExtractTrackNumber(path) == DecimalValue(LeadingDigits(Basename(path)))
    ensures (forall i: nat :: !TrackMatchAt(path, i)) && LeadingDigits(Basename(path)) == [] ==>
      ExtractTrackNumber(path) == UNNUMBERED
  {
    var r := FindTrackMatch(path, 0);
    forall i: nat | LeftmostTrackMatch(path, i)
      ensures ExtractTrackNumber(path) == DecimalValue(TrackDigitsAt(path, i))
    {
      assert r.Some?;
      assert r.value == i;
    }
  }

  /** Without a `track` word anywhere in the path, the number is the leading
      digit run of the base name: `03 Title.mp3` is track 3. */
  lemma {:induction false} BasenameNumber(path: string, digits: string, rest: string)
    requires forall i: nat :: !TrackMatchAt(path, i)
    requires |digits| >= 1 && AllIn(digits, Digit)
    requires rest == [] || !IsDigit(rest[0])
    requires Basename(path) == digits + rest
    ensures ExtractTrackNumber(path) == DecimalValue(digits)
  {
    SpanConcat(digits, rest, Digit);
    assert (digits + rest)[..|digits|] == digits;
  }

  /** A `track` word in a directory name wins over the base name's leading
      digits: the search runs over the whole path. */
  lemma {:induction false} DirectoryTrackWordWins()
    ensures ExtractTrackNumber("track2/01.wav") == 2
  {
    var s := "track2/01.wav";
    assert s[0..5] == "track";
    assert Lower("track") == "track";
    assert s[5..][0] == '2';
    assert Span(s[5..], UnderscoreOrSpace) == 0;
    assert AfterSeparators(s, 0) == 5;
    assert TrackMatchAt(s, 0);
    assert s[5..][1] == '/';
    assert Span(s[5..], Digit) == 1 by {
      assert s[5..] == "2" + s[6..];
      SpanConcat("2", s[6..], Digit);
    }
    assert TrackDigitsAt(s, 0) == "2";
    assert DecimalValue("2") == 2;
  }

  /** The word is matched in any case, the separators may mix underscores and
      spaces, and leading zeros do not count. */
  lemma {:induction false} TrackWordAnyCase()
    ensures ExtractTrackNumber("TRACK_ 07.wav") == 7
  {
    var s := "TRACK_ 07.wav";
    assert s[0..5] == "TRACK";
    assert Lower("TRACK") == "track";
    assert s[5..] == "_ " + s[7..];
    SpanConcat("_ ", s[7..], UnderscoreOrSpace);
    assert AfterSeparators(s, 0) == 7;
    assert TrackMatchAt(s, 0);
    assert s[7..] == "07" + s[9..];
    SpanConcat("07", s[9..], Digit);
    assert s[7..][..2] == "07";
    assert TrackDigitsAt(s, 0) == "07";
    DecimalValueSnoc("0", '7');
    assert "0" + ['7'] == "07";
  }

  /** `sorted(audio_files, key=extract_track_number)`. */
  function BurnOrder(files: seq<string>): seq<string> {
    SortBy(files, ExtractTrackNumber, IntLe)
  }

  /** The burn order holds every file as often as the input does, its track
      numbers never decrease, and files with the same number keep their input
      order. */
  lemma BurnOrderSortedStable(files: seq<string>)
    ensures multiset(BurnOrder(files)) == multiset(files)
    ensures forall i, j :: 0 <= i < j < |BurnOrder(files)| ==>
      ExtractTrackNumber(BurnOrder(files)[i]) <= ExtractTrackNumber(BurnOrder(files)[j])
    ensures forall k :: KeyFilter(BurnOrder(files), ExtractTrackNumber, k) == KeyFilter(files, ExtractTrackNumber, k)
  {
    IntLeIsTotalOrder();
    SortByPermutes(files, ExtractTrackNumber, IntLe);
    SortBySorted(files, ExtractTrackNumber, IntLe);
    forall k ensures KeyFilter(BurnOrder(files), ExtractTrackNumber, k) == KeyFilter(files, ExtractTrackNumber, k) {
      SortByStable(files, ExtractTrackNumber, IntLe, k);
    }
  }
}
