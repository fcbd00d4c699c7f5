/** `AudioCDWriter.read_audio_cd_tracks` (Singe.py): the lines cdparanoia
    prints on its error stream for `cdparanoia -Q` are matched against

        ^\s*(\d+)\.\s+\d+\s+\[([^\]]+)\]\s+\d+\s+\[([^\]]+)\]

    and the matching ones, sorted by track number, are the disc's tracks.
    The pattern is a chain of literal characters and greedy repetitions,
    each repetition followed by something its class cannot start with, so
    a greedy scan that never backtracks finds the match `re.match` finds. */
module CdTracks {
  import opened Results
  import opened TextUtil
  import opened StableSort

  /** One element of a pattern: a literal character, `C*` or `C+`. */
  datatype PatternElem = Lit(c: char) | Star(cls: CharClass) | Plus(cls: CharClass)

  /** `piece` is a string element `e` matches on its own. */
  predicate FitsElem(e: PatternElem, piece: string) {
    match e
    case Lit(c) => piece == [c]
    case Star(cls) => AllIn(piece, cls)
    case Plus(cls) => |piece| >= 1 && AllIn(piece, cls)
  }

  /** One piece per element, each matched by its element. */
  predicate Fits(pat: seq<PatternElem>, pieces: seq<string>) {
    |pieces| == |pat| && forall i :: 0 <= i < |pat| ==> FitsElem(pat[i], pieces[i])
  }

  /** What element `e` consumes greedily at the front of `s`, or None when it
      cannot match there. */
  function StepLength(e: PatternElem, s: string): (r: Option<nat>)
    ensures r.Some? ==> r.value <= |s| && FitsElem(e, s[..r.value])
    ensures r.Some? && !e.Lit? ==> r.value == Span(s, e.cls)
  {
    match e
    case Lit(c) => if s != [] && s[0] == c then assert s[..1] == [c]; Some(1) else None
    case Star(cls) => Some(Span(s, cls))
    case Plus(cls) => if Span(s, cls) >= 1 then Some(Span(s, cls)) else None
  }

  lemma {:induction false} ConcatCons(piece: string, pieces: seq<string>, rest: string)
    ensures Concat([piece] + pieces) + rest == piece + (Concat(pieces) + rest)
  {
    assert ([piece] + pieces)[1..] == pieces;
  }

  /** `re.match(pattern, s)`, element by element without backtracking: the
      piece each element matched and the text after the match. */
  function MatchPrefix(pat: seq<PatternElem>, s: string): (r: Option<(seq<string>, string)>)
    ensures r.Some? ==> Fits(pat, r.value.0) && Concat(r.value.0) + r.value.1 == s
    decreases |pat|
  {
    if pat == [] then Some(([], s))
    else
      match StepLength(pat[0], s)
      case None => None
      case Some(n) =>
        match MatchPrefix(pat[1..], s[n..])
        case None => None
        case Some(m) =>
          ConcatCons(s[..n], m.0, m.1);
          assert s[..n] + s[n..] == s;
          Some(([s[..n]] + m.0, m.1))
  }

  /** No character of class `d` is in class `cls`. */
  predicate Disjoint(cls: CharClass, d: CharClass) {
    forall c :: InClass(c, d) ==> !InClass(c, cls)
  }

  /** After a repetition of `cls`, element `next` starts with a character
      outside `cls`, whatever it matches. */
  predicate StartsOutside(cls: CharClass, next: PatternElem) {
    match next
    case Lit(c) => !InClass(c, cls)
    case Plus(d) => Disjoint(cls, d)
    case Star(_) => false
  }

  /** Every repetition is followed by an element that starts outside its
      class: a greedy repetition never has anything to give back. */
  predicate Separated(pat: seq<PatternElem>) {
    forall i :: 0 <= i < |pat| && !pat[i].Lit? ==> i + 1 < |pat| && StartsOutside(pat[i].cls, pat[i + 1])
  }

  /** The greedy scan finds every match of a separated pattern: pieces that fit
      it, followed by anything, are matched piece for piece. */
  lemma {:induction false} MatchPrefixComplete(pat: seq<PatternElem>, pieces: seq<string>, rest: string)
    requires Separated(pat) && Fits(pat, pieces)
    ensures MatchPrefix(pat, Concat(pieces) + rest) == Some((pieces, rest))
    decreases |pat|
  {
    if pat != [] {
      var s := Concat(pieces) + rest;
      var tail := Concat(pieces[1..]) + rest;
      ConcatCons(pieces[0], pieces[1..], rest);
      assert [pieces[0]] + pieces[1..] == pieces;
      assert s == pieces[0] + tail;
      assert FitsElem(pat[0], pieces[0]);
      if !pat[0].Lit? {
        assert 1 < |pat| && StartsOutside(pat[0].cls, pat[1]);
        assert FitsElem(pat[1], pieces[1]);
        ConcatCons(pieces[1], pieces[2..], rest);
        assert [pieces[1]] + pieces[2..] == pieces[1..];
        assert tail[0] == pieces[1][0];
        SpanConcat(pieces[0], tail, pat[0].cls);
      }
      assert StepLength(pat[0], s) == Some(|pieces[0]|);
      assert s[..|pieces[0]|] == pieces[0] && s[|pieces[0]|..] == tail;
      assert Separated(pat[1..]) by {
        forall i | 0 <= i < |pat[1..]| && !pat[1..][i].Lit?
          ensures i + 1 < |pat[1..]| && StartsOutside(pat[1..][i].cls, pat[1..][i + 1])
        {
          assert pat[1..][i] == pat[i + 1];
        }
      }
      assert Fits(pat[1..], pieces[1..]) by {
        forall i | 0 <= i < |pat[1..]| ensures FitsElem(pat[1..][i], pieces[1..][i]) {
          assert FitsElem(pat[i + 1], pieces[i + 1]);
        }
      }
      MatchPrefixComplete(pat[1..], pieces[1..], rest);
      assert [s[..|pieces[0]|]] + pieces[1..] == pieces;
    } else {
      assert Concat(pieces) + rest == rest;
    }
  }

  /** The track pattern: pieces 1, 7 and 13 are the three groups (the track
      number, the length and the start offset as cdparanoia prints them). */
  const TRACK_LINE: seq<PatternElem> := [
    Star(Space), Plus(Digit), Lit('.'),
    Plus(Space), Plus(Digit), Plus(Space), Lit('['), Plus(NotCloseBracket), Lit(']'),
    Plus(Space), Plus(Digit), Plus(Space), Lit('['), Plus(NotCloseBracket), Lit(']')]

  lemma TrackLineSeparated()
    ensures Separated(TRACK_LINE)
  {
    assert Disjoint(Space, Digit);
    assert Disjoint(Digit, Space);
  }

  /** One dictionary of the result: `number`, `length`, `offset`. */
  datatype CdTrack = CdTrack(number: nat, length: string, offset: string)

  function TrackOf(pieces: seq<string>): CdTrack
    requires Fits(TRACK_LINE, pieces)
  {
    assert FitsElem(TRACK_LINE[1], pieces[1]);
    CdTrack(DecimalValue(pieces[1]), pieces[7], pieces[13])
  }

  /** `re.match(track_pattern, line)` and the dictionary built from its groups. */
  function ParseTrackLine(line: string): Option<CdTrack> {
    match MatchPrefix(TRACK_LINE, line)
    case None => None
    case Some(m) => Some(TrackOf(m.0))
  }

  /** Every track read off a line comes from a prefix of the line of the form
      the pattern describes. */
  lemma {:induction false} ParseTrackLineSound(line: string)
    ensures ParseTrackLine(line).Some? ==>
      exists pieces, rest :: Fits(TRACK_LINE, pieces) && line == Concat(pieces) + rest && ParseTrackLine(line).value == TrackOf(pieces)
  {
    var m := MatchPrefix(TRACK_LINE, line);
    if m.Some? {
      assert Fits(TRACK_LINE, m.value.0) && line == Concat(m.value.0) + m.value.1;
    }
  }

  /** A line of the form the pattern describes, followed by anything, is read
      as the track its groups give; with `ParseTrackLineSound` this makes the parser an exact reading of the pattern. */
  lemma {:induction false} ParseTrackLineComplete(pieces: seq<string>, rest: string)
    requires Fits(TRACK_LINE, pieces)
    ensures ParseTrackLine(Concat(pieces) + rest) == Some(TrackOf(pieces))
  {
    TrackLineSeparated();
    MatchPrefixComplete(TRACK_LINE, pieces, rest);
  }

  /** A line whose first character after leading whitespace is not a digit is
      no track, such as the `TOTAL` line of cdparanoia's table. */
  lemma {:induction false} NoNumberNoTrack(line: string)
    requires var n := Span(line, Space); n == |line| || !IsDigit(line[n])
    ensures ParseTrackLine(line) == None
  {
    var n := Span(line, Space);
    assert StepLength(TRACK_LINE[0], line) == Some(n);
    assert StepLength(TRACK_LINE[1], line[n..]) == None by {
      if n < |line| { assert line[n..][0] == line[n]; }
    }
  }

  lemma {:induction false} TotalLineIsNoTrack(rest: string)
    ensures ParseTrackLine("TOTAL" + rest) == None
  {
    var line := "TOTAL" + rest;
    assert line[0] == 'T';
    assert Span(line, Space) == 0;
    NoNumberNoTrack(line);
  }

  /** The tracks of the lines that match, in line order. */
  function TracksOf(lines: seq<string>): seq<CdTrack> { FilterMap(lines, ParseTrackLine) }

  function TrackNumber(t: CdTrack): int { t.number }

  /** What `read_audio_cd_tracks` returns for the error stream of
      `cdparanoia -Q`; None stands for cdparanoia not being installed. */
  function AudioCdTracks(stderr: Option<string>): seq<CdTrack> {
    match stderr
    case None => []
    case Some(err) => SortBy(TracksOf(SplitOn(err, '\n')), TrackNumber, IntLe)
  }

  method ReadAudioCdTracks(stderr: Option<string>) returns (tracks: seq<CdTrack>)
    ensures tracks == AudioCdTracks(stderr)
  {
    if stderr.None? {
      return [];
    }
    var lines := SplitOn(stderr.value, '\n');
    var found: seq<CdTrack> := [];
    var i := 0;
    while i < |lines|
      invariant 0 <= i <= |lines|
      invariant found == FilterMap(lines[..i], ParseTrackLine)
    {
      FilterMapStep(lines, i, ParseTrackLine);
      var parsed := ParseTrackLine(lines[i]);
      if parsed.Some? {
        found := found + [parsed.value];
      }
      i := i + 1;
    }
    assert lines[..i] == lines;
    tracks := SortBy(found, TrackNumber, IntLe);
  }

  /** The result holds the tracks of the matching lines, each as often as it
      matches, with track numbers that never decrease; tracks with the same
      number keep the order of their lines. */
  lemma AudioCdTracksSorted(err: string)
    ensures var tracks := AudioCdTracks(Some(err));
      && multiset(tracks) == multiset(TracksOf(SplitOn(err, '\n')))
      && (forall i, j :: 0 <= i < j < |tracks| ==> tracks[i].number <= tracks[j].number)
      && forall k :: KeyFilter(tracks, TrackNumber, k) == KeyFilter(TracksOf(SplitOn(err, '\n')), TrackNumber, k)
  {
    var found := TracksOf(SplitOn(err, '\n'));
    IntLeIsTotalOrder();
    SortByPermutes(found, TrackNumber, IntLe);
    SortBySorted(found, TrackNumber, IntLe);
    forall k ensures KeyFilter(SortBy(found, TrackNumber, IntLe), TrackNumber, k) == KeyFilter(found, TrackNumber, k) {
      SortByStable(found, TrackNumber, IntLe, k);
    }
  }

  /** A track is in the result exactly when a line of the error stream parses
      to it. */
  lemma AudioCdTracksMembers(err: string, t: CdTrack)
    ensures t in AudioCdTracks(Some(err)) <==>
      exists k :: 0 <= k < |SplitOn(err, '\n')| && ParseTrackLine(SplitOn(err, '\n')[k]) == Some(t)
  {
    AudioCdTracksSorted(err);
    FilterMapMembers(SplitOn(err, '\n'), ParseTrackLine, t);
    assert t in AudioCdTracks(Some(err)) <==> t in multiset(AudioCdTracks(Some(err)));
    assert t in TracksOf(SplitOn(err, '\n')) <==> t in multiset(TracksOf(SplitOn(err, '\n')));
  }
}
