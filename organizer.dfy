/** `MusicCDOrganizer.read_metadata` and `organize_by_track_number`
    (Singe.py): every file's tags (what ffprobe reported, an input here) give
    a track number, and the files are stably sorted by it. */
module Organizer {
  import opened Results
  import opened TextUtil
  import opened StableSort

  /** What the ffprobe call of `read_metadata` gave for one file: nothing
      usable (a failed run, unreadable JSON, any exception), or the tags of
      the `format` section and its `duration` entry, if any. */
  datatype ProbeResult = ProbeFailed | Probed(tags: map<string, string>, duration: Option<string>)

  /** The dictionary `read_metadata` returns. The fallback one has no
      `duration` key, which is `None` here. */
  datatype Metadata = Metadata(
    title: string, artist: string, album: string, track: string, duration: Option<string>)

  /** One file and its probe result. */
  datatype FileProbe = FileProbe(file: string, probe: ProbeResult)

  /** One entry of `files_with_metadata`. */
  datatype TrackEntry = TrackEntry(file: string, trackNumber: int, metadata: Metadata)

  /** The number a file gets when its track tag is not a number. */
  const UNNUMBERED: int := 999

  /** `tags.get(key, default)`. */
  function TagOr(tags: map<string, string>, key: string, default: string): string {
    if key in tags then tags[key] else default
  }

  function ReadMetadata(probe: ProbeResult): (m: Metadata)
    ensures probe.ProbeFailed? ==> m == Metadata("Unknown", "Unknown", "Unknown", "0", None)
    ensures probe.Probed? ==> m.duration.Some?
  {
    match probe
    case ProbeFailed => Metadata("Unknown", "Unknown", "Unknown", "0", None)
    case Probed(tags, duration) =>
      Metadata(
        TagOr(tags, "title", "Unknown"), TagOr(tags, "artist", "Unknown"),
        TagOr(tags, "album", "Unknown"), TagOr(tags, "track", "0"),
        Some(match duration case Some(d) => d case None => "0"))
  }

  /** The track number of a tag: for `"a/b"` the value of `int(a)`, where a
      non-number raises (`None` here, since nothing catches it); otherwise
      `int(tag)`, or 999 when that raises. */
  function TrackNumber(tag: string): Option<int> {
    if '/' in tag then ParseInt(SplitOn(tag, '/')[0])
    else
      match ParseInt(tag)
      case Some(n) => Some(n)
      case None => Some(UNNUMBERED)
  }

  /** `read_metadata` falls back to the tag `"0"` when the probe fails or has no
      track tag, and keeps every tag it finds. */
  lemma {:induction false} ReadMetadataDefaults(probe: ProbeResult)
    ensures !(probe.Probed? && "track" in probe.tags) ==> TrackNumber(ReadMetadata(probe).track) == Some(0)
    ensures probe.Probed? && "track" in probe.tags ==> ReadMetadata(probe).track == probe.tags["track"]
    ensures probe.Probed? && "title" in probe.tags ==> ReadMetadata(probe).title == probe.tags["title"]
    ensures probe.Probed? && "artist" in probe.tags ==> ReadMetadata(probe).artist == probe.tags["artist"]
    ensures probe.Probed? && "album" in probe.tags ==> ReadMetadata(probe).album == probe.tags["album"]
  {
    assert IntToDecimal(0) == "0";
    ParseIntRoundTrip(0);
  }

  /** A plain number tag gives that number: `int(str(n)) == n`. */
  lemma {:induction false} TrackNumberOfNumber(n: int)
    ensures TrackNumber(IntToDecimal(n)) == Some(n)
  {
    ParseIntRoundTrip(n);
    NoSlashInDecimal(n);
  }

  lemma {:induction false} NoSlashInDecimal(n: int)
    ensures '/' !in IntToDecimal(n)
  {
    var d := NatToDecimal(if n < 0 then -n else n);
    assert forall i :: 0 <= i < |d| ==> IsDigit(d[i]);
    if n < 0 {
      assert IntToDecimal(n) == "-" + d;
    }
  }

  /** A `"3/12"` tag gives the number before the slash, whatever follows it. */
  lemma {:induction false} TrackNumberOfFraction(n: int, total: string)
    ensures TrackNumber(IntToDecimal(n) + "/" + total) == Some(n)
  {
    NoSlashInDecimal(n);
    ParseIntRoundTrip(n);
    assert IntToDecimal(n) + "/" + total == IntToDecimal(n) + ['/'] + total;
    SplitOnFirst(IntToDecimal(n), total, '/');
  }

  /** Only a slash form can fail: a slash-free tag that is not a number gives
      999, while a slash form whose first part is not a number raises. */
  lemma {:induction false} TrackNumberFailures(tag: string)
    ensures TrackNumber(tag).None? ==> '/' in tag
    ensures '/' !in tag && ParseInt(tag).None? ==> TrackNumber(tag) == Some(UNNUMBERED)
  {
  }

  /** A tag whose part before the first `/` is not a number raises, whatever
      follows the slash. */
  lemma {:induction false} SlashFormFails(a: string, b: string)
    requires '/' !in a && ParseInt(a).None?
    ensures TrackNumber(a + ['/'] + b).None?
  {
    var tag := a + ['/'] + b;
    assert tag[|a|] == '/';
    SplitOnFirst(a, b, '/');
  }

  /** `x/12` raises and `x` gives 999. */
  lemma {:induction false} TrackNumberExamples()
    ensures TrackNumber("x/12").None?
    ensures TrackNumber("x") == Some(UNNUMBERED)
  {
    assert Strip("x") == "x" by { StripUnchanged("x"); }
    assert !IsDigitGroups("x");
    assert "x/12" == "x" + ['/'] + "12";
    SlashFormFails("x", "12");
  }

  /** One round of the loop: the entry for a file, or `None` when its tag
      raises. */
  function EntryOf(fp: FileProbe): Option<TrackEntry> {
    var metadata := ReadMetadata(fp.probe);
    match TrackNumber(metadata.track)
    case None => None
    case Some(n) => Some(TrackEntry(fp.file, n, metadata))
  }

  /** A loop that appends `f(x)` for every `x` and stops at the first `x` for
      which `f` fails: the results in order, or that first `x`. */
  function CollectAll<A, B>(xs: seq<A>, f: A -> Option<B>): Result<seq<B>, A> {
    if xs == [] then Success([])
    else
      var last := xs[|xs| - 1];
      match CollectAll(xs[..|xs| - 1], f)
      case Failure(x) => Failure(x)
      case Success(ys) =>
        match f(last)
        case None => Failure(last)
        case Some(y) => Success(ys + [y])
  }

  /** One more element: the loop goes on with its result, or stops on it. */
  lemma {:induction false} CollectAllStep<A, B>(xs: seq<A>, f: A -> Option<B>, i: nat, ys: seq<B>)
    requires i < |xs| && CollectAll(xs[..i], f) == Success(ys)
    ensures f(xs[i]).None? ==> CollectAll(xs[..i + 1], f) == Failure(xs[i])
    ensures f(xs[i]).Some? ==> CollectAll(xs[..i + 1], f) == Success(ys + [f(xs[i]).value])
  {
    assert xs[..i + 1][..i] == xs[..i];
  }

  lemma {:induction false} CollectAllFailurePersists<A, B>(xs: seq<A>, f: A -> Option<B>, i: nat)
    requires i <= |xs|
    requires CollectAll(xs[..i], f).Failure?
    ensures CollectAll(xs, f) == CollectAll(xs[..i], f)
    decreases |xs| - i
  {
    if i < |xs| {
      assert xs[..i + 1][..i] == xs[..i];
      CollectAllFailurePersists(xs, f, i + 1);
    } else {
      assert xs[..i] == xs;
    }
  }

  /** The loop fails exactly when some element fails. */
  lemma {:induction false} CollectAllFailsIff<A, B>(xs: seq<A>, f: A -> Option<B>)
    ensures CollectAll(xs, f).Failure? <==> exists i :: 0 <= i < |xs| && f(xs[i]).None?
  {
    if xs != [] {
      var init := xs[..|xs| - 1];
      CollectAllFailsIff(init, f);
      assert forall i :: 0 <= i < |init| ==> init[i] == xs[i];
      if CollectAll(init, f).Failure? {
        var i :| 0 <= i < |init| && f(init[i]).None?;
        assert f(xs[i]).None?;
      }
    }
  }

  /** When the loop fails, it is on the first element that fails. */
  lemma {:induction false} CollectAllFailsFirst<A, B>(xs: seq<A>, f: A -> Option<B>)
    requires CollectAll(xs, f).Failure?
    ensures exists i ::
      && 0 <= i < |xs| && f(xs[i]).None? && CollectAll(xs, f).error == xs[i]
      && forall j :: 0 <= j < i ==> f(xs[j]).Some?
  {
    var init := xs[..|xs| - 1];
    assert forall i :: 0 <= i < |init| ==> init[i] == xs[i];
    if CollectAll(init, f).Failure? {
      CollectAllFailsFirst(init, f);
      var i :| 0 <= i < |init| && f(init[i]).None? && CollectAll(init, f).error == init[i]
        && forall j :: 0 <= j < i ==> f(init[j]).Some?;
      assert f(xs[i]).None?;
    } else {
      CollectAllFailsIff(init, f);
      assert f(xs[|xs| - 1]).None?;
    }
  }

  /** Otherwise it has one result per element, in order. */
  lemma {:induction false} CollectAllSucceeds<A, B>(xs: seq<A>, f: A -> Option<B>)
    requires CollectAll(xs, f).Success?
    ensures |CollectAll(xs, f).value| == |xs|
    ensures forall i :: 0 <= i < |xs| ==> f(xs[i]) == Some(CollectAll(xs, f).value[i])
  {
    if xs != [] {
      var init := xs[..|xs| - 1];
      CollectAllSucceeds(init, f);
      assert forall i :: 0 <= i < |init| ==> init[i] == xs[i];
    }
  }

  /** When no element fails, the loop succeeds with their results in order. */
  lemma {:induction false} CollectAllNoFailure<A, B>(xs: seq<A>, f: A -> Option<B>, ys: seq<B>)
    requires |ys| == |xs|
    requires forall i :: 0 <= i < |xs| ==> f(xs[i]) == Some(ys[i])
    ensures CollectAll(xs, f) == Success(ys)
  {
    if xs != [] {
      CollectAllNoFailure(xs[..|xs| - 1], f, ys[..|ys| - 1]);
      assert ys == ys[..|ys| - 1] + [ys[|ys| - 1]];
    }
  }

  function TrackKey(e: TrackEntry): int { e.trackNumber }

  function EntryFile(e: TrackEntry): string { e.file }

  function FileOf(fp: FileProbe): string { fp.file }

  /** What `organize_by_track_number` returns, or the file it raises on. */
  function Organized(inputs: seq<FileProbe>): Result<seq<string>, string> {
    match CollectAll(inputs, EntryOf)
    case Failure(fp) => Failure(fp.file)
    case Success(entries) => Success(Project(SortBy(entries, TrackKey, IntLe), EntryFile))
  }

  method OrganizeByTrackNumber(inputs: seq<FileProbe>) returns (r: Result<seq<string>, string>)
    ensures r == Organized(inputs)
  {
    var entries: seq<TrackEntry> := [];
    var i := 0;
    while i < |inputs|
      invariant 0 <= i <= |inputs|
      invariant CollectAll(inputs[..i], EntryOf) == Success(entries)
    {
      var metadata := ReadMetadata(inputs[i].probe);
      var trackNumber := TrackNumber(metadata.track);
      CollectAllStep(inputs, EntryOf, i, entries);
      assert EntryOf(inputs[i]) == if trackNumber.None? then None else Some(TrackEntry(inputs[i].file, trackNumber.value, metadata));
      if trackNumber.None? {
        CollectAllFailurePersists(inputs, EntryOf, i + 1);
        r := Failure(inputs[i].file);
        return;
      }
      entries := entries + [TrackEntry(inputs[i].file, trackNumber.value, metadata)];
      i := i + 1;
    }
    assert inputs[..i] == inputs;
    var sorted := SortBy(entries, TrackKey, IntLe);
    r := Success(Project(sorted, EntryFile));
  }

  /** `organize_by_track_number` raises exactly when some file's tag raises,
      and it is the first such file that it raises on. */
  lemma {:induction false} OrganizedFailure(inputs: seq<FileProbe>)
    ensures Organized(inputs).Failure? <==> exists i :: 0 <= i < |inputs| && EntryOf(inputs[i]).None?
    ensures Organized(inputs).Failure? ==> exists i ::
      && 0 <= i < |inputs| && TrackNumber(ReadMetadata(inputs[i].probe).track).None?
      && Organized(inputs).error == inputs[i].file
      && forall j :: 0 <= j < i ==> TrackNumber(ReadMetadata(inputs[j].probe).track).Some?
  {
    CollectAllFailsIff(inputs, EntryOf);
    if Organized(inputs).Failure? {
      CollectAllFailsFirst(inputs, EntryOf);
    }
  }

  /** On success there is one entry per file, in input order, with that file's
      metadata and track number; the result is the file sequence of these
      entries sorted by track number, which never decreases; it holds every
      input file as often as the input does; and files with the same track
      number keep their input order. */
  lemma {:induction false} OrganizedSortedStable(inputs: seq<FileProbe>)
    requires Organized(inputs).Success?
    ensures var entries := CollectAll(inputs, EntryOf).value;
      var sorted := SortBy(entries, TrackKey, IntLe);
      && |entries| == |inputs|
      && (forall i :: 0 <= i < |inputs| ==>
            && entries[i].file == inputs[i].file
            && entries[i].metadata == ReadMetadata(inputs[i].probe)
            && TrackNumber(entries[i].metadata.track) == Some(entries[i].trackNumber))
      && Organized(inputs).value == Project(sorted, EntryFile)
      && multiset(sorted) == multiset(entries)
      && (forall i, j :: 0 <= i < j < |sorted| ==> sorted[i].trackNumber <= sorted[j].trackNumber)
      && (forall k :: KeyFilter(sorted, TrackKey, k) == KeyFilter(entries, TrackKey, k))
    ensures multiset(Organized(inputs).value) == multiset(Project(inputs, FileOf))
  {
    var entries := CollectAll(inputs, EntryOf).value;
    EntriesOfInputs(inputs);
    SortedEntries(entries);
    SortByProjectPermutes(entries, TrackKey, IntLe, EntryFile);
  }

  lemma {:induction false} EntryOfFields(fp: FileProbe, e: TrackEntry)
    requires EntryOf(fp) == Some(e)
    ensures e.file == fp.file && e.metadata == ReadMetadata(fp.probe)
    ensures TrackNumber(e.metadata.track) == Some(e.trackNumber)
  {
  }

  lemma {:induction false} EntriesOfInputs(inputs: seq<FileProbe>)
    requires CollectAll(inputs, EntryOf).Success?
    ensures var entries := CollectAll(inputs, EntryOf).value;
      && |entries| == |inputs|
      && (forall i :: 0 <= i < |inputs| ==>
            && entries[i].file == inputs[i].file
            && entries[i].metadata == ReadMetadata(inputs[i].probe)
            && TrackNumber(entries[i].metadata.track) == Some(entries[i].trackNumber))
      && Project(entries, EntryFile) == Project(inputs, FileOf)
  {
    var entries := CollectAll(inputs, EntryOf).value;
    CollectAllSucceeds(inputs, EntryOf);
    forall i | 0 <= i < |inputs| ensures
      && entries[i].file == inputs[i].file
      && entries[i].metadata == ReadMetadata(inputs[i].probe)
      && TrackNumber(entries[i].metadata.track) == Some(entries[i].trackNumber)
    {
      EntryOfFields(inputs[i], entries[i]);
    }
    assert Project(entries, EntryFile) == Project(inputs, FileOf);
  }

  lemma {:induction false} SortedEntries(entries: seq<TrackEntry>)
    ensures var sorted := SortBy(entries, TrackKey, IntLe);
      && multiset(sorted) == multiset(entries)
      && (forall i, j :: 0 <= i < j < |sorted| ==> sorted[i].trackNumber <= sorted[j].trackNumber)
      && (forall k :: KeyFilter(sorted, TrackKey, k) == KeyFilter(entries, TrackKey, k))
  {
    IntLeIsTotalOrder();
    SortByPermutes(entries, TrackKey, IntLe);
    SortBySorted(entries, TrackKey, IntLe);
    forall k ensures KeyFilter(SortBy(entries, TrackKey, IntLe), TrackKey, k) == KeyFilter(entries, TrackKey, k) {
      SortByStable(entries, TrackKey, IntLe, k);
    }
  }

  lemma {:induction false} SortByConstantKey<T>(s: seq<T>, key: T -> int, k: int)
    requires forall i :: 0 <= i < |s| ==> key(s[i]) == k
    ensures SortBy(s, key, IntLe) == s
  {
    if s != [] {
      SortByConstantKey(s[1..], key, k);
      if s[1..] != [] { assert key(s[1..][0]) == k; }
      assert [s[0]] + s[1..] == s;
    }
  }

  /** When no probe gives a track tag (ffprobe missing, say), every file is
      track 0 and the files keep the order they came in. */
  lemma {:induction false} AllUntaggedKeepOrder(inputs: seq<FileProbe>)
    requires forall i :: 0 <= i < |inputs| ==> !(inputs[i].probe.Probed? && "track" in inputs[i].probe.tags)
    ensures Organized(inputs) == Success(Project(inputs, FileOf))
  {
    forall i | 0 <= i < |inputs| ensures EntryOf(inputs[i]).Some? && EntryOf(inputs[i]).value.trackNumber == 0 {
      ReadMetadataDefaults(inputs[i].probe);
    }
    CollectAllFailsIff(inputs, EntryOf);
    var entries := CollectAll(inputs, EntryOf).value;
    CollectAllSucceeds(inputs, EntryOf);
    SortByConstantKey(entries, TrackKey, 0);
    assert Project(entries, EntryFile) == Project(inputs, FileOf);
  }

  /** With every probe failing, as when `subprocess.run` is replaced by a mock
      whose output is no JSON, three files keep their order. */
  lemma {:induction false} AllProbesFailedOrder(f1: string, f2: string, f3: string)
    ensures Organized([FileProbe(f1, ProbeFailed), FileProbe(f2, ProbeFailed), FileProbe(f3, ProbeFailed)])
      == Success([f1, f2, f3])
  {
    var inputs := [FileProbe(f1, ProbeFailed), FileProbe(f2, ProbeFailed), FileProbe(f3, ProbeFailed)];
    AllUntaggedKeepOrder(inputs);
    assert Project(inputs, FileOf) == [f1, f2, f3];
  }

  function TaggedProbe(file: string, n: int): FileProbe {
    FileProbe(file, Probed(map["track" := IntToDecimal(n)], None))
  }

  /** A file tagged with a number gets an entry with that number. */
  lemma {:induction false} TaggedEntry(file: string, n: int) returns (e: TrackEntry)
    ensures EntryOf(TaggedProbe(file, n)) == Some(e)
    ensures e.file == file && e.trackNumber == n
  {
    TrackNumberOfNumber(n);
    e := TrackEntry(file, n, ReadMetadata(TaggedProbe(file, n).probe));
    assert ReadMetadata(TaggedProbe(file, n).probe).track == IntToDecimal(n);
  }

  /** Three files tagged `m`, `n` and `p` with `n < p < m` come out second,
      third, first. */
  lemma {:induction false} OrganizeThree(f1: string, m: int, f2: string, n: int, f3: string, p: int)
    requires n < p < m
    ensures Organized([TaggedProbe(f1, m), TaggedProbe(f2, n), TaggedProbe(f3, p)]) == Success([f2, f3, f1])
  {
    var ea := TaggedEntry(f1, m);
    var eb := TaggedEntry(f2, n);
    var ec := TaggedEntry(f3, p);
    OrganizeThreeEntries([TaggedProbe(f1, m), TaggedProbe(f2, n), TaggedProbe(f3, p)], ea, eb, ec);
  }

  lemma {:induction false} OrganizeThreeEntries(inputs: seq<FileProbe>, ea: TrackEntry, eb: TrackEntry, ec: TrackEntry)
    requires |inputs| == 3
    requires EntryOf(inputs[0]) == Some(ea) && EntryOf(inputs[1]) == Some(eb) && EntryOf(inputs[2]) == Some(ec)
    requires eb.trackNumber < ec.trackNumber < ea.trackNumber
    ensures Organized(inputs) == Success([eb.file, ec.file, ea.file])
  {
    var entries := [ea, eb, ec];
    forall i | 0 <= i < |inputs| ensures EntryOf(inputs[i]) == Some(entries[i]) {
      if i == 0 { assert entries[i] == ea; } else if i == 1 { assert entries[i] == eb; } else { assert entries[i] == ec; }
    }
    CollectAllNoFailure(inputs, EntryOf, entries);
    SortThree(ea, eb, ec);
    assert Project([eb, ec, ea], EntryFile) == [eb.file, ec.file, ea.file];
  }

  lemma {:induction false} SortThree(ea: TrackEntry, eb: TrackEntry, ec: TrackEntry)
    requires eb.trackNumber < ec.trackNumber < ea.trackNumber
    ensures SortBy([ea, eb, ec], TrackKey, IntLe) == [eb, ec, ea]
  {
    assert [ea, eb, ec][1..] == [eb, ec] && [eb, ec][1..] == [ec];
    assert SortBy([ec], TrackKey, IntLe) == [ec];
    assert SortBy([eb, ec], TrackKey, IntLe) == [eb, ec];
    assert [eb, ec][1..] == [ec] && [ec][1..] == [];
    assert Insert(ea, [ec], TrackKey, IntLe) == [ec, ea];
    assert Insert(ea, [eb, ec], TrackKey, IntLe) == [eb, ec, ea];
  }

  /** Tags 3, 1 and 2 give the files in the order 2, 3, 1. */
  lemma {:induction false} OrganizeExample()
    ensures Organized([
      FileProbe("/path/to/song1.mp3", Probed(map["track" := "3"], None)),
      FileProbe("/path/to/song2.mp3", Probed(map["track" := "1"], None)),
      FileProbe("/path/to/song3.mp3", Probed(map["track" := "2"], None))])
      == Success(["/path/to/song2.mp3", "/path/to/song3.mp3", "/path/to/song1.mp3"])
  {
    assert IntToDecimal(3) == "3" && IntToDecimal(1) == "1" && IntToDecimal(2) == "2";
    OrganizeThree("/path/to/song1.mp3", 3, "/path/to/song2.mp3", 1, "/path/to/song3.mp3", 2);
  }
}
