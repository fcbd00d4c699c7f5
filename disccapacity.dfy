/** The arithmetic of `AudioCDWriter.calculate_disc_capacity` (Singe.py):
    the probed duration of every file is an input, the loop sorts the files
    into resolved and failed ones, sums the resolved durations and compares
    the sum with a 74- or 80-minute disc. */
module DiscCapacity {
  import opened Results
  import opened StableSort
  import opened ClockFormat

  const CD_74_MIN_SECONDS: int := 74 * 60
  const CD_80_MIN_SECONDS: int := 80 * 60

  /** A file and what the duration probe reported for it: `None` when ffprobe
      failed or gave no duration. */
  datatype DurationProbe = DurationProbe(file: string, duration: Option<real>)

  /** One entry of `track_durations`. */
  datatype TrackDuration = TrackDuration(file: string, duration: real)

  /** The dictionary `calculate_disc_capacity` returns (without `percent_used`). */
  datatype CapacityInfo = CapacityInfo(
    totalSeconds: real,
    totalFormatted: string,
    remainingSeconds: real,
    remainingFormatted: string,
    cdCapacity: int,
    cdSize: int,
    trackCount: nat,
    trackDurations: seq<TrackDuration>,
    failedFiles: seq<string>,
    fitsOnDisc: bool)

  /** The files whose duration is known, with that duration, in input order. */
  function Resolved(probes: seq<DurationProbe>): seq<TrackDuration> {
    if probes == [] then []
    else
      var last := probes[|probes| - 1];
      Resolved(probes[..|probes| - 1])
        + (match last.duration case Some(d) => [TrackDuration(last.file, d)] case None => [])
  }

  /** The files whose duration is unknown, in input order. */
  function Failed(probes: seq<DurationProbe>): seq<string> {
    if probes == [] then []
    else
      var last := probes[|probes| - 1];
      Failed(probes[..|probes| - 1]) + (if last.duration.None? then [last.file] else [])
  }

  function TotalDuration(tracks: seq<TrackDuration>): real {
    if tracks == [] then 0.0
    else TotalDuration(tracks[..|tracks| - 1]) + tracks[|tracks| - 1].duration
  }

  method CalculateDiscCapacity(probes: seq<DurationProbe>, cdSize: int) returns (info: CapacityInfo)
    ensures info.trackDurations == Resolved(probes)
    ensures info.failedFiles == Failed(probes)
    ensures info.totalSeconds == TotalDuration(Resolved(probes))
    ensures info.cdSize == cdSize
    ensures info.cdCapacity == (if cdSize == 80 then 4800 else 4440)
    ensures info.remainingSeconds == info.cdCapacity as real - info.totalSeconds
    ensures info.fitsOnDisc <==> info.totalSeconds <= info.cdCapacity as real
    ensures info.totalFormatted == FormatTime(info.totalSeconds)
    ensures info.remainingSeconds <= 0.0 ==> info.remainingFormatted == "0:00"
    ensures info.remainingSeconds > 0.0 ==> info.remainingFormatted == FormatTime(info.remainingSeconds)
    ensures info.trackCount == |probes|
  {
    var total := 0.0;
    var durations: seq<TrackDuration> := [];
    var failed: seq<string> := [];
    var i := 0;
    while i < |probes|
      invariant 0 <= i <= |probes|
      invariant durations == Resolved(probes[..i])
      invariant failed == Failed(probes[..i])
      invariant total == TotalDuration(durations)
    {
      var probe := probes[i];
      match probe.duration {
        case Some(d) =>
          total := total + d;
          durations := durations + [TrackDuration(probe.file, d)];
        case None =>
          failed := failed + [probe.file];
      }
      assert probes[..i + 1][..i] == probes[..i];
      i := i + 1;
    }
    assert probes[..i] == probes;
    var capacity := if cdSize == 80 then CD_80_MIN_SECONDS else CD_74_MIN_SECONDS;
    var remaining := capacity as real - total;
    info := CapacityInfo(
      total, FormatTime(total),
      remaining, if remaining > 0.0 then FormatTime(remaining) else "0:00",
      capacity, cdSize, |probes|, durations, failed, remaining >= 0.0);
  }

  /** `c` is `a` and `b` merged: every element of `c` is taken, in order, from
      the front of `a` or of `b`, and nothing is left over. */
  ghost predicate Interleaves<T>(a: seq<T>, b: seq<T>, c: seq<T>)
    decreases |c|
  {
    if c == [] then a == [] && b == []
    else
      var x := c[|c| - 1];
      || (a != [] && a[|a| - 1] == x && Interleaves(a[..|a| - 1], b, c[..|c| - 1]))
      || (b != [] && b[|b| - 1] == x && Interleaves(a, b[..|b| - 1], c[..|c| - 1]))
  }

  function AsResolvedProbe(t: TrackDuration): DurationProbe { DurationProbe(t.file, Some(t.duration)) }

  function AsFailedProbe(file: string): DurationProbe { DurationProbe(file, None) }

  lemma ProjectSnoc<T, U>(s: seq<T>, x: T, f: T -> U)
    ensures Project(s + [x], f) == Project(s, f) + [f(x)]
  {
  }

  /** `track_durations` and `failed_files` partition the input and keep its
      order: merged back together (a resolved entry as its file with its
      duration, a failed one as its file with none) they are the input, so
      there are `|probes|` of them in all. */
  lemma {:induction false} ResolvedFailedPartition(probes: seq<DurationProbe>)
    ensures Interleaves(Project(Resolved(probes), AsResolvedProbe), Project(Failed(probes), AsFailedProbe), probes)
    ensures |Resolved(probes)| + |Failed(probes)| == |probes|
  {
    if probes != [] {
      var init := probes[..|probes| - 1];
      var last := probes[|probes| - 1];
      ResolvedFailedPartition(init);
      match last.duration {
        case Some(d) =>
          ProjectSnoc(Resolved(init), TrackDuration(last.file, d), AsResolvedProbe);
          assert Failed(probes) == Failed(init);
        case None =>
          ProjectSnoc(Failed(init), last.file, AsFailedProbe);
          assert Resolved(probes) == Resolved(init);
      }
    }
  }

  lemma {:induction false} ResolvedConcat(a: seq<DurationProbe>, b: seq<DurationProbe>)
    ensures Resolved(a + b) == Resolved(a) + Resolved(b)
    decreases |b|
  {
    if b != [] {
      assert (a + b)[..|a + b| - 1] == a + b[..|b| - 1];
      ResolvedConcat(a, b[..|b| - 1]);
    } else {
      assert a + b == a;
    }
  }

  lemma {:induction false} TotalConcat(a: seq<TrackDuration>, b: seq<TrackDuration>)
    ensures TotalDuration(a + b) == TotalDuration(a) + TotalDuration(b)
    decreases |b|
  {
    if b != [] {
      assert (a + b)[..|a + b| - 1] == a + b[..|b| - 1];
      TotalConcat(a, b[..|b| - 1]);
    } else {
      assert a + b == a;
    }
  }

  /** `total_seconds` adds up the resolved durations only: a file whose duration
      is unknown, wherever it stands, changes neither the total nor the resolved
      list. */
  lemma FailedFileAddsNothing(a: seq<DurationProbe>, file: string, b: seq<DurationProbe>)
    ensures Resolved(a + [DurationProbe(file, None)] + b) == Resolved(a + b)
    ensures TotalDuration(Resolved(a + [DurationProbe(file, None)] + b)) == TotalDuration(Resolved(a + b))
  {
    ResolvedConcat(a + [DurationProbe(file, None)], b);
    ResolvedConcat(a, [DurationProbe(file, None)]);
    ResolvedConcat(a, b);
    assert Resolved([DurationProbe(file, None)]) == [];
  }

  /** The total is the known durations added up: one more known duration adds
      exactly that much. */
  lemma ResolvedFileAdds(a: seq<DurationProbe>, file: string, d: real, b: seq<DurationProbe>)
    ensures TotalDuration(Resolved(a + [DurationProbe(file, Some(d))] + b)) == TotalDuration(Resolved(a + b)) + d
  {
    var p := [DurationProbe(file, Some(d))];
    ResolvedConcat(a + p, b);
    ResolvedConcat(a, p);
    ResolvedConcat(a, b);
    assert Resolved(p) == [TrackDuration(file, d)];
    TotalConcat(Resolved(a) + Resolved(p), Resolved(b));
    TotalConcat(Resolved(a), Resolved(p));
    TotalConcat(Resolved(a), Resolved(b));
    assert TotalDuration([TrackDuration(file, d)]) == d;
  }
}
