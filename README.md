# Singe helpers in Dafny

Singe (`Singe.py`) is a command-line tool that burns audio CDs. It also reads
discs, writes CUE sheets and orders tracks. Most of it drives external
programs: ffprobe, wodim, cdrdao, cdparanoia, ffmpeg. The logic it computes
itself is in a few helper methods of `AudioCDWriter` and `MusicCDOrganizer`.
This project models those helpers and proves what they promise. Each helper's
outside input becomes a parameter:
- a probed duration, or the tags ffprobe reported;
- cdparanoia's error stream;
- the lines of a playlist file.

What is modelled, module by module:

- **ClockFormat** (`clockformat.dfy`): `_format_time`.
  - Seconds are truncated toward zero, as `int()` does.
  - They are rendered as `M:SS` below an hour and as `H:MM:SS` from an hour on.
  - Division and remainder follow Python's floor semantics.
  - For non-negative seconds the result is proved to read back as the whole
    seconds it came from. A negative count prints as the count modulo 3600
    (`FormatClockNegative`).
- **DiscCapacity** (`disccapacity.dfy`): the loop and the arithmetic of
  `calculate_disc_capacity`, written as a method over the probe results.
  - The files split into resolved and failed ones.
  - The total is the sum of the resolved durations.
  - The capacity is 4800 seconds for `cd_size == 80` and 4440 for anything else.
  - The method also computes `remaining_seconds` and `fits_on_disc`.
- **NaturalSort** (`naturalsort.dfy`): `_natural_sort_key`.
  - `re.split(r'(\d+)', …)` is written as a scanner over digit and non-digit runs.
  - Python's list comparison is modelled, as is the stable sort of `scan_folder_for_audio`.
- **TrackOrder** (`trackorder.dfy`): `extract_track_number`, nested in
  `burn_audio_cd`, written as a scanner for the leftmost case-insensitive
  `track[_\s]*(\d+)`, and the stable sort of the burn order by it.
- **Organizer** (`organizer.dfy`): the two methods `read_metadata` and
  `organize_by_track_number`.
  - `read_metadata` supplies the tag defaults.
  - The track tag is parsed into a number.
  - A tag of the form `a/b` whose `a` is not a number raises, and nothing catches it. The model returns it as a `Failure` naming the file.
  - The files are then stably sorted by track number.
- **CueToc** (`cuetoc.dfy`): the text written by `create_cue_sheet` and the
  cdrdao TOC text written by `burn_audio_cd`.
  - Both are methods that write line by line.
  - Each is proved equal to a function of its input.
  - Each is proved to read back, line by line, as a header followed by one numbered block per file.
- **CdTracks** (`cdtracks.dfy`): `read_audio_cd_tracks`.
  - Its regular expression is a chain of literals and greedy repetitions, matched without backtracking.
  - The matcher is proved sound and complete for that pattern.
  - The lines that match are then sorted by track number.
- **Playlist** (`playlist.dfy`): the line loop of `parse_m3u_playlist`.
  - Stripped lines that are blank or start with `#` are skipped.
  - The rest are resolved in playlist order.
- **TextUtil**, **StableSort**, **Results**: the Python built-ins these helpers
  rely on, all modelled over ASCII. They are `str.split`, `strip`,
  `lower`, `int()`, `str()`, `{:02d}`, `os.path.basename`, `"".join` and the
  stable `sorted`. All of them are proved along with the rest.

Facts about the code that shape the model:
- Singe.py has no multi-disc planning, disc ID, read-back verification or
  burn queue, so none is modelled.
- Each CUE block writes its `FILE` line before its `TRACK` line
  (Singe.py:700-701).
- `extract_track_number` searches the whole path, so a `track` word in a
  directory name wins over the base name's digits (`DirectoryTrackWordWins`).

## Model

| member | source | states |
|---|---|---|
| ClockFormat.FormatClock | Singe.py:228-235 | `_format_time` on a whole number of seconds: hours, minutes and seconds by floor division, then `H:MM:SS` when hours > 0 and `M:SS` otherwise; its read-back is `FormatClockRoundTrip` |
| ClockFormat.FormatTime | Singe.py:224-235 | `_format_time(seconds)`: the seconds truncated toward zero, then formatted by `FormatClock` |
| ClockFormat.ParseClock | Singe.py:225 | a reader of the `MM:SS` and `HH:MM:SS` forms the docstring names, independent of the formatter, used to state the round trip |
| ClockFormat.TruncateTowardZero | Singe.py:226-227 | `int(seconds)`: the integer at most one below a non-negative value, or at most one above a negative one, in both cases toward zero |
| ClockFormat.FormatClockRoundTrip | Singe.py:224-235 | for `n >= 0` the text has two fields below 3600 and three from 3600 on; the later fields are two digits below 60; `h*3600 + m*60 + s == n` |
| ClockFormat.FormatTimeOfNonNegative | Singe.py:224-235 | for non-negative seconds the text is that of their floor and reads back as it |
| ClockFormat.FormatClockNegative | Singe.py:228-235 | a negative count prints as that count taken modulo 3600, so never with an hour field |
| ClockFormat.FormatClockExamples | Singe.py:224-235 | 0 is `0:00`, 125 is `2:05`, 3661 is `1:01:01`, -5 is `59:55` |
| ClockFormat.ClockFields | Singe.py:228-230 | minutes and seconds lie in 0..59 and recombine with the hours into the count |
| DiscCapacity.Resolved | Singe.py:190-198 | `track_durations`: the files with a known duration, with it, in input order |
| DiscCapacity.Failed | Singe.py:190-203 | `failed_files`: the files without a duration, in input order |
| DiscCapacity.TotalDuration | Singe.py:184-194 | `total_seconds`: the sum of the resolved durations, from 0 |
| DiscCapacity.CalculateDiscCapacity | Singe.py:184-222 | durations and failed files are the resolved and failed probes in order; total is their sum; capacity is 4800 iff `cd_size == 80`, else 4440; remaining is capacity minus total; fits iff total <= capacity; remaining text is `0:00` when remaining <= 0; track count is the input length |
| DiscCapacity.ResolvedFailedPartition | Singe.py:190-203 | `track_durations` and `failed_files` merge back into the input in order, so together they have one entry per input file |
| DiscCapacity.FailedFileAddsNothing | Singe.py:193-202 | a file without duration, wherever it stands, changes neither the resolved list nor the total |
| DiscCapacity.ResolvedFileAdds | Singe.py:193-198 | a file with duration `d` adds exactly `d` to the total |
| NaturalSort.SplitDigitRuns | Singe.py:436 | `re.split(r'(\d+)', path)`: alternating digit-free pieces and maximal digit runs; its laws are the lemmas below |
| NaturalSort.NaturalSortKey | Singe.py:430-436 | `_natural_sort_key`: every digit run becomes its `int`, every other piece its lower-cased text |
| NaturalSort.KeyLe | Singe.py:418 | Python's `<=` on two keys: lexicographic list comparison, a shorter prefix first |
| NaturalSort.FolderOrder | Singe.py:418 | `audio_files.sort(key=self._natural_sort_key)`: the stable sort by the natural key |
| NaturalSort.SplitDigitRunsConcat | Singe.py:436 | the pieces of `re.split(r'(\d+)', path)` rebuild the path |
| NaturalSort.SplitDigitRunsMaximal | Singe.py:436 | inner text pieces are nonempty, so digit pieces are maximal runs; the first piece is empty iff the path starts with a digit |
| NaturalSort.AlternatingByPosition | Singe.py:436 | odd number of pieces; even positions hold no digit; odd positions are nonempty digit runs |
| NaturalSort.NaturalSortKeyShape | Singe.py:430-436 | the key has odd length; its even positions are digit-free text and its odd positions are numbers |
| NaturalSort.NaturalSortKeyPieces | Singe.py:435-436 | text pieces become their lower-cased text and digit runs their decimal values |
| NaturalSort.KeyLeIsTotalOrder | Singe.py:418 | the comparison of keys, as Python compares lists, is a total order |
| NaturalSort.NaturalKeysAligned | Singe.py:435-436 | two keys hold text or number at the same positions, so comparing them never mixes `int` and `str` |
| NaturalSort.FolderOrderSortedStable | Singe.py:418 | the sorted folder list is a permutation, non-decreasing in key, and stable |
| NaturalSort.NaturalOrderExample | Singe.py:431-434 | `1.wav` < `2.wav` < `10.wav` by key |
| NaturalSort.StringOrderExample | Singe.py:431-433 | plain text order puts `10.wav` before `2.wav` |
| NaturalSort.FolderOrderExample | Singe.py:418-433 | `10.wav, 2.wav, 1.wav` sort to `1.wav, 2.wav, 10.wav` |
| NaturalSort.NumberedNameKey | Singe.py:435-436 | a digit run followed by digit-free text gives the key `["", n, text]` |
| TrackOrder.TrackMatchAt | Singe.py:541 | `track[_\s]*(\d+)` with IGNORECASE matches at position `i`: `track` in any case, separators, then a digit |
| TrackOrder.TrackDigitsAt | Singe.py:541-543 | `match.group(1)` for a match at `i`: the whole digit run after the separators, nonempty, followed by no digit |
| TrackOrder.BurnOrder | Singe.py:550 | `sorted(audio_files, key=extract_track_number)` |
| TrackOrder.FindTrackMatch | Singe.py:541 | the first position at or after `from` where the `track` pattern matches, else none anywhere after it |
| TrackOrder.ExtractTrackNumberCases | Singe.py:540-547 | the leftmost `track` match decides; otherwise the leading digits of the base name; otherwise 999 |
| TrackOrder.ExtractTrackNumber | Singe.py:540-547 | the number is never negative |
| TrackOrder.BasenameNumber | Singe.py:544-546 | without a `track` word the base name's leading digit run is the number |
| TrackOrder.DirectoryTrackWordWins | Singe.py:541-543 | `track2/01.wav` is track 2: the search covers the directory part |
| TrackOrder.TrackWordAnyCase | Singe.py:541-543 | `TRACK_ 07.wav` is track 7: any case, mixed separators, leading zeros |
| TrackOrder.BurnOrderSortedStable | Singe.py:550 | the burn order is a permutation, non-decreasing in track number, and stable |
| Organizer.TrackNumber | Singe.py:750-757 | the tag parsed as the loop does: `int` of the part before the first `/` (raising when it is not a number), else `int(tag)`, else 999 |
| Organizer.EntryOf | Singe.py:746-763 | one round of the loop: the file, its parsed track number and its metadata, or a failure when the tag raises |
| Organizer.CollectAll | Singe.py:746-763 | the loop that appends one entry per file and stops at the first file whose tag raises |
| Organizer.Organized | Singe.py:742-775 | `organize_by_track_number`: the files stably sorted by track number, or the file it raises on |
| Organizer.ReadMetadata | Singe.py:725-740 | a failed probe gives the fallback dictionary with title, artist, album `Unknown` and track `0`; a successful one always carries a duration |
| Organizer.ReadMetadataDefaults | Singe.py:729-740 | without a track tag the track number is 0; every tag present is kept |
| Organizer.TrackNumberOfNumber | Singe.py:754-755 | a tag that is a written integer gives that integer |
| Organizer.TrackNumberOfFraction | Singe.py:751-752 | a tag `n/total` gives `n`, whatever the total |
| Organizer.TrackNumberFailures | Singe.py:751-757 | only a tag with `/` can fail; a slash-free non-number gives 999 |
| Organizer.SlashFormFails | Singe.py:751-752 | a tag whose part before the first `/` is not a number raises, whatever follows |
| Organizer.TrackNumberExamples | Singe.py:751-757 | `x/12` raises and `x` gives 999 |
| Organizer.OrganizeByTrackNumber | Singe.py:742-775 | the loop's result equals the specification `Organized` |
| Organizer.OrganizedFailure | Singe.py:746-757 | the call fails iff some file's tag fails to parse, and then on the first such file |
| Organizer.OrganizedSortedStable | Singe.py:746-775 | each entry keeps its file, metadata and parsed number; the output is a permutation of the input files, non-decreasing in track number, and stable |
| Organizer.AllUntaggedKeepOrder | Singe.py:733-740 | when no probe gives a track tag, every file is track 0 and the input order is kept |
| Organizer.AllProbesFailedOrder | test_singe.py:392-418 | with every probe failing, three files come out in input order |
| Organizer.CollectAllFailsIff | Singe.py:746-763 | the loop fails iff some element fails |
| Organizer.CollectAllSucceeds | Singe.py:746-763 | a loop that does not fail has one entry per input, in order |
| Organizer.OrganizeThree | Singe.py:766-775 | three files tagged `m`, `n`, `p` with `n < p < m` come out second, third, first |
| Organizer.OrganizeExample | test_singe.py:400-418 | tags 3, 1, 2 on song1, song2, song3 give song2, song3, song1 |
| CueToc.CueBlock | Singe.py:698-704 | the six lines written for file `i`: `FILE "<basename>" WAVE`, `  TRACK <i:02d> AUDIO`, `    TITLE "Track <i>"`, the fixed performer, `    INDEX 01 00:00:00`, a blank line |
| CueToc.CueSheet | Singe.py:692-704 | the text of the CUE sheet: its two header lines and a blank one, then one block per file, each line ended by a line feed |
| CueToc.TocBlock | Singe.py:636-639 | the four lines written for WAV file `i`: `// Track <i>`, `TRACK AUDIO`, `FILE "<path>" 0`, a blank line |
| CueToc.Toc | Singe.py:633-639 | the text of `audio.toc`: `CD_DA`, a blank line, then one block per WAV file |
| CueToc.CreateCueSheet | Singe.py:692-704 | the text the loop writes equals the specification `CueSheet` |
| CueToc.WriteCueBlock | Singe.py:698-704 | one iteration appends the six lines of the numbered block |
| CueToc.CueSheetLines | Singe.py:694-704 | read back by lines: the three header lines, then six lines per file in input order, block `i` being file `i+1`'s basename, `TRACK` with two digits, `TITLE "Track i+1"`, the fixed performer and index, a blank line |
| CueToc.WriteToc | Singe.py:633-639 | the text the loop writes equals the specification `Toc` |
| CueToc.TocLinesLayout | Singe.py:633-639 | read back by lines: `CD_DA`, a blank line, then `// Track i`, `TRACK AUDIO`, `FILE "<path>" 0` and a blank line per file in order |
| CueToc.BlocksLayout | Singe.py:698 | with blocks of `w` lines, block `i` sits at lines `w*i` to `w*i+w` and is file `i`'s block numbered `i+1` |
| CdTracks.ParseTrackLine | Singe.py:465-476 | `re.match(track_pattern, line)` against the pattern `TRACK_LINE`, and the dictionary of number, length and offset built from its three groups |
| CdTracks.AudioCdTracks | Singe.py:452-480 | `read_audio_cd_tracks`: no tracks without cdparanoia, else the parsed lines of its error stream sorted by number |
| CdTracks.MatchPrefix | Singe.py:465-468 | a match gives pieces that fit the pattern element by element and, followed by the rest, rebuild the line |
| CdTracks.MatchPrefixComplete | Singe.py:465-468 | for a pattern whose repetitions never give back characters, any fitting pieces followed by anything are matched piece for piece |
| CdTracks.TrackLineSeparated | Singe.py:465 | the cdparanoia pattern is such a pattern |
| CdTracks.ParseTrackLineSound | Singe.py:468-478 | a parsed track comes from a line prefix that fits the pattern, with its number, length and offset groups |
| CdTracks.ParseTrackLineComplete | Singe.py:468-478 | every line of the pattern's form is parsed to the track of its groups |
| CdTracks.NoNumberNoTrack | Singe.py:465-469 | a line with no digit after its leading whitespace gives no track |
| CdTracks.TotalLineIsNoTrack | Singe.py:465-469 | cdparanoia's `TOTAL` line gives no track |
| CdTracks.ReadAudioCdTracks | Singe.py:452-485 | the loop and sort equal the specification `AudioCdTracks`; no cdparanoia gives no tracks |
| CdTracks.AudioCdTracksSorted | Singe.py:480 | the result is a permutation of the parsed tracks, non-decreasing in number, and stable |
| CdTracks.AudioCdTracksMembers | Singe.py:467-478 | a track is in the result iff some line of the error stream parses to it |
| Playlist.PlaylistEntry | Singe.py:344-348 | a line stripped, and skipped when it is then empty or starts with `#` |
| Playlist.PlaylistFiles | Singe.py:343-366 | the files resolved from the entries, in playlist order, the resolution being a parameter |
| Playlist.ParsePlaylistLines | Singe.py:343-366 | the loop's result equals the specification `PlaylistFiles` |
| Playlist.EntriesMembers | Singe.py:343-348 | an entry is exactly a stripped line that is neither empty nor starts with `#` |
| Playlist.EntriesAreClean | Singe.py:344-348 | every entry is nonempty, no comment, and strip leaves it unchanged |
| Playlist.EntriesConcat | Singe.py:343-366 | the lines are handled one by one, so entries and files keep playlist order |
| Playlist.CommentSkipped | Singe.py:347-348 | a line starting with `#` is skipped whatever follows |
| Playlist.SkippedLinesChangeNothing | Singe.py:347-348 | inserting a blank or comment line anywhere changes no result |
| TextUtil.ParseInt | Singe.py:752-755 | Python's `int(str)` in base 10: surrounding whitespace, one optional sign, digits with single underscores between them; anything else raises |
| TextUtil.Strip | Singe.py:344 | `str.strip()`: the text without leading and trailing whitespace |
| TextUtil.Lower | Singe.py:435 | `str.lower()` on ASCII letters |
| TextUtil.SplitOn | Singe.py:466 | `str.split(sep)`: the pieces between separators, empty pieces included |
| TextUtil.Basename | Singe.py:699 | POSIX `os.path.basename`: the part after the last `/` |
| TextUtil.ParseIntRoundTrip | Singe.py:752-755 | `int(str(n)) == n` for the `int()` model (whitespace, one sign, underscores between digits) |
| TextUtil.SplitJoin | Singe.py:752 | `"sep".join(s.split(sep)) == s` |
| TextUtil.SplitUnlines | Singe.py:694-704 | text written as lines without line feeds splits back into those lines and a final empty one |
| TextUtil.StripShape | Singe.py:344 | `strip` leaves a slice of the line with only whitespace around it, starting and ending with no whitespace |
| TextUtil.StripIdempotent | Singe.py:344 | stripping twice is stripping once |
| TextUtil.BasenameIsLastComponent | Singe.py:699 | the base name is the suffix after the last `/`, and holds no `/` |
| TextUtil.NatToDecimal | Singe.py:702 | `str(n)` is a nonempty string of digits whose value is `n`, with no leading zero |
| TextUtil.ZeroPad2 | Singe.py:701 | `{:02d}` is at least two digits, exactly two below 100, with value `n` |
| StableSort.SortBy | Singe.py:550 | `sorted(xs, key=key)`: the tail sorted, then the head inserted before the first element whose key is not smaller, so equal keys keep their input order |
| StableSort.SortByPermutes | Singe.py:550 | `sorted` returns a permutation of its input |
| StableSort.SortBySorted | Singe.py:550 | under a total order the result's keys never decrease |
| StableSort.SortByStable | Singe.py:550 | elements with equal keys keep their order |
| StableSort.SortThreeReversed | Singe.py:550 | three elements whose keys strictly decrease come out reversed |
| Results.FilterMapMembers | Singe.py:467-478 | a value is kept iff some element gives it |
| Results.FilterMapConcat | Singe.py:343-366 | the filter works element by element and keeps input order |

## Findings

| source | as written | input that shows it | evidently intended | confidence | as-written member | corrected member |
|---|---|---|---|---|---|---|
| test_singe.py:392-418 | the test replaces `organizer.writer.extract_metadata`, which `organize_by_track_number` never calls; with `subprocess.run` mocked to return empty output, `json.loads` raises, `read_metadata` falls back to track `0` for every file, and the stable sort keeps the input order song1, song2, song3 | files song1, song2, song3 with every probe failing | the tags 3, 1, 2 are read, giving song2, song3, song1 | high, not executed | Organizer.AllProbesFailedOrder | Organizer.OrganizeExample |

## Left out

- Every subprocess call is a parameter or left out. This covers the ffprobe duration and tag probes, cdparanoia, wodim, cdrdao, ffmpeg, sox and ffplay. The probed values and cdparanoia's error stream are inputs (`DurationProbe`, `ProbeResult`, `Option<string>`).
- File I/O is not modelled: file writes, `tempfile`, directories, `glob`, `Path.resolve` and `exists`. The CUE and TOC methods return the text they would write.
- The folder scan's extension filter and glob are left out. `FolderOrder` models only its sort.
- Playlist handling is partly left out:
  - the playlist's existence and suffix checks;
  - its decoding (UTF-8, then latin-1, then cp1252);
  - `readlines`;
  - the resolution of each entry to an existing audio file, which is the `resolve` parameter of `ParsePlaylistLines`.
- `percent_used` is left out: it is float output only.
- Printing is left out: the capacity summary with its progress bar, and the per-track lines.
- The dry-run printout of the TOC is left out, as are the interactive menus, `main` and `HelpSystem`.
- Float behaviour is not modelled. Durations are exact `real`s; no IEEE rounding is modelled.
- `timedelta`'s range limits are not modelled.
- Characters are ASCII only. Python's Unicode `\s`, `\d`, `isdigit`, `lower` and `int()` digits are modelled on ASCII: `\s` as tab to carriage return, 28-31 and space.
- Exceptions the code does not catch (a failed `int()` in `organize_by_track_number`) become a `Failure`, not a raised error.
- JSON is not parsed. `json.loads` and the `format` section lookup are folded into `ProbeResult`.
- A field in JSON that is not a string is also not modelled.
- CdTracks.ParseTrackLine: the regular expression is modelled for this one pattern through a greedy matcher proved exact for patterns whose repetitions never give back characters. It is not a general regular-expression engine.
- CueToc.CueSheetLines and CueToc.TocLinesLayout: the line-by-line reading requires file names without a line feed. Names that do would split into more lines.
- The classes and functions that test_singe.py imports but `Singe.py` does not define are not modelled: `ProgressBar`, `BurnJob`, `BatchBurnQueue`, checksums and `check_disc_status`.
