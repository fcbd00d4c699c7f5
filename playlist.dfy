/** The line loop of `AudioCDWriter.parse_m3u_playlist` (Singe.py): every
    line of the playlist is stripped, blank lines and `#` comments (the
    `#EXTM3U` header, `#EXTINF` records) are skipped, and each remaining
    entry is resolved to a file. What resolving does on the file system
    (joining a relative entry to the playlist's directory, `Path.resolve`,
    the existence and extension checks) is the parameter `resolve`, which
    gives the path to append or None for an entry that is skipped. */
module Playlist {
  import opened Results
  import opened TextUtil

  /** The entry a line names, or None for a blank line or a comment. */
  function PlaylistEntry(line: string): Option<string> {
    var entry := Strip(line);
    if entry == [] || entry[0] == '#' then None else Some(entry)
  }

  /** The entries of the playlist's lines, in playlist order. */
  function Entries(content: seq<string>): seq<string> { FilterMap(content, PlaylistEntry) }

  /** The files `parse_m3u_playlist` returns for the lines of a playlist it
      could read. */
  function PlaylistFiles(content: seq<string>, resolve: string -> Option<string>): seq<string> {
    FilterMap(Entries(content), resolve)
  }

  method ParsePlaylistLines(content: seq<string>, resolve: string -> Option<string>) returns (audioFiles: seq<string>)
    ensures audioFiles == PlaylistFiles(content, resolve)
  {
    audioFiles := [];
    var i := 0;
    while i < |content|
      invariant 0 <= i <= |content|
      invariant audioFiles == FilterMap(Entries(content[..i]), resolve)
    {
      ghost var before := Entries(content[..i]);
      assert content[..i + 1] == content[..i] + [content[i]];
      FilterMapConcat(content[..i], [content[i]], PlaylistEntry);
      assert [content[i]][..0] == [];
      var line := Strip(content[i]);
      if line == [] || line[0] == '#' {
        assert Entries(content[..i + 1]) == before + [];
        assert before + [] == before;
      } else {
        assert Entries(content[..i + 1]) == before + [line];
        FilterMapConcat(before, [line], resolve);
        assert [line][..0] == [];
        match resolve(line) {
          case Some(path) =>
            assert FilterMap([line], resolve) == [path];
            audioFiles := audioFiles + [path];
          case None =>
            assert FilterMap([line], resolve) == [];
            assert audioFiles + [] == audioFiles;
        }
      }
      i := i + 1;
    }
    assert content[..i] == content;
  }

  /** A string is an entry exactly when it is a stripped line of the playlist
      that is neither empty nor a comment. */
  lemma EntriesMembers(content: seq<string>, e: string)
    ensures e in Entries(content) <==>
      e != [] && e[0] != '#' && exists k :: 0 <= k < |content| && Strip(content[k]) == e
  {
    FilterMapMembers(content, PlaylistEntry, e);
  }

  /** Every entry is nonempty, no comment, and has no whitespace left to strip. */
  lemma EntriesAreClean(content: seq<string>)
    ensures forall e :: e in Entries(content) ==> e != [] && e[0] != '#' && Strip(e) == e
  {
    forall e | e in Entries(content) ensures e != [] && e[0] != '#' && Strip(e) == e {
      EntriesMembers(content, e);
      var k :| 0 <= k < |content| && Strip(content[k]) == e;
      StripIdempotent(content[k]);
      StripShape(content[k]);
    }
  }

  /** The playlist is read line by line: the entries of two runs of lines are
      the entries of each, in order, so the files keep playlist order. */
  lemma EntriesConcat(a: seq<string>, b: seq<string>, resolve: string -> Option<string>)
    ensures Entries(a + b) == Entries(a) + Entries(b)
    ensures PlaylistFiles(a + b, resolve) == PlaylistFiles(a, resolve) + PlaylistFiles(b, resolve)
  {
    FilterMapConcat(a, b, PlaylistEntry);
    FilterMapConcat(Entries(a), Entries(b), resolve);
  }

  /** A line starting with `#` is a comment, whatever follows. */
  lemma {:induction false} CommentSkipped(text: string)
    ensures PlaylistEntry("#" + text) == None
  {
    var line := "#" + text;
    assert line[0] == '#' && !IsSpace(line[0]);
    assert Span(line, Space) == 0;
    assert line[0..] == line;
    var n := TrailingSpaces(line);
    assert n < |line|;
    var r := line[..|line| - n];
    assert Strip(line) == r;
    assert r[0] == '#';
  }

  /** Adding blank lines or comments anywhere changes no result. */
  lemma {:induction false} SkippedLinesChangeNothing(a: seq<string>, line: string, b: seq<string>, resolve: string -> Option<string>)
    requires PlaylistEntry(line) == None
    ensures PlaylistFiles(a + [line] + b, resolve) == PlaylistFiles(a + b, resolve)
  {
    var al := a + [line];
    FilterMapStep(al, |a|, PlaylistEntry);
    assert al[..|a| + 1] == al && al[..|a|] == a && al[|a|] == line;
    assert Entries(al) == Entries(a);
    FilterMapConcat(al, b, PlaylistEntry);
    FilterMapConcat(a, b, PlaylistEntry);
    assert Entries(al + b) == Entries(a + b);
  }
}
