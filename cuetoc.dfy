/** The two text files Singe.py writes for a burn: the CUE sheet of
    `AudioCDWriter.create_cue_sheet` and the cdrdao TOC file built in
    `burn_audio_cd`. Both are modelled as the text that would be written,
    line by line. */
module CueToc {
  import opened TextUtil

  /** The lines of `block(1, xs[0])`, then of `block(2, xs[1])`, and so on:
      what a loop over `enumerate(xs, 1)` writes. */
  function Blocks<T>(xs: seq<T>, block: (nat, T) -> seq<string>): seq<string> {
    if xs == [] then [] else Blocks(xs[..|xs| - 1], block) + block(|xs|, xs[|xs| - 1])
  }

  lemma {:induction false} BlocksLength<T>(xs: seq<T>, block: (nat, T) -> seq<string>, w: nat)
    requires forall i: nat, x: T :: |block(i, x)| == w
    ensures |Blocks(xs, block)| == w * |xs|
  {
    if xs != [] {
      BlocksLength(xs[..|xs| - 1], block, w);
      assert w * |xs| == w * (|xs| - 1) + w;
    }
  }

  /** Block `i` (from 0) of fixed-size blocks sits at lines `w*i` to `w*i + w`. */
  lemma {:induction false} BlockAt<T>(xs: seq<T>, block: (nat, T) -> seq<string>, w: nat, i: nat)
    requires forall i: nat, x: T :: |block(i, x)| == w
    requires i < |xs|
    ensures w * i + w <= |Blocks(xs, block)| && Blocks(xs, block)[w * i..w * i + w] == block(i + 1, xs[i])
  {
    var init := xs[..|xs| - 1];
    var a := Blocks(init, block);
    var b := block(|xs|, xs[|xs| - 1]);
    BlocksLength(init, block, w);
    BlocksLength(xs, block, w);
    if i < |init| {
      BlockAt(init, block, w, i);
      assert init[i] == xs[i];
      SliceOfConcat(a, b, w * i, w * i + w);
    } else {
      assert i == |init| && w * i == |a|;
      SliceOfConcat(a, b, w * i, w * i + w);
      assert b[..] == b;
    }
  }

  /** With blocks of `w` lines each, block `i` (from 0) sits at lines `w*i` up
      to `w*i + w` and is the block of `xs[i]` numbered `i + 1`. */
  lemma {:induction false} BlocksLayout<T>(xs: seq<T>, block: (nat, T) -> seq<string>, w: nat)
    requires forall i: nat, x: T :: |block(i, x)| == w
    ensures |Blocks(xs, block)| == w * |xs|
    ensures forall i :: 0 <= i < |xs| ==> w * i + w <= |Blocks(xs, block)| && Blocks(xs, block)[w * i..w * i + w] == block(i + 1, xs[i])
  {
    BlocksLength(xs, block, w);
    forall i | 0 <= i < |xs| ensures w * i + w <= |Blocks(xs, block)| && Blocks(xs, block)[w * i..w * i + w] == block(i + 1, xs[i]) {
      BlockAt(xs, block, w, i);
    }
  }

  /** No line holds the character `c`. */
  predicate LinesWithout(lines: seq<string>, c: char) {
    forall k :: 0 <= k < |lines| ==> c !in lines[k]
  }

  /** No line of the blocks holds `c` when no line of any one block does. */
  lemma {:induction false} BlocksKeepOut<T>(xs: seq<T>, block: (nat, T) -> seq<string>, c: char)
    requires forall j :: 0 <= j < |xs| ==> LinesWithout(block(j + 1, xs[j]), c)
    ensures LinesWithout(Blocks(xs, block), c)
  {
    if xs != [] {
      var init := xs[..|xs| - 1];
      forall j | 0 <= j < |init| ensures LinesWithout(block(j + 1, init[j]), c) {
        assert init[j] == xs[j];
      }
      BlocksKeepOut(init, block, c);
      var a := Blocks(init, block);
      var b := block(|xs|, xs[|xs| - 1]);
      assert LinesWithout(b, c);
      forall k | 0 <= k < |a + b| ensures c !in (a + b)[k] {
        if k < |a| { assert (a + b)[k] == a[k]; } else { assert (a + b)[k] == b[k - |a|]; }
      }
    }
  }

  /** A header followed by blocks keeps `c` out when each part does. */
  lemma {:induction false} HeaderBlocksKeepOut<T>(header: seq<string>, xs: seq<T>, block: (nat, T) -> seq<string>, c: char)
    requires LinesWithout(header, c)
    requires forall j :: 0 <= j < |xs| ==> LinesWithout(block(j + 1, xs[j]), c)
    ensures LinesWithout(header + Blocks(xs, block), c)
  {
    var blocks := Blocks(xs, block);
    BlocksKeepOut(xs, block, c);
    forall k | 0 <= k < |header + blocks| ensures c !in (header + blocks)[k] {
      if k >= |header| { assert (header + blocks)[k] == blocks[k - |header|]; }
    }
  }

  /** After a header, block `i` (from 0) of fixed-size blocks, followed by
      anything, sits `w*i` lines past the header, at line `at`. */
  lemma {:induction false} HeaderBlockAt<T>(header: seq<string>, xs: seq<T>, block: (nat, T) -> seq<string>, w: nat, tail: seq<string>, i: nat, at: nat)
    requires forall i: nat, x: T :: |block(i, x)| == w
    requires i < |xs| && at == |header| + w * i
    ensures var lines := header + Blocks(xs, block) + tail;
      at + w <= |lines| && lines[at..at + w] == block(i + 1, xs[i])
  {
    var blocks := Blocks(xs, block);
    BlockAt(xs, block, w, i);
    SliceOfConcat(header + blocks, tail, at, at + w);
    SliceOfConcat(header, blocks, at, at + w);
  }

  /** One `f.write` of a line and its line feed. */
  method WriteLine(text: string, ghost lines: seq<string>, line: string) returns (text': string, ghost lines': seq<string>)
    requires text == Unlines(lines)
    ensures lines' == lines + [line]
    ensures text' == text + line + "\n" && text' == Unlines(lines')
  {
    UnlinesSnoc(lines, line);
    text', lines' := text + line + "\n", lines + [line];
  }

  lemma {:induction false} AppendSix<T>(s: seq<T>, a: T, b: T, c: T, d: T, e: T, f: T)
    ensures s + [a] + [b] + [c] + [d] + [e] + [f] == s + [a, b, c, d, e, f]
  {
  }

  lemma {:induction false} AppendFour<T>(s: seq<T>, a: T, b: T, c: T, d: T)
    ensures s + [a] + [b] + [c] + [d] == s + [a, b, c, d]
  {
  }

  /** A slice within the front part of a concatenation, or within its back part. */
  lemma {:induction false} SliceOfConcat<T>(a: seq<T>, b: seq<T>, x: nat, y: nat)
    requires x <= y <= |a + b|
    ensures y <= |a| ==> (a + b)[x..y] == a[x..y]
    ensures |a| <= x ==> (a + b)[x..y] == b[x - |a|..y - |a|]
  {
  }

  /** One more round of the loop adds the next block. */
  lemma {:induction false} BlocksExtend<T>(header: seq<string>, xs: seq<T>, i: nat, block: (nat, T) -> seq<string>)
    requires i < |xs|
    ensures header + Blocks(xs[..i], block) + block(i + 1, xs[i]) == header + Blocks(xs[..i + 1], block)
  {
    assert xs[..i + 1][..i] == xs[..i];
  }

  const CUE_HEADER: seq<string> := ["TITLE \"Audio CD\"", "PERFORMER \"Various Artists\"", ""]

  /** The six lines written for the `i`-th file (counting from 1): its base
      name, the number with two digits, the number as it is. */
  function CueBlock(i: nat, file: string): (block: seq<string>)
    ensures |block| == 6
  {
    [ "FILE \"" + Basename(file) + "\" WAVE",
      "  TRACK " + ZeroPad2(i) + " AUDIO",
      "    TITLE \"Track " + NatToDecimal(i) + "\"",
      "    PERFORMER \"Unknown Artist\"",
      "    INDEX 01 00:00:00",
      "" ]
  }

  function CueLines(files: seq<string>): seq<string> { CUE_HEADER + Blocks(files, CueBlock) }

  /** The text `create_cue_sheet` writes to its output file. */
  function CueSheet(files: seq<string>): string { Unlines(CueLines(files)) }

  /** `create_cue_sheet` with the file's text as its result; each `f.write`
      appends lines, a blank line being an empty line. */
  method CreateCueSheet(files: seq<string>) returns (text: string)
    ensures text == CueSheet(files)
  {
    ghost var lines;
    text, lines := WriteCueHeader();
    assert files[..0] == [];
    var i := 0;
    while i < |files|
      invariant 0 <= i <= |files|
      invariant lines == CUE_HEADER + Blocks(files[..i], CueBlock)
      invariant text == Unlines(lines)
    {
      text, lines := WriteCueBlock(text, lines, i + 1, files[i]);
      BlocksExtend(CUE_HEADER, files, i, CueBlock);
      i := i + 1;
    }
    assert files[..i] == files;
  }

  /** The first two writes of `create_cue_sheet`. */
  method WriteCueHeader() returns (text: string, ghost lines: seq<string>)
    ensures text == Unlines(CUE_HEADER)
    ensures lines == CUE_HEADER && text == Unlines(lines)
  {
    lines := [];
    text := "";
    assert text == Unlines(lines);
    text, lines := WriteLine(text, lines, "TITLE \"Audio CD\"");
    text, lines := WriteLine(text, lines, "PERFORMER \"Various Artists\"");
    text, lines := WriteLine(text, lines, "");
  }

  /** The body of the loop of `create_cue_sheet` for `(i, wav_file)`. */
  method WriteCueBlock(text: string, ghost lines: seq<string>, i: nat, wavFile: string) returns (text': string, ghost lines': seq<string>)
    requires text == Unlines(lines)
    ensures text' == text + Unlines(CueBlock(i, wavFile))
    ensures lines' == lines + CueBlock(i, wavFile)
    ensures text' == Unlines(lines')
  {
    var filename := Basename(wavFile);
    text', lines' := WriteLine(text, lines, "FILE \"" + filename + "\" WAVE");
    text', lines' := WriteLine(text', lines', "  TRACK " + ZeroPad2(i) + " AUDIO");
    text', lines' := WriteLine(text', lines', "    TITLE \"Track " + NatToDecimal(i) + "\"");
    text', lines' := WriteLine(text', lines', "    PERFORMER \"Unknown Artist\"");
    text', lines' := WriteLine(text', lines', "    INDEX 01 00:00:00");
    text', lines' := WriteLine(text', lines', "");
    AppendSix(lines, "FILE \"" + filename + "\" WAVE", "  TRACK " + ZeroPad2(i) + " AUDIO",
      "    TITLE \"Track " + NatToDecimal(i) + "\"", "    PERFORMER \"Unknown Artist\"", "    INDEX 01 00:00:00", "");
    UnlinesConcat(lines, CueBlock(i, wavFile));
  }

  lemma {:induction false} NoLineFeedInDigits(s: string)
    requires AllIn(s, Digit)
    ensures '\n' !in s
  {
  }

  lemma {:induction false} KeepsOutOfJoin(a: string, x: string, b: string, c: char)
    requires c !in a && c !in x && c !in b
    ensures c !in a + x + b
  {
  }

  lemma {:induction false} CueBlockKeepsOutLineFeeds(i: nat, file: string)
    requires '\n' !in file
    ensures LinesWithout(CueBlock(i, file), '\n')
  {
    BasenameKeepsOut(file, '\n');
    KeepsOutOfJoin("FILE \"", Basename(file), "\" WAVE", '\n');
    NoLineFeedInDigits(ZeroPad2(i));
    KeepsOutOfJoin("  TRACK ", ZeroPad2(i), " AUDIO", '\n');
    NoLineFeedInDigits(NatToDecimal(i));
    KeepsOutOfJoin("    TITLE \"Track ", NatToDecimal(i), "\"", '\n');
  }

  /** The sheet read back line by line: the three header lines, then six lines
      per file in input order, those of the `i`-th (from 0) being
      `CueBlock(i + 1, files[i])`; the text ends with a line feed. File names
      are required to hold no line feed. */
  lemma {:induction false} CueLinesWithoutLineFeed(files: seq<string>)
    requires forall i :: 0 <= i < |files| ==> '\n' !in files[i]
    ensures LinesWithout(CueLines(files), '\n')
  {
    forall j | 0 <= j < |files| ensures LinesWithout(CueBlock(j + 1, files[j]), '\n') {
      CueBlockKeepsOutLineFeeds(j + 1, files[j]);
    }
    HeaderBlocksKeepOut(CUE_HEADER, files, CueBlock, '\n');
  }

  /** The sheet read back line by line: the three header lines, then six lines
      per file in input order, those of the `i`-th (from 0) being
      `CueBlock(i + 1, files[i])`; the text ends with a line feed. File names
      are required to hold no line feed. */
  lemma {:induction false} CueSheetLines(files: seq<string>)
    requires forall i :: 0 <= i < |files| ==> '\n' !in files[i]
    ensures var lines := SplitOn(CueSheet(files), '\n');
      && |lines| == 3 + 6 * |files| + 1
      && lines[..3] == CUE_HEADER
      && lines[|lines| - 1] == ""
      && forall i :: 0 <= i < |files| ==> lines[3 + 6 * i..9 + 6 * i] == CueBlock(i + 1, files[i])
  {
    CueLinesWithoutLineFeed(files);
    SplitUnlines(CueLines(files));
    BlocksLength(files, CueBlock, 6);
    var lines := CUE_HEADER + Blocks(files, CueBlock) + [[]];
    assert lines[..3] == CUE_HEADER;
    forall i | 0 <= i < |files| ensures lines[3 + 6 * i..9 + 6 * i] == CueBlock(i + 1, files[i]) {
      CueSheetBlock(files, i);
    }
  }

  lemma {:induction false} CueSheetBlock(files: seq<string>, i: nat)
    requires forall i :: 0 <= i < |files| ==> '\n' !in files[i]
    requires i < |files|
    ensures var lines := CUE_HEADER + Blocks(files, CueBlock) + [[]];
      9 + 6 * i <= |lines| && lines[3 + 6 * i..9 + 6 * i] == CueBlock(i + 1, files[i])
  {
    HeaderBlockAt(CUE_HEADER, files, CueBlock, 6, [[]], i, 3 + 6 * i);
  }

  const TOC_HEADER: seq<string> := ["CD_DA", ""]

  /** The four lines written for the `i`-th WAV file (counting from 1): the path
      goes in as it is. */
  function TocBlock(i: nat, wavFile: string): (block: seq<string>)
    ensures |block| == 4
  {
    [ "// Track " + NatToDecimal(i), "TRACK AUDIO", "FILE \"" + wavFile + "\" 0", "" ]
  }

  function TocLines(wavFiles: seq<string>): seq<string> { TOC_HEADER + Blocks(wavFiles, TocBlock) }

  /** The text `burn_audio_cd` writes to `audio.toc`. */
  function Toc(wavFiles: seq<string>): string { Unlines(TocLines(wavFiles)) }

  /** The TOC writing of `burn_audio_cd`, with the file's text as its result. */
  method WriteToc(wavFiles: seq<string>) returns (text: string)
    ensures text == Toc(wavFiles)
  {
    ghost var lines;
    text, lines := WriteTocHeader();
    assert wavFiles[..0] == [];
    var i := 0;
    while i < |wavFiles|
      invariant 0 <= i <= |wavFiles|
      invariant lines == TOC_HEADER + Blocks(wavFiles[..i], TocBlock)
      invariant text == Unlines(lines)
    {
      text, lines := WriteTocBlock(text, lines, i + 1, wavFiles[i]);
      BlocksExtend(TOC_HEADER, wavFiles, i, TocBlock);
      i := i + 1;
    }
    assert wavFiles[..i] == wavFiles;
  }

  /** The first write of the TOC file: `CD_DA` and a blank line. */
  method WriteTocHeader() returns (text: string, ghost lines: seq<string>)
    ensures text == Unlines(TOC_HEADER)
    ensures lines == TOC_HEADER && text == Unlines(lines)
  {
    lines := [];
    text := "";
    assert text == Unlines(lines);
    text, lines := WriteLine(text, lines, "CD_DA");
    text, lines := WriteLine(text, lines, "");
  }

  /** The body of the TOC loop for `(i, wav_file)`. */
  method WriteTocBlock(text: string, ghost lines: seq<string>, i: nat, wavFile: string) returns (text': string, ghost lines': seq<string>)
    requires text == Unlines(lines)
    ensures text' == text + Unlines(TocBlock(i, wavFile))
    ensures lines' == lines + TocBlock(i, wavFile)
    ensures text' == Unlines(lines')
  {
    text', lines' := WriteLine(text, lines, "// Track " + NatToDecimal(i));
    text', lines' := WriteLine(text', lines', "TRACK AUDIO");
    text', lines' := WriteLine(text', lines', "FILE \"" + wavFile + "\" 0");
    text', lines' := WriteLine(text', lines', "");
    AppendFour(lines, "// Track " + NatToDecimal(i), "TRACK AUDIO", "FILE \"" + wavFile + "\" 0", "");
    UnlinesConcat(lines, TocBlock(i, wavFile));
  }

  lemma {:induction false} TocBlockKeepsOutLineFeeds(i: nat, wavFile: string)
    requires '\n' !in wavFile
    ensures LinesWithout(TocBlock(i, wavFile), '\n')
  {
    var b := TocBlock(i, wavFile);
    NoLineFeedInDigits(NatToDecimal(i));
    assert '\n' !in b[0];
    assert '\n' !in b[2];
  }

  /** The TOC read back line by line: `CD_DA` and a blank line, then four lines
      per file in order, those of the `i`-th (from 0) being `// Track i+1`,
      `TRACK AUDIO`, `FILE "<full path>" 0` and a blank line. Paths are
      required to hold no line feed. */
  lemma {:induction false} TocLinesLayout(wavFiles: seq<string>)
    requires forall i :: 0 <= i < |wavFiles| ==> '\n' !in wavFiles[i]
    ensures var lines := SplitOn(Toc(wavFiles), '\n');
      && |lines| == 2 + 4 * |wavFiles| + 1
      && lines[..2] == TOC_HEADER
      && lines[|lines| - 1] == ""
      && forall i :: 0 <= i < |wavFiles| ==> lines[2 + 4 * i..6 + 4 * i] == TocBlock(i + 1, wavFiles[i])
  {
    TocLinesWithoutLineFeed(wavFiles);
    SplitUnlines(TocLines(wavFiles));
    BlocksLength(wavFiles, TocBlock, 4);
    var lines := TOC_HEADER + Blocks(wavFiles, TocBlock) + [[]];
    assert lines[..2] == TOC_HEADER;
    forall i | 0 <= i < |wavFiles| ensures lines[2 + 4 * i..6 + 4 * i] == TocBlock(i + 1, wavFiles[i]) {
      TocSheetBlock(wavFiles, i);
    }
  }

  lemma {:induction false} TocLinesWithoutLineFeed(wavFiles: seq<string>)
    requires forall i :: 0 <= i < |wavFiles| ==> '\n' !in wavFiles[i]
    ensures LinesWithout(TocLines(wavFiles), '\n')
  {
    forall j | 0 <= j < |wavFiles| ensures LinesWithout(TocBlock(j + 1, wavFiles[j]), '\n') {
      TocBlockKeepsOutLineFeeds(j + 1, wavFiles[j]);
    }
    HeaderBlocksKeepOut(TOC_HEADER, wavFiles, TocBlock, '\n');
  }

  lemma {:induction false} TocSheetBlock(wavFiles: seq<string>, i: nat)
    requires i < |wavFiles|
    ensures var lines := TOC_HEADER + Blocks(wavFiles, TocBlock) + [[]];
      6 + 4 * i <= |lines| && lines[2 + 4 * i..6 + 4 * i] == TocBlock(i + 1, wavFiles[i])
  {
    HeaderBlockAt(TOC_HEADER, wavFiles, TocBlock, 4, [[]], i, 2 + 4 * i);
  }
}
