/** What the decoder promises: the same blocks however the text is cut into chunks, exactly the messages a
    line-by-line reading of the text gives, and the inverse of printing. */
module StreamTheorems {
  import opened Text
  import opened EventStream

  // ---------------------------------------------------------------- chunking

  /** Draining takes a prefix that is empty or ends in a blank line; what is left holds no blank line. */
  lemma {:induction false} DrainTakes(buffer: string) returns (taken: string)
    ensures buffer == taken + Drain(buffer).rest
    ensures NoBlank(Drain(buffer).rest)
    ensures taken == "" || Terminated(taken)
    decreases |buffer|
  {
    if IndexOfBlank(buffer) < 0 {
      taken := "";
    } else {
      hide IndexOfBlank, FirstBlank, Drain, Terminated;
      var block, later := FirstBlock(buffer);
      var taken' := DrainTakes(later);
      Assoc(block + "\n\n", taken', Drain(later).rest);
      TerminatedAfter(block, taken');
      taken := block + "\n\n" + taken';
    }
  }

  /** What follows the first blank line does not move it. */
  lemma LeftmostStays(block: string, later: string, other: string)
    requires IndexOfBlank(block + "\n\n" + later) == |block|
    ensures IndexOfBlank(block + "\n\n" + other) == |block|
    ensures Drain(block + "\n\n" + other) == Drained([block] + Drain(other).blocks, Drain(other).rest)
  {
    var s, t := block + "\n\n" + later, block + "\n\n" + other;
    assert BlankAt(t, |block|);
    forall j | j < |block| ensures !BlankAt(t, j) { assert !BlankAt(s, j); }
    IndexOfBlankUnique(t, |block|);
    assert t[..|block|] == block && t[|block| + 2..] == other;
  }

  /** The taken prefix is drained the same way whatever follows it. */
  lemma {:induction false} DrainSwap(buffer: string, taken: string, next: string)
    requires buffer == taken + Drain(buffer).rest
    ensures Drain(taken + next) == Drained(Drain(buffer).blocks + Drain(next).blocks, Drain(next).rest)
    decreases |buffer|
  {
    if IndexOfBlank(buffer) < 0 {
      assert taken + next == next;
    } else {
      hide IndexOfBlank, FirstBlank, Drain;
      var block, later := FirstBlock(buffer);
      var taken' := DrainTakes(later);
      var d, e := Drain(later), Drain(next);
      var head := block + "\n\n";
      Assoc(head, taken', d.rest);
      AppendCancels(taken, head + taken', d.rest);
      DrainSwap(later, taken', next);
      LeftmostStays(block, later, taken' + next);
      Assoc(head, taken', next);
      Assoc([block], d.blocks, e.blocks);
    }
  }

  lemma EmptyText()
    ensures Fold("") == "" && Drain("") == Drained([], "")
  {
  }

  /** Incremental reading agrees with folding and draining the whole text once. */
  lemma {:induction false} ReadIsDrain(chunks: seq<string>)
    requires NoCrCrlf(Concat(chunks))
    ensures Read(chunks) == Drain(Fold(Concat(chunks)))
  {
    hide Fold, Drain, IndexOfBlank, BlankFrom;
    if chunks == [] {
      assert Fold("") == "" && Drain("") == Drained([], "") by { EmptyText(); }
    } else {
      var init, c := chunks[..|chunks| - 1], chunks[|chunks| - 1];
      var p := Concat(init);
      Prefix(p, c);
      ReadIsDrain(init);
      var folded := Fold(p);
      var r := Drain(folded).rest;
      var taken := DrainTakes(folded);
      FoldRemovesCrlf(p);
      PrefixKeepsNoCrlf(taken, r);
      FoldClean(taken);
      FoldResume(p, c);
      assert folded + c == taken + (r + c);
      FoldConcat(taken, r + c);
      DrainSwap(folded, taken, Fold(r + c));
    }
  }

  /** Chunking invariance: any two ways of cutting one text, empty chunks and cuts between CR and LF
      included, deliver the same messages. */
  lemma ChunkingInvariance(chunks: seq<string>, others: seq<string>)
    requires Concat(chunks) == Concat(others) && NoCrCrlf(Concat(chunks))
    ensures Read(chunks) == Read(others) && Decode(chunks) == Decode(others)
  {
    ReadIsDrain(chunks);
    ReadIsDrain(others);
  }

  /** The condition cannot be dropped: one cut of this text delivers a carriage return the other does not. */
  lemma CrCrlfBreaksInvariance()
    ensures var whole, cut := ["data: a\r\r\n\n"], ["data: a\r\r\n", "\n"];
      && Concat(whole) == Concat(cut)
      && Decode(whole) == [Message("message", "a\r")]
      && Decode(cut) == [Message("message", "a")]
  {
    hide Concat, Read, ReadBlock, ReadBlocks;
    var l := "data: a";
    assert l + "\r\r\n\n" == "data: a\r\r\n\n" && l + "\r\r\n" == "data: a\r\r\n" && l + "\r" == "data: a\r";
    BlocksOfWitness(l);
    CutTwice(l + "\r\r\n", "\n");
    assert (l + "\r\r\n") + "\n" == l + "\r\r\n\n";
    OneOf(l);
    OneOf(l + "\r");
    DataBlock(l, "a");
    DataBlock(l + "\r", "a\r");
  }

  lemma BlocksOfWitness(l: string)
    requires '\n' !in l && '\r' !in l
    ensures Read([l + "\r\r\n\n"]).blocks == [l + "\r"]
    ensures Read([l + "\r\r\n", "\n"]).blocks == [l]
  {
    hide Fold, Drain, Read, IndexOfBlank, NoCrlf;
    var x, lr := l + "\r\r\n", l + "\r";
    assert NoCrlf(lr) && NoCrlf(l) by { LineHasNoCrlf(l); }
    FoldLine(lr);
    FoldLine(l);
    assert x == lr + "\r\n" && lr + "\n" == l + "\r\n";
    assert x + "\n" == l + "\r\r\n\n" && lr + "\n" + "\n" == lr + "\n\n" && l + "\n" + "\n" == l + "\n\n";
    FoldConcat(x, "\n");
    ReadOne(x + "\n");
    OneBlock(lr);
    OpenLine(lr);
    ReadTwo(x, "\n");
    FoldConcat(l + "\r\n", "\n");
    OneBlock(l);
    assert [] + [l] == [l];
  }

  lemma LineHasNoCrlf(l: string)
    requires '\n' !in l
    ensures NoCrlf(l) && NoCrlf(l + "\r")
  {
  }

  lemma OneOf(block: string)
    ensures ReadBlocks([block]) == ReadBlock(block)
  {
  }

  lemma CutTwice(x: string, y: string)
    ensures Concat([x + y]) == x + y && Concat([x, y]) == x + y
  {
  }

  lemma ReadOne(x: string)
    ensures Read([x]) == Drain(Fold(x))
  {
    hide Fold, Drain;
    assert [x][..0] == [] && "" + x == x;
    assert [] + Drain(Fold(x)).blocks == Drain(Fold(x)).blocks;
  }

  lemma ReadTwo(x: string, y: string)
    ensures var d := Drain(Fold(x)); var e := Drain(Fold(d.rest + y));
      Read([x, y]) == Drained(d.blocks + e.blocks, e.rest)
  {
    hide Fold, Drain;
    assert [x, y][..1] == [x];
    ReadOne(x);
  }

  lemma FoldLine(line: string)
    requires NoCrlf(line)
    ensures Fold(line + "\r\n") == line + "\n" && Fold("\n") == "\n"
  {
    FoldConcat(line, "\r\n");
    FoldClean(line);
    assert "\r\n"[2..] == "";
  }

  lemma OpenLine(line: string)
    requires '\n' !in line
    ensures Drain(line + "\n") == Drained([], line + "\n")
  {
  }

  lemma OneBlock(block: string)
    requires '\n' !in block
    ensures Drain(block + "\n\n") == Drained([block], "")
  {
    var t := block + "\n\n";
    assert BlankAt(t, |block|);
    forall j | j < |block| ensures !BlankAt(t, j) { if 0 <= j { assert t[j] == block[j]; } }
    IndexOfBlankUnique(t, |block|);
    assert t + "" == t;
    LeftmostStays(block, "", "");
    hide IndexOfBlank, FirstBlank, Drain;
    assert Drain("") == Drained([], "") by { EmptyText(); }
    assert [block] + [] == [block];
  }

  lemma DataLine(line: string, value: string)
    requires line == "data: " + value
    ensures ReadLine(line, FRESH) == Fields("message", [value])
  {
    assert line[..5] == "data:" && line[0] != "event:"[0];
    assert line[5..] == " " + value && (" " + value)[1..] == value;
    assert [] + [value] == [value];
  }

  lemma DataBlock(line: string, value: string)
    requires '\n' !in line && line == "data: " + value
    ensures ReadBlock(line) == [Message("message", value)]
  {
    SplitSingle(line);
    hide Split;
    DataLine(line, value);
    assert [line][1..] == [];
    hide ReadLine;
    assert ReadLines([line], FRESH) == ReadLine(line, FRESH);
  }

  ghost function CrsOf(blocks: seq<string>): nat {
    if blocks == [] then 0 else Crs(blocks[0]) + CrsOf(blocks[1..])
  }

  lemma {:induction false} CrsOfConcat(a: seq<string>, b: seq<string>)
    ensures CrsOf(a + b) == CrsOf(a) + CrsOf(b)
  {
    if a == [] {
      assert a + b == b;
    } else {
      assert (a + b)[1..] == a[1..] + b;
      CrsOfConcat(a[1..], b);
    }
  }

  /** Draining neither adds nor loses carriage returns. */
  lemma {:induction false} DrainCrs(buffer: string)
    ensures CrsOf(Drain(buffer).blocks) + Crs(Drain(buffer).rest) == Crs(buffer)
    decreases |buffer|
  {
    var i := IndexOfBlank(buffer);
    if i >= 0 {
      var block, later := FirstBlock(buffer);
      hide IndexOfBlank, FirstBlank, Drain;
      DrainCrs(later);
      CrsOfConcat([block], Drain(later).blocks);
      assert CrsOf([block]) == Crs(block) by { assert [block][1..] == []; }
    }
  }

  /** A terminated buffer is drained down to at most one line feed. */
  lemma ResidueOfTerminated(folded: string)
    requires Terminated(folded)
    ensures Drain(folded).rest == "" || Drain(folded).rest == "\n"
  {
    var taken := DrainTakes(folded);
    hide Drain;
    var rest := Drain(folded).rest;
    assert |rest| >= 1 ==> rest[|rest| - 1] == folded[|folded| - 1];
    assert |rest| < 2 by { assert !BlankAt(rest, |rest| - 2); }
  }

  /** Read as one chunk, a closed text leaves no carriage return in the residue. */
  lemma WholeCrs(text: string)
    requires ClosedByBlankLine(text)
    ensures CrsOf(Read([text]).blocks) == Crs(text) - Pairs(text)
  {
    ReadOne(text);
    hide Fold, Drain, Read, Pairs;
    ResidueOfTerminated(Fold(text));
    DrainCrs(Fold(text));
    FoldCrs(text);
  }

  /** Folding keeps the last of the carriage returns before a line end that had two. */
  lemma FoldKeepsCr(x: string)
    requires |x| >= 3 && x[|x| - 3] == '\r' && x[|x| - 2] == '\r' && x[|x| - 1] == '\n'
    ensures |Fold(x)| >= 2 && Fold(x)[|Fold(x)| - 1] == '\n' && Fold(x)[|Fold(x)| - 2] == '\r'
  {
    var head := x[..|x| - 2];
    assert x == head + "\r\n";
    FoldConcat(head, "\r\n");
    assert "\r\n"[2..] == "" && Fold("\r\n") == "\n";
    FoldEnds(head);
    hide Fold;
  }

  lemma PairAtEnd(r: string)
    requires |r| >= 2 && r[|r| - 2] == '\r' && r[|r| - 1] == '\n'
    ensures Pairs(r) >= 1
  {
  }

  /** A cut right after CR CR LF folds that line end twice, so fewer carriage returns come out. */
  lemma CutCrs(x: string, z: string)
    requires |x| >= 3 && x[|x| - 3] == '\r' && x[|x| - 2] == '\r' && x[|x| - 1] == '\n'
    ensures CrsOf(Read([x, z]).blocks) < Crs(x + z) - Pairs(x + z)
  {
    ReadTwo(x, z);
    hide Fold, Drain, Read, Pairs;
    FoldKeepsCr(x);
    var taken := DrainTakes(Fold(x));
    var d := Drain(Fold(x));
    var r := d.rest;
    assert |r| >= 2 && r[|r| - 2] == '\r' && r[|r| - 1] == '\n';
    PairAtEnd(r);
    var e := Drain(Fold(r + z));
    CrsOfConcat(d.blocks, e.blocks);
    DrainCrs(Fold(x));
    DrainCrs(Fold(r + z));
    FoldCrs(x);
    FoldCrs(r + z);
    PairsConcat(r, z);
    PairsConcat(x, z);
  }

  lemma CutAtCrCrlf(text: string) returns (x: string, z: string)
    requires !NoCrCrlf(text)
    ensures text == x + z
    ensures |x| >= 3 && x[|x| - 3] == '\r' && x[|x| - 2] == '\r' && x[|x| - 1] == '\n'
  {
    var i :| CrCrlfAt(text, i);
    x, z := text[..i + 3], text[i + 3..];
  }

  ghost predicate FramingIsChunkInvariant(text: string) {
    forall chunks: seq<string> | Concat(chunks) == text :: Read(chunks).blocks == Read([text]).blocks
  }

  /** A text closed by a blank line and with CR CR LF has a cut whose blocks differ from those of the whole. */
  lemma CrCrlfHasBadCut(text: string)
    requires ClosedByBlankLine(text) && !NoCrCrlf(text)
    ensures !FramingIsChunkInvariant(text)
  {
    hide Read, Pairs, Concat, ClosedByBlankLine, CrsOf;
    var x, z := CutAtCrCrlf(text);
    CutTwice(x, z);
    WholeCrs(text);
    CutCrs(x, z);
    assert Read([x, z]).blocks != Read([text]).blocks;
    assert Concat([x, z]) == text;
  }

  /** Exactly when framing is independent of chunking, for a text closed by a blank line: when no CRLF
      follows a carriage return. */
  lemma FramingIsChunkInvariantExactly(text: string)
    requires ClosedByBlankLine(text)
    ensures FramingIsChunkInvariant(text) <==> NoCrCrlf(text)
  {
    if NoCrCrlf(text) {
      CutTwice(text, "");
      assert text + "" == text;
      hide Read, Concat, ClosedByBlankLine;
      forall chunks: seq<string> | Concat(chunks) == text
        ensures Read(chunks).blocks == Read([text]).blocks
      {
        ChunkingInvariance(chunks, [text]);
      }
    } else {
      CrCrlfHasBadCut(text);
    }
  }

  /** Text after the last blank line, or before there is any, is never delivered. */
  lemma UnterminatedBlockIsNotDelivered(chunks: seq<string>, text: string, tail: string)
    requires Concat(chunks) == text + tail && NoCrCrlf(text + tail) && NoBlank(Fold(tail))
    requires text == "" || ClosedByBlankLine(text)
    ensures Decode(chunks) == Decode([text]) && (text == "" ==> Decode(chunks) == [])
  {
    ReadIsDrain(chunks);
    ReadOne(text);
    EmptyText();
    if text != "" { ClosedEnds(text); }
    FoldConcat(text, tail);
    hide Fold, Drain, NoCrCrlf, NoBlank;
    ResidueIsNotDelivered(Fold(text), Fold(tail));
  }

  lemma ResidueIsNotDelivered(folded: string, tail: string)
    requires (folded == "" || Terminated(folded)) && NoBlank(tail)
    ensures ReadBlocks(Drain(folded + tail).blocks) == ReadBlocks(Drain(folded).blocks)
  {
    hide Drain, NoBlank, Terminated, ReadBlocks, IndexOfBlank, FirstBlank;
    var d := Drain(folded);
    if folded == "" { EmptyText(); } else { ResidueOfTerminated(folded); }
    var taken := DrainTakes(folded);
    var left := d.rest + tail;
    Assoc(taken, d.rest, tail);
    DrainSwap(folded, taken, left);
    OpenLeftover(d.rest, tail);
    ReadBlocksConcat(d.blocks, Drain(left).blocks);
    assert ReadBlocks(d.blocks) + [] == ReadBlocks(d.blocks);
  }

  /** A line feed left over and text without a blank line make an empty block at most. */
  lemma OpenLeftover(rest: string, tail: string)
    requires (rest == "" || rest == "\n") && NoBlank(tail)
    ensures ReadBlocks(Drain(rest + tail).blocks) == []
  {
    hide Drain, ReadBlock;
    if rest == "\n" && StartsWithLf(tail) {
      var later := tail[1..];
      assert rest + tail == "" + "\n\n" + later;
      assert FirstBlank(rest + tail, 0) && NoBlank(later) by { NoBlankAfter(tail); }
      IndexOfBlankUnique(rest + tail, 0);
      LeftmostStays("", later, later);
      DrainNothing(later);
      OneOf("");
      EmptyBlock();
    } else {
      assert NoBlank(rest + tail) by { NoBlankJoin(rest, tail); }
      DrainNothing(rest + tail);
    }
  }

  lemma EmptyBlock()
    ensures ReadBlock("") == []
  {
    assert Split("") == [""] && [""][1..] == [];
    assert ReadLines([""], FRESH) == ReadLines([], ReadLine("", FRESH));
  }

  lemma NoBlankAfter(s: string)
    requires NoBlank(s) && StartsWithLf(s)
    ensures NoBlank(s[1..]) && FirstBlank("\n" + s, 0)
  {
    forall j ensures !BlankAt(s[1..], j) { assert !BlankAt(s, j + 1); }
  }

  lemma NoBlankJoin(x: string, y: string)
    requires |x| <= 1 && NoBlank(y) && (x == "" || y == "" || y[0] != '\n')
    ensures NoBlank(x + y)
  {
    forall j ensures !BlankAt(x + y, j) { assert !BlankAt(y, j - |x|); }
  }

  lemma DrainNothing(s: string)
    requires NoBlank(s)
    ensures Drain(s) == Drained([], s)
  {
  }

  // ---------------------------------------------------------------- the line-by-line reading

  /** Reading terminated lines one at a time: a blank line hands out what was gathered and starts afresh. */
  function Interpret(lines: seq<string>, f: Fields): seq<Message> {
    if lines == [] then []
    else if lines[0] == "" then Emit(f) + Interpret(lines[1..], FRESH)
    else Interpret(lines[1..], ReadLine(lines[0], f))
  }

  lemma {:induction false} InterpretBlock(lines: seq<string>, later: seq<string>, f: Fields)
    requires "" !in lines
    ensures Interpret(lines + [""] + later, f) == Emit(ReadLines(lines, f)) + Interpret(later, FRESH)
  {
    var all := lines + [""] + later;
    if lines == [] {
      assert all[0] == "" && all[1..] == later;
    } else {
      assert all[1..] == lines[1..] + [""] + later;
      InterpretBlock(lines[1..], later, ReadLine(lines[0], f));
    }
  }

  lemma {:induction false} InterpretOpen(lines: seq<string>, f: Fields)
    requires "" !in lines
    ensures Interpret(lines, f) == []
  {
    if lines != [] { InterpretOpen(lines[1..], ReadLine(lines[0], f)); }
  }

  lemma {:induction false} SplitAtBreak(x: string, y: string)
    ensures Split(x + "\n" + y) == Split(x) + Split(y)
  {
    var t := x + "\n" + y;
    if x == "" {
      assert t[1..] == y;
    } else {
      assert t[1..] == x[1..] + "\n" + y;
      SplitAtBreak(x[1..], y);
    }
  }

  /** Without a blank line inside, only the first and the last piece can be empty. */
  lemma {:induction false} SplitBlanks(s: string)
    requires NoBlank(s)
    ensures var p := Split(s);
      && (p[0] == "" <==> s == "" || s[0] == '\n')
      && (forall k | 1 <= k < |p| - 1 :: p[k] != "")
      && (s != "" && s[|s| - 1] != '\n' && |p| > 1 ==> p[|p| - 1] != "")
  {
    if s != "" {
      assert !BlankAt(s, 0);
      forall j ensures !BlankAt(s[1..], j) { assert !BlankAt(s, j + 1); }
      SplitBlanks(s[1..]);
    }
  }

  /** Handing out whole blocks is the same as reading the text line by line. */
  lemma {:induction false} BlocksReadLikeLines(text: string)
    ensures ReadBlocks(Drain(text).blocks) == Interpret(Lines(text), FRESH)
    decreases |text|
  {
    var i := IndexOfBlank(text);
    if i < 0 {
      SplitBlanks(text);
      hide Split, ReadLine, IndexOfBlank;
      var lines := Lines(text);
      if lines != [] && lines[0] == "" {
        InterpretOpen(lines[1..], FRESH);
      } else {
        InterpretOpen(lines, FRESH);
      }
    } else {
      var block, rest := FirstBlock(text);
      BlockFields(block);
      PiecesOfBlock(text, block, rest);
      hide Split, ReadLine, IndexOfBlank, Drain, ReadBlock;
      BlocksReadLikeLines(rest);
      LinesOfBlock(block, rest);
      var pieces := Split(block);
      InterpretPieces(pieces, Lines(rest));
      ReadBlocksConcat([block], Drain(rest).blocks);
      OneOf(block);
    }
  }

  lemma LinesOfBlock(block: string, rest: string)
    ensures Lines(block + "\n\n" + rest) == Split(block) + [""] + Lines(rest)
  {
    hide Split;
    assert block + "\n\n" + rest == block + "\n" + ("" + "\n" + rest);
    SplitAtBreak(block, "" + "\n" + rest);
    SplitAtBreak("", rest);
    SplitSingle("");
  }

  lemma SkipBlank(lines: seq<string>)
    requires lines != [] && lines[0] == ""
    ensures Interpret(lines, FRESH) == Interpret(lines[1..], FRESH)
    ensures ReadLines(lines, FRESH) == ReadLines(lines[1..], FRESH)
  {
  }

  /** A block's lines followed by a blank one hand out the block's message; an empty first line is skipped. */
  lemma InterpretPieces(pieces: seq<string>, later: seq<string>)
    requires pieces != [] && "" !in pieces[1..]
    ensures Interpret(pieces + [""] + later, FRESH) == Emit(ReadLines(pieces, FRESH)) + Interpret(later, FRESH)
  {
    hide Interpret, ReadLines, Emit, FRESH;
    var all := pieces + [""] + later;
    if pieces[0] == "" {
      assert all[1..] == pieces[1..] + [""] + later;
      SkipBlank(all);
      SkipBlank(pieces);
      InterpretBlock(pieces[1..], later, FRESH);
    } else {
      assert "" !in pieces by { assert pieces == [pieces[0]] + pieces[1..]; }
      InterpretBlock(pieces, later, FRESH);
    }
  }

  lemma PiecesOfBlock(text: string, block: string, rest: string)
    requires text == block + "\n\n" + rest && IndexOfBlank(text) == |block|
    ensures "" !in Split(block)[1..]
  {
    forall j ensures !BlankAt(block, j) { assert j < |block| ==> !BlankAt(text, j); }
    assert !BlankAt(text, |block| - 1);
    hide IndexOfBlank;
    SplitBlanks(block);
  }

  /** The decoder implements the line-by-line reading of the whole text, under any chunking. */
  lemma DecodeReadsLines(chunks: seq<string>)
    requires NoCrCrlf(Concat(chunks))
    ensures Decode(chunks) == Interpret(Lines(Fold(Concat(chunks))), FRESH)
  {
    ReadIsDrain(chunks);
    hide Fold, Read;
    BlocksReadLikeLines(Fold(Concat(chunks)));
  }
}
