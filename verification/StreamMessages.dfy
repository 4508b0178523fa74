/** What chunking does to the delivered messages: carriage returns at the end of data lines survive a whole reading
    and not a cut one. */
module StreamMessages {
  import opened Text
  import opened EventStream
  import opened StreamTheorems

  predicate IsData(l: string) {
    StartsWith(l, "data:")
  }

  /** The carriage returns on data lines. */
  ghost function DataCrs(lines: seq<string>): nat {
    if lines == [] then 0 else (if IsData(lines[0]) then Crs(lines[0]) else 0) + DataCrs(lines[1..])
  }

  /** The carriage returns in the data of messages. */
  ghost function DeliveredCrs(ms: seq<Message>): nat {
    if ms == [] then 0 else Crs(ms[0].data) + DeliveredCrs(ms[1..])
  }

  lemma {:induction false} DataCrsConcat(a: seq<string>, b: seq<string>)
    ensures DataCrs(a + b) == DataCrs(a) + DataCrs(b)
  {
    if a == [] {
      assert a + b == b;
    } else {
      assert (a + b)[1..] == a[1..] + b;
      DataCrsConcat(a[1..], b);
    }
  }

  lemma {:induction false} DeliveredCrsConcat(a: seq<Message>, b: seq<Message>)
    ensures DeliveredCrs(a + b) == DeliveredCrs(a) + DeliveredCrs(b)
  {
    if a == [] {
      assert a + b == b;
    } else {
      assert (a + b)[1..] == a[1..] + b;
      DeliveredCrsConcat(a[1..], b);
    }
  }

  lemma OneCrs(s: string)
    ensures CrsOf([s]) == Crs(s)
  {
    assert [s][1..] == [];
  }

  lemma {:induction false} JoinedCrs(pieces: seq<string>)
    requires pieces != []
    ensures Crs(Join(pieces)) == CrsOf(pieces)
  {
    if |pieces| == 1 {
      OneCrs(pieces[0]);
    } else {
      JoinedCrs(pieces[1..]);
      CrsJoin(pieces[0] + "\n", Join(pieces[1..]));
      CrsJoin(pieces[0], "\n");
    }
  }

  /** A data line hands its carriage returns on, any other line none. */
  lemma LineCrs(line: string, f: Fields)
    ensures CrsOf(ReadLine(line, f).data) == CrsOf(f.data) + (if IsData(line) then Crs(line) else 0)
  {
    hide Trim;
    if IsData(line) {
      assert line[0] == 'd' && "event:"[0] == 'e';
      KeptCrs(line);
      var value := line[5..];
      var kept := if StartsWith(value, " ") then value[1..] else value;
      hide StartsWith, Crs;
      CrsOfConcat(f.data, [kept]);
      OneCrs(kept);
    }
  }

  lemma KeptCrs(line: string)
    requires IsData(line)
    ensures var value := line[5..]; Crs(if StartsWith(value, " ") then value[1..] else value) == Crs(line)
  {
    var value := line[5..];
    assert line == "data:" + value;
    CrsJoin("data:", value);
    if StartsWith(value, " ") {
      assert value == " " + value[1..];
      CrsJoin(" ", value[1..]);
    }
  }

  lemma EmitCrs(f: Fields)
    ensures DeliveredCrs(Emit(f)) == CrsOf(f.data)
  {
    if f.data != [] {
      JoinedCrs(f.data);
      assert Emit(f)[1..] == [];
    }
  }

  /** Up to a blank line everything on data lines is delivered. */
  lemma {:induction false} InterpretCrs(lines: seq<string>, f: Fields)
    requires lines != [] && lines[|lines| - 1] == ""
    ensures DeliveredCrs(Interpret(lines, f)) == CrsOf(f.data) + DataCrs(lines)
    decreases |lines|
  {
    hide ReadLine, Emit;
    var rest := lines[1..];
    if lines[0] == "" {
      EmitCrs(f);
      DeliveredCrsConcat(Emit(f), Interpret(rest, FRESH));
      assert !IsData("");
      if rest != [] { InterpretCrs(rest, FRESH); }
    } else {
      LineCrs(lines[0], f);
      InterpretCrs(rest, ReadLine(lines[0], f));
    }
  }

  // ---------------------------------------------------------------- folding, line by line

  function Strip(l: string): string {
    if EndsWithCr(l) then l[..|l| - 1] else l
  }

  function StripAll(lines: seq<string>): seq<string> {
    if lines == [] then [] else [Strip(lines[0])] + StripAll(lines[1..])
  }

  lemma StripCrs(l: string)
    ensures IsData(Strip(l)) == IsData(l)
    ensures Crs(Strip(l)) + (if EndsWithCr(l) then 1 else 0) == Crs(l)
  {
    if EndsWithCr(l) {
      assert l == Strip(l) + "\r";
      CrsJoin(Strip(l), "\r");
      if IsData(l) { assert l[|l| - 1] != "data:"[4]; }
    }
  }

  lemma {:induction false} StripAllCrs(lines: seq<string>)
    ensures DataCrs(StripAll(lines)) <= DataCrs(lines)
  {
    if lines != [] {
      StripCrs(lines[0]);
      StripAllCrs(lines[1..]);
      assert StripAll(lines)[1..] == StripAll(lines[1..]);
    }
  }

  lemma StripAllConcat(lines: seq<string>, l: string)
    ensures StripAll(lines + [l]) == StripAll(lines) + [Strip(l)]
  {
    if lines == [] {
      assert [l][1..] == [];
    } else {
      assert (lines + [l])[1..] == lines[1..] + [l];
      StripAllConcat(lines[1..], l);
    }
  }

  lemma {:induction false} FirstLine(s: string) returns (l: string, rest: string)
    requires '\n' in s
    ensures s == l + "\n" + rest && '\n' !in l
  {
    if s[0] == '\n' {
      l, rest := "", s[1..];
    } else {
      var k;
      k, rest := FirstLine(s[1..]);
      l := [s[0]] + k;
    }
  }

  lemma FoldClosed(l: string)
    requires '\n' !in l
    ensures Fold(l + "\n") == Strip(l) + "\n"
  {
    if EndsWithCr(l) {
      var k := Strip(l);
      assert l + "\n" == k + "\r\n";
      LineHasNoCrlf(k);
      FoldLine(k);
    } else {
      assert NoCrlf(l + "\n");
      FoldClean(l + "\n");
    }
  }

  lemma NoLines(s: string)
    requires '\n' !in s
    ensures Lines(s) == [] && Fold(s) == s
  {
    SplitSingle(s);
    LineHasNoCrlf(s);
    FoldClean(s);
  }

  /** Folding takes one carriage return off every closed line that ends in one. */
  lemma {:induction false} FoldLines(s: string)
    ensures Lines(Fold(s)) == StripAll(Lines(s))
    decreases |s|
  {
    if '\n' !in s {
      NoLines(s);
    } else {
      var l, rest := FirstLine(s);
      FoldLines(rest);
      FoldConcat(l + "\n", rest);
      FoldClosed(l);
      assert '\n' !in Strip(l);
      hide Fold, Lines, Strip;
      LinesCons(l, rest);
      LinesCons(Strip(l), Fold(rest));
      assert ([l] + Lines(rest))[1..] == Lines(rest);
    }
  }

  /** Closed text that has or ends in a line end. */
  ghost predicate Closed(s: string) {
    s == "" || s[|s| - 1] == '\n'
  }

  lemma {:induction false} LinesConcat(a: string, b: string)
    requires Closed(a)
    ensures Lines(a + b) == Lines(a) + Lines(b)
    decreases |a|
  {
    if a == "" {
      SplitSingle("");
      assert a + b == b;
    } else {
      var l, rest := FirstLine(a);
      LinesConcat(rest, b);
      hide Split;
      LinesCons(l, rest);
      assert a + b == l + "\n" + (rest + b);
      LinesCons(l, rest + b);
    }
  }

  lemma LastLine(l: string)
    requires '\n' !in l
    ensures Lines(l + "\n") == [l]
  {
    assert l + "\n" == l + "\n" + "";
    LinesCons(l, "");
    SplitSingle("");
  }

  lemma BlankAtEnd(s: string)
    requires Terminated(s)
    ensures Lines(s) != [] && Lines(s)[|Lines(s)| - 1] == ""
  {
    var head := s[..|s| - 1];
    assert s == head + ("" + "\n");
    LinesConcat(head, "" + "\n");
    LastLine("");
  }

  /** All carriage returns on the data lines of a closed text are delivered. */
  lemma DrainedCrs(text: string)
    requires Terminated(text)
    ensures DeliveredCrs(ReadBlocks(Drain(text).blocks)) == DataCrs(Lines(text))
  {
    hide Lines, Drain, Interpret, ReadBlocks, DataCrs, DeliveredCrs, Terminated;
    BlocksReadLikeLines(text);
    BlankAtEnd(text);
    InterpretCrs(Lines(text), FRESH);
    assert FRESH.data == [] && CrsOf([]) == 0;
  }

  // ---------------------------------------------------------------- a cut after CR CR LF

  /** What is left of a folded text before a line that ends in CR LF: all of that line. */
  lemma RestKeepsLine(head: string, l: string) returns (taken: string, before: string)
    requires Closed(head) && '\n' !in l
    ensures var f := head + l + "\r\n"; f == taken + Drain(f).rest && Drain(f).rest == before + l + "\r\n"
    ensures head == taken + before && Closed(before) && (taken == "" || Terminated(taken))
  {
    var f := head + l + "\r\n";
    taken := DrainTakes(f);
    hide Drain;
    assert |taken| <= |head| by {
      if |taken| > |head| {
        assert taken[|taken| - 1] == f[|taken| - 1] && taken[|taken| - 2] == f[|taken| - 2];
        TailHasOneBreak(head, l, |taken| - 1);
      }
    }
    before := head[|taken|..];
    assert taken == f[..|taken|] == head[..|taken|];
    assert Drain(f).rest == f[|taken|..];
    assert f[|taken|..] == before + l + "\r\n";
  }

  lemma TailHasOneBreak(head: string, l: string, i: nat)
    requires '\n' !in l && |head| <= i < |head + l + "\r\n"|
    ensures var f := head + l + "\r\n"; f[i] == '\n' ==> i == |f| - 1 && i > 0 && f[i - 1] == '\r'
  {
    var f := head + l + "\r\n";
    if i < |head| + |l| { assert f[i] == l[i - |head|]; }
  }

  lemma FoldHead(head: string, l: string)
    requires Closed(head) && '\n' !in l
    ensures Fold(head + l + "\r\r\n") == Fold(head) + l + "\r\n"
  {
    LineHasNoCrlf(l);
    FoldLine(l + "\r");
    assert head + l + "\r\r\n" == head + (l + "\r" + "\r\n");
    hide Fold, NoCrlf;
    FoldConcat(head, l + "\r" + "\r\n");
    assert Fold(head) + (l + "\r" + "\n") == Fold(head) + l + "\r\n";
  }

  lemma ClosedFold(head: string)
    requires Closed(head)
    ensures Closed(Fold(head))
  {
    if head != "" { FoldEnds(head); }
  }

  lemma WholeDecodes(x: string, z: string)
    requires Closed(x)
    ensures Decode([x + z]) == ReadBlocks(Drain(Fold(x) + Fold(z)).blocks)
  {
    hide Fold, Drain, Read;
    ReadOne(x + z);
    FoldConcat(x, z);
  }

  lemma CutDecodes(x: string, z: string, taken: string)
    requires var d := Drain(Fold(x)); Fold(x) == taken + d.rest && Closed(d.rest)
    ensures var d := Drain(Fold(x)); Decode([x, z]) == ReadBlocks(Drain(taken + (Fold(d.rest) + Fold(z))).blocks)
  {
    hide Fold, Drain, Read;
    var d := Drain(Fold(x));
    ReadTwo(x, z);
    FoldConcat(d.rest, z);
    DrainSwap(Fold(x), taken, Fold(d.rest + z));
  }

  lemma EndsBlank(a: string, b: string)
    requires a != "" && Closed(a) && (b == "\n" || Terminated(b))
    ensures Terminated(a + b)
  {
  }

  /** The last line gives up a carriage return, the others nothing they did not have. */
  lemma LessOnData(taken: string, before: string, l: string, later: string)
    requires Closed(taken) && Closed(before) && '\n' !in l && IsData(l)
    ensures var rest := before + l + "\r\n";
      DataCrs(Lines(taken + (Fold(rest) + later))) < DataCrs(Lines(taken + (rest + later)))
  {
    var last, rest := l + "\r", before + l + "\r\n";
    assert rest == before + (last + "\n") && Closed(rest);
    LinesConcat(before, last + "\n");
    LastLine(last);
    FoldLines(rest);
    ClosedFold(rest);
    hide Fold, Lines;
    LinesConcat(taken, rest + later);
    LinesConcat(rest, later);
    LinesConcat(taken, Fold(rest) + later);
    LinesConcat(Fold(rest), later);
    StripAllConcat(Lines(before), last);
    StripAllCrs(Lines(before));
    StripCrs(last);
    assert IsData(last);
    hide Strip, StripAll, IsData;
    DataCrsConcat(Lines(taken), Lines(rest) + Lines(later));
    DataCrsConcat(Lines(rest), Lines(later));
    DataCrsConcat(Lines(taken), Lines(Fold(rest)) + Lines(later));
    DataCrsConcat(Lines(Fold(rest)), Lines(later));
    DataCrsConcat(Lines(before), [last]);
    DataCrsConcat(StripAll(Lines(before)), [Strip(last)]);
    assert [last][1..] == [] && [Strip(last)][1..] == [];
  }

  /** How such a text falls apart: blocks taken before the line, the line in the residue, and what closes the text. */
  lemma ShapeOfCut(head: string, l: string, z: string) returns (taken: string, before: string)
    requires Closed(head) && '\n' !in l && ClosedByBlankLine(head + l + "\r\r\n" + z)
    ensures var x, rest := head + l + "\r\r\n", before + l + "\r\n";
      && Fold(x) == taken + rest && Drain(Fold(x)).rest == rest
      && Closed(taken) && Closed(before) && Closed(x) && Closed(rest) && Closed(Fold(rest)) && Fold(rest) != ""
      && Terminated(Fold(x) + Fold(z)) && (Fold(z) == "\n" || Terminated(Fold(z)))
  {
    var x := head + l + "\r\r\n";
    FoldHead(head, l);
    ClosedFold(head);
    assert Closed(x);
    FoldConcat(x, z);
    hide Fold, Drain;
    TailEndsBlank(Fold(head) + l, Fold(z));
    taken, before := RestKeepsLine(Fold(head), l);
    ClosedFold(before + l + "\r\n");
    FoldEnds(before + l + "\r\n");
  }

  /** A text whose data line ends in CR CR LF delivers more carriage returns when read whole than when cut right
      after that line. */
  lemma CutDeliversLess(head: string, l: string, z: string)
    requires Closed(head) && '\n' !in l && IsData(l) && ClosedByBlankLine(head + l + "\r\r\n" + z)
    ensures var x := head + l + "\r\r\n"; DeliveredCrs(Decode([x, z])) < DeliveredCrs(Decode([x + z]))
  {
    var taken, before := ShapeOfCut(head, l, z);
    var x, rest := head + l + "\r\r\n", before + l + "\r\n";
    assert taken + Fold(rest) != "" && Closed(taken + Fold(rest));
    hide Fold, Drain, Lines, ReadBlocks, Terminated, Decode, IsData, Closed, ClosedByBlankLine, DeliveredCrs, DataCrs;
    WholeDecodes(x, z);
    CutDecodes(x, z, taken);
    Assoc(taken, Fold(rest), Fold(z));
    Assoc(taken, rest, Fold(z));
    EndsBlank(taken + Fold(rest), Fold(z));
    DrainedCrs(Fold(x) + Fold(z));
    DrainedCrs(taken + (Fold(rest) + Fold(z)));
    LessOnData(taken, before, l, Fold(z));
  }

  /** After a line that ends in CR LF, closing the text is up to what follows. */
  lemma TailEndsBlank(a: string, b: string)
    requires Terminated(a + "\r\n" + b)
    ensures b == "\n" || Terminated(b)
  {
    var t := a + "\r\n" + b;
    assert b == t[|a| + 2..] && t[|a|] == '\r';
    if |b| == 1 { assert b == [t[|t| - 1]]; }
  }

  /** At i the text has CR CR LF, at the end of a data line. */
  ghost predicate DataLineEnd(text: string, i: int) {
    CrCrlfAt(text, i) &&
    exists p | 0 <= p <= i :: Closed(text[..p]) && '\n' !in text[p..i] && IsData(text[p..i])
  }

  ghost predicate DeliveryIsChunkInvariant(text: string) {
    forall chunks: seq<string> | Concat(chunks) == text :: Decode(chunks) == Decode([text])
  }

  /** Such a text does not deliver the same messages under every cut. */
  lemma DataLineHasBadCut(text: string, i: int)
    requires ClosedByBlankLine(text) && DataLineEnd(text, i)
    ensures !DeliveryIsChunkInvariant(text)
  {
    var p :| 0 <= p <= i && Closed(text[..p]) && '\n' !in text[p..i] && IsData(text[p..i]);
    CutParts(text, p, i);
    hide DeliveryIsChunkInvariant, Closed, IsData, ClosedByBlankLine;
    BadCutThere(text, text[..p], text[p..i], text[i + 3..]);
  }

  lemma BadCutThere(text: string, head: string, l: string, z: string)
    requires text == head + l + "\r\r\n" + z && ClosedByBlankLine(text)
    requires Closed(head) && '\n' !in l && IsData(l)
    ensures !DeliveryIsChunkInvariant(text)
  {
    hide Decode, Concat, Closed, IsData, ClosedByBlankLine;
    CutDeliversLess(head, l, z);
    var x := head + l + "\r\r\n";
    CutTwice(x, z);
    assert Concat([x, z]) == text && Decode([x, z]) != Decode([text]);
  }

  lemma CutParts(text: string, p: nat, i: nat)
    requires p <= i && CrCrlfAt(text, i)
    ensures text == text[..p] + text[p..i] + "\r\r\n" + text[i + 3..]
  {
    assert text[i..i + 3] == "\r\r\n";
    assert text == text[..p] + text[p..i] + text[i..i + 3] + text[i + 3..];
  }

  /** For closed text whose CR CR LF, if any, all end data lines, delivery is independent of chunking exactly when
      there is none. */
  lemma DataLinesDecideExactly(text: string)
    requires ClosedByBlankLine(text) && forall i | CrCrlfAt(text, i) :: DataLineEnd(text, i)
    ensures DeliveryIsChunkInvariant(text) <==> NoCrCrlf(text)
  {
    if NoCrCrlf(text) {
      CutTwice(text, "");
      assert text + "" == text;
      forall chunks: seq<string> | Concat(chunks) == text ensures Decode(chunks) == Decode([text]) {
        ChunkingInvariance(chunks, [text]);
      }
    } else {
      var i :| CrCrlfAt(text, i);
      DataLineHasBadCut(text, i);
    }
  }
}
