/** All that chunking can do to a text: lines lose carriage returns at their end, one at least and all of them if the
    stream dawdles. From this, exactly when the delivered messages do not depend on the chunks. */
module StreamReadings {
  import opened Text
  import opened EventStream
  import opened StreamTheorems
  import opened StreamMessages

  // ---------------------------------------------------------------- lines and what they may lose

  /** What follows the last line feed. */
  function Open(s: string): string {
    var pieces := Split(s);
    pieces[|pieces| - 1]
  }

  function Bare(l: string): string {
    if EndsWithCr(l) then Bare(l[..|l| - 1]) else l
  }

  function BareAll(lines: seq<string>): seq<string> {
    seq(|lines|, i requires 0 <= i < |lines| => Bare(lines[i]))
  }

  /** p is l without some of the carriage returns at its end, without one at least if there is one. */
  ghost predicate Peels(l: string, p: string) {
    Bare(l) <= p <= l && (EndsWithCr(l) ==> p != l)
  }

  ghost predicate AllPeel(lines: seq<string>, ps: seq<string>) {
    |lines| == |ps| && forall i | 0 <= i < |lines| :: Peels(lines[i], ps[i])
  }

  lemma {:induction false} BareIsPrefix(l: string)
    ensures Bare(l) <= l && !EndsWithCr(Bare(l))
    ensures forall i | |Bare(l)| <= i < |l| :: l[i] == '\r'
  {
    if EndsWithCr(l) { BareIsPrefix(l[..|l| - 1]); }
  }

  lemma PeelsMore(l: string, p: string)
    requires p == l || Peels(l, p)
    ensures Peels(l, Strip(p)) && Peels(l, Bare(l))
  {
    BareIsPrefix(l);
    if EndsWithCr(p) { assert |Bare(l)| < |p|; }
    hide Bare;
  }

  lemma {:induction false} StripAllAt(lines: seq<string>)
    ensures |StripAll(lines)| == |lines| && forall i | 0 <= i < |lines| :: StripAll(lines)[i] == Strip(lines[i])
  {
    if lines != [] { StripAllAt(lines[1..]); }
  }

  lemma StripPeels(lines: seq<string>, ps: seq<string>)
    requires ps == lines || AllPeel(lines, ps)
    ensures AllPeel(lines, StripAll(ps)) && AllPeel(lines, BareAll(lines))
  {
    StripAllAt(ps);
    forall i | 0 <= i < |lines| ensures Peels(lines[i], StripAll(ps)[i]) && Peels(lines[i], BareAll(lines)[i]) {
      PeelsMore(lines[i], ps[i]);
    }
  }

  lemma StripAllJoin(a: seq<string>, b: seq<string>)
    ensures StripAll(a + b) == StripAll(a) + StripAll(b)
  {
    StripAllAt(a);
    StripAllAt(b);
    StripAllAt(a + b);
  }

  lemma PiecesCons(l: string, rest: string)
    requires '\n' !in l
    ensures Lines(l + "\n" + rest) == [l] + Lines(rest) && Open(l + "\n" + rest) == Open(rest)
  {
    SplitPiece(l, rest);
  }

  lemma NoPieces(s: string)
    requires '\n' !in s
    ensures Lines(s) == [] && Open(s) == s
  {
    SplitSingle(s);
  }

  lemma {:induction false} PiecesConcat(a: string, b: string)
    ensures Lines(a + b) == Lines(a) + Lines(Open(a) + b) && Open(a + b) == Open(Open(a) + b)
    decreases |a|
  {
    hide Lines, Open;
    if '\n' !in a {
      NoPieces(a);
      assert [] + Lines(a + b) == Lines(a + b);
    } else {
      var l, rest := FirstLine(a);
      PiecesConcat(rest, b);
      PiecesCons(l, rest);
      PiecesCons(l, rest + b);
      assert a + b == l + "\n" + (rest + b);
      Assoc([l], Lines(rest), Lines(Open(rest) + b));
    }
  }

  lemma {:induction false} FoldKeepsOpen(s: string)
    ensures Open(Fold(s)) == Open(s)
    decreases |s|
  {
    hide Fold, Lines, Open;
    if '\n' !in s {
      NoLines(s);
    } else {
      var l, rest := FirstLine(s);
      FoldKeepsOpen(rest);
      FoldConcat(l + "\n", rest);
      FoldClosed(l);
      PiecesCons(l, rest);
      PiecesCons(Strip(l), Fold(rest));
    }
  }

  lemma ClosedIsAllLines(a: string, b: string)
    requires a == "" || Terminated(a)
    ensures Lines(a + b) == Lines(a) + Lines(b) && Open(a + b) == Open(b)
    ensures a != "" ==> Lines(a) != [] && Lines(a)[|Lines(a)| - 1] == ""
  {
    PiecesConcat(a, b);
    if a == "" {
      SplitSingle("");
    } else {
      BlankAtEnd(a);
      var head := a[..|a| - 1];
      assert a == head + "\n" + "";
      SplitAtBreak(head, "");
      SplitSingle("");
    }
    hide Split;
    assert Open(a) == "" && "" + b == b;
  }

  // ---------------------------------------------------------------- every chunking is a peeling

  /** v is a text that drains to what has been read of the chunks. */
  ghost predicate Stands(chunks: seq<string>, v: string) {
    Drain(v) == Read(chunks)
  }

  /** One more chunk: what was still in the buffer is folded again, with the chunk after it. */
  lemma ReadOn(chunks: seq<string>, v: string, c: string) returns (kept: seq<string>, folded: seq<string>, w: string)
    requires Stands(chunks, v)
    ensures Stands(chunks + [c], w) && Lines(v) == kept + folded && Open(w) == Open(Open(v) + c)
    ensures kept != [] ==> kept[|kept| - 1] == ""
    ensures Lines(w) == kept + StripAll(folded + Lines(Open(v) + c))
  {
    hide Drain, Fold, Split, Terminated;
    var taken := DrainTakes(v);
    var rest := Drain(v).rest;
    w := taken + Fold(rest + c);
    assert (chunks + [c])[..|chunks|] == chunks;
    DrainSwap(v, taken, Fold(rest + c));
    kept, folded := Lines(taken), Lines(rest);
    assert taken == "" ==> kept == [] by { SplitSingle(""); }
    ClosedIsAllLines(taken, rest);
    ClosedIsAllLines(taken, Fold(rest + c));
    PiecesConcat(rest, c);
    FoldLines(rest + c);
    FoldKeepsOpen(rest + c);
  }

  lemma Nothing()
    ensures Stands([], "") && Lines("") == [] && Open("") == ""
  {
    EmptyText();
    SplitSingle("");
  }

  lemma {:induction false} ReadPeels(chunks: seq<string>) returns (v: string)
    ensures Stands(chunks, v) && Open(v) == Open(Concat(chunks)) && AllPeel(Lines(Concat(chunks)), Lines(v))
  {
    if chunks == [] {
      Nothing();
      v := "";
    } else {
      var init, c := chunks[..|chunks| - 1], chunks[|chunks| - 1];
      var u := ReadPeels(init);
      hide Open, Split, Peels, Stands;
      var kept, folded, w := ReadOn(init, u, c);
      assert chunks == init + [c];
      PiecesConcat(Concat(init), c);
      PeelMore(Lines(Concat(init)), kept, folded, Lines(Open(u) + c));
      v := w;
    }
  }

  lemma PeelMore(lines: seq<string>, kept: seq<string>, folded: seq<string>, more: seq<string>)
    requires AllPeel(lines, kept + folded)
    ensures AllPeel(lines + more, kept + StripAll(folded + more))
  {
    PeelsCut(lines, kept, folded);
    var first, second := lines[..|kept|], lines[|kept|..];
    assert lines + more == first + (second + more);
    hide AllPeel, StripAll;
    StripPeels(second, folded);
    StripPeels(more, more);
    StripAllJoin(folded, more);
    PeelsJoin(second, StripAll(folded), more, StripAll(more));
    PeelsJoin(first, kept, second + more, StripAll(folded + more));
  }

  lemma PeelsCut(lines: seq<string>, a: seq<string>, b: seq<string>)
    requires AllPeel(lines, a + b)
    ensures |a| <= |lines| && AllPeel(lines[..|a|], a) && AllPeel(lines[|a|..], b)
  {
    hide Peels;
    forall i | 0 <= i < |b| ensures Peels(lines[|a|..][i], b[i]) { assert b[i] == (a + b)[|a| + i]; }
    forall i | 0 <= i < |a| ensures Peels(lines[..|a|][i], a[i]) { assert a[i] == (a + b)[i]; }
  }

  lemma PeelsJoin(lines: seq<string>, a: seq<string>, more: seq<string>, b: seq<string>)
    requires AllPeel(lines, a) && AllPeel(more, b)
    ensures AllPeel(lines + more, a + b)
  {
    hide Peels;
  }

  lemma StandsReads(chunks: seq<string>, v: string)
    requires Stands(chunks, v)
    ensures Decode(chunks) == Interpret(Lines(v), FRESH)
  {
    hide Drain, ReadBlock, Split;
    BlocksReadLikeLines(v);
  }

  /** The messages under any chunking are the line-by-line reading of some peeling of the text's lines. */
  lemma DecodePeels(chunks: seq<string>) returns (ps: seq<string>)
    ensures AllPeel(Lines(Concat(chunks)), ps) && Decode(chunks) == Interpret(ps, FRESH)
  {
    var v := ReadPeels(chunks);
    StandsReads(chunks, v);
    ps := Lines(v);
  }

  lemma DecodeWhole(text: string)
    ensures Decode([text]) == Interpret(StripAll(Lines(text)), FRESH)
  {
    hide Fold, Drain, ReadBlock, Split;
    ReadOne(text);
    FoldLines(text);
    BlocksReadLikeLines(Fold(text));
  }

  // ---------------------------------------------------------------- the slowest chunking

  ghost predicate AllBare(lines: seq<string>) {
    forall l | l in lines :: !EndsWithCr(l)
  }

  lemma BareStays(lines: seq<string>)
    requires AllBare(lines)
    ensures StripAll(lines) == lines
  {
    StripAllAt(lines);
  }

  /** Empty chunks take the carriage returns off the last line, one each. */
  lemma {:induction false} Wait(chunks: seq<string>, v: string, lines: seq<string>, p: string)
    returns (later: seq<string>, w: string)
    requires Stands(chunks, v) && Open(v) == "" && Lines(v) == lines + [p] && AllBare(lines)
    ensures Concat(later) == Concat(chunks) && Stands(later, w) && Open(w) == "" && Lines(w) == lines + [Bare(p)]
    decreases |p|
  {
    if !EndsWithCr(p) {
      later, w := chunks, v;
    } else {
      Nothing();
      hide Open, Split, Stands;
      var kept, folded, u := ReadOn(chunks, v, "");
      assert "" + "" == "" && folded + [] == folded;
      var init := LastFolded(kept, folded, lines, p);
      BareStays(init);
      StripAllConcat(init, p);
      assert kept + (init + [Strip(p)]) == lines + [Strip(p)];
      ConcatEmpty(chunks);
      later, w := Wait(chunks + [""], u, lines, Strip(p));
    }
  }

  lemma LastFolded(kept: seq<string>, folded: seq<string>, lines: seq<string>, p: string) returns (init: seq<string>)
    requires kept + folded == lines + [p] && EndsWithCr(p) && (kept != [] ==> kept[|kept| - 1] == "")
    ensures folded == init + [p] && lines == kept + init
  {
    assert (kept + folded)[|lines|] == p;
    assert folded == [] ==> kept == lines + [p];
    init := folded[..|folded| - 1];
    assert folded[|folded| - 1] == (kept + folded)[|kept| + |folded| - 1] == p;
    assert lines == (kept + folded)[..|lines|];
  }

  lemma ConcatEmpty(chunks: seq<string>)
    ensures Concat(chunks + [""]) == Concat(chunks)
  {
    assert (chunks + [""])[..|chunks|] == chunks;
  }

  lemma LastClosedLine(text: string) returns (head: string, l: string)
    requires text != "" && Closed(text)
    ensures text == head + (l + "\n") && Closed(head) && '\n' !in l
  {
    head, l := CutOpen(text[..|text| - 1]);
    assert text == text[..|text| - 1] + "\n";
  }

  lemma BareAllAppend(lines: seq<string>, l: string)
    ensures BareAll(lines + [l]) == BareAll(lines) + [Bare(l)] && AllBare(BareAll(lines)) && Bare(Strip(l)) == Bare(l)
  {
    forall i | 0 <= i < |lines| ensures !EndsWithCr(BareAll(lines)[i]) { BareIsPrefix(lines[i]); }
  }

  /** One more line arrives: it loses one carriage return, those before it have none to lose. */
  lemma LineArrives(chunks: seq<string>, v: string, lines: seq<string>, l: string) returns (w: string)
    requires Stands(chunks, v) && Open(v) == "" && Lines(v) == lines && AllBare(lines) && '\n' !in l
    ensures Stands(chunks + [l + "\n"], w) && Open(w) == "" && Lines(w) == lines + [Strip(l)]
  {
    hide Open, Lines, Stands, Strip, StripAll;
    LastLine(l);
    OpenOfLine(l);
    var kept, folded, u := ReadOn(chunks, v, l + "\n");
    assert "" + (l + "\n") == l + "\n";
    BareStays(folded);
    StripAllConcat(folded, l);
    assert kept + (folded + [Strip(l)]) == lines + [Strip(l)];
    w := u;
  }

  /** A chunk for every line and empty ones after it: every line loses all its last carriage returns. */
  lemma {:induction false} Dawdle(text: string) returns (chunks: seq<string>, v: string)
    requires Closed(text)
    ensures Concat(chunks) == text && Stands(chunks, v) && Open(v) == "" && Lines(v) == BareAll(Lines(text))
    decreases |text|
  {
    if text == "" {
      Nothing();
      chunks, v := [], "";
    } else {
      var head, l := LastClosedLine(text);
      hide Open, Lines, Stands, Strip, BareAll, AllBare, Concat;
      var before, u := Dawdle(head);
      BareAllAppend(Lines(head), l);
      var w := LineArrives(before, u, BareAll(Lines(head)), l);
      LinesConcat(head, l + "\n");
      LastLine(l);
      ConcatAppend(before, l + "\n");
      chunks, v := Wait(before + [l + "\n"], w, BareAll(Lines(head)), Strip(l));
    }
  }

  lemma OpenOfLine(l: string)
    requires '\n' !in l
    ensures Open(l + "\n") == ""
  {
    assert l + "\n" == l + "\n" + "";
    SplitPiece(l, "");
    SplitSingle("");
  }

  lemma ConcatAppend(chunks: seq<string>, c: string)
    ensures Concat(chunks + [c]) == Concat(chunks) + c
  {
    assert (chunks + [c])[..|chunks|] == chunks;
  }

  /** Some chunking of any text delivers the reading of its lines with no carriage return at their end. */
  lemma SlowestReading(text: string) returns (chunks: seq<string>)
    ensures Concat(chunks) == text && Decode(chunks) == Interpret(BareAll(Lines(text)), FRESH)
  {
    var head, tail := CutOpen(text);
    var before, u := Dawdle(head);
    hide Open, Split, Stands;
    var kept, folded, w := ReadOn(before, u, tail);
    NoLines(tail);
    assert "" + tail == tail && folded + [] == folded;
    BareAllAppend(Lines(head), "");
    BareStays(folded);
    LinesConcat(head, tail);
    ConcatAppend(before, tail);
    chunks := before + [tail];
    assert kept + folded == BareAll(Lines(head));
    assert Lines(head) + [] == Lines(head);
    StandsReads(chunks, w);
    hide Lines;
  }

  lemma {:induction false} CutOpen(text: string) returns (head: string, tail: string)
    ensures text == head + tail && Closed(head) && '\n' !in tail
  {
    if Closed(text) {
      head, tail := text, "";
    } else {
      var h, t := CutOpen(text[..|text| - 1]);
      head, tail := h, t + [text[|text| - 1]];
    }
  }
}
