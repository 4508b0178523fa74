/** String primitives the event-stream decoder leans on, with the facts about them that the
    decoder's correctness needs: CRLF folding, blank-line search and newline splitting. */
module Text {

  ghost predicate CrlfAt(s: string, i: int) {
    0 <= i < |s| - 1 && s[i] == '\r' && s[i + 1] == '\n'
  }

  ghost predicate CrCrlfAt(s: string, i: int) {
    0 <= i < |s| - 2 && s[i] == '\r' && s[i + 1] == '\r' && s[i + 2] == '\n'
  }

  ghost predicate BlankAt(s: string, i: int) {
    0 <= i < |s| - 1 && s[i] == '\n' && s[i + 1] == '\n'
  }

  /** No line feed is preceded by a carriage return. */
  ghost predicate NoCrlf(s: string) {
    forall i :: !CrlfAt(s, i)
  }

  /** No CRLF pair is itself preceded by a carriage return. */
  ghost predicate NoCrCrlf(s: string) {
    forall i :: !CrCrlfAt(s, i)
  }

  ghost predicate NoBlank(s: string) {
    forall i :: !BlankAt(s, i)
  }

  ghost predicate FirstBlank(s: string, i: int) {
    BlankAt(s, i) && forall j | j < i :: !BlankAt(s, j)
  }

  lemma Assoc<T>(a: seq<T>, b: seq<T>, c: seq<T>)
    ensures a + b + c == a + (b + c)
  {
  }

  lemma AppendCancels(a: string, b: string, c: string)
    requires a + c == b + c
    ensures a == b
  {
    assert |a + c| == |b + c|;
    assert a == (a + c)[..|a|] && b == (b + c)[..|b|];
  }

  predicate EndsWithCr(s: string) {
    |s| > 0 && s[|s| - 1] == '\r'
  }

  predicate StartsWithLf(s: string) {
    |s| > 0 && s[0] == '\n'
  }

  /** One left-to-right pass replacing every CRLF pair by a line feed. */
  function Fold(s: string): string {
    if |s| < 2 then s
    else if s[0] == '\r' && s[1] == '\n' then "\n" + Fold(s[2..])
    else [s[0]] + Fold(s[1..])
  }

  lemma {:induction false} FoldEnds(s: string)
    requires |s| > 0
    ensures 0 < |Fold(s)| <= |s|
    ensures Fold(s)[|Fold(s)| - 1] == s[|s| - 1]
    ensures Fold(s)[0] == s[0] || (|s| > 1 && s[0] == '\r' && s[1] == '\n' && Fold(s)[0] == '\n')
  {
    if |s| < 2 {
    } else if s[0] == '\r' && s[1] == '\n' {
      var rest := Fold(s[2..]);
      assert Fold(s) == "\n" + rest;
      if |s| > 2 { FoldEnds(s[2..]); }
      hide Fold;
    } else {
      FoldEnds(s[1..]);
      var rest := Fold(s[1..]);
      assert Fold(s) == [s[0]] + rest;
      hide Fold;
    }
  }

  lemma FoldAfterOne(x: string, y: string)
    requires |x| == 1 && !(EndsWithCr(x) && StartsWithLf(y))
    ensures Fold(x + y) == x + Fold(y) && Fold(x) == x
  {
    if |y| > 0 { assert (x + y)[1..] == y; } else { assert x + y == x; }
  }

  /** Folding distributes over a cut that does not split a CRLF pair. */
  lemma {:induction false} FoldConcat(x: string, y: string)
    requires !(EndsWithCr(x) && StartsWithLf(y))
    ensures Fold(x + y) == Fold(x) + Fold(y)
  {
    if |x| == 0 {
      assert x + y == y;
    } else if |x| == 1 {
      FoldAfterOne(x, y);
    } else if x[0] == '\r' && x[1] == '\n' {
      assert (x + y)[2..] == x[2..] + y;
      FoldConcat(x[2..], y);
      Assoc("\n", Fold(x[2..]), Fold(y));
    } else {
      assert (x + y)[1..] == x[1..] + y;
      FoldConcat(x[1..], y);
      Assoc([x[0]], Fold(x[1..]), Fold(y));
    }
  }

  lemma {:induction false} FoldClean(s: string)
    requires NoCrlf(s)
    ensures Fold(s) == s
  {
    if |s| >= 2 {
      assert !CrlfAt(s, 0);
      forall i ensures !CrlfAt(s[1..], i) { assert !CrlfAt(s, i + 1); }
      FoldClean(s[1..]);
    }
  }

  lemma DropKeepsNoCrCrlf(s: string, n: nat)
    requires NoCrCrlf(s) && n <= |s|
    ensures NoCrCrlf(s[n..])
  {
    forall i ensures !CrCrlfAt(s[n..], i) { assert !CrCrlfAt(s, i + n); }
  }

  /** Folding leaves a CRLF pair behind only where the text had CR CR LF. */
  lemma {:induction false} FoldRemovesCrlf(s: string)
    requires NoCrCrlf(s)
    ensures NoCrlf(Fold(s))
  {
    if |s| < 2 {
    } else if s[0] == '\r' && s[1] == '\n' {
      DropKeepsNoCrCrlf(s, 2);
      FoldRemovesCrlf(s[2..]);
      forall i ensures !CrlfAt(Fold(s), i) { assert !CrlfAt(Fold(s[2..]), i - 1); }
    } else {
      DropKeepsNoCrCrlf(s, 1);
      FoldRemovesCrlf(s[1..]);
      FoldEnds(s[1..]);
      assert !CrCrlfAt(s, 0);
      forall i ensures !CrlfAt(Fold(s), i) { assert !CrlfAt(Fold(s[1..]), i - 1); }
    }
  }

  lemma DropLast(p: string) returns (q: string)
    requires EndsWithCr(p)
    ensures p == q + "\r"
  {
    q := p[..|p| - 1];
  }

  lemma PrefixKeepsNoCrlf(x: string, y: string)
    requires NoCrlf(x + y)
    ensures NoCrlf(x)
  {
    forall i ensures !CrlfAt(x, i) { assert !CrlfAt(x + y, i); }
  }

  /** Folding a prefix early changes nothing, provided the whole has no CR CR LF. */
  lemma {:induction false} FoldResume(p: string, c: string)
    requires NoCrCrlf(p + c)
    ensures Fold(Fold(p) + c) == Fold(p + c)
  {
    assert NoCrCrlf(p) by { Prefix(p, c); }
    FoldRemovesCrlf(p);
    FoldClean(Fold(p));
    if EndsWithCr(p) && StartsWithLf(c) {
      var q := DropLast(p);
      assert Fold("\r") == "\r";
      hide Fold, NoCrCrlf, NoCrlf;
      FoldConcat(q, "\r");
      FoldConcat(q, "\r" + c);
      Assoc(q, "\r", c);
      PrefixKeepsNoCrlf(Fold(q), "\r");
      FoldClean(Fold(q));
      FoldConcat(Fold(q), "\r" + c);
      Assoc(Fold(q), "\r", c);
    } else {
      if |p| > 0 { FoldEnds(p); }
      FoldConcat(p, c);
      FoldConcat(Fold(p), c);
    }
  }

  lemma Prefix(p: string, c: string)
    requires NoCrCrlf(p + c)
    ensures NoCrCrlf(p)
  {
    forall i ensures !CrCrlfAt(p, i) { assert !CrCrlfAt(p + c, i); }
  }

  /** Position of the leftmost blank line (two adjacent line feeds), or -1. */
  function IndexOfBlank(s: string): (i: int)
    ensures i < 0 ==> i == -1 && NoBlank(s)
    ensures i >= 0 ==> i + 1 < |s| && FirstBlank(s, i)
  {
    BlankFrom(s, 0)
  }

  function BlankFrom(s: string, from: nat): (i: int)
    requires forall j | j < from :: !BlankAt(s, j)
    ensures i < 0 ==> i == -1 && NoBlank(s)
    ensures i >= 0 ==> i + 1 < |s| && FirstBlank(s, i)
    decreases |s| - from
  {
    if from + 1 >= |s| then -1
    else if s[from] == '\n' && s[from + 1] == '\n' then from
    else BlankFrom(s, from + 1)
  }

  lemma IndexOfBlankUnique(s: string, i: int)
    requires FirstBlank(s, i)
    ensures IndexOfBlank(s) == i
  {
  }

  /** Splitting at every line feed; the last piece is what follows the last one. */
  function Split(s: string): (pieces: seq<string>)
    ensures |pieces| > 0
  {
    if s == "" then [""]
    else if s[0] == '\n' then [""] + Split(s[1..])
    else
      var rest := Split(s[1..]);
      [[s[0]] + rest[0]] + rest[1..]
  }

  /** The pieces put back together with line feeds between them. */
  function Join(pieces: seq<string>): string
    requires |pieces| > 0
  {
    if |pieces| == 1 then pieces[0] else pieces[0] + "\n" + Join(pieces[1..])
  }

  lemma {:induction false} SplitJoin(s: string)
    ensures Join(Split(s)) == s
    ensures forall k | 0 <= k < |Split(s)| :: '\n' !in Split(s)[k]
  {
    if s != "" {
      SplitJoin(s[1..]);
      var rest := Split(s[1..]);
      if s[0] == '\n' {
        assert Split(s)[1..] == rest;
      } else {
        assert Split(s)[1..] == rest[1..];
        if |rest| == 1 { assert Split(s) == [[s[0]] + rest[0]]; }
        assert s == [s[0]] + s[1..];
      }
    }
  }

  lemma {:induction false} SplitPiece(line: string, rest: string)
    requires '\n' !in line
    ensures Split(line + "\n" + rest) == [line] + Split(rest)
  {
    var t := line + "\n" + rest;
    if line == "" {
      assert t[1..] == rest;
    } else {
      assert t[1..] == line[1..] + "\n" + rest;
      SplitPiece(line[1..], rest);
      assert [line[0]] + line[1..] == line;
    }
  }

  lemma {:induction false} SplitSingle(line: string)
    requires '\n' !in line
    ensures Split(line) == [line]
  {
    if line != "" {
      SplitSingle(line[1..]);
      assert [line[0]] + line[1..] == line;
    }
  }

  /** The lines of a text that are closed by a line feed. */
  function Lines(s: string): seq<string> {
    var pieces := Split(s);
    pieces[..|pieces| - 1]
  }

  lemma LinesCons(line: string, rest: string)
    requires '\n' !in line
    ensures Lines(line + "\n" + rest) == [line] + Lines(rest)
  {
    SplitPiece(line, rest);
  }

  predicate StartsWith(s: string, prefix: string) {
    prefix <= s
  }

  /** White space and line terminators, the characters trimming removes. */
  predicate IsSpace(c: char) {
    c in {'\t', '\n', '\U{0B}', '\U{0C}', '\r', ' ', '\U{A0}', '\U{1680}', '\U{2028}', '\U{2029}', '\U{202F}',
          '\U{205F}', '\U{3000}', '\U{FEFF}'} || '\U{2000}' <= c <= '\U{200A}'
  }

  function TrimStart(s: string): (r: string)
    ensures r == "" || !IsSpace(r[0])
    ensures |r| <= |s| && r == s[|s| - |r|..]
  {
    if s != "" && IsSpace(s[0]) then TrimStart(s[1..]) else s
  }

  function TrimEnd(s: string): (r: string)
    ensures r == "" || !IsSpace(r[|r| - 1])
    ensures r <= s
  {
    if s != "" && IsSpace(s[|s| - 1]) then TrimEnd(s[..|s| - 1]) else s
  }

  function Trim(s: string): (r: string)
    ensures r == "" || (!IsSpace(r[0]) && !IsSpace(r[|r| - 1]))
  {
    TrimEnd(TrimStart(s))
  }

  lemma {:induction false} TrimStartCuts(s: string)
    ensures forall i | 0 <= i < |s| - |TrimStart(s)| :: IsSpace(s[i])
  {
    if s != "" && IsSpace(s[0]) {
      TrimStartCuts(s[1..]);
      forall i | 0 < i < |s| - |TrimStart(s)| ensures IsSpace(s[i]) { assert s[i] == s[1..][i - 1]; }
    }
  }

  lemma {:induction false} TrimEndCuts(s: string)
    ensures forall i | |TrimEnd(s)| <= i < |s| :: IsSpace(s[i])
  {
    if s != "" && IsSpace(s[|s| - 1]) { TrimEndCuts(s[..|s| - 1]); }
  }

  /** Trimming keeps one stretch of the text, and all around it was white space. */
  lemma TrimCutsSpace(s: string) returns (from: nat, to: nat)
    ensures from <= to <= |s| && Trim(s) == s[from..to]
    ensures forall i | 0 <= i < |s| && !(from <= i < to) :: IsSpace(s[i])
  {
    var t := TrimStart(s);
    var u := TrimEnd(t);
    TrimStartCuts(s);
    TrimEndCuts(t);
    assert Trim(s) == u;
    hide IsSpace, TrimStart, TrimEnd, Trim;
    from, to := |s| - |t|, |s| - |t| + |u|;
    CutTwoEnds(s, t, u);
  }

  lemma CutTwoEnds(s: string, t: string, u: string)
    requires |t| <= |s| && t == s[|s| - |t|..] && u <= t
    requires forall i | 0 <= i < |s| - |t| :: IsSpace(s[i])
    requires forall i | |u| <= i < |t| :: IsSpace(t[i])
    ensures u == s[|s| - |t|..|s| - |t| + |u|]
    ensures forall i | 0 <= i < |s| && !(|s| - |t| <= i < |s| - |t| + |u|) :: IsSpace(s[i])
  {
    hide IsSpace;
    forall i | |s| - |t| + |u| <= i < |s| ensures IsSpace(s[i]) { assert s[i] == t[i - (|s| - |t|)]; }
  }

  ghost predicate Terminated(text: string) {
    |text| >= 2 && text[|text| - 1] == '\n' && text[|text| - 2] == '\n'
  }

  lemma TerminatedAfter(head: string, tail: string)
    requires tail == "" || Terminated(tail)
    ensures Terminated(head + "\n\n" + tail)
  {
  }

  /** Closed by a blank line as the decoder looks for one: once CRLF has been folded. */
  ghost predicate ClosedByBlankLine(text: string) {
    Terminated(Fold(text))
  }

  lemma ClosedEnds(text: string)
    requires ClosedByBlankLine(text)
    ensures text != "" && text[|text| - 1] == '\n' && !EndsWithCr(text)
  {
    if text != "" { FoldEnds(text); }
  }

  /** How many carriage returns a text holds. */
  ghost function Crs(s: string): nat {
    multiset(s)['\r']
  }

  /** How many CRLF pairs one folding pass removes. */
  ghost function Pairs(s: string): nat {
    if |s| < 2 then 0
    else if s[0] == '\r' && s[1] == '\n' then 1 + Pairs(s[2..])
    else Pairs(s[1..])
  }

  lemma {:induction false} FoldCrs(s: string)
    ensures Crs(Fold(s)) + Pairs(s) == Crs(s)
  {
    if |s| < 2 {
    } else if s[0] == '\r' && s[1] == '\n' {
      FoldCrs(s[2..]);
      CrsCut(s, 2);
      CrsJoin("\n", Fold(s[2..]));
      hide Fold;
      assert s[..2] == ['\r', '\n'];
    } else {
      FoldCrs(s[1..]);
      CrsCut(s, 1);
      CrsJoin([s[0]], Fold(s[1..]));
      hide Fold;
      assert s[..1] == [s[0]];
    }
  }

  lemma CrsCut(s: string, n: nat)
    requires n <= |s|
    ensures Crs(s) == Crs(s[..n]) + Crs(s[n..])
  {
    assert s == s[..n] + s[n..];
  }

  lemma CrsJoin(x: string, y: string)
    ensures Crs(x + y) == Crs(x) + Crs(y)
  {
  }

  lemma {:induction false} PairsConcat(x: string, y: string)
    requires !(EndsWithCr(x) && StartsWithLf(y))
    ensures Pairs(x + y) == Pairs(x) + Pairs(y)
  {
    if |x| == 0 {
      assert x + y == y;
    } else if |x| == 1 {
      if |y| > 0 { assert (x + y)[1..] == y; } else { assert x + y == x; }
    } else if x[0] == '\r' && x[1] == '\n' {
      assert (x + y)[2..] == x[2..] + y;
      PairsConcat(x[2..], y);
    } else {
      assert (x + y)[1..] == x[1..] + y;
      PairsConcat(x[1..], y);
    }
  }

  /** White space by code point: the blanks and line ends that the language standard (ECMA-262, section 22.1.3.32)
      has trimming remove. */
  lemma SpacesByCode(c: char)
    ensures var spaces :=
        {0x9, 0xA, 0xB, 0xC, 0xD, 0x20, 0xA0, 0x1680, 0x2000, 0x2001, 0x2002, 0x2003, 0x2004, 0x2005, 0x2006, 0x2007,
         0x2008, 0x2009, 0x200A, 0x2028, 0x2029, 0x202F, 0x205F, 0x3000, 0xFEFF};
      IsSpace(c) <==> c as int in spaces
  {
  }
}
