/** Printing messages as an event stream and decoding them again. */
module StreamRoundTrip {
  import opened Text
  import opened EventStream
  import opened StreamTheorems
  import opened StreamMessages

  function Unlines(lines: seq<string>): string {
    if lines == [] then "" else lines[0] + "\n" + Unlines(lines[1..])
  }

  function DataLines(pieces: seq<string>): seq<string> {
    if pieces == [] then [] else ["data: " + pieces[0]] + DataLines(pieces[1..])
  }

  function MessageLines(m: Message): seq<string> {
    ["event: " + m.event] + (DataLines(Split(m.data)) + [""])
  }

  function AllLines(ms: seq<Message>): seq<string> {
    if ms == [] then [] else MessageLines(ms[0]) + AllLines(ms[1..])
  }

  /** An `event:` line, one `data:` line per line of data, and a blank line, for every message. */
  function Print(ms: seq<Message>): string {
    Unlines(AllLines(ms))
  }

  /** The name is non-empty, trimmed and on one line. */
  ghost predicate Named(m: Message) {
    m.event != "" && Trim(m.event) == m.event && '\n' !in m.event
  }

  /** No line of the data ends in a carriage return. */
  ghost predicate CleanLines(m: Message) {
    forall k | 0 <= k < |Split(m.data)| :: !EndsWithCr(Split(m.data)[k])
  }

  ghost predicate Printable(m: Message) {
    Named(m) && CleanLines(m)
  }

  ghost predicate OneLiners(lines: seq<string>) {
    forall l | l in lines :: '\n' !in l
  }

  ghost predicate NoneEndsWithCr(lines: seq<string>) {
    forall l | l in lines :: !EndsWithCr(l)
  }

  // ---------------------------------------------------------------- decoding what was printed

  lemma {:induction false} LinesUnlines(lines: seq<string>)
    requires OneLiners(lines)
    ensures Lines(Unlines(lines)) == lines
  {
    if lines != [] {
      LinesUnlines(lines[1..]);
      LinesCons(lines[0], Unlines(lines[1..]));
    }
  }

  lemma NoCrlfJoin(x: string, y: string)
    requires NoCrlf(x) && NoCrlf(y) && !EndsWithCr(x)
    ensures NoCrlf(x + y)
  {
    forall i ensures !CrlfAt(x + y, i) { assert !CrlfAt(x, i) && !CrlfAt(y, i - |x|); }
  }

  lemma {:induction false} CleanUnlines(lines: seq<string>)
    requires OneLiners(lines) && NoneEndsWithCr(lines)
    ensures NoCrlf(Unlines(lines))
  {
    if lines != [] {
      CleanUnlines(lines[1..]);
      var line := lines[0];
      assert !EndsWithCr(line) && '\n' !in line;
      assert NoCrlf(line + "\n");
      NoCrlfJoin(line + "\n", Unlines(lines[1..]));
    }
  }

  lemma {:induction false} DataLinesShape(pieces: seq<string>)
    ensures |DataLines(pieces)| == |pieces|
    ensures forall k | 0 <= k < |pieces| :: DataLines(pieces)[k] == "data: " + pieces[k]
  {
    if pieces != [] { DataLinesShape(pieces[1..]); }
  }

  lemma MessageLinesAreClean(m: Message)
    requires Printable(m)
    ensures OneLiners(MessageLines(m)) && NoneEndsWithCr(MessageLines(m))
  {
    SplitJoin(m.data);
    var pieces := Split(m.data);
    DataLinesShape(pieces);
    assert IsSpace('\r');
    assert !EndsWithCr(m.event) by { assert m.event == Trim(m.event); }
    hide Split, DataLines, Trim;
    forall l | l in MessageLines(m) ensures '\n' !in l && !EndsWithCr(l) {
      if l in DataLines(pieces) {
        var k :| 0 <= k < |pieces| && DataLines(pieces)[k] == l;
        assert l == "data: " + pieces[k] && !EndsWithCr(pieces[k]);
      } else {
        assert l == "event: " + m.event || l == "";
      }
    }
  }

  lemma {:induction false} AllLinesAreClean(ms: seq<Message>)
    requires forall m | m in ms :: Printable(m)
    ensures OneLiners(AllLines(ms)) && NoneEndsWithCr(AllLines(ms))
  {
    if ms != [] {
      AllLinesAreClean(ms[1..]);
      MessageLinesAreClean(ms[0]);
    }
  }

  lemma TrimSpaced(name: string)
    requires Trim(name) == name && name != ""
    ensures Trim(" " + name) == name
  {
    assert IsSpace(' ');
    hide IsSpace, TrimEnd;
    assert !IsSpace(name[0]);
    assert (" " + name)[1..] == name;
  }

  lemma ReadEventLine(name: string)
    requires Trim(name) == name && name != ""
    ensures ReadLine("event: " + name, FRESH) == Fields(name, [])
  {
    hide Trim;
    TrimSpaced(name);
    NamedLine(" " + name);
    assert "event: " + name == "event:" + (" " + name);
  }

  lemma NamedLine(value: string)
    requires Trim(value) != ""
    ensures ReadLine("event:" + value, FRESH) == Fields(Trim(value), [])
  {
    hide Trim;
    var line := "event:" + value;
    assert StartsWith(line, "event:") && line[6..] == value;
  }

  lemma ReadDataLine(piece: string, f: Fields)
    ensures ReadLine("data: " + piece, f) == f.(data := f.data + [piece])
  {
    var line := "data: " + piece;
    assert line[..5] == "data:" && line[0] != "event:"[0];
    assert line[5..] == " " + piece && (" " + piece)[1..] == piece;
  }

  lemma {:induction false} InterpretData(pieces: seq<string>, f: Fields, later: seq<string>)
    ensures Interpret(DataLines(pieces) + [""] + later, f) ==
      Emit(f.(data := f.data + pieces)) + Interpret(later, FRESH)
  {
    hide ReadLine;
    var all := DataLines(pieces) + [""] + later;
    if pieces == [] {
      assert all[0] == "" && all[1..] == later;
      assert f.data + [] == f.data;
    } else {
      assert all[0] == "data: " + pieces[0];
      assert all[1..] == DataLines(pieces[1..]) + [""] + later;
      ReadDataLine(pieces[0], f);
      var g := f.(data := f.data + [pieces[0]]);
      hide DataLines;
      InterpretData(pieces[1..], g, later);
      assert g.data + pieces[1..] == f.data + pieces;
    }
  }

  lemma InterpretEvent(name: string, later: seq<string>)
    requires Trim(name) == name && name != ""
    ensures Interpret(["event: " + name] + later, FRESH) == Interpret(later, Fields(name, []))
  {
    ReadEventLine(name);
    hide ReadLine, Trim, FRESH;
    var all := ["event: " + name] + later;
    assert all[0] != "" && all[1..] == later;
  }

  lemma InterpretMessage(m: Message, later: seq<string>)
    requires Named(m)
    ensures Interpret(MessageLines(m) + later, FRESH) == [m] + Interpret(later, FRESH)
  {
    hide ReadLine, DataLines, Trim, Interpret;
    var pieces := Split(m.data);
    SplitJoin(m.data);
    hide Split;
    var data := DataLines(pieces) + [""];
    Assoc(["event: " + m.event], data, later);
    InterpretEvent(m.event, data + later);
    InterpretData(pieces, Fields(m.event, []), later);
    assert [] + pieces == pieces;
  }

  lemma {:induction false} InterpretAll(ms: seq<Message>)
    requires forall m | m in ms :: Named(m)
    ensures Interpret(AllLines(ms), FRESH) == ms
  {
    hide MessageLines, Named, FRESH;
    if ms == [] {
      assert AllLines([]) == [];
    } else {
      assert AllLines(ms) == MessageLines(ms[0]) + AllLines(ms[1..]);
      hide Interpret, AllLines;
      InterpretAll(ms[1..]);
      InterpretMessage(ms[0], AllLines(ms[1..]));
      assert [ms[0]] + ms[1..] == ms;
    }
  }

  lemma CleanHasNoCrCrlf(s: string)
    requires NoCrlf(s)
    ensures NoCrCrlf(s)
  {
    forall i ensures !CrCrlfAt(s, i) { assert !CrlfAt(s, i + 1); }
  }

  /** Round trip: printable messages come back unchanged under any chunking of their printed text. */
  lemma RoundTrip(ms: seq<Message>, chunks: seq<string>)
    requires forall m | m in ms :: Printable(m)
    requires Concat(chunks) == Print(ms)
    ensures Decode(chunks) == ms
  {
    AllLinesAreClean(ms);
    CleanUnlines(AllLines(ms));
    CleanHasNoCrCrlf(Print(ms));
    DecodeReadsLines(chunks);
    FoldClean(Print(ms));
    LinesUnlines(AllLines(ms));
    InterpretAll(ms);
  }

  // ---------------------------------------------------------------- what cannot come back

  lemma SubstringKeepsOut(c: char, s: string, from: nat, to: nat)
    requires from <= to <= |s| && c !in s
    ensures c !in s[from..to]
  {
  }

  lemma {:induction false} TrimStartStays(s: string)
    requires s == "" || !IsSpace(s[0])
    ensures TrimStart(s) == s
  {
  }

  lemma TrimTrims(s: string)
    ensures Trim(Trim(s)) == Trim(s)
  {
    TrimStartStays(Trim(s));
  }

  ghost predicate NamedSoFar(f: Fields) {
    f.event != "" && Trim(f.event) == f.event && '\n' !in f.event
  }

  lemma TrimKeepsOut(c: char, s: string)
    requires c !in s
    ensures c !in Trim(s)
  {
    var from, to := TrimCutsSpace(s);
    hide Trim;
    SubstringKeepsOut(c, s, from, to);
  }

  lemma ReadLineNames(line: string, f: Fields)
    requires '\n' !in line && NamedSoFar(f)
    ensures NamedSoFar(ReadLine(line, f))
  {
    MessageIsTrimmed();
    hide Trim;
    if StartsWith(line, "event:") {
      TrimTrims(line[6..]);
      TrimKeepsOut('\n', line[6..]);
    }
  }

  lemma MessageIsTrimmed()
    ensures NamedSoFar(FRESH)
  {
    var name := "message";
    assert !IsSpace('m') && !IsSpace('e');
    assert name[0] == 'm' && name[6] == 'e';
    hide IsSpace;
    TrimStartStays(name);
  }

  /** Every message the line reading hands out has a non-empty, trimmed, one-line name. */
  lemma {:induction false} InterpretNames(lines: seq<string>, f: Fields, m: Message)
    requires OneLiners(lines) && NamedSoFar(f) && m in Interpret(lines, f)
    ensures Named(m)
  {
    hide NamedSoFar, Named, FRESH, Emit, ReadLine, OneLiners;
    if lines != [] {
      var rest := lines[1..];
      OneLinersTail(lines);
      if lines[0] == "" {
        MessageIsTrimmed();
        if m in Emit(f) {
          EmitNames(f);
        } else {
          InterpretNames(rest, FRESH, m);
        }
      } else {
        ReadLineNames(lines[0], f);
        InterpretNames(rest, ReadLine(lines[0], f), m);
      }
    }
  }

  lemma OneLinersTail(lines: seq<string>)
    requires OneLiners(lines) && lines != []
    ensures OneLiners(lines[1..]) && '\n' !in lines[0]
  {
  }

  lemma EmitNames(f: Fields)
    requires NamedSoFar(f)
    ensures forall m | m in Emit(f) :: Named(m)
  {
    hide Trim;
  }

  ghost function MessageCrs(ms: seq<Message>): nat {
    if ms == [] then 0 else Crs(ms[0].event) + Crs(ms[0].data) + MessageCrs(ms[1..])
  }

  lemma {:induction false} MessageCrsConcat(a: seq<Message>, b: seq<Message>)
    ensures MessageCrs(a + b) == MessageCrs(a) + MessageCrs(b)
  {
    if a == [] {
      assert a + b == b;
    } else {
      assert (a + b)[1..] == a[1..] + b;
      MessageCrsConcat(a[1..], b);
    }
  }

  lemma {:induction false} SplitCrs(s: string)
    ensures CrsOf(Split(s)) == Crs(s)
  {
    if s == "" {
      OneCrs("");
    } else {
      SplitCrs(s[1..]);
      CrsCut(s, 1);
      assert s[..1] == [s[0]];
      var rest := Split(s[1..]);
      hide Split;
      if s[0] == '\n' {
        CrsOfConcat([""], rest);
        OneCrs("");
      } else {
        CrsOfConcat([rest[0]], rest[1..]);
        assert [rest[0]] + rest[1..] == rest;
        CrsOfConcat([[s[0]] + rest[0]], rest[1..]);
        CrsJoin([s[0]], rest[0]);
        OneCrs(rest[0]);
        OneCrs([s[0]] + rest[0]);
      }
    }
  }

  lemma SubstringCrs(s: string, from: nat, to: nat)
    requires from <= to <= |s|
    ensures Crs(s[from..to]) <= Crs(s)
  {
    CrsCut(s, to);
    CrsCut(s[..to], from);
    assert s[..to][from..] == s[from..to];
  }

  ghost function FieldCrs(f: Fields): nat {
    Crs(f.event) + CrsOf(f.data)
  }

  lemma ReadLineCrs(line: string, f: Fields)
    ensures FieldCrs(ReadLine(line, f)) <= FieldCrs(f) + Crs(line)
  {
    if StartsWith(line, "event:") {
      NameCrs(line);
      hide Trim, Crs;
      assert ReadLine(line, f).data == f.data;
      assert Crs("message") == 0 by { NoCrs(); }
    } else {
      LineCrs(line, f);
      hide Crs, Trim;
      assert ReadLine(line, f).event == f.event;
    }
  }

  lemma NoCrs()
    ensures Crs("message") == 0
  {
  }

  lemma NameCrs(line: string)
    requires StartsWith(line, "event:")
    ensures Crs(Trim(line[6..])) <= Crs(line)
  {
    var from, to := TrimCutsSpace(line[6..]);
    hide Trim;
    SubstringCrs(line, 6, |line|);
    assert line[6..|line|] == line[6..];
    SubstringCrs(line[6..], from, to);
  }

  lemma {:induction false} ReadLinesCrs(lines: seq<string>, f: Fields)
    ensures FieldCrs(ReadLines(lines, f)) <= FieldCrs(f) + CrsOf(lines)
  {
    if lines != [] {
      ReadLineCrs(lines[0], f);
      hide ReadLine, FieldCrs;
      ReadLinesCrs(lines[1..], ReadLine(lines[0], f));
    }
  }

  /** Decoding never delivers more carriage returns than the blocks held. */
  lemma {:induction false} BlocksCrs(blocks: seq<string>)
    ensures MessageCrs(ReadBlocks(blocks)) <= CrsOf(blocks)
  {
    if blocks != [] {
      var block := blocks[0];
      BlocksCrs(blocks[1..]);
      BlockFields(block);
      SplitCrs(block);
      ReadLinesCrs(Split(block), FRESH);
      hide Split, ReadLines, ReadBlock;
      var f := ReadLines(Split(block), FRESH);
      if f.data != [] {
        JoinedCrs(f.data);
        assert Emit(f)[1..] == [];
      }
      MessageCrsConcat(ReadBlock(block), ReadBlocks(blocks[1..]));
    }
  }

  lemma {:induction false} UnlinesCrs(lines: seq<string>)
    ensures Crs(Unlines(lines)) == CrsOf(lines)
  {
    if lines != [] {
      UnlinesCrs(lines[1..]);
      CrsJoin(lines[0] + "\n", Unlines(lines[1..]));
      CrsJoin(lines[0], "\n");
    }
  }

  lemma {:induction false} DataLinesCrs(pieces: seq<string>)
    ensures CrsOf(DataLines(pieces)) == CrsOf(pieces)
  {
    if pieces != [] {
      DataLinesCrs(pieces[1..]);
      CrsJoin("data: ", pieces[0]);
      OneCrs("data: " + pieces[0]);
      CrsOfConcat(["data: " + pieces[0]], DataLines(pieces[1..]));
    }
  }

  lemma {:induction false} PrintCrs(ms: seq<Message>)
    ensures CrsOf(AllLines(ms)) == MessageCrs(ms)
  {
    if ms != [] {
      PrintCrs(ms[1..]);
      MessageLinesCrs(ms[0]);
      hide MessageLines;
      CrsOfConcat(MessageLines(ms[0]), AllLines(ms[1..]));
    }
  }

  lemma MessageLinesCrs(m: Message)
    ensures CrsOf(MessageLines(m)) == Crs(m.event) + Crs(m.data)
  {
    hide Split, DataLines, Crs;
    var data := DataLines(Split(m.data));
    DataLinesCrs(Split(m.data));
    SplitCrs(m.data);
    CrsOfConcat(["event: " + m.event], data + [""]);
    CrsOfConcat(data, [""]);
    OneCrs("");
    OneCrs("event: " + m.event);
    CrsJoin("event: ", m.event);
    assert Crs("") == 0 && Crs("event: ") == 0 by { NoneInLabels(); }
  }

  lemma NoneInLabels()
    ensures Crs("") == 0 && Crs("event: ") == 0
  {
  }

  lemma {:induction false} NoPairsIsClean(s: string)
    requires Pairs(s) == 0
    ensures NoCrlf(s)
  {
    if |s| >= 2 {
      NoPairsIsClean(s[1..]);
      forall i ensures !CrlfAt(s, i) { assert !CrlfAt(s[1..], i - 1); }
    }
  }

  lemma {:induction false} CleanLinesOf(lines: seq<string>)
    requires NoCrlf(Unlines(lines))
    ensures NoneEndsWithCr(lines)
  {
    if lines != [] {
      var rest := Unlines(lines[1..]);
      var text := lines[0] + "\n" + rest;
      assert !CrlfAt(text, |lines[0]| - 1);
      forall i ensures !CrlfAt(rest, i) { assert !CrlfAt(text, i + |lines[0]| + 1); }
      CleanLinesOf(lines[1..]);
    }
  }

  lemma {:induction false} MessageLinesIn(ms: seq<Message>, m: Message)
    requires m in ms
    ensures forall l | l in MessageLines(m) :: l in AllLines(ms)
  {
    hide MessageLines;
    if ms[0] != m { MessageLinesIn(ms[1..], m); }
  }

  lemma PiecesAreClean(m: Message)
    requires NoneEndsWithCr(MessageLines(m))
    ensures CleanLines(m)
  {
    var pieces := Split(m.data);
    DataLinesShape(pieces);
    hide Split, DataLines;
    forall k | 0 <= k < |pieces| ensures !EndsWithCr(pieces[k]) {
      var line := DataLines(pieces)[k];
      assert line in MessageLines(m);
      assert !EndsWithCr(line) && line == "data: " + pieces[k];
    }
  }

  /** Exactly when printing round-trips: when every message is printable. */
  lemma RoundTripExactly(ms: seq<Message>)
    ensures Decode([Print(ms)]) == ms <==> forall m | m in ms :: Printable(m)
  {
    var p := Print(ms);
    CutTwice(p, "");
    assert p + "" == p;
    if forall m | m in ms :: Printable(m) {
      RoundTrip(ms, [p]);
    } else if Decode([p]) == ms {
      ReadOne(p);
      hide Print, Fold, Read, Concat, Printable, Named, CleanLines;
      DecodedAreNamed(p);
      CrsSurvive(ms, p);
      NoPairsIsClean(p);
      assert p == Unlines(AllLines(ms)) by { PrintIs(ms); }
      CleanLinesOf(AllLines(ms));
      forall m | m in ms ensures Printable(m) {
        MessageLinesIn(ms, m);
        PiecesAreClean(m);
        BothPrintable(m);
      }
    }
  }

  lemma PrintIs(ms: seq<Message>)
    ensures Print(ms) == Unlines(AllLines(ms))
  {
  }

  lemma BothPrintable(m: Message)
    requires Named(m) && CleanLines(m)
    ensures Printable(m)
  {
  }

  lemma DecodedAreNamed(p: string)
    ensures forall m | m in Decode([p]) :: Named(m)
  {
    ReadOne(p);
    BlocksReadLikeLines(Fold(p));
    SplitJoin(Fold(p));
    MessageIsTrimmed();
    hide Fold, Read, Split, Named, NamedSoFar, Interpret, FRESH;
    forall m | m in Decode([p]) ensures Named(m) {
      InterpretNames(Lines(Fold(p)), FRESH, m);
    }
  }

  lemma CrsSurvive(ms: seq<Message>, p: string)
    requires p == Print(ms) && Decode([p]) == ms
    ensures Pairs(p) == 0
  {
    ReadOne(p);
    UnlinesCrs(AllLines(ms));
    hide Fold, Read, Unlines, AllLines, Pairs;
    PrintCrs(ms);
    FoldCrs(p);
    DrainCrs(Fold(p));
    BlocksCrs(Drain(Fold(p)).blocks);
  }

  // ---------------------------------------------------------------- every way of writing a message

  /** A data line without a blank after the colon is read whole; nothing but one leading blank is ever taken off. */
  lemma ReadBareDataLine(value: string, f: Fields)
    requires value == "" || value[0] != ' '
    ensures ReadLine("data:" + value, f) == f.(data := f.data + [value])
  {
    var line := "data:" + value;
    assert line[..5] == "data:" && line[0] != "event:"[0];
    assert line[5..] == value;
  }

  /** An event line sets the name to what is left after trimming, or back to the default when nothing is. */
  lemma ReadAnyEventLine(value: string, f: Fields)
    ensures ReadLine("event:" + value, f) == f.(event := if Trim(value) == "" then "message" else Trim(value))
  {
    hide Trim;
    var line := "event:" + value;
    assert line[..6] == "event:" && line[6..] == value;
  }

  ghost predicate WritesData(line: string, piece: string) {
    line == "data: " + piece || (line == "data:" + piece && (piece == "" || piece[0] != ' '))
  }

  /** The name on an event line, with any white space around it, or left out, or blank, when it is the default; a data
      line, with or without the blank, for every line of the data. */
  ghost predicate Writes(m: Message, head: seq<string>, data: seq<string>) {
    && (head == [] ==> m.event == "message")
    && |head| <= 1
    && (|head| == 1 ==> exists value: string ::
          head[0] == "event:" + value && m.event == if Trim(value) == "" then "message" else Trim(value))
    && |data| == |Split(m.data)| && forall k | 0 <= k < |data| :: WritesData(data[k], Split(m.data)[k])
  }

  function Forms(forms: seq<(seq<string>, seq<string>)>): seq<string> {
    if forms == [] then [] else forms[0].0 + (forms[0].1 + [""] + Forms(forms[1..]))
  }

  lemma ReadWritten(line: string, piece: string, f: Fields)
    requires WritesData(line, piece)
    ensures line != "" && ReadLine(line, f) == f.(data := f.data + [piece])
  {
    hide ReadLine;
    if line == "data: " + piece { ReadDataLine(piece, f); } else { ReadBareDataLine(piece, f); }
  }

  lemma {:induction false} InterpretWritten(data: seq<string>, pieces: seq<string>, f: Fields, later: seq<string>)
    requires |data| == |pieces| && forall k | 0 <= k < |data| :: WritesData(data[k], pieces[k])
    ensures Interpret(data + [""] + later, f) == Emit(f.(data := f.data + pieces)) + Interpret(later, FRESH)
  {
    hide ReadLine, WritesData;
    var all := data + [""] + later;
    if data == [] {
      assert all[0] == "" && all[1..] == later;
      assert f.data + pieces == f.data;
    } else {
      ReadWritten(data[0], pieces[0], f);
      assert all[0] == data[0] && all[1..] == data[1..] + [""] + later;
      var g := f.(data := f.data + [pieces[0]]);
      InterpretWritten(data[1..], pieces[1..], g, later);
      assert g.data + pieces[1..] == f.data + pieces;
    }
  }

  lemma InterpretHead(m: Message, head: seq<string>, data: seq<string>, later: seq<string>)
    requires Writes(m, head, data)
    ensures Interpret(head + later, FRESH) == Interpret(later, Fields(m.event, []))
  {
    hide Trim, ReadLine;
    if head == [] {
      assert head + later == later;
    } else {
      var value: string :|
        head[0] == "event:" + value && m.event == if Trim(value) == "" then "message" else Trim(value);
      ReadAnyEventLine(value, FRESH);
      var all := head + later;
      assert all[0] == head[0] && all[1..] == later;
    }
  }

  lemma InterpretForm(m: Message, head: seq<string>, data: seq<string>, later: seq<string>)
    requires Writes(m, head, data)
    ensures Interpret(head + (data + [""] + later), FRESH) == [m] + Interpret(later, FRESH)
  {
    InterpretHead(m, head, data, data + [""] + later);
    assert |data| == |Split(m.data)| && forall k | 0 <= k < |data| :: WritesData(data[k], Split(m.data)[k]);
    hide Interpret, Split, Writes, WritesData;
    InterpretWritten(data, Split(m.data), Fields(m.event, []), later);
    SplitJoin(m.data);
    assert [] + Split(m.data) == Split(m.data);
  }

  lemma {:induction false} InterpretForms(ms: seq<Message>, forms: seq<(seq<string>, seq<string>)>)
    requires |ms| == |forms| && forall i | 0 <= i < |ms| :: Writes(ms[i], forms[i].0, forms[i].1)
    ensures Interpret(Forms(forms), FRESH) == ms
  {
    hide Interpret, Writes;
    if ms == [] {
      NoMessages();
    } else {
      InterpretForms(ms[1..], forms[1..]);
      InterpretForm(ms[0], forms[0].0, forms[0].1, Forms(forms[1..]));
      assert [ms[0]] + ms[1..] == ms;
    }
  }

  lemma NoMessages()
    ensures Interpret([], FRESH) == []
  {
  }

  /** Round trip for every way of writing the messages: with or without the blank on each data line, the name padded,
      or left out when it is the default; under any chunking, as long as no line ends in a carriage return. */
  lemma RoundTripAnyForm(ms: seq<Message>, forms: seq<(seq<string>, seq<string>)>, chunks: seq<string>)
    requires |ms| == |forms| && forall i | 0 <= i < |ms| :: Writes(ms[i], forms[i].0, forms[i].1)
    requires OneLiners(Forms(forms)) && NoneEndsWithCr(Forms(forms)) && Concat(chunks) == Unlines(Forms(forms))
    ensures Decode(chunks) == ms
  {
    var lines := Forms(forms);
    hide Writes, Forms, Decode;
    CleanUnlines(lines);
    CleanHasNoCrCrlf(Unlines(lines));
    DecodeReadsLines(chunks);
    FoldClean(Unlines(lines));
    LinesUnlines(lines);
    InterpretForms(ms, forms);
  }
}
