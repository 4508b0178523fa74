/** Texts whose messages depend on the chunks in other ways than by a data line's end. */
module StreamWitnesses {
  import opened Text
  import opened EventStream
  import opened StreamTheorems
  import opened StreamMessages
  import opened StreamReadings
  import opened StreamInvariance
  import StreamRoundTrip

  function Ended(lines: seq<string>): string {
    if lines == [] then "" else lines[0] + "\n" + Ended(lines[1..])
  }

  ghost predicate OneLined(lines: seq<string>) {
    forall l | l in lines :: '\n' !in l
  }

  lemma {:induction false} EndedText(lines: seq<string>)
    requires OneLined(lines)
    ensures Lines(Ended(lines)) == lines && Closed(Ended(lines)) && Fold(Ended(lines)) == Ended(StripAll(lines))
    ensures "" !in lines ==> NoBlank(Ended(lines)) && !StartsWithLf(Ended(lines))
  {
    if lines == [] {
      Nothing();
      EmptyText();
    } else {
      var l, rest := lines[0], lines[1..];
      assert lines == [l] + rest;
      EndedText(rest);
      assert StripAll(lines)[1..] == StripAll(rest);
      assert Closed(Ended(lines)) && !EndsWithCr(l + "\n");
      hide Fold, Strip, StripAll, Lines;
      FoldClosed(l);
      FoldConcat(l + "\n", Ended(rest));
      LinesCons(l, Ended(rest));
      if "" !in lines { NoBlankThrough(l, Ended(rest)); }
    }
  }

  lemma NoBlankThrough(l: string, s: string)
    requires '\n' !in l && l != "" && NoBlank(s) && !StartsWithLf(s)
    ensures NoBlank(l + "\n" + s)
  {
    var t := l + "\n" + s;
    forall j ensures !BlankAt(t, j) {
      assert 0 <= j < |l| ==> t[j] == l[j];
      assert !BlankAt(s, j - |l| - 1);
    }
  }

  lemma {:induction false} EndedConcat(a: seq<string>, b: seq<string>)
    ensures Ended(a + b) == Ended(a) + Ended(b)
  {
    if a == [] {
      assert a + b == b;
    } else {
      assert (a + b)[1..] == a[1..] + b;
      EndedConcat(a[1..], b);
    }
  }

  lemma StripKeepsOneLined(lines: seq<string>)
    requires OneLined(lines)
    ensures OneLined(StripAll(lines))
  {
    StripAllAt(lines);
    forall l | l in StripAll(lines) ensures '\n' !in l {
      var i :| 0 <= i < |lines| && l == Strip(lines[i]);
      assert lines[i] in lines;
    }
  }

  lemma WholeReading(lines: seq<string>)
    requires OneLined(lines)
    ensures Decode([Ended(lines)]) == Interpret(StripAll(lines), FRESH)
  {
    EndedText(lines);
    DecodeWhole(Ended(lines));
  }

  /** Read in two chunks, of which the first holds no blank line yet, its lines are folded twice. */
  lemma CutReading(a: seq<string>, b: seq<string>)
    requires OneLined(a) && OneLined(b) && "" !in StripAll(a)
    ensures Decode([Ended(a), Ended(b)]) == Interpret(StripAll(StripAll(a) + b), FRESH)
  {
    var c := StripAll(a);
    StripKeepsOneLined(a);
    hide Fold, StripAll, Drain, Read, ReadBlock, Split, Ended, Closed, Interpret, ReadBlocks;
    EndedText(a);
    EndedText(c);
    DrainNothing(Ended(c));
    EndedConcat(c, b);
    EndedText(c + b);
    ReadTwo(Ended(a), Ended(b));
    var d := Drain(Fold(Ended(c + b)));
    assert [] + d.blocks == d.blocks;
    BlocksReadLikeLines(Ended(StripAll(c + b)));
    StripKeepsOneLined(c + b);
    EndedText(StripAll(c + b));
  }

  lemma InterpretOne(l: string, later: seq<string>, f: Fields)
    ensures Interpret([l] + later, f) ==
      if l == "" then Emit(f) + Interpret(later, FRESH) else Interpret(later, ReadLine(l, f))
  {
    assert ([l] + later)[1..] == later;
    hide Emit, ReadLine;
  }

  lemma CrLine(crs: string, f: Fields)
    requires crs == "\r" || crs == "\r\r"
    ensures ReadLine(crs, f) == f && Strip(crs) == crs[1..] && Strip(crs + "\r") == crs
  {
    assert "event:"[0] == 'e' && "data:"[0] == 'd' && crs[0] == '\r';
  }

  lemma EmitData(event: string, a: string, b: string)
    ensures Emit(Fields(event, [a])) == [Message(event, a)]
    ensures Emit(Fields(event, [a, b])) == [Message(event, a + "\n" + b)]
  {
    assert [a, b][1..] == [b];
    assert Join([a, b]) == a + "\n" + Join([b]);
  }

  lemma ReadDatum(value: string, f: Fields)
    ensures var l := "data: " + value;
      l != "" && ReadLine(l, f) == f.(data := f.data + [value])
  {
    StreamRoundTrip.ReadDataLine(value, f);
  }

  lemma ReadTwoLines(p: string, r: string, later: seq<string>, f: Fields)
    requires p != ""
    ensures Interpret([p, r] + later, f) ==
      if r == "" then Emit(ReadLine(p, f)) + Interpret(later, FRESH) else Interpret(later, ReadLine(r, ReadLine(p, f)))
  {
    hide Interpret, ReadLine, Emit;
    assert [p, r] + later == [p] + ([r] + later);
    InterpretOne(p, [r] + later, f);
    InterpretOne(r, later, ReadLine(p, f));
  }

  lemma ReadFour(p: string, r: string, q: string)
    requires p != "" && q != ""
    ensures var f := ReadLine(p, FRESH);
      Interpret([p, r, q, ""], FRESH) ==
      if r == "" then Emit(f) + Emit(ReadLine(q, FRESH)) else Emit(ReadLine(q, ReadLine(r, f)))
  {
    hide Interpret, ReadLine, Emit;
    assert [p, r, q, ""] == [p, r] + ([q, ""] + []);
    ReadTwoLines(p, r, [q, ""] + [], FRESH);
    ReadTwoLines(q, "", [], if r == "" then FRESH else ReadLine(r, ReadLine(p, FRESH)));
    InterpretEmpty();
  }

  /** Two data lines of a block with a line r between them, blank or not. */
  lemma ReadParted(r: string)
    requires r == "" || r == "\r"
    ensures Interpret(["data: a", r, "data: b", ""], FRESH) ==
      if r == "" then [Message("message", "a"), Message("message", "b")] else [Message("message", "a\nb")]
  {
    hide Interpret, ReadLine, Emit;
    var p, q := "data: " + "a", "data: " + "b";
    var f := Fields("message", ["a"]);
    ReadFour(p, r, q);
    ReadDatum("a", FRESH);
    ReadDatum("b", if r == "" then FRESH else f);
    if r != "" { CrLine(r, f); }
    EmitData("message", "a", "b");
    EmitData("message", "b", "b");
    assert [] + ["a"] == ["a"] && [] + ["b"] == ["b"] && ["a"] + ["b"] == ["a", "b"] && "a" + "\n" + "b" == "a\nb";
    assert p == "data: a" && q == "data: b";
  }

  lemma InterpretEmpty()
    ensures Interpret([], FRESH) == []
  {
  }

  lemma EndedTwo(p: string, r: string)
    ensures Ended([p, r]) == p + "\n" + r + "\n"
  {
    assert [p, r][1..] == [r] && [r][1..] == [];
    assert Ended([r]) == r + "\n" + "";
    assert p + "\n" + (r + "\n" + "") == p + "\n" + r + "\n";
  }

  /** A line of two carriage returns parts a block in two when the text is cut after it. */
  lemma SoftLinePartsMessages()
    ensures var x, z := "data: a\n\r\r\n", "data: b\n\n";
      && Decode([x + z]) == [Message("message", "a\nb")]
      && Decode([x, z]) == [Message("message", "a"), Message("message", "b")]
  {
    var p, q, crs := "data: a", "data: b", "\r\r";
    hide Strip, StripAll, Decode, Ended, Interpret;
    PartedText();
    EndedConcat([p, crs], [q, ""]);
    StripParted(crs);
    StripParted("\r");
    WholeReading([p, crs, q, ""]);
    CutReading([p, crs], [q, ""]);
    ReadParted("\r");
    ReadParted("");
    assert [p, crs] + [q, ""] == [p, crs, q, ""] && [p, "\r"] + [q, ""] == [p, "\r", q, ""];
  }

  lemma PartedText()
    ensures Ended(["data: a", "\r\r"]) == "data: a\n\r\r\n" && Ended(["data: b", ""]) == "data: b\n\n"
  {
    hide Ended;
    EndedTwo("data: a", "\r\r");
    EndedTwo("data: b", "");
  }

  lemma StripParted(crs: string)
    requires crs == "\r\r" || crs == "\r"
    ensures StripAll(["data: a", crs]) == ["data: a", crs[1..]]
    ensures StripAll(["data: a", crs, "data: b", ""]) == ["data: a", crs[1..], "data: b", ""]
  {
    StripAllAt(["data: a", crs]);
    StripAllAt(["data: a", crs, "data: b", ""]);
    CrLine(crs, FRESH);
  }

  lemma TrimWord(name: string)
    requires name != "" && !IsSpace(name[0]) && !IsSpace(name[|name| - 1])
    ensures Trim(name) == name
  {
  }

  lemma ReadName(name: string, f: Fields)
    requires name != "" && !IsSpace(name[0]) && !IsSpace(name[|name| - 1])
    ensures var l := "event: " + name; l != "" && ReadLine(l, f) == f.(event := name)
  {
    var l := "event: " + name;
    TrimWord(name);
    hide ReadLine, Trim, IsSpace;
    StreamRoundTrip.ReadEventLine(name);
    assert l[..6] == "event:";
    EventRead(l, l, f);
  }

  /** One data line and two names, with lines r and t before each of them. */
  lemma ReadNamed(r: string, t: string)
    requires r == "" || r == "\r" || r == "\r\r"
    requires t == "" || t == "\r"
    ensures Interpret(["data: d", r, "event: y", t, "event: message", ""], FRESH) ==
      [Message(if r != "" && t == "" then "y" else "message", "d")]
  {
    hide Interpret, ReadLine, Emit;
    var d, y, m := "data: " + "d", "event: " + "y", "event: " + "message";
    var f := Fields("message", ["d"]);
    var g := if r == "" then FRESH else f;
    var h := if t == "" then FRESH else g.(event := "y");
    ReadDatum("d", FRESH);
    assert [] + ["d"] == ["d"];
    if r != "" { CrLine(r, f); }
    if t != "" { CrLine(t, g.(event := "y")); }
    ReadName("y", g);
    ReadName("message", h);
    ReadLines6(d, r, y, t, m);
    EmitData("message", "d", "d");
    EmitData("y", "d", "d");
    EmitNone("y");
    EmitNone("message");
    assert ReadLine(d, FRESH) == f && ReadLine(y, g) == g.(event := "y") && ReadLine(m, h) == h.(event := "message");
    assert d == "data: d" && y == "event: y" && m == "event: message";
    var first := if r == "" then Emit(f) else [];
    var second := if t == "" then Emit(g.(event := "y")) else [];
    assert Interpret([d, r, y, t, m, ""], FRESH) == first + (second + Emit(h.(event := "message")));
  }

  lemma EmitNone(event: string)
    ensures Emit(Fields(event, [])) == []
  {
  }

  lemma ReadLines6(d: string, r: string, y: string, t: string, m: string)
    requires d != "" && y != "" && m != ""
    ensures var f := ReadLine(d, FRESH); var g := if r == "" then FRESH else ReadLine(r, f);
      var h := if t == "" then FRESH else ReadLine(t, ReadLine(y, g));
      Interpret([d, r, y, t, m, ""], FRESH) ==
      (if r == "" then Emit(f) else []) + ((if t == "" then Emit(ReadLine(y, g)) else []) + Emit(ReadLine(m, h)))
  {
    hide Interpret, ReadLine, Emit;
    var f := ReadLine(d, FRESH);
    var g := if r == "" then FRESH else ReadLine(r, f);
    var h := if t == "" then FRESH else ReadLine(t, ReadLine(y, g));
    InPairs(d, r, y, t, m);
    ReadTwoLines(d, r, [y, t] + ([m, ""] + []), FRESH);
    ReadTwoLines(y, t, [m, ""] + [], g);
    ReadTwoLines(m, "", [], h);
    InterpretEmpty();
  }

  lemma InPairs(d: string, r: string, y: string, t: string, m: string)
    ensures [d, r, y, t, m, ""] == [d, r] + ([y, t] + ([m, ""] + []))
  {
  }

  /** Where a block names two events, equal barest and whole readings are not enough: a cut in between can deliver
      the data under another name. */
  lemma TwoNamesNeedMore()
    ensures var x, z := "data: d\n\r\r\r\nevent: y\n\r\r\n", "event: message\n\n"; var lines := Lines(x + z);
      && Interpret(BareAll(lines), FRESH) == Interpret(StripAll(lines), FRESH)
      && Decode([x + z]) == [Message("message", "d")]
      && Decode([x, z]) == [Message("y", "d")]
  {
    var d, y, m := "data: d", "event: y", "event: message";
    var a, b, all := [d, "\r\r\r", y, "\r\r"], [m, ""], [d, "\r\r\r", y, "\r\r", m, ""];
    NamedText();
    NamedLines();
    hide Strip, StripAll, Bare, BareAll, Decode, Ended, Interpret, Lines;
    EndedConcat(a, b);
    assert a + b == all && [d, "\r\r", y, "\r"] + b == [d, "\r\r", y, "\r", m, ""];
    EndedText(all);
    WholeReading(all);
    CutReading(a, b);
    ReadNamed("\r\r", "\r");
    ReadNamed("", "");
    ReadNamed("\r", "");
  }

  lemma NamedText()
    ensures Ended(["data: d", "\r\r\r", "event: y", "\r\r"]) == "data: d\n\r\r\r\nevent: y\n\r\r\n"
    ensures Ended(["event: message", ""]) == "event: message\n\n"
  {
    EndedTwo("data: d", "\r\r\r");
    EndedTwo("event: y", "\r\r");
    EndedTwo("event: message", "");
    EndedConcat(["data: d", "\r\r\r"], ["event: y", "\r\r"]);
    assert ["data: d", "\r\r\r"] + ["event: y", "\r\r"] == ["data: d", "\r\r\r", "event: y", "\r\r"];
    hide Ended;
  }

  lemma StripSix(d: string, r: string, y: string, t: string, m: string)
    requires !EndsWithCr(d) && !EndsWithCr(y) && !EndsWithCr(m)
    ensures StripAll([d, r, y, t]) == [d, Strip(r), y, Strip(t)]
    ensures StripAll([d, r, y, t, m, ""]) == [d, Strip(r), y, Strip(t), m, ""]
  {
    StripAllAt([d, r, y, t]);
    StripAllAt([d, r, y, t, m, ""]);
    assert Strip(d) == d && Strip(y) == y && Strip(m) == m && Strip("") == "";
    hide Strip, StripAll;
  }

  lemma BareSix(d: string, r: string, y: string, t: string, m: string)
    requires !EndsWithCr(d) && !EndsWithCr(y) && !EndsWithCr(m)
    ensures BareAll([d, r, y, t, m, ""]) == [d, Bare(r), y, Bare(t), m, ""]
  {
    assert Bare(d) == d && Bare(y) == y && Bare(m) == m && Bare("") == "";
    hide Bare;
  }

  lemma NamedLines()
    ensures var d, y, m := "data: d", "event: y", "event: message";
      && StripAll([d, "\r\r\r", y, "\r\r"]) == [d, "\r\r", y, "\r"]
      && StripAll([d, "\r\r\r", y, "\r\r", m, ""]) == [d, "\r\r", y, "\r", m, ""]
      && StripAll([d, "\r\r", y, "\r", m, ""]) == [d, "\r", y, "", m, ""]
      && BareAll([d, "\r\r\r", y, "\r\r", m, ""]) == [d, "", y, "", m, ""]
  {
    var d, y, m := "data: d", "event: y", "event: message";
    StripSix(d, "\r\r\r", y, "\r\r", m);
    StripSix(d, "\r\r", y, "\r", m);
    BareSix(d, "\r\r\r", y, "\r\r", m);
    hide StripAll, BareAll;
    CrLine("\r", FRESH);
    CrLine("\r\r", FRESH);
    BareCrs();
    assert "\r\r" + "\r" == "\r\r\r" && "\r" + "\r" == "\r\r" && "\r"[1..] == "";
  }

  lemma BareCrs()
    ensures Bare("\r\r\r") == "" && Bare("\r\r") == "" && Bare("\r") == "" && Bare("") == ""
  {
    assert "\r"[..0] == "" && "\r\r"[..1] == "\r" && "\r\r\r"[..2] == "\r\r";
  }
}
