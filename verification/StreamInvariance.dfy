/** Exactly when the delivered messages do not depend on how the text is cut: when reading its lines without any
    carriage return at their end is the same as reading them with one taken off. */
module StreamInvariance {
  import opened Text
  import opened EventStream
  import opened StreamTheorems
  import opened StreamMessages
  import opened StreamReadings

  // ---------------------------------------------------------------- what peeling does to one line

  /** A line that is blank under every chunking. */
  predicate Hard(l: string) {
    l == "" || l == "\r"
  }

  /** A line of nothing but carriage returns, blank under some chunkings and not under others. */
  predicate Soft(l: string) {
    !Hard(l) && Bare(l) == ""
  }

  predicate IsEvent(l: string) {
    StartsWith(l, "event:")
  }

  function NameOf(l: string): string {
    ReadLine(l, FRESH).event
  }

  lemma {:induction false} TrimStartCr(s: string)
    ensures TrimStart(s + "\r") == if TrimStart(s) == "" then "" else TrimStart(s) + "\r"
  {
    if s == "" {
      assert "\r"[1..] == "";
    } else {
      assert (s + "\r")[1..] == s[1..] + "\r";
      TrimStartCr(s[1..]);
    }
  }

  lemma TrimOneCr(s: string)
    ensures Trim(s + "\r") == Trim(s)
  {
    TrimStartCr(s);
    var t := TrimStart(s);
    hide TrimStart;
    if t != "" { assert (t + "\r")[..|t|] == t && TrimEnd(t + "\r") == TrimEnd((t + "\r")[..|t|]); }
  }

  lemma {:induction false} TrimCrs(s: string, t: string)
    requires s <= t && forall i | |s| <= i < |t| :: t[i] == '\r'
    ensures Trim(t) == Trim(s)
    decreases |t|
  {
    hide Trim;
    if |s| == |t| {
      assert s == t;
    } else {
      var u := t[..|t| - 1];
      assert t == u + "\r";
      TrimCrs(s, u);
      TrimOneCr(u);
    }
  }

  lemma PeeledCrs(l: string, p: string)
    requires Peels(l, p)
    ensures p <= l && forall i | |p| <= i < |l| :: l[i] == '\r'
  {
    BareIsPrefix(l);
  }

  lemma PrefixStays(l: string, p: string, prefix: string)
    requires p <= l && (forall i | |p| <= i < |l| :: l[i] == '\r')
    requires prefix != "" && '\r' !in prefix
    ensures prefix <= l <==> prefix <= p
  {
    var n := if |p| < |prefix| then |p| else 0;
    assert prefix <= l ==> l[n] == prefix[n];
  }

  lemma EventRead(l: string, p: string, f: Fields)
    requires IsEvent(l) && IsEvent(p) && Trim(p[6..]) == Trim(l[6..])
    ensures ReadLine(p, f) == f.(event := NameOf(l))
  {
  }

  lemma NotOnlyCrs(l: string)
    requires l != "" && l[0] != '\r'
    ensures !Hard(l) && !Soft(l)
  {
    BareIsPrefix(l);
    hide Bare;
  }

  lemma PeeledEvent(l: string, p: string, f: Fields)
    requires Peels(l, p)
    ensures IsEvent(p) <==> IsEvent(l)
    ensures IsEvent(l) ==> ReadLine(p, f) == f.(event := NameOf(l)) && !Hard(l) && !Soft(l) && p != ""
  {
    PeeledCrs(l, p);
    PrefixStays(l, p, "event:");
    hide Peels, Hard, Soft, ReadLine, Trim;
    if IsEvent(l) {
      TrimCrs(p[6..], l[6..]);
      EventRead(l, p, f);
      NotOnlyCrs(l);
    }
  }

  lemma PeeledData(l: string, p: string, f: Fields)
    requires Peels(l, p)
    ensures IsData(p) <==> IsData(l)
    ensures IsData(l) ==> !Hard(l) && !Soft(l) && !IsEvent(l) && p != "" && ReadLine(p, f).event == f.event
    ensures IsData(l) && Bare(l) == Strip(l) ==> p == Strip(l)
    ensures IsData(l) ==> |ReadLine(p, f).data| == |f.data| + 1
  {
    PeeledCrs(l, p);
    PrefixStays(l, p, "data:");
    BareIsPrefix(l);
    hide Bare;
    if IsData(l) {
      assert l[0] == 'd' && "event:"[0] == 'e' && p[0] == 'd';
    }
  }

  /** Hard lines are blank, soft ones may be, others never are; what is neither data nor event says nothing. */
  lemma PeeledBlank(l: string, p: string, f: Fields)
    requires Peels(l, p)
    ensures Hard(l) ==> p == ""
    ensures p == "" ==> Hard(l) || Soft(l)
    ensures !IsData(l) && !IsEvent(l) ==> ReadLine(p, f) == f
    ensures Strip(l) == "" <==> Hard(l)
  {
    PeeledEvent(l, p, f);
    PeeledData(l, p, f);
    BareIsPrefix(l);
    if !IsData(l) && !IsEvent(l) { SaysNothing(p, f); }
    hide IsData, IsEvent, Bare;
  }

  lemma SaysNothing(p: string, f: Fields)
    requires !IsData(p) && !IsEvent(p)
    ensures ReadLine(p, f) == f
  {
  }

  // ---------------------------------------------------------------- how many messages

  lemma {:induction false} InterpretCut(x: seq<string>, y: seq<string>, f: Fields)
    ensures Interpret(x + [""] + y, f) == Interpret(x + [""], f) + Interpret(y, FRESH)
  {
    hide ReadLine, Emit;
    var all, some := x + [""] + y, x + [""];
    if x == [] {
      assert all[1..] == y && some[1..] == [];
      assert Emit(f) + [] == Emit(f);
    } else {
      assert all[1..] == x[1..] + [""] + y && some[1..] == x[1..] + [""];
      InterpretCut(x[1..], y, if x[0] == "" then FRESH else ReadLine(x[0], f));
    }
  }

  ghost predicate HasData(lines: seq<string>) {
    exists l | l in lines :: IsData(l)
  }

  ghost predicate NoHard(lines: seq<string>) {
    forall l | l in lines :: !Hard(l)
  }

  /** Data is delivered, once at least, if a blank line follows, and nothing else is. */
  lemma {:induction false} DataSpeaks(ps: seq<string>, f: Fields)
    ensures HasData(ps) || f.data != [] ==> Interpret(ps + [""], f) != []
    ensures !HasData(ps) && f.data == [] ==> Interpret(ps, f) == [] && Interpret(ps + [""], f) == []
  {
    var all := ps + [""];
    if ps == [] {
      assert all[1..] == [];
    } else {
      assert all[1..] == ps[1..] + [""] && ps == [ps[0]] + ps[1..];
      DataSpeaks(ps[1..], if ps[0] == "" then FRESH else ReadLine(ps[0], f));
      LineData(ps[0], f);
      assert !IsData("");
      hide ReadLine, IsData;
    }
  }

  lemma LineData(l: string, f: Fields)
    ensures if IsData(l) then ReadLine(l, f).data != [] else ReadLine(l, f).data == f.data
  {
    if IsData(l) { assert l[0] == 'd' && "event:"[0] == 'e'; }
    hide Trim;
  }

  /** A block with one carriage return off its lines holds no blank line, so it delivers at most one message. */
  lemma WholeBlock(lines: seq<string>, f: Fields)
    requires NoHard(lines)
    ensures Interpret(StripAll(lines) + [""], f) == Emit(ReadLines(StripAll(lines), f))
    ensures Interpret(StripAll(lines), f) == []
    ensures |Emit(ReadLines(StripAll(lines), f))| <= 1
  {
    StripAllAt(lines);
    assert "" !in StripAll(lines) by { NoneBlank(lines); }
    InterpretBlock(StripAll(lines), [], f);
    InterpretOpen(StripAll(lines), f);
    assert StripAll(lines) + [""] + [] == StripAll(lines) + [""];
  }

  lemma NoneBlank(lines: seq<string>)
    requires NoHard(lines)
    ensures "" !in StripAll(lines)
  {
    StripAllAt(lines);
    forall i | 0 <= i < |lines| ensures StripAll(lines)[i] != "" {
      assert lines[i] in lines;
      assert EndsWithCr(lines[i]) ==> lines[i] == Strip(lines[i]) + "\r";
    }
  }

  lemma {:induction false} PeeledHasData(lines: seq<string>, ps: seq<string>)
    requires AllPeel(lines, ps)
    ensures HasData(ps) <==> HasData(lines)
  {
    forall i | 0 <= i < |lines| ensures IsData(ps[i]) <==> IsData(lines[i]) { PeeledData(lines[i], ps[i], FRESH); }
    if HasData(lines) {
      var i :| 0 <= i < |lines| && IsData(lines[i]);
      assert ps[i] in ps;
    }
    if HasData(ps) {
      var i :| 0 <= i < |ps| && IsData(ps[i]);
      assert lines[i] in lines;
    }
  }

  // ---------------------------------------------------------------- one block

  /** Lines of one block whose data lines end in one carriage return at most and whose events all have one name. */
  ghost predicate Uniform(lines: seq<string>, n: string) {
    forall l | l in lines :: !Hard(l) && (IsEvent(l) ==> NameOf(l) == n) && (IsData(l) ==> Bare(l) == Strip(l))
  }

  lemma UniformRest(lines: seq<string>, n: string)
    requires Uniform(lines, n) && lines != []
    ensures Uniform(lines[1..], n)
  {
    forall l | l in lines[1..] ensures l in lines {}
  }

  lemma InterpretHead(ps: seq<string>, f: Fields)
    requires ps != []
    ensures Interpret(ps + [""], f) ==
      if ps[0] == "" then Emit(f) + Interpret(ps[1..] + [""], FRESH) else Interpret(ps[1..] + [""], ReadLine(ps[0], f))
  {
    assert (ps + [""])[1..] == ps[1..] + [""];
    hide Emit, ReadLine;
  }

  lemma InterpretNone(f: Fields)
    ensures Interpret([] + [""], f) == Emit(f)
  {
    assert ([] + [""])[1..] == [];
    hide Emit;
  }

  lemma PeelRest(lines: seq<string>, ps: seq<string>)
    requires AllPeel(lines, ps) && lines != []
    ensures Peels(lines[0], ps[0]) && AllPeel(lines[1..], ps[1..])
    ensures Peels(lines[0], Strip(lines[0])) && Peels(lines[0], Bare(lines[0]))
    ensures StripAll(lines) == [Strip(lines[0])] + StripAll(lines[1..]) && BareAll(lines)[1..] == BareAll(lines[1..])
  {
    PeelsMore(lines[0], lines[0]);
    hide Peels, Strip, Bare;
  }

  function Grown(l: string, f: Fields, n: string): Fields {
    if IsEvent(l) then f.(event := n)
    else if IsData(l) then f.(data := f.data + ReadLine(Strip(l), FRESH).data)
    else f
  }

  /** What a line of a block does to the fields, whatever it has lost. */
  lemma UniformLine(l: string, p: string, f: Fields, n: string)
    requires Uniform([l], n) && Peels(l, p)
    ensures Strip(l) != ""
    ensures p == "" || ReadLine(p, f) == Grown(l, f, n)
    ensures IsData(l) ==> ReadLine(Strip(l), FRESH).data != [] && !IsEvent(l)
    ensures p == "" ==> Soft(l)
    ensures Soft(l) ==> !IsData(l) && !IsEvent(l)
  {
    assert l in [l];
    PeeledBlank(l, p, f);
    PeeledEvent(l, p, f);
    PeeledData(l, p, f);
    hide Bare, Strip, IsEvent, Hard, Soft, Peels;
    if IsData(l) { DataAppends(p, f); }
  }

  lemma DataAppends(p: string, f: Fields)
    requires IsData(p)
    ensures ReadLine(p, f) == f.(data := f.data + ReadLine(p, FRESH).data) && ReadLine(p, FRESH).data != []
  {
    assert p[0] == 'd' && "event:"[0] == 'e';
    hide Trim;
  }

  lemma FirstUniform(lines: seq<string>, n: string)
    requires Uniform(lines, n) && lines != []
    ensures Uniform([lines[0]], n) && Uniform(lines[1..], n)
  {
    UniformRest(lines, n);
  }

  /** The whole reading of a block: its name sticks, and its data grow only with data lines. */
  lemma {:induction false} NameSticks(lines: seq<string>, f: Fields, n: string)
    requires Uniform(lines, n)
    ensures var g := ReadLines(StripAll(lines), f);
      && (f.event == n || f.event == "message" ==> g.event == f.event || g.event == n)
      && (!HasData(lines) ==> g.data == f.data)
  {
    if lines != [] {
      FirstUniform(lines, n);
      StripPeels(lines, lines);
      PeelRest(lines, StripAll(lines));
      UniformLine(lines[0], Strip(lines[0]), f, n);
      assert !HasData(lines) ==> !IsData(lines[0]) && !HasData(lines[1..]) by { NoDataRest(lines); }
      assert StripAll(lines)[1..] == StripAll(lines[1..]);
      hide ReadLine, Uniform, Strip, StripAll, HasData, IsData, Bare;
      NameSticks(lines[1..], ReadLine(Strip(lines[0]), f), n);
    }
  }

  lemma NoDataRest(lines: seq<string>)
    requires lines != []
    ensures HasData(lines) <==> IsData(lines[0]) || HasData(lines[1..])
  {
    assert forall l :: l in lines <==> l == lines[0] || l in lines[1..];
    hide IsData;
  }

  /** The data have all been gathered: any reading hands them out under the name e that the whole one gives them. */
  lemma {:induction false} AfterTheData(lines: seq<string>, ps: seq<string>, fp: Fields, fs: Fields, n: string,
                                        e: string)
    requires Uniform(lines, n) && AllPeel(lines, ps) && !HasData(lines)
    requires fp.data == fs.data != [] && ReadLines(StripAll(lines), fs).event == e
    requires fp.event == "message" || fp.event == fs.event
    requires fs.event == "message" || fs.event == n
    requires e == "message" || e == fp.event == n
    ensures Interpret(ps + [""], fp) == [Message(e, Join(fs.data))]
  {
    NameSticks(lines, fs, n);
    if lines == [] {
      InterpretNone(fp);
    } else {
      FirstUniform(lines, n);
      PeelRest(lines, ps);
      var l, p := lines[0], ps[0];
      UniformLine(l, p, fp, n);
      UniformLine(l, Strip(l), fs, n);
      NoDataRest(lines);
      InterpretHead(ps, fp);
      assert StripAll(lines)[1..] == StripAll(lines[1..]);
      PeeledHasData(lines[1..], ps[1..]);
      hide Interpret, ReadLine, Uniform, Strip, StripAll, HasData, IsData, IsEvent, Bare, AllPeel, Peels, Join;
      if p == "" {
        DataSpeaks(ps[1..], FRESH);
        assert Emit(fp) + [] == Emit(fp);
      } else {
        AfterTheData(lines[1..], ps[1..], Grown(l, fp, n), Grown(l, fs, n), n, e);
      }
    }
  }

  /** When the barest reading of a block agrees with the whole one, so does every reading in between. */
  lemma {:induction false} BlockSandwich(lines: seq<string>, ps: seq<string>, fb: Fields, fp: Fields, fs: Fields,
                                         n: string)
    requires Uniform(lines, n) && AllPeel(lines, ps)
    requires fb.data == fp.data == fs.data
    requires fb.event == "message" || fb.event == fp.event
    requires fp.event == "message" || fp.event == fs.event
    requires fs.event == "message" || fs.event == n
    requires Interpret(BareAll(lines) + [""], fb) == Emit(ReadLines(StripAll(lines), fs))
    ensures Interpret(ps + [""], fp) == Emit(ReadLines(StripAll(lines), fs))
  {
    if lines == [] {
      InterpretNone(fb);
      InterpretNone(fp);
    } else {
      FirstUniform(lines, n);
      PeelRest(lines, ps);
      var l, p := lines[0], ps[0];
      UniformLine(l, p, fp, n);
      UniformLine(l, Strip(l), fs, n);
      UniformLine(l, Bare(l), fb, n);
      InterpretHead(ps, fp);
      InterpretHead(BareAll(lines), fb);
      assert StripAll(lines)[1..] == StripAll(lines[1..]);
      assert Soft(l) <==> Bare(l) == "";
      hide Interpret, ReadLine, Uniform, Strip, StripAll, HasData, IsData, IsEvent, Bare, AllPeel, Peels, Join, Soft;
      if Bare(l) != "" {
        BlockSandwich(lines[1..], ps[1..], Grown(l, fb, n), Grown(l, fp, n), Grown(l, fs, n), n);
      } else if fb.data == [] {
        assert Emit(fb) == [];
        BlockSandwich(lines[1..], ps[1..], FRESH, if p == "" then FRESH else fp, fs, n);
      } else {
        GatheredBefore(lines, fb, fs, n);
        AfterTheData(lines, ps, fp, fs, n, fb.event);
      }
    }
  }

  /** The barest reading has handed its data out at a soft line: none follow, and it gave them the right name. */
  lemma GatheredBefore(lines: seq<string>, fb: Fields, fs: Fields, n: string)
    requires Uniform(lines, n) && lines != [] && Soft(lines[0]) && fb.data == fs.data != []
    requires Emit(fb) + Interpret(BareAll(lines[1..]) + [""], FRESH) == Emit(ReadLines(StripAll(lines), fs))
    ensures !HasData(lines) && ReadLines(StripAll(lines), fs) == Fields(fb.event, fs.data)
  {
    FirstUniform(lines, n);
    UniformLine(lines[0], Strip(lines[0]), fs, n) by { PeelsMore(lines[0], lines[0]); }
    var rest := lines[1..];
    StripPeels(rest, rest);
    PeeledHasData(rest, BareAll(rest));
    NoDataRest(lines);
    DataSpeaks(BareAll(rest), FRESH);
    NameSticks(lines, fs, n);
    hide Interpret, ReadLine, ReadLines, Uniform, Strip, StripAll, HasData, IsData, Join, Soft;
    var g := ReadLines(StripAll(lines), fs);
    assert |Emit(g)| <= 1 && |Emit(fb)| == 1;
    assert Interpret(BareAll(rest) + [""], FRESH) == [];
    assert Emit(g)[0] == Emit(fb)[0];
  }

  /** No line depends on the chunks, or no two events of the stretch have different names. */
  ghost predicate Settled(lines: seq<string>) {
    (forall l | l in lines :: !Soft(l)) ||
    (forall l, m | l in lines && m in lines && IsEvent(l) && IsEvent(m) :: NameOf(l) == NameOf(m))
  }

  /** Without soft lines every reading of a block is the whole one. */
  lemma {:induction false} PlainBlock(lines: seq<string>, ps: seq<string>, f: Fields)
    requires AllPeel(lines, ps) && NoHard(lines)
    requires forall l | l in lines :: !Soft(l) && (IsData(l) ==> Bare(l) == Strip(l))
    ensures Interpret(ps + [""], f) == Emit(ReadLines(StripAll(lines), f))
  {
    if lines == [] {
      InterpretNone(f);
    } else {
      PeelRest(lines, ps);
      InterpretHead(ps, f);
      SameEitherWay(lines[0], ps[0], f);
      assert StripAll(lines)[1..] == StripAll(lines[1..]);
      hide Interpret, ReadLine, Emit, Strip, StripAll, Bare, AllPeel, Peels;
      PlainBlock(lines[1..], ps[1..], ReadLine(ps[0], f));
    }
  }

  lemma SameEitherWay(l: string, p: string, f: Fields)
    requires Peels(l, p) && Peels(l, Strip(l)) && !Hard(l) && !Soft(l) && (IsData(l) ==> Bare(l) == Strip(l))
    ensures p != "" && ReadLine(p, f) == ReadLine(Strip(l), f)
  {
    PeeledBlank(l, p, f);
    PeeledEvent(l, p, f);
    PeeledData(l, p, f);
    PeeledBlank(l, Strip(l), f);
    PeeledEvent(l, Strip(l), f);
    hide ReadLine, Strip, Bare, Hard, Soft, IsData, IsEvent, Peels;
  }

  lemma CrsLess(l: string)
    ensures Crs(Bare(l)) <= Crs(Strip(l)) && (Bare(l) != Strip(l) ==> Crs(Bare(l)) < Crs(Strip(l)))
    ensures IsData(Bare(l)) == IsData(Strip(l)) == IsData(l)
  {
    PeelsMore(l, l);
    PeeledData(l, Bare(l), FRESH);
    PeeledData(l, Strip(l), FRESH);
    BareIsPrefix(l);
    var b, t := Bare(l), Strip(l);
    assert t == b + t[|b|..];
    CrsJoin(b, t[|b|..]);
    assert b != t ==> t[|b|..][0] == '\r';
    hide IsData;
  }

  /** Equal readings deliver equally many carriage returns, so no data line has two of them at its end. */
  lemma {:induction false} EqualCrs(lines: seq<string>)
    ensures DataCrs(BareAll(lines)) <= DataCrs(StripAll(lines))
    ensures DataCrs(BareAll(lines)) == DataCrs(StripAll(lines)) ==>
      forall l | l in lines && IsData(l) :: Bare(l) == Strip(l)
  {
    if lines != [] {
      EqualCrs(lines[1..]);
      CrsLess(lines[0]);
      assert BareAll(lines)[1..] == BareAll(lines[1..]) && StripAll(lines)[1..] == StripAll(lines[1..]);
      assert forall l :: l in lines <==> l == lines[0] || l in lines[1..];
      hide IsData, Bare, Strip, Crs;
    }
  }

  lemma CleanBlock(lines: seq<string>)
    requires Interpret(BareAll(lines) + [""], FRESH) == Interpret(StripAll(lines) + [""], FRESH)
    ensures forall l | l in lines && IsData(l) :: Bare(l) == Strip(l)
  {
    var b, t := BareAll(lines), StripAll(lines);
    InterpretCrs(b + [""], FRESH);
    InterpretCrs(t + [""], FRESH);
    DataCrsConcat(b, [""]);
    DataCrsConcat(t, [""]);
    EqualCrs(lines);
    hide Interpret, DataCrs, BareAll, StripAll, Bare, Strip, IsData;
  }

  lemma BlockAgrees(lines: seq<string>, ps: seq<string>)
    requires AllPeel(lines, ps) && NoHard(lines) && Settled(lines)
    requires Interpret(BareAll(lines) + [""], FRESH) == Interpret(StripAll(lines) + [""], FRESH)
    ensures Interpret(ps + [""], FRESH) == Interpret(StripAll(lines) + [""], FRESH)
  {
    hide Interpret, BareAll, StripAll, Bare, Strip, IsData, IsEvent, NameOf, Hard, Soft, AllPeel;
    CleanBlock(lines);
    WholeBlock(lines, FRESH);
    if forall l | l in lines :: !Soft(l) {
      PlainBlock(lines, ps, FRESH);
    } else {
      var n := "message";
      if event :| event in lines && IsEvent(event) { n := NameOf(event); }
      assert Uniform(lines, n);
      BlockSandwich(lines, ps, FRESH, FRESH, FRESH, n);
    }
  }

  // ---------------------------------------------------------------- a whole text

  ghost predicate AllSettled(lines: seq<string>) {
    forall a, b | 0 <= a <= b <= |lines| && NoHard(lines[a..b]) :: Settled(lines[a..b])
  }

  lemma FirstHard(lines: seq<string>) returns (k: nat)
    requires !NoHard(lines)
    ensures k < |lines| && Hard(lines[k]) && NoHard(lines[..k])
  {
    k := 0;
    while !Hard(lines[k])
      invariant k < |lines| && NoHard(lines[..k]) && !NoHard(lines[k..])
      decreases |lines| - k
    {
      assert lines[k..] == [lines[k]] + lines[k + 1..] && lines[..k + 1] == lines[..k] + [lines[k]];
      k := k + 1;
    }
  }

  /** Every reading falls apart at a hard line. */
  lemma CutAtHard(lines: seq<string>, ps: seq<string>, k: nat)
    requires AllPeel(lines, ps) && k < |lines| && Hard(lines[k])
    ensures AllPeel(lines[..k], ps[..k]) && AllPeel(lines[k + 1..], ps[k + 1..])
    ensures Interpret(ps, FRESH) == Interpret(ps[..k] + [""], FRESH) + Interpret(ps[k + 1..], FRESH)
  {
    PeeledBlank(lines[k], ps[k], FRESH);
    assert ps == ps[..k] + [""] + ps[k + 1..];
    InterpretCut(ps[..k], ps[k + 1..], FRESH);
    hide Interpret, Peels;
  }

  lemma BothCut(lines: seq<string>, k: nat)
    requires k < |lines| && Hard(lines[k])
    ensures Interpret(BareAll(lines), FRESH) ==
      Interpret(BareAll(lines[..k]) + [""], FRESH) + Interpret(BareAll(lines[k + 1..]), FRESH)
    ensures Interpret(StripAll(lines), FRESH) ==
      Interpret(StripAll(lines[..k]) + [""], FRESH) + Interpret(StripAll(lines[k + 1..]), FRESH)
  {
    hide Interpret, BareAll, StripAll, AllPeel, Hard;
    StripPeels(lines, lines);
    SlicesOfAll(lines, k);
    SlicesOfAll(lines, k + 1);
    CutAtHard(lines, BareAll(lines), k);
    CutAtHard(lines, StripAll(lines), k);
  }

  lemma SlicesOfAll(lines: seq<string>, k: nat)
    requires k <= |lines|
    ensures |BareAll(lines)| == |StripAll(lines)| == |lines|
    ensures BareAll(lines)[..k] == BareAll(lines[..k]) && BareAll(lines)[k..] == BareAll(lines[k..])
    ensures StripAll(lines)[..k] == StripAll(lines[..k]) && StripAll(lines)[k..] == StripAll(lines[k..])
  {
    StripAllAt(lines);
    assert lines == lines[..k] + lines[k..];
    StripAllJoin(lines[..k], lines[k..]);
    StripAllAt(lines[..k]);
    hide Bare, Strip, StripAll;
  }

  lemma BlockMore(lines: seq<string>)
    requires NoHard(lines)
    ensures |Interpret(BareAll(lines) + [""], FRESH)| >= |Interpret(StripAll(lines) + [""], FRESH)|
  {
    WholeBlock(lines, FRESH);
    StripPeels(lines, lines);
    PeeledHasData(lines, BareAll(lines));
    PeeledHasData(lines, StripAll(lines));
    DataSpeaks(BareAll(lines), FRESH);
    DataSpeaks(StripAll(lines), FRESH);
    hide Interpret, BareAll, StripAll, HasData;
  }

  /** The barest reading delivers no fewer messages than the whole one. */
  lemma {:induction false} BareDeliversMore(lines: seq<string>)
    ensures |Interpret(BareAll(lines), FRESH)| >= |Interpret(StripAll(lines), FRESH)|
    decreases |lines|
  {
    hide Interpret, BareAll, StripAll;
    if NoHard(lines) {
      WholeBlock(lines, FRESH);
    } else {
      var k := FirstHard(lines);
      BothCut(lines, k);
      BlockMore(lines[..k]);
      BareDeliversMore(lines[k + 1..]);
    }
  }

  /** What the barest reading of an open block does not deliver, no reading does. */
  lemma {:induction false} OpenBlock(lines: seq<string>, ps: seq<string>, fb: Fields, fp: Fields)
    requires AllPeel(lines, ps) && NoHard(lines) && (fb.data == [] <==> fp.data == [])
    requires Interpret(BareAll(lines), fb) == []
    ensures Interpret(ps, fp) == []
  {
    if lines != [] {
      PeelRest(lines, ps);
      var l, b, p := lines[0], Bare(lines[0]), ps[0];
      assert l in lines;
      PeeledBlank(l, p, fp);
      PeeledBlank(l, b, fb);
      PeeledData(l, p, fp);
      PeeledData(l, b, fb);
      PeeledEvent(l, p, fp);
      PeeledEvent(l, b, fb);
      assert Soft(l) <==> b == "";
      hide ReadLine, Bare, Strip, Hard, Soft, IsData, IsEvent, Peels, StripAll;
      if b == "" {
        OpenBlock(lines[1..], ps[1..], FRESH, if p == "" then FRESH else fp);
      } else {
        OpenBlock(lines[1..], ps[1..], ReadLine(b, fb), ReadLine(p, fp));
      }
    }
  }

  lemma SplitEqual<T>(a: seq<T>, b: seq<T>, c: seq<T>, d: seq<T>)
    requires a + b == c + d && |a| >= |c| && |b| >= |d|
    ensures a == c && b == d
  {
    assert |a + b| == |c + d|;
    assert a == (a + b)[..|a|] && b == (a + b)[|a|..] && c == (c + d)[..|c|] && d == (c + d)[|c|..];
  }

  /** When the barest reading of a settled text agrees with the whole one, so does every reading in between. */
  lemma {:induction false} TextSandwich(lines: seq<string>, ps: seq<string>)
    requires AllPeel(lines, ps) && AllSettled(lines)
    requires Interpret(BareAll(lines), FRESH) == Interpret(StripAll(lines), FRESH)
    ensures Interpret(ps, FRESH) == Interpret(StripAll(lines), FRESH)
    decreases |lines|
  {
    assert |ps| == |lines|;
    hide Interpret, BareAll, StripAll, AllPeel, Settled, Hard;
    if NoHard(lines) {
      WholeBlock(lines, FRESH);
      OpenBlock(lines, ps, FRESH, FRESH);
    } else {
      var k := FirstHard(lines);
      var block, rest := lines[..k], lines[k + 1..];
      CutAtHard(lines, ps, k);
      BothCut(lines, k);
      BlockMore(block);
      BareDeliversMore(rest);
      SplitEqual(Interpret(BareAll(block) + [""], FRESH), Interpret(BareAll(rest), FRESH),
                 Interpret(StripAll(block) + [""], FRESH), Interpret(StripAll(rest), FRESH));
      assert Settled(block) by { assert block == lines[0..k]; }
      BlockAgrees(block, ps[..k]);
      SettledRest(lines, k);
      TextSandwich(rest, ps[k + 1..]);
    }
  }

  lemma SettledRest(lines: seq<string>, k: nat)
    requires AllSettled(lines) && k < |lines|
    ensures AllSettled(lines[k + 1..])
  {
    var rest := lines[k + 1..];
    hide Settled, NoHard;
    forall a, b | 0 <= a <= b <= |rest| && NoHard(rest[a..b]) ensures Settled(rest[a..b]) {
      assert rest[a..b] == lines[k + 1 + a..k + 1 + b];
    }
  }

  /** A text whose messages do not depend on the chunks reads the same without any carriage return at its lines'
      ends as with one taken off. */
  lemma InvariantReadsBare(text: string)
    requires DeliveryIsChunkInvariant(text)
    ensures Interpret(BareAll(Lines(text)), FRESH) == Interpret(StripAll(Lines(text)), FRESH)
  {
    var chunks := SlowestReading(text);
    DecodeWhole(text);
    hide Lines, BareAll, StripAll, Interpret, Decode;
  }

  /** For every text none of whose blocks holds both a line of two or more carriage returns alone and two events of
      different names: the messages are independent of chunking exactly when its lines read the same without any
      carriage return at their ends as with one taken off. */
  lemma DeliveryIsChunkInvariantExactly(text: string)
    requires AllSettled(Lines(text))
    ensures DeliveryIsChunkInvariant(text) <==>
      Interpret(BareAll(Lines(text)), FRESH) == Interpret(StripAll(Lines(text)), FRESH)
  {
    hide AllPeel, AllSettled, Lines, BareAll, StripAll, Interpret, Decode;
    if Interpret(BareAll(Lines(text)), FRESH) == Interpret(StripAll(Lines(text)), FRESH) {
      DecodeWhole(text);
      forall chunks: seq<string> | Concat(chunks) == text ensures Decode(chunks) == Decode([text]) {
        var ps := DecodePeels(chunks);
        TextSandwich(Lines(text), ps);
      }
    } else if DeliveryIsChunkInvariant(text) {
      InvariantReadsBare(text);
    }
  }
}
