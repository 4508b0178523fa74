/** The incremental decoder of a server-sent event stream. Text arrives in chunks; a residual buffer is
    re-folded and drained of complete blocks after every chunk. */
module EventStream {
  import opened Text

  datatype Message = Message(event: string, data: string)

  /** What one block has said so far: the event name and the data lines. */
  datatype Fields = Fields(event: string, data: seq<string>)

  const FRESH := Fields("message", [])

  /** One line of a block. */
  function ReadLine(line: string, f: Fields): Fields {
    if StartsWith(line, "event:") then
      var name := Trim(line[6..]);
      f.(event := if name == "" then "message" else name)
    else if StartsWith(line, "data:") then
      var value := line[5..];
      f.(data := f.data + [if StartsWith(value, " ") then value[1..] else value])
    else f
  }

  function ReadLines(lines: seq<string>, f: Fields): Fields {
    if lines == [] then f else ReadLines(lines[1..], ReadLine(lines[0], f))
  }

  /** A block without data lines delivers nothing. */
  function Emit(f: Fields): seq<Message> {
    if f.data == [] then [] else [Message(f.event, Join(f.data))]
  }

  function ReadBlock(block: string): seq<Message> {
    Emit(ReadLines(Split(block), FRESH))
  }

  function ReadBlocks(blocks: seq<string>): seq<Message> {
    if blocks == [] then [] else ReadBlock(blocks[0]) + ReadBlocks(blocks[1..])
  }

  /** The blocks a buffer yields, and the residue that waits for more text. */
  datatype Drained = Drained(blocks: seq<string>, rest: string)

  function Drain(buffer: string): Drained
    decreases |buffer|
  {
    var i := IndexOfBlank(buffer);
    if i < 0 then Drained([], buffer)
    else
      var d := Drain(buffer[i + 2..]);
      Drained([buffer[..i]] + d.blocks, d.rest)
  }

  /** The decoder's state after reading some chunks: blocks handed out, residual buffer. */
  function Read(chunks: seq<string>): Drained {
    if chunks == [] then Drained([], "")
    else
      var before := Read(chunks[..|chunks| - 1]);
      var now := Drain(Fold(before.rest + chunks[|chunks| - 1]));
      Drained(before.blocks + now.blocks, now.rest)
  }

  function Decode(chunks: seq<string>): seq<Message> {
    ReadBlocks(Read(chunks).blocks)
  }

  function Concat(chunks: seq<string>): string {
    if chunks == [] then "" else Concat(chunks[..|chunks| - 1]) + chunks[|chunks| - 1]
  }

  lemma {:induction false} ReadLinesAppend(lines: seq<string>, line: string, f: Fields)
    ensures ReadLines(lines + [line], f) == ReadLine(line, ReadLines(lines, f))
  {
    if lines == [] {
      assert [line][1..] == [];
    } else {
      assert (lines + [line])[1..] == lines[1..] + [line];
      ReadLinesAppend(lines[1..], line, ReadLine(lines[0], f));
    }
  }

  lemma {:induction false} ReadBlocksConcat(a: seq<string>, b: seq<string>)
    ensures ReadBlocks(a + b) == ReadBlocks(a) + ReadBlocks(b)
  {
    hide ReadBlock;
    if a == [] {
      assert a + b == b;
    } else {
      assert (a + b)[1..] == a[1..] + b;
      ReadBlocksConcat(a[1..], b);
    }
  }

  /** The field loop over one block's lines. */
  method ScanBlock(block: string) returns (event: string, dataLines: seq<string>)
    ensures Fields(event, dataLines) == ReadLines(Split(block), FRESH)
  {
    hide Split, ReadLine;
    event, dataLines := "message", [];
    var lines := Split(block);
    var k := 0;
    assert lines[..0] == [];
    while k < |lines|
      invariant 0 <= k <= |lines|
      invariant Fields(event, dataLines) == ReadLines(lines[..k], FRESH)
    {
      event, dataLines := ScanLine(lines[k], event, dataLines);
      assert ReadLines(lines[..k + 1], FRESH) == ReadLine(lines[k], ReadLines(lines[..k], FRESH)) by {
        ReadLinesAppend(lines[..k], lines[k], FRESH);
        assert lines[..k] + [lines[k]] == lines[..k + 1];
      }
      k := k + 1;
    }
    assert lines[..|lines|] == lines;
  }

  method ScanLine(line: string, event0: string, dataLines0: seq<string>) returns (event: string, dataLines: seq<string>)
    ensures Fields(event, dataLines) == ReadLine(line, Fields(event0, dataLines0))
  {
    event, dataLines := event0, dataLines0;
    if StartsWith(line, "event:") {
      event := Trim(line[6..]);
      if event == "" { event := "message"; }
    } else if StartsWith(line, "data:") {
      var value := line[5..];
      if StartsWith(value, " ") { value := value[1..]; }
      dataLines := dataLines + [value];
    }
  }

  /** Taking the first block, its blank line and the rest apart. */
  lemma FirstBlock(buffer: string) returns (block: string, later: string)
    requires IndexOfBlank(buffer) >= 0
    ensures buffer == block + "\n\n" + later
    ensures IndexOfBlank(buffer) == |block|
    ensures Drain(buffer) == Drained([block] + Drain(later).blocks, Drain(later).rest)
  {
    var i := IndexOfBlank(buffer);
    block, later := buffer[..i], buffer[i + 2..];
  }

  lemma BlockFields(block: string)
    ensures ReadBlock(block) == Emit(ReadLines(Split(block), FRESH))
  {
  }

  lemma ReadBlocksAppend(taken: seq<string>, block: string)
    ensures ReadBlocks(taken + [block]) == ReadBlocks(taken) + ReadBlock(block)
  {
    hide ReadBlock;
    ReadBlocksConcat(taken, [block]);
    assert [block][1..] == [];
  }

  /** The block loop: takes complete blocks off the front of the buffer until none is left. */
  method DrainBuffer(start: string) returns (buffer: string, delivered: seq<Message>)
    ensures buffer == Drain(start).rest
    ensures delivered == ReadBlocks(Drain(start).blocks)
  {
    hide ReadBlock, Join, Drain, IndexOfBlank;
    buffer, delivered := start, [];
    ghost var taken: seq<string> := [];
    assert taken + Drain(start).blocks == Drain(start).blocks;
    var boundary := IndexOfBlank(buffer);
    while boundary >= 0
      invariant boundary == IndexOfBlank(buffer)
      invariant Drain(start).rest == Drain(buffer).rest
      invariant Drain(start).blocks == taken + Drain(buffer).blocks
      invariant delivered == ReadBlocks(taken)
      decreases |buffer|
    {
      TakeBlock(buffer, boundary, taken);
      var block := buffer[..boundary];
      buffer := buffer[boundary + 2..];
      var event, dataLines := ScanBlock(block);
      ReadBlocksAppend(taken, block);
      assert ReadBlock(block) == Emit(Fields(event, dataLines)) by { BlockFields(block); }
      if |dataLines| > 0 {
        delivered := delivered + [Message(event, Join(dataLines))];
      }
      taken := taken + [block];
      boundary := IndexOfBlank(buffer);
    }
    NothingToTake(buffer, taken);
  }

  lemma TakeBlock(buffer: string, i: nat, taken: seq<string>)
    requires i == IndexOfBlank(buffer)
    ensures Drain(buffer).rest == Drain(buffer[i + 2..]).rest
    ensures taken + Drain(buffer).blocks == taken + [buffer[..i]] + Drain(buffer[i + 2..]).blocks
  {
  }

  lemma NothingToTake(buffer: string, taken: seq<string>)
    requires IndexOfBlank(buffer) < 0
    ensures Drain(buffer).rest == buffer && taken + Drain(buffer).blocks == taken
  {
  }

  /** The reading loop. `chunks` are the decoded texts of successive reads; the last one is what the text
      decoder flushes when the reader reports the end. Delivered messages are collected in call order. */
  method StreamAiJob(chunks: seq<string>) returns (delivered: seq<Message>)
    requires chunks != []
    ensures delivered == Decode(chunks)
  {
    delivered := [];
    var buffer := "";
    var n := 0;
    while true
      invariant 0 <= n < |chunks|
      invariant buffer == Read(chunks[..n]).rest
      invariant delivered == Decode(chunks[..n])
      decreases |chunks| - n
    {
      assert chunks[..n + 1][..n] == chunks[..n];
      buffer := Fold(buffer + chunks[n]);
      ReadBlocksConcat(Read(chunks[..n]).blocks, Drain(buffer).blocks);
      var messages;
      buffer, messages := DrainBuffer(buffer);
      delivered := delivered + messages;
      if n == |chunks| - 1 {
        assert chunks[..n + 1] == chunks;
        break;
      }
      n := n + 1;
    }
  }
}
