/**
 The framing half of the chain-event stream: bytes arrive in chunks of any size, carriage
 returns are dropped, the buffer is cut at each blank line, and each block is read line by
 line. One character stands for one byte.
 */
module SseFraming {
  import opened Prelude

  // ---------------------------------------------------------------------------
  // Cutting the buffer at blank lines
  // ---------------------------------------------------------------------------

  function StripCr(s: string): string {
    if s == "" then ""
    else if s[0] == '\r' then StripCr(s[1..])
    else [s[0]] + StripCr(s[1..])
  }

  ghost predicate BlankAt(s: string, i: int) {
    0 <= i < |s| - 1 && s[i] == '\n' && s[i + 1] == '\n'
  }

  ghost predicate HasBlank(s: string) {
    exists i :: BlankAt(s, i)
  }

  /** The position of the first blank line, as the reader's window search gives it. */
  function FirstBlank(s: string): (r: Option<nat>)
    ensures r.Some? ==> r.value + 2 <= |s|
  {
    if |s| < 2 then None
    else if s[0] == '\n' && s[1] == '\n' then Some(0)
    else match FirstBlank(s[1..])
      case Some(i) => Some(i + 1)
      case None => None
  }

  lemma {:induction false} FirstBlankMeans(s: string)
    ensures FirstBlank(s).None? <==> !HasBlank(s)
    ensures FirstBlank(s).Some? ==>
              BlankAt(s, FirstBlank(s).value) && forall i | 0 <= i < FirstBlank(s).value :: !BlankAt(s, i)
  {
    if |s| >= 2 {
      FirstBlankMeans(s[1..]);
      assert forall j | 0 < j :: BlankAt(s, j) == BlankAt(s[1..], j - 1);
      BlankLater(s);
    }
  }

  lemma BlankLater(s: string)
    requires |s| >= 2
    ensures HasBlank(s) <==> BlankAt(s, 0) || HasBlank(s[1..])
  {
    if HasBlank(s) {
      var j :| BlankAt(s, j);
      assert j > 0 ==> BlankAt(s[1..], j - 1);
    }
    if HasBlank(s[1..]) {
      var j :| BlankAt(s[1..], j);
      assert BlankAt(s, j + 1);
    }
  }

  datatype Cut = Cut(blocks: seq<string>, rest: string)

  /** Everything the inner drain loop takes off a buffer, and what it leaves. */
  function Drain(s: string): Cut
    decreases |s|
  {
    match FirstBlank(s)
    case None => Cut([], s)
    case Some(i) =>
      var tail := Drain(s[i + 2..]);
      Cut([s[..i + 2]] + tail.blocks, tail.rest)
  }

  /** The drain loop takes the first block and goes on with what follows it. */
  lemma DrainFirst(s: string, i: nat, cut: Cut)
    requires FirstBlank(s) == Some(i) && Drain(s) == cut
    ensures cut.blocks != [] && cut.blocks[0] == s[..i + 2]
    ensures Drain(s[i + 2..]) == Cut(cut.blocks[1..], cut.rest)
  {
  }

  function Flatten(ss: seq<string>): string {
    if ss == [] then "" else ss[0] + Flatten(ss[1..])
  }

  /** A block: one blank line, at its end. */
  ghost predicate IsBlock(b: string) {
    BlankAt(b, |b| - 2) && forall i | 0 <= i < |b| - 2 :: !BlankAt(b, i)
  }

  /** Leftmost split: the bytes, cut after every blank line that is not inside an earlier cut. */
  ghost predicate LeftmostSplit(s: string, cut: Cut) {
    && Flatten(cut.blocks) + cut.rest == s
    && !HasBlank(cut.rest)
    && forall k | 0 <= k < |cut.blocks| :: IsBlock(cut.blocks[k])
  }

  lemma {:induction false} FirstBlankOfBlock(b: string, tail: string)
    requires IsBlock(b)
    ensures FirstBlank(b + tail) == Some(|b| - 2)
  {
    var s := b + tail;
    assert BlankAt(s, |b| - 2);
    forall i | 0 <= i < |b| - 2 ensures !BlankAt(s, i) {
      assert BlankAt(s, i) == BlankAt(b, i);
    }
    FirstBlankMeans(s);
  }

  lemma FirstIsBlock(s: string, i: nat)
    requires FirstBlank(s) == Some(i)
    ensures IsBlock(s[..i + 2])
  {
    FirstBlankMeans(s);
    var first := s[..i + 2];
    assert forall j :: BlankAt(first, j) ==> BlankAt(s, j);
    assert |first| - 2 == i && BlankAt(first, i);
  }

  lemma SplitsOneMore(s: string, i: nat, more: Cut)
    requires FirstBlank(s) == Some(i) && LeftmostSplit(s[i + 2..], more)
    ensures LeftmostSplit(s, Cut([s[..i + 2]] + more.blocks, more.rest))
  {
    FirstIsBlock(s, i);
    assert s == s[..i + 2] + s[i + 2..];
  }

  lemma {:induction false} DrainSplits(s: string)
    ensures LeftmostSplit(s, Drain(s))
    decreases |s|
  {
    match FirstBlank(s)
    case None => FirstBlankMeans(s);
    case Some(i) =>
      DrainSplits(s[i + 2..]);
      SplitsOneMore(s, i, Drain(s[i + 2..]));
  }

  lemma {:induction false} SplitIsDrain(s: string, cut: Cut)
    requires LeftmostSplit(s, cut)
    ensures cut == Drain(s)
    decreases |cut.blocks|
  {
    if cut.blocks == [] {
      assert s == cut.rest;
      FirstBlankMeans(s);
    } else {
      var b, more := cut.blocks[0], Cut(cut.blocks[1..], cut.rest);
      var tail := Flatten(more.blocks) + more.rest;
      assert s == b + tail;
      FirstBlankOfBlock(b, tail);
      assert s[|b|..] == tail && s[..|b|] == b;
      assert forall k | 0 <= k < |more.blocks| :: more.blocks[k] == cut.blocks[k + 1];
      SplitIsDrain(tail, more);
    }
  }

  /** `Drain` is the leftmost split, and the only one. */
  lemma DrainIsLeftmostSplit(s: string, cut: Cut)
    ensures LeftmostSplit(s, cut) <==> cut == Drain(s)
  {
    DrainSplits(s);
    if LeftmostSplit(s, cut) {
      SplitIsDrain(s, cut);
    }
  }

  /** Bytes that arrive later never change a cut already made. */
  lemma DrainAppend(a: string, b: string)
    ensures Drain(a + b) ==
            Cut(Drain(a).blocks + Drain(Drain(a).rest + b).blocks, Drain(Drain(a).rest + b).rest)
  {
    DrainSplits(a);
    DrainSplits(Drain(a).rest + b);
    SplitsJoin(a, Drain(a), b, Drain(Drain(a).rest + b));
    SplitIsDrain(a + b, Cut(Drain(a).blocks + Drain(Drain(a).rest + b).blocks, Drain(Drain(a).rest + b).rest));
  }

  lemma {:induction false} FlattenAppend(xs: seq<string>, ys: seq<string>)
    ensures Flatten(xs + ys) == Flatten(xs) + Flatten(ys)
  {
    if xs == [] {
      assert xs + ys == ys;
    } else {
      var rest := xs[1..];
      FlattenAppend(rest, ys);
      assert xs + ys == [xs[0]] + (rest + ys);
      assert xs[0] + (Flatten(rest) + Flatten(ys)) == (xs[0] + Flatten(rest)) + Flatten(ys);
    }
  }

  lemma SplitsJoin(a: string, cut: Cut, b: string, more: Cut)
    requires LeftmostSplit(a, cut) && LeftmostSplit(cut.rest + b, more)
    ensures LeftmostSplit(a + b, Cut(cut.blocks + more.blocks, more.rest))
  {
    FlattenAppend(cut.blocks, more.blocks);
    var blocks := Flatten(cut.blocks);
    assert (blocks + Flatten(more.blocks)) + more.rest == blocks + (Flatten(more.blocks) + more.rest);
    assert a + b == blocks + (cut.rest + b);
  }

  lemma {:induction false} StripAppend(a: string, b: string)
    ensures StripCr(a + b) == StripCr(a) + StripCr(b)
  {
    if a == "" {
      assert a + b == b;
    } else {
      assert (a + b)[1..] == a[1..] + b && (a + b)[0] == a[0];
      StripAppend(a[1..], b);
    }
  }

  /** Nothing but the carriage returns go, wherever they stand. */
  lemma {:induction false} StripMeans(s: string)
    ensures '\r' !in StripCr(s) && ('\r' !in s ==> StripCr(s) == s)
  {
    if s != "" {
      StripMeans(s[1..]);
    }
  }

  lemma ReturnsGo(a: string, b: string)
    ensures StripCr(a + "\r" + b) == StripCr(a + b)
  {
    StripAppend(a + "\r", b);
    StripAppend(a, "\r");
    StripAppend(a, b);
    assert "\r"[1..] == "";
    assert StripCr(a) + "" == StripCr(a);
  }

  /** The reader's life over a list of chunks: each extends the buffer, then the buffer is drained. */
  function Fed(buffer: string, chunks: seq<string>): Cut
    decreases chunks
  {
    if chunks == [] then Cut([], buffer)
    else
      var now := Drain(buffer + StripCr(chunks[0]));
      var later := Fed(now.rest, chunks[1..]);
      Cut(now.blocks + later.blocks, later.rest)
  }

  lemma {:induction false} RestIsDrained(s: string)
    ensures FirstBlank(Drain(s).rest).None?
    decreases |s|
  {
    if FirstBlank(s).Some? {
      RestIsDrained(s[FirstBlank(s).value + 2..]);
    }
  }

  /** However the bytes are cut into chunks, the blocks and the leftover are those of one chunk. */
  lemma {:induction false} ChunkInvariance(buffer: string, chunks: seq<string>)
    requires FirstBlank(buffer).None?
    ensures Fed(buffer, chunks) == Drain(buffer + StripCr(Flatten(chunks)))
    decreases chunks
  {
    if chunks == [] {
      assert buffer + "" == buffer;
    } else {
      var c, more := StripCr(chunks[0]), Flatten(chunks[1..]);
      StripAppend(chunks[0], more);
      assert buffer + (c + StripCr(more)) == (buffer + c) + StripCr(more);
      DrainAppend(buffer + c, StripCr(more));
      RestIsDrained(buffer + c);
      ChunkInvariance(Drain(buffer + c).rest, chunks[1..]);
    }
  }

  // ---------------------------------------------------------------------------
  // Reading one block
  // ---------------------------------------------------------------------------

  datatype Message = Message(id: Option<string>, event: Option<string>, data: Option<string>)

  const EMPTY := Message(None, None, None)

  function IndexOf(s: string, c: char): Option<nat> {
    if s == "" then None
    else if s[0] == c then Some(0)
    else match IndexOf(s[1..], c)
      case Some(i) => Some(i + 1)
      case None => None
  }

  lemma {:induction false} IndexOfMeans(s: string, c: char)
    ensures var r := IndexOf(s, c);
            && (r.Some? ==> r.value < |s| && s[r.value] == c && c !in s[..r.value])
            && (r.None? ==> c !in s)
  {
    if s != "" && s[0] != c {
      IndexOfMeans(s[1..], c);
      var r := IndexOf(s[1..], c);
      if r.Some? {
        assert s[..r.value + 1] == [s[0]] + s[1..][..r.value];
      }
    }
  }

  /** The lines of a block: cut at line feeds, with no empty line after the last one. */
  function Lines(s: string): seq<string>
    decreases |s|
  {
    if s == "" then []
    else
      IndexOfMeans(s, '\n');
      match IndexOf(s, '\n')
      case None => [s]
      case Some(i) => [s[..i]] + Lines(s[i + 1..])
  }

  function WithData(m: Message, value: string): Message {
    m.(data := Some(if m.data.Some? then m.data.value + "\n" + value else value))
  }

  /** One line of a block, read into the message so far. */
  function Absorb(m: Message, line: string): Message {
    if line == "" || line[0] == ':' then m
    else
      IndexOfMeans(line, ':');
      var (field, raw) := match IndexOf(line, ':')
        case Some(i) => (line[..i], line[i + 1..])
        case None => (line, "");
      var value := if raw != "" && raw[0] == ' ' then raw[1..] else raw;
      if field == "id" then m.(id := Some(value))
      else if field == "event" then m.(event := Some(value))
      else if field == "data" then WithData(m, value)
      else m
  }

  lemma {:induction false} IndexAfter(s: string, t: string, c: char)
    requires c !in s
    ensures IndexOf(s, c) == None && IndexOf(s + [c] + t, c) == Some(|s|)
  {
    if s != "" {
      var u := s + [c] + t;
      assert u[1..] == s[1..] + [c] + t;
      IndexAfter(s[1..], t, c);
    }
  }

  /** A field read: the id, the event's name, or one more line of the data; any other says nothing. */
  ghost function SetField(m: Message, field: string, value: string): Message {
    if field == "id" then m.(id := Some(value))
    else if field == "event" then m.(event := Some(value))
    else if field == "data" then WithData(m, value)
    else m
  }

  /**
   Any line: a field's name, a colon, at most one space that is dropped, and its value; a name alone has
   the empty value; a line that starts with the colon, and any other field, says nothing.
   */
  lemma LineMeans(m: Message, field: string, value: string)
    requires ':' !in field && (value != "" ==> value[0] != ' ')
    ensures Absorb(m, ":" + value) == m && Absorb(m, "") == m
    ensures field != "" ==>
              && Absorb(m, field + ":" + value) == Absorb(m, field + ": " + value)
              && Absorb(m, field) == Absorb(m, field + ":")
              && Absorb(m, field + ":" + value) == SetField(m, field, value)
  {
    if field != "" {
      assert field + ":" + value == field + [':'] + value;
      FieldMeans(m, field, value, value);
      assert field + ": " + value == field + [':'] + (" " + value) && (" " + value)[1..] == value;
      FieldMeans(m, field, " " + value, value);
      assert field + ":" == field + [':'] + "";
      FieldMeans(m, field, "", "");
      BareField(m, field);
    }
  }

  lemma FieldMeans(m: Message, field: string, raw: string, value: string)
    requires field != "" && ':' !in field
    requires value == if raw != "" && raw[0] == ' ' then raw[1..] else raw
    ensures Absorb(m, field + [':'] + raw) == SetField(m, field, value)
  {
    IndexAfter(field, raw, ':');
    var line := field + [':'] + raw;
    assert line[..|field|] == field && line[|field| + 1..] == raw && line[0] == field[0];
  }

  lemma BareField(m: Message, field: string)
    requires field != "" && ':' !in field
    ensures Absorb(m, field) == SetField(m, field, "")
  {
    IndexAfter(field, "", ':');
  }

  function AbsorbAll(m: Message, lines: seq<string>): Message
    decreases lines
  {
    if lines == [] then m else AbsorbAll(Absorb(m, lines[0]), lines[1..])
  }

  function Parsed(block: string): Message {
    AbsorbAll(EMPTY, Lines(block))
  }

  /** `SseMessage::parse`: the lines of the block, each absorbed in turn. */
  method Parse(block: string) returns (message: Message)
    ensures message == Parsed(block)
  {
    message := EMPTY;
    var lines := Lines(block);
    for i := 0 to |lines|
      invariant AbsorbAll(message, lines[i..]) == Parsed(block)
    {
      message := Absorb(message, lines[i]);
      assert lines[i..][1..] == lines[i + 1..];
    }
  }

  // ---------------------------------------------------------------------------
  // The printer, and the round trip
  // ---------------------------------------------------------------------------

  datatype Item = Envelope(message: Message) | Heartbeat(comment: string)

  ghost predicate OneLine(s: string) {
    '\n' !in s && '\r' !in s
  }

  /** What a server can put on the wire: a field at least, and line breaks in the data alone. */
  ghost predicate Printable(it: Item) {
    match it
    case Heartbeat(comment) => OneLine(comment)
    case Envelope(m) =>
      && (m.id.Some? || m.event.Some? || m.data.Some?)
      && (m.id.Some? ==> OneLine(m.id.value))
      && (m.event.Some? ==> OneLine(m.event.value))
      && (m.data.Some? ==> '\r' !in m.data.value)
  }

  /** Every line of `s`, an empty last one kept. */
  function SplitAll(s: string): (ls: seq<string>)
    ensures ls != []
    ensures forall k | 0 <= k < |ls| :: '\n' !in ls[k]
    decreases |s|
  {
    IndexOfMeans(s, '\n');
    match IndexOf(s, '\n')
    case None => [s]
    case Some(i) => [s[..i]] + SplitAll(s[i + 1..])
  }

  function Prefixed(prefix: string, lines: seq<string>): (r: seq<string>)
    ensures |r| == |lines| && forall k | 0 <= k < |r| :: r[k] == prefix + lines[k]
  {
    seq(|lines|, k requires 0 <= k < |lines| => prefix + lines[k])
  }

  function ItemLines(it: Item): seq<string> {
    match it
    case Heartbeat(comment) => [": " + comment]
    case Envelope(m) =>
      (if m.id.Some? then ["id: " + m.id.value] else [])
      + (if m.event.Some? then ["event: " + m.event.value] else [])
      + (if m.data.Some? then Prefixed("data: ", SplitAll(m.data.value)) else [])
  }

  function Unlines(lines: seq<string>): string {
    if lines == [] then "" else lines[0] + "\n" + Unlines(lines[1..])
  }

  function Print(it: Item): string {
    Unlines(ItemLines(it)) + "\n"
  }

  function PrintAll(items: seq<Item>): (r: seq<string>)
    ensures |r| == |items| && forall k | 0 <= k < |r| :: r[k] == Print(items[k])
  {
    seq(|items|, k requires 0 <= k < |items| => Print(items[k]))
  }

  /** What the reader makes of an item: a heartbeat is a message with nothing in it. */
  function MessageOf(it: Item): Message {
    match it case Envelope(m) => m case Heartbeat(_) => EMPTY
  }


  /** Lines that are not empty and hold no break. */
  ghost predicate Solid(lines: seq<string>) {
    forall k | 0 <= k < |lines| :: lines[k] != "" && '\n' !in lines[k]
  }

  lemma SolidJoin(a: seq<string>, b: seq<string>)
    requires Solid(a) && Solid(b)
    ensures Solid(a + b)
  {
  }

  lemma SolidLine(prefix: string, value: string)
    requires prefix != "" && '\n' !in prefix && '\n' !in value
    ensures Solid([prefix + value])
  {
  }

  lemma SolidData(value: string)
    ensures Solid(Prefixed("data: ", SplitAll(value)))
  {
  }

  lemma {:induction false} ItemLinesShape(it: Item)
    requires Printable(it)
    ensures |ItemLines(it)| > 0 && Solid(ItemLines(it))
  {
    if it.Envelope? {
      var m := it.message;
      var id := if m.id.Some? then ["id: " + m.id.value] else [];
      var event := if m.event.Some? then ["event: " + m.event.value] else [];
      var data := if m.data.Some? then Prefixed("data: ", SplitAll(m.data.value)) else [];
      if m.id.Some? {
        SolidLine("id: ", m.id.value);
      }
      if m.event.Some? {
        SolidLine("event: ", m.event.value);
      }
      if m.data.Some? {
        SolidData(m.data.value);
      }
      SolidJoin(id, event);
      SolidJoin(id + event, data);
      assert ItemLines(it) == id + event + data;
    } else {
      SolidLine(": ", it.comment);
    }
  }

  /** Nonempty lines never hold a blank line; the empty one after them ends the block. */
  lemma LineThenBlock(line: string, block: string)
    requires line != "" && '\n' !in line && IsBlock(block) && block[0] != '\n'
    ensures IsBlock(line + "\n" + block)
  {
    var b := line + "\n" + block;
    assert BlankAt(block, |block| - 2);
    forall i | 0 <= i < |b| - 2 ensures !BlankAt(b, i) {
      if i < |line| {
        assert b[i] == line[i];
      } else if i > |line| {
        assert BlankAt(b, i) == BlankAt(block, i - |line| - 1);
      }
    }
  }

  lemma {:induction false} UnlinesIsBlock(lines: seq<string>)
    requires forall k | 0 <= k < |lines| :: lines[k] != "" && '\n' !in lines[k]
    ensures lines != [] ==> Unlines(lines) != "" && Unlines(lines)[0] != '\n'
    ensures lines != [] ==> IsBlock(Unlines(lines) + "\n")
  {
    if |lines| > 1 {
      var block := Unlines(lines[1..]) + "\n";
      UnlinesIsBlock(lines[1..]);
      LineThenBlock(lines[0], block);
      assert Unlines(lines) + "\n" == lines[0] + "\n" + block;
    } else if lines != [] {
      assert lines[1..] == [];
      assert Unlines(lines) + "\n" == lines[0] + "\n\n";
    }
  }

  lemma LineThenMore(line: string, more: string)
    requires '\n' !in line
    ensures Lines(line + "\n" + more) == [line] + Lines(more)
  {
    var s := line + ['\n'] + more;
    IndexAfter(line, more, '\n');
    assert s == line + "\n" + more && s[..|line|] == line && s[|line| + 1..] == more;
  }

  lemma {:induction false} LinesOfUnlines(lines: seq<string>)
    requires forall k | 0 <= k < |lines| :: '\n' !in lines[k]
    ensures Lines(Unlines(lines) + "\n") == lines + [""]
  {
    if lines == [] {
      LineThenMore("", "");
      assert Unlines(lines) + "\n" == "" + "\n" + "";
    } else {
      var more := Unlines(lines[1..]) + "\n";
      assert Unlines(lines) + "\n" == lines[0] + "\n" + more;
      LineThenMore(lines[0], more);
      LinesOfUnlines(lines[1..]);
      assert lines == [lines[0]] + lines[1..];
    }
  }

  lemma {:induction false} AbsorbAppend(m: Message, a: seq<string>, b: seq<string>)
    ensures AbsorbAll(m, a + b) == AbsorbAll(AbsorbAll(m, a), b)
    decreases a
  {
    if a == [] {
      assert a + b == b;
    } else {
      assert (a + b)[1..] == a[1..] + b;
      AbsorbAppend(Absorb(m, a[0]), a[1..], b);
    }
  }

  lemma AbsorbField(m: Message, value: string)
    ensures Absorb(m, "id: " + value) == m.(id := Some(value))
    ensures Absorb(m, "event: " + value) == m.(event := Some(value))
    ensures Absorb(m, "data: " + value) == WithData(m, value)
  {
    assert "id: " + value == "id" + [':'] + (" " + value);
    assert "event: " + value == "event" + [':'] + (" " + value);
    assert "data: " + value == "data" + [':'] + (" " + value);
    IndexAfter("id", " " + value, ':');
    IndexAfter("event", " " + value, ':');
    IndexAfter("data", " " + value, ':');
    assert (" " + value)[1..] == value;
    assert ("id: " + value)[3..] == " " + value && ("id: " + value)[..2] == "id";
    assert ("event: " + value)[6..] == " " + value && ("event: " + value)[..5] == "event";
    assert ("data: " + value)[5..] == " " + value && ("data: " + value)[..4] == "data";
  }

  function Join(lines: seq<string>): string
    requires lines != []
  {
    if |lines| == 1 then lines[0] else lines[0] + "\n" + Join(lines[1..])
  }

  lemma {:induction false} JoinOfSplit(s: string)
    ensures Join(SplitAll(s)) == s
    decreases |s|
  {
    IndexOfMeans(s, '\n');
    match IndexOf(s, '\n')
    case None =>
    case Some(i) =>
      var later := SplitAll(s[i + 1..]);
      JoinOfSplit(s[i + 1..]);
      assert SplitAll(s) == [s[..i]] + later;
      assert s == s[..i] + "\n" + s[i + 1..];
  }

  lemma WithDataTwice(m: Message, a: string, b: string)
    ensures WithData(WithData(m, a), b) == WithData(m, a + "\n" + b)
  {
    if m.data.Some? {
      assert (m.data.value + "\n" + a) + "\n" + b == m.data.value + "\n" + (a + "\n" + b);
    }
  }

  /** The data lines, read back, are the lines joined by line feeds. */
  lemma {:induction false} AbsorbData(m: Message, lines: seq<string>)
    requires lines != []
    ensures AbsorbAll(m, Prefixed("data: ", lines)) == WithData(m, Join(lines))
    decreases lines
  {
    var printed := Prefixed("data: ", lines);
    var next := WithData(m, lines[0]);
    AbsorbField(m, lines[0]);
    assert AbsorbAll(m, printed) == AbsorbAll(next, printed[1..]);
    if |lines| == 1 {
      assert printed[1..] == [];
    } else {
      assert printed[1..] == Prefixed("data: ", lines[1..]);
      AbsorbData(next, lines[1..]);
      WithDataTwice(m, lines[0], Join(lines[1..]));
    }
  }

  /** The parser undoes the printer, one item at a time. */
  lemma {:induction false} ParseUndoesPrint(it: Item)
    requires Printable(it)
    ensures Parsed(Print(it)) == MessageOf(it)
  {
    var lines := ItemLines(it);
    ItemLinesShape(it);
    LinesOfUnlines(lines);
    AbsorbAppend(EMPTY, lines, [""]);
    assert AbsorbAll(AbsorbAll(EMPTY, lines), [""]) == AbsorbAll(EMPTY, lines) by {
      var m := AbsorbAll(EMPTY, lines);
      assert AbsorbAll(m, [""]) == AbsorbAll(Absorb(m, ""), []);
    }
    match it
    case Heartbeat(comment) =>
      assert (": " + comment)[0] == ':';
      assert AbsorbAll(EMPTY, lines) == AbsorbAll(Absorb(EMPTY, lines[0]), []);
    case Envelope(m) =>
      var ids := if m.id.Some? then ["id: " + m.id.value] else [];
      var events := if m.event.Some? then ["event: " + m.event.value] else [];
      var datas := if m.data.Some? then Prefixed("data: ", SplitAll(m.data.value)) else [];
      var withId := EMPTY.(id := m.id);
      var withEvent := withId.(event := m.event);
      AbsorbAppend(EMPTY, ids + events, datas);
      AbsorbAppend(EMPTY, ids, events);
      if m.id.Some? {
        AbsorbField(EMPTY, m.id.value);
        assert AbsorbAll(EMPTY, ids) == AbsorbAll(Absorb(EMPTY, ids[0]), []);
      }
      if m.event.Some? {
        AbsorbField(withId, m.event.value);
        assert AbsorbAll(withId, events) == AbsorbAll(Absorb(withId, events[0]), []);
      }
      if m.data.Some? {
        AbsorbData(withEvent, SplitAll(m.data.value));
        JoinOfSplit(m.data.value);
      }
  }

  /**
   The reader undoes the printer. Whatever items a server prints, with carriage returns added
   anywhere and the bytes cut into chunks anywhere, the blocks drained are the printed items,
   nothing is left in the buffer, and the messages read are the ones printed.
   */
  lemma {:induction false} StreamUndoesPrinter(items: seq<Item>, chunks: seq<string>)
    requires forall k | 0 <= k < |items| :: Printable(items[k])
    requires StripCr(Flatten(chunks)) == Flatten(PrintAll(items))
    ensures Fed("", chunks) == Cut(PrintAll(items), "")
    ensures forall k | 0 <= k < |items| :: Parsed(PrintAll(items)[k]) == MessageOf(items[k])
  {
    var blocks := PrintAll(items);
    forall k | 0 <= k < |items|
      ensures IsBlock(blocks[k]) && Parsed(blocks[k]) == MessageOf(items[k])
    {
      ItemLinesShape(items[k]);
      UnlinesIsBlock(ItemLines(items[k]));
      ParseUndoesPrint(items[k]);
    }
    ChunkInvariance("", chunks);
    assert "" + StripCr(Flatten(chunks)) == Flatten(blocks) + "";
    DrainIsLeftmostSplit(Flatten(blocks), Cut(blocks, ""));
  }
}
