/** Server-Sent Events (sections 9.2.5 and 9.2.6 of the HTML Standard): a reader of text in any chunks, and the printer it undoes. */
module Sse {
  import opened Text

  datatype Maybe<+T> = Nothing | Just(value: T)

  /** One message of a stream, or a comment line. */
  datatype Item = Message(id: Maybe<string>, event: string, data: string) | Comment(text: string)

  // ------------------------------------------------------------------
  // Lines
  // ------------------------------------------------------------------

  /** Every CRLF and every lone CR becomes an LF. */
  function Normalized(text: string): string {
    if text == "" then ""
    else if text[0] == '\r' then
      "\n" + Normalized(if |text| > 1 && text[1] == '\n' then text[2..] else text[1..])
    else [text[0]] + Normalized(text[1..])
  }

  /** The position of the first LF, or the end. */
  function Break(text: string): (i: nat)
    ensures i <= |text| && (i < |text| ==> text[i] == '\n') && forall j :: 0 <= j < i ==> text[j] != '\n'
  {
    if text == "" || text[0] == '\n' then 0 else 1 + Break(text[1..])
  }

  /** The parts between LFs; the last one has no LF after it. */
  function Parts(text: string): (parts: seq<string>)
    ensures parts != []
    decreases |text|
  {
    var i := Break(text);
    if i == |text| then [text] else [text[..i]] + Parts(text[i + 1..])
  }

  /** An empty last part is not a line. */
  function Stripped(parts: seq<string>): seq<string>
    requires parts != []
  {
    if parts[|parts| - 1] == "" then parts[..|parts| - 1] else parts
  }

  /** The lines of a whole text. */
  function LinesOf(text: string): seq<string> {
    Stripped(Parts(Normalized(text)))
  }

  /** A final CR waits for the next chunk, which may begin with its LF. */
  function HeldBack(text: string): string {
    if text != "" && text[|text| - 1] == '\r' then "\r" else ""
  }

  /** What one more chunk completes, and what is still unfinished. */
  function Fed(pending: string, chunk: string): (seq<string>, string) {
    var text := pending + chunk;
    var held := HeldBack(text);
    var parts := Parts(Normalized(text[..|text| - |held|]));
    (parts[..|parts| - 1], parts[|parts| - 1] + held)
  }

  // ------------------------------------------------------------------
  // Messages
  // ------------------------------------------------------------------

  /** The message being read. */
  datatype Reading = Reading(id: Maybe<string>, event: string, data: seq<string>)

  const Fresh := Reading(Nothing, "", [])

  function Joined(lines: seq<string>): string {
    if lines == [] then "" else if |lines| == 1 then lines[0] else lines[0] + "\n" + Joined(lines[1..])
  }

  /** The position of the first colon, or -1. */
  function Colon(line: string): (i: int)
    ensures -1 <= i < |line| && (i >= 0 ==> line[i] == ':') && (forall j :: 0 <= j < (if i < 0 then |line| else i) ==> line[j] != ':')
  {
    if line == "" then -1 else if line[0] == ':' then 0 else if Colon(line[1..]) < 0 then -1 else 1 + Colon(line[1..])
  }

  function Handled(r: Reading, line: string): (Reading, seq<Item>) {
    if line == "" then
      (Fresh, if r.data != [] then [Message(r.id, if r.event == "" then "message" else r.event, Joined(r.data))] else [])
    else if line[0] == ':' then (r, [Comment(Trim(line[1..]))])
    else
      var colon := Colon(line);
      var field := if colon < 0 then line else line[..colon];
      var raw := if colon < 0 then "" else line[colon + 1..];
      var value := if raw != "" && raw[0] == ' ' then raw[1..] else raw;
      (if field == "data" then r.(data := r.data + [value])
       else if field == "event" then r.(event := value)
       else if field == "id" && '\0' !in value then r.(id := Just(value))
       else r, [])
  }

  function HandledAll(r: Reading, lines: seq<string>): (Reading, seq<Item>)
    decreases |lines|
  {
    if lines == [] then (r, [])
    else
      var (r1, items) := Handled(r, lines[0]);
      var (r2, rest) := HandledAll(r1, lines[1..]);
      (r2, items + rest)
  }

  /** What a whole text says. */
  function ItemsOf(text: string): seq<Item> {
    HandledAll(Fresh, LinesOf(text)).1
  }

  // ------------------------------------------------------------------
  // The reader in place
  // ------------------------------------------------------------------

  class SseReader {
    var pending: string
    var id: Maybe<string>
    var event: string
    var data: seq<string>

    constructor ()
      ensures pending == "" && Current() == Fresh
    {
      pending, id, event, data := "", Nothing, "", [];
    }

    ghost function Current(): Reading
      reads this
    {
      Reading(id, event, data)
    }

    /** The lines that `text` completes; all of them at the end of the stream. */
    method Lines(text: string, final: bool) returns (lines: seq<string>)
      modifies this`pending
      ensures if final then lines == LinesOf(old(pending) + text) && pending == "" else (lines, pending) == Fed(old(pending), text)
    {
      pending := pending + text;
      var held := if !final && pending != "" && pending[|pending| - 1] == '\r' then "\r" else "";
      assert pending[..|pending|] == pending;
      var complete := Normalized(if held != "" then pending[..|pending| - 1] else pending);
      lines := Parts(complete);
      if final {
        pending := "";
        if lines[|lines| - 1] == "" {
          lines := lines[..|lines| - 1];
        }
      } else {
        pending := lines[|lines| - 1] + held;
        lines := lines[..|lines| - 1];
      }
    }

    method Handle(line: string) returns (items: seq<Item>)
      modifies this`id, this`event, this`data
      ensures (Current(), items) == Handled(old(Current()), line)
    {
      items := [];
      if line == "" {
        if |data| > 0 {
          items := [Message(id, if event == "" then "message" else event, Joined(data))];
        }
        id, event, data := Nothing, "", [];
        return;
      }
      if line[0] == ':' {
        return [Comment(Trim(line[1..]))];
      }
      var colon := Colon(line);
      var field := if colon == -1 then line else line[..colon];
      var value := if colon == -1 then "" else line[colon + 1..];
      if value != "" && value[0] == ' ' {
        value := value[1..];
      }
      if field == "data" {
        data := data + [value];
      } else if field == "event" {
        event := value;
      } else if field == "id" && '\0' !in value {
        id := Just(value);
      }
    }

    method HandleLines(lines: seq<string>) returns (items: seq<Item>)
      modifies this`id, this`event, this`data
      ensures (Current(), items) == HandledAll(old(Current()), lines)
    {
      items := [];
      for i := 0 to |lines|
        invariant (Current(), items) == HandledAll(old(Current()), lines[..i])
      {
        HandledMore(old(Current()), lines[..i], lines[i]);
        assert lines[..i + 1] == lines[..i] + [lines[i]];
        var more := Handle(lines[i]);
        items := items + more;
      }
      assert lines[..|lines|] == lines;
    }
  }

  lemma {:induction false} HandledConcat(r: Reading, a: seq<string>, b: seq<string>)
    ensures var (r1, first) := HandledAll(r, a); var (r2, rest) := HandledAll(r1, b); HandledAll(r, a + b) == (r2, first + rest)
    decreases |a|
  {
    hide Handled;
    if a == [] {
      assert a + b == b;
      var (r2, rest) := HandledAll(r, b);
      assert [] + rest == rest;
    } else {
      assert (a + b)[1..] == a[1..] + b;
      HandledConcat(Handled(r, a[0]).0, a[1..], b);
      var (r1, items) := Handled(r, a[0]);
      var (r2, first) := HandledAll(r1, a[1..]);
      var (r3, rest) := HandledAll(r2, b);
      assert items + (first + rest) == (items + first) + rest;
    }
  }

  lemma HandledMore(r: Reading, a: seq<string>, line: string)
    ensures var (r1, first) := HandledAll(r, a); var (r2, more) := Handled(r1, line); HandledAll(r, a + [line]) == (r2, first + more)
  {
    HandledConcat(r, a, [line]);
    assert [line][1..] == [];
    var (r2, more) := Handled(HandledAll(r, a).0, line);
    assert more + [] == more;
  }

  // ------------------------------------------------------------------
  // Chunks do not matter
  // ------------------------------------------------------------------

  predicate NoBreaks(s: string) {
    '\r' !in s && '\n' !in s
  }

  /** How many characters the first line break, or other character, takes, and what becomes of it. */
  function Width(text: string): (n: nat)
    requires text != ""
    ensures n <= |text|
  {
    if text[0] == '\r' && |text| > 1 && text[1] == '\n' then 2 else 1
  }

  function One(text: string): string
    requires text != ""
  {
    [if text[0] == '\r' then '\n' else text[0]]
  }

  lemma FirstNormalized(text: string)
    requires text != ""
    ensures Normalized(text) == One(text) + Normalized(text[Width(text)..])
  {
  }

  lemma NothingNormalized()
    ensures Normalized("") == ""
  {
  }

  lemma {:induction false} NormalizedConcat(a: string, b: string)
    requires a == "" || a[|a| - 1] != '\r' || b == "" || b[0] != '\n'
    ensures Normalized(a + b) == Normalized(a) + Normalized(b)
    decreases |a|
  {
    hide Normalized;
    if a == "" {
      assert a + b == b;
      NothingNormalized();
    } else {
      var n := Width(a);
      assert (a + b)[n..] == a[n..] + b && Width(a + b) == n;
      NormalizedConcat(a[n..], b);
      FirstNormalized(a);
      FirstNormalized(a + b);
      assert One(a) + (Normalized(a[n..]) + Normalized(b)) == (One(a) + Normalized(a[n..])) + Normalized(b);
    }
  }

  lemma {:induction false} NormalizedClean(s: string)
    requires '\r' !in s
    ensures Normalized(s) == s
  {
    if s != "" {
      assert s == [s[0]] + s[1..];
      NormalizedClean(s[1..]);
    }
  }

  lemma {:induction false} NoReturns(s: string)
    ensures '\r' !in Normalized(s)
    decreases |s|
  {
    if s != "" {
      NoReturns(s[1..]);
      if |s| > 1 {
        NoReturns(s[2..]);
      }
    }
  }

  function Init(p: seq<string>): seq<string>
    requires p != []
  {
    p[..|p| - 1]
  }

  function Last(p: seq<string>): string
    requires p != []
  {
    p[|p| - 1]
  }

  lemma ConsInit(x: string, q: seq<string>)
    requires q != []
    ensures Init([x] + q) == [x] + Init(q) && Last([x] + q) == Last(q)
  {
  }

  lemma BreakIs(text: string, i: nat)
    requires i <= |text| && (i < |text| ==> text[i] == '\n') && forall j :: 0 <= j < i ==> text[j] != '\n'
    ensures Break(text) == i
  {
  }

  /** Parts of a concatenation: the last part of the first half goes on. */
  lemma {:induction false} PartsConcat(a: string, b: string)
    ensures Parts(a + b) == Init(Parts(a)) + Parts(Last(Parts(a)) + b)
    decreases |a|
  {
    hide Break;
    var i := Break(a);
    if i < |a| {
      BreakIs(a + b, i);
      assert (a + b)[..i] == a[..i] && (a + b)[i + 1..] == a[i + 1..] + b;
      PartsConcat(a[i + 1..], b);
      ConsInit(a[..i], Parts(a[i + 1..]));
    }
  }

  lemma {:induction false} PartsClean(s: string)
    requires '\r' !in s
    ensures forall i :: 0 <= i < |Parts(s)| ==> NoBreaks(Parts(s)[i])
    decreases |s|
  {
    hide Break;
    var i := Break(s);
    if i < |s| {
      PartsClean(s[i + 1..]);
    }
  }

  /** Feeding a chunk takes exactly the lines it completes off the front of everything still to come. */
  lemma FedIsExact(pending: string, chunk: string, future: string)
    ensures var (lines, rest) := Fed(pending, chunk); LinesOf(pending + chunk + future) == lines + LinesOf(rest + future)
  {
    hide Parts, Normalized;
    var text := pending + chunk;
    var held := HeldBack(text);
    var done := text[..|text| - |held|];
    var parts := Parts(Normalized(done));
    assert text + future == done + (held + future);
    CutAt(done, held + future);
    assert Last(parts) + (held + future) == (Last(parts) + held) + future;
  }

  lemma LastIsClean(done: string)
    ensures var last := Last(Parts(Normalized(done))); NoBreaks(last) && Normalized(last) == last && (last == "" || last[|last| - 1] != '\r')
  {
    var parts := Parts(Normalized(done));
    NoReturns(done);
    PartsClean(Normalized(done));
    assert NoBreaks(parts[|parts| - 1]);
    NormalizedClean(Last(parts));
  }

  /** Text that does not end in a CR can be cut off: its lines are final, its last part goes on. */
  lemma CutAt(done: string, z: string)
    requires done == "" || done[|done| - 1] != '\r' || z == "" || z[0] != '\n'
    ensures var parts := Parts(Normalized(done)); LinesOf(done + z) == Init(parts) + LinesOf(Last(parts) + z)
  {
    hide Parts, Normalized, Stripped, Init, NoBreaks;
    var parts := Parts(Normalized(done));
    NormalizedConcat(done, z);
    PartsConcat(Normalized(done), Normalized(z));
    LastIsClean(done);
    NormalizedConcat(Last(parts), z);
    LinesKeepLast(Init(parts), Parts(Last(parts) + Normalized(z)));
  }

  lemma LinesKeepLast(lines: seq<string>, parts: seq<string>)
    requires parts != []
    ensures Stripped(lines + parts) == lines + Stripped(parts)
  {
  }

  function Concat(chunks: seq<string>): string {
    if chunks == [] then "" else chunks[0] + Concat(chunks[1..])
  }

  /** What the reader says when it is fed chunk by chunk, and then the end. */
  function ReadFrom(pending: string, r: Reading, chunks: seq<string>): seq<Item>
    decreases |chunks|
  {
    if chunks == [] then HandledAll(r, LinesOf(pending)).1
    else
      var (lines, rest) := Fed(pending, chunks[0]);
      var (r1, items) := HandledAll(r, lines);
      items + ReadFrom(rest, r1, chunks[1..])
  }

  lemma {:induction false} ReadFromIs(pending: string, r: Reading, chunks: seq<string>)
    ensures ReadFrom(pending, r, chunks) == HandledAll(r, LinesOf(pending + Concat(chunks))).1
    decreases |chunks|
  {
    if chunks == [] {
      assert pending + "" == pending;
    } else {
      var (lines, rest) := Fed(pending, chunks[0]);
      FedIsExact(pending, chunks[0], Concat(chunks[1..]));
      assert pending + (chunks[0] + Concat(chunks[1..])) == pending + chunks[0] + Concat(chunks[1..]);
      HandledConcat(r, lines, LinesOf(rest + Concat(chunks[1..])));
      ReadFromIs(rest, HandledAll(r, lines).0, chunks[1..]);
    }
  }

  /** MAIN RESULT. However the text is cut into chunks (a CRLF may be cut in two), the reader yields what normalising and
      splitting the whole text yields. */
  lemma ChunksDoNotMatter(chunks: seq<string>)
    ensures ReadFrom("", Fresh, chunks) == ItemsOf(Concat(chunks))
  {
    ReadFromIs("", Fresh, chunks);
    assert "" + Concat(chunks) == Concat(chunks);
  }

  lemma ReadOnce(pending: string, r: Reading, chunks: seq<string>, items: seq<Item>)
    requires chunks != []
    ensures var (lines, rest) := Fed(pending, chunks[0]);
      var (r1, more) := HandledAll(r, lines);
      items + ReadFrom(pending, r, chunks) == (items + more) + ReadFrom(rest, r1, chunks[1..])
  {
    hide Fed, HandledAll;
    var (lines, rest) := Fed(pending, chunks[0]);
    var (r1, more) := HandledAll(r, lines);
    assert items + (more + ReadFrom(rest, r1, chunks[1..])) == (items + more) + ReadFrom(rest, r1, chunks[1..]);
  }

  lemma ReadEnd(pending: string, r: Reading)
    ensures ReadFrom(pending, r, []) == HandledAll(r, LinesOf(pending + "")).1
  {
    assert pending + "" == pending;
  }

  /** The read loop. */
  method ReadSse(chunks: seq<string>) returns (items: seq<Item>)
    ensures items == ItemsOf(Concat(chunks))
  {
    hide Fed, HandledAll, LinesOf, ReadFrom;
    var reader := new SseReader();
    items := [];
    for i := 0 to |chunks|
      invariant items + ReadFrom(reader.pending, reader.Current(), chunks[i..]) == ReadFrom("", Fresh, chunks)
    {
      assert chunks[i..][1..] == chunks[i + 1..];
      ReadOnce(reader.pending, reader.Current(), chunks[i..], items);
      var lines := reader.Lines(chunks[i], false);
      var more := reader.HandleLines(lines);
      items := items + more;
    }
    ReadEnd(reader.pending, reader.Current());
    var lines := reader.Lines("", true);
    var more := reader.HandleLines(lines);
    items := items + more;
    ChunksDoNotMatter(chunks);
  }

  // ------------------------------------------------------------------
  // The printer, and the round trip
  // ------------------------------------------------------------------

  /** What the broker writes to a stream: the opening message, an event, a keepalive. `data` is JSON text. */
  datatype Piece = Opening(data: string) | Event(id: nat, kind: string, data: string) | Keepalive

  function Print(p: Piece): string {
    match p
    case Opening(data) => "event: stream.open\ndata: " + data + "\n\n"
    case Event(id, kind, data) => "id: " + Dec(id) + "\nevent: " + kind + "\ndata: " + data + "\n\n"
    case Keepalive => ": keepalive\n\n"
  }

  function PrintAll(pieces: seq<Piece>): string {
    if pieces == [] then "" else Print(pieces[0]) + PrintAll(pieces[1..])
  }

  function Meaning(p: Piece): Item {
    match p
    case Opening(data) => Message(Nothing, "stream.open", data)
    case Event(id, kind, data) => Message(Just(Dec(id)), kind, data)
    case Keepalive => Comment("keepalive")
  }

  function Meanings(pieces: seq<Piece>): seq<Item> {
    if pieces == [] then [] else [Meaning(pieces[0])] + Meanings(pieces[1..])
  }

  /** Event types are not empty, and neither they nor JSON text contain line breaks. */
  predicate Printable(p: Piece) {
    match p
    case Opening(data) => NoBreaks(data)
    case Event(_, kind, data) => kind != "" && NoBreaks(kind) && NoBreaks(data)
    case Keepalive => true
  }

  /** The lines of one piece. */
  function PieceLines(p: Piece): seq<string> {
    match p
    case Opening(data) => ["event: stream.open", "data: " + data, ""]
    case Event(id, kind, data) => ["id: " + Dec(id), "event: " + kind, "data: " + data, ""]
    case Keepalive => [": keepalive", ""]
  }

  /** A text that is lines, each ended by an LF, splits into those lines. */
  function Ended(lines: seq<string>): string {
    if lines == [] then "" else lines[0] + "\n" + Ended(lines[1..])
  }

  lemma PartsOfLine(line: string, rest: string)
    requires NoBreaks(line)
    ensures Parts(line + "\n" + rest) == [line] + Parts(rest)
  {
    hide Break;
    var text := line + "\n" + rest;
    BreakIs(text, |line|);
    assert text[..|line|] == line && text[|line| + 1..] == rest;
  }

  lemma {:induction false} EndedParts(lines: seq<string>)
    requires forall i :: 0 <= i < |lines| ==> NoBreaks(lines[i])
    ensures Parts(Ended(lines)) == lines + [""]
  {
    hide Parts;
    if lines == [] {
      NoParts();
    } else {
      EndedParts(lines[1..]);
      PartsOfLine(lines[0], Ended(lines[1..]));
      assert [lines[0]] + (lines[1..] + [""]) == lines + [""];
    }
  }

  lemma NoParts()
    ensures Parts("") == [""]
  {
  }

  lemma {:induction false} EndedClean(lines: seq<string>)
    requires forall i :: 0 <= i < |lines| ==> NoBreaks(lines[i])
    ensures '\r' !in Ended(lines)
  {
    if lines != [] {
      EndedClean(lines[1..]);
    }
  }

  lemma EndedSplits(lines: seq<string>)
    requires forall i :: 0 <= i < |lines| ==> NoBreaks(lines[i])
    ensures LinesOf(Ended(lines)) == lines
  {
    hide Parts, Ended, Normalized;
    EndedClean(lines);
    NormalizedClean(Ended(lines));
    EndedParts(lines);
  }

  lemma {:induction false} EndedConcat(a: seq<string>, b: seq<string>)
    ensures Ended(a + b) == Ended(a) + Ended(b)
  {
    if a == [] {
      assert a + b == b;
    } else {
      assert (a + b)[1..] == a[1..] + b;
      EndedConcat(a[1..], b);
    }
  }

  lemma PieceEnds(p: Piece)
    ensures Print(p) == Ended(PieceLines(p))
  {
    hide Ended, Dec;
    match p
    case Opening(data) =>
      Ended3("event: stream.open", "data: " + data);
      assert Print(p) == "event: stream.open" + "\n" + ("data: " + data) + "\n\n";
    case Event(id, kind, data) =>
      Ended4("id: " + Dec(id), "event: " + kind, "data: " + data);
      assert Print(p) == "id: " + Dec(id) + "\n" + ("event: " + kind) + "\n" + ("data: " + data) + "\n\n";
    case Keepalive => Ended2(": keepalive");
  }

  lemma Ended2(a: string)
    ensures Ended([a, ""]) == a + "\n\n"
  {
    assert [a, ""][1..] == [""] && [""][1..] == [];
  }

  lemma Ended3(a: string, b: string)
    ensures Ended([a, b, ""]) == a + "\n" + b + "\n\n"
  {
    assert [a, b, ""][1..] == [b, ""];
    Ended2(b);
  }

  lemma Ended4(a: string, b: string, c: string)
    ensures Ended([a, b, c, ""]) == a + "\n" + b + "\n" + c + "\n\n"
  {
    assert [a, b, c, ""][1..] == [b, c, ""];
    Ended3(b, c);
  }

  // ------------------------------------------------------------------
  // Round trip
  // ------------------------------------------------------------------

  lemma {:induction false} ColonIs(line: string, i: nat)
    requires i < |line| && line[i] == ':' && ':' !in line[..i]
    ensures Colon(line) == i
  {
    if i > 0 {
      assert line[0] == line[..i][0];
      assert line[..i] == [line[0]] + line[1..][..i - 1];
      ColonIs(line[1..], i - 1);
    }
  }

  /** What a printed field says. */
  lemma FieldHandled(r: Reading, name: string, value: string)
    requires name != "" && ':' !in name
    ensures Handled(r, name + ": " + value) ==
            (if name == "data" then r.(data := r.data + [value])
             else if name == "event" then r.(event := value)
             else if name == "id" && '\0' !in value then r.(id := Just(value))
             else r, [])
  {
    var line := name + ": " + value;
    assert line[..|name|] == name;
    ColonIs(line, |name|);
    assert line[|name| + 1..] == " " + value && (" " + value)[1..] == value;
    assert line[0] == name[0] && name[0] in name;
  }

  lemma BlankHandled(r: Reading)
    ensures Handled(r, "") == (Fresh, if r.data != [] then [Message(r.id, if r.event == "" then "message" else r.event, Joined(r.data))] else [])
  {
  }

  lemma KeepaliveHandled()
    ensures Handled(Fresh, ": keepalive") == (Fresh, [Comment("keepalive")])
  {
    var line := ": keepalive";
    assert line[1..] == " keepalive";
    assert " keepalive"[1..] == "keepalive";
    TrimmedStays("keepalive");
    assert TrimLeft("keepalive") == "keepalive";
    assert TrimLeft(" keepalive") == "keepalive";
  }

  lemma HandledTwo(r: Reading, a: string, b: string)
    ensures var (r1, i1) := Handled(r, a); var (r2, i2) := Handled(r1, b); HandledAll(r, [a, b]) == (r2, i1 + i2)
  {
    hide Handled;
    assert [a, b][1..] == [b] && [b][1..] == [];
    var (r1, i1) := Handled(r, a);
    var (r2, i2) := Handled(r1, b);
    assert HandledAll(r2, []) == (r2, []);
    assert i2 + [] == i2;
    assert HandledAll(r1, [b]) == (r2, i2);
  }

  /** One printed piece is one item, and leaves nothing behind. */
  lemma PieceHandled(p: Piece)
    requires Printable(p)
    ensures HandledAll(Fresh, PieceLines(p)) == (Fresh, [Meaning(p)])
  {
    hide Handled, Dec;
    match p
    case Opening(data) =>
      FieldHandled(Fresh, "event", "stream.open");
      var r1 := Fresh.(event := "stream.open");
      assert "event" + ": " + "stream.open" == "event: stream.open";
      FieldHandled(r1, "data", data);
      assert "data" + ": " + data == "data: " + data;
      LastTwo(r1, data);
      assert ["event: stream.open", "data: " + data, ""][1..] == ["data: " + data, ""];
      assert [] + [Meaning(p)] == [Meaning(p)];
    case Event(id, kind, data) =>
      NoNul(id);
      FieldHandled(Fresh, "id", Dec(id));
      assert "id" + ": " + Dec(id) == "id: " + Dec(id);
      var r1 := Fresh.(id := Just(Dec(id)));
      FieldHandled(r1, "event", kind);
      assert "event" + ": " + kind == "event: " + kind;
      var r2 := r1.(event := kind);
      LastTwo(r2, data);
      var lines := PieceLines(p);
      assert lines[1..] == ["event: " + kind, "data: " + data, ""] && lines[1..][1..] == ["data: " + data, ""];
      assert [] + [Meaning(p)] == [Meaning(p)];
    case Keepalive =>
      KeepaliveHandled();
      BlankHandled(Fresh);
      HandledTwo(Fresh, ": keepalive", "");
      assert [Comment("keepalive")] + [] == [Comment("keepalive")];
  }

  lemma LastTwo(r: Reading, data: string)
    requires r.data == [] && r.event != ""
    ensures HandledAll(r, ["data: " + data, ""]) == (Fresh, [Message(r.id, r.event, data)])
  {
    hide Handled;
    FieldHandled(r, "data", data);
    assert "data" + ": " + data == "data: " + data;
    var r1 := r.(data := [data]);
    assert r.data + [data] == [data];
    BlankHandled(r1);
    HandledTwo(r, "data: " + data, "");
    assert [] + [Message(r.id, r.event, data)] == [Message(r.id, r.event, data)];
  }

  lemma NoNul(id: nat)
    ensures '\0' !in Dec(id)
  {
  }

  function AllLines(pieces: seq<Piece>): seq<string> {
    if pieces == [] then [] else PieceLines(pieces[0]) + AllLines(pieces[1..])
  }

  lemma {:induction false} AllHandled(pieces: seq<Piece>)
    requires forall i :: 0 <= i < |pieces| ==> Printable(pieces[i])
    ensures HandledAll(Fresh, AllLines(pieces)) == (Fresh, Meanings(pieces))
    ensures PrintAll(pieces) == Ended(AllLines(pieces))
    ensures forall i :: 0 <= i < |AllLines(pieces)| ==> NoBreaks(AllLines(pieces)[i])
  {
    hide HandledAll, PieceLines, Print, Ended;
    if pieces == [] {
      NothingHandled();
    } else {
      AllHandled(pieces[1..]);
      PieceHandled(pieces[0]);
      PieceEnds(pieces[0]);
      PieceClean(pieces[0]);
      HandledConcat(Fresh, PieceLines(pieces[0]), AllLines(pieces[1..]));
      EndedConcat(PieceLines(pieces[0]), AllLines(pieces[1..]));
    }
  }

  lemma NothingHandled()
    ensures HandledAll(Fresh, []) == (Fresh, []) && Ended([]) == ""
  {
  }

  lemma PieceClean(p: Piece)
    requires Printable(p)
    ensures forall i :: 0 <= i < |PieceLines(p)| ==> NoBreaks(PieceLines(p)[i])
  {
  }

  /** MAIN RESULT. Reading what the broker printed (opening messages, events and keepalives, in any order) gives those
      messages back, each with its id, type and data, however the text is cut into chunks. */
  lemma ReadingUndoesPrinting(pieces: seq<Piece>, chunks: seq<string>)
    requires (forall i :: 0 <= i < |pieces| ==> Printable(pieces[i])) && Concat(chunks) == PrintAll(pieces)
    ensures ReadFrom("", Fresh, chunks) == Meanings(pieces)
  {
    hide LinesOf, HandledAll, ReadFrom;
    ChunksDoNotMatter(chunks);
    AllHandled(pieces);
    EndedSplits(AllLines(pieces));
  }

  // ------------------------------------------------------------------
  // Data of several lines
  // ------------------------------------------------------------------

  function DataLines(data: seq<string>): seq<string> {
    if data == [] then [] else DataLines(data[..|data| - 1]) + ["data: " + data[|data| - 1]]
  }

  /** Data fields add up. */
  lemma {:induction false} DataHandled(data: seq<string>)
    ensures HandledAll(Fresh, DataLines(data)) == (Fresh.(data := data), [])
  {
    hide HandledAll, Handled;
    if data == [] {
      NothingHandled();
    } else {
      var n := |data| - 1;
      DataHandled(data[..n]);
      HandledMore(Fresh, DataLines(data[..n]), "data: " + data[n]);
      FieldHandled(Fresh.(data := data[..n]), "data", data[n]);
      assert "data" + ": " + data[n] == "data: " + data[n];
      assert data[..n] + [data[n]] == data;
      var none: seq<Item> := [];
      assert none + [] == none;
    }
  }

  lemma {:induction false} JoinedParts(lines: seq<string>)
    requires lines != [] && forall i :: 0 <= i < |lines| ==> NoBreaks(lines[i])
    ensures Parts(Joined(lines)) == lines
  {
    hide Parts;
    if |lines| == 1 {
      OnePart(lines[0]);
      assert lines == [lines[0]];
    } else {
      JoinedParts(lines[1..]);
      PartsOfLine(lines[0], Joined(lines[1..]));
    }
  }

  lemma OnePart(line: string)
    requires NoBreaks(line)
    ensures Parts(line) == [line]
  {
    BreakIs(line, |line|);
  }

  /** MAIN RESULT. A message whose data was sent line by line is one message: an ordinary one, without an id, whose data is those lines
      and nothing else, in their order. */
  lemma DataLinesAreOneMessage(lines: seq<string>)
    requires lines != [] && forall i :: 0 <= i < |lines| ==> NoBreaks(lines[i])
    ensures var (r, items) := HandledAll(Fresh, DataLines(lines) + [""]);
      && r == Fresh && |items| == 1 && items[0].Message? && items[0].id == Nothing && items[0].event == "message" && Parts(items[0].data) == lines
  {
    hide HandledAll, Handled, Parts;
    DataHandled(lines);
    HandledMore(Fresh, DataLines(lines), "");
    BlankHandled(Fresh.(data := lines));
    JoinedParts(lines);
  }
}
