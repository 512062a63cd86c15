/**
 Run events on their way to the browser: the frame printer
 (services/control-plane/internal/httpapi/run_events.go), the incremental parser with its cursor and
 reconnect loop (apps/web/src/lib/api/sse.ts) and the client's log
 (apps/web/src/features/runs/runStore.ts). JSON is a parameter that encodes without line breaks.
 */
module Sse {
  import opened Basics
  import opened RunState
  import opened RunStore
  import opened Protocol
  import opened ProtocolProofs
  import opened ProtocolTheorems

  /** A run event as it travels; `body` stands for its payload. */
  datatype Message = Message(run: RunId, sequence: nat, name: string, body: string)

  datatype Codec = Codec(encode: Message -> string, decode: string -> Option<Message>)

  predicate Break(c: char) { c == '\r' || c == '\n' }

  predicate NoBreak(s: string) { forall i :: 0 <= i < |s| ==> !Break(s[i]) }

  ghost predicate Faithful(codec: Codec) {
    forall m: Message :: NoBreak(codec.encode(m)) && codec.decode(codec.encode(m)) == Some(m)
  }

  const MAX_SAFE_INTEGER: nat := 0x1f_ffff_ffff_ffff

  // ---- Decimal IDs -------------------------------------------------------------------------

  predicate Digit(c: char) { '0' <= c <= '9' }

  function Digits(n: nat): (s: string)
    ensures |s| > 0 && forall i :: 0 <= i < |s| ==> Digit(s[i])
  {
    (if n < 10 then "" else Digits(n / 10)) + [('0' as int + n % 10) as char]
  }

  /** Number(id) of a string that matches ^\d+$. */
  function Number(s: string): nat
    requires forall i :: 0 <= i < |s| ==> Digit(s[i])
  {
    if s == "" then 0
    else
      assert Digit(s[|s| - 1]);
      Number(s[..|s| - 1]) * 10 + (s[|s| - 1] as int - '0' as int)
  }

  lemma {:induction false} NumberOfDigits(n: nat)
    ensures Number(Digits(n)) == n
  {
    var s := Digits(n);
    var last := ('0' as int + n % 10) as char;
    assert s[|s| - 1] == last && last as int == '0' as int + n % 10;
    if n < 10 {
      assert s[..|s| - 1] == "";
    } else {
      NumberOfDigits(n / 10);
      assert s[..|s| - 1] == Digits(n / 10);
    }
  }

  // ---- Lines -------------------------------------------------------------------------------

  function FirstBreak(s: string): (i: nat)
    ensures i <= |s| && (forall k :: 0 <= k < i ==> !Break(s[k])) && (i < |s| ==> Break(s[i]))
  {
    if s == "" || Break(s[0]) then 0
    else
      var i := 1 + FirstBreak(s[1..]);
      assert forall k :: 1 <= k < i ==> s[k] == s[1..][k - 1];
      i
  }

  /** Where the line after the break at i starts: CRLF is one break. */
  function NextLine(s: string, i: nat): (n: nat)
    requires i < |s|
    ensures i < n <= |s|
  {
    if s[i] == '\r' && i + 1 < |s| && s[i + 1] == '\n' then i + 2 else i + 1
  }

  /** The terminated lines of a text; an open text may continue, so a final CR does not count yet. */
  function Lines(s: string, closed: bool): seq<string>
    decreases |s|
  {
    var i := FirstBreak(s);
    if i == |s| || (!closed && s[i] == '\r' && i == |s| - 1) then []
    else [s[..i]] + Lines(s[NextLine(s, i)..], closed)
  }

  lemma FirstBreakUnique(s: string, i: nat)
    requires i < |s| && (forall k :: 0 <= k < i ==> !Break(s[k])) && Break(s[i])
    ensures FirstBreak(s) == i
  {
    hide FirstBreak;
    var j := FirstBreak(s);
    assert Break(s[i]);
  }

  /** A line that is certainly complete can be split off before the rest of the text is known. */
  lemma SplitOff(s: string, rest: string, closed: bool)
    requires FirstBreak(s) < |s|
    requires !(s[FirstBreak(s)] == '\r' && FirstBreak(s) == |s| - 1) || (rest == "" && closed)
    ensures Lines(s + rest, closed) ==
            [s[..FirstBreak(s)]] + Lines(s[NextLine(s, FirstBreak(s))..] + rest, closed)
  {
    var i := FirstBreak(s);
    var all := s + rest;
    assert all[..i] == s[..i] && all[i] == s[i];
    FirstBreakUnique(all, i);
    assert NextLine(all, i) == NextLine(s, i);
    assert all[NextLine(s, i)..] == s[NextLine(s, i)..] + rest;
  }

  // ---- Fields and events -------------------------------------------------------------------

  datatype Parser = Parser(id: string, data: seq<string>)

  const START := Parser("", [])

  /** A blank line after at least one data line. */
  datatype Dispatch = Dispatch(id: string, data: string)

  function IndexOfColon(line: string): (i: nat)
    ensures i <= |line|
  {
    if line == "" || line[0] == ':' then 0 else 1 + IndexOfColon(line[1..])
  }

  function JoinLines(data: seq<string>): string {
    if data == [] then "" else if |data| == 1 then data[0]
    else JoinLines(data[..|data| - 1]) + "\n" + data[|data| - 1]
  }

  /** One line: comments and unknown fields change nothing, a blank line resets ID and data. */
  function Field(p: Parser, line: string): (Parser, Option<Dispatch>) {
    if line == "" then (START, if p.data == [] then None else Some(Dispatch(p.id, JoinLines(p.data))))
    else if line[0] == ':' then (p, None)
    else
      var colon := IndexOfColon(line);
      var field := line[..colon];
      var raw := if colon == |line| then "" else line[colon + 1..];
      var text := if raw != "" && raw[0] == ' ' then raw[1..] else raw;
      (if field == "id" then p.(id := text) else if field == "data" then p.(data := p.data + [text]) else p, None)
  }

  function ParserAfter(lines: seq<string>): Parser {
    if lines == [] then START else Field(ParserAfter(lines[..|lines| - 1]), lines[|lines| - 1]).0
  }

  /** The events that a list of lines dispatches. */
  function Dispatches(lines: seq<string>): seq<Dispatch> {
    if lines == [] then []
    else
      var n := |lines| - 1;
      var d := Field(ParserAfter(lines[..n]), lines[n]).1;
      Dispatches(lines[..n]) + (if d.Some? then [d.value] else [])
  }

  lemma {:induction false} DispatchesGrow(lines: seq<string>, k: nat)
    requires k <= |lines|
    ensures Dispatches(lines[..k]) <= Dispatches(lines)
  {
    if k == |lines| {
      assert lines[..k] == lines;
    } else {
      var n := |lines| - 1;
      DispatchesGrow(lines[..n], k);
      assert lines[..n][..k] == lines[..k];
    }
  }

  // ---- The printer -------------------------------------------------------------------------

  function EventName(name: string): string {
    if exists i :: 0 <= i < |name| && Break(name[i]) then "message" else name
  }

  function FrameLines(codec: Codec, m: Message): seq<string> {
    ["id: " + Digits(m.sequence), "event: " + EventName(m.name), "data: " + codec.encode(m), ""]
  }

  function Unlines(lines: seq<string>): string {
    if lines == [] then "" else lines[0] + "\n" + Unlines(lines[1..])
  }

  function PrintedLines(codec: Codec, ms: seq<Message>): seq<string> {
    if ms == [] then [] else PrintedLines(codec, ms[..|ms| - 1]) + FrameLines(codec, ms[|ms| - 1])
  }

  function Frame(codec: Codec, m: Message): string {
    "id: " + Digits(m.sequence) + "\nevent: " + EventName(m.name) + "\ndata: " + codec.encode(m) + "\n\n"
  }

  function Print(codec: Codec, ms: seq<Message>): string {
    if ms == [] then "" else Print(codec, ms[..|ms| - 1]) + Frame(codec, ms[|ms| - 1])
  }

  lemma {:induction false} UnlinesAppend(a: seq<string>, b: seq<string>)
    ensures Unlines(a + b) == Unlines(a) + Unlines(b)
  {
    if a == [] {
      assert a + b == b;
    } else {
      UnlinesAppend(a[1..], b);
      assert (a + b)[1..] == a[1..] + b;
    }
  }

  lemma {:induction false} PrintIsUnlines(codec: Codec, ms: seq<Message>)
    ensures Print(codec, ms) == Unlines(PrintedLines(codec, ms))
  {
    if ms != [] {
      var m := ms[|ms| - 1];
      PrintIsUnlines(codec, ms[..|ms| - 1]);
      UnlinesAppend(PrintedLines(codec, ms[..|ms| - 1]), FrameLines(codec, m));
      FrameIsUnlines(codec, m);
    }
  }

  lemma FrameIsUnlines(codec: Codec, m: Message)
    ensures Frame(codec, m) == Unlines(FrameLines(codec, m))
  {
    var l := FrameLines(codec, m);
    assert Unlines(l[4..]) == "";
    assert Unlines(l[3..]) == "\n" by { assert l[3..][1..] == l[4..]; }
    assert Unlines(l[2..]) == l[2] + "\n" + Unlines(l[3..]) by { assert l[2..][1..] == l[3..]; }
    assert Unlines(l[1..]) == l[1] + "\n" + Unlines(l[2..]) by { assert l[1..][1..] == l[2..]; }
    assert Unlines(l) == l[0] + "\n" + Unlines(l[1..]);
  }

  lemma FirstLine(text: string, line: string, closed: bool)
    requires NoBreak(line) && line + "\n" <= text
    ensures Lines(text, closed) == [line] + Lines(text[|line| + 1..], closed)
  {
    var i := |line|;
    assert text[..i] == (line + "\n")[..i] == line && text[i] == (line + "\n")[i];
    forall k | 0 <= k < i ensures !Break(text[k]) { assert text[k] == line[k]; }
    FirstBreakUnique(text, i);
  }

  lemma NoLine(text: string, line: string, closed: bool)
    requires NoBreak(line) && text <= line
    ensures Lines(text, closed) == []
  {
    forall k | 0 <= k < |text| ensures !Break(text[k]) { assert text[k] == line[k]; }
  }

  /** Whatever part of the printed lines has arrived, its complete lines are the first printed ones. */
  lemma {:induction false} LinesOfPrefix(lines: seq<string>, text: string, closed: bool)
    requires forall k :: 0 <= k < |lines| ==> NoBreak(lines[k])
    requires text <= Unlines(lines)
    ensures Lines(text, closed) <= lines
    ensures text == Unlines(lines) ==> Lines(text, closed) == lines
    decreases |lines|
  {
    hide Lines, FirstBreak, NoBreak;
    if lines == [] {
      NoLine(text, "", closed);
    } else {
      var line, rest := lines[0], Unlines(lines[1..]);
      var whole := line + "\n" + rest;
      if |text| <= |line| {
        assert text == whole[..|text|] == line[..|text|];
        NoLine(text, line, closed);
      } else {
        var head := |line| + 1;
        assert text[..head] == whole[..head] == line + "\n";
        FirstLine(text, line, closed);
        assert text[head..] == whole[head..|text|] == rest[..|text| - head];
        LinesOfPrefix(lines[1..], text[head..], closed);
        assert text == whole ==> text[head..] == rest;
      }
    }
  }

  // ---- The codec ---------------------------------------------------------------------------

  function Framed(codec: Codec, ms: seq<Message>): seq<Dispatch> {
    if ms == [] then []
    else Framed(codec, ms[..|ms| - 1]) + [Dispatch(Digits(ms[|ms| - 1].sequence), codec.encode(ms[|ms| - 1]))]
  }

  lemma {:induction false} FramedAt(codec: Codec, ms: seq<Message>, k: nat)
    requires k < |ms|
    ensures |Framed(codec, ms)| == |ms|
    ensures Framed(codec, ms)[k] == Dispatch(Digits(ms[k].sequence), codec.encode(ms[k]))
  {
    if k < |ms| - 1 {
      FramedAt(codec, ms[..|ms| - 1], k);
    } else if |ms| > 1 {
      FramedAt(codec, ms[..|ms| - 1], 0);
    }
  }

  lemma {:induction false} PrintedNoBreak(codec: Codec, ms: seq<Message>)
    requires Faithful(codec)
    ensures forall k :: 0 <= k < |PrintedLines(codec, ms)| ==> NoBreak(PrintedLines(codec, ms)[k])
  {
    if ms != [] {
      PrintedNoBreak(codec, ms[..|ms| - 1]);
      FrameNoBreak(codec, ms[|ms| - 1]);
    }
  }

  lemma FrameNoBreak(codec: Codec, m: Message)
    requires Faithful(codec)
    ensures forall k :: 0 <= k < 4 ==> NoBreak(FrameLines(codec, m)[k])
  {
    assert NoBreak("id: ") && NoBreak("event: ") && NoBreak("data: ") && NoBreak("message") && NoBreak("");
    assert NoBreak(Digits(m.sequence)) && NoBreak(EventName(m.name)) && NoBreak(codec.encode(m));
  }

  lemma OneMoreLine(lines: seq<string>, line: string)
    ensures ParserAfter(lines + [line]) == Field(ParserAfter(lines), line).0
    ensures var d := Field(ParserAfter(lines), line).1;
            Dispatches(lines + [line]) == if d.Some? then Dispatches(lines) + [d.value] else Dispatches(lines)
  {
    assert (lines + [line])[..|lines|] == lines;
    assert Dispatches(lines) + [] == Dispatches(lines);
  }

  lemma FieldValue(name: string, value: string, p: Parser)
    requires name in {"id", "event", "data"}
    ensures Field(p, name + ": " + value) ==
            (if name == "id" then p.(id := value) else if name == "data" then p.(data := p.data + [value]) else p, None)
  {
    hide IndexOfColon;
    assert name[0] != ':';
    FieldParts(name, value);
  }

  lemma FieldParts(name: string, value: string)
    requires name != "" && forall k :: 0 <= k < |name| ==> name[k] != ':'
    ensures var line := name + ": " + value;
            && line != "" && line[0] == name[0] && IndexOfColon(line) == |name| < |line|
            && line[..|name|] == name
            && line[|name| + 1..] == " " + value && (" " + value)[0] == ' ' && (" " + value)[1..] == value
  {
    hide IndexOfColon;
    var line := name + ": " + value;
    ColonAfter(name, ": " + value);
    assert line == name + (": " + value);
    assert line[|name|..] == ": " + value;
    assert line[|name| + 1..] == line[|name|..][1..] == " " + value;
  }

  lemma {:induction false} ColonAfter(name: string, rest: string)
    requires (forall k :: 0 <= k < |name| ==> name[k] != ':') && rest != "" && rest[0] == ':'
    ensures IndexOfColon(name + rest) == |name|
  {
    if name == "" {
      assert name + rest == rest;
    } else {
      assert (name + rest)[1..] == name[1..] + rest;
      ColonAfter(name[1..], rest);
    }
  }

  lemma BlankLine(id: string, value: string)
    ensures Field(Parser(id, [] + [value]), "") == (START, Some(Dispatch(id, value)))
  {
    assert [] + [value] == [value];
  }

  /** A printed frame dispatches its own event and leaves the parser as it began. */
  lemma FrameDispatches(codec: Codec, lines: seq<string>, m: Message)
    requires ParserAfter(lines) == START
    ensures ParserAfter(lines + FrameLines(codec, m)) == START
    ensures Dispatches(lines + FrameLines(codec, m)) == Dispatches(lines) + [Dispatch(Digits(m.sequence), codec.encode(m))]
  {
    hide ParserAfter, Dispatches, Digits, EventName, IndexOfColon;
    var l := FrameLines(codec, m);
    var l1, l2, l3 := lines + [l[0]], lines + [l[0], l[1]], lines + [l[0], l[1], l[2]];
    FieldValue("id", Digits(m.sequence), START);
    FieldValue("event", EventName(m.name), Parser(Digits(m.sequence), []));
    FieldValue("data", codec.encode(m), Parser(Digits(m.sequence), []));
    assert "id" + ": " == "id: " && "event" + ": " == "event: " && "data" + ": " == "data: ";
    OneMoreLine(lines, l[0]);
    assert ParserAfter(l1) == Parser(Digits(m.sequence), []) && Dispatches(l1) == Dispatches(lines);
    OneMoreLine(l1, l[1]);
    assert l1 + [l[1]] == l2;
    OneMoreLine(l2, l[2]);
    assert l2 + [l[2]] == l3;
    BlankLine(Digits(m.sequence), codec.encode(m));
    assert ParserAfter(l3) == Parser(Digits(m.sequence), [] + [codec.encode(m)]) && Dispatches(l3) == Dispatches(lines);
    OneMoreLine(l3, l[3]);
    assert l3 + [l[3]] == lines + l;
  }

  lemma {:induction false} PrintedDispatches(codec: Codec, ms: seq<Message>)
    ensures ParserAfter(PrintedLines(codec, ms)) == START
    ensures Dispatches(PrintedLines(codec, ms)) == Framed(codec, ms)
  {
    if ms != [] {
      PrintedDispatches(codec, ms[..|ms| - 1]);
      FrameDispatches(codec, PrintedLines(codec, ms[..|ms| - 1]), ms[|ms| - 1]);
    }
  }

  /** Parsing what was printed gives the printed events, in order; any part of it gives the first ones. */
  lemma ParsePrinted(codec: Codec, ms: seq<Message>, text: string, closed: bool)
    requires Faithful(codec) && text <= Print(codec, ms)
    ensures Dispatches(Lines(text, closed)) <= Framed(codec, ms)
    ensures text == Print(codec, ms) ==> Dispatches(Lines(text, closed)) == Framed(codec, ms)
  {
    var printed := PrintedLines(codec, ms);
    PrintIsUnlines(codec, ms);
    PrintedNoBreak(codec, ms);
    LinesOfPrefix(printed, text, closed);
    PrintedDispatches(codec, ms);
    var lines := Lines(text, closed);
    assert lines == printed[..|lines|];
    DispatchesGrow(printed, |lines|);
  }

  // ---- The client --------------------------------------------------------------------------

  predicate ProductTerminal(name: string) {
    name in {"run.succeeded", "run.failed", "run.cancelled", "run.interrupted"}
  }

  /** The run's cursor and applied events; `known` says whether the client holds the run itself. */
  datatype Feed = Feed(cursor: nat, applied: seq<Message>, known: bool)

  /** What becomes of a handler: it completes, throws before applying, or the signal aborts around it. */
  datatype Outcome = Handled | Threw | Aborted(applied: bool)

  datatype Verdict = Continue | Finished | Broken | Stopped

  /** runStore.apply */
  function Applied(f: Feed, m: Message): Feed {
    if m.sequence <= f.cursor || !f.known then f else f.(applied := f.applied + [m], cursor := m.sequence)
  }

  predicate AllDigits(s: string) {
    s != "" && forall i :: 0 <= i < |s| ==> Digit(s[i])
  }

  predicate Acceptable(m: Message, run: RunId, id: string) {
    AllDigits(id) && m.run == run && m.sequence <= MAX_SAFE_INTEGER && m.sequence == Number(id)
  }

  /** One dispatched event: validation, the cursor check, the handler, the cursor. */
  function Accept(f: Feed, codec: Codec, run: RunId, d: Dispatch, o: Outcome): (Feed, Verdict) {
    var decoded := codec.decode(d.data);
    if decoded.None? || !Acceptable(decoded.value, run, d.id) then (f, Broken)
    else
      var m := decoded.value;
      if m.sequence <= f.cursor then (f, Continue)
      else match o
        case Threw => (f, Broken)
        case Aborted(applied) => (if applied then Applied(f, m) else f, Stopped)
        case Handled => (Applied(f, m).(cursor := m.sequence), if ProductTerminal(m.name) then Finished else Continue)
  }

  function OutcomeAt(os: seq<Outcome>, k: nat): Outcome {
    if k < |os| then os[k] else Handled
  }

  /** A connection's events in order, up to the first that ends it. */
  function Handle(f: Feed, codec: Codec, run: RunId, ds: seq<Dispatch>, os: seq<Outcome>): (Feed, Verdict) {
    if ds == [] then (f, Continue)
    else
      var n := |ds| - 1;
      var (g, v) := Handle(f, codec, run, ds[..n], os);
      if v != Continue then (g, v) else Accept(g, codec, run, ds[n], OutcomeAt(os, n))
  }

  lemma {:induction false} HandleStops(f: Feed, codec: Codec, run: RunId, ds: seq<Dispatch>, k: nat, os: seq<Outcome>)
    requires k <= |ds| && Handle(f, codec, run, ds[..k], os).1 != Continue
    ensures Handle(f, codec, run, ds, os) == Handle(f, codec, run, ds[..k], os)
  {
    if k == |ds| {
      assert ds[..k] == ds;
    } else {
      assert ds[..|ds| - 1][..k] == ds[..k];
      HandleStops(f, codec, run, ds[..|ds| - 1], k, os);
    }
  }

  function Concat(chunks: seq<string>): string {
    if chunks == [] then "" else chunks[0] + Concat(chunks[1..])
  }

  class Client {
    var cursor: nat
    var applied: seq<Message>
    var known: bool

    constructor (known: bool)
      ensures State() == Feed(0, [], known)
    {
      cursor, applied, this.known := 0, [], known;
    }

    function State(): Feed
      reads this
    {
      Feed(cursor, applied, known)
    }

    /** runStore.apply */
    method Apply(m: Message)
      modifies this`cursor, this`applied
      ensures State() == Applied(old(State()), m)
    {
      if m.sequence <= cursor { return; }
      if !known { return; }
      applied := applied + [m];
      cursor := m.sequence;
    }

    method Deliver(codec: Codec, run: RunId, d: Dispatch, o: Outcome) returns (v: Verdict)
      modifies this`cursor, this`applied
      ensures (State(), v) == Accept(old(State()), codec, run, d, o)
    {
      var decoded := codec.decode(d.data);
      if decoded.None? || !Acceptable(decoded.value, run, d.id) { return Broken; }
      var m := decoded.value;
      if m.sequence <= cursor { return Continue; }
      if o == Threw { return Broken; }
      if o != Aborted(false) { Apply(m); }
      if o.Aborted? { return Stopped; }
      cursor := m.sequence;
      v := if ProductTerminal(m.name) then Finished else Continue;
    }

    /**
     The inner loop: complete lines leave the buffer one by one. `seen` lists them; `rest` is the text
     still to come.
     */
    method Drain(codec: Codec, run: RunId, text: string, done: bool, at: Parser, n: nat, os: seq<Outcome>,
                 ghost start: Feed, ghost seen: seq<string>, ghost rest: string, ghost closed: bool)
      returns (buffer: string, p: Parser, k: nat, v: Verdict, ghost read: seq<string>)
      requires done ==> rest == "" && closed
      requires at == ParserAfter(seen) && n == |Dispatches(seen)|
      requires (State(), Continue) == Handle(start, codec, run, Dispatches(seen), os)
      modifies this`cursor, this`applied
      ensures (State(), v) == Handle(start, codec, run, Dispatches(read), os)
      ensures if v == Continue then read + Lines(buffer + rest, closed) == seen + Lines(text + rest, closed)
              else read <= seen + Lines(text + rest, closed)
      ensures v == Continue ==> p == ParserAfter(read) && k == |Dispatches(read)| && Lines(buffer, done) == []
    {
      hide Lines, Field, ParserAfter, Dispatches, Handle, FirstBreak, Accept;
      buffer, p, k, v, read := text, at, n, Continue, seen;
      while FirstBreak(buffer) < |buffer| && (done || buffer[FirstBreak(buffer)] != '\r' || FirstBreak(buffer) != |buffer| - 1)
        invariant v == Continue && (State(), v) == Handle(start, codec, run, Dispatches(read), os)
        invariant read + Lines(buffer + rest, closed) == seen + Lines(text + rest, closed)
        invariant p == ParserAfter(read) && k == |Dispatches(read)|
        decreases |buffer|
      {
        var i := FirstBreak(buffer);
        var line := buffer[..i];
        SplitOff(buffer, rest, closed);
        buffer := buffer[NextLine(buffer, i)..];
        ghost var before := read;
        OneMoreLine(read, line);
        read := read + [line];
        assert before + ([line] + Lines(buffer + rest, closed)) == read + Lines(buffer + rest, closed);
        var (next, d) := Field(p, line);
        p := next;
        if d.Some? {
          HandleOneMore(start, codec, run, Dispatches(before), d.value, os);
          v := Deliver(codec, run, d.value, OutcomeAt(os, k));
          if v != Continue { return; }
          k := k + 1;
        }
      }
      NothingToSplit(buffer, done);
    }

    /**
     One connection. However the text is cut into chunks, also between CR and LF, the client ends up
     exactly as if it had parsed the whole text at once.
     */
    method ReadConnection(codec: Codec, run: RunId, chunks: seq<string>, closed: bool, os: seq<Outcome>) returns (v: Verdict)
      modifies this`cursor, this`applied
      ensures (State(), v) == Handle(old(State()), codec, run, Dispatches(Lines(Concat(chunks), closed)), os)
    {
      hide Lines, Field, ParserAfter, Dispatches, Handle;
      ghost var start, all := State(), Lines(Concat(chunks), closed);
      ghost var seen: seq<string> := [];
      var buffer, p, n := "", START, 0;
      NothingRead(start, codec, run, os);
      var j := 0;
      assert chunks[0..] == chunks && "" + Concat(chunks) == Concat(chunks) && [] + all == all;
      while j < |chunks|
        invariant 0 <= j <= |chunks|
        invariant p == ParserAfter(seen) && n == |Dispatches(seen)|
        invariant (State(), Continue) == Handle(start, codec, run, Dispatches(seen), os)
        invariant seen + Lines(buffer + Concat(chunks[j..]), closed) == all
        invariant Lines(buffer, false) == []
      {
        ghost var rest := Concat(chunks[j + 1..]);
        assert chunks[j..][1..] == chunks[j + 1..];
        assert buffer + Concat(chunks[j..]) == (buffer + chunks[j]) + rest;
        ghost var read;
        buffer, p, n, v, read := Drain(codec, run, buffer + chunks[j], false, p, n, os, start, seen, rest, closed);
        if v != Continue {
          StoppedEarly(start, codec, run, read, all, os);
          return;
        }
        seen := read;
        j := j + 1;
      }
      assert chunks[j..] == [] && buffer + "" == buffer;
      if closed {
        ghost var read;
        buffer, p, n, v, read := Drain(codec, run, buffer, true, p, n, os, start, seen, "", true);
        if v != Continue {
          StoppedEarly(start, codec, run, read, all, os);
          return;
        }
        seen := read;
        assert buffer + "" == buffer;
      }
      assert seen + [] == seen;
      v := Continue;
    }

    /**
     streamRunEvents over any number of connections. The durable log grows, each connection serves what
     its logs found, the network delivers any part of it in any pieces, handlers may fail, and the
     client asks again from its cursor: what it has applied is always the log up to its cursor.
     */
    method Watch(codec: Codec, run: RunId, world: seq<Message>, connections: seq<Connection>) returns (v: Verdict)
      requires Faithful(codec) && LogFor(run, world) && Exact(State(), world)
      modifies this`cursor, this`applied
      ensures Exact(State(), world) && old(cursor) <= cursor
      ensures v == Finished ==> cursor > 0 && ProductTerminal(world[cursor - 1].name)
      ensures known || cursor == 0 <==> applied == world[..cursor]
    {
      hide Handle, Dispatches, Lines, Print, ListEvents, Concat, Faithful;
      v := Continue;
      AppliedIffKnown(State(), world);
      var j := 0;
      while j < |connections|
        invariant Exact(State(), world) && old(cursor) <= cursor && v != Finished
        invariant (known || cursor == 0 <==> applied == world[..cursor])
      {
        var c := connections[j];
        j := j + 1;
        if Growing(c.logs) && (forall k :: 0 <= k < |c.logs| ==> c.logs[k] <= world) {
          var written := StreamEvents(codec, run, cursor, c.logs);
          if Concat(c.chunks) <= written {
            ghost var f := State();
            v := ReadConnection(codec, run, c.chunks, c.closed, c.outcomes);
            ConnectionExact(f, codec, run, world, c.logs, Concat(c.chunks), c.closed, c.outcomes);
            AppliedIffKnown(State(), world);
            if v == Finished || v == Stopped { return; }
          }
        }
      }
    }
  }

  lemma NothingToSplit(s: string, done: bool)
    requires !(FirstBreak(s) < |s| && (done || s[FirstBreak(s)] != '\r' || FirstBreak(s) != |s| - 1))
    ensures Lines(s, done) == []
  {
  }

  lemma NothingRead(f: Feed, codec: Codec, run: RunId, os: seq<Outcome>)
    ensures ParserAfter([]) == START && Dispatches([]) == [] && Lines("", false) == []
    ensures Handle(f, codec, run, Dispatches([]), os) == (f, Continue)
  {
  }

  lemma HandleOneMore(f: Feed, codec: Codec, run: RunId, ds: seq<Dispatch>, d: Dispatch, os: seq<Outcome>)
    requires Handle(f, codec, run, ds, os).1 == Continue
    ensures Handle(f, codec, run, ds + [d], os) == Accept(Handle(f, codec, run, ds, os).0, codec, run, d, OutcomeAt(os, |ds|))
  {
    assert (ds + [d])[..|ds|] == ds;
  }

  lemma StoppedEarly(f: Feed, codec: Codec, run: RunId, read: seq<string>, all: seq<string>, os: seq<Outcome>)
    requires read <= all && Handle(f, codec, run, Dispatches(read), os).1 != Continue
    ensures Handle(f, codec, run, Dispatches(all), os) == Handle(f, codec, run, Dispatches(read), os)
  {
    assert read == all[..|read|];
    DispatchesGrow(all, |read|);
    var n := |Dispatches(read)|;
    assert Dispatches(all)[..n] == Dispatches(read);
    HandleStops(f, codec, run, Dispatches(all), n, os);
  }

  // ---- The server's cursor loop ------------------------------------------------------------

  /** SELECT ... WHERE sequence > after ORDER BY sequence */
  function ListEvents(log: seq<Message>, after: nat): seq<Message> {
    if log == [] then []
    else
      var n := |log| - 1;
      ListEvents(log[..n], after) + (if log[n].sequence > after then [log[n]] else [])
  }

  /** A run's visible log: numbered from one. */
  predicate LogFor(run: RunId, log: seq<Message>) {
    |log| <= MAX_SAFE_INTEGER && forall i :: 0 <= i < |log| ==> log[i].run == run && log[i].sequence == i + 1
  }

  lemma {:induction false} ListEventsIsTail(run: RunId, log: seq<Message>, after: nat)
    requires LogFor(run, log)
    ensures ListEvents(log, after) == if after <= |log| then log[after..] else []
  {
    hide LogFor;
    if log != [] {
      var n := |log| - 1;
      LogForLess(run, log);
      ListEventsIsTail(run, log[..n], after);
      if after <= n { TailMore(log, after); }
    }
  }

  lemma LogForLess(run: RunId, log: seq<Message>)
    requires LogFor(run, log) && log != []
    ensures LogFor(run, log[..|log| - 1]) && log[|log| - 1].sequence == |log|
  {
  }

  lemma TailMore(log: seq<Message>, after: nat)
    requires after < |log|
    ensures log[after..] == log[..|log| - 1][after..] + [log[|log| - 1]]
  {
  }

  predicate Growing(logs: seq<seq<Message>>) {
    forall k :: 0 < k < |logs| ==> logs[k - 1] <= logs[k]
  }

  lemma {:induction false} PrintAppend(codec: Codec, a: seq<Message>, b: seq<Message>)
    ensures Print(codec, a + b) == Print(codec, a) + Print(codec, b)
  {
    hide Frame;
    if b == [] {
      assert a + b == a;
    } else {
      var n := |b| - 1;
      PrintAppend(codec, a, b[..n]);
      assert (a + b)[..|a + b| - 1] == a + b[..n];
    }
  }

  lemma PrintMore(codec: Codec, ms: seq<Message>, i: nat)
    requires i < |ms|
    ensures Print(codec, ms[..i + 1]) == Print(codec, ms[..i]) + Frame(codec, ms[i])
  {
    assert ms[..i + 1][..i] == ms[..i];
  }

  lemma PrintNothing(codec: Codec)
    ensures Print(codec, []) == ""
  {
  }

  /** Later reads only add events beyond those already printed. */
  lemma NextRead(run: RunId, before: seq<Message>, now: seq<Message>, from: nat)
    requires LogFor(run, before) && LogFor(run, now) && before <= now
    ensures ListEvents(now, from) ==
            ListEvents(before, from) + ListEvents(now, if from <= |before| then |before| else from)
  {
    hide ListEvents, LogFor;
    ListEventsIsTail(run, before, from);
    ListEventsIsTail(run, now, from);
    ListEventsIsTail(run, now, if from <= |before| then |before| else from);
    if from <= |before| {
      assert now[from..] == before[from..] + now[|before|..];
    }
  }

  lemma LastServed(run: RunId, log: seq<Message>, after: nat)
    requires LogFor(run, log)
    ensures var events := ListEvents(log, after);
            if events == [] then |log| <= after else after <= |log| && events[|events| - 1].sequence == |log|
  {
    hide ListEvents;
    ListEventsIsTail(run, log, after);
  }

  /** runHandlers.stream: after each durable read, everything beyond the last printed sequence. */
  method StreamEvents(codec: Codec, run: RunId, from: nat, logs: seq<seq<Message>>) returns (written: string)
    requires Growing(logs) && forall k :: 0 <= k < |logs| ==> LogFor(run, logs[k])
    ensures written == if logs == [] then "" else Print(codec, ListEvents(logs[|logs| - 1], from))
  {
    hide Print, ListEvents, Frame, LogFor;
    written := "";
    var after := from;
    var k := 0;
    PrintNothing(codec);
    while k < |logs|
      invariant 0 <= k <= |logs|
      invariant written == if k == 0 then "" else Print(codec, ListEvents(logs[k - 1], from))
      invariant after == if k > 0 && from <= |logs[k - 1]| then |logs[k - 1]| else from
    {
      var events := ListEvents(logs[k], after);
      LastServed(run, logs[k], after);
      ghost var before := if k == 0 then [] else ListEvents(logs[k - 1], from);
      if k > 0 { NextRead(run, logs[k - 1], logs[k], from); } else { NothingBefore(events); }
      PrintAppend(codec, before, events);
      ghost var entry := after;
      var i := 0;
      while i < |events|
        invariant 0 <= i <= |events|
        invariant written == Print(codec, before) + Print(codec, events[..i])
        invariant after == if i == 0 then entry else events[i - 1].sequence
      {
        PrintMore(codec, events, i);
        written := written + Frame(codec, events[i]);
        after := events[i].sequence;
        i := i + 1;
      }
      assert events[..|events|] == events;
      k := k + 1;
    }
  }

  lemma NothingBefore(events: seq<Message>)
    ensures [] + events == events
  {
  }

  // ---- Exactly once ------------------------------------------------------------------------

  /** The logs of one connection, the chunks that reach the client, and how each handler ends. */
  datatype Connection = Connection(logs: seq<seq<Message>>, chunks: seq<string>, closed: bool, outcomes: seq<Outcome>)

  /**
   Every event up to the cursor has been applied once, in order, and nothing else; a client that does
   not hold the run moves its cursor on without applying anything.
   */
  predicate Exact(f: Feed, log: seq<Message>) {
    f.cursor <= |log| && f.applied == if f.known then log[..f.cursor] else []
  }

  /** What the client has applied is the log up to its cursor if and only if it holds the run or read nothing. */
  lemma AppliedIffKnown(f: Feed, log: seq<Message>)
    requires Exact(f, log)
    ensures f.applied == log[..f.cursor] <==> f.known || f.cursor == 0
  {
    assert f.cursor > 0 ==> log[..f.cursor][0] == log[0];
  }

  /** The failing side is reached: the first event of a run that the client does not hold is skipped for good. */
  lemma FirstEventSkipped(codec: Codec, run: RunId, log: seq<Message>)
    requires Faithful(codec) && LogFor(run, log) && log != []
    ensures var (g, v) := Accept(Feed(0, [], false), codec, run, Dispatch(Digits(1), codec.encode(log[0])), Handled);
            && g == Feed(1, [], false) && v in {Continue, Finished} && g.applied != log[..g.cursor]
  {
    NumberOfDigits(1);
  }

  lemma {:induction false} HandleExact(f: Feed, codec: Codec, run: RunId, log: seq<Message>, ds: seq<Dispatch>, os: seq<Outcome>)
    requires Faithful(codec) && LogFor(run, log) && Exact(f, log)
    requires ds <= Framed(codec, log[f.cursor..])
    ensures var (g, v) := Handle(f, codec, run, ds, os);
            && Exact(g, log) && f.cursor <= g.cursor <= f.cursor + |ds|
            && (v == Continue ==> g.cursor == f.cursor + |ds|)
            && (v == Finished ==> g.cursor > 0 && ProductTerminal(log[g.cursor - 1].name))
            && (v == Broken ==> exists k :: 0 <= k < |ds| && OutcomeAt(os, k) == Threw)
  {
    hide Framed, Accept, Faithful, LogFor;
    if ds == [] {
    } else {
      var n := |ds| - 1;
      var (g, v) := Handle(f, codec, run, ds[..n], os);
      HandleExact(f, codec, run, log, ds[..n], os);
      FramedTail(codec, log, f.cursor, n);
      if v == Continue {
        AcceptNext(g, codec, run, log, OutcomeAt(os, n));
      }
    }
  }

  lemma FramedTail(codec: Codec, log: seq<Message>, from: nat, n: nat)
    requires from <= |log| && n < |Framed(codec, log[from..])|
    ensures from + n < |log|
    ensures Framed(codec, log[from..])[n] == Dispatch(Digits(log[from + n].sequence), codec.encode(log[from + n]))
  {
    var tail := log[from..];
    if |tail| > 0 { FramedAt(codec, tail, 0); }
    FramedAt(codec, tail, n);
  }

  /** The event after the cursor passes validation, and is applied unless its handler fails first. */
  lemma AcceptNext(f: Feed, codec: Codec, run: RunId, log: seq<Message>, o: Outcome)
    requires Faithful(codec) && LogFor(run, log) && Exact(f, log) && f.cursor < |log|
    ensures var m := log[f.cursor];
            var (g, v) := Accept(f, codec, run, Dispatch(Digits(m.sequence), codec.encode(m)), o);
            && Exact(g, log) && f.cursor <= g.cursor <= f.cursor + 1
            && (v == Continue || v == Finished ==> g.cursor == f.cursor + 1)
            && (v == Finished ==> ProductTerminal(m.name))
            && (v == Broken ==> o == Threw)
  {
    hide Number, Digits;
    var m := log[f.cursor];
    NumberOfDigits(m.sequence);
    assert log[..f.cursor + 1] == log[..f.cursor] + [m];
  }

  lemma ConnectionExact(f: Feed, codec: Codec, run: RunId, world: seq<Message>, logs: seq<seq<Message>>,
                        text: string, closed: bool, os: seq<Outcome>)
    requires Faithful(codec) && LogFor(run, world) && Exact(f, world)
    requires forall k :: 0 <= k < |logs| ==> logs[k] <= world
    requires text <= if logs == [] then "" else Print(codec, ListEvents(logs[|logs| - 1], f.cursor))
    ensures var (g, v) := Handle(f, codec, run, Dispatches(Lines(text, closed)), os);
            && Exact(g, world) && f.cursor <= g.cursor
            && (v == Finished ==> g.cursor > 0 && ProductTerminal(world[g.cursor - 1].name))
  {
    hide Handle, Dispatches, Lines, Framed, Print, ListEvents;
    var served := if logs == [] then [] else ListEvents(logs[|logs| - 1], f.cursor);
    ServedIsPrefix(codec, run, world, logs, f.cursor);
    ParsePrinted(codec, served, text, closed);
    HandleExact(f, codec, run, world, Dispatches(Lines(text, closed)), os);
  }

  lemma ServedIsPrefix(codec: Codec, run: RunId, world: seq<Message>, logs: seq<seq<Message>>, after: nat)
    requires LogFor(run, world) && after <= |world|
    requires forall k :: 0 <= k < |logs| ==> logs[k] <= world
    ensures Print(codec, []) == ""
    ensures var served := if logs == [] then [] else ListEvents(logs[|logs| - 1], after);
            Framed(codec, served) <= Framed(codec, world[after..])
  {
    if logs != [] {
      var last := logs[|logs| - 1];
      assert LogFor(run, last);
      ListEventsIsTail(run, last, after);
      if after <= |last| {
        assert last[after..] == world[after..][..|last| - after];
        FramedGrows(codec, world[after..], |last| - after);
      }
    }
  }

  lemma {:induction false} FramedGrows(codec: Codec, ms: seq<Message>, k: nat)
    requires k <= |ms|
    ensures Framed(codec, ms[..k]) <= Framed(codec, ms)
  {
    if k == |ms| {
      assert ms[..k] == ms;
    } else {
      FramedGrows(codec, ms[..|ms| - 1], k);
      assert ms[..|ms| - 1][..k] == ms[..k];
    }
  }

  // ---- The durable log of the commit protocol ----------------------------------------------

  function WireName(kind: EventKind): string {
    match kind
    case PhaseChanged(_) => "phase.changed"
    case AssistantDelta => "assistant.delta"
    case AssistantMessage => "assistant.message"
    case ToolStarted => "tool.started"
    case ToolCompleted => "tool.completed"
    case ArtifactCandidate => "artifact.candidate"
    case AgentCompleted => "agent.completed"
    case AgentFailed => "agent.failed"
    case ArtifactPublished(_) => "artifact.published"
    case RunTerminal(outcome) =>
      match outcome
      case Succeeded => "run.succeeded"
      case Failed => "run.failed"
      case Cancelled => "run.cancelled"
      case _ => "run.interrupted"
  }

  function Wire(id: RunId, log: seq<Event>): (ms: seq<Message>)
    ensures |ms| == |log|
  {
    if log == [] then []
    else
      var n := |log| - 1;
      Wire(id, log[..n]) + [Message(id, log[n].sequence, WireName(log[n].kind), "")]
  }

  lemma {:induction false} WireAt(id: RunId, log: seq<Event>)
    ensures forall k :: 0 <= k < |log| ==> Wire(id, log)[k] == Message(id, log[k].sequence, WireName(log[k].kind), "")
  {
    if log != [] {
      WireAt(id, log[..|log| - 1]);
    }
  }

  /** What the protocol logs, at any time and later, is a log that the stream can serve. */
  lemma ReachableLogsServe(steps: seq<Action>, more: seq<Action>, id: RunId)
    requires Legal(INITIAL, steps) && Legal(Replay(INITIAL, steps), more)
    requires id < |Replay(INITIAL, steps).db.runs|
    ensures var s, t := Replay(INITIAL, steps), Replay(Replay(INITIAL, steps), more);
            && id < |t.db.runs|
            && Wire(id, s.db.runs[id].log) <= Wire(id, t.db.runs[id].log)
            && (|s.db.runs[id].log| <= MAX_SAFE_INTEGER ==> LogFor(id, Wire(id, s.db.runs[id].log)))
            && (s.db.runs[id].finalized ==>
                  && s.db.runs[id].log != []
                  && ProductTerminal(Wire(id, s.db.runs[id].log)[|s.db.runs[id].log| - 1].name))
  {
    hide Legal, Replay, Inv, Wire;
    var s, t := Replay(INITIAL, steps), Replay(Replay(INITIAL, steps), more);
    InitialInv();
    RunKeepsInv(INITIAL, steps);
    RunOnward(s, more);
    ReachableLog(steps, id);
    assert Evolves(s.db.runs[id], t.db.runs[id]);
    WireAt(id, s.db.runs[id].log);
    WireAt(id, t.db.runs[id].log);
    FinalizedIsTerminal(s, id);
  }

  lemma FinalizedIsTerminal(s: State, id: RunId)
    requires Inv(s) && id < |s.db.runs|
    ensures s.db.runs[id].finalized ==> Terminal(s.db.runs[id].status)
  {
    assert RowOk(s.db.runs[id]);
  }
}
