/**
 The model gateway's stream guard: it validates each chunk as it passes and withholds the terminal
 one (services/model-gateway/callback.py). Whether a text is a JSON object is a parameter.
 */
module Gateway {
  import opened Basics

  datatype Code =
    | UpstreamError
    | StreamUnsupported
    | OutputUnsupported
    | InvalidToolArguments
    | ToolArgumentsTooLarge
    | InvalidStreamOrder
    | TruncatedStream

  datatype Block = Text | ToolUse | OtherBlock

  /** One `data:` line. `Bad` is a line that cannot be read as an event. */
  datatype Event =
    | Bad
    | Failure
    | BlockStart(index: int, block: Block)
    | InputDelta(index: int, partial: string)
    | BlockStop(index: int)
    | MessageStop
    | Other

  datatype Chunk = NotText | Undecodable | Lines(events: seq<Event>)

  const MAX_ARGUMENT_BYTES: nat := 1024 * 1024

  function Utf8Size(s: string): nat {
    if s == [] then 0
    else Utf8Size(s[..|s| - 1]) +
         var c := s[|s| - 1] as int; if c < 0x80 then 1 else if c < 0x800 then 2 else if c < 0x1_0000 then 3 else 4
  }

  // ---- The rule for a whole stream ---------------------------------------------------------

  /** Where the tool block that is open at the end of `events` under this index started. */
  function OpenSince(events: seq<Event>, index: int): (start: Option<nat>)
    ensures start.Some? ==> start.value < |events| && events[start.value] == BlockStart(index, ToolUse)
  {
    if events == [] then None
    else
      var n := |events| - 1;
      if events[n] == BlockStart(index, ToolUse) then Some(n)
      else if events[n] == BlockStop(index) then None
      else OpenSince(events[..n], index)
  }

  /** The block's input fragments after position `start`, joined. */
  function Joined(events: seq<Event>, start: nat, index: int): string {
    if |events| <= start + 1 then ""
    else
      var n := |events| - 1;
      Joined(events[..n], start, index) +
      (if events[n].InputDelta? && events[n].index == index then events[n].partial else "")
  }

  /** What is wrong with event e after the given events, if anything. */
  ghost function Fault(before: seq<Event>, e: Event, valid: string -> bool): Option<Code> {
    match e
    case Bad => Some(UpstreamError)
    case Failure => Some(UpstreamError)
    case BlockStart(_, block) => if block == OtherBlock then Some(OutputUnsupported) else None
    case InputDelta(index, partial) =>
      var start := OpenSince(before, index);
      if start.None? then Some(InvalidToolArguments)
      else if Utf8Size(Joined(before, start.value, index) + partial) > MAX_ARGUMENT_BYTES then Some(ToolArgumentsTooLarge)
      else None
    case BlockStop(index) =>
      var start := OpenSince(before, index);
      if start.Some? && !valid(Joined(before, start.value, index)) then Some(InvalidToolArguments) else None
    case MessageStop => if exists index :: OpenSince(before, index).Some? then Some(InvalidToolArguments) else None
    case Other => None
  }

  ghost predicate Clean(events: seq<Event>, valid: string -> bool) {
    forall k :: 0 <= k < |events| ==> Fault(events[..k], events[k], valid).None?
  }

  function Flatten(chunks: seq<Chunk>): seq<Event> {
    if chunks == [] then []
    else
      var c := chunks[|chunks| - 1];
      Flatten(chunks[..|chunks| - 1]) + (if c.Lines? then c.events else [])
  }

  predicate Stops(c: Chunk) {
    c.Lines? && MessageStop in c.events
  }

  /** Everything is readable and legal, and the last chunk, and only it, stops the message. */
  ghost predicate Acceptable(chunks: seq<Chunk>, valid: string -> bool) {
    && (forall c :: 0 <= c < |chunks| ==> chunks[c].Lines?)
    && Clean(Flatten(chunks), valid)
    && |chunks| > 0 && Stops(chunks[|chunks| - 1])
    && forall c :: 0 <= c < |chunks| - 1 ==> !Stops(chunks[c])
  }

  // ---- The online guard --------------------------------------------------------------------

  /** The guard's table of unfinished tool inputs describes the events so far. */
  ghost predicate Tracks(arguments: map<int, string>, events: seq<Event>) {
    forall index ::
      && (index in arguments <==> OpenSince(events, index).Some?)
      && (index in arguments ==> arguments[index] == Joined(events, OpenSince(events, index).value, index))
  }

  lemma TracksMore(before: seq<Event>, e: Event, arguments: map<int, string>, after: map<int, string>)
    requires Tracks(arguments, before)
    requires forall index ::
      if e == BlockStart(index, ToolUse) then index in after && after[index] == ""
      else if e == BlockStop(index) then index !in after
      else (index in after <==> index in arguments)
           && (index in after ==> after[index] == arguments[index] + (if e.InputDelta? && e.index == index then e.partial else ""))
    ensures Tracks(after, before + [e])
  {
    var events := before + [e];
    assert events[..|events| - 1] == before;
    forall index
      ensures index in after <==> OpenSince(events, index).Some?
      ensures index in after ==> after[index] == Joined(events, OpenSince(events, index).value, index)
    {
      assert index in arguments <==> OpenSince(before, index).Some?;
    }
  }

  lemma CleanMore(before: seq<Event>, e: Event, valid: string -> bool)
    requires Clean(before, valid)
    ensures Clean(before + [e], valid) <==> Fault(before, e, valid).None?
  {
    var events := before + [e];
    assert events[..|before|] == before && events[|before|] == e;
    forall k | 0 <= k < |before| ensures events[..k] == before[..k] {}
  }

  lemma SomeOpen(arguments: map<int, string>, events: seq<Event>)
    requires Tracks(arguments, events) && arguments != map[]
    ensures exists index :: OpenSince(events, index).Some?
  {
    assert (forall index :: index !in arguments) ==> arguments == map[];
    assert forall index :: index in arguments ==> OpenSince(events, index).Some?;
  }

  /** A fault is never repaired by what follows it. */
  lemma CleanPrefix(events: seq<Event>, more: seq<Event>, valid: string -> bool)
    requires Clean(events + more, valid)
    ensures Clean(events, valid)
  {
    forall k | 0 <= k < |events| ensures Fault(events[..k], events[k], valid).None? {
      assert (events + more)[..k] == events[..k] && (events + more)[k] == events[k];
    }
  }

  lemma {:induction false} FlattenPrefix(chunks: seq<Chunk>, k: nat) returns (rest: seq<Event>)
    requires k <= |chunks|
    ensures Flatten(chunks) == Flatten(chunks[..k]) + rest
  {
    if k == |chunks| {
      rest := [];
      assert chunks[..k] == chunks;
    } else {
      var n := |chunks| - 1;
      rest := FlattenPrefix(chunks[..n], k);
      assert chunks[..n][..k] == chunks[..k];
      rest := rest + (if chunks[n].Lines? then chunks[n].events else []);
    }
  }

  lemma FlattenMore(chunks: seq<Chunk>, k: nat)
    requires k < |chunks|
    ensures Flatten(chunks[..k + 1]) == Flatten(chunks[..k]) + (if chunks[k].Lines? then chunks[k].events else [])
  {
    assert chunks[..k + 1][..k] == chunks[..k];
  }

  lemma FaultyChunk(chunks: seq<Chunk>, k: nat, valid: string -> bool)
    requires k < |chunks| && chunks[k].Lines?
    requires !Clean(Flatten(chunks[..k]) + chunks[k].events, valid)
    ensures !Clean(Flatten(chunks), valid)
  {
    FlattenMore(chunks, k);
    var rest := FlattenPrefix(chunks, k + 1);
    if Clean(Flatten(chunks), valid) { CleanPrefix(Flatten(chunks[..k + 1]), rest, valid); }
  }

  lemma NothingOpen(chunks: seq<Chunk>, valid: string -> bool)
    ensures Tracks(map[], Flatten(chunks[..0])) && Clean(Flatten(chunks[..0]), valid)
  {
    assert chunks[..0] == [];
  }

  lemma FaultStays(before: seq<Event>, events: seq<Event>, k: nat, valid: string -> bool)
    requires k < |events| && Fault(before + events[..k], events[k], valid).Some?
    ensures !Clean(before + events, valid)
  {
    var all := before + events;
    assert all[..|before| + k] == before + events[..k] && all[|before| + k] == events[k];
  }

  /** One event of `_validated_stream`; the fault, if any, is the one the rule names. */
  method CheckEvent(arguments: map<int, string>, e: Event, valid: string -> bool, ghost before: seq<Event>)
    returns (after: map<int, string>, fault: Option<Code>)
    requires Tracks(arguments, before)
    ensures fault == Fault(before, e, valid) && fault != Some(TruncatedStream)
    ensures fault.None? ==> Tracks(after, before + [e])
  {
    after, fault := arguments, None;
    assert forall index :: index in arguments <==> OpenSince(before, index).Some?;
    match e {
      case Bad => fault := Some(UpstreamError);
      case Failure => fault := Some(UpstreamError);
      case BlockStart(index, block) =>
        if block == OtherBlock { return after, Some(OutputUnsupported); }
        if block == ToolUse { after := arguments[index := ""]; }
      case InputDelta(index, partial) =>
        if index !in arguments { return after, Some(InvalidToolArguments); }
        after := arguments[index := arguments[index] + partial];
        if Utf8Size(after[index]) > MAX_ARGUMENT_BYTES { return after, Some(ToolArgumentsTooLarge); }
      case BlockStop(index) =>
        if index in arguments {
          after := arguments - {index};
          if !valid(arguments[index]) { return after, Some(InvalidToolArguments); }
        }
      case MessageStop =>
        if arguments != map[] {
          SomeOpen(arguments, before);
          return after, Some(InvalidToolArguments);
        }
      case Other =>
    }
    if fault.None? { TracksMore(before, e, arguments, after); }
  }

  /** All lines of one chunk. */
  method CheckChunk(arguments: map<int, string>, events: seq<Event>, valid: string -> bool, ghost before: seq<Event>)
    returns (after: map<int, string>, stopped: bool, fault: Option<Code>)
    requires Tracks(arguments, before) && Clean(before, valid)
    ensures fault.None? <==> Clean(before + events, valid)
    ensures fault.None? ==> Tracks(after, before + events) && (stopped <==> MessageStop in events)
    ensures fault != Some(TruncatedStream)
    ensures fault.Some? ==> exists k :: 0 <= k < |events| && fault == Fault(before + events[..k], events[k], valid)
                                        && Clean(before + events[..k], valid)
  {
    hide Clean, Tracks, Fault;
    after, stopped, fault := arguments, false, None;
    var k := 0;
    assert before + events[..0] == before;
    while k < |events|
      invariant 0 <= k <= |events| && fault.None?
      invariant Tracks(after, before + events[..k]) && Clean(before + events[..k], valid)
      invariant stopped <==> MessageStop in events[..k]
    {
      ghost var seen := before + events[..k];
      after, fault := CheckEvent(after, events[k], valid, seen);
      CleanMore(seen, events[k], valid);
      assert before + events[..k + 1] == seen + [events[k]];
      if fault.Some? {
        FaultStays(before, events, k, valid);
        return;
      }
      stopped := stopped || events[k] == MessageStop;
      k := k + 1;
    }
    assert events[..|events|] == events;
  }

  /**
   `_validated_stream` behind the hook that reports its error: it finishes exactly when the whole
   stream is acceptable, and then has delivered it unchanged; otherwise it has delivered a prefix
   without any stopping chunk, and one error.
   */
  method Guard(chunks: seq<Chunk>, valid: string -> bool) returns (passed: seq<Chunk>, error: Option<Code>)
    ensures error.None? <==> Acceptable(chunks, valid)
    ensures error.None? ==> passed == chunks
    ensures error.Some? ==> passed <= chunks && forall c :: 0 <= c < |passed| ==> !Stops(passed[c])
    ensures error == Some(TruncatedStream) <==>
      (forall c :: 0 <= c < |chunks| ==> chunks[c].Lines? && !Stops(chunks[c])) && Clean(Flatten(chunks), valid)
  {
    hide Clean, Tracks, Fault, Flatten;
    var arguments: map<int, string> := map[];
    var stopped := false;
    var terminal: seq<Chunk> := [];
    passed := [];
    NothingOpen(chunks, valid);
    var k := 0;
    while k < |chunks|
      invariant 0 <= k <= |chunks|
      invariant passed + terminal == chunks[..k]
      invariant forall c :: 0 <= c < |passed| ==> !Stops(passed[c])
      invariant forall c :: 0 <= c < k ==> chunks[c].Lines?
      invariant if stopped then |terminal| == 1 && Stops(terminal[0]) else terminal == []
      invariant Tracks(arguments, Flatten(chunks[..k])) && Clean(Flatten(chunks[..k]), valid)
    {
      var chunk := chunks[k];
      assert chunks[..k + 1] == chunks[..k] + [chunk];
      FlattenMore(chunks, k);
      if stopped {
        assert Stops(chunks[k - 1]) by { assert chunks[k - 1] == (passed + terminal)[k - 1]; }
        return passed, Some(InvalidStreamOrder);
      }
      if chunk.NotText? { return passed, Some(StreamUnsupported); }
      if chunk.Undecodable? { return passed, Some(UpstreamError); }
      var fault;
      ghost var seen := Flatten(chunks[..k]);
      arguments, stopped, fault := CheckChunk(arguments, chunk.events, valid, seen);
      if fault.Some? {
        FaultyChunk(chunks, k, valid);
        return passed, fault;
      }
      if stopped { terminal := [chunk]; } else { passed := passed + [chunk]; }
      k := k + 1;
    }
    assert chunks[..|chunks|] == chunks;
    if !stopped { return passed, Some(TruncatedStream); }
    passed := passed + terminal;
    error := None;
  }

  datatype Output = Passed(chunk: Chunk) | ErrorChunk(code: Code)

  /** What the client receives: the stream as it was, or a prefix that never looks complete and one error. */
  method StreamHook(chunks: seq<Chunk>, valid: string -> bool) returns (out: seq<Output>)
    ensures Acceptable(chunks, valid) ==> |out| == |chunks| && forall k :: 0 <= k < |out| ==> out[k] == Passed(chunks[k])
    ensures !Acceptable(chunks, valid) ==>
      && 0 < |out| <= |chunks| + 1 && out[|out| - 1].ErrorChunk?
      && forall k :: 0 <= k < |out| - 1 ==> out[k] == Passed(chunks[k]) && !Stops(chunks[k])
  {
    hide Acceptable;
    var passed, error := Guard(chunks, valid);
    out := seq(|passed|, k requires 0 <= k < |passed| => Passed(passed[k]));
    if error.Some? {
      out := out + [ErrorChunk(error.value)];
    }
  }

  // ---- One event per chunk -----------------------------------------------------------------

  predicate SingleEvents(chunks: seq<Chunk>) {
    forall c :: 0 <= c < |chunks| ==> chunks[c].Lines? && |chunks[c].events| == 1
  }

  lemma {:induction false} FlattenSingles(chunks: seq<Chunk>)
    requires SingleEvents(chunks)
    ensures |Flatten(chunks)| == |chunks|
    ensures forall k :: 0 <= k < |chunks| ==> Flatten(chunks)[k] == chunks[k].events[0]
  {
    if chunks != [] {
      FlattenSingles(chunks[..|chunks| - 1]);
    }
  }

  /** As the upstream adapter sends it, a stream is acceptable when its single message_stop is its last event. */
  lemma AcceptableSingles(chunks: seq<Chunk>, valid: string -> bool)
    requires SingleEvents(chunks)
    ensures var events := Flatten(chunks);
            Acceptable(chunks, valid) <==>
              && Clean(events, valid)
              && |events| > 0 && events[|events| - 1] == MessageStop
              && forall k :: 0 <= k < |events| - 1 ==> events[k] != MessageStop
  {
    hide Clean, Flatten;
    FlattenSingles(chunks);
    forall c | 0 <= c < |chunks| ensures Stops(chunks[c]) <==> Flatten(chunks)[c] == MessageStop {
      assert chunks[c].events == [chunks[c].events[0]];
    }
  }
}
