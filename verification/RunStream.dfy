/**
 What the control plane accepts as a completed execution: the line scanner that withholds the
 terminal event (services/control-plane/internal/agentexec/http.go), the pump that drains both
 channels (services/control-plane/internal/runs/coordinator.go) and the batch rule of
 services/control-plane/internal/contracts/contracts.go.
 */
module RunStream {
  import opened Basics
  import opened RunState
  import opened RunStore

  datatype Payload =
    | Future
    | Plain
    | Candidate(artifacts: seq<ArtifactId>)
    | Completed(session: SessionId, artifacts: seq<ArtifactId>)
    | Failure

  datatype RuntimeEvent = RuntimeEvent(run: RunId, sequence: nat, payload: Payload)

  predicate IsTerminalEvent(e: RuntimeEvent) {
    e.payload.Completed? || e.payload.Failure?
  }

  predicate IsKnown(e: RuntimeEvent) {
    !e.payload.Future?
  }

  function Known(events: seq<RuntimeEvent>): seq<RuntimeEvent> {
    if events == [] then []
    else
      var n := |events| - 1;
      Known(events[..n]) + (if IsKnown(events[n]) then [events[n]] else [])
  }

  function LastCandidate(events: seq<RuntimeEvent>): Option<seq<ArtifactId>> {
    if events == [] then None
    else
      var n := |events| - 1;
      if events[n].payload.Candidate? then Some(events[n].payload.artifacts) else LastCandidate(events[..n])
  }

  /** Every completion repeats the artifacts of the last candidate before it. */
  ghost predicate ValidSequence(events: seq<RuntimeEvent>) {
    forall i :: 0 <= i < |events| && events[i].payload.Completed? ==>
      LastCandidate(events[..i]) == Some(events[i].payload.artifacts)
  }

  method ValidateRuntimeEventSequence(events: seq<RuntimeEvent>) returns (ok: bool)
    ensures ok <==> ValidSequence(events)
  {
    var last: Option<seq<ArtifactId>> := None;
    var i := 0;
    while i < |events|
      invariant 0 <= i <= |events|
      invariant last == LastCandidate(events[..i])
      invariant forall j :: 0 <= j < i && events[j].payload.Completed? ==>
        LastCandidate(events[..j]) == Some(events[j].payload.artifacts)
    {
      match events[i].payload {
        case Candidate(artifacts) => last := Some(artifacts);
        case Completed(_, artifacts) => if last != Some(artifacts) { return false; }
        case _ =>
      }
      assert events[..i + 1][..i] == events[..i];
      i := i + 1;
    }
    ok := true;
  }

  /** All events belong to the run and their sequences strictly increase. */
  ghost predicate Ordered(run: RunId, events: seq<RuntimeEvent>) {
    && (forall i :: 0 <= i < |events| ==> events[i].run == run)
    && (forall i, j :: 0 <= i < j < |events| ==> events[i].sequence < events[j].sequence)
  }

  predicate Unfinished(known: seq<RuntimeEvent>) {
    forall i :: 0 <= i < |known| ==> !IsTerminalEvent(known[i])
  }

  /** Exactly one terminal event, in last position, and every completion matches its candidate. */
  ghost predicate Finished(known: seq<RuntimeEvent>) {
    && |known| > 0 && IsTerminalEvent(known[|known| - 1]) && Unfinished(known[..|known| - 1])
    && ValidSequence(known)
  }

  lemma KnownMore(events: seq<RuntimeEvent>, k: nat)
    requires k < |events|
    ensures Known(events[..k + 1]) == if IsKnown(events[k]) then Known(events[..k]) + [events[k]] else Known(events[..k])
  {
    assert events[..k + 1][..k] == events[..k];
    assert Known(events[..k]) + [] == Known(events[..k]);
  }

  /** Before a terminal event there is no completion to check. */
  lemma FinishedMore(known: seq<RuntimeEvent>, e: RuntimeEvent)
    requires Unfinished(known) && IsTerminalEvent(e)
    ensures Finished(known + [e]) <==> (e.payload.Completed? ==> LastCandidate(known) == Some(e.payload.artifacts))
  {
    var all := known + [e];
    assert all[..|all| - 1] == known && all[..|known|] == known;
    forall i | 0 <= i < |known| ensures !all[i].payload.Completed? {
      assert !IsTerminalEvent(known[i]);
    }
  }

  lemma FinishedIsOver(known: seq<RuntimeEvent>, more: seq<RuntimeEvent>)
    requires |known| > 0 && IsTerminalEvent(known[|known| - 1]) && more != []
    ensures !Finished(known + more)
  {
    var all := known + more;
    assert all[..|all| - 1][|known| - 1] == known[|known| - 1];
  }

  lemma {:induction false} KnownPrefix(events: seq<RuntimeEvent>, k: nat) returns (rest: seq<RuntimeEvent>)
    requires k <= |events|
    ensures Known(events) == Known(events[..k]) + rest
  {
    if k == |events| {
      assert events[..k] == events;
      rest := [];
    } else {
      var n := |events| - 1;
      rest := KnownPrefix(events[..n], k);
      assert events[..n][..k] == events[..k];
      rest := rest + (if IsKnown(events[n]) then [events[n]] else []);
    }
  }

  /** A completion that repeats other artifacts spoils the stream for good. */
  lemma BadCompletion(lines: seq<RuntimeEvent>, k: nat)
    requires k < |lines| && lines[k].payload.Completed?
    requires Unfinished(Known(lines[..k])) && LastCandidate(Known(lines[..k])) != Some(lines[k].payload.artifacts)
    ensures !Finished(Known(lines))
  {
    var known := Known(lines[..k]) + [lines[k]];
    KnownMore(lines, k);
    var rest := KnownPrefix(lines, k + 1);
    FinishedMore(Known(lines[..k]), lines[k]);
    if rest == [] {
      assert Known(lines) == known;
    } else {
      FinishedIsOver(known, rest);
    }
  }

  // ---- http.go -----------------------------------------------------------------------------

  datatype Response = Unreachable | Rejected(kind: ErrorKind) | DecidedBody(decision: Option<Decision>) | WrongType | Ndjson

  /** Why there are no more readable lines. */
  datatype LineEnd = Eof | Malformed | ReadError

  /** A value on the error channel; `decision` is set for an already decided execution. */
  datatype RuntimeError = RuntimeError(kind: ErrorKind, decision: Option<Decision>)

  /** The position of the first terminal event, or the length. */
  function TerminalAt(lines: seq<RuntimeEvent>): (t: nat)
    ensures t <= |lines| && (t < |lines| ==> IsTerminalEvent(lines[t]))
    ensures forall i :: 0 <= i < t ==> !IsTerminalEvent(lines[i])
  {
    if lines == [] then 0
    else
      var n := |lines| - 1;
      var t := TerminalAt(lines[..n]);
      if t < n || IsTerminalEvent(lines[n]) then t else n + 1
  }

  lemma OrderedMore(run: RunId, events: seq<RuntimeEvent>, e: RuntimeEvent)
    requires e.run == run
    ensures Ordered(run, events) ==>
      (Ordered(run, events + [e]) <==> events == [] || events[|events| - 1].sequence < e.sequence)
  {
    var all := events + [e];
    if events != [] {
      assert all[|events| - 1] == events[|events| - 1] && all[|events|] == e;
    }
  }

  lemma UnfinishedMore(known: seq<RuntimeEvent>, e: RuntimeEvent)
    requires Unfinished(known) && !IsTerminalEvent(e)
    ensures Unfinished(known + [e])
  {
  }

  lemma LastCandidateMore(known: seq<RuntimeEvent>, e: RuntimeEvent)
    ensures LastCandidate(known + [e]) == if e.payload.Candidate? then Some(e.payload.artifacts) else LastCandidate(known)
  {
    assert (known + [e])[..|known|] == known;
  }

  lemma TerminalBeyond(lines: seq<RuntimeEvent>, k: nat)
    requires k < |lines| && TerminalAt(lines[..k]) == k && !IsTerminalEvent(lines[k])
    ensures k < TerminalAt(lines)
  {
    hide TerminalAt;
    forall i | 0 <= i < k ensures !IsTerminalEvent(lines[i]) {
      assert lines[..k][i] == lines[i];
    }
  }

  lemma SentWhole(run: RunId, lines: seq<RuntimeEvent>, t: nat)
    requires t < |lines| && Ordered(run, lines)
    ensures Ordered(run, lines[..t] + [lines[t]]) && lines[..t] + [lines[t]] <= lines
    ensures Known(lines[..t] + [lines[t]]) == if IsKnown(lines[t]) then Known(lines[..t]) + [lines[t]] else Known(lines[..t])
  {
    assert lines[..t] + [lines[t]] == lines[..t + 1];
    KnownMore(lines, t);
  }

  lemma NothingSent(run: RunId)
    ensures Ordered(run, []) && Known([]) == [] && Unfinished([]) && !Finished([]) && LastCandidate([]) == None
  {
  }

  /** A finished list of events is not an unfinished one. */
  lemma NotBoth(known: seq<RuntimeEvent>)
    ensures !(Finished(known) && Unfinished(known))
  {
  }

  /**
   HTTPExecutor.Execute: no error exactly when the stream is complete, and only then is its terminal
   event passed on. `done` is the send at which the context ends, if it does.
   */
  method Execute(run: RunId, response: Response, lines: seq<RuntimeEvent>, end: LineEnd, done: Option<nat>)
    returns (sent: seq<RuntimeEvent>, errors: seq<RuntimeError>)
    ensures errors == [] <==>
      && response == Ndjson && end == Eof && Ordered(run, lines) && Finished(Known(lines))
      && (done.Some? ==> TerminalAt(lines) < done.value)
    ensures |errors| <= 1
    ensures sent <= lines && Ordered(run, sent)
    ensures if errors == [] then Known(sent) == Known(lines) else Unfinished(Known(sent))
    ensures response == DecidedBody(Some(Commit)) ==> errors == [RuntimeError(ErrorKind.Finalized, Some(Commit))]
  {
    hide Ordered, Finished, Unfinished, TerminalAt, Known;
    NothingSent(run);
    sent, errors := [], [];
    match response {
      case Unreachable => return [], [RuntimeError(OutcomeUnknown, None)];
      case Rejected(kind) => return [], [RuntimeError(kind, None)];
      case DecidedBody(decision) =>
        return [], [RuntimeError(if decision.Some? then ErrorKind.Finalized else OutcomeUnknown, decision)];
      case WrongType => return [], [RuntimeError(OutcomeUnknown, None)];
      case Ndjson =>
    }
    var terminal: Option<RuntimeEvent>;
    var failed;
    sent, terminal, failed := Scan(run, lines, done);
    if failed { return sent, [RuntimeError(OutcomeUnknown, None)]; }
    NotBoth(Known(lines));
    if end == Eof && terminal.Some? {
      if done == Some(|sent|) { return sent, [RuntimeError(OutcomeUnknown, None)]; }
      assert sent == lines[..|sent|] && IsKnown(terminal.value);
      SentWhole(run, lines, |sent|);
      sent := sent + [terminal.value];
      return sent, [];
    }
    return sent, [RuntimeError(OutcomeUnknown, None)];
  }

  /** The scanner loop: everything before the terminal event is sent, the terminal event is kept back. */
  method Scan(run: RunId, lines: seq<RuntimeEvent>, done: Option<nat>)
    returns (sent: seq<RuntimeEvent>, terminal: Option<RuntimeEvent>, failed: bool)
    ensures sent <= lines && Ordered(run, sent) && Unfinished(Known(sent))
    ensures failed ==>
      !Ordered(run, lines) || !Finished(Known(lines)) || (done.Some? && done.value < TerminalAt(lines))
    ensures !failed ==> Ordered(run, lines) && |sent| == TerminalAt(lines) && !(done.Some? && done.value < |sent|)
    ensures !failed ==>
      if terminal.Some? then
        && |sent| < |lines| && terminal.value == lines[|sent|]
        && Finished(Known(lines)) && Known(lines) == Known(sent) + [terminal.value]
      else Unfinished(Known(lines))
  {
    hide Ordered, Finished, Unfinished, Known, LastCandidate;
    sent, terminal, failed := [], None, false;
    NothingSent(run);
    var candidate: Option<seq<ArtifactId>> := None;
    var k := 0;
    while k < |lines|
      invariant 0 <= k <= |lines|
      invariant Ordered(run, lines[..k])
      invariant |sent| <= k && sent == lines[..|sent|] && Unfinished(Known(sent)) && Ordered(run, sent)
      invariant |sent| == TerminalAt(lines[..k])
      invariant !(done.Some? && done.value < |sent|)
      invariant terminal.None? ==> |sent| == k && candidate == LastCandidate(Known(sent))
      invariant terminal.Some? ==>
        |sent| < k && terminal.value == lines[|sent|] && Finished(Known(lines[..k])) && Known(lines[..k]) == Known(sent) + [terminal.value]
    {
      var e := lines[k];
      assert lines[..k + 1] == lines[..k] + [e] && lines[..k + 1][..k] == lines[..k];
      if e.run != run || (k > 0 && e.sequence <= lines[k - 1].sequence) {
        OutOfOrder(run, lines, k);
        return sent, None, true;
      }
      OrderedMore(run, lines[..k], e);
      KnownMore(lines, k);
      if terminal.Some? {
        if IsKnown(e) {
          ghost var rest := KnownPrefix(lines, k + 1);
          FinishedEnds(Known(lines[..k]));
          FinishedIsOver(Known(lines[..k]), [e] + rest);
          assert Known(lines) == Known(lines[..k]) + ([e] + rest);
          return sent, None, true;
        }
      } else {
        LastCandidateMore(Known(sent), e);
        if e.payload.Candidate? { candidate := Some(e.payload.artifacts); }
        if e.payload.Completed? && candidate != Some(e.payload.artifacts) {
          BadCompletion(lines, k);
          return sent, None, true;
        }
        if IsTerminalEvent(e) {
          FinishedMore(Known(sent), e);
          terminal := Some(e);
        } else {
          UnfinishedMore(Known(sent), e);
          if done == Some(|sent|) {
            TerminalBeyond(lines, k);
            return sent, None, true;
          }
          sent := sent + [e];
        }
      }
      k := k + 1;
    }
    assert lines[..|lines|] == lines;
  }

  lemma OutOfOrder(run: RunId, lines: seq<RuntimeEvent>, k: nat)
    requires k < |lines|
    requires lines[k].run != run || (k > 0 && lines[k].sequence <= lines[k - 1].sequence)
    ensures !Ordered(run, lines)
  {
  }

  lemma FinishedEnds(known: seq<RuntimeEvent>)
    requires Finished(known)
    ensures |known| > 0 && IsTerminalEvent(known[|known| - 1])
  {
  }

  // ---- coordinator.go: pump ----------------------------------------------------------------

  /** Finished by a completion, with no error recorded for any known event. */
  ghost predicate Succeeds(known: seq<RuntimeEvent>, recorded: seq<Err>) {
    Finished(known) && known[|known| - 1].payload.Completed? && AllNil(recorded, |known|)
  }

  predicate AllNil(recorded: seq<Err>, n: nat) {
    forall i :: 0 <= i < n && i < |recorded| ==> recorded[i] == NIL
  }

  /** Nothing is wrong with the known events received so far. */
  ghost predicate KnownFine(known: seq<RuntimeEvent>, recorded: seq<Err>) {
    && AllNil(recorded, |known|)
    && (Unfinished(known) || (Finished(known) && known[|known| - 1].payload.Completed?))
  }

  ghost predicate Fine(run: RunId, events: seq<RuntimeEvent>, recorded: seq<Err>) {
    Ordered(run, events) && KnownFine(Known(events), recorded)
  }

  /** The pump's local variables; `stored` counts its calls of RecordRuntimeEvent. */
  datatype Progress = Progress(
    terminalSeen: bool, completed: Option<Payload>, candidate: Option<seq<ArtifactId>>, previous: Option<nat>, stored: nat)

  ghost predicate KnownTracks(p: Progress, known: seq<RuntimeEvent>) {
    && p.stored == |known|
    && (if p.terminalSeen then |known| > 0 && IsTerminalEvent(known[|known| - 1]) && p.completed == Some(known[|known| - 1].payload)
        else Unfinished(known) && p.candidate == LastCandidate(known))
  }

  ghost predicate Tracks(p: Progress, events: seq<RuntimeEvent>) {
    && p.previous == (if events == [] then None else Some(events[|events| - 1].sequence))
    && KnownTracks(p, Known(events))
  }

  lemma FineShrinks(run: RunId, events: seq<RuntimeEvent>, k: nat, recorded: seq<Err>)
    requires k < |events| && Fine(run, events[..k + 1], recorded)
    ensures Fine(run, events[..k], recorded)
  {
    KnownMore(events, k);
    var known, more := Known(events[..k]), Known(events[..k + 1]);
    assert forall i :: 0 <= i < k ==> events[..k][i] == events[..k + 1][i];
    assert more == known || more[..|more| - 1] == known;
    if more != known && Unfinished(more) {
      forall i | 0 <= i < |known| ensures !IsTerminalEvent(known[i]) { assert known[i] == more[i]; }
    }
  }

  lemma TerminalTwice(known: seq<RuntimeEvent>, e: RuntimeEvent)
    requires |known| > 0 && IsTerminalEvent(known[|known| - 1])
    ensures !Finished(known + [e]) && !Unfinished(known + [e])
  {
    FinishedIsOver(known, [e]);
    assert (known + [e])[|known| - 1] == known[|known| - 1];
  }

  /** One event: `err` says whether it was the first thing wrong. */
  method Receive(run: RunId, events: seq<RuntimeEvent>, k: nat, p: Progress, recorded: seq<Err>)
    returns (q: Progress, err: Err)
    requires k < |events|
    ensures Fine(run, events[..k], recorded) && Tracks(p, events[..k]) ==>
      (err == NIL <==> Fine(run, events[..k + 1], recorded)) && (err == NIL ==> Tracks(q, events[..k + 1]))
  {
    hide Ordered, Known, KnownFine, KnownTracks;
    var e := events[k];
    ghost var before := events[..k];
    KnownMore(events, k);
    assert events[..k + 1] == before + [e];
    if e.run != run || (p.previous.Some? && e.sequence <= p.previous.value) {
      if Tracks(p, before) { OutOfOrder(run, before + [e], k); }
      return p, {ErrorKind.Invalid};
    }
    OrderedMore(run, before, e);
    q, err := p.(previous := Some(e.sequence)), NIL;
    PreviousIrrelevant(p, q, Known(before));
    if !IsKnown(e) { return; }
    q, err := ReceiveKnown(Known(before), e, q, recorded);
  }

  lemma PreviousIrrelevant(p: Progress, q: Progress, known: seq<RuntimeEvent>)
    requires q == p.(previous := q.previous)
    ensures KnownTracks(q, known) == KnownTracks(p, known)
  {
  }

  method ReceiveKnown(ghost known: seq<RuntimeEvent>, e: RuntimeEvent, p: Progress, recorded: seq<Err>)
    returns (q: Progress, err: Err)
    requires IsKnown(e)
    ensures KnownFine(known, recorded) && KnownTracks(p, known) ==>
      (err == NIL <==> KnownFine(known + [e], recorded)) && (err == NIL ==> KnownTracks(q, known + [e]))
    ensures q.previous == p.previous
  {
    hide LastCandidate, Finished;
    q, err := p, NIL;
    if p.terminalSeen {
      if |known| > 0 && IsTerminalEvent(known[|known| - 1]) { TerminalTwice(known, e); }
      return q, {ErrorKind.Invalid};
    }
    LastCandidateMore(known, e);
    if Unfinished(known) {
      if IsTerminalEvent(e) { FinishedMore(known, e); } else { UnfinishedMore(known, e); }
    }
    match e.payload {
      case Candidate(artifacts) => q := q.(candidate := Some(artifacts));
      case Completed(_, artifacts) =>
        q := q.(terminalSeen := true, completed := Some(e.payload));
        if p.candidate != Some(artifacts) { err := {ErrorKind.Invalid}; }
      case Failure =>
        q := q.(terminalSeen := true, completed := Some(e.payload));
        err := {ErrorKind.Invalid};
      case _ =>
    }
    err := err + (if q.stored < |recorded| then recorded[q.stored] else NIL);
    q := q.(stored := q.stored + 1);
    assert (known + [e])[|known|] == e;
  }

  /**
   pump: it receives from both channels in whatever order they are ready until both are closed, and
   succeeds exactly when nothing was wrong. `recorded` is what RecordRuntimeEvent returns in turn.
   */
  method Pump(run: RunId, events: seq<RuntimeEvent>, errors: seq<RuntimeError>, recorded: seq<Err>, picks: seq<bool>)
    returns (completed: Option<Payload>, failure: Err)
    ensures failure == NIL <==> Ordered(run, events) && errors == [] && Succeeds(Known(events), recorded)
    ensures failure == NIL ==> completed == Some(Known(events)[|Known(events)| - 1].payload)
    ensures (exists k :: 0 <= k < |errors| && errors[k] == RuntimeError(ErrorKind.Finalized, Some(Commit))) ==> Consistency in failure
  {
    hide Ordered, Finished, Fine, Tracks, Succeeds, Known;
    failure := NIL;
    var p := Progress(false, None, None, None, 0);
    StartPump(run, events, recorded);
    var i, j, n := 0, 0, 0;
    while i < |events| || j < |errors|
      invariant 0 <= i <= |events| && 0 <= j <= |errors|
      invariant failure == NIL <==> j == 0 && Fine(run, events[..i], recorded)
      invariant Fine(run, events[..i], recorded) ==> j == 0 ==> Tracks(p, events[..i])
      invariant forall k :: 0 <= k < j && errors[k] == RuntimeError(ErrorKind.Finalized, Some(Commit)) ==> Consistency in failure
      decreases |events| - i + |errors| - j
    {
      var pick := if n < |picks| then picks[n] else true;
      n := n + 1;
      if i < |events| && (pick || j == |errors|) {
        var err;
        p, err := Receive(run, events, i, p, recorded);
        if Fine(run, events[..i + 1], recorded) { FineShrinks(run, events, i, recorded); }
        failure := failure + err;
        i := i + 1;
      } else {
        var e := errors[j];
        failure := failure + {e.kind} + (if e.kind == ErrorKind.Finalized && e.decision == Some(Commit) then {Consistency} else {});
        assert e.kind in failure;
        j := j + 1;
      }
    }
    assert events[..|events|] == events;
    EndPump(run, events, recorded, p);
    if !p.terminalSeen {
      failure := failure + {OutcomeUnknown};
      assert OutcomeUnknown in failure;
    }
    completed := p.completed;
  }

  lemma StartPump(run: RunId, events: seq<RuntimeEvent>, recorded: seq<Err>)
    ensures Fine(run, events[..0], recorded) && Tracks(Progress(false, None, None, None, 0), events[..0])
  {
    assert events[..0] == [];
  }

  lemma EndPump(run: RunId, events: seq<RuntimeEvent>, recorded: seq<Err>, p: Progress)
    ensures Fine(run, events, recorded) && Tracks(p, events) ==>
      (p.terminalSeen <==> Succeeds(Known(events), recorded))
      && (p.terminalSeen ==> |Known(events)| > 0 && p.completed == Some(Known(events)[|Known(events)| - 1].payload))
    ensures Ordered(run, events) && Succeeds(Known(events), recorded) ==> Fine(run, events, recorded)
    ensures Fine(run, events, recorded) ==> Ordered(run, events)
    ensures Succeeds(Known(events), recorded) ==> |Known(events)| > 0
  {
    NotBoth(Known(events));
  }

  /**
   Execute followed by pump reports success exactly for a response whose lines all parse, belong to
   the run and strictly increase, whose known events are valid and end with the only terminal event,
   a completion, and whose events were all passed on and recorded.
   */
  method ExecuteAndPump(run: RunId, response: Response, lines: seq<RuntimeEvent>, end: LineEnd, done: Option<nat>,
                        recorded: seq<Err>, picks: seq<bool>)
    returns (completed: Option<Payload>, failure: Err)
    ensures failure == NIL <==>
      && response == Ndjson && end == Eof && Ordered(run, lines) && Succeeds(Known(lines), recorded)
      && (done.Some? ==> TerminalAt(lines) < done.value)
    ensures failure == NIL ==> completed == Some(Known(lines)[|Known(lines)| - 1].payload)
    ensures response == DecidedBody(Some(Commit)) ==> Consistency in failure
  {
    hide Ordered, Known, TerminalAt, AllNil;
    var sent, errors := Execute(run, response, lines, end, done);
    assert response == DecidedBody(Some(Commit)) ==> |errors| == 1 && errors[0] == RuntimeError(ErrorKind.Finalized, Some(Commit));
    completed, failure := Pump(run, sent, errors, recorded, picks);
  }
}
