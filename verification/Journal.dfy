/**
 One worker execution: its output and control messages in any interleaving, the event journal, and
 the stream that follows it (services/agent-runtime/src/harness_forge_runtime/processes.py).
 */
module Journal {
  import opened Basics
  import opened RunState
  import opened RunStore
  import opened Runtime
  import opened ExecutionStore

  datatype FailureCode = WorkerFailed | ExecutionCancelled | Reported

  datatype Payload =
    | Plain
    | ArtifactCandidates(artifacts: seq<ArtifactId>)
    | Completed(candidate: SessionId, artifacts: seq<ArtifactId>)
    | FailedWith(code: FailureCode)

  predicate TerminalPayload(p: Payload) {
    p.Completed? || p.FailedWith?
  }

  datatype Line = Line(run: RunId, sequence: nat, payload: Payload, known: bool)

  datatype Entry = Entry(sequence: nat, payload: Payload)

  datatype ControlKind = Created | Durable | Other

  /** What happens next to a started worker. `stored` says whether a journal write succeeds. */
  datatype Moment =
    | Output(line: Line, stored: bool)
    | BadOutput
    | Control(kind: ControlKind, candidate: SessionId, transcript: bool)
    | BadControl
    | Exit(status: nat)
    | CancelRequest

  /** How far `_run` gets before the worker is released. */
  datatype Setup = NoJournal | Broke | Released

  /** The local state of `_stdout`. */
  datatype Reader = Reader(last: nat, terminal: Option<Payload>, artifacts: Option<seq<ArtifactId>>)

  predicate Increasing(journal: seq<Entry>) {
    forall i, j :: 0 <= i < j < |journal| ==> journal[i].sequence < journal[j].sequence
  }

  predicate NumberedFromOne(journal: seq<Entry>) {
    forall i :: 0 <= i < |journal| ==> journal[i].sequence == i + 1
  }

  /** No terminal event, or exactly one, in last position. */
  predicate TerminalOnlyLast(journal: seq<Entry>) {
    forall i :: 0 <= i < |journal| - 1 ==> !TerminalPayload(journal[i].payload)
  }

  predicate Open(journal: seq<Entry>) {
    forall i :: 0 <= i < |journal| ==> !TerminalPayload(journal[i].payload)
  }

  predicate Closed(journal: seq<Entry>) {
    |journal| > 0 && TerminalOnlyLast(journal) && TerminalPayload(journal[|journal| - 1].payload)
  }

  /** The record backs a completion: this candidate, durably transcribed. */
  predicate Backs(files: Files, run: RunId, candidate: SessionId) {
    run in files && files[run].durable && files[run].candidate == Some(candidate)
  }

  predicate IsCompletion(p: Payload) {
    p.Completed?
  }

  function Last(journal: seq<Entry>): Payload
    requires |journal| > 0
  {
    journal[|journal| - 1].payload
  }

  const KILLED: nat := 9

  predicate AllStored(moments: seq<Moment>) {
    forall k :: 0 <= k < |moments| ==> (moments[k].Output? ==> moments[k].stored)
  }

  predicate CancelIn(moments: seq<Moment>) {
    exists k :: 0 <= k < |moments| && moments[k].CancelRequest?
  }

  class Worker {
    const run: RunId
    const store: Store
    var cancelled: bool
    var sequence: nat
    var journalReady: bool
    var journal: seq<Entry>
    /** Journal lines whose write failed; their numbers are lost. */
    ghost var lost: nat
    /** Whether a cancel had been requested when the last event was chosen. */
    ghost var cancelledAtClose: bool

    constructor (run: RunId, store: Store)
      ensures this.run == run && this.store == store && Consistent() && journal == [] && lost == 0 && !journalReady
    {
      this.run, this.store, cancelledAtClose := run, store, false;
      cancelled, sequence, journalReady, journal, lost := false, 0, false, [], 0;
    }

    /** Numbers only grow, and while no write failed they are 1, 2, 3, ... */
    ghost predicate Consistent()
      reads this
    {
      && Increasing(journal) && sequence == |journal| + lost
      && (forall i :: 0 <= i < |journal| ==> journal[i].sequence <= sequence)
      && (lost == 0 ==> NumberedFromOne(journal))
    }

    /** `_publish` */
    method Publish(payload: Payload, stored: bool) returns (ok: bool)
      requires Consistent()
      modifies this`sequence, this`journal, this`lost
      ensures Consistent()
      ensures ok <==> journalReady && stored
      ensures ok ==>
        |journal| == |old(journal)| + 1 && journal[..|old(journal)|] == old(journal) && journal[|old(journal)|].payload == payload
      ensures !ok ==> journal == old(journal)
      ensures journalReady ==> lost == old(lost) + (if ok then 0 else 1)
      ensures !journalReady ==> lost == old(lost)
    {
      if !journalReady { return false; }
      sequence := sequence + 1;
      if !stored {
        lost := lost + 1;
        return false;
      }
      journal := journal + [Entry(sequence, payload)];
      ok := true;
    }

    /** What the reader holds back is backed by the record and by what is already journaled. */
    ghost predicate ReaderOk(r: Reader)
      reads this, store
    {
      && (r.terminal.Some? ==> TerminalPayload(r.terminal.value))
      && (r.terminal.Some? && r.terminal.value.Completed? ==>
            Backs(store.visible, run, r.terminal.value.candidate) && r.artifacts == Some(r.terminal.value.artifacts))
      && AnnouncedOnly(journal, r.artifacts)
    }

    /** One line of `_stdout`: order and evidence are checked, a terminal event is withheld. */
    method ReadLine(r: Reader, line: Line, stored: bool) returns (next: Reader, ok: bool)
      requires Consistent() && store.Valid() && Open(journal) && ReaderOk(r)
      modifies this`sequence, this`journal, this`lost
      ensures Consistent() && Open(journal) && ReaderOk(next) && old(journal) <= journal
      ensures r.terminal.Some? ==> !ok
      ensures !ok ==> next == r && journal == old(journal)
      ensures stored && journalReady ==> lost == old(lost)
    {
      next := r;
      if line.run != run || line.sequence <= r.last || r.terminal.Some? || !line.known { return r, false; }
      var record, available := store.Get(run);
      if !available { return r, false; }
      if !line.payload.FailedWith? && (record.None? || record.value.candidate.None?) { return r, false; }
      if line.payload.ArtifactCandidates? || line.payload.Completed? {
        if record.None? || !record.value.durable { return r, false; }
        if line.payload.ArtifactCandidates? {
          if r.artifacts.Some? { return r, false; }
        } else if record.value.candidate != Some(line.payload.candidate) || r.artifacts != Some(line.payload.artifacts) {
          return r, false;
        }
      }
      if TerminalPayload(line.payload) {
        return Reader(line.sequence, Some(line.payload), r.artifacts), true;
      }
      ok := Publish(line.payload, stored);
      if !ok { return r, false; }
      AnnouncedMore(old(journal), r.artifacts, journal[|old(journal)|]);
      assert journal == old(journal) + [journal[|old(journal)|]];
      if line.payload.ArtifactCandidates? {
        return Reader(line.sequence, None, Some(line.payload.artifacts)), true;
      }
      next := Reader(line.sequence, None, r.artifacts);
    }

    /** One message of `_control`; the acknowledgement is written only after the record is. */
    method ReadControl(kind: ControlKind, candidate: SessionId, transcript: bool) returns (ok: bool)
      requires store.Valid()
      modifies store
      ensures store.Valid() && InState(store.visible, run, Working) == InState(old(store.visible), run, Working)
      ensures forall c: SessionId :: Backs(old(store.visible), run, c) ==> Backs(store.visible, run, c)
      ensures At(store.visible, run).Some? <==> At(old(store.visible), run).Some?
      ensures ok && kind == Durable ==> !cancelled && transcript && Backs(store.visible, run, candidate)
    {
      if cancelled || kind == Other { return false; }
      var record, available := store.Get(run);
      if !available || record.None? || record.value.source == Some(candidate) || candidate in record.value.baseline {
        return false;
      }
      var answer;
      if kind == Created {
        answer := store.RecordCandidate(run, candidate);
      } else {
        if record.value.candidate != Some(candidate) || !transcript { return false; }
        answer := store.MarkCandidateDurable(run);
      }
      ok := answer.Accepted?;
    }

    /** The last event: the withheld terminal if everything went well and no cancel came, else a failure. */
    method PublishOutcome(terminal: Option<Payload>, success: bool, stored: bool) returns (ok: bool)
      requires Consistent() && Open(journal)
      requires terminal.Some? ==> TerminalPayload(terminal.value)
      requires success ==> terminal.Some?
      modifies this`sequence, this`journal, this`lost, this`cancelledAtClose
      ensures Consistent() && old(journal) <= journal && cancelledAtClose == cancelled
      ensures ok <==> journalReady && stored
      ensures if ok then Closed(journal) && |journal| == |old(journal)| + 1 else journal == old(journal)
      ensures ok ==>
        Last(journal) ==
          if cancelled then FailedWith(ExecutionCancelled)
          else if terminal.Some? && (success || terminal.value.FailedWith?) then terminal.value
          else FailedWith(WorkerFailed)
      ensures ok ==> lost == old(lost)
    {
      cancelledAtClose := cancelled;
      if success && !cancelled {
        ok := Publish(terminal.value, stored);
      } else if terminal.Some? && terminal.value.FailedWith? && !cancelled {
        ok := Publish(terminal.value, stored);
      } else {
        ok := Publish(FailedWith(if cancelled then ExecutionCancelled else WorkerFailed), stored);
      }
      assert ok ==> journal == old(journal) + [journal[|old(journal)|]];
    }

    /**
     The released worker until all its pipes are closed. After the first error the readers go on,
     but the run has failed; a process that has not exited by then is killed.
     */
    method Attend(moments: seq<Moment>) returns (r: Reader, failed: bool, status: nat)
      requires Consistent() && store.Valid() && Open(journal) && AnnouncedOnly(journal, None)
      modifies this`sequence, this`journal, this`lost, this`cancelled, store
      ensures Consistent() && store.Valid() && Open(journal) && ReaderOk(r)
      ensures cancelled <==> old(cancelled) || CancelIn(moments)
      ensures journalReady && AllStored(moments) ==> lost == old(lost)
      ensures InState(store.visible, run, Working) == InState(old(store.visible), run, Working)
      ensures At(store.visible, run).Some? <==> At(old(store.visible), run).Some?
    {
      hide Tracked, FilesOk, Increasing, NumberedFromOne, AnnouncedOnly, Backs, Open, InState;
      r, failed, status := Reader(0, None, None), false, KILLED;
      var reading, controlling, exited := true, true, false;
      var k := 0;
      while k < |moments|
        invariant 0 <= k <= |moments|
        invariant Consistent() && store.Valid() && Open(journal) && ReaderOk(r)
        invariant InState(store.visible, run, Working) == InState(old(store.visible), run, Working)
        invariant cancelled <==> old(cancelled) || exists j :: 0 <= j < k && moments[j].CancelRequest?
        invariant journalReady && AllStored(moments) ==> lost == old(lost)
        invariant At(store.visible, run).Some? <==> At(old(store.visible), run).Some?
      {
        var ok := true;
        match moments[k] {
          case Output(line, stored) =>
            if reading { r, ok := ReadLine(r, line, stored); reading := ok; }
          case BadOutput =>
            ok, reading := !reading, false;
          case Control(kind, candidate, transcript) =>
            if controlling {
              ok := ReadControl(kind, candidate, transcript);
              controlling := ok;
            }
          case BadControl =>
            ok, controlling := !controlling, false;
          case Exit(code) =>
            if !exited { exited, status := true, code; }
          case CancelRequest =>
            cancelled := true;
        }
        failed := failed || !ok;
        k := k + 1;
      }
    }

    /**
     `_run` after the setup: the outcome is journaled only once the worker has stopped. A cancel may be
     requested while it is being stopped and its readers are gathered (`late`), that is after `success`
     was computed, and again once the outcome is written (`later`).
     */
    method Settle(terminal: Option<Payload>, success: bool, stopped: bool, late: bool, stored: bool, later: bool)
      returns (clean: bool)
      requires Consistent() && store.Valid() && Open(journal)
      requires terminal.Some? ==> TerminalPayload(terminal.value)
      requires success ==> terminal.Some?
      modifies this`sequence, this`journal, this`lost, this`cancelled, this`cancelledAtClose, store
      ensures Consistent() && store.Valid() && TerminalOnlyLast(journal) && old(journal) <= journal
      ensures Closed(journal) ==>
        && cancelledAtClose == (old(cancelled) || late)
        && Last(journal) ==
             (if cancelledAtClose then FailedWith(ExecutionCancelled)
              else if terminal.Some? && (success || terminal.value.FailedWith?) then terminal.value
              else FailedWith(WorkerFailed))
      ensures Closed(journal) <==> journalReady && stopped && stored
      ensures journalReady && stopped && stored ==> lost == old(lost)
      ensures |journal| <= |old(journal)| + 1
      ensures clean ==>
        && Closed(journal) && run in old(store.visible) && InState(store.visible, run, AwaitingFinalize)
        && store.durable == store.visible
        && Records(store.visible) == Records(old(store.visible))[run := Abstract(old(store.visible)[run]).(lifecycle := AwaitingFinalize)]
      ensures run in old(store.visible) ==>
        run in store.visible && store.visible[run].durable == old(store.visible)[run].durable
        && store.visible[run].candidate == old(store.visible)[run].candidate
    {
      hide Tracked, FilesOk, Increasing, NumberedFromOne, Open, Store.Continues, Successor;
      cancelled := cancelled || late;
      OpenIsNotClosed(journal);
      if !stopped { return false; }
      var published := PublishOutcome(terminal, success, stored);
      cancelled := cancelled || later;
      // A journal failure cannot keep an already stopped run active.
      ghost var before := store.visible;
      var answer := store.MarkAwaitingFinalize(run);
      clean := published && answer.Accepted?;
      if answer.Accepted? { OneRecordChanged(before, store.visible, run); }
    }

    /** `working` is what the directory showed when the worker had been attended to. */
    method Run(setup: Setup, moments: seq<Moment>, stopped: bool, late: bool, stored: bool, later: bool)
      returns (clean: bool, status: nat, ghost working: Files)
      requires Consistent() && store.Valid() && journal == [] && lost == 0 && !journalReady
      modifies this, store
      ensures Consistent() && store.Valid() && TerminalOnlyLast(journal)
      ensures Closed(journal) <==> setup != NoJournal && stopped && stored
      ensures setup != NoJournal && stopped && stored && AllStored(moments) ==> NumberedFromOne(journal)
      ensures Closed(journal) && cancelledAtClose ==> Last(journal) == FailedWith(ExecutionCancelled)
      ensures Closed(journal) && (old(cancelled) || late) ==> cancelledAtClose
      ensures Closed(journal) && IsCompletion(Last(journal)) ==>
        && status == 0 && !old(cancelled) && !CancelIn(moments) && !late && Backs(store.visible, run, Last(journal).candidate)
        && AnnouncedOnly(journal, Some(Last(journal).artifacts))
      ensures clean ==>
        && Closed(journal) && store.durable == store.visible
        && InState(store.visible, run, AwaitingFinalize)
        && (IsCompletion(Last(journal)) ==> InState(working, run, Working) && Backs(working, run, Last(journal).candidate))
        && run in working
        && Records(store.visible) == Records(working)[run := Abstract(working[run]).(lifecycle := AwaitingFinalize)]
    {
      hide Tracked, FilesOk, Increasing, NumberedFromOne, AnnouncedOnly, Records;
      status, working := KILLED, store.visible;
      NothingYet();
      journalReady := setup != NoJournal;
      if setup != Released || cancelled {
        clean := Settle(None, false, stopped, late, stored, later);
        return;
      }
      var answer := store.MarkRunning(run);
      working := store.visible;
      if !answer.Accepted? {
        clean := Settle(None, false, stopped, late, stored, later);
        return;
      }
      var r, failed;
      r, failed, status := Attend(moments);
      working := store.visible;
      var terminal := if failed then None else r.terminal;
      ghost var attended := journal;
      clean := Settle(terminal, !failed && status == 0 && terminal.Some? && !cancelled, stopped, late, stored, later);
      if Closed(journal) && IsCompletion(Last(journal)) {
        AnnouncedMore(attended, r.artifacts, journal[|attended|]);
        assert journal == attended + [journal[|attended|]];
      }
    }
  }

  predicate InState(files: Files, run: RunId, lifecycle: Lifecycle) {
    run in files && files[run].lifecycle == lifecycle
  }

  lemma OneRecordChanged(m: Files, n: Files, run: RunId)
    requires run in m && run in n && n - {run} == m - {run}
    ensures Records(n) == Records(m)[run := Abstract(n[run])]
  {
    forall x: RunId ensures x in n <==> x in m {
      assert x != run ==> At(n - {run}, x) == At(m - {run}, x);
    }
    forall x: RunId | x in m && x != run ensures n[x] == m[x] {
      assert At(n - {run}, x) == At(m - {run}, x);
    }
  }

  /** The journal announces these artifacts and no others, or none at all. */
  ghost predicate AnnouncedOnly(journal: seq<Entry>, artifacts: Option<seq<ArtifactId>>) {
    && (forall i :: 0 <= i < |journal| && journal[i].payload.ArtifactCandidates? ==>
          artifacts == Some(journal[i].payload.artifacts))
    && (artifacts.Some? ==> exists i :: 0 <= i < |journal| && journal[i].payload.ArtifactCandidates?)
  }

  lemma OpenIsNotClosed(journal: seq<Entry>)
    requires Open(journal)
    ensures !Closed(journal) && TerminalOnlyLast(journal)
  {
  }

  lemma NothingYet()
    ensures Open([]) && AnnouncedOnly([], None)
  {
  }

  lemma AnnouncedMore(journal: seq<Entry>, artifacts: Option<seq<ArtifactId>>, e: Entry)
    requires AnnouncedOnly(journal, artifacts)
    ensures !e.payload.ArtifactCandidates? ==> AnnouncedOnly(journal + [e], artifacts)
    ensures e.payload.ArtifactCandidates? && artifacts.None? ==> AnnouncedOnly(journal + [e], Some(e.payload.artifacts))
  {
    var all := journal + [e];
    assert all[|journal|] == e;
    if artifacts.Some? {
      var i :| 0 <= i < |journal| && journal[i].payload.ArtifactCandidates?;
      assert all[i].payload.ArtifactCandidates?;
    }
  }

  /**
   ProcessManager.recover at startup: a worker left over from an earlier process is stopped, and its
   execution then waits for a decision; nothing else changes.
   */
  method Recover(store: Store, stopped: bool) returns (ok: bool)
    requires store.Valid()
    modifies store
    ensures store.Valid()
    ensures ok ==> forall id :: id in store.visible ==> store.visible[id].lifecycle !in {Starting, Working}
    ensures forall x: RunId :: x in old(store.visible) && old(store.visible)[x].lifecycle !in {Starting, Working} ==>
              At(store.visible, x) == At(old(store.visible), x)
    ensures forall x: RunId :: x in store.visible ==> x in old(store.visible)
  {
    var ids, available := store.ListUnfinalized();
    if !available { return false; }
    if ids == {} { return true; }
    var id: RunId :| id in ids;
    var record, _ := store.Get(id);
    if record.value.lifecycle !in {Starting, Working} {
      OnlyOne(store.visible, id);
      return true;
    }
    if !stopped { return false; }
    ghost var before := store.visible;
    OnlyOne(before, id);
    var answer := store.MarkAwaitingFinalize(id);
    ok := answer.Accepted?;
    OthersSame(before, store.visible, id);
  }

  lemma OnlyOne(files: Files, id: RunId)
    requires FilesOk(files) && id in files && Unfinalized(files[id])
    ensures forall x: RunId :: x in files && x != id ==> !Unfinalized(files[x])
  {
  }

  lemma OthersSame(m: Files, n: Files, id: RunId)
    requires n - {id} == m - {id}
    ensures forall x: RunId :: x != id ==> At(n, x) == At(m, x)
    ensures forall x: RunId :: x in n && x != id ==> x in m
  {
    forall x: RunId | x != id ensures At(n, x) == At(m, x) && (x in n ==> x in m) {
      assert At(n - {id}, x) == At(m - {id}, x);
    }
  }

  // ---- The stream that follows the journal -------------------------------------------------

  datatype Wake = Opens | Grows | Ends

  datatype StreamEnd = CleanEnd | BrokenEnd | StillWaiting

  /**
   One follower of a running worker. `tape` is the journal that the worker will leave and `clean` how it
   will end; the script says how far it gets each time the follower is suspended.
   */
  class Follower {
    const tape: seq<Entry>
    const clean: bool
    var ready: bool
    var journal: seq<Entry>
    var done: Option<bool>
    var changed: bool
    var yielded: seq<Entry>
    var script: seq<seq<Wake>>

    constructor (tape: seq<Entry>, clean: bool, script: seq<seq<Wake>>)
      ensures this.script == script && this.tape == tape && this.clean == clean
      ensures !ready && journal == [] && yielded == [] && done.None?
    {
      this.script, this.tape, this.clean := script, tape, clean;
      ready, journal, done, changed, yielded := false, [], None, false, [];
    }

    /** What is written so far; once the worker is done, its whole journal. */
    predicate OnTape()
      reads this
    {
      && journal <= tape && (!ready ==> journal == [])
      && (done.Some? ==> journal == tape && done == Some(clean))
    }

    /** `_publish` and the end of `_run` set the event after every change; opening the empty journal does not. */
    method Suspend()
      requires yielded <= journal && OnTape()
      modifies this`ready, this`journal, this`done, this`changed, this`script
      ensures old(journal) <= journal && yielded <= journal && OnTape() && (old(ready) ==> ready)
      ensures old(done).Some? ==> done == old(done) && journal == old(journal)
      ensures !changed ==> !old(changed) && journal == old(journal) && done == old(done)
      ensures |script| == if old(script) == [] then 0 else |old(script)| - 1
      ensures old(script) == [] ==> changed == old(changed) && journal == old(journal)
    {
      if script == [] { return; }
      var batch := script[0];
      script := script[1..];
      var k := 0;
      while k < |batch|
        invariant old(journal) <= journal && OnTape() && (old(ready) ==> ready)
        invariant old(done).Some? ==> done == old(done) && journal == old(journal)
        invariant !changed ==> !old(changed) && journal == old(journal) && done == old(done)
        invariant script == old(script)[1..]
      {
        if done.None? {
          match batch[k] {
            case Opens => ready := true;
            case Grows =>
              if ready && |journal| < |tape| { journal, changed := journal + [tape[|journal|]], true; }
            case Ends =>
              if journal == tape { done, changed := Some(clean), true; }
          }
        }
        k := k + 1;
      }
    }

    /** Reads lines up to the end of the file; the worker may go on while each line is handed out. */
    method ReadToEnd(from: nat) returns (offset: nat)
      requires from == |yielded| && yielded <= journal && OnTape() && ready && !changed
      modifies this
      ensures offset == |yielded| && yielded == journal && OnTape() && ready
      ensures |script| <= |old(script)| && (changed ==> |script| < |old(script)|)
    {
      offset := from;
      while offset < |journal|
        invariant offset == |yielded| && yielded <= journal && OnTape() && ready
        invariant |script| <= |old(script)| && (changed ==> |script| < |old(script)|)
        decreases |script|, |journal| - offset
      {
        yielded := yielded + [journal[offset]];
        offset := offset + 1;
        Suspend();
      }
    }

    /**
     `stream`: every line once, in order. An end has yielded the worker's whole journal and is clean if
     and only if the worker ended so; the follower never waits while something is unread or the worker
     is done: no wake-up is lost.
     */
    method Follow() returns (end: StreamEnd)
      requires !ready && journal == [] && yielded == [] && done.None?
      modifies this
      ensures yielded == journal && yielded <= tape
      ensures end != StillWaiting ==> yielded == tape && (end == CleanEnd <==> clean)
      ensures end == match done { case None => StillWaiting case Some(clean) => if clean then CleanEnd else BrokenEnd }
    {
      var offset := 0;
      while true
        invariant offset == |yielded| && yielded <= journal && OnTape()
        decreases |script|
      {
        ghost var left := |script|;
        changed := false;
        if ready {
          offset := ReadToEnd(offset);
        }
        if done.Some? { return if done.value then CleanEnd else BrokenEnd; }
        while !changed
          invariant offset == |yielded| && yielded <= journal && OnTape()
          invariant !changed ==> yielded == journal && done.None?
          invariant |script| <= left && (changed ==> |script| < left)
          decreases |script|
        {
          if script == [] { return StillWaiting; }
          Suspend();
        }
      }
    }
  }
}
