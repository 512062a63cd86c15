/**
 From the worker to the control plane: one worker's journal, followed by the runtime's stream, cut
 anywhere by the network, scanned and pumped by the control plane. A body that ends properly was
 ended by a server that ended its stream properly.
 */
module Completion {
  import opened Basics
  import opened RunState
  import opened RunStore
  import opened Runtime
  import opened Protocol
  import opened ExecutionStore
  import opened Journal
  import RunStream

  /** `event_line` as the control plane parses it. */
  function Parsed(run: RunId, e: Entry): RunStream.RuntimeEvent {
    RunStream.RuntimeEvent(run, e.sequence,
      match e.payload
      case Plain => RunStream.Plain
      case ArtifactCandidates(artifacts) => RunStream.Candidate(artifacts)
      case Completed(candidate, artifacts) => RunStream.Completed(candidate, artifacts)
      case FailedWith(_) => RunStream.Failure)
  }

  function ParsedLines(run: RunId, journal: seq<Entry>): (lines: seq<RunStream.RuntimeEvent>)
    ensures |lines| == |journal| && forall i :: 0 <= i < |journal| ==> lines[i] == Parsed(run, journal[i])
  {
    seq(|journal|, i requires 0 <= i < |journal| => Parsed(run, journal[i]))
  }

  lemma {:induction false} AllKnown(events: seq<RunStream.RuntimeEvent>)
    requires forall i :: 0 <= i < |events| ==> RunStream.IsKnown(events[i])
    ensures RunStream.Known(events) == events
  {
    if events != [] {
      var n := |events| - 1;
      AllKnown(events[..n]);
      assert events == events[..n] + [events[n]];
    }
  }

  lemma {:induction false} OneAnnouncement(events: seq<RunStream.RuntimeEvent>, artifacts: seq<ArtifactId>)
    requires forall i :: 0 <= i < |events| && events[i].payload.Candidate? ==> events[i].payload.artifacts == artifacts
    requires exists i :: 0 <= i < |events| && events[i].payload.Candidate?
    ensures RunStream.LastCandidate(events) == Some(artifacts)
  {
    var n := |events| - 1;
    if !events[n].payload.Candidate? {
      var i :| 0 <= i < |events| && events[i].payload.Candidate?;
      assert events[..n][i].payload.Candidate?;
      OneAnnouncement(events[..n], artifacts);
    }
  }

  /** What the pump accepts of a part of a journal: all of it, if a matching completion closes it. */
  lemma AcceptedJournal(run: RunId, journal: seq<Entry>, cut: nat, recorded: seq<Err>)
    requires Increasing(journal) && TerminalOnlyLast(journal) && cut <= |journal|
    requires Closed(journal) && IsCompletion(Last(journal)) ==> AnnouncedOnly(journal, Some(Last(journal).artifacts))
    ensures var lines := ParsedLines(run, journal[..cut]);
            && RunStream.Ordered(run, lines) && RunStream.Known(lines) == lines
            && (RunStream.Succeeds(RunStream.Known(lines), recorded) <==>
                  && cut == |journal| && Closed(journal) && IsCompletion(Last(journal)) && RunStream.AllNil(recorded, cut))
            && (Closed(journal) && cut == |journal| ==> RunStream.TerminalAt(lines) == cut - 1)
  {
    hide AnnouncedOnly, Increasing, RunStream.Ordered, RunStream.Known, RunStream.LastCandidate, RunStream.TerminalAt,
         RunStream.ValidSequence, RunStream.AllNil, Closed;
    var lines := ParsedLines(run, journal[..cut]);
    AllKnown(lines);
    OrderedLines(run, journal, cut);
    if cut == |journal| && Closed(journal) {
      assert journal[..cut] == journal;
      ClosedLines(run, journal);
    } else if cut > 0 && RunStream.Finished(lines) {
      LastIsTerminal(run, journal, cut);
    }
  }

  lemma OrderedLines(run: RunId, journal: seq<Entry>, cut: nat)
    requires Increasing(journal) && cut <= |journal|
    ensures RunStream.Ordered(run, ParsedLines(run, journal[..cut]))
  {
  }

  lemma LastIsTerminal(run: RunId, journal: seq<Entry>, cut: nat)
    requires TerminalOnlyLast(journal) && 0 < cut <= |journal|
    requires RunStream.IsTerminalEvent(ParsedLines(run, journal[..cut])[cut - 1])
    ensures cut == |journal| && Closed(journal)
  {
    assert TerminalPayload(journal[cut - 1].payload);
  }

  lemma ClosedLines(run: RunId, journal: seq<Entry>)
    requires Closed(journal)
    requires IsCompletion(Last(journal)) ==> AnnouncedOnly(journal, Some(Last(journal).artifacts))
    ensures var lines := ParsedLines(run, journal[..|journal|]);
            && RunStream.TerminalAt(lines) == |journal| - 1
            && (IsCompletion(Last(journal)) ==> RunStream.Finished(lines))
            && (RunStream.Finished(lines) && lines[|journal| - 1].payload.Completed? ==> IsCompletion(Last(journal)))
  {
    var n := |journal| - 1;
    var lines := ParsedLines(run, journal[..|journal|]);
    assert lines == lines[..n] + [lines[n]];
    forall i | 0 <= i < n ensures !RunStream.IsTerminalEvent(lines[i]) {
      assert !TerminalPayload(journal[i].payload);
    }
    assert RunStream.Unfinished(lines[..n]);
    if IsCompletion(Last(journal)) {
      var i :| 0 <= i < |journal| && journal[i].payload.ArtifactCandidates?;
      assert lines[..n][i].payload.Candidate?;
      OneAnnouncement(lines[..n], Last(journal).artifacts);
      RunStream.FinishedMore(lines[..n], lines[n]);
    }
  }

  /** The worker's last step on its record is the protocol's CompleteWorker, which reports the candidate. */
  lemma CompletionIsReported(s: State, working: Files, shown: Files, run: RunId, candidate: SessionId)
    requires run < |s.db.runs| && s.rt.records == Records(working)
    requires InState(working, run, Working) && Backs(working, run, candidate)
    requires Records(shown) == Records(working)[run := Abstract(working[run]).(lifecycle := AwaitingFinalize)]
    ensures Enabled(s, CompleteWorker(run))
    ensures Apply(s, CompleteWorker(run)).rt.records == Records(shown)
    ensures run in Apply(s, CompleteWorker(run)).rt.reports && Apply(s, CompleteWorker(run)).rt.reports[run] == candidate
  {
    assert Records(working)[run] == Abstract(working[run]);
  }

  /**
   One execution from the start of its worker to the pump's verdict. The pump succeeds exactly when the
   worker ended cleanly with a completion and every line of its journal arrived and was recorded; then
   the stored record durably names the delivered candidate and waits for the decision, and writing it
   was the protocol's CompleteWorker step, so that the completion is a reported one.
   */
  method Deliver(worker: Worker, setup: Setup, moments: seq<Moment>, stopped: bool, late: bool, stored: bool, later: bool,
                 script: seq<seq<Wake>>, cut: nat, done: Option<nat>, recorded: seq<Err>, picks: seq<bool>)
    returns (completed: Option<RunStream.Payload>, failure: Err, end: StreamEnd, ghost working: Files)
    requires worker.Consistent() && worker.store.Valid()
    requires worker.journal == [] && worker.lost == 0 && !worker.journalReady
    modifies worker, worker.store
    ensures worker.store.Valid()
    ensures failure == NIL <==>
      && end == CleanEnd && |worker.journal| <= cut && Closed(worker.journal) && IsCompletion(Last(worker.journal))
      && RunStream.AllNil(recorded, |worker.journal|) && (done.Some? ==> |worker.journal| <= done.value)
    ensures failure == NIL ==>
      && completed.Some? && completed.value.Completed?
      && var candidate := completed.value.session;
         && InState(worker.store.visible, worker.run, AwaitingFinalize)
         && Backs(worker.store.visible, worker.run, candidate)
         && worker.store.durable == worker.store.visible
         && !old(worker.cancelled) && !CancelIn(moments) && !late
         && forall s: State :: worker.run < |s.db.runs| && s.rt.records == Records(working) ==>
              && Enabled(s, CompleteWorker(worker.run))
              && Apply(s, CompleteWorker(worker.run)).rt.records == Records(worker.store.visible)
              && worker.run in Apply(s, CompleteWorker(worker.run)).rt.reports
              && Apply(s, CompleteWorker(worker.run)).rt.reports[worker.run] == candidate
  {
    hide RunStream.Ordered, RunStream.Known, RunStream.TerminalAt, RunStream.AllNil, RunStream.Succeeds;
    hide Tracked, FilesOk, Enabled, Apply, Records, Closed, AnnouncedOnly;
    var clean, status;
    clean, status, working := worker.Run(setup, moments, stopped, late, stored, later);
    var follower := new Follower(worker.journal, clean, script);
    end := follower.Follow();
    var arrived := if cut < |follower.yielded| then cut else |follower.yielded|;
    var lines := ParsedLines(worker.run, follower.yielded[..arrived]);
    var whole := end == CleanEnd && arrived == |follower.yielded|;
    assert follower.yielded[..arrived] == worker.journal[..arrived];
    AcceptedJournal(worker.run, worker.journal, arrived, recorded);
    completed, failure :=
      RunStream.ExecuteAndPump(worker.run, RunStream.Ndjson, lines, if whole then RunStream.Eof else RunStream.ReadError,
                               done, recorded, picks);
    if failure == NIL {
      assert clean && completed == Some(Parsed(worker.run, worker.journal[|worker.journal| - 1]).payload);
      forall s: State | worker.run < |s.db.runs| && s.rt.records == Records(working)
        ensures Enabled(s, CompleteWorker(worker.run))
        ensures Apply(s, CompleteWorker(worker.run)).rt.records == Records(worker.store.visible)
        ensures worker.run in Apply(s, CompleteWorker(worker.run)).rt.reports
        ensures Apply(s, CompleteWorker(worker.run)).rt.reports[worker.run] == completed.value.session
      {
        CompletionIsReported(s, working, worker.store.visible, worker.run, completed.value.session);
      }
    }
  }
}
