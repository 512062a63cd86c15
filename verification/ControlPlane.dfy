/**
 The scheduler's side of the protocol as it runs: coordinator.go, reconcile.go, scheduler.go and the
 remote calls they make. Between any two atomic steps users, workers and purges may act, any call may
 fail before or after its effect, and the process may die: an exhausted script fails every further
 call without effect. Every change of state goes through `Do`, so whatever the script says the
 history is a legal run of the protocol.
 */
module ControlPlane {
  import opened Basics
  import opened RunState
  import opened RunStore
  import opened RunStoreProofs
  import opened Runtime
  import opened Protocol
  import opened ProtocolProofs
  import opened ProtocolTheorems
  import opened Interference

  /** What becomes of one call: its reply arrives, or is lost before or after the effect. */
  datatype Reply = Delivered | Lost(applied: bool, kind: ErrorKind)

  /** A runtime event the execution stream delivers, a completion with its candidate, or the stream's end. */
  datatype Delivery = Deliver(sequence: nat, kind: EventKind, candidate: SessionId) | EndOfStream(clean: bool)

  /** One entry of the script: interference first, then the fate of the call and its free choices. */
  datatype Moment = Moment(
    steps: seq<Action>,
    reply: Reply,
    locked: set<RunId>,
    listed: seq<RunId>,
    listedSessions: set<SessionId>,
    removed: set<SessionId>,
    artifacts: seq<ArtifactId>,
    delivery: Delivery)

  const DEAD := Moment([], Lost(false, Unavailable), {}, [], {}, {}, [], EndOfStream(false))

  /** A failed transport is one of these; it never looks like a conflict or an inconsistency. */
  function Transport(reply: Reply): (e: Err)
    ensures Conflict !in e && Consistency !in e && (e == NIL <==> reply.Delivered?)
  {
    match reply
    case Delivered => NIL
    case Lost(_, kind) => if kind == OutcomeUnknown || kind == NotFound then {kind} else {Unavailable}
  }

  datatype LeaseInfo = LeaseInfo(run: RunId, ref: Ref)

  function Runs(listed: seq<LeaseInfo>): (ids: seq<RunId>)
    ensures |ids| == |listed| && forall k :: 0 <= k < |listed| ==> ids[k] == listed[k].run
  {
    seq(|listed|, i requires 0 <= i < |listed| => listed[i].run)
  }

  /** The runtime's GET /v1/executions. */
  datatype Execution = Execution(run: RunId, lifecycle: Lifecycle)

  class System {
    var db: Db
    var rt: Runtime
    var leases: map<RunId, Lease>
    var active: set<RunId>
    var script: seq<Moment>
    ghost var start: State
    ghost var history: seq<Action>

    function S(): State
      reads this
    {
      State(db, rt, leases)
    }

    ghost predicate Valid()
      reads this
    {
      Inv(start) && Inv(S()) && Legal(start, history) && Replay(start, history) == S()
    }

    constructor (script: seq<Moment>)
      ensures Valid() && S() == INITIAL && active == {} && history == []
    {
      db, rt, leases, active := INITIAL.db, INITIAL.rt, INITIAL.leases, {};
      this.script := script;
      start, history := INITIAL, [];
      new;
      InitialInv();
    }

    /** A restart keeps only what is durable: the tables, the records, the sessions and the leases. */
    constructor Restart(crashed: System, script: seq<Moment>)
      requires crashed.Valid()
      ensures Valid() && S() == crashed.S() && active == {}
    {
      db, rt, leases, active := crashed.db, crashed.rt, crashed.leases, {};
      this.script := script;
      start, history := crashed.start, crashed.history;
    }

    /** The one place where the state changes. */
    method Do(a: Action)
      requires Valid() && Enabled(S(), a)
      modifies this`db, this`rt, this`leases, this`history
      ensures Valid() && S() == Apply(old(S()), a)
      ensures history == old(history) + [a] && start == old(start)
    {
      hide Inv, Legal, Replay, TableEffect, RuntimeEffect, RuntimeEnabled, LeaseEffect, LeaseEnabled, Discipline;
      StepKeepsInv(S(), a);
      LegalAppend(start, history, a);
      history := history + [a];
      if TableAction(a) {
        db := TableEffect(db, a).value;
      } else if LeaseAction(a) {
        leases := LeaseEffect(S(), a);
      } else {
        rt := RuntimeEffect(S(), a);
      }
    }

    /** Let others act, then learn the fate of the next call. */
    method Pause() returns (m: Moment)
      requires Valid()
      modifies this`db, this`rt, this`leases, this`history, this`script
      ensures Valid() && Rely(old(S()), S()) && start == old(start) && leases == old(leases)
      ensures |script| <= |old(script)|
      ensures m == DEAD || |script| < |old(script)|
    {
      hide Inv, Legal, Replay, Enabled, Apply, Along, LogOk, RowOk;
      RelyReflexive(S());
      if script == [] {
        return DEAD;
      }
      m := script[0];
      script := script[1..];
      var i := 0;
      while i < |m.steps|
        invariant Valid() && Rely(old(S()), S()) && start == old(start) && leases == old(leases)
        invariant 0 <= i <= |m.steps|
        invariant script == old(script)[1..]
      {
        if Environment(m.steps[i]) && Enabled(S(), m.steps[i]) {
          EnvironmentStep(S(), m.steps[i]);
          EnvironmentKeepsLeases(S(), m.steps[i]);
          ghost var before := S();
          Do(m.steps[i]);
          AllRowsOk(old(S()));
          AlongTransitive(old(S()), before, S(), None);
        }
        i := i + 1;
      }
    }

    /** The common frame of a call made while acting on run `id`. */
    ghost predicate ActingOn(base: State, id: RunId)
      reads this
    {
      Valid() && Acting(base, S(), id)
    }

    // ---- Calls without effect --------------------------------------------------------------

    /** Any call that only reads or whose effect is outside the model; its error is the transport's. */
    method Call(ghost base: State, id: RunId) returns (err: Err)
      requires ActingOn(base, id)
      modifies this`db, this`rt, this`leases, this`history, this`script
      ensures ActingOn(base, id) && Rely(old(S()), S()) && leases == old(leases)
      ensures Conflict !in err && Consistency !in err
    {
      var m := Pause();
      ActingThroughInterference(base, old(S()), S(), id);
      return Transport(m.reply);
    }

    method Read(ghost base: State, id: RunId) returns (run: Run, err: Err)
      requires ActingOn(base, id)
      modifies this`db, this`rt, this`leases, this`history, this`script
      ensures ActingOn(base, id) && Rely(old(S()), S()) && leases == old(leases)
      ensures run == db.runs[id]
      ensures Conflict !in err && Consistency !in err
    {
      err := Call(base, id);
      run := db.runs[id];
    }

    /** GET /v1/executions; the runtime reserves for one undecided execution at a time. */
    method ListExecutions(ghost base: State, id: RunId) returns (records: seq<Execution>, err: Err)
      requires ActingOn(base, id)
      modifies this`db, this`rt, this`leases, this`history, this`script
      ensures ActingOn(base, id) && Rely(old(S()), S()) && leases == old(leases)
      ensures Conflict !in err && Consistency !in err
      ensures forall e :: e in records ==> UndecidedFor(rt, e.run) && e.lifecycle == rt.records[e.run].lifecycle
      ensures UndecidedFor(rt, id) ==> Execution(id, rt.records[id].lifecycle) in records
      ensures |records| <= 1
    {
      hide Inv, Legal, Replay;
      err := Call(base, id);
      records := [];
      if UndecidedFor(rt, id) {
        records := [Execution(id, rt.records[id].lifecycle)];
      } else if other :| other in rt.records && Undecided(rt.records[other]) {
        records := [Execution(other, rt.records[other].lifecycle)];
      }
    }

    // ---- Calls with effect -----------------------------------------------------------------

    method Act(ghost base: State, id: RunId, a: Action)
      requires ActingOn(base, id) && Enabled(S(), a) && OwnAction(a, id)
      modifies this`db, this`rt, this`leases, this`history
      ensures ActingOn(base, id) && S() == Apply(old(S()), a)
    {
      ActingThroughStep(base, S(), a, id);
      Do(a);
    }

    method PauseActing(ghost base: State, id: RunId) returns (m: Moment)
      requires ActingOn(base, id)
      modifies this`db, this`rt, this`leases, this`history, this`script
      ensures ActingOn(base, id) && Rely(old(S()), S()) && leases == old(leases)
      ensures EnvRow(old(db.runs[id]), db.runs[id]) && EnvRecords(old(S()), S(), id) && old(db.runs[id]).status != Queued
      ensures |script| <= |old(script)| && (m == DEAD || |script| < |old(script)|)
    {
      m := Pause();
      ActingThroughInterference(base, old(S()), S(), id);
      assert EnvRecords(old(S()), S(), id);
    }

    /** RecordFailure: a terminal outcome that is already there wins. */
    method RecordFailure(ghost base: State, id: RunId, status: Status) returns (err: Err)
      requires ActingOn(base, id) && Active(db.runs[id]) && status in {Failed, Interrupted}
      modifies this`db, this`rt, this`leases, this`history, this`script
      ensures ActingOn(base, id)
      ensures OwnRow(old(db.runs[id]), db.runs[id]) && Active(db.runs[id]) && EnvRecords(old(S()), S(), id)
      ensures db.runs[id].sandboxRef == old(db.runs[id]).sandboxRef && leases == old(leases)
      ensures err == NIL ==> Terminal(db.runs[id].status)
      ensures Conflict !in err && Consistency !in err
    {
      hide Inv, Legal, Replay, Enabled, Apply, OwnRow;
      var m := PauseActing(base, id);
      ghost var paused := db.runs[id];
      EnvThenOwn(old(db.runs[id]), paused, paused);
      if m.reply.Delivered? || m.reply.applied {
        FailureStep(S(), id, status);
        Act(base, id, Action.RecordFailure(id, status));
        EnvThenOwn(old(db.runs[id]), paused, db.runs[id]);
      }
      return Transport(m.reply);
    }

    /**
     AcknowledgeFinalized: only after the runtime's part and the lease are over. It is a Finish step of
     the life cycle if and only if the provider did not lose the lease.
     */
    method AcknowledgeFinalized(ghost base: State, id: RunId) returns (err: Err)
      requires ActingOn(base, id) && Active(db.runs[id]) && Terminal(db.runs[id].status)
      requires Settled(S(), id) && LeaseOver(S(), id)
      modifies this`db, this`rt, this`leases, this`history, this`script
      ensures ActingOn(base, id) && leases == old(leases)
      ensures err == NIL ==> db.runs[id].finalized
      ensures db.runs[id].sandboxRef == old(db.runs[id]).sandboxRef
      ensures db.runs[id].finalized ==>
        var r := old(db.runs[id]);
        Finish(View(r), r.status, Evidence(S(), id)) == Ok(View(db.runs[id])) <==> !LeaseLost(S(), id)
      ensures Conflict !in err && Consistency !in err
    {
      hide Inv, Legal, Replay, Evidence, LeaseLost, Finish;
      var m := PauseActing(base, id);
      SettledIsStable(old(S()), S(), id);
      if m.reply.Delivered? || m.reply.applied {
        AcknowledgeStep(S(), id);
        Act(base, id, Acknowledge(id));
      }
      return Transport(m.reply);
    }

    /** POST cancel: the runtime stops the worker and makes the execution await its decision. */
    method CancelExecution(ghost base: State, id: RunId) returns (err: Err)
      requires ActingOn(base, id) && Active(db.runs[id])
      modifies this`db, this`rt, this`leases, this`history, this`script
      ensures ActingOn(base, id) && EnvRow(old(db.runs[id]), db.runs[id]) && EnvRecords(old(S()), S(), id)
      ensures leases == old(leases)
      ensures err == NIL && id in rt.records ==> rt.records[id].lifecycle != Starting && rt.records[id].lifecycle != Working
      ensures Conflict !in err && Consistency !in err
    {
      hide Inv, Legal, Replay;
      var m := PauseActing(base, id);
      if m.reply.Delivered? && id !in rt.records {
        return {NotFound};
      }
      if (m.reply.Delivered? || m.reply.applied) && Enabled(S(), StopWorker(id)) {
        StopStep(S(), id);
        EnvRecordsTransitive(old(S()), S(), Apply(S(), StopWorker(id)), id);
        Act(base, id, StopWorker(id));
      }
      return Transport(m.reply);
    }

    /** POST finalize; an abort may die after removing only some of the sessions. */
    method FinalizeExecution(ghost base: State, id: RunId, decision: Decision) returns (err: Err)
      requires ActingOn(base, id) && Active(db.runs[id]) && Terminal(db.runs[id].status)
      requires decision == (if db.runs[id].status == Succeeded then Commit else Abort)
      requires id in rt.records && rt.records[id].lifecycle != Starting && rt.records[id].lifecycle != Working
      modifies this`db, this`rt, this`leases, this`history, this`script
      ensures ActingOn(base, id) && db.runs[id] == old(db.runs[id])
      ensures err == NIL ==>
        id in rt.records && rt.records[id].lifecycle == (if decision == Commit then Committed else Aborted)
      ensures Conflict !in err && Consistency !in err
    {
      var m := PauseActing(base, id);
      DecisionStep(S(), id, decision);
      if m.reply.Delivered? || m.reply.applied {
        Act(base, id, Finalize(id, decision));
      } else if Enabled(S(), AbortInterrupted(id, m.removed)) {
        InterruptedStep(S(), id, m.removed);
        Act(base, id, AbortInterrupted(id, m.removed));
      }
      return Transport(m.reply);
    }

    /** AttachSandboxRef for the ref a listing revealed. */
    method AttachSandboxRef(ghost base: State, id: RunId) returns (run: Run, err: Err)
      requires ActingOn(base, id) && Active(db.runs[id]) && db.runs[id].provider.Some?
      modifies this`db, this`rt, this`leases, this`history, this`script
      ensures ActingOn(base, id) && EnvRecords(old(S()), S(), id)
      ensures Active(db.runs[id]) && leases == old(leases)
      ensures err == NIL ==> run == db.runs[id] && Active(run) && run.sandboxRef.Some?
      ensures Conflict !in err && Consistency !in err
    {
      var m := PauseActing(base, id);
      run := db.runs[id];
      if m.reply.Delivered? || m.reply.applied {
        AttachStep(S(), id);
        Act(base, id, AttachRef(id));
        run := db.runs[id];
      }
      return run, Transport(m.reply);
    }

    // ---- reconcile.go ----------------------------------------------------------------------

    /** The run's listed execution, if any. */
    method FindExecution(ghost base: State, id: RunId) returns (record: Option<Lifecycle>, err: Err)
      requires ActingOn(base, id)
      modifies this`db, this`rt, this`leases, this`history, this`script
      ensures ActingOn(base, id) && EnvRow(old(db.runs[id]), db.runs[id]) && EnvRecords(old(S()), S(), id)
      ensures leases == old(leases)
      ensures err == NIL ==> (record.Some? <==> UndecidedFor(rt, id))
      ensures err == NIL && record.Some? ==> record.value == rt.records[id].lifecycle
      ensures Conflict !in err && Consistency !in err
    {
      hide Inv, Legal, Replay;
      var records;
      records, err := ListExecutions(base, id);
      assert EnvRecords(old(S()), S(), id);
      if err != NIL { return None, err; }
      record, err := ExecutionRecord(records, id);
    }

    /** Asks the runtime to stop a live execution and checks that it now waits for a decision. */
    method StopExecution(ghost base: State, id: RunId) returns (err: Err)
      requires ActingOn(base, id) && Active(db.runs[id]) && Terminal(db.runs[id].status) && id in rt.records
      modifies this`db, this`rt, this`leases, this`history, this`script
      ensures ActingOn(base, id) && db.runs[id] == old(db.runs[id]) && EnvRecords(old(S()), S(), id)
      ensures err == NIL ==> id in rt.records && rt.records[id].lifecycle != Starting && rt.records[id].lifecycle != Working
      ensures Conflict !in err && Consistency !in err
    {
      hide Inv, Legal, Replay;
      err := CancelExecution(base, id);
      if err != NIL && NotFound !in err { return; }
      ghost var stopped := S();
      var confirmed;
      confirmed, err := FindExecution(base, id);
      EnvRecordsTransitive(old(S()), stopped, S(), id);
      if err != NIL { return; }
      if confirmed.Some? && confirmed.value != AwaitingFinalize { return {OutcomeUnknown}; }
    }

    predicate LeaseReleased(id: RunId)
      reads this
    {
      id in leases && leases[id] == Released
    }

    /** Stops and aborts whatever execution the run has, after recording its outcome. */
    method AbortLease(ghost base: State, id: RunId, run: Run) returns (err: Err)
      requires ActingOn(base, id) && Active(run) && EnvRow(run, db.runs[id]) && run.status != Succeeded && run.sandboxRef.Some?
      modifies this`db, this`rt, this`leases, this`history, this`script
      ensures ActingOn(base, id) && Active(db.runs[id]) && db.runs[id].sandboxRef == run.sandboxRef
      ensures err == NIL ==>
        && Terminal(db.runs[id].status) && db.runs[id].status != Succeeded
        && !UndecidedFor(rt, id) && LeaseReleased(id)
      ensures Conflict !in err && Consistency !in err
    {
      hide Inv, Legal, Replay;
      var record;
      record, err := FindExecution(base, id);
      if err != NIL { return; }
      if run.status == Running {
        err := RecordFailure(base, id, Interrupted);
        if err != NIL { return; }
      }
      if record.Some? && record.value != AwaitingFinalize {
        err := StopExecution(base, id);
        if err != NIL { return; }
      }
      err := AbortExecution(base, id, record.Some?);
    }

    /** Copies diagnostics, decides "abort" if there is an execution, and releases the lease. */
    method AbortExecution(ghost base: State, id: RunId, present: bool) returns (err: Err)
      requires ActingOn(base, id)
      requires Active(db.runs[id]) && Terminal(db.runs[id].status) && db.runs[id].status != Succeeded
      requires db.runs[id].sandboxRef.Some?
      requires if present then id in rt.records && rt.records[id].lifecycle != Starting && rt.records[id].lifecycle != Working
               else !UndecidedFor(rt, id)
      modifies this`db, this`rt, this`leases, this`history, this`script
      ensures ActingOn(base, id) && db.runs[id] == old(db.runs[id])
      ensures err == NIL ==> !UndecidedFor(rt, id) && LeaseReleased(id)
      ensures Conflict !in err && Consistency !in err
    {
      hide Inv, Legal, Replay;
      // A failed diagnostic copy must not prevent cleanup.
      var _ := CallSettled(base, id, present);
      if present {
        err := FinalizeExecution(base, id, Abort);
        if err != NIL { return FinalizationError(err); }
      }
      err := ReleaseLease(base, id);
    }

    /** Calls like SyncBack that leave the terminal row and the execution's state alone. */
    method CallSettled(ghost base: State, id: RunId, present: bool) returns (err: Err)
      requires ActingOn(base, id) && Active(db.runs[id]) && Terminal(db.runs[id].status)
      requires if present then id in rt.records && rt.records[id].lifecycle != Starting && rt.records[id].lifecycle != Working
               else !UndecidedFor(rt, id)
      modifies this`db, this`rt, this`leases, this`history, this`script
      ensures ActingOn(base, id) && db.runs[id] == old(db.runs[id]) && leases == old(leases)
      ensures if present then id in rt.records && rt.records[id].lifecycle != Starting && rt.records[id].lifecycle != Working
              else !UndecidedFor(rt, id)
      ensures id in old(rt.records) ==> id in rt.records && EnvRecord(old(rt.records)[id], rt.records[id])
      ensures Conflict !in err && Consistency !in err
    {
      var m := PauseActing(base, id);
      err := Transport(m.reply);
    }

    /** Release, after which the run may be acknowledged. A lost reply does not undo it. */
    method ReleaseLease(ghost base: State, id: RunId) returns (err: Err)
      requires ActingOn(base, id) && Active(db.runs[id]) && Terminal(db.runs[id].status)
      requires db.runs[id].sandboxRef.Some? && Settled(S(), id)
      modifies this`db, this`rt, this`leases, this`history, this`script
      ensures ActingOn(base, id) && db.runs[id] == old(db.runs[id]) && Settled(S(), id)
      ensures err == NIL ==> LeaseReleased(id)
      ensures Conflict !in err && Consistency !in err
    {
      hide Inv, Legal, Replay;
      var m := PauseActing(base, id);
      SettledIsStable(old(S()), S(), id);
      if m.reply.Delivered? || m.reply.applied {
        Act(base, id, Action.ReleaseLease(id));
      }
      return Transport(m.reply);
    }

    /** Commits or aborts the run by its outcome, releases the lease and acknowledges. */
    method FinishLease(ghost base: State, id: RunId, run: Run) returns (err: Err)
      requires ActingOn(base, id) && Active(run) && EnvRow(run, db.runs[id]) && run.sandboxRef.Some?
      modifies this`db, this`rt, this`leases, this`history, this`script
      ensures ActingOn(base, id)
      ensures err == NIL ==> db.runs[id].finalized
      ensures db.runs[id].finalized ==> LeaseReleased(id) && !LeaseLost(S(), id)
      ensures Conflict !in err && Consistency !in err
    {
      hide Inv, Legal, Replay;
      if run.status == Succeeded {
        err := CommitLease(base, id);
      } else {
        err := AbortLease(base, id, run);
      }
      if err != NIL { return; }
      err := AcknowledgeFinalized(base, id);
    }

    /** The promotion check, the decision "commit", the HEAD request and the release. */
    method CommitLease(ghost base: State, id: RunId) returns (err: Err)
      requires ActingOn(base, id) && Active(db.runs[id]) && db.runs[id].status == Succeeded && db.runs[id].sandboxRef.Some?
      modifies this`db, this`rt, this`leases, this`history, this`script
      ensures ActingOn(base, id) && db.runs[id] == old(db.runs[id])
      ensures err == NIL ==> id in rt.records && rt.records[id].lifecycle == Committed && LeaseReleased(id)
      ensures Conflict !in err && Consistency !in err
    {
      hide Inv, Legal, Replay;
      err := CheckPromoted(base, id);
      if err != NIL { return; }
      err := FinalizeExecution(base, id, Commit);
      if err != NIL { return FinalizationError(err); }
      err := CheckSession(base, id);
      if err != NIL { return; }
      err := ReleaseLease(base, id);
    }

    /** The run's candidate is its conversation's active session; the check cannot say otherwise. */
    method CheckPromoted(ghost base: State, id: RunId) returns (err: Err)
      requires ActingOn(base, id) && Active(db.runs[id]) && db.runs[id].status == Succeeded
      modifies this`db, this`rt, this`leases, this`history, this`script
      ensures ActingOn(base, id) && db.runs[id] == old(db.runs[id])
      ensures id in rt.records && rt.records[id].lifecycle != Starting && rt.records[id].lifecycle != Working
      ensures Conflict !in err && Consistency !in err
    {
      var m := PauseActing(base, id);
      SuccessIsRecoverable(S(), id);
      assert SuccessBacked(S(), id);
      if m.reply.Lost? { return Transport(m.reply); }
      var promoted := db.runs[id].candidate.Some? && ConversationOf(db, id).active == db.runs[id].candidate;
      assert promoted;
      return NIL;
    }

    /** HEAD of the committed candidate; it cannot be missing. */
    method CheckSession(ghost base: State, id: RunId) returns (err: Err)
      requires ActingOn(base, id) && Active(db.runs[id]) && db.runs[id].status == Succeeded
      requires id in rt.records && rt.records[id].lifecycle == Committed
      modifies this`db, this`rt, this`leases, this`history, this`script
      ensures ActingOn(base, id) && db.runs[id] == old(db.runs[id])
      ensures id in rt.records && rt.records[id].lifecycle == Committed
      ensures Conflict !in err && Consistency !in err
    {
      var m := PauseActing(base, id);
      SuccessIsRecoverable(S(), id);
      if m.reply.Lost? { return Transport(m.reply); }
      var exists' := db.runs[id].candidate.value in rt.present;
      assert exists';
      return NIL;
    }

    /** No execution and no lease, or none that the provider knows: record the interruption, then acknowledge. */
    method FinalizeAbsent(ghost base: State, id: RunId, run: Run) returns (err: Err)
      requires ActingOn(base, id) && Active(run) && EnvRow(run, db.runs[id]) && run.status != Succeeded
      requires !UndecidedFor(rt, id) && LeaseOver(S(), id)
      modifies this`db, this`rt, this`leases, this`history, this`script
      ensures ActingOn(base, id) && leases == old(leases) && db.runs[id].sandboxRef == old(db.runs[id]).sandboxRef
      ensures err == NIL ==> db.runs[id].finalized
      ensures Conflict !in err && Consistency !in err
    {
      if run.status == Running {
        err := RecordFailure(base, id, Interrupted);
        if err != NIL { return; }
      }
      err := AcknowledgeFinalized(base, id);
    }

    /** What the provider may list: every undecided execution, each run once, only runs it was asked for. */
    predicate ListingOk(listed: seq<RunId>)
      reads this
    {
      && Distinct(listed)
      && (forall id :: id in listed ==> id < |db.runs| && db.runs[id].provider.Some?)
      && (forall id :: id in rt.records && Undecided(rt.records[id]) ==> id in listed)
    }

    /** Provider.List: the script chooses among the listings the provider's contract allows. */
    method ListLeases() returns (listed: seq<LeaseInfo>, err: Err)
      requires Valid()
      modifies this`db, this`rt, this`leases, this`history, this`script
      ensures Valid() && Rely(old(S()), S())
      ensures err == NIL ==> ListingOk(Runs(listed)) && forall k :: 0 <= k < |listed| ==> listed[k].ref == DOCKER_REF
      ensures Conflict !in err && Consistency !in err
    {
      var m := Pause();
      if m.reply.Lost? { return [], Transport(m.reply); }
      if !ListingOk(m.listed) { return [], {Unavailable}; }
      listed := seq(|m.listed|, i requires 0 <= i < |m.listed| => LeaseInfo(m.listed[i], DOCKER_REF));
      assert Runs(listed) == m.listed;
      err := NIL;
    }

    /**
     One retained run: skip it, or finish what a crash or a failure left behind. `unknown` says that the
     provider did not know the recorded ref: finalizing then goes beyond the life cycle, unless the lease
     had been released before, and it does so in no other case.
     */
    method ReconcileRun(id: RunId, snapshot: Run, info: Option<Ref>, terminalOnly: bool)
      returns (err: Err, stop: bool, ghost unknown: bool)
      requires Valid() && id < |db.runs| && RowOk(snapshot) && EnvRow(snapshot, db.runs[id])
      requires UndecidedFor(rt, id) ==> info.Some?
      requires info.Some? ==> info == Some(DOCKER_REF) && snapshot.provider.Some?
      modifies this`db, this`rt, this`leases, this`history, this`script
      ensures Valid() && Along(old(S()), S(), Some(id))
      ensures err == NIL ==> !Active(db.runs[id]) || (terminalOnly && snapshot.status == Running)
      ensures Active(snapshot) && db.runs[id].finalized ==> (LeaseLost(S(), id) <==> unknown && !old(LeaseReleased(id)))
      ensures stop ==> err != NIL
      ensures Conflict !in err && Consistency !in err
    {
      hide Inv, Legal, Replay;
      unknown := false;
      if snapshot.finalized || snapshot.status == Queued || (terminalOnly && !Terminal(snapshot.status)) {
        AlongReflexive(S(), id);
        return NIL, false, false;
      }
      ghost var base := S();
      BeginActing(base, snapshot, id);
      assert !snapshot.conflict;
      var run := snapshot;
      if run.sandboxRef.None? && info.Some? {
        run, err := AttachSandboxRef(base, id);
        if err != NIL { return err, true, false; }
        RowFacts(S(), id);
      }
      if run.sandboxRef.None? {
        assert run.status != Succeeded;
        err := FinalizeAbsent(base, id, run);
        return err, false, false;
      }
      var mismatch := info.Some? && info != run.sandboxRef;
      assert !mismatch;
      err := Recover(base, id);
      if err != NIL {
        unknown := NotFound in err;
        if NotFound in err && info.None? && run.status != Succeeded {
          err := FinalizeAbsent(base, id, run);
        }
        return err, false, unknown;
      }
      err := FinishLease(base, id, run);
      return err, false, false;
    }

    /** Provider.Recover for a recorded ref; a provider may answer that it knows no such lease. */
    method Recover(ghost base: State, id: RunId) returns (err: Err)
      requires ActingOn(base, id) && db.runs[id].sandboxRef.Some? && Active(db.runs[id])
      modifies this`db, this`rt, this`leases, this`history, this`script
      ensures ActingOn(base, id) && EnvRow(old(db.runs[id]), db.runs[id]) && EnvRecords(old(S()), S(), id)
      ensures if NotFound in err then id in leases && (LeaseReleased(id) <==> old(LeaseReleased(id))) else leases == old(leases)
      ensures Conflict !in err && Consistency !in err
    {
      hide Inv, Legal, Replay;
      var m := PauseActing(base, id);
      err := Transport(m.reply);
      if NotFound in err {
        Act(base, id, LoseLease(id));
      }
    }

    /**
     Reconcile: after success no run is left half-way, except running ones that it was told to skip.
     It never reports an inconsistency, so the scheduler is never paused for manual inspection.
     */
    method Reconcile(terminalOnly: bool) returns (result: Err)
      requires Valid()
      modifies this`db, this`rt, this`leases, this`history, this`script
      ensures Valid()
      ensures result == NIL && !terminalOnly ==> !SlotTaken(db)
      ensures !old(SlotTaken(db)) ==> !SlotTaken(db)
      ensures Consistency !in result
    {
      hide Inv, Legal, Replay, Along;
      var m := Pause();
      if !old(SlotTaken(db)) { AlongKeepsSlotFree(old(S()), S(), None); }
      ghost var first := S();
      if m.reply.Lost? { return Transport(m.reply); }
      OneProvider();
      var listed;
      listed, result := ListLeases();
      if !SlotTaken(first.db) { AlongKeepsSlotFree(first, S(), None); }
      if result != NIL { return; }
      var resources := Resources(listed);
      result := ReconcileRetained(resources, terminalOnly);
    }

    /** No retained run names another provider, so the preflight query finds no mismatch. */
    lemma OneProvider()
      requires Valid()
      ensures forall id :: 0 <= id < |db.runs| && db.runs[id].provider.Some? ==> db.runs[id].provider == Some(Docker)
    {
      forall id | 0 <= id < |db.runs| ensures RowOk(db.runs[id]) {}
    }

    method ReconcileRetained(resources: map<RunId, Ref>, terminalOnly: bool) returns (result: Err)
      requires Valid()
      requires forall id :: id in resources ==> id < |db.runs| && db.runs[id].provider.Some? && resources[id] == DOCKER_REF
      requires forall id :: UndecidedFor(rt, id) ==> id in resources
      modifies this`db, this`rt, this`leases, this`history, this`script
      ensures Valid()
      ensures result == NIL && !terminalOnly ==> !SlotTaken(db)
      ensures !old(SlotTaken(db)) ==> !SlotTaken(db)
      ensures Consistency !in result
    {
      hide Inv, Legal, Replay, Along;
      var m := PauseListed(resources);
      if !old(SlotTaken(db)) { AlongKeepsSlotFree(old(S()), S(), None); }
      if m.reply.Lost? { return Transport(m.reply); }
      var retained := db.runs;
      result := NIL;
      var i := 0;
      while i < |retained|
        invariant 0 <= i <= |retained|
        invariant Valid() && Pending(retained, S(), i, resources.Keys)
        invariant result == NIL && !terminalOnly ==> forall j :: 0 <= j < i ==> !Active(db.runs[j])
        invariant !old(SlotTaken(db)) ==> !SlotTaken(db)
        invariant Consistency !in result
      {
        ghost var before := S();
        var err, stop, _ := ReconcileRun(i, retained[i], if i in resources then Some(resources[i]) else None, terminalOnly);
        PendingAdvances(retained, before, S(), i, resources.Keys);
        if !SlotTaken(before.db) { AlongKeepsSlotFree(before, S(), Some(i)); }
        if stop { return err; }
        result := result + err;
        i := i + 1;
      }
    }

    /** The rows are read after the listing; what the listing said still holds of them. */
    method PauseListed(resources: map<RunId, Ref>) returns (m: Moment)
      requires Valid()
      requires forall id :: id in resources ==> id < |db.runs| && db.runs[id].provider.Some?
      requires forall id :: UndecidedFor(rt, id) ==> id in resources
      modifies this`db, this`rt, this`leases, this`history, this`script
      ensures Valid() && Rely(old(S()), S())
      ensures forall id :: 0 <= id < |db.runs| ==> RowOk(db.runs[id])
      ensures forall id :: id in resources ==> id < |db.runs| && db.runs[id].provider.Some?
      ensures forall id :: UndecidedFor(rt, id) ==> id in resources
    {
      m := Pause();
      forall id | UndecidedFor(rt, id) ensures id in resources {
        assert EnvRecords(old(S()), S(), id);
      }
      forall id | id in resources ensures id < |db.runs| && db.runs[id].provider.Some? {
        assert EnvRow(old(db.runs[id]), db.runs[id]) && RowOk(old(db.runs[id]));
      }
    }

    // ---- coordinator.go --------------------------------------------------------------------

    /** The scheduler drives run `id`, which holds the slot. */
    ghost predicate Driven(id: RunId)
      reads this
    {
      Valid() && Driving(S(), id)
    }

    /** The worker of run `id` reported a completion with this candidate. */
    predicate Reported(id: RunId, candidate: SessionId)
      reads this
    {
      id in rt.reports && rt.reports[id] == candidate
    }

    method PauseDriving(id: RunId) returns (m: Moment)
      requires Driven(id)
      modifies this`db, this`rt, this`leases, this`history, this`script
      ensures Driven(id) && EnvRow(old(db.runs[id]), db.runs[id]) && EnvRecords(old(S()), S(), id)
      ensures forall c: SessionId :: old(Reported(id, c)) ==> Reported(id, c)
      ensures |script| <= |old(script)| && (m == DEAD || |script| < |old(script)|)
    {
      hide Inv, Legal, Replay;
      m := Pause();
      DrivingThroughInterference(old(S()), S(), id);
    }

    /** A step that only reads, or works on files that the model leaves out. */
    method Drive(id: RunId) returns (err: Err)
      requires Driven(id)
      modifies this`db, this`rt, this`leases, this`history, this`script
      ensures Driven(id) && EnvRow(old(db.runs[id]), db.runs[id]) && EnvRecords(old(S()), S(), id)
      ensures forall c: SessionId :: old(Reported(id, c)) ==> Reported(id, c)
      ensures Consistency !in err
    {
      var m := PauseDriving(id);
      err := Transport(m.reply);
    }

    method ReadRun(id: RunId) returns (run: Run, err: Err)
      requires Driven(id)
      modifies this`db, this`rt, this`leases, this`history, this`script
      ensures Driven(id) && EnvRow(old(db.runs[id]), db.runs[id]) && EnvRecords(old(S()), S(), id)
      ensures forall c: SessionId :: old(Reported(id, c)) ==> Reported(id, c)
      ensures run == db.runs[id] && Consistency !in err
    {
      err := Drive(id);
      run := db.runs[id];
    }

    /** RefreshSource, BeginSandboxAcquire, AttachSandboxRef and SetPhase of the driven run. */
    method Transact(id: RunId, a: Action) returns (err: Err)
      requires a.RefreshSource? || a.BeginAcquire? || a.AttachRef? || a.SetPhase?
      requires Driven(id) && a.id == id && db.runs[id].status != Succeeded
      requires a.RefreshSource? ==> id !in rt.records
      modifies this`db, this`rt, this`leases, this`history, this`script
      ensures Driven(id) && db.runs[id].status != Succeeded
      ensures id !in old(rt.records) ==> id !in rt.records
      ensures forall c: SessionId :: old(Reported(id, c)) ==> Reported(id, c)
      ensures if a.AttachRef? then (err == NIL ==> db.runs[id].sandboxRef.Some?)
              else db.runs[id].sandboxRef == old(db.runs[id]).sandboxRef
      ensures Consistency !in err
    {
      hide Inv, Legal, Replay, Along;
      var m := PauseDriving(id);
      if Enabled(S(), a) {
        TransactionStep(S(), a, id);
        if m.reply.Delivered? || m.reply.applied {
          Do(a);
        }
        return Transport(m.reply);
      }
      return {Conflict} + Transport(m.reply);
    }

    /** The failure exit of Execute: record, then clean up as far as the evidence allows. */
    method Fail(id: RunId, cause: Err, leased: bool, absent: bool) returns (err: Err)
      requires Driven(id) && cause != NIL && Consistency !in cause
      requires absent ==> id !in rt.records && db.runs[id].status != Succeeded && db.runs[id].sandboxRef.None?
      requires leased ==> db.runs[id].sandboxRef.Some?
      modifies this`db, this`rt, this`leases, this`history, this`script
      ensures Valid() && err != NIL && Consistency !in err
      ensures id < |db.runs| && (db.runs[id].finalized ==> !LeaseLost(S(), id))
    {
      hide Inv, Legal, Replay;
      ghost var base := S();
      BeginActing(base, db.runs[id], id);
      err := RecordFailure(base, id, Failed);
      if err != NIL { return cause + err; }
      if absent {
        err := AcknowledgeFinalized(base, id);
        return cause + err;
      }
      if leased {
        var current;
        current, err := Read(base, id);
        if err != NIL { return cause + err; }
        err := FinishLease(base, id, current);
        return cause + err;
      }
      return cause;
    }

    /** POST execute and the pump: both channels are drained before an outcome is reported. */
    method RunExecution(id: RunId) returns (candidate: SessionId, failure: Err)
      requires Driven(id) && id !in rt.records && db.runs[id].sandboxRef.Some? && db.runs[id].status != Succeeded
      modifies this`db, this`rt, this`leases, this`history, this`script
      ensures Driven(id) && db.runs[id].sandboxRef.Some?
      ensures failure == NIL ==> Reported(id, candidate)
      ensures Consistency !in failure
    {
      hide Inv, Legal, Replay, Along;
      candidate, failure := 0, NIL;
      var m := PauseDriving(id);
      if m.reply.Delivered? || m.reply.applied {
        // The runtime lists every original, and whatever else it finds.
        var listed := rt.present + m.listedSessions;
        ReserveIsFree(S(), id, listed);
        ReserveStep(S(), id, listed);
        Do(Reserve(id, listed));
      }
      if m.reply.Lost? { return 0, {OutcomeUnknown}; }
      var terminalSeen := false;
      var open := true;
      while open
        invariant Driven(id) && db.runs[id].sandboxRef.Some?
        invariant terminalSeen && failure == NIL ==> Reported(id, candidate)
        invariant Consistency !in failure
        decreases open, |script|
      {
        m := NextDelivery(id);
        match m.delivery {
          case EndOfStream(clean) =>
            if !clean { failure := failure + {OutcomeUnknown}; }
            open := false;
          case Deliver(sequence, kind, delivered) =>
            if ProductEvent(kind) { /* an unknown event type is ignored */ }
            else if terminalSeen { failure := failure + {Invalid}; }
            else {
              if kind.AgentCompleted? {
                terminalSeen, candidate := true, delivered;
              } else if kind.AgentFailed? {
                terminalSeen, failure := true, failure + {Invalid};
              }
              var err := RecordDelivered(id, sequence, kind, m.reply);
              failure := failure + err;
            }
        }
      }
      if !terminalSeen { failure := failure + {OutcomeUnknown}; }
    }

    /**
     The next delivery of the execution stream. The executor withholds a completion until the runtime has
     ended its stream cleanly, which it does only after it has recorded that same completion
     (Completion.Deliver); a script that delivers another one is a stream cut off.
     */
    method NextDelivery(id: RunId) returns (m: Moment)
      requires Driven(id)
      modifies this`db, this`rt, this`leases, this`history, this`script
      ensures Driven(id) && EnvRow(old(db.runs[id]), db.runs[id]) && EnvRecords(old(S()), S(), id)
      ensures forall c: SessionId :: old(Reported(id, c)) ==> Reported(id, c)
      ensures m.delivery.Deliver? && m.delivery.kind.AgentCompleted? ==> Reported(id, m.delivery.candidate)
      ensures |script| <= |old(script)| && (m.delivery == EndOfStream(false) || |script| < |old(script)|)
    {
      m := PauseDriving(id);
      if m.delivery.Deliver? && m.delivery.kind.AgentCompleted? && !Reported(id, m.delivery.candidate) {
        m := m.(delivery := EndOfStream(false));
      }
    }

    /** RecordRuntimeEvent for a delivered event. */
    method RecordDelivered(id: RunId, sequence: nat, kind: EventKind, reply: Reply) returns (err: Err)
      requires Driven(id) && !ProductEvent(kind)
      modifies this`db, this`rt, this`leases, this`history
      ensures Driven(id) && rt == old(rt) && db.runs[id].sandboxRef == old(db.runs[id]).sandboxRef
      ensures Consistency !in err
    {
      var a := RecordEvent(id, sequence, kind);
      if Enabled(S(), a) {
        TransactionStep(S(), a, id);
        if reply.Delivered? || reply.applied {
          Do(a);
        }
        return Transport(reply);
      }
      return {Conflict} + Transport(reply);
    }

    /** CommitProducts: success, promotion and artifacts become visible together, or not at all. */
    method CommitProducts(id: RunId, candidate: SessionId) returns (err: Err)
      requires Driven(id) && Reported(id, candidate) && db.runs[id].sandboxRef.Some?
      modifies this`db, this`rt, this`leases, this`history, this`script
      ensures Driven(id) && db.runs[id].sandboxRef.Some?
      ensures err == NIL ==> db.runs[id].status == Succeeded
      ensures Consistency !in err
    {
      hide Inv, Legal, Replay, Along;
      var m := PauseDriving(id);
      var a := Action.CommitProducts(id, candidate, m.artifacts);
      if Enabled(S(), a) {
        CommitStep(S(), id, candidate, m.artifacts);
        if m.reply.Delivered? || m.reply.applied {
          Do(a);
        }
        return Transport(m.reply);
      }
      return {Conflict} + Transport(m.reply);
    }

    /** Execute from a fresh claim to the acknowledged outcome, or to a recorded failure. */
    method Execute(id: RunId) returns (err: Err)
      requires Driven(id) && id !in rt.records && db.runs[id].status != Succeeded && db.runs[id].sandboxRef.None?
      modifies this
      ensures Valid() && active == old(active)
      ensures err == NIL ==> !SlotTaken(db)
      ensures err == NIL ==> id < |db.runs| && db.runs[id].finalized && db.runs[id].status == Succeeded
      ensures Consistency !in err
    {
      hide Inv, Legal, Replay, Along, Driving;
      if id in active { return {Conflict}; }
      active := active + {id};
      var completed;
      completed, err := Prepare(id);
      if err == NIL {
        err := Publish(id, completed);
      }
      active := active - {id};
    }

    /** Execute up to the end of the agent's work. On failure the exit has already been taken. */
    method Prepare(id: RunId) returns (candidate: SessionId, err: Err)
      requires Driven(id) && id !in rt.records && db.runs[id].status != Succeeded && db.runs[id].sandboxRef.None?
      modifies this`db, this`rt, this`leases, this`history, this`script
      ensures Valid()
      ensures err == NIL ==>
        Driven(id) && db.runs[id].sandboxRef.Some? && Reported(id, candidate) && db.runs[id].status != Succeeded
      ensures Consistency !in err
    {
      hide Inv, Legal, Replay, Along;
      candidate := 0;
      // Context, profile, inputs and workspace.
      err := Drive(id);
      if err != NIL { err := Fail(id, err, false, true); return; }
      err := Transact(id, RefreshSource(id));
      if err != NIL { err := Fail(id, err, false, true); return; }
      err := Transact(id, BeginAcquire(id));
      if err != NIL { err := Fail(id, err, false, true); return; }
      err := Drive(id);
      if err != NIL { err := Fail(id, err, false, OutcomeUnknown !in err); return; }
      err := Transact(id, AttachRef(id));
      if err != NIL { err := Fail(id, err, false, false); return; }
      candidate, err := RunAttached(id);
    }

    method RunAttached(id: RunId) returns (candidate: SessionId, err: Err)
      requires Driven(id) && id !in rt.records && db.runs[id].status != Succeeded && db.runs[id].sandboxRef.Some?
      modifies this`db, this`rt, this`leases, this`history, this`script
      ensures Valid()
      ensures err == NIL ==>
        Driven(id) && db.runs[id].sandboxRef.Some? && Reported(id, candidate) && db.runs[id].status != Succeeded
      ensures Consistency !in err
    {
      hide Inv, Legal, Replay, Along;
      candidate := 0;
      var current;
      current, err := ReadRun(id);
      if err != NIL { err := Fail(id, err, true, false); return; }
      if current.status != Running { err := Fail(id, {Conflict}, true, false); return; }
      candidate, err := RunExecution(id);
      if err != NIL { err := Fail(id, err, true, false); return; }
      current, err := ReadRun(id);
      if err != NIL { err := Fail(id, err, true, false); return; }
      if current.status != Running { err := Fail(id, {Conflict}, true, false); return; }
    }

    /** Execute from the completed agent to the acknowledged success. */
    method Publish(id: RunId, candidate: SessionId) returns (err: Err)
      requires Driven(id) && db.runs[id].sandboxRef.Some? && Reported(id, candidate) && db.runs[id].status != Succeeded
      modifies this`db, this`rt, this`leases, this`history, this`script
      ensures Valid()
      ensures err == NIL ==> !SlotTaken(db)
      ensures err == NIL ==> id < |db.runs| && db.runs[id].finalized && db.runs[id].status == Succeeded
      ensures Consistency !in err
    {
      hide Inv, Legal, Replay, Along;
      // Copy the outputs back and check the manifest against the completed artifacts.
      err := Drive(id);
      if err != NIL { err := Fail(id, err, true, false); return; }
      err := Transact(id, SetPhase(id, Publishing));
      if err != NIL { err := Fail(id, err, true, false); return; }
      err := Drive(id);
      if err != NIL { err := Fail(id, err, true, false); return; }
      err := CommitProducts(id, candidate);
      var releaseErr := Drive(id);
      if err != NIL { err := Fail(id, err + releaseErr, true, false); return; }
      // From here on only commit, HEAD and release are retried.
      var current;
      current, err := ReadRun(id);
      if err != NIL { return err + releaseErr; }
      ghost var base := S();
      BeginActing(base, current, id);
      err := FinishLease(base, id, current);
      ActingKeepsOutcome(base, S(), id);
      if err == NIL { SlotFreeAfter(base, S(), id); }
      err := err + releaseErr;
    }

    // ---- store.go and scheduler.go ---------------------------------------------------------

    /** ORDER BY created_at, id with FOR UPDATE SKIP LOCKED LIMIT 1. */
    method OldestQueued(locked: set<RunId>) returns (id: Option<RunId>)
      ensures id.Some? ==> NextInLine(db, id.value, locked)
      ensures id.None? ==> forall other :: 0 <= other < |db.runs| && other !in locked ==> db.runs[other].status != Queued
    {
      var i := 0;
      while i < |db.runs|
        invariant 0 <= i <= |db.runs|
        invariant forall earlier :: 0 <= earlier < i && earlier !in locked ==> db.runs[earlier].status != Queued
      {
        if db.runs[i].status == Queued && i !in locked { return Some(i); }
        i := i + 1;
      }
      return None;
    }

    /** ClaimNext: the oldest unlocked queued run, if the slot is free. The commit may outlive its reply. */
    method ClaimNext() returns (claimed: Option<RunId>, err: Err)
      requires Valid()
      modifies this`db, this`rt, this`leases, this`history, this`script
      ensures Valid() && Consistency !in err
      ensures err == NIL && claimed.Some? ==>
        && Driven(claimed.value) && claimed.value !in rt.records
        && db.runs[claimed.value].status == Running && db.runs[claimed.value].sandboxRef.None?
      ensures err == NIL && claimed.None? ==> Rely(old(S()), S())
    {
      hide Inv, Legal, Replay, Along;
      var m := Pause();
      if SlotTaken(db) || (m.reply.Lost? && !m.reply.applied) { return None, Transport(m.reply); }
      claimed := OldestQueued(m.locked);
      if claimed.Some? {
        ClaimStep(S(), claimed.value);
        Do(Claim(claimed.value));
      }
      err := Transport(m.reply);
    }

    /**
     One turn of Scheduler.Run. Periodic repair skips running rows, which is safe because then none
     is left over from an earlier process; an inconsistency would stop scheduling for good.
     */
    method Turn(startup: bool) returns (next: bool, paused: bool)
      requires Valid() && (!startup ==> !SlotTaken(db))
      modifies this
      ensures Valid() && (!next ==> !SlotTaken(db))
      ensures !paused
    {
      hide Inv, Legal, Replay, Along;
      var err := Reconcile(!startup);
      if err != NIL { return startup, Consistency in err; }
      ghost var repaired := S();
      var claimed;
      claimed, err := ClaimNext();
      if err != NIL { return true, false; }
      if claimed.None? {
        AlongKeepsSlotFree(repaired, S(), None);
        return false, false;
      }
      err := Execute(claimed.value);
      return err != NIL, Consistency in err;
    }

    /** Scheduler.Run until its context ends after some number of turns, from a start or a restart. */
    method Schedule(turns: nat) returns (paused: bool)
      requires Valid()
      modifies this
      ensures Valid() && !paused
    {
      hide Inv, Legal, Replay, Along;
      var startup := true;
      paused := false;
      var k := 0;
      while k < turns && !paused
        invariant Valid() && (!startup ==> !SlotTaken(db)) && !paused
      {
        startup, paused := Turn(startup);
        k := k + 1;
      }
    }

    // ---- cancel.go, while the scheduler keeps running --------------------------------------

    /** Between two calls of a request anything may happen, the scheduler's own steps included. */
    method Race() returns (m: Moment)
      requires Valid()
      modifies this`db, this`rt, this`leases, this`history, this`script
      ensures Valid() && Onward(old(S()), S())
    {
      hide Inv, Legal, Replay, Along;
      if script == [] { return DEAD; }
      m := script[0];
      script := script[1..];
      var i := 0;
      while i < |m.steps|
        invariant Valid() && Onward(old(S()), S())
      {
        if Enabled(S(), m.steps[i]) {
          ghost var before := S();
          StepOnward(S(), m.steps[i]);
          Do(m.steps[i]);
          OnwardTransitive(old(S()), before, S());
        }
        i := i + 1;
      }
    }

    /** One row transaction of a request. */
    method Request(a: Action) returns (err: Err)
      requires a.CancelQueued? || a.UserCancel?
      requires Valid() && a.id < |db.runs|
      modifies this`db, this`rt, this`leases, this`history, this`script
      ensures Valid() && Onward(old(S()), S())
      ensures err == NIL && a.CancelQueued? ==> db.runs[a.id].status == Cancelled && db.runs[a.id].finalized
    {
      hide Inv, Legal, Replay, Along;
      var m := Race();
      if !Enabled(S(), a) { return {Conflict} + Transport(m.reply); }
      if m.reply.Delivered? || m.reply.applied {
        ghost var before := S();
        StepOnward(S(), a);
        Do(a);
        OnwardTransitive(old(S()), before, S());
      }
      return Transport(m.reply);
    }

    method Load(id: RunId) returns (run: Run, err: Err)
      requires Valid() && id < |db.runs|
      modifies this`db, this`rt, this`leases, this`history, this`script
      ensures Valid() && Onward(old(S()), S())
      ensures id < |db.runs| && run == db.runs[id]
    {
      var m := Race();
      run := db.runs[id];
      err := Transport(m.reply);
    }

    /** Coordinator.Cancel: a lost acknowledgement is confirmed by reading the row again. */
    method CancelActive(id: RunId) returns (run: Run, err: Err)
      requires Valid() && id < |db.runs|
      modifies this`db, this`rt, this`leases, this`history, this`script
      ensures Valid() && Onward(old(S()), S())
      ensures id < |db.runs| && run == db.runs[id]
      ensures err == NIL ==> run.status == Cancelled
    {
      hide Inv, Legal, Replay, Along;
      err := Request(UserCancel(id));
      run := db.runs[id];
      if err != NIL {
        ghost var before := S();
        var readErr;
        run, readErr := Load(id);
        OnwardTransitive(old(S()), before, S());
        if readErr != NIL || run.status != Cancelled { return run, err + readErr; }
      }
      return run, if run.status == Cancelled then NIL else {Conflict};
    }

    /**
     Canceller.Cancel: success means the outcome is durably "cancelled", whoever recorded it. A run
     that was publishing, or had another outcome, when the request began is never reported cancelled.
     */
    method Cancel(id: RunId) returns (run: Run, err: Err)
      requires Valid() && id < |db.runs|
      modifies this`db, this`rt, this`leases, this`history, this`script
      ensures Valid() && Onward(old(S()), S())
      ensures err == NIL ==> id < |db.runs| && run == db.runs[id] && run.status == Cancelled
      ensures old(db.runs[id]).phase == Some(Publishing) || old(db.runs[id]).status in {Succeeded, Failed, Interrupted} ==>
                err != NIL
    {
      hide Inv, Legal, Replay, Along;
      run, err := CancelRead(id);
      if err == NIL && (old(db.runs[id]).phase == Some(Publishing) || old(db.runs[id]).status in {Succeeded, Failed, Interrupted}) {
        TooLateToCancel(old(S()), S(), id);
      }
    }

    method CancelRead(id: RunId) returns (run: Run, err: Err)
      requires Valid() && id < |db.runs|
      modifies this`db, this`rt, this`leases, this`history, this`script
      ensures Valid() && Onward(old(S()), S())
      ensures err == NIL ==> id < |db.runs| && run == db.runs[id] && run.status == Cancelled
    {
      hide Inv, Legal, Replay, Along;
      run, err := Load(id);
      if err != NIL { return; }
      ghost var s := S();
      if run.status == Queued {
        err := Request(CancelQueued(id));
        OnwardTransitive(old(S()), s, S());
        if Conflict !in err { return db.runs[id], err; }
        // A scheduler may have claimed the row since it was read.
        s := S();
        run, err := Load(id);
        OnwardTransitive(old(S()), s, S());
        if err != NIL { return; }
        s := S();
      }
      if run.status == Cancelled {
        if run.finalized { return; }
      } else if run.status != Running || run.phase.None? || run.phase == Some(Publishing) || run.finalized {
        return run, {Conflict};
      }
      run, err := CancelActive(id);
      OnwardTransitive(old(S()), s, S());
    }
  }

  /** The listing indexed by run; a second lease of one run would be an inconsistency. */
  method Resources(listed: seq<LeaseInfo>) returns (resources: map<RunId, Ref>)
    requires Distinct(Runs(listed))
    ensures forall id :: id in resources <==> id in Runs(listed)
    ensures forall k :: 0 <= k < |listed| ==> listed[k].run in resources && resources[listed[k].run] == listed[k].ref
  {
    resources := map[];
    var k := 0;
    while k < |listed|
      invariant 0 <= k <= |listed|
      invariant forall id :: id in resources <==> id in Runs(listed)[..k]
      invariant forall j :: 0 <= j < k ==> listed[j].run in resources && resources[listed[j].run] == listed[j].ref
    {
      assert Runs(listed)[k] !in Runs(listed)[..k];
      resources := resources[listed[k].run := listed[k].ref];
      k := k + 1;
    }
  }

  /** A conflicting decision is an inconsistency for the scheduler. */
  function FinalizationError(err: Err): Err {
    if Conflict in err then err + {Consistency} else err
  }

  /** The one listed execution of a run; a second one or an unknown state is an error. */
  method ExecutionRecord(records: seq<Execution>, id: RunId) returns (record: Option<Lifecycle>, err: Err)
    ensures err == NIL <==>
      && (forall j, k :: 0 <= j < k < |records| && records[j].run == id ==> records[k].run != id)
      && (forall j :: 0 <= j < |records| && records[j].run == id ==>
            records[j].lifecycle in {Starting, Working, AwaitingFinalize})
    ensures err == NIL && record.Some? ==> Execution(id, record.value) in records
    ensures err == NIL && record.None? ==> forall j :: 0 <= j < |records| ==> records[j].run != id
    ensures err != NIL ==> err == {Consistency} || err == {OutcomeUnknown}
  {
    record := None;
    var i := 0;
    while i < |records|
      invariant 0 <= i <= |records|
      invariant forall j, k :: 0 <= j < k < i && records[j].run == id ==> records[k].run != id
      invariant forall j :: 0 <= j < i && records[j].run == id ==> records[j].lifecycle in {Starting, Working, AwaitingFinalize}
      invariant record.Some? ==> exists j :: 0 <= j < i && records[j] == Execution(id, record.value)
      invariant record.None? ==> forall j :: 0 <= j < i ==> records[j].run != id
    {
      if records[i].run == id {
        if record.Some? { return None, {Consistency}; }
        if records[i].lifecycle !in {Starting, Working, AwaitingFinalize} { return None, {OutcomeUnknown}; }
        record := Some(records[i].lifecycle);
      }
      i := i + 1;
    }
    err := NIL;
  }
}
