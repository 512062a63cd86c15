/** The abstract run life cycle: services/control-plane/internal/runs/state.go. */
module RunState {
  import opened Basics

  datatype Status = Queued | Running | Succeeded | Failed | Cancelled | Interrupted
  datatype Phase = Preparing | Agent | Publishing
  datatype Provider = Docker | Fake
  type Ref = string

  /** The columns of a run row that the life cycle reads and writes. */
  datatype Row = Row(
    status: Status,
    phase: Option<Phase>,
    finalized: bool,
    provider: Option<Provider>,
    sandboxRef: Option<Ref>)

  /** Authoritative evidence. `Unknown` is never read as absence. */
  datatype Presence = Unknown | Absent | Present
  datatype Decision = Commit | Abort
  datatype Cleanup = Cleanup(lease: Presence, runtime: Presence, disposition: Option<Decision>, released: bool)

  const NO_EVIDENCE := Cleanup(Unknown, Unknown, None, false)

  predicate Terminal(status: Status) {
    status in {Succeeded, Failed, Cancelled, Interrupted}
  }

  function Start(run: Row): (r: Result<Row>)
    ensures r.Ok? <==> run.status == Queued && !run.finalized
    ensures r.Ok? ==> r.value.status == Running && Rank(r.value.phase) == 1 && !r.value.finalized
  {
    if run.status != Queued || run.finalized then Fail({Conflict})
    else Ok(run.(status := Running, phase := Some(Preparing)))
  }

  function Advance(run: Row, phase: Phase): (r: Result<Row>)
    ensures r.Ok? ==> Rank(Some(phase)) == Rank(run.phase) + 1 && r.value.status == run.status
  {
    if run.status != Running || run.finalized || run.phase.None? ||
       !((run.phase.value == Preparing && phase == Agent) || (run.phase.value == Agent && phase == Publishing))
    then Fail({Conflict})
    else Ok(run.(phase := Some(phase)))
  }

  /** How far a run has come; phases only ever grow. */
  function Rank(phase: Option<Phase>): nat {
    match phase
    case None => 0
    case Some(Preparing) => 1
    case Some(Agent) => 2
    case Some(Publishing) => 3
  }

  predicate RuntimeDone(cleanup: Cleanup) {
    cleanup.runtime == Absent || (cleanup.runtime == Present && cleanup.disposition.Some?)
  }

  predicate LeaseDone(cleanup: Cleanup) {
    cleanup.lease == Absent || (cleanup.lease == Present && cleanup.released)
  }

  function Finish(run: Row, status: Status, cleanup: Cleanup): (r: Result<Row>) {
    if !Terminal(status) || (run.status != Running && run.status != Queued && run.status != status)
       || (run.finalized && run.status != status) then Fail({Conflict})
    else if run.status == Queued then
      if status != Cancelled || run.provider.Some? || run.sandboxRef.Some? then Fail({Conflict})
      else Ok(run.(status := status, finalized := true))
    else if run.finalized then Ok(run)
    else if run.phase.None? then Fail({Conflict})
    else if status == Cancelled && run.phase.value == Publishing then Fail({Conflict})
    else if status == Succeeded &&
            (run.phase.value != Publishing || cleanup.lease == Absent || cleanup.runtime == Absent) then Fail({Conflict})
    else if (cleanup.lease == Absent && (run.sandboxRef.Some? || cleanup.runtime == Present)) ||
            (cleanup.disposition == Some(Commit) && status != Succeeded) ||
            (cleanup.disposition == Some(Abort) && status == Succeeded) then Fail({Conflict})
    else Ok(run.(status := status, finalized := RuntimeDone(cleanup) && LeaseDone(cleanup)))
  }

  /** A terminal outcome never changes, and finalization is never taken back. */
  lemma FinishKeepsOutcome(run: Row, status: Status, cleanup: Cleanup)
    requires Finish(run, status, cleanup).Ok?
    ensures var done := Finish(run, status, cleanup).value;
            && done.status == status
            && (Terminal(run.status) ==> run.status == status)
            && (run.finalized ==> done == run)
            && (done.finalized && !run.finalized && run.status != Queued ==>
                  RuntimeDone(cleanup) && LeaseDone(cleanup)
                  && (status == Succeeded ==> cleanup.disposition == Some(Commit)))
  {
    if run.status != Queued && !run.finalized && status == Succeeded && RuntimeDone(cleanup) {
      assert cleanup.disposition != Some(Abort);
      assert cleanup.disposition.Some? ==> cleanup.disposition.value == Commit;
    }
  }

  /** Recording an outcome first and its cleanup evidence later equals recording both at once. */
  lemma FinishInTwoSteps(run: Row, status: Status, cleanup: Cleanup)
    requires run.status == Running && !run.finalized
    requires Finish(run, status, cleanup).Ok?
    ensures Finish(run, status, NO_EVIDENCE).Ok?
    ensures Finish(Finish(run, status, NO_EVIDENCE).value, status, cleanup) == Finish(run, status, cleanup)
  {
    var first := Finish(run, status, NO_EVIDENCE).value;
    assert first == run.(status := status);
  }

  /**
   Evidence that lease and runtime are absent finishes a failed run exactly when no ref was ever
   recorded: reconciliation of a recorded ref that its provider no longer knows goes beyond this rule.
   */
  lemma AbsentLease(run: Row)
    requires run.status in {Failed, Cancelled, Interrupted} && !run.finalized && run.phase.Some?
    requires run.status == Cancelled ==> run.phase != Some(Publishing)
    ensures Finish(run, run.status, Cleanup(Absent, Absent, None, false)).Ok? <==> run.sandboxRef.None?
  {
    var e := Cleanup(Absent, Absent, None, false);
    assert RuntimeDone(e) && LeaseDone(e);
  }
}
