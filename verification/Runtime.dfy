/**
 The runtime as the control plane sees it: durable execution records and the original session
 transcripts (services/agent-runtime/src/harness_forge_runtime/execution_store.py, api.py and the
 session ownership of sessions.py).
 */
module Runtime {
  import opened Basics
  import opened RunState
  import opened RunStore

  /** `Working` is the record's "running". */
  datatype Lifecycle = Starting | Working | AwaitingFinalize | Committed | Aborted

  datatype Record = Record(
    source: Option<SessionId>,
    candidate: Option<SessionId>,
    durable: bool,
    baseline: set<SessionId>,
    lifecycle: Lifecycle)

  /**
   `present` holds the IDs with an original transcript on disk. `creator` is a history variable:
   the run that first recorded an ID or whose bucket first held it; UUIDs are never reused, so it only
   grows. `reports` holds, for each run whose journal is closed by a completion, the candidate that the
   completion names.
   */
  datatype Runtime = Runtime(
    records: map<RunId, Record>,
    creator: map<SessionId, RunId>,
    present: set<SessionId>,
    reports: map<RunId, SessionId>)

  predicate Undecided(r: Record) {
    r.lifecycle == Starting || r.lifecycle == Working || r.lifecycle == AwaitingFinalize
  }

  predicate Busy(rt: Runtime) {
    exists id :: id in rt.records && Undecided(rt.records[id])
  }

  predicate UndecidedFor(rt: Runtime, id: RunId) {
    id in rt.records && Undecided(rt.records[id])
  }

  /** The record names a candidate whose transcript is durable. */
  predicate RecordedDurable(r: Record) {
    r.durable && r.candidate.Some?
  }

  /** POST execute reaches ExecutionStore.reserve; the baseline is every ID that the session store then lists. */
  function Reserved(rt: Runtime, id: RunId, source: Option<SessionId>, listed: set<SessionId>): Result<Runtime> {
    if id in rt.records then Fail(if Undecided(rt.records[id]) then {Conflict} else {Finalized})
    else if Busy(rt) then Fail({Conflict})
    else Ok(rt.(records := rt.records[id := Record(source, None, false, listed, Starting)]))
  }

  function WithLifecycle(rt: Runtime, id: RunId, lifecycle: Lifecycle): Runtime
    requires id in rt.records
  {
    rt.(records := rt.records[id := rt.records[id].(lifecycle := lifecycle)])
  }

  /** SessionStore.validate_candidate: an original in the run's own bucket, new since the baseline. */
  predicate ValidCandidate(rt: Runtime, id: RunId)
    requires id in rt.records
  {
    var r := rt.records[id];
    && r.candidate.Some? && r.durable
    && r.candidate != r.source && r.candidate.value !in r.baseline
    && r.candidate.value in rt.present && r.candidate.value in rt.creator && rt.creator[r.candidate.value] == id
  }

  /** What SessionStore.abort leaves: the baseline and the source. */
  function Kept(rt: Runtime, id: RunId): set<SessionId>
    requires id in rt.records
  {
    set x | x in rt.present && (x in rt.records[id].baseline || rt.records[id].source == Some(x))
  }

  /** POST finalize (api.py finalize_run). */
  function Decided(rt: Runtime, id: RunId, decision: Decision): Result<Runtime> {
    if id !in rt.records then Fail({NotFound})
    else
      var r := rt.records[id];
      if !Undecided(r) then
        if r.lifecycle == (if decision == Commit then Committed else Aborted) then Ok(rt) else Fail({Conflict})
      else if r.lifecycle != AwaitingFinalize then Fail({Conflict})
      else if decision == Commit then
        if ValidCandidate(rt, id) then Ok(WithLifecycle(rt, id, Committed)) else Fail({Conflict})
      else Ok(WithLifecycle(rt, id, Aborted).(present := Kept(rt, id)))
  }
}
