/**
 The two-party commit protocol between the control plane's tables and the runtime's records.
 One action is one atomic step: a committed transaction, the effect of a remote call, or a step of
 a worker, a user or a purge. `Enabled` states what the code demands of its own callers, such as
 that AcknowledgeFinalized follows the runtime's decision; ControlPlane proves every call obeys it.
 */
module Protocol {
  import opened Basics
  import opened RunState
  import opened RunStore
  import opened RunStoreProofs
  import opened Runtime

  /** What has become of a run's lease: its provider released it, or said that it knows no such lease. */
  datatype Lease = Released | Gone

  /** `leases` is a history variable: what has become of each lease, a release being final. */
  datatype State = State(db: Db, rt: Runtime, leases: map<RunId, Lease>)

  datatype Action =
    // users
    | CreateProject
    | CreateConversation(project: ProjectId)
    | Submit(conversation: ConversationId)
    | DeleteConversation(conversation: ConversationId)
    | DeleteProject(project: ProjectId)
    | CancelQueued(id: RunId)
    | UserCancel(id: RunId)
    // scheduler, coordinator and reconciler
    | Claim(id: RunId)
    | RefreshSource(id: RunId)
    | BeginAcquire(id: RunId)
    | AttachRef(id: RunId)
    | SetPhase(id: RunId, phase: Phase)
    | RecordEvent(id: RunId, sequence: nat, kind: EventKind)
    | RecordFailure(id: RunId, status: Status)
    | CommitProducts(id: RunId, candidate: SessionId, artifacts: seq<ArtifactId>)
    | Acknowledge(id: RunId)
    // remote calls
    | Reserve(id: RunId, listed: set<SessionId>)
    | Finalize(id: RunId, decision: Decision)
    | AbortInterrupted(id: RunId, removed: set<SessionId>)
    | ReleaseLease(id: RunId)
    | LoseLease(id: RunId)
    // worker, runtime restart and cancel
    | MarkWorking(id: RunId)
    | CreateSession(id: RunId, session: SessionId)
    | DropSession(id: RunId, session: SessionId)
    | RecordCandidate(id: RunId, session: SessionId)
    | MarkDurable(id: RunId)
    | CompleteWorker(id: RunId)
    | StopWorker(id: RunId)
    // purge of deleted conversations
    | PurgeSession(id: RunId)
    | PurgeRecord(id: RunId)

  /** The steps that can happen at any moment, whatever the scheduler is doing. */
  predicate Environment(a: Action) {
    a.CreateProject? || a.CreateConversation? || a.Submit? || a.DeleteConversation? || a.DeleteProject?
    || a.CancelQueued? || a.UserCancel? || a.MarkWorking? || a.CreateSession? || a.DropSession?
    || a.RecordCandidate? || a.MarkDurable? || a.CompleteWorker? || a.StopWorker?
    || a.PurgeSession? || a.PurgeRecord?
  }

  /** The runtime's part in a run is over, as its outcome requires. */
  predicate Settled(s: State, id: RunId)
    requires id < |s.db.runs|
  {
    && !UndecidedFor(s.rt, id)
    && (s.db.runs[id].status == Succeeded ==> id in s.rt.records && s.rt.records[id].lifecycle == Committed)
  }

  /** The transaction that a table action runs. */
  function TableEffect(db: Db, a: Action): Result<Db> {
    match a
    case CreateProject => Ok(db.(projects := db.projects + [false]))
    case CreateConversation(p) =>
      if p >= |db.projects| then Fail({NotFound})
      else if db.projects[p] then Fail({Conflict})
      else Ok(db.(conversations := db.conversations + [Conversation(p, false, None, [])]))
    case Submit(c) => Submitted(db, c)
    case DeleteConversation(c) => ConversationDeleted(db, c)
    case DeleteProject(p) => ProjectDeleted(db, p)
    case Claim(id) => Claimed(db, id)
    case CommitProducts(id, candidate, artifacts) =>
      if id < |db.runs| && Addressable(db, db.runs[id].conversation)
      then ProductsCommitted(db, id, candidate, artifacts) else Fail({NotFound})
    case _ =>
      if a.id >= |db.runs| then Fail({NotFound}) else WithRow(db, a.id, RowEffect(db, a))
  }

  /** The row that a single-row action writes. */
  function RowEffect(db: Db, a: Action): Result<Run>
    requires !a.CreateProject? && !a.CreateConversation? && !a.Submit? && !a.DeleteConversation? && !a.DeleteProject?
    requires a.id < |db.runs|
  {
    var r := db.runs[a.id];
    match a
    case CancelQueued(_) => QueuedCancelled(r)
    case UserCancel(_) => FailureRecorded(r, Cancelled)
    case RefreshSource(_) =>
      if Addressable(db, r.conversation)
      then Refreshed(r, db.conversations[r.conversation], db.projects[db.conversations[r.conversation].project])
      else Fail({NotFound})
    case BeginAcquire(_) => AcquireBegun(r, Docker)
    case AttachRef(_) => RefAttached(r, Docker, DOCKER_REF)
    case SetPhase(_, phase) => PhaseSet(r, phase)
    case RecordEvent(_, sequence, kind) => RuntimeEventRecorded(r, sequence, kind)
    case RecordFailure(_, status) => FailureRecorded(r, status)
    case Acknowledge(_) => Acknowledged(r)
    case _ => Ok(r)
  }

  predicate TableAction(a: Action) {
    a.CreateProject? || a.CreateConversation? || a.Submit? || a.DeleteConversation? || a.DeleteProject?
    || a.CancelQueued? || a.UserCancel? || a.Claim? || a.RefreshSource? || a.BeginAcquire? || a.AttachRef?
    || a.SetPhase? || a.RecordEvent? || a.RecordFailure? || a.CommitProducts? || a.Acknowledge?
  }

  predicate RowAction(a: Action) {
    a.CancelQueued? || a.UserCancel? || a.RefreshSource? || a.BeginAcquire? || a.AttachRef?
    || a.SetPhase? || a.RecordEvent? || a.RecordFailure? || a.Acknowledge?
  }

  predicate LeaseAction(a: Action) {
    a.ReleaseLease? || a.LoseLease?
  }

  /** The run never had a lease, or its provider has let go of it. */
  predicate LeaseOver(s: State, id: RunId)
    requires id < |s.db.runs|
  {
    s.db.runs[id].sandboxRef.Some? ==> id in s.leases
  }

  /** What the code's own callers must ensure before a table action. */
  predicate Discipline(s: State, a: Action) {
    match a
    case RefreshSource(id) => id !in s.rt.records
    case RecordEvent(_, _, kind) => !ProductEvent(kind)
    case CommitProducts(id, candidate, _) =>
      && id < |s.db.runs| && s.db.runs[id].sandboxRef.Some?
      && id in s.rt.reports && s.rt.reports[id] == candidate
    case Acknowledge(id) =>
      && id < |s.db.runs|
      && (Terminal(s.db.runs[id].status) && !s.db.runs[id].finalized ==> Settled(s, id) && LeaseOver(s, id))
    case _ => true
  }

  /** A run that purge may clean up after: its conversation is deleted and protects nothing. */
  predicate Purgeable(db: Db, id: RunId) {
    && id < |db.runs| && Addressable(db, db.runs[id].conversation)
    && !Live(db, db.runs[id].conversation) && db.runs[id].finalized
  }

  /** A lease is released after the runtime's part is over; that it is unknown can be learned any time. */
  predicate LeaseEnabled(s: State, a: Action)
    requires LeaseAction(a)
  {
    && a.id < |s.db.runs| && s.db.runs[a.id].sandboxRef.Some?
    && (a.ReleaseLease? ==> Terminal(s.db.runs[a.id].status) && Settled(s, a.id))
  }

  function LeaseEffect(s: State, a: Action): map<RunId, Lease>
    requires LeaseAction(a)
  {
    if a.ReleaseLease? then s.leases[a.id := Released]
    else if a.id in s.leases then s.leases else s.leases[a.id := Gone]
  }

  predicate RuntimeEnabled(s: State, a: Action)
    requires !TableAction(a) && !LeaseAction(a)
  {
    && a.id < |s.db.runs|
    && var r := s.db.runs[a.id];
       var known := a.id in s.rt.records;
       match a
       case Reserve(id, listed) =>
         // The listing has the ID of every original, and may have others.
         && r.sandboxRef.Some? && r.status != Succeeded && r.status != Queued && !r.finalized
         && s.rt.present <= listed && Reserved(s.rt, id, r.source, listed).Ok?
       case Finalize(id, decision) =>
         && (decision == Commit ==> r.status == Succeeded)
         && (decision == Abort ==> r.status in {Failed, Cancelled, Interrupted})
         && Decided(s.rt, id, decision).Ok?
       case AbortInterrupted(id, removed) =>
         && known && s.rt.records[id].lifecycle == AwaitingFinalize && r.status in {Failed, Cancelled, Interrupted}
         && removed !! Kept(s.rt, id)
       case MarkWorking(id) => known && s.rt.records[id].lifecycle == Starting
       case CreateSession(id, x) =>
         known && s.rt.records[id].lifecycle == Working && (x in s.rt.creator ==> s.rt.creator[x] == id)
       case DropSession(id, x) =>
         && known && s.rt.records[id].lifecycle == Working && x in s.rt.creator && s.rt.creator[x] == id
         && !(s.rt.records[id].durable && s.rt.records[id].candidate == Some(x))
       case RecordCandidate(id, x) =>
         && known && s.rt.records[id].lifecycle == Working && s.rt.records[id].candidate.None?
         && x !in s.rt.records[id].baseline && s.rt.records[id].source != Some(x)
         && (x in s.rt.creator ==> s.rt.creator[x] == id)
       case MarkDurable(id) =>
         && known && s.rt.records[id].lifecycle == Working && s.rt.records[id].candidate.Some?
         && ValidCandidate(s.rt.(records := s.rt.records[id := s.rt.records[id].(durable := true)]), id)
       case CompleteWorker(id) => known && s.rt.records[id].lifecycle == Working && RecordedDurable(s.rt.records[id])
       case StopWorker(id) => known && (s.rt.records[id].lifecycle == Starting || s.rt.records[id].lifecycle == Working)
       case PurgeSession(id) => Purgeable(s.db, id) && r.candidate.Some? && !Busy(s.rt)
       case PurgeRecord(id) => Purgeable(s.db, id) && known && !Undecided(s.rt.records[id])
  }

  function RuntimeEffect(s: State, a: Action): Runtime
    requires !TableAction(a) && !LeaseAction(a) && RuntimeEnabled(s, a)
  {
    var rt := s.rt;
    match a
    case Reserve(id, listed) => Reserved(rt, id, s.db.runs[id].source, listed).value
    case Finalize(id, decision) => Decided(rt, id, decision).value
    case AbortInterrupted(id, removed) => rt.(present := rt.present - removed)
    case MarkWorking(id) => WithLifecycle(rt, id, Working)
    case CreateSession(id, x) => rt.(creator := rt.creator[x := id], present := rt.present + {x})
    case DropSession(id, x) => rt.(present := rt.present - {x})
    case RecordCandidate(id, x) =>
      rt.(records := rt.records[id := rt.records[id].(candidate := Some(x))], creator := rt.creator[x := id])
    case MarkDurable(id) => rt.(records := rt.records[id := rt.records[id].(durable := true)])
    case CompleteWorker(id) =>
      WithLifecycle(rt, id, AwaitingFinalize).(reports := rt.reports[id := rt.records[id].candidate.value])
    case StopWorker(id) => WithLifecycle(rt, id, AwaitingFinalize)
    case PurgeSession(id) => rt.(present := rt.present - {s.db.runs[id].candidate.value})
    case PurgeRecord(id) => rt.(records := rt.records - {id}, reports := rt.reports - {id})
  }

  predicate Enabled(s: State, a: Action) {
    if TableAction(a) then TableEffect(s.db, a).Ok? && Discipline(s, a)
    else if LeaseAction(a) then LeaseEnabled(s, a)
    else RuntimeEnabled(s, a)
  }

  function Apply(s: State, a: Action): State
    requires Enabled(s, a)
  {
    if TableAction(a) then s.(db := TableEffect(s.db, a).value)
    else if LeaseAction(a) then s.(leases := LeaseEffect(s, a))
    else s.(rt := RuntimeEffect(s, a))
  }

  const INITIAL := State(Db([], [], []), Runtime(map[], map[], {}, map[]), map[])

  // ---- The invariant -----------------------------------------------------------------------

  ghost predicate LogsOk(db: Db) {
    forall id :: 0 <= id < |db.runs| ==> LogOk(db.runs[id])
  }

  ghost predicate OneUndecided(rt: Runtime) {
    forall i, j :: UndecidedFor(rt, i) && UndecidedFor(rt, j) ==> i == j
  }

  /** A record stands for an attached run; an undecided one for an unfinalized run. */
  predicate Backed(s: State, id: RunId)
    requires id in s.rt.records
  {
    && id < |s.db.runs|
    && s.db.runs[id].sandboxRef.Some? && s.db.runs[id].status != Queued
    && s.rt.records[id].source == s.db.runs[id].source
    && (Undecided(s.rt.records[id]) ==> !s.db.runs[id].finalized)
  }

  /** The decision agrees with the outcome. */
  predicate Agrees(s: State, id: RunId)
    requires id in s.rt.records && id < |s.db.runs|
  {
    && (s.rt.records[id].lifecycle == Committed ==>
          s.db.runs[id].status == Succeeded && s.rt.records[id].candidate == s.db.runs[id].candidate)
    && (s.rt.records[id].lifecycle == Aborted ==> s.db.runs[id].status in {Failed, Cancelled, Interrupted})
  }

  /** ExecutionRecord.validate_state, and whose session the candidate is. */
  predicate RecordOk(rt: Runtime, id: RunId)
    requires id in rt.records
  {
    var r := rt.records[id];
    && (r.durable ==> r.candidate.Some?)
    && (r.candidate.Some? ==>
          && r.candidate != r.source && r.candidate.value !in r.baseline
          && r.candidate.value in rt.creator && rt.creator[r.candidate.value] == id)
  }

  /** A success still to be acknowledged has its durable candidate waiting or committed. */
  predicate SuccessBacked(s: State, id: RunId)
    requires id < |s.db.runs|
  {
    s.db.runs[id].status == Succeeded && !s.db.runs[id].finalized ==>
      && id in s.rt.records
      && (s.rt.records[id].lifecycle == AwaitingFinalize || s.rt.records[id].lifecycle == Committed)
      && s.rt.records[id].durable && s.rt.records[id].candidate == s.db.runs[id].candidate
  }

  /** A durable candidate that may still be promoted or committed is on disk. */
  predicate CandidateKept(s: State, id: RunId)
    requires id in s.rt.records && id < |s.db.runs|
  {
    Undecided(s.rt.records[id]) && s.rt.records[id].durable && s.db.runs[id].status in {Running, Succeeded} ==>
      s.rt.records[id].candidate.Some? && s.rt.records[id].candidate.value in s.rt.present
  }

  /** Whatever appeared since the baseline belongs to the one undecided run. */
  ghost predicate BaselineCovers(rt: Runtime, id: RunId)
    requires id in rt.records
  {
    Undecided(rt.records[id]) ==>
      forall x :: x in rt.present && x in rt.creator && rt.creator[x] != id ==> x in rt.records[id].baseline
  }

  /** The active session of a live conversation is on disk, created by the run that promoted it. */
  predicate ActiveKept(s: State, c: ConversationId)
    requires c < |s.db.conversations|
  {
    Addressable(s.db, c) && Live(s.db, c) && s.db.conversations[c].active.Some? ==>
      s.db.conversations[c].active.value in s.rt.present
  }

  predicate CandidateOwned(s: State, id: RunId)
    requires id < |s.db.runs|
  {
    s.db.runs[id].candidate.Some? ==>
      s.db.runs[id].candidate.value in s.rt.creator && s.rt.creator[s.db.runs[id].candidate.value] == id
  }

  /** A reported candidate is durably recorded, and its execution no longer runs. */
  predicate ReportOk(rt: Runtime, id: RunId)
    requires id in rt.reports
  {
    && id in rt.records
    && rt.records[id].durable && rt.records[id].candidate == Some(rt.reports[id])
    && rt.records[id].lifecycle != Starting && rt.records[id].lifecycle != Working
  }

  /** Leases belong to attached runs, and no attached run is finalized before its lease is over. */
  ghost predicate LeasesOk(s: State) {
    && (forall id :: id in s.leases ==> id < |s.db.runs| && s.db.runs[id].sandboxRef.Some?)
    && (forall id :: 0 <= id < |s.db.runs| && s.db.runs[id].finalized ==> LeaseOver(s, id))
  }

  ghost predicate RuntimeOk(s: State) {
    && OneUndecided(s.rt)
    && (forall id :: id in s.rt.reports ==> ReportOk(s.rt, id))
    && s.rt.present <= s.rt.creator.Keys
    && (forall id :: id in s.rt.records ==>
          Backed(s, id) && Agrees(s, id) && RecordOk(s.rt, id) && CandidateKept(s, id) && BaselineCovers(s.rt, id))
    && (forall id :: 0 <= id < |s.db.runs| ==> SuccessBacked(s, id) && CandidateOwned(s, id))
    && (forall c :: 0 <= c < |s.db.conversations| ==> ActiveKept(s, c))
  }

  /** What holds of the tables, of the logs, and between tables and runtime. */
  ghost predicate Sides(s: State) {
    TablesOk(s.db) && LogsOk(s.db) && RuntimeOk(s)
  }

  ghost predicate Inv(s: State) {
    Sides(s) && LeasesOk(s)
  }
}
