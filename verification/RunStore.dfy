/**
 The PostgreSQL tables of the control plane and every transaction on a run, as functions from
 tables to tables: services/control-plane/internal/runs/store.go, coordinator_store.go, events.go,
 cancel.go, and the row-locking transactions of conversations/ and projects/.
 A transaction either commits its result or leaves the tables as they were.
 */
module RunStore {
  import opened Basics
  import opened RunState

  type RunId = nat
  type ConversationId = nat
  type ProjectId = nat
  type SessionId = nat
  type ArtifactId = nat

  const MAX_INT64: nat := 0x7fff_ffff_ffff_ffff
  const DOCKER_REF: Ref := "docker:agent-runtime"

  // ---- The event log of one run ------------------------------------------------------------

  datatype EventKind =
    | PhaseChanged(phase: Phase)
    | AssistantDelta
    | AssistantMessage
    | ToolStarted
    | ToolCompleted
    | ArtifactCandidate
    | AgentCompleted
    | AgentFailed
    | ArtifactPublished(artifact: ArtifactId)
    | RunTerminal(outcome: Status)

  datatype DedupeKey = PhaseKey(phase: Phase) | ArtifactKey(artifact: ArtifactId) | TerminalKey(outcome: Status)

  datatype Event = Event(sequence: nat, runtimeSequence: Option<nat>, kind: EventKind, dedupeKey: Option<DedupeKey>)

  /** Events that only the control plane itself writes, when it acknowledges finalization. */
  predicate ProductEvent(kind: EventKind) {
    kind.ArtifactPublished? || kind.RunTerminal?
  }

  // ---- Tables ------------------------------------------------------------------------------

  /**
   One run with its event, message and artifact rows. `conflict` is the cleanup_consistency mark,
   `messages` the runtime sequences of the assistant messages the run has produced.
   */
  datatype Run = Run(
    conversation: ConversationId,
    status: Status,
    phase: Option<Phase>,
    finalized: bool,
    source: Option<SessionId>,
    candidate: Option<SessionId>,
    provider: Option<Provider>,
    sandboxRef: Option<Ref>,
    conflict: bool,
    artifacts: seq<ArtifactId>,
    messages: seq<nat>,
    log: seq<Event>,
    nextSequence: nat)

  /** `lineage` is a history variable: the runs promoted in this conversation, in order. */
  datatype Conversation = Conversation(
    project: ProjectId, deleted: bool, active: Option<SessionId>, lineage: seq<RunId>)

  /** A run's ID is its position in creation order. `projects[p]` says whether p is deleted. */
  datatype Db = Db(runs: seq<Run>, conversations: seq<Conversation>, projects: seq<bool>)

  function View(r: Run): Row {
    Row(r.status, r.phase, r.finalized, r.provider, r.sandboxRef)
  }

  /** A run in the execution slot. */
  predicate Active(r: Run) { r.status != Queued && !r.finalized }

  /** A run that forbids deleting its conversation and project. */
  predicate Protected(r: Run) { r.status == Queued || r.status == Running || !r.finalized }

  // ---- Event log primitive (events.go) -----------------------------------------------------

  predicate HasRuntimeSequence(log: seq<Event>, n: nat) {
    exists i :: 0 <= i < |log| && log[i].runtimeSequence == Some(n)
  }

  predicate HasKey(log: seq<Event>, key: DedupeKey) {
    exists i :: 0 <= i < |log| && log[i].dedupeKey == Some(key)
  }

  /** A terminal product event needs the matching finalized outcome. */
  predicate ValidEvent(r: Run, kind: EventKind) {
    kind.RunTerminal? && Terminal(kind.outcome) ==> r.finalized && r.status == kind.outcome
  }

  function AppendEvent(r: Run, runtimeSequence: Option<nat>, kind: EventKind, key: Option<DedupeKey>): Result<Run> {
    if runtimeSequence.Some? && HasRuntimeSequence(r.log, runtimeSequence.value) then Ok(r)
    else if key.Some? && HasKey(r.log, key.value) then Ok(r)
    else if !ValidEvent(r, kind) then Fail({Conflict})
    else Ok(r.(log := r.log + [Event(r.nextSequence, runtimeSequence, kind, key)],
               nextSequence := r.nextSequence + 1))
  }

  function PublishAll(r: Run, artifacts: seq<ArtifactId>): (out: Result<Run>) {
    if artifacts == [] then Ok(r)
    else
      var before := PublishAll(r, artifacts[..|artifacts| - 1]);
      var a := artifacts[|artifacts| - 1];
      if before.Fail? then before
      else AppendEvent(before.value, None, ArtifactPublished(a), Some(ArtifactKey(a)))
  }

  // ---- Row transitions ---------------------------------------------------------------------

  function Refreshed(r: Run, c: Conversation, projectDeleted: bool): Result<Run> {
    if c.deleted || projectDeleted || r.status != Running || r.phase != Some(Preparing) || r.finalized
    then Fail({NotFound})
    else Ok(r.(source := c.active))
  }

  function AcquireBegun(r: Run, provider: Provider): Result<Run> {
    if r.provider == Some(provider) then Ok(r)
    else if r.provider.None? && r.status == Running && r.phase == Some(Preparing) && !r.finalized
    then Ok(r.(provider := Some(provider)))
    else Fail({Conflict})
  }

  function RefAttached(r: Run, provider: Provider, ref: Ref): Result<Run> {
    if r.provider != Some(provider) then Fail({Conflict})
    else if r.sandboxRef == Some(ref) then Ok(r)
    else if r.sandboxRef.None? && r.status != Queued && !r.finalized then Ok(r.(sandboxRef := Some(ref)))
    else Fail({Conflict})
  }

  function PhaseSet(r: Run, phase: Phase): Result<Run> {
    if r.status != Running || r.phase.None? || r.finalized then Fail({Conflict})
    else if r.phase.value != phase && Advance(View(r), phase).Fail? then Fail({Conflict})
    else AppendEvent(r.(phase := Some(phase)), None, PhaseChanged(phase), Some(PhaseKey(phase)))
  }

  /** The phase a runtime event moves the run to, or a conflict. */
  function EventPhase(r: Run, kind: EventKind): Result<Option<Phase>> {
    if !kind.PhaseChanged? then Ok(r.phase)
    else if r.phase.None? then Fail({Conflict})
    else if kind.phase != r.phase.value && Advance(View(r), kind.phase).Fail? then Fail({Conflict})
    else if kind.phase != Preparing && kind.phase != Agent then Fail({Conflict})
    else Ok(Some(kind.phase))
  }

  function RuntimeEventRecorded(r: Run, sequence: nat, kind: EventKind): Result<Run> {
    if sequence > MAX_INT64 then Fail({Conflict})
    // A concurrent cancellation owns the outcome; late runtime data must not resurrect it.
    else if r.status != Running then Ok(r)
    else if HasRuntimeSequence(r.log, sequence) then Ok(r)
    else
      var phase := EventPhase(r, kind);
      if phase.Fail? then Fail(phase.error)
      else
        var appended := AppendEvent(r.(phase := phase.value), Some(sequence), kind, None);
        if appended.Fail? then appended
        else
          var q := appended.value;
          var q := if kind.AssistantMessage? && sequence !in q.messages then q.(messages := q.messages + [sequence]) else q;
          Ok(if kind.AgentFailed? then q.(status := Failed) else q)
  }

  function FailureRecorded(r: Run, status: Status): Result<Run> {
    if status !in {Failed, Cancelled, Interrupted} then Fail({Conflict})
    else if Terminal(r.status) then Ok(r)
    else if r.status != Running || r.finalized || (status == Cancelled && r.phase == Some(Publishing))
    then Fail({Conflict})
    else Ok(r.(status := status))
  }

  function Acknowledged(r: Run): Result<Run> {
    if !Terminal(r.status) then Fail({Conflict})
    else if r.finalized then Ok(r)
    else
      var published := PublishAll(r.(finalized := true), if r.status == Succeeded then r.artifacts else []);
      if published.Fail? then published
      else AppendEvent(published.value, None, RunTerminal(r.status), Some(TerminalKey(r.status)))
  }

  function QueuedCancelled(r: Run): Result<Run> {
    if r.status == Cancelled && r.finalized then Ok(r)
    else if r.status != Queued then Fail({Conflict})
    else
      var done := Finish(View(r), Cancelled, Cleanup(Absent, Absent, None, false));
      if done.Fail? then Fail(done.error)
      else AppendEvent(r.(status := done.value.status, finalized := done.value.finalized),
                       None, RunTerminal(Cancelled), Some(TerminalKey(Cancelled)))
  }

  // ---- Transactions ------------------------------------------------------------------------

  function WithRow(db: Db, id: RunId, row: Result<Run>): Result<Db>
    requires id < |db.runs|
  {
    if row.Fail? then Fail(row.error) else Ok(db.(runs := db.runs[id := row.value]))
  }

  function ConversationOf(db: Db, id: RunId): Conversation
    requires id < |db.runs| && db.runs[id].conversation < |db.conversations|
  {
    db.conversations[db.runs[id].conversation]
  }

  predicate Addressable(db: Db, c: ConversationId) {
    c < |db.conversations| && db.conversations[c].project < |db.projects|
  }

  predicate Live(db: Db, c: ConversationId)
    requires Addressable(db, c)
  {
    !db.conversations[c].deleted && !db.projects[db.conversations[c].project]
  }

  /** lockProject rejects a deleted project, then the conversation row is locked. */
  function Submitted(db: Db, c: ConversationId): Result<Db> {
    if !Addressable(db, c) then Fail({NotFound})
    else if !Live(db, c) then Fail({Conflict})
    else Ok(db.(runs := db.runs +
                [Run(c, Queued, None, false, db.conversations[c].active, None, None, None, false, [], [], [], 1)]))
  }

  predicate SlotTaken(db: Db) {
    exists id :: 0 <= id < |db.runs| && Active(db.runs[id])
  }

  /** The oldest queued run whose row is not locked (FOR UPDATE SKIP LOCKED). */
  predicate NextInLine(db: Db, id: RunId, locked: set<RunId>) {
    && id < |db.runs| && db.runs[id].status == Queued && id !in locked
    && forall earlier :: 0 <= earlier < id && earlier !in locked ==> db.runs[earlier].status != Queued
  }

  function Claimed(db: Db, id: RunId): Result<Db> {
    if SlotTaken(db) || id >= |db.runs| || db.runs[id].status != Queued then Fail({NotFound})
    else WithRow(db, id, Ok(db.runs[id].(status := Running, phase := Some(Preparing))))
  }

  function ProductsCommitted(db: Db, id: RunId, candidate: SessionId, artifacts: seq<ArtifactId>): Result<Db>
    requires id < |db.runs| && Addressable(db, db.runs[id].conversation)
  {
    var r := db.runs[id];
    var c := db.conversations[r.conversation];
    if !Live(db, r.conversation) then Fail({Conflict})
    else if r.status != Running || r.phase != Some(Publishing) || r.finalized then Fail({Conflict})
    else if c.active != r.source then Fail({Conflict})
    else if exists i, j :: 0 <= i < j < |artifacts| && artifacts[i] == artifacts[j] then Fail({Conflict})
    else Ok(db.(
      runs := db.runs[id := r.(candidate := Some(candidate), status := Succeeded, artifacts := artifacts)],
      conversations := db.conversations[r.conversation :=
                         c.(active := Some(candidate), lineage := c.lineage + [id])]))
  }

  function ConversationDeleted(db: Db, c: ConversationId): Result<Db> {
    if !Addressable(db, c) then Fail({NotFound})
    else if db.conversations[c].deleted then Ok(db)
    else if db.projects[db.conversations[c].project] then Fail({Conflict})
    else if exists id :: 0 <= id < |db.runs| && db.runs[id].conversation == c && Protected(db.runs[id]) then Fail({Conflict})
    else Ok(db.(conversations := db.conversations[c := db.conversations[c].(deleted := true)]))
  }

  predicate InProject(db: Db, r: Run, p: ProjectId) {
    r.conversation < |db.conversations| && db.conversations[r.conversation].project == p
  }

  function ProjectDeleted(db: Db, p: ProjectId): Result<Db> {
    if p >= |db.projects| then Fail({NotFound})
    else if db.projects[p] then Ok(db)
    else if exists id :: 0 <= id < |db.runs| && InProject(db, db.runs[id], p) && Protected(db.runs[id]) then Fail({Conflict})
    else Ok(db.(projects := db.projects[p := true]))
  }

  // ---- What the tables always satisfy ------------------------------------------------------

  /** A run row is one the life cycle can produce. */
  ghost predicate RowOk(r: Run) {
    && (r.status == Queued ==> r.phase.None? && !r.finalized && r.provider.None?)
    && (r.status == Running ==> r.phase.Some? && !r.finalized)
    && (r.status == Succeeded ==> r.phase == Some(Publishing) && r.sandboxRef.Some?)
    && (Terminal(r.status) && !r.finalized ==> r.phase.Some?)
    && (r.status == Cancelled ==> r.phase != Some(Publishing))
    && (r.candidate.Some? <==> r.status == Succeeded)
    && (r.sandboxRef.Some? ==> r.provider.Some?)
    && (r.provider.Some? ==> r.provider == Some(Docker))
    && (r.sandboxRef.Some? ==> r.sandboxRef == Some(DOCKER_REF))
    && !r.conflict
    && Distinct(r.artifacts)
  }

  ghost predicate OneSlot(db: Db) {
    forall i, j :: 0 <= i < |db.runs| && 0 <= j < |db.runs| && Active(db.runs[i]) && Active(db.runs[j]) ==> i == j
  }

  ghost predicate DeletionSafe(db: Db) {
    forall id :: 0 <= id < |db.runs| && Protected(db.runs[id]) ==>
      Addressable(db, db.runs[id].conversation) && Live(db, db.runs[id].conversation)
  }

  /** Every run of the lineage is a succeeded run of conversation c, once, and no other run is. */
  ghost predicate ChainMembers(db: Db, c: ConversationId, l: seq<RunId>) {
    && (forall i :: 0 <= i < |l| ==> l[i] < |db.runs| && db.runs[l[i]].conversation == c && db.runs[l[i]].status == Succeeded)
    && Distinct(l)
    && (forall id :: 0 <= id < |db.runs| && db.runs[id].conversation == c && db.runs[id].status == Succeeded ==> id in l)
  }

  /** The session that the first n runs of a lineage leave active. */
  function Promoted(db: Db, l: seq<RunId>, n: nat): Option<SessionId> {
    if 0 < n <= |l| && l[n - 1] < |db.runs| then db.runs[l[n - 1]].candidate else None
  }

  /**
   The succeeded runs of conversation c are one chain: each starts from the session the previous
   one promoted, the first from none, and the last one's candidate is the active session. Only the
   last can still be unfinalized.
   */
  ghost predicate Chain(db: Db, c: ConversationId)
    requires c < |db.conversations|
  {
    var l := db.conversations[c].lineage;
    && ChainMembers(db, c, l)
    && (forall i :: 0 <= i < |l| ==> db.runs[l[i]].source == Promoted(db, l, i))
    && (forall i :: 0 <= i < |l| - 1 ==> db.runs[l[i]].finalized)
    && db.conversations[c].active == Promoted(db, l, |l|)
  }

  ghost predicate Chains(db: Db) {
    forall c :: 0 <= c < |db.conversations| ==> Chain(db, c)
  }

  ghost predicate TablesOk(db: Db) {
    && (forall id :: 0 <= id < |db.runs| ==> RowOk(db.runs[id]) && Addressable(db, db.runs[id].conversation))
    && (forall c :: 0 <= c < |db.conversations| ==> Addressable(db, c))
    && OneSlot(db) && DeletionSafe(db) && Chains(db)
  }

  // ---- The visible log ---------------------------------------------------------------------

  function AssistantSequences(log: seq<Event>): seq<nat> {
    if log == [] then []
    else
      var e := log[|log| - 1];
      AssistantSequences(log[..|log| - 1]) +
      (if e.kind.AssistantMessage? && e.runtimeSequence.Some? then [e.runtimeSequence.value] else [])
  }

  /** Sequences are exactly 1..n; runtime sequences and dedupe keys occur once. */
  ghost predicate Numbered(r: Run) {
    && r.nextSequence == |r.log| + 1
    && (forall i :: 0 <= i < |r.log| ==> r.log[i].sequence == i + 1)
    && (forall i, j :: 0 <= i < j < |r.log| && r.log[i].runtimeSequence.Some? ==>
          r.log[i].runtimeSequence != r.log[j].runtimeSequence)
    && (forall i, j :: 0 <= i < j < |r.log| && r.log[i].dedupeKey.Some? ==>
          r.log[i].dedupeKey != r.log[j].dedupeKey)
  }

  ghost predicate NoProducts(log: seq<Event>) {
    forall i :: 0 <= i < |log| ==> PlainEvent(log[i])
  }

  /** An event that is neither a product event nor carries a product event's dedupe key. */
  predicate PlainEvent(e: Event) {
    !ProductEvent(e.kind) && (e.dedupeKey.Some? ==> e.dedupeKey.value.PhaseKey?)
  }

  /** The artifacts an outcome publishes. */
  function Published(r: Run): seq<ArtifactId> {
    if r.status == Succeeded then r.artifacts else []
  }

  /** A finalized log: plain events, then one event per published artifact, then the terminal event. */
  ghost predicate ClosedLog(log: seq<Event>, published: seq<ArtifactId>, outcome: Status) {
    var n := |log| - |published| - 1;
    && 0 <= n
    && NoProducts(log[..n])
    && (forall i :: 0 <= i < |published| ==> log[n + i].kind == ArtifactPublished(published[i]))
    && log[|log| - 1].kind == RunTerminal(outcome)
  }

  ghost predicate LogShape(r: Run) {
    if r.finalized then ClosedLog(r.log, Published(r), r.status) else NoProducts(r.log)
  }

  ghost predicate LogOk(r: Run) {
    Numbered(r) && LogShape(r) && r.messages == AssistantSequences(r.log)
  }
}
