/** Every step keeps the protocol invariant; what follows for all runs of the system. */
module ProtocolProofs {
  import opened Basics
  import opened RunState
  import opened RunStore
  import opened RunStoreProofs
  import opened Runtime
  import opened Protocol

  // ---- Table steps -------------------------------------------------------------------------

  /** How a run may change: outcomes and finalization are permanent, the log only grows. */
  ghost predicate Evolves(r: Run, q: Run) {
    && q.conversation == r.conversation
    && (r.sandboxRef.Some? ==> q.sandboxRef == r.sandboxRef)
    && Rank(r.phase) <= Rank(q.phase)
    && (r.status != Queued ==> q.status != Queued)
    && (Terminal(r.status) ==> q.status == r.status && q.candidate == r.candidate)
    && (r.finalized ==> q == r)
    && r.log <= q.log
  }

  /** What a single-row transaction may do to its row. */
  ghost predicate RowStep(r: Run, q: Run, a: Action) {
    && RowOk(q) && LogOk(q) && Evolves(r, q)
    && (q.source == r.source || a.RefreshSource?)
    && q.candidate == r.candidate
    && (q.status == Succeeded <==> r.status == Succeeded)
    && (q.finalized && !r.finalized ==> a.Acknowledge? || a.CancelQueued?)
    && (Active(q) ==> Active(r)) && (Protected(q) ==> Protected(r))
  }

  lemma QuietRowStep(r: Run, q: Run, a: Action)
    requires RowOk(r) && LogOk(r) && RowOk(q)
    requires q == r.(status := q.status, source := q.source, provider := q.provider, sandboxRef := q.sandboxRef)
    requires q.status == r.status || (r.status == Running && q.status in {Failed, Cancelled, Interrupted})
    requires q.source == r.source || (a.RefreshSource? && r.status == Running)
    requires r.sandboxRef.Some? ==> q.sandboxRef == r.sandboxRef
    requires r.finalized ==> q == r
    ensures RowStep(r, q, a)
  {
  }

  lemma LoggedRowStep(r: Run, a: Action)
    requires RowOk(r) && LogOk(r)
    requires a.SetPhase? || (a.RecordEvent? && !ProductEvent(a.kind))
    requires a.SetPhase? ==> PhaseSet(r, a.phase).Ok?
    requires a.RecordEvent? ==> RuntimeEventRecorded(r, a.sequence, a.kind).Ok?
    ensures RowStep(r, if a.SetPhase? then PhaseSet(r, a.phase).value else RuntimeEventRecorded(r, a.sequence, a.kind).value, a)
  {
    if a.SetPhase? {
      PhaseSetKeepsLog(r, a.phase);
    } else {
      RuntimeEventKeepsLog(r, a.sequence, a.kind);
    }
  }

  lemma ClosingRowStep(r: Run, a: Action)
    requires RowOk(r) && LogOk(r)
    requires a.CancelQueued? ==> QueuedCancelled(r).Ok?
    requires a.Acknowledge? ==> Acknowledged(r).Ok?
    requires a.CancelQueued? || a.Acknowledge?
    ensures RowStep(r, if a.CancelQueued? then QueuedCancelled(r).value else Acknowledged(r).value, a)
  {
    if a.CancelQueued? {
      if r.status == Queued { QueuedCancelledClosesLog(r); }
    } else if !r.finalized {
      AcknowledgedClosesLog(r);
    }
  }

  lemma RowEffectEvolves(db: Db, a: Action)
    requires RowAction(a) && a.id < |db.runs| && RowOk(db.runs[a.id]) && LogOk(db.runs[a.id])
    requires a.RecordEvent? ==> !ProductEvent(a.kind)
    requires RowEffect(db, a).Ok?
    ensures RowStep(db.runs[a.id], RowEffect(db, a).value, a)
  {
    var r := db.runs[a.id];
    if a.CancelQueued? || a.Acknowledge? {
      ClosingRowStep(r, a);
    } else if a.SetPhase? || a.RecordEvent? {
      LoggedRowStep(r, a);
    } else {
      QuietRowStep(r, RowEffect(db, a).value, a);
    }
  }

  lemma TableRowFacts(db: Db, id: RunId)
    requires TablesOk(db) && LogsOk(db) && id < |db.runs|
    ensures RowOk(db.runs[id]) && LogOk(db.runs[id])
  {
  }

  lemma RowOfAction(s: State, a: Action)
    requires RowAction(a) && Enabled(s, a)
    ensures a.id < |s.db.runs| && RowEffect(s.db, a).Ok?
    ensures a.RecordEvent? ==> !ProductEvent(a.kind)
    ensures Apply(s, a) == s.(db := s.db.(runs := s.db.runs[a.id := RowEffect(s.db, a).value]))
  {
    hide RowEffect;
  }

  /** Only a terminal row is acknowledged, only a queued one cancelled in the queue, only a running one refreshed. */
  lemma ClosableRow(db: Db, a: Action)
    requires RowAction(a) && a.id < |db.runs| && RowEffect(db, a).Ok?
    ensures a.Acknowledge? ==> Terminal(db.runs[a.id].status)
    ensures a.RefreshSource? ==> db.runs[a.id].status == Running
    ensures a.CancelQueued? ==> db.runs[a.id].status == Queued || db.runs[a.id].finalized
  {
  }

  lemma RowStepKeepsTables(s: State, a: Action)
    requires TablesOk(s.db) && LogsOk(s.db) && RowAction(a) && Enabled(s, a)
    ensures TablesOk(Apply(s, a).db) && LogsOk(Apply(s, a).db)
  {
    hide TablesOk, LogsOk, RowOk, LogOk, RowEffect, RowStep, Enabled, Apply;
    RowOfAction(s, a);
    TableRowFacts(s.db, a.id);
    RowEffectEvolves(s.db, a);
    ClosableRow(s.db, a);
    SourceStays(s.db.runs[a.id], RowEffect(s.db, a).value, a);
    RowReplacementKeepsTables(s.db, a.id, RowEffect(s.db, a).value, a);
  }

  lemma SourceStays(r: Run, q: Run, a: Action)
    requires RowStep(r, q, a) && (a.RefreshSource? ==> r.status == Running)
    ensures q.status == Succeeded ==> q.source == r.source
  {
    hide RowOk, LogOk;
  }

  lemma RowReplacementKeepsTables(db: Db, id: RunId, q: Run, a: Action)
    requires TablesOk(db) && LogsOk(db) && id < |db.runs| && RowStep(db.runs[id], q, a)
    requires q.status == Succeeded ==> q.source == db.runs[id].source
    ensures TablesOk(db.(runs := db.runs[id := q])) && LogsOk(db.(runs := db.runs[id := q]))
  {
    UpdateRow(db, id, q);
  }

  /** The runtime side only looks at a few columns of a run. */
  lemma RowChangeKeepsRuntime(s: State, id: RunId, q: Run)
    requires RuntimeOk(s) && id < |s.db.runs|
    requires Evolves(s.db.runs[id], q) && q.candidate == s.db.runs[id].candidate
    requires id in s.rt.records ==> q.source == s.db.runs[id].source
    requires q.status == Succeeded <==> s.db.runs[id].status == Succeeded
    requires UndecidedFor(s.rt, id) ==> !q.finalized
    ensures RuntimeOk(s.(db := s.db.(runs := s.db.runs[id := q])))
  {
    var after := s.(db := s.db.(runs := s.db.runs[id := q]));
    forall i | i in after.rt.records
      ensures Backed(after, i) && Agrees(after, i) && CandidateKept(after, i)
    {
      RecordFacts(s, i);
      RowChangeKeepsRecord(s, id, q, i);
    }
    forall i | 0 <= i < |after.db.runs| ensures SuccessBacked(after, i) && CandidateOwned(after, i) {
      assert SuccessBacked(s, i) && CandidateOwned(s, i);
    }
    forall c | 0 <= c < |after.db.conversations| ensures ActiveKept(after, c) {
      assert ActiveKept(s, c);
    }
  }

  lemma RowChangeKeepsRecord(s: State, id: RunId, q: Run, i: RunId)
    requires i in s.rt.records && id < |s.db.runs| && Backed(s, i) && Agrees(s, i) && CandidateKept(s, i)
    requires Evolves(s.db.runs[id], q) && q.candidate == s.db.runs[id].candidate
    requires id in s.rt.records ==> q.source == s.db.runs[id].source
    requires q.status == Succeeded <==> s.db.runs[id].status == Succeeded
    requires UndecidedFor(s.rt, id) ==> !q.finalized
    ensures var after := s.(db := s.db.(runs := s.db.runs[id := q]));
            Backed(after, i) && Agrees(after, i) && CandidateKept(after, i)
  {
  }

  lemma RowStepKeepsRuntime(s: State, a: Action)
    requires Sides(s) && RowAction(a) && Enabled(s, a)
    ensures RuntimeOk(Apply(s, a))
  {
    hide TablesOk, LogsOk, RuntimeOk, RowOk, LogOk, RowStep, RowEffect;
    RowOfAction(s, a);
    SideRowFacts(s, a.id);
    RowEffectEvolves(s.db, a);
    ClosableRow(s.db, a);
    if a.id in s.rt.records {
      RecordFacts(s, a.id);
    }
    RowStepFits(s, a, RowEffect(s.db, a).value);
    RowChangeKeepsRuntime(s, a.id, RowEffect(s.db, a).value);
  }

  lemma RowStepFits(s: State, a: Action, q: Run)
    requires RowAction(a) && Discipline(s, a) && a.id < |s.db.runs| && RowStep(s.db.runs[a.id], q, a)
    requires a.Acknowledge? ==> Terminal(s.db.runs[a.id].status)
    requires a.CancelQueued? ==> s.db.runs[a.id].status == Queued || s.db.runs[a.id].finalized
    requires a.id in s.rt.records ==> Backed(s, a.id)
    ensures a.id in s.rt.records ==> q.source == s.db.runs[a.id].source
    ensures UndecidedFor(s.rt, a.id) ==> !q.finalized
    ensures Evolves(s.db.runs[a.id], q) && q.candidate == s.db.runs[a.id].candidate
    ensures q.status == Succeeded <==> s.db.runs[a.id].status == Succeeded
  {
  }

  lemma ClaimKeepsInv(s: State, id: RunId)
    requires Sides(s) && Enabled(s, Claim(id))
    ensures Sides(Apply(s, Claim(id)))
  {
    ClaimKeepsTables(s.db, id);
    assert RowOk(s.db.runs[id]) && LogOk(s.db.runs[id]);
    assert id in s.rt.records ==> Backed(s, id);
    RowChangeKeepsRuntime(s, id, Claimed(s.db, id).value.runs[id]);
  }

  lemma ClaimKeepsTables(db: Db, id: RunId)
    requires TablesOk(db) && LogsOk(db) && Claimed(db, id).Ok?
    ensures TablesOk(Claimed(db, id).value) && LogsOk(Claimed(db, id).value)
  {
    assert RowOk(db.runs[id]) && LogOk(db.runs[id]);
    UpdateRow(db, id, db.runs[id].(status := Running, phase := Some(Preparing)));
  }

  /** A change of tables that keeps every run, every active session and every liveness promise. */
  lemma TablesChangeKeepsRuntime(s: State, db: Db)
    requires RuntimeOk(s) && Quiet(s.db, db)
    ensures RuntimeOk(s.(db := db))
  {
    var after := s.(db := db);
    assert forall i :: 0 <= i < |s.db.runs| ==> db.runs[i] == s.db.runs[..][i];
    forall i | i in after.rt.records
      ensures Backed(after, i) && Agrees(after, i) && CandidateKept(after, i)
    {
      assert Backed(s, i) && Agrees(s, i) && CandidateKept(s, i);
    }
    forall i | 0 <= i < |db.runs| ensures SuccessBacked(after, i) && CandidateOwned(after, i) {
      if i < |s.db.runs| {
        assert SuccessBacked(s, i) && CandidateOwned(s, i);
      }
    }
    forall c | 0 <= c < |db.conversations| ensures ActiveKept(after, c) {
      assert QuietConversation(s.db, db, c);
      if db.conversations[c].active.Some? {
        assert ActiveKept(s, c);
      }
    }
  }

  lemma UserTableStepKeepsInv(s: State, a: Action)
    requires Sides(s) && Enabled(s, a)
    requires UserTableAction(a)
    ensures Sides(Apply(s, a))
  {
    hide RuntimeOk, Chains, RowOk, LogOk;
    var db := TableEffect(s.db, a).value;
    UserTableStepKeepsTables(s.db, a);
    UserTableStepIsQuiet(s.db, a);
    TablesChangeKeepsRuntime(s, db);
  }

  lemma UserTableStepKeepsTables(db: Db, a: Action)
    requires TablesOk(db) && LogsOk(db) && UserTableAction(a) && TableEffect(db, a).Ok?
    ensures TablesOk(TableEffect(db, a).value) && LogsOk(TableEffect(db, a).value)
  {
    var after := TableEffect(db, a).value;
    match a {
      case CreateProject => CreationKeepsTables(db, after);
      case CreateConversation(_) => CreationKeepsTables(db, after);
      case Submit(c) => SubmitKeepsTables(db, c);
      case DeleteConversation(c) => ConversationDeletionKeepsTables(db, c);
      case DeleteProject(p) => ProjectDeletionKeepsTables(db, p);
    }
  }

  /** A new project, or a new empty conversation. */
  lemma CreationKeepsTables(db: Db, after: Db)
    requires TablesOk(db) && LogsOk(db)
    requires after == db.(projects := db.projects + [false])
      || (exists p: ProjectId :: p < |db.projects| && after == db.(conversations := db.conversations + [Conversation(p, false, None, [])]))
    ensures TablesOk(after) && LogsOk(after)
  {
    WiderTablesStaySafe(db, after);
    SameRunsKeepTables(db, after);
  }

  predicate UserTableAction(a: Action) {
    a.CreateProject? || a.CreateConversation? || a.Submit? || a.DeleteConversation? || a.DeleteProject?
  }

  /** What a user's step leaves to the runtime: old runs and active sessions, and no place made live again. */
  ghost predicate Quiet(db: Db, after: Db) {
    && |db.runs| <= |after.runs| && after.runs[..|db.runs|] == db.runs
    && (forall i :: |db.runs| <= i < |after.runs| ==> after.runs[i].status == Queued && after.runs[i].candidate.None?)
    && (forall c :: 0 <= c < |after.conversations| ==> QuietConversation(db, after, c))
  }

  predicate QuietConversation(db: Db, after: Db, c: ConversationId)
    requires c < |after.conversations|
  {
    after.conversations[c].active.None? ||
    (c < |db.conversations| && after.conversations[c].active == db.conversations[c].active
     && (Addressable(after, c) && Live(after, c) ==> Addressable(db, c) && Live(db, c)))
  }

  lemma UserTableStepIsQuiet(db: Db, a: Action)
    requires TablesOk(db) && UserTableAction(a) && TableEffect(db, a).Ok?
    ensures Quiet(db, TableEffect(db, a).value)
  {
    hide OneSlot, DeletionSafe, Chains, RowOk;
    var after := TableEffect(db, a).value;
    forall c | 0 <= c < |after.conversations| ensures QuietConversation(db, after, c) {
      if c < |db.conversations| { assert Addressable(db, c); }
    }
  }

  lemma WiderTablesStaySafe(db: Db, after: Db)
    requires DeletionSafe(db) && after.runs == db.runs
    requires db.conversations <= after.conversations && db.projects <= after.projects
    ensures DeletionSafe(after)
  {
    forall id | 0 <= id < |after.runs| && Protected(after.runs[id])
      ensures Addressable(after, after.runs[id].conversation) && Live(after, after.runs[id].conversation)
    {
      assert Addressable(db, db.runs[id].conversation) && Live(db, db.runs[id].conversation);
    }
  }

  lemma CommitKeepsInv(s: State, id: RunId, candidate: SessionId, artifacts: seq<ArtifactId>)
    requires Sides(s) && Enabled(s, CommitProducts(id, candidate, artifacts))
    ensures Sides(Apply(s, CommitProducts(id, candidate, artifacts)))
  {
    hide RuntimeOk, TablesOk, LogOk;
    var db := ProductsCommitted(s.db, id, candidate, artifacts).value;
    CommitKeepsTables(s.db, id, candidate, artifacts);
    CommitKeepsLogs(s.db, id, candidate, artifacts);
    ReportedWaits(s, id);
    CommitKeepsRuntime(s, s.(db := db), id, candidate);
  }

  lemma CommitKeepsLogs(db: Db, id: RunId, candidate: SessionId, artifacts: seq<ArtifactId>)
    requires LogsOk(db) && id < |db.runs| && Addressable(db, db.runs[id].conversation)
    requires ProductsCommitted(db, id, candidate, artifacts).Ok?
    ensures LogsOk(ProductsCommitted(db, id, candidate, artifacts).value)
  {
    var after := ProductsCommitted(db, id, candidate, artifacts).value;
    assert LogOk(db.runs[id]) && LogOk(after.runs[id]);
  }

  /** A running run whose completion was reported has its durable candidate waiting for the decision. */
  lemma ReportedWaits(s: State, id: RunId)
    requires RuntimeOk(s) && id in s.rt.reports && id < |s.db.runs| && s.db.runs[id].status == Running
    ensures id in s.rt.records && s.rt.records[id].lifecycle == AwaitingFinalize
    ensures s.rt.records[id].durable && s.rt.records[id].candidate == Some(s.rt.reports[id])
  {
    assert ReportOk(s.rt, id);
    assert Agrees(s, id);
  }

  lemma CommitKeepsRuntime(s: State, after: State, id: RunId, candidate: SessionId)
    requires RuntimeOk(s) && id < |s.db.runs| == |after.db.runs| && after.rt == s.rt
    requires id in s.rt.records && s.rt.records[id].lifecycle == AwaitingFinalize
    requires s.rt.records[id].durable && s.rt.records[id].candidate == Some(candidate)
    requires s.db.runs[id].status == Running
    requires after.db.runs[id] == s.db.runs[id].(
      candidate := Some(candidate), status := Succeeded, artifacts := after.db.runs[id].artifacts)
    requires forall i :: 0 <= i < |s.db.runs| && i != id ==> after.db.runs[i] == s.db.runs[i]
    requires after.db.projects == s.db.projects && |after.db.conversations| == |s.db.conversations|
    requires forall c :: 0 <= c < |s.db.conversations| ==>
      && after.db.conversations[c].project == s.db.conversations[c].project
      && after.db.conversations[c].deleted == s.db.conversations[c].deleted
      && (after.db.conversations[c].active == s.db.conversations[c].active || after.db.conversations[c].active == Some(candidate))
    ensures RuntimeOk(after)
  {
    assert Backed(s, id) && RecordOk(s.rt, id) && CandidateKept(s, id);
    forall i | i in after.rt.records ensures Backed(after, i) && Agrees(after, i) && CandidateKept(after, i) {
      assert Backed(s, i) && Agrees(s, i) && CandidateKept(s, i);
    }
    forall i | 0 <= i < |after.db.runs| ensures SuccessBacked(after, i) && CandidateOwned(after, i) {
      assert SuccessBacked(s, i) && CandidateOwned(s, i);
    }
    forall c | 0 <= c < |after.db.conversations| ensures ActiveKept(after, c) {
      assert ActiveKept(s, c);
    }
  }

  // ---- Runtime steps -----------------------------------------------------------------------

  lemma ReserveKeepsInv(s: State, id: RunId, listed: set<SessionId>)
    requires Sides(s) && Enabled(s, Reserve(id, listed))
    ensures Sides(Apply(s, Reserve(id, listed)))
  {
    hide TablesOk, LogsOk, RuntimeOk, Backed, BaselineCovers;
    var r := Record(s.db.runs[id].source, None, false, listed, Starting);
    assert Apply(s, Reserve(id, listed)) == s.(rt := s.rt.(records := s.rt.records[id := r]));
    NewRecordKeepsRuntime(s, id, r);
  }

  lemma NewRecordKeepsRuntime(s: State, id: RunId, r: Record)
    requires RuntimeOk(s) && !Busy(s.rt) && id !in s.rt.records && id < |s.db.runs|
    requires r == Record(s.db.runs[id].source, None, false, r.baseline, Starting) && s.rt.present <= r.baseline
    requires s.db.runs[id].sandboxRef.Some? && s.db.runs[id].status !in {Queued, Succeeded} && !s.db.runs[id].finalized
    ensures RuntimeOk(s.(rt := s.rt.(records := s.rt.records[id := r])))
  {
    var after := s.(rt := s.rt.(records := s.rt.records[id := r]));
    forall i | i in after.rt.records
      ensures Backed(after, i) && Agrees(after, i) && RecordOk(after.rt, i) && CandidateKept(after, i) && BaselineCovers(after.rt, i)
    {
      if i != id {
        assert Backed(s, i) && Agrees(s, i) && RecordOk(s.rt, i) && CandidateKept(s, i) && BaselineCovers(s.rt, i);
        assert UndecidedFor(s.rt, i) ==> Busy(s.rt);
      }
    }
    forall i | 0 <= i < |after.db.runs| ensures SuccessBacked(after, i) && CandidateOwned(after, i) {
      assert SuccessBacked(s, i) && CandidateOwned(s, i);
    }
    forall c | 0 <= c < |after.db.conversations| ensures ActiveKept(after, c) {
      assert ActiveKept(s, c);
    }
    forall i, j | UndecidedFor(after.rt, i) && UndecidedFor(after.rt, j) ensures i == j {
      assert UndecidedFor(s.rt, i) || i == id;
      assert UndecidedFor(s.rt, j) || j == id;
      assert Busy(s.rt) || (i == id && j == id);
    }
    forall i | i in after.rt.reports ensures ReportOk(after.rt, i) { assert ReportOk(s.rt, i); }
  }

  /** Replacing one record, with sessions added by its run or removed, keeps the runtime invariant. */
  lemma RecordStepKeepsRuntime(s: State, rt: Runtime, id: RunId)
    requires RuntimeOk(s) && id in s.rt.records && id in rt.records
    requires rt.records == s.rt.records[id := rt.records[id]]
    requires forall i :: i in rt.reports && i != id ==> i in s.rt.reports && rt.reports[i] == s.rt.reports[i]
    requires id in rt.reports ==> ReportOk(rt, id)
    requires s.rt.creator.Keys <= rt.creator.Keys && rt.present <= rt.creator.Keys
    requires forall x :: x in rt.creator ==> if x in s.rt.creator then rt.creator[x] == s.rt.creator[x] else rt.creator[x] == id
    requires forall x :: x in rt.present && x !in s.rt.present ==> rt.creator[x] == id
    requires Undecided(rt.records[id]) ==> Undecided(s.rt.records[id])
    requires rt.records[id].source == s.rt.records[id].source && rt.records[id].baseline == s.rt.records[id].baseline
    requires var after := s.(rt := rt);
             && Backed(after, id) && Agrees(after, id) && RecordOk(rt, id) && CandidateKept(after, id) && SuccessBacked(after, id)
    requires Undecided(s.rt.records[id])
    requires forall c :: 0 <= c < |s.db.conversations| ==> ActiveKept(s.(rt := rt), c)
    ensures RuntimeOk(s.(rt := rt))
  {
    var after := s.(rt := rt);
    assert UndecidedFor(s.rt, id);
    forall i | i in rt.reports ensures ReportOk(rt, i) {
      assert i != id ==> ReportOk(s.rt, i);
    }
    forall i | i in rt.records
      ensures Backed(after, i) && Agrees(after, i) && RecordOk(rt, i) && CandidateKept(after, i) && BaselineCovers(rt, i)
    {
      assert Backed(s, i) && Agrees(s, i) && RecordOk(s.rt, i) && CandidateKept(s, i) && BaselineCovers(s.rt, i);
      assert i != id ==> !UndecidedFor(s.rt, i);
    }
    forall i | 0 <= i < |after.db.runs| ensures SuccessBacked(after, i) && CandidateOwned(after, i) {
      assert SuccessBacked(s, i) && CandidateOwned(s, i);
    }
    forall i, j | UndecidedFor(rt, i) && UndecidedFor(rt, j) ensures i == j {
      assert UndecidedFor(s.rt, i) && UndecidedFor(s.rt, j);
    }
  }

  /** What the invariant says of one record. */
  lemma RecordFacts(s: State, id: RunId)
    requires RuntimeOk(s) && id in s.rt.records
    ensures Backed(s, id) && Agrees(s, id) && RecordOk(s.rt, id) && CandidateKept(s, id) && BaselineCovers(s.rt, id)
    ensures SuccessBacked(s, id) && (id in s.rt.reports ==> ReportOk(s.rt, id))
    ensures s.rt.present <= s.rt.creator.Keys
  {
    assert Backed(s, id);
    assert SuccessBacked(s, id);
  }

  lemma WorkerStepKeepsInv(s: State, a: Action)
    requires Sides(s) && Enabled(s, a)
    requires WorkerAction(a)
    ensures Sides(Apply(s, a))
  {
    hide TablesOk, LogsOk, RuntimeOk;
    var rt := RuntimeEffect(s, a);
    RecordFacts(s, a.id);
    WorkerEffect(s, a, rt);
    MoreSessionsKeepActive(s, rt);
    RecordStepKeepsRuntime(s, rt, a.id);
  }

  lemma MoreSessionsKeepActive(s: State, rt: Runtime)
    requires RuntimeOk(s) && s.rt.present <= rt.present
    ensures forall c :: 0 <= c < |s.db.conversations| ==> ActiveKept(s.(rt := rt), c)
  {
    forall c | 0 <= c < |s.db.conversations| ensures ActiveKept(s.(rt := rt), c) {
      assert ActiveKept(s, c);
    }
  }

  predicate WorkerAction(a: Action) {
    a.MarkWorking? || a.CreateSession? || a.RecordCandidate? || a.MarkDurable? || a.CompleteWorker? || a.StopWorker?
  }

  lemma WorkerEffect(s: State, a: Action, rt: Runtime)
    requires WorkerAction(a) && RuntimeEnabled(s, a) && rt == RuntimeEffect(s, a)
    requires a.id in s.rt.reports ==> ReportOk(s.rt, a.id)
    requires Backed(s, a.id) && Agrees(s, a.id) && RecordOk(s.rt, a.id) && CandidateKept(s, a.id) && SuccessBacked(s, a.id)
    requires s.rt.present <= s.rt.creator.Keys
    ensures forall i :: i in rt.reports && i != a.id ==> i in s.rt.reports && rt.reports[i] == s.rt.reports[i]
    ensures a.id in rt.reports ==> ReportOk(rt, a.id)
    ensures var id := a.id;
            && id in rt.records && rt.records == s.rt.records[id := rt.records[id]]
            && s.rt.creator.Keys <= rt.creator.Keys && rt.present <= rt.creator.Keys && s.rt.present <= rt.present
            && (forall x :: x in rt.creator ==> if x in s.rt.creator then rt.creator[x] == s.rt.creator[x] else rt.creator[x] == id)
            && (forall x :: x in rt.present && x !in s.rt.present ==> rt.creator[x] == id)
            && Undecided(rt.records[id]) && Undecided(s.rt.records[id])
            && rt.records[id].source == s.rt.records[id].source && rt.records[id].baseline == s.rt.records[id].baseline
    ensures var after := s.(rt := rt);
            Backed(after, a.id) && Agrees(after, a.id) && RecordOk(rt, a.id) && CandidateKept(after, a.id) && SuccessBacked(after, a.id)
  {
  }

  /** The run that promoted a live conversation's active session created that session. */
  lemma ActiveIsOwned(s: State, c: ConversationId) returns (owner: RunId)
    requires Sides(s) && c < |s.db.conversations| && s.db.conversations[c].active.Some?
    ensures owner < |s.db.runs| && s.db.runs[owner].conversation == c && s.db.runs[owner].status == Succeeded
    ensures s.db.runs[owner].candidate == s.db.conversations[c].active
    ensures s.db.conversations[c].active.value in s.rt.creator && s.rt.creator[s.db.conversations[c].active.value] == owner
  {
    assert Chain(s.db, c);
    var l := s.db.conversations[c].lineage;
    owner := l[|l| - 1];
    assert CandidateOwned(s, owner);
  }

  /** Sessions that leave the disk are never a live conversation's active session. */
  lemma RemovalKeepsActive(s: State, rt: Runtime)
    requires Sides(s) && rt.creator == s.rt.creator
    requires forall x :: x in s.rt.present && x !in rt.present && x in s.rt.creator ==>
      s.rt.creator[x] >= |s.db.runs|
      || s.db.runs[s.rt.creator[x]].status != Succeeded
      || Purgeable(s.db, s.rt.creator[x])
    ensures forall c :: 0 <= c < |s.db.conversations| ==> ActiveKept(s.(rt := rt), c)
  {
    forall c | 0 <= c < |s.db.conversations| ensures ActiveKept(s.(rt := rt), c) {
      assert ActiveKept(s, c);
      if s.db.conversations[c].active.Some? {
        var owner := ActiveIsOwned(s, c);
      }
    }
  }

  lemma DropKeepsInv(s: State, id: RunId, x: SessionId)
    requires Sides(s) && Enabled(s, DropSession(id, x))
    ensures Sides(Apply(s, DropSession(id, x)))
  {
    hide TablesOk, LogsOk, RuntimeOk;
    var rt := s.rt.(present := s.rt.present - {x});
    RecordFacts(s, id);
    RemovalKeepsActive(s, rt);
    RecordStepKeepsRuntime(s, rt, id);
  }

  /** Aborting removes only what its own run created. */
  lemma AbortRemovesOwn(s: State, id: RunId, x: SessionId)
    requires Sides(s) && id in s.rt.records && Undecided(s.rt.records[id])
    requires x in s.rt.present && x !in Kept(s.rt, id)
    ensures x in s.rt.creator && s.rt.creator[x] == id
  {
    RecordFacts(s, id);
  }

  lemma AbortKeepsInv(s: State, a: Action)
    requires Sides(s) && Enabled(s, a)
    requires a.AbortInterrupted? || (a.Finalize? && a.decision == Abort && Undecided(s.rt.records[a.id]))
    ensures Sides(Apply(s, a))
  {
    hide TablesOk, LogsOk, RuntimeOk;
    var rt := RuntimeEffect(s, a);
    var id := a.id;
    RecordFacts(s, id);
    forall x | x in s.rt.present && x !in rt.present ensures x in s.rt.creator && s.rt.creator[x] == id {
      AbortRemovesOwn(s, id, x);
    }
    RemovalKeepsActive(s, rt);
    AbortEffect(s, a, rt);
    RecordStepKeepsRuntime(s, rt, id);
  }

  /** What an abort, whole or cut short, does to its own record. */
  lemma AbortEffect(s: State, a: Action, rt: Runtime)
    requires a.AbortInterrupted? || (a.Finalize? && a.decision == Abort)
    requires RuntimeEnabled(s, a) && rt == RuntimeEffect(s, a) && Undecided(s.rt.records[a.id])
    requires Backed(s, a.id) && Agrees(s, a.id) && RecordOk(s.rt, a.id) && CandidateKept(s, a.id) && SuccessBacked(s, a.id)
    requires s.rt.present <= s.rt.creator.Keys && (a.id in s.rt.reports ==> ReportOk(s.rt, a.id))
    ensures var id := a.id;
            && id in rt.records && rt.records == s.rt.records[id := rt.records[id]]
            && rt.creator == s.rt.creator && rt.reports == s.rt.reports && rt.present <= s.rt.present
            && rt.records[id].source == s.rt.records[id].source && rt.records[id].baseline == s.rt.records[id].baseline
            && (id in rt.reports ==> ReportOk(rt, id))
    ensures var after := s.(rt := rt);
            Backed(after, a.id) && Agrees(after, a.id) && RecordOk(rt, a.id) && CandidateKept(after, a.id) && SuccessBacked(after, a.id)
  {
  }

  lemma CommitDecisionKeepsInv(s: State, id: RunId)
    requires Sides(s) && Enabled(s, Finalize(id, Commit))
    ensures Sides(Apply(s, Finalize(id, Commit)))
  {
    var after := Apply(s, Finalize(id, Commit));
    assert Backed(s, id) && Agrees(s, id) && RecordOk(s.rt, id) && SuccessBacked(s, id);
    assert id in s.rt.reports ==> ReportOk(s.rt, id);
    if Undecided(s.rt.records[id]) {
      forall c | 0 <= c < |s.db.conversations| ensures ActiveKept(after, c) {
        assert ActiveKept(s, c);
      }
      RecordStepKeepsRuntime(s, after.rt, id);
    } else {
      assert after == s;
    }
  }

  lemma PurgeSessionKeepsInv(s: State, id: RunId)
    requires Sides(s) && Enabled(s, PurgeSession(id))
    ensures Sides(Apply(s, PurgeSession(id)))
  {
    hide TablesOk, LogsOk, RuntimeOk;
    var rt := s.rt.(present := s.rt.present - {s.db.runs[id].candidate.value});
    RunFacts(s, id);
    RemovalKeepsActive(s, rt);
    FewerSessionsKeepRuntime(s, rt);
  }

  lemma RunFacts(s: State, id: RunId)
    requires RuntimeOk(s) && id < |s.db.runs|
    ensures SuccessBacked(s, id) && CandidateOwned(s, id)
  {
  }

  lemma FewerSessionsKeepRuntime(s: State, rt: Runtime)
    requires RuntimeOk(s) && !Busy(s.rt) && rt == s.rt.(present := rt.present) && rt.present <= s.rt.present
    requires forall c :: 0 <= c < |s.db.conversations| ==> ActiveKept(s.(rt := rt), c)
    ensures RuntimeOk(s.(rt := rt))
  {
    var after := s.(rt := rt);
    forall i | i in rt.reports ensures ReportOk(rt, i) { assert ReportOk(s.rt, i); }
    forall i | i in rt.records
      ensures Backed(after, i) && Agrees(after, i) && RecordOk(rt, i) && CandidateKept(after, i) && BaselineCovers(rt, i)
    {
      assert Backed(s, i) && Agrees(s, i) && RecordOk(s.rt, i);
      assert !UndecidedFor(s.rt, i);
    }
    forall i | 0 <= i < |after.db.runs| ensures SuccessBacked(after, i) && CandidateOwned(after, i) {
      assert SuccessBacked(s, i) && CandidateOwned(s, i);
    }
  }

  lemma PurgeRecordKeepsInv(s: State, id: RunId)
    requires Sides(s) && Enabled(s, PurgeRecord(id))
    ensures Sides(Apply(s, PurgeRecord(id)))
  {
    hide TablesOk, LogsOk, RuntimeOk;
    FewerRecordsKeepRuntime(s, id);
  }

  lemma FewerRecordsKeepRuntime(s: State, id: RunId)
    requires RuntimeOk(s) && id < |s.db.runs| && s.db.runs[id].finalized
    ensures RuntimeOk(s.(rt := s.rt.(records := s.rt.records - {id}, reports := s.rt.reports - {id})))
  {
    var rt := s.rt.(records := s.rt.records - {id}, reports := s.rt.reports - {id});
    forall i | i in rt.reports ensures ReportOk(rt, i) { assert ReportOk(s.rt, i); }
    var after := s.(rt := rt);
    forall i | i in rt.records
      ensures Backed(after, i) && Agrees(after, i) && RecordOk(rt, i) && CandidateKept(after, i) && BaselineCovers(rt, i)
    {
      assert Backed(s, i) && Agrees(s, i) && RecordOk(s.rt, i) && CandidateKept(s, i) && BaselineCovers(s.rt, i);
    }
    forall i | 0 <= i < |after.db.runs| ensures SuccessBacked(after, i) && CandidateOwned(after, i) {
      assert SuccessBacked(s, i) && CandidateOwned(s, i);
    }
    forall c | 0 <= c < |after.db.conversations| ensures ActiveKept(after, c) {
      assert ActiveKept(s, c);
    }
    forall i, j | UndecidedFor(rt, i) && UndecidedFor(rt, j) ensures i == j {
      assert UndecidedFor(s.rt, i) && UndecidedFor(s.rt, j);
    }
  }

  lemma TableStepKeepsInv(s: State, a: Action)
    requires Sides(s) && Enabled(s, a) && TableAction(a)
    ensures Sides(Apply(s, a))
  {
    if RowAction(a) {
      RowStepKeepsTables(s, a);
      RowStepKeepsRuntime(s, a);
    } else if a.Claim? {
      ClaimKeepsInv(s, a.id);
    } else if a.CommitProducts? {
      CommitKeepsInv(s, a.id, a.candidate, a.artifacts);
    } else {
      UserTableStepKeepsInv(s, a);
    }
  }

  lemma FinalizeKeepsInv(s: State, id: RunId, decision: Decision)
    requires Sides(s) && Enabled(s, Finalize(id, decision))
    ensures Sides(Apply(s, Finalize(id, decision)))
  {
    if decision == Commit {
      CommitDecisionKeepsInv(s, id);
    } else if Undecided(s.rt.records[id]) {
      AbortKeepsInv(s, Finalize(id, Abort));
    } else {
      assert Apply(s, Finalize(id, Abort)) == s;
    }
  }

  lemma RuntimeStepKeepsInv(s: State, a: Action)
    requires Sides(s) && Enabled(s, a) && !TableAction(a) && !LeaseAction(a)
    ensures Sides(Apply(s, a))
  {
    if a.Reserve? {
      ReserveKeepsInv(s, a.id, a.listed);
    } else if a.Finalize? {
      FinalizeKeepsInv(s, a.id, a.decision);
    } else if a.AbortInterrupted? {
      AbortKeepsInv(s, a);
    } else if a.DropSession? {
      DropKeepsInv(s, a.id, a.session);
    } else if a.PurgeSession? {
      PurgeSessionKeepsInv(s, a.id);
    } else if a.PurgeRecord? {
      PurgeRecordKeepsInv(s, a.id);
    } else {
      WorkerStepKeepsInv(s, a);
    }
  }

  /** No attached run is finalized before its lease is over, and leases never outlive their runs' refs. */
  lemma StepKeepsLeases(s: State, a: Action)
    requires Inv(s) && Enabled(s, a)
    ensures LeasesOk(Apply(s, a))
  {
    hide TablesOk, LogsOk, RuntimeOk, LeasesOk;
    if TableAction(a) {
      if RowAction(a) {
        SideRowFacts(s, a.id);
        RowStepKeepsLeases(s, a);
      } else {
        SlotStepKeepsLeases(s, a);
      }
    } else {
      OtherStepKeepsLeases(s, a);
    }
  }

  lemma SideRowFacts(s: State, id: RunId)
    requires Sides(s) && id < |s.db.runs|
    ensures RowOk(s.db.runs[id]) && LogOk(s.db.runs[id])
  {
  }

  lemma OtherStepKeepsLeases(s: State, a: Action)
    requires LeasesOk(s) && !TableAction(a) && Enabled(s, a)
    ensures LeasesOk(Apply(s, a))
  {
    if LeaseAction(a) {
      MoreLeasesOk(s, LeaseEffect(s, a), a.id);
    } else {
      assert LeasesOk(s.(rt := RuntimeEffect(s, a)));
    }
  }

  lemma MoreLeasesOk(s: State, leases: map<RunId, Lease>, id: RunId)
    requires LeasesOk(s) && id < |s.db.runs| && s.db.runs[id].sandboxRef.Some?
    requires forall i :: i in leases <==> i in s.leases || i == id
    ensures LeasesOk(s.(leases := leases))
  {
  }

  lemma RowStepKeepsLeases(s: State, a: Action)
    requires LeasesOk(s) && RowAction(a) && Enabled(s, a) && RowOk(s.db.runs[a.id]) && LogOk(s.db.runs[a.id])
    ensures LeasesOk(Apply(s, a))
  {
    hide LogOk, RowOk;
    RowEffectEvolves(s.db, a);
    RowFinalization(s.db, a);
    RowChangeKeepsLeases(s, a.id, RowEffect(s.db, a).value);
  }

  /** A row is finalized by an acknowledgement, or without ever having had a lease. */
  lemma RowFinalization(db: Db, a: Action)
    requires RowAction(a) && a.id < |db.runs| && RowOk(db.runs[a.id]) && LogOk(db.runs[a.id])
    requires a.RecordEvent? ==> !ProductEvent(a.kind)
    requires RowEffect(db, a).Ok?
    ensures var r, q := db.runs[a.id], RowEffect(db, a).value;
            q.finalized && !r.finalized ==>
              (a.CancelQueued? && q.sandboxRef.None?)
              || (a.Acknowledge? && Terminal(r.status) && q.sandboxRef == r.sandboxRef)
  {
    var r := db.runs[a.id];
    RowEffectEvolves(db, a);
    if a.CancelQueued? && r.status == Queued {
      QueuedCancelledClosesLog(r);
    } else if a.Acknowledge? && Terminal(r.status) && !r.finalized {
      AcknowledgedClosesLog(r);
    }
  }

  lemma RowChangeKeepsLeases(s: State, id: RunId, q: Run)
    requires LeasesOk(s) && id < |s.db.runs| && Evolves(s.db.runs[id], q)
    requires q.finalized && !s.db.runs[id].finalized ==> q.sandboxRef.None? || id in s.leases
    ensures LeasesOk(s.(db := s.db.(runs := s.db.runs[id := q])))
  {
  }

  lemma SlotStepKeepsLeases(s: State, a: Action)
    requires LeasesOk(s) && TableAction(a) && !RowAction(a) && Enabled(s, a)
    ensures LeasesOk(Apply(s, a))
  {
  }

  /** Every step of the protocol keeps the invariant. */
  lemma StepKeepsInv(s: State, a: Action)
    requires Inv(s) && Enabled(s, a)
    ensures Inv(Apply(s, a))
  {
    hide TablesOk, LogsOk, RuntimeOk, LeasesOk;
    StepKeepsLeases(s, a);
    if TableAction(a) {
      TableStepKeepsInv(s, a);
    } else if LeaseAction(a) {
      LeaseStepKeepsSides(s, a);
    } else {
      RuntimeStepKeepsInv(s, a);
    }
  }

  lemma LeaseStepKeepsSides(s: State, a: Action)
    requires Sides(s) && LeaseAction(a) && Enabled(s, a)
    ensures Sides(Apply(s, a))
  {
    SidesIgnoreLeases(s, LeaseEffect(s, a));
  }

  lemma SidesIgnoreLeases(s: State, leases: map<RunId, Lease>)
    requires Sides(s)
    ensures Sides(s.(leases := leases))
  {
    var t := s.(leases := leases);
    forall i | i in t.rt.records ensures Backed(t, i) && Agrees(t, i) && CandidateKept(t, i) {
      assert Backed(s, i) && Agrees(s, i) && CandidateKept(s, i);
    }
    forall i | 0 <= i < |t.db.runs| ensures SuccessBacked(t, i) && CandidateOwned(t, i) {
      assert SuccessBacked(s, i) && CandidateOwned(s, i);
    }
    forall c | 0 <= c < |t.db.conversations| ensures ActiveKept(t, c) {
      assert ActiveKept(s, c);
    }
  }
}
