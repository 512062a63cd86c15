/** What users, workers and purges may do between two steps of the scheduler. */
module Interference {
  import opened Basics
  import opened RunState
  import opened RunStore
  import opened RunStoreProofs
  import opened Runtime
  import opened Protocol
  import opened ProtocolProofs
  import opened ProtocolTheorems

  /** A run under interference: a queued or a cancellable running run may be cancelled, nothing else. */
  predicate EnvRow(r: Run, q: Run) {
    || q == r
    || (r.status == Queued && q.status == Cancelled && q.finalized)
    || (r.status == Running && r.phase != Some(Publishing) && q == r.(status := Cancelled))
  }

  /** An execution under interference: its worker advances until it waits for a decision. */
  predicate EnvRecord(r: Record, q: Record) {
    && q.source == r.source && q.baseline == r.baseline
    && (r.lifecycle != Starting && r.lifecycle != Working ==> q == r)
    && (Undecided(r) ==> Undecided(q))
  }

  /** Records are never created by others, and records and reports vanish only for finalized runs. */
  predicate EnvRecords(s: State, t: State, id: RunId) {
    && (id in t.rt.records ==> id in s.rt.records)
    && (id in s.rt.records && id < |s.db.runs| && Active(s.db.runs[id]) ==>
          id in t.rt.records && EnvRecord(s.rt.records[id], t.rt.records[id]))
    && (id in s.rt.reports && id < |s.db.runs| && Active(s.db.runs[id]) ==>
          id in t.rt.reports && t.rt.reports[id] == s.rt.reports[id])
    && (UndecidedFor(t.rt, id) ==> UndecidedFor(s.rt, id))
  }

  /** Own steps on one run, seen from outside: no new outcome "succeeded", no new execution. */
  ghost predicate OwnRow(r: Run, q: Run) {
    && Evolves(r, q) && (Active(q) ==> Active(r))
    && (q.status == Succeeded ==> r.status == Succeeded)
  }

  predicate OwnRecord(s: State, t: State, id: RunId) {
    && (id in t.rt.records ==> id in s.rt.records)
    && (UndecidedFor(t.rt, id) ==> UndecidedFor(s.rt, id))
  }

  /** Between s and t the scheduler acted on run `own` only; everything else is interference. */
  ghost predicate Along(s: State, t: State, own: Option<RunId>) {
    && |s.db.runs| <= |t.db.runs|
    && (forall id :: 0 <= id < |s.db.runs| ==>
          if own == Some(id) then OwnRow(s.db.runs[id], t.db.runs[id]) else EnvRow(s.db.runs[id], t.db.runs[id]))
    && (forall id :: |s.db.runs| <= id < |t.db.runs| ==> !Active(t.db.runs[id]))
    && (forall id: RunId :: if own == Some(id) then OwnRecord(s, t, id) else EnvRecords(s, t, id))
  }

  ghost predicate Rely(s: State, t: State) {
    Along(s, t, None)
  }

  lemma EnvRowIsOwn(r: Run, q: Run)
    requires RowOk(r) && RowOk(q) && EnvRow(r, q)
    requires r.log <= q.log && q.conversation == r.conversation
    ensures OwnRow(r, q)
  {
  }

  lemma EnvThenOwn(p: Run, q: Run, r: Run)
    requires EnvRow(p, q) && Active(p)
    ensures OwnRow(p, q) && (OwnRow(q, r) ==> OwnRow(p, r))
  {
  }

  lemma EnvRowTransitive(p: Run, q: Run, r: Run)
    requires RowOk(p) && EnvRow(p, q) && EnvRow(q, r)
    ensures EnvRow(p, r)
  {
  }

  lemma AlongTransitive(s: State, t: State, u: State, own: Option<RunId>)
    requires Along(s, t, own) && Along(t, u, own)
    requires forall id :: 0 <= id < |s.db.runs| ==> RowOk(s.db.runs[id])
    ensures Along(s, u, own)
  {
    forall id | 0 <= id < |s.db.runs|
      ensures if own == Some(id) then OwnRow(s.db.runs[id], u.db.runs[id]) else EnvRow(s.db.runs[id], u.db.runs[id])
    {
      if own != Some(id) {
        EnvRowTransitive(s.db.runs[id], t.db.runs[id], u.db.runs[id]);
      }
    }
    forall id | |s.db.runs| <= id < |u.db.runs| ensures !Active(u.db.runs[id]) {
      if id < |t.db.runs| {
        assert !Active(t.db.runs[id]);
      }
    }
    forall id: RunId ensures if own == Some(id) then OwnRecord(s, u, id) else EnvRecords(s, u, id) {
      if own != Some(id) && id in s.rt.records && id < |s.db.runs| && Active(s.db.runs[id]) {
        assert EnvRow(s.db.runs[id], t.db.runs[id]);
      }
    }
  }

  /** Every environment step stays within the interference relation. */
  lemma EnvironmentStep(s: State, a: Action)
    requires Inv(s) && Environment(a) && Enabled(s, a)
    ensures Rely(s, Apply(s, a))
  {
    if TableAction(a) {
      EnvironmentTableStep(s, a);
    } else {
      assert RuntimeOk(s);
      EnvironmentRuntimeStep(s, a);
    }
  }

  lemma EnvironmentTableStep(s: State, a: Action)
    requires Inv(s) && Environment(a) && TableAction(a) && Enabled(s, a)
    ensures Rely(s, Apply(s, a))
  {
    hide Inv, RowOk, LogOk, RowEffect;
    if RowAction(a) {
      RowOfAction(s, a);
      RowFacts(s, a.id);
      CancelledRow(s.db, a);
      OneRowRely(s, a.id, RowEffect(s.db, a).value);
    }
  }

  lemma OneRowRely(s: State, id: RunId, q: Run)
    requires id < |s.db.runs| && EnvRow(s.db.runs[id], q)
    ensures Rely(s, s.(db := s.db.(runs := s.db.runs[id := q])))
  {
  }

  lemma CancelledRow(db: Db, a: Action)
    requires (a.CancelQueued? || a.UserCancel?) && a.id < |db.runs| && RowOk(db.runs[a.id]) && LogOk(db.runs[a.id])
    requires RowEffect(db, a).Ok?
    ensures EnvRow(db.runs[a.id], RowEffect(db, a).value)
  {
    hide LogOk, LogShape, ClosedLog;
    if a.CancelQueued? && db.runs[a.id].status == Queued {
      QueuedCancelledClosesLog(db.runs[a.id]);
    }
  }

  lemma EnvironmentRuntimeStep(s: State, a: Action)
    requires RuntimeOk(s) && Environment(a) && !TableAction(a) && Enabled(s, a)
    ensures Rely(s, Apply(s, a))
  {
    var t := s.(rt := RuntimeEffect(s, a));
    forall id: RunId ensures EnvRecords(s, t, id) {
      assert id in s.rt.reports ==> ReportOk(s.rt, id);
      EnvironmentRecordStep(s, a, id);
    }
  }

  lemma EnvironmentRecordStep(s: State, a: Action, id: RunId)
    requires Environment(a) && !TableAction(a) && RuntimeEnabled(s, a)
    requires id in s.rt.reports ==> ReportOk(s.rt, id)
    ensures EnvRecords(s, s.(rt := RuntimeEffect(s, a)), id)
  {
  }

  /** `own` was active at `base`, and since then only `own` has been acted upon. */
  ghost predicate Acting(base: State, t: State, own: RunId) {
    && Inv(base) && Inv(t)
    && own < |base.db.runs| && base.db.runs[own].status != Queued
    && Along(base, t, Some(own))
  }

  lemma ActingThroughInterference(base: State, s: State, t: State, own: RunId)
    requires Acting(base, s, own) && Rely(s, t) && Inv(t)
    ensures Acting(base, t, own)
  {
    hide Inv, LogOk, RowOk;
    assert OwnRow(base.db.runs[own], s.db.runs[own]) && EnvRow(s.db.runs[own], t.db.runs[own]);
    RowFacts(s, own);
    RowFacts(t, own);
    AllRowsOk(base);
    EnvRowIsOwn(s.db.runs[own], t.db.runs[own]);
    RelyIsAlong(s, t, own);
    AlongTransitive(base, s, t, Some(own));
  }

  lemma RelyIsAlong(s: State, t: State, own: RunId)
    requires Rely(s, t) && own < |s.db.runs| && OwnRow(s.db.runs[own], t.db.runs[own])
    ensures Along(s, t, Some(own))
  {
    forall id: RunId ensures if own == id then OwnRecord(s, t, id) else EnvRecords(s, t, id) {
      assert EnvRecords(s, t, id);
    }
  }

  lemma RowFacts(s: State, id: RunId)
    requires Inv(s) && id < |s.db.runs|
    ensures RowOk(s.db.runs[id]) && LogOk(s.db.runs[id])
  {
  }

  lemma AllRowsOk(s: State)
    requires Inv(s)
    ensures forall id :: 0 <= id < |s.db.runs| ==> RowOk(s.db.runs[id])
  {
  }

  predicate OwnAction(a: Action, own: RunId) {
    && (a.AttachRef? || a.RecordFailure? || a.Acknowledge? || a.Finalize? || a.AbortInterrupted? || a.StopWorker?
        || LeaseAction(a))
    && a.id == own
  }

  lemma OwnStep(s: State, a: Action, own: RunId)
    requires Enabled(s, a) && OwnAction(a, own) && own < |s.db.runs| && RowOk(s.db.runs[own]) && LogOk(s.db.runs[own])
    ensures Along(s, Apply(s, a), Some(own))
  {
    hide RowOk, LogOk, RowEffect, RuntimeEnabled, RuntimeEffect;
    if RowAction(a) {
      RowOfAction(s, a);
      RowEffectEvolves(s.db, a);
      OwnOutcome(s.db, a);
      OwnRowStep(s, RowEffect(s.db, a).value, own);
    } else if LeaseAction(a) {
      AlongReflexive(s, own);
    } else {
      OwnRuntimeStep(s, a, own);
    }
  }

  lemma OwnOutcome(db: Db, a: Action)
    requires RowAction(a) && a.id < |db.runs| && RowEffect(db, a).Ok? && RowStep(db.runs[a.id], RowEffect(db, a).value, a)
    ensures OwnRow(db.runs[a.id], RowEffect(db, a).value)
  {
    hide RowEffect, RowOk, LogOk;
  }

  lemma OwnRowStep(s: State, q: Run, own: RunId)
    requires own < |s.db.runs| && OwnRow(s.db.runs[own], q)
    ensures Along(s, s.(db := s.db.(runs := s.db.runs[own := q])), Some(own))
  {
  }

  lemma OwnRuntimeStep(s: State, a: Action, own: RunId)
    requires !TableAction(a) && !LeaseAction(a) && RuntimeEnabled(s, a) && OwnAction(a, own) && own < |s.db.runs|
    ensures Along(s, s.(rt := RuntimeEffect(s, a)), Some(own))
  {
    var t := s.(rt := RuntimeEffect(s, a));
    forall id: RunId ensures if own == id then OwnRecord(s, t, id) else EnvRecords(s, t, id) {}
  }

  /** A transaction on the row of `own`, or a decision about its execution. */
  lemma ActingThroughStep(base: State, s: State, a: Action, own: RunId)
    requires Acting(base, s, own) && Enabled(s, a) && OwnAction(a, own)
    ensures Acting(base, Apply(s, a), own)
  {
    var t := Apply(s, a);
    hide Inv, RowOk, LogOk, Enabled, Apply, Along;
    StepKeepsInv(s, a);
    ActingRuns(base, s, own);
    RowFacts(s, own);
    OwnStep(s, a, own);
    AllRowsOk(base);
    AlongTransitive(base, s, t, Some(own));
  }

  lemma ActingRuns(base: State, s: State, own: RunId)
    requires Acting(base, s, own)
    ensures own < |s.db.runs|
  {
    hide Inv;
  }

  /** An outcome that is already recorded stays. */
  lemma ActingKeepsOutcome(base: State, t: State, own: RunId)
    requires Acting(base, t, own) && Terminal(base.db.runs[own].status)
    ensures own < |t.db.runs| && t.db.runs[own].status == base.db.runs[own].status
  {
  }

  // ---- What each own step achieves ---------------------------------------------------------

  lemma FailureStep(s: State, id: RunId, status: Status)
    requires Inv(s) && id < |s.db.runs| && Active(s.db.runs[id]) && status in {Failed, Interrupted}
    ensures var a := Action.RecordFailure(id, status);
            && Enabled(s, a)
            && Apply(s, a).rt == s.rt && Apply(s, a).leases == s.leases && |Apply(s, a).db.runs| == |s.db.runs|
            && var q := Apply(s, a).db.runs[id];
               OwnRow(s.db.runs[id], q) && Active(q) && Terminal(q.status) && q.sandboxRef == s.db.runs[id].sandboxRef
  {
    var r := s.db.runs[id];
    assert RowOk(r) && LogOk(r);
    assert FailureRecorded(r, status) == Ok(if Terminal(r.status) then r else r.(status := status));
  }

  lemma AcknowledgeStep(s: State, id: RunId)
    requires Inv(s) && id < |s.db.runs| && Active(s.db.runs[id]) && Terminal(s.db.runs[id].status)
    requires Settled(s, id) && LeaseOver(s, id)
    ensures Enabled(s, Acknowledge(id))
    ensures var t := Apply(s, Acknowledge(id));
            && id < |t.db.runs| && t.db.runs[id].finalized
            && t.db.runs[id].sandboxRef == s.db.runs[id].sandboxRef
            && Evidence(t, id) == Evidence(s, id) && (LeaseLost(t, id) <==> LeaseLost(s, id))
            && (Finish(View(s.db.runs[id]), s.db.runs[id].status, Evidence(t, id)) == Ok(View(t.db.runs[id]))
                <==> !LeaseLost(t, id))
  {
    hide Inv, RowOk, LogOk, RowEffect;
    RowFacts(s, id);
    AcknowledgedRow(s.db.runs[id]);
    AcknowledgementEnabled(s, id);
    RowOfAction(s, Acknowledge(id));
    AcknowledgementEffect(s.db, id);
    AcknowledgeRefines(s, id);
  }

  lemma AcknowledgementEnabled(s: State, id: RunId)
    requires id < |s.db.runs| && Settled(s, id) && LeaseOver(s, id) && Acknowledged(s.db.runs[id]).Ok?
    ensures Enabled(s, Acknowledge(id))
  {
  }

  /** What an acknowledgement needs survives interference. */
  lemma SettledIsStable(s: State, t: State, id: RunId)
    requires Rely(s, t) && id < |s.db.runs|
    requires Active(s.db.runs[id]) && Terminal(s.db.runs[id].status) && Settled(s, id)
    ensures id < |t.db.runs| && t.db.runs[id] == s.db.runs[id] && Settled(t, id)
  {
    assert EnvRow(s.db.runs[id], t.db.runs[id]) && EnvRecords(s, t, id);
  }

  lemma DecisionStep(s: State, id: RunId, decision: Decision)
    requires Inv(s) && id < |s.db.runs| && Active(s.db.runs[id]) && Terminal(s.db.runs[id].status)
    requires decision == (if s.db.runs[id].status == Succeeded then Commit else Abort)
    requires id in s.rt.records && s.rt.records[id].lifecycle != Starting && s.rt.records[id].lifecycle != Working
    ensures var a := Finalize(id, decision);
            && Enabled(s, a)
            && Apply(s, a).db == s.db
            && id in Apply(s, a).rt.records
            && Apply(s, a).rt.records[id].lifecycle == (if decision == Commit then Committed else Aborted)
  {
    OutcomeIsNeverRejected(s, id);
  }

  /** Stopping a worker, by request or because the runtime restarts, leaves the execution waiting. */
  lemma StopStep(s: State, id: RunId)
    requires Enabled(s, StopWorker(id))
    ensures var t := Apply(s, StopWorker(id));
            && t.db == s.db
            && id in t.rt.records && t.rt.records[id].lifecycle == AwaitingFinalize
            && EnvRecords(s, t, id)
  {
  }

  lemma InterruptedStep(s: State, id: RunId, removed: set<SessionId>)
    requires Enabled(s, AbortInterrupted(id, removed))
    ensures Apply(s, AbortInterrupted(id, removed)).db == s.db
  {
  }

  lemma EnvRecordsTransitive(s: State, t: State, u: State, id: RunId)
    requires id < |s.db.runs| && id < |t.db.runs|
    requires EnvRow(s.db.runs[id], t.db.runs[id]) && EnvRecords(s, t, id) && EnvRecords(t, u, id)
    requires s.db.runs[id].status != Queued
    ensures EnvRecords(s, u, id)
  {
  }

  lemma AttachStep(s: State, id: RunId)
    requires Inv(s) && id < |s.db.runs| && Active(s.db.runs[id]) && s.db.runs[id].provider.Some?
    ensures Enabled(s, AttachRef(id))
    ensures var t := Apply(s, AttachRef(id));
            && t.rt == s.rt && id < |t.db.runs|
            && Active(t.db.runs[id]) && t.db.runs[id].sandboxRef.Some?
            && EnvRecords(s, t, id)
  {
    assert RowOk(s.db.runs[id]);
  }

  lemma AlongReflexive(s: State, own: RunId)
    ensures Along(s, s, Some(own))
  {
  }

  lemma RelyReflexive(s: State)
    ensures Rely(s, s)
  {
  }

  lemma EnvironmentKeepsLeases(s: State, a: Action)
    requires Environment(a) && Enabled(s, a)
    ensures Apply(s, a).leases == s.leases
  {
  }

  lemma BeginActing(s: State, snapshot: Run, own: RunId)
    requires Inv(s) && own < |s.db.runs| && Active(snapshot) && EnvRow(snapshot, s.db.runs[own])
    ensures Acting(s, s, own) && Active(s.db.runs[own]) && s.db.runs[own].provider == snapshot.provider
  {
    AlongReflexive(s, own);
  }

  // ---- The reconciliation loop -------------------------------------------------------------

  /** From run i on nothing but interference has happened since the rows were read. */
  ghost predicate Pending(retained: seq<Run>, t: State, i: nat, resources: set<RunId>) {
    && |retained| <= |t.db.runs|
    && (forall j :: i <= j < |retained| ==> EnvRow(retained[j], t.db.runs[j]))
    && (forall j :: |retained| <= j < |t.db.runs| ==> !Active(t.db.runs[j]))
    && (forall j: RunId :: UndecidedFor(t.rt, j) ==> j in resources)
  }

  lemma PendingAdvances(retained: seq<Run>, s: State, t: State, i: nat, resources: set<RunId>)
    requires Pending(retained, s, i, resources) && i < |retained| && Along(s, t, Some(i))
    requires forall j :: 0 <= j < |retained| ==> RowOk(retained[j])
    ensures Pending(retained, t, i + 1, resources)
    ensures forall j :: 0 <= j < i && !Active(s.db.runs[j]) ==> !Active(t.db.runs[j])
    ensures Active(t.db.runs[i]) ==> Active(s.db.runs[i])
  {
    forall j | i + 1 <= j < |retained| ensures EnvRow(retained[j], t.db.runs[j]) {
      EnvRowTransitive(retained[j], s.db.runs[j], t.db.runs[j]);
    }
    forall j: RunId | UndecidedFor(t.rt, j) ensures j in resources {
      assert if i == j then OwnRecord(s, t, j) else EnvRecords(s, t, j);
      assert UndecidedFor(s.rt, j);
    }
  }

  /** Neither interference nor repair ever fills the slot. */
  lemma AlongKeepsSlotFree(s: State, t: State, own: Option<RunId>)
    requires Along(s, t, own) && !SlotTaken(s.db)
    ensures !SlotTaken(t.db)
  {
    forall id | 0 <= id < |t.db.runs| ensures !Active(t.db.runs[id]) {
      if id < |s.db.runs| {
        assert !Active(s.db.runs[id]);
      }
    }
  }

  // ---- The forward path --------------------------------------------------------------------

  /** The claimed run `own` is the slot's, and no one else can be. */
  ghost predicate Driving(s: State, own: RunId) {
    && Inv(s) && own < |s.db.runs| && Active(s.db.runs[own])
  }

  /** Nothing in the slot but a claimed run stays the slot's through interference. */
  lemma DrivingThroughInterference(s: State, t: State, own: RunId)
    requires Driving(s, own) && Rely(s, t) && Inv(t)
    ensures Driving(t, own) && EnvRow(s.db.runs[own], t.db.runs[own]) && EnvRecords(s, t, own)
  {
    assert EnvRecords(s, t, own);
  }

  lemma DrivingStep(s: State, a: Action, own: RunId)
    requires Driving(s, own) && Enabled(s, a)
    requires a.RefreshSource? || a.BeginAcquire? || a.AttachRef? || a.SetPhase? || a.RecordEvent? || a.Reserve? || a.CommitProducts?
    requires a.id == own
    ensures Driving(Apply(s, a), own)
  {
    hide Inv, RowOk, LogOk, RowEffect, Reserved, ProductsCommitted;
    StepKeepsInv(s, a);
    if RowAction(a) {
      RowFacts(s, own);
      RowOfAction(s, a);
      RowEffectEvolves(s.db, a);
      DrivenRow(s.db, a);
    } else if a.CommitProducts? {
      CommitRow(s, own, a.candidate, a.artifacts);
    }
  }

  lemma DrivenRow(db: Db, a: Action)
    requires a.RefreshSource? || a.BeginAcquire? || a.AttachRef? || a.SetPhase? || a.RecordEvent?
    requires a.id < |db.runs| && Active(db.runs[a.id]) && RowEffect(db, a).Ok? && RowStep(db.runs[a.id], RowEffect(db, a).value, a)
    ensures Active(RowEffect(db, a).value)
  {
    hide RowEffect, RowOk, LogOk;
  }

  lemma CommitRow(s: State, own: RunId, candidate: SessionId, artifacts: seq<ArtifactId>)
    requires own < |s.db.runs| && Enabled(s, CommitProducts(own, candidate, artifacts))
    ensures var t := Apply(s, CommitProducts(own, candidate, artifacts));
            && own < |t.db.runs| && t.db.runs[own].status == Succeeded && !t.db.runs[own].finalized
            && t.db.runs[own].sandboxRef == s.db.runs[own].sandboxRef
  {
  }

  /** Once the driven run is finalized the slot is free. */
  lemma SlotFreeAfter(s: State, t: State, own: RunId)
    requires Driving(s, own) && Along(s, t, Some(own)) && !Active(t.db.runs[own])
    ensures !SlotTaken(t.db)
  {
    forall id | 0 <= id < |t.db.runs| ensures !Active(t.db.runs[id]) {
      if id < |s.db.runs| && id != own {
        assert !Active(s.db.runs[id]);
      }
    }
  }

  lemma OnlyDriven(s: State, own: RunId, other: RunId)
    requires Driving(s, own) && other != own && other < |s.db.runs|
    ensures !Active(s.db.runs[other])
  {
    hide RuntimeOk, LogsOk, LeasesOk, RowOk, Chains;
  }

  /** Reserving for the driven run cannot find the runtime busy with another one. */
  lemma ReserveIsFree(s: State, own: RunId, listed: set<SessionId>)
    requires Driving(s, own) && own !in s.rt.records && s.db.runs[own].sandboxRef.Some? && s.db.runs[own].status != Succeeded
    requires s.rt.present <= listed
    ensures Enabled(s, Reserve(own, listed))
  {
    hide Inv;
    forall id | id in s.rt.records ensures !Undecided(s.rt.records[id]) {
      InvRecordFacts(s, id);
      if id != own { OnlyDriven(s, own, id); }
    }
  }

  /** A row transaction of the driven run: its outcome and its execution stay. */
  lemma TransactionStep(s: State, a: Action, own: RunId)
    requires a.RefreshSource? || a.BeginAcquire? || a.AttachRef? || a.SetPhase? || a.RecordEvent?
    requires Driving(s, own) && Enabled(s, a) && a.id == own
    ensures var t := Apply(s, a);
            && Driving(t, own) && t.rt == s.rt
            && (t.db.runs[own].status == Succeeded <==> s.db.runs[own].status == Succeeded)
            && (if a.AttachRef? then t.db.runs[own].sandboxRef.Some? else t.db.runs[own].sandboxRef == s.db.runs[own].sandboxRef)
  {
    hide Inv, RowOk, LogOk;
    DrivingStep(s, a, own);
    RowFacts(s, own);
    RowOfAction(s, a);
    RowEffectEvolves(s.db, a);
  }

  lemma ReserveStep(s: State, own: RunId, listed: set<SessionId>)
    requires Driving(s, own) && Enabled(s, Reserve(own, listed))
    ensures Driving(Apply(s, Reserve(own, listed)), own) && Apply(s, Reserve(own, listed)).db == s.db
  {
    hide Inv;
    DrivingStep(s, Reserve(own, listed), own);
  }

  lemma CommitStep(s: State, own: RunId, candidate: SessionId, artifacts: seq<ArtifactId>)
    requires Driving(s, own) && Enabled(s, CommitProducts(own, candidate, artifacts))
    ensures var t := Apply(s, CommitProducts(own, candidate, artifacts));
            && Driving(t, own) && t.db.runs[own].status == Succeeded
            && t.db.runs[own].sandboxRef == s.db.runs[own].sandboxRef
  {
    hide Inv, Enabled, Apply;
    CommitRow(s, own, candidate, artifacts);
    DrivingStep(s, CommitProducts(own, candidate, artifacts), own);
  }

  // ---- Claiming ----------------------------------------------------------------------------

  /** A claimed run is driven from the start: nothing else was in the slot, no execution exists for it. */
  lemma ClaimStep(s: State, id: RunId)
    requires Inv(s) && Enabled(s, Claim(id))
    ensures var t := Apply(s, Claim(id));
            && Driving(t, id) && id !in t.rt.records
            && t.db.runs[id].status == Running && t.db.runs[id].sandboxRef.None?
  {
    hide Inv, TablesOk, LogsOk, RuntimeOk, LogOk;
    StepKeepsInv(s, Claim(id));
    RowFacts(s, id);
    if id in s.rt.records { InvRecordFacts(s, id); }
  }

  lemma InvRecordFacts(s: State, id: RunId)
    requires Inv(s) && id in s.rt.records
    ensures Backed(s, id)
  {
    hide TablesOk, LogsOk, LeasesOk, RuntimeOk;
    RecordFacts(s, id);
  }

  // ---- Cancellation ------------------------------------------------------------------------

  /** A run that is publishing or has another outcome is never cancelled afterwards. */
  lemma TooLateToCancel(s: State, t: State, id: RunId)
    requires Inv(t) && Onward(s, t) && id < |s.db.runs|
    requires s.db.runs[id].phase == Some(Publishing) || s.db.runs[id].status in {Succeeded, Failed, Interrupted}
    ensures t.db.runs[id].status != Cancelled
  {
    assert Evolves(s.db.runs[id], t.db.runs[id]) && RowOk(t.db.runs[id]);
  }
}
