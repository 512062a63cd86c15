/** What holds in every state that any interleaving of protocol steps can reach. */
module ProtocolTheorems {
  import opened Basics
  import opened RunState
  import opened RunStore
  import opened RunStoreProofs
  import opened Runtime
  import opened Protocol
  import opened ProtocolProofs

  // ---- Runs of the system ------------------------------------------------------------------

  predicate Legal(s: State, steps: seq<Action>)
    decreases |steps|
  {
    steps == [] || (Enabled(s, steps[0]) && Legal(Apply(s, steps[0]), steps[1..]))
  }

  function Replay(s: State, steps: seq<Action>): State
    requires Legal(s, steps)
    decreases |steps|
  {
    if steps == [] then s else Replay(Apply(s, steps[0]), steps[1..])
  }

  lemma {:induction false} LegalAppend(s: State, steps: seq<Action>, a: Action)
    requires Legal(s, steps) && Enabled(Replay(s, steps), a)
    ensures Legal(s, steps + [a]) && Replay(s, steps + [a]) == Apply(Replay(s, steps), a)
    decreases |steps|
  {
    if steps == [] {
      assert (steps + [a])[1..] == [];
    } else {
      LegalAppend(Apply(s, steps[0]), steps[1..], a);
      assert (steps + [a])[1..] == steps[1..] + [a];
    }
  }

  lemma InitialInv()
    ensures Inv(INITIAL)
  {
  }

  lemma {:induction false} RunKeepsInv(s: State, steps: seq<Action>)
    requires Inv(s) && Legal(s, steps)
    ensures Inv(Replay(s, steps))
    decreases |steps|
  {
    if steps != [] {
      StepKeepsInv(s, steps[0]);
      RunKeepsInv(Apply(s, steps[0]), steps[1..]);
    }
  }

  // ---- Safety ------------------------------------------------------------------------------

  /** A record decided "commit" belongs to a success with that candidate, one decided "abort" to a failure. */
  lemma DecisionAgreement(steps: seq<Action>, id: RunId)
    requires Legal(INITIAL, steps)
    ensures var s := Replay(INITIAL, steps);
            id in s.rt.records ==>
              && id < |s.db.runs|
              && (s.rt.records[id].lifecycle == Committed ==>
                    s.db.runs[id].status == Succeeded && s.rt.records[id].candidate == s.db.runs[id].candidate)
              && (s.rt.records[id].lifecycle == Aborted ==> s.db.runs[id].status in {Failed, Cancelled, Interrupted})
  {
    InitialInv();
    RunKeepsInv(INITIAL, steps);
    var s := Replay(INITIAL, steps);
    assert id in s.rt.records ==> Backed(s, id) && Agrees(s, id);
  }

  /** Once finalized_at is set the runtime holds no undecided execution for the run. */
  lemma FinalizedMeansSettled(steps: seq<Action>, id: RunId)
    requires Legal(INITIAL, steps)
    ensures var s := Replay(INITIAL, steps);
            id < |s.db.runs| && s.db.runs[id].finalized ==> !UndecidedFor(s.rt, id) && LeaseOver(s, id)
    ensures var s := Replay(INITIAL, steps);
            id in s.rt.records ==> id < |s.db.runs| && s.db.runs[id].provider == Some(Docker) && s.db.runs[id].sandboxRef == Some(DOCKER_REF)
  {
    InitialInv();
    RunKeepsInv(INITIAL, steps);
    var s := Replay(INITIAL, steps);
    assert id in s.rt.records ==> Backed(s, id);
    assert id < |s.db.runs| ==> RowOk(s.db.runs[id]);
  }

  /** Deciding a run by its recorded outcome never meets a conflicting decision. */
  lemma OutcomeIsNeverRejected(s: State, id: RunId)
    requires Inv(s) && id in s.rt.records
    requires s.rt.records[id].lifecycle != Starting && s.rt.records[id].lifecycle != Working
    requires Terminal(s.db.runs[id].status)
    requires s.db.runs[id].status == Succeeded ==> !s.db.runs[id].finalized
    ensures Enabled(s, Finalize(id, if s.db.runs[id].status == Succeeded then Commit else Abort))
  {
    hide TablesOk, LogsOk, RuntimeOk, LeasesOk;
    RecordFacts(s, id);
  }

  /** A success waiting for its acknowledgement is promoted, attached, and can be committed. */
  lemma SuccessIsRecoverable(s: State, id: RunId)
    requires Inv(s) && id < |s.db.runs|
    requires s.db.runs[id].status == Succeeded && !s.db.runs[id].finalized
    ensures var r := s.db.runs[id];
            && r.sandboxRef == Some(DOCKER_REF) && r.candidate.Some?
            && Addressable(s.db, r.conversation) && Live(s.db, r.conversation)
            && ConversationOf(s.db, id).active == r.candidate
            && r.candidate.value in s.rt.present
            && Decided(s.rt, id, Commit).Ok?
            && r.candidate.value in Decided(s.rt, id, Commit).value.present
  {
    var r := s.db.runs[id];
    assert RowOk(r) && SuccessBacked(s, id) && Protected(r);
    OutcomeIsNeverRejected(s, id);
    assert Addressable(s.db, r.conversation) && Chain(s.db, r.conversation);
    LatestSuccessIsActive(s.db, id);
    assert Addressable(s.db, r.conversation) && Live(s.db, r.conversation);
    assert ActiveKept(s, r.conversation);
  }

  /** While a success is unfinalized nothing can be promoted over it. */
  lemma LatestSuccessIsActive(db: Db, id: RunId)
    requires id < |db.runs| && db.runs[id].conversation < |db.conversations|
    requires Chain(db, db.runs[id].conversation)
    requires db.runs[id].status == Succeeded && !db.runs[id].finalized
    ensures ConversationOf(db, id).active == db.runs[id].candidate
  {
    var l := ConversationOf(db, id).lineage;
    assert id in l;
    var i :| 0 <= i < |l| && l[i] == id;
    assert i == |l| - 1;
  }

  // ---- Progress of a run -------------------------------------------------------------------

  /** A decision stays, or is purged after finalization; a finalized run never gets a new record. */
  predicate RecordOnward(s: State, t: State, id: RunId) {
    && (id in s.rt.records && !Undecided(s.rt.records[id]) ==>
          if id in t.rt.records then t.rt.records[id] == s.rt.records[id]
          else id < |t.db.runs| && t.db.runs[id].finalized)
    && (id < |s.db.runs| && s.db.runs[id].finalized && id !in s.rt.records ==> id !in t.rt.records)
  }

  /** Nothing undoes an outcome, a finalization, a logged event or a decision. */
  ghost predicate Onward(s: State, t: State) {
    && |s.db.runs| <= |t.db.runs|
    && (forall id :: 0 <= id < |s.db.runs| ==> Evolves(s.db.runs[id], t.db.runs[id]))
    && (forall id: RunId :: RecordOnward(s, t, id))
  }

  lemma OnwardTransitive(s: State, t: State, u: State)
    requires Onward(s, t) && Onward(t, u)
    ensures Onward(s, u)
  {
    forall id | 0 <= id < |s.db.runs| ensures Evolves(s.db.runs[id], u.db.runs[id]) {
      assert Evolves(s.db.runs[id], t.db.runs[id]) && Evolves(t.db.runs[id], u.db.runs[id]);
    }
    forall id: RunId ensures RecordOnward(s, u, id) {
      assert RecordOnward(s, t, id) && RecordOnward(t, u, id);
      assert id < |s.db.runs| ==> Evolves(s.db.runs[id], t.db.runs[id]);
      assert id < |t.db.runs| ==> Evolves(t.db.runs[id], u.db.runs[id]);
    }
  }

  lemma TableStepOnward(s: State, a: Action)
    requires LogsOk(s.db) && TablesOk(s.db) && Enabled(s, a) && TableAction(a)
    ensures Onward(s, Apply(s, a))
  {
    var db := TableEffect(s.db, a).value;
    TablesOnlyGrow(s.db, a);
    forall id | 0 <= id < |s.db.runs| ensures Evolves(s.db.runs[id], db.runs[id]) {
      assert RowOk(s.db.runs[id]) && LogOk(s.db.runs[id]);
      TableStepEvolves(s.db, a, id);
    }
    MoreTablesOnward(s, db);
  }

  lemma TablesOnlyGrow(db: Db, a: Action)
    requires TableAction(a) && TableEffect(db, a).Ok?
    ensures |db.runs| <= |TableEffect(db, a).value.runs|
  {
  }

  lemma MoreTablesOnward(s: State, db: Db)
    requires |s.db.runs| <= |db.runs|
    requires forall id :: 0 <= id < |s.db.runs| ==> Evolves(s.db.runs[id], db.runs[id])
    ensures Onward(s, s.(db := db))
  {
    forall id: RunId ensures RecordOnward(s, s.(db := db), id) {}
  }

  lemma TableStepEvolves(db: Db, a: Action, id: RunId)
    requires TableAction(a) && TableEffect(db, a).Ok? && id < |db.runs|
    requires RowOk(db.runs[id]) && LogOk(db.runs[id])
    requires a.RecordEvent? ==> !ProductEvent(a.kind)
    requires |db.runs| <= |TableEffect(db, a).value.runs|
    ensures Evolves(db.runs[id], TableEffect(db, a).value.runs[id])
  {
    hide TableEffect, RowEffect, LogOk;
    if RowAction(a) {
      RowOfEffect(db, a);
      if a.id == id { RowEffectEvolves(db, a); } else { OtherRowsStay(db, a, id); }
    } else {
      SlotStepEvolves(db, a, id);
    }
  }

  lemma SlotStepEvolves(db: Db, a: Action, id: RunId)
    requires TableAction(a) && !RowAction(a) && TableEffect(db, a).Ok? && id < |db.runs|
    requires db.runs[id].finalized ==> Terminal(db.runs[id].status)
    requires db.runs[id].status == Queued ==> db.runs[id].phase.None?
    requires |db.runs| <= |TableEffect(db, a).value.runs|
    ensures Evolves(db.runs[id], TableEffect(db, a).value.runs[id])
  {
  }

  lemma RuntimeStepOnward(s: State, a: Action)
    requires Enabled(s, a) && !TableAction(a) && !LeaseAction(a)
    ensures Onward(s, Apply(s, a))
  {
    var t := Apply(s, a);
    forall id: RunId ensures RecordOnward(s, t, id) {
      RuntimeStepRecord(s, a, id);
    }
  }

  lemma RuntimeStepRecord(s: State, a: Action, id: RunId)
    requires !TableAction(a) && !LeaseAction(a) && RuntimeEnabled(s, a)
    ensures RecordOnward(s, s.(rt := RuntimeEffect(s, a)), id)
  {
  }

  lemma StepOnward(s: State, a: Action)
    requires Inv(s) && Enabled(s, a)
    ensures Onward(s, Apply(s, a))
  {
    hide TablesOk, LogsOk, RuntimeOk, LeasesOk, Onward;
    if TableAction(a) {
      TableStepOnward(s, a);
    } else if LeaseAction(a) {
      LeasesOnward(s, LeaseEffect(s, a));
    } else {
      RuntimeStepOnward(s, a);
    }
  }

  lemma LeasesOnward(s: State, leases: map<RunId, Lease>)
    ensures Onward(s, s.(leases := leases))
  {
  }

  /** Over any run of the system: outcomes, finalizations, logs and decisions are never taken back. */
  lemma {:induction false} RunOnward(s: State, steps: seq<Action>)
    requires Inv(s) && Legal(s, steps)
    ensures Onward(s, Replay(s, steps))
    decreases |steps|
  {
    if steps != [] {
      var t := Apply(s, steps[0]);
      StepKeepsInv(s, steps[0]);
      StepOnward(s, steps[0]);
      RunOnward(t, steps[1..]);
      OnwardTransitive(s, t, Replay(t, steps[1..]));
    }
  }

  // ---- Refinement of the abstract life cycle -----------------------------------------------

  /** The provider no longer knew the run's lease, and no earlier release of it explains why. */
  predicate LeaseLost(s: State, id: RunId)
    requires id < |s.db.runs|
  {
    s.db.runs[id].sandboxRef.Some? && id in s.leases && s.leases[id] == Gone
  }

  /** The cleanup evidence that a state holds for a run. */
  function Evidence(s: State, id: RunId): Cleanup
    requires id < |s.db.runs|
  {
    Cleanup(
      if s.db.runs[id].sandboxRef.None? || LeaseLost(s, id) then Absent else if id in s.leases then Present else Unknown,
      if id in s.rt.records then Present else Absent,
      if id !in s.rt.records || Undecided(s.rt.records[id]) then None
      else Some(if s.rt.records[id].lifecycle == Committed then Commit else Abort),
      id in s.leases && s.leases[id] == Released)
  }

  /**
   Acknowledging is the abstract Finish step with the evidence that the control plane really holds, if
   and only if the lease was not lost: Finish refuses an absent lease once a ref is recorded.
   */
  lemma AcknowledgeRefines(s: State, id: RunId)
    requires Inv(s) && Enabled(s, Acknowledge(id)) && !s.db.runs[id].finalized
    ensures id < |Apply(s, Acknowledge(id)).db.runs| && Apply(s, Acknowledge(id)).db.runs[id].finalized
    ensures var r, q := s.db.runs[id], Apply(s, Acknowledge(id)).db.runs[id];
            && (Finish(View(r), r.status, Evidence(s, id)) == Ok(View(q)) <==> !LeaseLost(s, id))
            && (Refines(View(r), View(q), Evidence(s, id)) <==> !LeaseLost(s, id))
            && (!LeaseLost(s, id) ==> RuntimeDone(Evidence(s, id)) && LeaseDone(Evidence(s, id)))
  {
    hide TablesOk, LogsOk, RuntimeOk, LogOk;
    var r := s.db.runs[id];
    SideRowFacts(s, id);
    if id in s.rt.records { RecordFacts(s, id); }
    AcknowledgedRow(r);
    EvidenceFinishes(View(r), Evidence(s, id));
  }

  lemma AcknowledgedRow(r: Run)
    requires RowOk(r) && LogOk(r) && Terminal(r.status) && !r.finalized
    ensures Acknowledged(r).Ok? && View(Acknowledged(r).value) == View(r).(finalized := true)
  {
    AcknowledgedClosesLog(r);
  }

  lemma EvidenceFinishes(r: Row, e: Cleanup)
    requires Terminal(r.status) && !r.finalized && r.phase.Some?
    requires r.status == Cancelled ==> r.phase != Some(Publishing)
    requires r.status == Succeeded ==> r.phase == Some(Publishing) && r.sandboxRef.Some? && e.disposition == Some(Commit)
    requires if r.sandboxRef.None? then e.lease == Absent else e.lease == Absent || (e.lease == Present && e.released)
    requires e.runtime != Unknown && (e.runtime == Present <==> e.disposition.Some?)
    requires e.runtime == Present ==> r.sandboxRef.Some?
    requires e.disposition == Some(Commit) ==> r.status == Succeeded
    ensures var lost := r.sandboxRef.Some? && e.lease == Absent;
            var done := r.(finalized := true);
            && (Finish(r, r.status, e) == Ok(done) <==> !lost)
            && (Refines(r, done, e) <==> !lost)
            && (!lost ==> RuntimeDone(e) && LeaseDone(e))
  {
    assert Finish(r, r.status, e).Ok? ==> Finish(r, r.status, e) == Ok(r.(finalized := true));
  }

  function EvidenceFor(s: State, a: Action, id: RunId): Cleanup
    requires id < |s.db.runs|
  {
    if a.Acknowledge? then Evidence(s, id)
    else if a.CancelQueued? then Cleanup(Absent, Absent, None, false) else NO_EVIDENCE
  }

  /** The one kind of transaction that goes beyond the life cycle. */
  predicate FinalizesLost(s: State, a: Action, id: RunId)
    requires id < |s.db.runs|
  {
    a == Acknowledge(id) && !s.db.runs[id].finalized && LeaseLost(s, id)
  }

  /**
   A transaction moves a run by a stutter or a legal life-cycle step, unless and only unless it
   finalizes the run after its lease was lost.
   */
  lemma TableStepRefines(s: State, a: Action, id: RunId)
    requires Inv(s) && Enabled(s, a) && TableAction(a) && id < |s.db.runs|
    ensures |s.db.runs| <= |TableEffect(s.db, a).value.runs|
    ensures Refines(View(s.db.runs[id]), View(TableEffect(s.db, a).value.runs[id]), EvidenceFor(s, a, id))
            <==> !FinalizesLost(s, a, id)
  {
    hide TablesOk, LogsOk, RuntimeOk, LeasesOk, Evidence, LeaseLost, TableEffect, RowEffect, Refines;
    TablesOnlyGrow(s.db, a);
    if RowAction(a) {
      if a.id == id {
        RowOfEffect(s.db, a);
        RowActionRefines(s, a);
      } else {
        OtherRowsStay(s.db, a, id);
        StutterRefines(s.db.runs[id], EvidenceFor(s, a, id));
      }
    } else {
      SlotStepRefines(s, a, id);
    }
  }

  lemma RowOfEffect(db: Db, a: Action)
    requires RowAction(a) && TableEffect(db, a).Ok?
    ensures a.id < |db.runs| && RowEffect(db, a).Ok?
    ensures a.id < |TableEffect(db, a).value.runs| && TableEffect(db, a).value.runs[a.id] == RowEffect(db, a).value
  {
  }

  lemma OtherRowsStay(db: Db, a: Action, id: RunId)
    requires RowAction(a) && TableEffect(db, a).Ok? && id < |db.runs| && a.id != id
    ensures id < |TableEffect(db, a).value.runs| && TableEffect(db, a).value.runs[id] == db.runs[id]
  {
  }

  lemma SlotStepRefines(s: State, a: Action, id: RunId)
    requires TablesOk(s.db) && Enabled(s, a) && TableAction(a) && !RowAction(a) && id < |s.db.runs|
    ensures |s.db.runs| <= |TableEffect(s.db, a).value.runs|
    ensures Refines(View(s.db.runs[id]), View(TableEffect(s.db, a).value.runs[id]), NO_EVIDENCE)
  {
    if a.CommitProducts? && a.id == id {
      ProductsCommittedRefines(s.db, id, a.candidate, a.artifacts);
    } else if a.Claim? && a.id == id {
      assert Start(View(s.db.runs[id])) == Ok(View(TableEffect(s.db, a).value.runs[id]));
    }
  }

  lemma RowActionRefines(s: State, a: Action)
    requires Inv(s) && Enabled(s, a) && RowAction(a)
    ensures a.id < |s.db.runs| && RowEffect(s.db, a).Ok?
    ensures Refines(View(s.db.runs[a.id]), View(RowEffect(s.db, a).value), EvidenceFor(s, a, a.id))
            <==> !FinalizesLost(s, a, a.id)
  {
    hide TablesOk, LogsOk, RuntimeOk, LeasesOk, RowOk, LogOk, Refines, Evidence, LeaseLost, RowEffect;
    var r := s.db.runs[a.id];
    RowOfAction(s, a);
    SideRowFacts(s, a.id);
    if a.Acknowledge? {
      AcknowledgementEffect(s.db, a.id);
      if r.finalized { StutterRefines(r, Evidence(s, a.id)); } else { AcknowledgeRefines(s, a.id); }
    } else {
      QuietRowRefines(s.db, a);
    }
  }

  lemma AcknowledgementEffect(db: Db, id: RunId)
    requires id < |db.runs|
    ensures RowEffect(db, Acknowledge(id)) == Acknowledged(db.runs[id])
  {
  }

  lemma StutterRefines(r: Run, e: Cleanup)
    ensures Refines(View(r), View(r), e)
  {
  }

  lemma QuietRowRefines(db: Db, a: Action)
    requires RowAction(a) && !a.Acknowledge? && a.id < |db.runs| && RowOk(db.runs[a.id]) && LogOk(db.runs[a.id])
    requires a.RecordEvent? ==> !ProductEvent(a.kind)
    requires RowEffect(db, a).Ok?
    ensures Refines(View(db.runs[a.id]), View(RowEffect(db, a).value),
                    if a.CancelQueued? then Cleanup(Absent, Absent, None, false) else NO_EVIDENCE)
  {
    hide RowOk, LogOk;
    var r := db.runs[a.id];
    match a
    case CancelQueued(_) => QueuedCancelRefines(r);
    case UserCancel(_) => FailureRefines(r, Cancelled);
    case SetPhase(_, phase) => PhaseSetRefines(r, phase);
    case RecordEvent(_, sequence, kind) => RuntimeEventRefines(r, sequence, kind);
    case RecordFailure(_, status) => FailureRefines(r, status);
    case _ =>
  }

  /** While no provider loses a lease, every transaction of every run refines the life cycle. */
  lemma RefinesWithoutLoss(steps: seq<Action>, a: Action, id: RunId)
    requires Legal(INITIAL, steps) && forall k :: 0 <= k < |steps| ==> !steps[k].LoseLease?
    requires Enabled(Replay(INITIAL, steps), a) && TableAction(a) && id < |Replay(INITIAL, steps).db.runs|
    ensures var s := Replay(INITIAL, steps);
            && |s.db.runs| <= |TableEffect(s.db, a).value.runs|
            && Refines(View(s.db.runs[id]), View(TableEffect(s.db, a).value.runs[id]), EvidenceFor(s, a, id))
  {
    hide TablesOk, LogsOk, RuntimeOk, LeasesOk, Refines, Enabled, TableEffect, EvidenceFor;
    InitialInv();
    RunKeepsInv(INITIAL, steps);
    NoLossNoneGone(INITIAL, steps);
    TableStepRefines(Replay(INITIAL, steps), a, id);
  }

  predicate NoneGone(s: State) {
    forall id :: id in s.leases ==> s.leases[id] == Released
  }

  lemma {:induction false} NoLossNoneGone(s: State, steps: seq<Action>)
    requires NoneGone(s) && Legal(s, steps) && forall k :: 0 <= k < |steps| ==> !steps[k].LoseLease?
    ensures NoneGone(Replay(s, steps))
    decreases |steps|
  {
    if steps != [] {
      assert NoneGone(Apply(s, steps[0]));
      NoLossNoneGone(Apply(s, steps[0]), steps[1..]);
    }
  }

  // ---- The tables in every reachable state -------------------------------------------------

  /** One run at most in the slot; nothing protected in a deleted place; one chain per conversation. */
  lemma ReachableTables(steps: seq<Action>, i: RunId, j: RunId, c: ConversationId)
    requires Legal(INITIAL, steps)
    ensures var db := Replay(INITIAL, steps).db;
            && (i < |db.runs| && j < |db.runs| && Active(db.runs[i]) && Active(db.runs[j]) ==> i == j)
            && (i < |db.runs| && Protected(db.runs[i]) ==>
                  Addressable(db, db.runs[i].conversation) && Live(db, db.runs[i].conversation))
            && (c < |db.conversations| ==> Chain(db, c))
  {
    InitialInv();
    RunKeepsInv(INITIAL, steps);
  }

  /** The log a client can read is numbered 1..n and closed exactly by finalization. */
  lemma ReachableLog(steps: seq<Action>, id: RunId)
    requires Legal(INITIAL, steps)
    ensures var db := Replay(INITIAL, steps).db;
            id < |db.runs| ==>
              && Numbered(db.runs[id]) && LogShape(db.runs[id])
              && db.runs[id].messages == AssistantSequences(db.runs[id].log)
  {
    InitialInv();
    RunKeepsInv(INITIAL, steps);
    assert id < |Replay(INITIAL, steps).db.runs| ==> LogOk(Replay(INITIAL, steps).db.runs[id]);
  }
}
