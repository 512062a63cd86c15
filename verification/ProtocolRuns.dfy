/** Runs that the protocol really has: the worker's own order of events up to a success, and a lost lease. */
module ProtocolRuns {
  import opened Basics
  import opened RunState
  import opened RunStore
  import opened RunStoreProofs
  import opened Runtime
  import opened Protocol
  import opened ProtocolProofs
  import opened ProtocolTheorems

  lemma LegalStep(s: State, a: Action, rest: seq<Action>)
    requires Enabled(s, a) && Legal(Apply(s, a), rest)
    ensures Legal(s, [a] + rest) && Replay(s, [a] + rest) == Replay(Apply(s, a), rest)
  {
    assert ([a] + rest)[1..] == rest;
  }

  lemma {:induction false} LegalConcat(s: State, steps: seq<Action>, more: seq<Action>)
    requires Legal(s, steps) && Legal(Replay(s, steps), more)
    ensures Legal(s, steps + more) && Replay(s, steps + more) == Replay(Replay(s, steps), more)
    decreases |steps|
  {
    hide Enabled, Apply;
    if steps == [] {
      assert steps + more == more;
    } else {
      LegalConcat(Apply(s, steps[0]), steps[1..], more);
      assert steps + more == [steps[0]] + (steps[1..] + more);
      LegalStep(s, steps[0], steps[1..] + more);
    }
  }

  lemma FourSteps(s: State, a: Action, b: Action, c: Action, d: Action)
    requires Enabled(s, a)
    requires Enabled(Apply(s, a), b)
    requires Enabled(Apply(Apply(s, a), b), c)
    requires Enabled(Apply(Apply(Apply(s, a), b), c), d)
    ensures Legal(s, [a, b, c, d])
    ensures Replay(s, [a, b, c, d]) == Apply(Apply(Apply(Apply(s, a), b), c), d)
  {
    hide Enabled, Apply;
    var t := Apply(Apply(Apply(s, a), b), c);
    LegalStep(t, d, []);
    LegalStep(Apply(Apply(s, a), b), c, [d]);
    LegalStep(Apply(s, a), b, [c, d]);
    LegalStep(s, a, [b, c, d]);
    assert [d] + [] == [d] && [c] + [d] == [c, d] && [b] + [c, d] == [b, c, d] && [a] + [b, c, d] == [a, b, c, d];
  }

  /**
   The worker announces its candidate before the transcript exists (candidate.created), writes the
   transcript, and then asks for durability (candidate.durable): in every state with a running worker
   these steps are legal, and the completion reports the candidate.
   */
  lemma TranscriptAfterCandidate(s: State, id: RunId, x: SessionId)
    requires Inv(s) && id in s.rt.records && s.rt.records[id].lifecycle == Working && s.rt.records[id].candidate.None?
    requires x !in s.rt.creator && x !in s.rt.records[id].baseline && s.rt.records[id].source != Some(x)
    ensures var steps := [RecordCandidate(id, x), CreateSession(id, x), MarkDurable(id), CompleteWorker(id)];
            && Legal(s, steps)
            && var t := Replay(s, steps);
               && id in t.rt.reports && t.rt.reports[id] == x && x in t.rt.present
               && id in t.rt.records && t.rt.records[id].lifecycle == AwaitingFinalize
               && t.rt.records[id].durable && t.rt.records[id].candidate == Some(x)
  {
    hide Legal, Replay, Inv, Enabled, Apply;
    InvRecord(s, id);
    AnnounceThenWrite(s, id, x);
    var t := Apply(Apply(s, RecordCandidate(id, x)), CreateSession(id, x));
    DurableThenComplete(t, id, x);
    FourSteps(s, RecordCandidate(id, x), CreateSession(id, x), MarkDurable(id), CompleteWorker(id));
  }

  lemma InvRecord(s: State, id: RunId)
    requires Inv(s) && id in s.rt.records
    ensures id < |s.db.runs|
  {
    hide TablesOk, LogsOk, RuntimeOk, LeasesOk;
    RecordFacts(s, id);
  }

  /** The candidate is recorded and its transcript written, but not yet durable. */
  predicate Written(t: State, id: RunId, x: SessionId) {
    && id < |t.db.runs| && id in t.rt.records
    && t.rt.records[id].lifecycle == Working && t.rt.records[id].candidate == Some(x)
    && x !in t.rt.records[id].baseline && t.rt.records[id].source != Some(x)
    && x in t.rt.present && x in t.rt.creator && t.rt.creator[x] == id
  }

  lemma AnnounceThenWrite(s: State, id: RunId, x: SessionId)
    requires id < |s.db.runs| && id in s.rt.records
    requires s.rt.records[id].lifecycle == Working && s.rt.records[id].candidate.None?
    requires x !in s.rt.creator && x !in s.rt.records[id].baseline && s.rt.records[id].source != Some(x)
    ensures Enabled(s, RecordCandidate(id, x)) && Enabled(Apply(s, RecordCandidate(id, x)), CreateSession(id, x))
    ensures Written(Apply(Apply(s, RecordCandidate(id, x)), CreateSession(id, x)), id, x)
  {
  }

  lemma DurableThenComplete(t: State, id: RunId, x: SessionId)
    requires Written(t, id, x)
    ensures Enabled(t, MarkDurable(id)) && Enabled(Apply(t, MarkDurable(id)), CompleteWorker(id))
    ensures var u := Apply(Apply(t, MarkDurable(id)), CompleteWorker(id));
            && id in u.rt.reports && u.rt.reports[id] == x && x in u.rt.present
            && id in u.rt.records && u.rt.records[id].lifecycle == AwaitingFinalize
            && u.rt.records[id].durable && u.rt.records[id].candidate == Some(x)
  {
  }

  // ---- A whole run -------------------------------------------------------------------------

  const SUBMITTED := [CreateProject, CreateConversation(0), Submit(0), Claim(0)]
  const ATTACHED := [RefreshSource(0), BeginAcquire(0), AttachRef(0), Reserve(0, {})]

  function Announced(x: SessionId): seq<Action> {
    [MarkWorking(0), RecordCandidate(0, x), RecordEvent(0, 1, PhaseChanged(Agent)), CreateSession(0, x)]
  }

  const COMPLETED := [MarkDurable(0), CompleteWorker(0), RecordEvent(0, 2, EventKind.AgentCompleted), SetPhase(0, Publishing)]

  function Promoted(x: SessionId): seq<Action> {
    [CommitProducts(0, x, []), Finalize(0, Commit), ReleaseLease(0), Acknowledge(0)]
  }

  const ATTACHED_RUN :=
    Run(0, Running, Some(Preparing), false, None, None, Some(Docker), Some(DOCKER_REF), false, [], [], [], 1)

  const ONE_CONVERSATION := [Conversation(0, false, None, [])]

  const AGENT_RUN := ATTACHED_RUN.(phase := Some(Agent), nextSequence := 2, log := [Event(1, Some(1), PhaseChanged(Agent), None)])

  const REPORTED_RUN := AGENT_RUN.(nextSequence := 3, log := AGENT_RUN.log + [Event(2, Some(2), EventKind.AgentCompleted, None)])

  const PUBLISHING_RUN := REPORTED_RUN.(phase := Some(Publishing), nextSequence := 4,
    log := REPORTED_RUN.log + [Event(3, None, PhaseChanged(Publishing), Some(PhaseKey(Publishing)))])

  /** The only row moves on. */
  lemma OnlyRowMoves(s: State, a: Action, q: Run)
    requires |s.db.runs| == 1 && RowAction(a) && a.id == 0 && Discipline(s, a)
    requires RowEffect(s.db, a) == Ok(q)
    ensures Enabled(s, a) && Apply(s, a) == s.(db := s.db.(runs := [q]))
  {
    assert s.db.runs[0 := q] == [q];
  }

  function Attached(): State {
    State(Db([ATTACHED_RUN], ONE_CONVERSATION, [false]),
          Runtime(map[0 := Record(None, None, false, {}, Starting)], map[], {}, map[]), map[])
  }

  const CLAIMED := State(Db([ATTACHED_RUN.(provider := None, sandboxRef := None)], ONE_CONVERSATION, [false]), INITIAL.rt, map[])

  lemma SubmitAndClaim()
    ensures Legal(INITIAL, SUBMITTED) && Replay(INITIAL, SUBMITTED) == CLAIMED
  {
    hide Legal, Replay;
    FourSteps(INITIAL, SUBMITTED[0], SUBMITTED[1], SUBMITTED[2], SUBMITTED[3]);
  }

  lemma SubmitAndAttach()
    ensures Legal(INITIAL, SUBMITTED + ATTACHED)
    ensures Replay(INITIAL, SUBMITTED + ATTACHED) == Attached()
  {
    hide Legal, Replay;
    SubmitAndClaim();
    FourSteps(CLAIMED, ATTACHED[0], ATTACHED[1], ATTACHED[2], ATTACHED[3]);
    LegalConcat(INITIAL, SUBMITTED, ATTACHED);
  }

  function Agentic(x: SessionId): State {
    State(Db([AGENT_RUN], ONE_CONVERSATION, [false]),
          Runtime(map[0 := Record(None, Some(x), false, {}, Working)], map[x := 0], {x}, map[]), map[])
  }

  lemma AnnounceAndWrite(x: SessionId)
    ensures Legal(Attached(), Announced(x)) && Replay(Attached(), Announced(x)) == Agentic(x)
  {
    hide Legal, Replay;
    var l := Announced(x);
    var s := Apply(Attached(), l[0]);
    var t := Apply(s, l[1]);
    assert t == Attached().(rt := Runtime(map[0 := Record(None, Some(x), false, {}, Working)], map[x := 0], {}, map[]));
    assert ATTACHED_RUN.log + AGENT_RUN.log == AGENT_RUN.log;
    OnlyRowMoves(t, l[2], AGENT_RUN);
    FourSteps(Attached(), l[0], l[1], l[2], l[3]);
  }

  function Publishable(x: SessionId): State {
    State(Db([PUBLISHING_RUN], ONE_CONVERSATION, [false]),
          Runtime(map[0 := Record(None, Some(x), true, {}, AwaitingFinalize)], map[x := 0], {x}, map[0 := x]), map[])
  }

  lemma CompleteAndPublish(x: SessionId)
    ensures Legal(Agentic(x), COMPLETED) && Replay(Agentic(x), COMPLETED) == Publishable(x)
  {
    hide Legal, Replay;
    var s := Apply(Agentic(x), COMPLETED[0]);
    var t := Apply(s, COMPLETED[1]);
    assert t == Agentic(x).(rt := Publishable(x).rt);
    OnlyRowMoves(t, COMPLETED[2], REPORTED_RUN);
    var u := Apply(t, COMPLETED[2]);
    OnlyRowMoves(u, COMPLETED[3], PUBLISHING_RUN);
    FourSteps(Agentic(x), COMPLETED[0], COMPLETED[1], COMPLETED[2], COMPLETED[3]);
  }

  lemma PromoteAndAcknowledge(x: SessionId)
    ensures Legal(Publishable(x), Promoted(x))
    ensures var t := Replay(Publishable(x), Promoted(x));
            && |t.db.runs| == 1 && t.db.runs[0].status == Succeeded && t.db.runs[0].finalized
            && t.db.runs[0].candidate == Some(x)
            && |t.db.conversations| == 1 && t.db.conversations[0].active == Some(x)
            && 0 in t.rt.records && t.rt.records[0].lifecycle == Lifecycle.Committed
  {
    hide Legal, Replay;
    var l := Promoted(x);
    FourSteps(Publishable(x), l[0], l[1], l[2], l[3]);
  }

  /** From nothing to an acknowledged success, with the transcript written after its announcement. */
  lemma SuccessfulRun(x: SessionId)
    ensures var steps := SUBMITTED + ATTACHED + Announced(x) + COMPLETED + Promoted(x);
            && Legal(INITIAL, steps)
            && var t := Replay(INITIAL, steps);
               && |t.db.runs| == 1 && t.db.runs[0].status == Succeeded && t.db.runs[0].finalized
               && t.db.runs[0].candidate == Some(x)
               && |t.db.conversations| == 1 && t.db.conversations[0].active == Some(x)
               && 0 in t.rt.records && t.rt.records[0].lifecycle == Lifecycle.Committed
  {
    hide Legal, Replay, Apply, Enabled;
    SubmitAndAttach();
    AnnounceAndWrite(x);
    CompleteAndPublish(x);
    PromoteAndAcknowledge(x);
    LegalConcat(INITIAL, SUBMITTED + ATTACHED, Announced(x));
    LegalConcat(INITIAL, SUBMITTED + ATTACHED + Announced(x), COMPLETED);
    LegalConcat(INITIAL, SUBMITTED + ATTACHED + Announced(x) + COMPLETED, Promoted(x));
  }

  // ---- A run whose lease is lost -----------------------------------------------------------

  const INTERRUPTED := [RefreshSource(0), BeginAcquire(0), AttachRef(0), Action.RecordFailure(0, Interrupted)]

  /** Attached, interrupted, and unknown to the provider: what a provider that forgets its leases leaves. */
  const FORGOTTEN :=
    State(Db([ATTACHED_RUN.(status := Interrupted)], ONE_CONVERSATION, [false]), INITIAL.rt, map[0 := Gone])

  lemma ForgottenIsReached()
    ensures Legal(INITIAL, SUBMITTED + INTERRUPTED + [LoseLease(0)])
    ensures Replay(INITIAL, SUBMITTED + INTERRUPTED + [LoseLease(0)]) == FORGOTTEN
  {
    hide Legal, Replay, Enabled, Apply;
    SubmitAndClaim();
    AttachAndInterrupt();
    LegalConcat(INITIAL, SUBMITTED, INTERRUPTED);
    Forget();
    NoSteps(FORGOTTEN);
    LegalStep(FORGOTTEN.(leases := map[]), LoseLease(0), []);
    assert [LoseLease(0)] + [] == [LoseLease(0)];
    LegalConcat(INITIAL, SUBMITTED + INTERRUPTED, [LoseLease(0)]);
  }

  lemma AttachAndInterrupt()
    ensures Legal(CLAIMED, INTERRUPTED) && Replay(CLAIMED, INTERRUPTED) == FORGOTTEN.(leases := map[])
  {
    hide Legal, Replay;
    FourSteps(CLAIMED, INTERRUPTED[0], INTERRUPTED[1], INTERRUPTED[2], INTERRUPTED[3]);
  }

  lemma Forget()
    ensures var s := FORGOTTEN.(leases := map[]); Enabled(s, LoseLease(0)) && Apply(s, LoseLease(0)) == FORGOTTEN
  {
  }

  lemma NoSteps(s: State)
    ensures Legal(s, []) && Replay(s, []) == s
  {
  }

  /** The code takes the step that its life cycle refuses: a legal run ends with it. */
  lemma LostLeaseRun()
    ensures Legal(INITIAL, SUBMITTED + INTERRUPTED + [LoseLease(0)])
    ensures Legal(INITIAL, SUBMITTED + INTERRUPTED + [LoseLease(0)] + [Acknowledge(0)])
    ensures var s := Replay(INITIAL, SUBMITTED + INTERRUPTED + [LoseLease(0)]);
            && |s.db.runs| == 1 && Enabled(s, Acknowledge(0)) && FinalizesLost(s, Acknowledge(0), 0)
            && |Apply(s, Acknowledge(0)).db.runs| == 1 && Apply(s, Acknowledge(0)).db.runs[0].finalized
            && !Refines(View(s.db.runs[0]), View(Apply(s, Acknowledge(0)).db.runs[0]), EvidenceFor(s, Acknowledge(0), 0))
  {
    hide Legal, Replay;
    ForgottenIsReached();
    ForgottenIsAcknowledged();
    NoSteps(Apply(FORGOTTEN, Acknowledge(0)));
    LegalStep(FORGOTTEN, Acknowledge(0), []);
    assert [Acknowledge(0)] + [] == [Acknowledge(0)];
    LegalConcat(INITIAL, SUBMITTED + INTERRUPTED + [LoseLease(0)], [Acknowledge(0)]);
  }

  lemma ForgottenIsAcknowledged()
    ensures var s := FORGOTTEN;
            && Enabled(s, Acknowledge(0)) && FinalizesLost(s, Acknowledge(0), 0)
            && |Apply(s, Acknowledge(0)).db.runs| == 1 && Apply(s, Acknowledge(0)).db.runs[0].finalized
            && !Refines(View(s.db.runs[0]), View(Apply(s, Acknowledge(0)).db.runs[0]), EvidenceFor(s, Acknowledge(0), 0))
  {
    var r := FORGOTTEN.db.runs[0];
    AcknowledgedRow(r);
    OnlyRowMoves(FORGOTTEN, Acknowledge(0), Acknowledged(r).value);
  }
}
