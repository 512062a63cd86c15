/** What every transaction on the tables keeps, and how it refines the abstract life cycle. */
module RunStoreProofs {
  import opened Basics
  import opened RunState
  import opened RunStore

  // ---- The log -----------------------------------------------------------------------------

  /** An appended event goes last with the next number, unless its runtime sequence or key is already there. */
  lemma AppendExtends(r: Run, runtimeSequence: Option<nat>, kind: EventKind, key: Option<DedupeKey>)
    requires Numbered(r)
    requires AppendEvent(r, runtimeSequence, kind, key).Ok?
    ensures var q := AppendEvent(r, runtimeSequence, kind, key).value;
            && Numbered(q)
            && q == r.(log := q.log, nextSequence := q.nextSequence)
            && q.log ==
                 (if (runtimeSequence.Some? && HasRuntimeSequence(r.log, runtimeSequence.value)) || (key.Some? && HasKey(r.log, key.value))
                  then r.log else r.log + [Event(|r.log| + 1, runtimeSequence, kind, key)])
  {
    hide Numbered;
    NumberedMore(r, Event(|r.log| + 1, runtimeSequence, kind, key));
  }

  lemma NumberedMore(r: Run, e: Event)
    requires Numbered(r) && e.sequence == |r.log| + 1
    ensures r.nextSequence == |r.log| + 1
    ensures (e.runtimeSequence.Some? ==> !HasRuntimeSequence(r.log, e.runtimeSequence.value))
            && (e.dedupeKey.Some? ==> !HasKey(r.log, e.dedupeKey.value)) ==>
              Numbered(r.(log := r.log + [e], nextSequence := r.nextSequence + 1))
  {
  }

  lemma NewKeyExtends(r: Run, kind: EventKind, key: DedupeKey)
    requires Numbered(r) && !HasKey(r.log, key) && ValidEvent(r, kind)
    ensures var out := AppendEvent(r, None, kind, Some(key));
            && out.Ok?
            && Numbered(out.value)
            && out.value == r.(log := r.log + [Event(|r.log| + 1, None, kind, Some(key))], nextSequence := r.nextSequence + 1)
  {
    AppendExtends(r, None, kind, Some(key));
  }

  /** The log that publishing the artifacts appends. */
  ghost predicate PublishedAfter(before: seq<Event>, after: seq<Event>, artifacts: seq<ArtifactId>) {
    && |after| == |before| + |artifacts|
    && before <= after
    && forall i :: 0 <= i < |artifacts| ==>
         after[|before| + i] == Event(|before| + i + 1, None, ArtifactPublished(artifacts[i]), Some(ArtifactKey(artifacts[i])))
  }

  lemma KeyIsNew(before: seq<Event>, after: seq<Event>, artifacts: seq<ArtifactId>, key: DedupeKey)
    requires NoProducts(before) && PublishedAfter(before, after, artifacts)
    requires !key.PhaseKey?
    requires key.ArtifactKey? ==> key.artifact !in artifacts
    ensures !HasKey(after, key)
  {
    forall i | 0 <= i < |after| ensures after[i].dedupeKey != Some(key) {
      if i < |before| {
        assert PlainEvent(before[i]) && after[i] == before[i];
      } else {
        assert after[|before| + (i - |before|)].dedupeKey == Some(ArtifactKey(artifacts[i - |before|]));
      }
    }
  }

  /** The artifact events of an acknowledgement extend the log by exactly the artifacts, in order. */
  lemma {:induction false} PublishAllExtends(r: Run, artifacts: seq<ArtifactId>)
    requires Numbered(r) && NoProducts(r.log) && Distinct(artifacts)
    ensures var out := PublishAll(r, artifacts);
            && out.Ok?
            && Numbered(out.value)
            && out.value == r.(log := out.value.log, nextSequence := out.value.nextSequence)
            && PublishedAfter(r.log, out.value.log, artifacts)
            && AssistantSequences(out.value.log) == AssistantSequences(r.log)
  {
    if artifacts != [] {
      var n := |artifacts| - 1;
      var rest := artifacts[..n];
      PublishAllExtends(r, rest);
      var q := PublishAll(r, rest).value;
      assert artifacts[n] !in rest;
      KeyIsNew(r.log, q.log, rest, ArtifactKey(artifacts[n]));
      NewKeyExtends(q, ArtifactPublished(artifacts[n]), ArtifactKey(artifacts[n]));
      PublishOneMore(r.log, q.log, rest, artifacts[n]);
      assert rest + [artifacts[n]] == artifacts;
    }
  }

  lemma PublishOneMore(before: seq<Event>, mid: seq<Event>, artifacts: seq<ArtifactId>, a: ArtifactId)
    requires PublishedAfter(before, mid, artifacts)
    ensures var after := mid + [Event(|mid| + 1, None, ArtifactPublished(a), Some(ArtifactKey(a)))];
            PublishedAfter(before, after, artifacts + [a]) && AssistantSequences(after) == AssistantSequences(mid)
  {
    var after := mid + [Event(|mid| + 1, None, ArtifactPublished(a), Some(ArtifactKey(a)))];
    assert after[..|after| - 1] == mid;
    assert mid <= after;
  }

  /** Acknowledging finalizes the row and closes its log; nothing else changes. */
  lemma AcknowledgedClosesLog(r: Run)
    requires RowOk(r) && LogOk(r) && Terminal(r.status) && !r.finalized
    ensures var done := Acknowledged(r);
            && done.Ok?
            && done.value == r.(finalized := true, log := done.value.log, nextSequence := done.value.nextSequence)
            && LogOk(done.value)
            && r.log <= done.value.log
  {
    var open := r.(finalized := true);
    PublishAllExtends(open, Published(r));
    var q := PublishAll(open, Published(r)).value;
    KeyIsNew(r.log, q.log, Published(r), TerminalKey(r.status));
    NewKeyExtends(q, RunTerminal(r.status), TerminalKey(r.status));
    CloseLog(r.log, q.log, Published(r), r.status, Acknowledged(r).value.log);
  }

  lemma CloseLog(before: seq<Event>, published: seq<Event>, artifacts: seq<ArtifactId>, outcome: Status, closed: seq<Event>)
    requires NoProducts(before) && PublishedAfter(before, published, artifacts)
    requires |closed| == |published| + 1 && closed[..|published|] == published
    requires closed[|published|].kind == RunTerminal(outcome)
    ensures ClosedLog(closed, artifacts, outcome) && before <= closed
    ensures AssistantSequences(closed) == AssistantSequences(published)
  {
    assert closed[..|before|] == before;
    forall i | 0 <= i < |artifacts| ensures closed[|before| + i].kind == ArtifactPublished(artifacts[i]) {
      assert closed[|before| + i] == published[|before| + i];
    }
    assert closed[..|closed| - 1] == published;
  }

  lemma QueuedCancelledClosesLog(r: Run)
    requires RowOk(r) && LogOk(r) && r.status == Queued
    ensures var done := QueuedCancelled(r);
            && done.Ok?
            && done.value == r.(status := Cancelled, finalized := true, log := done.value.log, nextSequence := done.value.nextSequence)
            && LogOk(done.value) && RowOk(done.value)
            && r.log <= done.value.log
  {
    KeyIsNew(r.log, r.log, [], TerminalKey(Cancelled));
    NewKeyExtends(r.(status := Cancelled, finalized := true), RunTerminal(Cancelled), TerminalKey(Cancelled));
    CloseLog(r.log, r.log, [], Cancelled, QueuedCancelled(r).value.log);
  }

  lemma PlainAppendKeepsLog(r: Run, q: Run, e: Event)
    requires NoProducts(r.log) && PlainEvent(e) && (q.log == r.log || q.log == r.log + [e])
    ensures NoProducts(q.log) && r.log <= q.log
    ensures AssistantSequences(q.log) == AssistantSequences(r.log) +
      (if q.log != r.log && e.kind.AssistantMessage? && e.runtimeSequence.Some? then [e.runtimeSequence.value] else [])
  {
    if q.log != r.log {
      assert q.log[..|q.log| - 1] == r.log;
    }
  }

  lemma PhaseSetKeepsLog(r: Run, phase: Phase)
    requires RowOk(r) && LogOk(r) && PhaseSet(r, phase).Ok?
    ensures var q := PhaseSet(r, phase).value;
            && q == r.(phase := Some(phase), log := q.log, nextSequence := q.nextSequence)
            && LogOk(q) && RowOk(q) && r.log <= q.log
  {
    var q := PhaseSet(r, phase).value;
    var moved := r.(phase := Some(phase));
    AppendExtends(moved, None, PhaseChanged(phase), Some(PhaseKey(phase)));
    PlainAppendKeepsLog(moved, q, Event(|r.log| + 1, None, PhaseChanged(phase), Some(PhaseKey(phase))));
  }

  /** A fresh runtime event goes last, numbered, with the phase, message and outcome it carries. */
  lemma RuntimeEventAppends(r: Run, sequence: nat, kind: EventKind)
    requires RowOk(r) && LogOk(r) && !ProductEvent(kind) && RuntimeEventRecorded(r, sequence, kind).Ok?
    requires r.status == Running && !HasRuntimeSequence(r.log, sequence)
    ensures var q := RuntimeEventRecorded(r, sequence, kind).value;
            && EventPhase(r, kind).Ok?
            && q == r.(
                 phase := EventPhase(r, kind).value,
                 status := if kind.AgentFailed? then Failed else Running,
                 messages := if kind.AssistantMessage? then r.messages + [sequence] else r.messages,
                 log := r.log + [Event(|r.log| + 1, Some(sequence), kind, None)],
                 nextSequence := r.nextSequence + 1)
            && Numbered(q)
  {
    var moved := r.(phase := EventPhase(r, kind).value);
    AppendExtends(moved, Some(sequence), kind, None);
    assert AppendEvent(moved, Some(sequence), kind, None).value.log[|r.log|..] == [Event(|r.log| + 1, Some(sequence), kind, None)];
    AssistantSequencesOccur(r.log, sequence);
  }

  /** A recorded runtime event extends the log and the messages together, or changes nothing. */
  lemma RuntimeEventKeepsLog(r: Run, sequence: nat, kind: EventKind)
    requires RowOk(r) && LogOk(r) && !ProductEvent(kind) && RuntimeEventRecorded(r, sequence, kind).Ok?
    ensures var q := RuntimeEventRecorded(r, sequence, kind).value;
            && q == r.(status := q.status, phase := q.phase, messages := q.messages, log := q.log, nextSequence := q.nextSequence)
            && LogOk(q) && RowOk(q) && r.log <= q.log
            && (q.status == r.status || (r.status == Running && q.status == Failed && kind.AgentFailed?))
  {
    if r.status == Running && !HasRuntimeSequence(r.log, sequence) {
      RuntimeEventAppends(r, sequence, kind);
      var q := RuntimeEventRecorded(r, sequence, kind).value;
      var e := Event(|r.log| + 1, Some(sequence), kind, None);
      assert q.log[|r.log|] == e;
      PlainAppendKeepsLog(r, q, e);
    }
  }

  lemma {:induction false} AssistantSequencesOccur(log: seq<Event>, n: nat)
    ensures n in AssistantSequences(log) ==> HasRuntimeSequence(log, n)
  {
    if log != [] {
      AssistantSequencesOccur(log[..|log| - 1], n);
    }
  }

  // ---- Rows --------------------------------------------------------------------------------

  /** A chain depends only on the conversation's lineage and on its succeeded rows. */
  lemma ChainFrame(db: Db, after: Db, c: ConversationId)
    requires c < |db.conversations| && c < |after.conversations| && Chain(db, c)
    requires after.conversations[c].lineage == db.conversations[c].lineage
    requires after.conversations[c].active == db.conversations[c].active
    requires |db.runs| <= |after.runs|
    requires forall id :: 0 <= id < |db.runs| && db.runs[id].conversation == c && db.runs[id].status == Succeeded ==>
      SameSuccess(db.runs[id], after.runs[id])
    requires forall id :: 0 <= id < |after.runs| && after.runs[id].conversation == c && after.runs[id].status == Succeeded ==>
      id < |db.runs| && db.runs[id].conversation == c && db.runs[id].status == Succeeded
    ensures Chain(after, c)
  {
    var l := db.conversations[c].lineage;
    assert ChainMembers(after, c, l);
    forall i | 0 <= i < |l| ensures after.runs[l[i]].source == Promoted(after, l, i) {
      assert db.runs[l[i]].source == Promoted(db, l, i);
    }
  }

  predicate SameSuccess(r: Run, q: Run) {
    && q.conversation == r.conversation && q.status == r.status && q.candidate == r.candidate && q.source == r.source
    && (r.finalized ==> q.finalized)
  }

  lemma DeletionSafeFrame(db: Db, after: Db)
    requires DeletionSafe(db)
    requires |db.runs| <= |after.runs| && |after.conversations| == |db.conversations| && after.projects == db.projects
    requires forall c :: 0 <= c < |db.conversations| ==>
      after.conversations[c].deleted == db.conversations[c].deleted && after.conversations[c].project == db.conversations[c].project
    requires forall id :: 0 <= id < |db.runs| ==>
      after.runs[id].conversation == db.runs[id].conversation && (Protected(after.runs[id]) ==> Protected(db.runs[id]))
    requires forall id :: |db.runs| <= id < |after.runs| ==>
      Addressable(db, after.runs[id].conversation) && Live(db, after.runs[id].conversation)
    ensures DeletionSafe(after)
  {
    forall id | 0 <= id < |after.runs| && Protected(after.runs[id])
      ensures Addressable(after, after.runs[id].conversation) && Live(after, after.runs[id].conversation)
    {
      if id < |db.runs| {
        assert Addressable(db, db.runs[id].conversation) && Live(db, db.runs[id].conversation);
      }
    }
  }

  /** Replacing one row keeps the tables sound when the row stays within what its old one allowed. */
  lemma UpdateRow(db: Db, id: RunId, r: Run)
    requires TablesOk(db) && id < |db.runs| && RowOk(r)
    requires r.conversation == db.runs[id].conversation
    requires Active(r) ==> Active(db.runs[id]) || !SlotTaken(db)
    requires Protected(r) ==> Protected(db.runs[id])
    requires r.status == Succeeded <==> db.runs[id].status == Succeeded
    requires r.status == Succeeded ==> SameSuccess(db.runs[id], r)
    ensures TablesOk(db.(runs := db.runs[id := r]))
  {
    var after := db.(runs := db.runs[id := r]);
    forall c | 0 <= c < |after.conversations| ensures Chain(after, c) {
      ChainFrame(db, after, c);
    }
    RowsFrame(db, after);
    DeletionSafeFrame(db, after);
    RowTakesSlot(db, id, r);
  }

  lemma RowTakesSlot(db: Db, id: RunId, r: Run)
    requires OneSlot(db) && id < |db.runs|
    requires Active(r) ==> Active(db.runs[id]) || !SlotTaken(db)
    ensures OneSlot(db.(runs := db.runs[id := r]))
  {
    if SlotTaken(db) {
      OneSlotFrame(db, db.(runs := db.runs[id := r]));
    }
  }

  /** A chain grows by a success that starts from the active session and becomes the new one. */
  lemma ChainExtends(db: Db, after: Db, c: ConversationId, id: RunId)
    requires c < |db.conversations| && c < |after.conversations| && Chain(db, c)
    requires id < |db.runs| == |after.runs| && db.runs[id].status != Succeeded
    requires forall k :: 0 <= k < |db.runs| && k != id ==> after.runs[k] == db.runs[k]
    requires after.runs[id].conversation == c && after.runs[id].status == Succeeded
    requires after.runs[id].source == db.conversations[c].active
    requires forall k :: 0 <= k < |db.runs| && db.runs[k].status == Succeeded ==> db.runs[k].finalized
    requires after.conversations[c].lineage == db.conversations[c].lineage + [id]
    requires after.conversations[c].active == after.runs[id].candidate
    ensures Chain(after, c)
  {
    var l := db.conversations[c].lineage;
    MembersExtend(db, after, c, id, l);
    LineageRows(db, after, c, id);
    hide ChainMembers;
    LinksExtend(db, after, l, id);
  }

  lemma LineageRows(db: Db, after: Db, c: ConversationId, id: RunId)
    requires c < |db.conversations| && Chain(db, c)
    requires id < |db.runs| == |after.runs| && db.runs[id].status != Succeeded
    requires forall k :: 0 <= k < |db.runs| && k != id ==> after.runs[k] == db.runs[k]
    ensures var l := db.conversations[c].lineage;
            forall i :: 0 <= i < |l| ==> l[i] < |db.runs| && after.runs[l[i]] == db.runs[l[i]] && db.runs[l[i]].status == Succeeded
  {
  }

  /** Every link of the longer lineage is one of the shorter one, or starts from its last candidate. */
  lemma LinksExtend(db: Db, after: Db, l: seq<RunId>, id: RunId)
    requires id < |after.runs| && forall i :: 0 <= i < |l| ==> l[i] < |db.runs| && l[i] < |after.runs| && after.runs[l[i]] == db.runs[l[i]]
    requires forall i :: 0 <= i < |l| ==> db.runs[l[i]].source == Promoted(db, l, i)
    requires after.runs[id].source == Promoted(db, l, |l|)
    ensures var m := l + [id];
            && (forall i :: 0 <= i < |m| ==> m[i] < |after.runs| && after.runs[m[i]].source == Promoted(after, m, i))
            && Promoted(after, m, |m|) == after.runs[id].candidate
  {
    var m := l + [id];
    forall i | 0 <= i < |m| ensures m[i] < |after.runs| && after.runs[m[i]].source == Promoted(after, m, i) {
      assert i < |l| ==> m[i] == l[i];
      assert i > 0 ==> m[i - 1] == l[i - 1];
      assert Promoted(after, m, i) == Promoted(db, l, i);
    }
  }

  lemma MembersExtend(db: Db, after: Db, c: ConversationId, id: RunId, l: seq<RunId>)
    requires ChainMembers(db, c, l)
    requires id < |db.runs| == |after.runs| && db.runs[id].status != Succeeded
    requires forall k :: 0 <= k < |db.runs| && k != id ==> after.runs[k] == db.runs[k]
    requires after.runs[id].conversation == c && after.runs[id].status == Succeeded
    ensures ChainMembers(after, c, l + [id])
    ensures forall i :: 0 <= i < |l| ==> l[i] != id && after.runs[l[i]] == db.runs[l[i]]
  {
    assert forall i :: 0 <= i < |l| ==> l[i] != id;
    forall k | 0 <= k < |after.runs| && after.runs[k].conversation == c && after.runs[k].status == Succeeded
      ensures k in l + [id]
    {
      if k != id {
        assert after.runs[k] == db.runs[k] && k in l;
      }
    }
  }

  lemma CommitKeepsTables(db: Db, id: RunId, candidate: SessionId, artifacts: seq<ArtifactId>)
    requires TablesOk(db) && id < |db.runs| && db.runs[id].sandboxRef.Some?
    requires ProductsCommitted(db, id, candidate, artifacts).Ok?
    ensures TablesOk(ProductsCommitted(db, id, candidate, artifacts).value)
  {
    hide Chains;
    var after := ProductsCommitted(db, id, candidate, artifacts).value;
    CommitKeepsChains(db, id, candidate, artifacts);
    DeletionSafeFrame(db, after);
    OneSlotFrame(db, after);
    RowsFrame(db, after);
  }

  lemma CommitKeepsChains(db: Db, id: RunId, candidate: SessionId, artifacts: seq<ArtifactId>)
    requires TablesOk(db) && id < |db.runs| && ProductsCommitted(db, id, candidate, artifacts).Ok?
    ensures Chains(ProductsCommitted(db, id, candidate, artifacts).value)
  {
    hide Chain;
    var after := ProductsCommitted(db, id, candidate, artifacts).value;
    var mine := db.runs[id].conversation;
    forall c | 0 <= c < |after.conversations| ensures Chain(after, c) {
      if c == mine {
        assert Active(db.runs[id]);
        ChainExtends(db, after, c, id);
      } else {
        ChainFrame(db, after, c);
      }
    }
  }

  lemma OneSlotFrame(db: Db, after: Db)
    requires OneSlot(db) && |db.runs| <= |after.runs|
    requires forall i :: 0 <= i < |after.runs| && Active(after.runs[i]) ==> i < |db.runs| && Active(db.runs[i])
    ensures OneSlot(after)
  {
  }

  lemma RowsFrame(db: Db, after: Db)
    requires forall id :: 0 <= id < |db.runs| ==> Addressable(db, db.runs[id].conversation)
    requires forall c :: 0 <= c < |db.conversations| ==> Addressable(db, c)
    requires |db.runs| <= |after.runs| && |db.conversations| <= |after.conversations| && |db.projects| <= |after.projects|
    requires forall c :: 0 <= c < |db.conversations| ==> after.conversations[c].project == db.conversations[c].project
    requires forall c :: |db.conversations| <= c < |after.conversations| ==> Addressable(after, c)
    requires forall id :: 0 <= id < |db.runs| ==> after.runs[id].conversation == db.runs[id].conversation
    requires forall id :: |db.runs| <= id < |after.runs| ==> Addressable(db, after.runs[id].conversation)
    ensures forall id :: 0 <= id < |after.runs| ==> Addressable(after, after.runs[id].conversation)
    ensures forall c :: 0 <= c < |after.conversations| ==> Addressable(after, c)
  {
    forall c | 0 <= c < |db.conversations| ensures Addressable(after, c) {
      assert Addressable(db, c);
    }
  }

  lemma SubmitKeepsTables(db: Db, c: ConversationId)
    requires TablesOk(db) && Submitted(db, c).Ok?
    ensures TablesOk(Submitted(db, c).value)
    ensures LogOk(Submitted(db, c).value.runs[|db.runs|])
  {
    var after := Submitted(db, c).value;
    forall k | 0 <= k < |after.conversations| ensures Chain(after, k) {
      ChainFrame(db, after, k);
    }
    DeletionSafeFrame(db, after);
    OneSlotFrame(db, after);
    RowsFrame(db, after);
  }

  /** The two deletions and the two creations leave every run alone. */
  lemma SameRunsKeepTables(db: Db, after: Db)
    requires TablesOk(db) && after.runs == db.runs
    requires |db.conversations| <= |after.conversations| && |db.projects| <= |after.projects|
    requires forall c :: 0 <= c < |db.conversations| ==> SameThread(db.conversations[c], after.conversations[c])
    requires forall c :: |db.conversations| <= c < |after.conversations| ==>
      Addressable(after, c) && after.conversations[c].active.None? && after.conversations[c].lineage == []
    requires DeletionSafe(after)
    ensures TablesOk(after)
  {
    RowsFrame(db, after);
    OneSlotFrame(db, after);
    forall c | 0 <= c < |after.conversations| ensures Chain(after, c) {
      if c < |db.conversations| {
        ChainFrame(db, after, c);
      } else {
        forall id | 0 <= id < |after.runs| ensures after.runs[id].conversation != c {
          assert Addressable(db, db.runs[id].conversation);
        }
      }
    }
  }

  predicate SameThread(c: Conversation, d: Conversation) {
    d.project == c.project && d.active == c.active && d.lineage == c.lineage
  }

  /** Deletion under the locks never strands a queued, running or unfinalized run. */
  lemma ConversationDeletionKeepsTables(db: Db, c: ConversationId)
    requires TablesOk(db) && ConversationDeleted(db, c).Ok?
    ensures TablesOk(ConversationDeleted(db, c).value)
  {
    var after := ConversationDeleted(db, c).value;
    forall id | 0 <= id < |after.runs| && Protected(after.runs[id])
      ensures Addressable(after, after.runs[id].conversation) && Live(after, after.runs[id].conversation)
    {
      assert Addressable(db, db.runs[id].conversation) && Live(db, db.runs[id].conversation);
    }
    SameRunsKeepTables(db, after);
  }

  lemma ProjectDeletionKeepsTables(db: Db, p: ProjectId)
    requires TablesOk(db) && ProjectDeleted(db, p).Ok?
    ensures TablesOk(ProjectDeleted(db, p).value)
  {
    var after := ProjectDeleted(db, p).value;
    forall id | 0 <= id < |after.runs| && Protected(after.runs[id])
      ensures Addressable(after, after.runs[id].conversation) && Live(after, after.runs[id].conversation)
    {
      assert Addressable(db, db.runs[id].conversation) && Live(db, db.runs[id].conversation);
      assert db.projects[p] || !InProject(db, db.runs[id], p);
    }
    SameRunsKeepTables(db, after);
  }

  // ---- Refinement of state.go --------------------------------------------------------------

  /** A change of a row that the life cycle allows, given the cleanup evidence at hand. */
  ghost predicate Refines(before: Row, after: Row, evidence: Cleanup) {
    || after.(provider := before.provider, sandboxRef := before.sandboxRef) == before
    || Start(before) == Ok(after)
    || (exists phase :: Advance(before, phase) == Ok(after))
    || (exists status :: Finish(before, status, evidence) == Ok(after))
  }

  /** Preparing a run and recording a failure are stutters or legal steps needing no evidence. */
  lemma PreparationRefines(r: Run, c: Conversation, deleted: bool, p: Provider, ref: Ref)
    requires RowOk(r)
    ensures r.status == Queued ==> Refines(View(r), View(r.(status := Running, phase := Some(Preparing))), NO_EVIDENCE)
    ensures Refreshed(r, c, deleted).Ok? ==> Refines(View(r), View(Refreshed(r, c, deleted).value), NO_EVIDENCE)
    ensures AcquireBegun(r, p).Ok? ==> Refines(View(r), View(AcquireBegun(r, p).value), NO_EVIDENCE)
    ensures RefAttached(r, p, ref).Ok? ==> Refines(View(r), View(RefAttached(r, p, ref).value), NO_EVIDENCE)
  {
  }

  lemma PhaseSetRefines(r: Run, phase: Phase)
    requires PhaseSet(r, phase).Ok?
    ensures Refines(View(r), View(PhaseSet(r, phase).value), NO_EVIDENCE)
  {
    if r.phase.value != phase {
      assert Advance(View(r), phase) == Ok(View(PhaseSet(r, phase).value));
    }
  }

  lemma RuntimeEventRefines(r: Run, sequence: nat, kind: EventKind)
    requires RowOk(r) && LogOk(r) && !ProductEvent(kind) && RuntimeEventRecorded(r, sequence, kind).Ok?
    ensures Refines(View(r), View(RuntimeEventRecorded(r, sequence, kind).value), NO_EVIDENCE)
  {
    if r.status == Running && !HasRuntimeSequence(r.log, sequence) {
      RuntimeEventAppends(r, sequence, kind);
      var q := RuntimeEventRecorded(r, sequence, kind).value;
      if kind.PhaseChanged? && kind.phase != r.phase.value {
        assert Advance(View(r), kind.phase) == Ok(View(q));
      }
      if kind.AgentFailed? {
        assert Finish(View(r), Failed, NO_EVIDENCE) == Ok(View(q));
      }
    }
  }

  lemma FailureRefines(r: Run, status: Status)
    requires RowOk(r) && FailureRecorded(r, status).Ok?
    ensures Refines(View(r), View(FailureRecorded(r, status).value), NO_EVIDENCE)
  {
    if r.status == Running {
      assert Finish(View(r), status, NO_EVIDENCE) == Ok(View(FailureRecorded(r, status).value));
    }
  }

  lemma QueuedCancelRefines(r: Run)
    requires RowOk(r) && LogOk(r) && QueuedCancelled(r).Ok?
    ensures Refines(View(r), View(QueuedCancelled(r).value), Cleanup(Absent, Absent, None, false))
  {
    if r.status == Queued {
      QueuedCancelledClosesLog(r);
      assert Finish(View(r), Cancelled, Cleanup(Absent, Absent, None, false)) == Ok(View(QueuedCancelled(r).value));
    }
  }

  lemma ProductsCommittedRefines(db: Db, id: RunId, candidate: SessionId, artifacts: seq<ArtifactId>)
    requires TablesOk(db) && id < |db.runs|
    requires ProductsCommitted(db, id, candidate, artifacts).Ok?
    ensures Refines(View(db.runs[id]), View(ProductsCommitted(db, id, candidate, artifacts).value.runs[id]), NO_EVIDENCE)
  {
    assert Finish(View(db.runs[id]), Succeeded, NO_EVIDENCE)
        == Ok(View(ProductsCommitted(db, id, candidate, artifacts).value.runs[id]));
  }
}
