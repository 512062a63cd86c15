/**
 The runtime's decision step on its real stores
 (services/agent-runtime/src/harness_forge_runtime/api.py, finalize_run) and the protocol step that it
 implements.
 */
module RuntimeApi {
  import opened Basics
  import opened RunState
  import opened RunStore
  import opened Runtime
  import opened Protocol
  import opened ExecutionStore
  import opened Sessions

  datatype Status = Http204 | Http404 | Http409 | Http500

  class Api {
    const store: Store
    const sessions: SessionStore

    constructor (store: Store, sessions: SessionStore)
      ensures this.store == store && this.sessions == sessions
    {
      this.store, this.sessions := store, sessions;
    }

    /** The files on disk are this protocol state. */
    ghost predicate Represents(rt: Runtime)
      reads store, sessions
    {
      rt.records == Records(store.visible) && rt.present == Originals(sessions.projects)
    }

    ghost predicate Owned(rt: Runtime, id: RunId)
      reads store, sessions
    {
      id in store.visible ==> OwnedBy(rt, sessions.projects, sessions.staging, id, store.visible[id].source)
    }

    /**
     finalize_run. On a directory where the run owns what it should, a 204 is exactly the protocol's
     decision step and a 404 or 409 its refusal; after an error the decision has either taken effect or
     not, and sessions that the run owned may be gone. On any other directory an abort is answered 500
     and changes nothing, a commit of an ill-formed one likewise. On every directory and whatever the
     answer, "abort" is recorded only once no bucket without a spared session and no staging of the run is left.
     */
    method FinalizeRun(id: RunId, decision: Decision, ghost rt: Runtime) returns (status: Status)
      requires store.Valid() && Represents(rt)
      modifies store, sessions
      ensures !old(store.initialized) ==> status == Http500 && Represents(rt)
      ensures store.Valid()
      ensures status == Http204 ==> HasDecision(store.visible, id) && store.visible[id].disposition == Some(decision)
      ensures status == Http404 || status == Http409 ==> Represents(rt)
      ensures id in old(store.visible) && !HasDecision(old(store.visible), id) && HasDecision(store.visible, id) ==>
        && store.visible[id].disposition == Some(decision)
        && (decision == Abort ==>
              AbortDone(sessions.projects, sessions.staging, id, old(store.visible)[id].baseline, old(store.visible)[id].source))
      ensures old(Owned(rt, id)) && status == Http204 ==>
        Decided(rt, id, decision).Ok? && Represents(Decided(rt, id, decision).value)
      ensures old(Owned(rt, id)) && (status == Http404 || status == Http409) ==> Decided(rt, id, decision).Fail?
      ensures old(Owned(rt, id)) && status == Http500 && old(store.initialized) ==>
        && id in rt.records && rt.records[id].lifecycle == AwaitingFinalize
        && (decision == Commit ==> Originals(sessions.projects) == rt.present)
        && Kept(rt, id) <= Originals(sessions.projects) <= rt.present
        && (Records(store.visible) == rt.records
            || (Decided(rt, id, decision).Ok? && Represents(Decided(rt, id, decision).value)))
      ensures old(store.initialized) && id in rt.records && rt.records[id].lifecycle == AwaitingFinalize ==>
        && (decision == Abort && !old(AbortValid(sessions.projects, sessions.staging, id, store.visible[id].source)) ==>
              status == Http500 && Represents(rt))
        && (decision == Commit && RecordedDurable(rt.records[id]) && !old(WellFormed(sessions.projects)) ==>
              status == Http500 && Represents(rt))
    {
      hide AbortValid, WellFormed, FilesOk;
      var record, available := store.Get(id);
      if !available { return Http500; }
      if record.None? { return Http404; }
      var r := record.value;
      ShownOk(store.visible, id);
      assert rt.records[id] == Abstract(r);
      if r.disposition.Some? {
        return if r.disposition.value == decision then Http204 else Http409;
      }
      if r.lifecycle != AwaitingFinalize { return Http409; }
      if decision == Commit {
        if r.candidate.None? || !r.durable { return Http409; }
        var valid, outcome := sessions.ValidateCandidate(id, r.candidate.value, r.source, r.baseline);
        if Owned(rt, id) { OwnedCandidate(rt, sessions.projects, sessions.staging, id); }
        if outcome == Outcome.Refused { return Http500; }
        if !valid { return Http409; }
      } else {
        var aborted := AbortSessions(id, r, rt);
        if !aborted { return Http500; }
      }
      status := Decide(id, decision, r);
    }

    /** An abort of the run's sessions, whole or cut short by an error or a crash. */
    method AbortSessions(id: RunId, r: ExecutionRecord, ghost rt: Runtime) returns (ok: bool)
      requires rt.present == Originals(sessions.projects) && id in rt.records && rt.records[id] == Abstract(r)
      modifies sessions
      ensures if ok then Originals(sessions.projects) == Kept(rt, id)
              else Kept(rt, id) <= Originals(sessions.projects) <= rt.present
      ensures ok ==> AbortDone(sessions.projects, sessions.staging, id, r.baseline, r.source)
      ensures !old(AbortValid(sessions.projects, sessions.staging, id, r.source)) ==>
        !ok && Originals(sessions.projects) == rt.present
    {
      hide Toward, AbortValid, AbortDone;
      ghost var before := sessions.projects;
      var outcome := sessions.Abort(id, r.baseline, r.source);
      ok := outcome == Done;
      if outcome == Outcome.Refused { return; }
      AbortedOriginals(before, sessions.projects, sessions.staging, id, r.baseline, r.source, ok);
    }

    /** The durable decision, once the sessions are as it requires. */
    method Decide(id: RunId, decision: Decision, r: ExecutionRecord) returns (status: Status)
      requires store.Valid() && store.initialized && id in store.visible && store.visible[id] == r
      requires r.lifecycle == AwaitingFinalize
      modifies store
      ensures store.Valid() && status in {Http204, Http500}
      ensures var decided := Records(old(store.visible))[id := Abstract(r).(lifecycle := if decision == Commit then Committed else Aborted)];
              && (status == Http204 ==> Records(store.visible) == decided)
              && (Records(store.visible) == Records(old(store.visible)) || Records(store.visible) == decided)
      ensures status == Http204 ==> HasDecision(store.visible, id)
      ensures HasDecision(store.visible, id) ==> store.visible[id].disposition == Some(decision)
    {
      hide FilesOk;
      ShownOk(store.visible, id);
      ghost var before := store.visible;
      var answer := store.Finalize(id, decision);
      DecisionRecorded(before, store.visible, id, decision, answer);
      assert !answer.Refused?;
      status := if answer.Accepted? then Http204 else Http500;
    }

    /**
     delete_session: refused while an execution is undecided and the session is there; otherwise a 204
     means that it is gone from every bucket, and that no other original is.
     */
    method DeleteSession(session: SessionId, ghost rt: Runtime) returns (status: Status)
      requires store.Valid() && Represents(rt)
      modifies sessions
      ensures status in {Http204, Http409, Http500}
      ensures status == Http204 ==>
        session !in Ids(sessions.projects) && Originals(sessions.projects) == rt.present - {session}
      ensures status == Http409 ==>
        Busy(rt) && session in Ids(sessions.projects) && sessions.projects == old(sessions.projects)
      ensures status == Http500 ==> rt.present - {session} <= Originals(sessions.projects) <= rt.present
    {
      hide Toward;
      var valid := Inventory(sessions.projects);
      if !valid { return Http500; }
      var present := session in Ids(sessions.projects);
      var unfinalized, available := store.ListUnfinalized();
      if !available { return Http500; }
      if unfinalized != {} {
        ghost var id :| id in unfinalized;
        assert Undecided(rt.records[id]);
        if present { return Http409; }
        OriginalsAreIds(sessions.projects);
        return Http204;
      }
      ghost var before := sessions.projects;
      var outcome := sessions.Delete(session);
      DeletedOriginals(before, sessions.projects, session, outcome == Done);
      status := if outcome == Done then Http204 else Http500;
    }
  }

  lemma AbortedOriginals(p: Projects, q: Projects, s: Staging, run: RunId, baseline: set<SessionId>, source: Option<SessionId>, done: bool)
    requires Toward(p, q, Spared(baseline, source), Some(run))
    requires done ==> AbortDone(q, s, run, baseline, source)
    ensures var kept := set x | x in Originals(p) && (x in baseline || source == Some(x));
            && kept <= Originals(q) <= Originals(p)
            && (done ==> Originals(q) == kept)
  {
    OriginalsDuring(p, q, Spared(baseline, source), Some(run));
    OriginalsShrink(p, q, Spared(baseline, source), Some(run));
    if done {
      OriginalsAfter(p, q, Spared(baseline, source), Some(run));
    }
  }

  lemma OriginalsAreIds(p: Projects)
    ensures Originals(p) <= Ids(p)
  {
    forall id | id in Originals(p) ensures id in Ids(p) {
      var b :| b in p && id in p[b].entries && !Staged(p[b], id) && HasMain(p[b].entries[id]);
    }
  }

  lemma DeletedOriginals(p: Projects, q: Projects, session: SessionId, done: bool)
    requires Toward(p, q, These({session}), None)
    requires done ==> Completed(q, These({session}), None)
    ensures Originals(p) - {session} <= Originals(q) <= Originals(p)
    ensures done ==> session !in Ids(q) && Originals(q) == Originals(p) - {session}
  {
    OriginalsDuring(p, q, These({session}), None);
    OriginalsShrink(p, q, These({session}), None);
    if done {
      OriginalsAfter(p, q, These({session}), None);
      GoneAfter(p, q, session);
      forall b | b in q ensures session !in q[b].entries {
        assert EntryAt(q, b, session).None?;
      }
    }
  }

  lemma DecisionRecorded(m: Files, n: Files, id: RunId, decision: Decision, answer: Answer)
    requires WellFormedRecord(m, id) && m[id].lifecycle == AwaitingFinalize
    requires Effect(m, n, id, answer)
    requires answer.Accepted? ==> answer.record.disposition == Some(decision)
    requires HasDecision(n, id) ==> n[id].disposition == Some(decision)
    ensures var decided := Records(m)[id := Abstract(m[id]).(lifecycle := if decision == Commit then Committed else Aborted)];
            (Records(n) == Records(m) || Records(n) == decided) && (answer.Accepted? ==> Records(n) == decided)
    ensures answer.Accepted? ==> HasDecision(n, id)
  {
    if At(n, id) == At(m, id) {
      SameBut(m, n, id);
      assert n == m;
    } else {
      SameBut(m, n, id);
      OneChange(m, id, n[id]);
    }
  }

  predicate WellFormedRecord(m: Files, id: RunId) {
    id in m && StateOk(m[id])
  }

  lemma SameBut(m: Files, n: Files, id: RunId)
    requires n - {id} == m - {id} && id in m && id in n
    ensures n == m[id := n[id]]
  {
    forall x: RunId ensures At(n, x) == At(m[id := n[id]], x) {
      assert x != id ==> At(n - {id}, x) == At(m - {id}, x);
    }
    SameFiles(n, m[id := n[id]]);
  }

  // ---- What a run owns ---------------------------------------------------------------------

  /** Run id's bucket and staging are its own, and hold exactly the originals it created. */
  ghost predicate OwnedBy(rt: Runtime, p: Projects, staging: Staging, id: RunId, source: Option<SessionId>) {
    && AbortValid(p, staging, id, source)
    && forall x :: x in rt.present ==> ((x in rt.creator && rt.creator[x] == id) <==> Placed(p, id, x, source))
  }

  lemma OwnedCandidate(rt: Runtime, p: Projects, staging: Staging, id: RunId)
    requires id in rt.records && rt.present == Originals(p) && RecordedDurable(rt.records[id])
    requires OwnedBy(rt, p, staging, id, rt.records[id].source)
    ensures WellFormed(p)
    ensures var r := rt.records[id];
            ValidCandidate(rt, id) <==>
              r.source != r.candidate && r.candidate.value !in r.baseline && Placed(p, id, r.candidate.value, r.source)
  {
    var r := rt.records[id];
    if Placed(p, id, r.candidate.value, r.source) {
      var b :| PlacedIn(p, b, id, r.candidate.value, r.source);
      assert b in p && r.candidate.value in Originals(p);
    }
  }

  /** A run that has prepared nothing yet owns nothing, whatever a crash of the preparation left behind. */
  lemma NothingOwnedYet(rt: Runtime, p: Projects, staging: Staging, id: RunId, source: Option<SessionId>)
    requires WellFormed(p) && (forall b :: !Owns(p, id, b)) && (id in staging ==> StagingOk(staging[id], id, source))
    requires forall x :: x in rt.creator ==> rt.creator[x] != id
    ensures OwnedBy(rt, p, staging, id, source)
  {
    CrashedValid(p, staging, id, source);
  }

  /** Reservation, with every ID listed before as the baseline, and preparation of a new run establish that it owns what it should. */
  lemma PreparationOwned(rt: Runtime, p: Projects, q: Projects, staging: Staging, id: RunId, bucket: Bucket, source: Option<SessionId>)
    requires rt.present == Originals(p) && Reserved(rt, id, source, Ids(p)).Ok?
    requires WellFormed(p) && id !in staging && (forall b :: !Owns(p, id, b)) && Prepared(p, q, id, bucket, source)
    requires forall x :: x in rt.creator ==> rt.creator[x] != id
    ensures rt.present <= Ids(p)
    ensures Reserved(rt, id, source, Ids(p)).value.present == Originals(q)
    ensures OwnedBy(Reserved(rt, id, source, Ids(p)).value, q, staging, id, source)
  {
    OriginalsAreIds(p);
    PreparedKeeps(p, q, id, bucket, source);
    forall b | Owns(q, id, b) ensures b == bucket {
      assert b != bucket ==> Owns(p, id, b);
    }
    forall x, b ensures !PlacedIn(q, b, id, x, source) {
      assert DirAt(q, bucket) == q[bucket];
    }
  }

  /** What a worker's step does to the session directory: it writes only in its own bucket. */
  ghost predicate FileStep(a: Action, p: Projects, q: Projects) {
    match a
    case CreateSession(id, x) =>
      exists b, e :: Wrote(p, q, id, b, x, e) && e.Some? && HasMain(e.value)
    case DropSession(id, x) =>
      exists b, e :: Wrote(p, q, id, b, x, e) && (e.Some? ==> !HasMain(e.value))
    case _ => q == p
  }

  /** Entry x of the run's own bucket b, which no other bucket has, is now e. */
  ghost predicate Wrote(p: Projects, q: Projects, id: RunId, b: Bucket, x: SessionId, e: Option<Entry>) {
    && Owns(p, id, b) && b in p && !Staged(p[b], x) && (forall c :: c in p && x in p[c].entries ==> c == b)
    && q == WithEntry(p, b, x, e)
  }

  predicate WorkerStep(a: Action) {
    a.MarkWorking? || a.CreateSession? || a.DropSession? || a.RecordCandidate? || a.MarkDurable? || a.CompleteWorker?
    || a.StopWorker?
  }

  /** Every step of the run's worker keeps it, and the directory goes on representing the protocol. */
  lemma WorkerKeepsOwned(s: State, a: Action, p: Projects, q: Projects, staging: Staging, source: Option<SessionId>)
    requires WorkerStep(a) && Enabled(s, a) && FileStep(a, p, q) && s.rt.present <= s.rt.creator.Keys
    requires s.rt.present == Originals(p) && OwnedBy(s.rt, p, staging, a.id, source)
    ensures Apply(s, a).rt.present == Originals(q) && OwnedBy(Apply(s, a).rt, q, staging, a.id, source)
  {
    hide AbortValid;
    var t := Apply(s, a);
    if a.CreateSession? {
      var b, e :| Wrote(p, q, a.id, b, a.session, e) && e.Some? && HasMain(e.value);
      WriteKeepsOwned(p, q, staging, a.id, source, b, a.session, e);
      OwnedAfterWrite(s.rt, t.rt, p, q, staging, a.id, source, a.session, true);
    } else if a.DropSession? {
      var b, e :| Wrote(p, q, a.id, b, a.session, e) && (e.Some? ==> !HasMain(e.value));
      WriteKeepsOwned(p, q, staging, a.id, source, b, a.session, e);
      OwnedAfterWrite(s.rt, t.rt, p, q, staging, a.id, source, a.session, false);
    } else {
      WorkerQuiet(s, a);
    }
  }

  /** A worker's other steps change neither what is present nor who created it. */
  lemma WorkerQuiet(s: State, a: Action)
    requires WorkerStep(a) && Enabled(s, a) && !a.CreateSession? && !a.DropSession? && s.rt.present <= s.rt.creator.Keys
    ensures var t := Apply(s, a);
            t.rt.present == s.rt.present
            && forall x :: x in s.rt.present ==> x in t.rt.creator && t.rt.creator[x] == s.rt.creator[x]
  {
  }

  lemma OwnedAfterWrite(rt: Runtime, after: Runtime, p: Projects, q: Projects, staging: Staging, id: RunId,
                        source: Option<SessionId>, x: SessionId, written: bool)
    requires OwnedBy(rt, p, staging, id, source) && rt.present == Originals(p) && AbortValid(q, staging, id, source)
    requires forall y :: y != x ==> (y in Originals(q) <==> y in Originals(p))
    requires forall y :: y != x ==> (Placed(q, id, y, source) <==> Placed(p, id, y, source))
    requires (x in Originals(q) <==> written) && (Placed(q, id, x, source) <==> written)
    requires after.present == if written then rt.present + {x} else rt.present - {x}
    requires after.creator == if written then rt.creator[x := id] else rt.creator
    ensures after.present == Originals(q) && OwnedBy(after, q, staging, id, source)
  {
  }

  lemma WriteKeepsOwned(p: Projects, q: Projects, staging: Staging, id: RunId, source: Option<SessionId>, b: Bucket,
                        x: SessionId, e: Option<Entry>)
    requires AbortValid(p, staging, id, source) && Wrote(p, q, id, b, x, e)
    ensures AbortValid(q, staging, id, source)
    ensures forall y :: y != x ==> (y in Originals(q) <==> y in Originals(p))
    ensures forall y :: y != x ==> (Placed(q, id, y, source) <==> Placed(p, id, y, source))
    ensures x in Originals(q) <==> e.Some? && HasMain(e.value)
    ensures Placed(q, id, x, source) <==> e.Some? && HasMain(e.value)
  {
    WriteKeepsWellFormed(p, q, id, b, x, e);
    forall c ensures Owns(q, id, c) <==> Owns(p, id, c) {}
    forall c | Owns(q, id, c) ensures DirAt(q, c).owner.value.source == source {
      assert Owns(p, id, c);
    }
    forall y, c | y != x ensures PlacedIn(q, c, id, y, source) <==> PlacedIn(p, c, id, y, source) {}
    forall y | y != x ensures y in Originals(q) <==> y in Originals(p) {
      if y in Originals(p) {
        var c :| c in p && y in p[c].entries && !Staged(p[c], y) && HasMain(p[c].entries[y]);
        assert c in q && y in q[c].entries && !Staged(q[c], y);
      }
    }
    forall c | c in q && x in q[c].entries ensures c == b {}
    if e.Some? && HasMain(e.value) {
      assert Owns(p, id, b);
      assert PlacedIn(q, b, id, x, source);
      assert b in q && x in q[b].entries && !Staged(q[b], x);
    }
  }

  lemma WriteKeepsWellFormed(p: Projects, q: Projects, id: RunId, b: Bucket, x: SessionId, e: Option<Entry>)
    requires WellFormed(p) && Wrote(p, q, id, b, x, e)
    ensures WellFormed(q)
  {
    forall c ensures DirAt(q, c).owner == DirAt(p, c).owner {}
    forall c, d, run | Owns(q, run, c) && Owns(q, run, d) ensures c == d {
      assert Owns(p, run, c) && Owns(p, run, d);
    }
    forall y ensures OneHome(q, y) {
      assert OneHome(p, y);
      forall c, d | Original(DirAt(q, c), y) && y in DirAt(q, d).entries
        ensures if Staged(DirAt(q, d), y) then DirAt(q, d).owner.value.home == Some(c) else c == d
      {
        if y == x {
          assert c == b && d == b;
        } else {
          assert Original(DirAt(p, c), y) && y in DirAt(p, d).entries;
        }
      }
    }
  }
}
