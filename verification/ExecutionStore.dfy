/**
 The runtime's execution records: a memory cache over one file per run that fails closed
 (services/agent-runtime/src/harness_forge_runtime/execution_store.py). `visible` is what the
 directory shows now, `durable` what a power loss is sure to leave.
 */
module ExecutionStore {
  import opened Basics
  import opened RunState
  import opened RunStore
  import opened Runtime

  /** `updated` is the time of the write; each reading of the clock is later than the ones before. */
  datatype ExecutionRecord = ExecutionRecord(
    source: Option<SessionId>,
    candidate: Option<SessionId>,
    durable: bool,
    baseline: set<SessionId>,
    lifecycle: Lifecycle,
    disposition: Option<Decision>,
    updated: nat)

  type Files = map<RunId, ExecutionRecord>

  /** `validate_state` */
  predicate StateOk(r: ExecutionRecord) {
    && (r.durable ==> r.candidate.Some?)
    && (r.candidate.Some? ==> r.candidate != r.source && r.candidate.value !in r.baseline)
    && r.disposition == (match r.lifecycle case Committed => Some(Commit) case Aborted => Some(Abort) case _ => None)
  }

  predicate Unfinalized(r: ExecutionRecord) {
    r.lifecycle in {Starting, Working, AwaitingFinalize}
  }

  /** What `initialize` accepts: valid records, at most one of them undecided. */
  predicate FilesOk(m: Files) {
    && (forall id :: id in m ==> StateOk(m[id]))
    && (forall i, j :: i in m && j in m && Unfinalized(m[i]) && Unfinalized(m[j]) ==> i == j)
  }

  function At(m: Files, id: RunId): Option<ExecutionRecord> {
    if id in m then Some(m[id]) else None
  }

  predicate HasDecision(m: Files, id: RunId) {
    id in m && m[id].disposition.Some?
  }

  /** The legal next versions of one record file; absence is None. */
  predicate Successor(a: Option<ExecutionRecord>, b: Option<ExecutionRecord>) {
    match (a, b)
    case (None, None) => false
    case (None, Some(q)) => q == ExecutionRecord(q.source, None, false, q.baseline, Starting, None, q.updated)
    case (Some(r), None) => r.disposition.Some?
    case (Some(r), Some(q)) =>
      && r.updated < q.updated
      && var r := r.(updated := q.updated);
         || (r.lifecycle == Starting && q == r.(lifecycle := Working))
         || (r.lifecycle == Working && r.candidate.None? && q.candidate.Some? && q == r.(candidate := q.candidate))
         || (r.lifecycle == Working && r.candidate.Some? && q == r.(durable := true))
         || (r.lifecycle in {Starting, Working} && q == r.(lifecycle := AwaitingFinalize))
         || (r.lifecycle == AwaitingFinalize && q == r.(lifecycle := Committed, disposition := Some(Commit)))
         || (r.lifecycle == AwaitingFinalize && q == r.(lifecycle := Aborted, disposition := Some(Abort)))
  }

  /** n is m except that one file may already be its legal successor. */
  ghost predicate InFlight(m: Files, n: Files) {
    m == n || exists id: RunId :: Successor(At(m, id), At(n, id)) && m - {id} == n - {id}
  }

  /** Only these files may differ. */
  ghost predicate SameOutside(m: Files, n: Files, ids: set<RunId>) {
    forall id: RunId :: id !in ids ==> At(m, id) == At(n, id)
  }

  /** What the directory has shown since it was last synced, the synced state first. */
  type Versions = v: seq<Files> | |v| > 0 witness [map[]]

  function Newest(versions: Versions): Files {
    versions[|versions| - 1]
  }

  /** The version of one file that a crash of the machine leaves; by default the oldest, which is durable. */
  function Left(versions: Versions, kept: map<RunId, nat>, id: RunId): Option<ExecutionRecord> {
    At(versions[if id in kept && kept[id] < |versions| then kept[id] else 0], id)
  }

  function AllIds(versions: Versions): set<RunId> {
    set i, id | 0 <= i < |versions| && id in versions[i] :: id
  }

  /** A crash of the machine leaves of each file one of the versions shown since the last sync. */
  function Survivors(versions: Versions, kept: map<RunId, nat>): Files {
    map id | id in AllIds(versions) && Left(versions, kept, id).Some? :: Left(versions, kept, id).value
  }

  lemma SurvivorAt(versions: Versions, kept: map<RunId, nat>, id: RunId)
    ensures At(Survivors(versions, kept), id) == Left(versions, kept, id)
  {
    if Left(versions, kept, id).Some? {
      var i := if id in kept && kept[id] < |versions| then kept[id] else 0;
      assert id in versions[i];
    }
  }

  /** With one file unsynced the crash leaves the directory as it was at some moment since the last sync. */
  lemma SurvivorsOfOneFile(versions: Versions, kept: map<RunId, nat>, x: RunId)
    requires forall i :: 0 <= i < |versions| ==> SameOutside(versions[i], Newest(versions), {x})
    ensures Survivors(versions, kept) == versions[if x in kept && kept[x] < |versions| then kept[x] else 0]
  {
    var i := if x in kept && kept[x] < |versions| then kept[x] else 0;
    forall id: RunId ensures At(Survivors(versions, kept), id) == At(versions[i], id) {
      SurvivorAt(versions, kept, id);
      if id != x {
        var j := if id in kept && kept[id] < |versions| then kept[id] else 0;
        assert SameOutside(versions[j], Newest(versions), {x}) && SameOutside(versions[i], Newest(versions), {x});
      }
    }
    SameFiles(Survivors(versions, kept), versions[i]);
  }

  lemma SameFiles(m: Files, n: Files)
    requires forall id: RunId :: At(m, id) == At(n, id)
    ensures m == n
  {
    forall id: RunId ensures id in m <==> id in n {
      assert At(m, id) == At(n, id);
    }
    forall id | id in m ensures m[id] == n[id] {
      assert At(m, id) == At(n, id);
    }
  }

  // ---- The records as the commit protocol sees them -----------------------------------------

  function Abstract(r: ExecutionRecord): Record {
    Record(r.source, r.candidate, r.durable, r.baseline, r.lifecycle)
  }

  function Records(m: Files): map<RunId, Record> {
    map id | id in m :: Abstract(m[id])
  }

  lemma OneChange(m: Files, id: RunId, r: ExecutionRecord)
    ensures Records(m[id := r]) == Records(m)[id := Abstract(r)]
  {
  }

  predicate StampedBy(m: Files, clock: nat) {
    forall id :: id in m ==> m[id].updated <= clock
  }

  /** A file has one version if it is not dirty; a dirty one that is shown is newer than the synced one. */
  ghost predicate Tracked(versions: Versions, dirty: set<RunId>, clock: nat) {
    && (forall i :: 0 <= i < |versions| ==>
          FilesOk(versions[i]) && SameOutside(versions[i], Newest(versions), dirty) && StampedBy(versions[i], clock))
    && (forall id :: id in dirty && id in Newest(versions) ==>
          id !in versions[0] || versions[0][id].updated < Newest(versions)[id].updated)
  }

  lemma TrackedLater(versions: Versions, dirty: set<RunId>, clock: nat, later: nat)
    requires Tracked(versions, dirty, clock) && clock <= later
    ensures Tracked(versions, dirty, later)
  {
  }

  lemma TrackedSynced(m: Files, clock: nat)
    requires FilesOk(m) && StampedBy(m, clock)
    ensures Tracked([m, m], {}, clock)
  {
  }

  /** One more unsynced change, of file id. */
  lemma TrackedMore(versions: Versions, dirty: set<RunId>, clock: nat, next: Files, id: RunId, later: nat)
    requires Tracked(versions, dirty, clock) && FilesOk(next) && SameOutside(Newest(versions), next, {id})
    requires clock <= later && (id in next ==> clock < later == next[id].updated)
    ensures Tracked(versions + [next], dirty + {id}, later)
    ensures Tracked([next, next], {}, later)
  {
    var more := versions + [next];
    forall y | y in next ensures next[y].updated <= later {
      assert y != id ==> At(Newest(versions), y) == At(next, y);
    }
    forall i | 0 <= i < |more|
      ensures FilesOk(more[i]) && SameOutside(more[i], next, dirty + {id}) && StampedBy(more[i], later)
    {
      if i < |versions| {
        assert SameOutside(versions[i], Newest(versions), dirty);
      }
    }
    forall y | y in dirty + {id} && y in next ensures y !in more[0] || more[0][y].updated < next[y].updated {
      if y == id {
        assert StampedBy(versions[0], clock);
      } else {
        assert At(Newest(versions), y) == At(next, y);
      }
    }
    TrackedSynced(next, later);
  }

  lemma TrackedSurvivors(versions: Versions, dirty: set<RunId>, clock: nat, kept: map<RunId, nat>)
    requires Tracked(versions, dirty, clock)
    ensures var left := Survivors(versions, kept); FilesOk(left) ==> Tracked([left, left], {}, clock)
    ensures |dirty| <= 1 ==> Survivors(versions, kept) in versions && FilesOk(Survivors(versions, kept))
  {
    var left := Survivors(versions, kept);
    forall y | y in left ensures left[y].updated <= clock {
      SurvivorAt(versions, kept, y);
      var i := if y in kept && kept[y] < |versions| then kept[y] else 0;
      assert StampedBy(versions[i], clock);
    }
    if FilesOk(left) { TrackedSynced(left, clock); }
    if |dirty| <= 1 {
      var x: RunId := 0;
      if dirty != {} { x :| x in dirty; Singleton(dirty, x); }
      SurvivorsOfOneFile(versions, kept, x);
    }
  }

  datatype Reason = NotInitialized | NotFound | WrongLifecycle | InvalidRecord | RuntimeBusy | Pending | DecidedAs(decision: Decision)

  /** `Broken` is an OSError, after which the store is closed until it is initialized again, or the process's death in the call. */
  datatype Answer = Accepted(record: ExecutionRecord) | Refused(reason: Reason) | Broken

  /** Where a write or an unlink fails: before the directory changes, or before it is synced. */
  datatype Fault = NoFault | BeforeReplace | BeforeSync

  class Store {
    var records: Files
    var initialized: bool
    var visible: Files
    var durable: Files
    /** The directories shown between the last sync and now. */
    var between: seq<Files>
    var clock: nat
    var faults: seq<Fault>
    /** History: the files whose last change ended before the directory was synced, and no sync followed. */
    ghost var dirty: set<RunId>

    function Shown(): Versions
      reads this
    {
      var shown := [durable] + between + [visible];
      assert |shown| == |between| + 2;
      shown
    }

    /** Whenever the store is open its memory is what the directory shows. */
    ghost predicate Valid()
      reads this
    {
      FilesOk(visible) && (initialized ==> records == visible) && Tracked(Shown(), dirty, clock)
    }

    /**
     What a call on run id does to what a power loss leaves: nothing, or a sync of everything, or it
     breaks with one more unsynced change. From a synced directory one call leaves one legal change in flight.
     */
    ghost predicate Continues(durableWas: Files, dirtyWas: set<RunId>, id: RunId, broken: bool)
      reads this
    {
      && ((durable == visible && dirty == {}) || (durable == durableWas && (dirty == dirtyWas || (broken && dirty == dirtyWas + {id}))))
      && (broken && dirtyWas == {} ==> InFlight(durable, visible) && forall m :: m in Shown() ==> m in {durable, visible})
    }

    lemma DurableLags()
      requires Valid()
      ensures StampedBy(visible, clock) && SameOutside(durable, visible, dirty)
      ensures forall id :: id in dirty && id in visible ==> id !in durable || durable[id].updated < visible[id].updated
    {
      var shown := Shown();
      assert shown[0] == durable && Newest(shown) == visible == shown[|shown| - 1];
    }

    lemma SyncedIfClean()
      requires Valid() && dirty == {}
      ensures durable == visible && forall m :: m in Shown() ==> m == visible
    {
      forall i | 0 <= i < |Shown()| ensures Shown()[i] == visible {
        assert SameOutside(Shown()[i], visible, {});
        SameFiles(Shown()[i], visible);
      }
      assert Shown()[0] == durable;
    }

    lemma CleanIsLeft(kept: map<RunId, nat>, id: RunId)
      requires Valid() && id !in dirty
      ensures Left(Shown(), kept, id) == At(visible, id)
    {
      var i := if id in kept && kept[id] < |Shown()| then kept[id] else 0;
      assert SameOutside(Shown()[i], visible, dirty);
    }

    /** What is shown of a run can revert in a power loss if and only if its file is dirty. */
    lemma RevertsIffDirty(id: RunId)
      requires Valid() && id in visible
      ensures (exists kept: map<RunId, nat> :: At(Survivors(Shown(), kept), id) != At(visible, id)) <==> id in dirty
    {
      if id in dirty {
        SurvivorAt(Shown(), map[], id);
        assert At(Survivors(Shown(), map[]), id) != At(visible, id);
      } else {
        forall kept: map<RunId, nat> ensures At(Survivors(Shown(), kept), id) == At(visible, id) {
          SurvivorAt(Shown(), kept, id);
          CleanIsLeft(kept, id);
        }
      }
    }

    lemma NothingReverts()
      requires Valid() && dirty == {}
      ensures durable == visible && forall kept: map<RunId, nat> :: Survivors(Shown(), kept) == visible
    {
      SyncedIfClean();
      forall kept: map<RunId, nat> ensures Survivors(Shown(), kept) == visible {
        forall i | 0 <= i < |Shown()| ensures SameOutside(Shown()[i], visible, {0}) {
          assert Shown()[i] in Shown();
        }
        SurvivorsOfOneFile(Shown(), kept, 0);
        assert Survivors(Shown(), kept) in Shown();
      }
    }

    constructor (faults: seq<Fault>)
      ensures Valid() && visible == map[] && !initialized && dirty == {}
    {
      records, initialized, visible, durable, between, clock, dirty := map[], false, map[], map[], [], 0, {};
      this.faults := faults;
    }

    function Next(): Fault
      reads this
    {
      if faults == [] then NoFault else faults[0]
    }

    method NextFault() returns (fault: Fault)
      modifies this`faults
      ensures fault == old(Next())
    {
      if faults == [] { return NoFault; }
      fault := faults[0];
      faults := faults[1..];
    }

    /** `initialize`: reads every record file, or stays closed. */
    method Initialize()
      modifies this`records, this`initialized
      ensures initialized <==> FilesOk(visible)
      ensures initialized ==> records == visible
      ensures old(Valid()) ==> Valid() && initialized
    {
      hide Tracked, StateOk, Unfinalized;
      initialized := false;
      var loaded: Files := map[];
      var count := 0;
      ghost var one, two: RunId := 0, 0;
      var rest := visible.Keys;
      while rest != {}
        invariant rest <= visible.Keys && loaded.Keys == visible.Keys - rest && !initialized
        invariant forall id :: id in loaded ==> loaded[id] == visible[id] && StateOk(loaded[id])
        invariant 0 <= count
        invariant count <= 1 ==> forall id :: id in loaded && Unfinalized(loaded[id]) ==> count == 1 && id == one
        invariant count >= 1 ==> one in loaded && Unfinalized(loaded[one])
        invariant count > 1 ==> one != two && two in loaded && Unfinalized(loaded[two])
        decreases |rest|
      {
        var id :| id in rest;
        if !StateOk(visible[id]) { return; }
        loaded := loaded[id := visible[id]];
        if Unfinalized(visible[id]) {
          if count == 0 { one := id; } else if count == 1 { two := id; }
          count := count + 1;
        }
        rest := rest - {id};
      }
      if count > 1 { return; }
      assert loaded == visible;
      records, initialized := loaded, true;
    }

    /** `_write`: replace the file atomically, then sync the directory; any error closes the store. */
    method Write(id: RunId, r: ExecutionRecord) returns (ok: bool)
      requires initialized
      modifies this`visible, this`durable, this`between, this`initialized, this`faults, this`dirty
      ensures initialized == ok
      ensures dirty == (if ok then {} else if old(Next()) == BeforeSync then old(dirty) + {id} else old(dirty))
      ensures Shown() == if ok then [visible, visible] else if old(Next()) == BeforeSync then old(Shown()) + [visible] else old(Shown())
      ensures old(Next()) == BeforeReplace ==> visible == old(visible)
      ensures visible == old(visible) || visible == old(visible)[id := r]
      ensures durable == if ok then visible else old(durable)
      ensures ok <==> old(Next()) == NoFault
      ensures old(Next()) != BeforeReplace ==> visible == old(visible)[id := r]
    {
      var fault := NextFault();
      if fault != BeforeReplace { between, visible := between + [visible], visible[id := r]; }
      ok := fault == NoFault;
      if ok {
        durable, between, dirty := visible, [], {};
      } else {
        initialized := false;
        if fault == BeforeSync { dirty := dirty + {id}; }
      }
    }

    /** `_replace` and the write of `reserve`: the new record must be valid; memory follows the disk. */
    method Replace(id: RunId, next: ExecutionRecord) returns (answer: Answer)
      requires Valid() && initialized && next.updated == clock + 1
      requires StateOk(next) ==> Successor(At(visible, id), Some(next)) && FilesOk(visible[id := next])
      modifies this
      ensures Valid() && Continues(old(durable), old(dirty), id, answer.Broken?)
      ensures answer.Refused? <==> !StateOk(next)
      ensures answer.Refused? ==> visible == old(visible) && initialized
      ensures answer.Accepted? ==>
        answer.record == next && initialized && visible == old(visible)[id := next] && durable == visible && dirty == {}
      ensures answer.Broken? ==>
        !initialized && durable == old(durable)
        && (if old(Next()) == BeforeSync then visible == old(visible)[id := next] && dirty == old(dirty) + {id}
            else visible == old(visible) && dirty == old(dirty))
      ensures StateOk(next) ==> (answer.Broken? <==> old(Next()) != NoFault)
      ensures clock == old(clock) + 1
    {
      hide Tracked, Successor, InFlight, FilesOk, StateOk;
      TrackedLater(Shown(), dirty, clock, clock + 1);
      if StateOk(next) { TrackedMore(Shown(), dirty, clock, visible[id := next], id, clock + 1); }
      if dirty == {} { SyncedIfClean(); }
      clock := clock + 1;
      if !StateOk(next) { return Refused(InvalidRecord); }
      var ok := Write(id, next);
      ReplaceInFlight(old(visible), id, next);
      if !ok { return Broken; }
      records := records[id := next];
      return Accepted(next);
    }

    /** `reserve`: one undecided execution at a time, and a run ID is never reserved twice. */
    method Reserve(id: RunId, source: Option<SessionId>, baseline: set<SessionId>) returns (answer: Answer)
      requires Valid()
      modifies this
      ensures Valid() && Continues(old(durable), old(dirty), id, answer.Broken?) && Effect(old(visible), visible, id, answer)
      ensures answer.Accepted? ==>
        && durable == visible && dirty == {}
        && forall rt: Runtime :: rt.records == Records(old(visible)) ==>
             Reserved(rt, id, source, baseline) == Ok(rt.(records := Records(visible)))
      ensures answer.Refused? && old(initialized) ==>
        forall rt: Runtime :: rt.records == Records(visible) ==> Reserved(rt, id, source, baseline).Fail?
    {
      hide Tracked;
      if !initialized { return Refused(NotInitialized); }
      if id in records {
        var r := records[id];
        return Refused(if r.disposition.Some? then DecidedAs(r.disposition.value) else Pending);
      }
      if exists other :: other in records && Unfinalized(records[other]) {
        var other :| other in records && Unfinalized(records[other]);
        assert Undecided(Records(visible)[other]);
        return Refused(RuntimeBusy);
      }
      var r := ExecutionRecord(source, None, false, baseline, Starting, None, clock + 1);
      answer := Replace(id, r);
      OneChange(old(visible), id, r);
      forall rt: Runtime | rt.records == Records(old(visible))
        ensures Reserved(rt, id, source, baseline) == Ok(rt.(records := Records(old(visible)[id := r])))
      {
        assert !Busy(rt);
      }
    }

    /** `_record_for_update` and `_replace`: one legal change to an undecided record. */
    method Update(id: RunId, r: ExecutionRecord) returns (answer: Answer)
      requires Valid() && initialized && id in records && Unfinalized(records[id])
      requires StateOk(r) ==> Successor(Some(records[id]), Some(r.(updated := clock + 1)))
      modifies this
      ensures Valid() && Continues(old(durable), old(dirty), id, answer.Broken?) && Effect(old(visible), visible, id, answer)
      ensures answer.Refused? <==> !StateOk(r)
      ensures answer.Accepted? ==> answer.record == r.(updated := clock) && durable == visible && dirty == {}
      ensures StateOk(r) ==> (answer.Broken? <==> old(Next()) != NoFault)
      ensures answer.Broken? ==>
        if old(Next()) == BeforeSync then visible == old(visible)[id := r.(updated := clock)] && dirty == old(dirty) + {id}
        else visible == old(visible) && dirty == old(dirty)
      ensures answer.Broken? ==> durable == old(durable)
      ensures clock == old(clock) + 1
    {
      assert visible[id] == records[id];
      answer := Replace(id, r.(updated := clock + 1));
      assert visible - {id} == old(visible) - {id};
    }

    method MarkRunning(id: RunId) returns (answer: Answer)
      requires Valid()
      modifies this
      ensures Valid() && Continues(old(durable), old(dirty), id, answer.Broken?) && Effect(old(visible), visible, id, answer)
      ensures answer.Refused? <==> !old(initialized) || id !in old(visible) || old(visible)[id].lifecycle != Starting
      ensures answer.Accepted? ==> answer.record == old(visible)[id].(lifecycle := Working, updated := clock) && durable == visible && dirty == {}
    {
      hide Tracked;
      DurableLags();
      if !initialized { return Refused(NotInitialized); }
      if id !in records { return Refused(Reason.NotFound); }
      if records[id].lifecycle != Starting { return Refused(WrongLifecycle); }
      answer := Update(id, records[id].(lifecycle := Working));
    }

    /** `record_candidate`: the first candidate stays; it is never the source nor in the baseline. */
    method RecordCandidate(id: RunId, candidate: SessionId) returns (answer: Answer)
      requires Valid()
      modifies this
      ensures Valid() && Continues(old(durable), old(dirty), id, answer.Broken?) && Effect(old(visible), visible, id, answer)
      ensures answer.Accepted? ==>
        && id in old(visible) && old(visible)[id].lifecycle == Working
        && answer.record == old(visible)[id].(candidate := Some(candidate), updated := answer.record.updated)
        && old(visible)[id].candidate in {None, Some(candidate)}
        && old(visible)[id].source != Some(candidate) && candidate !in old(visible)[id].baseline
      ensures id in old(visible) ==> visible[id].lifecycle == old(visible)[id].lifecycle
    {
      hide Tracked;
      DurableLags();
      if !initialized { return Refused(NotInitialized); }
      if id !in records { return Refused(Reason.NotFound); }
      var r := records[id];
      if r.lifecycle != Working { return Refused(WrongLifecycle); }
      if r.candidate == Some(candidate) { return Accepted(r); }
      if r.candidate.Some? { return Refused(InvalidRecord); }
      answer := Update(id, r.(candidate := Some(candidate)));
    }

    method MarkCandidateDurable(id: RunId) returns (answer: Answer)
      requires Valid()
      modifies this
      ensures Valid() && Continues(old(durable), old(dirty), id, answer.Broken?) && Effect(old(visible), visible, id, answer)
      ensures answer.Accepted? ==>
        && id in old(visible) && old(visible)[id].lifecycle == Working && old(visible)[id].candidate.Some?
        && answer.record == old(visible)[id].(durable := true, updated := clock) && durable == visible && dirty == {}
      ensures id in old(visible) ==> visible[id].lifecycle == old(visible)[id].lifecycle
    {
      hide Tracked;
      DurableLags();
      if !initialized { return Refused(NotInitialized); }
      if id !in records { return Refused(Reason.NotFound); }
      var r := records[id];
      if r.lifecycle != Working { return Refused(WrongLifecycle); }
      if r.candidate.None? { return Refused(InvalidRecord); }
      answer := Update(id, r.(durable := true));
    }

    method MarkAwaitingFinalize(id: RunId) returns (answer: Answer)
      requires Valid()
      modifies this
      ensures Valid() && Continues(old(durable), old(dirty), id, answer.Broken?) && Effect(old(visible), visible, id, answer)
      ensures answer.Refused? <==>
        !old(initialized) || id !in old(visible) || old(visible)[id].lifecycle !in {Starting, Working}
      ensures answer.Accepted? ==>
        answer.record == old(visible)[id].(lifecycle := AwaitingFinalize, updated := clock) && durable == visible && dirty == {}
      ensures id in old(visible) ==>
        id in visible && visible[id].durable == old(visible)[id].durable && visible[id].candidate == old(visible)[id].candidate
    {
      hide Tracked;
      DurableLags();
      if !initialized { return Refused(NotInitialized); }
      if id !in records { return Refused(Reason.NotFound); }
      if records[id].lifecycle !in {Starting, Working} { return Refused(WrongLifecycle); }
      answer := Update(id, records[id].(lifecycle := AwaitingFinalize));
    }

    /**
     `finalize`: the first decision stays. A repeated decision is accepted without touching the disk,
     so the acknowledged decision is durable exactly when this call wrote it or its file is not dirty.
     */
    method Finalize(id: RunId, decision: Decision) returns (answer: Answer)
      requires Valid()
      modifies this
      ensures Valid() && Continues(old(durable), old(dirty), id, answer.Broken?) && Effect(old(visible), visible, id, answer)
      ensures answer.Refused? <==>
        || !old(initialized) || id !in old(visible)
        || old(visible)[id].lifecycle in {Starting, Working}
        || (HasDecision(old(visible), id) && old(visible)[id].disposition != Some(decision))
      ensures answer.Accepted? ==>
        && answer.record.disposition == Some(decision)
        && answer.record.candidate == old(visible)[id].candidate && answer.record.source == old(visible)[id].source
      ensures answer.Accepted? ==>
        (At(durable, id) == Some(answer.record) <==> Unfinalized(old(visible)[id]) || id !in old(dirty))
      ensures answer.Accepted? ==> dirty == if Unfinalized(old(visible)[id]) then {} else old(dirty)
      ensures answer.Broken? <==> !answer.Refused? && Unfinalized(old(visible)[id]) && old(Next()) != NoFault
      ensures answer.Broken? ==> durable == old(durable)
      ensures answer.Broken? ==> dirty == if old(Next()) == BeforeSync then old(dirty) + {id} else old(dirty)
      ensures answer.Broken? && old(Next()) == BeforeSync ==> HasDecision(visible, id)
      ensures answer.Broken? && HasDecision(visible, id) ==> visible[id].disposition == Some(decision)
    {
      hide Tracked;
      DurableLags();
      if !initialized { return Refused(NotInitialized); }
      if id !in records { return Refused(Reason.NotFound); }
      var r := records[id];
      assert StateOk(visible[id]);
      if r.disposition.Some? {
        return if r.disposition.value != decision then Refused(DecidedAs(r.disposition.value)) else Accepted(r);
      }
      if r.lifecycle != AwaitingFinalize { return Refused(WrongLifecycle); }
      answer := Update(id, r.(lifecycle := if decision == Commit then Committed else Aborted, disposition := Some(decision)));
    }

    /** The unlink of `delete` and the sync after it; any error closes the store. */
    method Unlink(id: RunId) returns (ok: bool)
      requires initialized
      modifies this`visible, this`durable, this`between, this`initialized, this`faults, this`dirty
      ensures initialized == ok
      ensures dirty == (if ok then {} else if old(Next()) == BeforeSync then old(dirty) + {id} else old(dirty))
      ensures Shown() == if ok then [visible, visible] else if old(Next()) == BeforeSync then old(Shown()) + [visible] else old(Shown())
      ensures durable == if ok then visible else old(durable)
      ensures ok <==> old(Next()) == NoFault
      ensures visible == if old(Next()) == BeforeReplace then old(visible) else old(visible) - {id}
    {
      var fault := NextFault();
      if fault != BeforeReplace { between, visible := between + [visible], visible - {id}; }
      ok := fault == NoFault;
      if ok {
        durable, between, dirty := visible, [], {};
      } else {
        initialized := false;
        if fault == BeforeSync { dirty := dirty + {id}; }
      }
    }

    /** `delete`: only decided records go; None says that there was nothing to delete. */
    method Delete(id: RunId) returns (answer: Option<Answer>)
      requires Valid()
      modifies this
      ensures Valid() && Continues(old(durable), old(dirty), id, answer == Some(Broken))
      ensures visible == old(visible) || (visible == old(visible) - {id} && HasDecision(old(visible), id))
      ensures answer.Some? && answer.value.Accepted? ==> id !in visible && durable == visible && dirty == {}
      ensures answer.None? ==> visible == old(visible) && id !in visible
      ensures answer.Some? && answer.value.Refused? ==> visible == old(visible) && durable == old(durable)
    {
      hide Tracked, Successor, InFlight, FilesOk;
      if dirty == {} { SyncedIfClean(); }
      if !initialized { return Some(Refused(NotInitialized)); }
      if id !in records { return None; }
      var r := records[id];
      ShownOk(visible, id);
      if Unfinalized(r) { return Some(Refused(WrongLifecycle)); }
      DeleteInFlight(visible, id);
      RemovalOk(visible, id);
      TrackedMore(Shown(), dirty, clock, visible - {id}, id, clock);
      var ok := Unlink(id);
      if !ok { return Some(Broken); }
      records := records - {id};
      return Some(Accepted(r));
    }

    method Get(id: RunId) returns (record: Option<ExecutionRecord>, ok: bool)
      requires Valid()
      ensures ok == initialized
      ensures ok ==> record == At(visible, id)
    {
      if !initialized { return None, false; }
      return if id in records then Some(records[id]) else None, true;
    }

    method ListUnfinalized() returns (ids: set<RunId>, ok: bool)
      requires Valid()
      ensures ok == initialized
      ensures ok ==> |ids| <= 1 && forall id :: id in ids <==> id in visible && Unfinalized(visible[id])
    {
      ids, ok := {}, initialized;
      if ok {
        ids := set id | id in records && Unfinalized(records[id]);
        if ids != {} {
          ghost var one :| one in ids;
          assert ids == {one};
        }
      }
    }

    // ---- Crashes -----------------------------------------------------------------------------

    /** The process dies and starts again: memory is gone, the directory is as it was. */
    method Restart()
      requires Valid()
      modifies this`records, this`initialized
      ensures Valid() && initialized
    {
      Initialize();
    }

    /**
     The machine dies: of each file some version shown since the last sync is left, and what is left is
     durable. With at most one unsynced file the directory is as it was at one of those moments, and the
     store opens again.
     */
    method PowerLoss(kept: map<RunId, nat>)
      requires Valid()
      modifies this`records, this`initialized, this`visible, this`durable, this`between, this`dirty
      ensures visible == Survivors(old(Shown()), kept) && durable == visible && dirty == {}
      ensures initialized <==> FilesOk(visible)
      ensures forall x: RunId :: At(visible, x) == Left(old(Shown()), kept, x)
      ensures initialized ==> Valid()
      ensures |old(dirty)| <= 1 ==> initialized && visible in old(Shown())
    {
      hide Tracked, FilesOk, Survivors;
      TrackedSurvivors(Shown(), dirty, clock, kept);
      forall y: RunId ensures At(Survivors(Shown(), kept), y) == Left(Shown(), kept, y) {
        SurvivorAt(Shown(), kept, y);
      }
      visible := Survivors(Shown(), kept);
      durable, between, dirty, initialized := visible, [], {}, false;
      assert Shown() == [visible, visible];
      Initialize();
    }

    /** One call of the runtime on the store. */
    method Call(op: Op) returns (answer: Answer)
      requires Valid()
      modifies this
      ensures Valid() && Continues(old(durable), old(dirty), op.id, answer.Broken?)
      ensures AcceptedWrite(op, answer) ==> dirty == {}
      ensures OneLater(old(visible), visible, op.id)
      ensures forall x: RunId :: HasDecision(old(visible), x) && op != OpDelete(x) ==> At(visible, x) == At(old(visible), x)
    {
      match op {
        case OpReserve(id, source, baseline) => answer := Reserve(id, source, baseline);
        case OpRunning(id) => answer := MarkRunning(id);
        case OpCandidate(id, candidate) => answer := RecordCandidate(id, candidate);
        case OpDurable(id) => answer := MarkCandidateDurable(id);
        case OpAwaiting(id) => answer := MarkAwaitingFinalize(id);
        case OpFinalize(id, decision) => answer := Finalize(id, decision);
        case OpDelete(id) =>
          var deleted := Delete(id);
          answer := if deleted.Some? then deleted.value else Refused(Reason.NotFound);
      }
      assert !op.OpDelete? && op.id in old(visible) ==> op.id in visible;
      forall x: RunId | HasDecision(old(visible), x) && op != OpDelete(x) ensures At(visible, x) == At(old(visible), x) {
        LaterKeepsDecided(old(visible), visible, op.id, x);
      }
    }

    /**
     Any run of calls, process crashes and restarts: a decision the directory has shown stays until
     its record is deleted, and if no call was answered Broken since the last accepted write, nothing
     that the directory shows can revert in a power loss.
     */
    method Serve(ops: seq<Op>, restarts: set<nat>, x: RunId) returns (answers: seq<Answer>)
      requires Valid()
      modifies this
      ensures Valid() && |answers| == |ops|
      ensures HasDecision(old(visible), x) && OpDelete(x) !in ops ==> At(visible, x) == At(old(visible), x)
      ensures x in visible ==>
        (x in dirty <==> exists kept: map<RunId, nat> :: At(Survivors(Shown(), kept), x) != At(visible, x))
      ensures old(dirty) == {} && !Suspect(ops, answers) ==>
        dirty == {} && durable == visible && forall kept: map<RunId, nat> :: Survivors(Shown(), kept) == visible
      ensures old(HasDecision(visible, x)) && x !in old(dirty) && OpDelete(x) !in ops ==> x !in dirty
    {
      hide Tracked, FilesOk, Survivors, Suspect, InFlight;
      answers := [];
      while |answers| < |ops|
        invariant |answers| <= |ops| && Valid()
        invariant HasDecision(old(visible), x) && OpDelete(x) !in ops ==> At(visible, x) == At(old(visible), x)
        invariant old(dirty) == {} && !Suspect(ops[..|answers|], answers) ==> dirty == {}
        invariant old(HasDecision(visible, x)) && x !in old(dirty) && OpDelete(x) !in ops ==> x !in dirty
      {
        var k := |answers|;
        if k in restarts { Restart(); }
        DurableLags();
        var answer := Call(ops[k]);
        DurableLags();
        SuspectNext(ops, answers, answer);
        answers := answers + [answer];
      }
      assert ops[..|answers|] == ops;
      if x in visible { RevertsIffDirty(x); }
      if dirty == {} { NothingReverts(); }
    }

    /**
     A decision that the directory shows when the machine dies is there afterwards if its file was not
     dirty, and in any case if no call was answered Broken since the last accepted write.
     */
    method ServeThroughPowerLoss(before: seq<Op>, restarts: set<nat>, kept: map<RunId, nat>, after: seq<Op>, x: RunId)
      returns (answers: seq<Answer>, ghost shown: Versions, ghost unsynced: set<RunId>)
      requires Valid()
      modifies this
      ensures |answers| == |before| && (old(dirty) == {} && !Suspect(before, answers) ==> unsynced == {})
      ensures |unsynced| <= 1 ==> Valid()
      ensures |unsynced| <= 1 && HasDecision(Newest(shown), x) && OpDelete(x) !in after ==>
        (x !in unsynced || (x in kept && kept[x] == |shown| - 1) ==> At(visible, x) == At(Newest(shown), x))
      ensures HasDecision(Newest(shown), x) && x in unsynced && x !in kept && after == [] ==> At(visible, x) != At(Newest(shown), x)
      ensures HasDecision(old(visible), x) && OpDelete(x) !in before ==> At(Newest(shown), x) == At(old(visible), x)
    {
      answers := Serve(before, restarts, x);
      shown, unsynced := Shown(), dirty;
      if x !in dirty { CleanIsLeft(kept, x); }
      PowerLoss(kept);
      if after != [] && initialized {
        var _ := Serve(after, {}, x);
      }
    }

    /**
     An acknowledged decision can revert: the write of "commit" becomes visible but is not synced, the
     restarted store acknowledges the repeated request from memory, and the power loss leaves the
     older file.
     */
    method AcknowledgedDecisionReverts() returns (first: Answer, second: Answer)
      requires Valid() && initialized && dirty == {} && faults == [BeforeSync]
      requires 0 in visible && visible[0].lifecycle == AwaitingFinalize
      modifies this
      ensures first == Broken && second.Accepted? && second.record.disposition == Some(Commit)
      ensures At(Survivors(Shown(), map[]), 0) == At(old(visible), 0)
    {
      hide Tracked, Successor, InFlight, FilesOk, Survivors;
      ShownOk(visible, 0);
      SyncedIfClean();
      first := Finalize(0, Commit);
      ShownOk(visible, 0);
      Restart();
      second := Finalize(0, Commit);
      SurvivorAt(Shown(), map[], 0);
    }
  }

  lemma Singleton(ids: set<RunId>, x: RunId)
    requires |ids| <= 1 && x in ids
    ensures ids == {x}
  {
    assert |ids - {x}| == 0;
  }

  /** An answer that tells its caller that the whole directory has been synced. */
  predicate AcceptedWrite(op: Op, answer: Answer) {
    answer.Accepted? && !op.OpFinalize? && !op.OpCandidate?
  }

  /** Some call was answered Broken, and no accepted write followed. */
  ghost predicate Suspect(ops: seq<Op>, answers: seq<Answer>)
    requires |answers| == |ops|
  {
    exists k :: 0 <= k < |answers| && answers[k].Broken? && forall j :: k < j < |answers| ==> !AcceptedWrite(ops[j], answers[j])
  }

  lemma SuspectNext(ops: seq<Op>, answers: seq<Answer>, answer: Answer)
    requires |answers| < |ops|
    ensures ops[..|answers + [answer]|] == ops[..|answers|] + [ops[|answers|]]
    ensures Suspect(ops[..|answers + [answer]|], answers + [answer]) <==>
              answer.Broken? || (Suspect(ops[..|answers|], answers) && !AcceptedWrite(ops[|answers|], answer))
  {
    var n := |answers|;
    var more, longer := answers + [answer], ops[..n + 1];
    if answer.Broken? {
      assert more[n].Broken?;
    }
    if Suspect(longer, more) && !answer.Broken? {
      var k :| 0 <= k < |more| && more[k].Broken? && forall j :: k < j < |more| ==> !AcceptedWrite(longer[j], more[j]);
      assert !AcceptedWrite(longer[n], more[n]);
      assert answers[k].Broken?;
      forall j | k < j < n ensures !AcceptedWrite(ops[..n][j], answers[j]) {
        assert !AcceptedWrite(longer[j], more[j]);
      }
    }
    if Suspect(ops[..n], answers) && !AcceptedWrite(ops[n], answer) {
      var k :| 0 <= k < n && answers[k].Broken? && forall j :: k < j < n ==> !AcceptedWrite(ops[..n][j], answers[j]);
      assert more[k].Broken?;
      forall j | k < j < |more| ensures !AcceptedWrite(longer[j], more[j]) {
        assert j < n ==> !AcceptedWrite(ops[..n][j], answers[j]);
      }
    }
  }

  lemma ReplaceInFlight(m: Files, id: RunId, r: ExecutionRecord)
    requires StateOk(r) ==> Successor(At(m, id), Some(r))
    ensures InFlight(m, m) && (StateOk(r) ==> InFlight(m, m[id := r]))
  {
    assert m - {id} == m[id := r] - {id};
    assert At(m[id := r], id) == Some(r);
  }

  /** A call on run id changes at most that file, by one legal step, and nothing when it refuses. */
  ghost predicate Effect(m: Files, n: Files, id: RunId, answer: Answer) {
    && n - {id} == m - {id}
    && (At(n, id) == At(m, id) || Successor(At(m, id), At(n, id)))
    && (id in m ==> id in n) && (answer.Refused? ==> n == m)
    && (answer.Accepted? ==> At(n, id) == Some(answer.record))
  }

  lemma ShownOk(m: Files, id: RunId)
    requires FilesOk(m) && id in m
    ensures StateOk(m[id])
  {
  }

  lemma RemovalOk(m: Files, id: RunId)
    requires FilesOk(m)
    ensures FilesOk(m - {id})
  {
  }

  lemma DeleteInFlight(m: Files, id: RunId)
    requires HasDecision(m, id)
    ensures InFlight(m, m) && InFlight(m, m - {id})
  {
    assert m - {id} == (m - {id}) - {id};
    assert Successor(At(m, id), At(m - {id}, id));
  }

  datatype Op =
    | OpReserve(id: RunId, source: Option<SessionId>, baseline: set<SessionId>)
    | OpRunning(id: RunId)
    | OpCandidate(id: RunId, candidate: SessionId)
    | OpDurable(id: RunId)
    | OpAwaiting(id: RunId)
    | OpFinalize(id: RunId, decision: Decision)
    | OpDelete(id: RunId)

  /** Only file id differs, by one legal step. */
  ghost predicate OneLater(m: Files, n: Files, id: RunId) {
    n - {id} == m - {id} && (At(n, id) == At(m, id) || Successor(At(m, id), At(n, id)))
  }

  lemma LaterKeepsDecided(m: Files, n: Files, id: RunId, x: RunId)
    requires OneLater(m, n, id) && FilesOk(m) && HasDecision(m, x)
    requires x != id || x in n
    ensures At(n, x) == At(m, x)
  {
    if x != id {
      assert At(n - {id}, x) == At(m - {id}, x);
    } else {
      assert StateOk(m[id]);
    }
  }
}
