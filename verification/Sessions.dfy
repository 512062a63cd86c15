/**
 Session directories of the runtime and who owns them:
 services/agent-runtime/src/harness_forge_runtime/sessions.py. Every unlink, mkdir, write and rename
 is a point where the process may die; the budget says how many of them still happen.
 */
module Sessions {
  import opened Basics
  import opened RunStore

  type Bucket(==) = string
  type Content = string
  type Path(==) = string

  // ---- The directory tree ------------------------------------------------------------------

  /** What a directory holds of one session: its transcript file, its directory of files, or both. */
  datatype Entry =
    | Transcript(main: Content)
    | Directory(files: map<Path, Content>)
    | Full(main: Content, files: map<Path, Content>)

  /** The ownership marker file. `home` is the bucket that holds the original of the source. */
  datatype Marker = Marker(run: RunId, bucket: Bucket, source: Option<SessionId>, home: Option<Bucket>)

  datatype Dir = Dir(owner: Option<Marker>, entries: map<SessionId, Entry>)

  type Projects = map<Bucket, Dir>

  const EMPTY := Dir(None, map[])

  function DirAt(p: Projects, b: Bucket): Dir {
    if b in p then p[b] else EMPTY
  }

  function EntryAt(p: Projects, b: Bucket, id: SessionId): Option<Entry> {
    if id in DirAt(p, b).entries then Some(DirAt(p, b).entries[id]) else None
  }

  /** A source copy, as its bucket's marker declares. */
  predicate Staged(dir: Dir, id: SessionId) {
    dir.owner.Some? && dir.owner.value.source == Some(id)
  }

  predicate Original(dir: Dir, id: SessionId) {
    id in dir.entries && !Staged(dir, id)
  }

  predicate HasMain(e: Entry) {
    !e.Directory?
  }

  /** x is e after some unlinks. */
  predicate Smaller(x: Entry, e: Entry) {
    && (HasMain(x) ==> HasMain(e) && x.main == e.main)
    && (!x.Transcript? ==> !e.Transcript? && forall path :: path in x.files ==> path in e.files && x.files[path] == e.files[path])
  }

  predicate Owns(p: Projects, run: RunId, b: Bucket) {
    DirAt(p, b).owner.Some? && DirAt(p, b).owner.value.run == run
  }

  predicate MarkerOk(m: Marker, b: Bucket) {
    && m.bucket == b
    && (m.source.Some? <==> m.home.Some?)
    && m.home != Some(b)
  }

  /** An ID has one original, and its source copies name the original's bucket. */
  ghost predicate OneHome(p: Projects, id: SessionId) {
    forall b, c :: Original(DirAt(p, b), id) && id in DirAt(p, c).entries ==>
      if Staged(DirAt(p, c), id) then DirAt(p, c).owner.value.home == Some(b) else b == c
  }

  /** Every marker is valid, no run owns two buckets, and every ID has one home. */
  ghost predicate WellFormed(p: Projects) {
    && (forall b :: DirAt(p, b).owner.Some? ==> MarkerOk(DirAt(p, b).owner.value, b))
    && (forall b, c, run :: Owns(p, run, b) && Owns(p, run, c) ==> b == c)
    && (forall id :: OneHome(p, id))
  }

  /** The IDs whose original transcript exists: what `exists` answers and the protocol calls present. */
  function Originals(p: Projects): set<SessionId> {
    set b, id | b in p && id in p[b].entries && !Staged(p[b], id) && HasMain(p[b].entries[id]) :: id
  }

  function Ids(p: Projects): set<SessionId> {
    set b, id | b in p && id in p[b].entries :: id
  }

  // ---- What a cleanup removes --------------------------------------------------------------

  datatype Target = These(ids: set<SessionId>) | AllBut(kept: set<SessionId>)

  predicate Doomed(t: Target, id: SessionId) {
    match t
    case These(ids) => id in ids
    case AllBut(kept) => id !in kept
  }

  predicate HasOriginal(dir: Dir) {
    exists c :: c in dir.entries && Original(dir, c)
  }

  /** The bucket's own sessions all go, so its source copy goes with them. */
  predicate Abandoned(dir: Dir, t: Target) {
    HasOriginal(dir) && forall c :: c in dir.entries && Original(dir, c) ==> Doomed(t, c)
  }

  /** The entries a cleanup of `t`, or of everything `run` staged, has to remove. */
  predicate Dropped(p: Projects, t: Target, run: Option<RunId>, b: Bucket, id: SessionId) {
    || Doomed(t, id)
    || (Staged(DirAt(p, b), id) &&
         ((run.Some? && Owns(p, run.value, b)) || Abandoned(DirAt(p, b), t)))
  }

  /** q is p after removing, perhaps only in part, entries that the cleanup drops. */
  ghost predicate Toward(p: Projects, q: Projects, t: Target, run: Option<RunId>) {
    && (forall b :: DirAt(q, b).owner == DirAt(p, b).owner || DirAt(q, b) == EMPTY)
    && (forall b, id :: !Dropped(p, t, run, b, id) ==> EntryAt(q, b, id) == EntryAt(p, b, id))
    && (forall b, id :: EntryAt(q, b, id).Some? ==>
          && EntryAt(p, b, id).Some? && Smaller(EntryAt(q, b, id).value, EntryAt(p, b, id).value)
          && Dropped(q, t, run, b, id) == Dropped(p, t, run, b, id))
  }

  ghost predicate Completed(p: Projects, t: Target, run: Option<RunId>) {
    forall b, id :: EntryAt(p, b, id).Some? ==> !Dropped(p, t, run, b, id)
  }

  ghost predicate SameEntries(p: Projects, q: Projects) {
    forall b, id :: EntryAt(p, b, id) == EntryAt(q, b, id)
  }

  // ---- Laws of cleanup ---------------------------------------------------------------------

  lemma TowardReflexive(p: Projects, t: Target, run: Option<RunId>)
    ensures Toward(p, p, t, run)
  {
  }

  lemma TowardTransitive(p: Projects, q: Projects, r: Projects, t: Target, run: Option<RunId>)
    requires Toward(p, q, t, run) && Toward(q, r, t, run)
    ensures Toward(p, r, t, run)
  {
    forall b ensures DirAt(r, b).owner == DirAt(p, b).owner || DirAt(r, b) == EMPTY {
      if DirAt(q, b) == EMPTY {
        forall id ensures id !in DirAt(r, b).entries {
          assert EntryAt(r, b, id).Some? ==> EntryAt(q, b, id).Some?;
        }
        assert DirAt(r, b).entries == map[];
      }
    }
    forall b, id | !Dropped(p, t, run, b, id) ensures EntryAt(r, b, id) == EntryAt(p, b, id) {
      assert EntryAt(q, b, id) == EntryAt(p, b, id);
      if EntryAt(r, b, id).Some? || EntryAt(q, b, id).Some? {
        assert EntryAt(q, b, id).Some?;
      }
    }
  }

  /** However often a cleanup was interrupted and whatever it had removed, it ends with the same entries. */
  lemma CleanupConverges(p: Projects, q: Projects, r: Projects, t: Target, run: Option<RunId>)
    requires Toward(p, q, t, run) && Completed(q, t, run)
    requires Toward(p, r, t, run) && Completed(r, t, run)
    ensures SameEntries(q, r)
  {
    forall b, id ensures EntryAt(q, b, id) == EntryAt(r, b, id) {
      if Dropped(p, t, run, b, id) {
        assert EntryAt(q, b, id).None? && EntryAt(r, b, id).None?;
      }
    }
  }

  lemma TowardKeepsWellFormed(p: Projects, q: Projects, t: Target, run: Option<RunId>)
    requires WellFormed(p) && Toward(p, q, t, run)
    ensures WellFormed(q)
  {
    forall b, id | id in DirAt(q, b).entries
      ensures id in DirAt(p, b).entries && DirAt(q, b).owner == DirAt(p, b).owner
    {
      assert EntryAt(q, b, id).Some?;
    }
    forall b, run' | Owns(q, run', b) ensures Owns(p, run', b) {}
    forall id ensures OneHome(q, id) {
      assert OneHome(p, id);
      forall b, c | Original(DirAt(q, b), id) && id in DirAt(q, c).entries
        ensures if Staged(DirAt(q, c), id) then DirAt(q, c).owner.value.home == Some(b) else b == c
      {
        assert Original(DirAt(p, b), id) && id in DirAt(p, c).entries;
      }
    }
  }

  /** Which originals a finished cleanup leaves. */
  lemma OriginalsAfter(p: Projects, q: Projects, t: Target, run: Option<RunId>)
    requires Toward(p, q, t, run) && Completed(q, t, run)
    ensures Originals(q) == set id | id in Originals(p) && !Doomed(t, id)
  {
    forall b, id ensures EntryAt(q, b, id).Some? && !Staged(DirAt(q, b), id) <==>
                         EntryAt(p, b, id).Some? && !Staged(DirAt(p, b), id) && !Doomed(t, id)
    {
      if EntryAt(p, b, id).Some? && !Staged(DirAt(p, b), id) && !Doomed(t, id) {
        assert !Dropped(p, t, run, b, id);
      }
      if EntryAt(q, b, id).Some? && Doomed(t, id) {
        assert Dropped(q, t, run, b, id);
      }
    }
    forall id | id in Originals(q) ensures id in Originals(p) && !Doomed(t, id) {
      var b :| b in q && id in q[b].entries && !Staged(q[b], id) && HasMain(q[b].entries[id]);
      assert EntryAt(q, b, id).Some?;
      assert !Dropped(q, t, run, b, id) && EntryAt(p, b, id) == EntryAt(q, b, id);
    }
    forall id | id in Originals(p) && !Doomed(t, id) ensures id in Originals(q) {
      var b :| b in p && id in p[b].entries && !Staged(p[b], id) && HasMain(p[b].entries[id]);
      assert !Dropped(p, t, run, b, id);
      assert EntryAt(q, b, id) == EntryAt(p, b, id);
    }
  }

  /** Even an interrupted cleanup touches no original that it is to keep, and makes no new one. */
  lemma OriginalsDuring(p: Projects, q: Projects, t: Target, run: Option<RunId>)
    requires Toward(p, q, t, run)
    ensures forall id :: id in Originals(p) && !Doomed(t, id) ==> id in Originals(q)
    ensures forall b, id :: Original(DirAt(p, b), id) && !Doomed(t, id) ==> EntryAt(q, b, id) == EntryAt(p, b, id)
  {
    forall b, id | Original(DirAt(p, b), id) && !Doomed(t, id) ensures EntryAt(q, b, id) == EntryAt(p, b, id) {
      assert !Dropped(p, t, run, b, id);
    }
    forall id | id in Originals(p) && !Doomed(t, id) ensures id in Originals(q) {
      var b :| b in p && id in p[b].entries && !Staged(p[b], id) && HasMain(p[b].entries[id]);
      assert Original(DirAt(p, b), id);
      assert EntryAt(q, b, id) == EntryAt(p, b, id);
    }
  }

  lemma OriginalsShrink(p: Projects, q: Projects, t: Target, run: Option<RunId>)
    requires Toward(p, q, t, run)
    ensures Originals(q) <= Originals(p)
  {
    forall id | id in Originals(q) ensures id in Originals(p) {
      var b :| b in q && id in q[b].entries && !Staged(q[b], id) && HasMain(q[b].entries[id]);
      assert EntryAt(q, b, id).Some? && EntryAt(p, b, id).Some?;
    }
  }

  /** Deleting one doomed session is progress of any cleanup that dooms it. */
  lemma Widen(p: Projects, q: Projects, id: SessionId, t: Target, run: Option<RunId>)
    requires Toward(p, q, These({id}), None) && Doomed(t, id)
    ensures Toward(p, q, t, run)
  {
    forall b, x | !Dropped(p, t, run, b, x) ensures EntryAt(q, b, x) == EntryAt(p, b, x) {
      assert !Dropped(p, These({id}), None, b, x);
    }
    forall b, x | EntryAt(q, b, x).Some? ensures Dropped(q, t, run, b, x) == Dropped(p, t, run, b, x) {
      assert Dropped(q, These({id}), None, b, x) == Dropped(p, These({id}), None, b, x);
      assert DirAt(q, b).owner == DirAt(p, b).owner;
      if Staged(DirAt(p, b), x) && x != id {
        WidenAbandoned(p, q, id, t, b, x);
      }
    }
  }

  lemma WidenAbandoned(p: Projects, q: Projects, id: SessionId, t: Target, b: Bucket, x: SessionId)
    requires Toward(p, q, These({id}), None) && Doomed(t, id)
    requires EntryAt(q, b, x).Some? && Staged(DirAt(p, b), x) && x != id
    ensures Abandoned(DirAt(q, b), t) == Abandoned(DirAt(p, b), t)
  {
    var dp, dq := DirAt(p, b), DirAt(q, b);
    forall c ensures Original(dq, c) ==> Original(dp, c) {
      assert EntryAt(q, b, c).Some? ==> EntryAt(p, b, c).Some?;
    }
    forall c | Original(dp, c) && c != id ensures Original(dq, c) {
      assert !Dropped(p, These({id}), None, b, c);
      assert EntryAt(q, b, c) == EntryAt(p, b, c);
    }
    assert Dropped(q, These({id}), None, b, x) == Dropped(p, These({id}), None, b, x);
    assert Abandoned(dq, These({id})) == Abandoned(dp, These({id}));
    assert HasOriginal(dp) && !HasOriginal(dq) ==> Abandoned(dp, These({id}));
  }

  // ---- Single file-system steps ------------------------------------------------------------

  function WithEntry(p: Projects, b: Bucket, id: SessionId, e: Option<Entry>): Projects
    requires b in p
  {
    p[b := p[b].(entries := if e.Some? then p[b].entries[id := e.value] else p[b].entries - {id})]
  }

  predicate OtherCandidates(dir: Dir, id: SessionId) {
    exists c :: c in dir.entries && c != id && Original(dir, c)
  }

  /** A candidate goes only after the source copy that its bucket holds for it alone. */
  predicate SafeToRemove(dir: Dir, id: SessionId) {
    Staged(dir, id) || OtherCandidates(dir, id) || forall x :: x in dir.entries ==> !Staged(dir, x)
  }

  lemma EntryStep(p: Projects, b: Bucket, id: SessionId, e: Option<Entry>, t: Target, run: Option<RunId>)
    requires b in p && id in p[b].entries && Dropped(p, t, run, b, id)
    requires if e.Some? then Smaller(e.value, p[b].entries[id]) else SafeToRemove(p[b], id)
    ensures Toward(p, WithEntry(p, b, id, e), t, run)
  {
    var q := WithEntry(p, b, id, e);
    forall c, x | EntryAt(q, c, x).Some? ensures Dropped(q, t, run, c, x) == Dropped(p, t, run, c, x) {
      if c == b && Staged(p[b], x) {
        forall y ensures Original(q[b], y) <==> Original(p[b], y) && (e.Some? || y != id) {}
        if e.Some? || Staged(p[b], id) {
          assert Abandoned(q[b], t) == Abandoned(p[b], t);
        } else {
          assert OtherCandidates(p[b], id);
          assert HasOriginal(q[b]) && HasOriginal(p[b]);
          assert Abandoned(q[b], t) == Abandoned(p[b], t);
        }
      }
    }
  }

  predicate OwnerOnly(dir: Dir) {
    dir.owner.Some? && dir.entries == map[]
  }

  lemma EmptyStep(p: Projects, q: Projects, b: Bucket, t: Target, run: Option<RunId>)
    requires DirAt(p, b).entries == map[] && DirAt(q, b) == EMPTY
    requires forall c :: c != b ==> DirAt(q, c) == DirAt(p, c)
    ensures Toward(p, q, t, run) && SameEntries(p, q)
  {
    forall c, x ensures EntryAt(q, c, x) == EntryAt(p, c, x) {}
  }

  /** What abort accepts in `.staging/run`: nothing unowned, and only what preparation can have written. */
  predicate StagingOk(dir: Dir, run: RunId, source: Option<SessionId>) {
    if dir.owner.None? then dir.entries == map[]
    else
      && MarkerOk(dir.owner.value, dir.owner.value.bucket)
      && dir.owner.value.run == run && dir.owner.value.source == source
      && forall id :: id in dir.entries ==> source == Some(id)
  }

  type Staging = map<RunId, Dir>

  ghost predicate AbortValid(p: Projects, s: Staging, run: RunId, source: Option<SessionId>) {
    && WellFormed(p)
    && (forall b :: Owns(p, run, b) ==> DirAt(p, b).owner.value.source == source)
    && (run in s ==> StagingOk(s[run], run, source))
  }

  function Spared(baseline: set<SessionId>, source: Option<SessionId>): Target {
    AllBut(baseline + if source.Some? then {source.value} else {})
  }

  datatype Outcome = Done | Crashed | Refused | Missing | Exists

  /** `_inventory`: refuses duplicate owners, duplicate originals and mislabelled copies. */
  method Inventory(p: Projects) returns (ok: bool)
    ensures ok <==> WellFormed(p)
  {
    ok := CheckOwners(p);
    if !ok { return; }
    var ids := Ids(p);
    forall id | id !in ids ensures OneHome(p, id) {}
    while ids != {}
      invariant forall id :: id !in ids ==> OneHome(p, id)
      decreases |ids|
    {
      var id :| id in ids;
      ok := CheckHome(p, id);
      if !ok { return; }
      ids := ids - {id};
    }
    ok := true;
  }

  method CheckHome(p: Projects, id: SessionId) returns (ok: bool)
    ensures ok <==> OneHome(p, id)
  {
    var locations := set b | b in p && id in p[b].entries;
    var originals := set b | b in locations && !Staged(p[b], id);
    if originals == {} {
      assert forall b :: Original(DirAt(p, b), id) ==> b in originals;
      return true;
    }
    var b :| b in originals;
    assert Original(DirAt(p, b), id);
    if originals != {b} {
      ghost var c :| c in originals && c != b;
      assert Original(DirAt(p, c), id);
      return false;
    }
    if exists c :: c in locations && c !in originals && p[c].owner.value.home != Some(b) {
      ghost var c :| c in locations && c !in originals && p[c].owner.value.home != Some(b);
      assert id in DirAt(p, c).entries;
      return false;
    }
    assert forall c :: id in DirAt(p, c).entries ==> c in locations;
    assert forall c :: Original(DirAt(p, c), id) ==> c in originals;
    ok := true;
  }

  method CheckOwners(p: Projects) returns (ok: bool)
    ensures ok <==>
      && (forall b :: DirAt(p, b).owner.Some? ==> MarkerOk(DirAt(p, b).owner.value, b))
      && (forall b, c, run :: Owns(p, run, b) && Owns(p, run, c) ==> b == c)
  {
    var owners: map<Bucket, Marker> := map[];
    var rest := p.Keys;
    while rest != {}
      invariant rest <= p.Keys
      invariant forall b :: b in owners <==> b in p && b !in rest && p[b].owner.Some?
      invariant forall b :: b in owners ==> p[b].owner == Some(owners[b]) && MarkerOk(owners[b], b)
      invariant forall b, c :: b in owners && c in owners && owners[b].run == owners[c].run ==> b == c
      decreases |rest|
    {
      var b :| b in rest;
      if p[b].owner.Some? {
        if !MarkerOk(p[b].owner.value, b) {
          assert DirAt(p, b).owner.Some?;
          return false;
        }
        if exists c :: c in owners && owners[c].run == p[b].owner.value.run {
          ghost var c :| c in owners && owners[c].run == p[b].owner.value.run;
          assert Owns(p, owners[c].run, b) && Owns(p, owners[c].run, c);
          return false;
        }
        owners := owners[b := p[b].owner.value];
      }
      rest := rest - {b};
    }
    forall b, c, run | Owns(p, run, b) && Owns(p, run, c) ensures b == c {
      assert b in owners && c in owners;
    }
    ok := true;
  }

  /** Bucket b of the run holds no source copy, and some session of its own. */
  predicate BucketKept(p: Projects, run: RunId, b: Bucket) {
    && HasOriginal(DirAt(p, b))
    && forall id :: id in DirAt(p, b).entries ==> !Staged(DirAt(p, b), id)
  }

  /** Nothing is left to drop, no staging, and a bucket of the run only if it holds a spared session. */
  ghost predicate AbortDone(p: Projects, s: Staging, run: RunId, baseline: set<SessionId>, source: Option<SessionId>) {
    && Completed(p, Spared(baseline, source), Some(run))
    && run !in s
    && forall b :: Owns(p, run, b) ==> HasOriginal(DirAt(p, b))
  }

  lemma TowardOwners(p: Projects, q: Projects, t: Target, run: RunId)
    requires Toward(p, q, t, Some(run))
    ensures forall b :: Owns(q, run, b) ==> Owns(p, run, b)
  {
  }

  lemma AbortStaysValid(p: Projects, q: Projects, s: Staging, s': Staging, t: Target, run: RunId, source: Option<SessionId>)
    requires AbortValid(p, s, run, source) && Toward(p, q, t, Some(run)) && run !in s'
    ensures AbortValid(q, s', run, source)
  {
    TowardKeepsWellFormed(p, q, t, Some(run));
    forall b | Owns(q, run, b) ensures DirAt(q, b).owner.value.source == source {
      assert Owns(p, run, b);
    }
  }

  lemma ReleasedBucket(p: Projects, q: Projects, run: RunId, b: Bucket)
    requires Owns(p, run, b)
    requires DirAt(q, b).owner == DirAt(p, b).owner || DirAt(q, b) == EMPTY
    requires forall id :: EntryAt(q, b, id).Some? ==> !Staged(DirAt(p, b), id)
    requires !OwnerOnly(DirAt(q, b))
    ensures Owns(q, run, b) ==> BucketKept(q, run, b)
  {
    if Owns(q, run, b) {
      forall id | id in DirAt(q, b).entries ensures !Staged(DirAt(q, b), id) {
        assert EntryAt(q, b, id).Some?;
      }
      var id :| id in DirAt(q, b).entries;
      assert Original(DirAt(q, b), id);
    }
  }

  lemma AbortFinished(kept: Projects, q: Projects, run: RunId, baseline: set<SessionId>, source: Option<SessionId>)
    requires forall b, id :: EntryAt(kept, b, id).Some? ==> !Doomed(Spared(baseline, source), id)
    requires Toward(kept, q, Spared(baseline, source), Some(run))
    requires forall b :: Owns(q, run, b) ==> BucketKept(q, run, b)
    ensures Completed(q, Spared(baseline, source), Some(run))
    ensures forall b :: Owns(q, run, b) ==> HasOriginal(DirAt(q, b))
  {
    var t := Spared(baseline, source);
    forall b, id | EntryAt(q, b, id).Some? ensures !Dropped(q, t, Some(run), b, id) && !Doomed(t, id) {
      assert EntryAt(kept, b, id).Some?;
      if Abandoned(DirAt(q, b), t) {
        var c :| c in DirAt(q, b).entries && Original(DirAt(q, b), c);
        assert EntryAt(q, b, c).Some? && EntryAt(kept, b, c).Some?;
      }
    }
  }

  /** q is p with a new bucket of the run, holding a byte-equal copy of the source and nothing else. */
  predicate Prepared(p: Projects, q: Projects, run: RunId, bucket: Bucket, source: Option<SessionId>) {
    && bucket !in p && bucket in q && q == p[bucket := q[bucket]]
    && q[bucket].owner.Some?
    && var m := q[bucket].owner.value;
       && m.run == run && m.bucket == bucket && m.source == source
       && (source.None? ==> m.home.None? && q[bucket].entries == map[])
       && (source.Some? ==>
             && m.home.Some? && m.home.value in p
             && Original(p[m.home.value], source.value) && HasMain(p[m.home.value].entries[source.value])
             && q[bucket].entries == map[source.value := p[m.home.value].entries[source.value]])
  }

  /** Preparing adds only a copy: the inventory stays valid, no ID and no original appears or vanishes. */
  lemma PreparedKeeps(p: Projects, q: Projects, run: RunId, bucket: Bucket, source: Option<SessionId>)
    requires WellFormed(p) && Prepared(p, q, run, bucket, source)
    requires forall b :: !Owns(p, run, b)
    ensures WellFormed(q) && Ids(q) == Ids(p) && Originals(q) == Originals(p)
  {
    forall b, c, r | Owns(q, r, b) && Owns(q, r, c) ensures b == c {
      assert b != bucket ==> Owns(p, r, b);
      assert c != bucket ==> Owns(p, r, c);
    }
    forall b ensures DirAt(q, b).owner.Some? ==> MarkerOk(DirAt(q, b).owner.value, b) {
      assert b != bucket ==> DirAt(q, b) == DirAt(p, b);
    }
    forall id ensures OneHome(q, id) {
      assert OneHome(p, id);
      forall b, c | Original(DirAt(q, b), id) && id in DirAt(q, c).entries
        ensures if Staged(DirAt(q, c), id) then DirAt(q, c).owner.value.home == Some(b) else b == c
      {
        assert b != bucket;
        assert Original(DirAt(p, b), id);
        if c == bucket {
          var home := q[bucket].owner.value.home.value;
          assert Original(DirAt(p, home), id) && id in DirAt(p, home).entries;
        } else {
          assert id in DirAt(p, c).entries;
        }
      }
    }
    forall id | id in Ids(p) ensures id in Ids(q) {
      var b :| b in p && id in p[b].entries;
      assert b in q && id in q[b].entries;
    }
    forall id | id in Originals(p) ensures id in Originals(q) {
      var b :| b in p && id in p[b].entries && !Staged(p[b], id) && HasMain(p[b].entries[id]);
      assert b in q && q[b] == p[b];
    }
  }

  /** With a worker's new sessions in its own bucket, abort still recognises everything. */
  lemma WorkedValid(p: Projects, q: Projects, s: Staging, run: RunId, bucket: Bucket, source: Option<SessionId>,
                    made: map<SessionId, Entry>)
    requires WellFormed(p) && run !in s && (forall b :: !Owns(p, run, b))
    requires forall id :: id in made ==> id !in Ids(p)
    requires bucket in q && q[bucket].owner.Some? && q == p[bucket := q[bucket]]
    requires exists copy :: Prepared(p, p[bucket := q[bucket].(entries := copy)], run, bucket, source) && q[bucket].entries == copy + made
    ensures AbortValid(q, s, run, source)
  {
    var copy :| Prepared(p, p[bucket := q[bucket].(entries := copy)], run, bucket, source) && q[bucket].entries == copy + made;
    var r := p[bucket := q[bucket].(entries := copy)];
    PreparedKeeps(p, r, run, bucket, source);
    forall b, x ensures Owns(q, x, b) <==> Owns(r, x, b) {}
    forall b ensures DirAt(q, b).owner == DirAt(r, b).owner {}
    forall b | Owns(q, run, b) ensures DirAt(q, b).owner.value.source == source {
      assert !Owns(p, run, b);
    }
    forall id ensures OneHome(q, id) {
      assert OneHome(r, id);
      forall b, c | Original(DirAt(q, b), id) && id in DirAt(q, c).entries
        ensures if Staged(DirAt(q, c), id) then DirAt(q, c).owner.value.home == Some(b) else b == c
      {
        if id in made {
          assert b != bucket ==> id in DirAt(p, b).entries && b in p;
          assert c != bucket ==> id in DirAt(p, c).entries && c in p;
          assert b == bucket && c == bucket;
        } else {
          assert Original(DirAt(r, b), id) && id in DirAt(r, c).entries;
        }
      }
    }
  }

  lemma CrashedValid(p: Projects, s: Staging, run: RunId, source: Option<SessionId>)
    requires WellFormed(p) && (forall b :: !Owns(p, run, b)) && (run in s ==> StagingOk(s[run], run, source))
    ensures AbortValid(p, s, run, source)
  {
  }

  lemma AbortUndoesNothing(p: Projects, q: Projects, s: Staging, run: RunId, source: Option<SessionId>)
    requires Toward(p, q, Spared(Ids(p), source), Some(run)) && (forall b :: !Owns(p, run, b))
    requires AbortDone(q, s, run, Ids(p), source)
    ensures SameEntries(p, q) && run !in s && forall b :: !Owns(q, run, b)
  {
    var t := Spared(Ids(p), source);
    TowardOwners(p, q, t, run);
    forall b, id ensures EntryAt(p, b, id) == EntryAt(q, b, id) {
      if id in DirAt(p, b).entries {
        assert b in p && id in p[b].entries;
        assert id in Ids(p);
        assert forall c :: c in DirAt(p, b).entries ==> c in Ids(p);
        assert !Dropped(p, t, Some(run), b, id);
      } else {
        assert EntryAt(p, b, id).None?;
      }
    }
  }

  lemma AbortUndoesWork(p: Projects, w: Projects, q: Projects, s: Staging, run: RunId, bucket: Bucket,
                        source: Option<SessionId>, made: map<SessionId, Entry>)
    requires (forall b :: !Owns(p, run, b)) && bucket !in p
    requires bucket in w && w == p[bucket := w[bucket]] && Owns(w, run, bucket) && DirAt(w, bucket).owner.value.source == source
    requires forall id :: id in w[bucket].entries ==> id in made || source == Some(id)
    requires forall id :: id in made ==> id !in Ids(p) && source != Some(id)
    requires Toward(w, q, Spared(Ids(p), source), Some(run)) && AbortDone(q, s, run, Ids(p), source)
    ensures SameEntries(p, q) && run !in s && forall b :: !Owns(q, run, b)
  {
    var t := Spared(Ids(p), source);
    TowardOwners(w, q, t, run);
    forall b, id ensures EntryAt(p, b, id) == EntryAt(q, b, id) {
      if b == bucket {
        assert EntryAt(q, b, id).Some? ==> EntryAt(w, b, id).Some? && !Dropped(q, t, Some(run), b, id);
        assert EntryAt(w, b, id).Some? ==> Dropped(w, t, Some(run), b, id);
      } else if id in DirAt(p, b).entries {
        assert id in Ids(p);
        assert forall c :: c in DirAt(p, b).entries ==> c in Ids(p);
        assert !Owns(w, run, b) by { assert !Owns(p, run, b); }
        assert !Dropped(w, t, Some(run), b, id);
      } else {
        assert EntryAt(w, b, id).None?;
      }
    }
    forall b ensures !Owns(q, run, b) {
      assert !Owns(p, run, b);
      forall id ensures b == bucket ==> id !in DirAt(q, b).entries {
        assert EntryAt(q, b, id) == EntryAt(p, b, id);
      }
    }
  }

  /** A source copy in the making: what is known of it and the files copied so far. */
  datatype Copying = Copying(owner: Option<Marker>, id: SessionId, main: Content, files: map<Path, Content>)

  function InStaging(e: Copying): Dir {
    Dir(e.owner, map[e.id := Full(e.main, e.files)])
  }

  /** Bucket b belongs to the run with that source and holds the candidate's original transcript. */
  predicate PlacedIn(p: Projects, b: Bucket, run: RunId, candidate: SessionId, source: Option<SessionId>) {
    && Owns(p, run, b) && DirAt(p, b).owner.value.source == source
    && Original(DirAt(p, b), candidate) && HasMain(DirAt(p, b).entries[candidate])
  }

  ghost predicate Placed(p: Projects, run: RunId, candidate: SessionId, source: Option<SessionId>) {
    exists b :: PlacedIn(p, b, run, candidate, source)
  }

  class SessionStore {
    var projects: Projects
    var staging: Staging
    /** How many more file-system steps happen before the process dies; None if it does not. */
    var budget: Option<nat>

    constructor (projects: Projects, staging: Staging)
      ensures this.projects == projects && this.staging == staging && budget.None?
    {
      this.projects, this.staging, budget := projects, staging, None;
    }

    method Tick() returns (ok: bool)
      modifies this`budget
      ensures old(budget).None? ==> ok && budget.None?
    {
      if budget.None? { return true; }
      if budget.value == 0 { return false; }
      budget := Some(budget.value - 1);
      return true;
    }

    /** `_remove` of a transcript and of a session directory, one unlink at a time. */
    method Shrink(e: Entry) returns (ok: bool, rest: Option<Entry>)
      modifies this`budget
      ensures ok <==> rest.None?
      ensures rest.Some? ==> Smaller(rest.value, e)
      ensures old(budget).None? ==> ok && budget.None?
    {
      rest := Some(e);
      if HasMain(e) {
        ok := Tick();
        if !ok { return; }
        if e.Transcript? { return true, None; }
      }
      var files := e.files;
      rest := Some(Directory(files));
      while files != map[]
        invariant rest == Some(Directory(files)) && Smaller(Directory(files), e)
        invariant old(budget).None? ==> budget.None?
        decreases |files|
      {
        ok := Tick();
        if !ok { return; }
        var path :| path in files;
        assert |files - {path}| < |files| by { assert (files - {path}).Keys == files.Keys - {path}; }
        files := files - {path};
        rest := Some(Directory(files));
      }
      ok := Tick();
      if ok { rest := None; }
    }

    /** `_remove_session` */
    method RemoveSession(b: Bucket, id: SessionId) returns (ok: bool, ghost rest: Option<Entry>)
      modifies this`projects, this`budget
      ensures EntryAt(old(projects), b, id).None? ==> ok && projects == old(projects)
      ensures EntryAt(old(projects), b, id).Some? ==>
        && b in old(projects) && projects == WithEntry(old(projects), b, id, rest) && (ok <==> rest.None?)
        && (rest.Some? ==> Smaller(rest.value, old(projects)[b].entries[id]))
      ensures old(budget).None? ==> ok && budget.None?
    {
      if b !in projects || id !in projects[b].entries { return true, None; }
      var left;
      ok, left := Shrink(projects[b].entries[id]);
      projects := WithEntry(projects, b, id, left);
      rest := left;
    }

    /** `_prune_owned_bucket`: an owner-only bucket loses its marker, then itself. */
    method Prune(b: Bucket, ghost t: Target, ghost run: Option<RunId>) returns (ok: bool)
      modifies this`projects, this`budget
      ensures Toward(old(projects), projects, t, run) && SameEntries(old(projects), projects)
      ensures forall c :: c != b ==> DirAt(projects, c) == DirAt(old(projects), c)
      ensures ok ==> !OwnerOnly(DirAt(projects, b))
      ensures old(budget).None? ==> ok && budget.None?
    {
      TowardReflexive(projects, t, run);
      if b !in projects || !OwnerOnly(projects[b]) { return true; }
      ok := Tick();
      if !ok { return; }
      EmptyStep(projects, projects[b := EMPTY], b, t, run);
      EmptyStep(projects, projects - {b}, b, t, run);
      projects := projects[b := EMPTY];
      ok := Tick();
      if !ok { return; }
      projects := projects - {b};
    }

    method PruneAll(owners: set<Bucket>, ghost t: Target, ghost run: Option<RunId>) returns (ok: bool)
      requires forall b :: OwnerOnly(DirAt(projects, b)) ==> b in owners
      modifies this`projects, this`budget
      ensures Toward(old(projects), projects, t, run) && SameEntries(old(projects), projects)
      ensures ok ==> forall b :: !OwnerOnly(DirAt(projects, b))
      ensures old(budget).None? ==> ok && budget.None?
    {
      TowardReflexive(projects, t, run);
      var rest := owners;
      while rest != {}
        invariant Toward(old(projects), projects, t, run) && SameEntries(old(projects), projects)
        invariant forall b :: OwnerOnly(DirAt(projects, b)) ==> b in rest
        invariant old(budget).None? ==> budget.None?
        decreases |rest|
      {
        var b :| b in rest;
        ghost var before := projects;
        ok := Prune(b, t, run);
        TowardTransitive(old(projects), before, projects, t, run);
        if !ok { return; }
        rest := rest - {b};
      }
      ok := true;
    }

    /** One location of a deleted session: its bucket's source copy first if nothing else needs it. */
    method DeleteAt(b: Bucket, id: SessionId) returns (ok: bool)
      requires b in projects && id in projects[b].entries
      modifies this`projects, this`budget
      ensures Toward(old(projects), projects, These({id}), None)
      ensures forall c :: c != b ==> DirAt(projects, c) == DirAt(old(projects), c)
      ensures ok ==> EntryAt(projects, b, id).None?
      ensures old(budget).None? ==> ok && budget.None?
    {
      ghost var t := These({id});
      ghost var rest;
      var dir := projects[b];
      TowardReflexive(projects, t, None);
      if dir.owner.Some? && !Staged(dir, id) && dir.owner.value.source.Some? && !OtherCandidates(dir, id) {
        var source := dir.owner.value.source.value;
        ok, rest := RemoveSession(b, source);
        if EntryAt(old(projects), b, source).Some? {
          assert Original(dir, id);
          EntryStep(old(projects), b, source, rest, t, None);
        }
        if !ok { return; }
      }
      ghost var before := projects;
      ok, rest := RemoveSession(b, id);
      EntryStep(before, b, id, rest, t, None);
      TowardTransitive(old(projects), before, projects, t, None);
    }

    method DeleteLocations(id: SessionId) returns (ok: bool)
      modifies this`projects, this`budget
      ensures Toward(old(projects), projects, These({id}), None)
      ensures ok ==> forall b :: EntryAt(projects, b, id).None?
      ensures old(budget).None? ==> ok && budget.None?
    {
      ghost var t := These({id});
      TowardReflexive(projects, t, None);
      var pending := set b | b in projects && id in projects[b].entries;
      while pending != {}
        invariant Toward(old(projects), projects, t, None)
        invariant forall b :: EntryAt(projects, b, id).Some? <==> b in pending
        invariant old(budget).None? ==> budget.None?
        decreases |pending|
      {
        var b :| b in pending;
        ghost var before := projects;
        assert EntryAt(projects, b, id).Some?;
        ok := DeleteAt(b, id);
        TowardTransitive(old(projects), before, projects, t, None);
        if !ok { return; }
        pending := pending - {b};
      }
      ok := true;
    }

    /** `delete`: afterwards the session is nowhere, nor any source copy that only it needed. */
    method Delete(id: SessionId) returns (outcome: Outcome)
      modifies this`projects, this`budget
      ensures outcome == Refused <==> !WellFormed(old(projects))
      ensures outcome in {Done, Crashed, Refused} && (outcome == Refused ==> projects == old(projects))
      ensures WellFormed(old(projects)) ==> WellFormed(projects) && Toward(old(projects), projects, These({id}), None)
      ensures outcome == Done ==> Completed(projects, These({id}), None) && forall b :: !OwnerOnly(DirAt(projects, b))
      ensures old(budget).None? ==> outcome != Crashed && budget.None?
    {
      var ok := Inventory(projects);
      if !ok { return Refused; }
      ghost var t := These({id});
      var owners := set b | b in projects && projects[b].owner.Some?;
      ok := DeleteLocations(id);
      TowardKeepsWellFormed(old(projects), projects, t, None);
      if !ok { return Crashed; }
      // sync_deletions takes the inventory again; removals cannot have spoiled it.
      assert WellFormed(projects);
      ghost var before := projects;
      ok := PruneAll(owners, t, None);
      TowardTransitive(old(projects), before, projects, t, None);
      TowardKeepsWellFormed(before, projects, t, None);
      if !ok { return Crashed; }
      forall b, x | EntryAt(projects, b, x).Some? ensures !Dropped(projects, t, None, b, x) {
        assert EntryAt(before, b, id).None? && EntryAt(projects, b, id).None?;
      }
      outcome := Done;
    }

    /** Deletes until done; each crash costs one of the given budgets, the last attempt has no crash. */
    method DeleteUntilDone(id: SessionId, crashes: seq<nat>)
      requires WellFormed(projects)
      modifies this`projects, this`budget
      ensures WellFormed(projects) && Toward(old(projects), projects, These({id}), None)
      ensures Completed(projects, These({id}), None) && forall b :: !OwnerOnly(DirAt(projects, b))
      ensures Originals(projects) == Originals(old(projects)) - {id}
    {
      hide Toward, WellFormed, Completed, OwnerOnly;
      ghost var t := These({id});
      TowardReflexive(projects, t, None);
      var outcome;
      var k := 0;
      while k < |crashes|
        invariant WellFormed(projects) && Toward(old(projects), projects, t, None)
      {
        ghost var before := projects;
        budget := Some(crashes[k]);
        outcome := Delete(id);
        TowardTransitive(old(projects), before, projects, t, None);
        k := k + 1;
      }
      ghost var before := projects;
      budget := None;
      outcome := Delete(id);
      TowardTransitive(old(projects), before, projects, t, None);
      OriginalsAfter(old(projects), projects, t, None);
    }

    /**
     Purging a lineage, in any order and through any crashes: no original, source copy or owner
     bucket of it remains, and no bucket that holds none of its originals loses any other entry.
     */
    method PurgeLineage(chain: seq<SessionId>, crashes: seq<nat>)
      requires WellFormed(projects)
      modifies this`projects, this`budget
      ensures WellFormed(projects)
      ensures Originals(projects) == set id | id in Originals(old(projects)) && id !in chain
      ensures forall b, id :: id in chain ==> EntryAt(projects, b, id).None?
      ensures forall b :: Abandoned(DirAt(old(projects), b), These(set id | id in chain)) ==> DirAt(projects, b) == EMPTY
      ensures forall b, id ::
        id !in chain && !Abandoned(DirAt(old(projects), b), These(set id | id in chain)) ==>
          EntryAt(projects, b, id) == EntryAt(old(projects), b, id)
    {
      hide Toward, WellFormed, Completed;
      ghost var t := These(set id | id in chain);
      TowardReflexive(projects, t, None);
      var k := 0;
      while k < |chain|
        invariant 0 <= k <= |chain|
        invariant WellFormed(projects) && Toward(old(projects), projects, t, None)
        invariant forall j, b :: 0 <= j < k ==> EntryAt(projects, b, chain[j]).None?
        invariant k > 0 ==> forall b :: !OwnerOnly(DirAt(projects, b))
      {
        ghost var before := projects;
        DeleteUntilDone(chain[k], crashes);
        Widen(before, projects, chain[k], t, None);
        TowardTransitive(old(projects), before, projects, t, None);
        GoneAfter(before, projects, chain[k]);
        k := k + 1;
      }
      PurgedLineage(old(projects), projects, chain);
    }

    // ---- abort -----------------------------------------------------------------------------

    method EmptyStaging(run: RunId, source: Option<SessionId>) returns (ok: bool, dir: Dir)
      requires run in staging && StagingOk(staging[run], run, source)
      modifies this`staging, this`budget
      ensures staging == old(staging)[run := dir] && StagingOk(dir, run, source)
      ensures ok ==> dir.entries == map[]
      ensures old(budget).None? ==> ok && budget.None?
    {
      dir := staging[run];
      while dir.entries != map[]
        invariant StagingOk(dir, run, source) && staging == old(staging)[run := dir]
        invariant old(budget).None? ==> budget.None?
        decreases |dir.entries|
      {
        var id :| id in dir.entries;
        var rest;
        ok, rest := Shrink(dir.entries[id]);
        assert (dir.entries - {id}).Keys == dir.entries.Keys - {id};
        dir := dir.(entries := if ok then dir.entries - {id} else dir.entries[id := rest.value]);
        staging := staging[run := dir];
        if !ok { return; }
      }
      ok := true;
    }

    /** `_remove(staging, run)`: the marker goes last, so a retry still finds its ownership proof. */
    method RemoveStaging(run: RunId, source: Option<SessionId>) returns (ok: bool)
      requires run in staging && StagingOk(staging[run], run, source)
      modifies this`staging, this`budget
      ensures staging - {run} == old(staging) - {run}
      ensures if ok then run !in staging else run in staging && StagingOk(staging[run], run, source)
      ensures old(budget).None? ==> ok && budget.None?
    {
      var dir;
      ok, dir := EmptyStaging(run, source);
      if !ok { return; }
      if dir.owner.Some? {
        ok := Tick();
        if !ok { return; }
        staging := staging[run := EMPTY];
      }
      ok := Tick();
      if ok { staging := staging - {run}; }
    }

    /** Deletes every session that appeared since the baseline. */
    method DeleteDoomed(baseline: set<SessionId>, source: Option<SessionId>, run: RunId) returns (ok: bool)
      requires WellFormed(projects)
      modifies this`projects, this`budget
      ensures WellFormed(projects) && Toward(old(projects), projects, Spared(baseline, source), Some(run))
      ensures ok ==> forall b, id :: EntryAt(projects, b, id).Some? ==> !Doomed(Spared(baseline, source), id)
      ensures old(budget).None? ==> ok && budget.None?
    {
      hide Toward, WellFormed, Completed;
      ghost var t := Spared(baseline, source);
      TowardReflexive(projects, t, Some(run));
      var doomed: set<SessionId> := set id | id in Ids(projects) && id !in baseline && source != Some(id);
      assert forall b, id :: EntryAt(projects, b, id).Some? ==> id in Ids(projects);
      while doomed != {}
        invariant WellFormed(projects) && Toward(old(projects), projects, t, Some(run))
        invariant forall id :: id in doomed ==> Doomed(t, id)
        invariant forall b, id :: EntryAt(projects, b, id).Some? && Doomed(t, id) ==> id in doomed
        invariant old(budget).None? ==> budget.None?
        decreases |doomed|
      {
        var id :| id in doomed;
        ghost var before := projects;
        var outcome := Delete(id);
        Widen(before, projects, id, t, Some(run));
        TowardTransitive(old(projects), before, projects, t, Some(run));
        if outcome != Done { return false; }
        GoneAfter(before, projects, id);
        doomed := doomed - {id};
      }
      ok := true;
    }

    /** The run's own bucket loses its source copy and, unless it keeps a session, itself. */
    method ReleaseBucket(b: Bucket, ghost t: Target, run: RunId) returns (ok: bool)
      requires Owns(projects, run, b)
      modifies this`projects, this`budget
      ensures Toward(old(projects), projects, t, Some(run))
      ensures forall c :: c != b ==> DirAt(projects, c) == DirAt(old(projects), c)
      ensures ok ==>
        forall id :: EntryAt(projects, b, id).Some? ==> EntryAt(old(projects), b, id).Some? && !Staged(DirAt(old(projects), b), id)
      ensures ok ==> !OwnerOnly(DirAt(projects, b))
      ensures old(budget).None? ==> ok && budget.None?
    {
      var owner := projects[b].owner.value;
      TowardReflexive(projects, t, Some(run));
      ok := true;
      if owner.source.Some? {
        ghost var rest;
        ok, rest := RemoveSession(b, owner.source.value);
        if EntryAt(old(projects), b, owner.source.value).Some? {
          EntryStep(old(projects), b, owner.source.value, rest, t, Some(run));
        }
        if !ok { return; }
      }
      ghost var before := projects;
      ok := Prune(b, t, Some(run));
      TowardTransitive(old(projects), before, projects, t, Some(run));
      if !ok { return; }
      forall id | EntryAt(projects, b, id).Some? ensures EntryAt(old(projects), b, id).Some? && !Staged(DirAt(old(projects), b), id) {
        assert EntryAt(before, b, id).Some?;
      }
    }

    /**
     `abort`: refuses what it cannot prove to be the run's; otherwise works toward dropping every
     session that is neither baseline nor source, the run's source copy, bucket and staging.
     */
    method Abort(run: RunId, baseline: set<SessionId>, source: Option<SessionId>) returns (outcome: Outcome)
      modifies this
      ensures outcome in {Done, Crashed, Refused}
      ensures outcome == Refused <==> !AbortValid(old(projects), old(staging), run, source)
      ensures outcome == Refused ==> projects == old(projects) && staging == old(staging)
      ensures outcome != Refused ==>
        && AbortValid(projects, staging, run, source)
        && staging - {run} == old(staging) - {run}
        && Toward(old(projects), projects, Spared(baseline, source), Some(run))
      ensures outcome == Done ==> AbortDone(projects, staging, run, baseline, source)
      ensures old(budget).None? ==> outcome != Crashed && budget.None?
    {
      hide Toward, Completed;
      ghost var t := Spared(baseline, source);
      TowardReflexive(projects, t, Some(run));
      var ok := Inventory(projects);
      if !ok { return Refused; }
      var owned := set b | b in projects && Owns(projects, run, b);
      if exists b :: b in owned && projects[b].owner.value.source != source {
        ghost var b :| b in owned && projects[b].owner.value.source != source;
        assert Owns(projects, run, b);
        return Refused;
      }
      assert forall b :: Owns(projects, run, b) ==> b in owned;
      if run in staging {
        if !StagingOk(staging[run], run, source) { return Refused; }
        ok := RemoveStaging(run, source);
        if !ok { return Crashed; }
      }
      ok := AbortSessions(owned, run, baseline, source);
      AbortStaysValid(old(projects), projects, old(staging), staging, t, run, source);
      outcome := if ok then Done else Crashed;
    }

    method AbortSessions(owned: set<Bucket>, run: RunId, baseline: set<SessionId>, source: Option<SessionId>) returns (ok: bool)
      requires WellFormed(projects) && run !in staging
      requires forall b :: Owns(projects, run, b) <==> b in owned
      modifies this`projects, this`budget
      ensures Toward(old(projects), projects, Spared(baseline, source), Some(run))
      ensures ok ==> AbortDone(projects, staging, run, baseline, source)
      ensures old(budget).None? ==> ok && budget.None?
    {
      hide Toward, Completed, WellFormed;
      ghost var t := Spared(baseline, source);
      ok := DeleteDoomed(baseline, source, run);
      if !ok { return; }
      ghost var kept := projects;
      var rest := owned;
      TowardReflexive(projects, t, Some(run));
      TowardOwners(old(projects), projects, t, run);
      while rest != {}
        invariant Toward(old(projects), projects, t, Some(run)) && Toward(kept, projects, t, Some(run))
        invariant forall b :: Owns(projects, run, b) && b !in rest ==> BucketKept(projects, run, b)
        invariant forall b :: Owns(projects, run, b) ==> b in owned
        invariant old(budget).None? ==> budget.None?
        decreases |rest|
      {
        var b :| b in rest;
        ghost var before := projects;
        // The owners were read at the start; a bucket pruned since then is passed over.
        if Owns(projects, run, b) {
          ok := ReleaseBucket(b, t, run);
          TowardTransitive(old(projects), before, projects, t, Some(run));
          TowardTransitive(kept, before, projects, t, Some(run));
          TowardOwners(before, projects, t, run);
          if !ok { return; }
          ReleasedBucket(before, projects, run, b);
        }
        rest := rest - {b};
      }
      ok := true;
      AbortFinished(kept, projects, run, baseline, source);
    }

    // ---- prepare_run -----------------------------------------------------------------------

    /** One step of filling the staging directory. */
    method Stage(run: RunId, dir: Dir) returns (ok: bool)
      requires run in staging
      modifies this`staging, this`budget
      ensures staging == if ok then old(staging)[run := dir] else old(staging)
      ensures old(budget).None? ==> ok && budget.None?
    {
      ok := Tick();
      if ok { staging := staging[run := dir]; }
    }

    /** `_copy` of the transcript and then of the session directory, file by file. */
    method CopySource(run: RunId, id: SessionId, e: Entry) returns (ok: bool, left: map<SessionId, Entry>)
      requires run in staging && staging[run].entries == map[] && HasMain(e)
      modifies this`staging, this`budget
      ensures staging == old(staging)[run := Dir(old(staging)[run].owner, left)] && left.Keys <= {id}
      ensures ok ==> left == map[id := e]
      ensures old(budget).None? ==> ok && budget.None?
    {
      var owner := staging[run].owner;
      left := map[];
      ok := Stage(run, Dir(owner, map[id := Transcript("")]));
      if !ok { return; }
      left := map[id := Transcript("")];
      ok := Stage(run, Dir(owner, map[id := Transcript(e.main)]));
      if !ok { return; }
      left := map[id := Transcript(e.main)];
      if e.Full? {
        ok := Stage(run, InStaging(Copying(owner, id, e.main, map[])));
        if !ok { return; }
        var now;
        ok, now := CopyFiles(run, Copying(owner, id, e.main, map[]), e.files);
        left := InStaging(now).entries;
      }
    }

    /** Creates one file of the copied directory and then fills it. */
    method CopyFile(run: RunId, e: Copying, path: Path, content: Content) returns (ok: bool, now: Copying)
      requires run in staging && staging[run] == InStaging(e)
      modifies this`staging, this`budget
      ensures staging == old(staging)[run := InStaging(now)] && now == e.(files := now.files)
      ensures ok ==> now.files == e.files[path := content]
      ensures old(budget).None? ==> ok && budget.None?
    {
      now := e;
      ok := Stage(run, InStaging(e.(files := e.files[path := ""])));
      if !ok { return; }
      now := e.(files := e.files[path := ""]);
      ok := Stage(run, InStaging(e.(files := e.files[path := content])));
      if ok { now := e.(files := e.files[path := content]); }
    }

    method CopyFiles(run: RunId, e: Copying, files: map<Path, Content>) returns (ok: bool, now: Copying)
      requires run in staging && staging[run] == InStaging(e) && e.files == map[]
      modifies this`staging, this`budget
      ensures staging == old(staging)[run := InStaging(now)] && now == e.(files := now.files)
      ensures ok ==> now.files == files
      ensures old(budget).None? ==> ok && budget.None?
    {
      hide InStaging;
      now := e;
      var rest := files.Keys;
      while rest != {}
        invariant rest <= files.Keys && now.files.Keys == files.Keys - rest
        invariant forall path :: path in now.files ==> now.files[path] == files[path]
        invariant run in staging && staging == old(staging)[run := InStaging(now)] && now == e.(files := now.files)
        invariant old(budget).None? ==> budget.None?
        decreases |rest|
      {
        var path :| path in rest;
        ok, now := CopyFile(run, now, path, files[path]);
        if !ok { return; }
        rest := rest - {path};
      }
      assert now.files == files;
      ok := true;
    }

    /** `prepare_run`: all or nothing in `projects`; whatever a crash leaves in staging, abort accepts. */
    method PrepareRun(run: RunId, bucket: Bucket, source: Option<SessionId>) returns (outcome: Outcome)
      modifies this
      ensures outcome == Refused <==> !WellFormed(old(projects))
      ensures outcome == Missing <==> WellFormed(old(projects)) && source.Some? && source.value !in Originals(old(projects))
      ensures outcome == Exists <==>
        && WellFormed(old(projects)) && (source.Some? ==> source.value in Originals(old(projects)))
        && (bucket in old(projects) || run in old(staging))
      ensures outcome == Done ==> staging == old(staging) && Prepared(old(projects), projects, run, bucket, source)
      ensures outcome != Done ==> projects == old(projects)
      ensures outcome in {Refused, Missing, Exists} ==> staging == old(staging)
      ensures outcome == Crashed ==>
        run !in old(staging) && staging - {run} == old(staging) && (run in staging ==> StagingOk(staging[run], run, source))
      ensures old(budget).None? ==> outcome != Crashed && budget.None?
    {
      var ok := Inventory(projects);
      if !ok { return Refused; }
      var home: Option<Bucket> := None;
      if source.Some? {
        if source.value !in Originals(projects) { return Missing; }
        var b :| b in projects && Original(projects[b], source.value) && HasMain(projects[b].entries[source.value]);
        home := Some(b);
      }
      if bucket in projects || run in staging { return Exists; }
      ok := StageRun(run, bucket, source, home);
      outcome := if ok then Done else Crashed;
    }

    /** The staging directory from its creation to its rename into place. */
    method StageRun(run: RunId, bucket: Bucket, source: Option<SessionId>, home: Option<Bucket>) returns (ok: bool)
      requires bucket !in projects && run !in staging
      requires source.Some? <==> home.Some?
      requires home.Some? ==>
        home.value in projects && Original(projects[home.value], source.value) && HasMain(projects[home.value].entries[source.value])
      modifies this
      ensures ok ==> staging == old(staging) && Prepared(old(projects), projects, run, bucket, source)
      ensures !ok ==>
        projects == old(projects) && staging - {run} == old(staging) && (run in staging ==> StagingOk(staging[run], run, source))
      ensures old(budget).None? ==> ok && budget.None?
    {
      ok := Tick();
      if !ok { return; }
      staging := staging[run := EMPTY];
      ok := Tick();
      if !ok { return; }
      staging := staging[run := Dir(Some(Marker(run, bucket, source, home)), map[])];
      if source.Some? {
        var left;
        ok, left := CopySource(run, source.value, projects[home.value].entries[source.value]);
        if !ok { return; }
      }
      ok := Tick();
      if !ok { return; }
      projects := projects[bucket := staging[run]];
      staging := staging - {run};
    }

    // ---- A run's sessions from preparation to the decision ---------------------------------

    /** `validate_candidate` */
    method ValidateCandidate(run: RunId, candidate: SessionId, source: Option<SessionId>, baseline: set<SessionId>)
      returns (valid: bool, outcome: Outcome)
      ensures outcome in {Done, Refused}
      ensures outcome == Refused <==> source != Some(candidate) && candidate !in baseline && !WellFormed(projects)
      ensures outcome == Refused ==> !valid
      ensures WellFormed(projects) ==> (valid <==>
        source != Some(candidate) && candidate !in baseline && Placed(projects, run, candidate, source))
      ensures valid ==> candidate in Originals(projects)
    {
      if source == Some(candidate) || candidate in baseline { return false, Done; }
      var ok := Inventory(projects);
      if !ok { return false, Refused; }
      valid := exists b :: b in projects && PlacedIn(projects, b, run, candidate, source);
      outcome := Done;
    }

    /** Aborts until done; each crash costs one of the given budgets, the last attempt has no crash. */
    method AbortUntilDone(run: RunId, baseline: set<SessionId>, source: Option<SessionId>, crashes: seq<nat>)
      requires AbortValid(projects, staging, run, source)
      modifies this
      ensures AbortValid(projects, staging, run, source)
      ensures staging - {run} == old(staging) - {run}
      ensures Toward(old(projects), projects, Spared(baseline, source), Some(run))
      ensures AbortDone(projects, staging, run, baseline, source)
      ensures Originals(projects) == set id | id in Originals(old(projects)) && (id in baseline || source == Some(id))
    {
      hide Toward, AbortValid;
      ghost var t := Spared(baseline, source);
      TowardReflexive(projects, t, Some(run));
      var outcome;
      var k := 0;
      while k < |crashes|
        invariant AbortValid(projects, staging, run, source) && staging - {run} == old(staging) - {run}
        invariant Toward(old(projects), projects, t, Some(run))
      {
        ghost var before := projects;
        budget := Some(crashes[k]);
        outcome := Abort(run, baseline, source);
        TowardTransitive(old(projects), before, projects, t, Some(run));
        k := k + 1;
      }
      ghost var before := projects;
      budget := None;
      outcome := Abort(run, baseline, source);
      TowardTransitive(old(projects), before, projects, t, Some(run));
      OriginalsAfter(old(projects), projects, t, Some(run));
    }

    /**
     Preparation that may crash, a worker that may write sessions in its own bucket, then an abort
     that may crash again and again: every entry is as before, and nothing of the run remains.
     */
    method PrepareWorkAbort(run: RunId, bucket: Bucket, source: Option<SessionId>,
                            crash: Option<nat>, made: map<SessionId, Entry>, crashes: seq<nat>) returns (outcome: Outcome)
      requires WellFormed(projects) && run !in staging && forall b :: !Owns(projects, run, b)
      requires forall id :: id in made ==> id !in Ids(projects)
      modifies this
      ensures outcome in {Done, Crashed} ==>
        SameEntries(old(projects), projects) && staging == old(staging) && forall b :: !Owns(projects, run, b)
      ensures outcome in {Missing, Exists} ==> projects == old(projects) && staging == old(staging)
      ensures outcome != Refused
    {
      hide Toward, AbortValid, AbortDone, WellFormed;
      var baseline := Ids(projects);
      budget := crash;
      outcome := PrepareRun(run, bucket, source);
      if outcome == Missing || outcome == Exists { return; }
      if outcome == Done {
        PreparedKeeps(old(projects), projects, run, bucket, source);
        projects := projects[bucket := projects[bucket].(entries := projects[bucket].entries + made)];
        WorkedValid(old(projects), projects, staging, run, bucket, source, made);
      } else {
        CrashedValid(projects, staging, run, source);
      }
      ghost var worked := projects;
      AbortUntilDone(run, baseline, source, crashes);
      if outcome == Done {
        AbortUndoesWork(old(projects), worked, projects, staging, run, bucket, source, made);
      } else {
        AbortUndoesNothing(old(projects), projects, staging, run, source);
      }
      assert staging == staging - {run};
    }
  }

  lemma GoneAfter(p: Projects, q: Projects, id: SessionId)
    requires Toward(p, q, These({id}), None) && Completed(q, These({id}), None)
    ensures forall b :: EntryAt(q, b, id).None?
    ensures forall b, x :: EntryAt(p, b, x).None? ==> EntryAt(q, b, x).None?
  {
  }

  lemma PurgedLineage(p: Projects, q: Projects, chain: seq<SessionId>)
    requires Toward(p, q, These(set id | id in chain), None)
    requires forall j, b :: 0 <= j < |chain| ==> EntryAt(q, b, chain[j]).None?
    requires |chain| > 0 ==> forall b :: !OwnerOnly(DirAt(q, b))
    ensures Originals(q) == set id | id in Originals(p) && id !in chain
    ensures forall b, id :: id in chain ==> EntryAt(q, b, id).None?
    ensures forall b :: Abandoned(DirAt(p, b), These(set id | id in chain)) ==> DirAt(q, b) == EMPTY
    ensures forall b, id :: id !in chain && !Abandoned(DirAt(p, b), These(set id | id in chain)) ==>
                              EntryAt(q, b, id) == EntryAt(p, b, id)
  {
    var t := These(set id | id in chain);
    forall b, id | EntryAt(q, b, id).Some? ensures !Dropped(q, t, None, b, id) {
      assert id !in chain;
      forall c | c in DirAt(q, b).entries ensures c !in chain {
        assert EntryAt(q, b, c).Some?;
      }
    }
    OriginalsAfter(p, q, t, None);
    forall b | Abandoned(DirAt(p, b), t) ensures DirAt(q, b) == EMPTY {
      forall id ensures id !in DirAt(q, b).entries {
        assert EntryAt(q, b, id).Some? ==> EntryAt(p, b, id).Some? && Dropped(p, t, None, b, id);
      }
      assert DirAt(q, b).entries == map[];
      assert !OwnerOnly(DirAt(q, b));
    }
    forall b, id | id !in chain && !Abandoned(DirAt(p, b), t) ensures EntryAt(q, b, id) == EntryAt(p, b, id) {
      assert !Dropped(p, t, None, b, id);
    }
  }
}
