/**
 Publishing artifacts and cleaning up after them: artifacts/publisher.go, artifacts/store.go,
 cleanup/orphans.go, cleanup/purge.go and objectstore/memory.go of services/control-plane/internal.
 One advisory lock excludes publishers and scanners from each other; purges do not take it.
 */
module Publication {
  import opened Basics
  import opened RunStore

  type Path(==) = string
  type Content = string

  /** The process that asks for the lock. */
  type Session = nat

  /** `projects/P/artifacts/A/path`; objects elsewhere are never touched here. */
  datatype Key = Key(project: ProjectId, artifact: ArtifactId, path: Path)

  /** A metadata row. `files` is a history variable: what was uploaded for it. */
  datatype Row = Row(run: RunId, project: ProjectId, files: map<Path, Content>)

  /** A publication that has not committed or given up: its records so far. */
  datatype Draft = Draft(run: RunId, project: ProjectId, files: map<Path, Content>, records: seq<ArtifactId>)

  /** New artifact IDs are fresh, as UUIDs are: every ID ever made is below `next`. */
  datatype World = World(
    objects: map<Key, Content>,
    rows: map<ArtifactId, Row>,
    deleted: set<RunId>,
    holder: Option<Session>,
    drafts: map<Session, Draft>,
    next: ArtifactId)

  datatype Action =
    // the lock
    | Acquire(session: Session)
    | Release(session: Session)
    | Die(session: Session)
    // a publisher
    | Begin(session: Session, run: RunId, project: ProjectId, files: map<Path, Content>)
    | NewRecord(session: Session)
    | Put(session: Session, path: Path)
    | Commit(session: Session)
    | GiveUp(session: Session)
    // the scanner, and a publisher that has given up
    | DeletePrefix(session: Session, project: ProjectId, artifact: ArtifactId)
    // users and the purge
    | DeleteOwner(run: RunId)
    | PurgePrefix(artifact: ArtifactId)
    | HardDelete(run: RunId)

  predicate Uploaded(w: World, project: ProjectId, artifact: ArtifactId, path: Path, content: Content) {
    var key := Key(project, artifact, path);
    key in w.objects && w.objects[key] == content
  }

  /** Every file of the publication is stored under the artifact's prefix. */
  predicate Whole(w: World, project: ProjectId, artifact: ArtifactId, files: map<Path, Content>) {
    forall path :: path in files ==> Uploaded(w, project, artifact, path, files[path])
  }

  function Last(d: Draft): ArtifactId
    requires d.records != []
  {
    d.records[|d.records| - 1]
  }

  function WithoutPrefix(objects: map<Key, Content>, project: ProjectId, artifact: ArtifactId): map<Key, Content> {
    map key | key in objects && !(key.project == project && key.artifact == artifact) :: objects[key]
  }

  predicate HasMetadata(w: World, project: ProjectId, artifact: ArtifactId) {
    artifact in w.rows && w.rows[artifact].project == project
  }

  predicate Cleared(w: World, project: ProjectId, id: ArtifactId) {
    forall key :: key in w.objects ==> !(key.project == project && key.artifact == id)
  }

  /** What the code's callers guarantee before a step. */
  predicate Enabled(w: World, a: Action) {
    match a
    case Acquire(s) => w.holder.None? && s !in w.drafts
    case Release(s) => w.holder == Some(s) && s !in w.drafts
    case Die(_) => true
    case Begin(s, _, _, _) => w.holder == Some(s) && s !in w.drafts
    case NewRecord(s) =>
      s in w.drafts && (w.drafts[s].records != [] ==> Whole(w, w.drafts[s].project, Last(w.drafts[s]), w.drafts[s].files))
    case Put(s, path) => s in w.drafts && w.drafts[s].records != [] && path in w.drafts[s].files
    case Commit(s) =>
      && s in w.drafts && w.drafts[s].run !in w.deleted
      && (w.drafts[s].records != [] ==> Whole(w, w.drafts[s].project, Last(w.drafts[s]), w.drafts[s].files))
    case GiveUp(s) => s in w.drafts
    case DeletePrefix(s, project, artifact) => w.holder == Some(s) && s !in w.drafts && !HasMetadata(w, project, artifact)
    case DeleteOwner(_) => true
    case PurgePrefix(artifact) => artifact in w.rows && w.rows[artifact].run in w.deleted
    case HardDelete(run) =>
      run in w.deleted && forall id :: id in w.rows && w.rows[id].run == run ==> Cleared(w, w.rows[id].project, id)
  }

  function Committed(d: Draft): map<ArtifactId, Row> {
    map id | id in d.records :: Row(d.run, d.project, d.files)
  }

  function Apply(w: World, a: Action): World
    requires Enabled(w, a)
  {
    match a
    case Acquire(s) => w.(holder := Some(s))
    case Release(s) => w.(holder := None)
    case Die(s) => w.(holder := if w.holder == Some(s) then None else w.holder, drafts := w.drafts - {s})
    case Begin(s, run, project, files) => w.(drafts := w.drafts[s := Draft(run, project, files, [])])
    case NewRecord(s) => w.(drafts := w.drafts[s := w.drafts[s].(records := w.drafts[s].records + [w.next])], next := w.next + 1)
    case Put(s, path) =>
      w.(objects := w.objects[Key(w.drafts[s].project, Last(w.drafts[s]), path) := w.drafts[s].files[path]])
    case Commit(s) => w.(rows := w.rows + Committed(w.drafts[s]), drafts := w.drafts - {s})
    case GiveUp(s) => w.(drafts := w.drafts - {s})
    case DeletePrefix(s, project, artifact) => w.(objects := WithoutPrefix(w.objects, project, artifact))
    case DeleteOwner(run) => w.(deleted := w.deleted + {run})
    case PurgePrefix(artifact) => w.(objects := WithoutPrefix(w.objects, w.rows[artifact].project, artifact))
    case HardDelete(run) => w.(rows := map id | id in w.rows && w.rows[id].run != run :: w.rows[id])
  }

  const EMPTY := World(map[], map[], {}, None, map[], 0)

  // ---- The invariant -----------------------------------------------------------------------

  /** Artifacts.Read: a row whose conversation and project are not deleted. */
  predicate Readable(w: World, id: ArtifactId) {
    id in w.rows && w.rows[id].run !in w.deleted
  }

  predicate NotHollow(w: World, id: ArtifactId) {
    Readable(w, id) ==> Whole(w, w.rows[id].project, id, w.rows[id].files)
  }

  /** A draft's records are its own, not yet visible, and complete but for the last. */
  ghost predicate DraftOk(w: World, s: Session)
    requires s in w.drafts
  {
    var d := w.drafts[s];
    && w.holder == Some(s)
    && Distinct(d.records)
    && (forall k :: 0 <= k < |d.records| ==> d.records[k] < w.next && d.records[k] !in w.rows)
    && (forall k :: 0 <= k < |d.records| - 1 ==> Whole(w, d.project, d.records[k], d.files))
  }

  ghost predicate Inv(w: World) {
    && (forall id :: id in w.rows ==> id < w.next && NotHollow(w, id))
    && (forall s :: s in w.drafts ==> DraftOk(w, s))
    && (forall key :: key in w.objects ==> key.artifact < w.next)
  }

  /** A prefix that has no metadata, belongs to no draft, and cannot be made again. */
  predicate Dead(w: World, project: ProjectId, id: ArtifactId) {
    && id < w.next && !HasMetadata(w, project, id)
    && forall s :: s in w.drafts ==> !(w.drafts[s].project == project && id in w.drafts[s].records)
  }

  lemma StepKeepsInv(w: World, a: Action)
    requires Inv(w) && Enabled(w, a)
    ensures Inv(Apply(w, a))
  {
    var v := Apply(w, a);
    forall id | id in v.rows ensures id < v.next && NotHollow(v, id) {
      StepKeepsRow(w, a, id);
    }
    forall s | s in v.drafts ensures DraftOk(v, s) {
      StepKeepsDraft(w, a, s);
    }
  }

  lemma StepKeepsRow(w: World, a: Action, id: ArtifactId)
    requires Inv(w) && Enabled(w, a) && id in Apply(w, a).rows
    ensures id < Apply(w, a).next && NotHollow(Apply(w, a), id)
  {
    if id in w.rows {
      assert NotHollow(w, id);
    }
    if a.Commit? {
      CommitKeepsRow(w, a.session, id);
    } else if a.Put? {
      assert DraftOk(w, a.session);
    }
  }

  lemma CommitKeepsRow(w: World, s: Session, id: ArtifactId)
    requires Inv(w) && Enabled(w, Commit(s)) && id in Apply(w, Commit(s)).rows
    ensures id < w.next && NotHollow(Apply(w, Commit(s)), id)
  {
    assert DraftOk(w, s);
    var d := w.drafts[s];
    if id in d.records {
      var k :| 0 <= k < |d.records| && d.records[k] == id;
      assert Whole(w, d.project, id, d.files);
    } else {
      assert NotHollow(w, id);
    }
  }

  lemma StepKeepsDraft(w: World, a: Action, s: Session)
    requires Inv(w) && Enabled(w, a) && s in Apply(w, a).drafts
    ensures DraftOk(Apply(w, a), s)
  {
    if s in w.drafts {
      assert DraftOk(w, s);
    }
    match a {
      case NewRecord(x) => if x == s { RecordAdded(w, s); }
      case Put(x, path) => if x == s { FilePut(w, s, path); }
      case Commit(x) => OneDraft(w, x, s);
      case DeletePrefix(x, project, artifact) =>
      case PurgePrefix(artifact) => PurgeSparesDraft(w, artifact, s);
      case _ =>
    }
  }

  lemma OneDraft(w: World, x: Session, y: Session)
    requires Inv(w) && x in w.drafts && y in w.drafts
    ensures x == y
  {
    assert DraftOk(w, x) && DraftOk(w, y);
  }

  lemma RecordAdded(w: World, s: Session)
    requires Inv(w) && Enabled(w, NewRecord(s))
    ensures DraftOk(Apply(w, NewRecord(s)), s)
  {
    var d, e := w.drafts[s], Apply(w, NewRecord(s)).drafts[s];
    assert DraftOk(w, s);
    forall k | 0 <= k < |e.records| - 1 ensures Whole(w, d.project, e.records[k], d.files) {
      assert e.records[k] == d.records[k];
    }
  }

  lemma FilePut(w: World, s: Session, path: Path)
    requires Inv(w) && Enabled(w, Put(s, path))
    ensures DraftOk(Apply(w, Put(s, path)), s)
  {
    var d := w.drafts[s];
    assert DraftOk(w, s);
    forall k | 0 <= k < |d.records| - 1 ensures Whole(Apply(w, Put(s, path)), d.project, d.records[k], d.files) {
      assert Whole(w, d.project, d.records[k], d.files);
    }
  }

  lemma PurgeSparesDraft(w: World, artifact: ArtifactId, s: Session)
    requires Enabled(w, PurgePrefix(artifact)) && s in w.drafts && DraftOk(w, s)
    ensures DraftOk(Apply(w, PurgePrefix(artifact)), s)
  {
    var d := w.drafts[s];
    forall k | 0 <= k < |d.records| - 1 ensures Whole(Apply(w, PurgePrefix(artifact)), d.project, d.records[k], d.files) {
      assert Whole(w, d.project, d.records[k], d.files);
    }
  }

  /** What is dead stays dead: an orphan prefix never gets metadata. */
  lemma StepKeepsDead(w: World, a: Action, project: ProjectId, id: ArtifactId)
    requires Inv(w) && Enabled(w, a) && Dead(w, project, id)
    ensures Dead(Apply(w, a), project, id)
  {
  }

  // ---- Runs --------------------------------------------------------------------------------

  predicate Legal(w: World, steps: seq<Action>)
    decreases |steps|
  {
    steps == [] || (Enabled(w, steps[0]) && Legal(Apply(w, steps[0]), steps[1..]))
  }

  function Replay(w: World, steps: seq<Action>): World
    requires Legal(w, steps)
    decreases |steps|
  {
    if steps == [] then w else Replay(Apply(w, steps[0]), steps[1..])
  }

  /** In every interleaving, whatever crashes: no readable artifact lacks an object it was published with. */
  lemma {:induction false} NeverHollow(w: World, steps: seq<Action>, id: ArtifactId)
    requires Inv(w) && Legal(w, steps)
    ensures NotHollow(Replay(w, steps), id) && Inv(Replay(w, steps))
    decreases |steps|
  {
    if steps != [] {
      StepKeepsInv(w, steps[0]);
      NeverHollow(Apply(w, steps[0]), steps[1..], id);
    }
  }

  /** A prefix that a lock holder may delete has no metadata then or ever after. */
  lemma {:induction false} OrphansStayOrphans(w: World, project: ProjectId, id: ArtifactId, steps: seq<Action>)
    requires Inv(w) && Legal(w, steps) && Dead(w, project, id)
    ensures !HasMetadata(Replay(w, steps), project, id)
    decreases |steps|
  {
    if steps != [] {
      StepKeepsInv(w, steps[0]);
      StepKeepsDead(w, steps[0], project, id);
      OrphansStayOrphans(Apply(w, steps[0]), project, id, steps[1..]);
    }
  }

  /** What the scanner finds without metadata while it holds the lock is dead. */
  lemma ScannerFindsDead(w: World, s: Session, project: ProjectId, id: ArtifactId)
    requires Inv(w) && w.holder == Some(s) && s !in w.drafts
    requires id < w.next && !HasMetadata(w, project, id)
    ensures Dead(w, project, id)
  {
    forall x ensures x !in w.drafts {
      assert x in w.drafts ==> DraftOk(w, x);
    }
  }

  /** A prefix whose objects are gone for good. */
  predicate Emptied(w: World, project: ProjectId, id: ArtifactId) {
    && id < w.next
    && (forall s :: s in w.drafts ==> id !in w.drafts[s].records)
    && Cleared(w, project, id)
  }

  lemma StepKeepsEmptied(w: World, a: Action, project: ProjectId, id: ArtifactId)
    requires Enabled(w, a) && Emptied(w, project, id)
    ensures Emptied(Apply(w, a), project, id)
  {
    if a.Put? {
      assert Last(w.drafts[a.session]) in w.drafts[a.session].records;
    }
  }

  // ---- Under the lock ----------------------------------------------------------------------

  predicate By(a: Action, s: Session) {
    match a
    case DeleteOwner(_) => false
    case PurgePrefix(_) => false
    case HardDelete(_) => false
    case _ => a.session == s
  }

  /** What others can do while s holds the lock: delete owners, purge, and no more. */
  ghost predicate Held(w: World, v: World, s: Session) {
    && v.holder == Some(s) && v.drafts == w.drafts && v.next == w.next && w.deleted <= v.deleted
    && (forall id :: id in v.rows ==> id in w.rows && v.rows[id] == w.rows[id])
    && (forall key :: key in v.objects ==> key in w.objects && v.objects[key] == w.objects[key])
    && (forall key :: key in w.objects && key.artifact !in w.rows ==> key in v.objects)
    && (forall key :: key in v.objects && HasMetadata(w, key.project, key.artifact) ==> HasMetadata(v, key.project, key.artifact))
  }

  lemma HolderOnly(w: World)
    requires Inv(w)
    ensures forall x :: x in w.drafts ==> w.holder == Some(x)
  {
    forall x | x in w.drafts ensures w.holder == Some(x) {
      assert DraftOk(w, x);
    }
  }

  lemma OthersStep(w: World, a: Action, s: Session)
    requires Inv(w) && w.holder == Some(s) && Enabled(w, a) && !By(a, s)
    ensures Held(w, Apply(w, a), s)
  {
    HolderOnly(w);
    if a.Die? {
      assert w.drafts - {a.session} == w.drafts;
    }
  }

  lemma HeldTransitive(w: World, v: World, u: World, s: Session)
    requires Held(w, v, s) && Held(v, u, s)
    ensures Held(w, u, s)
  {
  }

  /** Uploads for a record without metadata survive whatever others do. */
  lemma HeldKeepsUploads(w: World, v: World, s: Session, project: ProjectId, id: ArtifactId, files: map<Path, Content>)
    requires Held(w, v, s) && id !in w.rows && Whole(w, project, id, files)
    ensures Whole(v, project, id, files)
  {
    forall path | path in files ensures Uploaded(v, project, id, path, files[path]) {
      assert Uploaded(w, project, id, path, files[path]);
    }
  }

  /** One entry of the script: what others do first, and whether the call then succeeds. */
  datatype Moment = Moment(steps: seq<Action>, ok: bool)

  class Maintenance {
    var w: World
    var script: seq<Moment>

    ghost predicate Valid()
      reads this
    {
      Inv(w)
    }

    constructor (script: seq<Moment>)
      ensures Valid() && w == EMPTY
    {
      w := EMPTY;
      this.script := script;
    }

    method Do(a: Action)
      requires Valid() && Enabled(w, a)
      modifies this`w
      ensures Valid() && w == Apply(old(w), a)
    {
      StepKeepsInv(w, a);
      w := Apply(w, a);
    }

    /** Others act; an exhausted script is the death of this process, which drops its lock session. */
    method Pause(s: Session) returns (alive: bool, ok: bool)
      requires Valid() && w.holder == Some(s)
      modifies this
      ensures Valid()
      ensures alive ==> Held(old(w), w, s) && w.holder == Some(s) && w.drafts == old(w.drafts) && w.next == old(w.next)
      ensures !alive ==> !ok && s !in w.drafts && w.holder != Some(s)
      ensures forall id :: id in w.rows ==> id in old(w.rows)
    {
      hide Inv, Held;
      HeldReflexive(w, s);
      if script == [] {
        Do(Die(s));
        return false, false;
      }
      var m := script[0];
      script := script[1..];
      var k := 0;
      while k < |m.steps|
        invariant Valid() && Held(old(w), w, s) && w.holder == Some(s)
        invariant w.drafts == old(w.drafts) && w.next == old(w.next)
        invariant forall id :: id in w.rows ==> id in old(w.rows)
      {
        var a := m.steps[k];
        if Enabled(w, a) && !By(a, s) {
          ghost var before := w;
          OthersStep(w, a, s);
          HeldDrafts(before, Apply(w, a), s);
          HeldRows(before, Apply(w, a), s);
          Do(a);
          HeldTransitive(old(w), before, w, s);
        }
        k := k + 1;
      }
      return true, m.ok;
    }

    /** A record's files, one object at a time. */
    method Upload(s: Session) returns (alive: bool, ok: bool)
      requires Valid() && s in w.drafts && w.drafts[s].records != []
      modifies this
      ensures Valid()
      ensures alive ==> s in w.drafts && w.drafts[s] == old(w.drafts[s]) && w.holder == Some(s)
      ensures !alive ==> !ok && s !in w.drafts && w.holder != Some(s)
      ensures ok ==> Whole(w, w.drafts[s].project, Last(w.drafts[s]), w.drafts[s].files)
      ensures forall id :: id in w.rows ==> id in old(w.rows)
    {
      hide Inv, Held, Whole;
      alive, ok := true, true;
      var d := w.drafts[s];
      var id := Last(d);
      DraftHolder(w, s);
      var done: map<Path, Content> := map[];
      var rest := d.files.Keys;
      EmptyIsWhole(w, d.project, id);
      while rest != {}
        invariant Valid() && s in w.drafts && w.drafts[s] == d && w.holder == Some(s) && id !in w.rows
        invariant rest <= d.files.Keys && done.Keys == d.files.Keys - rest
        invariant forall path :: path in done ==> done[path] == d.files[path]
        invariant Whole(w, d.project, id, done)
        invariant forall x :: x in w.rows ==> x in old(w.rows)
        decreases |rest|
      {
        var path :| path in rest;
        ghost var before := w;
        alive, ok := Pause(s);
        if !alive { return; }
        HeldKeepsUploads(before, w, s, d.project, id, done);
        DraftHolder(w, s);
        if !ok { return; }
        ghost var paused := w;
        Do(Put(s, path));
        OneMoreUpload(paused, s, path, done);
        done := done[path := d.files[path]];
        rest := rest - {path};
      }
      assert done == d.files;
    }

    /** Publisher.Prepare up to its return: every record's upload is complete, or nothing is left to commit. */
    method Prepare(s: Session, run: RunId, project: ProjectId, files: map<Path, Content>, candidates: nat)
      returns (alive: bool, ok: bool)
      requires Valid() && w.holder == Some(s) && s !in w.drafts
      modifies this
      ensures Valid()
      ensures alive ==> w.holder == Some(s) && (ok <==> s in w.drafts)
      ensures !alive ==> !ok && s !in w.drafts && w.holder != Some(s)
      ensures forall id :: id in w.rows ==> id in old(w.rows)
      ensures ok ==>
        w.drafts[s].project == project && w.drafts[s].run == run && w.drafts[s].files == files && |w.drafts[s].records| == candidates
                     && ReadyToCommit(s)
    {
      hide Inv, Held, Whole;
      alive, ok := Pause(s);
      if !alive || !ok { return; }
      Do(Begin(s, run, project, files));
      var k := 0;
      while k < candidates
        invariant 0 <= k <= candidates && Valid() && w.holder == Some(s) && alive
        invariant s in w.drafts && w.drafts[s] == Draft(run, project, files, w.drafts[s].records) && |w.drafts[s].records| == k
        invariant k > 0 ==> Whole(w, project, Last(w.drafts[s]), files)
        invariant forall id :: id in w.rows ==> id in old(w.rows)
      {
        Do(NewRecord(s));
        alive, ok := Upload(s);
        if !alive { return; }
        if !ok {
          var records := w.drafts[s].records;
          DraftHolder(w, s);
          Do(GiveUp(s));
          alive := Cleanup(s, project, records);
          return alive, false;
        }
        k := k + 1;
      }
      ok := true;
    }

    /** Everything that the metadata is going to promise has been uploaded. */
    ghost predicate ReadyToCommit(s: Session)
      reads this
    {
      s in w.drafts && (w.drafts[s].records != [] ==> Whole(w, w.drafts[s].project, Last(w.drafts[s]), w.drafts[s].files))
    }

    /** The deferred cleanup of a failed preparation; what it cannot delete is left to the scanner. */
    method Cleanup(s: Session, project: ProjectId, records: seq<ArtifactId>) returns (alive: bool)
      requires Valid() && w.holder == Some(s) && s !in w.drafts
      requires forall k :: 0 <= k < |records| ==> records[k] !in w.rows
      modifies this
      ensures Valid() && s !in w.drafts && (alive <==> w.holder == Some(s))
      ensures forall id :: id in w.rows ==> id in old(w.rows)
    {
      hide Inv, Held;
      alive := true;
      var k := 0;
      while k < |records|
        invariant 0 <= k <= |records| && Valid() && w.holder == Some(s) && s !in w.drafts
        invariant forall k :: 0 <= k < |records| ==> records[k] !in w.rows
        invariant alive && forall id :: id in w.rows ==> id in old(w.rows)
      {
        var ok;
        ghost var before := w;
        alive, ok := Pause(s);
        if !alive { return; }
        if ok { Do(DeletePrefix(s, project, records[k])); }
        k := k + 1;
      }
    }

    /**
     Prepare, the metadata transaction and the release. The transaction may commit and still report an
     error (`lost`); it is over before the lock is released. Whatever is reported, either every record
     is readable and whole, or no row was added.
     */
    method Publish(s: Session, run: RunId, project: ProjectId, files: map<Path, Content>, candidates: nat, lost: bool)
      returns (ids: Option<seq<ArtifactId>>, ghost committed: Option<seq<ArtifactId>>)
      requires Valid() && w.holder == Some(s) && s !in w.drafts
      modifies this
      ensures Valid() && s !in w.drafts && w.holder != Some(s)
      ensures ids.Some? <==> committed.Some? && !lost
      ensures ids.Some? ==> ids == committed
      ensures committed.Some? ==> |committed.value| == candidates && forall k :: 0 <= k < candidates ==>
        && Readable(w, committed.value[k]) && w.rows[committed.value[k]] == Row(run, project, files)
        && Whole(w, project, committed.value[k], files)
      ensures forall id :: id in w.rows ==> id in old(w.rows) || (committed.Some? && id in committed.value)
    {
      hide Inv, Held, Whole;
      ids, committed := None, None;
      var alive, ok := Prepare(s, run, project, files, candidates);
      if !alive { return; }
      if ok {
        ghost var prepared := w;
        alive, ok := Pause(s);
        if !alive {
          return;
        }
        StillPrepared(prepared, w, s);
        if ok && run !in w.deleted {
          committed := Some(w.drafts[s].records);
          ids := if lost then None else Some(w.drafts[s].records);
          ghost var before := w;
          Do(Commit(s));
          CommittedWhole(before, s);
        } else {
          Do(GiveUp(s));
        }
      }
      Do(Release(s));
      if committed.Some? { ReleasedWhole(w, run, project, files, committed.value); }
    }

    // ---- orphans.go ------------------------------------------------------------------------

    /**
     scanArtifacts: what it reports, and what it deletes, has no metadata and will never have any; and
     every prefix present at the start is reported unless it has metadata.
     */
    method ScanArtifacts(s: Session, project: ProjectId, apply: bool)
      returns (alive: bool, ok: bool, orphans: set<ArtifactId>, deleted: set<ArtifactId>)
      requires Valid() && w.holder == Some(s) && s !in w.drafts
      modifies this
      ensures Valid() && s !in w.drafts
      ensures deleted <= orphans && (!apply ==> deleted == {})
      ensures alive ==> w.holder == Some(s) && forall id :: id in orphans ==> Dead(w, project, id)
      ensures ok && apply ==> deleted == orphans
      ensures ok ==> forall key :: key in w.objects && key.project == project ==>
        HasMetadata(w, project, key.artifact) || key.artifact in orphans
    {
      hide Inv, Held, Dead;
      orphans, deleted := {}, {};
      alive, ok := Pause(s);
      if !alive || !ok { return; }
      var listed: set<ArtifactId> := set key | key in w.objects && key.project == project :: key.artifact;
      ObjectsAreOld(w);
      var rest: set<ArtifactId> := listed;
      while rest != {}
        invariant Valid() && w.holder == Some(s) && s !in w.drafts
        invariant deleted <= orphans && (!apply ==> deleted == {}) && (apply ==> deleted == orphans)
        invariant forall id :: id in orphans ==> Dead(w, project, id)
        invariant forall id :: id in rest ==> id < w.next
        invariant forall key :: key in w.objects && key.project == project ==>
          key.artifact in rest || key.artifact in orphans || HasMetadata(w, project, key.artifact)
        decreases |rest|
      {
        var id :| id in rest;
        ghost var before := w;
        alive, ok := Pause(s);
        if !alive { return; }
        HeldKeepsDead(before, w, s, project);
        HeldShrinks(before, w, s);
        if !ok { return; }
        ghost var checked := w;
        if !HasMetadata(w, project, id) {
          ScannerFindsDead(w, s, project, id);
          orphans := orphans + {id};
          if apply {
            alive, ok := Pause(s);
            if !alive { return; }
            HeldKeepsDead(checked, w, s, project);
            HeldShrinks(checked, w, s);
            if !ok { return; }
            DeleteKeepsDead(w, s, project, id);
            Do(DeletePrefix(s, project, id));
            deleted := deleted + {id};
          }
        }
        rest := rest - {id};
      }
      ok := true;
    }

    // ---- purge.go, without the lock ----------------------------------------------------------

    /** Between two calls of the purge anyone may act. */
    method Race() returns (ok: bool)
      requires Valid()
      modifies this
      ensures Valid() && Purging(old(w), w)
    {
      hide Inv, Purging, Enabled;
      PurgingReflexive(w);
      if script == [] { return false; }
      var m := script[0];
      script := script[1..];
      var k := 0;
      while k < |m.steps|
        invariant Valid() && Purging(old(w), w)
      {
        if Enabled(w, m.steps[k]) {
          ghost var before := w;
          PurgingStep(w, m.steps[k]);
          Do(m.steps[k]);
          PurgingTransitive(old(w), before, w);
        }
        k := k + 1;
      }
      ok := m.ok;
    }

    /**
     purgeRoot for the runs of a deleted conversation or project: objects first, then the rows. A crash
     or an error leaves rows that nobody can read, for the next purge; success leaves neither rows nor
     objects, for good.
     */
    method PurgeRoot(runs: set<RunId>) returns (ok: bool)
      requires Valid() && runs <= w.deleted
      modifies this
      ensures Valid() && Purging(old(w), w)
      ensures ok ==> forall id :: id in old(w.rows) && old(w.rows)[id].run in runs ==>
        id !in w.rows && Emptied(w, old(w.rows)[id].project, id)
    {
      hide Inv, Purging, Emptied, Enabled;
      var rows := w.rows;
      PurgingReflexive(w);
      var listed: set<ArtifactId> := set id | id in rows && rows[id].run in runs;
      ok := ClearPrefixes(rows, listed, runs);
      if !ok { return; }
      ghost var cleared := w;
      ok := Race();
      PurgingTransitive(old(w), cleared, w);
      PurgingKeepsAll(cleared, w, rows, listed);
      if !ok { return; }
      PurgingRows(old(w), w, runs);
      var rest := runs;
      while rest != {}
        invariant Valid() && Purging(old(w), w) && rest <= runs <= w.deleted
        invariant forall id :: id in listed ==> Emptied(w, rows[id].project, id)
        invariant forall id :: id in w.rows && w.rows[id].run in runs ==> id in listed && rows[id] == w.rows[id] && w.rows[id].run in rest
        decreases |rest|
      {
        var run: RunId :| run in rest;
        ghost var before := w;
        HardDeleteReady(w, run, rows, listed);
        PurgingStep(w, HardDelete(run));
        Do(HardDelete(run));
        PurgingTransitive(old(w), before, w);
        PurgingKeepsAll(before, w, rows, listed);
        HardDeleted(before, run);
        rest := rest - {run};
      }
      PurgingSame(old(w), w);
      ok := true;
    }

    method ClearPrefixes(rows: map<ArtifactId, Row>, listed: set<ArtifactId>, runs: set<RunId>) returns (ok: bool)
      requires Valid() && rows == w.rows && runs <= w.deleted
      requires forall id :: id in listed ==> id in rows && rows[id].run in runs
      modifies this
      ensures Valid() && Purging(old(w), w)
      ensures ok ==> forall id :: id in listed ==> Emptied(w, rows[id].project, id)
    {
      hide Inv, Purging, Emptied, Enabled;
      PurgingReflexive(w);
      var rest := listed;
      while rest != {}
        invariant Valid() && Purging(old(w), w) && rest <= listed
        invariant forall id :: id in listed && id !in rest ==> Emptied(w, rows[id].project, id)
        decreases |rest|
      {
        var id: ArtifactId :| id in rest;
        ghost var before := w;
        ok := Race();
        PurgingTransitive(old(w), before, w);
        PurgingKeepsAll(before, w, rows, listed - rest);
        if !ok { return; }
        before := w;
        if id in w.rows {
          PrefixPurged(old(w), w, id);
          PurgingStep(w, PurgePrefix(id));
          Do(PurgePrefix(id));
          PurgingTransitive(old(w), before, w);
          PurgingKeepsAll(before, w, rows, listed - rest);
        } else {
          RowGone(old(w), w, id);
        }
        rest := rest - {id};
      }
      ok := true;
    }
  }

  lemma HeldRows(w: World, v: World, s: Session)
    requires Held(w, v, s)
    ensures forall id :: id in v.rows ==> id in w.rows
  {
  }

  lemma HeldKeepsDead(w: World, v: World, s: Session, project: ProjectId)
    requires Held(w, v, s)
    ensures forall id :: Dead(w, project, id) ==> Dead(v, project, id)
  {
  }

  /** While s holds the lock objects only vanish, and what is left keeps its metadata. */
  lemma HeldShrinks(w: World, v: World, s: Session)
    requires Held(w, v, s)
    ensures forall key :: key in v.objects ==> key in w.objects
    ensures forall key :: key in v.objects && HasMetadata(w, key.project, key.artifact) ==> HasMetadata(v, key.project, key.artifact)
  {
  }

  lemma ObjectsAreOld(w: World)
    requires Inv(w)
    ensures forall key :: key in w.objects ==> key.artifact < w.next
  {
  }

  lemma DeleteKeepsDead(w: World, s: Session, project: ProjectId, id: ArtifactId)
    requires Dead(w, project, id) && w.holder == Some(s) && s !in w.drafts
    ensures Enabled(w, DeletePrefix(s, project, id))
    ensures forall x :: Dead(w, project, x) ==> Dead(Apply(w, DeletePrefix(s, project, id)), project, x)
  {
  }

  lemma StillPrepared(w: World, v: World, s: Session)
    requires Inv(w) && Held(w, v, s) && s in w.drafts
    requires w.drafts[s].records != [] ==> Whole(w, w.drafts[s].project, Last(w.drafts[s]), w.drafts[s].files)
    ensures w.drafts[s].records != [] ==> Whole(v, w.drafts[s].project, Last(w.drafts[s]), w.drafts[s].files)
  {
    DraftHolder(w, s);
    if w.drafts[s].records != [] {
      HeldKeepsUploads(w, v, s, w.drafts[s].project, Last(w.drafts[s]), w.drafts[s].files);
    }
  }

  lemma CommittedWhole(w: World, s: Session)
    requires Inv(w) && Enabled(w, Commit(s))
    ensures var d, v := w.drafts[s], Apply(w, Commit(s));
            forall k :: 0 <= k < |d.records| ==>
              d.records[k] in v.rows && v.rows[d.records[k]] == Row(d.run, d.project, d.files) && Readable(v, d.records[k])
  {
    assert DraftOk(w, s);
  }

  lemma ReleasedWhole(w: World, run: RunId, project: ProjectId, files: map<Path, Content>, ids: seq<ArtifactId>)
    requires Inv(w)
    requires forall k :: 0 <= k < |ids| ==> Readable(w, ids[k]) && w.rows[ids[k]] == Row(run, project, files)
    ensures forall k :: 0 <= k < |ids| ==> Whole(w, project, ids[k], files)
  {
    forall k | 0 <= k < |ids| ensures Whole(w, project, ids[k], files) {
      assert NotHollow(w, ids[k]);
    }
  }

  lemma HeldReflexive(w: World, s: Session)
    requires w.holder == Some(s)
    ensures Held(w, w, s)
  {
  }

  lemma HeldDrafts(w: World, v: World, s: Session)
    requires Held(w, v, s)
    ensures v.holder == Some(s) && v.drafts == w.drafts && v.next == w.next
  {
  }

  /** The last record of a draft has no metadata, and its session holds the lock. */
  lemma DraftHolder(w: World, s: Session)
    requires Inv(w) && s in w.drafts
    ensures w.holder == Some(s)
    ensures forall id :: id in w.drafts[s].records ==> id !in w.rows && id < w.next
  {
    assert DraftOk(w, s);
  }

  lemma EmptyIsWhole(w: World, project: ProjectId, id: ArtifactId)
    ensures Whole(w, project, id, map[])
  {
  }

  lemma OneMoreUpload(w: World, s: Session, path: Path, done: map<Path, Content>)
    requires Enabled(w, Put(s, path))
    requires Whole(w, w.drafts[s].project, Last(w.drafts[s]), done)
    ensures var d := w.drafts[s];
            Whole(Apply(w, Put(s, path)), d.project, Last(d), done[path := d.files[path]])
  {
    var d := w.drafts[s];
    forall p | p in done && p != path ensures Uploaded(Apply(w, Put(s, path)), d.project, Last(d), p, done[p]) {
      assert Uploaded(w, d.project, Last(d), p, done[p]);
    }
  }

  // ---- What a purge can rely on ------------------------------------------------------------

  /**
   Whatever happens: deletion is final, a deleted owner's rows are never added to, a vanished one has
   left no object, and an emptied prefix stays empty.
   */
  ghost predicate Purging(w: World, v: World) {
    && w.deleted <= v.deleted
    && (forall id :: id in v.rows && v.rows[id].run in w.deleted ==> id in w.rows && v.rows[id] == w.rows[id])
    && (forall id :: id in w.rows && id in v.rows ==> v.rows[id] == w.rows[id])
    && (forall id :: id in w.rows && id !in v.rows ==> Emptied(v, w.rows[id].project, id))
    && (forall project, id :: Emptied(w, project, id) ==> Emptied(v, project, id) && (id in v.rows ==> id in w.rows))
  }

  lemma PurgingReflexive(w: World)
    ensures Purging(w, w)
  {
  }

  lemma PurgingTransitive(w: World, v: World, u: World)
    requires Purging(w, v) && Purging(v, u)
    ensures Purging(w, u)
  {
  }

  lemma PurgingStep(w: World, a: Action)
    requires Inv(w) && Enabled(w, a)
    ensures Purging(w, Apply(w, a))
  {
    var v := Apply(w, a);
    forall project, id | Emptied(w, project, id) ensures Emptied(v, project, id) && (id in v.rows ==> id in w.rows) {
      StepKeepsEmptied(w, a, project, id);
    }
    forall id | id in w.rows && id !in v.rows ensures Emptied(v, w.rows[id].project, id) {
      RowIsNoDraft(w, id);
    }
    forall id | id in w.rows && id in v.rows ensures v.rows[id] == w.rows[id] {
      RowIsNoDraft(w, id);
    }
  }

  lemma RowIsNoDraft(w: World, id: ArtifactId)
    requires Inv(w) && id in w.rows
    ensures id < w.next && forall s :: s in w.drafts ==> id !in w.drafts[s].records
  {
    forall s | s in w.drafts ensures id !in w.drafts[s].records {
      assert DraftOk(w, s);
    }
  }

  lemma PurgingKeepsAll(w: World, v: World, rows: map<ArtifactId, Row>, ids: set<ArtifactId>)
    requires Purging(w, v) && (forall id :: id in ids ==> id in rows)
    ensures w.deleted <= v.deleted
    ensures (forall id :: id in ids ==> Emptied(w, rows[id].project, id)) ==>
            forall id :: id in ids ==> Emptied(v, rows[id].project, id)
  {
  }

  lemma PurgingRows(w: World, v: World, runs: set<RunId>)
    requires Purging(w, v) && runs <= w.deleted
    ensures forall id :: id in v.rows && v.rows[id].run in runs ==> id in w.rows && v.rows[id] == w.rows[id]
  {
  }

  lemma PurgingSame(w: World, v: World)
    requires Purging(w, v)
    ensures forall id :: id in w.rows && id in v.rows ==> v.rows[id] == w.rows[id]
  {
  }

  lemma PrefixPurged(start: World, w: World, id: ArtifactId)
    requires Inv(w) && Purging(start, w) && id in start.rows && start.rows[id].run in start.deleted && id in w.rows
    ensures Enabled(w, PurgePrefix(id)) && w.rows[id] == start.rows[id]
    ensures Emptied(Apply(w, PurgePrefix(id)), start.rows[id].project, id)
  {
    RowIsNoDraft(w, id);
  }

  lemma RowGone(start: World, w: World, id: ArtifactId)
    requires Purging(start, w) && id in start.rows && id !in w.rows
    ensures Emptied(w, start.rows[id].project, id)
  {
  }

  lemma HardDeleteReady(w: World, run: RunId, rows: map<ArtifactId, Row>, listed: set<ArtifactId>)
    requires run in w.deleted && (forall id :: id in listed ==> id in rows && Emptied(w, rows[id].project, id))
    requires forall id :: id in w.rows && w.rows[id].run == run ==> id in listed && rows[id] == w.rows[id]
    ensures Enabled(w, HardDelete(run))
  {
  }

  lemma HardDeleted(w: World, run: RunId)
    requires Enabled(w, HardDelete(run))
    ensures var v := Apply(w, HardDelete(run));
            forall id :: id in v.rows <==> id in w.rows && w.rows[id].run != run
    ensures var v := Apply(w, HardDelete(run));
            v.deleted == w.deleted && forall id :: id in v.rows ==> v.rows[id] == w.rows[id]
  {
  }
}
