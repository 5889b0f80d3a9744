/**
 * What an agent commits: the drift-checked difference between its working tree and the backing tree,
 * frozen into a staging manifest.
 */
module Staging {
  import opened Wrappers
  import opened Ordering
  import opened Strings
  import opened Versions
  import opened Trees

  datatype Observation = Observation(kind: Kind, version: Option<Version>)

  function Observe(t: Tree, p: Path): Option<Observation> {
    if p !in t then None
    else match t[p]
      case Dir => Some(Observation(DirKind, None))
      case File(content) => Some(Observation(FileKind, Some(Sha256(content))))
  }

  lemma ObservationsDetermineNodes(a: Tree, b: Tree, p: Path)
    ensures Observe(a, p) == Observe(b, p) <==> Get(a, p) == Get(b, p)
  {
  }

  datatype ChangeOp = Create | Update | Delete

  datatype DirtyPath = DirtyPath(
    path: Path,
    kind: Kind,
    op: ChangeOp,
    localVersion: Option<Version>,
    previousVersion: Option<Version>)

  datatype CommitError =
    | ReservedMetadataPath(path: Path)
    | RemoteDrift(path: Path)
    | PathTypeConflict(path: Path)
    | StagingFailed(path: Path)

  predicate ReservedPath(p: Path) {
    var trimmed := Trim(p, '/');
    trimmed == ".section" || StartsWith(trimmed, ".section/")
  }

  /** A source-root-relative path that does not reach Section metadata. */
  predicate ValidPath(p: Path) {
    && !StartsWith(p, "/")
    && !ReservedPath(p)
    && forall segment | segment in Split(p, '/') :: segment != ".." && (segment == "" ==> p == "")
  }

  /** The recorded state says that the path is absent on both sides. */
  predicate TrustedAbsent(r: PathRecord) {
    !r.localPresent && r.baseRemote == None && r.currentRemote == None
  }

  /** The backing entry is the one this working copy last agreed with. */
  predicate RemoteMatchesTrustedBase(trusted: Option<PathRecord>, remote: Option<Observation>) {
    match trusted
    case None => remote == None
    case Some(r) =>
      if TrustedAbsent(r) then remote == None
      else remote.Some? && r.kind == remote.value.kind && r.baseRemote == remote.value.version
  }

  function DirtyAt(p: Path, local: Tree, remote: Tree,
      trusted: map<Path, PathRecord>): Result<Option<DirtyPath>, CommitError> {
    if !ValidPath(p) then Err(ReservedMetadataPath(p))
    else
      var localEntry := Observe(local, p);
      var remoteEntry := Observe(remote, p);
      if !RemoteMatchesTrustedBase(Get(trusted, p), remoteEntry) then Err(RemoteDrift(p))
      else if localEntry == remoteEntry then Ok(None)
      else match (localEntry, remoteEntry)
        case (Some(l), Some(r)) =>
          if l.kind != r.kind then Err(PathTypeConflict(p))
          else Ok(Some(DirtyPath(p, l.kind, Update, l.version, r.version)))
        case (Some(l), None) => Ok(Some(DirtyPath(p, l.kind, Create, l.version, None)))
        case (None, Some(r)) => Ok(Some(DirtyPath(p, r.kind, Delete, None, r.version)))
  }

  /** The first error along the paths, or every dirty path in order. */
  function DirtyAlong(paths: seq<Path>, local: Tree, remote: Tree,
      trusted: map<Path, PathRecord>): Result<seq<DirtyPath>, CommitError> {
    if paths == [] then Ok([])
    else match DirtyAt(paths[0], local, remote, trusted)
      case Err(e) => Err(e)
      case Ok(None) => DirtyAlong(paths[1..], local, remote, trusted)
      case Ok(Some(d)) => Prepended([d], DirtyAlong(paths[1..], local, remote, trusted))
  }

  function AllPaths(local: Tree, remote: Tree, trusted: map<Path, PathRecord>): (paths: seq<Path>)
    ensures Distinct(paths)
    ensures forall p :: p in paths <==> p in local || p in remote || p in trusted
  {
    SortedStrings(local.Keys + remote.Keys + trusted.Keys)
  }

  function DirtyPaths(local: Tree, remote: Tree, trusted: map<Path, PathRecord>): Result<seq<DirtyPath>, CommitError> {
    DirtyAlong(AllPaths(local, remote, trusted), local, remote, trusted)
  }

  method CollectDirtyPaths(local: Tree, remote: Tree, trusted: map<Path, PathRecord>)
    returns (r: Result<seq<DirtyPath>, CommitError>)
    ensures r == DirtyPaths(local, remote, trusted)
  {
    hide AllPaths, DirtyAt;
    var paths := AllPaths(local, remote, trusted);
    var dirty: seq<DirtyPath> := [];
    var i := 0;
    ghost var all := DirtyAlong(paths, local, remote, trusted);
    assert paths[0..] == paths;
    assert all == Prepended([], all) by {
      if all.Ok? { assert [] + all.value == all.value; }
    }
    while i < |paths|
      invariant 0 <= i <= |paths|
      invariant all == Prepended(dirty, DirtyAlong(paths[i..], local, remote, trusted))
    {
      assert paths[i..][1..] == paths[i + 1..];
      match DirtyAt(paths[i], local, remote, trusted) {
        case Err(e) =>
          return Err(e);
        case Ok(None) =>
        case Ok(Some(entry)) =>
          PrependedLaws(dirty, entry, DirtyAlong(paths[i + 1..], local, remote, trusted));
          dirty := dirty + [entry];
      }
      i := i + 1;
    }
    assert paths[i..] == [] && dirty + [] == dirty;
    r := Ok(dirty);
  }

  // ----- Staging -----

  /** One frozen path of a manifest; `content` holds the staged bytes of a created or updated file. */
  datatype StagedPath = StagedPath(
    path: Path,
    op: ChangeOp,
    kind: Kind,
    content: Option<Bytes>,
    previousVersion: Option<Version>)
  {
    function StagedNode(): Node {
      match content
      case Some(bytes) => if kind == FileKind then File(bytes) else Dir
      case None => Dir
    }

    function Hash(): Option<Version> {
      match StagedNode()
      case File(bytes) => Some(Sha256(bytes))
      case Dir => None
    }
  }

  function StageOne(d: DirtyPath, local: Tree): Result<StagedPath, CommitError> {
    if d.op == Delete then Ok(StagedPath(d.path, Delete, d.kind, None, d.previousVersion))
    else match (d.kind, Get<Path, Node>(local, d.path))
      case (FileKind, Some(File(bytes))) => Ok(StagedPath(d.path, d.op, FileKind, Some(bytes), d.previousVersion))
      case (DirKind, Some(Dir)) => Ok(StagedPath(d.path, d.op, DirKind, None, d.previousVersion))
      case _ => Err(StagingFailed(d.path))
  }

  function StageAll(dirty: seq<DirtyPath>, local: Tree): Result<seq<StagedPath>, CommitError> {
    if dirty == [] then Ok([])
    else match StageOne(dirty[0], local)
      case Err(e) => Err(e)
      case Ok(staged) => Prepended([staged], StageAll(dirty[1..], local))
  }

  method PrepareStagingSnapshot(dirty: seq<DirtyPath>, local: Tree) returns (r: Result<seq<StagedPath>, CommitError>)
    ensures r == StageAll(dirty, local)
  {
    var manifest: seq<StagedPath> := [];
    var i := 0;
    ghost var all := StageAll(dirty, local);
    assert dirty[0..] == dirty;
    assert all == Prepended([], all) by {
      if all.Ok? { assert [] + all.value == all.value; }
    }
    while i < |dirty|
      invariant 0 <= i <= |dirty|
      invariant all == Prepended(manifest, StageAll(dirty[i..], local))
    {
      assert dirty[i..][1..] == dirty[i + 1..];
      match StageOne(dirty[i], local) {
        case Err(e) =>
          return Err(e);
        case Ok(staged) =>
          PrependedLaws(manifest, staged, StageAll(dirty[i + 1..], local));
          manifest := manifest + [staged];
      }
      i := i + 1;
    }
    assert dirty[i..] == [] && manifest + [] == manifest;
    r := Ok(manifest);
  }

  /** Collect and stage with no edit in between: the manifest one commit or proposal publishes. */
  function Manifest(local: Tree, remote: Tree, trusted: map<Path, PathRecord>): Result<seq<StagedPath>, CommitError> {
    match DirtyPaths(local, remote, trusted)
    case Err(e) => Err(e)
    case Ok(dirty) => StageAll(dirty, local)
  }

  // ----- What a manifest means -----

  ghost predicate Describes(e: StagedPath, base: Tree, target: Tree) {
    && Get(base, e.path) != Get(target, e.path)
    && match e.op
       case Delete => e.path in base && e.path !in target && e.kind == base[e.path].NodeKind()
       case Create => e.path !in base && e.path in target && target[e.path] == e.StagedNode() && e.kind == e.StagedNode().NodeKind()
       case Update => e.path in base && e.path in target && target[e.path] == e.StagedNode() && e.kind == e.StagedNode().NodeKind()
  }

  ghost predicate DistinctPaths(m: seq<StagedPath>) {
    forall i, j :: 0 <= i < j < |m| ==> m[i].path != m[j].path
  }

  ghost predicate Mentions(m: seq<StagedPath>, p: Path) {
    exists e :: e in m && e.path == p
  }

  /** The manifest is exactly the difference between two trees, each changed path once. */
  ghost predicate IsDiff(m: seq<StagedPath>, base: Tree, target: Tree) {
    && DistinctPaths(m)
    && (forall e :: e in m ==> Describes(e, base, target))
    && (forall p :: Get(base, p) != Get(target, p) ==> Mentions(m, p))
  }

  /** The recorded base is the backing tree, path by path. */
  ghost predicate TrustsTree(trusted: map<Path, PathRecord>, t: Tree) {
    forall p :: RemoteMatchesTrustedBase(Get(trusted, p), Observe(t, p))
  }

  /** The path is not reserved, its backing entry has not drifted and it does not change kind. */
  ghost predicate CleanAt(p: Path, local: Tree, remote: Tree, trusted: map<Path, PathRecord>) {
    && ValidPath(p)
    && RemoteMatchesTrustedBase(Get(trusted, p), Observe(remote, p))
    && (p in remote && p in local ==> remote[p].NodeKind() == local[p].NodeKind())
  }

  /** When collecting succeeds: every path known to either tree or to the store is clean. */
  ghost predicate Collectable(local: Tree, remote: Tree, trusted: map<Path, PathRecord>) {
    forall p :: p in local || p in remote || p in trusted ==> CleanAt(p, local, remote, trusted)
  }

  lemma CollectableMeaning(local: Tree, remote: Tree, trusted: map<Path, PathRecord>)
    ensures Collectable(local, remote, trusted) <==>
            && (forall p :: p in local || p in remote || p in trusted ==> ValidPath(p))
            && TrustsTree(trusted, remote)
            && SameKinds(remote, local)
  {
    if Collectable(local, remote, trusted) {
      forall p ensures RemoteMatchesTrustedBase(Get(trusted, p), Observe(remote, p)) {
        if p in remote || p in trusted {
          assert CleanAt(p, local, remote, trusted);
        }
      }
      forall p | p in remote && p in local ensures remote[p].NodeKind() == local[p].NodeKind() {
        assert CleanAt(p, local, remote, trusted);
      }
    }
  }

  lemma {:induction false} DirtyAlongSucceeds(paths: seq<Path>, local: Tree, remote: Tree,
      trusted: map<Path, PathRecord>)
    ensures DirtyAlong(paths, local, remote, trusted).Ok? <==>
            forall p :: p in paths ==> DirtyAt(p, local, remote, trusted).Ok?
  {
    if paths != [] {
      DirtyAlongSucceeds(paths[1..], local, remote, trusted);
      assert paths == [paths[0]] + paths[1..];
    }
  }

  /** One path: when it collects, and what its staged entry then says. */
  lemma DirtyAtMeaning(p: Path, local: Tree, remote: Tree, trusted: map<Path, PathRecord>)
    ensures DirtyAt(p, local, remote, trusted).Ok? <==> CleanAt(p, local, remote, trusted)
    ensures DirtyAt(p, local, remote, trusted).Ok? ==>
            match DirtyAt(p, local, remote, trusted).value
            case None => Get(remote, p) == Get(local, p)
            case Some(d) => StageOne(d, local).Ok? && StageOne(d, local).value.path == p
                            && Describes(StageOne(d, local).value, remote, local)
  {
    ObservationsDetermineNodes(local, remote, p);
  }

  /** A staged list covers the paths it was collected along, each changed one once. */
  ghost predicate Covers(staged: seq<StagedPath>, paths: seq<Path>, local: Tree, remote: Tree) {
    && DistinctPaths(staged)
    && (forall e :: e in staged ==> e.path in paths && Describes(e, remote, local))
    && (forall p :: p in paths && Get(remote, p) != Get(local, p) ==> Mentions(staged, p))
  }

  lemma CoversOneMore(p: Path, more: seq<StagedPath>, staged: seq<StagedPath>, paths: seq<Path>, local: Tree,
      remote: Tree)
    requires Covers(staged, paths, local, remote)
    requires p !in paths
    requires more == [] ==> Get(remote, p) == Get(local, p)
    requires more != [] ==> |more| == 1 && more[0].path == p && Describes(more[0], remote, local)
    ensures Covers(more + staged, [p] + paths, local, remote)
  {
    var all := more + staged;
    forall i, j | 0 <= i < j < |all| ensures all[i].path != all[j].path {
      assert all[j] in staged;
      if i >= |more| {
        assert staged[i - |more|].path != staged[j - |more|].path;
      }
    }
    forall e | e in all ensures e.path in [p] + paths && Describes(e, remote, local) {
      assert e in more || e in staged;
    }
    forall q | q in [p] + paths && Get(remote, q) != Get(local, q) ensures Mentions(all, q) {
      if q == p {
        assert more[0] in all;
      } else {
        assert q in paths && Mentions(staged, q);
        var w :| w in staged && w.path == q;
        assert w in all;
      }
    }
  }

  /** Staging right after collecting never fails, and yields one entry per changed path, in path order. */
  lemma {:induction false} StagedAlong(paths: seq<Path>, local: Tree, remote: Tree, trusted: map<Path, PathRecord>)
    requires Distinct(paths)
    requires DirtyAlong(paths, local, remote, trusted).Ok?
    ensures StageAll(DirtyAlong(paths, local, remote, trusted).value, local).Ok?
    ensures Covers(StageAll(DirtyAlong(paths, local, remote, trusted).value, local).value, paths, local, remote)
  {
    if paths != [] {
      var p, rest := paths[0], paths[1..];
      assert paths == [p] + rest;
      assert Distinct(rest) && p !in rest by {
        forall i, j | 0 <= i < j < |rest| ensures rest[i] != rest[j] {
          assert paths[i + 1] != paths[j + 1];
        }
      }
      StagedAlong(rest, local, remote, trusted);
      DirtyAtMeaning(p, local, remote, trusted);
      var dirtyRest := DirtyAlong(rest, local, remote, trusted).value;
      var stagedRest := StageAll(dirtyRest, local).value;
      match DirtyAt(p, local, remote, trusted).value
      case None =>
        CoversOneMore(p, [], stagedRest, rest, local, remote);
        assert [] + stagedRest == stagedRest;
      case Some(d) =>
        assert ([d] + dirtyRest)[1..] == dirtyRest;
        CoversOneMore(p, [StageOne(d, local).value], stagedRest, rest, local, remote);
    }
  }

  lemma CollectableIffDirtyPaths(local: Tree, remote: Tree, trusted: map<Path, PathRecord>)
    ensures DirtyPaths(local, remote, trusted).Ok? <==> Collectable(local, remote, trusted)
  {
    DirtyAlongSucceeds(AllPaths(local, remote, trusted), local, remote, trusted);
    forall p ensures DirtyAt(p, local, remote, trusted).Ok? <==> CleanAt(p, local, remote, trusted) {
      DirtyAtMeaning(p, local, remote, trusted);
    }
  }

  /**
   * Collecting succeeds exactly when nothing is reserved, the backing tree has not drifted and no path
   * changes kind; the frozen manifest is then exactly the difference from the backing tree to the
   * working tree.
   */
  lemma ManifestIsTheDiff(local: Tree, remote: Tree, trusted: map<Path, PathRecord>)
    ensures Manifest(local, remote, trusted).Ok? <==> Collectable(local, remote, trusted)
    ensures Manifest(local, remote, trusted).Ok? ==>
            IsDiff(Manifest(local, remote, trusted).value, remote, local)
  {
    CollectableIffDirtyPaths(local, remote, trusted);
    if DirtyPaths(local, remote, trusted).Ok? {
      var paths := AllPaths(local, remote, trusted);
      StagedAlong(paths, local, remote, trusted);
      var m := Manifest(local, remote, trusted).value;
      assert Covers(m, paths, local, remote);
      forall p | Get(remote, p) != Get(local, p) ensures Mentions(m, p) {
        assert p in paths;
      }
    }
  }

  lemma {:induction false} EmptyDiffMeansEqual(m: seq<StagedPath>, base: Tree, target: Tree)
    requires IsDiff(m, base, target)
    ensures m == [] <==> base == target
  {
    if m == [] {
      forall p ensures Get(base, p) == Get(target, p) {
        assert !Mentions(m, p);
      }
      SameEntriesSameMap(base, target);
    } else {
      assert m[0] in m;
    }
  }
}
