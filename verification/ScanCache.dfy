/**
 * The scans that open a sync round.  A cached row spares reading a file whose size and modification time
 * have not changed; the result is meant to be that of hashing everything.
 */
module ScanCache {
  import opened Wrappers
  import opened Ordering
  import opened Strings
  import opened Versions
  import opened Trees
  import opened SyncPlan

  /** A cached row holds what was observed: kind, version, size and modification time. */
  type Row = ObservedEntry

  predicate ReservedSectionPath(p: Path) {
    p == ".section" || StartsWith(p, ".section/")
  }

  // ----- The local side -----

  datatype LocalWorld = LocalWorld(tree: Tree, mtimes: map<Path, int>)

  datatype LocalScanStats = LocalScanStats(files: nat, cacheHits: nat, cacheMisses: nat)

  predicate LocalHit(cached: Option<Row>, size: nat, mtime: Option<int>) {
    && cached.Some? && cached.value.kind == FileKind && cached.value.version.Some?
    && mtime.Some? && cached.value.size == Some(size) && cached.value.mtime == mtime
  }

  function ObserveLocal(w: LocalWorld, p: Path, cached: Option<Row>): Row
    requires p in w.tree
  {
    match w.tree[p]
    case Dir => ObservedEntry(DirKind, None, None, Get(w.mtimes, p))
    case File(content) =>
      ObservedEntry(FileKind,
        if LocalHit(cached, |content|, Get(w.mtimes, p)) then cached.value.version else Some(Sha256(content)),
        Some(|content|), Get(w.mtimes, p))
  }

  function CountLocal(w: LocalWorld, p: Path, cached: Option<Row>, stats: LocalScanStats): LocalScanStats
    requires p in w.tree
  {
    match w.tree[p]
    case Dir => stats
    case File(content) =>
      if LocalHit(cached, |content|, Get(w.mtimes, p)) then stats.(files := stats.files + 1, cacheHits := stats.cacheHits + 1)
      else stats.(files := stats.files + 1, cacheMisses := stats.cacheMisses + 1)
  }

  datatype LocalSnapshot = LocalSnapshot(entries: map<Path, ObservedEntry>, stats: LocalScanStats)

  /** The snapshot of the entries visited so far, in visiting order. */
  function LocalScan(walk: seq<Path>, w: LocalWorld, cache: map<Path, Row>): LocalSnapshot
    requires forall p :: p in walk ==> p in w.tree
  {
    if walk == [] then LocalSnapshot(map[], LocalScanStats(0, 0, 0))
    else
      var p := walk[|walk| - 1];
      var before := LocalScan(walk[..|walk| - 1], w, cache);
      if ReservedSectionPath(p) then before
      else LocalSnapshot(
        before.entries[p := ObserveLocal(w, p, Get(cache, p))],
        CountLocal(w, p, Get(cache, p), before.stats))
  }

  method CollectLocal(walk: seq<Path>, w: LocalWorld, cache: map<Path, Row>)
    returns (entries: map<Path, ObservedEntry>, stats: LocalScanStats)
    requires forall p :: p in walk ==> p in w.tree
    ensures LocalSnapshot(entries, stats) == LocalScan(walk, w, cache)
  {
    entries, stats := map[], LocalScanStats(0, 0, 0);
    var i := 0;
    while i < |walk|
      invariant 0 <= i <= |walk|
      invariant LocalSnapshot(entries, stats) == LocalScan(walk[..i], w, cache)
    {
      var p := walk[i];
      assert walk[..i + 1][..i] == walk[..i];
      if !ReservedSectionPath(p) {
        stats := CountLocal(w, p, Get(cache, p), stats);
        entries := entries[p := ObserveLocal(w, p, Get(cache, p))];
      }
      i := i + 1;
    }
    assert walk[..i] == walk;
  }

  /** What a file of that size and modification time holds, whenever it is looked at. */
  type Stamp = (Path, nat, int) -> Version

  /** Equal size and modification time mean equal content. */
  ghost predicate HonestLocal(w: LocalWorld, stamp: Stamp) {
    forall p :: p in w.tree && w.tree[p].File? && p in w.mtimes ==>
      stamp(p, |w.tree[p].content|, w.mtimes[p]) == Sha256(w.tree[p].content)
  }

  ghost predicate ValidLocalRow(p: Path, row: Row, stamp: Stamp) {
    row.kind == FileKind && row.version.Some? && row.size.Some? && row.mtime.Some? ==>
      row.version.value == stamp(p, row.size.value, row.mtime.value)
  }

  ghost predicate ValidLocalCache(cache: map<Path, Row>, stamp: Stamp) {
    forall p :: p in cache ==> ValidLocalRow(p, cache[p], stamp)
  }

  /**
   * With valid rows the cached scan observes exactly what hashing every file observes, reads only the
   * misses, and the rows it hands on are valid again.
   */
  lemma {:induction false} CachedLocalScanIsFullScan(walk: seq<Path>, w: LocalWorld, cache: map<Path, Row>,
      stamp: Stamp)
    requires forall p :: p in walk ==> p in w.tree
    requires ValidLocalCache(cache, stamp) && HonestLocal(w, stamp)
    ensures LocalScan(walk, w, cache).entries == LocalScan(walk, w, map[]).entries
    ensures ValidLocalCache(LocalScan(walk, w, cache).entries, stamp)
    ensures var stats := LocalScan(walk, w, cache).stats;
            stats.cacheHits + stats.cacheMisses == stats.files == LocalScan(walk, w, map[]).stats.cacheMisses
  {
    if walk != [] {
      CachedLocalScanIsFullScan(walk[..|walk| - 1], w, cache, stamp);
      var p := walk[|walk| - 1];
      if p in cache {
        assert ValidLocalRow(p, cache[p], stamp);
      }
    }
  }

  /** What is really there. */
  function TrueEntry(w: LocalWorld, p: Path): ObservedEntry
    requires p in w.tree
  {
    match w.tree[p]
    case Dir => ObservedEntry(DirKind, None, None, Get(w.mtimes, p))
    case File(content) => ObservedEntry(FileKind, Some(Sha256(content)), Some(|content|), Get(w.mtimes, p))
  }

  /** The snapshot holds exactly the visited paths outside the reserved area, each as it really is. */
  lemma {:induction false} LocalScanIsTrue(walk: seq<Path>, w: LocalWorld, cache: map<Path, Row>, stamp: Stamp, p: Path)
    requires forall q :: q in walk ==> q in w.tree
    requires ValidLocalCache(cache, stamp) && HonestLocal(w, stamp)
    ensures Get(LocalScan(walk, w, cache).entries, p) ==
            if p in walk && !ReservedSectionPath(p) then Some(TrueEntry(w, p)) else None
  {
    hide ReservedSectionPath;
    if walk != [] {
      var front, last := walk[..|walk| - 1], walk[|walk| - 1];
      assert walk == front + [last];
      LocalScanIsTrue(front, w, cache, stamp, p);
      if last in cache {
        assert ValidLocalRow(last, cache[last], stamp);
      }
    }
  }

  // ----- The remote side -----

  /** What a listing or a stat call answers; a length of zero may just mean that the length is unknown. */
  datatype RemoteMeta = RemoteMeta(kind: Kind, length: nat, token: Option<Version>, mtime: Option<int>) {
    function Size(): Option<nat> {
      if length > 0 || token.Some? then Some(length) else None
    }
  }

  datatype Listed = Listed(path: Path, meta: RemoteMeta)

  datatype RemoteWorld = RemoteWorld(listing: seq<Listed>, stats: map<Path, RemoteMeta>, bodies: map<Path, Bytes>)

  datatype RemoteScanStats = RemoteScanStats(files: nat, metadataHits: nat, statFallbacks: nat, bodyFallbacks: nat)

  datatype ScanError = Unreadable(path: Path)

  function CachedManifestVersion(cached: Option<Row>, size: Option<nat>, mtime: Option<int>): Option<Version> {
    if cached.Some? && cached.value.kind == FileKind && size.Some? && mtime.Some?
       && cached.value.size == size && cached.value.mtime == mtime
    then cached.value.version else None
  }

  function FileObservation(version: Version, meta: RemoteMeta): Row {
    ObservedEntry(FileKind, Some(version), meta.Size(), meta.mtime)
  }

  /** A version known from metadata alone: the backend's token, or a cached row for that size and time. */
  function KnownVersion(meta: RemoteMeta, cached: Option<Row>): Option<Version> {
    if meta.token.Some? then meta.token else CachedManifestVersion(cached, meta.Size(), meta.mtime)
  }

  datatype RemoteObservation = RemoteObservation(row: Row, stats: RemoteScanStats)

  /** Listing first, then a stat call, then the whole body. */
  function ObserveRemote(w: RemoteWorld, item: Listed, cached: Option<Row>,
      stats: RemoteScanStats): Result<RemoteObservation, ScanError> {
    if item.meta.kind == DirKind then Ok(RemoteObservation(ObservedEntry(DirKind, None, None, item.meta.mtime), stats))
    else
      var counted := stats.(files := stats.files + 1);
      var listed := KnownVersion(item.meta, cached);
      if listed.Some? then
        Ok(RemoteObservation(FileObservation(listed.value, item.meta), counted.(metadataHits := counted.metadataHits + 1)))
      else if item.path !in w.stats then Err(Unreadable(item.path))
      else
        var fell := counted.(statFallbacks := counted.statFallbacks + 1);
        var meta := w.stats[item.path];
        var stated := KnownVersion(meta, cached);
        if stated.Some? then
          Ok(RemoteObservation(FileObservation(stated.value, meta), fell.(metadataHits := fell.metadataHits + 1)))
        else if item.path !in w.bodies then Err(Unreadable(item.path))
        else
          Ok(RemoteObservation(FileObservation(Sha256(w.bodies[item.path]), meta), fell.(bodyFallbacks := fell.bodyFallbacks + 1)))
  }

  datatype RemoteSnapshot = RemoteSnapshot(entries: map<Path, ObservedEntry>, stats: RemoteScanStats)

  function RemoteScan(listing: seq<Listed>, w: RemoteWorld,
      manifest: map<Path, Row>): Result<RemoteSnapshot, ScanError> {
    if listing == [] then Ok(RemoteSnapshot(map[], RemoteScanStats(0, 0, 0, 0)))
    else
      var item := listing[|listing| - 1];
      match RemoteScan(listing[..|listing| - 1], w, manifest)
      case Err(e) => Err(e)
      case Ok(before) =>
        if item.path == "" || ReservedSectionPath(item.path) then Ok(before)
        else match ObserveRemote(w, item, Get(manifest, item.path), before.stats)
          case Err(e) => Err(e)
          case Ok(seen) => Ok(RemoteSnapshot(before.entries[item.path := seen.row], seen.stats))
  }

  lemma {:induction false} ScanErrorStays(listing: seq<Listed>, k: nat, w: RemoteWorld, manifest: map<Path, Row>)
    requires k <= |listing| && RemoteScan(listing[..k], w, manifest).Err?
    ensures RemoteScan(listing, w, manifest) == RemoteScan(listing[..k], w, manifest)
    decreases |listing|
  {
    if k == |listing| {
      assert listing[..k] == listing;
    } else {
      var front := listing[..|listing| - 1];
      assert front[..k] == listing[..k];
      ScanErrorStays(front, k, w, manifest);
    }
  }

  method CollectRemote(w: RemoteWorld, manifest: map<Path, Row>) returns (r: Result<RemoteSnapshot, ScanError>)
    ensures r == RemoteScan(w.listing, w, manifest)
  {
    hide ObserveRemote;
    var entries: map<Path, ObservedEntry> := map[];
    var stats := RemoteScanStats(0, 0, 0, 0);
    var i := 0;
    while i < |w.listing|
      invariant 0 <= i <= |w.listing|
      invariant RemoteScan(w.listing[..i], w, manifest) == Ok(RemoteSnapshot(entries, stats))
    {
      var item := w.listing[i];
      assert w.listing[..i + 1][..i] == w.listing[..i];
      if item.path != "" && !ReservedSectionPath(item.path) {
        match ObserveRemote(w, item, Get(manifest, item.path), stats) {
          case Err(e) =>
            ScanErrorStays(w.listing, i + 1, w, manifest);
            return Err(e);
          case Ok(seen) =>
            entries, stats := entries[item.path := seen.row], seen.stats;
        }
      }
      i := i + 1;
    }
    assert w.listing[..i] == w.listing;
    r := Ok(RemoteSnapshot(entries, stats));
  }

  /** The version of a remote file: its token where the backend has one, else the digest of its body. */
  function RemoteVersion(w: RemoteWorld, p: Path): Version
    requires p in w.stats && p in w.bodies
  {
    if w.stats[p].token.Some? then w.stats[p].token.value else Sha256(w.bodies[p])
  }

  ghost predicate MetaFits(p: Path, meta: RemoteMeta, version: Version, stamp: Stamp) {
    meta.length > 0 && meta.mtime.Some? ==> stamp(p, meta.length, meta.mtime.value) == version
  }

  /** Every remote file can be read, listing and stat do not contradict each other, and size and time tell contents apart. */
  ghost predicate HonestRemote(w: RemoteWorld, stamp: Stamp) {
    && (forall p :: p in w.stats && p in w.bodies && w.stats[p].kind == FileKind ==> MetaFits(p, w.stats[p], RemoteVersion(w, p), stamp))
    && (forall item :: item in w.listing && item.meta.kind == FileKind ==>
          && item.path in w.stats && item.path in w.bodies && w.stats[item.path].kind == FileKind
          && (item.meta.token.Some? ==> item.meta.token == w.stats[item.path].token)
          && MetaFits(item.path, item.meta, RemoteVersion(w, item.path), stamp))
  }

  /** Rows without a size, or with size zero, are never consulted. */
  ghost predicate ValidRemoteRow(p: Path, row: Row, stamp: Stamp) {
    row.kind == FileKind && row.version.Some? && row.size.Some? && row.size.value > 0 && row.mtime.Some? ==>
      row.version.value == stamp(p, row.size.value, row.mtime.value)
  }

  ghost predicate ValidManifest(manifest: map<Path, Row>, stamp: Stamp) {
    forall p :: p in manifest ==> ValidRemoteRow(p, manifest[p], stamp)
  }

  /** Same paths, kinds and versions: all that planning looks at. */
  ghost predicate SameVersions(a: map<Path, ObservedEntry>, b: map<Path, ObservedEntry>) {
    && a.Keys == b.Keys
    && forall p :: p in a ==> a[p].kind == b[p].kind && a[p].version == b[p].version
  }

  lemma ObservationIsTrue(w: RemoteWorld, item: Listed, cached: Option<Row>, stats: RemoteScanStats, stamp: Stamp)
    requires HonestRemote(w, stamp) && item in w.listing
    requires cached.Some? ==> ValidRemoteRow(item.path, cached.value, stamp)
    ensures ObserveRemote(w, item, cached, stats).Ok?
    ensures var row := ObserveRemote(w, item, cached, stats).value.row;
            && row.kind == item.meta.kind
            && row.version == (if item.meta.kind == FileKind then Some(RemoteVersion(w, item.path)) else None)
            && ValidRemoteRow(item.path, row, stamp)
  {
  }

  /**
   * With valid rows the cached remote scan succeeds, sees the kinds and versions of the full scan, and
   * hands on valid rows.
   */
  lemma {:induction false} CachedRemoteScanIsFullScan(listing: seq<Listed>, w: RemoteWorld, manifest: map<Path, Row>,
      stamp: Stamp)
    requires HonestRemote(w, stamp) && ValidManifest(manifest, stamp)
    requires forall item :: item in listing ==> item in w.listing
    ensures RemoteScan(listing, w, manifest).Ok? && RemoteScan(listing, w, map[]).Ok?
    ensures SameVersions(RemoteScan(listing, w, manifest).value.entries, RemoteScan(listing, w, map[]).value.entries)
    ensures ValidManifest(RemoteScan(listing, w, manifest).value.entries, stamp)
  {
    hide HonestRemote, ObserveRemote, ValidRemoteRow;
    if listing != [] {
      var front, item := listing[..|listing| - 1], listing[|listing| - 1];
      CachedRemoteScanIsFullScan(front, w, manifest, stamp);
      ObservationIsTrue(w, item, Get(manifest, item.path), RemoteScan(front, w, manifest).value.stats, stamp);
      ObservationIsTrue(w, item, None, RemoteScan(front, w, map[]).value.stats, stamp);
    }
  }

  /** Every file is answered from metadata or by reading its body, and a cache never causes more reads. */
  lemma {:induction false} RemoteReadsAreCounted(listing: seq<Listed>, w: RemoteWorld, manifest: map<Path, Row>)
    requires RemoteScan(listing, w, manifest).Ok? && RemoteScan(listing, w, map[]).Ok?
    ensures var cached, full := RemoteScan(listing, w, manifest).value.stats, RemoteScan(listing, w, map[]).value.stats;
            && cached.files == cached.metadataHits + cached.bodyFallbacks == full.files
            && cached.bodyFallbacks <= full.bodyFallbacks && cached.statFallbacks <= full.statFallbacks
  {
    hide ObserveRemote;
    if listing != [] {
      var rest, item := listing[..|listing| - 1], listing[|listing| - 1];
      RemoteReadsAreCounted(rest, w, manifest);
      if item.path != "" && !ReservedSectionPath(item.path) {
        ObservationIsCounted(w, item, Get(manifest, item.path), RemoteScan(rest, w, manifest).value.stats,
                             RemoteScan(rest, w, map[]).value.stats);
      }
    }
  }

  /** What one observation adds to the counts, with a cached row and without. */
  lemma ObservationIsCounted(w: RemoteWorld, item: Listed, row: Option<Row>, cached: RemoteScanStats, full: RemoteScanStats)
    requires ObserveRemote(w, item, row, cached).Ok? && ObserveRemote(w, item, None, full).Ok?
    ensures var cached', full' := ObserveRemote(w, item, row, cached).value.stats, ObserveRemote(w, item, None, full).value.stats;
            && cached'.files - cached.files == full'.files - full.files
            && cached'.files - cached.files
               == cached'.metadataHits - cached.metadataHits + cached'.bodyFallbacks - cached.bodyFallbacks
            && cached'.bodyFallbacks - cached.bodyFallbacks <= full'.bodyFallbacks - full.bodyFallbacks
            && cached'.statFallbacks - cached.statFallbacks <= full'.statFallbacks - full.statFallbacks
  {
  }

  // ----- Planning sees no difference -----

  datatype PathInput = PathInput(path: Path, previous: Option<PathRecord>, local: Option<ObservedEntry>, remote: Option<ObservedEntry>)

  function InputsAlong(paths: seq<Path>, previous: map<Path, PathRecord>, local: map<Path, ObservedEntry>,
      remote: map<Path, ObservedEntry>): seq<PathInput> {
    if paths == [] then []
    else [PathInput(paths[0], Get(previous, paths[0]), Get(local, paths[0]), Get(remote, paths[0]))]
         + InputsAlong(paths[1..], previous, local, remote)
  }

  /** One input per path known to the store or seen on a side, in path order. */
  function BuildInputs(previous: map<Path, PathRecord>, local: map<Path, ObservedEntry>,
      remote: map<Path, ObservedEntry>): seq<PathInput> {
    InputsAlong(SortedStrings(previous.Keys + local.Keys + remote.Keys), previous, local, remote)
  }

  function Plans(inputs: seq<PathInput>): seq<PathPlan> {
    if inputs == [] then []
    else [PlanPath(inputs[0].path, inputs[0].previous, inputs[0].local, inputs[0].remote)] + Plans(inputs[1..])
  }

  lemma {:induction false} SameVersionsSamePlansAlong(paths: seq<Path>, previous: map<Path, PathRecord>,
      local: map<Path, ObservedEntry>,
                                                       a: map<Path, ObservedEntry>, b: map<Path, ObservedEntry>)
    requires SameVersions(a, b)
    ensures Plans(InputsAlong(paths, previous, local, a)) == Plans(InputsAlong(paths, previous, local, b))
  {
    if paths != [] {
      SameVersionsSamePlansAlong(paths[1..], previous, local, a, b);
      SameVersionsSamePlan(paths[0], Get(previous, paths[0]), Get(local, paths[0]), Get(a, paths[0]), Get(b, paths[0]));
    }
  }

  lemma SameVersionsSamePlan(p: Path, previous: Option<PathRecord>, local: Option<ObservedEntry>,
      a: Option<ObservedEntry>, b: Option<ObservedEntry>)
    requires a.Some? <==> b.Some?
    requires a.Some? ==> a.value.kind == b.value.kind && a.value.version == b.value.version
    ensures PlanPath(p, previous, local, a) == PlanPath(p, previous, local, b)
  {
  }

  /** A round that trusts its caches makes exactly the plans of a round that hashes everything. */
  lemma CachedRoundMakesTheSamePlans(previous: map<Path, PathRecord>, walk: seq<Path>, lw: LocalWorld, rw: RemoteWorld,
                                     cache: map<Path, Row>, manifest: map<Path, Row>, localStamp: Stamp, remoteStamp: Stamp)
    requires forall p :: p in walk ==> p in lw.tree
    requires HonestLocal(lw, localStamp) && ValidLocalCache(cache, localStamp)
    requires HonestRemote(rw, remoteStamp) && ValidManifest(manifest, remoteStamp)
    ensures var local, full := LocalScan(walk, lw, cache), LocalScan(walk, lw, map[]);
            var remote, fullRemote := RemoteScan(rw.listing, rw, manifest), RemoteScan(rw.listing, rw, map[]);
            && remote.Ok? && fullRemote.Ok?
            && Plans(BuildInputs(previous, local.entries, remote.value.entries))
               == Plans(BuildInputs(previous, full.entries, fullRemote.value.entries))
  {
    hide PlanPath, RemoteScan, LocalScan;
    CachedLocalScanIsFullScan(walk, lw, cache, localStamp);
    CachedRemoteScanIsFullScan(rw.listing, rw, manifest, remoteStamp);
    var local := LocalScan(walk, lw, map[]).entries;
    var a, b := RemoteScan(rw.listing, rw, manifest).value.entries, RemoteScan(rw.listing, rw, map[]).value.entries;
    SameVersionsSamePlansAlong(SortedStrings(previous.Keys + local.Keys + a.Keys), previous, local, a, b);
  }

  // ----- After the transfers -----

  /** The two sides as they are when a round refreshes its rows; a path may refuse to be inspected. */
  datatype After = After(local: LocalWorld, remote: RemoteWorld, refused: set<Path>)

  datatype Rows = Rows(local: map<Path, Row>, remote: map<Path, Row>)

  function RefreshedLocalRow(w: LocalWorld, p: Path, version: Option<Version>): Row
    requires p in w.tree
  {
    match w.tree[p]
    case Dir => ObservedEntry(DirKind, None, None, Get(w.mtimes, p))
    case File(content) =>
      ObservedEntry(FileKind, if version.Some? then version else Some(Sha256(content)), Some(|content|), Get(w.mtimes, p))
  }

  function OrElse(a: Option<Version>, b: Option<Version>): Option<Version> {
    if a.Some? then a else b
  }

  function RefreshedRemoteRow(w: RemoteWorld, p: Path, version: Option<Version>): Row {
    match Get(w.stats, p)
    case None => ObservedEntry(FileKind, version, None, None)
    case Some(meta) =>
      var known := OrElse(meta.token, version);
      ObservedEntry(FileKind, known, if meta.length > 0 || known.Some? then Some(meta.length) else None, meta.mtime)
  }

  function PlannedVersion(plan: PathPlan): Option<Version> {
    if plan.spec.ReadyFromPushedLocal? then plan.spec.localVersion else None
  }

  function RefreshOne(op: PlannedOp, plan: PathPlan, outcome: Outcome, after: After,
      rows: Rows): Result<Rows, ScanError> {
    var p := plan.path;
    if p in after.refused && !op.DeleteLocal? && !op.DeleteRemote? then Err(Unreadable(p))
    else match op
      case CreateLocalDir =>
        Ok(rows.(local := if p in after.local.tree then rows.local[p := RefreshedLocalRow(after.local, p, None)] else rows.local - {p}))
      case PullFile =>
        Ok(rows.(local := if p in after.local.tree then rows.local[p := RefreshedLocalRow(after.local, p, outcome.localVersion)] else rows.local - {p}))
      case CreateRemoteDir =>
        Ok(rows.(remote := rows.remote[p := ObservedEntry(DirKind, None, None,
          if p in after.remote.stats then after.remote.stats[p].mtime else None)]))
      case PushFile =>
        Ok(rows.(remote := rows.remote[p := RefreshedRemoteRow(after.remote, p, OrElse(outcome.remoteVersion, PlannedVersion(plan)))]))
      case DeleteLocal(_) => Ok(rows.(local := rows.local - {p}))
      case DeleteRemote(_) => Ok(rows.(remote := rows.remote - {p}))
  }

  function RefreshOps(ops: seq<PlannedOp>, plan: PathPlan, outcome: Outcome, after: After,
      rows: Rows): Result<Rows, ScanError>
    decreases |ops|
  {
    if ops == [] then Ok(rows)
    else match RefreshOne(ops[0], plan, outcome, after, rows)
      case Err(e) => Err(e)
      case Ok(next) => RefreshOps(ops[1..], plan, outcome, after, next)
  }

  method RefreshCachedSnapshots(plan: PathPlan, outcome: Outcome, after: After,
      rows: Rows) returns (r: Result<Rows, ScanError>)
    ensures r == RefreshOps(plan.ops, plan, outcome, after, rows)
  {
    var current := rows;
    var i := 0;
    assert plan.ops[0..] == plan.ops;
    while i < |plan.ops|
      invariant 0 <= i <= |plan.ops|
      invariant RefreshOps(plan.ops, plan, outcome, after, rows) == RefreshOps(plan.ops[i..], plan, outcome, after, current)
    {
      assert plan.ops[i..][0] == plan.ops[i] && plan.ops[i..][1..] == plan.ops[i + 1..];
      match RefreshOne(plan.ops[i], plan, outcome, after, current) {
        case Err(e) => return Err(e);
        case Ok(next) => current := next;
      }
      i := i + 1;
    }
    r := Ok(current);
  }

  /** The versions a transfer reported are those of what now lies at its path. */
  ghost predicate OutcomeSeen(plan: PathPlan, outcome: Outcome, after: After) {
    var p := plan.path;
    && (PullFile in plan.ops && p in after.local.tree && after.local.tree[p].File? && outcome.localVersion.Some? ==>
          outcome.localVersion.value == Sha256(after.local.tree[p].content))
    && (PushFile in plan.ops && p in after.remote.stats ==>
          && p in after.remote.bodies && after.remote.stats[p].kind == FileKind
          && (after.remote.stats[p].token.None? && OrElse(outcome.remoteVersion, PlannedVersion(plan)).Some? ==>
                OrElse(outcome.remoteVersion, PlannedVersion(plan)).value == Sha256(after.remote.bodies[p])))
  }

  ghost predicate ValidRows(rows: Rows, localStamp: Stamp, remoteStamp: Stamp) {
    ValidLocalCache(rows.local, localStamp) && ValidManifest(rows.remote, remoteStamp)
  }

  lemma RefreshOneKeepsValid(op: PlannedOp, plan: PathPlan, outcome: Outcome, after: After, rows: Rows,
      localStamp: Stamp, remoteStamp: Stamp)
    requires op in plan.ops && OutcomeSeen(plan, outcome, after)
    requires HonestLocal(after.local, localStamp) && HonestRemote(after.remote, remoteStamp)
    requires ValidRows(rows, localStamp, remoteStamp)
    ensures RefreshOne(op, plan, outcome, after, rows).Ok? ==> ValidRows(RefreshOne(op, plan, outcome, after, rows).value, localStamp, remoteStamp)
  {
  }

  /** Refreshing after a transfer keeps every row valid. */
  lemma {:induction false} RefreshKeepsValid(ops: seq<PlannedOp>, plan: PathPlan, outcome: Outcome, after: After,
      rows: Rows, localStamp: Stamp, remoteStamp: Stamp)
    requires (forall op :: op in ops ==> op in plan.ops) && OutcomeSeen(plan, outcome, after)
    requires HonestLocal(after.local, localStamp) && HonestRemote(after.remote, remoteStamp)
    requires ValidRows(rows, localStamp, remoteStamp)
    ensures RefreshOps(ops, plan, outcome, after, rows).Ok? ==> ValidRows(RefreshOps(ops, plan, outcome, after, rows).value, localStamp, remoteStamp)
    decreases |ops|
  {
    hide RefreshOne, OutcomeSeen, HonestLocal, HonestRemote, ValidRows;
    if ops != [] {
      RefreshOneKeepsValid(ops[0], plan, outcome, after, rows, localStamp, remoteStamp);
      if RefreshOne(ops[0], plan, outcome, after, rows).Ok? {
        RefreshKeepsValid(ops[1..], plan, outcome, after, RefreshOne(ops[0], plan, outcome, after, rows).value, localStamp, remoteStamp);
      }
    }
  }
}
