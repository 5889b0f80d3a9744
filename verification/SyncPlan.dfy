/** The per-path three-way decision of a sync round, and the record each decision leads to. */
module SyncPlan {
  import opened Wrappers
  import opened Versions

  datatype ObservedEntry = ObservedEntry(kind: Kind, version: Option<Version>, size: Option<nat>, mtime: Option<int>)

  datatype PlannedOp =
    | CreateLocalDir
    | CreateRemoteDir
    | PullFile
    | PushFile
    | DeleteLocal(kind: Kind)
    | DeleteRemote(kind: Kind)

  datatype RecordSpec =
    | Remove
    | Static(record: PathRecord)
    | ReadyFromPushedLocal(kind: Kind, localVersion: Option<Version>)
    | ReadyFromPulledRemote(kind: Kind, remoteVersion: Option<Version>)

  datatype SyncEvent = ConflictDetected | SyncedToRemote | SyncedFromRemote

  /** What to do at one path: at most one operation, and the record to keep afterwards. */
  datatype PathPlan = PathPlan(
    path: Path,
    ops: seq<PlannedOp>,
    spec: RecordSpec,
    events: seq<SyncEvent>,
    pulled: nat,
    pushed: nat,
    conflicts: nat)

  /** Both sides present: the new local version becomes the last one seen, the remote base stays. */
  function ConflictRecord(local: ObservedEntry, remote: ObservedEntry, previous: Option<PathRecord>): PathRecord {
    PathRecord(local.kind, Conflict, true, true, true, true,
      local.version, if previous.Some? then previous.value.baseRemote else None, remote.version)
  }

  /** One side absent: everything but the presence comes from the previous record. */
  function AbsentConflictRecord(kind: Kind, localPresent: bool, currentRemote: Option<Version>,
      previous: Option<PathRecord>): PathRecord {
    var base := if previous.Some? then previous.value.baseRemote else None;
    PathRecord(kind, Conflict, localPresent, localPresent, currentRemote != base, true,
      if previous.Some? then previous.value.lastLocal else None, base, currentRemote)
  }

  function ReadyAbsentRecord(): PathRecord {
    ReadyRecord(FileKind, None, None, false)
  }

  function PullPlan(path: Path, remote: ObservedEntry): PathPlan {
    match remote.kind
    case DirKind => PathPlan(path, [CreateLocalDir], Static(ReadyRecord(DirKind, None, None, true)), [SyncedFromRemote], 1, 0, 0)
    case FileKind => PathPlan(path, [PullFile], ReadyFromPulledRemote(FileKind, remote.version), [SyncedFromRemote], 1, 0, 0)
  }

  function PushPlan(path: Path, local: ObservedEntry): PathPlan {
    match local.kind
    case DirKind => PathPlan(path, [CreateRemoteDir], Static(ReadyRecord(DirKind, None, None, true)), [SyncedToRemote], 0, 1, 0)
    case FileKind => PathPlan(path, [PushFile], ReadyFromPushedLocal(FileKind, local.version), [SyncedToRemote], 0, 1, 0)
  }

  function ConflictPlan(path: Path, record: PathRecord): PathPlan {
    PathPlan(path, [], Static(record), [ConflictDetected], 0, 0, 1)
  }

  predicate LocalChanged(previous: Option<PathRecord>, local: Option<ObservedEntry>) {
    var present := previous.Some? && previous.value.localPresent;
    match local
    case Some(entry) => entry.version != (if previous.Some? then previous.value.lastLocal else None) || !present
    case None => present
  }

  predicate RemoteChanged(previous: Option<PathRecord>, remote: Option<ObservedEntry>) {
    (if remote.Some? then remote.value.version else None) != (if previous.Some? then previous.value.baseRemote else None)
  }

  function PlanPath(path: Path, previous: Option<PathRecord>, local: Option<ObservedEntry>,
      remote: Option<ObservedEntry>): PathPlan {
    var localChanged, remoteChanged := LocalChanged(previous, local), RemoteChanged(previous, remote);
    match (local, remote)
    case (None, None) => PathPlan(path, [], Remove, [], 0, 0, 0)
    case (Some(l), Some(r)) =>
      if l.kind != r.kind then ConflictPlan(path, ConflictRecord(l, r, previous))
      else if !localChanged && !remoteChanged then
        PathPlan(path, [], Static(ReadyRecord(l.kind, l.version, r.version, true)), [], 0, 0, 0)
      else if localChanged && !remoteChanged then PushPlan(path, l)
      else if !localChanged && remoteChanged then PullPlan(path, r)
      else ConflictPlan(path, ConflictRecord(l, r, previous))
    case (None, Some(r)) =>
      if previous.Some? && previous.value.localPresent then
        if remoteChanged then ConflictPlan(path, AbsentConflictRecord(r.kind, false, r.version, previous))
        else PathPlan(path, [DeleteRemote(r.kind)], Remove, [SyncedToRemote], 0, 1, 0)
      else PullPlan(path, r)
    case (Some(l), None) =>
      if previous.Some? && previous.value.baseRemote.Some? then
        if localChanged then ConflictPlan(path, AbsentConflictRecord(l.kind, true, None, previous))
        else PathPlan(path, [DeleteLocal(l.kind)], Remove, [SyncedFromRemote], 1, 0, 0)
      else PushPlan(path, l)
  }

  /** Versions observed while transferring. */
  datatype Outcome = Outcome(localVersion: Option<Version>, remoteVersion: Option<Version>)

  function MaterializeRecord(spec: RecordSpec, outcome: Outcome): Option<PathRecord> {
    match spec
    case Remove => None
    case Static(record) => Some(record)
    case ReadyFromPushedLocal(kind, localVersion) =>
      Some(ReadyRecord(kind, localVersion, if outcome.remoteVersion.Some? then outcome.remoteVersion else localVersion, true))
    case ReadyFromPulledRemote(kind, remoteVersion) =>
      Some(ReadyRecord(kind, outcome.localVersion, remoteVersion, true))
  }
}
