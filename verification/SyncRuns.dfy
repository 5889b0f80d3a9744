/**
 * Whole runs of the bidirectional sync on file entries: edits on both sides, rounds, complete or broken
 * off, and conflict resolution.
 */
module SyncRuns {
  import opened Wrappers
  import opened Versions
  import opened SyncPlan

  /** A file in the remote store; its version is a token of that very write, or the content's digest. */
  datatype RemoteFile = RemoteFile(content: Bytes, version: Version)

  predicate Honest(file: RemoteFile) {
    file.version.content == file.content
  }

  /** Everything the engine knows and owns at one path. */
  datatype PathState = PathState(local: Option<Bytes>, remote: Option<RemoteFile>, record: Option<PathRecord>)

  function ContentOf(remote: Option<RemoteFile>): Option<Bytes> {
    if remote.Some? then Some(remote.value.content) else None
  }

  function LocalEntry(ps: PathState): Option<ObservedEntry> {
    match ps.local
    case None => None
    case Some(content) => Some(ObservedEntry(FileKind, Some(Sha256(content)), Some(|content|), None))
  }

  function RemoteEntry(ps: PathState): Option<ObservedEntry> {
    match ps.remote
    case None => None
    case Some(file) => Some(ObservedEntry(FileKind, Some(file.version), Some(|file.content|), None))
  }

  function PlanOf(ps: PathState): PathPlan {
    PlanPath("", ps.record, LocalEntry(ps), RemoteEntry(ps))
  }

  predicate Conflicted(ps: PathState) {
    PlanOf(ps).conflicts > 0
  }

  /**
   * The transfer of a path's plan; `mint` is the version the remote store gives a pushed file.  A push
   * reports a version only when the store hands out tokens.
   */
  function Transfer(ps: PathState, mint: Version): (PathState, Outcome) {
    var ops := PlanOf(ps).ops;
    if ops == [] then (ps, Outcome(None, None))
    else match ops[0]
      case PullFile =>
        if ps.remote.Some? then (ps.(local := Some(ps.remote.value.content)), Outcome(Some(Sha256(ps.remote.value.content)), None))
        else (ps, Outcome(None, None))
      case PushFile =>
        if ps.local.Some? then
          (ps.(remote := Some(RemoteFile(ps.local.value, mint))), Outcome(None, if mint.Token? then Some(mint) else None))
        else (ps, Outcome(None, None))
      case DeleteLocal(_) => (ps.(local := None), Outcome(None, None))
      case DeleteRemote(_) => (ps.(remote := None), Outcome(None, None))
      case _ => (ps, Outcome(None, None))
  }

  /** The store's version of a file pushed with the path's local content. */
  predicate MintFits(ps: PathState, mint: Version) {
    ps.local.Some? ==> mint.content == ps.local.value
  }

  /** One path through a complete round. */
  function SyncPath(ps: PathState, mint: Version): PathState {
    var (moved, outcome) := Transfer(ps, mint);
    moved.(record := MaterializeRecord(PlanOf(ps).spec, outcome))
  }

  /** How far a round got at a path: nothing happened, its transfer took effect, its record was written too. */
  datatype Reached = Untouched | Transferred | Recorded

  function RoundPath(ps: PathState, mint: Version, reached: Reached): PathState {
    match reached
    case Untouched => ps
    case Transferred => Transfer(ps, mint).0
    case Recorded => SyncPath(ps, mint)
  }

  datatype Strategy = UseLocal | UseRemote

  /** Resolving a recorded conflict; anything else is refused and changes nothing. */
  function ResolvePath(ps: PathState, strategy: Strategy, mint: Version): PathState {
    if ps.record.None? || ps.record.value.publicState != Conflict then ps
    else match strategy
      case UseLocal =>
        (match ps.local
         case Some(content) =>
           PathState(ps.local, Some(RemoteFile(content, mint)),
             Some(ReadyRecord(FileKind, Some(Sha256(content)), Some(if mint.Token? then mint else Sha256(content)), true)))
         case None => PathState(None, None, Some(ReadyAbsentRecord())))
      case UseRemote =>
        (match ps.remote
         case Some(file) =>
           PathState(Some(file.content), ps.remote,
             Some(ReadyRecord(FileKind, Some(Sha256(file.content)), Some(file.version), true)))
         case None => PathState(None, None, Some(ReadyAbsentRecord())))
  }

  ghost predicate HonestPath(ps: PathState) {
    ps.remote.Some? ==> Honest(ps.remote.value)
  }

  predicate SameContents(a: PathState, b: PathState) {
    a.local == b.local && ContentOf(a.remote) == ContentOf(b.remote)
  }

  // ----- One path: what a round may overwrite -----

  /** The record of a path that is not in conflict says exactly what both sides agreed on. */
  ghost predicate RecordsAgreement(record: Option<PathRecord>, agreed: Option<Bytes>) {
    match agreed
    case Some(content) =>
      && record.Some? && record.value.localPresent
      && record.value.lastLocal == Some(Sha256(content))
      && record.value.baseRemote.Some? && record.value.baseRemote.value.content == content
    case None =>
      record.None? || (!record.value.localPresent && record.value.lastLocal == None && record.value.baseRemote == None)
  }

  /** Whatever disappears on a side was the agreed content. */
  ghost predicate OverwritesOnlyAgreed(before: PathState, after: PathState, agreed: Option<Bytes>) {
    && (before.local.Some? && after.local != before.local ==> before.local == agreed)
    && (before.remote.Some? && ContentOf(after.remote) != ContentOf(before.remote) ==> ContentOf(before.remote) == agreed)
  }

  lemma PathRoundIsSafe(ps: PathState, agreed: Option<Bytes>, mint: Version)
    requires HonestPath(ps) && MintFits(ps, mint)
    requires RecordsAgreement(ps.record, agreed)
    ensures var after := SyncPath(ps, mint);
            && OverwritesOnlyAgreed(ps, after, agreed) && HonestPath(after)
            && (Conflicted(ps) ==> SameContents(ps, after) && after.record.Some? && after.record.value.publicState == Conflict)
            && (!Conflicted(ps) ==> after.local == ContentOf(after.remote) && RecordsAgreement(after.record, after.local)
                                    && (after.record.Some? ==> after.record.value.publicState == Ready))
  {
  }

  /** The remote side no longer shows the version the record was made from. */
  predicate RemoteMoved(ps: PathState) {
    (if ps.remote.Some? then Some(ps.remote.value.version) else None) != (if ps.record.Some? then ps.record.value.baseRemote else None)
  }

  /**
   * The three-way merge: it is a conflict exactly when both sides moved away from what they agreed on and
   * are not both gone; otherwise both sides end with the content of the side that moved.
   */
  lemma ThreeWayMerge(ps: PathState, agreed: Option<Bytes>, mint: Version)
    requires HonestPath(ps) && MintFits(ps, mint) && RecordsAgreement(ps.record, agreed)
    ensures Conflicted(ps) <==> ps.local != agreed && RemoteMoved(ps) && (ps.local.Some? || ps.remote.Some?)
    ensures !Conflicted(ps) ==>
              var after := SyncPath(ps, mint);
              after.local == ContentOf(after.remote) == if ps.local == agreed then ContentOf(ps.remote) else ps.local
  {
  }

  /** Whatever a run did before, the record's remote base is the agreed content. */
  ghost predicate BaseMatches(record: Option<PathRecord>, agreed: Option<Bytes>) {
    agreed == if record.Some? && record.value.baseRemote.Some? then Some(record.value.baseRemote.value.content) else None
  }

  /** The record takes for the last local content one that was never on both sides. */
  predicate EditRecorded(record: Option<PathRecord>) {
    && record.Some? && record.value.lastLocal.Some?
    && (record.value.baseRemote.None? || record.value.lastLocal.value.content != record.value.baseRemote.value.content)
  }

  /**
   * A local edit at risk: the record already counts it as seen, so the path looks unchanged locally, and
   * the remote side has moved to something else.
   */
  predicate Endangered(ps: PathState) {
    && ps.local.Some? && !LocalChanged(ps.record, LocalEntry(ps)) && EditRecorded(ps.record)
    && RemoteMoved(ps) && ps.local != ContentOf(ps.remote)
  }

  /** A round overwrites more than agreed content exactly at an endangered path that it reaches. */
  lemma LosesExactlyWhenEndangered(ps: PathState, agreed: Option<Bytes>, mint: Version, reached: Reached)
    requires HonestPath(ps) && MintFits(ps, mint) && BaseMatches(ps.record, agreed)
    ensures OverwritesOnlyAgreed(ps, RoundPath(ps, mint, reached), agreed) <==> !Endangered(ps) || reached == Untouched
  {
  }

  /**
   * A conflict left open: the next round loses the local edit exactly when both sides were present, the
   * local side still has that edit, and the remote side is not back at its base and has not come to the same
   * content.
   */
  lemma OpenConflictLosesExactlyWhen(earlier: PathState, first: Version, ps: PathState, second: Version, agreed: Option<Bytes>)
    requires HonestPath(earlier) && MintFits(earlier, first) && RecordsAgreement(earlier.record, agreed) && Conflicted(earlier)
    requires HonestPath(ps) && MintFits(ps, second) && ps.record == SyncPath(earlier, first).record
    ensures OverwritesOnlyAgreed(ps, SyncPath(ps, second), agreed) <==>
              !(earlier.local.Some? && earlier.remote.Some? && ps.local == earlier.local
                && RemoteMoved(ps) && ps.local != ContentOf(ps.remote))
  {
  }

  /** Resolving a conflict gives both sides the chosen side's content, and a record that says so. */
  lemma ResolveTakesASide(ps: PathState, strategy: Strategy, mint: Version)
    requires HonestPath(ps) && MintFits(ps, mint)
    ensures var after := ResolvePath(ps, strategy, mint);
            if ps.record.Some? && ps.record.value.publicState == Conflict then
              && after.local == ContentOf(after.remote) == (if strategy == UseLocal then ps.local else ContentOf(ps.remote))
              && RecordsAgreement(after.record, after.local) && after.record.Some? && after.record.value.publicState == Ready
            else after == ps
  {
  }

  // ----- Whole states and runs -----

  datatype SyncState = SyncState(local: map<Path, Bytes>, remote: map<Path, RemoteFile>, records: map<Path, PathRecord>)

  function At(s: SyncState, p: Path): PathState {
    PathState(Get(s.local, p), Get(s.remote, p), Get(s.records, p))
  }

  function KnownPaths(s: SyncState): set<Path> {
    s.local.Keys + s.remote.Keys + s.records.Keys
  }

  function Rebuild(paths: set<Path>, at: Path -> PathState): SyncState {
    SyncState(
      map p | p in paths && at(p).local.Some? :: at(p).local.value,
      map p | p in paths && at(p).remote.Some? :: at(p).remote.value,
      map p | p in paths && at(p).record.Some? :: at(p).record.value)
  }

  /** A round that got as far as `reached` says at each path; the source writes no record before every transfer is done. */
  function PartialRound(s: SyncState, mint: Path -> Version, reached: Path -> Reached): SyncState {
    Rebuild(KnownPaths(s), p => RoundPath(At(s, p), mint(p), reached(p)))
  }

  /** A complete round: every path transferred, every record written. */
  function SyncRound(s: SyncState, mint: Path -> Version): SyncState {
    PartialRound(s, mint, p => Recorded)
  }

  lemma RoundsArePathwise(s: SyncState, mint: Path -> Version, reached: Path -> Reached, p: Path)
    ensures At(PartialRound(s, mint, reached), p) == RoundPath(At(s, p), mint(p), reached(p))
    ensures At(SyncRound(s, mint), p) == SyncPath(At(s, p), mint(p))
  {
    if p !in KnownPaths(s) {
      UnknownPathStays(At(s, p), mint(p));
    }
    hide SyncPath, Transfer;
  }

  /** A path nothing is known about stays unknown. */
  lemma UnknownPathStays(ps: PathState, mint: Version)
    requires ps == PathState(None, None, None)
    ensures !Conflicted(ps) && SyncPath(ps, mint) == ps
    ensures forall reached :: RoundPath(ps, mint, reached) == ps
  {
  }

  datatype Step =
    | EditLocal(path: Path, content: Option<Bytes>)
    | EditRemote(path: Path, file: Option<RemoteFile>)
    | Sync(mint: Path -> Version, reached: Path -> Reached)
    | Resolve(path: Path, strategy: Strategy, version: Version)

  /** A state together with the content both sides had after each path's last agreeing round or resolve. */
  datatype Tracked = Tracked(state: SyncState, agreed: map<Path, Bytes>)

  function SetPath(s: SyncState, p: Path, ps: PathState): SyncState {
    Rebuild(KnownPaths(s) + {p}, q => if q == p then ps else At(s, q))
  }

  function SetAgreed(agreed: map<Path, Bytes>, p: Path, content: Option<Bytes>): map<Path, Bytes> {
    if content.Some? then agreed[p := content.value] else agreed - {p}
  }

  /** A round agrees on a path when it records it, finds no conflict and leaves both sides equal. */
  function AgreedAfter(ps: PathState, agreed: Option<Bytes>, mint: Version, reached: Reached): Option<Bytes> {
    var after := SyncPath(ps, mint);
    if reached == Recorded && !Conflicted(ps) && after.local == ContentOf(after.remote) then after.local else agreed
  }

  function AgreedAfterRound(t: Tracked, mint: Path -> Version, reached: Path -> Reached): map<Path, Bytes> {
    map p | p in KnownPaths(t.state) + t.agreed.Keys
            && AgreedAfter(At(t.state, p), Get(t.agreed, p), mint(p), reached(p)).Some?
      :: AgreedAfter(At(t.state, p), Get(t.agreed, p), mint(p), reached(p)).value
  }

  function Apply(t: Tracked, step: Step): Tracked {
    match step
    case EditLocal(p, content) => t.(state := SetPath(t.state, p, At(t.state, p).(local := content)))
    case EditRemote(p, file) => t.(state := SetPath(t.state, p, At(t.state, p).(remote := file)))
    case Sync(mint, reached) => Tracked(PartialRound(t.state, mint, reached), AgreedAfterRound(t, mint, reached))
    case Resolve(p, strategy, version) =>
      var after := ResolvePath(At(t.state, p), strategy, version);
      if after == At(t.state, p) then t
      else Tracked(SetPath(t.state, p, after), SetAgreed(t.agreed, p, after.local))
  }

  /** Versions name contents. */
  ghost predicate Truthful(s: SyncState, step: Step) {
    match step
    case EditLocal(_, _) => true
    case EditRemote(_, file) => file.Some? ==> Honest(file.value)
    case Sync(mint, _) => forall p :: MintFits(At(s, p), mint(p))
    case Resolve(p, _, version) => MintFits(At(s, p), version)
  }

  lemma SetPathAt(s: SyncState, p: Path, ps: PathState, q: Path)
    ensures At(SetPath(s, p, ps), q) == if q == p then ps else At(s, q)
  {
  }

  lemma AgreedAfterRoundAt(t: Tracked, mint: Path -> Version, reached: Path -> Reached, p: Path)
    ensures Get(AgreedAfterRound(t, mint, reached), p) == AgreedAfter(At(t.state, p), Get(t.agreed, p), mint(p), reached(p))
  {
    if p !in KnownPaths(t.state) {
      UnknownPathStays(At(t.state, p), mint(p));
    }
    hide Conflicted, SyncPath;
  }

  /** A record that waits for the user to choose between two present contents. */
  predicate EditConflict(record: PathRecord) {
    record.publicState == Conflict && record.localPresent && record.currentRemote.Some?
  }

  /** What every run keeps at a path. */
  ghost predicate PathInv(ps: PathState, agreed: Option<Bytes>) {
    HonestPath(ps) && BaseMatches(ps.record, agreed)
  }

  /** What a run keeps besides when no round starts on an open edit conflict. */
  ghost predicate CarefulInv(ps: PathState, agreed: Option<Bytes>) {
    && PathInv(ps, agreed)
    && ((ps.record.Some? && EditConflict(ps.record.value)) || !EditRecorded(ps.record))
    && (ps.record.Some? && ps.record.value.publicState == Ready ==> RecordsAgreement(ps.record, agreed))
  }

  /** The invariant of all runs, or of the careful ones. */
  ghost predicate InvAt(ps: PathState, agreed: Option<Bytes>, careful: bool) {
    if careful then CarefulInv(ps, agreed) else PathInv(ps, agreed)
  }

  ghost predicate Inv(t: Tracked, careful: bool) {
    forall p :: InvAt(At(t.state, p), Get(t.agreed, p), careful)
  }

  predicate NoEditConflict(s: SyncState) {
    forall p :: p in s.records ==> !EditConflict(s.records[p])
  }

  /** The user resolves each edit conflict before the next round. */
  predicate Careful(s: SyncState, step: Step) {
    step.Sync? ==> NoEditConflict(s)
  }

  lemma PathRoundKeepsInv(ps: PathState, agreed: Option<Bytes>, mint: Version, reached: Reached)
    requires MintFits(ps, mint) && PathInv(ps, agreed)
    ensures PathInv(RoundPath(ps, mint, reached), AgreedAfter(ps, agreed, mint, reached))
  {
  }

  /** Only an edit conflict makes the record run ahead of what both sides held. */
  lemma OnlyEditConflictsRunAhead(ps: PathState, mint: Version)
    requires MintFits(ps, mint) && HonestPath(ps) && !EditRecorded(ps.record)
    ensures var record := SyncPath(ps, mint).record;
            (record.Some? && EditConflict(record.value)) || !EditRecorded(record)
  {
  }

  lemma ReadyMeansAgreed(ps: PathState, agreed: Option<Bytes>, mint: Version)
    requires MintFits(ps, mint) && PathInv(ps, agreed) && !EditRecorded(ps.record)
    ensures var record := SyncPath(ps, mint).record;
            record.Some? && record.value.publicState == Ready ==> RecordsAgreement(record, AgreedAfter(ps, agreed, mint, Recorded))
  {
  }

  lemma PathRoundKeepsCare(ps: PathState, agreed: Option<Bytes>, mint: Version, reached: Reached)
    requires MintFits(ps, mint) && CarefulInv(ps, agreed) && !EditRecorded(ps.record)
    ensures CarefulInv(RoundPath(ps, mint, reached), AgreedAfter(ps, agreed, mint, reached))
  {
    hide PlanPath, MaterializeRecord, Conflicted;
    PathRoundKeepsInv(ps, agreed, mint, reached);
    OnlyEditConflictsRunAhead(ps, mint);
    ReadyMeansAgreed(ps, agreed, mint);
  }

  lemma SyncKeepsInv(t: Tracked, mint: Path -> Version, reached: Path -> Reached, careful: bool)
    requires Inv(t, careful) && Truthful(t.state, Sync(mint, reached)) && (careful ==> NoEditConflict(t.state))
    ensures Inv(Apply(t, Sync(mint, reached)), careful)
  {
    hide RoundPath, AgreedAfter, PathInv, AgreedAfterRound, PartialRound, MintFits, EditRecorded;
    var t' := Apply(t, Sync(mint, reached));
    forall p ensures InvAt(At(t'.state, p), Get(t'.agreed, p), careful) {
      var ps := At(t.state, p);
      RoundsArePathwise(t.state, mint, reached, p);
      AgreedAfterRoundAt(t, mint, reached, p);
      assert InvAt(ps, Get(t.agreed, p), careful) && MintFits(ps, mint(p));
      if careful {
        assert !EditRecorded(ps.record);
        PathRoundKeepsCare(ps, Get(t.agreed, p), mint(p), reached(p));
      } else {
        PathRoundKeepsInv(ps, Get(t.agreed, p), mint(p), reached(p));
      }
    }
  }

  lemma OnePathKeepsInv(t: Tracked, p: Path, ps: PathState, agreed: Option<Bytes>, careful: bool)
    requires Inv(t, careful) && InvAt(ps, agreed, careful)
    ensures Inv(Tracked(SetPath(t.state, p, ps), SetAgreed(t.agreed, p, agreed)), careful)
  {
    hide InvAt, SetPath;
    var t' := Tracked(SetPath(t.state, p, ps), SetAgreed(t.agreed, p, agreed));
    forall q ensures InvAt(At(t'.state, q), Get(t'.agreed, q), careful) {
      SetPathAt(t.state, p, ps, q);
      assert InvAt(At(t.state, q), Get(t.agreed, q), careful);
    }
  }

  lemma StepKeepsInv(t: Tracked, step: Step, careful: bool)
    requires Inv(t, careful) && Truthful(t.state, step) && (careful ==> Careful(t.state, step))
    ensures Inv(Apply(t, step), careful)
  {
    match step
    case EditLocal(p, content) =>
      assert InvAt(At(t.state, p), Get(t.agreed, p), careful);
      assert SetAgreed(t.agreed, p, Get(t.agreed, p)) == t.agreed;
      OnePathKeepsInv(t, p, At(t.state, p).(local := content), Get(t.agreed, p), careful);
    case EditRemote(p, file) =>
      assert InvAt(At(t.state, p), Get(t.agreed, p), careful);
      assert SetAgreed(t.agreed, p, Get(t.agreed, p)) == t.agreed;
      OnePathKeepsInv(t, p, At(t.state, p).(remote := file), Get(t.agreed, p), careful);
    case Sync(mint, reached) => SyncKeepsInv(t, mint, reached, careful);
    case Resolve(p, strategy, version) =>
      var after := ResolvePath(At(t.state, p), strategy, version);
      assert InvAt(At(t.state, p), Get(t.agreed, p), careful);
      if after != At(t.state, p) {
        ResolveTakesASide(At(t.state, p), strategy, version);
        assert InvAt(after, after.local, careful);
        OnePathKeepsInv(t, p, after, after.local, careful);
      }
  }

  /** The states that any sequence of steps goes through, from a store without records. */
  ghost predicate IsRun(run: seq<Tracked>, steps: seq<Step>) {
    && |run| == |steps| + 1
    && run[0].state.records == map[] && run[0].agreed == map[]
    && (forall p :: p in run[0].state.remote ==> Honest(run[0].state.remote[p]))
    && forall i :: 0 <= i < |steps| ==> Truthful(run[i].state, steps[i]) && run[i + 1] == Apply(run[i], steps[i])
  }

  /** No round starts on an open edit conflict. */
  ghost predicate CarefulRun(run: seq<Tracked>, steps: seq<Step>) {
    IsRun(run, steps) && forall i :: 0 <= i < |steps| ==> Careful(run[i].state, steps[i])
  }

  lemma {:induction false} RunKeepsInv(run: seq<Tracked>, steps: seq<Step>, i: nat, careful: bool)
    requires IsRun(run, steps) && i < |run| && (careful ==> CarefulRun(run, steps))
    ensures Inv(run[i], careful)
  {
    if i == 0 {
      forall p ensures InvAt(At(run[0].state, p), Get(run[0].agreed, p), careful) {
      }
    } else {
      RunKeepsInv(run, steps, i - 1, careful);
      assert Truthful(run[i - 1].state, steps[i - 1]) && run[i - 1 + 1] == Apply(run[i - 1], steps[i - 1]);
      StepKeepsInv(run[i - 1], steps[i - 1], careful);
    }
  }

  /**
   * Over all runs, whether or not conflicts are resolved: a round overwrites or deletes something that is
   * not what both sides last agreed on exactly at the endangered paths it reaches.
   */
  lemma RunLosesExactlyWhenEndangered(run: seq<Tracked>, steps: seq<Step>, i: nat, p: Path)
    requires IsRun(run, steps) && i < |steps| && steps[i].Sync?
    ensures OverwritesOnlyAgreed(At(run[i].state, p), At(run[i + 1].state, p), Get(run[i].agreed, p)) <==>
              !Endangered(At(run[i].state, p)) || steps[i].reached(p) == Untouched
  {
    RunKeepsInv(run, steps, i, false);
    var t, step := run[i], steps[i];
    assert Truthful(t.state, step) && run[i + 1] == Apply(t, step);
    assert InvAt(At(t.state, p), Get(t.agreed, p), false);
    RoundsArePathwise(t.state, step.mint, step.reached, p);
    assert MintFits(At(t.state, p), step.mint(p));
    LosesExactlyWhenEndangered(At(t.state, p), Get(t.agreed, p), step.mint(p), step.reached(p));
  }

  /**
   * No lost update: when every edit conflict is resolved before the next round, any content a round
   * (complete or broken off) overwrites or deletes on one side is what both sides agreed on at that path's
   * last agreeing round or resolve.  Conflicts with one side absent may stay open.
   */
  lemma NoLostUpdate(run: seq<Tracked>, steps: seq<Step>, i: nat, p: Path)
    requires CarefulRun(run, steps) && i < |steps| && steps[i].Sync?
    ensures OverwritesOnlyAgreed(At(run[i].state, p), At(run[i + 1].state, p), Get(run[i].agreed, p))
  {
    RunKeepsInv(run, steps, i, true);
    assert Careful(run[i].state, steps[i]);
    assert InvAt(At(run[i].state, p), Get(run[i].agreed, p), true);
    RunLosesExactlyWhenEndangered(run, steps, i, p);
  }

  /**
   * What "agreed" means, over all runs: after a recorded round without a conflict, both sides hold the agreed
   * content exactly when the path did not start as a stale pair; after a resolve they always do.
   */
  lemma AgreedIsOnBothSides(run: seq<Tracked>, steps: seq<Step>, i: nat, p: Path)
    requires IsRun(run, steps) && i < |steps|
    requires (steps[i].Sync? && steps[i].reached(p) == Recorded && !Conflicted(At(run[i].state, p)))
          || (steps[i].Resolve? && steps[i].path == p && run[i + 1] != run[i])
    ensures var after := At(run[i + 1].state, p);
            after.local == ContentOf(after.remote) == Get(run[i + 1].agreed, p) <==>
              steps[i].Resolve? || !StalePair(At(run[i].state, p))
  {
    RunKeepsInv(run, steps, i, false);
    var t, step := run[i], steps[i];
    var ps := At(t.state, p);
    assert Truthful(t.state, step) && run[i + 1] == Apply(t, step);
    assert InvAt(ps, Get(t.agreed, p), false);
    if step.Sync? {
      RoundsArePathwise(t.state, step.mint, step.reached, p);
      AgreedAfterRoundAt(t, step.mint, step.reached, p);
      assert MintFits(ps, step.mint(p));
      RoundEqualisesUnlessStale(ps, step.mint(p));
    } else {
      SetPathAt(t.state, p, ResolvePath(ps, step.strategy, step.version), p);
    }
  }

  lemma RoundEqualisesUnlessStale(ps: PathState, mint: Version)
    requires HonestPath(ps) && MintFits(ps, mint) && !Conflicted(ps)
    ensures SyncPath(ps, mint).local == ContentOf(SyncPath(ps, mint).remote) <==> !StalePair(ps)
  {
  }

  // ----- Quiet rounds -----

  /** Complete rounds one after another, with no edit in between. */
  function Rounds(ps: PathState, mints: seq<Version>): PathState
    decreases |mints|
  {
    if mints == [] then ps else Rounds(SyncPath(ps, mints[0]), mints[1..])
  }

  ghost predicate AllFit(ps: PathState, mints: seq<Version>)
    decreases |mints|
  {
    mints != [] ==> MintFits(ps, mints[0]) && AllFit(SyncPath(ps, mints[0]), mints[1..])
  }

  /** Nothing to transfer, and the round reproduces the state. */
  ghost predicate Quiet(ps: PathState) {
    PlanOf(ps).ops == [] && forall mint :: SyncPath(ps, mint) == ps
  }

  /** The record accepts two contents that differ: neither side looks changed, so no round ever acts. */
  predicate StalePair(ps: PathState) {
    && ps.local.Some? && ps.remote.Some? && ps.record.Some?
    && ps.record.value.localPresent
    && ps.record.value.lastLocal == Some(Sha256(ps.local.value))
    && ps.record.value.baseRemote == Some(ps.remote.value.version)
    && ps.local.value != ps.remote.value.content
  }

  /** Both sides equal, or a locally edited and remotely deleted file waiting for the user. */
  predicate Settled(ps: PathState) {
    || ps.local == ContentOf(ps.remote)
    || (ps.local.Some? && ps.remote.None? && ps.record.Some? && ps.record.value.publicState == Conflict
        && ps.record.value.lastLocal != Some(Sha256(ps.local.value)))
  }

  /** A plan whose one operation takes the remote side's word. */
  predicate FollowsRemote(ps: PathState) {
    PlanOf(ps).ops == [PullFile] || PlanOf(ps).ops == [DeleteLocal(FileKind)]
  }

  /** One round leaves nothing to do, or a conflict the next round takes the remote side of. */
  lemma OneRoundLeaves(ps: PathState, mint: Version)
    requires MintFits(ps, mint)
    ensures var after := SyncPath(ps, mint);
            || FollowsRemote(after)
            || (PlanOf(after).ops == [] && MaterializeRecord(PlanOf(after).spec, Outcome(None, None)) == after.record)
  {
  }

  lemma OneRoundSettles(ps: PathState, mint: Version)
    requires MintFits(ps, mint) && HonestPath(ps)
    ensures HonestPath(SyncPath(ps, mint))
    ensures PlanOf(SyncPath(ps, mint)).ops == [] ==> (Settled(SyncPath(ps, mint)) <==> !StalePair(ps))
    ensures FollowsRemote(SyncPath(ps, mint)) ==> !StalePair(ps)
  {
  }

  lemma FollowingQuietens(ps: PathState, mint: Version)
    requires FollowsRemote(ps)
    ensures Quiet(SyncPath(ps, mint)) && SyncPath(ps, mint).local == ContentOf(SyncPath(ps, mint).remote)
  {
  }

  /** Two rounds are enough, from any record whatever. */
  lemma TwoRoundsQuieten(ps: PathState, first: Version, second: Version)
    requires MintFits(ps, first) && MintFits(SyncPath(ps, first), second)
    ensures Quiet(SyncPath(SyncPath(ps, first), second))
    ensures HonestPath(ps) ==> (Settled(SyncPath(SyncPath(ps, first), second)) <==> !StalePair(ps))
  {
    hide PlanPath, MaterializeRecord;
    var one := SyncPath(ps, first);
    OneRoundLeaves(ps, first);
    if FollowsRemote(one) {
      FollowingQuietens(one, second);
    }
    if HonestPath(ps) {
      OneRoundSettles(ps, first);
    }
  }

  lemma {:induction false} QuietStays(ps: PathState, mints: seq<Version>)
    requires Quiet(ps)
    ensures Rounds(ps, mints) == ps
    decreases |mints|
  {
    if mints != [] {
      assert SyncPath(ps, mints[0]) == ps;
      QuietStays(ps, mints[1..]);
    }
  }

  lemma QuietAfterTwo(ps: PathState, mints: seq<Version>)
    requires |mints| >= 2 && AllFit(ps, mints)
    ensures var two := SyncPath(SyncPath(ps, mints[0]), mints[1]);
            Rounds(ps, mints) == two && Quiet(two) && AllFit(ps, [mints[0], mints[1]])
  {
    hide SyncPath, Quiet, MintFits;
    var one := SyncPath(ps, mints[0]);
    var two := SyncPath(one, mints[1]);
    assert AllFit(one, mints[1..]) && mints[1..][0] == mints[1];
    TwoRoundsQuieten(ps, mints[0], mints[1]);
    assert Rounds(ps, mints) == Rounds(one, mints[1..]) == Rounds(two, mints[1..][1..]);
    QuietStays(two, mints[1..][1..]);
    var pair := [mints[0], mints[1]];
    assert pair[1..] == [mints[1]] && pair[1..][1..] == [];
    assert AllFit(two, []) && AllFit(one, [mints[1]]);
  }

  /**
   * Convergence at one path: whatever the record, from the third consecutive round on nothing happens;
   * and the path is settled exactly when it did not start as a stale pair.
   */
  lemma PathConverges(ps: PathState, mints: seq<Version>)
    requires |mints| >= 2 && HonestPath(ps) && AllFit(ps, mints)
    ensures Quiet(Rounds(ps, mints))
    ensures Settled(Rounds(ps, mints)) <==> !StalePair(ps)
  {
    hide SyncPath, Quiet, Settled, StalePair, MintFits;
    QuietAfterTwo(ps, mints);
    assert AllFit(SyncPath(ps, mints[0]), mints[1..]) && mints[1..][0] == mints[1];
    TwoRoundsQuieten(ps, mints[0], mints[1]);
  }

  /** A path of a careful run is never a stale pair, unless an edit conflict is open on it. */
  lemma CarefulPathsAreNotStale(t: Tracked, p: Path)
    requires Inv(t, true) && NoEditConflict(t.state)
    ensures !StalePair(At(t.state, p)) && HonestPath(At(t.state, p))
  {
    assert InvAt(At(t.state, p), Get(t.agreed, p), true);
  }

  /**
   * How a careful run can still leave one: a conflict is recorded, and before it is resolved the
   * remote side returns to its old content.  The next round then calls the two different contents ready.
   */
  lemma RevertedConflictGoesStale(ps: PathState, reverted: RemoteFile, mint: Version)
    requires ps.local.Some? && ps.remote.Some? && Conflicted(ps)
    requires ps.record.Some? && ps.record.value.baseRemote == Some(reverted.version)
    requires reverted.content != ps.local.value
    ensures StalePair(SyncPath(ps, mint).(remote := Some(reverted)))
  {
  }

  // ----- Whole-store convergence -----

  function WholeRounds(s: SyncState, mints: seq<Path -> Version>): SyncState
    decreases |mints|
  {
    if mints == [] then s else WholeRounds(SyncRound(s, mints[0]), mints[1..])
  }

  function MintsAt(mints: seq<Path -> Version>, p: Path): (r: seq<Version>)
    ensures |r| == |mints|
  {
    if mints == [] then [] else [mints[0](p)] + MintsAt(mints[1..], p)
  }

  lemma {:induction false} WholeRoundsArePathwise(s: SyncState, mints: seq<Path -> Version>, p: Path)
    ensures At(WholeRounds(s, mints), p) == Rounds(At(s, p), MintsAt(mints, p))
    decreases |mints|
  {
    if mints != [] {
      RoundsArePathwise(s, mints[0], q => Recorded, p);
      WholeRoundsArePathwise(SyncRound(s, mints[0]), mints[1..], p);
    }
  }

  /**
   * Convergence of a careful run with no edit conflict left open: from the third consecutive round on no
   * plan has any operation, and each path is equal on both sides or a locally edited, remotely deleted
   * conflict.
   */
  lemma RunConverges(run: seq<Tracked>, steps: seq<Step>, mints: seq<Path -> Version>, p: Path)
    requires CarefulRun(run, steps) && NoEditConflict(run[|steps|].state)
    requires |mints| >= 2 && AllFit(At(run[|steps|].state, p), MintsAt(mints, p))
    ensures var final := At(WholeRounds(run[|steps|].state, mints), p);
            PlanOf(final).ops == [] && Settled(final)
  {
    var t := run[|steps|];
    RunKeepsInv(run, steps, |steps|, true);
    CarefulPathsAreNotStale(t, p);
    PathConverges(At(t.state, p), MintsAt(mints, p));
    WholeRoundsArePathwise(t.state, mints, p);
  }

  // ----- Abort and retry -----

  /** Broken-off rounds one after another: the version minted, and how far each got at the path. */
  function FailedRounds(ps: PathState, fails: seq<(Version, Reached)>): PathState
    decreases |fails|
  {
    if fails == [] then ps else FailedRounds(RoundPath(ps, fails[0].0, fails[0].1), fails[1..])
  }

  ghost predicate FailsFit(ps: PathState, fails: seq<(Version, Reached)>)
    decreases |fails|
  {
    fails != [] ==> MintFits(ps, fails[0].0) && FailsFit(RoundPath(ps, fails[0].0, fails[0].1), fails[1..])
  }

  /** No failure came as late as the writing of the path's record. */
  predicate NothingRecorded(fails: seq<(Version, Reached)>) {
    forall i :: 0 <= i < |fails| ==> fails[i].1 != Recorded
  }

  /** Where such failures can leave a path: untouched, or already holding what a complete round would give it. */
  ghost predicate Ahead(start: PathState, ps: PathState) {
    || ps == start
    || (ps.record == start.record && PlanOf(start).ops != [] && HonestPath(ps)
        && ps.local == ContentOf(ps.remote)
        && exists mint :: MintFits(start, mint) && SameContents(ps, SyncPath(start, mint)))
  }

  lemma FailureStaysAhead(start: PathState, ps: PathState, mint: Version, reached: Reached)
    requires HonestPath(start) && Ahead(start, ps) && MintFits(ps, mint) && reached != Recorded
    ensures Ahead(start, RoundPath(ps, mint, reached))
    ensures ps != start ==> SameContents(ps, RoundPath(ps, mint, reached))
  {
    if ps == start && reached == Transferred && PlanOf(start).ops != [] {
      assert SameContents(RoundPath(ps, mint, reached), SyncPath(start, mint));
    }
  }

  lemma {:induction false} FailuresStayAhead(start: PathState, ps: PathState, fails: seq<(Version, Reached)>)
    requires HonestPath(start) && Ahead(start, ps) && FailsFit(ps, fails) && NothingRecorded(fails)
    ensures Ahead(start, FailedRounds(ps, fails))
    ensures ps != start ==> SameContents(ps, FailedRounds(ps, fails))
    decreases |fails|
  {
    if fails != [] {
      FailureStaysAhead(start, ps, fails[0].0, fails[0].1);
      FailuresStayAhead(start, RoundPath(ps, fails[0].0, fails[0].1), fails[1..]);
    }
  }

  /** Equal contents on both sides stay as they are, whatever the record says. */
  lemma {:induction false} EqualSidesStay(ps: PathState, mints: seq<Version>)
    requires ps.local == ContentOf(ps.remote) && HonestPath(ps) && AllFit(ps, mints)
    ensures SameContents(ps, Rounds(ps, mints))
    decreases |mints|
  {
    if mints != [] {
      EqualSidesStay(SyncPath(ps, mints[0]), mints[1..]);
    }
  }

  lemma OperationEqualisesSides(ps: PathState, mint: Version)
    requires HonestPath(ps) && MintFits(ps, mint) && PlanOf(ps).ops != []
    ensures SyncPath(ps, mint).local == ContentOf(SyncPath(ps, mint).remote)
    ensures HonestPath(SyncPath(ps, mint))
    ensures forall other :: MintFits(ps, other) ==> SameContents(SyncPath(ps, mint), SyncPath(ps, other))
  {
  }

  /**
   * Abort and retry: after any number of rounds that failed before writing records, one or more quiet rounds
   * reach the same local and remote contents as if none of the failures had happened.
   */
  lemma RetryReachesTheSame(ps: PathState, fails: seq<(Version, Reached)>, mints: seq<Version>, other: seq<Version>)
    requires HonestPath(ps) && FailsFit(ps, fails) && NothingRecorded(fails)
    requires 1 <= |mints| == |other| && AllFit(FailedRounds(ps, fails), mints) && AllFit(ps, other)
    ensures SameContents(Rounds(FailedRounds(ps, fails), mints), Rounds(ps, other))
  {
    FailuresStayAhead(ps, ps, fails);
    var failed := FailedRounds(ps, fails);
    if failed == ps {
      SameStartSameContents(ps, mints, other);
    } else {
      var mint :| MintFits(ps, mint) && SameContents(failed, SyncPath(ps, mint));
      OperationEqualisesSides(ps, other[0]);
      assert SameContents(SyncPath(ps, other[0]), SyncPath(ps, mint));
      EqualSidesStay(failed, mints);
      EqualSidesStay(SyncPath(ps, other[0]), other[1..]);
    }
  }

  /** The versions minted on the way make no difference to the contents. */
  lemma {:induction false} SameStartSameContents(ps: PathState, mints: seq<Version>, other: seq<Version>)
    requires HonestPath(ps) && |mints| == |other| && AllFit(ps, mints) && AllFit(ps, other)
    ensures SameContents(Rounds(ps, mints), Rounds(ps, other))
    decreases |mints|
  {
    if mints != [] {
      var a, b := SyncPath(ps, mints[0]), SyncPath(ps, other[0]);
      if PlanOf(ps).ops == [] {
        assert a == b;
        SameStartSameContents(a, mints[1..], other[1..]);
      } else {
        OperationEqualisesSides(ps, mints[0]);
        OperationEqualisesSides(ps, other[0]);
        EqualSidesStay(a, mints[1..]);
        EqualSidesStay(b, other[1..]);
      }
    }
  }

  /** Any two retries of at least two rounds reach the same contents. */
  lemma TwoRoundsDecide(ps: PathState, mints: seq<Version>, other: seq<Version>)
    requires HonestPath(ps) && |mints| >= 2 && |other| >= 2 && AllFit(ps, mints) && AllFit(ps, other)
    ensures SameContents(Rounds(ps, mints), Rounds(ps, other))
  {
    hide SyncPath, Quiet, MintFits, SameContents, HonestPath;
    var a, b := [mints[0], mints[1]], [other[0], other[1]];
    QuietAfterTwo(ps, mints);
    QuietAfterTwo(ps, other);
    QuietAfterTwo(ps, a);
    QuietAfterTwo(ps, b);
    SameStartSameContents(ps, a, b);
  }

  lemma TwoFit(ps: PathState) returns (mints: seq<Version>)
    ensures |mints| == 2 && AllFit(ps, mints)
  {
    var first := Sha256(if ps.local.Some? then ps.local.value else []);
    var one := SyncPath(ps, first);
    mints := [first, Sha256(if one.local.Some? then one.local.value else [])];
    assert mints[1..][1..] == [];
    assert AllFit(SyncPath(one, mints[1]), []);
    assert AllFit(one, mints[1..]);
  }

  lemma RoundStaysHonest(ps: PathState, mint: Version, reached: Reached)
    requires HonestPath(ps) && MintFits(ps, mint)
    ensures HonestPath(RoundPath(ps, mint, reached))
  {
  }

  /**
   * Abort and retry when failures may also come while records are written: two or more quiet rounds reach
   * the contents that two or more rounds would have reached without the failures.
   */
  lemma {:induction false} RetryOfRecordedRounds(ps: PathState, fails: seq<(Version, Reached)>, mints: seq<Version>,
      other: seq<Version>)
    requires HonestPath(ps) && FailsFit(ps, fails)
    requires |mints| >= 2 && |other| >= 2 && AllFit(FailedRounds(ps, fails), mints) && AllFit(ps, other)
    ensures SameContents(Rounds(FailedRounds(ps, fails), mints), Rounds(ps, other))
    decreases |fails|
  {
    hide SyncPath, Transfer, MintFits, Quiet, HonestPath;
    if fails == [] {
      TwoRoundsDecide(ps, mints, other);
    } else {
      var next := RoundPath(ps, fails[0].0, fails[0].1);
      RoundStaysHonest(ps, fails[0].0, fails[0].1);
      var two := TwoFit(next);
      RetryOfRecordedRounds(next, fails[1..], mints, two);
      OneFailureThenTwo(ps, fails[0].0, fails[0].1, two, other);
    }
  }

  lemma OneFailureThenTwo(ps: PathState, mint: Version, reached: Reached, two: seq<Version>, other: seq<Version>)
    requires HonestPath(ps) && MintFits(ps, mint) && |two| == 2 && |other| >= 2
    requires AllFit(RoundPath(ps, mint, reached), two) && AllFit(ps, other)
    ensures SameContents(Rounds(RoundPath(ps, mint, reached), two), Rounds(ps, other))
  {
    hide SyncPath, Transfer, MintFits, Quiet, HonestPath;
    match reached
    case Recorded =>
      var all := [mint] + two;
      assert all[1..] == two;
      TwoRoundsDecide(ps, all, other);
    case _ =>
      var fails := [(mint, reached)];
      assert fails[1..] == [];
      assert FailsFit(RoundPath(ps, mint, reached), []) && FailsFit(ps, fails);
      assert FailedRounds(ps, fails) == RoundPath(ps, mint, reached);
      var pair := [other[0], other[1]];
      QuietAfterTwo(ps, other);
      QuietAfterTwo(ps, pair);
      RetryReachesTheSame(ps, fails, two, pair);
  }

  /** Broken-off rounds of the whole store: the versions minted, and how far each got where. */
  datatype Failure = Failure(mint: Path -> Version, reached: Path -> Reached)

  function WholeFailures(s: SyncState, fails: seq<Failure>): SyncState
    decreases |fails|
  {
    if fails == [] then s else WholeFailures(PartialRound(s, fails[0].mint, fails[0].reached), fails[1..])
  }

  function FailsAt(fails: seq<Failure>, p: Path): seq<(Version, Reached)> {
    if fails == [] then [] else [(fails[0].mint(p), fails[0].reached(p))] + FailsAt(fails[1..], p)
  }

  lemma {:induction false} WholeFailuresArePathwise(s: SyncState, fails: seq<Failure>, p: Path)
    ensures At(WholeFailures(s, fails), p) == FailedRounds(At(s, p), FailsAt(fails, p))
    decreases |fails|
  {
    hide RoundPath;
    if fails != [] {
      RoundsArePathwise(s, fails[0].mint, fails[0].reached, p);
      WholeFailuresArePathwise(PartialRound(s, fails[0].mint, fails[0].reached), fails[1..], p);
    }
  }

  lemma {:induction false} FailuresKeepRecord(ps: PathState, fails: seq<(Version, Reached)>)
    requires NothingRecorded(fails)
    ensures FailedRounds(ps, fails).record == ps.record
    decreases |fails|
  {
    if fails != [] {
      FailuresKeepRecord(RoundPath(ps, fails[0].0, fails[0].1), fails[1..]);
    }
  }

  /**
   * Abort and retry for the whole store: on every path, quiet rounds after the failures reach the contents
   * they would have reached without them, two at the latest, and one is enough where no failure came as late
   * as the path's record, which is then as it was.
   */
  lemma WholeRetryReachesTheSame(s: SyncState, fails: seq<Failure>, mints: seq<Path -> Version>,
      other: seq<Path -> Version>, p: Path)
    requires HonestPath(At(s, p)) && 1 <= |mints| == |other|
    requires FailsFit(At(s, p), FailsAt(fails, p)) && AllFit(At(s, p), MintsAt(other, p))
    requires AllFit(At(WholeFailures(s, fails), p), MintsAt(mints, p))
    requires |mints| >= 2 || NothingRecorded(FailsAt(fails, p))
    ensures NothingRecorded(FailsAt(fails, p)) ==> At(WholeFailures(s, fails), p).record == At(s, p).record
    ensures SameContents(At(WholeRounds(WholeFailures(s, fails), mints), p), At(WholeRounds(s, other), p))
  {
    hide HonestPath, NothingRecorded, SameContents;
    WholeFailuresArePathwise(s, fails, p);
    WholeRoundsArePathwise(WholeFailures(s, fails), mints, p);
    WholeRoundsArePathwise(s, other, p);
    if NothingRecorded(FailsAt(fails, p)) {
      FailuresKeepRecord(At(s, p), FailsAt(fails, p));
      RetryReachesTheSame(At(s, p), FailsAt(fails, p), MintsAt(mints, p), MintsAt(other, p));
    } else {
      RetryOfRecordedRounds(At(s, p), FailsAt(fails, p), MintsAt(mints, p), MintsAt(other, p));
    }
  }
}
