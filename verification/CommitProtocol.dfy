/**
 * Agents committing to one shared filesystem.  Each agent checks the head, scans the backing tree,
 * freezes a manifest, takes the head lock, re-checks, publishes a commit and the head, releases and
 * materializes; any of them may stop anywhere.  Every access to a shared file is one step.
 */
module CommitProtocol {
  import opened Wrappers
  import opened Ordering
  import opened Versions
  import opened Trees
  import opened Staging
  import opened Materialize
  import HeadLock

  type Agent = HeadLock.Agent

  type CommitId = nat

  datatype MaterializationState = Pending | Materialized | FailedToMaterialize

  datatype CommitRecord = CommitRecord(
    parent: Option<CommitId>,
    base: Option<CommitId>,
    manifest: seq<StagedPath>,
    state: MaterializationState)

  /**
   * A frozen snapshot: the base it was taken on, the paths it changes, and the working copy and trusted base
   * it was made from.
   */
  datatype Snapshot = Snapshot(base: Option<CommitId>, manifest: seq<StagedPath>, local: Tree, trusted: map<Path, PathRecord>)

  /** Program positions of one agent; `Reread` to `Published` lie under the head lock. */
  datatype Phase =
    | Idle
    | Opened(base: Option<CommitId>, head: Option<CommitId>)
    | Checked(base: Option<CommitId>)
    | Listed(base: Option<CommitId>, pending: set<Path>, seen: Tree)
    | Scanned(base: Option<CommitId>, seen: Tree)
    | ReadyToPublish(id: CommitId)
    | Reread(id: CommitId, head: Option<CommitId>)
    | Verified(id: CommitId)
    | Recorded(id: CommitId)
    | Published(id: CommitId)
    | Attempting(id: CommitId, rest: seq<Op>)
    | Dead

  /** The commit an agent staged last, and whether an attempt of its own has recorded all of it in its store. */
  datatype Work = Work(id: CommitId, recorded: bool)

  /**
   * Shared files, per-agent positions, each agent's trusted base, and for the proofs what each is working on
   * and the list of published commits.
   */
  datatype State = State(
    lock: HeadLock.State,
    head: Option<CommitId>,
    commits: map<CommitId, CommitRecord>,
    snapshots: map<CommitId, Snapshot>,
    proposals: set<CommitId>,
    tree: Tree,
    phases: map<Agent, Phase>,
    stores: map<Agent, map<Path, PathRecord>>,
    work: map<Agent, Work>,
    history: seq<CommitId>)

  datatype Step =
    | LockStep(step: HeadLock.Step)
    | Open(agent: Agent, base: Option<CommitId>)
    | Check(agent: Agent)
    | ListTree(agent: Agent)
    | ReadFile(agent: Agent, path: Path)
    | FinishScan(agent: Agent)
    | Stage(agent: Agent, local: Tree, trusted: map<Path, PathRecord>, id: CommitId)
    | Propose(agent: Agent, local: Tree, trusted: map<Path, PathRecord>, id: CommitId)
    | TakeProposal(agent: Agent, id: CommitId)
    | RereadHead(agent: Agent)
    | Verify(agent: Agent)
    | WriteCommit(agent: Agent)
    | WriteHead(agent: Agent)
    | Call(agent: Agent)
    | FailAttempt(agent: Agent, done: nat)
    | SetStore(agent: Agent, trusted: map<Path, PathRecord>)
    | Complete(agent: Agent)
    | Repair(agent: Agent)
    | Abandon(agent: Agent)

  function PhaseOf(s: State, a: Agent): Phase {
    if a in s.phases then s.phases[a] else Idle
  }

  function Move(s: State, a: Agent, phase: Phase): State {
    s.(phases := s.phases[a := phase])
  }

  /** `ensure_head_is_materialized` for a head that was read. */
  predicate HeadIsMaterialized(s: State, head: Option<CommitId>) {
    head.None? || (head.value in s.commits && s.commits[head.value].state == Materialized)
  }

  predicate InFlight(phase: Phase) {
    phase.Published? || phase.Attempting?
  }

  predicate Critical(phase: Phase) {
    phase.Reread? || phase.Verified? || phase.Recorded? || phase.Published?
  }

  predicate HoldsLock(s: State, a: Agent) {
    HeadLock.PhaseOf(s.lock, a).Inside?
  }

  predicate FreshId(s: State, id: CommitId) {
    id !in s.snapshots && id !in s.commits
  }

  /** What an agent recorded of the backing tree. */
  function StoreOf(s: State, a: Agent): map<Path, PathRecord> {
    if a in s.stores then s.stores[a] else map[]
  }

  /** The manifest an agent's working copy yields against what it saw, if any path is dirty. */
  function DirtyManifest(phase: Phase, local: Tree, trusted: map<Path, PathRecord>): Option<seq<StagedPath>>
    requires phase.Scanned?
  {
    match Manifest(local, phase.seen, trusted)
    case Err(_) => None
    case Ok(m) => if m == [] then None else Some(m)
  }

  ghost predicate Enabled(s: State, step: Step) {
    match step
    case LockStep(step) =>
      && HeadLock.Enabled(s.lock, step)
      && (step.Release? || step.GiveUp? ==> !Critical(PhaseOf(s, step.agent)) || PhaseOf(s, step.agent).Published?)
    case Open(a, _) => PhaseOf(s, a).Idle?
    case Check(a) => PhaseOf(s, a).Opened?
    case ListTree(a) => PhaseOf(s, a).Checked?
    case ReadFile(a, p) => PhaseOf(s, a).Listed? && p in PhaseOf(s, a).pending
    case FinishScan(a) => PhaseOf(s, a).Listed? && PhaseOf(s, a).pending == {}
    case Stage(a, local, trusted, id) =>
      PhaseOf(s, a).Scanned? && FreshId(s, id) && ParentClosed(local) && DirtyManifest(PhaseOf(s, a), local, trusted).Some?
      && trusted == StoreOf(s, a)
    case Propose(a, local, trusted, id) =>
      PhaseOf(s, a).Scanned? && FreshId(s, id) && ParentClosed(local) && DirtyManifest(PhaseOf(s, a), local, trusted).Some?
      && trusted == StoreOf(s, a)
    case TakeProposal(a, id) => PhaseOf(s, a).Idle? && id in s.proposals
    case RereadHead(a) => PhaseOf(s, a).ReadyToPublish? && HoldsLock(s, a)
    case Verify(a) => PhaseOf(s, a).Reread? && PhaseOf(s, a).id in s.snapshots
    case WriteCommit(a) => PhaseOf(s, a).Verified? && PhaseOf(s, a).id in s.snapshots
    case WriteHead(a) => PhaseOf(s, a).Recorded?
    case Call(a) => PhaseOf(s, a).Attempting? && PhaseOf(s, a).rest != [] && PhaseOf(s, a).id in s.commits
    case FailAttempt(a, _) => PhaseOf(s, a).Attempting? && PhaseOf(s, a).id in s.commits
    case SetStore(a, _) => PhaseOf(s, a).Idle?
    case Complete(a) => PhaseOf(s, a).Attempting? && PhaseOf(s, a).rest == [] && PhaseOf(s, a).id in s.commits
    case Repair(a) =>
      && PhaseOf(s, a).Idle?
      && s.head.Some? && s.head.value in s.commits && s.head.value !in s.proposals
      && s.commits[s.head.value].state != Materialized
    case Abandon(a) => !InFlight(PhaseOf(s, a)) && !PhaseOf(s, a).Dead?
  }

  function AfterLockStep(s: State, step: HeadLock.Step): State
    requires HeadLock.Enabled(s.lock, step)
  {
    var locked := s.(lock := HeadLock.Apply(s.lock, step));
    if step.Crash? then Move(locked, step.agent, Dead)
    else if (step.Release? || step.GiveUp?) && PhaseOf(s, step.agent).Published? then
      var id := PhaseOf(s, step.agent).id;
      Move(locked, step.agent, Attempting(id, if id in s.commits then Script(s.commits[id].manifest) else []))
    else locked
  }

  function AfterCheck(s: State, at: Phase): Phase
    requires at.Opened?
  {
    if HeadIsMaterialized(s, at.head) && at.base == at.head then Checked(at.base) else Idle
  }

  /** The recursive listing: directories are known at once, file contents are still to be read. */
  function AfterList(s: State, base: Option<CommitId>): Phase {
    Listed(base, set p | p in s.tree && s.tree[p].File?, map p | p in s.tree && s.tree[p].Dir? :: Dir)
  }

  function AfterRead(s: State, at: Phase, p: Path): Phase
    requires at.Listed?
  {
    if p in s.tree && s.tree[p].File? then Listed(at.base, at.pending - {p}, at.seen[p := s.tree[p]]) else Idle
  }

  function AddSnapshot(s: State, id: CommitId, snapshot: Snapshot, proposal: bool): State {
    s.(snapshots := s.snapshots[id := snapshot], proposals := if proposal then s.proposals + {id} else s.proposals)
  }

  function AfterVerify(s: State, at: Phase): Phase
    requires at.Reread? && at.id in s.snapshots
  {
    if HeadIsMaterialized(s, at.head) && s.snapshots[at.id].base == at.head then Verified(at.id) else Idle
  }

  function AddCommit(s: State, id: CommitId): State
    requires id in s.snapshots
  {
    var snapshot := s.snapshots[id];
    s.(commits := s.commits[id := CommitRecord(snapshot.base, snapshot.base, snapshot.manifest, Pending)])
  }

  function AddHead(s: State, id: CommitId): State {
    s.(head := Some(id), history := s.history + [id])
  }

  function WithOutcome(s: State, a: Agent, id: CommitId, state: MaterializationState): State
    requires id in s.commits
  {
    Move(s, a, Idle).(commits := s.commits[id := s.commits[id].(state := state)])
  }

  function AfterCall(s: State, a: Agent, at: Phase): State
    requires at.Attempting? && at.rest != [] && at.id in s.commits
  {
    match Exec(s.tree, at.rest[0])
    case Ok(next) => Move(s, a, Attempting(at.id, at.rest[1..])).(tree := next)
    case Err(_) => WithOutcome(s, a, at.id, FailedToMaterialize)
  }

  function Taken(s: State, a: Agent, local: Tree, trusted: map<Path, PathRecord>): Snapshot
    requires PhaseOf(s, a).Scanned? && DirtyManifest(PhaseOf(s, a), local, trusted).Some?
  {
    Snapshot(PhaseOf(s, a).base, DirtyManifest(PhaseOf(s, a), local, trusted).value, local, trusted)
  }

  /** The shared files, and the position of the agent that moves. */
  ghost function Share(s: State, step: Step): State
    requires Enabled(s, step)
  {
    match step
    case LockStep(step) => AfterLockStep(s, step)
    case Open(a, base) => Move(s, a, Opened(base, s.head))
    case Check(a) => Move(s, a, AfterCheck(s, PhaseOf(s, a)))
    case ListTree(a) => Move(s, a, AfterList(s, PhaseOf(s, a).base))
    case ReadFile(a, p) => Move(s, a, AfterRead(s, PhaseOf(s, a), p))
    case FinishScan(a) => Move(s, a, Scanned(PhaseOf(s, a).base, PhaseOf(s, a).seen))
    case Stage(a, local, trusted, id) => Move(AddSnapshot(s, id, Taken(s, a, local, trusted), false), a, ReadyToPublish(id))
    case Propose(a, local, trusted, id) => Move(AddSnapshot(s, id, Taken(s, a, local, trusted), true), a, Idle)
    case TakeProposal(a, id) => Move(s, a, ReadyToPublish(id))
    case RereadHead(a) => Move(s, a, Reread(PhaseOf(s, a).id, s.head))
    case Verify(a) => Move(s, a, AfterVerify(s, PhaseOf(s, a)))
    case WriteCommit(a) => Move(AddCommit(s, PhaseOf(s, a).id), a, Recorded(PhaseOf(s, a).id))
    case WriteHead(a) => Move(AddHead(s, PhaseOf(s, a).id), a, Published(PhaseOf(s, a).id))
    case Call(a) => AfterCall(s, a, PhaseOf(s, a))
    case FailAttempt(a, _) => WithOutcome(s, a, PhaseOf(s, a).id, FailedToMaterialize)
    case Complete(a) => WithOutcome(s, a, PhaseOf(s, a).id, Materialized)
    case SetStore(a, _) => Move(s, a, Idle)
    case Repair(a) => Move(s, a, Attempting(s.head.value, Script(s.commits[s.head.value].manifest)))
    case Abandon(a) => Move(s, a, Idle)
  }

  /** The entries an attempt records one by one in its agent's own store, which nobody else reads. */
  function AttemptEntries(s: State, a: Agent): seq<StagedPath>
    requires PhaseOf(s, a).Attempting? && PhaseOf(s, a).id in s.commits
  {
    Ordered(s.commits[PhaseOf(s, a).id].manifest)
  }

  /** A failed attempt has recorded the entries it was done with, a complete one all of them. */
  ghost function StoresAfter(s: State, step: Step): map<Agent, map<Path, PathRecord>>
    requires Enabled(s, step)
  {
    match step
    case SetStore(a, trusted) => s.stores[a := trusted]
    case FailAttempt(a, done) =>
      s.stores[a := TrustAll(AttemptEntries(s, a)[..Min(done, |AttemptEntries(s, a)|)], StoreOf(s, a))]
    case Complete(a) => s.stores[a := TrustAll(AttemptEntries(s, a), StoreOf(s, a))]
    case _ => s.stores
  }

  function AfterAttempt(s: State, a: Agent, id: CommitId, recorded: bool): map<Agent, Work> {
    if a in s.work && s.work[a].id == id then s.work[a := Work(id, recorded)] else s.work - {a}
  }

  ghost function WorkAfter(s: State, step: Step): map<Agent, Work>
    requires Enabled(s, step)
  {
    match step
    case Stage(a, _, _, id) => s.work[a := Work(id, false)]
    case SetStore(a, _) => s.work - {a}
    case FailAttempt(a, _) => AfterAttempt(s, a, PhaseOf(s, a).id, false)
    case Complete(a) => AfterAttempt(s, a, PhaseOf(s, a).id, true)
    case _ => s.work
  }

  ghost function Apply(s: State, step: Step): State
    requires Enabled(s, step)
  {
    Share(s, step).(stores := StoresAfter(s, step), work := WorkAfter(s, step))
  }

  ghost predicate NobodyInFlight(s: State) {
    forall b :: b in s.phases ==> !InFlight(s.phases[b])
  }

  /**
   * What the environment grants.  Always what head-lock exclusion needs; and perhaps that every attempt on the
   * head has ended when the next commit passes its re-check, or that repairs wait for attempts under way.
   */
  datatype Facts = LockOnly | AttemptsEnd | RepairsWait

  ghost predicate Allowed(s: State, step: Step, facts: Facts) {
    && (step.LockStep? ==> HeadLock.WriteOrderAgrees(s.lock, step.step) && HeadLock.WithinTtl(s.lock, step.step))
    && (facts.AttemptsEnd? && step.Verify? && HeadIsMaterialized(s, s.head) ==> NobodyInFlight(s))
    && (facts.RepairsWait? && step.Repair? ==> NobodyInFlight(s))
  }

  ghost predicate Next(s: State, s': State, facts: Facts) {
    exists step :: Enabled(s, step) && Allowed(s, step, facts) && s' == Apply(s, step)
  }

  predicate Init(s: State) {
    && HeadLock.Init(s.lock)
    && s.head == None && s.commits == map[] && s.snapshots == map[] && s.proposals == {}
    && s.tree == map[] && s.phases == map[] && s.history == [] && s.work == map[]
  }

  // ----- Replay -----

  function ApplyManifest(m: seq<StagedPath>, t: Tree): Tree
    decreases |m|
  {
    if m == [] then t
    else ApplyManifest(m[1..], if m[0].op == Delete then t - {m[0].path} else t[m[0].path := m[0].StagedNode()])
  }

  lemma {:induction false} ApplyManifestAt(m: seq<StagedPath>, t: Tree, base: Tree, target: Tree, p: Path)
    requires forall e :: e in m ==> Describes(e, base, target)
    requires Mentions(m, p) || Get(t, p) == Get(target, p)
    ensures Get(ApplyManifest(m, t), p) == Get(target, p)
    decreases |m|
  {
    if m != [] {
      assert m == [m[0]] + m[1..];
      assert m[0] in m && Describes(m[0], base, target);
      var next := if m[0].op == Delete then t - {m[0].path} else t[m[0].path := m[0].StagedNode()];
      if p != m[0].path {
        assert Get(next, p) == Get(t, p);
        if Mentions(m, p) {
          var w :| w in m && w.path == p;
          assert w in m[1..];
        }
      }
      ApplyManifestAt(m[1..], next, base, target, p);
    }
  }

  /** Applying a difference gives the tree it was taken towards. */
  lemma ApplyDiff(m: seq<StagedPath>, base: Tree, target: Tree)
    requires IsDiff(m, base, target)
    ensures ApplyManifest(m, base) == target
  {
    forall p ensures Get(ApplyManifest(m, base), p) == Get(target, p) {
      if Get(base, p) != Get(target, p) {
        assert Mentions(m, p);
      }
      ApplyManifestAt(m, base, base, target, p);
    }
    SameEntriesSameMap(ApplyManifest(m, base), target);
  }

  /** The manifests of the chain replayed in order onto the empty tree. */
  function Replay(commits: map<CommitId, CommitRecord>, chain: seq<CommitId>): Tree
    decreases |chain|
  {
    if chain == [] then map[]
    else
      var last := chain[|chain| - 1];
      var before := Replay(commits, chain[..|chain| - 1]);
      if last in commits then ApplyManifest(commits[last].manifest, before) else before
  }

  lemma {:induction false} ReplaySame(a: map<CommitId, CommitRecord>, b: map<CommitId, CommitRecord>,
      chain: seq<CommitId>)
    requires forall id :: id in chain ==> id in a && id in b && a[id].manifest == b[id].manifest
    ensures Replay(a, chain) == Replay(b, chain)
    decreases |chain|
  {
    if chain != [] {
      ReplaySame(a, b, chain[..|chain| - 1]);
    }
  }

  /** A manifest that is exactly the difference of its working copy from the tree it is published on. */
  ghost predicate SoundOn(snapshot: Snapshot, base: Tree) {
    var target := ApplyManifest(snapshot.manifest, base);
    && IsDiff(snapshot.manifest, base, target) && ParentClosed(target) && SameKinds(base, target)
    && target == snapshot.local && Manifest(snapshot.local, base, snapshot.trusted) == Ok(snapshot.manifest)
  }

  // ----- Invariant -----

  function ParentAt(chain: seq<CommitId>, i: nat): Option<CommitId>
    requires i <= |chain|
  {
    if i == 0 then None else Some(chain[i - 1])
  }

  /** Parent pointers lead from the head back through exactly these commits. */
  ghost predicate IsChain(commits: map<CommitId, CommitRecord>, head: Option<CommitId>, chain: seq<CommitId>) {
    && Distinct(chain)
    && head == ParentAt(chain, |chain|)
    && forall i :: 0 <= i < |chain| ==> chain[i] in commits && commits[chain[i]].parent == ParentAt(chain, i)
  }

  /** The part of the shared state that agents and snapshots rely on. */
  datatype View = View(
    head: Option<CommitId>,
    history: seq<CommitId>,
    settled: bool,
    snapshots: map<CommitId, Snapshot>,
    pending: set<CommitId>,
    tree: Tree,
    before: Tree,
    after: Tree)

  ghost function ViewOf(s: State): View {
    View(
      s.head, s.history, HeadIsMaterialized(s, s.head), s.snapshots,
      (set id | id in s.commits && s.commits[id].state == Pending),
      s.tree,
      if s.history == [] then map[] else Replay(s.commits, s.history[..|s.history| - 1]),
      Replay(s.commits, s.history))
  }

  ghost predicate Known(v: View, base: Option<CommitId>) {
    base.None? || base.value in v.history
  }

  ghost predicate CommitsMatchSnapshots(commits: map<CommitId, CommitRecord>, snapshots: map<CommitId, Snapshot>) {
    forall id :: id in commits ==>
      && id in snapshots
      && commits[id].base == commits[id].parent == snapshots[id].base
      && commits[id].manifest == snapshots[id].manifest
  }

  ghost predicate AncestorsMaterialized(commits: map<CommitId, CommitRecord>, history: seq<CommitId>) {
    forall i :: 0 <= i < |history| - 1 ==> history[i] in commits && commits[history[i]].state == Materialized
  }

  ghost predicate Linked(s: State) {
    && IsChain(s.commits, s.head, s.history)
    && CommitsMatchSnapshots(s.commits, s.snapshots)
    && s.proposals <= s.snapshots.Keys
  }

  ghost predicate ChainInv(s: State) {
    Linked(s) && AncestorsMaterialized(s.commits, s.history)
  }

  /** A snapshot whose base is still the head fits the tree; once the head moves on, it never publishes. */
  ghost predicate SnapshotOk(v: View, snapshot: Snapshot) {
    Known(v, snapshot.base) && (v.head == snapshot.base ==> SoundOn(snapshot, v.after))
  }

  ghost predicate SnapshotsOk(v: View) {
    forall id :: id in v.snapshots ==> SnapshotOk(v, v.snapshots[id])
  }

  /** Settled, the tree is the replay; otherwise it lies between the replays without and with the head. */
  ghost predicate TreeOk(v: View) {
    && (v.head.Some? ==> v.head.value in v.snapshots && SoundOn(v.snapshots[v.head.value], v.before)
                         && v.after == ApplyManifest(v.snapshots[v.head.value].manifest, v.before))
    && (if v.settled then v.tree == v.after else Between(v.tree, v.before, v.after))
  }

  ghost predicate ScanMatches(t: Tree, pending: set<Path>, seen: Tree) {
    && (forall p :: p in t <==> p in pending || p in seen)
    && (forall p :: p in seen ==> p !in pending && Get(t, p) == Some(seen[p]))
  }

  ghost predicate AgentOk(v: View, phase: Phase) {
    match phase
    case Idle => true
    case Opened(_, head) => Known(v, head)
    case Checked(base) => Known(v, base) && (v.head == base ==> v.tree == v.after)
    case Listed(base, pending, seen) =>
      Known(v, base) && (v.head == base ==> v.tree == v.after && ScanMatches(v.tree, pending, seen))
    case Scanned(base, seen) => Known(v, base) && (v.head == base ==> v.tree == v.after && seen == v.tree)
    case ReadyToPublish(id) => id in v.snapshots
    case Reread(id, head) => id in v.snapshots && head == v.head
    case Verified(id) => id in v.snapshots && v.head == v.snapshots[id].base && v.settled
    case Recorded(id) => id in v.snapshots && v.head == v.snapshots[id].base && v.settled && id in v.pending
    case Published(id) => v.head == Some(id)
    case Attempting(id, rest) => v.head == Some(id) && Safely(v.tree, rest, v.before, v.after)
    case Dead => true
  }

  ghost predicate AgentsOk(v: View, phases: map<Agent, Phase>) {
    forall a :: a in phases ==> AgentOk(v, phases[a])
  }

  ghost predicate LockOk(lock: HeadLock.State, phases: map<Agent, Phase>) {
    && HeadLock.Inv(lock)
    && forall a :: a in phases && Critical(phases[a]) ==> HeadLock.PhaseOf(lock, a).Inside?
  }

  predicate Publishing(phase: Phase) {
    phase.Verified? || phase.Recorded?
  }

  /** From its re-check to its head write a commit has no attempt beside it. */
  ghost predicate Apart(phases: map<Agent, Phase>) {
    forall a, b :: a in phases && b in phases && Publishing(phases[a]) ==> !InFlight(phases[b])
  }

  ghost predicate Inv(s: State) {
    && ChainInv(s)
    && SnapshotsOk(ViewOf(s))
    && TreeOk(ViewOf(s))
    && AgentsOk(ViewOf(s), s.phases)
    && LockOk(s.lock, s.phases)
    && Apart(s.phases)
  }

  // ----- Preservation -----

  /** Moving one agent keeps the invariant when its new position is justified. */
  lemma MoveKeepsInv(s: State, a: Agent, phase: Phase)
    requires Inv(s)
    requires AgentOk(ViewOf(s), phase)
    requires Critical(phase) ==> HoldsLock(s, a)
    requires Publishing(phase) ==> NobodyInFlight(s)
    requires InFlight(phase) ==> forall b :: b in s.phases && b != a ==> !Publishing(s.phases[b])
    ensures Inv(Move(s, a, phase))
  {
    hide SnapshotsOk, TreeOk, AgentOk, HeadLock.Inv, IsChain, CommitsMatchSnapshots, AncestorsMaterialized;
    assert ViewOf(Move(s, a, phase)) == ViewOf(s);
  }

  /** The head's own manifest is safe to attempt on whatever tree is there. */
  lemma AttemptCanStart(s: State)
    requires ChainInv(s) && TreeOk(ViewOf(s))
    requires s.head.Some?
    ensures s.head.value in s.commits
    ensures AgentOk(ViewOf(s), Attempting(s.head.value, Script(s.commits[s.head.value].manifest)))
  {
    var v := ViewOf(s);
    var id := s.head.value;
    assert id == s.history[|s.history| - 1];
    AttemptIsSafe(v.tree, s.commits[id].manifest, v.before, v.after);
  }

  lemma LockChangeKeepsInv(s: State, lock: HeadLock.State)
    requires Inv(s)
    requires LockOk(lock, s.phases)
    ensures Inv(s.(lock := lock))
  {
    hide SnapshotsOk, TreeOk, AgentOk, LockOk, Apart, IsChain, CommitsMatchSnapshots, AncestorsMaterialized;
    assert ViewOf(s.(lock := lock)) == ViewOf(s);
  }

  /** The agent's position and its lock phase change together. */
  lemma MoveWithLock(s: State, a: Agent, phase: Phase, lock: HeadLock.State)
    requires Inv(s)
    requires AgentOk(ViewOf(s), phase) && !Critical(phase)
    requires InFlight(phase) ==> forall b :: b in s.phases && b != a ==> !Publishing(s.phases[b])
    requires LockOk(lock, s.phases[a := phase])
    ensures Inv(Move(s.(lock := lock), a, phase))
  {
    hide SnapshotsOk, TreeOk, AgentOk, LockOk, Apart, ChainInv, ViewOf, InFlight;
    MoveKeepsInv(s, a, phase);
    LockChangeKeepsInv(Move(s, a, phase), lock);
    assert Move(s.(lock := lock), a, phase) == Move(s, a, phase).(lock := lock);
  }

  /** Leaving the head lock after publishing starts the attempt. */
  lemma LeaveLockKeepsInv(s: State, a: Agent, lock: HeadLock.State)
    requires Inv(s) && PhaseOf(s, a).Published?
    requires s.head == Some(PhaseOf(s, a).id)
    requires LockOk(lock, s.phases[a := Idle])
    ensures PhaseOf(s, a).id in s.commits
    ensures Inv(Move(s.(lock := lock), a, Attempting(PhaseOf(s, a).id, Script(s.commits[PhaseOf(s, a).id].manifest))))
  {
    hide SnapshotsOk, AgentOk, HeadLock.Inv, IsChain, CommitsMatchSnapshots, AncestorsMaterialized, ViewOf, Safely, TreeOk;
    AttemptCanStart(s);
    var phase := Attempting(s.phases[a].id, Script(s.commits[s.phases[a].id].manifest));
    assert LockOk(lock, s.phases[a := phase]) by {
      forall b | b in s.phases[a := phase] && Critical(s.phases[a := phase][b]) ensures HeadLock.PhaseOf(lock, b).Inside? {
        assert s.phases[a := Idle][b] == s.phases[a := phase][b];
      }
    }
    MoveWithLock(s, a, phase, lock);
  }

  lemma PublishedMeans(v: View, id: CommitId)
    requires AgentOk(v, Published(id))
    ensures v.head == Some(id)
  {
  }

  /** Lock steps: a death frees nobody, and every other agent keeps its place. */
  lemma LockStepKeepsInv(s: State, step: HeadLock.Step)
    requires Inv(s)
    requires HeadLock.Enabled(s.lock, step) && HeadLock.WriteOrderAgrees(s.lock, step) && HeadLock.WithinTtl(s.lock, step)
    requires step.Release? || step.GiveUp? ==> !Critical(PhaseOf(s, step.agent)) || PhaseOf(s, step.agent).Published?
    ensures Inv(AfterLockStep(s, step))
  {
    hide SnapshotsOk, TreeOk, AgentOk, HeadLock.Inv, HeadLock.Apply, HeadLock.WriteOrderAgrees, HeadLock.WithinTtl, ViewOf, ChainInv, Script;
    var lock := HeadLock.Apply(s.lock, step);
    if step.Crash? {
      LockStepKeepsLockOk(s.lock, step, s.phases[step.agent := Dead]);
      IdleIsOk(ViewOf(s));
      MoveWithLock(s, step.agent, Dead, lock);
    } else if (step.Release? || step.GiveUp?) && PhaseOf(s, step.agent).Published? {
      assert AgentOk(ViewOf(s), Published(s.phases[step.agent].id));
      PublishedMeans(ViewOf(s), s.phases[step.agent].id);
      ViewHead(s);
      LockStepKeepsLockOk(s.lock, step, s.phases[step.agent := Idle]);
      LeaveLockKeepsInv(s, step.agent, lock);
    } else {
      LockStepKeepsLockOk(s.lock, step, s.phases);
      LockChangeKeepsInv(s, lock);
    }
  }

  lemma IdleIsOk(v: View)
    ensures AgentOk(v, Idle) && AgentOk(v, Dead)
  {
  }

  lemma ViewHead(s: State)
    ensures ViewOf(s).head == s.head
  {
  }

  lemma LockStepKeepsLockOk(lock: HeadLock.State, step: HeadLock.Step, phases: map<Agent, Phase>)
    requires LockOk(lock, phases)
    requires HeadLock.Enabled(lock, step) && HeadLock.WriteOrderAgrees(lock, step) && HeadLock.WithinTtl(lock, step)
    requires step.Release? || step.GiveUp? || step.Crash? ==> step.agent !in phases || !Critical(phases[step.agent])
    ensures LockOk(HeadLock.Apply(lock, step), phases)
  {
    HeadLock.StepKeepsInv(lock, step);
    forall b | b in phases && Critical(phases[b]) ensures HeadLock.PhaseOf(HeadLock.Apply(lock, step), b).Inside? {
      assert HeadLock.PhaseOf(lock, b).Inside?;
      HeadLock.OthersStay(lock, step, b);
    }
  }

  /** Only one agent is in its critical section. */
  lemma CriticalIsAlone(s: State, a: Agent, b: Agent)
    requires LockOk(s.lock, s.phases)
    requires a in s.phases && b in s.phases && Critical(s.phases[a]) && Critical(s.phases[b])
    ensures a == b
  {
    hide HeadLock.Inv;
    HeadLock.InvMeansExclusion(s.lock, a, b);
  }

  /** A commit whose base is still the head has not been published: the chain left that base behind. */
  lemma NotYetPublished(s: State, id: CommitId)
    requires Linked(s)
    requires id in s.snapshots && s.head == s.snapshots[id].base
    ensures id !in s.history
  {
    forall i | 0 <= i < |s.history| ensures s.history[i] != id {
      assert s.commits[s.history[i]].parent == ParentAt(s.history, i);
      assert i > 0 ==> s.history[i - 1] != s.history[|s.history| - 1];
    }
  }

  /** What an agent saw is the tree the head stands for, so its manifest is a sound difference. */
  lemma ManifestIsSound(base: Option<CommitId>, local: Tree, seen: Tree, trusted: map<Path, PathRecord>, m: seq<StagedPath>)
    requires ParentClosed(local)
    requires Manifest(local, seen, trusted) == Ok(m)
    ensures SoundOn(Snapshot(base, m, local, trusted), seen)
  {
    ManifestIsTheDiff(local, seen, trusted);
    CollectableMeaning(local, seen, trusted);
    ApplyDiff(m, seen, local);
  }

  lemma SnapshotKeepsInv(s: State, id: CommitId, snapshot: Snapshot, proposal: bool)
    requires Inv(s) && FreshId(s, id) && SnapshotOk(ViewOf(s), snapshot)
    ensures Inv(AddSnapshot(s, id, snapshot, proposal))
  {
    hide SnapshotOk, TreeOk, AgentOk, HeadLock.Inv, SoundOn, Between, IsChain, AncestorsMaterialized;
    var s' := AddSnapshot(s, id, snapshot, proposal);
    var v, v' := ViewOf(s), ViewOf(s');
    assert v' == v.(snapshots := v.snapshots[id := snapshot]);
    forall other | other in v'.snapshots ensures SnapshotOk(v', v'.snapshots[other]) {
      SnapshotOkFrame(v, v', v'.snapshots[other]);
    }
    forall b | b in s'.phases ensures AgentOk(v', s'.phases[b]) {
      SnapshotFrame(v, id, snapshot, s.phases[b]);
    }
    SnapshotTreeFrame(v, id, snapshot);
  }

  lemma SnapshotOkFrame(v: View, v': View, snapshot: Snapshot)
    requires SnapshotOk(v, snapshot)
    requires v'.head == v.head && v'.history == v.history && v'.after == v.after
    ensures SnapshotOk(v', snapshot)
  {
  }

  lemma SnapshotTreeFrame(v: View, id: CommitId, snapshot: Snapshot)
    requires TreeOk(v) && id !in v.snapshots
    ensures TreeOk(v.(snapshots := v.snapshots[id := snapshot]))
  {
    hide SoundOn, Between;
  }

  lemma SnapshotFrame(v: View, id: CommitId, snapshot: Snapshot, phase: Phase)
    requires AgentOk(v, phase) && id !in v.snapshots
    ensures AgentOk(v.(snapshots := v.snapshots[id := snapshot]), phase)
  {
    hide Safely;
  }

  lemma StageKeepsInv(s: State, a: Agent, local: Tree, trusted: map<Path, PathRecord>, id: CommitId, proposal: bool)
    requires Inv(s) && PhaseOf(s, a).Scanned? && FreshId(s, id) && ParentClosed(local)
    requires DirtyManifest(PhaseOf(s, a), local, trusted).Some?
    ensures var snapshot := Taken(s, a, local, trusted);
            Inv(Move(AddSnapshot(s, id, snapshot, proposal), a, if proposal then Idle else ReadyToPublish(id)))
  {
    hide SnapshotsOk, SoundOn, Manifest, HeadLock.Inv, Between, IsChain, CommitsMatchSnapshots, AncestorsMaterialized;
    var at := s.phases[a];
    var snapshot := Taken(s, a, local, trusted);
    assert AgentOk(ViewOf(s), at);
    ManifestIsSound(at.base, local, at.seen, trusted, snapshot.manifest);
    SnapshotKeepsInv(s, id, snapshot, proposal);
    MoveKeepsInv(AddSnapshot(s, id, snapshot, proposal), a, if proposal then Idle else ReadyToPublish(id));
  }

  /** Changing commit records off the chain changes no replay. */
  lemma ReplaysFrame(s: State, commits: map<CommitId, CommitRecord>)
    requires forall id :: id in s.history ==> id in s.commits && id in commits && commits[id].manifest == s.commits[id].manifest
    ensures ViewOf(s.(commits := commits)).after == ViewOf(s).after
    ensures ViewOf(s.(commits := commits)).before == ViewOf(s).before
  {
    ReplaySame(s.commits, commits, s.history);
    if s.history != [] {
      ReplaySame(s.commits, commits, s.history[..|s.history| - 1]);
    }
  }

  lemma VerifiedMeans(v: View, id: CommitId)
    requires AgentOk(v, Verified(id))
    ensures id in v.snapshots && v.head == v.snapshots[id].base && v.settled
    ensures AgentOk(v.(pending := v.pending + {id}), Recorded(id))
  {
  }

  lemma PendingFrame(v: View, id: CommitId, phases: map<Agent, Phase>)
    requires AgentsOk(v, phases) && SnapshotsOk(v) && TreeOk(v)
    ensures var v' := v.(pending := v.pending + {id}); AgentsOk(v', phases) && SnapshotsOk(v') && TreeOk(v')
  {
    hide SoundOn, Safely, Between;
    var v' := v.(pending := v.pending + {id});
    forall b | b in phases ensures AgentOk(v', phases[b]) {
      assert AgentOk(v, phases[b]);
    }
    forall other | other in v'.snapshots ensures SnapshotOk(v', v'.snapshots[other]) {
      assert SnapshotOk(v, v.snapshots[other]);
    }
  }

  lemma AddCommitKeepsChain(s: State, id: CommitId)
    requires ChainInv(s) && id in s.snapshots && id !in s.history
    ensures ChainInv(AddCommit(s, id))
  {
  }

  lemma AddCommitView(s: State, id: CommitId)
    requires ChainInv(s) && id in s.snapshots && id !in s.history
    ensures ViewOf(AddCommit(s, id)) == ViewOf(s).(pending := ViewOf(s).pending + {id})
  {
    var s' := AddCommit(s, id);
    ReplaysFrame(s, s'.commits);
    assert s.head.Some? ==> s.head.value == s.history[|s.history| - 1];
    assert ViewOf(s').pending == ViewOf(s).pending + {id};
  }

  /** Writing the commit record touches nothing on the chain. */
  lemma WriteCommitKeepsInv(s: State, a: Agent, id: CommitId)
    requires Inv(s) && PhaseOf(s, a) == Verified(id)
    ensures id in s.snapshots && Inv(Move(AddCommit(s, id), a, Recorded(id)))
  {
    hide SnapshotsOk, TreeOk, AgentOk, HeadLock.Inv, ViewOf, Linked, AncestorsMaterialized;
    var v := ViewOf(s);
    assert AgentOk(v, Verified(id));
    VerifiedInState(s, id);
    NotYetPublished(s, id);
    AddCommitView(s, id);
    AddCommitKeepsChain(s, id);
    PendingFrame(v, id, s.phases);
    assert Inv(AddCommit(s, id));
    MoveKeepsInv(AddCommit(s, id), a, Recorded(id));
  }

  lemma VerifiedInState(s: State, id: CommitId)
    requires AgentOk(ViewOf(s), Verified(id))
    ensures id in s.snapshots && s.head == s.snapshots[id].base
    ensures AgentOk(ViewOf(s).(pending := ViewOf(s).pending + {id}), Recorded(id))
  {
    VerifiedMeans(ViewOf(s), id);
  }

  lemma ChainExtends(commits: map<CommitId, CommitRecord>, head: Option<CommitId>, chain: seq<CommitId>, id: CommitId)
    requires IsChain(commits, head, chain)
    requires id in commits && id !in chain && commits[id].parent == head
    ensures IsChain(commits, Some(id), chain + [id])
  {
    var longer := chain + [id];
    forall i | 0 <= i < |longer| ensures longer[i] in commits && commits[longer[i]].parent == ParentAt(longer, i) {
      if i < |chain| {
        assert ParentAt(longer, i) == ParentAt(chain, i);
      }
    }
  }

  lemma PublishedChain(s: State, id: CommitId)
    requires ChainInv(s) && HeadIsMaterialized(s, s.head)
    requires id in s.snapshots && s.head == s.snapshots[id].base && id in s.commits
    ensures ChainInv(AddHead(s, id))
  {
    NotYetPublished(s, id);
    assert s.commits[id].parent == s.head;
    ChainExtends(s.commits, s.head, s.history, id);
    hide CommitsMatchSnapshots, IsChain;
    var longer := s.history + [id];
    forall i | 0 <= i < |longer| - 1 ensures longer[i] in s.commits && s.commits[longer[i]].state == Materialized {
      assert longer[i] == s.history[i];
      assert i == |s.history| - 1 ==> s.head == Some(s.history[i]);
    }
  }

  lemma PublishedView(s: State, id: CommitId)
    requires CommitsMatchSnapshots(s.commits, s.snapshots)
    requires id in s.commits && s.commits[id].state == Pending
    ensures id in s.snapshots
    ensures var v := ViewOf(s);
            ViewOf(AddHead(s, id)) == v.(head := Some(id), history := s.history + [id], settled := false,
              before := v.after, after := ApplyManifest(s.snapshots[id].manifest, v.after))
  {
    assert (s.history + [id])[..|s.history + [id]| - 1] == s.history;
  }

  /** Once the head has moved to a new commit, whatever relied on the old head being current says nothing. */
  lemma HeadFrame(v: View, v': View, phase: Phase)
    requires AgentOk(v, phase) && !Critical(phase) && !InFlight(phase)
    requires v'.snapshots == v.snapshots && v'.head.Some? && v'.head.value !in v.history
    requires v'.history == v.history + [v'.head.value]
    ensures AgentOk(v', phase)
  {
    hide Safely;
  }

  lemma HeadSnapshotFrame(v: View, v': View, snapshot: Snapshot)
    requires SnapshotOk(v, snapshot)
    requires v'.head.Some? && v'.head.value !in v.history
    requires v'.history == v.history + [v'.head.value]
    ensures SnapshotOk(v', snapshot)
  {
    hide SoundOn;
  }

  /** Publishing extends the chain by one and leaves every other agent's knowledge true. */
  lemma WriteHeadKeepsInv(s: State, a: Agent, id: CommitId)
    requires Inv(s) && PhaseOf(s, a) == Recorded(id)
    ensures Inv(Move(AddHead(s, id), a, Published(id)))
  {
    hide SoundOn, Safely, HeadLock.Inv, IsChain, CommitsMatchSnapshots, AncestorsMaterialized;
    var s1 := AddHead(s, id);
    var s' := Move(s1, a, Published(id));
    var v := ViewOf(s);
    assert AgentOk(v, s.phases[a]);
    assert SnapshotOk(v, s.snapshots[id]);
    PublishedChain(s, id);
    PublishedView(s, id);
    NotYetPublished(s, id);
    var v' := ViewOf(s1);
    assert ViewOf(s') == v';
    forall b | b in s.phases && b != a ensures !InFlight(s.phases[b]) && AgentOk(v', s.phases[b]) {
      assert AgentOk(v, s.phases[b]);
      if Critical(s.phases[b]) {
        CriticalIsAlone(s, a, b);
      }
      HeadFrame(v, v', s.phases[b]);
    }
    forall other | other in v'.snapshots ensures SnapshotOk(v', v'.snapshots[other]) {
      HeadSnapshotFrame(v, v', v.snapshots[other]);
    }
    assert TreeOk(v');
    assert ChainInv(s');
  }

  /** Who has seen the head's tree complete still sees it so, and other attempts stay safe. */
  lemma CallFrame(v: View, v': View, phase: Phase)
    requires AgentOk(v, phase) && ParentClosed(v.after)
    requires v' == v.(tree := v'.tree) && Further(v.tree, v'.tree, v.after)
    ensures AgentOk(v', phase)
  {
    hide Safely, ScanMatches, Further, ParentClosed;
    if v.tree == v.after {
      FurtherThanAll(v.after, v'.tree);
    }
    if phase.Attempting? {
      FurtherStaysSafe(v.tree, v'.tree, phase.rest, v.before, v.after);
    }
  }

  lemma FurtherThanAll(target: Tree, later: Tree)
    requires Further(target, later, target)
    ensures later == target
  {
    SameEntriesSameMap(later, target);
  }

  /** Nobody but a commit being published relies on the outcome that is recorded. */
  lemma OutcomeFrame(v: View, v': View, phase: Phase)
    requires AgentOk(v, phase) && !Publishing(phase)
    requires v' == v.(settled := v'.settled, pending := v'.pending)
    ensures AgentOk(v', phase)
  {
    hide Safely;
  }

  lemma TargetIsClosed(v: View)
    requires TreeOk(v) && v.head.Some?
    ensures ParentClosed(v.after)
  {
  }

  /** The next call of an attempt succeeds and leaves every attempt under way safe. */
  lemma CallKeepsInv(s: State, a: Agent, at: Phase)
    requires Inv(s) && PhaseOf(s, a) == at && at.Attempting? && at.rest != [] && at.id in s.commits
    ensures Inv(AfterCall(s, a, at))
  {
    hide SoundOn, HeadLock.Inv, Known, SnapshotOk, IsChain, CommitsMatchSnapshots, AncestorsMaterialized, CleanCall, Exec, Replay, ParentClosed, Further;
    var v := ViewOf(s);
    assert AgentOk(v, at);
    assert CleanCall(s.tree, at.rest[0], v.after);
    CleanCallRuns(s.tree, at.rest[0], v.after);
    CallIsFurther(s.tree, at.rest[0], v.after);
    TargetIsClosed(v);
    var next := Exec(s.tree, at.rest[0]).value;
    var s' := AfterCall(s, a, at);
    var v' := v.(tree := next);
    assert ViewOf(s') == v';
    hide Safely, ViewOf;
    forall b | b in s'.phases ensures AgentOk(v', s'.phases[b]) {
      if b != a {
        assert AgentOk(v, s.phases[b]);
        CallFrame(v, v', s.phases[b]);
      }
    }
    forall id | id in v'.snapshots ensures SnapshotOk(v', v'.snapshots[id]) {
      assert SnapshotOk(v, v.snapshots[id]);
      SnapshotOkFrame(v, v', v.snapshots[id]);
    }
    CallKeepsTree(v, v', at);
    assert ChainInv(s');
  }

  lemma CleanCallRuns(t: Tree, op: Op, target: Tree)
    requires CleanCall(t, op, target)
    ensures Exec(t, op).Ok?
  {
  }

  lemma CallKeepsTree(v: View, v': View, at: Phase)
    requires TreeOk(v) && AgentOk(v, at) && at.Attempting? && at.rest != []
    requires v' == v.(tree := v'.tree) && Further(v.tree, v'.tree, v.after)
    ensures TreeOk(v')
  {
    hide SoundOn, Safely;
    if v.settled {
      FurtherThanAll(v.after, v'.tree);
    }
    forall p ensures Get(v'.tree, p) == Get(v.before, p) || Get(v'.tree, p) == Get(v.after, p) {
      assert Get(v'.tree, p) == Get(v.tree, p) || Get(v'.tree, p) == Get(v.after, p);
      assert v.settled || Get(v.tree, p) == Get(v.before, p) || Get(v.tree, p) == Get(v.after, p);
    }
  }

  lemma OutcomeKeepsChain(s: State, a: Agent, id: CommitId, state: MaterializationState)
    requires ChainInv(s) && id in s.commits && s.head == Some(id)
    ensures ChainInv(WithOutcome(s, a, id, state))
  {
    assert id == s.history[|s.history| - 1];
  }

  lemma OutcomeView(s: State, a: Agent, id: CommitId, state: MaterializationState)
    requires ChainInv(s) && id in s.commits && s.head == Some(id)
    ensures var v, v' := ViewOf(s), ViewOf(WithOutcome(s, a, id, state));
            v' == v.(settled := state == Materialized, pending := v'.pending)
  {
    hide Replay;
    var s' := WithOutcome(s, a, id, state);
    ReplaysFrame(s, s'.commits);
    assert s'.history == s.history && s'.head == s.head;
    assert ViewOf(s').after == ViewOf(s.(commits := s'.commits)).after;
    assert ViewOf(s').before == ViewOf(s.(commits := s'.commits)).before;
  }

  lemma FinishedTree(v: View, v': View, at: Phase)
    requires AgentOk(v, at) && at.Attempting? && TreeOk(v)
    requires v' == v.(settled := v'.settled, pending := v'.pending)
    requires v'.settled ==> at.rest == []
    ensures TreeOk(v')
  {
    hide SoundOn, Between;
  }

  /** Recording the outcome of an attempt on the head. */
  lemma OutcomeKeepsInv(s: State, a: Agent, at: Phase, state: MaterializationState)
    requires Inv(s) && PhaseOf(s, a) == at && at.Attempting? && at.id in s.commits
    requires state == Materialized ==> at.rest == []
    ensures Inv(WithOutcome(s, a, at.id, state))
  {
    hide TreeOk, HeadLock.Inv, SnapshotOk, ChainInv, Safely, Replay;
    var s', v := WithOutcome(s, a, at.id, state), ViewOf(s);
    assert AgentOk(v, at);
    OutcomeView(s, a, at.id, state);
    OutcomeKeepsChain(s, a, at.id, state);
    var v' := ViewOf(s');
    FinishedTree(v, v', at);
    hide ViewOf;
    forall b | b in s'.phases ensures AgentOk(v', s'.phases[b]) {
      if b != a {
        assert AgentOk(v, s.phases[b]);
        OutcomeFrame(v, v', s.phases[b]);
      }
    }
    forall id | id in v'.snapshots ensures SnapshotOk(v', v'.snapshots[id]) {
      assert SnapshotOk(v, v.snapshots[id]);
      SnapshotOkFrame(v, v', v.snapshots[id]);
    }
  }

  lemma ListKeepsInv(s: State, a: Agent)
    requires Inv(s) && PhaseOf(s, a).Checked?
    ensures Inv(Move(s, a, AfterList(s, PhaseOf(s, a).base)))
  {
    hide SnapshotsOk, TreeOk, Safely, HeadLock.Inv, IsChain, CommitsMatchSnapshots, AncestorsMaterialized;
    assert AgentOk(ViewOf(s), s.phases[a]);
    MoveKeepsInv(s, a, AfterList(s, s.phases[a].base));
  }

  lemma ReadKeepsInv(s: State, a: Agent, p: Path)
    requires Inv(s) && PhaseOf(s, a).Listed? && p in PhaseOf(s, a).pending
    ensures Inv(Move(s, a, AfterRead(s, PhaseOf(s, a), p)))
  {
    hide SnapshotsOk, TreeOk, Safely, HeadLock.Inv, IsChain, CommitsMatchSnapshots, AncestorsMaterialized;
    assert AgentOk(ViewOf(s), s.phases[a]);
    MoveKeepsInv(s, a, AfterRead(s, s.phases[a], p));
  }

  lemma FinishScanKeepsInv(s: State, a: Agent)
    requires Inv(s) && PhaseOf(s, a).Listed? && PhaseOf(s, a).pending == {}
    ensures Inv(Move(s, a, Scanned(PhaseOf(s, a).base, PhaseOf(s, a).seen)))
  {
    hide SnapshotsOk, TreeOk, Safely, HeadLock.Inv, IsChain, CommitsMatchSnapshots, AncestorsMaterialized;
    var at := s.phases[a];
    assert AgentOk(ViewOf(s), at);
    if s.head == at.base {
      SeenIsTree(s.tree, at.seen);
    }
    MoveKeepsInv(s, a, Scanned(at.base, at.seen));
  }

  lemma SeenIsTree(t: Tree, seen: Tree)
    requires ScanMatches(t, {}, seen)
    ensures seen == t
  {
    forall p ensures Get(seen, p) == Get(t, p) {
      assert p in seen ==> Get(t, p) == Some(seen[p]);
    }
    SameEntriesSameMap(seen, t);
  }

  lemma OpenKeepsInv(s: State, a: Agent, base: Option<CommitId>)
    requires Inv(s)
    ensures Inv(Move(s, a, Opened(base, s.head)))
  {
    hide SnapshotsOk, TreeOk, Safely, HeadLock.Inv, CommitsMatchSnapshots, AncestorsMaterialized;
    assert s.head.Some? ==> s.head.value == s.history[|s.history| - 1];
    MoveKeepsInv(s, a, Opened(base, s.head));
  }

  lemma SettledMeansComplete(s: State)
    requires TreeOk(ViewOf(s)) && HeadIsMaterialized(s, s.head)
    ensures ViewOf(s).tree == ViewOf(s).after && ViewOf(s).settled
  {
  }

  /** Both re-checks: what was read earlier still says something only while the head has not moved. */
  lemma CheckKeepsInv(s: State, a: Agent)
    requires Inv(s) && (PhaseOf(s, a).Opened? || PhaseOf(s, a).Reread?)
    requires PhaseOf(s, a).Reread? && HeadIsMaterialized(s, s.head) ==> NobodyInFlight(s)
    ensures PhaseOf(s, a).Opened? ==> Inv(Move(s, a, AfterCheck(s, PhaseOf(s, a))))
    ensures PhaseOf(s, a).Reread? ==> PhaseOf(s, a).id in s.snapshots && Inv(Move(s, a, AfterVerify(s, PhaseOf(s, a))))
  {
    hide SnapshotsOk, TreeOk, Safely, HeadLock.Inv, IsChain, CommitsMatchSnapshots, AncestorsMaterialized;
    var at := PhaseOf(s, a);
    assert AgentOk(ViewOf(s), at);
    if HeadIsMaterialized(s, s.head) {
      SettledMeansComplete(s);
    }
    MoveKeepsInv(s, a, if at.Opened? then AfterCheck(s, at) else AfterVerify(s, at));
  }

  lemma PlainStepKeepsInv(s: State, step: Step)
    requires Inv(s) && Enabled(s, step)
    requires step.TakeProposal? || step.RereadHead? || step.Abandon? || step.SetStore?
    ensures Inv(Share(s, step))
  {
    hide SnapshotsOk, TreeOk, Safely, HeadLock.Inv, IsChain, CommitsMatchSnapshots, AncestorsMaterialized;
    var a := step.agent;
    assert AgentOk(ViewOf(s), PhaseOf(s, a));
    match step
    case TakeProposal(_, id) => MoveKeepsInv(s, a, ReadyToPublish(id));
    case RereadHead(_) => MoveKeepsInv(s, a, Reread(PhaseOf(s, a).id, s.head));
    case _ => MoveKeepsInv(s, a, Idle);
  }

  lemma RepairKeepsInv(s: State, a: Agent)
    requires Inv(s) && Enabled(s, Repair(a))
    ensures Inv(Share(s, Repair(a)))
  {
    hide SnapshotsOk, AgentOk, HeadLock.Inv, IsChain, CommitsMatchSnapshots, AncestorsMaterialized;
    AttemptCanStart(s);
    NobodyPublishesOn(s);
    MoveKeepsInv(s, a, Attempting(s.head.value, Script(s.commits[s.head.value].manifest)));
  }

  lemma NobodyPublishesOn(s: State)
    requires AgentsOk(ViewOf(s), s.phases) && !HeadIsMaterialized(s, s.head)
    ensures forall b :: b in s.phases ==> !Publishing(s.phases[b])
  {
    forall b | b in s.phases ensures !Publishing(s.phases[b]) {
      assert AgentOk(ViewOf(s), s.phases[b]);
    }
  }

  lemma ShareKeepsInv(s: State, step: Step)
    requires Inv(s) && Enabled(s, step) && Allowed(s, step, AttemptsEnd)
    ensures Inv(Share(s, step))
  {
    hide Inv;
    match step
    case LockStep(step) => LockStepKeepsInv(s, step);
    case Open(a, base) => OpenKeepsInv(s, a, base);
    case Check(a) => CheckKeepsInv(s, a);
    case Verify(a) => CheckKeepsInv(s, a);
    case ListTree(a) => ListKeepsInv(s, a);
    case ReadFile(a, p) => ReadKeepsInv(s, a, p);
    case FinishScan(a) => FinishScanKeepsInv(s, a);
    case Stage(a, local, trusted, id) => StageKeepsInv(s, a, local, trusted, id, false);
    case Propose(a, local, trusted, id) => StageKeepsInv(s, a, local, trusted, id, true);
    case WriteCommit(a) => WriteCommitKeepsInv(s, a, PhaseOf(s, a).id);
    case WriteHead(a) => WriteHeadKeepsInv(s, a, PhaseOf(s, a).id);
    case Call(a) => CallKeepsInv(s, a, PhaseOf(s, a));
    case FailAttempt(a, _) => OutcomeKeepsInv(s, a, PhaseOf(s, a), FailedToMaterialize);
    case Complete(a) => OutcomeKeepsInv(s, a, PhaseOf(s, a), Materialized);
    case Repair(a) => RepairKeepsInv(s, a);
    case _ => PlainStepKeepsInv(s, step);
  }

  /** Nothing that is shared depends on the agents' own stores. */
  lemma StoresAside(s: State, stores: map<Agent, map<Path, PathRecord>>, work: map<Agent, Work>)
    requires Inv(s)
    ensures Inv(s.(stores := stores, work := work))
  {
    hide SnapshotsOk, TreeOk, AgentsOk, LockOk, Apart, IsChain, CommitsMatchSnapshots, AncestorsMaterialized;
    assert ViewOf(s.(stores := stores, work := work)) == ViewOf(s);
  }

  lemma StepKeepsInv(s: State, step: Step)
    requires Inv(s) && Enabled(s, step) && Allowed(s, step, AttemptsEnd)
    ensures Inv(Apply(s, step))
  {
    ShareKeepsInv(s, step);
    hide Inv, Share, Enabled, Allowed, StoresAfter, WorkAfter;
    StoresAside(Share(s, step), StoresAfter(s, step), WorkAfter(s, step));
  }

  // ----- Whole runs -----

  ghost predicate IsRun(run: seq<State>, facts: Facts) {
    run != [] && Init(run[0]) && forall i :: 0 <= i < |run| - 1 ==> Next(run[i], run[i + 1], facts)
  }

  lemma {:induction false} RunKeepsInv(run: seq<State>, i: nat)
    requires IsRun(run, AttemptsEnd) && i < |run|
    ensures Inv(run[i])
  {
    hide Inv, Enabled, Allowed, Apply;
    if i > 0 {
      RunKeepsInv(run, i - 1);
      assert Next(run[i - 1], run[i - 1 + 1], AttemptsEnd);
      var step :| Enabled(run[i - 1], step) && Allowed(run[i - 1], step, AttemptsEnd) && run[i] == Apply(run[i - 1], step);
      StepKeepsInv(run[i - 1], step);
    } else {
      InitKeepsInv(run[0]);
    }
  }

  lemma InitKeepsInv(s: State)
    requires Init(s)
    ensures Inv(s)
  {
  }

  // ----- Head history, whatever repairs do -----

  /** What a position under the head lock knows of the head. */
  ghost predicate KnowsHead(s: State, phase: Phase) {
    match phase
    case Reread(_, head) => head == s.head
    case Verified(id) => id in s.snapshots && s.head == s.snapshots[id].base
    case Recorded(id) => id in s.snapshots && s.head == s.snapshots[id].base && id in s.commits
    case _ => true
  }

  ghost predicate HistoryInv(s: State) {
    Linked(s) && LockOk(s.lock, s.phases) && forall a :: a in s.phases ==> KnowsHead(s, s.phases[a])
  }

  /** Nothing but the head and the history links the commits. */
  ghost predicate SameLinks(s: State, next: State) {
    && next.head == s.head && next.history == s.history
    && s.commits.Keys <= next.commits.Keys && CommitsMatchSnapshots(next.commits, next.snapshots)
    && (forall id :: id in s.snapshots ==> id in next.snapshots && next.snapshots[id] == s.snapshots[id])
    && next.proposals <= next.snapshots.Keys
  }

  lemma LinksStay(s: State, next: State)
    requires Linked(s) && SameLinks(s, next)
    ensures Linked(next)
    ensures forall phase :: KnowsHead(s, phase) ==> KnowsHead(next, phase)
  {
  }

  /** A step of one agent that publishes nothing. */
  lemma PlainStepKeepsHistory(s: State, next: State, a: Agent, phase: Phase)
    requires HistoryInv(s) && SameLinks(s, next)
    requires next.phases == s.phases[a := phase] && next.lock == s.lock
    requires KnowsHead(next, phase) && (Critical(phase) ==> HoldsLock(s, a))
    ensures HistoryInv(next)
  {
    hide Linked, SameLinks, KnowsHead, HeadLock.Inv;
    LinksStay(s, next);
  }

  lemma LockStepKeepsHistory(s: State, step: HeadLock.Step)
    requires HistoryInv(s) && Enabled(s, LockStep(step)) && Allowed(s, LockStep(step), LockOnly)
    ensures HistoryInv(AfterLockStep(s, step))
  {
    var next := AfterLockStep(s, step);
    LockStepLinks(s, step);
    LinksStay(s, next);
    hide AfterLockStep, Linked, SameLinks, KnowsHead, HeadLock.Inv, HeadLock.Apply, HeadLock.Enabled, HeadLock.WriteOrderAgrees,
         HeadLock.WithinTtl;
    LockStepKeepsLockOk(s.lock, step, next.phases);
  }

  /** A lock step moves nobody but its own agent, and that one out of the critical section. */
  lemma LockStepLinks(s: State, step: HeadLock.Step)
    requires Linked(s) && HeadLock.Enabled(s.lock, step)
    requires step.Release? || step.GiveUp? ==> !Critical(PhaseOf(s, step.agent)) || PhaseOf(s, step.agent).Published?
    ensures var next := AfterLockStep(s, step);
            && SameLinks(s, next) && next.lock == HeadLock.Apply(s.lock, step)
            && (forall a :: a in next.phases ==>
                  (a in s.phases && next.phases[a] == s.phases[a])
                  || (!step.Tick? && a == step.agent && !Critical(next.phases[a]) && KnowsHead(s, next.phases[a])))
            && (step.Release? || step.GiveUp? || step.Crash? ==> step.agent !in next.phases || !Critical(next.phases[step.agent]))
  {
    hide HeadLock.Apply, HeadLock.Enabled, Script, IsChain;
  }

  /** Publishing puts one commit on top of the chain; nobody else is in a position that knows the head. */
  lemma WriteHeadKeepsHistory(s: State, a: Agent, id: CommitId)
    requires HistoryInv(s) && PhaseOf(s, a) == Recorded(id)
    ensures HistoryInv(Move(AddHead(s, id), a, Published(id)))
  {
    hide HeadLock.Inv, IsChain;
    var next := Move(AddHead(s, id), a, Published(id));
    assert KnowsHead(s, s.phases[a]);
    NotYetPublished(s, id);
    ChainExtends(s.commits, s.head, s.history, id);
    forall b | b in next.phases ensures KnowsHead(next, next.phases[b]) {
      if b != a && Critical(s.phases[b]) {
        CriticalIsAlone(s, a, b);
      }
    }
  }

  lemma ShareKeepsHistory(s: State, step: Step)
    requires HistoryInv(s) && Enabled(s, step) && Allowed(s, step, LockOnly)
    ensures HistoryInv(Share(s, step))
  {
    if step.LockStep? {
      LockStepKeepsHistory(s, step.step);
    } else if step.WriteHead? {
      WriteHeadKeepsHistory(s, step.agent, PhaseOf(s, step.agent).id);
    } else {
      AgentStepLinks(s, step);
      hide Share, Linked, LockOk, SameLinks, KnowsHead;
      PlainStepKeepsHistory(s, Share(s, step), step.agent, Share(s, step).phases[step.agent]);
    }
  }

  ghost predicate StaysLinked(s: State, next: State, a: Agent) {
    && SameLinks(s, next) && next.lock == s.lock
    && a in next.phases && next.phases == s.phases[a := next.phases[a]]
    && KnowsHead(next, next.phases[a])
    && (Critical(next.phases[a]) ==> HoldsLock(s, a))
  }

  lemma MoveStaysLinked(s: State, a: Agent, phase: Phase)
    requires Linked(s) && KnowsHead(s, phase) && (Critical(phase) ==> HoldsLock(s, a))
    ensures StaysLinked(s, Move(s, a, phase), a)
  {
    hide IsChain;
  }

  lemma SnapshotStaysLinked(s: State, a: Agent, id: CommitId, snapshot: Snapshot, proposal: bool, phase: Phase)
    requires Linked(s) && FreshId(s, id) && !Critical(phase)
    ensures StaysLinked(s, Move(AddSnapshot(s, id, snapshot, proposal), a, phase), a)
  {
    hide IsChain;
  }

  lemma CommitStaysLinked(s: State, a: Agent, id: CommitId)
    requires HistoryInv(s) && PhaseOf(s, a) == Verified(id) && id in s.snapshots
    ensures StaysLinked(s, Move(AddCommit(s, id), a, Recorded(id)), a)
  {
    hide IsChain, HeadLock.Inv;
    assert KnowsHead(s, s.phases[a]);
  }

  lemma OutcomeStaysLinked(s: State, a: Agent, id: CommitId, state: MaterializationState)
    requires Linked(s) && id in s.commits
    ensures StaysLinked(s, WithOutcome(s, a, id, state), a)
  {
    hide IsChain;
  }

  lemma CallStaysLinked(s: State, a: Agent, at: Phase)
    requires Linked(s) && at.Attempting? && at.rest != [] && at.id in s.commits
    ensures StaysLinked(s, AfterCall(s, a, at), a)
  {
    hide IsChain, Exec;
    OutcomeStaysLinked(s, a, at.id, FailedToMaterialize);
  }

  lemma AgentStepLinks(s: State, step: Step)
    requires HistoryInv(s) && Enabled(s, step) && !step.LockStep? && !step.WriteHead?
    ensures StaysLinked(s, Share(s, step), step.agent)
  {
    hide HeadLock.Inv, Linked, Exec, Script, DirtyManifest, Manifest, StaysLinked, Move, AddSnapshot, AddCommit, AfterCall, WithOutcome;
    var a := step.agent;
    var at := PhaseOf(s, a);
    assert a in s.phases ==> KnowsHead(s, at);
    match step
    case Stage(_, local, trusted, id) =>
      SnapshotStaysLinked(s, a, id, Taken(s, a, local, trusted), false, ReadyToPublish(id));
    case Propose(_, local, trusted, id) =>
      SnapshotStaysLinked(s, a, id, Taken(s, a, local, trusted), true, Idle);
    case WriteCommit(_) => CommitStaysLinked(s, a, at.id);
    case Call(_) => CallStaysLinked(s, a, at);
    case FailAttempt(_, _) => OutcomeStaysLinked(s, a, at.id, FailedToMaterialize);
    case Complete(_) => OutcomeStaysLinked(s, a, at.id, Materialized);
    case Open(_, base) => MoveStaysLinked(s, a, Opened(base, s.head));
    case Check(_) => MoveStaysLinked(s, a, AfterCheck(s, at));
    case ListTree(_) => MoveStaysLinked(s, a, AfterList(s, at.base));
    case ReadFile(_, p) => MoveStaysLinked(s, a, AfterRead(s, at, p));
    case FinishScan(_) => MoveStaysLinked(s, a, Scanned(at.base, at.seen));
    case TakeProposal(_, id) => MoveStaysLinked(s, a, ReadyToPublish(id));
    case RereadHead(_) => MoveStaysLinked(s, a, Reread(at.id, s.head));
    case Verify(_) => MoveStaysLinked(s, a, AfterVerify(s, at));
    case Repair(_) => MoveStaysLinked(s, a, Attempting(s.head.value, Script(s.commits[s.head.value].manifest)));
    case SetStore(_, _) => MoveStaysLinked(s, a, Idle);
    case Abandon(_) => MoveStaysLinked(s, a, Idle);
  }

  lemma StepKeepsHistory(s: State, step: Step)
    requires HistoryInv(s) && Enabled(s, step) && Allowed(s, step, LockOnly)
    ensures HistoryInv(Apply(s, step))
  {
    ShareKeepsHistory(s, step);
    hide Enabled, Allowed, Share, StoresAfter, WorkAfter, Linked, LockOk;
    LinkedAside(Share(s, step), StoresAfter(s, step), WorkAfter(s, step));
  }

  lemma LinkedAside(s: State, stores: map<Agent, map<Path, PathRecord>>, work: map<Agent, Work>)
    requires Linked(s)
    ensures Linked(s.(stores := stores, work := work))
    ensures forall phase :: KnowsHead(s, phase) ==> KnowsHead(s.(stores := stores, work := work), phase)
  {
  }

  lemma {:induction false} RunKeepsHistory(run: seq<State>, i: nat)
    requires IsRun(run, LockOnly) && i < |run|
    ensures HistoryInv(run[i])
  {
    hide HistoryInv, Enabled, Allowed, Apply;
    if i > 0 {
      RunKeepsHistory(run, i - 1);
      assert Next(run[i - 1], run[i - 1 + 1], LockOnly);
      var step :| Enabled(run[i - 1], step) && Allowed(run[i - 1], step, LockOnly) && run[i] == Apply(run[i - 1], step);
      StepKeepsHistory(run[i - 1], step);
    } else {
      InitKeepsHistory(run[0]);
    }
  }

  lemma InitKeepsHistory(s: State)
    requires Init(s)
    ensures HistoryInv(s)
  {
  }

  /** A step publishes nothing, or exactly one commit whose parent is the head it replaces. */
  lemma StepExtendsHistory(s: State, step: Step)
    requires HistoryInv(s) && Enabled(s, step)
    ensures var s' := Apply(s, step);
            || (s'.history == s.history && s'.head == s.head)
            || (exists id :: s'.history == s.history + [id] && s'.head == Some(id)
                             && id in s'.commits && s'.commits[id].parent == s.head)
  {
    if step.WriteHead? {
      assert KnowsHead(s, s.phases[step.agent]);
      var id := s.phases[step.agent].id;
      hide LockOk, IsChain;
      assert Apply(s, step).history == s.history + [id];
    } else if step.LockStep? {
      LockStepLinks(s, step.step);
      hide AfterLockStep, HistoryInv, HeadLock.Apply, HeadLock.Enabled;
    } else {
      AgentStepLinks(s, step);
      hide Enabled, Share, HistoryInv, KnowsHead, CommitsMatchSnapshots;
    }
  }

  /**
   * Head history is one linear chain: in every reachable state the parent pointers lead from the head
   * through exactly the published commits, and what was published stays published.
   */
  lemma {:induction false} LinearHistory(run: seq<State>, i: nat, j: nat)
    requires IsRun(run, LockOnly) && i <= j < |run|
    ensures IsChain(run[j].commits, run[j].head, run[j].history)
    ensures run[i].history <= run[j].history
    decreases j - i
  {
    hide LockOk, IsChain, Apply, Enabled, Allowed, CommitsMatchSnapshots, KnowsHead;
    RunKeepsHistory(run, j);
    if i < j {
      LinearHistory(run, i, j - 1);
      RunKeepsHistory(run, j - 1);
      assert Next(run[j - 1], run[j - 1 + 1], LockOnly);
      var step :| Enabled(run[j - 1], step) && Allowed(run[j - 1], step, LockOnly) && run[j] == Apply(run[j - 1], step);
      StepExtendsHistory(run[j - 1], step);
    }
  }

  /** Of all the commits and accepted proposals working from the same base, at most one is published. */
  lemma OnePublicationPerBase(run: seq<State>, n: nat, i: nat, j: nat)
    requires IsRun(run, LockOnly) && n < |run|
    requires i < j < |run[n].history|
    ensures var s := run[n];
            s.history[i] in s.commits && s.history[j] in s.commits
            && s.commits[s.history[i]].base != s.commits[s.history[j]].base
  {
    hide LockOk, KnowsHead;
    RunKeepsHistory(run, n);
    var s := run[n];
    assert s.commits[s.history[i]].parent == ParentAt(s.history, i);
    assert s.commits[s.history[j]].parent == ParentAt(s.history, j);
    if i > 0 {
      assert s.history[i - 1] != s.history[j - 1];
    }
  }

  // ----- Repairs that wait for attempts under way -----

  /** At most one attempt, and none beside a materialized head. */
  ghost predicate LoneInv(s: State) {
    && HistoryInv(s)
    && (forall a :: a in s.phases && InFlight(s.phases[a]) ==>
          s.head == Some(s.phases[a].id) && !HeadIsMaterialized(s, s.head))
    && (forall a :: a in s.phases && Publishing(s.phases[a]) ==> HeadIsMaterialized(s, s.head))
    && (forall a :: a in s.phases && s.phases[a].Recorded? ==>
          s.phases[a].id in s.commits && s.commits[s.phases[a].id].state == Pending)
    && (forall a, b :: a in s.phases && b in s.phases && InFlight(s.phases[a]) && InFlight(s.phases[b]) ==> a == b)
  }

  /** A step of one agent that neither publishes nor records an outcome. */
  lemma PlainStepKeepsLone(s: State, next: State, a: Agent, phase: Phase)
    requires LoneInv(s) && HistoryInv(next)
    requires next.phases == s.phases[a := phase] && next.head == s.head
    requires HeadIsMaterialized(next, next.head) == HeadIsMaterialized(s, s.head)
    requires forall id :: id in s.commits && s.commits[id].state == Pending ==> id in next.commits && next.commits[id].state == Pending
    requires InFlight(phase) ==> s.head == Some(phase.id) && !HeadIsMaterialized(s, s.head)
                                 && forall b :: b in s.phases && b != a ==> !InFlight(s.phases[b])
    requires Publishing(phase) ==> HeadIsMaterialized(s, s.head)
    requires phase.Recorded? ==> phase.id in next.commits && next.commits[phase.id].state == Pending
    ensures LoneInv(next)
  {
    hide HistoryInv, HeadIsMaterialized;
  }

  /** The only attempt ends. */
  lemma OutcomeKeepsLone(s: State, a: Agent, state: MaterializationState)
    requires LoneInv(s) && PhaseOf(s, a).Attempting? && PhaseOf(s, a).id in s.commits
    requires HistoryInv(WithOutcome(s, a, PhaseOf(s, a).id, state))
    ensures LoneInv(WithOutcome(s, a, PhaseOf(s, a).id, state))
  {
    hide HistoryInv;
  }

  lemma WriteHeadKeepsLone(s: State, a: Agent, id: CommitId)
    requires LoneInv(s) && PhaseOf(s, a) == Recorded(id)
    ensures LoneInv(Move(AddHead(s, id), a, Published(id)))
  {
    WriteHeadKeepsHistory(s, a, id);
    PublisherIsAlone(s, a);
    hide HistoryInv;
  }

  lemma LockChangeKeepsLone(s: State, lock: HeadLock.State)
    requires LoneInv(s) && HistoryInv(s.(lock := lock))
    ensures LoneInv(s.(lock := lock))
  {
    hide HistoryInv;
  }

  lemma LockStepKeepsLone(s: State, step: HeadLock.Step)
    requires LoneInv(s) && HeadLock.Enabled(s.lock, step) && HistoryInv(AfterLockStep(s, step))
    ensures LoneInv(AfterLockStep(s, step))
  {
    hide HistoryInv, LoneInv, HeadLock.Apply, HeadLock.Enabled, Script;
    var next := AfterLockStep(s, step);
    if step.Crash? {
      PlainStepKeepsLone(s, next, step.agent, Dead);
    } else if (step.Release? || step.GiveUp?) && PhaseOf(s, step.agent).Published? {
      PublishedIsLone(s, step.agent);
      PlainStepKeepsLone(s, next, step.agent, next.phases[step.agent]);
    } else {
      LockChangeKeepsLone(s, HeadLock.Apply(s.lock, step));
    }
  }

  lemma PublishedIsLone(s: State, a: Agent)
    requires LoneInv(s) && PhaseOf(s, a).Published?
    ensures s.head == Some(s.phases[a].id) && !HeadIsMaterialized(s, s.head)
    ensures forall b :: b in s.phases && b != a ==> !InFlight(s.phases[b])
  {
    hide HistoryInv;
  }

  lemma OutcomeStepKeepsLone(s: State, step: Step)
    requires LoneInv(s) && Enabled(s, step) && HistoryInv(Share(s, step)) && (step.FailAttempt? || step.Complete?)
    ensures LoneInv(Share(s, step))
  {
    hide LoneInv, HistoryInv, HeadIsMaterialized;
    OutcomeKeepsLone(s, step.agent, if step.Complete? then Materialized else FailedToMaterialize);
  }

  lemma AgentStepKeepsLone(s: State, step: Step)
    requires LoneInv(s) && Enabled(s, step) && Allowed(s, step, RepairsWait) && HistoryInv(Share(s, step))
    requires !step.LockStep? && !step.WriteHead?
    ensures LoneInv(Share(s, step))
  {
    hide LoneInv, HistoryInv, Allowed, Share, Enabled;
    match step
    case FailAttempt(_, _) => OutcomeStepKeepsLone(s, step);
    case Complete(_) => OutcomeStepKeepsLone(s, step);
    case Call(a) => CallKeepsLone(s, a);
    case WriteCommit(a) => WriteCommitKeepsLone(s, a);
    case _ => MoveKeepsLone(s, step);
  }

  lemma ShareKeepsLone(s: State, step: Step)
    requires LoneInv(s) && Enabled(s, step) && Allowed(s, step, RepairsWait)
    ensures LoneInv(Share(s, step))
  {
    if step.LockStep? {
      ShareKeepsHistory(s, step);
      hide LoneInv, HistoryInv, Allowed, AfterLockStep;
      LockStepKeepsLone(s, step.step);
    } else if step.WriteHead? {
      hide LoneInv, Allowed;
      WriteHeadKeepsLone(s, step.agent, PhaseOf(s, step.agent).id);
    } else {
      hide Share, Enabled, HistoryInv;
      ShareKeepsHistory(s, step);
      AgentStepKeepsLone(s, step);
    }
  }

  lemma CallKeepsLone(s: State, a: Agent)
    requires LoneInv(s) && Enabled(s, Call(a)) && HistoryInv(Share(s, Call(a)))
    ensures LoneInv(Share(s, Call(a)))
  {
    hide HistoryInv, Exec;
    if Exec(s.tree, s.phases[a].rest[0]).Err? {
      OutcomeKeepsLone(s, a, FailedToMaterialize);
    } else {
      PlainStepKeepsLone(s, Share(s, Call(a)), a, Attempting(s.phases[a].id, s.phases[a].rest[1..]));
    }
  }

  lemma CommitKeepsLone(s: State, a: Agent, id: CommitId)
    requires LoneInv(s) && PhaseOf(s, a) == Verified(id) && id in s.snapshots
    requires HistoryInv(Move(AddCommit(s, id), a, Recorded(id)))
    ensures LoneInv(Move(AddCommit(s, id), a, Recorded(id)))
  {
    VerifiedIsNotHead(s, a);
    hide HistoryInv;
    var next := Move(AddCommit(s, id), a, Recorded(id));
    assert HeadIsMaterialized(s, s.head);
    hide LoneInv;
    PlainStepKeepsLone(s, next, a, Recorded(id));
  }

  lemma WriteCommitKeepsLone(s: State, a: Agent)
    requires LoneInv(s) && Enabled(s, WriteCommit(a)) && HistoryInv(Share(s, WriteCommit(a)))
    ensures LoneInv(Share(s, WriteCommit(a)))
  {
    hide LoneInv, HistoryInv, Move, AddCommit;
    CommitKeepsLone(s, a, s.phases[a].id);
  }

  lemma MoveKeepsLone(s: State, step: Step)
    requires LoneInv(s) && Enabled(s, step) && Allowed(s, step, RepairsWait) && HistoryInv(Share(s, step))
    requires !step.LockStep? && !step.WriteHead? && !step.FailAttempt? && !step.Complete? && !step.Call? && !step.WriteCommit?
    ensures LoneInv(Share(s, step))
  {
    var next, a := Share(s, step), step.agent;
    MoveFrame(s, step);
    MovePhase(s, step);
    hide HistoryInv, Share, Enabled, Allowed, LoneInv;
    PlainStepKeepsLone(s, next, a, next.phases[a]);
  }

  lemma MoveFrame(s: State, step: Step)
    requires Enabled(s, step)
    requires !step.LockStep? && !step.WriteHead? && !step.FailAttempt? && !step.Complete? && !step.Call? && !step.WriteCommit?
    ensures var next, a := Share(s, step), step.agent;
            a in next.phases && next.phases == s.phases[a := next.phases[a]] && next.commits == s.commits && next.head == s.head
  {
    hide Script, DirtyManifest, AfterCheck, AfterVerify, AfterRead, AfterList;
  }

  lemma MovePhase(s: State, step: Step)
    requires HistoryInv(s) && Enabled(s, step) && Allowed(s, step, RepairsWait)
    requires !step.LockStep? && !step.WriteHead? && !step.FailAttempt? && !step.Complete? && !step.Call? && !step.WriteCommit?
    ensures var phase := Share(s, step).phases[step.agent];
            && !phase.Recorded? && (Publishing(phase) ==> HeadIsMaterialized(s, s.head))
            && (InFlight(phase) ==> s.head == Some(phase.id) && !HeadIsMaterialized(s, s.head) && NobodyInFlight(s))
  {
    if step.Verify? {
      assert KnowsHead(s, s.phases[step.agent]);
    } else if !step.Repair? {
      hide HistoryInv, Allowed, HeadIsMaterialized, NobodyInFlight;
      OtherMovePhase(s, step);
    }
    hide HistoryInv, Script;
  }

  lemma OtherMovePhase(s: State, step: Step)
    requires Enabled(s, step) && !step.Verify? && !step.Repair?
    requires !step.LockStep? && !step.WriteHead? && !step.FailAttempt? && !step.Complete? && !step.Call? && !step.WriteCommit?
    ensures var phase := Share(s, step).phases[step.agent];
            !phase.Recorded? && !Publishing(phase) && !InFlight(phase)
  {
    hide Taken, DirtyManifest, HeadIsMaterialized;
  }

  lemma StepKeepsLone(s: State, step: Step)
    requires LoneInv(s) && Enabled(s, step) && Allowed(s, step, RepairsWait)
    ensures LoneInv(Apply(s, step))
  {
    ShareKeepsLone(s, step);
    StepKeepsHistory(s, step);
    hide Enabled, Allowed, Share, StoresAfter, WorkAfter, HistoryInv, LoneInv;
    LoneAside(Share(s, step), StoresAfter(s, step), WorkAfter(s, step));
  }

  lemma LoneAside(s: State, stores: map<Agent, map<Path, PathRecord>>, work: map<Agent, Work>)
    requires LoneInv(s) && HistoryInv(s.(stores := stores, work := work))
    ensures LoneInv(s.(stores := stores, work := work))
  {
    hide HistoryInv;
  }

  lemma VerifiedIsNotHead(s: State, a: Agent)
    requires HistoryInv(s) && PhaseOf(s, a).Verified?
    ensures s.head != Some(PhaseOf(s, a).id)
  {
    assert KnowsHead(s, s.phases[a]);
    NotYetPublished(s, s.phases[a].id);
  }

  lemma PublisherIsAlone(s: State, a: Agent)
    requires LoneInv(s) && PhaseOf(s, a).Recorded?
    ensures forall b :: b in s.phases && b != a ==> !Publishing(s.phases[b]) && !InFlight(s.phases[b])
  {
    hide LockOk;
    forall b | b in s.phases && b != a ensures !Publishing(s.phases[b]) && !InFlight(s.phases[b]) {
      if Publishing(s.phases[b]) {
        CriticalIsAlone(s, a, b);
      }
    }
  }

  /**
   * Replay equality: whenever the head is materialized, the backing tree is every manifest of the chain
   * replayed onto the empty tree; every proper ancestor of the head is materialized at all times.
   */
  lemma TreeIsReplay(run: seq<State>, n: nat)
    requires IsRun(run, AttemptsEnd) && n < |run|
    ensures var s := run[n];
            && (HeadIsMaterialized(s, s.head) ==> s.tree == Replay(s.commits, s.history))
            && forall i :: 0 <= i < |s.history| - 1 ==> s.history[i] in s.commits && s.commits[s.history[i]].state == Materialized
  {
    RunKeepsInv(run, n);
  }

  // ----- The agents' own stores -----

  ghost predicate AgreesOutside(m: seq<StagedPath>, store: map<Path, PathRecord>, trusted: map<Path, PathRecord>) {
    forall p :: !Mentions(m, p) ==> Get(store, p) == Get(trusted, p)
  }

  /** An agent's store differs from the base it staged with only where it has since recorded its own commit. */
  ghost predicate WorkOk(s: State, a: Agent)
    requires a in s.work
  {
    var work := s.work[a];
    && work.id in s.snapshots
    && var snapshot := s.snapshots[work.id];
       && AgreesOutside(snapshot.manifest, StoreOf(s, a), snapshot.trusted)
       && (work.recorded ==> StoreOf(s, a) == TrustAll(Ordered(snapshot.manifest), snapshot.trusted))
  }

  ghost predicate StoresOk(s: State) {
    Linked(s) && forall a :: a in s.work ==> WorkOk(s, a)
  }

  lemma {:induction false} RecordingStaysInside(entries: seq<StagedPath>, m: seq<StagedPath>, store: map<Path, PathRecord>,
      trusted: map<Path, PathRecord>)
    requires AgreesOutside(m, store, trusted) && forall e :: e in entries ==> e in m
    ensures AgreesOutside(m, TrustAll(entries, store), trusted)
    decreases |entries|
  {
    if entries != [] {
      var next := TrustOne(entries[0], store);
      assert entries[0] in entries;
      forall p | !Mentions(m, p) ensures Get(next, p) == Get(trusted, p) {
        assert Get(next, p) == Get(store, p);
      }
      assert forall e :: e in entries[1..] ==> e in entries;
      RecordingStaysInside(entries[1..], m, next, trusted);
    }
  }

  lemma {:induction false} RecordedAlike(entries: seq<StagedPath>, store: map<Path, PathRecord>, trusted: map<Path, PathRecord>,
      p: Path)
    requires Mentions(entries, p) || Get(store, p) == Get(trusted, p)
    ensures Get(TrustAll(entries, store), p) == Get(TrustAll(entries, trusted), p)
    decreases |entries|
  {
    if entries != [] {
      var e, rest := entries[0], entries[1..];
      if e.path != p {
        assert Get(TrustOne(e, store), p) == Get(store, p) && Get(TrustOne(e, trusted), p) == Get(trusted, p);
        if Mentions(entries, p) {
          var w :| w in entries && w.path == p;
          assert w in rest;
        }
      } else {
        assert Get(TrustOne(e, store), p) == Get(TrustOne(e, trusted), p);
      }
      RecordedAlike(rest, TrustOne(e, store), TrustOne(e, trusted), p);
    }
  }

  /** Recording the whole manifest gives the same store wherever an earlier attempt stopped. */
  lemma RecordingCompletes(m: seq<StagedPath>, store: map<Path, PathRecord>, trusted: map<Path, PathRecord>)
    requires AgreesOutside(m, store, trusted)
    ensures TrustAll(Ordered(m), store) == TrustAll(Ordered(m), trusted)
  {
    var entries := Ordered(m);
    forall p ensures Get(TrustAll(entries, store), p) == Get(TrustAll(entries, trusted), p) {
      OrderedMentions(m, p);
      RecordedAlike(entries, store, trusted, p);
    }
    SameEntriesSameMap(TrustAll(entries, store), TrustAll(entries, trusted));
  }

  /** What an attempt of the agent records of its own commit. */
  lemma AttemptKeepsWork(m: seq<StagedPath>, store: map<Path, PathRecord>, trusted: map<Path, PathRecord>, done: nat)
    requires AgreesOutside(m, store, trusted) && done <= |Ordered(m)|
    ensures AgreesOutside(m, TrustAll(Ordered(m)[..done], store), trusted)
    ensures AgreesOutside(m, TrustAll(Ordered(m), store), trusted)
    ensures TrustAll(Ordered(m), store) == TrustAll(Ordered(m), trusted)
  {
    OrderedMentions(m, "");
    RecordingStaysInside(Ordered(m)[..done], m, store, trusted);
    RecordingStaysInside(Ordered(m), m, store, trusted);
    RecordingCompletes(m, store, trusted);
  }

  /** The step changes the agent's store, or what it is working on. */
  predicate RecordsFor(step: Step, a: Agent) {
    (step.Stage? || step.SetStore? || step.FailAttempt? || step.Complete?) && step.agent == a
  }

  lemma SnapshotsStay(s: State, step: Step)
    requires Enabled(s, step)
    ensures forall id :: id in s.snapshots ==> id in Share(s, step).snapshots && Share(s, step).snapshots[id] == s.snapshots[id]
    ensures step.Stage? ==> step.id in Share(s, step).snapshots && Share(s, step).snapshots[step.id].trusted == StoreOf(s, step.agent)
  {
    hide Exec, Script, Manifest, HeadLock.Enabled, HeadLock.Apply;
  }

  lemma OthersKeepWork(s: State, step: Step, b: Agent)
    requires Enabled(s, step) && b in s.work && WorkOk(s, b) && !RecordsFor(step, b)
    ensures b in Apply(s, step).work && WorkOk(Apply(s, step), b)
  {
    SnapshotsStay(s, step);
    OthersKeepStore(s, step, b);
    hide Enabled, Share, AgreesOutside, TrustAll, StoresAfter, WorkAfter;
  }

  lemma OthersKeepStore(s: State, step: Step, b: Agent)
    requires Enabled(s, step) && !RecordsFor(step, b)
    ensures Get(StoresAfter(s, step), b) == Get(s.stores, b) && Get(WorkAfter(s, step), b) == Get(s.work, b)
  {
    hide TrustAll, Ordered;
  }

  lemma OwnStepKeepsWork(s: State, step: Step)
    requires Enabled(s, step) && StoresOk(s)
    requires step.Stage? || step.SetStore? || step.FailAttempt? || step.Complete?
    ensures step.agent in Apply(s, step).work ==> WorkOk(Apply(s, step), step.agent)
  {
    SnapshotsStay(s, step);
    if step.Stage? {
      StageStartsWork(s, step);
    } else if step.SetStore? {
      hide Enabled, Share, WorkOk;
    } else {
      AttemptKeepsOwnWork(s, step);
      hide Enabled, Share, StoresAfter, WorkAfter, AgreesOutside, TrustAll, StoresOk, DirtyManifest;
    }
  }

  lemma StageStartsWork(s: State, step: Step)
    requires Enabled(s, step) && step.Stage?
    ensures step.agent in Apply(s, step).work && WorkOk(Apply(s, step), step.agent)
  {
    SnapshotsStay(s, step);
    hide Share, Enabled, TrustAll;
  }

  lemma AttemptKeepsOwnWork(s: State, step: Step)
    requires Enabled(s, step) && StoresOk(s) && (step.FailAttempt? || step.Complete?)
    ensures step.agent in WorkAfter(s, step) ==> WorkOk(s.(stores := StoresAfter(s, step), work := WorkAfter(s, step)), step.agent)
  {
    var a := step.agent;
    if a in s.work && s.work[a].id == s.phases[a].id {
      OwnCommitIsAsStaged(s, a);
      var snapshot := s.snapshots[s.work[a].id];
      var done := if step.FailAttempt? then Min(step.done, |AttemptEntries(s, a)|) else 0;
      AttemptKeepsWork(snapshot.manifest, StoreOf(s, a), snapshot.trusted, done);
    }
    hide AgreesOutside, TrustAll, Ordered, StoresOk;
  }

  lemma OwnCommitIsAsStaged(s: State, a: Agent)
    requires StoresOk(s) && a in s.work && s.work[a].id in s.commits
    ensures var id := s.work[a].id;
            && id in s.snapshots && s.commits[id].manifest == s.snapshots[id].manifest
            && AgreesOutside(s.snapshots[id].manifest, StoreOf(s, a), s.snapshots[id].trusted)
  {
    assert WorkOk(s, a);
    hide AgreesOutside, IsChain;
  }

  lemma StepKeepsStores(s: State, step: Step)
    requires StoresOk(s) && HistoryInv(s) && Enabled(s, step) && Allowed(s, step, LockOnly)
    ensures StoresOk(Apply(s, step))
  {
    StepKeepsHistory(s, step);
    forall b | b in Apply(s, step).work ensures WorkOk(Apply(s, step), b) {
      if RecordsFor(step, b) {
        OwnStepKeepsWork(s, step);
      } else {
        OthersKeepStore(s, step, b);
        hide Share, Enabled, Allowed, StoresAfter, WorkAfter, WorkOk;
        assert b in s.work && WorkOk(s, b);
        OthersKeepWork(s, step, b);
      }
    }
  }

  lemma {:induction false} RunKeepsStores(run: seq<State>, i: nat)
    requires IsRun(run, LockOnly) && i < |run|
    ensures StoresOk(run[i])
  {
    hide HistoryInv, StoresOk, Enabled, Allowed, Apply, Init;
    if i > 0 {
      RunKeepsStores(run, i - 1);
      RunKeepsHistory(run, i - 1);
      assert Next(run[i - 1], run[i - 1 + 1], LockOnly);
      var step :| Enabled(run[i - 1], step) && Allowed(run[i - 1], step, LockOnly) && run[i] == Apply(run[i - 1], step);
      StepKeepsStores(run[i - 1], step);
    } else {
      InitKeepsStores(run[0]);
    }
  }

  lemma InitKeepsStores(s: State)
    requires Init(s)
    ensures StoresOk(s)
  {
  }

  /**
   * Clean after apply, over whole runs: once an agent's own attempt on the commit it staged last is complete,
   * and as long as that commit is the materialized head, the agent's working copy, unedited since staging, shows
   * neither drift nor a dirty path against the backing tree and the agent's store; whatever attempts failed
   * before or ran beside.
   */
  lemma AppliedHeadIsClean(run: seq<State>, n: nat, a: Agent)
    requires IsRun(run, AttemptsEnd) && n < |run|
    requires a in run[n].work && run[n].work[a].recorded && run[n].head == Some(run[n].work[a].id)
    requires HeadIsMaterialized(run[n], run[n].head)
    ensures run[n].work[a].id in run[n].snapshots
    ensures var local := run[n].snapshots[run[n].work[a].id].local;
            run[n].tree == local && DirtyPaths(local, run[n].tree, StoreOf(run[n], a)) == Ok([])
  {
    FactsOnlyNarrow(run, AttemptsEnd);
    RunKeepsStores(run, n);
    RunKeepsInv(run, n);
    hide IsRun, Manifest, SnapshotsOk, AgentsOk, LockOk, Linked, AncestorsMaterialized, DirtyPaths, TrustAll, Ordered, AgreesOutside;
    var v := ViewOf(run[n]);
    assert WorkOk(run[n], a);
    var snapshot := v.snapshots[v.head.value];
    AppliedCommitIsClean(snapshot.local, v.before, snapshot.trusted);
  }

  /** An agent's own complete attempt leaves it in that position. */
  lemma CompletingOwnWork(s: State, a: Agent)
    requires Enabled(s, Complete(a)) && a in s.work && s.work[a].id == PhaseOf(s, a).id && s.head == Some(PhaseOf(s, a).id)
    ensures var next := Apply(s, Complete(a));
            && a in next.work && next.work[a].recorded && next.head == Some(next.work[a].id)
            && HeadIsMaterialized(next, next.head)
  {
  }

  /**
   * Every attempt under way is on the head, and none of its remaining calls fails, however many attempts on
   * that commit, first or repairing, run side by side.
   */
  lemma AttemptsNeverClash(run: seq<State>, n: nat, a: Agent)
    requires IsRun(run, AttemptsEnd) && n < |run|
    requires PhaseOf(run[n], a).Attempting?
    ensures var s := run[n];
            && s.head == Some(s.phases[a].id)
            && Run(s.tree, s.phases[a].rest) == Ok(Replay(s.commits, s.history))
  {
    hide SnapshotsOk, TreeOk, LockOk, ChainInv, Safely, Replay;
    RunKeepsInv(run, n);
    var s := run[n];
    assert AgentOk(ViewOf(s), s.phases[a]);
    SafelyRuns(s.tree, s.phases[a].rest, ViewOf(s).before, ViewOf(s).after);
  }

  lemma {:induction false} RunKeepsLone(run: seq<State>, i: nat)
    requires IsRun(run, RepairsWait) && i < |run|
    ensures LoneInv(run[i])
  {
    hide LoneInv, Enabled, Allowed, Apply;
    if i > 0 {
      RunKeepsLone(run, i - 1);
      assert Next(run[i - 1], run[i - 1 + 1], RepairsWait);
      var step :| Enabled(run[i - 1], step) && Allowed(run[i - 1], step, RepairsWait) && run[i] == Apply(run[i - 1], step);
      StepKeepsLone(run[i - 1], step);
    } else {
      InitKeepsLone(run[0]);
    }
  }

  lemma InitKeepsLone(s: State)
    requires Init(s)
    ensures LoneInv(s)
  {
    InitKeepsHistory(s);
  }

  /**
   * When repairs wait for attempts under way, every attempt is alone and has ended before the next commit is
   * published, so all that is shown of runs in which attempts end holds.
   */
  lemma WaitingRepairsAreAlone(run: seq<State>)
    requires IsRun(run, RepairsWait)
    ensures IsRun(run, AttemptsEnd)
    ensures forall n, a, b :: 0 <= n < |run| && InFlight(PhaseOf(run[n], a)) && InFlight(PhaseOf(run[n], b)) ==> a == b
  {
    forall i | 0 <= i < |run| ensures LoneInv(run[i]) {
      RunKeepsLone(run, i);
    }
    hide Enabled, Apply, HistoryInv;
    forall i | 0 <= i < |run| - 1 ensures Next(run[i], run[i + 1], AttemptsEnd) {
      assert Next(run[i], run[i + 1], RepairsWait);
      var step :| Enabled(run[i], step) && Allowed(run[i], step, RepairsWait) && run[i + 1] == Apply(run[i], step);
      assert LoneInv(run[i]) && Allowed(run[i], step, AttemptsEnd);
    }
  }

  /** Every run is one of those whose history is linear. */
  lemma FactsOnlyNarrow(run: seq<State>, facts: Facts)
    requires IsRun(run, facts)
    ensures IsRun(run, LockOnly)
  {
    hide Enabled, Apply;
    forall i | 0 <= i < |run| - 1 ensures Next(run[i], run[i + 1], LockOnly) {
      assert Next(run[i], run[i + 1], facts);
      var step :| Enabled(run[i], step) && Allowed(run[i], step, facts) && run[i + 1] == Apply(run[i], step);
      assert Allowed(run[i], step, LockOnly);
    }
  }
}
