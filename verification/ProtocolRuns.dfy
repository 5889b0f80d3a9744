/** Runs of the commit protocol: an agent can always publish, and what goes wrong when an attempt outlives its head. */
module ProtocolRuns {
  import opened Wrappers
  import opened Ordering
  import opened Versions
  import opened Trees
  import opened Staging
  import opened Materialize
  import opened CommitProtocol
  import HeadLock

  ghost predicate StepsTo(s: State, steps: seq<Step>, end: State, facts: Facts)
    decreases |steps|
  {
    if steps == [] then s == end
    else Enabled(s, steps[0]) && Allowed(s, steps[0], facts) && StepsTo(Apply(s, steps[0]), steps[1..], end, facts)
  }

  /** One step, allowed and taken. */
  ghost predicate Takes(s: State, step: Step, next: State, facts: Facts) {
    Enabled(s, step) && Allowed(s, step, facts) && Apply(s, step) == next
  }

  lemma StepBack(s: State, step: Step, next: State, rest: seq<Step>, end: State, facts: Facts) returns (steps: seq<Step>)
    requires Takes(s, step, next, facts) && StepsTo(next, rest, end, facts)
    ensures StepsTo(s, steps, end, facts)
  {
    hide Enabled, Allowed, Apply;
    steps := [step] + rest;
    assert steps[1..] == rest;
  }

  /** Steps that record nothing leave the agents' own stores alone. */
  lemma NothingBooked(s: State, step: Step)
    requires Enabled(s, step) && !step.Stage? && !step.SetStore? && !step.FailAttempt? && !step.Complete?
    ensures Apply(s, step) == Share(s, step)
  {
    hide Share;
    var next := Share(s, step);
    SharedStoresStay(s, step);
    assert next.(stores := s.stores, work := s.work) == next;
  }

  ghost predicate SameStores(s: State, next: State) {
    next.stores == s.stores && next.work == s.work
  }

  lemma MovesKeepStores(s: State)
    ensures forall a, phase :: SameStores(s, Move(s, a, phase))
  {
  }

  lemma LockKeepsStores(s: State, step: HeadLock.Step)
    requires HeadLock.Enabled(s.lock, step)
    ensures SameStores(s, AfterLockStep(s, step))
  {
    MovesKeepStores(s.(lock := HeadLock.Apply(s.lock, step)));
    hide Move, PhaseOf, Script, HeadLock.Apply, HeadLock.Enabled;
  }

  lemma CallsKeepStores(s: State, step: Step)
    requires Enabled(s, step) && (step.Call? || step.FailAttempt? || step.Complete?)
    ensures SameStores(s, Share(s, step))
  {
    hide Enabled, PhaseOf, Exec;
  }

  lemma RecordsKeepStores(s: State, step: Step)
    requires Enabled(s, step) && (step.Stage? || step.Propose? || step.WriteCommit? || step.WriteHead?)
    ensures SameStores(s, Share(s, step))
  {
    hide Enabled, PhaseOf, Taken, DirtyManifest;
  }

  lemma SharedStoresStay(s: State, step: Step)
    requires Enabled(s, step)
    ensures SameStores(s, Share(s, step))
  {
    if step.LockStep? {
      LockKeepsStores(s, step.step);
      hide AfterLockStep;
    } else if step.Call? || step.FailAttempt? || step.Complete? {
      CallsKeepStores(s, step);
    } else if step.Stage? || step.Propose? || step.WriteCommit? || step.WriteHead? {
      RecordsKeepStores(s, step);
    } else {
      MovesKeepStores(s);
      hide Enabled, PhaseOf, Script, AfterCheck, AfterVerify, AfterRead, AfterList, SameStores, Move;
    }
  }

  lemma {:induction false} StepsAreRun(s: State, steps: seq<Step>, end: State, facts: Facts) returns (run: seq<State>)
    requires StepsTo(s, steps, end, facts)
    ensures run != [] && run[0] == s && run[|run| - 1] == end
    ensures forall i :: 0 <= i < |run| - 1 ==> Next(run[i], run[i + 1], facts)
    decreases |steps|
  {
    hide Enabled, Allowed, Apply;
    if steps == [] {
      run := [s];
    } else {
      var rest := StepsAreRun(Apply(s, steps[0]), steps[1..], end, facts);
      run := [s] + rest;
      assert Next(s, rest[0], facts);
      forall i | 0 <= i < |run| - 1 ensures Next(run[i], run[i + 1], facts) {
        if i > 0 {
          assert run[i] == rest[i - 1] && run[i + 1] == rest[i - 1 + 1];
        }
      }
    }
  }

  // ----- The lock is taken -----

  /** The lock state once an agent has got in beside an empty directory. */
  function Held(lock: HeadLock.State, mine: HeadLock.LockRecord): HeadLock.State {
    HeadLock.State(lock.clock, lock.legacyExpiry, map[mine.token := mine], lock.phases[mine.owner := HeadLock.Inside(mine)], Some(mine))
  }

  /** Nobody has a record, and the agent's own will come after every earlier one. */
  predicate Free(lock: HeadLock.State, mine: HeadLock.LockRecord) {
    && lock.records == map[] && lock.legacyExpiry == None && HeadLock.PhaseOf(lock, mine.owner).Outside?
    && HeadLock.IsLock(mine) && mine.createdAt == lock.clock
    && (lock.lastWritten.Some? ==> HeadLock.Before(lock.lastWritten.value, mine))
  }

  ghost predicate LockMoves(l: HeadLock.State, step: HeadLock.Step, next: HeadLock.State) {
    && !step.Tick? && !step.Crash? && !step.Release? && !step.GiveUp?
    && HeadLock.Enabled(l, step) && HeadLock.WriteOrderAgrees(l, step) && HeadLock.Apply(l, step) == next
  }

  lemma LockBack(s: State, step: HeadLock.Step, lock: HeadLock.State, rest: seq<Step>, end: State, facts: Facts)
    returns (steps: seq<Step>)
    requires LockMoves(s.lock, step, lock) && StepsTo(s.(lock := lock), rest, end, facts)
    ensures StepsTo(s, steps, end, facts)
  {
    LockStepIsTaken(s, step, lock, facts);
    hide Takes, LockMoves, StepsTo;
    steps := StepBack(s, LockStep(step), s.(lock := lock), rest, end, facts);
  }

  lemma LockStepIsTaken(s: State, step: HeadLock.Step, lock: HeadLock.State, facts: Facts)
    requires LockMoves(s.lock, step, lock)
    ensures Takes(s, LockStep(step), s.(lock := lock), facts)
  {
    hide HeadLock.Enabled, HeadLock.Apply, HeadLock.WriteOrderAgrees;
    NothingBooked(s, LockStep(step));
  }

  /** The agent's own record is the only one, so it comes first. */
  lemma OnlyRecordWins(mine: HeadLock.LockRecord)
    requires HeadLock.IsLock(mine)
    ensures HeadLock.Wins(map[mine.token := mine], mine, mine.createdAt)
  {
    hide HeadLock.Wins;
    HeadLock.LeastActiveWins(map[mine.token := mine], mine, mine.createdAt);
  }

  function At(l: HeadLock.State, mine: HeadLock.LockRecord, phase: HeadLock.Phase): HeadLock.State {
    HeadLock.State(l.clock, None, map[mine.token := mine], l.phases[mine.owner := phase], Some(mine))
  }

  function Timed(l: HeadLock.State, mine: HeadLock.LockRecord): HeadLock.State {
    l.(phases := l.phases[mine.owner := HeadLock.Timed(mine)])
  }

  lemma ReadsClock(l: HeadLock.State, mine: HeadLock.LockRecord)
    requires Free(l, mine)
    ensures LockMoves(l, HeadLock.ReadClock(mine.owner, mine.token), Timed(l, mine))
  {
  }

  lemma WritesRecord(l: HeadLock.State, mine: HeadLock.LockRecord)
    requires Free(l, mine)
    ensures LockMoves(Timed(l, mine), HeadLock.WriteRecord(mine.owner), At(l, mine, HeadLock.Written(mine)))
  {
    hide HeadLock.Before;
    assert l.phases[mine.owner := HeadLock.Timed(mine)][mine.owner := HeadLock.Written(mine)] == l.phases[mine.owner := HeadLock.Written(mine)];
  }

  lemma ListsRecords(l: HeadLock.State, mine: HeadLock.LockRecord)
    ensures LockMoves(At(l, mine, HeadLock.Written(mine)), HeadLock.List(mine.owner), At(l, mine, HeadLock.Listing(mine, {mine.token}, map[])))
  {
    var listing := HeadLock.Listing(mine, {mine.token}, map[]);
    assert map[mine.token := mine].Keys == {mine.token};
    assert l.phases[mine.owner := HeadLock.Written(mine)][mine.owner := listing] == l.phases[mine.owner := listing];
  }

  lemma ReadsOwnRecord(l: HeadLock.State, mine: HeadLock.LockRecord)
    ensures LockMoves(At(l, mine, HeadLock.Listing(mine, {mine.token}, map[])), HeadLock.ReadRecord(mine.owner, mine.token),
                      At(l, mine, HeadLock.Listing(mine, {}, map[mine.token := mine])))
  {
    var listing, done := HeadLock.Listing(mine, {mine.token}, map[]), HeadLock.Listing(mine, {}, map[mine.token := mine]);
    assert {mine.token} - {mine.token} == {};
    assert l.phases[mine.owner := listing][mine.owner := done] == l.phases[mine.owner := done];
  }

  lemma DecidesForItself(l: HeadLock.State, mine: HeadLock.LockRecord)
    requires HeadLock.IsLock(mine) && l.legacyExpiry == None
    ensures LockMoves(At(l, mine, HeadLock.Listing(mine, {}, map[mine.token := mine])), HeadLock.Decide(mine.owner), Held(l, mine))
  {
    OnlyRecordWins(mine);
    WinnerIsInside(l, mine, map[mine.token := mine]);
    hide HeadLock.Wins, HeadLock.IsLock, HeadLock.Apply, Held;
  }

  lemma WinnerIsInside(l: HeadLock.State, mine: HeadLock.LockRecord, seen: map<string, HeadLock.LockRecord>)
    requires l.legacyExpiry == None && HeadLock.Wins(seen, mine, mine.createdAt)
    ensures var listed := At(l, mine, HeadLock.Listing(mine, {}, seen));
            && HeadLock.Enabled(listed, HeadLock.Decide(mine.owner))
            && HeadLock.Apply(listed, HeadLock.Decide(mine.owner)) == Held(l, mine)
  {
    hide HeadLock.Wins;
    PhasesTwice(l.phases, mine.owner, HeadLock.Listing(mine, {}, seen), HeadLock.Inside(mine));
  }

  lemma PhasesTwice(phases: map<Agent, HeadLock.Phase>, a: Agent, one: HeadLock.Phase, two: HeadLock.Phase)
    ensures phases[a := one][a := two] == phases[a := two]
  {
  }

  lemma AcquireBack(s: State, mine: HeadLock.LockRecord, rest: seq<Step>, end: State, facts: Facts) returns (steps: seq<Step>)
    requires Free(s.lock, mine) && StepsTo(s.(lock := Held(s.lock, mine)), rest, end, facts)
    ensures StepsTo(s, steps, end, facts)
  {
    var a, t, l := mine.owner, mine.token, s.lock;
    var seen := At(l, mine, HeadLock.Listing(mine, {}, map[t := mine]));
    var listed := At(l, mine, HeadLock.Listing(mine, {t}, map[]));
    var written := At(l, mine, HeadLock.Written(mine));
    DecidesForItself(l, mine);
    ReadsOwnRecord(l, mine);
    ListsRecords(l, mine);
    WritesRecord(l, mine);
    ReadsClock(l, mine);
    hide StepsTo, LockMoves, At, Timed, Held, Free;
    steps := LockBack(s.(lock := seen), HeadLock.Decide(a), Held(l, mine), rest, end, facts);
    steps := LockBack(s.(lock := listed), HeadLock.ReadRecord(a, t), seen, steps, end, facts);
    steps := LockBack(s.(lock := written), HeadLock.List(a), listed, steps, end, facts);
    steps := LockBack(s.(lock := Timed(l, mine)), HeadLock.WriteRecord(a), written, steps, end, facts);
    steps := LockBack(s, HeadLock.ReadClock(a, t), Timed(l, mine), steps, end, facts);
  }

  // ----- The tree is read -----

  lemma Twice(s: State, a: Agent, one: Phase, two: Phase)
    ensures Move(Move(s, a, one), a, two) == Move(s, a, two)
  {
    assert s.phases[a := one][a := two] == s.phases[a := two];
  }

  lemma ReadsFile(s: State, a: Agent, base: Option<CommitId>, pending: set<Path>, seen: Tree, p: Path, facts: Facts)
    requires p in pending && p in s.tree && s.tree[p].File?
    ensures Takes(Move(s, a, Listed(base, pending, seen)), ReadFile(a, p), Move(s, a, Listed(base, pending - {p}, seen[p := s.tree[p]])), facts)
  {
    var now := Move(s, a, Listed(base, pending, seen));
    Twice(s, a, Listed(base, pending, seen), Listed(base, pending - {p}, seen[p := s.tree[p]]));
    assert Enabled(now, ReadFile(a, p)) && Allowed(now, ReadFile(a, p), facts);
    NothingBooked(now, ReadFile(a, p));
    hide Enabled, Allowed, Apply;
  }

  lemma {:induction false} ReadFilesBack(s: State, a: Agent, base: Option<CommitId>, pending: set<Path>, seen: Tree,
      rest: seq<Step>, end: State, facts: Facts) returns (steps: seq<Step>)
    requires (forall p :: p in pending ==> p in s.tree && s.tree[p].File?) && seen == s.tree - pending
    requires StepsTo(Move(s, a, Listed(base, {}, s.tree)), rest, end, facts)
    ensures StepsTo(Move(s, a, Listed(base, pending, seen)), steps, end, facts)
    decreases |pending|
  {
    hide StepsTo, Takes, Move;
    if pending == {} {
      assert seen == s.tree;
      steps := rest;
    } else {
      var p :| p in pending;
      var more := seen[p := s.tree[p]];
      assert more == s.tree - (pending - {p});
      steps := ReadFilesBack(s, a, base, pending - {p}, more, rest, end, facts);
      ReadsFile(s, a, base, pending, seen, p, facts);
      steps := StepBack(Move(s, a, Listed(base, pending, seen)), ReadFile(a, p), Move(s, a, Listed(base, pending - {p}, more)), steps, end, facts);
    }
  }

  /** A step that only moves its own agent, from a position it has just been moved to. */
  lemma PlainMove(s: State, a: Agent, one: Phase, step: Step, two: Phase, facts: Facts)
    requires var now := Move(s, a, one);
             && Enabled(now, step) && Allowed(now, step, facts) && Share(now, step) == Move(now, a, two)
             && !step.Stage? && !step.SetStore? && !step.FailAttempt? && !step.Complete?
    ensures Takes(Move(s, a, one), step, Move(s, a, two), facts)
  {
    hide Enabled, Allowed, Share;
    Twice(s, a, one, two);
    NothingBooked(Move(s, a, one), step);
  }

  lemma OpensAndChecks(s: State, a: Agent, facts: Facts)
    requires PhaseOf(s, a).Idle? && HeadIsMaterialized(s, s.head)
    ensures Takes(s, Open(a, s.head), Move(s, a, Opened(s.head, s.head)), facts)
    ensures Takes(Move(s, a, Opened(s.head, s.head)), Check(a), Move(s, a, Checked(s.head)), facts)
  {
    NothingBooked(s, Open(a, s.head));
    PlainMove(s, a, Opened(s.head, s.head), Check(a), Checked(s.head), facts);
  }

  lemma ListsAndFinishes(s: State, a: Agent, facts: Facts)
    ensures Takes(Move(s, a, Checked(s.head)), ListTree(a), Move(s, a, AfterList(s, s.head)), facts)
    ensures Takes(Move(s, a, Listed(s.head, {}, s.tree)), FinishScan(a), Move(s, a, Scanned(s.head, s.tree)), facts)
  {
    PlainMove(s, a, Checked(s.head), ListTree(a), AfterList(s, s.head), facts);
    PlainMove(s, a, Listed(s.head, {}, s.tree), FinishScan(a), Scanned(s.head, s.tree), facts);
  }

  /** From checking the head to knowing the tree it stands for. */
  lemma ScanBack(s: State, a: Agent, rest: seq<Step>, end: State, facts: Facts) returns (steps: seq<Step>)
    requires PhaseOf(s, a).Idle? && HeadIsMaterialized(s, s.head)
    requires StepsTo(Move(s, a, Scanned(s.head, s.tree)), rest, end, facts)
    ensures StepsTo(s, steps, end, facts)
  {
    var at := AfterList(s, s.head);
    assert at.seen == s.tree - at.pending;
    OpensAndChecks(s, a, facts);
    ListsAndFinishes(s, a, facts);
    hide StepsTo, Takes, Move;
    steps := StepBack(Move(s, a, Listed(s.head, {}, s.tree)), FinishScan(a), Move(s, a, Scanned(s.head, s.tree)), rest, end, facts);
    steps := ReadFilesBack(s, a, s.head, at.pending, at.seen, steps, end, facts);
    steps := StepBack(Move(s, a, Checked(s.head)), ListTree(a), Move(s, a, at), steps, end, facts);
    steps := StepBack(Move(s, a, Opened(s.head, s.head)), Check(a), Move(s, a, Checked(s.head)), steps, end, facts);
    steps := StepBack(s, Open(a, s.head), Move(s, a, Opened(s.head, s.head)), steps, end, facts);
  }

  // ----- A commit is staged and published -----

  /** The state with the snapshot frozen, but for the agent's position. */
  function Staged(s: State, a: Agent, id: CommitId, snapshot: Snapshot): State {
    AddSnapshot(s, id, snapshot, false).(work := s.work[a := Work(id, false)])
  }

  /** What is needed to publish `local` as commit `id` from the head. */
  ghost predicate CanStage(s: State, a: Agent, local: Tree, id: CommitId, m: seq<StagedPath>) {
    FreshId(s, id) && ParentClosed(local) && Manifest(local, s.tree, StoreOf(s, a)) == Ok(m) && m != []
  }

  function SnapshotOf(s: State, a: Agent, local: Tree, m: seq<StagedPath>): Snapshot {
    Snapshot(s.head, m, local, StoreOf(s, a))
  }

  lemma Stages(s: State, a: Agent, local: Tree, id: CommitId, m: seq<StagedPath>, facts: Facts)
    requires CanStage(s, a, local, id, m)
    ensures Takes(Move(s, a, Scanned(s.head, s.tree)), Stage(a, local, StoreOf(s, a), id),
                  Move(Staged(s, a, id, SnapshotOf(s, a, local, m)), a, ReadyToPublish(id)), facts)
  {
    hide Manifest, ParentClosed;
    var now := Move(s, a, Scanned(s.head, s.tree));
    Twice(s, a, Scanned(s.head, s.tree), ReadyToPublish(id));
    assert StoreOf(now, a) == StoreOf(s, a);
    assert DirtyManifest(Scanned(s.head, s.tree), local, StoreOf(s, a)) == Some(m);
  }

  lemma ChecksAgain(s: State, a: Agent, id: CommitId, facts: Facts)
    requires id in s.snapshots && s.snapshots[id].base == s.head && HeadIsMaterialized(s, s.head) && HoldsLock(s, a)
    requires facts.AttemptsEnd? ==> forall b :: b in s.phases && b != a ==> !InFlight(s.phases[b])
    ensures Takes(Move(s, a, ReadyToPublish(id)), RereadHead(a), Move(s, a, Reread(id, s.head)), facts)
    ensures Takes(Move(s, a, Reread(id, s.head)), Verify(a), Move(s, a, Verified(id)), facts)
  {
    PlainMove(s, a, ReadyToPublish(id), RereadHead(a), Reread(id, s.head), facts);
    PlainMove(s, a, Reread(id, s.head), Verify(a), Verified(id), facts);
  }

  lemma WritesCommit(s: State, a: Agent, id: CommitId, facts: Facts)
    requires id in s.snapshots
    ensures Takes(Move(s, a, Verified(id)), WriteCommit(a), Move(AddCommit(s, id), a, Recorded(id)), facts)
  {
    var now := Move(s, a, Verified(id));
    Twice(AddCommit(s, id), a, Verified(id), Recorded(id));
    assert Enabled(now, WriteCommit(a)) && Allowed(now, WriteCommit(a), facts);
    NothingBooked(now, WriteCommit(a));
    assert AddCommit(now, id) == Move(AddCommit(s, id), a, Verified(id));
    hide Enabled, Allowed, Apply, AddCommit;
  }

  lemma WritesHead(s: State, a: Agent, id: CommitId, facts: Facts)
    ensures Takes(Move(s, a, Recorded(id)), WriteHead(a), Move(AddHead(s, id), a, Published(id)), facts)
  {
    var now := Move(s, a, Recorded(id));
    Twice(AddHead(s, id), a, Recorded(id), Published(id));
    assert Enabled(now, WriteHead(a)) && Allowed(now, WriteHead(a), facts);
    NothingBooked(now, WriteHead(a));
    assert AddHead(now, id) == Move(AddHead(s, id), a, Recorded(id));
    hide Enabled, Allowed, Apply, AddHead;
  }

  /** The lock once its holder has let go. */
  function LetGo(lock: HeadLock.State, mine: HeadLock.LockRecord): HeadLock.State {
    HeadLock.State(lock.clock, lock.legacyExpiry, map[], lock.phases[mine.owner := HeadLock.Outside], Some(mine))
  }

  lemma LetsGo(l: HeadLock.State, mine: HeadLock.LockRecord)
    ensures var step := HeadLock.Release(mine.owner);
            HeadLock.Enabled(Held(l, mine), step) && HeadLock.Apply(Held(l, mine), step) == LetGo(l, mine)
  {
    var a := mine.owner;
    PhasesTwice(l.phases, a, HeadLock.Inside(mine), HeadLock.Outside);
    assert map[mine.token := mine] - {mine.token} == map[];
  }

  lemma Releases(s: State, l: HeadLock.State, mine: HeadLock.LockRecord, id: CommitId, facts: Facts)
    requires s.lock == Held(l, mine) && id in s.commits
    ensures Takes(Move(s, mine.owner, Published(id)), LockStep(HeadLock.Release(mine.owner)),
                  Move(s.(lock := LetGo(l, mine)), mine.owner, Attempting(id, Script(s.commits[id].manifest))), facts)
  {
    LetsGo(l, mine);
    hide Script, HeadLock.Apply, HeadLock.Enabled, Held, LetGo;
    Twice(s.(lock := LetGo(l, mine)), mine.owner, Published(id), Attempting(id, Script(s.commits[id].manifest)));
    NothingBooked(Move(s, mine.owner, Published(id)), LockStep(HeadLock.Release(mine.owner)));
    hide Apply;
  }

  /** The state in which the agent has published and starts to carry its manifest out. */
  function AfterPublish(s: State, mine: HeadLock.LockRecord, id: CommitId, snapshot: Snapshot): State {
    var locked := Staged(s, mine.owner, id, snapshot).(lock := Held(s.lock, mine));
    Move(AddHead(AddCommit(locked, id), id).(lock := LetGo(s.lock, mine)), mine.owner, Attempting(id, Script(snapshot.manifest)))
  }

  /** An agent that finds the lock free and the head materialized publishes what it has. */
  lemma PublishBack(s: State, mine: HeadLock.LockRecord, local: Tree, id: CommitId, m: seq<StagedPath>, rest: seq<Step>,
      end: State, facts: Facts) returns (steps: seq<Step>)
    requires var a := mine.owner;
             PhaseOf(s, a).Idle? && HeadIsMaterialized(s, s.head) && Free(s.lock, mine) && CanStage(s, a, local, id, m)
    requires facts.AttemptsEnd? ==> NobodyInFlight(s)
    requires StepsTo(AfterPublish(s, mine, id, SnapshotOf(s, mine.owner, local, m)), rest, end, facts)
    ensures StepsTo(s, steps, end, facts)
  {
    var a, snapshot := mine.owner, SnapshotOf(s, mine.owner, local, m);
    var staged := Staged(s, a, id, snapshot);
    var locked := staged.(lock := Held(s.lock, mine));
    var written := AddCommit(locked, id);
    var published := AddHead(written, id);
    Releases(published, s.lock, mine, id, facts);
    WritesHead(written, a, id, facts);
    WritesCommit(locked, a, id, facts);
    ChecksAgain(locked, a, id, facts);
    Stages(s, a, local, id, m, facts);
    assert Move(staged, a, ReadyToPublish(id)).(lock := Held(s.lock, mine)) == Move(locked, a, ReadyToPublish(id));
    hide StepsTo, Takes, CanStage, Free, Held, LetGo, NobodyInFlight, HeadIsMaterialized, Script, AddCommit;
    steps := StepBack(Move(published, a, Published(id)), LockStep(HeadLock.Release(a)), AfterPublish(s, mine, id, snapshot), rest, end, facts);
    steps := StepBack(Move(written, a, Recorded(id)), WriteHead(a), Move(published, a, Published(id)), steps, end, facts);
    steps := StepBack(Move(locked, a, Verified(id)), WriteCommit(a), Move(written, a, Recorded(id)), steps, end, facts);
    steps := StepBack(Move(locked, a, Reread(id, s.head)), Verify(a), Move(locked, a, Verified(id)), steps, end, facts);
    steps := StepBack(Move(locked, a, ReadyToPublish(id)), RereadHead(a), Move(locked, a, Reread(id, s.head)), steps, end, facts);
    steps := AcquireBack(Move(staged, a, ReadyToPublish(id)), mine, steps, end, facts);
    steps := StepBack(Move(s, a, Scanned(s.head, s.tree)), Stage(a, local, StoreOf(s, a), id), Move(staged, a, ReadyToPublish(id)), steps, end, facts);
    steps := ScanBack(s, a, steps, end, facts);
  }

  // ----- An attempt is carried out -----

  lemma Calls(s: State, a: Agent, id: CommitId, ops: seq<Op>, facts: Facts)
    requires ops != [] && Exec(s.tree, ops[0]).Ok? && id in s.commits
    ensures Takes(Move(s, a, Attempting(id, ops)), Call(a), Move(s.(tree := Exec(s.tree, ops[0]).value), a, Attempting(id, ops[1..])), facts)
  {
    hide Exec;
    var now, next := Move(s, a, Attempting(id, ops)), s.(tree := Exec(s.tree, ops[0]).value);
    Twice(next, a, Attempting(id, ops), Attempting(id, ops[1..]));
    assert Enabled(now, Call(a)) && Allowed(now, Call(a), facts);
    NothingBooked(now, Call(a));
    hide Enabled, Allowed, Apply;
  }

  lemma {:induction false} CallsBack(s: State, a: Agent, id: CommitId, ops: seq<Op>, tree: Tree, rest: seq<Step>, end: State,
      facts: Facts) returns (steps: seq<Step>)
    requires Run(s.tree, ops) == Ok(tree) && id in s.commits
    requires StepsTo(Move(s.(tree := tree), a, Attempting(id, [])), rest, end, facts)
    ensures StepsTo(Move(s, a, Attempting(id, ops)), steps, end, facts)
    decreases |ops|
  {
    hide StepsTo, Takes, Exec;
    if ops == [] {
      assert s.(tree := tree) == s;
      steps := rest;
    } else {
      var next := s.(tree := Exec(s.tree, ops[0]).value);
      assert next.(tree := tree) == s.(tree := tree);
      steps := CallsBack(next, a, id, ops[1..], tree, rest, end, facts);
      Calls(s, a, id, ops, facts);
      steps := StepBack(Move(s, a, Attempting(id, ops)), Call(a), Move(next, a, Attempting(id, ops[1..])), steps, end, facts);
    }
  }

  /** The state once the agent's attempt is recorded as complete. */
  function AfterComplete(s: State, a: Agent, id: CommitId, tree: Tree): State
    requires id in s.commits
  {
    Move(s.(tree := tree, commits := s.commits[id := s.commits[id].(state := Materialized)],
            stores := s.stores[a := TrustAll(Ordered(s.commits[id].manifest), StoreOf(s, a))],
            work := AfterAttempt(s, a, id, true)), a, Idle)
  }

  lemma Completes(s: State, a: Agent, id: CommitId, tree: Tree, facts: Facts)
    requires id in s.commits
    ensures Takes(Move(s.(tree := tree), a, Attempting(id, [])), Complete(a), AfterComplete(s, a, id, tree), facts)
  {
    hide TrustAll, Ordered;
    var now := Move(s.(tree := tree), a, Attempting(id, []));
    assert s.phases[a := Attempting(id, [])][a := Idle] == s.phases[a := Idle];
    assert StoreOf(now, a) == StoreOf(s, a) && AfterAttempt(now, a, id, true) == AfterAttempt(s, a, id, true);
  }

  lemma AttemptBack(s: State, a: Agent, id: CommitId, ops: seq<Op>, tree: Tree, rest: seq<Step>, end: State,
      facts: Facts) returns (steps: seq<Step>)
    requires Run(s.tree, ops) == Ok(tree) && id in s.commits
    requires StepsTo(AfterComplete(s, a, id, tree), rest, end, facts)
    ensures StepsTo(Move(s, a, Attempting(id, ops)), steps, end, facts)
  {
    Completes(s, a, id, tree, facts);
    hide StepsTo, Takes, AfterComplete, Run;
    steps := StepBack(Move(s.(tree := tree), a, Attempting(id, [])), Complete(a), AfterComplete(s, a, id, tree), rest, end, facts);
    steps := CallsBack(s, a, id, ops, tree, steps, end, facts);
  }

  // ----- An agent can always commit -----

  /**
   * Progress: in a state of a run where the head is materialized, nobody is in flight and the lock directory is
   * empty, an idle agent with something to commit can make its working copy the materialized head, and is
   * then clean.
   */
  lemma AgentCanCommit(run: seq<State>, mine: HeadLock.LockRecord, local: Tree, id: CommitId, m: seq<StagedPath>)
    returns (longer: seq<State>)
    requires IsRun(run, AttemptsEnd)
    requires var s, a := run[|run| - 1], mine.owner;
             && PhaseOf(s, a).Idle? && HeadIsMaterialized(s, s.head) && NobodyInFlight(s)
             && Free(s.lock, mine) && CanStage(s, a, local, id, m)
    ensures IsRun(longer, AttemptsEnd) && run <= longer
    ensures var s, a := longer[|longer| - 1], mine.owner;
            && s.head == Some(id) && HeadIsMaterialized(s, s.head) && s.tree == local && NobodyInFlight(s)
            && DirtyPaths(local, s.tree, StoreOf(s, a)) == Ok([])
  {
    var s, a := run[|run| - 1], mine.owner;
    var snapshot := SnapshotOf(s, a, local, m);
    var published := AfterPublish(s, mine, id, snapshot);
    AppliedCommitIsClean(local, s.tree, StoreOf(s, a));
    var core := PublishedCore(s, mine, id, snapshot);
    var end := AfterComplete(core, a, id, local);
    EndIsRight(s, mine, id, local, m);
    hide StepsTo, Takes, CanStage, Free, AfterComplete, AfterPublish, PublishedCore, DirtyPaths, Script, IsRun;
    var steps := NoSteps(end, AttemptsEnd);
    steps := AttemptBack(core, a, id, Script(m), local, steps, end, AttemptsEnd);
    steps := PublishBack(s, mine, local, id, m, steps, end, AttemptsEnd);
    var more := StepsAreRun(s, steps, end, AttemptsEnd);
    longer := Joined(run, more);
  }

  lemma NoSteps(s: State, facts: Facts) returns (steps: seq<Step>)
    ensures StepsTo(s, steps, s, facts)
  {
    steps := [];
  }

  /** What has been published, but for the agent's position. */
  function PublishedCore(s: State, mine: HeadLock.LockRecord, id: CommitId, snapshot: Snapshot): State {
    var locked := Staged(s, mine.owner, id, snapshot).(lock := Held(s.lock, mine));
    AddHead(AddCommit(locked, id), id).(lock := LetGo(s.lock, mine))
  }

  lemma EndIsRight(s: State, mine: HeadLock.LockRecord, id: CommitId, local: Tree, m: seq<StagedPath>)
    ensures var a, snapshot := mine.owner, SnapshotOf(s, mine.owner, local, m);
            var core := PublishedCore(s, mine, id, snapshot);
            && id in core.commits && core.commits[id].manifest == m && core.tree == s.tree
            && AfterPublish(s, mine, id, snapshot) == Move(core, a, Attempting(id, Script(m)))
            && var end := AfterComplete(core, a, id, local);
               && end.head == Some(id) && HeadIsMaterialized(end, end.head) && end.tree == local
               && (NobodyInFlight(s) ==> NobodyInFlight(end))
               && StoreOf(end, a) == TrustAll(Ordered(m), StoreOf(s, a))
  {
    hide TrustAll, Ordered, Script;
  }

  lemma Joined(run: seq<State>, more: seq<State>) returns (longer: seq<State>)
    requires IsRun(run, AttemptsEnd) && more != [] && more[0] == run[|run| - 1]
    requires forall i :: 0 <= i < |more| - 1 ==> Next(more[i], more[i + 1], AttemptsEnd)
    ensures IsRun(longer, AttemptsEnd) && run <= longer && longer[|longer| - 1] == more[|more| - 1]
  {
    hide Next;
    longer := run + more[1..];
    forall i | 0 <= i < |longer| - 1 ensures Next(longer[i], longer[i + 1], AttemptsEnd) {
      if i >= |run| - 1 {
        var j := i - (|run| - 1);
        assert longer[i] == more[j] && longer[i + 1] == more[j + 1];
      } else {
        assert longer[i] == run[i] && longer[i + 1] == run[i + 1];
      }
    }
  }

  // ----- An attempt that outlives its head -----

  function OneFile(p: Path, x: Bytes): Tree {
    map[p := File(x)]
  }

  /** A file that may stand at the top of a tree. */
  ghost predicate TopLevel(p: Path) {
    ValidPath(p) && forall a :: !Under(p, a)
  }

  /** The tree holds nothing but a file at `p`, if anything, and not this content. */
  ghost predicate Lacks(t: Tree, p: Path, x: Bytes) {
    (forall q :: q in t ==> q == p && t[q].File?) && Get(t, p) != Some(File(x))
  }

  lemma {:induction false} WritesTwice(t: Tree, ops: seq<Op>, p: Path, x: Bytes)
    requires ops != [] && (forall op :: op in ops ==> op == WriteFile(p, x)) && forall q :: q in t ==> q == p && t[q].File?
    ensures Run(t, ops) == Ok(OneFile(p, x))
    decreases |ops|
  {
    assert ops[0] in ops && t[p := File(x)] == OneFile(p, x);
    assert Exec(t, ops[0]) == Ok(OneFile(p, x));
    if |ops| > 1 {
      assert forall op :: op in ops[1..] ==> op in ops;
      WritesTwice(OneFile(p, x), ops[1..], p, x);
    }
  }

  lemma {:induction false} OpsOfOneFile(entries: seq<StagedPath>, p: Path, x: Bytes)
    requires TopLevel(p) && forall e :: e in entries ==> e.path == p && e.op != Delete && e.StagedNode() == File(x)
    ensures forall op :: op in OpsOf(entries) ==> op == WriteFile(p, x)
    ensures entries != [] ==> OpsOf(entries) != []
  {
    if entries != [] {
      var e := entries[0];
      assert e in entries && forall f :: f in entries[1..] ==> f in entries;
      OpsOfOneFile(entries[1..], p, x);
      EmptyOrInhabited(Ancestors(p));
      assert EntryOps(e) == [WriteFile(p, x)];
    }
  }

  /** Carrying out a one-file manifest leaves that file, whatever content was there before. */
  lemma OneFileScript(m: seq<StagedPath>, base: Tree, p: Path, x: Bytes, t: Tree)
    requires TopLevel(p) && IsDiff(m, base, OneFile(p, x)) && Lacks(base, p, x)
    requires forall q :: q in t ==> q == p && t[q].File?
    ensures Run(t, Script(m)) == Ok(OneFile(p, x))
  {
    var deletes, creates := SortedDeletes(m), SortedCreates(m);
    forall e | e in m ensures e.path == p && e.op != Delete && e.StagedNode() == File(x) {
      assert Describes(e, base, OneFile(p, x));
    }
    EmptyOrInhabited(deletes);
    assert Get(base, p) != Get(OneFile(p, x), p);
    var e :| e in m && e.path == p;
    assert e in creates && deletes == [];
    OpsOfOneFile(creates, p, x);
    assert Script(m) == OpsOf(creates);
    WritesTwice(t, Script(m), p, x);
  }

  lemma OneFileManifest(base: Tree, p: Path, x: Bytes, store: map<Path, PathRecord>) returns (m: seq<StagedPath>)
    requires TopLevel(p) && Lacks(base, p, x) && TrustsTree(store, base) && forall q :: q in store ==> q == p
    ensures Manifest(OneFile(p, x), base, store) == Ok(m) && m != [] && IsDiff(m, base, OneFile(p, x))
    ensures ParentClosed(OneFile(p, x))
  {
    var local := OneFile(p, x);
    CollectableMeaning(local, base, store);
    ManifestIsTheDiff(local, base, store);
    m := Manifest(local, base, store).value;
    assert Get(base, p) != Get(local, p);
  }

  /** Recording a one-file commit gives a store that trusts that file and nothing else. */
  lemma RecordedOneFile(m: seq<StagedPath>, p: Path, x: Bytes)
    requires IsDiff(m, map[], OneFile(p, x))
    ensures TrustsTree(TrustAll(Ordered(m), map[]), OneFile(p, x))
    ensures forall q :: q in TrustAll(Ordered(m), map[]) ==> q == p
  {
    forall q ensures TrustedOutside(m, map[], map[], q) {
    }
    TrustAfterAttempt(m, map[], map[], OneFile(p, x));
    forall q | q in TrustAll(Ordered(m), map[]) ensures q == p {
      TrustAllKeys(Ordered(m), map[], q);
      OrderedMentions(m, q);
      var e :| e in m && e.path == q;
      assert Describes(e, map[], OneFile(p, x));
    }
  }

  function Beginning(): State {
    State(HeadLock.State(0, None, map[], map[], None), None, map[], map[], {}, map[], map[], map[], map[], [])
  }

  function LockOf(a: Agent, token: string): HeadLock.LockRecord {
    HeadLock.LockRecord(token, a, 0, HeadLock.HEAD_LOCK_TTL_MS)
  }

  /** Agent 0 has published its file and is about to write it. */
  function FirstPublished(m: seq<StagedPath>, p: Path, x: Bytes): State {
    var s := Beginning();
    Move(PublishedCore(s, LockOf(0, "1"), 1, SnapshotOf(s, 0, OneFile(p, x), m)), 0, Attempting(1, Script(m)))
  }

  /** Agent 1 has repaired the commit beside it. */
  function Repaired(m: seq<StagedPath>, p: Path, x: Bytes): (s: State)
    requires 1 in FirstPublished(m, p, x).commits
  {
    AfterComplete(FirstPublished(m, p, x), 1, 1, OneFile(p, x))
  }

  /** What has been published, field by field. */
  lemma CoreMeans(s: State, mine: HeadLock.LockRecord, id: CommitId, snapshot: Snapshot)
    ensures var core := PublishedCore(s, mine, id, snapshot);
            && core.head == Some(id) && core.history == s.history + [id] && core.tree == s.tree && core.phases == s.phases
            && core.commits == s.commits[id := CommitRecord(snapshot.base, snapshot.base, snapshot.manifest, Pending)]
            && core.snapshots == s.snapshots[id := snapshot] && core.proposals == s.proposals && core.stores == s.stores
            && core.lock == LetGo(s.lock, mine)
            && AfterPublish(s, mine, id, snapshot) == Move(core, mine.owner, Attempting(id, Script(snapshot.manifest)))
  {
    hide Script;
  }

  lemma FirstPublishedMeans(m: seq<StagedPath>, p: Path, x: Bytes)
    ensures var s := FirstPublished(m, p, x);
            && s.head == Some(1) && s.history == [1] && s.tree == map[] && s.proposals == {} && s.stores == map[]
            && s.phases == map[0 := Attempting(1, Script(m))] && s.commits == map[1 := CommitRecord(None, None, m, Pending)]
            && s.snapshots.Keys == {1} && s.lock == LetGo(Beginning().lock, LockOf(0, "1"))
            && AfterPublish(Beginning(), LockOf(0, "1"), 1, SnapshotOf(Beginning(), 0, OneFile(p, x), m)) == s
  {
    var s := Beginning();
    CoreMeans(s, LockOf(0, "1"), 1, SnapshotOf(s, 0, OneFile(p, x), m));
    hide Script, PublishedCore, AfterPublish, LetGo;
    assert s.history + [1] == [1];
  }

  lemma RepairedMeans(m: seq<StagedPath>, p: Path, x: Bytes)
    requires 1 in FirstPublished(m, p, x).commits
    ensures var s := Repaired(m, p, x);
            && s.head == Some(1) && s.history == [1] && s.tree == OneFile(p, x) && s.proposals == {}
            && s.phases == map[0 := Attempting(1, Script(m)), 1 := Idle]
            && s.commits == map[1 := CommitRecord(None, None, m, Materialized)] && s.snapshots.Keys == {1}
            && s.lock == LetGo(Beginning().lock, LockOf(0, "1")) && StoreOf(s, 1) == TrustAll(Ordered(m), map[])
  {
    FirstPublishedMeans(m, p, x);
    hide Script, FirstPublished, LetGo, TrustAll, Ordered;
  }

  lemma FreeAgain(token: string)
    requires StringLess("1", token)
    ensures Free(LetGo(Beginning().lock, LockOf(0, "1")), LockOf(1, token))
  {
    hide StringLess;
  }

  lemma RepairedCanStage(m: seq<StagedPath>, p: Path, x: Bytes, y: Bytes) returns (next: seq<StagedPath>)
    requires TopLevel(p) && x != y && IsDiff(m, map[], OneFile(p, x)) && 1 in FirstPublished(m, p, x).commits
    ensures CanStage(Repaired(m, p, x), 1, OneFile(p, y), 2, next) && IsDiff(next, OneFile(p, x), OneFile(p, y))
    ensures Free(Repaired(m, p, x).lock, LockOf(1, "2"))
  {
    hide Script, TrustAll, Ordered, Manifest, TrustsTree, IsDiff, Repaired, FirstPublished, Free, LetGo, OneFile, Lacks, StringLess,
         ParentClosed, TopLevel;
    RepairedMeans(m, p, x);
    RecordedOneFile(m, p, x);
    OneBeforeTwo();
    FreeAgain("2");
    LacksOther(p, x, y);
    next := OneFileManifest(OneFile(p, x), p, y, TrustAll(Ordered(m), map[]));
  }

  lemma OneBeforeTwo()
    ensures StringLess("1", "2")
  {
    assert "1"[0] < "2"[0];
  }

  lemma LacksOther(p: Path, x: Bytes, y: Bytes)
    requires x != y
    ensures Lacks(OneFile(p, x), p, y)
  {
  }

  lemma Repairs(s: State, b: Agent, id: CommitId)
    requires PhaseOf(s, b).Idle? && s.head == Some(id) && id in s.commits && id !in s.proposals && s.commits[id].state != Materialized
    ensures Takes(s, Repair(b), Move(s, b, Attempting(id, Script(s.commits[id].manifest))), LockOnly)
  {
    hide Script;
    assert Enabled(s, Repair(b)) && Allowed(s, Repair(b), LockOnly);
    NothingBooked(s, Repair(b));
  }

  lemma FirstCommitSteps(m: seq<StagedPath>, p: Path, x: Bytes, rest: seq<Step>, end: State) returns (steps: seq<Step>)
    requires TopLevel(p) && IsDiff(m, map[], OneFile(p, x)) && 1 in FirstPublished(m, p, x).commits
    requires CanStage(Beginning(), 0, OneFile(p, x), 1, m) && Free(Beginning().lock, LockOf(0, "1"))
    requires StepsTo(Repaired(m, p, x), rest, end, LockOnly)
    ensures StepsTo(Beginning(), steps, end, LockOnly)
  {
    var s, first := Beginning(), FirstPublished(m, p, x);
    FirstPublishedMeans(m, p, x);
    OneFileScript(m, map[], p, x, map[]);
    Repairs(first, 1, 1);
    hide StepsTo, Takes, CanStage, Free, AfterPublish, AfterComplete, FirstPublished, Script, Run, IsDiff, OneFile, LetGo;
    steps := AttemptBack(first, 1, 1, Script(m), OneFile(p, x), rest, end, LockOnly);
    steps := StepBack(first, Repair(1), Move(first, 1, Attempting(1, Script(m))), steps, end, LockOnly);
    steps := PublishBack(s, LockOf(0, "1"), OneFile(p, x), 1, m, steps, end, LockOnly);
  }

  /** Agent 1 has published and materialized the second commit. */
  function Straggling(s: State, next: seq<StagedPath>, p: Path, y: Bytes): State
    requires 2 in PublishedCore(s, LockOf(1, "2"), 2, SnapshotOf(s, 1, OneFile(p, y), next)).commits
  {
    AfterComplete(PublishedCore(s, LockOf(1, "2"), 2, SnapshotOf(s, 1, OneFile(p, y), next)), 1, 2, OneFile(p, y))
  }

  lemma StragglingMeans(s: State, m: seq<StagedPath>, next: seq<StagedPath>, p: Path, x: Bytes, y: Bytes)
    requires s.head == Some(1) && s.history == [1] && s.phases == map[0 := Attempting(1, Script(m)), 1 := Idle]
    requires s.commits == map[1 := CommitRecord(None, None, m, Materialized)]
    ensures var core := PublishedCore(s, LockOf(1, "2"), 2, SnapshotOf(s, 1, OneFile(p, y), next));
            2 in core.commits && core.commits[2].manifest == next && core.tree == s.tree
    ensures var last := Straggling(s, next, p, y);
            && last.head == Some(2) && last.history == [1, 2] && last.tree == OneFile(p, y) && HeadIsMaterialized(last, last.head)
            && last.phases == map[0 := Attempting(1, Script(m)), 1 := Idle]
            && 1 in last.commits && 2 in last.commits && last.commits[1].manifest == m && last.commits[2].manifest == next
  {
    hide Script, PublishedCore, AfterPublish, LetGo, TrustAll, Ordered, OneFile, StoreOf;
    CoreMeans(s, LockOf(1, "2"), 2, SnapshotOf(s, 1, OneFile(p, y), next));
    assert [1] + [2] == [1, 2];
  }

  lemma ReplayOfTwo(commits: map<CommitId, CommitRecord>, m: seq<StagedPath>, next: seq<StagedPath>, p: Path, x: Bytes, y: Bytes)
    requires 1 in commits && 2 in commits && commits[1].manifest == m && commits[2].manifest == next
    requires IsDiff(m, map[], OneFile(p, x)) && IsDiff(next, OneFile(p, x), OneFile(p, y))
    ensures Replay(commits, [1, 2]) == OneFile(p, y)
  {
    ApplyDiff(m, map[], OneFile(p, x));
    ApplyDiff(next, OneFile(p, x), OneFile(p, y));
    hide IsDiff, ApplyManifest, OneFile;
    assert [1, 2][..1] == [1] && [1][..0] == [];
    assert Replay(commits, []) == map[];
    assert Replay(commits, [1]) == OneFile(p, x);
  }

  lemma StaysAt(s: State, a: Agent, phase: Phase)
    requires a in s.phases && s.phases[a] == phase
    ensures Move(s, a, phase) == s
  {
    assert s.phases[a := phase] == s.phases;
  }

  lemma UnfinishedBack(last: State, ops: seq<Op>, tree: Tree) returns (steps: seq<Step>, end: State)
    requires 0 in last.phases && last.phases[0] == Attempting(1, ops) && 1 in last.commits && Run(last.tree, ops) == Ok(tree)
    ensures StepsTo(last, steps, end, LockOnly) && end == Move(last.(tree := tree), 0, Attempting(1, []))
  {
    StaysAt(last, 0, Attempting(1, ops));
    end := Move(last.(tree := tree), 0, Attempting(1, []));
    hide *;
    steps := NoSteps(end, LockOnly);
    steps := CallsBack(last, 0, 1, ops, tree, steps, end, LockOnly);
  }

  /** The first agent's call on the second commit's tree. */
  lemma StraggleBack(last: State, m: seq<StagedPath>, p: Path, x: Bytes, y: Bytes) returns (steps: seq<Step>, end: State)
    requires TopLevel(p) && IsDiff(m, map[], OneFile(p, x))
    requires PhaseOf(last, 0) == Attempting(1, Script(m)) && 0 in last.phases && 1 in last.commits && last.tree == OneFile(p, y)
    ensures StepsTo(last, steps, end, LockOnly)
    ensures end.head == last.head && end.commits == last.commits && end.history == last.history && end.tree == OneFile(p, x)
  {
    hide StepsTo, Script, Run, IsDiff, TopLevel;
    OneFileScript(m, map[], p, x, OneFile(p, y));
    hide OneFile, Lacks;
    steps, end := UnfinishedBack(last, Script(m), OneFile(p, x));
  }

  lemma SecondCommitSteps(s: State, m: seq<StagedPath>, next: seq<StagedPath>, p: Path, x: Bytes, y: Bytes)
    returns (steps: seq<Step>, end: State)
    requires TopLevel(p) && x != y && IsDiff(m, map[], OneFile(p, x)) && IsDiff(next, OneFile(p, x), OneFile(p, y))
    requires s.head == Some(1) && s.history == [1] && s.phases == map[0 := Attempting(1, Script(m)), 1 := Idle]
    requires s.commits == map[1 := CommitRecord(None, None, m, Materialized)] && s.tree == OneFile(p, x)
    requires CanStage(s, 1, OneFile(p, y), 2, next) && Free(s.lock, LockOf(1, "2"))
    ensures StepsTo(s, steps, end, LockOnly)
    ensures HeadIsMaterialized(end, end.head) && end.tree == OneFile(p, x) && Replay(end.commits, end.history) == OneFile(p, y)
  {
    hide StepsTo, CanStage, Free, AfterPublish, AfterComplete, PublishedCore, Script, IsDiff, LetGo, Replay, Straggling, Lacks;
    var snapshot := SnapshotOf(s, 1, OneFile(p, y), next);
    var core := PublishedCore(s, LockOf(1, "2"), 2, snapshot);
    StragglingMeans(s, m, next, p, x, y);
    CoreMeans(s, LockOf(1, "2"), 2, snapshot);
    var last := Straggling(s, next, p, y);
    ReplayOfTwo(last.commits, m, next, p, x, y);
    LacksOther(p, x, y);
    OneFileScript(next, OneFile(p, x), p, y, OneFile(p, x));
    hide OneFile, Run;
    steps, end := StraggleBack(last, m, p, x, y);
    StragglingIs(s, next, p, y);
    steps := AttemptBack(core, 1, 2, Script(next), OneFile(p, y), steps, end, LockOnly);
    steps := PublishBack(s, LockOf(1, "2"), OneFile(p, y), 2, next, steps, end, LockOnly);
  }

  lemma StragglingIs(s: State, next: seq<StagedPath>, p: Path, y: Bytes)
    requires 2 in PublishedCore(s, LockOf(1, "2"), 2, SnapshotOf(s, 1, OneFile(p, y), next)).commits
    ensures Straggling(s, next, p, y)
         == AfterComplete(PublishedCore(s, LockOf(1, "2"), 2, SnapshotOf(s, 1, OneFile(p, y), next)), 1, 2, OneFile(p, y))
  {
    hide AfterComplete, PublishedCore;
  }

  /**
   * Why attempts have to end before the next commit: with lock exclusion alone, a repair may complete beside the
   * author's attempt, the next commit be published and materialized, and the first attempt's call then put
   * the old content back under the materialized head.
   */
  lemma StragglerBreaksReplay(p: Path, x: Bytes, y: Bytes) returns (run: seq<State>)
    requires TopLevel(p) && x != y
    ensures IsRun(run, LockOnly)
    ensures var s := run[|run| - 1];
            HeadIsMaterialized(s, s.head) && s.tree == OneFile(p, x) && Replay(s.commits, s.history) == OneFile(p, y)
  {
    var m := OneFileManifest(map[], p, x, map[]);
    assert CanStage(Beginning(), 0, OneFile(p, x), 1, m) && Free(Beginning().lock, LockOf(0, "1")) && Init(Beginning());
    FirstPublishedMeans(m, p, x);
    RepairedMeans(m, p, x);
    var next := RepairedCanStage(m, p, x, y);
    hide StepsTo, CanStage, Free, Repaired, FirstPublished, Script, IsDiff, Replay, Next, OneFile, HeadIsMaterialized, LetGo, Init, Beginning;
    var steps, end := SecondCommitSteps(Repaired(m, p, x), m, next, p, x, y);
    steps := FirstCommitSteps(m, p, x, steps, end);
    run := StepsAreRun(Beginning(), steps, end, LockOnly);
  }
}
