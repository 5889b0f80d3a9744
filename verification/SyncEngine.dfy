/**
 * One round of the engine, from its plans through the worker pool to the store, is one round of the
 * run model at every path.
 */
module SyncEngine {
  import opened Wrappers
  import opened Versions
  import opened Trees
  import ScanCache
  import opened SyncPlan
  import opened SyncRuns
  import opened WorkerPool
  import opened SyncStore

  function NodeOf(content: Option<Bytes>): Option<Node> {
    if content.Some? then Some(File(content.value)) else None
  }

  /** The two trees hold, at a path, what the run model says the two sides hold. */
  ghost predicate Holds(sides: Sides, p: Path, ps: PathState) {
    Get(sides.local, p) == NodeOf(ps.local) && Get(sides.remote, p) == NodeOf(ContentOf(ps.remote))
  }

  /** Plan `i` of the round was made from what the run model knows about its path. */
  ghost predicate PlannedFrom(r: Round, i: nat, ps: PathState, mint: Version) {
    && i < |r.plans|
    && r.plans[i] == PlanPath(r.plans[i].path, ps.record, LocalEntry(ps), RemoteEntry(ps))
    && Holds(r.init, r.plans[i].path, ps)
    && r.tokens(i) == (if mint.Token? then Some(mint) else None)
  }

  lemma PlanIgnoresPath(p: Path, ps: PathState)
    ensures var plan := PlanPath(p, ps.record, LocalEntry(ps), RemoteEntry(ps));
            plan.ops == PlanOf(ps).ops && plan.spec == PlanOf(ps).spec && plan.path == p
  {
  }

  /** What is on a side at a path, as far as files go. */
  function FileOf(node: Option<Node>): Option<Bytes> {
    if node.Some? && node.value.File? then Some(node.value.content) else None
  }

  /** The two trees hold the files the run model says; a directory may have appeared where nothing was. */
  ghost predicate HoldsFiles(sides: Sides, p: Path, ps: PathState) {
    FileOf(Get(sides.local, p)) == ps.local && FileOf(Get(sides.remote, p)) == ContentOf(ps.remote)
  }

  lemma FinishesSequentially(r: Round, last: Pool)
    requires PlainRound(r) && Finishes(r, last)
    ensures last.sides == RunPlans(r, 0, r.init).0 && Returned(last) == RunPlans(r, 0, r.init).1
  {
    var run, schedule :| WorkerPool.IsRun(r, run, schedule) && run[|schedule|] == last && AllExited(last);
    hide WorkerPool.IsRun, PlainRound, AllExited, RunPlans, Returned;
    PoolIsSequential(r, run, schedule);
  }

  /**
   * Whatever the schedule, each file entry of a round, outside directories that are being removed, ends as in
   * the run model: with its plan done, the path and its record are those of a complete round; with its
   * transfer failed, the path is untouched.
   */
  lemma EngineRoundIsModelRound(r: Round, last: Pool, i: nat, ps: PathState, mint: Version)
    requires PlainRound(r) && Finishes(r, last)
    requires PlannedFrom(r, i, ps, mint) && MintFits(ps, mint) && Sheltered(r, i)
    ensures var p, plan, entries := r.plans[i].path, r.plans[i], Returned(last);
            var sides := last.sides;
            && |entries| == |r.plans| && entries[i].plan == plan
            && match entries[i].result
               case Ok(outcome) =>
                 && HoldsFiles(sides, p, RoundPath(ps, mint, Recorded)) && HoldsFiles(sides, p, RoundPath(ps, mint, Transferred))
                 && (Works(plan) || !WorkBeneath(r, i) ==> Holds(sides, p, SyncPath(ps, mint)))
                 && MaterializeRecord(plan.spec, outcome) == SyncPath(ps, mint).record
               case Err(_) => Holds(sides, p, ps)
  {
    hide PlainRound, Finishes, RunPlans, Returned, PlanPath, Sheltered, WorkBeneath;
    FinishesSequentially(r, last);
    PlanIgnoresPath(r.plans[i].path, ps);
    if Works(r.plans[i]) {
      PlannedOpIsAFileOp(ps);
      PoolDoesEachPlan(r, i);
      PoolSparesFailedPaths(r, i);
    } else {
      PoolSparesIdlePaths(r, i, LocalSide);
      PoolSparesIdlePaths(r, i, RemoteSide);
    }
  }

  function Execution(entries: seq<Entry>): (r: seq<Executed>)
    ensures |r| == |entries|
    ensures forall i :: 0 <= i < |entries| ==> r[i] == Executed(entries[i].plan, entries[i].result)
  {
    if entries == [] then [] else [Executed(entries[0].plan, entries[0].result)] + Execution(entries[1..])
  }

  lemma ReachedHolds(sides: Sides, p: Path, ps: PathState, mint: Version, result: Result<Outcome, ()>, reached: Reached)
    requires result.Ok? ==>
               HoldsFiles(sides, p, RoundPath(ps, mint, Recorded)) && HoldsFiles(sides, p, RoundPath(ps, mint, Transferred))
    requires result.Err? ==> Holds(sides, p, ps)
    requires reached == Untouched <==> result.Err?
    ensures HoldsFiles(sides, p, RoundPath(ps, mint, reached))
  {
    hide SyncPath, Transfer;
  }

  /** How far the store got at the path of plan `i`, and the record it leaves there. */
  lemma StoreReaches(executed: seq<Executed>, i: nat, before: Disk, scanned: ScanCache.Rows, after: ScanCache.After,
      now: Disk, ok: bool) returns (reached: Reached)
    requires DistinctPlanPaths(executed) && i < |executed|
    requires Wrote(before, Planned(executed, scanned, after).0, now, ok)
    ensures reached == Untouched <==> executed[i].result.Err?
    ensures Get(now.tables.records, executed[i].plan.path) ==
              if reached == Recorded then MaterializeRecord(executed[i].plan.spec, executed[i].result.value)
              else Get(before.tables.records, executed[i].plan.path)
    ensures Planned(executed, scanned, after).1.Ok? && ok ==> reached == Recorded
  {
    hide Wrote, RefreshAll, RoundWrites, DistinctPlanPaths, MaterializeRecord, Counted;
    if Failures(executed) != [] {
      ForgetWrites(before, Failures(executed), now, ok);
      reached := if executed[i].result.Ok? then Transferred else Untouched;
    } else {
      NoFailureMeansAllSucceed(executed);
      reached := Transferred;
      match RefreshAll(Successes(executed), after, scanned) {
        case Err(_) => WroteNothing(before);
        case Ok(renewed) =>
          var recorded := RoundWritesEachRecord(before, executed, renewed, now, ok);
          if i < recorded {
            reached := Recorded;
          }
      }
    }
  }

  /**
   * From the plans through the pool to the store: under any schedule, with any transfers failing and the
   * store's writes cut off anywhere, the round does to each such path and its record what a round of the
   * run model does that got some way there; all the way, when no transfer, refresh or write failed.
   */
  lemma StoredRoundIsModelRound(r: Round, last: Pool, i: nat, ps: PathState, mint: Version,
      before: Disk, scanned: ScanCache.Rows, after: ScanCache.After, now: Disk, ok: bool) returns (reached: Reached)
    requires PlainRound(r) && Finishes(r, last)
    requires PlannedFrom(r, i, ps, mint) && MintFits(ps, mint) && Sheltered(r, i)
    requires Get(before.tables.records, r.plans[i].path) == ps.record
    requires Wrote(before, Planned(Execution(Returned(last)), scanned, after).0, now, ok)
    ensures HoldsFiles(last.sides, r.plans[i].path, RoundPath(ps, mint, reached))
    ensures Get(now.tables.records, r.plans[i].path) == RoundPath(ps, mint, reached).record
    ensures Planned(Execution(Returned(last)), scanned, after).1.Ok? && ok ==> reached == Recorded
  {
    hide PlainRound, Finishes, Returned, PlanPath, Sheltered, WorkBeneath, Wrote, Planned, SyncPath, Transfer,
         DistinctPlanPaths, RunPlans, MaterializeRecord, HoldsFiles, Holds, MintFits, Works, Under;
    EngineRoundIsModelRound(r, last, i, ps, mint);
    FinishesSequentially(r, last);
    EntriesAreDistinct(r);
    TransferKeepsRecord(ps, mint);
    reached := StoreReaches(Execution(Returned(last)), i, before, scanned, after, now, ok);
    ReachedHolds(last.sides, r.plans[i].path, ps, mint, Returned(last)[i].result, reached);
  }

  lemma TransferKeepsRecord(ps: PathState, mint: Version)
    ensures Transfer(ps, mint).0.record == ps.record
  {
  }

  lemma ForgetWrites(before: Disk, failures: seq<Path>, now: Disk, ok: bool)
    requires Wrote(before, FailureWrites(failures), now, ok)
    ensures now.tables.records == before.tables.records && now.tables.rows == before.tables.rows
  {
    FailureWritesAreEvents(before.tables, failures, Done(before.left, |failures|));
  }

  lemma {:induction false} EntriesMatchPlans(r: Round, i: nat, s: Sides)
    requires i <= |r.plans| && forall j :: 0 <= j < |r.plans| ==> PlainPlan(r.plans[j])
    ensures var entries := RunPlans(r, i, s).1;
            |entries| == |r.plans| - i && forall k :: 0 <= k < |entries| ==> entries[k].plan == r.plans[i + k]
    decreases |r.plans| - i
  {
    hide RunCalls, PlainPlan;
    if i < |r.plans| {
      var (next, result) := RunCalls(r, i, s, 0, Outcome(None, None));
      var entries, rest := RunPlans(r, i, s).1, RunPlans(r, i + 1, next).1;
      assert entries == [Entry(i, r.plans[i], result)] + rest;
      EntriesMatchPlans(r, i + 1, next);
      hide RunPlans;
      forall k | 0 <= k < |entries| ensures entries[k].plan == r.plans[i + k] {
        if k > 0 {
          assert entries[k] == rest[k - 1];
        }
      }
    }
  }

  lemma EntriesAreDistinct(r: Round)
    requires PlainRound(r)
    ensures DistinctPlanPaths(Execution(RunPlans(r, 0, r.init).1))
  {
    PlansArePlain(r);
    hide PlainRound, PlainPlan, RunPlans, DistinctPlanPaths;
    DistinctPaths(r);
    EntriesMatchPlans(r, 0, r.init);
    DistinctExecution(r.plans, RunPlans(r, 0, r.init).1);
  }

  lemma PlansArePlain(r: Round)
    requires PlainRound(r)
    ensures forall j :: 0 <= j < |r.plans| ==> PlainPlan(r.plans[j])
  {
    hide PlainPlan, Independent;
  }

  lemma DistinctExecution(plans: seq<PathPlan>, entries: seq<Entry>)
    requires |entries| == |plans| && forall k :: 0 <= k < |entries| ==> entries[k].plan == plans[k]
    requires forall i, j :: 0 <= i < j < |plans| ==> plans[i].path != plans[j].path
    ensures DistinctPlanPaths(Execution(entries))
  {
  }

  lemma DistinctPaths(r: Round)
    requires PlainRound(r)
    ensures forall i, j :: 0 <= i < j < |r.plans| ==> r.plans[i].path != r.plans[j].path
  {
    hide Compatible, Works, Under, PlainPlan, Calls;
  }

  lemma PlannedOpIsAFileOp(ps: PathState)
    requires PlanOf(ps).ops != []
    ensures PlanOf(ps).ops[0] in {PullFile, PushFile, DeleteLocal(FileKind), DeleteRemote(FileKind)}
    ensures !(PlanOf(ps).ops == [CreateLocalDir] || PlanOf(ps).ops == [CreateRemoteDir])
    ensures PlanOf(ps).ops[0].DeleteLocal? || PlanOf(ps).ops[0].DeleteRemote? ==> PlanOf(ps).spec == RecordSpec.Remove
  {
  }

  // ----- The scan caches after a round -----

  /** What a true local scan shows at a path. */
  function ScannedAt(local: ScanCache.LocalWorld, p: Path): Option<ObservedEntry> {
    if p in local.tree then Some(ScanCache.TrueEntry(local, p)) else None
  }

  /** Plan `i` was made from a true scan of the local tree the round starts from. */
  ghost predicate PlannedFromScan(r: Round, i: nat, local: ScanCache.LocalWorld) {
    && i < |r.plans| && local.tree == r.init.local
    && var p := r.plans[i].path;
       exists previous, remote :: r.plans[i] == PlanPath(p, previous, ScannedAt(local, p), remote)
  }

  /** Inspecting a path after the transfers shows what the trees hold there. */
  ghost predicate Sees(after: ScanCache.After, sides: Sides) {
    && after.local.tree == sides.local
    && forall p :: p in after.remote.stats ==>
         p in sides.remote && after.remote.stats[p].kind == sides.remote[p].NodeKind()
         && (sides.remote[p].File? ==> p in after.remote.bodies && after.remote.bodies[p] == sides.remote[p].content)
  }

  /** A store that answers an upload with a token shows one afterwards. */
  ghost predicate TokensShown(r: Round, after: ScanCache.After) {
    forall i :: 0 <= i < |r.plans| && r.tokens(i).Some? && r.plans[i].path in after.remote.stats ==>
      after.remote.stats[r.plans[i].path].token.Some?
  }

  lemma PushedVersionIsTrue(r: Round, i: nat, local: ScanCache.LocalWorld)
    requires PlannedFromScan(r, i, local) && r.plans[i].ops == [PushFile]
    ensures var p, spec := r.plans[i].path, r.plans[i].spec;
            p in local.tree && local.tree[p].File? ==>
              spec.ReadyFromPushedLocal? && spec.localVersion == Some(Sha256(local.tree[p].content))
  {
  }

  /** The versions a successful plan reports are true of what then lies at its path. */
  lemma OutcomesAreSeen(r: Round, i: nat, local: ScanCache.LocalWorld, after: ScanCache.After)
    requires PlainRound(r) && PlannedFromScan(r, i, local)
    requires Sees(after, RunPlans(r, 0, r.init).0) && TokensShown(r, after)
    ensures var entries := RunPlans(r, 0, r.init).1;
            |entries| == |r.plans| && (entries[i].result.Ok? ==> ScanCache.OutcomeSeen(r.plans[i], entries[i].result.value, after))
  {
    hide RunPlans, Compatible, Calls, Sheltered, NothingUnder;
    EntriesMatchPlans(r, 0, r.init);
    assert PlainPlan(r.plans[i]);
    if r.plans[i].ops == [PullFile] {
      PoolDoesEachPlan(r, i);
    } else if r.plans[i].ops == [PushFile] {
      PoolDoesEachPlan(r, i);
      PushedVersionIsTrue(r, i, local);
    }
  }

  lemma SuccessesAreSeen(r: Round, last: Pool, local: ScanCache.LocalWorld, after: ScanCache.After)
    requires PlainRound(r) && Finishes(r, last) && forall i :: 0 <= i < |r.plans| ==> PlannedFromScan(r, i, local)
    requires Sees(after, last.sides) && TokensShown(r, after) && Failures(Execution(Returned(last))) == []
    ensures AllSeen(Successes(Execution(Returned(last))), after)
  {
    PlansArePlain(r);
    hide PlainRound, PlainPlan, Finishes, Returned, RunPlans, PlannedFromScan, Sees, TokensShown, ScanCache.OutcomeSeen, AllSeen;
    FinishesSequentially(r, last);
    EntriesMatchPlans(r, 0, r.init);
    var executed := Execution(Returned(last));
    forall i | 0 <= i < |executed| && executed[i].result.Ok?
      ensures ScanCache.OutcomeSeen(executed[i].plan, executed[i].result.value, after)
    {
      OutcomesAreSeen(r, i, local, after);
    }
    SeenWhereSuccessful(executed, after);
  }

  lemma SeenWhereSuccessful(executed: seq<Executed>, after: ScanCache.After)
    requires Failures(executed) == []
    requires forall i :: 0 <= i < |executed| && executed[i].result.Ok? ==>
               ScanCache.OutcomeSeen(executed[i].plan, executed[i].result.value, after)
    ensures AllSeen(Successes(executed), after)
  {
    NoFailureMeansAllSucceed(executed);
    hide Successes, Failures, ScanCache.OutcomeSeen;
  }

  /**
   * A round whose later inspection sees what its transfers left keeps every cached row valid, wherever its
   * writes stop.
   */
  lemma RoundRowsStayValid(r: Round, last: Pool, local: ScanCache.LocalWorld, before: Disk, scanned: ScanCache.Rows,
      after: ScanCache.After, now: Disk, ok: bool, localStamp: ScanCache.Stamp, remoteStamp: ScanCache.Stamp)
    requires PlainRound(r) && Finishes(r, last) && forall i :: 0 <= i < |r.plans| ==> PlannedFromScan(r, i, local)
    requires Sees(after, last.sides) && TokensShown(r, after)
    requires ScanCache.HonestLocal(after.local, localStamp) && ScanCache.HonestRemote(after.remote, remoteStamp)
    requires ScanCache.ValidRows(scanned, localStamp, remoteStamp) && ScanCache.ValidRows(before.tables.rows, localStamp, remoteStamp)
    requires Wrote(before, Planned(Execution(Returned(last)), scanned, after).0, now, ok)
    ensures ScanCache.ValidRows(now.tables.rows, localStamp, remoteStamp)
  {
    hide PlainRound, Finishes, Returned, RunPlans, PlannedFromScan, Sees, TokensShown, ScanCache.HonestLocal, ScanCache.HonestRemote,
         ScanCache.ValidRows, AllSeen, Wrote, RefreshAll, RoundWrites, Counted;
    var executed := Execution(Returned(last));
    var successes := Successes(executed);
    if Failures(executed) != [] {
      ForgetWrites(before, Failures(executed), now, ok);
    } else {
      match RefreshAll(successes, after, scanned) {
        case Err(_) => WroteNothing(before);
        case Ok(_) =>
          SuccessesAreSeen(r, last, local, after);
          RoundKeepsRowsValid(before, successes, after, scanned, now, ok, localStamp, remoteStamp);
      }
    }
  }
}
