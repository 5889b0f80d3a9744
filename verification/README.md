# Section: commits, sync, authority and caches, modelled and verified in Dafny

Section gives agents working copies of shared remote storage. This project models the parts of it whose
correctness spans many operations, and proves what they are for:

- **The AgentFS commit protocol** (`HeadLock`, `Staging`, `Materialize`, `Workspaces`, `CommitProtocol`,
  `ProtocolRuns`). Agents diff a working tree against the backing tree, freeze a manifest, take a head lock made
  of nothing but records in a directory, re-check, publish a commit and then the head, release, and carry the
  manifest out on the backing tree, recording each entry in their own stores. Each read or write of a shared
  file is one step, and so is each listing; any agent may stop between two steps. (`Repair` alone reads the head
  and its commit record in one step.)
- **Bidirectional sync** (`ScanCache`, `SyncPlan`, `WorkerPool`, `SyncStore`, `SyncRuns`, `SyncEngine`).
  Two scans, a three-way decision per path, a pool of workers sharing a queue, and a store that is written
  only after every transfer succeeded, in one transaction per record, event and scan table, any of which may
  be the first to fail.
- **Authority** (`Authority`, `ControlService`, `Glob`, `Wildcards`). Transactions on grants, shares and
  events, and path scopes with `*` and `**`.
- **Event streams** (`Events`): two event logs merged into one numbering that readers page through.
- **Fast forms** (`Delta`, `ContentCache`): a rolling checksum in 32-bit words and a byte-bounded LRU.

`Wrappers`, `Ordering`, `Strings`, `Versions` and `Trees` hold shared vocabulary: results, the string order
and a stable sort, string helpers, versions and sync records, and trees as maps from paths to nodes with
one operator call as one atomic effect. A SHA-256 digest is a constructor applied to the content, so equal
digests mean equal contents; a backend token also determines its content. Code that updates things step by
step in the source is a class or a method with a loop here, proved equal to a function that the lemmas are
about; protocols are state machines over their steps.

`dafny verify dfyconfig.toml` checks everything.

## What the environment must provide

- *Head lock.* The clock is read before the lock record is written, and the winner is the least
  (creation time, token). Exclusion therefore needs records to reach the directory in that order, and each
  attempt to end before its record expires. Neither fact can be spared, and the lemmas say exactly when its
  absence hurts. For any two locks of different agents and tokens: without the order both can be held at once
  exactly when the second is made before the first expires (`HeadLock.LateWriterBreaksExclusion`); without the
  time limit, exactly when it is made after the first has expired (`HeadLock.SlowHolderBreaksExclusion`).
- *Commits.* Commit ids are fresh and nobody writes the backing tree outside Section. With lock exclusion that is
  all the head history needs (`IsRun(run, LockOnly)`); repairs may start at any time.
- *The backing tree* is the replay of the chain if, besides, every attempt on the head has ended when the next
  commit passes its re-check (`IsRun(run, AttemptsEnd)`); attempts on one head, first or repairing, may overlap in
  any way. Nothing in the source ensures this, and it is needed: `ProtocolRuns.StragglerBreaksReplay` is a run in
  which a first attempt outlives its head and puts old content back under the next one. Repairs that
  wait for attempts under way are enough (`CommitProtocol.WaitingRepairsAreAlone`).
- *Sync.* Versions name contents, and a pushed file gets a version of the content it was pushed from.
- *Scan caches.* Files of equal size and modification time have equal content. When rows are refreshed, the
  inspection sees what the transfers left, and a store that answered an upload with a token shows one; that the
  versions a round reports are then true is derived (`SyncEngine.RoundRowsStayValid`).

## Properties that hold only under a condition

- Sync can lose a local edit. `SyncRuns.RunLosesExactlyWhenEndangered` says exactly where, over all runs: at
  the paths whose record already counts the edit as seen while the remote side has moved to something else.
  Only a conflict between two present contents that is left open until the next round leads there, because
  its record takes the new local version as the last one seen (`SyncRuns.OpenConflictLosesExactlyWhen`).
  Resolving those is enough (`SyncRuns.NoLostUpdate`); a conflict with one side absent may stay open.
- The plans of a round run side by side, and for any schedule the result is that of running them one after
  another, as long as nothing is transferred or made beneath a path that is itself being transferred or removed
  (entries with nothing to do may lie anywhere, directories may be made above anything, and removals may lie
  beneath anything). Otherwise there is a race: a new remote file inside a directory that was removed locally is
  pulled or removed, depending on who goes first. For such a pair, on any trees and under any outside failures,
  the two orders agree exactly when not both would succeed alone (`WorkerPool.RemovalRacesWithPull`), and when
  both would, two workers have two schedules that end differently (`WorkerPool.RacingSchedules`). That each plan
  is run once, that the list returned is in plan order and that the round ends holds for all rounds.
- Sync converges from every record, but not always to equal sides: `SyncRuns.PathConverges` shows that a path
  ends settled exactly when it does not start as a stale pair, and `SyncRuns.RevertedConflictGoesStale` shows
  how one arises (a conflict is recorded and the remote side then goes back to its old version).
- The greedy segment matcher is sound for every pattern. `Wildcards.GreedyIsExact` gives the exact values it
  misses (the last part occurs earlier in what is left), and `Wildcards.TrustworthyPatterns` the exact patterns
  for which it misses none: those that end in `*` or contain none. `*.rs` misses `a.rs.rs`.
- The merged event stream grows only at its end exactly when new events sort after all old ones
  (`Events.MergedGrowsAtEnd`), and its first events stay as they are exactly when new events sort after those
  (`Events.FirstEventsStay`). So a watcher gets each event once and in order exactly as long as nothing arrives
  that sorts before an event it was already given (`Events.DeliveredInOrder`); what arrives among events still to
  be handed out does no harm.
- The unchecked product in the rolling checksum can overflow a word exactly for windows longer than
  16,843,009 bytes (`Delta.OverflowBound`); the rolling identity itself holds for every length in wrapping
  arithmetic.

## Model

| member | source | states |
|---|---|---|
| `HeadLock.ActiveHeadLocks` | crates/sectiond/src/agentfs.rs:1400-1417 | the active locks are exactly the unexpired records, least (creation time, token) first |
| `HeadLock.MutualExclusion` | crates/sectiond/src/agentfs.rs:1328-1370 | in every state of every run, with losers' and crashed holders' records lying around, at most one agent is inside |
| `HeadLock.LateWriterBreaksExclusion` | crates/sectiond/src/agentfs.rs:1334-1354 | when records may arrive out of key order, some reachable state has two given locks held at once if and only if the later one was made before the earlier one expires |
| `HeadLock.SlowHolderBreaksExclusion` | crates/sectiond/src/agentfs.rs:1348-1358 | when holders may outlive their records, some reachable state has two given locks held at once if and only if the later one was made after the earlier one expired |
| `HeadLock.LeastActiveWins` | crates/sectiond/src/agentfs.rs:1353-1362 | the record that comes before every other active one wins |
| `Staging.CollectDirtyPaths` | crates/sectiond/src/control_plane.rs:3175-3233 | the loop computes the specified list, or the first error along the path order |
| `Staging.PrepareStagingSnapshot` | crates/sectiond/src/control_plane.rs:2652-2742 | the loop freezes one entry per dirty path, or fails at the first path that changed since |
| `Staging.CollectableMeaning` | crates/sectiond/src/control_plane.rs:3277-3353 | paths are clean one by one exactly when none is reserved, the backing tree is the trusted one and no path changes kind |
| `Staging.CollectableIffDirtyPaths` | crates/sectiond/src/control_plane.rs:3175-3233 | collecting succeeds exactly when every known path is clean |
| `Staging.ManifestIsTheDiff` | crates/sectiond/src/control_plane.rs:3175-3233 | collecting then staging succeeds exactly on clean inputs, and yields exactly the difference of the two trees, each path once |
| `Staging.EmptyDiffMeansEqual` | crates/sectiond/src/control_plane.rs:642-647 | an empty manifest means that the trees are equal |
| `Materialize.SortedDeletes` | crates/sectiond/src/control_plane.rs:3006-3030 | exactly the deletions of the manifest, deepest first |
| `Materialize.SortedCreates` | crates/sectiond/src/control_plane.rs:3032-3068 | exactly the creations and updates, directories first, then by path |
| `Materialize.NothingBeneath` | crates/sectiond/src/control_plane.rs:3006-3030 | when a deletion is due nothing lies beneath its path, so no path outside the manifest is removed |
| `Materialize.AncestorsPresent` | crates/sectiond/src/control_plane.rs:3082-3116 | when a creation is due every ancestor is present and is a directory |
| `Materialize.AttemptIsSafe` | crates/sectiond/src/control_plane.rs:2994-3080 | from any tree between base and target, no call fails, none touches a node off the manifest, and the target is reached |
| `Materialize.MaterializeIsExact` | crates/sectiond/src/control_plane.rs:2994-3080 | applying a diff to its base gives its target |
| `Materialize.RepairIsIdempotent` | crates/sectiond/src/control_plane.rs:1215-1312 | any number of attempts cut off anywhere, then a complete one, equal one uninterrupted attempt |
| `Materialize.TrustAfterAttempt` | crates/sectiond/src/control_plane.rs:3235-3275 | the recorded base after an attempt is the new backing tree |
| `Materialize.AppliedCommitIsClean` | crates/sectiond/src/control_plane.rs:602-850 | after a commit is applied, the next collection finds neither drift nor a dirty path |
| `Workspaces.Workspace.MaterializeStagedPath` | crates/sectiond/src/control_plane.rs:3089-3164 | one path's calls in order, stopping at the first failing one |
| `Workspaces.Workspace.MaterializeStagedCommit` | crates/sectiond/src/control_plane.rs:2994-3080 | tree and trusted base end as specified entry by entry, also on failure; the count is the manifest's length |
| `Workspaces.MaterializeReachesTarget` | crates/sectiond/src/control_plane.rs:2994-3080 | from the base or whatever an interrupted attempt left, the method's result is the target and a store that trusts it |
| `CommitProtocol.ApplyDiff` | crates/sectiond/src/control_plane.rs:2994-3080 | replaying a manifest that is a diff turns its base into its target |
| `CommitProtocol.StepExtendsHistory` | crates/sectiond/src/control_plane.rs:669-751 | whatever repairs do, a step publishes nothing, or one commit whose parent is the head it replaces |
| `CommitProtocol.StepKeepsInv` | crates/sectiond/src/control_plane.rs:602-790 | every step of apply, propose, accept, repair and the lock keeps the whole protocol invariant, the safety of every attempt under way included |
| `CommitProtocol.LinearHistory` | crates/sectiond/src/control_plane.rs:669-751 | in every reachable state, given lock exclusion and fresh ids alone, the parents lead from the head through exactly the published commits, and none drops out |
| `CommitProtocol.OnePublicationPerBase` | crates/sectiond/src/control_plane.rs:988-1056 | given the same, of all commits and accepted proposals from one base at most one is published |
| `CommitProtocol.TreeIsReplay` | crates/sectiond/src/control_plane.rs:2383-2410 | where attempts end before the next commit, with a materialized head the backing tree is the replay of all manifests of the chain; proper ancestors are always materialized |
| `CommitProtocol.AppliedHeadIsClean` | crates/sectiond/src/control_plane.rs:602-850 | over all runs, once an agent's own attempt on the commit it staged last is complete and while that commit is the materialized head, its working copy, unedited since, is clean against the backing tree and its store |
| `CommitProtocol.CompletingOwnWork` | crates/sectiond/src/control_plane.rs:754-790 | completing its own attempt puts an agent in that position |
| `CommitProtocol.AttemptsNeverClash` | crates/sectiond/src/control_plane.rs:754-779 | every attempt under way is on the head, and its remaining calls succeed and reach the replay, however many attempts overlap |
| `CommitProtocol.WaitingRepairsAreAlone` | crates/sectiond/src/control_plane.rs:1254-1268 | when repairs wait for attempts under way, at most one attempt is under way at any time, and every attempt has ended before the next commit |
| `Materialize.FurtherStaysSafe` | crates/sectiond/src/control_plane.rs:2994-3080 | an attempt stays safe whatever part of the same work another attempt has already done |
| `ProtocolRuns.AgentCanCommit` | crates/sectiond/src/control_plane.rs:602-850 | progress: from every reachable state at rest, an idle agent with something to commit can take the lock, publish and materialize it, and is then clean |
| `ProtocolRuns.StragglerBreaksReplay` | crates/sectiond/src/control_plane.rs:1254-1268 | with lock exclusion alone some run ends with a materialized head and another tree than the replay, for any path and any two contents |
| `SyncRuns.ThreeWayMerge` | crates/sectiond/src/sync/coordinator.rs:65-264 | a conflict exactly when both sides left what they agreed on and are not both gone; otherwise both end as the side that moved |
| `SyncRuns.PathRoundIsSafe` | crates/sectiond/src/sync/coordinator.rs:65-264 | from a record that says what was agreed, a round overwrites only that and leaves such a record, or a conflict |
| `SyncRuns.LosesExactlyWhenEndangered` | crates/sectiond/src/sync/coordinator.rs:111-264 | at one path, whatever its record, a round overwrites more than the agreed content exactly when the record counts a local edit as seen that the remote side never had, and the remote side moved elsewhere |
| `SyncRuns.OpenConflictLosesExactlyWhen` | crates/sectiond/src/sync.rs:1108-1129 | after a conflict left open, the next round loses the local edit exactly when both sides were present, the edit is still there and the remote side is neither back at its base nor equal |
| `SyncRuns.RunLosesExactlyWhenEndangered` | crates/sectiond/src/sync.rs:194-319 | the same over whole runs with no discipline at all, for rounds that got any way |
| `SyncRuns.ResolveTakesASide` | crates/sectiond/src/sync.rs:528-606 | resolving a conflict gives both sides the chosen content and an agreeing record; anything else is refused |
| `SyncRuns.RoundsArePathwise` | crates/sectiond/src/sync.rs:194-319 | a round acts on each path by itself |
| `SyncRuns.NoLostUpdate` | crates/sectiond/src/sync.rs:929-1154 | over whole runs that resolve conflicts between two present contents first, whatever a round overwrites or deletes is what both sides last agreed on |
| `SyncRuns.AgreedIsOnBothSides` | crates/sectiond/src/sync.rs:963-1106 | over all runs, after a recorded round without a conflict both sides hold the agreed content exactly when the path was no stale pair; after a resolve they always do |
| `SyncRuns.TwoRoundsQuieten` | crates/sectiond/src/sync/coordinator.rs:111-264 | from any record at all, two rounds leave nothing to do |
| `SyncRuns.PathConverges` | crates/sectiond/src/sync/coordinator.rs:111-264 | from the third round on nothing happens, and the path is settled exactly when it did not start as a stale pair |
| `SyncRuns.CarefulPathsAreNotStale` | crates/sectiond/src/sync.rs:1067-1089 | a path of a run that resolves edit conflicts first, with none open, is not a stale pair |
| `SyncRuns.RevertedConflictGoesStale` | crates/sectiond/src/sync.rs:1108-1129 | a conflict whose remote side goes back to its old version becomes one |
| `SyncRuns.RunConverges` | crates/sectiond/src/sync/coordinator.rs:111-264 | after such a run, quiet rounds end with equal sides or a locally edited, remotely deleted conflict |
| `SyncRuns.RetryReachesTheSame` | crates/sectiond/src/sync.rs:629-692 | after rounds that failed before writing records, quiet rounds reach the contents they would have reached without the failures |
| `SyncRuns.RetryOfRecordedRounds` | crates/sectiond/src/sync.rs:674-692 | when failures may also come while records are written, two quiet rounds do |
| `SyncRuns.WholeRetryReachesTheSame` | crates/sectiond/src/sync.rs:629-692 | both for the whole store, path by path |
| `SyncRuns.FailureStaysAhead` | crates/sectiond/src/sync.rs:659-672 | a round that fails before writing records never replaces the content of a path whose transfer already took effect |
| `WorkerPool.PlannedPathsArePlain` | crates/sectiond/src/sync/coordinator.rs:65-264 | every plan the coordinator makes, directories included, is one the pool model covers |
| `WorkerPool.Calls` | crates/sectiond/src/sync/transport.rs:126-208 | a plan's calls touch only its path and directories above it, and only the last one writes the path |
| `WorkerPool.WorkerCount` | crates/sectiond/src/sync.rs:400-407 | at least one worker, and never more than there are plans |
| `WorkerPool.NextCallIsTimeless` | crates/sectiond/src/sync/transport.rs:126-224 | a plan's next call does at any moment what it would have done at the start |
| `WorkerPool.EachPlanInOnePlace` | crates/sectiond/src/sync.rs:387-452 | for any coordinator-made plans, at every moment each plan is in exactly one of queue, worker and results, so it is popped and run once |
| `WorkerPool.ReturnedInPlanOrder` | crates/sectiond/src/sync.rs:466-478 | for any coordinator-made plans, once all workers have left, entry k of the list returned is plan k's, for every k |
| `WorkerPool.PoolIsSequential` | crates/sectiond/src/sync.rs:380-478 | for any worker count and schedule, the returned list is in plan order, and it and both trees are those of sequential execution |
| `WorkerPool.PoolDoesEachPlan` | crates/sectiond/src/sync/transport.rs:126-224 | each plan that succeeds ends with its transfer made and reported, its directory there, or its path gone with all beneath it |
| `WorkerPool.PoolSparesFailedPaths` | crates/sectiond/src/sync/transport.rs:126-224 | a plan that fails leaves its path as it was on both sides |
| `WorkerPool.PoolSparesIdlePaths` | crates/sectiond/src/sync.rs:380-478 | a path with nothing to do stays as it was, except that it may become a directory for the sake of work beneath it, or go with a directory above it |
| `WorkerPool.RemovalRacesWithPull` | crates/sectiond/src/sync/transport.rs:126-224 | for the removal of a remote directory and a pull from inside it, on any trees and under any outside failures, both orders give the same trees and results if and only if not both succeed alone |
| `WorkerPool.RacingSchedules` | crates/sectiond/src/sync.rs:380-478 | when both succeed alone, two workers have two schedules of the whole round that end with other trees or results |
| `WorkerPool.RoundEnds` | crates/sectiond/src/sync.rs:409-465 | for any coordinator-made plans, no schedule runs forever, and a worker that has not left can always move |
| `ScanCache.CollectLocal` | crates/sectiond/src/sync/collector.rs:117-182 | the visit builds the specified snapshot and counts |
| `ScanCache.CachedLocalScanIsFullScan` | crates/sectiond/src/sync/collector.rs:312-379 | with valid rows the snapshot is that of hashing everything, hits and misses add up, and the new rows are valid |
| `ScanCache.LocalScanIsTrue` | crates/sectiond/src/sync/collector.rs:117-182 | the snapshot holds exactly the visited paths outside `.section`, each with its true kind, digest, size and time |
| `ScanCache.CollectRemote` | crates/sectiond/src/sync/collector.rs:184-236 | the listing loop builds the specified snapshot, or stops at the first unreadable file |
| `ScanCache.ObservationIsTrue` | crates/sectiond/src/sync/collector.rs:381-467 | a cached observation has the file's true version, whether from listing, stat, cache or body |
| `ScanCache.CachedRemoteScanIsFullScan` | crates/sectiond/src/sync/collector.rs:381-467 | with valid rows the kinds and versions are those of the full scan, and the new rows are valid |
| `ScanCache.RemoteReadsAreCounted` | crates/sectiond/src/sync/collector.rs:404-467 | every file is answered from metadata or its body, and a cache never causes more stats or reads |
| `ScanCache.CachedRoundMakesTheSamePlans` | crates/sectiond/src/sync/collector.rs:238-259 | a round that trusts its caches makes exactly the plans of one that hashes everything |
| `ScanCache.RefreshCachedSnapshots` | crates/sectiond/src/sync.rs:747-797 | the loop over a plan's operations refreshes rows as specified, or fails |
| `ScanCache.RefreshKeepsValid` | crates/sectiond/src/sync.rs:747-901 | refreshing rows after transfers whose reported versions are true keeps every row valid |
| `SyncStore.Store.SplitResults` | crates/sectiond/src/sync.rs:639-664 | successes, failures, totals and failure events are exactly those of the executed plans |
| `SyncStore.Store.Persist` | crates/sectiond/src/sync.rs:706-729 | one path's record and then its events are written, up to the first write that fails |
| `SyncStore.Store.ApplyExecutedPathPlans` | crates/sectiond/src/sync.rs:629-692 | the store ends with exactly the planned writes up to the first that fails: only failure events after a failed transfer, nothing after a failed refresh, otherwise the whole round |
| `SyncStore.NoFailureMeansAllSucceed` | crates/sectiond/src/sync.rs:643-672 | the round is written exactly when every plan succeeded, and then each is carried over in order |
| `SyncStore.RoundWritesEachRecord` | crates/sectiond/src/sync.rs:674-690 | the round written up to any point gives the first paths the records their plans and transfers call for, and all other paths keep theirs; nothing is missing when no write failed |
| `SyncStore.RoundKeepsRowsValid` | crates/sectiond/src/sync.rs:674-745 | wherever the writes of a round stop, the rows left in the store are valid, given that the reported versions are true |
| `SyncEngine.EngineRoundIsModelRound` | crates/sectiond/src/sync.rs:194-319 | plans run by the pool under any schedule leave each path as a round of the run model does, and call for its record |
| `SyncEngine.StoredRoundIsModelRound` | crates/sectiond/src/sync.rs:194-319 | from plans through pool to store, with any schedule, any failing transfers and writes cut off anywhere, each path and its record are those of a model round that got some way there, and all the way when nothing failed |
| `SyncEngine.RoundRowsStayValid` | crates/sectiond/src/sync.rs:747-901 | reported versions are true when the inspection sees what the transfers left, so the rows stay valid from plans through pool to store, for any schedule |
| `Wildcards.MatchIffAligned` | crates/sectiond/src/agentfs.rs:598-613 | the recursive matcher decides exactly whether the items can be cut into one piece per pattern item |
| `Wildcards.SegmentMatches` | crates/sectiond/src/agentfs.rs:615-643 | the loop computes the greedy specification |
| `Wildcards.SplitKeepsMeaning` | crates/sectiond/src/agentfs.rs:625-628 | splitting a pattern at its stars keeps its meaning |
| `Wildcards.GreedyIsSound` | crates/sectiond/src/agentfs.rs:615-643 | what the greedy form accepts has a decomposition in which each star absorbs a substring |
| `Wildcards.GreedyIsComplete` | crates/sectiond/src/agentfs.rs:615-643 | by the leftmost-match exchange, it accepts all such values when the pattern ends in a star or has none |
| `Wildcards.GreedyIsExact` | crates/sectiond/src/agentfs.rs:625-642 | it differs from the meaning exactly when the last part is found too early |
| `Wildcards.TrustworthyPatterns` | crates/sectiond/src/agentfs.rs:615-643 | it decides the meaning of every value exactly for patterns that end in a star or have none |
| `Glob.SegmentsMatchIffAligned` | crates/sectiond/src/agentfs.rs:598-613 | `**` takes any number of segments, every other scope segment one segment it matches, in order |
| `Glob.ScopesNeverOvermatch` | crates/sectiond/src/agentfs.rs:588-613 | a scope never lets through a path it does not mean, and is exact when its segments are trustworthy |
| `Glob.MatchedPathScopes` | crates/sectiond/src/control_service.rs:2757-2774 | the nested loops compute the specified report |
| `Glob.ReportedScopes` | crates/sectiond/src/control_service.rs:2757-2774 | a report exists exactly when every path matches some scope; it has no duplicates, holds exactly the scopes that match some path, and covers every path |
| `Authority.ListMeaning` | crates/sectiond/src/control_service.rs:1346-1357 | the list holds each grant of the filesystem exactly once |
| `Authority.GrantEffect` | crates/sectiond/src/control_service.rs:1470-1584 | a successful grant passed every check, revoked the target's earlier grants and added exactly one |
| `Authority.RevokeEffect` | crates/sectiond/src/control_service.rs:1586-1644 | a successful revocation had something to revoke and leaves the target no active grant |
| `Authority.GrantedExactly` | crates/sectiond/src/control_service.rs:1478-1521 | a grant succeeds exactly for a manager, a known target other than the owner, a non-owner role and valid scopes, and to itself with commit only if it can commit |
| `Authority.RevokedExactlyWhen` | crates/sectiond/src/control_service.rs:1592-1640 | a revocation succeeds exactly for a manager and a non-owner target with an active role |
| `Authority.ShareMeans` | crates/sectiond/src/control_service.rs:1646-1704 | a share is made by a manager, for a known target, and names an active grant that lets the target read |
| `Authority.AcceptedExactly` | crates/sectiond/src/control_service.rs:1742-1812 | a share is accepted exactly by its target, before it expires and while the very grant it was made for is active |
| `Authority.StepEffect` | crates/sectiond/src/control_service.rs:1470-1812 | no request deletes a grant or share, changes a filesystem or revives anything; the invariant is kept |
| `Authority.AtMostOneActiveGrant` | crates/sectiond/src/control_service.rs:1520-1561 | in every reachable state an agent holds at most one active grant on a filesystem |
| `Authority.OwnerGrantStaysActive` | crates/sectiond/src/control_service.rs:1241-1248 | the owner of every filesystem holds an active owner's grant |
| `Authority.GrantsOnlyEverDie` | crates/sectiond/src/control_service.rs:1528-1560 | over all later requests a revoked grant stays as it is and an owner's is never revoked |
| `Authority.DeadSharesStayDead` | crates/sectiond/src/control_service.rs:1742-1812 | a share whose grant was replaced or revoked is never accepted again |
| `Authority.EventsNumberedFromOne` | crates/sectiond/src/control_service.rs:2217-2250 | each filesystem's events are numbered 1..n in writing order |
| `Authority.AuthorizedIffRoleHasIt` | crates/sectiond/src/control_service.rs:1434-1443 | a capability is authorized exactly when the active role has it |
| `Authority.PathsAuthorizedExactly` | crates/sectiond/src/control_service.rs:1869-1921 | a path authorization is given exactly to the owner or the holder of one active grant that covers every path, and reports that grant's scopes truly |
| `Authority.NoSelfEscalation` | crates/sectiond/src/control_service.rs:1513-1521 | nobody gains the right to commit on a filesystem by any run of requests of its own |
| `ControlService.ControlService.AuthorizeCapabilityForFs` | crates/sectiond/src/control_service.rs:1923-1952 | the loop finds the owner or the first grant with the capability |
| `ControlService.ControlService.AuthorizePathsForFs` | crates/sectiond/src/control_service.rs:1869-1921 | the loop finds the first grant that covers the paths, or tells a scope denial from a missing grant |
| `ControlService.ControlService.InsertEvent` | crates/sectiond/src/control_service.rs:2217-2250 | the event keeps its number, or gets the filesystem's next one if it brings none |
| `ControlService.ControlService.RevokeGrants` | crates/sectiond/src/control_service.rs:1525-1560 | the listed grants are revoked one by one with an event each, and both are returned, unless one is an owner's |
| `ControlService.ControlService.CreateFilesystem` | crates/sectiond/src/control_service.rs:1186-1275 | the tables are those of the specification, or untouched |
| `ControlService.ControlService.FsGrant` | crates/sectiond/src/control_service.rs:1470-1584 | the same for a grant: a failure anywhere rolls back; the answer holds the new grant, the revoked ones and the events written |
| `ControlService.ControlService.FsRevoke` | crates/sectiond/src/control_service.rs:1586-1644 | the same for a revocation, with the revoked grants and the events written |
| `ControlService.ControlService.FsShare` | crates/sectiond/src/control_service.rs:1646-1704 | the same for a share, which is returned as stored |
| `ControlService.ControlService.AcceptShare` | crates/sectiond/src/control_service.rs:1742-1812 | the same for accepting a share, which is returned as stored |
| `Events.MergedAgentfsEvents` | crates/sectiond/src/control_plane.rs:2146-2169 | the two loops compute the specified merge |
| `Events.MergedMeaning` | crates/sectiond/src/control_plane.rs:2146-2169 | one event per id, in (time, id) order, numbered 1..n, each an input event but for its number |
| `Events.MergeIgnoresOrderAndDuplicates` | crates/sectiond/src/control_plane.rs:2146-2169 | input order, duplicates and incoming numbers make no difference when copies agree |
| `Events.MergedGrowsAtEnd` | crates/sectiond/src/control_plane.rs:2158-2167 | the stream only grows at its end exactly when new events sort after all old ones |
| `Events.FirstEventsStay` | crates/sectiond/src/control_plane.rs:2158-2167 | the stream's first k events stay as they are exactly when every new event sorts after all of those |
| `Events.PageByNumber` | crates/sectiond/src/control_plane.rs:495-524 | a page after any number, passed as text, is exactly the next events, and none past the last |
| `Events.PageById` | crates/sectiond/src/control_plane.rs:2128-2144 | a page after an event id is exactly what follows that event |
| `Events.StepKeepsWatchInv` | crates/section-cli/src/cmd/watch.rs:71-93 | one poll hands out exactly the next events, and an arrival leaves what was handed out in place exactly when everything new sorts after it |
| `Events.DeliveredInOrder` | crates/section-cli/src/cmd/watch.rs:71-93 | over any interleaving of arrivals and polls, what was handed out is always the beginning of the stream, each event once, if and only if nothing arrives that sorts before something handed out |
| `Events.PollsCatchUp` | crates/section-cli/src/cmd/watch.rs:71-93 | with any positive page size enough polls deliver everything |
| `Delta.RollingHash.FromWindow` | crates/sectiond/src/sync/delta.rs:24-37 | the accumulating loop computes the two wrapped sums of the window |
| `Delta.RollingHash.Roll` | crates/sectiond/src/sync/delta.rs:43-52 | the fields move to the rolled state, and the value is returned |
| `Delta.WeightedForwards` | crates/sectiond/src/sync/delta.rs:27-31 | weighting each byte by its distance from the end, or summing all prefix sums, is the same |
| `Delta.RollMovesWindow` | crates/sectiond/src/sync/delta.rs:43-52 | one roll turns a window's checksum into that of the window one byte on, in wrapping arithmetic |
| `Delta.RollingIsFromWindow` | crates/sectiond/src/sync/delta.rs:24-52 | rolling across a buffer of any length equals recomputing at every offset |
| `Delta.WeakValues` | crates/sectiond/src/sync/delta.rs:24-52 | the object driven across a buffer yields every window's value |
| `Delta.ValueKeepsLowHalves` | crates/sectiond/src/sync/delta.rs:39-41 | two states have one value exactly when the low halves of both accumulators agree |
| `Delta.OverflowBound` | crates/sectiond/src/sync/delta.rs:27-31 | the unchecked product overflows for no window exactly up to 16,843,009 bytes |
| `Delta.SignaturesTile` | crates/sectiond/src/sync/delta.rs:55-70 | the signatures tile the bytes from start to end without gap or overlap |
| `Delta.BuildRemoteChunkSignatures` | crates/sectiond/src/sync/delta.rs:72-111 | the range-reading loop computes the specified reads, or stops at the first that fails |
| `Delta.RangeReadsAreChunks` | crates/sectiond/src/sync/delta.rs:88-111 | those reads yield exactly the signatures of the chunked bytes, or fail exactly when the read of some chunk does |
| `ContentCache.ContentCache.Get` | crates/section-core/src/cache.rs:160-168 | answers the list's entry and moves it to the most recently used end |
| `ContentCache.ContentCache.Put` | crates/section-core/src/cache.rs:174-203 | an oversized put changes nothing; otherwise the old entry goes, room is made and the new entry is last |
| `ContentCache.ContentCache.MakeRoom` | crates/section-core/src/cache.rs:190-198 | the eviction loop drops the least recently used entries until the rest fits |
| `ContentCache.ContentCache.Remove` | crates/section-core/src/cache.rs:206-211 | exactly that path goes |
| `ContentCache.ContentCache.RemovePrefix` | crates/section-core/src/cache.rs:214-225 | exactly the paths equal to or beneath the prefix go, whatever the iteration order |
| `ContentCache.EvictsShortestPrefix` | crates/section-core/src/cache.rs:190-198 | eviction takes exactly the shortest least-recently-used prefix that makes room |
| `ContentCache.OrderIsRecency` | crates/section-core/src/cache.rs:160-203 | after any calls the order runs from the entry used longest ago to the one used last |
| `ContentCache.OutsideMeaning` | crates/section-core/src/cache.rs:264-277 | removing a set of paths answers nothing for them and leaves every other answer |
| `ContentCache.GetIsLastFittingPut` | crates/section-core/src/cache.rs:146-255 | over any calls, paths stay distinct and bytes bounded, and a get answers nothing or the last put that fitted since the last removal |

## Left out

- Operators, SQLite, HTTP and RPC, file formats, the command line, FUSE and hooks: stores are maps, and each operator call is one atomic effect.
- Cryptography and random ids: digests are injective by construction, lock tokens and ids are parameters; an id already in a table is refused as its primary key would refuse it.
- The metadata cache with its time-to-live: `parent_dir` finds no parent for top-level paths, so a coherence claim for it would be false.
- Directory entries in the run model, and paths beneath a directory that is removed in the same round: the pool covers making and removing directories, but a path's round is stated by itself only where no directory above it goes.
- Edits between a scan and its transfers, and a transfer that breaks off in the middle of a file: a round is atomic per path. A pull cut off after some bytes leaves a file that the next round sees as a local edit.
- The inventory manifest that replaces a remote listing: it trusts versions handed in from outside.
- Normalisation of versions with and without the `sha256:` prefix, and of dot segments in paths: versions and paths are compared as given.
- Rules that protect paths and limit commits beyond scopes (`enforce_agentfs_rules`), summaries, hooks and the local marker files.
- Repair of proposal commits and accepting with no attached root: the manifest lies elsewhere and local-presence flags differ. `Repair` in the protocol is for commits made by apply.
- The status of the accepter's own working copy after `commit_accept`: its recorded base moves while its files do not, so clean status is stated for the agent that staged the commit.
- A second try to delete a lock record after a failed release: a record left behind until it expires is covered, deleting it later adds nothing.
- The single legacy lock file: kept only as an expiry that refuses new attempts.
- Looking a filesystem up by name or source name, source profiles and who may create from them, credentials, hooks, listing of available shares, and undoing a half-created filesystem (which deletes all its rows).
- The recursion of the local directory walk: the scan takes the entries in visiting order; the result does not depend on that order.
- Whitespace beyond blank, tab and line ends when trimming names, scopes and offsets.
- Wrap-around of 64-bit counters, sizes and offsets; event numbers are required to fit where text is parsed back.
- An edit between collecting dirty paths and staging them: the two are composed on one working copy, although the staging loop checks each path again.
- A recursive listing, and `Repair`'s reading of the head and its commit record, in more than one step.
- HeadLock.MutualExclusion: needs the two environment facts above, without which it is false.
- SyncRuns.NoLostUpdate: is stated for runs that resolve edit conflicts before the next round; the exact condition for any run is SyncRuns.RunLosesExactlyWhenEndangered.
- WorkerPool.PoolIsSequential: is stated for rounds in which nothing is transferred or made beneath a path that is being transferred or removed, because of the race that WorkerPool.RemovalRacesWithPull shows, and in which each removal inside a removed directory finds at the start what the scan saw there.
- WorkerPool.NextCallIsTimeless: is stated for the same rounds; in a race the next call does depend on the other plan.
- WorkerPool.PoolDoesEachPlan: is stated for the same rounds.
- WorkerPool.PoolSparesFailedPaths: is stated for the same rounds, and for paths with no removed directory above them.
- WorkerPool.PoolSparesIdlePaths: is stated for the same rounds.
- SyncEngine.EngineRoundIsModelRound: is stated for the same rounds, and for paths with no removed directory above them, whose files go with it.
- SyncEngine.StoredRoundIsModelRound: likewise.
- Workspaces.Workspace.MaterializeStagedCommit: does not model sync events, nor errors of reading frozen snapshots or of hashing what was written.
- ScanCache.CachedRemoteScanIsFullScan: compares kinds and versions, which are all that planning reads, and not sizes and times, which a cache may answer from another source.
- ControlService.ControlService.CreateFilesystem: does not model permission on the source profile or the check that the backing is empty.
- ControlService.ControlService.FsGrant: does not model the syntax check of agent ids.
- ControlService.ControlService.FsRevoke: does not model the syntax check of agent ids.
- ControlService.ControlService.FsShare: returns the share without the filesystem and source profile beside it.
- ControlService.ControlService.AcceptShare: does not issue a credential.
- Delta.BuildRemoteChunkSignatures: takes an object whose size is known; a failing `stat` ends before the loop.
