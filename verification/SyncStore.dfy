/**
 * The store a sync round writes: nothing but failure events unless every transfer of the round succeeded.
 * Each write is a transaction of its own, so a write that fails leaves exactly the writes before it.
 */
module SyncStore {
  import opened Wrappers
  import opened Versions
  import opened SyncPlan
  import opened ScanCache

  datatype StoreEvent = TransferFailed(path: Path) | PathEvent(path: Path, event: SyncEvent)

  datatype Executed = Executed(plan: PathPlan, result: Result<Outcome, ()>)

  datatype Totals = Totals(pulled: nat, pushed: nat, conflicts: nat, eventsEmitted: nat)

  datatype RoundError = TransportFailed(paths: seq<Path>) | RefreshFailed(error: ScanError) | StoreFailed

  datatype Tables = Tables(records: map<Path, PathRecord>, rows: Rows, events: seq<StoreEvent>)

  /** One transaction on the store. */
  datatype Write =
    | SetRecord(path: Path, record: Option<PathRecord>)
    | Append(event: StoreEvent)
    | ReplaceLocal(rows: map<Path, Row>)
    | ReplaceRemote(rows: map<Path, Row>)

  function WriteOne(t: Tables, write: Write): Tables {
    match write
    case SetRecord(p, Some(record)) => t.(records := t.records[p := record])
    case SetRecord(p, None) => t.(records := t.records - {p})
    case Append(event) => t.(events := t.events + [event])
    case ReplaceLocal(rows) => t.(rows := t.rows.(local := rows))
    case ReplaceRemote(rows) => t.(rows := t.rows.(remote := rows))
  }

  function WriteAll(t: Tables, writes: seq<Write>): Tables {
    if writes == [] then t else WriteOne(WriteAll(t, writes[..|writes| - 1]), writes[|writes| - 1])
  }

  lemma {:induction false} WriteAllConcat(t: Tables, a: seq<Write>, b: seq<Write>)
    ensures WriteAll(t, a + b) == WriteAll(WriteAll(t, a), b)
    decreases |b|
  {
    hide WriteOne;
    if b == [] {
      assert a + b == a;
    } else {
      assert (a + b)[..|a + b| - 1] == a + b[..|b| - 1];
      WriteAllConcat(t, a, b[..|b| - 1]);
    }
  }

  /** How many of `n` writes a store carries out that takes `left` more; `None` is no limit. */
  function Done(left: Option<nat>, n: nat): nat {
    if left.Some? && left.value < n then left.value else n
  }

  /** A store: its tables, and how many more writes it takes. */
  datatype Disk = Disk(tables: Tables, left: Option<nat>)

  /** The writes are carried out up to the first that fails, and `ok` says whether all were. */
  ghost predicate Wrote(before: Disk, writes: seq<Write>, after: Disk, ok: bool) {
    var n := Done(before.left, |writes|);
    && after.tables == WriteAll(before.tables, writes[..n])
    && after.left == (if before.left.Some? then Some(before.left.value - n) else None)
    && ok == (n == |writes|)
  }

  lemma WroteNothing(disk: Disk)
    ensures Wrote(disk, [], disk, true)
    ensures forall after, ok :: Wrote(disk, [], after, ok) ==> ok && after == disk
  {
  }

  lemma WroteMore(before: Disk, done: seq<Write>, mid: Disk, more: seq<Write>, after: Disk, ok: bool)
    requires Wrote(before, done, mid, true) && Wrote(mid, more, after, ok)
    ensures Wrote(before, done + more, after, ok)
  {
    hide WriteAll, WriteOne;
    var n, k := Done(before.left, |done + more|), Done(mid.left, |more|);
    assert done[..|done|] == done;
    WriteAllConcat(before.tables, done, more[..k]);
    assert n == |done| + k && (done + more)[..n] == done + more[..k];
  }

  /** After a failed write the ones that would have followed make no difference. */
  lemma WroteNoMore(before: Disk, writes: seq<Write>, after: Disk, longer: seq<Write>)
    requires Wrote(before, writes, after, false) && writes <= longer
    ensures Wrote(before, longer, after, false)
  {
    hide WriteAll, WriteOne;
    var n := Done(before.left, |writes|);
    assert longer[..n] == writes[..n];
  }

  datatype Success = Success(plan: PathPlan, outcome: Outcome)

  function Failures(executed: seq<Executed>): seq<Path> {
    if executed == [] then []
    else
      var last := executed[|executed| - 1];
      Failures(executed[..|executed| - 1]) + (if last.result.Err? then [last.plan.path] else [])
  }

  function Successes(executed: seq<Executed>): seq<Success> {
    if executed == [] then []
    else
      var last := executed[|executed| - 1];
      Successes(executed[..|executed| - 1]) + (if last.result.Ok? then [Success(last.plan, last.result.value)] else [])
  }

  function FailureWrites(paths: seq<Path>): (r: seq<Write>)
    ensures |r| == |paths|
  {
    if paths == [] then [] else FailureWrites(paths[..|paths| - 1]) + [Append(TransferFailed(paths[|paths| - 1]))]
  }

  /** Planned transfers and conflicts, counted over every plan whatever its result. */
  function Counted(executed: seq<Executed>): Totals {
    if executed == [] then Totals(0, 0, 0, 0)
    else
      var before, plan := Counted(executed[..|executed| - 1]), executed[|executed| - 1].plan;
      Totals(before.pulled + plan.pulled, before.pushed + plan.pushed, before.conflicts + plan.conflicts, 0)
  }

  function RefreshAll(successes: seq<Success>, after: After, rows: Rows): Result<Rows, ScanError> {
    if successes == [] then Ok(rows)
    else match RefreshAll(successes[..|successes| - 1], after, rows)
      case Err(e) => Err(e)
      case Ok(before) =>
        var last := successes[|successes| - 1];
        RefreshOps(last.plan.ops, last.plan, last.outcome, after, before)
  }

  function PersistOne(records: map<Path, PathRecord>, success: Success): map<Path, PathRecord> {
    match MaterializeRecord(success.plan.spec, success.outcome)
    case Some(record) => records[success.plan.path := record]
    case None => records - {success.plan.path}
  }

  function PersistAll(records: map<Path, PathRecord>, successes: seq<Success>): map<Path, PathRecord> {
    if successes == [] then records
    else PersistOne(PersistAll(records, successes[..|successes| - 1]), successes[|successes| - 1])
  }

  function EventWrites(path: Path, events: seq<SyncEvent>): (r: seq<Write>)
    ensures |r| == |events|
  {
    if events == [] then [] else EventWrites(path, events[..|events| - 1]) + [Append(PathEvent(path, events[|events| - 1]))]
  }

  /** One path's record, then its events. */
  function PathWrites(success: Success): (r: seq<Write>)
    ensures |r| == 1 + |success.plan.events|
  {
    [SetRecord(success.plan.path, MaterializeRecord(success.plan.spec, success.outcome))]
    + EventWrites(success.plan.path, success.plan.events)
  }

  function PersistWrites(successes: seq<Success>): seq<Write> {
    if successes == [] then [] else PersistWrites(successes[..|successes| - 1]) + PathWrites(successes[|successes| - 1])
  }

  function EventCount(successes: seq<Success>): nat {
    if successes == [] then 0
    else EventCount(successes[..|successes| - 1]) + |successes[|successes| - 1].plan.events|
  }

  function RowWrites(renewed: Rows): (r: seq<Write>)
    ensures |r| == 2
  {
    [ReplaceLocal(renewed.local), ReplaceRemote(renewed.remote)]
  }

  /** Path by path, then the scan rows. */
  function RoundWrites(successes: seq<Success>, renewed: Rows): seq<Write> {
    PersistWrites(successes) + RowWrites(renewed)
  }

  /** What the round of these results writes, and what it answers when every write succeeds. */
  function Planned(executed: seq<Executed>, scanned: Rows, after: After): (seq<Write>, Result<Totals, RoundError>) {
    var failures, successes := Failures(executed), Successes(executed);
    if failures != [] then (FailureWrites(failures), Err(TransportFailed(failures)))
    else match RefreshAll(successes, after, scanned)
      case Err(e) => ([], Err(RefreshFailed(e)))
      case Ok(renewed) =>
        (RoundWrites(successes, renewed), Ok(Counted(executed).(eventsEmitted := EventCount(successes))))
  }

  lemma {:induction false} PersistWritesPrefix(successes: seq<Success>, k: nat)
    requires k <= |successes|
    ensures PersistWrites(successes[..k]) <= PersistWrites(successes)
    decreases |successes|
  {
    hide PathWrites;
    if k == |successes| {
      assert successes[..k] == successes;
    } else {
      var front := successes[..|successes| - 1];
      assert front[..k] == successes[..k];
      PersistWritesPrefix(front, k);
    }
  }

  lemma {:induction false} FailureWritesPrefix(executed: seq<Executed>, k: nat)
    requires k <= |executed|
    ensures FailureWrites(Failures(executed[..k])) <= FailureWrites(Failures(executed))
    decreases |executed|
  {
    if k == |executed| {
      assert executed[..k] == executed;
    } else {
      var front := executed[..|executed| - 1];
      assert front[..k] == executed[..k];
      FailureWritesPrefix(front, k);
      if executed[|executed| - 1].result.Err? {
        assert Failures(executed)[..|Failures(front)|] == Failures(front);
        assert FailureWrites(Failures(front)) <= FailureWrites(Failures(executed));
      } else {
        assert Failures(executed) == Failures(front);
      }
    }
  }

  lemma {:induction false} RefreshErrorStays(successes: seq<Success>, k: nat, after: After, rows: Rows)
    requires k <= |successes| && RefreshAll(successes[..k], after, rows).Err?
    ensures RefreshAll(successes, after, rows) == RefreshAll(successes[..k], after, rows)
    decreases |successes|
  {
    if k == |successes| {
      assert successes[..k] == successes;
    } else {
      var front := successes[..|successes| - 1];
      assert front[..k] == successes[..k];
      RefreshErrorStays(front, k, after, rows);
    }
  }

  lemma {:induction false} EventWriteAt(path: Path, events: seq<SyncEvent>, i: nat)
    requires i < |events|
    ensures EventWrites(path, events)[i] == Append(PathEvent(path, events[i]))
    decreases |events|
  {
    if i < |events| - 1 {
      EventWriteAt(path, events[..|events| - 1], i);
    }
  }

  // Sorting the results one by one.

  lemma NothingSplit()
    ensures Failures([]) == [] && Successes([]) == [] && Counted([]) == Totals(0, 0, 0, 0) && FailureWrites([]) == []
  {
  }

  lemma OneMore(executed: seq<Executed>, i: nat)
    requires i < |executed|
    ensures var plan, result := executed[i].plan, executed[i].result;
            var counted := Counted(executed[..i]);
            && Failures(executed[..i + 1]) == Failures(executed[..i]) + (if result.Err? then [plan.path] else [])
            && Successes(executed[..i + 1]) == Successes(executed[..i]) + (if result.Ok? then [Success(plan, result.value)] else [])
            && Counted(executed[..i + 1]) == Totals(counted.pulled + plan.pulled, counted.pushed + plan.pushed,
                                                    counted.conflicts + plan.conflicts, 0)
  {
    assert executed[..i + 1][..i] == executed[..i];
  }

  lemma OneMoreFailure(failures: seq<Path>, p: Path)
    ensures FailureWrites(failures + [p]) == FailureWrites(failures) + [Append(TransferFailed(p))]
  {
    assert (failures + [p])[..|failures|] == failures;
  }

  class Store {
    var records: map<Path, PathRecord>
    var rows: Rows
    var events: seq<StoreEvent>
    /** How many more writes succeed; `None` when none fails. */
    var left: Option<nat>

    constructor (records: map<Path, PathRecord>, rows: Rows, left: Option<nat>)
      ensures Contents() == Disk(Tables(records, rows, []), left)
    {
      this.records := records;
      this.rows := rows;
      this.events := [];
      this.left := left;
    }

    ghost function Contents(): Disk
      reads this
    {
      Disk(Tables(records, rows, events), left)
    }

    /** One transaction: done as a whole, or refused. */
    method Commit(write: Write) returns (ok: bool)
      modifies this
      ensures Wrote(old(Contents()), [write], Contents(), ok)
    {
      assert [write][..0] == [];
      if left == Some(0) {
        return false;
      }
      match write {
        case SetRecord(p, Some(record)) => records := records[p := record];
        case SetRecord(p, None) => records := records - {p};
        case Append(event) => events := events + [event];
        case ReplaceLocal(local) => rows := rows.(local := local);
        case ReplaceRemote(remote) => rows := rows.(remote := remote);
      }
      left := if left.Some? then Some(left.value - 1) else None;
      ok := true;
    }

    /** Sort the results of a round; each failure is reported at once. */
    method SplitResults(executed: seq<Executed>)
      returns (ok: bool, failures: seq<Path>, successes: seq<Success>, totals: Totals)
      modifies this
      ensures Wrote(old(Contents()), FailureWrites(Failures(executed)), Contents(), ok)
      ensures ok ==> failures == Failures(executed) && successes == Successes(executed)
                     && totals == Counted(executed).(eventsEmitted := |failures|)
    {
      hide Wrote, Failures, Successes, Counted, FailureWrites;
      ghost var before := Contents();
      WroteNothing(before);
      NothingSplit();
      ok, failures, successes, totals := true, [], [], Totals(0, 0, 0, 0);
      var i := 0;
      while i < |executed|
        invariant 0 <= i <= |executed|
        invariant failures == Failures(executed[..i]) && successes == Successes(executed[..i])
        invariant totals == Counted(executed[..i]).(eventsEmitted := |failures|)
        invariant Wrote(before, FailureWrites(failures), Contents(), true)
      {
        var plan, result := executed[i].plan, executed[i].result;
        OneMore(executed, i);
        totals := totals.(pulled := totals.pulled + plan.pulled, pushed := totals.pushed + plan.pushed,
                          conflicts := totals.conflicts + plan.conflicts);
        match result {
          case Ok(outcome) =>
            successes := successes + [Success(plan, outcome)];
          case Err(_) =>
            ghost var mid := Contents();
            ghost var more := failures + [plan.path];
            OneMoreFailure(failures, plan.path);
            ok := Commit(Append(TransferFailed(plan.path)));
            WroteMore(before, FailureWrites(failures), mid, [Append(TransferFailed(plan.path))], Contents(), ok);
            if !ok {
              FailureWritesPrefix(executed, i + 1);
              WroteNoMore(before, FailureWrites(more), Contents(), FailureWrites(Failures(executed)));
              return;
            }
            totals := totals.(eventsEmitted := totals.eventsEmitted + 1);
            failures := failures + [plan.path];
        }
        i := i + 1;
      }
      assert executed[..i] == executed;
      ok := true;
    }

    /** One path's record and events. */
    method Persist(success: Success, emitted: nat) returns (ok: bool, total: nat)
      modifies this
      ensures Wrote(old(Contents()), PathWrites(success), Contents(), ok)
      ensures ok ==> total == emitted + |success.plan.events|
    {
      hide Wrote;
      ghost var before, writes := Contents(), PathWrites(success);
      var p, list := success.plan.path, success.plan.events;
      total := emitted;
      ok := Commit(SetRecord(p, MaterializeRecord(success.plan.spec, success.outcome)));
      if !ok {
        WroteNoMore(before, writes[..1], Contents(), writes);
        return;
      }
      var i := 0;
      while i < |list|
        invariant 0 <= i <= |list| && total == emitted + i
        invariant Wrote(before, writes[..1 + i], Contents(), true)
      {
        ghost var mid := Contents();
        EventWriteAt(p, list, i);
        assert writes[..1 + (i + 1)] == writes[..1 + i] + [writes[1 + i]];
        ok := Commit(Append(PathEvent(p, list[i])));
        WroteMore(before, writes[..1 + i], mid, [writes[1 + i]], Contents(), ok);
        if !ok {
          WroteNoMore(before, writes[..1 + (i + 1)], Contents(), writes);
          return;
        }
        total := total + 1;
        i := i + 1;
      }
      assert writes[..1 + i] == writes;
      ok := true;
    }

    /** The local rows, then the remote ones. */
    method ReplaceScanSnapshots(renewed: Rows) returns (ok: bool)
      modifies this
      ensures Wrote(old(Contents()), RowWrites(renewed), Contents(), ok)
    {
      hide Wrote;
      ghost var before, writes := Contents(), RowWrites(renewed);
      assert writes == [writes[0]] + [writes[1]];
      ok := Commit(ReplaceLocal(renewed.local));
      if !ok {
        WroteNoMore(before, [writes[0]], Contents(), writes);
        return;
      }
      ghost var mid := Contents();
      ok := Commit(ReplaceRemote(renewed.remote));
      WroteMore(before, [writes[0]], mid, [writes[1]], Contents(), ok);
    }

    /**
     * The store ends with the planned writes, in order, up to the first that fails: nothing but failure
     * events after a failed transfer, nothing after a row that cannot be refreshed, and otherwise the whole
     * round.
     */
    method ApplyExecutedPathPlans(executed: seq<Executed>, scanned: Rows,
        after: After) returns (r: Result<Totals, RoundError>)
      modifies this
      ensures var (writes, answer) := Planned(executed, scanned, after);
              Wrote(old(Contents()), writes, Contents(), r != Err(StoreFailed)) && (r == answer || r == Err(StoreFailed))
    {
      hide RefreshOps, PathWrites, Failures, Successes, Counted, Wrote, RowWrites;
      ghost var before := Contents();
      WroteNothing(before);
      var ok, failures, successes, totals := SplitResults(executed);
      if !ok {
        return Err(StoreFailed);
      }
      if failures != [] {
        return Err(TransportFailed(failures));
      }
      var renewed := scanned;
      var i := 0;
      while i < |successes|
        invariant 0 <= i <= |successes|
        invariant RefreshAll(successes[..i], after, scanned) == Ok(renewed)
        invariant Contents() == before
      {
        assert successes[..i + 1][..i] == successes[..i];
        var refreshed := RefreshCachedSnapshots(successes[i].plan, successes[i].outcome, after, renewed);
        if refreshed.Err? {
          RefreshErrorStays(successes, i + 1, after, scanned);
          return Err(RefreshFailed(refreshed.error));
        }
        renewed := refreshed.value;
        i := i + 1;
      }
      assert successes[..i] == successes;
      i := 0;
      while i < |successes|
        invariant 0 <= i <= |successes|
        invariant Wrote(before, PersistWrites(successes[..i]), Contents(), true)
        invariant totals == Counted(executed).(eventsEmitted := EventCount(successes[..i]))
      {
        ghost var done, more, mid := PersistWrites(successes[..i]), PathWrites(successes[i]), Contents();
        assert successes[..i + 1][..i] == successes[..i];
        var emitted;
        ok, emitted := Persist(successes[i], totals.eventsEmitted);
        WroteMore(before, done, mid, more, Contents(), ok);
        if !ok {
          PersistWritesPrefix(successes, i + 1);
          WroteNoMore(before, done + more, Contents(), RoundWrites(successes, renewed));
          return Err(StoreFailed);
        }
        totals := totals.(eventsEmitted := emitted);
        i := i + 1;
      }
      assert successes[..i] == successes;
      ghost var mid := Contents();
      ok := ReplaceScanSnapshots(renewed);
      WroteMore(before, PersistWrites(successes), mid, RowWrites(renewed), Contents(), ok);
      if !ok {
        return Err(StoreFailed);
      }
      r := Ok(totals);
    }
  }

  // ----- What a round writes -----

  ghost predicate DistinctPlanPaths(executed: seq<Executed>) {
    forall i, j :: 0 <= i < j < |executed| ==> executed[i].plan.path != executed[j].plan.path
  }

  /** Nothing failed exactly when every plan succeeded, and then each is carried over in order. */
  lemma {:induction false} NoFailureMeansAllSucceed(executed: seq<Executed>)
    ensures Failures(executed) == [] <==> forall i :: 0 <= i < |executed| ==> executed[i].result.Ok?
    ensures Failures(executed) == [] ==> |Successes(executed)| == |executed|
    ensures Failures(executed) == [] ==>
              forall i :: 0 <= i < |executed| ==> Successes(executed)[i] == Success(executed[i].plan, executed[i].result.value)
  {
    if executed != [] {
      var n := |executed| - 1;
      NoFailureMeansAllSucceed(executed[..n]);
      assert forall i :: 0 <= i < n ==> executed[..n][i] == executed[i];
      if Failures(executed[..n]) == [] && executed[n].result.Ok? {
        assert Successes(executed) == Successes(executed[..n]) + [Success(executed[n].plan, executed[n].result.value)];
      }
    }
  }

  lemma {:induction false} UntouchedRecordStays(records: map<Path, PathRecord>, successes: seq<Success>, p: Path)
    requires forall i :: 0 <= i < |successes| ==> successes[i].plan.path != p
    ensures Get(PersistAll(records, successes), p) == Get(records, p)
  {
    hide MaterializeRecord;
    if successes != [] {
      var n := |successes| - 1;
      assert successes[n].plan.path != p;
      UntouchedRecordStays(records, successes[..n], p);
    }
  }

  /** Later paths never touch an earlier path's record. */
  lemma {:induction false} LastRecordStays(records: map<Path, PathRecord>, successes: seq<Success>, i: nat)
    requires i < |successes| && forall j :: i < j < |successes| ==> successes[j].plan.path != successes[i].plan.path
    ensures Get(PersistAll(records, successes), successes[i].plan.path) == MaterializeRecord(successes[i].plan.spec, successes[i].outcome)
    decreases |successes|
  {
    hide MaterializeRecord;
    var n := |successes| - 1;
    if i < n {
      assert successes[n].plan.path != successes[i].plan.path && successes[..n][i] == successes[i];
      LastRecordStays(records, successes[..n], i);
    }
  }

  /** A path's record is its first write; the events after it touch nothing else. */
  lemma {:induction false} PathWritesRecord(t: Tables, success: Success, k: nat)
    requires 1 <= k <= |PathWrites(success)|
    ensures WriteAll(t, PathWrites(success)[..k]).records == PersistOne(t.records, success)
    ensures WriteAll(t, PathWrites(success)[..k]).rows == t.rows
  {
    var writes := PathWrites(success);
    if k > 1 {
      PathWritesRecord(t, success, k - 1);
      EventWriteAt(success.plan.path, success.plan.events, k - 2);
      assert writes[k - 1].Append?;
      assert writes[..k][..k - 1] == writes[..k - 1];
    } else {
      assert writes[..1][..0] == [];
    }
  }

  /** The first `n` of the persist writes carry over the records of the first paths. */
  lemma {:induction false} PersistWritesRecords(t: Tables, successes: seq<Success>, n: nat) returns (recorded: nat)
    requires n <= |PersistWrites(successes)|
    ensures recorded <= |successes| && (n == |PersistWrites(successes)| ==> recorded == |successes|)
    ensures var now := WriteAll(t, PersistWrites(successes)[..n]);
            now.records == PersistAll(t.records, successes[..recorded]) && now.rows == t.rows
    decreases |successes|
  {
    hide PathWrites, WriteOne, PersistOne;
    if successes == [] {
      recorded := 0;
    } else {
      var front, last := successes[..|successes| - 1], successes[|successes| - 1];
      var done := PersistWrites(front);
      if n <= |done| {
        recorded := PersistWritesRecords(t, front, n);
        assert PersistWrites(successes)[..n] == done[..n] && front[..recorded] == successes[..recorded];
      } else {
        var before := PersistWritesRecords(t, front, |done|);
        recorded := |successes|;
        assert done[..|done|] == done && front[..before] == front && successes[..recorded] == successes;
        assert PersistWrites(successes)[..n] == done + PathWrites(last)[..n - |done|];
        WriteAllConcat(t, done, PathWrites(last)[..n - |done|]);
        PathWritesRecord(WriteAll(t, done), last, n - |done|);
      }
    }
  }

  lemma RowWritesAre(t: Tables, rows: Rows, k: nat)
    requires k <= 2
    ensures var now := WriteAll(t, RowWrites(rows)[..k]);
            && now.records == t.records && (k == 0 ==> now == t) && (k == 2 ==> now.rows == rows)
            && (now.rows.local == t.rows.local || now.rows.local == rows.local)
            && (now.rows.remote == t.rows.remote || now.rows.remote == rows.remote)
  {
    var writes := RowWrites(rows);
    assert writes[..2][..1] == writes[..1] && writes[..1][..0] == [];
    assert WriteAll(t, writes[..1]) == WriteOne(t, writes[0]);
    assert WriteAll(t, writes[..2]) == WriteOne(WriteAll(t, writes[..1]), writes[1]);
  }

  /** The writes of a round carried out up to some point: the first paths' records, and then the rows. */
  lemma RoundWritesRecords(before: Disk, successes: seq<Success>, renewed: Rows, now: Disk, ok: bool) returns (recorded: nat)
    requires Wrote(before, RoundWrites(successes, renewed), now, ok)
    ensures recorded <= |successes| && now.tables.records == PersistAll(before.tables.records, successes[..recorded])
    ensures ok ==> recorded == |successes| && now.tables.rows == renewed
    ensures recorded < |successes| ==> now.tables.rows == before.tables.rows
    ensures now.tables.rows.local == before.tables.rows.local || now.tables.rows.local == renewed.local
    ensures now.tables.rows.remote == before.tables.rows.remote || now.tables.rows.remote == renewed.remote
  {
    hide WriteAll, PersistAll, PersistWrites, RowWrites;
    var done, writes := PersistWrites(successes), RoundWrites(successes, renewed);
    var n := Done(before.left, |writes|);
    if n <= |done| {
      recorded := PersistWritesRecords(before.tables, successes, n);
      assert writes[..n] == done[..n];
    } else {
      recorded := PersistWritesRecords(before.tables, successes, |done|);
      assert done[..|done|] == done && writes[..n] == done + RowWrites(renewed)[..n - |done|];
      WriteAllConcat(before.tables, done, RowWrites(renewed)[..n - |done|]);
      RowWritesAre(WriteAll(before.tables, done), renewed, n - |done|);
    }
  }

  /**
   * A round over distinct paths whose transfers all succeeded, written up to some point: the first paths have
   * exactly the records their plans and transfers call for, the other planned paths and all unplanned ones
   * keep theirs; nothing is missing when no write failed.
   */
  lemma RoundWritesEachRecord(before: Disk, executed: seq<Executed>, renewed: Rows, now: Disk, ok: bool) returns (recorded: nat)
    requires DistinctPlanPaths(executed) && Failures(executed) == []
    requires Wrote(before, RoundWrites(Successes(executed), renewed), now, ok)
    ensures recorded <= |executed| && (ok ==> recorded == |executed| && now.tables.rows == renewed)
    ensures recorded < |executed| ==> now.tables.rows == before.tables.rows
    ensures forall p :: (forall i :: 0 <= i < |executed| ==> executed[i].plan.path != p) ==>
              Get(now.tables.records, p) == Get(before.tables.records, p)
    ensures forall i :: 0 <= i < |executed| ==>
              (executed[i].result.Ok?
               && Get(now.tables.records, executed[i].plan.path) ==
                    if i < recorded then MaterializeRecord(executed[i].plan.spec, executed[i].result.value)
                    else Get(before.tables.records, executed[i].plan.path))
  {
    hide MaterializeRecord, Wrote, RoundWrites, PersistOne;
    var successes := Successes(executed);
    recorded := RoundWritesRecords(before, successes, renewed, now, ok);
    NoFailureMeansAllSucceed(executed);
    var part := successes[..recorded];
    assert forall i :: 0 <= i < |executed| ==> successes[i].plan == executed[i].plan;
    forall p | forall i :: 0 <= i < |executed| ==> executed[i].plan.path != p
      ensures Get(now.tables.records, p) == Get(before.tables.records, p)
    {
      UntouchedRecordStays(before.tables.records, part, p);
    }
    forall i | 0 <= i < |executed|
      ensures Get(now.tables.records, executed[i].plan.path) ==
                if i < recorded then MaterializeRecord(executed[i].plan.spec, executed[i].result.value)
                else Get(before.tables.records, executed[i].plan.path)
    {
      if i < recorded {
        assert part[i] == successes[i];
        LastRecordStays(before.tables.records, part, i);
      } else {
        UntouchedRecordStays(before.tables.records, part, executed[i].plan.path);
      }
    }
  }

  /** The versions the transfers reported are true of what now lies at their paths. */
  ghost predicate AllSeen(successes: seq<Success>, after: After) {
    forall i :: 0 <= i < |successes| ==> OutcomeSeen(successes[i].plan, successes[i].outcome, after)
  }

  lemma {:induction false} RefreshedRowsAreValid(successes: seq<Success>, after: After, rows: Rows, localStamp: Stamp,
      remoteStamp: Stamp)
    requires HonestLocal(after.local, localStamp) && HonestRemote(after.remote, remoteStamp)
    requires AllSeen(successes, after)
    requires ValidRows(rows, localStamp, remoteStamp)
    ensures RefreshAll(successes, after, rows).Ok? ==> ValidRows(RefreshAll(successes, after, rows).value, localStamp, remoteStamp)
  {
    hide HonestLocal, HonestRemote, ValidRows, OutcomeSeen, RefreshOps;
    if successes != [] {
      var front, last := successes[..|successes| - 1], successes[|successes| - 1];
      assert forall i :: 0 <= i < |front| ==> front[i] == successes[i];
      RefreshedRowsAreValid(front, after, rows, localStamp, remoteStamp);
      if RefreshAll(front, after, rows).Ok? {
        RefreshKeepsValid(last.plan.ops, last.plan, last.outcome, after, RefreshAll(front, after, rows).value, localStamp, remoteStamp);
      }
    }
  }

  /** A round whose writes get anywhere leaves only valid rows, given that the scan's rows were valid. */
  lemma RoundKeepsRowsValid(before: Disk, successes: seq<Success>, after: After, scanned: Rows, now: Disk, ok: bool,
      localStamp: Stamp, remoteStamp: Stamp)
    requires HonestLocal(after.local, localStamp) && HonestRemote(after.remote, remoteStamp)
    requires AllSeen(successes, after)
    requires ValidRows(scanned, localStamp, remoteStamp) && ValidRows(before.tables.rows, localStamp, remoteStamp)
    requires RefreshAll(successes, after, scanned).Ok?
    requires Wrote(before, RoundWrites(successes, RefreshAll(successes, after, scanned).value), now, ok)
    ensures ValidRows(now.tables.rows, localStamp, remoteStamp)
  {
    hide HonestLocal, HonestRemote, AllSeen, RefreshAll, Wrote, RoundWrites, ValidLocalCache, ValidManifest;
    RefreshedRowsAreValid(successes, after, scanned, localStamp, remoteStamp);
    var recorded := RoundWritesRecords(before, successes, RefreshAll(successes, after, scanned).value, now, ok);
  }

  /** A round with a failed transfer writes no record and no row. */
  lemma {:induction false} FailureWritesAreEvents(t: Tables, paths: seq<Path>, n: nat)
    requires n <= |paths|
    ensures var now := WriteAll(t, FailureWrites(paths)[..n]);
            now.records == t.records && now.rows == t.rows
    decreases |paths|
  {
    if n < |paths| {
      var front := paths[..|paths| - 1];
      assert FailureWrites(paths)[..n] == FailureWrites(front)[..n];
      FailureWritesAreEvents(t, front, n);
    } else if paths != [] {
      var front := paths[..|paths| - 1];
      FailureWritesAreEvents(t, front, n - 1);
      assert FailureWrites(paths)[..n] == FailureWrites(paths);
      assert FailureWrites(paths)[..n - 1] == FailureWrites(front) == FailureWrites(front)[..n - 1];
    }
  }
}
