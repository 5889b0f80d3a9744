/**
 * The worker pool of a sync round: any number of threads share one queue of path plans and one list of
 * results, and their operator calls interleave freely.
 */
module WorkerPool {
  import opened Wrappers
  import opened Ordering
  import opened Versions
  import opened Trees
  import opened SyncPlan

  // ----- What one plan does, call by call -----

  datatype Side = LocalSide | RemoteSide

  function Other(side: Side): Side {
    if side.LocalSide? then RemoteSide else LocalSide
  }

  datatype Sides = Sides(local: Tree, remote: Tree) {
    function Of(side: Side): Tree {
      if side.LocalSide? then local else remote
    }

    function With(side: Side, t: Tree): Sides {
      if side.LocalSide? then this.(local := t) else this.(remote := t)
    }
  }

  datatype Call =
    | OpenFile(side: Side, path: Path)
    | MakeDir(side: Side, path: Path)
    | CopyTo(side: Side, path: Path)
    | Erase(side: Side, path: Path)
    | EraseTree(side: Side, path: Path)

  function Updated(s: Sides, side: Side, r: Result<Tree, StoreError>): Option<Sides> {
    if r.Ok? then Some(s.With(side, r.value)) else None
  }

  /** One call on the two trees; None when it fails, which changes neither. */
  function ExecCall(s: Sides, c: Call): Option<Sides> {
    match c
    case OpenFile(side, p) => if p in s.Of(side) && s.Of(side)[p].File? then Some(s) else None
    case MakeDir(side, p) => Updated(s, side, Exec(s.Of(side), CreateDir(p)))
    case CopyTo(side, p) =>
      (match Get<Path, Node>(s.Of(Other(side)), p)
       case Some(File(bytes)) => Updated(s, side, Exec(s.Of(side), WriteFile(p, bytes)))
       case _ => None)
    case Erase(side, p) => Updated(s, side, Exec(s.Of(side), DeleteFile(p)))
    case EraseTree(side, p) => Updated(s, side, Exec(s.Of(side), RemoveAll(p)))
  }

  function MakeDirs(side: Side, dirs: seq<Path>): (calls: seq<Call>)
    ensures forall c :: c in calls ==> c.MakeDir? && c.side == side && c.path in dirs
  {
    if dirs == [] then [] else [MakeDir(side, dirs[0])] + MakeDirs(side, dirs[1..])
  }

  /** At most one operation: every plan the coordinator makes. */
  predicate PlainPlan(plan: PathPlan) {
    |plan.ops| <= 1
  }

  lemma PlannedPathsArePlain(p: Path, previous: Option<PathRecord>, local: Option<ObservedEntry>,
      remote: Option<ObservedEntry>)
    ensures PlainPlan(PlanPath(p, previous, local, remote)) && PlanPath(p, previous, local, remote).path == p
  {
  }

  predicate Works(plan: PathPlan) {
    plan.ops != []
  }

  predicate Transfers(plan: PathPlan) {
    plan.ops == [PullFile] || plan.ops == [PushFile]
  }

  predicate MakesDir(plan: PathPlan) {
    plan.ops == [CreateLocalDir] || plan.ops == [CreateRemoteDir]
  }

  predicate DeletesKindOn(plan: PathPlan, side: Side, kind: Kind) {
    plan.ops == [if side.LocalSide? then DeleteLocal(kind) else DeleteRemote(kind)]
  }

  predicate DeletesOn(plan: PathPlan, side: Side) {
    DeletesKindOn(plan, side, FileKind) || DeletesKindOn(plan, side, DirKind)
  }

  predicate Deletes(plan: PathPlan) {
    DeletesOn(plan, LocalSide) || DeletesOn(plan, RemoteSide)
  }

  /** What a plan's calls may be. */
  predicate CallFits(plan: PathPlan, c: Call) {
    match c
    case MakeDir(_, a) => (Transfers(plan) && Under(plan.path, a)) || (MakesDir(plan) && (Under(plan.path, a) || a == plan.path))
    case OpenFile(_, p) => Transfers(plan) && p == plan.path
    case CopyTo(_, p) => Transfers(plan) && p == plan.path
    case Erase(side, p) => DeletesKindOn(plan, side, FileKind) && p == plan.path
    case EraseTree(side, p) => DeletesKindOn(plan, side, DirKind) && p == plan.path
  }

  /** The directories above a path are made before the last call. */
  function Beneath(side: Side, p: Path, last: Call): (calls: seq<Call>)
    ensures calls != [] && calls[|calls| - 1] == last
    ensures forall k :: 0 <= k < |calls| - 1 ==> calls[k].MakeDir? && calls[k].side == side && Under(p, calls[k].path)
  {
    MakeDirs(side, Ancestors(p)) + [last]
  }

  /** A push opens the local file before it creates remote parents; a pull creates local parents first. */
  function OpCalls(op: PlannedOp, p: Path): seq<Call> {
    match op
    case PullFile => Beneath(LocalSide, p, CopyTo(LocalSide, p))
    case PushFile => [OpenFile(LocalSide, p)] + Beneath(RemoteSide, p, CopyTo(RemoteSide, p))
    case CreateLocalDir => Beneath(LocalSide, p, MakeDir(LocalSide, p))
    case CreateRemoteDir => Beneath(RemoteSide, p, MakeDir(RemoteSide, p))
    case DeleteLocal(kind) => [if kind == FileKind then Erase(LocalSide, p) else EraseTree(LocalSide, p)]
    case DeleteRemote(kind) => [if kind == FileKind then Erase(RemoteSide, p) else EraseTree(RemoteSide, p)]
  }

  lemma OpCallFits(plan: PathPlan, k: nat)
    requires |plan.ops| == 1 && k < |OpCalls(plan.ops[0], plan.path)|
    ensures CallFits(plan, OpCalls(plan.ops[0], plan.path)[k])
  {
    hide Beneath;
    assert plan.ops == [plan.ops[0]];
  }

  lemma OnlyLastWrites(op: PlannedOp, p: Path, k: nat)
    requires k < |OpCalls(op, p)| && !OpCalls(op, p)[k].MakeDir? && !OpCalls(op, p)[k].OpenFile?
    ensures k == |OpCalls(op, p)| - 1
  {
    hide Beneath;
  }

  lemma OpCallsFit(plan: PathPlan)
    requires |plan.ops| == 1
    ensures var calls := OpCalls(plan.ops[0], plan.path);
            && calls != [] && (forall c :: c in calls ==> CallFits(plan, c))
            && forall k :: 0 <= k < |calls| && !calls[k].MakeDir? && !calls[k].OpenFile? ==> k == |calls| - 1
  {
    var calls := OpCalls(plan.ops[0], plan.path);
    forall c | c in calls ensures CallFits(plan, c) {
      var k :| 0 <= k < |calls| && calls[k] == c;
      OpCallFits(plan, k);
    }
    forall k | 0 <= k < |calls| && !calls[k].MakeDir? && !calls[k].OpenFile? ensures k == |calls| - 1 {
      OnlyLastWrites(plan.ops[0], plan.path, k);
    }
    hide Beneath;
  }

  function Calls(plan: PathPlan): (calls: seq<Call>)
    requires PlainPlan(plan)
    ensures forall c :: c in calls ==> CallFits(plan, c)
    ensures forall k :: 0 <= k < |calls| && !calls[k].MakeDir? && !calls[k].OpenFile? ==> k == |calls| - 1
    ensures Works(plan) <==> calls != []
  {
    if plan.ops == [] then []
    else
      OpCallsFit(plan);
      OpCalls(plan.ops[0], plan.path)
  }

  /** The versions a call observes: the digest of pulled bytes, the store's token of pushed ones. */
  function Observed(outcome: Outcome, s: Sides, c: Call, token: Option<Version>): Outcome {
    match c
    case CopyTo(LocalSide, p) =>
      (match Get<Path, Node>(s.remote, p)
       case Some(File(bytes)) => outcome.(localVersion := Some(Sha256(bytes)))
       case _ => outcome)
    case CopyTo(RemoteSide, _) => outcome.(remoteVersion := token)
    case _ => outcome
  }

  // ----- The round that is to be executed -----

  /**
   * The inputs of a round.  `fails(i, k)` says that call `k` of plan `i` is refused by the outside world,
   * and `tokens(i)` is what the remote store answers to plan `i`'s upload.
   */
  datatype Round = Round(
    plans: seq<PathPlan>,
    init: Sides,
    concurrency: nat,
    fails: (nat, nat) -> bool,
    tokens: nat -> Option<Version>)

  datatype Entry = Entry(index: nat, plan: PathPlan, result: Result<Outcome, ()>)

  /**
   * What plan `j` may be doing above the path plan `i` is working on: making a directory; or anything, while
   * plan `i` removes, and beneath a directory that goes on the same side finds at the start what it removes.
   */
  ghost predicate Compatible(r: Round, i: nat, j: nat)
    requires i < |r.plans| && j < |r.plans| && PlainPlan(r.plans[i])
  {
    || MakesDir(r.plans[j])
    || (Deletes(r.plans[i])
        && forall side :: DeletesOn(r.plans[i], side) && DeletesKindOn(r.plans[j], side, DirKind) ==>
             ExecCall(r.init, Calls(r.plans[i])[0]).Some?)
  }

  /** One plan per path, and plans that both work, one beneath the other, are compatible. */
  ghost predicate Independent(r: Round)
    requires forall i :: 0 <= i < |r.plans| ==> PlainPlan(r.plans[i])
  {
    forall i, j :: 0 <= i < |r.plans| && 0 <= j < |r.plans| && i != j ==>
      && r.plans[i].path != r.plans[j].path
      && (Under(r.plans[i].path, r.plans[j].path) && Works(r.plans[i]) && Works(r.plans[j]) ==> Compatible(r, i, j))
  }

  ghost predicate PlainRound(r: Round) {
    && (forall i :: 0 <= i < |r.plans| ==> PlainPlan(r.plans[i]))
    && Independent(r)
  }

  predicate RemovesDir(plan: PathPlan) {
    DeletesKindOn(plan, LocalSide, DirKind) || DeletesKindOn(plan, RemoteSide, DirKind)
  }

  /** No directory above the path is being removed. */
  ghost predicate Sheltered(r: Round, i: nat)
    requires i < |r.plans|
  {
    forall j :: 0 <= j < |r.plans| && Under(r.plans[i].path, r.plans[j].path) ==> !RemovesDir(r.plans[j])
  }

  // ----- Sequential execution -----

  function RunCalls(r: Round, i: nat, s: Sides, k: nat, outcome: Outcome): (Sides, Result<Outcome, ()>)
    requires i < |r.plans| && PlainPlan(r.plans[i]) && k <= |Calls(r.plans[i])|
    decreases |Calls(r.plans[i])| - k
  {
    var calls := Calls(r.plans[i]);
    if k == |calls| then (s, Ok(outcome))
    else if r.fails(i, k) then (s, Err(()))
    else match ExecCall(s, calls[k])
      case None => (s, Err(()))
      case Some(next) => RunCalls(r, i, next, k + 1, Observed(outcome, s, calls[k], r.tokens(i)))
  }

  /** The plans one after another in plan order. */
  function RunPlans(r: Round, i: nat, s: Sides): (Sides, seq<Entry>)
    requires i <= |r.plans| && forall j :: 0 <= j < |r.plans| ==> PlainPlan(r.plans[j])
    decreases |r.plans| - i
  {
    if i == |r.plans| then (s, [])
    else
      var (next, result) := RunCalls(r, i, s, 0, Outcome(None, None));
      var (final, entries) := RunPlans(r, i + 1, next);
      (final, [Entry(i, r.plans[i], result)] + entries)
  }

  // ----- The pool -----

  datatype Worker =
    | Waiting
    | Busy(index: nat, k: nat, outcome: Outcome)
    | Holding(entry: Entry)
    | Exited

  /** `done[i]` counts the calls of plan `i` that have taken effect. */
  datatype Pool = Pool(sides: Sides, queue: seq<nat>, workers: seq<Worker>, results: seq<Entry>, done: seq<nat>)

  function WorkerCount(concurrency: nat, plans: nat): (n: nat)
    ensures 1 <= n && (plans > 0 ==> n <= plans)
  {
    var least := if plans > 1 then plans else 1;
    var wanted := if concurrency > 1 then concurrency else 1;
    if wanted < least then wanted else least
  }

  ghost predicate InitPool(r: Round, p: Pool) {
    && p.sides == r.init
    && p.queue == seq(|r.plans|, i => i)
    && |p.workers| == WorkerCount(r.concurrency, |r.plans|)
    && (forall w :: 0 <= w < |p.workers| ==> p.workers[w] == Waiting)
    && p.results == []
    && p.done == seq(|r.plans|, _ => 0)
  }

  function Set(p: Pool, w: nat, worker: Worker): Pool
    requires w < |p.workers|
  {
    p.(workers := p.workers[w := worker])
  }

  predicate CanStep(p: Pool, w: nat) {
    w < |p.workers| && !p.workers[w].Exited?
  }

  /** Indices stay within the round. */
  predicate InRound(r: Round, p: Pool) {
    && |p.done| == |r.plans|
    && (forall i :: i in p.queue ==> i < |r.plans|)
    && (forall i :: 0 <= i < |r.plans| ==> PlainPlan(r.plans[i]))
    && (forall w :: 0 <= w < |p.workers| && p.workers[w].Busy? ==>
          p.workers[w].index < |r.plans| && p.workers[w].k <= |Calls(r.plans[p.workers[w].index])|)
  }

  /** One step of one worker: take a plan or leave, make one call, hand back a result. */
  function Step(r: Round, p: Pool, w: nat): Pool
    requires CanStep(p, w) && InRound(r, p)
  {
    match p.workers[w]
    case Waiting =>
      if p.queue == [] then Set(p, w, Exited)
      else Set(p, w, Busy(p.queue[0], 0, Outcome(None, None))).(queue := p.queue[1..])
    case Busy(i, k, outcome) =>
      var calls := Calls(r.plans[i]);
      if k == |calls| then Set(p, w, Holding(Entry(i, r.plans[i], Ok(outcome))))
      else if r.fails(i, k) || ExecCall(p.sides, calls[k]).None? then Set(p, w, Holding(Entry(i, r.plans[i], Err(()))))
      else
        Set(p, w, Busy(i, k + 1, Observed(outcome, p.sides, calls[k], r.tokens(i))))
          .(sides := ExecCall(p.sides, calls[k]).value, done := p.done[i := k + 1])
    case Holding(entry) => Set(p, w, Waiting).(results := p.results + [entry])
    case Exited => p
  }

  predicate AllExited(p: Pool) {
    forall w :: 0 <= w < |p.workers| ==> p.workers[w] == Exited
  }

  function ByIndex(a: Entry, b: Entry): bool {
    a.index <= b.index
  }

  lemma ByIndexIsPreorder()
    ensures Preorder(ByIndex)
  {
  }

  /** What the round hands on: the results in plan order. */
  function Returned(p: Pool): seq<Entry> {
    ByIndexIsPreorder();
    Sort(ByIndex, p.results)
  }

  // ----- A call's effect does not depend on when it happens -----

  predicate Writes(c: Call, side: Side, q: Path) {
    c.side == side && !c.OpenFile? && (c.path == q || (c.EraseTree? && Under(q, c.path)))
  }

  /** What a successful call leaves where it writes. */
  function Written(s: Sides, c: Call): Option<Node> {
    match c
    case OpenFile(side, p) => Get(s.Of(side), p)
    case MakeDir(_, _) => Some(Dir)
    case CopyTo(side, p) => Get(s.Of(Other(side)), p)
    case Erase(_, _) => None
    case EraseTree(_, _) => None
  }

  lemma CallEffect(s: Sides, c: Call, side: Side, q: Path)
    requires ExecCall(s, c).Some?
    ensures Get(ExecCall(s, c).value.Of(side), q) == if Writes(c, side, q) then Written(s, c) else Get(s.Of(side), q)
  {
  }

  ghost predicate SameAt(s: Sides, t: Sides, p: Path) {
    Get(s.local, p) == Get(t.local, p) && Get(s.remote, p) == Get(t.remote, p)
  }

  lemma CallDependsOnItsPath(s: Sides, t: Sides, c: Call, outcome: Outcome, token: Option<Version>)
    requires SameAt(s, t, c.path)
          || ((c.MakeDir? || c.Erase? || c.EraseTree?) && (ExecCall(s, c).Some? <==> ExecCall(t, c).Some?))
    ensures ExecCall(s, c).Some? <==> ExecCall(t, c).Some?
    ensures Written(s, c) == Written(t, c)
    ensures Observed(outcome, s, c, token) == Observed(outcome, t, c, token)
  {
  }

  ghost predicate Did(r: Round, done: seq<nat>, i: int, k: int) {
    0 <= i < |r.plans| && |done| == |r.plans| && PlainPlan(r.plans[i]) && 0 <= k < done[i] && k < |Calls(r.plans[i])|
  }

  ghost predicate DidWrite(r: Round, done: seq<nat>, i: int, k: int, side: Side, q: Path) {
    Did(r, done, i, k) && Writes(Calls(r.plans[i])[k], side, q)
  }

  /** A node is what some call that has been made wrote, or nothing has written it. */
  ghost predicate NodeOk(r: Round, done: seq<nat>, s: Sides, side: Side, q: Path) {
    || (exists i, k :: DidWrite(r, done, i, k, side, q) && Get(s.Of(side), q) == Written(r.init, Calls(r.plans[i])[k]))
    || (Get(s.Of(side), q) == Get(r.init.Of(side), q) && forall i, k :: !DidWrite(r, done, i, k, side, q))
  }

  /** Every call made so far would also have succeeded at the start. */
  ghost predicate CallsSucceed(r: Round, done: seq<nat>) {
    && |done| == |r.plans|
    && (forall i :: 0 <= i < |r.plans| && PlainPlan(r.plans[i]) ==> done[i] <= |Calls(r.plans[i])|)
    && (forall i, k :: Did(r, done, i, k) ==> !r.fails(i, k) && ExecCall(r.init, Calls(r.plans[i])[k]).Some?)
  }

  /** The trees are the starting trees with exactly the counted calls applied, in whatever order. */
  ghost predicate Matches(r: Round, done: seq<nat>, s: Sides) {
    CallsSucceed(r, done) && forall side, q :: NodeOk(r, done, s, side, q)
  }

  /** Calls of two plans that write one node both make it a directory, or both remove it. */
  lemma WriterKinds(r: Round, i: nat, c: Call, j: nat, d: Call, side: Side, q: Path)
    requires PlainRound(r) && i < |r.plans| && j < |r.plans| && i != j
    requires CallFits(r.plans[i], c) && CallFits(r.plans[j], d)
    requires Writes(c, side, q) && Writes(d, side, q)
    ensures (c.MakeDir? && d.MakeDir?) || ((c.Erase? || c.EraseTree?) && (d.Erase? || d.EraseTree?))
  {
    hide Calls, ExecCall, Under, PlainPlan;
    var p, p' := r.plans[i].path, r.plans[j].path;
    assert p != p' && (Under(p, p') ==> Compatible(r, i, j) || !Works(r.plans[i]) || !Works(r.plans[j]));
    assert Under(p', p) ==> Compatible(r, j, i) || !Works(r.plans[i]) || !Works(r.plans[j]);
    UnderChain(p, q, p');
    UnderChain(p', q, p);
  }

  /** Two calls that write the same node write the same value. */
  lemma WritersAgree(r: Round, done: seq<nat>, i: int, k: int, j: int, l: int, side: Side, q: Path)
    requires PlainRound(r)
    requires DidWrite(r, done, i, k, side, q) && DidWrite(r, done, j, l, side, q)
    ensures Written(r.init, Calls(r.plans[i])[k]) == Written(r.init, Calls(r.plans[j])[l])
  {
    hide Calls, PlainPlan, Independent, Under;
    var a, b := Calls(r.plans[i])[k], Calls(r.plans[j])[l];
    assert a in Calls(r.plans[i]) && b in Calls(r.plans[j]);
    NotUnderItself(r.plans[i].path);
    if i != j {
      hide CallFits;
      WriterKinds(r, i, a, j, b, side, q);
    }
  }

  lemma CountsDetermineSides(r: Round, done: seq<nat>, s: Sides, t: Sides)
    requires PlainRound(r) && Matches(r, done, s) && Matches(r, done, t)
    ensures s == t
  {
    hide PlainRound, Calls, PlainPlan, Written, CallsSucceed;
    forall side, q ensures Get(s.Of(side), q) == Get(t.Of(side), q) {
      assert NodeOk(r, done, s, side, q) && NodeOk(r, done, t, side, q);
      if exists i, k :: DidWrite(r, done, i, k, side, q) {
        var i, k :| DidWrite(r, done, i, k, side, q) && Get(s.Of(side), q) == Written(r.init, Calls(r.plans[i])[k]);
        var j, l :| DidWrite(r, done, j, l, side, q) && Get(t.Of(side), q) == Written(r.init, Calls(r.plans[j])[l]);
        WritersAgree(r, done, i, k, j, l, side, q);
      }
    }
    forall q ensures Get(s.local, q) == Get(t.local, q) && Get(s.remote, q) == Get(t.remote, q) {
      assert Get(s.Of(LocalSide), q) == Get(t.Of(LocalSide), q);
      assert Get(s.Of(RemoteSide), q) == Get(t.Of(RemoteSide), q);
    }
    SameEntriesSameMap(s.local, t.local);
    SameEntriesSameMap(s.remote, t.remote);
  }

  /** A transfer never takes place in a directory that is being removed. */
  lemma TransfersAreSheltered(r: Round, i: nat)
    requires PlainRound(r) && i < |r.plans| && (Transfers(r.plans[i]) || MakesDir(r.plans[i]))
    ensures Sheltered(r, i)
  {
    hide Calls, ExecCall, Under;
    forall j | 0 <= j < |r.plans| && Under(r.plans[i].path, r.plans[j].path) ensures !RemovesDir(r.plans[j]) {
      NotUnderItself(r.plans[i].path);
      assert i != j && (Works(r.plans[j]) ==> Compatible(r, i, j));
    }
  }

  /** At the path of a sheltered transfer or removal only that plan writes, and only with its last call. */
  lemma OnlyOwnPlanWrites(r: Round, done: seq<nat>, i: nat, j: int, l: int, side: Side)
    requires PlainRound(r) && i < |r.plans| && (Transfers(r.plans[i]) || Deletes(r.plans[i])) && Sheltered(r, i)
    requires DidWrite(r, done, j, l, side, r.plans[i].path)
    ensures j == i && l == |Calls(r.plans[i])| - 1
  {
    hide Calls, PlainPlan, Under, ExecCall;
    var c := Calls(r.plans[j])[l];
    assert c in Calls(r.plans[j]) && CallFits(r.plans[j], c);
    NotUnderItself(r.plans[i].path);
  }

  /** The path a transfer works on is untouched until its last call. */
  lemma OwnPathUntouched(r: Round, done: seq<nat>, s: Sides, i: nat, side: Side)
    requires PlainRound(r) && Matches(r, done, s)
    requires i < |r.plans| && (Transfers(r.plans[i]) || Deletes(r.plans[i])) && Sheltered(r, i)
    requires done[i] < |Calls(r.plans[i])|
    ensures Get(s.Of(side), r.plans[i].path) == Get(r.init.Of(side), r.plans[i].path)
  {
    hide Calls, PlainPlan, Sheltered, Independent;
    var p := r.plans[i].path;
    assert NodeOk(r, done, s, side, p);
    forall j, l | DidWrite(r, done, j, l, side, p) ensures j == i && l == |Calls(r.plans[i])| - 1 {
      OnlyOwnPlanWrites(r, done, i, j, l, side);
    }
  }

  /** Whether a directory can be made never changes: files never appear or vanish where one is to be made. */
  lemma DirStaysMakeable(r: Round, done: seq<nat>, s: Sides, i: nat, c: Call)
    requires PlainRound(r) && Matches(r, done, s)
    requires i < |r.plans| && CallFits(r.plans[i], c) && c.MakeDir?
    ensures ExecCall(s, c).Some? <==> ExecCall(r.init, c).Some?
  {
    hide Calls, PlainPlan, Independent;
    assert NodeOk(r, done, s, c.side, c.path);
    if exists j, l :: DidWrite(r, done, j, l, c.side, c.path) {
      var j, l :| DidWrite(r, done, j, l, c.side, c.path) && Get(s.Of(c.side), c.path) == Written(r.init, Calls(r.plans[j])[l]);
      var d := Calls(r.plans[j])[l];
      assert d in Calls(r.plans[j]) && CallFits(r.plans[j], d) && Did(r, done, j, l);
      if i != j {
        WriterKinds(r, i, c, j, d, c.side, c.path);
      } else {
        NotUnderItself(r.plans[i].path);
      }
      assert d.MakeDir? && d.path == c.path;
    }
  }

  /** Whether an entry can be removed never changes: it is as it was, or gone with the directory above it. */
  lemma EntryStaysRemovable(r: Round, done: seq<nat>, s: Sides, i: nat, c: Call)
    requires PlainRound(r) && Matches(r, done, s)
    requires i < |r.plans| && Deletes(r.plans[i]) && done[i] == 0 && Calls(r.plans[i])[0] == c && (c.Erase? || c.EraseTree?)
    ensures ExecCall(s, c).Some? <==> ExecCall(r.init, c).Some?
  {
    hide Calls, PlainPlan;
    var p, side := r.plans[i].path, c.side;
    assert c in Calls(r.plans[i]) && CallFits(r.plans[i], c) && c.path == p;
    assert NodeOk(r, done, s, side, p);
    if exists j, l :: DidWrite(r, done, j, l, side, p) {
      var j, l :| DidWrite(r, done, j, l, side, p) && Get(s.Of(side), p) == Written(r.init, Calls(r.plans[j])[l]);
      var d := Calls(r.plans[j])[l];
      assert d in Calls(r.plans[j]) && CallFits(r.plans[j], d);
      assert i != j;
      WriterKinds(r, i, c, j, d, side, p);
      assert r.plans[i].path != r.plans[j].path;
      assert Under(p, r.plans[j].path) && Compatible(r, i, j);
    }
  }

  lemma OneRemoval(plan: PathPlan)
    requires PlainPlan(plan) && Deletes(plan)
    ensures |Calls(plan)| == 1
  {
  }

  /** The next call of any plan does now what it would have done at the start. */
  lemma NextCallIsTimeless(r: Round, done: seq<nat>, s: Sides, i: nat, outcome: Outcome)
    requires PlainRound(r) && Matches(r, done, s)
    requires i < |r.plans| && done[i] < |Calls(r.plans[i])|
    ensures var c := Calls(r.plans[i])[done[i]];
            && (ExecCall(s, c).Some? <==> ExecCall(r.init, c).Some?)
            && Written(s, c) == Written(r.init, c)
            && Observed(outcome, s, c, r.tokens(i)) == Observed(outcome, r.init, c, r.tokens(i))
  {
    var c := Calls(r.plans[i])[done[i]];
    hide Calls, PlainPlan, Matches, ExecCall, PlainRound, Observed, Written, Sheltered;
    assert c in Calls(r.plans[i]) && CallFits(r.plans[i], c);
    if c.MakeDir? {
      DirStaysMakeable(r, done, s, i, c);
    } else if c.Erase? || c.EraseTree? {
      OneRemoval(r.plans[i]);
      EntryStaysRemovable(r, done, s, i, c);
    } else {
      TransfersAreSheltered(r, i);
      OwnPathUntouched(r, done, s, i, LocalSide);
      OwnPathUntouched(r, done, s, i, RemoteSide);
    }
    CallDependsOnItsPath(s, r.init, c, outcome, r.tokens(i));
  }

  lemma NextCallKeepsMatch(r: Round, done: seq<nat>, s: Sides, i: nat)
    requires PlainRound(r) && Matches(r, done, s)
    requires i < |r.plans| && done[i] < |Calls(r.plans[i])| && !r.fails(i, done[i])
    requires ExecCall(s, Calls(r.plans[i])[done[i]]).Some?
    ensures Matches(r, done[i := done[i] + 1], ExecCall(s, Calls(r.plans[i])[done[i]]).value)
  {
    hide Calls, PlainPlan, ExecCall, Written, Independent;
    var k, c := done[i], Calls(r.plans[i])[done[i]];
    var done', s' := done[i := k + 1], ExecCall(s, c).value;
    NextCallIsTimeless(r, done, s, i, Outcome(None, None));
    forall j, l | Did(r, done', j, l) ensures !r.fails(j, l) && ExecCall(r.init, Calls(r.plans[j])[l]).Some? {
      assert Did(r, done, j, l) || (j == i && l == k);
    }
    forall side, q ensures NodeOk(r, done', s', side, q) {
      CallEffect(s, c, side, q);
      assert NodeOk(r, done, s, side, q);
      if Writes(c, side, q) {
        assert DidWrite(r, done', i, k, side, q);
      } else if exists j, l :: DidWrite(r, done, j, l, side, q) {
        var j, l :| DidWrite(r, done, j, l, side, q) && Get(s.Of(side), q) == Written(r.init, Calls(r.plans[j])[l]);
        assert DidWrite(r, done', j, l, side, q);
      } else {
        forall j, l ensures !DidWrite(r, done', j, l, side, q) {
          assert DidWrite(r, done', j, l, side, q) ==> DidWrite(r, done, j, l, side, q);
        }
      }
    }
  }

  // ----- What each plan is bound to do -----

  /** How far a plan gets and what it reports, judged on the starting trees alone. */
  function Fate(r: Round, i: nat, k: nat, outcome: Outcome): (f: (nat, Result<Outcome, ()>))
    requires i < |r.plans| && PlainPlan(r.plans[i]) && k <= |Calls(r.plans[i])|
    ensures k <= f.0 <= |Calls(r.plans[i])|
    decreases |Calls(r.plans[i])| - k
  {
    var calls := Calls(r.plans[i]);
    if k == |calls| then (k, Ok(outcome))
    else if r.fails(i, k) || ExecCall(r.init, calls[k]).None? then (k, Err(()))
    else Fate(r, i, k + 1, Observed(outcome, r.init, calls[k], r.tokens(i)))
  }

  function FateOf(r: Round, i: nat): (nat, Result<Outcome, ()>)
    requires i < |r.plans| && PlainPlan(r.plans[i])
  {
    Fate(r, i, 0, Outcome(None, None))
  }

  ghost predicate IsFate(r: Round, e: Entry) {
    e.index < |r.plans| && PlainPlan(r.plans[e.index]) && e.plan == r.plans[e.index] && e.result == FateOf(r, e.index).1
  }

  // ----- Sequential execution meets every plan's fate -----

  lemma MatchBounds(r: Round, done: seq<nat>, s: Sides, i: nat)
    requires PlainRound(r) && Matches(r, done, s) && i < |r.plans|
    ensures |done| == |r.plans| && PlainPlan(r.plans[i]) && done[i] <= |Calls(r.plans[i])|
  {
  }

  lemma {:induction false} SequentialPlan(r: Round, i: nat, done: seq<nat>, s: Sides, outcome: Outcome)
    requires PlainRound(r) && Matches(r, done, s) && i < |r.plans|
    ensures var (s', result) := RunCalls(r, i, s, done[i], outcome);
            var (k, expected) := Fate(r, i, done[i], outcome);
            Matches(r, done[i := k], s') && result == expected
    decreases |Calls(r.plans[i])| - done[i]
  {
    hide Calls, PlainPlan, ExecCall, Observed, Matches;
    MatchBounds(r, done, s, i);
    if done[i] < |Calls(r.plans[i])| {
      NextCallIsTimeless(r, done, s, i, outcome);
      var c := Calls(r.plans[i])[done[i]];
      if !r.fails(i, done[i]) && ExecCall(s, c).Some? {
        NextCallKeepsMatch(r, done, s, i);
        var done' := done[i := done[i] + 1];
        SequentialPlan(r, i, done', ExecCall(s, c).value, Observed(outcome, s, c, r.tokens(i)));
        var k := Fate(r, i, done[i], outcome).0;
        assert done'[i := k] == done[i := k];
      } else {
        assert done[i := done[i]] == done;
      }
    } else {
      assert done[i := done[i]] == done;
    }
  }

  /** The counts after the first `n` plans have met their fate. */
  ghost predicate FatesMet(r: Round, done: seq<nat>, n: nat) {
    && |done| == |r.plans| && n <= |done|
    && (forall i :: 0 <= i < |r.plans| ==> PlainPlan(r.plans[i]))
    && (forall i :: 0 <= i < n ==> done[i] == FateOf(r, i).0)
    && (forall i :: n <= i < |done| ==> done[i] == 0)
  }

  lemma {:induction false} SequentialPlans(r: Round, i: nat, done: seq<nat>, s: Sides) returns (final: seq<nat>)
    requires PlainRound(r) && Matches(r, done, s) && FatesMet(r, done, i)
    ensures FatesMet(r, final, |r.plans|) && Matches(r, final, RunPlans(r, i, s).0)
    ensures var entries := RunPlans(r, i, s).1;
            |entries| == |r.plans| - i && forall k :: 0 <= k < |entries| ==> entries[k].index == i + k && IsFate(r, entries[k])
    decreases |r.plans| - i
  {
    hide Matches, Fate, RunCalls, PlainPlan, Calls;
    if i == |r.plans| {
      final := done;
    } else {
      SequentialPlan(r, i, done, s, Outcome(None, None));
      var (next, result) := RunCalls(r, i, s, 0, Outcome(None, None));
      final := SequentialPlans(r, i + 1, done[i := FateOf(r, i).0], next);
    }
  }

  // ----- The pool does too -----

  ghost predicate Owns(worker: Worker, i: int) {
    (worker.Busy? && worker.index == i) || (worker.Holding? && worker.entry.index == i)
  }

  ghost predicate Reported(p: Pool, i: int) {
    exists e :: e in p.results && e.index == i
  }

  ghost predicate Owned(p: Pool, i: int) {
    exists w :: 0 <= w < |p.workers| && Owns(p.workers[w], i)
  }

  /** A worker's own plan: so many calls made, the versions seen so far, the rest still ahead. */
  ghost predicate WorkerOk(r: Round, p: Pool, worker: Worker) {
    match worker
    case Busy(i, k, outcome) =>
      i < |r.plans| && |p.done| == |r.plans| && PlainPlan(r.plans[i]) && k <= |Calls(r.plans[i])| && p.done[i] == k
      && Fate(r, i, k, outcome) == FateOf(r, i)
    case Holding(e) => IsFate(r, e) && |p.done| == |r.plans| && p.done[e.index] == FateOf(r, e.index).0
    case _ => true
  }

  predicate FitsPlan(r: Round, e: Entry) {
    e.index < |r.plans| && e.plan == r.plans[e.index]
  }

  /** Whatever is handed back is labelled with the plan it came from. */
  ghost predicate Labelled(r: Round, p: Pool) {
    && (forall w :: 0 <= w < |p.workers| && p.workers[w].Holding? ==> FitsPlan(r, p.workers[w].entry))
    && (forall e :: e in p.results ==> FitsPlan(r, e))
  }

  /** Every plan is in exactly one place: the queue, one worker, or the results, and there only once. */
  ghost predicate Placed(r: Round, p: Pool) {
    && |p.queue| <= |r.plans|
    && (forall k :: 0 <= k < |p.queue| ==> p.queue[k] == |r.plans| - |p.queue| + k)
    && (forall w, i :: 0 <= w < |p.workers| && Owns(p.workers[w], i) ==> i < |r.plans| - |p.queue|)
    && (forall w, i :: 0 <= w < |p.workers| && Owns(p.workers[w], i) ==> !Reported(p, i))
    && (forall w, v, i :: 0 <= w < |p.workers| && 0 <= v < |p.workers| && Owns(p.workers[w], i) && Owns(p.workers[v], i) ==> w == v)
    && (forall k, l :: 0 <= k < l < |p.results| ==> p.results[k].index != p.results[l].index)
    && (forall i :: 0 <= i < |r.plans| - |p.queue| ==> Owned(p, i) || Reported(p, i))
    && (forall e :: e in p.results ==> e.index < |r.plans| - |p.queue|)
  }

  ghost predicate WorkOk(r: Round, p: Pool) {
    && |p.done| == |r.plans|
    && (forall w :: 0 <= w < |p.workers| ==> WorkerOk(r, p, p.workers[w]))
    && (forall e :: e in p.results ==> IsFate(r, e) && p.done[e.index] == FateOf(r, e.index).0)
    && (forall i :: i in p.queue ==> i < |p.done| && p.done[i] == 0)
  }

  ghost predicate Inv(r: Round, p: Pool) {
    Placed(r, p) && WorkOk(r, p) && Matches(r, p.done, p.sides)
  }

  lemma StartMatches(r: Round, zero: seq<nat>)
    requires PlainRound(r) && zero == seq(|r.plans|, _ => 0)
    ensures Matches(r, zero, r.init)
  {
    forall side, q ensures NodeOk(r, zero, r.init, side, q) {
    }
  }

  lemma InitKeepsInv(r: Round, p: Pool)
    requires PlainRound(r) && InitPool(r, p)
    ensures Inv(r, p)
  {
    hide Calls, PlainPlan, Fate, Matches;
    StartMatches(r, p.done);
  }

  lemma StepKeepsPlaced(r: Round, p: Pool, w: nat)
    requires Placed(r, p) && CanStep(p, w) && InRound(r, p)
    ensures Placed(r, Step(r, p, w))
  {
    hide Calls, PlainPlan, ExecCall, Observed;
    var p' := Step(r, p, w);
    match p.workers[w]
    case Waiting =>
      if p.queue != [] {
        assert p.queue[0] == |r.plans| - |p.queue| && Owns(p'.workers[w], p.queue[0]);
        assert forall k :: 0 <= k < |p'.queue| ==> p'.queue[k] == p.queue[k + 1];
      }
      assert forall i :: Reported(p', i) <==> Reported(p, i);
      forall v, i | 0 <= v < |p'.workers| && Owns(p'.workers[v], i) ensures i < |r.plans| - |p'.queue| && !Reported(p', i) {
        assert v != w ==> Owns(p.workers[v], i);
      }
      forall i | 0 <= i < |r.plans| - |p'.queue| ensures Owned(p', i) || Reported(p', i) {
        if i < |r.plans| - |p.queue| && Owned(p, i) {
          var v :| 0 <= v < |p.workers| && Owns(p.workers[v], i);
          assert Owns(p'.workers[v], i);
        }
      }
    case Busy(_, _, _) =>
      assert p'.queue == p.queue && p'.results == p.results && |p'.workers| == |p.workers|;
      assert forall i :: Reported(p', i) <==> Reported(p, i);
      assert forall v, i :: 0 <= v < |p.workers| ==> (Owns(p'.workers[v], i) <==> Owns(p.workers[v], i));
      forall i | 0 <= i < |r.plans| - |p'.queue| ensures Owned(p', i) || Reported(p', i) {
        if Owned(p, i) {
          var v :| 0 <= v < |p.workers| && Owns(p.workers[v], i);
          assert Owns(p'.workers[v], i);
        }
      }
    case Holding(entry) =>
      assert Owns(p.workers[w], entry.index);
      forall i ensures Reported(p', i) <==> Reported(p, i) || i == entry.index {
        if Reported(p, i) {
          var e :| e in p.results && e.index == i;
          assert e in p'.results;
        } else if i == entry.index {
          assert entry in p'.results;
        }
      }
      forall i | 0 <= i < |r.plans| - |p'.queue| ensures Owned(p', i) || Reported(p', i) {
        if Owned(p, i) && i != entry.index {
          var v :| 0 <= v < |p.workers| && Owns(p.workers[v], i);
          assert Owns(p'.workers[v], i);
        }
      }
      forall k, l | 0 <= k < l < |p'.results| ensures p'.results[k].index != p'.results[l].index {
        if l == |p.results| {
          assert p.results[k] in p.results && Reported(p, p.results[k].index);
        }
      }
    case Exited =>
  }

  /** Another worker's promise mentions only its own plan's count. */
  lemma OtherWorkersStayOk(r: Round, p: Pool, w: nat, i: nat, k: nat)
    requires Inv(r, p) && w < |p.workers| && Owns(p.workers[w], i) && i < |r.plans|
    ensures forall v :: 0 <= v < |p.workers| && v != w ==> WorkerOk(r, p.(done := p.done[i := k]), p.workers[v])
    ensures forall e :: e in p.results ==> IsFate(r, e) && e.index != i && p.done[e.index] == FateOf(r, e.index).0
    ensures i !in p.queue
  {
    hide Calls, PlainPlan, Fate, Matches;
    forall v | 0 <= v < |p.workers| && v != w ensures WorkerOk(r, p.(done := p.done[i := k]), p.workers[v]) {
      assert WorkerOk(r, p, p.workers[v]);
      assert !Owns(p.workers[v], i);
    }
    forall e | e in p.results ensures e.index != i {
      assert Reported(p, e.index);
    }
  }

  /** One call of a worker: its own promise and the trees. */
  lemma CallKeepsPromise(r: Round, p: Pool, w: nat)
    requires w < |p.workers| && p.workers[w].Busy? && InRound(r, p)
    requires PlainRound(r) && WorkerOk(r, p, p.workers[w]) && Matches(r, p.done, p.sides)
    ensures var p' := Step(r, p, w);
            && WorkerOk(r, p', p'.workers[w]) && Matches(r, p'.done, p'.sides)
            && |p'.done| == |p.done| && p'.done == p.done[p.workers[w].index := p'.done[p.workers[w].index]]
  {
    var i, k, outcome := p.workers[w].index, p.workers[w].k, p.workers[w].outcome;
    hide Calls, PlainPlan, Matches, ExecCall, Observed, PlainRound;
    if k < |Calls(r.plans[i])| {
      NextCallIsTimeless(r, p.done, p.sides, i, outcome);
      if !r.fails(i, k) && ExecCall(p.sides, Calls(r.plans[i])[k]).Some? {
        NextCallKeepsMatch(r, p.done, p.sides, i);
      } else {
        PlanEnds(r, p, w);
      }
    } else {
      PlanEnds(r, p, w);
    }
  }

  /** A plan with no call left, or whose next call fails, ends with the result it was bound to have. */
  lemma PlanEnds(r: Round, p: Pool, w: nat)
    requires w < |p.workers| && p.workers[w].Busy? && InRound(r, p) && WorkerOk(r, p, p.workers[w])
    requires var (i, k) := (p.workers[w].index, p.workers[w].k);
             || k == |Calls(r.plans[i])|
             || r.fails(i, k)
             || (ExecCall(p.sides, Calls(r.plans[i])[k]).None? && ExecCall(r.init, Calls(r.plans[i])[k]).None?)
    ensures var p' := Step(r, p, w);
            && WorkerOk(r, p', p'.workers[w]) && p'.done == p.done && p'.sides == p.sides
            && p'.done == p.done[p.workers[w].index := p'.done[p.workers[w].index]]
  {
    hide Calls, PlainPlan, ExecCall, Observed;
  }

  lemma CallKeepsWork(r: Round, p: Pool, w: nat)
    requires PlainRound(r) && Inv(r, p) && CanStep(p, w) && InRound(r, p) && p.workers[w].Busy?
    ensures WorkOk(r, Step(r, p, w)) && Matches(r, Step(r, p, w).done, Step(r, p, w).sides)
  {
    var p', i := Step(r, p, w), p.workers[w].index;
    assert WorkerOk(r, p, p.workers[w]);
    assert p'.queue == p.queue && p'.results == p.results && |p'.workers| == |p.workers|;
    assert forall v :: 0 <= v < |p.workers| && v != w ==> p'.workers[v] == p.workers[v];
    hide Calls, PlainPlan, Matches, ExecCall, Observed, Placed, PlainRound, Fate, InRound, Step;
    CallKeepsPromise(r, p, w);
    var k := p'.done[i];
    OtherWorkersStayOk(r, p, w, i, k);
    forall v | 0 <= v < |p'.workers| ensures WorkerOk(r, p', p'.workers[v]) {
      if v != w { assert WorkerOk(r, p.(done := p.done[i := k]), p.workers[v]); }
    }
  }

  lemma StepKeepsWork(r: Round, p: Pool, w: nat)
    requires PlainRound(r) && Inv(r, p) && CanStep(p, w) && InRound(r, p)
    ensures WorkOk(r, Step(r, p, w)) && Matches(r, Step(r, p, w).done, Step(r, p, w).sides)
  {
    hide Calls, PlainPlan, Matches, ExecCall, Observed, Placed, PlainRound;
    if p.workers[w].Busy? {
      CallKeepsWork(r, p, w);
    } else {
      var p' := Step(r, p, w);
      assert WorkerOk(r, p, p.workers[w]);
      assert p.queue != [] ==> p.queue[0] in p.queue && forall i :: i in p.queue[1..] ==> i in p.queue;
      forall v | 0 <= v < |p'.workers| ensures WorkerOk(r, p', p'.workers[v]) {
        if v != w { assert WorkerOk(r, p, p.workers[v]); }
      }
    }
  }

  lemma StepKeepsInv(r: Round, p: Pool, w: nat)
    requires PlainRound(r) && Inv(r, p) && CanStep(p, w) && InRound(r, p)
    ensures Inv(r, Step(r, p, w))
  {
    hide Placed, WorkOk, Matches, InRound, PlainRound, Step;
    StepKeepsPlaced(r, p, w);
    StepKeepsWork(r, p, w);
  }

  // ----- Runs -----

  /** A schedule: which worker moves at each step. */
  ghost predicate IsRun(r: Round, run: seq<Pool>, schedule: seq<nat>) {
    && |run| == |schedule| + 1
    && InitPool(r, run[0])
    && forall t :: 0 <= t < |schedule| ==>
         CanStep(run[t], schedule[t]) && InRound(r, run[t]) && run[t + 1] == Step(r, run[t], schedule[t])
  }

  lemma {:induction false} RunKeepsInv(r: Round, run: seq<Pool>, schedule: seq<nat>, t: nat)
    requires PlainRound(r) && IsRun(r, run, schedule) && t < |run|
    ensures Inv(r, run[t])
  {
    hide Inv, Step, PlainRound, InitPool;
    if t == 0 {
      InitKeepsInv(r, run[0]);
    } else {
      RunKeepsInv(r, run, schedule, t - 1);
      assert CanStep(run[t - 1], schedule[t - 1]) && run[t - 1 + 1] == Step(r, run[t - 1], schedule[t - 1]);
      StepKeepsInv(r, run[t - 1], schedule[t - 1]);
    }
  }

  // ----- What holds of every round, whatever its plans do to each other -----

  predicate OneOpEach(r: Round) {
    forall i :: 0 <= i < |r.plans| ==> PlainPlan(r.plans[i])
  }

  ghost predicate Tracked(r: Round, p: Pool) {
    InRound(r, p) && Placed(r, p) && Labelled(r, p)
  }

  lemma StepKeepsInRound(r: Round, p: Pool, w: nat)
    requires InRound(r, p) && Labelled(r, p) && CanStep(p, w)
    ensures InRound(r, Step(r, p, w)) && Labelled(r, Step(r, p, w))
  {
    hide Calls, PlainPlan, ExecCall, Observed;
    var next := Step(r, p, w);
    assert p.queue != [] ==> p.queue[0] in p.queue && forall i :: i in p.queue[1..] ==> i in p.queue;
    forall v | 0 <= v < |next.workers| && v != w ensures next.workers[v] == p.workers[v] {
    }
  }

  lemma {:induction false} RunIsTracked(r: Round, run: seq<Pool>, schedule: seq<nat>, t: nat)
    requires OneOpEach(r) && IsRun(r, run, schedule) && t < |run|
    ensures Tracked(r, run[t])
  {
    hide Placed, Labelled, Step, PlainPlan, InitPool, InRound;
    if t == 0 {
      InitIsTracked(r, run[0]);
    } else {
      RunIsTracked(r, run, schedule, t - 1);
      assert CanStep(run[t - 1], schedule[t - 1]) && run[t - 1 + 1] == Step(r, run[t - 1], schedule[t - 1]);
      StepKeepsPlaced(r, run[t - 1], schedule[t - 1]);
      StepKeepsInRound(r, run[t - 1], schedule[t - 1]);
    }
  }

  lemma InitIsTracked(r: Round, p: Pool)
    requires OneOpEach(r) && InitPool(r, p)
    ensures Tracked(r, p)
  {
    hide Calls, PlainPlan;
  }

  /** At every moment each plan is in the queue, with one worker, or in the results: it is popped once. */
  lemma EachPlanInOnePlace(r: Round, run: seq<Pool>, schedule: seq<nat>, t: nat, i: nat)
    requires OneOpEach(r) && IsRun(r, run, schedule) && t < |run| && i < |r.plans|
    ensures var p := run[t];
            && (i in p.queue || Owned(p, i) || Reported(p, i))
            && !(i in p.queue && Owned(p, i)) && !(i in p.queue && Reported(p, i)) && !(Owned(p, i) && Reported(p, i))
  {
    RunIsTracked(r, run, schedule, t);
    hide InRound, Labelled, Step, PlainPlan;
    var p := run[t];
    var first := |r.plans| - |p.queue|;
    if i >= first {
      assert p.queue[i - first] == i;
    }
  }

  ghost predicate Increasing(entries: seq<Entry>) {
    forall k, l :: 0 <= k < l < |entries| ==> entries[k].index < entries[l].index
  }

  lemma RestElements(a: seq<Entry>, e: Entry)
    requires a != [] && Increasing(a)
    ensures Increasing(a[1..])
    ensures e in a[1..] <==> e in a && e != a[0]
  {
    if e in a && e != a[0] {
      var k :| 0 <= k < |a| && a[k] == e;
      assert a[1..][k - 1] == e;
    }
  }

  /** Two increasing lists of the same entries are the same list. */
  lemma {:induction false} IncreasingUnique(a: seq<Entry>, b: seq<Entry>)
    requires Increasing(a) && Increasing(b) && forall e :: e in a <==> e in b
    ensures a == b
  {
    if a == [] {
      EmptyOrInhabited(b);
    } else {
      assert a[0] in b && b[0] in b;
      var k :| 0 <= k < |b| && b[k] == a[0];
      var l :| 0 <= l < |a| && a[l] == b[0];
      assert k == 0 && l == 0;
      forall e ensures e in a[1..] <==> e in b[1..] {
        RestElements(a, e);
        RestElements(b, e);
      }
      IncreasingUnique(a[1..], b[1..]);
    }
  }

  /** Distinct entries that are all some plan's fate have distinct indices, so sorting makes them increase. */
  lemma SortedFatesIncrease(r: Round, entries: seq<Entry>)
    requires Sorted(ByIndex, entries) && Distinct(entries) && forall e :: e in entries ==> IsFate(r, e)
    ensures Increasing(entries)
  {
    hide FateOf, PlainPlan;
    forall k, l | 0 <= k < l < |entries| ensures entries[k].index < entries[l].index {
      assert ByIndex(entries[k], entries[l]) && entries[k] != entries[l];
      assert entries[k] in entries && entries[l] in entries;
    }
  }

  /** With nobody left, the results are every plan's fate. */
  lemma FinishedResults(r: Round, p: Pool, entries: seq<Entry>)
    requires Inv(r, p) && AllExited(p) && p.queue == []
    requires |entries| == |r.plans| && forall k :: 0 <= k < |entries| ==> entries[k].index == k && IsFate(r, entries[k])
    ensures Returned(p) == entries
    ensures FatesMet(r, p.done, |r.plans|)
  {
    hide Calls, PlainPlan, Fate, Matches;
    ByIndexIsPreorder();
    forall i | 0 <= i < |r.plans| ensures Reported(p, i) && p.done[i] == FateOf(r, i).0 {
      assert Owned(p, i) || Reported(p, i);
    }
    forall e ensures e in p.results <==> e in entries {
      if e in p.results {
        assert entries[e.index] == e;
      }
      if e in entries {
        assert Reported(p, e.index);
        var x :| x in p.results && x.index == e.index;
      }
    }
    SortDistinct(ByIndex, p.results);
    SortedFatesIncrease(r, Returned(p));
    IncreasingUnique(Returned(p), entries);
    assert forall i :: 0 <= i < |r.plans| ==> PlainPlan(r.plans[i]) by {
      forall i | 0 <= i < |r.plans| ensures PlainPlan(r.plans[i]) {
        assert IsFate(r, entries[i]);
      }
    }
  }

  lemma {:induction false} ExitedMeansDrained(r: Round, run: seq<Pool>, schedule: seq<nat>, t: nat)
    requires IsRun(r, run, schedule) && t < |run|
    ensures |run[t].workers| >= 1
    ensures (exists w :: 0 <= w < |run[t].workers| && run[t].workers[w].Exited?) ==> run[t].queue == []
  {
    hide ExecCall, Calls, PlainPlan;
    if t > 0 {
      ExitedMeansDrained(r, run, schedule, t - 1);
      assert CanStep(run[t - 1], schedule[t - 1]) && run[t - 1 + 1] == Step(r, run[t - 1], schedule[t - 1]);
      var p, p', w := run[t - 1], run[t], schedule[t - 1];
      if exists v :: 0 <= v < |p'.workers| && p'.workers[v].Exited? {
        var v :| 0 <= v < |p'.workers| && p'.workers[v].Exited?;
        if v != w { assert p.workers[v].Exited?; }
      }
    }
  }

  ghost predicate HasIndex(entries: seq<Entry>, i: int) {
    exists e :: e in entries && e.index == i
  }

  lemma LargestIsLast(entries: seq<Entry>, top: nat)
    requires Increasing(entries) && HasIndex(entries, top) && forall e :: e in entries ==> e.index <= top
    ensures entries != [] && entries[|entries| - 1].index == top
  {
    var e :| e in entries && e.index == top;
    var l :| 0 <= l < |entries| && entries[l] == e;
    var last := entries[|entries| - 1];
    assert last in entries && last.index <= top;
    assert l < |entries| - 1 ==> entries[l].index < last.index;
  }

  lemma OthersAreInFront(entries: seq<Entry>, i: int)
    requires entries != [] && HasIndex(entries, i) && entries[|entries| - 1].index != i
    ensures HasIndex(entries[..|entries| - 1], i)
  {
    var e :| e in entries && e.index == i;
    var l :| 0 <= l < |entries| && entries[l] == e;
    assert entries[..|entries| - 1][l] == e;
  }

  lemma FrontIsSmaller(entries: seq<Entry>, e: Entry)
    requires Increasing(entries) && entries != [] && e in entries[..|entries| - 1]
    ensures e.index < entries[|entries| - 1].index
  {
    var l :| 0 <= l < |entries| - 1 && entries[..|entries| - 1][l] == e;
    assert entries[l] == e;
  }

  /** Indices that increase and leave none out are the positions. */
  lemma {:induction false} DenseIndices(entries: seq<Entry>, n: nat)
    requires Increasing(entries) && (forall e :: e in entries ==> e.index < n)
    requires forall i :: 0 <= i < n ==> HasIndex(entries, i)
    ensures |entries| == n && forall k :: 0 <= k < n ==> entries[k].index == k
    decreases n
  {
    if n == 0 {
      EmptyOrInhabited(entries);
    } else {
      LargestIsLast(entries, n - 1);
      var front := entries[..|entries| - 1];
      forall e | e in front ensures e.index < n - 1 {
        FrontIsSmaller(entries, e);
      }
      forall i | 0 <= i < n - 1 ensures HasIndex(front, i) {
        OthersAreInFront(entries, i);
      }
      hide HasIndex;
      DenseIndices(front, n - 1);
      assert forall k :: 0 <= k < n - 1 ==> entries[k] == front[k];
    }
  }

  /** For any plans, worker count and schedule: once all workers have left, entry `k` of the list returned is plan `k`'s. */
  lemma ReturnedInPlanOrder(r: Round, run: seq<Pool>, schedule: seq<nat>)
    requires OneOpEach(r) && IsRun(r, run, schedule) && AllExited(run[|schedule|])
    ensures var entries := Returned(run[|schedule|]);
            |entries| == |r.plans| && forall k :: 0 <= k < |entries| ==> entries[k].index == k && entries[k].plan == r.plans[k]
  {
    RunIsTracked(r, run, schedule, |schedule|);
    ExitedMeansDrained(r, run, schedule, |schedule|);
    var p := run[|schedule|];
    assert p.workers[0].Exited?;
    hide IsRun, InRound, Step, PlainPlan;
    ResultsInPlanOrder(r, p);
  }

  lemma ResultsInPlanOrder(r: Round, p: Pool)
    requires Placed(r, p) && Labelled(r, p) && AllExited(p) && p.queue == []
    ensures var entries := Returned(p);
            |entries| == |r.plans| && forall k :: 0 <= k < |entries| ==> entries[k].index == k && entries[k].plan == r.plans[k]
  {
    ByIndexIsPreorder();
    SortDistinct(ByIndex, p.results);
    var entries := Returned(p);
    forall k, l | 0 <= k < l < |entries| ensures entries[k].index < entries[l].index {
      assert entries[k] in p.results && entries[l] in p.results && ByIndex(entries[k], entries[l]);
    }
    forall i | 0 <= i < |r.plans| ensures HasIndex(entries, i) {
      assert Owned(p, i) || Reported(p, i);
    }
    DenseIndices(entries, |r.plans|);
    forall k | 0 <= k < |entries| ensures entries[k].plan == r.plans[k] {
      assert entries[k] in p.results && FitsPlan(r, entries[k]);
    }
  }

  /**
   * Confluence: for any worker count and any schedule, once all workers have left, the list returned is
   * in plan order and both it and the two trees are those of sequential execution.
   */
  lemma PoolIsSequential(r: Round, run: seq<Pool>, schedule: seq<nat>)
    requires PlainRound(r) && IsRun(r, run, schedule) && AllExited(run[|schedule|])
    ensures var (sides, entries) := RunPlans(r, 0, r.init);
            run[|schedule|].sides == sides && Returned(run[|schedule|]) == entries
  {
    hide Matches, Placed, WorkOk, Calls, PlainPlan, RunPlans, InRound, Step, Returned;
    var last := run[|schedule|];
    RunKeepsInv(r, run, schedule, |schedule|);
    ExitedMeansDrained(r, run, schedule, |schedule|);
    assert last.workers[0].Exited?;
    InitKeepsInv(r, run[0]);
    var final := SequentialPlans(r, 0, run[0].done, r.init);
    FinishedResults(r, last, RunPlans(r, 0, r.init).1);
    assert final == last.done;
    CountsDetermineSides(r, final, RunPlans(r, 0, r.init).0, last.sides);
  }

  ghost predicate NothingUnder(t: Tree, p: Path) {
    forall q :: Under(q, p) ==> q !in t
  }

  /**
   * What sequential execution, and so every schedule, leaves at a plan's own path when the plan succeeds:
   * its transfer, its directory, or nothing, with nothing beneath a removed directory.
   */
  lemma PoolDoesEachPlan(r: Round, i: nat)
    requires PlainRound(r) && i < |r.plans| && Works(r.plans[i])
    ensures var (sides, entries) := RunPlans(r, 0, r.init);
            var p := r.plans[i].path;
            && |entries| == |r.plans| && entries[i].plan == r.plans[i]
            && (entries[i].result.Ok? ==> match r.plans[i].ops[0]
                 case PullFile => p in r.init.remote && r.init.remote[p].File?
                   && Get(sides.local, p) == Get(sides.remote, p) == Get(r.init.remote, p)
                   && entries[i].result.value == Outcome(Some(Sha256(r.init.remote[p].content)), None)
                 case PushFile => p in r.init.local && r.init.local[p].File?
                   && Get(sides.remote, p) == Get(sides.local, p) == Get(r.init.local, p)
                   && entries[i].result.value == Outcome(None, r.tokens(i))
                 case CreateLocalDir => Get(sides.local, p) == Some(Dir)
                 case CreateRemoteDir => Get(sides.remote, p) == Some(Dir)
                 case DeleteLocal(kind) =>
                   && p !in sides.local && (Sheltered(r, i) ==> Get(sides.remote, p) == Get(r.init.remote, p))
                   && (kind == DirKind ==> NothingUnder(sides.local, p))
                 case DeleteRemote(kind) =>
                   && p !in sides.remote && (Sheltered(r, i) ==> Get(sides.local, p) == Get(r.init.local, p))
                   && (kind == DirKind ==> NothingUnder(sides.remote, p)))
  {
    hide RunPlans, Calls, PlainPlan, ExecCall, NodeOk, Independent, Sheltered, Matches;
    var zero := seq(|r.plans|, _ => 0);
    StartMatches(r, zero);
    var final := SequentialPlans(r, 0, zero, r.init);
    var (sides, entries) := RunPlans(r, 0, r.init);
    assert entries[i].index == 0 + i && IsFate(r, entries[i]);
    FateOfEachKind(r, i);
    PlanKinds(r.plans[i]);
    if Transfers(r.plans[i]) {
      TransfersAreSheltered(r, i);
    }
    if entries[i].result.Ok? {
      assert final[i] == FateOf(r, i).0 == |Calls(r.plans[i])|;
      FinishedPlan(r, final, sides, i);
      var p, last := r.plans[i].path, Calls(r.plans[i])[final[i] - 1];
      assert last.path == p && Writes(last, last.side, p);
      assert last.EraseTree? ==> forall q :: Under(q, p) ==> Writes(last, last.side, q);
    }
  }

  /** The last call of a plan that has made all its calls is what counts at the plan's path. */
  lemma FinishedPlan(r: Round, done: seq<nat>, s: Sides, i: nat)
    requires PlainRound(r) && Matches(r, done, s) && i < |r.plans| && Works(r.plans[i])
    requires done[i] == |Calls(r.plans[i])|
    ensures var last := Calls(r.plans[i])[done[i] - 1];
            && (forall q :: Writes(last, last.side, q) ==> Get(s.Of(last.side), q) == Written(r.init, last))
            && (!MakesDir(r.plans[i]) && Sheltered(r, i) ==>
                  Get(s.Of(Other(last.side)), r.plans[i].path) == Get(r.init.Of(Other(last.side)), r.plans[i].path))
  {
    hide Calls, PlainPlan, Written, Independent, Sheltered, Under;
    var last := Calls(r.plans[i])[done[i] - 1];
    assert last in Calls(r.plans[i]) && CallFits(r.plans[i], last);
    forall q | Writes(last, last.side, q) ensures Get(s.Of(last.side), q) == Written(r.init, last) {
      assert NodeOk(r, done, s, last.side, q) && DidWrite(r, done, i, done[i] - 1, last.side, q);
      var j, l :| DidWrite(r, done, j, l, last.side, q) && Get(s.Of(last.side), q) == Written(r.init, Calls(r.plans[j])[l]);
      WritersAgree(r, done, i, done[i] - 1, j, l, last.side, q);
    }
    if !MakesDir(r.plans[i]) && Sheltered(r, i) {
      OtherSideUntouched(r, done, s, i);
    }
  }

  /** A transfer or removal on one side leaves the other side's node alone, and so does everyone else. */
  lemma OtherSideUntouched(r: Round, done: seq<nat>, s: Sides, i: nat)
    requires PlainRound(r) && Matches(r, done, s) && i < |r.plans| && Works(r.plans[i]) && !MakesDir(r.plans[i])
    requires Sheltered(r, i)
    ensures var side := Other(Calls(r.plans[i])[|Calls(r.plans[i])| - 1].side);
            Get(s.Of(side), r.plans[i].path) == Get(r.init.Of(side), r.plans[i].path)
  {
    PlanKinds(r.plans[i]);
    hide Calls, PlainPlan, ExecCall;
    var p, calls := r.plans[i].path, Calls(r.plans[i]);
    var last := calls[|calls| - 1];
    var side := Other(last.side);
    assert last in calls && CallFits(r.plans[i], last);
    assert NodeOk(r, done, s, side, p);
    forall j, l ensures !DidWrite(r, done, j, l, side, p) {
      if DidWrite(r, done, j, l, side, p) {
        NoWriterOnOtherSide(r, done, i, j, l, side);
      }
    }
  }

  lemma PlanKinds(plan: PathPlan)
    requires PlainPlan(plan) && Works(plan)
    ensures Transfers(plan) || MakesDir(plan) || Deletes(plan)
    ensures Transfers(plan) <==> plan.ops[0].PullFile? || plan.ops[0].PushFile?
    ensures !MakesDir(plan) ==> !Calls(plan)[|Calls(plan)| - 1].MakeDir? && !Calls(plan)[|Calls(plan)| - 1].OpenFile?
  {
    assert plan.ops == [plan.ops[0]];
    match plan.ops[0]
    case DeleteLocal(kind) => assert DeletesKindOn(plan, LocalSide, kind) && (kind == FileKind || kind == DirKind);
    case DeleteRemote(kind) => assert DeletesKindOn(plan, RemoteSide, kind) && (kind == FileKind || kind == DirKind);
    case _ =>
  }

  lemma NoWriterOnOtherSide(r: Round, done: seq<nat>, i: nat, j: int, l: int, side: Side)
    requires PlainRound(r) && i < |r.plans| && (Transfers(r.plans[i]) || Deletes(r.plans[i])) && Sheltered(r, i)
    requires side == Other(Calls(r.plans[i])[|Calls(r.plans[i])| - 1].side)
    ensures !DidWrite(r, done, j, l, side, r.plans[i].path)
  {
    assert Works(r.plans[i]) && !MakesDir(r.plans[i]);
    PlanKinds(r.plans[i]);
    hide Calls, PlainPlan, ExecCall, Independent, Sheltered, Under, Writes, CallFits, Transfers, Deletes, MakesDir, Works;
    if DidWrite(r, done, j, l, side, r.plans[i].path) {
      if i == j {
        NoOwnWriter(r.plans[i], l);
      } else {
        var last, d := Calls(r.plans[i])[|Calls(r.plans[i])| - 1], Calls(r.plans[j])[l];
        assert last in Calls(r.plans[i]) && d in Calls(r.plans[j]);
        NoOtherWriter(r, i, last, j, d, side);
      }
    }
  }

  lemma NoOwnWriter(plan: PathPlan, l: nat)
    requires PlainPlan(plan) && Works(plan) && !MakesDir(plan) && l < |Calls(plan)|
    ensures !Writes(Calls(plan)[l], Other(Calls(plan)[|Calls(plan)| - 1].side), plan.path)
  {
    hide Calls, PlainPlan, Under;
    var d := Calls(plan)[l];
    assert d in Calls(plan) && CallFits(plan, d);
    assert Calls(plan)[|Calls(plan)| - 1] in Calls(plan);
    NotUnderItself(plan.path);
  }

  lemma NoOtherWriter(r: Round, i: nat, last: Call, j: nat, d: Call, side: Side)
    requires PlainRound(r) && i < |r.plans| && j < |r.plans| && i != j && Sheltered(r, i)
    requires CallFits(r.plans[i], last) && !last.MakeDir? && !last.OpenFile? && side == Other(last.side)
    requires CallFits(r.plans[j], d)
    ensures !Writes(d, side, r.plans[i].path)
  {
    hide Calls, PlainPlan, ExecCall, Under;
    var p, p' := r.plans[i].path, r.plans[j].path;
    assert p != p' && (Under(p, p') ==> Compatible(r, i, j) || !Works(r.plans[i]) || !Works(r.plans[j]));
    assert Under(p', p) ==> Compatible(r, j, i) || !Works(r.plans[i]) || !Works(r.plans[j]);
  }

  /** A failed transfer or removal leaves its path as it was, unless a directory above is being removed. */
  lemma PoolSparesFailedPaths(r: Round, i: nat)
    requires PlainRound(r) && i < |r.plans| && Works(r.plans[i]) && !MakesDir(r.plans[i]) && Sheltered(r, i)
    ensures var (sides, entries) := RunPlans(r, 0, r.init);
            |entries| == |r.plans| && (entries[i].result.Err? ==> SameAt(sides, r.init, r.plans[i].path))
  {
    hide RunPlans, Calls, PlainPlan, ExecCall, NodeOk, Independent, Sheltered, Matches;
    var zero := seq(|r.plans|, _ => 0);
    StartMatches(r, zero);
    var final := SequentialPlans(r, 0, zero, r.init);
    var (sides, entries) := RunPlans(r, 0, r.init);
    assert entries[i].index == 0 + i && IsFate(r, entries[i]);
    FateOfEachKind(r, i);
    PlanKinds(r.plans[i]);
    if entries[i].result.Err? {
      OwnPathUntouched(r, final, sides, i, LocalSide);
      OwnPathUntouched(r, final, sides, i, RemoteSide);
    }
  }

  /**
   * A plan with nothing to do reports nothing.  Its path stays as it was, but that a directory may appear
   * where nothing was, for the sake of something beneath, and that everything goes with a removed directory.
   */
  lemma PoolSparesIdlePaths(r: Round, i: nat, side: Side)
    requires PlainRound(r) && i < |r.plans| && !Works(r.plans[i])
    ensures var (sides, entries) := RunPlans(r, 0, r.init);
            var p := r.plans[i].path;
            var was, now := Get(r.init.Of(side), p), Get(sides.Of(side), p);
            && |entries| == |r.plans| && entries[i].plan == r.plans[i] && entries[i].result == Ok(Outcome(None, None))
            && (now == was || (now == Some(Dir) && was == None && WorkBeneath(r, i)) || (now == None && !Sheltered(r, i)))
  {
    assert Calls(r.plans[i]) == [];
    hide RunPlans, Calls, PlainPlan, ExecCall, Independent, Sheltered, WorkBeneath, NodeOk, Matches;
    var zero := seq(|r.plans|, _ => 0);
    StartMatches(r, zero);
    var final := SequentialPlans(r, 0, zero, r.init);
    var (sides, entries) := RunPlans(r, 0, r.init);
    assert entries[i].index == 0 + i && IsFate(r, entries[i]);
    IdlePath(r, final, sides, i, side);
  }

  ghost predicate WorkBeneath(r: Round, i: nat)
    requires i < |r.plans|
  {
    exists j :: 0 <= j < |r.plans| && Works(r.plans[j]) && Under(r.plans[j].path, r.plans[i].path)
  }

  lemma IdlePath(r: Round, done: seq<nat>, s: Sides, i: nat, side: Side)
    requires PlainRound(r) && Matches(r, done, s) && i < |r.plans| && !Works(r.plans[i])
    ensures var p := r.plans[i].path;
            var was, now := Get(r.init.Of(side), p), Get(s.Of(side), p);
            now == was || (now == Some(Dir) && was == None && WorkBeneath(r, i)) || (now == None && !Sheltered(r, i))
  {
    hide Calls, PlainPlan, Under;
    var p := r.plans[i].path;
    assert NodeOk(r, done, s, side, p);
    if exists j, l :: DidWrite(r, done, j, l, side, p) {
      var j, l :| DidWrite(r, done, j, l, side, p) && Get(s.Of(side), p) == Written(r.init, Calls(r.plans[j])[l]);
      var d := Calls(r.plans[j])[l];
      assert d in Calls(r.plans[j]) && CallFits(r.plans[j], d) && Did(r, done, j, l);
      assert i != j && r.plans[i].path != r.plans[j].path;
      assert ExecCall(r.init, d).Some?;
    }
  }

  /** A fate is a success exactly when every call is made. */
  lemma {:induction false} FateCounts(r: Round, i: nat, k: nat, outcome: Outcome)
    requires i < |r.plans| && PlainPlan(r.plans[i]) && k <= |Calls(r.plans[i])|
    ensures var (n, result) := Fate(r, i, k, outcome);
            && (result.Ok? <==> n == |Calls(r.plans[i])|)
            && (result.Ok? ==> forall l :: k <= l < |Calls(r.plans[i])| ==> ExecCall(r.init, Calls(r.plans[i])[l]).Some?)
            && (result.Ok? ==> result.value == if k == |Calls(r.plans[i])| then outcome
                  else Observed(outcome, r.init, Calls(r.plans[i])[|Calls(r.plans[i])| - 1], r.tokens(i)))
    decreases |Calls(r.plans[i])| - k
  {
    hide Calls, PlainPlan, ExecCall;
    var calls := Calls(r.plans[i]);
    if k < |calls| && !r.fails(i, k) && ExecCall(r.init, calls[k]).Some? {
      FateCounts(r, i, k + 1, Observed(outcome, r.init, calls[k], r.tokens(i)));
      if k + 1 < |calls| {
        assert !calls[k].CopyTo?;
      }
    }
  }

  lemma FateOfEachKind(r: Round, i: nat)
    requires i < |r.plans| && PlainPlan(r.plans[i]) && Works(r.plans[i])
    ensures var calls, last := Calls(r.plans[i]), Calls(r.plans[i])[|Calls(r.plans[i])| - 1];
            var p := r.plans[i].path;
            && (FateOf(r, i).1.Ok? <==> FateOf(r, i).0 == |calls|)
            && (FateOf(r, i).1.Ok? ==> match r.plans[i].ops[0]
                 case PullFile => last == CopyTo(LocalSide, p) && p in r.init.remote && r.init.remote[p].File?
                   && FateOf(r, i).1.value == Outcome(Some(Sha256(r.init.remote[p].content)), None)
                 case PushFile => last == CopyTo(RemoteSide, p) && p in r.init.local && r.init.local[p].File?
                   && FateOf(r, i).1.value == Outcome(None, r.tokens(i))
                 case CreateLocalDir => last == MakeDir(LocalSide, p)
                 case CreateRemoteDir => last == MakeDir(RemoteSide, p)
                 case DeleteLocal(kind) => last == (if kind == FileKind then Erase(LocalSide, p) else EraseTree(LocalSide, p))
                 case DeleteRemote(kind) => last == (if kind == FileKind then Erase(RemoteSide, p) else EraseTree(RemoteSide, p)))
  {
    hide Fate;
    FateCounts(r, i, 0, Outcome(None, None));
    var calls := Calls(r.plans[i]);
    assert FateOf(r, i).1.Ok? ==> ExecCall(r.init, calls[|calls| - 1]).Some?;
  }

  // ----- A removed directory may only hold removals -----

  /** Plan `j` removes a remote directory, and plan `i` pulls a file from inside it. */
  predicate RacingPair(r: Round, i: nat, j: nat) {
    && i < |r.plans| && j < |r.plans| && OneOpEach(r)
    && r.plans[i].ops == [PullFile] && r.plans[j].ops == [DeleteRemote(DirKind)] && Under(r.plans[i].path, r.plans[j].path)
  }

  /** One plan by itself. */
  function Alone(r: Round, i: nat, s: Sides): (Sides, Result<Outcome, ()>)
    requires i < |r.plans| && PlainPlan(r.plans[i])
  {
    RunCalls(r, i, s, 0, Outcome(None, None))
  }

  /** A pull does to the local side what it does whatever the remote side holds, as long as it fails in the end. */
  lemma {:induction false} PullWithoutSource(r: Round, i: nat, s: Sides, t: Sides, k: nat, outcome: Outcome)
    requires i < |r.plans| && r.plans[i].ops == [PullFile] && k < |Calls(r.plans[i])|
    requires s.local == t.local && r.plans[i].path !in t.remote
    ensures var (after, result) := RunCalls(r, i, s, k, outcome);
            var (without, failed) := RunCalls(r, i, t, k, outcome);
            && after.remote == s.remote && without.remote == t.remote && failed == Err(())
            && (result.Err? ==> result == failed && after.local == without.local)
    decreases |Calls(r.plans[i])| - k
  {
    var calls := Calls(r.plans[i]);
    PullCallsAre(r.plans[i], k);
    PullCallsAlike(s, t, calls[k], r.plans[i].path);
    hide Calls, ExecCall;
    if k < |calls| - 1 && !r.fails(i, k) && ExecCall(s, calls[k]).Some? {
      PullWithoutSource(r, i, ExecCall(s, calls[k]).value, ExecCall(t, calls[k]).value, k + 1, outcome);
    }
  }

  /** A pull's calls on two sides that differ remotely, one of which has nothing to pull. */
  lemma PullCallsAlike(s: Sides, t: Sides, c: Call, p: Path)
    requires s.local == t.local && p !in t.remote && c.side.LocalSide? && (c.MakeDir? || c == CopyTo(LocalSide, p))
    ensures ExecCall(s, c).Some? ==> ExecCall(s, c).value.remote == s.remote
    ensures c.CopyTo? ==> ExecCall(t, c).None?
    ensures c.MakeDir? ==> (ExecCall(s, c).Some? <==> ExecCall(t, c).Some?)
    ensures c.MakeDir? && ExecCall(s, c).Some? ==>
              ExecCall(t, c).value.remote == t.remote && ExecCall(t, c).value.local == ExecCall(s, c).value.local
  {
    hide Exec;
  }

  lemma PullCallsAre(plan: PathPlan, k: nat)
    requires plan.ops == [PullFile] && k < |Calls(plan)|
    ensures var c := Calls(plan)[k];
            c.side == LocalSide && if k < |Calls(plan)| - 1 then c.MakeDir? else c == CopyTo(LocalSide, plan.path)
  {
    assert Calls(plan) == Beneath(LocalSide, plan.path, CopyTo(LocalSide, plan.path));
  }

  lemma RemovalAlone(r: Round, j: nat, s: Sides)
    requires j < |r.plans| && r.plans[j].ops == [DeleteRemote(DirKind)]
    ensures var (after, result) := Alone(r, j, s);
            var removed := Exec(s.remote, RemoveAll(r.plans[j].path));
            if r.fails(j, 0) || removed.Err? then after == s && result == Err(())
            else after == s.(remote := removed.value) && result == Ok(Outcome(None, None))
  {
    var call := EraseTree(RemoteSide, r.plans[j].path);
    assert Calls(r.plans[j]) == [call];
    if !r.fails(j, 0) && ExecCall(s, call).Some? {
      assert RunCalls(r, j, s, 0, Outcome(None, None)) == RunCalls(r, j, ExecCall(s, call).value, 1, Outcome(None, None));
    }
  }

  /**
   * A remote directory's removal and a pull from inside it, on any trees and under any outside failures: the
   * two orders leave the same trees and report the same exactly when not both would succeed alone.
   */
  lemma RemovalRacesWithPull(r: Round, i: nat, j: nat, s: Sides)
    requires RacingPair(r, i, j)
    ensures var (removed, removal) := Alone(r, j, s);
            var (pulled, pull) := Alone(r, i, s);
            (Alone(r, i, removed) == (Alone(r, j, pulled).0, pull) && Alone(r, j, pulled).1 == removal)
            <==> !(removal.Ok? && pull.Ok?)
  {
    var (removed, removal) := Alone(r, j, s);
    var (pulled, pull) := Alone(r, i, s);
    var p, q := r.plans[j].path, r.plans[i].path;
    RemovalAlone(r, j, s);
    RemovalAlone(r, j, pulled);
    PullKeepsRemote(r, i, s, 0, Outcome(None, None));
    if removal.Ok? {
      assert q !in removed.remote;
      CallsExist(r.plans[i]);
      PullWithoutSource(r, i, s, removed, 0, Outcome(None, None));
      var (without, failed) := Alone(r, i, removed);
      var (after, again) := Alone(r, j, pulled);
      assert again == removal && after.local == pulled.local;
      assert without.remote == removed.remote == after.remote;
    }
  }

  lemma CallsExist(plan: PathPlan)
    requires plan.ops == [PullFile]
    ensures |Calls(plan)| > 0
  {
  }

  lemma {:induction false} PullKeepsRemote(r: Round, i: nat, s: Sides, k: nat, outcome: Outcome)
    requires i < |r.plans| && r.plans[i].ops == [PullFile] && k <= |Calls(r.plans[i])|
    ensures RunCalls(r, i, s, k, outcome).0.remote == s.remote
    decreases |Calls(r.plans[i])| - k
  {
    var calls := Calls(r.plans[i]);
    if k < |calls| {
      PullCallsAre(r.plans[i], k);
      hide Calls;
      if !r.fails(i, k) && ExecCall(s, calls[k]).Some? {
        PullKeepsRemote(r, i, ExecCall(s, calls[k]).value, k + 1, Observed(outcome, s, calls[k], r.tokens(i)));
      }
    }
  }

  // ----- The two orders of a pair are two schedules -----

  /** Some schedule of the workers ends with the pool `last`. */
  ghost predicate Finishes(r: Round, last: Pool) {
    exists run, schedule :: IsRun(r, run, schedule) && run[|schedule|] == last && AllExited(last)
  }

  ghost predicate Leads(r: Round, p: Pool, schedule: seq<nat>, last: Pool)
    decreases |schedule|
  {
    if schedule == [] then p == last
    else CanStep(p, schedule[0]) && InRound(r, p) && Leads(r, Step(r, p, schedule[0]), schedule[1..], last)
  }

  lemma {:induction false} LeadsOn(r: Round, p: Pool, first: seq<nat>, mid: Pool, second: seq<nat>, last: Pool)
    requires Leads(r, p, first, mid) && Leads(r, mid, second, last)
    ensures Leads(r, p, first + second, last)
    decreases |first|
  {
    hide Step, InRound, CanStep;
    if first == [] {
      assert first + second == second;
    } else {
      assert (first + second)[0] == first[0] && (first + second)[1..] == first[1..] + second;
      LeadsOn(r, Step(r, p, first[0]), first[1..], mid, second, last);
    }
  }

  lemma {:induction false} LeadsIsRun(r: Round, p: Pool, schedule: seq<nat>, last: Pool) returns (run: seq<Pool>)
    requires Leads(r, p, schedule, last)
    ensures |run| == |schedule| + 1 && run[0] == p && run[|schedule|] == last
    ensures forall t :: 0 <= t < |schedule| ==>
              CanStep(run[t], schedule[t]) && InRound(r, run[t]) && run[t + 1] == Step(r, run[t], schedule[t])
    decreases |schedule|
  {
    hide Step, InRound, CanStep;
    if schedule == [] {
      run := [p];
    } else {
      var rest := LeadsIsRun(r, Step(r, p, schedule[0]), schedule[1..], last);
      run := [p] + rest;
      forall t | 0 <= t < |schedule|
        ensures CanStep(run[t], schedule[t]) && InRound(r, run[t]) && run[t + 1] == Step(r, run[t], schedule[t])
      {
        if t > 0 {
          assert run[t] == rest[t - 1] && run[t + 1] == rest[t - 1 + 1] && schedule[t] == schedule[1..][t - 1];
        }
      }
    }
  }

  lemma OneStep(r: Round, p: Pool, w: nat)
    requires CanStep(p, w) && InRound(r, p) && Labelled(r, p)
    ensures Leads(r, p, [w], Step(r, p, w)) && InRound(r, Step(r, p, w)) && Labelled(r, Step(r, p, w))
  {
    StepKeepsInRound(r, p, w);
    hide Step, InRound, Labelled, CanStep;
    assert [w][1..] == [];
  }

  /** One worker steps until it holds its plan's result. */
  lemma {:induction false} WorkerRuns(r: Round, p: Pool, w: nat, i: nat, k: nat, outcome: Outcome)
    returns (schedule: seq<nat>, last: Pool)
    requires InRound(r, p) && Labelled(r, p) && w < |p.workers| && p.workers[w] == Busy(i, k, outcome)
    ensures Leads(r, p, schedule, last) && InRound(r, last) && Labelled(r, last)
    ensures last.sides == RunCalls(r, i, p.sides, k, outcome).0 && last.queue == p.queue && last.results == p.results
    ensures last.workers == p.workers[w := Holding(Entry(i, r.plans[i], RunCalls(r, i, p.sides, k, outcome).1))]
    decreases |Calls(r.plans[i])| - k
  {
    var next := Step(r, p, w);
    OneStep(r, p, w);
    BusyStep(r, p, w, i, k, outcome);
    hide InRound, Labelled, Calls, ExecCall, Observed, Step, RunCalls, Leads, CanStep;
    if next.workers[w].Holding? {
      schedule, last := [w], next;
    } else {
      var rest;
      rest, last := WorkerRuns(r, next, w, i, k + 1, next.workers[w].outcome);
      schedule := [w] + rest;
      LeadsOn(r, p, [w], next, rest, last);
    }
  }

  /** A busy worker's step is the next call of its plan, or hands over what the plan comes to. */
  lemma BusyStep(r: Round, p: Pool, w: nat, i: nat, k: nat, outcome: Outcome)
    requires InRound(r, p) && w < |p.workers| && p.workers[w] == Busy(i, k, outcome)
    ensures var next := Step(r, p, w);
            && next.queue == p.queue && next.results == p.results && next.workers == p.workers[w := next.workers[w]]
            && (next.workers[w].Holding? ==>
                  next.sides == RunCalls(r, i, p.sides, k, outcome).0
                  && next.workers[w] == Holding(Entry(i, r.plans[i], RunCalls(r, i, p.sides, k, outcome).1)))
            && (!next.workers[w].Holding? ==>
                  k < |Calls(r.plans[i])| && next.workers[w] == Busy(i, k + 1, next.workers[w].outcome)
                  && RunCalls(r, i, p.sides, k, outcome) == RunCalls(r, i, next.sides, k + 1, next.workers[w].outcome))
  {
    hide Calls, ExecCall, Observed;
  }

  lemma TwoSteps(r: Round, p: Pool, mid: Pool, last: Pool)
    requires CanStep(p, 0) && InRound(r, p) && Labelled(r, p) && mid == Step(r, p, 0)
    requires CanStep(mid, 1) && InRound(r, mid) && last == Step(r, mid, 1)
    ensures Leads(r, p, [0, 1], last) && InRound(r, last) && Labelled(r, last)
  {
    OneStep(r, p, 0);
    OneStep(r, mid, 1);
    hide Step, InRound, Labelled, CanStep;
    LeadsOn(r, p, [0], mid, [1], last);
    assert [0] + [1] == [0, 1];
  }

  predicate TwoWorkers(r: Round) {
    OneOpEach(r) && |r.plans| == 2 && r.concurrency >= 2
  }

  /** Two workers take the two plans. */
  lemma BothTaken(r: Round) returns (start: Pool, taken: Pool)
    requires TwoWorkers(r)
    ensures InitPool(r, start) && Leads(r, start, [0, 1], taken) && InRound(r, taken) && Labelled(r, taken)
    ensures taken == Pool(r.init, [], [Busy(0, 0, Outcome(None, None)), Busy(1, 0, Outcome(None, None))], [], taken.done)
  {
    start := Pool(r.init, seq(2, i => i), [Waiting, Waiting], [], seq(2, _ => 0));
    hide PlainPlan, Calls;
    var mid := Step(r, start, 0);
    assert mid.queue == [1] && mid.workers == [Busy(0, 0, Outcome(None, None)), Waiting];
    taken := Step(r, mid, 1);
    TwoSteps(r, start, mid, taken);
  }

  /** Both results are handed back, and both workers leave. */
  lemma BothLeave(r: Round, p: Pool, a: Entry, b: Entry) returns (last: Pool)
    requires InRound(r, p) && Labelled(r, p) && p.workers == [Holding(a), Holding(b)] && p.queue == []
    ensures Leads(r, p, [0, 1, 0, 1], last)
    ensures AllExited(last) && last.sides == p.sides && last.results == p.results + [a, b]
  {
    var one := Step(r, p, 0);
    StepKeepsInRound(r, p, 0);
    assert one.workers == [Waiting, Holding(b)] && one.results == p.results + [a];
    var two := Step(r, one, 1);
    TwoSteps(r, p, one, two);
    assert two.workers == [Waiting, Waiting] && two.results == p.results + [a, b] && two.queue == [];
    var three := Step(r, two, 0);
    StepKeepsInRound(r, two, 0);
    assert three.workers == [Exited, Waiting] && three.queue == [];
    last := Step(r, three, 1);
    TwoSteps(r, two, three, last);
    hide Step, InRound, Labelled, CanStep;
    LeadsOn(r, p, [0, 1], two, [0, 1], last);
    assert [0, 1] + [0, 1] == [0, 1, 0, 1];
  }

  /** Legs of a schedule from the start until everyone has left make a finishing run. */
  lemma LegsFinish(r: Round, start: Pool, taken: Pool, begin: seq<nat>, mid: Pool, onward: seq<nat>, done: Pool, last: Pool)
    requires OneOpEach(r) && InitPool(r, start) && Leads(r, start, [0, 1], taken) && Leads(r, taken, begin, mid)
    requires Leads(r, mid, onward, done) && Leads(r, done, [0, 1, 0, 1], last) && AllExited(last)
    ensures Finishes(r, last)
    ensures |Returned(last)| == |r.plans| && forall k :: 0 <= k < |r.plans| ==> Returned(last)[k].index == k
  {
    hide Step, InRound, CanStep, Leads, InitPool, OneOpEach, AllExited, Returned;
    LeadsOn(r, start, [0, 1], taken, begin, mid);
    LeadsOn(r, start, [0, 1] + begin, mid, onward, done);
    LeadsOn(r, start, [0, 1] + begin + onward, done, [0, 1, 0, 1], last);
    var schedule := [0, 1] + begin + onward + [0, 1, 0, 1];
    var run := LeadsIsRun(r, start, schedule, last);
    assert IsRun(r, run, schedule) && Finishes(r, last);
    ReturnedInPlanOrder(r, run, schedule);
  }

  /** The plan of worker `x` is carried out first, then the other's. */
  lemma OrderIsASchedule(r: Round, x: nat) returns (last: Pool)
    requires TwoWorkers(r) && x < 2
    ensures Finishes(r, last)
    ensures var (mid, first) := Alone(r, x, r.init);
            var (end, second) := Alone(r, 1 - x, mid);
            && last.sides == end && |Returned(last)| == 2
            && Returned(last)[x].result == first && Returned(last)[1 - x].result == second
  {
    var none := Outcome(None, None);
    var start, taken := BothTaken(r);
    hide Step, InRound, Labelled, CanStep, Calls, ExecCall, Observed, PlainPlan, Leads, InitPool, RunCalls, Finishes, AllExited, Returned;
    var begin, mid := WorkerRuns(r, taken, x, x, 0, none);
    var onward, done := WorkerRuns(r, mid, 1 - x, 1 - x, 0, none);
    var a, b := done.workers[0].entry, done.workers[1].entry;
    assert done.workers == [Holding(a), Holding(b)];
    last := BothLeave(r, done, a, b);
    LegsFinish(r, start, taken, begin, mid, onward, done, last);
    assert last.results == [a, b];
    TwoReturned(last, a, b);
  }

  lemma TwoReturned(p: Pool, a: Entry, b: Entry)
    requires p.results == [a, b] && a.index == 0 && b.index == 1
    requires |Returned(p)| == 2 && Returned(p)[0].index == 0 && Returned(p)[1].index == 1
    ensures Returned(p) == [a, b]
  {
    ByIndexIsPreorder();
    assert Returned(p)[0] in p.results && Returned(p)[1] in p.results;
  }

  /**
   * When the removal and the pull would both succeed alone, the round has two schedules, two workers each, that
   * end with other trees or other results.
   */
  lemma RacingSchedules(r: Round, i: nat, j: nat) returns (a: Pool, b: Pool)
    requires RacingPair(r, i, j) && |r.plans| == 2 && r.concurrency >= 2
    requires Alone(r, i, r.init).1.Ok? && Alone(r, j, r.init).1.Ok?
    ensures Finishes(r, a) && Finishes(r, b)
    ensures a.sides != b.sides || Returned(a) != Returned(b)
  {
    assert j == 1 - i && i == 1 - j && TwoWorkers(r);
    RemovalRacesWithPull(r, i, j, r.init);
    hide *;
    a := OrderIsASchedule(r, j);
    b := OrderIsASchedule(r, i);
  }

  // ----- Progress -----

  function Weight(r: Round, worker: Worker): nat {
    match worker
    case Exited => 0
    case Waiting => 1
    case Holding(_) => 2
    case Busy(i, k, _) => if i < |r.plans| && PlainPlan(r.plans[i]) && k <= |Calls(r.plans[i])| then 3 + |Calls(r.plans[i])| - k else 3
  }

  function WorkersWeight(r: Round, workers: seq<Worker>): nat {
    if workers == [] then 0 else Weight(r, workers[0]) + WorkersWeight(r, workers[1..])
  }

  function QueueWeight(r: Round, queue: seq<nat>): nat {
    if queue == [] then 0
    else (if queue[0] < |r.plans| && PlainPlan(r.plans[queue[0]]) then 3 + |Calls(r.plans[queue[0]])| else 3) + QueueWeight(r, queue[1..])
  }

  /** The steps still possible at most. */
  function Remaining(r: Round, p: Pool): nat {
    WorkersWeight(r, p.workers) + QueueWeight(r, p.queue)
  }

  lemma {:induction false} WeightAfterSet(r: Round, workers: seq<Worker>, w: nat, worker: Worker)
    requires w < |workers|
    ensures WorkersWeight(r, workers[w := worker]) == WorkersWeight(r, workers) - Weight(r, workers[w]) + Weight(r, worker)
  {
    hide Weight;
    if w > 0 {
      WeightAfterSet(r, workers[1..], w - 1, worker);
      assert workers[w := worker][1..] == workers[1..][w - 1 := worker];
    } else {
      assert workers[w := worker][1..] == workers[1..];
    }
  }

  lemma StepUsesRemaining(r: Round, p: Pool, w: nat)
    requires CanStep(p, w) && InRound(r, p)
    ensures Remaining(r, Step(r, p, w)) < Remaining(r, p)
  {
    hide Calls, PlainPlan, ExecCall, Observed;
    WeightAfterSet(r, p.workers, w, Step(r, p, w).workers[w]);
    if p.workers[w].Waiting? && p.queue != [] {
      assert p.queue[0] in p.queue;
    }
  }

  /** No run is longer than the work, and a worker that has not left can always move: the round ends. */
  lemma {:induction false} RoundEnds(r: Round, run: seq<Pool>, schedule: seq<nat>)
    requires OneOpEach(r) && IsRun(r, run, schedule)
    ensures |schedule| + Remaining(r, run[|schedule|]) <= Remaining(r, run[0])
    ensures forall w :: 0 <= w < |run[|schedule|].workers| && run[|schedule|].workers[w] != Exited ==>
              CanStep(run[|schedule|], w) && InRound(r, run[|schedule|])
  {
    RunIsTracked(r, run, schedule, |schedule|);
    hide Step, Remaining, Placed, Labelled, OneOpEach, InitPool, InRound;
    if schedule != [] {
      var n := |schedule| - 1;
      assert forall t :: 0 <= t < n ==> schedule[..n][t] == schedule[t];
      RoundEnds(r, run[..|run| - 1], schedule[..n]);
      assert CanStep(run[n], schedule[n]) && InRound(r, run[n]) && run[n + 1] == Step(r, run[n], schedule[n]);
      StepUsesRemaining(r, run[n], schedule[n]);
    }
  }
}
