/**
 * Materializing a frozen manifest onto the backing tree: the ordered script of operator calls, what a
 * crash in the middle leaves behind, and why running the script again repairs it.
 */
module Materialize {
  import opened Wrappers
  import opened Ordering
  import opened Versions
  import opened Trees
  import opened Staging

  // ----- The ordered script -----

  function Deletes(m: seq<StagedPath>): (r: seq<StagedPath>)
    ensures forall e :: e in r <==> e in m && e.op == Delete
  {
    if m == [] then [] else (if m[0].op == Delete then [m[0]] else []) + Deletes(m[1..])
  }

  function Creates(m: seq<StagedPath>): (r: seq<StagedPath>)
    ensures forall e :: e in r <==> e in m && e.op != Delete
  {
    if m == [] then [] else (if m[0].op != Delete then [m[0]] else []) + Creates(m[1..])
  }

  /** Deepest first, then descending path. */
  predicate DeleteLe(a: StagedPath, b: StagedPath) {
    Depth(a.path) > Depth(b.path) || (Depth(a.path) == Depth(b.path) && StringLe(b.path, a.path))
  }

  function KindRank(k: Kind): nat {
    if k == DirKind then 0 else 1
  }

  /** Directories first, then ascending path. */
  predicate CreateLe(a: StagedPath, b: StagedPath) {
    KindRank(a.kind) < KindRank(b.kind) || (a.kind == b.kind && StringLe(a.path, b.path))
  }

  lemma OrdersArePreorders()
    ensures Preorder(DeleteLe) && Preorder(CreateLe)
  {
    StringLeIsPreorder();
  }

  function SortedDeletes(m: seq<StagedPath>): (r: seq<StagedPath>)
    ensures forall e :: e in r <==> e in m && e.op == Delete
    ensures Sorted(DeleteLe, r)
  {
    OrdersArePreorders();
    Sort(DeleteLe, Deletes(m))
  }

  function SortedCreates(m: seq<StagedPath>): (r: seq<StagedPath>)
    ensures forall e :: e in r <==> e in m && e.op != Delete
    ensures Sorted(CreateLe, r)
  {
    OrdersArePreorders();
    Sort(CreateLe, Creates(m))
  }

  function MakeDirs(dirs: seq<Path>): (ops: seq<Op>)
    ensures |ops| == |dirs|
  {
    if dirs == [] then [] else [CreateDir(dirs[0])] + MakeDirs(dirs[1..])
  }

  /** The last call for one path: the deletion, or the creation once its ancestors exist. */
  function FinalOp(e: StagedPath): Op {
    if e.op == Delete then
      if e.kind == DirKind then RemoveAll(e.path) else DeleteFile(e.path)
    else match e.StagedNode()
      case Dir => CreateDir(e.path)
      case File(content) => WriteFile(e.path, content)
  }

  function EntryOps(e: StagedPath): (ops: seq<Op>)
    ensures ops != []
  {
    (if e.op == Delete then [] else MakeDirs(Ancestors(e.path))) + [FinalOp(e)]
  }

  function OpsOf(entries: seq<StagedPath>): seq<Op> {
    if entries == [] then [] else EntryOps(entries[0]) + OpsOf(entries[1..])
  }

  function Ordered(m: seq<StagedPath>): seq<StagedPath> {
    SortedDeletes(m) + SortedCreates(m)
  }

  function Script(m: seq<StagedPath>): seq<Op> {
    OpsOf(SortedDeletes(m)) + OpsOf(SortedCreates(m))
  }

  // ----- The invariant of every attempt -----

  /** Each path holds either what it held before the commit or what it will hold after it. */
  ghost predicate Between(t: Tree, base: Tree, target: Tree) {
    forall p :: Get(t, p) == Get(base, p) || Get(t, p) == Get(target, p)
  }

  /**
   * The call succeeds, puts the target's node at its path, changes no other path (so a recursive delete takes
   * nothing else with it), and when it creates something every ancestor directory is already there.
   */
  ghost predicate CleanCall(t: Tree, op: Op, target: Tree) {
    && Exec(t, op).Ok?
    && Get(Exec(t, op).value, op.path) == Get(target, op.path)
    && (forall q :: q != op.path ==> Get(Exec(t, op).value, q) == Get(t, q))
    && (op.CreateDir? || op.WriteFile? ==> forall a :: Under(op.path, a) ==> a in t && t[a] == Dir)
  }

  /** Every remaining call is clean, every tree on the way lies between the two, and the last is the target. */
  ghost predicate Safely(t: Tree, ops: seq<Op>, base: Tree, target: Tree)
    decreases |ops|
  {
    && Between(t, base, target)
    && if ops == [] then t == target
       else CleanCall(t, ops[0], target) && Safely(Exec(t, ops[0]).value, ops[1..], base, target)
  }

  /** One clean call before a safe rest. */
  lemma SafelyCons(t: Tree, op: Op, next: Tree, rest: seq<Op>, base: Tree, target: Tree)
    requires Between(t, base, target) && CleanCall(t, op, target) && Exec(t, op) == Ok(next)
    requires Safely(next, rest, base, target)
    ensures Safely(t, [op] + rest, base, target)
  {
    hide Between, CleanCall, Exec;
    assert ([op] + rest)[0] == op && ([op] + rest)[1..] == rest;
  }

  lemma {:induction false} MakeDirsSafely(t: Tree, dirs: seq<Path>, rest: seq<Op>, base: Tree, target: Tree)
    requires forall a :: a in dirs ==> a in t && t[a] == Dir && Get(target, a) == Some(Dir)
    requires forall a, b :: a in dirs && Under(a, b) ==> b in t && t[b] == Dir
    requires Safely(t, rest, base, target)
    ensures Safely(t, MakeDirs(dirs) + rest, base, target)
  {
    hide Between, Safely;
    if dirs == [] {
      assert MakeDirs(dirs) + rest == rest;
    } else {
      var first, tail := CreateDir(dirs[0]), MakeDirs(dirs[1..]) + rest;
      assert MakeDirs(dirs) + rest == [first] + tail;
      assert dirs[0] in dirs && t[dirs[0] := Dir] == t;
      assert CleanCall(t, first, target) && Exec(t, first) == Ok(t);
      MakeDirsSafely(t, dirs[1..], rest, base, target);
      hide MakeDirs, CleanCall, Exec;
      SafelyIsBetween(t, rest, base, target);
      SafelyCons(t, first, t, tail, base, target);
    }
  }

  /** Some paths have since taken the target's node. */
  ghost predicate Further(t: Tree, later: Tree, target: Tree) {
    forall p :: Get(later, p) == Get(t, p) || Get(later, p) == Get(target, p)
  }

  /** A call that is clean on one tree is clean on one that is further, and keeps it further. */
  lemma CleanCallFurther(t: Tree, later: Tree, op: Op, target: Tree)
    requires ParentClosed(target) && CleanCall(t, op, target) && Further(t, later, target)
    ensures CleanCall(later, op, target)
    ensures Exec(t, op).Ok? && Exec(later, op).Ok? && Further(Exec(t, op).value, Exec(later, op).value, target)
  {
    var p := op.path;
    assert Get(later, p) == Get(t, p) || Get(later, p) == Get(target, p);
    match op
    case RemoveAll(_) =>
      assert p !in target;
      forall q | Under(q, p) ensures q !in later {
        assert Get(Exec(t, op).value, q) == Get(t, q);
        assert q !in t && q !in target;
      }
    case DeleteFile(_) =>
    case _ =>
      assert p in target;
      forall a | Under(p, a) ensures a in later && later[a] == Dir {
        assert Get(later, a) == Get(t, a) || Get(later, a) == Get(target, a);
      }
  }

  /** Attempts on one commit may overlap: what another attempt has already done disturbs none of the calls left. */
  lemma {:induction false} FurtherStaysSafe(t: Tree, later: Tree, ops: seq<Op>, base: Tree, target: Tree)
    requires ParentClosed(target) && Safely(t, ops, base, target) && Further(t, later, target)
    ensures Safely(later, ops, base, target)
    decreases |ops|
  {
    hide CleanCall, Exec, ParentClosed;
    forall p ensures Get(later, p) == Get(base, p) || Get(later, p) == Get(target, p) {
      assert Get(t, p) == Get(base, p) || Get(t, p) == Get(target, p);
    }
    if ops == [] {
      SameEntriesSameMap(later, target);
    } else {
      CleanCallFurther(t, later, ops[0], target);
      FurtherStaysSafe(Exec(t, ops[0]).value, Exec(later, ops[0]).value, ops[1..], base, target);
    }
  }

  lemma CallIsFurther(t: Tree, op: Op, target: Tree)
    requires CleanCall(t, op, target)
    ensures Further(t, Exec(t, op).value, target)
  {
    hide Exec;
  }

  lemma SafelyIsBetween(t: Tree, ops: seq<Op>, base: Tree, target: Tree)
    requires Safely(t, ops, base, target)
    ensures Between(t, base, target)
  {
    hide Between, CleanCall, Exec;
  }

  ghost predicate CreatesPending(t: Tree, entries: seq<StagedPath>, base: Tree, target: Tree) {
    && Between(t, base, target)
    && (forall q :: q in t ==> q in target)
    && (forall q :: q in target ==> Get(t, q) == Get(target, q) || Mentions(entries, q))
    && (forall e :: e in entries ==> e.op != Delete && Describes(e, base, target))
    && Sorted(CreateLe, entries)
  }

  /** The directory-first, ascending order puts every missing parent before its children. */
  lemma AncestorsPresent(t: Tree, entries: seq<StagedPath>, a: Path, base: Tree, target: Tree)
    requires ParentClosed(target)
    requires CreatesPending(t, entries, base, target)
    requires entries != [] && Under(entries[0].path, a)
    ensures a in t && t[a] == Dir
  {
    var e := entries[0];
    assert a in target && target[a] == Dir;
    if Get(t, a) != Get(target, a) {
      assert Mentions(entries, a);
      var w :| w in entries && w.path == a;
      assert w.kind == DirKind;
      var i :| 0 <= i < |entries| && entries[i] == w;
      assert i > 0;
      assert CreateLe(e, w);
      PrefixSortsFirst(a, e.path);
      assert false;
    }
  }

  lemma CreationOps(t: Tree, e: StagedPath, rest: seq<Op>, target: Tree)
    requires e.op != Delete && Exec(t, FinalOp(e)).Ok? && Get(target, e.path) == Some(e.StagedNode())
    requires forall a :: a in Ancestors(e.path) ==> a in t && t[a] == Dir
    ensures EntryOps(e) + rest == MakeDirs(Ancestors(e.path)) + ([FinalOp(e)] + rest)
    ensures CleanCall(t, FinalOp(e), target)
  {
    hide Ancestors, MakeDirs;
  }

  lemma EntrySafely(t: Tree, next: Tree, e: StagedPath, rest: seq<Op>, base: Tree, target: Tree)
    requires e.op != Delete && Between(t, base, target) && Get(target, e.path) == Some(e.StagedNode())
    requires forall a :: a in Ancestors(e.path) ==> a in t && t[a] == Dir && Get(target, a) == Some(Dir)
    requires forall a, b :: a in Ancestors(e.path) && Under(a, b) ==> b in t && t[b] == Dir
    requires Exec(t, FinalOp(e)) == Ok(next)
    requires Safely(next, rest, base, target)
    ensures Safely(t, EntryOps(e) + rest, base, target)
  {
    hide Between, Safely, CleanCall, Exec, EntryOps, MakeDirs, FinalOp, Ancestors, Under;
    var tail := [FinalOp(e)] + rest;
    CreationOps(t, e, rest, target);
    SafelyCons(t, FinalOp(e), next, rest, base, target);
    MakeDirsSafely(t, Ancestors(e.path), tail, base, target);
  }

  lemma {:induction false} CreatesSafely(t: Tree, entries: seq<StagedPath>, base: Tree, target: Tree)
    requires ParentClosed(target) && SameKinds(base, target)
    requires CreatesPending(t, entries, base, target)
    ensures Safely(t, OpsOf(entries), base, target)
    decreases |entries|
  {
    if entries == [] {
      forall p ensures Get(t, p) == Get(target, p) {
        assert !Mentions(entries, p);
      }
      SameEntriesSameMap(t, target);
    } else {
      var e := entries[0];
      var dirs := Ancestors(e.path);
      forall a | a in dirs ensures a in t && t[a] == Dir && Get(target, a) == Some(Dir) {
        AncestorsPresent(t, entries, a, base, target);
      }
      forall a, b | a in dirs && Under(a, b) ensures b in t && t[b] == Dir {
        UnderChain(e.path, a, b);
        AncestorsPresent(t, entries, b, base, target);
      }
      assert e in entries && Describes(e, base, target);
      var next := CreateStep(t, e, base, target);
      assert CreatesPending(next, entries[1..], base, target) by {
        CreatesPendingAfter(t, next, entries, base, target);
      }
      CreatesSafely(next, entries[1..], base, target);
      EntrySafely(t, next, e, OpsOf(entries[1..]), base, target);
    }
  }

  /** The creation itself succeeds and puts the target's node at the path. */
  lemma CreateStep(t: Tree, e: StagedPath, base: Tree, target: Tree) returns (next: Tree)
    requires SameKinds(base, target) && Between(t, base, target)
    requires e.op != Delete && Describes(e, base, target)
    ensures Exec(t, FinalOp(e)) == Ok(next)
    ensures next == t[e.path := target[e.path]]
  {
    var p := e.path;
    assert Get(t, p) == Get(base, p) || Get(t, p) == Get(target, p);
    next := t[p := target[p]];
  }

  lemma NodeAdded(t: Tree, next: Tree, p: Path, target: Tree)
    requires p in target && next == t[p := target[p]]
    ensures forall q :: Get(next, q) == if q == p then Get(target, p) else Get(t, q)
  {
  }

  lemma MentionedLater(entries: seq<StagedPath>, q: Path)
    requires entries != [] && q != entries[0].path
    ensures Mentions(entries, q) ==> Mentions(entries[1..], q)
  {
    if Mentions(entries, q) {
      var w :| w in entries && w.path == q;
      assert w in entries[1..];
    }
  }

  lemma StillPending(t: Tree, next: Tree, entries: seq<StagedPath>, base: Tree, target: Tree)
    requires entries != [] && CreatesPending(t, entries, base, target)
    requires forall q :: Get(next, q) == if q == entries[0].path then Get(target, q) else Get(t, q)
    ensures Between(next, base, target)
    ensures forall q :: q in target ==> Get(next, q) == Get(target, q) || Mentions(entries[1..], q)
  {
    hide Describes, Mentions, Sorted, CreateLe;
    forall q | q in target && q != entries[0].path ensures Get(next, q) == Get(target, q) || Mentions(entries[1..], q) {
      MentionedLater(entries, q);
    }
  }

  lemma FirstIsInTarget(entries: seq<StagedPath>, base: Tree, target: Tree)
    requires entries != [] && forall e :: e in entries ==> e.op != Delete && Describes(e, base, target)
    ensures entries[0].path in target
    ensures forall e :: e in entries[1..] ==> e.op != Delete && Describes(e, base, target)
  {
    assert entries[0] in entries;
    hide Describes;
  }

  lemma CreatesPendingAfter(t: Tree, next: Tree, entries: seq<StagedPath>, base: Tree, target: Tree)
    requires entries != [] && CreatesPending(t, entries, base, target)
    requires next == t[entries[0].path := target[entries[0].path]]
    ensures CreatesPending(next, entries[1..], base, target)
  {
    FirstIsInTarget(entries, base, target);
    SortedTail(CreateLe, entries);
    NodeAdded(t, next, entries[0].path, target);
    StillPending(t, next, entries, base, target);
    hide Between, Describes, Mentions, Sorted, CreateLe;
  }

  ghost predicate DeletesPending(t: Tree, entries: seq<StagedPath>, base: Tree, target: Tree) {
    && Between(t, base, target)
    && (forall q :: q in t && q !in target ==> Mentions(entries, q))
    && (forall e :: e in entries ==> e.op == Delete && Describes(e, base, target))
    && Sorted(DeleteLe, entries)
  }

  /** The deepest-first order leaves nothing beneath a directory by the time it is removed. */
  lemma NothingBeneath(t: Tree, entries: seq<StagedPath>, q: Path, base: Tree, target: Tree)
    requires ParentClosed(target)
    requires entries != [] && DeletesPending(t, entries, base, target)
    requires Under(q, entries[0].path)
    ensures q !in t
  {
    if q in t {
      var e := entries[0];
      assert e in entries && e.path !in target;
      assert q !in target;
      assert Mentions(entries, q);
      var w :| w in entries && w.path == q;
      var i :| 0 <= i < |entries| && entries[i] == w;
      assert i > 0;
      assert DeleteLe(e, w);
      UnderIsDeeper(q, e.path);
      assert false;
    }
  }

  /** The manifest's creations, waiting behind its deletions. */
  ghost predicate CreatesReady(creates: seq<StagedPath>, base: Tree, target: Tree) {
    && (forall e :: e in creates ==> e.op != Delete && Describes(e, base, target))
    && (forall q :: q in target && Get(base, q) != Get(target, q) ==> Mentions(creates, q))
    && Sorted(CreateLe, creates)
  }

  lemma DeletesDone(t: Tree, entries: seq<StagedPath>, creates: seq<StagedPath>, base: Tree, target: Tree)
    requires entries == [] && DeletesPending(t, entries, base, target)
    requires CreatesReady(creates, base, target)
    ensures CreatesPending(t, creates, base, target)
  {
    forall q | q in target ensures Get(t, q) == Get(target, q) || Mentions(creates, q) {
      assert Get(t, q) == Get(base, q) || Get(t, q) == Get(target, q);
    }
  }

  /** The deletion succeeds and removes its own path only. */
  lemma DeleteStep(t: Tree, e: StagedPath, base: Tree, target: Tree) returns (next: Tree)
    requires e.op == Delete && Describes(e, base, target) && Between(t, base, target)
    requires forall q :: Under(q, e.path) ==> q !in t
    ensures next == t - {e.path}
    ensures Exec(t, FinalOp(e)) == Ok(next) && CleanCall(t, FinalOp(e), target)
  {
    next := t - {e.path};
    assert Get(t, e.path) == Get(base, e.path) || Get(t, e.path) == Get(target, e.path);
    if e.kind == DirKind {
      assert (map q | q in t && q != e.path && !Under(q, e.path) :: t[q]) == next;
    }
  }

  lemma DeleteEntrySafely(t: Tree, next: Tree, e: StagedPath, rest: seq<Op>, base: Tree, target: Tree)
    requires e.op == Delete && Between(t, base, target)
    requires Exec(t, FinalOp(e)) == Ok(next) && CleanCall(t, FinalOp(e), target)
    requires Safely(next, rest, base, target)
    ensures Safely(t, EntryOps(e) + rest, base, target)
  {
    assert EntryOps(e) + rest == [FinalOp(e)] + rest;
    SafelyCons(t, FinalOp(e), next, rest, base, target);
  }

  lemma {:induction false} DeletesSafely(t: Tree, entries: seq<StagedPath>, creates: seq<StagedPath>, base: Tree,
      target: Tree)
    requires ParentClosed(target) && SameKinds(base, target)
    requires DeletesPending(t, entries, base, target)
    requires CreatesReady(creates, base, target)
    ensures Safely(t, OpsOf(entries) + OpsOf(creates), base, target)
    decreases |entries|
  {
    hide CreatesReady, ParentClosed, SameKinds, EntryOps, Safely;
    if entries == [] {
      assert OpsOf(entries) + OpsOf(creates) == OpsOf(creates);
      assert CreatesPending(t, creates, base, target) by {
        DeletesDone(t, entries, creates, base, target);
      }
      CreatesSafely(t, creates, base, target);
    } else {
      var e := entries[0];
      assert e in entries;
      forall q | Under(q, e.path) ensures q !in t {
        NothingBeneath(t, entries, q, base, target);
      }
      var next := DeleteStep(t, e, base, target);
      assert DeletesPending(next, entries[1..], base, target) by {
        DeletesPendingAfter(t, next, entries, base, target);
      }
      DeletesSafely(next, entries[1..], creates, base, target);
      DeleteEntrySafely(t, next, e, OpsOf(entries[1..]) + OpsOf(creates), base, target);
      assert OpsOf(entries) + OpsOf(creates) == EntryOps(e) + (OpsOf(entries[1..]) + OpsOf(creates));
    }
  }

  lemma DeletesPendingAfter(t: Tree, next: Tree, entries: seq<StagedPath>, base: Tree, target: Tree)
    requires entries != [] && DeletesPending(t, entries, base, target)
    requires next == t - {entries[0].path}
    ensures DeletesPending(next, entries[1..], base, target)
  {
    var p, rest := entries[0].path, entries[1..];
    assert entries == [entries[0]] + rest;
    assert entries[0] in entries;
    forall q ensures Get(next, q) == Get(base, q) || Get(next, q) == Get(target, q) {
      if q != p { assert Get(next, q) == Get(t, q); }
    }
    forall q | q in next && q !in target ensures Mentions(rest, q) {
      assert Mentions(entries, q);
      var w :| w in entries && w.path == q;
      assert w in rest;
    }
    SortedTail(DeleteLe, entries);
  }

  /**
   * An attempt started on any tree between the two, as an earlier crash may have left it, runs without
   * an error to exactly the target.
   */
  lemma AttemptIsSafe(t: Tree, m: seq<StagedPath>, base: Tree, target: Tree)
    requires ParentClosed(target) && SameKinds(base, target)
    requires IsDiff(m, base, target)
    requires Between(t, base, target)
    ensures Safely(t, Script(m), base, target)
  {
    var deletes, creates := SortedDeletes(m), SortedCreates(m);
    forall q | q in t && q !in target ensures Mentions(deletes, q) {
      assert Get(t, q) == Get(base, q);
      assert Mentions(m, q);
      var e :| e in m && e.path == q;
      assert e in deletes;
    }
    forall q | q in target && Get(base, q) != Get(target, q) ensures Mentions(creates, q) {
      assert Mentions(m, q);
      var e :| e in m && e.path == q;
      assert e in creates;
    }
    assert CreatesReady(creates, base, target);
    assert DeletesPending(t, deletes, base, target);
    DeletesSafely(t, deletes, creates, base, target);
  }

  // ----- Crashes and repair -----

  /** The tree an attempt leaves when it is cut off after `k` calls, or stopped earlier by a failing one. */
  function CutOff(t: Tree, ops: seq<Op>, k: nat): Tree
    decreases k
  {
    if k == 0 || ops == [] then t
    else match Exec(t, ops[0])
      case Err(_) => t
      case Ok(next) => CutOff(next, ops[1..], k - 1)
  }

  function AfterAttempts(t: Tree, ops: seq<Op>, cuts: seq<nat>): Tree
    decreases |cuts|
  {
    if cuts == [] then t else AfterAttempts(CutOff(t, ops, cuts[0]), ops, cuts[1..])
  }

  lemma {:induction false} SafelyRuns(t: Tree, ops: seq<Op>, base: Tree, target: Tree)
    requires Safely(t, ops, base, target)
    ensures Run(t, ops) == Ok(target)
    decreases |ops|
  {
    if ops != [] {
      SafelyRuns(Exec(t, ops[0]).value, ops[1..], base, target);
    }
  }

  lemma {:induction false} CutOffStaysBetween(t: Tree, ops: seq<Op>, k: nat, base: Tree, target: Tree)
    requires Safely(t, ops, base, target)
    ensures Between(CutOff(t, ops, k), base, target)
    decreases |ops|
  {
    if k > 0 && ops != [] {
      CutOffStaysBetween(Exec(t, ops[0]).value, ops[1..], k - 1, base, target);
    }
  }

  lemma {:induction false} AttemptsStayBetween(t: Tree, m: seq<StagedPath>, cuts: seq<nat>, base: Tree, target: Tree)
    requires ParentClosed(target) && SameKinds(base, target)
    requires IsDiff(m, base, target)
    requires Between(t, base, target)
    ensures Between(AfterAttempts(t, Script(m), cuts), base, target)
    decreases |cuts|
  {
    if cuts != [] {
      AttemptIsSafe(t, m, base, target);
      CutOffStaysBetween(t, Script(m), cuts[0], base, target);
      AttemptsStayBetween(CutOff(t, Script(m), cuts[0]), m, cuts[1..], base, target);
    }
  }

  /** Diff then apply is exact: an uninterrupted attempt turns the backing tree into the working tree. */
  lemma MaterializeIsExact(m: seq<StagedPath>, base: Tree, target: Tree)
    requires ParentClosed(target) && SameKinds(base, target)
    requires IsDiff(m, base, target)
    ensures Run(base, Script(m)) == Ok(target)
  {
    AttemptIsSafe(base, m, base, target);
    SafelyRuns(base, Script(m), base, target);
  }

  /**
   * Repair: after any number of attempts, each cut off anywhere, one complete attempt yields the same
   * tree as a single uninterrupted one.
   */
  lemma RepairIsIdempotent(m: seq<StagedPath>, cuts: seq<nat>, base: Tree, target: Tree)
    requires ParentClosed(target) && SameKinds(base, target)
    requires IsDiff(m, base, target)
    ensures Run(AfterAttempts(base, Script(m), cuts), Script(m)) == Run(base, Script(m)) == Ok(target)
  {
    MaterializeIsExact(m, base, target);
    AttemptsStayBetween(base, m, cuts, base, target);
    AttemptIsSafe(AfterAttempts(base, Script(m), cuts), m, base, target);
    SafelyRuns(AfterAttempts(base, Script(m), cuts), Script(m), base, target);
  }

  // ----- The trusted base kept beside the tree -----

  function TrustOne(e: StagedPath, trusted: map<Path, PathRecord>): map<Path, PathRecord> {
    if e.op == Delete then trusted - {e.path}
    else trusted[e.path := ReadyRecord(e.kind, e.Hash(), e.Hash(), true)]
  }

  function TrustAll(entries: seq<StagedPath>, trusted: map<Path, PathRecord>): map<Path, PathRecord> {
    if entries == [] then trusted else TrustAll(entries[1..], TrustOne(entries[0], trusted))
  }

  ghost predicate TrustAt(trusted: map<Path, PathRecord>, t: Tree, p: Path) {
    RemoteMatchesTrustedBase(Get(trusted, p), Observe(t, p))
  }

  /** A path already trusted at its target value stays so, and each remaining entry makes its own path so. */
  lemma {:induction false} TrustAllReaches(entries: seq<StagedPath>, trusted: map<Path, PathRecord>, base: Tree,
      target: Tree, p: Path)
    requires forall e :: e in entries ==> Describes(e, base, target)
    requires Mentions(entries, p) || TrustAt(trusted, target, p)
    ensures TrustAt(TrustAll(entries, trusted), target, p)
    decreases |entries|
  {
    if entries != [] {
      var e := entries[0];
      assert entries == [e] + entries[1..];
      assert e in entries && Describes(e, base, target);
      if e.path == p {
        assert TrustAt(TrustOne(e, trusted), target, p);
      } else {
        assert Get(TrustOne(e, trusted), p) == Get(trusted, p);
        if Mentions(entries, p) {
          var w :| w in entries && w.path == p;
          assert w in entries[1..];
        }
      }
      TrustAllReaches(entries[1..], TrustOne(e, trusted), base, target, p);
    }
  }

  lemma {:induction false} TrustAllKeys(entries: seq<StagedPath>, trusted: map<Path, PathRecord>, p: Path)
    requires p in TrustAll(entries, trusted)
    ensures p in trusted || Mentions(entries, p)
    decreases |entries|
  {
    if entries != [] {
      TrustAllKeys(entries[1..], TrustOne(entries[0], trusted), p);
      if Mentions(entries[1..], p) {
        var w :| w in entries[1..] && w.path == p;
        assert w in entries;
      } else if p == entries[0].path {
        assert entries[0] in entries;
      }
    }
  }

  lemma OrderedMentions(m: seq<StagedPath>, p: Path)
    ensures forall e :: e in Ordered(m) <==> e in m
    ensures Mentions(Ordered(m), p) <==> Mentions(m, p)
  {
  }

  /** Whatever an earlier attempt recorded for the manifest's own paths, a complete one trusts the target. */
  lemma TrustAfterAttempt(m: seq<StagedPath>, trusted: map<Path, PathRecord>, base: Tree, target: Tree)
    requires IsDiff(m, base, target)
    requires forall p :: TrustedOutside(m, trusted, base, p)
    ensures TrustsTree(TrustAll(Ordered(m), trusted), target)
  {
    var after := TrustAll(Ordered(m), trusted);
    forall p ensures RemoteMatchesTrustedBase(Get(after, p), Observe(target, p)) {
      assert TrustedOutside(m, trusted, base, p);
      TrustAtAfterAttempt(m, trusted, base, target, p);
      assert TrustAt(after, target, p);
    }
  }

  ghost predicate TrustedOutside(m: seq<StagedPath>, trusted: map<Path, PathRecord>, base: Tree, p: Path) {
    Mentions(m, p) || TrustAt(trusted, base, p)
  }

  lemma TrustAtAfterAttempt(m: seq<StagedPath>, trusted: map<Path, PathRecord>, base: Tree, target: Tree, p: Path)
    requires IsDiff(m, base, target)
    requires Mentions(m, p) || TrustAt(trusted, base, p)
    ensures TrustAt(TrustAll(Ordered(m), trusted), target, p)
  {
    OrderedMentions(m, p);
    if !Mentions(m, p) {
      ObservationsDetermineNodes(base, target, p);
      assert TrustAt(trusted, target, p);
    }
    TrustAllReaches(Ordered(m), trusted, base, target, p);
  }

  lemma TrustedPathsStayValid(m: seq<StagedPath>, trusted: map<Path, PathRecord>, p: Path)
    requires forall e :: e in m ==> ValidPath(e.path)
    requires forall q :: q in trusted ==> ValidPath(q)
    requires p in TrustAll(Ordered(m), trusted)
    ensures ValidPath(p)
  {
    TrustAllKeys(Ordered(m), trusted, p);
    OrderedMentions(m, p);
  }

  /**
   * After a commit is materialized and recorded, and with no further local edit, collecting again finds
   * neither drift nor a dirty path: the status is clean.
   */
  lemma AppliedCommitIsClean(local: Tree, remote: Tree, trusted: map<Path, PathRecord>)
    requires ParentClosed(local)
    requires Manifest(local, remote, trusted).Ok?
    ensures Run(remote, Script(Manifest(local, remote, trusted).value)) == Ok(local)
    ensures DirtyPaths(local, local, TrustAll(Ordered(Manifest(local, remote, trusted).value), trusted)) == Ok([])
  {
    var m := Manifest(local, remote, trusted).value;
    ManifestIsTheDiff(local, remote, trusted);
    CollectableMeaning(local, remote, trusted);
    MaterializeIsExact(m, remote, local);
    var after := TrustAll(Ordered(m), trusted);
    assert forall p :: TrustedOutside(m, trusted, remote, p);
    TrustAfterAttempt(m, trusted, remote, local);
    assert forall e :: e in m ==> ValidPath(e.path) by {
      forall e | e in m ensures ValidPath(e.path) {
        assert Describes(e, remote, local);
      }
    }
    forall p | p in local || p in after ensures ValidPath(p) {
      if p in after { TrustedPathsStayValid(m, trusted, p); }
    }
    CollectableMeaning(local, local, after);
    CollectableIffDirtyPaths(local, local, after);
    NothingDirtyAlong(AllPaths(local, local, after), local, after);
  }

  lemma {:induction false} NothingDirtyAlong(paths: seq<Path>, t: Tree, trusted: map<Path, PathRecord>)
    requires DirtyAlong(paths, t, t, trusted).Ok?
    ensures DirtyAlong(paths, t, t, trusted) == Ok([])
  {
    if paths != [] {
      NothingDirtyAlong(paths[1..], t, trusted);
    }
  }
}
