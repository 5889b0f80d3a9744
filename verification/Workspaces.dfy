/** The working side of one agent: the backing tree it writes and the trusted base it records. */
module Workspaces {
  import opened Wrappers
  import opened Versions
  import opened Trees
  import opened Staging
  import opened Materialize

  /** Where a run of entries stopped: at the end, or at the first failing call. */
  datatype Progress = Progress(tree: Tree, trusted: map<Path, PathRecord>, error: Option<StoreError>)

  /** The calls up to and including the first failing one. */
  function RunPartly(t: Tree, ops: seq<Op>): (Tree, Option<StoreError>)
    decreases |ops|
  {
    if ops == [] then (t, None)
    else match Exec(t, ops[0])
      case Err(e) => (t, Some(e))
      case Ok(next) => RunPartly(next, ops[1..])
  }

  /** Entry by entry: the calls of an entry, then its record in the store. */
  function ApplyEntries(entries: seq<StagedPath>, t: Tree, trusted: map<Path, PathRecord>): Progress
    decreases |entries|
  {
    if entries == [] then Progress(t, trusted, None)
    else
      var (next, error) := RunPartly(t, EntryOps(entries[0]));
      if error.Some? then Progress(next, trusted, error)
      else ApplyEntries(entries[1..], next, TrustOne(entries[0], trusted))
  }

  class Workspace {
    var tree: Tree
    var trusted: map<Path, PathRecord>

    constructor (tree: Tree, trusted: map<Path, PathRecord>)
      ensures this.tree == tree && this.trusted == trusted
    {
      this.tree := tree;
      this.trusted := trusted;
    }

    /** One operator call. */
    method Call(op: Op) returns (error: Option<StoreError>)
      modifies this`tree
      ensures match Exec(old(tree), op)
              case Ok(next) => tree == next && error == None
              case Err(e) => tree == old(tree) && error == Some(e)
    {
      match Exec(tree, op)
      case Ok(next) =>
        tree := next;
        error := None;
      case Err(e) =>
        error := Some(e);
    }

    /** Delete one staged path, or create its missing ancestors and then the path itself. */
    method MaterializeStagedPath(e: StagedPath) returns (error: Option<StoreError>)
      modifies this`tree
      ensures (tree, error) == RunPartly(old(tree), EntryOps(e))
    {
      hide Exec, EntryOps;
      var ops := EntryOps(e);
      ghost var start := tree;
      error := None;
      var i := 0;
      assert ops[0..] == ops;
      while i < |ops| && error == None
        invariant 0 <= i <= |ops|
        invariant error == None ==> RunPartly(start, ops) == RunPartly(tree, ops[i..])
        invariant error.Some? ==> RunPartly(start, ops) == (tree, error)
      {
        assert ops[i..][0] == ops[i] && ops[i..][1..] == ops[i + 1..];
        error := Call(ops[i]);
        i := i + 1;
      }
    }

    /**
     * The whole manifest: deletions deepest first, then creations directories first; each path is
     * recorded in the store as soon as it is done.  Answers the number of paths pushed.
     */
    method MaterializeStagedCommit(m: seq<StagedPath>) returns (r: Result<nat, StoreError>)
      modifies this
      ensures var p := ApplyEntries(Ordered(m), old(tree), old(trusted));
              && tree == p.tree && trusted == p.trusted
              && r == match p.error case None => Ok(|m|) case Some(e) => Err(e)
    {
      OrderedLength(m);
      hide RunPartly, EntryOps, TrustOne, Ordered;
      var entries := Ordered(m);
      ghost var start, startTrusted := tree, trusted;
      ghost var whole := ApplyEntries(entries, start, startTrusted);
      var i := 0;
      assert entries[0..] == entries;
      while i < |entries|
        invariant 0 <= i <= |entries|
        invariant whole == ApplyEntries(entries[i..], tree, trusted)
      {
        var e := entries[i];
        assert entries[i..][0] == e && entries[i..][1..] == entries[i + 1..];
        var error := MaterializeStagedPath(e);
        if error.Some? {
          return Err(error.value);
        }
        trusted := TrustOne(e, trusted);
        i := i + 1;
      }
      assert entries[i..] == [];
      r := Ok(i);
    }
  }

  lemma {:induction false} SplitLength(m: seq<StagedPath>)
    ensures |Deletes(m)| + |Creates(m)| == |m|
  {
    if m != [] {
      SplitLength(m[1..]);
    }
  }

  lemma OrderedLength(m: seq<StagedPath>)
    ensures |Ordered(m)| == |m|
  {
    SplitLength(m);
  }

  lemma {:induction false} RunPartlyMatchesRun(t: Tree, ops: seq<Op>, rest: seq<Op>, base: Tree, target: Tree)
    requires Safely(t, ops + rest, base, target)
    ensures RunPartly(t, ops).1 == None
    ensures Safely(RunPartly(t, ops).0, rest, base, target)
    decreases |ops|
  {
    if ops == [] {
      assert ops + rest == rest;
    } else {
      assert (ops + rest)[0] == ops[0] && (ops + rest)[1..] == ops[1..] + rest;
      RunPartlyMatchesRun(Exec(t, ops[0]).value, ops[1..], rest, base, target);
    }
  }

  lemma {:induction false} ApplyEntriesReaches(entries: seq<StagedPath>, t: Tree, trusted: map<Path, PathRecord>,
      base: Tree, target: Tree)
    requires Safely(t, OpsOf(entries), base, target)
    ensures ApplyEntries(entries, t, trusted) == Progress(target, TrustAll(entries, trusted), None)
    decreases |entries|
  {
    if entries != [] {
      RunPartlyMatchesRun(t, EntryOps(entries[0]), OpsOf(entries[1..]), base, target);
      ApplyEntriesReaches(entries[1..], RunPartly(t, EntryOps(entries[0])).0, TrustOne(entries[0], trusted), base, target);
    }
  }

  lemma {:induction false} OpsOfConcat(a: seq<StagedPath>, b: seq<StagedPath>)
    ensures OpsOf(a + b) == OpsOf(a) + OpsOf(b)
  {
    if a == [] {
      assert a + b == b;
    } else {
      assert (a + b)[0] == a[0] && (a + b)[1..] == a[1..] + b;
      OpsOfConcat(a[1..], b);
    }
  }

  /**
   * Started on the tree before the commit, or on any tree an interrupted attempt left, materializing
   * succeeds, leaves exactly the target and leaves a store that trusts it.
   */
  lemma MaterializeReachesTarget(m: seq<StagedPath>, t: Tree, trusted: map<Path, PathRecord>, base: Tree, target: Tree)
    requires ParentClosed(target) && SameKinds(base, target)
    requires IsDiff(m, base, target)
    requires Between(t, base, target)
    requires forall p :: TrustedOutside(m, trusted, base, p)
    ensures ApplyEntries(Ordered(m), t, trusted) == Progress(target, TrustAll(Ordered(m), trusted), None)
    ensures TrustsTree(TrustAll(Ordered(m), trusted), target)
  {
    AttemptIsSafe(t, m, base, target);
    OpsOfConcat(SortedDeletes(m), SortedCreates(m));
    ApplyEntriesReaches(Ordered(m), t, trusted, base, target);
    TrustAfterAttempt(m, trusted, base, target);
  }
}
