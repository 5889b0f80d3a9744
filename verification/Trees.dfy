/** The backing tree of a source: what each operator call does to it. */
module Trees {
  import opened Wrappers
  import opened Versions

  datatype Node = Dir | File(content: Bytes) {
    function NodeKind(): Kind {
      if Dir? then DirKind else FileKind
    }
  }

  /** Every entry outside the reserved `.section/` area, keyed by its source-relative path. */
  type Tree = map<Path, Node>

  /** `q` lies strictly beneath the directory `p`. */
  predicate Under(q: Path, p: Path) {
    |p| < |q| && q[..|p|] == p && q[|p|] == '/'
  }

  /** Every ancestor of an entry is present and is a directory. */
  ghost predicate ParentClosed(t: Tree) {
    forall q, p :: q in t && Under(q, p) ==> p in t && t[p] == Dir
  }

  /** No path changes between file and directory. */
  ghost predicate SameKinds(a: Tree, b: Tree) {
    forall p :: p in a && p in b ==> a[p].NodeKind() == b[p].NodeKind()
  }

  /** The number of separators in a path. */
  function Depth(p: Path): nat {
    if p == [] then 0 else (if p[0] == '/' then 1 else 0) + Depth(p[1..])
  }

  lemma {:induction false} UnderIsDeeper(q: Path, p: Path)
    requires Under(q, p)
    ensures Depth(p) < Depth(q)
  {
    if p != [] {
      assert p[0] == q[..|p|][0] == q[0];
      assert q[1..][..|p| - 1] == q[..|p|][1..] == p[1..];
      UnderIsDeeper(q[1..], p[1..]);
    }
  }

  /** What lies beneath something beneath `a` lies beneath `a`. */
  lemma UnderChain(q: Path, p: Path, a: Path)
    ensures Under(q, p) && Under(p, a) ==> Under(q, a)
  {
    if Under(q, p) && Under(p, a) {
      assert q[..|a|] == q[..|p|][..|a|] == p[..|a|];
      assert q[|a|] == q[..|p|][|a|] == p[|a|];
    }
  }

  lemma NotUnderItself(p: Path)
    ensures !Under(p, p)
  {
  }

  function AncestorsFrom(p: Path, i: nat): (r: seq<Path>)
    requires i <= |p|
    ensures forall a :: a in r <==> Under(p, a) && i <= |a|
    decreases |p| - i
  {
    if i == |p| then []
    else if p[i] == '/' then
      assert forall a :: Under(p, a) && |a| == i ==> a == p[..i];
      [p[..i]] + AncestorsFrom(p, i + 1)
    else AncestorsFrom(p, i + 1)
  }

  /** The directories created before an entry is written, outermost first. */
  function Ancestors(p: Path): (r: seq<Path>)
    ensures forall a :: a in r <==> Under(p, a)
  {
    AncestorsFrom(p, 0)
  }

  datatype Op =
    | RemoveAll(path: Path)
    | DeleteFile(path: Path)
    | CreateDir(path: Path)
    | WriteFile(path: Path, content: Bytes)

  datatype StoreError = KindClash(path: Path)

  /**
   * One operator call as one atomic effect.  Deleting what is absent succeeds.  A call that would turn a
   * file into a directory or back fails, as it does on a file-system backend.
   */
  function Exec(t: Tree, op: Op): Result<Tree, StoreError> {
    match op
    case RemoveAll(p) =>
      if p in t && t[p].File? then Err(KindClash(p))
      else Ok(map q | q in t && q != p && !Under(q, p) :: t[q])
    case DeleteFile(p) =>
      if p in t && t[p].Dir? then Err(KindClash(p)) else Ok(t - {p})
    case CreateDir(p) =>
      if p in t && t[p].File? then Err(KindClash(p)) else Ok(t[p := Dir])
    case WriteFile(p, content) =>
      if p in t && t[p].Dir? then Err(KindClash(p)) else Ok(t[p := File(content)])
  }

  function Run(t: Tree, ops: seq<Op>): Result<Tree, StoreError>
    decreases |ops|
  {
    if ops == [] then Ok(t)
    else match Exec(t, ops[0])
      case Err(e) => Err(e)
      case Ok(next) => Run(next, ops[1..])
  }
}
