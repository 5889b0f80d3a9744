/** Results and optional values shared by every component of the model. */
module Wrappers {
  datatype Option<+T> = None | Some(value: T)

  datatype Result<+T, +E> = Ok(value: T) | Err(error: E)

  function Min(x: nat, y: nat): nat {
    if x < y then x else y
  }

  /** The entry of a map at a key, or None. */
  function Get<K, V>(m: map<K, V>, k: K): Option<V> {
    if k in m then Some(m[k]) else None
  }

  lemma SameEntriesSameMap<K, V>(a: map<K, V>, b: map<K, V>)
    requires forall k :: Get(a, k) == Get(b, k)
    ensures a == b
  {
    forall k ensures k in a <==> k in b {
      assert Get(a, k) == Get(b, k);
    }
    forall k | k in a ensures a[k] == b[k] {
      assert Get(a, k) == Get(b, k);
    }
  }

  lemma EmptyOrInhabited<T>(list: seq<T>)
    ensures list == [] || exists x :: x in list
  {
    if list != [] {
      assert list[0] in list;
    }
  }

  /** A list already produced, followed by the rest of a computation that may still fail. */
  function Prepended<T, E>(done: seq<T>, rest: Result<seq<T>, E>): Result<seq<T>, E> {
    match rest
    case Err(e) => Err(e)
    case Ok(more) => Ok(done + more)
  }

  lemma PrependedLaws<T, E>(done: seq<T>, x: T, rest: Result<seq<T>, E>)
    ensures Prepended([], rest) == rest
    ensures Prepended(done + [x], rest) == Prepended(done, Prepended([x], rest))
  {
    match rest
    case Err(_) =>
    case Ok(more) =>
      assert [] + more == more;
      assert (done + [x]) + more == done + ([x] + more);
  }
}
