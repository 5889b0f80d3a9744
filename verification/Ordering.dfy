/** The string order and the stable sort that the source takes from its standard library. */
module Ordering {

  /** Code-point order, which on UTF-8 text is the byte order of the source's strings. */
  predicate StringLess(a: string, b: string) {
    if b == [] then false
    else if a == [] then true
    else a[0] < b[0] || (a[0] == b[0] && StringLess(a[1..], b[1..]))
  }

  predicate StringLe(a: string, b: string) {
    a == b || StringLess(a, b)
  }

  lemma {:induction false} StringLessIrreflexive(a: string)
    ensures !StringLess(a, a)
  {
    if a != [] {
      StringLessIrreflexive(a[1..]);
    }
  }

  lemma {:induction false} StringLessTransitive(a: string, b: string, c: string)
    requires StringLess(a, b) && StringLess(b, c)
    ensures StringLess(a, c)
  {
    if a != [] && a[0] == b[0] == c[0] {
      StringLessTransitive(a[1..], b[1..], c[1..]);
    }
  }

  lemma {:induction false} StringLessConnected(a: string, b: string)
    ensures StringLess(a, b) || a == b || StringLess(b, a)
  {
    if a != [] && b != [] && a[0] == b[0] {
      StringLessConnected(a[1..], b[1..]);
      assert a == [a[0]] + a[1..] && b == [b[0]] + b[1..];
    }
  }

  /** A proper prefix sorts first: a directory sorts before everything beneath it. */
  lemma {:induction false} PrefixSortsFirst(p: string, q: string)
    requires |p| < |q| && q[..|p|] == p
    ensures StringLess(p, q) && !StringLe(q, p)
  {
    if p != [] {
      assert p[0] == q[..|p|][0] == q[0];
      assert q[1..][..|p[1..]|] == q[..|p|][1..] == p[1..];
      PrefixSortsFirst(p[1..], q[1..]);
    }
  }

  lemma StringLeIsPreorder()
    ensures Preorder(StringLe)
  {
    forall a, b ensures StringLe(a, b) || StringLe(b, a) {
      StringLessConnected(a, b);
    }
    forall a, b, c | StringLe(a, b) && StringLe(b, c) ensures StringLe(a, c) {
      if a != b && b != c {
        StringLessTransitive(a, b, c);
      }
    }
  }

  lemma StringLeAntisymmetric(a: string, b: string)
    requires StringLe(a, b) && StringLe(b, a)
    ensures a == b
  {
    if a != b {
      StringLessTransitive(a, b, a);
      StringLessIrreflexive(a);
    }
  }

  ghost predicate Total<T(!new)>(le: (T, T) -> bool) {
    forall x, y :: le(x, y) || le(y, x)
  }

  ghost predicate Transitive<T(!new)>(le: (T, T) -> bool) {
    forall x, y, z :: le(x, y) && le(y, z) ==> le(x, z)
  }

  /** What a comparator must satisfy for sorting to make sense. */
  ghost predicate Preorder<T(!new)>(le: (T, T) -> bool) {
    Total(le) && Transitive(le)
  }

  ghost predicate Sorted<T>(le: (T, T) -> bool, xs: seq<T>) {
    forall i, j :: 0 <= i < j < |xs| ==> le(xs[i], xs[j])
  }

  lemma SortedTail<T>(le: (T, T) -> bool, xs: seq<T>)
    requires Sorted(le, xs) && xs != []
    ensures Sorted(le, xs[1..])
  {
    var rest := xs[1..];
    forall i, j | 0 <= i < j < |rest| ensures le(rest[i], rest[j]) {
      assert le(xs[i + 1], xs[j + 1]);
    }
  }

  function Insert<T>(le: (T, T) -> bool, x: T, xs: seq<T>): (r: seq<T>)
    ensures multiset(r) == multiset(xs) + multiset{x}
  {
    if xs == [] || le(x, xs[0]) then
      [x] + xs
    else
      assert xs == [xs[0]] + xs[1..];
      [xs[0]] + Insert(le, x, xs[1..])
  }

  lemma {:induction false} InsertKeepsSorted<T(!new)>(le: (T, T) -> bool, x: T, xs: seq<T>)
    requires Preorder(le)
    requires Sorted(le, xs)
    ensures Sorted(le, Insert(le, x, xs))
  {
    if xs == [] {
    } else if le(x, xs[0]) {
      forall j | 0 <= j < |xs| ensures le(x, xs[j]) {
        assert j > 0 ==> le(xs[0], xs[j]);
      }
    } else {
      var rest := Insert(le, x, xs[1..]);
      InsertKeepsSorted(le, x, xs[1..]);
      forall j | 0 <= j < |rest| ensures le(xs[0], rest[j]) {
        assert rest[j] in multiset(rest);
        if rest[j] != x {
          assert rest[j] in xs[1..];
        }
      }
    }
  }

  /** Stable insertion sort, standing for `sort_by`. */
  function Sort<T(!new)>(le: (T, T) -> bool, xs: seq<T>): (r: seq<T>)
    requires Preorder(le)
    ensures Sorted(le, r)
    ensures multiset(r) == multiset(xs)
    ensures |r| == |xs|
    ensures forall x :: x in r <==> x in xs
  {
    if xs == [] then []
    else
      InsertKeepsSorted(le, xs[0], Sort(le, xs[1..]));
      var r := Insert(le, xs[0], Sort(le, xs[1..]));
      assert xs == [xs[0]] + xs[1..];
      SameMultisetSameLength(r, xs);
      r
  }

  lemma SameMultisetSameLength<T>(a: seq<T>, b: seq<T>)
    requires multiset(a) == multiset(b)
    ensures |a| == |b|
    ensures forall x :: x in a <==> x in b
  {
    assert |a| == |multiset(a)| && |b| == |multiset(b)|;
    forall x ensures x in a <==> x in b {
      assert x in a <==> x in multiset(a);
      assert x in b <==> x in multiset(b);
    }
  }

  ghost predicate Distinct<T>(xs: seq<T>) {
    forall i, j :: 0 <= i < j < |xs| ==> xs[i] != xs[j]
  }

  lemma DistinctIsMultiset<T>(xs: seq<T>)
    ensures Distinct(xs) <==> forall x :: multiset(xs)[x] <= 1
  {
    if xs != [] {
      var rest := xs[1..];
      assert xs == [xs[0]] + rest;
      DistinctIsMultiset(rest);
      if Distinct(xs) {
        assert Distinct(rest) by {
          forall i, j | 0 <= i < j < |rest| ensures rest[i] != rest[j] {
            assert xs[i + 1] != xs[j + 1];
          }
        }
        assert xs[0] !in rest;
        assert multiset(rest)[xs[0]] == 0;
      }
      if forall x :: multiset(xs)[x] <= 1 {
        forall x ensures multiset(rest)[x] <= 1 {
          assert multiset(xs)[x] <= 1;
        }
        assert xs[0] !in rest by {
          assert multiset(xs)[xs[0]] <= 1;
        }
      }
    }
  }

  /** Sorting keeps the elements distinct. */
  lemma SortDistinct<T(!new)>(le: (T, T) -> bool, xs: seq<T>)
    requires Preorder(le)
    requires Distinct(xs)
    ensures Distinct(Sort(le, xs))
  {
    DistinctIsMultiset(xs);
    DistinctIsMultiset(Sort(le, xs));
  }

  lemma {:induction false} LeastString(s: set<string>) returns (p: string)
    requires s != {}
    ensures p in s && forall q :: q in s ==> StringLe(p, q)
  {
    var x :| x in s;
    if s == {x} {
      p := x;
    } else {
      var rest := s - {x};
      var least := LeastString(rest);
      StringLessConnected(x, least);
      p := if StringLe(x, least) then x else least;
      forall q | q in s ensures StringLe(p, q) {
        if q != x && p == x && x != least && least != q {
          assert q in rest;
          StringLessTransitive(x, least, q);
        }
      }
    }
  }

  /** The elements of a set in string order: the iteration order of a B-tree set. */
  function SortedStrings(s: set<string>): (r: seq<string>)
    ensures forall p :: p in r <==> p in s
    ensures Distinct(r)
    ensures Sorted(StringLe, r)
  {
    if s == {} then []
    else
      assert exists p :: p in s && forall q :: q in s ==> StringLe(p, q) by {
        var p := LeastString(s);
      }
      assert forall p, q :: StringLe(p, q) && StringLe(q, p) ==> p == q by {
        forall p, q | StringLe(p, q) && StringLe(q, p) ensures p == q {
          StringLeAntisymmetric(p, q);
        }
      }
      var p :| p in s && forall q :: q in s ==> StringLe(p, q);
      [p] + SortedStrings(s - {p})
  }
}
