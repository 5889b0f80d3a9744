/** Matching with wildcards that absorb any run of items, and the greedy form used inside one path segment. */
module Wildcards {
  import opened Wrappers
  import opened Strings

  // ----- Wildcards over any alphabet -----

  /** A wildcard absorbs nothing, or one more item; anything else takes exactly one item that fits it. */
  predicate Matches<T, P>(items: seq<T>, pattern: seq<P>, wild: P -> bool, fits: (T, P) -> bool)
    decreases |items| + |pattern|
  {
    if pattern == [] then items == []
    else if wild(pattern[0]) then
      Matches(items, pattern[1..], wild, fits) || (items != [] && Matches(items[1..], pattern, wild, fits))
    else items != [] && fits(items[0], pattern[0]) && Matches(items[1..], pattern[1..], wild, fits)
  }

  /** One position of an alignment: what pattern item `i` takes. */
  ghost predicate Takes<T, P>(items: seq<T>, pattern: seq<P>, wild: P -> bool, fits: (T, P) -> bool, cuts: seq<nat>,
      i: nat)
    requires i < |pattern| && |cuts| == |pattern| + 1
  {
    && cuts[i] <= cuts[i + 1] <= |items|
    && (!wild(pattern[i]) ==> cuts[i + 1] == cuts[i] + 1 && fits(items[cuts[i]], pattern[i]))
  }

  /**
   * What a pattern declares: the items can be cut into as many pieces as the pattern has items, one piece
   * each in order, where only a wildcard may take a piece that is not exactly one fitting item.
   */
  ghost predicate Aligned<T, P>(items: seq<T>, pattern: seq<P>, wild: P -> bool, fits: (T, P) -> bool, cuts: seq<nat>) {
    && |cuts| == |pattern| + 1
    && cuts[0] == 0 && cuts[|pattern|] == |items|
    && forall i :: 0 <= i < |pattern| ==> Takes(items, pattern, wild, fits, cuts, i)
  }

  function Shifted(cuts: seq<nat>, d: nat): (r: seq<nat>)
    ensures |r| == |cuts| && forall i :: 0 <= i < |cuts| ==> r[i] == cuts[i] + d
  {
    seq(|cuts|, i requires 0 <= i < |cuts| => cuts[i] + d)
  }

  lemma {:induction false} MatchGivesCuts<T, P>(items: seq<T>, pattern: seq<P>, wild: P -> bool, fits: (T,
      P) -> bool) returns (cuts: seq<nat>)
    requires Matches(items, pattern, wild, fits)
    ensures Aligned(items, pattern, wild, fits, cuts)
    decreases |items| + |pattern|
  {
    if pattern == [] {
      cuts := [0];
    } else if wild(pattern[0]) && Matches(items, pattern[1..], wild, fits) {
      var rest := MatchGivesCuts(items, pattern[1..], wild, fits);
      cuts := [0] + rest;
      forall i | 0 <= i < |pattern| ensures Takes(items, pattern, wild, fits, cuts, i) {
        if i > 0 { assert Takes(items, pattern[1..], wild, fits, rest, i - 1); }
      }
    } else if wild(pattern[0]) {
      var rest := MatchGivesCuts(items[1..], pattern, wild, fits);
      cuts := Shifted(rest, 1)[0 := 0];
      forall i | 0 <= i < |pattern| ensures Takes(items, pattern, wild, fits, cuts, i) {
        assert Takes(items[1..], pattern, wild, fits, rest, i);
      }
    } else {
      var rest := MatchGivesCuts(items[1..], pattern[1..], wild, fits);
      cuts := [0] + Shifted(rest, 1);
      forall i | 0 <= i < |pattern| ensures Takes(items, pattern, wild, fits, cuts, i) {
        if i > 0 { assert Takes(items[1..], pattern[1..], wild, fits, rest, i - 1); }
      }
    }
  }

  lemma {:induction false} CutsAscend<T, P>(items: seq<T>, pattern: seq<P>, wild: P -> bool, fits: (T, P) -> bool,
      cuts: seq<nat>, i: nat, j: nat)
    requires Aligned(items, pattern, wild, fits, cuts) && i <= j <= |pattern|
    ensures cuts[i] <= cuts[j]
    decreases j
  {
    if i < j {
      CutsAscend(items, pattern, wild, fits, cuts, i, j - 1);
      assert Takes(items, pattern, wild, fits, cuts, j - 1);
    }
  }

  /** The alignment left once the first `d` items and the first `n` pattern items are gone. */
  lemma DropFront<T, P>(items: seq<T>, pattern: seq<P>, wild: P -> bool, fits: (T, P) -> bool, cuts: seq<nat>, d: nat,
      n: nat) returns (rest: seq<nat>)
    requires Aligned(items, pattern, wild, fits, cuts)
    requires n <= |pattern| && d == cuts[n] <= |items|
    ensures Aligned(items[d..], pattern[n..], wild, fits, rest)
  {
    forall i | n <= i <= |pattern| ensures d <= cuts[i] {
      CutsAscend(items, pattern, wild, fits, cuts, n, i);
    }
    rest := seq(|cuts| - n, i requires 0 <= i < |cuts| - n => cuts[n + i] - d);
    forall i | 0 <= i < |pattern[n..]| ensures Takes(items[d..], pattern[n..], wild, fits, rest, i) {
      assert Takes(items, pattern, wild, fits, cuts, n + i);
    }
  }

  lemma {:induction false} CutsGiveMatch<T, P>(items: seq<T>, pattern: seq<P>, wild: P -> bool, fits: (T, P) -> bool,
      cuts: seq<nat>)
    requires Aligned(items, pattern, wild, fits, cuts)
    ensures Matches(items, pattern, wild, fits)
    decreases |items| + |pattern|
  {
    if pattern != [] {
      assert Takes(items, pattern, wild, fits, cuts, 0);
      if wild(pattern[0]) && cuts[1] > 0 {
        forall i | 1 <= i <= |pattern| ensures 1 <= cuts[i] {
          CutsAscend(items, pattern, wild, fits, cuts, 1, i);
        }
        var rest := [0] + seq(|pattern|, i requires 0 <= i < |pattern| => cuts[i + 1] - 1);
        forall i | 0 <= i < |pattern| ensures Takes(items[1..], pattern, wild, fits, rest, i) {
          assert Takes(items, pattern, wild, fits, cuts, i);
        }
        CutsGiveMatch(items[1..], pattern, wild, fits, rest);
      } else {
        var rest := DropFront(items, pattern, wild, fits, cuts, cuts[1], 1);
        assert cuts[1] == 0 ==> items[0..] == items;
        CutsGiveMatch(items[cuts[1]..], pattern[1..], wild, fits, rest);
      }
    }
  }

  /** The recursive matcher decides exactly the declared meaning. */
  lemma MatchIffAligned<T, P>(items: seq<T>, pattern: seq<P>, wild: P -> bool, fits: (T, P) -> bool)
    ensures Matches(items, pattern, wild, fits) <==> exists cuts :: Aligned(items, pattern, wild, fits, cuts)
  {
    if Matches(items, pattern, wild, fits) {
      var cuts := MatchGivesCuts(items, pattern, wild, fits);
    }
    if exists cuts :: Aligned(items, pattern, wild, fits, cuts) {
      var cuts :| Aligned(items, pattern, wild, fits, cuts);
      CutsGiveMatch(items, pattern, wild, fits, cuts);
    }
  }

  // ----- One segment: the greedy form -----

  predicate IsStar(c: char) {
    c == '*'
  }

  predicate SameChar(a: char, b: char) {
    a == b
  }

  /** What a segment pattern means: each `*` absorbs a substring, other characters stand for themselves. */
  predicate WildMatch(value: string, pattern: string) {
    Matches(value, pattern, IsStar, SameChar)
  }

  predicate OccursAt(s: string, part: string, i: nat) {
    i + |part| <= |s| && s[i..i + |part|] == part
  }

  /** The leftmost occurrence that does not start before `from`. */
  function FindFrom(s: string, part: string, from: nat): (r: Option<nat>)
    requires from <= |s|
    ensures match r
            case Some(i) => from <= i && i + |part| <= |s| && OccursAt(s, part, i) && forall j :: from <= j < i ==> !OccursAt(s, part, j)
            case None => forall j :: from <= j ==> !OccursAt(s, part, j)
    decreases |s| - from
  {
    if OccursAt(s, part, from) then Some(from)
    else if from == |s| then None
    else FindFrom(s, part, from + 1)
  }

  /**
   * Where the greedy form stands in the value after taking each non-empty part at its leftmost place;
   * `strip` anchors the next one.
   */
  function GreedyFrom(value: string, parts: seq<string>, from: nat, strip: bool): (r: Option<nat>)
    requires from <= |value|
    ensures r.Some? ==> from <= r.value <= |value|
    decreases |parts|
  {
    if parts == [] then Some(from)
    else if parts[0] == "" then GreedyFrom(value, parts[1..], from, strip)
    else if strip then
      if OccursAt(value, parts[0], from) then GreedyFrom(value, parts[1..], from + |parts[0]|, false) else None
    else match FindFrom(value, parts[0], from)
      case None => None
      case Some(i) => GreedyFrom(value, parts[1..], i + |parts[0]|, false)
  }

  predicate EndsInStar(pattern: string) {
    pattern != "" && pattern[|pattern| - 1] == '*'
  }

  predicate GreedyMatch(value: string, pattern: string) {
    if pattern == "*" then true
    else if '*' !in pattern then value == pattern
    else
      var end := GreedyFrom(value, Split(pattern, '*'), 0, pattern[0] != '*');
      end.Some? && (EndsInStar(pattern) || end.value == |value|)
  }

  lemma OccursInSuffix(s: string, part: string, d: nat, j: nat)
    requires d <= |s|
    ensures OccursAt(s[d..], part, j) <==> OccursAt(s, part, d + j)
  {
    assert d + j + |part| <= |s| ==> s[d..][j..j + |part|] == s[d + j..d + j + |part|];
  }

  /** Searching a suffix is searching the whole from where the suffix starts. */
  lemma FindInSuffix(s: string, part: string, d: nat)
    requires d <= |s|
    ensures FindFrom(s[d..], part, 0) == match FindFrom(s, part, d) case None => None case Some(i) => Some(i - d)
  {
    hide FindFrom, OccursAt;
    forall j: nat ensures OccursAt(s[d..], part, j) <==> OccursAt(s, part, d + j) {
      OccursInSuffix(s, part, d, j);
    }
    var a, b := FindFrom(s[d..], part, 0), FindFrom(s, part, d);
    if a.Some? {
      assert OccursAt(s, part, d + a.value);
    }
    if b.Some? {
      assert OccursAt(s[d..], part, b.value - d);
    }
  }

  lemma PrefixIsOccurrence(s: string, d: nat, part: string)
    requires d <= |s|
    ensures StartsWith(s[d..], part) <==> OccursAt(s, part, d)
  {
    assert d + |part| <= |s| ==> s[d..][..|part|] == s[d..d + |part|];
  }

  method SegmentMatches(value: string, pattern: string) returns (matched: bool)
    ensures matched == GreedyMatch(value, pattern)
  {
    hide FindFrom, OccursAt, Split;
    if pattern == "*" {
      return true;
    }
    if '*' !in pattern {
      return value == pattern;
    }
    var parts := Split(pattern, '*');
    var remainder, first := value, true;
    ghost var at: nat := 0;
    var i := 0;
    assert parts[0..] == parts;
    while i < |parts|
      invariant 0 <= i <= |parts| && at <= |value| && remainder == value[at..]
      invariant GreedyFrom(value, parts, 0, pattern[0] != '*') == GreedyFrom(value, parts[i..], at, first && pattern[0] != '*')
    {
      var part := parts[i];
      assert parts[i..][0] == part && parts[i..][1..] == parts[i + 1..];
      if part != "" {
        if first && pattern[0] != '*' {
          PrefixIsOccurrence(value, at, part);
          if !StartsWith(remainder, part) {
            return false;
          }
          remainder := remainder[|part|..];
          at := at + |part|;
        } else {
          FindInSuffix(value, part, at);
          var index := FindFrom(remainder, part, 0);
          if index.None? {
            return false;
          }
          remainder := remainder[index.value + |part|..];
          at := at + index.value + |part|;
        }
        first := false;
      }
      i := i + 1;
    }
    return EndsInStar(pattern) || remainder == "";
  }

  // ----- Patterns as parts between stars -----

  /** `value[from..to]` is split as `*p1*p2...*pn`: before each part, any run of characters. */
  ghost predicate StarSpan(value: string, from: nat, to: nat, parts: seq<string>)
    decreases |parts|
  {
    if parts == [] then from == to
    else exists i: nat :: TakesAt(value, from, to, parts, i)
  }

  ghost predicate TakesAt(value: string, from: nat, to: nat, parts: seq<string>, i: nat)
    requires parts != []
    decreases |parts|, 0
  {
    from <= i && i + |parts[0]| <= to && OccursAt(value, parts[0], i) && StarSpan(value, i + |parts[0]|, to, parts[1..])
  }

  /** From a position on: the first part there, then the starred ones. */
  ghost predicate PartsMatch(value: string, from: nat, parts: seq<string>)
    requires parts != []
  {
    OccursAt(value, parts[0], from) && StarSpan(value, from + |parts[0]|, |value|, parts[1..])
  }

  lemma {:induction false} StarAbsorbs(value: string, from: nat, rest: string)
    requires from <= |value|
    ensures WildMatch(value[from..], "*" + rest) <==> exists i: nat :: from <= i <= |value| && WildMatch(value[i..], rest)
    decreases |value| - from
  {
    var pattern := "*" + rest;
    assert pattern[0] == '*' && pattern[1..] == rest;
    if from < |value| {
      assert value[from..][1..] == value[from + 1..];
      StarAbsorbs(value, from + 1, rest);
    }
  }

  lemma StarSpanIsParts(value: string, from: nat, parts: seq<string>)
    requires parts != [] && from <= |value|
    ensures StarSpan(value, from, |value|, parts) <==> exists i: nat :: from <= i <= |value| && PartsMatch(value, i, parts)
  {
    hide OccursAt;
    forall i: nat ensures TakesAt(value, from, |value|, parts, i) <==> from <= i && i + |parts[0]| <= |value| && PartsMatch(value, i, parts) {
    }
    forall i: nat | PartsMatch(value, i, parts) ensures i + |parts[0]| <= |value| {
      OccursFits(value, parts[0], i);
    }
  }

  lemma OccursFits(s: string, part: string, i: nat)
    requires OccursAt(s, part, i)
    ensures i + |part| <= |s|
  {
  }

  /** A part that starts with a literal character. */
  lemma LiteralFirst(value: string, from: nat, c: char, tail: seq<string>)
    requires tail != []
    ensures PartsMatch(value, from, [[c] + tail[0]] + tail[1..]) <==>
            from < |value| && value[from] == c && PartsMatch(value, from + 1, tail)
  {
    var first := [c] + tail[0];
    var parts := [first] + tail[1..];
    assert parts[0] == first && parts[1..] == tail[1..];
    if from + |first| <= |value| {
      assert value[from..from + |first|] == [value[from]] + value[from + 1..from + 1 + |tail[0]|];
      assert OccursAt(value, first, from) <==> value[from] == c && OccursAt(value, tail[0], from + 1) by {
        if OccursAt(value, first, from) {
          assert first[0] == value[from] && first[1..] == value[from + 1..from + 1 + |tail[0]|];
        }
      }
    }
  }

  /** Splitting a pattern at its stars does not change its meaning. */
  lemma {:induction false} SplitKeepsMeaning(value: string, from: nat, pattern: string)
    requires from <= |value|
    ensures WildMatch(value[from..], pattern) <==> PartsMatch(value, from, Split(pattern, '*'))
    decreases |pattern|
  {
    var parts := Split(pattern, '*');
    if pattern == "" {
      assert parts == [""];
    } else {
      var tail := Split(pattern[1..], '*');
      if pattern[0] == '*' {
        assert pattern == "*" + pattern[1..];
        assert parts[0] == "" && parts[1..] == tail && OccursAt(value, "", from);
        StarAbsorbs(value, from, pattern[1..]);
        forall i: nat | from <= i <= |value| ensures WildMatch(value[i..], pattern[1..]) <==> PartsMatch(value, i, tail) {
          SplitKeepsMeaning(value, i, pattern[1..]);
        }
        StarSpanIsParts(value, from, tail);
      } else {
        LiteralFirst(value, from, pattern[0], tail);
        if from < |value| {
          assert value[from..][1..] == value[from + 1..];
          SplitKeepsMeaning(value, from + 1, pattern[1..]);
        }
      }
    }
  }

  // ----- Soundness and completeness of the greedy form -----

  /** A star can absorb more on the left. */
  lemma StarSpanWider(value: string, from: nat, less: nat, to: nat, parts: seq<string>)
    requires parts != [] && less <= from && StarSpan(value, from, to, parts)
    ensures StarSpan(value, less, to, parts)
  {
    var i: nat :| TakesAt(value, from, to, parts, i);
    assert TakesAt(value, less, to, parts, i);
  }

  lemma EmptyOccurs(value: string, i: nat)
    requires i <= |value|
    ensures OccursAt(value, "", i)
  {
  }

  /** The greedy form takes a part at its first occurrence, if there is one. */
  lemma GreedyStep(value: string, parts: seq<string>, from: nat)
    requires parts != [] && from <= |value|
    ensures GreedyFrom(value, parts, from, false) ==
            match FindFrom(value, parts[0], from)
            case None => None
            case Some(i) => GreedyFrom(value, parts[1..], i + |parts[0]|, false)
  {
    hide OccursAt;
    EmptyOccurs(value, from);
  }

  /** What the greedy form has taken is a match of the parts it has taken. */
  lemma {:induction false} GreedyIsMatch(value: string, parts: seq<string>, from: nat, end: nat)
    requires from <= |value| && GreedyFrom(value, parts, from, false) == Some(end)
    ensures StarSpan(value, from, end, parts)
    decreases |parts|
  {
    hide OccursAt, FindFrom;
    if parts != [] {
      GreedyStep(value, parts, from);
      var i := FindFrom(value, parts[0], from).value;
      GreedyIsMatch(value, parts[1..], i + |parts[0]|, end);
      assert TakesAt(value, from, end, parts, i);
    }
  }

  /** The exchange argument: taking each part at its leftmost place ends no later than any match. */
  lemma {:induction false} GreedyEndsFirst(value: string, parts: seq<string>, from: nat, to: nat)
    requires from <= |value| && StarSpan(value, from, to, parts)
    ensures var end := GreedyFrom(value, parts, from, false);
            end.Some? && end.value <= to
    decreases |parts|
  {
    hide OccursAt, FindFrom;
    if parts != [] {
      var i: nat :| TakesAt(value, from, to, parts, i);
      GreedyStep(value, parts, from);
      var j := FindFrom(value, parts[0], from).value;
      assert j <= i;
      if parts[1..] != [] {
        StarSpanWider(value, i + |parts[0]|, j + |parts[0]|, to, parts[1..]);
        GreedyEndsFirst(value, parts[1..], j + |parts[0]|, to);
      }
    }
  }

  /** A pattern whose last part is empty may leave anything. */
  lemma {:induction false} LastStarAbsorbs(value: string, parts: seq<string>, from: nat, to: nat, more: nat)
    requires to <= more <= |value| && parts != [] && parts[|parts| - 1] == "" && StarSpan(value, from, to, parts)
    ensures StarSpan(value, from, more, parts)
    decreases |parts|
  {
    hide OccursAt;
    var i: nat :| TakesAt(value, from, to, parts, i);
    if |parts| == 1 {
      EmptyOccurs(value, more);
      assert StarSpan(value, more + |parts[0]|, more, parts[1..]);
      assert TakesAt(value, from, more, parts, more);
    } else {
      LastStarAbsorbs(value, parts[1..], i + |parts[0]|, to, more);
      assert TakesAt(value, from, more, parts, i);
    }
  }

  lemma {:induction false} SplitShape(pattern: string)
    ensures var parts := Split(pattern, '*');
            && (|parts| == 1 <==> '*' !in pattern)
            && ('*' !in pattern ==> parts == [pattern])
            && (pattern != "" ==> (parts[0] == "" <==> pattern[0] == '*'))
            && ('*' in pattern ==> (parts[|parts| - 1] == "" <==> EndsInStar(pattern)))
  {
    if pattern != "" {
      SplitShape(pattern[1..]);
      assert pattern == [pattern[0]] + pattern[1..];
      assert EndsInStar(pattern) <==> if |pattern| == 1 then pattern[0] == '*' else EndsInStar(pattern[1..]);
    }
  }

  /** The first part is taken at the start, whether or not it is empty. */
  lemma GreedyFirstPart(value: string, pattern: string)
    requires '*' in pattern
    ensures var parts := Split(pattern, '*');
            GreedyFrom(value, parts, 0, pattern[0] != '*') ==
            if OccursAt(value, parts[0], 0) then GreedyFrom(value, parts[1..], |parts[0]|, false) else None
  {
    SplitShape(pattern);
    EmptyOccurs(value, 0);
    hide OccursAt, Split, FindFrom;
  }

  /** Both forms by the part before the first star and the parts after it. */
  lemma FirstPartDecides(value: string, pattern: string)
    requires '*' in pattern
    ensures var parts := Split(pattern, '*');
            && |parts| >= 2 && (EndsInStar(pattern) <==> parts[|parts| - 1] == "")
            && (WildMatch(value, pattern) <==> OccursAt(value, parts[0], 0) && StarSpan(value, |parts[0]|, |value|, parts[1..]))
            && (pattern != "*" ==>
                 (GreedyMatch(value, pattern) <==>
                    && OccursAt(value, parts[0], 0)
                    && var end := GreedyFrom(value, parts[1..], |parts[0]|, false);
                       end.Some? && (EndsInStar(pattern) || end.value == |value|)))
  {
    hide WildMatch, Split, OccursAt, GreedyFrom, StarSpan, EndsInStar;
    assert value[0..] == value;
    SplitKeepsMeaning(value, 0, pattern);
    SplitShape(pattern);
    GreedyFirstPart(value, pattern);
  }

  /** Without a star, or with nothing else, the pattern's meaning is plain. */
  lemma PlainPatterns(value: string, pattern: string)
    ensures '*' !in pattern ==> (WildMatch(value, pattern) <==> value == pattern)
    ensures pattern == "*" ==> WildMatch(value, pattern)
  {
    hide WildMatch;
    assert value[0..] == value;
    SplitKeepsMeaning(value, 0, pattern);
    SplitShape(pattern);
    if '*' !in pattern {
      assert value[0..|value|] == value;
    } else if pattern == "*" {
      StarAlone(value, pattern);
    }
  }

  lemma StarAlone(value: string, pattern: string)
    requires pattern == "*"
    ensures PartsMatch(value, 0, Split(pattern, '*'))
  {
    var parts, tail := Split(pattern, '*'), pattern[1..];
    assert tail == "" && Split(tail, '*') == [""];
    assert parts == [""] + [""];
    assert parts[1..] == [""];
    assert StarSpan(value, |value|, |value|, parts[1..][1..]);
    assert TakesAt(value, 0, |value|, parts[1..], |value|);
  }

  /** Sound for every pattern: what the greedy form accepts is a match. */
  lemma GreedyIsSound(value: string, pattern: string)
    requires GreedyMatch(value, pattern)
    ensures WildMatch(value, pattern)
  {
    PlainPatterns(value, pattern);
    if '*' in pattern && pattern != "*" {
      FirstPartDecides(value, pattern);
      hide WildMatch, GreedyMatch, Split, OccursAt, GreedyFrom, StarSpan, EndsInStar;
      var parts := Split(pattern, '*');
      var end := GreedyFrom(value, parts[1..], |parts[0]|, false).value;
      GreedyIsMatch(value, parts[1..], |parts[0]|, end);
      if EndsInStar(pattern) {
        LastStarAbsorbs(value, parts[1..], |parts[0]|, end, |value|);
      }
    }
  }

  /** Complete when the pattern ends in a star or has none. */
  lemma GreedyIsComplete(value: string, pattern: string)
    requires EndsInStar(pattern) || '*' !in pattern
    requires WildMatch(value, pattern)
    ensures GreedyMatch(value, pattern)
  {
    PlainPatterns(value, pattern);
    if '*' in pattern && pattern != "*" {
      FirstPartDecides(value, pattern);
      hide WildMatch, GreedyMatch, Split, OccursAt, GreedyFrom, StarSpan, EndsInStar;
      var parts := Split(pattern, '*');
      GreedyEndsFirst(value, parts[1..], |parts[0]|, |value|);
    }
  }

  // ----- Exactly when it misses a match -----

  /** Where the greedy form stands when only the pattern's last part is still to be taken. */
  function BeforeLast(value: string, pattern: string): Option<nat>
    requires |Split(pattern, '*')| >= 2
  {
    var parts := Split(pattern, '*');
    if OccursAt(value, parts[0], 0) then GreedyFrom(value, parts[1..|parts| - 1], |parts[0]|, false) else None
  }

  /** The rest of the value, from `at` on, ends with `last`. */
  predicate EndsWithAfter(value: string, at: nat, last: string) {
    at + |last| <= |value| && OccursAt(value, last, |value| - |last|)
  }

  /**
   * The last part ends what is left of the value, and so the value matches, but the leftmost search stops
   * at an earlier occurrence of it and leaves characters over.
   */
  predicate FindsTooEarly(value: string, pattern: string) {
    && '*' in pattern && !EndsInStar(pattern)
    && |Split(pattern, '*')| >= 2
    && BeforeLast(value, pattern).Some?
    && TooEarly(value, BeforeLast(value, pattern).value, Split(pattern, '*')[|Split(pattern, '*')| - 1])
  }

  predicate TooEarly(value: string, at: nat, last: string) {
    && EndsWithAfter(value, at, last)
    && FindFrom(value, last, at).Some? && FindFrom(value, last, at).value + |last| < |value|
  }

  lemma {:induction false} GreedyConcat(value: string, parts: seq<string>, last: string, from: nat)
    requires from <= |value|
    ensures GreedyFrom(value, parts + [last], from, false) ==
            match GreedyFrom(value, parts, from, false)
            case None => None
            case Some(end) =>
              match FindFrom(value, last, end)
              case None => None
              case Some(i) => Some(i + |last|)
    decreases |parts|
  {
    hide OccursAt, FindFrom, GreedyFrom;
    var all := parts + [last];
    GreedyStep(value, all, from);
    if parts == [] {
      assert all == [last] && all[1..] == [];
      NothingLeft(value, from);
      if FindFrom(value, last, from).Some? {
        NothingLeft(value, FindFrom(value, last, from).value + |last|);
      }
    } else {
      assert all[0] == parts[0] && all[1..] == parts[1..] + [last];
      GreedyStep(value, parts, from);
      if FindFrom(value, parts[0], from).Some? {
        GreedyConcat(value, parts[1..], last, FindFrom(value, parts[0], from).value + |parts[0]|);
      }
    }
  }

  lemma NothingLeft(value: string, from: nat)
    requires from <= |value|
    ensures GreedyFrom(value, [], from, false) == Some(from)
  {
  }

  /** One more part at the very end: the others fit before it. */
  lemma {:induction false} StarSpanAppend(value: string, from: nat, k: nat, to: nat, parts: seq<string>, last: string)
    requires k + |last| <= to && StarSpan(value, from, k, parts) && OccursAt(value, last, to - |last|)
    ensures StarSpan(value, from, to, parts + [last])
    decreases |parts|
  {
    hide OccursAt;
    var all := parts + [last];
    if parts == [] {
      assert all[0] == last && all[1..] == [];
      assert StarSpan(value, to, to, all[1..]);
      assert TakesAt(value, from, to, all, to - |last|);
    } else {
      assert all[0] == parts[0] && all[1..] == parts[1..] + [last];
      var i: nat :| TakesAt(value, from, k, parts, i);
      StarSpanAppend(value, i + |parts[0]|, k, to, parts[1..], last);
      assert TakesAt(value, from, to, all, i);
    }
  }

  lemma {:induction false} StarSpanSplit(value: string, from: nat, to: nat, parts: seq<string>,
      last: string) returns (k: nat)
    requires StarSpan(value, from, to, parts + [last])
    ensures k + |last| <= to && StarSpan(value, from, k, parts) && OccursAt(value, last, to - |last|)
    decreases |parts|
  {
    hide OccursAt;
    var all := parts + [last];
    var i: nat :| TakesAt(value, from, to, all, i);
    if parts == [] {
      assert all[0] == last && all[1..] == [];
      assert StarSpan(value, i + |last|, to, all[1..]);
      assert i + |last| == to;
      k := from;
    } else {
      assert all[0] == parts[0] && all[1..] == parts[1..] + [last];
      k := StarSpanSplit(value, i + |parts[0]|, to, parts[1..], last);
      SpanAscends(value, i + |parts[0]|, k, parts[1..]);
      assert TakesAt(value, from, k, parts, i);
    }
  }

  lemma {:induction false} SpanAscends(value: string, from: nat, to: nat, parts: seq<string>)
    requires StarSpan(value, from, to, parts)
    ensures from <= to
    decreases |parts|
  {
    hide OccursAt;
    if parts != [] {
      var i: nat :| TakesAt(value, from, to, parts, i);
    }
  }

  /** The parts after the first one, the last of them apart. */
  lemma LastPartDecidesTail(value: string, from: nat, mid: seq<string>, last: string)
    requires from <= |value|
    ensures var at := GreedyFrom(value, mid, from, false);
            var end := GreedyFrom(value, mid + [last], from, false);
            && (StarSpan(value, from, |value|, mid + [last]) <==> at.Some? && EndsWithAfter(value, at.value, last))
            && (end.Some? && end.value == |value| <==>
                  at.Some? && FindFrom(value, last, at.value).Some? && FindFrom(value, last, at.value).value + |last| == |value|)
  {
    hide OccursAt, StarSpan, GreedyFrom, FindFrom;
    GreedyConcat(value, mid, last, from);
    var at := GreedyFrom(value, mid, from, false);
    if at.Some? && EndsWithAfter(value, at.value, last) {
      GreedyIsMatch(value, mid, from, at.value);
      StarSpanAppend(value, from, at.value, |value|, mid, last);
    }
    if StarSpan(value, from, |value|, mid + [last]) {
      var k := StarSpanSplit(value, from, |value|, mid, last);
      GreedyEndsFirst(value, mid, from, k);
    }
  }

  /** A pattern with a star that does not end in one: both forms, in terms of what is left for the last part. */
  lemma LastPartDecides(value: string, pattern: string)
    requires '*' in pattern && !EndsInStar(pattern)
    ensures |Split(pattern, '*')| >= 2
    ensures var parts, at := Split(pattern, '*'), BeforeLast(value, pattern);
            var last := parts[|parts| - 1];
            && last != ""
            && (WildMatch(value, pattern) <==> at.Some? && EndsWithAfter(value, at.value, last))
            && (GreedyMatch(value, pattern) <==>
                  at.Some? && FindFrom(value, last, at.value).Some? && FindFrom(value, last, at.value).value + |last| == |value|)
  {
    FirstPartDecides(value, pattern);
    hide OccursAt, StarSpan, GreedyFrom, WildMatch, Split, GreedyMatch, FindFrom, EndsWithAfter;
    var parts := Split(pattern, '*');
    var mid, last := parts[1..|parts| - 1], parts[|parts| - 1];
    assert parts[1..] == mid + [last];
    if OccursAt(value, parts[0], 0) {
      OccursFits(value, parts[0], 0);
      LastPartDecidesTail(value, |parts[0]|, mid, last);
    }
  }

  /** The greedy form and the meaning differ exactly when the last part is found too early. */
  lemma GreedyIsExact(value: string, pattern: string)
    ensures GreedyMatch(value, pattern) == WildMatch(value, pattern) <==> !FindsTooEarly(value, pattern)
  {
    hide WildMatch, GreedyMatch, Split, OccursAt, GreedyFrom, EndsInStar, FindFrom, BeforeLast;
    if GreedyMatch(value, pattern) {
      GreedyIsSound(value, pattern);
    }
    if EndsInStar(pattern) || '*' !in pattern {
      if WildMatch(value, pattern) {
        GreedyIsComplete(value, pattern);
      }
    } else {
      LastPartDecides(value, pattern);
      var parts, at := Split(pattern, '*'), BeforeLast(value, pattern);
      var last := parts[|parts| - 1];
      if at.Some? && EndsWithAfter(value, at.value, last) {
        var i := FindFrom(value, last, at.value);
        assert i.Some? && i.value <= |value| - |last|;
      }
    }
  }

  // ----- Which patterns can be trusted -----

  function Concat(parts: seq<string>): string {
    if parts == [] then "" else parts[0] + Concat(parts[1..])
  }

  lemma OccursInMiddle(before: string, part: string, after: string)
    ensures OccursAt(before + part + after, part, |before|)
  {
  }

  /** Taken from the concatenation of the parts, each part is found at once. */
  lemma {:induction false} GreedyOnConcat(before: string, parts: seq<string>, after: string)
    ensures GreedyFrom(before + Concat(parts) + after, parts, |before|, false) == Some(|before + Concat(parts)|)
    decreases |parts|
  {
    hide OccursAt, FindFrom;
    var value := before + Concat(parts) + after;
    if parts != [] {
      assert value == before + parts[0] + (Concat(parts[1..]) + after);
      OccursInMiddle(before, parts[0], Concat(parts[1..]) + after);
      GreedyStep(value, parts, |before|);
      assert value == (before + parts[0]) + Concat(parts[1..]) + after;
      GreedyOnConcat(before + parts[0], parts[1..], after);
      assert (before + parts[0]) + Concat(parts[1..]) == before + Concat(parts);
    }
  }

  /** After the first parts comes the last part twice: it is found early, and the value ends with it. */
  lemma DoubledLast(first: string, mid: seq<string>, last: string)
    ensures var value := first + Concat(mid) + (last + last);
            && OccursAt(value, first, 0)
            && var at := GreedyFrom(value, mid, |first|, false);
               at.Some? && at.value + 2 * |last| == |value| && OccursAt(value, last, at.value) && EndsWithAfter(value, at.value, last)
  {
    GreedyOnConcat(first, mid, last + last);
    hide GreedyFrom, FindFrom, OccursAt, Concat;
    StartsWithFirst(first, Concat(mid), last + last);
    EndsWithTwice(first + Concat(mid), last);
  }

  lemma StartsWithFirst(first: string, middle: string, after: string)
    ensures OccursAt(first + middle + after, first, 0)
  {
    OccursInMiddle([], first, middle + after);
    assert [] + first + (middle + after) == first + middle + after;
  }

  lemma EndsWithTwice(before: string, last: string)
    ensures OccursAt(before + (last + last), last, |before|)
    ensures OccursAt(before + (last + last), last, |before| + |last|)
  {
    OccursInMiddle(before, last, last);
    assert before + last + last == before + (last + last);
    OccursInMiddle(before + last, last, []);
    assert before + last + last + [] == before + (last + last);
  }

  /** The pattern's parts in one, with the last part doubled: a value that matches but is refused. */
  lemma DoubledLastIsMissed(pattern: string) returns (value: string)
    requires '*' in pattern && !EndsInStar(pattern)
    ensures WildMatch(value, pattern) && !GreedyMatch(value, pattern)
  {
    SplitShape(pattern);
    hide WildMatch, GreedyMatch, Split, OccursAt, GreedyFrom, FindFrom, EndsInStar, Concat, EndsWithAfter;
    var parts := Split(pattern, '*');
    var mid, last := parts[1..|parts| - 1], parts[|parts| - 1];
    value := parts[0] + Concat(mid) + (last + last);
    LastPartDecides(value, pattern);
    DoubledLast(parts[0], mid, last);
    var at := BeforeLast(value, pattern).value;
    assert FindFrom(value, last, at).Some? && FindFrom(value, last, at).value <= at;
  }

  /** The patterns for which the greedy form decides the meaning of every value. */
  lemma TrustworthyPatterns(pattern: string)
    ensures (forall value :: GreedyMatch(value, pattern) <==> WildMatch(value, pattern)) <==> EndsInStar(pattern) || '*' !in pattern
  {
    if EndsInStar(pattern) || '*' !in pattern {
      forall value ensures GreedyMatch(value, pattern) <==> WildMatch(value, pattern) {
        if GreedyMatch(value, pattern) { GreedyIsSound(value, pattern); }
        if WildMatch(value, pattern) { GreedyIsComplete(value, pattern); }
      }
    } else {
      var value := DoubledLastIsMissed(pattern);
    }
  }
}
