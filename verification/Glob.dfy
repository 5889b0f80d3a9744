/** Path scopes: which paths a scope covers, and which scopes of a grant an operation relied on. */
module Glob {
  import opened Wrappers
  import opened Ordering
  import opened Strings
  import opened Versions
  import opened Wildcards

  type Scope = string

  predicate IsDoubleStar(segment: string) {
    segment == "**"
  }

  /** `**` absorbs any number of segments; every other scope segment takes one segment it matches greedily. */
  predicate PathSegmentsMatch(path: seq<string>, scope: seq<string>) {
    Matches(path, scope, IsDoubleStar, GreedyMatch)
  }

  predicate PathMatchesScope(path: Path, scope: Scope) {
    PathSegmentsMatch(Split(path, '/'), Split(scope, '/'))
  }

  /** The declared meaning: the path's segments are cut into one piece for each scope segment, in order. */
  lemma SegmentsMatchIffAligned(path: seq<string>, scope: seq<string>)
    ensures PathSegmentsMatch(path, scope) <==> exists cuts :: Aligned(path, scope, IsDoubleStar, GreedyMatch, cuts)
  {
    MatchIffAligned(path, scope, IsDoubleStar, GreedyMatch);
  }

  /** A path is covered by what a scope means. */
  predicate Covers(scope: Scope, path: Path) {
    Matches(Split(path, '/'), Split(scope, '/'), IsDoubleStar, WildMatch)
  }

  lemma {:induction false} WeakerFitWeakerMatch(path: seq<string>, scope: seq<string>)
    requires Matches(path, scope, IsDoubleStar, GreedyMatch)
    ensures Matches(path, scope, IsDoubleStar, WildMatch)
    decreases |path| + |scope|
  {
    hide GreedyMatch, WildMatch;
    if scope == [] {
    } else if IsDoubleStar(scope[0]) {
      if Matches(path, scope[1..], IsDoubleStar, GreedyMatch) {
        WeakerFitWeakerMatch(path, scope[1..]);
      } else {
        WeakerFitWeakerMatch(path[1..], scope);
      }
    } else {
      GreedyIsSound(path[0], scope[0]);
      WeakerFitWeakerMatch(path[1..], scope[1..]);
    }
  }

  /** A segment pattern whose greedy matching decides its meaning. */
  predicate Trustworthy(pattern: string) {
    EndsInStar(pattern) || '*' !in pattern
  }

  lemma {:induction false} TrustworthyScopesAreExact(path: seq<string>, scope: seq<string>)
    requires forall segment :: segment in scope ==> Trustworthy(segment)
    ensures Matches(path, scope, IsDoubleStar, GreedyMatch) <==> Matches(path, scope, IsDoubleStar, WildMatch)
    decreases |path| + |scope|
  {
    hide GreedyMatch, WildMatch, Trustworthy;
    if scope != [] {
      if IsDoubleStar(scope[0]) {
        TrustworthyScopesAreExact(path, scope[1..]);
        if path != [] {
          TrustworthyScopesAreExact(path[1..], scope);
        }
      } else if path != [] {
        SegmentIsExact(path[0], scope[0]);
        TrustworthyScopesAreExact(path[1..], scope[1..]);
      }
    }
  }

  lemma SegmentIsExact(value: string, pattern: string)
    requires Trustworthy(pattern)
    ensures GreedyMatch(value, pattern) <==> WildMatch(value, pattern)
  {
    hide GreedyMatch, WildMatch;
    if GreedyMatch(value, pattern) { GreedyIsSound(value, pattern); }
    if WildMatch(value, pattern) { GreedyIsComplete(value, pattern); }
  }

  /**
   * No path is let through that the scope does not mean; and a scope whose segments end in `*` or contain
   * none lets through exactly the paths it means.
   */
  lemma ScopesNeverOvermatch(path: Path, scope: Scope)
    ensures PathMatchesScope(path, scope) ==> Covers(scope, path)
    ensures (forall segment :: segment in Split(scope, '/') ==> Trustworthy(segment)) ==> (Covers(scope, path) ==> PathMatchesScope(path, scope))
  {
    hide GreedyMatch, WildMatch, Split;
    if PathMatchesScope(path, scope) {
      WeakerFitWeakerMatch(Split(path, '/'), Split(scope, '/'));
    }
    if forall segment :: segment in Split(scope, '/') ==> Trustworthy(segment) {
      TrustworthyScopesAreExact(Split(path, '/'), Split(scope, '/'));
    }
  }

  // ----- Which scopes an operation relied on -----

  ghost predicate MatchesSome(path: Path, scopes: seq<Scope>) {
    exists scope :: scope in scopes && PathMatchesScope(path, scope)
  }

  /** The scopes that match some path, each once, in the order they are first needed. */
  function MatchedAlong(paths: seq<Path>, scopes: seq<Scope>, matched: seq<Scope>): Option<seq<Scope>>
    decreases |paths|
  {
    if paths == [] then Some(matched)
    else if forall scope :: scope in scopes ==> !PathMatchesScope(paths[0], scope) then None
    else MatchedAlong(paths[1..], scopes, AddMatches(paths[0], scopes, matched))
  }

  function AddMatches(path: Path, scopes: seq<Scope>, matched: seq<Scope>): seq<Scope>
    decreases |scopes|
  {
    if scopes == [] then matched
    else AddMatches(path, scopes[1..],
      if PathMatchesScope(path, scopes[0]) && scopes[0] !in matched then matched + [scopes[0]] else matched)
  }

  method MatchedPathScopes(paths: seq<Path>, scopes: seq<Scope>) returns (r: Option<seq<Scope>>)
    ensures r == MatchedAlong(paths, scopes, [])
  {
    hide PathMatchesScope;
    var matched: seq<Scope> := [];
    var i := 0;
    assert paths[0..] == paths;
    while i < |paths|
      invariant 0 <= i <= |paths|
      invariant MatchedAlong(paths, scopes, []) == MatchedAlong(paths[i..], scopes, matched)
    {
      var path := paths[i];
      assert paths[i..][0] == path && paths[i..][1..] == paths[i + 1..];
      var allowed := false;
      ghost var before := matched;
      var j := 0;
      assert scopes[0..] == scopes;
      while j < |scopes|
        invariant 0 <= j <= |scopes|
        invariant allowed <==> exists k :: 0 <= k < j && PathMatchesScope(path, scopes[k])
        invariant AddMatches(path, scopes, before) == AddMatches(path, scopes[j..], matched)
      {
        assert scopes[j..][0] == scopes[j] && scopes[j..][1..] == scopes[j + 1..];
        if PathMatchesScope(path, scopes[j]) {
          allowed := true;
          if scopes[j] !in matched {
            matched := matched + [scopes[j]];
          }
        }
        j := j + 1;
      }
      if !allowed {
        return None;
      }
      i := i + 1;
    }
    return Some(matched);
  }

  lemma {:induction false} AddMatchesMeaning(path: Path, scopes: seq<Scope>, matched: seq<Scope>)
    requires Distinct(matched)
    ensures Distinct(AddMatches(path, scopes, matched))
    ensures forall s :: s in AddMatches(path, scopes, matched) <==> s in matched || (s in scopes && PathMatchesScope(path, s))
    decreases |scopes|
  {
    hide PathMatchesScope;
    if scopes != [] {
      var next := if PathMatchesScope(path, scopes[0]) && scopes[0] !in matched then matched + [scopes[0]] else matched;
      assert AddMatches(path, scopes, matched) == AddMatches(path, scopes[1..], next);
      assert Distinct(next);
      hide Distinct, AddMatches;
      AddMatchesMeaning(path, scopes[1..], next);
      assert forall s :: s in scopes <==> s == scopes[0] || s in scopes[1..];
      assert forall s :: s in next <==> s in matched || (s == scopes[0] && PathMatchesScope(path, s));
    }
  }

  lemma {:induction false} MatchedAlongMeaning(paths: seq<Path>, scopes: seq<Scope>, matched: seq<Scope>)
    requires Distinct(matched)
    ensures MatchedAlong(paths, scopes, matched).Some? <==> forall p :: p in paths ==> MatchesSome(p, scopes)
    ensures MatchedAlong(paths, scopes, matched).Some? ==>
              && Distinct(MatchedAlong(paths, scopes, matched).value)
              && forall s :: s in MatchedAlong(paths, scopes, matched).value <==>
                   s in matched || (s in scopes && exists p :: p in paths && PathMatchesScope(p, s))
    decreases |paths|
  {
    hide PathMatchesScope, AddMatches;
    if paths != [] {
      assert paths == [paths[0]] + paths[1..];
      AddMatchesMeaning(paths[0], scopes, matched);
      assert MatchesSome(paths[0], scopes) <==> !forall scope :: scope in scopes ==> !PathMatchesScope(paths[0], scope);
      assert forall p :: p in paths <==> p == paths[0] || p in paths[1..];
      MatchedAlongMeaning(paths[1..], scopes, AddMatches(paths[0], scopes, matched));
    }
  }

  /**
   * Scopes are reported exactly when every path matches one of them; the report has no duplicates, holds
   * exactly the scopes that match some path, and covers every path.
   */
  lemma ReportedScopes(paths: seq<Path>, scopes: seq<Scope>)
    ensures MatchedAlong(paths, scopes, []).Some? <==> forall p :: p in paths ==> MatchesSome(p, scopes)
    ensures MatchedAlong(paths, scopes, []).Some? ==>
              var matched := MatchedAlong(paths, scopes, []).value;
              && Distinct(matched)
              && (forall s :: s in matched <==> s in scopes && exists p :: p in paths && PathMatchesScope(p, s))
              && (forall p :: p in paths ==> MatchesSome(p, matched))
  {
    hide PathMatchesScope;
    MatchedAlongMeaning(paths, scopes, []);
    if MatchedAlong(paths, scopes, []).Some? {
      var matched := MatchedAlong(paths, scopes, []).value;
      forall p | p in paths ensures MatchesSome(p, matched) {
        assert MatchesSome(p, scopes);
        var s :| s in scopes && PathMatchesScope(p, s);
        assert s in matched;
      }
    }
  }
}
