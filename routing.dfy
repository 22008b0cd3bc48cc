/** Path matching as react-router (version 5) performs it for the patterns the client declares. */
module Routing {

  /** A non-exact `<Route path=pattern>`: the pattern itself or the pattern followed by further segments. */
  predicate Matches(pattern: string, path: string) {
    path == pattern || (|pattern| < |path| && path[..|pattern| + 1] == pattern + "/")
  }

  /**
   * An `exact` route: the pattern itself, or the pattern followed by one
   * optional trailing slash when the pattern does not already end in one.
   */
  predicate MatchesExactly(pattern: string, path: string) {
    path == pattern || (pattern != [] && pattern[|pattern| - 1] != '/' && path == pattern + "/")
  }

  /** The exact root route matches the root path and nothing else. */
  lemma ExactRootIsOnlyRoot(path: string)
    ensures MatchesExactly("/", path) <==> path == "/"
  {
  }

  /** A matching path begins with the pattern. */
  lemma MatchedPathStartsWithPattern(pattern: string, path: string)
    requires Matches(pattern, path)
    ensures |pattern| <= |path| && path[..|pattern|] == pattern
  {
    if path != pattern {
      assert path[..|pattern|] == path[..|pattern| + 1][..|pattern|];
    }
  }

  /** Two patterns that differ at some position never match the same path. */
  lemma DisjointPatterns(p: string, q: string, path: string, i: nat)
    requires i < |p| && i < |q| && p[i] != q[i]
    requires Matches(p, path)
    ensures !Matches(q, path)
  {
    MatchedPathStartsWithPattern(p, path);
    assert path[i] == path[..|p|][i] == p[i];
    if |q| <= |path| {
      assert path[..|q|][i] == path[i];
    }
  }

  /** An exact match is also a match. */
  lemma ExactIsAMatch(pattern: string, path: string)
    requires MatchesExactly(pattern, path)
    ensures Matches(pattern, path)
  {
    if path == pattern + "/" {
      assert path[..|pattern| + 1] == path;
    }
  }
}
