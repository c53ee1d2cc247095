/**
 * The POSIX regular-expression collaborator (regcomp/regexec).  Its matching
 * semantics are not modelled: a `Matcher` is any pair of total functions saying
 * whether a pattern compiles and whether a compiled pattern finds a match.
 */
module Regex {
  import opened Wrappers

  datatype Matcher = Matcher(compiles: string -> bool, finds: (string, string) -> bool)

  /** pattern_matches / matches_pattern / state_matches: a pattern that does not
      compile never matches. */
  predicate PatternMatches(m: Matcher, pattern: string, text: string): (b: bool)
    ensures b ==> m.compiles(pattern)
  {
    m.compiles(pattern) && m.finds(pattern, text)
  }

  /** The index of the first pattern, in list order, that matches `text`. */
  function FirstMatching(m: Matcher, patterns: seq<string>, text: string): (r: Option<nat>)
    ensures r.Some? ==> r.value < |patterns| && PatternMatches(m, patterns[r.value], text)
    ensures r.Some? ==> forall j :: 0 <= j < r.value ==> !PatternMatches(m, patterns[j], text)
    ensures r.None? <==> forall j :: 0 <= j < |patterns| ==> !PatternMatches(m, patterns[j], text)
  {
    if patterns == [] then None
    else if PatternMatches(m, patterns[0], text) then Some(0)
    else match FirstMatching(m, patterns[1..], text)
      case None => None
      case Some(k) => Some(k + 1)
  }

  /** The patterns of a list of pattern-bearing entries (states or rules), in
      list order. */
  function PatternsOf<T>(xs: seq<T>, pattern: T -> string): seq<string>
  {
    seq(|xs|, i requires 0 <= i < |xs| => pattern(xs[i]))
  }
}
