/** Reachability in a finite directed graph, by explicit paths; cycles are allowed. */
module Reachability {

  ghost predicate IsPath<T>(succ: map<T, set<T>>, path: seq<T>) {
    && |path| > 0
    && forall i :: 0 <= i < |path| - 1 ==> path[i] in succ && path[i + 1] in succ[path[i]]
  }

  ghost predicate PathBetween<T>(succ: map<T, set<T>>, from: T, to: T, path: seq<T>) {
    IsPath(succ, path) && path[0] == from && path[|path| - 1] == to
  }

  ghost predicate Reaches<T(!new)>(succ: map<T, set<T>>, from: T, to: T) {
    exists path :: PathBetween(succ, from, to, path)
  }

  lemma ReachesSelf<T(!new)>(succ: map<T, set<T>>, t: T)
    ensures Reaches(succ, t, t)
  {
    assert PathBetween(succ, t, t, [t]);
  }

  /** Follow one more edge at the end. */
  lemma ReachesStep<T(!new)>(succ: map<T, set<T>>, from: T, mid: T, to: T)
    requires Reaches(succ, from, mid) && mid in succ && to in succ[mid]
    ensures Reaches(succ, from, to)
  {
    var path :| PathBetween(succ, from, mid, path);
    assert PathBetween(succ, from, to, path + [to]);
  }

  lemma ReachesTransitive<T(!new)>(succ: map<T, set<T>>, from: T, mid: T, to: T)
    requires Reaches(succ, from, mid) && Reaches(succ, mid, to)
    ensures Reaches(succ, from, to)
  {
    var left :| PathBetween(succ, from, mid, left);
    var right :| PathBetween(succ, mid, to, right);
    assert PathBetween(succ, from, to, left + right[1..]);
  }

  /** A path of more than one node has a first edge. */
  lemma ReachesFirst<T(!new)>(succ: map<T, set<T>>, from: T, to: T) returns (next: T)
    requires Reaches(succ, from, to) && from != to
    ensures from in succ && next in succ[from] && Reaches(succ, next, to)
  {
    var path :| PathBetween(succ, from, to, path);
    next := path[1];
    assert PathBetween(succ, next, to, path[1..]);
  }

  /** ... and a last one. */
  lemma ReachesLast<T(!new)>(succ: map<T, set<T>>, from: T, to: T) returns (prev: T)
    requires Reaches(succ, from, to) && from != to
    ensures prev in succ && to in succ[prev] && Reaches(succ, from, prev)
  {
    var path :| PathBetween(succ, from, to, path);
    prev := path[|path| - 2];
    assert PathBetween(succ, from, prev, path[..|path| - 1]);
  }

  /** A set that no edge leaves holds everything its members reach. */
  lemma {:induction false} ReachesWithin<T(!new)>(succ: map<T, set<T>>, region: set<T>, from: T, to: T)
    requires from in region && Reaches(succ, from, to)
    requires forall t, u :: t in region && t in succ && u in succ[t] ==> u in region
    ensures to in region
  {
    var path :| PathBetween(succ, from, to, path);
    PathWithin(succ, region, path);
  }

  lemma {:induction false} PathWithin<T(!new)>(succ: map<T, set<T>>, region: set<T>, path: seq<T>)
    requires IsPath(succ, path) && path[0] in region
    requires forall t, u :: t in region && t in succ && u in succ[t] ==> u in region
    ensures path[|path| - 1] in region
  {
    if |path| > 1 {
      PathWithin(succ, region, path[1..]);
    }
  }
}
