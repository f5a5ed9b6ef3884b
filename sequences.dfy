/** Sequence helpers: Python's slice `s[:n]` and the positions an in-order filter keeps. */
module Sequences {

  /** `s[:n]`. */
  function Take<T>(s: seq<T>, n: nat): (t: seq<T>)
    ensures |t| == if |s| < n then |s| else n
    ensures t <= s
  {
    s[..if |s| < n then |s| else n]
  }

  /**
   * The indices of the elements of `s` that satisfy `keep`, in increasing
   * order: each such index once, and no other.
   */
  function Positions<T>(s: seq<T>, keep: T -> bool): (ps: seq<nat>)
    ensures |ps| <= |s|
    ensures forall j :: 0 <= j < |ps| ==> ps[j] < |s| && keep(s[ps[j]])
    ensures forall j, k :: 0 <= j < k < |ps| ==> ps[j] < ps[k]
    ensures forall i :: 0 <= i < |s| && keep(s[i]) ==> i in ps
    decreases |s|
  {
    if s == [] then []
    else
      var front := s[..|s| - 1];
      var ps := Positions(front, keep);
      assert forall i :: 0 <= i < |front| ==> front[i] == s[i];
      if keep(s[|s| - 1]) then ps + [|s| - 1] else ps
  }
}
