/** Small list helpers shared by the scorer and the critics: counting the
    elements that pass a test, and Python's slice `s[:n]`. */
module Lists {
  /** The number of elements of `s` that satisfy `P`. */
  function CountWhere<T>(P: T -> bool, s: seq<T>): nat {
    if s == [] then 0 else CountWhere(P, s[..|s| - 1]) + (if P(s[|s| - 1]) then 1 else 0)
  }

  /** The count never exceeds the length; it reaches the length exactly when
      every element qualifies, and is zero exactly when none does. */
  lemma {:induction false} CountWhereBounds<T>(P: T -> bool, s: seq<T>)
    ensures CountWhere(P, s) <= |s|
    ensures CountWhere(P, s) == |s| <==> forall k :: 0 <= k < |s| ==> P(s[k])
    ensures CountWhere(P, s) == 0 <==> forall k :: 0 <= k < |s| ==> !P(s[k])
    decreases |s|
  {
    if s != [] {
      var front := s[..|s| - 1];
      CountWhereBounds(P, front);
      assert forall k :: 0 <= k < |front| ==> front[k] == s[k];
    }
  }

  /** `s[:n]`: the first `n` elements, or all of them when there are fewer. */
  function Take<T>(s: seq<T>, n: nat): (r: seq<T>)
    ensures |r| == if |s| <= n then |s| else n
    ensures forall k :: 0 <= k < |r| ==> r[k] == s[k]
  {
    if |s| <= n then s else s[..n]
  }
}
