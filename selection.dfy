/** Positions of the elements a filtering loop keeps: the reference against
    which the loops that skip records (`continue`) are stated. */
module Selection {

  /** The positions of `s` whose element satisfies `p`, in increasing order. */
  function Kept<T>(s: seq<T>, p: T -> bool): (r: seq<nat>)
    ensures forall k :: 0 <= k < |r| ==> r[k] < |s| && p(s[r[k]])
    ensures forall k, l :: 0 <= k < l < |r| ==> r[k] < r[l]
    ensures forall i :: 0 <= i < |s| && p(s[i]) ==> i in r
  {
    if s == [] then []
    else
      var init := Kept(s[..|s| - 1], p);
      assert forall k :: 0 <= k < |init| ==> s[..|s| - 1][init[k]] == s[init[k]];
      if p(s[|s| - 1]) then init + [|s| - 1] else init
  }

  /** Extending the sequence by one element extends the kept positions by that
      element's position exactly when it is kept. */
  lemma KeptSnoc<T>(s: seq<T>, x: T, p: T -> bool)
    ensures Kept(s + [x], p) == Kept(s, p) + (if p(x) then [|s|] else [])
  {
    assert (s + [x])[..|s|] == s;
  }

  /** The same, for prefixes of one sequence. */
  lemma KeptPrefix<T>(s: seq<T>, n: nat, p: T -> bool)
    requires 0 < n <= |s|
    ensures Kept(s[..n], p) == Kept(s[..n - 1], p) + (if p(s[n - 1]) then [n - 1] else [])
  {
    assert s[..n] == s[..n - 1] + [s[n - 1]];
    KeptSnoc(s[..n - 1], s[n - 1], p);
  }
}
