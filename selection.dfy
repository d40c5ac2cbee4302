/**
 * The filtering loops of the cell (`if cond: out.append(...)` over a list)
 * keep an order-preserving selection of their input. `Kept` names that
 * selection by the indices it keeps, so that each filter can be
 * characterised once and for all.
 */
module Selection {

  /** The indices of `s`, in increasing order, whose element satisfies `keep`. */
  function Kept<T>(keep: T -> bool, s: seq<T>): (idx: seq<int>)
    ensures |idx| <= |s|
    ensures forall j :: 0 <= j < |idx| ==> 0 <= idx[j] < |s| && keep(s[idx[j]])
    ensures forall j, k :: 0 <= j < k < |idx| ==> idx[j] < idx[k]
    ensures forall i :: 0 <= i < |s| && keep(s[i]) ==> i in idx
  {
    if |s| == 0 then []
    else Kept(keep, s[..|s| - 1]) + (if keep(s[|s| - 1]) then [|s| - 1] else [])
  }

  /** Nothing is dropped when every element is kept, and nothing is kept when none is. */
  lemma {:induction false} KeptAllOrNone<T>(keep: T -> bool, s: seq<T>)
    ensures (forall i :: 0 <= i < |s| ==> keep(s[i])) ==> |Kept(keep, s)| == |s|
    ensures (forall i :: 0 <= i < |s| ==> !keep(s[i])) ==> Kept(keep, s) == []
  {
    if |s| > 0 {
      KeptAllOrNone(keep, s[..|s| - 1]);
    }
  }
}
