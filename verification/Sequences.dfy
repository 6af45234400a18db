/** What a loop over a sequence picks out. */
module Sequences {

  // `idx` are the indexes below n with a property: all of them, once each, in order.
  ghost predicate Selects(idx: seq<int>, n: int, keep: int -> bool) {
    && (forall k :: 0 <= k < |idx| ==> 0 <= idx[k] < n && keep(idx[k]))
    && (forall k, l :: 0 <= k < l < |idx| ==> idx[k] < idx[l])
    && (forall i :: 0 <= i < n && keep(i) ==> i in idx)
  }

  function Picked(n: nat, keep: int -> bool): seq<int> {
    if n == 0 then [] else Picked(n - 1, keep) + if keep(n - 1) then [n - 1] else []
  }

  lemma {:induction false} NonePicked(n: nat, keep: int -> bool)
    requires forall i :: 0 <= i < n ==> !keep(i)
    ensures Picked(n, keep) == []
  {
    if n > 0 { NonePicked(n - 1, keep); }
  }

  lemma {:induction false} LastPicked(n: nat, keep: int -> bool, j: int)
    requires 0 <= j < n && keep(j) && forall i :: j < i < n ==> !keep(i)
    ensures var idx := Picked(n, keep); idx != [] && idx[|idx| - 1] == j
  {
    if j < n - 1 { LastPicked(n - 1, keep, j); }
  }

  lemma {:induction false} PickedSelects(n: nat, keep: int -> bool)
    ensures Selects(Picked(n, keep), n, keep)
  {
    if n > 0 {
      var before, idx := Picked(n - 1, keep), Picked(n, keep);
      PickedSelects(n - 1, keep);
      forall i | 0 <= i < n && keep(i) ensures i in idx {
        if i < n - 1 { assert i in before; } else { assert idx[|before|] == n - 1; }
      }
    }
  }
}
