/** Sublists: the elements of a sequence that have a property, each once, in their order. */
module Selection {
  predicate Rising(at: seq<nat>) { forall i, j :: 0 <= i < j < |at| ==> at[i] < at[j] }

  predicate Below(at: seq<nat>, n: nat) { forall i :: 0 <= i < |at| ==> at[i] < n }

  /** out[i] stands in `all` at at[i]. */
  ghost predicate Placed<T>(all: seq<T>, out: seq<T>, at: seq<nat>) {
    Below(at, |all|) && |at| == |out| && forall i :: 0 <= i < |at| ==> out[i] == all[at[i]]
  }

  predicate Has<T>(all: seq<T>, keep: T -> bool, i: nat) { i < |all| && keep(all[i]) }

  /** `out` is what has the property; `at` says where it stands in `all`. */
  ghost predicate Selects<T>(all: seq<T>, keep: T -> bool, out: seq<T>, at: seq<nat>) {
    Rising(at) && Placed(all, out, at) && forall i: nat :: i in at <==> Has(all, keep, i)
  }

  lemma RisingMore(at: seq<nat>, n: nat)
    requires Rising(at) && Below(at, n)
    ensures Rising(at + [n]) && Below(at + [n], n + 1) && Below(at, n + 1)
  {
  }

  lemma PlacedMore<T>(all: seq<T>, out: seq<T>, at: seq<nat>)
    requires all != [] && Placed(all[..|all| - 1], out, at)
    ensures Placed(all, out, at) && Placed(all, out + [all[|all| - 1]], at + [|all| - 1])
  {
  }

  lemma SelectsMore<T>(all: seq<T>, keep: T -> bool, out: seq<T>, at: seq<nat>) returns (next: seq<nat>)
    requires all != [] && Selects(all[..|all| - 1], keep, out, at)
    ensures var last := all[|all| - 1]; Selects(all, keep, if keep(last) then out + [last] else out, next)
  {
    var n := |all| - 1;
    next := if keep(all[n]) then at + [n] else at;
    RisingMore(at, n);
    PlacedMore(all, out, at);
    forall i: nat ensures i in next <==> Has(all, keep, i) {
      assert i in at <==> Has(all[..n], keep, i);
    }
  }
}
