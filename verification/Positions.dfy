/** Chosen positions of a list. */
module Positions {
  /** The chosen positions, which are below n, each once, in ascending order. */
  ghost predicate Lists(at: seq<nat>, n: nat, chosen: set<nat>) {
    && (forall k :: 0 <= k < |at| ==> at[k] < n)
    && (forall j, k :: 0 <= j < k < |at| ==> at[j] < at[k])
    && (forall i: nat :: i in at <==> i in chosen)
  }

  lemma ListsNext(at: seq<nat>, n: nat, chosen: set<nat>)
    requires Lists(at, n, chosen)
    ensures Lists(at, n + 1, chosen) && Lists(at + [n], n + 1, chosen + {n})
  {
  }
}
