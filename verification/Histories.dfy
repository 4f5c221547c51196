/** Finite histories. */
module Histories {
  lemma SplitLast<E>(events: seq<E>, later: seq<E>)
    requires later != []
    ensures events + later == (events + later[..|later| - 1]) + [later[|later| - 1]]
  {
  }
}
