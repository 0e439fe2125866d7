/** Visiting the keys of a map, each once, in some order. */
module Orders {
  ghost predicate Distinct(order: seq<string>) {
    forall i, k :: 0 <= i < k < |order| ==> order[i] != order[k]
  }

  predicate Listed(order: seq<string>, keys: set<string>) {
    forall i :: 0 <= i < |order| ==> order[i] in keys
  }

  /** Every key once. */
  ghost predicate IsOrder(order: seq<string>, keys: set<string>) {
    Distinct(order) && Listed(order, keys) && forall k :: k in keys ==> k in order
  }

  lemma OrderThen(order: seq<string>, done: set<string>, k: string)
    requires IsOrder(order, done) && k !in done
    ensures IsOrder(order + [k], done + {k})
  {
  }

  lemma OrderLast(order: seq<string>, done: set<string>)
    requires IsOrder(order, done) && order != []
    ensures order[|order| - 1] in done && IsOrder(order[..|order| - 1], done - {order[|order| - 1]})
  {
  }
}
