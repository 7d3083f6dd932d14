/** The orders in which Python may iterate a set or the keys of a dictionary. */
module Orders {

  /** Each element once. */
  ghost predicate Enumerates<T>(order: seq<T>, items: set<T>) {
    && (forall i :: 0 <= i < |order| ==> order[i] in items)
    && (forall x :: x in items ==> x in order)
    && (forall i, j :: 0 <= i < j < |order| ==> order[i] != order[j])
  }

  lemma NoneEnumerated<T>()
    ensures Enumerates<T>([], {})
  {
  }

  lemma EnumeratesGrows<T>(order: seq<T>, done: set<T>, x: T)
    requires Enumerates(order, done) && x !in done
    ensures Enumerates(order + [x], done + {x})
  {
    var grown := order + [x];
    assert grown[|order|] == x;
    forall y | y in done ensures y in grown {
      var i :| 0 <= i < |order| && order[i] == y;
      assert grown[i] == y;
    }
  }
}
