/** Picking a first row, as `ORDER BY ... LIMIT 1` and `min` do; ties may go either way. */
module Selection {

  // No row with one of the keys comes strictly before this one.
  predicate ComesFirst<K, V>(table: map<K, V>, keys: set<K>, notAfter: (V, V) -> bool, key: K)
    requires keys <= table.Keys
  {
    key in keys && forall other | other in keys :: notAfter(table[key], table[other])
  }

  lemma {:induction false} SomeoneComesFirst<K(!new), V(!new)>(table: map<K, V>, keys: set<K>, notAfter: (V, V) -> bool)
    requires keys != {} && keys <= table.Keys
    requires forall a, b :: notAfter(a, b) || notAfter(b, a)
    requires forall a, b, c :: notAfter(a, b) && notAfter(b, c) ==> notAfter(a, c)
    ensures exists key :: ComesFirst(table, keys, notAfter, key)
    decreases keys
  {
    var some :| some in keys;
    var rest := keys - {some};
    assert forall key | key in keys :: key == some || key in rest;
    if rest == {} {
      assert ComesFirst(table, keys, notAfter, some);
    } else {
      SomeoneComesFirst(table, rest, notAfter);
      var best :| ComesFirst(table, rest, notAfter, best);
      assert ComesFirst(table, keys, notAfter, if notAfter(table[best], table[some]) then best else some);
    }
  }
}
