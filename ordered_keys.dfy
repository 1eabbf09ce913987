/**
 * A std::map visits its keys in ascending order: the next key visited is
 * the least of those not yet visited, which always exists.
 */
module OrderedKeys {

  /** Some key of a non-empty set of keys. */
  lemma AnyKey(s: set<int>) returns (x: int)
    requires s != {}
    ensures x in s
  {
    if forall m :: m !in s { assert false; }
    x :| x in s;
  }

  /** The least key of a finite non-empty set of keys. */
  lemma {:induction false} LeastKey(s: set<int>) returns (m: int)
    requires s != {}
    ensures m in s && forall j :: j in s ==> m <= j
    decreases |s|
  {
    var x := AnyKey(s);
    if s == {x} {
      m := x;
    } else {
      var m' := LeastKey(s - {x});
      m := if x < m' then x else m';
      forall j | j in s ensures m <= j {
        if j != x { assert j in s - {x}; }
      }
    }
  }

}
