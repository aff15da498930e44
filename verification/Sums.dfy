/** Sums of natural numbers over finite sets. */
module Sums {
  ghost function SumOf<K(!new)>(keys: set<K>, f: K -> nat): nat {
    if keys == {} then 0 else
      var k :| k in keys;
      f(k) + SumOf(keys - {k}, f)
  }

  /** The order of summation does not matter. */
  lemma {:induction false} SumTakesOut<K(!new)>(keys: set<K>, f: K -> nat, k: K)
    requires k in keys
    ensures SumOf(keys, f) == f(k) + SumOf(keys - {k}, f)
    decreases |keys|
  {
    var first :| first in keys && SumOf(keys, f) == f(first) + SumOf(keys - {first}, f);
    if first != k {
      SumTakesOut(keys - {first}, f, k);
      SumTakesOut(keys - {k}, f, first);
      assert keys - {first} - {k} == keys - {k} - {first};
    }
  }

  lemma {:induction false} SumAgrees<K(!new)>(keys: set<K>, f: K -> nat, g: K -> nat)
    requires forall k :: k in keys ==> f(k) == g(k)
    ensures SumOf(keys, f) == SumOf(keys, g)
    decreases |keys|
  {
    if keys != {} {
      var k :| k in keys;
      SumTakesOut(keys, f, k);
      SumTakesOut(keys, g, k);
      SumAgrees(keys - {k}, f, g);
    }
  }

  lemma {:induction false} SumIgnoresZeros<K(!new)>(keys: set<K>, more: set<K>, f: K -> nat)
    requires keys <= more && forall k :: k in more - keys ==> f(k) == 0
    ensures SumOf(keys, f) == SumOf(more, f)
    decreases |more|
  {
    if more - keys == {} {
      assert keys == more;
    } else {
      var k :| k in more - keys;
      SumTakesOut(more, f, k);
      SumIgnoresZeros(keys, more - {k}, f);
    }
  }
}
