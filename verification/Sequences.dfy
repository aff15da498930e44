/** Sequences without repetition, and sequences that differ only in order. */
module Sequences {
  ghost predicate Distinct<T(!new)>(s: seq<T>) {
    forall i, j :: 0 <= i < j < |s| ==> s[i] != s[j]
  }

  /** `len(s) == len(set(s))`. */
  method AllUnique<T(==, !new)>(s: seq<T>) returns (unique: bool)
    ensures unique <==> Distinct(s)
  {
    var seen: set<T> := {};
    for i := 0 to |s|
      invariant forall x :: x in seen <==> x in s[..i]
      invariant Distinct(s[..i])
    {
      if s[i] in seen {
        var k :| 0 <= k < i && s[k] == s[i];
        return false;
      }
      seen := seen + {s[i]};
      assert s[..i + 1] == s[..i] + [s[i]];
    }
    assert s[..|s|] == s;
    return true;
  }

  lemma BagWithout<T>(s: seq<T>, k: nat)
    requires k < |s|
    ensures multiset(s[..k] + s[k + 1..]) == multiset(s) - multiset{s[k]}
  {
    assert s == s[..k] + ([s[k]] + s[k + 1..]);
    assert multiset(s) == multiset(s[..k]) + (multiset{s[k]} + multiset(s[k + 1..]));
  }

  /** A reordering contains the last element too; without it the rest is reordered. */
  lemma LastSomewhere<T>(a: seq<T>, b: seq<T>) returns (k: nat)
    requires a != [] && multiset(a) == multiset(b)
    ensures k < |b| && b[k] == a[|a| - 1]
    ensures multiset(b[..k] + b[k + 1..]) == multiset(a[..|a| - 1])
  {
    var last := |a| - 1;
    assert a[last] in multiset(a);
    k :| 0 <= k < |b| && b[k] == a[last];
    BagWithout(a, last);
    BagWithout(b, k);
    assert a[..last] + a[last + 1..] == a[..last];
  }

  lemma SameBagSameSize<T>(a: seq<T>, b: seq<T>)
    requires multiset(a) == multiset(b)
    ensures |a| == |b|
  {
    assert |a| == |multiset(a)| == |multiset(b)| == |b|;
  }
}
