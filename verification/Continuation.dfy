/** Joining a continued model response to the text so far. */
module Continuation {
  /** What `str.lstrip` strips. */
  predicate IsSpace(c: char) {
    var n := c as int;
    || 9 <= n <= 13 || 28 <= n <= 32 || n == 0x85 || n == 0xA0 || n == 0x1680
    || 0x2000 <= n <= 0x200A || n == 0x2028 || n == 0x2029 || n == 0x202F || n == 0x205F || n == 0x3000
  }

  lemma SpacesAre(c: char)
    ensures IsSpace(c) <==> c as int in {
      0x09, 0x0A, 0x0B, 0x0C, 0x0D, 0x1C, 0x1D, 0x1E, 0x1F, 0x20, 0x85, 0xA0, 0x1680, 0x2000, 0x2001, 0x2002, 0x2003,
      0x2004, 0x2005, 0x2006, 0x2007, 0x2008, 0x2009, 0x200A, 0x2028, 0x2029, 0x202F, 0x205F, 0x3000}
  {
  }

  function LStrip(s: string): (r: string)
    ensures r != "" ==> !IsSpace(r[0])
    ensures exists k :: 0 <= k <= |s| && r == s[k..] && forall i :: 0 <= i < k ==> IsSpace(s[i])
  {
    if s == "" then
      assert s[0..] == s;
      s
    else if !IsSpace(s[0]) then
      assert s[0..] == s;
      s
    else
      var r := LStrip(s[1..]);
      assert exists k :: 0 <= k <= |s| && r == s[k..] && forall i :: 0 <= i < k ==> IsSpace(s[i]) by {
        var k :| 0 <= k <= |s[1..]| && r == s[1..][k..] && forall i :: 0 <= i < k ==> IsSpace(s[1..][i]);
        assert s[1..][k..] == s[k + 1..];
        forall i | 0 <= i < k + 1
          ensures IsSpace(s[i])
        {
          if i > 0 { assert s[1..][i - 1] == s[i]; }
        }
      }
      r
  }

  const MAX_OVERLAP := 2000

  /** The last `k` characters of `existing` are the first `k` of `more`. */
  ghost predicate Overlaps(existing: string, more: string, k: nat) {
    k <= |existing| && k <= |more| && existing[|existing| - k..] == more[..k]
  }

  ghost predicate LongestOverlap(existing: string, more: string, k: nat) {
    && k <= 2000 && Overlaps(existing, more, k)
    && forall j :: k < j <= 2000 ==> !Overlaps(existing, more, j)
  }

  /** The old text is a prefix of `r` and the continuation a suffix, and the two share their longest overlap;
      without any they are separated by one newline. */
  ghost predicate Merged(existing: string, more: string, r: string, overlap: nat) {
    && LongestOverlap(existing, more, overlap)
    && r == existing + (if overlap == 0 then "\n" + more else more[overlap..])
    && existing <= r
    && |r| >= |more| && r[|r| - |more|..] == more
  }

  /** The stripped continuation is merged with the old text; a blank one changes nothing. */
  method Merge(existing: string, continuation: string) returns (r: string, ghost overlap: nat)
    ensures existing <= r
    ensures LStrip(continuation) == "" ==> r == existing
    ensures LStrip(continuation) != "" ==> Merged(existing, LStrip(continuation), r, overlap)
  {
    var more := LStrip(continuation);
    hide LStrip, Merged, Overlaps, LongestOverlap;
    overlap := 0;
    if more == "" {
      return existing, 0;
    }
    var k := if |existing| < |more| then |existing| else |more|;
    if k > MAX_OVERLAP { k := MAX_OVERLAP; }
    NoLongerOverlap(existing, more, k);
    while k > 0
      invariant 0 <= k <= MAX_OVERLAP && k <= |existing| && k <= |more|
      invariant forall j :: k < j <= MAX_OVERLAP ==> !Overlaps(existing, more, j)
    {
      OverlapIsEqual(existing, more, k);
      if existing[|existing| - k..] == more[..k] {
        Joined(existing, more, k);
        return existing + more[k..], k;
      }
      k := k - 1;
    }
    Separated(existing, more);
    return existing + ("\n" + more), 0;
  }

  lemma NoLongerOverlap(existing: string, more: string, k: nat)
    requires k == |existing| || k == |more| || k == MAX_OVERLAP
    ensures forall j :: k < j <= MAX_OVERLAP ==> !Overlaps(existing, more, j)
  {
  }

  lemma OverlapIsEqual(existing: string, more: string, k: nat)
    requires k <= |existing| && k <= |more|
    ensures Overlaps(existing, more, k) <==> existing[|existing| - k..] == more[..k]
  {
  }

  lemma Joined(existing: string, more: string, k: nat)
    requires 0 < k <= MAX_OVERLAP && Overlaps(existing, more, k)
    requires forall j :: k < j <= MAX_OVERLAP ==> !Overlaps(existing, more, j)
    ensures Merged(existing, more, existing + more[k..], k) && existing <= existing + more[k..]
  {
    var r, start := existing + more[k..], |existing| - k;
    assert r[start..] == existing[start..] + more[k..];
    assert more[..k] + more[k..] == more;
  }

  lemma Separated(existing: string, more: string)
    requires forall j :: 0 < j <= MAX_OVERLAP ==> !Overlaps(existing, more, j)
    ensures Merged(existing, more, existing + ("\n" + more), 0) && existing <= existing + ("\n" + more)
  {
  }
}
