/** Sharing one character budget among artifact excerpts. */
module ExcerptBudget {
  datatype Artifact = Artifact(id: string, hasSourceRefs: bool)

  /** `untrusted` marks the entries that carry the safety notice. */
  datatype Entry = Entry(id: string, untrusted: bool, excerpt: string, truncated: bool)

  function Min(a: int, b: int): int {
    if a < b then a else b
  }

  function Total(taken: seq<nat>): nat {
    if taken == [] then 0 else Total(taken[..|taken| - 1]) + taken[|taken| - 1]
  }

  /** How long a text is, none being as good as an empty one. */
  function Length(texts: map<string, string>, a: Artifact): nat {
    if a.id in texts then |texts[a.id]| else 0
  }

  function Lengths(texts: map<string, string>, artifacts: seq<Artifact>): seq<nat> {
    seq(|artifacts|, i requires 0 <= i < |artifacts| => Length(texts, artifacts[i]))
  }

  function CeilDiv(a: nat, b: nat): nat
    requires b > 0
  {
    (a + b - 1) / b
  }

  /** The turn of a text when `waiting` texts, itself included, share what is left. */
  function Share(left: int, waiting: nat, length: nat): nat
    requires waiting > 0
  {
    if left <= 0 then 0 else Min(length, CeilDiv(left, waiting))
  }

  /** The text at `i` got its share of what the earlier ones had left. */
  ghost predicate Served(lengths: seq<nat>, budget: int, taken: seq<nat>, i: nat)
    requires i < |taken| <= |lengths|
  {
    taken[i] == Share(budget - Total(taken[..i]), |lengths| - i, lengths[i])
  }

  ghost predicate Allotted(lengths: seq<nat>, budget: int, taken: seq<nat>) {
    && |taken| <= |lengths|
    && forall i :: 0 <= i < |taken| ==> Served(lengths, budget, taken, i)
  }

  // -------------------------------------------------------------- what the rule gives

  lemma TotalOneMore(taken: seq<nat>, i: nat)
    requires i < |taken|
    ensures Total(taken[..i + 1]) == Total(taken[..i]) + taken[i]
  {
    assert taken[..i + 1][..i] == taken[..i];
  }

  lemma ShareBounds(left: int, waiting: nat, length: nat)
    requires waiting > 0
    ensures 0 <= Share(left, waiting, length) <= length
    ensures left > 0 ==> Share(left, waiting, length) <= CeilDiv(left, waiting) <= left
    ensures left <= 0 ==> Share(left, waiting, length) == 0
  {
    if left > 0 {
      CeilDivBounds(left, waiting);
    }
  }

  lemma CeilDivBounds(a: nat, b: nat)
    requires b > 0
    ensures a <= b * CeilDiv(a, b) <= a + b - 1
    ensures CeilDiv(a, b) <= a
  {
    if a < CeilDiv(a, b) {
      MulMonotone(b, a + 1, CeilDiv(a, b));
      MulMonotone(a, 1, b);
    }
  }

  /** Rounding up gives the least number of characters that serves everyone. */
  lemma CeilDivLeast(a: nat, b: nat, top: nat)
    requires b > 0 && a <= b * top
    ensures CeilDiv(a, b) <= top
  {
    CeilDivBounds(a, b);
    if CeilDiv(a, b) > top {
      MulMonotone(b, top + 1, CeilDiv(a, b));
    }
  }

  lemma MulMonotone(k: nat, x: int, y: int)
    requires x <= y
    ensures k * x <= k * y
  {
  }

  /** The excerpts together never exceed the budget. */
  lemma {:induction false} WithinBudget(lengths: seq<nat>, budget: int, taken: seq<nat>, i: nat)
    requires Allotted(lengths, budget, taken) && i <= |taken|
    ensures Total(taken[..i]) <= if budget > 0 then budget else 0
  {
    if i > 0 {
      WithinBudget(lengths, budget, taken, i - 1);
      assert Served(lengths, budget, taken, i - 1);
      TotalOneMore(taken, i - 1);
      ShareBounds(budget - Total(taken[..i - 1]), |lengths| - i + 1, lengths[i - 1]);
    }
  }

  /** One turn leaves the others at least `q` characters each. */
  lemma ShareIsFair(left: nat, waiting: nat, length: nat, q: nat)
    requires waiting > 0 && left >= waiting * q
    ensures Share(left, waiting, length) >= Min(length, q)
    ensures left - Share(left, waiting, length) >= (waiting - 1) * q
  {
    ShareBounds(left, waiting, length);
    if left > 0 {
      var a := CeilDiv(left, waiting);
      CeilDivBounds(left, waiting);
      if a < q {
        MulMonotone(waiting, a, q - 1);
      } else if a > q {
        MulMonotone(waiting - 1, q, a - 1);
        assert left - a >= (waiting - 1) * (a - 1);
      }
    } else {
      MulMonotone(waiting - 1, 0, q);
      assert q == 0 by {
        if q > 0 {
          MulMonotone(waiting, 1, q);
        }
      }
    }
  }

  lemma {:induction false} LeftForOthers(lengths: seq<nat>, budget: nat, taken: seq<nat>, i: nat, q: nat)
    requires Allotted(lengths, budget, taken) && i <= |taken|
    requires budget >= |lengths| * q
    ensures budget - Total(taken[..i]) >= (|lengths| - i) * q >= 0
  {
    hide Share;
    if i > 0 {
      LeftForOthers(lengths, budget, taken, i - 1, q);
      assert Served(lengths, budget, taken, i - 1);
      TotalOneMore(taken, i - 1);
      ShareIsFair(budget - Total(taken[..i - 1]), |lengths| - i + 1, lengths[i - 1], q);
    }
    MulMonotone(q, 0, |lengths| - i);
  }

  lemma EqualPart(budget: nat, n: nat) returns (q: nat)
    requires n > 0
    ensures q == budget / n && budget >= n * q
  {
    q := budget / n;
  }

  /** Nobody gets less than an equal part of the budget, unless the text itself is shorter. */
  lemma EveryTextGetsItsPart(lengths: seq<nat>, budget: int, taken: seq<nat>, i: nat)
    requires Allotted(lengths, budget, taken) && i < |taken| && budget >= 0
    ensures Min(lengths[i], budget / |lengths|) <= taken[i] <= lengths[i]
  {
    hide Share;
    var q := EqualPart(budget, |lengths|);
    LeftForOthers(lengths, budget, taken, i, q);
    assert Served(lengths, budget, taken, i);
    ShareIsFair(budget - Total(taken[..i]), |lengths| - i, lengths[i], q);
    ShareBounds(budget - Total(taken[..i]), |lengths| - i, lengths[i]);
  }

  /** One turn with a long enough text leaves no more than `top` characters for each of the others. */
  lemma ShareKeepsUp(left: nat, waiting: nat, length: nat, top: nat)
    requires waiting > 0 && left <= waiting * top && length >= top
    ensures left - Share(left, waiting, length) <= (waiting - 1) * top
  {
    if left > 0 {
      var a := CeilDiv(left, waiting);
      CeilDivBounds(left, waiting);
      CeilDivLeast(left, waiting, top);
      MulMonotone(waiting - 1, a, top);
      assert left - a <= (waiting - 1) * a;
    } else {
      MulMonotone(waiting - 1, 0, top);
    }
  }

  lemma {:induction false} LittleLeft(lengths: seq<nat>, budget: nat, taken: seq<nat>, i: nat, top: nat)
    requires Allotted(lengths, budget, taken) && i <= |taken|
    requires budget <= |lengths| * top && forall k :: 0 <= k < |lengths| ==> lengths[k] >= top
    ensures 0 <= budget - Total(taken[..i]) <= (|lengths| - i) * top
  {
    hide Share;
    WithinBudget(lengths, budget, taken, i);
    if i > 0 {
      LittleLeft(lengths, budget, taken, i - 1, top);
      assert Served(lengths, budget, taken, i - 1);
      TotalOneMore(taken, i - 1);
      ShareKeepsUp(budget - Total(taken[..i - 1]), |lengths| - i + 1, lengths[i - 1], top);
    }
  }

  /** With long enough texts the whole budget is used. */
  lemma LongTextsUseEverything(lengths: seq<nat>, budget: nat, taken: seq<nat>)
    requires Allotted(lengths, budget, taken) && |taken| == |lengths| > 0
    requires forall k :: 0 <= k < |lengths| ==> lengths[k] >= CeilDiv(budget, |lengths|)
    ensures Total(taken) == budget
  {
    hide Share, Allotted;
    CeilDivBounds(budget, |lengths|);
    var top := CeilDiv(budget, |lengths|);
    hide CeilDiv;
    LittleLeft(lengths, budget, taken, |taken|, top);
    assert taken[..|taken|] == taken;
  }

  /** Nothing is kept back from the last text: if it is cut, the budget is spent. */
  lemma CutLastMeansSpent(lengths: seq<nat>, budget: nat, taken: seq<nat>)
    requires Allotted(lengths, budget, taken) && |taken| == |lengths| > 0
    requires taken[|taken| - 1] < lengths[|taken| - 1]
    ensures Total(taken) == budget
  {
    var last := |taken| - 1;
    WithinBudget(lengths, budget, taken, last);
    assert Served(lengths, budget, taken, last);
    TotalOneMore(taken, last);
    assert taken[..last + 1] == taken;
    assert CeilDiv(budget - Total(taken[..last]), 1) == budget - Total(taken[..last]);
  }

  // -------------------------------------------------------------- the allocator

  /** The first `n` characters of a text, if there are any. */
  ghost function Excerpted(texts: map<string, string>, cut: set<string>, a: Artifact, n: nat): seq<Entry>
    requires n <= Length(texts, a)
  {
    if n == 0 then []
    else [Entry(a.id, a.hasSourceRefs, texts[a.id][..n], a.id in cut || n < |texts[a.id]|)]
  }

  ghost predicate Available(artifacts: seq<Artifact>, texts: map<string, string>, taken: seq<nat>) {
    |taken| <= |artifacts| && forall i :: 0 <= i < |taken| ==> taken[i] <= Length(texts, artifacts[i])
  }

  /** The entries that list what was taken: a prefix of each text, in the order of the artifacts. */
  ghost function Entries(artifacts: seq<Artifact>, texts: map<string, string>, cut: set<string>,
                         taken: seq<nat>): seq<Entry>
    requires Available(artifacts, texts, taken)
  {
    if taken == [] then []
    else
      var last := |taken| - 1;
      Entries(artifacts, texts, cut, taken[..last]) + Excerpted(texts, cut, artifacts[last], taken[last])
  }

  /** An entry is the non-empty beginning of the text of one of the artifacts, marked as external data if the
      artifact has sources, and as truncated exactly if the text goes on or was cut before. */
  ghost predicate Honest(artifacts: seq<Artifact>, texts: map<string, string>, cut: set<string>, e: Entry) {
    && Artifact(e.id, e.untrusted) in artifacts && e.id in texts
    && e.excerpt != "" && e.excerpt <= texts[e.id]
    && (e.truncated <==> e.excerpt != texts[e.id] || e.id in cut)
  }

  lemma {:induction false} EntriesAreHonest(artifacts: seq<Artifact>, texts: map<string, string>, cut: set<string>,
                                            taken: seq<nat>)
    requires Available(artifacts, texts, taken)
    ensures forall e :: e in Entries(artifacts, texts, cut, taken) ==> Honest(artifacts, texts, cut, e)
  {
    if taken != [] {
      var earlier, n := taken[..|taken| - 1], taken[|taken| - 1];
      EntriesAreHonest(artifacts, texts, cut, earlier);
      var a := artifacts[|earlier|];
      assert a == Artifact(a.id, a.hasSourceRefs) && n <= Length(texts, a);
    }
  }

  /** The characters of all excerpts. */
  ghost function Chars(entries: seq<Entry>): nat {
    if entries == [] then 0 else Chars(entries[..|entries| - 1]) + |entries[|entries| - 1].excerpt|
  }

  lemma CharsMore(entries: seq<Entry>, texts: map<string, string>, cut: set<string>, a: Artifact, n: nat)
    requires n <= Length(texts, a)
    ensures Chars(entries + Excerpted(texts, cut, a, n)) == Chars(entries) + n
  {
    var more := Excerpted(texts, cut, a, n);
    if n == 0 {
      assert entries + more == entries;
    } else {
      assert (entries + more)[..|entries|] == entries;
    }
  }

  /** The entries carry exactly what was taken. */
  lemma {:induction false} EntriesCarryTotal(artifacts: seq<Artifact>, texts: map<string, string>, cut: set<string>,
                                             taken: seq<nat>)
    requires Available(artifacts, texts, taken)
    ensures Chars(Entries(artifacts, texts, cut, taken)) == Total(taken)
  {
    if taken == [] {
    } else {
      hide Chars, Excerpted, Length, Total, Entries;
      var earlier, next := taken[..|taken| - 1], taken[|taken| - 1];
      assert taken == earlier + [next];
      EntriesAppend(artifacts, texts, cut, earlier, next);
      EntriesCarryTotal(artifacts, texts, cut, earlier);
      CharsMore(Entries(artifacts, texts, cut, earlier), texts, cut, artifacts[|earlier|], next);
      TotalAppend(earlier, next);
    }
  }

  lemma {:induction false} SpentGetsNothing(lengths: seq<nat>, budget: int, taken: seq<nat>, more: nat)
    requires Allotted(lengths, budget, taken) && budget - Total(taken) <= 0 && |taken| + more <= |lengths|
    ensures Allotted(lengths, budget, taken + seq(more, _ => 0))
    ensures Total(taken + seq(more, _ => 0)) == Total(taken)
  {
    var all := taken + seq(more, _ => 0);
    if more == 0 {
      assert all == taken;
    } else {
      SpentGetsNothing(lengths, budget, taken, more - 1);
      var init := taken + seq(more - 1, _ => 0);
      assert all == init + [0] && all[..|init|] == init;
      AllottedGrows(lengths, budget, init, 0);
    }
  }

  lemma StillServed(lengths: seq<nat>, budget: int, taken: seq<nat>, next: nat, i: nat)
    requires i < |taken| < |lengths| && Served(lengths, budget, taken, i)
    ensures Served(lengths, budget, taken + [next], i)
  {
    hide Total, Share;
    assert (taken + [next])[..i] == taken[..i];
  }

  lemma TotalAppend(taken: seq<nat>, next: nat)
    ensures Total(taken + [next]) == Total(taken) + next
  {
  }

  lemma NewServed(lengths: seq<nat>, budget: int, taken: seq<nat>, next: nat)
    requires |taken| < |lengths| && next == Share(budget - Total(taken), |lengths| - |taken|, lengths[|taken|])
    ensures Served(lengths, budget, taken + [next], |taken|)
  {
    hide Total, Share;
    assert (taken + [next])[..|taken|] == taken;
  }

  lemma AllottedGrows(lengths: seq<nat>, budget: int, taken: seq<nat>, next: nat)
    requires Allotted(lengths, budget, taken) && |taken| < |lengths|
    requires next == Share(budget - Total(taken), |lengths| - |taken|, lengths[|taken|])
    ensures Allotted(lengths, budget, taken + [next])
    ensures Total(taken + [next]) == Total(taken) + next
  {
    hide Share, Served, Total;
    TotalAppend(taken, next);
    NewServed(lengths, budget, taken, next);
    forall i | 0 <= i < |taken|
      ensures Served(lengths, budget, taken + [next], i)
    {
      StillServed(lengths, budget, taken, next, i);
    }
  }

  lemma EntriesAppend(artifacts: seq<Artifact>, texts: map<string, string>, cut: set<string>, taken: seq<nat>,
                      next: nat)
    requires Available(artifacts, texts, taken + [next])
    ensures Available(artifacts, texts, taken)
    ensures Entries(artifacts, texts, cut, taken + [next])
         == Entries(artifacts, texts, cut, taken) + Excerpted(texts, cut, artifacts[|taken|], next)
  {
  }

  lemma {:induction false} NothingNothing(artifacts: seq<Artifact>, texts: map<string, string>, cut: set<string>,
                                          taken: seq<nat>, more: nat)
    requires |taken| + more <= |artifacts| && Available(artifacts, texts, taken)
    ensures Available(artifacts, texts, taken + seq(more, _ => 0))
    ensures Entries(artifacts, texts, cut, taken + seq(more, _ => 0)) == Entries(artifacts, texts, cut, taken)
  {
    var all := taken + seq(more, _ => 0);
    if more == 0 {
      assert all == taken;
    } else {
      hide Entries;
      NothingNothing(artifacts, texts, cut, taken, more - 1);
      assert all == (taken + seq(more - 1, _ => 0)) + [0];
      EntriesAppend(artifacts, texts, cut, taken + seq(more - 1, _ => 0), 0);
    }
  }

  /** One step of the loop, with or without an excerpt. */
  lemma OneMoreArtifact(artifacts: seq<Artifact>, texts: map<string, string>, cut: set<string>, budget: int,
                        taken: seq<nat>, next: nat)
    requires Available(artifacts, texts, taken) && |taken| < |artifacts|
    requires Allotted(Lengths(texts, artifacts), budget, taken)
    requires next == Share(budget - Total(taken), |artifacts| - |taken|, Length(texts, artifacts[|taken|]))
    ensures next <= Length(texts, artifacts[|taken|]) && Available(artifacts, texts, taken + [next])
    ensures Allotted(Lengths(texts, artifacts), budget, taken + [next])
    ensures Total(taken + [next]) == Total(taken) + next
    ensures Entries(artifacts, texts, cut, taken + [next])
         == Entries(artifacts, texts, cut, taken) + Excerpted(texts, cut, artifacts[|taken|], next)
  {
    hide Share;
    ShareBounds(budget - Total(taken), |artifacts| - |taken|, Length(texts, artifacts[|taken|]));
    AllottedGrows(Lengths(texts, artifacts), budget, taken, next);
    hide Entries;
    EntriesAppend(artifacts, texts, cut, taken, next);
  }

  lemma OutOfBudget(artifacts: seq<Artifact>, texts: map<string, string>, cut: set<string>, budget: int,
                    taken: seq<nat>)
    returns (all: seq<nat>)
    requires Available(artifacts, texts, taken) && Allotted(Lengths(texts, artifacts), budget, taken)
    requires |taken| == |artifacts| || budget - Total(taken) <= 0
    ensures |all| == |artifacts| && Available(artifacts, texts, all)
    ensures Allotted(Lengths(texts, artifacts), budget, all)
    ensures Entries(artifacts, texts, cut, all) == Entries(artifacts, texts, cut, taken)
  {
    hide Allotted;
    var more := |artifacts| - |taken|;
    all := taken + seq(more, _ => 0);
    NothingNothing(artifacts, texts, cut, taken, more);
    if more == 0 {
      assert all == taken;
    } else {
      SpentGetsNothing(Lengths(texts, artifacts), budget, taken, more);
    }
  }

  /** Serves the artifacts in order, each with its share of what is left. */
  method ArtifactExcerpts(artifacts: seq<Artifact>, texts: map<string, string>, cut: set<string>, budget: int)
    returns (excerpts: seq<Entry>, ghost taken: seq<nat>)
    ensures |taken| == |artifacts| && Allotted(Lengths(texts, artifacts), budget, taken)
    ensures Available(artifacts, texts, taken) && excerpts == Entries(artifacts, texts, cut, taken)
    ensures forall e :: e in excerpts ==> Honest(artifacts, texts, cut, e)
    ensures Chars(excerpts) <= if budget > 0 then budget else 0
    ensures budget >= 0 ==> forall i :: 0 <= i < |artifacts| ==>
              taken[i] >= Min(Length(texts, artifacts[i]), budget / |artifacts|)
    ensures budget >= 0 && artifacts != []
            && (forall i :: 0 <= i < |artifacts| ==> Length(texts, artifacts[i]) >= CeilDiv(budget, |artifacts|)) ==>
              Chars(excerpts) == budget
  {
    var remaining := budget;
    excerpts, taken := [], [];
    var index := 0;
    while index < |artifacts|
      invariant index == |taken| <= |artifacts|
      invariant Allotted(Lengths(texts, artifacts), budget, taken) && remaining == budget - Total(taken)
      invariant Available(artifacts, texts, taken) && excerpts == Entries(artifacts, texts, cut, taken)
    {
      hide Allotted, Available, Total, Lengths, CeilDiv;
      if remaining <= 0 {
        break;
      }
      var a := artifacts[index];
      OneMoreArtifact(artifacts, texts, cut, budget, taken, Share(remaining, |artifacts| - index, Length(texts, a)));
      taken := taken + [Share(remaining, |artifacts| - index, Length(texts, a))];
      index := index + 1;
      if a.id !in texts {
        continue;
      }
      var content := texts[a.id];
      var allowance := CeilDiv(remaining, |artifacts| - index + 1);
      var excerpt := content[..Min(|content|, allowance)];
      if excerpt == [] {
        continue;
      }
      excerpts := excerpts + [Entry(a.id, a.hasSourceRefs, excerpt, a.id in cut || |excerpt| < |content|)];
      remaining := remaining - |excerpt|;
    }
    hide Allotted, Available, Entries, CeilDiv, Honest;
    taken := OutOfBudget(artifacts, texts, cut, budget, taken);
    Guarantees(artifacts, texts, budget, taken);
    EntriesCarryTotal(artifacts, texts, cut, taken);
    EntriesAreHonest(artifacts, texts, cut, taken);
  }

  lemma Guarantees(artifacts: seq<Artifact>, texts: map<string, string>, budget: int, taken: seq<nat>)
    requires |taken| == |artifacts| && Allotted(Lengths(texts, artifacts), budget, taken)
    ensures Total(taken) <= if budget > 0 then budget else 0
    ensures budget >= 0 ==> forall i :: 0 <= i < |artifacts| ==>
              taken[i] >= Min(Length(texts, artifacts[i]), budget / |artifacts|)
    ensures budget >= 0 && artifacts != []
            && (forall i :: 0 <= i < |artifacts| ==> Length(texts, artifacts[i]) >= CeilDiv(budget, |artifacts|)) ==>
              Total(taken) == budget
  {
    hide Allotted, Total, CeilDiv;
    var lengths := Lengths(texts, artifacts);
    WithinBudget(lengths, budget, taken, |taken|);
    assert taken[..|taken|] == taken;
    if budget >= 0 {
      forall i | 0 <= i < |artifacts|
        ensures taken[i] >= Min(Length(texts, artifacts[i]), budget / |artifacts|)
      {
        EveryTextGetsItsPart(lengths, budget, taken, i);
      }
      if && artifacts != []
         && forall i :: 0 <= i < |artifacts| ==> Length(texts, artifacts[i]) >= CeilDiv(budget, |artifacts|)
      {
        LongTextsUseEverything(lengths, budget, taken);
      }
    }
  }
}
