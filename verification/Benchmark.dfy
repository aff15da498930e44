/** Benchmark trials: validation of the trial grid, pairing with the baseline and the quality gain. */
module Benchmark {
  import opened Wrappers
  import opened Sequences

  type Positive = n: int | 1 <= n witness 1

  datatype Trial = Trial(caseId: string, variant: string, replicate: Positive, runId: string)

  datatype Suite = Suite(baseline: string, variants: seq<string>, cases: seq<string>)

  datatype Key = Key(caseId: string, variant: string, replicate: Positive)

  /** What two paired trials share. */
  datatype PairKey = PairKey(caseId: string, replicate: Positive)

  datatype Gap = ReplicateGrid(caseId: string) | MissingCell(caseId: string, variant: string)

  datatype Error =
    | UnknownCase(caseId: string)
    | UnknownVariant(variant: string)
    | DuplicateTrial
    | ReusedRun(runId: string)
    | Incomplete(missing: seq<Gap>)

  function KeyOf(t: Trial): Key {
    Key(t.caseId, t.variant, t.replicate)
  }

  function PairKeyOf(t: Trial): PairKey {
    PairKey(t.caseId, t.replicate)
  }

  /** What the suite's own validation promises. */
  ghost predicate ValidSuite(suite: Suite) {
    && Distinct(suite.variants) && suite.baseline in suite.variants
    && |suite.cases| >= 1 && Distinct(suite.cases)
  }

  // -------------------------------------------------------------- the exact grid

  ghost predicate Known(suite: Suite, trials: seq<Trial>) {
    forall i :: 0 <= i < |trials| ==> trials[i].caseId in suite.cases && trials[i].variant in suite.variants
  }

  /** The same replicate of a variant on a case. */
  ghost predicate SameCell(t: Trial, u: Trial) {
    t.caseId == u.caseId && t.variant == u.variant && t.replicate == u.replicate
  }

  /** Known names only, no cell of the grid twice, no run twice. */
  ghost predicate Clean(suite: Suite, trials: seq<Trial>) {
    && Known(suite, trials)
    && (forall i, j :: 0 <= i < j < |trials| ==> !SameCell(trials[i], trials[j]))
    && (forall i, j :: 0 <= i < j < |trials| ==> trials[i].runId != trials[j].runId)
  }

  /** `set(range(1, n + 1))`. */
  function UpTo(n: nat): (s: set<Positive>)
    ensures forall k :: k in s <==> 1 <= k <= n
  {
    if n == 0 then {} else UpTo(n - 1) + {n}
  }

  ghost function Replicates(trials: seq<Trial>, c: string, v: string): set<Positive> {
    set t | t in trials && t.caseId == c && t.variant == v :: t.replicate
  }

  /** Every variant of a case ran the replicates 1 to n, for one n of at least 1. */
  ghost predicate FullCase(suite: Suite, trials: seq<Trial>, c: string, n: Positive) {
    forall v :: v in suite.variants ==> Replicates(trials, c, v) == UpTo(n)
  }

  ghost predicate ExactGrid(suite: Suite, trials: seq<Trial>) {
    && Clean(suite, trials)
    && forall c :: c in suite.cases ==> exists n: Positive :: FullCase(suite, trials, c, n)
  }

  ghost function CaseReplicates(suite: Suite, trials: seq<Trial>, c: string): set<Positive> {
    set t | t in trials && t.caseId == c && t.variant in suite.variants :: t.replicate
  }

  ghost predicate IsGap(suite: Suite, trials: seq<Trial>, g: Gap) {
    match g
    case ReplicateGrid(c) =>
      c in suite.cases && CaseReplicates(suite, trials, c) != {}
      && forall n: Positive :: CaseReplicates(suite, trials, c) != UpTo(n)
    case MissingCell(c, v) =>
      c in suite.cases && v in suite.variants
      && (CaseReplicates(suite, trials, c) == {}
          || Replicates(trials, c, v) != CaseReplicates(suite, trials, c))
  }

  lemma NoGapMeansGrid(suite: Suite, trials: seq<Trial>)
    requires ValidSuite(suite) && Clean(suite, trials)
    ensures ExactGrid(suite, trials) <==> forall g :: !IsGap(suite, trials, g)
  {
    if forall g :: !IsGap(suite, trials, g) {
      forall c | c in suite.cases
        ensures exists n: Positive :: FullCase(suite, trials, c, n)
      {
        assert !IsGap(suite, trials, ReplicateGrid(c));
        assert !IsGap(suite, trials, MissingCell(c, suite.baseline));
        var n: Positive :| CaseReplicates(suite, trials, c) == UpTo(n);
        forall v | v in suite.variants
          ensures Replicates(trials, c, v) == UpTo(n)
        {
          assert !IsGap(suite, trials, MissingCell(c, v));
        }
        assert FullCase(suite, trials, c, n);
      }
    }
    if ExactGrid(suite, trials) {
      forall g
        ensures !IsGap(suite, trials, g)
      {
        if g.caseId in suite.cases {
          var n: Positive :| FullCase(suite, trials, g.caseId, n);
          FullCaseUnion(suite, trials, g.caseId, n);
        }
      }
    }
  }

  lemma FullCaseUnion(suite: Suite, trials: seq<Trial>, c: string, n: Positive)
    requires suite.baseline in suite.variants && FullCase(suite, trials, c, n)
    ensures CaseReplicates(suite, trials, c) == UpTo(n) && 1 in UpTo(n)
  {
  }

  // -------------------------------------------------------------- validation

  /** The first complaint about a trial that follows those in `before`. */
  ghost function Complaint(suite: Suite, before: seq<Trial>, t: Trial): Option<Error> {
    if t.caseId !in suite.cases then Some(UnknownCase(t.caseId))
    else if t.variant !in suite.variants then Some(UnknownVariant(t.variant))
    else if exists u :: u in before && SameCell(u, t) then Some(DuplicateTrial)
    else if exists u :: u in before && u.runId == t.runId then Some(ReusedRun(t.runId))
    else None
  }

  ghost predicate FirstFault(suite: Suite, trials: seq<Trial>, k: nat, e: Error) {
    k < |trials| && Clean(suite, trials[..k]) && Complaint(suite, trials[..k], trials[k]) == Some(e)
  }

  lemma FaultBreaks(suite: Suite, trials: seq<Trial>, k: nat, e: Error)
    requires FirstFault(suite, trials, k, e)
    ensures !Clean(suite, trials)
  {
  }

  lemma CleanGrows(suite: Suite, trials: seq<Trial>, k: nat)
    requires k < |trials| && Clean(suite, trials[..k]) && Complaint(suite, trials[..k], trials[k]) == None
    ensures Clean(suite, trials[..k + 1])
  {
  }

  function Cell(replicates: map<(string, string), set<Positive>>, c: string, v: string): set<Positive> {
    if (c, v) in replicates then replicates[(c, v)] else {}
  }

  method Largest(s: set<Positive>) returns (m: Positive)
    requires s != {}
    ensures m in s && forall k :: k in s ==> k <= m
  {
    m :| m in s;
    var rest := s - {m};
    while rest != {}
      invariant rest <= s && m in s
      invariant forall k :: k in s ==> k <= m || k in rest
      decreases |rest|
    {
      var k :| k in rest;
      rest := rest - {k};
      if k > m {
        m := k;
      }
    }
  }

  /** Collects the replicates of every cell, rejecting the first faulty trial. */
  method Collect(suite: Suite, trials: seq<Trial>)
    returns (r: Result<map<(string, string), set<Positive>>, Error>, ghost fault: nat)
    ensures r.Ok? ==> Clean(suite, trials)
                      && forall c, v :: Cell(r.value, c, v) == Replicates(trials, c, v)
    ensures r.Err? ==> FirstFault(suite, trials, fault, r.error) && !r.error.Incomplete?
  {
    fault := 0;
    var keys: set<Key> := {};
    var runIds: set<string> := {};
    var replicates: map<(string, string), set<Positive>> := map[];
    for i := 0 to |trials|
      invariant Clean(suite, trials[..i])
      invariant forall k :: k in keys <==> exists u :: u in trials[..i] && KeyOf(u) == k
      invariant forall k :: k in runIds <==> exists u :: u in trials[..i] && u.runId == k
      invariant forall c, v :: Cell(replicates, c, v) == Replicates(trials[..i], c, v)
    {
      var trial := trials[i];
      if trial.caseId !in suite.cases {
        return Err(UnknownCase(trial.caseId)), i;
      }
      if trial.variant !in suite.variants {
        return Err(UnknownVariant(trial.variant)), i;
      }
      if KeyOf(trial) in keys {
        return Err(DuplicateTrial), i;
      }
      if trial.runId in runIds {
        return Err(ReusedRun(trial.runId)), i;
      }
      CleanGrows(suite, trials, i);
      assert trials[..i + 1] == trials[..i] + [trial];
      keys := keys + {KeyOf(trial)};
      runIds := runIds + {trial.runId};
      ghost var before := replicates;
      replicates := replicates[(trial.caseId, trial.variant) :=
                                 Cell(replicates, trial.caseId, trial.variant) + {trial.replicate}];
      OneMore(trials[..i], trial, before, replicates);
    }
    assert trials[..|trials|] == trials;
    return Ok(replicates), 0;
  }

  lemma OneMore(seen: seq<Trial>, t: Trial, before: map<(string, string), set<Positive>>,
                after: map<(string, string), set<Positive>>)
    requires forall c, v :: Cell(before, c, v) == Replicates(seen, c, v)
    requires after == before[(t.caseId, t.variant) := Cell(before, t.caseId, t.variant) + {t.replicate}]
    ensures forall c, v :: Cell(after, c, v) == Replicates(seen + [t], c, v)
  {
    forall c, v
      ensures Cell(after, c, v) == Replicates(seen + [t], c, v)
    {
      assert Cell(before, c, v) == Replicates(seen, c, v);
    }
  }

  /** `missing` lists the gaps of a case as far as the first `n` variants go. */
  ghost predicate GapsSoFar(suite: Suite, trials: seq<Trial>, c: string, n: nat, missing: seq<Gap>)
    requires n <= |suite.variants|
  {
    forall g :: g in missing <==>
      g.caseId == c && IsGap(suite, trials, g) && (g.MissingCell? ==> g.variant in suite.variants[..n])
  }

  lemma NextVariant(suite: Suite, trials: seq<Trial>, c: string, n: nat, missing: seq<Gap>)
    requires n < |suite.variants| && GapsSoFar(suite, trials, c, n, missing)
    ensures var g := MissingCell(c, suite.variants[n]);
      if IsGap(suite, trials, g) then GapsSoFar(suite, trials, c, n + 1, missing + [g])
      else GapsSoFar(suite, trials, c, n + 1, missing)
  {
    hide IsGap;
    assert suite.variants[..n + 1] == suite.variants[..n] + [suite.variants[n]];
  }

  lemma GapsComplete(suite: Suite, trials: seq<Trial>, c: string, missing: seq<Gap>)
    requires GapsSoFar(suite, trials, c, |suite.variants|, missing)
    ensures forall g :: g in missing <==> g.caseId == c && IsGap(suite, trials, g)
  {
    assert suite.variants[..|suite.variants|] == suite.variants;
  }

  lemma GridGap(suite: Suite, trials: seq<Trial>, c: string, uneven: bool)
    requires uneven <==> IsGap(suite, trials, ReplicateGrid(c))
    ensures GapsSoFar(suite, trials, c, 0, if uneven then [ReplicateGrid(c)] else [])
  {
  }

  lemma RangeOfCase(suite: Suite, trials: seq<Trial>, c: string, largest: Positive)
    requires c in suite.cases && largest in CaseReplicates(suite, trials, c)
    requires forall k :: k in CaseReplicates(suite, trials, c) ==> k <= largest
    ensures IsGap(suite, trials, ReplicateGrid(c)) <==> CaseReplicates(suite, trials, c) != UpTo(largest)
  {
    if CaseReplicates(suite, trials, c) != UpTo(largest) {
      NoOtherRange(CaseReplicates(suite, trials, c), largest);
    }
  }

  lemma NoReplicates(suite: Suite, trials: seq<Trial>, c: string)
    requires CaseReplicates(suite, trials, c) == {}
    ensures !IsGap(suite, trials, ReplicateGrid(c))
  {
  }

  /** What one case lacks. */
  method CaseGaps(suite: Suite, ghost trials: seq<Trial>, c: string, replicates: map<(string, string), set<Positive>>)
    returns (missing: seq<Gap>)
    requires c in suite.cases && forall v :: Cell(replicates, c, v) == Replicates(trials, c, v)
    ensures forall g :: g in missing <==> g.caseId == c && IsGap(suite, trials, g)
  {
    var caseReplicates := set v, k | v in suite.variants && k in Cell(replicates, c, v) :: k;
    UnionOfCells(suite, trials, c, caseReplicates);
    hide Cell, Replicates, CaseReplicates, UpTo, GapsSoFar;
    var uneven := false;
    if caseReplicates == {} {
      NoReplicates(suite, trials, c);
    } else {
      var largest := Largest(caseReplicates);
      uneven := caseReplicates != UpTo(largest);
      RangeOfCase(suite, trials, c, largest);
    }
    missing := if uneven then [ReplicateGrid(c)] else [];
    GridGap(suite, trials, c, uneven);
    for i := 0 to |suite.variants|
      invariant GapsSoFar(suite, trials, c, i, missing)
    {
      var variant := suite.variants[i];
      NextVariant(suite, trials, c, i, missing);
      if Cell(replicates, c, variant) != caseReplicates || caseReplicates == {} {
        missing := missing + [MissingCell(c, variant)];
      }
    }
    GapsComplete(suite, trials, c, missing);
  }

  lemma UnionOfCells(suite: Suite, trials: seq<Trial>, c: string, union: set<Positive>)
    requires forall k :: k in union <==> exists v :: v in suite.variants && k in Replicates(trials, c, v)
    ensures union == CaseReplicates(suite, trials, c)
  {
  }

  /** A set that is not 1 to its largest member is no such range at all. */
  lemma NoOtherRange(s: set<Positive>, largest: Positive)
    requires largest in s && (forall k :: k in s ==> k <= largest) && s != UpTo(largest)
    ensures forall n: Positive :: s != UpTo(n)
  {
  }

  /** Accepts exactly the full grids; otherwise names the first faulty trial or every gap. */
  method ValidateTrials(suite: Suite, trials: seq<Trial>) returns (r: Result<(), Error>, ghost fault: nat)
    requires ValidSuite(suite)
    ensures r.Ok? <==> ExactGrid(suite, trials)
    ensures r.Err? && !r.error.Incomplete? ==> FirstFault(suite, trials, fault, r.error)
    ensures r.Err? && r.error.Incomplete? ==>
      Clean(suite, trials) && forall g :: g in r.error.missing <==> IsGap(suite, trials, g)
  {
    var collected;
    collected, fault := Collect(suite, trials);
    if collected.Err? {
      FaultBreaks(suite, trials, fault, collected.error);
      return Err(collected.error), fault;
    }
    var missing: seq<Gap> := [];
    for i := 0 to |suite.cases|
      invariant forall g :: g in missing <==> g.caseId in suite.cases[..i] && IsGap(suite, trials, g)
    {
      var gaps := CaseGaps(suite, trials, suite.cases[i], collected.value);
      assert suite.cases[..i + 1] == suite.cases[..i] + [suite.cases[i]];
      missing := missing + gaps;
    }
    assert suite.cases[..|suite.cases|] == suite.cases;
    NoGapMeansGrid(suite, trials);
    if missing != [] {
      assert IsGap(suite, trials, missing[0]);
      return Err(Incomplete(missing)), 0;
    }
    return Ok(()), 0;
  }

  // -------------------------------------------------------------- pairing with the baseline

  ghost predicate Pairs(t: Trial, p: Trial, variant: string) {
    p.variant == variant && PairKeyOf(p) == PairKeyOf(t)
  }

  lemma KeyDeterminesTrial(suite: Suite, trials: seq<Trial>, p: Trial, q: Trial)
    requires Clean(suite, trials) && p in trials && q in trials && KeyOf(p) == KeyOf(q)
    ensures p == q
  {
  }

  /** On a full grid every trial has exactly one partner in each variant, so that pairing any two variants
      is a bijection. */
  lemma Partner(suite: Suite, trials: seq<Trial>, t: Trial, w: string) returns (p: Trial)
    requires ValidSuite(suite) && ExactGrid(suite, trials) && t in trials && w in suite.variants
    ensures p in trials && Pairs(t, p, w)
    ensures forall q :: q in trials && Pairs(t, q, w) ==> q == p
  {
    assert t.caseId in suite.cases && t.variant in suite.variants by {
      var i :| 0 <= i < |trials| && trials[i] == t;
    }
    var n: Positive :| FullCase(suite, trials, t.caseId, n);
    assert t.replicate in Replicates(trials, t.caseId, t.variant);
    assert t.replicate in Replicates(trials, t.caseId, w);
    p :| p in trials && p.caseId == t.caseId && p.variant == w && p.replicate == t.replicate;
    hide *;
    forall q | q in trials && Pairs(t, q, w)
      ensures q == p
    {
      SamePartner(suite, trials, t, p, q, w);
    }
    PairsByFields(t, p, w);
  }

  lemma PairsByFields(t: Trial, p: Trial, w: string)
    ensures Pairs(t, p, w) <==> p.caseId == t.caseId && p.variant == w && p.replicate == t.replicate
  {
  }

  lemma SamePartner(suite: Suite, trials: seq<Trial>, t: Trial, p: Trial, q: Trial, w: string)
    requires ExactGrid(suite, trials) && p in trials && q in trials
    requires p.caseId == t.caseId && p.variant == w && p.replicate == t.replicate && Pairs(t, q, w)
    ensures p == q
  {
  }

  // -------------------------------------------------------------- groups and pass rates

  function Group(trials: seq<Trial>, v: string): seq<Trial> {
    if trials == [] then []
    else
      var t := trials[|trials| - 1];
      Group(trials[..|trials| - 1], v) + if t.variant == v then [t] else []
  }

  function Passes(s: seq<Trial>, passed: Trial -> bool): nat {
    if s == [] then 0 else Passes(s[..|s| - 1], passed) + if passed(s[|s| - 1]) then 1 else 0
  }

  function PassRate(s: seq<Trial>, passed: Trial -> bool): real {
    if s == [] then 0.0 else Passes(s, passed) as real / |s| as real
  }

  lemma {:induction false} PassesJoin(a: seq<Trial>, b: seq<Trial>, passed: Trial -> bool)
    ensures Passes(a + b, passed) == Passes(a, passed) + Passes(b, passed)
  {
    if b == [] {
      assert a + b == a;
    } else {
      PassesJoin(a, b[..|b| - 1], passed);
      assert (a + b)[..|a + b| - 1] == a + b[..|b| - 1];
    }
  }

  lemma PassesOneMore(s: seq<Trial>, t: Trial, passed: Trial -> bool)
    ensures Passes(s + [t], passed) == Passes(s, passed) + if passed(t) then 1 else 0
  {
    assert (s + [t])[..|s|] == s;
  }

  lemma PassesTakesOut(s: seq<Trial>, k: nat, passed: Trial -> bool)
    requires k < |s|
    ensures Passes(s, passed) == Passes(s[..k] + s[k + 1..], passed) + if passed(s[k]) then 1 else 0
  {
    hide Passes;
    assert s == s[..k] + [s[k]] + s[k + 1..];
    PassesOneMore(s[..k], s[k], passed);
    PassesJoin(s[..k] + [s[k]], s[k + 1..], passed);
    PassesJoin(s[..k], s[k + 1..], passed);
  }

  /** The count of passes does not depend on the order of the trials. */
  lemma {:induction false} PassesReordered(a: seq<Trial>, b: seq<Trial>, passed: Trial -> bool)
    requires multiset(a) == multiset(b)
    ensures Passes(a, passed) == Passes(b, passed) && |a| == |b|
    decreases |a|
  {
    hide Passes;
    SameBagSameSize(a, b);
    if a == [] {
      assert a == b;
    } else {
      var init, x := a[..|a| - 1], a[|a| - 1];
      assert a == init + [x];
      var k := LastSomewhere(a, b);
      PassesReordered(init, b[..k] + b[k + 1..], passed);
      PassesOneMore(init, x, passed);
      PassesTakesOut(b, k, passed);
    }
  }

  lemma {:induction false} GroupCounts(a: seq<Trial>, v: string)
    ensures forall t: Trial :: multiset(Group(a, v))[t] == if t.variant == v then multiset(a)[t] else 0
  {
    if a != [] {
      GroupCounts(a[..|a| - 1], v);
      assert a == a[..|a| - 1] + [a[|a| - 1]];
    }
  }

  lemma GroupMembers(a: seq<Trial>, v: string)
    ensures forall t :: t in Group(a, v) <==> t in a && t.variant == v
  {
  }

  lemma GroupReordered(a: seq<Trial>, b: seq<Trial>, v: string)
    requires multiset(a) == multiset(b)
    ensures multiset(Group(a, v)) == multiset(Group(b, v))
  {
    GroupCounts(a, v);
    GroupCounts(b, v);
  }

  lemma {:induction false} DistinctCounts<T(!new)>(s: seq<T>)
    requires Distinct(s)
    ensures forall x :: multiset(s)[x] == if x in s then 1 else 0
  {
    if s != [] {
      var last := s[|s| - 1];
      DistinctCounts(s[..|s| - 1]);
      assert s == s[..|s| - 1] + [last];
      assert last !in s[..|s| - 1];
    }
  }

  lemma SameMembersSameBag<T(!new)>(a: seq<T>, b: seq<T>)
    requires Distinct(a) && Distinct(b) && forall x :: x in a <==> x in b
    ensures multiset(a) == multiset(b)
  {
    DistinctCounts(a);
    DistinctCounts(b);
  }

  lemma SingleCountsDistinct<T(!new)>(s: seq<T>)
    requires forall x :: multiset(s)[x] <= 1
    ensures Distinct(s)
  {
    forall i, j | 0 <= i < j < |s|
      ensures s[i] != s[j]
    {
      assert s == s[..i] + [s[i]] + s[i + 1..j] + [s[j]] + s[j + 1..];
      assert multiset(s)
          == multiset(s[..i]) + multiset{s[i]} + multiset(s[i + 1..j]) + multiset{s[j]} + multiset(s[j + 1..]);
      assert multiset(s)[s[i]] >= 1 + multiset{s[j]}[s[i]];
    }
  }

  lemma GroupDistinct(suite: Suite, trials: seq<Trial>, results: seq<Trial>, v: string)
    requires Clean(suite, trials) && multiset(results) == multiset(trials)
    ensures Distinct(Group(results, v))
    ensures forall t :: t in Group(results, v) <==> t in trials && t.variant == v
  {
    assert Distinct(trials) by {
      forall i, j | 0 <= i < j < |trials|
        ensures trials[i] != trials[j]
      {
        assert KeyOf(trials[i]) != KeyOf(trials[j]);
      }
    }
    DistinctCounts(trials);
    GroupCounts(results, v);
    SingleCountsDistinct(Group(results, v));
    GroupReordered(results, trials, v);
    GroupMembers(trials, v);
    forall t: Trial
      ensures t in Group(results, v) <==> t in Group(trials, v)
    {
      assert t in Group(results, v) <==> t in multiset(Group(results, v));
      assert t in Group(trials, v) <==> t in multiset(Group(trials, v));
    }
  }

  // -------------------------------------------------------------- the report

  function Grouped(groups: map<string, seq<Trial>>, v: string): seq<Trial> {
    if v in groups then groups[v] else []
  }

  method GroupByVariant(results: seq<Trial>) returns (groups: map<string, seq<Trial>>)
    ensures forall v :: Grouped(groups, v) == Group(results, v)
  {
    groups := map[];
    for i := 0 to |results|
      invariant forall v :: Grouped(groups, v) == Group(results[..i], v)
    {
      var v := results[i].variant;
      groups := groups[v := Grouped(groups, v) + [results[i]]];
      assert results[..i + 1][..i] == results[..i];
    }
    assert results[..|results|] == results;
  }

  ghost predicate DistinctPairKeys(s: seq<Trial>) {
    forall i, j :: 0 <= i < j < |s| ==> PairKeyOf(s[i]) != PairKeyOf(s[j])
  }

  method ByPairKey(group: seq<Trial>) returns (index: map<PairKey, Trial>)
    requires DistinctPairKeys(group)
    ensures forall t :: t in group ==> PairKeyOf(t) in index && index[PairKeyOf(t)] == t
  {
    index := map[];
    for i := 0 to |group|
      invariant forall j :: 0 <= j < i ==> PairKeyOf(group[j]) in index && index[PairKeyOf(group[j])] == group[j]
    {
      index := index[PairKeyOf(group[i]) := group[i]];
    }
  }

  ghost predicate Indexed(group: seq<Trial>, index: map<PairKey, Trial>) {
    forall i :: 0 <= i < |group| ==> PairKeyOf(group[i]) in index
  }

  /** The paired baseline trial of every trial in `group`. */
  ghost function Partners(group: seq<Trial>, index: map<PairKey, Trial>): (partners: seq<Trial>)
    requires Indexed(group, index)
    ensures |partners| == |group|
    ensures forall i :: 0 <= i < |group| ==> partners[i] == index[PairKeyOf(group[i])]
  {
    seq(|group|, i requires 0 <= i < |group| => index[PairKeyOf(group[i])])
  }

  function Points(passed: bool): real {
    if passed then 1.0 else 0.0
  }

  /** The mean difference over the pairs, in percentage points. */
  method QualityGain(group: seq<Trial>, index: map<PairKey, Trial>, passed: Trial -> bool) returns (gain: real)
    requires group != [] && Indexed(group, index)
    ensures gain == 100.0 * (PassRate(group, passed) - PassRate(Partners(group, index), passed))
  {
    ghost var partners := Partners(group, index);
    var total := 0.0;
    for i := 0 to |group|
      invariant total == 100.0 * (Passes(group[..i], passed) as real - Passes(partners[..i], passed) as real)
    {
      var baseline := index[PairKeyOf(group[i])];
      total := total + (Points(passed(group[i])) - Points(passed(baseline))) * 100.0;
      assert group[..i + 1][..i] == group[..i] && partners[..i + 1][..i] == partners[..i];
    }
    assert group[..|group|] == group && partners[..|group|] == partners;
    gain := total / |group| as real;
    MeanOfDifferences(total, Passes(group, passed) as real, Passes(partners, passed) as real, |group| as real);
  }

  lemma MeanOfDifferences(total: real, a: real, b: real, n: real)
    requires n > 0.0 && total == 100.0 * (a - b)
    ensures total / n == 100.0 * (a / n - b / n)
  {
  }

  /** The partners of a variant's trials are the baseline's trials, each exactly once. */
  lemma PartnersAreBaseline(suite: Suite, trials: seq<Trial>, results: seq<Trial>, v: string,
                            index: map<PairKey, Trial>)
    requires ValidSuite(suite) && ExactGrid(suite, trials) && v in suite.variants
    requires multiset(results) == multiset(trials)
    requires forall t :: t in Group(results, suite.baseline) ==> PairKeyOf(t) in index && index[PairKeyOf(t)] == t
    requires Indexed(Group(results, v), index)
    ensures multiset(Partners(Group(results, v), index)) == multiset(Group(trials, suite.baseline))
  {
    var group := Group(results, v);
    var partners := Partners(group, index);
    var base := Group(results, suite.baseline);
    GroupDistinct(suite, trials, results, v);
    GroupDistinct(suite, trials, results, suite.baseline);
    forall i | 0 <= i < |group|
      ensures partners[i] in base && PairKeyOf(partners[i]) == PairKeyOf(group[i])
    {
      assert group[i] in group;
      var p := Partner(suite, trials, group[i], suite.baseline);
      assert p in base;
    }
    assert Distinct(partners) by {
      forall i, j | 0 <= i < j < |group|
        ensures partners[i] != partners[j]
      {
        assert group[i] in group && group[j] in group && group[i] != group[j];
        if partners[i] == partners[j] {
          KeyDeterminesTrial(suite, trials, group[i], group[j]);
        }
      }
    }
    forall b | b in base
      ensures b in partners
    {
      var t := Partner(suite, trials, b, v);
      assert t in group;
      var i :| 0 <= i < |group| && group[i] == t;
      assert partners[i] == b;
    }
    SameMembersSameBag(partners, base);
    GroupReordered(results, trials, suite.baseline);
  }

  lemma BaselineKeysDistinct(suite: Suite, trials: seq<Trial>, results: seq<Trial>, v: string)
    requires Clean(suite, trials) && multiset(results) == multiset(trials)
    ensures DistinctPairKeys(Group(results, v))
  {
    GroupDistinct(suite, trials, results, v);
    var group := Group(results, v);
    forall i, j | 0 <= i < j < |group|
      ensures PairKeyOf(group[i]) != PairKeyOf(group[j])
    {
      assert group[i] in group && group[j] in group && group[i] != group[j];
      if PairKeyOf(group[i]) == PairKeyOf(group[j]) {
        KeyDeterminesTrial(suite, trials, group[i], group[j]);
      }
    }
  }

  lemma GroupsAreNonEmpty(suite: Suite, trials: seq<Trial>, v: string)
    requires ValidSuite(suite) && ExactGrid(suite, trials) && v in suite.variants
    ensures Group(trials, v) != []
  {
    var c := suite.cases[0];
    assert c in suite.cases;
    var n: Positive :| FullCase(suite, trials, c, n);
    assert 1 in UpTo(n) && Replicates(trials, c, v) == UpTo(n);
    GroupMembers(trials, v);
  }

  /** The gain a report should show: the difference of the two pass rates, in percentage points. */
  ghost function ExpectedGain(suite: Suite, trials: seq<Trial>, v: string, passed: Trial -> bool): real {
    100.0 * (PassRate(Group(trials, v), passed) - PassRate(Group(trials, suite.baseline), passed))
  }

  lemma EveryTrialIsIndexed(suite: Suite, trials: seq<Trial>, results: seq<Trial>, v: string, index: map<PairKey,
                            Trial>)
    requires ValidSuite(suite) && ExactGrid(suite, trials) && v in suite.variants
    requires multiset(results) == multiset(trials)
    requires forall t :: t in Group(results, suite.baseline) ==> PairKeyOf(t) in index && index[PairKeyOf(t)] == t
    ensures Indexed(Group(results, v), index)
  {
    assert Clean(suite, trials);
    hide ExactGrid, Group;
    var group := Group(results, v);
    GroupDistinct(suite, trials, results, v);
    GroupDistinct(suite, trials, results, suite.baseline);
    forall i | 0 <= i < |group|
      ensures PairKeyOf(group[i]) in index
    {
      assert group[i] in group;
      var p := Partner(suite, trials, group[i], suite.baseline);
      assert p in Group(results, suite.baseline);
    }
  }

  /** One row of the report. */
  method Compare(suite: Suite, ghost trials: seq<Trial>, ghost results: seq<Trial>, v: string, group: seq<Trial>,
                 index: map<PairKey, Trial>, passed: Trial -> bool) returns (gain: real)
    requires ValidSuite(suite) && ExactGrid(suite, trials) && v in suite.variants
    requires multiset(results) == multiset(trials) && group == Group(results, v)
    requires forall t :: t in Group(results, suite.baseline) ==> PairKeyOf(t) in index && index[PairKeyOf(t)] == t
    ensures gain == ExpectedGain(suite, trials, v, passed)
  {
    if v == suite.baseline {
      return 0.0;
    }
    hide Group, Passes, ExactGrid, Indexed, Partners;
    GroupsAreNonEmpty(suite, trials, v);
    GroupReordered(results, trials, v);
    PassesReordered(group, Group(trials, v), passed);
    EveryTrialIsIndexed(suite, trials, results, v, index);
    gain := QualityGain(group, index, passed);
    PartnersAreBaseline(suite, trials, results, v, index);
    PassesReordered(Partners(group, index), Group(trials, suite.baseline), passed);
  }

  /** Accepts exactly the full grids. In whatever order the results come, each variant then has results and
      its gain, computed pair by pair, is the difference of the plain pass rates. */
  method Evaluate(suite: Suite, trials: seq<Trial>, results: seq<Trial>, passed: Trial -> bool)
    returns (r: Result<map<string, real>, Error>, ghost fault: nat)
    requires ValidSuite(suite) && multiset(results) == multiset(trials)
    ensures r.Ok? <==> ExactGrid(suite, trials)
    ensures r.Err? && !r.error.Incomplete? ==> FirstFault(suite, trials, fault, r.error)
    ensures r.Err? && r.error.Incomplete? ==>
      Clean(suite, trials) && forall g :: g in r.error.missing <==> IsGap(suite, trials, g)
    ensures r.Ok? ==> forall v :: v in r.value <==> v in suite.variants
    ensures r.Ok? ==> forall v :: v in suite.variants ==>
                        Group(trials, v) != [] && r.value[v] == ExpectedGain(suite, trials, v, passed)
  {
    hide FullCase, Group, ExpectedGain, FirstFault, IsGap, Distinct;
    var verdict;
    verdict, fault := ValidateTrials(suite, trials);
    if verdict.Err? {
      return Err(verdict.error), fault;
    }
    var groups := GroupByVariant(results);
    BaselineKeysDistinct(suite, trials, results, suite.baseline);
    var index := ByPairKey(Grouped(groups, suite.baseline));
    var gains: map<string, real> := map[];
    for i := 0 to |suite.variants|
      invariant forall v :: v in gains <==> v in suite.variants[..i]
      invariant forall v :: v in gains ==> Group(trials, v) != [] && gains[v] == ExpectedGain(suite, trials, v, passed)
    {
      var v := suite.variants[i];
      var gain := Compare(suite, trials, results, v, Grouped(groups, v), index, passed);
      GroupsAreNonEmpty(suite, trials, v);
      assert suite.variants[..i + 1] == suite.variants[..i] + [v];
      gains := gains[v := gain];
    }
    assert suite.variants[..|suite.variants|] == suite.variants;
    return Ok(gains), fault;
  }
}
