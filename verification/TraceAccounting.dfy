/** Accounting over persisted traces: dispatched model requests without a terminal event, and failed
    attempts at real providers reported by two kinds of evidence. */
module TraceAccounting {
  import opened Sequences
  import opened Sums
  import opened Wrappers

  datatype EventType = ModelAction | WorkflowEvent | OtherType

  datatype Action = RequestStarted | ModelResponse | ProviderFallback | OtherAction

  datatype Outcome = Failed | Rejected | OtherOutcome

  /** An entry of a route receipt; receipts are read back as free-form data. */
  datatype Entry = NotADict | Attempt(outcome: Outcome, number: Option<int>, provider: string, model: string)

  /** `receipt` is None unless the payload holds a list. */
  datatype Event = Event(agentRun: Option<string>, eventType: EventType, action: Action, provider: string,
                         runBound: bool, confirmed: bool, receipt: Option<seq<Entry>>)

  // -------------------------------------------------------------- unmatched requests

  datatype Effect = Start | Terminal | Neither

  predicate MayHaveReachedRealProvider(providers: set<string>, e: Event) {
    e.provider in providers && e.runBound && e.confirmed
  }

  predicate IsConfirmedLocalRejection(e: Event) {
    e.receipt.Some? && e.receipt.value != []
    && forall i :: 0 <= i < |e.receipt.value| ==> e.receipt.value[i].Attempt? && e.receipt.value[i].outcome == Rejected
  }

  /** What an event means for its agent run. Without an agent run nothing can end a request. */
  ghost function EffectOf(providers: set<string>, e: Event): Effect {
    if e.eventType == ModelAction && e.action == RequestStarted then
      if MayHaveReachedRealProvider(providers, e) then Start else Neither
    else if e.agentRun.None? then Neither
    else if e.eventType == ModelAction && e.action == ModelResponse then Terminal
    else if IsConfirmedLocalRejection(e) then Terminal
    else Neither
  }

  /** A request starts when it is dispatched to a real provider, in a confirmed run. It ends with a response, or
      with an event whose receipt says of every candidate that it was rejected. */
  lemma EffectReads(providers: set<string>, e: Event)
    ensures EffectOf(providers, e) == Start <==>
      && e.eventType == ModelAction && e.action == RequestStarted
      && e.provider in providers && e.runBound && e.confirmed
    ensures EffectOf(providers, e) == Terminal <==>
      && e.agentRun.Some? && !(e.eventType == ModelAction && e.action == RequestStarted)
      && (|| (e.eventType == ModelAction && e.action == ModelResponse)
          || (&& e.receipt.Some? && |e.receipt.value| > 0
              && !exists x :: x in e.receipt.value && (x.NotADict? || x.outcome != Rejected)))
  {
    if e.receipt.Some? && exists x :: x in e.receipt.value && (x.NotADict? || x.outcome != Rejected) {
      var x :| x in e.receipt.value && (x.NotADict? || x.outcome != Rejected);
      var i :| 0 <= i < |e.receipt.value| && e.receipt.value[i] == x;
    }
  }

  ghost function Weight(providers: set<string>, e: Event): int {
    match EffectOf(providers, e)
    case Start => 1
    case Terminal => -1
    case Neither => 0
  }

  /** Dispatches minus terminal events. */
  ghost function Balance(providers: set<string>, events: seq<Event>): int {
    if events == [] then 0
    else Balance(providers, events[..|events| - 1]) + Weight(providers, events[|events| - 1])
  }

  /** The events of one agent run, in order. */
  ghost function Project(events: seq<Event>, key: Option<string>): seq<Event> {
    if events == [] then []
    else
      var e := events[|events| - 1];
      var earlier := Project(events[..|events| - 1], key);
      if e.agentRun == key then earlier + [e] else earlier
  }

  /** The largest balance of any suffix, the empty one included. */
  ghost predicate IsLargestBacklog(providers: set<string>, events: seq<Event>, n: nat) {
    && (exists i :: 0 <= i <= |events| && Balance(providers, events[i..]) == n)
    && forall i :: 0 <= i <= |events| ==> Balance(providers, events[i..]) <= n
  }

  /** The requests of one agent run still open after the given events. */
  ghost function Pending(providers: set<string>, events: seq<Event>, key: Option<string>): nat {
    if events == [] then 0
    else
      var e := events[|events| - 1];
      var before := Pending(providers, events[..|events| - 1], key);
      if e.agentRun == key && before + Weight(providers, e) >= 0 then before + Weight(providers, e) else before
  }

  lemma BacklogGrows(providers: set<string>, events: seq<Event>, e: Event, n: nat)
    requires IsLargestBacklog(providers, events, n)
    ensures IsLargestBacklog(providers, events + [e],
                             if n + Weight(providers, e) >= 0 then n + Weight(providers, e) else n)
  {
    var more := events + [e];
    var w := Weight(providers, e);
    forall i | 0 <= i <= |events|
      ensures Balance(providers, more[i..]) == Balance(providers, events[i..]) + w
    {
      assert more[i..] == events[i..] + [e];
      assert more[i..][..|more[i..]| - 1] == events[i..];
    }
    assert more[|more|..] == [];
    if n + w >= 0 {
      var i :| 0 <= i <= |events| && Balance(providers, events[i..]) == n;
      assert Balance(providers, more[i..]) == n + w;
      forall i | 0 <= i <= |more|
        ensures Balance(providers, more[i..]) <= n + w
      {
        if i <= |events| {
          assert Balance(providers, events[i..]) <= n;
        }
      }
    } else {
      assert Balance(providers, more[|more|..]) == 0;
      forall i | 0 <= i <= |more|
        ensures Balance(providers, more[i..]) <= n
      {
        if i <= |events| {
          assert Balance(providers, events[i..]) <= n;
        }
      }
    }
  }

  /** For an agent run the open requests are the largest backlog of any suffix of its own events. */
  lemma {:induction false} PendingIsLargestBacklog(providers: set<string>, events: seq<Event>, key: Option<string>)
    ensures IsLargestBacklog(providers, Project(events, key), Pending(providers, events, key))
  {
    if events == [] {
      assert Balance(providers, Project(events, key)[0..]) == 0;
    } else {
      var init, e := events[..|events| - 1], events[|events| - 1];
      PendingIsLargestBacklog(providers, init, key);
      if e.agentRun == key {
        BacklogGrows(providers, Project(init, key), e, Pending(providers, init, key));
      }
    }
  }

  ghost function AgentRuns(events: seq<Event>): set<Option<string>> {
    set e | e in events :: e.agentRun
  }

  /** The count over a whole trace. */
  ghost function Unmatched(providers: set<string>, events: seq<Event>): nat {
    SumOf(AgentRuns(events), key => Pending(providers, events, key))
  }

  lemma {:induction false} NothingPendingElsewhere(providers: set<string>, events: seq<Event>, key: Option<string>)
    requires key !in AgentRuns(events)
    ensures Pending(providers, events, key) == 0
  {
    if events != [] {
      var init, e := events[..|events| - 1], events[|events| - 1];
      assert e in events && forall d :: d in init ==> d in events;
      NothingPendingElsewhere(providers, init, key);
    }
  }

  lemma {:induction false} ProjectionKeepsPending(providers: set<string>, events: seq<Event>, key: Option<string>)
    ensures Pending(providers, Project(events, key), key) == Pending(providers, events, key)
    ensures forall e :: e in Project(events, key) ==> e.agentRun == key
  {
    if events != [] {
      var init, e := events[..|events| - 1], events[|events| - 1];
      ProjectionKeepsPending(providers, init, key);
      if e.agentRun == key {
        var p := Project(init, key);
        assert (p + [e])[..|p|] == p;
      }
    }
  }

  lemma UnmatchedOfProjection(providers: set<string>, events: seq<Event>, key: Option<string>)
    ensures Unmatched(providers, Project(events, key)) == Pending(providers, events, key)
  {
    var p := Project(events, key);
    ProjectionKeepsPending(providers, events, key);
    var f := k => Pending(providers, p, k);
    if key in AgentRuns(p) {
      assert AgentRuns(p) == {key};
      SumTakesOut(AgentRuns(p), f, key);
      assert AgentRuns(p) - {key} == {};
    } else {
      assert AgentRuns(p) == {};
      NothingPendingElsewhere(providers, p, key);
    }
    assert Unmatched(providers, p) == SumOf(AgentRuns(p), f);
  }

  /** An interleaved trace counts what its agent runs count on their own. */
  lemma InterleavingIsSum(providers: set<string>, events: seq<Event>)
    ensures Unmatched(providers, events)
         == SumOf(AgentRuns(events), key => Unmatched(providers, Project(events, key)))
  {
    forall key
      ensures Unmatched(providers, Project(events, key)) == Pending(providers, events, key)
    {
      UnmatchedOfProjection(providers, events, key);
    }
    SumAgrees(AgentRuns(events), key => Pending(providers, events, key),
              key => Unmatched(providers, Project(events, key)));
  }

  function Held(pending: map<Option<string>, int>, key: Option<string>): int {
    if key in pending then pending[key] else 0
  }

  method ConsumePendingRequest(pending: map<Option<string>, int>, key: Option<string>)
    returns (left: map<Option<string>, int>)
    requires forall k :: k in pending ==> pending[k] >= 1
    ensures forall k :: k in left ==> left[k] >= 1
    ensures forall k :: Held(left, k) == Held(pending, k) - if k == key && Held(pending, k) > 0 then 1 else 0
  {
    var held := Held(pending, key);
    if held > 1 {
      left := pending[key := held - 1];
    } else if held == 1 {
      left := pending - {key};
    } else {
      left := pending;
    }
  }

  method CountUnmatched(providers: set<string>, events: seq<Event>) returns (count: nat)
    ensures count == Unmatched(providers, events)
  {
    var pending: map<Option<string>, int> := map[];
    for i := 0 to |events|
      invariant forall k :: k in pending ==> pending[k] >= 1
      invariant forall k :: Held(pending, k) == Pending(providers, events[..i], k)
    {
      assert events[..i + 1][..i] == events[..i];
      var event := events[i];
      var key := event.agentRun;
      if event.eventType == ModelAction && event.action == RequestStarted {
        if MayHaveReachedRealProvider(providers, event) {
          pending := pending[key := Held(pending, key) + 1];
        }
        continue;
      }
      if event.eventType == ModelAction && event.action == ModelResponse {
        if key != None {
          pending := ConsumePendingRequest(pending, key);
        }
        continue;
      }
      if key != None && IsConfirmedLocalRejection(event) {
        pending := ConsumePendingRequest(pending, key);
      }
    }
    assert events[..|events|] == events;
    count := SumValues(providers, events, pending);
  }

  method SumValues(ghost providers: set<string>, ghost events: seq<Event>, pending: map<Option<string>, int>)
    returns (count: nat)
    requires forall k :: k in pending ==> pending[k] >= 1
    requires forall k :: Held(pending, k) == Pending(providers, events, k)
    ensures count == Unmatched(providers, events)
  {
    ghost var f := key => Pending(providers, events, key);
    count := 0;
    var rest := pending.Keys;
    while rest != {}
      invariant rest <= pending.Keys
      invariant count + SumOf(rest, f) == SumOf(pending.Keys, f)
      decreases |rest|
    {
      var key :| key in rest;
      SumTakesOut(rest, f, key);
      count := count + pending[key];
      rest := rest - {key};
    }
    forall key | key in pending.Keys
      ensures key in AgentRuns(events)
    {
      if key !in AgentRuns(events) {
        NothingPendingElsewhere(providers, events, key);
      }
    }
    forall key | key in AgentRuns(events) - pending.Keys
      ensures f(key) == 0
    {
      assert Held(pending, key) == 0;
    }
    SumIgnoresZeros(pending.Keys, AgentRuns(events), f);
    assert Unmatched(providers, events) == SumOf(AgentRuns(events), f);
  }

  // -------------------------------------------------------------- failed attempts

  datatype Fingerprint = Fingerprint(number: Option<int>, provider: string, model: string)

  /** The two independent kinds of evidence. */
  datatype Source = FromResponse | FromWorkflow

  type Evidence = map<string, multiset<Fingerprint>>

  function SourceOf(e: Event): Option<Source> {
    if e.eventType == ModelAction && e.action == ModelResponse then Some(FromResponse)
    else if e.eventType == WorkflowEvent && e.action == ProviderFallback then Some(FromWorkflow)
    else None
  }

  /** The failed attempts at real providers in a receipt. */
  function FailedIn(providers: set<string>, receipt: seq<Entry>): seq<Fingerprint> {
    if receipt == [] then []
    else
      var entry := receipt[0];
      (if entry.Attempt? && entry.outcome == Failed && entry.provider in providers
       then [Fingerprint(entry.number, entry.provider, entry.model)] else [])
      + FailedIn(providers, receipt[1..])
  }

  /** Which events are evidence of which kind. */
  lemma SourceReads(e: Event)
    ensures SourceOf(e) == Some(FromResponse) <==> e.eventType == ModelAction && e.action == ModelResponse
    ensures SourceOf(e) == Some(FromWorkflow) <==> e.eventType == WorkflowEvent && e.action == ProviderFallback
  {
  }

  /** The places of a receipt that report a failed attempt with this fingerprint. */
  ghost function Places(receipt: seq<Entry>, p: Fingerprint): set<nat> {
    set i: nat | i < |receipt| && receipt[i] == Attempt(Failed, p.number, p.provider, p.model)
  }

  /** A failed attempt is counted once for each place that reports it, if its provider is a real one. */
  lemma {:induction false} FailedInReads(providers: set<string>, receipt: seq<Entry>, p: Fingerprint)
    ensures multiset(FailedIn(providers, receipt))[p] == if p.provider in providers then |Places(receipt, p)| else 0
  {
    if receipt == [] {
      assert Places(receipt, p) == {};
    } else {
      FailedInReads(providers, receipt[1..], p);
      PlacesShift(receipt, p);
      hide FailedIn, Places;
      FailedInStep(providers, receipt, p);
    }
  }

  lemma FailedInStep(providers: set<string>, receipt: seq<Entry>, p: Fingerprint)
    requires receipt != []
    ensures multiset(FailedIn(providers, receipt))[p] == multiset(FailedIn(providers, receipt[1..]))[p]
      + if receipt[0] == Attempt(Failed, p.number, p.provider, p.model) && p.provider in providers then 1 else 0
  {
  }

  lemma PlacesShift(receipt: seq<Entry>, p: Fingerprint)
    requires receipt != []
    ensures |Places(receipt, p)| == |Places(receipt[1..], p)|
      + if receipt[0] == Attempt(Failed, p.number, p.provider, p.model) then 1 else 0
  {
    var later := set i: nat | i in Places(receipt, p) && i > 0;
    Shifted(Places(receipt[1..], p), later);
    if receipt[0] == Attempt(Failed, p.number, p.provider, p.model) {
      assert Places(receipt, p) == {0} + later;
    } else {
      assert Places(receipt, p) == later;
    }
  }

  lemma {:induction false} Shifted(s: set<nat>, t: set<nat>)
    requires forall i: nat :: i in t <==> i > 0 && i - 1 in s
    ensures |s| == |t|
    decreases s
  {
    if s == {} {
      assert t == {};
    } else {
      var i :| i in s;
      assert i + 1 in t;
      Shifted(s - {i}, t - {i + 1});
    }
  }

  /** What one event adds to the evidence of a kind about an agent run. */
  ghost function Reported(providers: set<string>, e: Event, run: string, source: Source): multiset<Fingerprint> {
    if e.agentRun == Some(run) && SourceOf(e) == Some(source) && e.receipt.Some?
    then multiset(FailedIn(providers, e.receipt.value))
    else multiset{}
  }

  ghost function EvidenceOf(providers: set<string>, events: seq<Event>, run: string, source: Source)
    : multiset<Fingerprint>
  {
    if events == [] then multiset{}
    else EvidenceOf(providers, events[..|events| - 1], run, source)
         + Reported(providers, events[|events| - 1], run, source)
  }

  function Max(a: nat, b: nat): nat {
    if a < b then b else a
  }

  /** Both kinds report the same attempts, so of each fingerprint the larger count is taken. */
  ghost function DistinctAttempts(providers: set<string>, events: seq<Event>, run: string): nat {
    var a, b := EvidenceOf(providers, events, run, FromResponse), EvidenceOf(providers, events, run, FromWorkflow);
    SumOf((set p | p in a + b), p => Max(a[p], b[p]))
  }

  ghost function NamedRuns(events: seq<Event>): set<string> {
    set e | e in events && e.agentRun.Some? :: e.agentRun.value
  }

  ghost function FailedAttempts(providers: set<string>, events: seq<Event>): nat {
    SumOf(NamedRuns(events), run => DistinctAttempts(providers, events, run))
  }

  lemma OneMoreEvent(providers: set<string>, events: seq<Event>, e: Event, run: string, source: Source)
    ensures EvidenceOf(providers, events + [e], run, source)
         == EvidenceOf(providers, events, run, source) + Reported(providers, e, run, source)
  {
  }

  lemma NoEvents(providers: set<string>, run: string, source: Source)
    ensures EvidenceOf(providers, [], run, source) == multiset{}
  {
  }

  lemma {:induction false} EvidenceJoins(providers: set<string>, a: seq<Event>, b: seq<Event>, run: string,
                                         source: Source)
    ensures EvidenceOf(providers, a + b, run, source)
         == EvidenceOf(providers, a, run, source) + EvidenceOf(providers, b, run, source)
  {
    hide *;
    if b == [] {
      assert a + b == a;
      NoEvents(providers, run, source);
    } else {
      var init, e := b[..|b| - 1], b[|b| - 1];
      EvidenceJoins(providers, a, init, run, source);
      assert b == init + [e] && a + b == (a + init) + [e];
      OneMoreEvent(providers, init, e, run, source);
      OneMoreEvent(providers, a + init, e, run, source);
    }
  }

  lemma EvidenceTakesOut(providers: set<string>, events: seq<Event>, k: nat, run: string, source: Source)
    requires k < |events|
    ensures EvidenceOf(providers, events, run, source)
         == EvidenceOf(providers, events[..k] + events[k + 1..], run, source)
            + Reported(providers, events[k], run, source)
  {
    hide *;
    OneMoreReport(providers, events, k, source);
    assert events == events[..k + 1] + events[k + 1..];
    EvidenceJoins(providers, events[..k + 1], events[k + 1..], run, source);
    EvidenceJoins(providers, events[..k], events[k + 1..], run, source);
  }

  lemma {:induction false} EvidenceReordered(providers: set<string>, a: seq<Event>, b: seq<Event>, run: string,
                                             source: Source)
    requires multiset(a) == multiset(b)
    ensures EvidenceOf(providers, a, run, source) == EvidenceOf(providers, b, run, source)
    decreases |a|
  {
    hide *;
    SameBagSameSize(a, b);
    if a == [] {
      assert a == b;
    } else {
      var init, e := a[..|a| - 1], a[|a| - 1];
      assert a == init + [e];
      var k := LastSomewhere(a, b);
      EvidenceReordered(providers, init, b[..k] + b[k + 1..], run, source);
      OneMoreEvent(providers, init, e, run, source);
      EvidenceTakesOut(providers, b, k, run, source);
    }
  }

  /** The count does not depend on the order of the events. */
  lemma FailedAttemptsReordered(providers: set<string>, a: seq<Event>, b: seq<Event>)
    requires multiset(a) == multiset(b)
    ensures FailedAttempts(providers, a) == FailedAttempts(providers, b)
  {
    assert NamedRuns(a) == NamedRuns(b) by {
      forall e
        ensures e in a <==> e in b
      {
        assert e in a <==> e in multiset(a);
        assert e in b <==> e in multiset(b);
      }
    }
    forall run
      ensures DistinctAttempts(providers, a, run) == DistinctAttempts(providers, b, run)
    {
      EvidenceReordered(providers, a, b, run, FromResponse);
      EvidenceReordered(providers, a, b, run, FromWorkflow);
    }
    SumAgrees(NamedRuns(a), run => DistinctAttempts(providers, a, run), run => DistinctAttempts(providers, b, run));
  }

  function Counted(evidence: Evidence, run: string): multiset<Fingerprint> {
    if run in evidence then evidence[run] else multiset{}
  }

  /** `Counter | Counter`: the larger multiplicity of each key. */
  function Larger(a: multiset<Fingerprint>, b: multiset<Fingerprint>): (c: multiset<Fingerprint>)
    ensures forall p :: c[p] == Max(a[p], b[p])
  {
    a + (b - a)
  }

  lemma {:induction false} SizeIsSum(keys: set<Fingerprint>, m: multiset<Fingerprint>, f: Fingerprint -> nat)
    requires (forall p :: p in m ==> p in keys) && forall p :: p in keys ==> f(p) == m[p]
    ensures SumOf(keys, f) == |m|
    decreases |keys|
  {
    if keys == {} {
      assert m == multiset{};
    } else {
      var p :| p in keys;
      SumTakesOut(keys, f, p);
      var rest := m[p := 0];
      SizeIsSum(keys - {p}, rest, f);
      assert |m| == |rest| + m[p];
    }
  }

  lemma SizeIsDistinctAttempts(providers: set<string>, events: seq<Event>, run: string, a: multiset<Fingerprint>,
                               b: multiset<Fingerprint>)
    requires a == EvidenceOf(providers, events, run, FromResponse)
    requires b == EvidenceOf(providers, events, run, FromWorkflow)
    ensures |Larger(a, b)| == DistinctAttempts(providers, events, run)
  {
    var f := p => Max(a[p], b[p]);
    var keys := set p | p in a + b;
    SizeIsSum(keys, Larger(a, b), f);
    SumAgrees(keys, f, p => Max(EvidenceOf(providers, events, run, FromResponse)[p],
                                EvidenceOf(providers, events, run, FromWorkflow)[p]));
  }

  /** `target.setdefault(run, Counter()).update(failed)`. */
  method AddEvidence(evidence: Evidence, run: string, failed: seq<Fingerprint>) returns (more: Evidence)
    ensures more.Keys == evidence.Keys + {run}
    ensures forall r :: Counted(more, r) == Counted(evidence, r) + if r == run then multiset(failed) else multiset{}
  {
    more := evidence[run := Counted(evidence, run) + multiset(failed)];
  }

  lemma OneMoreReport(providers: set<string>, events: seq<Event>, i: nat, source: Source)
    requires i < |events|
    ensures forall run :: EvidenceOf(providers, events[..i + 1], run, source)
                       == EvidenceOf(providers, events[..i], run, source) + Reported(providers, events[i], run, source)
  {
    assert events[..i + 1][..i] == events[..i];
  }

  lemma OneMoreRun(events: seq<Event>, i: nat)
    requires i < |events|
    ensures NamedRuns(events[..i]) <= NamedRuns(events[..i + 1])
    ensures events[i].agentRun.Some? ==> events[i].agentRun.value in NamedRuns(events[..i + 1])
  {
  }

  method CountFailedAttempts(providers: set<string>, events: seq<Event>) returns (count: nat)
    ensures count == FailedAttempts(providers, events)
  {
    hide EvidenceOf, FailedIn, NamedRuns, FailedAttempts, Counted;
    var responses: Evidence := map[];
    var workflows: Evidence := map[];
    NothingReported(providers);
    for i := 0 to |events|
      invariant responses.Keys + workflows.Keys <= NamedRuns(events[..i])
      invariant forall run :: Counted(responses, run) == EvidenceOf(providers, events[..i], run, FromResponse)
      invariant forall run :: Counted(workflows, run) == EvidenceOf(providers, events[..i], run, FromWorkflow)
    {
      var event := events[i];
      OneMoreRun(events, i);
      OneMoreReport(providers, events, i, FromResponse);
      OneMoreReport(providers, events, i, FromWorkflow);
      if event.agentRun.None? || SourceOf(event).None? || event.receipt.None? {
        continue;
      }
      var run := event.agentRun.value;
      var failed := FailedIn(providers, event.receipt.value);
      if failed != [] {
        if SourceOf(event) == Some(FromResponse) {
          responses := AddEvidence(responses, run, failed);
        } else {
          workflows := AddEvidence(workflows, run, failed);
        }
      }
    }
    assert events[..|events|] == events;
    count := SumEvidence(providers, events, responses, workflows);
  }

  lemma NothingReported(providers: set<string>)
    ensures forall run :: Counted(map[], run) == multiset{}
    ensures forall run, source :: EvidenceOf(providers, [], run, source) == multiset{}
  {
  }

  method SumEvidence(ghost providers: set<string>, ghost events: seq<Event>, responses: Evidence, workflows: Evidence)
    returns (count: nat)
    requires responses.Keys + workflows.Keys <= NamedRuns(events)
    requires forall run :: Counted(responses, run) == EvidenceOf(providers, events, run, FromResponse)
    requires forall run :: Counted(workflows, run) == EvidenceOf(providers, events, run, FromWorkflow)
    ensures count == FailedAttempts(providers, events)
  {
    ghost var f := run => DistinctAttempts(providers, events, run);
    var rest := responses.Keys + workflows.Keys;
    ghost var all := rest;
    count := 0;
    while rest != {}
      invariant rest <= all
      invariant count + SumOf(rest, f) == SumOf(all, f)
      decreases |rest|
    {
      var run :| run in rest;
      SumTakesOut(rest, f, run);
      var distinct := Larger(Counted(responses, run), Counted(workflows, run));
      SizeIsDistinctAttempts(providers, events, run, Counted(responses, run), Counted(workflows, run));
      count := count + |distinct|;
      rest := rest - {run};
    }
    forall run | run in NamedRuns(events) - all
      ensures f(run) == 0
    {
      SizeIsDistinctAttempts(providers, events, run, Counted(responses, run), Counted(workflows, run));
      assert Larger(Counted(responses, run), Counted(workflows, run)) == multiset{};
    }
    SumIgnoresZeros(all, NamedRuns(events), f);
    assert FailedAttempts(providers, events) == SumOf(NamedRuns(events), f);
  }
}
