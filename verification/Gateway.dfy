/** The model gateway: fallback over the candidates of a request, and the receipt that records it. */
module Gateway {
  import opened Wrappers
  import opened ModelCalls

  datatype Kind = Real | Mock | Other

  /** `trusted` marks the built-in transport, whose reports of failed attempts are believed. */
  datatype Candidate = Candidate(kind: Kind, allowRealCalls: bool, trusted: bool)

  datatype Flags = Flags(runBound: bool, confirmed: bool, allowMock: bool)

  datatype Request = Request(flags: Flags, candidates: seq<Candidate>, maxContinuations: nat)

  datatype Verdict = Rejected | Unsuccessful | Succeeded

  datatype Reason =
    | NotConfirmed | MockDisabled | NotApproved | NotUsable | OutOfTime
    | FailedCall(local: bool) | FailedAttempt | Selected

  /** A line of the receipt: the candidate's number, counted from 1, what became of it and why. */
  datatype Entry = Entry(candidate: nat, verdict: Verdict, reason: Reason)

  /** A candidate that was called in vain; `at` is the place of its last answer among the events. */
  datatype Failure = Failure(candidate: nat, error: Error, at: nat)

  /** All that a route leaves behind. */
  datatype Log = Log(receipt: seq<Entry>, events: seq<Event>, failures: seq<Failure>)

  // --------------------------------------------------------------- the rules

  /** The rule, if any, that keeps a candidate from being called. */
  function Barred(q: Request, number: nat): Option<Reason>
    requires 1 <= number <= |q.candidates|
  {
    var c := q.candidates[number - 1];
    if c.kind == Real && q.flags.runBound && !q.flags.confirmed then Some(NotConfirmed)
    else if c.kind == Mock && number > 1 && !q.flags.allowMock then Some(MockDisabled)
    else if number > 1 && c.kind == Real && !c.allowRealCalls then Some(NotApproved)
    else None
  }

  /** What the request and its plan allow, one rule after the other. */
  ghost predicate Confirmed(q: Request, number: nat)
    requires 1 <= number <= |q.candidates|
  {
    q.candidates[number - 1].kind == Real && q.flags.runBound ==> q.flags.confirmed
  }

  ghost predicate MockAllowed(q: Request, number: nat)
    requires 1 <= number <= |q.candidates|
  {
    q.candidates[number - 1].kind == Mock && number > 1 ==> q.flags.allowMock
  }

  ghost predicate Approved(q: Request, number: nat)
    requires 1 <= number <= |q.candidates|
  {
    q.candidates[number - 1].kind == Real && number > 1 ==> q.candidates[number - 1].allowRealCalls
  }

  /** A line names the first rule that its candidate breaks, if it breaks one. */
  ghost predicate NamesRule(q: Request, e: Entry) {
    && 1 <= e.candidate <= |q.candidates|
    && (e.reason == NotConfirmed <==> !Confirmed(q, e.candidate))
    && (e.reason == MockDisabled <==> Confirmed(q, e.candidate) && !MockAllowed(q, e.candidate))
    && (e.reason == NotApproved <==>
          Confirmed(q, e.candidate) && MockAllowed(q, e.candidate) && !Approved(q, e.candidate))
  }

  /** Only candidates that break no rule were called, and the lines name the rules that kept others from it. */
  ghost predicate Obedient(q: Request, log: Log) {
    && (forall d :: d in Dispatches(log.events) ==>
          1 <= d <= |q.candidates| && Confirmed(q, d) && MockAllowed(q, d) && Approved(q, d))
    && forall e :: e in log.receipt ==> NamesRule(q, e)
  }

  lemma BarredReads(q: Request, number: nat)
    requires 1 <= number <= |q.candidates|
    ensures Barred(q, number) == Some(NotConfirmed) <==> !Confirmed(q, number)
    ensures Barred(q, number) == Some(MockDisabled) <==> Confirmed(q, number) && !MockAllowed(q, number)
    ensures Barred(q, number) == Some(NotApproved) <==>
      Confirmed(q, number) && MockAllowed(q, number) && !Approved(q, number)
    ensures Barred(q, number) == None <==>
      Confirmed(q, number) && MockAllowed(q, number) && Approved(q, number)
  {
  }

  lemma LawfulIsObedient(q: Request, log: Log)
    requires Lawful(q, Dispatches(log.events)) && AllExplained(q, log)
    ensures Obedient(q, log)
  {
    hide Barred, Confirmed, MockAllowed, Approved, Dispatches, Bound;
    var dispatches := Dispatches(log.events);
    forall d | d in dispatches
      ensures 1 <= d <= |q.candidates| && Confirmed(q, d) && MockAllowed(q, d) && Approved(q, d)
    {
      var i :| 0 <= i < |dispatches| && dispatches[i] == d;
      BarredReads(q, d);
    }
    forall e | e in log.receipt
      ensures NamesRule(q, e)
    {
      assert Explained(q, e, log.events, log.failures);
      BarredReads(q, e.candidate);
    }
  }

  /** After which errors the next candidate is tried. */
  predicate Retryable(e: Error, number: nat, count: nat) {
    && e.cls != Foreign
    && (e.transient || (e.cls in {IncompleteResponse, InvalidResponse} && number < count))
  }

  /** How often one candidate may be called. */
  ghost function Bound(maxContinuations: nat): nat {
    2 * (1 + maxContinuations)
  }

  /** Every adapter call went to a candidate that no rule bars, in candidate order, boundedly often. */
  ghost predicate Lawful(q: Request, dispatches: seq<nat>) {
    && (forall i :: 0 <= i < |dispatches| ==>
          1 <= dispatches[i] <= |q.candidates| && Barred(q, dispatches[i]) == None)
    && (forall i, j :: 0 <= i <= j < |dispatches| ==> dispatches[i] <= dispatches[j])
    && (forall n :: multiset(dispatches)[n] <= Bound(q.maxContinuations))
  }

  // ------------------------------------------------------------- the receipt

  /** The receipt names the candidates 1..k in order, every one at least once, and only its last line
      can be a success. */
  ghost predicate Orderly(receipt: seq<Entry>, k: nat) {
    && (k == 0 <==> receipt == [])
    && (receipt != [] ==> receipt[0].candidate == 1 && receipt[|receipt| - 1].candidate == k)
    && (forall i :: 0 <= i < |receipt| - 1 ==>
          && receipt[i].candidate <= receipt[i + 1].candidate <= receipt[i].candidate + 1
          && receipt[i].verdict != Succeeded)
  }

  ghost predicate NoSuccess(receipt: seq<Entry>) {
    forall e :: e in receipt ==> e.verdict != Succeeded
  }

  /** The number of lines about a candidate. */
  ghost function Lines(receipt: seq<Entry>, number: nat): nat {
    if receipt == [] then 0
    else
      var n := |receipt| - 1;
      Lines(receipt[..n], number) + if receipt[n].candidate == number then 1 else 0
  }

  /** How many lines a failure gets: one for each attempt that the built-in transport reports, else one; none
      for an error that is not the gateway's own. */
  ghost function Told(q: Request, f: Failure): nat
    requires 1 <= f.candidate <= |q.candidates|
  {
    if f.error.cls == Foreign then 0
    else if f.error.local || !q.candidates[f.candidate - 1].trusted || f.error.attempts == 0 then 1
    else f.error.attempts
  }

  /** Every failure has its lines, and every other candidate up to `done` has one. */
  ghost predicate Counted(q: Request, receipt: seq<Entry>, failures: seq<Failure>, done: nat) {
    && (forall f :: f in failures ==>
          1 <= f.candidate <= |q.candidates| && Lines(receipt, f.candidate) == Told(q, f))
    && (forall n :: 1 <= n <= done && n !in Numbers(failures) ==> Lines(receipt, n) == 1)
  }

  ghost function Numbers(failures: seq<Failure>): set<nat> {
    set f | f in failures :: f.candidate
  }

  /** A line says what happened, and it did happen. */
  ghost predicate Explained(q: Request, e: Entry, events: seq<Event>, failures: seq<Failure>) {
    && 1 <= e.candidate <= |q.candidates|
    && (e.reason !in {NotConfirmed, MockDisabled, NotApproved} ==> Barred(q, e.candidate) == None)
    && match e.reason
       case NotUsable =>
         && e.verdict == Rejected
         && (Decision(e.candidate, Unready) in events || Decision(e.candidate, Unsuitable) in events)
       case OutOfTime => e.verdict == Rejected && |q.candidates| > 1 && RouteOver(e.candidate) in events
       case FailedCall(local) =>
         && e.verdict == (if local then Rejected else Unsuccessful)
         && exists f :: f in failures && f.candidate == e.candidate && f.error.local == local
       case FailedAttempt => e.verdict == Unsuccessful && q.candidates[e.candidate - 1].trusted
       case Selected => e.verdict == Succeeded
       case rule => e.verdict == Rejected && Barred(q, e.candidate) == Some(rule)
  }

  ghost predicate AllExplained(q: Request, log: Log) {
    forall e :: e in log.receipt ==> Explained(q, e, log.events, log.failures)
  }

  /** The error of a failure is what the last answer about its candidate came to. */
  ghost predicate Reports(f: Failure, events: seq<Event>) {
    && f.at < |events| && events[f.at].number == f.candidate && Settles(events[f.at], Err(f.error))
    && forall i :: f.at < i < |events| ==> !(events[i].Answer? && events[i].number == f.candidate)
  }

  ghost predicate Recorded(q: Request, events: seq<Event>, failures: seq<Failure>) {
    && (forall i :: 0 <= i < |failures| ==>
          Reports(failures[i], events) && 1 <= failures[i].candidate <= |q.candidates|)
    && (forall i, j :: 0 <= i < j < |failures| ==> failures[i].candidate < failures[j].candidate)
  }

  ghost predicate AllRetryable(q: Request, failures: seq<Failure>) {
    forall i :: 0 <= i < |failures| ==> Retryable(failures[i].error, failures[i].candidate, |q.candidates|)
  }

  /** Every called candidate had been found usable, and every one but `winner` has a failure. */
  ghost predicate Accounted(q: Request, events: seq<Event>, failures: seq<Failure>, winner: nat) {
    forall d :: d in Dispatches(events) ==>
      && Decision(d, Usable) in events && (|q.candidates| > 1 ==> RouteLeft(d) in events)
      && (d in Numbers(failures) || d == winner)
  }

  ghost predicate PrimaryReady(q: Request, events: seq<Event>) {
    |q.candidates| > 1 ==> Decision(1, Unready) !in events
  }

  // -------------------------------------------------------- what a route promises

  /** The state between two candidates: each of the first `done` was turned down for a reason or failed in
      a way that lets the next one try. */
  ghost predicate Between(q: Request, done: nat, log: Log) {
    && Orderly(log.receipt, done) && NoSuccess(log.receipt) && AllExplained(q, log)
    && Counted(q, log.receipt, log.failures, done)
    && Lawful(q, Dispatches(log.events)) && |Dispatches(log.events)| <= done * Bound(q.maxContinuations)
    && (forall d :: d in Dispatches(log.events) ==> d <= done)
    && Recorded(q, log.events, log.failures) && AllRetryable(q, log.failures)
    && (forall n :: n in Numbers(log.failures) ==> n <= done)
    && Accounted(q, log.events, log.failures, 0) && PrimaryReady(q, log.events)
  }

  /** What every route keeps, however it ends. */
  ghost predicate Audited(q: Request, k: nat, winner: nat, log: Log) {
    && k <= |q.candidates| && Orderly(log.receipt, k) && AllExplained(q, log)
    && Lawful(q, Dispatches(log.events))
    && |Dispatches(log.events)| <= |q.candidates| * Bound(q.maxContinuations)
    && Recorded(q, log.events, log.failures) && Accounted(q, log.events, log.failures, winner)
    && (log.failures != [] ==> AllRetryable(q, log.failures[..|log.failures| - 1]))
  }

  /** A success is the last line of the receipt, of the candidate called last, and nothing final came before. */
  ghost predicate Success(q: Request, r: Result<Response, Error>, k: nat, log: Log, tries: seq<Try>) {
    && r.Ok? && Audited(q, k, k, log)
    && log.receipt != [] && log.receipt[|log.receipt| - 1].verdict == Succeeded
    && AllRetryable(q, log.failures) && k !in Numbers(log.failures)
    && k > 0 && Counted(q, log.receipt, log.failures, k - 1) && Lines(log.receipt, k) == r.value.attempts + 1
    && Dispatches(log.events) != [] && Dispatches(log.events)[|Dispatches(log.events)| - 1] == k
    && Won(q, r, k, log.events, tries)
  }

  /** The events end with the tries of candidate `k`, the last of which gave `r`. */
  ghost predicate Won(q: Request, r: Result<Response, Error>, k: nat, events: seq<Event>, tries: seq<Try>) {
    && tries != [] && tries[|tries| - 1].result == r
    && (forall t :: t in tries ==> Happened(t, k, q.maxContinuations))
    && |EventsOf(tries, k)| <= |events| && events[|events| - |EventsOf(tries, k)|..] == EventsOf(tries, k)
  }

  /** A route fails only for a reason: an unready primary, a final error, or because all candidates were
      dealt with or no time is left. */
  ghost predicate Failing(q: Request, r: Result<Response, Error>, k: nat, log: Log) {
    && r.Err? && Audited(q, k, 0, log) && NoSuccess(log.receipt) && Counted(q, log.receipt, log.failures, k)
    && var last := |log.failures| - 1;
      if !PrimaryReady(q, log.events) then
        r.error == Error(NotReady, false, false, 0) && Dispatches(log.events) == [] && k == 1
      else if log.failures == [] then
        r.error == Error(NoRoute, false, false, 0) && Exhausted(q, k, log.events)
      else
        && r.error == log.failures[last].error
        && if Retryable(r.error, log.failures[last].candidate, |q.candidates|) then Exhausted(q, k, log.events)
           else
             && k <= log.failures[last].candidate
             && forall d :: d in Dispatches(log.events) ==> d <= log.failures[last].candidate
  }

  ghost predicate Exhausted(q: Request, k: nat, events: seq<Event>) {
    k == |q.candidates| || (|q.candidates| > 1 && RouteOver(k) in events)
  }

  // ------------------------------------------------------------ receipts grow

  lemma {:induction false} OrderlyCovers(receipt: seq<Entry>, k: nat, n: nat)
    requires Orderly(receipt, k) && 1 <= n <= k
    ensures exists e :: e in receipt && e.candidate == n
    decreases |receipt|
  {
    var last := |receipt| - 1;
    assert receipt[last] in receipt;
    if receipt[last].candidate != n {
      var rest := receipt[..last];
      assert Orderly(rest, receipt[last - 1].candidate);
      OrderlyCovers(rest, receipt[last - 1].candidate, n);
      var e :| e in rest && e.candidate == n;
      assert e in receipt;
    }
  }

  lemma AddEntry(receipt: seq<Entry>, k: nat, e: Entry)
    requires Orderly(receipt, k) && NoSuccess(receipt)
    requires e.candidate == k + 1 || (e.candidate == k && k > 0)
    ensures Orderly(receipt + [e], e.candidate)
    ensures e.verdict != Succeeded ==> NoSuccess(receipt + [e])
  {
    if receipt != [] { assert receipt[|receipt| - 1] in receipt; }
    forall i | 0 <= i < |receipt|
      ensures (receipt + [e])[i].verdict != Succeeded
    {
      assert receipt[i] in receipt;
    }
  }

  lemma LinesOneMore(receipt: seq<Entry>, e: Entry, number: nat)
    ensures Lines(receipt + [e], number) == Lines(receipt, number) + if e.candidate == number then 1 else 0
  {
    assert (receipt + [e])[..|receipt|] == receipt;
  }

  lemma {:induction false} UpTo(receipt: seq<Entry>, k: nat, i: nat)
    requires Orderly(receipt, k) && i < |receipt|
    ensures receipt[i].candidate <= k
    decreases |receipt| - i
  {
    if i < |receipt| - 1 {
      UpTo(receipt, k, i + 1);
    }
  }

  lemma {:induction false} NotAmong(receipt: seq<Entry>, number: nat)
    requires forall i :: 0 <= i < |receipt| ==> receipt[i].candidate != number
    ensures Lines(receipt, number) == 0
  {
    if receipt != [] {
      NotAmong(receipt[..|receipt| - 1], number);
    }
  }

  lemma NoLines(receipt: seq<Entry>, k: nat, number: nat)
    requires Orderly(receipt, k) && number > k
    ensures Lines(receipt, number) == 0
  {
    hide Orderly;
    forall i | 0 <= i < |receipt|
      ensures receipt[i].candidate != number
    {
      UpTo(receipt, k, i);
    }
    NotAmong(receipt, number);
  }

  /** `longer` has `count` more lines, all about candidate `number`. */
  ghost predicate Longer(receipt: seq<Entry>, longer: seq<Entry>, number: nat, count: nat) {
    forall n :: Lines(longer, n) == Lines(receipt, n) + if n == number then count else 0
  }

  lemma LongerByOne(receipt: seq<Entry>, longer: seq<Entry>, number: nat, count: nat, e: Entry)
    requires Longer(receipt, longer, number, count) && e.candidate == number
    ensures Longer(receipt, longer + [e], number, count + 1)
  {
    hide Lines;
    forall n
      ensures Lines(longer + [e], n) == Lines(receipt, n) + if n == number then count + 1 else 0
    {
      LinesOneMore(longer, e, n);
    }
  }

  lemma NotLonger(receipt: seq<Entry>, number: nat)
    ensures Longer(receipt, receipt, number, 0)
  {
  }

  lemma CountRejected(q: Request, receipt: seq<Entry>, failures: seq<Failure>, done: nat, e: Entry)
    requires Counted(q, receipt, failures, done) && Orderly(receipt, done) && e.candidate == done + 1
    requires forall n :: n in Numbers(failures) ==> n <= done
    ensures Counted(q, receipt + [e], failures, done + 1)
  {
    NoLines(receipt, done, done + 1);
    hide Lines, Orderly, Told;
    forall n
      ensures Lines(receipt + [e], n) == Lines(receipt, n) + if n == done + 1 then 1 else 0
    {
      LinesOneMore(receipt, e, n);
    }
    assert forall f :: f in failures ==> f.candidate in Numbers(failures);
  }

  lemma CountFailed(q: Request, receipt: seq<Entry>, longer: seq<Entry>, failures: seq<Failure>, done: nat, f: Failure)
    requires Counted(q, receipt, failures, done) && Orderly(receipt, done)
    requires 1 <= f.candidate <= |q.candidates| && f.candidate == done + 1
    requires Longer(receipt, longer, done + 1, Told(q, f))
    requires forall n :: n in Numbers(failures) ==> n <= done
    ensures Counted(q, longer, failures + [f], done) && Counted(q, longer, failures + [f], done + 1)
  {
    NoLines(receipt, done, done + 1);
    hide Lines, Orderly, Told;
    assert f in failures + [f] && forall g :: g in failures ==> g in failures + [f] && g.candidate in Numbers(failures);
    assert f.candidate in Numbers(failures + [f]);
    assert forall n :: n in Numbers(failures) ==> n in Numbers(failures + [f]);
  }

  lemma CountSelected(q: Request, receipt: seq<Entry>, longer: seq<Entry>, failures: seq<Failure>, done: nat,
                      count: nat)
    requires Counted(q, receipt, failures, done) && Orderly(receipt, done)
    requires Longer(receipt, longer, done + 1, count) && forall n :: n in Numbers(failures) ==> n <= done
    ensures Counted(q, longer, failures, done) && Lines(longer, done + 1) == count
  {
    NoLines(receipt, done, done + 1);
    hide Lines, Orderly, Told;
    assert forall g :: g in failures ==> g.candidate in Numbers(failures);
  }

  /** Lines stay explained when more happens. */
  lemma StillExplained(q: Request, log: Log, events: seq<Event>, failures: seq<Failure>)
    requires AllExplained(q, log) && log.events <= events && log.failures <= failures
    ensures AllExplained(q, Log(log.receipt, events, failures))
  {
    forall e | e in log.receipt
      ensures Explained(q, e, events, failures)
    {
      assert Explained(q, e, log.events, log.failures);
      assert forall f :: f in log.failures ==> f in failures;
      assert forall v :: v in log.events ==> v in events;
    }
  }

  lemma OneMoreLine(q: Request, log: Log, e: Entry)
    requires AllExplained(q, log) && Explained(q, e, log.events, log.failures)
    ensures AllExplained(q, log.(receipt := log.receipt + [e]))
  {
    hide Explained;
  }

  // ------------------------------------------------------ one candidate turned down

  lemma StillRecorded(q: Request, log: Log, more: seq<Event>, number: nat)
    requires Recorded(q, log.events, log.failures) && (forall e :: e in more ==> e.number == number)
    requires forall n :: n in Numbers(log.failures) ==> n < number
    ensures Recorded(q, log.events + more, log.failures)
  {
    var events := log.events + more;
    forall i | 0 <= i < |log.failures|
      ensures Reports(log.failures[i], events)
    {
      var f := log.failures[i];
      assert Reports(f, log.events) && f in log.failures && f.candidate in Numbers(log.failures);
      forall j | f.at < j < |events|
        ensures !(events[j].Answer? && events[j].number == f.candidate)
      {
        if j >= |log.events| {
          assert events[j] in more;
        }
      }
    }
  }

  /** Nothing is sent by events that are no answers. */
  lemma {:induction false} NothingSent(events: seq<Event>, more: seq<Event>)
    requires forall e :: e in more ==> !e.Answer?
    ensures Dispatches(events + more) == Dispatches(events)
  {
    if more == [] {
      assert events + more == events;
    } else {
      var init, e := more[..|more| - 1], more[|more| - 1];
      NothingSent(events, init);
      NotSent(events + init, e);
      assert events + more == events + init + [e];
    }
  }

  lemma StillAccounted(q: Request, log: Log, more: seq<Event>)
    requires Accounted(q, log.events, log.failures, 0) && Dispatches(log.events + more) == Dispatches(log.events)
    ensures Accounted(q, log.events + more, log.failures, 0)
  {
    hide Dispatches;
  }

  lemma BoundGrows(done: nat, maxContinuations: nat)
    ensures done * Bound(maxContinuations) + Bound(maxContinuations) == (done + 1) * Bound(maxContinuations)
  {
    hide Bound;
  }

  /** A candidate is turned down without being called. */
  lemma RejectCandidate(q: Request, done: nat, log: Log, more: seq<Event>, e: Entry)
    requires Between(q, done, log) && done < |q.candidates|
    requires forall v :: v in more ==> v.number == done + 1 && !v.Answer?
    requires PrimaryReady(q, log.events + more)
    requires e.candidate == done + 1 && e.verdict == Rejected && Explained(q, e, log.events + more, log.failures)
    ensures Between(q, done + 1, Log(log.receipt + [e], log.events + more, log.failures))
  {
    hide Explained, Orderly, NoSuccess, Lawful, Recorded, AllRetryable, AllExplained, Accounted, PrimaryReady, Numbers,
         Bound, Counted;
    AddEntry(log.receipt, done, e);
    CountRejected(q, log.receipt, log.failures, done, e);
    StillExplained(q, log, log.events + more, log.failures);
    OneMoreLine(q, Log(log.receipt, log.events + more, log.failures), e);
    StillRecorded(q, log, more, done + 1);
    NothingSent(log.events, more);
    StillAccounted(q, log, more);
    BoundGrows(done, q.maxContinuations);
  }

  // ----------------------------------------------------------- one candidate called

  /** Calls to one later candidate that no rule bars keep all calls lawful. */
  lemma CallsAreLawful(q: Request, dispatches: seq<nat>, block: seq<nat>, number: nat)
    requires Lawful(q, dispatches) && |block| <= Bound(q.maxContinuations) && forall d :: d in block ==> d == number
    requires 1 <= number <= |q.candidates| && Barred(q, number) == None
    requires forall d :: d in dispatches ==> d < number
    ensures Lawful(q, dispatches + block) && forall d :: d in dispatches + block ==> d <= number
  {
    hide Barred, Bound;
    var longer := dispatches + block;
    assert forall i :: 0 <= i < |dispatches| ==> dispatches[i] in dispatches;
    assert forall i :: 0 <= i < |block| ==> block[i] in block;
    forall n
      ensures multiset(longer)[n] <= Bound(q.maxContinuations)
    {
      assert multiset(longer) == multiset(dispatches) + multiset(block);
      if n == number {
        assert n !in dispatches;
        CountWithin(block, n);
      } else {
        assert n !in block;
      }
    }
  }

  lemma {:induction false} CountWithin(s: seq<nat>, n: nat)
    ensures multiset(s)[n] <= |s|
  {
    if s != [] {
      CountWithin(s[..|s| - 1], n);
      assert s == s[..|s| - 1] + [s[|s| - 1]];
    }
  }

  /** The events about a candidate that was found usable and called. */
  ghost predicate CalledBlock(q: Request, block: seq<Event>, number: nat, at: nat, r: Result<Response, Error>) {
    && (forall e :: e in block ==> e.number == number && e != Decision(1, Unready))
    && Decision(number, Usable) in block && (|q.candidates| > 1 ==> RouteLeft(number) in block)
    && |Dispatches(block)| <= Bound(q.maxContinuations)
    && LastAnswer(block, at, number) && Settles(block[at], r)
  }

  lemma NowAccounted(q: Request, log: Log, block: seq<Event>, number: nat)
    requires Accounted(q, log.events, log.failures, 0) && 0 !in Dispatches(log.events)
    requires Decision(number, Usable) in block
    requires forall e :: e in block ==> e.number == number
    requires |q.candidates| > 1 ==> RouteLeft(number) in block
    ensures Accounted(q, log.events + block, log.failures, number)
  {
    DispatchesJoin(log.events, block);
    DispatchesOf(block, number);
    hide Dispatches;
  }

  /** After the calls to the next candidate everything but its own outcome is in order. */
  lemma NextCandidate(q: Request, done: nat, log: Log, block: seq<Event>, at: nat, r: Result<Response, Error>)
    requires Between(q, done, log) && done < |q.candidates| && Barred(q, done + 1) == None
    requires CalledBlock(q, block, done + 1, at, r)
    ensures var events := log.events + block;
      && Lawful(q, Dispatches(events)) && |Dispatches(events)| <= (done + 1) * Bound(q.maxContinuations)
      && (forall d :: d in Dispatches(events) ==> d <= done + 1)
      && Recorded(q, events, log.failures) && AllExplained(q, log.(events := events))
      && Accounted(q, events, log.failures, done + 1) && PrimaryReady(q, events)
  {
    hide Explained, Orderly, NoSuccess, Recorded, AllRetryable, AllExplained, Accounted, Bound, Barred, Settles,
         LastAnswer, Counted;
    DispatchesJoin(log.events, block);
    DispatchesOf(block, done + 1);
    CallsAreLawful(q, Dispatches(log.events), Dispatches(block), done + 1);
    BoundGrows(done, q.maxContinuations);
    NoZero(q, Dispatches(log.events));
    hide Lawful, Dispatches;
    StillRecorded(q, log, block, done + 1);
    StillExplained(q, log, log.events + block, log.failures);
    NowAccounted(q, log, block, done + 1);
  }

  lemma NoZero(q: Request, dispatches: seq<nat>)
    requires Lawful(q, dispatches)
    ensures 0 !in dispatches
  {
  }

  /** The failure that a fruitless call is recorded as. */
  lemma OneMoreFailure(q: Request, log: Log, block: seq<Event>, number: nat, at: nat, e: Error)
    requires Recorded(q, log.events + block, log.failures) && CalledBlock(q, block, number, at, Err(e))
    requires 1 <= number <= |q.candidates| && forall n :: n in Numbers(log.failures) ==> n < number
    ensures var f := Failure(number, e, |log.events| + at);
      && Recorded(q, log.events + block, log.failures + [f])
      && Numbers(log.failures + [f]) == Numbers(log.failures) + {number}
  {
    hide Dispatches, Settles, Bound;
    var f := Failure(number, e, |log.events| + at);
    var events := log.events + block;
    assert events[f.at] == block[at];
    assert Reports(f, events) by {
      forall i | f.at < i < |events|
        ensures !(events[i].Answer? && events[i].number == number)
      {
        assert events[i] == block[i - |log.events|];
      }
    }
    forall i | 0 <= i < |log.failures|
      ensures log.failures[i].candidate < number
    {
      assert log.failures[i] in log.failures && log.failures[i].candidate in Numbers(log.failures);
    }
  }

  lemma FailureAccounted(q: Request, log: Log, f: Failure)
    requires Accounted(q, log.events, log.failures, f.candidate)
    ensures Accounted(q, log.events, log.failures + [f], 0)
  {
    var more := log.failures + [f];
    assert f in more;
    assert forall g :: g in log.failures ==> g in more;
    hide Dispatches;
  }

  // ---------------------------------------------------------------- the methods

  lemma AtBegin(q: Request)
    ensures Between(q, 0, Log([], [], []))
  {
    hide Bound, Barred, Explained, Reports, Retryable;
  }

  /** `count` lines about one candidate. */
  method Repeat(q: Request, receipt: seq<Entry>, ghost k: nat, e: Entry, count: nat, ghost events: seq<Event>,
                ghost failures: seq<Failure>) returns (longer: seq<Entry>, ghost k': nat)
    requires Orderly(receipt, k) && NoSuccess(receipt) && AllExplained(q, Log(receipt, events, failures))
    requires e.verdict != Succeeded && e.candidate == k + 1 && (count > 0 ==> Explained(q, e, events, failures))
    ensures k' == (if count == 0 then k else k + 1)
    ensures Orderly(longer, k') && NoSuccess(longer) && AllExplained(q, Log(longer, events, failures))
    ensures Longer(receipt, longer, e.candidate, count)
  {
    hide *;
    longer, k' := receipt, k;
    NotLonger(receipt, e.candidate);
    for i := 0 to count
      invariant k' == (if i == 0 then k else k + 1)
      invariant Orderly(longer, k') && NoSuccess(longer) && AllExplained(q, Log(longer, events, failures))
      invariant Longer(receipt, longer, e.candidate, i)
    {
      LongerByOne(receipt, longer, e.candidate, i, e);
      AddEntry(longer, k', e);
      OneMoreLine(q, Log(longer, events, failures), e);
      longer, k' := longer + [e], e.candidate;
    }
  }

  /** What precedes the calls of a candidate: it was found usable, and if there are others, time is left. */
  ghost function Start(q: Request, number: nat): (start: seq<Event>)
    ensures forall e :: e in start ==> e.number == number && !e.Answer? && e != Decision(1, Unready)
    ensures Decision(number, Usable) in start && (|q.candidates| > 1 ==> RouteLeft(number) in start)
  {
    if |q.candidates| > 1 then [Decision(number, Usable), RouteLeft(number)] else [Decision(number, Usable)]
  }

  lemma DecisionFirst(q: Request, number: nat, calls: seq<Event>, at: nat)
    requires forall e :: e in calls ==> e.number == number && (e.Answer? || e.NoTime?)
    requires LastAnswer(calls, at, number)
    ensures var block, later := Start(q, number) + calls, at + |Start(q, number)|;
      && LastAnswer(block, later, number) && block[later] == calls[at]
      && Dispatches(block) == Dispatches(calls)
      && (forall e :: e in block ==> e.number == number && e != Decision(1, Unready))
      && Decision(number, Usable) in block && (|q.candidates| > 1 ==> RouteLeft(number) in block)
  {
    hide Start, Dispatches;
    var start := Start(q, number);
    var block := start + calls;
    assert forall i :: |start| <= i < |block| ==> block[i] == calls[i - |start|];
    DispatchesJoin(start, calls);
    NothingSent([], start);
    assert [] + start == start;
    NoDispatches();
  }

  lemma NoDispatches()
    ensures Dispatches([]) == []
  {
  }

  lemma CallsOf(number: nat, tries: seq<Try>, maxContinuations: nat, ranOut: bool)
    requires forall t :: t in tries ==> Happened(t, number, maxContinuations)
    ensures var calls := EventsOf(tries, number) + if ranOut then [NoTime(number)] else [];
      && |Dispatches(calls)| <= |tries| * (1 + maxContinuations)
      && forall e :: e in calls ==> e.number == number && (e.Answer? || e.NoTime?)
  {
    hide *;
    TriesAreBounded(tries, number, maxContinuations);
    NotSent(EventsOf(tries, number), NoTime(number));
    assert EventsOf(tries, number) + [] == EventsOf(tries, number);
    TimeIsNotSent(number);
  }

  lemma TimeIsNotSent(number: nat)
    ensures !Sent(NoTime(number))
  {
  }

  /** The block of events of a candidate: the decision, then its calls. */
  lemma CandidateCalled(q: Request, number: nat, tries: seq<Try>, ranOut: bool) returns (at: nat)
    requires tries != [] && |tries| <= 2
    requires forall t :: t in tries ==> Happened(t, number, q.maxContinuations)
    ensures var calls := EventsOf(tries, number) + if ranOut then [NoTime(number)] else [];
      CalledBlock(q, Start(q, number) + calls, number, at, tries[|tries| - 1].result)
  {
    hide EventsOf, Happened, Settles, LastAnswer, Dispatches, Bound;
    var calls := EventsOf(tries, number) + if ranOut then [NoTime(number)] else [];
    CallsOf(number, tries, q.maxContinuations, ranOut);
    at := TrySettles(tries, number, q.maxContinuations, ranOut);
    TriesWithinBound(|tries|, q.maxContinuations);
    DecisionFirst(q, number, calls, at);
    at := at + |Start(q, number)|;
  }

  lemma TriesWithinBound(tries: nat, maxContinuations: nat)
    requires tries <= 2
    ensures tries * (1 + maxContinuations) <= Bound(maxContinuations)
  {
  }

  lemma FailureLine(q: Request, number: nat, e: Error, events: seq<Event>, failures: seq<Failure>, f: Failure)
    requires 1 <= number <= |q.candidates| && Barred(q, number) == None && f.candidate == number && f.error == e
    ensures Explained(q, Entry(number, if e.local then Rejected else Unsuccessful, FailedCall(e.local)), events,
                      failures + [f])
  {
    assert f in failures + [f];
  }

  lemma OneMoreRetryable(q: Request, failures: seq<Failure>, f: Failure)
    requires AllRetryable(q, failures)
    ensures AllRetryable(q, (failures + [f])[..|failures + [f]| - 1])
    ensures Retryable(f.error, f.candidate, |q.candidates|) ==> AllRetryable(q, failures + [f])
  {
    hide Retryable;
    assert (failures + [f])[..|failures + [f]| - 1] == failures;
  }

  /** A fruitless call, before its lines are added to the receipt. */
  lemma AfterFailure(q: Request, done: nat, log: Log, block: seq<Event>, at: nat, e: Error)
    requires Between(q, done, log) && done < |q.candidates| && Barred(q, done + 1) == None
    requires CalledBlock(q, block, done + 1, at, Err(e))
    ensures var events, f := log.events + block, Failure(done + 1, e, |log.events| + at);
      var failures := log.failures + [f];
      && Lawful(q, Dispatches(events)) && |Dispatches(events)| <= (done + 1) * Bound(q.maxContinuations)
      && (forall d :: d in Dispatches(events) ==> d <= done + 1)
      && Recorded(q, events, failures) && AllExplained(q, Log(log.receipt, events, failures))
      && Accounted(q, events, failures, 0) && PrimaryReady(q, events)
      && (forall n :: n in Numbers(failures) ==> n <= done + 1)
      && AllRetryable(q, failures[..|failures| - 1])
      && (Retryable(e, done + 1, |q.candidates|) ==> AllRetryable(q, failures))
      && Explained(q, Entry(done + 1, if e.local then Rejected else Unsuccessful, FailedCall(e.local)), events,
                   failures)
  {
    hide *;
    var events, f := log.events + block, Failure(done + 1, e, |log.events| + at);
    var failures := log.failures + [f];
    BetweenReceipt(q, done, log);
    NextCandidate(q, done, log, block, at, Err(e));
    OneMoreFailure(q, log, block, done + 1, at, e);
    FailureAccounted(q, log.(events := events), f);
    StillExplained(q, log.(events := events), events, failures);
    FailureLine(q, done + 1, e, events, log.failures, f);
    OneMoreRetryable(q, log.failures, f);
  }

  /** A route that ends with the failure of the candidate called last. */
  lemma FinalFailure(q: Request, e: Error, number: nat, k: nat, log: Log)
    requires 1 <= number <= |q.candidates| && k <= number
    requires Orderly(log.receipt, k) && NoSuccess(log.receipt) && AllExplained(q, log)
    requires Counted(q, log.receipt, log.failures, k)
    requires Lawful(q, Dispatches(log.events)) && |Dispatches(log.events)| <= number * Bound(q.maxContinuations)
    requires forall d :: d in Dispatches(log.events) ==> d <= number
    requires Recorded(q, log.events, log.failures) && Accounted(q, log.events, log.failures, 0)
    requires PrimaryReady(q, log.events)
    requires log.failures != [] && AllRetryable(q, log.failures[..|log.failures| - 1])
    requires log.failures[|log.failures| - 1].candidate == number && log.failures[|log.failures| - 1].error == e
    requires !Retryable(e, number, |q.candidates|)
    ensures Failing(q, Err(e), k, log)
  {
    hide Orderly, NoSuccess, AllExplained, Lawful, Dispatches, Recorded, Accounted, PrimaryReady, AllRetryable,
         Retryable, Bound, Counted;
    MulMono(number, |q.candidates|, Bound(q.maxContinuations));
  }

  lemma MulMono(a: nat, b: nat, c: nat)
    requires a <= b
    ensures a * c <= b * c
  {
  }

  /** A route that ends between two candidates. */
  lemma FailingBetween(q: Request, e: Error, done: nat, log: Log)
    requires Between(q, done, log) && done <= |q.candidates| && Exhausted(q, done, log.events)
    requires if log.failures == [] then e == Error(NoRoute, false, false, 0)
             else e == log.failures[|log.failures| - 1].error
    ensures Failing(q, Err(e), done, log)
  {
    var last := |log.failures| - 1;
    if log.failures != [] {
      assert Retryable(e, log.failures[last].candidate, |q.candidates|);
    }
    assert AllRetryable(q, log.failures) ==> (log.failures != [] ==> AllRetryable(q, log.failures[..last]));
    MulMono(done, |q.candidates|, Bound(q.maxContinuations));
    hide Orderly, NoSuccess, AllExplained, Lawful, Dispatches, Recorded, Accounted, PrimaryReady, AllRetryable,
         Retryable, Bound, Exhausted, Counted;
  }

  lemma FinalOrNot(e: Error, number: nat, count: nat)
    ensures Retryable(e, number, count)
       <==> e.cls != Foreign && (e.transient || (e.cls in {IncompleteResponse, InvalidResponse} && number < count))
  {
  }

  lemma BetweenReceipt(q: Request, done: nat, log: Log)
    requires Between(q, done, log)
    ensures Orderly(log.receipt, done) && NoSuccess(log.receipt)
    ensures Counted(q, log.receipt, log.failures, done)
    ensures AllRetryable(q, log.failures) && forall n :: n in Numbers(log.failures) ==> n <= done
  {
    hide Orderly, NoSuccess, AllExplained, Lawful, Recorded, AllRetryable, Accounted, PrimaryReady, Numbers, Counted;
  }

  lemma NowBetween(q: Request, done: nat, log: Log)
    requires Orderly(log.receipt, done) && NoSuccess(log.receipt) && AllExplained(q, log)
    requires Counted(q, log.receipt, log.failures, done)
    requires Lawful(q, Dispatches(log.events)) && |Dispatches(log.events)| <= done * Bound(q.maxContinuations)
    requires forall d :: d in Dispatches(log.events) ==> d <= done
    requires Recorded(q, log.events, log.failures) && AllRetryable(q, log.failures)
    requires forall n :: n in Numbers(log.failures) ==> n <= done
    requires Accounted(q, log.events, log.failures, 0) && PrimaryReady(q, log.events)
    ensures Between(q, done, log)
  {
    hide Orderly, NoSuccess, AllExplained, Lawful, Recorded, AllRetryable, Accounted, PrimaryReady, Numbers, Dispatches,
         Bound, Counted;
  }

  // --------------------------------------------------------------------- success

  lemma {:induction false} SentIsDispatched(events: seq<Event>, at: nat)
    requires at < |events| && Sent(events[at])
    ensures Dispatches(events) != []
  {
    if at < |events| - 1 {
      SentIsDispatched(events[..|events| - 1], at);
    }
  }

  lemma CalledLast(events: seq<Event>, block: seq<Event>, number: nat, at: nat, r: Result<Response, Error>)
    requires (forall e :: e in block ==> e.number == number) && at < |block| && Settles(block[at], r) && r.Ok?
    ensures var dispatches := Dispatches(events + block);
      dispatches != [] && dispatches[|dispatches| - 1] == number
  {
    SentIsDispatched(block, at);
    DispatchesJoin(events, block);
    DispatchesOf(block, number);
    hide Dispatches;
    assert Dispatches(block)[|Dispatches(block)| - 1] in Dispatches(block);
  }

  lemma BlockParts(q: Request, block: seq<Event>, number: nat, at: nat, r: Result<Response, Error>)
    requires CalledBlock(q, block, number, at, r)
    ensures (forall e :: e in block ==> e.number == number) && at < |block| && Settles(block[at], r)
  {
    hide Settles, Dispatches, Bound;
  }

  /** The tries of a candidate are the end of the events. */
  lemma WonAtTheEnd(q: Request, r: Result<Response, Error>, number: nat, before: seq<Event>, tries: seq<Try>)
    requires tries != [] && tries[|tries| - 1].result == r
    requires forall t :: t in tries ==> Happened(t, number, q.maxContinuations)
    ensures Won(q, r, number, before + EventsOf(tries, number), tries)
  {
    hide Happened, EventsOf;
  }

  lemma AttemptLine(q: Request, number: nat, events: seq<Event>, failures: seq<Failure>)
    requires 1 <= number <= |q.candidates| && Barred(q, number) == None
    ensures q.candidates[number - 1].trusted ==>
      Explained(q, Entry(number, Unsuccessful, FailedAttempt), events, failures)
    ensures Explained(q, Entry(number, Succeeded, Selected), events, failures)
  {
  }

  lemma Selects(q: Request, r: Result<Response, Error>, number: nat, log: Log, tries: seq<Try>)
    requires r.Ok? && 1 <= number <= |q.candidates| && Orderly(log.receipt, number) && AllExplained(q, log)
    requires log.receipt != [] && log.receipt[|log.receipt| - 1].verdict == Succeeded
    requires Lawful(q, Dispatches(log.events)) && |Dispatches(log.events)| <= number * Bound(q.maxContinuations)
    requires Recorded(q, log.events, log.failures) && Accounted(q, log.events, log.failures, number)
    requires AllRetryable(q, log.failures) && forall n :: n in Numbers(log.failures) ==> n < number
    requires Dispatches(log.events) != [] && Dispatches(log.events)[|Dispatches(log.events)| - 1] == number
    requires Won(q, r, number, log.events, tries)
    requires Counted(q, log.receipt, log.failures, number - 1) && Lines(log.receipt, number) == r.value.attempts + 1
    ensures Success(q, r, number, log, tries)
  {
    hide *;
    AllButLast(q, log.failures);
    MulMono(number, |q.candidates|, Bound(q.maxContinuations));
    AuditedNow(q, number, number, log);
    SuccessNow(q, r, number, log, tries);
  }

  lemma AllButLast(q: Request, failures: seq<Failure>)
    requires AllRetryable(q, failures)
    ensures failures != [] ==> AllRetryable(q, failures[..|failures| - 1])
  {
    hide Retryable;
  }

  lemma AuditedNow(q: Request, k: nat, winner: nat, log: Log)
    requires k <= |q.candidates| && Orderly(log.receipt, k) && AllExplained(q, log)
    requires Lawful(q, Dispatches(log.events))
    requires |Dispatches(log.events)| <= |q.candidates| * Bound(q.maxContinuations)
    requires Recorded(q, log.events, log.failures) && Accounted(q, log.events, log.failures, winner)
    requires log.failures != [] ==> AllRetryable(q, log.failures[..|log.failures| - 1])
    ensures Audited(q, k, winner, log)
  {
    hide Orderly, AllExplained, Lawful, Dispatches, Recorded, Accounted, AllRetryable, Bound;
  }

  lemma SuccessNow(q: Request, r: Result<Response, Error>, k: nat, log: Log, tries: seq<Try>)
    requires r.Ok? && k > 0 && Audited(q, k, k, log)
    requires log.receipt != [] && log.receipt[|log.receipt| - 1].verdict == Succeeded
    requires AllRetryable(q, log.failures) && forall n :: n in Numbers(log.failures) ==> n < k
    requires Counted(q, log.receipt, log.failures, k - 1) && Lines(log.receipt, k) == r.value.attempts + 1
    requires Dispatches(log.events) != [] && Dispatches(log.events)[|Dispatches(log.events)| - 1] == k
    requires Won(q, r, k, log.events, tries)
    ensures Success(q, r, k, log, tries)
  {
    hide Audited, Dispatches, AllRetryable, Won, Numbers, Counted, Lines;
  }

  /** The lines of a candidate that answered: the attempts that failed before, then the success. */
  method SuccessLines(q: Request, number: nat, receipt: seq<Entry>, attempts: nat, ghost log: Log,
                      ghost block: seq<Event>, ghost at: nat, ghost r: Result<Response, Error>, ghost tries: seq<Try>)
    returns (longer: seq<Entry>)
    requires 1 <= number <= |q.candidates| && Barred(q, number) == None
    requires Between(q, number - 1, log) && log.receipt == receipt && r.Ok? && attempts == r.value.attempts
    requires !q.candidates[number - 1].trusted ==> attempts == 0
    requires CalledBlock(q, block, number, at, r) && Won(q, r, number, log.events + block, tries)
    ensures Success(q, r, number, Log(longer, log.events + block, log.failures), tries)
  {
    hide *;
    ghost var events := log.events + block;
    NextCandidate(q, number - 1, log, block, at, r);
    BetweenReceipt(q, number - 1, log);
    BlockParts(q, block, number, at, r);
    CalledLast(log.events, block, number, at, r);
    AttemptLine(q, number, events, log.failures);
    ghost var k;
    var selected := Entry(number, Succeeded, Selected);
    longer, k := Repeat(q, receipt, number - 1, Entry(number, Unsuccessful, FailedAttempt), attempts, events,
                        log.failures);
    AddEntry(longer, k, selected);
    OneMoreLine(q, Log(longer, events, log.failures), selected);
    LongerByOne(receipt, longer, number, attempts, selected);
    longer := longer + [selected];
    CountSelected(q, receipt, longer, log.failures, number - 1, attempts + 1);
    Selects(q, r, number, Log(longer, events, log.failures), tries);
  }

  // --------------------------------------------------------------------- the route

  /** The candidate `number` was found usable and is called: success and final errors end the route. */
  method Call(outside: Outside, q: Request, number: nat, receipt: seq<Entry>, ghost events: seq<Event>,
              ghost failures: seq<Failure>)
    returns (decided: bool, r: Result<Response, Error>, receipt': seq<Entry>, ghost failures': seq<Failure>,
             ghost k: nat, ghost tries: seq<Try>)
    requires 1 <= number <= |q.candidates| && Barred(q, number) == None
    requires Between(q, number - 1, Log(receipt, events, failures))
    requires outside.events == events + Start(q, number)
    modifies outside
    ensures decided && r.Ok? ==> k == number && Success(q, r, k, Log(receipt', outside.events, failures'), tries)
    ensures decided && r.Err? ==> Failing(q, r, k, Log(receipt', outside.events, failures'))
    ensures !decided ==>
      && r.Err? && Between(q, number, Log(receipt', outside.events, failures'))
      && failures' != [] && failures'[|failures'| - 1].error == r.error
  {
    hide *;
    var trusted := q.candidates[number - 1].trusted;
    ghost var ranOut;
    r, tries, ranOut := TryCandidate(outside, number, q.maxContinuations, trusted);
    ghost var at := CandidateCalled(q, number, tries, ranOut);
    ghost var block := Start(q, number) + (EventsOf(tries, number) + if ranOut then [NoTime(number)] else []);
    assert outside.events == events + block;
    ghost var log := Log(receipt, events, failures);
    k := number;
    if r.Ok? {
      failures' := failures;
      assert events + block == events + Start(q, number) + EventsOf(tries, number);
      WonAtTheEnd(q, r, number, events + Start(q, number), tries);
      receipt' := SuccessLines(q, number, receipt, r.value.attempts, log, block, at, r, tries);
      return true, r, receipt', failures', k, tries;
    }
    var e := r.error;
    AfterFailure(q, number - 1, log, block, at, e);
    failures' := failures + [Failure(number, e, |events| + at)];
    if e.cls == Foreign {
      receipt' := receipt;
      k := number - 1;
      FinalOrNot(e, number, |q.candidates|);
      BetweenReceipt(q, number - 1, log);
      NotLonger(receipt, number);
      TellsNothing(q, failures'[|failures|]);
      CountFailed(q, receipt, receipt, failures, k, failures'[|failures|]);
      FinalFailure(q, e, number, k, Log(receipt', outside.events, failures'));
      return true, r, receipt', failures', k, tries;
    }
    var retryable := e.transient || (e.cls in {IncompleteResponse, InvalidResponse} && number < |q.candidates|);
    var reported := if trusted then e.attempts else 0;
    BetweenReceipt(q, number - 1, log);
    ghost var done;
    receipt', done := Repeat(q, receipt, number - 1,
                             Entry(number, if e.local then Rejected else Unsuccessful, FailedCall(e.local)),
                             if e.local || reported == 0 then 1 else reported, outside.events, failures');
    FinalOrNot(e, number, |q.candidates|);
    Tells(q, failures'[|failures|]);
    CountFailed(q, receipt, receipt', failures, number - 1, failures'[|failures|]);
    decided := !retryable;
    if decided {
      FinalFailure(q, e, number, k, Log(receipt', outside.events, failures'));
    } else {
      NowBetween(q, number, Log(receipt', outside.events, failures'));
    }
  }

  lemma TellsNothing(q: Request, f: Failure)
    requires 1 <= f.candidate <= |q.candidates| && f.error.cls == Foreign
    ensures Told(q, f) == 0
  {
  }

  lemma Tells(q: Request, f: Failure)
    requires 1 <= f.candidate <= |q.candidates| && f.error.cls != Foreign
    ensures var reported := if q.candidates[f.candidate - 1].trusted then f.error.attempts else 0;
      Told(q, f) == if f.error.local || reported == 0 then 1 else reported
  {
  }

  lemma BarredLine(q: Request, number: nat, events: seq<Event>, failures: seq<Failure>)
    requires 1 <= number <= |q.candidates| && Barred(q, number).Some?
    ensures Explained(q, Entry(number, Rejected, Barred(q, number).value), events, failures)
  {
  }

  lemma UnusableLine(q: Request, number: nat, choice: Choice, events: seq<Event>, failures: seq<Failure>)
    requires 1 <= number <= |q.candidates| && Barred(q, number) == None && choice != Usable
    ensures Explained(q, Entry(number, Rejected, NotUsable), events + [Decision(number, choice)], failures)
  {
    hide Barred;
    assert Decision(number, choice) in events + [Decision(number, choice)];
  }

  lemma LateLine(q: Request, number: nat, events: seq<Event>, failures: seq<Failure>)
    requires 1 <= number <= |q.candidates| && Barred(q, number) == None
    requires |q.candidates| > 1 && RouteOver(number) in events
    ensures Explained(q, Entry(number, Rejected, OutOfTime), events, failures) && Exhausted(q, number, events)
  {
  }

  lemma StillReady(q: Request, done: nat, log: Log, more: seq<Event>)
    requires Between(q, done, log) && (|q.candidates| > 1 ==> Decision(1, Unready) !in more)
    ensures PrimaryReady(q, log.events + more)
  {
    hide Orderly, NoSuccess, AllExplained, Lawful, Recorded, AllRetryable, Accounted, Numbers, Dispatches, Bound,
         Counted;
  }

  /** A primary that is not ready ends the route before anything was called. */
  lemma UnreadyPrimary(q: Request, e: Error, log: Log)
    requires Between(q, 0, log) && |q.candidates| > 1 && Barred(q, 1) == None
    requires e == Error(NotReady, false, false, 0)
    ensures Failing(q, Err(e), 1,
                    Log(log.receipt + [Entry(1, Rejected, NotUsable)], log.events + [Decision(1, Unready)],
                        log.failures))
  {
    hide *;
    var more, line := [Decision(1, Unready)], Entry(1, Rejected, NotUsable);
    var later := Log(log.receipt + [line], log.events + more, log.failures);
    NothingYet(q, log);
    AddEntry(log.receipt, 0, line);
    NoNumbers();
    CountRejected(q, log.receipt, [], 0, line);
    UnusableLine(q, 1, Unready, log.events, log.failures);
    StillExplained(q, log, later.events, log.failures);
    OneMoreLine(q, Log(log.receipt, later.events, log.failures), line);
    NothingSent(log.events, more);
    UnreadyIsFinal(q, e, later);
  }

  lemma NothingYet(q: Request, log: Log)
    requires Between(q, 0, log)
    ensures Orderly(log.receipt, 0) && NoSuccess(log.receipt) && AllExplained(q, log)
    ensures Dispatches(log.events) == [] && log.failures == [] && Counted(q, log.receipt, [], 0)
  {
    hide Counted, Orderly, NoSuccess, AllExplained, Lawful, AllRetryable, Accounted, PrimaryReady, Dispatches,
         Reports, Bound;
    FirstNumber(log.failures);
  }

  lemma NoNumbers()
    ensures Numbers([]) == {}
  {
  }

  lemma FirstNumber(failures: seq<Failure>)
    ensures failures != [] ==> failures[0].candidate in Numbers(failures)
  {
    if failures != [] {
      assert failures[0] in failures;
    }
  }

  lemma UnreadyIsFinal(q: Request, e: Error, log: Log)
    requires |q.candidates| > 1 && Decision(1, Unready) in log.events
    requires e == Error(NotReady, false, false, 0)
    requires Orderly(log.receipt, 1) && NoSuccess(log.receipt) && AllExplained(q, log)
    requires Dispatches(log.events) == [] && log.failures == [] && Counted(q, log.receipt, [], 1)
    ensures Failing(q, Err(e), 1, log)
  {
    hide Counted, Orderly, NoSuccess, AllExplained, Dispatches, Explained;
    assert forall n :: multiset(Dispatches(log.events))[n] == 0;
    MulMono(0, |q.candidates|, Bound(q.maxContinuations));
    hide Bound;
  }

  lemma EndIsObedient(q: Request, r: Result<Response, Error>, k: nat, log: Log, tries: seq<Try>)
    requires if r.Ok? then Success(q, r, k, log, tries) else Failing(q, r, k, log)
    ensures Obedient(q, log)
  {
    hide Lawful, AllExplained, Dispatches, Orderly, Recorded, Accounted, AllRetryable, Bound, NoSuccess, Counted,
         Obedient, PrimaryReady, Exhausted, Numbers, Lines, Won, Retryable;
    LawfulIsObedient(q, log);
  }

  lemma StartIs(q: Request, number: nat)
    ensures Start(q, number)
         == [Decision(number, Usable)] + if |q.candidates| > 1 then [RouteLeft(number)] else []
  {
  }

  lemma AllDone(q: Request, events: seq<Event>)
    ensures Exhausted(q, |q.candidates|, events)
  {
  }

  /** The candidates are tried one after the other until one answers, a failure is final, or nothing is left. */
  method Complete(outside: Outside, q: Request)
    returns (r: Result<Response, Error>, receipt: seq<Entry>, ghost failures: seq<Failure>, ghost k: nat,
             ghost tries: seq<Try>)
    requires q.candidates != [] && outside.events == []
    modifies outside
    ensures r.Ok? ==> Success(q, r, k, Log(receipt, outside.events, failures), tries)
    ensures r.Err? ==> Failing(q, r, k, Log(receipt, outside.events, failures))
    ensures Obedient(q, Log(receipt, outside.events, failures))
  {
    hide *;
    receipt, failures, tries := [], [], [];
    var lastError := Error(NoRoute, false, false, 0);
    var done := 0;
    AtBegin(q);
    while done < |q.candidates|
      invariant 0 <= done <= |q.candidates| && Between(q, done, Log(receipt, outside.events, failures))
      invariant if failures == [] then lastError == Error(NoRoute, false, false, 0)
                else lastError == failures[|failures| - 1].error
    {
      var number := done + 1;
      ghost var log := Log(receipt, outside.events, failures);
      var rule := Barred(q, number);
      if rule.Some? {
        BarredLine(q, number, log.events + [], failures);
        StillReady(q, done, log, []);
        RejectCandidate(q, done, log, [], Entry(number, Rejected, rule.value));
        assert log.events + [] == log.events;
        receipt, done := receipt + [Entry(number, Rejected, rule.value)], number;
        continue;
      }
      var choice := outside.Decide(number);
      if choice != Usable {
        receipt := receipt + [Entry(number, Rejected, NotUsable)];
        if choice == Unready && |q.candidates| > 1 && number == 1 {
          k, r := 1, Err(Error(NotReady, false, false, 0));
          UnreadyPrimary(q, r.error, log);
          EndIsObedient(q, r, k, Log(receipt, outside.events, failures), tries);
          return;
        }
        UnusableLine(q, number, choice, log.events, failures);
        StillReady(q, done, log, [Decision(number, choice)]);
        RejectCandidate(q, done, log, [Decision(number, choice)], Entry(number, Rejected, NotUsable));
        done := number;
        continue;
      }
      if |q.candidates| > 1 {
        var left := outside.RouteTimeLeft(number);
        if !left {
          ghost var more := [Decision(number, Usable), RouteOver(number)];
          assert outside.events == log.events + more && RouteOver(number) in more;
          LateLine(q, number, outside.events, failures);
          StillReady(q, done, log, more);
          RejectCandidate(q, done, log, more, Entry(number, Rejected, OutOfTime));
          receipt, k, r := receipt + [Entry(number, Rejected, OutOfTime)], number, Err(lastError);
          FailingBetween(q, lastError, k, Log(receipt, outside.events, failures));
          EndIsObedient(q, r, k, Log(receipt, outside.events, failures), tries);
          return;
        }
      }
      StartIs(q, number);
      assert outside.events == log.events + Start(q, number);
      var decided;
      decided, r, receipt, failures, k, tries := Call(outside, q, number, receipt, log.events, failures);
      if decided {
        EndIsObedient(q, r, k, Log(receipt, outside.events, failures), tries);
        return;
      }
      lastError, done := r.error, number;
    }
    AllDone(q, outside.events);
    FailingBetween(q, lastError, done, Log(receipt, outside.events, failures));
    k, r := done, Err(lastError);
    EndIsObedient(q, r, k, Log(receipt, outside.events, failures), tries);
  }
}
