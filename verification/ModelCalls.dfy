/** Calls to one model provider: a single call, bounded continuation of partial responses, and one retry of
    an invalid response. Whatever providers, routing and the clock decide is recorded as an event. */
module ModelCalls {
  import opened Wrappers
  import opened Continuation

  datatype ErrorClass = InvalidResponse | IncompleteResponse | ProviderError | NotReady | NoRoute | Foreign

  /** `transient` is what the error itself says about retrying, `local` marks a rejection that never
      reached the provider, `attempts` counts the transport attempts it reports. */
  datatype Error = Error(cls: ErrorClass, transient: bool, local: bool, attempts: nat)

  datatype Response = Response(text: string, partial: bool, attempts: nat)

  datatype Choice = Usable | Unready | Unsuitable

  /** What the outside decided about the candidate with the given number: the result of one call, the
      routing decision, that no time is left for another call to it, whether any is left for the route. */
  datatype Event =
    | Answer(number: nat, result: Result<Response, Error>)
    | Decision(number: nat, choice: Choice)
    | NoTime(number: nat)
    | RouteLeft(number: nat)
    | RouteOver(number: nat)

  const INVALID_RESPONSE_RETRY_LIMIT := 1

  /** Everything outside the gateway, and how often the time for another call was asked for. */
  class Outside {
    var events: seq<Event>
    var checks: nat

    constructor ()
      ensures events == [] && checks == 0
    {
      events, checks := [], 0;
    }

    /** One adapter call: refused locally, failed, or answered; the answer may then turn out invalid. */
    method Single(number: nat, trusted: bool) returns (r: Result<Response, Error>)
      modifies `events
      ensures events == old(events) + [Answer(number, r)]
      ensures r.Err? && r.error.local ==> r.error.attempts == 0 && r.error.cls == ProviderError
      ensures r.Ok? && !trusted ==> r.value.attempts == 0
      ensures r.Ok? && r.value.partial ==> r.value.text != ""
    {
      var transient: bool := *;
      var attempts: nat :| attempts >= 0;
      var text: string := *;
      var partial: bool := *;
      if * {
        r := Err(Error(ProviderError, transient, true, 0));
      } else if * {
        r := Err(Error(Foreign, transient, false, 0));
      } else if * {
        r := Err(Error(InvalidResponse, transient, false, 0));
      } else if * {
        r := Err(Error(ProviderError, transient, false, attempts));
      } else if partial && text == "" {
        r := Err(Error(InvalidResponse, transient, false, 0));
      } else {
        r := Ok(Response(text, partial, if trusted then attempts else 0));
      }
      events := events + [Answer(number, r)];
    }

    method TimeLeft(number: nat) returns (left: bool)
      modifies this
      ensures events == if left then old(events) else old(events) + [NoTime(number)]
      ensures checks == old(checks) + 1
    {
      left, checks := *, checks + 1;
      if !left {
        events := events + [NoTime(number)];
      }
    }

    method RouteTimeLeft(number: nat) returns (left: bool)
      modifies `events
      ensures events == old(events) + [if left then RouteLeft(number) else RouteOver(number)]
    {
      left := *;
      events := events + [if left then RouteLeft(number) else RouteOver(number)];
    }

    method Decide(number: nat) returns (c: Choice)
      modifies `events
      ensures events == old(events) + [Decision(number, c)]
    {
      c := *;
      events := events + [Decision(number, c)];
    }
  }

  // -------------------------------------------------------------- continuations

  ghost predicate PrefixChain(texts: seq<string>) {
    forall i, j :: 0 <= i <= j < |texts| ==> texts[i] <= texts[j]
  }

  lemma ExtendChain(texts: seq<string>, next: string)
    requires PrefixChain(texts) && (texts != [] ==> texts[|texts| - 1] <= next)
    ensures PrefixChain(texts + [next])
  {
    forall i, j | 0 <= i <= j < |texts| + 1
      ensures (texts + [next])[i] <= (texts + [next])[j]
    {
      if j == |texts| && i < |texts| {
        assert texts[i] <= texts[|texts| - 1];
      }
    }
  }

  ghost predicate PartialAnswer(e: Event) {
    e.Answer? && e.result.Ok? && e.result.value.partial
  }

  /** The transport attempts that good answers report. */
  ghost function Attempts(answers: seq<Event>): nat {
    if answers == [] then 0
    else
      var e := answers[|answers| - 1];
      Attempts(answers[..|answers| - 1]) + if e.Answer? && e.result.Ok? then e.result.value.attempts else 0
  }

  ghost predicate Follows(previous: string, text: string, next: string, overlap: nat) {
    && previous <= next
    && if LStrip(text) == "" then next == previous else Merged(previous, LStrip(text), next, overlap)
  }

  /** The first assembly is the first text, and each later one merges the next text into the one before. */
  ghost predicate Assembled(answers: seq<Event>, assemblies: seq<string>, overlaps: seq<nat>) {
    && |assemblies| == |overlaps| <= |answers|
    && (forall i :: 0 <= i < |assemblies| ==> answers[i].Answer? && answers[i].result.Ok?)
    && (assemblies != [] ==> assemblies[0] == answers[0].result.value.text)
    && (forall i :: 0 < i < |assemblies| ==>
          Follows(assemblies[i - 1], answers[i].result.value.text, assemblies[i], overlaps[i]))
  }

  /** What a call with continuations makes of the answers it got; `late` if it stopped for lack of time. */
  ghost predicate Continued(answers: seq<Event>, late: bool, maxContinuations: nat, r: Result<Response, Error>,
                            assemblies: seq<string>, overlaps: seq<nat>)
  {
    && 1 <= |answers| <= 1 + maxContinuations && (forall i :: 0 <= i < |answers| ==> answers[i].Answer?)
    && (forall i :: 0 <= i < |answers| - 1 ==> PartialAnswer(answers[i]))
    && (late ==> |answers| <= maxContinuations && PartialAnswer(answers[|answers| - 1]))
    && Assembled(answers, assemblies, overlaps) && PrefixChain(assemblies)
    && var last := answers[|answers| - 1].result;
      if last.Err? then r == last && |assemblies| == |answers| - 1
      else
        && |assemblies| == |answers|
        && if !last.value.partial then r == Ok(Response(assemblies[|answers| - 1], false, Attempts(answers)))
           else
             && (late || |answers| == 1 + maxContinuations)
             && r.Err? && r.error.cls == IncompleteResponse && !r.error.local && r.error.attempts == Attempts(answers)
  }

  /** The state of the loop: only partial answers so far. */
  ghost predicate Continuing(answers: seq<Event>, assemblies: seq<string>, overlaps: seq<nat>) {
    && answers != [] && |assemblies| == |answers|
    && (forall i :: 0 <= i < |answers| ==> PartialAnswer(answers[i]))
    && Assembled(answers, assemblies, overlaps) && PrefixChain(assemblies)
  }

  lemma AttemptsOneMore(answers: seq<Event>, e: Event)
    ensures Attempts(answers + [e])
         == Attempts(answers) + if e.Answer? && e.result.Ok? then e.result.value.attempts else 0
  {
    assert (answers + [e])[..|answers|] == answers;
  }

  lemma FirstAnswer(e: Event, maxContinuations: nat)
    requires e.Answer?
    ensures e.result.Err? ==> Continued([e], false, maxContinuations, e.result, [], [])
    ensures e.result.Ok? ==>
      && Attempts([e]) == e.result.value.attempts
      && (e.result.value.partial ==> Continuing([e], [e.result.value.text], [0]))
      && (!e.result.value.partial ==>
            Continued([e], false, maxContinuations, e.result, [e.result.value.text], [0]))
  {
    AttemptsOneMore([], e);
    assert [] + [e] == [e];
  }

  lemma FailedAnswer(answers: seq<Event>, e: Event, maxContinuations: nat, assemblies: seq<string>, overlaps: seq<nat>)
    requires Continuing(answers, assemblies, overlaps) && |answers| <= maxContinuations && e.Answer? && e.result.Err?
    ensures Continued(answers + [e], false, maxContinuations, e.result, assemblies, overlaps)
  {
    hide Follows, PrefixChain;
  }

  lemma AssembleOneMore(answers: seq<Event>, e: Event, assemblies: seq<string>, overlaps: seq<nat>, next: string,
                        overlap: nat)
    requires Continuing(answers, assemblies, overlaps) && e.Answer? && e.result.Ok?
    requires Follows(assemblies[|answers| - 1], e.result.value.text, next, overlap)
    ensures Assembled(answers + [e], assemblies + [next], overlaps + [overlap]) && PrefixChain(assemblies + [next])
  {
    ExtendChain(assemblies, next);
    hide PrefixChain, Merged, LStrip;
  }

  lemma PartialsOneMore(answers: seq<Event>, e: Event)
    requires forall i :: 0 <= i < |answers| ==> PartialAnswer(answers[i])
    ensures forall i :: 0 <= i < |answers| ==> PartialAnswer((answers + [e])[i]) && (answers + [e])[i].Answer?
    ensures (answers + [e])[|answers|] == e
  {
  }

  lemma GoodPartial(answers: seq<Event>, e: Event, assemblies: seq<string>, overlaps: seq<nat>, next: string,
                    overlap: nat)
    requires Continuing(answers, assemblies, overlaps) && PartialAnswer(e)
    requires Follows(assemblies[|answers| - 1], e.result.value.text, next, overlap)
    ensures Continuing(answers + [e], assemblies + [next], overlaps + [overlap])
  {
    AssembleOneMore(answers, e, assemblies, overlaps, next, overlap);
    PartialsOneMore(answers, e);
    hide Assembled, Follows, PrefixChain, PartialAnswer;
  }

  lemma GoodFinal(answers: seq<Event>, e: Event, maxContinuations: nat, assemblies: seq<string>, overlaps: seq<nat>,
                  next: string, overlap: nat)
    requires Continuing(answers, assemblies, overlaps) && |answers| <= maxContinuations
    requires e.Answer? && e.result.Ok? && !e.result.value.partial
    requires Follows(assemblies[|answers| - 1], e.result.value.text, next, overlap)
    ensures Continued(answers + [e], false, maxContinuations, Ok(Response(next, false, Attempts(answers + [e]))),
                      assemblies + [next], overlaps + [overlap])
  {
    AssembleOneMore(answers, e, assemblies, overlaps, next, overlap);
    PartialsOneMore(answers, e);
    assert (assemblies + [next])[|answers|] == next;
    hide Assembled, Follows, PrefixChain, PartialAnswer, Attempts;
  }

  lemma GaveUp(answers: seq<Event>, late: bool, maxContinuations: nat, e: Error, assemblies: seq<string>,
               overlaps: seq<nat>)
    requires Continuing(answers, assemblies, overlaps) && |answers| <= 1 + maxContinuations
    requires if late then |answers| <= maxContinuations else |answers| == 1 + maxContinuations
    requires e.cls == IncompleteResponse && !e.local && e.attempts == Attempts(answers)
    ensures Continued(answers, late, maxContinuations, Err(e), assemblies, overlaps)
  {
    hide Assembled, PrefixChain, Attempts;
  }

  /** A partial response is continued as long as the time and the limit allow; the text is assembled from
      the texts that came. */
  method CompleteWithContinuations(outside: Outside, number: nat, maxContinuations: nat, trusted: bool)
    returns (r: Result<Response, Error>, ghost answers: seq<Event>, ghost late: bool, ghost assemblies: seq<string>,
             ghost overlaps: seq<nat>)
    modifies outside
    ensures outside.events == old(outside.events) + answers + (if late then [NoTime(number)] else [])
    ensures forall e :: e in answers ==> e.Answer? && e.number == number
    ensures Continued(answers, late, maxContinuations, r, assemblies, overlaps)
    ensures outside.checks == old(outside.checks) + |answers| - 1 + if late then 1 else 0
    ensures r.Ok? && !trusted ==> r.value.attempts == 0
  {
    hide Continued, Continuing, Attempts, Follows, Merged, LStrip;
    ghost var was := outside.events;
    answers, late, assemblies, overlaps := [], false, [], [];
    var first := outside.Single(number, trusted);
    answers := [Answer(number, first)];
    FirstAnswer(answers[0], maxContinuations);
    if first.Err? { return first, answers, late, assemblies, overlaps; }
    assemblies, overlaps := [first.value.text], [0];
    if !first.value.partial { return first, answers, late, assemblies, overlaps; }
    var text, attempts: nat := first.value.text, first.value.attempts;
    for index := 0 to maxContinuations
      invariant |answers| == |assemblies| == 1 + index && assemblies[index] == text
      invariant outside.events == was + answers && forall e :: e in answers ==> e.Answer? && e.number == number
      invariant Continuing(answers, assemblies, overlaps) && attempts == Attempts(answers)
      invariant !late && (!trusted ==> attempts == 0) && outside.checks == old(outside.checks) + index
    {
      var left := outside.TimeLeft(number);
      if !left {
        late := true;
        break;
      }
      var next := outside.Single(number, trusted);
      ghost var e := Answer(number, next);
      AttemptsOneMore(answers, e);
      if next.Err? {
        FailedAnswer(answers, e, maxContinuations, assemblies, overlaps);
        return next, answers + [e], false, assemblies, overlaps;
      }
      var merged, overlap := Merge(text, next.value.text);
      FollowsFromMerge(text, next.value.text, merged, overlap);
      if next.value.partial {
        GoodPartial(answers, e, assemblies, overlaps, merged, overlap);
      } else {
        GoodFinal(answers, e, maxContinuations, assemblies, overlaps, merged, overlap);
      }
      text, attempts := merged, attempts + next.value.attempts;
      answers, assemblies, overlaps := answers + [e], assemblies + [merged], overlaps + [overlap];
      if !next.value.partial {
        return Ok(Response(text, false, attempts)), answers, false, assemblies, overlaps;
      }
    }
    var transient: bool := *;
    var error := Error(IncompleteResponse, transient, false, attempts);
    GaveUp(answers, late, maxContinuations, error, assemblies, overlaps);
    return Err(error), answers, late, assemblies, overlaps;
  }

  lemma FollowsFromMerge(previous: string, text: string, next: string, overlap: nat)
    requires previous <= next
    requires LStrip(text) == "" ==> next == previous
    requires LStrip(text) != "" ==> Merged(previous, LStrip(text), next, overlap)
    ensures Follows(previous, text, next, overlap)
  {
  }

  // -------------------------------------------------------------- the retry

  ghost predicate Sent(e: Event) {
    e.Answer? && !(e.result.Err? && e.result.error.local)
  }

  /** The candidates that adapter calls really went to, in order. */
  ghost function Dispatches(events: seq<Event>): (d: seq<nat>)
    ensures |d| <= |events|
  {
    if events == [] then []
    else
      var e := events[|events| - 1];
      Dispatches(events[..|events| - 1]) + if Sent(e) then [e.number] else []
  }

  lemma {:induction false} DispatchesJoin(a: seq<Event>, b: seq<Event>)
    ensures Dispatches(a + b) == Dispatches(a) + Dispatches(b)
  {
    if b == [] {
      assert a + b == a;
    } else {
      DispatchesJoin(a, b[..|b| - 1]);
      assert (a + b)[..|a + b| - 1] == a + b[..|b| - 1];
    }
  }

  lemma {:induction false} DispatchesOf(events: seq<Event>, number: nat)
    requires forall e :: e in events ==> e.number == number
    ensures forall d :: d in Dispatches(events) ==> d == number
  {
    if events != [] {
      DispatchesOf(events[..|events| - 1], number);
    }
  }

  lemma NotSent(events: seq<Event>, e: Event)
    ensures Dispatches(events + [e]) == Dispatches(events) + if Sent(e) then [e.number] else []
  {
    assert (events + [e])[..|events|] == events;
  }

  /** One round of calls with what it led to. */
  datatype Try = Try(answers: seq<Event>, late: bool, result: Result<Response, Error>, assemblies: seq<string>,
                     overlaps: seq<nat>)

  ghost predicate Happened(t: Try, number: nat, maxContinuations: nat) {
    && Continued(t.answers, t.late, maxContinuations, t.result, t.assemblies, t.overlaps)
    && forall e :: e in t.answers ==> e.number == number
  }

  /** The events of some tries, one after the other. */
  ghost function EventsOf(tries: seq<Try>, number: nat): seq<Event> {
    if tries == [] then []
    else
      var t := tries[|tries| - 1];
      EventsOf(tries[..|tries| - 1], number) + t.answers + if t.late then [NoTime(number)] else []
  }

  lemma EventsOneMore(tries: seq<Try>, t: Try, number: nat)
    ensures EventsOf(tries + [t], number)
         == EventsOf(tries, number) + t.answers + if t.late then [NoTime(number)] else []
  {
    assert (tries + [t])[..|tries|] == tries;
  }

  /** How the answer `e` settles the result `r` of a candidate. */
  ghost predicate Settles(e: Event, r: Result<Response, Error>) {
    && e.Answer?
    && if e.result.Err? then r == e.result
       else if e.result.value.partial then r.Err? && r.error.cls == IncompleteResponse && !r.error.local
       else r.Ok? && !r.value.partial
  }

  /** The last answer among some events about one candidate. */
  ghost predicate LastAnswer(events: seq<Event>, at: nat, number: nat) {
    && at < |events| && events[at].Answer? && events[at].number == number
    && forall i :: at < i < |events| ==> !events[i].Answer?
  }

  lemma TryIsBounded(t: Try, number: nat, maxContinuations: nat)
    requires Happened(t, number, maxContinuations)
    ensures var events := t.answers + if t.late then [NoTime(number)] else [];
      && |Dispatches(events)| <= 1 + maxContinuations
      && forall e :: e in events ==> e.number == number && (e.Answer? || e.NoTime?)
  {
    assert |t.answers| <= 1 + maxContinuations && forall i :: 0 <= i < |t.answers| ==> t.answers[i].Answer?;
    hide Continued;
    NotSent(t.answers, NoTime(number));
    assert t.answers + [] == t.answers;
  }

  lemma OneMoreTry(tries: seq<Try>, t: Try, number: nat)
    ensures var events := t.answers + if t.late then [NoTime(number)] else [];
      && EventsOf(tries + [t], number) == EventsOf(tries, number) + events
      && Dispatches(EventsOf(tries + [t], number)) == Dispatches(EventsOf(tries, number)) + Dispatches(events)
  {
    var events := t.answers + if t.late then [NoTime(number)] else [];
    EventsOneMore(tries, t, number);
    hide *;
    assert EventsOf(tries, number) + t.answers + (if t.late then [NoTime(number)] else [])
        == EventsOf(tries, number) + events;
    DispatchesJoin(EventsOf(tries, number), events);
  }

  lemma MulOneMore(n: nat, k: nat)
    ensures n * k + k == (n + 1) * k
  {
  }

  lemma {:induction false} TriesAreBounded(tries: seq<Try>, number: nat, maxContinuations: nat)
    requires forall t :: t in tries ==> Happened(t, number, maxContinuations)
    ensures |Dispatches(EventsOf(tries, number))| <= |tries| * (1 + maxContinuations)
    ensures forall e :: e in EventsOf(tries, number) ==> e.number == number && (e.Answer? || e.NoTime?)
  {
    if tries == [] {
    } else {
      hide *;
      var earlier, t := tries[..|tries| - 1], tries[|tries| - 1];
      assert tries == earlier + [t];
      TriesAreBounded(earlier, number, maxContinuations);
      TryIsBounded(t, number, maxContinuations);
      OneMoreTry(earlier, t, number);
      MulOneMore(|earlier|, 1 + maxContinuations);
    }
  }

  lemma TrySettles(tries: seq<Try>, number: nat, maxContinuations: nat, ranOut: bool) returns (at: nat)
    requires tries != [] && forall t :: t in tries ==> Happened(t, number, maxContinuations)
    ensures var events := EventsOf(tries, number) + (if ranOut then [NoTime(number)] else []);
      LastAnswer(events, at, number) && Settles(events[at], tries[|tries| - 1].result)
  {
    var earlier, t := tries[..|tries| - 1], tries[|tries| - 1];
    assert Happened(t, number, maxContinuations);
    at := |EventsOf(earlier, number)| + |t.answers| - 1;
    assert tries == earlier + [t];
    EventsOneMore(earlier, t, number);
    hide Assembled, PrefixChain, Attempts;
  }

  /** The time is asked for before every continuation. */
  ghost function Checks(tries: seq<Try>): int {
    if tries == [] then 0
    else
      var t := tries[|tries| - 1];
      Checks(tries[..|tries| - 1]) + |t.answers| - 1 + if t.late then 1 else 0
  }

  lemma ChecksOneMore(tries: seq<Try>, t: Try)
    ensures Checks(tries + [t]) == Checks(tries) + |t.answers| - 1 + if t.late then 1 else 0
  {
    assert (tries + [t])[..|tries|] == tries;
  }

  /** The candidate is tried again once, and only when its response was invalid and time is left. */
  method TryCandidate(outside: Outside, number: nat, maxContinuations: nat, trusted: bool)
    returns (r: Result<Response, Error>, ghost tries: seq<Try>, ghost ranOut: bool)
    modifies outside
    ensures outside.events == old(outside.events) + EventsOf(tries, number) + (if ranOut then [NoTime(number)] else [])
    ensures 1 <= |tries| <= 2 && r == tries[|tries| - 1].result
    ensures outside.checks == old(outside.checks) + Checks(tries) + |tries| - 1 + if ranOut then 1 else 0
    ensures forall t :: t in tries ==> Happened(t, number, maxContinuations)
    ensures forall i :: 0 <= i < |tries| - 1 ==>
      tries[i].result.Err? && tries[i].result.error.cls == InvalidResponse
    ensures ranOut <==> |tries| == 1 && r.Err? && r.error.cls == InvalidResponse
    ensures r.Ok? && !trusted ==> r.value.attempts == 0
  {
    hide Continued, EventsOf, Checks;
    ghost var was := outside.events;
    var retries := 0;
    tries, ranOut := [], false;
    NoTries(number);
    NoChecks();
    while true
      invariant 0 <= retries <= INVALID_RESPONSE_RETRY_LIMIT && |tries| == retries && !ranOut
      invariant outside.events == was + EventsOf(tries, number)
      invariant outside.checks == old(outside.checks) + Checks(tries) + retries
      invariant forall t :: t in tries ==>
        Happened(t, number, maxContinuations) && t.result.Err? && t.result.error.cls == InvalidResponse
      decreases INVALID_RESPONSE_RETRY_LIMIT - retries
    {
      ghost var answers, late, assemblies, overlaps;
      r, answers, late, assemblies, overlaps :=
        CompleteWithContinuations(outside, number, maxContinuations, trusted);
      ghost var t := Try(answers, late, r, assemblies, overlaps);
      EventsOneMore(tries, t, number);
      ChecksOneMore(tries, t);
      tries := tries + [t];
      if r.Ok? || r.error.cls != InvalidResponse || retries >= INVALID_RESPONSE_RETRY_LIMIT {
        return;
      }
      retries := retries + 1;
      var left := outside.TimeLeft(number);
      if !left {
        ranOut := true;
        return;
      }
    }
  }

  lemma NoChecks()
    ensures Checks([]) == 0
  {
  }

  lemma NoTries(number: nat)
    ensures EventsOf([], number) == []
  {
  }
}
