/** The agent loop: one loop that keeps the step, token, cost, tool-call and repetition budgets against
    a model and tools that may do anything. */
module AgentLoop {
  import opened Wrappers

  datatype Policy = Policy(
    maxSteps: nat,
    maxTotalTokens: int,
    maxCost: Option<real>,
    maxToolCalls: int,
    maxRepeated: int)

  datatype Price = Price(provider: string, model: string, input: real, output: real)

  /** Token counts as reported; `None` is anything that is not an integer. */
  datatype Usage = Usage(input: Option<int>, output: Option<int>, total: Option<int>)

  datatype ToolCall = ToolCall(id: string, signature: string)

  datatype Response = Response(
    hasText: bool,
    toolCalls: seq<ToolCall>,
    usage: Usage,
    provider: string,
    model: Option<string>)

  datatype Message = Assistant(calls: seq<ToolCall>) | ToolResult(id: string)

  /** One model call: what was sent, what was charged for it. */
  datatype Call = Call(
    messages: seq<Message>,
    offersTools: bool,
    estimate: int,
    maxTokens: int,
    response: Response,
    tokens: int,
    cost: real)

  datatype Stop = Timeout | TokenBudget | CostBudget | StepBudget | ToolCallBudget | RepetitionBudget

  /** Why a run ends in an error: it had to stop without any text, a route without a price under a cost
      limit, the gateway raised or the selected price is unknown, an answer without text or tool calls, tool
      calls that were no longer offered, a tool that raised. */
  datatype Why = NoText(reason: Stop) | Unpriced | Raised | Empty | LateTools | ToolRaised

  datatype Outcome = Finished | Stopped(reason: Stop) | Failed(why: Why)

  /** What the outside did last, as far as it matters for the end of a run. */
  datatype Event = Began | Late | Estimated(tokens: int) | Replied | ToolBroke

  /** The clock, the size estimate of a request, the model gateway and the tools; `answers` are those of the
      gateway, None where it raised, `runs` the tool calls that reached a tool. */
  class Outside {
    var last: Event
    var answers: seq<Option<Response>>
    var runs: seq<string>

    constructor ()
      ensures last == Began && answers == [] && runs == []
    {
      last, answers, runs := Began, [], [];
    }

    method Expired() returns (late: bool)
      modifies `last
      ensures last == if late then Late else old(last)
    {
      late := *;
      if late {
        last := Late;
      }
    }

    method Estimate() returns (n: int)
      modifies `last
      ensures n >= 1 && last == Estimated(n)
    {
      n :| n >= 1;
      last := Estimated(n);
    }

    method Complete() returns (r: Option<Response>)
      modifies `last, `answers
      ensures last == Replied && answers == old(answers) + [r]
    {
      r := *;
      last, answers := Replied, answers + [r];
    }

    /** A tool runs; its observation may be an error, which is no failure. */
    method Observe(signature: string) returns (ok: bool)
      modifies `last, `runs
      ensures last == if ok then old(last) else ToolBroke
      ensures runs == old(runs) + [signature]
    {
      ok, runs := *, runs + [signature];
      if !ok {
        last := ToolBroke;
      }
    }
  }

  // ------------------------------------------------------------- accounting

  function Counter(n: Option<int>): nat {
    if n.Some? && n.value >= 0 then n.value else 0
  }

  function Max(a: int, b: int): int {
    if a >= b then a else b
  }

  function MaxReal(a: real, b: real): real {
    if a >= b then a else b
  }

  /** Tokens charged for a response; one without a usable count is charged everything that remains. */
  function ResponseTokens(u: Usage, unknownCharge: int): int {
    var split := Counter(u.input) + Counter(u.output);
    var hasSplit := u.input.Some? && u.output.Some?;
    if u.total.Some? && u.total.value > 0 then Max(u.total.value, if hasSplit then split else 0)
    else if hasSplit && split > 0 then split
    else unknownCharge
  }

  /** The tokens that a usage reports: in total, and in its two parts if both are there. Negative counts of a
      part count for nothing. */
  ghost function ReportedCounts(u: Usage): set<int> {
    (if u.total.Some? then {u.total.value} else {})
    + if u.input.Some? && u.output.Some? then
        {(if u.input.value > 0 then u.input.value else 0) + (if u.output.value > 0 then u.output.value else 0)}
      else {}
  }

  /** The largest positive report is charged; without one, everything that remains. */
  lemma TokensCharged(u: Usage, unknownCharge: int)
    ensures var charged := ResponseTokens(u, unknownCharge);
      if exists n :: n in ReportedCounts(u) && n > 0
      then charged in ReportedCounts(u) && forall n :: n in ReportedCounts(u) ==> n <= charged
      else charged == unknownCharge
  {
    if u.total.Some? {
      assert u.total.value in ReportedCounts(u);
    }
    if u.input.Some? && u.output.Some? {
      var split := (if u.input.value > 0 then u.input.value else 0)
        + (if u.output.value > 0 then u.output.value else 0);
      assert split == Counter(u.input) + Counter(u.output) && split in ReportedCounts(u);
    }
  }

  /** Cost in millionths of a dollar; tokens outside the split are charged at the higher price. */
  function ResponseMicros(u: Usage, p: Price, tokens: int): real {
    var dearest := MaxReal(p.input, p.output);
    if u.input.Some? && u.output.Some? then
      var unclassified := Max(0, tokens - (u.input.value + u.output.value));
      u.input.value as real * p.input + u.output.value as real * p.output + unclassified as real * dearest
    else tokens as real * dearest
  }

  /** The two parts that a usage reports, none being reported unless both are. */
  ghost function Parts(u: Usage): (int, int) {
    if u.input.Some? && u.output.Some? then (u.input.value, u.output.value) else (0, 0)
  }

  /** The cost covers every way to divide the tokens that are in neither part between input and output, and is
      that of one way. */
  lemma DearestSplit(u: Usage, p: Price, tokens: int, rest: int, input: int)
    requires rest == (if tokens > Parts(u).0 + Parts(u).1 then tokens - (Parts(u).0 + Parts(u).1) else 0)
    requires tokens >= 0 && 0 <= input <= rest
    ensures var (a, b) := Parts(u);
      && (a + input) as real * p.input + (b + rest - input) as real * p.output <= ResponseMicros(u, p, tokens)
      && (|| ResponseMicros(u, p, tokens) == (a + rest) as real * p.input + b as real * p.output
          || ResponseMicros(u, p, tokens) == a as real * p.input + (b + rest) as real * p.output)
  {
    var (a, b) := Parts(u);
    var dearest := MaxReal(p.input, p.output);
    CostAsParts(u, p, tokens, rest);
    DearestOfRest(rest, input, p);
    hide *;
    Distribute(a, input, p.input);
    Distribute(b, rest - input, p.output);
    Distribute(a, rest, p.input);
    Distribute(b, rest, p.output);
    assert b + (rest - input) == b + rest - input;
  }

  lemma CostAsParts(u: Usage, p: Price, tokens: int, rest: int)
    requires rest == (if tokens > Parts(u).0 + Parts(u).1 then tokens - (Parts(u).0 + Parts(u).1) else 0) && tokens >= 0
    ensures ResponseMicros(u, p, tokens)
         == Parts(u).0 as real * p.input + Parts(u).1 as real * p.output + rest as real * MaxReal(p.input, p.output)
  {
    NoCost(p.input);
    NoCost(p.output);
    NoCost(MaxReal(p.input, p.output));
  }

  lemma DearestOfRest(rest: int, input: int, p: Price)
    requires 0 <= input <= rest
    ensures input as real * p.input + (rest - input) as real * p.output <= rest as real * MaxReal(p.input, p.output)
    ensures MaxReal(p.input, p.output) == p.input || MaxReal(p.input, p.output) == p.output
  {
    var dearest := MaxReal(p.input, p.output);
    MulMono(p.input, dearest, input as real);
    MulMono(p.output, dearest, (rest - input) as real);
    Distribute(input, rest - input, dearest);
  }

  lemma Distribute(a: int, b: int, p: real)
    ensures (a + b) as real * p == a as real * p + b as real * p
  {
    assert (a + b) as real == a as real + b as real;
  }

  /** The price at `i` belongs to the route that answered. */
  ghost predicate MatchesAt(r: Response, prices: seq<Option<Price>>, i: nat) {
    && i < |prices| && prices[i].Some? && prices[i].value.provider == r.provider
    && (r.model.None? || r.model.value == prices[i].value.model)
  }

  predicate Matches(r: Response, p: Price) {
    p.provider == r.provider && (r.model.None? || r.model == Some(p.model))
  }

  function Matching(r: Response, prices: seq<Option<Price>>): (m: seq<Price>)
    ensures forall p :: p in m ==> Some(p) in prices
  {
    if prices == [] then []
    else
      var rest := Matching(r, prices[1..]);
      if prices[0].Some? && Matches(r, prices[0].value) then [prices[0].value] + rest else rest
  }

  /** The price of the selected route, when exactly one route matches. */
  function SelectedPrice(r: Response, prices: seq<Option<Price>>): (p: Option<Price>)
    ensures p.Some? ==> p in prices
  {
    var m := Matching(r, prices);
    if |m| == 1 then Some(m[0]) else None
  }

  lemma {:induction false} MatchAppears(r: Response, prices: seq<Option<Price>>, i: nat)
    requires MatchesAt(r, prices, i)
    ensures prices[i].value in Matching(r, prices)
  {
    if i > 0 {
      MatchAppears(r, prices[1..], i - 1);
    }
  }

  lemma {:induction false} FirstMatch(r: Response, prices: seq<Option<Price>>) returns (i: nat)
    requires Matching(r, prices) != []
    ensures MatchesAt(r, prices, i) && prices[i].value == Matching(r, prices)[0]
  {
    if prices[0].Some? && Matches(r, prices[0].value) {
      i := 0;
    } else {
      i := FirstMatch(r, prices[1..]);
      i := i + 1;
    }
  }

  lemma {:induction false} TwoMatches(r: Response, prices: seq<Option<Price>>) returns (i: nat, j: nat)
    requires |Matching(r, prices)| > 1
    ensures i < j && MatchesAt(r, prices, i) && MatchesAt(r, prices, j)
  {
    if prices[0].Some? && Matches(r, prices[0].value) {
      i := 0;
      j := FirstMatch(r, prices[1..]);
      j := j + 1;
    } else {
      i, j := TwoMatches(r, prices[1..]);
      i, j := i + 1, j + 1;
    }
  }

  lemma {:induction false} MatchedTwice(r: Response, prices: seq<Option<Price>>, i: nat, j: nat)
    requires i < j && MatchesAt(r, prices, i) && MatchesAt(r, prices, j)
    ensures |Matching(r, prices)| > 1
  {
    if i > 0 {
      MatchedTwice(r, prices[1..], i - 1, j - 1);
    } else {
      MatchAppears(r, prices[1..], j - 1);
    }
  }

  ghost predicate OnlyMatch(r: Response, prices: seq<Option<Price>>, i: nat) {
    MatchesAt(r, prices, i) && forall j: nat :: MatchesAt(r, prices, j) ==> j == i
  }

  lemma OnlyMatchIsSelected(r: Response, prices: seq<Option<Price>>, i: nat)
    requires OnlyMatch(r, prices, i)
    ensures SelectedPrice(r, prices) == prices[i]
  {
    MatchAppears(r, prices, i);
    if |Matching(r, prices)| > 1 {
      var a, b := TwoMatches(r, prices);
    }
    hide Matching;
  }

  lemma SelectedIsOnlyMatch(r: Response, prices: seq<Option<Price>>) returns (i: nat)
    requires SelectedPrice(r, prices).Some?
    ensures OnlyMatch(r, prices, i) && prices[i] == SelectedPrice(r, prices)
  {
    hide Matching;
    i := FirstMatch(r, prices);
    forall j: nat | MatchesAt(r, prices, j)
      ensures j == i
    {
      if j < i {
        MatchedTwice(r, prices, j, i);
      } else if i < j {
        MatchedTwice(r, prices, i, j);
      }
    }
  }

  /** The answer of a route has a price exactly if one price alone belongs to the route. */
  lemma SelectedIsUnique(r: Response, prices: seq<Option<Price>>, p: Price)
    ensures SelectedPrice(r, prices) == Some(p) <==> exists i: nat :: OnlyMatch(r, prices, i) && prices[i] == Some(p)
  {
    hide SelectedPrice;
    if SelectedPrice(r, prices) == Some(p) {
      var i := SelectedIsOnlyMatch(r, prices);
    }
    if i: nat :| OnlyMatch(r, prices, i) && prices[i] == Some(p) {
      OnlyMatchIsSelected(r, prices, i);
    }
  }

  function MaxInput(prices: seq<Option<Price>>): (m: real)
    ensures 0.0 <= m && forall p :: Some(p) in prices ==> p.input <= m
  {
    if prices == [] then 0.0
    else if prices[0].None? then MaxInput(prices[1..])
    else MaxReal(prices[0].value.input, MaxInput(prices[1..]))
  }

  function MaxOutput(prices: seq<Option<Price>>): (m: real)
    ensures 0.0 <= m && forall p :: Some(p) in prices ==> p.output <= m
  {
    if prices == [] then 0.0
    else if prices[0].None? then MaxOutput(prices[1..])
    else MaxReal(prices[0].value.output, MaxOutput(prices[1..]))
  }

  /** The dearest price of each kind is that of some route, or nothing. */
  lemma {:induction false} DearestExists(prices: seq<Option<Price>>)
    ensures MaxInput(prices) == 0.0 || exists p :: Some(p) in prices && p.input == MaxInput(prices)
    ensures MaxOutput(prices) == 0.0 || exists p :: Some(p) in prices && p.output == MaxOutput(prices)
  {
    if prices != [] {
      DearestExists(prices[1..]);
      assert forall p :: p in prices[1..] ==> p in prices;
      if prices[0].Some? {
        assert Some(prices[0].value) in prices;
      }
    }
  }

  lemma MulMono(a: real, b: real, p: real)
    requires a <= b && p >= 0.0
    ensures a * p <= b * p && p * a <= p * b
  {
  }

  lemma FloorFits(amount: real, price: real, n: int)
    requires price > 0.0 && n <= (amount / price).Floor
    ensures n as real * price <= amount
  {
  }

  /** The output tokens that the remaining money pays for at the dearest route. */
  function CostBoundedTokens(requested: int, remaining: real, prices: seq<Option<Price>>, estimate: int): int {
    var left := remaining - MaxInput(prices) * estimate as real / 1000000.0;
    if left <= 0.0 then 0
    else if MaxOutput(prices) <= 0.0 then requested
    else
      var affordable := (left * 1000000.0 / MaxOutput(prices)).Floor;
      if requested <= Max(0, affordable) then requested else Max(0, affordable)
  }

  /** What a request may cost at most, in millionths of a dollar. */
  ghost function WorstMicros(prices: seq<Option<Price>>, estimate: int, tokens: int): real {
    estimate as real * MaxInput(prices) + tokens as real * MaxOutput(prices)
  }

  /** When any tokens are granted, the whole request stays within the money at every route; and no
      fewer are granted than the money pays for. */
  lemma GrantedTokensArePaidFor(requested: int, remaining: real, prices: seq<Option<Price>>, estimate: int)
    requires requested > 0
    ensures var granted := CostBoundedTokens(requested, remaining, prices, estimate);
      && granted <= requested
      && (granted > 0 ==> WorstMicros(prices, estimate, granted) <= remaining * 1000000.0)
      && (granted < requested ==> WorstMicros(prices, estimate, granted + 1) > remaining * 1000000.0
                                  || WorstMicros(prices, estimate, 0) >= remaining * 1000000.0)
  {
    hide MaxInput, MaxOutput;
    var dearest, spent := MaxOutput(prices), MaxInput(prices) * estimate as real;
    var left := remaining - spent / 1000000.0;
    var amount := left * 1000000.0;
    assert amount == remaining * 1000000.0 - spent;
    var granted := CostBoundedTokens(requested, remaining, prices, estimate);
    NoCost(dearest);
    if left > 0.0 && dearest > 0.0 {
      var affordable := (amount / dearest).Floor;
      PositiveQuotient(amount, dearest);
      FloorFits(amount, dearest, granted);
      if granted < requested {
        FloorIsTight(amount, dearest);
      }
    }
  }

  lemma NoCost(price: real)
    ensures 0 as real * price == 0.0
  {
  }

  lemma PositiveQuotient(amount: real, price: real)
    requires amount > 0.0 && price > 0.0
    ensures amount / price >= 0.0 && (amount / price).Floor >= 0
  {
  }

  lemma FloorIsTight(amount: real, price: real)
    requires price > 0.0
    ensures ((amount / price).Floor + 1) as real * price > amount
  {
    var q := amount / price;
    var n := (q.Floor + 1) as real;
    assert q * price == amount && n > q;
    if n * price <= amount {
      MulStrict(q, n, price);
    }
  }

  lemma MulStrict(a: real, b: real, p: real)
    requires a < b && p > 0.0
    ensures a * p < b * p
  {
  }

  ghost function Tokens(calls: seq<Call>): int {
    if calls == [] then 0 else Tokens(calls[..|calls| - 1]) + calls[|calls| - 1].tokens
  }

  ghost function Micros(calls: seq<Call>): real {
    if calls == [] then 0.0 else Micros(calls[..|calls| - 1]) + calls[|calls| - 1].cost
  }

  // ------------------------------------------------------ what one call promises

  ghost predicate Priced(prices: seq<Option<Price>>) {
    forall p :: p in prices ==> p.Some?
  }

  /** The call was only made with tokens and money left for all it may use, and was charged as above. */
  ghost predicate WithinBudget(policy: Policy, prices: seq<Option<Price>>, before: seq<Call>, c: Call) {
    && c.estimate >= 1 && Tokens(before) + c.estimate < policy.maxTotalTokens
    && Tokens(before) + c.estimate + c.maxTokens <= policy.maxTotalTokens
    && c.tokens == ResponseTokens(c.response.usage, policy.maxTotalTokens - Tokens(before))
    && (Priced(prices) ==>
          && SelectedPrice(c.response, prices).Some?
          && c.cost == ResponseMicros(c.response.usage, SelectedPrice(c.response, prices).value, c.tokens))
    && (Priced(prices) && policy.maxCost.Some? ==>
          WorstMicros(prices, c.estimate, c.maxTokens) <= policy.maxCost.value * 1000000.0 - Micros(before)
          && Micros(before) < policy.maxCost.value * 1000000.0)
  }

  ghost predicate AllWithinBudget(policy: Policy, prices: seq<Option<Price>>, calls: seq<Call>) {
    forall i :: 0 <= i < |calls| ==> WithinBudget(policy, prices, calls[..i], calls[i])
  }

  /** The response used no more than it was sent and allowed, and said so. */
  ghost predicate Honest(c: Call) {
    var u := c.response.usage;
    && u.input.Some? && u.output.Some?
    && 0 <= u.input.value <= c.estimate && 0 <= u.output.value <= c.maxTokens
    && u.input.value + u.output.value > 0
    && (u.total.Some? ==> u.total.value <= u.input.value + u.output.value)
  }

  ghost predicate AllHonest(calls: seq<Call>) {
    forall c :: c in calls ==> Honest(c)
  }

  ghost predicate NonNegative(prices: seq<Option<Price>>) {
    forall p :: Some(p) in prices ==> p.input >= 0.0 && p.output >= 0.0
  }

  lemma HonestTokens(policy: Policy, prices: seq<Option<Price>>, before: seq<Call>, c: Call)
    requires WithinBudget(policy, prices, before, c) && Honest(c)
    ensures c.tokens == c.response.usage.input.value + c.response.usage.output.value
    ensures Tokens(before) + c.tokens <= policy.maxTotalTokens
  {
  }

  lemma HonestCost(policy: Policy, prices: seq<Option<Price>>, before: seq<Call>, c: Call)
    requires WithinBudget(policy, prices, before, c) && Honest(c)
    requires Priced(prices) && policy.maxCost.Some?
    requires NonNegative(prices)
    ensures Micros(before) + c.cost <= policy.maxCost.value * 1000000.0
  {
    hide ResponseMicros, ResponseTokens, WorstMicros, SelectedPrice, MaxInput, MaxOutput, Tokens, Micros;
    HonestTokens(policy, prices, before, c);
    var u, p := c.response.usage, SelectedPrice(c.response, prices).value;
    assert Some(p) in prices && p.input >= 0.0 && p.output >= 0.0;
    assert c.cost == ResponseMicros(u, p, c.tokens);
    assert WorstMicros(prices, c.estimate, c.maxTokens) <= policy.maxCost.value * 1000000.0 - Micros(before);
    hide *;
    CostOfSplit(u, p, c.tokens);
    WorstCoversSplit(prices, c.estimate, c.maxTokens, u.input.value, u.output.value, p);
  }

  lemma CostOfSplit(u: Usage, p: Price, tokens: int)
    requires u.input.Some? && u.output.Some? && tokens == u.input.value + u.output.value
    ensures ResponseMicros(u, p, tokens) == u.input.value as real * p.input + u.output.value as real * p.output
  {
    NoCost(MaxReal(p.input, p.output));
  }

  lemma WorstCoversSplit(prices: seq<Option<Price>>, estimate: int, tokens: int, input: int, output: int, p: Price)
    requires Some(p) in prices && p.input >= 0.0 && p.output >= 0.0
    requires 0 <= input <= estimate && 0 <= output <= tokens
    ensures input as real * p.input + output as real * p.output <= WorstMicros(prices, estimate, tokens)
  {
    hide MaxInput, MaxOutput;
    CostIsCovered(input, estimate, p.input, MaxInput(prices));
    CostIsCovered(output, tokens, p.output, MaxOutput(prices));
  }

  lemma CostIsCovered(used: int, allowed: int, price: real, dearest: real)
    requires 0 <= used <= allowed && 0.0 <= price <= dearest
    ensures used as real * price <= allowed as real * dearest
  {
  }

  /** With honest responses neither total is ever exceeded. */
  lemma HonestRunStaysWithinBudget(policy: Policy, prices: seq<Option<Price>>, calls: seq<Call>, n: nat)
    requires AllWithinBudget(policy, prices, calls) && AllHonest(calls) && NonNegative(prices)
    requires 0 < n <= |calls|
    ensures Tokens(calls[..n]) <= policy.maxTotalTokens
    ensures Priced(prices) && policy.maxCost.Some? ==> Micros(calls[..n]) <= policy.maxCost.value * 1000000.0
  {
    var before, c := calls[..n - 1], calls[n - 1];
    assert WithinBudget(policy, prices, before, c);
    assert calls[..n][..n - 1] == before && c in calls;
    HonestTokens(policy, prices, before, c);
    if Priced(prices) && policy.maxCost.Some? {
      HonestCost(policy, prices, before, c);
    }
  }

  /** Whatever the responses claim, both totals were below their limits before every call: only the last
      call can overshoot. A response without a usable count is charged all that was left. */
  lemma OnlyTheLastCallOvershoots(policy: Policy, prices: seq<Option<Price>>, calls: seq<Call>, i: nat)
    requires AllWithinBudget(policy, prices, calls) && i < |calls|
    ensures Tokens(calls[..i]) < policy.maxTotalTokens
    ensures Priced(prices) && policy.maxCost.Some? ==> Micros(calls[..i]) < policy.maxCost.value * 1000000.0
    ensures ResponseTokens(calls[i].response.usage, 0) == 0 ==> Tokens(calls[..i + 1]) >= policy.maxTotalTokens
    ensures ResponseTokens(calls[i].response.usage, 0) == 0 ==> i == |calls| - 1
  {
    assert WithinBudget(policy, prices, calls[..i], calls[i]);
    assert calls[..i + 1][..i] == calls[..i];
    if i + 1 < |calls| {
      assert WithinBudget(policy, prices, calls[..i + 1], calls[i + 1]);
    }
  }

  // ------------------------------------------------------------ tool budgets

  datatype Verdict = Executed | OverCalls | Repeated | Exhausted

  ghost predicate Refused(v: seq<Verdict>) {
    exists x :: x in v && x != Executed
  }

  /** What becomes of a tool call requested after `earlier`. A refusal is final. */
  ghost function Next(policy: Policy, earlier: seq<string>, signature: string): Verdict
    decreases |earlier|, 1
  {
    if Refused(Verdicts(policy, earlier)) then Exhausted
    else if |earlier| + 1 > policy.maxToolCalls then OverCalls
    else if multiset(earlier)[signature] + 1 > policy.maxRepeated then Repeated
    else Executed
  }

  ghost function Verdicts(policy: Policy, signatures: seq<string>): (v: seq<Verdict>)
    ensures |v| == |signatures|
    decreases |signatures|, 0
  {
    if signatures == [] then []
    else
      var n := |signatures| - 1;
      Verdicts(policy, signatures[..n]) + [Next(policy, signatures[..n], signatures[n])]
  }

  /** The calls that reach a tool. */
  ghost function Ran(policy: Policy, signatures: seq<string>): seq<string> {
    if signatures == [] then []
    else
      var n := |signatures| - 1;
      Ran(policy, signatures[..n])
      + if Next(policy, signatures[..n], signatures[n]) == Executed then [signatures[n]] else []
  }

  lemma OneMoreRequest(policy: Policy, earlier: seq<string>, signature: string)
    ensures Verdicts(policy, earlier + [signature]) == Verdicts(policy, earlier) + [Next(policy, earlier, signature)]
    ensures Ran(policy, earlier + [signature]) ==
      Ran(policy, earlier) + if Next(policy, earlier, signature) == Executed then [signature] else []
  {
  }

  lemma LastSplits(signatures: seq<string>)
    requires signatures != []
    ensures var n := |signatures| - 1;
      && signatures == signatures[..n] + [signatures[n]]
      && multiset(signatures) == multiset(signatures[..n]) + multiset{signatures[n]}
  {
  }

  lemma {:induction false} RanIsAmong(policy: Policy, signatures: seq<string>, s: string)
    ensures |Ran(policy, signatures)| <= |signatures|
    ensures multiset(Ran(policy, signatures))[s] <= multiset(signatures)[s]
  {
    if signatures != [] {
      LastSplits(signatures);
      RanIsAmong(policy, signatures[..|signatures| - 1], s);
    }
  }

  /** At most `maxToolCalls` tool calls run, and at most `maxRepeated` with one signature. */
  lemma {:induction false} ToolBudgetsHold(policy: Policy, signatures: seq<string>, s: string)
    ensures |Ran(policy, signatures)| <= Max(0, policy.maxToolCalls)
    ensures multiset(Ran(policy, signatures))[s] <= Max(0, policy.maxRepeated)
  {
    if signatures != [] {
      var n := |signatures| - 1;
      LastSplits(signatures);
      ToolBudgetsHold(policy, signatures[..n], s);
      RanIsAmong(policy, signatures[..n], s);
    }
  }

  lemma {:induction false} VerdictOfPrefix(policy: Policy, signatures: seq<string>, n: nat, i: nat)
    requires i < n <= |signatures|
    ensures Verdicts(policy, signatures[..n])[i] == Verdicts(policy, signatures)[i]
  {
    if n == |signatures| {
      assert signatures[..n] == signatures;
    } else {
      var m := |signatures| - 1;
      assert signatures[..m][..n] == signatures[..n];
      VerdictOfPrefix(policy, signatures[..m], n, i);
      hide Next;
    }
  }

  lemma VerdictAt(policy: Policy, signatures: seq<string>, j: nat)
    requires j < |signatures|
    ensures Verdicts(policy, signatures)[j] == Next(policy, signatures[..j], signatures[j])
  {
    VerdictOfPrefix(policy, signatures, j + 1, j);
    assert signatures[..j + 1] == signatures[..j] + [signatures[j]];
    OneMoreRequest(policy, signatures[..j], signatures[j]);
  }

  /** After the first refusal every further request is refused. */
  lemma RefusalIsFinal(policy: Policy, signatures: seq<string>, i: nat, j: nat)
    requires i < j < |signatures| && Verdicts(policy, signatures)[i] != Executed
    ensures Verdicts(policy, signatures)[j] == Exhausted
  {
    VerdictAt(policy, signatures, j);
    VerdictOfPrefix(policy, signatures, j, i);
    hide Verdicts;
    assert Verdicts(policy, signatures[..j])[i] in Verdicts(policy, signatures[..j]);
  }

  /** So nothing runs any more. */
  lemma {:induction false} NothingRunsAfterRefusal(policy: Policy, signatures: seq<string>, i: nat, j: nat)
    requires i < j <= |signatures| && Verdicts(policy, signatures)[i] != Executed
    ensures Ran(policy, signatures[..j]) == Ran(policy, signatures[..i])
    decreases j
  {
    var n := j - 1;
    VerdictAt(policy, signatures, n);
    assert signatures[..j] == signatures[..n] + [signatures[n]];
    OneMoreRequest(policy, signatures[..n], signatures[n]);
    hide Ran, Next;
    if i < n {
      RefusalIsFinal(policy, signatures, i, n);
      NothingRunsAfterRefusal(policy, signatures, i, n);
    }
  }

  // -------------------------------------------------------------- transcript

  function Results(calls: seq<ToolCall>): seq<Message> {
    seq(|calls|, i requires 0 <= i < |calls| => ToolResult(calls[i].id))
  }

  /** The messages the loop has appended after these calls. */
  ghost function Transcript(calls: seq<Call>): seq<Message> {
    if calls == [] then []
    else
      var asked := calls[|calls| - 1].response.toolCalls;
      Transcript(calls[..|calls| - 1]) + ([Assistant(asked)] + Results(asked))
  }

  /** Every assistant message is followed by exactly one result per tool call it made, in order. */
  ghost predicate Answered(messages: seq<Message>) {
    messages == [] ||
    (&& messages[0].Assistant?
     && var n := |messages[0].calls|;
        && 1 + n <= |messages|
        && messages[1..1 + n] == Results(messages[0].calls)
        && Answered(messages[1 + n..]))
  }

  lemma {:induction false} AnsweredRound(messages: seq<Message>, asked: seq<ToolCall>)
    requires Answered(messages)
    ensures Answered(messages + ([Assistant(asked)] + Results(asked)))
    decreases |messages|
  {
    var round := [Assistant(asked)] + Results(asked);
    if messages == [] {
      assert messages + round == round;
      OneRound(asked);
    } else {
      var n := |messages[0].calls|;
      hide Results;
      AnsweredRound(messages[1 + n..], asked);
      AnsweredCons(messages, round, n);
    }
  }

  lemma OneRound(asked: seq<ToolCall>)
    ensures Answered([Assistant(asked)] + Results(asked))
  {
    var round := [Assistant(asked)] + Results(asked);
    AnswersInOrder(asked);
    hide Results;
    assert round[1..1 + |asked|] == Results(asked) && round[1 + |asked|..] == [];
    AnsweredBy(round, |asked|);
  }

  lemma AnsweredBy(messages: seq<Message>, n: nat)
    requires messages != [] && messages[0].Assistant? && n == |messages[0].calls| && 1 + n <= |messages|
    requires messages[1..1 + n] == Results(messages[0].calls) && Answered(messages[1 + n..])
    ensures Answered(messages)
  {
  }

  lemma AnsweredCons(messages: seq<Message>, round: seq<Message>, n: nat)
    requires messages != [] && messages[0].Assistant? && n == |messages[0].calls| && 1 + n <= |messages|
    requires messages[1..1 + n] == Results(messages[0].calls) && Answered(messages[1 + n..] + round)
    ensures Answered(messages + round)
  {
    hide *;
    var all := messages + round;
    assert all[0] == messages[0];
    assert all[1..1 + n] == messages[1..1 + n];
    assert all[1 + n..] == messages[1 + n..] + round;
    AnsweredBy(all, n);
  }

  lemma {:induction false} TranscriptIsAnswered(calls: seq<Call>)
    ensures Answered(Transcript(calls))
  {
    if calls != [] {
      TranscriptIsAnswered(calls[..|calls| - 1]);
      AnsweredRound(Transcript(calls[..|calls| - 1]), calls[|calls| - 1].response.toolCalls);
    }
  }

  function Signatures(asked: seq<ToolCall>): seq<string> {
    seq(|asked|, i requires 0 <= i < |asked| => asked[i].signature)
  }

  ghost function Requested(calls: seq<Call>): seq<string> {
    if calls == [] then []
    else Requested(calls[..|calls| - 1]) + Signatures(calls[|calls| - 1].response.toolCalls)
  }

  // ---------------------------------------------------------------- the loop

  /** The dictionary counts each signature. */
  ghost predicate Counts(counts: map<string, nat>, requested: seq<string>) {
    forall s :: (if s in counts then counts[s] else 0) == multiset(requested)[s]
  }

  lemma CountOneMore(counts: map<string, nat>, requested: seq<string>, s: string)
    requires Counts(counts, requested)
    ensures (if s in counts then counts[s] else 0) == multiset(requested)[s]
    ensures Counts(counts[s := multiset(requested)[s] + 1], requested + [s])
  {
  }

  /** What ran and why the loop was forced to finish are those of the verdicts. */
  ghost predicate Tracked(policy: Policy, requested: seq<string>, ran: seq<string>, forced: Option<Stop>) {
    && ran == Ran(policy, requested)
    && (forced.Some? <==> Refused(Verdicts(policy, requested)))
    && (forced.Some? ==>
          || (forced == Some(ToolCallBudget) && OverCalls in Verdicts(policy, requested))
          || (forced == Some(RepetitionBudget) && Repeated in Verdicts(policy, requested)))
  }

  lemma TrackOneMore(policy: Policy, requested: seq<string>, ran: seq<string>, forced: Option<Stop>, s: string)
    requires Tracked(policy, requested, ran, forced)
    ensures var more := requested + [s];
      if forced.Some? then Tracked(policy, more, ran, forced)
      else if |requested| + 1 > policy.maxToolCalls then Tracked(policy, more, ran, Some(ToolCallBudget))
      else if multiset(requested)[s] + 1 > policy.maxRepeated then Tracked(policy, more, ran, Some(RepetitionBudget))
      else Tracked(policy, more, ran + [s], None)
  {
    OneMoreRequest(policy, requested, s);
    VerdictsGrow(Verdicts(policy, requested), Next(policy, requested, s));
    hide Verdicts, Ran, Refused;
  }

  /** What tool handling keeps in its variables about the calls requested so far. */
  ghost predicate Handled(policy: Policy, requested: seq<string>, count: nat, counts: map<string, nat>,
                          ran: seq<string>,
                          forced: Option<Stop>)
  {
    count == |requested| && Counts(counts, requested) && Tracked(policy, requested, ran, forced)
  }

  lemma HandleOne(policy: Policy, requested: seq<string>, count: nat, counts: map<string, nat>, ran: seq<string>,
                  forced: Option<Stop>, s: string)
    requires Handled(policy, requested, count, counts, ran, forced)
    ensures var times := 1 + if s in counts then counts[s] else 0;
      var more, counts' := requested + [s], counts[s := times];
      if forced.Some? then Handled(policy, more, count + 1, counts', ran, forced)
      else if count + 1 > policy.maxToolCalls then Handled(policy, more, count + 1, counts', ran, Some(ToolCallBudget))
      else if times > policy.maxRepeated then Handled(policy, more, count + 1, counts', ran, Some(RepetitionBudget))
      else Handled(policy, more, count + 1, counts', ran + [s], None)
  {
    CountOneMore(counts, requested, s);
    TrackOneMore(policy, requested, ran, forced, s);
    assert (if s in counts then counts[s] else 0) == multiset(requested)[s];
    hide Tracked, Counts;
  }

  lemma AnswersInOrder(asked: seq<ToolCall>)
    ensures |Signatures(asked)| == |Results(asked)| == |asked|
    ensures forall i :: 0 <= i < |asked| ==> Signatures(asked)[i] == asked[i].signature
    ensures forall i :: 0 <= i < |asked| ==> Results(asked)[i] == ToolResult(asked[i].id)
  {
  }

  /** The mutable state of tool handling. */
  class Tools {
    const policy: Policy
    var messages: seq<Message>
    var count: nat
    var counts: map<string, nat>
    var ran: seq<string>
    var forced: Option<Stop>
    ghost var requested: seq<string>

    constructor (policy: Policy)
      ensures Valid() && this.policy == policy && messages == [] && requested == [] && forced == None && ran == []
    {
      this.policy := policy;
      messages, count, counts, ran, forced, requested := [], 0, map[], [], None, [];
    }

    ghost predicate Valid()
      reads `count, `counts, `ran, `forced, `requested
    {
      Handled(policy, requested, count, counts, ran, forced)
    }

    lemma RanIs()
      requires Valid()
      ensures ran == Ran(policy, requested)
    {
      hide Ran, Verdicts, Refused, Counts;
    }

    lemma ForcedMeans()
      requires Valid()
      ensures forced.Some? <==> Refused(Verdicts(policy, requested))
      ensures forced == Some(ToolCallBudget) ==> OverCalls in Verdicts(policy, requested)
      ensures forced == Some(RepetitionBudget) ==> Repeated in Verdicts(policy, requested)
      ensures forced.Some? ==> forced.value == ToolCallBudget || forced.value == RepetitionBudget
    {
      hide Verdicts, Refused, Ran;
    }

    /** A requested tool call runs, or is refused by one of the budgets. */
    method Admit(signature: string) returns (runs: bool)
      requires Valid()
      modifies `count, `counts, `ran, `forced, `requested
      ensures Valid() && requested == old(requested) + [signature]
      ensures ran == if runs then old(ran) + [signature] else old(ran)
    {
      hide Handled;
      HandleOne(policy, requested, count, counts, ran, forced, signature);
      count := count + 1;
      var times := 1 + if signature in counts then counts[signature] else 0;
      counts := counts[signature := times];
      runs := false;
      if forced.Some? {
      } else if count > policy.maxToolCalls {
        forced := Some(ToolCallBudget);
      } else if times > policy.maxRepeated {
        forced := Some(RepetitionBudget);
      } else {
        ran, runs := ran + [signature], true;
      }
      requested := requested + [signature];
    }

    /** One tool call: it runs or is refused, and is answered either way. */
    method One(outside: Outside, call: ToolCall) returns (ok: bool)
      requires Valid() && ran == outside.runs
      modifies this, outside`last, outside`runs
      ensures Valid() && requested == old(requested) + [call.signature] && ran == outside.runs
      ensures ok ==> messages == old(messages) + [ToolResult(call.id)] && outside.last == old(outside.last)
      ensures !ok ==> messages == old(messages) && outside.last == ToolBroke && ran == old(ran) + [call.signature]
    {
      var runs := Admit(call.signature);
      hide Handled;
      if runs {
        ok := outside.Observe(call.signature);
        if !ok { return; }
      }
      messages := messages + [ToolResult(call.id)];
      return true;
    }

    /** All tool calls of one response. */
    method Round(outside: Outside, asked: seq<ToolCall>) returns (ok: bool)
      requires Valid() && ran == outside.runs
      modifies this, outside`last, outside`runs
      ensures Valid() && ran == outside.runs
      ensures outside.last == if ok then old(outside.last) else ToolBroke
      ensures old(requested) <= requested <= old(requested) + Signatures(asked)
      ensures ok ==> requested == old(requested) + Signatures(asked)
      ensures ok ==> messages == old(messages) + ([Assistant(asked)] + Results(asked))
    {
      hide Signatures, Results, Handled, Answering;
      ghost var start, before := messages, requested;
      messages := messages + [Assistant(asked)];
      AnsweringStarts(asked, start, before);
      for i := 0 to |asked|
        invariant Valid()
        invariant Answering(asked, i, start, before, messages, requested) && outside.last == old(outside.last)
        invariant ran == outside.runs
      {
        AnsweringGoesOn(asked, i, start, before, messages, requested);
        ok := One(outside, asked[i]);
        if !ok {
          AnsweringStops(asked, i, start, before, requested);
          return;
        }
      }
      AnsweringEnds(asked, start, before, messages, requested);
      return true;
    }
  }

  /** The first `i` of the tool calls asked for have been handled and answered. */
  ghost predicate Answering(asked: seq<ToolCall>, i: nat, start: seq<Message>, before: seq<string>,
                            messages: seq<Message>, requested: seq<string>)
    requires i <= |asked|
  {
    && |Signatures(asked)| == |Results(asked)| == |asked|
    && requested == before + Signatures(asked)[..i]
    && messages == start + [Assistant(asked)] + Results(asked)[..i]
  }

  lemma AnsweringStarts(asked: seq<ToolCall>, start: seq<Message>, before: seq<string>)
    ensures Answering(asked, 0, start, before, start + [Assistant(asked)], before)
  {
    AnswersInOrder(asked);
    hide Signatures, Results;
  }

  lemma AnsweringGoesOn(asked: seq<ToolCall>, i: nat, start: seq<Message>, before: seq<string>, messages: seq<Message>,
                        requested: seq<string>)
    requires i < |asked| && Answering(asked, i, start, before, messages, requested)
    ensures Answering(asked, i + 1, start, before, messages + [ToolResult(asked[i].id)],
                      requested + [asked[i].signature])
    ensures requested == before + Signatures(asked)[..i] && |Signatures(asked)| == |asked|
  {
    AnswersInOrder(asked);
    hide Signatures, Results;
    OneMoreOf(before, Signatures(asked), i);
    OneMoreOf(start + [Assistant(asked)], Results(asked), i);
  }

  lemma AnsweringStops(asked: seq<ToolCall>, i: nat, start: seq<Message>, before: seq<string>, requested: seq<string>)
    requires i < |asked| == |Signatures(asked)| && requested == before + Signatures(asked)[..i] + [asked[i].signature]
    ensures before <= requested <= before + Signatures(asked)
  {
    AnswersInOrder(asked);
    hide Signatures, Results;
    OneMoreOf(before, Signatures(asked), i);
    PrefixOfAppend(before, Signatures(asked), i + 1);
  }

  lemma AnsweringEnds(asked: seq<ToolCall>, start: seq<Message>, before: seq<string>, messages: seq<Message>,
                      requested: seq<string>)
    requires Answering(asked, |asked|, start, before, messages, requested)
    ensures requested == before + Signatures(asked)
    ensures messages == start + ([Assistant(asked)] + Results(asked))
  {
    hide Signatures, Results;
    assert Signatures(asked)[..|asked|] == Signatures(asked) && Results(asked)[..|asked|] == Results(asked);
  }

  lemma OneMoreOf<T>(before: seq<T>, s: seq<T>, i: nat)
    requires i < |s|
    ensures before + s[..i + 1] == before + s[..i] + [s[i]]
  {
  }

  lemma PrefixOfAppend(before: seq<string>, names: seq<string>, i: nat)
    requires i <= |names|
    ensures before <= before + names[..i] <= before + names
  {
    assert names == names[..i] + names[i..];
  }

  lemma VerdictsGrow(v: seq<Verdict>, x: Verdict)
    ensures Refused(v + [x]) <==> Refused(v) || x != Executed
    ensures x in v + [x] && forall y :: y in v ==> y in v + [x]
  {
    if Refused(v) {
      var y :| y in v && y != Executed;
      assert y in v + [x];
    }
    assert x in v + [x];
  }

  /** A call that offers no tools ends the loop. */
  ghost predicate ToollessIsLast(calls: seq<Call>) {
    forall i :: 0 <= i < |calls| - 1 ==> calls[i].offersTools && calls[i].response.toolCalls != []
  }

  ghost predicate AllAskedForTools(calls: seq<Call>) {
    forall i :: 0 <= i < |calls| ==> calls[i].offersTools && calls[i].response.toolCalls != []
  }

  lemma AskedSoFar(calls: seq<Call>)
    requires AllAskedForTools(calls)
    ensures ToollessIsLast(calls)
  {
  }

  lemma AskedOnceMore(calls: seq<Call>, c: Call)
    requires AllAskedForTools(calls)
    ensures ToollessIsLast(calls + [c])
    ensures c.offersTools && c.response.toolCalls != [] ==> AllAskedForTools(calls + [c])
  {
  }

  // ------------------------------------------------------------ one model call

  /** What an execution is given. */
  datatype Setup = Setup(policy: Policy, prices: seq<Option<Price>>, limit: Option<int>, hasTools: bool)

  ghost predicate CostLimited(s: Setup) {
    Priced(s.prices) && s.policy.maxCost.Some?
  }

  /** The money that is left, in millionths of a dollar. */
  ghost function Left(s: Setup, micros: real): real
    requires s.policy.maxCost.Some?
  {
    s.policy.maxCost.value * 1000000.0 - micros
  }

  /** So much output costs more than is left, or the input alone uses it up. */
  ghost predicate TooDear(prices: seq<Option<Price>>, estimate: int, tokens: int, left: real) {
    WorstMicros(prices, estimate, tokens) > left || WorstMicros(prices, estimate, 0) >= left
  }

  /** The size of a request is the largest that tokens, caller and money allow. */
  ghost predicate Sized(s: Setup, total: int, micros: real, estimate: int, tokens: int) {
    && total + estimate < s.policy.maxTotalTokens && total + estimate + tokens <= s.policy.maxTotalTokens
    && (s.limit.Some? ==> tokens <= s.limit.value)
    && (CostLimited(s) ==> tokens > 0 && !TooDear(s.prices, estimate, tokens, Left(s, micros)))
    && (total + estimate + tokens == s.policy.maxTotalTokens || s.limit == Some(tokens)
        || (CostLimited(s) && TooDear(s.prices, estimate, tokens + 1, Left(s, micros))))
  }

  /** Not a single output token can be granted for lack of money. */
  ghost predicate Unaffordable(s: Setup, micros: real, estimate: int) {
    && CostLimited(s)
    && ((s.limit.Some? && s.limit.value <= 0) || TooDear(s.prices, estimate, 1, Left(s, micros)))
  }

  /** The size of the next request, or the budget that forbids it. */
  method SizeRequest(s: Setup, total: int, micros: real, estimate: int) returns (r: Result<int, Stop>)
    requires estimate >= 1 && total < s.policy.maxTotalTokens
    ensures r.Ok? ==> Sized(s, total, micros, estimate, r.value)
    ensures r.Err? ==> r.error == TokenBudget || r.error == CostBudget
    ensures r == Err(TokenBudget) ==> total + estimate >= s.policy.maxTotalTokens
    ensures r == Err(CostBudget) ==>
      total + estimate < s.policy.maxTotalTokens && Unaffordable(s, micros, estimate)
  {
    hide CostBoundedTokens, WorstMicros;
    var policy := s.policy;
    var tokens := policy.maxTotalTokens - total - estimate;
    if tokens <= 0 {
      return Err(TokenBudget);
    }
    if s.limit.Some? && s.limit.value < tokens {
      tokens := s.limit.value;
    }
    if policy.maxCost.Some? && forall p :: p in s.prices ==> p.Some? {
      var money := MaxReal(0.0, policy.maxCost.value - micros / 1000000.0);
      ghost var wanted := tokens;
      tokens := CostBoundedTokens(tokens, money, s.prices, estimate);
      Granted(s, wanted, micros, money, estimate);
      if tokens <= 0 {
        return Err(CostBudget);
      }
    }
    return Ok(tokens);
  }

  lemma Granted(s: Setup, wanted: int, micros: real, money: real, estimate: int)
    requires estimate >= 1 && s.policy.maxCost.Some?
    requires money == MaxReal(0.0, s.policy.maxCost.value - micros / 1000000.0)
    ensures var granted, left := CostBoundedTokens(wanted, money, s.prices, estimate), Left(s, micros);
      && (granted > 0 ==> granted <= wanted && !TooDear(s.prices, estimate, granted, left)
                          && (granted == wanted || TooDear(s.prices, estimate, granted + 1, left)))
      && (granted <= 0 ==> wanted <= 0 || TooDear(s.prices, estimate, 1, left))
  {
    hide MaxInput, MaxOutput;
    var left := Left(s, micros);
    NoCost(MaxOutput(s.prices));
    InputIsNotFree(s.prices, estimate);
    if wanted > 0 {
      GrantedTokensArePaidFor(wanted, money, s.prices, estimate);
    }
  }

  lemma InputIsNotFree(prices: seq<Option<Price>>, estimate: int)
    requires estimate >= 0
    ensures WorstMicros(prices, estimate, 0) >= 0.0
  {
    hide MaxInput, MaxOutput;
    NoCost(MaxOutput(prices));
    CostIsCovered(0, estimate, MaxInput(prices), MaxInput(prices));
    NoCost(MaxInput(prices));
  }

  lemma CallFits(s: Setup, calls: seq<Call>, c: Call, micros: real)
    requires c.estimate >= 1 && Sized(s, Tokens(calls), micros, c.estimate, c.maxTokens)
    requires c.tokens == ResponseTokens(c.response.usage, s.policy.maxTotalTokens - Tokens(calls))
    requires Priced(s.prices) ==>
      && micros == Micros(calls)
      && SelectedPrice(c.response, s.prices).Some?
      && c.cost == ResponseMicros(c.response.usage, SelectedPrice(c.response, s.prices).value, c.tokens)
    ensures WithinBudget(s.policy, s.prices, calls, c)
    ensures Sized(s, Tokens(calls), Micros(calls), c.estimate, c.maxTokens)
  {
    hide WorstMicros, SelectedPrice, Tokens, Micros, ResponseTokens, ResponseMicros;
    InputIsNotFree(s.prices, c.estimate);
  }

  datatype Halt = OutOf(reason: Stop) | Broken

  /** A call that is not made: which budget forbids it. */
  ghost predicate Forbids(s: Setup, calls: seq<Call>, why: Stop, last: Event) {
    match why
    case Timeout => last == Late
    case TokenBudget =>
      last != Late && Tokens(calls) + (if last.Estimated? then last.tokens else 0) >= s.policy.maxTotalTokens
    case CostBudget =>
      && last.Estimated? && Tokens(calls) + last.tokens < s.policy.maxTotalTokens
      && Unaffordable(s, Micros(calls), last.tokens)
    case _ => false
  }

  /** A call that comes to nothing: the gateway raised, or the selected route has no single price. */
  ghost predicate BreaksDown(s: Setup, answer: Option<Response>) {
    answer.Some? ==> Priced(s.prices) && SelectedPrice(answer.value, s.prices).None?
  }

  /** One model call: sized, made, charged. */
  method OneCall(outside: Outside, s: Setup, messages: seq<Message>, offersTools: bool, total: int, micros: real,
                 ghost calls: seq<Call>)
    returns (r: Result<Call, Halt>)
    requires outside.last == Began || outside.last == Replied
    requires total == Tokens(calls) && (Priced(s.prices) ==> micros == Micros(calls))
    modifies outside`last, outside`answers
    ensures r.Ok? ==>
      && WithinBudget(s.policy, s.prices, calls, r.value)
      && Sized(s, Tokens(calls), Micros(calls), r.value.estimate, r.value.maxTokens)
      && r.value.messages == messages && r.value.offersTools == offersTools
      && outside.last == Replied && outside.answers == old(outside.answers) + [Some(r.value.response)]
    ensures r.Err? && r.error.OutOf? ==>
      && Forbids(s, calls, r.error.reason, outside.last) && outside.answers == old(outside.answers)
      && (outside.last == Late || outside.last.Estimated? || outside.last == old(outside.last))
    ensures r == Err(Broken) ==>
      && outside.last == Replied && |outside.answers| == |old(outside.answers)| + 1
      && old(outside.answers) <= outside.answers && BreaksDown(s, outside.answers[|old(outside.answers)|])
  {
    hide Tokens, Micros, WithinBudget, SelectedPrice, Sized, Unaffordable, ResponseTokens, ResponseMicros;
    var late := outside.Expired();
    if late { return Err(OutOf(Timeout)); }
    var remaining := s.policy.maxTotalTokens - total;
    if remaining <= 0 {
      NoTokensLeft(s, calls, outside.last);
      return Err(OutOf(TokenBudget));
    }
    var estimate := outside.Estimate();
    var size := SizeRequest(s, total, micros, estimate);
    if size.Err? {
      UnaffordableNow(s, micros, Micros(calls), estimate);
      return Err(OutOf(size.error));
    }
    var answer := outside.Complete();
    if answer.None? { return Err(Broken); }
    var tokens := ResponseTokens(answer.value.usage, remaining);
    var cost := 0.0;
    if forall p :: p in s.prices ==> p.Some? {
      var price := SelectedPrice(answer.value, s.prices);
      if price.None? {
        return Err(Broken);
      }
      cost := ResponseMicros(answer.value.usage, price.value, tokens);
    }
    var call := Call(messages, offersTools, estimate, size.value, answer.value, tokens, cost);
    CallFits(s, calls, call, micros);
    return Ok(call);
  }

  lemma NoTokensLeft(s: Setup, calls: seq<Call>, last: Event)
    requires Tokens(calls) >= s.policy.maxTotalTokens && (last == Began || last == Replied)
    ensures Forbids(s, calls, TokenBudget, last)
  {
    hide Tokens;
  }

  lemma UnaffordableNow(s: Setup, micros: real, spent: real, estimate: int)
    requires Priced(s.prices) ==> micros == spent
    ensures Unaffordable(s, micros, estimate) ==> Unaffordable(s, spent, estimate)
  {
    hide Priced, TooDear;
  }

  // ------------------------------------------------------------------ a run

  /** What happened in a run: its calls, the tool calls it handled, and what the outside did. */
  datatype Run = Run(calls: seq<Call>, requested: seq<string>, last: Event, answers: seq<Option<Response>>)

  ghost predicate HasText(calls: seq<Call>) {
    exists c :: c in calls && c.response.hasText
  }

  lemma OneMoreText(calls: seq<Call>, c: Call)
    ensures HasText(calls + [c]) <==> HasText(calls) || c.response.hasText
  {
    assert c in calls + [c];
    if HasText(calls) {
      var d :| d in calls && d.response.hasText;
      assert d in calls + [c];
    }
  }

  /** The call sent everything so far, offered tools unless the run was to be finished, and was sized. */
  ghost predicate Asked(s: Setup, before: seq<Call>, c: Call) {
    && c.messages == Transcript(before)
    && (c.offersTools <==>
          s.hasTools && |before| < s.policy.maxSteps - 1 && !Refused(Verdicts(s.policy, Requested(before))))
    && Sized(s, Tokens(before), Micros(before), c.estimate, c.maxTokens)
  }

  ghost predicate AllAsked(s: Setup, calls: seq<Call>) {
    forall i :: 0 <= i < |calls| ==> Asked(s, calls[..i], calls[i])
  }

  /** The calls are those that the gateway answered. */
  ghost predicate Heard(calls: seq<Call>, answers: seq<Option<Response>>) {
    |calls| <= |answers| && forall i :: 0 <= i < |calls| ==> answers[i] == Some(calls[i].response)
  }

  function Earlier(calls: seq<Call>): seq<Call> {
    if calls == [] then [] else calls[..|calls| - 1]
  }

  /** Neither tokens nor money are used up. */
  ghost predicate Solvent(s: Setup, calls: seq<Call>) {
    && Tokens(calls) < s.policy.maxTotalTokens
    && (CostLimited(s) ==> Micros(calls) < s.policy.maxCost.value * 1000000.0)
  }

  /** Tokens, or else money, are used up after a response. */
  ghost predicate Overspent(s: Setup, calls: seq<Call>, why: Stop) {
    if why == TokenBudget then Tokens(calls) >= s.policy.maxTotalTokens
    else
      && why == CostBudget && CostLimited(s)
      && Tokens(calls) < s.policy.maxTotalTokens && Micros(calls) >= s.policy.maxCost.value * 1000000.0
  }

  /** The last response came in time and within the budgets. */
  ghost predicate Judged(s: Setup, run: Run) {
    run.last == Replied && run.calls != [] && |run.answers| == |run.calls| && Solvent(s, run.calls)
  }

  /** It is a final answer, and all tool calls were handled before. */
  ghost predicate Concluded(s: Setup, run: Run) {
    && Judged(s, run) && run.requested == Requested(run.calls)
    && var response := run.calls[|run.calls| - 1].response;
      response.hasText && response.toolCalls == []
  }

  /** Which budget ends a run: before a call, after a response, or with a final answer that was forced. */
  ghost predicate Cause(s: Setup, why: Stop, run: Run) {
    match why
    case StepBudget => s.policy.maxSteps == 0 && run == Run([], [], Began, [])
    case ToolCallBudget => Concluded(s, run) && OverCalls in Verdicts(s.policy, run.requested)
    case RepetitionBudget => Concluded(s, run) && Repeated in Verdicts(s.policy, run.requested)
    case _ =>
      && |run.answers| == |run.calls|
      && ((run.requested == Requested(run.calls) && |run.calls| < s.policy.maxSteps && run.last != Replied
           && Forbids(s, run.calls, why, run.last))
          || (run.requested == Requested(Earlier(run.calls)) && run.calls != []
              && if why == Timeout then run.last == Late
                 else run.last == Replied && Overspent(s, run.calls, why)))
  }

  /** What each outcome means. */
  ghost predicate Justified(s: Setup, outcome: Outcome, run: Run) {
    match outcome
    case Finished => Concluded(s, run) && !Refused(Verdicts(s.policy, run.requested))
    case Stopped(why) => HasText(run.calls) && Cause(s, why, run)
    case Failed(NoText(why)) => !HasText(run.calls) && Cause(s, why, run)
    case Failed(Unpriced) =>
      s.policy.maxCost.Some? && !Priced(s.prices) && run == Run([], [], Began, [])
    case Failed(Raised) =>
      && run.last == Replied && run.requested == Requested(run.calls)
      && |run.answers| == |run.calls| + 1 && BreaksDown(s, run.answers[|run.calls|])
    case Failed(Empty) =>
      && Judged(s, run)
      && var response := run.calls[|run.calls| - 1].response;
        !response.hasText && response.toolCalls == []
    case Failed(LateTools) =>
      && Judged(s, run) && run.requested == Requested(Earlier(run.calls))
      && run.calls[|run.calls| - 1].response.toolCalls != [] && !run.calls[|run.calls| - 1].offersTools
    case Failed(ToolRaised) =>
      && run.last == ToolBroke && run.calls != [] && |run.answers| == |run.calls| && Solvent(s, run.calls)
      && run.calls[|run.calls| - 1].response.toolCalls != [] && run.calls[|run.calls| - 1].offersTools
  }

  /** What holds of the calls of every run. */
  ghost predicate Kept(s: Setup, run: Run) {
    && AllWithinBudget(s.policy, s.prices, run.calls) && AllAsked(s, run.calls) && ToollessIsLast(run.calls)
    && Heard(run.calls, run.answers) && Requested(Earlier(run.calls)) <= run.requested <= Requested(run.calls)
  }

  /** What a run guarantees about the calls it made, the tool calls it handled, and its end. */
  ghost predicate Sound(s: Setup, outcome: Outcome, run: Run) {
    && Kept(s, run) && Justified(s, outcome, run)
    && (outcome == Failed(Unpriced) <==> s.policy.maxCost.Some? && !Priced(s.prices))
  }

  lemma OneRefusal(policy: Policy, requested: seq<string>)
    ensures !(OverCalls in Verdicts(policy, requested) && Repeated in Verdicts(policy, requested))
  {
    var v := Verdicts(policy, requested);
    if OverCalls in v && Repeated in v {
      var i :| 0 <= i < |v| && v[i] == OverCalls;
      var j :| 0 <= j < |v| && v[j] == Repeated;
      if i < j {
        RefusalIsFinal(policy, requested, i, j);
      } else {
        RefusalIsFinal(policy, requested, j, i);
      }
    }
  }

  lemma OneCause(s: Setup, why: Stop, why': Stop, run: Run)
    requires Cause(s, why, run) && Cause(s, why', run)
    ensures why == why'
  {
    hide Verdicts, Tokens, Micros, Requested, Priced, Unaffordable;
    OneRefusal(s.policy, run.requested);
  }

  /** A run that is caused to end by a budget has no other end. */
  lemma NoOtherEnd(s: Setup, why: Stop, run: Run)
    requires Cause(s, why, run) && (s.policy.maxCost.Some? ==> Priced(s.prices))
    ensures !Justified(s, Failed(Raised), run) && !Justified(s, Failed(Empty), run)
    ensures !Justified(s, Failed(LateTools), run) && !Justified(s, Failed(ToolRaised), run)
    ensures !Justified(s, Finished, run)
  {
    hide Verdicts, Tokens, Micros, Requested, Priced, Unaffordable, BreaksDown;
    RefusedBy(Verdicts(s.policy, run.requested));
  }

  /** What happened determines how the run ends. */
  lemma OutcomeIsDetermined(s: Setup, outcome: Outcome, outcome': Outcome, run: Run)
    requires Sound(s, outcome, run) && Sound(s, outcome', run)
    ensures outcome == outcome'
  {
    hide Kept, Cause, Solvent, Verdicts, Refused, Requested, Priced, BreaksDown, HasText;
    if outcome != Failed(Unpriced) {
      if outcome.Stopped? || (outcome.Failed? && outcome.why.NoText?) {
        var why := if outcome.Stopped? then outcome.reason else outcome.why.reason;
        NoOtherEnd(s, why, run);
        if outcome'.Stopped? || (outcome'.Failed? && outcome'.why.NoText?) {
          OneCause(s, why, if outcome'.Stopped? then outcome'.reason else outcome'.why.reason, run);
        }
      } else if outcome'.Stopped? || (outcome'.Failed? && outcome'.why.NoText?) {
        NoOtherEnd(s, if outcome'.Stopped? then outcome'.reason else outcome'.why.reason, run);
      }
    }
  }

  /** A good final answer in time ends the run well, or forced if a tool call was refused before; and a run
      that ends otherwise has a reason. */
  lemma FinalAnswerCounts(s: Setup, outcome: Outcome, run: Run)
    requires Sound(s, outcome, run) && Concluded(s, run)
    ensures outcome == Finished <==> !Refused(Verdicts(s.policy, run.requested))
    ensures outcome != Finished ==> outcome == Stopped(ToolCallBudget) || outcome == Stopped(RepetitionBudget)
  {
    hide Kept, Verdicts, Tokens, Micros, Requested, Refused, Priced;
    LastHasText(run.calls);
    RefusedBy(Verdicts(s.policy, run.requested));
  }

  lemma LastHasText(calls: seq<Call>)
    requires calls != [] && calls[|calls| - 1].response.hasText
    ensures HasText(calls)
  {
    assert calls[|calls| - 1] in calls;
  }

  lemma RefusedBy(v: seq<Verdict>)
    ensures OverCalls in v || Repeated in v ==> Refused(v)
  {
  }

  // ------------------------------------------------------------------ the loop

  lemma Begin(s: Setup)
    ensures AllWithinBudget(s.policy, s.prices, []) && AllAsked(s, []) && AllAskedForTools([]) && ToollessIsLast([])
    ensures !HasText([]) && Heard([], [])
    ensures Transcript([]) == [] && Requested([]) == [] && Tokens([]) == 0 && Micros([]) == 0.0
  {
  }

  lemma NoSignatures()
    ensures Signatures([]) == []
  {
  }

  /** The loop state: every tool call of every call so far has been handled and answered. */
  ghost predicate Running(s: Setup, tools: Tools, calls: seq<Call>, answers: seq<Option<Response>>)
    reads tools
  {
    && tools.policy == s.policy && tools.Valid()
    && tools.messages == Transcript(calls) && tools.requested == Requested(calls)
    && AllWithinBudget(s.policy, s.prices, calls) && AllAsked(s, calls) && AllAskedForTools(calls)
    && Heard(calls, answers) && |answers| == |calls| && (calls != [] ==> Solvent(s, calls))
  }

  lemma OneMoreCall(s: Setup, calls: seq<Call>, c: Call)
    ensures Tokens(calls + [c]) == Tokens(calls) + c.tokens
    ensures Micros(calls + [c]) == Micros(calls) + c.cost
    ensures Transcript(calls + [c]) ==
      Transcript(calls) + ([Assistant(c.response.toolCalls)] + Results(c.response.toolCalls))
    ensures Requested(calls + [c]) == Requested(calls) + Signatures(c.response.toolCalls)
    ensures Earlier(calls + [c]) == calls
    ensures AllWithinBudget(s.policy, s.prices, calls) && WithinBudget(s.policy, s.prices, calls, c) ==>
      AllWithinBudget(s.policy, s.prices, calls + [c])
    ensures AllAsked(s, calls) && Asked(s, calls, c) ==> AllAsked(s, calls + [c])
  {
    var more := calls + [c];
    assert more[..|calls|] == calls;
    assert forall i :: 0 <= i < |calls| ==> more[..i] == calls[..i] && more[i] == calls[i];
    hide WithinBudget, Asked, Transcript, Requested, Tokens, Micros;
  }

  lemma HeardOneMore(calls: seq<Call>, answers: seq<Option<Response>>, c: Call)
    requires Heard(calls, answers) && |answers| == |calls|
    ensures Heard(calls + [c], answers + [Some(c.response)])
  {
  }

  /** Before the tool calls of the last call are handled. */
  lemma KeptBefore(s: Setup, calls: seq<Call>, c: Call, last: Event, answers: seq<Option<Response>>)
    requires AllWithinBudget(s.policy, s.prices, calls + [c]) && AllAsked(s, calls + [c]) && AllAskedForTools(calls)
    requires Heard(calls + [c], answers)
    ensures Kept(s, Run(calls + [c], Requested(calls), last, answers))
  {
    hide AllWithinBudget, AllAsked, AllAskedForTools, Heard, ToollessIsLast, Requested;
    OneMoreCall(s, calls, c);
    AskedOnceMore(calls, c);
  }

  /** While or after they are handled. */
  lemma KeptAfter(s: Setup, calls: seq<Call>, c: Call, requested: seq<string>, last: Event,
                  answers: seq<Option<Response>>)
    requires AllWithinBudget(s.policy, s.prices, calls + [c]) && AllAsked(s, calls + [c]) && AllAskedForTools(calls)
    requires Heard(calls + [c], answers)
    requires Requested(calls) <= requested <= Requested(calls) + Signatures(c.response.toolCalls)
    ensures Kept(s, Run(calls + [c], requested, last, answers))
  {
    hide AllWithinBudget, AllAsked, AllAskedForTools, Heard, ToollessIsLast, Requested, Signatures;
    OneMoreCall(s, calls, c);
    AskedOnceMore(calls, c);
  }

  /** Between two calls. */
  lemma KeptBetween(s: Setup, calls: seq<Call>, last: Event, answers: seq<Option<Response>>)
    requires AllWithinBudget(s.policy, s.prices, calls) && AllAsked(s, calls) && AllAskedForTools(calls)
    requires Heard(calls, answers)
    ensures Kept(s, Run(calls, Requested(calls), last, answers))
  {
    hide AllWithinBudget, AllAsked, AllAskedForTools, Heard, ToollessIsLast, Requested, Signatures;
    AskedSoFar(calls);
    if calls != [] {
      var n := |calls| - 1;
      assert calls == calls[..n] + [calls[n]];
      OneMoreCall(s, calls[..n], calls[n]);
    }
  }

  /** The budget that is used up after a response, in the order of the checks. */
  method Spent(outside: Outside, s: Setup, total: int, micros: real, ghost calls: seq<Call>)
    returns (why: Option<Stop>)
    requires total == Tokens(calls) && (Priced(s.prices) ==> micros == Micros(calls))
    modifies outside`last
    ensures outside.last == if why == Some(Timeout) then Late else old(outside.last)
    ensures why.Some? && why != Some(Timeout) ==> Overspent(s, calls, why.value)
    ensures why.None? ==> Solvent(s, calls)
  {
    hide Tokens, Micros;
    var late := outside.Expired();
    if late { return Some(Timeout); }
    if total >= s.policy.maxTotalTokens {
      return Some(TokenBudget);
    }
    var priced := forall p :: p in s.prices ==> p.Some?;
    if s.policy.maxCost.Some? && priced && micros >= s.policy.maxCost.value * 1000000.0 {
      return Some(CostBudget);
    }
    return None;
  }

  lemma EndsOverspent(s: Setup, hasBest: bool, why: Stop, calls: seq<Call>, c: Call, last: Event,
                      answers: seq<Option<Response>>)
    requires Kept(s, Run(calls + [c], Requested(calls), last, answers)) && |answers| == |calls| + 1
    requires hasBest <==> HasText(calls + [c])
    requires if why == Timeout then last == Late else last == Replied && Overspent(s, calls + [c], why)
    requires s.policy.maxCost.Some? ==> Priced(s.prices)
    ensures Sound(s, if hasBest then Stopped(why) else Failed(NoText(why)),
                  Run(calls + [c], Requested(calls), last, answers))
  {
    hide Kept, HasText, Requested, Tokens, Micros, Priced, Concluded, Forbids;
    assert Earlier(calls + [c]) == calls;
  }

  lemma EndsUncalled(s: Setup, hasBest: bool, why: Stop, calls: seq<Call>, last: Event, answers: seq<Option<Response>>)
    requires Kept(s, Run(calls, Requested(calls), last, answers)) && |answers| == |calls|
    requires hasBest <==> HasText(calls)
    requires Forbids(s, calls, why, last) && last != Replied && |calls| < s.policy.maxSteps
    requires s.policy.maxCost.Some? ==> Priced(s.prices)
    ensures Sound(s, if hasBest then Stopped(why) else Failed(NoText(why)), Run(calls, Requested(calls), last, answers))
  {
    hide Kept, HasText, Requested, Tokens, Micros, Priced, Concluded, Unaffordable;
  }

  lemma EndsBroken(s: Setup, calls: seq<Call>, answers: seq<Option<Response>>)
    requires Kept(s, Run(calls, Requested(calls), Replied, answers))
    requires |answers| == |calls| + 1 && BreaksDown(s, answers[|calls|])
    requires s.policy.maxCost.Some? ==> Priced(s.prices)
    ensures Sound(s, Failed(Raised), Run(calls, Requested(calls), Replied, answers))
  {
    hide Kept, Requested, BreaksDown;
  }

  /** A response without tool calls, within the budgets. */
  lemma EndsAnswered(s: Setup, forced: Option<Stop>, calls: seq<Call>, c: Call, requested: seq<string>,
                     answers: seq<Option<Response>>)
    requires Kept(s, Run(calls + [c], requested, Replied, answers)) && |answers| == |calls| + 1
    requires Solvent(s, calls + [c]) && requested == Requested(calls + [c]) && c.response.toolCalls == []
    requires forced.Some? <==> Refused(Verdicts(s.policy, requested))
    requires forced == Some(ToolCallBudget) ==> OverCalls in Verdicts(s.policy, requested)
    requires forced == Some(RepetitionBudget) ==> Repeated in Verdicts(s.policy, requested)
    requires forced.Some? ==> forced.value == ToolCallBudget || forced.value == RepetitionBudget
    requires s.policy.maxCost.Some? ==> Priced(s.prices)
    ensures Sound(s, if !c.response.hasText then Failed(Empty)
                     else if forced.Some? then Stopped(forced.value) else Finished,
                  Run(calls + [c], requested, Replied, answers))
  {
    hide Kept, Requested, Verdicts, Refused, Solvent, HasText;
    OneMoreText(calls, c);
  }

  lemma EndsLate(s: Setup, calls: seq<Call>, c: Call, answers: seq<Option<Response>>)
    requires Kept(s, Run(calls + [c], Requested(calls), Replied, answers)) && |answers| == |calls| + 1
    requires Solvent(s, calls + [c]) && c.response.toolCalls != [] && !c.offersTools
    requires s.policy.maxCost.Some? ==> Priced(s.prices)
    ensures Sound(s, Failed(LateTools), Run(calls + [c], Requested(calls), Replied, answers))
  {
    hide Kept, Requested, Solvent;
    assert Earlier(calls + [c]) == calls;
  }

  lemma EndsInTool(s: Setup, calls: seq<Call>, c: Call, requested: seq<string>, answers: seq<Option<Response>>)
    requires Kept(s, Run(calls + [c], requested, ToolBroke, answers)) && |answers| == |calls| + 1
    requires Solvent(s, calls + [c]) && c.response.toolCalls != [] && c.offersTools
    requires s.policy.maxCost.Some? ==> Priced(s.prices)
    ensures Sound(s, Failed(ToolRaised), Run(calls + [c], requested, ToolBroke, answers))
  {
    hide Kept, Requested, Solvent;
  }

  lemma StillRunning(s: Setup, tools: Tools, calls: seq<Call>, c: Call, answers: seq<Option<Response>>)
    requires tools.policy == s.policy && tools.Valid()
    requires tools.messages == Transcript(calls + [c]) && tools.requested == Requested(calls + [c])
    requires AllWithinBudget(s.policy, s.prices, calls + [c]) && AllAsked(s, calls + [c]) && AllAskedForTools(calls)
    requires c.offersTools && c.response.toolCalls != []
    requires Heard(calls + [c], answers) && |answers| == |calls| + 1 && Solvent(s, calls + [c])
    ensures Running(s, tools, calls + [c], answers)
  {
    hide AllWithinBudget, AllAsked, AllAskedForTools, Heard, Solvent, Transcript, Requested, tools.Valid;
    AskedOnceMore(calls, c);
  }

  /** The response is judged: budgets first, then a final answer, then its tool calls. */
  method Judge(outside: Outside, s: Setup, tools: Tools, call: Call, hasBest: bool, total: int, micros: real,
               ghost calls: seq<Call>, ghost answers: seq<Option<Response>>)
    returns (done: Option<Outcome>)
    requires Running(s, tools, calls, answers) && outside.last == Replied
    requires outside.answers == answers + [Some(call.response)]
    requires WithinBudget(s.policy, s.prices, calls, call) && Asked(s, calls, call)
    requires total == Tokens(calls + [call]) && (Priced(s.prices) ==> micros == Micros(calls + [call]))
    requires hasBest <==> HasText(calls + [call])
    requires (s.policy.maxCost.Some? ==> Priced(s.prices)) && tools.ran == outside.runs
    modifies tools, outside`last, outside`runs
    ensures tools.Valid() && tools.policy == s.policy && tools.ran == outside.runs
    ensures done.None? ==>
      Running(s, tools, calls + [call], outside.answers) && call.offersTools && outside.last == Replied
    ensures done.Some? ==> Sound(s, done.value, Run(calls + [call], tools.requested, outside.last, outside.answers))
  {
    hide *;
    ghost var more := calls + [call];
    RunningParts(s, tools, calls, answers);
    OneMoreCall(s, calls, call);
    HeardOneMore(calls, answers, call);
    var response := call.response;
    var spent := Spent(outside, s, total, micros, more);
    if spent.Some? {
      KeptBefore(s, calls, call, outside.last, outside.answers);
      EndsOverspent(s, hasBest, spent.value, calls, call, outside.last, outside.answers);
      done := Some(if hasBest then Stopped(spent.value) else Failed(NoText(spent.value)));
      return;
    }
    if response.toolCalls == [] {
      tools.ForcedMeans();
      NoSignatures();
      KeptAfter(s, calls, call, tools.requested, Replied, outside.answers);
      EndsAnswered(s, tools.forced, calls, call, tools.requested, outside.answers);
      done := Some(if !response.hasText then Failed(Empty)
                   else if tools.forced.Some? then Stopped(tools.forced.value) else Finished);
      return;
    }
    if !call.offersTools {
      KeptBefore(s, calls, call, Replied, outside.answers);
      EndsLate(s, calls, call, outside.answers);
      done := Some(Failed(LateTools));
      return;
    }
    AskedMessages(s, calls, call);
    var ok := tools.Round(outside, response.toolCalls);
    if ok {
      StillRunning(s, tools, calls, call, outside.answers);
      return None;
    }
    KeptAfter(s, calls, call, tools.requested, ToolBroke, outside.answers);
    EndsInTool(s, calls, call, tools.requested, outside.answers);
    done := Some(Failed(ToolRaised));
  }

  lemma RunningParts(s: Setup, tools: Tools, calls: seq<Call>, answers: seq<Option<Response>>)
    requires Running(s, tools, calls, answers)
    ensures tools.policy == s.policy && tools.Valid()
    ensures tools.messages == Transcript(calls) && tools.requested == Requested(calls)
    ensures AllWithinBudget(s.policy, s.prices, calls) && AllAsked(s, calls) && AllAskedForTools(calls)
    ensures Heard(calls, answers) && |answers| == |calls| && (calls != [] ==> Solvent(s, calls))
  {
    hide AllWithinBudget, AllAsked, AllAskedForTools, Heard, Solvent, Transcript, Requested, tools.Valid;
  }

  lemma AskedMessages(s: Setup, calls: seq<Call>, c: Call)
    requires Asked(s, calls, c)
    ensures c.messages == Transcript(calls)
  {
    hide Transcript, Sized, Verdicts, Refused, Requested;
  }

  lemma AskedNow(s: Setup, calls: seq<Call>, c: Call)
    requires c.messages == Transcript(calls)
    requires c.offersTools <==>
      s.hasTools && |calls| < s.policy.maxSteps - 1 && !Refused(Verdicts(s.policy, Requested(calls)))
    requires Sized(s, Tokens(calls), Micros(calls), c.estimate, c.maxTokens)
    ensures Asked(s, calls, c)
  {
    hide Transcript, Sized, Verdicts, Refused, Requested;
  }

  lemma AskedOffers(s: Setup, calls: seq<Call>, c: Call)
    requires Asked(s, calls, c)
    ensures c.offersTools ==> |calls| < s.policy.maxSteps - 1
  {
    hide Transcript, Sized, Verdicts, Refused, Requested;
  }

  lemma StartsRunning(s: Setup, tools: Tools)
    requires tools.policy == s.policy && tools.Valid() && tools.messages == [] && tools.requested == []
    ensures Running(s, tools, [], [])
  {
    Begin(s);
    hide AllWithinBudget, AllAsked, AllAskedForTools, Heard, Solvent, Transcript, Requested, tools.Valid;
  }

  lemma NeverBegun(s: Setup)
    ensures s.policy.maxCost.Some? && !Priced(s.prices) ==> Sound(s, Failed(Unpriced), Run([], [], Began, []))
    ensures s.policy.maxSteps == 0 && (s.policy.maxCost.Some? ==> Priced(s.prices)) ==>
      Sound(s, Failed(NoText(StepBudget)), Run([], [], Began, []))
  {
    Begin(s);
    KeptBetween(s, [], Began, []);
    hide Kept, HasText, Priced;
  }

  lemma PricedMeans(s: Setup)
    ensures Priced(s.prices) <==> forall p :: p in s.prices ==> p.Some?
  {
  }

  lemma HeardStill(calls: seq<Call>, answers: seq<Option<Response>>, more: seq<Option<Response>>)
    requires Heard(calls, answers) && answers <= more
    ensures Heard(calls, more)
  {
  }

  lemma NotReplied(s: Setup, calls: seq<Call>, why: Stop, last: Event)
    requires Forbids(s, calls, why, last) && (calls != [] ==> Solvent(s, calls))
    requires last == Late || last.Estimated? || (calls == [] && last == Began) || (calls != [] && last == Replied)
    ensures last != Replied
  {
    hide Unaffordable, Tokens;
  }

  /** The loop against an arbitrary model, arbitrary tools and an arbitrary clock. It never gets to its
      last line with any step left: the step before the limit offers no tools, so it ends the loop. */
  method Loop(outside: Outside, s: Setup)
    returns (outcome: Outcome, calls: seq<Call>, tools: Tools)
    requires outside.last == Began && outside.answers == [] && outside.runs == []
    modifies outside
    ensures fresh(tools) && tools.policy == s.policy && tools.Valid() && tools.ran == outside.runs
    ensures |outside.answers| <= s.policy.maxSteps
    ensures Sound(s, outcome, Run(calls, tools.requested, outside.last, outside.answers))
  {
    hide *;
    tools := new Tools(s.policy);
    calls := [];
    Begin(s);
    NeverBegun(s);
    StartsRunning(s, tools);
    var priced := forall p :: p in s.prices ==> p.Some?;
    PricedMeans(s);
    if s.policy.maxCost.Some? && !priced {
      return Failed(Unpriced), calls, tools;
    }
    var total, micros, hasBest, forceFinal := 0, 0.0, false, false;
    var index := 0;
    while index < s.policy.maxSteps
      invariant 0 <= index <= s.policy.maxSteps && |calls| == index && tools.ran == outside.runs
      invariant Running(s, tools, calls, outside.answers) && |outside.answers| == index && fresh(tools)
      invariant outside.last == if calls == [] then Began else Replied
      invariant total == Tokens(calls) && (priced ==> micros == Micros(calls))
      invariant tools.forced.Some? ==> forceFinal
      invariant forceFinal ==> tools.forced.Some? || index >= s.policy.maxSteps - 1
      invariant index > 0 ==> index < s.policy.maxSteps
      invariant hasBest <==> HasText(calls)
    {
      RunningParts(s, tools, calls, outside.answers);
      tools.ForcedMeans();
      ghost var answers := outside.answers;
      var offersTools := s.hasTools && !forceFinal && index < s.policy.maxSteps - 1;
      var asked := OneCall(outside, s, tools.messages, offersTools, total, micros, calls);
      if asked.Err? {
        HeardStill(calls, answers, outside.answers);
        KeptBetween(s, calls, outside.last, outside.answers);
        if asked.error == Broken {
          EndsBroken(s, calls, outside.answers);
          return Failed(Raised), calls, tools;
        }
        NotReplied(s, calls, asked.error.reason, outside.last);
        EndsUncalled(s, hasBest, asked.error.reason, calls, outside.last, outside.answers);
        return if hasBest then Stopped(asked.error.reason) else Failed(NoText(asked.error.reason)), calls, tools;
      }
      var call := asked.value;
      AskedNow(s, calls, call);
      AskedOffers(s, calls, call);
      OneMoreCall(s, calls, call);
      OneMoreText(calls, call);
      total, micros := total + call.tokens, micros + call.cost;
      hasBest := hasBest || call.response.hasText;
      var done := Judge(outside, s, tools, call, hasBest, total, micros, calls, answers);
      calls := calls + [call];
      if done.Some? {
        return done.value, calls, tools;
      }
      RunningParts(s, tools, calls, outside.answers);
      if tools.forced.Some? || index >= s.policy.maxSteps - 2 {
        forceFinal := true;
      }
      index := index + 1;
    }
    RunningParts(s, tools, calls, outside.answers);
    return Failed(NoText(StepBudget)), calls, tools;
  }

  /** What the budgets come to for a caller. */
  ghost predicate WithinAllBudgets(s: Setup, calls: seq<Call>, ran: seq<string>) {
    && |ran| <= Max(0, s.policy.maxToolCalls)
    && (forall x :: multiset(ran)[x] <= Max(0, s.policy.maxRepeated))
    && (forall i :: 0 <= i < |calls| ==>
          Answered(calls[i].messages) && Tokens(calls[..i]) < s.policy.maxTotalTokens)
    && (AllHonest(calls) && NonNegative(s.prices) && calls != [] ==>
          && Tokens(calls) <= s.policy.maxTotalTokens
          && (CostLimited(s) ==> Micros(calls) <= s.policy.maxCost.value * 1000000.0))
  }

  lemma KeptMeansWithinBudgets(s: Setup, run: Run)
    requires Kept(s, run)
    ensures WithinAllBudgets(s, run.calls, Ran(s.policy, run.requested))
  {
    hide AllWithinBudget, Ran, Verdicts, Refused, Tokens, Micros, Transcript, Answered, Honest, Sized, Heard, Requested,
         ToollessIsLast;
    var calls := run.calls;
    ToolBudgetsHold(s.policy, run.requested, "");
    forall x
      ensures multiset(Ran(s.policy, run.requested))[x] <= Max(0, s.policy.maxRepeated)
    {
      ToolBudgetsHold(s.policy, run.requested, x);
    }
    forall i | 0 <= i < |calls|
      ensures Answered(calls[i].messages) && Tokens(calls[..i]) < s.policy.maxTotalTokens
    {
      assert Asked(s, calls[..i], calls[i]);
      TranscriptIsAnswered(calls[..i]);
      OnlyTheLastCallOvershoots(s.policy, s.prices, calls, i);
    }
    if AllHonest(calls) && NonNegative(s.prices) && calls != [] {
      HonestRunStaysWithinBudget(s.policy, s.prices, calls, |calls|);
      assert calls[..|calls|] == calls;
    }
  }

  lemma SoundIsKept(s: Setup, outcome: Outcome, run: Run)
    requires Sound(s, outcome, run)
    ensures Kept(s, run)
  {
  }

  /** A whole execution: at most `maxSteps` calls of the gateway, one that raised included; the tool budgets are
      kept whatever happens, the token and cost budgets too if the responses are honest. */
  method Execute(outside: Outside, s: Setup)
    returns (outcome: Outcome, calls: seq<Call>, ran: seq<string>, ghost requested: seq<string>)
    requires outside.last == Began && outside.answers == [] && outside.runs == []
    modifies outside
    ensures |outside.answers| <= s.policy.maxSteps
    ensures Sound(s, outcome, Run(calls, requested, outside.last, outside.answers))
    ensures ran == Ran(s.policy, requested) == outside.runs
    ensures WithinAllBudgets(s, calls, ran)
  {
    var tools;
    outcome, calls, tools := Loop(outside, s);
    hide *;
    tools.RanIs();
    ran, requested := tools.ran, tools.requested;
    SoundIsKept(s, outcome, Run(calls, requested, outside.last, outside.answers));
    KeptMeansWithinBudgets(s, Run(calls, requested, outside.last, outside.answers));
  }
}
