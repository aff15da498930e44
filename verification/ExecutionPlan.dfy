/** Execution plans: the depth-first cycle search, plan validation, the layered order and the
    artifact dataflow check. */
module ExecutionPlan {
  import opened Wrappers
  import opened Sequences
  import opened Graph

  datatype Step = Step(
    id: string,
    role: string,
    dependencies: seq<string>,
    controller: Option<string>,
    modelRuntime: bool,
    hasCriteria: bool,
    expected: seq<string>,
    required: seq<string>,
    gateRequired: seq<string>)

  datatype Plan = Plan(
    steps: seq<Step>,
    fromPack: bool,
    finalArtifact: string,
    snapshotRoles: seq<string>,
    snapshotIds: seq<string>,
    evalNames: seq<string>)

  function Ids(steps: seq<Step>): (ids: seq<string>)
    ensures |ids| == |steps| && forall i :: 0 <= i < |steps| ==> ids[i] == steps[i].id
  {
    seq(|steps|, i requires 0 <= i < |steps| => steps[i].id)
  }

  /** The dictionary from step id to dependencies; a later step with the same id wins. */
  function DependencyMap(steps: seq<Step>): (g: Dependencies)
    ensures forall u :: u in g <==> u in Ids(steps)
  {
    if steps == [] then map[]
    else
      var last := |steps| - 1;
      assert Ids(steps) == Ids(steps[..last]) + [steps[last].id];
      DependencyMap(steps[..last])[steps[last].id := steps[last].dependencies]
  }

  lemma {:induction false} DependenciesOf(steps: seq<Step>, i: nat)
    requires i < |steps| && Distinct(Ids(steps))
    ensures steps[i].id in DependencyMap(steps) && DependencyMap(steps)[steps[i].id] == steps[i].dependencies
  {
    var last := |steps| - 1;
    if i < last {
      assert Ids(steps) == Ids(steps[..last]) + [steps[last].id];
      DependenciesOf(steps[..last], i);
      assert Ids(steps)[i] != Ids(steps)[last];
    }
  }

  // ------------------------------------------------------------ cycle search

  function PositionOf(path: seq<string>, u: string): (i: nat)
    requires u in path
    ensures i < |path| && path[i] == u
  {
    if path[0] == u then 0 else 1 + PositionOf(path[1..], u)
  }

  /** The steps on the way are those of the path, which is a walk; the finished ones are a possible run. */
  ghost predicate Searching(g: Dependencies, visiting: set<string>, visited: set<string>, path: seq<string>,
                            finished: seq<string>)
  {
    && (forall u :: u in visiting <==> u in path)
    && (forall u :: u in visited <==> u in finished)
    && visiting !! visited
    && Distinct(path)
    && (path != [] ==> IsWalk(g, path))
    && Respects(g, finished)
    && visiting <= g.Keys
  }

  lemma EnterStep(g: Dependencies, visiting: set<string>, visited: set<string>, path: seq<string>,
                  finished: seq<string>,
                  step: string)
    requires Searching(g, visiting, visited, path, finished) && step in g && step !in visiting + visited
    requires path != [] ==> Edge(g, path[|path| - 1], step)
    ensures Searching(g, visiting + {step}, visited, path + [step], finished)
    ensures step in g.Keys - visiting - visited
  {
    CloseWalk(g, path, step);
    hide IsWalk, Respects;
  }

  lemma LeaveStep(g: Dependencies, visiting: set<string>, visited: set<string>, path: seq<string>,
                  finished: seq<string>,
                  step: string)
    requires Searching(g, visiting, visited, path + [step], finished)
    requires step in g && forall k :: 0 <= k < |g[step]| ==> g[step][k] in visited
    ensures Searching(g, visiting - {step}, visited + {step}, path, finished + [step])
  {
    var longer := path + [step];
    assert longer[|path|] == step && step in longer && longer[..|path|] == path;
    assert step !in path by {
      assert forall i :: 0 <= i < |path| ==> longer[i] == path[i];
    }
    WalkWithoutLast(g, path, step);
    ExtendOrder(g, finished, step);
    hide IsWalk, Respects;
  }

  lemma WalkWithoutLast(g: Dependencies, path: seq<string>, step: string)
    requires IsWalk(g, path + [step])
    ensures path != [] ==> IsWalk(g, path)
  {
    if path != [] {
      SubWalk(g, path + [step], 0, |path|);
      assert (path + [step])[0..|path|] == path;
    }
  }

  /** The depth-first search with its three mutable collections. */
  class CycleSearch {
    const dependencies: Dependencies
    var visiting: set<string>
    var visited: set<string>
    var path: seq<string>
    ghost var finished: seq<string>  // visited, in the order in which the steps were left

    constructor (g: Dependencies)
      ensures dependencies == g && visiting == visited == {} && path == [] && Valid()
    {
      dependencies := g;
      visiting, visited, path, finished := {}, {}, [], [];
    }

    ghost predicate Valid()
      reads this
    {
      Searching(dependencies, visiting, visited, path, finished)
    }

    method Visit(step: string) returns (cycle: seq<string>)
      requires Valid() && Closed(dependencies) && step in dependencies
      requires path != [] ==> Edge(dependencies, path[|path| - 1], step)
      modifies this
      ensures cycle == [] ==>
        && Valid() && step in visited
        && path == old(path) && visiting == old(visiting) && old(visited) <= visited
      ensures cycle != [] ==> IsSimpleCycle(dependencies, cycle)
      decreases dependencies.Keys - visiting - visited
    {
      hide Searching, Respects, IsWalk, IsSimpleCycle, Closed, Edge;
      if step in visiting {
        return CloseCycle(step);
      }
      if step in visited {
        return [];
      }
      ghost var before, found := path, visited;
      EnterStep(dependencies, visiting, visited, path, finished, step);
      visiting := visiting + {step};
      path := path + [step];
      var i := 0;
      while i < |dependencies[step]|
        invariant 0 <= i <= |dependencies[step]|
        invariant Valid()
        invariant path == before + [step] && visiting == old(visiting) + {step} && found <= visited
        invariant forall k :: 0 <= k < i ==> dependencies[step][k] in visited
      {
        NextDependency(dependencies, step, i);
        cycle := Visit(dependencies[step][i]);
        if cycle != [] {
          return cycle;
        }
        i := i + 1;
      }
      path := path[..|path| - 1];
      LeaveStep(dependencies, visiting, visited, path, finished, step);
      visiting := visiting - {step};
      visited := visited + {step};
      finished := finished + [step];
      return [];
    }

    /** `[*path[start:], step_id]`. */
    function CloseCycle(step: string): (cycle: seq<string>)
      requires Valid() && step in visiting && (path != [] ==> Edge(dependencies, path[|path| - 1], step))
      reads this
      ensures IsSimpleCycle(dependencies, cycle)
    {
      var start := PositionOf(path, step);
      CycleFound(dependencies, path, start, step);
      path[start..] + [step]
    }
  }

  lemma NextDependency(g: Dependencies, step: string, i: nat)
    requires Closed(g) && step in g && i < |g[step]|
    ensures Edge(g, step, g[step][i]) && g[step][i] in g
  {
  }

  lemma CloseWalk(g: Dependencies, p: seq<string>, u: string)
    requires p != [] ==> IsWalk(g, p) && Edge(g, p[|p| - 1], u)
    ensures IsWalk(g, p + [u])
  {
  }

  lemma CycleFound(g: Dependencies, path: seq<string>, start: nat, u: string)
    requires Distinct(path) && start < |path| && path[start] == u
    requires IsWalk(g, path) && Edge(g, path[|path| - 1], u)
    ensures IsSimpleCycle(g, path[start..] + [u])
  {
  }

  /** The search answers the empty list exactly for acyclic plans, and otherwise a simple cycle. */
  method DependencyCycle(steps: seq<Step>) returns (cycle: seq<string>)
    requires Closed(DependencyMap(steps))
    ensures cycle == [] <==> Acyclic(DependencyMap(steps))
    ensures cycle != [] ==> IsSimpleCycle(DependencyMap(steps), cycle)
  {
    var g := DependencyMap(steps);
    var search := new CycleSearch(g);
    var i := 0;
    while i < |steps|
      invariant 0 <= i <= |steps|
      invariant search.dependencies == g && search.Valid() && search.path == []
      invariant forall k :: 0 <= k < i ==> steps[k].id in search.visited
    {
      assert Ids(steps)[i] == steps[i].id;
      cycle := search.Visit(steps[i].id);
      if cycle != [] {
        return cycle;
      }
      i := i + 1;
    }
    forall u | u in g
      ensures u in search.finished
    {
      var k :| 0 <= k < |Ids(steps)| && Ids(steps)[k] == u;
      assert steps[k].id in search.visited;
    }
    OrderedIsAcyclic(g, search.finished);
    return [];
  }

  // --------------------------------------------------------------- validation

  ghost predicate StepAccepted(plan: Plan, s: Step) {
    && (forall d :: d in s.dependencies ==> d in Ids(plan.steps))
    && s.id !in s.dependencies
    && (s.controller.Some? ==> s.controller.value in Ids(plan.steps))
    && (!plan.fromPack ==> s.modelRuntime && s.hasCriteria)
  }

  ghost predicate IsSink(steps: seq<Step>, id: string) {
    forall s :: s in steps ==> id !in s.dependencies
  }

  /** What a valid plan is. */
  ghost predicate ValidPlan(plan: Plan) {
    && Distinct(Ids(plan.steps))
    && Distinct(plan.snapshotRoles) && Distinct(plan.snapshotIds) && Distinct(plan.evalNames)
    && (plan.snapshotRoles != [] ==> forall s :: s in plan.steps ==> s.role in plan.snapshotRoles)
    && (forall s :: s in plan.steps ==> StepAccepted(plan, s))
    && Acyclic(DependencyMap(plan.steps))
    && exists s :: s in plan.steps && IsSink(plan.steps, s.id) && plan.finalArtifact in s.expected
  }

  lemma KnownStepsClose(plan: Plan)
    requires Distinct(Ids(plan.steps))
    requires forall s :: s in plan.steps ==> forall d :: d in s.dependencies ==> d in Ids(plan.steps)
    ensures Closed(DependencyMap(plan.steps))
  {
    var g := DependencyMap(plan.steps);
    forall u, d | u in g && d in g[u]
      ensures d in g
    {
      var i :| 0 <= i < |Ids(plan.steps)| && Ids(plan.steps)[i] == u;
      DependenciesOf(plan.steps, i);
      assert plan.steps[i] in plan.steps;
    }
  }

  /** `dependedOn` is the union of all dependency lists, so its complement is the set of sinks. */
  method DependedOn(steps: seq<Step>) returns (dependedOn: set<string>)
    ensures forall id :: id !in dependedOn <==> IsSink(steps, id)
  {
    dependedOn := {};
    for i := 0 to |steps|
      invariant forall id :: id in dependedOn <==> exists k :: 0 <= k < i && id in steps[k].dependencies
    {
      dependedOn := dependedOn + set d | d in steps[i].dependencies;
    }
  }

  /** Validation accepts exactly the valid plans. */
  method ValidatePlan(plan: Plan) returns (accepted: bool)
    ensures accepted <==> ValidPlan(plan)
  {
    hide Acyclic;
    var ids := Ids(plan.steps);
    var uniqueIds := AllUnique(ids);
    if !uniqueIds { return false; }
    var uniqueRoles := AllUnique(plan.snapshotRoles);
    var uniqueSnapshots := AllUnique(plan.snapshotIds);
    if !uniqueRoles || !uniqueSnapshots { return false; }
    var uniqueEvals := AllUnique(plan.evalNames);
    if !uniqueEvals { return false; }
    if plan.snapshotRoles != [] {
      if exists s :: s in plan.steps && s.role !in plan.snapshotRoles { return false; }
    }
    for i := 0 to |plan.steps|
      invariant forall k :: 0 <= k < i ==> StepAccepted(plan, plan.steps[k])
    {
      var step := plan.steps[i];
      if || (exists d :: d in step.dependencies && d !in ids)
         || step.id in step.dependencies
         || (step.controller.Some? && step.controller.value !in ids)
         || (!plan.fromPack && !step.modelRuntime)
         || (!plan.fromPack && !step.hasCriteria)
      {
        assert !StepAccepted(plan, step);
        return false;
      }
    }
    assert forall s :: s in plan.steps ==> StepAccepted(plan, s);
    KnownStepsClose(plan);
    var cycle := DependencyCycle(plan.steps);
    if cycle != [] {
      return false;
    }
    var dependedOn := DependedOn(plan.steps);
    accepted := exists s :: s in plan.steps && s.id !in dependedOn && plan.finalArtifact in s.expected;
  }

  // ----------------------------------------------------------- layered order

  /** The steps whose dependencies are all completed, in plan order. */
  function Ready(remaining: seq<Step>, completed: set<string>): (ready: seq<Step>)
    ensures forall s :: s in ready <==> s in remaining && forall d :: d in s.dependencies ==> d in completed
  {
    if remaining == [] then []
    else
      var rest := Ready(remaining[1..], completed);
      if forall d :: d in remaining[0].dependencies ==> d in completed then [remaining[0]] + rest else rest
  }

  lemma HeadApart(steps: seq<Step>)
    requires steps != [] && Distinct(Ids(steps))
    ensures Distinct(Ids(steps[1..])) && forall t :: t in steps[1..] ==> t.id != steps[0].id
  {
    assert Ids(steps)[1..] == Ids(steps[1..]);
    forall t | t in steps[1..]
      ensures t.id != steps[0].id
    {
      var k :| 0 <= k < |steps[1..]| && steps[1..][k] == t;
      assert Ids(steps)[k + 1] == t.id;
    }
  }

  lemma DistinctCons(s: Step, rest: seq<Step>)
    requires Distinct(Ids(rest)) && forall t :: t in rest ==> t.id != s.id
    ensures Distinct(Ids([s] + rest))
  {
    assert Ids([s] + rest) == [s.id] + Ids(rest);
    forall k | 0 <= k < |rest|
      ensures Ids(rest)[k] != s.id
    {
      assert rest[k] in rest;
    }
  }

  lemma {:induction false} ReadyIsDistinct(remaining: seq<Step>, completed: set<string>)
    requires Distinct(Ids(remaining))
    ensures Distinct(Ids(Ready(remaining, completed)))
  {
    if remaining == [] {
    } else {
      hide Distinct, Ids;
      HeadApart(remaining);
      ReadyIsDistinct(remaining[1..], completed);
      DistinctCons(remaining[0], Ready(remaining[1..], completed));
    }
  }

  /** `list.remove`: drop the first occurrence. */
  function RemoveFirst(steps: seq<Step>, s: Step): (rest: seq<Step>)
    requires s in steps
    ensures |rest| == |steps| - 1
  {
    if steps[0] == s then steps[1..] else [steps[0]] + RemoveFirst(steps[1..], s)
  }

  lemma {:induction false} RemovedFromDistinct(steps: seq<Step>, s: Step)
    requires s in steps && Distinct(Ids(steps))
    ensures Distinct(Ids(RemoveFirst(steps, s)))
    ensures forall t :: t in RemoveFirst(steps, s) <==> t in steps && t != s
  {
    hide Distinct, Ids;
    HeadApart(steps);
    assert steps == [steps[0]] + steps[1..];
    if steps[0] == s {
      assert forall t :: t in steps[1..] ==> t.id != s.id;
    } else {
      RemovedFromDistinct(steps[1..], s);
      DistinctCons(steps[0], RemoveFirst(steps[1..], s));
    }
  }

  // ---------------------------------------------------------------- layers

  /** The level of a step: none below it, or one more than the highest level it depends on. */
  ghost predicate Levels(g: Dependencies, level: map<string, nat>) {
    forall u :: u in level ==>
      && u in g && (forall d :: d in g[u] ==> d in level && level[d] < level[u])
      && (level[u] > 0 ==> exists d :: d in g[u] && d in level && level[d] == level[u] - 1)
  }

  /** Lower levels first, and the steps of one level in the order of the plan. */
  ghost predicate Before(ids: seq<string>, level: map<string, nat>, u: string, v: string) {
    && u in level && v in level && u in ids && v in ids
    && (level[u] < level[v] || (level[u] == level[v] && Index(ids, u) < Index(ids, v)))
  }

  ghost predicate InLayers(ids: seq<string>, level: map<string, nat>, order: seq<string>) {
    forall i, j :: 0 <= i < j < |order| ==> Before(ids, level, order[i], order[j])
  }

  /** These steps stand in the order of the plan. */
  ghost predicate Ascending(ids: seq<string>, s: seq<Step>) {
    && (forall t :: t in s ==> t.id in ids)
    && forall i, j :: 0 <= i < j < |s| ==> Index(ids, s[i].id) < Index(ids, s[j].id)
  }

  lemma AscendingTail(ids: seq<string>, s: seq<Step>)
    requires Ascending(ids, s) && s != []
    ensures Ascending(ids, s[1..]) && s[0].id in ids
    ensures forall t :: t in s[1..] ==> Index(ids, s[0].id) < Index(ids, t.id)
  {
  }

  lemma AscendingCons(ids: seq<string>, h: Step, rest: seq<Step>)
    requires Ascending(ids, rest) && h.id in ids && forall t :: t in rest ==> Index(ids, h.id) < Index(ids, t.id)
    ensures Ascending(ids, [h] + rest)
  {
  }

  lemma {:induction false} ReadyAscends(ids: seq<string>, remaining: seq<Step>, completed: set<string>)
    requires Ascending(ids, remaining)
    ensures Ascending(ids, Ready(remaining, completed))
  {
    if remaining != [] {
      AscendingTail(ids, remaining);
      hide Ascending;
      ReadyAscends(ids, remaining[1..], completed);
      AscendingCons(ids, remaining[0], Ready(remaining[1..], completed));
    }
  }

  lemma {:induction false} RemovedStays(steps: seq<Step>, s: Step)
    requires s in steps
    ensures forall t :: t in RemoveFirst(steps, s) ==> t in steps
  {
    if steps[0] != s {
      RemovedStays(steps[1..], s);
    }
  }

  lemma {:induction false} RemoveAscends(ids: seq<string>, steps: seq<Step>, s: Step)
    requires s in steps && Ascending(ids, steps)
    ensures Ascending(ids, RemoveFirst(steps, s))
  {
    AscendingTail(ids, steps);
    hide Ascending;
    if steps[0] != s {
      RemoveAscends(ids, steps[1..], s);
      RemovedStays(steps[1..], s);
      AscendingCons(ids, steps[0], RemoveFirst(steps[1..], s));
    }
  }

  lemma {:induction false} PlanAscends(steps: seq<Step>)
    requires Distinct(Ids(steps))
    ensures Ascending(Ids(steps), steps)
  {
    var ids := Ids(steps);
    forall k | 0 <= k < |steps|
      ensures steps[k].id in ids && Index(ids, steps[k].id) == k
    {
      assert ids[k] == steps[k].id;
      var i := Index(ids, steps[k].id);
      assert ids[i] == ids[k];
    }
  }

  /** A dependency that keeps a step from being ready, or that made it wait until this round. */
  ghost predicate HeldBack(s: Step, completed: set<string>, level: map<string, nat>, round: nat) {
    round > 0 ==> exists d :: d in s.dependencies && (d !in completed || (d in level && level[d] == round - 1))
  }

  /** Between two rounds: `round` layers are complete, and every remaining step waits for the last of them. */
  ghost predicate Layered(steps: seq<Step>, remaining: seq<Step>, completed: set<string>, ordered: seq<string>,
                          level: map<string, nat>, round: nat)
  {
    && level.Keys == completed && Levels(DependencyMap(steps), level) && (forall u :: u in level ==> level[u] < round)
    && InLayers(Ids(steps), level, ordered) && Ascending(Ids(steps), remaining)
    && forall s :: s in remaining ==> HeldBack(s, completed, level, round)
  }

  /** A ready step that has not been placed yet: its dependencies were completed before the round, one of them
      in the last, and it comes after all that were placed in this round. */
  ghost predicate Next(ids: seq<string>, s: Step, before: set<string>, level: map<string, nat>, round: nat) {
    && s.id in ids && s.id !in level
    && (forall d :: d in s.dependencies ==> d in before && d in level)
    && HeldBack(s, before, level, round)
    && (forall u :: u in level && level[u] == round ==> u in ids && Index(ids, u) < Index(ids, s.id))
  }

  /** A step that is not ready in this round. */
  ghost predicate Unready(s: Step, before: set<string>) {
    exists d :: d in s.dependencies && d !in before
  }

  /** Within a round that began with `before` completed: the first `k` of the ready steps are placed. */
  ghost predicate Placing(steps: seq<Step>, ready: seq<Step>, k: nat, remaining: seq<Step>, before: set<string>,
                          completed: set<string>, ordered: seq<string>, level: map<string, nat>, round: nat)
  {
    && k <= |ready| && level.Keys == completed && Levels(DependencyMap(steps), level)
    && (forall u :: u in level ==> level[u] <= round && (u in before <==> level[u] < round))
    && InLayers(Ids(steps), level, ordered) && Ascending(Ids(steps), remaining)
    && (forall s :: s in remaining ==> s in ready[k..] || Unready(s, before))
    && (forall j :: k <= j < |ready| ==> Next(Ids(steps), ready[j], before, level, round))
  }

  lemma RoundStarts(steps: seq<Step>, ready: seq<Step>, remaining: seq<Step>, completed: set<string>,
                    ordered: seq<string>, level: map<string, nat>, round: nat)
    requires Layered(steps, remaining, completed, ordered, level, round) && ready == Ready(remaining, completed)
    requires forall s :: s in remaining ==> s.id !in completed
    ensures Placing(steps, ready, 0, remaining, completed, completed, ordered, level, round)
    ensures Ascending(Ids(steps), ready)
  {
    hide Levels, InLayers, HeldBack, Next, Unready, Ascending, Ready, Ids, DependencyMap;
    ReadyAscends(Ids(steps), remaining, completed);
    AscendingIn(Ids(steps), remaining);
    assert ready[0..] == ready;
    forall s | s in remaining
      ensures s in ready || Unready(s, completed)
    {
      NotReady(remaining, completed, s);
    }
    forall j | 0 <= j < |ready|
      ensures Next(Ids(steps), ready[j], completed, level, round)
    {
      assert ready[j] in ready && ready[j] in remaining;
      NextAtStart(Ids(steps), ready[j], completed, level, round);
    }
  }

  lemma AscendingIn(ids: seq<string>, s: seq<Step>)
    requires Ascending(ids, s)
    ensures forall t :: t in s ==> t.id in ids
  {
  }

  lemma NotReady(remaining: seq<Step>, completed: set<string>, s: Step)
    requires s in remaining
    ensures s in Ready(remaining, completed) || Unready(s, completed)
  {
  }

  lemma NextAtStart(ids: seq<string>, s: Step, completed: set<string>, level: map<string, nat>, round: nat)
    requires s.id in ids && s.id !in completed && level.Keys == completed
    requires (forall d :: d in s.dependencies ==> d in completed) && HeldBack(s, completed, level, round)
    requires forall u :: u in level ==> level[u] < round
    ensures Next(ids, s, completed, level, round)
  {
  }

  lemma NextStays(ids: seq<string>, s: Step, before: set<string>, level: map<string, nat>, round: nat, u: string)
    requires Next(ids, s, before, level, round) && u in ids && s.id in ids && Index(ids, u) < Index(ids, s.id)
    requires u !in level && forall v :: v in before ==> v in level
    ensures Next(ids, s, before, level[u := round], round)
  {
    if round > 0 {
      var d :| d in s.dependencies && (d !in before || (d in level && level[d] == round - 1));
      assert d in level[u := round] && level[u := round][d] == round - 1;
    }
  }

  lemma OneMorePlaced(steps: seq<Step>, ready: seq<Step>, k: nat, remaining: seq<Step>, before: set<string>,
                      completed: set<string>, ordered: seq<string>, level: map<string, nat>, round: nat)
    requires Distinct(Ids(steps)) && Ascending(Ids(steps), ready) && k < |ready| && before <= completed
    requires Placing(steps, ready, k, remaining, before, completed, ordered, level, round)
    requires ready[k] in remaining && ready[k] in steps && (forall u :: u in completed <==> u in ordered)
    requires forall t :: t in RemoveFirst(remaining, ready[k]) ==> t in remaining && t != ready[k]
    ensures var s := ready[k];
      Placing(steps, ready, k + 1, RemoveFirst(remaining, s), before, completed + {s.id}, ordered + [s.id],
              level[s.id := round], round)
  {
    hide Levels, InLayers, Before, Unready, HeldBack, RemoveFirst, DependencyMap, Ids, Next, Ascending, Distinct;
    var s, ids := ready[k], Ids(steps);
    StepInMap(steps, s);
    RemoveAscends(ids, remaining, s);
    NextParts(ids, s, before, level, round);
    KnownLevels(steps, level);
    LevelsGrow(DependencyMap(steps), level, s.id, round);
    LayersGrow(ids, level, ordered, s.id, round);
    assert ready[k..] == [s] + ready[k + 1..];
    forall j | k + 1 <= j < |ready|
      ensures Next(ids, ready[j], before, level[s.id := round], round)
    {
      AscendingAt(ids, ready, k, j);
      NextStays(ids, ready[j], before, level, round, s.id);
    }
  }

  lemma AscendingAt(ids: seq<string>, s: seq<Step>, i: nat, j: nat)
    requires Ascending(ids, s) && i < j < |s|
    ensures s[i].id in ids && s[j].id in ids && Index(ids, s[i].id) < Index(ids, s[j].id)
  {
    assert s[i] in s && s[j] in s;
  }

  lemma KnownLevels(steps: seq<Step>, level: map<string, nat>)
    requires Levels(DependencyMap(steps), level)
    ensures forall v :: v in level ==> v in Ids(steps)
  {
  }

  lemma NextParts(ids: seq<string>, s: Step, before: set<string>, level: map<string, nat>, round: nat)
    requires Next(ids, s, before, level, round)
    requires forall u :: u in level ==> level[u] <= round && (u in before <==> level[u] < round)
    ensures s.id in ids && s.id !in level
    ensures forall d :: d in s.dependencies ==> d in level && level[d] < round
    ensures round > 0 ==> exists d :: d in s.dependencies && d in level && level[d] == round - 1
    ensures forall v :: v in level ==>
      level[v] < round || (level[v] == round && v in ids && Index(ids, v) < Index(ids, s.id))
  {
  }

  lemma LevelsGrow(g: Dependencies, level: map<string, nat>, u: string, round: nat)
    requires Levels(g, level) && u in g && u !in level
    requires forall d :: d in g[u] ==> d in level && level[d] < round
    requires round > 0 ==> exists d :: d in g[u] && d in level && level[d] == round - 1
    ensures Levels(g, level[u := round])
  {
    var more := level[u := round];
    forall v | v in more
      ensures v in g && (forall d :: d in g[v] ==> d in more && more[d] < more[v])
      ensures more[v] > 0 ==> exists d :: d in g[v] && d in more && more[d] == more[v] - 1
    {
      if v != u {
        assert v in level;
        if more[v] > 0 {
          var d :| d in g[v] && d in level && level[d] == level[v] - 1;
          assert d in more && more[d] == more[v] - 1;
        }
      } else if round > 0 {
        var d :| d in g[u] && d in level && level[d] == round - 1;
        assert d in more && more[d] == more[v] - 1;
      }
    }
  }

  lemma LayersGrow(ids: seq<string>, level: map<string, nat>, order: seq<string>, u: string, round: nat)
    requires InLayers(ids, level, order) && u in ids && u !in level
    requires forall v :: v in level <==> v in order
    requires forall v :: v in level ==>
      v in ids && (level[v] < round || (level[v] == round && v in ids && Index(ids, v) < Index(ids, u)))
    ensures InLayers(ids, level[u := round], order + [u])
  {
    var more, longer := level[u := round], order + [u];
    forall i, j | 0 <= i < j < |longer|
      ensures Before(ids, more, longer[i], longer[j])
    {
      assert longer[i] in order;
      if j < |order| {
        assert longer[j] in order && Before(ids, level, longer[i], longer[j]);
      }
    }
  }

  lemma RoundEnds(steps: seq<Step>, ready: seq<Step>, remaining: seq<Step>, before: set<string>, completed: set<string>,
                  ordered: seq<string>, level: map<string, nat>, round: nat)
    requires Placing(steps, ready, |ready|, remaining, before, completed, ordered, level, round)
    ensures Layered(steps, remaining, completed, ordered, level, round + 1)
  {
    hide Levels, InLayers, Ascending, Next;
    forall s | s in remaining
      ensures HeldBack(s, completed, level, round + 1)
    {
      var d :| d in s.dependencies && d !in before;
      if d in completed {
        assert d in level && level[d] == round;
      }
    }
  }

  /** The layered order never gets stuck on a valid plan; it lists every step once, each after its
      dependencies, layer by layer, and within a layer in the order of the plan. It fails exactly when a
      dependency is unknown or cyclic. */
  method LastOrderedStep(steps: seq<Step>)
    returns (r: Option<string>, ghost order: seq<string>, ghost level: map<string, nat>)
    requires steps != [] && Distinct(Ids(steps))
    ensures r.Some? <==> Closed(DependencyMap(steps)) && Acyclic(DependencyMap(steps))
    ensures r.Some? ==>
      && IsCompleteOrder(DependencyMap(steps), order)
      && |order| == |steps|
      && r.value == order[|order| - 1]
    ensures r.Some? ==> Levels(DependencyMap(steps), level) && InLayers(Ids(steps), level, order)
    ensures r.Some? ==> forall u :: u in level <==> u in order
  {
    hide *;
    ghost var g := DependencyMap(steps);
    var completed: set<string> := {};
    var remaining := steps;
    var ordered: seq<string> := [];
    level := map[];
    ghost var round := 0;
    NoLayers(steps);
    NoProgress(steps);
    while remaining != []
      invariant Progress(steps, remaining, completed, ordered)
      invariant Layered(steps, remaining, completed, ordered, level, round)
      decreases |remaining|
    {
      var ready := Ready(remaining, completed);
      if ready == [] {
        BlockedPlan(steps, remaining, completed, ordered);
        return None, ordered, level;
      }
      ProgressParts(steps, remaining, completed, ordered);
      ReadyIsDistinct(remaining, completed);
      RoundStarts(steps, ready, remaining, completed, ordered, level, round);
      ghost var before, size := completed, |remaining|;
      for k := 0 to |ready|
        invariant Progress(steps, remaining, completed, ordered)
        invariant Placing(steps, ready, k, remaining, before, completed, ordered, level, round)
        invariant forall j :: k <= j < |ready| ==> ready[j] in remaining
        invariant forall j, d :: k <= j < |ready| && d in ready[j].dependencies ==> d in completed
        invariant |remaining| == size - k && before <= completed
      {
        var step := ready[k];
        ProgressParts(steps, remaining, completed, ordered);
        PlaceStep(steps, remaining, completed, ordered, step);
        RemovedFromDistinct(remaining, step);
        OthersDiffer(ready, k);
        OneMorePlaced(steps, ready, k, remaining, before, completed, ordered, level, round);
        ordered := ordered + [step.id];
        completed := completed + {step.id};
        remaining := RemoveFirst(remaining, step);
        level := level[step.id := round];
      }
      RoundEnds(steps, ready, remaining, before, completed, ordered, level, round);
      round := round + 1;
    }
    AllPlaced(steps, completed, ordered);
    ProgressParts(steps, remaining, completed, ordered);
    CompleteParts(g, ordered);
    OrderedIsAcyclic(g, ordered);
    OrderedIsClosed(g, ordered);
    AllLayered(steps, completed, ordered, level, round);
    return Some(ordered[|ordered| - 1]), ordered, level;
  }

  lemma ProgressParts(steps: seq<Step>, remaining: seq<Step>, completed: set<string>, ordered: seq<string>)
    requires Progress(steps, remaining, completed, ordered)
    ensures Distinct(Ids(remaining)) && (forall u :: u in completed <==> u in ordered)
    ensures forall s :: s in remaining <==> s in steps && s.id !in completed
    ensures |ordered| + |remaining| == |steps|
  {
    hide Distinct, Respects, DependencyMap;
  }

  lemma CompleteParts(g: Dependencies, order: seq<string>)
    requires IsCompleteOrder(g, order)
    ensures Respects(g, order) && forall u :: u in g ==> u in order
  {
  }

  lemma NoProgress(steps: seq<Step>)
    requires Distinct(Ids(steps))
    ensures Progress(steps, steps, {}, [])
  {
  }

  lemma OthersDiffer(ready: seq<Step>, k: nat)
    requires Distinct(Ids(ready)) && k < |ready|
    ensures forall j :: k < j < |ready| ==> ready[j] != ready[k]
  {
    forall j | k < j < |ready|
      ensures ready[j] != ready[k]
    {
      assert Ids(ready)[k] != Ids(ready)[j];
    }
  }

  lemma NoLayers(steps: seq<Step>)
    requires Distinct(Ids(steps))
    ensures Layered(steps, steps, {}, [], map[], 0)
  {
    PlanAscends(steps);
  }

  lemma AllLayered(steps: seq<Step>, completed: set<string>, ordered: seq<string>, level: map<string, nat>, round: nat)
    requires Layered(steps, [], completed, ordered, level, round) && Progress(steps, [], completed, ordered)
    ensures Levels(DependencyMap(steps), level) && InLayers(Ids(steps), level, ordered)
    ensures forall u :: u in level <==> u in ordered
  {
    hide Levels, InLayers, Ascending;
  }

  /** The levels of a plan are determined by its dependencies. */
  lemma {:induction false} LevelsAreUnique(g: Dependencies, level: map<string, nat>, level': map<string, nat>,
                                           order: seq<string>, i: nat)
    requires Levels(g, level) && Levels(g, level') && Respects(g, order) && i < |order|
    requires forall u :: u in order ==> u in level && u in level'
    ensures level[order[i]] == level'[order[i]]
    decreases i
  {
    var u := order[i];
    forall d | d in g[u]
      ensures d in level && d in level' && level[d] == level'[d]
    {
      var j :| 0 <= j < i && order[j] == d;
      LevelsAreUnique(g, level, level', order, j);
    }
    if level[u] > 0 {
      var d :| d in g[u] && d in level && level[d] == level[u] - 1;
    }
    if level'[u] > 0 {
      var d :| d in g[u] && d in level' && level'[d] == level'[u] - 1;
    }
  }

  /** So the last step of a layered order is determined too: of the highest level, the last in the plan. */
  lemma LastStepIsDetermined(steps: seq<Step>, level: map<string, nat>, order: seq<string>, level': map<string, nat>,
                             order': seq<string>)
    requires Distinct(Ids(steps)) && order != [] && order' != []
    requires IsCompleteOrder(DependencyMap(steps), order) && IsCompleteOrder(DependencyMap(steps), order')
    requires Levels(DependencyMap(steps), level) && InLayers(Ids(steps), level, order)
    requires Levels(DependencyMap(steps), level') && InLayers(Ids(steps), level', order')
    requires (forall u :: u in order ==> u in level) && forall u :: u in order' ==> u in level'
    ensures order[|order| - 1] == order'[|order'| - 1]
  {
    hide Levels, Ids, DependencyMap;
    var g, ids := DependencyMap(steps), Ids(steps);
    var last, last' := order[|order| - 1], order'[|order'| - 1];
    assert last in order && last' in order' && last in g && last' in g;
    var i :| 0 <= i < |order| && order[i] == last';
    var j :| 0 <= j < |order'| && order'[j] == last;
    LevelsAreUnique(g, level, level', order, i);
    LevelsAreUnique(g, level, level', order, |order| - 1);
    assert last != last' ==> Before(ids, level, last', last);
    assert last != last' ==> Before(ids, level', last, last');
  }

  ghost predicate Progress(steps: seq<Step>, remaining: seq<Step>, completed: set<string>, ordered: seq<string>) {
    && Distinct(Ids(remaining))
    && Respects(DependencyMap(steps), ordered)
    && (forall u :: u in completed <==> u in ordered)
    && (forall s :: s in remaining <==> s in steps && s.id !in completed)
    && |ordered| + |remaining| == |steps|
  }

  lemma StepInMap(steps: seq<Step>, s: Step)
    requires s in steps && Distinct(Ids(steps))
    ensures s.id in DependencyMap(steps) && DependencyMap(steps)[s.id] == s.dependencies
  {
  }

  lemma MapHasStep(steps: seq<Step>, u: string) returns (s: Step)
    requires u in DependencyMap(steps) && Distinct(Ids(steps))
    ensures s in steps && s.id == u && DependencyMap(steps)[u] == s.dependencies
  {
    var i :| 0 <= i < |Ids(steps)| && Ids(steps)[i] == u;
    s := steps[i];
    StepInMap(steps, s);
  }

  lemma SameIdSameStep(steps: seq<Step>, s: Step, t: Step)
    requires Distinct(Ids(steps)) && s in steps && t in steps && s.id == t.id
    ensures s == t
  {
  }

  lemma PlaceStep(steps: seq<Step>, remaining: seq<Step>, completed: set<string>, ordered: seq<string>, s: Step)
    requires Distinct(Ids(steps)) && Progress(steps, remaining, completed, ordered)
    requires s in remaining && forall d :: d in s.dependencies ==> d in completed
    ensures Progress(steps, RemoveFirst(remaining, s), completed + {s.id}, ordered + [s.id])
  {
    StepInMap(steps, s);
    ExtendOrder(DependencyMap(steps), ordered, s.id);
    RemovedFromDistinct(remaining, s);
    forall t | t in steps && t.id == s.id
      ensures t == s
    {
      SameIdSameStep(steps, s, t);
    }
  }

  lemma BlockedPlan(steps: seq<Step>, remaining: seq<Step>, completed: set<string>, ordered: seq<string>)
    requires Distinct(Ids(steps)) && Progress(steps, remaining, completed, ordered)
    requires remaining != [] && Ready(remaining, completed) == []
    ensures !(Closed(DependencyMap(steps)) && Acyclic(DependencyMap(steps)))
  {
    var g := DependencyMap(steps);
    if Closed(g) {
      var blocked := set s | s in remaining :: s.id;
      assert remaining[0].id in blocked;
      forall u | u in blocked
        ensures WaitsFor(g, u, blocked)
      {
        var s :| s in remaining && s.id == u;
        StepInMap(steps, s);
        assert s !in Ready(remaining, completed);
        var d :| d in s.dependencies && d !in completed;
        assert Edge(g, u, d);
        var t := MapHasStep(steps, d);
        assert t in remaining;
      }
      StuckHasCycle(g, blocked);
    }
  }

  lemma AllPlaced(steps: seq<Step>, completed: set<string>, ordered: seq<string>)
    requires Distinct(Ids(steps)) && Progress(steps, [], completed, ordered)
    ensures IsCompleteOrder(DependencyMap(steps), ordered)
  {
  }

  /** The last step of any complete order is one that nothing depends on. */
  lemma LastIsSink(steps: seq<Step>, order: seq<string>)
    requires Distinct(Ids(steps)) && IsCompleteOrder(DependencyMap(steps), order) && order != []
    ensures IsSink(steps, order[|order| - 1])
  {
    var g, last := DependencyMap(steps), |order| - 1;
    forall s | s in steps
      ensures order[last] !in s.dependencies
    {
      StepInMap(steps, s);
      var i := Index(order, s.id);
      assert order[last] !in order[..i];
    }
  }

  /** A valid plan always has a last step, and it is a sink. */
  method LastStepOfValidPlan(plan: Plan) returns (last: string)
    requires ValidPlan(plan)
    ensures IsSink(plan.steps, last) && exists s :: s in plan.steps && s.id == last
  {
    forall s, d | s in plan.steps && d in s.dependencies
      ensures d in Ids(plan.steps)
    {
      assert StepAccepted(plan, s);
    }
    KnownStepsClose(plan);
    ghost var order, level;
    var r;
    r, order, level := LastOrderedStep(plan.steps);
    LastIsSink(plan.steps, order);
    last := r.value;
    ghost var s := MapHasStep(plan.steps, last);
  }

  // --------------------------------------------------------- artifact dataflow

  ghost predicate IsUpstreamSet(g: Dependencies, u: string, s: set<string>) {
    forall v :: v in s <==> Reaches(g, u, v)
  }

  /** The memoised closure: the cache only ever holds exact upstream sets. */
  class UpstreamSteps {
    const dependencies: Dependencies
    var cache: map<string, set<string>>

    constructor (g: Dependencies)
      ensures dependencies == g && cache == map[] && Valid()
    {
      dependencies, cache := g, map[];
    }

    ghost predicate Valid()
      reads this
    {
      forall u :: u in cache ==> IsUpstreamSet(dependencies, u, cache[u])
    }

    method Of(step: string, ghost order: seq<string>) returns (upstream: set<string>)
      requires Valid() && IsCompleteOrder(dependencies, order) && step in dependencies
      modifies this
      ensures Valid() && IsUpstreamSet(dependencies, step, upstream)
      decreases Index(order, step)
    {
      if step in cache {
        return cache[step];
      }
      upstream := {};
      var i := 0;
      while i < |dependencies[step]|
        invariant 0 <= i <= |dependencies[step]|
        invariant Valid()
        invariant forall v :: v in upstream ==> Reaches(dependencies, step, v)
        invariant forall k :: 0 <= k < i ==> dependencies[step][k] in upstream
        invariant forall k, v :: 0 <= k < i && Reaches(dependencies, dependencies[step][k], v) ==> v in upstream
      {
        var dependency := dependencies[step][i];
        ReachesByEdge(dependencies, step, dependency);
        assert dependency in order[..Index(order, step)];
        EarlierInOrder(order, step, dependency);
        OrderedIsClosed(dependencies, order);
        var further := Of(dependency, order);
        forall v | v in further
          ensures Reaches(dependencies, step, v)
        {
          ReachesThrough(dependencies, step, dependency, v);
        }
        upstream := upstream + {dependency} + further;
        i := i + 1;
      }
      forall v | Reaches(dependencies, step, v)
        ensures v in upstream
      {
        var d := ReachesSplits(dependencies, step, v);
        var k :| 0 <= k < |dependencies[step]| && dependencies[step][k] == d;
      }
      cache := cache[step := upstream];
    }
  }

  lemma EarlierInOrder(order: seq<string>, u: string, d: string)
    requires Distinct(order) && u in order && d in order[..Index(order, u)]
    ensures d in order && Index(order, d) < Index(order, u)
  {
  }

  ghost predicate Produces(steps: seq<Step>, id: string, artifact: string) {
    exists s :: s in steps && s.id == id && artifact in s.expected
  }

  ghost predicate Requires(s: Step, artifact: string) {
    artifact in s.required || artifact in s.gateRequired
  }

  ghost predicate Supplied(steps: seq<Step>, s: Step, artifact: string) {
    exists v :: Reaches(DependencyMap(steps), s.id, v) && Produces(steps, v, artifact)
  }

  ghost predicate DataflowHolds(steps: seq<Step>) {
    forall s, a :: s in steps && Requires(s, a) ==> Supplied(steps, s, a)
  }

  /** The artifact types produced by the named steps. */
  method AvailableArtifacts(steps: seq<Step>, producers: set<string>) returns (available: set<string>)
    ensures forall a :: a in available <==> exists v :: v in producers && Produces(steps, v, a)
  {
    available := {};
    for i := 0 to |steps|
      invariant forall a :: a in available <==>
        exists k :: 0 <= k < i && steps[k].id in producers && a in steps[k].expected
    {
      if steps[i].id in producers {
        available := available + set a | a in steps[i].expected;
      }
    }
    forall a
      ensures a in available <==> exists v :: v in producers && Produces(steps, v, a)
    {
      if a in available {
        var k :| 0 <= k < |steps| && steps[k].id in producers && a in steps[k].expected;
        assert Produces(steps, steps[k].id, a);
      }
      if v :| v in producers && Produces(steps, v, a) {
        var s :| s in steps && s.id == v && a in s.expected;
        var k :| 0 <= k < |steps| && steps[k] == s;
      }
    }
  }

  /** The dataflow check of a plan that already passed validation. */
  method ValidateDataflow(steps: seq<Step>) returns (accepted: bool)
    requires Distinct(Ids(steps)) && Closed(DependencyMap(steps)) && Acyclic(DependencyMap(steps))
    ensures accepted <==> DataflowHolds(steps)
  {
    var g := DependencyMap(steps);
    ghost var order := AcyclicHasOrder(g);
    var upstream := new UpstreamSteps(g);
    for i := 0 to |steps|
      invariant upstream.dependencies == g && upstream.Valid()
      invariant forall k, a :: 0 <= k < i && Requires(steps[k], a) ==> Supplied(steps, steps[k], a)
    {
      StepInMap(steps, steps[i]);
      var producers := upstream.Of(steps[i].id, order);
      var available := AvailableArtifacts(steps, producers);
      var needed := (set a | a in steps[i].required) + (set a | a in steps[i].gateRequired);
      var missing := needed - available;
      if missing != {} {
        ghost var a :| a in missing;
        assert Requires(steps[i], a) && !Supplied(steps, steps[i], a);
        return false;
      }
      forall a | Requires(steps[i], a)
        ensures Supplied(steps, steps[i], a)
      {
        assert a in needed && a !in missing && a in available;
        var v :| v in producers && Produces(steps, v, a);
      }
    }
    return true;
  }

  /** Everything `steps` must have before `order[i]` runs was produced by a completed step. */
  ghost predicate SuppliedBefore(steps: seq<Step>, order: seq<string>, i: nat, artifact: string)
    requires i < |order|
  {
    exists v :: v in order[..i] && Produces(steps, v, artifact)
  }

  ghost predicate SafeOrder(steps: seq<Step>, order: seq<string>) {
    forall i, s, a ::
      0 <= i < |order| && s in steps && s.id == order[i] && Requires(s, a) ==> SuppliedBefore(steps, order, i, a)
  }

  lemma AcceptedOrdersAreSafe(steps: seq<Step>, order: seq<string>)
    requires DataflowHolds(steps) && Respects(DependencyMap(steps), order)
    ensures SafeOrder(steps, order)
  {
    forall i, s, a | 0 <= i < |order| && s in steps && s.id == order[i] && Requires(s, a)
      ensures SuppliedBefore(steps, order, i, a)
    {
      var v :| Reaches(DependencyMap(steps), s.id, v) && Produces(steps, v, a);
      UpstreamComesFirst(DependencyMap(steps), order, i, v);
    }
  }

  /** The steps of `order` that `u` needs, in the same order. */
  ghost function UpstreamPart(g: Dependencies, order: seq<string>, u: string): seq<string> {
    if order == [] then []
    else
      var rest, last := order[..|order| - 1], order[|order| - 1];
      UpstreamPart(g, rest, u) + if Reaches(g, u, last) then [last] else []
  }

  lemma {:induction false} UpstreamPartRespects(g: Dependencies, order: seq<string>, u: string)
    requires Respects(g, order)
    ensures var part := UpstreamPart(g, order, u);
      && Respects(g, part)
      && forall v :: v in part <==> v in order && Reaches(g, u, v)
  {
    if order != [] {
      var rest, last := order[..|order| - 1], order[|order| - 1];
      assert order == rest + [last];
      forall i, d | 0 <= i < |rest| && d in g[rest[i]]
        ensures d in rest[..i]
      {
        assert d in order[..i] && order[..i] == rest[..i];
      }
      UpstreamPartRespects(g, rest, u);
      var part := UpstreamPart(g, rest, u);
      if !Reaches(g, u, last) {
        assert UpstreamPart(g, order, u) == part;
      } else {
        forall d | d in g[last]
          ensures d in part
        {
          assert d in order[..|order| - 1];
          ReachesOnward(g, u, last, d);
        }
        ExtendOrder(g, part, last);
      }
    }
  }

  lemma ReachesOnward(g: Dependencies, u: string, v: string, d: string)
    requires Reaches(g, u, v) && Edge(g, v, d)
    ensures Reaches(g, u, d)
  {
    var p :| WalkBetween(g, p, u, v);
    CloseWalk(g, p, d);
    assert WalkBetween(g, p + [d], u, d);
  }

  /** A plan that fails the check has a legal execution in which a step starts without an artifact
      it requires: run only what that step needs. */
  lemma RejectedHasUnsafeOrder(steps: seq<Step>) returns (order: seq<string>)
    requires Distinct(Ids(steps)) && Closed(DependencyMap(steps)) && Acyclic(DependencyMap(steps))
    requires !DataflowHolds(steps)
    ensures Respects(DependencyMap(steps), order) && !SafeOrder(steps, order)
  {
    var g := DependencyMap(steps);
    var s, a :| s in steps && Requires(s, a) && !Supplied(steps, s, a);
    StepInMap(steps, s);
    var complete := AcyclicHasOrder(g);
    UpstreamPartRespects(g, complete, s.id);
    var part := UpstreamPart(g, complete, s.id);
    forall d | d in g[s.id]
      ensures d in part
    {
      ReachesByEdge(g, s.id, d);
    }
    if s.id in part {
      var p :| WalkBetween(g, p, s.id, s.id);
      assert IsCycle(g, p);
    }
    ExtendOrder(g, part, s.id);
    order := part + [s.id];
    assert order[..|part|] == part;
    assert !SuppliedBefore(steps, order, |part|, a);
  }

  /** The check is exact: it accepts a plan if and only if in every execution that respects the
      dependencies each required artifact type has already been produced when a step starts. */
  lemma DataflowCheckIsExact(steps: seq<Step>)
    requires Distinct(Ids(steps)) && Closed(DependencyMap(steps)) && Acyclic(DependencyMap(steps))
    ensures DataflowHolds(steps) <==>
      forall order :: Respects(DependencyMap(steps), order) ==> SafeOrder(steps, order)
  {
    if DataflowHolds(steps) {
      forall order | Respects(DependencyMap(steps), order)
        ensures SafeOrder(steps, order)
      {
        AcceptedOrdersAreSafe(steps, order);
      }
    } else {
      var order := RejectedHasUnsafeOrder(steps);
    }
  }
}
