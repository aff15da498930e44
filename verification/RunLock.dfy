/** Run locks: callers that acquire, execute and release, each with a heartbeat thread that rewrites the
    lock record, interleaved in every possible way. Storage refuses a second acquired lock for a run,
    and any storage call may fail without effect. */
module RunLock {
  import opened Wrappers

  datatype Status = Acquired | Released

  datatype Lock = Lock(run: string, status: Status)

  /** Where a caller is. `Writing` has read its record and is about to store the released copy. */
  datatype Pc = Idle | Starting | Prepared | Executing | Stopping | Releasing | Writing(left: nat) | Finished | GaveUp

  /** Where its heartbeat thread is. `HasRead` holds a copy of an acquired record, to be stored as is. */
  datatype Heartbeat = Off | Waiting | Woken | HasRead | Exited

  datatype Caller = Caller(run: string, pc: Pc, lock: Option<nat>, heartbeat: Heartbeat, stop: bool)

  datatype State = State(locks: seq<Lock>, callers: seq<Caller>)

  const RUN_QUEUE_WRITE_ATTEMPTS := 3

  datatype Action =
    | Acquire | Conflict | StartThread | ThreadFails | Begin | Abandon | End | Join
    | ReadLock | ReadFails | WriteReleased | WriteFails
    | Wake | Leave | ReadBeat | WriteBeat | BeatFails | BeatCrashes

  ghost predicate Free(s: State, run: string) {
    forall l :: 0 <= l < |s.locks| && s.locks[l].run == run ==> s.locks[l].status == Released
  }

  ghost predicate HasLock(s: State, c: Caller) {
    c.lock.Some? && c.lock.value < |s.locks|
  }

  ghost predicate Enabled(s: State, i: nat, a: Action)
    requires i < |s.callers|
  {
    var c := s.callers[i];
    match a
    case Acquire => c.pc == Idle && Free(s, c.run)
    case Conflict => c.pc == Idle
    case StartThread => c.pc == Starting
    case ThreadFails => c.pc == Starting
    case Begin => c.pc == Prepared
    case Abandon => c.pc == Prepared
    case End => c.pc == Executing
    case Join => c.pc == Stopping && c.heartbeat == Exited
    case ReadLock => c.pc == Releasing && HasLock(s, c)
    case ReadFails => c.pc == Releasing
    case WriteReleased => c.pc.Writing? && HasLock(s, c)
    case WriteFails => c.pc.Writing?
    case Wake => c.heartbeat == Waiting && !c.stop
    case Leave => c.heartbeat == Waiting && c.stop
    case ReadBeat => c.heartbeat == Woken && HasLock(s, c)
    case WriteBeat => c.heartbeat == HasRead && HasLock(s, c)
    case BeatFails => c.heartbeat == Woken || c.heartbeat == HasRead
    case BeatCrashes => c.heartbeat == Woken || c.heartbeat == HasRead
  }

  ghost function Move(s: State, i: nat, c: Caller): State
    requires i < |s.callers|
  {
    s.(callers := s.callers[i := c])
  }

  ghost function Store(s: State, l: nat, status: Status): State
    requires l < |s.locks|
  {
    s.(locks := s.locks[l := s.locks[l].(status := status)])
  }

  ghost function Apply(s: State, i: nat, a: Action): State
    requires i < |s.callers| && Enabled(s, i, a)
  {
    var c := s.callers[i];
    match a
    case Acquire =>
      State(s.locks + [Lock(c.run, Acquired)], s.callers[i := c.(pc := Starting, lock := Some(|s.locks|))])
    case Conflict => Move(s, i, c.(pc := Finished))
    case StartThread => Move(s, i, c.(pc := Prepared, heartbeat := Waiting))
    case ThreadFails => Move(s, i, c.(pc := Releasing))
    case Begin => Move(s, i, c.(pc := Executing))
    case Abandon => Move(s, i, c.(pc := Stopping, stop := true))
    case End => Move(s, i, c.(pc := Stopping, stop := true))
    case Join => Move(s, i, c.(pc := Releasing))
    case ReadLock =>
      var status := s.locks[c.lock.value].status;
      Move(s, i, c.(pc := if status == Released then Finished else Writing(RUN_QUEUE_WRITE_ATTEMPTS)))
    case ReadFails => Move(s, i, c.(pc := GaveUp))
    case WriteReleased => Move(Store(s, c.lock.value, Released), i, c.(pc := Finished))
    case WriteFails => Move(s, i, c.(pc := if c.pc.left > 1 then Writing(c.pc.left - 1) else GaveUp))
    case Wake => Move(s, i, c.(heartbeat := Woken))
    case Leave => Move(s, i, c.(heartbeat := Exited))
    case ReadBeat => Move(s, i, c.(heartbeat := if s.locks[c.lock.value].status == Acquired then HasRead else Exited))
    case WriteBeat => Move(Store(s, c.lock.value, Acquired), i, c.(heartbeat := Waiting))
    case BeatFails => Move(s, i, c.(heartbeat := Waiting))
    case BeatCrashes => Move(s, i, c.(heartbeat := Exited))
  }

  ghost predicate Initial(s: State) {
    && (forall l :: 0 <= l < |s.locks| ==> s.locks[l].status == Released)
    && forall i :: 0 <= i < |s.callers| ==>
         s.callers[i] == Caller(s.callers[i].run, Idle, None, Off, false)
  }

  /** Any interleaving: at each point some caller or its heartbeat takes one enabled step. */
  datatype Step = Step(caller: nat, action: Action)

  ghost predicate Execution(states: seq<State>, steps: seq<Step>) {
    && |states| == |steps| + 1
    && Initial(states[0])
    && forall n :: 0 <= n < |steps| ==> Follows(states[n], steps[n], states[n + 1])
  }

  ghost predicate Follows(s: State, step: Step, s': State) {
    step.caller < |s.callers| && Enabled(s, step.caller, step.action) && s' == Apply(s, step.caller, step.action)
  }

  // ------------------------------------------------------------- runs that exist

  /** The steps lead from one state to the next, as the states in between say. */
  ghost predicate Leads(s: State, actions: seq<Action>, states: seq<State>) {
    && |states| == |actions|
    && forall n :: 0 <= n < |actions| ==> Follows(([s] + states)[n], Step(0, actions[n]), states[n])
  }

  /** One caller, its record with the given status. */
  ghost function Alone(status: Status, pc: Pc, heartbeat: Heartbeat, stop: bool): State {
    State([Lock("r", status)], [Caller("r", pc, Some(0), heartbeat, stop)])
  }

  ghost function AtFirst(): State {
    State([], [Caller("r", Idle, None, Off, false)])
  }

  lemma Starts()
    ensures Follows(AtFirst(), Step(0, Acquire), Alone(Acquired, Starting, Off, false))
    ensures Follows(AtFirst(), Step(0, Conflict), State([], [Caller("r", Finished, None, Off, false)]))
    ensures Follows(Alone(Acquired, Starting, Off, false), Step(0, StartThread),
                    Alone(Acquired, Prepared, Waiting, false))
    ensures Follows(Alone(Acquired, Starting, Off, false), Step(0, ThreadFails),
                    Alone(Acquired, Releasing, Off, false))
    ensures Follows(Alone(Acquired, Prepared, Waiting, false), Step(0, Begin),
                    Alone(Acquired, Executing, Waiting, false))
  {
  }

  lemma Beats(pc: Pc)
    ensures Follows(Alone(Acquired, pc, Waiting, false), Step(0, Wake), Alone(Acquired, pc, Woken, false))
    ensures Follows(Alone(Acquired, pc, Woken, false), Step(0, ReadBeat), Alone(Acquired, pc, HasRead, false))
    ensures Follows(Alone(Acquired, pc, HasRead, false), Step(0, WriteBeat), Alone(Acquired, pc, Waiting, false))
  {
  }

  lemma BeatsEnd(pc: Pc)
    ensures Follows(Alone(Acquired, pc, Woken, false), Step(0, BeatFails), Alone(Acquired, pc, Waiting, false))
    ensures Follows(Alone(Acquired, pc, Woken, false), Step(0, BeatCrashes), Alone(Acquired, pc, Exited, false))
    ensures Follows(Alone(Acquired, pc, Waiting, true), Step(0, Leave), Alone(Acquired, pc, Exited, true))
  {
  }

  lemma Ends(beat: Heartbeat, stop: bool)
    ensures Follows(Alone(Acquired, Executing, beat, false), Step(0, End), Alone(Acquired, Stopping, beat, true))
    ensures Follows(Alone(Acquired, Prepared, beat, false), Step(0, Abandon), Alone(Acquired, Stopping, beat, true))
    ensures Follows(Alone(Acquired, Stopping, Exited, stop), Step(0, Join), Alone(Acquired, Releasing, Exited, stop))
  {
  }

  lemma Releases(beat: Heartbeat, stop: bool)
    ensures Follows(Alone(Acquired, Releasing, beat, stop), Step(0, ReadLock), Alone(Acquired, Writing(3), beat, stop))
    ensures Follows(Alone(Acquired, Releasing, beat, stop), Step(0, ReadFails), Alone(Acquired, GaveUp, beat, stop))
  {
  }

  lemma Writes(beat: Heartbeat, stop: bool)
    ensures Follows(Alone(Acquired, Writing(3), beat, stop), Step(0, WriteFails),
                    Alone(Acquired, Writing(2), beat, stop))
    ensures Follows(Alone(Acquired, Writing(2), beat, stop), Step(0, WriteFails),
                    Alone(Acquired, Writing(1), beat, stop))
    ensures Follows(Alone(Acquired, Writing(1), beat, stop), Step(0, WriteFails), Alone(Acquired, GaveUp, beat, stop))
    ensures Follows(Alone(Acquired, Writing(2), beat, stop), Step(0, WriteReleased),
                    Alone(Released, Finished, beat, stop))
  {
  }

  /** A whole run: the heartbeat rewrites the record once and fails once, the first write of the released copy
      fails, the second succeeds. */
  lemma WholeRun()
    ensures Leads(AtFirst(),
                  [Acquire, StartThread, Begin, Wake, ReadBeat, WriteBeat, Wake, BeatFails, End, Leave, Join, ReadLock,
                   WriteFails, WriteReleased],
                  [Alone(Acquired, Starting, Off, false), Alone(Acquired, Prepared, Waiting, false),
                   Alone(Acquired, Executing, Waiting, false), Alone(Acquired, Executing, Woken, false),
                   Alone(Acquired, Executing, HasRead, false), Alone(Acquired, Executing, Waiting, false),
                   Alone(Acquired, Executing, Woken, false), Alone(Acquired, Executing, Waiting, false),
                   Alone(Acquired, Stopping, Waiting, true), Alone(Acquired, Stopping, Exited, true),
                   Alone(Acquired, Releasing, Exited, true), Alone(Acquired, Writing(3), Exited, true),
                   Alone(Acquired, Writing(2), Exited, true), Alone(Released, Finished, Exited, true)])
  {
    hide Follows, Alone, AtFirst;
    Starts();
    Beats(Executing);
    BeatsEnd(Executing);
    BeatsEnd(Stopping);
    Ends(Waiting, true);
    Releases(Exited, true);
    Writes(Exited, true);
  }

  /** An abandoned run whose heartbeat crashes, and whose record cannot be read back. */
  lemma AbandonedRun()
    ensures Leads(AtFirst(), [Acquire, StartThread, Wake, BeatCrashes, Abandon, Join, ReadFails],
                  [Alone(Acquired, Starting, Off, false), Alone(Acquired, Prepared, Waiting, false),
                   Alone(Acquired, Prepared, Woken, false), Alone(Acquired, Prepared, Exited, false),
                   Alone(Acquired, Stopping, Exited, true), Alone(Acquired, Releasing, Exited, true),
                   Alone(Acquired, GaveUp, Exited, true)])
  {
    hide Follows, Alone, AtFirst;
    Starts();
    Beats(Prepared);
    BeatsEnd(Prepared);
    Ends(Exited, true);
    Releases(Exited, true);
  }

  /** Without a thread the record is released at once, here after three failed writes not at all; and a caller
      that finds the run locked is done. */
  lemma ThreadlessRun()
    ensures Leads(AtFirst(), [Acquire, ThreadFails, ReadLock, WriteFails, WriteFails, WriteFails],
                  [Alone(Acquired, Starting, Off, false), Alone(Acquired, Releasing, Off, false),
                   Alone(Acquired, Writing(3), Off, false), Alone(Acquired, Writing(2), Off, false),
                   Alone(Acquired, Writing(1), Off, false), Alone(Acquired, GaveUp, Off, false)])
    ensures Leads(AtFirst(), [Conflict], [State([], [Caller("r", Finished, None, Off, false)])])
  {
    hide Follows, Alone, AtFirst;
    Starts();
    Releases(Off, false);
    Writes(Off, false);
  }

  /** Such steps make an execution. */
  lemma LeadsIsExecution(s: State, actions: seq<Action>, states: seq<State>)
    requires Initial(s) && Leads(s, actions, states)
    ensures Execution([s] + states, seq(|actions|, k requires 0 <= k < |actions| => Step(0, actions[k])))
  {
    hide Initial, Follows;
    var steps := seq(|actions|, k requires 0 <= k < |actions| => Step(0, actions[k]));
    var all := [s] + states;
    forall n | 0 <= n < |steps|
      ensures Follows(all[n], steps[n], all[n + 1])
    {
      assert all[n + 1] == states[n] && steps[n] == Step(0, actions[n]);
    }
  }

  // -------------------------------------------------------------- the invariant

  /** From the creation of the record to the write of its released copy. */
  ghost predicate Holding(c: Caller) {
    !c.pc.Idle? && !c.pc.Finished?
  }

  ghost predicate Beating(c: Caller) {
    c.heartbeat.Waiting? || c.heartbeat.Woken? || c.heartbeat.HasRead?
  }

  /** What a caller's own variables promise: the heartbeat is alive only until the join. */
  ghost predicate Disciplined(c: Caller) {
    && (c.pc.Idle? ==> c.lock.None?)
    && (c.pc.Idle? || c.pc.Starting? ==> c.heartbeat == Off && !c.stop)
    && (c.pc.Prepared? || c.pc.Executing? ==> c.heartbeat != Off && !c.stop)
    && (c.pc.Stopping? ==> c.heartbeat != Off && c.stop)
    && (Beating(c) ==> c.pc.Prepared? || c.pc.Executing? || c.pc.Stopping?)
    && (c.pc.Writing? ==> 1 <= c.pc.left <= 3)
  }

  /** What the record of a caller says: acquired as long as the caller holds it, released once finished. */
  ghost predicate Backed(locks: seq<Lock>, c: Caller) {
    && (Holding(c) ==> c.lock.Some?)
    && (c.lock.Some? ==> c.lock.value < |locks|
                         && locks[c.lock.value] == Lock(c.run, if Holding(c) then Acquired else Released))
  }

  ghost predicate Sound(locks: seq<Lock>, c: Caller) {
    Disciplined(c) && Backed(locks, c)
  }

  ghost predicate AllSound(s: State) {
    forall i :: 0 <= i < |s.callers| ==> Sound(s.locks, s.callers[i])
  }

  ghost predicate NotShared(s: State) {
    forall i, j :: 0 <= i < j < |s.callers| && s.callers[i].lock.Some? ==> s.callers[i].lock != s.callers[j].lock
  }

  /** At most one acquired record for each run. */
  ghost predicate Exclusive(locks: seq<Lock>) {
    forall l, m :: 0 <= l < m < |locks| && locks[l].run == locks[m].run ==>
      locks[l].status == Released || locks[m].status == Released
  }

  ghost predicate Inv(s: State) {
    AllSound(s) && NotShared(s) && Exclusive(s.locks)
  }

  lemma MoveKeepsInv(s: State, i: nat, c: Caller)
    requires Inv(s) && i < |s.callers|
    requires c.lock == s.callers[i].lock && Sound(s.locks, c)
    ensures Inv(Move(s, i, c))
  {
  }

  lemma AcquireKeepsInv(s: State, i: nat)
    requires Inv(s) && i < |s.callers| && Enabled(s, i, Acquire)
    ensures Inv(Apply(s, i, Acquire))
  {
  }

  lemma ReleaseKeepsInv(s: State, i: nat)
    requires Inv(s) && i < |s.callers| && Enabled(s, i, WriteReleased)
    ensures Inv(Apply(s, i, WriteReleased))
  {
    var s' := Apply(s, i, WriteReleased);
    var c := s.callers[i];
    assert Sound(s.locks, c);
    forall j | 0 <= j < |s'.callers|
      ensures Sound(s'.locks, s'.callers[j])
    {
      assert Sound(s.locks, s.callers[j]);
      if j != i {
        assert s.callers[j].lock != c.lock;
      }
    }
  }

  /** Storing the copy read earlier changes nothing: nobody released the record in between. */
  lemma BeatChangesNothing(s: State, i: nat)
    requires Inv(s) && i < |s.callers| && Enabled(s, i, WriteBeat)
    ensures Apply(s, i, WriteBeat) == Move(s, i, s.callers[i].(heartbeat := Waiting))
  {
  }

  lemma StepKeepsInv(s: State, step: Step, s': State)
    requires Inv(s) && Follows(s, step, s')
    ensures Inv(s')
  {
    var i := step.caller;
    assert Sound(s.locks, s.callers[i]);
    hide Inv;
    match step.action {
      case Acquire => AcquireKeepsInv(s, i);
      case WriteReleased => ReleaseKeepsInv(s, i);
      case WriteBeat =>
        BeatChangesNothing(s, i);
        MoveKeepsInv(s, i, s'.callers[i]);
      case _ => MoveKeepsInv(s, i, s'.callers[i]);
    }
  }

  lemma {:induction false} AlwaysInv(states: seq<State>, steps: seq<Step>, n: nat)
    requires Execution(states, steps) && n < |states|
    ensures Inv(states[n])
  {
    if n == 0 {
      assert Inv(states[0]);
    } else {
      AlwaysInv(states, steps, n - 1);
      assert Follows(states[n - 1], steps[n - 1], states[n]);
      StepKeepsInv(states[n - 1], steps[n - 1], states[n]);
    }
  }

  // -------------------------------------------------------------- safety

  /** Whatever the interleaving, two callers that are both between acquiring and releasing, and in
      particular two that are both executing their closures, work on different runs. */
  lemma MutualExclusion(states: seq<State>, steps: seq<Step>, n: nat, i: nat, j: nat)
    requires Execution(states, steps) && n < |states|
    requires i < j < |states[n].callers|
    requires Holding(states[n].callers[i]) && Holding(states[n].callers[j])
    ensures states[n].callers[i].run != states[n].callers[j].run
  {
    AlwaysInv(states, steps, n);
    var s := states[n];
    assert Sound(s.locks, s.callers[i]) && Sound(s.locks, s.callers[j]);
    var l, m := s.callers[i].lock.value, s.callers[j].lock.value;
    assert s.callers[i].lock != s.callers[j].lock;
    assert l < m || m < l;
  }

  lemma ReleasedStaysReleasedOneStep(s: State, step: Step, s': State)
    requires Inv(s) && Follows(s, step, s')
    ensures |s.locks| <= |s'.locks|
    ensures forall l :: 0 <= l < |s.locks| && s.locks[l].status == Released ==> s'.locks[l] == s.locks[l]
  {
  }

  /** A released record is never acquired again, however late a heartbeat writes: the release waits
      for the heartbeat thread to end. */
  lemma {:induction false} ReleasedStaysReleased(states: seq<State>, steps: seq<Step>, n: nat, m: nat, l: nat)
    requires Execution(states, steps) && n <= m < |states|
    requires l < |states[n].locks| && states[n].locks[l].status == Released
    ensures l < |states[m].locks| && states[m].locks[l] == states[n].locks[l]
    decreases m
  {
    if n < m {
      ReleasedStaysReleased(states, steps, n, m - 1, l);
      AlwaysInv(states, steps, m - 1);
      assert Follows(states[m - 1], steps[m - 1], states[m]);
      ReleasedStaysReleasedOneStep(states[m - 1], steps[m - 1], states[m]);
    }
  }

  // -------------------------------------------------------------- every exit releases

  ghost function Failures(steps: seq<Step>, i: nat, a: Action): nat {
    if steps == [] then 0
    else Failures(steps[..|steps| - 1], i, a) + if steps[|steps| - 1] == Step(i, a) then 1 else 0
  }

  /** The failed storage calls a caller's release has met so far. */
  ghost predicate Accounted(c: Caller, misread: nat, unwritten: nat) {
    match c.pc
    case Writing(left) => misread == 0 && unwritten + left == 3
    case GaveUp => misread > 0 || unwritten == 3
    case Finished => true
    case _ => misread == 0 && unwritten == 0
  }

  lemma ExecutionShape(states: seq<State>, steps: seq<Step>)
    requires Execution(states, steps)
    ensures |states| == |steps| + 1
  {
  }

  lemma StepTaken(states: seq<State>, steps: seq<Step>, n: nat)
    requires Execution(states, steps) && n < |steps|
    ensures Follows(states[n], steps[n], states[n + 1]) && |states[n + 1].callers| == |states[n].callers|
  {
    assert Follows(states[n], steps[n], states[n + 1]);
  }

  lemma FailuresOneMore(steps: seq<Step>, n: nat, i: nat, a: Action)
    requires n < |steps|
    ensures Failures(steps[..n + 1], i, a) == Failures(steps[..n], i, a) + if steps[n] == Step(i, a) then 1 else 0
  {
    assert steps[..n + 1][..n] == steps[..n];
  }

  lemma AccountedAtFirst(states: seq<State>, steps: seq<Step>, i: nat)
    requires Execution(states, steps) && i < |states[0].callers|
    ensures Accounted(states[0].callers[i], Failures(steps[..0], i, ReadFails), Failures(steps[..0], i, WriteFails))
  {
  }

  lemma AccountedStep(s: State, step: Step, s': State, i: nat, misread: nat, unwritten: nat)
    requires Inv(s) && Follows(s, step, s') && i < |s.callers| == |s'.callers|
    requires Accounted(s.callers[i], misread, unwritten)
    ensures Accounted(s'.callers[i], misread + if step == Step(i, ReadFails) then 1 else 0,
                      unwritten + if step == Step(i, WriteFails) then 1 else 0)
  {
    assert Sound(s.locks, s.callers[i]);
    hide Backed;
  }

  lemma {:induction false} FailuresAccounted(states: seq<State>, steps: seq<Step>, n: nat, i: nat)
    requires Execution(states, steps) && n < |states| && i < |states[n].callers|
    ensures Accounted(states[n].callers[i], Failures(steps[..n], i, ReadFails), Failures(steps[..n], i, WriteFails))
  {
    hide *;
    ExecutionShape(states, steps);
    if n == 0 {
      AccountedAtFirst(states, steps, i);
    } else {
      StepTaken(states, steps, n - 1);
      AlwaysInv(states, steps, n - 1);
      FailuresAccounted(states, steps, n - 1, i);
      FailuresOneMore(steps, n - 1, i, ReadFails);
      FailuresOneMore(steps, n - 1, i, WriteFails);
      AccountedStep(states[n - 1], steps[n - 1], states[n], i, Failures(steps[..n - 1], i, ReadFails),
                    Failures(steps[..n - 1], i, WriteFails));
    }
  }

  /** A caller that has left either never had a record or left it released, in this state and every later
      one; it leaves a record acquired only when reading it back failed or when all three attempts to
      write it did. */
  lemma EveryExitReleases(states: seq<State>, steps: seq<Step>, n: nat, m: nat, i: nat)
    requires Execution(states, steps) && n <= m < |states| && i < |states[n].callers|
    ensures var c := states[n].callers[i];
            && (c.pc.Finished? && c.lock.Some? ==>
                  c.lock.value < |states[m].locks| && states[m].locks[c.lock.value] == Lock(c.run, Released))
            && (c.pc.GaveUp? ==>
                  Failures(steps[..n], i, ReadFails) > 0
                  || Failures(steps[..n], i, WriteFails) == 3)
  {
    AlwaysInv(states, steps, n);
    FailuresAccounted(states, steps, n, i);
    var c := states[n].callers[i];
    assert Sound(states[n].locks, c);
    if c.pc.Finished? && c.lock.Some? {
      ReleasedStaysReleased(states, steps, n, m, c.lock.value);
    }
  }

  // -------------------------------------------------------------- every exit comes

  /** The closure is over, or was never started. */
  ghost predicate Leaving(c: Caller) {
    c.pc.Stopping? || c.pc.Releasing? || c.pc.Writing? || c.pc.Finished? || c.pc.GaveUp?
  }

  /** How many steps of its own a leaving caller can still take. */
  ghost function Distance(c: Caller): nat {
    match c.pc
    case Stopping =>
      RUN_QUEUE_WRITE_ATTEMPTS + 2
      + (if c.heartbeat == Woken then 3
         else if c.heartbeat == HasRead then 2
         else if c.heartbeat == Waiting then 1
         else 0)
    case Releasing => RUN_QUEUE_WRITE_ATTEMPTS + 1
    case Writing(left) => left
    case _ => 0
  }

  /** A leaving caller is never stuck: whatever the others do, it has a step to take. */
  lemma LeavingNeverStuck(s: State, i: nat) returns (a: Action)
    requires Inv(s) && i < |s.callers| && Leaving(s.callers[i])
    requires !s.callers[i].pc.Finished? && !s.callers[i].pc.GaveUp?
    ensures Enabled(s, i, a) && a != ReadFails && a != WriteFails && a != BeatFails && a != BeatCrashes
  {
    var c := s.callers[i];
    assert Sound(s.locks, c);
    if c.pc.Writing? {
      a := WriteReleased;
    } else if c.pc.Releasing? {
      a := ReadLock;
    } else if c.heartbeat == Exited {
      a := Join;
    } else if c.heartbeat == Waiting {
      a := Leave;
    } else if c.heartbeat == Woken {
      a := ReadBeat;
    } else {
      a := WriteBeat;
    }
  }

  lemma LeavingStep(s: State, step: Step, s': State, i: nat)
    requires Inv(s) && Follows(s, step, s') && i < |s.callers| && Leaving(s.callers[i])
    ensures i < |s'.callers|
    ensures step.caller != i ==> s'.callers[i] == s.callers[i]
    ensures step.caller == i ==> Leaving(s'.callers[i]) && Distance(s'.callers[i]) < Distance(s.callers[i])
  {
    assert Sound(s.locks, s.callers[i]);
  }

  ghost function OwnSteps(steps: seq<Step>, i: nat): nat {
    if steps == [] then 0
    else OwnSteps(steps[..|steps| - 1], i) + if steps[|steps| - 1].caller == i then 1 else 0
  }

  lemma OwnStepsOneMore(steps: seq<Step>, n: nat, m: nat, i: nat)
    requires n <= m < |steps|
    ensures OwnSteps(steps[n..m + 1], i) == OwnSteps(steps[n..m], i) + if steps[m].caller == i then 1 else 0
  {
    assert steps[n..m + 1][..m - n] == steps[n..m];
  }

  lemma NearTheEnd(s: State, i: nat)
    requires Inv(s) && i < |s.callers|
    ensures Distance(s.callers[i]) <= 8
  {
    assert Sound(s.locks, s.callers[i]);
  }

  lemma NoOwnSteps(steps: seq<Step>, n: nat, i: nat)
    requires n <= |steps|
    ensures OwnSteps(steps[n..n], i) == 0
  {
  }

  /** Once its closure is over, a caller and its heartbeat take at most eight more steps between them,
      in any interleaving, failures included. */
  lemma {:induction false} LeavingIsShort(states: seq<State>, steps: seq<Step>, n: nat, m: nat, i: nat)
    requires Execution(states, steps) && n <= m < |states|
    requires i < |states[n].callers| && Leaving(states[n].callers[i])
    ensures i < |states[m].callers| && Leaving(states[m].callers[i])
    ensures OwnSteps(steps[n..m], i) + Distance(states[m].callers[i]) <= Distance(states[n].callers[i]) <= 8
    decreases m - n
  {
    hide *;
    ExecutionShape(states, steps);
    if n == m {
      AlwaysInv(states, steps, n);
      NearTheEnd(states[n], i);
      NoOwnSteps(steps, n, i);
    } else {
      LeavingIsShort(states, steps, n, m - 1, i);
      AlwaysInv(states, steps, m - 1);
      StepTaken(states, steps, m - 1);
      LeavingStep(states[m - 1], steps[m - 1], states[m], i);
      OwnStepsOneMore(steps, n, m - 1, i);
    }
  }
}
