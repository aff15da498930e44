/** The history purge: artifact files are renamed one by one into a quarantine, the database rows
    go in one transaction, then the files are unlinked or moved back; start-up recovery finishes
    whatever a crash left. Every method below may stop with `Crashed` before any of its effects. */
module Purge {
  import opened Sequences

  /** `<run id>/<file name>` below the artifact root. */
  datatype Path = Path(run: string, file: string)

  /** The place of a file inside one quarantine directory. */
  datatype Slot = Slot(root: string, path: Path)

  type Content(==, !new, 0)

  datatype Outcome<+T> = Done(value: T) | Failed(clean: bool) | Crashed

  datatype Unlinked = Deleted | Missing | Rejected

  datatype Quarantine = Quarantine(root: string, moved: seq<Path>, missing: nat)

  datatype Summary = Summary(deleted: nat, missing: nat, rejected: nat)

  /** What can go wrong at one point: the process dies, a requested path is unusable, a file cannot be moved
      in, moved out or unlinked, the database refuses the purge. */
  datatype Fault = Crash | BadSource | NoMoveIn | NoMoveOut | NoUnlink | Refusal

  /** What does go wrong: nothing; anything, at any point; the database refuses every purge; or it does and
      no file can be moved back either. */
  datatype Faults = NoFault | AnyFault | RefusalFault | RollbackFault

  predicate Must(f: Fault, faults: Faults) {
    (f == Refusal && (faults == RefusalFault || faults == RollbackFault)) || (f == NoMoveOut && faults == RollbackFault)
  }

  predicate May(f: Fault, faults: Faults) {
    faults == AnyFault || Must(f, faults)
  }

  /** Something went wrong, and `f` was the last of it. */
  ghost predicate EndsIn(was: seq<Fault>, now: seq<Fault>, f: Fault) {
    was < now && now[|now| - 1] == f
  }

  /** One thing went wrong that makes a purge give up. */
  ghost predicate GaveUp(was: seq<Fault>, now: seq<Fault>) {
    was <= now && |now| == |was| + 1 && now[|was|] in {BadSource, NoMoveIn, Refusal}
  }

  /** Then a file could not be moved back either. */
  ghost predicate Stranded(was: seq<Fault>, now: seq<Fault>) {
    && was <= now && |now| == |was| + 2
    && now[|was|] in {BadSource, NoMoveIn, Refusal} && now[|was| + 1] == NoMoveOut
  }

  ghost function Again(f: Fault, n: nat): seq<Fault> {
    seq(n, _ => f)
  }

  ghost predicate InQuarantine(q: map<Slot, Content>, p: Path) {
    exists s :: s in q && s.path == p
  }

  /** Contents never change, no file is in two places, a file of a run that is still in the
      database is never lost, and nothing a committed purge asked for is live. */
  ghost predicate Sane(live: map<Path, Content>, quarantined: map<Slot, Content>, runs: set<string>,
                       original: map<Path, Content>, condemned: set<Path>)
  {
    && (forall p :: p in live ==> p in original && live[p] == original[p])
    && (forall s :: s in quarantined ==> s.path in original && quarantined[s] == original[s.path])
    && (forall s :: s in quarantined ==> s.path !in live)
    && (forall s, t :: s in quarantined && t in quarantined && s.path == t.path ==> s == t)
    && (forall p :: p in original && p.run in runs ==> p in live || InQuarantine(quarantined, p))
    && (forall p :: p in condemned ==> p !in live && p.run !in runs)
  }

  /** The state of a store. */
  datatype Disk = Disk(live: map<Path, Content>, quarantined: map<Slot, Content>, runs: set<string>,
                       original: map<Path, Content>, condemned: set<Path>, log: seq<Fault>)

  ghost predicate Healthy(d: Disk) {
    Sane(d.live, d.quarantined, d.runs, d.original, d.condemned)
  }

  /** The artifact directory, its quarantine and the runs in the database. All of it survives a crash. */
  class Store {
    var live: map<Path, Content>
    var quarantined: map<Slot, Content>
    var runs: set<string>
    var original: map<Path, Content>  // for the record: every file, as it was written
    var condemned: set<Path>          // for the record: every path requested by a committed purge
    var log: seq<Fault>               // for the record: everything that went wrong

    constructor (files: map<Path, Content>, runs: set<string>)
      ensures live == original == files && quarantined == map[] && this.runs == runs && condemned == {} && log == []
      ensures Inv()
    {
      live, quarantined, this.runs := files, map[], runs;
      original, condemned, log := files, {}, [];
    }

    ghost predicate Inv()
      reads `live, `quarantined, `runs, `original, `condemned
    {
      Sane(live, quarantined, runs, original, condemned)
    }

    ghost function State(): Disk
      reads this
    {
      Disk(live, quarantined, runs, original, condemned, log)
    }

    // ---------------------------------------------------------- new runs and files

    /** A run with an id that was never used. */
    method CreateRun(run: string)
      requires Inv() && (forall p :: p in original ==> p.run != run) && forall p :: p in condemned ==> p.run != run
      modifies this`runs
      ensures Inv() && runs == old(runs) + {run}
      ensures UniformRoots(quarantined, runs) <==> UniformRoots(quarantined, old(runs))
    {
      NewRunMixesNothing(quarantined, runs, run);
      hide UniformRoots, UniformRoot;
      runs := runs + {run};
    }

    /** An artifact of a run, under a path that was never used. */
    method WriteFile(p: Path, content: Content)
      requires Inv() && p.run in runs && p !in original
      modifies this`live, this`original
      ensures Inv() && live == old(live)[p := content] && original == old(original)[p := content]
    {
      live, original := live[p := content], original[p := content];
      forall q | q in original && q.run in runs
        ensures q in live || InQuarantine(quarantined, q)
      {
        if q !in live {
          var s :| s in quarantined && s.path == q;
        }
      }
    }

    // ------------------------------------------------------- atomic effects

    /** Whether this goes wrong, here and now. Every fault below comes from here and is recorded. */
    method Meets(f: Fault, faults: Faults) returns (hit: bool)
      modifies `log
      ensures log == if hit then old(log) + [f] else old(log)
      ensures (hit ==> May(f, faults)) && (Must(f, faults) ==> hit)
    {
      hit := Must(f, faults);
      if faults == AnyFault {
        hit := *;
      }
      if hit {
        log := log + [f];
      }
    }

    /** `os.replace` of a live file into the quarantine. */
    method MoveIn(root: string, p: Path, faults: Faults) returns (ok: bool)
      requires Inv() && p in live
      modifies `live, `quarantined, `log
      ensures Inv() && (faults != AnyFault ==> ok)
      ensures log == if ok then old(log) else old(log) + [NoMoveIn]
      ensures ok ==> live == old(live) - {p} && quarantined == old(quarantined)[Slot(root, p) := old(live[p])]
      ensures !ok ==> live == old(live) && quarantined == old(quarantined)
    {
      var hit := Meets(NoMoveIn, faults);
      if hit {
        return false;
      }
      live, quarantined := live - {p}, quarantined[Slot(root, p) := live[p]];
      forall q | q in original && q.run in runs
        ensures q in live || InQuarantine(quarantined, q)
      {
        if q == p {
          assert Slot(root, p) in quarantined;
        } else if q !in live {
          var s :| s in old(quarantined) && s.path == q;
          assert s in quarantined;
        }
      }
      return true;
    }

    /** `os.replace` of a quarantined file back to its live path. */
    method MoveOut(s: Slot, faults: Faults) returns (ok: bool)
      requires Inv() && s in quarantined && s.path !in live && s.path.run in runs
      modifies `live, `quarantined, `log
      ensures Inv() && (!May(NoMoveOut, faults) ==> ok) && (Must(NoMoveOut, faults) ==> !ok)
      ensures log == if ok then old(log) else old(log) + [NoMoveOut]
      ensures ok ==> quarantined == old(quarantined) - {s} && live == old(live)[s.path := old(quarantined[s])]
      ensures !ok ==> live == old(live) && quarantined == old(quarantined)
    {
      var hit := Meets(NoMoveOut, faults);
      if hit {
        return false;
      }
      live, quarantined := live[s.path := quarantined[s]], quarantined - {s};
      forall q | q in original && q.run in runs
        ensures q in live || InQuarantine(quarantined, q)
      {
        if q !in live {
          var t :| t in old(quarantined) && t.path == q;
          assert t in quarantined;
        }
      }
      return true;
    }

    /** `unlink` in the quarantine; only ever called for a run that has left the database. */
    method Unlink(s: Slot, faults: Faults) returns (u: Unlinked)
      requires Inv() && s.path.run !in runs
      modifies `quarantined, `log
      ensures Inv()
      ensures log == if u == Rejected then old(log) + [NoUnlink] else old(log)
      ensures u == Deleted ==> s in old(quarantined) && quarantined == old(quarantined) - {s}
      ensures u == Missing ==> s !in old(quarantined)
      ensures u != Deleted ==> quarantined == old(quarantined)
      ensures faults != AnyFault ==> u != Rejected
    {
      var hit := Meets(NoUnlink, faults);
      if hit {
        return Rejected;
      }
      if s !in quarantined {
        return Missing;
      }
      quarantined := quarantined - {s};
      forall q | q in original && q.run in runs
        ensures q in live || InQuarantine(quarantined, q)
      {
        if q !in live {
          var t :| t in old(quarantined) && t.path == q;
          assert t in quarantined;
        }
      }
      return Deleted;
    }

    /** The database transaction: all the expected runs go, or none does. */
    method PurgeRuns(expected: set<string>, paths: seq<Path>, faults: Faults) returns (ok: bool)
      requires Inv() && forall p :: p in paths ==> p.run in expected && p !in live
      modifies `runs, `condemned, `log
      ensures Inv() && (!May(Refusal, faults) ==> ok) && (Must(Refusal, faults) ==> !ok)
      ensures log == if ok then old(log) else old(log) + [Refusal]
      ensures ok ==> runs == old(runs) - expected && condemned == old(condemned) + PathSet(paths)
      ensures !ok ==> runs == old(runs) && condemned == old(condemned)
    {
      var hit := Meets(Refusal, faults);
      if hit {
        return false;
      }
      runs, condemned := runs - expected, condemned + set p | p in paths;
      return true;
    }

    // ------------------------------------------------------------ quarantine

    /** Move one file back. A file that is not in quarantine must be back already. */
    method RestoreOne(s: Slot, faults: Faults) returns (r: Outcome<()>)
      requires Inv() && s.path.run in runs
      modifies `live, `quarantined, `log
      ensures Inv() && r != Failed(true)
      ensures r.Done? ==> log == old(log)
      ensures r.Crashed? ==> log == old(log) + [Crash]
      ensures s in old(quarantined) && r.Failed? ==> log == old(log) + [NoMoveOut]
      ensures s in old(quarantined) && faults != AnyFault ==>
        r == if Must(NoMoveOut, faults) then Failed(false) else Done(())
      ensures r.Done? && s in old(quarantined) ==>
        quarantined == old(quarantined) - {s} && live == old(live)[s.path := old(quarantined[s])]
      ensures r.Done? && s !in old(quarantined) ==> s.path in live
      ensures !r.Done? || s !in old(quarantined) ==> quarantined == old(quarantined) && live == old(live)
    {
      var crash := Meets(Crash, faults);
      if crash {
        return Crashed;
      }
      if s !in quarantined {
        return if s.path in live then Done(()) else Failed(false);
      }
      QuarantinedIsNotLive(s);
      if s.path in live {
        return Failed(false);
      }
      var ok := MoveOut(s, faults);
      return if ok then Done(()) else Failed(false);
    }

    /** Move files back, last first, until done or stopped; `left` files stay in quarantine. Only a crash or
        a file that cannot be moved stops it. */
    method RestoreMoves(root: string, moved: seq<Path>, faults: Faults) returns (r: Outcome<()>, ghost left: nat)
      requires Inv() && Distinct(moved)
      requires forall p :: p in moved ==> Slot(root, p) in quarantined && p.run in runs
      modifies `live, `quarantined, `log
      ensures Inv() && r != Failed(true)
      ensures r.Done? ==> log == old(log)
      ensures r.Crashed? ==> log == old(log) + [Crash]
      ensures r.Failed? ==> log == old(log) + [NoMoveOut]
      ensures faults == NoFault || faults == RefusalFault ==> r.Done?
      ensures faults == RollbackFault ==> left == |moved| && (moved != [] ==> r == Failed(false))
      ensures left <= |moved| && (r.Done? ==> left == 0)
      ensures quarantined == old(quarantined) - Slots(root, moved[left..])
      ensures live == old(live) + Contents(old(quarantined), root, moved[left..])
    {
      hide Inv, Slots, Contents, Restored, Distinct;
      ghost var held, kept := quarantined, live;
      NothingRestored(held, kept, root);
      var i := |moved|;
      left := i;
      assert moved[i..] == [];
      while i > 0
        invariant 0 <= i <= |moved| && left == i && log == old(log)
        invariant faults == RollbackFault ==> i == |moved|
        invariant Inv() && Restored(held, kept, quarantined, live, root, moved[i..])
      {
        assert moved[i - 1] in moved;
        RestoreStep(held, kept, quarantined, live, root, moved, i - 1);
        r := RestoreOne(Slot(root, moved[i - 1]), faults);
        if !r.Done? {
          RestoredMeans(held, kept, quarantined, live, root, moved[i..]);
          return;
        }
        i := i - 1;
        left := i;
      }
      RestoredMeans(held, kept, quarantined, live, root, moved[0..]);
      return Done(()), 0;
    }

    /** Rename every requested file into a fresh quarantine directory. An error moves the files back; it is
        `clean` when they all got back, and then nothing has changed. It is not only if one of them could not
        be moved. */
    method QuarantineFiles(root: string, paths: seq<Path>, faults: Faults) returns (r: Outcome<Quarantine>)
      requires Inv() && (forall p :: p in paths ==> p.run in runs)
      requires forall s :: s in quarantined ==> s.root != root
      modifies `live, `quarantined, `log
      ensures Inv() && (faults != AnyFault ==> log == old(log))
      ensures !Distinct(paths) ==> r == Failed(true) && log == old(log)
      ensures Distinct(paths) ==>
        && (r.Done? <==> log == old(log))
        && (r == Failed(true) ==> GaveUp(old(log), log))
        && (r == Failed(false) ==> Stranded(old(log), log))
        && (r.Crashed? ==> EndsIn(old(log), log, Crash))
      ensures r == Failed(true) ==> live == old(live) && quarantined == old(quarantined)
      ensures r.Done? ==>
        var q := r.value;
        && q.root == root && Distinct(q.moved)
        && (forall p :: p in q.moved <==> p in paths && p in old(live))
        && |q.moved| + q.missing == |paths|
        && live == old(live) - PathSet(q.moved)
        && quarantined == old(quarantined) + Stored(old(live), root, q.moved)
      ensures Beside(old(quarantined), quarantined, root, PathSet(paths))
    {
      hide *;
      ghost var held, kept, was := quarantined, live, log;
      OnlyAnyFault(faults);
      NothingEnds(log);
      LastFault(log, Crash, 0);
      GivingUp(log);
      var unique := AllUnique(paths);
      NothingMoved(held, kept, root, paths);
      if !unique {
        return Failed(true);
      }
      var moved: seq<Path> := [];
      var missing := 0;
      var i := 0;
      var error := false;
      while i < |paths| && !error
        invariant 0 <= i <= |paths| && Inv()
        invariant MovedSoFar(held, kept, quarantined, live, root, paths, i, moved, missing)
        invariant
          if error then faults == AnyFault && (log == was + [BadSource] || log == was + [NoMoveIn]) else log == was
        decreases |paths| - i, !error
      {
        var crash := Meets(Crash, faults);
        if crash {
          MovedMeans(held, kept, quarantined, live, root, paths, i, moved, missing);
          MovedBeside(held, kept, root, moved, paths, []);
          NoSlots(quarantined, root);
          return Crashed;
        }
        error := Meets(BadSource, faults);  // the path is invalid or the source could not be inspected
        if !error {
          var p := paths[i];
          NextPath(held, kept, quarantined, live, root, paths, i, moved, missing);
          if p !in live {
            missing := missing + 1;
            i := i + 1;
          } else {
            var ok := MoveIn(root, p, faults);
            if ok {
              moved := moved + [p];
              i := i + 1;
            } else {
              error := true;
            }
          }
        }
      }
      MovedMeans(held, kept, quarantined, live, root, paths, i, moved, missing);
      MovedElsewhere(held, kept, root, moved);
      MovedBeside(held, kept, root, moved, paths, []);
      NoSlots(quarantined, root);
      if error {
        RollbackUndoes(held, kept, root, moved);
        var undo, left := RestoreMoves(root, moved, faults);
        MovedBeside(held, kept, root, moved, paths, moved[left..]);
        if undo.Done? {
          assert moved[0..] == moved;
          return Failed(true);
        }
        return if undo.Crashed? then Crashed else Failed(false);
      }
      assert paths[..i] == paths;
      return Done(Quarantine(root, moved, missing));
    }

    /** Unlink every quarantined file of a purge whose runs are gone. A file that cannot be unlinked
        is counted and left for recovery. */
    method DiscardFiles(q: Quarantine, faults: Faults) returns (r: Outcome<Summary>, ghost gone: set<Slot>)
      requires Inv() && Distinct(q.moved)
      requires forall p :: p in q.moved ==> p.run !in runs
      modifies `quarantined, `log
      ensures Inv() && !r.Failed? && (faults != AnyFault ==> r.Done? && r.value.rejected == 0)
      ensures r.Done? ==> log == old(log) + Again(NoUnlink, r.value.rejected)
      ensures r.Crashed? ==> EndsIn(old(log), log, Crash)
      ensures quarantined == old(quarantined) - gone
      ensures gone <= Slots(q.root, q.moved) && gone <= old(quarantined).Keys
      ensures r.Done? ==>
        && r.value.deleted == |gone|
        && r.value.deleted + r.value.missing + r.value.rejected == |q.moved| + q.missing
        && (AllHeld(old(quarantined), q.root, q.moved) ==> r.value.missing == q.missing)
        && (r.value.rejected == 0 ==> Emptied(quarantined, q.root, q.moved))
    {
      hide *;
      ghost var held, was := quarantined, log;
      var s := Summary(0, q.missing, 0);
      gone := {};
      NothingDiscarded(held, q.root, q.moved, q.missing);
      NeverYet(was, NoUnlink);
      var i := 0;
      while i < |q.moved|
        invariant 0 <= i <= |q.moved| && Inv()
        invariant Discarding(held, quarantined, q.root, q.moved, i, gone, s, q.missing)
        invariant log == was + Again(NoUnlink, s.rejected) && (faults != AnyFault ==> s.rejected == 0)
      {
        DiscardStep(held, quarantined, q.root, gone, q.moved, i, s, q.missing);
        var crash := Meets(Crash, faults);
        if crash {
          CrashEnds(was, NoUnlink, s.rejected);
          AllDiscarded(held, quarantined, q.root, gone, q.moved, i, s, q.missing);
          OnlyAnyFault(faults);
          return Crashed, gone;
        }
        var u := Unlink(Slot(q.root, q.moved[i]), faults);
        OneMoreTime(was, NoUnlink, s.rejected);
        match u {
          case Deleted =>
            s := s.(deleted := s.deleted + 1);
            gone := gone + {Slot(q.root, q.moved[i])};
          case Missing => s := s.(missing := s.missing + 1);
          case Rejected => s := s.(rejected := s.rejected + 1);
        }
        i := i + 1;
      }
      AllDiscarded(held, quarantined, q.root, gone, q.moved, i, s, q.missing);
      return Done(s), gone;
    }

    // ------------------------------------------------------------ the purge

    /** Isolate the files, delete the rows in one transaction, then unlink, or roll back. The requested
        files of a committed purge are never live again (`condemned`). The outcome is what the faults met
        on the way make it. */
    method PurgeHistory(runIds: set<string>, paths: seq<Path>, root: string,
                        faults: Faults) returns (r: Outcome<Summary>)
      requires Inv() && runIds <= runs && (forall p :: p in paths ==> p.run in runIds)
      requires forall s: Slot :: s in quarantined ==> s.root != root
      modifies `live, `quarantined, `runs, `condemned, `log
      ensures Inv()
      ensures r.Done? ==>
        && live == old(live) - PathSet(paths)
        && r.value.deleted + r.value.missing + r.value.rejected == |paths|
        && r.value.missing == |AbsentFrom(paths, old(live))|
        && r.value.rejected == |Leftovers(quarantined, root)|
        && (r.value.rejected == 0 ==> quarantined == old(quarantined))
      ensures !Distinct(paths) ==> r == Failed(true) && log == old(log)
      ensures Distinct(paths) ==>
        && (r.Done? ==> log == old(log) + Again(NoUnlink, r.value.rejected))
        && (r == Failed(true) ==> GaveUp(old(log), log))
        && (r == Failed(false) ==> Stranded(old(log), log))
        && (r.Crashed? ==> EndsIn(old(log), log, Crash))
      ensures faults == NoFault && Distinct(paths) ==> r.Done? && r.value.rejected == 0
      ensures faults == RefusalFault ==> r == Failed(true)
      ensures faults == RollbackFault && Distinct(paths) && (exists p :: p in paths && p in old(live)) ==>
        r == Failed(false) && forall p :: p in paths && p in old(live) ==> Slot(root, p) in quarantined
      ensures Purges(old(State()), State(), runIds, paths, root, r)
    {
      hide *;
      StateIs();
      ghost var d := State();
      NothingEnds(log);
      LastFault(log, Crash, 0);
      var isolated := QuarantineFiles(root, paths, faults);
      if isolated.Done? {
        var q := isolated.value;
        FilesIsolated(d.quarantined, d.live, paths, q);
        ParentRuns(runIds, runs, paths);
        r := Settle(q, runIds, faults, d.quarantined, d.live, paths);
      } else {
        r := if isolated.Crashed? then Crashed else Failed(isolated.clean);
        NothingDone(d.quarantined, quarantined, d.live, live, runs, condemned, r);
      }
      RunsOrNot(d.quarantined, quarantined, d.live, live, d.runs, runs, d.condemned, condemned, runIds, paths, r);
      PurgedRoots(d.quarantined, quarantined, root, paths, d.runs, runs, runIds);
      IsHealthy();
      StateIs();
      PurgesNow(d, State(), runIds, paths, root, r);
    }

    /** The part of a purge after the files have been isolated. */
    method Settle(q: Quarantine, runIds: set<string>, faults: Faults, ghost held: map<Slot, Content>,
                  ghost kept: map<Path, Content>, paths: seq<Path>) returns (r: Outcome<Summary>)
      requires Inv() && Isolated(held, kept, quarantined, live, paths, q) && runIds <= runs
      requires (forall p :: p in paths ==> p.run in runIds && p !in live) && live == kept - PathSet(paths)
      requires forall p :: p in paths && p in kept ==> Slot(q.root, p) in quarantined
      modifies `live, `quarantined, `runs, `condemned, `log
      ensures Inv() && Beside(held, quarantined, q.root, PathSet(paths))
      ensures SettledAs(held, quarantined, kept, live, old(runs), runs, old(condemned), condemned, runIds, paths, r)
      ensures r.Done? ==>
        && live == kept - PathSet(paths)
        && r.value.deleted + r.value.missing + r.value.rejected == |paths|
        && r.value.missing == |AbsentFrom(paths, kept)|
        && r.value.rejected == |Leftovers(quarantined, q.root)|
        && (r.value.rejected == 0 ==> quarantined == held)
        && log == old(log) + Again(NoUnlink, r.value.rejected)
      ensures r == Failed(true) ==> GaveUp(old(log), log)
      ensures r == Failed(false) ==> Stranded(old(log), log)
      ensures r.Crashed? ==> EndsIn(old(log), log, Crash)
      ensures faults == NoFault ==> r.Done? && r.value.rejected == 0
      ensures faults == RefusalFault ==> r == Failed(true)
      ensures faults == RollbackFault && (exists p :: p in paths && p in kept) ==>
        r == Failed(false) && forall p :: p in paths && p in kept ==> Slot(q.root, p) in quarantined
    {
      hide Inv, UniformRoots, Splits, Beside, AbsentFrom, Leftovers, Slots, Stored, Contents, PathSet, EndsIn, GaveUp,
           Stranded, Again, Distinct, Sane, InQuarantine, UniformRoot;
      LastFault(log, Crash, 0);
      RefusedLog(log);
      IsolatedParts(held, kept, quarantined, live, paths, q);
      hide Isolated;
      var crash := Meets(Crash, faults);
      if crash {
        return Crashed;
      }
      var committed := PurgeRuns(runIds, paths, faults);
      if committed {
        r := Complete(q, faults, held, kept, paths);
      } else {
        r := RollBack(q, faults, held, kept, paths);
      }
    }

    /** The database refused: every file goes back. */
    method RollBack(q: Quarantine, faults: Faults, ghost held: map<Slot, Content>, ghost kept: map<Path, Content>,
                    ghost paths: seq<Path>) returns (r: Outcome<Summary>)
      requires Inv() && Isolated(held, kept, quarantined, live, paths, q) && forall p :: p in q.moved ==> p.run in runs
      modifies `live, `quarantined, `log
      ensures Inv() && !r.Done? && Beside(held, quarantined, q.root, PathSet(paths))
      ensures r == Failed(true) ==> live == kept && quarantined == held && log == old(log)
      ensures r == Failed(false) ==> log == old(log) + [NoMoveOut]
      ensures r.Crashed? ==> log == old(log) + [Crash]
      ensures faults == RefusalFault ==> r == Failed(true)
      ensures faults == RollbackFault && q.moved != [] ==> r == Failed(false) && quarantined == old(quarantined)
    {
      hide Inv, Beside, Slots, Stored, Contents, PathSet, Distinct;
      RollbackUndoes(held, kept, q.root, q.moved);
      MovedElsewhere(held, kept, q.root, q.moved);
      var undo, left := RestoreMoves(q.root, q.moved, faults);
      MovedBeside(held, kept, q.root, q.moved, paths, q.moved[left..]);
      NothingTaken(old(quarantined), q.root, q.moved, left);
      assert left == 0 ==> q.moved[left..] == q.moved;
      return match undo case Done(_) => Failed(true) case Failed(_) => Failed(false) case Crashed => Crashed;
    }

    /** The rows are gone: every file is unlinked, or counted as left for recovery. */
    method Complete(q: Quarantine, faults: Faults, ghost held: map<Slot, Content>, ghost kept: map<Path, Content>,
                    ghost paths: seq<Path>) returns (r: Outcome<Summary>)
      requires Inv() && Isolated(held, kept, quarantined, live, paths, q) && forall p :: p in q.moved ==> p.run !in runs
      modifies `quarantined, `log
      ensures Inv() && !r.Failed? && Beside(held, quarantined, q.root, PathSet(paths))
      ensures r.Done? ==>
        && r.value.deleted + r.value.missing + r.value.rejected == |paths|
        && r.value.missing == |AbsentFrom(paths, kept)|
        && r.value.rejected == |Leftovers(quarantined, q.root)|
        && (r.value.rejected == 0 ==> quarantined == held)
        && log == old(log) + Again(NoUnlink, r.value.rejected)
      ensures r.Crashed? ==> EndsIn(old(log), log, Crash)
      ensures faults == NoFault ==> r.Done? && r.value.rejected == 0
    {
      hide Inv, Beside, Slots, Stored, Contents, PathSet, Distinct, AbsentFrom, Leftovers, EndsIn, Again, AllHeld;
      EverythingHeld(held, kept, q.root, q.moved);
      CountMissing(paths, kept, q.moved);
      MovedBeside(held, kept, q.root, q.moved, paths, []);
      NoSlots(quarantined, q.root);
      ghost var isolatedFiles := quarantined;
      var summary, gone := DiscardFiles(q, faults);
      OtherSlots(isolatedFiles, q.root, q.moved, gone);
      FewerBeside(held, isolatedFiles, quarantined, q.root, PathSet(paths));
      CountLeft(held, kept, q.root, q.moved, gone);
      return summary;
    }

    // ---------------------------------------------------------- the recovery

    /** The files found in one quarantine directory, in any order. */
    method ListMoves(root: string) returns (moves: seq<Path>)
      ensures Distinct(moves)
      ensures forall p :: p in moves <==> Slot(root, p) in quarantined
    {
      moves := [];
      var rest := set s | s in quarantined.Keys && s.root == root;
      while rest != {}
        invariant Distinct(moves)
        invariant rest <= quarantined.Keys && forall s :: s in rest ==> s.root == root && s.path !in moves
        invariant forall p :: p in moves ==> Slot(root, p) in quarantined
        invariant forall s :: s in quarantined && s.root == root ==> s in rest || s.path in moves
        decreases rest
      {
        var s: Slot :| s in rest;
        rest := rest - {s};
        moves := moves + [s.path];
      }
    }

    /** One quarantine directory of the recovery: all of its files go back, or all are unlinked. */
    method RecoverRoot(root: string, faults: Faults, ghost held: map<Slot, Content>, ghost pending: set<string>)
      returns (r: Outcome<(nat, nat)>)
      requires Inv() && OneSlotEach(held) && Settled(held, quarantined, live, runs, pending) && root in pending
      modifies `live, `quarantined, `log
      ensures Inv() && old(live).Keys <= live.Keys && r != Failed(true)
      ensures OthersKept(old(quarantined), quarantined, runs, root)
      ensures r.Done? ==>
        && Settled(held, quarantined, live, runs, pending - {root})
        && r.value.0 + |Staying(quarantined, runs)| == |Staying(old(quarantined), runs)|
        && r.value.1 + |Leaving(quarantined, runs)| == |Leaving(old(quarantined), runs)|
      ensures faults == NoFault ==> log == old(log)
      ensures r.Done? ==> log == old(log)
      ensures r.Crashed? ==> EndsIn(old(log), log, Crash)
      ensures r.Failed? ==>
        || (log == old(log) && !UniformRoots(held, runs))
        || EndsIn(old(log), log, NoMoveOut) || EndsIn(old(log), log, NoUnlink)
    {
      hide Inv, Settled, OneSlotEach, UniformRoots, UniformRoot, OthersKept, Slots, Contents, EndsIn, Again, Emptied,
           AllHeld, Staying, Leaving;
      ghost var was, logged := quarantined, log;
      var moves := ListMoves(root);
      var runExists := set p | p in moves :: p.run in runs;
      if true in runExists && false in runExists {
        MixedRoot(held, quarantined, live, runs, pending, root, moves);
        NothingLost(was, runs, root);
        return Failed(false);
      }
      if runExists == {true} {
        AllIn(moves, runExists, runs);
        r := RestoreDirectory(root, moves, faults, held, pending);
      } else {
        NoneIn(moves, runExists, runs);
        r := DiscardDirectory(root, moves, faults, held, pending);
      }
    }

    /** The branch of the recovery for a directory whose runs are all in the database. */
    method RestoreDirectory(root: string, moves: seq<Path>, faults: Faults, ghost held: map<Slot, Content>,
                            ghost pending: set<string>) returns (r: Outcome<(nat, nat)>)
      requires Inv() && OneSlotEach(held) && Settled(held, quarantined, live, runs, pending) && root in pending
      requires Distinct(moves) && forall p :: p in moves <==> Slot(root, p) in quarantined
      requires forall p :: p in moves ==> p.run in runs
      modifies `live, `quarantined, `log
      ensures Inv() && old(live).Keys <= live.Keys && (faults == NoFault ==> r.Done?) && r != Failed(true)
      ensures OthersKept(old(quarantined), quarantined, runs, root)
      ensures r.Done? ==>
        && Settled(held, quarantined, live, runs, pending - {root})
        && r.value.0 + |Staying(quarantined, runs)| == |Staying(old(quarantined), runs)|
        && r.value.1 + |Leaving(quarantined, runs)| == |Leaving(old(quarantined), runs)|
        && log == old(log)
      ensures r.Crashed? ==> EndsIn(old(log), log, Crash)
      ensures r.Failed? ==> EndsIn(old(log), log, NoMoveOut)
    {
      hide Inv, Settled, OneSlotEach, UniformRoots, UniformRoot, OthersKept, Slots, Contents, EndsIn, Staying, Leaving;
      ghost var was := quarantined;
      SlotsSize(root, moves);
      RestoreRoot(held, quarantined, live, runs, pending, root, moves);
      LastFault(log, Crash, 0);
      LastFault(log, NoMoveOut, 0);
      var back, left := RestoreMoves(root, moves, faults);
      TailSlots(root, moves, left);
      OnlyRootLost(was, quarantined, runs, root, moves, Slots(root, moves[left..]));
      assert left == 0 ==> moves[left..] == moves;
      if back.Crashed? {
        return Crashed;
      }
      if back.Failed? {
        return Failed(false);
      }
      CountRestored(was, runs, Slots(root, moves));
      var restored: nat := |moves|;
      return Done((restored, 0));
    }

    /** The branch of the recovery for a directory whose runs have all left the database. */
    method DiscardDirectory(root: string, moves: seq<Path>, faults: Faults, ghost held: map<Slot, Content>,
                            ghost pending: set<string>) returns (r: Outcome<(nat, nat)>)
      requires Inv() && Settled(held, quarantined, live, runs, pending) && root in pending
      requires Distinct(moves) && forall p :: p in moves <==> Slot(root, p) in quarantined
      requires forall p :: p in moves ==> p.run !in runs
      modifies `quarantined, `log
      ensures Inv() && (faults == NoFault ==> r.Done?) && r != Failed(true)
      ensures OthersKept(old(quarantined), quarantined, runs, root)
      ensures r.Done? ==>
        && Settled(held, quarantined, live, runs, pending - {root})
        && r.value.0 + |Staying(quarantined, runs)| == |Staying(old(quarantined), runs)|
        && r.value.1 + |Leaving(quarantined, runs)| == |Leaving(old(quarantined), runs)|
        && log == old(log)
      ensures r.Crashed? ==> EndsIn(old(log), log, Crash)
      ensures r.Failed? ==> EndsIn(old(log), log, NoUnlink)
    {
      hide Inv, Settled, UniformRoots, UniformRoot, OthersKept, Slots, Contents, EndsIn, Again, Emptied, AllHeld,
           Staying, Leaving;
      ghost var was, logged := quarantined, log;
      var result, gone := DiscardFiles(Quarantine(root, moves, 0), faults);
      OnlyRootLost(was, quarantined, runs, root, moves, gone);
      if result.Crashed? {
        return Crashed;
      }
      LastFault(logged, NoUnlink, result.value.rejected);
      if result.value.rejected > 0 {
        return Failed(false);
      }
      CountDiscarded(was, runs, gone);
      DiscardRoot(held, was, live, runs, pending, root, moves, gone);
      return Done((0, result.value.deleted));
    }

    /** Bring every quarantined file back if its run is still in the database, else unlink it. A completed
        recovery leaves no quarantine, every file of a remaining run in place and unchanged, and no file
        of a committed purge. Unless something goes wrong it can only
        refuse a directory whose runs are partly gone. */
    method Recover(faults: Faults) returns (r: Outcome<(nat, nat)>)
      requires Inv()
      modifies `live, `quarantined, `log
      ensures Inv() && old(live).Keys <= live.Keys && quarantined.Keys <= old(quarantined).Keys
      ensures r != Failed(true) && (faults == NoFault ==> log == old(log))
      ensures r.Crashed? ==> EndsIn(old(log), log, Crash)
      ensures r.Failed? ==>
        || (log == old(log) && !UniformRoots(old(quarantined), runs))
        || EndsIn(old(log), log, NoMoveOut) || EndsIn(old(log), log, NoUnlink)
      ensures r.Done? ==>
        && r.value == (|Staying(old(quarantined), runs)|, |Leaving(old(quarantined), runs)|)
        && (forall p :: p in original && p.run in runs ==> p in live && live[p] == original[p])
        && (forall p :: p in condemned ==> p !in live)
        && (forall s :: s in old(quarantined) ==> (s.path in live <==> s.path.run in runs))
      ensures Recovers(old(State()), State(), r)
    {
      hide Inv, Settled, OneSlotEach, UniformRoots, UniformRoot, MixedKept, OthersKept, EndsIn, Staying, Leaving;
      ghost var held := quarantined;
      var pending := set s | s in quarantined.Keys :: s.root;
      NothingSettledYet(pending);
      var restored: nat, deleted: nat := 0, 0;
      while pending != {}
        invariant Inv() && old(live).Keys <= live.Keys && log == old(log)
        invariant Settled(held, quarantined, live, runs, pending)
        invariant restored + |Staying(quarantined, runs)| == |Staying(held, runs)|
        invariant deleted + |Leaving(quarantined, runs)| == |Leaving(held, runs)|
        decreases pending
      {
        var root: string :| root in pending;
        ghost var before, kept := quarantined, live;
        r := RecoverRoot(root, faults, held, pending);
        if !r.Done? {
          NothingEnds(log);
          MixedStays(held, before, quarantined, kept, runs, pending, root);
          IsHealthy();
          return;
        }
        restored, deleted := restored + r.value.0, deleted + r.value.1;
        pending := pending - {root};
      }
      AllSettled(held, quarantined, live, runs);
      NothingToCount(runs);
      MixedKeptMeans(held, quarantined, runs);
      Recovered();
      IsHealthy();
      return Done((restored, deleted));
    }

    lemma StateIs()
      ensures State() == Disk(live, quarantined, runs, original, condemned, log)
    {
    }

    lemma IsHealthy()
      requires Inv()
      ensures Healthy(State())
    {
    }

    lemma NothingSettledYet(pending: set<string>)
      requires Inv() && forall s :: s in quarantined ==> s.root in pending
      ensures OneSlotEach(quarantined) && Settled(quarantined, quarantined, live, runs, pending)
    {
    }

    lemma Recovered()
      requires Inv() && quarantined == map[]
      ensures forall p :: p in original && p.run in runs ==> p in live && live[p] == original[p]
      ensures forall p :: p in condemned ==> p !in live
    {
    }

    lemma QuarantinedIsNotLive(s: Slot)
      requires Inv() && s in quarantined
      ensures s.path !in live
    {
    }
  }

  // ------------------------------------------------------- purges and recoveries

  /** What a purge may do to the store, and how it then ends. */
  ghost predicate Purges(d: Disk, d': Disk, runIds: set<string>, paths: seq<Path>, root: string, r: Outcome<Summary>) {
    && Healthy(d') && d'.original == d.original
    && (r.Done? ==> d'.runs == d.runs - runIds && d'.condemned == d.condemned + PathSet(paths))
    && (r.Failed? ==> d'.runs == d.runs && d'.condemned == d.condemned)
    && (r == Failed(true) ==> d'.live == d.live && d'.quarantined == d.quarantined)
    && (r.Crashed? ==>
          || (d'.runs == d.runs && d'.condemned == d.condemned)
          || (d'.runs == d.runs - runIds && d'.condemned == d.condemned + PathSet(paths)))
    && (forall s: Slot :: s.root != root ==> (s in d'.quarantined <==> s in d.quarantined))
    && (UniformRoots(d.quarantined, d.runs) ==>
          (UniformRoots(d'.quarantined, d'.runs) <==> d'.runs == d.runs || !Splits(d.quarantined, runIds)))
  }

  /** What a recovery may do, and how it then ends: it completes exactly if nothing goes wrong and no
      directory is mixed. */
  ghost predicate Recovers(d: Disk, d': Disk, r: Outcome<(nat, nat)>) {
    && Healthy(d') && d'.original == d.original && d'.runs == d.runs && d'.condemned == d.condemned
    && (r.Done? <==> d'.log == d.log && UniformRoots(d.quarantined, d.runs))
    && (UniformRoots(d'.quarantined, d.runs) <==> UniformRoots(d.quarantined, d.runs))
    && MixedKept(d.quarantined, d'.quarantined, d.runs)
    && (r.Done? ==> d'.quarantined == map[])
  }

  /** Recoveries one after the other, each from where the one before stopped. */
  ghost predicate RecoversOnce(ds: seq<Disk>, rs: seq<Outcome<(nat, nat)>>) {
    && |ds| == |rs| + 1
    && forall k :: 0 <= k < |rs| ==> Recovers(ds[k], ds[k + 1], rs[k])
  }

  lemma {:induction false} RecoveriesKeep(ds: seq<Disk>, rs: seq<Outcome<(nat, nat)>>, k: nat)
    requires RecoversOnce(ds, rs) && k < |ds| && Healthy(ds[0])
    ensures Healthy(ds[k]) && ds[k].original == ds[0].original
    ensures ds[k].runs == ds[0].runs && ds[k].condemned == ds[0].condemned
    ensures UniformRoots(ds[k].quarantined, ds[0].runs) <==> UniformRoots(ds[0].quarantined, ds[0].runs)
  {
    hide Sane, UniformRoots, MixedKept;
    if k > 0 {
      RecoveriesKeep(ds, rs, k - 1);
      assert Recovers(ds[k - 1], ds[k], rs[k - 1]);
    }
  }

  lemma RestoredWhole(d: Disk)
    requires Healthy(d) && d.quarantined == map[]
    ensures forall p :: p in d.original && p.run in d.runs ==> p in d.live && d.live[p] == d.original[p]
    ensures forall p :: p in d.condemned ==> p !in d.live
  {
  }

  /** A purge stopped at any point, then any number of recoveries that may be stopped too. As soon as one
      recovery completes, either every run is still there with every file back unchanged, or all the runs and
      all their requested files are gone; and the quarantine is empty. From a quarantine without mixed
      directories a recovery in which nothing goes wrong does complete, unless the purge was committed and
      split a directory it found. */
  lemma PurgeAcrossCrashes(d: Disk, runIds: set<string>, paths: seq<Path>, root: string, purge: Outcome<Summary>,
                           ds: seq<Disk>, rs: seq<Outcome<(nat, nat)>>, k: nat)
    requires Healthy(d) && RecoversOnce(ds, rs) && Purges(d, ds[0], runIds, paths, root, purge) && k < |rs|
    ensures rs[k].Done? ==>
      var e := ds[k + 1];
      && e.quarantined == map[]
      && (|| (&& e.runs == d.runs && !purge.Done?
              && forall p :: p in d.original && p.run in d.runs ==> p in e.live && e.live[p] == d.original[p])
          || (&& e.runs == d.runs - runIds && !purge.Failed?
              && forall p :: p in paths ==> p !in e.live))
    ensures UniformRoots(d.quarantined, d.runs) && ds[k + 1].log == ds[k].log ==>
      (rs[k].Done? <==> ds[0].runs == d.runs || !Splits(d.quarantined, runIds))
  {
    hide Sane, UniformRoots, MixedKept, Splits;
    RecoveriesKeep(ds, rs, k);
    RecoveriesKeep(ds, rs, k + 1);
    assert Recovers(ds[k], ds[k + 1], rs[k]);
    if rs[k].Done? {
      RestoredWhole(ds[k + 1]);
      assert ds[0].condemned == d.condemned + PathSet(paths) ==> forall p :: p in paths ==> p in ds[0].condemned;
    }
  }

  // ------------------------------------------------------------- whole lifetimes

  /** What happens to the store: purges, starts with their recovery, new runs and files, or the process ends. */
  datatype Action =
    | Purged(runIds: set<string>, paths: seq<Path>, root: string, purge: Outcome<Summary>)
    | Started(recovery: Outcome<(nat, nat)>)
    | Created(run: string)
    | Wrote(path: Path, content: Content)
    | Ended

  /** The store, and whether a process serves it. */
  datatype Moment = Moment(disk: Disk, up: bool)

  ghost predicate Acts(m: Moment, a: Action, m': Moment) {
    var d, d' := m.disk, m'.disk;
    match a
    case Purged(runIds, paths, root, r) =>
      && m.up && runIds <= d.runs && (forall p :: p in paths ==> p.run in runIds)
      && (forall s: Slot :: s in d.quarantined ==> s.root != root)
      && Purges(d, d', runIds, paths, root, r) && (m'.up <==> !r.Crashed?)
    case Started(r) => !m.up && Recovers(d, d', r) && (m'.up <==> r.Done?)
    case Created(run) =>
      && m.up && m'.up
      && (forall p :: p in d.original ==> p.run != run) && (forall p :: p in d.condemned ==> p.run != run)
      && d' == d.(runs := d.runs + {run})
    case Wrote(p, content) =>
      && m.up && m'.up && p.run in d.runs && p !in d.original
      && d' == d.(live := d.live[p := content], original := d.original[p := content])
    case Ended => !m'.up && d' == d
  }

  ghost predicate Life(ms: seq<Moment>, actions: seq<Action>) {
    && |ms| == |actions| + 1
    && forall n :: 0 <= n < |actions| ==> Acts(ms[n], actions[n], ms[n + 1])
  }

  /** A purge that is committed for only a part of the runs of a directory left behind by an earlier one. */
  ghost predicate SplitsNow(m: Moment, a: Action, m': Moment) {
    a.Purged? && m'.disk.runs != m.disk.runs && Splits(m.disk.quarantined, a.runIds)
  }

  lemma ActsKeeps(m: Moment, a: Action, m': Moment)
    requires Acts(m, a, m') && Healthy(m.disk)
    ensures Healthy(m'.disk) && m.disk.condemned <= m'.disk.condemned
    ensures forall p :: p in m.disk.original ==>
      p in m'.disk.original && m'.disk.original[p] == m.disk.original[p]
  {
    hide UniformRoots, MixedKept, Splits;
    match a
    case Created(run) => RunAdded(m.disk, run);
    case Wrote(p, content) => FileAdded(m.disk, p, content);
    case _ => hide Sane;
  }

  lemma RunAdded(d: Disk, run: string)
    requires Healthy(d)
    requires (forall p :: p in d.original ==> p.run != run) && forall p :: p in d.condemned ==> p.run != run
    ensures Healthy(d.(runs := d.runs + {run}))
  {
  }

  lemma FileAdded(d: Disk, p: Path, content: Content)
    requires Healthy(d) && p.run in d.runs && p !in d.original
    ensures Healthy(d.(live := d.live[p := content], original := d.original[p := content]))
  {
  }

  lemma ActsMixes(m: Moment, a: Action, m': Moment)
    requires Acts(m, a, m') && Healthy(m.disk) && UniformRoots(m.disk.quarantined, m.disk.runs)
    ensures UniformRoots(m'.disk.quarantined, m'.disk.runs) <==> !SplitsNow(m, a, m')
  {
    match a
    case Created(run) =>
      NewRunMixesNothing(m.disk.quarantined, m.disk.runs, run);
      hide UniformRoots, Splits, MixedKept;
    case _ => hide UniformRoots, Splits, MixedKept, Sane;
  }

  /** Over any lifetime contents never change, no file is in two places, no file of a run still in the database
      is lost, and no file of a committed purge comes back. */
  lemma {:induction false} LifetimeKeeps(ms: seq<Moment>, actions: seq<Action>, n: nat, m: nat)
    requires Life(ms, actions) && Healthy(ms[0].disk) && n <= m < |ms|
    ensures Healthy(ms[m].disk) && ms[n].disk.condemned <= ms[m].disk.condemned
    ensures forall p :: p in ms[n].disk.original ==>
      p in ms[m].disk.original && ms[m].disk.original[p] == ms[n].disk.original[p]
    decreases m
  {
    hide Sane, Acts;
    if m > 0 {
      LifetimeKeeps(ms, actions, if n < m then n else m - 1, m - 1);
      ActsKeeps(ms[m - 1], actions[m - 1], ms[m]);
    }
  }

  /** A directory becomes mixed exactly when a committed purge splits one; until then every start in which
      nothing goes wrong succeeds. */
  lemma {:induction false} NeverMixedUnlessSplit(ms: seq<Moment>, actions: seq<Action>, n: nat)
    requires Life(ms, actions) && Healthy(ms[0].disk) && n < |actions|
    requires UniformRoots(ms[0].disk.quarantined, ms[0].disk.runs)
    requires forall k :: 0 <= k < n ==> !SplitsNow(ms[k], actions[k], ms[k + 1])
    ensures UniformRoots(ms[n].disk.quarantined, ms[n].disk.runs)
    ensures UniformRoots(ms[n + 1].disk.quarantined, ms[n + 1].disk.runs)
        <==> !SplitsNow(ms[n], actions[n], ms[n + 1])
    ensures actions[n].Started? ==> (ms[n + 1].up <==> ms[n + 1].disk.log == ms[n].disk.log)
  {
    LifetimeKeeps(ms, actions, 0, n);
    assert Acts(ms[n], actions[n], ms[n + 1]);
    hide Sane, UniformRoots, Splits, SplitsNow, MixedKept;
    if n > 0 {
      NeverMixedUnlessSplit(ms, actions, n - 1);
    }
    ActsMixes(ms[n], actions[n], ms[n + 1]);
  }

  /** A store that is down and has a mixed directory never comes up again, and the mixed directories keep all
      their files. */
  lemma {:induction false} MixedNeverUp(ms: seq<Moment>, actions: seq<Action>, n: nat)
    requires Life(ms, actions) && Healthy(ms[0].disk) && n < |ms|
    requires !ms[0].up && !UniformRoots(ms[0].disk.quarantined, ms[0].disk.runs)
    ensures !ms[n].up && ms[n].disk.runs == ms[0].disk.runs
    ensures !UniformRoots(ms[n].disk.quarantined, ms[0].disk.runs)
    ensures MixedKept(ms[0].disk.quarantined, ms[n].disk.quarantined, ms[0].disk.runs)
  {
    hide Sane, UniformRoots, MixedKept;
    var q, runs := ms[0].disk.quarantined, ms[0].disk.runs;
    if n == 0 {
      MixedKeptRefl(q, runs);
    } else {
      MixedNeverUp(ms, actions, n - 1);
      assert Acts(ms[n - 1], actions[n - 1], ms[n]);
      if actions[n - 1].Started? {
        MixedKeptTrans(q, ms[n - 1].disk.quarantined, ms[n].disk.quarantined, runs);
      }
    }
  }

  const FILE_A := Path("a", "f")
  const FILE_B := Path("b", "f")

  /** A purge of two runs that the database refuses and that cannot move the files back. */
  method RefusedPurge(content: Content) returns (store: Store)
    ensures fresh(store) && store.Inv() && store.runs == {"a", "b"} && FILE_B in store.original
    ensures Slot("1", FILE_A) in store.quarantined && Slot("1", FILE_B) in store.quarantined
    ensures (forall s :: s in store.quarantined ==> s.root == "1") && UniformRoots(store.quarantined, store.runs)
  {
    store := new Store(map[FILE_A := content, FILE_B := content], {"a", "b"});
    assert store.quarantined == map[];
    var paths := [FILE_A, FILE_B];
    assert paths[0] == FILE_A && paths[1] == FILE_B;
    hide store.Inv, Splits;
    var r := store.PurgeHistory({"a", "b"}, paths, "1", RollbackFault);
  }

  lemma SplitDirectory(q: map<Slot, Content>)
    requires Slot("1", FILE_A) in q && Slot("1", FILE_B) in q
    ensures Splits(q, {"a"})
  {
    var s, t := Slot("1", FILE_A), Slot("1", FILE_B);
    assert s.root == t.root && s.path.run in {"a"} && t.path.run !in {"a"};
  }

  /** The failing input itself: a refused purge leaves the files of two runs behind, and a second purge, of
      one of the two, succeeds without any fault. Once the process ends, no start comes up, whatever is
      tried, and the file of the run that is still in the database stays in quarantine. */
  method SplitPurge(content: Content) returns (store: Store)
    ensures "b" in store.runs && FILE_B in store.original && store.Inv()
    ensures forall ms: seq<Moment>, actions: seq<Action> ::
      Life(ms, actions) && ms[0] == Moment(store.State(), false) ==>
        !ms[|actions|].up && FILE_B !in ms[|actions|].disk.live
  {
    store := RefusedPurge(content);
    hide store.Inv, Splits, UniformRoots, UniformRoot, MixedKept, Sane;
    SplitDirectory(store.quarantined);
    var r := store.PurgeHistory({"a"}, [FILE_A], "2", NoFault);
    assert Slot("1", FILE_A) in store.quarantined && Slot("1", FILE_B) in store.quarantined;
    store.IsHealthy();
    ghost var d := store.State();
    forall ms: seq<Moment>, actions: seq<Action> | Life(ms, actions) && ms[0] == Moment(d, false)
      ensures !ms[|actions|].up && FILE_B !in ms[|actions|].disk.live
    {
      MixedNeverUp(ms, actions, |actions|);
      LifetimeKeeps(ms, actions, 0, |actions|);
      StillHeld(ms[|actions|].disk, d.quarantined);
    }
  }

  lemma StillHeld(d: Disk, left: map<Slot, Content>)
    requires Healthy(d) && "b" in d.runs && "a" !in d.runs
    requires Slot("1", FILE_A) in left && Slot("1", FILE_B) in left && MixedKept(left, d.quarantined, d.runs)
    ensures FILE_B !in d.live
  {
    assert !UniformRoot(left, d.runs, "1") by {
      assert FILE_A.run !in d.runs && FILE_B.run in d.runs;
      assert Slot("1", FILE_A).root == "1" && Slot("1", FILE_B).root == "1";
    }
    assert Slot("1", FILE_B) in d.quarantined;
  }

  /** All runs of one quarantine directory are in the database, or none is. */
  ghost predicate UniformRoots(q: map<Slot, Content>, runs: set<string>) {
    forall s :: s in q ==> UniformRoot(q, runs, s.root)
  }

  ghost predicate UniformRoot(q: map<Slot, Content>, runs: set<string>, root: string) {
    || (forall s :: s in q && s.root == root ==> s.path.run in runs)
    || (forall s :: s in q && s.root == root ==> s.path.run !in runs)
  }

  /** Some quarantine directory holds files of runs inside `runIds` and of runs outside. */
  ghost predicate Splits(q: map<Slot, Content>, runIds: set<string>) {
    exists s, t :: s in q && t in q && s.root == t.root && s.path.run in runIds && t.path.run !in runIds
  }

  /** `now` is `held`, except that one directory may hold some of the given paths. */
  ghost predicate Beside(held: map<Slot, Content>, now: map<Slot, Content>, root: string, paths: set<Path>) {
    && (forall s: Slot :: s.root != root ==> (s in now <==> s in held))
    && (forall s :: s in now && s.root == root ==> s.path in paths)
  }

  lemma NoneStays(live: map<Path, Content>, paths: seq<Path>, moved: seq<Path>)
    requires forall p :: p in moved <==> p in paths && p in live
    ensures forall p :: p in paths ==> p !in live - PathSet(moved)
  {
  }

  /** The requested files that exist are in the fresh directory of `q`, and nothing else has changed. */
  ghost predicate Isolated(held: map<Slot, Content>, kept: map<Path, Content>, now: map<Slot, Content>,
                           live: map<Path, Content>, paths: seq<Path>, q: Quarantine)
  {
    && (forall s :: s in held ==> s.root != q.root)
    && Distinct(paths) && Distinct(q.moved) && (forall p :: p in q.moved <==> p in paths && p in kept)
    && |q.moved| + q.missing == |paths|
    && live == kept - PathSet(q.moved) && now == held + Stored(kept, q.root, q.moved)
  }

  lemma FilesIsolated(held: map<Slot, Content>, kept: map<Path, Content>, paths: seq<Path>, q: Quarantine)
    requires Distinct(paths) && Distinct(q.moved) && forall p :: p in q.moved <==> p in paths && p in kept
    requires (forall s :: s in held ==> s.root != q.root) && |q.moved| + q.missing == |paths|
    ensures Isolated(held, kept, held + Stored(kept, q.root, q.moved), kept - PathSet(q.moved), paths, q)
    ensures forall p :: p in paths ==> p !in kept - PathSet(q.moved)
    ensures kept - PathSet(q.moved) == kept - PathSet(paths)
    ensures forall p :: p in paths && p in kept ==> Slot(q.root, p) in held + Stored(kept, q.root, q.moved)
    ensures (exists p :: p in paths && p in kept) ==> q.moved != []
  {
    NoneStays(kept, paths, q.moved);
    CountMissing(paths, kept, q.moved);
  }

  lemma IsolatedParts(held: map<Slot, Content>, kept: map<Path, Content>, now: map<Slot, Content>,
                      live: map<Path, Content>, paths: seq<Path>, q: Quarantine)
    requires Isolated(held, kept, now, live, paths, q)
    ensures Beside(held, now, q.root, PathSet(paths))
    ensures (exists p :: p in paths && p in kept) ==> q.moved != []
    ensures forall p :: p in q.moved ==> p in paths
  {
    MovedBeside(held, kept, q.root, q.moved, paths, []);
    NoSlots(now, q.root);
  }

  /** What an outcome of a purge says about runs, files and the record of purged paths. */
  ghost predicate SettledAs(held: map<Slot, Content>, now: map<Slot, Content>, kept: map<Path, Content>,
                            live: map<Path, Content>, were: set<string>, runs: set<string>, condemned: set<Path>,
                            condemned': set<Path>, runIds: set<string>, paths: seq<Path>, r: Outcome<Summary>)
  {
    && (r.Done? ==> runs == were - runIds && condemned' == condemned + PathSet(paths))
    && (r.Failed? ==> runs == were && condemned' == condemned)
    && (r == Failed(true) ==> live == kept && now == held)
    && (r.Crashed? ==>
          || (runs == were && condemned' == condemned)
          || (runs == were - runIds && condemned' == condemned + PathSet(paths)))
  }

  lemma NothingDone(held: map<Slot, Content>, now: map<Slot, Content>, kept: map<Path, Content>,
                    live: map<Path, Content>, runs: set<string>, condemned: set<Path>, r: Outcome<Summary>)
    requires !r.Done? && (r == Failed(true) ==> live == kept && now == held)
    ensures forall runIds, paths :: SettledAs(held, now, kept, live, runs, runs, condemned, condemned, runIds, paths, r)
  {
  }

  lemma RunsOrNot(held: map<Slot, Content>, now: map<Slot, Content>, kept: map<Path, Content>,
                  live: map<Path, Content>, were: set<string>, runs: set<string>, condemned: set<Path>,
                  condemned': set<Path>, runIds: set<string>, paths: seq<Path>, r: Outcome<Summary>)
    requires SettledAs(held, now, kept, live, were, runs, condemned, condemned', runIds, paths, r)
    ensures runs == were || runs == were - runIds
  {
  }

  lemma ParentRuns(runIds: set<string>, runs: set<string>, paths: seq<Path>)
    requires runIds <= runs && forall p :: p in paths ==> p.run in runIds
    ensures forall p :: p in paths ==> p.run in runs
  {
  }

  lemma PurgesNow(d: Disk, d': Disk, runIds: set<string>, paths: seq<Path>, root: string, r: Outcome<Summary>)
    requires Healthy(d') && d'.original == d.original
    requires SettledAs(d.quarantined, d'.quarantined, d.live, d'.live, d.runs, d'.runs, d.condemned, d'.condemned,
                       runIds, paths, r)
    requires forall s: Slot :: s.root != root ==> (s in d'.quarantined <==> s in d.quarantined)
    requires UniformRoots(d.quarantined, d.runs) ==>
      (UniformRoots(d'.quarantined, d'.runs) <==> d'.runs == d.runs || !Splits(d.quarantined, runIds))
    ensures Purges(d, d', runIds, paths, root, r)
  {
    hide Sane, UniformRoots, Splits, PathSet;
  }

  lemma EverythingHeld(held: map<Slot, Content>, kept: map<Path, Content>, root: string, moved: seq<Path>)
    requires forall p :: p in moved ==> p in kept
    ensures AllHeld(held + Stored(kept, root, moved), root, moved)
  {
  }

  lemma NoSlots(q: map<Slot, Content>, root: string)
    ensures q - Slots(root, []) == q
  {
  }

  lemma MovedBeside(q: map<Slot, Content>, live: map<Path, Content>, root: string, moved: seq<Path>, paths: seq<Path>,
                    back: seq<Path>)
    requires (forall s :: s in q ==> s.root != root) && forall p :: p in moved ==> p in paths
    ensures Beside(q, q + Stored(live, root, moved) - Slots(root, back), root, PathSet(paths))
  {
  }

  lemma FewerBeside(held: map<Slot, Content>, now: map<Slot, Content>, now': map<Slot, Content>, root: string,
                    paths: set<Path>)
    requires Beside(held, now, root, paths) && now'.Keys <= now.Keys
    requires forall s :: s in now && s.root != root ==> s in now'
    ensures Beside(held, now', root, paths)
  {
  }

  /** After a purge no directory is mixed, unless it was committed and split one that was there before. */
  lemma PurgedRoots(held: map<Slot, Content>, now: map<Slot, Content>, root: string, paths: seq<Path>,
                    runs: set<string>, runs': set<string>, runIds: set<string>)
    requires Beside(held, now, root, PathSet(paths)) && (forall s :: s in held ==> s.root != root)
    requires runIds <= runs && (forall p :: p in paths ==> p.run in runIds)
    requires runs' == runs || runs' == runs - runIds
    ensures forall s: Slot :: s.root != root ==> (s in now <==> s in held)
    ensures UniformRoots(held, runs) ==> (UniformRoots(now, runs') <==> runs' == runs || !Splits(held, runIds))
  {
  }

  /** Directories that mix present and purged runs keep all their files. */
  ghost predicate MixedKept(held: map<Slot, Content>, now: map<Slot, Content>, runs: set<string>) {
    && now.Keys <= held.Keys
    && forall s :: s in held && !UniformRoot(held, runs, s.root) ==> s in now
  }

  /** Only the directory `root` changed, by losing files, and only if it was not mixed. */
  ghost predicate OthersKept(was: map<Slot, Content>, now: map<Slot, Content>, runs: set<string>, root: string) {
    && now.Keys <= was.Keys
    && (forall s :: s in was && s.root != root ==> s in now)
    && (!UniformRoot(was, runs, root) ==> now.Keys == was.Keys)
  }

  lemma NothingLost(q: map<Slot, Content>, runs: set<string>, root: string)
    ensures OthersKept(q, q, runs, root)
  {
  }

  lemma OnlyRootLost(was: map<Slot, Content>, now: map<Slot, Content>, runs: set<string>, root: string,
                     moves: seq<Path>,
                     gone: set<Slot>)
    requires forall p :: p in moves <==> Slot(root, p) in was
    requires (forall p :: p in moves ==> p.run in runs) || (forall p :: p in moves ==> p.run !in runs)
    requires gone <= Slots(root, moves) && now == was - gone
    ensures OthersKept(was, now, runs, root)
  {
    forall s | s in was && s.root == root
      ensures s.path in moves
    {
      assert s == Slot(root, s.path);
    }
  }

  lemma TailSlots(root: string, moves: seq<Path>, left: nat)
    requires left <= |moves|
    ensures Slots(root, moves[left..]) <= Slots(root, moves)
  {
  }

  lemma MixedStays(held: map<Slot, Content>, was: map<Slot, Content>, now: map<Slot, Content>, live: map<Path, Content>,
                   runs: set<string>, pending: set<string>, root: string)
    requires Settled(held, was, live, runs, pending) && root in pending && OthersKept(was, now, runs, root)
    ensures MixedKept(held, now, runs)
    ensures UniformRoots(now, runs) <==> UniformRoots(held, runs)
  {
  }

  lemma MixedKeptRefl(q: map<Slot, Content>, runs: set<string>)
    ensures MixedKept(q, q, runs)
  {
  }

  lemma MixedKeptTrans(a: map<Slot, Content>, b: map<Slot, Content>, c: map<Slot, Content>, runs: set<string>)
    requires MixedKept(a, b, runs) && MixedKept(b, c, runs)
    ensures MixedKept(a, c, runs)
  {
    forall s | s in a && !UniformRoot(a, runs, s.root)
      ensures s in c
    {
      assert forall t :: t in a && t.root == s.root ==> t in b;
      assert !UniformRoot(b, runs, s.root);
    }
  }

  lemma NothingTaken(q: map<Slot, Content>, root: string, moved: seq<Path>, left: nat)
    requires left <= |moved|
    ensures left == |moved| ==> q - Slots(root, moved[left..]) == q
    ensures forall s :: s in q && s.root != root ==> s in q - Slots(root, moved[left..])
  {
  }

  lemma MixedKeptMeans(held: map<Slot, Content>, now: map<Slot, Content>, runs: set<string>)
    requires UniformRoots(held, runs) && now == map[]
    ensures MixedKept(held, now, runs) && UniformRoots(now, runs)
  {
  }

  lemma NewRunMixesNothing(q: map<Slot, Content>, runs: set<string>, run: string)
    requires forall s :: s in q ==> s.path.run != run
    ensures UniformRoots(q, runs + {run}) <==> UniformRoots(q, runs)
  {
    forall s | s in q
      ensures UniformRoot(q, runs + {run}, s.root) <==> UniformRoot(q, runs, s.root)
    {
    }
  }

  ghost predicate OneSlotEach(q: map<Slot, Content>) {
    forall s, t :: s in q && t in q && s.path == t.path ==> s == t
  }

  /** Recovery has dealt with every quarantine directory outside `pending`. */
  ghost predicate Settled(held: map<Slot, Content>, now: map<Slot, Content>, live: map<Path, Content>,
                          runs: set<string>, pending: set<string>)
  {
    && (forall s :: s in now <==> s in held && s.root in pending)
    && (forall s :: s in held && s.root in pending ==> s.path !in live)
    && (forall s :: s in held && s.root !in pending ==> (s.path in live <==> s.path.run in runs))
    && (forall s :: s in held && s.root !in pending ==> UniformRoot(held, runs, s.root))
  }

  lemma SlotsSettled(held: map<Slot, Content>, now: map<Slot, Content>, live: map<Path, Content>,
                     runs: set<string>, pending: set<string>, root: string, live': map<Path, Content>)
    requires OneSlotEach(held) && Settled(held, now, live, runs, pending) && root in pending
    requires forall p :: p in live' <==> p in live || Slot(root, p) in now
    requires forall s :: s in held && s.root == root ==> s.path.run in runs
    ensures forall s :: s in held && s.root in pending - {root} ==> s.path !in live'
    ensures forall s :: s in held && s.root !in pending - {root} ==> (s.path in live' <==> s.path.run in runs)
  {
  }

  lemma RootSettled(held: map<Slot, Content>, now: map<Slot, Content>, live: map<Path, Content>,
                    runs: set<string>, pending: set<string>, root: string,
                    now': map<Slot, Content>, live': map<Path, Content>)
    requires OneSlotEach(held) && Settled(held, now, live, runs, pending) && root in pending
    requires forall s :: s in now' <==> s in now && s.root != root
    requires forall p :: p in live' <==> p in live || Slot(root, p) in now
    requires forall s :: s in held && s.root == root ==> s.path.run in runs
    ensures Settled(held, now', live', runs, pending - {root})
  {
    hide OneSlotEach;
    SlotsSettled(held, now, live, runs, pending, root, live');
    assert UniformRoot(held, runs, root);
    hide UniformRoot;
  }

  lemma RestoreRoot(held: map<Slot, Content>, now: map<Slot, Content>, live: map<Path, Content>,
                    runs: set<string>, pending: set<string>, root: string, moves: seq<Path>)
    requires OneSlotEach(held) && Settled(held, now, live, runs, pending) && root in pending
    requires forall p :: p in moves <==> Slot(root, p) in now
    requires forall p :: p in moves ==> p.run in runs
    ensures Settled(held, now - Slots(root, moves), live + Contents(now, root, moves), runs, pending - {root})
    ensures |now - Slots(root, moves)| == |now| - |Slots(root, moves)|
  {
    SizeWithout(now, Slots(root, moves));
    hide OneSlotEach, UniformRoot;
    forall s | s in held && s.root == root
      ensures s in Slots(root, moves) && s.path.run in runs
    {
      assert s == Slot(root, s.path) && s in now;
    }
    hide Settled;
    RootSettled(held, now, live, runs, pending, root, now - Slots(root, moves), live + Contents(now, root, moves));
  }

  lemma DiscardRoot(held: map<Slot, Content>, now: map<Slot, Content>, live: map<Path, Content>,
                    runs: set<string>, pending: set<string>, root: string, moves: seq<Path>, gone: set<Slot>)
    requires Settled(held, now, live, runs, pending)
    requires forall p :: p in moves <==> Slot(root, p) in now
    requires forall p :: p in moves ==> p.run !in runs
    requires gone <= Slots(root, moves) && Emptied(now - gone, root, moves)
    ensures Settled(held, now - gone, live, runs, pending - {root})
  {
  }

  lemma MixedRoot(held: map<Slot, Content>, now: map<Slot, Content>, live: map<Path, Content>,
                  runs: set<string>, pending: set<string>, root: string, moves: seq<Path>)
    requires Settled(held, now, live, runs, pending)
    requires forall p :: p in moves <==> Slot(root, p) in now
    requires true in (set p | p in moves :: p.run in runs) && false in (set p | p in moves :: p.run in runs)
    ensures !UniformRoots(held, runs)
  {
  }

  lemma AllSettled(held: map<Slot, Content>, now: map<Slot, Content>, live: map<Path, Content>, runs: set<string>)
    requires Settled(held, now, live, runs, {})
    ensures now == map[] && UniformRoots(held, runs)
    ensures forall s :: s in held ==> (s.path in live <==> s.path.run in runs)
  {
  }

  lemma AllIn(moves: seq<Path>, runExists: set<bool>, runs: set<string>)
    requires runExists == (set p | p in moves :: p.run in runs) == {true}
    ensures forall p :: p in moves ==> p.run in runs
  {
    forall p | p in moves
      ensures p.run in runs
    {
      assert (p.run in runs) in runExists;
    }
  }

  lemma NoneIn(moves: seq<Path>, runExists: set<bool>, runs: set<string>)
    requires runExists == (set p | p in moves :: p.run in runs) && runExists != {true}
    requires !(true in runExists && false in runExists)
    ensures forall p :: p in moves ==> p.run !in runs
  {
  }

  lemma {:induction false} SlotsSize(root: string, paths: seq<Path>)
    requires Distinct(paths)
    ensures |Slots(root, paths)| == |paths|
  {
    if paths != [] {
      var rest, p := paths[..|paths| - 1], paths[|paths| - 1];
      SlotsSize(root, rest);
      assert paths == rest + [p];
      assert Slots(root, paths) == Slots(root, rest) + {Slot(root, p)};
    }
  }

  ghost function PathSet(paths: seq<Path>): set<Path> {
    set p | p in paths
  }

  ghost function Stored(live: map<Path, Content>, root: string, paths: seq<Path>): map<Slot, Content> {
    map p | p in paths && p in live :: Slot(root, p) := live[p]
  }

  ghost function Slots(root: string, paths: seq<Path>): set<Slot> {
    set p | p in paths :: Slot(root, p)
  }

  ghost function Contents(q: map<Slot, Content>, root: string, paths: seq<Path>): map<Path, Content> {
    map p | p in paths && Slot(root, p) in q :: q[Slot(root, p)]
  }

  /** The files `back` of a directory have been moved back, and nothing else has changed. */
  ghost predicate Restored(held: map<Slot, Content>, kept: map<Path, Content>, now: map<Slot, Content>,
                           live: map<Path, Content>, root: string, back: seq<Path>)
  {
    now == held - Slots(root, back) && live == kept + Contents(held, root, back)
  }

  lemma RestoredMeans(held: map<Slot, Content>, kept: map<Path, Content>, now: map<Slot, Content>,
                      live: map<Path, Content>, root: string, back: seq<Path>)
    requires Restored(held, kept, now, live, root, back)
    ensures now == held - Slots(root, back) && live == kept + Contents(held, root, back)
  {
  }

  lemma NothingRestored(q: map<Slot, Content>, live: map<Path, Content>, root: string)
    ensures Restored(q, live, q, live, root, [])
  {
  }

  lemma RestoreOneMore(held: map<Slot, Content>, kept: map<Path, Content>, root: string, p: Path, rest: seq<Path>)
    requires Slot(root, p) in held && p !in rest
    ensures var s := Slot(root, p);
      && s in held - Slots(root, rest)
      && held - Slots(root, rest) - {s} == held - Slots(root, [p] + rest)
      && (kept + Contents(held, root, rest))[p := (held - Slots(root, rest))[s]]
         == kept + Contents(held, root, [p] + rest)
  {
  }

  lemma TailAfter(moved: seq<Path>, i: nat)
    requires i < |moved| && Distinct(moved)
    ensures moved[i..] == [moved[i]] + moved[i + 1..] && moved[i] !in moved[i + 1..]
  {
  }

  lemma RestoreStep(held: map<Slot, Content>, kept: map<Path, Content>, now: map<Slot, Content>,
                    live: map<Path, Content>, root: string, moved: seq<Path>, i: nat)
    requires i < |moved| && Distinct(moved) && Slot(root, moved[i]) in held
    requires Restored(held, kept, now, live, root, moved[i + 1..])
    ensures var s := Slot(root, moved[i]);
      s in now && Restored(held, kept, now - {s}, live[s.path := now[s]], root, moved[i..])
  {
    TailAfter(moved, i);
    RestoreOneMore(held, kept, root, moved[i], moved[i + 1..]);
    hide Slots, Contents, Distinct;
  }

  /** The first `i` paths have been dealt with: those with a file were moved, the others counted. */
  ghost predicate MovedSoFar(held: map<Slot, Content>, kept: map<Path, Content>, now: map<Slot, Content>,
                             live: map<Path, Content>, root: string, paths: seq<Path>, i: nat, moved: seq<Path>,
                             missing: nat)
    requires i <= |paths|
  {
    && Distinct(moved) && (forall p :: p in moved <==> p in paths[..i] && p in kept)
    && |moved| + missing == i
    && live == kept - PathSet(moved) && now == held + Stored(kept, root, moved)
  }

  lemma MovedMeans(held: map<Slot, Content>, kept: map<Path, Content>, now: map<Slot, Content>,
                   live: map<Path, Content>, root: string, paths: seq<Path>, i: nat, moved: seq<Path>, missing: nat)
    requires i <= |paths| && MovedSoFar(held, kept, now, live, root, paths, i, moved, missing)
    ensures Distinct(moved) && (forall p :: p in moved <==> p in paths[..i] && p in kept) && |moved| + missing == i
    ensures live == kept - PathSet(moved) && now == held + Stored(kept, root, moved)
    ensures forall p :: p in moved ==> p in paths && p in kept && Slot(root, p) in now
  {
    hide Distinct;
  }

  lemma NothingMoved(q: map<Slot, Content>, live: map<Path, Content>, root: string, paths: seq<Path>)
    requires forall s :: s in q ==> s.root != root
    ensures MovedSoFar(q, live, q, live, root, paths, 0, [], 0)
    ensures Beside(q, q, root, PathSet(paths))
  {
  }

  lemma MoveStep(q: map<Slot, Content>, live: map<Path, Content>, root: string, moved: seq<Path>, p: Path)
    requires p in live && p !in moved
    ensures var now := live - PathSet(moved);
      && p in now && now - {p} == live - PathSet(moved + [p])
      && (q + Stored(live, root, moved))[Slot(root, p) := now[p]] == q + Stored(live, root, moved + [p])
  {
  }

  lemma OneMorePath(paths: seq<Path>, i: nat)
    requires i < |paths| && Distinct(paths)
    ensures paths[..i + 1] == paths[..i] + [paths[i]] && paths[i] !in paths[..i]
  {
  }

  lemma NextPath(held: map<Slot, Content>, kept: map<Path, Content>, now: map<Slot, Content>,
                 live: map<Path, Content>, root: string, paths: seq<Path>, i: nat, moved: seq<Path>, missing: nat)
    requires i < |paths| && Distinct(paths) && MovedSoFar(held, kept, now, live, root, paths, i, moved, missing)
    ensures var p := paths[i];
      if p !in live then MovedSoFar(held, kept, now, live, root, paths, i + 1, moved, missing + 1)
      else MovedSoFar(held, kept, now[Slot(root, p) := live[p]], live - {p}, root, paths, i + 1, moved + [p], missing)
  {
    var p := paths[i];
    OneMorePath(paths, i);
    if p in kept {
      MoveStep(held, kept, root, moved, p);
    }
    hide Stored;
  }

  /** What the log looks like when a purge gives up before it reaches the database. */
  lemma GivingUp(was: seq<Fault>)
    ensures GaveUp(was, was + [BadSource]) && GaveUp(was, was + [NoMoveIn])
    ensures Stranded(was, was + [BadSource] + [NoMoveOut]) && Stranded(was, was + [NoMoveIn] + [NoMoveOut])
    ensures EndsIn(was, was + [BadSource] + [Crash], Crash) && EndsIn(was, was + [NoMoveIn] + [Crash], Crash)
  {
    assert (was + [BadSource] + [Crash])[|was| + 1] == Crash && (was + [NoMoveIn] + [Crash])[|was| + 1] == Crash;
  }

  lemma MovedElsewhere(q: map<Slot, Content>, live: map<Path, Content>, root: string, moved: seq<Path>)
    ensures forall s: Slot :: s.root != root ==> (s in q + Stored(live, root, moved) <==> s in q)
    ensures forall p :: p in moved && p in live ==> Slot(root, p) in q + Stored(live, root, moved)
  {
  }

  /** Moving the files back restores exactly the state before they were moved. */
  lemma RollbackUndoes(q: map<Slot, Content>, live: map<Path, Content>, root: string, moved: seq<Path>)
    requires forall s :: s in q ==> s.root != root
    requires forall p :: p in moved ==> p in live
    ensures var now := q + Stored(live, root, moved);
      && now - Slots(root, moved) == q
      && live - PathSet(moved) + Contents(now, root, moved) == live
  {
  }

  /** Of the files `moved` into a directory, `gone` have been unlinked. */
  ghost predicate Discarded(held: map<Slot, Content>, now: map<Slot, Content>, root: string, moved: seq<Path>,
                            gone: set<Slot>)
  {
    now == held - gone && gone <= Slots(root, moved) && gone <= held.Keys
  }

  ghost predicate AllHeld(q: map<Slot, Content>, root: string, moved: seq<Path>) {
    forall p :: p in moved ==> Slot(root, p) in q
  }

  ghost predicate Emptied(now: map<Slot, Content>, root: string, moved: seq<Path>) {
    forall p :: p in moved ==> Slot(root, p) !in now
  }

  /** The first `i` files have been dealt with. */
  ghost predicate Discarding(held: map<Slot, Content>, now: map<Slot, Content>, root: string, moved: seq<Path>, i: nat,
                             gone: set<Slot>, s: Summary, missing: nat)
  {
    && i <= |moved| && Discarded(held, now, root, moved[..i], gone)
    && s.deleted == |gone| && s.deleted + s.missing + s.rejected == i + missing
    && (AllHeld(held, root, moved) ==> s.missing == missing)
    && (s.rejected == 0 ==> Emptied(now, root, moved[..i]))
  }

  lemma NothingDiscarded(held: map<Slot, Content>, root: string, moved: seq<Path>, missing: nat)
    ensures Discarding(held, held, root, moved, 0, {}, Summary(0, missing, 0), missing)
  {
  }

  lemma DiscardSlot(held: map<Slot, Content>, now: map<Slot, Content>, root: string, gone: set<Slot>,
                    moved: seq<Path>, i: nat)
    requires i < |moved| && Distinct(moved) && Discarded(held, now, root, moved[..i], gone)
    ensures var s := Slot(root, moved[i]);
      && (AllHeld(held, root, moved) ==> s in now)
      && Discarded(held, now, root, moved[..i + 1], gone)
      && (s in now ==> Discarded(held, now - {s}, root, moved[..i + 1], gone + {s}) && |gone + {s}| == |gone| + 1)
      && (Emptied(now, root, moved[..i]) ==> Emptied(now - {s}, root, moved[..i + 1]))
      && (Emptied(now, root, moved[..i]) && s !in now ==> Emptied(now, root, moved[..i + 1]))
  {
    assert moved[..i + 1] == moved[..i] + [moved[i]] && moved[i] !in moved[..i];
  }

  /** What comes of the next file: deleted, missing or rejected. */
  lemma DiscardStep(held: map<Slot, Content>, now: map<Slot, Content>, root: string, gone: set<Slot>,
                    moved: seq<Path>, i: nat, s: Summary, missing: nat)
    requires i < |moved| && Distinct(moved) && Discarding(held, now, root, moved, i, gone, s, missing)
    ensures var slot := Slot(root, moved[i]);
      && (slot in now ==> Discarding(held, now - {slot}, root, moved, i + 1, gone + {slot},
                                     s.(deleted := s.deleted + 1), missing))
      && (slot !in now ==> Discarding(held, now, root, moved, i + 1, gone, s.(missing := s.missing + 1), missing))
      && Discarding(held, now, root, moved, i + 1, gone, s.(rejected := s.rejected + 1), missing)
  {
    DiscardSlot(held, now, root, gone, moved, i);
    hide Discarded, AllHeld, Emptied, Distinct;
  }

  lemma AllDiscarded(held: map<Slot, Content>, now: map<Slot, Content>, root: string, gone: set<Slot>,
                     moved: seq<Path>, i: nat, s: Summary, missing: nat)
    requires Discarding(held, now, root, moved, i, gone, s, missing)
    ensures now == held - gone && gone <= Slots(root, moved) && gone <= held.Keys
    ensures i == |moved| ==>
      && s.deleted == |gone| && s.deleted + s.missing + s.rejected == |moved| + missing
      && (AllHeld(held, root, moved) ==> s.missing == missing)
      && (s.rejected == 0 ==> Emptied(now, root, moved))
  {
    hide AllHeld, Emptied;
    if i == |moved| {
      assert moved[..i] == moved;
    }
  }

  lemma CrashEnds(was: seq<Fault>, f: Fault, n: nat)
    ensures EndsIn(was, was + Again(f, n) + [Crash], Crash)
  {
    hide Again;
  }

  lemma OnlyAnyFault(faults: Faults)
    ensures May(Crash, faults) || May(BadSource, faults) || May(NoMoveIn, faults) ==> faults == AnyFault
  {
  }

  lemma NeverYet(was: seq<Fault>, f: Fault)
    ensures was + Again(f, 0) == was
  {
  }

  lemma LastFault(was: seq<Fault>, f: Fault, n: nat)
    ensures EndsIn(was, was + [f], f)
    ensures n > 0 ==> EndsIn(was, was + Again(f, n), f)
    ensures n == 0 ==> was + Again(f, n) == was
  {
    assert n == 0 ==> was + Again(f, n) == was;
  }

  lemma NothingEnds(was: seq<Fault>)
    ensures forall f :: !EndsIn(was, was, f)
  {
  }

  /** What the log of a purge that the database refuses looks like. */
  lemma RefusedLog(was: seq<Fault>)
    ensures GaveUp(was, was + [Refusal])
    ensures Stranded(was, was + [Refusal] + [NoMoveOut])
    ensures EndsIn(was, was + [Refusal] + [Crash], Crash)
  {
    assert (was + [Refusal] + [Crash])[|was| + 1] == Crash;
  }

  lemma OneMoreTime(was: seq<Fault>, f: Fault, n: nat)
    ensures was + Again(f, n) + [f] == was + Again(f, n + 1)
  {
    assert Again(f, n) + [f] == Again(f, n + 1);
  }

  /** The requested paths without a file. */
  ghost function AbsentFrom(paths: seq<Path>, live: map<Path, Content>): set<Path> {
    set p | p in paths && p !in live
  }

  /** The quarantined files whose run is still in the database. */
  ghost function Staying(q: map<Slot, Content>, runs: set<string>): set<Slot> {
    set s | s in q && s.path.run in runs
  }

  /** Those whose run has left it. */
  ghost function Leaving(q: map<Slot, Content>, runs: set<string>): set<Slot> {
    set s | s in q && s.path.run !in runs
  }

  lemma NothingToCount(runs: set<string>)
    ensures Staying(map[], runs) == {} && Leaving(map[], runs) == {}
  {
  }

  lemma CountRestored(q: map<Slot, Content>, runs: set<string>, back: set<Slot>)
    requires back <= q.Keys && forall s :: s in back ==> s.path.run in runs
    ensures |back| + |Staying(q - back, runs)| == |Staying(q, runs)| && Leaving(q - back, runs) == Leaving(q, runs)
  {
    assert Staying(q - back, runs) == Staying(q, runs) - back && back <= Staying(q, runs);
  }

  lemma CountDiscarded(q: map<Slot, Content>, runs: set<string>, gone: set<Slot>)
    requires gone <= q.Keys && forall s :: s in gone ==> s.path.run !in runs
    ensures |gone| + |Leaving(q - gone, runs)| == |Leaving(q, runs)| && Staying(q - gone, runs) == Staying(q, runs)
  {
    assert Leaving(q - gone, runs) == Leaving(q, runs) - gone && gone <= Leaving(q, runs);
  }

  /** What a quarantine directory still holds. */
  ghost function Leftovers(q: map<Slot, Content>, root: string): set<Slot> {
    set s | s in q && s.root == root
  }

  lemma {:induction false} PathSetSize(paths: seq<Path>)
    requires Distinct(paths)
    ensures |PathSet(paths)| == |paths|
  {
    if paths != [] {
      var rest, p := paths[..|paths| - 1], paths[|paths| - 1];
      PathSetSize(rest);
      assert paths == rest + [p];
      assert PathSet(paths) == PathSet(rest) + {p};
    }
  }

  lemma CountMissing(paths: seq<Path>, live: map<Path, Content>, moved: seq<Path>)
    requires Distinct(paths) && Distinct(moved) && forall p :: p in moved <==> p in paths && p in live
    ensures |AbsentFrom(paths, live)| + |moved| == |paths|
    ensures live - PathSet(moved) == live - PathSet(paths)
  {
    PathSetSize(paths);
    PathSetSize(moved);
    assert PathSet(paths) == AbsentFrom(paths, live) + PathSet(moved);
  }

  lemma SlotsLeft(held: map<Slot, Content>, live: map<Path, Content>, root: string, moved: seq<Path>, gone: set<Slot>)
    requires (forall s :: s in held ==> s.root != root) && forall p :: p in moved ==> p in live
    requires gone <= Slots(root, moved)
    ensures Leftovers(held + Stored(live, root, moved) - gone, root) == Slots(root, moved) - gone
  {
  }

  lemma AllGone(held: map<Slot, Content>, live: map<Path, Content>, root: string, moved: seq<Path>)
    requires (forall s :: s in held ==> s.root != root) && forall p :: p in moved ==> p in live
    ensures held + Stored(live, root, moved) - Slots(root, moved) == held
  {
  }

  lemma SameSize<T>(part: set<T>, whole: set<T>)
    requires part <= whole && |part| == |whole|
    ensures part == whole
  {
    assert |whole - part| == 0;
  }

  lemma CountLeft(held: map<Slot, Content>, live: map<Path, Content>, root: string, moved: seq<Path>, gone: set<Slot>)
    requires (forall s :: s in held ==> s.root != root) && Distinct(moved) && forall p :: p in moved ==> p in live
    requires gone <= Slots(root, moved)
    ensures var now := held + Stored(live, root, moved) - gone;
      && |Leftovers(now, root)| == |moved| - |gone|
      && (|gone| == |moved| ==> now == held)
  {
    SlotsSize(root, moved);
    SlotsLeft(held, live, root, moved, gone);
    AllGone(held, live, root, moved);
    hide *;
    if |gone| == |moved| {
      SameSize(gone, Slots(root, moved));
    }
  }

  lemma OtherSlots(q: map<Slot, Content>, root: string, moved: seq<Path>, gone: set<Slot>)
    requires gone <= Slots(root, moved)
    ensures forall s :: s in q && s.root != root ==> s in q - gone
  {
  }

  lemma SizeWithout(q: map<Slot, Content>, gone: set<Slot>)
    requires gone <= q.Keys
    ensures |q - gone| == |q| - |gone|
  {
  }
}
