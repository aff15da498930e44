/** The isolated browser context: opened, used and torn down over sockets that may fail at any point,
    before or after a command took effect. */
module ContextCleanup {
  import opened Wrappers

  /** A context or target id; the browser's ids are opaque to the code. */
  type Id = nat

  /** The browser. Contexts that are gone are gone for good; every target ever made has one home,
      `None` being the default context. */
  datatype World = World(
    contexts: set<Id>,
    retired: set<Id>,
    targets: set<Id>,
    home: map<Id, Option<Id>>)

  ghost predicate Coherent(w: World) {
    && w.contexts !! w.retired
    && w.targets <= w.home.Keys
    && forall t :: t in w.targets && w.home[t].Some? ==> w.home[t].value in w.contexts
  }

  ghost predicate Evolves(w: World, w': World) {
    && Coherent(w')
    && w.retired <= w'.retired
    && w.contexts + w.retired <= w'.contexts + w'.retired
    && forall t :: t in w.home ==> t in w'.home && w'.home[t] == w.home[t]
  }

  /** A retired context has left the browser together with everything opened in it, and neither ever
      comes back. */
  lemma RetiredForGood(w: World, w': World, context: Id)
    requires Coherent(w) && context in w.retired && Evolves(w, w')
    ensures context in w'.retired && context !in w'.contexts
    ensures forall t :: t in w'.targets ==> w'.home[t] != Some(context)
  {
  }

  function AddContext(w: World, id: Id): World {
    w.(contexts := w.contexts + {id})
  }

  function AddTarget(w: World, id: Id, context: Option<Id>): World {
    w.(targets := w.targets + {id}, home := w.home[id := context])
  }

  function RemoveTarget(w: World, id: Id): World {
    w.(targets := w.targets - {id})
  }

  /** Disposing of a context closes its targets. */
  function RemoveContext(w: World, id: Id): World
    requires Coherent(w)
  {
    w.(contexts := w.contexts - {id}, retired := w.retired + {id},
       targets := set t | t in w.targets && w.home[t] != Some(id))
  }

  lemma StepsEvolve(was: World, w: World, id: Id, context: Option<Id>)
    requires Evolves(was, w)
    ensures Evolves(was, RemoveTarget(w, id))
    ensures id !in w.contexts + w.retired ==> Evolves(was, AddContext(w, id))
    ensures id !in w.home && (context.Some? ==> context.value in w.contexts) ==> Evolves(was, AddTarget(w, id, context))
    ensures id in w.contexts ==> Evolves(was, RemoveContext(w, id))
  {
  }

  method FreshId(taken: set<Id>) returns (id: Id)
    ensures id !in taken
  {
    id := 0;
    var rest := taken;
    while rest != {}
      invariant rest <= taken && forall x :: x in taken && x !in rest ==> x < id
      decreases rest
    {
      var x: Id :| x in rest;
      rest := rest - {x};
      id := if x < id then id else x + 1;
    }
  }

  /** `Runtime` stands for RuntimeError: an error reply, or no reply in time. Everything else that a
      socket raises is `Socket`. */
  datatype Failure = Runtime | Socket

  /** The id in a reply: a non-empty string, nothing, or some other value. */
  datatype IdReply = Good(id: Id) | Missing | Malformed

  /** What the code keeps as an id; a malformed one names nothing in the browser. */
  datatype Ref = Known(id: Id) | Unusable

  /** A listing in a reply. `None` among the contexts is anything but a non-empty string. */
  datatype Listed<+T> = NotAList | Entries(entries: seq<T>)

  /** `BadEntry` is no object, has no usable id, or names its context by something unusable. */
  datatype TargetEntry = BadEntry | TargetEntry(id: Id, context: Option<Id>)

  /** One exchange with the browser, or the closing of a connection, and how it went. */
  datatype Exchange =
    | Connecting(failure: Option<Failure>)
    | Creating(reply: Result<IdReply, Failure>)
    | DenyingDownloads(context: Ref, failure: Option<Failure>)
    | MakingTarget(context: Ref, reply: Result<IdReply, Failure>)
    | Operating(failure: Option<Failure>)
    | Disposing(context: Ref, failure: Option<Failure>)
    | ListingContexts(contexts: Result<Listed<Option<Id>>, Failure>)
    | ListingTargets(targets: Result<Listed<TargetEntry>, Failure>)
    | Closing
    | ClosingRecovery
    | ClosingTarget

  ghost predicate ListsContexts(entries: seq<Option<Id>>, w: World) {
    forall c: Id :: Some(c) in entries <==> c in w.contexts
  }

  ghost predicate ListsTargets(entries: seq<TargetEntry>, w: World) {
    forall t: Id, c :: TargetEntry(t, c) in entries <==> t in w.targets && t in w.home && w.home[t] == c
  }

  method ContextEntries(contexts: set<Id>) returns (entries: seq<Option<Id>>)
    ensures None !in entries && forall c: Id :: Some(c) in entries <==> c in contexts
  {
    entries := [];
    var rest := contexts;
    while rest != {}
      invariant rest <= contexts && None !in entries
      invariant forall c: Id :: Some(c) in entries <==> c in contexts - rest
      decreases rest
    {
      var c: Id :| c in rest;
      entries, rest := entries + [Some(c)], rest - {c};
    }
  }

  method TargetEntries(w: World) returns (entries: seq<TargetEntry>)
    requires Coherent(w)
    ensures BadEntry !in entries && ListsTargets(entries, w)
  {
    entries := [];
    var rest := w.targets;
    while rest != {}
      invariant rest <= w.targets && BadEntry !in entries
      invariant forall t: Id, c :: TargetEntry(t, c) in entries <==> t in w.targets - rest && w.home[t] == c
      decreases rest
    {
      var t: Id :| t in rest;
      entries, rest := entries + [TargetEntry(t, w.home[t])], rest - {t};
    }
  }

  function Named(id: Id, how: Naming): IdReply {
    match how
    case Rightly => Good(id)
    case Wrongly => Malformed
    case NotAtAll => Missing
  }

  /** How the creation of a context is answered: with its id, with a value that is not a non-empty string,
      or with no id at all. */
  datatype Naming = Rightly | Wrongly | NotAtAll

  /** A browser may do anything at any exchange, unless it is `calm`. A calm browser changes nothing by
      itself, no exchange with it fails and every reply is well formed, apart from what its parameters say:
      how it names contexts, how many disposals it still refuses, and whether it heeds `disposeOnDetach`,
      which the code asks for, and disposes of the context `held` by a connection that is closed. Pages may
      fail to load in any browser. All that goes on is recorded in `log`. */
  class Browser {
    const calm: bool
    const naming: Naming
    const disposesOnDetach: bool
    var refusals: nat
    var held: Option<Id>
    var w: World
    var log: seq<Exchange>

    constructor (initial: World, calm: bool, naming: Naming, disposesOnDetach: bool, refusals: nat)
      requires Coherent(initial)
      ensures w == initial && this.calm == calm && this.naming == naming && held == None
      ensures this.disposesOnDetach == disposesOnDetach && this.refusals == refusals
    {
      w, this.calm, this.naming, held := initial, calm, naming, None;
      this.disposesOnDetach, this.refusals, log := disposesOnDetach, refusals, [];
    }

    /** Anything others may do meanwhile: contexts and targets come and go, ours may be disposed of, a
        command that seemed lost may still take effect. */
    method Drift()
      requires Coherent(w)
      modifies `w
      ensures Evolves(old(w), w)
      ensures calm ==> w == old(w)
    {
      var n: nat :| 0 <= n;
      if calm { n := 0; }
      for i := 0 to n
        invariant Evolves(old(w), w)
        invariant calm ==> n == 0 && w == old(w)
      {
        if * {
          if w.contexts != {} {
            var c: Id :| c in w.contexts;
            StepsEvolve(old(w), w, c, None);
            w := RemoveContext(w, c);
          }
        } else if * {
          var t: Id := *;
          StepsEvolve(old(w), w, t, None);
          w := RemoveTarget(w, t);
        } else if * {
          var c := FreshId(w.contexts + w.retired);
          StepsEvolve(old(w), w, c, None);
          w := AddContext(w, c);
        } else {
          var t := FreshId(w.home.Keys);
          var context: Option<Id> := None;
          if w.contexts != {} {
            var c: Id :| c in w.contexts;
            context := Some(c);
          }
          StepsEvolve(old(w), w, t, context);
          w := AddTarget(w, t, context);
        }
      }
    }

    method MayFail() returns (f: Option<Failure>)
      ensures calm ==> f.None?
    {
      if calm { return None; }
      if * { return None; }
      if * { return Some(Runtime); }
      return Some(Socket);
    }

    /** The connection over which the context was created is closed. */
    method Close()
      requires Coherent(w)
      modifies `w, `held, `log
      ensures Evolves(old(w), w) && log == old(log) + [Closing]
      ensures calm && (!disposesOnDetach || old(held).None? || old(held).value !in old(w.contexts)) ==>
        w == old(w)
      ensures calm && disposesOnDetach && old(held).Some? && old(held).value in old(w.contexts) ==>
        old(held).value in w.retired
    {
      Drift();
      if disposesOnDetach && held.Some? && held.value in w.contexts {
        StepsEvolve(old(w), w, held.value, None);
        w := RemoveContext(w, held.value);
      }
      held, log := None, log + [Closing];
    }

    /** The recovery connection, or the one to the target, is closed. */
    method CloseOther(e: Exchange)
      requires Coherent(w)
      modifies `w, `log
      ensures Evolves(old(w), w) && log == old(log) + [e]
      ensures calm ==> w == old(w)
    {
      Drift();
      log := log + [e];
    }

    /** The reply names the new object, or does not name anything. */
    method Name(id: Id, how: Naming) returns (r: IdReply)
      ensures r.Good? ==> r.id == id
      ensures calm ==> r == Named(id, how)
    {
      if calm { return Named(id, how); }
      if * { return Good(id); }
      if * { return Missing; }
      return Malformed;
    }

    /** `Target.createBrowserContext`. It may fail before or after its effect; `made` tells the proof,
        not the caller. */
    method CreateContext() returns (r: Result<IdReply, Failure>, ghost made: Option<Id>)
      requires Coherent(w)
      modifies `w, `held, `log
      ensures Evolves(old(w), w) && log == old(log) + [Creating(r)]
      ensures made.Some? ==> made.value in w.contexts + w.retired
      ensures r.Ok? && r.value.Good? ==> made == Some(r.value.id)
      ensures calm ==> made.Some? && made.value in w.contexts && held == made && r == Ok(Named(made.value, naming))
    {
      Drift();
      made := None;
      var failed := MayFail();
      if failed.Some? {
        r := Err(failed.value);
      } else {
        var id := FreshId(w.contexts + w.retired);
        StepsEvolve(old(w), w, id, None);
        w, held := AddContext(w, id), Some(id);
        made := held;
        failed := MayFail();
        var name := Name(id, naming);
        r := if failed.Some? then Err(failed.value) else Ok(name);
      }
      log := log + [Creating(r)];
    }

    /** `Target.createTarget` in a context. */
    method CreateTarget(context: Ref) returns (r: Result<IdReply, Failure>)
      requires Coherent(w)
      modifies `w, `log
      ensures Evolves(old(w), w) && log == old(log) + [MakingTarget(context, r)]
      ensures r.Ok? ==> context.Known?
      ensures r.Ok? && r.value.Good? ==> r.value.id in w.home && w.home[r.value.id] == Some(context.id)
      ensures calm ==> w.contexts == old(w.contexts)
      ensures calm && context.Known? && context.id in w.contexts ==> r.Ok? && r.value.Good?
    {
      Drift();
      var failed := MayFail();
      if failed.Some? {
        r := Err(failed.value);
      } else if context == Unusable || context.id !in w.contexts {
        r := Err(Runtime);
      } else {
        var id := FreshId(w.home.Keys);
        StepsEvolve(old(w), w, id, Some(context.id));
        w := AddTarget(w, id, Some(context.id));
        failed := MayFail();
        var name := Name(id, Rightly);
        r := if failed.Some? then Err(failed.value) else Ok(name);
      }
      log := log + [MakingTarget(context, r)];
    }

    method Connect() returns (f: Option<Failure>)
      requires Coherent(w)
      modifies `w, `log
      ensures Evolves(old(w), w) && log == old(log) + [Connecting(f)]
      ensures calm ==> f.None? && w == old(w)
    {
      Drift();
      f := MayFail();
      log := log + [Connecting(f)];
    }

    /** `Browser.setDownloadBehavior`. */
    method DenyDownloads(context: Ref) returns (f: Option<Failure>)
      requires Coherent(w)
      modifies `w, `log
      ensures Evolves(old(w), w) && log == old(log) + [DenyingDownloads(context, f)]
      ensures calm ==> f.None? && w == old(w)
    {
      Drift();
      f := MayFail();
      log := log + [DenyingDownloads(context, f)];
    }

    /** Finding the target, connecting to it, navigating and evaluating. */
    method Operate() returns (f: Option<Failure>)
      requires Coherent(w)
      modifies `w, `log
      ensures Evolves(old(w), w) && log == old(log) + [Operating(f)]
      ensures calm ==> w == old(w)
    {
      Drift();
      f := None;
      if * {
        f := Some(Runtime);
      } else if * {
        f := Some(Socket);
      }
      log := log + [Operating(f)];
    }

    /** `Target.disposeBrowserContext`. It may fail before or after its effect, and an acknowledgement may
        come without it. */
    method Dispose(context: Ref) returns (f: Option<Failure>)
      requires Coherent(w)
      modifies `w, `refusals, `log
      ensures Evolves(old(w), w) && log == old(log) + [Disposing(context, f)]
      ensures calm && context.Known? && context.id in old(w.contexts) ==>
        if old(refusals) > 0 then f.Some? && w == old(w) && refusals == old(refusals) - 1
        else f.None? && context.id in w.retired
    {
      Drift();
      f := MayFail();
      if f.Some? {
      } else if refusals > 0 {
        refusals := refusals - 1;
        f := Some(Runtime);
      } else if context == Unusable || context.id !in w.contexts {
        f := Some(Runtime);
      } else {
        var heeded: bool := *;
        if calm || heeded {
          StepsEvolve(old(w), w, context.id, None);
          w := RemoveContext(w, context.id);
        }
        f := MayFail();
      }
      log := log + [Disposing(context, f)];
    }

    /** `Target.getBrowserContexts`; the browser answers truthfully, or with something malformed. */
    method ListContexts() returns (r: Result<Listed<Option<Id>>, Failure>)
      requires Coherent(w)
      modifies `w, `log
      ensures Evolves(old(w), w) && log == old(log) + [ListingContexts(r)]
      ensures r.Ok? && r.value.Entries? && None !in r.value.entries ==> ListsContexts(r.value.entries, w)
      ensures calm ==> w == old(w) && r.Ok? && r.value.Entries? && None !in r.value.entries
    {
      Drift();
      var failed := MayFail();
      if failed.Some? {
        r := Err(failed.value);
      } else {
        var entries := ContextEntries(w.contexts);
        r := Ok(Entries(entries));
        if !calm {
          if * {
            r := Ok(NotAList);
          } else if * {
            var before: seq<Option<Id>> := *;
            var after: seq<Option<Id>> := *;
            r := Ok(Entries(before + [None] + after));
          }
        }
      }
      log := log + [ListingContexts(r)];
    }

    /** `Target.getTargets`: the open targets with their contexts. */
    method ListTargets() returns (r: Result<Listed<TargetEntry>, Failure>)
      requires Coherent(w)
      modifies `w, `log
      ensures Evolves(old(w), w) && log == old(log) + [ListingTargets(r)]
      ensures r.Ok? && r.value.Entries? && BadEntry !in r.value.entries ==> ListsTargets(r.value.entries, w)
      ensures calm ==> w == old(w) && r.Ok? && r.value.Entries? && BadEntry !in r.value.entries
    {
      Drift();
      var failed := MayFail();
      if failed.Some? {
        r := Err(failed.value);
      } else {
        var entries := TargetEntries(w);
        r := Ok(Entries(entries));
        if !calm {
          if * {
            r := Ok(NotAList);
          } else if * {
            var before: seq<TargetEntry> := *;
            var after: seq<TargetEntry> := *;
            r := Ok(Entries(before + [BadEntry] + after));
          }
        }
      }
      log := log + [ListingTargets(r)];
    }
  }

  /** A context the code made is known to the browser, alive or gone. */
  ghost predicate Made(w: World, context: Ref) {
    context.Known? ==> context.id in w.contexts + w.retired
  }

  /** Nothing of the context is left, unless its id was never usable. */
  ghost predicate Cleared(w: World, context: Ref) {
    context.Known? ==> context.id in w.retired
  }

  /** Neither listing shows the context, a target in it, or the target itself. */
  predicate ShowNothing(context: Ref, target: Option<Ref>, contexts: seq<Option<Id>>, targets: seq<TargetEntry>) {
    && (context.Known? ==> Some(context.id) !in contexts)
    && (context.Known? ==> forall e :: e in targets && e.TargetEntry? ==> e.context != Some(context.id))
    && (target.Some? && target.value.Known? ==>
          forall e :: e in targets && e.TargetEntry? ==> e.id != target.value.id)
  }

  /** What the listings are meant to show. */
  ghost predicate Absent(w: World, context: Ref, target: Option<Ref>) {
    && (context.Known? ==> context.id !in w.contexts)
    && (target.Some? && target.value.Known? ==> target.value.id !in w.targets)
  }

  /** Truthful listings of one moment show nothing exactly when context and target are absent. */
  lemma ShowNothingIsExact(w: World, context: Ref, target: Option<Ref>, contexts: seq<Option<Id>>,
                           targets: seq<TargetEntry>)
    requires Coherent(w) && ListsContexts(contexts, w) && ListsTargets(targets, w)
    ensures ShowNothing(context, target, contexts, targets) <==> Absent(w, context, target)
  {
    if target.Some? && target.value.Known? && target.value.id in w.targets {
      assert TargetEntry(target.value.id, w.home[target.value.id]) in targets;
    }
    if Absent(w, context, target) {
      forall e | e in targets && e.TargetEntry?
        ensures context.Known? ==> e.context != Some(context.id)
        ensures target.Some? && target.value.Known? ==> e.id != target.value.id
      {
        assert TargetEntry(e.id, e.context) in targets;
      }
    }
  }

  /** The confirmation can be relied on for a context exactly when it looks for the context's own id: with
      any other reference, a malformed one included, some browser passes it with the context open. */
  lemma ConfirmationNeedsTheId(made: Id, context: Ref)
    ensures (forall w, contexts, targets ::
               Coherent(w) && made in w.contexts && ListsContexts(contexts, w) && ListsTargets(targets, w) ==>
                 !ShowNothing(context, None, contexts, targets))
            <==> context == Known(made)
  {
    var w := World({made}, {}, {}, map[]);
    var contexts, targets := [Some(made)], [];
    assert Coherent(w) && ListsContexts(contexts, w) && ListsTargets(targets, w);
    if context != Known(made) {
      assert ShowNothing(context, None, contexts, targets);
    }
  }

  // ------------------------------------------------------------ what went on

  /** The exchanges of a confirmation, as far as they went. */
  datatype Confirming =
    | NoContexts(failure: Failure)
    | NoTargets(contexts: Listed<Option<Id>>, failure: Failure)
    | BothLists(contexts: Listed<Option<Id>>, targets: Listed<TargetEntry>)

  ghost function ConfirmSteps(c: Confirming): seq<Exchange> {
    match c
    case NoContexts(f) => [ListingContexts(Err(f))]
    case NoTargets(contexts, f) => [ListingContexts(Ok(contexts)), ListingTargets(Err(f))]
    case BothLists(contexts, targets) => [ListingContexts(Ok(contexts)), ListingTargets(Ok(targets))]
  }

  /** It succeeds with two lists of well-formed entries that show nothing. */
  ghost function ConfirmVerdict(c: Confirming, context: Ref, target: Option<Ref>): Result<(), Failure> {
    match c
    case NoContexts(f) => Err(f)
    case NoTargets(_, f) => Err(f)
    case BothLists(contexts, targets) =>
      if && contexts.Entries? && None !in contexts.entries && targets.Entries? && BadEntry !in targets.entries
         && ShowNothing(context, target, contexts.entries, targets.entries)
      then Ok(()) else Err(Runtime)
  }

  /** The exchanges of a disposal: refused, or acknowledged and then confirmed or not. */
  datatype Disposal = Denied(failure: Failure) | Acknowledged(confirming: Confirming)

  ghost function DisposeSteps(d: Disposal, context: Ref): seq<Exchange> {
    match d
    case Denied(f) => [Disposing(context, Some(f))]
    case Acknowledged(c) => [Disposing(context, None)] + ConfirmSteps(c)
  }

  ghost function DisposeVerdict(d: Disposal, context: Ref, target: Option<Ref>): Result<(), Failure> {
    match d
    case Denied(f) => Err(f)
    case Acknowledged(c) => ConfirmVerdict(c, context, target)
  }

  /** The exchanges of a recovery: no connection, a look, or a look and a disposal. */
  datatype Recovery =
    | Unreachable(failure: Failure)
    | Looked(first: Confirming)
    | Retried(first: Confirming, disposal: Disposal)

  ghost function RecoverSteps(r: Recovery, context: Ref): seq<Exchange> {
    match r
    case Unreachable(f) => [Connecting(Some(f))]
    case Looked(c) => [Connecting(None)] + ConfirmSteps(c) + [ClosingRecovery]
    case Retried(c, d) => [Connecting(None)] + ConfirmSteps(c) + DisposeSteps(d, context) + [ClosingRecovery]
  }

  /** The disposal is tried exactly if the look was not satisfying. */
  ghost predicate RecoverValid(r: Recovery, context: Ref, target: Option<Ref>) {
    match r
    case Unreachable(_) => true
    case Looked(c) => ConfirmVerdict(c, context, target) != Err(Runtime)
    case Retried(c, _) => ConfirmVerdict(c, context, target) == Err(Runtime)
  }

  ghost function RecoverVerdict(r: Recovery, context: Ref, target: Option<Ref>): Result<(), Failure> {
    match r
    case Unreachable(f) => Err(f)
    case Looked(c) => ConfirmVerdict(c, context, target)
    case Retried(_, d) => DisposeVerdict(d, context, target)
  }

  // ---------------------------------------------------------- the operations

  /** Both listings must be lists of well-formed entries and show neither the context nor any of its
      targets. */
  method ConfirmAbsent(browser: Browser, context: Ref, target: Option<Ref>)
    returns (r: Result<(), Failure>, ghost c: Confirming)
    requires Coherent(browser.w) && Made(browser.w, context)
    modifies browser`w, browser`log
    ensures Evolves(old(browser.w), browser.w)
    ensures browser.log == old(browser.log) + ConfirmSteps(c) && r == ConfirmVerdict(c, context, target)
    ensures r.Ok? ==> Cleared(browser.w, context)
    ensures browser.calm ==>
      && browser.w == old(browser.w)
      && r == if Absent(browser.w, context, target) then Ok(()) else Err(Runtime)
  {
    var listed := browser.ListContexts();
    if listed.Err? { return Err(listed.error), NoContexts(listed.error); }
    var infos := browser.ListTargets();
    if infos.Err? { return Err(infos.error), NoTargets(listed.value, infos.error); }
    c := BothLists(listed.value, infos.value);
    if listed.value.NotAList? || None in listed.value.entries { return Err(Runtime), c; }
    if infos.value.NotAList? || BadEntry in infos.value.entries { return Err(Runtime), c; }
    if browser.calm {
      ShowNothingIsExact(browser.w, context, target, listed.value.entries, infos.value.entries);
    }
    if !ShowNothing(context, target, listed.value.entries, infos.value.entries) {
      return Err(Runtime), c;
    }
    return Ok(()), c;
  }

  ghost predicate IsOpen(w: World, context: Ref) {
    context.Known? && context.id in w.contexts
  }

  /** The context is open and the target was made in it. */
  ghost predicate Houses(w: World, context: Ref, target: Ref) {
    && IsOpen(w, context)
    && target.Known? && target.id in w.home && w.home[target.id] == Some(context.id)
  }

  /** `Target.disposeBrowserContext`, then the confirmation. */
  method DisposeAndConfirm(browser: Browser, context: Ref, target: Option<Ref>)
    returns (r: Result<(), Failure>, ghost d: Disposal)
    requires Coherent(browser.w) && Made(browser.w, context)
    modifies browser`w, browser`refusals, browser`log
    ensures Evolves(old(browser.w), browser.w)
    ensures browser.log == old(browser.log) + DisposeSteps(d, context) && r == DisposeVerdict(d, context, target)
    ensures r.Ok? ==> Cleared(browser.w, context)
    ensures browser.calm && IsOpen(old(browser.w), context) &&
            (target.Some? ==> Houses(old(browser.w), context, target.value)) ==>
      if old(browser.refusals) == 0 then r.Ok?
      else r.Err? && browser.w == old(browser.w) && browser.refusals == old(browser.refusals) - 1
  {
    hide ConfirmSteps, ConfirmVerdict;
    var refused := browser.Dispose(context);
    if refused.Some? { return Err(refused.value), Denied(refused.value); }
    ghost var c;
    r, c := ConfirmAbsent(browser, context, target);
    d := Acknowledged(c);
  }

  /** The disposal on the first connection. */
  method DisposeIsolated(browser: Browser, context: Ref, target: Ref)
    returns (r: Result<(), Failure>, ghost d: Disposal)
    requires Coherent(browser.w) && Made(browser.w, context)
    modifies browser`w, browser`refusals, browser`log
    ensures Evolves(old(browser.w), browser.w)
    ensures browser.log == old(browser.log) + DisposeSteps(d, context) && r == DisposeVerdict(d, context, Some(target))
    ensures r.Ok? ==> Cleared(browser.w, context)
    ensures browser.calm && Houses(old(browser.w), context, target) ==>
      if old(browser.refusals) == 0 then r.Ok?
      else r.Err? && browser.w == old(browser.w) && browser.refusals == old(browser.refusals) - 1
  {
    hide DisposeSteps, DisposeVerdict;
    r, d := DisposeAndConfirm(browser, context, Some(target));
  }

  /** A fresh connection: perhaps the context is gone already, else dispose of it and look again. */
  method RecoverOrConfirm(browser: Browser, context: Ref, target: Option<Ref>)
    returns (r: Result<(), Failure>, ghost recovery: Recovery)
    requires Coherent(browser.w) && Made(browser.w, context)
    modifies browser`w, browser`refusals, browser`log
    ensures Evolves(old(browser.w), browser.w)
    ensures browser.log == old(browser.log) + RecoverSteps(recovery, context)
    ensures RecoverValid(recovery, context, target) && r == RecoverVerdict(recovery, context, target)
    ensures r.Ok? ==> Cleared(browser.w, context)
    ensures browser.calm && Absent(old(browser.w), context, target) ==>
      r.Ok? && browser.w == old(browser.w) && browser.refusals == old(browser.refusals)
    ensures browser.calm && IsOpen(old(browser.w), context) &&
            (target.Some? ==> Houses(old(browser.w), context, target.value)) ==>
      if old(browser.refusals) == 0 then r.Ok? else r.Err? && browser.w == old(browser.w)
  {
    hide ConfirmSteps, ConfirmVerdict, DisposeSteps, DisposeVerdict, Coherent, Evolves;
    ghost var was, w0 := browser.log, browser.w;
    var failed := browser.Connect();
    EvolvesOn(w0, w0, browser.w);
    MadeStays(w0, browser.w, context);
    if failed.Some? { return Err(failed.value), Unreachable(failed.value); }
    ghost var c, d;
    ghost var w1 := browser.w;
    r, c := ConfirmAbsent(browser, context, target);
    EvolvesOn(w0, w1, browser.w);
    MadeStays(w1, browser.w, context);
    recovery := Looked(c);
    ghost var w2 := browser.w;
    if r == Err(Runtime) {
      r, d := DisposeAndConfirm(browser, context, target);
      EvolvesOn(w0, w2, browser.w);
      recovery := Retried(c, d);
    }
    ghost var w3 := browser.w;
    browser.CloseOther(ClosingRecovery);
    EvolvesOn(w0, w3, browser.w);
    if r.Ok? { ClearedStays(w3, browser.w, context); }
    assert browser.log == was + RecoverSteps(recovery, context);
  }

  datatype OpenError = OwnershipUnknown | CleanupFailed | OpenFailed

  /** What happened to the context this request asked for: `made` is the one in the browser, if any, and
      `misnamed` says that the reply carried an id that is not a non-empty string. */
  datatype Trace = Trace(made: Option<Id>, misnamed: bool)

  /** The promise of every exit that is not a cleanup error. */
  ghost predicate Tidy(w: World, t: Trace) {
    t.made.Some? && !t.misnamed ==> t.made.value in w.retired
  }

  /** The exchanges of an opening: they end with an open target, or where one of them failed. */
  datatype Opening =
    | Unconnected(failure: Failure)
    | Unowned(reply: Result<IdReply, Failure>)
    | Misnamed(recovery: Recovery)
    | Exposed(id: Id, failure: Failure, recovery: Recovery)
    | Targetless(id: Id, reply: Result<IdReply, Failure>, recovery: Recovery)
    | Opened(id: Id, target: Id)

  ghost function Created(id: Id): seq<Exchange> {
    [Connecting(None), Creating(Ok(Good(id)))]
  }

  ghost function OpenSteps(o: Opening): seq<Exchange> {
    match o
    case Unconnected(f) => [Connecting(Some(f))]
    case Unowned(reply) => [Connecting(None), Creating(reply), Closing]
    case Misnamed(r) => [Connecting(None), Creating(Ok(Malformed)), Closing] + RecoverSteps(r, Unusable)
    case Exposed(id, f, r) =>
      Created(id) + [DenyingDownloads(Known(id), Some(f)), Closing] + RecoverSteps(r, Known(id))
    case Targetless(id, reply, r) =>
      Created(id) + [DenyingDownloads(Known(id), None), MakingTarget(Known(id), reply), Closing]
      + RecoverSteps(r, Known(id))
    case Opened(id, target) =>
      Created(id) + [DenyingDownloads(Known(id), None), MakingTarget(Known(id), Ok(Good(target)))]
  }

  /** What the code looks for of a target that it got no id for. */
  ghost function NoTarget(reply: Result<IdReply, Failure>): Option<Ref> {
    if reply == Ok(Malformed) then Some(Unusable) else None
  }

  ghost predicate OpenValid(o: Opening) {
    match o
    case Unconnected(_) => true
    case Unowned(reply) => reply.Err? || reply.value == Missing
    case Misnamed(r) => RecoverValid(r, Unusable, None)
    case Exposed(id, _, r) => RecoverValid(r, Known(id), None)
    case Targetless(id, reply, r) =>
      !(reply.Ok? && reply.value.Good?) && RecoverValid(r, Known(id), NoTarget(reply))
    case Opened(_, _) => true
  }

  ghost function Recovered(verdict: Result<(), Failure>): OpenError {
    if verdict.Ok? then OpenFailed else CleanupFailed
  }

  ghost function OpenVerdict(o: Opening): Result<(Ref, Ref), OpenError> {
    match o
    case Unconnected(_) => Err(OpenFailed)
    case Unowned(_) => Err(OwnershipUnknown)
    case Misnamed(r) => Err(Recovered(RecoverVerdict(r, Unusable, None)))
    case Exposed(id, _, r) => Err(Recovered(RecoverVerdict(r, Known(id), None)))
    case Targetless(id, reply, r) => Err(Recovered(RecoverVerdict(r, Known(id), NoTarget(reply))))
    case Opened(id, target) => Ok((Known(id), Known(target)))
  }

  /** After an opening that failed with a context: the connection is closed, and the context looked for. */
  method GiveUp(browser: Browser, context: Ref, target: Option<Ref>, ghost t: Trace)
    returns (e: OpenError, ghost recovery: Recovery)
    requires Coherent(browser.w) && Made(browser.w, context)
    requires if context.Known? then t.made == Some(context.id) else t.misnamed
    modifies browser`w, browser`held, browser`refusals, browser`log
    ensures Evolves(old(browser.w), browser.w)
    ensures browser.log == old(browser.log) + ([Closing] + RecoverSteps(recovery, context))
    ensures RecoverValid(recovery, context, target) && e == Recovered(RecoverVerdict(recovery, context, target))
    ensures e == OpenFailed ==> Tidy(browser.w, t)
    ensures browser.calm && context == Unusable && target == None && old(browser.held) == t.made && t.made.Some?
            && t.made.value in old(browser.w.contexts) ==>
      && e == OpenFailed && browser.refusals == old(browser.refusals)
      && (t.made.value in browser.w.contexts <==> !browser.disposesOnDetach)
  {
    hide RecoverSteps, RecoverValid, RecoverVerdict;
    browser.Close();
    var recovered;
    recovered, recovery := RecoverOrConfirm(browser, context, target);
    return if recovered.Ok? then OpenFailed else CleanupFailed, recovery;
  }

  lemma EvolvesOn(a: World, b: World, c: World)
    requires Evolves(a, b) && Evolves(b, c)
    ensures Evolves(a, c) && Coherent(c)
  {
  }

  lemma MadeStays(w: World, w': World, context: Ref)
    requires Evolves(w, w') && Made(w, context)
    ensures Made(w', context)
  {
  }

  method OpenIsolatedTarget(browser: Browser)
    returns (r: Result<(Ref, Ref), OpenError>, ghost o: Opening, ghost t: Trace)
    requires Coherent(browser.w)
    modifies browser`w, browser`held, browser`refusals, browser`log
    ensures Evolves(old(browser.w), browser.w)
    ensures browser.log == old(browser.log) + OpenSteps(o) && OpenValid(o) && r == OpenVerdict(o)
    ensures r.Ok? ==> r.value.0.Known? && t == Trace(Some(r.value.0.id), false) && Made(browser.w, r.value.0)
    ensures r.Ok? ==> r.value.1.Known? && r.value.1.id in browser.w.home
                      && browser.w.home[r.value.1.id] == Some(r.value.0.id)
    ensures r == Err(OpenFailed) ==> Tidy(browser.w, t)
    ensures browser.calm ==> t.made.Some? && browser.refusals == old(browser.refusals)
    ensures browser.calm && browser.naming == Rightly ==>
      r.Ok? && Houses(browser.w, r.value.0, r.value.1) && browser.held == t.made
    ensures browser.calm && browser.naming != Rightly ==>
      && r == Err(if browser.naming == Wrongly then OpenFailed else OwnershipUnknown)
      && (t.made.value in browser.w.contexts <==> !browser.disposesOnDetach)
  {
    hide RecoverSteps, RecoverValid, RecoverVerdict, Tidy, Coherent, Evolves;
    t := Trace(None, false);
    ghost var was, w0 := browser.log, browser.w;
    var failed := browser.Connect();
    ghost var w1 := browser.w;
    EvolvesOn(w0, w0, w1);
    if failed.Some? {
      Untouched(browser.w);
      return Err(OpenFailed), Unconnected(failed.value), t;
    }
    var created, made := browser.CreateContext();
    ghost var w2 := browser.w;
    EvolvesOn(w0, w1, w2);
    t := Trace(made, created == Ok(Malformed));
    ghost var steps := [Connecting(None), Creating(created)];
    assert browser.log == was + steps;
    if created.Err? || created.value == Missing {
      browser.Close();
      EvolvesOn(w0, w2, browser.w);
      RetiredIsNotOpen(browser.w, made);
      o := Unowned(created);
      assert browser.log == was + OpenSteps(o);
      return Err(OwnershipUnknown), o, t;
    }
    if created.value == Malformed {
      ghost var recovery;
      var e;
      e, recovery := GiveUp(browser, Unusable, None, t);
      EvolvesOn(w0, w2, browser.w);
      o := Misnamed(recovery);
      assert browser.log == was + (steps + ([Closing] + RecoverSteps(recovery, Unusable)));
      assert OpenSteps(o) == steps + ([Closing] + RecoverSteps(recovery, Unusable));
      return Err(e), o, t;
    }
    ghost var rest;
    r, o, rest := OpenInContext(browser, created.value.id, t);
    EvolvesOn(w0, w2, browser.w);
    assert browser.log == was + (steps + rest);
  }

  lemma RetiredIsNotOpen(w: World, made: Option<Id>)
    requires Coherent(w)
    ensures made.Some? && made.value in w.retired ==> made.value !in w.contexts
  {
  }

  lemma ClearedStays(w: World, w': World, context: Ref)
    requires Evolves(w, w') && Cleared(w, context)
    ensures Cleared(w', context)
  {
  }

  lemma Untouched(w: World)
    ensures Tidy(w, Trace(None, false))
  {
  }

  /** The part of the opening that uses the new context. */
  method OpenInContext(browser: Browser, id: Id, ghost t: Trace)
    returns (r: Result<(Ref, Ref), OpenError>, ghost o: Opening, ghost rest: seq<Exchange>)
    requires Coherent(browser.w) && Made(browser.w, Known(id)) && t == Trace(Some(id), false)
    modifies browser`w, browser`held, browser`refusals, browser`log
    ensures Evolves(old(browser.w), browser.w) && Made(browser.w, Known(id))
    ensures browser.log == old(browser.log) + rest && OpenSteps(o) == Created(id) + rest
    ensures OpenValid(o) && r == OpenVerdict(o)
    ensures r.Ok? ==> r.value.0 == Known(id) && r.value.1.Known? && r.value.1.id in browser.w.home
                      && browser.w.home[r.value.1.id] == Some(id)
    ensures r != Err(OwnershipUnknown) && (r == Err(OpenFailed) ==> Tidy(browser.w, t))
    ensures browser.calm && id in old(browser.w.contexts) ==>
      && r.Ok? && Houses(browser.w, r.value.0, r.value.1)
      && browser.held == old(browser.held) && browser.refusals == old(browser.refusals)
  {
    hide RecoverSteps, RecoverValid, RecoverVerdict, Tidy, Coherent, Evolves, Made;
    ghost var was, w0 := browser.log, browser.w;
    var context := Known(id);
    ghost var recovery;
    var e;
    var refused := browser.DenyDownloads(context);
    MadeStays(w0, browser.w, context);
    EvolvesOn(w0, w0, browser.w);
    ghost var w1 := browser.w;
    if refused.Some? {
      e, recovery := GiveUp(browser, context, None, t);
      EvolvesOn(w0, w1, browser.w);
      MadeStays(w1, browser.w, context);
      o := Exposed(id, refused.value, recovery);
      rest := [DenyingDownloads(context, refused)] + ([Closing] + RecoverSteps(recovery, context));
      AfterCreation(o, id, rest);
      return Err(e), o, rest;
    }
    var reply := browser.CreateTarget(context);
    EvolvesOn(w0, w1, browser.w);
    MadeStays(w1, browser.w, context);
    ghost var w2 := browser.w;
    if reply.Ok? && reply.value.Good? {
      o := Opened(id, reply.value.id);
      rest := [DenyingDownloads(context, None), MakingTarget(context, reply)];
      AfterCreation(o, id, rest);
      return Ok((context, Known(reply.value.id))), o, rest;
    }
    var target := if reply == Ok(Malformed) then Some(Unusable) else None;
    e, recovery := GiveUp(browser, context, target, t);
    EvolvesOn(w0, w2, browser.w);
    MadeStays(w2, browser.w, context);
    o := Targetless(id, reply, recovery);
    rest := [DenyingDownloads(context, None), MakingTarget(context, reply)]
      + ([Closing] + RecoverSteps(recovery, context));
    AfterCreation(o, id, rest);
    return Err(e), o, rest;
  }

  lemma AfterCreation(o: Opening, id: Id, rest: seq<Exchange>)
    requires match o
             case Exposed(i, f, r) =>
               i == id && rest == [DenyingDownloads(Known(id), Some(f))] + ([Closing] + RecoverSteps(r, Known(id)))
             case Targetless(i, reply, r) =>
               i == id && rest == [DenyingDownloads(Known(id), None), MakingTarget(Known(id), reply)]
                                  + ([Closing] + RecoverSteps(r, Known(id)))
             case Opened(i, target) =>
               i == id && rest == [DenyingDownloads(Known(id), None), MakingTarget(Known(id), Ok(Good(target)))]
             case _ => false
    ensures OpenSteps(o) == Created(id) + rest
  {
    hide RecoverSteps;
    assert OpenSteps(o) == Created(id) + rest;
  }

  datatype Exit = Returned | Raised | CleanupError

  /** The exchanges of the whole operation: none for a refused URL, those of an opening that failed, or all
      of them. */
  datatype Running =
    | RefusedUrl
    | NotOpened(opening: Opening)
    | Operated(id: Id, target: Id, page: Option<Failure>, disposal: Disposal, recovery: Option<Recovery>)

  ghost function CleanSteps(d: Disposal, recovery: Option<Recovery>, context: Ref): seq<Exchange> {
    DisposeSteps(d, context) + ([Closing] + if recovery.Some? then RecoverSteps(recovery.value, context) else [])
  }

  ghost function RunSteps(run: Running): seq<Exchange> {
    match run
    case RefusedUrl => []
    case NotOpened(o) => OpenSteps(o)
    case Operated(id, target, page, d, recovery) =>
      OpenSteps(Opened(id, target)) + ([Operating(page)] + CleanSteps(d, recovery, Known(id)) + [ClosingTarget])
  }

  /** The recovery is tried exactly after a disposal that was refused or not confirmed. */
  ghost predicate RunValid(run: Running, acceptable: bool) {
    && (run.RefusedUrl? <==> !acceptable)
    && match run
       case RefusedUrl => true
       case NotOpened(o) => OpenValid(o) && !o.Opened?
       case Operated(id, target, page, d, recovery) =>
         && (recovery.Some? <==> DisposeVerdict(d, Known(id), Some(Known(target))).Err?)
         && (recovery.Some? ==> RecoverValid(recovery.value, Known(id), Some(Known(target))))
  }

  /** After an opening the cleanup decides about the cleanup error, and the page about all else. */
  ghost function RunExit(run: Running): Exit {
    match run
    case RefusedUrl => Raised
    case NotOpened(o) => if OpenVerdict(o) == Err(OpenFailed) then Raised else CleanupError
    case Operated(id, target, page, d, recovery) =>
      if recovery.Some? && RecoverVerdict(recovery.value, Known(id), Some(Known(target))).Err? then CleanupError
      else if page.None? then Returned else Raised
  }

  ghost predicate Loaded(run: Running) {
    run.Operated? && run.page.None?
  }

  /** How an operation with a calm browser ends, when the page loads and evaluates or not. */
  ghost function Ending(naming: Naming, disposesOnDetach: bool, refusals: nat, loaded: bool): Exit {
    match naming
    case Wrongly => Raised
    case NotAtAll => CleanupError
    case Rightly =>
      if disposesOnDetach || refusals <= 1 then if loaded then Returned else Raised else CleanupError
  }

  /** The disposal on the first connection, which is then closed, and after a failure the recovery. */
  method CleanUp(browser: Browser, context: Ref, target: Ref)
    returns (cleanup: Result<(), Failure>, ghost d: Disposal, ghost recovery: Option<Recovery>)
    requires Coherent(browser.w) && Made(browser.w, context)
    modifies browser`w, browser`held, browser`refusals, browser`log
    ensures Evolves(old(browser.w), browser.w)
    ensures browser.log == old(browser.log) + CleanSteps(d, recovery, context)
    ensures recovery.Some? <==> DisposeVerdict(d, context, Some(target)).Err?
    ensures recovery.Some? ==> RecoverValid(recovery.value, context, Some(target))
    ensures cleanup.Ok? <==> recovery.None? || RecoverVerdict(recovery.value, context, Some(target)).Ok?
    ensures cleanup.Ok? ==> Cleared(browser.w, context)
    ensures browser.calm && Houses(old(browser.w), context, target) && old(browser.held) == Some(context.id) ==>
      && (cleanup.Ok? <==> browser.disposesOnDetach || old(browser.refusals) <= 1)
      && (context.id in browser.w.contexts <==> cleanup.Err?)
  {
    hide RecoverSteps, RecoverValid, RecoverVerdict, DisposeSteps, DisposeVerdict;
    ghost var was := browser.log;
    ghost var r;
    recovery := None;
    cleanup, d := DisposeIsolated(browser, context, target);
    browser.Close();
    if cleanup.Err? {
      cleanup, r := RecoverOrConfirm(browser, context, Some(target));
      recovery := Some(r);
    }
    assert browser.log == was + CleanSteps(d, recovery, context);
  }

  /** The whole operation. However the sockets fail, unless it ends in a cleanup error the context made
      for it is gone, with every target in it (`RetiredForGood`); the one exception is a browser that
      answers the creation with a value that is not a non-empty string. The exception is real: a calm
      browser that disregards `disposeOnDetach` and misnames the context still has it afterwards, and the
      operation ends like any failed one. Such a browser keeps the context in just two more cases, and
      both end in the cleanup error: it named no context at all, or it refused to dispose of it twice.
      The exchanges with the browser determine the exit. */
  method NavigateAndEvaluate(browser: Browser, acceptable: bool)
    returns (exit: Exit, ghost run: Running, ghost t: Trace)
    requires Coherent(browser.w)
    modifies browser
    ensures Evolves(old(browser.w), browser.w)
    ensures browser.log == old(browser.log) + RunSteps(run) && RunValid(run, acceptable) && exit == RunExit(run)
    ensures exit != CleanupError ==> Tidy(browser.w, t)
    ensures exit == Returned ==> acceptable && t.made.Some? && !t.misnamed
    ensures !acceptable ==> exit == Raised && t.made.None?
    ensures browser.calm && acceptable ==>
      && exit == Ending(browser.naming, browser.disposesOnDetach, old(browser.refusals), Loaded(run))
      && t.made.Some?
      && (t.made.value in browser.w.contexts
          <==> !browser.disposesOnDetach && (browser.naming != Rightly || old(browser.refusals) > 1))
  {
    hide OpenSteps, OpenValid, RecoverSteps, RecoverValid, RecoverVerdict, DisposeSteps, DisposeVerdict, CleanSteps;
    t := Trace(None, false);
    ghost var was := browser.log;
    if !acceptable { return Raised, RefusedUrl, t; }
    ghost var opening, trace, disposal, recovery;
    var attempt;
    attempt, opening, trace := OpenIsolatedTarget(browser);
    t, run := trace, NotOpened(opening);
    OnlyOpened(opening);
    if attempt.Err? {
      return if attempt.error == OpenFailed then Raised else CleanupError, run, t;
    }
    var context, target := attempt.value.0, attempt.value.1;
    var failed := browser.Operate();
    var cleanup;
    cleanup, disposal, recovery := CleanUp(browser, context, target);
    browser.CloseOther(ClosingTarget);
    run := Operated(context.id, target.id, failed, disposal, recovery);
    ghost var steps := [Operating(failed)] + CleanSteps(disposal, recovery, context) + [ClosingTarget];
    assert browser.log == was + (OpenSteps(opening) + steps);
    if cleanup.Err? {
      return CleanupError, run, t;
    }
    return if failed.None? then Returned else Raised, run, t;
  }

  lemma OnlyOpened(o: Opening)
    ensures OpenVerdict(o).Ok? <==> o.Opened?
    ensures o.Opened? ==> OpenVerdict(o) == Ok((Known(o.id), Known(o.target)))
  {
    hide RecoverVerdict;
  }

  datatype Reply = Success | OperationError

  /** The request handler: the managed browser is told to shut down exactly on a cleanup error, and a
      success never leaves the context behind. */
  method HandleNavigate(browser: Browser, acceptable: bool)
    returns (reply: Reply, closed: bool, ghost run: Running, ghost t: Trace)
    requires Coherent(browser.w)
    modifies browser
    ensures browser.log == old(browser.log) + RunSteps(run) && RunValid(run, acceptable)
    ensures closed <==> RunExit(run) == CleanupError
    ensures reply == Success <==> RunExit(run) == Returned
    ensures !closed ==> Tidy(browser.w, t)
    ensures reply == Success ==> t.made.Some? && t.made.value in browser.w.retired
    ensures browser.calm && acceptable ==>
      && RunExit(run) == Ending(browser.naming, browser.disposesOnDetach, old(browser.refusals), Loaded(run))
      && t.made.Some?
      && (!closed ==> (t.made.value in browser.w.contexts <==> !browser.disposesOnDetach && browser.naming == Wrongly))
  {
    hide RunSteps, RunValid, RunExit;
    var exit;
    exit, run, t := NavigateAndEvaluate(browser, acceptable);
    match exit
    case Returned => return Success, false, run, t;
    case Raised => return OperationError, false, run, t;
    case CleanupError => return OperationError, true, run, t;
  }

  /** The failing input itself: the request ends like any failed one, nothing is shut down, and its context
      is still open. */
  method MisnamedContextSurvives() returns (browser: Browser, reply: Reply, closed: bool, ghost context: Id)
    ensures reply == OperationError && !closed && context in browser.w.contexts
  {
    browser := new Browser(World({}, {}, {}, map[]), true, Wrongly, false, 0);
    ghost var run, t;
    reply, closed, run, t := HandleNavigate(browser, true);
    context := t.made.value;
  }
}
