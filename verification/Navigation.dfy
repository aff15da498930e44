/** The navigate-then-evaluate machine of the browser proxy, over arbitrary message streams. */
module Navigation {
  import opened Wrappers
  import opened Json

  datatype Command = Command(id: int, name: string)

  /** A DevTools socket: what the browser will send, how much of it was read, what was sent to it, and
      whether a sending failed. */
  class Socket {
    const incoming: seq<Json>
    var position: nat
    var sent: seq<Command>
    var broken: bool

    constructor (messages: seq<Json>)
      ensures incoming == messages && position == 0 && sent == [] && !broken
    {
      incoming := messages;
      position, sent, broken := 0, [], false;
    }

    /** The next message; nothing once the stream ends (a timeout or a closed socket). */
    method Recv() returns (m: Option<Json>)
      requires position <= |incoming|
      modifies this`position
      ensures m.None? <==> old(position) == |incoming|
      ensures m.None? ==> position == old(position)
      ensures m.Some? ==> m.value == incoming[old(position)] && position == old(position) + 1
      ensures position <= |incoming|
    {
      if position == |incoming| {
        return None;
      }
      m := Some(incoming[position]);
      position := position + 1;
    }

    method Send(c: Command) returns (ok: bool)
      modifies this`sent, this`broken
      ensures ok ==> sent == old(sent) + [c] && broken == old(broken)
      ensures !ok ==> sent == old(sent) && broken
    {
      ok := *;
      if ok {
        sent := sent + [c];
      } else {
        broken := true;
      }
    }
  }

  datatype NavigationError =
    | TimedOut
    | BadMessage
    | CommandRejected
    | NavigationFailed
    | MainFrameNavigated
    | BlockedRequest
    | EvaluationFailed
    | SendFailed

  // ------------------------------------------------------ what a message says

  datatype Event =
    | Reply4
    | FrameEvent(frame: Json, loader: Json)
    | LoadEvent(frame: Json, loader: Json)
    | Paused
    | Useless
    | Plain

  /** The order of the tests is that of the loop: a message with id 4 is the navigation reply whatever
      else it carries, and only a message without a known method can be the evaluation reply. */
  function Classify(m: Json): Event {
    if EqualsInt(Get(m, "id"), 4) then Reply4
    else if Get(m, "method") == JStr("Page.frameStartedNavigating") then
      var params := GetObject(m, "params");
      if params.JObj? then FrameEvent(Get(params, "frameId"), Get(params, "loaderId")) else Useless
    else if Get(m, "method") == JStr("Page.frameNavigated") then
      var params := GetObject(m, "params");
      var frame := if params.JObj? then GetObject(params, "frame") else JObj(map[]);
      if frame.JObj? then FrameEvent(Get(frame, "id"), Get(frame, "loaderId")) else Useless
    else if Get(m, "method") == JStr("Page.lifecycleEvent") then
      var params := GetObject(m, "params");
      if params.JObj? && Get(params, "name") == JStr("load")
      then LoadEvent(Get(params, "frameId"), Get(params, "loaderId")) else Useless
    else if Get(m, "method") == JStr("Fetch.requestPaused") then Paused
    else Plain
  }

  /** The frame and loader that a good navigation reply names. */
  function ReplyTarget(m: Json): Option<(string, string)> {
    var result := GetObject(m, "result");
    if Has(m, "error") || !result.JObj? || Truthy(Get(result, "errorText")) then None
    else
      match (Text(Get(result, "frameId")), Text(Get(result, "loaderId")))
      case (Some(frame), Some(loader)) => Some((frame, loader))
      case _ => None
  }

  ghost predicate HasId(m: Json, id: int) {
    var at := At(m, ["id"]);
    at == Some(JNum(id as real)) || (at == Some(JBool(true)) && id == 1) || (at == Some(JBool(false)) && id == 0)
  }

  ghost predicate IsMethod(m: Json, name: string) {
    !HasId(m, 4) && At(m, ["method"]) == Some(JStr(name))
  }

  /** Missing or an object. */
  ghost predicate ObjectOrMissing(j: Option<Json>) {
    j.Some? ==> j.value.JObj?
  }

  lemma IdReads(m: Json, id: int)
    ensures EqualsInt(Get(m, "id"), id) <==> HasId(m, id)
  {
    Reads(m, "id");
    ReadsInt(Get(m, "id"), id);
    hide At, Get, EqualsInt;
  }

  lemma MethodReads(m: Json, name: string)
    ensures Get(m, "method") == JStr(name) <==> At(m, ["method"]) == Some(JStr(name))
  {
    Reads(m, "method");
    hide At, Get;
  }

  /** What a message is, by the fields it has. */
  lemma ClassifyReads(m: Json)
    ensures Classify(m).Reply4? <==> HasId(m, 4)
    ensures Classify(m).Paused? <==> IsMethod(m, "Fetch.requestPaused")
    ensures Classify(m).Plain? <==>
      && !HasId(m, 4)
      && !IsMethod(m, "Page.frameStartedNavigating") && !IsMethod(m, "Page.frameNavigated")
      && !IsMethod(m, "Page.lifecycleEvent") && !IsMethod(m, "Fetch.requestPaused")
  {
    hide At, Get, GetObject, Has, EqualsInt, HasId;
    IdReads(m, 4);
    MethodReads(m, "Page.frameStartedNavigating");
    MethodReads(m, "Page.frameNavigated");
    MethodReads(m, "Page.lifecycleEvent");
    MethodReads(m, "Fetch.requestPaused");
  }

  /** Which messages announce a loader for a frame. */
  lemma FrameEventReads(m: Json, frame: Json, loader: Json)
    ensures Classify(m) == FrameEvent(frame, loader) <==>
      || (IsMethod(m, "Page.frameStartedNavigating") && ObjectOrMissing(At(m, ["params"]))
          && frame == OrNull(At(m, ["params", "frameId"])) && loader == OrNull(At(m, ["params", "loaderId"])))
      || (IsMethod(m, "Page.frameNavigated") && ObjectOrMissing(At(m, ["params", "frame"]))
          && frame == OrNull(At(m, ["params", "frame", "id"]))
          && loader == OrNull(At(m, ["params", "frame", "loaderId"])))
  {
    hide At, Get, GetObject, Has, EqualsInt, HasId, ObjectOrMissing;
    IdReads(m, 4);
    MethodReads(m, "Page.frameStartedNavigating");
    MethodReads(m, "Page.frameNavigated");
    ParamsRead(m, "frameId");
    ParamsRead(m, "loaderId");
    FrameReads(m, "id");
    FrameReads(m, "loaderId");
  }

  /** Which messages report that a document has loaded. */
  lemma LoadEventReads(m: Json, frame: Json, loader: Json)
    ensures Classify(m) == LoadEvent(frame, loader) <==>
      && IsMethod(m, "Page.lifecycleEvent") && At(m, ["params", "name"]) == Some(JStr("load"))
      && frame == OrNull(At(m, ["params", "frameId"])) && loader == OrNull(At(m, ["params", "loaderId"]))
  {
    hide At, Get, GetObject, Has, EqualsInt, HasId;
    IdReads(m, 4);
    MethodReads(m, "Page.lifecycleEvent");
    ParamsRead(m, "frameId");
    ParamsRead(m, "loaderId");
    ParamsRead(m, "name");
  }

  lemma ParamsRead(m: Json, key: string)
    ensures GetObject(m, "params").JObj? <==> ObjectOrMissing(At(m, ["params"]))
    ensures Get(GetObject(m, "params"), key) == OrNull(At(m, ["params", key]))
    ensures At(m, ["params", key]).Some? ==> At(m, ["params"]).Some? && At(m, ["params"]).value.JObj?
  {
    Reads(m, "params");
    Reads(GetObject(m, "params"), key);
    AtTwo(m, "params", key);
    AtOne(GetObject(m, "params"), key);
    AtOne(JObj(map[]), key);
    hide At, Get, GetObject;
  }

  lemma FrameReads(m: Json, key: string)
    ensures !GetObject(m, "params").JObj? ==> GetObject(GetObject(m, "params"), "frame") == JObj(map[])
    ensures GetObject(GetObject(m, "params"), "frame").JObj? <==> ObjectOrMissing(At(m, ["params", "frame"]))
    ensures Get(GetObject(GetObject(m, "params"), "frame"), key) == OrNull(At(m, ["params", "frame", key]))
  {
    Reads(m, "params");
    Reads(GetObject(m, "params"), "frame");
    Reads(GetObject(GetObject(m, "params"), "frame"), key);
    AtTwo(m, "params", "frame");
    AtThree(m, "params", "frame", key);
    AtOne(GetObject(m, "params"), "frame");
    AtOne(JObj(map[]), "frame");
    AtOne(JObj(map[]), key);
    hide At, Get, GetObject;
  }

  /** A navigation reply is good exactly if it has no error, no error text, and names a frame and a loader. */
  lemma ReplyTargetReads(m: Json, frame: string, loader: string)
    ensures ReplyTarget(m) == Some((frame, loader)) <==>
      && At(m, ["error"]).None? && Blank(At(m, ["result", "errorText"])) && frame != "" && loader != ""
      && At(m, ["result", "frameId"]) == Some(JStr(frame)) && At(m, ["result", "loaderId"]) == Some(JStr(loader))
  {
    Reads(m, "error");
    Reads(m, "result");
    var result := GetObject(m, "result");
    Reads(result, "errorText");
    Reads(Get(result, "errorText"), "");
    Reads(result, "frameId");
    Reads(Get(result, "frameId"), "");
    Reads(result, "loaderId");
    Reads(Get(result, "loaderId"), "");
    AtTwo(m, "result", "errorText");
    AtTwo(m, "result", "frameId");
    AtTwo(m, "result", "loaderId");
    AtOne(JObj(map[]), "errorText");
    AtOne(JObj(map[]), "frameId");
    AtOne(JObj(map[]), "loaderId");
    AtOne(result, "errorText");
    AtOne(result, "frameId");
    AtOne(result, "loaderId");
    hide At, Get, GetObject, Has, Truthy, Text;
  }

  // --------------------------------------- what a history of messages amounts to

  /** The loader last announced for a frame. */
  ghost function Announced(seen: seq<Json>, frame: string): Option<string> {
    if seen == [] then None
    else
      var last := Classify(seen[|seen| - 1]);
      if last.FrameEvent? && last.frame == JStr(frame) && Text(last.loader).Some? then Text(last.loader)
      else Announced(seen[..|seen| - 1], frame)
  }

  /** The loaders for which a load event arrived. */
  ghost function Loaded(seen: seq<Json>): set<string> {
    if seen == [] then {}
    else
      var last := Classify(seen[|seen| - 1]);
      Loaded(seen[..|seen| - 1]) +
      if last.LoadEvent? && Text(last.loader).Some? then {Text(last.loader).value} else {}
  }

  /** The target of the latest reply to `Page.navigate`. */
  ghost function Target(seen: seq<Json>): Option<(string, string)> {
    if seen == [] then None
    else if Classify(seen[|seen| - 1]).Reply4? then ReplyTarget(seen[|seen| - 1])
    else Target(seen[..|seen| - 1])
  }

  /** The document in the main frame: the loader last announced for it, or the one the reply named. */
  ghost function Current(seen: seq<Json>): Option<string> {
    match Target(seen)
    case None => None
    case Some((frame, loader)) =>
      match Announced(seen, frame)
      case None => Some(loader)
      case announced => announced
  }

  ghost predicate Ready(seen: seq<Json>) {
    Current(seen).Some? && Current(seen).value in Loaded(seen)
  }

  /** The message after `seen` reports something about the main frame that is not document `loader`. */
  ghost predicate Leaves(seen: seq<Json>, m: Json, loader: string) {
    && Target(seen).Some?
    && match Classify(m)
       case FrameEvent(f, l) => f == JStr(Target(seen).value.0) && l != JStr(loader)
       case LoadEvent(f, l) => f == JStr(Target(seen).value.0) && l != JStr(loader)
       case _ => false
  }

  ghost predicate StaysOn(seen: seq<Json>, from: nat, loader: string) {
    forall i :: from <= i < |seen| ==> !Leaves(seen[..i], seen[i], loader)
  }

  /** The evaluation was sent when exactly `sentAt` messages had been processed: the first moment at
      which the current document had loaded. */
  ghost predicate SentAt(seen: seq<Json>, sentAt: nat, loader: string) {
    && sentAt <= |seen|
    && Current(seen[..sentAt]) == Some(loader)
    && loader in Loaded(seen[..sentAt])
    && forall j :: 0 < j < sentAt ==> !Ready(seen[..j])
  }

  // -------------------------------------------------------------- the tracker

  /** The variables of the loop that follow frames and loaders. */
  class Tracker {
    var frame: Option<string>
    var loader: Option<string>
    var frameLoaders: map<string, string>
    var loaded: set<string>
    ghost var seen: seq<Json>

    constructor ()
      ensures Valid() && seen == []
    {
      frame, loader, frameLoaders, loaded, seen := None, None, map[], {}, [];
    }

    ghost predicate Valid()
      reads this
    {
      && frame == (if Target(seen).None? then None else Some(Target(seen).value.0))
      && loader == Current(seen)
      && (forall f :: f in frameLoaders <==> Announced(seen, f).Some?)
      && (forall f :: f in frameLoaders ==> Announced(seen, f) == Some(frameLoaders[f]))
      && loaded == Loaded(seen)
    }

    method OnReply(m: Json) returns (ok: bool)
      requires Valid() && Classify(m).Reply4?
      modifies this
      ensures ok <==> ReplyTarget(m).Some?
      ensures ok ==> Valid() && seen == old(seen) + [m] && frame.Some?
    {
      hide Classify, Announced, Loaded, Target;
      if Has(m, "error") {
        return false;
      }
      var result := GetObject(m, "result");
      if !result.JObj? || Truthy(Get(result, "errorText")) {
        return false;
      }
      var loaderId := Text(Get(result, "loaderId"));
      if loaderId.None? {
        return false;
      }
      var frameId := Text(Get(result, "frameId"));
      if frameId.None? {
        return false;
      }
      Extend(seen, m);
      assert ReplyTarget(m) == Some((frameId.value, loaderId.value));
      hide ReplyTarget;
      frame := frameId;
      loader := Some(if frameId.value in frameLoaders then frameLoaders[frameId.value] else loaderId.value);
      seen := seen + [m];
      return true;
    }

    method OnFrameEvent(m: Json)
      requires Valid() && Classify(m).FrameEvent?
      modifies this
      ensures Valid() && seen == old(seen) + [m] && frame == old(frame)
    {
      hide Classify, Announced, Loaded, Target;
      var frameId, loaderId := Classify(m).frame, Text(Classify(m).loader);
      Extend(seen, m);
      if frameId.JStr? && loaderId.Some? {
        frameLoaders := frameLoaders[frameId.s := loaderId.value];
        if frame == Some(frameId.s) {
          loader := loaderId;
        }
      }
      seen := seen + [m];
    }

    method OnLoad(m: Json)
      requires Valid() && Classify(m).LoadEvent?
      modifies this
      ensures Valid() && seen == old(seen) + [m] && frame == old(frame)
    {
      hide Classify, Announced, Loaded, Target;
      var loaderId := Text(Classify(m).loader);
      Extend(seen, m);
      if loaderId.Some? {
        loaded := loaded + {loaderId.value};
      }
      seen := seen + [m];
    }

    ghost method OnOther(m: Json)
      requires Valid() && (Classify(m).Paused? || Classify(m).Useless? || Classify(m).Plain?)
      modifies this`seen
      ensures Valid() && seen == old(seen) + [m] && frame == old(frame)
    {
      hide Classify, Announced, Loaded, Target;
      Extend(seen, m);
      seen := seen + [m];
    }
  }

  /** One more message changes only what it speaks about. */
  lemma Extend(seen: seq<Json>, m: Json)
    ensures var more, e := seen + [m], Classify(m);
      && (forall f :: Announced(more, f) ==
           if e.FrameEvent? && e.frame == JStr(f) && Text(e.loader).Some? then Text(e.loader) else Announced(seen, f))
      && Loaded(more) ==
           Loaded(seen) + (if e.LoadEvent? && Text(e.loader).Some? then {Text(e.loader).value} else {})
      && Target(more) == if e.Reply4? then ReplyTarget(m) else Target(seen)
  {
  }

  // ----------------------------------------------------------------- the machine

  /** Commands carry the ids 1, 2, 3, ... in the order in which they are sent. */
  ghost predicate Numbered(sent: seq<Command>) {
    forall i :: 0 <= i < |sent| ==> sent[i].id == i + 1
  }

  ghost predicate NoEvaluation(sent: seq<Command>) {
    forall c :: c in sent ==> c.name != "Runtime.evaluate"
  }

  /** Exactly one evaluation was sent, with this id. */
  ghost predicate OneEvaluation(sent: seq<Command>, id: int) {
    forall i :: 0 <= i < |sent| ==> (sent[i].name == "Runtime.evaluate" <==> sent[i].id == id)
  }

  /** What a reply to a command says; anything but an object counts as an empty result. */
  function CommandReply(m: Json): Result<Json, NavigationError> {
    var result := GetObject(m, "result");
    if Has(m, "error") then Err(CommandRejected) else Ok(if result.JObj? then result else JObj(map[]))
  }

  /** None of these messages is the reply with the given id. */
  ghost predicate Skipped(stream: seq<Json>, from: nat, to: nat, id: int)
    requires to <= |stream|
  {
    forall i :: from <= i < to ==> stream[i].JObj? && !EqualsInt(Get(stream[i], "id"), id)
  }

  /** Skip messages up to the reply with the given id. */
  method WaitForResponse(ws: Socket, id: int) returns (r: Result<Json, NavigationError>)
    requires ws.position <= |ws.incoming|
    modifies ws`position
    ensures old(ws.position) <= ws.position <= |ws.incoming|
    ensures r.Err? ==> r.error in {TimedOut, BadMessage, CommandRejected}
    ensures r == Err(TimedOut) ==>
      ws.position == |ws.incoming| && Skipped(ws.incoming, old(ws.position), ws.position, id)
    ensures r != Err(TimedOut) ==>
      && old(ws.position) < ws.position
      && Skipped(ws.incoming, old(ws.position), ws.position - 1, id)
      && var m := ws.incoming[ws.position - 1];
        && (r == Err(BadMessage) <==> !m.JObj?)
        && (r != Err(BadMessage) ==> EqualsInt(Get(m, "id"), id) && r == CommandReply(m))
  {
    while true
      invariant old(ws.position) <= ws.position <= |ws.incoming|
      invariant Skipped(ws.incoming, old(ws.position), ws.position, id)
      decreases |ws.incoming| - ws.position
    {
      var m := ws.Recv();
      if m.None? {
        return Err(TimedOut);
      }
      if !m.value.JObj? {
        return Err(BadMessage);
      }
      if EqualsInt(Get(m.value, "id"), id) {
        return CommandReply(m.value);
      }
    }
  }

  /** The value of an evaluation reply. */
  function EvaluationValue(m: Json): Option<Json> {
    var payload := GetObject(m, "result");
    if Has(m, "error") || !payload.JObj? || Truthy(Get(payload, "exceptionDetails")) then None
    else
      var result := GetObject(payload, "result");
      if !result.JObj? then Some(JNull)
      else if Has(result, "value") then Some(Get(result, "value"))
      else if Has(result, "description") then Some(Get(result, "description"))
      else Some(JNull)
  }

  /** An evaluation reply carries a value: the field "value" of its remote object, or else its description, or
      else null; unless it reports an error, an exception, or a result that is no object. */
  ghost predicate Carries(m: Json, value: Json) {
    && At(m, ["error"]).None? && ObjectOrMissing(At(m, ["result"])) && Blank(At(m, ["result", "exceptionDetails"]))
    && match At(m, ["result", "result", "value"])
       case Some(v) => value == v
       case None => value == OrNull(At(m, ["result", "result", "description"]))
  }

  lemma EvaluationReads(m: Json, value: Json)
    ensures EvaluationValue(m) == Some(value) <==> Carries(m, value)
  {
    Reads(m, "error");
    Reads(m, "result");
    var payload := GetObject(m, "result");
    var result := GetObject(payload, "result");
    Reads(payload, "exceptionDetails");
    Reads(Get(payload, "exceptionDetails"), "");
    Reads(payload, "result");
    Reads(result, "value");
    Reads(result, "description");
    AtTwo(m, "result", "exceptionDetails");
    AtTwo(m, "result", "result");
    AtThree(m, "result", "result", "value");
    AtThree(m, "result", "result", "description");
    AtOne(JObj(map[]), "exceptionDetails");
    AtOne(JObj(map[]), "result");
    AtOne(JObj(map[]), "value");
    AtOne(JObj(map[]), "description");
    AtOne(result, "value");
    AtOne(result, "description");
    hide At, Get, GetObject, Has, Truthy;
  }

  /** The reply to a command is a rejection exactly if it has an error. */
  lemma CommandReplyReads(m: Json)
    ensures CommandReply(m) == Err(CommandRejected) <==> At(m, ["error"]).Some?
    ensures CommandReply(m).Err? ==> CommandReply(m) == Err(CommandRejected)
    ensures CommandReply(m).Ok? ==>
      var result := At(m, ["result"]);
      CommandReply(m).value == if result.Some? && result.value.JObj? then result.value else JObj(map[])
  {
    Reads(m, "error");
    Reads(m, "result");
    hide At, GetObject, Has;
  }

  const PREPARATION := [Command(1, "Page.enable"), Command(2, "Page.setLifecycleEventsEnabled"),
                        Command(3, "Fetch.enable"), Command(4, "Page.navigate")]

  lemma PreparationIs()
    ensures PREPARATION == [Command(1, "Page.enable"), Command(2, "Page.setLifecycleEventsEnabled"),
                            Command(3, "Fetch.enable"), Command(4, "Page.navigate")]
  {
  }

  lemma PreparationIsNumbered(sent: seq<Command>)
    requires sent <= PREPARATION
    ensures Numbered(sent) && NoEvaluation(sent)
  {
    forall i | 0 <= i < |sent|
      ensures sent[i].id == i + 1 && sent[i].name != "Runtime.evaluate"
    {
      assert sent[i] == PREPARATION[i];
    }
  }

  /** Why the preparation fails: nothing more came, the last message is no object, or it rejects the command
      sent last; or a sending failed. */
  ghost predicate Unprepared(e: NavigationError, stream: seq<Json>, from: nat, position: nat, sent: seq<Command>)
    requires position <= |stream|
  {
    match e
    case TimedOut => position == |stream|
    case BadMessage => from < position && !stream[position - 1].JObj?
    case CommandRejected =>
      from < position && HasId(stream[position - 1], |sent|) && At(stream[position - 1], ["error"]).Some?
    case SendFailed => true
    case _ => false
  }

  lemma BrokenPreparation(stream: seq<Json>, from: nat)
    ensures forall position, sent :: 0 <= position <= |stream| ==> Unprepared(SendFailed, stream, from, position, sent)
  {
  }

  lemma WaitFailed(e: NavigationError, stream: seq<Json>, from: nat, position: nat, sent: seq<Command>)
    requires position <= |stream| && (e == TimedOut ==> position == |stream|)
    requires e in {TimedOut, BadMessage, CommandRejected}
    requires e != TimedOut ==>
      && from < position
      && var m := stream[position - 1];
        && (e == BadMessage <==> !m.JObj?)
        && (e != BadMessage ==> EqualsInt(Get(m, "id"), |sent|) && CommandReply(m) == Err(e))
    ensures Unprepared(e, stream, from, position, sent)
  {
    if e != TimedOut {
      IdReads(stream[position - 1], |sent|);
      CommandReplyReads(stream[position - 1]);
    }
    hide At, Get, EqualsInt, HasId, CommandReply;
  }

  /** Page.enable, lifecycle events and request interception, each awaited; then Page.navigate. `replies`
      are the places of the three good replies in the stream. */
  method Prepare(ws: Socket) returns (r: Result<(), NavigationError>, ghost replies: seq<nat>)
    requires ws.position <= |ws.incoming| && ws.sent == [] && !ws.broken
    modifies ws`position, ws`sent, ws`broken
    ensures ws.position <= |ws.incoming|
    ensures r.Ok? ==> ws.sent == PREPARATION && |ws.sent| == 4
    ensures r.Err? ==>
      ws.sent < PREPARATION && Unprepared(r.error, ws.incoming, old(ws.position), ws.position, ws.sent)
    ensures ws.broken <==> r == Err(SendFailed)
    ensures r.Ok? ==> |replies| == 3 && replies[0] < replies[1] < replies[2] == ws.position - 1
    ensures r.Ok? ==> forall k :: 0 <= k < 3 ==>
      var m := ws.incoming[replies[k]]; EqualsInt(Get(m, "id"), k + 1) && CommandReply(m).Ok?
  {
    hide CommandReply, Skipped, EqualsInt, Get, Unprepared, HasId, At;
    replies := [];
    ghost var from := ws.position;
    BrokenPreparation(ws.incoming, from);
    var ok := ws.Send(PREPARATION[0]);
    if !ok { return Err(SendFailed), replies; }
    var enabled := WaitForResponse(ws, 1);
    if enabled.Err? {
      WaitFailed(enabled.error, ws.incoming, from, ws.position, ws.sent);
      return Err(enabled.error), replies;
    }
    replies := [ws.position - 1];
    ok := ws.Send(PREPARATION[1]);
    if !ok { return Err(SendFailed), replies; }
    var lifecycle := WaitForResponse(ws, 2);
    if lifecycle.Err? {
      WaitFailed(lifecycle.error, ws.incoming, from, ws.position, ws.sent);
      return Err(lifecycle.error), replies;
    }
    replies := replies + [ws.position - 1];
    ok := ws.Send(PREPARATION[2]);
    if !ok { return Err(SendFailed), replies; }
    var fetch := WaitForResponse(ws, 3);
    if fetch.Err? {
      WaitFailed(fetch.error, ws.incoming, from, ws.position, ws.sent);
      return Err(fetch.error), replies;
    }
    replies := replies + [ws.position - 1];
    ok := ws.Send(PREPARATION[3]);
    if !ok { return Err(SendFailed), replies; }
    return Ok(()), replies;
  }

  ghost predicate Answers(m: Json, id: int) {
    Classify(m).Plain? && EqualsInt(Get(m, "id"), id)
  }

  /** Nothing has been evaluated, because no current document had loaded yet. */
  ghost predicate Waiting(seen: seq<Json>, sent: seq<Command>) {
    && NoEvaluation(sent)
    && forall j :: 0 < j <= |seen| ==> !Ready(seen[..j])
  }

  /** The evaluation went out for the loaded document `loader`; since then nothing has left that
      document and no reply has come. */
  ghost predicate Evaluating(seen: seq<Json>, sent: seq<Command>, sentAt: nat, loader: string, id: int) {
    && SentAt(seen, sentAt, loader)
    && StaysOn(seen, sentAt, loader)
    && OneEvaluation(sent, id) && 1 <= id <= |sent|
    && forall i :: sentAt <= i < |seen| ==> !Answers(seen[i], id)
  }

  /** The one evaluation in flight: its command id and the document it was sent for. */
  datatype Evaluation = Evaluation(id: int, loader: string)

  ghost predicate Phase(seen: seq<Json>, sent: seq<Command>, evaluation: Option<Evaluation>, sentAt: nat) {
    match evaluation
    case None => Waiting(seen, sent)
    case Some(e) => Evaluating(seen, sent, sentAt, e.loader, e.id)
  }

  lemma NumberedMore(sent: seq<Command>, name: string)
    requires Numbered(sent)
    ensures Numbered(sent + [Command(|sent| + 1, name)])
  {
  }

  lemma CurrentHasTarget(seen: seq<Json>)
    requires Current(seen).Some?
    ensures Target(seen).Some?
  {
  }

  lemma {:induction false} PrefixesOfMore(seen: seq<Json>, m: Json)
    ensures forall j :: 0 <= j <= |seen| ==> (seen + [m])[..j] == seen[..j]
    ensures (seen + [m])[..|seen| + 1] == seen + [m]
  {
  }

  lemma WaitOneMore(seen: seq<Json>, m: Json, sent: seq<Command>, sent': seq<Command>)
    requires Waiting(seen, sent) && Numbered(sent)
    requires sent' == sent || sent' == sent + [Command(|sent| + 1, "Fetch.continueRequest")]
    ensures !Ready(seen + [m]) ==> Waiting(seen + [m], sent')
    ensures Ready(seen + [m]) ==>
      var id := |sent'| + 1;
      Evaluating(seen + [m], sent' + [Command(id, "Runtime.evaluate")], |seen| + 1, Current(seen + [m]).value, id)
  {
    hide Ready, Current;
    PrefixesOfMore(seen, m);
    assert NoEvaluation(sent');
    if Ready(seen + [m]) {
      assert SentAt(seen + [m], |seen| + 1, Current(seen + [m]).value) by { CurrentIsLoaded(seen + [m]); }
    }
  }

  lemma CurrentIsLoaded(seen: seq<Json>)
    requires Ready(seen)
    ensures Current(seen) == Some(Current(seen).value) && Current(seen).value in Loaded(seen)
  {
  }

  lemma EvaluateOneMore(seen: seq<Json>, m: Json, sent: seq<Command>, sent': seq<Command>, sentAt: nat,
                        loader: string, id: int)
    requires Evaluating(seen, sent, sentAt, loader, id) && Numbered(sent)
    requires sent' == sent || sent' == sent + [Command(|sent| + 1, "Fetch.continueRequest")]
    requires !Leaves(seen, m, loader) && !Answers(m, id)
    ensures Evaluating(seen + [m], sent', sentAt, loader, id)
  {
    hide Leaves, Answers, Ready, Current;
    PrefixesOfMore(seen, m);
    var more := seen + [m];
    assert forall i :: 0 <= i < |seen| ==> more[i] == seen[i];
    assert more[|seen|] == m && more[..|seen|] == seen;
  }

  lemma PhaseOneMore(seen: seq<Json>, m: Json, sent: seq<Command>, sent': seq<Command>,
                     evaluation: Option<Evaluation>, sentAt: nat)
    requires Phase(seen, sent, evaluation, sentAt) && Numbered(sent)
    requires sent' == sent || sent' == sent + [Command(|sent| + 1, "Fetch.continueRequest")]
    requires evaluation.Some? ==> !Leaves(seen, m, evaluation.value.loader) && !Answers(m, evaluation.value.id)
    ensures Numbered(sent') && Numbered(sent' + [Command(|sent'| + 1, "Runtime.evaluate")])
    ensures evaluation.Some? || !Ready(seen + [m]) ==> Phase(seen + [m], sent', evaluation, sentAt)
    ensures evaluation.None? && Ready(seen + [m]) ==>
      var e := Evaluation(|sent'| + 1, Current(seen + [m]).value);
      Phase(seen + [m], sent' + [Command(e.id, "Runtime.evaluate")], Some(e), |seen| + 1)
  {
    match evaluation
    case None => WaitOneMore(seen, m, sent, sent');
    case Some(e) => EvaluateOneMore(seen, m, sent, sent', sentAt, e.loader, e.id);
  }

  /** The message tells of another document in the main frame, or answers the evaluation when the main
      frame has moved on. */
  ghost predicate Departed(seen: seq<Json>, m: Json, e: Evaluation) {
    Leaves(seen, m, e.loader) || (Answers(m, e.id) && Current(seen) != Some(e.loader))
  }

  /** What a message ends the machine with, if anything, given the messages before it. */
  ghost function Outcome(seen: seq<Json>, m: Json, evaluation: Option<Evaluation>, allowed: Json -> bool)
    : Option<Result<Json, NavigationError>>
  {
    if !m.JObj? then Some(Err(BadMessage))
    else if Classify(m).Reply4? then if ReplyTarget(m).None? then Some(Err(NavigationFailed)) else None
    else if Classify(m).Paused? then if allowed(m) then None else Some(Err(BlockedRequest))
    else if evaluation.None? then None
    else if Departed(seen, m, evaluation.value) then Some(Err(MainFrameNavigated))
    else if Answers(m, evaluation.value.id) then
      var value := EvaluationValue(m);
      Some(if value.None? then Err(EvaluationFailed) else Ok(value.value))
    else None
  }

  /** The message makes the machine send something: an answer to a paused request, or the evaluation. */
  ghost predicate Sends(seen: seq<Json>, m: Json, evaluation: Option<Evaluation>, allowed: Json -> bool) {
    m.JObj? && (Classify(m).Paused?
                || (evaluation.None? && Outcome(seen, m, evaluation, allowed).None? && Ready(seen + [m])))
  }

  /** One message of the loop: the branches, in their order. It ends the machine exactly as the history says,
      unless a sending fails. */
  method Handle(ws: Socket, tracker: Tracker, m: Json, evaluation: Option<Evaluation>, nextId: int,
                allowed: Json -> bool)
    returns (done: Option<Result<Json, NavigationError>>, nextId': int)
    requires tracker.Valid() && (evaluation.Some? ==> tracker.frame.Some?) && !ws.broken
    modifies tracker, ws`sent, ws`broken
    ensures !ws.broken ==> done == Outcome(old(tracker.seen), m, evaluation, allowed)
    ensures ws.broken ==>
      done == Some(Err(SendFailed)) && ws.sent == old(ws.sent) && m.JObj? && Classify(m).Paused?
    ensures done.None? ==>
      && tracker.Valid() && tracker.seen == old(tracker.seen) + [m]
      && (evaluation.Some? ==> tracker.frame.Some?)
      && (evaluation.Some? ==>
            !Leaves(old(tracker.seen), m, evaluation.value.loader) && !Answers(m, evaluation.value.id))
      && (|| (ws.sent == old(ws.sent) && nextId' == nextId)
          || (ws.sent == old(ws.sent) + [Command(nextId, "Fetch.continueRequest")] && nextId' == nextId + 1))
    ensures done == Some(Err(BlockedRequest)) ==> ws.sent == old(ws.sent) + [Command(nextId, "Fetch.failRequest")]
    ensures done.Some? && done != Some(Err(BlockedRequest)) ==> ws.sent == old(ws.sent)
  {
    hide Classify, Announced, Loaded;
    nextId' := nextId;
    if !m.JObj? {
      return Some(Err(BadMessage)), nextId;
    }
    match Classify(m) {
      case Reply4 =>
        var ok := tracker.OnReply(m);
        if !ok {
          return Some(Err(NavigationFailed)), nextId;
        }
      case FrameEvent(frame, loader) =>
        if evaluation.Some? && frame == JStr(tracker.frame.value) && loader != JStr(evaluation.value.loader) {
          return Some(Err(MainFrameNavigated)), nextId;
        }
        tracker.OnFrameEvent(m);
      case LoadEvent(frame, loader) =>
        if evaluation.Some? && frame == JStr(tracker.frame.value) && loader != JStr(evaluation.value.loader) {
          return Some(Err(MainFrameNavigated)), nextId;
        }
        tracker.OnLoad(m);
      case Paused =>
        if !allowed(m) {
          var refused := ws.Send(Command(nextId, "Fetch.failRequest"));
          return Some(Err(if refused then BlockedRequest else SendFailed)), nextId;
        }
        tracker.OnOther(m);
        var continued := ws.Send(Command(nextId, "Fetch.continueRequest"));
        if !continued {
          return Some(Err(SendFailed)), nextId;
        }
        nextId' := nextId + 1;
      case Useless =>
        tracker.OnOther(m);
      case Plain =>
        if evaluation.Some? && EqualsInt(Get(m, "id"), evaluation.value.id) {
          if tracker.loader != Some(evaluation.value.loader) {
            return Some(Err(MainFrameNavigated)), nextId;
          }
          var value := EvaluationValue(m);
          return Some(if value.None? then Err(EvaluationFailed) else Ok(value.value)), nextId;
        }
        tracker.OnOther(m);
    }
    return None, nextId';
  }

  /** Answering a paused request keeps the phase. */
  lemma PhaseKept(seen: seq<Json>, sent: seq<Command>, evaluation: Option<Evaluation>, sentAt: nat, name: string)
    requires Phase(seen, sent, evaluation, sentAt) && Numbered(sent) && name != "Runtime.evaluate"
    ensures Phase(seen, sent + [Command(|sent| + 1, name)], evaluation, sentAt)
  {
    hide Ready, SentAt, StaysOn, Answers;
  }

  lemma GoesOnWithObject(seen: seq<Json>, m: Json, evaluation: Option<Evaluation>, allowed: Json -> bool)
    requires Outcome(seen, m, evaluation, allowed).None?
    ensures m.JObj?
  {
    hide Classify, ReplyTarget, Departed, Answers, EvaluationValue;
  }

  /** One turn of the loop: handle the message, then send the evaluation if its moment has come. */
  method Turn(ws: Socket, tracker: Tracker, m: Json, evaluation: Option<Evaluation>, nextId: int, allowed: Json -> bool,
              ghost sentAt: nat)
    returns (done: Option<Result<Json, NavigationError>>, evaluation': Option<Evaluation>, nextId': int,
             ghost sentAt': nat)
    requires tracker.Valid() && (evaluation.Some? ==> tracker.frame.Some?)
    requires Numbered(ws.sent) && nextId == |ws.sent| + 1
    requires Phase(tracker.seen, ws.sent, evaluation, sentAt) && !ws.broken
    modifies tracker, ws`sent, ws`broken
    ensures Numbered(ws.sent) && old(ws.sent) <= ws.sent
    ensures done.None? ==>
      && tracker.Valid() && tracker.seen == old(tracker.seen) + [m]
      && (evaluation'.Some? ==> tracker.frame.Some?)
      && nextId' == |ws.sent| + 1
      && Phase(tracker.seen, ws.sent, evaluation', sentAt')
    ensures !ws.broken ==> done == Outcome(old(tracker.seen), m, evaluation, allowed)
    ensures ws.broken ==> done == Some(Err(SendFailed)) && Sends(old(tracker.seen), m, evaluation, allowed)
    ensures done.Some? ==> Phase(old(tracker.seen), ws.sent, evaluation, sentAt)
  {
    hide Phase, Outcome, NoEvaluation, Numbered, Leaves, Answers, Current, Announced, Loaded, Target, Classify;
    evaluation', nextId', sentAt' := evaluation, nextId, sentAt;
    ghost var seen, sent := tracker.seen, ws.sent;
    done, nextId' := Handle(ws, tracker, m, evaluation, nextId, allowed);
    NumberedMore(sent, "Fetch.failRequest");
    PhaseKept(seen, sent, evaluation, sentAt, "Fetch.failRequest");
    PhaseKept(seen, sent, evaluation, sentAt, "Fetch.continueRequest");
    NumberedMore(sent, "Fetch.continueRequest");
    if done.None? {
      PhaseOneMore(seen, m, sent, ws.sent, evaluation, sentAt);
      if evaluation.None? && tracker.loader.Some? && tracker.loader.value in tracker.loaded {
        CurrentHasTarget(tracker.seen);
        var ok := ws.Send(Command(nextId', "Runtime.evaluate"));
        if !ok {
          GoesOnWithObject(seen, m, evaluation, allowed);
          done := Some(Err(SendFailed));
          return;
        }
        evaluation', sentAt' := Some(Evaluation(nextId', tracker.loader.value)), |tracker.seen|;
        nextId' := nextId' + 1;
      }
    }
  }

  datatype Report = NotStarted | Navigating(start: nat, sentAt: nat, evaluation: Option<Evaluation>)

  /** What a run promises about its stream, however it ends. Before the loop nothing is evaluated. In the
      loop `seen` are the messages handled after `Page.navigate`: they left the machine waiting or
      evaluating (`Phase`), and it ended with the outcome of the next message, because that message made it
      send something and this failed, or because none came in time. */
  ghost predicate Justified(r: Result<Json, NavigationError>, report: Report, stream: seq<Json>, position: nat,
                            sent: seq<Command>, allowed: Json -> bool, deadline: nat)
    requires position <= |stream|
  {
    match report
    case NotStarted =>
      sent < PREPARATION && r.Err? && Unprepared(r.error, stream, 0, position, sent)
    case Navigating(start, sentAt, evaluation) =>
      && start <= position && Numbered(sent) && PREPARATION <= sent
      && (r == Err(TimedOut) ==>
            && (position == |stream| || position - start == deadline)
            && Phase(stream[start..position], sent, evaluation, sentAt))
      && (r != Err(TimedOut) ==>
            && start < position
            && Phase(stream[start..position - 1], sent, evaluation, sentAt)
            && if r == Err(SendFailed)
               then Sends(stream[start..position - 1], stream[position - 1], evaluation, allowed)
               else Outcome(stream[start..position - 1], stream[position - 1], evaluation, allowed) == Some(r))
  }

  lemma SliceMore(stream: seq<Json>, start: nat, position: nat)
    requires start < position <= |stream|
    ensures stream[start..position] == stream[start..position - 1] + [stream[position - 1]]
  {
  }

  lemma NothingSeen(sent: seq<Command>)
    requires NoEvaluation(sent)
    ensures Phase([], sent, None, 0)
  {
  }

  lemma JustifiedRefusal(error: NavigationError, stream: seq<Json>, from: nat, position: nat, sent: seq<Command>,
                         allowed: Json -> bool, deadline: nat)
    requires sent < PREPARATION && position <= |stream| && Unprepared(error, stream, from, position, sent)
    ensures Justified(Err(error), NotStarted, stream, position, sent, allowed, deadline)
  {
  }

  lemma JustifiedStop(r: Result<Json, NavigationError>, stream: seq<Json>, start: nat, position: nat,
                      sent: seq<Command>,
                      evaluation: Option<Evaluation>, sentAt: nat, allowed: Json -> bool, deadline: nat)
    requires start < position <= |stream| && Numbered(sent) && PREPARATION <= sent
    requires Phase(stream[start..position - 1], sent, evaluation, sentAt)
    requires r != Err(TimedOut)
    requires if r == Err(SendFailed) then Sends(stream[start..position - 1], stream[position - 1], evaluation, allowed)
             else Outcome(stream[start..position - 1], stream[position - 1], evaluation, allowed) == Some(r)
    ensures Justified(r, Navigating(start, sentAt, evaluation), stream, position, sent, allowed, deadline)
  {
    hide Phase, Outcome, Sends, Numbered;
  }

  lemma JustifiedTimeout(stream: seq<Json>, start: nat, position: nat, sent: seq<Command>,
                         evaluation: Option<Evaluation>, sentAt: nat, allowed: Json -> bool, deadline: nat)
    requires start <= position <= |stream| && Numbered(sent) && PREPARATION <= sent
    requires position == |stream| || position - start == deadline
    requires Phase(stream[start..position], sent, evaluation, sentAt)
    ensures Justified(Err(TimedOut), Navigating(start, sentAt, evaluation), stream, position, sent, allowed, deadline)
  {
    hide Phase, Numbered;
  }

  lemma NoTimeoutOrFailure(seen: seq<Json>, m: Json, evaluation: Option<Evaluation>, allowed: Json -> bool)
    ensures Outcome(seen, m, evaluation, allowed) != Some(Err(TimedOut))
    ensures Outcome(seen, m, evaluation, allowed) != Some(Err(SendFailed))
  {
    hide Classify, ReplyTarget, Departed, Answers, EvaluationValue;
  }

  /** The machine over any stream: every value is the answer to the single evaluation, sent at the first
      moment the then current document had loaded, and the main frame stayed on that document from the
      sending to the reply. */
  method NavigateAndEvaluate(ws: Socket, deadline: nat, allowed: Json -> bool)
    returns (r: Result<Json, NavigationError>, ghost report: Report)
    requires ws.position <= |ws.incoming| && ws.sent == [] && !ws.broken
    modifies ws`position, ws`sent, ws`broken
    ensures ws.position <= |ws.incoming|
    ensures ws.broken <==> r == Err(SendFailed)
    ensures Justified(r, report, ws.incoming, ws.position, ws.sent, allowed, deadline)
  {
    hide *;
    ghost var replies;
    ghost var from := ws.position;
    var prepared;
    prepared, replies := Prepare(ws);
    PreparationIsNumbered(ws.sent);
    if prepared.Err? {
      JustifiedRefusal(prepared.error, ws.incoming, from, ws.position, ws.sent, allowed, deadline);
      return Err(prepared.error), NotStarted;
    }
    ghost var start, sentAt: nat := ws.position, 0;
    var tracker := new Tracker();
    var evaluation: Option<Evaluation> := None;
    var nextId := 5;
    var steps := 0;
    NothingSeen(ws.sent);
    while steps < deadline
      invariant start <= ws.position <= |ws.incoming| && !ws.broken && ws.position - start == steps <= deadline
      invariant tracker.Valid() && tracker.seen == ws.incoming[start..ws.position]
      invariant Numbered(ws.sent) && nextId == |ws.sent| + 1 && PREPARATION <= ws.sent
      invariant evaluation.Some? ==> tracker.frame.Some?
      invariant Phase(tracker.seen, ws.sent, evaluation, sentAt)
    {
      steps := steps + 1;
      var received := ws.Recv();
      if received.None? {
        JustifiedTimeout(ws.incoming, start, ws.position, ws.sent, evaluation, sentAt, allowed, deadline);
        return Err(TimedOut), Navigating(start, sentAt, evaluation);
      }
      SliceMore(ws.incoming, start, ws.position);
      ghost var seen := tracker.seen;
      var done, evaluation', nextId', sentAt' := Turn(ws, tracker, received.value, evaluation, nextId, allowed, sentAt);
      if done.Some? {
        NoTimeoutOrFailure(seen, received.value, evaluation, allowed);
        JustifiedStop(done.value, ws.incoming, start, ws.position, ws.sent, evaluation, sentAt, allowed, deadline);
        return done.value, Navigating(start, sentAt, evaluation);
      }
      evaluation, nextId, sentAt := evaluation', nextId', sentAt';
    }
    JustifiedTimeout(ws.incoming, start, ws.position, ws.sent, evaluation, sentAt, allowed, deadline);
    return Err(TimedOut), Navigating(start, sentAt, evaluation);
  }

  /** What a run that returns a value comes to. */
  lemma ValueIsOfLoadedDocument(value: Json, report: Report, stream: seq<Json>, position: nat, sent: seq<Command>,
                                allowed: Json -> bool, deadline: nat)
    requires position <= |stream| && Justified(Ok(value), report, stream, position, sent, allowed, deadline)
    ensures report.Navigating? && report.evaluation.Some? && report.start < position
    ensures var e, seen, m := report.evaluation.value, stream[report.start..position - 1], stream[position - 1];
      && Answers(m, e.id) && Carries(m, value)
      && SentAt(seen, report.sentAt, e.loader) && StaysOn(seen, report.sentAt, e.loader)
      && !Leaves(seen, m, e.loader) && Current(seen) == Some(e.loader)
      && OneEvaluation(sent, e.id)
  {
    hide Classify, Leaves, SentAt, StaysOn, OneEvaluation, Current, EvaluationValue, Numbered, Carries;
    EvaluationReads(stream[position - 1], value);
  }

  /** A run whose evaluation failed got a reply that carries no value. */
  lemma FailureCarriesNothing(value: Json, report: Report, stream: seq<Json>, position: nat, sent: seq<Command>,
                              allowed: Json -> bool, deadline: nat)
    requires position <= |stream|
    requires Justified(Err(EvaluationFailed), report, stream, position, sent, allowed, deadline)
    ensures report.Navigating? && report.evaluation.Some? && report.start < position
    ensures Answers(stream[position - 1], report.evaluation.value.id) && !Carries(stream[position - 1], value)
  {
    hide Classify, Leaves, SentAt, StaysOn, OneEvaluation, Current, EvaluationValue, Numbered, Carries;
    EvaluationReads(stream[position - 1], value);
  }

  /** Without a second navigation reply the final comparison of loaders is already implied: from the
      sending of the evaluation on, the main frame is on the evaluated document after every message. */
  lemma {:induction false} DocumentIsKept(seen: seq<Json>, sentAt: nat, loader: string, n: nat)
    requires sentAt <= n <= |seen| && Current(seen[..sentAt]) == Some(loader) && StaysOn(seen, sentAt, loader)
    requires forall i :: sentAt <= i < |seen| ==> !Classify(seen[i]).Reply4?
    ensures Current(seen[..n]) == Some(loader)
    decreases n
  {
    hide Classify, Announced, Loaded, Target;
    if n > sentAt {
      DocumentIsKept(seen, sentAt, loader, n - 1);
      Extend(seen[..n - 1], seen[n - 1]);
      assert seen[..n] == seen[..n - 1] + [seen[n - 1]];
      assert !Leaves(seen[..n - 1], seen[n - 1], loader);
    }
  }

  /** With one navigation reply, "the main frame navigated" is only ever reported because a message
      announced or loaded another document in the main frame after the evaluation was sent. */
  lemma DepartureIsReal(seen: seq<Json>, last: Json, sentAt: nat, id: int, loader: string)
    requires SentAt(seen, sentAt, loader) && StaysOn(seen, sentAt, loader)
    requires forall i :: sentAt <= i < |seen| ==> !Classify(seen[i]).Reply4?
    ensures Departed(seen, last, Evaluation(id, loader)) <==> Leaves(seen, last, loader)
  {
    DocumentIsKept(seen, sentAt, loader, |seen|);
    assert seen[..|seen|] == seen;
  }
}
