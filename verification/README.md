# Team agent harness: a verified model

A Dafny model of the protocols and algorithms at the core of the team agent harness, with proofs of what
they promise over every input, every stream of events, every failure and every interleaving.
`dafny verify dfyconfig.toml` checks all of it.

| file | what it models |
|---|---|
| `ClientHello.dfy` | the hand-written TLS ClientHello recogniser and the relay that reads the first record |
| `Navigation.dfy`, `Json.dfy` | the DevTools machine that navigates, waits for the document to load and evaluates once |
| `ContextCleanup.dfy` | the isolated browser context, torn down over sockets that may fail at any point |
| `Purge.dfy` | the history purge with its quarantine, its rollback and the recovery at start-up, with crashes anywhere |
| `Utf8.dfy`, `Excerpt.dfy` | UTF-8, its incremental decoding, and the chunked excerpt reader |
| `Graph.dfy`, `ExecutionPlan.dfy` | plan validation, cycle search, layering, upstream closure and artifact dataflow |
| `AgentLoop.dfy` | the agent loop with its token, cost, tool-call, repetition and step budgets |
| `Gateway.dfy`, `ModelCalls.dfy`, `Continuation.dfy` | candidate fallback and its receipt, retry, continuation of partial responses |
| `RunLock.dfy` | run locks with heartbeat threads as a state machine over all interleavings |
| `Benchmark.dfy` | the trial grid, the pairing with the baseline and the quality gain |
| `TraceAccounting.dfy`, `Sums.dfy` | unmatched requests and failed attempts counted from traces |
| `ExcerptBudget.dfy` | sharing one character budget among artifacts |
| `Bytes.dfy`, `Sequences.dfy`, `Wrappers.dfy` | bytes and big-endian numbers, duplicates, result types |

How the outside is modelled: a socket, a provider, a tool, the clock, the browser or the file system may do
anything at each use (`*`, `:|`, or an arbitrary input sequence); storage calls are atomic, and the lock
table refuses a second acquired lock for a run. Money, prices and rates are `real`. Where a method changes
state in the source it changes state here, and its contract ties the new state to functions whose
properties are proved beside it.

Two promises do not hold unconditionally.

- No exit other than the cleanup error should leave a context behind. That fails for a browser that answers
  the creation with a value that is not a non-empty string; an answer without an id, or with null, does end in
  the cleanup error. The confirmation can be relied on exactly when it looks for the id of the context
  (`ContextCleanup.ConfirmationNeedsTheId`). Whether the misnamed context then stays open is up to
  `disposeOnDetach`, which the code asks for: with a browser that is otherwise faultless it stays exactly if
  the browser disregards that request (`ContextCleanup.NavigateAndEvaluate`; a failing run is
  `ContextCleanup.MisnamedContextSurvives`).
- Recovery should always finish the job. Without faults it does so exactly when no quarantine directory mixes
  runs that are still in the database with runs that are gone (`Purge.Store.Recover`). One purge cannot mix a
  directory of its own, since its rows go together; but a committed purge mixes a directory that an earlier,
  failed purge left behind exactly when its runs are only a part of that directory's runs
  (`Purge.Store.PurgeHistory`). A process started on a mixed directory never comes up (`Purge.MixedNeverUp`; a
  failing run is `Purge.SplitPurge`).

## Model

| member | source | states |
|---|---|---|
| ClientHello.IsCompleteClientHello | team_agent_harness/backend/scripts/chrome_cdp_proxy.py:451-508 | The recogniser accepts a payload if and only if it is the serialisation of some well-formed hello: session id of at most 32 bytes, even non-empty cipher list, compression list containing 0, optional extension block whose types are pairwise distinct (sections 4.1.2 and 4.2 of RFC 8446, section 7.4.1.2 of RFC 5246). No index leaves the payload. |
| ClientHello.IsCompleteBody | team_agent_harness/backend/scripts/chrome_cdp_proxy.py:451-508 | The cursor over the body, with its early exits, accepts exactly the bodies whose nested length fields fit |
| ClientHello.CompleteExtensions | team_agent_harness/backend/scripts/chrome_cdp_proxy.py:488-508 | The extension loop accepts exactly the blocks that split into extensions of unseen types, to the last byte |
| ClientHello.ReadSerialised | team_agent_harness/backend/scripts/chrome_cdp_proxy.py:451-508 | Reading back what was printed gives the same hello, for every well-formed hello |
| ClientHello.SerialiseRead | team_agent_harness/backend/scripts/chrome_cdp_proxy.py:451-508 | Printing what was read gives back the same bytes, for every accepted payload |
| ClientHello.SerialiseInjective | team_agent_harness/backend/scripts/chrome_cdp_proxy.py:451-508 | Two hellos with the same bytes are the same hello, so an accepted payload has one meaning |
| ClientHello.FitsExactlyHellos | team_agent_harness/backend/scripts/chrome_cdp_proxy.py:451-508 | The nested length checks hold of a payload if and only if it is a serialised well-formed hello |
| ClientHello.ReadPrintedExtensions | team_agent_harness/backend/scripts/chrome_cdp_proxy.py:488-508 | The extension part of the round trip, from any offset and with any set of types seen before |
| ClientHello.PrintReadExtensions | team_agent_harness/backend/scripts/chrome_cdp_proxy.py:488-508 | What the extension loop walks over is printed back byte for byte and has pairwise distinct types |
| ClientHello.RecvExact | team_agent_harness/backend/scripts/chrome_cdp_proxy.py:511-520 | However the stream is cut up by the socket, exactly the next `length` bytes are delivered, unless a receive fails, which is reported as such and only then, or the stream is too short |
| ClientHello.RelayTlsTunnel | team_agent_harness/backend/scripts/chrome_cdp_proxy.py:428-448 | When no socket fails, a stream is forwarded if and only if it starts with a framed, complete hello record (section 5.1 of RFC 8446), in whatever pieces it arrives; the bytes upstream are then that record, or a prefix of it if sending fails; a failed receive, a failed sending, a stream that ends early and a refused one are each reported as what they are |
| ClientHello.StartDetermined | team_agent_harness/backend/scripts/chrome_cdp_proxy.py:428-448 | A stream that starts with a hello record fixes that record: its header passes the checks and announces exactly its length |
| ClientHello.RecordFromParts | team_agent_harness/backend/scripts/chrome_cdp_proxy.py:431-445 | The five checks on the record header together with the recogniser amount to being a framed hello |
| Navigation.NavigateAndEvaluate | team_agent_harness/backend/scripts/chrome_cdp_proxy.py:1037-1150 | Over every event stream, with sendings failing at will, and for every exit: before the loop only a proper prefix of the four preparing commands is sent; in the loop command ids are consecutive, the evaluation is sent at most once and only at the first moment the then current document had loaded, and the run ends exactly with the outcome the history gives the next message, because that message called for a sending that failed, or for lack of a message or of time |
| Navigation.ValueIsOfLoadedDocument | team_agent_harness/backend/scripts/chrome_cdp_proxy.py:1122-1149 | A returned value answers the one evaluation: it is the "value" of the remote object in the reply, or else its "description", or else null; from the sending of the evaluation to its reply nothing announced or loaded another document in the main frame |
| Navigation.Handle | team_agent_harness/backend/scripts/chrome_cdp_proxy.py:1064-1130 | One message ends the machine with exactly the result or error that the messages before it call for, or not at all, or because its answer to a paused request could not be sent; a refused request is failed, an allowed one continued, nothing else is sent |
| Navigation.Turn | team_agent_harness/backend/scripts/chrome_cdp_proxy.py:1064-1149 | One message and, when the current document has just become loaded, the sending of the evaluation; a sending fails only where one is called for |
| Navigation.Prepare | team_agent_harness/backend/scripts/chrome_cdp_proxy.py:1043-1054 | The four preparing commands in their order, `Page.navigate` only after a good reply to each of the three others, received in order |
| Navigation.WaitForResponse | team_agent_harness/backend/scripts/chrome_cdp_proxy.py:1190-1200 | The answer is the result field of the first message with the awaited id, its error is a rejection, all earlier messages are objects with other ids; no reply at all means the stream ended |
| Navigation.Tracker.OnReply | team_agent_harness/backend/scripts/chrome_cdp_proxy.py:1067-1080 | A navigation reply names the main frame; its loader is the one last announced for it, or else the one in the reply |
| Navigation.Tracker.OnFrameEvent | team_agent_harness/backend/scripts/chrome_cdp_proxy.py:1081-1107 | After every frame event the tracked loader is the one last announced for the main frame |
| Navigation.Tracker.OnLoad | team_agent_harness/backend/scripts/chrome_cdp_proxy.py:1108-1119 | The set of loaded loaders is that of all load events so far |
| Navigation.FailureCarriesNothing | team_agent_harness/backend/scripts/chrome_cdp_proxy.py:1122-1130 | An evaluation is reported as failed only if its reply carries an error, a result that is no object, or a truthy `exceptionDetails` |
| Navigation.EvaluationReads | team_agent_harness/backend/scripts/chrome_cdp_proxy.py:833-844 | The value read from a reply, by the fields of the message: "value", else "description", else null, and none in exactly the three failing cases |
| Navigation.ReplyTargetReads | team_agent_harness/backend/scripts/chrome_cdp_proxy.py:1067-1080 | A navigation reply is good exactly if it has no error, no error text, and names a frame and a loader by non-empty strings |
| Navigation.ClassifyReads | team_agent_harness/backend/scripts/chrome_cdp_proxy.py:1067-1122 | Which messages are navigation replies, paused requests or candidates for the evaluation reply, by their id and method |
| Navigation.FrameEventReads | team_agent_harness/backend/scripts/chrome_cdp_proxy.py:1081-1107 | Which messages announce a loader for a frame, and where they say so |
| Navigation.LoadEventReads | team_agent_harness/backend/scripts/chrome_cdp_proxy.py:1108-1119 | Which messages report a loaded document, and where they say so |
| Navigation.CommandReplyReads | team_agent_harness/backend/scripts/chrome_cdp_proxy.py:1196-1199 | The reply to a command is a rejection exactly if it has an error; a result that is no object counts as empty |
| Navigation.PreparationIs | team_agent_harness/backend/scripts/chrome_cdp_proxy.py:1043-1054 | The four preparing commands by name |
| Navigation.PhaseOneMore | team_agent_harness/backend/scripts/chrome_cdp_proxy.py:1064-1149 | The phase of the machine (waiting, or evaluating one document) survives every message that does not stop it |
| Navigation.DocumentIsKept | team_agent_harness/backend/scripts/chrome_cdp_proxy.py:1120-1124 | Without a second navigation reply the main frame is on the evaluated document after every message from the sending on |
| Navigation.DepartureIsReal | team_agent_harness/backend/scripts/chrome_cdp_proxy.py:1086-1089 | With one navigation reply, a departure is reported if and only if a message announced or loaded another document in the main frame |
| ContextCleanup.NavigateAndEvaluate | team_agent_harness/backend/scripts/chrome_cdp_proxy.py:846-878 | Over every pattern of socket failures, before or after a command took effect, and of acknowledgements without effect: any exit other than the cleanup error leaves the context of the request gone for good, unless the creation was answered with a value that is not a non-empty string. The exchanges with the browser determine the exit: after an opening, the cleanup error exactly when the disposal was refused or not confirmed and the recovery failed too, and else the page decides. With a calm browser this comes to: success or an ordinary failure, as the page loads or not, if one of the two connections, or closing the first, gets rid of the context; an ordinary failure if it is misnamed; the cleanup error if it is not named, or stays; and the context outlives the operation if and only if the browser disregards `disposeOnDetach` and either did not name the context rightly or refused both disposals |
| ContextCleanup.HandleNavigate | team_agent_harness/backend/scripts/chrome_cdp_proxy.py:785-794 | The managed browser is shut down if and only if the operation ends in a cleanup error; success is answered if and only if a value was returned, and never leaves the context behind |
| ContextCleanup.OpenIsolatedTarget | team_agent_harness/backend/scripts/chrome_cdp_proxy.py:881-933 | A failed opening leaves no context, or says that ownership or cleanup is uncertain; a successful one hands over a target inside the new context, for which downloads were denied before. Which of these it is follows from the exchanges. With a calm browser the context survives a failed opening if and only if closing the connection does not dispose of it |
| ContextCleanup.DisposeIsolated | team_agent_harness/backend/scripts/chrome_cdp_proxy.py:936-949 | Success needs an acknowledged and confirmed disposal and means the context is gone; with a calm browser and an open context it succeeds if and only if the disposal is not refused |
| ContextCleanup.ConfirmAbsent | team_agent_harness/backend/scripts/chrome_cdp_proxy.py:952-991 | Success needs two lists of well-formed entries that show neither the context nor a target of it, and means the context is gone; with a browser that never fails it succeeds if and only if context and target are absent |
| ContextCleanup.RecoverOrConfirm | team_agent_harness/backend/scripts/chrome_cdp_proxy.py:994-1025 | On a fresh connection the disposal is tried exactly if the context could not be confirmed absent for another reason than a broken socket; success means the context is gone. With a calm browser an absent context is confirmed, and an open one, with its target, is recovered if and only if the disposal is not refused |
| ContextCleanup.ShowNothingIsExact | team_agent_harness/backend/scripts/chrome_cdp_proxy.py:983-991 | Truthful listings of one moment show nothing if and only if the context and the target are absent |
| ContextCleanup.ConfirmationNeedsTheId | team_agent_harness/backend/scripts/chrome_cdp_proxy.py:983-991 | The confirmation can be relied on for a context, in every state of the browser, if and only if it looks for the id of that context |
| ContextCleanup.MisnamedContextSurvives | team_agent_harness/backend/scripts/chrome_cdp_proxy.py:895-933 | A run in which the creation is answered with something other than a non-empty string and `disposeOnDetach` is disregarded: the request fails like any other, nothing is shut down, the context stays open |
| ContextCleanup.RetiredForGood | team_agent_harness/backend/scripts/chrome_cdp_proxy.py:846-878 | A context that is gone stays gone, with every target ever opened in it, whatever the browser does later |
| Purge.PurgeAcrossCrashes | team_agent_harness/backend/app/api.py:953-989 | A purge stopped anywhere, then any number of recoveries stopped anywhere: the first completed recovery leaves all runs with every file back unchanged, or none of the runs and none of the requested files, and an empty quarantine; from a quarantine without mixed directories a recovery in which nothing goes wrong completes if and only if the purge was not committed or did not split a directory it found |
| Purge.LifetimeKeeps | team_agent_harness/backend/app/api.py:387-391 | Over any sequence of purges, starts, new runs and new files, with failures and crashes anywhere: contents never change, no file is in two places, no file of a run still in the database is lost, no file of a committed purge comes back |
| Purge.NeverMixedUnlessSplit | team_agent_harness/backend/app/api.py:387-391 | A quarantine directory becomes mixed exactly when a committed purge splits one that was left behind; until then every start in which nothing goes wrong succeeds |
| Purge.MixedNeverUp | team_agent_harness/backend/app/core/artifacts.py:368-371 | A store that is down with a mixed directory never comes up again, and its mixed directories keep all their files |
| Purge.SplitPurge | team_agent_harness/backend/app/api.py:953-989 | A real input: a refused purge whose files cannot be moved back, then a purge of one of its two runs; once the process ends, in no lifetime does a later start come up or the file of the remaining run leave the quarantine |
| Purge.RefusedPurge | team_agent_harness/backend/app/api.py:970-982 | A purge that the database refuses and that cannot move the files back leaves them all in one quarantine directory |
| Purge.MixedKeptTrans | team_agent_harness/backend/app/core/artifacts.py:368-371 | Directories that mix present and purged runs keep all their files, recovery after recovery |
| Purge.Store.RestoreOne | team_agent_harness/backend/app/core/artifacts.py:450-471 | One file is moved back unchanged, or is back already, or nothing changes |
| Purge.Store.PurgeHistory | team_agent_harness/backend/app/api.py:953-989 | How a purge ends is what the faults it met make it: finished if and only if nothing failed before the unlinking, a clean failure if and only if one thing failed and everything went back, an unclean one only if a file could not be moved back. A finished purge takes exactly the requested files, reports as missing those that were not there and as rejected those its directory still holds, the three counts adding up, and leaves the quarantine as it was if none was rejected; a database that refuses and files that move make it a clean failure with files and rows as they were; afterwards a directory mixes present and purged runs if and only if the purge was committed and its runs split a directory left by an earlier one |
| Purge.Store.QuarantineFiles | team_agent_harness/backend/app/core/artifacts.py:272-315 | Exactly the requested live files move into the fresh quarantine; on a fault they are moved back, which leaves everything as it was unless a file cannot be moved back; duplicates are refused |
| Purge.Store.RestoreMoves | team_agent_harness/backend/app/core/artifacts.py:449-471 | Files go back last first; what is back is unchanged and what is not is still quarantined; only a file that cannot be moved stops it |
| Purge.Store.DiscardFiles | team_agent_harness/backend/app/core/artifacts.py:322-341 | Every isolated file is counted once: as deleted those that are gone now, as rejected those whose unlinking failed, one for each such fault, and as missing the rest; only files of purged runs are unlinked |
| Purge.Store.Recover | team_agent_harness/backend/app/core/artifacts.py:343-382 | Recovery completes if and only if it meets no fault and no quarantine directory mixes present and purged runs; a completed recovery restores exactly the files whose run is still in the database and reports how many these were, and how many others it deleted; an incomplete one makes no directory mixed or unmixed and takes nothing from a mixed one |
| Purge.Store.RecoverRoot | team_agent_harness/backend/app/core/artifacts.py:368-380 | One quarantine directory goes back as a whole or is unlinked as a whole, and its files are counted as what they were; it fails only if it is mixed or a file cannot be moved or unlinked |
| Purge.Store.ListMoves | team_agent_harness/backend/app/core/artifacts.py:473-485 | The moves read from disk are those of the directory, each once |
| Purge.RollbackUndoes | team_agent_harness/backend/app/core/artifacts.py:449-471 | Restoring the moved files undoes the isolation exactly |
| Purge.RestoreRoot | team_agent_harness/backend/app/core/artifacts.py:373-375 | A restored directory is settled: its files are live and none of it is left |
| Purge.DiscardRoot | team_agent_harness/backend/app/core/artifacts.py:376-380 | A discarded directory is settled: nothing of it is live and none of it is left |
| Purge.MixedRoot | team_agent_harness/backend/app/core/artifacts.py:369-371 | A directory that mixes present and purged runs now was mixed when recovery began, so recovery itself never causes the refusal |
| Utf8.DecodeEncoded | team_agent_harness/backend/app/core/artifacts.py:402-424 | Decoding the encoding of any text gives the text (section 3 of RFC 3629) |
| Utf8.EncodeDecoded | team_agent_harness/backend/app/core/artifacts.py:402-424 | Encoding what was decoded, followed by the pending bytes, gives back the input |
| Utf8.WholeIsInverse | team_agent_harness/backend/app/core/artifacts.py:402-424 | A byte string decodes to a text if and only if it is the encoding of it (section 4 of RFC 3629) |
| Utf8.FirstOfEncoded | team_agent_harness/backend/app/core/artifacts.py:402-424 | The first character of an encoding is recognised with its exact size |
| Utf8.EncodedOfFirst | team_agent_harness/backend/app/core/artifacts.py:402-424 | The bytes taken for a character are exactly its encoding, so overlong forms and surrogates are never recognised |
| Utf8.DecodeInPieces | team_agent_harness/backend/app/core/artifacts.py:402-424 | Decoding two pieces one after the other, carrying the pending bytes over, equals decoding them at once |
| Utf8.InvalidIsHopeless | team_agent_harness/backend/app/core/artifacts.py:402-424 | Bytes are rejected exactly as soon as no text can begin with them, so that a malformed file is reported before a later read error |
| Utf8.UnfinishedIsPrefix | team_agent_harness/backend/app/core/artifacts.py:402-424 | What is kept for the next piece is the beginning of some character |
| Excerpt.ReadTextExcerpt | team_agent_harness/backend/app/core/artifacts.py:397-427 | For every way the file is cut into chunks the result is that of the simple form: the first `max_chars` characters of the whole decoding, truncated exactly when there are more, and the same error otherwise |
| Excerpt.Append | team_agent_harness/backend/app/core/artifacts.py:410-414 | The bounded excerpt keeps representing the text so far |
| Excerpt.InvalidStays | team_agent_harness/backend/app/core/artifacts.py:407-424 | Once a prefix of the file is malformed, so is the whole file |
| ExecutionPlan.DependencyCycle | team_agent_harness/backend/app/core/execution_plan.py:536-563 | An empty result if and only if the dependency relation is acyclic; any other result is a simple cycle: first equals last, neighbours are dependencies, no other repetition |
| ExecutionPlan.CycleSearch.Visit | team_agent_harness/backend/app/core/execution_plan.py:542-557 | The depth-first search terminates, finds a genuine cycle or leaves a set closed under dependencies and free of cycles |
| ExecutionPlan.ValidatePlan | team_agent_harness/backend/app/core/execution_plan.py:95-139 | A plan is accepted if and only if names are unique, references are known, rules for dynamic plans hold, dependencies are acyclic and a sink produces the final artifact |
| ExecutionPlan.LastOrderedStep | team_agent_harness/backend/app/core/quality.py:302-314 | Succeeds if and only if all dependencies are known and acyclic; then every step is listed once, after its dependencies, layer by layer and within a layer in the order of the plan, and the last of them is returned |
| ExecutionPlan.LastStepIsDetermined | team_agent_harness/backend/app/core/quality.py:302-314 | The dependencies and the order of the plan fix the last step: of those on the highest level, the last in the plan |
| ExecutionPlan.LevelsAreUnique | team_agent_harness/backend/app/core/quality.py:302-314 | The levels of the steps are fixed by the dependencies |
| ExecutionPlan.LastStepOfValidPlan | team_agent_harness/backend/app/core/quality.py:302-314 | For a validated plan the layering never gets stuck and its last step is one nothing depends on |
| ExecutionPlan.LastIsSink | team_agent_harness/backend/app/core/quality.py:302-314 | The last step of any complete order is one nothing depends on |
| ExecutionPlan.UpstreamSteps.Of | team_agent_harness/backend/app/core/execution_plan.py:384-392 | The memoised closure is exactly the set of steps reachable by dependencies |
| ExecutionPlan.AvailableArtifacts | team_agent_harness/backend/app/core/execution_plan.py:395-399 | The collected artifact types are exactly those that some upstream step produces |
| ExecutionPlan.ValidateDataflow | team_agent_harness/backend/app/core/execution_plan.py:380-409 | Accepted if and only if every required artifact type is produced by some upstream step |
| ExecutionPlan.AcceptedOrdersAreSafe | team_agent_harness/backend/app/core/execution_plan.py:380-409 | In an accepted plan every order that respects dependencies has each required artifact produced by an earlier step |
| ExecutionPlan.RejectedHasUnsafeOrder | team_agent_harness/backend/app/core/execution_plan.py:380-409 | For a rejected plan there is an order respecting dependencies in which a step lacks an artifact |
| ExecutionPlan.DataflowCheckIsExact | team_agent_harness/backend/app/core/execution_plan.py:380-409 | The check accepts if and only if every order respecting dependencies is safe |
| ExecutionPlan.UpstreamPartRespects | team_agent_harness/backend/app/core/execution_plan.py:380-409 | The steps upstream of one step, in the order of the plan, are themselves a possible run |
| Graph.WalkDescends | team_agent_harness/backend/app/core/execution_plan.py:536-563 | Along a walk the position in any respecting order strictly falls |
| Graph.OrderedIsAcyclic | team_agent_harness/backend/app/core/execution_plan.py:536-563 | A complete order excludes cycles |
| Graph.AcyclicHasOrder | team_agent_harness/backend/app/core/quality.py:302-314 | An acyclic closed relation has a complete order |
| Graph.StuckHasCycle | team_agent_harness/backend/app/core/quality.py:302-314 | A non-empty set of steps that all wait for one another contains a cycle |
| Graph.UpstreamComesFirst | team_agent_harness/backend/app/core/execution_plan.py:384-399 | Everything reachable from a step stands before it in any respecting order |
| AgentLoop.Execute | team_agent_harness/backend/app/core/agent_loop.py:55-317 | Against any model, tools and clock: at most `max_steps` calls of the gateway, one that raised included; at most `max_tool_calls` tool calls reach a tool, exactly those that were admitted, and at most `max_repeated_tool_calls` of one signature; every request carries a transcript whose tool calls are all answered; tokens are below the limit before every call, and with honest responses tokens and cost end within their limits; and the outcome is the one that what happened calls for |
| AgentLoop.Loop | team_agent_harness/backend/app/core/agent_loop.py:120-317 | Every call is the largest that tokens, caller and money allow, offers tools exactly while steps remain and none was refused, and carries the transcript of all earlier ones. The run finishes with a text answer in time, within both budgets, with no refused tool call; it stops for time, tokens, money or a refused tool call only if that is used up or refused, and then returns text if any call brought some; every error has its own cause |
| AgentLoop.HonestRunStaysWithinBudget | team_agent_harness/backend/app/core/agent_loop.py:136-244 | If every response reports a positive split within the estimate and the `max_tokens` it was sent, total tokens never exceed `max_total_tokens` and cost never exceeds `max_cost_usd`, with several route prices |
| AgentLoop.OnlyTheLastCallOvershoots | team_agent_harness/backend/app/core/agent_loop.py:136-244 | For arbitrary responses before every call the budgets are not yet used up; a response with no usable count uses up the token budget and is the last |
| AgentLoop.GrantedTokensArePaidFor | team_agent_harness/backend/app/core/agent_loop.py:474-501 | The granted output tokens, with the estimated input at the dearest prices, cost no more than what remains, and one token more would cost too much, unless the request was met in full or the input alone uses up the money |
| AgentLoop.HonestCost | team_agent_harness/backend/app/core/agent_loop.py:549-585 | With an honest response the cost stays within `max_cost_usd`, whichever route was selected |
| AgentLoop.TokensCharged | team_agent_harness/backend/app/core/agent_loop.py:445-457 | The largest positive token count that a usage reports, in total or in both parts, is charged; without one everything that remains |
| AgentLoop.DearestSplit | team_agent_harness/backend/app/core/agent_loop.py:567-585 | The cost covers every way to divide the unclassified tokens between input and output, and is that of one way |
| AgentLoop.SelectedIsUnique | team_agent_harness/backend/app/core/agent_loop.py:549-565 | An answer has a price exactly if one price alone matches its provider and, if known, its model |
| AgentLoop.DearestExists | team_agent_harness/backend/app/core/agent_loop.py:474-492 | The dearest price of each kind is that of some route, or nothing |
| AgentLoop.SizeRequest | team_agent_harness/backend/app/core/agent_loop.py:150-179 | The size granted to a request is the largest that fits the remaining tokens, the caller's limit and the remaining money; it is refused only when the estimate alone uses up the tokens or not one output token is affordable |
| AgentLoop.OneCall | team_agent_harness/backend/app/core/agent_loop.py:125-207 | One call is made within the budgets and charged what the response reports, or the whole remainder if it reports nothing usable; otherwise exactly the budget that forbids it is named, or the gateway raised or the price of its route is unknown |
| AgentLoop.ToolBudgetsHold | team_agent_harness/backend/app/core/agent_loop.py:273-298 | At most `max_tool_calls` tool calls run, and at most `max_repeated_tool_calls` of one signature |
| AgentLoop.RefusalIsFinal | team_agent_harness/backend/app/core/agent_loop.py:277-286 | After the first refused tool call every later one is refused |
| AgentLoop.NothingRunsAfterRefusal | team_agent_harness/backend/app/core/agent_loop.py:277-286 | Nothing runs after a refused tool call |
| AgentLoop.RanIsAmong | team_agent_harness/backend/app/core/agent_loop.py:273-298 | What ran is among what was requested, no more often |
| AgentLoop.TranscriptIsAnswered | team_agent_harness/backend/app/core/agent_loop.py:270-305 | In the messages of the loop every assistant tool call is answered by exactly one tool message, in order |
| AgentLoop.Tools.One | team_agent_harness/backend/app/core/agent_loop.py:273-305 | One tool call runs or is refused by the budgets, and is answered either way; only a call that runs can fail |
| AgentLoop.Tools.Round | team_agent_harness/backend/app/core/agent_loop.py:270-305 | All tool calls of a response are handled in order, after the assistant message that asked for them |
| AgentLoop.Judge | team_agent_harness/backend/app/core/agent_loop.py:208-306 | After a call: budgets first, then a final answer, then its tool calls; each exit is the one called for: a text answer in time and within the budgets finishes the run, or stops it for the refused tool call |
| AgentLoop.OutcomeIsDetermined | team_agent_harness/backend/app/core/agent_loop.py:120-317 | What happened in a run, its calls, the tool calls it handled and the last act of clock, gateway and tools, determines how it ends |
| AgentLoop.FinalAnswerCounts | team_agent_harness/backend/app/core/agent_loop.py:246-267 | A run that ends with a text answer in time and within the budgets is finished if and only if no tool call was refused, and is otherwise stopped by the tool-call or repetition budget |
| Gateway.Complete | team_agent_harness/backend/app/core/model_runtime.py:605-955 | Over all provider behaviours and routing decisions: a candidate is called only if it breaks no rule (no real provider for an unconfirmed run-bound request, no mock or unapproved real provider as a fallback), was found usable and, with several candidates, time was left, and at most 2 x (1 + max_continuations) times; a candidate that was reached and breaks a rule gets a line that names the first such rule; the receipt names candidates 1 to k in order, every line for a reason that did occur, as many lines for a candidate as attempts are reported, with a success only in last place and exactly on success; every called candidate but the successful one has failed with the error its last answer came to; the next one is tried exactly after a transient error, or an incomplete or invalid response with a candidate left; otherwise that error is the result. Without one, the route fails before any call if the primary is not ready, else only when all candidates are dealt with or time is up |
| Gateway.Call | team_agent_harness/backend/app/core/model_runtime.py:752-920 | One candidate: its calls, its receipt lines, its failure, and the decision to end the route with a success or a final error or to go on after a retryable one |
| Gateway.OrderlyCovers | team_agent_harness/backend/app/core/model_runtime.py:640-920 | An orderly receipt has a line for every candidate from 1 to k |
| Gateway.BarredReads | team_agent_harness/backend/app/core/model_runtime.py:641-690 | Which rule, if any, keeps a candidate from being called, by the fields of the request and the candidate |
| ModelCalls.TryCandidate | team_agent_harness/backend/app/core/model_runtime.py:752-792 | A second try follows an invalid response and nothing else, there is no third, and it is only left out for lack of time, which is asked for before; the last try is the result; each try is a call with continuations |
| ModelCalls.CompleteWithContinuations | team_agent_harness/backend/app/core/model_runtime.py:1020-1097 | At most 1 + max_continuations calls; a partial response is always continued while time, which is asked for before each continuation, and the limit last; the first assembly is the first text and every later one merges in the text of the next response; a returned text is complete and is the last assembly, with the attempts of all responses; an error is the one that came, or says that the response stayed incomplete |
| Gateway.CallsAreLawful | team_agent_harness/backend/app/core/model_runtime.py:640-700 | Calling a permitted later candidate keeps all calls in order, permitted and bounded for each candidate |
| Gateway.NextCandidate | team_agent_harness/backend/app/core/model_runtime.py:640-870 | After the calls to the next candidate all calls are still permitted, in order and bounded, and earlier failures and receipt lines still hold |
| Continuation.Merge | team_agent_harness/backend/app/core/model_runtime.py:1522-1530 | The old text stays a prefix and the left-stripped continuation becomes the suffix, joined on their longest overlap of at most 2000 characters, or by one newline without one; a blank continuation changes nothing |
| Continuation.LStrip | team_agent_harness/backend/app/core/model_runtime.py:1523-1525 | Exactly the leading white space is removed |
| Continuation.SpacesAre | team_agent_harness/backend/app/core/model_runtime.py:1523-1525 | The characters that count as white space, one by one |
| RunLock.MutualExclusion | team_agent_harness/backend/app/core/run_control.py:86-151 | In every interleaving of callers and heartbeat threads, with storage calls failing at will, two callers between acquiring and releasing work on different runs |
| RunLock.ReleasedStaysReleased | team_agent_harness/backend/app/core/run_control.py:285-320 | A released record is never acquired again, however late a heartbeat writes |
| RunLock.EveryExitReleases | team_agent_harness/backend/app/core/run_control.py:98-104 | A caller that has left has its record released, now and later, unless reading it back failed or all three writes did |
| RunLock.LeavingNeverStuck | team_agent_harness/backend/app/core/run_control.py:98-104 | A caller whose closure is over always has a failure-free step to take, whatever the others do |
| RunLock.LeavingIsShort | team_agent_harness/backend/app/core/run_control.py:98-104 | Once its closure is over, a caller and its heartbeat take at most eight more steps in any interleaving |
| RunLock.StepKeepsInv | team_agent_harness/backend/app/core/run_control.py:255-320 | Every step keeps: a record is acquired exactly while its caller holds it, records are not shared, one acquired record for each run, the heartbeat is alive only until the join |
| RunLock.AlwaysInv | team_agent_harness/backend/app/core/run_control.py:255-320 | The same in every state of every execution |
| RunLock.BeatChangesNothing | team_agent_harness/backend/app/core/run_control.py:285-303 | Storing the copy a heartbeat read earlier never undoes a release |
| RunLock.FailuresAccounted | team_agent_harness/backend/app/core/run_control.py:305-320 | At every point of an execution the failed storage calls of a release are those its state says |
| RunLock.WholeRun | team_agent_harness/backend/app/core/run_control.py:255-320 | A run from the acquisition to the released record exists, with a heartbeat that writes once and fails once and a release that fails once |
| RunLock.AbandonedRun | team_agent_harness/backend/app/core/run_control.py:255-320 | So does an abandoned one with a crashed heartbeat whose record cannot be read back |
| RunLock.ThreadlessRun | team_agent_harness/backend/app/core/run_control.py:255-320 | So do one without a thread whose three writes fail, and one that finds the run locked |
| Benchmark.Evaluate | team_agent_harness/backend/app/core/benchmark.py:106-159 | Accepts exactly the full grids; then, in whatever order results come, every variant has results and its gain, computed pair by pair, is 100 times the difference of the two pass rates |
| Benchmark.ValidateTrials | team_agent_harness/backend/app/core/benchmark.py:162-194 | Accepts if and only if the trials are the exact grid case x variant x 1..n with n at least 1 for each case, no key or run twice; otherwise names the first faulty trial or every gap |
| Benchmark.Collect | team_agent_harness/backend/app/core/benchmark.py:163-180 | Clean trials are collected into their cells; otherwise the first faulty trial is reported, with the first check it fails |
| Benchmark.CaseGaps | team_agent_harness/backend/app/core/benchmark.py:182-192 | Reports exactly the gaps of a case |
| Benchmark.NoGapMeansGrid | team_agent_harness/backend/app/core/benchmark.py:181-194 | A clean list of trials is the full grid if and only if it has no gap |
| Benchmark.Partner | team_agent_harness/backend/app/core/benchmark.py:132-153 | On a full grid each trial has exactly one partner in every variant, so pairing is a bijection |
| Benchmark.PartnersAreBaseline | team_agent_harness/backend/app/core/benchmark.py:245-248 | The paired baseline trials of a variant are the trials of the baseline, each once |
| Benchmark.QualityGain | team_agent_harness/backend/app/core/benchmark.py:245-252 | The mean over pairs is the difference of the pass rates of both sides of the pairs |
| Benchmark.Compare | team_agent_harness/backend/app/core/benchmark.py:227-252 | One row of the report has the expected gain, 0 for the baseline itself |
| Benchmark.PassesReordered | team_agent_harness/backend/app/core/benchmark.py:197-212 | Pass counts do not depend on the order of the trials |
| Benchmark.GroupByVariant | team_agent_harness/backend/app/core/benchmark.py:132-134 | Grouping by variant keeps the trials of each variant in order |
| TraceAccounting.CountUnmatched | team_agent_harness/backend/app/core/quality.py:457-474 | The count over an interleaved trace is the sum of the open requests of its agent runs |
| TraceAccounting.InterleavingIsSum | team_agent_harness/backend/app/core/quality.py:457-474 | The count of a trace is the sum of the counts of the projections to its agent runs |
| TraceAccounting.PendingIsLargestBacklog | team_agent_harness/backend/app/core/quality.py:457-474 | The open requests of an agent run are the largest excess of dispatches over terminal events in any suffix of its own events, the empty suffix giving 0 |
| TraceAccounting.UnmatchedOfProjection | team_agent_harness/backend/app/core/quality.py:457-474 | Counting the projection to one agent run gives its open requests in the whole trace |
| TraceAccounting.ConsumePendingRequest | team_agent_harness/backend/app/core/quality.py:548-556 | One request less for the given agent run, if it has any, and nothing else |
| TraceAccounting.EffectReads | team_agent_harness/backend/app/core/quality.py:528-546 | Which events start a request and which end one, by the fields of the event |
| TraceAccounting.SourceReads | team_agent_harness/backend/app/core/quality.py:490-496 | Which events are evidence of failed attempts, of which kind |
| TraceAccounting.FailedInReads | team_agent_harness/backend/app/core/quality.py:497-506 | A failed attempt at a real provider is counted once for each place in the receipt that reports it |
| TraceAccounting.CountFailedAttempts | team_agent_harness/backend/app/core/quality.py:484-515 | The count is, over all agent runs and fingerprints, the sum of the larger of the two evidence counts |
| TraceAccounting.FailedAttemptsReordered | team_agent_harness/backend/app/core/quality.py:484-515 | The count does not depend on the order of the events |
| TraceAccounting.SizeIsDistinctAttempts | team_agent_harness/backend/app/core/quality.py:509-514 | The size of the union of two counters is the sum of the larger multiplicities |
| ExcerptBudget.ArtifactExcerpts | team_agent_harness/backend/app/core/context_injection.py:245-283 | Each text in turn gives a prefix of the length the sharing rule grants, marked as truncated exactly if the text goes on or was cut before, and as external data if its artifact has sources; together within the budget; nobody gets less than an equal part unless the text is shorter; long enough texts use the budget exactly |
| ExcerptBudget.EntriesCarryTotal | team_agent_harness/backend/app/core/context_injection.py:261-282 | The excerpts hold exactly the characters that were granted |
| ExcerptBudget.EntriesAreHonest | team_agent_harness/backend/app/core/context_injection.py:256-282 | Every excerpt is the non-empty beginning of the text of its artifact, and says truthfully whether that goes on |
| ExcerptBudget.WithinBudget | team_agent_harness/backend/app/core/context_injection.py:251-282 | The excerpts never exceed the budget, or 0 for a negative one |
| ExcerptBudget.EveryTextGetsItsPart | team_agent_harness/backend/app/core/context_injection.py:251-282 | Every text gets at least the smaller of its length and the budget divided by the number of artifacts |
| ExcerptBudget.LongTextsUseEverything | team_agent_harness/backend/app/core/context_injection.py:251-282 | If every text has at least the rounded-up part, exactly the budget is used |
| ExcerptBudget.CutLastMeansSpent | team_agent_harness/backend/app/core/context_injection.py:251-282 | If the last text is cut, the budget is spent |
| ExcerptBudget.ShareIsFair | team_agent_harness/backend/app/core/context_injection.py:258-260 | One turn leaves enough for an equal part of everyone after it |

## Left out

- Purge.LifetimeKeeps: one purge at a time, and no run or file is created while one is under way; the lock that ensures the first is not modelled. Run ids and artifact paths are used once. Staged inputs, removal of empty directories and path checks are left out.
- Purge.Store.QuarantineFiles: paths are pairs of run and file name; links, reparse points, permissions and `fsync` have no counterpart.
- ContextCleanup.NavigateAndEvaluate: the navigation itself is one exchange that may fail, its content being the subject of `Navigation`; shutting down the managed browser is not modelled beyond the decision to do so.
- Navigation.NavigateAndEvaluate: the deadline is a number of receptions after which time may run out at any point, and the decision whether a URL may be requested is an arbitrary predicate; DNS and address classification are not modelled.
- ClientHello.RelayTlsTunnel: socket timeouts and the byte relay that follows the first record.
- AgentLoop.Loop: tool names, observations and their truncation, the trace records and the arithmetic of `_estimated_request_input_tokens`, which is an arbitrary positive number and never raises; the checks that precede the loop other than that of the route prices; floating-point rounding.
- Gateway.Complete: route decisions, readiness, health records, the clock and the concurrency gate are arbitrary choices, recorded as events; the transport retry inside adapters appears only as the number of attempts an error or response reports; the error classes of a route on which nothing was called are one, apart from the unready primary.
- ModelCalls.CompleteWithContinuations: the numbering of `provider_attempts` restarts with each continuation and is not modelled, nor are the usage sums.
- RunLock.EveryExitReleases: a storage call that fails has no effect; `release_orphaned_locks`, deletion of lock records and exceptions raised inside the release itself other than storage errors are outside the model.
- RunLock.MutualExclusion: says nothing about a queue item running at most once, since its status is checked before the lock is taken.
- Benchmark.Evaluate: costs, durations, rework and the value gate; results come in an arbitrary order in place of the sorted one; the quality report of a trial is an arbitrary boolean function.
- TraceAccounting.CountFailedAttempts: payloads are read into a typed event first, so the coercions of free-form provider and model values to strings are not modelled.
- ExcerptBudget.ArtifactExcerpts: the artifact type and the text of the safety notice.
- Excerpt.ReadTextExcerpt: the hash is an arbitrary function of the bytes; the file is a sequence of chunks followed by its end or by a read error.
- ExecutionPlan.ValidatePlan: the text of the error messages, field length limits and the comparison of a plan with its workflow pack.
- HTTP routes, projection and redaction helpers, the role cards, the tool gateway, write-back, the run worker, the circuit breaker: wrappers or single checks without a property of their own.
- `storage.py` is not part of this model beyond the two assumptions about the purge transaction and the lock table.
