# Exo in Dafny

A model of the durable turn engine of Exo and of six smaller components, with proofs over every
run, every log and every input. `dafny verify dfyconfig.toml` checks all of it.

## What is modelled

**The turn engine.** A turn is an append-only log and a task in memory that can crash, be cancelled,
suspended or resumed between any two of its awaits.

- `Events` is the log and the queries made on it. `TurnProtocol` is a grammar of turn logs: a digest
  of a log, and which event may follow it.
- `MessageHistory`, `HistoryBalance`, `HistoryContent` and `HistoryCache` convert a log to a prompt: the
  conversion as it is written, the balance of tool calls and results, what becomes of stored messages,
  and the incremental cache.
- `Permissions` is the approval protocol. `Recovery` holds the three separately written replays of a
  turn's log.
- `TurnEngine` is a transition system that puts these together: commit a round, ask for an approval,
  answer it, run a tool, journal its result, crash, suspend, cancel, recover in the same or another
  process, finish, and start the thread's next turn. Its `executed` field is a record of every tool
  execution. `TurnInvariant` and `TurnSteps` prove the invariant that links log, position, executed
  tools and the harness's pending set. `TurnSafety` states what follows, on the raw log, and
  `TurnEndings` exactly when a log ends up both completed and failed. `TurnAnswers` follows the
  approvals of all turns of a run through the thread's log. `TurnHistory` adds the prompt
  caches and `TurnInputs` shows that its condition on inputs is needed. `TurnProgress` states what
  undisturbed runs achieve, `TurnContent` what a turn leaves in log, thread and prompt of the model's
  answers, `TurnResume` how an approval is answered around a crash, `TurnFaults` what the round limit
  and single failures do, and `ResumeVerdict` what recovery makes of a log, read off its positions.
- `HarnessEvents` is the delivery of a turn's outcome by tasks that look up a route, wait for a lock
  and may be dropped anywhere. `HarnessControl` is the table of stop reasons and the loop that obeys
  them.

**Smaller components.** `Usage` (the usage accountant), `InputBuffer` (text input, wrapping and
cursor), `Providers` and `ProviderCommands` (the provider store shared by processes), `Reconnect` (the
reconnecting websocket), `Mounts` (mount paths) and `Previews` (preview host names and routes), with
`Decimal` for number printing and `Text` for white space.

Code that updates variables in loops or fields in place is a method or a class proved against a
function, and the theorems are about that function. What runs concurrently (the engine, the delivery
of outcomes, the processes that share the provider store) is a state machine whose steps are the
atomic sections of the code.

## Assumptions about the environment

- Appends are atomic, event ids strictly increase, and a crash loses memory but never the log.
- An unlimited query returns every matching event after its cursor, and reports a cursor whenever it
  returns events.
- The model's tool-call ids are new within the turn, and approval ids are fresh. `Admissible` and the
  `Authorize` step carry this; `RepeatedIdSplitsReplays` shows that it is needed.
- The calls embedded in a response's messages are among its `tool_calls`, each once.
- A turn's input may be any list of messages. Only the theorem about the prompt cache asks for inputs
  that settle: some message is not a tool message, and converting the input alone leaves no call
  pending. `SettlingIsNeeded` shows that the second half is needed, for every input with the first.
- One executor runs a turn at a time, and turns of a thread do not overlap. One approval lock admits
  one response at a time; a response that was checked before its turn ended may arrive during a later
  turn.
- Every read and append of the executor and of the finalizer may fail, and an append that reports an
  error may have reached the log. What a turn that was not disturbed gets (`CompletedTurn`,
  `FailedTurn`, `RoundRuns`, `FinalRoundRuns`) is stated for runs in which they succeed.
- Nobody else answers the turns of a run between them (`QuietGaps`), for the theorem about the
  answers in the whole thread.
- The executor is the basic one: it can be suspended, can resume a pending approval, and does not
  reconcile unresolved calls itself. Other kinds appear only in `HarnessControl.SelectLoop`.
- Profile ids are drawn fresh, for the two theorems about them (`FreshIds`).

## What turned out to be false

- A suspension can leave an unresolved call when it hits a recovering turn before
  `restore_recovery_tools` has set up the pending set (`SuspendedBeforeRestore`). `SuspensionExact`
  gives the exact condition.
- A turn can end both completed and failed. Its final answer is saved but not acknowledged when it is
  cancelled or the append reports an error (`CancelledAfterCompletion`); the finalizer cannot read the
  saved marker (`UnreadAfterCompletion`); the finalizer's own marker lands but its append reports an
  error (`UnsavedCompletion`); or the process dies after the marker and the queue gives the turn up
  instead of finishing it (`AbortedAfterCompletion`). `ContradictionExact` shows that one of these
  steps, followed by the finalizer's error reaching the log, is the only way, in every run.
- The cached prompt can differ from the recomputed one when a turn's input leaves a call unanswered at
  its end (`UnsettledInput`). `SettlingIsNeeded` gives the exact condition on the input.
- A saved selection can carry a context for a local provider, although `switch` refuses to save one:
  `update` can make the profile local afterwards (`LocalProfileWithContext`). `ContextsFitExactly`
  names the only edit that does this.
- Two cursor positions can share a cell: before and after a newline that ends a full line
  (`NewlineSharesCell`). `CursorMonotone` shows that this is the only place.
- A callback that calls `stop` while the websocket is about to store a socket or a timer leaves that
  socket or timer in a stopped machine (`StoppedWithTimer`). `InvExactly` shows that nothing else
  breaks the invariant.

## Model

| member | source | states |
|---|---|---|
| `TurnSafety.AtMostOnce` | crates/executor/src/basic.rs:155-387 | in every run, with any crashes and resumes, no tool call is executed twice |
| `TurnSafety.OnlyAuthorised` | crates/executor/src/permissions.rs:134-286 | an executed call whose policy is to ask was approved before, by its own approval or by a session grant for its function, also one that arrived late from an earlier turn |
| `TurnSafety.DeniedNeverRuns` | crates/executor/src/permissions.rs:187-197 | a call whose own approval was denied is never executed, before or after |
| `TurnSafety.AnsweredOnce` | crates/executor/src/provider.rs:271-294 | no approval of the current turn ever gets two responses in its log |
| `TurnAnswers.AnsweredOnceInThread` | crates/executor/src/provider.rs:271-294 | for every turn begun in a run, in the whole thread: two responses never answer the same approval, however late one arrives |
| `TurnSafety.AwaitedAnswerSeen` | crates/executor/src/permissions.rs:248-286 | a response to an awaited approval lies behind the watch's cursor, and the watch returns exactly its answer |
| `TurnSafety.RoundsInOrder` | crates/executor/src/basic.rs:155-206 | round markers are 0, 1, 2, ... within the limit across all resumes, each round is resolved before the next, and the replay never finds a corrupt log |
| `TurnSafety.ReplaysAgreeInRuns` | crates/executor/src/harness_adapter.rs:350-407 | in every reachable unfinished turn the live set equals both rebuilt ones, and both recovery checks accept or refuse together |
| `TurnSafety.SuspensionIsResumable` | crates/executor/src/harness_events.rs:42-60 | a suspension after the pending set is set up leaves every request with a result, and recovery continues at the next round number |
| `TurnSafety.SuspensionExact` | crates/executor/src/harness_adapter.rs:229-267 | a suspension leaves every call resolved if and only if the turn is not still restoring, or its log holds nothing that restoring would find pending |
| `TurnSafety.SuspendedBeforeRestore` | crates/executor/src/harness_adapter.rs:192-195 | a reachable state in which a suspension leaves an unresolved call |
| `TurnSafety.CompletedTurn` | crates/executor/src/harness_executor.rs:679-723 | when the finalizer's read and appends succeed, a completed turn, by answer or by limit, gets exactly one completion marker, no error, and then the end of the turn |
| `TurnSafety.FailedTurn` | crates/executor/src/shared.rs:6-27 | when the finalizer's appends succeed, a failed or cancelled turn gets an error and then the end of the turn |
| `TurnSafety.StoppedTurn` | crates/executor/src/harness_executor.rs:679-723 | a turn suspended, interrupted or crashed while it runs gets no terminal event and has neither error nor end; it has a completion marker only if its final answer was just saved |
| `TurnSafety.EndIsFinal` | crates/executor/src/shared.rs:6-27 | at most one completion marker, the end comes once and after a marker or an error, and only late responses and notes follow it |
| `TurnEndings.ContradictionExact` | crates/executor/src/harness_executor.rs:679-723 | in every run, with any failing reads and appends, a log holds both a completion marker and an error exactly when a spoiling step was followed by the finalizer's error reaching the log before another turn began |
| `TurnEndings.StepDooms` | crates/executor/src/harness_executor.rs:681-723 | for every reachable state and step: a marked log is about to get an error exactly after a cancel or failed append of a saved final answer, an unread marker, a marker that landed although its append failed, or an abort of a marked turn |
| `TurnEndings.CancelledAfterCompletion` | crates/executor/src/harness_adapter.rs:236-252 | a reachable log with a completion marker and then an error, by a cancel or by a failing append |
| `TurnEndings.UnreadAfterCompletion` | crates/executor/src/harness_executor.rs:683-705 | a reachable log with a marker and then an error, by a finalizer that cannot read the marker |
| `TurnEndings.UnsavedCompletion` | crates/executor/src/harness_executor.rs:693-703 | a reachable log with both, at the round limit, by a marker append that lands and fails |
| `TurnEndings.AbortedAfterCompletion` | crates/executor/src/turn_queue.rs:707-711 | the same log by a crash and a queue that gives the turn up before it looks for the marker |
| `TurnSafety.CloseAll` | crates/executor/src/shared.rs:6-27 | when its appends succeed, the finalizer appends all its terminal events in order and leaves no task behind |
| `TurnProgress.RoundRuns` | crates/executor/src/basic.rs:229-297 | an undisturbed round, for all policies and answers: every call gets its result in order, exactly the calls not asked for and denied run, once and in order, a grant covers later calls, the log gains exactly these approvals, answers and results, and the next round follows |
| `TurnProgress.WaitSurvivesCrash` | crates/executor/src/permissions.rs:183-230 | a process that dies while a call waits for its approval resumes waiting for the same approval, with an unchanged log, whatever the policy is now |
| `TurnResume.AnsweredAfterCrash` | crates/executor/src/permissions.rs:183-286 | a process dies while a call waits, the turn is taken up again, and the answer comes before or during the new watch: approved, the call runs once more than before; denied, it does not; its result is journaled and the round goes on |
| `TurnContent.AnswerSaved` | crates/executor/src/model_events.rs:13-30 | saving a round adds its marker, its messages event and its calls in order; saving a final answer adds its messages and the completion marker; the stored messages grow by exactly the response's |
| `TurnContent.FinalRoundRuns` | crates/executor/src/basic.rs:187-206 | an undisturbed final answer leaves its messages (an empty event for a metered response without any), the completion marker and the end of the turn in log and thread |
| `TurnContent.ModelRoundRuns` | crates/executor/src/basic.rs:155-222 | an undisturbed round from the model call on: marker, messages, calls and what settles each call are in the log, in this order, and the next round follows |
| `TurnContent.ThreadHoldsConversation` | crates/executor/src/basic.rs:187-206 | in every run, whatever crashes, the messages of the thread are those before it, then every input and every saved answer, whole and in order |
| `TurnContent.PromptHoldsConversation` | crates/executor/src/basic.rs:79-131 | and whenever the model is called its prompt holds all of them in order, for inputs that settle |
| `TurnFaults.LimitExact` | crates/executor/src/basic.rs:163-168 | a round may call the model exactly when its number does not exceed the limit, and only a later one reaches the limit |
| `TurnFaults.LimitCompletes` | crates/executor/src/basic.rs:163-168 | a turn that reaches the limit undisturbed is completed and ended |
| `TurnFaults.FailedAskFailsCall` | crates/executor/src/basic.rs:229-297 | a failure while a call is authorised, asked for or awaited fails only this call: it does not run, the error is its result, and the round goes on |
| `TurnFaults.FailureEndsTurn` | crates/executor/src/shared.rs:6-27 | any other failed append or round, an unconfirmed completion, a cancellation and an abort end the turn with an error |
| `TurnFaults.MarkedTurnEnds` | crates/executor/src/turn_queue.rs:699-725 | a turn left with a marker or an error but no end is only ended when it is taken up again |
| `TurnFaults.RoundSuspends` | crates/executor/src/harness_events.rs:42-60 | between its rounds every reachable turn can be suspended, with its log unchanged |
| `TurnFaults.ResolvedTurnGoesOn` | crates/executor/src/basic.rs:353-366 | a turn left without terminal events and with every call resolved is taken up at the round after its last |
| `TurnFaults.UnsafeTurnFails` | crates/executor/src/harness_adapter.rs:388-407 | a turn whose oldest unresolved call has no unanswered approval of its own is not run again: recovery ends it with an error |
| `ResumeVerdict.CorruptExactly` | crates/executor/src/basic.rs:320-352 | for every log the executor's recovery reports corruption exactly when a round begins with a call unresolved or a call is requested outside a round |
| `ResumeVerdict.ResumeExactly` | crates/executor/src/basic.rs:353-387 | in every reachable unfinished turn both checks go on with the next round when no call is unresolved, take up all unresolved calls in order when the oldest has an unanswered approval of its own, and refuse otherwise |
| `TurnSteps.StepKeepsInv` | crates/executor/src/basic.rs:155-297 | every step of executor, harness, responders, crashes and recovery keeps the invariant |
| `TurnSteps.ReachableInv` | crates/executor/src/basic.rs:155-387 | the invariant holds in every reachable state |
| `TurnSteps.SavedAgrees` | crates/executor/src/permissions.rs:150-182 | the scan for a saved approval finds exactly the call's approval and its answer |
| `TurnSteps.AuthorizeStep` | crates/executor/src/permissions.rs:134-247 | whatever `authorize` decides, the executor may run the call only if it is warranted and has not run |
| `TurnSteps.LoadStep` | crates/executor/src/basic.rs:353-387 | a resumed position fits the log, and the call it resumes has not run |
| `TurnInvariant.PersistCommit` | crates/executor/src/basic.rs:198-206 | committing a round marker with its requests makes exactly its calls pending and keeps the invariant |
| `TurnInvariant.PersistResult` | crates/executor/src/basic.rs:284-297 | journaling a result resolves exactly the oldest call and keeps the invariant |
| `TurnInvariant.PersistAsk` | crates/executor/src/permissions.rs:232-246 | appending an approval request keeps the invariant, and its watch starts before any answer |
| `TurnEngine.CollectedCalls` | crates/executor/src/basic.rs:481-496 | the calls read back from a response's events are the response's calls, in order |
| `TurnProtocol.RoundDiscipline` | crates/executor/src/basic.rs:320-358 | legal logs number their rounds without gaps within the limit, each after a resolved round |
| `TurnProtocol.RequestsLegal` | crates/executor/src/basic.rs:198-206 | a batch of requests is legal and makes exactly those calls pending |
| `TurnHistory.CachedPromptIsRecomputed` | crates/executor/src/basic.rs:79-131 | over all turns, crashes, restarts and processes of a thread whose inputs settle, the cached prompt at a model round is the conversion of the whole log |
| `TurnInputs.SettlingIsNeeded` | crates/executor/src/basic.rs:79-131 | for every thread, input with a non-tool message and new call: after a first round with that call the cached prompt is exact if and only if the input settles |
| `TurnInputs.UnsettledInput` | crates/executor/src/message_history.rs:13-20 | a reachable model round at which the cached prompt is not the recomputed one |
| `TurnInputs.RoundComposesExactly` | crates/executor/src/message_history.rs:13-110 | a batch that ends here and a later tool round give what one pass gives if and only if nothing is pending here |
| `TurnInputs.PlainEndSettles` | crates/executor/src/message_history.rs:35-40 | an input that ends with a plain message settles, whatever else it holds |
| `TurnHistory.TurnQuery` | crates/executor/src/permissions.rs:137-146 | in every run a query for turn and session returns exactly the turn's own events, and the thread's ids increase |
| `HistoryCache.PromptHistory.Materialize` | crates/executor/src/basic.rs:79-131 | the cache is updated for this thread only, and the prompt is the instructions followed by the new entry's messages |
| `HistoryCache.CacheIsExact` | crates/executor/src/harness_helpers.rs:104-133 | with no call pending, the incremental prompt equals recomputation, and the new entry covers the whole log |
| `HistoryCache.EntryKept` | crates/executor/src/basic.rs:79-131 | an entry stays valid while anybody appends to the log |
| `HistoryCache.BatchesCompose` | crates/executor/src/message_history.rs:13-110 | two batches give what one gives when the first leaves nothing pending or the second opens with a flush |
| `HistoryCache.CutInsideRoundLosesResult` | crates/executor/src/message_history.rs:112-133 | a cut inside a tool round replaces the real result by a cancellation |
| `MessageHistory.ExtendMessageHistory` | crates/executor/src/message_history.rs:15-110 | the loop computes the fold over events followed by a flush |
| `MessageHistory.FlushDanglingToolResults` | crates/executor/src/message_history.rs:112-133 | every pending call with a known name gets a cancelled result, in order |
| `MessageHistory.RemovePendingToolCall` | crates/executor/src/message_history.rs:135-142 | the first pending occurrence of the id is removed, nothing else |
| `HistoryBalance.CallsAndResultsBalance` | crates/executor/src/message_history.rs:15-142 | for every log, no result precedes its call or carries another name if and only if stored tool messages answer pending calls; then calls and results are equal as bags |
| `HistoryBalance.OwnLogsBalance` | crates/executor/src/message_history.rs:15-110 | logs without stored tool messages always meet that condition |
| `HistoryBalance.MessageStep` | crates/executor/src/message_history.rs:24-60 | one message keeps the balance exactly when it answers only pending calls |
| `HistoryContent.StoredMessagesKept` | crates/executor/src/message_history.rs:22-110 | for every log the prompt holds every stored message, unaltered and in order |
| `HistoryContent.CompleteRoundsRendered` | crates/executor/src/message_history.rs:61-110 | a log of complete rounds is rendered event by event: each request as a call with its id, name and arguments, each result under the requested name, nothing cancelled |
| `HistoryContent.CallsShownExactly` | crates/executor/src/message_history.rs:61-110 | for every log the calls in the prompt are, in order and with id, name and arguments, those of the stored messages and the requests whose id was not shown before |
| `HistoryContent.ResultsExplained` | crates/executor/src/message_history.rs:84-133 | for every log each tool result in the prompt was stored, journaled with that value, or marks a cancelled call |
| `Recovery.LoadTurnProgress` | crates/executor/src/basic.rs:299-387 | the loop computes the executor's replay, with its corrupt-log and unsafe-resume errors |
| `Recovery.RestoreRecoveryTools` | crates/executor/src/harness_adapter.rs:328-409 | the loop computes the harness's replay and its verdict |
| `Recovery.ReplaysAgree` | crates/executor/src/harness_events.rs:63-73 | on every legal unfinished log the three replays hold the same calls, and both checks resume exactly when nothing is unresolved or the oldest call awaits its own answer |
| `Recovery.RepeatedIdSplitsReplays` | crates/executor/src/harness_adapter.rs:384-386 | with a repeated call id the two recovery checks disagree |
| `Recovery.PendingAgrees` | crates/executor/src/permissions.rs:69-92 | the pending approvals are those asked and not answered |
| `Permissions.ApprovalEvents` | crates/executor/src/permissions.rs:34-54 | paging returns every matching event once, in order |
| `Permissions.PendingFromEvents` | crates/executor/src/permissions.rs:69-92 | the loop computes the approvals asked and not answered, none after the end of the turn |
| `Permissions.Respond` | crates/executor/src/permissions.rs:94-122 | succeeds exactly when a request awaits its answer in an unended turn and a denial allows nothing; it grants at most that request's function, and afterwards the approval is not pending |
| `Permissions.PendingExact` | crates/executor/src/permissions.rs:69-92 | an approval is pending exactly when its last request has no response after it, and then it is that request |
| `Permissions.AuthorizeCall` | crates/executor/src/permissions.rs:124-247 | proceed, refuse, ask or await, from the saved approval or the session's grants |
| `Permissions.ResumedDecision` | crates/executor/src/permissions.rs:147-230 | after a resume, for every log by positions: the last answer to the call's last request in its round decides, proceed if approved and refuse if denied; without an answer it is awaited; without a request, or with another one, it is refused |
| `Permissions.FreshDecision` | crates/executor/src/permissions.rs:231-247 | without a resume a call proceeds exactly when its policy allows it or some response of the session approved its function, and is asked for otherwise |
| `Permissions.WatchForAnswer` | crates/executor/src/permissions.rs:259-286 | the watch returns the first answer to its approval, unless the turn ends first |
| `Permissions.WatchExact` | crates/executor/src/permissions.rs:259-286 | the watch's verdict is that of the first response to its approval, unless the turn ends before it |
| `Permissions.WatchSeesEverythingNew` | crates/executor/src/permissions.rs:223-248 | a watch started after the snapshot's last approval event misses nothing appended later |
| `HarnessEvents.SingleOutcome` | crates/executor/src/harness_events.rs:252-306 | for every interleaving a registration delivers at most one outcome, as its last event: that of the first finish if its append succeeded, failed if it did not or if there was none; nothing is appended after a finish |
| `HarnessEvents.FinishRecorded` | crates/executor/src/harness_events.rs:276-292 | a finish is recorded with the outcome its event asks for and whether its append succeeded |
| `HarnessEvents.OutcomeDelivered` | crates/executor/src/harness_events.rs:252-306 | an undisturbed finish followed by the end of the execution delivers the requested outcome |
| `HarnessEvents.DeliveredOnceSenderUsed` | crates/executor/src/harness_events.rs:293-304 | the completion sender is gone exactly when the outcome has been delivered |
| `HarnessEvents.StepKeepsInv` | crates/executor/src/harness_events.rs:147-183 | every registration, removal, lookup, lock, append, finish and drop keeps locks exclusive and cells in a proper phase |
| `HarnessControl.FinalReasonStays` | crates/executor/src/harness_adapter.rs:147-166 | cancel and shutdown are absorbing until the turn leaves the table |
| `HarnessControl.ShutdownOnlyDrains` | crates/executor/src/harness_adapter.rs:113-139 | after shutdown begins no turn enters, every turn is being stopped, and it is never undone |
| `HarnessControl.ReasonIsVerdict` | crates/executor/src/harness_adapter.rs:113-180 | in every run a turn's reason is the first cancel or shutdown asked of it, else the last suspend or resume |
| `HarnessControl.StoppingMeansFinal` | crates/executor/src/harness_adapter.rs:113-122 | the flag is set exactly when a shutdown has begun, and then every active turn has a final reason |
| `HarnessControl.ActiveTurns.Submit` | crates/executor/src/harness_adapter.rs:147-180 | the new table, and the refusals of a start while stopping or already active |
| `HarnessControl.ActiveTurns.BeginShutdown` | crates/executor/src/harness_adapter.rs:113-122 | every turn not cancelled is told to shut down, in any visiting order |
| `HarnessControl.SelectLoop` | crates/executor/src/harness_adapter.rs:229-267 | the loop stops at the first wake-up that calls for it, judged by the last reason read |
| `HarnessControl.OutcomeObeysReason` | crates/executor/src/harness_adapter.rs:242-266 | completed and failed exactly for the end of the execution; cancelled and interrupted exactly for the last reason read; suspended only for a suspension of a resumable turn |
| `HarnessControl.StopsExactly` | crates/executor/src/harness_adapter.rs:229-267 | by positions: the loop stops at a wake-up exactly when the execution ends, the channel closes, a cancel or shutdown arrives, a suspension can be obeyed at once, or a boundary comes while the last change was a suspension, and with which outcome |
| `Usage.UsageTracker.Refresh` | crates/cli/src/turn_display.rs:174-234 | a successful refresh gives the one-pass sums of everything read so far; a failed one keeps what it read and leaves the total |
| `Usage.UsageTracker.ReadPages` | crates/cli/src/turn_display.rs:179-223 | what a run of pages takes in, with the stuck-cursor and storage errors |
| `Usage.UsageTracker.Absorb` | crates/cli/src/turn_display.rs:196-219 | one event updates its turn's group, its model's sum and the cursor |
| `Usage.SumGroups` | crates/cli/src/turn_display.rs:224-233 | merging the turns in any order gives the one-pass sum |
| `Usage.ExpectedSplits` | crates/cli/src/turn_display.rs:264-277 | turns can be summed separately although their events interleave |
| `Usage.TotalMeans` | crates/cli/src/turn_display.rs:244-287 | told on each event's own turn: the total counts every record and every turn with text and no usage; a field is known exactly when some record exists, all have it and no turn lacks usage, and then it is their sum |
| `Usage.TurnResultMeans` | crates/cli/src/turn_display.rs:196-233 | what a refresh returns for a turn: the records of the events of that turn, and one unknown record if it has text and no usage |
| `Usage.ConsumedExact` | crates/cli/src/turn_display.rs:179-223 | exactly what a run of pages has taken in, up to the page that failed or did not move the cursor |
| `Usage.SplitsAgree` | crates/cli/src/turn_display.rs:174-223 | for any split into refreshes and pages, with failures anywhere, a prefix of the log has been read once |
| `InputBuffer.Buffer.InsertStr` | crates/cli/src/tui_app.rs:255-263 | inserting acts on the half before the cursor and keeps the byte cursor on a boundary |
| `InputBuffer.Buffer.MoveLeft` | crates/cli/src/tui_app.rs:273-277 | one character moves to the other half |
| `InputBuffer.Buffer.MoveRight` | crates/cli/src/tui_app.rs:279-283 | one character moves to the other half |
| `InputBuffer.Buffer.DeleteBefore` | crates/cli/src/tui_app.rs:285-291 | exactly the character before the cursor goes |
| `InputBuffer.Buffer.DeleteAt` | crates/cli/src/tui_app.rs:293-298 | exactly the character at the cursor goes |
| `InputBuffer.Buffer.KillToStart` | crates/cli/src/tui_app.rs:300-303 | the half before the cursor goes |
| `InputBuffer.Buffer.KillToEnd` | crates/cli/src/tui_app.rs:305-307 | the half after the cursor goes |
| `InputBuffer.Buffer.Take` | crates/cli/src/tui_app.rs:250-253 | returns the whole text and empties the buffer |
| `InputBuffer.BackspacesUndoInsert` | crates/cli/src/tui_app.rs:260-291 | as many backspaces as characters undo an insertion |
| `InputBuffer.MovesKeepText` | crates/cli/src/tui_app.rs:273-283 | moving keeps the text, and left and right undo each other |
| `InputBuffer.EditsByPosition` | crates/cli/src/tui_app.rs:255-307 | every insertion, move and deletion, told by the text and the character position of the cursor |
| `InputBuffer.DecodeEncode` | crates/cli/src/tui_app.rs:255-298 | a character has as many octets as its UTF-8 encoding (section 3 of RFC 3629), which decodes back to it |
| `InputBuffer.BoundaryExactly` | crates/cli/src/tui_app.rs:273-298 | an offset is on a boundary exactly when it ends the octets of the text or a character begins there |
| `InputBuffer.PlaceChar` | crates/cli/src/tui_app.rs:326-345 | one character goes to the right line, and a cursor before it gets the cell behind the text so far |
| `InputBuffer.WrapInputChars` | crates/cli/src/tui_app.rs:320-357 | the lines do not depend on the cursor; its cell is the end of the layout of the text before it, for every offset and width |
| `InputBuffer.CursorCellAt` | crates/cli/src/tui_app.rs:326-356 | the cursor's cell ends the layout of the text before it, and that of the whole text for an offset inside a character or behind the end |
| `InputBuffer.LayoutKeepsText` | crates/cli/src/tui_app.rs:322-350 | the lines concatenate to the text without newlines and fit the width |
| `InputBuffer.NewlineBreaks` | crates/cli/src/tui_app.rs:326-335 | a newline ends its line and what follows is laid out afresh |
| `InputBuffer.OnlyFullLinesWrap` | crates/cli/src/tui_app.rs:326-345 | without newlines every line but the last is full, and the last is not empty |
| `InputBuffer.CursorInLayout` | crates/cli/src/tui_app.rs:341-356 | the cell is in range, its column below the width, and it shows the character at the cursor |
| `InputBuffer.CursorMonotone` | crates/cli/src/tui_app.rs:326-343 | the cell moves strictly forward with the cursor, except across a newline that ends a full line, where it stays |
| `InputBuffer.NewlineSharesCell` | crates/cli/src/tui_app.rs:326-335 | an input and width at which two cursor positions share a cell |
| `Providers.StoreInvariant` | crates/cli/src/providers.rs:427-500 | after any interleaving of processes every default names a profile, contexts belong to defaults, and local profiles have no context, on disk and in every process |
| `Providers.NoLostUpdate` | crates/cli/src/providers.rs:452-460 | a profile changes only if the disk still holds what the process had loaded, and no other profile changes |
| `Providers.NewConnectionLogsOut` | crates/cli/src/providers.rs:862-868 | in every run with fresh ids a command that points a profile at another connection logs it out and gives it an id no profile had |
| `Providers.ProfileIds` | crates/cli/src/providers.rs:846-868 | in every run with fresh ids no two profiles share an id, and every id was drawn by a command |
| `Providers.AgentAliasStays` | crates/cli/src/providers.rs:608-635 | in every run an agent alias keeps its agent until a command unpins that agent |
| `Providers.ThreadAliasStays` | crates/cli/src/providers.rs:637-666 | likewise for thread aliases |
| `Providers.SavedSelectionWorks` | crates/cli/src/providers.rs:548-583 | in every reachable store looking up the saved selection succeeds and names a configured profile |
| `Providers.SelectionPrecedence` | crates/cli/src/providers.rs:509-571 | a selection comes from an alias, else the explicit name, else the nearest directory default, else the global one, an alias only with its own connection, and has the context saved with it or else its profile's |
| `Providers.SwitchTakesEffect` | crates/cli/src/providers.rs:920-950 | after a switch exactly that profile and context are selected, in the directory and below, or globally |
| `Providers.NearestIsLongest` | crates/cli/src/providers.rs:550-553 | the directory default found is the longest ancestor that has one, and one is found whenever it exists |
| `Providers.ClearUndoesSwitch` | crates/cli/src/providers.rs:748-766 | clearing in a directory undoes a switch made there |
| `Providers.ContextsFitExactly` | crates/cli/src/providers.rs:878-950 | selection contexts stay with HTTP profiles unless a profile selected with a context is made local |
| `Providers.LocalProfileWithContext` | crates/cli/src/providers.rs:859-861 | a run of three commands that leaves a context on a local profile's selection |
| `Providers.Store.Update` | crates/cli/src/providers.rs:427-450 | nothing changes on disk or in memory unless operation and write succeed, and which error is returned otherwise |
| `Providers.Store.Perform` | crates/cli/src/providers.rs:743-1023 | one command plans on the loaded configuration and applies to the one on disk |
| `ProviderCommands.ConfigureExact` | crates/cli/src/providers.rs:811-893 | create and update: every field of the saved profile, nothing else changed, and each refusal with its error, for any two versions in memory and on disk |
| `ProviderCommands.LoginExact` | crates/cli/src/providers.rs:964-1019 | what login and logout record in the profile, and when they are refused |
| `ProviderCommands.DeleteExact` | crates/cli/src/providers.rs:901-919 | exactly the profile and the defaults and contexts that name it go |
| `ProviderCommands.SwitchExact` | crates/cli/src/providers.rs:920-950 | exactly one default changes, and when a switch is refused |
| `ProviderCommands.ClearExact` | crates/cli/src/providers.rs:748-766 | exactly the closest directory default goes, or the global one, or nothing |
| `ProviderCommands.PinAgentExact` | crates/cli/src/providers.rs:608-635 | the alias is bound to the provider's connection, account, agent and context; a name that stands for something else is refused |
| `ProviderCommands.PinThreadExact` | crates/cli/src/providers.rs:637-666 | likewise for thread aliases |
| `ProviderCommands.UnpinExact` | crates/cli/src/providers.rs:473-500 | exactly the aliases of the agent and its threads go, or exactly those of the thread |
| `ProviderCommands.UnpinUndoesPin` | crates/cli/src/providers.rs:473-635 | unpinning undoes the first pin of an agent |
| `ProviderCommands.SelectionExact` | crates/cli/src/providers.rs:509-583 | every failure of a selection, and what an alias, an explicit name and no default give |
| `Text.BlankExactly` | crates/cli/src/providers.rs:824-826 | a name is blank exactly when trimming leaves nothing |
| `Reconnect.InvExactly` | website/src/reconnecting-websocket.ts:51-107 | a step keeps at most one of socket and timer, neither when stopped, and the delay of its attempt, if and only if no callback stops the machine from inside |
| `Reconnect.RunInv` | website/src/reconnecting-websocket.ts:45-140 | that invariant in every run without such callbacks |
| `Reconnect.RunSignals` | website/src/reconnecting-websocket.ts:60-106 | stale sockets are never heard of again; after r retries since the last open or stop a connection is attempt r, opens as a reconnection if r > 0, and the next delay is min(1000 * 2^r, 30000) |
| `Reconnect.OneSignal` | website/src/reconnecting-websocket.ts:60-145 | the one signal that answers each event; a close is terminal exactly for code 1000 with the reason of a replaced connection |
| `Reconnect.StateFollowsSignals` | website/src/reconnecting-websocket.ts:45-140 | in every run without such callbacks the last signal tells the state: stopped, waiting for the announced delay, given up, or on that socket |
| `Reconnect.StoppedWithTimer` | website/src/reconnecting-websocket.ts:97-105 | a run in which a callback leaves a timer in a stopped machine |
| `Reconnect.ReconnectingWebSocket.OnClose` | website/src/reconnecting-websocket.ts:83-106 | the new state and callbacks after a close |
| `Reconnect.ReconnectingWebSocket.Connect` | website/src/reconnecting-websocket.ts:51-58 | a socket is created only when there is none, no timer, and the machine runs |
| `Reconnect.ReconnectingWebSocket.Halt` | website/src/reconnecting-websocket.ts:124-138 | everything is given up and reset |
| `Mounts.DefaultMountPath` | crates/cli/src/main.rs:2225-2242 | the path is the first free one of /home/exo/workspace/name, then -2, -3, ..., found within one more than there are mounts |
| `Mounts.FewTaken` | crates/cli/src/main.rs:2234-2240 | no more candidates can be taken than there are mounts |
| `Mounts.BoundIsTight` | crates/cli/src/main.rs:2232-2241 | for every n some n mounts take the first n candidates |
| `Mounts.MountList.Create` | crates/cli/src/main.rs:1208-1235 | a chosen path must be absolute and not blank, with the error for each; a default path is the first free one; the mount replaces the one at its path or is appended |
| `Mounts.MountList.Delete` | crates/cli/src/main.rs:1246-1256 | the mounts at the path go, or the path is reported as not found |
| `Mounts.PlacedDistinct` | crates/cli/src/main.rs:1226-1235 | creating keeps paths distinct, adds exactly one path and keeps every other mount |
| `Mounts.PlacedExact` | crates/cli/src/main.rs:1226-1235 | the first mount at the path is replaced where it stands |
| `Mounts.WithoutExact` | crates/cli/src/main.rs:1250-1253 | deleting removes exactly the mounts at the path and keeps paths distinct |
| `Mounts.WithoutJoins` | crates/cli/src/main.rs:1250-1253 | what stays keeps its order |
| `Decimal.PrintReadsBack` | crates/cli/src/main.rs:2237-2239 | a printed number reads back and has no leading zero |
| `Mounts.DeleteUndoesCreate` | crates/cli/src/main.rs:1208-1256 | deleting a mount created at a free path restores the list |
| `Previews.NamesAreValid` | crates/executor/src/previews.rs:47-88 | every derived name has valid labels of at most 63 octets (section 2.3.4 of RFC 1035, section 2.1 of RFC 1123) and at most 253 octets before its port |
| `Previews.LimitIsTight` | crates/executor/src/previews.rs:157-169 | some accepted domain of 187 octets gives a name of exactly 253 |
| `Previews.ThreadLabelValid` | crates/executor/src/previews.rs:47-71 | the thread's label is valid whatever the thread is called, and has at most 59 octets |
| `Previews.CleanNameKept` | crates/executor/src/previews.rs:47-59 | a name of lower case letters and digits is kept, up to its first 50 characters |
| `Previews.SlugExact` | crates/executor/src/previews.rs:47-59 | the cleaned name: of the first fifty characters each ASCII letter in lower case, each digit kept and anything else a hyphen, without the hyphens around them |
| `Previews.HostSpelled` | crates/executor/src/previews.rs:60-75 | previews exist exactly when there are ports, and how the page's host is put together |
| `Previews.OneServicePerPort` | crates/executor/src/previews.rs:75-87 | one service per configured port, in ascending order, all hosts different, each the port before the page's host, and each address leading to its host |
| `Previews.PreviewRoutes.Register` | crates/executor/src/previews.rs:207-233 | the thread's routes are replaced as a whole |
| `Previews.RegisterExact` | crates/executor/src/previews.rs:207-233 | exactly the thread's hosts lead to it, each service host to its port; other threads keep every host not taken over |
| `Previews.RemoveUndoesRegister` | crates/executor/src/previews.rs:235-240 | removal undoes registration, except for hosts taken over from other threads |

## Left out

- Model calls, streaming, tracing, pricing and clocks: a response, a tool result and a cost are arbitrary values.
- The storage backend, the turn queue's scheduling, sandboxes, vaults and the HTTP client and server: only the contract of the log above is used.
- JSON encoding of event payloads, and the errors of decoding it: payloads are datatypes.
- Identifiers that the code only compares are numbers, so nothing is said about how they are written.
- Integer widths: round numbers (32 bits), token counts (64 bits), mount suffixes (32 bits) and attempts do not wrap around.
- Floating-point rounding of costs: costs are exact.
- Poll-level scheduling of futures: the steps are the sections between lock, notify and await points.
- The texts of errors: a failing read, append or watch is a step that may happen at any time.
- The turn queue's own recovery path is modelled only as far as it refuses finished turns, closes marked ones and resumes the others.
- Executors that reconcile unresolved calls themselves, outside `HarnessControl.SelectLoop`.
- Several approval locks: providers in different processes that answer the same turn at once.
- Liveness: that a waiting suspension, shutdown or watch eventually goes on.
- The cleanup that maps a failed cancellation to a failed outcome, after the loop has stopped.
- `provider login` and `logout` beyond the profile they save: credentials and OAuth are not modelled; endpoints and local roots are given as values.
- `parse_context`, `slugify`, `selection_rows` and `base64_encode`: they would add only members about single functions.
- Callbacks of the websocket that call `start`, or `stop` more than once, while it is inside a handler.
- SHA-256: an arbitrary function to hexadecimal strings, so nothing is said about hosts of different threads being different.
- Requests through the preview proxy, port forwarding, rendering, command line parsing and the TypeScript tools.
