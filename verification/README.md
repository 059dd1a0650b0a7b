# Excelsior: the run coordinator and its clients, verified

This project models the engine's run coordinator as a state machine over every interleaving of its
goroutines, the desktop reducer that consumes its stream, and four neighbours with protocols of their
own: one websocket connection, tool-call repair, the store lease, and the desktop command client. All
properties are proved for every input, every reachable state or every run.

`dafny verify dfyconfig.toml` checks the whole project.

## Layout

| files | what they model |
|---|---|
| `Transcript.dfy`, `Wire.dfy` | messages, events, outcomes, snapshots, updates, their encoded sizes; what crosses the socket and what the desktop decoder accepts |
| `Subscription.dfy`, `Retention.dfy`, `Service.dfy` | one subscriber's queue (class and specification), the cache of finished runs, the two history filters |
| `CoordinatorSpec.dfy`, `Coordinator.dfy` | the coordinator's steps as functions on a state, and the coordinator as a class whose methods are proved equal to those steps |
| `RunInvariants.dfy`, `StateInvariants.dfy`, `Grammar.dfy`, `FeedInvariants.dfy`, `FeedSteps.dfy`, `Progress.dfy` | the inductive invariants and what only grows |
| `Guarantees.dfy`, `Effects.dfy` | the coordinator's promises over all runs, and what each call and each whole turn brings about |
| `Reducer.dfy`, `Rendering.dfy`, `LateJoiner.dfy` | the client's reducer, what it shows, and the theorem that joins engine and client |
| `ConnectionSpec.dfy`, `ConnectionProofs.dfy`, `ConnectionProgress.dfy`, `Connection.dfy` | one connection: byte budget, frame order, workspace fence, what goes through |
| `ToolRepair.dfy` | repair of unanswered tool calls and the history of a run |
| `LeaseSpec.dfy`, `LeaseProofs.dfy`, `Lease.dfy` | processes, stores and directory locks |
| `ClientSpec.dfy`, `ClientProofs.dfy`, `ClientProgress.dfy`, `EngineClient.dfy` | the command client as coroutines, what never happens and what gets done |

Each protocol has the same shape. Every block under a mutex, every access to a shared counter or
channel, and every stretch between two awaits is one step, and a run is any sequence of steps; a step
that is not enabled does nothing. A class method is one such step and its contract says that the class's
value afterwards is the step applied to its value before; for the coordinator, the connection and the
command client it says too that an object which stands where some run of the machine may stand still does
so afterwards, so every theorem about such states holds of the object. A store object, which shares its locks
and directories with others, stands in a world of processes (`DirStores.DirStore.Stands`), and its methods
are steps of whatever world it stands in. The scheduler, the runner, the operating
system and the network are parameters of the steps. The theorems then speak of every state that occurs
in a run, and of every later state of such a run.

## What the code relies on

These assumptions are the guards of `CoordinatorSpec.Enabled` and the shape of the state.

- A runner emits events and asks only while it is executing, asks one thing at a time, and returns a
  history that contains the one it was given; `ToolRepair.FullHistory` proves the last for the agent.
- Run and interaction ids are new; a run's session id is not empty (a connection makes one up, and the
  store refuses to load an empty one) and already trimmed (`sanitizeID` trims, `sessionKey` does not).
- An interaction's context lives as long as its run: it ends a wait early only when the run is canceled.
- `ExecuteTurn` runs once for each reservation.
- `Store.Save` is atomic. There is one store for each canonical workspace, except that an ephemeral engine
  keeps one memory, addressed by the session id alone.
- Event text is valid UTF-8, so a copy through JSON is the identity; a size is a fixed frame plus the
  lengths of the fields, so joining two events never makes the projection larger.
- The workspace a connection falls back to does not change while it is open.
- A store directory is named by its resolved path, which is also its lease key.
- A browser delivers messages only to an open socket, and runs every pending continuation before the
  next event.

## Where the code does not meet its own description

- **A stripped end cannot be decoded.** A finished run that leaves more than 4 MiB behind is cached without
  messages, and the nil slice is sent as `null`, which the desktop decoder refuses. The end of a run
  decodes if and only if what the run leaves fits the budget and has known roles only
  (`LateJoiner.FinishedDecodesIff`); a run that ends otherwise is `LateJoiner.FinishedCannotDecode`.
- **The 32 MiB retention budget is not unconditional.** Keeping an end leaves the cache within it if and
  only if what is kept of that end is (`Retention.RetainFitsIff`), and a long enough error text is not: a
  run that breaks the budget is `Guarantees.BudgetCanBreak`.
- **The write pump refunds before it writes.** `docs/backpressure.md` says a frame's bytes are given back
  once they have hit the socket; `pkg/engine/conn.go:125` gives them back first. The counter covers what is
  unsent if and only if no bytes are being written; while they are, unsent bytes may reach twice the cap,
  and never more (`ConnectionProofs.UnsentBytes`).
- **A refused turn can leave a record behind.** `ReserveTurn` writes a new session's empty record before
  it measures the history. That happens if and only if the turn is too long by itself, the session is new
  and nothing else refuses the turn (`Guarantees.RefusedTurn`); `Guarantees.RefusedTurnLeavesRecord` is
  the shortest run.
- **The memory of an ephemeral engine is shared by its workspaces.** Runs are kept apart by workspace and
  id, the memory by id alone, so a session deleted in one workspace takes away the record a run of another
  was started from (`Guarantees.EphemeralRecordCanVanish`). Apart from a run's own commit, a
  step changes what is stored for an active run if and only if the engine is ephemeral and the step starts, or
  mutates to something other than what is stored, a session whose id a run of another workspace has
  (`Guarantees.StepHitsActiveRunIff`). The command line, the only user of an ephemeral engine, serves
  one workspace (`cmd/excelsior/main.go:239`).

## Model

| member | source | states |
|---|---|---|
| LateJoiner.LateJoinerEqualsEarlyJoiner | apps/electron/lib/engineState.ts:277-303 | in every reachable state of a live run, or of one that ended failed or canceled and is kept, a client that drained its queue shows the same blocks, usage, streaming flag, run, prompts and outcome for the session as one that applies only a fresh snapshot, whatever either showed before and however other sessions' messages are mixed in |
| LateJoiner.ClientShowsFresh | internal/chat/coordinator.go:494-510 | folding everything a registered subscriber was sent gives the view of the snapshot the coordinator would send now |
| LateJoiner.SnapshotDecodesIff | apps/electron/lib/protocol.ts:230-270 | any snapshot a persistent engine sends passes the decoder if and only if it still has its messages and their roles are known |
| LateJoiner.FinishedDecodesIff | internal/chat/coordinator.go:400-419 | the kept end of a run passes the decoder if and only if what the run leaves behind is at most 4 MiB and has known roles only |
| LateJoiner.FinishedCannotDecode | internal/chat/coordinator.go:542-558 | a run from the first step of an engine to an end that the decoder refuses |
| LateJoiner.OutcomeAlwaysDecodes | apps/electron/lib/protocol.ts:181-196 | every outcome a persistent engine publishes passes the decoder |
| Wire.WireLosesNothing | pkg/engine/runs.go:12-79 | every update can be written down again from the payload that is sent for it: nothing is lost, swapped or sent as another kind |
| Wire.DecoderIsStrict | apps/electron/lib/protocol.ts:178-270 | what names another session or run, a prompt of a run that is over, and a success that was not saved are refused |
| Rendering.SnapshotIsShown | apps/electron/lib/engineState.ts:211-303 | after a snapshot each message is the block it should be (user, assistant or tool, with the tool's name and the last arguments called under its id), unseen messages have none, and nothing of what was shown before is left |
| Rendering.WholeSnapshotIsShown | apps/electron/lib/engineState.ts:277-303 | any snapshot that decodes: the blocks of its messages, then what its events say, what its outcome says and the notice that something is gone, role by role, and the usage its events report |
| Rendering.OutcomeIsShown | apps/electron/lib/engineState.ts:190-210 | the end of a run clears the prompts and the streaming flag; a success adds no block, anything else exactly one error block with the outcome's text |
| Rendering.StreamIsShown | apps/electron/lib/engineState.ts:344-401 | a stream of deltas adds to what each role says exactly what it says for that role, in order, and to the usage exactly the tokens it reports |
| Rendering.ToolCallIsOneBlock | apps/electron/lib/engineState.ts:305-343 | a tool call streamed in pieces and its answer are one block: the answer, the tool's name and the whole of the arguments |
| Rendering.GlobalsFollow | apps/electron/lib/engineState.ts:118-174 | settings, list, error, the choice of a session and the refresh count follow their own messages and no others |
| Rendering.WorkspaceStartsEmpty | apps/electron/lib/engineState.ts:93-102 | another workspace starts with nothing of the last one; the present one named again changes nothing |
| Reducer.ProjectionFoldsLikeStream | internal/chat/coordinator.go:375-384 | from any view, folding the server's joined projection equals folding the raw stream, though server and client join by different rules |
| Reducer.AbsorbFoldsLike | apps/electron/lib/engineState.ts:377-401 | one more raw event joined into the projection folds like one more delta |
| Reducer.ReducerIsSessionLocal | apps/electron/lib/engineState.ts:175-189 | a decoded message acts on the session it names by a function of that session's view alone and leaves every other session's view as it was |
| Reducer.PromptsBelongToLiveRuns | apps/electron/lib/engineState.ts:254-275 | after any decoded messages and local actions: a prompt implies a streaming session and its recorded run, an outcome implies not streaming, streaming implies a recorded run |
| Reducer.LiveMessageDroppedIff | apps/electron/lib/engineState.ts:76-189 | a message of another workspace, and a live one of another run or of a run that no longer streams, changes nothing; and a live message that says something new (a fragment, a tool result, token counts, another prompt, the end of a prompt or of a run) is dropped for no other reason |
| Reducer.ReducerKeepsWorkspace | apps/electron/lib/engineState.ts:175-189 | no message but a workspace reply changes the reducer's workspace |
| Guarantees.OutcomeIsTruthful | internal/chat/coordinator.go:303-342 | an outcome names its run; persisted means the stored record is exactly the filtered result, anything else that a persistent engine's record is as at reservation; a run that entered the commit ends succeeded or persistence_failed; an ephemeral engine never claims to have persisted |
| Effects.OutcomeMeans | internal/chat/coordinator.go:320-341 | each of the five outcomes is given if and only if its case holds, with its code and text: a canceled run that was not persisting and not over its limit is reported as canceled, a failed save as that, and so on |
| Effects.TurnEnds | internal/chat/coordinator.go:257-343 | a whole turn that nothing comes between, from the reservation to the end: by cancel, the runner's failure or result, and the store's answer, exactly the outcome it should have, kept as the session's last end; the stored record takes the result exactly when the outcome says so; nothing else changes |
| Effects.EndMeans | internal/chat/coordinator.go:400-419 | what is kept of a run that ends: its outcome and all it leaves, or, when that is over 4 MiB, the notice that it is gone |
| Guarantees.CanceledRunNeverSaves | internal/chat/coordinator.go:420-431 | a run canceled before its commit never enters it, in any continuation, and its stored record stays what it was |
| Effects.AcceptedCancelStops | internal/chat/coordinator.go:420-431 | from the call on: an accepted cancel of a run that does not persist yet keeps it from ever saving, in any continuation, leaves its stored record as it is, and is what the run is judged by unless it broke its budget |
| Effects.CancelMeans | internal/chat/coordinator.go:420-431 | a cancel is accepted if and only if it names the active run; it cancels that run unless it is persisting, and changes nothing else |
| Guarantees.CommitIsNotInterrupted | internal/chat/coordinator.go:631-641 | once persisting, no cancel and no shutdown reaches the run's context, and it ends succeeded or persistence_failed |
| Guarantees.RecordStaysUntilCommit | internal/chat/coordinator.go:598-608 | from any moment of a persistent engine's run to any later one before its commit, whatever happens in between, the record stored for it does not change and is the one it was started from |
| Guarantees.CommitChangesOnlyMessages | internal/chat/service.go:65-89 | at its commit a run's stored record still equals the one it loaded, so the save replaces its messages and loses nothing; a failed save changes nothing |
| Guarantees.ConversationSurvives | internal/chat/service.go:78-112 | any conversation that can be read off a session's record, message for message and in order, can be read off every later record until the session is created anew or deleted (in an ephemeral engine: from any workspace); an ephemeral engine keeps exactly what it has |
| Guarantees.SavedTurnIsComplete | internal/chat/coordinator.go:203-215 | whatever happens between reservation and commit, any conversation read off the session's record followed by any read off the turn's messages can be read off what the turn saves, and no system message is saved |
| Guarantees.RefusedTurn | internal/chat/coordinator.go:172-206 | a refused turn adds no run and tells no subscriber; it changes the store if and only if nothing but its own length refuses it and its session did not exist, and then by creating that session empty |
| Guarantees.RefusedTurnLeavesRecord | internal/chat/coordinator.go:193-206 | the first turn of an engine, with one message of 4 MiB, is refused and leaves a record |
| Effects.ReserveMeans | internal/chat/coordinator.go:172-215 | a turn is accepted if and only if it says something, the engine runs, the session is idle, its store answers and the history fits 4 MiB; what the new run starts with; that nothing else changes |
| Effects.RefusalMeans | internal/chat/coordinator.go:172-206 | a refused turn is refused for the first reason there is, in the order of the tests |
| Effects.MutateMeans | internal/chat/coordinator.go:598-628 | a mutation is accepted if and only if the engine runs, the session is idle and its store takes it; then the session is as asked for and no other address changes |
| Guarantees.StepHitsActiveRunIff | internal/chat/coordinator.go:172-206 | of all steps in all reachable states, apart from a run's own commit, exactly these change the stored record of an active run: in an ephemeral engine, a turn that starts a session and a mutation that asks for something new, when a run (of another workspace) has the session's id |
| Guarantees.MutationHitsActiveRunIff | internal/chat/coordinator.go:598-628 | an accepted create, delete or rename changes the stored record of some active run if and only if the engine is ephemeral, a run of another workspace has the same id, and it asks for something other than what is stored |
| Guarantees.EphemeralRecordCanVanish | internal/chat/coordinator.go:120-123 | a run of an ephemeral engine in which an active run's record is deleted from another workspace |
| Guarantees.DeliveryIsOrdered | internal/chat/coordinator.go:385-419 | what every subscriber accepted is in legal order, what its reader was handed is a prefix of it, it is registered if and only if its queue is open, and its byte counter is exact |
| Effects.DeliveryIsExact | internal/chat/coordinator.go:385-399 | in every step of every reachable state each subscriber is told exactly the news of its session or the snapshot it asked for, once; it is dropped only when that does not fit into its queue or when it is closed |
| Effects.SubscribeMeans | internal/chat/coordinator.go:437-468 | a subscription is refused if and only if the engine is stopped, the session cannot be read or its snapshot does not fit; it starts with that snapshot, under the request's name, and disturbs no other |
| Effects.SnapshotMeans | internal/chat/coordinator.go:494-529 | a session's snapshot is its active run, else its kept end, else what is stored, and only the last can fail |
| Grammar.LegalMeans | internal/chat/coordinator.go:209-213 | a legal order starts with a snapshot; whatever is said for a run follows a snapshot naming it as running with no outcome and no other run's snapshot between; no run has two outcomes or is announced after its outcome; and between the announcements of two runs the outcome of the first is told |
| Guarantees.SubscriberIsCurrent | internal/chat/coordinator.go:437-488 | a registered subscriber has been told of exactly the active run and its open prompt, or that there is none |
| Guarantees.CacheIsExact | internal/chat/coordinator.go:530-558 | active runs and cached ends have disjoint keys, the cache's order and counters are exact, and the byte budget holds if and only if every kept snapshot fits it by itself |
| Guarantees.EvictionIsTransparent | internal/chat/coordinator.go:511-529 | dropping a persisted success that is still whole leaves the messages a snapshot returns as they were |
| Guarantees.ProjectionIsBounded | internal/chat/coordinator.go:364-386 | the projection is the joining of exactly the events published, its counter the initial messages plus every raw event, at least what the projection takes and at most 4 MiB |
| Guarantees.LimitEndsTheStream | internal/chat/coordinator.go:364-376 | after the first event that does not fit, in every continuation, nothing more is published for the run and it can end only as failed with projection_limit |
| Effects.EmitMeans | internal/chat/coordinator.go:364-386 | an event is published under its run's name exactly while 4 MiB hold it; the first that does not fit cancels the run |
| Guarantees.ReplyNeverBlocks | internal/chat/coordinator.go:565-582 | an accepted reply meets a waiter of that very interaction and an empty channel, and is valid for its prompt |
| Effects.ReplyMeans | internal/chat/coordinator.go:565-582 | a reply is accepted if and only if it names the open interaction of a run that is not canceled and answers it (free text, as -1, included); then exactly that answer wakes the waiter; a bad selection and a stale reply are told apart and change nothing |
| Guarantees.ResolvedBeforeResume | internal/chat/coordinator.go:576-582 | between the two halves of an accepted reply every registered queue of the session already ends with the resolution, and the runner that asked still has nothing to go on with: no answer, and no canceled context |
| Guarantees.WaiterGetsItsAnswer | internal/chat/coordinator.go:345-363 | what a waiting runner finds is a valid answer to the interaction it asked |
| Guarantees.AnsweredOnce | internal/chat/coordinator.go:565-582 | after one accepted reply every other reply to that interaction is refused, in every continuation |
| Guarantees.StoppedOnlyDrains | internal/chat/coordinator.go:631-641 | once stopped, no run, no list worker and no subscriber is ever added |
| Effects.ShutdownMeans | internal/chat/coordinator.go:631-641 | a shutdown stops the engine, cancels every run that is not persisting and no other, and waits for all of them |
| Effects.ShutdownCompletes | internal/chat/coordinator.go:642-677 | once the captured runs have ended and no listing is in flight, a shutdown's own steps close every queue and every store and it returns |
| Effects.StoppedRefuses | internal/chat/coordinator.go:583-603 | a stopped engine refuses every turn, subscription, mutation and listing with the same answer and changes nothing |
| Guarantees.StoresCloseOnlyWhenIdle | internal/chat/coordinator.go:642-672 | a shutdown reaches the closing of stores and queues only with no active run and no list worker |
| Guarantees.DrainedIsFinal | internal/chat/coordinator.go:656-677 | after a shutdown returned nil no run, no registered subscriber and no change of the store is reachable |
| Guarantees.TimedOutNeverCloses | internal/chat/coordinator.go:642-655 | a shutdown that timed out stays timed out in every continuation, and the step that closes queues and stores is never its own |
| Guarantees.OnlyAShutdownCloses | internal/chat/coordinator.go:656-677 | whatever step takes a store away is the last block of a shutdown that has seen every run and every list worker end |
| Service.ComputeHistoryFrom | internal/chat/service.go:93-102 | the loop leaves out exactly the two placeholders: any other message stays, as often as it was there and in its place |
| Service.ComputeWithoutSystem | internal/chat/service.go:104-112 | the loop leaves out exactly the system messages: any other message stays, as often as it was there and in its place |
| Service.HistoryKeepsConversation | internal/chat/service.go:93-112 | loading a history leaves out system messages only, and reorders nothing |
| Service.TurnKeepsConversation | internal/chat/service.go:78-112 | any conversation read off the stored record followed by any read off the new messages can be read off what the turn saves, and no system message is saved |
| Transcript.CoalesceShrinks | internal/chat/coordinator.go:375-384 | the joined projection is never larger than the raw events |
| Transcript.CoalesceIsTight | internal/chat/coordinator.go:375-384 | no two neighbours of the projection could still be joined, and events that are not text or reasoning are in it as they were published |
| Transcript.EverythingCounts | internal/chat/event.go:111-113 | every character of every field of an event, a message and an outcome counts once in its size |
| Transcript.EveryPartCounts | internal/chat/event.go:111-113 | a snapshot grows by the whole size of each message, event, prompt and outcome that enters it, and an update is larger than what it carries |
| Retention.RetainKeeps | internal/chat/coordinator.go:542-558 | keeping a finished run preserves the exact accounting (order duplicate-free and equal to the keys, counter the exact sum, at most 64), keeps the new end and changes no other |
| Retention.EvictsShortestPrefix | internal/chat/coordinator.go:552-554 | eviction removes the oldest entries, and no fewer would have made room |
| Retention.EvictKeeps | internal/chat/coordinator.go:552-554 | eviction leaves the entries it keeps untouched, and leaves room |
| Retention.DropKeeps | internal/chat/coordinator.go:530-541 | dropping an end keeps the accounting exact |
| Retention.BudgetHoldsIff | internal/chat/coordinator.go:542-558 | the retained bytes are within 32 MiB if and only if every kept snapshot is |
| Retention.RetainFitsIff | internal/chat/coordinator.go:542-558 | keeping an end leaves the retained bytes within 32 MiB if and only if what is kept of it is, whatever was cached |
| Guarantees.BudgetCanBreak | internal/chat/coordinator.go:545-558 | a run from the first step of an engine to retained bytes over the budget |
| Subscriptions.DeliveryIsPrefix | internal/chat/subscription.go:43-78 | over every interleaving of producer, reader and closer, what was delivered is a gap-free prefix of what was accepted, and the counts and bytes are bounded and exact |
| Subscriptions.ChannelIsSafe | internal/chat/subscription.go:43-89 | over every interleaving nothing is sent on a closed channel, no channel is closed twice, and the flag says exactly whether the channel is closed |
| Subscriptions.OverflowIsFinal | internal/chat/subscription.go:50-54 | after an overflow nothing is ever accepted or delivered again |
| Subscriptions.EndOnlyAfterAll | internal/chat/subscription.go:62-78 | the end of the queue is reported only when everything accepted was delivered |
| Subscriptions.DrainThenEnd | internal/chat/subscription.go:62-89 | after a graceful close repeated Next delivers every queued update and then the end |
| Subscriptions.EnqueueMeans | internal/chat/subscription.go:43-60 | an update is taken if and only if the queue is open and has one of its 128 places and the bytes within 16 MiB for it; otherwise an open queue is closed as too slow |
| Subscriptions.NextMeans | internal/chat/subscription.go:62-78 | Next hands over the oldest update not handed over yet, the end when there is none left in a closed queue, and after an overflow that error |
| Subscriptions.Subscription.constructor | internal/chat/coordinator.go:437-448 | a new queue is empty and open |
| Subscriptions.Subscription.Enqueue | internal/chat/subscription.go:43-60 | the bounded enqueue, as its step |
| Subscriptions.Subscription.Receive | internal/chat/subscription.go:62-66 | the first half of Next, as its step |
| Subscriptions.Subscription.Settle | internal/chat/subscription.go:67-78 | the second half of Next under the mutex, as its step |
| Subscriptions.Subscription.CloseQueue | internal/chat/subscription.go:82-89 | the graceful close, as its step: the channel is closed unless the flag says it is |
| Coordinators.Coordinator.constructor | internal/chat/coordinator.go:117-131 | a new coordinator is the initial state |
| Coordinators.Coordinator.ReserveTurn | internal/chat/coordinator.go:172-215 | the whole new state and result of a reservation, in every error case, and still a state that occurs |
| Coordinators.Coordinator.RecordLocked | internal/chat/coordinator.go:188-202 | the session's record, created when there is none, or the first refusal in order |
| Coordinators.Coordinator.AdmitLocked | internal/chat/coordinator.go:204-213 | the stale end goes, the run is entered, its snapshot is fanned out |
| Coordinators.Coordinator.AppendAndBroadcastEvent | internal/chat/coordinator.go:364-386 | the budget, the joining and the fan-out of one event |
| Coordinators.Coordinator.JoinEvent | internal/chat/coordinator.go:378-384 | the in-place joining computes Absorb |
| Coordinators.Coordinator.WaitInteraction | internal/chat/coordinator.go:345-356 | the locked half of a question |
| Coordinators.Coordinator.ReplyTo | internal/chat/coordinator.go:565-582 | a reply, as its step; `Effects.ReplyMeans` says which replies are accepted |
| Coordinators.Coordinator.ResolveLocked | internal/chat/coordinator.go:576-579 | the interaction is consumed and its resolution is in the queues before anything is handed over |
| Coordinators.Coordinator.OnPersist | internal/chat/coordinator.go:306-314 | the commit is entered if and only if the run's context is alive |
| Coordinators.Coordinator.SaveResult | internal/chat/service.go:78-89 | the save and what it leaves when it fails |
| Coordinators.Coordinator.JudgeRun | internal/chat/coordinator.go:320-341 | the outcome switch, in its order; `Effects.OutcomeMeans` says when each outcome is given |
| Coordinators.Coordinator.FinalOf | internal/chat/coordinator.go:403-412 | what a finished run leaves in the cache |
| Coordinators.Coordinator.FinishRun | internal/chat/coordinator.go:400-419 | the run leaves, its end is kept, its outcome is fanned out |
| Coordinators.Coordinator.CancelRun | internal/chat/coordinator.go:420-431 | a cancel reaches the named run unless it is persisting; `Effects.CancelMeans` says that it lands and changes nothing else |
| Coordinators.Coordinator.PublishLocked | internal/chat/coordinator.go:392-399 | fan-out to exactly the session's subscribers, dropping those whose queue is full |
| Coordinators.Coordinator.OfferTo | internal/chat/coordinator.go:392-399 | one subscriber takes an update or is dropped |
| Coordinators.Coordinator.DropTerminalLocked | internal/chat/coordinator.go:530-541 | the in-place removal computes Drop |
| Coordinators.Coordinator.RetainLocked | internal/chat/coordinator.go:542-558 | the in-place eviction loop computes Retain |
| Coordinators.Coordinator.SnapshotLocked | internal/chat/coordinator.go:511-529 | live run, else cached end, else store |
| Coordinators.Coordinator.StoreLocked | internal/chat/coordinator.go:143-159 | a workspace's store is opened unless the engine is ephemeral |
| Coordinators.Coordinator.AddSubscription | internal/chat/coordinator.go:449-467 | a new queue with its first snapshot, registered if and only if it fits |
| Coordinators.Coordinator.SubscribeTo | internal/chat/coordinator.go:437-468 | a subscription and its first snapshot, or the stated error |
| Coordinators.Coordinator.ResnapshotTo | internal/chat/coordinator.go:472-488 | a fresh snapshot into an open queue |
| Coordinators.Coordinator.UnsubscribeFrom | internal/chat/coordinator.go:450-458 | a queue is closed and leaves the table, once or twice alike |
| Coordinators.Coordinator.MutateSession | internal/chat/coordinator.go:598-628 | create, delete and rename, with every refusal |
| Coordinators.Coordinator.BeginList | internal/chat/coordinator.go:583-591 | a list worker is counted before the mutex is left |
| Coordinators.Coordinator.CancelRuns | internal/chat/coordinator.go:635-640 | the loop cancels exactly the runs that are not committing and captures them all |
| Coordinators.Coordinator.BeginShutdown | internal/chat/coordinator.go:631-641 | the first locked block of a shutdown |
| Coordinators.Coordinator.CloseQueues | internal/chat/coordinator.go:658-663 | the loop closes every registered queue and empties the table |
| Coordinators.Coordinator.CloseShutdown | internal/chat/coordinator.go:656-675 | the last locked block of a shutdown |
| ConnectionProofs.BackpressureIsSound | pkg/engine/conn.go:64-89 | for any number of writers the counter is the queued bytes, the unreleased frame and the open reservations; admitted unreleased bytes are within 16 MiB; nothing of a refused send is left |
| ConnectionProofs.UnsentBytes | pkg/engine/conn.go:111-131 | the counted bytes are all that is unsent if and only if no bytes are being written; then they are within the cap; at all times they are within twice the cap, which some run reaches |
| ConnectionProofs.WireIsFenced | pkg/engine/handlers.go:126-149 | on the wire every frame after a workspace acknowledgement and before the next carries the acknowledged workspace, and before the first the initial one, under every interleaving of forwarders, switches and close |
| ConnectionProofs.FramesKeepOrder | pkg/engine/conn.go:111-131 | in every run the socket has the frames in admission order, and until a write fails every admitted frame is written, in the pump or queued |
| ConnectionProgress.UpdateGoesOut | pkg/engine/conn.go:321-362 | an undisturbed pass of a forwarder: an update of a current subscription is queued and counted when the connection is open and has room, the forwarder stops without a trace when not, and nothing goes out for a subscription that is not current |
| ConnectionProgress.FrameReachesTheSocket | pkg/engine/conn.go:124-131 | an undisturbed pass of the pump brings the oldest frame to the socket |
| ConnectionProgress.SubscriptionStarts | pkg/engine/conn.go:264-287 | a subscription becomes the session's current one, under the connection's workspace, and is forwarded unless the connection is closed |
| ConnectionProofs.SelectKeepsFence | pkg/engine/conn.go:321-362 | a frame is admitted by a forwarder only while its subscription is current, and then carries the fenced workspace |
| ConnectionProofs.SendingKeepsBudget | pkg/engine/conn.go:75-88 | each step of a send keeps the counter exact and the budget |
| Connections.Conn.constructor | pkg/engine/conn.go:34-43 | a new connection is the initial state |
| Connections.Conn.OpenSend | pkg/engine/conn.go:64-70 | the closed check, as its step |
| Connections.Conn.AddBytes | pkg/engine/conn.go:75-77 | add, then check |
| Connections.Conn.SelectSend | pkg/engine/conn.go:79-88 | the select, with its free choice between closed and queue |
| Connections.Conn.RefundBytes | pkg/engine/conn.go:76-86 | exactly what was reserved is given back |
| Connections.Conn.CompleteSend | pkg/engine/conn.go:75-89 | past the closed check, an undisturbed send queues the frame and counts it exactly when budget, queue and the choice of the select let it, and otherwise leaves nothing |
| Connections.Conn.BeginSend | pkg/engine/conn.go:64-70 | the read loop starts a reply or an acknowledgement with the workspace set at that moment |
| Connections.Conn.TrySendEnvelope | pkg/engine/conn.go:64-89 | undisturbed, a send queues the frame and counts it exactly when the connection is open, the budget and the queue have room, and otherwise changes neither |
| Connections.Conn.TakeFrame | pkg/engine/conn.go:124-125 | the pump takes the oldest frame |
| Connections.Conn.ReleaseBytes | pkg/engine/conn.go:124-125 | its bytes are given back before the write |
| Connections.Conn.WriteFrame | pkg/engine/conn.go:126-131 | the frame reaches the socket, or the pump stops |
| Connections.Conn.ForwardUpdate | pkg/engine/conn.go:350-356 | under the read lock, an update goes out only for the current subscription; a forwarder is told to stop exactly when it is current and the connection is closed |
| Connections.Conn.RecordSubscription | pkg/engine/conn.go:274-281 | a new subscription enters the table with the connection's workspace |
| Connections.Conn.StartForwarder | pkg/engine/conn.go:282-286 | a forwarder starts unless the connection is closed |
| Connections.Conn.RevokeAll | pkg/engine/handlers.go:137-143 | the table is emptied, and no subscription is current any more |
| Connections.Conn.SetWorkspace | pkg/engine/handlers.go:144-144 | the workspace changes only after a revocation, while still no subscription is current |
| Connections.Conn.HandleWorkspaceSet | pkg/engine/handlers.go:126-147 | a target that resolves revokes every subscription, is set, and its acknowledgement is the next frame; a blank one acknowledges the present workspace; one that does not resolve is answered with an error and changes nothing |
| Connections.Conn.CloseTable | pkg/engine/conn.go:95-102 | close takes every subscription out of the table: none is current any more |
| Connections.Conn.CloseDone | pkg/engine/conn.go:103-109 | whatever send comes to the closed check afterwards is refused |
| ToolRepair.SanitizeToolCalls | pkg/agent/agent.go:186-219 | for every order in which the map is walked each call is answered before the next non-tool message or the end, and the history is unchanged if and only if it was well formed |
| ToolRepair.RepairIsIdempotent | pkg/agent/agent.go:186-219 | repairing a repaired history changes nothing, whatever the two orders |
| ToolRepair.RepairAnswers | pkg/agent/agent.go:199-218 | every possible result leaves no call unanswered |
| ToolRepair.RepairAddsLacking | pkg/agent/agent.go:192-218 | every possible result is the input plus exactly one placeholder for each call that nothing answers |
| ToolRepair.RepairKeeps | pkg/agent/agent.go:199-216 | every possible result contains the history, in order |
| ToolRepair.RepairChangesOnlyBroken | pkg/agent/agent.go:186-219 | the repair is the identity exactly on well-formed histories |
| ToolRepair.WellFormedMeans | pkg/agent/agent.go:186-191 | a history is sound if and only if every call under a non-empty id is followed by a tool message that names it with only tool messages between |
| ToolRepair.EndingMeans | pkg/agent/agent.go:263-269 | all that was generated is handed back, and the final answer is added unless an assistant message is the last |
| ToolRepair.Flush | pkg/agent/agent.go:192-198 | one placeholder for each pending id, in the map's order |
| ToolRepair.PrepareMessages | pkg/agent/agent.go:178-184 | the system prompt comes first when there is one, the result is well formed and contains the given history |
| ToolRepair.FullHistory | pkg/agent/agent.go:263-269 | a run hands back a well-formed history containing the given one, then what was generated, then the final answer when the loop did not end with one |
| LeaseProofs.LeaseCounts | pkg/session/lease.go:45-82 | in any run of open, operate, close and process death: a count is the number of the process's stores holding the directory, the lock is held exactly while it is positive, and all holders of a directory are of one process |
| LeaseProofs.GrantedIff | pkg/session/session.go:56-72 | a store gets the lease if and only if it is open and no other process's store holds the directory (or nothing needs to be acquired) |
| LeaseProofs.OnlyTheOwnerOperates | pkg/session/session.go:105-134 | an operation succeeds only for the process that owns the directory at the moment it touches the files |
| LeaseProofs.OnlyTheOwnerWrites | pkg/session/session.go:105-134 | nothing but an owner's operation changes a directory's files |
| LeaseProofs.OwnedFilesStay | pkg/session/session.go:153-185 | while a process keeps a directory its files stay as it left them, over every run of the others |
| LeaseProofs.DirectoryIsRegister | pkg/session/session.go:93-266 | what is saved under an id is what is loaded and listed until it is saved again or deleted, other ids do not notice, and a refused operation changes no file |
| LeaseProofs.CloseMeans | pkg/session/session.go:83-91 | a close gives back what the store holds and no more: its process keeps the directory exactly while another of its stores holds it |
| LeaseSpec.TrimMeans | pkg/session/session.go:23-32 | trimming takes nothing but space away, and only from the ends |
| DirStores.LeaseTable.AcquireStoreLease | pkg/session/lease.go:45-66 | the reference count and the lock after an acquire, in every case |
| DirStores.LeaseTable.ReleaseStoreLease | pkg/session/lease.go:69-82 | the last reference gives the lock back |
| DirStores.DirStore.constructor | pkg/session/session.go:50-54 | a new store has asked for its lease once; it stands in the world its process opened it in |
| DirStores.DirStore.EnsureLease | pkg/session/session.go:56-72 | the lease gate |
| DirStores.DirStore.CloseStore | pkg/session/session.go:83-91 | a close gives back what the store holds, once |
| DirStores.DirStore.SaveRecord | pkg/session/session.go:93-134 | the gate, then the trimmed id, the directory and the write; a refused save changes no file; undisturbed, it is two steps of the world the store stands in |
| DirStores.DirStore.LoadRecord | pkg/session/session.go:153-185 | the gate, then what is stored, or the stated error |
| DirStores.DirStore.ListRecords | pkg/session/session.go:188-215 | the gate, then what the directory holds |
| DirStores.DirStore.DeleteRecord | pkg/session/session.go:250-266 | the gate, then the removal; a missing file is no error |
| ClientProofs.RequestsSettleOnce | apps/electron/lib/engineClient.ts:91-151 | under any interleaving of replies, timers, failed sends, closes and reconnects a request is settled exactly when it is no longer pending, once; its timer is armed exactly while it is pending; its reply reaches the handler at most once |
| ClientProofs.LateRepliesAreInert | apps/electron/lib/engineClient.ts:226-231 | a reply to a settled or unknown request changes nothing and reaches nobody |
| ClientProofs.CommandsStayInScope | apps/electron/lib/engineClient.ts:323-348 | every command of a coroutine goes out on the connection, in the scope and to the workspace it began in, and startChat sends its prompt at most once, to the session it was given or created |
| ClientProofs.NothingOutlivesTheConnection | apps/electron/lib/engineClient.ts:252-268 | when a new connection is made no request is pending and every coroutine is over |
| ClientProgress.CallGoesOut | apps/electron/lib/engineClient.ts:91-139 | a call of a ready client sends its first command at once, for the session it is about, and waits for the reply; a client that is not ready sends nothing and says so |
| ClientProgress.ReplyArrives | apps/electron/lib/engineClient.ts:226-240 | the reply a request waits for settles it, stops its timer, is handed on once and lets its coroutine go on with it |
| ClientProgress.NewChatGoesThrough | apps/electron/lib/engineClient.ts:315-348 | startChat without a session, answered all the way: create, open, list, and one prompt to the session that was created, in this order |
| ClientProgress.DeletingGoesOn | apps/electron/lib/engineClient.ts:358-374 | a deleted session is forgotten and unsubscribed before the list is asked for; a renamed one is followed by the list |
| ClientProgress.AuthenticationBegins | apps/electron/lib/engineClient.ts:199-225 | a good authentication begins a synchronization in a new scope, to the wanted workspace or the engine's own |
| ClientProgress.SynchronizationCompletes | apps/electron/lib/engineClient.ts:269-298 | a synchronization answered all the way asks for the workspace, the settings, the list and every session to restore, in this order, and ends ready in the confirmed workspace, for any number of sessions |
| ClientProgress.RestoredMeans | apps/electron/lib/engineClient.ts:283-292 | the active session is restored first, and every wanted one once |
| ClientProgress.WantMeans | apps/electron/lib/engineClient.ts:83-90 | a wanted session is wanted once; a deleted one is neither wanted nor active |
| ClientProgress.RefusalEnds | apps/electron/lib/engineClient.ts:299-314 | a refused command ends its coroutine with nothing more sent; a refused choice of a workspace leaves the client ready where it was, a refused first synchronization closes the socket |
| ClientProgress.FailuresClose | apps/electron/lib/engineClient.ts:109-118 | a timeout, an unreadable or wrong message and a failing handler close the socket |
| ClientProgress.ClosedIsSilent | apps/electron/lib/engineClient.ts:152-161 | after close nothing is ever sent and no connection is made, in any continuation |
| ClientProgress.SetWorkspaceMeans | apps/electron/lib/engineClient.ts:299-303 | a workspace is chosen only by a client that is ready and not synchronizing |
| EngineClients.EngineClient.constructor | apps/electron/lib/engineClient.ts:74-79 | a new client has nothing pending and is about to connect |
| EngineClients.EngineClient.SendRequest | apps/electron/lib/engineClient.ts:91-139 | a request is pending and timed, or rejected without a trace |
| EngineClients.EngineClient.SettleRequest | apps/electron/lib/engineClient.ts:233-240 | a settled request is neither pending nor timed |
| EngineClients.EngineClient.RejectAll | apps/electron/lib/engineClient.ts:140-151 | the loop rejects every pending request and clears its timer |
| EngineClients.EngineClient.CloseForGood | apps/electron/lib/engineClient.ts:152-161 | close |
| EngineClients.EngineClient.ConnectAgain | apps/electron/lib/engineClient.ts:162-177 | a new generation and socket, or a retry |
| EngineClients.EngineClient.OnClose | apps/electron/lib/engineClient.ts:252-260 | the socket's close event |
| EngineClients.EngineClient.OnTimeout | apps/electron/lib/engineClient.ts:109-118 | a request's timer |
| EngineClients.EngineClient.OnMessage | apps/electron/lib/engineClient.ts:199-248 | correlation, authentication, delivery and settling of one message, with every way it can fail |
| EngineClients.EngineClient.BeginSynchronize | apps/electron/lib/engineClient.ts:269-276 | a new scope, and no ordinary command until it is done |
| EngineClients.EngineClient.DesireSession | apps/electron/lib/engineClient.ts:83-90 | a session is wanted once |
| EngineClients.EngineClient.BeginChat | apps/electron/lib/engineClient.ts:335-346 | startChat up to its first await |
| EngineClients.EngineClient.SendPrompt | apps/electron/lib/engineClient.ts:339-347 | startChat's last stretch: the prompt goes out if the scope stands, and otherwise nothing does |
| EngineClients.EngineClient.SelectWorkspace | apps/electron/lib/engineClient.ts:299-303 | a workspace is selected only when ready |
| EngineClients.EngineClient.RestoreNext | apps/electron/lib/engineClient.ts:289-298 | while the scope stands the next wanted session, and after the last one ready |

## Left out

- EngineClients.EngineClient.DesireSession: the scope's fields are kept in one record, so aliasing between the sets of one map is not modelled.
- Coordinators.Coordinator.StoreLocked: stores are opened by name and never fail to open; an injected shared store is not modelled.
- Coordinators.Coordinator.SaveResult: the active run is a value in the run map, not a shared pointer, so its identity across maps is not modelled; timestamps are left out, and a loaded record always has an id.
- Coordinators.Coordinator.ReserveTurn: the title is a parameter (cutting it from the first message is one expression), and so is the id made up for a request that names no session.
- Connections.Conn.HandleWorkspaceSet: the session list sent after the acknowledgement is an ordinary reply, a separate send of the connection, and its contents are not modelled.
- DirStores.DirStore.SaveRecord: the timestamps it sets are left out.
- DirStores.DirStore.LoadRecord: files hold records; blank, damaged or multi-line files and the scan for the last valid line are not modelled.
- A request for a session that is already subscribed goes through the coordinator's `Resnapshot` and is not a separate step of the connection.
- DirStores.DirStore.ListRecords: the listing is the directory's records by id; metadata and the sorting by time are not modelled.
- Counters are unbounded integers; the 64-bit counters of the engine stay far below their limit.
- Real time: deadlines, pings, back-off delays and the two-second git lookup. A timer is a step that may come at any time.
- Lookups on the desktop's plain objects are maps; ids that name members of `Object.prototype` are not modelled.
- HTTP, websocket handshakes, authentication, JSON encoding, symbolic-link resolution, the steps inside an atomic file write, provider calls and tool execution.
- Permission and settings resolution, URL parsing, error texts, session titles, the markdown renderer, React components and the Electron main process.
- The remote command-line loop of `pkg/engine/client.go`, which is driven by timers.
