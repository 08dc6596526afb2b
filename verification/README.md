# Interleavings and transcripts of the NemoClaw agents

A Dafny model of four parts of the system: the message bus (broker and client), the delegation manager with the
workflow dispatcher, the agent loop with everything that edits its transcript, and the audit writer.  Each part keeps
state that several coroutines change, and promises something that no single function can promise alone.

`dafny verify dfyconfig.toml` checks everything.

## How it is built

Under asyncio the code between two `await`s runs without interruption.  So each part is a state machine whose steps are
these stretches of code: `...Model` modules hold the state, the steps, and runs of steps in any order; `...Proofs`
modules hold what is true of all of them; `...Answers` and `...Effects` modules say what each step
answers and changes, in terms of the tables and of what came in, without the functions that compute it; `...Runs`
modules hold single runs on which a promise fails; `...Service`
modules hold the objects as they are in the source, with fields that their methods update, each method proved to
compute the step of the model.  Loops that a single coroutine runs are methods with loops, proved against recursive
functions.  What lies outside (the model backend, tools, callbacks,
sockets, clocks) is an arbitrary function, or an event that may happen whenever it is possible.

| file | what it models |
|---|---|
| `BrokerModel.dfy`, `BrokerProofs.dfy`, `BrokerRuns.dfy`, `BrokerServer.dfy` | the tables of the broker, its timers, its sockets, and handlers suspended in a delivery |
| `BrokerAnswers.dfy` | what the far side is told, and what each step changes, in terms of the tables alone |
| `BrokerAudit.dfy` | what the broker queues for the audit writer, and in which order |
| `Client.dfy`, `Streams.dfy` | futures of the bus client; bounded queues and the way of a stream |
| `Delegation.dfy`, `Dispatcher.dfy` | concurrency slots; workflow registry and finalisation tasks |
| `Transcript.dfy` | the tool-calling protocol, micro-truncation, full compaction |
| `ToolBatch.dfy`, `Continuation.dfy`, `AgentLoop.dfy`, `AgentAnswers.dfy` | one batch of tool calls; continuing a cut answer in two ways; the multi-turn loop; what a run returns |
| `Approvals.dfy`, `ApprovalEffects.dfy`, `ThreadHistory.dfy` | write approvals; what each click and message does; what is remembered of each thread |
| `Audit.dfy` | the batching writer and the ingestion of audit flushes |
| `Wrappers.dfy` | optional values |

## Where the code does not keep the promise

The code was kept as it is.  Each of these has a concrete input or run, named here, and a condition under which the
promise holds, which is exact.

- The broker decrements a sandbox's count when a delivery fails, even if a timeout has already settled the request
  (`BrokerRuns.LateFailureBreaksLimit`).  It loses a slot when a pending id is used again (`ReusedIdLosesSlot`), and takes
  frames from a socket that was rejected as a duplicate (`RejectedSocketStrandsRequest`).  The invariant is kept exactly by
  steps that are `Disciplined` (`BrokerProofs.StepExact`): the condition reads only the tables before the step.
- Overlapping operations on one workflow can release a slot twice or lose one (`DelegationRuns.DoubleReleaseBreaksCap`,
  `LostSlotLeavesNoPermit`).  Slots are conserved exactly by steps that are `Sound` (`DelegationProofs.StepExact`);
  operations in turn per workflow always are.
- The audit table can depend on how the queue was cut into batches (`BrokerAuditRuns.TimeoutCanComeFirst`): exactly when a
  timeout was queued while the handler of its own request was still delivering or answering (`BrokerAuditProofs.AuditExact`).
- The truncation notice is documented to name the original size; a second round replaces it by the size of the cut
  text (`Truncation.SecondNoticeIsWrong`, `SecondRoundExact`).
- Full compaction can separate a call from its result with default settings, so that a run sends a malformed request
  (`AgentLoopRuns.DefaultsCanSplitExchange`); it keeps the protocol exactly if the first message it keeps is not a tool
  result (`Compaction.CompactionExact`).
- The two continuation loops differ on blank and on filtered answers: the rebuilding one then drops what it has
  gathered (`Continuation.SilenceLosesText`, `TextsAgreeExact`).
- Two overlapping messages of one thread that both ask for approval leave one prompt; the other is lost silently
  (`ApprovalProofs.OverlapLosesPrompt`, `LostExact`).
- A history cap of 0 keeps everything (`ThreadHistory.ZeroKeepsFirstTurn`, `CapExact`).

## Model

| member | source | states |
|---|---|---|
| BrokerProofs.StepExact | src/nemoclaw_escapades/nmb/broker.py:282-885 | The broker invariant (registry and its inverse, channel table and its inverse, no empty channel, channel limits, timers against pending entries, counts against pending entries, one settlement per registration) is kept by a step of register, disconnect, request, delivery outcome, reply, timer, subscribe or unsubscribe if and only if the step is `Disciplined` |
| BrokerProofs.RunExact | src/nemoclaw_escapades/nmb/broker.py:282-885 | Over every run from the empty broker: the invariant holds throughout if and only if every step was disciplined |
| BrokerProofs.InFlightBounded | src/nemoclaw_escapades/nmb/broker.py:540-584 | After every disciplined run, for each sandbox: stored count = number of its pending entries = number of its armed timers, and this never exceeds `max_pending_per_sandbox` |
| BrokerProofs.EachRequestSettledOnce | src/nemoclaw_escapades/nmb/broker.py:557-626 | After every disciplined run each registration is either still in the pending table or was settled exactly once, by a reply, a timeout, a failed delivery or the departure of its requester |
| BrokerProofs.RegistrationExact | src/nemoclaw_escapades/nmb/broker.py:540-564 | A request that passes the guards keeps the invariant exactly if its id is not pending and its sender is connected |
| BrokerProofs.FailedDeliveryExact | src/nemoclaw_escapades/nmb/broker.py:566-585 | The rollback of a failed delivery keeps the invariant exactly if it finds its own entry, or finds nothing and the count is already zero |
| BrokerProofs.SubscriptionExact | src/nemoclaw_escapades/nmb/broker.py:645-683 | A subscription keeps the invariant exactly if its sender is connected; a refused one changes no subscription |
| BrokerProofs.ReplyReachesRequester | src/nemoclaw_escapades/nmb/broker.py:605-635 | In every state with the invariant a matched reply is forwarded to the requester of the entry: the branch for a requester that has gone is unreachable |
| BrokerProofs.UnregisterLeavesNoTrace | src/nemoclaw_escapades/nmb/broker.py:345-372 | Closing the registered socket removes the sandbox from all six tables and from every armed timer |
| BrokerProofs.UnregisterSparesOthers | src/nemoclaw_escapades/nmb/broker.py:345-372 | ... and leaves every other sandbox its connection, requests, count and subscriptions |
| BrokerProofs.DisconnectedHasNoTrace | src/nemoclaw_escapades/nmb/broker.py:282-389 | Whoever is not connected appears in no table and in no timer |
| BrokerProofs.UnsubscribeUndoesSubscribe | src/nemoclaw_escapades/nmb/broker.py:671-719 | A new subscription followed by its removal restores the whole state, including the removal of a channel that was created for it |
| BrokerRuns.LateFailureBreaksLimit | src/nemoclaw_escapades/nmb/broker.py:573-576 | A run of twelve steps of three sandboxes, with a limit of two, that ends with three requests of one of them in flight: a delivery fails, because its target has closed, only after its request has timed out, and decrements the count a second time |
| BrokerRuns.ReusedIdLosesSlot | src/nemoclaw_escapades/nmb/broker.py:563-564 | A run that uses an id again while it is pending: in the end nothing is in flight and no timer is armed, but the count stays at one |
| BrokerRuns.RejectedSocketStrandsRequest | src/nemoclaw_escapades/nmb/broker.py:302-315 | A run in which a socket that was rejected as a duplicate sends a request after the original has left: a pending request without a connected requester, and a matched reply that finds nobody |
| BrokerServer.NMBBroker.Register | src/nemoclaw_escapades/nmb/broker.py:282-324 | New state = the specification of registration: a duplicate id leaves the tables alone |
| BrokerServer.NMBBroker.Unregister | src/nemoclaw_escapades/nmb/broker.py:326-389 | New state = the specification of disconnection: only the socket that holds the registration cleans up |
| BrokerServer.NMBBroker.LeaveAll | src/nemoclaw_escapades/nmb/broker.py:356-362 | The loop over the channels of a departing sandbox, in any order, removes it from each and drops the channels it leaves empty |
| BrokerServer.NMBBroker.DropRequests | src/nemoclaw_escapades/nmb/broker.py:367-371 | The loop over the requests of a departing sandbox removes exactly its entries, their timers, and logs each as settled |
| BrokerServer.NMBBroker.HandleRequest | src/nemoclaw_escapades/nmb/broker.py:535-564 | New state and answer = the specification of the first half of a request, guards in the order of the code |
| BrokerServer.NMBBroker.ResumeRequest | src/nemoclaw_escapades/nmb/broker.py:566-585 | ACK exactly if the send returned, TARGET_OFFLINE exactly if it raised; new state = the second half of a request, with the rollback (pinned by BrokerAnswers.DeliveryAnswer) |
| BrokerServer.NMBBroker.HandleReply | src/nemoclaw_escapades/nmb/broker.py:605-643 | New state and answer = the specification of a reply |
| BrokerServer.NMBBroker.TimeoutRequest | src/nemoclaw_escapades/nmb/broker.py:828-850 | New state and answer = the specification of a timer that wakes up, including one that finds nothing |
| BrokerServer.NMBBroker.HandleSubscribe | src/nemoclaw_escapades/nmb/broker.py:664-683 | New state and answer = the specification of a subscription, including the limit |
| BrokerServer.NMBBroker.HandleUnsubscribe | src/nemoclaw_escapades/nmb/broker.py:701-722 | New state and answer = the specification of an unsubscription |
| BrokerServer.NMBBroker.CleanUp | src/nemoclaw_escapades/nmb/broker.py:350-372 | What the registered socket leaves behind: every table of the object, exactly |
| BrokerServer.NMBBroker.RollBack | src/nemoclaw_escapades/nmb/broker.py:570-576 | The rollback of a failed delivery, entry by entry, and what it logs as settled |
| BrokerAnswers.RequestAnswer | src/nemoclaw_escapades/nmb/broker.py:535-564 | In every state with the invariant: a request is rate-limited exactly if the sender already has `max_pending_per_sandbox` pending entries, refused as offline exactly if it is below that and the target is not connected, malformed exactly without a target, and otherwise forwarded; a refused request changes nothing |
| BrokerAnswers.ForwardedIsPending | src/nemoclaw_escapades/nmb/broker.py:557-564 | A forwarded request is pending for its sender and watched by a timer that did not exist before; every other entry, and everything that is not a request table, is as before |
| BrokerAnswers.ForwardedIsDelivered | src/nemoclaw_escapades/nmb/broker.py:566-569 | Its delivery goes to the socket the target is registered with, and can return only if that socket had not closed; other deliveries are untouched |
| BrokerAnswers.DeliveryAnswer | src/nemoclaw_escapades/nmb/broker.py:566-585 | The sender is told ACK exactly if the send returned, and then pending, timers and counts are untouched; TARGET_OFFLINE exactly if it raised, and then the request is no longer pending and its timer is gone |
| BrokerAnswers.RollbackSettles | src/nemoclaw_escapades/nmb/broker.py:570-576 | In turn a rollback settles its own registration, once, as failed |
| BrokerAnswers.AckIsKept | src/nemoclaw_escapades/nmb/broker.py:566-585 | In every disciplined run: a registration whose sender was told ACK is never rolled back afterwards, whatever happens |
| BrokerAnswers.RunKeepsUndecided | src/nemoclaw_escapades/nmb/broker.py:511-585 | In every disciplined run no two suspended handlers deliver the same registration, and what is being delivered has not failed yet |
| BrokerAnswers.ReplyAnswer | src/nemoclaw_escapades/nmb/broker.py:605-635 | A reply to a pending id is forwarded to a connected requester, removes exactly that entry and its timer, lowers that count by one, and is logged as a reply; any other reply is refused and changes nothing |
| BrokerAnswers.ExpiryAnswer | src/nemoclaw_escapades/nmb/broker.py:830-849 | A timer that wakes up finds its request pending and its requester connected, tells it, and settles exactly that request as timed out |
| BrokerAnswers.AcceptanceAnswer | src/nemoclaw_escapades/nmb/broker.py:300-320 | The first socket of an id keeps the registration; a later one gets a handler of its own and changes no table |
| BrokerAnswers.DepartureSettlesOwn | src/nemoclaw_escapades/nmb/broker.py:345-372 | A departure logs one settlement, as abandoned, for exactly the armed registrations of the sandbox that leaves |
| BrokerAnswers.SubscribeAnswer | src/nemoclaw_escapades/nmb/broker.py:664-683 | CHANNEL_FULL exactly if the channel table lists the sender under as many channels as it may have |
| BrokerAnswers.SubscribeEffect | src/nemoclaw_escapades/nmb/broker.py:664-683 | An acknowledged subscription adds exactly this channel for this sender, a refused one none; only the two channel tables can change |
| BrokerAnswers.UnsubscribeAnswer | src/nemoclaw_escapades/nmb/broker.py:701-722 | An acknowledged removal takes out exactly this channel for this sender |
| DelegationProofs.StepExact | src/nemoclaw_escapades/orchestrator/delegation.py:158-256 | In any state whatever, a step keeps free permits + live workflows + coroutines holding a slot if and only if it is `Sound` |
| DelegationProofs.RunExact | src/nemoclaw_escapades/orchestrator/delegation.py:158-256 | Over every interleaving at all, that sum is conserved throughout if and only if every step was sound |
| DelegationProofs.StepKeepsPlaces | src/nemoclaw_escapades/orchestrator/delegation.py:178-230 | If operations on one workflow are taken in turn, each coroutine stands where its await says (waiting ones are not live, sending ones own the live handle, ...), and every step is sound |
| DelegationProofs.SlotsConserved | src/nemoclaw_escapades/orchestrator/delegation.py:178-248 | With operations in turn per workflow and different workflows interleaved freely, the sum is `max_concurrent` in every run, through spawn failure, send failure, cancellation at each await, re-delegation and termination |
| DelegationProofs.CapHolds | src/nemoclaw_escapades/orchestrator/delegation.py:178-248 | So live workflows never exceed the cap, and once nothing is in progress every slot is either free or live |
| DelegationProofs.CloseStopsAgents | src/nemoclaw_escapades/orchestrator/delegation.py:258-265 | Whatever is interleaved with the turns of close, overlapping or not: when its list is worked through, no agent that was installed before it began is live |
| DelegationProofs.StoppedExactly | src/nemoclaw_escapades/orchestrator/delegation.py:188-256 | In every run, interleaved in any way: an agent that was spawned has been told to stop exactly if it is not live, and is live under one workflow only |
| DelegationProofs.AgentIsKept | src/nemoclaw_escapades/orchestrator/delegation.py:188-230 | A coroutine stops, replaces and compares with the agent it installed itself, whatever is going on beside it |
| DelegationProofs.DelegationLives | src/nemoclaw_escapades/orchestrator/delegation.py:178-240 | An undisturbed delegation of a new workflow ends with a fresh live agent and one permit less; terminating it gives back the permit and stops that agent |
| DelegationProofs.FailedDelegationUndone | src/nemoclaw_escapades/orchestrator/delegation.py:211-229 | A delegation whose assignment cannot be sent restores permits, live workflows and coroutines, and stops the agent it spawned |
| DelegationProofs.EarlyFailureUndone | src/nemoclaw_escapades/orchestrator/delegation.py:178-187 | A delegation cancelled while it waits, or whose agent cannot be spawned, restores the whole state |
| DelegationProofs.RedelegationReplaces | src/nemoclaw_escapades/orchestrator/delegation.py:193-210 | Delegating a live workflow again takes no permit; the old agent is replaced and stopped |
| DelegationRuns.DoubleReleaseBreaksCap | src/nemoclaw_escapades/orchestrator/delegation.py:213-230 | A run with a cap of one and an overlapping terminate that ends with two live workflows |
| DelegationRuns.LostSlotLeavesNoPermit | src/nemoclaw_escapades/orchestrator/delegation.py:213-230 | A run with a cap of two and an overlapping re-delegation that ends with one live workflow and no free permit |
| DelegationService.DelegationManager.Delegate | src/nemoclaw_escapades/orchestrator/delegation.py:176-184 | Refuses exactly if the depth limit is below one; otherwise the coroutine goes to the semaphore or, for a live workflow, straight to the spawn |
| DelegationService.DelegationManager.OnSpawned | src/nemoclaw_escapades/orchestrator/delegation.py:188-195 | New state = the specification of installing the new agent |
| DelegationService.DelegationManager.OnSendFailed | src/nemoclaw_escapades/orchestrator/delegation.py:213-224 | New state = the specification of the compare-and-pop after a failed send |
| DelegationService.DelegationManager.OnUnwind | src/nemoclaw_escapades/orchestrator/delegation.py:225-230 | New state = the specification of the outermost handler |
| DelegationService.DelegationManager.Terminate | src/nemoclaw_escapades/orchestrator/delegation.py:243-248 | New state = the specification of a termination; unknown workflows change nothing |
| DelegationService.DelegationManager.BeginClose | src/nemoclaw_escapades/orchestrator/delegation.py:263-264 | New state = the list that close takes of the live workflows |
| DelegationService.DelegationManager.CloseOne | src/nemoclaw_escapades/orchestrator/delegation.py:264-265 | New state = one turn of its loop: the workflow is off the list and terminated |
| DelegationService.DelegationManager.Close | src/nemoclaw_escapades/orchestrator/delegation.py:258-265 | The whole loop, if nothing comes between its turns: the table is empty, and exactly one permit per live workflow has come back |
| DispatcherModel.OneFinalizationPerWorkflow | src/nemoclaw_escapades/orchestrator/dispatcher.py:251-272 | In every run two unfinished finalisation tasks of one workflow are the same task, counting every task ever created |
| DispatcherModel.EndingReleasesSlot | src/nemoclaw_escapades/orchestrator/dispatcher.py:296-371 | A reported task error, a terminal action, a failed finalisation, a terminal button click or a failed delegation removes the workflow from the registry, removes its handle and frees exactly the slot it had, all in one step |
| DispatcherModel.EndedWorkflowStaysOut | src/nemoclaw_escapades/orchestrator/dispatcher.py:250-257 | In every run, a workflow that has left the registry stays out until it is registered again, and no new finalisation of it begins |
| DispatcherModel.RunKeepsSlots | src/nemoclaw_escapades/orchestrator/dispatcher.py:164-371 | With the dispatcher in the loop, every run in turn per workflow keeps the slot invariant of the delegation manager |
| DispatcherModel.LiveWorkflowsWithinCap | src/nemoclaw_escapades/orchestrator/dispatcher.py:164-371 | ... so live workflows never exceed the cap in the composed system |
| DispatcherModel.CompletionFinalizes | src/nemoclaw_escapades/orchestrator/dispatcher.py:250-272 | A completion of a registered workflow without an unfinished task, the first or a later one, creates exactly one new deciding task, which the table names; any other completion changes nothing |
| DispatcherModel.IterationStaysOpen | src/nemoclaw_escapades/orchestrator/dispatcher.py:260-317 | A completion and a finalisation that does not end the workflow leave it registered, without a task, and open to the next completion |
| DispatcherModel.TerminalFinalization | src/nemoclaw_escapades/orchestrator/dispatcher.py:312-317 | A finalisation that ends its workflow takes it out of the registry first, keeps its task until the agent has stopped, and leaves other tasks alone |
| DispatcherModel.ErrorEndsWorkflow | src/nemoclaw_escapades/orchestrator/dispatcher.py:336-371 | An error of a registered workflow is reported and ends exactly that workflow, and the loop is free again; the error of an unknown one changes nothing |
| DispatcherService.WorkflowDispatcher.HandleTaskComplete | src/nemoclaw_escapades/orchestrator/dispatcher.py:245-272 | A registered workflow without an unfinished task gets the new deciding task; new state = that of a completion (pinned by DispatcherModel.CompletionFinalizes) |
| DispatcherService.WorkflowDispatcher.DeregisterWorkflow | src/nemoclaw_escapades/orchestrator/dispatcher.py:173-182 | New state = registry entry, handle and slot gone together |
| DispatcherService.WorkflowDispatcher.OnTaskErrorReported | src/nemoclaw_escapades/orchestrator/dispatcher.py:360-371 | New state = the specification of the end of error reporting |
| DispatcherService.WorkflowDispatcher.OnFinalizationEnds | src/nemoclaw_escapades/orchestrator/dispatcher.py:296-317 | New state = the specification of the end of a finalisation |
| DispatcherService.WorkflowDispatcher.HandleTaskError | src/nemoclaw_escapades/orchestrator/dispatcher.py:335-342 | New state = the specification of an error that arrives: unknown workflows change nothing |
| ClientProofs.StepKeepsInv | src/nemoclaw_escapades/nmb/client.py:274-573 | Every client step keeps: each future has been settled once if it is done and never if it is open, every table entry leads to a future of its own id, every open future is in a table, and a reply future holds the reply to its own id |
| ClientProofs.SettledAtMostOnce | src/nemoclaw_escapades/nmb/client.py:377-447 | Over every run of frames, expiries, wake-ups and connection losses: the history holds at most one settlement of a future, exactly one if it is done, and what it was settled with is final |
| ClientProofs.RepliesReachTheirRequest | src/nemoclaw_escapades/nmb/client.py:377-401 | A request future only ever receives a reply whose `reply_to` is its own id |
| ClientProofs.SettledExactlyOnceAtTheEnd | src/nemoclaw_escapades/nmb/client.py:274-293 | When the receive loop ends or `close` runs, both tables are empty and every future ever created has been settled exactly once |
| ClientProofs.TableHoldsSettledFuture | src/nemoclaw_escapades/nmb/client.py:559-573 | The `done()` guard is needed: a run in which the table leads to a cancelled future, which would otherwise be settled twice |
| ClientAnswers.FirstWordDecides | src/nemoclaw_escapades/nmb/client.py:274-447 | In every run: each request and acknowledged send creates one future, and its value is what the first event after that which concerns it says: a reply to its id, an acknowledgement of its id, an error or timeout frame naming its id, its own expiry, or the end of the connection; without one it stays open |
| ClientAnswers.SettledByFirst | src/nemoclaw_escapades/nmb/client.py:377-447 | So a future holds a reply (an acknowledgement, a broker error, a broker timeout, a cancellation, a closed connection) exactly if that event came before every other that concerns it |
| ClientProofs.TablesHoldNoResults | src/nemoclaw_escapades/nmb/client.py:377-447 | In every run the tables lead only to futures that are open, or that have expired and whose caller is about to clean up |
| ClientProofs.WakingCleansUp | src/nemoclaw_escapades/nmb/client.py:492-502 | The caller of an expired future removes exactly its own entry, and settles nothing |
| ClientService.MessageBus.DispatchDeliver | src/nemoclaw_escapades/nmb/client.py:377-401 | An open request whose id the reply names holds that reply; new state = that of a delivery (pinned by ClientAnswers.FirstWordDecides); tells whether it was matched |
| ClientService.MessageBus.DispatchError | src/nemoclaw_escapades/nmb/client.py:413-433 | New state = the specification: requests are looked up before acknowledgements |
| ClientService.MessageBus.FailPendingFutures | src/nemoclaw_escapades/nmb/client.py:274-293 | The two loops fail exactly the open futures of the two tables, and clear the tables |
| ClientService.MessageBus.BeginRequest | src/nemoclaw_escapades/nmb/client.py:558-563 | New state = a new open future, in the request table under the message id |
| ClientService.MessageBus.BeginAckedSend | src/nemoclaw_escapades/nmb/client.py:490-494 | New state = a new open future, in the acknowledgement table under the message id |
| ClientService.MessageBus.DispatchAck | src/nemoclaw_escapades/nmb/client.py:403-411 | New state = the specification of an acknowledgement |
| ClientService.MessageBus.DispatchTimeout | src/nemoclaw_escapades/nmb/client.py:435-447 | New state = the specification of a timeout frame |
| ClientService.MessageBus.FailAll | src/nemoclaw_escapades/nmb/client.py:274-293 | The loop over one table fails exactly its open futures, in any order |
| ClientService.MessageBus.ExpireWait | src/nemoclaw_escapades/nmb/client.py:564-573 | New state = the future is cancelled, once |
| ClientService.MessageBus.ForgetRequest | src/nemoclaw_escapades/nmb/client.py:569-573 | New state = the entry of the expired request is gone |
| ClientService.MessageBus.ForgetSend | src/nemoclaw_escapades/nmb/client.py:499-502 | New state = the entry of the expired send is gone |
| StreamModel.QueueIsRecentSuffix | src/nemoclaw_escapades/nmb/client.py:449-468 | Over any run of deliveries and reads, the queue is a contiguous suffix of everything delivered, and a positive capacity is never exceeded |
| StreamModel.RunKeepsOrder | src/nemoclaw_escapades/nmb/client.py:668-743 | Every run of sending, other traffic, forwarding, refusal, dropping, reading and closing links keeps the chunks of one stream in order on their whole way |
| StreamModel.ListenerReadsInOrder | src/nemoclaw_escapades/nmb/client.py:692-743 | The chunks a listener reads from one stream have strictly increasing numbers, and the `done` chunk is read last if at all |
| StreamModel.QueueConserves | src/nemoclaw_escapades/nmb/client.py:449-468 | What a queue is given is taken, still queued, or lost, one item for each put into a full queue |
| StreamModel.RoomLosesNothing | src/nemoclaw_escapades/nmb/client.py:449-468 | Without a put into a full queue the items taken and queued are those given, in order |
| StreamModel.ChunksAreGenuine | src/nemoclaw_escapades/nmb/client.py:692-743 | Whatever is lost on the way, a chunk that is read carries the payload that was sent under its own number |
| StreamModel.NothingIsLost | src/nemoclaw_escapades/nmb/client.py:692-743 | Without refusals, closed connections and full queues, every chunk sent is on the way, in its place and with its payload |
| StreamService.BoundedQueue.Put | src/nemoclaw_escapades/nmb/client.py:449-468 | The queue afterwards is the drop-oldest specification, and stays within its capacity |
| StreamService.Stream | src/nemoclaw_escapades/nmb/client.py:692-717 | The loop sends the payloads numbered 0, 1, ... and one empty final chunk, in order |
| AuditProofs.BatchRow | src/nemoclaw_escapades/audit/db.py:385-419 | Each row of a batch: the existing or inserted row with the last status found anywhere in the batch, even before the insert |
| AuditProofs.SequentialRow | src/nemoclaw_escapades/audit/db.py:280-315 | Each row of one-by-one application: the inserted row with the last status that follows its insert |
| AuditProofs.BatchingKeepsMeaning | src/nemoclaw_escapades/audit/db.py:331-419 | Every cutting of an order-safe queue into batches, each all inserts then all updates, leaves the same table as its entries one by one |
| AuditProofs.BatchingExact | src/nemoclaw_escapades/audit/db.py:331-419 | For every table and every queue, repeated ids included: every cutting means the same as one entry after the other if and only if nothing is inserted twice and the queue is order-safe, or the queue can have no effect at all (it only repeats inserts, and each update that may have the last word about a row gives it the status it has) |
| AuditProofs.FreshBatchingExact | src/nemoclaw_escapades/audit/db.py:331-419 | The same for queues without integrity errors, where the condition is order-safety alone |
| AuditProofs.RepeatLosesBatch | src/nemoclaw_escapades/audit/db.py:388-419 | A batch that inserts a new id twice is lost as a whole, where one by one its rows are stored |
| AuditProofs.UpdatesAfterInsertsAreSafe | src/nemoclaw_escapades/audit/db.py:385-419 | In particular a queue is order-safe when no update of an id precedes an insert of it |
| AuditProofs.TimeoutQueuedBeforeRow | src/nemoclaw_escapades/audit/db.py:385-419 | A status update in front of the row it is about: in one batch the row ends up as timed out, in two as delivered |
| AuditProofs.FirstAppearancesExact | src/nemoclaw_escapades/audit/db.py:631-678 | The reference for replays is what its name says: every offered id once, with its earliest row |
| AuditProofs.ReplaysAddNothing | src/nemoclaw_escapades/audit/db.py:631-678 | Inserting any sequence of rows leaves the table of inserting each id once, at its first appearance |
| AuditProofs.IngestIdempotent | src/nemoclaw_escapades/audit/db.py:680-720 | The same for any sequence of audit flushes, with replays, repeats and deliveries cut short anywhere |
| AuditProofs.ReplayChangesNothing | src/nemoclaw_escapades/audit/db.py:645-660 | Rows whose ids are all present change nothing |
| AuditProofs.EarliestRow | src/nemoclaw_escapades/audit/db.py:631-720 | A table that lacks the id holds the earliest row offered for it |
| AuditProofs.IngestedRow | src/nemoclaw_escapades/audit/db.py:680-720 | Over any history of deliveries: a row is the first one written for its id, with the workflow, parent, agent and role of the flush it came in |
| AuditProofs.IngestKeeps | src/nemoclaw_escapades/audit/db.py:631-678 | ... and a row that was there before stays as it was |
| AuditProofs.NothingElseIngested | src/nemoclaw_escapades/audit/db.py:680-720 | ... and no row appears that no delivery wrote |
| BrokerAuditProofs.AuditExact | src/nemoclaw_escapades/nmb/broker.py:568-585 | Over every run of the broker with unique message ids that leaves no handler suspended: however the audit queue is cut into batches the table is the one its entries give one by one, if and only if no timeout was queued while the handler of its own request was still delivering or answering |
| BrokerAuditProofs.PromptRunsAreSafe | src/nemoclaw_escapades/nmb/broker.py:568-585 | At any moment of a run in which that does not happen, every cutting is harmless |
| BrokerAuditProofs.StepExact | src/nemoclaw_escapades/nmb/broker.py:811-907 | A step keeps every queued update behind its row if and only if it does not queue a timeout that overtakes its row |
| BrokerAuditProofs.RunExact | src/nemoclaw_escapades/nmb/broker.py:811-907 | ... and over whole runs, where the order once lost is lost for good |
| BrokerAuditProofs.StepKeepsInv | src/nemoclaw_escapades/nmb/broker.py:511-907 | The row of a message is in at most one place (delivery, answer, queue), and so is its status update (armed, being sent, queued), in every interleaving |
| BrokerAuditProofs.RequestAudited | src/nemoclaw_escapades/nmb/broker.py:535-555 | A request to an offline target is going to be audited as an error; a rate-limited or malformed one is not audited, and a forwarded one not yet |
| BrokerAuditProofs.RowTellsDelivery | src/nemoclaw_escapades/nmb/broker.py:566-585 | Whatever happens while the answer frame is being sent, the row queued afterwards is that of the request, as delivered exactly if its delivery returned and as an error if it raised |
| BrokerAuditProofs.NoticeTellsTimeout | src/nemoclaw_escapades/nmb/broker.py:834-858 | A timer that found its request pending queues TIMEOUT for it once its notice is out, unless the delivery of the same registration fails first |
| BrokerAuditProofs.FailureSilencesTimer | src/nemoclaw_escapades/nmb/broker.py:570-576 | In every run: after a delivery has failed, no timeout of that registration is ever queued, even if its timer had fired |
| BrokerAuditProofs.OtherRowTells | src/nemoclaw_escapades/nmb/broker.py:479-509 | Any other message is audited at once, as delivered exactly if it was, with its own columns |
| BrokerAuditRuns.TimeoutCanComeFirst | src/nemoclaw_escapades/nmb/broker.py:849-907 | A run of seven steps whose queue holds the timeout before the row, and whose final row depends on the cutting |
| AuditService.AuditDB.Enqueue | src/nemoclaw_escapades/audit/db.py:280-315 | Accepts an entry exactly if the queue is not full (a size of 0 is unbounded); the table remains what the batches so far made of it, and nothing accepted is lost or reordered |
| AuditService.AuditDB.FlushOnce | src/nemoclaw_escapades/audit/db.py:331-344 | One turn takes the first item and up to 99 more from the front, as one batch, and keeps that history |
| AuditService.AuditDB.Drain | src/nemoclaw_escapades/audit/db.py:346-367 | Leaves the queue empty; for an order-safe history the table is then the one-by-one result of everything ever accepted, whatever the batches were |
| AuditService.AuditDB.WriteMessageBatch | src/nemoclaw_escapades/audit/db.py:385-419 | The two loops compute the batch specification; an integrity error leaves the table as it was |
| AuditService.AuditDB.StoredRow | src/nemoclaw_escapades/audit/db.py:389-407 | The payload is stored, or left empty if payloads are not persisted; its size always is the size of the payload |
| AuditService.AuditDB.IngestAuditFlush | src/nemoclaw_escapades/audit/db.py:680-720 | A delivery up to some point inserts exactly the rows up to that point; undisturbed, the returned count is the length of the payload |
| AuditService.AuditDB.LogToolCall | src/nemoclaw_escapades/audit/db.py:631-678 | Uses the given id, or the generated one for an omitted id; an existing row is left as it is |
| AuditService.AuditDB.TakeBatch | src/nemoclaw_escapades/audit/db.py:331-341 | The loop takes exactly the first hundred entries, or all of a shorter queue, in order |
| AuditService.AuditDB.Commit | src/nemoclaw_escapades/audit/db.py:369-420 | The table is again what all batches so far make of an empty one |
| Transcript.SuffixExact | src/nemoclaw_escapades/agent/compaction.py:201-238 | A suffix of a well-formed transcript is well-formed exactly if it does not begin with a tool result |
| Truncation.TruncateToolResults | src/nemoclaw_escapades/agent/compaction.py:117-146 | The loop with its `changed` flag cuts exactly the over-long tool results and leaves everything else |
| Truncation.TruncationKeepsProtocol | src/nemoclaw_escapades/agent/compaction.py:132-146 | A truncated transcript is well-formed if and only if it was before |
| Truncation.EveryRound | src/nemoclaw_escapades/agent/compaction.py:132-146 | After any number of rounds an over-long result consists of its own first `micro_limit` characters and one notice, which names the length it had a round ago |
| Truncation.TruncationSettles | src/nemoclaw_escapades/agent/loop.py:251-255 | After a bounded number of rounds the text no longer changes, for ever |
| Truncation.SecondRoundExact | src/nemoclaw_escapades/agent/compaction.py:132-146 | The notice still names the original size after the second round only if the cut text happens to be as long as the original was |
| Truncation.SecondNoticeIsWrong | src/nemoclaw_escapades/agent/compaction.py:132-146 | With the default limit, the second notice of every text of 20000 characters names 10037 as the original size |
| Truncation.DecimalReads | src/nemoclaw_escapades/agent/compaction.py:117-146 | The size in a notice is written in decimal digits that read back as that size, without leading zeros |
| Compaction.CompactionExact | src/nemoclaw_escapades/agent/compaction.py:201-238 | Full compaction of a well-formed transcript is well-formed if and only if its cut does not split an exchange |
| Compaction.CompactionAccounts | src/nemoclaw_escapades/agent/compaction.py:201-238 | What is summarised and what is kept are the whole conversation, at least `min_keep` messages stay verbatim, and the list does not grow |
| Compaction.SummaryFollowsPrompt | src/nemoclaw_escapades/agent/compaction.py:185-238 | The system message stays first and is never summarised; the summary is the message after it, followed by the acknowledgement and the kept end of the list |
| Compaction.SharesExact | src/nemoclaw_escapades/agent/compaction.py:201-204 | The summary covers the configured share of the conversation rounded down, at least two messages, and fewer only where `min_keep` messages would not be left |
| Compaction.TotalCharsConcat | src/nemoclaw_escapades/agent/compaction.py:148-158 | The size that triggers a compaction is the sum over all messages |
| Compaction.CompressCount | src/nemoclaw_escapades/agent/compaction.py:201-203 | At least two messages are summarised and at least `min_keep` stay |
| CompactionRuns.CutCanSplitExchange | src/nemoclaw_escapades/agent/compaction.py:148-238 | With default settings, a question over the threshold is enough: the list is compacted, and the cut falls between a call and its result |
| AgentLoopRuns.DefaultsCanSplitExchange | src/nemoclaw_escapades/agent/loop.py:251-358 | A run with default settings from a system prompt and a question over the threshold, with a model that calls two tools and then one, sends a malformed request |
| ToolBatch.ExecuteToolCalls | src/nemoclaw_escapades/agent/loop.py:384-473 | For every completion order of the concurrent calls, the i-th result is the i-th call's own, executed when it was its turn; the placeholder for an empty slot is never used |
| ToolBatch.BatchAnswers | src/nemoclaw_escapades/agent/loop.py:443-473 | The list has the length of the input, and the i-th result carries the i-th call's id |
| ToolBatch.Gather | src/nemoclaw_escapades/agent/loop.py:443-452 | The concurrent part: results come in the order of the arguments, whatever the order of completion |
| ToolBatch.RunOneByOne | src/nemoclaw_escapades/agent/loop.py:457-459 | The sequential part fills exactly the unsafe positions, each after everything before it |
| ToolBatch.PartitionCalls | src/nemoclaw_escapades/agent/loop.py:425-432 | The safe and the unsafe positions, in input order |
| ToolBatch.PositionsExact | src/nemoclaw_escapades/agent/loop.py:425-432 | A position is listed exactly if its call is safe (unsafe), once, in increasing order |
| ToolBatch.TraceIsPermutation | src/nemoclaw_escapades/agent/loop.py:425-473 | Every call runs exactly once; every unsafe call runs after all safe ones and after every earlier unsafe one |
| ToolBatch.UnsafeCallsRunLast | src/nemoclaw_escapades/agent/loop.py:457-459 | When an unsafe call starts, every safe call and every earlier unsafe call has completed |
| ToolBatch.EveryOutcomeCovered | src/nemoclaw_escapades/agent/loop.py:443-452 | Whatever the calls return and however they influence each other while they overlap, some execution of this model returns it |
| ToolBatch.EachResultIsItsOwn | src/nemoclaw_escapades/agent/loop.py:412-474 | Each result is what executing its own call, name and arguments included, returned when exactly the calls before it in the order of completion were done |
| ToolBatch.PlaceGathered | src/nemoclaw_escapades/agent/loop.py:451-452 | Each gathered result goes to the position of its call |
| Continuation.ContinueTruncated | src/nemoclaw_escapades/agent/loop.py:653-710 | The loop over one growing list computes the recursive specification: text and every list sent |
| Continuation.InferenceWithRepair | src/nemoclaw_escapades/orchestrator/orchestrator.py:388-447 | The loop that rebuilds its list each time computes its recursive specification |
| Continuation.BuildCall | src/nemoclaw_escapades/orchestrator/orchestrator.py:391-395 | The rebuilt list is the base followed by one assistant message and one prompt per chunk |
| Continuation.AnswersExact | src/nemoclaw_escapades/orchestrator/orchestrator.py:388-447 | For every model and equal limits: the rebuilding loop returns what the growing loop returns, unless a blank or filtered answer puts a fallback text in its place; and both send the same lists at every attempt exactly if no blank answer is cut short before the last one |
| Continuation.LoopsAgree | src/nemoclaw_escapades/orchestrator/orchestrator.py:388-447 | Where every continued answer has text and is not filtered, both send the same lists and return the same text |
| Continuation.TextsAgreeExact | src/nemoclaw_escapades/orchestrator/transcript_repair.py:57-105 | For every model: the same text comes out if and only if no fallback is used, or what was gathered spells the fallback out; a first chunk that does not begin a fallback text rules that out |
| Continuation.SilenceLosesText | src/nemoclaw_escapades/orchestrator/orchestrator.py:413-432 | Two models on which the texts differ: one falls silent after a cut answer, the other is filtered |
| Continuation.TextIsKept | src/nemoclaw_escapades/agent/loop.py:675-710 | The growing loop never loses what it has gathered |
| Continuation.ContinuationWellFormed | src/nemoclaw_escapades/agent/loop.py:675-710 | Continuation requests are well-formed if the list they start from is, and there are at most as many as the retry limit |
| Continuation.BlankExact | src/nemoclaw_escapades/orchestrator/transcript_repair.py:57-85 | A text is blank exactly if each of its parts is; which ASCII characters are |
| AgentLoop.Run | src/nemoclaw_escapades/agent/loop.py:168-382 | The loop over the rounds = its recursion, whose outcome AgentAnswers.RunReported reads off the model's answers |
| AgentLoop.HandleAnswer | src/nemoclaw_escapades/agent/loop.py:293-358 | What the code does with an answer = its case analysis: repaired or continued text, pause, or execution (pinned by AgentAnswers.RunReported) |
| AgentLoop.GetWriteToolCalls | src/nemoclaw_escapades/agent/loop.py:712-731 | Lists exactly the calls of registered tools that are not read-only |
| AgentLoop.NeedsWriteApproval | src/nemoclaw_escapades/agent/loop.py:733-762 | True exactly if the gate denies one of them |
| AgentLoop.RunBounded | src/nemoclaw_escapades/agent/loop.py:251-382 | A run ends within `2*max_tool_rounds + max_continuation_retries` backend calls, and `tool_calls_made` is the number of tool messages appended to the transcript |
| AgentLoop.RunProtocolExact | src/nemoclaw_escapades/agent/loop.py:251-358 | From a well-formed list: every list sent to the model is well-formed if and only if no compaction of the run split an exchange; and then so is the list the run hands on |
| AgentLoop.PrepareExact | src/nemoclaw_escapades/agent/loop.py:251-261 | Both tiers of compaction before a round: the protocol is kept exactly if the cut is clean |
| AgentLoop.ResumeKeepsProtocol | src/nemoclaw_escapades/orchestrator/orchestrator.py:504-526 | A paused run of clean compactions, resumed with its assistant message and one result per call, starts from a well-formed list |
| AgentLoop.PausesBeforeBatch | src/nemoclaw_escapades/agent/loop.py:320-341 | A run pauses only in front of a batch with a denied write, and hands on the message that asked for exactly that batch |
| AgentLoop.RoundsExecuteNoWrites | src/nemoclaw_escapades/agent/loop.py:320-358 | Under a gate that denies writes, no round of a run executes a registered write tool |
| AgentLoop.PrepareMessages | src/nemoclaw_escapades/agent/loop.py:251-261 | The messages after both tiers, and none if the summary call raised |
| AgentLoop.RunRound | src/nemoclaw_escapades/agent/loop.py:251-358 | One round computes its specification |
| AgentLoop.RoundBounded | src/nemoclaw_escapades/agent/loop.py:251-312 | One round costs at most one summary and one completion, and continuations only if it is the last; and it counts each tool message it appends |
| AgentLoop.ConcludeKeepsProtocol | src/nemoclaw_escapades/agent/loop.py:293-312 | A final answer, continued or not, adds only well-formed requests |
| AgentAnswers.RunReported | src/nemoclaw_escapades/agent/loop.py:250-382 | For every model, read off its own answers to the requests sent: each executed batch is the whole list of calls of the answer to a request of its own, none of which needed approval; the safety limit is reported exactly if all rounds executed a batch, with the fixed text; otherwise the text is that of the answer to the last round (as it is, the fallback if it is blank or filtered, or with the texts of all continuations if it was cut short); a pause hands on the very answer that asked for a gated call; and the run raises only if the last call to the backend raised |
| AgentAnswers.PlainAnswerIsReturned | src/nemoclaw_escapades/agent/loop.py:299-320 | In particular a normal answer without tool calls to the last round is returned as it is, with nothing sent after it |
| AgentAnswers.ContinuationTells | src/nemoclaw_escapades/agent/loop.py:653-710 | The text of an answer that was cut short is the texts of all its answers in order; each further request shows the last text and asks to go on; and it stops at the first answer not cut short or at the last attempt |
| AgentAnswers.RoundFeedsResults | src/nemoclaw_escapades/agent/loop.py:250-377 | A round that goes on has asked one question, and the next messages are that request, its answer, and one result per call of the answer |
| AgentAnswers.RoundExecutes | src/nemoclaw_escapades/agent/loop.py:362-377 | These results are what executing the calls of the answer returned, each call once, in an order of completion |
| AgentAnswers.PreparationTells | src/nemoclaw_escapades/agent/loop.py:255-264 | A request is the messages with long tool results cut; a summary is asked for exactly if these are over the threshold and there is enough to summarise |
| ApprovalProofs.StepKeepsInv | src/nemoclaw_escapades/orchestrator/orchestrator.py:230-584 | Every step keeps: each turn and each batch is in exactly one place, each carries its own message and calls, grants and executions belong to the click that decided them, and history holds the commits |
| ApprovalProofs.ExecutedOnlyByItsClick | src/nemoclaw_escapades/orchestrator/orchestrator.py:477-514 | In every run each paused batch is executed at most once, by the Approve click that took it out of the table, with exactly the calls it was paused with |
| ApprovalProofs.BatchesConserved | src/nemoclaw_escapades/orchestrator/orchestrator.py:230-562 | In every run a batch is waiting, under exactly one thread, if and only if it has no fate yet |
| ApprovalProofs.FatesAreFinal | src/nemoclaw_escapades/orchestrator/orchestrator.py:477-562 | No later step changes the fate of a batch |
| ApprovalProofs.NeverExecutedAfterRefusal | src/nemoclaw_escapades/orchestrator/orchestrator.py:230-584 | A batch removed by a Deny, by a later message or by another pause is never executed, whatever happens afterwards |
| ApprovalProofs.RefusalEmptiesTable | src/nemoclaw_escapades/orchestrator/orchestrator.py:230-235 | A Deny or a message gives the waiting batch of its thread its first fate, and an Approve click finds nothing after it |
| ApprovalProofs.LostExact | src/nemoclaw_escapades/orchestrator/orchestrator.py:304-307 | An approval prompt disappears without anyone's decision in a run if and only if some pause finds its thread's entry taken |
| ApprovalProofs.OneAtATimeExact | src/nemoclaw_escapades/orchestrator/orchestrator.py:230-307 | A step leaves each thread with at most one run or one waiting prompt exactly if it is not a message that arrives while its thread is busy |
| ApprovalProofs.PatienceLosesNothing | src/nemoclaw_escapades/orchestrator/orchestrator.py:304-540 | If messages wait until their thread is idle, no prompt is ever lost, through any cascade of approvals |
| ApprovalProofs.OverlapLosesPrompt | src/nemoclaw_escapades/orchestrator/orchestrator.py:304-307 | Two overlapping messages of one thread that both pause: the second prompt replaces the first |
| ApprovalProofs.CommitsAreRemembered | src/nemoclaw_escapades/orchestrator/orchestrator.py:291-545 | In every run each message is committed at most once, under its own thread and text however many approvals lie between, and each thread stores the end of the log of its commits |
| ApprovalProofs.UnansweredTurnsLeaveNoTrace | src/nemoclaw_escapades/agent/prompt_builder.py:244-248 | No step but an answer changes what is remembered, and an answer changes only its own thread |
| ApprovalProofs.StepLoses | src/nemoclaw_escapades/orchestrator/orchestrator.py:304-307 | A step loses a prompt exactly if it is a pause whose entry is taken |
| ApprovalEffects.ApproveGrants | src/nemoclaw_escapades/orchestrator/orchestrator.py:477-514 | A click on Approve with a batch b waiting opens a new run that holds exactly b, for the turn and text b was paused in; the fate of b names that run; other threads are untouched and nothing is executed yet |
| ApprovalEffects.ApprovedIsExecuted | src/nemoclaw_escapades/orchestrator/orchestrator.py:477-526 | In every run a batch that was approved has been executed by the run of its click with the calls it was paused with, or is still held by that run, or that run failed |
| ApprovalEffects.AnsweredApprovalWasExecuted | src/nemoclaw_escapades/orchestrator/orchestrator.py:505-545 | So if the run of an approval is over without failing, the batch was executed |
| ApprovalEffects.LogTellsTheRun | src/nemoclaw_escapades/orchestrator/orchestrator.py:230-545 | Over every run: messages, paused calls, replies of commits and executions are those of the events, in order |
| ApprovalEffects.ArrivalOpensRun | src/nemoclaw_escapades/orchestrator/orchestrator.py:230-265 | A message opens one run for a new turn and empties the place of its own thread only |
| ApprovalEffects.PauseWaits | src/nemoclaw_escapades/orchestrator/orchestrator.py:304-307 | A paused run leaves its calls under its own thread, with the turn and text it ran for |
| ApprovalEffects.WaitingIsOpen | src/nemoclaw_escapades/orchestrator/orchestrator.py:304-307 | What waits has no fate yet, and its turn is not over |
| ApprovalEffects.ExecutionRunsBatch | src/nemoclaw_escapades/orchestrator/orchestrator.py:502-514 | A granted run executes the calls its batch was paused with, which nobody has executed before, and goes on |
| ApprovalEffects.AnswerIsRemembered | src/nemoclaw_escapades/orchestrator/orchestrator.py:540-545 | An answer is committed for the run's own turn, and with a cap of at least 1 it is the last entry its thread remembers |
| ApprovalEffects.FailureEndsRun | src/nemoclaw_escapades/orchestrator/orchestrator.py:318-338 | A failure ends its run and its turn and touches nothing else |
| ApprovalEffects.UnavailableDiscards | src/nemoclaw_escapades/orchestrator/orchestrator.py:492-493 | Without tools the same click ends the turn and grants nothing |
| ApprovalService.Orchestrator.Handle | src/nemoclaw_escapades/orchestrator/orchestrator.py:230-247 | New state = the specification of a message, and the history its prompt contains |
| ApprovalService.Orchestrator.HandleWriteApproval | src/nemoclaw_escapades/orchestrator/orchestrator.py:477-493 | Granted exactly if a batch waits and tools are registered, and then the new run holds that batch; new state = that of a click (pinned by ApprovalEffects.ApproveGrants) |
| ApprovalService.Orchestrator.ExecuteGranted | src/nemoclaw_escapades/orchestrator/orchestrator.py:505-514 | New state = the specification of the execution, which runs the calls of the granted batch |
| ApprovalService.Orchestrator.HandleWriteDenial | src/nemoclaw_escapades/orchestrator/orchestrator.py:562-584 | New state = the specification of a Deny click |
| ApprovalService.Orchestrator.SavePending | src/nemoclaw_escapades/orchestrator/orchestrator.py:304-307 | New state = the specification of a pause, which overwrites an entry of its thread |
| ApprovalService.Orchestrator.CommitAnswer | src/nemoclaw_escapades/orchestrator/orchestrator.py:291-291 | New state = the specification of an answer: committed with the text the turn began with |
| ApprovalService.Orchestrator.PopPending | src/nemoclaw_escapades/orchestrator/orchestrator.py:562-562 | Takes out the entry of the thread if there is one, and only that one |
| ApprovalService.Orchestrator.OnFailure | src/nemoclaw_escapades/orchestrator/orchestrator.py:318-338 | New state = the specification of a failed run: nothing is committed |
| ThreadHistory.StoredIsRecent | src/nemoclaw_escapades/agent/prompt_builder.py:321-328 | For a cap of at least 1 every thread stores exactly the last cap-many entries of its own unbounded log |
| ThreadHistory.SnapshotIsRecent | src/nemoclaw_escapades/agent/prompt_builder.py:244-248 | The history of a prompt is the last cap-many entries of the log and the new message |
| ThreadHistory.CapExact | src/nemoclaw_escapades/agent/prompt_builder.py:244-328 | For all turns and threads the cap is kept if and only if it is not 0 |
| ThreadHistory.ZeroKeepsAll | src/nemoclaw_escapades/agent/prompt_builder.py:246-248 | With a cap of 0 everything is kept, because the slice starts at minus zero |
| ThreadHistory.ZeroKeepsFirstTurn | src/nemoclaw_escapades/agent/prompt_builder.py:246-248 | One committed turn under a cap of 0: both of its messages are stored |
| ThreadHistory.LayeredPromptBuilder.HistoryWithUserMessage | src/nemoclaw_escapades/agent/prompt_builder.py:224-248 | Returns the snapshot; no thread reads differently afterwards |
| ThreadHistory.LayeredPromptBuilder.CommitTurn | src/nemoclaw_escapades/agent/prompt_builder.py:321-328 | New history = the specification of a commit, with both cuts |

## Left out

- JSON, Pydantic, WebSockets, SQLite, Alembic, Slack, HTTP and subprocesses: foreign code or I/O; a socket is a FIFO link that may close, a database table is a map.
- Broker: `send`, publish fan-out, stream routing and system broadcasts change no table; `stop` and `validate_frame` (a missing and an empty target are one case); acknowledgement and error sends are awaits in `BrokerAudit.dfy` only, since they touch no table.
- Real time: a timer may fire whenever it is armed.
- Client: the subscribe iterator and its channel queues beyond the bounded queue itself; that message ids are fresh is an assumption, kept as the guard of the two starting steps.
- DelegationService.DelegationManager.Close: the loop with nothing between its turns, because a method runs without interruption; interleaved turns are the events behind DelegationProofs.CloseStopsAgents.
- Delegation: the contents of assignments and of workflow contexts, and negative limits.
- Dispatcher: end-to-end delivery of `task.complete`, `close` racing new completions, the sticky terminal flag of a finalisation with several tool calls, progress and audit-flush handlers.
- BrokerAuditProofs.AuditExact: message ids are unique, as clients draw them at random; entries dropped by a full audit queue are not modelled here (they are in AuditService.AuditDB.Enqueue).
- Audit: checkpoints, cancellation during a batch write, database errors other than integrity errors.
- Compaction: the ratio is a real number, so floating-point rounding of the product is not modelled; the text of the summary prompt is not.
- Truncation: `register_tool_call` and its table only name tools for log lines.
- Agent loop: callbacks on tool start, surfacing of non-core tools, audit logging of tool calls, token counts, and errors inside tools (serialised into the result text, which is arbitrary here).
- AgentLoop.Run: the code inside the loop is split into RunRound and HandleAnswer, so a `return` of the source is a value that Run returns.
- Tool side effects: only the texts that calls return are modelled, not the files they change.
- Approvals: finalisation buttons and pending iterations, the response approval gate (it only changes the text that is committed), and rendering.
- Prompt layers: the system prompt, the channel hint and the cache marker.
- Jira, GitLab, Gerrit and Confluence tools, configuration overlays, policies, skills, runtime detection: they call other services or read files, and share no state with the parts modelled here.
