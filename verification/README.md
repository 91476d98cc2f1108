# Dafny model of the chat-to-agent gateway

This project models the parts of the API service (`apps/api/src`) that have to stay right
under concurrency, redelivery, crashes and partial failure, over the stores they write
(`packages/storage`, `feishu-adapter`, `orchestrator`, `queue`, `ambient`), and proves what
they promise. `dafny verify dfyconfig.toml` checks the whole project.

Each protocol is a step relation: one step is one store call with its outcome, which is
success, a failure before the effect, or a failure after it. Steps of all participants
interleave, participants crash between any two steps, and messages are delivered again. The
theorems are about every reachable state. Beside each step relation there is a class whose
methods have the control flow of the source; their contracts say that a call is a run of the
step relation, whatever the others do in between, so the theorems hold for them. The classes
of AdminStore, RateLimiter, CardDedup and MentionMemo have no such steps: their methods are
proved equal to functions on tables and maps, and the theorems are about sequences of those.
AdminRaces takes the operations of AdminStore apart into check and write, which then interleave.

| module | component |
|---|---|
| ChatSerializer | per-chat FIFO lock with self-cleaning maps |
| NeutralDispatch, SlackGateway | task dispatch inside the Slack dedupe claim |
| MentionOrder, MentionRouting, MentionMemo | who acts on a message with several mentions |
| WaitingContracts, WaitingAcks, RelayDecisions, RelayGateway | the contracts of a relay, their acks, and when deliveries agree |
| AdminTables, AdminTheorems, AdminStore, AdminRaces | admin tables, bindings, ownership, soft deletion, requests that interleave |
| PrComments, PrPolling, PrPoller | review comments and the polling cursor |
| StaleThreads, StaleScanner | stale-thread nudges |
| RateLimiter | webhook rate limiter |
| CardDedup, CardRetries, CardRetryEndings, CardRetryHandler | card actions, their retry receipts, and what becomes of each |
| SlackInstallations, SlackResolver | which bot identity a Slack team gets |
| ReferenceChain | the chain of quoted messages |
| ChinaSchedule | schedule times in China time |
| ShellQuote | shell quoting |
| TaskKeys, Wrappers | joined keys, option type |

## Where the code and what it promises differ

The model follows the code. Each of these is a lemma.

- Dispatch is said never to move a task back (apps/api/src/neutral-dispatch.ts:193-197), but
  `waiting_delegation` to `queued` is a valid transition
  (packages/orchestrator/src/task-state-machine.ts:15-19), so a redelivery that takes over a
  stale claim requeues a task that waits for a delegate. `DispatchMovesStatus` says that this
  is the only case, `RecoveryCanRequeueADelegatingTask` reaches it.
- A redelivery recovers a message unless it meets a task row made with other values, such as
  another session (`RedeliveryRecovers`). That happens (`AnotherSessionIsRefused`), and then
  the message is refused whenever it comes again with that session (`RefusedAgainAndAgain`).
- Every delivery of a multi-mention message decides again, and the shared LLM answer lives in
  one process for ten minutes (apps/api/src/server.ts:1282), so a late replay can let another
  agent lead (`AfterTheTtlThePlanCanChange`). With the two plans decided there, the later bind
  leaves a contract of the earlier one bound to no task (`ASecondPlanLeavesAContractUnbound`). A bind binds exactly the
  contracts that wait on this primary (`PrimaryBindBindsExactly`): all, if every delivery so
  far let the same agent lead, which holds within the ttl (`OnePlanWithinTheTtl`).
- A waiting ack is said to be sent once. The chat remembers a uuid for a limited time, so a
  contract has two visible acks exactly if two of its sends are further apart than that
  (`TwoAcksExactlyIfSendsAreApart`, reached in `ALateReplayAcksTwice`). Once the ack is
  recorded in time no further one is shown (`RecordedInTimeMeansNoMoreAcks`).
- Two conversations can share a task id if a scope id holds a colon (`ColonsCanMergeTaskIds`);
  with colon-free scopes the ids agree exactly per kind, installation, scope and key.
- The rate limiter's map can grow beyond `maxKeys`: the empty string as oldest key is falsy
  and is never dropped (`EmptyKeyBreaksTheBound`, with the exact condition per check in
  `ExceedsExactlyBehindTheEmptyKey`). This concerns the exported function only: its one
  caller builds keys that start with `feishu:` (apps/api/src/server.ts:3298), and for those
  the bound holds (`NeverTooManyKeys`).
- The polling cursor is moved after the enqueue, so a batch is handed over again if the cursor
  update fails (`ASlipRepeatsTheBatch`), or if the enqueue throws after its insert and the
  cancellation fails too (`AThrownEnqueueRepeatsTheBatch`). A handover is a queued task with a job
  (`HandoversAreTheLiveTasks`), and a batch slips if the poll that handed it over leaves the
  cursor. Exactly, for every comment: the number of handovers is the number of its batches that
  slipped, and one more unless it was missed (`HandoversAreExactlyCounted`). Missed are comments that the cursor passes unseen: they
  show up with a time the cursor has passed (`TooLateIsNeverHandedOver`,
  `ATruncatedTimeIsMissed`), or after the fetch of the poll that then passes them, or tie with
  the last of a capped batch (`SkipsExactlyIfCutAtATie`). None is missed if comments show up
  in the order of their times and later than the polls before them
  (`PromptCommentsAreNeverMissed`).
- A review task is left queued for ever without a job exactly if a poll breaks off between its
  writes (`EveryTaskIsEnqueuedOrCancelled`, reached in `ACrashStrandsATask`).
- The receipt of a card retry is written before the task. It gets its task exactly unless the
  write failed after its effect, the insert failed before its effect, or a crash came in between
  (`EveryReceiptGetsItsTask`, reached in `ABreakSpendsAReceipt` and `ATornReceiptIsSpent`); then
  that retry is blocked for ever (`SpentReceiptsBlockForever`). A retry task ends with a job or as
  failed exactly unless its handler breaks off later between its calls (`EveryRetryEnds`,
  `ACrashStallsARetry`), and then it stays open for ever (`StalledRetriesStay`).
- The admin store checks before its transaction. Interleaved requests keep at most one active
  binding per agent and app (`BindingsStayUnique`), but a bind can go through after the agent was
  deactivated (`ALateBindBreaksARoute`): the routes are sound all along exactly if no write goes
  through whose check, repeated then, would refuse it (`SoundExactlyIfNoStaleWrite`), which takes
  another request on the same rows in between (`OnlyDisturbedWritesAreStale`). An update checked
  before a deletion and written after it brings the agent back
  (`ALateUpdateRevivesADeletedAgent`, `LateUpdateOfADeletedAgent`); a deleted agent stays deleted
  if none was under way (`DeletedAgentsStayDeletedInRaces`).
- The patch checks of the admin store read one active binding; this is enough, and soundness
  of the routes alone already implies it (`LimitOneIsEnoughForAgents`).

## Model

| member | source | states |
|---|---|---|
| ChatSerializer.MutualExclusionAndOrder | apps/api/src/chat-event-serializer.ts:27-57 | In every reachable state at most one task per key runs, tasks of a key start in arrival order, and a started call has all earlier ones of its key finished, also across deleted and re-created map entries |
| ChatSerializer.DepthsCountUnfinishedCalls | apps/api/src/chat-event-serializer.ts:16-57 | The depth of a key is the number of its unfinished calls, and both maps hold a key exactly while there are any |
| ChatSerializer.MapsEmptyWhenIdle | apps/api/src/chat-event-serializer.ts:45-56 | Both maps are empty exactly when all serialized calls have finished |
| ChatSerializer.FinishedIsSettled | apps/api/src/chat-event-serializer.ts:32-41 | The tail promise of a finished call is settled, along the whole chain of promises it was built on |
| ChatSerializer.NoDeadlock | apps/api/src/chat-event-serializer.ts:37-56 | A key with unfinished calls has exactly one that runs or can start, the earliest, and all others wait |
| ChatSerializer.Drains | apps/api/src/chat-event-serializer.ts:43-56 | From every reachable state all calls can finish, whichever tasks throw, and then both maps are empty |
| ChatSerializer.ChatEventSerializer.Enter | apps/api/src/chat-event-serializer.ts:28-39 | The code of `run` before its await is the arrival step |
| ChatSerializer.ChatEventSerializer.Leave | apps/api/src/chat-event-serializer.ts:45-56 | The `finally` block is the finishing step, whether the task threw or not |
| ChatSerializer.ChatEventSerializer.GetQueueDepth | apps/api/src/chat-event-serializer.ts:23-25 | Returns the number of unfinished calls of the key |
| ChatSerializer.ChatEventSerializer.ActiveKeyCount | apps/api/src/chat-event-serializer.ts:19-21 | Returns the number of keys with unfinished calls |
| NeutralDispatch.ClosedClaimIsSettled | apps/api/src/slack-events.ts:229-291 | A closed claim stands for a delivered message that was not addressed, got a direct reply, or has a task that was enqueued or terminated |
| NeutralDispatch.AtMostOneAckPerTask | apps/api/src/neutral-dispatch.ts:220-268 | Over all deliveries at most one ACK is posted per task, and every handle in a job is that of a posted ACK of its task |
| NeutralDispatch.JobsOfATaskAgreeOnTheAck | apps/api/src/neutral-dispatch.ts:321-346 | First and recovery jobs of a task never carry two different handles |
| NeutralDispatch.TaskIdsAgreeExactlyPerScopeAndKey | apps/api/src/neutral-dispatch.ts:169-180 | With colon-free scopes two messages share a task id exactly if kind, installation, scope and dedupe key agree |
| NeutralDispatch.ColonsCanMergeTaskIds | apps/api/src/neutral-dispatch.ts:176-180 | Without that condition two different scopes can share an id |
| NeutralDispatch.DispatchMovesStatus | apps/api/src/neutral-dispatch.ts:193-211 | Dispatch makes no task terminal and moves a status back exactly from waiting for a delegate to queued |
| NeutralDispatch.RecoveryCanRequeueADelegatingTask | packages/orchestrator/src/task-state-machine.ts:4-23 | That case is reachable |
| NeutralDispatch.RedeliveryRecovers | apps/api/src/slack-events.ts:227-292 | From every reachable state with a claim that can be taken, one delivery without a fatal failure settles the message and closes the claim, exactly if it does not meet a task row made with other values |
| NeutralDispatch.RedeliveryWithTask | apps/api/src/neutral-dispatch.ts:285-349 | Such a delivery creates the task or finds it, queues it, posts the ACK for a new task only and enqueues a job with the handle of that ACK or the saved one; a terminal task gets neither |
| NeutralDispatch.RedeliveryRefused | packages/orchestrator/src/orchestrator.ts:84-110 | A conflicting row is left alone: no job, no ACK, and the claim is free again |
| NeutralDispatch.RefusedAgainAndAgain | packages/orchestrator/src/orchestrator.ts:84-110 | Once a redelivery met a conflicting row, every later one with that session is refused, over all runs |
| NeutralDispatch.AnotherSessionIsRefused | packages/orchestrator/src/orchestrator.ts:84-110 | A run reaches such a conflict |
| NeutralDispatch.RedeliveryNotAddressed | apps/api/src/slack-events.ts:275-291 | A message not addressed to the bot closes its claim without a task |
| NeutralDispatch.RedeliveryOpsCommand | packages/orchestrator/src/orchestrator.ts:153-166 | An ops command is answered and closes its claim without a task |
| NeutralDispatch.StepKeepsInv | packages/feishu-adapter/src/dedup.ts:31-108 | Every step of every participant keeps the invariant of claims, tasks, ACKs and jobs |
| SlackGateway.Gateway.CheckAndRecordEvent | packages/feishu-adapter/src/dedup.ts:31-96 | Takes a free or stale claim, reports everything else as a duplicate |
| SlackGateway.Gateway.DispatchNeutralMessage | apps/api/src/neutral-dispatch.ts:281-349 | The code of the dispatch is a run of the step relation; it returns normally only where the claim may be closed |
| SlackGateway.Gateway.Dispatch | apps/api/src/slack-events.ts:227-292 | A delivery is a run of the step relation and is accepted only as a duplicate or with the message settled |
| MentionOrder.FindFirstPicksTheEarliest | apps/api/src/server.ts:979-1004 | The first match in the sorted list is the participant with the least mention index, first in the roster among ties |
| MentionOrder.FindLastPicksTheLatest | apps/api/src/server.ts:979-988 | The first match in the reversed sorted list is the one with the greatest mention index, last in the roster among ties |
| MentionRouting.RelayIsBetweenNearestMentions | apps/api/src/server.ts:966-1010 | The keyword relay goes from the last eligible mention before the marker to the first eligible one after it, and exists exactly if both do and something is asked |
| MentionRouting.KeywordRelayIsConcerted | apps/api/src/server.ts:1241-1260 | In a keyword relay one delivery leads, the target defers with the goal of the contract, all others skip |
| MentionRouting.LlmRelayIsConcerted | apps/api/src/server.ts:1349-1384 | In any LLM relay that can be mapped the deferring agents are exactly the others of the primary's contract list, with the goal of their first contract |
| MentionRouting.AllFallBackOrNone | apps/api/src/server.ts:1349-1405 | An LLM decision that cannot be mapped falls back for every delivery or for none |
| MentionRouting.DecisionsFitTogether | apps/api/src/server.ts:1413-1455 | Decisions taken per delivery are all "continue", or a concerted relay, or split by role, whatever the LLM answered |
| MentionRouting.ExactlyOnePrimary | apps/api/src/server.ts:1203-1260 | Of distinct agents exactly one continues as primary, those with a contract defer, the others skip |
| MentionRouting.ReferencedAgentsStandBack | apps/api/src/server.ts:1034-1048 | In the keyword reference route exactly the agents mentioned as owners are references and are skipped, all others act |
| MentionRouting.LlmActorsAct | apps/api/src/server.ts:1386-1404 | The LLM's reference route continues exactly the agents it names as actors |
| MentionRouting.ParseRelay | packages/orchestrator/src/mention-routing-classifier.ts:96-136 | A relay answer is accepted exactly if every agent of the roster has exactly one part and every deferred one a goal |
| MentionRouting.ValidRelayLeavesNobodyOut | packages/orchestrator/src/mention-routing-classifier.ts:123-134 | An accepted relay is never dropped by the mapping and every agent but the primary waits on it |
| MentionMemo.MentionRoutingMemo.ClassifyOnce | packages/orchestrator/src/mention-routing-classifier.ts:226-241 | Evicts exactly the expired entries and answers with the shared entry of the message |
| MentionMemo.DeliveriesShareTheDecision | packages/orchestrator/src/mention-routing-classifier.ts:209-241 | All calls for a message within the ttl of its classification get the same decision |
| WaitingContracts.PartsAreTheDecisions | apps/api/src/server.ts:2692-2721 | The deliveries that get past the routing are those of the plan decided on, and a deferred one writes the goal the primary writes for it |
| WaitingContracts.NoTaskWithoutItsContracts | apps/api/src/server.ts:2722-2752 | The primary task exists only with a contract for every deferred agent of a plan that a delivery decided on with that primary |
| WaitingContracts.ContractsFollowADecision | packages/storage/src/waiting-contract-repository.ts:27-75 | Whatever the deliveries decided, each row has the goal and primary of one of their decisions, is bound to the task it waits on or to none, and its id is its own |
| WaitingContracts.ContractsFollowThePlan | packages/storage/src/waiting-contract-repository.ts:27-75 | If all deliveries of a message so far carried one plan, each row has its goal and primary, whoever wrote it, and is bound to that task or to none |
| WaitingContracts.PrimaryBindBindsExactly | packages/storage/src/waiting-contract-repository.ts:88-119 | The bind of a primary binds a contract of its plan exactly if the row waits on this primary |
| WaitingContracts.BoundForGood | packages/storage/src/waiting-contract-repository.ts:88-119 | After the bind all contracts of the plan are bound to the primary task for good, if all deliveries up to then let the same agent lead, whatever later ones decide |
| WaitingContracts.RecordedAckIsVisible | packages/storage/src/waiting-contract-repository.ts:79-88 | A recorded ack is a visible one of that contract |
| WaitingContracts.AcksOfAContractAreApart | apps/api/src/server.ts:1524-1538 | Every ack belongs to a contract, and two of one contract are further apart than the chat remembers a uuid |
| WaitingAcks.TwoAcksExactlyIfSendsAreApart | apps/api/src/server.ts:1524-1538 | Over every run a contract has two visible acks exactly if two of its sends are further apart than that |
| WaitingAcks.SendersReadNoAck | apps/api/src/server.ts:1488-1497 | Whoever is about to send read, no later than any record, that none was there |
| WaitingAcks.RecordedInTimeMeansNoMoreAcks | apps/api/src/server.ts:1488-1497 | An ack recorded so early that all who read before still send within the memory of the chat is the last one, however late the message comes again |
| WaitingAcks.ALateReplayAcksTwice | apps/api/src/server.ts:1538-1551 | A lost record and a late replay show a second ack |
| RelayDecisions.OneDecisionOnePlan | apps/api/src/server.ts:1203-1260 | A decision for distinct agents is concerted about one plan only |
| RelayDecisions.OnePlanWithinTheTtl | packages/orchestrator/src/mention-routing-classifier.ts:209-246 | All deliveries of a message carry one plan if they decided in one process within the ttl of its classification, on one text and roster |
| RelayDecisions.AfterTheTtlThePlanCanChange | packages/orchestrator/src/mention-routing-classifier.ts:226-241 | Two calls for one message and roster of three, the second a millisecond after the ttl of the first, decide on plans with different primaries |
| RelayDecisions.ASecondPlanLeavesAContractUnbound | packages/storage/src/waiting-contract-repository.ts:99-118 | With exactly these two plans decided, any time apart, the second primary's task starts and its bind works while a contract of both plans is bound to no task |
| WaitingContracts.PrimaryRedeliveryCompletesTheRelay | apps/api/src/server.ts:2715-2964 | From every reachable state one fault-free delivery to a primary leaves its task with all contracts of its plan, each bound exactly if it waits on this primary, and all if no other agent led before |
| WaitingContracts.DeferredRedeliveryShowsTheAck | apps/api/src/server.ts:1464-1554 | From every reachable state one fault-free deferred delivery leaves its ack visible and recorded |
| WaitingContracts.TaskIdsAreDistinct | apps/api/src/server.ts:1060-1067 | Primary task ids agree exactly per message and leading agent |
| RelayGateway.Gateway.PersistContracts | apps/api/src/server.ts:2730-2752 | The contract loop writes all contracts or aborts the event at the first failure |
| RelayGateway.Gateway.DispatchPrimary | apps/api/src/server.ts:2722-2964 | The primary's delivery is a run of the step relation for whatever plan; a started task has all contracts of it, and a bind that did not fail binds them if no other agent led so far |
| RelayGateway.Gateway.HandleDeferredMentionDelivery | apps/api/src/server.ts:1464-1554 | The deferred delivery is a run of the step relation and is left for redelivery only if its contract could not be written or read |
| RelayGateway.Gateway.PostAck | apps/api/src/server.ts:1525-1553 | Reports success only with the contract's ack visible |
| AdminTheorems.BindingsStaySound | apps/api/src/admin-api.ts:3179-3252 | Every sequence of operations keeps at most one active binding per agent and per app, each between an active agent and an enabled app of one tenant |
| AdminTheorems.OperationKeepsInv | apps/api/src/admin-api.ts:2584-2840 | Every single operation keeps that |
| AdminTheorems.LimitOneIsEnoughForAgents | apps/api/src/admin-api.ts:3636-3663 | The one binding the agent patch check reads decides for all; a bound agent can be patched exactly if it stays active and in its tenant |
| AdminTheorems.LimitOneIsEnoughForApps | apps/api/src/admin-api.ts:3665-3688 | The same for apps, which must stay enabled and in their tenant |
| AdminTheorems.BindBotRebinds | apps/api/src/admin-api.ts:3203-3231 | After a bind the active bindings are the new one and those of other agents and apps |
| AdminTheorems.OthersAgentsStay | apps/api/src/admin-api.ts:1682-1686 | In every run of plain users' operations an agent none of them owns, or nobody owns, stays as it is |
| AdminTheorems.OthersProfilesStay | apps/api/src/admin-api.ts:1807-1820 | The same for profiles |
| AdminTheorems.OthersAppsStay | apps/api/src/admin-api.ts:2765-2840 | The same for apps |
| AdminTheorems.OthersInstallationsStay | apps/api/src/admin-api.ts:2898-2966 | The same for Slack installations |
| AdminTheorems.OthersMachinesStay | apps/api/src/admin-api.ts:2311-2334 | The same for machines |
| AdminTheorems.DeletedAgentsStayDeleted | apps/api/src/admin-api.ts:1572-1586 | A soft-deleted agent never changes again under any scope and is in nobody's list |
| AdminTheorems.DeletedAppsStayDeleted | apps/api/src/admin-api.ts:1517-1533 | The same for apps |
| AdminTheorems.DeletedInstallationsStayDeleted | apps/api/src/admin-api.ts:1547-1563 | The same for Slack installations |
| AdminTheorems.DeletingAnAgentIsFinal | apps/api/src/admin-api.ts:2674-2696 | Deleting a deletable agent always works; whatever follows, its row stays the tombstone, is listed nowhere and has no binding |
| AdminRaces.AtOnceIsTheOperation | apps/api/src/admin-api.ts:2584-2840 | Check and write with nothing in between are the operation of the tables |
| AdminRaces.BindingsStayUnique | apps/api/src/admin-api.ts:3203-3231 | However checks and writes of requests interleave, agent and app have at most one active binding |
| AdminRaces.LateKeepsInvExactlyIfFresh | apps/api/src/admin-api.ts:3179-3231 | A write keeps the bindings sound exactly if the check of the route, repeated now, would not refuse it |
| AdminRaces.SoundExactlyIfNoStaleWrite | apps/api/src/admin-api.ts:2584-2840 | Over every interleaving the bindings are sound all along exactly if every write is so |
| AdminRaces.OnlyDisturbedWritesAreStale | apps/api/src/admin-api.ts:3636-3688 | A write is stale only if a binding or route column that its check read was written in between |
| AdminRaces.ALateBindBreaksARoute | apps/api/src/admin-api.ts:3179-3231 | A bind and a deactivation that interleave leave an active binding to an inactive agent |
| AdminRaces.LateUpdateOfADeletedAgent | apps/api/src/admin-api.ts:2639-2668 | An update that comes after a deletion leaves the agent deleted exactly if it writes the archived status or none, and a tombstone handle |
| AdminRaces.ALateUpdateRevivesADeletedAgent | apps/api/src/admin-api.ts:2639-2668 | Any update checked before and written after a deletion writes the old handle back, and the agent is listed again |
| AdminRaces.DeletedAgentsStayDeletedInRaces | apps/api/src/admin-api.ts:2674-2696 | Over every interleaving a deleted agent stays deleted if no update of it was under way |
| AdminStore.Store.BindBot | apps/api/src/admin-api.ts:3179-3231 | Does the operation of the tables, with its refusals, and keeps the invariant |
| AdminStore.Store.UnbindBot | apps/api/src/admin-api.ts:3233-3252 | The same |
| AdminStore.Store.UpdateAgent | apps/api/src/admin-api.ts:2584-2672 | The same, with the profile edit and the agent in one transaction |
| AdminStore.Store.CheckAgentPatch | apps/api/src/admin-api.ts:2590-2644 | The checks in the source's order refuse exactly what the tables say |
| AdminStore.Store.AgentPatchKeepsActiveBinding | apps/api/src/admin-api.ts:3636-3663 | Reading one active binding answers for all bindings of the agent |
| AdminStore.Store.AppPatchKeepsActiveBinding | apps/api/src/admin-api.ts:3665-3688 | Reading one active binding answers for all bindings of the app |
| AdminStore.Store.DeleteAgent | apps/api/src/admin-api.ts:2674-2696 | Does the operation of the tables and keeps the invariant |
| AdminStore.Store.CreateAgent | apps/api/src/admin-api.ts:2505-2582 | The same |
| AdminStore.Store.UpdateFeishuApp | apps/api/src/admin-api.ts:2765-2784 | The same |
| AdminStore.Store.SyncFeishuAppMetadata | apps/api/src/admin-api.ts:2786-2813 | The same |
| AdminStore.Store.DeleteFeishuApp | apps/api/src/admin-api.ts:2815-2840 | The same |
| AdminStore.Store.UpdateSlackInstallation | apps/api/src/admin-api.ts:2898-2936 | The same, with the token rule for enabled rows |
| AdminStore.Store.DeleteSlackInstallation | apps/api/src/admin-api.ts:2938-2966 | The same |
| AdminStore.Store.UpdateProfile | apps/api/src/admin-api.ts:2492-2503 | The same |
| AdminStore.Store.DisconnectMachine | apps/api/src/admin-api.ts:2311-2334 | The same |
| PrComments.FilterAndSortComments | apps/api/src/pr-comment-fetcher.ts:85-101 | Returns the oldest comments that are not by bots and later than the cursor, at most the cap |
| PrComments.ComputeNextPolledAt | apps/api/src/pr-polling-service.ts:35-45 | The start of the poll for an empty batch, else the latest time in it |
| PrComments.SkipsExactlyIfCutAtATie | apps/api/src/pr-comment-fetcher.ts:99-100 | Moving the cursor past a batch skips a pending comment exactly if the cap cuts between two of the same time |
| PrComments.BatchLeavesTheRest | apps/api/src/pr-comment-fetcher.ts:97-100 | With the cursor at the end of a batch exactly what was pending behind it is pending |
| PrPolling.Drains | apps/api/src/pr-polling-service.ts:110-235 | From every idle state k good polls, whatever time passes between them, are a run that hands over exactly the first k chunks of twenty of what is pending, and leave the rest |
| PrPolling.ChunksCoverInOrder | apps/api/src/pr-comment-fetcher.ts:18-100 | The chunks hold each of n comments once, oldest first, and are n / 20 rounded up |
| PrPolling.GoodPollHandsOverTheOldest | apps/api/src/pr-polling-service.ts:142-235 | A poll in which all calls work hands over exactly the oldest pending comments, up to the cap |
| PrPolling.CursorNeverMovesBack | apps/api/src/pr-polling-service.ts:156-165 | Over all runs the cursor never goes back |
| PrPolling.HandoversAreTheLiveTasks | apps/api/src/pr-polling-service.ts:177-253 | Over all runs the handovers are exactly the queued tasks with a job, each once, with the comments that its goal names, except a task that the poll under way is about to enqueue or cancel |
| PrPolling.HandoversAreExactlyCounted | apps/api/src/pr-polling-service.ts:142-253 | Over all runs, for every comment: its handovers are its batches whose poll left the cursor, and one more exactly if it is not of a bot, not missed, and the cursor passed it or is about to |
| PrPolling.EveryPassedCommentIsHandedOver | apps/api/src/pr-polling-service.ts:142-253 | A passed comment that was not missed was handed over, exactly once iff none of its batches slipped; without a slip it was handed over never iff it was missed |
| PrPolling.NeverTwiceWithoutASlip | apps/api/src/pr-polling-service.ts:197-253 | A comment none of whose batches slipped is handed over at most once, and then it is behind the cursor or about to be |
| PrPolling.PassedIsSettled | apps/api/src/pr-comment-fetcher.ts:97 | Once passed, a comment is never enqueued again |
| PrPolling.TooLateIsNeverHandedOver | apps/api/src/pr-comment-fetcher.ts:97 | A comment that shows up with a time the cursor has passed is never enqueued, over all runs |
| PrPolling.PromptCommentsAreNeverMissed | apps/api/src/pr-polling-service.ts:142-253 | With comments in the order of their times and later than the polls before them, each passed one is handed over exactly once plus once per slip of its batches |
| PrPolling.EveryTaskIsEnqueuedOrCancelled | apps/api/src/pr-polling-service.ts:177-253 | Between polls an inserted task has a job or is cancelled, exactly if no step of the run broke off between its writes |
| PrPolling.ACrashStrandsATask | apps/api/src/pr-polling-service.ts:177-199 | A crash before the enqueue leaves a queued task without a job |
| PrPolling.StrandedStays | apps/api/src/pr-polling-service.ts:177-253 | Such a task stays queued without a job, over all runs |
| PrPolling.ASlipRepeatsTheBatch | apps/api/src/pr-polling-service.ts:234-242 | A failed cursor update after an enqueue can hand the same comment over twice |
| PrPolling.AThrownEnqueueRepeatsTheBatch | apps/api/src/pr-polling-service.ts:197-253 | An enqueue that throws after its insert, with a failed cancellation, leaves two live tasks for one comment |
| PrPolling.ATruncatedTimeIsMissed | apps/api/src/pr-polling-service.ts:141-165 | A comment less than a second old can be passed by for good |
| PrPoller.PrPollingService.ProcessSession | apps/api/src/pr-polling-service.ts:123-235 | A poll is a run of the step relation that leaves no poll under way; what it hands over is exactly the oldest of the comments seen at the fetch beyond the old cursor, and the cursor then stands at its last |
| PrPoller.PrPollingService.CancelInsertedReviewTask | apps/api/src/pr-polling-service.ts:244-253 | Cancels the task unless it throws, and hands nothing over unless it throws after an enqueue that inserted |
| StaleThreads.FindStaleMembers | packages/ambient/src/stale-thread.ts:89-105 | The detector returns exactly the quiet, waiting threads of sendable scopes |
| StaleThreads.FindStaleIsStrict | packages/ambient/src/stale-thread.ts:101-105 | Oldest first, ties by task id, nothing twice |
| StaleThreads.OneNudgePerEpisode | apps/api/src/stale-thread-scanner.ts:144-187 | Over all runs, between two nudges of a task there was activity later than the anchor of the first |
| StaleThreads.LaterActivityIsDueAgain | apps/api/src/stale-thread-scanner.ts:299-319 | A quiet allowed thread is due exactly if all its audits are older than its last activity |
| StaleThreads.WorkingScanHandlesTheOldest | apps/api/src/stale-thread-scanner.ts:130-193 | A scan with working audits takes exactly the oldest due threads, up to the cap, whether it nudges, declines or fails to send |
| StaleThreads.BacklogDrains | apps/api/src/stale-thread-scanner.ts:56-61 | n due threads are handled in n / maxPerTick working scans, rounded up, oldest first, before those that become due meanwhile |
| StaleThreads.LaterScansSeeMore | packages/ambient/src/stale-thread.ts:93-105 | Time only adds stale threads, behind those already stale |
| StaleScanner.Scanner.ScanStaleThreads | apps/api/src/stale-thread-scanner.ts:117-194 | A scan is a run of the step relation, sends at most the cap, and does nothing when switched off |
| StaleScanner.Scanner.TryWriteAudit | apps/api/src/stale-thread-scanner.ts:205-234 | Never throws; only a written anchor leads to a delivery |
| RateLimiter.WebhookRateLimiter.CheckRateLimit | apps/api/src/feishu-webhook.ts:231-256 | Answers and changes the map as the rule of windows, sweep and forced drop says |
| RateLimiter.WebhookRateLimiter.SweepExpired | apps/api/src/feishu-webhook.ts:242-246 | The sweep loop removes exactly the expired buckets and keeps the order |
| RateLimiter.ExceedsExactlyBehindTheEmptyKey | apps/api/src/feishu-webhook.ts:241-253 | A check exceeds the bound exactly if the sweep frees nothing and the oldest key is the empty string, or the bound is zero |
| RateLimiter.NeverTooManyKeys | apps/api/src/feishu-webhook.ts:241-253 | Without empty keys the map never exceeds maxKeys, over all runs |
| RateLimiter.EmptyKeyBreaksTheBound | apps/api/src/feishu-webhook.ts:248-249 | With one it does |
| RateLimiter.BucketsHoldFewRequests | apps/api/src/feishu-webhook.ts:234-239 | No bucket ever counts more than maxRequests |
| RateLimiter.SweepChangesNoAnswer | apps/api/src/feishu-webhook.ts:242-246 | The sweep changes no later answer for any key |
| RateLimiter.AnswersAsIfAlone | apps/api/src/feishu-webhook.ts:231-255 | A key never dropped by force is answered as by a limiter of its own, without bound and sweep |
| RateLimiter.AtMostTwiceTheLimit | apps/api/src/feishu-webhook.ts:234-239 | Such a key is admitted at most 2·maxRequests times in any stretch of time as long as the window |
| CardDedup.TaskCardActionHandler.IsDuplicateCardAction | apps/api/src/card-action-handler.ts:161-182 | Sweeps exactly the expired keys, then asks and notes |
| CardDedup.GetCardActionDedupKey | apps/api/src/card-action-handler.ts:140-146 | The first non-empty of three ids, none exactly if all are empty |
| CardDedup.DroppedExactlyIfRecentlyAccepted | apps/api/src/card-action-handler.ts:161-182 | A keyed event is dropped exactly if its key was last accepted at most fifteen minutes before |
| CardDedup.MapHoldsExactlyTheRecentKeys | apps/api/src/card-action-handler.ts:169-181 | After a keyed event the map holds exactly the keys accepted in that time, with the time of acceptance |
| CardDedup.AcceptedEventsAreApart | apps/api/src/card-action-handler.ts:161-182 | Two accepted events of a key are more than fifteen minutes apart |
| CardRetries.ReceiptKeysAgreeExactly | apps/api/src/card-action-handler.ts:148-159 | Receipts tell clicks apart by source task, action and operator exactly |
| CardRetries.AtMostOneRetry | apps/api/src/card-action-handler.ts:496-520 | Over all runs source task, action and operator have at most one retry task, and no task has two jobs |
| CardRetryEndings.EveryReceiptGetsItsTask | apps/api/src/card-action-handler.ts:501-539 | Over every run a receipt has its task or a handler about to insert it, exactly unless a step took it away: a receipt write that failed after its effect, an insert without effect, or a crash before the insert |
| CardRetryEndings.SpentReceiptsBlockForever | apps/api/src/card-action-handler.ts:513-539 | After such a step no click of that source task, action and operator ever makes a task, over all runs |
| CardRetryEndings.ABreakSpendsAReceipt | apps/api/src/card-action-handler.ts:501-522 | A crash after the receipt, or a failed insert, is enough for that |
| CardRetryEndings.ATornReceiptIsSpent | apps/api/src/card-action-handler.ts:501-512 | So is a write of the receipt that takes effect and fails |
| CardRetryEndings.EveryRetryEnds | apps/api/src/card-action-handler.ts:522-620 | Over every run a retry task has a job, is marked failed or is worked on, exactly unless a step left it: a torn insert, a failed transition, a crash before the enqueue, or a crash or failed update instead of the mark |
| CardRetryEndings.StalledRetriesStay | apps/api/src/card-action-handler.ts:513-620 | Such a task stays open without a job over all runs, while its receipt refuses further clicks |
| CardRetryEndings.ACrashStallsARetry | apps/api/src/card-action-handler.ts:522-541 | A crash after the insert leaves a pending task without a job |
| CardRetryHandler.Handlers.HandleRetry | apps/api/src/card-action-handler.ts:496-628 | The handler is a run of the step relation and reports success only with task and job there |
| SlackInstallations.NoBorrowingOnceRowsAreOld | apps/api/src/slack-installation-resolver.ts:84-96 | Once a row has existed for the ttl and the lag of a probe, no call borrows the default identity, in any order of calls, cache hits and failures |
| SlackInstallations.BorrowedWithinTheTtl | apps/api/src/slack-installation-resolver.ts:84-85 | One millisecond earlier one can, so that bound is tight |
| SlackInstallations.BorrowsExactlyIfNoneWasSeen | apps/api/src/slack-installation-resolver.ts:84-96 | A call is answered with the default exactly by a fresh "none" in the cache or by its own probe that saw no row |
| SlackResolver.SlackInstallationResolver.AnyInstallation | apps/api/src/slack-installation-resolver.ts:84-96 | A run of the step relation that answers as the cache or the probe says |
| SlackResolver.SlackInstallationResolver.ChannelFor | apps/api/src/slack-installation-resolver.ts:64-71 | One channel object per token, the same one for ever |
| SlackResolver.SlackInstallationResolver.ResolveBotUserId | apps/api/src/slack-installation-resolver.ts:99-116 | A run of the step relation; an enabled row alone decides, the default is given exactly if the answer lets it be borrowed, and never once rows are old |
| SlackResolver.SlackInstallationResolver.ResolveSender | apps/api/src/slack-installation-resolver.ts:118-137 | The same for the sender, given exactly if there is a token, as the one channel object of that token |
| ReferenceChain.FollowChain | apps/api/src/referenced-message-enrichment.ts:45-107 | The loop appends the messages of the walk, accumulates its warnings and fetches its ids |
| ReferenceChain.AtMostElevenFetches | apps/api/src/referenced-message-enrichment.ts:20-60 | The loop fetches at most depth + 1, so at most eleven ids, all distinct, none the event's own, on every graph |
| ReferenceChain.WalkIsAPath | apps/api/src/referenced-message-enrichment.ts:297-304 | The messages form a path of reference or parent links, in the order of the fetches |
| ReferenceChain.WalkEndsForItsReason | apps/api/src/referenced-message-enrichment.ts:60-107 | The walk ends exactly by end of chain, depth, cycle, missing message, failure or a first message without image |
| ReferenceChain.EarlyStopsWarn | apps/api/src/referenced-message-enrichment.ts:61-106 | A stop by cycle, missing message or failure always leaves its warning |
| ReferenceChain.MessageWarningsStay | apps/api/src/referenced-message-enrichment.ts:83-86 | What a fetched message warned about is kept to the end |
| ReferenceChain.MergeKeepsWarnings | apps/api/src/referenced-message-enrichment.ts:372-378 | Merging keeps every non-empty warning of both sides once |
| ReferenceChain.ChineseNumeralsReadBack | apps/api/src/referenced-message-enrichment.ts:266-295 | Every number below a hundred written in Chinese is read back |
| ChinaSchedule.ChinaWallClockInstant | apps/api/src/schedule-utils.ts:26-31 | Setting hours and date through the calendar gives the instant so many China days after today |
| ChinaSchedule.AddingToTheDateAddsDays | apps/api/src/schedule-utils.ts:29 | Year, month and day of the Gregorian calendar: adding to the date adds days across months and years |
| ChinaSchedule.MakeDayIsTheFirstOfTheMonth | apps/api/src/schedule-utils.ts:28-29 | The day made from a year and a month is the first of that month |
| ChinaSchedule.ScheduleToday | apps/api/src/schedule-utils.ts:64-73 | The branch for today, with its roll-over |
| ChinaSchedule.TodayIsTheNextSuchTime | apps/api/src/schedule-utils.ts:64-73 | "Today" is the least instant after now at which a clock in China shows that time |
| ChinaSchedule.TomorrowIsTheNextDay | apps/api/src/schedule-utils.ts:75-82 | "Tomorrow" shows that time on the next China day and lies less than 48 hours ahead |
| ChinaSchedule.AnyTwoDigitsLieAhead | apps/api/src/schedule-utils.ts:64-82 | For any two-digit hour and minute both lie after now |
| ChinaSchedule.ScheduleIn | apps/api/src/schedule-utils.ts:48-62 | A relative time lies after now exactly if its amount is not zero |
| ShellQuote.QuotedReadsBack | apps/api/src/review-request.ts:33-35 | A shell reads a quoted string as exactly one word equal to it, at the end or in front of a blank, newline or operator |
| ShellQuote.ArgumentListReadsBack | apps/api/src/review-request.ts:33-35 | A line of quoted arguments is split into exactly these arguments |
| ShellQuote.QuotingIsInjective | apps/api/src/review-request.ts:33-35 | Different strings are quoted differently |
| TaskKeys.JoinIsInjective | apps/api/src/neutral-dispatch.ts:176-180 | Keys joined with colons agree only if all parts do, when all but the last are colon-free |

## Left out

- Hashing: the functions that turn a key into a UUID are taken as injective.
- Routes, signatures, OAuth, sockets, timers, logging and texts: a call that may fail is a step with outcomes.
- Mention names, keyword patterns and prompts: what they find in a text is an input of the routing.
- Trimming, case folding and the derivation of handles from display names: strings are taken as already normalized.
- The observation written before a Slack dispatch: best effort, no effect on the claim.
- AdminRaces: profiles, installations and machines; the reads of one check are one step, and so is each transaction.
- AdminTables.Refusal: the credential check of Claude agents is an input, and a random tombstone id never collides.
- PrPolling: one session, polls that do not overlap, comments with well-formed times; what a worker does with a job before its task is cancelled.
- StaleThreads: scans that do not overlap; the clock of the audit rows is the clock of the scan.
- WaitingContracts: how long the chat remembers a uuid is a parameter.
- What the worker later does with a waiting contract only changes its status; a deferred delivery without an agent identity is not modelled.
- SlackInstallations: the OAuth upsert is one of the arbitrary writes of a row; what a token reference resolves to is part of the row, and a throw there is a failed query.
- CardRetries: the checks of requester, chat and task status before the receipt, and the ACK sent before it; a failed session update of a runtime switch ends the handler like a crash before the enqueue.
- ReferenceChain: the lookup of the first id and the topic image path (apps/api/src/referenced-message-enrichment.ts:122-228).
- ChinaSchedule: ISO timestamps and time values outside the range of ECMA-262.
- feishu-app-lock.ts, feishu-ws-manager.ts, buffer-gate.ts, document-comment-event-enrichment.ts, slack-interactive.ts and debug endpoints.
