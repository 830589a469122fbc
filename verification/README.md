# Verification of the CRM's automation, kanban, agent and retrieval core

The repository is a customer-messaging platform: conversations are routed to people and to AI agents, cards move on a kanban board, and automation rules react to events. This project models the parts whose correctness spans many operations and proves what they keep. `dafny verify dfyconfig.toml` checks everything.

One module per component; every file holds one module.

- **Kanban.** `CardOrder` and `CardMoves` are the theory of order numbers with gaps: a column is the strictly rising list of its cards, and the range updates of a move are "take out of one list, insert into another". `Pipelines` is the board over whole runs, with the service as a class over its tables. `SalesRecovery` is the recovery machine that drives cards and sends messages, `SalesOutcomes` what it does to a card case by case and where a silent customer's card ends.
- **Automation engine.** `OutboxProtocol` is the transition system of events, leases, pollers, queue and workers; `Outbox` is the same as code, each method adding its steps to a history that `Valid()` ties to the protocol. `OutboxDedup` writes events. `ContactLock` and `RateLimit` are the Redis protocols, `AutomationRedis` the service over them. `AutomationExecutor` runs one event, `Cascade` bounds what one event can set off, `CascadeRows` the outbox table it is written to, `AutomationCounters` is the counter and auto-pause ladder. `Conditions` evaluates stored JSON, `AutomationRules` validates and stores it; `ConditionLaws` and `RuleLaws` say what that means of whole conditions.
- **Agents.** `AgentRunner` is the tool loop with the reply contract; `AgentAccount` accounts for the transcript by what was executed, and `AgentTranscript` has its form, usage, models, chaining and the loops as code. `AgentHierarchy` is the reporting tree. `PromptBuilder` merges messages into turns.
- **Retrieval.** `Chunker`, `VectorStore`, `Retrieval`.
- **Guards.** `WebhookThrottle`, `Router`.

Code that changes fields step by step is a class whose methods are proved against a specification function or protocol; what the source promises is said again in its own terms, without those functions, by the methods' contracts and by lemmas over all inputs and runs. Language models, tools, handlers, Redis, the queue and the database's choice among equals are parameters that may answer anything, under the stated contract.

Where the code and what is written about it disagree, the code is modelled and the difference is a lemma:

- PROCESSED is not final (`OutboxProtocol.ProcessedIsLeftOnlyByRelease`, `ProcessedCanBeUndone`), so an event can run to a clean end twice without anything failing but one answer (`ProcessedEventRunsTwice`).
- The worker's comment (src/modules/automations/workers/automation-event.processor.ts:43-46) expects an event whose job failed to be picked up again when its lease ends. It is claimed again, but the queue ignores a job id it still keeps: nothing runs exactly until the finished job is evicted or the event drained (`OutboxProtocol.FinishedJobStrandsEvent`), and then it can run (`EvictedEventRuns`).
- Two rule actions write cards without numbering them; `Pipelines` gives the exact condition under which orders stay distinct.
- The outbox key of a tag event has no occurrence in it, so taking a tag off and putting it on again is treated as a re-delivery (`OutboxDedup.SecondTimeIsDropped`; `DroppedIffReported` says exactly which calls are dropped).
- The parent check looks fifty steps up; `AgentHierarchy` proves what that gives and how a cycle of 52 arises.
- A chunk can be cut when a paragraph close to the maximum follows an overlap; `Chunker.StitchesBackIff` gives the condition and `LongParagraphIsCut` an input.
- The cooldown record lives on the card, so deleting or relinking a card can forget it; `SalesRecovery.SafeIffRemembered` gives the exact condition and `DeletionBreaksCooldown` an input. An escalation also records a follow-up the channel declined (`StepKeepsBackedIff`, `DeclineIsRecorded`).
- A call that throws on a held lock may already have run earlier rules; `AutomationExecutor.ThrowsAfterRunningIff` says exactly when.
- The rate limiter reads its clock before its pipeline runs. `RateLimit.CallKeepsWindowsIff` says exactly which calls keep the 60 s bound; `OvertakenReadingExceeds` and `LateReadingExceeds` show what an overtaken and a late reading do.
- The runner's comment (src/modules/ai-agents/runner/agent-runner.service.ts:314-319) says plain text is sent so that paid work is not dropped; it is dropped exactly when it comes with the eighth call, from the tool model, while the synthesis model is another (`AgentTranscript.FinalTextIsSentIff`).
- One reply per run rests on what the reply tool reports; `AgentRunner` proves the contract sufficient and necessary.
- Fetching four times k rows is not needed for correctness: any limit of at least k gives the same result (`VectorStore.LimitThenFilter`).

## Model

| member | source | states |
|---|---|---|
| CardOrder.ColumnIsColumn | src/modules/pipelines/pipelines.service.ts:47-82 | With distinct orders, a column read back sorted lists exactly its cards, in strictly rising order. |
| CardOrder.ColumnIs | src/modules/pipelines/pipelines.service.ts:47-82 | A column has one such reading: any strictly rising list of exactly its cards is it. |
| CardMoves.MoveKeepsDistinct | src/modules/pipelines/pipelines.service.ts:414-463 | Moving a card to any index of any stage of its pipeline, gaps or not, keeps orders in every column pairwise distinct. |
| CardMoves.MoveRefinesLists | src/modules/pipelines/pipelines.service.ts:414-463 | The range shifts are list operations: every column afterwards is the old list without the card, with the card inserted into the target just after (moving down) or before (moving up, or from another stage) the cards numbered toIndex; all others keep their relative order. |
| CardMoves.MoveToEndAppends | src/modules/sales-recovery/recovery-cards.repository.ts:91-99 | Moving a card to max + 1 of a stage, also its own, puts it last in that list. |
| CardMoves.DropLandsAtIndex | src/modules/pipelines/pipelines.service.ts:414-463 | In a column numbered 0, 1, .. a drop at toIndex puts the card at list position toIndex and the column is numbered 0, 1, .. again. |
| CardMoves.DropStaysDenseIff | src/modules/pipelines/pipelines.service.ts:414-463 | A column numbered 0, 1, .. stays so under a drop, also from itself, exactly when toIndex is a position of its list without the card. |
| CardMoves.LeftColumnStaysDense | src/modules/pipelines/pipelines.service.ts:435-444 | The column a card leaves by a drag is numbered 0, 1, .. again. |
| CardMoves.MoveToOwnEndLeavesHole | src/modules/sales-recovery/sales-recovery.service.ts:383-394 | So moving a card to max + 1 of the column it is already in always leaves a hole. |
| CardMoves.MovedMovesOne | src/modules/pipelines/pipelines.service.ts:400-463 | The moved card takes the status of its new stage, by kind, with its closing time kept, set or cleared; a card put where it is stays as it was; no other card changes but in its number. |
| Pipelines.ApplyKeepsInv | src/modules/pipelines/pipelines.service.ts:165-468 | Each of create, remove, move and restage keeps orders distinct, every card on a stage of its pipeline, and the closing time in step with the status. |
| Pipelines.RunKeepsInv | src/modules/pipelines/pipelines.service.ts:165-468 | The same over every run of those operations. |
| Pipelines.LastMoveDecides | src/modules/pipelines/pipelines.service.ts:400-463 | Over every run of those operations a stage, status and closing time are what the last move of the card made them. |
| Pipelines.FirstClosingStays | src/modules/pipelines/pipelines.service.ts:402-412 | A closed card keeps its first closing time over every run in which it is not moved to a normal stage or removed. |
| Pipelines.StepKeepsFitIff | src/modules/pipelines/pipelines.service.ts:165-468 | Where every status goes with the kind of its stage, moves and removals keep it so, creating a card does exactly on a normal stage, and restaging exactly if no stage with cards is given another kind. |
| Pipelines.RemoveRefinesLists | src/modules/pipelines/pipelines.service.ts:364-375 | Removing a card takes it out of its list and changes no other list; no order is renumbered. |
| Pipelines.RemoveStaysDenseIff | src/modules/pipelines/pipelines.service.ts:364-375 | A column numbered 0, 1, .. stays so exactly when the removed card is its last. |
| Pipelines.CreateAppends | src/modules/pipelines/pipelines.service.ts:248-300 | A created card is appended to its column; every other list stays as it was. |
| Pipelines.CreateStaysDense | src/modules/pipelines/pipelines.service.ts:289-300 | On a column numbered 0, 1, .. the created card has the next number. |
| Pipelines.AutomationAddKeepsDistinctIff | src/modules/automations/actions/handlers/add-to-pipeline.handler.ts:98-112 | A rule that inserts a card (the order column defaults to 0) keeps orders distinct exactly when no card of the column has order 0. |
| Pipelines.AutomationMoveKeepsDistinctIff | src/modules/automations/actions/handlers/move-pipeline-stage.handler.ts:80-102 | A rule that moves a card without renumbering (it does nothing to a card already there) keeps orders distinct exactly when no card of the target has that order. |
| Pipelines.AutomationMoveCanCollide | src/modules/automations/actions/handlers/move-pipeline-stage.handler.ts:80-102 | Two cards numbered 0 in two columns: such a move makes the orders collide. |
| Pipelines.AutomationMoveSettles | src/modules/automations/actions/handlers/move-pipeline-stage.handler.ts:83-102 | Such a move gives an open card that is elsewhere the status of a closing stage and the time; it changes nothing else, and nothing at all for a card already there. |
| Pipelines.PipelinesService.MoveCard | src/modules/pipelines/pipelines.service.ts:382-468 | Accepts exactly a known card of the organization and a stage of its pipeline, otherwise says which is missing and changes nothing. A card put elsewhere is Won exactly on a won stage, Lost exactly on a lost one and Open exactly on a normal one, keeps a closing time, gets one when it is closed now and loses it when reopened; the others keep all but their number, and the lists change by one removal and one insertion. |
| Pipelines.PipelinesService.Renumber | src/modules/pipelines/pipelines.service.ts:414-453 | The bulk updates give every other card the order number the list argument needs, and change nothing else. |
| Pipelines.PipelinesService.RemoveCard | src/modules/pipelines/pipelines.service.ts:364-375 | Deletes exactly the card of the organization or reports it missing. |
| Pipelines.PipelinesService.NextIndexInStage | src/modules/sales-recovery/recovery-cards.repository.ts:91-99 | Max + 1 over the column, 0 when it is empty. |
| Pipelines.PipelinesService.CreateCard | src/modules/pipelines/pipelines.service.ts:223-321 | Creates at the end of the given stage or of the first stage; says which of a missing pipeline, another organization or any other bad request it was. |
| Pipelines.PipelinesService.UpsertStages | src/modules/pipelines/pipelines.service.ts:165-221 | Refuses exactly when a stage left out still has cards, an id is unknown, or the pipeline is; then nothing is written. Otherwise the stages of the pipeline that are left out are gone, and every stage named (of whatever pipeline, as no check is made) is as the last row about it says, numbered by its place unless it gives a number. |
| SalesRecovery.CooldownHolds | src/modules/sales-recovery/sales-recovery.service.ts:139-225 | Over every run in which each deletion, relinking or escalation outside the funnel leaves every message that still counts on some record of its contact, two recovery messages to one contact, over all its cards, are at least the cooldown apart. |
| SalesRecovery.SafeIffRemembered | src/modules/sales-recovery/sales-recovery.service.ts:139-225 | From any world whose messages are apart so far: they stay apart in every such run exactly when every message that still counts is on a record of its contact; otherwise waiting, creating a card and dispatching it breaks the cooldown. |
| SalesRecovery.StepKeepsCooldownIff | src/modules/sales-recovery/sales-recovery.service.ts:139-225 | A step keeps the cooldown safe exactly when it forgets no message that counts; only deletions, relinkings and escalations outside the funnel can. |
| SalesRecovery.ExpiredIsQuiet | src/modules/sales-recovery/sales-recovery.service.ts:210-225 | Deleting or relinking a card without a record, or with one that has run out, forgets nothing. |
| SalesRecovery.AttemptsHold | src/modules/sales-recovery/sales-recovery.service.ts:287-355 | A card that never comes back to Oportunidade is sent at most maxAttempts messages (fewer than maxAttempts + 1, as the setting may be fractional). |
| SalesRecovery.RunKeepsBoard | src/modules/sales-recovery/sales-recovery.service.ts:139-394 | The recovery machine keeps the board in order: distinct orders and known stages over every run without the two order-blind rule actions. |
| SalesRecovery.DeletionBreaksCooldown | src/modules/sales-recovery/sales-recovery.service.ts:210-225 | An input: on an empty board, creating, dispatching, deleting, creating and dispatching a card sends two messages at one moment. |
| SalesRecovery.StepKeepsBackedIff | src/modules/sales-recovery/sales-recovery.service.ts:287-355 | Where every record so far stands for a message sent then, a step keeps it so exactly when it is not an escalation that passes all guards and whose follow-up the channel declines, unless that card was sent a message at this very moment. |
| SalesRecovery.DeclineIsRecorded | src/modules/sales-recovery/sales-recovery.service.ts:287-355 | An input: with more than one attempt allowed, a fresh card whose follow-up the channel declines carries a record of a message that was not sent. |
| SalesOutcomes.EscalationLoses | src/modules/sales-recovery/sales-recovery.service.ts:297-303 | At the attempt limit an open funnel card is put behind the last card of the lost stage and nothing is sent. |
| SalesOutcomes.EscalationFollowsUp | src/modules/sales-recovery/sales-recovery.service.ts:305-355 | Below it the card goes behind the last card of the follow-up stage; before that, if its contact can be written to and is not cooling and sending did not throw, an attempt is counted, and a message is out if it was queued. |
| SalesOutcomes.EscalationSkips | src/modules/sales-recovery/sales-recovery.service.ts:287-295 | A card that is closed or not there is left alone. |
| SalesOutcomes.DispatchGives | src/modules/sales-recovery/sales-recovery.service.ts:139-208 | An opener goes out exactly for an open card in Oportunidade whose contact can be written to and is not cooling; taken by the channel it is attempt one and the card moves to ContactAttempt, and the conversation is linked either way. |
| SalesOutcomes.PatienceRunsOut | src/modules/sales-recovery/sales-recovery.service.ts:287-355 | A card escalated once a cooldown and never answered gets exactly as many follow-ups as bring its attempts to the limit, and with the next escalation is lost. |
| SalesRecovery.SalesRecoveryService.HasRecentOutreach | src/modules/sales-recovery/sales-recovery.service.ts:210-225 | True exactly when some card of the contact in the funnel records a message inside the cooldown window. |
| SalesRecovery.SalesRecoveryService.DispatchOutreach | src/modules/sales-recovery/sales-recovery.service.ts:139-208 | The opener does one step of the machine: it is sent only from Oportunidade, for an open card, outside the cooldown, and is recorded with the move. |
| SalesRecovery.SalesRecoveryService.EscalateStuckCard | src/modules/sales-recovery/sales-recovery.service.ts:287-355 | Escalation does one step of the machine for any card: lost at the attempt limit, otherwise a follow-up if the contact is cool, and the move to FollowUp either way, which fails for a card outside the funnel. |
| SalesRecovery.SalesRecoveryService.MoveToKey | src/modules/sales-recovery/sales-recovery.service.ts:383-394 | Moves the card to the end of the stage of that key. |
| OutboxProtocol.RunKeepsInv | src/modules/automations/outbox/outbox-poller.service.ts:72-177 | Over every interleaving of pollers, workers, crashes, lost answers and clock ticks: a PROCESSING row names its poller and its lease end, every batch a poller still holds is covered by its lease or the lease has ended, and every job belongs to a row. |
| OutboxProtocol.LeaseIsExclusive | src/modules/automations/outbox/outbox-poller.service.ts:142-177 | Two pollers never both hold an unexpired lease on one event. |
| OutboxProtocol.ClaimLeasesAMinute | src/modules/automations/outbox/outbox-poller.service.ts:142-177 | A claim takes at most fifty rows, each pending or with its lease over, leases each to the poller for 60 s, counts an attempt, and leaves every other row alone. |
| OutboxProtocol.OldestIsClaimed | src/modules/automations/outbox/outbox-poller.service.ts:142-165 | The oldest row that may be claimed is in every claim that does not find it locked. |
| OutboxProtocol.FewAreAllClaimed | src/modules/automations/outbox/outbox-poller.service.ts:142-165 | Up to fifty such rows are all claimed at once. |
| OutboxProtocol.ReleaseTouchesOwnLeaseOnly | src/modules/automations/outbox/outbox-poller.service.ts:112-135 | A release changes the row exactly when the row still names the releasing poller, and never another row. |
| OutboxProtocol.NothingIsLost | src/modules/automations/outbox/outbox-poller.service.ts:142-165 | An event that is not PROCESSED can be claimed again at the latest one lease from now; a PROCESSING one exactly after its lease. |
| OutboxProtocol.ProcessedMeansCleanExit | src/modules/automations/workers/automation-event.processor.ts:30-67 | Over every run a PROCESSED event has left an executor run cleanly or was drained by a disabled kill switch; when nothing drains, it ran cleanly. |
| OutboxProtocol.ProcessedIsLeftOnlyByRelease | src/modules/automations/outbox/outbox-poller.service.ts:112-135 | PROCESSED is not final: it is left by exactly one step, a release by the poller whose lease the row still shows. |
| OutboxProtocol.ProcessedCanBeUndone | src/modules/automations/outbox/outbox-poller.service.ts:112-135 | Such a release happens: the queue took the job, its answer was lost, a worker finished, and the poller put the event back. |
| OutboxProtocol.FinishedJobStrandsEvent | src/modules/automations/workers/automation-event.processor.ts:43-52 | An unprocessed event whose job has failed or completed stays unprocessed with that job throughout a run, however often it is claimed and enqueued again, exactly when the run neither evicts that job nor drains that event. |
| OutboxProtocol.StrandedNextIff | src/modules/automations/workers/automation-event.processor.ts:43-52 | The steps that end this are exactly the eviction of its job and a drain of the event itself. |
| OutboxProtocol.EvictedEventRuns | src/modules/automations/outbox/outbox-poller.service.ts:108-114 | From every state with such an event and a free poller, once the job is evicted and the lease has ended the event is claimed, executed to a clean end and processed. |
| OutboxProtocol.JobsDoFail | src/modules/automations/workers/automation-event.processor.ts:30-56 | Such states are reached: an event is emitted, claimed, enqueued and throws three times, and its job has failed. |
| OutboxProtocol.UndoneMarkStrands | src/modules/automations/outbox/outbox-poller.service.ts:112-135 | So is the other kind: the release that undoes a mark leaves an event that has run unprocessed under its completed job. |
| OutboxProtocol.ProcessedEventRunsTwice | src/modules/automations/outbox/outbox-poller.service.ts:108-135 | What it means that PROCESSED is not final: a run without a drain, a stall or a throwing execution in which one event is executed to a clean end twice, the second time after its completed job was evicted. |
| OutboxProtocol.ExecutionsAreBounded | src/modules/automations/outbox/outbox-poller.service.ts:108-114 | Over every run an event is started at most three times, three more for every eviction of its job and once more for every stall. |
| OutboxProtocol.StalledEventStillRuns | src/modules/automations/workers/automation-event.processor.ts:30-56 | However many workers die on it, an event that waits is processed by the first that ends cleanly: a death costs no attempt. |
| Outbox.Store.ClaimBatch | src/modules/automations/outbox/outbox-poller.service.ts:142-177 | The claim leases exactly the chosen rows to the poller and is one Claim step of the protocol. |
| Outbox.OutboxPoller.Tick | src/modules/automations/outbox/outbox-poller.service.ts:72-140 | After a tick every claimed event is drained, known to the queue, back in PENDING, or leased until its lease ends; other rows and known jobs are untouched, and a tick in flight does nothing. |
| Outbox.OutboxPoller.EnqueueAll | src/modules/automations/outbox/outbox-poller.service.ts:94-135 | All claimed events are settled one by one; if every queue call is accepted all of them are in the queue. |
| Outbox.AutomationEventProcessor.Process | src/modules/automations/workers/automation-event.processor.ts:30-67 | The row is marked after a clean executor exit or when automations are switched off, and left alone when the executor throws. |
| OutboxDedup.KeysAreReadable | src/modules/automations/outbox/outbox.service.ts:116-149 | Keys joined with colons are equal exactly when all their parts are, for parts without colons. |
| OutboxDedup.KeyTexts | src/modules/automations/outbox/outbox.service.ts:116-149 | The keys themselves, kind by kind. |
| OutboxDedup.SameKeyIff | src/modules/automations/outbox/outbox.service.ts:116-149 | Two events get the same key exactly when they are the same tag added to or removed from the same thing, or the same message; status and assignment events are never collapsed. |
| OutboxDedup.RunKeepsUnique | src/modules/automations/outbox/outbox.service.ts:71-94 | Over every run of writes no key occurs twice and stored rows stay as they are. |
| OutboxDedup.SecondTimeIsDropped | src/modules/automations/outbox/outbox.service.ts:116-131 | Once recorded, the same occurrence is dropped for good: a tag taken off and put on again fires its automations only the first time. |
| OutboxDedup.DroppedIffReported | src/modules/automations/outbox/outbox.service.ts:43-95 | After any run of complete calls with derived keys and colon-free ids, the next such call is dropped exactly when its occurrence is in the table, which is exactly when one of those calls reported it. |
| OutboxDedup.StoredRowsAreCalls | src/modules/automations/outbox/outbox.service.ts:63-82 | Over every run each stored row has the event, the depth and the key, given or derived, of a call of its own, in the order of the calls. |
| OutboxDedup.OutboxService.Enqueue | src/modules/automations/outbox/outbox.service.ts:43-95 | Fails without organization or contact; otherwise writes one row unless the key is taken, with the event and depth of the call and the key given with it or derived, and says which; nothing else changes. |
| AutomationExecutor.RunActions | src/modules/automations/engine/automation-executor.service.ts:172-280 | The log has one entry per action up to the first failure that does not let the run go on; the run is a success exactly when nothing fails and failed exactly when something stops it. |
| AutomationExecutor.StopsIff | src/modules/automations/engine/automation-executor.service.ts:194-264 | What fails and what stops a run: an unknown type or a handler that did not succeed, and the action, or else its type, not asking to go on. |
| AutomationExecutor.Execute | src/modules/automations/engine/automation-executor.service.ts:44-170 | At the depth limit nothing runs; below it, the run rows are those of the rules in order up to the first held lock, and the call throws exactly when there is one. |
| AutomationExecutor.RowsAreThoseReached | src/modules/automations/engine/automation-executor.service.ts:62-170 | For all rules, the run rows are exactly those of the rules that run or are skipped with no locked-out rule before them. |
| AutomationExecutor.RowsTellInOrder | src/modules/automations/engine/automation-executor.service.ts:62-170 | There is one row for each rule that is reached and neither passed over nor locked out, in the order of the rules, and it says the first thing that was not in order, or that all of visited list, schema, conditions, membership, rate and lock were. |
| AutomationExecutor.ThrowsAfterRunningIff | src/modules/automations/engine/automation-executor.service.ts:146-170 | Some rule has run exactly when one runs before every rule that finds the contact locked. The call throws although a rule has run, so that a retry runs it again, exactly when some rule runs with no locked-out rule before it and one after it. |
| AutomationExecutor.ThrowsAfterRunning | src/modules/automations/engine/automation-executor.service.ts:146-156 | An input: of two rules the second is locked out. |
| Cascade.NextKeepsInv | src/modules/automations/engine/automation-executor.service.ts:182-192 | There are exactly as many events one hop deeper as were emitted one hop above, events at the depth limit emit nothing, and an event emits at most its share for every execution it had. |
| Cascade.CascadeEnds | src/modules/automations/engine/automation-executor.service.ts:47-55 | From n root events, when one execution emits at most p others and an event is executed at most k times: with B = pk at most n(1 + B + B^2 + B^3 + B^4) events, emitted at depths 0 to 3 only, and no run is longer than 2 + k times that. |
| Cascade.QueueKeepsLimits | src/modules/automations/outbox/outbox-poller.service.ts:108-114 | In every run of the queue protocol an event whose job is evicted at most e times and stalls at most s times is started at most k = 3(1 + e) + s times. |
| CascadeRows.EmissionIsOneDeeper | src/modules/automations/engine/automation-executor.service.ts:182-192 | An emission that is written has its own event and the depth of the row whose execution made it plus one, and is one emission of the cascade. |
| CascadeRows.RunIsCascade | src/modules/automations/outbox/outbox.service.ts:63-82 | Every run of the outbox table, dropped emissions included, is a run of the cascade with the same depths. |
| CascadeRows.TableIsBounded | src/modules/automations/engine/automation-executor.service.ts:47-55 | So the table itself is bounded: from n rows at depth 0 never more than n(1 + B + .. + B^4) rows, none deeper than 4, and only rows up to depth 3 have children. |
| AutomationCounters.CountersAgree | src/modules/automations/engine/automation-executor.service.ts:326-385 | Over every interleaving of finished runs, late or lost pause writes, toggles and removal: runCount = successCount + failureCount, consecutiveFailures is the current row of failures, and an enabled rule with five in a row has a pause pending or lost one to a crash. |
| AutomationCounters.SplitIffNoSkips | src/modules/automations/engine/automation-executor.service.ts:326-385 | The split into successes and failures is exact just when no skipped run was counted. |
| AutomationCounters.OnlyFiveFailuresPause | src/modules/automations/engine/automation-executor.service.ts:340-385 | Over every run in which a rule is not switched off or removed, its author stays a member and it never fails five times in a row, it is not paused. |
| AutomationCounters.LostPauseIsRetried | src/modules/automations/engine/automation-executor.service.ts:340-385 | A rule whose pause write was lost is paused by its next failure. |
| AutomationCounters.AutomationRow.UpdateAutomationCounters | src/modules/automations/engine/automation-executor.service.ts:326-372 | Counts the run; at the fifth failure in a row, and then alone, switches the rule off and marks it paused: one or two steps of the system. |
| AutomationCounters.AutomationRow.Toggle | src/modules/automations/automations.service.ts:112-128 | Re-enabling clears the failure row and the pause; disabling only switches off; a removed rule is not found. |
| ContactLock.RunKeepsInv | src/modules/automations/redis/automation-redis.service.ts:64-92 | Over every interleaving of acquire, expiry, release and lost release: each running chain within its time to live owns the key of its contact. |
| ContactLock.OverlapMeansOutlived | src/modules/automations/redis/automation-redis.service.ts:64-75 | Two chains of one contact run at once only if the earlier had outlived its lock when the later began. |
| ContactLock.HolderIsAlone | src/modules/automations/redis/automation-redis.service.ts:64-75 | A chain within its time to live is alone on its contact and nobody else gets the lock. |
| ContactLock.ReleaseRemovesOwnKeyOnly | src/modules/automations/redis/automation-redis.service.ts:77-92 | A release deletes a key exactly when the chain still is within its time to live, and never the key of another chain. |
| ContactLock.OutlivedChainsDoOverlap | src/modules/automations/redis/automation-redis.service.ts:29-32 | After 30 s a second chain does start beside the first, and the late release of the first leaves its key. |
| RateLimit.CallKeepsWindowsIff | src/modules/automations/redis/automation-redis.service.ts:94-123 | From any state a call leaves every 60 s window it joins within its limit, whatever the limit is, exactly when its pipeline counts at least as many calls as any window it joins has admitted. |
| RateLimit.WindowNeverExceeds | src/modules/automations/redis/automation-redis.service.ts:94-123 | However calls, roll-backs and key expiry interleave, the calls admitted in any 60 s window never exceed perMinute, if every pipeline meets that condition. |
| RateLimit.SeeingRunsAreCovered | src/modules/automations/redis/automation-redis.service.ts:104-115 | It does whenever the sorted set still holds the admitted calls that its reading does not trim, in whatever order readings arrive. |
| RateLimit.PromptWindowNeverExceeds | src/modules/automations/redis/automation-redis.service.ts:94-123 | So the limit holds in particular if pipelines run in the order of their clock readings and less than a window after them. |
| RateLimit.OvertakenReadingExceeds | src/modules/automations/redis/automation-redis.service.ts:104-115 | An input against the order: with a limit of two, a reading overtaken by a later one is admitted as the third in its window. |
| RateLimit.LateReadingExceeds | src/modules/automations/redis/automation-redis.service.ts:104-115 | An input against lateness, with readings in order: with a limit of one, a pipeline two windows late finds its set expired and is admitted as the second in its window. |
| RateLimit.RejectedIff | src/modules/automations/redis/automation-redis.service.ts:104-122 | A call is rejected exactly when perMinute other calls are in the window, counting those not yet rolled back. |
| RateLimit.CallLeaves | src/modules/automations/redis/automation-redis.service.ts:104-122 | A call leaves in the set exactly the members less than a minute old and itself, which a rejected call then takes out again. |
| AutomationRedis.AutomationRedisService.AcquireContactLock | src/modules/automations/redis/automation-redis.service.ts:64-75 | SET NX PX as one step of the lock system; none when a live key is there. |
| AutomationRedis.AutomationRedisService.ReleaseContactLock | src/modules/automations/redis/automation-redis.service.ts:77-92 | The compare-and-delete script as one step; a lost answer ends the chain and leaves the key. |
| AutomationRedis.SlidingWindow.TryConsumeRateLimit | src/modules/automations/redis/automation-redis.service.ts:94-123 | Admits exactly when fewer than perMinute members are less than a minute old; leaves those and, if admitted, the own one; one or two steps of the limiter. Without conversation, limit or Redis the call passes uncounted. |
| Conditions.NegationIsComplementIff | src/modules/automations/engine/conditions-evaluator.ts:104-194 | For well-formed conditions, swapping AND with OR and every operator with its twin gives exactly the other events, if and only if there is a group. |
| Conditions.TwinNegates | src/modules/automations/engine/conditions-evaluator.ts:160-194 | Every operator is the negation of its twin on all values, also missing ones and ones of the wrong type. |
| ConditionLaws.EqualsMatches | src/modules/automations/engine/conditions-evaluator.ts:160-169 | A single rule with equals matches exactly the events whose field reads the value, not_equals exactly the others. |
| ConditionLaws.InMatches | src/modules/automations/engine/conditions-evaluator.ts:181-188 | in matches exactly when equals does for some value of the list, not_in exactly when for none. |
| ConditionLaws.ContainsMatches | src/modules/automations/engine/conditions-evaluator.ts:170-180 | contains matches exactly when both are text and, in lower case, the one has the other somewhere in it; not_contains exactly otherwise. |
| ConditionLaws.ContainsGrows | src/modules/automations/engine/conditions-evaluator.ts:170-175 | It matches the text itself and goes on matching when the text of the event grows. |
| ConditionLaws.IsSetMatches | src/modules/automations/engine/conditions-evaluator.ts:189-192 | is_set fails exactly on what is missing, null or empty; is_not_set holds exactly there. |
| ConditionLaws.UnknownFieldFails | src/modules/automations/engine/conditions-evaluator.ts:143-157 | A field the trigger does not have matches nothing. |
| ConditionLaws.UnknownOperatorFails | src/modules/automations/engine/conditions-evaluator.ts:160-194 | Nor does an operator that is none of the eight. |
| ConditionLaws.OneMoreGroup | src/modules/automations/engine/conditions-evaluator.ts:104-127 | One more group: an AND root also asks it, an OR root is also content with it; with one group they are the same. |
| ConditionLaws.OneMoreRule | src/modules/automations/engine/conditions-evaluator.ts:129-141 | One more rule in a group, likewise. |
| ConditionLaws.NothingAskedMatches | src/modules/automations/engine/conditions-evaluator.ts:104-141 | No groups, no rules in a group, or no root at all: every event matches. |
| AutomationRules.ValidateConditions | src/modules/automations/automations.validator.ts:32-55 | Accepts exactly no conditions or a well-formed root for the trigger, and gives back what evaluation will read. |
| AutomationRules.ValidateGroup | src/modules/automations/automations.validator.ts:70-122 | Refuses nothing else than a malformed group, an empty one, or one with a bad rule. |
| AutomationRules.ValidateActions | src/modules/automations/automations.validator.ts:57-68 | Accepts exactly lists of 1 to 20 actions, each an object of a registered type with accepted parameters, and gives back such actions. |
| RuleLaws.SingleIsAcceptedIff | src/modules/automations/automations.validator.ts:70-122 | Conditions of a single rule are accepted exactly with a field of the trigger and an operator with the value it needs: none, any, or a list. |
| RuleLaws.GroupsAreAcceptedOneByOne | src/modules/automations/automations.validator.ts:32-55 | Groups are accepted together exactly when each is; a root without groups is accepted. |
| RuleLaws.RulesAreAcceptedOneByOne | src/modules/automations/automations.validator.ts:70-122 | Rules of a group likewise; a group without rules is refused. |
| AutomationRules.RunKeepsInv | src/modules/automations/automations.service.ts:46-136 | After every run of create, update, toggle and remove each stored rule passes the validator for the trigger it has now, and at most 100 rules are live. |
| AutomationRules.StoredRulesAreKnown | src/modules/automations/engine/conditions-evaluator.ts:143-157 | So evaluating a stored rule never meets an unknown field or operator. |
| AutomationRules.StoredRulesNegate | src/modules/automations/engine/conditions-evaluator.ts:104-194 | The negation law holds for every stored rule with a group. |
| AutomationRules.AutomationsService.Create | src/modules/automations/automations.service.ts:46-79 | Accepts exactly below 100 live rules, with conditions in order and 1 to 20 accepted actions; stores the trigger, the conditions as given (nothing becomes an empty object), each action with its type, parameters and whether to go on, and the switch as given; otherwise writes nothing. |
| AutomationRules.AutomationsService.Update | src/modules/automations/automations.service.ts:81-128 | Takes over every part that is given and keeps every other; a new trigger or new conditions are validated together; nothing is written when a part is refused. |
| WebhookThrottle.WebhookThrottleGuard.CanActivate | src/modules/channel-hub/webhook-throttle.guard.ts:24-51 | Decides every request as a guard that keeps the whole history and counts the hits of the last ten seconds, whatever was trimmed or collected before. |
| WebhookThrottle.WebhookThrottleGuard.Collect | src/modules/channel-hub/webhook-throttle.guard.ts:38-45 | Garbage collection loses nothing that can still be asked. |
| WebhookThrottle.WindowAdmitsAtMost600 | src/modules/channel-hub/webhook-throttle.guard.ts:17-51 | In any ten-second window at most 600 requests of a key are admitted. |
| WebhookThrottle.RefusedIff | src/modules/channel-hub/webhook-throttle.guard.ts:17-51 | Exactly the requests that find 600 or more of their key in the ten seconds before them are refused. |
| Router.EveryoneGetsTheirShare | src/modules/routing/router.service.ts:69-72 | Over any interleaving of assignments in all departments, as long as a department keeps the number of its agents, each position among its n gets floor(m/n) or ceil(m/n) of its m turns. |
| Router.AnswersAreShared | src/modules/routing/router.service.ts:20-84 | Over any run of requests in all departments, as long as a department keeps its agents, each of its n candidates is the answer to floor(m/n) or ceil(m/n) of its m assignments. |
| Router.CandidatesAre | src/modules/routing/router.service.ts:37-65 | Candidates are exactly the agents online if there are any, and otherwise all, in the order of the list. |
| Router.OnlyOwnRequestsCount | src/modules/routing/router.service.ts:69-72 | What the agents of a department receive depends on its own cursor and requests alone, whatever other departments do in between. |
| Router.KeysAreSeparate | src/modules/routing/router.service.ts:69-69 | Different organizations and departments have different cursor keys when organization ids have no colon. |
| Router.RouterService.AssignConversation | src/modules/routing/router.service.ts:20-84 | Answers exactly for a known conversation with a department and an agent, otherwise says which is missing; the answer is the user of an agent of the department, online if any is, and the cursor moves on by one. |
| AgentHierarchy.RunHasNoShortCycle | src/modules/ai-agents/agents/agents.service.ts:96-188 | Over every run of create, update and soft-delete no cycle of 51 live agents or fewer exists. |
| AgentHierarchy.UpdateKeepsForestIff | src/modules/ai-agents/agents/agents.service.ts:101-118 | An update keeps a forest a forest exactly when it is refused or the new parent is not more than fifty steps below the agent. |
| AgentHierarchy.ShallowRunStaysForest | src/modules/ai-agents/agents/agents.service.ts:159-179 | As long as no ancestor chain is longer than fifty, the next operation leaves a forest. |
| AgentHierarchy.CycleCanBeMade | src/modules/ai-agents/agents/agents.service.ts:159-179 | Beyond that a cycle can be made: 52 agents in a row, the first then reports to the last. |
| AgentHierarchy.NewCycleNeedsPath | src/modules/ai-agents/agents/agents.service.ts:101-118 | Every new cycle goes through the new edge: the new parent was already below the agent. |
| AgentHierarchy.AgentsService.IsDescendantOf | src/modules/ai-agents/agents/agents.service.ts:159-179 | The loop answers true exactly when the ancestor is among the first fifty above the candidate, also when the chain runs in a circle. |
| AgentHierarchy.AgentsService.Update | src/modules/ai-agents/agents/agents.service.ts:96-138 | Refuses an unknown agent, itself, an unknown parent and a parent that has the agent among its first fifty ancestors, in that order; otherwise writes exactly the parent given, or none. |
| AgentRunner.AtMostOneReply | src/modules/ai-agents/runner/agent-runner.service.ts:283-440 | However model and tools behave, a run delivers at most one reply, counting calls of one turn, later turns, the nudge and the text fallback, if a delivered reply reports itself: it returns, ok, without a status that is retried, with a final action. |
| AgentRunner.DishonestReplyRepeats | src/modules/ai-agents/runner/agent-runner.service.ts:726-748 | The contract cannot be weakened: any other outcome of a delivering reply lets some model reach the customer twice. |
| AgentRunner.BatchDeliversOnce | src/modules/ai-agents/runner/agent-runner.service.ts:645-686 | At any point of one turn at most one reply has been delivered, none if one had succeeded before, and then the turn knows: a success is on record and an action is reported. |
| AgentAccount.EveryRunIsAccounted | src/modules/ai-agents/runner/agent-runner.service.ts:283-440 | Over every run, reading its transcript from the end: a result carries nothing exactly when it is of a reply after an earlier successful one, and otherwise the outcome of the last of its call's executions, which were two exactly if the first failed temporarily; the final action is the first one reported; executions are what the tools answered, in order, and serve the model call they name; the assistant's turns are the calls the model asked for; a nudge comes only after a look-up and before any reply. |
| AgentAccount.ResultsAreReal | src/modules/ai-agents/runner/agent-runner.service.ts:411-428 | So each result in the transcript is empty exactly after an earlier reply's success, and otherwise what an execution of its tool gave. |
| AgentAccount.AfterTools | src/modules/ai-agents/runner/agent-runner.service.ts:432-440 | After tools a run ends exactly when its action is a transfer to a human or closing; a failed model call crashes it. |
| AgentAccount.AfterFinalAnswer | src/modules/ai-agents/runner/agent-runner.service.ts:305-393 | A final answer of the tool model goes to the synthesis model if that is another; any other is sent if it has four characters and no action came before, and ends the run unless the customer was looked up, not replied to and not nudged yet. |
| AgentTranscript.EveryRunIsOrderly | src/modules/ai-agents/runner/agent-runner.service.ts:283-440 | Every run makes at most eight model calls; its transcript has exactly one result per call, same ids in the same order, blocked ones included, and at most one nudge; usage is the sum over its calls; the synthesis model is asked only to redo a final answer, and only its text is sent as a fallback. |
| AgentTranscript.UsageIsSum | src/modules/ai-agents/runner/agent-runner.service.ts:299-303 | Each part of the usage is the sum of that part over the answered calls. |
| AgentTranscript.FirstActionWins | src/modules/ai-agents/runner/agent-runner.service.ts:411-413 | The first final action reported is the one of the run. |
| AgentTranscript.NothingAfterHandOff | src/modules/ai-agents/runner/agent-runner.service.ts:424-431 | After a transfer or a closing nothing more is asked or executed. |
| AgentTranscript.NoSilenceWithoutNudge | src/modules/ai-agents/runner/agent-runner.service.ts:305-393 | A run that ends its turn without any action has tried to send the text it ended with, and has been nudged if it had looked up an offer and never called the reply tool. |
| AgentTranscript.FinalTextIsSentIff | src/modules/ai-agents/runner/agent-runner.service.ts:283-361 | Of all runs that complete without an action on a final text of four characters or more, exactly those have sent that text as their last execution whose last call was not the eighth one, made to the tool model while the synthesis model is another. |
| AgentTranscript.OneModelLosesNothing | src/modules/ai-agents/runner/agent-runner.service.ts:283-361 | With one model for both phases a final text is never lost. |
| AgentTranscript.AnswerCanBeLost | src/modules/ai-agents/runner/agent-runner.service.ts:283-313 | A run that loses its text exists: seven turns of tools, then a text, and no reply is ever tried. |
| AgentTranscript.ChainIsBounded | src/modules/ai-agents/runner/agent-runner.service.ts:492-517 | One incoming message causes at most (3+1)*8 model calls over all chained runs. |
| AgentTranscript.ChainFollows | src/modules/ai-agents/runner/agent-runner.service.ts:492-517 | Each run of the chain is that of its agent, and another follows exactly after a completed run that delegated, to an active agent, within three hops. |
| AgentTranscript.ChainRepliesAreBounded | src/modules/ai-agents/runner/agent-runner.service.ts:492-517 | And at most one reply from each agent of the chain. |
| AgentTranscript.ExecuteToolCalls | src/modules/ai-agents/runner/agent-runner.service.ts:620-793 | The loop runs the calls in order and answers a second reply without running it, as the batch the lemmas are about. |
| AgentTranscript.ExecuteWithRetry | src/modules/ai-agents/runner/agent-runner.service.ts:697-748 | At most two executions, the second only after a failure that looks temporary; an action reported before a throw is kept. |
| AgentTranscript.RunAgent | src/modules/ai-agents/runner/agent-runner.service.ts:283-440 | What the loop ends with is the run the lemmas are about: well formed, its usage the sum over its calls, its transcript, executions and action accounting for each other, and its turns those the model asked for. |
| Chunker.StitchesBackIff | src/modules/ai-agents/rag/chunker.ts:33-101 | The first chunk followed by every later one without its overlap is the document, if and only if every paragraph with the overlap and blank line before it stays within the maximum; otherwise characters are missing. |
| Chunker.LongParagraphIsCut | src/modules/ai-agents/rag/chunker.ts:64-79 | An input: a paragraph of the maximum length behind one of a hundred characters is cut, and the stitched text is shorter than the document. |
| Chunker.ShortParagraphsFit | src/modules/ai-agents/rag/chunker.ts:33-101 | In particular when every paragraph is at most 102 below the maximum. |
| Chunker.ChunkSizes | src/modules/ai-agents/rag/chunker.ts:50-101 | No chunk is above the maximum, nor above 1000 characters unless one long paragraph makes it 102 more than that paragraph. |
| Chunker.ChunksOverlap | src/modules/ai-agents/rag/chunker.ts:77-79 | Every later chunk starts with the last hundred characters of the one before, when nothing was cut. |
| Chunker.ChunksAreFull | src/modules/ai-agents/rag/chunker.ts:58-79 | A chunk is closed only when the paragraph the next one begins with would have taken it past a thousand characters, when nothing was cut. |
| Chunker.ChunkText | src/modules/ai-agents/rag/chunker.ts:33-101 | Fails exactly when a paragraph is too long by itself, with the length of the first such; otherwise the chunks are those texts, numbered from 0. |
| VectorStore.BuildWhere | src/modules/ai-agents/rag/vector-store.service.ts:125-160 | Under three-valued logic the clause with its numbered placeholders is true of exactly the rows in scope. |
| VectorStore.InScopeMeans | src/modules/ai-agents/rag/vector-store.service.ts:125-160 | What is in scope: rows of the organization, and of the agent, contact, conversation and owner type wherever one is named, with rows of no agent where asked for. |
| VectorStore.LimitThenFilter | src/modules/ai-agents/rag/vector-store.service.ts:121-187 | Cutting to any limit of at least k before looking at scores loses none of the first k. |
| VectorStore.Search | src/modules/ai-agents/rag/vector-store.service.ts:111-205 | Fails exactly without an organization; otherwise returns exactly the k best of all rows in scope that reach the score. |
| Retrieval.ParseOrder | src/modules/ai-agents/rag/reranker.service.ts:113-134 | Accepts exactly the arrays that are permutations of the indices. |
| Retrieval.AcceptableIff | src/modules/ai-agents/rag/reranker.service.ts:113-134 | An answer is acceptable exactly when it has one value per candidate and every index occurs. |
| Retrieval.PermutedKeepsItems | src/modules/ai-agents/rag/reranker.service.ts:78-78 | Reordering by an accepted order neither drops nor repeats a result. |
| Retrieval.Rerank | src/modules/ai-agents/rag/reranker.service.ts:33-89 | Follows an acceptable answer and otherwise leaves the candidates as they are. |
| Retrieval.Retrieve | src/modules/ai-agents/rag/retrieval.service.ts:27-48 | Up to the order, exactly the k best rows in scope that reach the score; nearest first when not reranked. |
| PromptBuilder.TurnsSayTheSame | src/modules/ai-agents/runner/prompt-builder.service.ts:481-493 | Merging loses, repeats and reorders nothing: flattened, the turns are the extracted parts in order, each with its role. |
| PromptBuilder.OneMoreMessage | src/modules/ai-agents/runner/prompt-builder.service.ts:481-493 | One more message is heard after all others, as its author's. |
| PromptBuilder.PartsSay | src/modules/ai-agents/runner/prompt-builder.service.ts:547-580 | What one message says: a shown image or the stand-in for it, only when the customer sent it, then its text. |
| PromptBuilder.LinesKeepTexts | src/modules/ai-agents/runner/prompt-builder.service.ts:495-509 | A text-only turn reads, line by line, as its texts one after the other; no line is lost or run together. |
| PromptBuilder.ClosingSays | src/modules/ai-agents/runner/prompt-builder.service.ts:515-538 | The closing turn is the user's and carries the trigger or, if that says nothing, a word to go on. |
| PromptBuilder.ConversationIsOrderly | src/modules/ai-agents/runner/prompt-builder.service.ts:481-538 | For any history, user and assistant turns alternate strictly and end with the user, with at most one closing turn added. |
| PromptBuilder.SilentHistory | src/modules/ai-agents/runner/prompt-builder.service.ts:511-538 | A history that says nothing gives the closing turn alone: the trigger or "[continue]". |
| PromptBuilder.BuildMessages | src/modules/ai-agents/runner/prompt-builder.service.ts:443-541 | The loops give one system message and then that conversation. |

## Left out

- Transport and storage: Prisma, Redis, BullMQ and HTTP are their effects on maps and sequences; realtime emits, logging and notifications are not modelled, and database writes outside the modelled rows are assumed to succeed.
- Concurrent requests inside one operation: each is one atomic step. The source reads before it writes, outside a transaction, in `moveCard` (the card), `createCard` (the highest order), `AgentsService.update` (the cycle check), `AutomationsService.update` (the stored conditions) and `toggle` or `create` (the row and the limit), so two requests at once can break what one keeps.
- `updateCard`, `createPipeline`, `updatePipeline`, `removePipeline` and the card lists of a conversation: they do not touch order numbers, or only add easy members. A card's title is reduced to whether one was given.
- SalesRecovery.CooldownHolds: assumes that sending and recording are one step; for deletions, relinkings and escalations outside the funnel it has the condition that `SalesRecovery.StepKeepsCooldownIff` proves exact.
- SalesRecovery.AttemptsHold: is for runs without card deletions, as the model may give the id of a deleted card out again.
- SalesRecovery.RunKeepsBoard: leaves out the two rule actions that ignore orders, whose exact condition `Pipelines` gives, and restaging by `upsertStages`, which may delete stages the recovery funnel uses.
- `createOpportunity`, `closeWon`, `closeRefunded`, `onInboundReply` and the metadata merge of the recovery service, the stage cache of the cards repository and its finders: the moves they make are the modelled ones, the rest is text and lookup.
- The outbox's `lastError` column, the poller's timer and shutdown, and a worker that stalls without dying: a job taken over by another worker means the first one is gone.
- OutboxProtocol.LeaseIsExclusive: assumes that no process's clock runs ahead of the shared one (a claim's reading is at most the time it runs); lease ends come from each process's own clock.
- Cascade.CascadeEnds: takes emissions per execution and executions per event as bounded. The queue alone does not bound executions: three attempts, and three more whenever the job is evicted and the event claimed again, and one for every stall (`Cascade.QueueKeepsLimits`). The visited list is empty again after every hop, so only depth bounds the cascade. `CascadeRows.TableIsBounded` bounds the emissions that are written; those the key drops leave no row.
- RateLimit.WindowNeverExceeds: is under the condition that `RateLimit.CallKeepsWindowsIff` proves exact for each call, which several processes do not ensure; neither order nor promptness of the readings is needed for it. Member names are distinct; calls that pass because Redis does not answer are not counted.
- ContactLock.OverlapMeansOutlived: assumes that lock tokens are never repeated.
- WebhookThrottle.WebhookThrottleGuard.CanActivate: assumes a monotone clock; how the key is read from the request's headers is not modelled.
- Field names of a condition that are members of every JavaScript object, such as `toString`: the validator accepts them because it tests with `in`; the model knows the listed fields only. A condition part that is null where an object is expected throws in the evaluator; stored rules have none.
- Case folding of `contains` is a function parameter; numbers in JSON are reals.
- Organizations: agents, rules and cards of one organization are modelled where every query filters by it. Fields of an agent other than its parent and deletion, and its channel links, are not modelled.
- The prompt templates, text extraction, turn-marker guards and the resolution of tools and skills: extracted and cleaned text and the two model names are inputs. Arguments of tool calls are not modelled, as tools may answer anything.
- AgentRunner.AtMostOneReply: counts what one run delivers through `replyToConversation`; a `transitionMessage` that delegateToAgent sends to the customer is not counted. Writes of run and tool-call rows are assumed to succeed.
- Splitting a text into trimmed paragraphs: the chunker takes the paragraphs. Token estimates are not modelled.
- The text of the SQL query and the index behind it: filters are a syntax tree, ORDER BY is exact, and distances are numbers, never NaN. `upsert`, `delete`, `retrieveMulti` and embeddings are left out.
- Reading the JSON array out of the ranking model's prose: the values found are the input.
- The conversation update and state change after an assignment, and the actor id.
- Controllers, authentication, dashboards and plain CRUD: they would only add easy members.
