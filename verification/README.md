# Verified model of the sales conversation runtime

A Dafny model of the parts of the repository where correctness depends on more than one line: how a chat turn is
committed exactly once, how a call's events become spoken turns, how an untrusted proposal is kept from moving a
conversation, and the stateful data structures underneath. Every claim is a lemma or a method contract over all inputs,
all runs or all interleavings; `dafny verify dfyconfig.toml` checks the project.

## How it is laid out

| Part | Files |
|---|---|
| Runs of a deterministic machine, shared by all that follows | `Runs.dfy`, `Wrappers.dfy`, `Ordering.dfy` |
| Call events, turns and deliveries | `RuntimeContracts.dfy`, `TurnCoordinator.dfy`, `CoordinatorProofs.dfy`, `CoordinatorEvents.dfy` |
| The persisted turn, its snapshot and its recovery | `SessionStore.dfy`, `Recovery.dfy`, `TurnProtocol.dfy`, `TurnProtocolProofs.dfy` |
| The browser, the network, and both ends together | `ChatClient.dfy`, `EndToEnd.dfy` |
| The runtime as an object, rollback and the reasoning budget | `Budget.dfy`, `PersistentRuntime.dfy`, `BudgetProofs.dfy`, `RuntimeRefinement.dfy`, `OverlappingTurns.dfy`, `PipelineBudget.dfy` |
| The decision pipeline | `StateMachine.dfy`, `Catalog.dfy`, `Contact.dfy`, `Engine.dfy`, `EngineProofs.dfy`, `EngineOutcomes.dfy`, `ContactRuns.dfy`, `Policies.dfy`, `Orchestrator.dfy`, `PipelineOutcomes.dfy` |
| Data structures with exact specifications | `KnowledgeRegistry.dfy`, `RegistryProofs.dfy`, `BusinessMemory.dfy`, `EvidenceSelection.dfy`, `BusinessConversation.dfy`, `GroqSchema.dfy` |

Objects of the source that update their fields are classes here. Each of their methods is proved equal to a function of
the old state, and the theorems are about those functions. Components whose behaviour does not matter to a claim are
parameters: the turn processor, the action validator, the fallback engine, the service selector and the reasoning
provider may do anything at all, and phone and e-mail canonicalisation are arbitrary functions.

The promises come in two halves: what never happens, over all runs (the files called Proofs), and what does happen, told
in the fields of state and input and not through the functions that compute it (`CoordinatorEvents`, `EngineOutcomes`,
`PipelineOutcomes`, and the lemmas called Exactly). Validity of JSON, which the schema theorems are about, is defined in
`GroqSchema.dfy` itself; `GroqSchema.BareSchemas` and `GroqSchema.BareMembers` say what it comes to for single keywords.

The turn protocol is a step system. Each step of a request handler, of a finish call, of a crash or of a restart is one
action, and a theorem holds for every sequence of actions. `ExactlyOnce` rests on the order in which a handler reads:
the turn count first, then the idempotency row, then the session row.

## What the proofs found

Places where the code does less than its surroundings suggest. Each is stated as an exact condition, or with the run
that shows it.

- A processor that returns an empty text for its turn leaves an unspoken active delivery and loses the cancellation that
  preceded it, because the exception is raised after the state has been replaced (`CoordinatorProofs.CancellationCanBeLost`).
  Delivery is disciplined at every point of a run exactly when no call was answered like that
  (`CoordinatorProofs.DisciplineExactly`).
- `finish_session` checks the revision and writes in two statements outside a transaction. Once its check
  has passed it reports the session as ended; the session stays ACTIVE exactly when a turn that is not terminal slipped in
  between
  (`TurnProtocolProofs.FinishLostExactly`), which can happen in the first turn of a session
  (`TurnProtocolProofs.FinishCanBeLost`).
- Reasoning calls are given back when a commit fails but not when the processor or the export fails, so the counter in
  memory and the persisted one agree exactly when no counted turn has failed that way since the last commit or restart
  (`BudgetProofs.CountersAgreeExactly`). Because a failed commit refunds its call, the counter does not bound the
  calls made to the provider. Of the calls that came back only the turn limit does, and it is reached
  (`BudgetProofs.RefundsReachTurnLimit`); calls that end in an exception other than a reasoning error move neither
  counter and are not bounded at all (`BudgetProofs.EscapedCallsUnbounded`).
- The rollback writes back the counter as the turn found it. With turns that overlap on one processor this can undo what
  another turn committed (`OverlappingTurns.OverlapCanFallBehind`), exactly where the value written back is below the
  persisted one or a commit persists more than is left (`OverlappingTurns.NeverBehindExactly`); and turns that all look
  at the counter before any of them is counted pass every limit (`OverlappingTurns.OverlapCanExceed`), by less than the
  number of provider calls under way at once (`OverlappingTurns.ProviderCallsBounded`).
- The development factory builds a restored processor without the persisted counter (app/main.py:185-195), so a restart
  gives the whole budget back (`BudgetProofs.RestartWithoutCounter`).
- A POLICY_BOUNDED discount never executes when the policy has a discount rule, and executes when it has none
  (`Orchestrator.BoundedCommerceExactly`, `Orchestrator.DiscountWithoutRuleExecutes`).
- Clarification retries are bounded on one channel, and beyond that only by the number of channel changes: each change
  starts the count again (`Contact.RetriesOverRuns`, `Contact.ChangesBoundRetries`), so turns that keep changing the
  channel are never exhausted (`Contact.AlternatingChannelsNeverExhaust`).
- A business memory node keeps its creation turn when its value changes and takes a new one when it does not
  (`BusinessMemory.ProjectionExactly`).
- A problem detail of 161 to 200 characters is accepted as an observation and makes a later update raise
  (`BusinessConversation.UpdateCanRaiseLater`), and reconciliation keeps 24 problems where a snapshot holds 16, so an update
  of a snapshot with several problems of a kind can raise too (`BusinessConversation.UpdateCanOverflow`). These are all
  the ways it can (`BusinessConversation.UpdateRaisesExactly`), and the second never happens to a call that began with
  nothing (`BusinessConversation.StreamRaisesExactly`).
- Collapsing an integer/number union can make a schema accept values it refused (`GroqSchema.CollapseCanAcceptMore`).
  It does so exactly where the node refused 0.5, or 0, although its type lets the number through
  (`GroqSchema.NumbersSettledExactly`); the unions that are generated for `int | float` are rewritten exactly
  (`GroqSchema.UntypedIsSettled`). Accepting 0.5 alone is not the condition: a node of type `integer` with a kept branch
  refuses 0.5 before and after.
- A union collapsed to a number can make the union around it ambiguous, which is not looked at again
  (`GroqSchema.OverlapCanRemain`), and an object beside a union of which a branch remains is not closed
  (`GroqSchema.ObjectCanStaySilent`), though the source says that every object schema is.

## Model

| member | source | states |
|---|---|---|
| TurnCoordination.TurnCoordinator.HandleEvent | app/runtime/turn_coordinator.py:44-75 | one event: foreign, duplicate, late and stale events are sorted out in that order, the rest is recorded and dispatched; new state and result are those of the specification |
| TurnCoordination.TurnCoordinator.OnSpeechStarted | app/runtime/turn_coordinator.py:77-104 | barge-in interrupts a live delivery, cancels it and keeps the interruption context |
| TurnCoordination.TurnCoordinator.OnFinalUtterance | app/runtime/turn_coordinator.py:106-195 | a final utterance: duplicate turns, cancellation of a live delivery, one processor call, every way the call can end |
| TurnCoordination.TurnCoordinator.OnDeliveryUpdate | app/runtime/turn_coordinator.py:197-223 | delivery reports apply to the live delivery of the current turn only |
| TurnCoordination.TurnCoordinator.OnDisconnect | app/runtime/turn_coordinator.py:225-242 | a disconnect cancels what is neither completed nor cancelled, an interrupted delivery included |
| CoordinatorProofs.ProcessorCalledOncePerTurn | app/runtime/turn_coordinator.py:106-155 | over every event sequence and every processor, each turn id reaches the processor at most once, and exactly the processed ids do |
| CoordinatorProofs.ProcessorAskedInOrder | app/runtime/turn_coordinator.py:137-155 | the processor is asked about final utterances that were received, as received, in strictly increasing sequence order |
| CoordinatorProofs.DeliveryDiscipline | app/runtime/turn_coordinator.py:77-242 | for a processor that answered no call of the run with an empty text: a turn is spoken at most once, each cancellation names the latest spoken turn, nothing is spoken over a delivery neither cancelled nor ended |
| CoordinatorProofs.DisciplineExactly | app/runtime/turn_coordinator.py:171-195 | hanging up at any point leaves such a trace if and only if the processor answered no call of the run, under its own turn id, with an empty text |
| CoordinatorProofs.CancellationCanBeLost | app/runtime/turn_coordinator.py:171-195 | a processor and three events: the cancellation of the spoken turn is never sent, and a turn never spoken is cancelled |
| CoordinatorProofs.WordyProcessorDisciplined | app/runtime/turn_coordinator.py:77-242 | a processor that never answers with an empty text is disciplined over every event sequence |
| CoordinatorProofs.SilentAfterDisconnect | app/runtime/turn_coordinator.py:52-53 | after a disconnect nothing is emitted and no state changes, over every further sequence |
| CoordinatorProofs.AcceptedInOrder | app/runtime/turn_coordinator.py:46-58 | the accepted events are of this call, with fresh ids, strictly increasing numbers, and nothing after a disconnect |
| CoordinatorProofs.CoordinatorRefinement | app/runtime/turn_coordinator.py:44-75 | running all events, running the accepted ones, and running an ideal coordinator without checks give the same calls, instructions and state, apart from remembered ids |
| CoordinatorProofs.InterruptionAccounting | app/runtime/turn_coordinator.py:77-271 | in every reachable state a pending interruption exists exactly while the active delivery is cut short, and describes that delivery |
| CoordinatorProofs.InterruptionHandedOn | app/runtime/turn_coordinator.py:127-182 | the next turn is told of the interruption as it was; success clears it, failure keeps it |
| CoordinatorProofs.InterruptionSurvives | app/runtime/turn_coordinator.py:150-169 | a pending interruption survives any run of failed turns and other events |
| CoordinatorProofs.ContextsDescribeEvents | app/runtime/turn_coordinator.py:127-141 | a context that arises with an event carries that event's category, overlap and barge-in, with background speech uncertain |
| CoordinatorProofs.DeliveriesComeFromProcessor | app/runtime/turn_coordinator.py:171-222 | the active delivery is the processor's output for its turn, and its progress agrees with its status |
| CoordinatorProofs.HandleDelivers | app/runtime/turn_coordinator.py:183-189 | what is spoken is the text the processor returned for that turn |
| CoordinatorEvents.BargeIn | app/runtime/turn_coordinator.py:77-104 | a barge-in on a live delivery cancels it, cuts it short, partial exactly when it was being delivered, and leaves a pending interruption that tells what was left unsaid; on anything else it does nothing |
| CoordinatorEvents.ReportsMove | app/runtime/turn_coordinator.py:197-223 | a report on the live delivery of the current turn is taken over with its progress, an interruption also as pending; on anything else it is stale |
| CoordinatorEvents.HangUpEnds | app/runtime/turn_coordinator.py:225-242 | a disconnect ends the call, forgets a pending interruption and cancels what is neither completed nor cancelled |
| CoordinatorEvents.StaleEventsPass | app/runtime/turn_coordinator.py:44-60 | what is not fresh is answered with the first reason that applies, moves nothing, and is remembered only if it was merely late |
| CoordinatorEvents.OthersPass | app/runtime/turn_coordinator.py:60-75 | the start of a call and a runtime error move nothing |
| CoordinatorEvents.TurnsHeldBack | app/runtime/turn_coordinator.py:106-126 | a known turn, or one that cuts short what cannot be described, never reaches the processor |
| CoordinatorEvents.TurnsAnswered | app/runtime/turn_coordinator.py:127-195 | every other turn reaches it once, as heard and with the interruption that led to it, after cancelling a live delivery; its answer is spoken and becomes the delivery, and without one the interruption stays pending |
| Recovery.ExportsAreRecoverable | app/application/production_turn_processor.py:693-759 | whatever parts a processor has, its export has distinct keys, the required payload, and only supported versions |
| Recovery.BudgetRoundTrip | app/application/production_turn_processor.py:726-735 | the reasoning counter read back from an export is the one exported |
| Recovery.ExportRoundTrip | app/application/production_turn_processor.py:693-746 | every part of a processor is found again under its own key, and nothing under the key of a part it lacks |
| Recovery.RecoveredActiveExactly | app/application/sales_runtime/recovery.py:124-292 | the exact condition under which recovery resumes a session mid-conversation |
| Recovery.RecoveredFreshExactly | app/application/sales_runtime/recovery.py:155-197 | the exact condition under which recovery starts a session afresh |
| Recovery.RefusedExactly | app/application/sales_runtime/recovery.py:124-292 | every refusal of recovery, by the first thing that is wrong with session, policy, queue or snapshot |
| Recovery.ExportTells | app/application/production_turn_processor.py:747-759 | the version, revision and conversation state an export carries |
| Recovery.ManifestTells | app/application/sales_runtime/manifest.py:61-97 | what the manifest requires, knows and supports |
| TurnProtocolProofs.ExactlyOnce | app/application/sales_runtime/persistent_runtime.py:362-486 | over every interleaving, each request is committed at most once, in an unbroken sequence; every successful reply carries its stored row; the row's key is never violated |
| TurnProtocolProofs.CommitKeepsStore | app/application/sales_runtime/persistent_runtime.py:441-461 | a commit whose revision check passes finds no row of its request, and keeps session, transcript, rows and snapshot in agreement |
| TurnProtocolProofs.SnapshotIsLastExport | app/application/sales_runtime/persistent_runtime.py:434-461 | in every reachable state the stored snapshot is, in conversation state, payloads and revision, the one exported for the last committed turn |
| TurnProtocolProofs.ReadsKeep | app/api/routes/sessions.py:117-127 | reading the count before the row keeps what a handler knows true: a request with a row is always behind the count |
| TurnProtocolProofs.SessionSafety | app/application/sales_runtime/persistent_runtime.py:376-461 | revision and turn count never decrease, the transcript grows at its end, a session that has ended never changes again |
| TurnProtocolProofs.RecoverableExactly | app/application/sales_runtime/persistent_runtime.py:434-461 | with turns committed, snapshot, session and last row carry one revision and recovery resumes the session, exactly when processors can export |
| TurnProtocolProofs.RestartRegisters | app/application/sales_runtime/persistent_runtime.py:520-548 | after a crash at any point a restart registers a processor again, under an exact condition |
| TurnProtocolProofs.RetrySucceeds | app/application/sales_runtime/persistent_runtime.py:347-486 | an undisturbed retry of a stored turn is answered with its row, whatever has become of session and processor; of an unstored one, it commits session, transcript, row and snapshot exactly when the session is active, a processor is registered and neither text is empty, and is refused with nothing written otherwise |
| TurnProtocolProofs.FinishLostExactly | app/application/sales_runtime/persistent_runtime.py:611-629 | when the write of a finish call is lost although the call reports success |
| TurnProtocolProofs.FinishCanBeLost | app/application/sales_runtime/persistent_runtime.py:611-629 | from a fresh session: a finish call, a whole turn between its check and its write, and the caller is told of a completed session that is active |
| TurnProtocolProofs.FinishAlone | app/application/sales_runtime/persistent_runtime.py:611-629 | a finish call left to itself ends an active session as failed or as completed and says so, and leaves an ended one alone |
| TurnProtocolProofs.RefusalsTell | app/application/sales_runtime/persistent_runtime.py:374-393 | why a handler is refused at each of its steps, with nothing written |
| TurnProtocolProofs.DncMarked | app/application/sales_runtime/persistent_runtime.py:506-510 | marking a lead as do-not-call changes its queue entry and nothing else |
| TurnProtocolProofs.CrashKeepsStore | app/application/sales_runtime/persistent_runtime.py:520-548 | a crash loses memory and nothing stored; a restart registers a processor where one can be built |
| ChatClient.SalesChatController.Submit | app/api/static/chat.js:252-265 | one pending turn at a time, none once the session is terminal; the dispatched message is the pending one |
| ChatClient.SalesChatController.Retry | app/api/static/chat.js:266-272 | a retry sends the pending id and text again |
| ChatClient.SalesChatController.OnAgentTurn | app/api/static/chat.js:210-237 | each id is rendered once; its answer resolves the pending turn of that id only |
| ChatClient.SalesChatController.OnError | app/api/static/chat.js:238-248 | a stale or invalid turn fails what is pending and resolves nothing |
| EndToEnd.EndToEndOrder | app/api/static/chat.js:190-304 | with a network that drops, duplicates and reorders: the committed messages are the submitted ones in order, each once, at most the last uncommitted; each answer is shown once, in order, as committed; nothing follows a terminal answer |
| EndToEnd.ServerCommitsInOrder | app/application/sales_runtime/persistent_runtime.py:376-461 | a server step commits only the one submission still uncommitted |
| EndToEnd.AnswerIsNext | app/api/static/chat.js:211-225 | an answer not rendered yet answers the oldest submission not rendered yet |
| EndToEnd.MessageAnswered | app/api/static/chat.js:190-304 | a message submitted, served and answered without loss is shown with the processor's answer, and the next can follow unless it was the last |
| EndToEnd.RetryShowsAnswer | app/api/static/chat.js:266-272 | a committed message whose answers were lost is shown after a retry, with the answer that was committed |
| PersistentRuntime.ProductionTurnProcessor.ProcessTurn | app/application/production_turn_processor.py:793-909 | the counters after a turn: when a reasoning call is counted, what an exception leaves behind |
| PersistentRuntime.PersistentSalesRuntime.ProcessTurn | app/application/sales_runtime/persistent_runtime.py:347-486 | one call: replay, refusals, the processor, the export, the atomic write, and the rollback of coverage and reasoning calls |
| PersistentRuntime.PersistentSalesRuntime.RestoreProcessorIfPossible | app/application/sales_runtime/persistent_runtime.py:520-548 | which processor a restart builds, and from which counter |
| PersistentRuntime.PersistentSalesRuntime.FinishSession | app/application/sales_runtime/persistent_runtime.py:611-629 | the row and the status that a finish call leaves, with writers of the same row before its check and before its write |
| RuntimeRefinement.TurnRefinesProtocol | app/application/sales_runtime/persistent_runtime.py:347-486 | a call of the runtime writes and answers what one undisturbed handler of the protocol does |
| RuntimeRefinement.FinishRefinesProtocol | app/application/sales_runtime/persistent_runtime.py:611-629 | a finish call is the three steps of the protocol with the other writers between them |
| BudgetProofs.BudgetNeverExceeded | app/application/production_turn_processor.py:1574-1583 | over any run of turns, failures and restarts, counters in memory and in the store stay within the limit, and the provider calls of one process lifetime that came back within the turn limit; these are all of them if none ended in an exception other than a reasoning error |
| BudgetProofs.EscapedCallsUnbounded | app/application/production_turn_processor.py:891-908 | provider calls that end in another exception move neither counter, so a budget that allows one allows any number |
| BudgetProofs.CountersAgreeExactly | app/application/sales_runtime/persistent_runtime.py:398-477 | the two counters differ by exactly the calls of turns that failed outside the commit |
| BudgetProofs.LeakedExactly | app/application/sales_runtime/persistent_runtime.py:398-477 | a run leaves calls counted but not persisted exactly when one was counted, failed before its commit, and was followed by no commit and no restart |
| BudgetProofs.CountersAgree | app/application/sales_runtime/persistent_runtime.py:398-477 | the two counters agree whenever every call, once the provider has answered, gets through to its commit |
| BudgetProofs.TurnCounts | app/application/sales_runtime/persistent_runtime.py:441-477 | what one call does to both counters, for each way it can end |
| BudgetProofs.RestartWithoutCounter | app/main.py:185-195 | a factory that does not read the counter back returns the whole budget at a restart |
| BudgetProofs.RefundsReachTurnLimit | app/application/sales_runtime/persistent_runtime.py:462-477 | failing commits refund every call, so only the turn limit bounds the calls that came back, and it is reached |
| BudgetProofs.CoverageOverRuns | app/application/sales_runtime/persistent_runtime.py:395-475 | over any run of calls the coverage is what was explained in turns whose commit did not fail, in order, and the store carries the coverage of the last commit |
| OverlappingTurns.RunsTheProtocol | app/application/sales_runtime/persistent_runtime.py:381-486 | overlapping turns on one processor are a run of the turn protocol |
| OverlappingTurns.ProviderCallsBounded | app/application/sales_runtime/persistent_runtime.py:398-486 | over every interleaving with at most n provider calls under way at once, those that came back pass the turn limit by less than n, and both counters stay within them |
| OverlappingTurns.OverlapCanExceed | app/application/sales_runtime/persistent_runtime.py:398-413 | limits that allow one call let any number of overlapping turns make one each |
| OverlappingTurns.NeverBehindExactly | app/application/sales_runtime/persistent_runtime.py:441-477 | the counter in memory is nowhere below the persisted one exactly when no refused commit writes back less than is persisted and no commit persists more than is left |
| OverlappingTurns.OverlapCanFallBehind | app/application/sales_runtime/persistent_runtime.py:462-477 | two turns from a fresh session: the second is refused after the first is committed, and a committed provider call is back in the budget |
| OverlappingTurns.SerialTurns | app/application/sales_runtime/persistent_runtime.py:398-486 | where a turn enters the processor only when none is in it, the counter never falls behind and both limits hold, over every interleaving of everything else |
| PipelineBudget.NamedIsCharged | app/application/production_turn_processor.py:891-908 | the turns whose trace names the provider are the turns the processor charges, and pipeline and processor count alike |
| PipelineBudget.NamedTurnsBounded | app/application/production_turn_processor.py:906-908 | over any run of pipeline turns the counter is the number of turns that named the provider, within both limits |
| PipelineBudget.SpentUpStandsStill | app/brain/orchestrator/orchestrator.py:363-418 | once a budget is used up, no turn without a trusted priority moves machine or context for the rest of the call |
| Budget.DecisionExactly | app/brain/budget/evaluator.py:132-199 | the one decision for every state of signals and budgets: the first signal, then the first budget missing or used up, then the tighter ceiling |
| Budget.StateTells | app/application/production_turn_processor.py:1574-1583 | what is left of each limit, as the processor tells it to the evaluator |
| StateMachine.ConversationStateMachine.ApplyTransition | app/conversation/state_machine/machine.py:176-251 | the one mutation point: a transition of the table or a return from a detour, and no change where it raises |
| StateMachine.AppliesExactly | app/conversation/state_machine/machine.py:176-251 | exactly when an action applies, by table and stack, and the machine it leads to |
| Catalog.ApprovedIsOfferable | app/services/service_offering_service.py:82-127 | whatever the selector proposes, an approved service is in scope, applicable, new, confident enough and within the limit |
| Catalog.EligibleExactly | app/catalog/eligibility.py:44-49 | eligible is exactly what is applicable and not yet offered, ascending, until the limit |
| Catalog.SelectedExactly | app/catalog/selection/selector_validator.py:65-109 | exactly which service is approved |
| Catalog.RefusalsTell | app/catalog/selection/selector_validator.py:65-109 | why nothing is approved, by the first thing that is wrong |
| Ordering.Sorted | app/catalog/eligibility.py:48-49 | the members of a set, each once, in ascending string order |
| Ordering.BelowIsLexicographic | app/catalog/eligibility.py:48-49 | strings are ordered by their first difference, the shorter first |
| Contact.ExplicitExactly | app/conversation/contact/resolver.py:82-108 | what was said outright resolves, trimmed and canonical, through the channel named, or says what is missing |
| Contact.ReferenceExactly | app/conversation/contact/resolver.py:110-176 | a reference resolves to the trusted value it stands for, under the name of its source, through the channel named or its own |
| Contact.UnrecognizedIsUnsupported | app/conversation/contact/resolver.py:110-176 | a reference nobody knows is unsupported |
| Contact.TrimExactly | app/conversation/contact/resolver.py:82-108 | trimming takes away the space around a value and nothing else |
| Contact.SessionStarts | app/conversation/engine.py:963-968 | a clarification goes on while the channel stays, and starts from nothing when it changes |
| Contact.EvaluationExactly | app/conversation/guardrails/clarification.py:193-287 | one evaluation: confirm, repeat, spell out, give up, with the wording each stands for |
| Contact.RetriesBounded | app/conversation/guardrails/clarification.py:193-287 | on one channel retries stay below the configured maximum, from any state of the session |
| Contact.RetriesExactly | app/conversation/guardrails/clarification.py:234-287 | on one channel, from any state of the session: as many retries as unclear turns, as long as there is room |
| Contact.RetriesOverRuns | app/conversation/engine.py:963-968 | for every run of contact turns: the retries are, summed over its maximal stretches on one channel, the unclear turns of the stretch, but at most one less than the maximum of the channel |
| Contact.ChangesBoundRetries | app/conversation/engine.py:963-968 | retries are bounded by the channel changes plus one, times one less than the largest maximum |
| Contact.AlternatingChannelsNeverExhaust | app/conversation/engine.py:963-968 | unclear turns that change the channel every time are all retried, however many |
| ContactRuns.DecisionsAreOutcomes | app/conversation/engine.py:937-968 | over any engine run, whatever lies between two contact turns, the clarification decisions remembered in the context are the outcomes of its contact turns |
| ContactRuns.RetriesOverEngineRuns | app/conversation/engine.py:937-1017 | how often a prospect is asked again over any engine run that begins without a clarification |
| Engine.ConversationEngine.ExecuteApprovedAction | app/conversation/engine.py:446-477 | terminal guard, then validate and apply |
| Engine.ConversationEngine.ExecuteAuthorityApprovedAction | app/conversation/engine.py:479-531 | routing of an authorized action to the offer, contact and plain paths |
| Engine.ConversationEngine.ProcessProposal | app/conversation/engine.py:546-609 | precedence of terminal guard, trusted priority, contact handling, offering and plain validation |
| Engine.ConversationEngine.ValidateThenApply | app/conversation/engine.py:730-759 | validation before mutation, one fallback, rejection where the machine refuses |
| Engine.ConversationEngine.TryFallback | app/conversation/engine.py:310-439 | the fallback is validated once and applied once, or reported as failed with nothing changed |
| Engine.ConversationEngine.MakeOffer | app/conversation/engine.py:611-706 | offer history changes only after a successful transition |
| Engine.ConversationEngine.HandleContact | app/conversation/engine.py:761-851 | resolution, candidate update and clarification of a contact turn |
| Engine.ConversationEngine.ConfirmCandidate | app/conversation/engine.py:853-935 | confirmation and the intent to persist |
| Engine.ConversationEngine.Clarify | app/conversation/engine.py:937-1017 | clarification outcomes and what each leads to |
| EngineProofs.EveryResultSound | app/conversation/engine.py:110-134 | every path's result can be constructed, tells the machine's state, and goes with at most one transition, of an action validated in the context of this very turn |
| EngineProofs.TerminalAbsorbs | app/conversation/engine.py:472-474 | a terminal state is absorbing over all runs |
| EngineProofs.RunFollowsTable | app/conversation/engine.py:281-284 | the states of a run are joined by single transitions of the table |
| EngineProofs.CallEffects | app/conversation/engine.py:611-935 | offers change only on a successful offer, the candidate only by one resolution, persistence is asked only on a confirmed transition |
| EngineProofs.OffersNeverRepeat | app/conversation/engine.py:658-688 | over all runs with an adversarial selector: no service offered twice, each in scope and applicable when offered, as many as counted, within the limit |
| EngineProofs.ContactIntegrity | app/conversation/engine.py:828-847 | over any run from a context without a candidate there is none, or value, channel and provenance are those of one resolution, by one call of this run, of what was understood in it and the trusted values of its context |
| EngineProofs.CandidateSource | app/conversation/engine.py:807-813 | which trusted context value a reference may turn into the candidate |
| EngineProofs.PersistOnlyConfirmed | app/conversation/engine.py:892-933 | what is persisted is the candidate as stored, resolved by a call of this run, under the trusted contact id, on a successful CONFIRM_CONTACT transition |
| EngineProofs.DncExactly | app/conversation/engine.py:286-292 | over all runs the do-not-call mark is set exactly by an executed MARK_DNC |
| EngineOutcomes.ApprovedActionTried | app/conversation/engine.py:446-477 | an orchestrated action is executed when it is validated and applies, else replaced by the fallback, else rejected; context and machine in each case |
| EngineOutcomes.PriorityForces | app/conversation/engine.py:583-590 | a trusted do-not-call executes MARK_DNC and leaves the mark, a trusted disinterest executes END_CALL and does not, whatever was proposed |
| EngineOutcomes.TerminalUnmoved | app/conversation/engine.py:472-474 | in a terminal state nothing is tried |
| EngineOutcomes.ProposalTried | app/conversation/engine.py:592-609 | a proposal that is neither a contact turn nor an offer is tried as it is |
| EngineOutcomes.AuthorizedTried | app/conversation/engine.py:479-531 | an authorized action likewise; one that lacks its component is rejected |
| EngineOutcomes.OfferMade | app/conversation/engine.py:611-706 | a service is offered exactly when one is approved and the offer validated and applicable, and the history then says so |
| EngineOutcomes.ContactTurnHandled | app/conversation/engine.py:761-1017 | a contact turn: a confirmation hands the candidate over or is rejected; an answer that resolves becomes the candidate and is confirmed, one that does not is asked for again or given up |
| EngineOutcomes.ValidatorSees | app/contracts/conversation_context.py:115-133 | what the validator is shown of a context |
| Policies.ClassifyIsLeastUpperBound | app/brain/authority/validator.py:108-159 | a commercial request never loosens the tier; the combined tier is the least restrictive one at or above both |
| Policies.TierExactly | app/brain/authority/validator.py:108-200 | the tier of a proposal, by the fields of the policy: the stricter of what it says of the action and of the request, a discount over the maximum being of the tier beyond it |
| Orchestrator.BrainOrchestrator.ProcessTurn | app/brain/orchestrator/orchestrator.py:303-418 | priority, then budget, then the provider and its classification |
| Orchestrator.BrainOrchestrator.ExecuteSliceThree | app/brain/orchestrator/orchestrator.py:596-687 | only an authority approval that names its action and both policies, without an unenforceable bound, reaches the engine |
| Orchestrator.OnlyThroughTheGates | app/brain/orchestrator/orchestrator.py:420-687 | for every provider output a turn without priority is the engine's call with the proposed action when the proposal passes every gate, and changes neither machine nor context when it does not |
| Orchestrator.BoundedCommerceExactly | app/brain/orchestrator/orchestrator.py:805-816 | when a policy-bounded discount or disclosure executes |
| Orchestrator.DiscountWithoutRuleExecutes | app/brain/orchestrator/orchestrator.py:805-816 | a policy without a discount rule under which a discount of any percentage executes |
| Orchestrator.TurnIsAnEngineRun | app/application/production_turn_processor.py:891-918 | a pipeline turn is an engine run of at most one call |
| PipelineOutcomes.PriorityDecides | app/brain/orchestrator/orchestrator.py:337-361 | under a trusted priority the pipeline stops with the forced action, tried by the engine, and without naming the provider |
| PipelineOutcomes.TurnsRouted | app/brain/orchestrator/orchestrator.py:363-594 | when the provider is asked, and where its answer goes: to a human, back to the topic, to the fallback or on |
| PipelineOutcomes.MalformedStopped | app/brain/orchestrator/orchestrator.py:749-802 | every field of an answer is checked, and nothing comes of one that fails |
| PipelineOutcomes.AnswerRead | app/brain/orchestrator/orchestrator.py:749-802 | the action and the request of a well-formed answer are the ones it names |
| PipelineOutcomes.BoundsAreThePolicys | app/brain/orchestrator/orchestrator.py:805-816 | the bounds of an approval are the policy's own |
| PipelineOutcomes.DiscountOverMaximumStopped | app/brain/orchestrator/orchestrator.py:553-594 | a discount over the maximum that needs a human, or is denied, never reaches the engine |
| PipelineOutcomes.DiscountWithinExecutes | app/brain/orchestrator/orchestrator.py:553-687 | a discount within the maximum that needs no approval does |
| PipelineOutcomes.ApprovalsExecuted | app/brain/orchestrator/orchestrator.py:596-687 | exactly which results are executed, and what counts as executed |
| KnowledgeRegistry.DocumentRegistry.Load | app/knowledge/registry.py:30-44 | the constructor's loops, with documents in version order |
| KnowledgeRegistry.DocumentRegistry.AddDocumentVersion | app/knowledge/registry.py:56-78 | the checks of a new version, in order, and the state after it |
| KnowledgeRegistry.DocumentRegistry.TransitionDocument | app/knowledge/registry.py:80-104 | the in-place rewrite of a document's versions |
| KnowledgeRegistry.DocumentRegistry.SelectActive | app/knowledge/registry.py:159-167 | selection of an existing base |
| RegistryProofs.LifecycleOverRuns | app/knowledge/registry.py:46-167 | over all call sequences: numbering by position, at most one published version, unique version ids, forward-only statuses, nothing else changed |
| RegistryProofs.PublishingExactly | app/knowledge/registry.py:80-104 | publishing leaves one published version and archives the one before |
| RegistryProofs.BaseExactly | app/knowledge/registry.py:46-54 | a base is taken when its key is new |
| RegistryProofs.AdditionExactly | app/knowledge/registry.py:56-78 | which version is taken, and the first reason against one that is not |
| RegistryProofs.TransitionExactly | app/knowledge/registry.py:80-104 | a version goes from draft to published to archived and no other way; what becomes of the others |
| RegistryProofs.SelectionExactly | app/knowledge/registry.py:159-167 | an existing base is selected for one campaign |
| RegistryProofs.AddAllExactly | app/knowledge/registry.py:41-42 | which sequences of documents can all be added, and what the registry then holds |
| RegistryProofs.LoadOrderIndependent | app/knowledge/registry.py:39-44 | success and contents of loading do not depend on the order of the documents |
| BusinessMemory.RejectCycles | app/conversation/business_memory/engine.py:113-119 | the search terminates and raises exactly when the edges have a directed cycle |
| BusinessMemory.RejectsExactly | app/conversation/business_memory/engine.py:116-119 | depth-first search from every node finds a cycle exactly when there is one |
| BusinessMemory.EdgesExactly | app/conversation/business_memory/engine.py:103-110 | the relationships are those of every other node to the root |
| BusinessMemory.StarHasNoCycle | app/conversation/business_memory/engine.py:103-110 | the relationships built are a star into the root and never a cycle |
| BusinessMemory.Reconcile | app/conversation/business_memory/engine.py:90-100 | the dictionary and archive that reconciliation builds |
| BusinessMemory.ProjectionExactly | app/conversation/business_memory/engine.py:90-100 | for each key: whether it is active, with which value and creation turn, and whether its prior node is archived |
| BusinessMemory.ArchiveExactly | app/conversation/business_memory/engine.py:90-100 | the archive a projection returns: what was archived before, then every prior node gone or changed, and of all this the latest, up to the limit |
| BusinessMemory.SupersededIsArchived | app/conversation/business_memory/engine.py:90-100 | a node gone or changed is in the archive when those of the projection fit |
| BusinessMemory.ArchiveOverRuns | app/conversation/business_memory/engine.py:90-100 | over any run of projections the archive is the latest part of everything ever outdated |
| BusinessMemory.Project | app/conversation/business_memory/engine.py:16-30 | a projection raises exactly when a bound is exceeded, never over a cycle |
| EvidenceSelection.SelectEvidence | app/conversation/context/builder.py:173-200 | selection raises or returns what its specification says of the set of applicable items |
| EvidenceSelection.OutcomeExactly | app/conversation/context/builder.py:184-200 | it raises exactly on a conflict; otherwise the bounded prefix by id, each item once |
| EvidenceSelection.OrderIndependent | app/conversation/context/builder.py:173-200 | every permutation of the evidence has the same outcome |
| EvidenceSelection.RaisesOverClash | app/conversation/context/builder.py:184-200 | it raises exactly over two items meant for this campaign or these services that clash |
| EvidenceSelection.SelectionIsScoped | app/conversation/context/builder.py:173-200 | nothing of another campaign or service is selected, and everything meant is as long as there is room |
| BusinessConversation.BuildHypotheses | app/conversation/business_conversation/engine.py:49-62 | the hypotheses built, or that building them raises |
| BusinessConversation.LastWriterWins | app/conversation/business_conversation/engine.py:31-39 | over any stream each kind holds what its last writer left, and the bound is never reached |
| BusinessConversation.UnderstandingIsLastWriterWins | app/conversation/business_conversation/engine.py:15-28 | the same for facts and problems of the snapshot, and unknown areas never overlap answered ones |
| BusinessConversation.UpdateTells | app/conversation/business_conversation/engine.py:15-28 | goals and constraints pile up, an area stays unknown until a current fact answers it, topics are the latest named |
| BusinessConversation.HypothesesExactly | app/conversation/business_conversation/engine.py:49-62 | the hypotheses are the root causes that something speaks for, the most likely first, supported by the first six observations |
| BusinessConversation.ArchiveIsLatestRemoved | app/conversation/business_conversation/engine.py:35-39 | the archive is the latest part of everything removed |
| BusinessConversation.UpdateRaisesExactly | app/conversation/business_conversation/contracts.py:172-174 | when an update of any prior snapshot raises: when the problems that stay and the kinds that come in are together more than 16, or over a long problem detail |
| BusinessConversation.StreamRaisesExactly | app/conversation/business_conversation/engine.py:15-28 | after any stream from the empty snapshot only the long details are left |
| BusinessConversation.UpdateCanOverflow | app/conversation/business_conversation/engine.py:31-39 | a snapshot of 16 problems that can be constructed, and an observation that makes its update raise |
| BusinessConversation.UpdateCanRaiseLater | app/conversation/business_conversation/contracts.py:119-126 | from an empty snapshot: a detail of 161 characters is accepted, and the next observation of manual work makes the update raise |
| GroqSchema.AmbiguousSizes | app/llm/groq_provider.py:104-117 | both dictionaries rebuilt for an ambiguous union are small enough for the rewrite to terminate on re-entering them |
| GroqSchema.RewritePreserves | app/llm/groq_provider.py:98-125 | a valid value stays valid, objects being read as closed wherever the rewrite closes them; and where every ambiguous union is settled nothing else becomes valid |
| GroqSchema.NumbersSettledExactly | app/llm/groq_provider.py:104-117 | collapsing a union lets no new number in if and only if the node accepted 0 and 0.5 already, as far as they get past its type; 0.5 alone decides where it gets past |
| GroqSchema.CollapseExactly | app/llm/groq_provider.py:104-117 | with everything below it settled, the rewrite of a node is exact on all values if and only if its numbers are settled |
| GroqSchema.UntypedIsSettled | app/llm/groq_provider.py:87-94 | the ordinary union, a bare number branch and no type beside the union, is settled whatever its other branches are |
| GroqSchema.CollapseCanAcceptMore | app/llm/groq_provider.py:104-114 | a schema that accepts nothing, and all numbers once its union is collapsed |
| GroqSchema.DeclaredIsClosed | app/llm/groq_provider.py:118-124 | what uses declared properties only is valid under the reading of RewritePreserves too |
| GroqSchema.SilentExactly | app/llm/groq_provider.py:115-124 | exactly which object schemas are left open to additional members: those beside a union of which a branch remains |
| GroqSchema.ObjectCanStaySilent | app/llm/groq_provider.py:115-124 | an object schema that stays open |
| GroqSchema.RewriteCleans | app/llm/groq_provider.py:84-94 | exactly when the rewritten schema is free of integer/number unions everywhere: when no union has a branch that becomes a number by collapsing |
| GroqSchema.OverlapCanRemain | app/llm/groq_provider.py:98-124 | a nested union whose rewrite is as ambiguous as before |

## Left out

- SQL and transactions: the write transaction is atomic and a row read is one step, as the comments of `process_turn` say; what a connection shared between threads does to that is not modelled.
- One session: the protocol is about the rows of one session, and sessions share nothing but the store.
- A second controller on the same session, and a page reload, which starts a new controller: the end-to-end order is about one.
- Generated turn request ids are taken to be fresh.
- Overlapping turns on one processor object, apart from its reasoning counter: coverage is followed over calls one after another. Counting a turn is one step.
- Exceptions a selector raises other than its own error, and in the pipeline exceptions a provider raises other than a reasoning error: they leave the turn before any change of the machine. What the provider's do to the budget is modelled.
- `start_session` and its idempotency table: a run of the protocol starts where bootstrap has committed.
- What a factory does with a snapshot beyond the reasoning counter and the coverage it is given, and failures of deserialization there.
- The JSON text of snapshots: storing and reading one is taken to be faithful.
- The wall clock: `seconds_remaining` is the policy's limit, as in the source.
- Wording: rendering, planning, retrieval, diagnostics, steering and supervision of a turn are one arbitrary processor behaviour.
- The termination route of a wind-down and the text of reasons and traces: no decision depends on them.
- `published_documents` and the other read-only views of the registry.
- `_id`: hashes of identity keys are taken to be injective, so a node is named by its key.
- Archived relationships and the summary of a business memory snapshot.
- `LeanContextBuilder` apart from evidence: its other fields are truncations.
- GroqSchema.RewritePreserves: keywords other than type, properties, items, anyOf and additionalProperties are not interpreted; and that every ambiguous union is settled is only sufficient for a whole schema, since a subschema that no value reaches does not matter. For each node it is exact.
- GroqSchema.Rewrite: a branch whose type is a list, next to an integer and a number branch, raises in the source; here it is kept.
- Contact.RetriesBounded: a configured maximum below one, which the source refuses when a session is created.
