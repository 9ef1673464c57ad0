# Marginalia: custody, context and manuscript

A model, with proofs, of three parts of Marginalia.

**Durable generation custody.** A writer's request is frozen, dispatched along an ordered
list of authorized routes, executed at most once per Docket attempt, and its response is
inserted into a conversation only if nothing it was frozen against has changed. Three
stores commit separately: the custody index, the executor's attempt journal and the
session files. `Custody` gives each transaction as an atomic step; `Executor` and
`Acceptance` give an executor and an acceptance caller as sequences of such steps;
`System` interleaves any number of them with the worker, the API and conversation
writers, with crashes between any two steps; `Runs` states the whole-run theorems and
`Limits` says exactly what the protocol does not promise. `CustodyMeaning`,
`ExecutorMeaning` and `AcceptanceMeaning` say what each operation amounts to, by its exact
conditions and effects. The classes `GenerationStore`,
`ExecutorAttemptStore`, `GenerationExecutor`, `SessionStore` and `GenerationAcceptance`
follow the source's methods and are proved equal to those steps.

**Bounded context and summary maintenance.** `ContextBudget` and `Admission` model the
token counter, the planner and the composition of a turn, and prove that what the planner
asks for is enough. `Chunking`, `MergeTrees` and `Maintenance` model the resumable
summariser with its checkpoint, and `Scheduling` the table of runs that must not lose a
stronger requirement.

**Manuscript tree.** `Forest`, `ReadingOrder` and `ManuscriptStores` model the flat node
map changed in place by create, move and delete, and the two depth-first walks over it.

## Reading the model

- A digest is modelled by the value it digests, so digests are injective. A dispatch row
  is named by its unique key, owning request and ordinal.
- A transaction, a locked section that ends in a file replacement, and an evidence write
  are each one atomic step.
- Provider replies, inspected program counters, fresh identifiers, the readability of
  evidence and crashes are inputs.
- The custody invariant is checked nowhere in the source. It is `Custody.Coupled`, and
  several guards of the source are proved unreachable under it.

## Findings

- Provider calls are bounded per Docket attempt, not per dispatch: `Limits.FreshAttemptCalls`
  gives the condition and `CustodyWitness.DispatchCalledTwiceInRun` a run.
- BLOCKED is not terminal: `Limits.BlockedThenAccepted` for the store and
  `AcceptanceWitness.BlockedThenAcceptedInRun` for a run of two status polls.
- After the target conversation is deleted, a repeated acceptance of an accepted candidate
  fails instead of answering: `Limits.GoneCall`.
- Maintenance plans with a placeholder prompt. A real prompt with fewer tokens can be told
  that preparation is in progress while maintenance refuses it (`Admission.RefusedExactlyWhen`,
  `BudgetWitnesses.ShortPromptRefused`) or selects a passage that no chunk can hold
  (`Admission.PromisedSourceChunks`, `BudgetWitnesses.PromisedButUnchunkable`).
- Maintenance bounds the raw model text while admission measures the rendered summary, so a
  turn can stay blocked with nothing left to prepare: `Admission.StuckExactlyWhen` and
  `BudgetWitnesses.LongRenderingStuck`.
- A requirement pending when the policy is disabled is dropped by the completion callback
  unless some run already meets it: `Scheduling.FollowUpKeptIff` and
  `Scheduling.DisabledPolicyLoses`.

## Model

| member | source | states |
|---|---|---|
| CustodyInvariants.StatusDetermined | src/gov_webui/generation_store.py:469-765 | In a coupled store every dispatch but the last is FAILED, dispatches use the frozen routes in order, and the request status is read off the last dispatch or the acceptance mark |
| CustodyInvariants.AtMostOneCandidate | src/gov_webui/generation_store.py:590-662 | Two candidates of one request are the same candidate, whichever dispatch returned them |
| CustodyInvariants.CandidateHome | src/gov_webui/generation_store.py:626-650 | A candidate belongs to the last dispatch of its request, which is CANDIDATE or BLOCKED and names it; the request is marked accepted exactly when the candidate is |
| CustodyInvariants.OpenHasNoCandidate | src/gov_webui/generation_store.py:618-623 | A dispatch without a candidate status has no candidate row, so the conflicting-candidate guard never fires |
| CustodyInvariants.CreateIsStep | src/gov_webui/generation_store.py:337-429 | Creating or replaying a request keeps the coupling, moves rows only forward and spends no potential |
| CustodyInvariants.ReserveIsStep | src/gov_webui/generation_store.py:469-578 | Reserving a route keeps the coupling, moves rows only forward and strictly lowers the potential |
| CustodyInvariants.MoveIsStep | src/gov_webui/generation_store.py:844-885 | The shared dispatch transition keeps the coupling, moves rows only forward and strictly lowers the potential |
| CustodyInvariants.RecordCandidateIsStep | src/gov_webui/generation_store.py:590-662 | Recording a candidate keeps the coupling, moves rows only forward and lowers the potential of the request it changes |
| CustodyInvariants.AcceptIsStep | src/gov_webui/generation_store.py:685-727 | Recording an acceptance keeps the coupling, moves rows only forward and lowers the potential of the request it changes |
| CustodyInvariants.BlockIsStep | src/gov_webui/generation_store.py:729-765 | Blocking a candidate keeps the coupling, moves rows only forward and never raises the potential |
| CustodyInvariants.EvolvesTransitive | src/gov_webui/generation_store.py:844-885 | Forward motion composes over any number of transactions: frozen work, routes, candidates and acceptance marks never change, and a further dispatch appears only after all earlier ones failed |
| GenerationStores.GenerationStore.SetDispatchEnabled | src/gov_webui/generation_store.py:279-289 | Only the enabled flag of that project changes |
| GenerationStores.GenerationStore.CreateRequest | src/gov_webui/generation_store.py:337-429 | Under the invariant the method is the atomic create transaction: new request, replay of identical frozen work, or conflict |
| GenerationStores.GenerationStore.ReserveDispatch | src/gov_webui/generation_store.py:469-578 | Under the invariant the guards of the source reduce to: request known, project enabled, status QUEUED (or FAILED for a fallback), a route left, and the choice is that route |
| GenerationStores.GenerationStore.DispatchTransition | src/gov_webui/generation_store.py:844-885 | Moves exactly one dispatch and mirrors it on its request, or changes nothing |
| GenerationStores.GenerationStore.MarkDispatchExecuting | src/gov_webui/generation_store.py:580-588 | RESERVED to EXECUTING with the attempt recorded, otherwise refused |
| GenerationStores.GenerationStore.MarkDispatchUnknown | src/gov_webui/generation_store.py:664-672 | RESERVED or EXECUTING to UNKNOWN, otherwise refused |
| GenerationStores.GenerationStore.MarkDispatchFailed | src/gov_webui/generation_store.py:674-683 | RESERVED or EXECUTING to FAILED, otherwise refused |
| GenerationStores.GenerationStore.RecordDispatchCandidate | src/gov_webui/generation_store.py:590-662 | Replays an identical candidate, else attaches one to an EXECUTING or UNKNOWN dispatch and mirrors it on the request |
| GenerationStores.GenerationStore.AcceptCandidate | src/gov_webui/generation_store.py:685-727 | Records the message once, replays the same message, refuses another |
| GenerationStores.GenerationStore.BlockCandidate | src/gov_webui/generation_store.py:729-765 | Marks dispatch and request BLOCKED unless the request is accepted |
| CustodyMeaning.CreateAnswers | src/gov_webui/generation_store.py:385-429 | Identical frozen work is answered with the stored request and changes nothing, other work under the same client id is a conflict if and only if it exists, and only unknown work becomes a new queued request |
| CustodyMeaning.CreateThenCreate | src/gov_webui/generation_store.py:387-395 | A create sent again is answered with the request it made |
| CustodyMeaning.EnableExactly | src/gov_webui/generation_store.py:279-289 | The switch of one project ends where it was put; nothing else moves |
| CustodyMeaning.ReserveExactly | src/gov_webui/generation_store.py:469-578 | The exact conditions of a reservation, the route it takes and the rows it leaves |
| CustodyMeaning.StatusTable | src/gov_webui/generation_store.py:844-885 | Each dispatch status with the request status that goes with it |
| CustodyMeaning.ExecutingExactly | src/gov_webui/generation_store.py:580-588 | Commits exactly from RESERVED, records the attempt, and touches nothing else |
| CustodyMeaning.UnknownExactly | src/gov_webui/generation_store.py:664-672 | Commits exactly from RESERVED or EXECUTING, to UNKNOWN on dispatch and request, and touches nothing else |
| CustodyMeaning.FailedExactly | src/gov_webui/generation_store.py:674-683 | Commits exactly from RESERVED or EXECUTING, to FAILED on dispatch and request, and touches nothing else |
| CustodyMeaning.RecordExactly | src/gov_webui/generation_store.py:590-662 | A repeated response is answered with its candidate; a first one makes an unaccepted candidate with its evidence, from EXECUTING or UNKNOWN |
| CustodyMeaning.AcceptExactly | src/gov_webui/generation_store.py:685-727 | Touches only the candidate mark and the request status, or replays, or refuses another message |
| CustodyMeaning.BlockExactly | src/gov_webui/generation_store.py:729-765 | Touches only the two statuses and keeps the candidate |
| Attempts.ReserveExactly | src/gov_webui/generation_executor.py:232-271 | Refused exactly for other facts or a marker another attempt used; a known attempt replays what is stored and a new one is reserved without an outcome |
| Attempts.FinishExactly | src/gov_webui/generation_executor.py:295-331 | Only an outcome of this very attempt is stored, once, and storing it again replays it |
| Attempts.ReconcileExactly | src/gov_webui/generation_executor.py:333-359 | Answers with the stored outcome, or with an indeterminate one naming the last durable state: a success or failure is never made up |
| Attempts.StoredOutcomeIsFinal | src/gov_webui/generation_executor.py:232-359 | Once an outcome is stored, any later journal reserves and reconciles to it and refuses to finish with another |
| Attempts.ExecutorAttemptStore.Reserve | src/gov_webui/generation_executor.py:232-271 | Reserves an attempt or replays its stored outcome; substituted facts and reused markers are refused |
| Attempts.ExecutorAttemptStore.State | src/gov_webui/generation_executor.py:273-278 | What a caller may conclude of an attempt: unknown, begin would commit, the terminal outcome that is stored, or a boundary crossed without an outcome |
| Attempts.ExecutorAttemptStore.Begin | src/gov_webui/generation_executor.py:280-293 | RESERVED to EXECUTING, otherwise refused |
| Attempts.ExecutorAttemptStore.Finish | src/gov_webui/generation_executor.py:295-331 | Stores a terminal outcome once; an equal outcome is replayed and another refused |
| Attempts.ExecutorAttemptStore.Reconcile | src/gov_webui/generation_executor.py:333-359 | Reads the stored outcome, or an indeterminate one naming the last durable state, and writes nothing |
| Executor.AdvanceSound | src/gov_webui/generation_executor.py:389-459 | Every atomic step of an executor, whatever the provider does and wherever the guarded block raises, keeps the world sound and touches nobody else's attempt |
| Executor.ProcessStable | src/gov_webui/generation_executor.py:389-459 | What a process relies on survives every step of any other process |
| Executor.SuccessClosed | src/gov_webui/generation_executor.py:410-459 | Once a success is stored its dispatch can no longer be marked unknown |
| Executor.DatabaseStep | src/gov_webui/generation_store.py:469-765 | A custody transaction by anybody else keeps every stored outcome backed by its dispatch |
| GenerationExecutors.GenerationExecutor.Validate | src/gov_webui/generation_executor.py:378-387 | Work, subject, scope and request digest all match the sealed plan |
| GenerationExecutors.GenerationExecutor.Execute | src/gov_webui/generation_executor.py:389-459 | Run alone, the straight-line method is exactly the step machine run to its end, on both stores, the evidence and the call log |
| GenerationExecutors.GenerationExecutor.Reconcile | src/gov_webui/generation_executor.py:461-463 | Validation, then durable evidence only: no provider call, no write |
| ExecutorMeaning.ReplyDecidesOutcome | src/gov_webui/generation_executor.py:409-459 | For an unused valid attempt on an open dispatch: a definitive refusal ends as failure with dispatch and request FAILED, an exception as indeterminate with both UNKNOWN, an answer as success with its evidence and candidate stored; the outcome is journalled and returned |
| ExecutorMeaning.FailedExactlyWhenRefused | src/gov_webui/generation_executor.py:434-459 | Whatever raises, the dispatch ends FAILED if and only if the provider refused definitively |
| ExecutorMeaning.StoringFaultIsUnknown | src/gov_webui/generation_executor.py:445-459 | If storing the evidence raises, dispatch and request end UNKNOWN without a candidate |
| ExecutorMeaning.RecordingFaultKeepsTruth | src/gov_webui/generation_executor.py:445-459 | If recording raises, dispatch and request end UNKNOWN when nothing was committed and stay CANDIDATE when it was; no outcome is returned |
| FailureRuns.FailedWasRefused | src/gov_webui/generation_store.py:674-683 | In every run a FAILED dispatch was refused definitively by the provider in an earlier step |
| ExecutorMeaning.ValidatesExactly | src/gov_webui/generation_executor.py:378-387 | The validation is exactly equality with the sealed plan of a stored dispatch |
| ExecutorMeaning.MismatchChangesNothing | src/gov_webui/generation_executor.py:378-393 | Anything but the sealed plan is refused and leaves no trace |
| ExecutorMeaning.UsedChangesNothing | src/gov_webui/generation_executor.py:232-262 | A reused attempt or marker, and an attempt that crossed the boundary without an outcome, are refused and leave no trace |
| ExecutorMeaning.SettledDispatchRefused | src/gov_webui/generation_executor.py:400-408 | On a settled dispatch a new attempt is begun and refused: no call, no evidence, no change of custody |
| Sessions.InsertExactly | src/gov_webui/session_store.py:364-391 | A turn is inserted exactly when nothing carries its candidate and the revision is the expected one; every other case changes nothing and says why |
| Sessions.MatchesOne | src/gov_webui/session_store.py:349-362 | With distinct candidates a lookup returns exactly the one message that carries the candidate |
| Sessions.MatchesEmpty | src/gov_webui/session_store.py:349-362 | A lookup finds nothing exactly when no message carries the candidate |
| Sessions.SessionStore.UpdateTitle | src/gov_webui/session_store.py:299-308 | Changes the title and the revision of one conversation |
| Sessions.SessionStore.UpdateModel | src/gov_webui/session_store.py:310-319 | Changes the model and the revision of one conversation |
| Sessions.SessionStore.AppendMessages | src/gov_webui/session_store.py:324-331 | Appends to one conversation and advances its revision |
| Sessions.SessionStore.AppendToSession | src/gov_webui/session_store.py:421-426 | Messages are extended and the revision grows by one |
| Sessions.SessionStore.AppendMessagesIfRevision | src/gov_webui/session_store.py:333-347 | Commits only at the expected revision, and then moves the revision past it |
| Sessions.SessionStore.CandidateMessageId | src/gov_webui/session_store.py:349-362 | The message that carries a candidate, none, or corrupt when there are several |
| Sessions.SessionStore.AppendCandidateIfRevision | src/gov_webui/session_store.py:364-391 | A prior insertion wins over revision drift; otherwise the turn is appended only at the expected revision |
| AcceptanceProofs.AdvanceSound | src/gov_webui/generation_acceptance.py:58-144 | Every step of an acceptance caller keeps custody, conversations and acceptance marks sound, and the lock holder's knowledge correct |
| AcceptanceProofs.Recovery | src/gov_webui/generation_acceptance.py:61-66 | After the message is in the conversation, a new call ends with that message id and an unchanged conversation, whatever happened to canon, guidance, revision or evidence |
| AcceptanceProofs.FirstCall | src/gov_webui/generation_acceptance.py:58-139 | A first uninterrupted call inserts exactly one turn if everything frozen still holds and the response is authored for a real user turn, and otherwise blocks without touching the conversation |
| AcceptanceProofs.BlockNeverRefused | src/gov_webui/generation_acceptance.py:142-144 | While the target conversation exists, blocking never meets the accepted-candidate refusal |
| AcceptanceProofs.RecordingStep | src/gov_webui/generation_acceptance.py:65-66 | Recording is never refused: a message found or appended is the one already recorded, if any |
| AcceptanceProofs.InsideUnique | src/gov_webui/session_store.py:349-362 | A candidate is carried by one message of a conversation only |
| AcceptanceProofs.WriteKeepsSound | src/gov_webui/session_store.py:299-347 | Ordinary writes to a conversation keep its history and every insertion in place |
| AcceptanceProofs.DatabaseKeepsSound | src/gov_webui/generation_store.py:469-765 | Custody transactions that accept nothing keep every acceptance mark matched by its message |
| GenerationAcceptances.GenerationAcceptance.AcceptCandidate | src/gov_webui/generation_acceptance.py:36-139 | Run alone, the method is exactly the caller's step machine run to its end, on the custody store and the conversations |
| AcceptanceMeaning.VisiblePromptIsInserted | src/gov_webui/generation_acceptance.py:97-139 | When everything frozen holds, the response is authored and the last user turn has a visible character, exactly that turn and the response are appended and the acceptance recorded |
| AcceptanceMeaning.OtherwiseBlocked | src/gov_webui/generation_acceptance.py:68-108 | Every other readable call blocks for the earliest reason that applies, each reason by its own condition, and only in custody |
| AcceptanceMeaning.UnreadableChangesNothing | src/gov_webui/generation_acceptance.py:78-82 | If the evidence cannot be read, the call fails and changes nothing |
| AcceptanceMeaning.ForeignRefused | src/gov_webui/generation_acceptance.py:47-56 | An unknown candidate or one of another project is refused and changes nothing |
| AcceptanceMeaning.PendingIsLast | src/gov_webui/generation_acceptance.py:89-98 | The pending turn is the content of the last user message of the frozen request |
| AcceptanceMeaning.WhitespaceInAscii | src/gov_webui/generation_acceptance.py:97-98 | In ASCII exactly the ten characters that stripping removes are blank, and no visible character is |
| System.NextSound | src/gov_webui/generation_executor.py:389-459 | Every action of every process, with a crash possible between any two durable writes, keeps the whole system sound and only moves it forward |
| Runs.AlwaysSound | src/gov_webui/generation_executor.py:389-459 | Every state of every run is sound |
| Runs.AlwaysForward | src/gov_webui/generation_store.py:469-765 | A later state of a run only extends an earlier one: rows, outcomes, evidence and conversation histories are never rewritten |
| Runs.CallsAtMostOnce | src/gov_webui/generation_executor.py:396-408 | In every run the call log never holds one Docket attempt twice |
| Runs.OutcomeForever | src/gov_webui/generation_executor.py:313-321 | A stored outcome is what every later reserve and reconcile returns, and stays backed by custody rows and evidence |
| Runs.LaterExecuteReturns | src/gov_webui/generation_executor.py:389-393 | A later execution of the same work returns the stored outcome with no provider call and no change |
| Runs.OutcomeMeaning | src/gov_webui/generation_executor.py:410-459 | For the rest of the run: success has a candidate row with its evidence, failure has its dispatch FAILED, indeterminate has it UNKNOWN, CANDIDATE or BLOCKED and its request gets no further dispatch |
| Runs.RoutesInOrder | src/gov_webui/generation_store.py:507-539 | In every state dispatches are a prefix of the frozen routes in order and all but the last have failed |
| Runs.UnknownIsNeverRerouted | src/gov_webui/generation_store.py:491-497 | Once a dispatch is UNKNOWN it never fails and no further dispatch is ever reserved for its request |
| Runs.ReservedOnlyWhenAuthorized | src/gov_webui/generation_store.py:469-578 | A dispatch appears only by reservation, of the next frozen route, with the project enabled and every earlier dispatch FAILED |
| Runs.OneRequestPerClientEver | src/gov_webui/generation_store.py:387-401 | Over a whole run a client request id names one request of its project, with the frozen work it was created with |
| Runs.CreateReplaysForever | src/gov_webui/generation_store.py:387-395 | Once work was created, every later create of it answers the same request unchanged, and other work under its client id is a conflict |
| Runs.CustodyTerminates | src/gov_webui/generation_store.py:469-765 | In any run a request with k fallbacks changes status at most 3k + 6 times |
| Runs.AcceptedForever | src/gov_webui/generation_store.py:701-718 | Acceptance is permanent, names one message, and while the conversation exists it holds that message exactly once |
| Runs.AtMostOneInsertion | src/gov_webui/session_store.py:364-391 | In every state no conversation holds a candidate twice |
| Runs.RevisionsLinear | src/gov_webui/session_store.py:421-426 | While a conversation exists its revision never decreases, its messages are only extended, and an equal revision means equal messages |
| Runs.InsertedAfterFrozenHistory | src/gov_webui/generation_acceptance.py:120-125 | An inserted turn extends exactly the messages the conversation had at the revision its request was frozen at |
| Runs.InsertedTurnIsWriters | src/gov_webui/generation_acceptance.py:89-119 | When a request froze what admission composed for a prompt, the inserted turn is that very prompt as the user message and the authored content the candidate names as the response |
| Runs.OneInsertionPerRevision | src/gov_webui/session_store.py:364-391 | Of all requests frozen at one conversation and revision at most one is inserted |
| Limits.FreshAttemptCalls | src/gov_webui/generation_executor.py:402-405 | A fresh valid attempt calls the provider exactly when its dispatch is RESERVED or EXECUTING, so calls are bounded per attempt and not per dispatch |
| Limits.DispatchCalledTwice | src/gov_webui/generation_executor.py:402-405 | A dispatch whose executor crashed right after its call is called again by the next attempt |
| CustodyWitness.DispatchCalledTwiceInRun | src/gov_webui/generation_executor.py:402-405 | A run from the empty system whose call log holds two attempts of one dispatch |
| Limits.AcceptAndBlockCommit | src/gov_webui/generation_store.py:701-744 | Accepting commits exactly when no other message is recorded, blocking exactly when nothing is |
| Limits.BlockedThenAccepted | src/gov_webui/generation_store.py:701-718 | A blocked candidate can still be accepted, leaving its dispatch BLOCKED |
| AcceptanceWitness.BlockedThenAcceptedInRun | src/gov_webui/adapter.py:1655-1667 | A run from the empty system in which two polls see one candidate: a request is BLOCKED on a canon edit by the first and, the edit undone, ACCEPTED by the second, with its dispatch left BLOCKED |
| Limits.UnknownNeverFails | src/gov_webui/generation_store.py:613-683 | A dispatch can be failed exactly while RESERVED or EXECUTING, and given a candidate exactly while EXECUTING or UNKNOWN or by replay |
| Limits.GoneCall | src/gov_webui/generation_acceptance.py:68-70 | With the conversation deleted a call blocks an open candidate and fails for an accepted one, the only case where the store refuses to block |
| GenerationWorker.DispatchedAtMostOnce | src/gov_webui/generation_worker.py:305-309 | However often the worker is killed and restarted, the dispatch command is issued at most once for a dispatch |
| GenerationWorker.CommandOfEachCounter | src/gov_webui/generation_worker.py:287-319 | The command of every program counter, with dispatch only before the marker and recovery only after it |
| GenerationWorker.TurnEnds | src/gov_webui/generation_worker.py:313-319 | Which counters end the process, and how |
| GenerationWorker.MarkerMeansDispatched | src/gov_webui/generation_worker.py:305-309 | Once the marker is written the dispatch command has been issued exactly once, unless a process was killed exactly between the two |
| GenerationWorker.GovernedGeneration.Drive | src/gov_webui/generation_worker.py:284-319 | The loop issues the commands of the turn-by-turn specification, with the marker durable before the dispatch command |
| GenerationWorker.Worker.SelectDispatch | src/gov_webui/generation_worker.py:451-458 | Takes the last dispatch or reserves the first; the non-failed-prior-dispatch error never occurs |
| GenerationWorker.Worker.Settle | src/gov_webui/generation_worker.py:463-481 | After an indefinite end an open dispatch becomes UNKNOWN, any other is left alone, and none stays open |
| GenerationWorker.Worker.Fallback | src/gov_webui/generation_worker.py:495-508 | A failed request gets its next route exactly when one is left and dispatching is enabled, and then without error |
| ContextBudget.MessageCost | src/gov_webui/context_budget.py:41-46 | One message costs the tokens of its role and content and six more, times the margin, rounded up |
| ContextBudget.LookaheadExactly | src/gov_webui/context_budget.py:145-147 | A third of the application budget, and never more than 12000 |
| ContextBudget.EffectivePolicyRefused | src/gov_webui/context_budget.py:128-142 | A window is refused exactly when the target it leaves falls below the floors |
| ContextBudget.PlanExactly | src/gov_webui/context_budget.py:97-111 | The plan is the least prefix that separates no exchange and whose rest fits; there is none exactly when the mandatory part alone does not fit |
| ContextBudget.CountSubadditive | src/gov_webui/context_budget.py:41-46 | Rounding up one scaled sum never exceeds rounding up its parts, and parts never exceed the whole |
| ContextBudget.CountPositive | src/gov_webui/context_budget.py:41-46 | Adding a message strictly raises the count |
| ContextBudget.EffectivePolicyFits | src/gov_webui/context_budget.py:114-142 | Narrowing gives a valid policy within window and target, as large as both allow, and fails exactly when no target within the window is valid |
| ContextBudget.PairBoundaries | src/gov_webui/context_budget.py:71-85 | Exactly the ascending indices that do not separate a user message from the assistant message after it |
| ContextBudget.PlanIsLeast | src/gov_webui/context_budget.py:97-111 | The plan fails exactly on a negative allowance; otherwise it is the least boundary whose suffix fits, and every later boundary fits |
| ContextBudget.ChooseSummaryPrefix | src/gov_webui/context_budget.py:88-111 | The scan returns the planned prefix; its final raise is unreachable |
| Admission.BuildComposes | src/gov_webui/context_budget.py:150-249 | A returned context is fixed blocks, optional summary, recent history, prompt; what the summary covers and the recent history make up the full history |
| Admission.FullHistoryPreferred | src/gov_webui/context_budget.py:169-188 | A context that fits is sent whole and uncompacted, whatever summary is in hand |
| Admission.CompactedExactlyWhen | src/gov_webui/context_budget.py:216-245 | The summary stands in exactly when the whole does not fit and the shorter context does |
| Admission.BlockedExactlyWhen | src/gov_webui/context_budget.py:190-249 | What does not fit either way is too large exactly when the mandatory part leaves no room, and otherwise asks for the least prefix that may be summarised |
| Admission.AdmitExactly | src/gov_webui/adapter.py:2954-2966 | Admission is the composition, except that a promise for a prefix with an unchunkable message is a refusal |
| Admission.SelectsExactly | src/gov_webui/adapter.py:2682-2719 | What a maintenance run does with and without a requirement, at and below the watermark |
| Admission.ReadyEndsWithPrompt | src/gov_webui/context_budget.py:162-241 | The last user turn of any admitted context is the pending prompt, whatever history and summary precede it |
| Admission.WindowBound | src/gov_webui/adapter.py:2912-2953 | Predicted provider tokens, lookahead and output reserve together fit the declared window and the project target |
| Admission.NoWedge | src/gov_webui/context_budget.py:88-111 | Any summary covering the planned prefix and rendering within its allotment is admitted, despite ceil rounding under a real margin |
| Admission.BlockedAsksForMore | src/gov_webui/context_budget.py:190-249 | A blocked turn asks for between one message and the whole history, and for more than the summary in hand covers unless that one renders beyond its allotment |
| Admission.SelectionMeetsRequirement | src/gov_webui/adapter.py:2693-2716 | Maintenance for a blocked turn never settles for less coverage than admission asked for, even after the conversation has grown |
| Admission.CheaperPromptPlansLess | src/gov_webui/context_budget.py:97-110 | A cheaper prompt never plans more coverage |
| Admission.SelectsRequirement | src/gov_webui/adapter.py:2693-2716 | If the placeholder costs no more than the real prompt, maintenance summarises exactly the prefix that admission asked for |
| Admission.MaintenanceUnblocks | src/gov_webui/context_budget.py:220-241 | A summary of at least the required prefix, rendered within its allotment, admits the blocked turn |
| Admission.PromisedSourceChunks | src/gov_webui/adapter.py:2954-2966 | What maintenance selects for a promised turn can be chunked, except exactly for an unchunkable passage between the required coverage and a larger selection |
| Admission.RefusedExactlyWhen | src/gov_webui/adapter.py:2693-2700 | Maintenance refuses a blocked turn exactly when the placeholder does not fit, which takes a real prompt with fewer tokens |
| Admission.StuckExactlyWhen | src/gov_webui/context_budget.py:216-249 | With a made summary a promised turn is admitted if and only if what would be sent fits; otherwise it is promised again for the same coverage, and maintenance has nothing left to do if and only if it can plan and the summary covers both the required and its own planned prefix |
| BudgetWitnesses.ShortPromptRefused | src/gov_webui/adapter.py:2693-2702 | A chunkable exchange and a two-letter prompt that admission promises to prepare and maintenance refuses |
| BudgetWitnesses.LongRenderingStuck | src/gov_webui/context_maintenance.py:299-322 | A reply that passes every leaf check and whose summary covers the exchange and loads, but renders so long that the turn is promised again with nothing left to prepare |
| BudgetWitnesses.PromisedButUnchunkable | src/gov_webui/adapter.py:2954-2966 | A turn promised for one chunkable passage, for which maintenance selects a second passage that no chunk can hold |
| Summaries.LoadsExactly | src/gov_webui/context_summary.py:268-287 | A summary loads exactly for its conversation while the covered messages are one by one those it was made from |
| Summaries.LoadedCoversPrefix | src/gov_webui/context_summary.py:268-287 | A summary that loads covers exactly a prefix of the conversation |
| Summaries.FreshLoads | src/gov_webui/context_summary.py:200-209 | A fresh summary of a prefix loads from the conversation it was made from |
| Summaries.LoadsWhilePrefixKept | src/gov_webui/context_summary.py:268-287 | A summary that loads keeps loading exactly while its covered prefix is unchanged |
| Chunking.OversizedSourceMessage | src/gov_webui/context_maintenance.py:92-107 | The first message that fits no chunk, or none |
| Chunking.CutIntoChunks | src/gov_webui/context_maintenance.py:110-129 | The loop fails exactly on an oversized message and otherwise computes the left-to-right packing |
| Chunking.ChunksPartition | src/gov_webui/context_maintenance.py:110-129 | Chunks are non-empty, each fits, and together they are the input in order |
| Chunking.ChunksPrefixStable | src/gov_webui/context_maintenance.py:256-261 | All chunks of a prefix but its last are the leading chunks of any longer history |
| Chunking.FewestChunks | src/gov_webui/context_maintenance.py:110-129 | No contiguous partition within the limit has fewer chunks |
| MergeTrees.OneMergeLessThanLeaves | src/gov_webui/context_maintenance.py:377-480 | A tree over n leaf chunks holds exactly n - 1 pair merges, however it was rebalanced |
| MergeTrees.IdsOfLeaves | src/gov_webui/context_maintenance.py:386-387 | The ids of a node are those of the chunks below it, in order |
| MergeTrees.RootCoversSource | src/gov_webui/context_summary.py:132-137 | The root over all chunks carries exactly the source ids and cites nothing outside them |
| MergeTrees.LevelPair | src/gov_webui/context_maintenance.py:379-388 | Replacing two neighbours by their merge keeps the leaves below a level in order |
| MergeTrees.ReusableExactly | src/gov_webui/context_maintenance.py:236-262 | The exact conditions for taking up a checkpoint |
| MergeTrees.ReusableAcrossGrowth | src/gov_webui/context_maintenance.py:240-266 | The checkpoint of a source is reusable for its extensions and for its non-empty prefixes |
| MergeTrees.GrowthRegeneratesOne | src/gov_webui/context_maintenance.py:256-290 | Whatever part of the leaves a checkpoint holds, when the source grows every chunk but the last stays a chunk and is known for the longer source if and only if it was known before |
| Maintenance.GrowthCost | src/gov_webui/context_maintenance.py:256-290 | Resuming any checkpoint of a shorter source costs at most the leaves that were missing anyway, one regenerated leaf, the new leaves and 4(n - 1) merge calls |
| Maintenance.ContextMaintainer.Summarize | src/gov_webui/context_maintenance.py:299-322 | One call per leaf under the leaf's key; an accepted result cites only its own chunk |
| Maintenance.ContextMaintainer.RunBatch | src/gov_webui/context_maintenance.py:333-344 | Every call of a batch is made, in order under its leaf key; successes are kept, without a failure every member is resolved, and a process that ends keeps nothing of the batch |
| Maintenance.ContextMaintainer.RunBatches | src/gov_webui/context_maintenance.py:331-370 | Batches stop at the first failing one, with every success in the checkpoint; if the process ends, all but at most the last batch is in it |
| Maintenance.ContextMaintainer.Resolve | src/gov_webui/context_maintenance.py:281-290 | Chunks found in the checkpoint are taken from it; the rest, and only they, are outstanding |
| Maintenance.ContextMaintainer.Reduce | src/gov_webui/context_maintenance.py:414-470 | A dense child is compacted with at most one call, none if its key is known, over the same ids |
| Maintenance.ContextMaintainer.Attempt | src/gov_webui/context_maintenance.py:491-514 | One attempt at a merge calls exactly when its prompt fits the budget; an accepted node carries the reply to this call, and a failure has its reason in it |
| Maintenance.ContextMaintainer.Combine | src/gov_webui/context_maintenance.py:482-545 | One merge in at most two calls, for an unknown key, which is known as soon as one succeeds |
| Maintenance.ContextMaintainer.Cached | src/gov_webui/context_maintenance.py:390-398 | A cached merge is reused under its key and ids; the evidence check on it never fails |
| Maintenance.ContextMaintainer.MergePair | src/gov_webui/context_maintenance.py:381-545 | A pair merge makes at most four calls, none for a known key, keeps the leaves in order, and compacts exactly the children with more than 32 facts when both have more than 60 |
| Maintenance.ContextMaintainer.MergeLevel | src/gov_webui/context_maintenance.py:379-546 | A level of n nodes becomes one of n - n/2 with the same leaves in order |
| Maintenance.ContextMaintainer.MergeAll | src/gov_webui/context_maintenance.py:377-547 | The level loop terminates in one root over all leaves with at most 4(n - 1) calls |
| Maintenance.ContextMaintainer.LeafPhase | src/gov_webui/context_maintenance.py:236-374 | Either all leaves are in the checkpoint or the run failed with everything resumed and everything paid for in it; if a missing leaf has a prompt beyond the budget, nothing is called |
| Maintenance.ContextMaintainer.MergePhase | src/gov_webui/context_maintenance.py:377-550 | The root of n chunks comes from n - 1 pair merges; on failure everything known and everything merged is in the checkpoint |
| Maintenance.ContextMaintainer.Maintain | src/gov_webui/context_maintenance.py:223-565 | At most outstanding leaves + 4(n - 1) calls, none for a key of the resumed checkpoint; the summary covers exactly the source and loads from it; if it fails, or the process ends at a call, all it resumed and all that succeeded is in the checkpoint; a success leaves the whole tree in it, and the summary is what its root node says; every new node carries a reply of this run, and a failure has its reason in it |
| Maintenance.ContextMaintainer.MaintainWithRetries | src/gov_webui/adapter.py:2782-2819 | At most four attempts on the same messages, none after a structural refusal or the end of the process, and no attempt calls for a key that succeeded in an earlier one; the result is that of the last attempt |
| Scheduling.Scheduler.Schedule | src/gov_webui/adapter.py:2851-2885 | Starts a run with the joined requirement, or records a stronger one beside an unfinished run |
| Scheduling.Scheduler.OnFinished | src/gov_webui/adapter.py:2887-2899 | Clears the finished task and follows up a stronger pending requirement |
| Scheduling.AlwaysSound | src/gov_webui/adapter.py:2851-2901 | In every run each table entry is a live task of its key, unfinished tasks are table entries, and every pending requirement has a task to take it up |
| Scheduling.OneUnfinishedPerKey | src/gov_webui/adapter.py:2864-2872 | At most one unfinished task exists per key |
| Scheduling.StartsExactlyWhen | src/gov_webui/adapter.py:2858-2885 | A run starts exactly when the policy is enabled and no run of the key is unfinished, with the stronger of the asked and the pending requirement |
| Scheduling.FollowsUpExactlyWhen | src/gov_webui/adapter.py:2887-2899 | A callback starts a run exactly when a stronger requirement is pending, the policy is enabled and no run of the key is unfinished |
| Scheduling.NothingMadeUp | src/gov_webui/adapter.py:2822-2828 | Every pending entry and every requirement of a run is one that was observed |
| Scheduling.NothingLost | src/gov_webui/adapter.py:2864-2901 | With the policy enabled every requirement ever observed is at most the pending entry or at most the requirement of a run started for its key |
| Scheduling.QuietMeansMet | src/gov_webui/adapter.py:2887-2899 | Once all callbacks are delivered nothing is pending and every observed requirement was met by a run |
| Scheduling.FollowUpKeptIff | src/gov_webui/adapter.py:2858-2863 | A pending requirement survives the callback exactly when the policy is enabled or some run already meets it |
| Scheduling.DisabledPolicyLoses | src/gov_webui/adapter.py:2858-2891 | A run in which the callback drops a pending requirement because the policy has been disabled |
| Scheduling.ChainEnds | src/gov_webui/adapter.py:2887-2899 | Once observations stop, completions and callbacks have only boundedly many further effects |
| Forest.CreateKeepsForest | src/gov_webui/manuscript_store.py:173-200 | Adding a last child keeps the forest and the numbering |
| Forest.DeleteKeepsForest | src/gov_webui/manuscript_store.py:256-266 | Deleting a childless node and closing the gap keeps the forest and the numbering |
| Forest.MoveKeepsForest | src/gov_webui/manuscript_store.py:226-254 | A move outside the moved subtree keeps the forest with positions 0..k-1 under every parent |
| Forest.MovePlaces | src/gov_webui/manuscript_store.py:246-251 | The node ends at the clamped index, every list keeps its other members in order, uninvolved lists are untouched |
| Forest.MoveIndex | src/gov_webui/manuscript_store.py:249-251 | Too small a position means first, too large a one last, any other is taken as it is |
| Forest.DeleteCloses | src/gov_webui/manuscript_store.py:256-266 | Deleting closes the gap: putting the node back at its place gives the old list, and no other list changes |
| Forest.MoveBackRestores | src/gov_webui/manuscript_store.py:226-254 | Moving back to the old parent and position restores every child list |
| Forest.OneOrder | src/gov_webui/manuscript_store.py:120-123 | However ties are broken, sorting siblings with distinct positions has one result |
| ManuscriptStores.ManuscriptStore.Siblings | src/gov_webui/manuscript_store.py:120-123 | The siblings of a parent in position order, also while one node is still misplaced |
| ManuscriptStores.ManuscriptStore.Renumber | src/gov_webui/manuscript_store.py:125-131 | Exactly the listed nodes get the parent and their index |
| ManuscriptStores.ManuscriptStore.Create | src/gov_webui/manuscript_store.py:173-200 | A new last child, or an error for an unknown parent |
| ManuscriptStores.ManuscriptStore.InsideSubtree | src/gov_webui/manuscript_store.py:239-243 | The ancestor walk terminates and finds the node exactly when the target lies in its subtree |
| ManuscriptStores.ManuscriptStore.Move | src/gov_webui/manuscript_store.py:226-254 | Errors exactly for unknown nodes and cycles; otherwise the child lists are those of the move specification |
| ManuscriptStores.ManuscriptStore.Delete | src/gov_webui/manuscript_store.py:256-266 | Refuses exactly nodes with children; otherwise removes the node and renumbers its siblings in order |
| ManuscriptStores.ManuscriptStore.OrderedDepthFirst | src/gov_webui/manuscript_store.py:147-164 | Terminates and lists each node exactly once in reader order |
| ManuscriptStores.ManuscriptStore.RenderManuscript | src/gov_webui/adapter.py:1885-1901 | The export walk, sorted by another key, lists each node exactly once in reader order |
| ManuscriptStores.BothWalks | src/gov_webui/adapter.py:1885-1901 | Reading one manuscript by the depth-first walk and by the export walk gives equal sequences, in reader order |
| ReadingOrder.OneReadingOrder | src/gov_webui/adapter.py:1885-1901 | Two complete walks in reader order are equal, so the export agrees with the store |
| ReadingOrder.ParentsFirst | src/gov_webui/manuscript_store.py:147-164 | In reader order parents precede children and siblings follow their positions |
| ReadingOrder.PathInjective | src/gov_webui/manuscript_store.py:120-131 | The positions from the root identify a node |

## Left out

- SQLite, file locks, fsync and temporary files: each commit is one atomic step.
- The evidence store's encryption, expiry and purge: a reference stays readable or not, as an input to an acceptance.
- Delivery digests, token estimates, usage accounting, provider metadata, timestamps, event payloads and error wording.
- The summary prompt version, which is a constant of the code.
- Normalising the fallback policy and trimming the client request id: the frozen value is taken as normalised.
- Random identifiers: fresh ids are inputs, and a create is given an unused one.
- Moving a conversation to another project: it leaves its store. A fork is the first state of a new conversation.
- One project, hence one project lock, in `System`; the acceptance lock is taken atomically and released when a call ends or crashes.
- Edits of canon or guidance in the middle of an acceptance: both sides take the project lock, so such an edit waits.
- Maintenance.ContextMaintainer.Maintain: a process may end at any provider call, which stands for every moment between two saves; its end between the final checkpoint and the summary file is not an input of its own, and leaves the checkpoint stated for success with the earlier summary.
- Maintenance.ContextMaintainer.RunBatch: the concurrent calls of a batch are taken in batch order; their order is not observable in what is kept or reported.
- Maintenance.ContextMaintainer.MaintainWithRetries: all attempts are for the same messages, as long as the conversation does not grow while it waits; what growth costs an attempt is Maintenance.GrowthCost. The waiting times are not modelled.
- The text of prompts, the JSON of summaries and the division of facts into six sections: prompt sizes, parsing and rendering are arbitrary functions, and the compaction limits are applied to the flattened facts. Receipts and usage of summary nodes are dropped.
- Floating-point rounding of the token multiplier: it is a real number between 1 and 2.
- The worker's preparation of configuration files, its command log, and the internals of ag-ng and Docket: an inspection's program counter is an input. One worker process is assumed.
- Manuscript titles, kinds, statuses and their validation, `update` and `list_nodes`: they touch neither parents nor positions.
- Loading a corrupt or hand-edited file, and a failed save that leaves memory ahead of disk.
- FastAPI routes, browser code, the daemon client, provider transports, backup and synthetic workers, and the library, artifact, canon-review, snapshot and project stores.
- Style policy: overlapping matches make replacement by saved offsets lose text, so there is no clean property to state.
