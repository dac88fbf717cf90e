# A verified model of the multi-agent runtime

The runtime lets agents act for a tenant: it stores plans as tasks of ordered steps, hands
steps to workers under leases, asks humans for approval, plans agent runs with a bounded
number of model calls, and answers customers in conversations, one reply per inbound event.
Many workers, operators and webhooks share one SQL store; each write transaction is atomic,
but what a worker read before its write may be stale.

This project models those coordinators in Dafny and proves what holds over every run, for
any number of participants and any interleaving:

* **Engine** (`Tasks`, `Store`, `EngineSpec`, `EngineProofs`, `EngineRuntime`): submission,
  approval, claims, reports, cancel, reconcile, freeze, devices and inbound events.
* **Agent loop** (`AgentLoopSpec`, `AgentLoopProofs`, `AgentLoopRuntime`): reserve, commit
  under a savepoint, repair, retirement.
* **Conversations** (`ConversationSpec`, `ConversationProofs`, `OrderCapture`,
  `ConversationRuntime`, `RunInput`): queued, open, delivering and terminal turns, history,
  takeovers, and the order a settled turn's run has drafted.
* **By their causes** (`EngineCauses`, `LoopCauses`, `TurnCauses`, `TaskCauses`): when each
  transaction is accepted, refused, retired or repaired and what becomes of the row, in terms of
  the store, the plan and the directory alone; and, over every run, that no task, agent run or
  turn ever changes but by one operation whose cause held at that moment.
* **The whole** (`Protocol`, `Runs`, `TurnRuns`, `Handoffs`, `Provenance`): all of them as one
  state machine whose state also holds every fact a worker ever read and every claim ever
  handed out; nothing is forgotten, so crashes, duplicates and arbitrarily late writes are runs
  too. `Instances` holds short concrete runs that reach what the exact conditions exclude.
* **Beside them**: session families, memberships and roles (`Sessions`, `Memberships`), the
  planner pool (`PlannerPool`), the business graph's one-pass index and what it shows
  (`BusinessGraph`, `GraphReadings`), accounts-payable arithmetic (`Money`, `FraudSignals`), the release
  manifest's streamed digest (`ManifestDigest`) and the catalog's YAML scalars (`YamlScalar`).

How it is built. One store is a value, `Store.Db`, with one invariant, `Store.Inv`, over all
tables, and one relation, `Store.Evolves`, of what no operation undoes. Each transaction is a
function on that value, and a lemma named `...ByCause` (for a claim, `ClaimTries`) says when it
is accepted and what it leaves without using the function's own parts. The classes `Engine`, `AgentLoop`, `ConversationTurns` and
`IdentityStore` carry the transactions out row by row over mutable tables, with the loops,
refreshes and rollbacks of the program, and each method's contract says that it does exactly
what its function says. The theorems over runs are about those functions.

What is assumed. Identities and claim tokens are fresh. Digests are injective, so a
fingerprint is the value it is computed from. Policies, tool registry, schemas, provider
bindings and directory are parameters of every operation and may change arbitrarily between
two of them. A transaction reads the clock once. Time is unconstrained, except that a turn is
recorded no earlier than the turns before it. Idempotency keys are encoded injectively, and
any caller may use any of them. The tenant is fixed: every row belongs to it.

What was found on the way, each stated by a member below:

* A replayed submission is checked against the current policy before its key is looked at,
  so it returns its task exactly when the plan still passes the gates
  (`ResubmitReturnsSameTask`).
* Claiming for a device that is not enrolled, or revoked, raises after the lease recovery and
  rolls it back, so expired leases survive exactly such a claim (`ClaimRecoversLeases`,
  `RevokedDeviceKeepsExpiredLease`).
* A cancelled task stays cancelled, whatever happens next, if and only if none of its steps is
  running (`CancelledIsFinalIff`, `CancelledIsNotAlwaysFinal`); either way nothing of it is
  dispatched again (`CancelledForGood`).
* A reply suppressed by a takeover is recorded for a human if and only if it had been settled
  with a reason against it or its order was refused when it was settled; a suppressed answer
  that was fine has no handoff (`SuppressedHandoffIff`, `SuppressedWithoutHandoff`,
  `SuppressedWithHandoff`).
* A turn delivered with its run's own answer can have a handoff too: if and only if its order
  was refused (`AnsweredHandoffIff`, `AnsweredWithHandoff`).
* Storing a document before checking it leaves its comparison population as it was if and only
  if the supplier's rows fit the history with it, or it joins them beyond the history, or the
  row it pushes out is in another currency (`PriorIgnoresItselfIff`); otherwise, for every
  limit, it can hide the whole history (`StoringFirstCanHideHistory`).
* A source that refuses the agent ends a graph read over the index always, and a read of the
  ids alone only if it comes before the limit is passed (`IdentifiersRead`).
* `yaml_str` has a branch for eight-digit escapes; nothing reaches it
  (`EscapesAreFourDigits`).

## Model

| member | source | states |
|---|---|---|
| TaskCauses.TasksChangeForCause | api-python/platform_runtime/engine.py:691-869 | over every run, whenever a task changes one operation did it, for a cause that held then and with exactly that cause's effect: a decision by someone who may, a claim, a report by the claim's holder, a cancel, an owner's reconciling, freeze or device change, or the end of the agent run that waits for it |
| TaskCauses.ClaimMissesNobody | api-python/platform_runtime/engine.py:728-735 | a claim hands out nothing only if no next step of any open task for the device is authorised, and otherwise none of an older task is |
| LoopCauses.ChangesHaveCauses | api-python/platform_runtime/agent_loop.py:141-394 | over every run, whenever an agent run changes one operation on it did so, for a cause that held then and with that cause's effect; in particular every planner call was reserved by a live run whose creator had authority, or repairs a mistaken decision |
| TurnCauses.TurnsChangeForCause | api-python/platform_runtime/conversation.py:301-938 | over every run, turns are recorded as their message says and a turn changes only by one operation whose cause held then: opened under the ceiling, left or suppressed for a takeover, settled, attached, failed, or closed as its send ended |
| Runs.AtMostOnceInOrder | api-python/platform_runtime/engine.py:714-775 | over every run a step is handed to a worker at most once; when it is, everything before it in its task had succeeded and it is fully authorised; afterwards it never waits or is cancelled, and its approval stays consumed |
| Runs.DispatchMoment | api-python/platform_runtime/engine.py:728-774 | at the moment of dispatch the step was waiting under a store that is not frozen, for the claiming device, which is enrolled, and it passes the whole validation again, to the very fingerprint it was submitted with |
| Runs.OneClaimPerStep | api-python/platform_runtime/engine.py:769-775 | at every point of a run each step was claimed at most once, under one token, after everything before it in its task succeeded |
| Runs.OneInFlight | api-python/platform_runtime/engine.py:728-728 | at every point of a run a task has at most one step running or unresolved |
| Runs.OneReport | api-python/platform_runtime/engine.py:777-785 | a report is accepted only from the holder of the step's one claim, inside its lease, once; the result and the reported status stand for ever, except that an uncertain report may be reconciled |
| Runs.LostForGood | api-python/platform_runtime/engine.py:777-785 | once a dispatched step is not running, whatever took it away, no report on it is ever accepted again and its result never changes |
| Runs.RunningIsClaimed | api-python/platform_runtime/engine.py:837-846 | every running step belongs to exactly the worker holding its claim, and a frozen tenant has none |
| Runs.CancelledForGood | api-python/platform_runtime/engine.py:651-661 | a task's status is always the refresh of its steps; succeeded and failed never change; after a cancelled step nothing of the task is dispatched again |
| Runs.CancelledIsFinalIff | api-python/platform_runtime/engine.py:813-846 | a cancelled task stays cancelled in every state of every run that goes on from here, if and only if none of its steps is running now |
| Instances.CancelledIsNotAlwaysFinal | api-python/platform_runtime/engine.py:691-712 | a run that reaches a cancelled task which is not finally so: a later step is rejected while the first one runs |
| Runs.TerminalRunIsInert | api-python/platform_runtime/agent_loop.py:141-175 | a terminal agent run never changes again, none of its linked tasks has an open step, and none is ever dispatched |
| Runs.PlanningEnds | api-python/platform_runtime/agent_loop.py:219-270 | however it is reserved, repaired and committed, a run changes at most three times per call of its budget |
| Runs.EarlierActionsSucceeded | api-python/platform_runtime/agent_loop.py:312-371 | at every point of a run, an agent run is within its budgets of calls and actions, its actions are numbered in order, no two of them are the same, and all but the newest have succeeded |
| Runs.AlwaysInv | api-python/platform_runtime/engine.py:336-347 | the joint invariant of the three coordinators holds at every point of every run |
| Runs.AlwaysEvolves | api-python/platform_runtime/engine.py:336-347 | what no operation undoes is not undone between any two points of a run |
| Provenance.NoDispatchWithoutYes | api-python/platform_runtime/engine.py:691-768 | no step that needs approval is dispatched unless earlier in the run a human, with an approver's authority, the owner's role and independence where the policy asked for them, said yes to exactly that step and may still approve it now |
| Provenance.DispatchPassesGates | api-python/platform_runtime/engine.py:745-755 | a dispatched step passes the tool, schema and connection gates of that moment, and is marked as needing approval exactly when the rules, risk and origin of that moment say so |
| Provenance.EveryWriteIsAuthorized | api-python/platform_runtime/engine.py:433-497 | whatever is dispatched and is not a mere read was said yes to earlier in the run by a human who may still approve it, or is an autonomous agent's send, not listed for approval, to a recipient allowlisted now or to its verified event's conversation |
| Provenance.YesWasSaid | api-python/platform_runtime/engine.py:691-712 | every approval found in the store was given by its actor in an accepted decision or operator reply |
| Provenance.DeliveredReplyWasDecided | api-python/platform_runtime/conversation.py:801-938 | a reply delivered without a handoff reason is what the planner decided in a decision committed for the run of that very event, cut at most at its end, and was read, after that decision and before it was written, with its numbers grounded |
| Provenance.ConclusionWasDecided | api-python/platform_runtime/agent_loop.py:272-310 | every concluded run was concluded by one committed decision carrying exactly its answer and evidence, or its question |
| TurnRuns.OneBusyTurn | api-python/platform_runtime/conversation.py:678-735 | at every point at most one turn of a conversation is open or delivering, and at most twenty turns of the tenant are open, although the busy check is in an earlier read |
| TurnRuns.TakenInOrder | api-python/platform_runtime/conversation.py:678-756 | once a turn left the queue, every turn recorded before it in its conversation is over for good |
| TurnRuns.DeliveredForGood | api-python/platform_runtime/conversation.py:858-938 | a delivered turn is its event's only turn, its task the only one under the event's key, succeeded, and both stay so |
| TurnRuns.DuplicateDeliveriesAgree | api-python/platform_runtime/conversation.py:884-906 | delivering the same turn again, after a crash or by a second worker, is given the task it already has |
| TurnRuns.DeliveredOnce | api-python/platform_runtime/conversation.py:909-938 | a turn that ends delivered was delivered exactly once, any other turn never |
| TurnRuns.AgentLinesAreDeliveries | api-python/platform_runtime/conversation.py:925-938 | an agent line joins a conversation exactly when one of its turns is delivered, as the newest line, with that turn's reply |
| Handoffs.NobodyForgotten | api-python/platform_runtime/conversation.py:842-938 | a turn that is over has a handoff, then and for ever: never if it was throttled; if delivered with its run's own answer, exactly when its order was refused; if a takeover suppressed it, exactly when its reply had been settled with a reason or its order was refused; and always otherwise |
| Handoffs.SuppressedHandoffIff | api-python/platform_runtime/conversation.py:842-879 | a turn whose reply a takeover suppresses has a handoff in every later state if and only if the reply had been settled with a reason or its order was refused then |
| Handoffs.AnsweredHandoffIff | api-python/platform_runtime/conversation.py:631-661 | a turn being or having been answered with its run's own answer has a handoff if and only if settling it refused its order |
| Handoffs.NoOrderLost | api-python/platform_runtime/conversation.py:631-661 | once a turn is settled whose run drafted a valid order, the order's key has a task or the turn a handoff, for ever; and the settling leaves a task if and only if it did not hand the order off |
| Instances.SuppressedWithoutHandoff | api-python/platform_runtime/conversation.py:868-879 | a run that reaches a suppressed turn which no handoff records |
| Instances.AnsweredWithHandoff | api-python/platform_runtime/conversation.py:655-660 | a run that reaches a turn about to be answered with its run's own answer which has a handoff, for its order |
| Instances.SuppressedWithHandoff | api-python/platform_runtime/conversation.py:655-660 | a run that reaches a suppressed turn which was settled without a reason and has a handoff, for its order |
| TurnRuns.HistoryIsWindow | api-python/platform_runtime/conversation.py:288-298 | a conversation's history is always a contiguous window of at most forty lines ending at the newest |
| Protocol.StepKeeps | api-python/platform_runtime/engine.py:336-347 | every operation, from any state, keeps the invariant, every fact any worker remembers, and the record of claims |
| Protocol.EngineStepKeeps | api-python/platform_runtime/engine.py:714-775 | among all engine operations only a claim hands out a step, and then exactly one, authorised |
| Protocol.ReadIsTrue | api-python/platform_runtime/conversation.py:678-735 | what a conversation worker reads, or makes of what it read, satisfies the condition under which acting on it later is safe |
| ConversationProofs.HeldSurvives | api-python/platform_runtime/conversation.py:678-735 | a fact a worker read stays true, as far as acting on it needs, under anything others do |
| ConversationProofs.NextInLine | api-python/platform_runtime/conversation.py:683-691 | the candidate is the turn recorded before every other that waits in a conversation with nothing busy |
| ConversationProofs.QueueTakes | api-python/platform_runtime/conversation.py:724-735 | taking a stale candidate that is still queued keeps the queue discipline |
| ConversationProofs.CandidateIsAtHead | api-python/platform_runtime/conversation.py:683-691 | the candidate query finds the oldest queued turn of its conversation with nothing busy |
| ConversationProofs.AppendedIsWindow | api-python/platform_runtime/conversation.py:288-298 | appending a line keeps the longest contiguous suffix within the bound, ending with the new line |
| OrderCapture.SettleAndOrderKeeps | api-python/platform_runtime/conversation.py:842-856 | settling a turn together with its order keeps the joint invariant and dispatches nothing |
| OrderCapture.SettledOutcome | api-python/platform_runtime/conversation.py:842-856 | the settled turn has its reply and reason, and a handoff if and only if there is a reason or its order is refused, judged by the store before the write |
| OrderCapture.OrderIsTaskOrRefused | api-python/platform_runtime/conversation.py:631-661 | a valid draft has a task under the order's own key, or is refused, never both; a new task is exactly the drafted order, for a customer with no other order undecided |
| OrderCapture.DraftIsLatest | api-python/platform_runtime/conversation.py:600-615 | the draft taken is that of the last action with a valid one, and none only if none has one |
| TaskCauses.TokensAreFresh | api-python/platform_runtime/engine.py:769-775 | over every run no two claims ever share a token |
| TaskCauses.ParentByCause | api-python/platform_runtime/engine.py:378-385 | a task belongs to the agent run its key names, if to any, and is allowed if and only if that run waits for it, its newest action, with time left |
| LoopCauses.ReserveByCause | api-python/platform_runtime/agent_loop.py:219-270 | a call is reserved if and only if the run is live, in time, not planning, its creator has authority, the tenant is not frozen, the awaited task and the whole history succeeded, a call is left and the history fits; it is retired if and only if one of the listed causes holds, with the status and error of each; else nothing changes |
| LoopCauses.CommitByCause | api-python/platform_runtime/agent_loop.py:312-394 | a planner result that is not the awaited one changes nothing; the awaited one is carried out, repaired or escalated, each if and only if its cause holds, with the run and task each leaves |
| LoopCauses.CreateByCause | api-python/platform_runtime/agent_loop.py:67-113 | asking for a run gives the run of that key if it was asked for in the same words, a conflict if not, and a new one if there is none, the tenant works and fewer than a hundred are live |
| LoopCauses.CancelByCause | api-python/platform_runtime/agent_loop.py:177-184 | a member retires a live run as cancelled, its current task with it; uncertain if that task is |
| EngineProofs.ClaimTries | api-python/platform_runtime/engine.py:714-775 | a claim first doubts every expired lease; then each candidate, oldest first up to the first authorised one, becomes running if and only if authorised now, waiting with its approval untouched if and only if only a human yes is missing, cancelled with its approval rejected if and only if its run does not wait for it, and failed otherwise, for the reason of its cause |
| EngineCauses.PlanByCause | api-python/platform_runtime/engine.py:433-497 | a plan is valid if and only if its agent is known and each step passes every gate, and each step is fingerprinted with its risk, rules, binding and whether anybody has to be asked |
| EngineCauses.SubmitByCause | api-python/platform_runtime/engine.py:499-567 | a submission in order is given the task of its key if that has its plan, a conflict if not, and a new one, every step queued with an undecided approval of its own where one is needed, if and only if there is none and there is room |
| EngineCauses.ReplyByCause | api-python/platform_runtime/engine.py:601-649 | an operator's reply is one task whose send needs an approval and has its author's, unless the rules want independence; accepted if and only if the author may approve, the conversation is known and the plan is valid |
| EngineCauses.ApproveByCause | api-python/platform_runtime/engine.py:691-712 | an approval is decided if and only if the decider may and it is undecided and unexpired while its step waits; a yes queues the step, a no cancels it |
| EngineCauses.FinishByCause | api-python/platform_runtime/engine.py:777-785 | a report is taken if and only if the claim stands, and the step becomes what it says |
| EngineCauses.CancelByCause | api-python/platform_runtime/engine.py:813-823 | cancelling a task that is not over doubts its running step, cancels its waiting ones and rejects the approvals nobody used |
| EngineCauses.ReconcileByCause | api-python/platform_runtime/engine.py:825-835 | an owner with evidence settles an uncertain step as succeeded if said to have succeeded, else as failed |
| EngineCauses.FreezeByCause | api-python/platform_runtime/engine.py:837-846 | an owner stops the tenant, doubting every running step and no other, or resumes it, changing nothing else |
| EngineCauses.EnrollByCause | api-python/platform_runtime/engine.py:848-869 | a device change begins a new generation and ends every open step of the old one |
| EngineCauses.ReceiveByCause | api-python/platform_runtime/engine.py:871-890 | an event is accepted once, if and only if sender and tenant may and there is room; a replay is recognised by its payload |
| EngineCauses.LeaseByCause | api-python/platform_runtime/engine.py:898-921 | of the events that are due and wanted the one accepted first is leased for two minutes under a fresh claim, unless the tenant is frozen |
| EngineCauses.CloseByCause | api-python/platform_runtime/engine.py:952-958 | a settled event has its outcome, or its failure and no outcome, only under the claim that leased it |
| EngineCauses.RepeatByCause | api-python/platform_runtime/engine.py:960-971 | a failed event, and no other, is put back, if member, tenant and sender may |
| ConversationProofs.SettledReplyMeans | api-python/platform_runtime/conversation.py:815-841 | a turn is settled if and only if its run has ended; without a reason if and only if the run answered or asked, the reply is grounded and not blank, with the answer cut to the channel; else with the one reason that holds, and the fallback or default text cut likewise |
| TurnCauses.RecordByCause | api-python/platform_runtime/conversation.py:301-338 | an inbound message becomes one turn, once, throttled if and only if three of its sender's wait, with the customer's line |
| TurnCauses.CloseByCause | api-python/platform_runtime/conversation.py:909-938 | a delivering turn is closed as its send ended: delivered with the agent's line, or failed or uncertain with a handoff |
| TurnCauses.SendByCause | api-python/platform_runtime/conversation.py:884-906 | a worker that submits a reply attaches the event's task, the one there is or the new one, tries again while the tenant is full, and fails the delivery if the tenant is stopped or the reply may not be submitted |
| TurnCauses.AnnounceByCause | api-python/platform_runtime/operator_reply.py:42-76 | exactly a delivered operator reply not announced before joins its conversation, and its author takes over |
| TurnCauses.LinesJoinForCause | api-python/platform_runtime/conversation.py:288-298 | over every run, a line joins a conversation only because a customer wrote it, an operator's reply was sent, or the agent's was delivered, and is exactly that text |
| TurnCauses.AnnouncedOnce | api-python/platform_runtime/operator_reply.py:42-76 | over every run, an operator's reply joins its conversation at most once |
| TurnCauses.OrderIsLatestDraft | api-python/platform_runtime/conversation.py:600-615 | the order made is the one the run's latest drafting action drafted, where the settings want orders |
| TurnCauses.OrderKeyByCause | api-python/platform_runtime/conversation.py:617-661 | an order's own key, shortened or not, is recognised as one of an order |
| TurnCauses.OrderByCause | api-python/platform_runtime/conversation.py:617-661 | a drafted order is refused as pending if and only if it is no task yet and the sender's last order waits, and as rejected if and only if none waits and it may not be submitted |
| Memberships.RoleWasGranted | api-python/app/identity_store.py:258-294 | over every run, whoever holds a role was given exactly that role: by founding the workspace, as its owner, or by accepting an invitation for that role, made out to that user's address by an owner |
| Memberships.OnlyFoundersOwn | api-python/app/identity_store.py:204-212 | over every run, an owner founded the workspace |
| Memberships.MembershipsChangeForCause | api-python/app/identity_store.py:204-320 | over every run, a membership changes only by founding, joining or revocation, each by who may, never revoking the last owner |
| Memberships.AcceptByCause | api-python/app/identity_store.py:271-294 | an invitation is accepted if and only if it is unexpired, unused, made out to the user and still backed by an owner, and gives its own role under a new version, unless the user is seated |
| Memberships.InviteByCause | api-python/app/identity_store.py:204-268 | only an owner invites, to any role but an owner's, for five minutes to a week; only an active user founds a workspace, under a free name |
| Memberships.RevokeByCause | api-python/app/identity_store.py:309-320 | an owner revokes an active membership, never the last owner's, and ends exactly the sessions of that seat |
| Memberships.LogoutByCause | api-python/app/identity_store.py:379-393 | logging out ends exactly the token's family, logging out everywhere exactly the user's sessions |
| Memberships.CreateByCause | api-python/app/identity_store.py:331-345 | a session is issued if and only if its time is within bounds and its user may sign in, starts a family, and works exactly until its time is up |
| Memberships.WorksUntilEnded | api-python/app/identity_store.py:331-393 | over every run, a session keeps working until its time is up or one of the listed operations ends it |
| Memberships.FamilyRunsOut | api-python/app/identity_store.py:356-376 | over every run, however often it is rotated, no member of a family works past the time its first was issued for |
| Memberships.RotateByCause | api-python/app/identity_store.py:356-376 | a token that works is traded for one that works exactly as long; any other ends its whole family and nothing else |
| Memberships.ValidatesIff | api-python/app/identity_store.py:348-353 | a session validates for its own holder alone, exactly while it is unrevoked, unexpired and under the same membership |
| RunInput.RenderedKeepsWords | api-python/platform_runtime/conversation.py:358-358 | a line is rendered as who said it and the words of its text, the same words in their order, each apart from the next |
| RunInput.SelectedAreLatest | api-python/platform_runtime/conversation.py:354-358 | the lines selected are the latest the turn may read, in order: any other such line is older, and then the number is full |
| EngineProofs.ResubmitReturnsSameTask | api-python/platform_runtime/engine.py:538-552 | resubmitting a plan under its key changes nothing, and returns the same task if and only if the plan still passes the gates |
| EngineProofs.ClaimDispatches | api-python/platform_runtime/engine.py:714-775 | one claim hands out one authorised candidate, its lease unexpired, and nothing else; or nothing at all |
| EngineProofs.TryInOrderDispatches | api-python/platform_runtime/engine.py:729-775 | of the candidates in order the first that is authorised now is handed out and it alone; every one before it became what its own causes say, and the rest are untouched |
| EngineProofs.DispatchIsAuthorized | api-python/platform_runtime/engine.py:738-769 | a dispatched step has the policy, risk, approval need and binding it was submitted with, passes every gate again, and has a destination that is allowed now |
| EngineProofs.RevalidationMeans | api-python/platform_runtime/engine.py:433-497 | validating a step again to its own fingerprint means that every gate holds now and that the approval need recomputed now is the submitted one |
| EngineProofs.ClaimRecoversLeases | api-python/platform_runtime/engine.py:714-727 | after a claim no running step is past its lease, if and only if none was before or the claim is well formed and the tenant is stopped or the device is none or enrolled; otherwise nothing changed |
| Instances.RevokedDeviceKeepsExpiredLease | api-python/platform_runtime/engine.py:716-727 | a run after which claiming for a revoked device leaves a step running past its lease, for every later moment |
| EngineProofs.RevocationsReachRunningSteps | api-python/platform_runtime/engine.py:813-869 | cancelling a task leaves it no running step; changing a device leaves it no open step |
| EngineProofs.SubmitAddsOneTask | api-python/platform_runtime/engine.py:503-567 | a submission adds its task and nothing else; a refused one adds nothing |
| Authorization.Validate | api-python/platform_runtime/engine.py:433-497 | a validated plan passes every gate step by step; an operator's is exactly one step |
| Authorization.ValidateCall | api-python/platform_runtime/engine.py:453-496 | destructive and physical steps always need approval, operator replies too, and an unattended write is an autonomous agent's outbound send |
| Authorization.ValidatePlan | api-python/platform_runtime/engine.py:433-497 | the loop stops at the first refused step and agrees with validating them all |
| EngineSpec.OperatorOriginOf | api-python/platform_runtime/engine.py:569-593 | an operator's reply is bound to a known conversation of the send's own channel |
| AgentLoopProofs.StopKeeps | api-python/platform_runtime/agent_loop.py:141-175 | retiring a live run retires its current task with it and ends the run abandoned |
| AgentLoopProofs.CurrentIsAlwaysLinked | api-python/platform_runtime/agent_loop.py:145-151 | the branch for a current task that is not linked to its run is never taken |
| AgentLoopProofs.CommitIsAtomic | api-python/platform_runtime/agent_loop.py:332-371 | a commit leaves exactly one new link with its task, or no task and no link at all |
| AgentLoopProofs.CommitKeeps | api-python/platform_runtime/agent_loop.py:312-394 | committing, repairing or rejecting a decision keeps the joint invariant and dispatches nothing |
| AgentLoopProofs.ReserveKeeps | api-python/platform_runtime/agent_loop.py:219-270 | reserving spends a call only on a run whose whole history succeeded, and strictly uses up its fuel |
| Tasks.RefreshMeans | api-python/platform_runtime/engine.py:651-661 | the status of a task by its steps, each one if and only if: doubt before failure before cancellation, success when all of it succeeded, else running, waiting, queued |
| Store.TasksMoveKeeps | api-python/platform_runtime/engine.py:336-347 | runs and turns survive whatever happens to the tasks they are linked to |
| EngineRuntime.Engine.Submit | api-python/platform_runtime/engine.py:499-528 | the row-by-row submission is the transaction the theorems are about |
| EngineRuntime.Engine.OperatorReply | api-python/platform_runtime/engine.py:601-649 | the same for an operator's reply |
| EngineRuntime.Engine.Approve | api-python/platform_runtime/engine.py:691-712 | the same for a decision on an approval |
| EngineRuntime.Engine.Claim | api-python/platform_runtime/engine.py:714-775 | recovery loop, candidate query and candidate loop together, with the rollback for a revoked device: the transaction that ClaimTries states by its causes |
| EngineRuntime.Engine.RecoverTask | api-python/platform_runtime/engine.py:718-722 | doubting expired rows one at a time, refreshing after each, ends in the refreshed task |
| EngineRuntime.OldestFirst | api-python/platform_runtime/engine.py:728-728 | the candidate rows are all of them, once each, oldest task first |
| EngineRuntime.Engine.Finish | api-python/platform_runtime/engine.py:777-785 | the row-by-row report is the transaction the theorems are about |
| EngineRuntime.Engine.Cancel | api-python/platform_runtime/engine.py:813-823 | the same for cancelling, with its two updates |
| EngineRuntime.Engine.Reconcile | api-python/platform_runtime/engine.py:825-835 | the same for reconciling |
| EngineRuntime.Engine.Freeze | api-python/platform_runtime/engine.py:837-846 | one update of all running rows and a refresh of only the tasks it touched freeze the whole tenant |
| EngineRuntime.FreezeByRows | api-python/platform_runtime/engine.py:841-845 | refreshing only tasks that had a running step is enough |
| EngineRuntime.Engine.EnrollDevice | api-python/platform_runtime/engine.py:848-869 | two updates and a refresh of only the affected tasks withdraw everything bound to the device |
| EngineRuntime.UnbindByRows | api-python/platform_runtime/engine.py:858-865 | refreshing only tasks with an open step of the device is enough |
| EngineRuntime.StatusOf | api-python/platform_runtime/engine.py:651-661 | the status computed from the list of step states, in the order of the branches |
| EngineRuntime.Engine.AcceptEvent | api-python/platform_runtime/engine.py:871-890 | the row-by-row acceptance is the transaction the theorems are about |
| EngineRuntime.Engine.ClaimEvent | api-python/platform_runtime/engine.py:898-921 | of the events due on the wanted channels the one accepted first is leased under a fresh claim; none is only if none is due or the tenant is frozen |
| EngineRuntime.Engine.SettleEvent | api-python/platform_runtime/engine.py:952-958 | the outcome, or the reason of the failure, is written only under the claim that leased the event |
| EngineRuntime.Engine.RetryEvent | api-python/platform_runtime/engine.py:960-971 | only a failed event returns to the queue, for a caller and a sender who still have authority |
| AgentLoopRuntime.AgentLoop.Create | api-python/platform_runtime/agent_loop.py:67-113 | the row-by-row creation is the transaction the theorems are about |
| AgentLoopRuntime.AgentLoop.Stop | api-python/platform_runtime/agent_loop.py:141-175 | the same for retirement |
| AgentLoopRuntime.StopByRows | api-python/platform_runtime/agent_loop.py:152-171 | refreshing once, and only a task that was still open, is enough: withdrawing approvals changes no status |
| AgentLoopRuntime.AgentLoop.Cancel | api-python/platform_runtime/agent_loop.py:177-184 | the same for cancelling a run |
| AgentLoopRuntime.AgentLoop.Reserve | api-python/platform_runtime/agent_loop.py:219-270 | the row-by-row reservation is the transaction that ReserveByCause states by its causes |
| AgentLoopRuntime.AgentLoop.Observations | api-python/platform_runtime/agent_loop.py:186-207 | a history is observable exactly when it is complete, succeeded throughout, and fits |
| AgentLoopRuntime.AgentLoop.Decision | api-python/platform_runtime/agent_loop.py:272-310 | the checks of one planner decision, in their order |
| AgentLoopRuntime.AgentLoop.Commit | api-python/platform_runtime/agent_loop.py:312-394 | the row-by-row commit, rolling the tables back to the savepoint before a repair or a retirement, is the transaction that CommitByCause states by its causes |
| ConversationRuntime.ConversationTurns.RecordTurn | api-python/platform_runtime/conversation.py:301-338 | the row-by-row recording is the transaction the theorems are about |
| ConversationRuntime.ConversationTurns.Append | api-python/platform_runtime/conversation.py:288-298 | insert, then delete what is too old |
| ConversationRuntime.ConversationTurns.ReadCandidate | api-python/platform_runtime/conversation.py:678-691 | the read finds the next queued turn, safe to act on later, and finds none only if there is none |
| ConversationRuntime.ConversationTurns.WriteOpen | api-python/platform_runtime/conversation.py:724-735 | the compare-and-set, with the ceiling counted again inside it |
| ConversationRuntime.ConversationTurns.WriteLeave | api-python/platform_runtime/conversation.py:737-755 | the compare-and-set that leaves a turn to the operator, with its handoff |
| ConversationRuntime.ConversationTurns.ReadSettled | api-python/platform_runtime/conversation.py:801-841 | the first open turn whose run has ended is found, and none only if there is none or the tenant is frozen; it is settled without a reason exactly when the run answered, grounded and not blank, and each reason has its cause; the scan's row limit hides nothing |
| ConversationRuntime.ConversationTurns.WriteSettle | api-python/platform_runtime/conversation.py:842-856 | the compare-and-set that fixes the reply, its handoff, and in the same transaction the order with its own handoff |
| ConversationRuntime.ConversationTurns.CaptureOrder | api-python/platform_runtime/conversation.py:631-661 | the row-by-row capture, rolling a refused submission back to its savepoint, is the one the theorems are about |
| ConversationRuntime.ConversationTurns.FindDraft | api-python/platform_runtime/conversation.py:600-615 | going back from the latest action finds the draft |
| ConversationRuntime.ConversationTurns.Suppress | api-python/platform_runtime/conversation.py:868-879 | a takeover suppresses only a reply not yet submitted |
| ConversationRuntime.ConversationTurns.WriteAttach | api-python/platform_runtime/conversation.py:900-906 | the compare-and-set that attaches the reply's task |
| ConversationRuntime.ConversationTurns.Finish | api-python/platform_runtime/conversation.py:663-674 | ending a delivery unanswered always hands it off, and always reports progress |
| ConversationRuntime.ConversationTurns.WriteClose | api-python/platform_runtime/conversation.py:919-938 | delivered with its agent line, or failed, or uncertain, by the task's status |
| ConversationRuntime.ConversationTurns.Announce | api-python/platform_runtime/operator_reply.py:42-76 | a delivered operator reply joins its conversation once and starts the takeover in the same transaction |
| RunInput.RunInput | api-python/platform_runtime/conversation.py:341-362 | at most 4000 characters; of the latest lines the turn may read the fewest oldest are dropped; the current message is cut only if it alone does not fit; each kept line has one newline, at its end |
| RunInput.Dropped | api-python/platform_runtime/conversation.py:360-361 | the fewest oldest lines that must go for the input to fit, or all of them |
| RunInput.KeepsLongestSuffix | api-python/platform_runtime/conversation.py:360-361 | what is kept is the longest suffix that fits |
| RunInput.RenderedIsOneLine | api-python/platform_runtime/conversation.py:358-358 | no message can forge a second line |
| Sessions.ReplayKillsFamily | api-python/app/identity_store.py:356-376 | once a revoked, expired or orphaned token is presented, no member of its family validates or rotates again |
| Sessions.RevokedMembershipEndsSessions | api-python/app/identity_store.py:309-320 | a workspace session issued before a revocation never validates again, even after the membership is granted again |
| Sessions.FamilyIsOneChain | api-python/app/identity_store.py:331-336 | a family is one chain, each member rotated from the one just before it, with one holder and one expiry, and only the newest may be unrevoked |
| Sessions.WorkspaceKeepsOwner | api-python/app/identity_store.py:314-315 | no sequence of operations leaves a workspace without an owner's active membership; whether that owner's user is active is another matter |
| Sessions.InvitationIsSingleUse | api-python/app/identity_store.py:279-294 | an invitation is accepted at most once |
| Sessions.ApplyKeeps | api-python/app/identity_store.py:279-393 | every operation keeps the chains, the versions and the owners, and revives nothing |
| Sessions.IdentityStore.RotateSession | api-python/app/identity_store.py:356-376 | the row-by-row rotation is the transaction that RotateByCause states by its causes |
| Sessions.IdentityStore.Revoke | api-python/app/identity_store.py:309-320 | the same for revoking a membership |
| Sessions.IdentityStore.AcceptInvitation | api-python/app/identity_store.py:279-294 | the row-by-row acceptance is the transaction that AcceptByCause states by its causes |
| PlannerPool.Pool.Pump | api-python/app/worker.py:199-227 | the pump terminates, keeps the pool's and each tenant's bound and never plans a run twice; it ends with the pool full or with every entry out of the rotation for a reason it met during this pump; every call it starts is its entry's next one while there is room, and comes after every tenant that is ahead in the rotation, which begins at the turn, was served or excused; and no entry starts two calls more than one that stays in the rotation |
| PlannerPool.Pool.Round | api-python/app/worker.py:210-226 | one pass starts at most one call per entry, shortens the rotation or fills the pool, and drops no entry without a reason |
| PlannerPool.Pool.Visit | api-python/app/worker.py:211-226 | an entry's next call is started, or the entry leaves the rotation because its budget cannot be read, its tenant has no room left, it raised, or it has nothing to do |
| PlannerPool.Pool.ReserveNext | api-python/platform_runtime/agent_loop.py:415-432 | the run returned is the first candidate, past the ones already held, that is due a call; none only if every one of them was asked and none is due; an error only if the first one not passed raised |
| PlannerPool.Pool.Room | api-python/app/worker.py:187-197 | room is the greatest number of calls that keeps the tenant's bound and the budget's parallel limit, counted both by the pool and by the budget |
| PlannerPool.Pool.Reap | api-python/app/worker.py:162-170 | exactly the finished calls are forgotten |
| GraphReadings.ObservedIff | api-python/platform_runtime/business_graph.py:501-540 | an observation is in the view of an id if and only if the row that counts for it, the first about it among the first two hundred of a source that was read, says so in the field the source maps the attribute to |
| GraphReadings.InDeclaredOrder | api-python/platform_runtime/business_graph.py:501-540 | observations stand in the declared order of their sources |
| GraphReadings.SightedIff | api-python/platform_runtime/business_graph.py:444-491 | an id is known if and only if a source that was read has a row about it among its first two hundred |
| GraphReadings.FirstSeenFirst | api-python/platform_runtime/business_graph.py:444-491 | ids stand in the order in which they are first seen |
| GraphReadings.MayHoldMoreIff | api-python/platform_runtime/business_graph.py:444-491 | a source is named as incomplete if and only if it says so itself or returned more than two hundred rows |
| GraphReadings.FailedIff | api-python/platform_runtime/business_graph.py:444-491 | a source is named as failed if and only if reading it failed |
| BusinessGraph.CollectAll | api-python/platform_runtime/business_graph.py:444-491 | the one-pass index holds for every id exactly what reading for that id alone returns, in order of first sighting, and each source's status and the sources that could not be read |
| BusinessGraph.Collect | api-python/platform_runtime/business_graph.py:501-540 | reading for one id returns, source by source, what its first row says |
| BusinessGraph.IdentifiersRead | api-python/platform_runtime/business_graph.py:632-657 | reading the sources again is refused if and only if a source refuses before the limit is passed; otherwise it gives the same ids and the same cut as the index, and the sources that could not be read before it stopped |
| BusinessGraph.IdentifiersCollected | api-python/platform_runtime/business_graph.py:621-631 | the first ids of the index, cut if and only if there is one more |
| BusinessGraph.Search | api-python/platform_runtime/business_graph.py:660-703 | the first matches, one for each id some source says the target of, in order of first sighting; each carries the first value read where the sources agree, the preferred source's first value under primary_wins, and the first value otherwise; truncated if and only if one more exists among the scanned ids or a source may hold more rows |
| BusinessGraph.FindConflicts | api-python/platform_runtime/business_graph.py:706-734 | every disagreement, and nothing else, with each observation and what a view shows: the preferred source's first value under primary_wins and nothing otherwise |
| BusinessGraph.OnlyObservedMatter | api-python/platform_runtime/business_graph.py:543-575 | going over any sorted list of attributes finds the conflicts of the attributes somebody observed, in their order |
| BusinessGraph.Primary | api-python/platform_runtime/business_graph.py:578-592 | the first source of the declared order that supplied the attribute, and the one read first only if none of the order did |
| Money.AmountIsFloor | api-python/platform_runtime/documents.py:214-234 | an amount is accepted exactly when well formed, and is the floor of its value times the currency's factor; the range error is unreachable |
| Money.AmountByCause | api-python/platform_runtime/documents.py:214-234 | an amount is accepted if and only if it is written as one, up to fifteen digits and possibly a dot and up to six more, between white space, and is then what is written times the factor, rounded down |
| Money.FormatRoundTrip | api-python/platform_runtime/documents.py:237-244 | reading a printed amount gives it back exactly when its whole part has at most fifteen digits, and is refused otherwise |
| Money.NormalizeAmounts | api-python/platform_runtime/documents.py:342-375 | a document is accepted exactly when its amounts are well formed and its total is the sum of quantity times unit amount |
| Money.LineItems | api-python/platform_runtime/documents.py:282-329 | lines are accepted exactly when there are few enough and each is valid, and carry quantity times unit amount |
| FraudSignals.PriorIgnoresItselfIff | api-python/platform_runtime/documents.py:662-699 | storing a first-seen document before checking it leaves its comparison population as it was if and only if the rows fit the history with it, or it joins them beyond the history, or the row it pushes out is in another currency |
| FraudSignals.StoringFirstChangesNothing | api-python/platform_runtime/documents.py:676-699 | under that condition all its signals are the same |
| FraudSignals.StoringFirstCanHideHistory | api-python/platform_runtime/documents.py:443-448 | for every history limit there is a full history of distinct documents, with numbers the code accepts, in which storing the document first pushes out the only one of its currency |
| FraudSignals.MedianIsOrderIndependent | api-python/platform_runtime/documents.py:623-659 | the median depends on the amounts, not on their order |
| FraudSignals.MedianIsBetweenMiddles | api-python/platform_runtime/documents.py:655-659 | the median lies between the two middle values and is their average rounded down |
| FraudSignals.RaiseSignals | api-python/platform_runtime/documents.py:662-799 | each signal is raised if and only if its condition holds: no comparable row, the total reaches the ratio times a positive median, the bank account differs from the latest row's, the amount is three zeros round or more, a weekend date of a supplier with dates and none on a weekend, a stored original with another amount or currency |
| FraudSignals.RememberKeepsUnique | api-python/platform_runtime/documents.py:405-432 | documents stay unique by kind, supplier and number, and remembering twice is remembering once |
| ManifestDigest.Fed | scripts/verify_manifest.py:40-51 | the bytes fed to the hash are the whole content with every CRLF replaced by LF, however it was split |
| ManifestDigest.LineEndsDoNotMatter | scripts/verify_manifest.py:17-38 | a CR-free text and its CRLF checkout feed the same bytes |
| ManifestDigest.DifferentTextsDiffer | scripts/verify_manifest.py:17-38 | nothing but line ends is forgotten |
| YamlScalar.YamlStr | scripts/import_catalog.py:59-71 | the printed scalar reads back as exactly its value and holds no break, control, surrogate or mark |
| YamlScalar.PieceByCause | scripts/import_catalog.py:55-71 | what can be read stays as it is, and what a loader could take for something else is escaped, by its own letter where the table names one and by four digits otherwise |
| YamlScalar.RoundTrip | scripts/import_catalog.py:59-71 | reading by section 7.3.1 and the escapes of section 5.7 of YAML 1.2 inverts printing, for every sequence of code points |
| YamlScalar.EscapesAreFourDigits | scripts/import_catalog.py:66-68 | everything escaped by number lies in the basic plane |

## Left out

- `tick` and `dispatch_allowed`: the last local fence before a provider call only refuses more.
- Provider bindings of Google, database and connector tools: one opaque function, part of the fingerprint.
- Audit rows, schedules, `list` and `get` readers, and everything outside the tenant.
- Daily event quota and payload size of an inbound event: the quota is a parameter, the size is not bounded.
- `settle_event` as one operation: its read, its submission or recording, and its closing write are separate steps of a run.
- Operator notifications of a handoff or an order: ordinary submissions, which the runs contain, but not as part of the write they ride with.
- The JSON of a draft and of an order task, the order settings and the digest of a long order key: parameters of settling.
- The grounding gate: what it says of a reply's numbers is a parameter of the read that settles the turn.
- Resolving handoffs: a resolution is a record beside the handoff, which stays.
- The text of observations: whether it fits its bounds is a parameter of reserving and committing.
- Text is measured in characters, and white space is that of ASCII.
- Steps and approvals are kept inside their task, one per position and one per step, as their keys demand; deleting rows does not occur.
- Passwords, token entropy, throttling and registration: tokens are fresh, invitations name an email.
- `drain` and the rest of the worker's loop: bounded repetition around the coordinators.
- FraudSignals.RaiseSignals: the calendar is a parameter, and the text and evidence of a signal are reduced to the numbers in it.
- FraudSignals.StoringFirstChangesNothing: one way only; where the population differs, the signals may still agree by accident of the amounts.
- Three-way matching, posting plans and the integer branch of an amount, whose code and description disagree on the unit.
- BusinessGraph.Search: values are the text of their cells, and whether a source reports itself cut off or at its own row ceiling is a parameter of its reading.
- Number recognition in replies, the catalog's CSV parsing, and the manifest's file selection.
