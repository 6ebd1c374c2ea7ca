# A Dafny model of the Pawork host

Pawork drives coding agents for editors and for its own window. This project models the parts of it
where several parties act on shared tables, or where a fast computation stands for a simple meaning,
and proves what each promises.

- `AcpTypes`, `AcpHost`: the ACP host actor as a state machine. Prompt establishment is two steps (up
  to the Core dispatch, and from Core's reply on), because urgent cancels, fail-closed and drains run
  between them. `Log` keeps the histories that the properties speak about.
- `AcpCoupling`, `AcpPrompts`, `AcpPermissions`, `AcpOrder`, `AcpCancel`: what holds over every run of
  that machine: the coupled tables, one holder per prompt, permission accounting, what the client sees
  of a run, and what becomes of a cancel.
- `AcpDecisions`, `AcpTranscript`: what is done for the permissions that a handler touches, and what the
  client can tell from what it is given.
- `AcpMail`: the mail loop in front of it, with its two mailboxes and the deferred queue.
- `AcpActor`: the actor as one class whose methods change its fields in place; every method does to
  `View()` exactly what `AcpHost` says, and the interrupted dispatch is shown to be a run of steps.
- `Ownership`: who may drive a client session, over any number of hosts and registries on one store.
- `Approval`: the GUI approval rendezvous, with any number of threads.
- `Goal`: the goal projection, against a per-run account of usage.
- `Civil`, `Fixture`: days-to-civil conversion, timestamp validation and the printed date.
- `Hub`: the event hub's counter and ring, with publishers serialised and interleaved.
- `AtRefs`: the `@` reference scanner and its JSON string reader.

An attempt (`Attempt`, `log.attempts`) is a call of `dispatch_attached` (crates/acp/src/host.rs:1699-1715) with that
command. It can be refused there, for want of a session context or an attached record, before Core is asked, and Core can
refuse it; neither changes the tables.

The orders in which hash tables are walked are arguments of the model (`Enumerates`), so each property
holds for every such order. Channels are queues; a drain whose acknowledgement timed out is a batch
that may be lost (`LoseBatch`).

What the outside world is assumed to do stands in `AcpHost.World` and in `requires` clauses:

- Core's run ids are new.
- A client does not reuse a JSON-RPC id that is still a running prompt's: the prompt table would lose
  the earlier prompt. `AcpCoupling.BindKeepsLinkedIff` shows that these two are exactly what binding needs.
- The client's id of a reserved prompt is not the number of a pending permission request.
  `AcpCancel.EarlyRequestCancelLandsIff` and `AcpCancel.CollidingCancelIsLost` show what happens otherwise.
- For the order of a run's frames only: an event's stream names the same run as its payload (`StreamsAgree`).

The (epoch, revision) pair is there to keep an old holder from writing back, and does. It does not make
a single owner: a host without a cached pair adopts the current one and dispatches beside the owner
(`Ownership.TwoHostsDispatchIff`), and a host behind another registry is kept from dispatching only once its
own registry has seen the newer pair (`Ownership.StaleRegistryStillDispatches`).

## Model

| member | source | states |
|---|---|---|
| AcpCoupling.BindKeepsLinkedIff | crates/acp/src/host.rs:1169-1182 | binding keeps slots, runs and prompts one-to-one if and only if neither the request id nor the run id is in use |
| AcpCoupling.StepKeepsCoupled | crates/acp/src/host.rs:1102-1202 | every handler keeps the tables coupled: bound slots, runs and prompts in one-to-one correspondence, at most one unbound slot and that the prompt in flight, early flags only on it, published view equal to the actor's maps |
| AcpCoupling.AlwaysCoupled | crates/acp/src/host.rs:1408-1440 | the same over every run of handlers |
| AcpPrompts.StepKeepsLedger | crates/acp/src/host.rs:1563-1579 | no handler duplicates or drops a prompt's completion channel, and none delivers two resolutions to it |
| AcpPrompts.EachPromptHasOneHolder | crates/acp/src/host.rs:1174-1181 | over every run from the start, each bound prompt's completion is in exactly one of: prompt table, queued barrier, drained batch, delivered, lost; and it is delivered at most once |
| AcpPermissions.NumberIsNewIff | crates/acp/src/host.rs:1469-1485 | the next permission number is one never issued, if and only if fewer than 2^64-1 were issued |
| AcpPermissions.DenialsSettleAll | crates/acp/src/host.rs:1593-1595 | the denials of a fail-closed, in whatever order the table is walked, settle exactly the pending permissions, each once |
| AcpPermissions.EveryAskLeavesOnce | crates/acp/src/host.rs:838-902 | over every run, issued requests are exactly the pending ones plus the settled ones, as multisets; none is settled twice and no number is reused |
| AcpPermissions.StepSweepsWithCancel | crates/acp/src/host.rs:1337-1353 | in every handler, each permission newly swept had been pending or was issued in it, is pending no longer, and a RunCancel for its session is among the attempts of that same handler |
| AcpPermissions.SweptOnlyWithCancel | crates/acp/src/host.rs:1306-1354 | over every run, each swept permission was swept by a step with its own RunCancel for the session |
| AcpPermissions.EveryExitIsPaired | crates/acp/src/host.rs:838-902 | each request ever issued is in exactly one place, once: pending, settled by one ToolApprove, or swept by a step that attempted the RunCancel of its session |
| AcpDecisions.StepDecisionsFit | crates/acp/src/host.rs:847-866 | in every step a newly attempted ToolApprove approves if and only if the client answered that request "allow once", cancels the tool if and only if the client cancelled it, and otherwise denies |
| AcpDecisions.AnswerIsPassedOn | crates/acp/src/host.rs:838-876 | the answer to a pending request makes one attempt, for the run and tool that asked, with the decision that was given |
| AcpDecisions.NoApprovalWithoutAllow | crates/acp/src/map.rs:222-231 | over every run, each approval that was attempted answers an "allow once" for that very request |
| AcpDecisions.CancelSweepsIff | crates/acp/src/host.rs:1306-1353 | a session cancel takes exactly the session's permissions from the table and puts one cancel notice for each behind the outbox, if the session's run is bound; else it touches neither |
| AcpDecisions.CancelStepSweeps | crates/acp/src/host.rs:1337-1353 | so do the steps that cancel or close a session |
| AcpDecisions.ReplayedCancelSweeps | crates/acp/src/host.rs:1184-1200 | and so does Core's acceptance of a prompt whose session was cancelled meanwhile, for what is pending once the held events are routed |
| AcpDecisions.ClientSeesIssuedIds | crates/acp/src/host.rs:1469-1496 | over every run, the permission requests shown since the last fail-closed are the latest issued, each under the id it is pending under |
| AcpOrder.BoundRunResolves | crates/acp/src/host.rs:592-601 | whenever a live run's event is encoded, the published view and the actor's own map both resolve it to the session that the run was bound to |
| AcpOrder.RouteKeepsInOrder | crates/acp/src/host.rs:929-965 | routing one event shows it, holds it or drops it so that every run's output stays the translation of its events |
| AcpOrder.StepKeepsInOrder | crates/acp/src/host.rs:1169-1183 | so does every handler, binding and flushing held events included |
| AcpOrder.ClientSeesRunInOrder | crates/acp/src/host.rs:929-965 | over every run since the last fail-closed, the outbox history of a bound run is the translation of its arrived events before the first terminal one, in arrival order, then one barrier with that event's resolution, then nothing; an unbound run shows nothing |
| AcpTranscript.ClientReadsRunBack | crates/acp/src/host.rs:1508-1541 | from a bound run's frames the client reads back exactly the run's tellable events before its end, in order and in full: deltas, tool names, outcomes and reasons |
| AcpTranscript.StreamDecides | crates/acp/src/host.rs:967-973 | an event on a run's stream is delivered if that run is bound, whatever run its payload names, and else held if it names one |
| AcpTranscript.BarrierTellsEnd | crates/acp/src/host.rs:1408-1440 | over every run, exactly the bound runs that have ended have a barrier, for their prompt, and it says end_turn if the run first ended Completed, cancelled if Cancelled or Interrupted, failed if Failed |
| AcpTranscript.PromptAnswersAreTrue | crates/acp/src/host.rs:501-512 | over every run, the answer a prompt is given says how its run first ended, or is "failed" from a fail-closed that met it still pending |
| AcpCancel.SessionCancelReaches | crates/acp/src/host.rs:1306-1336 | a session cancel attempts RunCancel for the bound run and for no other |
| AcpCancel.RequestCancelReaches | crates/acp/src/host.rs:1356-1377 | a request cancel of a bound prompt attempts RunCancel for exactly its run |
| AcpCancel.EarlyRequestCancelLandsIff | crates/acp/src/host.rs:1378-1405 | a request cancel during dispatch is remembered if and only if its id is not a pending permission's |
| AcpCancel.CollidingCancelIsLost | crates/acp/src/host.rs:1378-1398 | when it is, no slot is flagged and no run is cancelled |
| AcpCancel.CollisionIsReachable | crates/acp/src/host.rs:1469-1485 | a run of five steps after which a prompt in flight carries the id of a pending permission request |
| AcpCancel.AcceptedWhileHeld | crates/acp/src/host.rs:1184-1200 | when Core accepts a prompt whose slot still stands, its run is bound, and one RunCancel follows exactly if an early cancel landed and the run has not already ended |
| AcpCancel.AcceptedAfterFail | crates/acp/src/host.rs:1140-1161 | when Core accepts a prompt whose slot was failed, its run is not bound and gets one RunCancel |
| AcpCancel.EarlyCancelReachesTheRun | crates/acp/src/host.rs:1184-1200 | from any reachable state, whatever interrupts the dispatch, the accepted run gets exactly one RunCancel if fail-closed or an early cancel intervened (both early flags together count once; none if the run ended before it was bound), else none |
| AcpCancel.FailClosedIsTotal | crates/acp/src/host.rs:1543-1597 | fail-closed empties every ledger and the published view, attempts one RunCancel per bound run and a Deny per pending permission, and releases every waiting prompt and queued barrier |
| AcpCancel.FailClosedGivesUpTheFlight | crates/acp/src/host.rs:1543-1562 | fail-closed gives up the prompt then in flight |
| AcpCancel.NeverBoundAgain | crates/acp/src/host.rs:1140-1161 | a prompt given up is never bound, in any later run |
| AcpMail.LoopSchedules | crates/acp/src/host.rs:1717-1762 | while a dispatch is outstanding the loop runs only urgent mail and drains |
| AcpMail.LoopRunsHandlers | crates/acp/src/host.rs:625-650 | every run of the mail loop is an allowed run of the handlers, so all of the above holds of it |
| AcpMail.LoopKeepsCoupled | crates/acp/src/host.rs:652-721 | in particular the tables are coupled in every state the loop reaches |
| AcpMail.LettersTakeEffect | crates/acp/src/host.rs:652-721 | after any run of the loop, a turn gives the first urgent letter, or else the next ordinary one, the effect its kind has on the host, unless Core is being asked and it is no drain |
| AcpMail.AlwaysMailInOrder | crates/acp/src/host.rs:625-650 | processed, then deferred, then unread non-drain mail is the arrival order, after every act |
| AcpMail.MailIsProcessedInOrder | crates/acp/src/host.rs:1717-1762 | processed non-drain mail is a prefix of what arrived, and all of it once the queues are empty |
| AcpActor.AcpActor.constructor | crates/acp/src/host.rs:603-623 | a new actor is in the initial, coupled state |
| AcpActor.AcpActor.PublishSnapshot | crates/acp/src/host.rs:723-741 | publishes exactly the current maps |
| AcpActor.AcpActor.Release | crates/acp/src/host.rs:1619-1625 | frees the slot and its run, and publishes |
| AcpActor.AcpActor.Resolve | crates/acp/src/host.rs:1408-1440 | a terminal state moves the run's prompt from the ledgers to one barrier |
| AcpActor.AcpActor.EmitPermission | crates/acp/src/host.rs:1442-1506 | records and asks under the next number, saturating |
| AcpActor.AcpActor.Deliver | crates/acp/src/host.rs:946-965 | delivers an event as specified |
| AcpActor.AcpActor.Route | crates/acp/src/host.rs:929-937 | delivers the event of a known run, holds that of an unknown one |
| AcpActor.AcpActor.Flush | crates/acp/src/host.rs:939-944 | routes the held events in arrival order |
| AcpActor.AcpActor.PumpAll | crates/acp/src/host.rs:904-927 | routes a batch of events in arrival order |
| AcpActor.AcpActor.CancelBySession | crates/acp/src/host.rs:1306-1354 | flags an unbound slot, or cancels the run and sweeps the session's permissions, in some order of the table |
| AcpActor.AcpActor.CancelByRequest | crates/acp/src/host.rs:1356-1406 | running prompt first, then pending permission, then reserved slot |
| AcpActor.AcpActor.Respond | crates/acp/src/host.rs:838-902 | settles one pending permission with the client's decision |
| AcpActor.AcpActor.FailClosedAll | crates/acp/src/host.rs:1543-1597 | its loops over the three tables do what fail-closed is specified to do |
| AcpActor.AcpActor.TakeOutbox | crates/acp/src/host.rs:346-370 | hands out the whole outbox and empties it |
| AcpActor.AcpActor.InterruptibleCoreCall | crates/acp/src/host.rs:1717-1762 | what interrupts a dispatch is a run of cancel, fail-closed and drain steps; other mail is deferred in order |
| AcpActor.AcpActor.FinishSessionPrompt | crates/acp/src/host.rs:1140-1202 | binds, publishes, flushes and replays early cancels, or abandons, as Core's reply demands |
| AcpActor.AcpActor.SessionPrompt | crates/acp/src/host.rs:1102-1202 | reservation, interrupted dispatch and completion together are one allowed run of steps |
| Ownership.StepKeepsCoherent | crates/protocol/src/adapter/mod.rs:482-526 | no step takes a pair back in the store or in any registry; cached and held pairs are current or strictly older ones |
| Ownership.AlwaysCoherent | crates/protocol/src/adapter/mod.rs:559-592 | the same over every run of any number of hosts and registries |
| Ownership.InitiallyCoherent | crates/protocol/src/adapter/mod.rs:446-459 | the runs start from such a state |
| Ownership.OvertakenNeverWrites | crates/acp/src/host.rs:1902-1962 | once the store has moved past a host's pair, each of its later reattaches and closes is refused, in every run |
| Ownership.FencedForEver | crates/acp/src/host.rs:1838-1855 | once its registry knows, each of its later dispatches is refused as well |
| Ownership.ReattachFencesOthers | crates/acp/src/host.rs:1902-1934 | an accepted reattach or close bars every other host holding a pair from writing, and those on the same registry from dispatching, for ever |
| Ownership.OvertakenDispatchIff | crates/acp/src/host.rs:1838-1855 | an overtaken host still dispatches if and only if its own registry has not seen the newer pair and its copy is open and of its binding |
| Ownership.RefusedWriteFences | crates/protocol/src/adapter/mod.rs:618-641 | the refused write of an overtaken host brings its registry up to date and fences it |
| Ownership.AcceptedRecord | crates/protocol/src/adapter/mod.rs:482-526 | an accepted resume leaves a record of the resuming connection in the given state, an accepted close one that is disconnected; Core session and binding stay, and writer and registry hold the new pair |
| Ownership.ClosedIsClosed | crates/acp/src/host.rs:1265-1304 | after an accepted close, every dispatch through that registry, the closing host's included, is refused until a resume is accepted |
| Ownership.ResumedHostDispatches | crates/acp/src/host.rs:1204-1263 | who has resumed a session may dispatch it at once |
| Ownership.OpenAcceptedIff | crates/acp/src/host.rs:1857-1900 | a session is opened if and only if its Core session exists and it is not known yet; a known one is left as it is |
| Ownership.ResumeAcceptedIff | crates/acp/src/host.rs:1902-1934 | the exact condition for a resume, over host, registry and store; refused, it changes no record |
| Ownership.CloseAcceptedIff | crates/acp/src/host.rs:1936-1962 | the same for a close |
| Ownership.StepKeepsIdentity | crates/protocol/src/adapter/mod.rs:559-592 | no step changes the Core session or the binding of a session |
| Ownership.OneWinnerPerPair | crates/protocol/src/adapter/mod.rs:559-592 | however many hosts present one pair, one claim or transition is accepted on it, once |
| Ownership.TwoHostsDispatchIff | crates/acp/src/host.rs:1669-1697 | not a single owner: while one host's dispatches are accepted, another on the same registry dispatches too if and only if its binding is the same and it holds no pair or the same one |
| Ownership.StaleRegistryStillDispatches | crates/acp/src/host.rs:1838-1855 | a concrete run in which an overtaken host behind another registry dispatches |
| Ownership.SessionRegistry.Update | crates/protocol/src/adapter/mod.rs:559-592 | the compare-and-swap through cache and shared store, every refusal included |
| Ownership.Connection.HoldContext | crates/acp/src/host.rs:1669-1697 | returns the pair held, adopting the registry's only when none was held |
| Ownership.Connection.NewSession | crates/acp/src/host.rs:1039-1100 | registers a record at pair (1, 1) and holds it, unless the session is known already |
| Ownership.Connection.DispatchAttached | crates/acp/src/host.rs:1699-1715 | accepted only against an attached record of the same binding and pair |
| Ownership.Connection.SessionResume | crates/acp/src/host.rs:1204-1263 | claims the registry's current pair only if it is the one held |
| Ownership.Connection.SessionClose | crates/acp/src/host.rs:1265-1304 | disconnects under the presented pair only if it is the one held |
| Approval.NeverLostWakeUp | crates/app/src/approval.rs:183-224 | in every run of any number of threads, `pending` and `queued` share no key, and a blocked waiter's sender is in `pending` or held by a resolver about to send, or its channel is filled or closed |
| Approval.NextResolveWakes | crates/app/src/approval.rs:109-141 | a waiter whose sender nobody holds is woken by the next `resolve` for its call and run, with that decision |
| Approval.HeldSendWakes | crates/app/src/approval.rs:131-137 | one whose sender is held can wake as soon as the holder sends |
| Approval.EarlyDecisionIsReturned | crates/app/src/approval.rs:139-195 | a decision brought while nobody asks is what the next `decide` of its call returns, whatever is done for other calls in between, unless a later `resolve` of that call replaces it |
| Approval.EarlyDecisionCanBeTaken | crates/app/src/approval.rs:139-195 | such a `decide` waits for nothing |
| Approval.FatedIff | crates/app/src/approval.rs:109-222 | one step has a waiter answer Cancelled, or leaves it nothing else to answer, if and only if it is its own cancellation, cuts it off, or brings it that decision |
| Approval.DecisionsAreGenuineAndUsedOnce | crates/app/src/approval.rs:109-141 | a returned decision was accepted for that very call, and for the waiter's own run if it was accepted for a live waiter; no two waiters return the same one |
| Approval.ForeignIff | crates/app/src/approval.rs:183-206 | in one step, a waiter is given a decision brought for another run if and only if its `decide` finds one queued under its call |
| Approval.ForeignOnlyFromQueue | crates/app/src/approval.rs:139-206 | over every run, a returned decision was brought for another run if and only if its waiter's `decide` found it queued |
| Approval.CancelledIff | crates/app/src/approval.rs:183-224 | over every run, a `decide` that has returned answered Cancelled if and only if it was cancelled itself, was brought that decision, or was cut off: while its sender stood in `pending` its run was cleared, another `decide` took its place, or another waiter of its call cancelled |
| Approval.CancelledIffResolved | crates/app/src/approval.rs:109-141 | and it was brought it if and only if the `resolve` whose decision it took came with Cancelled, in this run and for its call |
| Approval.CancelledIffCleared | crates/app/src/approval.rs:172-178 | where the `decide`s of its call never overlap: if and only if it was cancelled itself, was brought that decision, or its run was cleared while it was asking; without that, `Approval.TwoLiveDecidesInterfere` is an instance |
| Approval.InitiallySound | crates/app/src/approval.rs:183-224 | an idle host satisfies each invariant that the lemmas above start from |
| Approval.GuiApprovalHost.ResolveSection | crates/app/src/approval.rs:109-141 | refuses another run's call and changes nothing, else takes the sender, else queues |
| Approval.GuiApprovalHost.DecideSection | crates/app/src/approval.rs:183-206 | takes a queued decision, else leaves its sender |
| Approval.GuiApprovalHost.CancelSection | crates/app/src/approval.rs:214-221 | removes whatever stands under the cancelled call |
| Approval.GuiApprovalHost.ClearRunSection | crates/app/src/approval.rs:172-178 | removes exactly the run's entries |
| Goal.GoalSnapshotOf | crates/app/src/goal_host.rs:34-171 | the loop computes the projection of the event log |
| Goal.OnlyLastGoalMatters | crates/app/src/goal_host.rs:44-68 | the snapshot depends only on the events from the last Created onward |
| Goal.SnapshotIffCreated | crates/app/src/goal_host.rs:69-71 | there is a snapshot if and only if a goal was created |
| Goal.TallyAccounts | crates/app/src/goal_host.rs:117-155 | the pass keeps, beside the cost of all closed accounts, two counters: the open run's finished requests, each at its last update, and the last update of its current request |
| Goal.TallyOpenIsProvisional | crates/app/src/goal_host.rs:145-155 | the two counters together are the sum, over the open run's requests, of each request's last update |
| Goal.TallyIsTotal | crates/app/src/goal_host.rs:117-155 | without limits, the one pass computes the sum over counted runs of each run's cost, found by looking ahead to the end of its account |
| Goal.TotalFallsIff | crates/app/src/goal_host.rs:117-155 | the exact total falls if and only if the event is one of those three |
| Goal.UsedTokensIsTotal | crates/app/src/goal_host.rs:117-170 | published usage is min(2^64-1, that exact sum); a run cut off by another counted start costs nothing |
| Goal.UsedRunsIsCount | crates/app/src/goal_host.rs:117-122 | published runs are min(2^32-1, the number of runs started while the goal was active) |
| Goal.CommittedNeverFalls | crates/app/src/goal_host.rs:117-144 | committed usage and run count never decrease within a goal |
| Goal.PublishedUsageFallsIff | crates/app/src/goal_host.rs:117-170 | the published figure falls from one event to the next, within a goal, if and only if the total is then below 2^64-1 and the event shrinks the open run's account: another counted start while it is not zero, a final account below the provisional one, or an update below the last of its request; `Goal.PublishedUsageCanFall` is an instance |
| Goal.ResumeGrantsTokens | crates/app/src/goal_host.rs:76-86 | until the next grant, what remains is the grant less the usage beyond what was committed at the resume, floored at 0, if and only if the grant fitted under 2^64-1 or is used up |
| Goal.ResumeWithNoOpenRun | crates/app/src/goal_host.rs:22-27 | with no run open at the resume, that is the grant less all later usage |
| Goal.ResumeGrantsRuns | crates/app/src/goal_host.rs:28-30 | the same for runs, under 2^32-1; none remain if the resume names no number |
| Goal.RemainsBeforeGrants | crates/app/src/goal_host.rs:22-30 | until the first grant, what remains is the budget, and the runs, the goal was created with less all it used, floored at 0; without a budget nothing |
| Goal.StateIsDecidedByLast | crates/app/src/goal_host.rs:72-163 | name and title are those created; status and pause reason are those given by the last event that gives one; the current run is the one whose account is open |
| Goal.SteeringIsLastSixteen | crates/app/src/goal_host.rs:87-94 | steering is the last min(16, count) inputs of this goal, in order |
| Goal.CriterionSatisfiedIff | crates/app/src/goal_host.rs:105-116 | a criterion is satisfied if and only if it was created so, or it is the first of its name and was met later |
| Civil.YearOfEraIsRight | crates/app/src/devfixture.rs:885-907 | the division trick names the year that contains the day, for every day of the 400-year era |
| Civil.CivilIsExact | crates/app/src/devfixture.rs:885-907 | for every number of seconds the result is a valid Gregorian date and time that counts back to it |
| Civil.CivilInvertsUnix | crates/app/src/devfixture.rs:885-907 | and every valid date and time comes back from its count |
| Civil.CivilIsMonotone | crates/app/src/devfixture.rs:885-907 | later seconds are exactly later dates |
| Fixture.ValidateSeedTimestamps | crates/app/src/devfixture.rs:513-538 | accepts if and only if the git baseline and each session's creation and update are in range, and otherwise explains the first session that does not fit |
| Fixture.EventTimestamps | crates/app/src/devfixture.rs:999-1008 | the loop stamps a session's events ten milliseconds apart, ending at its update, and refuses if and only if the first would not come after its creation |
| Fixture.EventStampsFit | crates/app/src/devfixture.rs:999-1008 | in a validated session every such stamp is in range, after the creation, not after the update, and later than the one before |
| Fixture.AcceptedYears | crates/app/src/devfixture.rs:531-538 | a timestamp is in range if and only if its civil year is in 1970..9999 |
| Fixture.PrintReads | crates/app/src/devfixture.rs:878-883 | the printed date has the fixed shape of section 5.6 of RFC 3339 and reads back, for every year of four digits |
| Fixture.GitDateRoundTrip | crates/app/src/devfixture.rs:878-883 | for every accepted timestamp the printed date has that shape and reads back to its second |
| Hub.EventHub.WithCapacity | crates/app/src/hub.rs:64-73 | an empty hub, of capacity at least 1 |
| Hub.EventHub.Publish | crates/app/src/hub.rs:88-103 | the sequence given is the position in the log, modulo the width of the counter; the ring stays the last min(n, capacity) events |
| Hub.EventHub.Current | crates/app/src/hub.rs:151-153 | the length of the log, modulo the width of the counter |
| Hub.EventHub.EarliestAvailable | crates/app/src/hub.rs:156-160 | the sequence of the oldest event retained, if there is one |
| Hub.EventHub.ReplayWindow | crates/app/src/hub.rs:166-187 | until the counter wraps, refused exactly when `from` is older than the ring, and otherwise exactly that slice of the whole log; in any case what the ring holds in the window |
| Hub.ReplayResumes | crates/app/src/hub.rs:162-187 | a client that saw the first events and replays from the next has the log: no gap, no duplicate |
| Hub.AlwaysEachInOnePlace | crates/app/src/hub.rs:92-101 | with interleaved publishers every assigned sequence is in exactly one of in-flight, ring, evicted, together 1..n, and the ring stays within capacity |
| Hub.InitiallyInOrder | crates/app/src/hub.rs:64-73 | the empty hub satisfies the invariants that the runs start from |
| Hub.ReplayIsCompleteIff | crates/app/src/hub.rs:166-187 | such a replay has no duplicate and stays in its window, and is complete if and only if nothing in the window is in flight or evicted |
| Hub.RetainedIsRefusedIff | crates/app/src/hub.rs:172-178 | some window that the ring holds in full is refused if and only if the front of the ring is not its oldest event; `Hub.OvertakenReplayIsRefused` is an instance |
| Hub.InTurnRetainedIsReplayed | crates/app/src/hub.rs:166-187 | in every run whose publishers enter the ring in the order of their sequences, each window that the ring holds in full is replayed exactly and in order |
| AtRefs.AtTokens | crates/app/src/extensions.rs:572-606 | the loop terminates and computes the scan |
| AtRefs.JsonStringReads | crates/app/src/extensions.rs:608-612 | reading undoes printing for every text, whatever follows the closing quote |
| AtRefs.TakesExactlyJsonStrings | crates/app/src/extensions.rs:608-612 | the reader takes a text and a length if and only if the input begins with a literal of that length that means that text, by the string grammar of section 7 of RFC 8259 |
| AtRefs.BrokenQuoteIsSkipped | crates/app/src/extensions.rs:576-589 | an @ before a quote that begins no literal yields nothing, and the scan goes on behind the quote |
| AtRefs.QuotedReferenceRoundTrip | crates/app/src/extensions.rs:572-606 | for every '@'-free prefix, path and suffix, the scan of prefix @ printed path suffix is Exact(path), then the scan of the suffix; an empty path is dropped |
| AtRefs.BareReferenceRoundTrip | crates/app/src/extensions.rs:591-604 | a bare reference loses its trailing punctuation and nothing else |
| AtRefs.TokensAreGood | crates/app/src/extensions.rs:572-606 | no token is empty; bare ones use only word characters and end in none that is trimmed |
| AtRefs.ExactTokensWereQuoted | crates/app/src/extensions.rs:578-589 | every exact token stands in the text as a JSON string behind an '@' |

## Left out

- AcpActor.AcpActor.EmitPermission: the params of a permission request are taken to serialise; the branch in which serialisation fails is not modelled.
- AcpActor.AcpActor.SessionPrompt: parameter decoding and the registry's answers are given as `Admission`; the decoding itself is not modelled.
- AcpActor.AcpActor.FailClosedAll: the reason text and the two-second acknowledgement are not modelled.
- AcpOrder.ClientSeesRunInOrder: cancel notices of swept permissions belong to a session, not to a run's events, and are not counted among a run's items; the history starts afresh at each fail-closed, which discards the outbox.
- AcpCancel.EarlyCancelReachesTheRun: starts at reservation; a cancel that overtakes its prompt in the mailbox finds no slot and is dropped by the code.
- Hub.EventHub.Publish: the counter wraps at 2^64, as in a build without overflow checks; with them the addition panics instead, which is not modelled.
- Hub.EventHub.ReplayWindow: once the counter has wrapped, sequences no longer order the log, and only what the ring holds is stated.
- Ownership.Connection.SessionResume: one uninterrupted call; `Ownership.Apply` allows any pair read earlier, and its run lemmas cover the interleavings. Deletion of records, which no host does, would let epochs start again and is not modelled; nor are blank ids and the narrower integers of the database store.
- Ownership.Connection.SessionClose: the session cancel that comes before the disconnect is `AcpHost`'s step `CloseSession`, not part of this method.
- Approval.GuiApprovalHost.DecideSection: the listener called between inserting and waiting is not modelled, nor is the sorted listing of pending approvals.
- Fixture.EventTimestamps: takes the number of events to be far below 2^63, so that the products do not overflow.
- AtRefs.JsonStringReads: text is a sequence of characters; byte offsets are not modelled.
- The selection among mailboxes is `AcpMail`'s state machine over values, not methods of the class.
- Lag of the hub's broadcast receivers; the SQLite session store; Core itself; JSON decoding beyond string escapes.
- Diff previews, redaction, provider assembly, gateway, desktop, git commands, fixture files, and the splitting of fixture text into chunks.
