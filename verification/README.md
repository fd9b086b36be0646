# The activity-pipeline engine and its neighbours

A Dafny model of the workflow engine in `temporal/`, of the signal listeners and the query loop around it, and of the
two-version JWT claim codecs in `security/`. `dafny verify dfyconfig.toml` checks all of it.

A workflow instance holds a graph of registered steps. `Execute` walks it: a step without a signal event runs its
activity once and fails fast; a step with one parks until an operator's signal arrives, applies the payload to the
execution data as a correction, runs the activity, and parks again after a failure until its budget is spent. After a
success it may park once more for a yes or no approval. The data an activity returns names the next step. Signals come
in at any time and wait in one FIFO queue per name.

## How the model is built

- `Basics`, `Signals`, `StepGraph`: sequences, walks and acyclic edge sets; signals, what a channel holds and in which
  order; steps, their options, the graph, and what registering leaves in it.
- `Machine`: the engine as a state machine. A state is what `Execute` holds at a blocking point or between its own loop
  and the functions it calls. An event is an arriving signal, a move of the workflow (a reply of the activity in flight
  included), a timer, or a cancellation. Activities, `GetActivity`/`SetActivity`, `Marshal`/`Unmarshal` and upserts are
  parameters; an activity may answer differently at every call. A log keeps the status writes, upserts, visits, calls
  and consumed messages of the run.
- `Engine`: the code as it is written, an object with fields `status`, `activity` and `firstActivity`, nested loops, a
  mutable execution data cell that may be nil, and an unordered search of the step map. Every method is proved to take
  exactly the machine's steps, so `Execute` refines the machine on every script of events. `Channels` gives it its
  queues.
- `Threading`, `StatusLanguage`, `StatusWords`, `Upserts`, `Approvals`, `Effects`, `Completion`, `Schedule`,
  `Progress`, `Rerun`, `Registration`: what holds of every run, over every graph, every environment and every
  interleaving. `Effects` says it over the environment and the step records alone.
- `Documented`: exactly when the code keeps what its documentation says, and runs on which it does not.
- `Clients`: two calls of `Execute`, on two instances under different schedules and twice on one instance.
- `Sharing`, `Listeners`: runs whose channels have other consumers, and the consumers themselves.
- `Polling`, `Claims`: the query loop, and the claim codecs.

## Where the code and its documentation differ

The model follows the code.

- `temporal/interface.go:42-43` says activities run in registration order. `Execute` follows `NextActivities` only.
  Every run is in registration order if and only if no step that the chain of registered neighbours reaches lists any
  other name than its neighbour's (`Documented.OrderIsExact`); `Completion.OrderIsNotRegistration` is a run in another
  order.
- `temporal/resumable.go:19-21` calls `CorrectionSignal` the signal that injects corrections. The wait is always on the
  step's signal event, so a parked run wakes on its correction signal if and only if the two are the same
  (`Documented.CorrectionSignalIsExact`, with `Documented.FixDoesNotWake` for two that are not). Registration makes them
  the same (`Documented.RegisteredStepsArePlain`), and only the package itself can set them apart.
- `temporal/resumable.go:27-29` calls `MaxCorrectionAttempts` the number of park-and-retry cycles. A visit fails on the
  attempt after that many (`Threading.ExhaustionIsExact`); with the default of 5 there is a run with six
  (`Documented.SixAttempts`).
- `temporal/workflow.go:109-110` says a branch target must be registered. A target that the step does not list is no
  error: it ends the run as COMPLETED (`Completion.UnlistedNameCompletes` is such a run, `Completion.CompletionIsExact`
  says exactly when an ended run is COMPLETED). A listed name that was never registered is a step without an activity.
- A fail-fast step writes no status, so AWAITING_APPROVAL or EXECUTING can remain while one runs
  (`Documented.OldStatusRemains`). A wait that ends and a payload that cannot be used go from AWAITING_CORRECTION to
  FAILED without EXECUTING.
- `temporal/resumable.go:23-44` documents approvals, timeouts and a search attribute. Registration sets none of them,
  and no other exported function does: on what registration builds no run asks for an approval, is rejected, waits with
  a timer or upserts (`Documented.RegisteredRunsArePlain`). The other results cover such options all the same.
- The upsert of PENDING and the query registration can abort a run, which leaves PENDING; later upsert errors are
  ignored.

## Model

| member | source | states |
|---|---|---|
| Engine.WorkflowExecutionData.Execute | temporal/workflow.go:114-157 | The nested loops do what the state machine does on the same events, and end in its state: `nil` exactly with COMPLETED, an error exactly with FAILED or REJECTED; aborted at PENDING, with nothing visited, called or taken, exactly if the first upsert or the query registration fails; otherwise nothing more happens and it is at rest on an empty channel or its last call has not returned. The graph is changed only by settling options |
| Engine.WorkflowExecutionData.WalkFrom | temporal/workflow.go:127-154 | The loop over steps ends in an ended run of the machine, at a wait whose channel is empty, or in a call that does not return, for any graph, cyclic ones included |
| Engine.WorkflowExecutionData.RunActivity | temporal/workflow.go:184-200 | One visit, gated or fail-fast, takes the machine from the step's entry to its return, its error, an empty channel or a call that does not return |
| Engine.WorkflowExecutionData.RunResumableActivity | temporal/resumable.go:114-169 | The retry loop, its budget and the approval take the machine from the step's entry to its return, its error, an empty channel or a call that does not return |
| Engine.WorkflowExecutionData.Attempt | temporal/resumable.go:127-147 | One round of the retry loop: park, correct, run; it stays parked only on an empty channel; a failed attempt leaves the machine at the next attempt or exhausted |
| Engine.WorkflowExecutionData.ApproveAndBranch | temporal/resumable.go:162-168 | After a success the step returns only through the approval it asks for, and waits for it only on an empty channel |
| Engine.WorkflowExecutionData.WaitForApproval | temporal/resumable.go:171-198 | A yes goes on, a no is REJECTED, a timer is FAILED, a cancellation writes nothing; it waits only on an empty channel |
| Engine.WorkflowExecutionData.WaitForSignalPayload | temporal/resumable.go:200-229 | The oldest untaken message of the signal event is taken; raw bytes are passed on as they are and any other value as marshalled, or it is an error; a wait that ends takes none; it waits only on an empty channel |
| Engine.WorkflowExecutionData.SettleOptions | temporal/resumable.go:115-123 | Defaults are written back into the step; the graph stays the same to every later visit |
| Engine.WorkflowExecutionData.CallActivity | temporal/resumable.go:143-147 | One logged call on the current data; its result overwrites the data, a failure leaves it |
| Engine.WorkflowExecutionData.GetReply | temporal/resumable.go:144-147 | Data changes only on success, and nil data never |
| Engine.WorkflowExecutionData.ApplyCorrection | temporal/resumable.go:231-238 | nil data is an error; otherwise `Unmarshal` decides, and may change data it rejects |
| Engine.WorkflowExecutionData.ApplyBranch | temporal/resumable.go:240-251 | The scan sets the name only if the data holds one that is listed |
| Engine.WorkflowExecutionData.GetNextActivity | temporal/workflow.go:159-167 | The scan finds a step if and only if the name is listed and registered |
| Engine.WorkflowExecutionData.Leave | temporal/workflow.go:135-148 | The step after a return, or the end of the walk, as the machine decides it |
| Engine.WorkflowExecutionData.Begin | temporal/workflow.go:115-126 | A run starts if and only if the PENDING upsert, if there is one, and the query registration succeed; the old status is overwritten |
| Engine.WorkflowExecutionData.FailRun | temporal/workflow.go:128-133 | FAILED is written unless the step already wrote FAILED or REJECTED |
| Engine.WorkflowExecutionData.FinishRun | temporal/workflow.go:151-156 | COMPLETED is written unless the status is FAILED or REJECTED |
| Engine.WorkflowExecutionData.StatusSearchAttribute | temporal/resumable.go:66-73 | Some named attribute if any step names one, in whatever order the map is read |
| Engine.WorkflowExecutionData.SetExecutionStatus | temporal/resumable.go:85-96 | Status is written before the upsert and whether or not the upsert succeeds |
| Engine.WorkflowExecutionData.AddTransitionActivityWithOptions | temporal/workflow.go:220-249 | The name holds the signal event, activity and next steps it was given, with the signal event as correction signal; other names keep their steps, next steps are present, and the whole is one step of the registry that `Registration` characterises |
| Engine.WorkflowExecutionData.constructor | temporal/workflow.go:349-357 | A new instance has no step |
| Engine.AwaitSignal | temporal/resumable.go:200-216 | A buffered message wins over timer and cancellation; a timer ends a wait only if the timeout is positive; signals for other channels stay queued |
| Engine.AwaitReply | temporal/resumable.go:143-144 | Signals that arrive while an activity is in flight are buffered, not lost |
| Clients.TwoSchedules | temporal/resumable.go:114-218 | Two calls of `Execute` on equal instances and data whose channels get the same messages, before or during the call, interleaved and delayed differently, with nothing that could end a wait: unless a call never returns they return the same, with the same status, calls, writes and data |
| Clients.RunTwice | temporal/workflow.go:114-157 | A second `Execute` on one instance, after any first one, is a run that a fresh instance could make on the same events |
| Schedule.ScheduleIndependence | temporal/resumable.go:114-218 | With no cancellation and no timer that could fire, runs whose channels agree in order agree after equally many moves; the one that moved less is a prefix of the other, and at rest on the same messages they have the same calls, writes, data and outcome |
| Schedule.RunIsOnOrbit | temporal/resumable.go:114-218 | Every such run is a point of one deterministic orbit over any larger set of messages |
| Schedule.RestIsUnique | temporal/resumable.go:114-218 | Two such runs that rest on the same messages, seen or still to come, rest in the same state |
| Schedule.OrbitExtendsLog | temporal/workflow.go:127-149 | Moving on only appends to writes, upserts, visits, calls and taken messages |
| StatusWords.WritesFollowCalls | temporal/resumable.go:127-198 | In every reachable state the status writes are PENDING, then for every returned gated call in order AWAITING_CORRECTION EXECUTING, with AWAITING_APPROVAL if it succeeded and its step needs one, then what the phase and the cause determine, one terminal write at the end |
| StatusWords.OnlySuccessLeavesVisit | temporal/resumable.go:127-160 | Neighbouring calls are of one visit if the first failed and of neighbouring visits if it succeeded, so the word goes visit by visit |
| Upserts.UpsertsFollowCalls | temporal/resumable.go:85-96 | In every reachable state the upserts are exactly the status writes in order, those of a gated step to the attribute that step names, those of Execute to the attribute it found, those without an attribute left out, each with the result of its own upsert |
| StatusLanguage.TerminalWriteIsLast | temporal/workflow.go:119-154 | Status writes follow the status automaton; no write but the last is terminal, and the last is if and only if the run has ended or its step has just written the final status itself |
| StatusLanguage.OutcomeAgrees | temporal/workflow.go:127-156 | `nil` exactly with COMPLETED, error exactly with FAILED or REJECTED, REJECTED exactly when the last message taken was a refusing approval |
| StatusLanguage.AbortIsExact | temporal/workflow.go:115-126 | A run is aborted if and only if its first upsert or its query registration fails; then PENDING is all it ever writes and it visits, calls and takes nothing |
| StatusLanguage.RunKeepsStatus | temporal/resumable.go:127-198 | The status is the last write and tells the phase the run is in, in every reachable state |
| StatusLanguage.SignalsAreConserved | temporal/resumable.go:125-160 | Per channel, taken followed by queued is what arrived; corrections taken are the gated calls, plus one exactly when the last payload was unusable and then the run ends FAILED; AWAITING_CORRECTION and EXECUTING are written once per attempt |
| StatusLanguage.RestIsExplained | temporal/resumable.go:129-141 | A run at rest has ended or waits on the channel its status tells, that channel is empty, and a message re-enables it if and only if it arrives there; AWAITING_CORRECTION at rest means it waits on the signal event |
| StatusLanguage.NoTimeoutNoTimer | temporal/resumable.go:202-216 | Without positive timeouts a timer never moves a run |
| Approvals.ApprovalGuardsProgress | temporal/resumable.go:162-197 | A visit that needs an approval is left only after exactly one approval was taken in it and said yes; a visit that needs none takes none |
| Approvals.MessagesAreForTheirStep | temporal/resumable.go:125-191 | Corrections come from the running step's signal event, approvals from its approval signal, and from gated steps only |
| Approvals.RefusalStopsTheRun | temporal/resumable.go:193-196 | A refusing approval is the last of its visit, and its visit the last of the run, which stopped as rejected |
| Threading.AttemptsKeepCorrections | temporal/resumable.go:127-153 | Attempt k of a visit runs on the visit's entry data with its first k messages applied in order; a failed attempt loses none; attempts are numbered without gaps and only a failure leads to the next |
| Threading.VisitsThreadData | temporal/workflow.go:127-149 | Each visit starts from the branched result of the last call of the visit before, the first from the input |
| Threading.WalkFollowsData | temporal/workflow.go:115-167 | The visited steps are a path of the registered graph from the first step, each hop naming what the data held |
| Threading.HopsFollowReplies | temporal/workflow.go:143-167 | With lawful accessors each hop goes to the name the previous step's last activity returned |
| Threading.BranchKeepsName | temporal/resumable.go:240-251 | Branching never changes the name the data holds |
| Threading.CompletionWalksOut | temporal/workflow.go:135-156 | A completed run left data that names no listed and registered step |
| Threading.FinalDataIsFold | temporal/resumable.go:127-168 | The data of every ended run: the branched result of the last call if it completed; else, by cause, the entry data with every correction of the visit applied as far as it could be, or the absorbed result that was not approved |
| Completion.CompletionIsExact | temporal/workflow.go:127-156 | An ended run is COMPLETED if and only if the last call belongs to the last visit, succeeded, and that visit was granted the approval it needed, or there was no first step |
| Completion.UnlistedNameCompletes | temporal/workflow.go:143-154 | A concrete run that ends COMPLETED because its activity named a step that is not listed |
| Completion.EveryWalkRuns | temporal/workflow.go:127-167 | Every walk of listed names from the first step, through gated steps and approvals, cyclic or not, is the walk of some run |
| Completion.StepsThatRun | temporal/workflow.go:127-167 | A step runs in some run if and only if listed, registered names lead to it from the first step |
| Completion.OrderIsNotRegistration | temporal/workflow.go:220-249 | A concrete run that visits three steps in another order than they were registered in |
| Documented.OrderIsExact | temporal/workflow.go:127-167 | With distinct names, every lawful run visits a prefix of the registered names if and only if no step that the chain of neighbours reaches lists a non-empty name other than that of the step registered right after it |
| Documented.ChainKeepsOrder | temporal/workflow.go:127-167 | On such registrations every run is in order, in every environment |
| Documented.CorrectionSignalIsExact | temporal/resumable.go:114-141 | A parked run at rest wakes on its step's correction signal if and only if that is the signal event |
| Documented.FixDoesNotWake | temporal/resumable.go:119-130 | A step on "go" with correction signal "fix" stays parked after "fix" and moves on "go" |
| Documented.RegisteredStepsArePlain | temporal/workflow.go:231-248 | Registration leaves every step without approval, timeout and attribute, with limit 5, and with its signal event as its correction signal |
| Documented.RegisteredSignalWakes | temporal/resumable.go:125-130 | A registered step that waits wakes on a message if and only if it is on the signal event of its last registration |
| Documented.RegisteredRunsArePlain | temporal/workflow.go:220-249 | So no run on what registration builds asks for an approval, is rejected, waits with a timer or upserts |
| Documented.BudgetIsSpent | temporal/resumable.go:127-153 | If every call fails and every message can be applied, some run ends exhausted after exactly limit + 1 calls |
| Documented.SixAttempts | temporal/resumable.go:149-153 | A registered step that always fails is called six times in some run |
| Documented.SecondStepKeepsStatus | temporal/workflow.go:184-199 | While a fail-fast second step runs, the status is what the gated first step last wrote |
| Documented.OldStatusRemains | temporal/workflow.go:184-199 | A run in which AWAITING_APPROVAL, or EXECUTING, remains while a fail-fast step runs |
| Threading.ExhaustionIsExact | temporal/resumable.go:149-153 | A run ends as exhausted if and only if its last call was the failed attempt number limit + 1 of its visit |
| Threading.FailuresWithinBudgetRetry | temporal/resumable.go:127-160 | Every other failed gated attempt is followed by the next attempt of the same visit, so each visit has its own full budget |
| Threading.LimitIsPositive | temporal/resumable.go:53-64 | Non-positive limits mean 5 |
| Threading.RunKeepsData | temporal/resumable.go:127-168 | In every reachable state each call, each visit and the current phase agree with the fold of corrections over the visit's entry data |
| Effects.EffectiveIsOwn | temporal/resumable.go:53-64 | Every option a step sets is what its visits use, and every one it leaves unset has the documented default |
| Effects.AttemptAppliesItsMessage | temporal/resumable.go:136-143 | Each attempt runs on what it found with its own message applied by Unmarshal, as the raw bytes or the marshalled value the message carries; empty and null bytes change nothing |
| Effects.UnusableMessageFails | temporal/resumable.go:130-139 | A parked run takes the next message of its signal event and calls the activity, except if the value cannot be marshalled or its bytes cannot be applied; exactly then the run ends FAILED without another call |
| Effects.ResultsArePassedOn | temporal/workflow.go:194-199 | What the activity of a step returned is what the next step starts from, with the listed name it holds set once more |
| Effects.FinalResult | temporal/resumable.go:143-168 | A completed run leaves what its last activity returned, branched on if it names a listed step; a result that waited for an approval in vain stays as returned |
| Effects.WaitsEndExactly | temporal/resumable.go:175-216 | A timer ends a wait if and only if the step sets a timeout and the channel is empty, a cancellation if and only if the channel is empty, each with its own cause and status |
| Progress.CallsArePaidFor | temporal/workflow.go:127-149 | If every cycle passes a gated step, n taken messages allow at most n + (n + 1) * N calls, N counting the ungated steps |
| Progress.MovesArePaidFor | temporal/workflow.go:127-149 | With every cycle gated, any run that took n messages has moved at most 5 * (n + (n + 1) * N) + 3 times, whatever timed out or was cancelled |
| Progress.EveryRunComesToRest | temporal/resumable.go:127-160 | After any events, a run left to itself has ended or parks within that many moves |
| Progress.SignalsPayForRuns | temporal/resumable.go:127-160 | The same bound, over the signals that arrived, for every schedule |
| Progress.AcyclicRunIsBounded | temporal/workflow.go:127-149 | Without cycles each step is visited at most once, and the calls are at most the sum over visited steps of 1 or limit + 1 |
| Rerun.RerunIsIndependent | temporal/resumable.go:114-124 | On an instance left by any earlier run, whatever its status and whichever options it settled, a run that searches the map anew is step for step a run a fresh instance could make, and the only one if all named attributes agree |
| Rerun.AttributeMirrorsStatus | temporal/resumable.go:85-96 | If gated steps name the run's attribute and upserts succeed, upserts are the status writes one for one |
| Rerun.AgreedAttributeIsMirrored | temporal/resumable.go:66-96 | With one attribute named throughout, and by every gated step, the unordered search finds it, and its last value is Status in every reachable state |
| StepGraph.SettledIsSettled | temporal/resumable.go:53-64 | Writing the defaults back is idempotent and invisible to later visits |
| StepGraph.AttrChoiceIsDetermined | temporal/resumable.go:66-73 | If all named attributes agree, the search result does not depend on the map's order |
| Registration.RegistrationIsDescribed | temporal/workflow.go:220-249 | After any registrations the keys are the registered and the listed names, each value is the last registration of its name or a placeholder, and the first step is the first registered one |
| Registration.RegistrationByField | temporal/workflow.go:231-248 | Field by field: a registered name holds the signal event, activity, next steps and defaulted options of its last registration, a name that was only listed holds nothing |
| Registration.OrderDoesNotMatter | temporal/workflow.go:220-249 | Permuting distinct names behind the same first one builds the same map |
| Registration.RegisteredIsSettled | temporal/workflow.go:238-241 | A registered gated step is already settled |
| Registration.NoPlaceholderIsReached | temporal/workflow.go:244-248 | If every listed step was registered, no run reaches a step without an activity |
| Registration.UnlistedStepNeverRuns | temporal/workflow.go:127-167 | A step that is neither first nor listed by any step never runs |
| Channels.Context.ReceiveAsync | temporal/resumable.go:203-215 | The oldest untaken message of the channel or nothing; other queues are untouched |
| Channels.Context.Observe | temporal/signals.go:36-42 | An arriving signal goes to the end of its own queue |
| Listeners.Receive | temporal/workflow.go:280-292 | A blocking receive takes the oldest message of its channel, and waits only while there is none |
| Listeners.WaitForSignal | temporal/workflow.go:294-308 | A message wins over the timer; the first timer or cancellation seen with an empty channel ends the wait with its own outcome, taking and writing nothing |
| Listeners.WaitForAnySignal | temporal/workflow.go:321-333 | One head of one listed channel is taken and only the destination of the returned name is written |
| Listeners.ListenSignal | temporal/workflow.go:310-319 | Every message of the channel is handled in order, handler errors drop nothing, other channels lose nothing |
| Listeners.ConsumersPartition | temporal/signals.go:36-47 | Any consumers on any shared channels: what each got interleaves to what was taken, per channel a prefix of what was sent |
| Listeners.EveryTakeIsServed | temporal/signals.go:36-42 | Any consumer that takes from a channel it listens on gets exactly the oldest untaken message, if there is one, and nothing else changes |
| Listeners.WaitingIsExact | temporal/signals.go:36-47 | At most n messages of a channel wait if and only if from no point on more than n more signals were sent than takes followed |
| Listeners.AllTakenIsExact | temporal/signals.go:36-47 | Everything sent on a channel has been taken if and only if every signal was followed by enough takes |
| Listeners.EachTakenOnce | temporal/signals.go:36-47 | Each taken message went to exactly one consumer |
| Sharing.SharedRunIsARun | temporal/signals.go:36-47 | A run whose channels other consumers take from is a run of its own, in which the messages they took never arrived: its events are the real ones in order, some left out |
| Sharing.NothingVanishes | temporal/signals.go:36-47 | Per channel, the messages sent are an interleaving of those in that run's history and those the others took |
| Sharing.OthersTakeTheHead | temporal/signals.go:36-42 | Another consumer takes the oldest message the engine has not taken, and leaves the run and the other channels alone |
| Polling.Poll | temporal/public.go:100-124 | Every check at which the context is alive and no answer carried data is followed by a query; it gives up under a deadline only when the context is over; at most ceil(D) queries with D seconds left, one without a deadline, none if the context is over; the first answer with data ends it |
| Polling.DecodeExecutionData | temporal/public.go:127-153 | The answer itself without another destination, else its bytes applied to the destination; a lawful codec reproduces the answer |
| Polling.QueryWorkflowData | temporal/public.go:86-125 | Argument errors ask nothing; otherwise it asks as long as the context is alive, and the result is the decode of the first answer with data, never retried, or the fault that ended the loop |
| Claims.DecodeIsFieldwise | security/v2/jwt.go:119-123 | A read succeeds if and only if every field accepts all its values, and each field ends with its last one that is not a null it ignores |
| Claims.RearrangingKeepsDecode | security/v2/jwt.go:119-123 | Member order and unknown members do not matter; a key that only differs in case from a known one is known |
| Claims.AccessRoundTrip | security/v2/jwt.go:106-137 | v2 reads back the access claim it wrote, omitted zero fields included |
| Claims.V1ReadsV2Access | security/v2/jwt.go:92-117 | v1 reads ID as UserID, the verification and the registered claims |
| Claims.V2ReadsV1Access | security/v2/jwt.go:119-137 | v2 reads UserID as ID, the verification and the registered claims of a v1 token; the fields v1 lacks are zero |
| Claims.AccessThroughV1 | security/v2/jwt.go:106-137 | v2 to v1 to v2 keeps the ID, the verification and the registered claims, and resets the rest |
| Claims.V2IdWins | security/v2/jwt.go:124-135 | In a token with both ids and both verifications the v2 id wins unless it is zero, and either verification suffices |
| Claims.WrongTypeFails | security/v2/jwt.go:119-123 | One value of the wrong type in a known member, a negative or oversized number included, fails the whole read |
| Claims.RefreshRoundTrip | security/v2/jwt.go:148-172 | v2 reads back the refresh claim it wrote |
| Claims.V1ReadsV2Refresh | security/v2/jwt.go:139-155 | v1 reads the whole v2 refresh claim |
| Claims.V2ReadsV1Refresh | security/v2/jwt.go:157-172 | v2 reads the whole v1 refresh claim, `Email` by case folding |
| Claims.RefreshThroughV1 | security/v2/jwt.go:139-172 | v2 to v1 to v2 loses nothing |
| Claims.AccessTagsFoldRight | security/v2/jwt.go:95-104 | The folded form of every access field name of both versions |
| Claims.RefreshTagsFoldRight | security/jwt.go:30-34 | The folded form of every refresh field name of both versions |
| Claims.AccessV1Keys | security/jwt.go:20-26 | The v1 reader takes UserID and IsVerify and no other v2 key, case folding included |
| Claims.RefreshV2Keys | security/v2/jwt.go:139-146 | `Email` and `email` reach the same v2 field |
| Claims.RegisteredNamesFold | security/v2/jwt.go:103-103 | In all four readers, for every key: it is read as a registered claim if and only if it folds to that claim's name in section 4.1 of RFC 7519 |
| Claims.RegisteredNamesResolve | security/v2/jwt.go:103-103 | The same for any reader whose own names fold to no registered one |
| Claims.AccessHolder.UnmarshalJSON | security/v2/jwt.go:119-137 | A failing read leaves the claim as it was, a good one replaces it whole |
| Claims.RefreshHolder.UnmarshalJSON | security/v2/jwt.go:157-172 | A failing read leaves the refresh claim as it was, a good one replaces it whole |

## Left out

- The wrappers over the workflow SDK (`temporal/temporal.go`, `temporal/nexus/nexus.go`, and the delegating methods of
  `WorkflowExecutionData`): they hold no logic of their own.
- Activity options, retry policies and timeouts (`temporal/resumable.go:98-112`): the server applies them; a call here is
  what remains after its retries.
- `StartedAt`, `CompletedAt`, logging and error texts: nothing depends on them. An error is its cause.
- `ExecuteWorkflow`, `WorkflowInit`, `GetWorkflowData` and `SignalConsumer.On`: nil checks, setters and a map of closures.
- The pointers in the step map: steps are values here and written back under their key, so a step shared under two keys
  is not modelled; the code never shares one.
- A nil and an empty `NextActivities` are one empty list; both end the walk.
- Activity results that fail to decode count as failed calls that leave the data alone; a partly decoded result is not
  modelled. A result otherwise replaces the data; what decoding keeps of the old data is part of the activity parameter,
  which sees it.
- Approval payloads decode as a boolean; what a payload that does not decode does is the SDK's business.
- Cancellation ends a wait whose channel is empty, and may be followed by further waits in the same instance; the code
  sees a cancelled context at every later wait, so the model allows more runs than the code has.
- In `Machine` and `Engine` the engine is the only consumer of its channels. `Sharing.SharedRunIsARun` carries what
  holds of every run over to runs with other consumers; timers that found such a message waiting, and so did nothing,
  are not events of the run it names.
- One run at a time on an instance: its fields are shared.
- JSON text, signing, expiry, environment variables, invalid UTF-8, and the types of registered claims: an object is its
  list of members; dates and audiences are opaque values.
- Execution data, activity functions and JSON values other than the few that are looked at are abstract types.
- `redis/`, `nsq/`, `elasticsearch/`, `tigris/`, `cronjob/` and `db/`: clients and configuration.
- What the JWT library itself reads as a date or as an audience: it is not part of this model, and the claim results
  hold whatever it accepts.
- Listeners.ListenSignal: the loop is endless in the code; here it returns when nothing more will happen.
- Polling.Poll: seconds are exact reals, so the clock's granularity is not modelled.
