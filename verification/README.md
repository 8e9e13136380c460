# A verified model of microvm-ctl

microvm-ctl leases short-lived virtual machines ("microVMs") from a control plane, gives each one task, and brings the
result back to whoever asked for it. This project models its protocols in Dafny and proves what they keep:

| file | what it models |
|---|---|
| `LeaseRuntime.dfy`, `LeaseSafety.dfy`, `LeaseProgress.dfy` | the lease runtime inside the VM: handler thread, heartbeat thread and `/terminate` calls racing over one lock, against an orchestrator that may close the token at any moment; a state machine whose every lock acquire, release, send start and send end is a step |
| `LeaseContext.dfy` | the same runtime's shared object as a class, each method shown to be a run of that machine |
| `LeaseContract.dfy` | the lease payload: its encoder and the two independent decoders |
| `Completions.dfy` | what the VM reports on completion and what the durable orchestrator reads of it |
| `Telemetry.dfy` | the ring of log entries, and readers that carry a cursor |
| `EventStream.dfy` | the server-sent event stream and the client that watches it, for a stream cut at any character |
| `Throttle.dfy`, `ThrottledCallers.dfy`, `WaveSchedule.dfy` | the token bucket, the retry wrapper alone and shared by any number of concurrent callers, and the planned launch time against a real schedule |
| `Sizing.dfy`, `KeepAlive.dfy` | fan-out limit, plan and pre-flight; the heartbeat interval against the orchestrator's clock |
| `Fleet.dfy`, `Scaling.dfy`, `Dispatch.dfy` | the declarative fleet over a stale listing, victim selection, and the work queue over warm VMs |
| `Endpoint.dfy` | the endpoint client's token cache and retry loop |
| `Durable.dfy` | the durable orchestrator: one lease, relaunching, the fan-out |
| `StateMachine.dfy` | a small-step semantics for the fragment of the Amazon States Language in use |
| `StepFunctions.dfy`, `StepPayloads.dfy`, `StepSafety.dfy`, `StepFanout.dfy`, `StepProgress.dfy` | the generated state machines: names and targets, what they read of the VM's payloads, what every run keeps, why every run ends |
| `Template.dfy` | shard templates, client tokens, and `mvm lease run --shards` |
| `Exports.dfy`, `ExportLines.dfy` | the reader of pasted export lines and which printed lines it reads back |
| `Json.dfy`, `JsonPrefix.dfy`, `Text.dfy`, `Lines.dfy`, `Common.dfy` | a JSON printer and parser with their round trip, and string helpers |

Time is a real number of seconds. What the network, the services and the clock answer is a parameter of each method (its
"environment"), so every theorem holds for all of their answers. Threads are a nondeterministic choice of the next step.
The hash of a client token is taken to be injective: the theorems speak of the text that is hashed.

Check it with `dafny verify dfyconfig.toml`.

## What the proofs found

Each of these is a theorem about the code as it is; where a property one would expect is false, an input that breaks it
and the exact condition under which it holds are proved.

- The durable completer cuts `ErrorData` at 4096 characters, and a JSON object cut short never parses. A failure the VM
  marks retryable is therefore relaunched if and only if its report fits (`Durable.VmFailureIsRelaunchedIff`,
  `Durable.LongFailureIsNotRelaunched`); otherwise the flag and the data are lost. In the same way `TerminateFailed` can
  name the VM to terminate if and only if the VM knew its id and the cause fits 32768 characters
  (`StepPayloads.FailureNamesVmIff`, `StepPayloads.LongFailureNamesNoVm`).
- A failure the VM reports under the type of a throttling error is answered with another launch instead of being
  handled, up to eight times (`StepSafety.ReportedFailureIsHandledIff`).
- A VM that was not told its id sends `null` for it; a success then ends the state machine in failure, with no
  termination asked for (`StepSafety.NullIdIsNeverTerminated`).
- A handler that ends with an exception outside `Exception`, as `sys.exit()` does, does not complete its lease, and the
  heartbeats go on keeping it alive: a settled run is completed if and only if the handler returned, raised an
  `Exception`, or a `/terminate` call came (`LeaseProgress.SettledCompletedIff`,
  `LeaseProgress.EscapingHandlerKeepsLeaseAlive`).
- With no two failures in a row the orchestrator waits at most its timeout between accepted heartbeats if and only if
  two intervals and three of the slowest sends fit the timeout (`KeepAlive.GapsAreWithinIff`); with the clamped
  interval, sends of a ninth of the timeout do, sends of a sixth need not (`KeepAlive.LeaseStaysAlive`,
  `KeepAlive.SlowSendsCanLoseTheLease`).
- `capacity + rate * length` bounds the tokens granted in any window, but the API calls only up to the tokens callers
  held when it began; without that term the bound is false (`ThrottledCallers.CallsInWindow`,
  `ThrottledCallers.HeldTermIsNeeded`).
- `plan_fanout`'s launch time bounds the real schedule exactly when each restore brings in enough of a token
  (`WaveSchedule.LaunchTimeIsABoundIff`); at 0.2 launches a second it fails for two waves of one.
- `lost` may be marked between the winner's test and its send, and then the completion is still sent
  (`LeaseSafety.LostAfterTestStillSends`).
- A call that gives up on a 403 keeps the refused token cached, and the next call sends it again
  (`Endpoint.NextCallReusesTheToken`).
- A lease token that is falsy but not the empty string does not survive encoding and decoding, and the VM's decoder and
  the control plane's disagree about it (`LeaseContract.EncodeDecode`, `LeaseContract.ZeroTokenIsNotKept`,
  `LeaseContract.VmAcceptsWhatDecodeAccepts`).
- A plan that is not rejected still launches nothing when `max_concurrency` or the memory quota is negative
  (`Sizing.PlanCoversShards`, `Sizing.NegativeCeilingLaunchesNothing`).
- `TerminateStale` spares every VM within its own duration cap if and only if that cap is no longer than the one of the
  policy the machine was generated from (`StepSafety.ReaperSparesTheYoungIff`).
- A state machine whose lease is named like one of its own states has no state that launches
  (`StepFunctions.ReservedNameNeverLaunches`).

## Model

| member | source | states |
|---|---|---|
| LeaseRuntime.StepInv | microvm/hooks/server.py:500-561 | every step of every thread keeps the whole invariant: mutual exclusion, one winner, its error, the order of sends, the heartbeat count |
| LeaseRuntime.RunInv | microvm/hooks/server.py:500-561 | every interleaving keeps the invariant |
| LeaseSafety.AtMostOneCompletionSent | microvm/hooks/server.py:534-551 | at most one success or failure is sent per lease, it is the payload that set done, and error is that payload's error |
| LeaseSafety.ErrorIsTheWinners | microvm/hooks/server.py:534-551 | error is the handler's own if it won, Terminated if a terminate call won, None if and only if a result won |
| LeaseSafety.HeartbeatsStopAtDone | microvm/hooks/server.py:516-532 | no heartbeat is in flight once done is set and none starts later; the counter is the number that returned normally |
| LeaseSafety.FlagsNeverRevert | microvm/hooks/server.py:203-206 | lost, done and stop are never unset, and a closed token stays closed |
| LeaseSafety.LostBeforeTestMeansNothingSent | microvm/hooks/server.py:541-543 | if lost was marked before the winner tested it, no completion is sent |
| LeaseSafety.LeaseLostIsNeverSent | microvm/hooks/server.py:179-181 | an outcome that is check's own LeaseLost is never sent |
| LeaseSafety.LostAfterTestStillSends | microvm/hooks/server.py:541-545 | a run in which lost is marked after the winner's test and the completion is sent all the same |
| LeaseSafety.NothingAcceptedAfterClosing | microvm/hooks/server.py:516-551 | an orchestrator whose token is closed accepts no heartbeat and no completion |
| LeaseProgress.StepLowersMeasure | microvm/hooks/server.py:500-561 | every step of the runtime's own threads lowers a measure; a wake-up adds 8, a terminate call 11 |
| LeaseProgress.ProgramStepsBounded | microvm/hooks/server.py:500-561 | in any run the runtime's steps are bounded by the measure, the wake-ups and the terminate calls |
| LeaseProgress.WindsDownAfterStop | microvm/hooks/server.py:516-540 | once stop is set, the heartbeat thread is never woken again and the runtime ends in a bounded number of steps |
| LeaseProgress.SettledMeansCompleted | microvm/hooks/server.py:500-561 | once the handler returned or raised an Exception, or a terminate call came, a run that can go no further has done and stop set, the heartbeat thread gone, and the outcome handed over unless the lease was lost |
| LeaseProgress.SettledCompletedIff | microvm/hooks/server.py:500-514 | after the handler's end a run that can go no further has completed the lease if and only if the handler did not escape with an exception outside Exception, or a terminate call came |
| LeaseProgress.UntriggeredMeansNothingDone | microvm/hooks/server.py:500-514 | while no thread entered _deliver nothing is completed: done unset, nothing sent, and stop set only by the heartbeat thread itself as it ends |
| LeaseProgress.EscapingHandlerKeepsLeaseAlive | microvm/hooks/server.py:507-514 | a run in which the handler escapes, nothing is completed, and the heartbeats go on |
| LeaseProgress.CanSettle | microvm/hooks/server.py:500-561 | from every state such an end is reached in at most measure-many steps |
| LeaseContext.WholeDelivery | microvm/hooks/server.py:534-551 | an uninterrupted delivery is a run of the machine, and its effect on the shared fields |
| LeaseContext.WholePass | microvm/hooks/server.py:520-532 | an uninterrupted pass of the heartbeat loop is a run of the machine, and its effect on the shared fields |
| LeaseContext.LeaseContext.constructor | microvm/hooks/server.py:168-177 | a new context shows the machine's first state |
| LeaseContext.LeaseContext.Check | microvm/hooks/server.py:179-181 | raises exactly when the machine lets the handler end with LeaseLost, and what such a handler leaves is sent in no run that follows |
| LeaseContext.LeaseContext.MarkLost | microvm/hooks/server.py:203-206 | sets lost and stop, and nothing else |
| LeaseContext.LeaseContext.HeartbeatPass | microvm/hooks/server.py:516-532 | the object follows a run of the machine; a heartbeat goes out unless done; the loop goes on exactly when the machine waits |
| LeaseContext.LeaseContext.Deliver | microvm/hooks/server.py:534-551 | the object follows a run of the machine; the completion is sent exactly when neither done nor lost was set; a late one leaves the error alone |
| LeaseContext.LeaseContext.Terminate | microvm/hooks/server.py:553-561 | nothing once done; otherwise the failure says Terminated |
| LeaseContext.DeliverTwice | microvm/hooks/server.py:534-551 | a later delivery sends nothing and keeps the first one's error |
| LeaseContract.FromToDict | microvm/lease.py:57-78 | from_dict undoes to_dict for every valid lease, but that a falsy token becomes the empty string |
| LeaseContract.EncodeDecode | microvm/lease.py:141-164 | encoding succeeds exactly for a valid lease whose payload fits 4096 characters; decoding then gives back lease and task, unchanged if and only if the token is truthy or empty |
| LeaseContract.ZeroTokenIsNotKept | microvm/lease.py:57-78 | a valid lease whose token 0 comes back as the empty string |
| LeaseContract.VmAcceptsWhatDecodeAccepts | microvm/hooks/server.py:213-238 | the VM accepts every payload decode_payload accepts, with the same task, kind, target, id and heartbeat, and exactly when its token and region agree |
| LeaseContract.EncodedReachesVm | microvm/hooks/server.py:213-238 | every field of an encoded lease reaches the VM as it was set |
| Completions.ErrorReachesOrchestrator | microvm/integrations/durable.py:142-157 | which parts of the error the VM reports _error_from recovers: all of it while the report fits 4096 characters, type and message beyond |
| Completions.ResultReachesOrchestrator | microvm/integrations/durable.py:211-214 | a handler's result comes back as any JSON value it was, while the payload fits 240 KiB; a larger one as the truncation notice |
| Telemetry.Job.constructor | microvm/hooks/server.py:75-89 | a new job has an empty log |
| Telemetry.Job.Reset | microvm/hooks/server.py:82-89 | phase, progress and counters start over; the log and its numbers go on |
| Telemetry.Job.Log | microvm/hooks/server.py:106-121 | the entry gets the next number, and the ring stays the last min(n, 200) of all entries ever logged |
| Telemetry.Job.Phase | microvm/hooks/server.py:91-94 | sets the phase and logs it |
| Telemetry.Job.Progress | microvm/hooks/server.py:96-100 | sets done, and total when given |
| Telemetry.Job.Counter | microvm/hooks/server.py:102-104 | sets one counter |
| Telemetry.Job.Since | microvm/hooks/server.py:123-125 | exactly the entries after the cursor that the ring still reaches, in order |
| Telemetry.Job.TakeSnapshot | microvm/hooks/server.py:127-144 | the snapshot with the same entries, or the last 50 without a cursor, and the cursor for the next read |
| Telemetry.FoundIsSuffix | microvm/hooks/server.py:123-133 | a read finds a suffix of the whole log |
| Telemetry.Follower.Poll | microvm/playground/server.py:1194-1221 | a poll copies the entries past the cursor and moves the cursor to the job's number |
| Telemetry.ReaderGetsTheLog | microvm/hooks/server.py:106-144 | a cursor reader gets entries in order, none twice, misses exactly what the ring dropped, and gets everything if and only if at most 200 are logged between reads |
| Telemetry.FollowerGetsTheLog | microvm/playground/server.py:1190-1221 | the same for a reader that starts without a cursor |
| EventStream.WriteTurn | microvm/hooks/server.py:626-636 | one turn writes the snapshot frame if due and a frame per new entry, and leaves the cursor at the last entry |
| EventStream.WriteEvents | microvm/hooks/server.py:612-642 | all turns write the frames of what a cursor reader finds |
| EventStream.Watch | microvm/endpoint.py:155-167 | yields the JSON of the data lines, up to and including the first object whose lease is done |
| EventStream.CutStream | microvm/endpoint.py:155-163 | of a stream cut at any character, the data lines that parse are exactly the events that arrived whole, in order |
| EventStream.StreamCarriesTheLog | microvm/hooks/server.py:616-636 | apart from snapshots the stream carries what a cursor reader receives |
| EventStream.ServeAndWatch | microvm/endpoint.py:143-171 | server to client: what watch yields of what _events wrote, however much of it arrived |
| Throttle.TokensInRange | microvm/throttle.py:28-38 | tokens stay between 0 and the capacity |
| Throttle.GrantsAreFunded | microvm/throttle.py:28-38 | tokens granted plus tokens left came from what was there and what flowed in |
| Throttle.SlidingWindow | microvm/throttle.py:28-38 | at most capacity + rate * length grants in any window, whatever threads call and when |
| Throttle.BurstIsGranted | microvm/throttle.py:21-26 | a full bucket grants its whole capacity at one instant: the burst term of the bound is real |
| Throttle.SleepsAtMostOnce | microvm/throttle.py:28-38 | a lone acquirer that is denied is granted on its next visit |
| Throttle.TokenBucket.TryAcquire | microvm/throttle.py:30-37 | one visit to the bucket updates tokens and time as Visit says |
| Throttle.TokenBucket.Acquire | microvm/throttle.py:28-38 | a lone caller's loop takes exactly one token, in one or two passes |
| Throttle.BackoffClosedForm | microvm/throttle.py:50-65 | the delay is half a second doubled per throttling error, at most 8 s |
| Throttle.PauseInRange | microvm/throttle.py:57-65 | every pause is positive and at most twice the delay, 50 s after a quota error |
| Throttle.Throttled.TryOnce | microvm/throttle.py:51-54 | an attempt of a lone caller takes exactly one token |
| Throttle.Throttled.Call | microvm/throttle.py:49-65 | a lone caller: at most max_attempts attempts, one token each, up to the first answer that is not retried, which is returned; the pauses in between |
| ThrottledCallers.StepInv | microvm/throttle.py:20-65 | every step of every concurrent caller keeps the bucket and each caller's attempt count valid |
| ThrottledCallers.EveryCallSpendsAToken | microvm/throttle.py:49-54 | in any interleaving every token taken is spent on exactly one API call or still held |
| ThrottledCallers.GrantsInWindow | microvm/throttle.py:28-38 | at most capacity + rate * length tokens are taken in any window |
| ThrottledCallers.CallsInWindow | microvm/throttle.py:49-65 | API calls started in any window, retries included, by any number of callers, are at most capacity + rate * length + the tokens held when it began |
| ThrottledCallers.CallsSinceCreation | microvm/throttle.py:41-65 | since the wrapper's creation, at most capacity + rate * elapsed |
| ThrottledCallers.PromptCallsInWindow | microvm/throttle.py:49-65 | the held term vanishes when every call starts at its grant |
| ThrottledCallers.HeldTermIsNeeded | microvm/throttle.py:49-54 | a run of two callers in which calls exceed the bound without the held term |
| ThrottledCallers.AtMostMaxAttempts | microvm/throttle.py:49-65 | each caller makes at most max_attempts API calls, whatever the others do |
| Sizing.LimitIsGreatest | microvm/lease.py:212-233 | the limit is the greatest number that fits quota and policy, or 8 |
| Sizing.PlanCoversShards | microvm/lease.py:278-312 | a plan that is not rejected can launch exactly when neither ceiling is negative, in the least number of waves that covers the shards |
| Sizing.NegativeCeilingLaunchesNothing | microvm/lease.py:278-312 | a plan with a ceiling of -1 that is not rejected and launches nothing |
| Sizing.WorstCaseIsABound | microvm/lease.py:291-303 | shards that live no longer than the policy's cap stay within the worst-case VM-seconds and dollars, and within the approval threshold when no approval is asked |
| Sizing.LeaseManyLaunchesIff | microvm/fleet.py:247-261 | lease_many launches, one VM per lease in order, exactly when count, quota, concurrency and VM-seconds fit |
| WaveSchedule.WaveIsFast | microvm/lease.py:289-290 | n tokens from a token in hand take at most (n-1)/rate |
| WaveSchedule.SlowIsExact | microvm/throttle.py:28-38 | the exact time of every wave when a restore refills less than one token |
| WaveSchedule.LaunchTimeIsABoundIff | microvm/lease.py:286-290 | the unrounded launch time bounds the real wave schedule if and only if the restores keep up; always when rate * 3.5 s is at least one token |
| WaveSchedule.LaunchTimeFailsForSlowRates | microvm/lease.py:286-290 | 0.2 launches a second and two waves of one exceed it |
| KeepAlive.IntervalIsClamped | microvm/lease.py:122-129 | the interval is the greatest whole number within the request and a third of the timeout, never under 5; three fit the timeout exactly from 15 s on |
| KeepAlive.GapsAreWithinIff | microvm/hooks/server.py:516-532 | with no two failures in a row the orchestrator waits at most the timeout between accepted heartbeats, in every run, if and only if 2 intervals + 3 sends fit it |
| KeepAlive.FirstIsWithinIff | microvm/hooks/server.py:516-532 | and for the first one, counted from before the launch, if and only if the loop's start + 1 interval + 2 sends fit it |
| KeepAlive.SuccessesAreClose | microvm/hooks/server.py:516-532 | on the VM's own clock successful sends end within the timeout of each other already with sends of a sixth of it |
| KeepAlive.LeaseStaysAlive | microvm/hooks/server.py:516-532 | with the clamped interval, sends of at most a ninth of the timeout and no two failures in a row, the orchestrator never waits longer than the timeout between accepted heartbeats, nor for the first if the loop starts within four ninths of it |
| KeepAlive.SlowSendsCanLoseTheLease | microvm/hooks/server.py:516-532 | sends of a sixth of the timeout: a run in which the orchestrator waits longer |
| KeepAlive.TwoFailuresCanLoseTheLease | microvm/hooks/server.py:516-532 | two failures in a row: the same, with sends of 1 s |
| Fleet.MembersAreTheLive | microvm/fleet.py:322-327 | however stale the listing is about terminated VMs, members is exactly the live fleet |
| Fleet.Fleet.TerminateVm | microvm/fleet.py:329-331 | an id is remembered exactly when the call did not raise; no VM is ever terminated twice |
| Fleet.Fleet.ListMembers | microvm/fleet.py:322-327 | the live VMs, each once |
| Fleet.Fleet.Size | microvm/fleet.py:333-334 | the number of live VMs |
| Fleet.Fleet.ScaleTo | microvm/fleet.py:337-359 | the service after the call, raising or not; without an exception exactly desired VMs are live |
| Fleet.RepeatedScaleToCallsNothing | microvm/fleet.py:337-359 | repeating scale_to at the size reached calls nothing, over any stale listing |
| Fleet.Fleet.Drain | microvm/fleet.py:394-398 | every member's termination is tried once, and those accepted are gone |
| Fleet.Fleet.Reap | microvm/fleet.py:401-411 | the members reaped are those known to be older, all of them unless a call raised |
| Scaling.SortSorts | microvm/fleet.py:368-368 | the sort orders youngest first and permutes |
| Scaling.SortIsStable | microvm/fleet.py:368-368 | and keeps the order of equal start times |
| Scaling.VictimsAreASelection | microvm/fleet.py:361-369 | victims and spared are together the members, count of them victims |
| Scaling.VictimsSpareTheWarmest | microvm/fleet.py:361-369 | a VM that is not suspended is chosen only if all suspended ones are, and every spared one is at least as old |
| Dispatch.StepInv | microvm/fleet.py:448-487 | every step of every worker keeps the queue protocol's invariant |
| Dispatch.ItemsAreConserved | microvm/fleet.py:448-478 | queued, in-flight and finished items partition the bodies in every reachable state |
| Dispatch.AtMostPerVm | microvm/fleet.py:480-485 | no VM has more than per_vm requests in flight |
| Dispatch.EveryScheduleEnds | microvm/fleet.py:454-487 | every schedule takes at most five steps per body and two per worker |
| Dispatch.StuckMeansJoined | microvm/fleet.py:480-487 | a schedule that cannot go on has joined all its threads |
| Dispatch.JoinedResults | microvm/fleet.py:454-487 | at the join an entry is missing exactly for items still queued, which needs every worker killed by on_result |
| Dispatch.DispatchReturnsEverything | microvm/fleet.py:414-487 | when on_result does not raise, one entry per body comes back, in order, even if requests raise |
| Dispatch.FilledAtMostOnce | microvm/fleet.py:454-478 | in every schedule an entry is stored, and on_result called for it, at most once, on_result after the store; once filled it never changes |
| Dispatch.JoinedFillsOnce | microvm/fleet.py:454-487 | a joined schedule stored and notified every item exactly once, but for those left in the queue; none are when on_result does not raise |
| Endpoint.EndpointClient.constructor | microvm/endpoint.py:37-51 | no token yet |
| Endpoint.EndpointClient.AuthHeaders | microvm/endpoint.py:59-70 | mints exactly when there is no token or it is past 80% of its lifetime |
| Endpoint.EndpointClient.TryOnce | microvm/endpoint.py:90-108 | one attempt: headers, cache, pause and whether the loop goes on |
| Endpoint.EndpointClient.Request | microvm/endpoint.py:73-109 | at most max_attempts sends; what each carried; which response is returned and when the loop ended; the cache it leaves |
| Endpoint.TokensAreFresh | microvm/endpoint.py:59-70 | every request carries a token minted in the call no more than 80% of its lifetime before, or the one found in the cache before its expiry; the caller's headers are kept |
| Endpoint.RefusedTokenIsReplaced | microvm/endpoint.py:104-107 | a retried 403 is followed by a token minted after it; otherwise only expiry changes the token |
| Endpoint.MintsAreAccountedFor | microvm/endpoint.py:59-109 | tokens minted are exactly one for an empty cache, one per retried 403, one per expiry |
| Endpoint.PauseInRange | microvm/endpoint.py:97-103 | after the n-th 429 a pause between d and 2d with d doubling up to 8 s; 2 s after a 502 that is retried; none otherwise |
| Endpoint.NextCallReusesTheToken | microvm/endpoint.py:104-109 | the token of a call's last send is sent again by the next call unless it expired, a refused one included |
| Durable.LeaseMicrovm | microvm/integrations/durable.py:161-214 | one lease: its launch, its termination, and the outcome for each way the callback ends |
| Durable.LeaseWithRelaunch | microvm/integrations/durable.py:217-228 | the attempts made, their effects in order, and the last attempt's answer |
| Durable.AttemptsStop | microvm/integrations/durable.py:222-228 | attempts stop at the first that is done or not retryable, or at the limit |
| Durable.RelaunchHoldsOneVm | microvm/integrations/durable.py:217-228 | at most max_relaunches + 1 launches, at most one live VM at any moment, one left only if the last attempt leaked it |
| Durable.RelaunchCleansUp | microvm/integrations/durable.py:217-228 | when an outcome is returned every VM was terminated before the next launch and the return |
| Durable.VmFailureIsRelaunchedIff | microvm/integrations/durable.py:204-227 | a failure the VM reports is relaunched exactly when it is marked retryable and its report fits ErrorData |
| Durable.LongFailureIsNotRelaunched | microvm/hooks/server.py:318-321 | a retryable failure with a message of 4096 characters is not relaunched |
| Durable.LeaseMap | microvm/integrations/durable.py:260-300 | nothing is launched unless the plan stands and is approved; otherwise succeeded + failed is the number of tasks, under the clamped concurrency |
| Durable.LiveVmsAreBounded | microvm/integrations/durable.py:283-290 | however items interleave, live VMs are at most the items under way plus those that raised and left a VM |
| Durable.MapFitsTheQuota | microvm/integrations/durable.py:279-290 | while no item has left a VM running, a map within its concurrency never holds more live VMs than fit the memory quota and the policy |
| StepFunctions.NamesAreDistinctIff | microvm/integrations/stepfunctions.py:101-262 | all state names, nested ones included, are distinct exactly when the lease's name is not one of the generator's |
| StepFunctions.NoTargetDangles | microvm/integrations/stepfunctions.py:101-262 | every transition leads to a state of its own scope, whatever the lease is called |
| StepFunctions.Lookup | microvm/integrations/stepfunctions.py:101-203 | each name of a lease flow finds the state the generator wrote under it |
| StepFunctions.ReservedNameNeverLaunches | microvm/integrations/stepfunctions.py:118-203 | the lease's name finds the launching state exactly when it is none of the flow's own names |
| StepPayloads.SuccessNamesVm | microvm/hooks/server.py:187-204 | whatever the handler returned, truncated or not, the success payload parses to the VM's own id, or to null if it had none |
| StepPayloads.FailureNamesVmIff | microvm/hooks/server.py:284-300 | a failure the VM sends names a VM to TerminateFailed exactly when the VM knew its id and the JSON fits 32768 characters, and it is that id |
| StepPayloads.LongFailureNamesNoVm | microvm/hooks/server.py:298-300 | a message of 32768 characters names none |
| StepSafety.LeaseStep | microvm/integrations/stepfunctions.py:118-203 | every step of a lease flow keeps its invariant |
| StepSafety.SingleLeaseIsSafe | microvm/integrations/stepfunctions.py:286-305 | every run: success means the termination of the VM in $vm was accepted or answered not-found; a failure that names a VM has had its termination attempted; and when the answers are the VM's own payloads, that VM is the one launched last |
| StepSafety.NullIdIsNeverTerminated | microvm/integrations/stepfunctions.py:137-167 | a success with a null microvm_id: the run fails in Terminate and nothing was asked for |
| StepSafety.ReportedFailureIsHandledIff | microvm/integrations/stepfunctions.py:131-136 | a reported failure goes to OnLeaseError, not to another launch, exactly when its type is no throttling error's or the retries are used up |
| StepSafety.ReportedFailureIsCleanedUp | microvm/integrations/stepfunctions.py:146-165 | a run that fails after a failure its VM reported in at most 32768 characters has called terminateMicrovm for that VM, the one launched last |
| StepSafety.StaleIdsAre | microvm/integrations/stepfunctions.py:113-116 | TerminateStale selects exactly the listed VMs in three states that are older than the cap |
| StepSafety.ReaperSparesTheYoungIff | microvm/integrations/stepfunctions.py:111-116 | it never selects a VM within that VM's own cap if and only if that cap is no longer than the policy's |
| StepSafety.ReaperIsSafe | microvm/integrations/stepfunctions.py:172-194 | whatever follows, it asks only for VMs that were listed and too old when its items were evaluated |
| StepFanout.FanoutIsSafe | microvm/integrations/stepfunctions.py:216-262 | every run of a fan-out: no shard before a needed approval, at most MaxConcurrency under way, every failure that names a VM handled, and success only with every shard's VM cleared |
| StepFanout.ShardsTidyTheirOwn | microvm/integrations/stepfunctions.py:216-262 | when the answers are the VMs' own payloads, the VM each shard clears or handles is the one that shard launched last |
| StepProgress.LeaseProgress | microvm/integrations/stepfunctions.py:118-203 | every step of a lease flow lowers a measure, retries and reaper iterations included |
| StepProgress.EveryRunEnds | microvm/integrations/stepfunctions.py:101-262 | every run of every generated machine ends within a bound given by its shards and the longest listing |
| StepProgress.RootMoves | microvm/integrations/stepfunctions.py:216-262 | a fan-out that has not ended can always take a step |
| Template.FillKeepsShape | microvm/cli.py:483-491 | filling changes the text of string values and nothing else |
| Template.FillIsIdempotent | microvm/cli.py:483-491 | a filled template holds no placeholder, and filling it again changes nothing |
| Template.FilledAlike | microvm/cli.py:604-606 | two shards get the same string exactly when the template does not mention the shard |
| Template.TasksAlike | microvm/playground/server.py:1256-1264 | two shards get the same task exactly when no string value mentions the shard |
| Template.MaterialsAlike | microvm/lease.py:167-177 | two shards share what their client token is made from exactly when neither template mentions the shard and, without a token, their uuids collide; colons do not matter |
| Template.ShardTokensAreDistinct | microvm/cli.py:600-610 | the same for the leases of one command line |
| Template.RunMany | microvm/cli.py:582-632 | the exit code of each gate, in order; what is launched for each shard; and that lease_many then cannot refuse |
| Exports.ParseExports | microvm/playground/server.py:712-736 | the settings of the lines, later ones over earlier ones |
| Exports.ConcatenationUpdates | microvm/playground/server.py:712-736 | two texts joined by a line break: the settings of the first updated by the second's |
| ExportLines.LineRoundTripIff | microvm/playground/server.py:712-736 | a printed line comes back if and only if its value is non-empty, on one line, unquoted, without blanks at the ends, comment mark or final semicolon |
| ExportLines.QuotedRoundTripIff | microvm/playground/server.py:729-731 | a quoted value comes back if and only if it is not empty and does not hold the quote |
| ExportLines.PrintedExportsRoundTrip | microvm/playground/server.py:911-911 | the exports post_bootstrap prints, pasted back, give the same settings |
| Json.LoadsOfDumps | microvm/lease.py:141-156 | json.loads undoes json.dumps, in either style, for every value |
| JsonPrefix.CutObjectDoesNotLoad | microvm/endpoint.py:160-163 | no proper prefix of a printed object is JSON |

## Left out

- LeaseRuntime.StepInv: the threads are a step relation on values, since they interleave between single statements; `LeaseContext.dfy` has the object, its methods run without interruption.
- Dispatch.StepInv: the queue, the result list and the worker threads are a step relation on values, for the same reason; `client_factory` raising, the timing field and the parsing of response bodies are not modelled.
- Sends are what a completer is asked to send: that the HTTP completer may POST again after a transport error is not modelled, nor are the other completers' calls beyond their token check.
- LeaseRuntime.RunInv: an exception outside Exception is modelled for the handler, not for a completer's own call.
- Telemetry.Job.Phase: takes its two locked sections back to back; another thread's line may come between them in the source.
- Throttle.TokenBucket.Acquire: the class takes a lone acquirer; any interleaving of acquirers is a sequence of visits in SlidingWindow.
- Throttle.Throttled.TryOnce: the class takes a lone caller; ThrottledCallers has any number of them.
- Throttle.Throttled.Call: the same; ThrottledCallers leaves open how long a caller sleeps, which its bounds do not depend on.
- Fleet.MembersAreTheLive: assumes that a live VM is listed as it is; a listing that is late in showing a launch is not modelled, as the source does not remember launches either. `wait_running` is left out.
- Sizing.LimitIsGreatest: exact arithmetic; the rounding of the reported seconds and dollars and floating-point error are left out.
- Durable.LeaseMap: the SDK's replay, its own step retries and its scheduling of the map are left out; items are given in the order they complete. LiveVmsAreBounded covers every interleaving of their effects.
- Durable.LeaseMicrovm: step and callback names, the launch arguments and the function's region are left out.
- StepSafety.SingleLeaseIsSafe: JSONata is the few expressions the generator writes; timeouts, heartbeats and retry intervals appear as the outcomes they cause, not as times. A null argument of terminateMicrovm is taken as one that cannot be evaluated. A VM whose launch erred without a report is left to the reaper, as in the source.
- StepFunctions.Lookup: inert fields (comments, roles, idle policy, seconds) are left out; IAM statements too.
- Endpoint.EndpointClient.Request: sleeping is recorded, not waited for; `status` and `wait_ready` are thin wrappers. The deadline of `watch` and a read that raises are a stream cut short.
- EventStream.WriteEvents: the hour's limit, the client's disconnection and the moment a snapshot falls due are the choice of turns.
- Json.LoadsOfDumps: NaN, infinities and lone surrogates are left out, and a float is kept as its literal.
- Exports.ParseExports: case folding is that of ASCII letters.
- LeaseContract.EncodeDecode: lengths are in characters, as in the source; `default=str` conversions are left out. A float literal too small for a double, such as 1e-400, counts as the nonzero number it spells, where Python reads 0.0.
- AWS clients, quota look-ups, image builds, S3, IAM, cost tables, the playground's pages and the command-line tables: plumbing and presentation.
