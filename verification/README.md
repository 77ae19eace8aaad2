# A Dafny model of the rumqtt client core

rumqtt is a family of MQTT clients. This project models the parts of it that are
protocols or codecs in their own right and proves what they promise over every input
and every run.

The centre is *ordered shutdown*: a client queues a fence behind its publishes, the
fence closes admission, every earlier publish is sent and acknowledged, and only then
does DISCONNECT leave. Its layers are modelled one by one and then together:

- `Admission` — sender clones feed several lanes through one gate; each critical
  section is one atomic step. `SendWake` splits blocking sends and wake calls at every
  lock and atomic access, `SendOnce` follows one such send through all its retries, and
  `GateFlags` splits the gate's lock-free reads.
- `Scheduler` — the outbound queue with its one bypass rule and uncrossable fences.
- `Ledger` — the publish counter and first-failure cell that races with its readers.
- `ShutdownLoop` — putting the fence back after a reconnect, resolving completions,
  what an error does to a standing shutdown, delivering the terminal events and error.
- `ShutdownSystem` — clients, lanes, scheduler, pending queue, reconnect clean-up, session
  resets, every way a client's request leads to a DISCONNECT, and the ledger with its split
  accesses, in one transition system. `ShutdownFlow` and `ShutdownInvariant` prove its
  invariant, `OrderedShutdown`, `ReplayOrder` and `ShutdownEnd` the end-to-end theorems, and `ShutdownRuns`
  three runs that show where they end.

Around it: `Recovery` (session recovery drivers that may fail or be dropped at any
await, with `RecoveryProgress` on what each step records), `ConnectionObservation` (attempt guards), `Dial` (address interleaving and the
connect race), `Topic` (filters), `Primitives` and `Framing` (variable byte integers
and packet framing), `Router` and `Nats` (the benchmark router's PUBLISH codec and the
NATS PUB codec). `Requests`, `Marks`, `Paths`, `Common` and `Utf8` hold shared definitions.

Code that changes state in place is a class or a method proved against a pure function;
the run theorems are about those functions. Runs are finite sequences of states and
events of any length, so each theorem covers every reachable state. Steps are
sequentially consistent, time is a natural number, and clocks, readiness, connect
outcomes and acknowledgements are inputs.

Some promises do not hold of the code as it is. Each has a concrete input or run and the
exact condition under which it does hold:

- A publish that was admitted can be lost before it is ever handled. With a clean session,
  which is the default, a publish held while the connection is lost is dropped by the fresh
  session without a ledger observation, and a later ordered shutdown still succeeds
  (`FreshSessionLosesPublish`). The fence leaves last, and the ordered DISCONNECT means that
  everything succeeded, if and only if no earlier step discarded a held publish
  (`FenceLeavesLast`, `DisconnectAfterSuccess`, `LossExactly`).
- Publishes that a persisted session hands back can leave after the fence
  (`LoadedSessionFollowsFence`); they leave before it if and only if no session with a publish
  was loaded behind a held fence since the queue was last sorted or emptied
  (`ReplaysLeaveFirst`).
- A DISCONNECT that does not come from a fence promises nothing about queued publishes
  (`PlainDisconnectLeavesPublish`). With nothing pending and no failure in the ledger, all
  publishes have succeeded if and only if none was discarded and none is in the lane or the
  loop (`AllSucceededExactly`).
- A gate can admit more than one fence (`PriorityLaneAdmitsSecondFence`); a run admits at
  most one if and only if no second one is offered to an open priority lane
  (`OneFenceExactly`, and for what lock-free readers see `ClosureIsPermanent`). That nothing
  non-priority follows a fence holds in every run.
- A sender can miss the wake-up of a termination (`BoundedPriorityLaneLosesWakeup`); once
  all wake calls have returned, a sleeper is still rightly asleep if and only if its lane
  is not a terminated priority lane (`QuiescentSleepersAreBlocked`), and on unbounded lanes
  no sender ever sleeps (`SleepersAreOnBoundedLanes`). The 64-bit version a waiter compares
  wraps around: after exactly 2^64 moves a wake-up is lost (`WrappedVersionLosesWakeup`), and
  none is unless a version is tested after a positive multiple of 2^64 moves (`NoLostWakeup`).
- Dropping the recovery's connect future at its fresh connect leaves a persistent
  configuration asking for clean sessions, and a later attempt records a clean connect as its
  recovery (`CancelledConnectForgetsPersistence`); a run keeps the configuration if and only
  if that never happens (`IntactExactly`). A persistent session is recorded established only
  with Session Present false in every run under the default policy for a contradictory CONNACK
  (`PersistentMeansSessionAbsent`); under the accepting policy, if and only if no clean connect
  is recorded that reported a session (`RecordsExactly`).
- The attempt counter of a connection observation saturates, and an older guard can then end
  the newest attempt (`SaturationConfusesGuards`); below saturation every observed field is
  what the history says (`ObservationIsHistory`).
- Filter matching misses two cases of filter subsumption, `+/#` over `#` and any filter
  over one that starts with `$`, and no others (`SubsumptionExact`).
- The router writes the low sixteen bits of a topic length; its body round trip holds if
  and only if the topic has at most 65,535 bytes (`BodyRoundTrip`).
- The NATS reader accepts lengths the writer never prints; an accepted frame is the written
  one if and only if its length has no plus sign and no leading zero (`AcceptedReencodes`).

## Model

| member | source | states |
|---|---|---|
| Scheduler.OutboundScheduler.constructor | rumqttc-core/src/scheduler.rs:29-35 | a new scheduler is empty |
| Scheduler.OutboundScheduler.PushBack | rumqttc-core/src/scheduler.rs:38-40 | the item joins at the back |
| Scheduler.OutboundScheduler.NextReadyIndex | rumqttc-core/src/scheduler.rs:79-108 | the loop finds the eligible position, a ready front or a ready control behind blocked flow-controlled publishes only, and answers none exactly when there is none |
| Scheduler.OutboundScheduler.HasReady | rumqttc-core/src/scheduler.rs:64-69 | true exactly when some position is eligible |
| Scheduler.OutboundScheduler.PopNext | rumqttc-core/src/scheduler.rs:71-77 | removes exactly the eligible item, or nothing |
| Scheduler.OutboundScheduler.Drain | rumqttc-core/src/scheduler.rs:56-58 | returns the whole queue in order and leaves it empty |
| Scheduler.EligibleUnique | rumqttc-core/src/scheduler.rs:79-108 | at most one position is ever eligible, so selection is deterministic |
| Scheduler.SelectedExactly | rumqttc-core/src/scheduler.rs:79-108 | what leaves is a ready front, or the ready control behind any number of blocked flow-controlled publishes, and nothing else |
| Scheduler.Overtaking | rumqttc-core/src/scheduler.rs:79-108 | in every run with readiness changing at every pop, whatever leaves before an item pushed earlier is a control, and that item is a flow-controlled publish blocked at that pop |
| Scheduler.PushOrderKept | rumqttc-core/src/scheduler.rs:79-108 | publishes leave in push order, controls leave in push order, and no fence is crossed in either direction |
| Scheduler.Conservation | rumqttc-core/src/scheduler.rs:38-77 | every pushed item is queued or has left, and never both |
| Admission.SharedGate.Terminate | rumqttc-core/src/admission.rs:75-84 | termination sets the closed state and nothing else |
| Admission.SharedGate.ClearDeadline | rumqttc-core/src/admission.rs:85-88 | only the deadline is cleared |
| Admission.SharedLane.constructor | rumqttc-core/src/admission.rs:189-214 | a new lane is empty, with one sender and one receiver |
| Admission.SharedLane.CloneSender | rumqttc-core/src/admission.rs:226-231 | one more sender is counted |
| Admission.SharedLane.DropSender | rumqttc-core/src/admission.rs:233-244 | one sender fewer, and the last one knows it is the last |
| Admission.SharedLane.TrySendItem | rumqttc-core/src/admission.rs:263-311 | one admission transaction: refused with the stated error and no change, at any sequence, or stamped with the next sequence, appended, and installed if it is a fence |
| Admission.SharedLane.TryRecv | rumqttc-core/src/admission.rs:411-423 | takes the front item, or tells an empty lane from one without senders |
| Admission.SharedLane.DrainAll | rumqttc-core/src/admission.rs:425-431 | takes the whole queue in order |
| Admission.SharedLane.BeginWait | rumqttc-core/src/admission.rs:438-441 | a receive takes a slot exactly on a rendezvous lane |
| Admission.SharedLane.PollReceive | rumqttc-core/src/admission.rs:449-473 | the item and its rendezvous slot leave in one critical section |
| Admission.SharedLane.CancelWait | rumqttc-core/src/admission.rs:378-388 | an unfinished receive gives its slot back |
| Admission.SharedLane.DropReceiver | rumqttc-core/src/admission.rs:246-256 | the dropping receiver takes all queued items with it |
| Admission.AdmittedExactly | rumqttc-core/src/admission.rs:263-311 | an item is admitted if and only if a receiver is left, the gate is not terminated, no fence stands or the lane is priority, there is room, and a timed fence's timeout is representable; it is then the offered one with the next number and, for a timed fence, the deadline of its own timeout |
| Admission.RefusedExactly | rumqttc-core/src/admission.rs:263-289 | it is refused as full or as disconnected exactly when due, changes nothing, and is marked closing for a standing fence, invalid for an unrepresentable timeout, and otherwise not at all |
| Admission.GateMovesExactly | rumqttc-core/src/admission.rs:75-88 | the counter moves with the log; termination, fence and deadline each change only by their own action |
| Admission.RefusedSendChangesNothing | rumqttc-core/src/admission.rs:263-289 | a send is refused exactly when the whole state is unchanged |
| Admission.GlobalOrder | rumqttc-core/src/admission.rs:263-311 | in every run over any lanes, the n-th admission has sequence n, each lane holds exactly its share of the log, and its receive history followed by its queue is strictly increasing |
| Admission.FenceClosure | rumqttc-core/src/admission.rs:264-303 | in every run, no non-priority item is ever admitted after a fence, and the gate holds the latest fence |
| Admission.OneFenceExactly | rumqttc-core/src/admission.rs:272-303 | a run admits at most one fence if and only if no second one is offered to an open priority lane with room |
| Admission.DeadlineBelongsToFence | rumqttc-core/src/admission.rs:280-303 | a deadline in the gate is the one stamped on the admitted fence |
| Admission.TerminationIsFinal | rumqttc-core/src/admission.rs:75-84 | after termination nothing is ever admitted on any lane |
| Admission.LaneConservation | rumqttc-core/src/admission.rs:226-298 | admitted items are the taken ones, then the discarded ones, then the queued ones, in order; capacities hold, rendezvous lanes hold no more than live plus cancelled waits, and every counter is its number of live handles |
| Admission.PriorityLaneAdmitsSecondFence | rumqttc-core/src/admission.rs:263-303 | a second fence sent on a priority lane is admitted and replaces the first |
| SendWake.UnblockingOwesWake | rumqttc-core/src/admission.rs:75-127 | every action that turns a blocked lane into an unblocked one leaves its thread owing that lane a wake, unless it terminates a priority lane |
| SendWake.AttemptOwesWake | rumqttc-core/src/admission.rs:304-309 | so does every send attempt |
| SendWake.NoLostWakeup | rumqttc-core/src/admission.rs:154-173 | in every interleaving of lock and atomic steps, unless a version is tested after a positive multiple of 2^64 moves, a sender asleep on a non-priority lane, or on a priority lane before termination, would be refused again, or some thread has still to move the version or to notify |
| SendWake.QuiescentSleepersAreBlocked | rumqttc-core/src/admission.rs:332-358 | in such a run, once all wake calls have returned, a sleeper's retry would find its lane full if and only if the lane is not a terminated priority lane |
| SendWake.WaitersAreRegistrations | rumqttc-core/src/admission.rs:168-173 | in every run, wrapped or not, the waiter count is the number of registered senders, so no decrement underflows |
| SendWake.SleepersAreOnBoundedLanes | rumqttc-core/src/admission.rs:276-283 | in every run, a refused sender is on a lane with a capacity |
| SendWake.BoundedPriorityLaneLosesWakeup | rumqttc-core/src/admission.rs:114-127 | a run in which termination leaves a sender asleep on a bounded priority lane with every wake call returned |
| SendWake.WrappedVersionLosesWakeup | rumqttc-core/src/admission.rs:154-173 | a run in which exactly 2^64 version moves between reading and testing put a sender to sleep with every wake call returned and a receive waiting for it |
| SendOnce.SendsOnce | rumqttc-core/src/admission.rs:332-358 | in every interleaving, between a `send` and the thread's next one at most one attempt is answered, exactly one if the thread is idle again; every attempt offers that item to that lane, and none follows the answer |
| SendOnce.AdmitsOnce | rumqttc-core/src/admission.rs:332-358 | one `send` never puts its item on the log twice, however often it is refused, woken and retried |
| SendOnce.ReturnsAnswered | rumqttc-core/src/admission.rs:344-352 | a `send` that has returned was admitted at one of its attempts, or was told at one that the lane is closed with nothing changed |
| SendOnce.AnswersMean | rumqttc-core/src/admission.rs:263-311 | an admitting attempt appends exactly the offered item with the next number to the log; any other answer is a closed lane |
| SendOnce.BlockedSenderSleeps | rumqttc-core/src/admission.rs:338-358 | left alone on a full lane, a registered sender reads the version, is refused once more and parks on that version |
| SendOnce.WokenSenders | rumqttc-core/src/admission.rs:348-357 | a wake-up that finds the version unmoved sleeps again, any other tries again |
| SendOnce.WakesExactly | rumqttc-core/src/admission.rs:114-127 | an action owes a lane a wake if and only if it frees a slot, adds a waiting receive or drops the receiver there, or closes the gate for a non-priority lane |
| GateFlags.FlagsAreLinearised | rumqttc-core/src/admission.rs:108-113 | the lock-free flags always equal the linearised lifecycle at the moment of the load |
| GateFlags.SnapshotIsLinearised | rumqttc-core/src/admission.rs:128-135 | a snapshot is the linearised fence and deadline at the step that answers |
| GateFlags.CriticalSectionsAreAtomic | rumqttc-core/src/admission.rs:75-88 | every step leaves the linearised lifecycle alone or performs one whole critical section on it: an admission with the effect of `Admission.TrySend`, a termination or a deadline clearing |
| GateFlags.ClosureIsPermanent | rumqttc-core/src/admission.rs:75-135 | a termination or a fence once visible stays visible; the fence's number only grows, and is unchanged if and only if no second fence is offered to an open priority lane in between |
| Ledger.SharedLedger.ReadResult | rumqttc-v4/src/disconnect.rs:17-26 | the recorded error if there is one, otherwise whether nothing is pending |
| Ledger.Observation.constructor | rumqttc-v4/src/disconnect.rs:30-34 | a new observation counts as pending |
| Ledger.Observation.Finish | rumqttc-v4/src/disconnect.rs:35-43 | only the first finish counts down, and only the first failure is recorded |
| Ledger.Observation.Drop | rumqttc-v4/src/disconnect.rs:44-51 | dropping an unfinished observation records a failure and counts down |
| Ledger.OkTrueIsSound | rumqttc-v4/src/disconnect.rs:17-51 | in every race of split finishes and split reads, `Ok(true)` means every observation registered before the counter load has finished successfully |
| Ledger.AnswersExactly | rumqttc-v4/src/disconnect.rs:17-51 | in every race, a reader is told an error if and only if a failure was published before its second access, and then the first one published; otherwise whether every observation that existed at its first access was finished by then |
| Ledger.CounterAndFailureAreReal | rumqttc-v4/src/disconnect.rs:17-51 | the counter is the number of unfinished observations, and a failure is recorded exactly when some observation has failed, with that observation's error |
| Ledger.FirstFailureStays | rumqttc-v4/src/disconnect.rs:35-51 | the first recorded failure never changes |
| Ledger.QuietReadIsExact | rumqttc-v4/src/disconnect.rs:17-26 | with nothing in between, `Ok(true)` is answered exactly when all observations have succeeded |
| Ledger.ReadOrderMatters | rumqttc-v4/src/disconnect.rs:17-26 | reading the failure before the counter would answer `Ok(true)` for a failed publish |
| ShutdownLoop.EventLoop.RestoreOrderedFenceAfterCleanup | rumqttc-v4/src/eventloop_disconnect.rs:8-39 | the loop leaves plain requests, then fences, then the captured fence, and clears what it captured |
| ShutdownLoop.RestoreOrders | rumqttc-v4/src/eventloop_disconnect.rs:8-39 | plain requests keep their order, queued fences keep theirs, and the captured fence is last |
| ShutdownLoop.RestoreFencesLast | rumqttc-v4/src/eventloop_disconnect.rs:8-39 | nothing but fences follows a fence |
| ShutdownLoop.RestoreConserves | rumqttc-v4/src/eventloop_disconnect.rs:8-39 | the queue gains exactly the captured fence, with the gate's sequence and its completion, and loses nothing |
| ShutdownLoop.RestoreIdempotent | rumqttc-v4/src/eventloop_disconnect.rs:8-39 | a second restoration changes nothing |
| ShutdownLoop.RepeatedRestore | rumqttc-v4/src/eventloop_disconnect.rs:8-39 | any positive number of restorations equals one |
| ShutdownLoop.RestoreLeavesAlone | rumqttc-v4/src/eventloop_disconnect.rs:8-18 | without a fence, or while flushing, nothing is replayed |
| ShutdownLoop.ResolveAllResolves | rumqttc-v4/src/disconnect.rs:186-191 | every completion listed is resolved, earlier results stand, and each new one has the given result |
| ShutdownLoop.EventLoop.ResolveEvery | rumqttc-v4/src/eventloop_disconnect.rs:257-261 | the loop resolves each listed completion in turn |
| ShutdownLoop.EventLoop.FinishOrdered | rumqttc-v4/src/eventloop_disconnect.rs:233-262 | the captured completion and all those in the loop, the scheduler and both lanes are resolved, the lanes are emptied into the queue, and the phase follows the result |
| ShutdownLoop.EventLoop.DiscardShutdownWork | rumqttc-v4/src/eventloop_disconnect.rs:309-326 | in-flight packets, both lanes and the scheduler join the pending queue in that order |
| ShutdownLoop.EventLoop.Resume | rumqttc-v4/src/eventloop_disconnect.rs:116-132 | a surviving shutdown has its captured fence back at the end of the queue, with the gate's sequence and its completion |
| ShutdownLoop.EventLoop.EndShutdown | rumqttc-v4/src/eventloop_disconnect.rs:133-156 | a dead shutdown has terminated the gate, resolved every completion with the reason, and emptied lanes and scheduler |
| ShutdownLoop.EventLoop.AfterFencedError | rumqttc-v4/src/eventloop_disconnect.rs:93-156 | an error after a completed shutdown is reported and changes nothing; it resumes the shutdown exactly on a transport error of a resumable session before the terminal write without a failed publish; otherwise it terminates the gate and resolves every completion |
| ShutdownLoop.ReasonExactly | rumqttc-v4/src/eventloop_disconnect.rs:133-144 | which reason each kind of error gives |
| ShutdownLoop.TerminalDelivery | rumqttc-v4/src/eventloop_disconnect.rs:192-197 | committed events come out in order, each once, then the error once, then nothing |
| ShutdownFlow.LaneEmptyAfterFence | rumqttc-core/src/admission.rs:263-311 | once the fence has left its lane, the lane is empty |
| ShutdownFlow.NothingHeldIsBeyond | rumqttc-v4/src/eventloop.rs:2149-2162 | the branch that discards a request numbered after the fence is never taken for a request in the loop |
| OrderedShutdown.OnePlace | rumqttc-v4/src/eventloop.rs:818-880 | in every run, an admitted publish is in exactly one place, its lane, the scheduler, the pending queue, handled or discarded, and an unadmitted number is nowhere |
| OrderedShutdown.OneFence | rumqttc-v4/src/eventloop.rs:818-880 | counting lane, scheduler, pending queue, captured packet and discarded requests, there is exactly one fence from its admission on and none before, through any number of reconnects and resets |
| OrderedShutdown.LossExactly | rumqttc-v4/src/eventloop.rs:1027-1122 | in every run, no admitted publish has been discarded unhandled if and only if no step found one in what it discards: a fresh session or reset the held requests, the end of a DISCONNECT or of its timeout the lanes too, a failed dispatch the request it had popped |
| OrderedShutdown.FenceClosesLane | rumqttc-v4/src/client.rs:476-490 | from the fence's admission on, the publish lane admits nothing |
| OrderedShutdown.FenceLeavesLast | rumqttc-core/src/scheduler.rs:71-108 | in every run of clients, receives, dispatches, reconnects and resets, when the fence leaves the scheduler every publish ever admitted, then or later, has been handled or discarded, never both; and all have been handled if and only if no earlier step discarded one |
| ReplayOrder.ReplaysLeaveFirst | rumqttc-v4/src/eventloop.rs:1139-1182 | when the fence leaves, no publish at all is left behind it, replayed ones included, if and only if no session with a publish was loaded behind a held fence since the last clean-up, fresh session, reset or drain |
| ShutdownEnd.DoneExactly | rumqttc-v4/src/eventloop.rs:1096-1122 | in every run the loop is done if and only if some step has written a DISCONNECT out, timed out, failed for good or reset a session under unfinished work, and then nothing is admitted any more |
| ShutdownEnd.CompletedMeansDisconnected | rumqttc-v4/src/eventloop.rs:2361-2408 | a shutdown that reports completion has written its ordered DISCONNECT at an earlier step, when every publish ever admitted, then or later, had succeeded or been discarded |
| ShutdownEnd.EndLeaves | rumqttc-v4/src/eventloop_disconnect.rs:233-262 | a shutdown that is written out, fails or is superseded at once leaves both lanes and the scheduler empty and says which it was; only the superseded one loses its deadline |
| ShutdownEnd.GracefulSupersedes | rumqttc-v4/src/eventloop.rs:2193-2206 | a graceful disconnect ends a standing shutdown as failed and clears its deadline, and otherwise only asks to disconnect |
| ShutdownEnd.HandledIsObserved | rumqttc-v4/src/eventloop_disconnect.rs:217-231 | a publish that is handled is registered with the ledger in the same step, unless it is a replay the ledger already knows |
| ShutdownEnd.OnlyPublishesAreObserved | rumqttc-v4/src/eventloop_disconnect.rs:217-231 | besides publishes only an unknown PUBREL is registered |
| ShutdownEnd.CleanUpKeepsAge | rumqttc-v4/src/eventloop.rs:818-880 | a whole clean-up under a fence leaves in-flight packets first, then what was pending, scheduled and in the lanes, each in its own order |
| OrderedShutdown.AllSucceededExactly | rumqttc-v4/src/eventloop.rs:1653-1669 | in every reachable state, and so at every DISCONNECT, all admitted publishes have succeeded if and only if none was discarded, none is in the lane or the loop, and every handled one has succeeded; the last is no condition when the ledger has nothing pending and no failure |
| OrderedShutdown.DisconnectAfterSuccess | rumqttc-v4/src/eventloop.rs:1653-1664 | when the ledger's split read lets the ordered DISCONNECT out, every publish ever admitted, then or later, has succeeded or was discarded; and all have succeeded if and only if no earlier step discarded one |
| ShutdownRuns.FreshSessionLosesPublish | rumqttc-v4/src/eventloop.rs:604-642 | a run with the default clean session: a publish held over a lost connection is dropped by the fresh session, and the ordered DISCONNECT is written although it was never sent |
| ShutdownRuns.PlainDisconnectLeavesPublish | rumqttc-v4/src/eventloop.rs:2193-2206 | a run in which a graceful disconnect overtakes a publish that is blocked by one in flight, that one succeeds, and DISCONNECT is written with the other still queued and a clean ledger |
| ShutdownRuns.LoadedSessionFollowsFence | rumqttc-v4/src/eventloop.rs:1139-1182 | a run in which the loop is cleaned up with a fence queued before its first connect, and the fence leaves before a publish of the session loaded behind it |
| Recovery.RecoveryObservation.SetPhase | rumqttc-core/src/session_recovery.rs:45-53 | a terminal phase is not left |
| Recovery.RecoveryObservation.Fail | rumqttc-core/src/session_recovery.rs:65-79 | the phase that failed is kept, once, and the new one says interrupted or failed |
| Recovery.SessionRecoveryGate.Request | rumqttc-core/src/session_recovery.rs:111-121 | a recovery starts exactly when disconnected with none outstanding |
| Recovery.SessionRecoveryGate.Establish | rumqttc-core/src/session_recovery.rs:132-138 | establishing changes nothing while a recovery is outstanding |
| Recovery.SessionRecoveryGate.Disconnected | rumqttc-core/src/session_recovery.rs:139-145 | disconnecting keeps the identity of an outstanding recovery |
| Recovery.SessionRecoveryGate.Complete | rumqttc-core/src/session_recovery.rs:146-152 | completion ends the recovery and connects |
| Recovery.RecoveryOrder | rumqttc-v4/src/eventloop_recovery.rs:24-154 | in every run, established implies checkpoint cleared implies abandonment committed |
| Recovery.TerminalPhasesStay | rumqttc-core/src/session_recovery.rs:45-79 | terminal phases and the recorded failing phase never change, and no commitment is withdrawn |
| Recovery.OutstandingRecoveryFreezesGate | rumqttc-core/src/session_recovery.rs:106-152 | while a recovery is outstanding the gate is disconnected, its identity is frozen and no other recovery starts |
| RecoveryProgress.PhaseFollowsDriver | rumqttc-v4/src/eventloop_recovery.rs:24-154 | in every run an observation that has not ended shows the phase its driver is in |
| RecoveryProgress.CommitsExactly | rumqttc-v4/src/eventloop_recovery.rs:24-154 | each commitment is made by its own await and by nothing else, and the record keeps the raw Session Present flag of the connect that established it |
| RecoveryProgress.StartsExactly | rumqttc-v4/src/eventloop_recovery.rs:91-118 | a driver starts exactly when it may, and establishment resumes with the persistent connect if and only if the clean one is done with |
| RecoveryProgress.AwaitsExactly | rumqttc-v4/src/eventloop_recovery.rs:60-154 | where each await leads: a stopped recovery closes its candidate before it gives up, every other failure gives up at once |
| RecoveryProgress.GateExactly | rumqttc-core/src/session_recovery.rs:106-152 | what requests, completions and the loop's own events do to the gate |
| Recovery.PersistentMeansSessionAbsent | rumqttc-v4/src/eventloop.rs:604-626 | under the default mismatch policy a persistent session is recorded established only with Session Present false, in every run, dropped futures included |
| Recovery.RecordsExactly | rumqttc-v4/src/eventloop_recovery.rs:91-154 | under either policy this holds throughout a run if and only if no clean connect that reported a session is recorded for a persistent configuration |
| Recovery.IntactExactly | rumqttc-v4/src/eventloop_recovery.rs:109-114 | a run keeps the configured persistence if and only if no connect future was dropped there |
| Recovery.CleanRecordsFollowADrop | rumqttc-v4/src/eventloop_recovery.rs:109-154 | a clean connect is recorded as the recovery of a persistent configuration only after a connect future was dropped at the fresh connect |
| Recovery.ForgottenRecordsCleanConnect | rumqttc-v4/src/eventloop_recovery.rs:91-154 | from any state that lost the configuration with a committed recovery, the next successful connect is recorded so, and says Session Present only where the policy accepts it |
| Recovery.CancelledConnectForgetsPersistence | rumqttc-v4/src/eventloop_recovery.rs:109-154 | a whole run, under either policy, in which a dropped connect future makes a persistent configuration record a clean connect; its record says Session Present false exactly when the server did |
| ConnectionObservation.Observation.SetOriginRevision | rumqttc-core/src/connection_observation.rs:77-82 | only the origin revision changes |
| ConnectionObservation.Observation.SetRoute | rumqttc-core/src/connection_observation.rs:95-107 | a redirect clears the phase revision |
| ConnectionObservation.Observation.BeginAttempt | rumqttc-core/src/connection_observation.rs:111-128 | a new attempt captures route and revision and returns the guard that carries its number |
| ConnectionObservation.AttemptObservation.Finish | rumqttc-core/src/connection_observation.rs:139-158 | only the current attempt's guard records an outcome |
| ConnectionObservation.AttemptObservation.Drop | rumqttc-core/src/connection_observation.rs:161-176 | an unfinished current guard cancels, any other does nothing |
| ConnectionObservation.ObservationIsHistory | rumqttc-core/src/connection_observation.rs:95-176 | below counter saturation, with any live guards, every observed field is what the history of events says: route and revision captured by the newest attempt, its outcome, captured revision of the last success, and so on |
| ConnectionObservation.PendingIsNewestLive | rumqttc-core/src/connection_observation.rs:111-176 | the outcome is Pending exactly while the newest guard is alive |
| ConnectionObservation.StaleGuardIsInert | rumqttc-core/src/connection_observation.rs:139-176 | finishing or dropping an older guard changes nothing observed |
| ConnectionObservation.RedirectClearsPhase | rumqttc-core/src/connection_observation.rs:95-107 | from any redirect until the next attempt the phase revision is none |
| ConnectionObservation.SaturationConfusesGuards | rumqttc-core/src/connection_observation.rs:111-128 | after a history of 2^64 attempts, all alive, finishing the last but one ends the newest |
| Primitives.Length | mqttbytes-core/src/primitives.rs:86-123 | the shifting loop computes the decoding function, errors included |
| Primitives.ReadVariableInteger | benchmarks/src/synthetic_router.rs:472-483 | the multiplying loop accepts the same strings with the same values |
| Primitives.DecodeMeaning | mqttbytes-core/src/primitives.rs:86-123 | `Ok((n, v))` exactly when the first n bytes are a well-formed integer of value v |
| Primitives.WriteRemainingLength | mqttbytes-core/src/primitives.rs:213-240 | appends the encoding, or refuses an out-of-range length and leaves the buffer alone |
| Primitives.WriteVariableInteger | benchmarks/src/synthetic_router.rs:458-470 | appends the same encoding |
| Primitives.LenLenIsSize | mqttbytes-core/src/primitives.rs:244-254 | the size table agrees with the encoding |
| Primitives.RoundTrip | mqttbytes-core/src/primitives.rs:86-240 | decoding an encoded length with any suffix gives its size and value back |
| Primitives.AcceptedStrings | mqttbytes-core/src/primitives.rs:86-123 | accepted values are in range, never shorter than the encoding, and re-encode to themselves exactly when one byte long or not zero-padded |
| Primitives.CanonicalIsEncoding | mqttbytes-core/src/primitives.rs:213-240 | a well-formed string is the encoding of its value exactly when it has no zero padding |
| Primitives.WriteMqttBytes | mqttbytes-core/src/primitives.rs:182-190 | appends length and bytes, or refuses and leaves the buffer alone |
| Primitives.ReadMqttBytes | mqttbytes-core/src/primitives.rs:132-144 | returns the field and leaves the rest; a crossed boundary has consumed the prefix |
| Primitives.FieldReadExactly | mqttbytes-core/src/primitives.rs:132-144 | a field is read if and only if the input starts with it, high length byte first; otherwise the error says which part is missing and the prefix or nothing is consumed |
| Primitives.FieldRoundTrip | mqttbytes-core/src/primitives.rs:132-190 | a written field is read back and exactly the suffix remains |
| Framing.AnswersAreFinal | mqttbytes-core/src/primitives.rs:43-76 | an accepted header or a hard error never changes as bytes arrive, for the core, v4 and v5 checks |
| Framing.AcceptedExactly | mqttbytes-core/src/primitives.rs:32-53 | a packet is accepted with a header if and only if its length field is well formed, its whole body is there and the limit is met; the header is then its first byte and that field |
| Framing.RefusedExactly | mqttbytes-v5/src/lib.rs:218-249 | once the length field is there, the error is a size over the limit or the exact number of missing bytes |
| Framing.LengthRefusedExactly | mqttbytes-core/src/primitives.rs:43-123 | before that, it is four continuation bytes or a request for more |
| Framing.WrittenIsCut | mqttbytes-v4/src/lib.rs:203-228 | a packet of first byte, encoded length and body is cut off whole, and the rest of the stream is cut as if it stood alone |
| Framing.NeedMoreIsHonest | mqttbytes-core/src/primitives.rs:43-76 | a request for more bytes asks for at least one, and no shorter extension is accepted |
| Framing.NeedMoreIsExact | mqttbytes-core/src/primitives.rs:43-76 | once the header is known, exactly the extensions by that many bytes are accepted |
| Framing.ChunkingIsInvisible | mqttbytes-v4/src/lib.rs:203-228 | any split of the input into chunks yields the packets, tail and error of the whole |
| Framing.CutConserves | mqttbytes-v4/src/lib.rs:203-228 | the packets followed by the tail are the input |
| Framing.FramesAreExact | mqttbytes-v5/src/lib.rs:218-249 | each packet cut off is accepted alone with exactly its length |
| Framing.LimitsDiffer | mqttbytes-v5/src/lib.rs:218-249 | v4 limits the remaining length, v5 the whole packet, and nothing else distinguishes them from the core check |
| Framing.TransactionalWrite | mqttbytes-v4/src/lib.rs:256-268 | a failed write restores the buffer exactly when the write only appended |
| Topic.ValidFilter | mqttbytes-core/src/topic.rs:23-61 | true exactly for non-empty filters whose wildcards fill their level and whose `#` is last |
| Topic.MatchTopic | mqttbytes-core/src/topic.rs:69-98 | the loop computes the recursive level-by-level meaning |
| Topic.MatchMeaning | mqttbytes-core/src/topic.rs:69-98 | matching is agreement on all levels before the first `#`, and in length when there is none |
| Topic.MatchesIsPreorder | mqttbytes-core/src/topic.rs:69-98 | matching is reflexive exactly off reserved names and transitive on all strings |
| Topic.SubsumptionExact | mqttbytes-core/src/topic.rs:69-98 | a valid filter covers another on all topics exactly when it matches it, or it is `+/#` over `#`, or the covered one is reserved |
| Dial.InterleaveAddresses | rumqttc-core/src/dial.rs:49-71 | the method computes the interleaving, also on one family and on none |
| Dial.Alternate | rumqttc-core/src/dial.rs:64-69 | the loop over both iterators zips them and appends the longer rest |
| Dial.InterleaveLaws | rumqttc-core/src/dial.rs:49-71 | a permutation that keeps the first address and the order within each family |
| Dial.InterleaveAlternates | rumqttc-core/src/dial.rs:49-71 | the result has the input's length and alternates families, the first address's first, exactly as long as both last, and then holds only the larger family |
| Dial.Alternation | rumqttc-core/src/dial.rs:64-69 | strict alternation until one family runs out, position by position |
| Dial.ConnectSequential | rumqttc-core/src/dial.rs:84-102 | one attempt at a time, in order, stopping at the first success; an error means all failed and is the last one's |
| Dial.ErrorMeansAllFailed | rumqttc-core/src/dial.rs:104-127 | in every race, an error is returned only when every candidate was started and failed, and it is one of theirs |
| Dial.OutcomesAreReal | rumqttc-core/src/dial.rs:104-127 | the winner's own attempt succeeded, and every failure recorded is what that attempt ended with |
| Dial.LastErrorWins | rumqttc-core/src/dial.rs:104-127 | the error returned is that of the last failed attempt looked at |
| Dial.StartsAreStaggered | rumqttc-core/src/dial.rs:104-127 | candidates start in order, each once, at least the delay apart |
| Dial.SuccessStopsTheRace | rumqttc-core/src/dial.rs:104-127 | after a success no candidate starts and the race cannot fail |
| Dial.NeverStuck | rumqttc-core/src/dial.rs:104-127 | the race always has an enabled branch, and ends without a winner only with an error recorded |
| Router.BodyRoundTrip | benchmarks/src/synthetic_router.rs:387-448 | parsing an encoded body gives topic, identifier, payload and property block back, an absent block as one zero byte, if and only if the topic has at most 65,535 bytes |
| Router.ParsedExactly | benchmarks/src/synthetic_router.rs:387-430 | a body is parsed as a publish if and only if it consists of that publish's parts, with a UTF-8 topic, a non-zero identifier where one is due and a well-formed property block |
| Router.RelayPreserves | benchmarks/src/synthetic_router.rs:246-261 | relaying between any two protocol versions preserves topic and payload |
| Router.FrameRoundTrip | benchmarks/src/synthetic_router.rs:315-338 | a written frame is read back with the rest of the stream untouched if and only if its body is within the limit |
| Router.FrameReadExactly | benchmarks/src/synthetic_router.rs:315-338 | a frame is read if and only if the stream starts with its first byte, any well-formed length of its body and the body, within the limit |
| Router.IdSource.PacketId | benchmarks/src/synthetic_router.rs:69-76 | the identifier is the next of the non-zero sixteen-bit cycle and the counter advances past it |
| Router.IdsAreDistinct | benchmarks/src/synthetic_router.rs:69-76 | any 65,535 consecutive identifiers are non-zero and distinct, and then repeat |
| Nats.WritePublish | benchmarks/src/nats_codec.rs:10-26 | appends one frame, or refuses the subject and leaves the buffer alone |
| Nats.ReadPublish | benchmarks/src/nats_codec.rs:28-71 | splits exactly one frame off, or reports the error and leaves the buffer alone |
| Nats.LengthRoundTrip | benchmarks/src/nats_codec.rs:10-71 | printing a length in decimal and parsing it is the identity |
| Nats.LengthParsedExactly | benchmarks/src/nats_codec.rs:45-47 | a length is accepted if and only if it is an optional plus sign, any number of zeros and the printed number |
| Nats.FrameReadsBack | benchmarks/src/nats_codec.rs:10-71 | a written frame with any payload, CRLFs included, and any suffix is read back, and exactly the suffix remains |
| Nats.AnyFrameReadsBack | benchmarks/src/nats_codec.rs:28-71 | so is a frame with its length written in any way that parses |
| Nats.AcceptedHeader | benchmarks/src/nats_codec.rs:28-71 | an accepted header is UTF-8 and consists of PUB, a valid subject and a length that parses to the value returned |
| Nats.AcceptedFrames | benchmarks/src/nats_codec.rs:28-71 | an input is accepted as a publish if and only if it starts with a frame of it whose header declares its payload's length |
| Nats.AcceptedReencodes | benchmarks/src/nats_codec.rs:10-71 | an accepted frame is the one that would be written if and only if its length has no plus sign and no leading zero |
| Nats.RefusedExactly | benchmarks/src/nats_codec.rs:28-44 | which header error is reported, and when |
| Nats.FieldsRefusedExactly | benchmarks/src/nats_codec.rs:38-44 | the header is bad if and only if its fields are not separated by exactly one space |
| Nats.FieldRefusedExactly | benchmarks/src/nats_codec.rs:38-47 | then the subject is refused, then the length, each for what it is |
| Nats.PayloadRefusedExactly | benchmarks/src/nats_codec.rs:48-63 | a payload is refused as too long for a buffer, not there yet or not terminated, exactly when it is |
| Nats.AnswersAreFinal | benchmarks/src/nats_codec.rs:28-71 | every answer but an incomplete frame stays the same as bytes arrive |
| Utf8.Utf8Exactly | benchmarks/src/nats_codec.rs:33-34 | bytes count as UTF-8 if and only if they are the encodings of some scalar values, one after the other |

## Left out

- The rest of the event loop: protocol state, notices, session encoding and keep-alive. Acknowledgements, readiness, in-flight replays and the moment the outbound state counts as drained are arbitrary inputs of `ShutdownSystem`.
- The notices resolved by `discard_shutdown_work`.
- `discard_pending_manual_acknowledgements`: besides removing acknowledgements it drains both lanes into the pending queue ahead of time, and it is not an event of `ShutdownSystem`.
- The DISCONNECT that `recovery_close_candidate` writes when a session recovery gives up its candidate connection. `Recovery` models the driver around it, `ShutdownSystem` does not; nor does it model that a cancelled one drops the connection without a clean-up while the scheduler still holds requests.
- The mismatch policy inside `ShutdownSystem`: a clean connect that reports a session is allowed there whatever the policy, which only adds runs.
- Event loops over one caller-supplied channel, which have no gate.
- TLS, proxies, WebSockets, socket options and DNS lookup: foreign libraries and I/O.
- `send_async`, `recv_async` and `tokio::Notify`: only their register, retry, poll and cancel steps appear as actions.
- Real clocks and timer resolution: the deadline of a timed fence and the race delay use natural-number time.
- Weak memory: all lock and atomic steps are sequentially consistent.
- The client's wrapper methods and builders, and the router's subscription and fault handling: they would only add easy members.
- Captured timestamps of observations, tracing and metrics.
- The contents of the DISCONNECT packet, which carries no data in MQTT 3.1.1.
- SendWake.NoLostWakeup: excludes terminated priority lanes and runs in which a version is tested after a positive multiple of 2^64 moves; `SendWake.BoundedPriorityLaneLosesWakeup` and `SendWake.WrappedVersionLosesWakeup` show that both really lose wake-ups.
- SendWake.QuiescentSleepersAreBlocked: excludes runs in which a version is tested after a positive multiple of 2^64 moves, for the same reason.
- OrderedShutdown.OneFence: fences travel only on the publish lane, as the client routes them; `Admission.OneFenceExactly` says what any other use of the lanes allows.
- Admission.SharedLane.TrySendItem: an admission beyond the 64-bit sequence is excluded, because there the source panics; a send that is refused is not.
- SendOnce.WakesExactly: about any state whose lane counters and fence number are consistent, which every reachable one is (`Admission.LaneConservation`, `Admission.FenceClosure`).
- Nats.FrameReadsBack: the buffer is at most the largest allocation of a 64-bit target.
- ConnectionObservation.ObservationIsHistory: histories stay below the saturation of the attempt counter; `ConnectionObservation.SaturationConfusesGuards` shows why.
- Blocking sends, the connect race and the recovery drivers are transition systems over their lock, atomic and await points rather than methods, because their claims are about interleavings.
