/**
 * Clients, lanes, scheduler, publish ledger and event loop as one transition system. The loop's
 * steps are split where other threads can run: at its lane operations, at the two accesses of a
 * ledger read, and at the flush of a DISCONNECT. `Replays` are in-flight packets that the protocol
 * state hands back; they carry no admission number.
 */
module ShutdownSystem {
  import opened Common
  import Scheduler
  import Ledger
  import opened Requests
  import opened Marks
  import opened Admission
  import opened ShutdownLoop

  /** Lane 0 carries publishes and fences, lane 1 other requests, lane 2 immediate disconnects. */
  function InitialWorld(capacity: Option<nat>): World {
    var normal := LaneRun(NewLane(capacity, false), [], [], [], true, {0}, {}, 0);
    World(OPEN_GATE, [normal, normal, normal.(lane := NewLane(None, true))], [])
  }

  predicate Routed(l: nat, r: Request) {
    (l == 0 <==> IsPublishRequest(r)) && (l == 2 <==> r.DisconnectNow?)
  }

  /** Reconnect clean-up drains in separate critical sections; clients may run between them. */
  datatype Stage = Running | Offline | LoopTaken | RequestsDrained | ControlDrained

  /**
   * `left` holds the publishes that were handled, `dropped` the requests that were discarded
   * unhandled. `observed` names the ledger observation of each numbered publish, `reader` the
   * ledger read that the loop is in the middle of, and `writing` a DISCONNECT being flushed.
   */
  datatype System = System(
    world: World,
    queued: seq<RequestEnvelope>,
    loop: Loop,
    stage: Stage,
    pendingDisconnect: bool,
    writing: bool,
    complete: bool,
    left: seq<RequestEnvelope>,
    dropped: seq<RequestEnvelope>,
    ledger: Ledger.State,
    observed: map<nat, nat>,
    reader: Option<nat>,
    cleanSession: bool)

  function Start(capacity: Option<nat>, cleanSession: bool): System {
    System(InitialWorld(capacity), [], Loop([], false, None, Open), Offline, false, false, false,
           [], [], Ledger.INITIAL, map[], None, cleanSession)
  }

  ghost predicate Initial(s: System) {
    exists capacity, cleanSession :: s == Start(capacity, cleanSession)
  }

  /** Requests on their way through the loop; `known` says that the ledger already knows a replayed publish. */
  datatype RequestEvent =
    | PullPending
    | Pull(action: Action)
    | Dispatch(readiness: RequestEnvelope -> Scheduler.RequestReadiness, known: bool)

  /** A ledger read, and the ways a DISCONNECT is written or the loop ends. */
  datatype WriteEvent =
    | LoadLedger
    | ReadLedger
    | WriteUnordered
    | FinishWrite(replays: seq<RequestEnvelope>)
    | CancelWrite
    | Immediate(replays: seq<RequestEnvelope>)
    | TimeOut
    | Fail(popped: Option<nat>, replays: seq<RequestEnvelope>, phase: ShutdownPhase)

  /** Connecting, and everything that discards a session's requests. */
  datatype SessionEvent =
    | LoadSession(replays: seq<RequestEnvelope>)
    | Connect(sessionPresent: bool, inflight: bool)
    | Reset
    | DrainPending
    | AbandonLane(lane: nat)

  /** A reconnect clean-up in its critical sections, and the survival of a transport error. */
  datatype CleanEvent =
    | CleanLoop(replays: seq<RequestEnvelope>)
    | CleanRequests
    | CleanControl
    | RestoreFence
    | Reenter

  datatype Event =
    | Client(action: Action)
    | LedgerMove(move: Ledger.Move)
    | Request(request: RequestEvent)
    | Write(write: WriteEvent)
    | Session(session: SessionEvent)
    | Clean(clean: CleanEvent)

  /** What clients and waiting receives may do concurrently with the loop. */
  predicate ClientAction(a: Action) {
    match a
    case Send(l, _, item, _) => Routed(l, item.request)
    case CloneSender(_, _, _) => true
    case DropSender(_, _) => true
    case BeginWait(_, _) => true
    case CancelWait(_, _) => true
    case Terminate => true
    case ClearDeadline => true
    case _ => false
  }

  predicate LoopReceives(a: Action) {
    (a.Receive? || a.PollWait?) && a.lane <= 1
  }

  predicate LoopDrains(a: Action) {
    a.Drain? && a.lane <= 1
  }

  predicate LoopAction(a: Action) {
    LoopReceives(a) || LoopDrains(a) || a == Receive(2)
  }

  function Replayable(): RequestEnvelope -> bool {
    (e: RequestEnvelope) => ShouldReplayAfterReconnect(e.request)
  }

  function Classify(readiness: RequestEnvelope -> Scheduler.RequestReadiness): RequestEnvelope -> Scheduler.ScheduledRequest {
    (e: RequestEnvelope) => Scheduler.ScheduledRequest(ClassOfRequest(e.request), readiness(e))
  }

  predicate ValidReplays(replays: seq<RequestEnvelope>) {
    forall e :: e in replays ==> !e.IsFence() && e.meta.sequence == 0
  }

  // ---- What the loop does to its queues ----

  function Held(s: System): seq<RequestEnvelope> {
    s.queued + s.loop.pending
  }

  function LaneItems(w: World, l: nat): seq<RequestEnvelope> {
    if l < |w.lanes| then w.lanes[l].lane.items else []
  }

  predicate ReceiversLive(w: World) {
    |w.lanes| == 3 && w.lanes[0].receiverLive && w.lanes[1].receiverLive && w.lanes[2].receiverLive
  }

  function LaneDrained(r: LaneRun): LaneRun {
    r.(lane := r.lane.(items := []), taken := r.taken + r.lane.items)
  }

  /** Draining the request lane and then the control lane. */
  function Emptied(w: World): World {
    if ReceiversLive(w) then w.(lanes := [LaneDrained(w.lanes[0]), LaneDrained(w.lanes[1]), w.lanes[2]]) else w
  }

  /** Both lanes are drained into the pending queue. */
  function TakenOver(s: System): System {
    s.(world := Emptied(s.world),
       loop := s.loop.(pending := s.loop.pending + LaneItems(s.world, 0) + LaneItems(s.world, 1)))
  }

  function InPhase(s: System, phase: ShutdownPhase): System {
    s.(loop := s.loop.(phase := phase))
  }

  function Terminated(s: System): System {
    s.(world := s.world.(gate := s.world.gate.(terminated := true)))
  }

  function DeadlineCleared(s: System): System {
    s.(world := s.world.(gate := s.world.gate.(deadline := None)))
  }

  /** `finish_ordered`; a superseded shutdown also loses its deadline. */
  function Finished(s: System, phase: ShutdownPhase, superseded: bool): System {
    InPhase(TakenOver(if superseded then DeadlineCleared(s) else s), phase)
  }

  function WorkDiscarded(s: System, replays: seq<RequestEnvelope>): System {
    s.(queued := [], loop := s.loop.(pending := s.loop.pending + replays + s.queued))
  }

  function HeldDropped(s: System): System {
    s.(queued := [], loop := s.loop.(pending := []), dropped := s.dropped + (s.loop.pending + s.queued))
  }

  /** `drop_unprocessed_requests`: admission ends, and everything unhandled goes. */
  function AllDropped(s: System): System {
    HeldDropped(TakenOver(Terminated(s)))
  }

  /** A session reset covers a shutdown when a fence stands and any of its work is not yet done. */
  predicate ResetCovers(s: System, inflight: bool) {
    s.world.gate.fence.Some? && (s.loop.pending != [] || s.queued != [] || inflight || s.loop.orderedPacket)
  }

  function SessionCleared(s: System, covered: bool): System {
    if covered then HeldDropped(Finished(Terminated(s), Failed, false)).(complete := true) else HeldDropped(s)
  }

  // ---- Handling one request ----

  /** Admitted after the fence: discarded unhandled. */
  predicate Beyond(s: System, e: RequestEnvelope) {
    s.world.gate.fence.Some? && e.meta.sequence > s.world.gate.fence.value && !e.request.DisconnectNow?
  }

  function Register(s: System): System {
    s.(ledger := Ledger.Apply(s.ledger, Ledger.Register))
  }

  /** A replayed publish may be known to the ledger already; a numbered one is registered now. */
  function Observe(s: System, e: RequestEnvelope, known: bool): System {
    if e.meta.sequence == 0 then (if known then s else Register(s)).(left := s.left + [e])
    else
      Register(s).(left := s.left + [e], observed := s.observed[e.meta.sequence := |s.ledger.observations|])
  }

  function GracefulDisconnect(s: System): System {
    (if s.world.gate.fence.Some? then Finished(s, Failed, true) else s).(pendingDisconnect := true)
  }

  function CaptureFence(s: System, e: RequestEnvelope): System {
    s.(loop := s.loop.(orderedPacket := true, orderedCompletion := e.meta.completion, phase := Draining),
       pendingDisconnect := true)
  }

  predicate IsDisconnectRequest(r: Request) {
    r.Disconnect? || r.DisconnectWithTimeout?
  }

  function Handled(s: System, e: RequestEnvelope, known: bool): System {
    if Beyond(s, e) then s.(dropped := s.dropped + [e])
    else if IsPublish(e) then Observe(s, e, known)
    else if e.IsFence() then CaptureFence(s, e)
    else if IsDisconnectRequest(e.request) then GracefulDisconnect(s)
    else if e.request.PubRel? && !known then Register(s)
    else s
  }

  function Dispatched(s: System, out: Option<RequestEnvelope>, queued': seq<RequestEnvelope>, known: bool): System {
    if out.None? then s.(queued := queued') else Handled(s.(queued := queued'), out.value, known)
  }

  // ---- Steps ----

  /** The loop is connected and between two of its steps. */
  predicate Working(s: System) {
    s.stage == Running && !s.complete && s.reader.None? && !s.writing
  }

  /** The loop is between two polls, connected or not. */
  predicate Free(s: System) {
    (s.stage == Running || s.stage == Offline) && s.reader.None? && !s.writing
  }

  predicate RequestsAllowed(s: System) {
    Working(s) && !s.pendingDisconnect
  }

  function LedgerLoaded(s: System): System {
    var r := |s.ledger.readers|;
    s.(ledger := Ledger.Apply(Ledger.Apply(s.ledger, Ledger.StartReader), Ledger.LoadPending(r)), reader := Some(r))
  }

  /** The read's answer; `Ok(true)` lets the ordered DISCONNECT out. */
  function LedgerRead(s: System, r: nat): System
    requires Ledger.Enabled(s.ledger, Ledger.ReadFailure(r))
  {
    var ledger := Ledger.Apply(s.ledger, Ledger.ReadFailure(r));
    var s' := s.(ledger := ledger, reader := None);
    if ledger.readers[r].answer == Ok(true) then InPhase(s', Flushing).(pendingDisconnect := false, writing := true) else s'
  }

  function Written(s: System, replays: seq<RequestEnvelope>): System {
    var t := AllDropped(s).(writing := false, complete := true);
    if s.loop.orderedPacket then WorkDiscarded(Finished(t, Completed, false), replays) else t
  }

  function ImmediateDisconnect(s: System, replays: seq<RequestEnvelope>): System
    requires Enabled(s.world, Receive(2))
  {
    var t := Terminated(s.(world := Apply(s.world, Receive(2))));
    (if s.world.gate.fence.Some? then WorkDiscarded(Finished(t, Failed, true), replays) else t).(complete := true)
  }

  function Unpopped(s: System, popped: Option<nat>): System {
    if popped.Some? && popped.value < |s.queued| then
      s.(queued := RemoveAt(s.queued, popped.value), dropped := s.dropped + [s.queued[popped.value]])
    else s
  }

  function ShutdownFailed(s: System, popped: Option<nat>, replays: seq<RequestEnvelope>, phase: ShutdownPhase): System {
    WorkDiscarded(Finished(Terminated(Unpopped(s, popped)), phase, false), replays)
      .(stage := Offline, pendingDisconnect := false, writing := false, complete := true)
  }

  /** A clean session, and a resumed one the server has forgotten, are fresh. */
  predicate FreshSession(s: System, sessionPresent: bool) {
    s.cleanSession || !sessionPresent
  }

  function CleanedPending(s: System, replays: seq<RequestEnvelope>): seq<RequestEnvelope> {
    var older := if s.world.gate.fence.Some? then replays + s.loop.pending else s.loop.pending + replays;
    older + Filter(s.queued, Replayable())
  }

  function LoopCleaned(s: System, replays: seq<RequestEnvelope>): System {
    s.(queued := [], loop := s.loop.(pending := CleanedPending(s, replays)),
       stage := LoopTaken, pendingDisconnect := false, writing := false)
  }

  function Drained(s: System, l: nat, stage: Stage): System
    requires Enabled(s.world, Drain(l))
  {
    s.(world := Apply(s.world, Drain(l)),
       loop := s.loop.(pending := s.loop.pending + Filter(LaneItems(s.world, l), Replayable())),
       stage := stage)
  }

  function Abandoned(s: System, l: nat): System
    requires Enabled(s.world, Drain(l))
  {
    s.(world := Apply(s.world, Drain(l)), dropped := s.dropped + LaneItems(s.world, l))
  }

  function Arriving(w: World, a: Action): seq<RequestEnvelope>
    requires LoopReceives(a)
  {
    if LaneItems(w, a.lane) == [] then [] else [LaneItems(w, a.lane)[0]]
  }

  ghost predicate ClientStep(s: System, a: Action, s': System) {
    ClientAction(a) && Enabled(s.world, a) && s' == s.(world := Apply(s.world, a))
  }

  ghost predicate LedgerStep(s: System, m: Ledger.Move, s': System) {
    && (m.Finish? || m.SetFailure? || m.Decrement?) && Ledger.Enabled(s.ledger, m)
    && s' == s.(ledger := Ledger.Apply(s.ledger, m))
  }

  ghost predicate RequestStep(s: System, event: RequestEvent, s': System) {
    match event
    case PullPending =>
      && RequestsAllowed(s) && s.loop.pending != []
      && s' == s.(queued := s.queued + [s.loop.pending[0]], loop := s.loop.(pending := s.loop.pending[1..]))
    case Pull(a) =>
      && RequestsAllowed(s) && LoopReceives(a) && Enabled(s.world, a) && (a.lane == 0 ==> s.loop.pending == [])
      && s' == s.(world := Apply(s.world, a), queued := s.queued + Arriving(s.world, a))
    case Dispatch(readiness, known) =>
      && RequestsAllowed(s)
      && exists out: Option<RequestEnvelope>, queued' ::
           Scheduler.Popped(s.queued, Classify(readiness), out, queued') && s' == Dispatched(s, out, queued', known)
  }

  ghost predicate WriteStep(s: System, event: WriteEvent, s': System) {
    match event
    case LoadLedger => Working(s) && s.pendingDisconnect && s.loop.orderedPacket && s' == LedgerLoaded(s)
    case ReadLedger =>
      && s.reader.Some? && Ledger.Enabled(s.ledger, Ledger.ReadFailure(s.reader.value))
      && s' == LedgerRead(s, s.reader.value)
    case WriteUnordered =>
      Working(s) && s.pendingDisconnect && !s.loop.orderedPacket && s' == s.(pendingDisconnect := false, writing := true)
    case FinishWrite(replays) => s.writing && ValidReplays(replays) && s' == Written(s, replays)
    case CancelWrite => s.writing && s' == s.(writing := false)
    case Immediate(replays) =>
      && Free(s) && !s.complete && ValidReplays(replays) && Enabled(s.world, Receive(2)) && LaneItems(s.world, 2) != []
      && s' == ImmediateDisconnect(s, replays)
    case TimeOut =>
      && Working(s) && s.pendingDisconnect && s.world.gate.fence.None?
      && s' == AllDropped(s).(stage := Offline, pendingDisconnect := false, complete := true)
    case Fail(popped, replays, phase) =>
      && (s.stage == Running || s.stage == Offline) && !s.complete && s.reader.None? && s.world.gate.fence.Some?
      && ValidReplays(replays) && (phase == TimedOut || phase == Failed)
      && s' == ShutdownFailed(s, popped, replays, phase)
  }

  ghost predicate SessionStep(s: System, event: SessionEvent, s': System) {
    match event
    case LoadSession(replays) =>
      && s.stage == Offline && !s.complete && !s.cleanSession && ValidReplays(replays)
      && s' == s.(loop := s.loop.(pending := s.loop.pending + replays))
    case Connect(sessionPresent, inflight) =>
      && s.stage == Offline && !s.complete
      && s' == (if FreshSession(s, sessionPresent) then SessionCleared(s, ResetCovers(s, inflight)) else s).(stage := Running)
    case Reset => Free(s) && s' == SessionCleared(s, s.world.gate.fence.Some?)
    case DrainPending => Free(s) && s' == HeldDropped(s)
    case AbandonLane(l) => s.stage == Offline && l <= 1 && Enabled(s.world, Drain(l)) && s' == Abandoned(s, l)
  }

  ghost predicate CleanStep(s: System, event: CleanEvent, s': System) {
    match event
    case CleanLoop(replays) =>
      (s.stage == Running || s.stage == Offline) && s.reader.None? && ValidReplays(replays) && s' == LoopCleaned(s, replays)
    case CleanRequests => s.stage == LoopTaken && Enabled(s.world, Drain(0)) && s' == Drained(s, 0, RequestsDrained)
    case CleanControl => s.stage == RequestsDrained && Enabled(s.world, Drain(1)) && s' == Drained(s, 1, ControlDrained)
    case RestoreFence => s.stage == ControlDrained && s' == s.(loop := Restore(s.world.gate, s.loop), stage := Offline)
    case Reenter =>
      && s.stage == Offline && !s.complete && s.world.gate.fence.Some? && s.loop.phase != Flushing
      && s' == s.(loop := Resumed(s.world.gate, s.loop))
  }

  ghost predicate Step(s: System, event: Event, s': System) {
    match event
    case Client(a) => ClientStep(s, a, s')
    case LedgerMove(m) => LedgerStep(s, m, s')
    case Request(e) => RequestStep(s, e, s')
    case Write(e) => WriteStep(s, e, s')
    case Session(e) => SessionStep(s, e, s')
    case Clean(e) => CleanStep(s, e, s')
  }

  ghost predicate IsSystemRun(trace: seq<System>, events: seq<Event>) {
    && |trace| == |events| + 1
    && Initial(trace[0])
    && forall i :: 0 <= i < |events| ==> StepAt(trace, events, i)
  }

  ghost predicate StepAt(trace: seq<System>, events: seq<Event>, i: nat)
    requires |trace| == |events| + 1 && i < |events|
  {
    Step(trace[i], events[i], trace[i + 1])
  }
}
