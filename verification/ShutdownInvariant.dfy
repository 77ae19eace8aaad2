/** The invariant of the shutdown system over whole runs. */
module ShutdownInvariant {
  import opened Common
  import Scheduler
  import Ledger
  import opened Requests
  import opened Marks
  import opened Admission
  import opened ShutdownLoop
  import opened ShutdownSystem
  import opened ShutdownFlow

  /** The publish with number `q` is among these. */
  predicate Contains(k: seq<RequestEnvelope>, q: nat) {
    exists e :: e in k && Marked(e, Number(q))
  }

  /** Exactly the numbered publishes that were handled have one of the `n` observations. */
  predicate Tracked(left: seq<RequestEnvelope>, observed: map<nat, nat>, n: nat) {
    && (forall e :: e in left ==> IsPublish(e) && (IsNumbered(e) ==> e.meta.sequence in observed))
    && (forall q :: q in observed ==> q > 0 && Contains(left, q) && observed[q] < n)
  }

  predicate LeftOk(s: System) {
    Tracked(s.left, s.observed, |s.ledger.observations|)
  }

  lemma TrackedMore(left: seq<RequestEnvelope>, observed: map<nat, nat>, n: nat, e: RequestEnvelope)
    requires Tracked(left, observed, n) && IsPublish(e)
    ensures e.meta.sequence == 0 ==> Tracked(left + [e], observed, n) && Tracked(left + [e], observed, n + 1)
    ensures e.meta.sequence > 0 ==> Tracked(left + [e], observed[e.meta.sequence := n], n + 1)
  {
    forall q: nat
      ensures Contains(left, q) ==> Contains(left + [e], q)
    {
      if Contains(left, q) {
        var x :| x in left && Marked(x, Number(q));
        assert x in left + [e];
      }
    }
    assert e in left + [e] && Marked(e, Number(e.meta.sequence));
  }

  /** While the loop is inside a ledger read, nothing new is registered. */
  predicate ReadingOk(s: System) {
    s.reader.Some? ==>
      && s.reader.value < |s.ledger.readers|
      && s.ledger.readers[s.reader.value].Loaded?
      && s.ledger.readers[s.reader.value].registered == |s.ledger.observations|
  }

  ghost predicate ObservedOk(s: System) {
    Ledger.Inv(s.ledger) && LeftOk(s) && ReadingOk(s)
  }

  predicate Shape(s: System) {
    && (s.stage != Running ==> s.queued == [] && !s.pendingDisconnect && !s.writing && s.reader.None?)
    && (s.writing ==> s.reader.None?)
    && (s.reader.Some? ==> s.loop.orderedPacket)
  }

  ghost predicate Inv(s: System) {
    WorldOk(s.world) && FlowOk(s) && OrderOk(s, true) && ObservedOk(s) && Shape(s)
  }

  // ---- The ledger ----

  lemma LedgerMoves(l: Ledger.State, m: Ledger.Move)
    requires Ledger.Inv(l) && Ledger.Enabled(l, m)
    ensures Ledger.Inv(Ledger.Apply(l, m)) && |l.observations| <= |Ledger.Apply(l, m).observations|
  {
    Ledger.MoveKeepsCells(l, m);
    Ledger.MoveKeepsReaders(l, m);
  }

  lemma LedgerMoveObserved(s: System, m: Ledger.Move, s': System)
    requires ObservedOk(s) && LedgerStep(s, m, s')
    ensures ObservedOk(s')
  {
    LedgerMoves(s.ledger, m);
  }

  lemma RegisterObserved(s: System)
    requires ObservedOk(s) && s.reader.None?
    ensures ObservedOk(Register(s)) && |Register(s).ledger.observations| == |s.ledger.observations| + 1
  {
    LedgerMoves(s.ledger, Ledger.Register);
  }

  lemma ObserveObserved(s: System, e: RequestEnvelope, known: bool)
    requires ObservedOk(s) && s.reader.None? && IsPublish(e)
    ensures ObservedOk(Observe(s, e, known))
  {
    RegisterObserved(s);
    TrackedMore(s.left, s.observed, |s.ledger.observations|, e);
  }

  predicate SameObservations(s: System, s': System) {
    s'.ledger == s.ledger && s'.left == s.left && s'.observed == s.observed && s'.reader == s.reader
  }

  lemma SameKeepsObserved(s: System, s': System)
    requires ObservedOk(s) && SameObservations(s, s')
    ensures ObservedOk(s')
  {
  }

  lemma HandledObserved(s: System, e: RequestEnvelope, known: bool)
    requires ObservedOk(s) && s.reader.None?
    ensures ObservedOk(Handled(s, e, known))
  {
    if Beyond(s, e) {
      assert SameObservations(s, s.(dropped := s.dropped + [e]));
    } else if IsPublish(e) {
      ObserveObserved(s, e, known);
      assert Handled(s, e, known) == Observe(s, e, known);
    } else if e.IsFence() {
      assert Handled(s, e, known) == CaptureFence(s, e) && SameObservations(s, CaptureFence(s, e));
    } else if IsDisconnectRequest(e.request) {
      assert Handled(s, e, known) == GracefulDisconnect(s) && SameObservations(s, GracefulDisconnect(s));
    } else {
      RegisterObserved(s);
      assert Handled(s, e, known) == s || Handled(s, e, known) == Register(s);
    }
  }

  lemma DispatchObserved(s: System, readiness: RequestEnvelope -> Scheduler.RequestReadiness, known: bool, s': System)
    requires ObservedOk(s) && RequestStep(s, Dispatch(readiness, known), s')
    ensures ObservedOk(s')
  {
    var i := DispatchedIndex(s, readiness, known, s');
    if i.Some? {
      var t := Without(s, i.value);
      assert SameObservations(s, t);
      HandledObserved(t, s.queued[i.value], known);
    }
  }

  lemma LoadObserved(s: System)
    requires ObservedOk(s)
    ensures ObservedOk(LedgerLoaded(s))
  {
    var r := |s.ledger.readers|;
    LedgerMoves(s.ledger, Ledger.StartReader);
    LedgerMoves(Ledger.Apply(s.ledger, Ledger.StartReader), Ledger.LoadPending(r));
  }

  lemma ReadObserved(s: System, r: nat)
    requires ObservedOk(s) && Ledger.Enabled(s.ledger, Ledger.ReadFailure(r))
    ensures ObservedOk(LedgerRead(s, r))
  {
    LedgerMoves(s.ledger, Ledger.ReadFailure(r));
  }

  lemma RequestObserved(s: System, event: RequestEvent, s': System)
    requires ObservedOk(s) && RequestStep(s, event, s')
    ensures ObservedOk(s')
  {
    match event
    case Dispatch(readiness, known) => DispatchObserved(s, readiness, known, s');
    case _ => assert SameObservations(s, s');
  }

  lemma WriteObserved(s: System, event: WriteEvent, s': System)
    requires ObservedOk(s) && WriteStep(s, event, s')
    ensures ObservedOk(s')
  {
    match event
    case LoadLedger => LoadObserved(s);
    case ReadLedger => ReadObserved(s, s.reader.value);
    case FinishWrite(replays) => EndingsSame(s, replays, None, Failed);
    case Immediate(replays) => assert SameObservations(s, ImmediateDisconnect(s, replays));
    case Fail(popped, replays, phase) => EndingsSame(s, replays, popped, phase);
    case _ => assert SameObservations(s, s');
  }

  lemma EndingsSame(s: System, replays: seq<RequestEnvelope>, popped: Option<nat>, phase: ShutdownPhase)
    ensures SameObservations(s, Written(s, replays)) && SameObservations(s, ShutdownFailed(s, popped, replays, phase))
  {
    WrittenSame(s, replays);
    FailedSame(s, popped, replays, phase);
  }

  lemma WrittenSame(s: System, replays: seq<RequestEnvelope>)
    ensures SameObservations(s, Written(s, replays))
  {
    var t := AllDropped(s).(writing := false, complete := true);
    assert SameObservations(s, t);
    if s.loop.orderedPacket {
      FinishedSame(t, Completed, false);
    }
  }

  lemma FinishedSame(s: System, phase: ShutdownPhase, superseded: bool)
    ensures SameObservations(s, Finished(s, phase, superseded))
  {
  }

  lemma FailedSame(s: System, popped: Option<nat>, replays: seq<RequestEnvelope>, phase: ShutdownPhase)
    ensures SameObservations(s, ShutdownFailed(s, popped, replays, phase))
  {
    var t := Terminated(Unpopped(s, popped));
    assert SameObservations(s, t);
    FinishedSame(t, phase, false);
  }

  lemma ClearedSame(s: System, covered: bool)
    ensures SameObservations(s, SessionCleared(s, covered))
  {
    FinishedSame(Terminated(s), Failed, false);
  }

  lemma SessionSame(s: System, event: SessionEvent, s': System)
    requires SessionStep(s, event, s')
    ensures SameObservations(s, s')
  {
    match event
    case Connect(_, inflight) => ClearedSame(s, ResetCovers(s, inflight));
    case Reset => ClearedSame(s, s.world.gate.fence.Some?);
    case _ =>
  }

  lemma SessionObserved(s: System, event: SessionEvent, s': System)
    requires ObservedOk(s) && SessionStep(s, event, s')
    ensures ObservedOk(s')
  {
    SessionSame(s, event, s');
    SameKeepsObserved(s, s');
  }

  lemma CleanObserved(s: System, event: CleanEvent, s': System)
    requires ObservedOk(s) && CleanStep(s, event, s')
    ensures ObservedOk(s')
  {
    assert SameObservations(s, s');
  }

  // ---- Shape ----

  lemma RequestShape(s: System, event: RequestEvent, s': System)
    requires Shape(s) && RequestStep(s, event, s')
    ensures Shape(s')
  {
    match event
    case Dispatch(readiness, known) =>
      var i := DispatchedIndex(s, readiness, known, s');
      if i.Some? {
        HandledStaysOpen(Without(s, i.value), s.queued[i.value], known);
      }
    case _ =>
  }

  predicate SameShape(s: System, s': System) {
    && s'.stage == s.stage && s'.queued == s.queued && s'.pendingDisconnect == s.pendingDisconnect
    && s'.writing == s.writing && s'.reader == s.reader && s'.loop.orderedPacket == s.loop.orderedPacket
  }

  lemma FinishedShape(s: System, phase: ShutdownPhase, superseded: bool)
    ensures SameShape(s, Finished(s, phase, superseded))
  {
  }

  lemma WrittenShape(s: System, replays: seq<RequestEnvelope>)
    requires Shape(s) && s.writing
    ensures Shape(Written(s, replays))
  {
    FinishedShape(AllDropped(s).(writing := false, complete := true), Completed, false);
  }

  lemma ImmediateShape(s: System, replays: seq<RequestEnvelope>)
    requires Shape(s) && Enabled(s.world, Receive(2))
    ensures Shape(ImmediateDisconnect(s, replays))
  {
    FinishedShape(Terminated(s.(world := Apply(s.world, Receive(2)))), Failed, true);
  }

  lemma FailedShape(s: System, popped: Option<nat>, replays: seq<RequestEnvelope>, phase: ShutdownPhase)
    requires s.reader.None?
    ensures Shape(ShutdownFailed(s, popped, replays, phase))
  {
    FinishedShape(Terminated(Unpopped(s, popped)), phase, false);
  }

  lemma WriteShape(s: System, event: WriteEvent, s': System)
    requires Shape(s) && WriteStep(s, event, s')
    ensures Shape(s')
  {
    match event
    case FinishWrite(replays) => WrittenShape(s, replays);
    case Immediate(replays) => ImmediateShape(s, replays);
    case Fail(popped, replays, phase) => FailedShape(s, popped, replays, phase);
    case _ =>
  }

  lemma ClearedShape(s: System, covered: bool)
    ensures SameShape(s.(queued := []), SessionCleared(s, covered))
  {
    FinishedShape(Terminated(s), Failed, false);
  }

  lemma SessionShape(s: System, event: SessionEvent, s': System)
    requires Shape(s) && SessionStep(s, event, s')
    ensures Shape(s')
  {
    match event
    case Connect(_, inflight) => ClearedShape(s, ResetCovers(s, inflight));
    case Reset => ClearedShape(s, s.world.gate.fence.Some?);
    case _ =>
  }

  lemma CleanShape(s: System, event: CleanEvent, s': System)
    requires Shape(s) && CleanStep(s, event, s')
    ensures Shape(s')
  {
  }

  // ---- Order ----

  lemma RequestOrder(s: System, event: RequestEvent, s': System, numbered: bool)
    requires WorldOk(s.world) && FlowOk(s) && OrderOk(s, numbered) && RequestStep(s, event, s')
    ensures OrderOk(s', numbered)
  {
    match event
    case PullPending => PullPendingKeeps(s, s');
    case Pull(a) => PullOrder(s, a, s', numbered);
    case Dispatch(readiness, known) => DispatchOrder(s, readiness, known, s', numbered);
  }

  /** Reading and writing hold nothing back, and every other such step ends the loop. */
  lemma WriteOrder(s: System, event: WriteEvent, s': System, numbered: bool)
    requires OrderOk(s, numbered) && WriteStep(s, event, s')
    ensures OrderOk(s', numbered)
  {
    assert s'.complete || (Held(s') == Held(s) && s'.stage == s.stage && s'.complete == s.complete);
  }

  lemma LoadSessionOrder(s: System, replays: seq<RequestEnvelope>, s': System, numbered: bool)
    requires OrderOk(s, numbered) && SessionStep(s, LoadSession(replays), s')
    requires numbered || !LoadsBehindFence(s, LoadSession(replays))
    ensures OrderOk(s', numbered)
  {
    assert Held(s') == Held(s) + replays;
    assert Unmarked(replays, FenceMark);
    FencelessInOrder(replays, numbered);
    AppendInOrder(Held(s), replays, numbered);
  }

  /** A persisted session with a publish in it is loaded behind a fence. */
  predicate LoadsBehindFence(s: System, event: SessionEvent) {
    event.LoadSession? && !Unmarked(Held(s), FenceMark) && exists e :: e in event.replays && IsPublish(e)
  }

  lemma SessionOrder(s: System, event: SessionEvent, s': System, numbered: bool)
    requires OrderOk(s, numbered) && SessionStep(s, event, s') && (numbered || !LoadsBehindFence(s, event))
    ensures OrderOk(s', numbered)
  {
    match event
    case LoadSession(replays) => LoadSessionOrder(s, replays, s', numbered);
    case _ => assert Held(s') == [] || Held(s') == Held(s);
  }

  lemma NoFenceHeld(s: System)
    requires Balanced(s) && (s.world.gate.fence.None? || s.loop.orderedPacket)
    ensures Unmarked(Held(s), FenceMark)
  {
    CountAppend(s.queued, s.loop.pending, FenceMark);
    CountZero(Held(s), FenceMark);
  }

  lemma RestoreOrder(s: System, s': System, numbered: bool)
    requires FlowOk(s) && Shape(s) && CleanStep(s, RestoreFence, s')
    ensures OrderOk(s', numbered)
  {
    assert Held(s') == s'.loop.pending;
    if s.world.gate.fence.Some? && s.loop.phase != Flushing {
      RestoredOrder(s.world.gate, s.loop, numbered);
    } else {
      NoFenceHeld(s);
      assert Held(s) == s.loop.pending;
      FencelessInOrder(s.loop.pending, numbered);
    }
  }

  lemma ReenterOrder(s: System, s': System, numbered: bool)
    requires OrderOk(s, numbered) && CleanStep(s, Reenter, s')
    ensures OrderOk(s', numbered)
  {
    var returned := Captured(s.world.gate, s.loop);
    assert Held(s') == Held(s) + returned;
    assert NoneAfterFence(returned, numbered) && forall e :: e in returned ==> !Counts(e, numbered);
    AppendInOrder(Held(s), returned, numbered);
  }

  lemma CleanOrder(s: System, event: CleanEvent, s': System, numbered: bool)
    requires FlowOk(s) && Shape(s) && OrderOk(s, numbered) && CleanStep(s, event, s')
    ensures OrderOk(s', numbered)
  {
    match event
    case RestoreFence => RestoreOrder(s, s', numbered);
    case Reenter => ReenterOrder(s, s', numbered);
    case _ =>
  }

  lemma StepOrder(s: System, event: Event, s': System, numbered: bool)
    requires WorldOk(s.world) && FlowOk(s) && Shape(s) && OrderOk(s, numbered) && Step(s, event, s')
    requires numbered || (event.Session? ==> !LoadsBehindFence(s, event.session))
    ensures OrderOk(s', numbered)
  {
    match event
    case Request(e) => RequestOrder(s, e, s', numbered);
    case Write(e) => WriteOrder(s, e, s', numbered);
    case Session(e) => SessionOrder(s, e, s', numbered);
    case Clean(e) => CleanOrder(s, e, s', numbered);
    case _ => assert Held(s') == Held(s);
  }

  // ---- Flow ----

  lemma RequestFlow(s: System, event: RequestEvent, s': System)
    requires WorldOk(s.world) && FlowOk(s) && OrderOk(s, true) && RequestStep(s, event, s')
    ensures Safe(s, s')
  {
    match event
    case PullPending => PullPendingKeeps(s, s');
    case Pull(a) =>
      PullKeeps(s, a, s');
      ReceiveEffect(s.world, a);
    case Dispatch(readiness, known) => DispatchKeeps(s, readiness, known, s');
  }

  lemma ReadFlow(s: System, r: nat)
    requires FlowOk(s) && s.loop.orderedPacket && Ledger.Enabled(s.ledger, Ledger.ReadFailure(r))
    ensures FlowOk(LedgerRead(s, r)) && LedgerRead(s, r).world == s.world
  {
    Rearranged(s, LedgerRead(s, r));
  }

  lemma TimeOutFlow(s: System)
    requires WorldOk(s.world) && FlowOk(s)
    ensures Safe(s, AllDropped(s).(stage := Offline, pendingDisconnect := false, complete := true))
  {
    AllDroppedKeeps(s);
    FlagsSafe(s, AllDropped(s), AllDropped(s).(stage := Offline, pendingDisconnect := false, complete := true));
  }

  lemma WriteFlow(s: System, event: WriteEvent, s': System)
    requires WorldOk(s.world) && FlowOk(s) && Shape(s) && WriteStep(s, event, s')
    ensures Safe(s, s')
  {
    match event
    case ReadLedger => ReadFlow(s, s.reader.value);
    case FinishWrite(replays) => WrittenKeeps(s, replays);
    case Immediate(replays) => ImmediateKeeps(s, replays);
    case TimeOut => TimeOutFlow(s);
    case Fail(popped, replays, phase) => FailedKeeps(s, popped, replays, phase);
    case _ => FlagsKeep(s, s');
  }

  lemma SessionFlow(s: System, event: SessionEvent, s': System)
    requires WorldOk(s.world) && FlowOk(s) && SessionStep(s, event, s')
    ensures Safe(s, s')
  {
    match event
    case LoadSession(replays) => LoadSessionKeeps(s, replays);
    case Connect(sessionPresent, inflight) =>
      SessionClearedKeeps(s, ResetCovers(s, inflight));
      FlagsKeep(if FreshSession(s, sessionPresent) then SessionCleared(s, ResetCovers(s, inflight)) else s, s');
    case Reset => SessionClearedKeeps(s, s.world.gate.fence.Some?);
    case DrainPending => HeldDroppedKeeps(s);
    case AbandonLane(l) => AbandonedKeeps(s, l);
  }

  lemma CleanFlow(s: System, event: CleanEvent, s': System)
    requires WorldOk(s.world) && FlowOk(s) && CleanStep(s, event, s')
    ensures Safe(s, s')
  {
    match event
    case CleanLoop(replays) => CleanLoopKeeps(s, replays);
    case CleanRequests => DrainedKeeps(s, 0, RequestsDrained);
    case CleanControl => DrainedKeeps(s, 1, ControlDrained);
    case RestoreFence => RestoreKeeps(s);
    case Reenter => ReenterKeeps(s);
  }

  // ---- Whole steps and runs ----

  /** Every step but a client's own admits nothing. */
  lemma LoopStepKeeps(s: System, event: Event, s': System)
    requires WorldOk(s.world) && FlowOk(s) && OrderOk(s, true) && Shape(s) && Step(s, event, s') && !event.Client?
    ensures Safe(s, s')
  {
    match event
    case LedgerMove(_) => FlagsKeep(s, s');
    case Request(e) => RequestFlow(s, e, s');
    case Write(e) => WriteFlow(s, e, s');
    case Session(e) => SessionFlow(s, e, s');
    case Clean(e) => CleanFlow(s, e, s');
  }

  lemma StepKeepsRest(s: System, event: Event, s': System)
    requires ObservedOk(s) && Shape(s) && Step(s, event, s')
    ensures ObservedOk(s') && Shape(s')
  {
    match event
    case Client(_) => assert SameObservations(s, s');
    case LedgerMove(m) => LedgerMoveObserved(s, m, s');
    case Request(e) =>
      RequestObserved(s, e, s');
      RequestShape(s, e, s');
    case Write(e) =>
      WriteObserved(s, e, s');
      WriteShape(s, e, s');
    case Session(e) =>
      SessionObserved(s, e, s');
      SessionShape(s, e, s');
    case Clean(e) =>
      CleanObserved(s, e, s');
      CleanShape(s, e, s');
  }

  lemma StepKeepsInv(s: System, event: Event, s': System)
    requires Inv(s) && Step(s, event, s')
    ensures Inv(s')
  {
    if event.Client? {
      ClientKeeps(s, event.action, s');
    } else {
      LoopStepKeeps(s, event, s');
    }
    StepOrder(s, event, s', true);
    StepKeepsRest(s, event, s');
  }

  lemma InitialWorldOk(capacity: Option<nat>)
    ensures WorldOk(InitialWorld(capacity))
  {
    var w := InitialWorld(capacity);
    assert forall l: nat :: LaneLog(w.log, l) == [];
    assert LaneInv(w.lanes[0]) && LaneInv(w.lanes[1]) && LaneInv(w.lanes[2]);
  }

  lemma InitialInv(s: System)
    requires Initial(s)
    ensures Inv(s)
  {
    var capacity, cleanSession :| s == Start(capacity, cleanSession);
    InitialWorldOk(capacity);
    assert LaneItems(s.world, 0) == [] && Held(s) == [];
    assert forall mark :: Total(s, mark) == 0;
  }

  lemma {:induction false} SystemKeepsInv(trace: seq<System>, events: seq<Event>, n: nat)
    requires IsSystemRun(trace, events) && n < |trace|
    ensures Inv(trace[n])
  {
    if n == 0 {
      InitialInv(trace[0]);
    } else {
      SystemKeepsInv(trace, events, n - 1);
      assert StepAt(trace, events, n - 1);
      StepKeepsInv(trace[n - 1], events[n - 1], trace[n]);
    }
  }
}
