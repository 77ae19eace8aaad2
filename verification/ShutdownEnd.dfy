/** How a shutdown ends, over whole runs. */
module ShutdownEnd {
  import opened Common
  import Scheduler
  import Ledger
  import opened Requests
  import opened Marks
  import opened Admission
  import opened ShutdownLoop
  import opened ShutdownSystem
  import opened ShutdownFlow
  import opened ShutdownInvariant
  import opened OrderedShutdown

  // ---- The steps that end it ----

  /** A fence stands, and some of the work before it is not done. */
  predicate Unfinished(s: System, inflight: bool) {
    s.world.gate.fence.Some? && (s.loop.pending != [] || s.queued != [] || inflight || s.loop.orderedPacket)
  }

  /** A DISCONNECT is out, its time is up, an error was terminal, or a session reset took the work away. */
  predicate Ends(s: System, event: Event) {
    match event
    case Write(e) => e.FinishWrite? || e.Immediate? || e.TimeOut? || e.Fail?
    case Session(Reset) => s.world.gate.fence.Some?
    case Session(Connect(sessionPresent, inflight)) => (s.cleanSession || !sessionPresent) && Unfinished(s, inflight)
    case _ => false
  }

  lemma RequestEnds(s: System, event: RequestEvent, s': System)
    requires RequestStep(s, event, s')
    ensures s'.complete == s.complete && s'.world.gate.terminated == s.world.gate.terminated
  {
    match event
    case Dispatch(readiness, known) =>
      var i := DispatchedIndex(s, readiness, known, s');
      if i.Some? {
        HandledStaysOpen(Without(s, i.value), s.queued[i.value], known);
        HandledKeepsTerminated(Without(s, i.value), s.queued[i.value], known);
      }
    case _ =>
  }

  lemma HandledKeepsTerminated(s: System, e: RequestEnvelope, known: bool)
    ensures Handled(s, e, known).world.gate.terminated == s.world.gate.terminated
  {
    if Beyond(s, e) {
    } else if IsPublish(e) {
    } else if e.IsFence() {
    } else if IsDisconnectRequest(e.request) {
      assert GracefulDisconnect(s).world.gate.terminated == s.world.gate.terminated;
    } else {
    }
  }

  lemma FinishedEnds(s: System, phase: ShutdownPhase, superseded: bool)
    ensures var s' := Finished(s, phase, superseded);
            s'.complete == s.complete && s'.world.gate.terminated == s.world.gate.terminated && s'.loop.phase == phase
  {
  }

  predicate Over(s: System) {
    s.complete && s.world.gate.terminated
  }

  lemma WrittenEnds(s: System, replays: seq<RequestEnvelope>)
    ensures Over(Written(s, replays))
  {
    FinishedEnds(AllDropped(s).(writing := false, complete := true), Completed, false);
  }

  lemma ImmediateEnds(s: System, replays: seq<RequestEnvelope>)
    requires Enabled(s.world, Receive(2))
    ensures Over(ImmediateDisconnect(s, replays))
  {
    FinishedEnds(Terminated(s.(world := Apply(s.world, Receive(2)))), Failed, true);
  }

  lemma FailedEnds(s: System, popped: Option<nat>, replays: seq<RequestEnvelope>, phase: ShutdownPhase)
    ensures Over(ShutdownFailed(s, popped, replays, phase))
  {
    FinishedEnds(Terminated(Unpopped(s, popped)), phase, false);
  }

  lemma WriteEnds(s: System, event: WriteEvent, s': System)
    requires WriteStep(s, event, s')
    ensures if Ends(s, Write(event)) then Over(s') else s'.complete == s.complete && s'.world == s.world
  {
    match event
    case FinishWrite(replays) => WrittenEnds(s, replays);
    case Immediate(replays) => ImmediateEnds(s, replays);
    case Fail(popped, replays, phase) => FailedEnds(s, popped, replays, phase);
    case TimeOut => assert Over(AllDropped(s).(stage := Offline, pendingDisconnect := false, complete := true));
    case _ =>
  }

  lemma SessionEnds(s: System, event: SessionEvent, s': System)
    requires SessionStep(s, event, s')
    ensures if Ends(s, Session(event)) then Over(s') else s'.complete == s.complete && s'.world.gate == s.world.gate
  {
    match event
    case Connect(_, inflight) => ClearedEnds(s, ResetCovers(s, inflight));
    case Reset => ClearedEnds(s, s.world.gate.fence.Some?);
    case _ =>
  }

  lemma ClearedEnds(s: System, covered: bool)
    ensures if covered then Over(SessionCleared(s, covered))
            else SessionCleared(s, covered).complete == s.complete && SessionCleared(s, covered).world == s.world
  {
    FinishedEnds(Terminated(s), Failed, false);
  }

  lemma ClientEnds(s: System, a: Action, s': System)
    requires ClientStep(s, a, s')
    ensures s'.complete == s.complete && (s.world.gate.terminated ==> s'.world.gate.terminated)
  {
  }

  /** The loop is done exactly after one of these, and then the gate is closed to every lane. */
  lemma StepEnds(s: System, event: Event, s': System)
    requires Step(s, event, s')
    ensures s'.complete == (s.complete || Ends(s, event))
    ensures s.world.gate.terminated || Ends(s, event) ==> s'.world.gate.terminated
  {
    match event
    case Client(a) => ClientEnds(s, a, s');
    case Request(e) => RequestEnds(s, e, s');
    case Write(e) => WriteEnds(s, e, s');
    case Session(e) => SessionEnds(s, e, s');
    case _ =>
  }

  predicate EndsAt(trace: seq<System>, events: seq<Event>, i: nat)
    requires i < |trace| && i < |events|
  {
    Ends(trace[i], events[i])
  }

  /** In every run the loop is done exactly when some step has ended it, and from then on nothing is admitted. */
  lemma {:induction false} DoneExactly(trace: seq<System>, events: seq<Event>, n: nat)
    requires IsSystemRun(trace, events) && n < |trace|
    ensures trace[n].complete <==> exists i :: 0 <= i < n && EndsAt(trace, events, i)
    ensures trace[n].complete ==> trace[n].world.gate.terminated
  {
    if n > 0 {
      DoneExactly(trace, events, n - 1);
      StepEndsAt(trace, events, n - 1);
      if EndsAt(trace, events, n - 1) {
      } else if trace[n - 1].complete {
        var i :| 0 <= i < n - 1 && EndsAt(trace, events, i);
        assert i < n;
      }
    } else {
      StartsUndone(trace, events);
    }
  }

  lemma StartsUndone(trace: seq<System>, events: seq<Event>)
    requires IsSystemRun(trace, events)
    ensures !trace[0].complete
  {
  }

  lemma StepEndsAt(trace: seq<System>, events: seq<Event>, n: nat)
    requires IsSystemRun(trace, events) && n < |events|
    ensures trace[n + 1].complete == (trace[n].complete || EndsAt(trace, events, n))
    ensures trace[n].world.gate.terminated || EndsAt(trace, events, n) ==> trace[n + 1].world.gate.terminated
  {
    assert StepAt(trace, events, n);
    StepEnds(trace[n], events[n], trace[n + 1]);
  }

  // ---- Success is reported only after the ordered DISCONNECT ----

  /** An ordered DISCONNECT is on its way out, or has been reported. */
  predicate Ordered(s: System) {
    (s.writing && s.loop.orderedPacket) || s.loop.phase == Completed
  }

  lemma RequestOrdered(s: System, event: RequestEvent, s': System)
    requires RequestStep(s, event, s') && Ordered(s')
    ensures Ordered(s)
  {
    match event
    case Dispatch(readiness, known) =>
      var i := DispatchedIndex(s, readiness, known, s');
      if i.Some? {
        HandledStaysOpen(Without(s, i.value), s.queued[i.value], known);
        HandledPhase(Without(s, i.value), s.queued[i.value], known);
      }
    case _ =>
  }

  lemma HandledPhase(s: System, e: RequestEnvelope, known: bool)
    ensures Handled(s, e, known).loop.phase == Completed ==> s.loop.phase == Completed
  {
    if Beyond(s, e) {
    } else if IsPublish(e) {
    } else if e.IsFence() {
    } else if IsDisconnectRequest(e.request) {
      assert GracefulDisconnect(s).loop.phase == if s.world.gate.fence.Some? then Failed else s.loop.phase;
    } else {
    }
  }

  lemma WriteOrdered(s: System, event: WriteEvent, s': System)
    requires WriteStep(s, event, s') && Ordered(s') && !WritesOrdered(s, Write(event), s')
    ensures Ordered(s)
  {
    match event
    case FinishWrite(_) => FinishedEnds(AllDropped(s).(writing := false, complete := true), Completed, false);
    case Immediate(_) =>
      FinishedEnds(Terminated(s.(world := Apply(s.world, Receive(2)))), Failed, true);
      FinishedShape(Terminated(s.(world := Apply(s.world, Receive(2)))), Failed, true);
    case Fail(popped, _, phase) => FinishedEnds(Terminated(Unpopped(s, popped)), phase, false);
    case _ =>
  }

  lemma SessionOrdered(s: System, event: SessionEvent, s': System)
    requires SessionStep(s, event, s') && Ordered(s')
    ensures Ordered(s)
  {
    FinishedEnds(Terminated(s), Failed, false);
    FinishedShape(Terminated(s), Failed, false);
  }

  lemma CleanOrdered(s: System, event: CleanEvent, s': System)
    requires Shape(s) && CleanStep(s, event, s') && Ordered(s')
    ensures Ordered(s)
  {
  }

  lemma StepOrdered(s: System, event: Event, s': System)
    requires Shape(s) && Step(s, event, s') && Ordered(s') && !WritesOrdered(s, event, s')
    ensures Ordered(s)
  {
    match event
    case Request(e) => RequestOrdered(s, e, s');
    case Write(e) => WriteOrdered(s, e, s');
    case Session(e) => SessionOrdered(s, e, s');
    case Clean(e) => CleanOrdered(s, e, s');
    case _ =>
  }

  ghost predicate WritesOrderedAt(trace: seq<System>, events: seq<Event>, i: nat)
    requires i < |events| && i + 1 < |trace|
  {
    WritesOrdered(trace[i], events[i], trace[i + 1])
  }

  lemma {:induction false} OrderedWasWritten(trace: seq<System>, events: seq<Event>, n: nat) returns (k: nat)
    requires IsSystemRun(trace, events) && n < |trace| && Ordered(trace[n])
    ensures k < n && WritesOrderedAt(trace, events, k)
  {
    assert n > 0;
    assert StepAt(trace, events, n - 1);
    if WritesOrdered(trace[n - 1], events[n - 1], trace[n]) {
      return n - 1;
    }
    SystemKeepsInv(trace, events, n - 1);
    StepOrdered(trace[n - 1], events[n - 1], trace[n]);
    k := OrderedWasWritten(trace, events, n - 1);
  }

  /**
   * A shutdown that reports completion has written its DISCONNECT at some earlier step, when every
   * publish ever admitted, then or later, had succeeded or been dropped.
   */
  lemma CompletedMeansDisconnected(trace: seq<System>, events: seq<Event>, n: nat, m: nat) returns (k: nat)
    requires IsSystemRun(trace, events) && n <= m < |trace| && trace[n].loop.phase == Completed
    ensures k < n && WritesOrderedAt(trace, events, k)
    ensures forall q: nat :: AdmittedPublish(trace[m].world, q) ==> Succeeded(trace[k + 1], q) || Contains(trace[k].dropped, q)
  {
    k := OrderedWasWritten(trace, events, n);
    DisconnectAfterSuccess(trace, events, k, m);
  }

  // ---- Whatever is handled is observed ----

  /** The step handles a publish, which the ledger learns of now unless it already knew a replayed one. */
  lemma HandledIsObserved(s: System, readiness: RequestEnvelope -> Scheduler.RequestReadiness, known: bool, s': System)
    requires Bounded(s) && RequestStep(s, Dispatch(readiness, known), s')
    ensures s'.left == s.left || (|s'.left| == |s.left| + 1 && s'.left[..|s.left|] == s.left)
    ensures |s'.left| > |s.left| ==>
              var e := s'.left[|s.left|];
              && IsPublish(e) && e in s.queued
              && s'.ledger.observations == if e.meta.sequence > 0 || !known then s.ledger.observations + [Ledger.Live] else s.ledger.observations
  {
    var i := DispatchedIndex(s, readiness, known, s');
    if i.Some? {
      var e, t := s.queued[i.value], Without(s, i.value);
      assert e in Held(s);
      NothingHeldIsBeyond(s, e);
      HandledCases(t, e, known);
    }
  }

  /** A PUBREL that the ledger does not know is counted as well, and nothing else is. */
  lemma OnlyPublishesAreObserved(s: System, e: RequestEnvelope, known: bool)
    requires !IsPublish(e)
    ensures Handled(s, e, known).ledger.observations
         == if e.request.PubRel? && !known && !Beyond(s, e) then s.ledger.observations + [Ledger.Live] else s.ledger.observations
  {
    if Beyond(s, e) {
    } else if e.IsFence() {
    } else if IsDisconnectRequest(e.request) {
      assert GracefulDisconnect(s).ledger == s.ledger;
    } else {
    }
  }

  // ---- What is left of the shutdown afterwards ----

  /** The shutdown is over in this phase: both lanes are empty, and nothing is scheduled. */
  predicate ClearedOut(s: System, phase: ShutdownPhase) {
    s.loop.phase == phase && s.queued == [] && LaneItems(s.world, 0) == [] && LaneItems(s.world, 1) == []
  }

  lemma FinishedClears(s: System, phase: ShutdownPhase, superseded: bool)
    requires ReceiversLive(s.world)
    ensures var s' := Finished(s, phase, superseded);
            && s'.loop.phase == phase && LaneItems(s'.world, 0) == [] && LaneItems(s'.world, 1) == []
            && s'.world.gate.deadline == (if superseded then None else s.world.gate.deadline)
  {
  }

  lemma ImmediateLeaves(s: System, replays: seq<RequestEnvelope>)
    requires ReceiversLive(s.world) && Enabled(s.world, Receive(2))
    ensures var s' := ImmediateDisconnect(s, replays);
            if s.world.gate.fence.Some? then ClearedOut(s', Failed) && s'.world.gate.deadline == None
            else s'.loop == s.loop && s'.queued == s.queued && s'.world.gate.deadline == s.world.gate.deadline
  {
    var w := Apply(s.world, Receive(2));
    assert ReceiversLive(w);
    FinishedClears(Terminated(s.(world := w)), Failed, true);
  }

  lemma WrittenLeaves(s: System, replays: seq<RequestEnvelope>)
    requires ReceiversLive(s.world)
    ensures s.loop.orderedPacket ==> ClearedOut(Written(s, replays), Completed)
    ensures Written(s, replays).world.gate.deadline == s.world.gate.deadline
  {
    var t := AllDropped(s).(writing := false, complete := true);
    assert ReceiversLive(t.world) && t.queued == [] && t.world.gate.deadline == s.world.gate.deadline;
    FinishedClears(t, Completed, false);
  }

  lemma FailedLeaves(s: System, popped: Option<nat>, replays: seq<RequestEnvelope>, phase: ShutdownPhase)
    requires ReceiversLive(s.world)
    ensures ClearedOut(ShutdownFailed(s, popped, replays, phase), phase)
    ensures ShutdownFailed(s, popped, replays, phase).world.gate.deadline == s.world.gate.deadline
    ensures ShutdownFailed(s, popped, replays, phase).loop.pending
         == s.loop.pending + LaneItems(s.world, 0) + LaneItems(s.world, 1) + replays + Unpopped(s, popped).queued
  {
    var t := Terminated(Unpopped(s, popped));
    assert ReceiversLive(t.world) && t.world.gate.deadline == s.world.gate.deadline;
    FinishedClears(t, phase, false);
  }

  /**
   * In every run: a shutdown that is written out, fails or is superseded at once leaves both lanes and
   * the scheduler empty and says which it was; only the superseded one loses its deadline.
   */
  lemma EndLeaves(trace: seq<System>, events: seq<Event>, n: nat)
    requires IsSystemRun(trace, events) && n < |events| && events[n].Write?
    ensures var s, s' := trace[n], trace[n + 1];
            match events[n].write
            case FinishWrite(_) => (s.loop.orderedPacket ==> ClearedOut(s', Completed)) && s'.world.gate.deadline == s.world.gate.deadline
            case Fail(_, _, phase) => ClearedOut(s', phase) && s'.world.gate.deadline == s.world.gate.deadline
            case Immediate(_) =>
              if s.world.gate.fence.Some? then ClearedOut(s', Failed) && s'.world.gate.deadline == None
              else s'.loop == s.loop && s'.queued == s.queued && s'.world.gate.deadline == s.world.gate.deadline
            case _ => s'.world.gate.deadline == s.world.gate.deadline
  {
    SystemKeepsInv(trace, events, n);
    assert StepAt(trace, events, n);
    WriteLeaves(trace[n], events[n].write, trace[n + 1]);
  }

  lemma WriteLeaves(s: System, event: WriteEvent, s': System)
    requires ReceiversLive(s.world) && WriteStep(s, event, s')
    ensures match event
            case FinishWrite(_) => (s.loop.orderedPacket ==> ClearedOut(s', Completed)) && s'.world.gate.deadline == s.world.gate.deadline
            case Fail(_, _, phase) => ClearedOut(s', phase) && s'.world.gate.deadline == s.world.gate.deadline
            case Immediate(_) =>
              if s.world.gate.fence.Some? then ClearedOut(s', Failed) && s'.world.gate.deadline == None
              else s'.loop == s.loop && s'.queued == s.queued && s'.world.gate.deadline == s.world.gate.deadline
            case _ => s'.world.gate.deadline == s.world.gate.deadline
  {
    match event
    case FinishWrite(replays) => WrittenLeaves(s, replays);
    case Fail(popped, replays, phase) => FailedLeaves(s, popped, replays, phase);
    case Immediate(replays) => ImmediateLeaves(s, replays);
    case _ =>
  }

  /** A graceful disconnect ends a standing shutdown as failed, and its deadline with it. */
  lemma GracefulSupersedes(s: System)
    requires ReceiversLive(s.world)
    ensures var s' := GracefulDisconnect(s);
            && s'.pendingDisconnect
            && if s.world.gate.fence.Some? then
                 s'.loop.phase == Failed && s'.world.gate.deadline == None && LaneItems(s'.world, 0) == [] && LaneItems(s'.world, 1) == []
               else s' == s.(pendingDisconnect := true)
  {
    FinishedClears(s, Failed, true);
  }

  // ---- A whole clean-up ----

  /** What survives a reconnect. */
  function Kept(k: seq<RequestEnvelope>): seq<RequestEnvelope> {
    Filter(k, Replayable())
  }

  function PlainOnly(k: seq<RequestEnvelope>): seq<RequestEnvelope> {
    Filter(k, IsPlainEnvelope())
  }

  lemma PlainAppend(a: seq<RequestEnvelope>, b: seq<RequestEnvelope>)
    ensures PlainOnly(a + b) == PlainOnly(a) + PlainOnly(b)
  {
    FilterAppend(a, b, IsPlainEnvelope());
  }

  lemma LaneDrains(s: System, l: nat, stage: Stage)
    requires l <= 1 && Enabled(s.world, Drain(l))
    ensures var s' := Drained(s, l, stage);
            && s'.loop.pending == s.loop.pending + Kept(LaneItems(s.world, l)) && s'.queued == s.queued
            && s'.world.gate == s.world.gate && LaneItems(s'.world, 1 - l) == LaneItems(s.world, 1 - l)
            && s'.loop == s.loop.(pending := s'.loop.pending)
  {
  }

  /**
   * A clean-up under a standing fence keeps the age of requests: first the packets that were in
   * flight, then what was pending, scheduled and still in the lanes, each in its own order.
   */
  lemma CleanUpKeepsAge(s0: System, replays: seq<RequestEnvelope>, s1: System, s2: System, s3: System, s4: System)
    requires CleanStep(s0, CleanLoop(replays), s1) && CleanStep(s1, CleanRequests, s2)
    requires CleanStep(s2, CleanControl, s3) && CleanStep(s3, RestoreFence, s4)
    requires s0.world.gate.fence.Some? && s0.loop.phase != Flushing
    ensures PlainOnly(s4.loop.pending)
         == replays + PlainOnly(s0.loop.pending) + PlainOnly(Kept(s0.queued))
            + PlainOnly(Kept(LaneItems(s0.world, 0))) + PlainOnly(Kept(LaneItems(s0.world, 1)))
  {
    var a, b := Kept(LaneItems(s0.world, 0)), Kept(LaneItems(s0.world, 1));
    LaneDrains(s1, 0, RequestsDrained);
    LaneDrains(s2, 1, ControlDrained);
    var k := replays + s0.loop.pending + Kept(s0.queued);
    assert s3.loop.pending == k + a + b;
    RestoreOrders(s3.world.gate, s3.loop);
    PlainAppend(k + a, b);
    PlainAppend(k, a);
    PlainAppend(replays + s0.loop.pending, Kept(s0.queued));
    PlainAppend(replays, s0.loop.pending);
    FilterAll(replays, IsPlainEnvelope());
  }
}
