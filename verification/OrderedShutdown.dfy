/** Ordered shutdown end to end: what the fence and the DISCONNECT guarantee about every admitted publish. */
module OrderedShutdown {
  import opened Common
  import Scheduler
  import Ledger
  import opened Requests
  import opened Marks
  import opened Admission
  import opened ShutdownLoop
  import opened ShutdownSystem
  import opened ShutdownFlow
  import opened ShutdownInvariant

  // ---- Where a publish can be ----

  lemma ContainsIsCount(k: seq<RequestEnvelope>, q: nat)
    ensures Contains(k, q) <==> Count(k, Number(q)) > 0
  {
    CountZero(k, Number(q));
  }

  lemma NoNumberedIsCount(k: seq<RequestEnvelope>, q: nat)
    requires NoNumbered(k) && q > 0
    ensures Count(k, Number(q)) == 0
  {
    CountZero(k, Number(q));
  }

  /** Every admitted publish is in exactly one place: its lane, the loop, handled, or dropped; nothing else is anywhere. */
  lemma OnePlace(trace: seq<System>, events: seq<Event>, n: nat, q: nat)
    requires IsSystemRun(trace, events) && n < |trace| && q > 0
    ensures Count(trace[n].queued, Number(q)) + Count(trace[n].loop.pending, Number(q))
          + Count(LaneItems(trace[n].world, 0), Number(q)) + Count(trace[n].left, Number(q)) + Count(trace[n].dropped, Number(q))
         == if AdmittedPublish(trace[n].world, q) then 1 else 0
  {
    SystemKeepsInv(trace, events, n);
    assert Total(trace[n], Number(q)) == if AdmittedPublish(trace[n].world, q) then 1 else 0;
  }

  /** From its admission on there is exactly one fence, queued, captured or dropped, and none before. */
  lemma OneFence(trace: seq<System>, events: seq<Event>, n: nat)
    requires IsSystemRun(trace, events) && n < |trace|
    ensures Count(trace[n].queued, FenceMark) + Count(trace[n].loop.pending, FenceMark)
          + Count(LaneItems(trace[n].world, 0), FenceMark) + Count(trace[n].dropped, FenceMark)
          + (if trace[n].loop.orderedPacket then 1 else 0)
         == if trace[n].world.gate.fence.Some? then 1 else 0
  {
    SystemKeepsInv(trace, events, n);
    assert forall e :: e in trace[n].left ==> !Marked(e, FenceMark);
    CountZero(trace[n].left, FenceMark);
  }

  /** With nothing left in the lane or the loop, an admitted publish was either handled or dropped. */
  lemma HandledOrDropped(s: System, q: nat)
    requires Balanced(s) && NoNumbered(Held(s)) && LaneItems(s.world, 0) == [] && q > 0
    ensures AdmittedPublish(s.world, q) <==> Contains(s.left, q) || Contains(s.dropped, q)
    ensures !(Contains(s.left, q) && Contains(s.dropped, q))
  {
    assert Total(s, Number(q)) == if AdmittedPublish(s.world, q) then 1 else 0;
    CountAppend(s.queued, s.loop.pending, Number(q));
    NoNumberedIsCount(Held(s), q);
    ContainsIsCount(s.left, q);
    ContainsIsCount(s.dropped, q);
  }

  // ---- What is dropped ----

  function HeldAndLanes(s: System): seq<RequestEnvelope> {
    s.loop.pending + LaneItems(s.world, 0) + LaneItems(s.world, 1) + s.queued
  }

  function ResetDiscards(s: System, covered: bool): seq<RequestEnvelope> {
    if covered then HeldAndLanes(s) else s.loop.pending + s.queued
  }

  function SessionDiscards(s: System, event: SessionEvent): seq<RequestEnvelope> {
    match event
    case Connect(sessionPresent, inflight) =>
      if FreshSession(s, sessionPresent) then ResetDiscards(s, ResetCovers(s, inflight)) else []
    case Reset => ResetDiscards(s, s.world.gate.fence.Some?)
    case DrainPending => s.loop.pending + s.queued
    case AbandonLane(l) => LaneItems(s.world, l)
    case LoadSession(_) => []
  }

  function WriteDiscards(s: System, event: WriteEvent): seq<RequestEnvelope> {
    match event
    case FinishWrite(_) => HeldAndLanes(s)
    case TimeOut => HeldAndLanes(s)
    case Fail(popped, _, _) => if popped.Some? && popped.value < |s.queued| then [s.queued[popped.value]] else []
    case _ => []
  }

  /** What a step discards unhandled, read off the state before it. */
  function Discards(s: System, event: Event): seq<RequestEnvelope> {
    match event
    case Session(e) => SessionDiscards(s, e)
    case Write(e) => WriteDiscards(s, e)
    case _ => []
  }

  lemma RequestDrops(s: System, event: RequestEvent, s': System)
    requires Bounded(s) && RequestStep(s, event, s')
    ensures s'.dropped == s.dropped
  {
    match event
    case Dispatch(readiness, known) =>
      var i := DispatchedIndex(s, readiness, known, s');
      if i.Some? {
        assert s.queued[i.value] in Held(s);
        NothingHeldIsBeyond(s, s.queued[i.value]);
        HandledCases(Without(s, i.value), s.queued[i.value], known);
      }
    case _ =>
  }

  lemma AllDroppedList(s: System)
    ensures AllDropped(s).dropped == s.dropped + HeldAndLanes(s)
  {
  }

  lemma EndingDrops(s: System, replays: seq<RequestEnvelope>, popped: Option<nat>, phase: ShutdownPhase)
    ensures Written(s, replays).dropped == s.dropped + HeldAndLanes(s)
    ensures ShutdownFailed(s, popped, replays, phase).dropped == s.dropped + WriteDiscards(s, Fail(popped, replays, phase))
  {
    AllDroppedList(s);
  }

  lemma WriteDrops(s: System, event: WriteEvent, s': System)
    requires WriteStep(s, event, s')
    ensures s'.dropped == s.dropped + WriteDiscards(s, event)
  {
    match event
    case FinishWrite(replays) => EndingDrops(s, replays, None, Failed);
    case TimeOut => AllDroppedList(s);
    case Fail(popped, replays, phase) => EndingDrops(s, replays, popped, phase);
    case _ => assert s'.dropped == s.dropped;
  }

  lemma ResetDrops(s: System, covered: bool)
    ensures SessionCleared(s, covered).dropped == s.dropped + ResetDiscards(s, covered)
  {
  }

  lemma SessionDrops(s: System, event: SessionEvent, s': System)
    requires SessionStep(s, event, s')
    ensures s'.dropped == s.dropped + SessionDiscards(s, event)
  {
    match event
    case Connect(sessionPresent, inflight) => ResetDrops(s, ResetCovers(s, inflight));
    case Reset => ResetDrops(s, s.world.gate.fence.Some?);
    case _ =>
  }

  lemma StepDrops(s: System, event: Event, s': System)
    requires Bounded(s) && Step(s, event, s')
    ensures s'.dropped == s.dropped + Discards(s, event)
  {
    match event
    case Request(e) => RequestDrops(s, e, s');
    case Write(e) => WriteDrops(s, e, s');
    case Session(e) => SessionDrops(s, e, s');
    case _ => assert s'.dropped == s.dropped;
  }

  /** The step discards a publish that was admitted and never handled. */
  predicate Loses(s: System, event: Event) {
    !NoNumbered(Discards(s, event))
  }

  predicate LosesAt(trace: seq<System>, events: seq<Event>, i: nat)
    requires i < |trace| && i < |events|
  {
    Loses(trace[i], events[i])
  }

  lemma NoNumberedAppend(a: seq<RequestEnvelope>, b: seq<RequestEnvelope>)
    ensures NoNumbered(a + b) <==> NoNumbered(a) && NoNumbered(b)
  {
    assert forall e :: e in a + b <==> e in a || e in b;
  }

  lemma StepLoses(trace: seq<System>, events: seq<Event>, n: nat)
    requires IsSystemRun(trace, events) && n < |events|
    ensures NoNumbered(trace[n + 1].dropped) <==> NoNumbered(trace[n].dropped) && !LosesAt(trace, events, n)
  {
    SystemKeepsInv(trace, events, n);
    assert StepAt(trace, events, n);
    StepDrops(trace[n], events[n], trace[n + 1]);
    NoNumberedAppend(trace[n].dropped, Discards(trace[n], events[n]));
  }

  lemma {:induction false} LossExactly(trace: seq<System>, events: seq<Event>, n: nat)
    requires IsSystemRun(trace, events) && n < |trace|
    ensures NoNumbered(trace[n].dropped) <==> forall i :: 0 <= i < n ==> !LosesAt(trace, events, i)
  {
    if n > 0 {
      LossExactly(trace, events, n - 1);
      StepLoses(trace, events, n - 1);
    } else {
      assert trace[0].dropped == [];
    }
  }

  // ---- The fence closes its lane ----

  lemma StepAdmits(s: System, event: Event, s': System)
    requires Inv(s) && Step(s, event, s') && s.world.gate.fence.Some?
    ensures s'.world.gate.fence.Some? && forall q: nat :: AdmittedPublish(s'.world, q) <==> AdmittedPublish(s.world, q)
  {
    if event.Client? {
      var added := ClientEffect(s.world, event.action);
    } else {
      LoopStepKeeps(s, event, s');
    }
  }

  lemma StepAdmitsAt(trace: seq<System>, events: seq<Event>, n: nat)
    requires IsSystemRun(trace, events) && n < |events| && trace[n].world.gate.fence.Some?
    ensures trace[n + 1].world.gate.fence.Some?
    ensures forall q: nat :: AdmittedPublish(trace[n + 1].world, q) <==> AdmittedPublish(trace[n].world, q)
  {
    SystemKeepsInv(trace, events, n);
    assert StepAt(trace, events, n);
    StepAdmits(trace[n], events[n], trace[n + 1]);
  }

  lemma {:induction false} FenceClosesLane(trace: seq<System>, events: seq<Event>, m: nat, n: nat)
    requires IsSystemRun(trace, events) && m <= n < |trace| && trace[m].world.gate.fence.Some?
    ensures trace[n].world.gate.fence.Some?
    ensures forall q: nat :: AdmittedPublish(trace[n].world, q) <==> AdmittedPublish(trace[m].world, q)
  {
    if m < n {
      FenceClosesLane(trace, events, m, n - 1);
      StepAdmitsAt(trace, events, n - 1);
    }
  }

  // ---- The fence leaves last ----

  /** The step hands a fence from the scheduler to the loop. */
  ghost predicate FenceLeaves(s: System, event: Event, s': System) {
    event.Request? && event.request.Dispatch? && Step(s, event, s') && !s.loop.orderedPacket && s'.loop.orderedPacket
  }

  lemma OnlyFencesAreCaptured(s: System, e: RequestEnvelope, known: bool)
    requires !e.IsFence()
    ensures Handled(s, e, known).loop.orderedPacket == s.loop.orderedPacket
  {
    if Beyond(s, e) {
    } else if IsPublish(e) {
      assert Observe(s, e, known).loop == s.loop;
    } else if IsDisconnectRequest(e.request) {
      assert GracefulDisconnect(s).loop.orderedPacket == s.loop.orderedPacket;
    } else {
      assert Register(s).loop == s.loop;
    }
  }

  lemma CapturedStep(s: System, e: RequestEnvelope, known: bool)
    requires !s.loop.orderedPacket && Handled(s, e, known).loop.orderedPacket
    ensures e.IsFence() && !Beyond(s, e)
  {
    BeyondKeepsLoop(s, e, known);
    if !e.IsFence() {
      OnlyFencesAreCaptured(s, e, known);
    }
  }

  lemma BeyondKeepsLoop(s: System, e: RequestEnvelope, known: bool)
    ensures Beyond(s, e) ==> Handled(s, e, known).loop == s.loop
  {
  }

  /** All that changes is the scheduler's front. */
  lemma FenceLeavesFront(s: System, event: Event, s': System)
    requires FenceLeaves(s, event, s')
    ensures s.queued != [] && s.queued[0].IsFence() && Held(s') == RemoveAt(Held(s), 0)
    ensures s'.world == s.world && s'.left == s.left && s'.dropped == s.dropped
    ensures s.stage == Running && !s.complete
  {
    var i := DispatchedIndex(s, event.request.readiness, event.request.known, s');
    var e, t := s.queued[i.value], Without(s, i.value);
    CapturedStep(t, e, event.request.known);
    assert s' == CaptureFence(t, e);
    HeldAfterRemove(s, 0);
  }

  lemma FenceLeavesNothing(s: System, event: Event, s': System)
    requires Inv(s) && FenceLeaves(s, event, s')
    ensures s.world.gate.fence.Some? && s'.world == s.world
    ensures forall q: nat :: q > 0 ==> (AdmittedPublish(s.world, q) <==> Contains(s.left, q) || Contains(s.dropped, q))
    ensures forall q: nat :: q > 0 ==> !(Contains(s.left, q) && Contains(s.dropped, q))
  {
    FenceLeavesFront(s, event, s');
    StepKeepsInv(s, event, s');
    CapturedLaneIsEmpty(s');
    forall q: nat | q > 0
      ensures AdmittedPublish(s.world, q) <==> Contains(s.left, q) || Contains(s.dropped, q)
      ensures !(Contains(s.left, q) && Contains(s.dropped, q))
    {
      HandledOrDropped(s', q);
    }
  }

  lemma DroppedNumber(k: seq<RequestEnvelope>)
    ensures NoNumbered(k) <==> forall q: nat :: q > 0 ==> !Contains(k, q)
  {
    forall e | e in k && IsNumbered(e)
      ensures Contains(k, e.meta.sequence)
    {
      assert Marked(e, Number(e.meta.sequence));
    }
  }

  /**
   * End-to-end order. Under any interleaving of clients, any readiness, any reconnects and any
   * resets, when the fence leaves the scheduler every publish ever admitted, then or later, has
   * already been handled or was dropped, never both; and all were handled if and only if no earlier
   * step dropped one.
   */
  lemma FenceLeavesLast(trace: seq<System>, events: seq<Event>, n: nat, m: nat)
    requires IsSystemRun(trace, events) && n < |events| && n <= m < |trace|
    requires FenceLeaves(trace[n], events[n], trace[n + 1])
    ensures forall q: nat :: AdmittedPublish(trace[m].world, q) ==> (Contains(trace[n].left, q) <==> !Contains(trace[n].dropped, q))
    ensures (forall q: nat :: AdmittedPublish(trace[m].world, q) ==> Contains(trace[n].left, q))
       <==> forall i :: 0 <= i < n ==> !LosesAt(trace, events, i)
  {
    SystemKeepsInv(trace, events, n);
    FenceLeavesNothing(trace[n], events[n], trace[n + 1]);
    FenceClosesLane(trace, events, n, m);
    LossExactly(trace, events, n);
    DroppedNumber(trace[n].dropped);
  }

  // ---- DISCONNECT ----

  /** The publish with number `q` was handled, and its observation has finished without an error. */
  predicate Succeeded(s: System, q: nat) {
    q in s.observed && s.observed[q] < |s.ledger.observations| && s.ledger.observations[s.observed[q]] == Ledger.Done(None)
  }

  /** What a graceful end would mean: every publish admitted so far has succeeded. */
  ghost predicate AllSucceeded(s: System) {
    forall q: nat :: AdmittedPublish(s.world, q) ==> Succeeded(s, q)
  }

  lemma SucceededMeansLeft(s: System, q: nat)
    requires LeftOk(s) && Succeeded(s, q)
    ensures q > 0 && Contains(s.left, q)
  {
  }

  /**
   * In every reachable state, and so at every DISCONNECT however it came about: all publishes
   * admitted so far have succeeded exactly when none was dropped, none is still in the lane or the
   * loop, and every one handled has succeeded; which leaves the first three when the ledger has
   * nothing pending and no failure.
   */
  lemma AllSucceededExactly(trace: seq<System>, events: seq<Event>, n: nat)
    requires IsSystemRun(trace, events) && n < |trace|
    ensures AllSucceeded(trace[n]) <==>
              && (forall i :: 0 <= i < n ==> !LosesAt(trace, events, i))
              && NoNumbered(Held(trace[n])) && NoNumbered(LaneItems(trace[n].world, 0))
              && forall e :: e in trace[n].left && IsNumbered(e) ==> Succeeded(trace[n], e.meta.sequence)
    ensures trace[n].ledger.pending == 0 && trace[n].ledger.failure.None? ==>
              (AllSucceeded(trace[n]) <==>
                 && (forall i :: 0 <= i < n ==> !LosesAt(trace, events, i))
                 && NoNumbered(Held(trace[n])) && NoNumbered(LaneItems(trace[n].world, 0)))
  {
    SystemKeepsInv(trace, events, n);
    LossExactly(trace, events, n);
    AllSucceededInState(trace[n]);
    QuietLedgerSucceeds(trace[n]);
  }

  lemma QuietLedgerSucceeds(s: System)
    requires ObservedOk(s)
    ensures s.ledger.pending == 0 && s.ledger.failure.None? ==>
              forall e :: e in s.left && IsNumbered(e) ==> Succeeded(s, e.meta.sequence)
  {
    Ledger.QuietCellsAreExact(s.ledger);
  }

  lemma AllSucceededInState(s: System)
    requires Balanced(s) && LeftOk(s)
    ensures AllSucceeded(s) <==>
              && NoNumbered(s.dropped) && NoNumbered(Held(s)) && NoNumbered(LaneItems(s.world, 0))
              && forall e :: e in s.left && IsNumbered(e) ==> Succeeded(s, e.meta.sequence)
  {
    if AllSucceeded(s) {
      SucceededAreElsewhere(s, Discarded);
      SucceededAreElsewhere(s, Queued);
      SucceededAreElsewhere(s, Pending);
      SucceededAreElsewhere(s, InLane);
      forall e | e in s.left && IsNumbered(e)
        ensures Succeeded(s, e.meta.sequence)
      {
        NumberedIsAdmitted(s, Gone, e);
      }
    } else {
      var q: nat :| AdmittedPublish(s.world, q) && !Succeeded(s, q);
      assert Total(s, Number(q)) == 1;
      if NoNumbered(s.dropped) && NoNumbered(Held(s)) && NoNumbered(LaneItems(s.world, 0)) {
        CountAppend(s.queued, s.loop.pending, Number(q));
        NoNumberedIsCount(s.dropped, q);
        NoNumberedIsCount(Held(s), q);
        NoNumberedIsCount(LaneItems(s.world, 0), q);
        ContainsIsCount(s.left, q);
      }
    }
  }

  datatype Place = Queued | Pending | InLane | Gone | Discarded

  function At(s: System, place: Place): seq<RequestEnvelope> {
    match place
    case Queued => s.queued
    case Pending => s.loop.pending
    case InLane => LaneItems(s.world, 0)
    case Gone => s.left
    case Discarded => s.dropped
  }

  lemma NumberedIsAdmitted(s: System, place: Place, e: RequestEnvelope)
    requires Balanced(s) && e in At(s, place) && IsNumbered(e)
    ensures AdmittedPublish(s.world, e.meta.sequence)
    ensures place != Gone ==> !Contains(s.left, e.meta.sequence)
  {
    var q := e.meta.sequence;
    assert Marked(e, Number(q));
    ContainsIsCount(At(s, place), q);
    ContainsIsCount(s.left, q);
    assert Total(s, Number(q)) == if AdmittedPublish(s.world, q) then 1 else 0;
  }

  lemma SucceededAreElsewhere(s: System, place: Place)
    requires Balanced(s) && LeftOk(s) && AllSucceeded(s) && place != Gone
    ensures NoNumbered(At(s, place))
  {
    forall e | e in At(s, place) && IsNumbered(e)
      ensures false
    {
      NumberedIsAdmitted(s, place, e);
      SucceededMeansLeft(s, e.meta.sequence);
    }
  }

  /** The step that lets the ordered DISCONNECT out. */
  ghost predicate WritesOrdered(s: System, event: Event, s': System) {
    event == Write(ReadLedger) && Step(s, event, s') && s'.writing
  }

  lemma ReadFacts(s: System, r: nat)
    requires !s.writing && Ledger.Enabled(s.ledger, Ledger.ReadFailure(r))
    ensures var s' := LedgerRead(s, r);
            && s'.world == s.world && s'.left == s.left && s'.dropped == s.dropped && s'.observed == s.observed
            && Held(s') == Held(s) && s'.loop.orderedPacket == s.loop.orderedPacket
            && s'.ledger.observations == s.ledger.observations
            && (s'.writing ==> r < |s'.ledger.readers| && s'.ledger.readers[r] == Ledger.Returned(Ok(true), s.ledger.readers[r].registered))
  {
  }

  lemma AnswerIsTrue(s: System, r: nat)
    requires ObservedOk(s) && !s.writing && s.reader == Some(r) && LedgerRead(s, r).writing
    ensures forall e :: e in s.left && IsNumbered(e) ==> Succeeded(LedgerRead(s, r), e.meta.sequence)
  {
    var s' := LedgerRead(s, r);
    ReadFacts(s, r);
    LedgerMoves(s.ledger, Ledger.ReadFailure(r));
    forall e | e in s.left && IsNumbered(e)
      ensures Succeeded(s', e.meta.sequence)
    {
      Ledger.ReturnedIsSound(s'.ledger, r, s.observed[e.meta.sequence]);
    }
  }

  lemma OrderedWrite(s: System, event: Event, s': System)
    requires Inv(s) && WritesOrdered(s, event, s')
    ensures s'.world == s.world && s.world.gate.fence.Some?
    ensures AllSucceeded(s') <==> NoNumbered(s.dropped)
    ensures forall q: nat :: AdmittedPublish(s.world, q) ==> Succeeded(s', q) || Contains(s.dropped, q)
  {
    var r := s.reader.value;
    ReadFacts(s, r);
    AnswerIsTrue(s, r);
    CapturedLaneIsEmpty(s);
    StepKeepsInv(s, event, s');
    AllSucceededInState(s');
    forall q: nat | AdmittedPublish(s.world, q)
      ensures Succeeded(s', q) || Contains(s.dropped, q)
    {
      HandledOrDropped(s, q);
    }
  }

  /**
   * When the ordered DISCONNECT is written, every publish ever admitted, then or later, has
   * succeeded or was dropped; and all have succeeded if and only if no earlier step dropped one.
   */
  lemma DisconnectAfterSuccess(trace: seq<System>, events: seq<Event>, n: nat, m: nat)
    requires IsSystemRun(trace, events) && n < |events| && n <= m < |trace|
    requires WritesOrdered(trace[n], events[n], trace[n + 1])
    ensures forall q: nat :: AdmittedPublish(trace[m].world, q) ==> Succeeded(trace[n + 1], q) || Contains(trace[n].dropped, q)
    ensures (forall q: nat :: AdmittedPublish(trace[m].world, q) ==> Succeeded(trace[n + 1], q))
       <==> forall i :: 0 <= i < n ==> !LosesAt(trace, events, i)
  {
    SystemKeepsInv(trace, events, n);
    OrderedWrite(trace[n], events[n], trace[n + 1]);
    FenceClosesLane(trace, events, n, m);
    LossExactly(trace, events, n);
  }
}
