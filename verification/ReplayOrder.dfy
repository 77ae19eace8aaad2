/**
 * When the fence leaves, are the publishes of a resumed session gone too? Replayed publishes carry no
 * admission number, and a session that is loaded behind a held fence puts them there.
 */
module ReplayOrder {
  import opened Common
  import Scheduler
  import opened Requests
  import opened Marks
  import opened Admission
  import opened ShutdownLoop
  import opened ShutdownSystem
  import opened ShutdownFlow
  import opened ShutdownInvariant
  import opened OrderedShutdown

  /** The step loads a session with a publish in it while a fence is held. */
  predicate Unsettles(s: System, event: Event) {
    event.Session? && LoadsBehindFence(s, event.session)
  }

  /** The step sorts the queue again, or drops everything held. */
  predicate Settles(s: System, event: Event) {
    || event == Clean(RestoreFence)
    || (event.Session? && event.session.Connect? && FreshSession(s, event.session.sessionPresent))
    || event == Session(Reset)
    || event == Session(DrainPending)
  }

  /** Some step has unsettled the order, and none has settled it since. */
  predicate Unsettled(trace: seq<System>, events: seq<Event>, n: nat)
    requires n <= |events| < |trace|
  {
    && n > 0 && !Settles(trace[n - 1], events[n - 1])
    && (Unsettles(trace[n - 1], events[n - 1]) || Unsettled(trace, events, n - 1))
  }

  // ---- Settled: no publish stands behind the fence ----

  lemma SettlingOrders(s: System, event: Event, s': System)
    requires Inv(s) && Step(s, event, s') && Settles(s, event)
    ensures OrderOk(s', false)
  {
    match event
    case Clean(_) => RestoreOrder(s, s', false);
    case Session(e) => SettlingDrops(s, e, s');
  }

  lemma SettlingDrops(s: System, event: SessionEvent, s': System)
    requires SessionStep(s, event, s') && Settles(s, Session(event))
    ensures Held(s') == []
  {
  }

  lemma StepSettled(s: System, event: Event, s': System)
    requires Inv(s) && Step(s, event, s') && !Unsettles(s, event)
    ensures Settles(s, event) || OrderOk(s, false) ==> OrderOk(s', false)
  {
    if Settles(s, event) {
      SettlingOrders(s, event, s');
    } else if OrderOk(s, false) {
      StepOrder(s, event, s', false);
    }
  }

  lemma {:induction false} SettledInOrder(trace: seq<System>, events: seq<Event>, n: nat)
    requires IsSystemRun(trace, events) && n < |trace| && !Unsettled(trace, events, n)
    ensures OrderOk(trace[n], false)
  {
    if n == 0 {
      assert Held(trace[0]) == [];
    } else {
      if !Settles(trace[n - 1], events[n - 1]) {
        SettledInOrder(trace, events, n - 1);
      }
      SystemKeepsInv(trace, events, n - 1);
      assert StepAt(trace, events, n - 1);
      StepSettled(trace[n - 1], events[n - 1], trace[n]);
    }
  }

  // ---- Unsettled: some publish does, until the loop is cleaned up or ends ----

  predicate Misplaced(k: seq<RequestEnvelope>) {
    !NoneAfterFence(k, false)
  }

  lemma AppendMisplaced(a: seq<RequestEnvelope>, b: seq<RequestEnvelope>)
    requires Misplaced(a)
    ensures Misplaced(a + b)
  {
    var i, j :| 0 <= i < j < |a| && a[i].IsFence() && Counts(a[j], false);
    assert (a + b)[i] == a[i] && (a + b)[j] == a[j];
  }

  lemma InsertMisplaced(a: seq<RequestEnvelope>, e: RequestEnvelope, b: seq<RequestEnvelope>)
    requires Misplaced(a + b)
    ensures Misplaced(a + [e] + b)
  {
    var k, k' := a + b, a + [e] + b;
    var i, j :| 0 <= i < j < |k| && k[i].IsFence() && Counts(k[j], false);
    var i', j' := if i < |a| then i else i + 1, if j < |a| then j else j + 1;
    assert k'[i'] == k[i] && k'[j'] == k[j];
  }

  lemma RemoveMisplaced(k: seq<RequestEnvelope>, i: nat)
    requires Misplaced(k) && i < |k| && !k[i].IsFence() && (IsPublish(k[i]) ==> i == 0)
    ensures Misplaced(RemoveAt(k, i))
  {
    var r := RemoveAt(k, i);
    var p, q :| 0 <= p < q < |k| && k[p].IsFence() && Counts(k[q], false);
    var p', q' := if p < i then p else p - 1, if q < i then q else q - 1;
    assert r[p'] == k[p] && r[q'] == k[q];
  }

  /** A publish stands behind the fence, or the fence has left, or the loop is being cleaned up or done. */
  predicate Behind(s: System) {
    || s.complete
    || (s.stage != Running && s.stage != Offline)
    || (s.stage == Running && s.loop.orderedPacket)
    || Misplaced(Held(s))
  }

  lemma LoadMisplaces(s: System, event: SessionEvent, s': System)
    requires SessionStep(s, event, s') && LoadsBehindFence(s, event)
    ensures Misplaced(Held(s'))
  {
    var k, replays := Held(s), event.replays;
    assert Held(s') == k + replays;
    var x :| x in k && Marked(x, FenceMark);
    var e :| e in replays && IsPublish(e);
    var i :| 0 <= i < |k| && k[i] == x;
    var j :| 0 <= j < |replays| && replays[j] == e;
    assert Held(s')[i].IsFence() && Held(s')[|k| + j] == e;
  }

  lemma PullMisplaced(s: System, a: Action, s': System)
    requires RequestStep(s, Pull(a), s') && Misplaced(Held(s))
    ensures Misplaced(Held(s'))
  {
    var items := LaneItems(s.world, a.lane);
    if items == [] {
      assert Held(s') == Held(s);
    } else {
      assert Held(s') == s.queued + [items[0]] + s.loop.pending;
      InsertMisplaced(s.queued, items[0], s.loop.pending);
    }
  }

  lemma GracefulMisplaced(s: System)
    requires Misplaced(Held(s))
    ensures Misplaced(Held(GracefulDisconnect(s)))
  {
    if s.world.gate.fence.Some? {
      var a, b := LaneItems(s.world, 0), LaneItems(s.world, 1);
      assert Held(GracefulDisconnect(s)) == Held(s) + (a + b);
      AppendMisplaced(Held(s), a + b);
    }
  }

  lemma TakenMisplaced(s: System, i: nat, known: bool, s': System)
    requires i < |s.queued| && !s.queued[i].IsFence() && (IsPublish(s.queued[i]) ==> i == 0)
    requires Misplaced(Held(s)) && s' == Handled(Without(s, i), s.queued[i], known)
    ensures Misplaced(Held(s'))
  {
    var e, t := s.queued[i], Without(s, i);
    HeldAfterRemove(s, i);
    RemoveMisplaced(Held(s), i);
    if IsDisconnectRequest(e.request) && !Beyond(t, e) {
      GracefulMisplaced(t);
      assert s' == GracefulDisconnect(t);
    } else if IsDisconnectRequest(e.request) {
      assert Held(s') == Held(t);
    } else {
      HandledHeld(t, e, known);
    }
  }

  lemma FenceIsCaptured(s: System, e: RequestEnvelope, known: bool)
    requires e.IsFence() && !Beyond(s, e)
    ensures Handled(s, e, known) == CaptureFence(s, e)
  {
  }

  lemma DispatchBehind(s: System, readiness: RequestEnvelope -> Scheduler.RequestReadiness, known: bool, s': System)
    requires Bounded(s) && RequestStep(s, Dispatch(readiness, known), s') && Misplaced(Held(s))
    ensures Behind(s')
  {
    var i := DispatchedIndex(s, readiness, known, s');
    if i.Some? {
      var e, t := s.queued[i.value], Without(s, i.value);
      assert e in Held(s);
      NothingHeldIsBeyond(s, e);
      if e.IsFence() {
        FenceIsCaptured(t, e, known);
      } else {
        TakenMisplaced(s, i.value, known, s');
      }
    }
  }

  lemma DispatchKeepsCaptured(s: System, readiness: RequestEnvelope -> Scheduler.RequestReadiness, known: bool, s': System)
    requires RequestStep(s, Dispatch(readiness, known), s') && s.loop.orderedPacket
    ensures Behind(s')
  {
    var i := DispatchedIndex(s, readiness, known, s');
    if i.Some? {
      var e, t := s.queued[i.value], Without(s, i.value);
      HandledStaysOpen(t, e, known);
      BeyondKeepsLoop(t, e, known);
      if !e.IsFence() {
        OnlyFencesAreCaptured(t, e, known);
      } else if !Beyond(t, e) {
        FenceIsCaptured(t, e, known);
      }
    }
  }

  lemma RequestBehind(s: System, event: RequestEvent, s': System)
    requires Bounded(s) && Behind(s) && RequestStep(s, event, s')
    ensures Behind(s')
  {
    match event
    case PullPending => assert Held(s') == Held(s);
    case Pull(a) =>
      if Misplaced(Held(s)) {
        PullMisplaced(s, a, s');
      }
    case Dispatch(readiness, known) =>
      if s.loop.orderedPacket {
        DispatchKeepsCaptured(s, readiness, known, s');
      } else {
        DispatchBehind(s, readiness, known, s');
      }
  }

  lemma WriteBehind(s: System, event: WriteEvent, s': System)
    requires Shape(s) && Behind(s) && WriteStep(s, event, s')
    ensures Behind(s')
  {
    assert s'.complete || (Held(s') == Held(s) && s'.stage == s.stage && s'.loop.orderedPacket == s.loop.orderedPacket);
  }

  lemma SessionBehind(s: System, event: SessionEvent, s': System)
    requires Behind(s) && SessionStep(s, event, s') && !Settles(s, Session(event))
    ensures Behind(s')
  {
    match event
    case LoadSession(replays) =>
      assert Held(s') == Held(s) + replays;
      if Misplaced(Held(s)) {
        AppendMisplaced(Held(s), replays);
      }
    case Connect(_, _) => assert Held(s') == Held(s);
    case AbandonLane(_) => assert Held(s') == Held(s);
    case _ =>
  }

  lemma CleanBehind(s: System, event: CleanEvent, s': System)
    requires Behind(s) && CleanStep(s, event, s') && event != RestoreFence
    ensures Behind(s')
  {
    if event == Reenter {
      var returned := Captured(s.world.gate, s.loop);
      assert Held(s') == Held(s) + returned;
      if Misplaced(Held(s)) {
        AppendMisplaced(Held(s), returned);
      }
    }
  }

  lemma StepBehind(s: System, event: Event, s': System)
    requires Inv(s) && Step(s, event, s') && !Settles(s, event)
    ensures Unsettles(s, event) || Behind(s) ==> Behind(s')
  {
    if Unsettles(s, event) {
      LoadMisplaces(s, event.session, s');
    } else if Behind(s) {
      match event
      case Request(e) => RequestBehind(s, e, s');
      case Write(e) => WriteBehind(s, e, s');
      case Session(e) => SessionBehind(s, e, s');
      case Clean(e) => CleanBehind(s, e, s');
      case _ => assert Held(s') == Held(s);
    }
  }

  lemma {:induction false} UnsettledIsBehind(trace: seq<System>, events: seq<Event>, n: nat)
    requires IsSystemRun(trace, events) && n < |trace| && Unsettled(trace, events, n)
    ensures Behind(trace[n])
  {
    SystemKeepsInv(trace, events, n - 1);
    assert StepAt(trace, events, n - 1);
    if !Unsettles(trace[n - 1], events[n - 1]) {
      UnsettledIsBehind(trace, events, n - 1);
    }
    StepBehind(trace[n - 1], events[n - 1], trace[n]);
  }

  // ---- Exactly ----

  lemma LeavingFenceShows(s: System, event: Event, s': System)
    requires FenceLeaves(s, event, s')
    ensures (forall e :: e in Held(s') ==> !IsPublish(e)) <==> NoneAfterFence(Held(s), false)
  {
    FenceLeavesFront(s, event, s');
    if NoneAfterFence(Held(s), false) {
      FirstFenceLeavesNothing(s, false);
    } else {
      var k := Held(s);
      var i, j :| 0 <= i < j < |k| && k[i].IsFence() && Counts(k[j], false);
      assert Held(s')[j - 1] == k[j];
    }
  }

  /**
   * When the fence leaves, no publish at all is left behind it, replayed ones included, if and only
   * if no session with a publish was loaded behind a held fence since the queue was last sorted or
   * emptied.
   */
  lemma ReplaysLeaveFirst(trace: seq<System>, events: seq<Event>, n: nat)
    requires IsSystemRun(trace, events) && n < |events| && FenceLeaves(trace[n], events[n], trace[n + 1])
    ensures (forall e :: e in Held(trace[n + 1]) ==> !IsPublish(e)) <==> !Unsettled(trace, events, n)
  {
    LeavingFenceShows(trace[n], events[n], trace[n + 1]);
    FenceLeavesFront(trace[n], events[n], trace[n + 1]);
    if Unsettled(trace, events, n) {
      UnsettledIsBehind(trace, events, n);
    } else {
      SettledInOrder(trace, events, n);
    }
  }
}
