/** Three runs that show where the guarantees of an ordered shutdown end. */
module ShutdownRuns {
  import opened Common
  import opened Paths
  import Scheduler
  import Ledger
  import opened Requests
  import opened Marks
  import opened Admission
  import opened ShutdownLoop
  import opened ShutdownSystem
  import opened ShutdownFlow
  import opened ShutdownInvariant
  import opened OrderedShutdown

  const MESSAGE := Plain(PublishRequest(0, 1))
  const NUMBERED := MESSAGE.Admitted(1, None)
  const EMPTY_LANE := LaneRun(NewLane(None, false), [], [], [], true, {0}, {}, 0)
  const PRIORITY_LANE := EMPTY_LANE.(lane := NewLane(None, true))
  const QUIET := Loop([], false, None, Open)

  /** A lane with its history: what was taken from it, and what it still holds. */
  function LaneOf(taken: seq<RequestEnvelope>, items: seq<RequestEnvelope>): LaneRun {
    EMPTY_LANE.(lane := EMPTY_LANE.lane.(items := items), admitted := taken + items, taken := taken)
  }

  function WorldOf(gate: Gate, requests: LaneRun, control: LaneRun, log: seq<Entry>): World {
    World(gate, [requests, control, PRIORITY_LANE], log)
  }

  function SystemOf(world: World, queued: seq<RequestEnvelope>, loop: Loop, stage: Stage, dropped: seq<RequestEnvelope>): System {
    System(world, queued, loop, stage, false, false, false, [], dropped, Ledger.INITIAL, map[], None, true)
  }

  const FRESH_WORLD := WorldOf(OPEN_GATE, EMPTY_LANE, EMPTY_LANE, [])
  const ONE := Gate(1, None, None, false)
  const PUBLISHED := WorldOf(ONE, LaneOf([], [NUMBERED]), EMPTY_LANE, [Entry(0, NUMBERED)])
  const DRAINED := WorldOf(ONE, LaneOf([NUMBERED], []), EMPTY_LANE, [Entry(0, NUMBERED)])

  ghost predicate Reaches(trace: seq<System>, events: seq<Event>, s: System) {
    Leads(Step, trace, events, Start(None, s.cleanSession), s)
  }

  lemma ReachesIsRun(trace: seq<System>, events: seq<Event>, s: System)
    requires Reaches(trace, events, s)
    ensures IsSystemRun(trace, events) && trace[|trace| - 1] == s
  {
    assert Initial(trace[0]);
    forall i | 0 <= i < |events|
      ensures StepAt(trace, events, i)
    {
      assert Step(trace[i], events[i], trace[i + 1]);
    }
  }

  lemma Then(trace: seq<System>, events: seq<Event>, s: System, e: Event, s': System) returns (longer: seq<System>, more: seq<Event>)
    requires Reaches(trace, events, s) && Step(s, e, s') && s'.cleanSession == s.cleanSession
    ensures Reaches(longer, more, s') && longer == trace + [s'] && more == events + [e]
  {
    longer, more := trace + [s'], events + [e];
    Extend(Step, trace, events, Start(None, s.cleanSession), s, e, s');
  }

  // ---- A publish is admitted and lost to a fresh session ----

  lemma PublishAdmitted(clock: Clock)
    ensures Enabled(FRESH_WORLD, Send(0, 0, MESSAGE, clock)) && Apply(FRESH_WORLD, Send(0, 0, MESSAGE, clock)) == PUBLISHED
  {
    var w := Apply(FRESH_WORLD, Send(0, 0, MESSAGE, clock));
    assert TrySend(OPEN_GATE, EMPTY_LANE.lane, MESSAGE, clock).result == Sent(NUMBERED);
    assert w.lanes[0] == LaneOf([], [NUMBERED]);
    assert w.lanes == PUBLISHED.lanes && w.log == PUBLISHED.log;
  }

  lemma ConnectedFirst() returns (trace: seq<System>, events: seq<Event>)
    ensures Reaches(trace, events, SystemOf(FRESH_WORLD, [], QUIET, Running, []))
  {
    var s0, s1 := Start(None, true), SystemOf(FRESH_WORLD, [], QUIET, Running, []);
    assert InitialWorld(None) == FRESH_WORLD;
    assert SessionStep(s0, Connect(false, false), s1);
    trace, events := [s0], [];
    assert Reaches(trace, events, s0);
    trace, events := Then(trace, events, s0, Session(Connect(false, false)), s1);
  }

  lemma Published(clock: Clock) returns (trace: seq<System>, events: seq<Event>)
    ensures Reaches(trace, events, SystemOf(PUBLISHED, [], QUIET, Running, []))
  {
    trace, events := ConnectedFirst();
    var s0, s1 := SystemOf(FRESH_WORLD, [], QUIET, Running, []), SystemOf(PUBLISHED, [], QUIET, Running, []);
    PublishAdmitted(clock);
    assert ClientStep(s0, Send(0, 0, MESSAGE, clock), s1);
    trace, events := Then(trace, events, s0, Client(Send(0, 0, MESSAGE, clock)), s1);
  }

  lemma PublishDrained()
    ensures Enabled(PUBLISHED, Drain(0)) && Apply(PUBLISHED, Drain(0)) == DRAINED
  {
    var w := Apply(PUBLISHED, Drain(0));
    assert w.lanes[0] == LaneOf([NUMBERED], []);
    assert w.lanes == DRAINED.lanes;
  }

  lemma ControlDrainedToo()
    ensures Enabled(DRAINED, Drain(1)) && Apply(DRAINED, Drain(1)) == DRAINED
  {
    var w := Apply(DRAINED, Drain(1));
    assert w.lanes[1].taken == [] && w.lanes[1] == EMPTY_LANE;
    assert w.lanes == DRAINED.lanes;
  }

  lemma PublishReplayed()
    ensures Filter(LaneItems(PUBLISHED, 0), Replayable()) == [NUMBERED]
  {
    FilterAll([NUMBERED], Replayable());
  }

  const HELD := QUIET.(pending := [NUMBERED])

  lemma RequestsTaken(clock: Clock) returns (trace: seq<System>, events: seq<Event>)
    ensures Reaches(trace, events, SystemOf(DRAINED, [], HELD, RequestsDrained, []))
  {
    trace, events := Published(clock);
    PublishDrained();
    PublishReplayed();
    var s0 := SystemOf(PUBLISHED, [], QUIET, Running, []);
    var s1 := SystemOf(PUBLISHED, [], QUIET, LoopTaken, []);
    assert CleanStep(s0, CleanLoop([]), s1);
    trace, events := Then(trace, events, s0, Clean(CleanLoop([])), s1);
    var s2 := SystemOf(DRAINED, [], HELD, RequestsDrained, []);
    assert CleanStep(s1, CleanRequests, s2);
    trace, events := Then(trace, events, s1, Clean(CleanRequests), s2);
  }

  lemma ConnectionLost(clock: Clock) returns (trace: seq<System>, events: seq<Event>)
    ensures Reaches(trace, events, SystemOf(DRAINED, [], HELD, Offline, []))
  {
    trace, events := RequestsTaken(clock);
    ControlDrainedToo();
    var s2 := SystemOf(DRAINED, [], HELD, RequestsDrained, []);
    var s3 := SystemOf(DRAINED, [], HELD, ControlDrained, []);
    assert HELD.pending + [] == HELD.pending;
    assert CleanStep(s2, CleanControl, s3);
    trace, events := Then(trace, events, s2, Clean(CleanControl), s3);
    var s4 := SystemOf(DRAINED, [], HELD, Offline, []);
    assert CleanStep(s3, RestoreFence, s4);
    trace, events := Then(trace, events, s3, Clean(RestoreFence), s4);
  }

  lemma SessionForgotten(clock: Clock) returns (trace: seq<System>, events: seq<Event>)
    ensures Reaches(trace, events, SystemOf(DRAINED, [], QUIET, Running, [NUMBERED]))
  {
    trace, events := ConnectionLost(clock);
    var s0, s1 := SystemOf(DRAINED, [], HELD, Offline, []), SystemOf(DRAINED, [], QUIET, Running, [NUMBERED]);
    assert SessionStep(s0, Connect(false, false), s1);
    trace, events := Then(trace, events, s0, Session(Connect(false, false)), s1);
  }

  // ---- The fence then passes, and the ledger has nothing to object ----

  const BARRIER := Plain(DisconnectAfterQueued)
  const FENCE := BARRIER.Admitted(2, None)
  const FENCED := Gate(2, Some(2), None, false)
  const LOG := [Entry(0, NUMBERED), Entry(0, FENCE)]
  const FENCE_QUEUED := WorldOf(FENCED, LaneOf([NUMBERED], [FENCE]), EMPTY_LANE, LOG)
  const FENCE_TAKEN := WorldOf(FENCED, LaneOf([NUMBERED, FENCE], []), EMPTY_LANE, LOG)
  const CAPTURED := Loop([], true, None, Draining)

  lemma FenceAdmitted(clock: Clock)
    ensures Enabled(DRAINED, Send(0, 0, BARRIER, clock)) && Apply(DRAINED, Send(0, 0, BARRIER, clock)) == FENCE_QUEUED
  {
    var w := Apply(DRAINED, Send(0, 0, BARRIER, clock));
    assert TrySend(ONE, DRAINED.lanes[0].lane, BARRIER, clock).result == Sent(FENCE);
    assert w.lanes[0] == LaneOf([NUMBERED], [FENCE]);
    assert w.lanes == FENCE_QUEUED.lanes && w.log == LOG;
  }

  lemma FenceReceived()
    ensures Enabled(FENCE_QUEUED, Receive(0)) && Apply(FENCE_QUEUED, Receive(0)) == FENCE_TAKEN
  {
    var v := Apply(FENCE_QUEUED, Receive(0));
    assert v.lanes[0] == LaneOf([NUMBERED, FENCE], []);
    assert v.lanes == FENCE_TAKEN.lanes;
  }

  lemma FenceSent(clock: Clock) returns (trace: seq<System>, events: seq<Event>)
    ensures Reaches(trace, events, SystemOf(FENCE_QUEUED, [], QUIET, Running, [NUMBERED]))
  {
    trace, events := SessionForgotten(clock);
    FenceAdmitted(clock);
    var s0, s1 := SystemOf(DRAINED, [], QUIET, Running, [NUMBERED]), SystemOf(FENCE_QUEUED, [], QUIET, Running, [NUMBERED]);
    assert ClientStep(s0, Send(0, 0, BARRIER, clock), s1);
    trace, events := Then(trace, events, s0, Client(Send(0, 0, BARRIER, clock)), s1);
  }

  lemma FencePulled(clock: Clock) returns (trace: seq<System>, events: seq<Event>)
    ensures Reaches(trace, events, SystemOf(FENCE_TAKEN, [FENCE], QUIET, Running, [NUMBERED]))
  {
    trace, events := FenceSent(clock);
    FenceReceived();
    var s0, s1 := SystemOf(FENCE_QUEUED, [], QUIET, Running, [NUMBERED]), SystemOf(FENCE_TAKEN, [FENCE], QUIET, Running, [NUMBERED]);
    assert RequestStep(s0, Pull(Receive(0)), s1);
    trace, events := Then(trace, events, s0, Request(Pull(Receive(0))), s1);
  }

  function AllReady(): RequestEnvelope -> Scheduler.RequestReadiness {
    (e: RequestEnvelope) => Scheduler.Ready
  }

  lemma FrontPops(e: RequestEnvelope)
    ensures Scheduler.Popped([e], Classify(AllReady()), Some(e), [])
  {
    var rs := Scheduler.Classified([e], Classify(AllReady()));
    assert rs[0] == Classify(AllReady())([e][0]);
    assert Scheduler.Eligible(rs, 0) && RemoveAt([e], 0) == [];
  }

  lemma FenceCaptured(clock: Clock) returns (trace: seq<System>, events: seq<Event>)
    ensures Reaches(trace, events, SystemOf(FENCE_TAKEN, [], CAPTURED, Running, [NUMBERED]).(pendingDisconnect := true))
  {
    trace, events := FencePulled(clock);
    var s0 := SystemOf(FENCE_TAKEN, [FENCE], QUIET, Running, [NUMBERED]);
    var s1 := SystemOf(FENCE_TAKEN, [], CAPTURED, Running, [NUMBERED]).(pendingDisconnect := true);
    FrontPops(FENCE);
    assert s1 == Dispatched(s0, Some(FENCE), [], false);
    assert RequestStep(s0, Dispatch(AllReady(), false), s1);
    trace, events := Then(trace, events, s0, Request(Dispatch(AllReady(), false)), s1);
  }

  const LOADED := Ledger.INITIAL.(readers := [Ledger.Loaded(0, 0)])
  const ANSWERED := Ledger.INITIAL.(readers := [Ledger.Returned(Ok(true), 0)])

  lemma LedgerAgrees()
    ensures Ledger.Apply(Ledger.Apply(Ledger.INITIAL, Ledger.StartReader), Ledger.LoadPending(0)) == LOADED
    ensures Ledger.Enabled(LOADED, Ledger.ReadFailure(0)) && Ledger.Apply(LOADED, Ledger.ReadFailure(0)) == ANSWERED
  {
  }

  function Asking(): System {
    SystemOf(FENCE_TAKEN, [], CAPTURED, Running, [NUMBERED]).(pendingDisconnect := true, ledger := LOADED, reader := Some(0))
  }

  function Disconnecting(): System {
    SystemOf(FENCE_TAKEN, [], CAPTURED.(phase := Flushing), Running, [NUMBERED]).(writing := true, ledger := ANSWERED)
  }

  lemma LedgerAsked(clock: Clock) returns (trace: seq<System>, events: seq<Event>)
    ensures Reaches(trace, events, Asking())
  {
    trace, events := FenceCaptured(clock);
    LedgerAgrees();
    var s0 := SystemOf(FENCE_TAKEN, [], CAPTURED, Running, [NUMBERED]).(pendingDisconnect := true);
    assert WriteStep(s0, LoadLedger, Asking());
    trace, events := Then(trace, events, s0, Write(LoadLedger), Asking());
  }

  /**
   * With a clean session, the default, a publish held while the connection was lost is dropped by
   * the fresh session, without a ledger observation; a later fence passes, the ledger answers
   * `Ok(true)`, and the ordered DISCONNECT is written although the publish was never sent.
   */
  lemma FreshSessionLosesPublish(clock: Clock) returns (trace: seq<System>, events: seq<Event>)
    ensures IsSystemRun(trace, events) && |events| > 0
    ensures var n := |events| - 1;
            && WritesOrdered(trace[n], events[n], trace[n + 1])
            && AdmittedPublish(trace[n].world, 1) && !Succeeded(trace[n + 1], 1)
            && trace[n].dropped == [NUMBERED] && trace[n].cleanSession
  {
    trace, events := LedgerAsked(clock);
    LedgerAgrees();
    assert WriteStep(Asking(), ReadLedger, Disconnecting());
    trace, events := Then(trace, events, Asking(), Write(ReadLedger), Disconnecting());
    ReachesIsRun(trace, events, Disconnecting());
  }

  // ---- A plain disconnect overtakes a blocked publish ----

  const SECOND := MESSAGE.Admitted(2, None)
  const GOODBYE := Plain(Disconnect)
  const LEAVING := GOODBYE.Admitted(3, None)
  const TWO := Gate(2, None, None, false)
  const THREE := Gate(3, None, None, false)
  const BOTH := [Entry(0, NUMBERED), Entry(0, SECOND)]
  const ALL := [Entry(0, NUMBERED), Entry(0, SECOND), Entry(1, LEAVING)]
  const BOTH_QUEUED := WorldOf(TWO, LaneOf([], [NUMBERED, SECOND]), EMPTY_LANE, BOTH)
  const ALL_QUEUED := WorldOf(THREE, LaneOf([], [NUMBERED, SECOND]), LaneOf([], [LEAVING]), ALL)
  const ONE_TAKEN := WorldOf(THREE, LaneOf([NUMBERED], [SECOND]), LaneOf([], [LEAVING]), ALL)
  const BOTH_TAKEN := WorldOf(THREE, LaneOf([NUMBERED, SECOND], []), LaneOf([], [LEAVING]), ALL)
  const ALL_TAKEN := WorldOf(THREE, LaneOf([NUMBERED, SECOND], []), LaneOf([LEAVING], []), ALL)

  lemma SecondAdmitted(clock: Clock)
    ensures Enabled(PUBLISHED, Send(0, 0, MESSAGE, clock)) && Apply(PUBLISHED, Send(0, 0, MESSAGE, clock)) == BOTH_QUEUED
  {
    var w := Apply(PUBLISHED, Send(0, 0, MESSAGE, clock));
    assert TrySend(ONE, PUBLISHED.lanes[0].lane, MESSAGE, clock).result == Sent(SECOND);
    assert w.lanes[0] == LaneOf([], [NUMBERED, SECOND]);
    assert w.lanes == BOTH_QUEUED.lanes && w.log == BOTH;
  }

  lemma GoodbyeAdmitted(clock: Clock)
    ensures Enabled(BOTH_QUEUED, Send(1, 0, GOODBYE, clock)) && Apply(BOTH_QUEUED, Send(1, 0, GOODBYE, clock)) == ALL_QUEUED
  {
    var w := Apply(BOTH_QUEUED, Send(1, 0, GOODBYE, clock));
    assert TrySend(TWO, BOTH_QUEUED.lanes[1].lane, GOODBYE, clock).result == Sent(LEAVING);
    assert w.lanes[1] == LaneOf([], [LEAVING]);
    assert w.lanes == ALL_QUEUED.lanes && w.log == ALL;
  }

  lemma PublishesReceived()
    ensures Enabled(ALL_QUEUED, Receive(0)) && Apply(ALL_QUEUED, Receive(0)) == ONE_TAKEN
    ensures Enabled(ONE_TAKEN, Receive(0)) && Apply(ONE_TAKEN, Receive(0)) == BOTH_TAKEN
  {
    var w := Apply(ALL_QUEUED, Receive(0));
    assert w.lanes[0] == LaneOf([NUMBERED], [SECOND]);
    assert w.lanes == ONE_TAKEN.lanes;
    var v := Apply(ONE_TAKEN, Receive(0));
    assert v.lanes[0] == LaneOf([NUMBERED, SECOND], []);
    assert v.lanes == BOTH_TAKEN.lanes;
  }

  lemma GoodbyeReceived()
    ensures Enabled(BOTH_TAKEN, Receive(1)) && Apply(BOTH_TAKEN, Receive(1)) == ALL_TAKEN
  {
    var w := Apply(BOTH_TAKEN, Receive(1));
    assert w.lanes[1] == LaneOf([LEAVING], []);
    assert w.lanes == ALL_TAKEN.lanes;
  }

  const COUNTED := Ledger.State(1, None, [Ledger.Live], [])
  const FINISHING := Ledger.State(1, None, [Ledger.Decrementing(None)], [])
  const FINISHED := Ledger.State(0, None, [Ledger.Done(None)], [])

  /** The first publish has been handled, and the ledger has come this far with it. */
  function Sending(world: World, queued: seq<RequestEnvelope>, ledger: Ledger.State): System {
    SystemOf(world, queued, QUIET, Running, []).(left := [NUMBERED], observed := map[1 := 0], ledger := ledger)
  }

  lemma AllSent(clock: Clock) returns (trace: seq<System>, events: seq<Event>)
    ensures Reaches(trace, events, SystemOf(ALL_QUEUED, [], QUIET, Running, []))
  {
    trace, events := Published(clock);
    SecondAdmitted(clock);
    GoodbyeAdmitted(clock);
    var s0, s1 := SystemOf(PUBLISHED, [], QUIET, Running, []), SystemOf(BOTH_QUEUED, [], QUIET, Running, []);
    assert ClientStep(s0, Send(0, 0, MESSAGE, clock), s1);
    trace, events := Then(trace, events, s0, Client(Send(0, 0, MESSAGE, clock)), s1);
    var s2 := SystemOf(ALL_QUEUED, [], QUIET, Running, []);
    assert ClientStep(s1, Send(1, 0, GOODBYE, clock), s2);
    trace, events := Then(trace, events, s1, Client(Send(1, 0, GOODBYE, clock)), s2);
  }

  lemma PublishLeaves()
    ensures RequestStep(SystemOf(ONE_TAKEN, [NUMBERED], QUIET, Running, []), Dispatch(AllReady(), false), Sending(ONE_TAKEN, [], COUNTED))
  {
    var s0 := SystemOf(ONE_TAKEN, [NUMBERED], QUIET, Running, []);
    FrontPops(NUMBERED);
    assert Ledger.Apply(Ledger.INITIAL, Ledger.Register) == COUNTED;
    assert Dispatched(s0, Some(NUMBERED), [], false) == Observe(s0.(queued := []), NUMBERED, false);
  }

  lemma FirstPulled()
    ensures RequestStep(SystemOf(ALL_QUEUED, [], QUIET, Running, []), Pull(Receive(0)), SystemOf(ONE_TAKEN, [NUMBERED], QUIET, Running, []))
  {
    PublishesReceived();
  }

  lemma RestSteps()
    ensures RequestStep(Sending(ONE_TAKEN, [], COUNTED), Pull(Receive(0)), Sending(BOTH_TAKEN, [SECOND], COUNTED))
    ensures RequestStep(Sending(BOTH_TAKEN, [SECOND], COUNTED), Pull(Receive(1)), Sending(ALL_TAKEN, [SECOND, LEAVING], COUNTED))
  {
    PublishesReceived();
    GoodbyeReceived();
  }

  lemma PublishInFlight(clock: Clock) returns (trace: seq<System>, events: seq<Event>)
    ensures Reaches(trace, events, Sending(ONE_TAKEN, [], COUNTED))
  {
    trace, events := AllSent(clock);
    FirstPulled();
    PublishLeaves();
    var s0, s1 := SystemOf(ALL_QUEUED, [], QUIET, Running, []), SystemOf(ONE_TAKEN, [NUMBERED], QUIET, Running, []);
    trace, events := Then(trace, events, s0, Request(Pull(Receive(0))), s1);
    trace, events := Then(trace, events, s1, Request(Dispatch(AllReady(), false)), Sending(ONE_TAKEN, [], COUNTED));
  }

  lemma RestPulled(clock: Clock) returns (trace: seq<System>, events: seq<Event>)
    ensures Reaches(trace, events, Sending(ALL_TAKEN, [SECOND, LEAVING], COUNTED))
  {
    trace, events := PublishInFlight(clock);
    RestSteps();
    var s0, s1 := Sending(ONE_TAKEN, [], COUNTED), Sending(BOTH_TAKEN, [SECOND], COUNTED);
    trace, events := Then(trace, events, s0, Request(Pull(Receive(0))), s1);
    var s2 := Sending(ALL_TAKEN, [SECOND, LEAVING], COUNTED);
    trace, events := Then(trace, events, s1, Request(Pull(Receive(1))), s2);
  }

  /** One publish is in flight and the window holds one: publishes have to wait. */
  function WindowFull(): RequestEnvelope -> Scheduler.RequestReadiness {
    (e: RequestEnvelope) => if IsPublish(e) then Scheduler.Blocked else Scheduler.Ready
  }

  lemma GoodbyePops()
    ensures Scheduler.Popped([SECOND, LEAVING], Classify(WindowFull()), Some(LEAVING), [SECOND])
  {
    var q := [SECOND, LEAVING];
    var rs := Scheduler.Classified(q, Classify(WindowFull()));
    assert rs[0] == Classify(WindowFull())(q[0]) && rs[1] == Classify(WindowFull())(q[1]);
    assert rs[0] == Scheduler.BLOCKED_PUBLISH;
    assert Scheduler.Eligible(rs, 1) && RemoveAt(q, 1) == [SECOND];
  }

  function Leaving(ledger: Ledger.State): System {
    Sending(ALL_TAKEN, [SECOND], ledger).(pendingDisconnect := true)
  }

  lemma GoodbyeLeaves(clock: Clock) returns (trace: seq<System>, events: seq<Event>)
    ensures Reaches(trace, events, Leaving(COUNTED))
  {
    trace, events := RestPulled(clock);
    GoodbyePops();
    var s0 := Sending(ALL_TAKEN, [SECOND, LEAVING], COUNTED);
    assert Leaving(COUNTED) == Dispatched(s0, Some(LEAVING), [SECOND], false);
    assert RequestStep(s0, Dispatch(WindowFull(), false), Leaving(COUNTED));
    trace, events := Then(trace, events, s0, Request(Dispatch(WindowFull(), false)), Leaving(COUNTED));
  }

  lemma PublishAcknowledged(clock: Clock) returns (trace: seq<System>, events: seq<Event>)
    ensures Reaches(trace, events, Leaving(FINISHED))
  {
    trace, events := GoodbyeLeaves(clock);
    assert Ledger.Apply(COUNTED, Ledger.Finish(0, None)) == FINISHING;
    assert LedgerStep(Leaving(COUNTED), Ledger.Finish(0, None), Leaving(FINISHING));
    trace, events := Then(trace, events, Leaving(COUNTED), LedgerMove(Ledger.Finish(0, None)), Leaving(FINISHING));
    assert Ledger.Apply(FINISHING, Ledger.Decrement(0)) == FINISHED;
    assert LedgerStep(Leaving(FINISHING), Ledger.Decrement(0), Leaving(FINISHED));
    trace, events := Then(trace, events, Leaving(FINISHING), LedgerMove(Ledger.Decrement(0)), Leaving(FINISHED));
  }

  /**
   * Two publishes, then a graceful disconnect, with room for one in flight: the disconnect overtakes
   * the second while the first is in flight, the first is acknowledged, and DISCONNECT is written
   * with the second still queued, although the ledger has nothing pending and no failure.
   */
  lemma PlainDisconnectLeavesPublish(clock: Clock) returns (trace: seq<System>, events: seq<Event>)
    ensures IsSystemRun(trace, events) && |events| > 0
    ensures var n := |events| - 1;
            && events[n] == Write(WriteUnordered) && trace[n].queued == [SECOND]
            && AdmittedPublish(trace[n].world, 1) && Succeeded(trace[n], 1)
            && AdmittedPublish(trace[n].world, 2) && !Succeeded(trace[n], 2)
            && trace[n].ledger.pending == 0 && trace[n].ledger.failure.None?
  {
    trace, events := PublishAcknowledged(clock);
    var s0, s1 := Leaving(FINISHED), Leaving(FINISHED).(pendingDisconnect := false, writing := true);
    assert WriteStep(s0, WriteUnordered, s1);
    trace, events := Then(trace, events, s0, Write(WriteUnordered), s1);
    ReachesIsRun(trace, events, s1);
    assert AdmittedPublish(s0.world, 1) && AdmittedPublish(s0.world, 2) && Succeeded(s0, 1) && !Succeeded(s0, 2);
  }

  // ---- A persisted session is loaded behind a fence ----

  const FIRST := BARRIER.Admitted(1, None)
  const CLOSED := Gate(1, Some(1), None, false)
  const FIRST_QUEUED := WorldOf(CLOSED, LaneOf([], [FIRST]), EMPTY_LANE, [Entry(0, FIRST)])
  const FIRST_DRAINED := WorldOf(CLOSED, LaneOf([FIRST], []), EMPTY_LANE, [Entry(0, FIRST)])

  function Resumable(world: World, queued: seq<RequestEnvelope>, loop: Loop, stage: Stage): System {
    SystemOf(world, queued, loop, stage, []).(cleanSession := false)
  }

  lemma FirstAdmitted(clock: Clock)
    ensures Enabled(FRESH_WORLD, Send(0, 0, BARRIER, clock)) && Apply(FRESH_WORLD, Send(0, 0, BARRIER, clock)) == FIRST_QUEUED
  {
    var w := Apply(FRESH_WORLD, Send(0, 0, BARRIER, clock));
    assert TrySend(OPEN_GATE, EMPTY_LANE.lane, BARRIER, clock).result == Sent(FIRST);
    assert w.lanes[0] == LaneOf([], [FIRST]);
    assert w.lanes == FIRST_QUEUED.lanes && w.log == FIRST_QUEUED.log;
  }

  lemma FirstDrained()
    ensures Enabled(FIRST_QUEUED, Drain(0)) && Apply(FIRST_QUEUED, Drain(0)) == FIRST_DRAINED
    ensures Enabled(FIRST_DRAINED, Drain(1)) && Apply(FIRST_DRAINED, Drain(1)) == FIRST_DRAINED
  {
    var w := Apply(FIRST_QUEUED, Drain(0));
    assert w.lanes[0] == LaneOf([FIRST], []);
    assert w.lanes == FIRST_DRAINED.lanes;
    var v := Apply(FIRST_DRAINED, Drain(1));
    assert v.lanes[1].taken == [] && v.lanes[1] == EMPTY_LANE;
    assert v.lanes == FIRST_DRAINED.lanes;
  }

  lemma FirstKept()
    ensures Filter(LaneItems(FIRST_QUEUED, 0), Replayable()) == [FIRST]
  {
    FilterAll([FIRST], Replayable());
  }

  const FIRST_HELD := QUIET.(pending := [FIRST])
  const APPROACHING := Loop([FIRST], false, None, Approaching)

  lemma FirstStays()
    ensures Restore(CLOSED, FIRST_HELD) == APPROACHING
  {
    FilterAll([FIRST], IsFenceEnvelope());
    assert Filter([FIRST], IsPlainEnvelope()) == [];
  }

  lemma FirstSent(clock: Clock) returns (trace: seq<System>, events: seq<Event>)
    ensures Reaches(trace, events, Resumable(FIRST_QUEUED, [], QUIET, Offline))
  {
    FirstAdmitted(clock);
    var s0, s1 := Start(None, false), Resumable(FIRST_QUEUED, [], QUIET, Offline);
    assert InitialWorld(None) == FRESH_WORLD;
    trace, events := [s0], [];
    assert Reaches(trace, events, s0);
    assert ClientStep(s0, Send(0, 0, BARRIER, clock), s1);
    trace, events := Then(trace, events, s0, Client(Send(0, 0, BARRIER, clock)), s1);
  }

  lemma FirstTaken(clock: Clock) returns (trace: seq<System>, events: seq<Event>)
    ensures Reaches(trace, events, Resumable(FIRST_DRAINED, [], FIRST_HELD, RequestsDrained))
  {
    trace, events := FirstSent(clock);
    FirstDrained();
    FirstKept();
    var s0, s1 := Resumable(FIRST_QUEUED, [], QUIET, Offline), Resumable(FIRST_QUEUED, [], QUIET, LoopTaken);
    assert CleanStep(s0, CleanLoop([]), s1);
    trace, events := Then(trace, events, s0, Clean(CleanLoop([])), s1);
    var s2 := Resumable(FIRST_DRAINED, [], FIRST_HELD, RequestsDrained);
    assert CleanStep(s1, CleanRequests, s2);
    trace, events := Then(trace, events, s1, Clean(CleanRequests), s2);
  }

  lemma FirstRestored(clock: Clock) returns (trace: seq<System>, events: seq<Event>)
    ensures Reaches(trace, events, Resumable(FIRST_DRAINED, [], APPROACHING, Offline))
  {
    trace, events := FirstTaken(clock);
    FirstDrained();
    FirstStays();
    var s0, s1 := Resumable(FIRST_DRAINED, [], FIRST_HELD, RequestsDrained), Resumable(FIRST_DRAINED, [], FIRST_HELD, ControlDrained);
    assert FIRST_HELD.pending + [] == FIRST_HELD.pending;
    assert CleanStep(s0, CleanControl, s1);
    trace, events := Then(trace, events, s0, Clean(CleanControl), s1);
    var s2 := Resumable(FIRST_DRAINED, [], APPROACHING, Offline);
    assert CleanStep(s1, RestoreFence, s2);
    trace, events := Then(trace, events, s1, Clean(RestoreFence), s2);
  }

  lemma SessionLoaded(clock: Clock) returns (trace: seq<System>, events: seq<Event>)
    ensures Reaches(trace, events, Resumable(FIRST_DRAINED, [FIRST], Loop([MESSAGE], false, None, Approaching), Running))
  {
    trace, events := FirstRestored(clock);
    var s0 := Resumable(FIRST_DRAINED, [], APPROACHING, Offline);
    var loaded := Loop([FIRST, MESSAGE], false, None, Approaching);
    var s1, s2 := Resumable(FIRST_DRAINED, [], loaded, Offline), Resumable(FIRST_DRAINED, [], loaded, Running);
    assert SessionStep(s0, LoadSession([MESSAGE]), s1);
    trace, events := Then(trace, events, s0, Session(LoadSession([MESSAGE])), s1);
    assert SessionStep(s1, Connect(true, false), s2);
    trace, events := Then(trace, events, s1, Session(Connect(true, false)), s2);
    var s3 := Resumable(FIRST_DRAINED, [FIRST], Loop([MESSAGE], false, None, Approaching), Running);
    assert loaded.pending[1..] == [MESSAGE];
    assert RequestStep(s2, PullPending, s3);
    trace, events := Then(trace, events, s2, Request(PullPending), s3);
  }

  /**
   * A fence is queued and the loop cleaned up before the first connect, which then loads the
   * persisted session behind it: the fence leaves before the publish that the session hands back.
   */
  lemma LoadedSessionFollowsFence(clock: Clock) returns (trace: seq<System>, events: seq<Event>)
    ensures IsSystemRun(trace, events) && |events| > 0
    ensures var n := |events| - 1;
            FenceLeaves(trace[n], events[n], trace[n + 1]) && Held(trace[n + 1]) == [MESSAGE] && IsPublish(MESSAGE)
  {
    trace, events := SessionLoaded(clock);
    var s0 := Resumable(FIRST_DRAINED, [FIRST], Loop([MESSAGE], false, None, Approaching), Running);
    var s1 := Resumable(FIRST_DRAINED, [], Loop([MESSAGE], true, None, Draining), Running).(pendingDisconnect := true);
    FrontPops(FIRST);
    assert s1 == Dispatched(s0, Some(FIRST), [], false);
    assert RequestStep(s0, Dispatch(AllReady(), false), s1);
    trace, events := Then(trace, events, s0, Request(Dispatch(AllReady(), false)), s1);
    ReachesIsRun(trace, events, s1);
  }
}
