/** What every step of the shutdown system keeps about its lanes, its queues and its ledger. */
module ShutdownFlow {
  import opened Common
  import Scheduler
  import Ledger
  import opened Requests
  import opened Marks
  import opened Admission
  import opened ShutdownLoop
  import opened ShutdownSystem

  // ---- The admission world ----

  predicate Plumbed(w: World) {
    && ReceiversLive(w)
    && !w.lanes[0].lane.priority && !w.lanes[1].lane.priority && w.lanes[2].lane.priority
    && forall i :: 0 <= i < |w.log| ==> Routed(w.log[i].lane, w.log[i].item.request)
  }

  ghost predicate WorldOk(w: World) {
    Plumbed(w) && WorldInv(w)
  }

  /** The publish with admission number `q` was admitted. */
  predicate AdmittedPublish(w: World, q: nat) {
    1 <= q <= |w.log| && w.log[q - 1].lane == 0 && IsPublish(w.log[q - 1].item)
  }

  /** No request of a non-priority lane has a larger number. */
  function Limit(w: World): nat {
    if w.gate.fence.Some? then w.gate.fence.value else |w.log|
  }

  lemma KeepsPlumbing(w: World, a: Action)
    requires Plumbed(w) && Enabled(w, a) && (ClientAction(a) || LoopAction(a))
    ensures Plumbed(Apply(w, a))
  {
    if a.Send? {
      var (w', result) := ApplySend(w, a.lane, a.item, a.clock);
      assert w'.log == w.log || w'.log == w.log + [Entry(a.lane, result.item)];
    }
  }

  lemma KeepsWorld(w: World, a: Action)
    requires WorldOk(w) && Enabled(w, a) && (ClientAction(a) || LoopAction(a))
    ensures WorldOk(Apply(w, a))
  {
    KeepsPlumbing(w, a);
    StepKeepsLanesInv(w, a);
    StepKeepsOrder(w, a);
    StepKeepsFence(w, a);
  }

  lemma LaneItemsRouted(w: World, l: nat, e: RequestEnvelope)
    requires WorldOk(w) && l <= 1 && e in LaneItems(w, l)
    ensures Routed(l, e.request) && 1 <= e.meta.sequence <= Limit(w)
    ensures w.log[e.meta.sequence - 1] == Entry(l, e)
  {
    var r := w.lanes[l];
    assert r.admitted == r.taken + r.discarded + r.lane.items;
    assert e in r.admitted;
    LaneLogMembers(w.log, l);
    if w.gate.fence.Some? {
      assert NonPriority(w, e.meta.sequence - 1);
    }
  }

  /** A control lane holds nothing that is counted. */
  lemma ControlItemsAreUnmarked(w: World, mark: Mark)
    requires WorldOk(w)
    ensures Unmarked(LaneItems(w, 1), mark)
  {
    forall e | e in LaneItems(w, 1)
      ensures !Marked(e, mark)
    {
      LaneItemsRouted(w, 1, e);
    }
  }

  lemma LaneItemsBounded(w: World, l: nat)
    requires WorldOk(w) && l <= 1
    ensures forall e :: e in LaneItems(w, l) ==> 1 <= e.meta.sequence <= Limit(w)
  {
    forall e | e in LaneItems(w, l)
      ensures 1 <= e.meta.sequence <= Limit(w)
    {
      LaneItemsRouted(w, l, e);
    }
  }

  lemma {:induction false} LoggedIsAdmitted(log: seq<Entry>, i: nat)
    requires i < |log|
    ensures log[i].item in LaneLog(log, log[i].lane)
  {
    if i < |log| - 1 {
      LoggedIsAdmitted(log[..|log| - 1], i);
    }
  }

  /** Once the fence has been taken from its lane, the lane is empty for good. */
  lemma LaneEmptyAfterFence(w: World)
    requires WorldOk(w) && w.gate.fence.Some? && Unmarked(LaneItems(w, 0), FenceMark)
    ensures LaneItems(w, 0) == []
  {
    var r := w.lanes[0];
    var f := w.gate.fence.value - 1;
    var fence := w.log[f].item;
    LoggedIsAdmitted(w.log, f);
    assert fence in r.admitted && r.admitted == r.taken + r.lane.items;
    assert Marked(fence, FenceMark) && fence in r.taken;
    LaneLogIncreasing(w.log, 0);
    var i :| 0 <= i < |r.taken| && r.taken[i] == fence;
    if r.lane.items != [] {
      var next := r.lane.items[0];
      assert r.admitted[i] == fence && r.admitted[|r.taken|] == next;
      LaneItemsRouted(w, 0, next);
    }
  }

  // ---- Places ----

  /** How often a mark occurs in the lane, in the loop, among the handled and among the dropped. */
  function Total(s: System, mark: Mark): nat {
    Count(s.queued, mark) + Count(s.loop.pending, mark) + Count(LaneItems(s.world, 0), mark)
    + Count(s.left, mark) + Count(s.dropped, mark)
  }

  /** Every admitted publish is in exactly one place, and so is the fence, which may also be captured. */
  ghost predicate Balanced(s: System) {
    && (forall q: nat :: q > 0 ==> Total(s, Number(q)) == if AdmittedPublish(s.world, q) then 1 else 0)
    && Total(s, FenceMark) + (if s.loop.orderedPacket then 1 else 0) == if s.world.gate.fence.Some? then 1 else 0
  }

  predicate NoNumbered(k: seq<RequestEnvelope>) {
    forall e :: e in k ==> !IsNumbered(e)
  }

  predicate Bounded(s: System) {
    forall e :: e in Held(s) ==> e.meta.sequence <= Limit(s.world)
  }

  /** While the fence is captured, nothing that was admitted is still held. */
  predicate CapturedOk(s: System) {
    && (s.loop.orderedPacket ==> NoNumbered(Held(s)))
    && (s.loop.phase == Flushing ==> s.loop.orderedPacket)
  }

  ghost predicate FlowOk(s: System) {
    Balanced(s) && Bounded(s) && CapturedOk(s)
  }

  /** The step admitted nothing and installed nothing. */
  predicate SameAdmissions(w: World, w': World) {
    w'.log == w.log && w'.gate.fence == w.gate.fence
  }

  /** The step keeps the world and the flow in order and admits nothing. */
  ghost predicate Safe(s: System, s': System) {
    WorldOk(s'.world) && FlowOk(s') && SameAdmissions(s.world, s'.world)
  }

  /** Moving requests between places keeps the balance. */
  lemma Rearranged(s: System, s': System)
    requires FlowOk(s) && SameAdmissions(s.world, s'.world) && s'.loop.orderedPacket == s.loop.orderedPacket
    requires forall mark :: Lasting(mark) ==> Total(s', mark) == Total(s, mark)
    requires Bounded(s') && CapturedOk(s')
    ensures FlowOk(s')
  {
    assert Lasting(FenceMark);
    assert forall q: nat :: q > 0 ==> Lasting(Number(q));
  }

  lemma CapturedLaneIsEmpty(s: System)
    requires WorldOk(s.world) && Balanced(s) && s.loop.orderedPacket
    ensures s.world.gate.fence.Some? && LaneItems(s.world, 0) == []
  {
    CountZero(LaneItems(s.world, 0), FenceMark);
    LaneEmptyAfterFence(s.world);
  }

  // ---- The loop's bulk moves ----

  lemma EmptiedIsDrains(w: World)
    requires ReceiversLive(w)
    ensures Emptied(w) == Apply(Apply(w, Drain(0)), Drain(1))
  {
    assert Emptied(w).lanes == Apply(Apply(w, Drain(0)), Drain(1)).lanes;
  }

  lemma EmptiedKeeps(w: World)
    requires WorldOk(w)
    ensures WorldOk(Emptied(w)) && SameAdmissions(w, Emptied(w)) && Emptied(w).gate == w.gate
    ensures LaneItems(Emptied(w), 0) == [] && LaneItems(Emptied(w), 1) == []
  {
    EmptiedIsDrains(w);
    KeepsWorld(w, Drain(0));
    KeepsWorld(Apply(w, Drain(0)), Drain(1));
  }

  lemma TakenOverTotal(s: System, mark: Mark)
    requires WorldOk(s.world)
    ensures Total(TakenOver(s), mark) == Total(s, mark)
  {
    var a, b := LaneItems(s.world, 0), LaneItems(s.world, 1);
    EmptiedKeeps(s.world);
    CountAppend(s.loop.pending + a, b, mark);
    CountAppend(s.loop.pending, a, mark);
    ControlItemsAreUnmarked(s.world, mark);
    CountZero(b, mark);
  }

  lemma TakenOverKeeps(s: System)
    requires WorldOk(s.world) && FlowOk(s)
    ensures Safe(s, TakenOver(s))
  {
    var s' := TakenOver(s);
    EmptiedKeeps(s.world);
    forall mark | Lasting(mark)
      ensures Total(s', mark) == Total(s, mark)
    {
      TakenOverTotal(s, mark);
    }
    LaneItemsBounded(s.world, 0);
    LaneItemsBounded(s.world, 1);
    if s.loop.orderedPacket {
      CapturedLaneIsEmpty(s);
      forall e | e in LaneItems(s.world, 1)
        ensures !IsNumbered(e)
      {
        LaneItemsRouted(s.world, 1, e);
      }
    }
    Rearranged(s, s');
  }

  lemma TerminatedKeeps(s: System)
    requires WorldOk(s.world) && FlowOk(s)
    ensures Safe(s, Terminated(s))
  {
    KeepsWorld(s.world, Terminate);
    Rearranged(s, Terminated(s));
  }

  lemma ClearedKeeps(s: System)
    requires WorldOk(s.world) && FlowOk(s)
    ensures Safe(s, DeadlineCleared(s))
  {
    KeepsWorld(s.world, ClearDeadline);
    Rearranged(s, DeadlineCleared(s));
  }

  lemma PhaseKeeps(s: System, phase: ShutdownPhase)
    requires FlowOk(s) && phase != Flushing
    ensures FlowOk(InPhase(s, phase))
  {
    Rearranged(s, InPhase(s, phase));
  }

  lemma FinishedKeeps(s: System, phase: ShutdownPhase, superseded: bool)
    requires WorldOk(s.world) && FlowOk(s) && phase != Flushing
    ensures Safe(s, Finished(s, phase, superseded))
  {
    if superseded {
      ClearedKeeps(s);
    }
    var t := if superseded then DeadlineCleared(s) else s;
    TakenOverKeeps(t);
    PhaseKeeps(TakenOver(t), phase);
  }

  lemma ReplaysUnmarked(replays: seq<RequestEnvelope>, mark: Mark)
    requires ValidReplays(replays) && Lasting(mark)
    ensures Count(replays, mark) == 0
  {
    CountZero(replays, mark);
  }

  lemma WorkDiscardedKeeps(s: System, replays: seq<RequestEnvelope>)
    requires FlowOk(s) && ValidReplays(replays)
    ensures FlowOk(WorkDiscarded(s, replays))
  {
    forall mark | Lasting(mark)
      ensures Total(WorkDiscarded(s, replays), mark) == Total(s, mark)
    {
      CountAppend(s.loop.pending + replays, s.queued, mark);
      CountAppend(s.loop.pending, replays, mark);
      ReplaysUnmarked(replays, mark);
    }
    Rearranged(s, WorkDiscarded(s, replays));
  }

  lemma HeldDroppedKeeps(s: System)
    requires FlowOk(s)
    ensures FlowOk(HeldDropped(s))
  {
    forall mark | Lasting(mark)
      ensures Total(HeldDropped(s), mark) == Total(s, mark)
    {
      CountAppend(s.dropped, s.loop.pending + s.queued, mark);
      CountAppend(s.loop.pending, s.queued, mark);
    }
    Rearranged(s, HeldDropped(s));
  }

  lemma AllDroppedKeeps(s: System)
    requires WorldOk(s.world) && FlowOk(s)
    ensures Safe(s, AllDropped(s))
  {
    TerminatedKeeps(s);
    TakenOverKeeps(Terminated(s));
    HeldDroppedKeeps(TakenOver(Terminated(s)));
  }

  lemma SessionClearedKeeps(s: System, covered: bool)
    requires WorldOk(s.world) && FlowOk(s)
    ensures Safe(s, SessionCleared(s, covered))
  {
    if covered {
      TerminatedKeeps(s);
      FinishedKeeps(Terminated(s), Failed, false);
      HeldDroppedKeeps(Finished(Terminated(s), Failed, false));
    } else {
      HeldDroppedKeeps(s);
    }
  }

  // ---- Clients ----

  /** Seen from lane 0, a client action is nothing or the admission of one item. */
  ghost predicate LaneZeroStep(w: World, w': World, added: Option<RequestEnvelope>) {
    && Limit(w) <= Limit(w')
    && match added
       case None =>
         && LaneItems(w', 0) == LaneItems(w, 0)
         && w'.gate.fence.Some? == w.gate.fence.Some?
         && (forall q: nat :: AdmittedPublish(w', q) <==> AdmittedPublish(w, q))
       case Some(e) =>
         && LaneItems(w', 0) == LaneItems(w, 0) + [e]
         && w.gate.fence.None? && w'.gate.fence.Some? == e.IsFence()
         && e.meta.sequence == |w.log| + 1
         && (forall q: nat :: AdmittedPublish(w', q) <==> AdmittedPublish(w, q) || (IsPublish(e) && q == e.meta.sequence))
  }

  lemma SendEffect(w: World, l: nat, item: RequestEnvelope, clock: Clock) returns (added: Option<RequestEnvelope>)
    requires Plumbed(w) && OrderInv(w) && FenceInv(w) && l < |w.lanes| && Routed(l, item.request)
    ensures LaneZeroStep(w, ApplySend(w, l, item, clock).0, added)
  {
    var (w', result) := ApplySend(w, l, item, clock);
    added := if result.Sent? && l == 0 then Some(result.item) else None;
    if result.Sent? {
      assert w'.log == w.log + [Entry(l, result.item)];
    }
  }

  lemma ClientEffect(w: World, a: Action) returns (added: Option<RequestEnvelope>)
    requires WorldOk(w) && Enabled(w, a) && ClientAction(a)
    ensures LaneZeroStep(w, Apply(w, a), added)
  {
    added := None;
    if a.Send? {
      added := SendEffect(w, a.lane, a.item, a.clock);
    }
  }

  lemma AddedKeepsFlow(s: System, added: Option<RequestEnvelope>, s': System)
    requires FlowOk(s) && s' == s.(world := s'.world) && LaneZeroStep(s.world, s'.world, added)
    ensures FlowOk(s')
  {
    forall mark | Lasting(mark)
      ensures Total(s', mark) == Total(s, mark) + if added.Some? && Marked(added.value, mark) then 1 else 0
    {
      if added.Some? {
        CountAppend(LaneItems(s.world, 0), [added.value], mark);
        CountOne(added.value, mark);
      }
    }
    assert Lasting(FenceMark);
    assert forall q: nat :: q > 0 ==> Lasting(Number(q));
  }

  lemma ClientKeeps(s: System, a: Action, s': System)
    requires WorldOk(s.world) && FlowOk(s) && ClientStep(s, a, s')
    ensures WorldOk(s'.world) && FlowOk(s')
  {
    KeepsWorld(s.world, a);
    var added := ClientEffect(s.world, a);
    AddedKeepsFlow(s, added, s');
  }

  // ---- Receiving and dispatching ----

  lemma PullPendingKeeps(s: System, s': System)
    requires FlowOk(s) && RequestStep(s, PullPending, s')
    ensures FlowOk(s') && Held(s') == Held(s)
  {
    var e := s.loop.pending[0];
    assert s.loop.pending == [e] + s.loop.pending[1..];
    forall mark | Lasting(mark)
      ensures Total(s', mark) == Total(s, mark)
    {
      CountAppend(s.queued, [e], mark);
      CountOne(e, mark);
      CountFront(s.loop.pending, mark);
    }
    Rearranged(s, s');
  }

  lemma ReceiveEffect(w: World, a: Action)
    requires Plumbed(w) && Enabled(w, a) && LoopReceives(a)
    ensures SameAdmissions(w, Apply(w, a))
    ensures var items := LaneItems(w, 0);
            LaneItems(Apply(w, a), 0) == if a.lane == 0 && items != [] then items[1..] else items
  {
  }

  lemma PullKeeps(s: System, a: Action, s': System)
    requires WorldOk(s.world) && FlowOk(s) && RequestStep(s, Pull(a), s')
    ensures Safe(s, s')
  {
    KeepsWorld(s.world, a);
    ReceiveEffect(s.world, a);
    PulledFlow(s, a.lane, s');
  }

  lemma PulledFlow(s: System, l: nat, s': System)
    requires WorldOk(s.world) && FlowOk(s) && l <= 1 && SameAdmissions(s.world, s'.world)
    requires var items := LaneItems(s.world, l);
             s' == s.(world := s'.world, queued := s.queued + if items == [] then [] else [items[0]])
    requires var items := LaneItems(s.world, 0);
             LaneItems(s'.world, 0) == if l == 0 && items != [] then items[1..] else items
    ensures FlowOk(s')
  {
    if LaneItems(s.world, l) == [] {
      assert s'.queued == s.queued;
      Rearranged(s, s');
    } else {
      PulledKeepsFlow(s, l, LaneItems(s.world, l)[0], s');
    }
  }

  lemma PulledKeepsFlow(s: System, l: nat, e: RequestEnvelope, s': System)
    requires WorldOk(s.world) && FlowOk(s) && l <= 1 && LaneItems(s.world, l) != [] && e == LaneItems(s.world, l)[0]
    requires SameAdmissions(s.world, s'.world) && s' == s.(world := s'.world, queued := s.queued + [e])
    requires LaneItems(s'.world, 0) == if l == 0 then LaneItems(s.world, 0)[1..] else LaneItems(s.world, 0)
    ensures FlowOk(s')
  {
    LaneItemsRouted(s.world, l, e);
    forall mark | Lasting(mark)
      ensures Total(s', mark) == Total(s, mark)
    {
      CountAppend(s.queued, [e], mark);
      CountOne(e, mark);
      if l == 0 {
        CountFront(LaneItems(s.world, 0), mark);
      }
    }
    if s.loop.orderedPacket {
      CapturedLaneIsEmpty(s);
    }
    Rearranged(s, s');
  }

  lemma HeldAfterRemove(s: System, i: nat)
    requires i < |s.queued|
    ensures RemoveAt(s.queued, i) + s.loop.pending == RemoveAt(Held(s), i) && Held(s)[i] == s.queued[i]
  {
  }

  /** The branch that discards a request admitted after the fence is never taken. */
  lemma NothingHeldIsBeyond(s: System, e: RequestEnvelope)
    requires Bounded(s) && e in Held(s)
    ensures !Beyond(s, e)
  {
  }

  /** The four ways a request leaves the scheduler. */
  lemma HandledCases(s: System, e: RequestEnvelope, known: bool)
    requires !Beyond(s, e)
    ensures IsPublish(e) ==> Handled(s, e, known) == Observe(s, e, known)
    ensures e.IsFence() ==> Handled(s, e, known) == CaptureFence(s, e)
    ensures IsDisconnectRequest(e.request) ==> Handled(s, e, known) == GracefulDisconnect(s)
    ensures !IsPublish(e) && !e.IsFence() && !IsDisconnectRequest(e.request) ==>
              Handled(s, e, known) == s || Handled(s, e, known) == Register(s)
  {
  }

  /** Taking an unmarked request out of the scheduler. */
  lemma TakenPlainKeeps(s: System, i: nat)
    requires FlowOk(s) && i < |s.queued| && !IsPublish(s.queued[i]) && !s.queued[i].IsFence()
    ensures FlowOk(s.(queued := RemoveAt(s.queued, i)))
  {
    var s' := s.(queued := RemoveAt(s.queued, i));
    forall mark | Lasting(mark)
      ensures Total(s', mark) == Total(s, mark)
    {
      CountRemove(s.queued, i, mark);
    }
    HeldAfterRemove(s, i);
    RemovedMembers(Held(s), i);
    Rearranged(s, s');
  }

  lemma TakenPublishKeeps(s: System, i: nat, s': System)
    requires FlowOk(s) && i < |s.queued| && IsPublish(s.queued[i])
    requires s'.queued == RemoveAt(s.queued, i) && s'.left == s.left + [s.queued[i]]
    requires s'.world == s.world && s'.loop == s.loop && s'.dropped == s.dropped
    ensures FlowOk(s')
  {
    forall mark | Lasting(mark)
      ensures Total(s', mark) == Total(s, mark)
    {
      CountRemove(s.queued, i, mark);
      CountAppend(s.left, [s.queued[i]], mark);
      CountOne(s.queued[i], mark);
    }
    HeldAfterRemove(s, i);
    RemovedMembers(Held(s), i);
    Rearranged(s, s');
  }

  lemma TakenFenceKeeps(s: System, i: nat, s': System)
    requires FlowOk(s) && i < |s.queued| && s.queued[i].IsFence()
    requires s'.queued == RemoveAt(s.queued, i) && s'.world == s.world && s'.left == s.left && s'.dropped == s.dropped
    requires s'.loop.pending == s.loop.pending && s'.loop.orderedPacket && s'.loop.phase == Draining
    requires NoNumbered(Held(s'))
    ensures FlowOk(s')
  {
    forall mark | Lasting(mark)
      ensures Total(s', mark) == Total(s, mark) - if mark == FenceMark then 1 else 0
    {
      CountRemove(s.queued, i, mark);
    }
    assert Lasting(FenceMark);
    assert forall q: nat :: q > 0 ==> Lasting(Number(q));
    HeldAfterRemove(s, i);
    RemovedMembers(Held(s), i);
  }

  lemma GracefulDisconnectKeeps(s: System)
    requires WorldOk(s.world) && FlowOk(s)
    ensures Safe(s, GracefulDisconnect(s))
  {
    if s.world.gate.fence.Some? {
      FinishedKeeps(s, Failed, true);
    }
  }

  // ---- Order ----

  predicate Counts(e: RequestEnvelope, numbered: bool) {
    IsPublish(e) && (numbered ==> e.meta.sequence > 0)
  }

  /** No publish, or no numbered one, stands behind a fence. */
  predicate NoneAfterFence(k: seq<RequestEnvelope>, numbered: bool) {
    forall i, j :: 0 <= i < j < |k| && k[i].IsFence() ==> !Counts(k[j], numbered)
  }

  /** Outside a clean-up, and until the loop is done for good, the held requests are in order. */
  predicate OrderOk(s: System, numbered: bool) {
    (s.stage == Running || s.stage == Offline) && !s.complete ==> NoneAfterFence(Held(s), numbered)
  }

  lemma FencelessInOrder(k: seq<RequestEnvelope>, numbered: bool)
    requires Unmarked(k, FenceMark)
    ensures NoneAfterFence(k, numbered)
  {
    assert forall i :: 0 <= i < |k| ==> k[i] in k && !Marked(k[i], FenceMark);
  }

  /** Two parts are in order when each is, and nothing counted follows a fence of the first. */
  lemma AppendInOrder(a: seq<RequestEnvelope>, b: seq<RequestEnvelope>, numbered: bool)
    requires NoneAfterFence(a, numbered) && NoneAfterFence(b, numbered)
    requires Unmarked(a, FenceMark) || forall e :: e in b ==> !Counts(e, numbered)
    ensures NoneAfterFence(a + b, numbered)
  {
    var k := a + b;
    forall i, j | 0 <= i < j < |k| && k[i].IsFence()
      ensures !Counts(k[j], numbered)
    {
      if i < |a| {
        assert k[i] in a && Marked(k[i], FenceMark);
      }
      if j >= |a| {
        assert k[j] in b;
      }
    }
  }

  lemma InsertInOrder(a: seq<RequestEnvelope>, e: RequestEnvelope, b: seq<RequestEnvelope>, numbered: bool)
    requires !IsPublish(e) && !e.IsFence() && NoneAfterFence(a + b, numbered)
    ensures NoneAfterFence(a + [e] + b, numbered)
  {
    var k, k' := a + b, a + [e] + b;
    forall i, j | 0 <= i < j < |k'| && k'[i].IsFence()
      ensures !Counts(k'[j], numbered)
    {
      var i', j' := if i < |a| then i else i - 1, if j < |a| then j else j - 1;
      if j != |a| {
        assert k[i'] == k'[i] && k[j'] == k'[j];
      }
    }
  }

  lemma RemovedInOrder(k: seq<RequestEnvelope>, i: nat, numbered: bool)
    requires i < |k| && NoneAfterFence(k, numbered)
    ensures NoneAfterFence(RemoveAt(k, i), numbered)
  {
    var r := RemoveAt(k, i);
    assert forall j :: 0 <= j < |r| ==> r[j] == k[if j < i then j else j + 1];
  }

  /** Everything pulled from lane 0 goes behind what is held, and the lane is empty once a fence is. */
  lemma HeldFenceEmptiesLane(s: System)
    requires WorldOk(s.world) && Balanced(s) && !Unmarked(Held(s), FenceMark)
    ensures LaneItems(s.world, 0) == []
  {
    CountZero(Held(s), FenceMark);
    CountAppend(s.queued, s.loop.pending, FenceMark);
    CountZero(LaneItems(s.world, 0), FenceMark);
    LaneEmptyAfterFence(s.world);
  }

  lemma PullOrder(s: System, a: Action, s': System, numbered: bool)
    requires WorldOk(s.world) && FlowOk(s) && OrderOk(s, numbered) && RequestStep(s, Pull(a), s')
    ensures OrderOk(s', numbered)
  {
    var items := LaneItems(s.world, a.lane);
    if items == [] {
      assert Held(s') == Held(s);
    } else {
      LaneItemsRouted(s.world, a.lane, items[0]);
      if a.lane == 0 {
        assert Held(s') == Held(s) + [items[0]];
        if !Unmarked(Held(s), FenceMark) {
          HeldFenceEmptiesLane(s);
        }
        AppendInOrder(Held(s), [items[0]], numbered);
      } else {
        InsertInOrder(s.queued, items[0], s.loop.pending, numbered);
      }
    }
  }

  /** Draining both lanes into the queue keeps the order: publishes and fence as admitted, then controls. */
  lemma TakenOverOrder(s: System, numbered: bool)
    requires WorldOk(s.world) && FlowOk(s) && NoneAfterFence(Held(s), numbered)
    ensures NoneAfterFence(Held(TakenOver(s)), numbered)
  {
    var a, b := LaneItems(s.world, 0), LaneItems(s.world, 1);
    assert Held(TakenOver(s)) == Held(s) + a + b;
    if !Unmarked(Held(s), FenceMark) {
      HeldFenceEmptiesLane(s);
    }
    LaneInOrder(s.world, numbered);
    AppendInOrder(Held(s), a, numbered);
    forall e | e in b
      ensures !Counts(e, numbered) && !Marked(e, FenceMark)
    {
      LaneItemsRouted(s.world, 1, e);
    }
    FencelessInOrder(b, numbered);
    AppendInOrder(Held(s) + a, b, numbered);
  }

  /** Nothing is admitted to lane 0 behind a fence. */
  lemma FenceIsLastInLane(w: World, i: nat, j: nat)
    requires WorldOk(w) && i < j < |LaneItems(w, 0)|
    ensures !LaneItems(w, 0)[i].IsFence()
  {
    var x, y := LaneItems(w, 0)[i], LaneItems(w, 0)[j];
    LaneItemsRouted(w, 0, x);
    LaneItemsRouted(w, 0, y);
    LaneIncreasing(w, i, j);
    assert NonPriority(w, y.meta.sequence - 1);
    assert w.log[x.meta.sequence - 1].item == x;
  }

  lemma LaneInOrder(w: World, numbered: bool)
    requires WorldOk(w)
    ensures NoneAfterFence(LaneItems(w, 0), numbered)
  {
    var k := LaneItems(w, 0);
    forall i, j | 0 <= i < j < |k|
      ensures k[i].IsFence() ==> !Counts(k[j], numbered)
    {
      FenceIsLastInLane(w, i, j);
    }
  }

  lemma LaneIncreasing(w: World, i: nat, j: nat)
    requires WorldOk(w) && i < j < |LaneItems(w, 0)|
    ensures LaneItems(w, 0)[i].meta.sequence < LaneItems(w, 0)[j].meta.sequence
  {
    var r := w.lanes[0];
    LaneLogIncreasing(w.log, 0);
    assert r.admitted == r.taken + r.lane.items;
    assert r.admitted[|r.taken| + i] == r.lane.items[i] && r.admitted[|r.taken| + j] == r.lane.items[j];
  }

  lemma RestoredOrder(gate: Gate, l: Loop, numbered: bool)
    requires gate.fence.Some? && l.phase != Flushing
    ensures NoneAfterFence(Restore(gate, l).pending, numbered)
  {
    var k := Restore(gate, l).pending;
    forall i, j | 0 <= i < j < |k| && k[i].IsFence()
      ensures !Counts(k[j], numbered)
    {
      RestoreFencesLast(gate, l, i, j);
    }
  }

  // ---- Dispatch ----

  /** Only a control may leave from behind the front. */
  lemma OnlyControlsOvertake(s: System, readiness: RequestEnvelope -> Scheduler.RequestReadiness, i: int)
    requires Scheduler.Eligible(Scheduler.Classified(s.queued, Classify(readiness)), i)
    ensures 0 <= i < |s.queued| && (s.queued[i].IsFence() || IsPublish(s.queued[i]) ==> i == 0)
  {
    var rs := Scheduler.Classified(s.queued, Classify(readiness));
    assert |rs| == |s.queued|;
    assert rs[i] == Classify(readiness)(s.queued[i]);
  }

  lemma FirstFenceLeavesNothing(s: System, numbered: bool)
    requires s.queued != [] && s.queued[0].IsFence() && NoneAfterFence(Held(s), numbered)
    ensures forall e :: e in RemoveAt(Held(s), 0) ==> !Counts(e, numbered)
  {
    var k, r := Held(s), RemoveAt(Held(s), 0);
    forall e | e in r
      ensures !Counts(e, numbered)
    {
      var j :| 0 <= j < |r| && r[j] == e;
      assert k[0].IsFence() && k[j + 1] == e;
    }
  }

  function Without(s: System, i: nat): System
    requires i < |s.queued|
  {
    s.(queued := RemoveAt(s.queued, i))
  }

  lemma PublishTaken(s: System, i: nat, known: bool)
    requires WorldOk(s.world) && FlowOk(s) && i < |s.queued| && IsPublish(s.queued[i])
    ensures Safe(s, Observe(Without(s, i), s.queued[i], known))
  {
    TakenPublishKeeps(s, i, Observe(Without(s, i), s.queued[i], known));
  }

  lemma FenceTaken(s: System)
    requires WorldOk(s.world) && FlowOk(s) && s.queued != [] && s.queued[0].IsFence() && NoneAfterFence(Held(s), true)
    ensures Safe(s, CaptureFence(Without(s, 0), s.queued[0]))
  {
    HeldAfterRemove(s, 0);
    FirstFenceLeavesNothing(s, true);
    TakenFenceKeeps(s, 0, CaptureFence(Without(s, 0), s.queued[0]));
  }

  lemma DisconnectTaken(s: System, i: nat)
    requires WorldOk(s.world) && FlowOk(s) && i < |s.queued| && IsDisconnectRequest(s.queued[i].request)
    ensures Safe(s, GracefulDisconnect(Without(s, i)))
  {
    TakenPlainKeeps(s, i);
    GracefulDisconnectKeeps(Without(s, i));
  }

  lemma OtherTaken(s: System, i: nat)
    requires WorldOk(s.world) && FlowOk(s) && i < |s.queued| && !IsPublish(s.queued[i]) && !s.queued[i].IsFence()
    ensures Safe(s, Without(s, i)) && Safe(s, Register(Without(s, i)))
  {
    TakenPlainKeeps(s, i);
    FlagsKeep(Without(s, i), Register(Without(s, i)));
  }

  lemma TakenKeeps(s: System, i: nat, known: bool)
    requires WorldOk(s.world) && FlowOk(s) && NoneAfterFence(Held(s), true)
    requires i < |s.queued| && (s.queued[i].IsFence() ==> i == 0)
    ensures Safe(s, Handled(Without(s, i), s.queued[i], known))
  {
    var e, t := s.queued[i], Without(s, i);
    HeldAfterRemove(s, i);
    assert e in Held(s);
    NothingHeldIsBeyond(s, e);
    if IsPublish(e) {
      PublishTaken(s, i, known);
      assert Handled(t, e, known) == Observe(t, e, known);
    } else if e.IsFence() {
      FenceTaken(s);
      assert Handled(t, e, known) == CaptureFence(t, e);
    } else if IsDisconnectRequest(e.request) {
      DisconnectTaken(s, i);
      assert Handled(t, e, known) == GracefulDisconnect(t);
    } else {
      OtherTaken(s, i);
      assert Handled(t, e, known) == t || Handled(t, e, known) == Register(t);
    }
  }

  lemma GracefulDisconnectOrder(s: System, numbered: bool)
    requires WorldOk(s.world) && FlowOk(s) && NoneAfterFence(Held(s), numbered)
    ensures NoneAfterFence(Held(GracefulDisconnect(s)), numbered)
  {
    if s.world.gate.fence.Some? {
      var t := DeadlineCleared(s);
      ClearedKeeps(s);
      assert Held(t) == Held(s);
      TakenOverOrder(t, numbered);
      assert Held(GracefulDisconnect(s)) == Held(TakenOver(t));
    }
  }

  lemma HandledHeld(s: System, e: RequestEnvelope, known: bool)
    requires !IsDisconnectRequest(e.request)
    ensures Held(Handled(s, e, known)) == Held(s)
  {
    if Beyond(s, e) {
    } else if IsPublish(e) {
    } else if e.IsFence() {
    } else {
    }
  }

  lemma TakenOrder(s: System, i: nat, known: bool, s': System, numbered: bool)
    requires WorldOk(s.world) && FlowOk(s) && NoneAfterFence(Held(s), numbered) && i < |s.queued|
    requires s' == Handled(Without(s, i), s.queued[i], known)
    ensures NoneAfterFence(Held(s'), numbered)
  {
    var e, t := s.queued[i], Without(s, i);
    HeldAfterRemove(s, i);
    RemovedInOrder(Held(s), i, numbered);
    assert NoneAfterFence(Held(t), numbered);
    if IsDisconnectRequest(e.request) {
      assert e in Held(s);
      NothingHeldIsBeyond(s, e);
      HandledCases(t, e, known);
      TakenPlainKeeps(s, i);
      GracefulDisconnectOrder(t, numbered);
    } else {
      HandledHeld(t, e, known);
    }
  }

  lemma DispatchedIndex(s: System, readiness: RequestEnvelope -> Scheduler.RequestReadiness, known: bool, s': System)
    returns (i: Option<nat>)
    requires RequestStep(s, Dispatch(readiness, known), s')
    ensures i.None? ==> s' == s
    ensures i.Some? ==>
              && i.value < |s.queued| && (s.queued[i.value].IsFence() || IsPublish(s.queued[i.value]) ==> i.value == 0)
              && s' == Handled(Without(s, i.value), s.queued[i.value], known)
  {
    var out: Option<RequestEnvelope>, queued' :|
      Scheduler.Popped(s.queued, Classify(readiness), out, queued') && s' == Dispatched(s, out, queued', known);
    if out.None? {
      return None;
    }
    var k :| Scheduler.Eligible(Scheduler.Classified(s.queued, Classify(readiness)), k)
             && out.value == s.queued[k] && queued' == RemoveAt(s.queued, k);
    OnlyControlsOvertake(s, readiness, k);
    return Some(k);
  }

  lemma DispatchKeeps(s: System, readiness: RequestEnvelope -> Scheduler.RequestReadiness, known: bool, s': System)
    requires WorldOk(s.world) && FlowOk(s) && OrderOk(s, true) && RequestStep(s, Dispatch(readiness, known), s')
    ensures Safe(s, s')
  {
    var i := DispatchedIndex(s, readiness, known, s');
    if i.Some? {
      TakenKeeps(s, i.value, known);
    }
  }

  lemma HandledStaysOpen(s: System, e: RequestEnvelope, known: bool)
    ensures var s' := Handled(s, e, known);
            s'.stage == s.stage && s'.complete == s.complete && s'.writing == s.writing && s'.reader == s.reader
  {
    if Beyond(s, e) {
    } else if IsPublish(e) {
    } else if e.IsFence() {
    } else if IsDisconnectRequest(e.request) {
    } else {
    }
  }

  lemma DispatchOrder(s: System, readiness: RequestEnvelope -> Scheduler.RequestReadiness, known: bool, s': System, numbered: bool)
    requires WorldOk(s.world) && FlowOk(s) && OrderOk(s, numbered) && RequestStep(s, Dispatch(readiness, known), s')
    ensures OrderOk(s', numbered)
  {
    var i := DispatchedIndex(s, readiness, known, s');
    if i.Some? {
      TakenOrder(s, i.value, known, s', numbered);
    }
  }

  // ---- Writing, resetting and failing ----

  lemma WrittenKeeps(s: System, replays: seq<RequestEnvelope>)
    requires WorldOk(s.world) && FlowOk(s) && ValidReplays(replays)
    ensures Safe(s, Written(s, replays))
  {
    AllDroppedKeeps(s);
    var t := AllDropped(s).(writing := false, complete := true);
    Rearranged(AllDropped(s), t);
    if s.loop.orderedPacket {
      FinishedKeeps(t, Completed, false);
      WorkDiscardedKeeps(Finished(t, Completed, false), replays);
    }
  }

  /** The flags of the loop take no part in the flow. */
  lemma FlagsKeep(s: System, s': System)
    requires FlowOk(s) && s'.world == s.world && s'.queued == s.queued && s'.loop == s.loop
    requires s'.left == s.left && s'.dropped == s.dropped
    ensures FlowOk(s')
  {
    Rearranged(s, s');
  }

  lemma FlagsSafe(s: System, t: System, s': System)
    requires Safe(s, t) && s'.world == t.world && s'.queued == t.queued && s'.loop == t.loop
    requires s'.left == t.left && s'.dropped == t.dropped
    ensures Safe(s, s')
  {
    FlagsKeep(t, s');
  }

  function Ended(s: System, phase: ShutdownPhase, superseded: bool, replays: seq<RequestEnvelope>): System {
    WorkDiscarded(Finished(Terminated(s), phase, superseded), replays)
  }

  lemma EndedKeeps(s: System, phase: ShutdownPhase, superseded: bool, replays: seq<RequestEnvelope>)
    requires WorldOk(s.world) && FlowOk(s) && ValidReplays(replays) && phase != Flushing
    ensures Safe(s, Ended(s, phase, superseded, replays))
  {
    TerminatedKeeps(s);
    FinishedKeeps(Terminated(s), phase, superseded);
    WorkDiscardedKeeps(Finished(Terminated(s), phase, superseded), replays);
  }

  lemma ImmediateTakenKeeps(s: System)
    requires WorldOk(s.world) && FlowOk(s) && Enabled(s.world, Receive(2))
    ensures Safe(s, s.(world := Apply(s.world, Receive(2))))
  {
    KeepsWorld(s.world, Receive(2));
    Rearranged(s, s.(world := Apply(s.world, Receive(2))));
  }

  lemma ImmediateKeeps(s: System, replays: seq<RequestEnvelope>)
    requires WorldOk(s.world) && FlowOk(s) && ValidReplays(replays) && Enabled(s.world, Receive(2))
    ensures Safe(s, ImmediateDisconnect(s, replays))
  {
    ImmediateTakenKeeps(s);
    var r := s.(world := Apply(s.world, Receive(2)));
    if s.world.gate.fence.Some? {
      EndedKeeps(r, Failed, true, replays);
      FlagsKeep(Ended(r, Failed, true, replays), ImmediateDisconnect(s, replays));
    } else {
      TerminatedKeeps(r);
      FlagsKeep(Terminated(r), ImmediateDisconnect(s, replays));
    }
  }

  lemma UnpoppedKeeps(s: System, popped: Option<nat>)
    requires FlowOk(s)
    ensures FlowOk(Unpopped(s, popped))
  {
    var s' := Unpopped(s, popped);
    if popped.Some? && popped.value < |s.queued| {
      var i := popped.value;
      forall mark | Lasting(mark)
        ensures Total(s', mark) == Total(s, mark)
      {
        CountRemove(s.queued, i, mark);
        CountAppend(s.dropped, [s.queued[i]], mark);
        CountOne(s.queued[i], mark);
      }
      HeldAfterRemove(s, i);
      RemovedMembers(Held(s), i);
      Rearranged(s, s');
    }
  }

  lemma FailedKeeps(s: System, popped: Option<nat>, replays: seq<RequestEnvelope>, phase: ShutdownPhase)
    requires WorldOk(s.world) && FlowOk(s) && ValidReplays(replays) && phase != Flushing
    ensures Safe(s, ShutdownFailed(s, popped, replays, phase))
  {
    UnpoppedKeeps(s, popped);
    var t := Unpopped(s, popped);
    assert t.world == s.world;
    EndedKeeps(t, phase, false, replays);
    FlagsSafe(s, Ended(t, phase, false, replays), ShutdownFailed(s, popped, replays, phase));
  }

  lemma LoadSessionKeeps(s: System, replays: seq<RequestEnvelope>)
    requires FlowOk(s) && ValidReplays(replays)
    ensures FlowOk(s.(loop := s.loop.(pending := s.loop.pending + replays)))
  {
    var s' := s.(loop := s.loop.(pending := s.loop.pending + replays));
    forall mark | Lasting(mark)
      ensures Total(s', mark) == Total(s, mark)
    {
      CountAppend(s.loop.pending, replays, mark);
      ReplaysUnmarked(replays, mark);
    }
    Rearranged(s, s');
  }

  lemma AbandonedKeeps(s: System, l: nat)
    requires WorldOk(s.world) && FlowOk(s) && l <= 1 && Enabled(s.world, Drain(l))
    ensures Safe(s, Abandoned(s, l))
  {
    var s', items := Abandoned(s, l), LaneItems(s.world, l);
    KeepsWorld(s.world, Drain(l));
    forall mark | Lasting(mark)
      ensures Total(s', mark) == Total(s, mark)
    {
      CountAppend(s.dropped, items, mark);
      ControlItemsAreUnmarked(s.world, mark);
      CountZero(LaneItems(s.world, 1), mark);
    }
    Rearranged(s, s');
  }

  // ---- Clean-up ----

  lemma CleanedTotal(s: System, replays: seq<RequestEnvelope>, mark: Mark)
    requires ValidReplays(replays) && Lasting(mark)
    ensures Count(CleanedPending(s, replays), mark) == Count(s.queued, mark) + Count(s.loop.pending, mark)
  {
    var kept := Filter(s.queued, Replayable());
    CountKept(s.queued, Replayable(), mark);
    ReplaysUnmarked(replays, mark);
    CountAppend(replays, s.loop.pending, mark);
    CountAppend(s.loop.pending, replays, mark);
    CountAppend(replays + s.loop.pending, kept, mark);
    CountAppend(s.loop.pending + replays, kept, mark);
  }

  lemma CleanedMembers(s: System, replays: seq<RequestEnvelope>, e: RequestEnvelope)
    requires e in CleanedPending(s, replays)
    ensures e in Held(s) || e in replays
  {
    FilterMembers(s.queued, Replayable());
  }

  lemma CleanLoopKeeps(s: System, replays: seq<RequestEnvelope>)
    requires FlowOk(s) && ValidReplays(replays)
    ensures FlowOk(LoopCleaned(s, replays))
  {
    var s' := LoopCleaned(s, replays);
    forall mark | Lasting(mark)
      ensures Total(s', mark) == Total(s, mark)
    {
      CleanedTotal(s, replays, mark);
    }
    forall e | e in Held(s')
      ensures e in Held(s) || e in replays
    {
      CleanedMembers(s, replays, e);
    }
    Rearranged(s, s');
  }

  lemma DrainedKeeps(s: System, l: nat, stage: Stage)
    requires WorldOk(s.world) && FlowOk(s) && l <= 1 && Enabled(s.world, Drain(l))
    ensures Safe(s, Drained(s, l, stage))
  {
    var s', items, kept := Drained(s, l, stage), LaneItems(s.world, l), Filter(LaneItems(s.world, l), Replayable());
    KeepsWorld(s.world, Drain(l));
    forall mark | Lasting(mark)
      ensures Total(s', mark) == Total(s, mark)
    {
      CountAppend(s.loop.pending, kept, mark);
      CountKept(items, Replayable(), mark);
      ControlItemsAreUnmarked(s.world, mark);
      CountZero(LaneItems(s.world, 1), mark);
    }
    FilterMembers(items, Replayable());
    LaneItemsBounded(s.world, l);
    if s.loop.orderedPacket {
      CapturedLaneIsEmpty(s);
      forall e | e in items
        ensures !IsNumbered(e)
      {
        LaneItemsRouted(s.world, l, e);
      }
    }
    Rearranged(s, s');
  }

  lemma RestoredTotal(gate: Gate, l: Loop, mark: Mark)
    requires gate.fence.Some? && l.phase != Flushing
    ensures Count(Restore(gate, l).pending, mark) == Count(l.pending, mark) + Count(Captured(gate, l), mark)
  {
    var plain, fences := Filter(l.pending, IsPlainEnvelope()), Filter(l.pending, IsFenceEnvelope());
    CountSplit(l.pending, IsPlainEnvelope(), IsFenceEnvelope(), mark);
    CountAppend(plain, fences, mark);
    CountAppend(plain + fences, Captured(gate, l), mark);
  }

  lemma CapturedCount(gate: Gate, l: Loop, mark: Mark)
    requires gate.fence.Some? && Lasting(mark)
    ensures Count(Captured(gate, l), mark) == if l.orderedPacket && mark == FenceMark then 1 else 0
  {
    if l.orderedPacket {
      CountOne(RestoredFence(gate, l.orderedCompletion), mark);
    }
  }

  lemma RestoredMembers(gate: Gate, l: Loop, e: RequestEnvelope)
    requires gate.fence.Some? && l.phase != Flushing && e in Restore(gate, l).pending
    ensures e in l.pending || e in Captured(gate, l)
  {
    FilterMembers(l.pending, IsPlainEnvelope());
    FilterMembers(l.pending, IsFenceEnvelope());
  }

  /** Putting the captured fence back into the queue keeps the balance. */
  lemma FenceReturnedKeeps(s: System, loop: Loop, stage: Stage)
    requires FlowOk(s) && s.world.gate.fence.Some? && !loop.orderedPacket && loop.phase != Flushing
    requires forall mark :: Lasting(mark) ==>
               Count(loop.pending, mark) == Count(s.loop.pending, mark) + Count(Captured(s.world.gate, s.loop), mark)
    requires forall e :: e in loop.pending ==> e in s.loop.pending || e in Captured(s.world.gate, s.loop)
    ensures FlowOk(s.(loop := loop, stage := stage))
  {
    var s' := s.(loop := loop, stage := stage);
    forall mark | Lasting(mark)
      ensures Total(s', mark) == Total(s, mark) + if s.loop.orderedPacket && mark == FenceMark then 1 else 0
    {
      CapturedCount(s.world.gate, s.loop, mark);
    }
    assert Lasting(FenceMark);
    assert forall q: nat :: q > 0 ==> Lasting(Number(q));
  }

  lemma RestoreKeeps(s: System)
    requires FlowOk(s)
    ensures FlowOk(s.(loop := Restore(s.world.gate, s.loop), stage := Offline))
  {
    if s.world.gate.fence.None? || s.loop.phase == Flushing {
      Rearranged(s, s.(loop := Restore(s.world.gate, s.loop), stage := Offline));
    } else {
      forall mark | Lasting(mark)
        ensures Count(Restore(s.world.gate, s.loop).pending, mark)
             == Count(s.loop.pending, mark) + Count(Captured(s.world.gate, s.loop), mark)
      {
        RestoredTotal(s.world.gate, s.loop, mark);
      }
      forall e | e in Restore(s.world.gate, s.loop).pending
        ensures e in s.loop.pending || e in Captured(s.world.gate, s.loop)
      {
        RestoredMembers(s.world.gate, s.loop, e);
      }
      FenceReturnedKeeps(s, Restore(s.world.gate, s.loop), Offline);
    }
  }

  lemma ReenterKeeps(s: System)
    requires FlowOk(s) && s.world.gate.fence.Some? && s.loop.phase != Flushing
    ensures FlowOk(s.(loop := Resumed(s.world.gate, s.loop)))
  {
    forall mark | Lasting(mark)
      ensures Count(Resumed(s.world.gate, s.loop).pending, mark)
           == Count(s.loop.pending, mark) + Count(Captured(s.world.gate, s.loop), mark)
    {
      CountAppend(s.loop.pending, Captured(s.world.gate, s.loop), mark);
    }
    FenceReturnedKeeps(s, Resumed(s.world.gate, s.loop), s.stage);
  }
}
