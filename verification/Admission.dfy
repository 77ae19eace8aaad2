/**
 * Managed admission. Sender clones feed several lanes that share one gate; every critical
 * section of the source is one step here. The classes carry the source's mutable cells, and
 * their methods are proved against the step functions that the run theorems are about.
 */
module Admission {
  import opened Common
  import opened Requests

  /** `Instant::now().checked_add`: the clock is an input of every admission. */
  type Clock = Duration -> Option<Instant>

  datatype Gate = Gate(sequence: nat, fence: Option<nat>, deadline: Option<Instant>, terminated: bool)

  const OPEN_GATE := Gate(0, None, None, false)

  datatype Lane = Lane(
    capacity: Option<nat>,
    priority: bool,
    items: seq<RequestEnvelope>,
    senders: int,
    receivers: int,
    waiting: int)

  datatype SendResult =
    | Sent(item: RequestEnvelope)
    | Full(item: RequestEnvelope)
    | Disconnected(item: RequestEnvelope)

  datatype Received = Item(item: RequestEnvelope) | NoSenders | NothingYet

  datatype SendOutcome = SendOutcome(gate: Gate, lane: Lane, result: SendResult)

  predicate Available(l: Lane) {
    match l.capacity
    case None => true
    case Some(c) => if c == 0 then l.waiting > |l.items| else |l.items| < c
  }

  function DeadlineOf(item: RequestEnvelope, clock: Clock): Option<Instant> {
    match item.Fence()
    case Some(Some(timeout)) => clock(timeout)
    case _ => None
  }

  function Admit(g: Gate, l: Lane, item: RequestEnvelope, deadline: Option<Instant>): SendOutcome {
    var sequence := g.sequence + 1;
    var stamped := item.Admitted(sequence, deadline);
    var g' := g.(sequence := sequence);
    SendOutcome(
      if item.IsFence() then g'.(fence := Some(sequence), deadline := deadline) else g',
      l.(items := l.items + [stamped]),
      Sent(stamped))
  }

  /** The admission transaction: one gate-and-queue critical section. */
  function TrySend(g: Gate, l: Lane, item: RequestEnvelope, clock: Clock): SendOutcome {
    var deadline := DeadlineOf(item, clock);
    if l.receivers == 0 || g.terminated then SendOutcome(g, l, Disconnected(item))
    else if g.fence.Some? && !l.priority then SendOutcome(g, l, Disconnected(item.Closing()))
    else if !Available(l) then SendOutcome(g, l, Full(item))
    else if item.request.DisconnectAfterQueuedWithTimeout? && deadline.None? then
      SendOutcome(g, l, Disconnected(item.InvalidTimeout()))
    else Admit(g, l, item, deadline)
  }

  /** A capacity wait is due exactly when the lane is open but has no room. */
  predicate WouldBlock(g: Gate, l: Lane) {
    l.receivers != 0 && !g.terminated && !(g.fence.Some? && !l.priority) && !Available(l)
  }

  lemma FullIsWouldBlock(g: Gate, l: Lane, item: RequestEnvelope, clock: Clock)
    ensures TrySend(g, l, item, clock).result.Full? <==> WouldBlock(g, l)
  {
  }

  /** The timeout that a timed fence asks for. */
  predicate TimesOut(item: RequestEnvelope, clock: Clock) {
    item.request.DisconnectAfterQueuedWithTimeout? && clock(item.request.timeout).None?
  }

  predicate IsOpen(g: Gate, l: Lane) {
    l.receivers != 0 && !g.terminated && (g.fence.None? || l.priority)
  }

  /** A bounded lane has room below its capacity; a rendezvous lane only for receives that wait. */
  predicate HasRoom(l: Lane) {
    l.capacity.None? || |l.items| < if l.capacity == Some(0) then l.waiting else l.capacity.value
  }

  /**
   * Who is admitted: exactly what is offered to an open lane with room, unless it is a fence whose
   * timeout cannot be represented. The item gets the next number, a timed fence its deadline, and
   * the gate the number and deadline of a fence; nothing else changes.
   */
  lemma AdmittedExactly(g: Gate, l: Lane, item: RequestEnvelope, clock: Clock)
    ensures var out := TrySend(g, l, item, clock);
            && (out.result.Sent? <==> IsOpen(g, l) && HasRoom(l) && !TimesOut(item, clock))
            && (out.result.Sent? ==>
                  var deadline := if item.request.DisconnectAfterQueuedWithTimeout? then clock(item.request.timeout) else None;
                  var fence := item.request.DisconnectAfterQueued? || item.request.DisconnectAfterQueuedWithTimeout?;
                  && out.result.item == RequestEnvelope(item.request, item.meta.(sequence := g.sequence + 1, deadline := deadline))
                  && out.lane == l.(items := l.items + [out.result.item])
                  && out.gate == Gate(g.sequence + 1, if fence then Some(g.sequence + 1) else g.fence,
                                      if fence then deadline else g.deadline, g.terminated))
  {
  }

  /** Who is refused, and with which mark; a refusal changes nothing. */
  lemma RefusedExactly(g: Gate, l: Lane, item: RequestEnvelope, clock: Clock)
    ensures var out := TrySend(g, l, item, clock);
            && (out.result.Full? <==> IsOpen(g, l) && !HasRoom(l))
            && (out.result.Disconnected? <==> !IsOpen(g, l) || (HasRoom(l) && TimesOut(item, clock)))
            && (!out.result.Sent? ==> out.gate == g && out.lane == l)
            && (out.result.Full? ==> out.result.item == item)
            && (out.result.Disconnected? ==>
                  var closing := l.receivers != 0 && !g.terminated && g.fence.Some? && !l.priority;
                  out.result.item == RequestEnvelope(item.request, item.meta.(
                    closing := item.meta.closing || closing,
                    invalidTimeout := item.meta.invalidTimeout || IsOpen(g, l))))
  {
  }

  // ---- The shared cells of the source ----

  class SharedGate {
    var sequence: nat
    var fence: Option<nat>
    var deadline: Option<Instant>
    var terminated: bool

    constructor ()
      ensures View() == OPEN_GATE
    {
      sequence, fence, deadline, terminated := 0, None, None, false;
    }

    function View(): Gate
      reads this
    {
      Gate(sequence, fence, deadline, terminated)
    }

    method Terminate()
      modifies this
      ensures View() == old(View()).(terminated := true)
    {
      if terminated {
        return;
      }
      terminated := true;
    }

    method ClearDeadline()
      modifies this
      ensures View() == old(View()).(deadline := None)
    {
      deadline := None;
    }
  }

  class SharedLane {
    const capacity: Option<nat>
    const priority: bool
    const gate: SharedGate
    var items: seq<RequestEnvelope>
    var senders: int
    var receivers: int
    var waitingReceivers: int

    constructor (capacity: Option<nat>, gate: SharedGate, priority: bool)
      ensures this.gate == gate && View() == NewLane(capacity, priority)
    {
      this.capacity, this.gate, this.priority := capacity, gate, priority;
      items, senders, receivers, waitingReceivers := [], 1, 1, 0;
    }

    function View(): Lane
      reads this
    {
      Lane(capacity, priority, items, senders, receivers, waitingReceivers)
    }

    /** The source panics when it would admit an item past the 64-bit admission counter. */
    method TrySendItem(item: RequestEnvelope, clock: Clock) returns (r: SendResult)
      requires TrySend(gate.View(), View(), item, clock).result.Sent? ==> gate.sequence < U64_MAX
      modifies this`items, gate
      ensures SendOutcome(gate.View(), View(), r) == old(TrySend(gate.View(), View(), item, clock))
    {
      if receivers == 0 {
        return Disconnected(item);
      }
      if gate.terminated {
        return Disconnected(item);
      }
      if gate.fence.Some? && !priority {
        return Disconnected(item.Closing());
      }
      var available := true;
      if capacity.Some? {
        if capacity.value == 0 {
          available := waitingReceivers > |items|;
        } else {
          available := |items| < capacity.value;
        }
      }
      if !available {
        return Full(item);
      }
      var fence := item.Fence();
      var deadline := None;
      if fence.Some? && fence.value.Some? {
        deadline := clock(fence.value.value);
        if deadline.None? {
          return Disconnected(item.InvalidTimeout());
        }
      }
      gate.sequence := gate.sequence + 1;
      var stamped := item.Admitted(gate.sequence, deadline);
      items := items + [stamped];
      if fence.Some? {
        gate.fence := Some(gate.sequence);
        gate.deadline := deadline;
      }
      return Sent(stamped);
    }

    /** Cloning a sender; `is_disconnected` on the receiver is `senders == 0`. */
    method CloneSender()
      modifies this`senders
      ensures View() == old(View()).(senders := old(senders) + 1)
    {
      senders := senders + 1;
    }

    /** `last` tells the dropping sender to notify the receivers. */
    method DropSender() returns (last: bool)
      modifies this`senders
      ensures View() == old(View()).(senders := old(senders) - 1)
      ensures last <==> senders == 0
    {
      senders := senders - 1;
      last := senders == 0;
    }

    method TryRecv() returns (result: Received)
      modifies this`items
      ensures View() == old(PopFront(View()).0)
      ensures old(items) != [] ==> result == Item(old(items[0])) && items == old(items)[1..]
      ensures old(items) == [] ==> result == (if senders == 0 then NoSenders else NothingYet) && items == []
    {
      if |items| == 0 {
        return if senders == 0 then NoSenders else NothingYet;
      }
      result := Item(items[0]);
      items := items[1..];
    }

    method DrainAll() returns (drained: seq<RequestEnvelope>)
      modifies this`items
      ensures drained == old(items) && View() == old(View()).(items := [])
    {
      drained := items;
      items := [];
    }

    /** A receive takes a rendezvous slot before it looks again; only rendezvous lanes count slots. */
    method BeginWait() returns (active: bool)
      modifies this`waitingReceivers
      ensures active == Rendezvous(View())
      ensures View() == old(View()).(waiting := old(waitingReceivers) + if active then 1 else 0)
    {
      active := capacity == Some(0);
      if active {
        waitingReceivers := waitingReceivers + 1;
      }
    }

    /** One turn of a waiting receive; the slot retires with the item. */
    method PollReceive(active: bool) returns (result: Received)
      modifies this`items, this`waitingReceivers
      ensures View() == old(PollFront(View(), active).0)
      ensures old(items) != [] ==>
                && result == Item(old(items[0])) && items == old(items)[1..]
                && waitingReceivers == old(waitingReceivers) - if active then 1 else 0
      ensures old(items) == [] ==>
                && result == (if senders == 0 then NoSenders else NothingYet)
                && items == [] && waitingReceivers == old(waitingReceivers)
    {
      if |items| == 0 {
        return if senders == 0 then NoSenders else NothingYet;
      }
      result := Item(items[0]);
      items := items[1..];
      if active {
        waitingReceivers := waitingReceivers - 1;
      }
    }

    /** A receive that ends without an item gives its slot back. */
    method CancelWait(active: bool)
      modifies this`waitingReceivers
      ensures View() == old(View()).(waiting := old(waitingReceivers) - if active then 1 else 0)
    {
      if active {
        waitingReceivers := waitingReceivers - 1;
      }
    }

    method DropReceiver() returns (discarded: seq<RequestEnvelope>)
      modifies this`items, this`receivers
      ensures discarded == old(items)
      ensures View() == old(View()).(items := [], receivers := old(receivers) - 1)
    {
      receivers := receivers - 1;
      discarded := items;
      items := [];
    }
  }

  function NewLane(capacity: Option<nat>, priority: bool): Lane {
    Lane(capacity, priority, [], 1, 1, 0)
  }

  function PopFront(l: Lane): (Lane, Option<RequestEnvelope>) {
    if l.items == [] then (l, None) else (l.(items := l.items[1..]), Some(l.items[0]))
  }

  /** A receive reports a lane without senders as such only once it is empty. */
  function Answer(l: Lane): Received {
    if l.items != [] then Item(l.items[0]) else if l.senders == 0 then NoSenders else NothingYet
  }

  function PollFront(l: Lane, active: bool): (Lane, Option<RequestEnvelope>) {
    if l.items == [] then (l, None)
    else
      var (l', item) := PopFront(l);
      (if active then l'.(waiting := l.waiting - 1) else l', item)
  }

  // ---- Whole runs over any number of lanes ----

  /**
   * A lane together with its history and its live handles. Receivers are not clonable, and a
   * receive borrows the receiver, so the receiver outlives every wait on it. A wait that ends
   * because no sender is left is a cancelled one.
   */
  datatype LaneRun = LaneRun(
    lane: Lane,
    admitted: seq<RequestEnvelope>,
    taken: seq<RequestEnvelope>,
    discarded: seq<RequestEnvelope>,
    receiverLive: bool,
    senderHandles: set<nat>,
    waits: set<nat>,
    cancelled: nat)

  datatype Entry = Entry(lane: nat, item: RequestEnvelope)

  datatype World = World(gate: Gate, lanes: seq<LaneRun>, log: seq<Entry>)

  const INITIAL := World(OPEN_GATE, [], [])

  datatype Action =
    | OpenLane(capacity: Option<nat>, priority: bool, sender: nat)
    | Send(lane: nat, sender: nat, item: RequestEnvelope, clock: Clock)
    | CloneSender(lane: nat, sender: nat, clone: nat)
    | DropSender(lane: nat, sender: nat)
    | Receive(lane: nat)
    | Drain(lane: nat)
    | BeginWait(lane: nat, wait: nat)
    | PollWait(lane: nat, wait: nat)
    | CancelWait(lane: nat, wait: nat)
    | DropReceiver(lane: nat)
    | Terminate
    | ClearDeadline

  predicate Rendezvous(l: Lane) {
    l.capacity == Some(0)
  }

  /** The handle an operation goes through is live. */
  predicate Enabled(w: World, a: Action) {
    match a
    case OpenLane(_, _, _) => true
    case Terminate => true
    case ClearDeadline => true
    case Send(l, h, item, clock) =>
      && l < |w.lanes| && h in w.lanes[l].senderHandles
      && (TrySend(w.gate, w.lanes[l].lane, item, clock).result.Sent? ==> w.gate.sequence < U64_MAX)
    case CloneSender(l, h, clone) =>
      l < |w.lanes| && h in w.lanes[l].senderHandles && clone !in w.lanes[l].senderHandles
    case DropSender(l, h) => l < |w.lanes| && h in w.lanes[l].senderHandles
    case Receive(l) => l < |w.lanes| && w.lanes[l].receiverLive
    case Drain(l) => l < |w.lanes| && w.lanes[l].receiverLive
    case BeginWait(l, k) => l < |w.lanes| && w.lanes[l].receiverLive && k !in w.lanes[l].waits
    case PollWait(l, k) => l < |w.lanes| && k in w.lanes[l].waits
    case CancelWait(l, k) => l < |w.lanes| && k in w.lanes[l].waits
    case DropReceiver(l) => l < |w.lanes| && w.lanes[l].receiverLive && w.lanes[l].waits == {}
  }

  function WithLane(w: World, l: nat, r: LaneRun): World
    requires l < |w.lanes|
  {
    w.(lanes := w.lanes[l := r])
  }

  function ApplySend(w: World, l: nat, item: RequestEnvelope, clock: Clock): (World, SendResult)
    requires l < |w.lanes|
  {
    var r := w.lanes[l];
    var out := TrySend(w.gate, r.lane, item, clock);
    if out.result.Sent? then
      (World(out.gate,
             w.lanes[l := r.(lane := out.lane, admitted := r.admitted + [out.result.item])],
             w.log + [Entry(l, out.result.item)]),
       out.result)
    else
      (World(out.gate, w.lanes[l := r.(lane := out.lane)], w.log), out.result)
  }

  function Taken(r: LaneRun, l': Lane, item: Option<RequestEnvelope>): LaneRun {
    r.(lane := l', taken := if item.Some? then r.taken + [item.value] else r.taken)
  }

  predicate LaneLocal(a: Action) {
    a.CloneSender? || a.DropSender? || a.Receive? || a.Drain? || a.BeginWait? || a.PollWait? || a.CancelWait? || a.DropReceiver?
  }

  function ApplyLane(r: LaneRun, a: Action): LaneRun
    requires LaneLocal(a)
  {
    match a
    case CloneSender(_, _, clone) =>
      r.(lane := r.lane.(senders := r.lane.senders + 1), senderHandles := r.senderHandles + {clone})
    case DropSender(_, h) =>
      r.(lane := r.lane.(senders := r.lane.senders - 1), senderHandles := r.senderHandles - {h})
    case Receive(_) =>
      var (l', item) := PopFront(r.lane);
      Taken(r, l', item)
    case Drain(_) => r.(lane := r.lane.(items := []), taken := r.taken + r.lane.items)
    case BeginWait(_, k) =>
      r.(lane := if Rendezvous(r.lane) then r.lane.(waiting := r.lane.waiting + 1) else r.lane,
         waits := r.waits + {k})
    case PollWait(_, k) =>
      var (l', item) := PollFront(r.lane, Rendezvous(r.lane));
      if item.Some? then Taken(r, l', item).(waits := r.waits - {k}) else r
    case CancelWait(_, k) =>
      r.(lane := if Rendezvous(r.lane) then r.lane.(waiting := r.lane.waiting - 1) else r.lane,
         waits := r.waits - {k},
         cancelled := if Rendezvous(r.lane) then r.cancelled + 1 else r.cancelled)
    case DropReceiver(_) =>
      r.(lane := r.lane.(items := [], receivers := r.lane.receivers - 1),
         discarded := r.lane.items,
         receiverLive := false)
  }

  /** One step of the shared state. */
  function Apply(w: World, a: Action): World
    requires Enabled(w, a)
  {
    match a
    case OpenLane(capacity, priority, h) =>
      w.(lanes := w.lanes + [LaneRun(NewLane(capacity, priority), [], [], [], true, {h}, {}, 0)])
    case Terminate => w.(gate := w.gate.(terminated := true))
    case ClearDeadline => w.(gate := w.gate.(deadline := None))
    case Send(l, _, item, clock) => ApplySend(w, l, item, clock).0
    case _ => WithLane(w, a.lane, ApplyLane(w.lanes[a.lane], a))
  }

  /** How the gate moves: its counter with the log, and its other cells each by one kind of action. */
  lemma GateMovesExactly(w: World, a: Action)
    requires Enabled(w, a)
    ensures var g, w' := w.gate, Apply(w, a);
            var g' := w'.gate;
            && g'.sequence - g.sequence == |w'.log| - |w.log|
            && (g'.terminated <==> g.terminated || a.Terminate?)
            && (g'.fence == if a.Send? && |w'.log| > |w.log| && a.item.IsFence() then Some(g'.sequence) else g.fence)
            && (a.ClearDeadline? ==> g'.deadline == None)
            && (!a.ClearDeadline? ==>
                  if a.Send? && |w'.log| > |w.log| && a.item.IsFence() then g'.deadline == w'.log[|w.log|].item.meta.deadline
                  else g'.deadline == g.deadline)
  {
  }

  // ---- Lane conservation, bounds and handle counts ----

  /**
   * What was admitted is what was taken, then what the dropping receiver discarded, then what is
   * still queued; capacity bounds hold; every counter is the number of live handles behind it.
   */
  predicate LaneInv(r: LaneRun) {
    && r.admitted == r.taken + r.discarded + r.lane.items
    && (r.receiverLive ==> r.discarded == [])
    && (!r.receiverLive ==> r.lane.items == [] && r.waits == {})
    && r.lane.receivers == (if r.receiverLive then 1 else 0)
    && r.lane.senders == |r.senderHandles|
    && r.lane.waiting == (if Rendezvous(r.lane) then |r.waits| else 0)
    && WithinBounds(r)
  }

  predicate WithinBounds(r: LaneRun) {
    match r.lane.capacity
    case None => true
    case Some(c) => |r.lane.items| <= if c == 0 then |r.waits| + r.cancelled else c
  }

  predicate LanesInv(w: World) {
    forall l :: 0 <= l < |w.lanes| ==> LaneInv(w.lanes[l])
  }

  /** Taking the front item moves it from the queue to the end of the history. */
  lemma TakeKeepsInv(r: LaneRun, r': LaneRun)
    requires LaneInv(r) && r.receiverLive && r.lane.items != []
    requires r'.taken == r.taken + [r.lane.items[0]] && r'.lane.items == r.lane.items[1..]
    requires r' == r.(taken := r'.taken, lane := r'.lane, waits := r'.waits)
    ensures r'.admitted == r'.taken + r'.discarded + r'.lane.items
  {
    assert r.lane.items == [r.lane.items[0]] + r.lane.items[1..];
  }

  lemma ReceiverStepKeepsInv(r: LaneRun, a: Action)
    requires LaneInv(r) && r.receiverLive
    requires a.Receive? || a.Drain? || (a.PollWait? && a.wait in r.waits) || (a.DropReceiver? && r.waits == {})
    ensures LaneInv(ApplyLane(r, a))
  {
    var r' := ApplyLane(r, a);
    if r.lane.items != [] && (a.Receive? || a.PollWait?) {
      TakeKeepsInv(r, r');
    } else if a.Drain? || a.DropReceiver? {
      assert r'.admitted == r'.taken + r'.discarded + r'.lane.items;
    }
  }

  lemma HandleStepKeepsInv(r: LaneRun, a: Action)
    requires LaneInv(r)
    requires || (a.CloneSender? && a.clone !in r.senderHandles)
             || (a.DropSender? && a.sender in r.senderHandles)
             || (a.BeginWait? && a.wait !in r.waits && r.receiverLive)
             || (a.CancelWait? && a.wait in r.waits)
    ensures LaneInv(ApplyLane(r, a))
  {
  }

  lemma SendKeepsLaneInv(w: World, l: nat, item: RequestEnvelope, clock: Clock)
    requires LanesInv(w) && l < |w.lanes|
    ensures LanesInv(ApplySend(w, l, item, clock).0)
  {
    var r := w.lanes[l];
    var r' := ApplySend(w, l, item, clock).0.lanes[l];
    assert r'.admitted == r'.taken + r'.discarded + r'.lane.items;
  }

  lemma StepKeepsLanesInv(w: World, a: Action)
    requires LanesInv(w) && Enabled(w, a)
    ensures LanesInv(Apply(w, a))
  {
    match a
    case Send(l, _, item, clock) => SendKeepsLaneInv(w, l, item, clock);
    case OpenLane(_, _, _) =>
    case Terminate =>
    case ClearDeadline =>
    case CloneSender(_, _, _) => HandleStepKeepsInv(w.lanes[a.lane], a);
    case DropSender(_, _) => HandleStepKeepsInv(w.lanes[a.lane], a);
    case BeginWait(_, _) => HandleStepKeepsInv(w.lanes[a.lane], a);
    case CancelWait(_, _) => HandleStepKeepsInv(w.lanes[a.lane], a);
    case _ => ReceiverStepKeepsInv(w.lanes[a.lane], a);
  }

  // ---- Global order and closure ----

  /** The entries of one lane, in admission order. */
  function LaneLog(log: seq<Entry>, l: nat): seq<RequestEnvelope> {
    if log == [] then []
    else
      var last := log[|log| - 1];
      LaneLog(log[..|log| - 1], l) + if last.lane == l then [last.item] else []
  }

  predicate OrderInv(w: World) {
    && w.gate.sequence == |w.log|
    && (forall i :: 0 <= i < |w.log| ==> w.log[i].item.meta.sequence == i + 1 && w.log[i].lane < |w.lanes|)
    && (forall l :: 0 <= l < |w.lanes| ==> w.lanes[l].admitted == LaneLog(w.log, l))
  }

  predicate NonPriority(w: World, i: nat)
    requires i < |w.log|
  {
    w.log[i].lane < |w.lanes| && !w.lanes[w.log[i].lane].lane.priority
  }

  /** The gate holds the latest fence and its deadline, and nothing non-priority was admitted after any fence. */
  predicate FenceInv(w: World) {
    && (w.gate.fence.None? ==> w.gate.deadline.None? && forall i :: 0 <= i < |w.log| ==> !w.log[i].item.IsFence())
    && (w.gate.fence.Some? ==>
          && 1 <= w.gate.fence.value <= |w.log|
          && w.log[w.gate.fence.value - 1].item.IsFence()
          && (w.gate.deadline.Some? ==> w.gate.deadline == w.log[w.gate.fence.value - 1].item.meta.deadline))
    && (forall i :: 0 <= i < |w.log| && w.log[i].item.IsFence() ==> w.gate.fence.Some? && i + 1 <= w.gate.fence.value)
    && (forall i, j :: 0 <= i < |w.log| && 0 <= j < |w.log| && w.log[i].item.IsFence() && NonPriority(w, j) ==> j <= i)
  }

  lemma {:induction false} LaneLogOutside(log: seq<Entry>, l: nat)
    requires forall i :: 0 <= i < |log| ==> log[i].lane < l
    ensures LaneLog(log, l) == []
  {
    if log != [] {
      LaneLogOutside(log[..|log| - 1], l);
    }
  }

  lemma SendKeepsOrder(w: World, l: nat, item: RequestEnvelope, clock: Clock)
    requires OrderInv(w) && l < |w.lanes|
    ensures OrderInv(ApplySend(w, l, item, clock).0)
  {
    var (w', result) := ApplySend(w, l, item, clock);
    if result.Sent? {
      assert w'.log[..|w'.log| - 1] == w.log && w'.log[|w.log|] == Entry(l, result.item);
      forall m | 0 <= m < |w'.lanes|
        ensures w'.lanes[m].admitted == LaneLog(w'.log, m)
      {
      }
    }
  }

  lemma StepKeepsOrder(w: World, a: Action)
    requires OrderInv(w) && Enabled(w, a)
    ensures OrderInv(Apply(w, a))
  {
    match a
    case OpenLane(_, _, _) => LaneLogOutside(w.log, |w.lanes|);
    case Send(l, _, item, clock) => SendKeepsOrder(w, l, item, clock);
    case _ =>
  }

  lemma AdmissionKeepsFence(w: World, w': World, l: nat, e: RequestEnvelope)
    requires OrderInv(w) && FenceInv(w) && l < |w.lanes| == |w'.lanes| && w'.log == w.log + [Entry(l, e)]
    requires forall m :: 0 <= m < |w.lanes| ==> w'.lanes[m].lane.priority == w.lanes[m].lane.priority
    requires w.gate.fence.Some? ==> w.lanes[l].lane.priority
    requires if e.IsFence() then w'.gate.fence == Some(|w'.log|) && w'.gate.deadline == e.meta.deadline
             else w'.gate.fence == w.gate.fence && w'.gate.deadline == w.gate.deadline
    ensures FenceInv(w')
  {
    var n := |w.log|;
    assert w'.log[n] == Entry(l, e);
    assert forall i :: 0 <= i < n ==> w'.log[i] == w.log[i];
    assert forall i :: 0 <= i < n ==> (NonPriority(w', i) <==> NonPriority(w, i));
    assert NonPriority(w', n) <==> !w.lanes[l].lane.priority;
  }

  lemma SendKeepsFence(w: World, l: nat, item: RequestEnvelope, clock: Clock)
    requires OrderInv(w) && FenceInv(w) && l < |w.lanes|
    ensures FenceInv(ApplySend(w, l, item, clock).0)
  {
    var (w', result) := ApplySend(w, l, item, clock);
    if result.Sent? {
      AdmissionKeepsFence(w, w', l, result.item);
    } else {
      assert w'.lanes == w.lanes;
    }
  }

  /** Whatever leaves the log, the fence and the lanes' kinds alone keeps the closure. */
  lemma QuietKeepsFence(w: World, w': World)
    requires OrderInv(w) && FenceInv(w) && w'.log == w.log && w'.gate.fence == w.gate.fence && |w.lanes| <= |w'.lanes|
    requires w'.gate.deadline == w.gate.deadline || w'.gate.deadline == None
    requires forall m :: 0 <= m < |w.lanes| ==> w'.lanes[m].lane.priority == w.lanes[m].lane.priority
    ensures FenceInv(w')
  {
    assert forall i :: 0 <= i < |w.log| ==> (NonPriority(w', i) <==> NonPriority(w, i));
  }

  lemma StepKeepsFence(w: World, a: Action)
    requires OrderInv(w) && FenceInv(w) && Enabled(w, a)
    ensures FenceInv(Apply(w, a))
  {
    if a.Send? {
      SendKeepsFence(w, a.lane, a.item, a.clock);
    } else {
      QuietKeepsFence(w, Apply(w, a));
    }
  }

  /** A run of the shared state: every step is enabled. */
  ghost predicate IsRun(trace: seq<World>, actions: seq<Action>) {
    && |trace| == |actions| + 1
    && trace[0] == INITIAL
    && forall i :: 0 <= i < |actions| ==> Follows(trace[i], actions[i], trace[i + 1])
  }

  ghost predicate Follows(w: World, a: Action, w': World) {
    Enabled(w, a) && w' == Apply(w, a)
  }

  ghost predicate WorldInv(w: World) {
    LanesInv(w) && OrderInv(w) && FenceInv(w)
  }

  lemma {:induction false} RunKeepsInv(trace: seq<World>, actions: seq<Action>, n: nat)
    requires IsRun(trace, actions) && n < |trace|
    ensures WorldInv(trace[n])
  {
    if n > 0 {
      RunKeepsInv(trace, actions, n - 1);
      assert Follows(trace[n - 1], actions[n - 1], trace[n]);
      StepKeepsLanesInv(trace[n - 1], actions[n - 1]);
      StepKeepsOrder(trace[n - 1], actions[n - 1]);
      StepKeepsFence(trace[n - 1], actions[n - 1]);
    }
  }

  // ---- Theorems about every run ----

  predicate StrictlyIncreasing(s: seq<RequestEnvelope>) {
    forall i, j :: 0 <= i < j < |s| ==> s[i].meta.sequence < s[j].meta.sequence
  }

  lemma {:induction false} LaneLogMembers(log: seq<Entry>, l: nat)
    requires forall i :: 0 <= i < |log| ==> log[i].item.meta.sequence == i + 1
    ensures forall e :: e in LaneLog(log, l) ==> 1 <= e.meta.sequence <= |log| && log[e.meta.sequence - 1] == Entry(l, e)
  {
    if log != [] {
      var front := log[..|log| - 1];
      LaneLogMembers(front, l);
      forall e | e in LaneLog(log, l)
        ensures 1 <= e.meta.sequence <= |log| && log[e.meta.sequence - 1] == Entry(l, e)
      {
        if e in LaneLog(front, l) {
          assert front[e.meta.sequence - 1] == Entry(l, e);
        }
      }
    }
  }

  lemma {:induction false} LaneLogIncreasing(log: seq<Entry>, l: nat)
    requires forall i :: 0 <= i < |log| ==> log[i].item.meta.sequence == i + 1
    ensures StrictlyIncreasing(LaneLog(log, l))
  {
    if log != [] {
      var front := log[..|log| - 1];
      LaneLogIncreasing(front, l);
      LaneLogMembers(front, l);
      var s := LaneLog(front, l);
      assert forall i :: 0 <= i < |s| ==> s[i] in s;
    }
  }

  /**
   * Global admission order: over all lanes and interleavings the n-th admission gets sequence n,
   * and each lane's receive history followed by its queue is strictly increasing.
   */
  lemma GlobalOrder(trace: seq<World>, actions: seq<Action>, n: nat, l: nat)
    requires IsRun(trace, actions) && n < |trace| && l < |trace[n].lanes|
    ensures trace[n].gate.sequence == |trace[n].log|
    ensures forall i :: 0 <= i < |trace[n].log| ==> trace[n].log[i].item.meta.sequence == i + 1
    ensures StrictlyIncreasing(trace[n].lanes[l].taken + trace[n].lanes[l].lane.items)
    ensures trace[n].lanes[l].admitted == LaneLog(trace[n].log, l)
  {
    RunKeepsInv(trace, actions, n);
    var r := trace[n].lanes[l];
    LaneLogIncreasing(trace[n].log, l);
    assert r.taken + r.lane.items == if r.receiverLive then r.admitted else r.admitted[..|r.taken|];
  }

  /** A refused send leaves gate, counter, queues and history exactly as they were. */
  lemma RefusedSendChangesNothing(w: World, a: Action)
    requires Enabled(w, a) && a.Send?
    ensures !ApplySend(w, a.lane, a.item, a.clock).1.Sent? <==> Apply(w, a) == w
  {
    var (w', result) := ApplySend(w, a.lane, a.item, a.clock);
    if result.Sent? {
      assert |w'.log| == |w.log| + 1;
    } else {
      assert w'.lanes == w.lanes;
    }
  }

  /** No non-priority item is ever admitted after a fence, and the gate holds the latest fence. */
  lemma FenceClosure(trace: seq<World>, actions: seq<Action>, n: nat, i: nat, j: nat)
    requires IsRun(trace, actions) && n < |trace| && i < |trace[n].log| && j < |trace[n].log|
    requires trace[n].log[i].item.IsFence()
    ensures trace[n].gate.fence.Some? && i + 1 <= trace[n].gate.fence.value
    ensures NonPriority(trace[n], j) ==> j <= i
  {
    RunKeepsInv(trace, actions, n);
  }

  predicate SingleFence(w: World) {
    forall i, j :: 0 <= i < j < |w.log| ==> !(w.log[i].item.IsFence() && w.log[j].item.IsFence())
  }

  /** A priority lane that is open and has room is offered a fence although one is installed. */
  predicate TakesSecondFence(g: Gate, l: Lane, item: RequestEnvelope, clock: Clock) {
    && item.IsFence() && g.fence.Some?
    && l.priority && l.receivers != 0 && !g.terminated && Available(l)
    && (item.request.DisconnectAfterQueuedWithTimeout? ==> DeadlineOf(item, clock).Some?)
  }

  predicate OffersSecondFence(w: World, a: Action) {
    a.Send? && a.lane < |w.lanes| && TakesSecondFence(w.gate, w.lanes[a.lane].lane, a.item, a.clock)
  }

  lemma AdmissionKeepsSingle(w: World, w': World, e: Entry)
    requires FenceInv(w) && SingleFence(w) && w'.log == w.log + [e]
    ensures SingleFence(w') <==> !(e.item.IsFence() && w.gate.fence.Some?)
  {
    if e.item.IsFence() && w.gate.fence.Some? {
      var f := w.gate.fence.value - 1;
      assert w'.log[f].item.IsFence() && w'.log[|w.log|].item.IsFence();
    }
  }

  lemma StepKeepsSingle(w: World, a: Action)
    requires FenceInv(w) && SingleFence(w) && Enabled(w, a)
    ensures SingleFence(Apply(w, a)) <==> !OffersSecondFence(w, a)
  {
    if a.Send? {
      var (w', result) := ApplySend(w, a.lane, a.item, a.clock);
      if result.Sent? {
        AdmissionKeepsSingle(w, w', Entry(a.lane, result.item));
      }
    }
  }

  lemma LogGrows(w: World, a: Action)
    requires Enabled(w, a) && !SingleFence(w)
    ensures !SingleFence(Apply(w, a))
  {
    var i, j :| 0 <= i < j < |w.log| && w.log[i].item.IsFence() && w.log[j].item.IsFence();
    var w' := Apply(w, a);
    assert w.log <= w'.log;
    assert w'.log[i] == w.log[i] && w'.log[j] == w.log[j];
  }

  /** At most one fence is ever admitted, if and only if no second one is offered to an open priority lane. */
  lemma {:induction false} OneFenceExactly(trace: seq<World>, actions: seq<Action>, n: nat)
    requires IsRun(trace, actions) && n < |trace|
    ensures SingleFence(trace[n]) <==> forall i :: 0 <= i < n ==> !OffersSecondFence(trace[i], actions[i])
  {
    if n > 0 {
      OneFenceExactly(trace, actions, n - 1);
      RunKeepsInv(trace, actions, n - 1);
      assert Follows(trace[n - 1], actions[n - 1], trace[n]);
      if SingleFence(trace[n - 1]) {
        StepKeepsSingle(trace[n - 1], actions[n - 1]);
      } else {
        LogGrows(trace[n - 1], actions[n - 1]);
      }
    }
  }

  /** The gate's deadline is the one stamped on the admitted fence, until it is cleared. */
  lemma DeadlineBelongsToFence(trace: seq<World>, actions: seq<Action>, n: nat)
    requires IsRun(trace, actions) && n < |trace| && trace[n].gate.deadline.Some?
    ensures trace[n].gate.fence.Some? && 1 <= trace[n].gate.fence.value <= |trace[n].log|
    ensures trace[n].log[trace[n].gate.fence.value - 1].item.meta.deadline == trace[n].gate.deadline
  {
    RunKeepsInv(trace, actions, n);
  }

  /** After `terminate` no lane admits anything, ever. */
  lemma {:induction false} TerminationIsFinal(trace: seq<World>, actions: seq<Action>, m: nat, n: nat)
    requires IsRun(trace, actions) && m <= n < |trace| && trace[m].gate.terminated
    ensures trace[n].gate.terminated && trace[n].log == trace[m].log
  {
    if m < n {
      TerminationIsFinal(trace, actions, m, n - 1);
      assert Follows(trace[n - 1], actions[n - 1], trace[n]);
    }
  }

  /** Items admitted to a lane are taken in order, then discarded in order, or still queued; bounds and counts hold. */
  lemma LaneConservation(trace: seq<World>, actions: seq<Action>, n: nat, l: nat)
    requires IsRun(trace, actions) && n < |trace| && l < |trace[n].lanes|
    ensures var r := trace[n].lanes[l];
            && r.admitted == r.taken + r.discarded + r.lane.items
            && (r.lane.items == [] || r.discarded == [])
            && r.lane.senders == |r.senderHandles|
            && r.lane.waiting == (if Rendezvous(r.lane) then |r.waits| else 0)
            && r.lane.receivers == (if r.receiverLive then 1 else 0)
            && WithinBounds(r)
  {
    RunKeepsInv(trace, actions, n);
  }

  /** A second fence on a priority lane is admitted and takes the first one's place in the gate. */
  lemma PriorityLaneAdmitsSecondFence(clock: Clock)
    ensures
      var fence := Plain(DisconnectAfterQueued);
      var w1 := Apply(INITIAL, OpenLane(None, false, 0));
      var w2 := Apply(w1, OpenLane(None, true, 0));
      var w3 := Apply(w2, Send(0, 0, fence, clock));
      var w4 := Apply(w3, Send(1, 0, fence, clock));
      w4.log == [Entry(0, fence.Admitted(1, None)), Entry(1, fence.Admitted(2, None))] && w4.gate.fence == Some(2)
  {
    var fence := Plain(DisconnectAfterQueued);
    var w2 := Apply(Apply(INITIAL, OpenLane(None, false, 0)), OpenLane(None, true, 0));
    assert TrySend(w2.gate, w2.lanes[0].lane, fence, clock).result.Sent?;
    var w3 := Apply(w2, Send(0, 0, fence, clock));
    assert w3.log == [Entry(0, fence.Admitted(1, None))];
  }
}
