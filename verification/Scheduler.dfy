/** The outbound scheduler: a FIFO queue with one bypass rule and uncrossable fences. */
module Scheduler {
  import opened Common

  datatype RequestClass = FlowControlledPublish | Publish | Control | Fence

  datatype RequestReadiness = Ready | Blocked

  datatype ScheduledRequest = ScheduledRequest(kind: RequestClass, readiness: RequestReadiness)

  const BLOCKED_PUBLISH := ScheduledRequest(FlowControlledPublish, Blocked)

  /** What may leave next: a ready front, or a ready control behind blocked publishes only. */
  predicate Eligible(rs: seq<ScheduledRequest>, i: int) {
    && 0 <= i < |rs|
    && rs[i].readiness == Ready
    && (i == 0 || (rs[i].kind == Control && forall j :: 0 <= j < i ==> rs[j] == BLOCKED_PUBLISH))
  }

  /** The selection is deterministic: at most one position is eligible. */
  lemma EligibleUnique(rs: seq<ScheduledRequest>, i: int, j: int)
    requires Eligible(rs, i) && Eligible(rs, j)
    ensures i == j
  {
  }

  /** A ready front leaves, or the ready control behind any number of blocked flow-controlled publishes, and nothing else. */
  lemma SelectedExactly(rs: seq<ScheduledRequest>, i: nat)
    ensures Eligible(rs, i) <==>
              && i < |rs|
              && ((i == 0 && rs[0].readiness == Ready)
                  || rs[..i + 1] == seq(i, _ => ScheduledRequest(FlowControlledPublish, Blocked)) + [ScheduledRequest(Control, Ready)])
  {
    if i < |rs| {
      var front := seq(i, _ => ScheduledRequest(FlowControlledPublish, Blocked));
      if rs[..i + 1] == front + [ScheduledRequest(Control, Ready)] {
        assert rs[i] == rs[..i + 1][i];
        assert forall j :: 0 <= j < i ==> rs[j] == rs[..i + 1][j] == front[j];
      }
    }
  }

  function Classified<T>(q: seq<T>, classify: T -> ScheduledRequest): (r: seq<ScheduledRequest>)
    ensures |r| == |q| && forall i :: 0 <= i < |q| ==> r[i] == classify(q[i])
  {
    seq(|q|, i requires 0 <= i < |q| => classify(q[i]))
  }

  /** The outcome of one `pop_next`, as a relation on queue contents. */
  ghost predicate Popped<T>(q: seq<T>, classify: T -> ScheduledRequest, out: Option<T>, q': seq<T>) {
    match out
    case None => q' == q && forall i :: !Eligible(Classified(q, classify), i)
    case Some(x) =>
      exists i :: Eligible(Classified(q, classify), i) && x == q[i] && q' == RemoveAt(q, i)
  }

  class OutboundScheduler<T> {
    var queue: seq<T>

    constructor ()
      ensures queue == []
    {
      queue := [];
    }

    method PushBack(item: T)
      modifies this
      ensures queue == old(queue) + [item]
    {
      queue := queue + [item];
    }

    method NextReadyIndex(classify: T -> ScheduledRequest) returns (r: Option<nat>)
      ensures r.Some? ==> Eligible(Classified(queue, classify), r.value)
      ensures r.None? ==> forall i :: !Eligible(Classified(queue, classify), i)
    {
      ghost var rs := Classified(queue, classify);
      var canBypass := true;
      for index := 0 to |queue|
        invariant canBypass <==> forall j :: 0 <= j < index ==> rs[j] == BLOCKED_PUBLISH
        invariant index > 0 ==> rs[0].readiness == Blocked
        invariant forall i :: 0 <= i < index ==> !Eligible(rs, i) && rs[i].kind != Fence
      {
        var request := classify(queue[index]);
        if request.kind == Fence {
          if index == 0 && request.readiness == Ready {
            return Some(index);
          }
          assert rs[index] != BLOCKED_PUBLISH;
          return None;
        }
        if request.readiness == Ready && index == 0 {
          return Some(index);
        } else if request.kind == Control && request.readiness == Ready && canBypass {
          return Some(index);
        } else if request.kind == FlowControlledPublish && request.readiness == Blocked {
        } else {
          canBypass := false;
        }
      }
      return None;
    }

    method HasReady(classify: T -> ScheduledRequest) returns (ready: bool)
      ensures ready <==> exists i :: Eligible(Classified(queue, classify), i)
    {
      var index := NextReadyIndex(classify);
      ready := index.Some?;
    }

    method PopNext(classify: T -> ScheduledRequest) returns (out: Option<T>)
      modifies this
      ensures Popped(old(queue), classify, out, queue)
    {
      var index := NextReadyIndex(classify);
      if index.None? {
        return None;
      }
      out := Some(queue[index.value]);
      queue := RemoveAt(queue, index.value);
    }

    method Drain() returns (items: seq<T>)
      modifies this
      ensures items == old(queue) && queue == []
    {
      items := queue;
      queue := [];
    }
  }

  // Whole runs. A ticket is an item's position in the push order; its class never
  // changes, while its readiness may differ at every pop.

  type Ticket = nat

  datatype Departure = Departure(ticket: Ticket, readiness: Ticket -> RequestReadiness)

  datatype Op = Push(kind: RequestClass) | Pop(readiness: Ticket -> RequestReadiness)

  datatype State = State(pushed: seq<RequestClass>, queue: seq<Ticket>, left: seq<Departure>)

  const INITIAL := State([], [], [])

  function ClassOf(pushed: seq<RequestClass>, t: Ticket): RequestClass {
    if t < |pushed| then pushed[t] else Control
  }

  function Classifier(pushed: seq<RequestClass>, readiness: Ticket -> RequestReadiness): Ticket -> ScheduledRequest {
    (t: Ticket) => ScheduledRequest(ClassOf(pushed, t), readiness(t))
  }

  ghost predicate Step(s: State, op: Op, s': State) {
    match op
    case Push(kind) => s' == State(s.pushed + [kind], s.queue + [|s.pushed|], s.left)
    case Pop(readiness) =>
      exists out: Option<Ticket> ::
        && Popped(s.queue, Classifier(s.pushed, readiness), out, s'.queue)
        && s'.pushed == s.pushed
        && s'.left == s.left + if out.Some? then [Departure(out.value, readiness)] else []
  }

  /** `trace` is a run: it starts empty and each state follows from the previous by one operation. */
  ghost predicate IsRun(trace: seq<State>, ops: seq<Op>) {
    && |trace| == |ops| + 1
    && trace[0] == INITIAL
    && forall i :: 0 <= i < |ops| ==> Step(trace[i], ops[i], trace[i + 1])
  }

  /** The ticket has left within the first `n` departures. */
  predicate LeftWithin(left: seq<Departure>, n: nat, t: Ticket)
    requires n <= |left|
  {
    exists k :: 0 <= k < n && left[k].ticket == t
  }

  /** Overtaking `x` by the `p`-th departure: pushed later, left while `x` was still inside. */
  predicate Overtakes(s: State, p: nat, x: Ticket)
    requires p < |s.left|
  {
    x < s.left[p].ticket && !LeftWithin(s.left, p, x)
  }

  ghost predicate AllowedOvertake(s: State, p: nat, x: Ticket)
    requires p < |s.left|
  {
    && ClassOf(s.pushed, s.left[p].ticket) == Control
    && ClassOf(s.pushed, x) == FlowControlledPublish
    && s.left[p].readiness(x) == Blocked
  }

  predicate Sorted(q: seq<Ticket>) {
    forall i, j :: 0 <= i < j < |q| ==> q[i] < q[j]
  }

  /** Every ticket is in exactly one place: waiting in the queue, or departed once. */
  predicate Accounted(s: State) {
    && (forall i :: 0 <= i < |s.queue| ==> s.queue[i] < |s.pushed|)
    && (forall k :: 0 <= k < |s.left| ==> s.left[k].ticket < |s.pushed| && s.left[k].ticket !in s.queue)
    && (forall k, m :: 0 <= k < m < |s.left| ==> s.left[k].ticket != s.left[m].ticket)
    && (forall t: Ticket :: t < |s.pushed| ==> t in s.queue || LeftWithin(s.left, |s.left|, t))
  }

  ghost predicate OnlyAllowedOvertakes(s: State) {
    forall p, x :: 0 <= p < |s.left| && Overtakes(s, p, x) ==> AllowedOvertake(s, p, x)
  }

  ghost predicate Inv(s: State) {
    Sorted(s.queue) && Accounted(s) && OnlyAllowedOvertakes(s)
  }

  lemma PushKeepsInv(s: State, kind: RequestClass, s': State)
    requires Inv(s) && Step(s, Push(kind), s')
    ensures Inv(s')
  {
    assert s'.queue[..|s.queue|] == s.queue && s'.queue[|s.queue|] == |s.pushed|;
    forall t: Ticket | t < |s'.pushed|
      ensures t in s'.queue || LeftWithin(s'.left, |s'.left|, t)
    {
    }
    forall p, x | 0 <= p < |s'.left| && Overtakes(s', p, x)
      ensures AllowedOvertake(s', p, x)
    {
      assert Overtakes(s, p, x);
    }
  }

  lemma PopKeepsInv(s: State, readiness: Ticket -> RequestReadiness, s': State)
    requires Inv(s) && Step(s, Pop(readiness), s')
    ensures Inv(s')
  {
    var classify := Classifier(s.pushed, readiness);
    var out: Option<Ticket> :| Popped(s.queue, classify, out, s'.queue)
                               && s'.left == s.left + if out.Some? then [Departure(out.value, readiness)] else [];
    if out.Some? {
      var i :| Eligible(Classified(s.queue, classify), i) && out.value == s.queue[i] && s'.queue == RemoveAt(s.queue, i);
      DepartureAccounted(s, readiness, i, s');
      DepartureOvertakes(s, readiness, i, s');
    } else {
      assert s' == s;
    }
  }

  ghost predicate Departs(s: State, readiness: Ticket -> RequestReadiness, i: nat, s': State) {
    && i < |s.queue|
    && s' == State(s.pushed, RemoveAt(s.queue, i), s.left + [Departure(s.queue[i], readiness)])
  }

  lemma DepartedMembers(q: seq<Ticket>, i: nat, t: Ticket)
    requires Sorted(q) && i < |q|
    ensures t in RemoveAt(q, i) <==> t in q && t != q[i]
  {
    RemovedMembers(q, i);
  }

  lemma LeftWithinExtended(left: seq<Departure>, d: Departure, n: nat, t: Ticket)
    requires n <= |left|
    ensures LeftWithin(left + [d], n, t) <==> LeftWithin(left, n, t)
    ensures LeftWithin(left + [d], |left| + 1, t) <==> LeftWithin(left, |left|, t) || d.ticket == t
  {
    var more := left + [d];
    assert forall k :: 0 <= k < |left| ==> more[k] == left[k];
    assert more[|left|] == d;
  }

  lemma DepartureAccounted(s: State, readiness: Ticket -> RequestReadiness, i: nat, s': State)
    requires Sorted(s.queue) && Accounted(s) && Departs(s, readiness, i, s')
    ensures Sorted(s'.queue) && Accounted(s')
  {
    forall t: Ticket
      ensures t in s'.queue <==> t in s.queue && t != s.queue[i]
      ensures LeftWithin(s'.left, |s'.left|, t) <==> LeftWithin(s.left, |s.left|, t) || s.queue[i] == t
    {
      DepartedMembers(s.queue, i, t);
      LeftWithinExtended(s.left, Departure(s.queue[i], readiness), 0, t);
    }
  }

  /** An earlier ticket that has not left is still queued ahead, so only blocked publishes are passed. */
  lemma DepartureOvertakes(s: State, readiness: Ticket -> RequestReadiness, i: nat, s': State)
    requires Inv(s) && Departs(s, readiness, i, s')
    requires Eligible(Classified(s.queue, Classifier(s.pushed, readiness)), i)
    ensures OnlyAllowedOvertakes(s')
  {
    forall p, x | 0 <= p < |s'.left| && Overtakes(s', p, x)
      ensures AllowedOvertake(s', p, x)
    {
      LeftWithinExtended(s.left, Departure(s.queue[i], readiness), p, x);
      if p < |s.left| {
        assert Overtakes(s, p, x);
      } else {
        assert x in s.queue;
        var k :| 0 <= k < |s.queue| && s.queue[k] == x;
        assert Classified(s.queue, Classifier(s.pushed, readiness))[k] == BLOCKED_PUBLISH;
      }
    }
  }

  lemma {:induction false} RunKeepsInv(trace: seq<State>, ops: seq<Op>, n: nat)
    requires IsRun(trace, ops) && n < |trace|
    ensures Inv(trace[n])
  {
    if n > 0 {
      RunKeepsInv(trace, ops, n - 1);
      assert Step(trace[n - 1], ops[n - 1], trace[n]);
      match ops[n - 1]
      case Push(kind) => PushKeepsInv(trace[n - 1], kind, trace[n]);
      case Pop(readiness) => PopKeepsInv(trace[n - 1], readiness, trace[n]);
    }
  }

  /**
   * Overtaking theorem. In every run, whatever leaves ahead of an item pushed earlier is a control,
   * and the item it passes is a flow-controlled publish that was blocked at that very pop.
   */
  lemma Overtaking(trace: seq<State>, ops: seq<Op>, n: nat, p: nat, x: Ticket)
    requires IsRun(trace, ops) && n < |trace| && p < |trace[n].left|
    requires Overtakes(trace[n], p, x)
    ensures ClassOf(trace[n].pushed, trace[n].left[p].ticket) == Control
    ensures ClassOf(trace[n].pushed, x) == FlowControlledPublish
    ensures trace[n].left[p].readiness(x) == Blocked
  {
    RunKeepsInv(trace, ops, n);
    assert AllowedOvertake(trace[n], p, x);
  }

  /** Two items whose relative order every run preserves: both publishes, both controls, or one a fence. */
  predicate OrderKept(a: RequestClass, b: RequestClass) {
    || (a != Control && b != Control)
    || (a == Control && b == Control)
    || a == Fence
    || b == Fence
  }

  /** Publishes leave in push order, controls leave in push order, and a fence is crossed in neither direction. */
  lemma PushOrderKept(trace: seq<State>, ops: seq<Op>, n: nat, p: nat, x: Ticket)
    requires IsRun(trace, ops) && n < |trace| && p < |trace[n].left|
    requires x < trace[n].left[p].ticket
    requires OrderKept(ClassOf(trace[n].pushed, x), ClassOf(trace[n].pushed, trace[n].left[p].ticket))
    ensures LeftWithin(trace[n].left, p, x)
  {
    if !LeftWithin(trace[n].left, p, x) {
      Overtaking(trace, ops, n, p, x);
    }
  }

  /** Nothing is lost or duplicated: every pushed ticket is queued or has left, exactly once. */
  lemma Conservation(trace: seq<State>, ops: seq<Op>, n: nat, t: Ticket)
    requires IsRun(trace, ops) && n < |trace|
    ensures t < |trace[n].pushed| <==> t in trace[n].queue || LeftWithin(trace[n].left, |trace[n].left|, t)
    ensures !(t in trace[n].queue && LeftWithin(trace[n].left, |trace[n].left|, t))
  {
    RunKeepsInv(trace, ops, n);
  }
}
