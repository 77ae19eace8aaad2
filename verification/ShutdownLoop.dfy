/**
 * The event loop's side of an ordered shutdown: putting the fence back after a reconnect,
 * resolving completions, and delivering the terminal events and error.
 */
module ShutdownLoop {
  import opened Common
  import opened Requests
  import opened Admission

  datatype ShutdownPhase = Open | AdmittedDrain | Approaching | Draining | Flushing | Completed | TimedOut | Failed

  datatype DisconnectError =
    | DisconnectTimeout
    | Transport
    | Protocol
    | Persistence
    | PublishFailed
    | SupersededByImmediate
    | Superseded
    | ReceiverTerminated
    | SessionReset
    | Redirected
    | ReplayUnavailable

  type Outcome = Result<(), DisconnectError>

  /** The fields the restoration reads and writes. The captured packet carries no data in MQTT 3.1.1. */
  datatype Loop = Loop(
    pending: seq<RequestEnvelope>,
    orderedPacket: bool,
    orderedCompletion: Option<nat>,
    phase: ShutdownPhase)

  function IsFenceEnvelope(): RequestEnvelope -> bool {
    (e: RequestEnvelope) => e.IsFence()
  }

  function IsPlainEnvelope(): RequestEnvelope -> bool {
    (e: RequestEnvelope) => !e.IsFence()
  }

  /** The captured packet as it re-enters the queue. */
  function RestoredFence(gate: Gate, completion: Option<nat>): RequestEnvelope
    requires gate.fence.Some?
  {
    RequestEnvelope(DisconnectAfterQueued, NEW_META.(sequence := gate.fence.value, deadline := gate.deadline, completion := completion))
  }

  function Captured(gate: Gate, l: Loop): seq<RequestEnvelope>
    requires gate.fence.Some?
  {
    if l.orderedPacket then [RestoredFence(gate, l.orderedCompletion)] else []
  }

  function Restore(gate: Gate, l: Loop): Loop {
    if gate.fence.None? || l.phase == Flushing then l
    else
      Loop(Filter(l.pending, IsPlainEnvelope()) + Filter(l.pending, IsFenceEnvelope()) + Captured(gate, l),
           false,
           if l.orderedPacket then None else l.orderedCompletion,
           Approaching)
  }

  /** A shutdown that survives an error: the captured packet goes back into the queue. */
  function Resumed(gate: Gate, l: Loop): Loop
    requires gate.fence.Some?
  {
    Loop(l.pending + Captured(gate, l), false, if l.orderedPacket then None else l.orderedCompletion, Approaching)
  }

  // ---- Restoration laws ----

  /** Requests other than fences keep their order; the fences follow them, the captured one last. */
  lemma RestoreOrders(gate: Gate, l: Loop)
    requires gate.fence.Some? && l.phase != Flushing
    ensures var p := Restore(gate, l).pending;
            && Filter(p, IsPlainEnvelope()) == Filter(l.pending, IsPlainEnvelope())
            && Filter(p, IsFenceEnvelope()) == Filter(l.pending, IsFenceEnvelope()) + Captured(gate, l)
            && p == Filter(p, IsPlainEnvelope()) + Filter(p, IsFenceEnvelope())
  {
    var plain, fences := Filter(l.pending, IsPlainEnvelope()), Filter(l.pending, IsFenceEnvelope()) + Captured(gate, l);
    assert Restore(gate, l).pending == plain + fences;
    FilterMembers(l.pending, IsPlainEnvelope());
    FilterMembers(l.pending, IsFenceEnvelope());
    FilterAppend(plain, fences, IsPlainEnvelope());
    FilterAppend(plain, fences, IsFenceEnvelope());
    FilterAll(plain, IsPlainEnvelope());
    FilterNone(plain, IsFenceEnvelope());
    FilterAll(fences, IsFenceEnvelope());
    FilterNone(fences, IsPlainEnvelope());
  }

  /** No fence precedes a request that is not one. */
  lemma RestoreFencesLast(gate: Gate, l: Loop, i: nat, j: nat)
    requires gate.fence.Some? && l.phase != Flushing
    requires i < j < |Restore(gate, l).pending| && Restore(gate, l).pending[i].IsFence()
    ensures Restore(gate, l).pending[j].IsFence()
  {
    FilterMembers(l.pending, IsPlainEnvelope());
    FilterMembers(l.pending, IsFenceEnvelope());
    var plain := Filter(l.pending, IsPlainEnvelope());
    var rest := Filter(l.pending, IsFenceEnvelope()) + Captured(gate, l);
    assert Restore(gate, l).pending == plain + rest;
    assert forall k :: 0 <= k < |plain| ==> plain[k] in plain;
    if j >= |plain| {
      assert Restore(gate, l).pending[j] == rest[j - |plain|];
      assert rest[j - |plain|] in rest;
    }
  }

  lemma RestoredMultiset(gate: Gate, l: Loop)
    requires gate.fence.Some? && l.phase != Flushing
    ensures multiset(Restore(gate, l).pending) == multiset(l.pending) + multiset(Captured(gate, l))
  {
    var plain, fences := Filter(l.pending, IsPlainEnvelope()), Filter(l.pending, IsFenceEnvelope());
    FilterPartition(l.pending, IsPlainEnvelope(), IsFenceEnvelope());
    MultisetOfThree(plain, fences, Captured(gate, l));
  }

  lemma MultisetOfThree(a: seq<RequestEnvelope>, b: seq<RequestEnvelope>, c: seq<RequestEnvelope>)
    ensures multiset(a + b + c) == multiset(a) + multiset(b) + multiset(c)
  {
  }

  /** Nothing is lost or duplicated, and a captured packet re-enters exactly once, stamped by the gate. */
  lemma RestoreConserves(gate: Gate, l: Loop)
    requires gate.fence.Some? && l.phase != Flushing
    ensures multiset(Restore(gate, l).pending) == multiset(l.pending) + multiset(Captured(gate, l))
    ensures !Restore(gate, l).orderedPacket
    ensures l.orderedPacket ==>
              var last := Restore(gate, l).pending[|Restore(gate, l).pending| - 1];
              && last.request == DisconnectAfterQueued && last.meta.sequence == gate.fence.value
              && last.meta.deadline == gate.deadline && last.meta.completion == l.orderedCompletion
    ensures Restore(gate, l).phase == Approaching
    ensures Restore(gate, l).orderedCompletion == if l.orderedPacket then None else l.orderedCompletion
  {
    RestoredMultiset(gate, l);
    RestoredLast(gate, l);
  }

  lemma RestoredLast(gate: Gate, l: Loop)
    requires gate.fence.Some? && l.phase != Flushing
    ensures l.orderedPacket ==>
              var pending := Restore(gate, l).pending;
              pending != [] && pending[|pending| - 1] == RestoredFence(gate, l.orderedCompletion)
  {
  }

  /** A later cleanup changes nothing, even if the gate's deadline was cleared in between. */
  lemma RestoreIdempotent(gate: Gate, later: Gate, l: Loop)
    requires gate.fence.Some? && later.fence.Some?
    ensures Restore(later, Restore(gate, l)) == Restore(gate, l)
  {
    if l.phase != Flushing {
      var once := Restore(gate, l);
      RestoreOrders(gate, l);
      assert Filter(once.pending, IsPlainEnvelope()) + Filter(once.pending, IsFenceEnvelope()) + [] == once.pending;
    }
  }

  /** Any number of cleanups under a standing fence is one cleanup. */
  lemma {:induction false} RepeatedRestore(gates: seq<Gate>, l: Loop)
    requires |gates| > 0 && forall i :: 0 <= i < |gates| ==> gates[i].fence.Some?
    ensures RestoreAll(gates, l) == Restore(gates[0], l)
  {
    var n := |gates| - 1;
    if n > 0 {
      RepeatedRestore(gates[..n], l);
      RestoreIdempotent(gates[0], gates[n], l);
    }
  }

  function RestoreAll(gates: seq<Gate>, l: Loop): Loop {
    if gates == [] then l else Restore(gates[|gates| - 1], RestoreAll(gates[..|gates| - 1], l))
  }

  /** After the terminal write may have reached the peer, and without a fence, nothing is replayed. */
  lemma RestoreLeavesAlone(gate: Gate, l: Loop)
    ensures Restore(gate, l) == l <==>
              || gate.fence.None?
              || l.phase == Flushing
              || (!l.orderedPacket && l.phase == Approaching
                  && Filter(l.pending, IsPlainEnvelope()) + Filter(l.pending, IsFenceEnvelope()) == l.pending)
  {
    if gate.fence.Some? && !l.orderedPacket {
      var sorted := Filter(l.pending, IsPlainEnvelope()) + Filter(l.pending, IsFenceEnvelope());
      assert sorted + [] == sorted;
    }
  }

  // ---- Completions ----

  /** A completion resolves once; later results are ignored. */
  function Resolve(resolved: map<nat, Outcome>, completion: Option<nat>, result: Outcome): map<nat, Outcome> {
    if completion.None? || completion.value in resolved then resolved else resolved[completion.value := result]
  }

  /** The completions of the first `n` envelopes, resolved in turn. */
  function ResolveFirst(resolved: map<nat, Outcome>, envelopes: seq<RequestEnvelope>, n: nat, result: Outcome): map<nat, Outcome>
    requires n <= |envelopes|
  {
    if n == 0 then resolved
    else Resolve(ResolveFirst(resolved, envelopes, n - 1, result), envelopes[n - 1].meta.completion, result)
  }

  /** Every completion in the list is resolved, old resolutions stand, and each new one has this result. */
  lemma {:induction false} ResolveAllResolves(resolved: map<nat, Outcome>, envelopes: seq<RequestEnvelope>, n: nat, result: Outcome)
    requires n <= |envelopes|
    ensures var after := ResolveFirst(resolved, envelopes, n, result);
            && (forall i :: 0 <= i < n && envelopes[i].meta.completion.Some? ==> envelopes[i].meta.completion.value in after)
            && (forall c :: c in resolved ==> c in after && after[c] == resolved[c])
            && (forall c :: c in after && c !in resolved ==> after[c] == result)
  {
    if n > 0 {
      ResolveAllResolves(resolved, envelopes, n - 1, result);
    }
  }

  /** Earlier results stand, every new one is this result, and no completion listed is left open. */
  ghost predicate EveryCompletionResolved(before: map<nat, Outcome>, after: map<nat, Outcome>, result: Outcome,
                                          captured: Option<nat>, listed: seq<RequestEnvelope>) {
    && (forall c :: c in before ==> c in after && after[c] == before[c])
    && (forall c :: c in after && c !in before ==> after[c] == result)
    && (captured.Some? ==> captured.value in after)
    && (forall e :: e in listed && e.meta.completion.Some? ==> e.meta.completion.value in after)
  }

  function PhaseOf(result: Outcome): ShutdownPhase {
    if result.Ok? then Completed else if result.error == DisconnectTimeout then TimedOut else Failed
  }

  // ---- Errors while a fence stands ----

  datatype ConnectionError =
    | Io
    | NetworkTimeout
    | FlushTimeout
    | StateTransport
    | StateProtocol
    | SessionStore
    | DeadlineExpired
    | OrderedDisconnect(reason: DisconnectError)
    | OtherError

  predicate IsTransportError(e: ConnectionError) {
    e.Io? || e.NetworkTimeout? || e.FlushTimeout? || e.StateTransport?
  }

  function ReasonOf(e: ConnectionError): DisconnectError {
    match e
    case OrderedDisconnect(reason) => reason
    case DeadlineExpired => DisconnectTimeout
    case SessionStore => Persistence
    case StateProtocol => Protocol
    case _ => Transport
  }

  /** The reason that the user is given, by kind of error. */
  lemma ReasonExactly(e: ConnectionError)
    ensures e.OrderedDisconnect? ==> ReasonOf(e) == e.reason
    ensures !e.OrderedDisconnect? ==>
              && (ReasonOf(e) == DisconnectTimeout <==> e == DeadlineExpired)
              && (ReasonOf(e) == Persistence <==> e == SessionStore)
              && (ReasonOf(e) == Protocol <==> e == StateProtocol)
              && (ReasonOf(e) == Transport <==> e in {Io, NetworkTimeout, FlushTimeout, StateTransport, OtherError})
  {
  }

  /** The shutdown survives an error only before the terminal write, on a resumable session without a failed publish. */
  predicate Resumes(e: ConnectionError, resumable: bool, ledgerOk: bool, phase: ShutdownPhase, complete: bool) {
    IsTransportError(e) && resumable && ledgerOk && phase != Flushing && !complete
  }

  /** The three ways an error ends a poll under a fence: reported only, survived, or terminal. */
  datatype FencedOutcome = Reported | Survived | Ended

  function OutcomeOf(e: ConnectionError, resumable: bool, ledgerOk: bool, phase: ShutdownPhase, complete: bool): FencedOutcome {
    if complete && phase == Completed then Reported
    else if Resumes(e, resumable, ledgerOk, phase, complete) then Survived
    else Ended
  }

  class EventLoop {
    const gate: SharedGate
    const requests: SharedLane
    const control: SharedLane
    var pending: seq<RequestEnvelope>
    var queued: seq<RequestEnvelope>
    var orderedPacket: bool
    var orderedCompletion: Option<nat>
    var phase: ShutdownPhase
    var pendingDisconnect: bool
    var disconnectComplete: bool
    var resolved: map<nat, Outcome>

    constructor (gate: SharedGate, requests: SharedLane, control: SharedLane)
      ensures this.gate == gate && this.requests == requests && this.control == control
      ensures View() == Loop([], false, None, Open) && queued == [] && resolved == map[] && !pendingDisconnect && !disconnectComplete
    {
      this.gate, this.requests, this.control := gate, requests, control;
      pending, queued, resolved := [], [], map[];
      orderedPacket, orderedCompletion, phase := false, None, Open;
      pendingDisconnect, disconnectComplete := false, false;
    }

    function View(): Loop
      reads this
    {
      Loop(pending, orderedPacket, orderedCompletion, phase)
    }

    method RestoreOrderedFenceAfterCleanup()
      modifies this`pending, this`orderedPacket, this`orderedCompletion, this`phase
      ensures View() == old(Restore(gate.View(), View()))
    {
      if gate.fence.None? {
        return;
      }
      var sequence := gate.fence.value;
      if phase == Flushing {
        return;
      }
      var fences: seq<RequestEnvelope>, plain: seq<RequestEnvelope> := [], [];
      for i := 0 to |pending|
        invariant plain == Filter(pending[..i], IsPlainEnvelope())
        invariant fences == Filter(pending[..i], IsFenceEnvelope())
      {
        assert pending[..i + 1][..i] == pending[..i];
        if pending[i].IsFence() {
          fences := fences + [pending[i]];
        } else {
          plain := plain + [pending[i]];
        }
      }
      assert pending[..|pending|] == pending;
      pending := plain + fences;
      if orderedPacket {
        orderedPacket := false;
        var envelope := Plain(DisconnectAfterQueued);
        envelope := envelope.(meta := envelope.meta.(completion := orderedCompletion, sequence := sequence, deadline := gate.deadline));
        orderedCompletion := None;
        pending := pending + [envelope];
      } else {
        assert pending + [] == pending;
      }
      phase := Approaching;
    }

    method ResolveEvery(envelopes: seq<RequestEnvelope>, result: Outcome)
      modifies this`resolved
      ensures resolved == ResolveFirst(old(resolved), envelopes, |envelopes|, result)
    {
      for i := 0 to |envelopes|
        modifies this`resolved
        invariant resolved == ResolveFirst(old(resolved), envelopes, i, result)
      {
        resolved := Resolve(resolved, envelopes[i].meta.completion, result);
      }
    }

    /**
     * Resolves the captured completion and every completion still queued anywhere: in the loop,
     * in the scheduler, and in both lanes, which are drained.
     */
    method FinishOrdered(result: Outcome)
      requires requests != control && gate != (requests as object) && gate != (control as object)
      modifies this`pending, this`phase, this`resolved, gate`deadline, requests`items, control`items
      ensures phase == if result.Ok? then Completed else if result.error == DisconnectTimeout then TimedOut else Failed
      ensures pending == old(pending + requests.items + control.items)
      ensures requests.items == [] && control.items == []
      ensures gate.deadline == if result == Err(Superseded) || result == Err(SupersededByImmediate) then None else old(gate.deadline)
      ensures EveryCompletionResolved(old(resolved), resolved, result, orderedCompletion,
                                      old(pending + requests.items + control.items + queued))
    {
      phase := PhaseOf(result);
      if result == Err(Superseded) || result == Err(SupersededByImmediate) {
        gate.deadline := None;
      }
      resolved := Resolve(resolved, orderedCompletion, result);
      ghost var start := resolved;
      var drained := requests.DrainAll();
      pending := pending + drained;
      drained := control.DrainAll();
      pending := pending + drained;
      var all := pending + queued;
      ResolveEvery(all, result);
      assert all == old(pending + requests.items + control.items + queued);
      ResolveAllResolves(start, all, |all|, result);
    }

    /** Everything unhandled ends up in the pending queue, which nothing reads any more. */
    method DiscardShutdownWork(replays: seq<RequestEnvelope>)
      requires requests != control
      modifies this`pending, this`queued, requests`items, control`items
      ensures queued == [] && requests.items == [] && control.items == []
      ensures pending == old(pending + replays + requests.items + control.items + queued)
    {
      pending := pending + replays;
      var drained := requests.DrainAll();
      pending := pending + drained;
      drained := control.DrainAll();
      pending := pending + drained;
      pending := pending + queued;
      queued := [];
    }

    method Resume()
      requires gate.fence.Some?
      modifies this`pending, this`orderedPacket, this`orderedCompletion, this`phase
      ensures View() == old(Resumed(gate.View(), View()))
      ensures phase == Approaching && !orderedPacket
      ensures !old(orderedPacket) ==> pending == old(pending) && orderedCompletion == old(orderedCompletion)
      ensures old(orderedPacket) ==>
                && orderedCompletion == None && |pending| == |old(pending)| + 1 && pending[..|old(pending)|] == old(pending)
                && var fence := pending[|old(pending)|];
                   && fence.request == DisconnectAfterQueued && fence.meta.sequence == gate.fence.value
                   && fence.meta.deadline == gate.deadline && fence.meta.completion == old(orderedCompletion)
    {
      if orderedPacket {
        orderedPacket := false;
        var meta := NEW_META.(completion := orderedCompletion, sequence := gate.fence.value, deadline := gate.deadline);
        orderedCompletion := None;
        pending := pending + [RequestEnvelope(DisconnectAfterQueued, meta)];
      } else {
        assert pending + [] == pending;
      }
      phase := Approaching;
    }

    method EndShutdown(reason: DisconnectError, replays: seq<RequestEnvelope>)
      requires requests != control && gate != (requests as object) && gate != (control as object)
      modifies this, gate, requests`items, control`items
      ensures gate.terminated && disconnectComplete && !pendingDisconnect && queued == []
      ensures phase == if reason == DisconnectTimeout then TimedOut else Failed
      ensures pending == old(pending + requests.items + control.items) + replays + old(queued)
      ensures EveryCompletionResolved(old(resolved), resolved, Err(reason),
                                      old(orderedCompletion), old(pending + requests.items + control.items + queued))
    {
      gate.Terminate();
      FinishOrdered(Err(reason));
      phase := if reason == DisconnectTimeout then TimedOut else Failed;
      pendingDisconnect := false;
      ghost var finished := pending;
      DiscardShutdownWork(replays);
      assert pending == finished + replays + [] + [] + old(queued);
      disconnectComplete := true;
    }

    /**
     * What `poll` does with an error while the fence stands: report it after a completed shutdown,
     * keep the shutdown alive with the captured fence back in the queue, or end it for good with
     * every completion resolved. `replays` are the in-flight packets that the protocol state hands back.
     */
    method AfterFencedError(error: ConnectionError, resumable: bool, ledgerOk: bool, replays: seq<RequestEnvelope>)
      returns (outcome: FencedOutcome)
      requires gate.fence.Some?
      requires requests != control && gate != (requests as object) && gate != (control as object)
      modifies this, gate, requests`items, control`items
      ensures outcome == OutcomeOf(error, resumable, ledgerOk, old(phase), old(disconnectComplete))
      ensures outcome == Reported <==> old(disconnectComplete) && old(phase) == Completed
      ensures outcome == Survived <==>
                && (error == Io || error == NetworkTimeout || error == FlushTimeout || error == StateTransport)
                && resumable && ledgerOk && old(phase) != Flushing && !old(disconnectComplete)
      ensures outcome != Ended ==>
                && gate.View() == old(gate.View()) && resolved == old(resolved) && queued == old(queued)
                && requests.items == old(requests.items) && control.items == old(control.items)
                && pendingDisconnect == old(pendingDisconnect) && disconnectComplete == old(disconnectComplete)
      ensures outcome == Reported ==> View() == old(View())
      ensures outcome == Survived ==> View() == old(Resumed(gate.View(), View()))
      ensures outcome == Ended ==>
                && gate.terminated && disconnectComplete && !pendingDisconnect && queued == []
                && phase == (if ReasonOf(error) == DisconnectTimeout then TimedOut else Failed)
                && pending == old(pending + requests.items + control.items) + replays + old(queued)
                && EveryCompletionResolved(old(resolved), resolved, Err(ReasonOf(error)),
                                           old(orderedCompletion), old(pending + requests.items + control.items + queued))
    {
      if disconnectComplete && phase == Completed {
        return Reported;
      }
      if Resumes(error, resumable, ledgerOk, phase, disconnectComplete) {
        Resume();
        return Survived;
      }
      EndShutdown(ReasonOf(error), replays);
      return Ended;
    }
  }

  // ---- Terminal delivery ----

  type Notification = nat

  /** What `poll` still has to hand out after the shutdown ended. */
  datatype Terminal = Terminal(events: seq<Notification>, error: Option<ConnectionError>)

  /** One `poll`: the next event, then the error, then neither. */
  function PollTerminal(t: Terminal): (Terminal, Option<Result<Notification, ConnectionError>>) {
    if t.error.None? then (t, None)
    else if t.events != [] then (t.(events := t.events[1..]), Some(Ok(t.events[0])))
    else (t.(error := None), Some(Err(t.error.value)))
  }

  function PollMany(t: Terminal, n: nat): (Terminal, seq<Option<Result<Notification, ConnectionError>>>)
    decreases n
  {
    if n == 0 then (t, [])
    else
      var (t', out) := PollTerminal(t);
      var (last, rest) := PollMany(t', n - 1);
      (last, [out] + rest)
  }

  /** Committed events come out in order, each once; the error follows them, exactly once. */
  lemma {:induction false} TerminalDelivery(t: Terminal, n: nat)
    requires t.error.Some?
    ensures var (_, out) := PollMany(t, n);
            && |out| == n
            && forall i :: 0 <= i < n ==>
                 out[i] == if i < |t.events| then Some(Ok(t.events[i]))
                           else if i == |t.events| then Some(Err(t.error.value))
                           else None
    decreases n
  {
    if n > 0 {
      var (t', out) := PollTerminal(t);
      if t.events != [] {
        TerminalDelivery(t', n - 1);
        assert forall i :: 0 < i <= |t.events| - 1 ==> t.events[i] == t'.events[i - 1];
      } else {
        DrainedTerminal(t', n - 1);
      }
    }
  }

  lemma {:induction false} DrainedTerminal(t: Terminal, n: nat)
    requires t.error.None?
    ensures PollMany(t, n).0 == t && |PollMany(t, n).1| == n && forall i :: 0 <= i < n ==> PollMany(t, n).1[i] == None
  {
    if n > 0 {
      DrainedTerminal(t, n - 1);
    }
  }
}
