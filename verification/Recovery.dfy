/**
 * Session recovery: the owner's gate and observations, and the two event-loop drivers as
 * sequences of steps that may fail or be cancelled at every await, with the owner running
 * concurrently between any two steps.
 */
module Recovery {
  import opened Common
  import opened Paths

  datatype Phase =
    | Quiescing
    | Abandoning
    | ClearingCheckpoint
    | EstablishingFresh
    | CleanDisconnect
    | EstablishingPersistent
    | Completed
    | Failed
    | Interrupted

  predicate Terminal(p: Phase) {
    p.Completed? || p.Failed? || p.Interrupted?
  }

  datatype Snapshot = Snapshot(
    phase: Phase,
    failurePhase: Option<Phase>,
    abandonmentCommitted: bool,
    checkpointCleared: bool,
    freshEstablished: bool,
    rawSessionPresent: Option<bool>)
  {
    function InPhase(p: Phase): Snapshot {
      if Terminal(phase) then this else this.(phase := p)
    }

    function Abandoned(): Snapshot {
      this.(abandonmentCommitted := true)
    }

    function Cleared(): Snapshot {
      this.(checkpointCleared := true)
    }

    function Established(sessionPresent: bool): Snapshot {
      this.(freshEstablished := true, rawSessionPresent := Some(sessionPresent))
    }

    function Fail(interrupted: bool): Snapshot {
      if Terminal(phase) then this
      else this.(failurePhase := Some(phase), phase := if interrupted then Interrupted else Failed)
    }
  }

  const NEW_SNAPSHOT := Snapshot(Quiescing, None, false, false, false, None)

  /** Client identifier and session store scope, compared only for equality. */
  type Identity = (nat, nat)

  /** `recovery` is the index of the outstanding observation. */
  datatype GateState = GateState(connected: bool, identity: Identity, recovery: Option<nat>) {
    function Establish(id: Identity): GateState {
      if recovery.None? then this.(identity := id, connected := true) else this
    }

    function Disconnected(id: Identity): GateState {
      var g := this.(connected := false);
      if recovery.None? then g.(identity := id) else g
    }
  }

  // ---- The shared cells of the source ----

  class RecoveryObservation {
    var state: Snapshot

    constructor ()
      ensures state == NEW_SNAPSHOT
    {
      state := NEW_SNAPSHOT;
    }

    method SetPhase(phase: Phase)
      modifies this
      ensures state == old(state).InPhase(phase)
      ensures Terminal(old(state.phase)) ==> state == old(state)
      ensures !Terminal(old(state.phase)) ==> state == old(state).(phase := phase)
    {
      if !Terminal(state.phase) {
        state := state.(phase := phase);
      }
    }

    method Fail(interrupted: bool)
      modifies this
      ensures state == old(state).Fail(interrupted)
      ensures Terminal(old(state.phase)) ==> state == old(state)
      ensures !Terminal(old(state.phase)) ==>
                && state.failurePhase == Some(old(state.phase)) && state.phase == (if interrupted then Interrupted else Failed)
                && state == old(state).(phase := state.phase, failurePhase := state.failurePhase)
    {
      if Terminal(state.phase) {
        return;
      }
      state := state.(failurePhase := Some(state.phase));
      state := state.(phase := if interrupted then Interrupted else Failed);
    }
  }

  class SessionRecoveryGate {
    var connected: bool
    var identity: Identity
    var recovery: RecoveryObservation?

    constructor (identity: Identity)
      ensures !connected && this.identity == identity && recovery == null
    {
      connected, this.identity, recovery := false, identity, null;
    }

    /** Starts a recovery only when disconnected and none is outstanding; otherwise changes nothing. */
    method Request() returns (observation: RecoveryObservation?)
      modifies this
      ensures observation != null <==> !old(connected) && old(recovery) == null
      ensures observation != null ==> fresh(observation) && recovery == observation && observation.state == NEW_SNAPSHOT
      ensures observation == null ==> recovery == old(recovery)
      ensures connected == old(connected) && identity == old(identity)
    {
      if connected || recovery != null {
        return null;
      }
      observation := new RecoveryObservation();
      recovery := observation;
    }

    method Establish(id: Identity)
      modifies this
      ensures recovery == old(recovery)
      ensures if recovery == null then connected && identity == id
              else connected == old(connected) && identity == old(identity)
    {
      if recovery == null {
        identity := id;
        connected := true;
      }
    }

    method Disconnected(id: Identity)
      modifies this
      ensures recovery == old(recovery) && !connected
      ensures identity == if recovery == null then id else old(identity)
    {
      connected := false;
      if recovery == null {
        identity := id;
      }
    }

    method Complete()
      modifies this, recovery
      ensures recovery == null && connected && identity == old(identity)
      ensures old(recovery) != null ==> old(recovery).state == old(recovery.state).InPhase(Completed)
    {
      if recovery != null {
        recovery.SetPhase(Completed);
        recovery := null;
      }
      connected := true;
    }
  }

  // ---- Drivers and owner, step by step ----

  /** The await at which a driver is suspended, with the observation it captured at its start. */
  datatype Driver =
    | Idle
    | AbandonClosing(o: nat)
    | AbandonClearing(o: nat)
    | ConnectingFresh(o: nat, persistent: bool)
    | ClosingFresh(o: nat)
    | ConnectingPersistent(o: nat)
    | ClosingStopped(o: nat)

  /**
   * `configuredClean` is what the user configured; `cleanSession` is what the options say now.
   * `acceptsMismatch` is the opt-in policy that lets a clean connect go on although the server
   * reports a session; by default such a connect fails.
   */
  datatype State = State(
    gate: GateState,
    observations: seq<Snapshot>,
    optionsIdentity: Identity,
    configuredClean: bool,
    cleanSession: bool,
    acceptsMismatch: bool,
    cleanFinished: bool,
    driver: Driver)

  predicate Initial(s: State) {
    && s.gate == GateState(false, s.optionsIdentity, None)
    && s.observations == [] && s.cleanSession == s.configuredClean && !s.cleanFinished && s.driver == Idle
  }

  /** `connack` is the session-present flag of a successful connect, or `None` for a failed one. */
  datatype Event =
    | Request
    | Complete
    | FailObservation(o: nat, interrupted: bool)
    | OrdinaryEstablish
    | OrdinaryDisconnect
    | ChangeIdentity(id: Identity)
    | StartAbandon
    | CandidateClosed(ok: bool)
    | CheckpointCleared(ok: bool)
    | StartEstablish(running: bool)
    | FreshConnected(connack: Option<bool>, running: bool)
    | FreshClosed(ok: bool, running: bool)
    | PersistentConnected(connack: Option<bool>, running: bool)
    | StoppedClosed(ok: bool)
    | Cancel

  /** A clean connect that finds a session succeeds only under the accepting policy. */
  predicate Reconciles(s: State, cleanSession: bool, connack: Option<bool>) {
    cleanSession && connack == Some(true) ==> s.acceptsMismatch
  }

  /** The driver holds the event loop exclusively, so the loop's own events need it idle. */
  predicate Enabled(s: State, e: Event) {
    match e
    case Request => true
    case Complete => true
    case FailObservation(o, _) => o < |s.observations|
    case OrdinaryEstablish => s.driver.Idle?
    case OrdinaryDisconnect => s.driver.Idle?
    case ChangeIdentity(_) => s.driver.Idle?
    case StartAbandon => s.driver.Idle?
    case CandidateClosed(_) => s.driver.AbandonClosing?
    case CheckpointCleared(_) => s.driver.AbandonClearing?
    case StartEstablish(_) => s.driver.Idle?
    case FreshConnected(connack, _) => s.driver.ConnectingFresh? && Reconciles(s, true, connack)
    case FreshClosed(_, _) => s.driver.ClosingFresh?
    case PersistentConnected(connack, _) => s.driver.ConnectingPersistent? && Reconciles(s, s.cleanSession, connack)
    case StoppedClosed(_) => s.driver.ClosingStopped?
    case Cancel => !s.driver.Idle?
  }

  function Observe(s: State, o: nat, snapshot: Snapshot): State {
    if o < |s.observations| then s.(observations := s.observations[o := snapshot]) else s
  }

  function At(s: State, o: nat): Snapshot {
    if o < |s.observations| then s.observations[o] else NEW_SNAPSHOT
  }

  /** The outstanding observation, if the identity it was requested for still holds. */
  predicate CanDrive(s: State) {
    s.gate.recovery.Some? && s.gate.identity == s.optionsIdentity
  }

  function BeginPersistent(s: State, o: nat): State {
    Observe(s, o, At(s, o).InPhase(EstablishingPersistent)).(driver := ConnectingPersistent(o))
  }

  function Release(s: State): State {
    s.(driver := Idle)
  }

  function GateClosed(s: State): State {
    s.(gate := s.gate.Disconnected(s.optionsIdentity))
  }

  function GateEstablished(s: State): State {
    s.(gate := s.gate.Establish(s.optionsIdentity))
  }

  function AfterComplete(s: State): State {
    var observed :=
      if s.gate.recovery.None? then s
      else Observe(s, s.gate.recovery.value, At(s, s.gate.recovery.value).InPhase(Completed));
    observed.(gate := s.gate.(recovery := None, connected := true))
  }

  function OwnerStep(s: State, e: Event): State
    requires e.Request? || e.Complete? || e.FailObservation?
  {
    match e
    case Request =>
      if s.gate.connected || s.gate.recovery.Some? then s
      else s.(gate := s.gate.(recovery := Some(|s.observations|)), observations := s.observations + [NEW_SNAPSHOT])
    case Complete => AfterComplete(s)
    case FailObservation(o, interrupted) => Observe(s, o, At(s, o).Fail(interrupted))
  }

  function StartStep(s: State, e: Event): State
    requires e.StartAbandon? || e.StartEstablish?
  {
    if !CanDrive(s) then s
    else
      var o := s.gate.recovery.value;
      if e.StartAbandon? then
        if At(s, o).phase != Quiescing then s
        else Observe(s, o, At(s, o).InPhase(Abandoning)).(driver := AbandonClosing(o))
      else if !At(s, o).abandonmentCommitted || !At(s, o).checkpointCleared || !e.running then s
      else if s.cleanFinished then BeginPersistent(s, o)
      else Observe(s, o, At(s, o).InPhase(EstablishingFresh)).(driver := ConnectingFresh(o, !s.cleanSession), cleanSession := true)
  }

  function CandidateStep(s: State, ok: bool): State
    requires s.driver.AbandonClosing?
  {
    var o := s.driver.o;
    if !ok then Release(s)
    else Observe(GateClosed(s), o, At(s, o).Abandoned().InPhase(ClearingCheckpoint)).(cleanFinished := false, driver := AbandonClearing(o))
  }

  function CheckpointStep(s: State, ok: bool): State
    requires s.driver.AbandonClearing?
  {
    var o := s.driver.o;
    if !ok then Release(s) else Observe(Release(s), o, At(s, o).Cleared().InPhase(EstablishingFresh))
  }

  /** A stopped recovery retires its candidate connection before it gives up. */
  function FreshStep(s: State, connack: Option<bool>, running: bool): State
    requires s.driver.ConnectingFresh?
  {
    var o := s.driver.o;
    var restored := Release(s).(cleanSession := !s.driver.persistent);
    if connack.None? then restored
    else if !running then GateEstablished(restored).(driver := ClosingStopped(o))
    else if !s.driver.persistent then Observe(GateEstablished(restored), o, At(s, o).Established(connack.value))
    else Observe(GateEstablished(restored), o, At(s, o).InPhase(CleanDisconnect)).(driver := ClosingFresh(o))
  }

  function PersistentStep(s: State, connack: Option<bool>, running: bool): State
    requires s.driver.ConnectingPersistent?
  {
    var o := s.driver.o;
    if connack.None? then Release(s)
    else if !running then GateEstablished(s).(driver := ClosingStopped(o))
    else if connack.value then GateEstablished(Release(s))
    else Observe(GateEstablished(Release(s)), o, At(s, o).Established(false))
  }

  function CloseStep(s: State, e: Event): State
    requires (e.FreshClosed? && s.driver.ClosingFresh?) || (e.StoppedClosed? && s.driver.ClosingStopped?)
  {
    if !e.ok then Release(s)
    else if e.StoppedClosed? then Release(GateClosed(s))
    else
      var finished := GateClosed(s).(cleanFinished := true);
      if e.running then BeginPersistent(finished, s.driver.o) else Release(finished)
  }

  function Apply(s: State, e: Event): State
    requires Enabled(s, e)
  {
    match e
    case OrdinaryEstablish => GateEstablished(s)
    case OrdinaryDisconnect => GateClosed(s)
    case ChangeIdentity(id) => s.(optionsIdentity := id)
    case StartAbandon => StartStep(s, e)
    case StartEstablish(_) => StartStep(s, e)
    case CandidateClosed(ok) => CandidateStep(s, ok)
    case CheckpointCleared(ok) => CheckpointStep(s, ok)
    case FreshConnected(connack, running) => FreshStep(s, connack, running)
    case PersistentConnected(connack, running) => PersistentStep(s, connack, running)
    case FreshClosed(_, _) => CloseStep(s, e)
    case StoppedClosed(_) => CloseStep(s, e)
    case Cancel => Release(s)
    case _ => OwnerStep(s, e)
  }

  ghost predicate IsRun(trace: seq<State>, events: seq<Event>) {
    && |trace| == |events| + 1
    && Initial(trace[0])
    && forall i :: 0 <= i < |events| ==> StepAt(trace, events, i)
  }

  ghost predicate StepAt(trace: seq<State>, events: seq<Event>, i: nat)
    requires |trace| == |events| + 1 && i < |events|
  {
    Enabled(trace[i], events[i]) && trace[i + 1] == Apply(trace[i], events[i])
  }

  // ---- The invariant ----

  predicate Ordered(o: Snapshot) {
    && (o.freshEstablished ==> o.checkpointCleared)
    && (o.checkpointCleared ==> o.abandonmentCommitted)
    && (o.failurePhase.Some? <==> o.phase.Failed? || o.phase.Interrupted?)
  }

  predicate DriverOk(s: State) {
    match s.driver
    case Idle => true
    case AbandonClosing(o) => o < |s.observations|
    case AbandonClearing(o) => o < |s.observations| && s.observations[o].abandonmentCommitted
    case ConnectingFresh(o, _) => o < |s.observations| && s.observations[o].checkpointCleared
    case ClosingFresh(o) => o < |s.observations| && s.observations[o].checkpointCleared
    case ConnectingPersistent(o) => o < |s.observations| && s.observations[o].checkpointCleared
    case ClosingStopped(o) => o < |s.observations|
  }

  predicate Inv(s: State) {
    && (forall o :: 0 <= o < |s.observations| ==> Ordered(s.observations[o]))
    && (s.gate.recovery.Some? ==> !s.gate.connected && s.gate.recovery.value < |s.observations|)
    && DriverOk(s)
  }

  /** One observation never goes backwards. */
  predicate Grows(before: Snapshot, after: Snapshot) {
    && (Terminal(before.phase) ==> after.phase == before.phase && after.failurePhase == before.failurePhase)
    && (before.abandonmentCommitted ==> after.abandonmentCommitted)
    && (before.checkpointCleared ==> after.checkpointCleared)
    && (before.freshEstablished ==> after.freshEstablished)
  }

  predicate AllGrow(s: State, s': State) {
    |s.observations| <= |s'.observations| && forall o :: 0 <= o < |s.observations| ==> Grows(s.observations[o], s'.observations[o])
  }

  /** An outstanding recovery that stays outstanding keeps the gate as it is. */
  predicate GateFrozen(s: State, s': State) {
    s.gate.recovery.Some? && s'.gate.recovery.Some? ==> s'.gate == s.gate && |s'.observations| == |s.observations|
  }

  predicate Good(s: State, s': State) {
    Inv(s') && AllGrow(s, s') && GateFrozen(s, s')
  }

  lemma OwnerGood(s: State, e: Event)
    requires Inv(s) && Enabled(s, e) && (e.Request? || e.Complete? || e.FailObservation?)
    ensures Good(s, OwnerStep(s, e))
  {
  }

  /** Writing one record and moving the driver: all that is left to show is about that record. */
  lemma WriteGood(s: State, o: nat, snapshot: Snapshot, driver: Driver)
    requires Inv(s) && o < |s.observations| && Ordered(snapshot) && Grows(s.observations[o], snapshot)
    requires DriverOk(Observe(s, o, snapshot).(driver := driver))
    ensures Good(s, Observe(s, o, snapshot).(driver := driver))
  {
  }

  lemma BeginPersistentGood(s: State, o: nat)
    requires Inv(s) && o < |s.observations| && s.observations[o].checkpointCleared
    ensures Good(s, BeginPersistent(s, o))
  {
    WriteGood(s, o, s.observations[o].InPhase(EstablishingPersistent), ConnectingPersistent(o));
  }

  lemma StartGood(s: State, e: Event)
    requires Inv(s) && s.driver.Idle? && (e.StartAbandon? || e.StartEstablish?)
    ensures Good(s, StartStep(s, e))
  {
    if CanDrive(s) {
      var o := s.gate.recovery.value;
      var snapshot := s.observations[o];
      if e.StartAbandon? {
        WriteGood(s, o, snapshot.InPhase(Abandoning), AbandonClosing(o));
      } else if snapshot.checkpointCleared {
        BeginPersistentGood(s, o);
        WriteGood(s, o, snapshot.InPhase(EstablishingFresh), ConnectingFresh(o, !s.cleanSession));
      }
    }
  }

  lemma CandidateGood(s: State, ok: bool)
    requires Inv(s) && s.driver.AbandonClosing?
    ensures Good(s, CandidateStep(s, ok))
  {
  }

  lemma CheckpointGood(s: State, ok: bool)
    requires Inv(s) && s.driver.AbandonClearing?
    ensures Good(s, CheckpointStep(s, ok))
  {
  }

  lemma FreshGood(s: State, connack: Option<bool>, running: bool)
    requires Inv(s) && s.driver.ConnectingFresh?
    ensures Good(s, FreshStep(s, connack, running))
  {
    if connack.Some? && running {
      FreshWriteGood(s, connack.value);
    }
  }

  lemma FreshWriteGood(s: State, sessionPresent: bool)
    requires Inv(s) && s.driver.ConnectingFresh?
    ensures Good(s, FreshStep(s, Some(sessionPresent), true))
  {
    var o, established := s.driver.o, GateEstablished(s);
    if s.driver.persistent {
      WriteGood(established, o, s.observations[o].InPhase(CleanDisconnect), ClosingFresh(o));
    } else {
      WriteGood(established, o, s.observations[o].Established(sessionPresent), Idle);
    }
  }

  lemma PersistentGood(s: State, connack: Option<bool>, running: bool)
    requires Inv(s) && s.driver.ConnectingPersistent?
    ensures Good(s, PersistentStep(s, connack, running))
  {
  }

  lemma CloseGood(s: State, e: Event)
    requires Inv(s) && CloseStep.requires(s, e)
    ensures Good(s, CloseStep(s, e))
  {
    if e.ok && e.FreshClosed? && e.running {
      BeginPersistentGood(GateClosed(s).(cleanFinished := true), s.driver.o);
    }
  }

  lemma StepGood(s: State, e: Event)
    requires Inv(s) && Enabled(s, e)
    ensures Good(s, Apply(s, e))
  {
    match e
    case Request => OwnerGood(s, e);
    case Complete => OwnerGood(s, e);
    case FailObservation(_, _) => OwnerGood(s, e);
    case StartAbandon => StartGood(s, e);
    case StartEstablish(_) => StartGood(s, e);
    case CandidateClosed(ok) => CandidateGood(s, ok);
    case CheckpointCleared(ok) => CheckpointGood(s, ok);
    case FreshConnected(connack, running) => FreshGood(s, connack, running);
    case PersistentConnected(connack, running) => PersistentGood(s, connack, running);
    case FreshClosed(_, _) => CloseGood(s, e);
    case StoppedClosed(_) => CloseGood(s, e);
    case _ =>
  }

  lemma {:induction false} RunKeepsInv(trace: seq<State>, events: seq<Event>, n: nat)
    requires IsRun(trace, events) && n < |trace|
    ensures Inv(trace[n])
  {
    if n > 0 {
      RunKeepsInv(trace, events, n - 1);
      assert StepAt(trace, events, n - 1);
      StepGood(trace[n - 1], events[n - 1]);
    }
  }

  lemma RunStepGrows(trace: seq<State>, events: seq<Event>, n: nat)
    requires IsRun(trace, events) && n < |events|
    ensures AllGrow(trace[n], trace[n + 1])
  {
    RunKeepsInv(trace, events, n);
    assert StepAt(trace, events, n);
    StepGood(trace[n], events[n]);
  }

  lemma RunStepFrozen(trace: seq<State>, events: seq<Event>, n: nat)
    requires IsRun(trace, events) && n < |events|
    ensures GateFrozen(trace[n], trace[n + 1])
  {
    RunKeepsInv(trace, events, n);
    assert StepAt(trace, events, n);
    StepGood(trace[n], events[n]);
  }

  lemma OutstandingIsDisconnected(trace: seq<State>, events: seq<Event>, n: nat)
    requires IsRun(trace, events) && n < |trace|
    ensures trace[n].gate.recovery.Some? ==> !trace[n].gate.connected
  {
    RunKeepsInv(trace, events, n);
  }

  // ---- Theorems ----

  /** In every run, freshness follows checkpoint clearing, which follows abandonment. */
  lemma RecoveryOrder(trace: seq<State>, events: seq<Event>, n: nat, o: nat)
    requires IsRun(trace, events) && n < |trace| && o < |trace[n].observations|
    ensures trace[n].observations[o].freshEstablished ==> trace[n].observations[o].checkpointCleared
    ensures trace[n].observations[o].checkpointCleared ==> trace[n].observations[o].abandonmentCommitted
  {
    RunKeepsInv(trace, events, n);
    assert Ordered(trace[n].observations[o]);
  }

  /** A terminal phase and the phase it failed in never change; commitments are never withdrawn. */
  lemma {:induction false} TerminalPhasesStay(trace: seq<State>, events: seq<Event>, m: nat, n: nat, o: nat)
    requires IsRun(trace, events) && m <= n < |trace| && o < |trace[m].observations|
    ensures o < |trace[n].observations| && Grows(trace[m].observations[o], trace[n].observations[o])
  {
    if m < n {
      TerminalPhasesStay(trace, events, m, n - 1, o);
      RunStepGrows(trace, events, n - 1);
      assert Grows(trace[n - 1].observations[o], trace[n].observations[o]);
    }
  }

  /** While a recovery is outstanding the gate is disconnected, its identity is frozen and no other starts. */
  lemma {:induction false} OutstandingRecoveryFreezesGate(trace: seq<State>, events: seq<Event>, m: nat, n: nat)
    requires IsRun(trace, events) && m <= n < |trace| && trace[m].gate.recovery.Some?
    requires forall k :: m <= k <= n ==> trace[k].gate.recovery.Some?
    ensures !trace[n].gate.connected
    ensures trace[n].gate.identity == trace[m].gate.identity && trace[n].gate.recovery == trace[m].gate.recovery
    ensures |trace[n].observations| == |trace[m].observations|
  {
    OutstandingIsDisconnected(trace, events, n);
    if m < n {
      OutstandingRecoveryFreezesGate(trace, events, m, n - 1);
      RunStepFrozen(trace, events, n - 1);
    }
  }

  /** Options are intact when no connect attempt is under way. */
  predicate Intact(s: State) {
    match s.driver
    case ConnectingFresh(_, persistent) => persistent == !s.configuredClean && s.cleanSession
    case _ => s.cleanSession == s.configuredClean
  }

  predicate PersistentRecordsAbsent(s: State) {
    !s.configuredClean ==> forall o :: 0 <= o < |s.observations| && s.observations[o].freshEstablished ==>
      s.observations[o].rawSessionPresent == Some(false)
  }

  /** Cancelling at the fresh connect is the one step that loses the configured persistence. */
  predicate LosesPersistence(s: State, e: Event) {
    e == Cancel && s.driver.ConnectingFresh? && s.driver.persistent
  }

  lemma IntactStep(s: State, e: Event)
    requires Enabled(s, e) && Intact(s)
    ensures Intact(Apply(s, e)) <==> !LosesPersistence(s, e)
  {
    if e.FreshConnected? || e.PersistentConnected? || e.FreshClosed? || e.StoppedClosed? {
      ConnectIntact(s, e);
    } else {
      match e
      case Request => assert Intact(OwnerStep(s, e));
      case Complete => assert Intact(OwnerStep(s, e));
      case FailObservation(_, _) => assert Intact(OwnerStep(s, e));
      case StartAbandon => assert Intact(StartStep(s, e));
      case StartEstablish(_) => assert Intact(StartStep(s, e));
      case _ =>
    }
  }

  lemma ConnectIntact(s: State, e: Event)
    requires Enabled(s, e) && Intact(s) && (e.FreshConnected? || e.PersistentConnected? || e.FreshClosed? || e.StoppedClosed?)
    ensures Intact(Apply(s, e))
  {
    if e.FreshConnected? {
      assert Intact(FreshStep(s, e.connack, e.running));
    } else if e.PersistentConnected? {
      assert Intact(PersistentStep(s, e.connack, e.running));
    } else {
      assert Intact(CloseStep(s, e));
    }
  }

  predicate SameRecords(s: State, s': State) {
    && s'.configuredClean == s.configuredClean
    && |s.observations| <= |s'.observations|
    && (forall o :: 0 <= o < |s.observations| ==>
          && s'.observations[o].freshEstablished == s.observations[o].freshEstablished
          && s'.observations[o].rawSessionPresent == s.observations[o].rawSessionPresent)
    && (forall o :: |s.observations| <= o < |s'.observations| ==> s'.observations[o] == NEW_SNAPSHOT)
  }

  lemma OwnerKeepsRecords(s: State, e: Event)
    requires e.Request? || e.Complete? || e.FailObservation?
    ensures SameRecords(s, OwnerStep(s, e))
  {
  }

  lemma StartKeepsRecords(s: State, e: Event)
    requires e.StartAbandon? || e.StartEstablish?
    ensures SameRecords(s, StartStep(s, e))
  {
  }

  lemma CloseKeepsRecords(s: State, e: Event)
    requires CloseStep.requires(s, e)
    ensures SameRecords(s, CloseStep(s, e))
  {
  }

  lemma AbandonKeepsRecords(s: State, ok: bool)
    ensures Enabled(s, CandidateClosed(ok)) ==> SameRecords(s, CandidateStep(s, ok))
    ensures Enabled(s, CheckpointCleared(ok)) ==> SameRecords(s, CheckpointStep(s, ok))
  {
  }

  /** Only a finished connect attempt writes the record. */
  lemma RecordsUntouched(s: State, e: Event)
    requires Enabled(s, e) && !e.FreshConnected? && !e.PersistentConnected?
    ensures SameRecords(s, Apply(s, e))
  {
    match e
    case Request => OwnerKeepsRecords(s, e);
    case Complete => OwnerKeepsRecords(s, e);
    case FailObservation(_, _) => OwnerKeepsRecords(s, e);
    case StartAbandon => StartKeepsRecords(s, e);
    case StartEstablish(_) => StartKeepsRecords(s, e);
    case FreshClosed(_, _) => CloseKeepsRecords(s, e);
    case StoppedClosed(_) => CloseKeepsRecords(s, e);
    case CandidateClosed(ok) => AbandonKeepsRecords(s, ok);
    case CheckpointCleared(ok) => AbandonKeepsRecords(s, ok);
    case _ =>
  }

  /** The options ask for a clean session although a persistent one was configured, and nothing will put them back. */
  predicate Forgotten(s: State) {
    && !s.configuredClean && s.cleanSession
    && (s.driver.ConnectingFresh? ==> !s.driver.persistent)
  }

  lemma ForgottenStays(s: State, e: Event)
    requires Enabled(s, e) && Forgotten(s)
    ensures Forgotten(Apply(s, e))
  {
  }

  lemma LosingForgets(s: State, e: Event)
    requires Enabled(s, e) && Intact(s) && LosesPersistence(s, e)
    ensures Forgotten(Apply(s, e))
  {
  }

  /** Exactly the runs without a connect future dropped there keep what the user configured. */
  lemma {:induction false} IntactExactly(trace: seq<State>, events: seq<Event>, n: nat)
    requires IsRun(trace, events) && n < |trace|
    ensures Intact(trace[n]) <==> forall i :: 0 <= i < n ==> !LosesPersistence(trace[i], events[i])
    ensures Intact(trace[n]) || Forgotten(trace[n])
  {
    if n > 0 {
      IntactExactly(trace, events, n - 1);
      assert StepAt(trace, events, n - 1);
      if Intact(trace[n - 1]) {
        IntactStep(trace[n - 1], events[n - 1]);
        if LosesPersistence(trace[n - 1], events[n - 1]) {
          LosingForgets(trace[n - 1], events[n - 1]);
        }
      } else {
        ForgottenStays(trace[n - 1], events[n - 1]);
      }
    }
  }

  /** A connect that was made with a clean session is recorded as a persistent configuration's recovery. */
  predicate RecordsCleanConnect(s: State, e: Event) {
    && e.FreshConnected? && e.connack.Some? && e.running
    && s.driver.ConnectingFresh? && !s.driver.persistent && !s.configuredClean
  }

  /** And the server had reported a session. */
  predicate Misrecords(s: State, e: Event) {
    RecordsCleanConnect(s, e) && e.connack == Some(true)
  }

  lemma FreshRecords(s: State, connack: Option<bool>, running: bool)
    requires s.driver.ConnectingFresh? && s.driver.o < |s.observations| && PersistentRecordsAbsent(s)
    ensures PersistentRecordsAbsent(FreshStep(s, connack, running)) <==> !Misrecords(s, FreshConnected(connack, running))
  {
    if Misrecords(s, FreshConnected(connack, running)) {
      assert FreshStep(s, connack, running).observations[s.driver.o].freshEstablished;
    }
  }

  lemma PersistentRecords(s: State, connack: Option<bool>, running: bool)
    requires s.driver.ConnectingPersistent? && PersistentRecordsAbsent(s)
    ensures PersistentRecordsAbsent(PersistentStep(s, connack, running))
  {
  }

  lemma RecordsStep(s: State, e: Event)
    requires Inv(s) && Enabled(s, e) && PersistentRecordsAbsent(s)
    ensures PersistentRecordsAbsent(Apply(s, e)) <==> !Misrecords(s, e)
  {
    match e
    case FreshConnected(connack, running) => FreshRecords(s, connack, running);
    case PersistentConnected(connack, running) => PersistentRecords(s, connack, running);
    case _ => RecordsUntouched(s, e);
  }

  /** Every established record of a persistent configuration says Session Present false, exactly until a step misrecords. */
  lemma {:induction false} RecordsExactly(trace: seq<State>, events: seq<Event>, n: nat)
    requires IsRun(trace, events) && n < |trace|
    ensures (forall k :: 0 <= k <= n ==> PersistentRecordsAbsent(trace[k])) <==> forall i :: 0 <= i < n ==> !Misrecords(trace[i], events[i])
  {
    if n > 0 {
      RecordsExactly(trace, events, n - 1);
      RunKeepsInv(trace, events, n - 1);
      assert StepAt(trace, events, n - 1);
      if PersistentRecordsAbsent(trace[n - 1]) {
        RecordsStep(trace[n - 1], events[n - 1]);
      }
    }
  }

  predicate SameConfiguration(s: State, s': State) {
    s'.acceptsMismatch == s.acceptsMismatch && s'.configuredClean == s.configuredClean
  }

  lemma ConnectKeepsConfiguration(s: State, e: Event)
    requires Enabled(s, e) && (e.FreshConnected? || e.PersistentConnected? || e.FreshClosed? || e.StoppedClosed?)
    ensures SameConfiguration(s, Apply(s, e))
  {
    if e.FreshConnected? {
      assert SameConfiguration(s, FreshStep(s, e.connack, e.running));
    } else if e.PersistentConnected? {
      assert SameConfiguration(s, PersistentStep(s, e.connack, e.running));
    } else {
      assert SameConfiguration(s, CloseStep(s, e));
    }
  }

  lemma StepKeepsConfiguration(s: State, e: Event)
    requires Enabled(s, e)
    ensures SameConfiguration(s, Apply(s, e))
  {
    match e
    case Request => assert SameConfiguration(s, OwnerStep(s, e));
    case Complete => assert SameConfiguration(s, OwnerStep(s, e));
    case FailObservation(_, _) => assert SameConfiguration(s, OwnerStep(s, e));
    case StartAbandon => assert SameConfiguration(s, StartStep(s, e));
    case StartEstablish(_) => assert SameConfiguration(s, StartStep(s, e));
    case CandidateClosed(ok) => assert SameConfiguration(s, CandidateStep(s, ok));
    case CheckpointCleared(ok) => assert SameConfiguration(s, CheckpointStep(s, ok));
    case OrdinaryEstablish =>
    case OrdinaryDisconnect =>
    case ChangeIdentity(_) =>
    case Cancel =>
    case _ => ConnectKeepsConfiguration(s, e);
  }

  lemma {:induction false} PolicyStays(trace: seq<State>, events: seq<Event>, n: nat)
    requires IsRun(trace, events) && n < |trace|
    ensures SameConfiguration(trace[0], trace[n])
  {
    if n > 0 {
      PolicyStays(trace, events, n - 1);
      assert StepAt(trace, events, n - 1);
      StepKeepsConfiguration(trace[n - 1], events[n - 1]);
    }
  }

  /** Under the default policy a persistent session is recorded established only with Session Present false, in every run. */
  lemma PersistentMeansSessionAbsent(trace: seq<State>, events: seq<Event>, n: nat)
    requires IsRun(trace, events) && n < |trace| && !trace[0].acceptsMismatch
    ensures PersistentRecordsAbsent(trace[n])
  {
    forall i | 0 <= i < n
      ensures !Misrecords(trace[i], events[i])
    {
      PolicyStays(trace, events, i);
      assert StepAt(trace, events, i);
    }
    RecordsExactly(trace, events, n);
  }

  /** A clean connect is recorded for a persistent configuration only after its connect future was dropped there. */
  lemma CleanRecordsFollowADrop(trace: seq<State>, events: seq<Event>, n: nat)
    requires IsRun(trace, events) && n < |events| && RecordsCleanConnect(trace[n], events[n])
    ensures exists i :: 0 <= i < n && LosesPersistence(trace[i], events[i])
  {
    IntactExactly(trace, events, n);
  }

  /** And from any state that has lost it with a committed recovery, the next successful connect does record it so. */
  lemma ForgottenRecordsCleanConnect(s: State, sessionPresent: bool)
    requires Forgotten(s) && s.driver.Idle? && !s.cleanFinished && CanDrive(s) && s.gate.recovery.value < |s.observations|
    requires At(s, s.gate.recovery.value).abandonmentCommitted && At(s, s.gate.recovery.value).checkpointCleared
    requires sessionPresent ==> s.acceptsMismatch
    ensures var connecting := Apply(s, StartEstablish(true));
            var e := FreshConnected(Some(sessionPresent), true);
            && Enabled(connecting, e) && RecordsCleanConnect(connecting, e)
            && Apply(connecting, e).observations[s.gate.recovery.value].freshEstablished
            && (Misrecords(connecting, e) <==> sessionPresent)
  {
  }

  /** A persistent configuration with one recovery outstanding. */
  function Driving(id: Identity, accepts: bool, snapshot: Snapshot, clean: bool, driver: Driver): State {
    State(GateState(false, id, Some(0)), [snapshot], id, false, clean, accepts, false, driver)
  }

  const COMMITTED := Snapshot(EstablishingFresh, None, true, true, false, None)

  ghost predicate Step(s: State, e: Event, s': State) {
    Enabled(s, e) && s' == Apply(s, e)
  }

  function Asleep(id: Identity, accepts: bool): State {
    State(GateState(false, id, None), [], id, false, false, accepts, false, Idle)
  }

  lemma AbandonSucceeds(id: Identity, accepts: bool)
    ensures var quiet := Driving(id, accepts, NEW_SNAPSHOT, false, Idle);
            var closing := Driving(id, accepts, NEW_SNAPSHOT.(phase := Abandoning), false, AbandonClosing(0));
            var clearing := Driving(id, accepts, Snapshot(ClearingCheckpoint, None, true, false, false, None), false, AbandonClearing(0));
            && Apply(quiet, StartAbandon) == closing
            && Apply(closing, CandidateClosed(true)) == clearing
            && Apply(clearing, CheckpointCleared(true)) == Driving(id, accepts, COMMITTED, false, Idle)
  {
  }

  lemma CancelThenConnect(id: Identity, accepts: bool, sessionPresent: bool)
    ensures var connecting := Driving(id, accepts, COMMITTED, true, ConnectingFresh(0, true));
            var forgetful := Driving(id, accepts, COMMITTED, true, ConnectingFresh(0, false));
            && Apply(Driving(id, accepts, COMMITTED, false, Idle), StartEstablish(true)) == connecting
            && Apply(connecting, Cancel) == Driving(id, accepts, COMMITTED, true, Idle)
            && Apply(Driving(id, accepts, COMMITTED, true, Idle), StartEstablish(true)) == forgetful
            && FreshStep(forgetful, Some(sessionPresent), true) == Driving(id, accepts, COMMITTED.Established(sessionPresent), true, Idle)
  {
  }

  lemma AbandonedRun(id: Identity, accepts: bool) returns (trace: seq<State>, events: seq<Event>)
    ensures Leads(Step, trace, events, Asleep(id, accepts), Driving(id, accepts, COMMITTED, false, Idle))
  {
    var s0 := Asleep(id, accepts);
    var s1 := Driving(id, accepts, NEW_SNAPSHOT, false, Idle);
    var s2 := Driving(id, accepts, NEW_SNAPSHOT.(phase := Abandoning), false, AbandonClosing(0));
    var s3 := Driving(id, accepts, Snapshot(ClearingCheckpoint, None, true, false, false, None), false, AbandonClearing(0));
    trace, events := [s0], [];
    Extend(Step, trace, events, s0, s0, Request, s1);
    trace, events := trace + [s1], events + [Request];
    AbandonSucceeds(id, accepts);
    Extend(Step, trace, events, s0, s1, StartAbandon, s2);
    trace, events := trace + [s2], events + [StartAbandon];
    Extend(Step, trace, events, s0, s2, CandidateClosed(true), s3);
    trace, events := trace + [s3], events + [CandidateClosed(true)];
    var s4 := Driving(id, accepts, COMMITTED, false, Idle);
    Extend(Step, trace, events, s0, s3, CheckpointCleared(true), s4);
    trace, events := trace + [s4], events + [CheckpointCleared(true)];
  }

  lemma ForgetfulRun(id: Identity, accepts: bool) returns (trace: seq<State>, events: seq<Event>)
    ensures Leads(Step, trace, events, Asleep(id, accepts), Driving(id, accepts, COMMITTED, true, ConnectingFresh(0, false)))
  {
    var start := Asleep(id, accepts);
    trace, events := AbandonedRun(id, accepts);
    CancelThenConnect(id, accepts, false);
    var s0, s1 := Driving(id, accepts, COMMITTED, false, Idle), Driving(id, accepts, COMMITTED, true, ConnectingFresh(0, true));
    Extend(Step, trace, events, start, s0, StartEstablish(true), s1);
    trace, events := trace + [s1], events + [StartEstablish(true)];
    var s2, s3 := Driving(id, accepts, COMMITTED, true, Idle), Driving(id, accepts, COMMITTED, true, ConnectingFresh(0, false));
    Extend(Step, trace, events, start, s1, Cancel, s2);
    trace, events := trace + [s2], events + [Cancel];
    Extend(Step, trace, events, start, s2, StartEstablish(true), s3);
    trace, events := trace + [s3], events + [StartEstablish(true)];
  }

  lemma LeadsIsRun(trace: seq<State>, events: seq<Event>, id: Identity, accepts: bool, s: State)
    requires Leads(Step, trace, events, Asleep(id, accepts), s)
    ensures IsRun(trace, events) && trace[|trace| - 1] == s
  {
    forall i | 0 <= i < |events|
      ensures StepAt(trace, events, i)
    {
      assert Step(trace[i], events[i], trace[i + 1]);
    }
  }

  /**
   * Dropping the connect future at the fresh connect leaves the options asking for a clean session.
   * A later attempt then records the clean connect as the recovery of a persistent configuration,
   * which never connects persistently; and under the accepting policy even one that found a session.
   */
  lemma CancelledConnectForgetsPersistence(id: Identity, accepts: bool, sessionPresent: bool)
    returns (trace: seq<State>, events: seq<Event>)
    requires sessionPresent ==> accepts
    ensures IsRun(trace, events) && |events| > 0 && trace[0].acceptsMismatch == accepts
    ensures var n := |events| - 1;
            && RecordsCleanConnect(trace[n], events[n])
            && trace[n + 1] == Driving(id, accepts, COMMITTED.Established(sessionPresent), true, Idle)
            && (PersistentRecordsAbsent(trace[n + 1]) <==> !sessionPresent)
  {
    trace, events := ForgetfulRun(id, accepts);
    CancelThenConnect(id, accepts, sessionPresent);
    var s0 := Driving(id, accepts, COMMITTED, true, ConnectingFresh(0, false));
    var s1 := Driving(id, accepts, COMMITTED.Established(sessionPresent), true, Idle);
    var e := FreshConnected(Some(sessionPresent), true);
    Extend(Step, trace, events, Asleep(id, accepts), s0, e, s1);
    trace, events := trace + [s1], events + [e];
    LeadsIsRun(trace, events, id, accepts, s1);
    assert s1.observations[0].freshEstablished;
  }
}
