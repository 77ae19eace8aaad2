/** What the recovery drivers do at each await, read off the records they leave. */
module RecoveryProgress {
  import opened Common
  import opened Recovery

  // ---- The recorded phase says where the driver is ----

  predicate Shows(s: State, o: nat, p: Phase) {
    o < |s.observations| && (Terminal(s.observations[o].phase) || s.observations[o].phase == p)
  }

  predicate DriverShows(s: State) {
    match s.driver
    case Idle => true
    case AbandonClosing(o) => Shows(s, o, Abandoning)
    case AbandonClearing(o) => Shows(s, o, ClearingCheckpoint)
    case ConnectingFresh(o, _) => Shows(s, o, EstablishingFresh)
    case ClosingFresh(o) => Shows(s, o, CleanDisconnect)
    case ConnectingPersistent(o) => Shows(s, o, EstablishingPersistent)
    case ClosingStopped(o) => Shows(s, o, EstablishingFresh) || Shows(s, o, EstablishingPersistent)
  }

  lemma OwnerShows(s: State, e: Event)
    requires Inv(s) && DriverShows(s) && Enabled(s, e) && (e.Request? || e.Complete? || e.FailObservation?)
    ensures DriverShows(OwnerStep(s, e))
  {
  }

  lemma StartShows(s: State, e: Event)
    requires Inv(s) && DriverShows(s) && s.driver.Idle? && (e.StartAbandon? || e.StartEstablish?)
    ensures DriverShows(StartStep(s, e))
  {
  }

  lemma ConnectShows(s: State, e: Event)
    requires Inv(s) && DriverShows(s) && Enabled(s, e) && (e.FreshConnected? || e.PersistentConnected?)
    ensures DriverShows(Apply(s, e))
  {
    if e.FreshConnected? {
      assert DriverShows(FreshStep(s, e.connack, e.running));
    } else {
      assert DriverShows(PersistentStep(s, e.connack, e.running));
    }
  }

  lemma CloseShows(s: State, e: Event)
    requires Inv(s) && DriverShows(s) && Enabled(s, e) && (e.FreshClosed? || e.StoppedClosed?)
    ensures DriverShows(CloseStep(s, e))
  {
  }

  lemma AbandonShows(s: State, ok: bool)
    requires Inv(s) && DriverShows(s)
    ensures s.driver.AbandonClosing? ==> DriverShows(CandidateStep(s, ok))
    ensures s.driver.AbandonClearing? ==> DriverShows(CheckpointStep(s, ok))
  {
  }

  lemma StepShows(s: State, e: Event)
    requires Inv(s) && DriverShows(s) && Enabled(s, e)
    ensures DriverShows(Apply(s, e))
  {
    if e.Request? || e.Complete? || e.FailObservation? {
      OwnerShows(s, e);
    } else if e.StartAbandon? || e.StartEstablish? {
      StartShows(s, e);
    } else if e.FreshConnected? || e.PersistentConnected? {
      ConnectShows(s, e);
    } else if e.FreshClosed? || e.StoppedClosed? {
      CloseShows(s, e);
    } else if e.CandidateClosed? || e.CheckpointCleared? {
      AbandonShows(s, e.ok);
    }
  }

  /** In every run, an observation that has not ended shows the phase its driver is in. */
  lemma {:induction false} PhaseFollowsDriver(trace: seq<State>, events: seq<Event>, n: nat)
    requires IsRun(trace, events) && n < |trace|
    ensures DriverShows(trace[n])
  {
    if n > 0 {
      PhaseFollowsDriver(trace, events, n - 1);
      RunKeepsInv(trace, events, n - 1);
      assert StepAt(trace, events, n - 1);
      StepShows(trace[n - 1], events[n - 1]);
    }
  }

  // ---- What is committed, and when ----

  predicate Abandons(s: State, e: Event, o: nat) {
    s.driver == AbandonClosing(o) && e == CandidateClosed(true)
  }

  predicate Clears(s: State, e: Event, o: nat) {
    s.driver == AbandonClearing(o) && e == CheckpointCleared(true)
  }

  /** A connect that succeeded while the recovery was still wanted: clean where that was configured, otherwise with the session gone. */
  predicate Establishes(s: State, e: Event, o: nat) {
    || (s.driver == ConnectingFresh(o, false) && e.FreshConnected? && e.connack.Some? && e.running)
    || (s.driver == ConnectingPersistent(o) && e == PersistentConnected(Some(false), true))
  }

  /** Where the driver goes from its await. */
  function NextAwait(d: Driver, e: Event): Driver
    requires !d.Idle?
  {
    match d
    case AbandonClosing(o) => if e == CandidateClosed(true) then AbandonClearing(o) else Idle
    case ConnectingFresh(o, persistent) =>
      if !e.FreshConnected? || e.connack.None? then Idle
      else if !e.running then ClosingStopped(o) else if persistent then ClosingFresh(o) else Idle
    case ClosingFresh(o) => if e == FreshClosed(true, true) then ConnectingPersistent(o) else Idle
    case ConnectingPersistent(o) => if e.PersistentConnected? && e.connack.Some? && !e.running then ClosingStopped(o) else Idle
    case _ => Idle
  }

  /** The events that end an await. */
  predicate Resumes(e: Event) {
    || e.CandidateClosed? || e.CheckpointCleared? || e.FreshConnected? || e.FreshClosed?
    || e.PersistentConnected? || e.StoppedClosed? || e.Cancel?
  }

  /** A stopped recovery closes its candidate before it gives up, and every other failure gives up at once. */
  lemma AwaitsExactly(s: State, e: Event)
    requires Enabled(s, e) && Resumes(e)
    ensures Apply(s, e).driver == NextAwait(s.driver, e)
  {
    if e.FreshConnected? {
      assert Apply(s, e) == FreshStep(s, e.connack, e.running);
    } else if e.PersistentConnected? {
      assert Apply(s, e) == PersistentStep(s, e.connack, e.running);
    } else if e.FreshClosed? || e.StoppedClosed? {
      assert Apply(s, e) == CloseStep(s, e);
    } else if e.CandidateClosed? {
      assert Apply(s, e) == CandidateStep(s, e.ok);
    } else if e.CheckpointCleared? {
      assert Apply(s, e) == CheckpointStep(s, e.ok);
    }
  }

  predicate CommitsAt(s: State, e: Event, s': State, o: nat)
    requires o < |s.observations| && o < |s'.observations|
  {
    var before, after := s.observations[o], s'.observations[o];
    && (after.abandonmentCommitted <==> before.abandonmentCommitted || Abandons(s, e, o))
    && (after.checkpointCleared <==> before.checkpointCleared || Clears(s, e, o))
    && (after.freshEstablished <==> before.freshEstablished || Establishes(s, e, o))
    && (after.rawSessionPresent == if Establishes(s, e, o) then e.connack else before.rawSessionPresent)
    && (Abandons(s, e, o) && !Terminal(before.phase) ==> after.phase == ClearingCheckpoint)
    && (Clears(s, e, o) && !Terminal(before.phase) ==> after.phase == EstablishingFresh)
  }

  lemma FreshCommits(s: State, e: Event, o: nat)
    requires Inv(s) && Enabled(s, e) && o < |s.observations| && e.FreshConnected?
    ensures var s' := FreshStep(s, e.connack, e.running); |s'.observations| == |s.observations| && CommitsAt(s, e, s', o)
  {
  }

  lemma PersistentCommits(s: State, e: Event, o: nat)
    requires Inv(s) && Enabled(s, e) && o < |s.observations| && e.PersistentConnected?
    ensures var s' := PersistentStep(s, e.connack, e.running); |s'.observations| == |s.observations| && CommitsAt(s, e, s', o)
  {
  }

  lemma CloseCommits(s: State, e: Event, o: nat)
    requires Inv(s) && Enabled(s, e) && o < |s.observations| && (e.FreshClosed? || e.StoppedClosed?)
    ensures |CloseStep(s, e).observations| == |s.observations| && CommitsAt(s, e, CloseStep(s, e), o)
  {
    if e.ok && e.FreshClosed? && e.running {
      BeginCommits(s, e, o);
    } else {
      assert CloseStep(s, e).observations == s.observations;
    }
  }

  lemma BeginCommits(s: State, e: Event, o: nat)
    requires Inv(s) && s.driver.ClosingFresh? && o < |s.observations| && e.FreshClosed?
    ensures var s' := BeginPersistent(GateClosed(s).(cleanFinished := true), s.driver.o);
            |s'.observations| == |s.observations| && CommitsAt(s, e, s', o)
  {
  }

  lemma AbandonCommits(s: State, e: Event, o: nat)
    requires Inv(s) && Enabled(s, e) && o < |s.observations| && (e.CandidateClosed? || e.CheckpointCleared?)
    ensures |Apply(s, e).observations| == |s.observations| && CommitsAt(s, e, Apply(s, e), o)
  {
    if e.CandidateClosed? {
      CandidateCommits(s, e, o);
    } else {
      CheckpointCommits(s, e, o);
    }
  }

  lemma CandidateCommits(s: State, e: Event, o: nat)
    requires Inv(s) && Enabled(s, e) && o < |s.observations| && e.CandidateClosed?
    ensures |CandidateStep(s, e.ok).observations| == |s.observations| && CommitsAt(s, e, CandidateStep(s, e.ok), o)
  {
  }

  lemma CheckpointCommits(s: State, e: Event, o: nat)
    requires Inv(s) && Enabled(s, e) && o < |s.observations| && e.CheckpointCleared?
    ensures |CheckpointStep(s, e.ok).observations| == |s.observations| && CommitsAt(s, e, CheckpointStep(s, e.ok), o)
  {
  }

  lemma StartCommits(s: State, e: Event, o: nat)
    requires Inv(s) && o < |s.observations| && (e.StartAbandon? || e.StartEstablish?)
    ensures o < |StartStep(s, e).observations| && CommitsAt(s, e, StartStep(s, e), o)
  {
  }

  lemma OwnerCommits(s: State, e: Event, o: nat)
    requires Inv(s) && Enabled(s, e) && o < |s.observations| && (e.Request? || e.Complete? || e.FailObservation?)
    ensures o < |OwnerStep(s, e).observations| && CommitsAt(s, e, OwnerStep(s, e), o)
  {
  }

  /** In every run each commitment is made by its own await and by nothing else. */
  lemma CommitsExactly(trace: seq<State>, events: seq<Event>, n: nat, o: nat)
    requires IsRun(trace, events) && n < |events| && o < |trace[n].observations|
    ensures o < |trace[n + 1].observations| && CommitsAt(trace[n], events[n], trace[n + 1], o)
  {
    RunKeepsInv(trace, events, n);
    assert StepAt(trace, events, n);
    var s, e := trace[n], events[n];
    if e.FreshConnected? {
      FreshCommits(s, e, o);
    } else if e.PersistentConnected? {
      PersistentCommits(s, e, o);
    } else if e.FreshClosed? || e.StoppedClosed? {
      CloseCommits(s, e, o);
    } else if e.CandidateClosed? || e.CheckpointCleared? {
      AbandonCommits(s, e, o);
    } else if e.StartAbandon? || e.StartEstablish? {
      StartCommits(s, e, o);
    } else if e.Request? || e.Complete? || e.FailObservation? {
      OwnerCommits(s, e, o);
    }
  }

  // ---- The gate follows its owner and the loop ----

  /**
   * A recovery starts, with a fresh record, exactly when none is outstanding and nothing is connected;
   * completing it connects; and the loop's own events move the gate only while none is outstanding.
   */
  lemma GateExactly(s: State, e: Event)
    requires Enabled(s, e) && (e.Request? || e.Complete? || e.OrdinaryEstablish? || e.OrdinaryDisconnect?)
    ensures var g, s' := s.gate, Apply(s, e);
            match e
            case Request =>
              if g.connected || g.recovery.Some? then s' == s
              else s'.gate == GateState(false, g.identity, Some(|s.observations|)) && s'.observations == s.observations + [NEW_SNAPSHOT]
            case Complete => s'.gate == GateState(true, g.identity, None)
            case OrdinaryEstablish => s'.gate == if g.recovery.Some? then g else GateState(true, s.optionsIdentity, None)
            case _ => s'.gate == GateState(false, if g.recovery.Some? then g.identity else s.optionsIdentity, g.recovery)
  {
  }

  // ---- When a driver starts, and where it resumes ----

  /** The candidate of the fresh connect was closed cleanly, and no abandonment has happened since. */
  predicate CleanDone(events: seq<Event>, n: nat)
    requires n <= |events|
  {
    && n > 0 && events[n - 1] != CandidateClosed(true)
    && ((events[n - 1].FreshClosed? && events[n - 1].ok) || CleanDone(events, n - 1))
  }

  lemma CleanStep(s: State, e: Event)
    requires Enabled(s, e)
    ensures Apply(s, e).cleanFinished <==> e != CandidateClosed(true) && ((e.FreshClosed? && e.ok) || s.cleanFinished)
  {
    if e.StartAbandon? || e.StartEstablish? {
      assert StartStep(s, e).cleanFinished == s.cleanFinished;
    } else if e.FreshConnected? {
      assert FreshStep(s, e.connack, e.running).cleanFinished == s.cleanFinished;
    } else if e.PersistentConnected? {
      assert PersistentStep(s, e.connack, e.running).cleanFinished == s.cleanFinished;
    } else if e.Request? || e.Complete? || e.FailObservation? {
      assert OwnerStep(s, e).cleanFinished == s.cleanFinished;
    }
  }

  lemma {:induction false} CleanFollowsHistory(trace: seq<State>, events: seq<Event>, n: nat)
    requires IsRun(trace, events) && n < |trace|
    ensures trace[n].cleanFinished <==> CleanDone(events, n)
  {
    if n > 0 {
      CleanFollowsHistory(trace, events, n - 1);
      assert StepAt(trace, events, n - 1);
      CleanStep(trace[n - 1], events[n - 1]);
    }
  }

  /** The recovery that is outstanding is `o`, and it is about the session of the options. */
  predicate Drives(s: State, o: nat) {
    s.gate.recovery == Some(o) && s.gate.identity == s.optionsIdentity && o < |s.observations|
  }

  predicate Committed(s: State, o: nat) {
    o < |s.observations| && s.observations[o].abandonmentCommitted && s.observations[o].checkpointCleared
  }

  lemma StartCases(s: State, e: Event, o: nat, persistent: bool)
    requires Inv(s) && s.driver.Idle? && (e.StartAbandon? || e.StartEstablish?)
    ensures StartStep(s, e).driver == AbandonClosing(o) <==> e == StartAbandon && Drives(s, o) && s.observations[o].phase == Quiescing
    ensures StartStep(s, e).driver == ConnectingPersistent(o) <==>
              e == StartEstablish(true) && Drives(s, o) && Committed(s, o) && s.cleanFinished
    ensures StartStep(s, e).driver == ConnectingFresh(o, persistent) <==>
              e == StartEstablish(true) && Drives(s, o) && Committed(s, o) && !s.cleanFinished && persistent == !s.cleanSession
  {
  }

  /**
   * In every run a driver starts exactly when it may: an abandonment from a quiescing recovery, an
   * establishment from a committed one; and establishment resumes with the persistent connect
   * exactly when the clean one is done with.
   */
  lemma StartsExactly(trace: seq<State>, events: seq<Event>, n: nat, o: nat, persistent: bool)
    requires IsRun(trace, events) && n < |events| && trace[n].driver.Idle?
    ensures var s, e, driver := trace[n], events[n], trace[n + 1].driver;
            && (driver == AbandonClosing(o) <==> e == StartAbandon && Drives(s, o) && s.observations[o].phase == Quiescing)
            && (driver == ConnectingPersistent(o) <==>
                  e == StartEstablish(true) && Drives(s, o) && Committed(s, o) && CleanDone(events, n))
            && (driver == ConnectingFresh(o, persistent) <==>
                  e == StartEstablish(true) && Drives(s, o) && Committed(s, o) && !CleanDone(events, n) && persistent == !s.cleanSession)
  {
    RunKeepsInv(trace, events, n);
    CleanFollowsHistory(trace, events, n);
    assert StepAt(trace, events, n);
    if events[n].StartAbandon? || events[n].StartEstablish? {
      StartCases(trace[n], events[n], o, persistent);
    } else {
      IdleStays(trace[n], events[n]);
    }
  }

  lemma IdleStays(s: State, e: Event)
    requires Enabled(s, e) && s.driver.Idle? && !e.StartAbandon? && !e.StartEstablish?
    ensures Apply(s, e).driver.Idle?
  {
    if e.Request? || e.Complete? || e.FailObservation? {
      assert Apply(s, e) == OwnerStep(s, e);
    }
  }
}
