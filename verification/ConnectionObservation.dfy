/**
 * Connection attempt observations: any number of attempt guards may be alive at once, and only
 * the newest may still change what is observed.
 */
module ConnectionObservation {
  import opened Common

  datatype Route = Origin | RedirectTransition | TemporaryTarget | PermanentTarget

  datatype Outcome = NoAttempt | Pending | Succeeded | Failed | Cancelled

  datatype Observed = Observed(
    originRevision: nat,
    phaseRevision: Option<nat>,
    route: Route,
    attempt: nat,
    attemptRoute: Route,
    attemptRevision: Option<nat>,
    outcome: Outcome,
    successfulRevision: Option<nat>)

  const INITIAL := Observed(0, None, Origin, 0, Origin, None, NoAttempt, None)

  function SaturatingIncrement(n: nat): nat {
    if n < U64_MAX then n + 1 else n
  }

  function AfterRoute(s: Observed, route: Route): Observed {
    s.(route := route, phaseRevision := if route != Origin then None else s.phaseRevision)
  }

  function AfterBegin(s: Observed): Observed {
    var revision := if s.route == Origin then Some(s.originRevision) else None;
    s.(attempt := SaturatingIncrement(s.attempt), attemptRoute := s.route, attemptRevision := revision,
       phaseRevision := revision, outcome := Pending)
  }

  function AfterFinish(s: Observed, attempt: nat, succeeded: bool): Observed {
    if s.attempt != attempt then s
    else
      s.(outcome := if succeeded then Succeeded else Failed,
         successfulRevision := if succeeded then s.attemptRevision else s.successfulRevision)
  }

  function AfterDrop(s: Observed, attempt: nat): Observed {
    if s.attempt != attempt then s else s.(outcome := Cancelled)
  }

  class Observation {
    var state: Observed

    constructor ()
      ensures state == INITIAL
    {
      state := INITIAL;
    }

    method SetOriginRevision(revision: nat)
      modifies this
      ensures state == old(state).(originRevision := revision)
    {
      state := state.(originRevision := revision);
    }

    method SetRoute(route: Route)
      modifies this
      ensures state == AfterRoute(old(state), route)
    {
      state := state.(route := route);
      if route != Origin {
        state := state.(phaseRevision := None);
      }
    }

    method BeginAttempt() returns (guard: AttemptObservation)
      modifies this
      ensures state == AfterBegin(old(state))
      ensures fresh(guard) && guard.observer == this && guard.attempt == state.attempt && !guard.finished
    {
      state := state.(attempt := SaturatingIncrement(state.attempt));
      state := state.(attemptRoute := state.route);
      state := state.(attemptRevision := if state.route == Origin then Some(state.originRevision) else None);
      state := state.(phaseRevision := state.attemptRevision);
      state := state.(outcome := Pending);
      guard := new AttemptObservation(this, state.attempt);
    }
  }

  class AttemptObservation {
    const observer: Observation
    const attempt: nat
    var finished: bool

    constructor (observer: Observation, attempt: nat)
      ensures this.observer == observer && this.attempt == attempt && !finished
    {
      this.observer, this.attempt, finished := observer, attempt, false;
    }

    method Finish(succeeded: bool)
      modifies this, observer
      ensures finished && observer.state == AfterFinish(old(observer.state), attempt, succeeded)
    {
      finished := true;
      if observer.state.attempt != attempt {
        return;
      }
      observer.state := observer.state.(outcome := if succeeded then Succeeded else Failed);
      if succeeded {
        observer.state := observer.state.(successfulRevision := observer.state.attemptRevision);
      }
    }

    /** Dropping a finished guard does nothing. */
    method Drop()
      modifies observer
      ensures observer.state == if finished then old(observer.state) else AfterDrop(old(observer.state), attempt)
    {
      if !finished {
        if observer.state.attempt != attempt {
          return;
        }
        observer.state := observer.state.(outcome := Cancelled);
      }
    }
  }

  // ---- Histories ----

  /** Guards are named by the order in which their attempts began. */
  datatype Event =
    | SetOriginRevision(revision: nat)
    | SetRoute(route: Route)
    | Begin
    | Finish(guard: nat, succeeded: bool)
    | Drop(guard: nat)

  datatype System = System(observed: Observed, guards: seq<Guard>)

  datatype Guard = Guard(attempt: nat, live: bool)

  predicate Enabled(s: System, e: Event) {
    match e
    case Finish(g, _) => g < |s.guards| && s.guards[g].live
    case Drop(g) => g < |s.guards| && s.guards[g].live
    case _ => true
  }

  function Retire(guards: seq<Guard>, g: nat): seq<Guard>
    requires g < |guards|
  {
    guards[g := guards[g].(live := false)]
  }

  function Apply(s: System, e: Event): System
    requires Enabled(s, e)
  {
    match e
    case SetOriginRevision(r) => s.(observed := s.observed.(originRevision := r))
    case SetRoute(route) => s.(observed := AfterRoute(s.observed, route))
    case Begin =>
      var o := AfterBegin(s.observed);
      System(o, s.guards + [Guard(o.attempt, true)])
    case Finish(g, ok) => System(AfterFinish(s.observed, s.guards[g].attempt, ok), Retire(s.guards, g))
    case Drop(g) => System(AfterDrop(s.observed, s.guards[g].attempt), Retire(s.guards, g))
  }

  /** The system after a history, or `None` if some event uses a guard that is not alive. */
  function Run(events: seq<Event>): Option<System> {
    if events == [] then Some(System(INITIAL, []))
    else
      var before := Run(events[..|events| - 1]);
      var last := events[|events| - 1];
      if before.None? || !Enabled(before.value, last) then None else Some(Apply(before.value, last))
  }

  // ---- What the history itself says ----

  function Begins(events: seq<Event>): nat {
    if events == [] then 0
    else Begins(events[..|events| - 1]) + if events[|events| - 1].Begin? then 1 else 0
  }

  function RouteNow(events: seq<Event>): Route {
    if events == [] then Origin
    else match events[|events| - 1]
         case SetRoute(route) => route
         case _ => RouteNow(events[..|events| - 1])
  }

  function RevisionNow(events: seq<Event>): nat {
    if events == [] then 0
    else match events[|events| - 1]
         case SetOriginRevision(r) => r
         case _ => RevisionNow(events[..|events| - 1])
  }

  /** The revision that the attempt of guard `g` captured when it began. */
  function Captured(events: seq<Event>, g: nat): Option<nat> {
    if events == [] then None
    else
      var before := events[..|events| - 1];
      if events[|events| - 1].Begin? && Begins(before) == g then
        if RouteNow(before) == Origin then Some(RevisionNow(before)) else None
      else Captured(before, g)
  }

  /** The route that the newest attempt captured when it began. */
  function AttemptRouteNow(events: seq<Event>): Route {
    if events == [] then Origin
    else
      var before := events[..|events| - 1];
      if events[|events| - 1].Begin? then RouteNow(before) else AttemptRouteNow(before)
  }

  /** What became of guard `g`: its own last event decides. */
  function Fate(events: seq<Event>, g: nat): Outcome {
    if events == [] then NoAttempt
    else
      var before := events[..|events| - 1];
      match events[|events| - 1]
      case Begin => if Begins(before) == g then Pending else Fate(before, g)
      case Finish(h, ok) => if h == g then (if ok then Succeeded else Failed) else Fate(before, g)
      case Drop(h) => if h == g then Cancelled else Fate(before, g)
      case _ => Fate(before, g)
  }

  function NewestFate(events: seq<Event>): Outcome {
    if Begins(events) == 0 then NoAttempt else Fate(events, Begins(events) - 1)
  }

  /** The revision of the last attempt that succeeded while it was the newest. */
  function LastSuccess(events: seq<Event>): Option<nat> {
    if events == [] then None
    else
      var before := events[..|events| - 1];
      match events[|events| - 1]
      case Finish(g, true) => if g + 1 == Begins(before) then Captured(before, g) else LastSuccess(before)
      case _ => LastSuccess(before)
  }

  /** The attribution of the current phase: the last attempt's capture, or none since the last redirect. */
  function PhaseNow(events: seq<Event>): Option<nat> {
    if events == [] then None
    else
      var before := events[..|events| - 1];
      match events[|events| - 1]
      case Begin => Captured(events, Begins(before))
      case SetRoute(route) => if route != Origin then None else PhaseNow(before)
      case _ => PhaseNow(before)
  }

  predicate GuardsAgree(events: seq<Event>, s: System) {
    && s.observed.attempt == Begins(events) == |s.guards|
    && forall g :: 0 <= g < |s.guards| ==> s.guards[g].attempt == g + 1 && (s.guards[g].live <==> Fate(events, g) == Pending)
  }

  predicate Agrees(events: seq<Event>, s: System) {
    && GuardsAgree(events, s)
    && s.observed.route == RouteNow(events)
    && s.observed.attemptRoute == AttemptRouteNow(events)
    && s.observed.originRevision == RevisionNow(events)
    && s.observed.attemptRevision == (if Begins(events) == 0 then None else Captured(events, Begins(events) - 1))
    && s.observed.outcome == NewestFate(events)
    && s.observed.successfulRevision == LastSuccess(events)
    && s.observed.phaseRevision == PhaseNow(events)
  }

  lemma {:induction false} LaterGuardsUnknown(events: seq<Event>, g: nat)
    requires Run(events).Some? && |Run(events).value.guards| <= g
    ensures Fate(events, g) == NoAttempt
    ensures |Run(events).value.guards| == Begins(events)
  {
    if events != [] {
      var before := events[..|events| - 1];
      LaterGuardsUnknown(before, g);
    }
  }

  lemma {:induction false} GuardsFollowHistory(events: seq<Event>)
    requires Run(events).Some? && Begins(events) <= U64_MAX
    ensures GuardsAgree(events, Run(events).value)
  {
    if events != [] {
      var before := events[..|events| - 1];
      GuardsFollowHistory(before);
      LaterGuardsUnknown(before, |Run(before).value.guards|);
    }
  }

  /**
   * In every history below counter saturation, with any number of live guards, everything observed
   * is what the history says: stale guards change nothing.
   */
  lemma {:induction false} ObservationIsHistory(events: seq<Event>)
    requires Run(events).Some? && Begins(events) <= U64_MAX
    ensures Agrees(events, Run(events).value)
  {
    if events != [] {
      var before := events[..|events| - 1];
      ObservationIsHistory(before);
      GuardsFollowHistory(events);
    }
  }

  /** The outcome is Pending exactly while the newest guard is alive. */
  lemma PendingIsNewestLive(events: seq<Event>)
    requires Run(events).Some? && 0 < Begins(events) <= U64_MAX
    ensures var s := Run(events).value;
            |s.guards| == Begins(events) && (s.observed.outcome == Pending <==> s.guards[|s.guards| - 1].live)
  {
    ObservationIsHistory(events);
  }

  /** Finishing or dropping any guard but the newest leaves the whole observation as it was. */
  lemma StaleGuardIsInert(events: seq<Event>, e: Event)
    requires Run(events).Some? && Begins(events) <= U64_MAX && Enabled(Run(events).value, e)
    requires (e.Finish? || e.Drop?) && e.guard + 1 < Begins(events)
    ensures Apply(Run(events).value, e).observed == Run(events).value.observed
  {
    ObservationIsHistory(events);
  }

  function Attempts(n: nat): seq<Event> {
    if n == 0 then [] else Attempts(n - 1) + [Begin]
  }

  lemma {:induction false} AttemptsRun(n: nat)
    requires n <= U64_MAX
    ensures Run(Attempts(n)).Some?
    ensures var s := Run(Attempts(n)).value;
            && s.observed.attempt == |s.guards| == n
            && forall g :: 0 <= g < n ==> s.guards[g] == Guard(g + 1, true)
  {
    if n > 0 {
      AttemptsRun(n - 1);
      RunExtends(Attempts(n - 1), Begin);
    }
  }

  lemma RunExtends(events: seq<Event>, e: Event)
    requires Run(events).Some? && Enabled(Run(events).value, e)
    ensures Run(events + [e]) == Some(Apply(Run(events).value, e))
  {
    assert (events + [e])[..|events + [e]| - 1] == events;
  }

  /**
   * At saturation two guards share a number, and an older one can end the newest attempt: after
   * `U64_MAX` attempts and one more, all still alive, finishing the last but one does.
   */
  lemma SaturationConfusesGuards(ok: bool)
    ensures var before := Attempts(U64_MAX) + [Begin];
            var after := before + [Finish(U64_MAX - 1, ok)];
            && Run(before).Some? && Run(after).Some?
            && Run(before).value.observed.outcome == Pending && Run(after).value.observed.outcome != Pending
            && |Run(after).value.guards| == U64_MAX + 1 && Run(after).value.guards[U64_MAX].live
  {
    AttemptsRun(U64_MAX);
    var s := Run(Attempts(U64_MAX)).value;
    RunExtends(Attempts(U64_MAX), Begin);
    var s' := Apply(s, Begin);
    assert s'.guards[U64_MAX - 1] == s.guards[U64_MAX - 1];
    RunExtends(Attempts(U64_MAX) + [Begin], Finish(U64_MAX - 1, ok));
  }

  /** From any redirect until the next attempt, the phase carries no origin revision, whatever the route becomes. */
  lemma {:induction false} RedirectClearsPhase(events: seq<Event>, route: Route, later: seq<Event>)
    requires route != Origin && Begins(later) == 0
    requires Run(events + [SetRoute(route)] + later).Some? && Begins(events + [SetRoute(route)] + later) <= U64_MAX
    ensures Run(events + [SetRoute(route)] + later).value.observed.phaseRevision == None
  {
    ObservationIsHistory(events + [SetRoute(route)] + later);
    PhaseStaysNone(events, route, later);
  }

  lemma {:induction false} PhaseStaysNone(events: seq<Event>, route: Route, later: seq<Event>)
    requires route != Origin && Begins(later) == 0
    ensures PhaseNow(events + [SetRoute(route)] + later) == None
  {
    var all := events + [SetRoute(route)] + later;
    if later == [] {
      assert all == events + [SetRoute(route)];
      assert all[..|all| - 1] == events;
    } else {
      assert all[..|all| - 1] == events + [SetRoute(route)] + later[..|later| - 1];
      PhaseStaysNone(events, route, later[..|later| - 1]);
    }
  }
}
