/**
 * The capacity-wait protocol of blocking senders, split at every lock and atomic access.
 * Threads run the admission actions, the wake calls those actions owe, and the blocking `send`
 * loop, in any interleaving. `progress` counts how often a lane's version moved; the version itself
 * is that count modulo 2^64, and two versions are compared as such.
 */
module SendWake {
  import opened Common
  import opened Requests
  import opened Admission

  const WRAP: nat := U64_MAX + 1

  datatype Stage = Load | Bump | Notify

  /** Where a thread is. `registered` names the lane whose waiter count it still holds. */
  datatype Pc =
    | Idle
    | Collecting(registered: Option<nat>)
    | Waking(todo: set<nat>, current: Option<(nat, Stage)>, registered: Option<nat>)
    | Attempt(lane: nat, sender: nat, item: RequestEnvelope)
    | Register(lane: nat, sender: nat, item: RequestEnvelope)
    | ReadVersion(lane: nat, sender: nat, item: RequestEnvelope)
    | Retry(lane: nat, sender: nat, item: RequestEnvelope, version: nat)
    | Check(lane: nat, sender: nat, item: RequestEnvelope, version: nat)
    | Asleep(lane: nat, sender: nat, item: RequestEnvelope, version: nat)
    | Notified(lane: nat, sender: nat, item: RequestEnvelope, version: nat)
    | Unregister(lane: nat)

  datatype State = State(world: World, waiters: seq<int>, progress: seq<nat>, threads: seq<Pc>)

  predicate Initial(s: State) {
    s.world == INITIAL && s.waiters == [] && s.progress == [] && forall t :: 0 <= t < |s.threads| ==> s.threads[t] == Idle
  }

  function NormalLanes(w: World): set<nat> {
    set l: nat | l < |w.lanes| && !w.lanes[l].lane.priority
  }

  /** The wake calls that the source makes after an action. */
  function AfterAction(w: World, a: Action): Pc
    requires Enabled(w, a)
  {
    match a
    case Receive(l) => if w.lanes[l].lane.items != [] && w.lanes[l].lane.capacity.Some? then WakeOne(l) else Idle
    case Drain(l) => if w.lanes[l].lane.items != [] && w.lanes[l].lane.capacity.Some? then WakeOne(l) else Idle
    case PollWait(l, _) => if w.lanes[l].lane.items != [] && w.lanes[l].lane.capacity.Some? then WakeOne(l) else Idle
    case BeginWait(l, _) => if Rendezvous(w.lanes[l].lane) then WakeOne(l) else Idle
    case DropReceiver(l) => WakeOne(l)
    case Send(l, _, item, clock) =>
      if ApplySend(w, l, item, clock).1.Sent? && item.IsFence() then Collecting(None) else Idle
    case Terminate => if w.gate.terminated then Idle else Collecting(None)
    case _ => Idle
  }

  function WakeOne(l: nat): Pc {
    Waking({l}, None, None)
  }

  function SentPc(item: RequestEnvelope, registered: Option<nat>): Pc {
    if item.IsFence() then Collecting(registered) else Released(registered)
  }

  function Released(registered: Option<nat>): Pc {
    if registered.Some? then Unregister(registered.value) else Idle
  }

  function AfterAttempt(pc: Pc, result: SendResult): Pc
    requires pc.Attempt? || pc.Retry?
  {
    var registered := if pc.Retry? then Some(pc.lane) else None;
    match result
    case Sent(_) => SentPc(pc.item, registered)
    case Disconnected(_) => Released(registered)
    case Full(_) =>
      if pc.Retry? then Check(pc.lane, pc.sender, pc.item, pc.version)
      else Register(pc.lane, pc.sender, pc.item)
  }

  // ---- Steps: thread `t` moves, everything else stands still except as stated ----

  ghost predicate Act(s: State, t: nat, a: Action, s': State) {
    && t < |s.threads| && s.threads[t].Idle? && Enabled(s.world, a)
    && s'.world == Apply(s.world, a)
    && s'.waiters == (if a.OpenLane? then s.waiters + [0] else s.waiters)
    && s'.progress == (if a.OpenLane? then s.progress + [0] else s.progress)
    && s'.threads == s.threads[t := AfterAction(s.world, a)]
  }

  ghost predicate BeginSend(s: State, t: nat, lane: nat, sender: nat, item: RequestEnvelope, s': State) {
    && t < |s.threads| && s.threads[t].Idle?
    && lane < |s.world.lanes|
    && s' == s.(threads := s.threads[t := Attempt(lane, sender, item)])
  }

  ghost predicate TryStep(s: State, t: nat, clock: Clock, s': State) {
    && t < |s.threads| && (s.threads[t].Attempt? || s.threads[t].Retry?)
    && var pc := s.threads[t];
       && Enabled(s.world, Send(pc.lane, pc.sender, pc.item, clock))
       && var (w', result) := ApplySend(s.world, pc.lane, pc.item, clock);
          s' == s.(world := w', threads := s.threads[t := AfterAttempt(pc, result)])
  }

  ghost predicate RegisterStep(s: State, t: nat, s': State) {
    && t < |s.threads| && s.threads[t].Register? && s.threads[t].lane < |s.waiters|
    && var pc := s.threads[t];
       s' == s.(waiters := s.waiters[pc.lane := s.waiters[pc.lane] + 1],
                threads := s.threads[t := ReadVersion(pc.lane, pc.sender, pc.item)])
  }

  ghost predicate UnregisterStep(s: State, t: nat, s': State) {
    && t < |s.threads| && s.threads[t].Unregister? && s.threads[t].lane < |s.waiters|
    && var pc := s.threads[t];
       s' == s.(waiters := s.waiters[pc.lane := s.waiters[pc.lane] - 1], threads := s.threads[t := Idle])
  }

  /** Steps that change only the moving thread's own position. */
  ghost predicate LocalStep(s: State, t: nat, s': State) {
    && t < |s.threads|
    && |s'.threads| == |s.threads|
    && s' == s.(threads := s.threads[t := s'.threads[t]])
    && LocalNext(s, s.threads[t], s'.threads[t])
  }

  /**
   * Reading the version; testing it under the progress lock, which parks or loops; a wake-up,
   * possibly spurious; collecting the lanes to close; and a waker's choice and waiter load.
   */
  ghost predicate LocalNext(s: State, pc: Pc, pc': Pc) {
    match pc
    case ReadVersion(l, h, item) => l < |s.progress| && pc' == Retry(l, h, item, s.progress[l])
    case Check(l, h, item, v) => l < |s.progress| && pc' == Tested(s, l, h, item, v)
    case Notified(l, h, item, v) => l < |s.progress| && pc' == Tested(s, l, h, item, v)
    case Asleep(l, h, item, v) => pc' == Notified(l, h, item, v)
    case Collecting(registered) => pc' == Waking(NormalLanes(s.world), None, registered)
    case Waking(todo, None, registered) =>
      if todo == {} then pc' == Released(registered)
      else exists l :: l in todo && pc' == Waking(todo - {l}, Some((l, Load)), registered)
    case Waking(todo, Some((l, Load)), registered) =>
      l < |s.waiters| && pc' == Waking(todo, if s.waiters[l] != 0 then Some((l, Bump)) else None, registered)
    case _ => false
  }

  function Tested(s: State, l: nat, h: nat, item: RequestEnvelope, v: nat): Pc
    requires l < |s.progress|
  {
    if s.progress[l] % WRAP == v % WRAP then Asleep(l, h, item, v) else ReadVersion(l, h, item)
  }

  predicate AtStage(pc: Pc, l: nat, stage: Stage) {
    pc.Waking? && pc.current == Some((l, stage))
  }

  ghost predicate BumpStep(s: State, t: nat, l: nat, s': State) {
    && t < |s.threads| && AtStage(s.threads[t], l, Bump) && l < |s.progress|
    && s' == s.(progress := s.progress[l := s.progress[l] + 1],
                threads := s.threads[t := s.threads[t].(current := Some((l, Notify)))])
  }

  function NotifyPc(pc: Pc, l: nat): Pc {
    if pc.Asleep? && pc.lane == l then Notified(pc.lane, pc.sender, pc.item, pc.version) else pc
  }

  ghost predicate NotifyStep(s: State, t: nat, l: nat, s': State) {
    && t < |s.threads| && AtStage(s.threads[t], l, Notify)
    && |s'.threads| == |s.threads|
    && s' == s.(threads := s'.threads)
    && s'.threads[t] == s.threads[t].(current := None)
    && forall u :: 0 <= u < |s.threads| && u != t ==> s'.threads[u] == NotifyPc(s.threads[u], l)
  }

  ghost predicate Step(s: State, s': State) {
    || (exists t, a :: Act(s, t, a, s'))
    || (exists t, lane, sender, item :: BeginSend(s, t, lane, sender, item, s'))
    || (exists t, clock :: TryStep(s, t, clock, s'))
    || (exists t :: RegisterStep(s, t, s'))
    || (exists t :: UnregisterStep(s, t, s'))
    || (exists t :: LocalStep(s, t, s'))
    || (exists t, l :: BumpStep(s, t, l, s'))
    || (exists t, l :: NotifyStep(s, t, l, s'))
  }

  ghost predicate IsRun(trace: seq<State>) {
    && |trace| > 0
    && Initial(trace[0])
    && forall i :: 0 <= i < |trace| - 1 ==> Step(trace[i], trace[i + 1])
  }

  // ---- The invariant ----

  predicate Registered(pc: Pc, l: nat) {
    match pc
    case Collecting(r) => r == Some(l)
    case Waking(_, _, r) => r == Some(l)
    case ReadVersion(l', _, _) => l' == l
    case Retry(l', _, _, _) => l' == l
    case Check(l', _, _, _) => l' == l
    case Asleep(l', _, _, _) => l' == l
    case Notified(l', _, _, _) => l' == l
    case Unregister(l') => l' == l
    case _ => false
  }

  function Count(threads: seq<Pc>, l: nat): nat {
    if threads == [] then 0
    else Count(threads[..|threads| - 1], l) + if Registered(threads[|threads| - 1], l) then 1 else 0
  }

  /** A wake of `l` is still to come: the version will move before this thread is done. */
  predicate Owes(w: World, pc: Pc, l: nat) {
    || (pc.Collecting? && l in NormalLanes(w))
    || (pc.Waking? && l in pc.todo)
    || AtStage(pc, l, Load)
    || AtStage(pc, l, Bump)
  }

  predicate Refused(pc: Pc) {
    pc.Check? || pc.Asleep? || pc.Notified?
  }

  predicate LaneBlocked(w: World, l: nat) {
    l < |w.lanes| && WouldBlock(w.gate, w.lanes[l].lane)
  }

  predicate SomeoneOwes(s: State, l: nat) {
    exists u :: 0 <= u < |s.threads| && Owes(s.world, s.threads[u], l)
  }

  predicate SomeoneNotifies(s: State, l: nat) {
    exists u :: 0 <= u < |s.threads| && AtStage(s.threads[u], l, Notify)
  }

  /** Every lane but a terminated priority lane: closing the gate wakes the non-priority lanes only. */
  predicate Watched(w: World, l: nat) {
    l < |w.lanes| && (w.lanes[l].lane.priority ==> !w.gate.terminated)
  }

  predicate OnWatchedLane(w: World, pc: Pc) {
    Refused(pc) && Watched(w, pc.lane)
  }

  /** A refused sender: its version is not from the future, and whatever could end its wait is still being announced. */
  predicate SleeperOk(s: State, pc: Pc) {
    && (Refused(pc) ==> pc.lane < |s.progress| && pc.version <= s.progress[pc.lane])
    && (OnWatchedLane(s.world, pc) && pc.version == s.progress[pc.lane] ==>
          LaneBlocked(s.world, pc.lane) || SomeoneOwes(s, pc.lane))
    && (pc.Asleep? && pc.version < s.progress[pc.lane] ==> SomeoneNotifies(s, pc.lane))
  }

  ghost predicate PcOk(s: State, pc: Pc) {
    && (pc.Retry? ==> pc.lane < |s.progress| && pc.version <= s.progress[pc.lane])
    && SleeperOk(s, pc)
  }

  ghost predicate CountsOk(s: State) {
    && |s.waiters| == |s.progress| == |s.world.lanes|
    && (forall l :: 0 <= l < |s.waiters| ==> s.waiters[l] == Count(s.threads, l))
    && (forall t, l: nat :: 0 <= t < |s.threads| && Registered(s.threads[t], l) ==> l < |s.waiters|)
    && (forall t :: 0 <= t < |s.threads| && (s.threads[t].Attempt? || s.threads[t].Register?) ==>
          s.threads[t].lane < |s.waiters|)
  }

  ghost predicate Inv(s: State) {
    CountsOk(s) && forall t :: 0 <= t < |s.threads| ==> PcOk(s, s.threads[t])
  }

  // ---- Waiter counts ----

  lemma {:induction false} CountUpdate(threads: seq<Pc>, t: nat, pc: Pc, l: nat)
    requires t < |threads|
    ensures Count(threads[t := pc], l)
         == Count(threads, l) - (if Registered(threads[t], l) then 1 else 0) + (if Registered(pc, l) then 1 else 0)
  {
    var n := |threads| - 1;
    if t == n {
      assert threads[t := pc][..n] == threads[..n];
    } else {
      assert threads[t := pc][..n] == threads[..n][t := pc];
      CountUpdate(threads[..n], t, pc, l);
    }
  }

  lemma {:induction false} CountSame(a: seq<Pc>, b: seq<Pc>, l: nat)
    requires |a| == |b|
    requires forall t :: 0 <= t < |a| ==> (Registered(a[t], l) <==> Registered(b[t], l))
    ensures Count(a, l) == Count(b, l)
  {
    if a != [] {
      CountSame(a[..|a| - 1], b[..|b| - 1], l);
    }
  }

  lemma {:induction false} CountPositive(threads: seq<Pc>, t: nat, l: nat)
    requires t < |threads| && Registered(threads[t], l)
    ensures Count(threads, l) > 0
  {
    if t < |threads| - 1 {
      CountPositive(threads[..|threads| - 1], t, l);
    }
  }

  lemma {:induction false} CountNone(threads: seq<Pc>, l: nat)
    requires forall t :: 0 <= t < |threads| ==> !Registered(threads[t], l)
    ensures Count(threads, l) == 0
  {
    if threads != [] {
      CountNone(threads[..|threads| - 1], l);
    }
  }

  /** One thread moves and the counters follow its registration. */
  lemma CountsFollow(s: State, t: nat, pc': Pc, s': State)
    requires CountsOk(s) && t < |s.threads| && s'.threads == s.threads[t := pc']
    requires |s'.waiters| == |s'.progress| == |s'.world.lanes| == |s.waiters|
    requires forall l :: 0 <= l < |s.waiters| ==>
               s'.waiters[l] == s.waiters[l] - (if Registered(s.threads[t], l) then 1 else 0) + (if Registered(pc', l) then 1 else 0)
    requires forall l: nat :: Registered(pc', l) ==> l < |s.waiters|
    requires pc'.Attempt? || pc'.Register? ==> pc'.lane < |s.waiters|
    ensures CountsOk(s')
  {
    forall l | 0 <= l < |s.waiters|
      ensures s'.waiters[l] == Count(s'.threads, l)
    {
      CountUpdate(s.threads, t, pc', l);
    }
  }

  // ---- No action opens a lane silently ----

  /** Whatever turns a blocked lane into one a retry would not find full owes that lane a wake. */
  lemma UnblockingOwesWake(w: World, a: Action, l: nat)
    requires Enabled(w, a) && l < |w.lanes| && Watched(Apply(w, a), l)
    requires WouldBlock(w.gate, w.lanes[l].lane)
    ensures LaneBlocked(Apply(w, a), l) || Owes(Apply(w, a), AfterAction(w, a), l)
  {
  }

  lemma AttemptOwesWake(w: World, pc: Pc, clock: Clock, l: nat)
    requires pc.Attempt? || pc.Retry?
    requires Enabled(w, Send(pc.lane, pc.sender, pc.item, clock)) && Watched(w, l)
    requires WouldBlock(w.gate, w.lanes[l].lane)
    ensures var (w', result) := ApplySend(w, pc.lane, pc.item, clock);
            LaneBlocked(w', l) || Owes(w', AfterAttempt(pc, result), l)
  {
  }

  // ---- Every step keeps the invariant ----

  /** What a moving thread must carry over for the sleepers of a lane. */
  ghost predicate CarriesOver(s: State, t: nat, pc': Pc, s': State)
    requires t < |s.threads|
  {
    && s'.threads == s.threads[t := pc']
    && s.progress <= s'.progress
    && NormalLanes(s.world) <= NormalLanes(s'.world)
    && |s.progress| == |s.world.lanes|
    && (forall l: nat :: Watched(s'.world, l) && l < |s.world.lanes| ==> Watched(s.world, l))
    && (forall l: nat :: AtStage(s.threads[t], l, Notify) ==> AtStage(pc', l, Notify))
    && (forall l: nat :: Watched(s'.world, l) && l < |s.world.lanes| && Count(s.threads, l) > 0 ==>
          && (LaneBlocked(s.world, l) ==> LaneBlocked(s'.world, l) || Owes(s'.world, pc', l))
          && (Owes(s.world, s.threads[t], l) ==> Owes(s'.world, pc', l)))
  }

  lemma OtherStaysOk(s: State, t: nat, pc': Pc, s': State, u: nat)
    requires t < |s.threads| && u < |s.threads| && u != t
    requires CarriesOver(s, t, pc', s') && PcOk(s, s.threads[u])
    ensures PcOk(s', s'.threads[u])
  {
    var pc := s.threads[u];
    if Refused(pc) {
      var l := pc.lane;
      CountPositive(s.threads, u, l);
      if OnWatchedLane(s'.world, pc) && pc.version == s'.progress[l] {
        BlockedOrOwed(s, t, pc', s', l);
      }
      if pc.Asleep? && pc.version < s'.progress[l] {
        var v :| 0 <= v < |s.threads| && AtStage(s.threads[v], l, Notify);
        assert AtStage(s'.threads[v], l, Notify);
      }
    }
  }

  lemma BlockedOrOwed(s: State, t: nat, pc': Pc, s': State, l: nat)
    requires t < |s.threads| && CarriesOver(s, t, pc', s')
    requires Watched(s'.world, l) && l < |s.world.lanes| && Count(s.threads, l) > 0
    requires LaneBlocked(s.world, l) || SomeoneOwes(s, l)
    ensures LaneBlocked(s'.world, l) || SomeoneOwes(s', l)
  {
    if LaneBlocked(s.world, l) {
      if !LaneBlocked(s'.world, l) {
        assert Owes(s'.world, s'.threads[t], l);
      }
    } else {
      var v :| 0 <= v < |s.threads| && Owes(s.world, s.threads[v], l);
      assert Owes(s'.world, s'.threads[v], l);
    }
  }

  lemma MoveKeepsInv(s: State, t: nat, pc': Pc, s': State)
    requires Inv(s) && t < |s.threads| && CarriesOver(s, t, pc', s')
    requires CountsOk(s') && PcOk(s', pc')
    ensures Inv(s')
  {
    forall u | 0 <= u < |s'.threads|
      ensures PcOk(s', s'.threads[u])
    {
      if u != t {
        OtherStaysOk(s, t, pc', s', u);
      }
    }
  }

  lemma ActCarriesOver(s: State, t: nat, a: Action, s': State)
    requires CountsOk(s) && Act(s, t, a, s')
    ensures CarriesOver(s, t, AfterAction(s.world, a), s')
  {
    var pc' := AfterAction(s.world, a);
    forall l: nat | Watched(s'.world, l) && LaneBlocked(s.world, l)
      ensures LaneBlocked(s'.world, l) || Owes(s'.world, pc', l)
    {
      UnblockingOwesWake(s.world, a, l);
    }
  }

  lemma ActKeepsCounts(s: State, t: nat, a: Action, s': State)
    requires CountsOk(s) && Act(s, t, a, s')
    ensures CountsOk(s')
  {
    if a.OpenLane? {
      OpenKeepsCounts(s, t, s');
    } else {
      CountsFollow(s, t, AfterAction(s.world, a), s');
    }
  }

  lemma ActKeepsInv(s: State, t: nat, a: Action, s': State)
    requires Inv(s) && Act(s, t, a, s')
    ensures Inv(s')
  {
    ActCarriesOver(s, t, a, s');
    ActKeepsCounts(s, t, a, s');
    MoveKeepsInv(s, t, AfterAction(s.world, a), s');
  }

  lemma OpenKeepsCounts(s: State, t: nat, s': State)
    requires CountsOk(s) && t < |s.threads| && s.threads[t].Idle?
    requires s'.threads == s.threads[t := Idle] && |s'.world.lanes| == |s.world.lanes| + 1
    requires s'.waiters == s.waiters + [0] && s'.progress == s.progress + [0]
    ensures CountsOk(s')
  {
    assert s'.threads == s.threads;
    CountNone(s.threads, |s.waiters|);
  }

  lemma TryCarriesOver(s: State, t: nat, clock: Clock, s': State)
    requires CountsOk(s) && TryStep(s, t, clock, s')
    ensures CarriesOver(s, t, s'.threads[t], s')
  {
    var pc := s.threads[t];
    forall l: nat | Watched(s'.world, l) && LaneBlocked(s.world, l)
      ensures LaneBlocked(s'.world, l) || Owes(s'.world, s'.threads[t], l)
    {
      AttemptOwesWake(s.world, pc, clock, l);
    }
  }

  lemma TryKeepsInv(s: State, t: nat, clock: Clock, s': State)
    requires Inv(s) && TryStep(s, t, clock, s')
    ensures Inv(s')
  {
    var pc := s.threads[t];
    TryCarriesOver(s, t, clock, s');
    CountsFollow(s, t, s'.threads[t], s');
    FullIsWouldBlock(s.world.gate, s.world.lanes[pc.lane].lane, pc.item, clock);
    MoveKeepsInv(s, t, s'.threads[t], s');
  }

  lemma RegistrationKeepsInv(s: State, t: nat, s': State)
    requires Inv(s) && (RegisterStep(s, t, s') || UnregisterStep(s, t, s'))
    ensures Inv(s')
  {
    CountsFollow(s, t, s'.threads[t], s');
    MoveKeepsInv(s, t, s'.threads[t], s');
  }

  lemma LocalKeepsInv(s: State, t: nat, s': State)
    requires Inv(s) && !TestsWrapped(s, s') && LocalStep(s, t, s')
    ensures Inv(s')
  {
    var pc' := s'.threads[t];
    assert forall l: nat :: Registered(pc', l) <==> Registered(s.threads[t], l);
    CountsFollow(s, t, pc', s');
    LocalCarriesOver(s, t, s');
    LocalTargetOk(s, t, s');
    MoveKeepsInv(s, t, pc', s');
  }

  /** A waker that skips a lane saw no waiters, so nobody sleeps there. */
  lemma LocalCarriesOver(s: State, t: nat, s': State)
    requires Inv(s) && LocalStep(s, t, s')
    ensures CarriesOver(s, t, s'.threads[t], s')
  {
  }

  /** The version has moved a positive multiple of 2^64 times since the thread read it. */
  predicate Wrapped(s: State, pc: Pc) {
    && (pc.Check? || pc.Notified?) && pc.lane < |s.progress|
    && s.progress[pc.lane] > pc.version && s.progress[pc.lane] % WRAP == pc.version % WRAP
  }

  /** The step is the test of such a version, which puts its thread to sleep. */
  predicate TestsWrapped(s: State, s': State) {
    exists t :: 0 <= t < |s.threads| && t < |s'.threads| && Wrapped(s, s.threads[t]) && s'.threads[t].Asleep?
  }

  lemma LocalTargetOk(s: State, t: nat, s': State)
    requires Inv(s) && !TestsWrapped(s, s') && LocalStep(s, t, s') && CarriesOver(s, t, s'.threads[t], s')
    ensures PcOk(s', s'.threads[t])
  {
    var pc := s.threads[t];
    assert PcOk(s, pc);
    if s'.threads[t].Asleep? {
      assert !Wrapped(s, pc);
    }
    if Refused(pc) && Refused(s'.threads[t]) {
      CountPositive(s.threads, t, pc.lane);
      if OnWatchedLane(s.world, pc) && pc.version == s.progress[pc.lane] {
        BlockedOrOwed(s, t, s'.threads[t], s', pc.lane);
      }
    }
  }

  lemma BumpKeepsInv(s: State, t: nat, l: nat, s': State)
    requires Inv(s) && BumpStep(s, t, l, s')
    ensures Inv(s')
  {
    assert forall m: nat :: Registered(s'.threads[t], m) <==> Registered(s.threads[t], m);
    CountsFollow(s, t, s'.threads[t], s');
    assert AtStage(s'.threads[t], l, Notify);
    forall u | 0 <= u < |s.threads|
      ensures PcOk(s', s'.threads[u])
    {
      var pc := s.threads[u];
      if u != t && Refused(pc) && pc.lane != l {
        OwedStaysOwed(s, s', pc.lane);
        AnnouncedStaysAnnounced(s, s', pc.lane);
      }
    }
  }

  /** Moving one lane's version or waking its waiters leaves what other lanes are owed alone. */
  lemma OwedStaysOwed(s: State, s': State, m: nat)
    requires s'.world == s.world && |s'.threads| == |s.threads|
    requires forall u :: 0 <= u < |s.threads| ==>
               (Owes(s.world, s.threads[u], m) ==> Owes(s.world, s'.threads[u], m))
    ensures SomeoneOwes(s, m) ==> SomeoneOwes(s', m)
  {
    if SomeoneOwes(s, m) {
      var u :| 0 <= u < |s.threads| && Owes(s.world, s.threads[u], m);
      assert Owes(s'.world, s'.threads[u], m);
    }
  }

  lemma AnnouncedStaysAnnounced(s: State, s': State, m: nat)
    requires |s'.threads| == |s.threads|
    requires forall u :: 0 <= u < |s.threads| ==>
               (AtStage(s.threads[u], m, Notify) ==> AtStage(s'.threads[u], m, Notify))
    ensures SomeoneNotifies(s, m) ==> SomeoneNotifies(s', m)
  {
    if SomeoneNotifies(s, m) {
      var u :| 0 <= u < |s.threads| && AtStage(s.threads[u], m, Notify);
      assert AtStage(s'.threads[u], m, Notify);
    }
  }

  lemma NotifyKeepsInv(s: State, t: nat, l: nat, s': State)
    requires Inv(s) && NotifyStep(s, t, l, s')
    ensures Inv(s')
  {
    assert forall u, m: nat :: 0 <= u < |s.threads| ==> (Registered(s'.threads[u], m) <==> Registered(s.threads[u], m));
    forall m | 0 <= m < |s.waiters|
      ensures s'.waiters[m] == Count(s'.threads, m)
    {
      CountSame(s.threads, s'.threads, m);
    }
    forall u | 0 <= u < |s.threads|
      ensures PcOk(s', s'.threads[u])
    {
      var pc := s.threads[u];
      if Refused(pc) {
        OwedStaysOwed(s, s', pc.lane);
        if pc.lane != l {
          AnnouncedStaysAnnounced(s, s', pc.lane);
        }
      }
    }
  }

  lemma StepKeepsInv(s: State, s': State)
    requires Inv(s) && !TestsWrapped(s, s') && Step(s, s')
    ensures Inv(s')
  {
    if t, a :| Act(s, t, a, s') {
      ActKeepsInv(s, t, a, s');
    } else if t: nat, lane: nat, sender: nat, item :| BeginSend(s, t, lane, sender, item, s') {
      CountsFollow(s, t, s'.threads[t], s');
      MoveKeepsInv(s, t, s'.threads[t], s');
    } else if t, clock :| TryStep(s, t, clock, s') {
      TryKeepsInv(s, t, clock, s');
    } else if t :| RegisterStep(s, t, s') || UnregisterStep(s, t, s') {
      RegistrationKeepsInv(s, t, s');
    } else if t :| LocalStep(s, t, s') {
      LocalKeepsInv(s, t, s');
    } else if t, l :| BumpStep(s, t, l, s') {
      BumpKeepsInv(s, t, l, s');
    } else if t, l :| NotifyStep(s, t, l, s') {
      NotifyKeepsInv(s, t, l, s');
    }
  }

  lemma {:induction false} RunKeepsInv(trace: seq<State>, n: nat)
    requires IsRun(trace) && n < |trace| && forall k :: 0 <= k < n ==> !TestsWrapped(trace[k], trace[k + 1])
    ensures Inv(trace[n])
  {
    if n == 0 {
    } else {
      RunKeepsInv(trace, n - 1);
      assert Step(trace[n - 1], trace[n - 1 + 1]) && !TestsWrapped(trace[n - 1], trace[n - 1 + 1]);
      StepKeepsInv(trace[n - 1], trace[n]);
    }
  }

  /**
   * No lost wake-up. Unless a version is tested after exactly a positive multiple of 2^64 moves: in
   * every reachable state, a sender asleep on a non-priority lane, or on a priority lane before
   * termination, would be refused again, or some thread is still on its way to moving the version
   * or to notifying.
   */
  lemma NoLostWakeup(trace: seq<State>, n: nat, t: nat)
    requires IsRun(trace) && n < |trace| && t < |trace[n].threads|
    requires forall k :: 0 <= k < n ==> !TestsWrapped(trace[k], trace[k + 1])
    requires trace[n].threads[t].Asleep? && Watched(trace[n].world, trace[n].threads[t].lane)
    ensures var l := trace[n].threads[t].lane;
            LaneBlocked(trace[n].world, l) || SomeoneOwes(trace[n], l) || SomeoneNotifies(trace[n], l)
  {
    RunKeepsInv(trace, n);
    assert PcOk(trace[n], trace[n].threads[t]);
  }

  /**
   * Once all wake calls have returned, a sleeper is one whose retry would find the lane full,
   * exactly when its lane is not a terminated priority lane.
   */
  lemma QuiescentSleepersAreBlocked(trace: seq<State>, n: nat, t: nat)
    requires IsRun(trace) && n < |trace| && t < |trace[n].threads| && trace[n].threads[t].Asleep?
    requires forall k :: 0 <= k < n ==> !TestsWrapped(trace[k], trace[k + 1])
    requires forall u :: 0 <= u < |trace[n].threads| ==> !trace[n].threads[u].Waking? && !trace[n].threads[u].Collecting?
    ensures trace[n].threads[t].lane < |trace[n].world.lanes|
    ensures var l := trace[n].threads[t].lane;
            WouldBlock(trace[n].world.gate, trace[n].world.lanes[l].lane) <==> Watched(trace[n].world, l)
  {
    RunKeepsInv(trace, n);
    assert PcOk(trace[n], trace[n].threads[t]);
    if Watched(trace[n].world, trace[n].threads[t].lane) {
      NoLostWakeup(trace, n, t);
    }
  }

  lemma LocalKeepsCounts(s: State, t: nat, s': State)
    requires CountsOk(s) && LocalStep(s, t, s')
    ensures CountsOk(s')
  {
    assert forall l: nat :: Registered(s'.threads[t], l) <==> Registered(s.threads[t], l);
    CountsFollow(s, t, s'.threads[t], s');
  }

  lemma BumpKeepsCounts(s: State, t: nat, l: nat, s': State)
    requires CountsOk(s) && BumpStep(s, t, l, s')
    ensures CountsOk(s')
  {
    assert forall m: nat :: Registered(s'.threads[t], m) <==> Registered(s.threads[t], m);
    CountsFollow(s, t, s'.threads[t], s');
  }

  lemma NotifyKeepsCounts(s: State, t: nat, l: nat, s': State)
    requires CountsOk(s) && NotifyStep(s, t, l, s')
    ensures CountsOk(s')
  {
    assert forall u, m: nat :: 0 <= u < |s.threads| ==> (Registered(s'.threads[u], m) <==> Registered(s.threads[u], m));
    forall m | 0 <= m < |s.waiters|
      ensures s'.waiters[m] == Count(s'.threads, m)
    {
      CountSame(s.threads, s'.threads, m);
    }
  }

  lemma TryKeepsCounts(s: State, t: nat, clock: Clock, s': State)
    requires CountsOk(s) && TryStep(s, t, clock, s')
    ensures CountsOk(s')
  {
    CountsFollow(s, t, s'.threads[t], s');
  }

  lemma RegistrationKeepsCounts(s: State, t: nat, s': State)
    requires CountsOk(s) && (RegisterStep(s, t, s') || UnregisterStep(s, t, s'))
    ensures CountsOk(s')
  {
    CountsFollow(s, t, s'.threads[t], s');
  }

  lemma StepKeepsCounts(s: State, s': State)
    requires CountsOk(s) && Step(s, s')
    ensures CountsOk(s')
  {
    if t, a :| Act(s, t, a, s') {
      ActKeepsCounts(s, t, a, s');
    } else if t: nat, lane: nat, sender: nat, item :| BeginSend(s, t, lane, sender, item, s') {
      CountsFollow(s, t, s'.threads[t], s');
    } else if t, clock :| TryStep(s, t, clock, s') {
      TryKeepsCounts(s, t, clock, s');
    } else if t: nat :| RegisterStep(s, t, s') || UnregisterStep(s, t, s') {
      RegistrationKeepsCounts(s, t, s');
    } else if t :| LocalStep(s, t, s') {
      LocalKeepsCounts(s, t, s');
    } else if t, l :| BumpStep(s, t, l, s') {
      BumpKeepsCounts(s, t, l, s');
    } else if t, l :| NotifyStep(s, t, l, s') {
      NotifyKeepsCounts(s, t, l, s');
    }
  }

  /** The waiter count is the number of registered threads, so no decrement underflows. */
  lemma {:induction false} WaitersAreRegistrations(trace: seq<State>, n: nat)
    requires IsRun(trace) && n < |trace|
    ensures CountsOk(trace[n])
  {
    if n > 0 {
      WaitersAreRegistrations(trace, n - 1);
      assert Step(trace[n - 1], trace[n - 1 + 1]);
      StepKeepsCounts(trace[n - 1], trace[n]);
    }
  }

  /** A refused sender is on a lane with a capacity. */
  predicate WaitsForRoom(w: World, pc: Pc) {
    Refused(pc) ==> pc.lane < |w.lanes| && w.lanes[pc.lane].lane.capacity.Some?
  }

  ghost predicate AllWaitForRoom(s: State) {
    forall t :: 0 <= t < |s.threads| ==> WaitsForRoom(s.world, s.threads[t])
  }

  predicate SameCapacities(w: World, w': World) {
    |w.lanes| <= |w'.lanes| && forall l :: 0 <= l < |w.lanes| ==> w'.lanes[l].lane.capacity == w.lanes[l].lane.capacity
  }

  lemma MoveKeepsRoom(s: State, t: nat, s': State)
    requires AllWaitForRoom(s) && SameCapacities(s.world, s'.world) && t < |s.threads| == |s'.threads|
    requires s'.threads == s.threads[t := s'.threads[t]] && WaitsForRoom(s'.world, s'.threads[t])
    ensures AllWaitForRoom(s')
  {
  }

  lemma ActKeepsRoom(s: State, t: nat, a: Action, s': State)
    requires AllWaitForRoom(s) && Act(s, t, a, s')
    ensures AllWaitForRoom(s')
  {
    MoveKeepsRoom(s, t, s');
  }

  lemma TryKeepsRoom(s: State, t: nat, clock: Clock, s': State)
    requires AllWaitForRoom(s) && TryStep(s, t, clock, s')
    ensures AllWaitForRoom(s')
  {
    MoveKeepsRoom(s, t, s');
  }

  lemma LocalKeepsRoom(s: State, t: nat, s': State)
    requires AllWaitForRoom(s) && (LocalStep(s, t, s') || RegisterStep(s, t, s') || UnregisterStep(s, t, s'))
    ensures AllWaitForRoom(s')
  {
    assert WaitsForRoom(s.world, s.threads[t]);
    MoveKeepsRoom(s, t, s');
  }

  lemma WakeKeepsRoom(s: State, t: nat, l: nat, s': State)
    requires AllWaitForRoom(s) && (BumpStep(s, t, l, s') || NotifyStep(s, t, l, s'))
    ensures AllWaitForRoom(s')
  {
    assert forall u :: 0 <= u < |s.threads| ==> WaitsForRoom(s.world, s.threads[u]);
  }

  lemma StepKeepsRoom(s: State, s': State)
    requires AllWaitForRoom(s) && Step(s, s')
    ensures AllWaitForRoom(s')
  {
    if t, a :| Act(s, t, a, s') {
      ActKeepsRoom(s, t, a, s');
    } else if t: nat, lane: nat, sender: nat, item :| BeginSend(s, t, lane, sender, item, s') {
      MoveKeepsRoom(s, t, s');
    } else if t, clock :| TryStep(s, t, clock, s') {
      TryKeepsRoom(s, t, clock, s');
    } else if t: nat :| LocalStep(s, t, s') || RegisterStep(s, t, s') || UnregisterStep(s, t, s') {
      LocalKeepsRoom(s, t, s');
    } else if t, l :| BumpStep(s, t, l, s') {
      WakeKeepsRoom(s, t, l, s');
    } else if t, l :| NotifyStep(s, t, l, s') {
      WakeKeepsRoom(s, t, l, s');
    }
  }

  /** No sender ever sleeps on an unbounded lane, whatever its priority. */
  lemma {:induction false} SleepersAreOnBoundedLanes(trace: seq<State>, n: nat)
    requires IsRun(trace) && n < |trace|
    ensures AllWaitForRoom(trace[n])
  {
    if n > 0 {
      SleepersAreOnBoundedLanes(trace, n - 1);
      assert Step(trace[n - 1], trace[n - 1 + 1]);
      StepKeepsRoom(trace[n - 1], trace[n]);
    }
  }

  // ---- Terminated priority lanes ----

  const MESSAGE := Plain(PublishRequest(0, 0))
  const FULL_LANE := Lane(Some(1), true, [MESSAGE.Admitted(1, None)], 1, 1, 0)
  const FULL_RUN := LaneRun(FULL_LANE, FULL_LANE.items, [], [], true, {0}, {}, 0)
  const FULL_WORLD := World(Gate(1, None, None, false), [FULL_RUN], [Entry(0, FULL_LANE.items[0])])
  const CLOSED_WORLD := FULL_WORLD.(gate := Gate(1, None, None, true))

  function Before(waiters: int, sender: Pc): State {
    State(FULL_WORLD, [waiters], [0], [sender, Idle])
  }

  function After(closer: Pc): State {
    State(CLOSED_WORLD, [1], [0], [Asleep(0, 0, MESSAGE, 0), closer])
  }

  ghost predicate Reaches(trace: seq<State>, s: State) {
    IsRun(trace) && trace[|trace| - 1] == s
  }

  lemma Extend(trace: seq<State>, s: State, s': State)
    requires Reaches(trace, s) && Step(s, s')
    ensures Reaches(trace + [s'], s')
  {
    var longer := trace + [s'];
    forall i | 0 <= i < |longer| - 1
      ensures Step(longer[i], longer[i + 1])
    {
      assert i < |trace| - 1 ==> Step(trace[i], trace[i + 1]);
    }
  }

  lemma FillPriorityLane(clock: Clock) returns (trace: seq<State>)
    ensures Reaches(trace, Before(0, Idle))
  {
    var s0 := State(INITIAL, [], [], [Idle, Idle]);
    var newLane := LaneRun(NewLane(Some(1), true), [], [], [], true, {0}, {}, 0);
    var s1 := State(World(OPEN_GATE, [newLane], []), [0], [0], [Idle, Idle]);
    assert Act(s0, 1, OpenLane(Some(1), true, 0), s1);
    Extend([s0], s0, s1);
    SendFillsLane(clock);
    assert Act(s1, 1, Send(0, 0, MESSAGE, clock), Before(0, Idle));
    Extend([s0] + [s1], s1, Before(0, Idle));
    trace := [s0] + [s1] + [Before(0, Idle)];
  }

  lemma SendFillsLane(clock: Clock)
    ensures ApplySend(World(OPEN_GATE, [LaneRun(NewLane(Some(1), true), [], [], [], true, {0}, {}, 0)], []), 0, MESSAGE, clock)
         == (FULL_WORLD, Sent(MESSAGE.Admitted(1, None)))
  {
    var newLane := LaneRun(NewLane(Some(1), true), [], [], [], true, {0}, {}, 0);
    var (w', result) := ApplySend(World(OPEN_GATE, [newLane], []), 0, MESSAGE, clock);
    assert TrySend(OPEN_GATE, newLane.lane, MESSAGE, clock).lane == FULL_LANE;
    assert w'.lanes[0] == FULL_RUN;
    assert w'.lanes == [FULL_RUN];
    assert w'.log == FULL_WORLD.log;
  }

  lemma RetryFindsLaneFull(clock: Clock)
    ensures ApplySend(FULL_WORLD, 0, MESSAGE, clock) == (FULL_WORLD, Full(MESSAGE))
  {
    assert FULL_WORLD.lanes[0 := FULL_RUN.(lane := FULL_LANE)] == FULL_WORLD.lanes;
  }

  lemma FindLaneFull(before: seq<State>, clock: Clock) returns (trace: seq<State>)
    requires Reaches(before, Before(0, Idle))
    ensures Reaches(trace, Before(0, Register(0, 0, MESSAGE)))
  {
    var s1, s2 := Before(0, Attempt(0, 0, MESSAGE)), Before(0, Register(0, 0, MESSAGE));
    assert Step(Before(0, Idle), s1) by {
      assert BeginSend(Before(0, Idle), 0, 0, 0, MESSAGE, s1);
    }
    Extend(before, Before(0, Idle), s1);
    assert Step(s1, s2) by {
      RetryFindsLaneFull(clock);
      assert TryStep(s1, 0, clock, s2);
    }
    Extend(before + [s1], s1, s2);
    trace := before + [s1] + [s2];
  }

  lemma RegisterOnLane(before: seq<State>) returns (trace: seq<State>)
    requires Reaches(before, Before(0, Register(0, 0, MESSAGE)))
    ensures Reaches(trace, Before(1, ReadVersion(0, 0, MESSAGE)))
  {
    var s1, s2 := Before(0, Register(0, 0, MESSAGE)), Before(1, ReadVersion(0, 0, MESSAGE));
    assert RegisterStep(s1, 0, s2);
    Extend(before, s1, s2);
    trace := before + [s2];
  }

  lemma ParkOnLane(before: seq<State>, clock: Clock) returns (trace: seq<State>)
    requires Reaches(before, Before(1, ReadVersion(0, 0, MESSAGE)))
    ensures Reaches(trace, Before(1, Asleep(0, 0, MESSAGE, 0)))
  {
    var s1, s2, s3 := Before(1, Retry(0, 0, MESSAGE, 0)), Before(1, Check(0, 0, MESSAGE, 0)), Before(1, Asleep(0, 0, MESSAGE, 0));
    assert LocalStep(Before(1, ReadVersion(0, 0, MESSAGE)), 0, s1);
    Extend(before, Before(1, ReadVersion(0, 0, MESSAGE)), s1);
    RetryFindsLaneFull(clock);
    assert TryStep(s1, 0, clock, s2);
    Extend(before + [s1], s1, s2);
    assert LocalStep(s2, 0, s3);
    Extend(before + [s1] + [s2], s2, s3);
    trace := before + [s1] + [s2] + [s3];
  }

  lemma TerminatePastLane(before: seq<State>) returns (trace: seq<State>)
    requires Reaches(before, Before(1, Asleep(0, 0, MESSAGE, 0)))
    ensures Reaches(trace, After(Idle))
  {
    var s1, s2 := After(Collecting(None)), After(Waking({}, None, None));
    assert Act(Before(1, Asleep(0, 0, MESSAGE, 0)), 1, Terminate, s1);
    Extend(before, Before(1, Asleep(0, 0, MESSAGE, 0)), s1);
    assert NormalLanes(CLOSED_WORLD) == {};
    assert LocalStep(s1, 1, s2);
    Extend(before + [s1], s1, s2);
    assert LocalStep(s2, 1, After(Idle));
    Extend(before + [s1] + [s2], s2, After(Idle));
    trace := before + [s1] + [s2] + [After(Idle)];
  }

  /**
   * A terminated priority lane is outside the theorem: termination does not wake it, and a sender
   * can stay asleep with every wake call returned although a retry would end its wait.
   */
  lemma BoundedPriorityLaneLosesWakeup(clock: Clock) returns (trace: seq<State>)
    ensures Reaches(trace, After(Idle))
    ensures After(Idle).threads == [Asleep(0, 0, MESSAGE, 0), Idle]
    ensures FULL_LANE.priority && FULL_LANE.capacity == Some(1) && CLOSED_WORLD.lanes[0].lane == FULL_LANE
    ensures !WouldBlock(CLOSED_WORLD.gate, FULL_LANE)
  {
    trace := FillPriorityLane(clock);
    trace := FindLaneFull(trace, clock);
    trace := RegisterOnLane(trace);
    trace := ParkOnLane(trace, clock);
    trace := TerminatePastLane(trace);
  }

  // ---- Versions that wrap around ----

  /** A rendezvous lane on which `k` receives were begun and given up, and one more may be waiting. */
  function Meeting(k: nat, waiting: bool): World {
    var lane := Lane(Some(0), false, [], 1, 1, if waiting then 1 else 0);
    World(OPEN_GATE, [LaneRun(lane, [], [], [], true, {0}, if waiting then {0} else {}, k)], [])
  }

  const DUE := Check(0, 0, MESSAGE, 0)

  /** The sender is about to test the version it read, while another thread has moved it `p` times. */
  function Testing(k: nat, waiting: bool, p: nat, other: Pc): State {
    State(Meeting(k, waiting), [1], [p], [DUE, other])
  }

  lemma OpenMeeting(clock: Clock) returns (trace: seq<State>)
    ensures Reaches(trace, State(Meeting(0, false), [0], [0], [Register(0, 0, MESSAGE), Idle]))
  {
    var s0 := State(INITIAL, [], [], [Idle, Idle]);
    var s1 := State(Meeting(0, false), [0], [0], [Idle, Idle]);
    assert Act(s0, 1, OpenLane(Some(0), false, 0), s1);
    Extend([s0], s0, s1);
    var s2 := State(Meeting(0, false), [0], [0], [Attempt(0, 0, MESSAGE), Idle]);
    assert BeginSend(s1, 0, 0, 0, MESSAGE, s2);
    Extend([s0] + [s1], s1, s2);
    var s3 := State(Meeting(0, false), [0], [0], [Register(0, 0, MESSAGE), Idle]);
    NobodyWaits(0, clock);
    assert TryStep(s2, 0, clock, s3);
    Extend([s0] + [s1] + [s2], s2, s3);
    trace := [s0] + [s1] + [s2] + [s3];
  }

  lemma NobodyWaits(k: nat, clock: Clock)
    ensures ApplySend(Meeting(k, false), 0, MESSAGE, clock) == (Meeting(k, false), Full(MESSAGE))
  {
    var w := Meeting(k, false);
    assert w.lanes[0 := w.lanes[0]] == w.lanes;
  }

  lemma ReadyToTest(clock: Clock) returns (trace: seq<State>)
    ensures Reaches(trace, Testing(0, false, 0, Idle))
  {
    trace := OpenMeeting(clock);
    var s0 := State(Meeting(0, false), [0], [0], [Register(0, 0, MESSAGE), Idle]);
    var s1 := State(Meeting(0, false), [1], [0], [ReadVersion(0, 0, MESSAGE), Idle]);
    assert RegisterStep(s0, 0, s1);
    Extend(trace, s0, s1);
    trace := trace + [s1];
    var s2 := State(Meeting(0, false), [1], [0], [Retry(0, 0, MESSAGE, 0), Idle]);
    assert LocalStep(s1, 0, s2);
    Extend(trace, s1, s2);
    trace := trace + [s2];
    NobodyWaits(0, clock);
    assert TryStep(s2, 0, clock, Testing(0, false, 0, Idle));
    Extend(trace, s2, Testing(0, false, 0, Idle));
    trace := trace + [Testing(0, false, 0, Idle)];
  }

  lemma WaitBegins(k: nat)
    ensures Enabled(Meeting(k, false), BeginWait(0, 0)) && Apply(Meeting(k, false), BeginWait(0, 0)) == Meeting(k, true)
    ensures Enabled(Meeting(k, true), CancelWait(0, 0)) && Apply(Meeting(k, true), CancelWait(0, 0)) == Meeting(k + 1, false)
  {
    var w := Apply(Meeting(k, false), BeginWait(0, 0));
    assert w.lanes[0] == Meeting(k, true).lanes[0];
    assert w.lanes == Meeting(k, true).lanes;
    var v := Apply(Meeting(k, true), CancelWait(0, 0));
    assert v.lanes[0] == Meeting(k + 1, false).lanes[0];
    assert v.lanes == Meeting(k + 1, false).lanes;
  }

  /** A receive begins and its wake call runs to its end: the version moves once. */
  lemma WakeOnce(before: seq<State>, k: nat, p: nat) returns (trace: seq<State>)
    requires Reaches(before, Testing(k, false, p, Idle))
    ensures Reaches(trace, Testing(k, true, p + 1, Idle))
  {
    WaitBegins(k);
    var s0, s1 := Testing(k, false, p, Idle), Testing(k, true, p, WakeOne(0));
    assert Act(s0, 1, BeginWait(0, 0), s1);
    Extend(before, s0, s1);
    var s2 := Testing(k, true, p, Waking({}, Some((0, Load)), None));
    assert {0} - {0} == {};
    assert LocalStep(s1, 1, s2);
    Extend(before + [s1], s1, s2);
    var s3 := Testing(k, true, p, Waking({}, Some((0, Bump)), None));
    assert LocalStep(s2, 1, s3);
    Extend(before + [s1] + [s2], s2, s3);
    trace := WakeEnds(before + [s1] + [s2] + [s3], k, p);
  }

  lemma WakeEnds(before: seq<State>, k: nat, p: nat) returns (trace: seq<State>)
    requires Reaches(before, Testing(k, true, p, Waking({}, Some((0, Bump)), None)))
    ensures Reaches(trace, Testing(k, true, p + 1, Idle))
  {
    var s0 := Testing(k, true, p, Waking({}, Some((0, Bump)), None));
    var s1 := Testing(k, true, p + 1, Waking({}, Some((0, Notify)), None));
    assert BumpStep(s0, 1, 0, s1);
    Extend(before, s0, s1);
    var s2 := Testing(k, true, p + 1, Waking({}, None, None));
    assert NotifyStep(s1, 1, 0, s2);
    Extend(before + [s1], s1, s2);
    var s3 := Testing(k, true, p + 1, Idle);
    assert LocalStep(s2, 1, s3);
    Extend(before + [s1] + [s2], s2, s3);
    trace := before + [s1] + [s2] + [s3];
  }

  lemma {:induction false} WakeOften(n: nat, clock: Clock) returns (trace: seq<State>)
    ensures Reaches(trace, Testing(n, false, n, Idle))
  {
    if n == 0 {
      trace := ReadyToTest(clock);
    } else {
      trace := WakeOften(n - 1, clock);
      trace := WakeOnce(trace, n - 1, n - 1);
      WaitBegins(n - 1);
      var s0, s1 := Testing(n - 1, true, n, Idle), Testing(n, false, n, Idle);
      assert Act(s0, 1, CancelWait(0, 0), s1);
      Extend(trace, s0, s1);
      trace := trace + [s1];
    }
  }

  /**
   * After exactly 2^64 moves of the version between its reading and its testing, a sender goes to
   * sleep with every wake call returned although a receive is waiting for it.
   */
  lemma WrappedVersionLosesWakeup(clock: Clock) returns (trace: seq<State>)
    ensures Reaches(trace, State(Meeting(U64_MAX, true), [1], [WRAP], [Asleep(0, 0, MESSAGE, 0), Idle]))
    ensures !LaneBlocked(Meeting(U64_MAX, true), 0) && Watched(Meeting(U64_MAX, true), 0)
  {
    trace := WakeOften(U64_MAX, clock);
    trace := WakeOnce(trace, U64_MAX, U64_MAX);
    var s0 := Testing(U64_MAX, true, WRAP, Idle);
    var s1 := State(Meeting(U64_MAX, true), [1], [WRAP], [Asleep(0, 0, MESSAGE, 0), Idle]);
    assert WRAP % WRAP == 0 % WRAP;
    assert LocalStep(s0, 0, s1);
    Extend(trace, s0, s1);
    trace := trace + [s1];
  }
}
