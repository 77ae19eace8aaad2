/** A blocking `send` is one send: however often it is refused, woken and retried, it admits its item at most once. */
module SendOnce {
  import opened Requests
  import opened Admission
  import opened SendWake

  /** The thread is inside a `send` that has not been answered yet. */
  predicate Trying(pc: Pc) {
    pc.Attempt? || pc.Register? || pc.ReadVersion? || pc.Retry? || pc.Check? || pc.Asleep? || pc.Notified?
  }

  predicate Offers(pc: Pc, lane: nat, sender: nat, item: RequestEnvelope) {
    Trying(pc) && pc.lane == lane && pc.sender == sender && pc.item == item
  }

  ghost predicate Begins(s: State, t: nat, s': State) {
    exists lane, sender, item :: BeginSend(s, t, lane, sender, item, s')
  }

  ghost predicate Tries(s: State, t: nat, s': State) {
    exists clock :: TryStep(s, t, clock, s')
  }

  ghost predicate AnsweredWith(s: State, t: nat, clock: Clock, s': State) {
    && TryStep(s, t, clock, s')
    && !ApplySend(s.world, s.threads[t].lane, s.threads[t].item, clock).1.Full?
  }

  /** The attempt was admitted, or told that the lane is closed. */
  ghost predicate Answered(s: State, t: nat, s': State) {
    exists clock :: AnsweredWith(s, t, clock, s')
  }

  ghost predicate Admits(s: State, t: nat, s': State) {
    Tries(s, t, s') && |s'.world.log| > |s.world.log|
  }

  // ---- One step ----

  /** An attempt moves its thread: on to the next try only if the lane was full. */
  lemma AttemptMoves(s: State, t: nat, clock: Clock, s': State)
    requires TryStep(s, t, clock, s')
    ensures s'.threads[t] != s.threads[t]
    ensures var pc := s.threads[t];
            if ApplySend(s.world, pc.lane, pc.item, clock).1.Full? then Offers(s'.threads[t], pc.lane, pc.sender, pc.item)
            else !Trying(s'.threads[t])
  {
  }

  /** Other threads leave an attempt alone. */
  predicate SameOffer(pc: Pc, pc': Pc) {
    && (Trying(pc) ==> Offers(pc', pc.lane, pc.sender, pc.item))
    && (!Trying(pc) ==> !Trying(pc'))
    && (pc.Attempt? || pc.Retry? ==> pc' == pc)
  }

  lemma OthersStand(s: State, u: nat, s': State, t: nat)
    requires |s'.threads| == |s.threads| && t != u && t < |s.threads| && u < |s.threads|
    requires s'.threads == s.threads[u := s'.threads[u]]
    ensures SameOffer(s.threads[t], s'.threads[t]) && !Tries(s, t, s')
  {
    forall clock | TryStep(s, t, clock, s')
      ensures false
    {
      AttemptMoves(s, t, clock, s');
    }
  }

  /** What one step of any thread means for thread `t`. */
  ghost predicate Means(s: State, t: nat, s': State)
    requires t < |s.threads|
  {
    && |s'.threads| == |s.threads|
    && if Answered(s, t, s') then Trying(s.threads[t]) && !Trying(s'.threads[t])
       else if Begins(s, t, s') then !Trying(s.threads[t])
       else (Trying(s.threads[t]) ==> Offers(s'.threads[t], s.threads[t].lane, s.threads[t].sender, s.threads[t].item))
            && (!Trying(s.threads[t]) ==> !Trying(s'.threads[t]))
  }

  lemma TryMeans(s: State, u: nat, clock: Clock, s': State, t: nat)
    requires TryStep(s, u, clock, s') && t < |s.threads|
    ensures Means(s, t, s')
  {
    if t == u {
      AttemptMoves(s, t, clock, s');
      if AnsweredWith(s, t, clock, s') {
      } else {
        forall other | AnsweredWith(s, t, other, s')
          ensures false
        {
          AttemptMoves(s, t, other, s');
        }
      }
    } else {
      OthersStand(s, u, s', t);
    }
  }

  lemma NotTried(s: State, t: nat, s': State)
    requires t < |s.threads| && !s.threads[t].Attempt? && !s.threads[t].Retry?
    ensures !Tries(s, t, s') && !Answered(s, t, s')
  {
  }

  /** A step that moves only thread `u`, and is no attempt and no beginning. */
  lemma QuietMeans(s: State, u: nat, s': State, t: nat)
    requires t < |s.threads| && u < |s.threads| && |s'.threads| == |s.threads| && s'.threads == s.threads[u := s'.threads[u]]
    requires !s.threads[u].Attempt? && !s.threads[u].Retry? && SameOffer(s.threads[u], s'.threads[u])
    ensures Means(s, t, s')
  {
    if t == u {
      NotTried(s, t, s');
    } else {
      OthersStand(s, u, s', t);
    }
  }

  lemma BeginMeans(s: State, u: nat, lane: nat, sender: nat, item: RequestEnvelope, s': State, t: nat)
    requires BeginSend(s, u, lane, sender, item, s') && t < |s.threads|
    ensures Means(s, t, s')
  {
    if t == u {
      NotTried(s, t, s');
      assert Begins(s, t, s');
    } else {
      OthersStand(s, u, s', t);
    }
  }

  lemma NotifyMeans(s: State, u: nat, l: nat, s': State, t: nat)
    requires NotifyStep(s, u, l, s') && t < |s.threads|
    ensures Means(s, t, s')
  {
    if s.threads[t].Attempt? || s.threads[t].Retry? {
      assert s'.threads[t] == s.threads[t];
      forall clock | TryStep(s, t, clock, s')
        ensures false
      {
        AttemptMoves(s, t, clock, s');
      }
    } else {
      NotTried(s, t, s');
    }
  }

  lemma LocalMeans(s: State, u: nat, s': State, t: nat)
    requires LocalStep(s, u, s') && t < |s.threads|
    ensures Means(s, t, s')
  {
    assert SameOffer(s.threads[u], s'.threads[u]);
    QuietMeans(s, u, s', t);
  }

  lemma StepMeans(s: State, s': State, t: nat)
    requires Step(s, s') && t < |s.threads|
    ensures Means(s, t, s')
  {
    if u, a :| Act(s, u, a, s') {
      QuietMeans(s, u, s', t);
    } else if u: nat, lane: nat, sender: nat, item :| BeginSend(s, u, lane, sender, item, s') {
      BeginMeans(s, u, lane, sender, item, s', t);
    } else if u, clock :| TryStep(s, u, clock, s') {
      TryMeans(s, u, clock, s', t);
    } else if u :| RegisterStep(s, u, s') || UnregisterStep(s, u, s') {
      QuietMeans(s, u, s', t);
    } else if u :| LocalStep(s, u, s') {
      LocalMeans(s, u, s', t);
    } else if u, l :| BumpStep(s, u, l, s') {
      QuietMeans(s, u, s', t);
    } else if u, l :| NotifyStep(s, u, l, s') {
      NotifyMeans(s, u, l, s', t);
    }
  }

  /** An admission appends the offered item, with the next number, to the log; any other answer is a closed lane and changes nothing. */
  lemma AnswersMean(s: State, t: nat, s': State)
    requires Answered(s, t, s')
    ensures var pc := s.threads[t];
            if Admits(s, t, s') then
              && |s'.world.log| == |s.world.log| + 1 && s'.world.log[..|s.world.log|] == s.world.log
              && var entry := s'.world.log[|s.world.log|];
                 && entry.lane == pc.lane && entry.item.request == pc.item.request
                 && entry.item.meta == pc.item.meta.(sequence := s.world.gate.sequence + 1, deadline := entry.item.meta.deadline)
            else
              && s'.world == s.world && pc.lane < |s.world.lanes|
              && exists clock :: TrySend(s.world.gate, s.world.lanes[pc.lane].lane, pc.item, clock).result.Disconnected?
  {
    var clock :| AnsweredWith(s, t, clock, s');
    var pc := s.threads[t];
    AdmittedExactly(s.world.gate, s.world.lanes[pc.lane].lane, pc.item, clock);
    RefusedExactly(s.world.gate, s.world.lanes[pc.lane].lane, pc.item, clock);
    assert Tries(s, t, s');
    if !TrySend(s.world.gate, s.world.lanes[pc.lane].lane, pc.item, clock).result.Sent? {
      assert s.world.lanes[pc.lane := s.world.lanes[pc.lane]] == s.world.lanes;
    }
  }

  /** An attempt that is not answered leaves the log alone, so only an answer admits. */
  lemma AdmissionIsAnswer(s: State, t: nat, s': State)
    requires Admits(s, t, s')
    ensures Answered(s, t, s')
  {
    var clock :| TryStep(s, t, clock, s');
    assert AnsweredWith(s, t, clock, s');
  }

  // ---- Whole runs ----

  ghost predicate AnsweredAt(trace: seq<State>, t: nat, k: nat)
    requires k + 1 < |trace|
  {
    Answered(trace[k], t, trace[k + 1])
  }

  /** How many steps from `i` up to `j` answer an attempt of thread `t`. */
  ghost function Answers(trace: seq<State>, t: nat, i: nat, j: nat): nat
    requires i <= j < |trace|
    decreases j - i
  {
    if i == j then 0 else Answers(trace, t, i, j - 1) + if AnsweredAt(trace, t, j - 1) then 1 else 0
  }

  ghost predicate BeginsAt(trace: seq<State>, t: nat, k: nat)
    requires k + 1 < |trace|
  {
    Begins(trace[k], t, trace[k + 1])
  }

  /** What step `k` does to a `send` of thread `t`, or to none. */
  ghost predicate Moves(trace: seq<State>, t: nat, k: nat)
    requires k + 1 < |trace|
  {
    && t < |trace[k].threads| == |trace[k + 1].threads|
    && var pc, pc' := trace[k].threads[t], trace[k + 1].threads[t];
       if Trying(pc) then if AnsweredAt(trace, t, k) then !Trying(pc') else Offers(pc', pc.lane, pc.sender, pc.item)
       else !AnsweredAt(trace, t, k) && !Trying(pc')
  }

  lemma StepMoves(trace: seq<State>, t: nat, k: nat)
    requires SendWake.IsRun(trace) && k + 1 < |trace| && t < |trace[k].threads| && !BeginsAt(trace, t, k)
    ensures Moves(trace, t, k)
  {
    assert Step(trace[k], trace[k + 1]);
    StepMeans(trace[k], trace[k + 1], t);
  }

  lemma StepKeepsThreads(s: State, s': State)
    requires Step(s, s')
    ensures |s'.threads| == |s.threads|
  {
  }

  lemma {:induction false} ThreadsStay(trace: seq<State>, i: nat, j: nat)
    requires SendWake.IsRun(trace) && i <= j < |trace|
    ensures |trace[j].threads| == |trace[i].threads|
    decreases j
  {
    if i < j {
      ThreadsStay(trace, i, j - 1);
      assert Step(trace[j - 1], trace[j - 1 + 1]);
      StepKeepsThreads(trace[j - 1], trace[j]);
    }
  }

  lemma MovesAt(trace: seq<State>, t: nat, i: nat, k: nat)
    requires SendWake.IsRun(trace) && i <= k && k + 1 < |trace| && t < |trace[i].threads| && !BeginsAt(trace, t, k)
    ensures Moves(trace, t, k)
  {
    ThreadsStay(trace, i, k);
    StepMoves(trace, t, k);
  }

  lemma {:induction false} MovesCount(trace: seq<State>, t: nat, i: nat, j: nat, lane: nat, sender: nat, item: RequestEnvelope)
    requires i <= j < |trace| && t < |trace[i].threads| && Offers(trace[i].threads[t], lane, sender, item)
    requires forall k :: i <= k < j ==> Moves(trace, t, k)
    ensures t < |trace[j].threads| && Answers(trace, t, i, j) <= 1
    ensures if Answers(trace, t, i, j) == 0 then Offers(trace[j].threads[t], lane, sender, item) else !Trying(trace[j].threads[t])
    decreases j
  {
    if i < j {
      MovesCount(trace, t, i, j - 1, lane, sender, item);
      assert Moves(trace, t, j - 1);
    }
  }

  lemma OneAnswer(trace: seq<State>, t: nat, i: nat, j: nat, lane: nat, sender: nat, item: RequestEnvelope)
    requires SendWake.IsRun(trace) && i < j < |trace| && BeginSend(trace[i], t, lane, sender, item, trace[i + 1])
    requires forall k :: i < k < j ==> !BeginsAt(trace, t, k)
    ensures t < |trace[j].threads| && Answers(trace, t, i + 1, j) <= 1
    ensures if Answers(trace, t, i + 1, j) == 0 then Offers(trace[j].threads[t], lane, sender, item) else !Trying(trace[j].threads[t])
  {
    forall k | i + 1 <= k < j
      ensures Moves(trace, t, k)
    {
      MovesAt(trace, t, i + 1, k);
    }
    MovesCount(trace, t, i + 1, j, lane, sender, item);
  }

  /**
   * From one `send` of a thread to its next: at most one attempt is answered, and exactly one if the
   * thread is idle again; every attempt offers that item to that lane, and none follows the answer.
   */
  lemma SendsOnce(trace: seq<State>, t: nat, i: nat, j: nat, lane: nat, sender: nat, item: RequestEnvelope)
    requires SendWake.IsRun(trace) && i < j < |trace| && BeginSend(trace[i], t, lane, sender, item, trace[i + 1])
    requires forall k :: i < k < j ==> !BeginsAt(trace, t, k)
    ensures t < |trace[j].threads| && Answers(trace, t, i + 1, j) <= 1
    ensures trace[j].threads[t].Idle? ==> Answers(trace, t, i + 1, j) == 1
    ensures forall k :: i < k < j && Tries(trace[k], t, trace[k + 1]) ==>
              Answers(trace, t, i + 1, k) == 0 && t < |trace[k].threads| && Offers(trace[k].threads[t], lane, sender, item)
  {
    OneAnswer(trace, t, i, j, lane, sender, item);
    forall k | i < k < j && Tries(trace[k], t, trace[k + 1])
      ensures Answers(trace, t, i + 1, k) == 0 && t < |trace[k].threads| && Offers(trace[k].threads[t], lane, sender, item)
    {
      OneAnswer(trace, t, i, k, lane, sender, item);
    }
  }

  ghost predicate AdmitsAt(trace: seq<State>, t: nat, k: nat)
    requires k + 1 < |trace|
  {
    Admits(trace[k], t, trace[k + 1])
  }

  lemma {:induction false} AnswersGrow(trace: seq<State>, t: nat, i: nat, j: nat, k: nat)
    requires i <= k < j < |trace| && AnsweredAt(trace, t, k)
    ensures Answers(trace, t, i, j) >= Answers(trace, t, i, k) + 1
    decreases j
  {
    if k + 1 < j {
      AnswersGrow(trace, t, i, j - 1, k);
    }
  }

  lemma {:induction false} SomeAnswer(trace: seq<State>, t: nat, i: nat, j: nat) returns (k: nat)
    requires i <= j < |trace| && Answers(trace, t, i, j) > 0
    ensures i <= k < j && AnsweredAt(trace, t, k)
    decreases j
  {
    if AnsweredAt(trace, t, j - 1) {
      return j - 1;
    }
    k := SomeAnswer(trace, t, i, j - 1);
  }

  lemma AdmissionIsAnswerAt(trace: seq<State>, t: nat, k: nat)
    requires k + 1 < |trace| && AdmitsAt(trace, t, k)
    ensures AnsweredAt(trace, t, k)
  {
    AdmissionIsAnswer(trace[k], t, trace[k + 1]);
  }

  lemma TwoAnswers(trace: seq<State>, t: nat, i: nat, j: nat, k: nat, m: nat)
    requires i <= k < m < j < |trace| && AnsweredAt(trace, t, k) && AnsweredAt(trace, t, m)
    ensures Answers(trace, t, i, j) >= 2
  {
    AnswersGrow(trace, t, i, m, k);
    AnswersGrow(trace, t, i, j, m);
  }

  /** One `send` never puts its item on the log twice. */
  lemma AdmitsOnce(trace: seq<State>, t: nat, i: nat, j: nat, lane: nat, sender: nat, item: RequestEnvelope, k: nat, m: nat)
    requires SendWake.IsRun(trace) && i < j < |trace| && BeginSend(trace[i], t, lane, sender, item, trace[i + 1])
    requires forall k :: i < k < j ==> !BeginsAt(trace, t, k)
    requires i < k < m < j && AdmitsAt(trace, t, k)
    ensures !AdmitsAt(trace, t, m)
  {
    OneAnswer(trace, t, i, j, lane, sender, item);
    AdmissionIsAnswerAt(trace, t, k);
    if AdmitsAt(trace, t, m) {
      AdmissionIsAnswerAt(trace, t, m);
      TwoAnswers(trace, t, i + 1, j, k, m);
    }
  }

  /** A `send` that has returned was admitted at one step, or told at one step that its lane is closed. */
  lemma ReturnsAnswered(trace: seq<State>, t: nat, i: nat, j: nat, lane: nat, sender: nat, item: RequestEnvelope) returns (k: nat)
    requires SendWake.IsRun(trace) && i < j < |trace| && BeginSend(trace[i], t, lane, sender, item, trace[i + 1])
    requires forall k :: i < k < j ==> !BeginsAt(trace, t, k)
    requires t < |trace[j].threads| && trace[j].threads[t].Idle?
    ensures i < k < j && AnsweredAt(trace, t, k)
    ensures t < |trace[k].threads| && Offers(trace[k].threads[t], lane, sender, item)
    ensures AdmitsAt(trace, t, k) || trace[k + 1].world == trace[k].world
  {
    SendsOnce(trace, t, i, j, lane, sender, item);
    k := SomeAnswer(trace, t, i + 1, j);
    AnsweredTries(trace[k], t, trace[k + 1]);
    AnswersMean(trace[k], t, trace[k + 1]);
  }

  lemma AnsweredTries(s: State, t: nat, s': State)
    requires Answered(s, t, s')
    ensures Tries(s, t, s')
  {
    var clock :| AnsweredWith(s, t, clock, s');
  }

  /** And it does sleep: left alone on a full lane, a registered sender reads the version, is refused again, and parks. */
  lemma BlockedSenderSleeps(s: State, t: nat, clock: Clock) returns (s1: State, s2: State, s3: State)
    requires t < |s.threads| && s.threads[t].ReadVersion?
    requires var pc := s.threads[t];
             && pc.lane < |s.progress| && pc.lane < |s.world.lanes| && pc.sender in s.world.lanes[pc.lane].senderHandles
             && LaneBlocked(s.world, pc.lane)
    ensures Step(s, s1) && Step(s1, s2) && Step(s2, s3) && s3.world == s.world
    ensures s3.threads == s.threads[t := Asleep(s.threads[t].lane, s.threads[t].sender, s.threads[t].item, s.progress[s.threads[t].lane])]
  {
    var pc := s.threads[t];
    var v := s.progress[pc.lane];
    s1 := s.(threads := s.threads[t := Retry(pc.lane, pc.sender, pc.item, v)]);
    assert LocalStep(s, t, s1);
    s2 := s.(threads := s.threads[t := Check(pc.lane, pc.sender, pc.item, v)]);
    FullIsWouldBlock(s.world.gate, s.world.lanes[pc.lane].lane, pc.item, clock);
    assert s.world.lanes[pc.lane := s.world.lanes[pc.lane]] == s.world.lanes;
    assert s1.threads[t := s2.threads[t]] == s2.threads;
    assert TryStep(s1, t, clock, s2);
    s3 := s.(threads := s.threads[t := Asleep(pc.lane, pc.sender, pc.item, v)]);
    assert s2.threads[t := s3.threads[t]] == s3.threads;
    assert LocalStep(s2, t, s3);
  }

  /** A wake-up that finds the version unmoved sleeps again; any other goes on to a new try. */
  lemma WokenSenders(s: State, t: nat, s': State)
    requires LocalStep(s, t, s') && s.threads[t].Notified?
    ensures var pc := s.threads[t];
            && pc.lane < |s.progress|
            && s'.threads[t] == if (s.progress[pc.lane] - pc.version) % WRAP == 0
                                then Asleep(pc.lane, pc.sender, pc.item, pc.version) else ReadVersion(pc.lane, pc.sender, pc.item)
  {
  }

  /** What of the lane changed in a way that may let a sender in. */
  predicate Frees(r: LaneRun, r': LaneRun) {
    || (|r'.taken| > |r.taken| && r.lane.capacity.Some?)
    || r'.lane.waiting > r.lane.waiting
    || r'.lane.receivers < r.lane.receivers
  }

  predicate Closes(g: Gate, g': Gate) {
    (g'.terminated && !g.terminated) || g'.fence != g.fence
  }

  /** An action owes a lane a wake exactly when it frees that lane, or closes the gate that the lane obeys. */
  lemma WakesExactly(w: World, a: Action, l: nat)
    requires Enabled(w, a) && l < |w.lanes| && LaneInv(w.lanes[l])
    requires w.gate.fence.Some? ==> w.gate.fence.value <= w.gate.sequence
    ensures var w' := Apply(w, a);
            && l < |w'.lanes|
            && (Owes(w', AfterAction(w, a), l) <==>
                  || (LaneLocal(a) && a.lane == l && Frees(w.lanes[l], w'.lanes[l]))
                  || (Closes(w.gate, w'.gate) && !w.lanes[l].lane.priority))
  {
  }
}
