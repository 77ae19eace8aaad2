/**
 * The gate's lock-free reads. Inside a critical section the lifecycle is written first and the
 * matching atomic flag second, so a reader without the lock can run between the two.
 */
module GateFlags {
  import opened Common
  import opened Requests
  import opened Admission

  /** A critical section: an admission with the lane as its queue lock shows it, termination, or clearing the deadline. */
  datatype Job = Admit(lane: Lane, item: RequestEnvelope, clock: Clock) | Close | Clear

  /** `Snapshot*` are the steps of `snapshot`: load the flag, then lock and read. */
  datatype Pc =
    | Out
    | Locked(job: Job)
    | Written(job: Job, installed: bool)
    | Flagged(job: Job)
    | SnapshotFenced
    | SnapshotLocked
    | Answered(fence: Option<nat>, deadline: Option<Instant>)

  /** `committed` is the lifecycle as the last holder of the lock left it. */
  datatype State = State(
    data: Gate,
    committed: Gate,
    fenced: bool,
    closed: bool,
    holder: Option<nat>,
    threads: seq<Pc>)

  predicate Initial(s: State) {
    && s.data == s.committed == OPEN_GATE && !s.fenced && !s.closed && s.holder == None
    && forall t :: 0 <= t < |s.threads| ==> s.threads[t] == Out
  }

  /** What the section does to the lifecycle. */
  function Perform(g: Gate, job: Job): Gate {
    match job
    case Admit(lane, item, clock) => TrySend(g, lane, item, clock).gate
    case Close => g.(terminated := true)
    case Clear => g.(deadline := None)
  }

  /** The section admits a fence. */
  predicate Installs(g: Gate, job: Job) {
    job.Admit? && job.item.IsFence() && TrySend(g, job.lane, job.item, job.clock).result.Sent?
  }

  function Move(s: State, t: nat, pc: Pc): State
    requires t < |s.threads|
  {
    s.(threads := s.threads[t := pc])
  }

  ghost predicate Step(s: State, t: nat, s': State) {
    && t < |s.threads|
    && match s.threads[t]
       case Out =>
         || (exists job :: s.holder.None? && s' == Move(s, t, Locked(job)).(holder := Some(t)))
         || s' == Move(s, t, if s.fenced then SnapshotFenced else Answered(None, None))
       case Locked(job) => s' == Move(s, t, Written(job, Installs(s.data, job))).(data := Perform(s.data, job))
       case Written(job, installed) =>
         s' == Move(s, t, Flagged(job)).(fenced := s.fenced || installed, closed := s.closed || job.Close?)
       case Flagged(job) => s' == Move(s, t, Out).(holder := None, committed := s.data)
       case SnapshotFenced => s.holder.None? && s' == Move(s, t, SnapshotLocked).(holder := Some(t))
       case SnapshotLocked => s' == Move(s, t, Answered(s.data.fence, s.data.deadline)).(holder := None)
       case Answered(_, _) => s' == Move(s, t, Out)
  }

  ghost predicate IsRun(trace: seq<State>, movers: seq<nat>) {
    && |trace| == |movers| + 1
    && Initial(trace[0])
    && forall i :: 0 <= i < |movers| ==> StepAt(trace, movers, i)
  }

  ghost predicate StepAt(trace: seq<State>, movers: seq<nat>, i: nat)
    requires |trace| == |movers| + 1 && i < |movers|
  {
    Step(trace[i], movers[i], trace[i + 1])
  }

  /** The linearised lifecycle: a critical section takes effect when it stores its flag. */
  function Visible(s: State): Gate {
    if s.holder.Some? && s.holder.value < |s.threads| && s.threads[s.holder.value].Written? then s.committed else s.data
  }

  predicate Inside(pc: Pc) {
    pc.Locked? || pc.Written? || pc.Flagged? || pc.SnapshotLocked?
  }

  predicate Inv(s: State) {
    Exclusive(s) && DataOk(s)
  }

  predicate Exclusive(s: State) {
    && (s.holder.Some? ==> s.holder.value < |s.threads|)
    && forall t :: 0 <= t < |s.threads| ==> (Inside(s.threads[t]) <==> s.holder == Some(t))
  }

  predicate DataOk(s: State) {
    && HolderOk(s)
    && s.fenced == Visible(s).fence.Some?
    && s.closed == Visible(s).terminated
    && GateOk(s.data) && GateOk(s.committed)
  }

  predicate GateOk(g: Gate) {
    (g.fence.None? ==> g.deadline.None?) && (g.fence.Some? ==> g.fence.value <= g.sequence)
  }

  /** What one section changes. */
  lemma PerformEffect(g: Gate, job: Job)
    requires GateOk(g)
    ensures GateOk(Perform(g, job))
    ensures Perform(g, job).fence == if Installs(g, job) then Some(g.sequence + 1) else g.fence
    ensures Perform(g, job).terminated == (g.terminated || job.Close?)
  {
  }

  /** Between lock and write nothing has changed; after the write the change is exactly the job's. */
  predicate HolderOk(s: State) {
    if s.holder.Some? && s.holder.value < |s.threads| then
      match s.threads[s.holder.value]
      case Written(job, installed) => s.data == Perform(s.committed, job) && installed == Installs(s.committed, job)
      case Flagged(job) => s.data == Perform(s.committed, job)
      case _ => s.data == s.committed
    else s.data == s.committed
  }

  lemma HolderKeepsExclusive(s: State, t: nat, s': State)
    requires Exclusive(s) && Step(s, t, s') && s.holder == Some(t)
    ensures Exclusive(s')
  {
    assert Inside(s.threads[t]);
    assert forall u :: 0 <= u < |s.threads| && u != t ==> s'.threads[u] == s.threads[u];
  }

  lemma OtherKeepsExclusive(s: State, t: nat, s': State)
    requires Exclusive(s) && Step(s, t, s') && s.holder != Some(t)
    ensures Exclusive(s')
  {
    assert !Inside(s.threads[t]);
    assert forall u :: 0 <= u < |s.threads| && u != t ==> s'.threads[u] == s.threads[u];
  }

  lemma HolderKeepsData(s: State, t: nat, s': State)
    requires Exclusive(s) && DataOk(s) && Step(s, t, s') && s.holder == Some(t)
    ensures DataOk(s')
  {
    assert Inside(s.threads[t]);
    match s.threads[t]
    case Locked(job) => PerformEffect(s.data, job);
    case Written(job, _) => PerformEffect(s.committed, job);
    case _ =>
  }

  lemma OtherKeepsData(s: State, t: nat, s': State)
    requires Exclusive(s) && DataOk(s) && Step(s, t, s') && s.holder != Some(t)
    ensures DataOk(s')
  {
    assert !Inside(s.threads[t]);
    if s.holder.Some? {
      assert s'.threads[s.holder.value] == s.threads[s.holder.value];
    }
  }

  lemma StepKeepsInv(s: State, t: nat, s': State)
    requires Inv(s) && Step(s, t, s')
    ensures Inv(s')
  {
    if s.holder == Some(t) {
      HolderKeepsExclusive(s, t, s');
      HolderKeepsData(s, t, s');
    } else {
      OtherKeepsExclusive(s, t, s');
      OtherKeepsData(s, t, s');
    }
  }

  lemma {:induction false} RunKeepsInv(trace: seq<State>, movers: seq<nat>, n: nat)
    requires IsRun(trace, movers) && n < |trace|
    ensures Inv(trace[n])
  {
    if n > 0 {
      RunKeepsInv(trace, movers, n - 1);
      assert StepAt(trace, movers, n - 1);
      StepKeepsInv(trace[n - 1], movers[n - 1], trace[n]);
    }
  }

  /** `has_fence` and `is_terminated` return the linearised lifecycle's value at the moment of the load. */
  lemma FlagsAreLinearised(trace: seq<State>, movers: seq<nat>, n: nat)
    requires IsRun(trace, movers) && n < |trace|
    ensures trace[n].fenced <==> Visible(trace[n]).fence.Some?
    ensures trace[n].closed <==> Visible(trace[n]).terminated
    ensures trace[n].holder.None? ==> Visible(trace[n]) == trace[n].data == trace[n].committed
  {
    RunKeepsInv(trace, movers, n);
  }

  /** A `snapshot` answer is the linearised fence and deadline at the step that produced it. */
  lemma SnapshotIsLinearised(trace: seq<State>, movers: seq<nat>, n: nat)
    requires IsRun(trace, movers) && n < |movers|
    requires movers[n] < |trace[n + 1].threads| && trace[n + 1].threads[movers[n]].Answered?
    ensures var pc := trace[n + 1].threads[movers[n]];
            pc.fence == Visible(trace[n]).fence && pc.deadline == Visible(trace[n]).deadline
  {
    RunKeepsInv(trace, movers, n);
    assert StepAt(trace, movers, n);
    var s, t := trace[n], movers[n];
    if s.threads[t].SnapshotLocked? {
      assert Inside(s.threads[t]) && s.holder == Some(t);
    }
  }

  /** Every step leaves the linearised lifecycle alone or performs the holder's whole job on it, once. */
  lemma CriticalSectionsAreAtomic(trace: seq<State>, movers: seq<nat>, n: nat)
    requires IsRun(trace, movers) && n < |movers|
    ensures movers[n] < |trace[n].threads|
    ensures var before, after, pc := Visible(trace[n]), Visible(trace[n + 1]), trace[n].threads[movers[n]];
            if pc.Written? then after == Perform(before, pc.job) else after == before
  {
    RunKeepsInv(trace, movers, n);
    RunKeepsInv(trace, movers, n + 1);
    assert StepAt(trace, movers, n);
    var s, t := trace[n], movers[n];
    if Inside(s.threads[t]) {
      assert s.holder == Some(t);
    } else {
      assert s.holder != Some(t);
    }
  }

  /** The step makes a second fence visible: only an open priority lane with room takes it. */
  predicate Replaces(s: State, t: nat) {
    && t < |s.threads| && s.threads[t].Written?
    && var job := s.threads[t].job;
       job.Admit? && TakesSecondFence(Visible(s), job.lane, job.item, job.clock)
  }

  lemma VisibleStep(trace: seq<State>, movers: seq<nat>, n: nat)
    requires IsRun(trace, movers) && n < |movers|
    ensures Visible(trace[n]).terminated ==> Visible(trace[n + 1]).terminated
    ensures var f, f' := Visible(trace[n]).fence, Visible(trace[n + 1]).fence;
            f.Some? ==> f'.Some? && f.value <= f'.value && (f'.value == f.value <==> !Replaces(trace[n], movers[n]))
  {
    RunKeepsInv(trace, movers, n);
    CriticalSectionsAreAtomic(trace, movers, n);
    var g, pc := Visible(trace[n]), trace[n].threads[movers[n]];
    if pc.Written? {
      PerformEffect(g, pc.job);
    }
  }

  /**
   * A termination or a fence that has been seen stays. The fence's number only grows, and it is
   * unchanged if and only if no second fence was offered to an open priority lane in between.
   */
  lemma {:induction false} ClosureIsPermanent(trace: seq<State>, movers: seq<nat>, m: nat, n: nat)
    requires IsRun(trace, movers) && m <= n < |trace|
    ensures Visible(trace[m]).terminated ==> Visible(trace[n]).terminated
    ensures var f, f' := Visible(trace[m]).fence, Visible(trace[n]).fence;
            f.Some? ==>
              && f'.Some? && f.value <= f'.value
              && (f'.value == f.value <==> forall i :: m <= i < n ==> !Replaces(trace[i], movers[i]))
  {
    if m < n {
      ClosureIsPermanent(trace, movers, m, n - 1);
      VisibleStep(trace, movers, n - 1);
    }
  }
}
