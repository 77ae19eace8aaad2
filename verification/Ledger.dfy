/**
 * The publish ledger of an ordered shutdown: a pending counter and a set-once failure cell.
 * Finishing is split into publishing the failure and then decrementing; reading the result is
 * split into loading the counter and then reading the cell.
 */
module Ledger {
  import opened Common

  type NoticeError = nat

  const RECV: NoticeError := 0

  /** `Ok(true)` promises that nothing is pending and nothing has failed. */
  function Answer(pending: int, failure: Option<NoticeError>): Result<bool, NoticeError> {
    if failure.Some? then Err(failure.value) else Ok(pending == 0)
  }

  function SetOnce(failure: Option<NoticeError>, error: NoticeError): Option<NoticeError> {
    if failure.Some? then failure else Some(error)
  }

  class SharedLedger {
    var pending: int
    var failure: Option<NoticeError>

    constructor ()
      ensures pending == 0 && failure == None
    {
      pending, failure := 0, None;
    }

    method ReadResult() returns (r: Result<bool, NoticeError>)
      ensures failure.Some? ==> r == Err(failure.value)
      ensures failure.None? ==> r == Ok(pending == 0)
    {
      var count := pending;
      if failure.Some? {
        return Err(failure.value);
      }
      return Ok(count == 0);
    }
  }

  /** An observation holds its ledger until it finishes or is dropped, whichever comes first. */
  class Observation {
    var held: bool
    const ledger: SharedLedger

    constructor (ledger: SharedLedger)
      modifies ledger
      ensures held && this.ledger == ledger
      ensures ledger.pending == old(ledger.pending) + 1 && ledger.failure == old(ledger.failure)
    {
      this.ledger := ledger;
      this.held := true;
      new;
      ledger.pending := ledger.pending + 1;
    }

    method Finish(result: Option<NoticeError>)
      modifies this, ledger
      ensures !held
      ensures ledger.pending == old(ledger.pending) - (if old(held) then 1 else 0)
      ensures ledger.failure == if old(held) && result.Some? then SetOnce(old(ledger.failure), result.value) else old(ledger.failure)
    {
      if held {
        held := false;
        if result.Some? {
          ledger.failure := SetOnce(ledger.failure, result.value);
        }
        ledger.pending := ledger.pending - 1;
      }
    }

    method Drop()
      modifies this, ledger
      ensures !held
      ensures ledger.pending == old(ledger.pending) - (if old(held) then 1 else 0)
      ensures ledger.failure == if old(held) then SetOnce(old(ledger.failure), RECV) else old(ledger.failure)
    {
      if held {
        held := false;
        ledger.failure := SetOnce(ledger.failure, RECV);
        ledger.pending := ledger.pending - 1;
      }
    }
  }

  // ---- Racing observations and readers ----

  /** `result` is the error the observation finished with, if any. */
  datatype Progress =
    | Live
    | Failing(error: NoticeError)
    | Decrementing(result: Option<NoticeError>)
    | Done(result: Option<NoticeError>)

  /** `registered` counts the observations that existed when the counter was loaded. */
  datatype Reader =
    | Waiting
    | Loaded(pending: int, registered: nat)
    | Returned(answer: Result<bool, NoticeError>, registered: nat)

  datatype State = State(
    pending: int,
    failure: Option<NoticeError>,
    observations: seq<Progress>,
    readers: seq<Reader>)

  datatype Move =
    | Register
    | Finish(i: nat, result: Option<NoticeError>)
    | SetFailure(i: nat)
    | Decrement(i: nat)
    | StartReader
    | LoadPending(r: nat)
    | ReadFailure(r: nat)

  predicate Enabled(s: State, m: Move) {
    match m
    case Register => true
    case StartReader => true
    case Finish(i, _) => i < |s.observations| && s.observations[i].Live?
    case SetFailure(i) => i < |s.observations| && s.observations[i].Failing?
    case Decrement(i) => i < |s.observations| && s.observations[i].Decrementing?
    case LoadPending(r) => r < |s.readers| && s.readers[r].Waiting?
    case ReadFailure(r) => r < |s.readers| && s.readers[r].Loaded?
  }

  /** Dropping an observation is finishing it with `RECV`. */
  function Apply(s: State, m: Move): State
    requires Enabled(s, m)
  {
    match m
    case Register => s.(pending := s.pending + 1, observations := s.observations + [Live])
    case StartReader => s.(readers := s.readers + [Waiting])
    case Finish(i, result) =>
      s.(observations := s.observations[i := if result.Some? then Failing(result.value) else Decrementing(None)])
    case SetFailure(i) =>
      var error := s.observations[i].error;
      s.(failure := SetOnce(s.failure, error), observations := s.observations[i := Decrementing(Some(error))])
    case Decrement(i) =>
      s.(pending := s.pending - 1, observations := s.observations[i := Done(s.observations[i].result)])
    case LoadPending(r) => s.(readers := s.readers[r := Loaded(s.pending, |s.observations|)])
    case ReadFailure(r) =>
      s.(readers := s.readers[r := Returned(Answer(s.readers[r].pending, s.failure), s.readers[r].registered)])
  }

  const INITIAL := State(0, None, [], [])

  ghost predicate IsRun(trace: seq<State>, moves: seq<Move>) {
    && |trace| == |moves| + 1
    && trace[0] == INITIAL
    && forall i :: 0 <= i < |moves| ==> Enabled(trace[i], moves[i]) && trace[i + 1] == Apply(trace[i], moves[i])
  }

  /** The number of observations that have not been counted down yet. */
  function Unfinished(observations: seq<Progress>): nat {
    if observations == [] then 0
    else Unfinished(observations[..|observations| - 1]) + if observations[|observations| - 1].Done? then 0 else 1
  }

  predicate AllDone(observations: seq<Progress>, n: nat) {
    n <= |observations| && forall i :: 0 <= i < n ==> observations[i].Done?
  }

  predicate AllSucceeded(observations: seq<Progress>, n: nat) {
    n <= |observations| && forall i :: 0 <= i < n ==> observations[i] == Done(None)
  }

  predicate HasFailed(p: Progress) {
    (p.Decrementing? || p.Done?) && p.result.Some?
  }

  predicate ReaderOk(s: State, r: Reader) {
    match r
    case Waiting => true
    case Loaded(pending, n) => n <= |s.observations| && (pending == 0 ==> AllDone(s.observations, n))
    case Returned(answer, n) => answer == Ok(true) ==> AllSucceeded(s.observations, n)
  }

  predicate CellsOk(s: State) {
    && s.pending == Unfinished(s.observations)
    && (forall i :: 0 <= i < |s.observations| && HasFailed(s.observations[i]) ==> s.failure.Some?)
    && (s.failure.Some? ==> exists i :: 0 <= i < |s.observations| && FailedWith(s.observations[i], s.failure.value))
  }

  predicate Inv(s: State) {
    CellsOk(s) && ReadersOk(s)
  }

  predicate ReadersOk(s: State) {
    forall r :: 0 <= r < |s.readers| ==> ReaderOk(s, s.readers[r])
  }

  predicate FailedWith(p: Progress, error: NoticeError) {
    (p.Decrementing? || p.Done?) && p.result == Some(error)
  }

  lemma {:induction false} UnfinishedUpdate(o: seq<Progress>, i: nat, p: Progress)
    requires i < |o|
    ensures Unfinished(o[i := p]) == Unfinished(o) - (if o[i].Done? then 0 else 1) + (if p.Done? then 0 else 1)
  {
    var n := |o| - 1;
    if i == n {
      assert o[i := p][..n] == o[..n];
    } else {
      assert o[i := p][..n] == o[..n][i := p];
      UnfinishedUpdate(o[..n], i, p);
    }
  }

  lemma {:induction false} NoneUnfinished(o: seq<Progress>)
    ensures Unfinished(o) == 0 <==> AllDone(o, |o|)
  {
    if o != [] {
      NoneUnfinished(o[..|o| - 1]);
      assert forall i :: 0 <= i < |o| - 1 ==> o[i] == o[..|o| - 1][i];
    }
  }

  lemma MoveKeepsCells(s: State, m: Move)
    requires CellsOk(s) && Enabled(s, m)
    ensures CellsOk(Apply(s, m))
  {
    var s' := Apply(s, m);
    if s.failure.Some? {
      var i :| 0 <= i < |s.observations| && FailedWith(s.observations[i], s.failure.value);
      assert FailedWith(s'.observations[i], s.failure.value);
    }
    match m
    case Register =>
      assert s'.observations[..|s.observations|] == s.observations;
    case Finish(i, _) =>
      UnfinishedUpdate(s.observations, i, s'.observations[i]);
    case SetFailure(i) =>
      UnfinishedUpdate(s.observations, i, s'.observations[i]);
      assert FailedWith(s'.observations[i], s.observations[i].error);
    case Decrement(i) =>
      UnfinishedUpdate(s.observations, i, s'.observations[i]);
    case _ =>
  }

  lemma MoveKeepsReaders(s: State, m: Move)
    requires CellsOk(s) && ReadersOk(s) && Enabled(s, m)
    ensures ReadersOk(Apply(s, m))
  {
    var s' := Apply(s, m);
    NoneUnfinished(s.observations);
    assert forall i :: 0 <= i < |s.observations| && s.observations[i].Done? ==> s'.observations[i] == s.observations[i];
  }

  lemma {:induction false} RunKeepsInv(trace: seq<State>, moves: seq<Move>, n: nat)
    requires IsRun(trace, moves) && n < |trace|
    ensures Inv(trace[n])
  {
    if n > 0 {
      RunKeepsInv(trace, moves, n - 1);
      MoveKeepsCells(trace[n - 1], moves[n - 1]);
      MoveKeepsReaders(trace[n - 1], moves[n - 1]);
    }
  }

  /** In a single state: whoever was answered `Ok(true)` was told the truth about all it could know of. */
  lemma ReturnedIsSound(s: State, r: nat, i: nat)
    requires Inv(s) && r < |s.readers| && s.readers[r].Returned? && s.readers[r].answer == Ok(true)
    requires i < s.readers[r].registered
    ensures i < |s.observations| && s.observations[i] == Done(None)
  {
    assert ReaderOk(s, s.readers[r]);
  }

  /**
   * Soundness under races: when a reader returns `Ok(true)`, every observation registered before
   * its counter load has finished, and finished successfully.
   */
  lemma OkTrueIsSound(trace: seq<State>, moves: seq<Move>, n: nat, r: nat, i: nat)
    requires IsRun(trace, moves) && n < |trace| && r < |trace[n].readers|
    requires trace[n].readers[r].Returned? && trace[n].readers[r].answer == Ok(true)
    requires i < trace[n].readers[r].registered
    ensures i < |trace[n].observations| && trace[n].observations[i] == Done(None)
  {
    RunKeepsInv(trace, moves, n);
    ReturnedIsSound(trace[n], r, i);
  }

  /** The errors published by the first `n` moves, in order. */
  function Published(trace: seq<State>, moves: seq<Move>, n: nat): seq<NoticeError>
    requires n <= |moves| < |trace|
  {
    if n == 0 then []
    else
      var s, m := trace[n - 1], moves[n - 1];
      Published(trace, moves, n - 1)
        + if m.SetFailure? && m.i < |s.observations| && s.observations[m.i].Failing? then [s.observations[m.i].error] else []
  }

  lemma {:induction false} FailureIsFirstPublished(trace: seq<State>, moves: seq<Move>, n: nat)
    requires IsRun(trace, moves) && n < |trace|
    ensures var errors := Published(trace, moves, n);
            trace[n].failure == if errors == [] then None else Some(errors[0])
  {
    if n > 0 {
      FailureIsFirstPublished(trace, moves, n - 1);
      assert trace[n - 1 + 1] == Apply(trace[n - 1], moves[n - 1]);
    }
  }

  /** A loaded reader keeps what it loaded until its second access. */
  lemma {:induction false} LoadIsKept(trace: seq<State>, moves: seq<Move>, m: nat, n: nat, r: nat)
    requires IsRun(trace, moves) && m < n <= |moves| && moves[m] == LoadPending(r)
    ensures r < |trace[n].readers|
    ensures trace[n].readers[r] == Loaded(trace[m].pending, |trace[m].observations|) || trace[n].readers[r].Returned?
  {
    assert trace[n - 1 + 1] == Apply(trace[n - 1], moves[n - 1]);
    if m < n - 1 {
      LoadIsKept(trace, moves, m, n - 1, r);
    }
  }

  /** Whoever reads the failure cell has loaded the counter before. */
  lemma {:induction false} LoadPrecedes(trace: seq<State>, moves: seq<Move>, n: nat, r: nat) returns (m: nat)
    requires IsRun(trace, moves) && n < |trace| && r < |trace[n].readers| && !trace[n].readers[r].Waiting?
    ensures m < n && moves[m] == LoadPending(r)
  {
    assert n > 0 && trace[n - 1 + 1] == Apply(trace[n - 1], moves[n - 1]);
    if moves[n - 1] == LoadPending(r) {
      return n - 1;
    }
    m := LoadPrecedes(trace, moves, n - 1, r);
  }

  /**
   * What a racing reader is told, exactly. An error if and only if a failure had been published before
   * its second access, and then the first one published; otherwise whether every observation that
   * existed at its first access was finished by then.
   */
  lemma AnswersExactly(trace: seq<State>, moves: seq<Move>, m: nat, n: nat, r: nat)
    requires IsRun(trace, moves) && m < n < |moves| && moves[m] == LoadPending(r) && moves[n] == ReadFailure(r)
    ensures r < |trace[n + 1].readers| && trace[n + 1].readers[r].Returned?
    ensures var answer, errors := trace[n + 1].readers[r].answer, Published(trace, moves, n);
            && (errors != [] ==> answer == Err(errors[0]))
            && (errors == [] ==> answer == Ok(AllDone(trace[m].observations, |trace[m].observations|)))
  {
    FailureIsFirstPublished(trace, moves, n);
    LoadIsKept(trace, moves, m, n, r);
    assert Enabled(trace[n], moves[n]) && trace[n + 1] == Apply(trace[n], moves[n]);
    RunKeepsInv(trace, moves, m);
    NoneUnfinished(trace[m].observations);
  }

  /** The counter is the number of live observations, and a recorded failure is one that really happened. */
  lemma CounterAndFailureAreReal(trace: seq<State>, moves: seq<Move>, n: nat)
    requires IsRun(trace, moves) && n < |trace|
    ensures trace[n].pending == Unfinished(trace[n].observations)
    ensures trace[n].failure.Some? <==> exists i :: 0 <= i < |trace[n].observations| && HasFailed(trace[n].observations[i])
    ensures trace[n].failure.Some? ==>
              exists i :: 0 <= i < |trace[n].observations| && FailedWith(trace[n].observations[i], trace[n].failure.value)
  {
    RunKeepsInv(trace, moves, n);
    if trace[n].failure.Some? {
      var i :| 0 <= i < |trace[n].observations| && FailedWith(trace[n].observations[i], trace[n].failure.value);
      assert HasFailed(trace[n].observations[i]);
    }
  }

  /** The first failure is permanent. */
  lemma {:induction false} FirstFailureStays(trace: seq<State>, moves: seq<Move>, m: nat, n: nat)
    requires IsRun(trace, moves) && m <= n < |trace| && trace[m].failure.Some?
    ensures trace[n].failure == trace[m].failure
  {
    if m < n {
      FirstFailureStays(trace, moves, m, n - 1);
      assert trace[n - 1 + 1] == Apply(trace[n - 1], moves[n - 1]);
    }
  }

  lemma QuietCellsAreExact(s: State)
    requires CellsOk(s)
    ensures s.pending == 0 && s.failure.None? <==> AllSucceeded(s.observations, |s.observations|)
  {
    NoneUnfinished(s.observations);
    if AllSucceeded(s.observations, |s.observations|) {
      assert s.failure.None?;
    }
  }

  /** When nothing moves in between, the answer is exact. */
  lemma QuietReadIsExact(trace: seq<State>, moves: seq<Move>, n: nat)
    requires IsRun(trace, moves) && n < |trace|
    ensures Answer(trace[n].pending, trace[n].failure) == Ok(true)
       <==> AllSucceeded(trace[n].observations, |trace[n].observations|)
  {
    RunKeepsInv(trace, moves, n);
    QuietCellsAreExact(trace[n]);
  }

  /** Reading the cell before the counter would be unsound: this run answers `Ok(true)` for a failed publish. */
  lemma ReadOrderMatters(error: NoticeError) returns (trace: seq<State>, moves: seq<Move>)
    ensures IsRun(trace, moves) && |trace| == 5
    ensures Answer(trace[4].pending, trace[1].failure) == Ok(true)
    ensures trace[4].observations == [Done(Some(error))]
  {
    moves := [Register, Finish(0, Some(error)), SetFailure(0), Decrement(0)];
    var s1 := Apply(INITIAL, moves[0]);
    var s2 := Apply(s1, moves[1]);
    var s3 := Apply(s2, moves[2]);
    var s4 := Apply(s3, moves[3]);
    trace := [INITIAL, s1, s2, s3, s4];
  }
}
