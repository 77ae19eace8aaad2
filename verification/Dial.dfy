/** Address interleaving and the staggered connect race (after sections 4 and 5 of RFC 8305). */
module Dial {
  import opened Common

  datatype Address = Address(ipv6: bool, id: nat)

  function OfFamily(ipv6: bool): Address -> bool {
    (a: Address) => a.ipv6 == ipv6
  }

  /** One from each side in turn, then what remains of the longer side. */
  function Zip(p: seq<Address>, a: seq<Address>): seq<Address> {
    if p == [] then a
    else if a == [] then p
    else [p[0], a[0]] + Zip(p[1..], a[1..])
  }

  /** The first address's family goes first. */
  function Interleave(addrs: seq<Address>): seq<Address> {
    if addrs == [] then []
    else Zip(Filter(addrs, OfFamily(addrs[0].ipv6)), Filter(addrs, OfFamily(!addrs[0].ipv6)))
  }

  method InterleaveAddresses(addrs: seq<Address>) returns (interleaved: seq<Address>)
    ensures interleaved == Interleave(addrs)
  {
    if |addrs| == 0 {
      return addrs;
    }
    var preferIpv6 := addrs[0].ipv6;
    if forall i :: 0 <= i < |addrs| ==> addrs[i].ipv6 == preferIpv6 {
      FilterAll(addrs, OfFamily(preferIpv6));
      FilterNone(addrs, OfFamily(!preferIpv6));
      return addrs;
    }
    interleaved := Alternate(Filter(addrs, OfFamily(preferIpv6)), Filter(addrs, OfFamily(!preferIpv6)));
  }

  /** The loop over both iterators: whatever they yield in one turn is appended. */
  method Alternate(preferred: seq<Address>, alternate: seq<Address>) returns (interleaved: seq<Address>)
    ensures interleaved == Zip(preferred, alternate)
  {
    interleaved := [];
    var i := 0;
    while i < |preferred| || i < |alternate|
      invariant interleaved + Zip(From(preferred, i), From(alternate, i)) == Zip(preferred, alternate)
      decreases |preferred| + |alternate| - i
    {
      AppendTurn(interleaved, preferred, alternate, i);
      interleaved := interleaved + Turn(preferred, alternate, i);
      i := i + 1;
    }
    assert interleaved + [] == interleaved;
  }

  /** What an iterator still has to yield after `i` calls. */
  function From(s: seq<Address>, i: nat): seq<Address> {
    if i < |s| then s[i..] else []
  }

  /** What the two iterators yield on their `i`-th calls. */
  function Turn(p: seq<Address>, a: seq<Address>, i: nat): seq<Address> {
    (if i < |p| then [p[i]] else []) + if i < |a| then [a[i]] else []
  }

  lemma ZipStep(p: seq<Address>, a: seq<Address>, i: nat)
    requires i < |p| || i < |a|
    ensures Zip(From(p, i), From(a, i)) == Turn(p, a, i) + Zip(From(p, i + 1), From(a, i + 1))
  {
    var p', a' := From(p, i), From(a, i);
    if i >= |p| {
      assert a' == [a[i]] + From(a, i + 1);
    } else if i >= |a| {
      assert p' == [p[i]] + From(p, i + 1);
      assert Zip(From(p, i + 1), []) == From(p, i + 1);
    } else {
      assert p'[1..] == From(p, i + 1) && a'[1..] == From(a, i + 1);
      assert [p[i]] + [a[i]] == [p[i], a[i]];
    }
  }

  lemma AppendTurn(done: seq<Address>, p: seq<Address>, a: seq<Address>, i: nat)
    requires i < |p| || i < |a|
    ensures done + Turn(p, a, i) + Zip(From(p, i + 1), From(a, i + 1)) == done + Zip(From(p, i), From(a, i))
  {
    ZipStep(p, a, i);
  }

  // ---- Interleaving laws ----

  lemma MultisetFirst(s: seq<Address>)
    requires s != []
    ensures multiset(s) == multiset{s[0]} + multiset(s[1..])
  {
    assert s == [s[0]] + s[1..];
  }

  lemma MultisetPair(x: Address, y: Address, s: seq<Address>)
    ensures multiset([x, y] + s) == multiset{x} + multiset{y} + multiset(s)
  {
  }

  lemma {:induction false} ZipPermutes(p: seq<Address>, a: seq<Address>)
    ensures multiset(Zip(p, a)) == multiset(p) + multiset(a)
  {
    if p != [] && a != [] {
      ZipPermutes(p[1..], a[1..]);
      MultisetFirst(p);
      MultisetFirst(a);
      MultisetPair(p[0], a[0], Zip(p[1..], a[1..]));
    }
  }

  lemma {:induction false} ZipKeepsFirst(p: seq<Address>, a: seq<Address>, keep: Address -> bool)
    requires (forall x :: x in p ==> keep(x)) && forall x :: x in a ==> !keep(x)
    ensures Filter(Zip(p, a), keep) == p
  {
    if p == [] || a == [] {
      FilterSide(p, keep, true);
      FilterSide(a, keep, false);
    } else {
      var p', a' := p[1..], a[1..];
      assert p == [p[0]] + p' && a == [a[0]] + a';
      ZipKeepsFirst(p', a', keep);
      FilterAppend([p[0], a[0]], Zip(p', a'), keep);
      FilterPair(p[0], a[0], keep);
    }
  }

  lemma {:induction false} ZipKeepsSecond(p: seq<Address>, a: seq<Address>, keep: Address -> bool)
    requires (forall x :: x in p ==> !keep(x)) && forall x :: x in a ==> keep(x)
    ensures Filter(Zip(p, a), keep) == a
  {
    if p == [] || a == [] {
      FilterSide(p, keep, false);
      FilterSide(a, keep, true);
    } else {
      var p', a' := p[1..], a[1..];
      assert p == [p[0]] + p' && a == [a[0]] + a';
      ZipKeepsSecond(p', a', keep);
      FilterAppend([p[0], a[0]], Zip(p', a'), keep);
      FilterPair(p[0], a[0], keep);
    }
  }

  lemma FilterSide(s: seq<Address>, keep: Address -> bool, all: bool)
    requires forall x :: x in s ==> keep(x) == all
    ensures Filter(s, keep) == if all then s else []
  {
    if all {
      FilterAll(s, keep);
    } else {
      FilterNone(s, keep);
    }
  }

  lemma FilterPair(x: Address, y: Address, keep: Address -> bool)
    ensures Filter([x, y], keep) == (if keep(x) then [x] else []) + (if keep(y) then [y] else [])
  {
    assert [x, y] == [x] + [y];
    FilterAppend([x], [y], keep);
    assert [x][..0] == [] && [y][..0] == [];
  }

  /** A permutation of the input that keeps the first address and the resolver's order within each family. */
  lemma InterleaveLaws(addrs: seq<Address>, ipv6: bool)
    ensures multiset(Interleave(addrs)) == multiset(addrs)
    ensures Filter(Interleave(addrs), OfFamily(ipv6)) == Filter(addrs, OfFamily(ipv6))
    ensures addrs != [] ==> Interleave(addrs) != [] && Interleave(addrs)[0] == addrs[0]
  {
    if addrs != [] {
      var prefer := addrs[0].ipv6;
      var p, a := Filter(addrs, OfFamily(prefer)), Filter(addrs, OfFamily(!prefer));
      FilterPartition(addrs, OfFamily(prefer), OfFamily(!prefer));
      ZipPermutes(p, a);
      FilterMembers(addrs, OfFamily(prefer));
      FilterMembers(addrs, OfFamily(!prefer));
      if ipv6 == prefer {
        ZipKeepsFirst(p, a, OfFamily(ipv6));
      } else {
        ZipKeepsSecond(p, a, OfFamily(ipv6));
      }
      FirstKept(addrs);
    }
  }

  lemma {:induction false} FirstKept(addrs: seq<Address>)
    requires addrs != []
    ensures var p := Filter(addrs, OfFamily(addrs[0].ipv6)); p != [] && p[0] == addrs[0]
  {
    if |addrs| > 1 {
      var front := addrs[..|addrs| - 1];
      assert front[0] == addrs[0];
      FirstKept(front);
    } else {
      assert addrs[..0] == [];
    }
  }

  function Min(x: nat, y: nat): nat {
    if x < y then x else y
  }

  lemma {:induction false} ZipLength(p: seq<Address>, a: seq<Address>)
    ensures |Zip(p, a)| == |p| + |a|
  {
    if p != [] && a != [] {
      ZipLength(p[1..], a[1..]);
    }
  }

  /** The `i`-th address of a strict alternation until one family runs out, then of the rest of the other. */
  function AlternationAt(p: seq<Address>, a: seq<Address>, i: nat): Address
    requires i < |p| + |a|
  {
    if i < 2 * Min(|p|, |a|) then (if i % 2 == 0 then p[i / 2] else a[i / 2])
    else if |p| > |a| then p[i - |a|] else a[i - |p|]
  }

  lemma AlternationShift(p: seq<Address>, a: seq<Address>, i: nat)
    requires p != [] && a != [] && 2 <= i < |p| + |a|
    ensures AlternationAt(p, a, i) == AlternationAt(p[1..], a[1..], i - 2)
  {
    assert (i - 2) / 2 == i / 2 - 1 && (i - 2) % 2 == i % 2;
  }

  lemma {:induction false} Alternation(p: seq<Address>, a: seq<Address>, i: nat)
    requires i < |p| + |a|
    ensures |Zip(p, a)| == |p| + |a| && Zip(p, a)[i] == AlternationAt(p, a, i)
  {
    ZipLength(p, a);
    if p != [] && a != [] && i >= 2 {
      Alternation(p[1..], a[1..], i - 2);
      AlternationShift(p, a, i);
    }
  }

  /**
   * Of the whole operation: strict alternation, the first address's family first, for as long as both
   * families last, and then only the larger one.
   */
  lemma InterleaveAlternates(addrs: seq<Address>, i: nat)
    requires i < |addrs|
    ensures |Interleave(addrs)| == |addrs|
    ensures var first := addrs[0].ipv6;
            var p, a := |Filter(addrs, OfFamily(first))|, |Filter(addrs, OfFamily(!first))|;
            var x := Interleave(addrs)[i];
            x.ipv6 == if i < 2 * Min(p, a) then (if i % 2 == 0 then first else !first) else (if p > a then first else !first)
  {
    var first := addrs[0].ipv6;
    var p, a := Filter(addrs, OfFamily(first)), Filter(addrs, OfFamily(!first));
    FilterPartition(addrs, OfFamily(first), OfFamily(!first));
    assert |multiset(p) + multiset(a)| == |multiset(addrs)|;
    FilterMembers(addrs, OfFamily(first));
    FilterMembers(addrs, OfFamily(!first));
    Alternation(p, a, i);
    assert AlternationAt(p, a, i) in p || AlternationAt(p, a, i) in a;
    assert forall k :: 0 <= k < |p| ==> p[k] in p;
    assert forall k :: 0 <= k < |a| ==> a[k] in a;
  }

  // ---- Fixed local port: strictly one attempt at a time ----

  type ConnectError = nat

  datatype DialError = InvalidInput | AttemptFailed(error: ConnectError)

  /** `connect` stands for the outcome of each attempt; `started` counts the attempts made. */
  method ConnectSequential(addrs: seq<Address>, connect: Address -> Result<Address, ConnectError>)
    returns (r: Result<Address, DialError>, started: nat)
    ensures started <= |addrs|
    ensures addrs == [] ==> r == Err(InvalidInput)
    ensures r.Ok? ==>
              && started > 0 && connect(addrs[started - 1]) == Ok(r.value)
              && forall i :: 0 <= i < started - 1 ==> connect(addrs[i]).Err?
    ensures r.Err? && addrs != [] ==>
              && started == |addrs|
              && (forall i :: 0 <= i < |addrs| ==> connect(addrs[i]).Err?)
              && r == Err(AttemptFailed(connect(addrs[|addrs| - 1]).error))
  {
    started := 0;
    if |addrs| == 0 {
      return Err(InvalidInput), 0;
    }
    var lastErr: Option<ConnectError> := None;
    while started < |addrs|
      invariant started <= |addrs|
      invariant forall i :: 0 <= i < started ==> connect(addrs[i]).Err?
      invariant lastErr == if started == 0 then None else Some(connect(addrs[started - 1]).error)
    {
      var outcome := connect(addrs[started]);
      started := started + 1;
      match outcome
      case Ok(stream) => return Ok(stream), started;
      case Err(error) => lastErr := Some(error);
    }
    return Err(AttemptFailed(lastErr.value)), started;
  }

  // ---- The race ----

  const ATTEMPT_DELAY: nat := 100

  /**
   * Candidates are named by position. `ready` holds the outcomes of attempts that have completed
   * but not been looked at; `startTimes[i]` is when candidate `i` was started.
   */
  datatype Race = Race(
    count: nat,
    now: nat,
    nextAttempt: nat,
    startTimes: seq<nat>,
    pending: set<nat>,
    ready: map<nat, Result<(), ConnectError>>,
    failures: map<nat, ConnectError>,
    lastErr: Option<ConnectError>,
    result: Option<Result<nat, ConnectError>>)

  function Start(count: nat): Race
    requires count > 0
  {
    Race(count, 0, ATTEMPT_DELAY, [0], {0}, map[], map[], None, None)
  }

  datatype Event =
    | Tick(elapsed: nat)
    | Completes(i: nat, outcome: Result<(), ConnectError>)
    | Collect(i: nat)
    | StartNext
    | GiveUp

  predicate LoopRuns(s: Race) {
    s.pending != {} || |s.startTimes| < s.count
  }

  /** The select is biased: another candidate starts only when no completed attempt is waiting. */
  predicate Enabled(s: Race, e: Event) {
    && s.result.None?
    && match e
       case Tick(_) => true
       case Completes(i, _) => i in s.pending && i !in s.ready
       case Collect(i) => LoopRuns(s) && i in s.pending && i in s.ready
       case StartNext => LoopRuns(s) && s.ready == map[] && |s.startTimes| < s.count && s.now >= s.nextAttempt
       case GiveUp => !LoopRuns(s) && s.lastErr.Some?
  }

  function Apply(s: Race, e: Event): Race
    requires Enabled(s, e)
  {
    match e
    case Tick(elapsed) => s.(now := s.now + elapsed)
    case Completes(i, outcome) => s.(ready := s.ready[i := outcome])
    case Collect(i) =>
      var collected := s.(pending := s.pending - {i}, ready := s.ready - {i});
      (match s.ready[i]
       case Ok(_) => collected.(result := Some(Ok(i)))
       case Err(error) => collected.(failures := s.failures[i := error], lastErr := Some(error)))
    case StartNext =>
      s.(pending := s.pending + {|s.startTimes|}, startTimes := s.startTimes + [s.now], nextAttempt := s.now + ATTEMPT_DELAY)
    case GiveUp => s.(result := Some(Err(s.lastErr.value)))
  }

  ghost predicate IsRun(trace: seq<Race>, events: seq<Event>) {
    && |trace| == |events| + 1
    && (exists count: nat :: count > 0 && trace[0] == Start(count))
    && forall i :: 0 <= i < |events| ==> StepAt(trace, events, i)
  }

  ghost predicate StepAt(trace: seq<Race>, events: seq<Event>, i: nat)
    requires |trace| == |events| + 1 && i < |events|
  {
    Enabled(trace[i], events[i]) && trace[i + 1] == Apply(trace[i], events[i])
  }

  ghost predicate Inv(s: Race) {
    && 1 <= |s.startTimes| <= s.count
    && s.ready.Keys <= s.pending
    && s.pending !! s.failures.Keys
    && (forall i :: 0 <= i < |s.startTimes| ==> i in s.pending || i in s.failures || s.result == Some(Ok(i)))
    && (forall i :: i in s.pending || i in s.failures ==> i < |s.startTimes|)
    && (s.failures != map[] <==> s.lastErr.Some?)
    && (s.lastErr.Some? ==> s.lastErr.value in s.failures.Values)
    && Staggered(s)
    && (s.result.Some? && s.result.value.Ok? ==> s.result.value.value < |s.startTimes|)
    && (s.result.Some? && s.result.value.Err? ==> s.pending == {} && |s.startTimes| == s.count && s.lastErr == Some(s.result.value.error))
  }

  predicate Staggered(s: Race) {
    && |s.startTimes| >= 1
    && s.nextAttempt == s.startTimes[|s.startTimes| - 1] + ATTEMPT_DELAY
    && forall i :: 0 <= i < |s.startTimes| - 1 ==> s.startTimes[i] + ATTEMPT_DELAY <= s.startTimes[i + 1]
  }

  lemma StepKeepsInv(s: Race, e: Event)
    requires Inv(s) && Enabled(s, e)
    ensures Inv(Apply(s, e))
  {
    var s' := Apply(s, e);
    if e.Collect? && s.ready[e.i].Err? {
      assert e.i in s'.failures && s'.failures[e.i] == s'.lastErr.value;
    }
  }

  lemma {:induction false} RunKeepsInv(trace: seq<Race>, events: seq<Event>, n: nat)
    requires IsRun(trace, events) && n < |trace|
    ensures Inv(trace[n])
  {
    if n > 0 {
      RunKeepsInv(trace, events, n - 1);
      assert StepAt(trace, events, n - 1);
      StepKeepsInv(trace[n - 1], events[n - 1]);
    }
  }

  /** An error is returned only when every candidate was started and every one failed; it is one of theirs. */
  lemma ErrorMeansAllFailed(trace: seq<Race>, events: seq<Event>, n: nat, i: nat)
    requires IsRun(trace, events) && n < |trace| && i < trace[n].count
    requires trace[n].result.Some? && trace[n].result.value.Err?
    ensures i in trace[n].failures && trace[n].result.value.error in trace[n].failures.Values
  {
    RunKeepsInv(trace, events, n);
  }

  /** The attempt of candidate `i` has completed so within the first `n` events. */
  ghost predicate HasCompleted(events: seq<Event>, n: nat, i: nat, outcome: Result<(), ConnectError>)
    requires n <= |events|
  {
    exists k :: 0 <= k < n && events[k] == Completes(i, outcome)
  }

  ghost predicate Real(s: Race, events: seq<Event>, n: nat)
    requires n <= |events|
  {
    && (forall i :: i in s.ready ==> HasCompleted(events, n, i, s.ready[i]))
    && (forall i :: i in s.failures ==> HasCompleted(events, n, i, Err(s.failures[i])))
    && (s.result.Some? && s.result.value.Ok? ==> HasCompleted(events, n, s.result.value.value, Ok(())))
  }

  lemma CompletedStays(events: seq<Event>, n: nat)
    requires n < |events|
    ensures forall i, outcome :: HasCompleted(events, n, i, outcome) ==> HasCompleted(events, n + 1, i, outcome)
    ensures events[n].Completes? ==> HasCompleted(events, n + 1, events[n].i, events[n].outcome)
  {
  }

  /** The winner's own attempt succeeded, and every failure recorded is what that attempt ended with. */
  lemma {:induction false} OutcomesAreReal(trace: seq<Race>, events: seq<Event>, n: nat)
    requires IsRun(trace, events) && n < |trace|
    ensures Real(trace[n], events, n)
  {
    if n > 0 {
      OutcomesAreReal(trace, events, n - 1);
      assert StepAt(trace, events, n - 1);
      CompletedStays(events, n - 1);
      RealStep(trace[n - 1], events, n - 1);
    }
  }

  lemma RealStep(s: Race, events: seq<Event>, n: nat)
    requires n < |events| && Real(s, events, n) && Enabled(s, events[n])
    ensures Real(Apply(s, events[n]), events, n + 1)
  {
    CompletedStays(events, n);
    if events[n].Collect? {
      var outcome := s.ready[events[n].i];
      assert HasCompleted(events, n, events[n].i, outcome);
      if outcome.Ok? {
        var unit := outcome.value;
        assert unit == ();
      }
    }
  }

  /** The error of the last failed attempt that was looked at within the first `n` events. */
  function LastFailure(trace: seq<Race>, events: seq<Event>, n: nat): Option<ConnectError>
    requires n <= |events| < |trace|
  {
    if n == 0 then None
    else
      var s, e := trace[n - 1], events[n - 1];
      if e.Collect? && e.i in s.ready && s.ready[e.i].Err? then Some(s.ready[e.i].error) else LastFailure(trace, events, n - 1)
  }

  /** The error returned is the last one looked at. */
  lemma {:induction false} LastErrorWins(trace: seq<Race>, events: seq<Event>, n: nat)
    requires IsRun(trace, events) && n < |trace|
    ensures trace[n].lastErr == LastFailure(trace, events, n)
    ensures trace[n].result.Some? && trace[n].result.value.Err? ==> LastFailure(trace, events, n) == Some(trace[n].result.value.error)
  {
    if n > 0 {
      LastErrorWins(trace, events, n - 1);
      assert StepAt(trace, events, n - 1);
      RunKeepsInv(trace, events, n);
    }
  }

  /** Candidates start in order, each once, at least the attempt delay apart. */
  lemma StartsAreStaggered(trace: seq<Race>, events: seq<Event>, n: nat, i: nat)
    requires IsRun(trace, events) && n < |trace| && i + 1 < |trace[n].startTimes|
    ensures trace[n].startTimes[i] + ATTEMPT_DELAY <= trace[n].startTimes[i + 1]
    ensures |trace[n].startTimes| <= trace[n].count
  {
    RunKeepsInv(trace, events, n);
  }

  /** Candidate `i` has succeeded and been neither beaten nor overlooked. */
  predicate Won(s: Race, i: nat) {
    || (i in s.ready && s.ready[i].Ok? && s.result.None?)
    || (s.result.Some? && s.result.value.Ok?)
  }

  lemma WinStays(s: Race, e: Event, i: nat)
    requires Won(s, i) && Enabled(s, e) && s.ready.Keys <= s.pending
    ensures Won(Apply(s, e), i) && Apply(s, e).startTimes == s.startTimes
  {
    assert i in s.ready.Keys;
  }

  /** Once an attempt has succeeded no further candidate starts, even before the success is looked at, and the race cannot fail. */
  lemma {:induction false} SuccessStopsTheRace(trace: seq<Race>, events: seq<Event>, m: nat, n: nat, i: nat)
    requires IsRun(trace, events) && m <= n < |trace| && i in trace[m].ready && trace[m].ready[i].Ok?
    ensures trace[n].startTimes == trace[m].startTimes && Won(trace[n], i)
  {
    if m == n {
      RunKeepsInv(trace, events, m);
    } else {
      SuccessStopsTheRace(trace, events, m, n - 1, i);
      RunKeepsInv(trace, events, n - 1);
      assert StepAt(trace, events, n - 1);
      WinStays(trace[n - 1], events[n - 1], i);
    }
  }

  /** The loop always has a branch to wait on, and when it ends without a winner an error is recorded. */
  lemma NeverStuck(trace: seq<Race>, events: seq<Event>, n: nat)
    requires IsRun(trace, events) && n < |trace| && trace[n].result.None?
    ensures !LoopRuns(trace[n]) ==> trace[n].lastErr.Some? && Enabled(trace[n], GiveUp)
    ensures trace[n].ready != map[] ==> exists i :: Enabled(trace[n], Collect(i))
    ensures trace[n].ready == map[] && |trace[n].startTimes| < trace[n].count ==>
              Enabled(Apply(trace[n], Tick(trace[n].nextAttempt)), StartNext)
  {
    var s := trace[n];
    RunKeepsInv(trace, events, n);
    if !LoopRuns(s) {
      assert 0 in s.failures;
    }
    if s.ready != map[] {
      var i :| i in s.ready;
      assert Enabled(s, Collect(i));
    }
  }
}
