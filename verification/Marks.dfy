/** Counting fences and numbered publishes in sequences of requests. */
module Marks {
  import opened Common
  import opened Requests

  predicate IsPublish(e: RequestEnvelope) {
    e.request.PublishRequest?
  }

  /** A publish that carries its own admission number; a replayed one carries none. */
  predicate IsNumbered(e: RequestEnvelope) {
    IsPublish(e) && e.meta.sequence > 0
  }

  /** What is counted: fences, or the publish with one admission number. */
  datatype Mark = FenceMark | Number(q: nat)

  predicate Marked(e: RequestEnvelope, mark: Mark) {
    match mark
    case FenceMark => e.IsFence()
    case Number(q) => IsPublish(e) && e.meta.sequence == q
  }

  /** Marks that are conserved: every fence, and every numbered publish. */
  predicate Lasting(mark: Mark) {
    mark.Number? ==> mark.q > 0
  }

  function CountFirst(k: seq<RequestEnvelope>, n: nat, mark: Mark): nat
    requires n <= |k|
  {
    if n == 0 then 0 else CountFirst(k, n - 1, mark) + if Marked(k[n - 1], mark) then 1 else 0
  }

  function Count(k: seq<RequestEnvelope>, mark: Mark): nat {
    CountFirst(k, |k|, mark)
  }

  lemma {:induction false} CountInPrefix(a: seq<RequestEnvelope>, b: seq<RequestEnvelope>, n: nat, mark: Mark)
    requires n <= |a|
    ensures CountFirst(a + b, n, mark) == CountFirst(a, n, mark)
  {
    if n > 0 {
      CountInPrefix(a, b, n - 1, mark);
    }
  }

  lemma {:induction false} CountInSuffix(a: seq<RequestEnvelope>, b: seq<RequestEnvelope>, n: nat, mark: Mark)
    requires n <= |b|
    ensures CountFirst(a + b, |a| + n, mark) == CountFirst(a, |a|, mark) + CountFirst(b, n, mark)
  {
    if n == 0 {
      CountInPrefix(a, b, |a|, mark);
    } else {
      CountInSuffix(a, b, n - 1, mark);
    }
  }

  lemma CountAppend(a: seq<RequestEnvelope>, b: seq<RequestEnvelope>, mark: Mark)
    ensures Count(a + b, mark) == Count(a, mark) + Count(b, mark)
  {
    CountInSuffix(a, b, |b|, mark);
  }

  lemma CountOne(e: RequestEnvelope, mark: Mark)
    ensures Count([e], mark) == if Marked(e, mark) then 1 else 0
  {
    assert CountFirst([e], 1, mark) == CountFirst([e], 0, mark) + if Marked([e][0], mark) then 1 else 0;
  }

  lemma CountLast(k: seq<RequestEnvelope>, mark: Mark)
    requires k != []
    ensures Count(k, mark) == Count(k[..|k| - 1], mark) + if Marked(k[|k| - 1], mark) then 1 else 0
  {
    assert k == k[..|k| - 1] + [k[|k| - 1]];
    CountAppend(k[..|k| - 1], [k[|k| - 1]], mark);
    CountOne(k[|k| - 1], mark);
  }

  lemma CountFront(k: seq<RequestEnvelope>, mark: Mark)
    requires k != []
    ensures Count(k, mark) == Count(k[1..], mark) + if Marked(k[0], mark) then 1 else 0
  {
    assert k == [k[0]] + k[1..];
    CountAppend([k[0]], k[1..], mark);
    CountOne(k[0], mark);
  }

  predicate Unmarked(k: seq<RequestEnvelope>, mark: Mark) {
    forall e :: e in k ==> !Marked(e, mark)
  }

  lemma {:induction false} CountFirstZero(k: seq<RequestEnvelope>, n: nat, mark: Mark)
    requires n <= |k|
    ensures CountFirst(k, n, mark) == 0 <==> forall i :: 0 <= i < n ==> !Marked(k[i], mark)
  {
    if n > 0 {
      CountFirstZero(k, n - 1, mark);
    }
  }

  lemma CountZero(k: seq<RequestEnvelope>, mark: Mark)
    ensures Count(k, mark) == 0 <==> Unmarked(k, mark)
  {
    CountFirstZero(k, |k|, mark);
    assert forall i :: 0 <= i < |k| ==> k[i] in k;
  }

  /** Filtering keeps the count when everything marked is kept. */
  lemma {:induction false} CountKept(k: seq<RequestEnvelope>, keep: RequestEnvelope -> bool, mark: Mark)
    requires forall e :: e in k && Marked(e, mark) ==> keep(e)
    ensures Count(Filter(k, keep), mark) == Count(k, mark)
  {
    if k != [] {
      var front, last := k[..|k| - 1], k[|k| - 1];
      assert forall e :: e in front ==> e in k;
      CountKept(front, keep, mark);
      CountLast(k, mark);
      CountAppend(Filter(front, keep), [last], mark);
      CountOne(last, mark);
    }
  }

  /** Splitting by a test and its opposite keeps the count. */
  lemma {:induction false} CountSplit(k: seq<RequestEnvelope>, keep: RequestEnvelope -> bool, drop: RequestEnvelope -> bool, mark: Mark)
    requires forall e :: e in k ==> (keep(e) <==> !drop(e))
    ensures Count(Filter(k, keep), mark) + Count(Filter(k, drop), mark) == Count(k, mark)
  {
    if k != [] {
      var front, last := k[..|k| - 1], k[|k| - 1];
      assert forall e :: e in front ==> e in k;
      CountSplit(front, keep, drop, mark);
      CountLast(k, mark);
      CountAppend(Filter(front, keep), [last], mark);
      CountAppend(Filter(front, drop), [last], mark);
      CountOne(last, mark);
    }
  }

  lemma CountRemove(k: seq<RequestEnvelope>, i: nat, mark: Mark)
    requires i < |k|
    ensures Count(RemoveAt(k, i), mark) == Count(k, mark) - if Marked(k[i], mark) then 1 else 0
  {
    var a, b := k[..i], k[i + 1..];
    assert k == a + ([k[i]] + b);
    CountAppend(a, [k[i]] + b, mark);
    CountAppend([k[i]], b, mark);
    CountAppend(a, b, mark);
    CountOne(k[i], mark);
  }
}
