/** Incremental framing: deciding from a growing buffer where the next packet ends. */
module Framing {
  import opened Common
  import opened Primitives

  datatype FixedHeader = FixedHeader(byte1: byte, lenLen: nat, remaining: nat) {
    function FrameLength(): nat {
      1 + lenLen + remaining
    }
  }

  /** MQTT 3.1.1 limits the remaining length, MQTT 5.0 optionally limits the whole packet. */
  datatype Limit = NoLimit | RemainingAtMost(max: nat) | PacketAtMost(max: nat) {
    /** The offending size, if the header is over the limit. */
    function Exceeded(h: FixedHeader): Option<nat> {
      match this
      case NoLimit => None
      case RemainingAtMost(max) => if h.remaining > max then Some(h.remaining) else None
      case PacketAtMost(max) => if h.FrameLength() > max then Some(h.FrameLength()) else None
    }
  }

  datatype FrameError = NeedMore(count: nat) | BadLength | TooLarge(size: nat)

  function ParseFixedHeader(s: seq<byte>): Result<FixedHeader, FrameError> {
    if |s| < 2 then Err(NeedMore(2 - |s|))
    else match Decode(s[1..])
         case Ok((lenLen, remaining)) => Ok(FixedHeader(s[0], lenLen, remaining))
         case Err(InsufficientBytes(n)) => Err(NeedMore(n))
         case Err(_) => Err(BadLength)
  }

  /** The size limit is enforced as soon as the header is known, before the body arrives. */
  function Check(s: seq<byte>, limit: Limit): Result<FixedHeader, FrameError> {
    match ParseFixedHeader(s)
    case Err(e) => Err(e)
    case Ok(h) =>
      if limit.Exceeded(h).Some? then Err(TooLarge(limit.Exceeded(h).value))
      else if |s| < h.FrameLength() then Err(NeedMore(h.FrameLength() - |s|))
      else Ok(h)
  }

  function CheckCore(s: seq<byte>): Result<FixedHeader, FrameError> {
    Check(s, NoLimit)
  }

  function CheckV4(s: seq<byte>, max: nat): Result<FixedHeader, FrameError> {
    Check(s, RemainingAtMost(max))
  }

  function CheckV5(s: seq<byte>, max: Option<nat>): Result<FixedHeader, FrameError> {
    Check(s, if max.Some? then PacketAtMost(max.value) else NoLimit)
  }

  // ---- What the answers mean ----

  /** The packet starts with a length field of `n` bytes. */
  predicate HasLength(s: seq<byte>, n: nat) {
    1 + n <= |s| && WellFormed(s[1..1 + n])
  }

  /** A packet with a length field of `n` bytes and a body of `len` bytes is within the limit. */
  predicate Within(limit: Limit, n: nat, len: nat) {
    match limit
    case NoLimit => true
    case RemainingAtMost(max) => len <= max
    case PacketAtMost(max) => 1 + n + len <= max
  }

  lemma HeaderExactly(s: seq<byte>, h: FixedHeader)
    ensures ParseFixedHeader(s) == Ok(h) <==>
              HasLength(s, h.lenLen) && h.byte1 == s[0] && h.remaining == Value(s[1..1 + h.lenLen])
  {
    if |s| >= 2 {
      DecodeMeaning(s[1..], h.lenLen, h.remaining);
      assert 1 + h.lenLen <= |s| ==> s[1..][..h.lenLen] == s[1..1 + h.lenLen];
      DecodeAccepts(s[1..], 0);
    }
  }

  /**
   * A packet is accepted exactly when its length field is complete and well formed, its whole body
   * has arrived, and the limit is met; the header is then its first byte and that field.
   */
  lemma AcceptedExactly(s: seq<byte>, limit: Limit, h: FixedHeader)
    ensures Check(s, limit) == Ok(h) <==>
              && HasLength(s, h.lenLen) && h.byte1 == s[0] && h.remaining == Value(s[1..1 + h.lenLen])
              && |s| >= 1 + h.lenLen + h.remaining && Within(limit, h.lenLen, h.remaining)
  {
    HeaderExactly(s, h);
  }

  lemma LengthMissing(s: seq<byte>)
    ensures ParseFixedHeader(s) == Err(BadLength) <==> |s| >= 5 && forall i :: 1 <= i <= 4 ==> s[i] >= 128
    ensures ParseFixedHeader(s).Err? && ParseFixedHeader(s) != Err(BadLength) ==>
              |s| < 5 && ParseFixedHeader(s) == Err(NeedMore(if |s| < 2 then 2 - |s| else 1))
  {
    if |s| >= 2 {
      var t := s[1..];
      DecodeAccepts(t, 0);
      if |s| >= 5 && forall i :: 1 <= i <= 4 ==> s[i] >= 128 {
        NeverEnds(t, 0);
      }
      if ParseFixedHeader(s) == Err(BadLength) {
        assert forall i :: 1 <= i <= 4 ==> s[i] == t[i - 1];
      }
    }
  }

  /**
   * Otherwise the error says why: once the length field is there, a body over the limit, even before
   * it has arrived, or the number of bytes missing.
   */
  lemma RefusedExactly(s: seq<byte>, limit: Limit, n: nat)
    requires Check(s, limit).Err? && HasLength(s, n)
    ensures var len, error := Value(s[1..1 + n]), Check(s, limit).error;
            if Within(limit, n, len) then |s| < 1 + n + len && error == NeedMore(1 + n + len - |s|)
            else error == TooLarge(if limit.PacketAtMost? then 1 + n + len else len)
  {
    HeaderExactly(s, FixedHeader(s[0], n, Value(s[1..1 + n])));
  }

  /** And before that, four continuation bytes, or that more bytes are needed. */
  lemma LengthRefusedExactly(s: seq<byte>, limit: Limit)
    requires forall n: nat :: !HasLength(s, n)
    ensures Check(s, limit) == Err(if |s| >= 5 then BadLength else NeedMore(if |s| < 2 then 2 - |s| else 1))
  {
    LengthMissing(s);
    if ParseFixedHeader(s).Ok? {
      HeaderExactly(s, ParseFixedHeader(s).value);
    }
  }

  // ---- Answers never change as bytes arrive ----

  lemma DecodeStable(s: seq<byte>, t: seq<byte>)
    ensures Decode(s).Ok? ==> Decode(s + t) == Decode(s)
    ensures Decode(s) == Err(MalformedRemainingLength) ==> Decode(s + t) == Decode(s)
    ensures Decode(s).Err? ==> Decode(s).error in {InsufficientBytes(1), MalformedRemainingLength}
  {
    DecodeAccepts(s, 0);
    if Decode(s).Ok? {
      var (n, v) := Decode(s).value;
      assert (s + t)[..n] == s[..n];
      DecodeFinds(s + t, n, 0);
    } else if Decode(s) == Err(MalformedRemainingLength) {
      DecodeAccepts(s + t, 0);
      NeverEnds(s + t, 0);
    }
  }

  lemma {:induction false} NeverEnds(s: seq<byte>, k: nat)
    requires k <= 4 <= |s| && forall i :: 0 <= i < 4 ==> s[i] >= 128
    ensures DecodeFrom(s, k) == Err(MalformedRemainingLength)
    decreases 4 - k
  {
    if k < 4 {
      NeverEnds(s, k + 1);
    }
  }

  lemma HeaderStable(s: seq<byte>, t: seq<byte>)
    ensures ParseFixedHeader(s).Ok? ==> ParseFixedHeader(s + t) == ParseFixedHeader(s)
    ensures ParseFixedHeader(s) == Err(BadLength) ==> ParseFixedHeader(s + t) == Err(BadLength)
    ensures ParseFixedHeader(s).Err? && ParseFixedHeader(s).error.NeedMore? ==>
              1 <= ParseFixedHeader(s).error.count && (|s| >= 2 ==> ParseFixedHeader(s).error.count == 1)
    ensures ParseFixedHeader(s).Err? ==> !ParseFixedHeader(s).error.TooLarge?
  {
    if |s| >= 2 {
      assert (s + t)[1..] == s[1..] + t;
      DecodeStable(s[1..], t);
    }
  }

  /** An accepted header or a hard error is final; only "need more" can change. */
  lemma AnswersAreFinal(s: seq<byte>, t: seq<byte>, limit: Limit)
    ensures Check(s, limit).Ok? || !Check(s, limit).error.NeedMore? ==> Check(s + t, limit) == Check(s, limit)
  {
    HeaderStable(s, t);
  }

  /** "Need `k` more" asks for at least one byte, and no shorter extension is accepted. */
  lemma NeedMoreIsHonest(s: seq<byte>, t: seq<byte>, limit: Limit)
    requires Check(s, limit).Err? && Check(s, limit).error.NeedMore?
    ensures Check(s, limit).error.count >= 1
    ensures |t| < Check(s, limit).error.count ==> !Check(s + t, limit).Ok?
  {
    HeaderStable(s, t);
    if |s| == 0 && |t| == 1 {
      assert |s + t| == 1;
    } else if ParseFixedHeader(s).Err? && |s| >= 1 && t == [] {
      assert s + t == s;
    }
  }

  /** Once the header is known the count is exact. */
  lemma NeedMoreIsExact(s: seq<byte>, t: seq<byte>, limit: Limit)
    requires ParseFixedHeader(s).Ok? && Check(s, limit).Err? && Check(s, limit).error.NeedMore?
    ensures Check(s + t, limit).Ok? <==> |t| >= Check(s, limit).error.count
  {
    HeaderStable(s, t);
  }

  // ---- Cutting a stream into packets ----

  /** The packets of a stream in order, then its uncut tail and the error, if any, that stopped the reader. */
  datatype Cut =
    | Tail(rest: seq<byte>, error: Option<FrameError>)
    | Packet(bytes: seq<byte>, more: Cut)

  function CutStream(s: seq<byte>, limit: Limit): Cut
    decreases |s|
  {
    match Check(s, limit)
    case Err(e) => Tail(s, if e.NeedMore? then None else Some(e))
    case Ok(h) => Packet(s[..h.FrameLength()], CutStream(s[h.FrameLength()..], limit))
  }

  /** A connection's reader keeps the uncut tail, and an error stops it for good. */
  function Feed(c: Cut, chunk: seq<byte>, limit: Limit): Cut {
    match c
    case Packet(bytes, more) => Packet(bytes, Feed(more, chunk, limit))
    case Tail(rest, None) => CutStream(rest + chunk, limit)
    case Tail(rest, error) => Tail(rest + chunk, error)
  }

  function FeedFrom(c: Cut, chunks: seq<seq<byte>>, i: nat, limit: Limit): Cut
    requires i <= |chunks|
    decreases |chunks| - i
  {
    if i == |chunks| then c else FeedFrom(Feed(c, chunks[i], limit), chunks, i + 1, limit)
  }

  /** The reader after all the chunks of a connection. */
  function FeedAll(chunks: seq<seq<byte>>, limit: Limit): Cut {
    FeedFrom(Tail([], None), chunks, 0, limit)
  }

  function JoinFrom(chunks: seq<seq<byte>>, i: nat): seq<byte>
    requires i <= |chunks|
    decreases |chunks| - i
  {
    if i == |chunks| then [] else chunks[i] + JoinFrom(chunks, i + 1)
  }

  function Join(chunks: seq<seq<byte>>): seq<byte> {
    JoinFrom(chunks, 0)
  }

  lemma SplitFirst(a: seq<byte>, b: seq<byte>, n: nat)
    requires n <= |a|
    ensures (a + b)[..n] == a[..n] && (a + b)[n..] == a[n..] + b
  {
  }

  lemma {:induction false} CutThenFeed(a: seq<byte>, b: seq<byte>, limit: Limit)
    ensures CutStream(a + b, limit) == Feed(CutStream(a, limit), b, limit)
    decreases |a|
  {
    AnswersAreFinal(a, b, limit);
    var c := Check(a, limit);
    if c.Ok? {
      var n := c.value.FrameLength();
      CutThenFeed(a[n..], b, limit);
      SplitFirst(a, b, n);
    }
  }

  lemma {:induction false} FeedingIsCutting(s: seq<byte>, chunks: seq<seq<byte>>, i: nat, limit: Limit)
    requires i <= |chunks|
    ensures FeedFrom(CutStream(s, limit), chunks, i, limit) == CutStream(s + JoinFrom(chunks, i), limit)
    decreases |chunks| - i
  {
    if i == |chunks| {
      assert s + [] == s;
    } else {
      CutThenFeed(s, chunks[i], limit);
      FeedingIsCutting(s + chunks[i], chunks, i + 1, limit);
      Reassociate(s, chunks[i], JoinFrom(chunks, i + 1));
    }
  }

  /** Framing does not depend on chunking: any split of the input yields the same packets, tail and error. */
  lemma ChunkingIsInvisible(chunks: seq<seq<byte>>, limit: Limit)
    ensures FeedAll(chunks, limit) == CutStream(Join(chunks), limit)
  {
    FeedingIsCutting([], chunks, 0, limit);
    assert [] + Join(chunks) == Join(chunks);
  }

  function Bytes(c: Cut): seq<byte> {
    match c
    case Packet(bytes, more) => bytes + Bytes(more)
    case Tail(rest, _) => rest
  }

  /** The packets followed by the tail are the input: nothing is lost, duplicated or reordered. */
  lemma {:induction false} CutConserves(s: seq<byte>, limit: Limit)
    ensures Bytes(CutStream(s, limit)) == s
    decreases |s|
  {
    var c := Check(s, limit);
    if c.Ok? {
      var n := c.value.FrameLength();
      CutConserves(s[n..], limit);
      assert s[..n] + s[n..] == s;
    }
  }

  /** A written packet is cut off whole, and the rest of the stream is cut as if it stood alone. */
  lemma WrittenIsCut(b: byte, body: seq<byte>, rest: seq<byte>, limit: Limit)
    requires |body| <= MAX_REMAINING_LENGTH && Within(limit, LenLen(|body|), |body|)
    ensures var packet := [b] + Encode(|body|) + body;
            CutStream(packet + rest, limit) == Packet(packet, CutStream(rest, limit))
  {
    var n := LenLen(|body|);
    EncodeShape(|body|);
    LenLenIsSize(|body|);
    PacketParts(b, Encode(|body|), body, rest);
    AcceptedExactly([b] + Encode(|body|) + body + rest, limit, FixedHeader(b, n, |body|));
  }

  lemma PacketParts(b: byte, length: seq<byte>, body: seq<byte>, rest: seq<byte>)
    ensures var packet := [b] + length + body;
            var s := packet + rest;
            s[0] == b && s[1..1 + |length|] == length && s[..|packet|] == packet && s[|packet|..] == rest
  {
  }

  predicate HasPacket(c: Cut, packet: seq<byte>) {
    c.Packet? && (packet == c.bytes || HasPacket(c.more, packet))
  }

  /** Each packet alone is accepted, with exactly its length. */
  lemma {:induction false} FramesAreExact(s: seq<byte>, limit: Limit, packet: seq<byte>)
    requires HasPacket(CutStream(s, limit), packet)
    ensures Check(packet, limit).Ok? && Check(packet, limit).value.FrameLength() == |packet|
    decreases |s|
  {
    var n := Check(s, limit).value.FrameLength();
    if packet == s[..n] {
      FrameAlone(s, limit);
    } else {
      FramesAreExact(s[n..], limit, packet);
    }
  }

  lemma FrameAlone(s: seq<byte>, limit: Limit)
    requires Check(s, limit).Ok?
    ensures Check(s[..Check(s, limit).value.FrameLength()], limit) == Check(s, limit)
  {
    var h := Check(s, limit).value;
    var n := h.FrameLength();
    DecodeAccepts(s[1..], 0);
    assert s[..n][1..] == s[1..n];
    assert s[1..][..h.lenLen] == s[..n][1..][..h.lenLen];
    DecodeFinds(s[..n][1..], h.lenLen, 0);
  }

  /** The three entry points differ only in the limit, so all of the above holds for each. */
  lemma LimitsDiffer(s: seq<byte>, max: nat)
    requires CheckCore(s).Ok?
    ensures CheckV4(s, max).Ok? <==> CheckCore(s).value.remaining <= max
    ensures CheckV5(s, Some(max)).Ok? <==> CheckCore(s).value.FrameLength() <= max
    ensures CheckV5(s, None) == CheckCore(s)
    ensures CheckV5(s, Some(max)).Ok? ==> CheckV4(s, max).Ok?
  {
  }

  // ---- Transactional writes ----

  /**
   * Runs a write and, when it fails, truncates the buffer to its initial length. The write is
   * given as the contents it produces from the contents it finds.
   */
  method TransactionalWrite<T>(stream: Buffer, write: seq<byte> -> (seq<byte>, Result<T, Error>)) returns (r: Result<T, Error>)
    modifies stream
    ensures r == write(old(stream.data)).1
    ensures r.Ok? ==> stream.data == write(old(stream.data)).0
    ensures r.Err? ==> (stream.data == old(stream.data) <==> old(stream.data) <= write(old(stream.data)).0)
  {
    var initialLen := |stream.data|;
    var (written, result) := write(stream.data);
    stream.data := written;
    if result.Err? && |stream.data| > initialLen {
      stream.data := stream.data[..initialLen];
    }
    return result;
  }
}
