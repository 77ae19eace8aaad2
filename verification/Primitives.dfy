/** MQTT variable byte integers and length-prefixed fields (sections 2.2.3 of MQTT 3.1.1 and 1.5.5 of MQTT 5.0). */
module Primitives {
  import opened Common

  type byte = b: int | 0 <= b < 256

  const MAX_REMAINING_LENGTH: nat := 268_435_455

  datatype Error =
    | PayloadTooLong(actual: nat, max: nat)
    | BoundaryCrossed(length: nat)
    | MalformedPacket
    | MalformedRemainingLength
    | InsufficientBytes(required: nat)

  /** A growable buffer, written at its end and read from its front. */
  class Buffer {
    var data: seq<byte>

    constructor (data: seq<byte>)
      ensures this.data == data
    {
      this.data := data;
    }
  }

  function Pow128(k: nat): (p: nat)
    ensures p >= 1
  {
    if k == 0 then 1 else 128 * Pow128(k - 1)
  }

  // ---- The meaning of an encoding ----

  /** The low seven bits of each byte, least significant first. */
  function Value(s: seq<byte>): nat {
    if s == [] then 0 else s[0] % 128 + 128 * Value(s[1..])
  }

  /** Continuation bits on all bytes but the last, at most four bytes. */
  predicate WellFormed(s: seq<byte>) {
    1 <= |s| <= 4 && s[|s| - 1] < 128 && forall i :: 0 <= i < |s| - 1 ==> s[i] >= 128
  }

  lemma {:induction false} ValueSnoc(s: seq<byte>, b: byte)
    ensures Value(s + [b]) == Value(s) + (b % 128) * Pow128(|s|)
  {
    if s == [] {
      assert s + [b] == [b];
    } else {
      assert (s + [b])[1..] == s[1..] + [b];
      ValueSnoc(s[1..], b);
    }
  }

  lemma {:induction false} ValueBound(s: seq<byte>)
    ensures Value(s) < Pow128(|s|)
  {
    if s != [] {
      ValueBound(s[1..]);
    }
  }

  lemma Powers()
    ensures Pow128(0) == 1 && Pow128(1) == 128 && Pow128(2) == 16_384 && Pow128(3) == 2_097_152 && Pow128(4) == 268_435_456
  {
    assert Pow128(1) == 128 * Pow128(0);
    assert Pow128(2) == 128 * Pow128(1);
    assert Pow128(3) == 128 * Pow128(2);
    assert Pow128(4) == 128 * Pow128(3);
  }

  // ---- Decoding ----

  /** The decoder's answer: the length and value of the leading encoding, or why there is none. */
  function Decode(s: seq<byte>): (r: Result<(nat, nat), Error>) {
    DecodeFrom(s, 0)
  }

  /** Scans from position `k`; all bytes before it carry the continuation bit. */
  function DecodeFrom(s: seq<byte>, k: nat): Result<(nat, nat), Error>
    requires k <= |s|
    decreases |s| - k
  {
    if k == 4 then Err(MalformedRemainingLength)
    else if k == |s| then Err(InsufficientBytes(1))
    else if s[k] < 128 then Ok((k + 1, Value(s[..k + 1])))
    else DecodeFrom(s, k + 1)
  }

  /** `len += (byte & 0x7F) << shift`, as long as `shift` is at most 21. */
  method Length(stream: seq<byte>) returns (r: Result<(nat, nat), Error>)
    ensures r == Decode(stream)
  {
    var len := 0;
    var lenLen := 0;
    var done := false;
    var shift := 0;
    while lenLen < |stream| && !done
      invariant lenLen <= |stream| && lenLen <= 4
      invariant done ==> lenLen >= 1 && stream[lenLen - 1] < 128 && Decode(stream) == Ok((lenLen, len))
      invariant !done ==> lenLen < 4 && shift == 7 * lenLen && len == Value(stream[..lenLen])
      invariant !done ==> DecodeFrom(stream, lenLen) == Decode(stream)
      decreases |stream| - lenLen, !done
    {
      var b := stream[lenLen];
      assert stream[..lenLen + 1] == stream[..lenLen] + [b];
      ValueSnoc(stream[..lenLen], b);
      ShiftIsPower(lenLen);
      lenLen := lenLen + 1;
      len := len + (b % 128) * ShiftFactor(shift);
      done := b < 128;
      if !done {
        shift := shift + 7;
        if shift > 21 {
          return Err(MalformedRemainingLength);
        }
      }
    }
    if !done {
      return Err(InsufficientBytes(1));
    }
    return Ok((lenLen, len));
  }

  /** `1 << shift`. */
  function ShiftFactor(shift: nat): nat {
    if shift == 0 then 1 else 2 * ShiftFactor(shift - 1)
  }

  lemma {:induction false} ShiftIsPower(k: nat)
    ensures ShiftFactor(7 * k) == Pow128(k)
  {
    if k > 0 {
      ShiftIsPower(k - 1);
      var s := 7 * (k - 1);
      assert ShiftFactor(s + 7) == 2 * ShiftFactor(s + 6) == 4 * ShiftFactor(s + 5) == 8 * ShiftFactor(s + 4);
      assert ShiftFactor(s + 4) == 2 * ShiftFactor(s + 3) == 4 * ShiftFactor(s + 2) == 8 * ShiftFactor(s + 1) == 16 * ShiftFactor(s);
    }
  }

  /** The router's decoder, which multiplies instead of shifting and looks at four bytes at most. */
  method ReadVariableInteger(input: seq<byte>) returns (r: Option<(nat, nat)>)
    ensures r.Some? <==> Decode(input).Ok?
    ensures r.Some? ==> Decode(input) == Ok((r.value.1, r.value.0))
  {
    var value: nat := 0;
    var multiplier: nat := 1;
    var index := 0;
    var limit := if |input| < 4 then |input| else 4;
    while index < limit
      invariant index <= limit && multiplier == Pow128(index) && value == Value(input[..index])
      invariant DecodeFrom(input, index) == Decode(input)
    {
      var encoded := input[index];
      assert input[..index + 1] == input[..index] + [encoded];
      ValueSnoc(input[..index], encoded);
      value := value + (encoded % 128) * multiplier;
      if encoded < 128 {
        return Some((value, index + 1));
      }
      multiplier := multiplier * 128;
      index := index + 1;
    }
    return None;
  }

  /** What the decoder accepts: exactly a well-formed prefix, with its meaning. */
  lemma {:induction false} DecodeAccepts(s: seq<byte>, k: nat)
    requires k <= |s| && k <= 4 && forall i :: 0 <= i < k ==> s[i] >= 128
    ensures DecodeFrom(s, k).Ok? ==>
              var (n, v) := DecodeFrom(s, k).value;
              k < n <= |s| && WellFormed(s[..n]) && v == Value(s[..n])
    ensures DecodeFrom(s, k) == Err(InsufficientBytes(1)) ==> |s| < 4 && forall i :: 0 <= i < |s| ==> s[i] >= 128
    ensures DecodeFrom(s, k) == Err(MalformedRemainingLength) ==> |s| >= 4 && forall i :: 0 <= i < 4 ==> s[i] >= 128
    ensures DecodeFrom(s, k).Err? ==> DecodeFrom(s, k).error in {InsufficientBytes(1), MalformedRemainingLength}
    decreases |s| - k
  {
    if k < 4 && k < |s| && s[k] >= 128 {
      DecodeAccepts(s, k + 1);
    }
  }

  lemma {:induction false} DecodeFinds(s: seq<byte>, n: nat, k: nat)
    requires k < n <= |s| && WellFormed(s[..n])
    ensures DecodeFrom(s, k) == Ok((n, Value(s[..n])))
    decreases n - k
  {
    assert s[..n][k] == s[k];
    if k < n - 1 {
      DecodeFinds(s, n, k + 1);
    }
  }

  /** Decoding characterised: `Ok((n, v))` says the first `n` bytes are well formed and mean `v`. */
  lemma DecodeMeaning(s: seq<byte>, n: nat, v: nat)
    ensures Decode(s) == Ok((n, v)) <==> n <= |s| && WellFormed(s[..n]) && v == Value(s[..n])
  {
    DecodeAccepts(s, 0);
    if n <= |s| && WellFormed(s[..n]) {
      DecodeFinds(s, n, 0);
    }
  }

  // ---- Encoding ----

  function Encode(n: nat): (s: seq<byte>)
    ensures |s| >= 1
    decreases n
  {
    if n < 128 then [n] else [n % 128 + 128] + Encode(n / 128)
  }

  function LenLen(len: nat): nat {
    if len >= 2_097_152 then 4 else if len >= 16_384 then 3 else if len >= 128 then 2 else 1
  }

  /** Appends the encoding, or leaves the buffer alone when the length is out of range. */
  method WriteRemainingLength(stream: Buffer, len: nat) returns (r: Result<nat, Error>)
    modifies stream
    ensures len > MAX_REMAINING_LENGTH ==> r == Err(PayloadTooLong(len, MAX_REMAINING_LENGTH)) && stream.data == old(stream.data)
    ensures len <= MAX_REMAINING_LENGTH ==> r == Ok(|Encode(len)|) && stream.data == old(stream.data) + Encode(len)
  {
    if len > MAX_REMAINING_LENGTH {
      return Err(PayloadTooLong(len, MAX_REMAINING_LENGTH));
    }
    var count := WriteVariableInteger(stream, len);
    return Ok(count);
  }

  /** The router's writer: the same loop without the range check. */
  method WriteVariableInteger(stream: Buffer, value: nat) returns (count: nat)
    modifies stream
    ensures count == |Encode(value)| && stream.data == old(stream.data) + Encode(value)
  {
    var done := false;
    var x := value;
    count := 0;
    while !done
      invariant !done ==> stream.data + Encode(x) == old(stream.data) + Encode(value)
      invariant !done ==> count + |Encode(x)| == |Encode(value)|
      invariant done ==> x == 0 && stream.data == old(stream.data) + Encode(value) && count == |Encode(value)|
      decreases !done, x
    {
      var b := x % 128;
      var rest := x / 128;
      ghost var before := stream.data;
      if rest > 0 {
        b := b + 128;
        assert Encode(x) == [b] + Encode(rest);
      } else {
        assert Encode(x) == [b];
      }
      stream.data := stream.data + [b];
      assert rest > 0 ==> before + Encode(x) == stream.data + Encode(rest);
      x := rest;
      count := count + 1;
      done := x == 0;
    }
  }

  lemma {:induction false} EncodeSize(n: nat, k: nat)
    requires 1 <= k && n < Pow128(k)
    ensures |Encode(n)| <= k
    ensures k > 1 && n >= Pow128(k - 1) ==> |Encode(n)| == k
  {
    if n < 128 {
      assert k > 1 ==> Pow128(k - 1) == 128 * Pow128(k - 2);
    } else {
      assert k > 1 by {
        assert Pow128(1) == 128 * Pow128(0);
      }
      EncodeSize(n / 128, k - 1);
    }
  }

  lemma LenLenIsSize(n: nat)
    requires n <= MAX_REMAINING_LENGTH
    ensures |Encode(n)| == LenLen(n)
  {
    Powers();
    EncodeSize(n, LenLen(n));
  }

  lemma {:induction false} EncodeShape(n: nat)
    ensures Value(Encode(n)) == n
    ensures Encode(n)[|Encode(n)| - 1] < 128 && forall i :: 0 <= i < |Encode(n)| - 1 ==> Encode(n)[i] >= 128
    ensures |Encode(n)| > 1 ==> Encode(n)[|Encode(n)| - 1] != 0
  {
    if n < 128 {
      assert Value([n]) == n % 128 + 128 * Value([n][1..]);
    } else {
      EncodeShape(n / 128);
      var s := Encode(n);
      assert s[1..] == Encode(n / 128);
      assert s == [s[0]] + s[1..];
    }
  }

  // ---- Laws ----

  /** Reading a written length gives it back, whatever follows it. */
  lemma RoundTrip(n: nat, suffix: seq<byte>)
    requires n <= MAX_REMAINING_LENGTH
    ensures Decode(Encode(n) + suffix) == Ok((LenLen(n), n))
  {
    EncodeShape(n);
    LenLenIsSize(n);
    var s := Encode(n) + suffix;
    assert s[..|Encode(n)|] == Encode(n);
    DecodeFinds(s, |Encode(n)|, 0);
  }

  lemma ValueSteps(s: seq<byte>)
    requires |s| > 1 && s[0] >= 128
    ensures Value(s) / 128 == Value(s[1..]) && Value(s) % 128 + 128 == s[0]
  {
    SplitDigit(s[0], Value(s[1..]));
  }

  lemma SplitDigit(b: byte, rest: nat)
    requires b >= 128
    ensures (b as int % 128 + 128 * rest) / 128 == rest && (b as int % 128 + 128 * rest) % 128 + 128 == b as int
  {
  }

  /** A well-formed string whose last byte carries information is the encoding of its value. */
  lemma {:induction false} CanonicalIsEncoding(s: seq<byte>)
    requires s != [] && s[|s| - 1] < 128 && forall i :: 0 <= i < |s| - 1 ==> s[i] >= 128
    ensures Encode(Value(s)) == s <==> |s| == 1 || s[|s| - 1] != 0
  {
    if |s| == 1 {
      assert Value(s) == s[0] % 128 + 128 * Value(s[1..]);
    } else if s[|s| - 1] != 0 {
      CanonicalEncodes(s);
    } else {
      EncodeShape(Value(s));
    }
  }

  lemma {:induction false} CanonicalEncodes(s: seq<byte>)
    requires s != [] && 0 < s[|s| - 1] < 128 && forall i :: 0 <= i < |s| - 1 ==> s[i] >= 128
    ensures Encode(Value(s)) == s
  {
    if |s| == 1 {
      assert Value(s) == s[0] % 128 + 128 * Value(s[1..]);
    } else {
      CanonicalEncodes(s[1..]);
      LastNonzeroIsPositive(s[1..]);
      ValueSteps(s);
      assert s == [s[0]] + s[1..];
    }
  }

  lemma {:induction false} LastNonzeroIsPositive(s: seq<byte>)
    requires s != [] && 0 < s[|s| - 1] < 128
    ensures Value(s) > 0
  {
    if |s| > 1 {
      LastNonzeroIsPositive(s[1..]);
    }
  }

  /**
   * Every accepted string decodes in range, is no shorter than the shortest encoding of its value,
   * and re-encodes to itself exactly when it has no padding.
   */
  lemma AcceptedStrings(s: seq<byte>)
    requires Decode(s).Ok?
    ensures var (n, v) := Decode(s).value;
            && 1 <= n <= 4 && n <= |s|
            && v <= MAX_REMAINING_LENGTH
            && n >= LenLen(v)
            && (Encode(v) == s[..n] <==> n == 1 || s[n - 1] != 0)
  {
    DecodeAccepts(s, 0);
    var (n, v) := Decode(s).value;
    var t := s[..n];
    ValueBound(t);
    Powers();
    CanonicalIsEncoding(t);
    if n < LenLen(v) {
      PowMonotone(n, LenLen(v) - 1);
    }
  }

  lemma {:induction false} PowMonotone(a: nat, b: nat)
    requires a <= b
    ensures Pow128(a) <= Pow128(b)
    decreases b - a
  {
    if a < b {
      PowMonotone(a, b - 1);
    }
  }

  // ---- Length-prefixed bytes ----

  function U16(n: nat): seq<byte>
    requires n < 65_536
  {
    [n / 256, n % 256]
  }

  /** The high byte comes first. */
  lemma BigEndian(n: nat)
    requires n < 65_536
    ensures |U16(n)| == 2 && U16(n)[0] as int * 256 + U16(n)[1] as int == n
  {
  }

  function FromU16(hi: byte, lo: byte): (n: nat)
    ensures n < 65_536 && U16(n) == [hi, lo]
  {
    (hi as int) * 256 + lo as int
  }

  method WriteMqttBytes(stream: Buffer, bytes: seq<byte>) returns (r: Result<(), Error>)
    modifies stream
    ensures |bytes| > 65_535 ==> r == Err(PayloadTooLong(|bytes|, 65_535)) && stream.data == old(stream.data)
    ensures |bytes| <= 65_535 ==> r == Ok(()) && stream.data == old(stream.data) + U16(|bytes|) + bytes
  {
    if |bytes| > 65_535 {
      return Err(PayloadTooLong(|bytes|, 65_535));
    }
    stream.data := stream.data + U16(|bytes|);
    stream.data := stream.data + bytes;
    return Ok(());
  }

  /** What a read returns and what it leaves; a crossed boundary has already consumed the prefix. */
  function ReadBytes(s: seq<byte>): (Result<seq<byte>, Error>, seq<byte>) {
    if |s| < 2 then (Err(MalformedPacket), s)
    else
      var len := FromU16(s[0], s[1]);
      if len > |s| - 2 then (Err(BoundaryCrossed(len)), s[2..]) else (Ok(s[2..2 + len]), s[2 + len..])
  }

  method ReadMqttBytes(stream: Buffer) returns (r: Result<seq<byte>, Error>)
    modifies stream
    ensures (r, stream.data) == old(ReadBytes(stream.data))
  {
    if |stream.data| < 2 {
      return Err(MalformedPacket);
    }
    var len := FromU16(stream.data[0], stream.data[1]);
    stream.data := stream.data[2..];
    if len > |stream.data| {
      return Err(BoundaryCrossed(len));
    }
    r := Ok(stream.data[..len]);
    assert stream.data[..len] == old(stream.data)[2..2 + len];
    assert stream.data[len..] == old(stream.data)[2 + len..];
    stream.data := stream.data[len..];
  }

  /** A field is read exactly when the input starts with it; otherwise the error says why, and what is consumed is the prefix or nothing. */
  lemma FieldReadExactly(s: seq<byte>, bytes: seq<byte>, rest: seq<byte>)
    ensures ReadBytes(s) == (Ok(bytes), rest) <==> |bytes| <= 65_535 && s == U16(|bytes|) + bytes + rest
    ensures ReadBytes(s).0 == Err(MalformedPacket) <==> |s| < 2
    ensures |s| < 2 ==> ReadBytes(s).1 == s
    ensures |s| >= 2 ==>
              var declared := s[0] as int * 256 + s[1] as int;
              && (ReadBytes(s).0.Err? <==> |s| < 2 + declared)
              && (ReadBytes(s).0.Err? ==> ReadBytes(s) == (Err(BoundaryCrossed(declared)), s[2..]))
  {
    if |bytes| <= 65_535 && s == U16(|bytes|) + bytes + rest {
      FieldRoundTrip(bytes, rest);
    }
    if ReadBytes(s) == (Ok(bytes), rest) {
      assert U16(|bytes|) == [s[0], s[1]];
      assert s == s[..2] + s[2..2 + |bytes|] + s[2 + |bytes|..];
      assert s[..2] == [s[0], s[1]];
    }
  }

  /** Reading a written field gives it back and leaves exactly what followed it. */
  lemma FieldRoundTrip(bytes: seq<byte>, suffix: seq<byte>)
    requires |bytes| <= 65_535
    ensures ReadBytes(U16(|bytes|) + bytes + suffix) == (Ok(bytes), suffix)
  {
    var whole := U16(|bytes|) + bytes + suffix;
    assert whole[2..2 + |bytes|] == bytes && whole[2 + |bytes|..] == suffix;
  }
}
