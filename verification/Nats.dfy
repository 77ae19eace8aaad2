/** The NATS PUB codec: a text header, a length-counted payload, and a trailing CRLF. */
module Nats {
  import opened Common
  import opened Primitives
  import opened Utf8

  const USIZE_MAX: nat := 0xFFFF_FFFF_FFFF_FFFF

  /** No allocation exceeds this, so neither does any buffer or payload. */
  const ISIZE_MAX: nat := 0x7FFF_FFFF_FFFF_FFFF

  const CR: byte := 13
  const SPACE: byte := 32
  const PUB: seq<byte> := [80, 85, 66, 32]
  const CRLF: seq<byte> := [13, 10]

  datatype Publish = Publish(subject: seq<byte>, payload: seq<byte>)

  datatype NatsError =
    | BadSubject
    | IncompleteHeader
    | HeaderNotUtf8
    | NotPub
    | BadHeader
    | BadLength
    | Overflow
    | IncompletePayload
    | NotTerminated

  // ---- Subjects ----

  /** ASCII whitespace (space, tab, line feed, form feed, carriage return), `*` and `>`. */
  predicate Forbidden(b: byte) {
    b == 32 || b == 9 || b == 10 || b == 12 || b == 13 || b == 42 || b == 62
  }

  predicate ValidSubject(subject: seq<byte>) {
    subject != [] && forall i :: 0 <= i < |subject| ==> !Forbidden(subject[i])
  }

  // ---- Decimal lengths ----

  predicate Digit(b: byte) {
    48 <= b < 58
  }

  function Decimal(n: nat): (s: seq<byte>)
    ensures s != [] && forall i :: 0 <= i < |s| ==> Digit(s[i])
  {
    if n < 10 then [48 + n] else Decimal(n / 10) + [48 + n % 10]
  }

  /** The value of the first `n` digits. */
  function DigitsBefore(s: seq<byte>, n: nat): nat
    requires n <= |s| && forall i :: 0 <= i < n ==> Digit(s[i])
  {
    if n == 0 then 0
    else
      assert Digit(s[n - 1]);
      DigitsBefore(s, n - 1) * 10 + (s[n - 1] as int - 48)
  }

  function Digits(s: seq<byte>): nat
    requires forall i :: 0 <= i < |s| ==> Digit(s[i])
  {
    DigitsBefore(s, |s|)
  }

  function Unsigned(s: seq<byte>): seq<byte> {
    if |s| > 1 && s[0] == 43 then s[1..] else s
  }

  /** `str::parse::<usize>`: an optional plus sign, at least one digit, no overflow. */
  function ParseLength(s: seq<byte>): Option<nat> {
    var digits := Unsigned(s);
    if digits == [] || exists i :: 0 <= i < |digits| && !Digit(digits[i]) then None
    else if Digits(digits) > USIZE_MAX then None
    else Some(Digits(digits))
  }

  lemma {:induction false} DigitsInPrefix(a: seq<byte>, b: seq<byte>, n: nat)
    requires n <= |a| && forall i :: 0 <= i < n ==> Digit(a[i])
    ensures (forall i :: 0 <= i < n ==> Digit((a + b)[i])) && DigitsBefore(a + b, n) == DigitsBefore(a, n)
  {
    if n > 0 {
      DigitsInPrefix(a, b, n - 1);
    }
  }

  lemma {:induction false} DecimalDigits(n: nat)
    ensures Digits(Decimal(n)) == n
  {
    if n < 10 {
      assert DigitsBefore(Decimal(n), 0) == 0;
    } else {
      DecimalDigits(n / 10);
      DigitsInPrefix(Decimal(n / 10), [48 + n % 10], |Decimal(n / 10)|);
    }
  }

  /** Printing a length and parsing it is the identity. */
  lemma LengthRoundTrip(n: nat)
    requires n <= USIZE_MAX
    ensures ParseLength(Decimal(n)) == Some(n)
  {
    DecimalDigits(n);
    assert Digit(Decimal(n)[0]);
  }

  // ---- Searching ----

  /** The first position of `b` at or after `from`. */
  function ByteFrom(s: seq<byte>, b: byte, from: nat): (r: Option<nat>)
    requires from <= |s|
    ensures r.Some? ==> from <= r.value < |s| && s[r.value] == b && forall i :: from <= i < r.value ==> s[i] != b
    ensures r.None? ==> forall i :: from <= i < |s| ==> s[i] != b
    decreases |s| - from
  {
    if from == |s| then None else if s[from] == b then Some(from) else ByteFrom(s, b, from + 1)
  }

  function FirstByte(s: seq<byte>, b: byte): Option<nat> {
    ByteFrom(s, b, 0)
  }

  predicate CrlfAt(s: seq<byte>, i: nat) {
    i + 2 <= |s| && s[i] == 13 && s[i + 1] == 10
  }

  /** The first position of CRLF at or after `from`. */
  function CrlfFrom(s: seq<byte>, from: nat): (r: Option<nat>)
    requires from <= |s|
    ensures r.Some? ==> from <= r.value && CrlfAt(s, r.value) && forall i :: from <= i < r.value ==> !CrlfAt(s, i)
    ensures r.None? ==> forall i: nat :: from <= i ==> !CrlfAt(s, i)
    decreases |s| - from
  {
    if from + 2 > |s| then None else if CrlfAt(s, from) then Some(from) else CrlfFrom(s, from + 1)
  }

  function FirstCrlf(s: seq<byte>): Option<nat> {
    CrlfFrom(s, 0)
  }

  // ---- The codec ----

  function Frame(subject: seq<byte>, payload: seq<byte>): seq<byte> {
    Header(subject, payload) + CRLF + payload + CRLF
  }

  function Header(subject: seq<byte>, payload: seq<byte>): seq<byte> {
    HeaderWith(subject, Decimal(|payload|))
  }

  /** A header and a frame with the length written in any way. */
  function HeaderWith(subject: seq<byte>, length: seq<byte>): seq<byte> {
    PUB + subject + [SPACE] + length
  }

  function FrameWith(subject: seq<byte>, length: seq<byte>, payload: seq<byte>): seq<byte> {
    HeaderWith(subject, length) + CRLF + payload + CRLF
  }

  /** Appends one frame, or refuses the subject and leaves the buffer as it was. */
  method WritePublish(subject: seq<byte>, payload: seq<byte>, output: Buffer) returns (r: Result<(), NatsError>)
    modifies output
    ensures ValidSubject(subject) ==> r == Ok(()) && output.data == old(output.data) + Frame(subject, payload)
    ensures !ValidSubject(subject) ==> r == Err(BadSubject) && output.data == old(output.data)
    ensures r.Ok? <==> subject != [] && forall b :: b in subject ==> b !in {9, 10, 12, 13, 32, 42, 62}
  {
    assert forall i :: 0 <= i < |subject| ==> subject[i] in subject;
    if !ValidSubject(subject) {
      return Err(BadSubject);
    }
    output.data := output.data + PUB;
    output.data := output.data + subject;
    output.data := output.data + [SPACE];
    output.data := output.data + Decimal(|payload|);
    output.data := output.data + CRLF;
    output.data := output.data + payload;
    output.data := output.data + CRLF;
    assert output.data == old(output.data) + Frame(subject, payload);
    return Ok(());
  }

  /** The subject and payload length of a header, or what is wrong with it. */
  function ParseHeader(header: seq<byte>): Result<(seq<byte>, nat), NatsError> {
    if !IsUtf8(header) then Err(HeaderNotUtf8)
    else if !(PUB <= header) then Err(NotPub)
    else ParseFields(header[4..])
  }

  function ParseFields(rest: seq<byte>): Result<(seq<byte>, nat), NatsError> {
    var space := FirstByte(rest, SPACE);
    if space.None? then Err(BadHeader)
    else
      var subject, length := rest[..space.value], rest[space.value + 1..];
      if SPACE in length then Err(BadHeader)
      else if !ValidSubject(subject) then Err(BadSubject)
      else
        var n := ParseLength(length);
        if n.None? then Err(BadLength) else Ok((subject, n.value))
  }

  function FrameAt(input: seq<byte>): Result<(Publish, nat), NatsError> {
    var headerEnd := FirstCrlf(input);
    if headerEnd.None? then Err(IncompleteHeader)
    else
      var header := ParseHeader(input[..headerEnd.value]);
      if header.Err? then Err(header.error) else PayloadAt(input, headerEnd.value + 2, header.value.0, header.value.1)
  }

  function PayloadAt(input: seq<byte>, start: nat, subject: seq<byte>, n: nat): Result<(Publish, nat), NatsError> {
    var end := start + n;
    if end + 2 > USIZE_MAX then Err(Overflow)
    else if |input| < end + 2 then Err(IncompletePayload)
    else if input[end..end + 2] != CRLF then Err(NotTerminated)
    else Ok((Publish(subject, input[start..end]), end + 2))
  }

  /** Splits one frame off the front; on any error the buffer is untouched. */
  method ReadPublish(input: Buffer) returns (r: Result<Publish, NatsError>)
    modifies input
    ensures FrameAt(old(input.data)).Ok? ==>
              var (publish, n) := FrameAt(old(input.data)).value;
              r == Ok(publish) && n <= |old(input.data)| && input.data == old(input.data)[n..]
    ensures FrameAt(old(input.data)).Err? ==> r == Err(FrameAt(old(input.data)).error) && input.data == old(input.data)
  {
    var headerEnd := FirstCrlf(input.data);
    if headerEnd.None? {
      return Err(IncompleteHeader);
    }
    var header := ParseHeader(input.data[..headerEnd.value]);
    if header.Err? {
      return Err(header.error);
    }
    var payloadStart := headerEnd.value + 2;
    var payloadEnd := payloadStart + header.value.1;
    var frameLen := payloadEnd + 2;
    if frameLen > USIZE_MAX {
      return Err(Overflow);
    }
    if |input.data| < frameLen {
      return Err(IncompletePayload);
    }
    if input.data[payloadEnd..frameLen] != CRLF {
      return Err(NotTerminated);
    }
    var frame := input.data[..frameLen];
    input.data := input.data[frameLen..];
    assert frame[payloadStart..payloadEnd] == old(input.data)[payloadStart..payloadEnd];
    return Ok(Publish(header.value.0, frame[payloadStart..payloadEnd]));
  }

  // ---- The round trip ----

  lemma LengthBytes(length: seq<byte>)
    requires ParseLength(length).Some?
    ensures length != [] && forall i :: 0 <= i < |length| ==> Digit(length[i]) || (i == 0 && length[i] == 43)
  {
    var digits := Unsigned(length);
    assert forall i :: 0 <= i < |digits| ==> Digit(digits[i]);
    assert digits != length ==> forall i :: 1 <= i < |length| ==> length[i] == digits[i - 1];
  }

  lemma HeaderHasNoCr(subject: seq<byte>, length: seq<byte>)
    requires ValidSubject(subject) && ParseLength(length).Some?
    ensures CR !in HeaderWith(subject, length) && SPACE !in length
  {
    LengthBytes(length);
    assert forall i :: 0 <= i < |subject| ==> subject[i] != CR;
    assert forall i :: 0 <= i < |length| ==> length[i] != CR && length[i] != SPACE;
  }

  /** The header's own CRLF comes first, even when the payload contains others. */
  lemma FirstCrlfEndsHeader(header: seq<byte>, rest: seq<byte>)
    requires CR !in header
    ensures FirstCrlf(header + CRLF + rest) == Some(|header|)
  {
    var s := header + CRLF + rest;
    assert CrlfAt(s, |header|);
    forall i | 0 <= i < |header|
      ensures !CrlfAt(s, i)
    {
      assert s[i] == header[i] && header[i] in header;
    }
  }

  lemma FirstSpaceEndsSubject(subject: seq<byte>, rest: seq<byte>)
    requires ValidSubject(subject)
    ensures FirstByte(subject + [SPACE] + rest, SPACE) == Some(|subject|)
  {
    var s := subject + [SPACE] + rest;
    assert s[|subject|] == SPACE;
    forall i | 0 <= i < |subject|
      ensures s[i] != SPACE
    {
      assert s[i] == subject[i];
    }
  }

  lemma HeaderIsUtf8(subject: seq<byte>, payload: seq<byte>)
    requires IsUtf8(subject)
    ensures IsUtf8(Header(subject, payload))
  {
    AsciiUtf8(PUB);
    AsciiUtf8([SPACE]);
    AsciiUtf8(Decimal(|payload|));
    ConcatUtf8(PUB, subject);
    ConcatUtf8(PUB + subject, [SPACE]);
    ConcatUtf8(PUB + subject + [SPACE], Decimal(|payload|));
  }

  lemma FieldsReadBack(subject: seq<byte>, length: seq<byte>)
    requires ValidSubject(subject) && SPACE !in length && ParseLength(length).Some?
    ensures ParseFields(subject + [SPACE] + length) == Ok((subject, ParseLength(length).value))
  {
    var rest := subject + [SPACE] + length;
    FirstSpaceEndsSubject(subject, length);
    assert rest[..|subject|] == subject && rest[|subject| + 1..] == length;
  }

  lemma HeaderReadsBack(subject: seq<byte>, length: seq<byte>)
    requires ValidSubject(subject) && IsUtf8(HeaderWith(subject, length)) && ParseLength(length).Some?
    ensures ParseHeader(HeaderWith(subject, length)) == Ok((subject, ParseLength(length).value))
  {
    HeaderHasNoCr(subject, length);
    assert HeaderWith(subject, length) == PUB + (subject + [SPACE] + length);
    FieldsReadBack(subject, length);
  }

  lemma PayloadReadsBack(h: seq<byte>, subject: seq<byte>, payload: seq<byte>, suffix: seq<byte>)
    requires |h| + |payload| + 4 <= USIZE_MAX
    ensures PayloadAt(h + CRLF + payload + CRLF + suffix, |h| + 2, subject, |payload|)
         == Ok((Publish(subject, payload), |h| + |payload| + 4))
  {
    var s := h + CRLF + payload + CRLF + suffix;
    var start := |h| + 2;
    assert s[start..start + |payload|] == payload && s[start + |payload|..start + |payload| + 2] == CRLF;
  }

  lemma FrameHeader(h: seq<byte>, payload: seq<byte>, suffix: seq<byte>)
    requires CR !in h
    ensures var s := h + CRLF + payload + CRLF + suffix;
            FirstCrlf(s) == Some(|h|) && s[..|h|] == h
  {
    assert h + CRLF + payload + CRLF + suffix == h + CRLF + (payload + CRLF + suffix);
    FirstCrlfEndsHeader(h, payload + CRLF + suffix);
  }

  lemma FrameAfterHeader(input: seq<byte>, h: seq<byte>)
    requires FirstCrlf(input) == Some(|h|) && input[..|h|] == h && ParseHeader(h).Ok?
    ensures FrameAt(input) == PayloadAt(input, |h| + 2, ParseHeader(h).value.0, ParseHeader(h).value.1)
  {
  }

  /** However its length is written, a frame is read as its subject and payload, and exactly the suffix remains. */
  lemma AnyFrameReadsBack(subject: seq<byte>, length: seq<byte>, payload: seq<byte>, suffix: seq<byte>)
    requires ValidSubject(subject) && IsUtf8(HeaderWith(subject, length)) && ParseLength(length) == Some(|payload|)
    requires |FrameWith(subject, length, payload)| <= USIZE_MAX
    ensures var frame := FrameWith(subject, length, payload);
            FrameAt(frame + suffix) == Ok((Publish(subject, payload), |frame|)) && (frame + suffix)[|frame|..] == suffix
  {
    HeaderHasNoCr(subject, length);
    HeaderReadsBack(subject, length);
    HeadedFrameReadsBack(HeaderWith(subject, length), subject, payload, suffix);
  }

  lemma HeadedFrameReadsBack(h: seq<byte>, subject: seq<byte>, payload: seq<byte>, suffix: seq<byte>)
    requires CR !in h && ParseHeader(h) == Ok((subject, |payload|)) && |h| + |payload| + 4 <= USIZE_MAX
    ensures var frame := h + CRLF + payload + CRLF;
            FrameAt(frame + suffix) == Ok((Publish(subject, payload), |frame|)) && (frame + suffix)[|frame|..] == suffix
  {
    FrameHeader(h, payload, suffix);
    FrameAfterHeader(h + CRLF + payload + CRLF + suffix, h);
    PayloadReadsBack(h, subject, payload, suffix);
  }

  /** Reading a written frame returns its subject and payload, CRLFs included, and its exact length. */
  lemma FrameReadsBack(subject: seq<byte>, payload: seq<byte>, suffix: seq<byte>)
    requires ValidSubject(subject) && IsUtf8(subject) && |Frame(subject, payload) + suffix| <= ISIZE_MAX
    ensures FrameAt(Frame(subject, payload) + suffix) == Ok((Publish(subject, payload), |Frame(subject, payload)|))
    ensures (Frame(subject, payload) + suffix)[|Frame(subject, payload)|..] == suffix
  {
    HeaderIsUtf8(subject, payload);
    LengthRoundTrip(|payload|);
    AnyFrameReadsBack(subject, Decimal(|payload|), payload, suffix);
  }

  // ---- What is accepted, exactly ----

  lemma AcceptedHeader(header: seq<byte>) returns (length: seq<byte>)
    requires ParseHeader(header).Ok?
    ensures var (subject, n) := ParseHeader(header).value;
            ValidSubject(subject) && IsUtf8(header) && header == HeaderWith(subject, length) && ParseLength(length) == Some(n)
  {
    length := AcceptedFields(header[4..]);
    HeaderParts(header, ParseHeader(header).value.0, length);
  }

  lemma AcceptedFields(rest: seq<byte>) returns (length: seq<byte>)
    requires ParseFields(rest).Ok?
    ensures var (subject, n) := ParseFields(rest).value;
            ValidSubject(subject) && rest == subject + [SPACE] + length && ParseLength(length) == Some(n)
  {
    length := rest[FirstByte(rest, SPACE).value + 1..];
  }

  lemma HeaderParts(header: seq<byte>, subject: seq<byte>, length: seq<byte>)
    requires PUB <= header && header[4..] == subject + [SPACE] + length
    ensures header == HeaderWith(subject, length)
  {
    assert header == PUB + header[4..];
  }

  /** The first `n` bytes of the input are a frame of this publish, with its length written as `length`. */
  predicate Declares(input: seq<byte>, publish: Publish, n: nat, length: seq<byte>) {
    && ValidSubject(publish.subject) && IsUtf8(HeaderWith(publish.subject, length))
    && ParseLength(length) == Some(|publish.payload|)
    && n <= |input| && n <= USIZE_MAX && input[..n] == FrameWith(publish.subject, length, publish.payload)
  }

  lemma AcceptedPayload(input: seq<byte>, h: seq<byte>, subject: seq<byte>, n: nat)
    requires |h| + 2 <= |input| && input[..|h|] == h && CrlfAt(input, |h|) && PayloadAt(input, |h| + 2, subject, n).Ok?
    ensures var (publish, end) := PayloadAt(input, |h| + 2, subject, n).value;
            && publish.subject == subject && |publish.payload| == n && end <= |input| && end <= USIZE_MAX
            && input[..end] == h + CRLF + publish.payload + CRLF
  {
    var (publish, end) := PayloadAt(input, |h| + 2, subject, n).value;
    assert input[|h|..|h| + 2] == CRLF;
    assert input[..end] == input[..|h|] + input[|h|..|h| + 2] + input[|h| + 2..end - 2] + input[end - 2..end];
  }

  lemma AcceptedDeclares(input: seq<byte>) returns (length: seq<byte>)
    requires FrameAt(input).Ok?
    ensures Declares(input, FrameAt(input).value.0, FrameAt(input).value.1, length)
  {
    var h := AcceptedParts(input);
    length := AcceptedHeader(h);
    AcceptedPayload(input, h, ParseHeader(h).value.0, ParseHeader(h).value.1);
  }

  lemma AcceptedParts(input: seq<byte>) returns (h: seq<byte>)
    requires FrameAt(input).Ok?
    ensures |h| + 2 <= |input| && input[..|h|] == h && CrlfAt(input, |h|) && ParseHeader(h).Ok?
    ensures FrameAt(input) == PayloadAt(input, |h| + 2, ParseHeader(h).value.0, ParseHeader(h).value.1)
  {
    h := input[..FirstCrlf(input).value];
  }

  /** An input is accepted as this publish exactly when it starts with a frame of it whose header declares its length. */
  lemma AcceptedFrames(input: seq<byte>, publish: Publish, n: nat)
    ensures FrameAt(input) == Ok((publish, n)) <==> exists length :: Declares(input, publish, n, length)
  {
    if FrameAt(input) == Ok((publish, n)) {
      var length := AcceptedDeclares(input);
      assert Declares(input, publish, n, length);
    }
    if length :| Declares(input, publish, n, length) {
      AnyFrameReadsBack(publish.subject, length, publish.payload, input[n..]);
      assert input == input[..n] + input[n..];
    }
  }

  predicate CanonicalLength(length: seq<byte>) {
    length != [] && length[0] != 43 && (length[0] != 48 || |length| == 1)
  }

  lemma {:induction false} DecimalIsCanonical(n: nat)
    ensures CanonicalLength(Decimal(n)) && (n > 0 ==> Decimal(n)[0] != 48)
  {
    if n >= 10 {
      DecimalIsCanonical(n / 10);
    }
  }

  lemma {:induction false} CanonicalIsDecimal(s: seq<byte>)
    requires s != [] && (forall i :: 0 <= i < |s| ==> Digit(s[i])) && (s[0] != 48 || |s| == 1)
    ensures Decimal(Digits(s)) == s
  {
    if |s| == 1 {
      assert DigitsBefore(s, 0) == 0;
    } else {
      var front, last := s[..|s| - 1], s[|s| - 1];
      CanonicalIsDecimal(front);
      assert s == front + [last];
      DigitsInPrefix(front, [last], |front|);
      DigitsPositive(front);
      assert Digit(last);
      assert Digits(s) == Digits(front) * 10 + (last as int - 48);
    }
  }

  lemma {:induction false} DigitsPositive(s: seq<byte>)
    requires s != [] && (forall i :: 0 <= i < |s| ==> Digit(s[i])) && s[0] != 48
    ensures Digits(s) > 0
  {
    DigitsBeforePositive(s, |s|);
  }

  lemma {:induction false} DigitsBeforePositive(s: seq<byte>, n: nat)
    requires 1 <= n <= |s| && (forall i :: 0 <= i < n ==> Digit(s[i])) && s[0] != 48
    ensures DigitsBefore(s, n) > 0
  {
    assert Digit(s[n - 1]);
    if n > 1 {
      DigitsBeforePositive(s, n - 1);
    } else {
      assert DigitsBefore(s, 0) == 0;
    }
  }

  lemma CanonicalExactly(length: seq<byte>)
    requires ParseLength(length).Some?
    ensures length == Decimal(ParseLength(length).value) <==> CanonicalLength(length)
  {
    LengthBytes(length);
    DecimalIsCanonical(ParseLength(length).value);
    if CanonicalLength(length) {
      CanonicalIsDecimal(length);
    }
  }

  // ---- Lengths, exactly ----

  function Zeros(k: nat): (s: seq<byte>)
    ensures |s| == k && forall i :: 0 <= i < k ==> s[i] == 48
  {
    seq(k, _ => 48)
  }

  lemma {:induction false} LeadingZero(s: seq<byte>, n: nat)
    requires n < |s| && s[0] == 48 && forall i :: 0 <= i < |s| ==> Digit(s[i])
    ensures DigitsBefore(s, n + 1) == DigitsBefore(s[1..], n)
  {
    if n > 0 {
      LeadingZero(s, n - 1);
      assert s[1..][n - 1] == s[n];
    } else {
      assert DigitsBefore(s, 0) == 0;
    }
  }

  lemma {:induction false} ZerosThenDecimal(s: seq<byte>) returns (k: nat)
    requires s != [] && forall i :: 0 <= i < |s| ==> Digit(s[i])
    ensures s == Zeros(k) + Decimal(Digits(s))
  {
    if s[0] != 48 || |s| == 1 {
      CanonicalIsDecimal(s);
      return 0;
    }
    k := ZerosThenDecimal(s[1..]);
    LeadingZero(s, |s| - 1);
    assert s == [48] + s[1..] && Zeros(k + 1) == [48] + Zeros(k);
    k := k + 1;
  }

  lemma {:induction false} PaddedDigits(n: nat, k: nat)
    ensures var s := Zeros(k) + Decimal(n); (forall i :: 0 <= i < |s| ==> Digit(s[i])) && Digits(s) == n
  {
    var s := Zeros(k) + Decimal(n);
    if k == 0 {
      DecimalDigits(n);
      assert s == Decimal(n);
    } else {
      PaddedDigits(n, k - 1);
      assert s[1..] == Zeros(k - 1) + Decimal(n);
      LeadingZero(s, |s| - 1);
    }
  }

  predicate Padded(length: seq<byte>, n: nat, plus: bool, k: nat) {
    length == (if plus then [43] else []) + Zeros(k) + Decimal(n)
  }

  lemma PaddedParses(length: seq<byte>, n: nat, plus: bool, k: nat)
    requires Padded(length, n, plus, k) && n <= USIZE_MAX
    ensures ParseLength(length) == Some(n)
  {
    var s := Zeros(k) + Decimal(n);
    PaddedDigits(n, k);
    assert Digit(s[0]);
    assert length == if plus then [43] + s else s;
    assert Unsigned(length) == s;
  }

  /** A length is accepted exactly as an optional plus sign, any number of zeros, and the printed number. */
  lemma LengthParsedExactly(length: seq<byte>, n: nat)
    ensures ParseLength(length) == Some(n) <==> n <= USIZE_MAX && exists plus: bool, k: nat :: Padded(length, n, plus, k)
  {
    if ParseLength(length) == Some(n) {
      var digits := Unsigned(length);
      var k := ZerosThenDecimal(digits);
      assert Padded(length, n, digits != length, k);
    } else if n <= USIZE_MAX && exists plus: bool, k: nat :: Padded(length, n, plus, k) {
      var plus, k: nat :| Padded(length, n, plus, k);
      PaddedParses(length, n, plus, k);
    }
  }

  // ---- Refusals, exactly ----

  /** The header is what stands before the first CRLF. */
  predicate HeaderEnds(input: seq<byte>, k: nat) {
    CrlfAt(input, k) && forall i :: 0 <= i < k ==> !CrlfAt(input, i)
  }

  /** Exactly one space separates the fields, at position `i`. */
  predicate OneSpace(rest: seq<byte>, i: nat) {
    i < |rest| && rest[i] == SPACE && forall j :: 0 <= j < |rest| && j != i ==> rest[j] != SPACE
  }

  /** Two fields with one space between them, or a bad header. */
  lemma FieldsRefusedExactly(rest: seq<byte>)
    ensures ParseFields(rest) == Err(BadHeader) <==> forall i: nat :: !OneSpace(rest, i)
  {
    var space := FirstByte(rest, SPACE);
    if space.Some? {
      var length := rest[space.value + 1..];
      assert forall j :: 0 <= j < |length| ==> length[j] == rest[space.value + 1 + j];
      if SPACE !in length {
        assert OneSpace(rest, space.value);
      } else {
        var j :| 0 <= j < |length| && length[j] == SPACE;
        assert rest[space.value + 1 + j] == SPACE;
      }
    }
  }

  /** And each field is refused for what it is. */
  lemma FieldRefusedExactly(rest: seq<byte>, i: nat)
    requires OneSpace(rest, i)
    ensures ParseFields(rest) == Err(BadSubject) <==> !ValidSubject(rest[..i])
    ensures ParseFields(rest) == Err(BadLength) <==> ValidSubject(rest[..i]) && ParseLength(rest[i + 1..]).None?
    ensures ParseFields(rest).Ok? ==> ParseFields(rest) == Ok((rest[..i], ParseLength(rest[i + 1..]).value))
  {
    assert FirstByte(rest, SPACE) == Some(i);
    var length := rest[i + 1..];
    assert forall j :: 0 <= j < |length| ==> length[j] == rest[i + 1 + j];
  }

  lemma HeaderFound(input: seq<byte>, k: nat)
    ensures FirstCrlf(input) == Some(k) <==> HeaderEnds(input, k)
  {
  }

  /** What is wrong with a refused frame, down to its fields; no CRLF yet means that the header is incomplete. */
  lemma RefusedExactly(input: seq<byte>, k: nat)
    ensures FrameAt(input) == Err(IncompleteHeader) <==> forall i: nat :: !CrlfAt(input, i)
    ensures HeaderEnds(input, k) ==>
              var h := input[..k];
              && (FrameAt(input) == Err(HeaderNotUtf8) <==> !IsUtf8(h))
              && (FrameAt(input) == Err(NotPub) <==> IsUtf8(h) && !(PUB <= h))
              && (IsUtf8(h) && PUB <= h && ParseFields(h[4..]).Err? ==> FrameAt(input) == Err(ParseFields(h[4..]).error))
  {
    if HeaderEnds(input, k) {
      AfterHeader(input, k);
      FieldsErrors(input[..k]);
    }
    if FirstCrlf(input).Some? {
      AfterHeader(input, FirstCrlf(input).value);
      FieldsErrors(input[..FirstCrlf(input).value]);
    }
  }

  lemma FieldsErrors(h: seq<byte>)
    ensures ParseHeader(h).Err? ==> ParseHeader(h).error in {HeaderNotUtf8, NotPub, BadHeader, BadSubject, BadLength}
    ensures IsUtf8(h) && PUB <= h && ParseFields(h[4..]).Err? ==> ParseFields(h[4..]).error in {BadHeader, BadSubject, BadLength}
  {
  }

  /** And of its payload: more than a buffer can hold, not all there yet, or not followed by CRLF. */
  lemma PayloadRefusedExactly(input: seq<byte>, k: nat)
    requires HeaderEnds(input, k) && ParseHeader(input[..k]).Ok?
    ensures var size := k + ParseHeader(input[..k]).value.1 + 4;
            && (FrameAt(input) == Err(Overflow) <==> size > USIZE_MAX)
            && (FrameAt(input) == Err(IncompletePayload) <==> |input| < size <= USIZE_MAX)
            && (FrameAt(input) == Err(NotTerminated) <==> size <= USIZE_MAX && size <= |input| && input[size - 2..size] != [13, 10])
  {
    AfterHeader(input, k);
  }

  /** Everything but an incomplete frame is final: no further bytes change the answer. */
  lemma AnswersAreFinal(input: seq<byte>, more: seq<byte>)
    requires FrameAt(input).Ok? || FrameAt(input).error !in {IncompleteHeader, IncompletePayload}
    ensures FrameAt(input + more) == FrameAt(input)
  {
    var k := FirstCrlf(input).value;
    HeaderStays(input, more, k);
    AfterHeader(input, k);
    AfterHeader(input + more, k);
    if ParseHeader(input[..k]).Ok? {
      PayloadIsFinal(input, more, k + 2, ParseHeader(input[..k]).value.0, ParseHeader(input[..k]).value.1);
    }
  }

  lemma HeaderStays(input: seq<byte>, more: seq<byte>, k: nat)
    requires HeaderEnds(input, k)
    ensures HeaderEnds(input + more, k) && (input + more)[..k] == input[..k]
  {
    forall i: nat | i < k
      ensures !CrlfAt(input + more, i)
    {
      assert !CrlfAt(input, i);
    }
  }

  lemma AfterHeader(input: seq<byte>, k: nat)
    requires HeaderEnds(input, k)
    ensures var header := ParseHeader(input[..k]);
            FrameAt(input) == if header.Err? then Err(header.error) else PayloadAt(input, k + 2, header.value.0, header.value.1)
  {
    HeaderFound(input, k);
  }

  lemma PayloadIsFinal(input: seq<byte>, more: seq<byte>, start: nat, subject: seq<byte>, n: nat)
    requires PayloadAt(input, start, subject, n) != Err(IncompletePayload)
    ensures PayloadAt(input + more, start, subject, n) == PayloadAt(input, start, subject, n)
  {
    var end := start + n;
    if end + 2 <= |input| {
      assert (input + more)[end..end + 2] == input[end..end + 2] && (input + more)[start..end] == input[start..end];
    }
  }

  // ---- Re-encoding ----

  /** An accepted frame is the one that would be written, if and only if its length has no plus sign and no leading zero. */
  lemma AcceptedReencodes(input: seq<byte>, publish: Publish, n: nat, length: seq<byte>)
    requires Declares(input, publish, n, length)
    ensures input[..n] == Frame(publish.subject, publish.payload) <==> CanonicalLength(length)
  {
    CanonicalExactly(length);
    var d := Decimal(|publish.payload|);
    if input[..n] == Frame(publish.subject, publish.payload) {
      SameFrames(publish.subject, length, d, publish.payload);
    }
  }

  lemma SameFrames(subject: seq<byte>, a: seq<byte>, b: seq<byte>, payload: seq<byte>)
    requires FrameWith(subject, a, payload) == FrameWith(subject, b, payload)
    ensures a == b
  {
    var x, y := FrameWith(subject, a, payload), FrameWith(subject, b, payload);
    var k := 4 + |subject| + 1;
    assert |a| == |b|;
    assert a == x[k..k + |a|] && b == y[k..k + |b|];
  }
}
