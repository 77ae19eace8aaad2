/** The synthetic router's PUBLISH codec and packet identifiers. */
module Router {
  import opened Common
  import opened Primitives
  import opened Utf8

  datatype Protocol = V4 | V5

  const MAX_FRAME_SIZE: nat := 16 * 1024 * 1024

  /** `properties` is the raw block, length prefix included. */
  datatype Publish = Publish(topic: seq<byte>, packetId: Option<nat>, properties: seq<byte>, payload: seq<byte>)

  // ---- Parsing ----

  function ReadU16(input: seq<byte>, cursor: nat): Option<nat> {
    if cursor + 2 <= |input| then Some(FromU16(input[cursor], input[cursor + 1])) else None
  }

  /** A length-prefixed field and the position after it. */
  function ReadField(input: seq<byte>, cursor: nat): (r: Option<(seq<byte>, nat)>)
    ensures r.Some? ==> cursor + 2 <= r.value.1 <= |input|
  {
    var len := ReadU16(input, cursor);
    if len.None? || cursor + 2 + len.value > |input| then None
    else Some((input[cursor + 2..cursor + 2 + len.value], cursor + 2 + len.value))
  }

  function ReadUtf8(input: seq<byte>, cursor: nat): (r: Option<(seq<byte>, nat)>)
    ensures r.Some? ==> cursor + 2 <= r.value.1 <= |input|
  {
    var field := ReadField(input, cursor);
    if field.Some? && IsUtf8(field.value.0) then field else None
  }

  /** The end of the property block that starts at `cursor`. */
  function PropertiesEnd(body: seq<byte>, cursor: nat): (r: Option<nat>)
    requires cursor <= |body|
    ensures r.Some? ==> cursor <= r.value <= |body|
  {
    match Decode(body[cursor..])
    case Err(_) => None
    case Ok((consumed, len)) => if cursor + consumed + len <= |body| then Some(cursor + consumed + len) else None
  }

  function ParsePublish(protocol: Protocol, qos: nat, body: seq<byte>): Option<Publish> {
    var topic := ReadUtf8(body, 0);
    if topic.None? then None
    else
      ParseAfterTopic(protocol, qos, topic.value.0, body, topic.value.1)
  }

  function ParseAfterTopic(protocol: Protocol, qos: nat, topic: seq<byte>, body: seq<byte>, cursor: nat): Option<Publish>
    requires cursor <= |body|
  {
    if qos == 0 then ParseRest(protocol, topic, None, body, cursor)
    else
      var id := ReadU16(body, cursor);
      if id.None? || id.value == 0 then None else ParseRest(protocol, topic, id, body, cursor + 2)
  }

  function ParseRest(protocol: Protocol, topic: seq<byte>, id: Option<nat>, body: seq<byte>, cursor: nat): Option<Publish>
    requires cursor <= |body|
  {
    if protocol == V4 then Some(Publish(topic, id, [], body[cursor..]))
    else
      var end := PropertiesEnd(body, cursor);
      if end.None? then None else Some(Publish(topic, id, body[cursor..end.value], body[end.value..]))
  }

  // ---- Encoding ----

  /** The topic length is truncated to sixteen bits. */
  function TopicPrefix(topic: seq<byte>): seq<byte> {
    U16(|topic| % 65_536)
  }

  function IdBytes(id: Option<nat>): seq<byte>
    requires id.Some? ==> id.value < 65_536
  {
    if id.Some? then U16(id.value) else []
  }

  /** An absent block is written as an empty one. */
  function PropertyBytes(protocol: Protocol, properties: seq<byte>): seq<byte> {
    if protocol == V4 then [] else if properties == [] then [0] else properties
  }

  function EncodeBody(protocol: Protocol, id: Option<nat>, topic: seq<byte>, properties: seq<byte>, payload: seq<byte>): seq<byte>
    requires id.Some? ==> id.value < 65_536
  {
    TopicPrefix(topic) + topic + IdBytes(id) + PropertyBytes(protocol, properties) + payload
  }

  function FrameWithBody(first: byte, body: seq<byte>): seq<byte> {
    [first] + Encode(|body|) + body
  }

  // ---- The body round trip ----

  /** A block is its own length prefix followed by that many bytes. */
  predicate WellFormedProperties(properties: seq<byte>) {
    properties == [] || (Decode(properties).Ok? && var (k, len) := Decode(properties).value; |properties| == k + len)
  }

  predicate ValidId(qos: nat, id: Option<nat>) {
    if qos == 0 then id == None else id.Some? && 1 <= id.value < 65_536
  }

  lemma ReadsBackU16(before: seq<byte>, n: nat, after: seq<byte>)
    requires n < 65_536
    ensures ReadU16(before + U16(n) + after, |before|) == Some(n)
  {
    var s := before + U16(n) + after;
    assert s[|before|] == n / 256 && s[|before| + 1] == n % 256;
  }

  lemma ReadsBackTopic(topic: seq<byte>, s: seq<byte>)
    requires |topic| <= 65_535 && |s| >= 2 + |topic|
    requires s[..2] == TopicPrefix(topic) && s[2..2 + |topic|] == topic
    ensures ReadField(s, 0) == Some((topic, 2 + |topic|))
  {
    var n := |topic|;
    assert s[0] == s[..2][0] && s[1] == s[..2][1];
    assert s[0] == n / 256 && s[1] == n % 256;
    assert ReadU16(s, 0) == Some(n);
  }

  lemma ReadsBackProperties(before: seq<byte>, block: seq<byte>, payload: seq<byte>)
    requires block != [] && WellFormedProperties(block)
    ensures PropertiesEnd(before + block + payload, |before|) == Some(|before| + |block|)
  {
    var body := before + block + payload;
    var (k, len) := Decode(block).value;
    assert body[|before|..] == block + payload;
    DecodeAccepts(block, 0);
    assert (block + payload)[..k] == block[..k];
    DecodeFinds(block + payload, k, 0);
  }

  lemma EmptyBlockIsWellFormed()
    ensures WellFormedProperties([0])
  {
    var s: seq<byte> := [0];
    assert s[..1] == s;
    DecodeFinds(s, 1, 0);
    assert Value(s) == 0 by {
      assert Value(s) == s[0] % 128 + 128 * Value(s[1..]);
    }
  }

  lemma RestReadsBack(protocol: Protocol, topic: seq<byte>, id: Option<nat>, before: seq<byte>, properties: seq<byte>, payload: seq<byte>)
    requires WellFormedProperties(properties)
    ensures ParseRest(protocol, topic, id, before + PropertyBytes(protocol, properties) + payload, |before|)
         == Some(Publish(topic, id, PropertyBytes(protocol, properties), payload))
  {
    var block := PropertyBytes(protocol, properties);
    var body := before + block + payload;
    assert body[|before| + |block|..] == payload && body[|before|..|before| + |block|] == block;
    if protocol == V5 {
      EmptyBlockIsWellFormed();
      ReadsBackProperties(before, block, payload);
    }
  }

  lemma IdReadsBack(topic: seq<byte>, qos: nat, id: Option<nat>, rest: seq<byte>)
    requires ValidId(qos, id) && qos != 0
    ensures ReadU16(TopicPrefix(topic) + topic + IdBytes(id) + rest, 2 + |topic|) == id
  {
    ReadsBackU16(TopicPrefix(topic) + topic, id.value, rest);
  }

  lemma BodyParts(prefix: seq<byte>, topic: seq<byte>, id: seq<byte>, block: seq<byte>, payload: seq<byte>)
    requires |prefix| == 2
    ensures var body := prefix + topic + id + block + payload;
            && body[..2] == prefix && body[2..2 + |topic|] == topic
            && body == prefix + topic + id + (block + payload)
  {
  }

  lemma AfterTopicReadsBack(protocol: Protocol, qos: nat, id: Option<nat>, topic: seq<byte>, properties: seq<byte>, payload: seq<byte>)
    requires ValidId(qos, id) && WellFormedProperties(properties)
    ensures ParseAfterTopic(protocol, qos, topic, EncodeBody(protocol, id, topic, properties, payload), 2 + |topic|)
         == Some(Publish(topic, id, PropertyBytes(protocol, properties), payload))
  {
    var block := PropertyBytes(protocol, properties);
    BodyParts(TopicPrefix(topic), topic, IdBytes(id), block, payload);
    if qos != 0 {
      IdReadsBack(topic, qos, id, block + payload);
    }
    RestReadsBack(protocol, topic, id, TopicPrefix(topic) + topic + IdBytes(id), properties, payload);
  }

  lemma BodyReadsBack(protocol: Protocol, qos: nat, id: Option<nat>, topic: seq<byte>, properties: seq<byte>, payload: seq<byte>)
    requires ValidId(qos, id) && IsUtf8(topic) && WellFormedProperties(properties) && |topic| <= 65_535
    ensures ParsePublish(protocol, qos, EncodeBody(protocol, id, topic, properties, payload))
         == Some(Publish(topic, id, PropertyBytes(protocol, properties), payload))
  {
    BodyParts(TopicPrefix(topic), topic, IdBytes(id), PropertyBytes(protocol, properties), payload);
    ReadsBackTopic(topic, EncodeBody(protocol, id, topic, properties, payload));
    AfterTopicReadsBack(protocol, qos, id, topic, properties, payload);
  }

  /**
   * Parsing an encoded body returns the same topic, identifier and payload, and the property block
   * as written, exactly when the topic length fits its sixteen-bit field.
   */
  lemma BodyRoundTrip(protocol: Protocol, qos: nat, id: Option<nat>, topic: seq<byte>, properties: seq<byte>, payload: seq<byte>)
    requires ValidId(qos, id) && IsUtf8(topic) && WellFormedProperties(properties)
    ensures ParsePublish(protocol, qos, EncodeBody(protocol, id, topic, properties, payload))
         == Some(Publish(topic, id, if protocol == V4 then [] else if properties == [] then [0] else properties, payload))
       <==> |topic| <= 65_535
  {
    if |topic| <= 65_535 {
      BodyReadsBack(protocol, qos, id, topic, properties, payload);
    } else {
      TopicsAreShort(protocol, qos, EncodeBody(protocol, id, topic, properties, payload));
    }
  }

  lemma TopicsAreShort(protocol: Protocol, qos: nat, body: seq<byte>)
    ensures var p := ParsePublish(protocol, qos, body); p.Some? ==> |p.value.topic| <= 65_535
  {
  }

  /** A parsed property block: none in version 4, and in version 5 a length prefix and that many bytes. */
  predicate ValidBlock(protocol: Protocol, block: seq<byte>) {
    if protocol == V4 then block == [] else block != [] && WellFormedProperties(block)
  }

  lemma BlockIsWellFormed(body: seq<byte>, cursor: nat)
    requires cursor <= |body| && PropertiesEnd(body, cursor).Some?
    ensures var block := body[cursor..PropertiesEnd(body, cursor).value]; block != [] && WellFormedProperties(block)
  {
    var end := PropertiesEnd(body, cursor).value;
    var block, rest := body[cursor..end], body[cursor..];
    var (k, len) := Decode(rest).value;
    DecodeAccepts(rest, 0);
    assert block[..k] == rest[..k];
    DecodeFinds(block, k, 0);
  }

  lemma TopicSplits(body: seq<byte>)
    requires ReadUtf8(body, 0).Some?
    ensures var (topic, cursor) := ReadUtf8(body, 0).value;
            |topic| <= 65_535 && IsUtf8(topic) && cursor == 2 + |topic| <= |body| && body[..cursor] == TopicPrefix(topic) + topic
  {
    FieldSplits(body);
  }

  lemma FieldSplits(body: seq<byte>)
    requires ReadField(body, 0).Some?
    ensures var (field, cursor) := ReadField(body, 0).value;
            |field| <= 65_535 && cursor == 2 + |field| <= |body| && body[..cursor] == U16(|field|) + field
  {
    var n := FromU16(body[0], body[1]);
    assert body[..2 + n] == body[..2] + body[2..2 + n];
    assert body[..2] == [body[0], body[1]];
  }

  lemma RestSplits(protocol: Protocol, topic: seq<byte>, id: Option<nat>, body: seq<byte>, cursor: nat)
    requires cursor <= |body| && ParseRest(protocol, topic, id, body, cursor).Some?
    ensures var p := ParseRest(protocol, topic, id, body, cursor).value;
            ValidBlock(protocol, p.properties) && body[cursor..] == p.properties + p.payload && p.topic == topic && p.packetId == id
  {
    if protocol == V4 {
      assert body[cursor..] == [] + body[cursor..];
    } else {
      var end := PropertiesEnd(body, cursor).value;
      BlockIsWellFormed(body, cursor);
      assert body[cursor..] == body[cursor..end] + body[end..];
    }
  }

  lemma IdSplits(body: seq<byte>, cursor: nat)
    requires ReadU16(body, cursor).Some?
    ensures cursor + 2 <= |body| && body[cursor..cursor + 2] == U16(ReadU16(body, cursor).value)
  {
  }

  lemma AfterTopicSplits(protocol: Protocol, qos: nat, topic: seq<byte>, body: seq<byte>, cursor: nat)
    requires cursor <= |body| && ParseAfterTopic(protocol, qos, topic, body, cursor).Some?
    ensures var p := ParseAfterTopic(protocol, qos, topic, body, cursor).value;
            && p.topic == topic && ValidId(qos, p.packetId) && ValidBlock(protocol, p.properties)
            && body[cursor..] == IdBytes(p.packetId) + (p.properties + p.payload)
  {
    if qos == 0 {
      RestSplits(protocol, topic, None, body, cursor);
      assert body[cursor..] == [] + body[cursor..];
    } else {
      IdSplits(body, cursor);
      RestSplits(protocol, topic, ReadU16(body, cursor), body, cursor + 2);
      assert body[cursor..] == body[cursor..cursor + 2] + body[cursor + 2..];
    }
  }

  lemma ParsedParts(protocol: Protocol, qos: nat, body: seq<byte>)
    requires ParsePublish(protocol, qos, body).Some?
    ensures var p := ParsePublish(protocol, qos, body).value;
            && |p.topic| <= 65_535 && IsUtf8(p.topic) && ValidId(qos, p.packetId) && ValidBlock(protocol, p.properties)
            && body == TopicPrefix(p.topic) + p.topic + IdBytes(p.packetId) + p.properties + p.payload
  {
    TopicSplits(body);
    var (topic, cursor) := ReadUtf8(body, 0).value;
    AfterTopicSplits(protocol, qos, topic, body, cursor);
    var p := ParsePublish(protocol, qos, body).value;
    assert body == body[..cursor] + body[cursor..];
    JoinParts(TopicPrefix(topic) + topic, IdBytes(p.packetId), p.properties, p.payload);
  }

  lemma JoinParts(before: seq<byte>, id: seq<byte>, block: seq<byte>, payload: seq<byte>)
    ensures before + (id + (block + payload)) == before + id + block + payload
  {
    Reassociate(before, id, block + payload);
    Reassociate(before + id, block, payload);
  }

  /** A body is parsed as a publish exactly when it consists of that publish's parts. */
  lemma ParsedExactly(protocol: Protocol, qos: nat, body: seq<byte>, p: Publish)
    ensures ParsePublish(protocol, qos, body) == Some(p) <==>
              && |p.topic| <= 65_535 && IsUtf8(p.topic) && ValidId(qos, p.packetId) && ValidBlock(protocol, p.properties)
              && body == U16(|p.topic|) + p.topic + IdBytes(p.packetId) + p.properties + p.payload
  {
    if ParsePublish(protocol, qos, body) == Some(p) {
      ParsedParts(protocol, qos, body);
    } else if |p.topic| <= 65_535 && IsUtf8(p.topic) && ValidId(qos, p.packetId) && ValidBlock(protocol, p.properties) {
      PartsParse(protocol, qos, p);
    }
  }

  lemma PartsParse(protocol: Protocol, qos: nat, p: Publish)
    requires |p.topic| <= 65_535 && IsUtf8(p.topic) && ValidId(qos, p.packetId) && ValidBlock(protocol, p.properties)
    ensures ParsePublish(protocol, qos, U16(|p.topic|) + p.topic + IdBytes(p.packetId) + p.properties + p.payload) == Some(p)
  {
    BodyReadsBack(protocol, qos, p.packetId, p.topic, p.properties, p.payload);
    assert PropertyBytes(protocol, p.properties) == p.properties && TopicPrefix(p.topic) == U16(|p.topic|);
  }

  /** Relaying across protocol versions preserves topic and payload, whatever the properties. */
  lemma RelayPreserves(from: Protocol, to: Protocol, qos: nat, id: Option<nat>, outQos: nat, outId: Option<nat>,
                       topic: seq<byte>, properties: seq<byte>, payload: seq<byte>)
    requires ValidId(qos, id) && ValidId(outQos, outId) && IsUtf8(topic) && |topic| <= 65_535 && WellFormedProperties(properties)
    ensures var incoming := ParsePublish(from, qos, EncodeBody(from, id, topic, properties, payload));
            && incoming.Some?
            && var p := incoming.value;
               var relayed := ParsePublish(to, outQos, EncodeBody(to, outId, p.topic, p.properties, p.payload));
               && relayed.Some?
               && relayed.value.topic == topic && relayed.value.payload == payload && relayed.value.packetId == outId
               && (from == to ==> relayed.value.properties == p.properties)
               && (from == V5 && to == V5 && properties != [] ==> relayed.value.properties == properties)
  {
    BodyRoundTrip(from, qos, id, topic, properties, payload);
    EmptyBlockIsWellFormed();
    BodyRoundTrip(to, outQos, outId, topic, PropertyBytes(from, properties), payload);
  }

  // ---- Frames ----

  datatype Frame = Frame(first: byte, body: seq<byte>)

  datatype FrameError = Incomplete | TooLarge | Malformed

  /** What `read_frame` takes off the stream, and what it leaves. */
  function ReadFrame(s: seq<byte>): Result<(Frame, seq<byte>), FrameError> {
    if s == [] then Err(Incomplete)
    else match Decode(s[1..])
         case Err(InsufficientBytes(_)) => Err(Incomplete)
         case Err(_) => Err(Malformed)
         case Ok((k, len)) =>
           if len > MAX_FRAME_SIZE then Err(TooLarge)
           else if 1 + k + len > |s| then Err(Incomplete)
           else Ok((Frame(s[0], s[1 + k..1 + k + len]), s[1 + k + len..]))
  }

  /** A written frame is read back, with the rest of the stream untouched, exactly when it is within the router's limit. */
  lemma FrameRoundTrip(first: byte, body: seq<byte>, suffix: seq<byte>)
    ensures ReadFrame(FrameWithBody(first, body) + suffix) == Ok((Frame(first, body), suffix)) <==> |body| <= MAX_FRAME_SIZE
  {
    if |body| <= MAX_FRAME_SIZE {
      var s := FrameWithBody(first, body) + suffix;
      var k := |Encode(|body|)|;
      assert s[1..] == Encode(|body|) + (body + suffix);
      RoundTrip(|body|, body + suffix);
      LenLenIsSize(|body|);
      assert s[1 + k..1 + k + |body|] == body && s[1 + k + |body|..] == suffix;
    }
  }

  /** A frame is read exactly when the stream starts with its first byte, a length of its body and the body, within the limit. */
  lemma FrameReadExactly(s: seq<byte>, frame: Frame, rest: seq<byte>)
    ensures ReadFrame(s) == Ok((frame, rest)) <==>
              && |frame.body| <= MAX_FRAME_SIZE
              && exists k: nat :: FrameParts(s, frame, rest, k)
  {
    if ReadFrame(s) == Ok((frame, rest)) {
      var k := ReadFrameParts(s);
    } else if |frame.body| <= MAX_FRAME_SIZE && exists k: nat :: FrameParts(s, frame, rest, k) {
      var k: nat :| FrameParts(s, frame, rest, k);
      FramePartsRead(s, frame, rest, k);
    }
  }

  lemma ReadFrameParts(s: seq<byte>) returns (k: nat)
    requires ReadFrame(s).Ok?
    ensures |ReadFrame(s).value.0.body| <= MAX_FRAME_SIZE && FrameParts(s, ReadFrame(s).value.0, ReadFrame(s).value.1, k)
  {
    DecodeAccepts(s[1..], 0);
    k := Decode(s[1..]).value.0;
    var n := 1 + k + Decode(s[1..]).value.1;
    assert s[1..][..k] == s[1..1 + k];
    assert s[1 + k..] == s[1 + k..n] + s[n..];
  }

  lemma FramePartsRead(s: seq<byte>, frame: Frame, rest: seq<byte>, k: nat)
    requires |frame.body| <= MAX_FRAME_SIZE && FrameParts(s, frame, rest, k)
    ensures ReadFrame(s) == Ok((frame, rest))
  {
    assert s[1..][..k] == s[1..1 + k];
    DecodeFinds(s[1..], k, 0);
    var n := |frame.body|;
    assert s[1 + k..] == frame.body + rest;
    assert s[1 + k..1 + k + n] == frame.body && s[1 + k + n..] == rest;
  }

  predicate FrameParts(s: seq<byte>, frame: Frame, rest: seq<byte>, k: nat) {
    && 1 + k <= |s| && s[0] == frame.first && WellFormed(s[1..1 + k]) && Value(s[1..1 + k]) == |frame.body|
    && s[1 + k..] == frame.body + rest
  }

  // ---- Packet identifiers ----

  class IdSource {
    var next: nat

    constructor ()
      ensures next == 1
    {
      next := 1;
    }

    /** Fetch-and-increment on sixteen bits, skipping zero. */
    method PacketId() returns (id: nat)
      requires next < 65_536
      modifies this
      ensures next < 65_536
      ensures id == IdAt(old(next), 0) && (forall k: nat :: IdAt(next, k) == IdAt(old(next), k + 1))
    {
      id := next;
      next := (next + 1) % 65_536;
      while id == 0
        invariant next < 65_536
        invariant id == 0 ==> old(next) == 0 && next == 1
        invariant id != 0 ==> id == IdAt(old(next), 0) && next == Advance(old(next))
        decreases id == 0
      {
        id := next;
        next := (next + 1) % 65_536;
      }
      ghost var start := old(next);
      assert forall k: nat :: IdAt(next, k) == IdAt(start, k + 1);
    }
  }

  /** The counter after handing out one identifier. */
  function Advance(next: nat): nat
    requires next < 65_536
  {
    if next == 0 then 2 else (next + 1) % 65_536
  }

  /** The identifier handed out after `k` others. */
  function IdAt(next: nat, k: nat): nat
    requires next < 65_536
    decreases k
  {
    if k == 0 then (if next == 0 then 1 else next) else IdAt(Advance(next), k - 1)
  }

  lemma {:induction false} IdCycle(next: nat, k: nat)
    requires next < 65_536
    ensures IdAt(next, k) == ((if next == 0 then 0 else next - 1) + k) % 65_535 + 1
    decreases k
  {
    if k > 0 {
      var base := if next == 0 then 0 else next - 1;
      var base' := if Advance(next) == 0 then 0 else Advance(next) - 1;
      IdCycle(Advance(next), k - 1);
      assert base' == base + 1 || (base' == 0 && base + 1 == 65_535);
      assert (base' + (k - 1)) % 65_535 == (base + k) % 65_535;
    }
  }

  lemma Residues(a: nat, d: nat)
    ensures (a + 65_535) % 65_535 == a % 65_535
    ensures 0 < d < 65_535 ==> (a + d) % 65_535 != a % 65_535
  {
    var q, q' := a / 65_535, (a + d) / 65_535;
    assert a == 65_535 * q + a % 65_535 && a + d == 65_535 * q' + (a + d) % 65_535;
  }

  /** Any 65,535 consecutive identifiers are non-zero and distinct; after that they repeat. */
  lemma IdsAreDistinct(next: nat, i: nat, j: nat)
    requires next < 65_536 && i < j
    ensures 1 <= IdAt(next, i) < 65_536
    ensures j - i < 65_535 ==> IdAt(next, i) != IdAt(next, j)
    ensures IdAt(next, i + 65_535) == IdAt(next, i)
  {
    var base := if next == 0 then 0 else next - 1;
    IdCycle(next, i);
    IdCycle(next, j);
    IdCycle(next, i + 65_535);
    Residues(base + i, j - i);
  }
}
