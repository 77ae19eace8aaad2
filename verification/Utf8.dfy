/** Well-formed UTF-8 (section 4 of RFC 3629), as `core::str::from_utf8` accepts it. */
module Utf8 {
  import opened Primitives

  predicate Continuation(b: byte) {
    0x80 <= b < 0xC0
  }

  /** The length of the scalar value at position `i`, or zero if there is none. */
  function LeadingAt(s: seq<byte>, i: nat): (n: nat)
    requires i <= |s|
    ensures i + n <= |s|
  {
    var left := |s| - i;
    if left == 0 then 0
    else if s[i] < 0x80 then 1
    else if 0xC2 <= s[i] < 0xE0 then
      if left >= 2 && Continuation(s[i + 1]) then 2 else 0
    else if 0xE0 <= s[i] < 0xF0 then
      if left >= 3 && Continuation(s[i + 1]) && Continuation(s[i + 2])
         && (s[i] == 0xE0 ==> s[i + 1] >= 0xA0) && (s[i] == 0xED ==> s[i + 1] < 0xA0) then 3 else 0
    else if 0xF0 <= s[i] < 0xF5 then
      if left >= 4 && Continuation(s[i + 1]) && Continuation(s[i + 2]) && Continuation(s[i + 3])
         && (s[i] == 0xF0 ==> s[i + 1] >= 0x90) && (s[i] == 0xF4 ==> s[i + 1] < 0x90) then 4 else 0
    else 0
  }

  predicate Utf8From(s: seq<byte>, i: nat)
    requires i <= |s|
    decreases |s| - i
  {
    i == |s| || (LeadingAt(s, i) > 0 && Utf8From(s, i + LeadingAt(s, i)))
  }

  predicate IsUtf8(s: seq<byte>) {
    Utf8From(s, 0)
  }

  lemma {:induction false} Utf8Suffix(a: seq<byte>, b: seq<byte>, i: nat)
    requires i <= |b| && Utf8From(b, i)
    ensures Utf8From(a + b, |a| + i)
    decreases |b| - i
  {
    if i < |b| {
      assert LeadingAt(a + b, |a| + i) == LeadingAt(b, i);
      Utf8Suffix(a, b, i + LeadingAt(b, i));
    }
  }

  lemma {:induction false} Utf8Prefix(a: seq<byte>, b: seq<byte>, i: nat)
    requires i <= |a| && Utf8From(a, i) && IsUtf8(b)
    ensures Utf8From(a + b, i)
    decreases |a| - i
  {
    if i == |a| {
      Utf8Suffix(a, b, 0);
    } else {
      assert LeadingAt(a + b, i) == LeadingAt(a, i);
      Utf8Prefix(a, b, i + LeadingAt(a, i));
    }
  }

  lemma ConcatUtf8(a: seq<byte>, b: seq<byte>)
    requires IsUtf8(a) && IsUtf8(b)
    ensures IsUtf8(a + b)
  {
    Utf8Prefix(a, b, 0);
  }

  lemma {:induction false} AsciiFrom(s: seq<byte>, i: nat)
    requires i <= |s| && forall j :: i <= j < |s| ==> s[j] < 0x80
    ensures Utf8From(s, i)
    decreases |s| - i
  {
    if i < |s| {
      AsciiFrom(s, i + 1);
    }
  }

  lemma AsciiUtf8(s: seq<byte>)
    requires forall i :: 0 <= i < |s| ==> s[i] < 0x80
    ensures IsUtf8(s)
  {
    AsciiFrom(s, 0);
  }

  // ---- What is accepted: concatenated encodings of scalar values ----

  /** A code point that is not a surrogate. */
  predicate Scalar(c: nat) {
    c < 0xD800 || 0xE000 <= c < 0x11_0000
  }

  /** The one encoding of a scalar value, in the fewest bytes. */
  function EncodeScalar(c: nat): (s: seq<byte>)
    requires Scalar(c)
    ensures 1 <= |s| <= 4
  {
    if c < 0x80 then [c]
    else if c < 0x800 then [0xC0 + c / 64, 0x80 + c % 64]
    else if c < 0x1_0000 then [0xE0 + c / 4096, 0x80 + c / 64 % 64, 0x80 + c % 64]
    else [0xF0 + c / 262_144, 0x80 + c / 4096 % 64, 0x80 + c / 64 % 64, 0x80 + c % 64]
  }

  /** The value that the `n` bytes at `i` stand for. */
  function DecodeAt(s: seq<byte>, i: nat): nat
    requires i <= |s| && LeadingAt(s, i) > 0
  {
    match LeadingAt(s, i)
    case 1 => s[i]
    case 2 => (s[i] as int - 0xC0) * 64 + (s[i + 1] as int - 0x80)
    case 3 => (s[i] as int - 0xE0) * 4096 + (s[i + 1] as int - 0x80) * 64 + (s[i + 2] as int - 0x80)
    case _ => (s[i] as int - 0xF0) * 262_144 + (s[i + 1] as int - 0x80) * 4096 + (s[i + 2] as int - 0x80) * 64 + (s[i + 3] as int - 0x80)
  }

  lemma Two(a: int, b: int)
    requires 2 <= a < 32 && 0 <= b < 64
    ensures var c := a * 64 + b; 0x80 <= c < 0x800 && c / 64 == a && c % 64 == b
  {
  }

  lemma Three(a: int, b: int, d: int)
    requires 0 <= a < 16 && 0 <= b < 64 && 0 <= d < 64
    ensures var c := a * 4096 + b * 64 + d; 0 <= c < 0x1_0000 && c / 4096 == a && c / 64 % 64 == b && c % 64 == d
  {
    var c := a * 4096 + b * 64 + d;
    assert c == (a * 64 + b) * 64 + d;
    assert c / 64 == a * 64 + b;
  }

  lemma Four(a: int, b: int, d: int, e: int)
    requires 0 <= a < 5 && 0 <= b < 64 && 0 <= d < 64 && 0 <= e < 64
    ensures var c := a * 262_144 + b * 4096 + d * 64 + e;
            c / 262_144 == a && c / 4096 % 64 == b && c / 64 % 64 == d && c % 64 == e
  {
    var c := a * 262_144 + b * 4096 + d * 64 + e;
    assert c == ((a * 64 + b) * 64 + d) * 64 + e;
    assert c / 64 == (a * 64 + b) * 64 + d;
    assert c / 4096 == a * 64 + b;
  }

  lemma LeadingIsScalar(s: seq<byte>, i: nat)
    requires i <= |s| && LeadingAt(s, i) > 0
    ensures Scalar(DecodeAt(s, i)) && s[i..i + LeadingAt(s, i)] == EncodeScalar(DecodeAt(s, i))
  {
    match LeadingAt(s, i)
    case 1 =>
    case 2 => LeadingTwo(s, i);
    case 3 => LeadingThree(s, i);
    case _ => LeadingFour(s, i);
  }

  lemma LeadingTwo(s: seq<byte>, i: nat)
    requires i <= |s| && LeadingAt(s, i) == 2
    ensures Scalar(DecodeAt(s, i)) && s[i..i + 2] == EncodeScalar(DecodeAt(s, i))
  {
    Two(s[i] as int - 0xC0, s[i + 1] as int - 0x80);
  }

  lemma LeadingThree(s: seq<byte>, i: nat)
    requires i <= |s| && LeadingAt(s, i) == 3
    ensures Scalar(DecodeAt(s, i)) && s[i..i + 3] == EncodeScalar(DecodeAt(s, i))
  {
    Three(s[i] as int - 0xE0, s[i + 1] as int - 0x80, s[i + 2] as int - 0x80);
  }

  lemma LeadingFour(s: seq<byte>, i: nat)
    requires i <= |s| && LeadingAt(s, i) == 4
    ensures Scalar(DecodeAt(s, i)) && s[i..i + 4] == EncodeScalar(DecodeAt(s, i))
  {
    Four(s[i] as int - 0xF0, s[i + 1] as int - 0x80, s[i + 2] as int - 0x80, s[i + 3] as int - 0x80);
  }

  lemma ScalarIsLeading(s: seq<byte>, i: nat, c: nat)
    requires Scalar(c) && i + |EncodeScalar(c)| <= |s| && s[i..i + |EncodeScalar(c)|] == EncodeScalar(c)
    ensures LeadingAt(s, i) == |EncodeScalar(c)|
  {
    var e := EncodeScalar(c);
    assert forall k :: 0 <= k < |e| ==> s[i + k] == e[k];
  }

  function EncodeAll(cs: seq<nat>): seq<byte>
    requires forall k :: 0 <= k < |cs| ==> Scalar(cs[k])
  {
    if cs == [] then [] else EncodeScalar(cs[0]) + EncodeAll(cs[1..])
  }

  predicate AllScalars(cs: seq<nat>) {
    forall k :: 0 <= k < |cs| ==> Scalar(cs[k])
  }

  lemma {:induction false} DecodesFrom(s: seq<byte>, i: nat) returns (cs: seq<nat>)
    requires i <= |s| && Utf8From(s, i)
    ensures AllScalars(cs) && EncodeAll(cs) == s[i..]
    decreases |s| - i
  {
    if i == |s| {
      return [];
    }
    var n := LeadingAt(s, i);
    var rest := DecodesFrom(s, i + n);
    LeadingIsScalar(s, i);
    cs := [DecodeAt(s, i)] + rest;
    assert cs[1..] == rest && s[i..] == s[i..i + n] + s[i + n..];
  }

  lemma {:induction false} EncodesFrom(s: seq<byte>, i: nat, cs: seq<nat>)
    requires i <= |s| && AllScalars(cs) && EncodeAll(cs) == s[i..]
    ensures Utf8From(s, i)
    decreases |s| - i
  {
    if i < |s| {
      var e := EncodeScalar(cs[0]);
      assert s[i..] == e + EncodeAll(cs[1..]);
      assert s[i..i + |e|] == s[i..][..|e|] == e;
      ScalarIsLeading(s, i, cs[0]);
      assert s[i + |e|..] == s[i..][|e|..] == EncodeAll(cs[1..]);
      EncodesFrom(s, i + |e|, cs[1..]);
    }
  }

  /** Bytes are accepted exactly when they are the encodings of some scalar values, one after the other. */
  lemma Utf8Exactly(s: seq<byte>)
    ensures IsUtf8(s) <==> exists cs: seq<nat> :: AllScalars(cs) && EncodeAll(cs) == s
  {
    assert s[0..] == s;
    if IsUtf8(s) {
      var cs := DecodesFrom(s, 0);
    } else if exists cs: seq<nat> :: AllScalars(cs) && EncodeAll(cs) == s {
      var cs: seq<nat> :| AllScalars(cs) && EncodeAll(cs) == s;
      EncodesFrom(s, 0, cs);
    }
  }
}
