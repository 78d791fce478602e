/** Primitives of the Protocol Buffers encoding: base-128 varints, tags and
    length-delimited payloads, as byte sequences.  A "token" is one tag together with
    its payload; group brackets are tokens of their own, so that a nested unknown group
    is a balanced stretch of a flat token sequence. */
module WireFormat {

  type Byte = x: int | 0 <= x < 256

  const TWO_TO_31 := 0x8000_0000
  const TWO_TO_32 := 0x1_0000_0000
  const TWO_TO_64 := 0x1_0000_0000_0000_0000

  type Int32 = x: int | -TWO_TO_31 <= x < TWO_TO_31

  // The runtime reads at most 10 bytes of a value, 5 of a tag or a length, and refuses
  // lengths that could overflow an int once its 16 slop bytes are added.
  const VALUE_BYTES: nat := 10
  const TAG_BYTES: nat := 5
  const MAX_LENGTH: nat := TWO_TO_31 - 1 - 16
  const MAX_FIELD_NUMBER: nat := 0x1FFF_FFFF

  datatype Read<+T> = Malformed | Got(value: T, rest: seq<Byte>)

  // ---------- Varints ----------

  function EncodeVarint(v: nat): seq<Byte> {
    if v < 128 then [v] else [v % 128 + 128] + EncodeVarint(v / 128)
  }

  function ReadVarint(bytes: seq<Byte>, limit: nat): Read<nat>
    decreases limit
  {
    if limit == 0 || bytes == [] then Malformed
    else if bytes[0] < 128 then Got(bytes[0], bytes[1..])
    else
      match ReadVarint(bytes[1..], limit - 1)
      case Malformed => Malformed
      case Got(v, rest) => Got(bytes[0] - 128 + 128 * v, rest)
  }

  function VarintSize(v: nat): nat {
    if v < 128 then 1 else 1 + VarintSize(v / 128)
  }

  lemma {:induction false} EncodedVarintSize(v: nat)
    ensures |EncodeVarint(v)| == VarintSize(v)
  {
    if v >= 128 { EncodedVarintSize(v / 128); }
  }

  /** Reading undoes encoding exactly when the encoding fits the reader's byte limit;
      otherwise the reader reports malformed input. */
  lemma {:induction false} VarintRoundTrip(v: nat, limit: nat, rest: seq<Byte>)
    ensures ReadVarint(EncodeVarint(v) + rest, limit)
         == if VarintSize(v) <= limit then Got(v, rest) else Malformed
  {
    var e := EncodeVarint(v) + rest;
    if limit > 0 {
      if v < 128 {
        assert e[1..] == rest;
      } else {
        assert e[1..] == EncodeVarint(v / 128) + rest;
        VarintRoundTrip(v / 128, limit - 1, rest);
      }
    }
  }

  /** What a successful read consumes is a non-empty prefix, and later bytes do not matter. */
  lemma {:induction false} VarintPrefix(bytes: seq<Byte>, limit: nat, more: seq<Byte>)
    requires ReadVarint(bytes, limit).Got?
    ensures |ReadVarint(bytes, limit).rest| < |bytes|
    ensures ReadVarint(bytes, limit).rest == bytes[|bytes| - |ReadVarint(bytes, limit).rest|..]
    ensures ReadVarint(bytes + more, limit)
         == Got(ReadVarint(bytes, limit).value, ReadVarint(bytes, limit).rest + more)
  {
    assert (bytes + more)[1..] == bytes[1..] + more;
    if bytes[0] >= 128 { VarintPrefix(bytes[1..], limit - 1, more); }
  }

  lemma FieldKeyFits(v: nat)
    requires v < TWO_TO_32
    ensures VarintSize(v) <= TAG_BYTES
  {
    assert VarintSize(v / 128 / 128 / 128 / 128) == 1;
    assert VarintSize(v / 128 / 128) <= 3;
  }

  lemma ValueFits(v: nat)
    requires v < TWO_TO_64
    ensures VarintSize(v) <= VALUE_BYTES
  {
    var w := v / 128 / 128 / 128 / 128 / 128;
    assert w < 0x2000_0000;
    FieldKeyFits(w);
    assert VarintSize(v / 128 / 128 / 128) <= 7;
    assert VarintSize(v / 128) <= 9;
  }

  // ---------- 32-bit values on the wire ----------

  /** A 32-bit value is written sign-extended to 64 bits. */
  function SignExtend(v: Int32): nat {
    if v < 0 then v + TWO_TO_64 else v
  }

  /** Assigning what was read to a 32-bit field keeps the low 32 bits. */
  function Narrow(u: nat): Int32 {
    var low := u % TWO_TO_32;
    if low < TWO_TO_31 then low else low - TWO_TO_32
  }

  lemma NarrowUndoesSignExtend(v: Int32)
    ensures Narrow(SignExtend(v)) == v && SignExtend(v) < TWO_TO_64
  {
    if v < 0 {
      assert SignExtend(v) == v + TWO_TO_32 + 0xFFFF_FFFF * TWO_TO_32;
      assert SignExtend(v) % TWO_TO_32 == v + TWO_TO_32;
    }
  }

  lemma NegativesTakeTenBytes(v: Int32)
    requires v < 0
    ensures VarintSize(SignExtend(v)) == 10
  {
    var u := SignExtend(v);
    var u3 := u / 128 / 128 / 128;
    var u6 := u3 / 128 / 128 / 128;
    var u8 := u6 / 128 / 128;
    assert u8 == 255;
    assert VarintSize(u8) == 2;
    assert VarintSize(u6 / 128) == 3 && VarintSize(u6) == 4;
    assert VarintSize(u3 / 128 / 128) == 5 && VarintSize(u3 / 128) == 6 && VarintSize(u3) == 7;
    assert VarintSize(u / 128 / 128) == 8 && VarintSize(u / 128) == 9;
  }

  // ---------- Tokens ----------

  datatype Token =
    | Varint(number: nat, value: nat)
    | Fixed64(number: nat, data: seq<Byte>)
    | Delimited(number: nat, data: seq<Byte>)
    | StartGroup(number: nat)
    | EndGroup(number: nat)
    | Fixed32(number: nat, data: seq<Byte>)
  {
    predicate Valid() {
      && 1 <= number <= MAX_FIELD_NUMBER
      && (Varint? ==> value < TWO_TO_64)
      && (Fixed64? ==> |data| == 8)
      && (Fixed32? ==> |data| == 4)
      && (Delimited? ==> |data| <= MAX_LENGTH)
    }

    function WireType(): nat {
      match this
      case Varint(_, _) => 0
      case Fixed64(_, _) => 1
      case Delimited(_, _) => 2
      case StartGroup(_) => 3
      case EndGroup(_) => 4
      case Fixed32(_, _) => 5
    }

    function Tag(): nat { number * 8 + WireType() }
  }

  function EncodePayload(t: Token): seq<Byte> {
    match t
    case Varint(_, v) => EncodeVarint(v)
    // the length is written as an unsigned 32-bit value
    case Delimited(_, data) => EncodeVarint(|data| % TWO_TO_32) + data
    case Fixed64(_, data) => data
    case Fixed32(_, data) => data
    case StartGroup(_) => []
    case EndGroup(_) => []
  }

  function EncodeToken(t: Token): seq<Byte> {
    EncodeVarint(t.Tag()) + EncodePayload(t)
  }

  function PayloadSize(t: Token): nat {
    match t
    case Varint(_, v) => VarintSize(v)
    case Delimited(_, data) => VarintSize(|data| % TWO_TO_32) + |data|
    case Fixed64(_, data) => |data|
    case Fixed32(_, data) => |data|
    case StartGroup(_) => 0
    case EndGroup(_) => 0
  }

  function TokenSize(t: Token): nat { VarintSize(t.Tag()) + PayloadSize(t) }

  function ReadChunk(bytes: seq<Byte>, n: nat): Read<seq<Byte>> {
    if n <= |bytes| then Got(bytes[..n], bytes[n..]) else Malformed
  }

  function ReadDelimited(bytes: seq<Byte>): Read<seq<Byte>> {
    match ReadVarint(bytes, TAG_BYTES)
    case Malformed => Malformed
    case Got(n, rest) => if n > MAX_LENGTH then Malformed else ReadChunk(rest, n)
  }

  function ReadPayload(number: nat, wireType: nat, bytes: seq<Byte>): Read<Token> {
    if wireType == 0 then
      match ReadVarint(bytes, VALUE_BYTES)
      case Malformed => Malformed
      case Got(v, rest) => Got(Varint(number, v % TWO_TO_64), rest)
    else if wireType == 1 then
      match ReadChunk(bytes, 8)
      case Malformed => Malformed
      case Got(d, rest) => Got(Fixed64(number, d), rest)
    else if wireType == 2 then
      match ReadDelimited(bytes)
      case Malformed => Malformed
      case Got(d, rest) => Got(Delimited(number, d), rest)
    else if wireType == 3 then Got(StartGroup(number), bytes)
    else if wireType == 4 then Got(EndGroup(number), bytes)
    else if wireType == 5 then
      match ReadChunk(bytes, 4)
      case Malformed => Malformed
      case Got(d, rest) => Got(Fixed32(number, d), rest)
    else Malformed
  }

  /** One tag and its payload.  Field number 0 is never accepted. */
  function ReadToken(bytes: seq<Byte>): Read<Token> {
    match ReadVarint(bytes, TAG_BYTES)
    case Malformed => Malformed
    case Got(raw, rest) =>
      var tag := raw % TWO_TO_32;
      if tag / 8 == 0 then Malformed else ReadPayload(tag / 8, tag % 8, rest)
  }

  lemma EncodedTokenSize(t: Token)
    ensures |EncodeToken(t)| == TokenSize(t)
  {
    EncodedVarintSize(t.Tag());
    match t
    case Varint(_, v) => EncodedVarintSize(v);
    case Delimited(_, data) => EncodedVarintSize(|data| % TWO_TO_32);
    case _ =>
  }

  lemma DelimitedRoundTrip(data: seq<Byte>, rest: seq<Byte>)
    requires |data| <= MAX_LENGTH
    ensures ReadDelimited(EncodeVarint(|data|) + data + rest) == Got(data, rest)
  {
    var n := |data|;
    assert EncodeVarint(n) + data + rest == EncodeVarint(n) + (data + rest);
    FieldKeyFits(n);
    VarintRoundTrip(n, TAG_BYTES, data + rest);
    ChunkRoundTrip(data, rest);
  }

  lemma ChunkRoundTrip(data: seq<Byte>, rest: seq<Byte>)
    ensures ReadChunk(data + rest, |data|) == Got(data, rest)
  {
    assert (data + rest)[..|data|] == data;
    assert (data + rest)[|data|..] == rest;
  }

  lemma VarintPayload(number: nat, v: nat, rest: seq<Byte>)
    requires v < TWO_TO_64
    ensures ReadPayload(number, 0, EncodeVarint(v) + rest) == Got(Varint(number, v), rest)
  {
    ValueFits(v);
    VarintRoundTrip(v, VALUE_BYTES, rest);
    assert v % TWO_TO_64 == v;
  }

  lemma DelimitedPayload(number: nat, data: seq<Byte>, rest: seq<Byte>)
    requires |data| <= MAX_LENGTH
    ensures ReadPayload(number, 2, EncodePayload(Delimited(number, data)) + rest)
         == Got(Delimited(number, data), rest)
  {
    DelimitedRoundTrip(data, rest);
    assert |data| % TWO_TO_32 == |data|;
  }

  lemma PayloadRoundTrip(t: Token, rest: seq<Byte>)
    requires t.Valid()
    ensures ReadPayload(t.number, t.WireType(), EncodePayload(t) + rest) == Got(t, rest)
  {
    match t
    case Varint(n, v) => VarintPayload(n, v, rest);
    case Delimited(n, data) => DelimitedPayload(n, data, rest);
    case Fixed64(_, data) => ChunkRoundTrip(data, rest);
    case Fixed32(_, data) => ChunkRoundTrip(data, rest);
    case StartGroup(_) => assert EncodePayload(t) + rest == rest;
    case EndGroup(_) => assert EncodePayload(t) + rest == rest;
  }

  lemma TokenRoundTrip(t: Token, rest: seq<Byte>)
    requires t.Valid()
    ensures ReadToken(EncodeToken(t) + rest) == Got(t, rest)
  {
    var tag, tail := t.Tag(), EncodePayload(t) + rest;
    assert EncodeToken(t) + rest == EncodeVarint(tag) + tail;
    FieldKeyFits(tag);
    VarintRoundTrip(tag, TAG_BYTES, tail);
    assert tag % TWO_TO_32 == tag && tag / 8 == t.number && tag % 8 == t.WireType();
    PayloadRoundTrip(t, rest);
  }

  lemma DelimitedPrefix(bytes: seq<Byte>, more: seq<Byte>)
    requires ReadDelimited(bytes).Got?
    ensures |ReadDelimited(bytes).rest| < |bytes|
    ensures ReadDelimited(bytes).rest == bytes[|bytes| - |ReadDelimited(bytes).rest|..]
    ensures ReadDelimited(bytes + more)
         == Got(ReadDelimited(bytes).value, ReadDelimited(bytes).rest + more)
  {
    VarintPrefix(bytes, TAG_BYTES, more);
    var Got(n, rest) := ReadVarint(bytes, TAG_BYTES);
    assert (rest + more)[..n] == rest[..n];
    assert (rest + more)[n..] == rest[n..] + more;
  }

  lemma PayloadPrefix(number: nat, wireType: nat, bytes: seq<Byte>, more: seq<Byte>)
    requires ReadPayload(number, wireType, bytes).Got?
    ensures var r := ReadPayload(number, wireType, bytes);
      && |r.rest| <= |bytes|
      && r.rest == bytes[|bytes| - |r.rest|..]
      && ReadPayload(number, wireType, bytes + more) == Got(r.value, r.rest + more)
      && (1 <= number <= MAX_FIELD_NUMBER ==> r.value.Valid())
      && r.value.number == number && r.value.WireType() == wireType
  {
    if wireType == 0 {
      VarintPrefix(bytes, VALUE_BYTES, more);
    } else if wireType == 1 {
      assert (bytes + more)[..8] == bytes[..8] && (bytes + more)[8..] == bytes[8..] + more;
    } else if wireType == 2 {
      DelimitedPrefix(bytes, more);
    } else if wireType == 5 {
      assert (bytes + more)[..4] == bytes[..4] && (bytes + more)[4..] == bytes[4..] + more;
    }
  }

  /** Accepted tokens are valid, consume a non-empty prefix, and ignore what follows. */
  lemma TokenPrefix(bytes: seq<Byte>, more: seq<Byte>)
    requires ReadToken(bytes).Got?
    ensures ReadToken(bytes).value.Valid()
    ensures |ReadToken(bytes).rest| < |bytes|
    ensures ReadToken(bytes).rest == bytes[|bytes| - |ReadToken(bytes).rest|..]
    ensures ReadToken(bytes + more)
         == Got(ReadToken(bytes).value, ReadToken(bytes).rest + more)
  {
    VarintPrefix(bytes, TAG_BYTES, more);
    var Got(raw, rest) := ReadVarint(bytes, TAG_BYTES);
    var tag := raw % TWO_TO_32;
    PayloadPrefix(tag / 8, tag % 8, rest, more);
  }
}
