/** The bytes themselves: varints digit by digit, the tags of both field numberings as the generated
    code writes and compares them, and what the parser does with each. */
module WireLayout {
  import opened Wrappers
  import opened WireFormat
  import opened Messages

  // ---------- Varints ----------

  /** Seven bits a byte, the least significant first. */
  function Digits(bytes: seq<Byte>): nat {
    if bytes == [] then 0 else bytes[0] % 128 + 128 * Digits(bytes[1..])
  }

  /** All bytes but the last have the continuation bit. */
  predicate Continued(bytes: seq<Byte>) {
    && bytes != [] && bytes[|bytes| - 1] < 128
    && forall i :: 0 <= i < |bytes| - 1 ==> bytes[i] >= 128
  }

  /** The encoding of a number is its digits, without a leading zero. */
  lemma {:induction false} VarintDigits(v: nat)
    ensures Continued(EncodeVarint(v)) && Digits(EncodeVarint(v)) == v
    ensures v >= 128 ==> EncodeVarint(v)[|EncodeVarint(v)| - 1] != 0
  {
    if v >= 128 {
      VarintDigits(v / 128);
      assert EncodeVarint(v)[1..] == EncodeVarint(v / 128);
    }
  }

  /** Any digits are read, leading zeros included, if there are not too many of them. */
  lemma {:induction false} DigitsAreRead(bytes: seq<Byte>, rest: seq<Byte>, limit: nat)
    requires Continued(bytes)
    ensures ReadVarint(bytes + rest, limit) == if |bytes| <= limit then Got(Digits(bytes), rest) else Malformed
  {
    var e := bytes + rest;
    if limit > 0 {
      assert e[1..] == bytes[1..] + rest;
      if |bytes| > 1 {
        DigitsAreRead(bytes[1..], rest, limit - 1);
      } else {
        assert bytes[1..] == [] && e[1..] == rest;
      }
    }
  }

  /** Input that ends within a varint is malformed. */
  lemma {:induction false} CutOffVarint(bytes: seq<Byte>, limit: nat)
    requires forall i :: 0 <= i < |bytes| ==> bytes[i] >= 128
    ensures ReadVarint(bytes, limit) == Malformed
  {
    if bytes != [] && limit > 0 { CutOffVarint(bytes[1..], limit - 1); }
  }

  /** Ten bytes of a value, five of a tag or length, 2^31 - 17 bytes of a buffer, a hundred groups. */
  lemma RuntimeLimits()
    ensures VALUE_BYTES == 10 && TAG_BYTES == 5 && MAX_LENGTH == 2_147_483_631 && MAX_DEPTH == 100
  {
  }

  /** Narrowing and sign extension change a number by a multiple of 2^32 and of 2^64; the types fix
      the rest. */
  lemma WidthsAgree(u: nat, v: Int32)
    ensures (Narrow(u) - u) % 0x1_0000_0000 == 0
    ensures (SignExtend(v) - v) % 0x1_0000_0000_0000_0000 == 0 && SignExtend(v) < 0x1_0000_0000_0000_0000
  {
    if v >= 0 { assert SignExtend(v) - v == 0; } else { assert SignExtend(v) - v == 0x1_0000_0000_0000_0000; }
    var low := u % TWO_TO_32;
    assert u == u / TWO_TO_32 * TWO_TO_32 + low;
    Multiple(Narrow(u) - u, if low < TWO_TO_31 then -(u / TWO_TO_32) else -(u / TWO_TO_32) - 1);
  }

  lemma Multiple(x: int, k: int)
    requires x == k * 0x1_0000_0000
    ensures x % 0x1_0000_0000 == 0
  {
  }

  // ---------- Fields ----------

  /** A field is its number times eight plus the wire type, then the payload. */
  lemma TokenLayout(t: Token)
    requires t.Valid()
    ensures EncodeToken(t) == match t
      case Varint(n, v) => EncodeVarint(8 * n) + EncodeVarint(v)
      case Fixed64(n, data) => EncodeVarint(8 * n + 1) + data
      case Delimited(n, data) => EncodeVarint(8 * n + 2) + (EncodeVarint(|data|) + data)
      case StartGroup(n) => EncodeVarint(8 * n + 3)
      case EndGroup(n) => EncodeVarint(8 * n + 4)
      case Fixed32(n, data) => EncodeVarint(8 * n + 5) + data
  {
  }

  function Int32Field(tag: Byte, v: Int32): seq<Byte> {
    if v != 0 then [tag] + EncodeVarint(SignExtend(v)) else []
  }

  function BytesField(tag: Byte, data: seq<Byte>): seq<Byte> {
    if data != [] then [tag] + (EncodeVarint(|data|) + data) else []
  }

  lemma SlotLayout(schema: Schema, m: Message, slot: Slot)
    requires |m.buffer| <= MAX_LENGTH
    ensures EncodeTokens(SlotTokens(schema, m, slot)) == match slot
      case Version => Int32Field(8 * schema.Number(slot), m.version)
      case Length => Int32Field(8 * schema.Number(slot), m.length)
      case Buffer => BytesField(8 * schema.Number(slot) + 2, m.buffer)
  {
    var ts := SlotTokens(schema, m, slot);
    if ts != [] {
      assert ts[..0] == [] && ts == [ts[0]];
      assert EncodeTokens(ts) == [] + EncodeToken(ts[0]);
    }
  }

  /** What BaseRequest and BaseReply write. */
  lemma BaseLayout(m: Message)
    requires |m.buffer| <= MAX_LENGTH
    ensures Serialize(Base, m)
      == Int32Field(8, m.version) + Int32Field(16, m.length) + BytesField(26, m.buffer) + EncodeTokens(m.unknown)
  {
    FieldsLayout(Base, m);
    SlotLayout(Base, m, Version);
    SlotLayout(Base, m, Length);
    SlotLayout(Base, m, Buffer);
  }

  /** What Package writes. */
  lemma PackageLayout(m: Message)
    requires |m.buffer| <= MAX_LENGTH
    ensures Serialize(Package, m)
      == Int32Field(8, m.version) + BytesField(18, m.buffer) + Int32Field(24, m.length) + EncodeTokens(m.unknown)
  {
    FieldsLayout(Package, m);
    SlotLayout(Package, m, Version);
    SlotLayout(Package, m, Buffer);
    SlotLayout(Package, m, Length);
  }

  lemma FieldsLayout(schema: Schema, m: Message)
    ensures Serialize(schema, m)
      == EncodeTokens(SlotTokens(schema, m, schema.SlotOf(1)))
         + EncodeTokens(SlotTokens(schema, m, schema.SlotOf(2)))
         + EncodeTokens(SlotTokens(schema, m, schema.SlotOf(3)))
         + EncodeTokens(m.unknown)
  {
    var t1, t2, t3 := SlotTokens(schema, m, schema.SlotOf(1)),
                      SlotTokens(schema, m, schema.SlotOf(2)),
                      SlotTokens(schema, m, schema.SlotOf(3));
    EncodeTokensAppend(t1 + t2 + t3, m.unknown);
    EncodeTokensAppend(t1 + t2, t3);
    EncodeTokensAppend(t1, t2);
  }

  // ---------- Parsing ----------

  /** The next token decides one turn. */
  lemma TokenTurn(schema: Schema, p: Parsing, t: Token, bytes: seq<Byte>, rest: seq<Byte>)
    requires t.Valid() && bytes == EncodeToken(t) + rest
    ensures var q := Accept(schema, p, t);
      ParseFrom(schema, p, bytes) == if q == None then None else ParseFrom(schema, q.value, rest)
  {
    TokenRoundTrip(t, rest);
    EncodedTokenSize(t);
  }

  lemma Int32IsRead(schema: Schema, p: Parsing, slot: Slot, tag: Byte, v: nat, rest: seq<Byte>)
    requires p.open == [] && v < TWO_TO_64 && slot != Buffer && tag == 8 * schema.Number(slot)
    ensures var q := if slot == Version then p.message.(version := Narrow(v)) else p.message.(length := Narrow(v));
      ParseFrom(schema, p, [tag] + EncodeVarint(v) + rest) == ParseFrom(schema, p.(message := q), rest)
  {
    var t := Varint(schema.Number(slot), v);
    assert EncodeVarint(t.Tag()) == [tag];
    TokenTurn(schema, p, t, [tag] + EncodeVarint(v) + rest, rest);
  }

  lemma BytesAreRead(schema: Schema, p: Parsing, tag: Byte, data: seq<Byte>, rest: seq<Byte>)
    requires p.open == [] && |data| <= MAX_LENGTH && tag == 8 * schema.Number(Buffer) + 2
    ensures ParseFrom(schema, p, [tag] + (EncodeVarint(|data|) + data) + rest)
         == ParseFrom(schema, p.(message := p.message.(buffer := data)), rest)
  {
    var t := Delimited(schema.Number(Buffer), data);
    assert EncodeVarint(t.Tag()) == [tag];
    TokenTurn(schema, p, t, [tag] + (EncodeVarint(|data|) + data) + rest, rest);
  }

  /** The tags that the generated parser of BaseRequest compares: 8, 16 and 26. */
  lemma BaseFieldsAreRead(p: Parsing, v: nat, data: seq<Byte>, rest: seq<Byte>)
    requires p.open == [] && v < TWO_TO_64 && |data| <= MAX_LENGTH
    ensures ParseFrom(Base, p, [8] + EncodeVarint(v) + rest)
         == ParseFrom(Base, p.(message := p.message.(version := Narrow(v))), rest)
    ensures ParseFrom(Base, p, [16] + EncodeVarint(v) + rest)
         == ParseFrom(Base, p.(message := p.message.(length := Narrow(v))), rest)
    ensures ParseFrom(Base, p, [26] + (EncodeVarint(|data|) + data) + rest)
         == ParseFrom(Base, p.(message := p.message.(buffer := data)), rest)
  {
    Int32IsRead(Base, p, Version, 8, v, rest);
    Int32IsRead(Base, p, Length, 16, v, rest);
    BytesAreRead(Base, p, 26, data, rest);
  }

  /** Those of Package: 8, 18 and 24. */
  lemma PackageFieldsAreRead(p: Parsing, v: nat, data: seq<Byte>, rest: seq<Byte>)
    requires p.open == [] && v < TWO_TO_64 && |data| <= MAX_LENGTH
    ensures ParseFrom(Package, p, [8] + EncodeVarint(v) + rest)
         == ParseFrom(Package, p.(message := p.message.(version := Narrow(v))), rest)
    ensures ParseFrom(Package, p, [18] + (EncodeVarint(|data|) + data) + rest)
         == ParseFrom(Package, p.(message := p.message.(buffer := data)), rest)
    ensures ParseFrom(Package, p, [24] + EncodeVarint(v) + rest)
         == ParseFrom(Package, p.(message := p.message.(length := Narrow(v))), rest)
  {
    Int32IsRead(Package, p, Version, 8, v, rest);
    BytesAreRead(Package, p, 18, data, rest);
    Int32IsRead(Package, p, Length, 24, v, rest);
  }

  /** A field the parser of this schema compares. */
  predicate IsKnown(schema: Schema, t: Token) {
    match schema
    case Base => t.Tag() in {8, 16, 26}
    case Package => t.Tag() in {8, 18, 24}
  }

  /** Every other field, known numbers with another wire type included, is collected unchanged. */
  lemma OthersAreCollected(schema: Schema, p: Parsing, t: Token, rest: seq<Byte>)
    requires t.Valid() && !t.StartGroup? && !t.EndGroup?
    requires p.open == [] ==> !IsKnown(schema, t)
    ensures ParseFrom(schema, p, EncodeToken(t) + rest)
         == ParseFrom(schema, p.(message := p.message.(unknown := p.message.unknown + [t])), rest)
  {
    TokenTurn(schema, p, t, EncodeToken(t) + rest, rest);
  }

  /** Groups are collected with their brackets, a hundred deep at most ... */
  lemma GroupsAreOpened(schema: Schema, p: Parsing, n: nat, rest: seq<Byte>)
    requires StartGroup(n).Valid()
    ensures var q := p.message.(unknown := p.message.unknown + [StartGroup(n)]);
      ParseFrom(schema, p, EncodeVarint(8 * n + 3) + rest)
      == if |p.open| < 100 then ParseFrom(schema, Parsing(q, p.open + [n]), rest) else None
  {
    TokenTurn(schema, p, StartGroup(n), EncodeVarint(8 * n + 3) + rest, rest);
  }

  /** ... and the brackets must match. */
  lemma GroupsAreClosed(schema: Schema, p: Parsing, n: nat, rest: seq<Byte>)
    requires EndGroup(n).Valid()
    ensures var q := p.message.(unknown := p.message.unknown + [EndGroup(n)]);
      ParseFrom(schema, p, EncodeVarint(8 * n + 4) + rest)
      == if p.open != [] && p.open[|p.open| - 1] == n
         then ParseFrom(schema, Parsing(q, p.open[..|p.open| - 1]), rest) else None
  {
    TokenTurn(schema, p, EndGroup(n), EncodeVarint(8 * n + 4) + rest, rest);
  }

  lemma BadTagIsMalformed(tag: nat, rest: seq<Byte>)
    requires tag < TWO_TO_32 && (tag / 8 == 0 || tag % 8 >= 6)
    ensures ReadToken(EncodeVarint(tag) + rest) == Malformed
  {
    FieldKeyFits(tag);
    VarintRoundTrip(tag, TAG_BYTES, rest);
    if tag / 8 != 0 { BadWireType(tag / 8, tag % 8, rest); }
  }

  lemma BadWireType(number: nat, wireType: nat, bytes: seq<Byte>)
    requires wireType >= 6
    ensures ReadPayload(number, wireType, bytes) == Malformed
  {
  }

  /** Field number 0 and the wire types 6 and 7 are refused. */
  lemma BadTagsAreRefused(schema: Schema, p: Parsing, tag: nat, rest: seq<Byte>)
    requires tag < TWO_TO_32 && (tag / 8 == 0 || tag % 8 >= 6)
    ensures ParseFrom(schema, p, EncodeVarint(tag) + rest) == None
  {
    BadTagIsMalformed(tag, rest);
    assert EncodeVarint(tag) != [];
  }

  /** The number 150 is the example of the encoding's documentation. */
  lemma SmallExamples()
    ensures EncodeVarint(150) == [150, 1]
    ensures Serialize(Base, Message(1, 2, [65], [])) == [8, 1, 16, 2, 26, 1, 65]
    ensures Serialize(Package, Message(1, 2, [65], [])) == [8, 1, 18, 1, 65, 24, 2]
  {
    var m := Message(1, 2, [65], []);
    BaseLayout(m);
    PackageLayout(m);
    assert EncodeTokens([]) == [] && EncodeVarint(1) == [1] && EncodeVarint(2) == [2];
    assert EncodeVarint(150 / 128) == [1];
  }

  lemma {:induction false} MinusOne(n: nat, v: nat)
    requires n > 0 && v == Pow128(n) * 2 - 1
    ensures EncodeVarint(v) == seq(n, _ => 255) + [1]
  {
    var w := Pow128(n - 1) * 2 - 1;
    assert v == 128 * w + 127;
    assert v / 128 == w && v % 128 == 127;
    if n > 1 { MinusOne(n - 1, w); } else { assert EncodeVarint(w) == [1]; }
    assert [255] + (seq(n - 1, _ => 255) + [1]) == seq(n, _ => 255) + [1];
  }

  function Pow128(n: nat): nat { if n == 0 then 1 else 128 * Pow128(n - 1) }

  /** Minus one is nine full bytes and one bit. */
  lemma MinusOneLayout()
    ensures EncodeVarint(SignExtend(-1)) == seq(9, _ => 255) + [1]
  {
    assert Pow128(3) == 0x20_0000;
    assert Pow128(6) == 0x400_0000_0000;
    assert Pow128(9) == 0x8000_0000_0000_0000;
    MinusOne(9, SignExtend(-1));
  }
}
