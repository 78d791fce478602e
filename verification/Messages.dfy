/** The generated message codec: parse, serialize, size and merge of a message with two
    int32 fields and one bytes field, under the field numbering of base.proto
    (BaseRequest and BaseReply) and of ez.proto (Package). */
module Messages {
  import opened Wrappers
  import opened WireFormat

  datatype Slot = Version | Length | Buffer

  datatype Schema = Base | Package {
    /** The field that carries a number; serialization follows number order. */
    function SlotOf(number: nat): Slot
      requires 1 <= number <= 3
    {
      if number == 1 then Version
      else if Base? == (number == 2) then Length else Buffer
    }

    function Number(slot: Slot): (n: nat)
      ensures 1 <= n <= 3 && SlotOf(n) == slot
    {
      match slot
      case Version => 1
      case Length => if Base? then 2 else 3
      case Buffer => if Base? then 3 else 2
    }

    predicate Knows(t: Token) {
      || (t.Varint? && (t.number == Number(Version) || t.number == Number(Length)))
      || (t.Delimited? && t.number == Number(Buffer))
    }
  }

  datatype Message = Message(version: Int32, length: Int32, buffer: seq<Byte>, unknown: seq<Token>)

  const EMPTY := Message(0, 0, [], [])

  // The runtime's recursion limit for nested groups.
  const MAX_DEPTH: nat := 100

  // ---------- Parsing ----------

  /** A message under construction, and the field numbers of the unknown groups still open. */
  datatype Parsing = Parsing(message: Message, open: seq<nat>)

  /** The effect of an unrecognised token on the open groups; None rejects the input. */
  function Nest(open: seq<nat>, t: Token): Option<seq<nat>> {
    if t.StartGroup? then
      if |open| < MAX_DEPTH then Some(open + [t.number]) else None
    else if t.EndGroup? then
      if open != [] && open[|open| - 1] == t.number then Some(open[..|open| - 1]) else None
    else Some(open)
  }

  function SetField(schema: Schema, m: Message, t: Token): Message
    requires schema.Knows(t)
  {
    if t.Delimited? then m.(buffer := t.data)
    else if t.number == schema.Number(Version) then m.(version := Narrow(t.value))
    else m.(length := Narrow(t.value))
  }

  function Accept(schema: Schema, p: Parsing, t: Token): Option<Parsing> {
    if p.open == [] && schema.Knows(t) then
      Some(p.(message := SetField(schema, p.message, t)))
    else
      match Nest(p.open, t)
      case None => None
      case Some(open) =>
        Some(Parsing(p.message.(unknown := p.message.unknown + [t]), open))
  }

  function ParseFrom(schema: Schema, p: Parsing, bytes: seq<Byte>): Option<Parsing>
    decreases |bytes|
  {
    if bytes == [] then Some(p)
    else
      match ReadToken(bytes)
      case Malformed => None
      case Got(t, rest) =>
        match Accept(schema, p, t)
        case None => None
        case Some(q) =>
          TokenPrefix(bytes, []);
          ParseFrom(schema, q, rest)
  }

  /** The state after the accepted fields at the beginning of the bytes. */
  function Reached(schema: Schema, p: Parsing, bytes: seq<Byte>): Parsing
    decreases |bytes|
  {
    if bytes == [] then p
    else
      match ReadToken(bytes)
      case Malformed => p
      case Got(t, rest) =>
        match Accept(schema, p, t)
        case None => p
        case Some(q) =>
          TokenPrefix(bytes, []);
          Reached(schema, q, rest)
  }

  /** One turn of the parser: the field at the beginning of the bytes, if it is accepted. */
  function Turn(schema: Schema, p: Parsing, bytes: seq<Byte>): Read<Parsing> {
    match ReadToken(bytes)
    case Malformed => Malformed
    case Got(t, rest) =>
      match Accept(schema, p, t)
      case None => Malformed
      case Some(q) => Got(q, rest)
  }

  /** The fields but one are those of another message. */
  predicate AllBut(slot: Slot, a: Message, b: Message) {
    && (slot == Version || a.version == b.version)
    && (slot == Length || a.length == b.length)
    && (slot == Buffer || a.buffer == b.buffer)
  }

  ghost predicate Nearly(a: Message, b: Message) { exists slot :: AllBut(slot, a, b) }

  /** Merge the fields found in `bytes` into `m`; None when the bytes are rejected. */
  function ParseInto(schema: Schema, m: Message, bytes: seq<Byte>): Option<Message> {
    match ParseFrom(schema, Parsing(m, []), bytes)
    case Some(p) => if p.open == [] then Some(p.message) else None
    case None => None
  }

  function Parse(schema: Schema, bytes: seq<Byte>): Option<Message> {
    ParseInto(schema, EMPTY, bytes)
  }

  // ---------- Serializing ----------

  /** Fields holding their default value are not written. */
  function SlotTokens(schema: Schema, m: Message, slot: Slot): seq<Token> {
    var n := schema.Number(slot);
    match slot
    case Version => if m.version != 0 then [Varint(n, SignExtend(m.version))] else []
    case Length => if m.length != 0 then [Varint(n, SignExtend(m.length))] else []
    case Buffer => if m.buffer != [] then [Delimited(n, m.buffer)] else []
  }

  function FieldTokens(schema: Schema, m: Message): seq<Token> {
    SlotTokens(schema, m, schema.SlotOf(1))
    + SlotTokens(schema, m, schema.SlotOf(2))
    + SlotTokens(schema, m, schema.SlotOf(3))
  }

  function EncodeTokens(ts: seq<Token>): seq<Byte> {
    if ts == [] then [] else EncodeTokens(ts[..|ts| - 1]) + EncodeToken(ts[|ts| - 1])
  }

  function Serialize(schema: Schema, m: Message): seq<Byte> {
    EncodeTokens(FieldTokens(schema, m) + m.unknown)
  }

  function Merge(into: Message, from: Message): Message {
    Message(
      if from.version != 0 then from.version else into.version,
      if from.length != 0 then from.length else into.length,
      if from.buffer != [] then from.buffer else into.buffer,
      into.unknown + from.unknown)
  }

  function TokensSize(ts: seq<Token>): nat {
    if ts == [] then 0 else TokensSize(ts[..|ts| - 1]) + TokenSize(ts[|ts| - 1])
  }

  /** Field tags are one byte long under both numberings. */
  function ByteSize(m: Message): nat {
    (if m.buffer != [] then 1 + VarintSize(|m.buffer| % TWO_TO_32) + |m.buffer| else 0)
    + (if m.version != 0 then 1 + VarintSize(SignExtend(m.version)) else 0)
    + (if m.length != 0 then 1 + VarintSize(SignExtend(m.length)) else 0)
    + TokensSize(m.unknown)
  }

  // ---------- Token sequences ----------

  lemma EncodeTokensSnoc(ts: seq<Token>, t: Token)
    ensures EncodeTokens(ts + [t]) == EncodeTokens(ts) + EncodeToken(t)
  {
    assert (ts + [t])[..|ts|] == ts;
  }

  lemma {:induction false} EncodeTokensAppend(a: seq<Token>, b: seq<Token>)
    ensures EncodeTokens(a + b) == EncodeTokens(a) + EncodeTokens(b)
  {
    if b == [] {
      assert a + b == a;
    } else {
      var init, last := b[..|b| - 1], b[|b| - 1];
      assert init + [last] == b;
      EncodeTokensAppend(a, init);
      EncodeTokensStep(a, init, last);
    }
  }

  lemma EncodeTokensStep(a: seq<Token>, init: seq<Token>, last: Token)
    requires EncodeTokens(a + init) == EncodeTokens(a) + EncodeTokens(init)
    ensures EncodeTokens(a + (init + [last])) == EncodeTokens(a) + EncodeTokens(init + [last])
  {
    EncodeTokensSnoc(init, last);
    EncodeTokensSnoc(a + init, last);
    Associative(EncodeTokens(a), EncodeTokens(init), EncodeToken(last));
    Associative(a, init, [last]);
  }

  lemma Associative<T>(a: seq<T>, b: seq<T>, c: seq<T>)
    ensures (a + b) + c == a + (b + c)
  {
  }

  lemma {:induction false} EncodedTokensSize(ts: seq<Token>)
    ensures |EncodeTokens(ts)| == TokensSize(ts)
  {
    if ts != [] {
      EncodedTokensSize(ts[..|ts| - 1]);
      EncodedTokenSize(ts[|ts| - 1]);
    }
  }

  lemma {:induction false} TokensSizeAppend(a: seq<Token>, b: seq<Token>)
    ensures TokensSize(a + b) == TokensSize(a) + TokensSize(b)
  {
    EncodeTokensAppend(a, b);
    EncodedTokensSize(a);
    EncodedTokensSize(b);
    EncodedTokensSize(a + b);
  }

  lemma SlotTokensSize(schema: Schema, m: Message, slot: Slot)
    ensures TokensSize(SlotTokens(schema, m, slot))
         == match slot
            case Version => if m.version != 0 then 1 + VarintSize(SignExtend(m.version)) else 0
            case Length => if m.length != 0 then 1 + VarintSize(SignExtend(m.length)) else 0
            case Buffer =>
              if m.buffer != [] then 1 + VarintSize(|m.buffer| % TWO_TO_32) + |m.buffer| else 0
  {
    var ts := SlotTokens(schema, m, slot);
    if ts != [] {
      assert ts[..|ts| - 1] == [];
      assert VarintSize(ts[0].Tag()) == 1;
    }
  }

  /** ByteSizeLong is exact for every message, whatever its length. */
  lemma SerializedSize(schema: Schema, m: Message)
    ensures |Serialize(schema, m)| == ByteSize(m)
  {
    var a, b, c := SlotTokens(schema, m, schema.SlotOf(1)),
                   SlotTokens(schema, m, schema.SlotOf(2)),
                   SlotTokens(schema, m, schema.SlotOf(3));
    var fields := FieldTokens(schema, m);
    EncodedTokensSize(fields + m.unknown);
    TokensSizeAppend(fields, m.unknown);
    assert TokensSize(fields) == TokensSize(a) + TokensSize(b) + TokensSize(c) by {
      TokensSizeAppend(a + b, c);
      TokensSizeAppend(a, b);
    }
    SlotTokensSize(schema, m, Version);
    SlotTokensSize(schema, m, Length);
    SlotTokensSize(schema, m, Buffer);
  }

  /** Feed a token sequence to the parser. */
  function AcceptAll(schema: Schema, p: Parsing, ts: seq<Token>): Option<Parsing> {
    if ts == [] then Some(p)
    else
      match AcceptAll(schema, p, ts[..|ts| - 1])
      case None => None
      case Some(q) => Accept(schema, q, ts[|ts| - 1])
  }

  ghost predicate AllValid(ts: seq<Token>) { forall t <- ts :: t.Valid() }

  /** Parsing encoded tokens is feeding the tokens, and then parsing what follows. */
  lemma {:induction false} ParseEncoded(schema: Schema, p: Parsing, ts: seq<Token>, rest: seq<Byte>)
    requires AllValid(ts)
    ensures ParseFrom(schema, p, EncodeTokens(ts) + rest)
         == match AcceptAll(schema, p, ts)
            case None => None
            case Some(q) => ParseFrom(schema, q, rest)
  {
    if ts == [] {
      assert EncodeTokens(ts) + rest == rest;
    } else {
      var init, last := ts[..|ts| - 1], ts[|ts| - 1];
      assert EncodeTokens(ts) + rest == EncodeTokens(init) + (EncodeToken(last) + rest);
      ParseEncoded(schema, p, init, EncodeToken(last) + rest);
      TokenRoundTrip(last, rest);
      EncodedTokenSize(last);
    }
  }

  lemma {:induction false} AcceptAllAppend(schema: Schema, p: Parsing, a: seq<Token>, b: seq<Token>)
    ensures AcceptAll(schema, p, a + b)
         == match AcceptAll(schema, p, a)
            case None => None
            case Some(q) => AcceptAll(schema, q, b)
  {
    if b == [] {
      assert a + b == a;
    } else {
      AcceptAllAppend(schema, p, a, b[..|b| - 1]);
      assert (a + b)[..|a + b| - 1] == a + b[..|b| - 1];
    }
  }

  /** Accepted input can be parsed in two stages. */
  lemma {:induction false} ParseInStages(schema: Schema, p: Parsing, x: seq<Byte>, y: seq<Byte>)
    requires ParseFrom(schema, p, x).Some?
    ensures ParseFrom(schema, p, x + y) == ParseFrom(schema, ParseFrom(schema, p, x).value, y)
    decreases |x|
  {
    if x == [] {
      assert x + y == y;
    } else {
      TokenPrefix(x, y);
      var Got(t, rest) := ReadToken(x);
      ParseInStages(schema, Accept(schema, p, t).value, rest, y);
    }
  }

  // ---------- What parsing can produce ----------

  /** The groups left open by a sequence of unknown fields; None when the parser could not
      have collected that sequence. */
  function OpenAfter(schema: Schema, us: seq<Token>): Option<seq<nat>> {
    if us == [] then Some([])
    else
      match OpenAfter(schema, us[..|us| - 1])
      case None => None
      case Some(open) =>
        var t := us[|us| - 1];
        if open == [] && schema.Knows(t) then None else Nest(open, t)
  }

  /** Unknown fields hold valid tokens the schema does not know, with groups balanced. */
  ghost predicate UnknownsCollected(schema: Schema, m: Message) {
    AllValid(m.unknown) && OpenAfter(schema, m.unknown) == Some([])
  }

  ghost predicate Reachable(schema: Schema, p: Parsing) {
    && |p.message.buffer| <= MAX_LENGTH
    && AllValid(p.message.unknown)
    && OpenAfter(schema, p.message.unknown) == Some(p.open)
  }

  lemma {:induction false} ParseKeepsReachable(schema: Schema, p: Parsing, bytes: seq<Byte>)
    requires Reachable(schema, p) && ParseFrom(schema, p, bytes).Some?
    ensures Reachable(schema, ParseFrom(schema, p, bytes).value)
    decreases |bytes|
  {
    if bytes != [] {
      TokenPrefix(bytes, []);
      var Got(t, rest) := ReadToken(bytes);
      var q := Accept(schema, p, t).value;
      if q.message.unknown != p.message.unknown {
        var us := q.message.unknown;
        assert us[..|us| - 1] == p.message.unknown;
      }
      ParseKeepsReachable(schema, q, rest);
    }
  }

  /** Replaying collected unknown fields collects them again. */
  lemma {:induction false} AcceptUnknowns(schema: Schema, m: Message, us: seq<Token>)
    requires OpenAfter(schema, us).Some?
    ensures AcceptAll(schema, Parsing(m, []), us)
         == Some(Parsing(m.(unknown := m.unknown + us), OpenAfter(schema, us).value))
  {
    if us == [] {
      assert m.unknown + us == m.unknown;
    } else {
      var init, last := us[..|us| - 1], us[|us| - 1];
      AcceptUnknowns(schema, m, init);
      assert m.unknown + init + [last] == m.unknown + us;
    }
  }

  lemma AcceptSlot(schema: Schema, p: Parsing, m: Message, slot: Slot)
    requires p.open == []
    ensures AcceptAll(schema, p, SlotTokens(schema, m, slot))
         == Some(p.(message := match slot
                    case Version => if m.version != 0 then p.message.(version := m.version) else p.message
                    case Length => if m.length != 0 then p.message.(length := m.length) else p.message
                    case Buffer => if m.buffer != [] then p.message.(buffer := m.buffer) else p.message))
  {
    var ts := SlotTokens(schema, m, slot);
    if ts != [] {
      assert ts[..|ts| - 1] == [];
      NarrowUndoesSignExtend(m.version);
      NarrowUndoesSignExtend(m.length);
    }
  }

  /** Feeding the tokens of `b` to a parser that holds `a` produces what MergeImpl produces. */
  lemma AcceptMerges(schema: Schema, a: Message, b: Message)
    requires OpenAfter(schema, b.unknown) == Some([])
    ensures AcceptAll(schema, Parsing(a, []), FieldTokens(schema, b) + b.unknown)
         == Some(Parsing(Merge(a, b), []))
  {
    var t1, t2, t3 := SlotTokens(schema, b, schema.SlotOf(1)),
                      SlotTokens(schema, b, schema.SlotOf(2)),
                      SlotTokens(schema, b, schema.SlotOf(3));
    var p := Parsing(a, []);
    AcceptAllAppend(schema, p, t1 + t2 + t3, b.unknown);
    AcceptAllAppend(schema, p, t1 + t2, t3);
    AcceptAllAppend(schema, p, t1, t2);
    AcceptSlot(schema, p, b, schema.SlotOf(1));
    var p1 := AcceptAll(schema, p, t1).value;
    AcceptSlot(schema, p1, b, schema.SlotOf(2));
    var p2 := AcceptAll(schema, p1, t2).value;
    AcceptSlot(schema, p2, b, schema.SlotOf(3));
    var p3 := AcceptAll(schema, p2, t3).value;
    AcceptUnknowns(schema, p3.message, b.unknown);
  }

  /** Merging keeps unknown fields replayable. */
  lemma {:induction false} OpenAfterAppend(schema: Schema, a: seq<Token>, b: seq<Token>)
    requires OpenAfter(schema, a) == Some([])
    ensures OpenAfter(schema, a + b) == OpenAfter(schema, b)
  {
    if b == [] {
      assert a + b == a;
    } else {
      OpenAfterAppend(schema, a, b[..|b| - 1]);
      assert (a + b)[..|a + b| - 1] == a + b[..|b| - 1];
    }
  }

  lemma MergeKeepsCollected(schema: Schema, a: Message, b: Message)
    requires UnknownsCollected(schema, a) && UnknownsCollected(schema, b)
    ensures UnknownsCollected(schema, Merge(a, b))
  {
    OpenAfterAppend(schema, a.unknown, b.unknown);
  }

  // ---------- Main results ----------

  lemma SlotTokensValid(schema: Schema, m: Message)
    requires |m.buffer| <= MAX_LENGTH
    ensures AllValid(FieldTokens(schema, m))
  {
    NarrowUndoesSignExtend(m.version);
    NarrowUndoesSignExtend(m.length);
  }

  /** Parsing any accepted input followed by a serialized message merges that message into
      what the input gave. */
  lemma AppendIsMerge(schema: Schema, m: Message, x: seq<Byte>, b: Message)
    requires ParseInto(schema, m, x).Some?
    requires UnknownsCollected(schema, b) && |b.buffer| <= MAX_LENGTH
    ensures ParseInto(schema, m, x + Serialize(schema, b))
         == Some(Merge(ParseInto(schema, m, x).value, b))
  {
    var y, a := Serialize(schema, b), ParseInto(schema, m, x).value;
    ParseInStages(schema, Parsing(m, []), x, y);
    SlotTokensValid(schema, b);
    assert y + [] == y;
    ParseEncoded(schema, Parsing(a, []), FieldTokens(schema, b) + b.unknown, []);
    AcceptMerges(schema, a, b);
  }

  /** Parsing the concatenation of two serialized messages is MergeImpl. */
  lemma ConcatenationIsMerge(schema: Schema, a: Message, b: Message)
    requires UnknownsCollected(schema, a) && |a.buffer| <= MAX_LENGTH
    requires UnknownsCollected(schema, b) && |b.buffer| <= MAX_LENGTH
    ensures Parse(schema, Serialize(schema, a) + Serialize(schema, b)) == Some(Merge(a, b))
  {
    RoundTrip(schema, a);
    AppendIsMerge(schema, EMPTY, Serialize(schema, a), b);
  }

  /** Whatever is accepted has a buffer the length reader allows and replayable unknowns. */
  lemma ParsedIsReachable(schema: Schema, bytes: seq<Byte>)
    requires Parse(schema, bytes).Some?
    ensures UnknownsCollected(schema, Parse(schema, bytes).value)
    ensures |Parse(schema, bytes).value.buffer| <= MAX_LENGTH
  {
    ParseKeepsReachable(schema, Parsing(EMPTY, []), bytes);
  }

  /** A message parses back to itself exactly when its unknown fields are such as a parser
      collects and its buffer is not longer than the length reader allows. */
  lemma RoundTrip(schema: Schema, m: Message)
    ensures Parse(schema, Serialize(schema, m)) == Some(m)
       <==> UnknownsCollected(schema, m) && |m.buffer| <= MAX_LENGTH
  {
    if UnknownsCollected(schema, m) && |m.buffer| <= MAX_LENGTH {
      AppendIsMerge(schema, EMPTY, [], m);
      assert [] + Serialize(schema, m) == Serialize(schema, m);
      assert Merge(EMPTY, m) == m by { assert [] + m.unknown == m.unknown; }
    } else if Parse(schema, Serialize(schema, m)) == Some(m) {
      ParsedIsReachable(schema, Serialize(schema, m));
    }
  }

  /** One byte more than the length reader allows: the message is not read back. */
  lemma LongBufferIsLost(schema: Schema)
    ensures var m := Message(0, 0, seq(MAX_LENGTH + 1, _ => 0), []);
      Parse(schema, Serialize(schema, m)) != Some(m)
  {
    var m := Message(0, 0, seq(MAX_LENGTH + 1, _ => 0), []);
    RoundTrip(schema, m);
  }

  /** Serializing what was parsed is a normal form: it parses to the same message, whatever
      the field order, repetition, encoding lengths or unknown fields of the input. */
  lemma NormalForm(schema: Schema, bytes: seq<Byte>)
    requires Parse(schema, bytes).Some?
    ensures Parse(schema, Serialize(schema, Parse(schema, bytes).value)) == Parse(schema, bytes)
  {
    ParsedIsReachable(schema, bytes);
    RoundTrip(schema, Parse(schema, bytes).value);
  }

  /** A peer built on the other numbering relays a message unchanged, byte for byte: the
      fields whose type differs travel through its unknown fields. */
  lemma RelayPreservesBytes(sender: Schema, relay: Schema, m: Message)
    requires sender != relay && m.unknown == [] && |m.buffer| <= MAX_LENGTH
    ensures var bytes := Serialize(sender, m);
      && Parse(relay, bytes).Some?
      && Serialize(relay, Parse(relay, bytes).value) == bytes
  {
    var ts, relayed := FieldTokens(sender, m), Relayed(sender, m);
    RelayAccepts(sender, relay, m);
    SlotTokensValid(sender, m);
    assert ts + m.unknown == ts;
    assert EncodeTokens(ts) + [] == EncodeTokens(ts);
    ParseEncoded(relay, Parsing(EMPTY, []), ts, []);
    RelayedTokens(sender, relay, m);
  }

  /** What the relay holds: the common field, and the others as unknown fields. */
  function Relayed(sender: Schema, m: Message): Message {
    Message(m.version, 0, [],
      SlotTokens(sender, m, sender.SlotOf(2)) + SlotTokens(sender, m, sender.SlotOf(3)))
  }

  lemma RelayedTokens(sender: Schema, relay: Schema, m: Message)
    ensures FieldTokens(relay, Relayed(sender, m)) + Relayed(sender, m).unknown == FieldTokens(sender, m)
  {
    var r := Relayed(sender, m);
    assert SlotTokens(relay, r, relay.SlotOf(2)) == [] && SlotTokens(relay, r, relay.SlotOf(3)) == [];
    assert SlotTokens(relay, r, Version) == SlotTokens(sender, m, Version);
  }

  lemma RelayAccepts(sender: Schema, relay: Schema, m: Message)
    requires sender != relay
    ensures AcceptAll(relay, Parsing(EMPTY, []), FieldTokens(sender, m))
         == Some(Parsing(Relayed(sender, m), []))
  {
    var t1, t2, t3 := SlotTokens(sender, m, Version),
                      SlotTokens(sender, m, sender.SlotOf(2)),
                      SlotTokens(sender, m, sender.SlotOf(3));
    var p, m1 := Parsing(EMPTY, []), EMPTY.(version := m.version);
    assert AcceptAll(relay, p, t1) == Some(Parsing(m1, [])) by {
      AcceptSlot(relay, p, m, Version);
      assert SlotTokens(relay, m, Version) == t1;
    }
    AcceptAllAppend(relay, p, t1, t2);
    ForeignSlot(sender, relay, m, sender.SlotOf(2));
    AcceptForeignSlot(relay, Parsing(m1, []), t2);
    var m2 := m1.(unknown := [] + t2);
    AcceptAllAppend(relay, p, t1 + t2, t3);
    ForeignSlot(sender, relay, m, sender.SlotOf(3));
    AcceptForeignSlot(relay, Parsing(m2, []), t3);
    assert [] + t2 == t2;
  }

  /** Both fields but the first have the other's number in the other schema. */
  lemma ForeignSlot(sender: Schema, relay: Schema, m: Message, slot: Slot)
    requires sender != relay && slot != Version
    ensures var ts := SlotTokens(sender, m, slot);
      ts == [] || (|ts| == 1 && !relay.Knows(ts[0]) && !ts[0].StartGroup? && !ts[0].EndGroup?)
  {
  }

  lemma AcceptForeignSlot(relay: Schema, p: Parsing, ts: seq<Token>)
    requires p.open == []
    requires ts == [] || (|ts| == 1 && !relay.Knows(ts[0]) && !ts[0].StartGroup? && !ts[0].EndGroup?)
    ensures AcceptAll(relay, p, ts)
         == Some(p.(message := p.message.(unknown := p.message.unknown + ts)))
  {
    if ts == [] {
      assert p.message.unknown + ts == p.message.unknown;
    } else {
      assert ts[..|ts| - 1] == [] && ts == [ts[0]];
    }
  }
}
