/** The generated classes in their own form: an object whose parse loop assigns fields, and
    a serializer that advances through a byte array.  The C++ classes BaseRequest,
    BaseReply and Package differ only in their schema. */
module Codec {
  import opened Wrappers
  import opened WireFormat
  import opened Messages

  // ---------- Reading at a position ----------

  function Tail(input: seq<Byte>, at: nat): seq<Byte> {
    if at <= |input| then input[at..] else []
  }

  function Weigh(scale: nat, group: nat): nat { scale * group }

  /** Continue a varint whose lower groups sum to `low`, the next group weighing `scale`. */
  ghost function Resume(low: nat, scale: nat, r: Read<nat>): Read<nat> {
    if r.Malformed? then Malformed else Got(low + Weigh(scale, r.value), r.rest)
  }

  lemma ResumeStep(low: nat, scale: nat, bytes: seq<Byte>, limit: nat)
    requires bytes != [] && limit > 0
    ensures Resume(low, scale, ReadVarint(bytes, limit))
         == if bytes[0] < 128 then Got(low + Weigh(scale, bytes[0]), bytes[1..])
            else Resume(low + Weigh(scale, bytes[0] - 128), scale * 128, ReadVarint(bytes[1..], limit - 1))
  {
    var r := ReadVarint(bytes[1..], limit - 1);
    if bytes[0] >= 128 && r.Got? {
      var g := bytes[0] - 128;
      assert scale * (g + 128 * r.value) == scale * g + (scale * 128) * r.value;
    }
  }

  method ReadVarintAt(input: seq<Byte>, ptr: nat, limit: nat) returns (good: bool, value: nat, next: nat)
    requires ptr <= |input|
    ensures good <==> ReadVarint(input[ptr..], limit).Got?
    ensures good ==> ReadVarint(input[ptr..], limit) == Got(value, Tail(input, next)) && ptr < next <= |input|
  {
    value, next := 0, ptr;
    var scale: nat, left := 1, limit;
    while left > 0 && next < |input|
      invariant ptr <= next <= |input|
      invariant Resume(value, scale, ReadVarint(input[next..], left)) == ReadVarint(input[ptr..], limit)
      decreases left
    {
      ResumeStep(value, scale, input[next..], left);
      assert input[next..][1..] == input[next + 1..];
      var b: nat := input[next];
      if b < 128 {
        return true, value + Weigh(scale, b), next + 1;
      }
      value, scale, left, next := value + Weigh(scale, b - 128), scale * 128, left - 1, next + 1;
    }
    good := false;
  }

  /** A varint assigned to an int32 field. */
  method ReadInt32At(input: seq<Byte>, ptr: nat) returns (good: bool, v: Int32, next: nat)
    requires ptr <= |input|
    ensures good <==> ReadVarint(input[ptr..], VALUE_BYTES).Got?
    ensures good ==> var r := ReadVarint(input[ptr..], VALUE_BYTES);
      ptr < next <= |input| && r.rest == input[next..] && v == Narrow(r.value % TWO_TO_64)
  {
    var u;
    good, u, next := ReadVarintAt(input, ptr, VALUE_BYTES);
    v := 0;
    if good {
      NarrowWide(u);
      v := Narrow(u);
    }
  }

  method ReadChunkAt(input: seq<Byte>, ptr: nat, n: nat) returns (good: bool, data: seq<Byte>, next: nat)
    requires ptr <= |input|
    ensures good <==> ReadChunk(input[ptr..], n).Got?
    ensures good ==> ReadChunk(input[ptr..], n) == Got(data, Tail(input, next)) && ptr <= next <= |input|
  {
    if ptr + n <= |input| {
      assert input[ptr..][..n] == input[ptr..ptr + n];
      return true, input[ptr..ptr + n], ptr + n;
    }
    good, data, next := false, [], ptr;
  }

  /** A length and then that many bytes. */
  method ReadDelimitedAt(input: seq<Byte>, ptr: nat) returns (good: bool, data: seq<Byte>, next: nat)
    requires ptr <= |input|
    ensures good <==> ReadDelimited(input[ptr..]).Got?
    ensures good ==> ReadDelimited(input[ptr..]) == Got(data, Tail(input, next)) && ptr < next <= |input|
  {
    var n;
    good, n, next := ReadVarintAt(input, ptr, TAG_BYTES);
    if !good || n > MAX_LENGTH {
      return false, [], ptr;
    }
    good, data, next := ReadChunkAt(input, next, n);
  }

  /** The payload of a field the message does not know. */
  method ReadUnknownAt(input: seq<Byte>, ptr: nat, tag: nat) returns (good: bool, t: Token, next: nat)
    requires ptr <= |input|
    ensures good <==> ReadPayload(tag / 8, tag % 8, input[ptr..]).Got?
    ensures good ==> ReadPayload(tag / 8, tag % 8, input[ptr..]) == Got(t, Tail(input, next))
    ensures good ==> ptr <= next <= |input|
  {
    var number, data, v := tag / 8, [], 0;
    t, next := StartGroup(number), ptr;
    match tag % 8
    case 0 =>
      good, v, next := ReadVarintAt(input, ptr, VALUE_BYTES);
      t := Varint(number, v % TWO_TO_64);
    case 1 =>
      good, data, next := ReadChunkAt(input, ptr, 8);
      t := Fixed64(number, data);
    case 2 =>
      good, data, next := ReadDelimitedAt(input, ptr);
      t := Delimited(number, data);
    case 3 => good := true;
    case 4 => good, t := true, EndGroup(number);
    case 5 =>
      good, data, next := ReadChunkAt(input, ptr, 4);
      t := Fixed32(number, data);
    case _ => good := false;
  }

  // ---------- Writing at a position ----------

  /** Between two states of an array, `data` was put at `pos..next` after what was already in
      place, and the rest was left alone. */
  ghost predicate Wrote(before: seq<Byte>, after: seq<Byte>, pos: nat, next: nat, data: seq<Byte>) {
    && next == pos + |data| <= |before| == |after|
    && after[..next] == before[..pos] + data
    && after[next..] == before[next..]
  }

  lemma WroteBoth(s: seq<Byte>, t: seq<Byte>, u: seq<Byte>, p: nat, q: nat, r: nat, a: seq<Byte>, b: seq<Byte>)
    requires Wrote(s, t, p, q, a) && Wrote(t, u, q, r, b)
    ensures Wrote(s, u, p, r, a + b)
  {
    assert t[r..] == t[q..][r - q..] && s[r..] == s[q..][r - q..];
  }

  method WriteByte(target: array<Byte>, pos: nat, b: Byte) returns (next: nat)
    requires pos < target.Length
    modifies target
    ensures Wrote(old(target[..]), target[..], pos, next, [b])
  {
    target[pos] := b;
    next := pos + 1;
  }

  method WriteBytes(target: array<Byte>, pos: nat, data: seq<Byte>) returns (next: nat)
    requires pos + |data| <= target.Length
    modifies target
    ensures Wrote(old(target[..]), target[..], pos, next, data)
  {
    forall i | 0 <= i < |data| {
      target[pos + i] := data[i];
    }
    next := pos + |data|;
  }

  method WriteVarint(target: array<Byte>, pos: nat, v: nat) returns (next: nat)
    requires pos + |EncodeVarint(v)| <= target.Length
    modifies target
    ensures Wrote(old(target[..]), target[..], pos, next, EncodeVarint(v))
  {
    var w := v;
    next := pos;
    ghost var start, done := target[..], [];
    while w >= 128
      invariant done + EncodeVarint(w) == EncodeVarint(v)
      invariant Wrote(start, target[..], pos, next, done)
    {
      var b: Byte := w % 128 + 128;
      ghost var now, at := target[..], next;
      Associative(done, [b], EncodeVarint(w / 128));
      next := WriteByte(target, next, b);
      WroteBoth(start, now, target[..], pos, at, next, done, [b]);
      w, done := w / 128, done + [b];
    }
    ghost var now, at := target[..], next;
    next := WriteByte(target, next, w);
    WroteBoth(start, now, target[..], pos, at, next, done, [w]);
  }

  method WriteDelimited(target: array<Byte>, pos: nat, data: seq<Byte>) returns (next: nat)
    requires pos + |EncodeVarint(|data| % TWO_TO_32) + data| <= target.Length
    modifies target
    ensures Wrote(old(target[..]), target[..], pos, next, EncodeVarint(|data| % TWO_TO_32) + data)
  {
    var n := |data| % TWO_TO_32;
    next := WriteVarint(target, pos, n);
    ghost var now, at := target[..], next;
    next := WriteBytes(target, next, data);
    WroteBoth(old(target[..]), now, target[..], pos, at, next, EncodeVarint(n), data);
  }

  method WritePayload(target: array<Byte>, pos: nat, t: Token) returns (next: nat)
    requires pos + |EncodePayload(t)| <= target.Length
    modifies target
    ensures Wrote(old(target[..]), target[..], pos, next, EncodePayload(t))
  {
    match t
    case Varint(_, v) => next := WriteVarint(target, pos, v);
    case Delimited(_, data) => next := WriteDelimited(target, pos, data);
    case Fixed64(_, data) => next := WriteBytes(target, pos, data);
    case Fixed32(_, data) => next := WriteBytes(target, pos, data);
    case StartGroup(_) => next := pos;
    case EndGroup(_) => next := pos;
  }

  method WriteToken(target: array<Byte>, pos: nat, t: Token) returns (next: nat)
    requires pos + |EncodeToken(t)| <= target.Length
    modifies target
    ensures Wrote(old(target[..]), target[..], pos, next, EncodeToken(t))
  {
    var tag := t.Tag();
    next := WriteVarint(target, pos, tag);
    ghost var now, at := target[..], next;
    next := WritePayload(target, next, t);
    WroteBoth(old(target[..]), now, target[..], pos, at, next, EncodeVarint(tag), EncodePayload(t));
  }

  method WriteTokens(target: array<Byte>, pos: nat, ts: seq<Token>) returns (next: nat)
    requires pos + |EncodeTokens(ts)| <= target.Length
    modifies target
    ensures Wrote(old(target[..]), target[..], pos, next, EncodeTokens(ts))
  {
    next := pos;
    var i := 0;
    while i < |ts|
      invariant 0 <= i <= |ts|
      invariant Wrote(old(target[..]), target[..], pos, next, EncodeTokens(ts[..i]))
    {
      NextPrefix(ts, i);
      var t := ts[i];
      ghost var now, at := target[..], next;
      next := WriteToken(target, next, t);
      WroteBoth(old(target[..]), now, target[..], pos, at, next, EncodeTokens(ts[..i]), EncodeToken(t));
      i := i + 1;
    }
    assert ts[..i] == ts;
  }

  lemma NextPrefix(ts: seq<Token>, i: nat)
    requires i < |ts|
    ensures EncodeTokens(ts[..i + 1]) == EncodeTokens(ts[..i]) + EncodeToken(ts[i])
    ensures |EncodeTokens(ts[..i + 1])| <= |EncodeTokens(ts)|
  {
    EncodeTokensSnoc(ts[..i], ts[i]);
    assert ts[..i + 1] == ts[..i] + [ts[i]];
    EncodeTokensAppend(ts[..i + 1], ts[i + 1..]);
    assert ts[..i + 1] + ts[i + 1..] == ts;
  }

  // ---------- The generated class ----------

  class Record {
    const schema: Schema
    var version: Int32
    var length: Int32
    var buffer: seq<Byte>
    var unknown: seq<Token>

    function Value(): Message
      reads this
    {
      Message(version, length, buffer, unknown)
    }

    constructor (schema: Schema)
      ensures this.schema == schema && Value() == EMPTY
      ensures version == 0 && length == 0 && buffer == [] && unknown == []
    {
      this.schema := schema;
      version, length, buffer, unknown := 0, 0, [], [];
    }

    method Clear()
      modifies this
      ensures Value() == EMPTY
      ensures version == 0 && length == 0 && buffer == [] && unknown == []
    {
      buffer := [];
      version, length := 0, 0;
      unknown := [];
    }

    method MergeFrom(from: Record)
      requires from != this
      modifies this
      ensures Value() == Merge(old(Value()), from.Value())
      ensures version == (if from.version != 0 then from.version else old(version))
      ensures length == (if from.length != 0 then from.length else old(length))
      ensures buffer == (if from.buffer != [] then from.buffer else old(buffer))
      ensures unknown == old(unknown) + from.unknown
    {
      if from.buffer != [] { buffer := from.buffer; }
      if from.version != 0 { version := from.version; }
      if from.length != 0 { length := from.length; }
      unknown := unknown + from.unknown;
    }

    method CopyFrom(from: Record)
      modifies this
      ensures Value() == old(from.Value())
    {
      if from == this { return; }
      Clear();
      MergeFrom(from);
      assert [] + from.unknown == from.unknown;
    }

    /** The three field cases of the parse loop: read the payload and assign the field. */
    method AssignField(input: seq<Byte>, ptr: nat, tag: nat) returns (good: bool, next: nat)
      requires ptr <= |input| && IsFieldTag(tag)
      modifies this
      ensures good <==> ReadPayload(tag / 8, tag % 8, input[ptr..]).Got?
      ensures good ==> var r := ReadPayload(tag / 8, tag % 8, input[ptr..]);
        && ptr <= next <= |input| && r.rest == input[next..]
        && schema.Knows(r.value) && Value() == SetField(schema, old(Value()), r.value)
      ensures Nearly(Value(), old(Value()))
    {
      if tag == schema.Number(Buffer) * 8 + 2 {
        BufferPayload(schema, Value(), tag, input[ptr..]);
        good, next := AssignBuffer(input, ptr);
      } else {
        Int32Payload(schema, Value(), tag, input[ptr..]);
        good, next := AssignInt32(input, ptr, tag / 8);
      }
    }

    method AssignBuffer(input: seq<Byte>, ptr: nat) returns (good: bool, next: nat)
      requires ptr <= |input|
      modifies this
      ensures good <==> ReadDelimited(input[ptr..]).Got?
      ensures good ==> ptr <= next <= |input| && ReadDelimited(input[ptr..]).rest == input[next..]
      ensures good ==> Value() == old(Value()).(buffer := ReadDelimited(input[ptr..]).value)
      ensures AllBut(Buffer, Value(), old(Value()))
    {
      var data;
      good, data, next := ReadDelimitedAt(input, ptr);
      if good { buffer := data; }
    }

    method AssignInt32(input: seq<Byte>, ptr: nat, number: nat) returns (good: bool, next: nat)
      requires ptr <= |input|
      modifies this
      ensures good <==> ReadVarint(input[ptr..], VALUE_BYTES).Got?
      ensures good ==> ptr <= next <= |input| && ReadVarint(input[ptr..], VALUE_BYTES).rest == input[next..]
      ensures good ==> var v := Narrow(ReadVarint(input[ptr..], VALUE_BYTES).value % TWO_TO_64);
        Value() == if number == schema.Number(Version) then old(Value()).(version := v)
                   else old(Value()).(length := v)
      ensures AllBut(if number == schema.Number(Version) then Version else Length, Value(), old(Value()))
    {
      var value;
      good, value, next := ReadInt32At(input, ptr);
      if number == schema.Number(Version) { version := value; } else { length := value; }
    }

    predicate IsFieldTag(tag: nat) {
      || tag == schema.Number(Version) * 8
      || tag == schema.Number(Length) * 8
      || tag == schema.Number(Buffer) * 8 + 2
    }

    /** One turn of the parse loop.  A field whose reading fails is assigned whatever the reader
        gives. */
    method ParseField(input: seq<Byte>, ptr: nat, open: seq<nat>) returns (good: bool, next: nat, nested: seq<nat>)
      requires ptr < |input|
      modifies this
      ensures good <==> Turn(schema, Parsing(old(Value()), open), input[ptr..]).Got?
      ensures good ==> ptr < next <= |input|
      ensures good ==>
        Turn(schema, Parsing(old(Value()), open), input[ptr..]) == Got(Parsing(Value(), nested), input[next..])
      ensures !good ==> Nearly(Value(), old(Value()))
    {
      ghost var p := Parsing(Value(), open);
      NearlySame(Value());
      var raw;
      good, raw, next := ReadVarintAt(input, ptr, TAG_BYTES);
      nested := open;
      if !good { return; }
      var tag := raw % TWO_TO_32;
      ghost var at := next;
      TurnAtTag(schema, p, input[ptr..], raw, input[at..]);
      if open == [] && IsFieldTag(tag) {
        good, next := AssignField(input, next, tag);
      } else if tag / 8 == 0 || (tag % 8 == 4 && open == []) {
        good := false;
      } else {
        var t;
        good, t, next := ReadUnknownAt(input, next, tag);
        if !good { return; }
        match Nest(open, t) {
          case None => good := false;
          case Some(o) => nested, unknown := o, unknown + [t];
        }
      }
    }

    /** The parse loop merges into the current value.  When it fails the fields read before stay
        assigned. */
    method InternalParse(input: seq<Byte>) returns (ok: bool)
      modifies this
      ensures ok <==> ParseInto(schema, old(Value()), input).Some?
      ensures ok ==> Value() == ParseInto(schema, old(Value()), input).value
      ensures !ok ==> Nearly(Value(), Reached(schema, Parsing(old(Value()), []), input).message)
    {
      var ptr: nat, open: seq<nat> := 0, [];
      while ptr < |input|
        invariant ptr <= |input|
        invariant ParseFrom(schema, Parsing(Value(), open), input[ptr..])
               == ParseFrom(schema, Parsing(old(Value()), []), input)
        invariant Reached(schema, Parsing(Value(), open), input[ptr..])
               == Reached(schema, Parsing(old(Value()), []), input)
      {
        TurnDecides(schema, Parsing(Value(), open), input[ptr..]);
        var good, next, nested := ParseField(input, ptr, open);
        if !good { return false; }
        ptr, open := next, nested;
      }
      NearlySame(Value());
      ok := open == [];
    }

    /** Total size of the encoding, as accumulated field by field. */
    method ByteSizeLong() returns (total: nat)
      ensures total == |Serialize(schema, Value())|
    {
      total := 0;
      if buffer != [] { total := total + 1 + VarintSize(|buffer| % TWO_TO_32) + |buffer|; }
      if version != 0 { total := total + 1 + VarintSize(SignExtend(version)); }
      if length != 0 { total := total + 1 + VarintSize(SignExtend(length)); }
      var i, fields := 0, total;
      while i < |unknown|
        invariant 0 <= i <= |unknown| && total == fields + TokensSize(unknown[..i])
      {
        assert unknown[..i + 1][..i] == unknown[..i];
        total := total + TokenSize(unknown[i]);
        i := i + 1;
      }
      assert unknown[..i] == unknown;
      SerializedSize(schema, Value());
    }

    method WriteSlot(target: array<Byte>, pos: nat, slot: Slot) returns (next: nat)
      requires pos + |EncodeTokens(SlotTokens(schema, Value(), slot))| <= target.Length
      modifies target
      ensures Wrote(old(target[..]), target[..], pos, next, EncodeTokens(SlotTokens(schema, Value(), slot)))
    {
      next := pos;
      var n := schema.Number(slot);
      match slot
      case Version => if version != 0 {
        next := WriteTokens(target, pos, [Varint(n, SignExtend(version))]);
      }
      case Length => if length != 0 {
        next := WriteTokens(target, pos, [Varint(n, SignExtend(length))]);
      }
      case Buffer => if buffer != [] {
        next := WriteTokens(target, pos, [Delimited(n, buffer)]);
      }
    }

    /** Fills exactly the size of the encoding and leaves the rest of the array alone. */
    method InternalSerialize(target: array<Byte>, pos: nat) returns (next: nat)
      requires pos + |Serialize(schema, Value())| <= target.Length
      modifies target
      ensures Wrote(old(target[..]), target[..], pos, next, Serialize(schema, Value()))
    {
      ghost var e1, e2, e3, e4 := SplitSerialized(schema, Value());
      ghost var s0 := target[..];
      next := WriteSlot(target, pos, schema.SlotOf(1));
      ghost var s1, n1 := target[..], next;
      next := WriteSlot(target, next, schema.SlotOf(2));
      ghost var s2, n2 := target[..], next;
      WroteBoth(s0, s1, s2, pos, n1, n2, e1, e2);
      next := WriteSlot(target, next, schema.SlotOf(3));
      ghost var s3, n3 := target[..], next;
      WroteBoth(s0, s2, s3, pos, n2, n3, e1 + e2, e3);
      next := WriteTokens(target, next, unknown);
      WroteBoth(s0, s3, target[..], pos, n3, next, e1 + e2 + e3, e4);
    }
  }

  lemma BufferPayload(schema: Schema, m: Message, tag: nat, bytes: seq<Byte>)
    requires tag == schema.Number(Buffer) * 8 + 2
    ensures var r, d := ReadPayload(tag / 8, tag % 8, bytes), ReadDelimited(bytes);
      && r.Got? == d.Got?
      && (r.Got? ==> r.rest == d.rest && schema.Knows(r.value)
                     && SetField(schema, m, r.value) == m.(buffer := d.value))
  {
    assert tag / 8 == schema.Number(Buffer) && tag % 8 == 2;
  }

  lemma Int32Payload(schema: Schema, m: Message, tag: nat, bytes: seq<Byte>)
    requires tag == schema.Number(Version) * 8 || tag == schema.Number(Length) * 8
    ensures var r, d := ReadPayload(tag / 8, tag % 8, bytes), ReadVarint(bytes, VALUE_BYTES);
      && r.Got? == d.Got?
      && (r.Got? ==>
            var v := Narrow(d.value % TWO_TO_64);
            && r.rest == d.rest && schema.Knows(r.value)
            && SetField(schema, m, r.value) == if tag / 8 == schema.Number(Version) then m.(version := v)
                                               else m.(length := v))
  {
    var n := if tag == schema.Number(Version) * 8 then schema.Number(Version) else schema.Number(Length);
    assert tag == n * 8 && tag / 8 == n && tag % 8 == 0;
  }

  lemma SplitSerialized(schema: Schema, m: Message)
    returns (e1: seq<Byte>, e2: seq<Byte>, e3: seq<Byte>, e4: seq<Byte>)
    ensures e1 == EncodeTokens(SlotTokens(schema, m, schema.SlotOf(1)))
    ensures e2 == EncodeTokens(SlotTokens(schema, m, schema.SlotOf(2)))
    ensures e3 == EncodeTokens(SlotTokens(schema, m, schema.SlotOf(3)))
    ensures e4 == EncodeTokens(m.unknown)
    ensures Serialize(schema, m) == e1 + e2 + e3 + e4
  {
    var t1, t2, t3 := SlotTokens(schema, m, schema.SlotOf(1)),
                      SlotTokens(schema, m, schema.SlotOf(2)),
                      SlotTokens(schema, m, schema.SlotOf(3));
    e1, e2, e3, e4 := EncodeTokens(t1), EncodeTokens(t2), EncodeTokens(t3), EncodeTokens(m.unknown);
    EncodeTokensAppend(t1 + t2 + t3, m.unknown);
    EncodeTokensAppend(t1 + t2, t3);
    EncodeTokensAppend(t1, t2);
  }

  lemma NearlySame(m: Message)
    ensures Nearly(m, m)
  {
    assert AllBut(Buffer, m, m);
  }

  lemma TurnAtTag(schema: Schema, p: Parsing, bytes: seq<Byte>, raw: nat, rest: seq<Byte>)
    requires ReadVarint(bytes, TAG_BYTES) == Got(raw, rest)
    ensures var tag := raw % TWO_TO_32;
      var payload := ReadPayload(tag / 8, tag % 8, rest);
      Turn(schema, p, bytes)
      == if tag / 8 == 0 || (tag % 8 == 4 && p.open == []) || payload.Malformed? then Malformed
         else
           var q := Accept(schema, p, payload.value);
           if q == None then Malformed else Got(q.value, payload.rest)
  {
  }

  /** The parser takes turns until one fails. */
  lemma TurnDecides(schema: Schema, p: Parsing, bytes: seq<Byte>)
    requires bytes != []
    ensures var r := Turn(schema, p, bytes);
      && ParseFrom(schema, p, bytes) == (if r.Got? then ParseFrom(schema, r.value, r.rest) else None)
      && Reached(schema, p, bytes) == (if r.Got? then Reached(schema, r.value, r.rest) else p)
  {
  }

  /** Reducing to 64 bits first does not change the low 32 bits, so the 32-bit and the
      64-bit readers assign the same value to an int32 field. */
  lemma NarrowWide(u: nat)
    ensures Narrow(u % TWO_TO_64) == Narrow(u)
  {
    var q := u / TWO_TO_64;
    assert u == u % TWO_TO_64 + q * TWO_TO_32 * TWO_TO_32;
    ModShift(u % TWO_TO_64, q * TWO_TO_32);
  }

  lemma ModShift(a: nat, k: nat)
    ensures (a + k * TWO_TO_32) % TWO_TO_32 == a % TWO_TO_32
  {
  }
}
