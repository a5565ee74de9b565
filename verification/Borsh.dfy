/** The Borsh wire format, for every schema: decoding inverts encoding, and encoding inverts decoding. */
module Borsh {
  import opened Words

  /** Shapes of data. `Tag(n)` is a fieldless enumeration of `n` cases, `Blob` a vector of bytes. */
  datatype Schema =
    | U8 | U64 | Tag(limit: nat) | Fixed(size: nat) | Blob
    | Vec(item: Schema) | Opt(item: Schema) | Struct(fields: Schemas) | Enum(variants: Schemas)

  datatype Schemas = NoMore | More(first: Schema, rest: Schemas)

  datatype Value =
    | Num(n: nat) | Raw(b: seq<Byte>) | Absent | Present(v: Value)
    | Record(vs: Values) | Choice(tag: nat, v: Value)

  datatype Values = Nil | Cons(head: Value, tail: Values)

  function Count(vs: Values): (n: nat) {
    match vs
    case Nil => 0
    case Cons(_, t) => 1 + Count(t)
  }

  function Length(ss: Schemas): (n: nat) {
    match ss
    case NoMore => 0
    case More(_, t) => 1 + Length(t)
  }

  /** The `k`-th variant of an enumeration. */
  function Variant(ss: Schemas, k: nat): (s: Schema)
    requires k < Length(ss)
    ensures s < ss
  {
    if k == 0 then ss.first else Variant(ss.rest, k - 1)
  }

  predicate Typed(s: Schema, v: Value)
    decreases s, 0
  {
    match s
    case U8 => v.Num? && v.n < 0x100
    case U64 => v.Num? && v.n < 0x1_0000_0000_0000_0000
    case Tag(limit) => v.Num? && v.n < limit && v.n < 0x100
    case Fixed(size) => v.Raw? && |v.b| == size
    case Blob => v.Raw? && |v.b| < 0x1_0000_0000
    case Vec(item) => v.Record? && Count(v.vs) < 0x1_0000_0000 && AllTyped(item, v.vs)
    case Opt(item) => v.Absent? || (v.Present? && Typed(item, v.v))
    case Struct(fields) => v.Record? && EachTyped(fields, v.vs)
    case Enum(variants) => v.Choice? && v.tag < Length(variants) && v.tag < 0x100 && Typed(Variant(variants, v.tag), v.v)
  }

  predicate AllTyped(item: Schema, vs: Values)
    decreases item, 1, vs
  {
    vs.Cons? ==> Typed(item, vs.head) && AllTyped(item, vs.tail)
  }

  predicate EachTyped(fields: Schemas, vs: Values)
    decreases fields, 0
  {
    match fields
    case NoMore => vs.Nil?
    case More(s, rest) => vs.Cons? && Typed(s, vs.head) && EachTyped(rest, vs.tail)
  }

  /** Integers are little-endian. */
  function LittleEndian(n: nat, width: nat): (b: seq<Byte>)
    ensures |b| == width
    decreases width, n
  {
    if width == 0 then [] else [n % 256] + LittleEndian(n / 256, width - 1)
  }

  /** The bytes of a big-endian number in the opposite order. */
  lemma {:induction false} LittleEndianAt(n: nat, width: nat, i: nat)
    requires i < width
    ensures LittleEndian(n, width)[i] == BytesOf(n, width)[width - 1 - i]
    decreases i
  {
    BytesOfStep(n, width);
    if i > 0 { LittleEndianAt(n / 256, width - 1, i - 1); }
  }

  function FromLittleEndian(b: seq<Byte>): (n: nat) {
    if b == [] then 0 else b[0] + 256 * FromLittleEndian(b[1..])
  }

  function Encode(s: Schema, v: Value): (b: seq<Byte>)
    requires Typed(s, v)
    decreases s, 0
  {
    match s
    case U8 => [v.n]
    case U64 => LittleEndian(v.n, 8)
    case Tag(_) => [v.n]
    case Fixed(_) => v.b
    case Blob => LittleEndian(|v.b|, 4) + v.b
    case Vec(item) => LittleEndian(Count(v.vs), 4) + EncodeAll(item, v.vs)
    case Opt(item) => if v.Absent? then [0] else [1] + Encode(item, v.v)
    case Struct(fields) => EncodeEach(fields, v.vs)
    case Enum(variants) => [v.tag] + Encode(Variant(variants, v.tag), v.v)
  }

  function EncodeAll(item: Schema, vs: Values): (b: seq<Byte>)
    requires AllTyped(item, vs)
    decreases item, 1, vs
  {
    if vs.Nil? then [] else Encode(item, vs.head) + EncodeAll(item, vs.tail)
  }

  function EncodeEach(fields: Schemas, vs: Values): (b: seq<Byte>)
    requires EachTyped(fields, vs)
    decreases fields, 0
  {
    match fields
    case NoMore => []
    case More(s, rest) => Encode(s, vs.head) + EncodeEach(rest, vs.tail)
  }

  /** A decoded value and the bytes after it. */
  datatype Parsed<+T> = Failed | Parsed(value: T, rest: seq<Byte>)

  function Decode(s: Schema, b: seq<Byte>): (r: Parsed<Value>)
    decreases s, 0
  {
    match s
    case U8 => if |b| < 1 then Failed else Parsed(Num(b[0]), b[1..])
    case U64 => if |b| < 8 then Failed else Parsed(Num(FromLittleEndian(b[..8])), b[8..])
    case Tag(limit) => if |b| < 1 || b[0] >= limit then Failed else Parsed(Num(b[0]), b[1..])
    case Fixed(size) => if |b| < size then Failed else Parsed(Raw(b[..size]), b[size..])
    case Blob =>
      if |b| < 4 then Failed else
        var n := FromLittleEndian(b[..4]);
        if |b| < 4 + n then Failed else Parsed(Raw(b[4..4 + n]), b[4 + n..])
    case Vec(item) =>
      if |b| < 4 then Failed else
        (match DecodeAll(item, FromLittleEndian(b[..4]), b[4..])
         case Failed => Failed
         case Parsed(vs, rest) => Parsed(Record(vs), rest))
    case Opt(item) =>
      if |b| < 1 then Failed
      else if b[0] == 0 then Parsed(Absent, b[1..])
      else if b[0] == 1 then
        match Decode(item, b[1..])
        case Failed => Failed
        case Parsed(v, rest) => Parsed(Present(v), rest)
      else Failed
    case Struct(fields) =>
      (match DecodeEach(fields, b)
       case Failed => Failed
       case Parsed(vs, rest) => Parsed(Record(vs), rest))
    case Enum(variants) =>
      if |b| < 1 || b[0] >= Length(variants) then Failed else
        match Decode(Variant(variants, b[0]), b[1..])
        case Failed => Failed
        case Parsed(v, rest) => Parsed(Choice(b[0], v), rest)
  }

  function DecodeAll(item: Schema, n: nat, b: seq<Byte>): (r: Parsed<Values>)
    decreases item, 1, n
  {
    if n == 0 then Parsed(Nil, b) else
      match Decode(item, b)
      case Failed => Failed
      case Parsed(v, rest) =>
        match DecodeAll(item, n - 1, rest)
        case Failed => Failed
        case Parsed(vs, end) => Parsed(Cons(v, vs), end)
  }

  function DecodeEach(fields: Schemas, b: seq<Byte>): (r: Parsed<Values>)
    decreases fields, 0
  {
    match fields
    case NoMore => Parsed(Nil, b)
    case More(s, more) =>
      match Decode(s, b)
      case Failed => Failed
      case Parsed(v, rest) =>
        match DecodeEach(more, rest)
        case Failed => Failed
        case Parsed(vs, end) => Parsed(Cons(v, vs), end)
  }

  lemma {:induction false} LittleEndianBack(n: nat, width: nat)
    requires n < Pow256(width)
    ensures FromLittleEndian(LittleEndian(n, width)) == n
    decreases width
  {
    if width > 0 {
      LittleEndianBack(n / 256, width - 1);
      assert LittleEndian(n, width)[1..] == LittleEndian(n / 256, width - 1);
    }
  }

  lemma {:induction false} LittleEndianForth(b: seq<Byte>)
    ensures FromLittleEndian(b) < Pow256(|b|)
    ensures LittleEndian(FromLittleEndian(b), |b|) == b
    decreases |b|
  {
    if b != [] {
      LittleEndianForth(b[1..]);
      var n, rest := FromLittleEndian(b), FromLittleEndian(b[1..]);
      assert n / 256 == rest && n % 256 == b[0];
      assert LittleEndian(n, |b|) == [b[0]] + LittleEndian(rest, |b| - 1);
    }
  }

  lemma LengthWidths()
    ensures Pow256(4) == 0x1_0000_0000 && Pow256(8) == 0x1_0000_0000_0000_0000
  {
    Pow256Four(0);
    Pow256Four(4);
  }

  lemma Front(x: seq<Byte>, y: seq<Byte>)
    ensures (x + y)[..|x|] == x && (x + y)[|x|..] == y
  {
  }

  lemma Assoc(x: seq<Byte>, y: seq<Byte>, z: seq<Byte>)
    ensures (x + y) + z == x + (y + z)
  {
  }

  /** Decoding what was encoded gives it back, whatever follows. */
  lemma {:induction false} DecodeEncode(s: Schema, v: Value, tail: seq<Byte>)
    requires Typed(s, v)
    ensures Decode(s, Encode(s, v) + tail) == Parsed(v, tail)
    decreases s, 0
  {
    LengthWidths();
    var b := Encode(s, v) + tail;
    Front(Encode(s, v), tail);
    match s
    case U8 =>
    case U64 => LittleEndianBack(v.n, 8);
    case Tag(_) =>
    case Fixed(_) =>
    case Blob =>
      LittleEndianBack(|v.b|, 4);
      Assoc(LittleEndian(|v.b|, 4), v.b, tail);
      Front(LittleEndian(|v.b|, 4), v.b + tail);
      assert b[4..4 + |v.b|] == v.b && b[4 + |v.b|..] == tail;
    case Vec(item) =>
      var n := LittleEndian(Count(v.vs), 4);
      LittleEndianBack(Count(v.vs), 4);
      Assoc(n, EncodeAll(item, v.vs), tail);
      Front(n, EncodeAll(item, v.vs) + tail);
      DecodeEncodeAll(item, v.vs, tail);
    case Opt(item) =>
      if v.Present? {
        Assoc([1], Encode(item, v.v), tail);
        Front([1], Encode(item, v.v) + tail);
        DecodeEncode(item, v.v, tail);
      }
    case Struct(fields) => DecodeEncodeEach(fields, v.vs, tail);
    case Enum(variants) =>
      var w := Variant(variants, v.tag);
      Assoc([v.tag], Encode(w, v.v), tail);
      Front([v.tag], Encode(w, v.v) + tail);
      DecodeEncode(w, v.v, tail);
  }

  lemma {:induction false} DecodeEncodeAll(item: Schema, vs: Values, tail: seq<Byte>)
    requires AllTyped(item, vs)
    ensures DecodeAll(item, Count(vs), EncodeAll(item, vs) + tail) == Parsed(vs, tail)
    decreases item, 1, vs
  {
    if vs.Cons? {
      var rest := EncodeAll(item, vs.tail) + tail;
      Assoc(Encode(item, vs.head), EncodeAll(item, vs.tail), tail);
      DecodeEncode(item, vs.head, rest);
      DecodeEncodeAll(item, vs.tail, tail);
    }
  }

  lemma {:induction false} DecodeEncodeEach(fields: Schemas, vs: Values, tail: seq<Byte>)
    requires EachTyped(fields, vs)
    ensures DecodeEach(fields, EncodeEach(fields, vs) + tail) == Parsed(vs, tail)
    decreases fields, 0
  {
    match fields
    case NoMore =>
    case More(s, more) =>
      var rest := EncodeEach(more, vs.tail) + tail;
      Assoc(Encode(s, vs.head), EncodeEach(more, vs.tail), tail);
      DecodeEncode(s, vs.head, rest);
      DecodeEncodeEach(more, vs.tail, tail);
  }

  /** Bytes that decode are the encoding of what they decode to, followed by what is left. */
  lemma {:induction false} EncodeDecode(s: Schema, b: seq<Byte>)
    requires Decode(s, b).Parsed?
    ensures Typed(s, Decode(s, b).value)
    ensures Encode(s, Decode(s, b).value) + Decode(s, b).rest == b
    decreases s, 0
  {
    match s
    case U8 =>
    case U64 => EncodeDecodeLong(b);
    case Tag(_) =>
    case Fixed(_) =>
    case Blob => EncodeDecodeBlob(b);
    case Vec(item) => EncodeDecodeVec(item, b);
    case Opt(item) => EncodeDecodeOpt(item, b);
    case Struct(fields) => EncodeDecodeEach(fields, b);
    case Enum(variants) => EncodeDecodeEnum(variants, b);
  }

  lemma EncodeDecodeLong(b: seq<Byte>)
    requires Decode(U64, b).Parsed?
    ensures Typed(U64, Decode(U64, b).value)
    ensures Encode(U64, Decode(U64, b).value) + Decode(U64, b).rest == b
  {
    LengthWidths();
    LittleEndianForth(b[..8]);
  }

  lemma EncodeDecodeBlob(b: seq<Byte>)
    requires Decode(Blob, b).Parsed?
    ensures Typed(Blob, Decode(Blob, b).value)
    ensures Encode(Blob, Decode(Blob, b).value) + Decode(Blob, b).rest == b
  {
    LengthWidths();
    LittleEndianForth(b[..4]);
    var n := FromLittleEndian(b[..4]);
    Assoc(b[..4], b[4..4 + n], b[4 + n..]);
    assert b[4..4 + n] + b[4 + n..] == b[4..];
  }

  lemma {:induction false} EncodeDecodeVec(item: Schema, b: seq<Byte>)
    requires Decode(Vec(item), b).Parsed?
    ensures Typed(Vec(item), Decode(Vec(item), b).value)
    ensures Encode(Vec(item), Decode(Vec(item), b).value) + Decode(Vec(item), b).rest == b
    decreases item, 2
  {
    LengthWidths();
    LittleEndianForth(b[..4]);
    EncodeDecodeAll(item, FromLittleEndian(b[..4]), b[4..]);
    var r := DecodeAll(item, FromLittleEndian(b[..4]), b[4..]);
    Assoc(b[..4], EncodeAll(item, r.value), r.rest);
  }

  lemma {:induction false} EncodeDecodeOpt(item: Schema, b: seq<Byte>)
    requires Decode(Opt(item), b).Parsed?
    ensures Typed(Opt(item), Decode(Opt(item), b).value)
    ensures Encode(Opt(item), Decode(Opt(item), b).value) + Decode(Opt(item), b).rest == b
    decreases item, 2
  {
    if b[0] == 1 {
      EncodeDecode(item, b[1..]);
      Assoc([1], Encode(item, Decode(item, b[1..]).value), Decode(item, b[1..]).rest);
    }
  }

  lemma {:induction false} EncodeDecodeEnum(variants: Schemas, b: seq<Byte>)
    requires Decode(Enum(variants), b).Parsed?
    ensures Typed(Enum(variants), Decode(Enum(variants), b).value)
    ensures Encode(Enum(variants), Decode(Enum(variants), b).value) + Decode(Enum(variants), b).rest == b
    decreases variants, 2
  {
    var w := Variant(variants, b[0]);
    EncodeDecode(w, b[1..]);
    Assoc([b[0]], Encode(w, Decode(w, b[1..]).value), Decode(w, b[1..]).rest);
  }

  lemma {:induction false} EncodeDecodeAll(item: Schema, n: nat, b: seq<Byte>)
    requires DecodeAll(item, n, b).Parsed?
    ensures var r := DecodeAll(item, n, b);
            Count(r.value) == n && AllTyped(item, r.value) && EncodeAll(item, r.value) + r.rest == b
    decreases item, 1, n
  {
    if n > 0 {
      EncodeDecode(item, b);
      var h := Decode(item, b);
      EncodeDecodeAll(item, n - 1, h.rest);
      var t := DecodeAll(item, n - 1, h.rest);
      Assoc(Encode(item, h.value), EncodeAll(item, t.value), t.rest);
    }
  }

  lemma {:induction false} EncodeDecodeEach(fields: Schemas, b: seq<Byte>)
    requires DecodeEach(fields, b).Parsed?
    ensures var r := DecodeEach(fields, b);
            EachTyped(fields, r.value) && EncodeEach(fields, r.value) + r.rest == b
    decreases fields, 0
  {
    match fields
    case NoMore =>
    case More(s, more) =>
      EncodeDecode(s, b);
      var h := Decode(s, b);
      EncodeDecodeEach(more, h.rest);
      var t := DecodeEach(more, h.rest);
      Assoc(Encode(s, h.value), EncodeEach(more, t.value), t.rest);
  }

  /** No two values of a schema share an encoding, nor is one a proper prefix of the other. */
  lemma EncodeInjective(s: Schema, v: Value, x: seq<Byte>, w: Value, y: seq<Byte>)
    requires Typed(s, v) && Typed(s, w) && Encode(s, v) + x == Encode(s, w) + y
    ensures v == w && x == y
  {
    DecodeEncode(s, v, x);
    DecodeEncode(s, w, y);
  }
}
