/** Payloads of different kinds under one key: exactly when their signed bytes are the same. */
module Kinds {
  import opened Words
  import opened Borsh
  import opened Wire
  import opened Layouts

  /** The kinds that are signed as bytes which do not name the kind. */
  datatype Kind = ItemKind | V2Kind | V3Kind | TransferKind

  predicate OfKind(p: Payload, k: Kind) {
    match k
    case ItemKind => p.ItemPayload?
    case V2Kind => p.V2Payload?
    case V3Kind => p.V3Payload?
    case TransferKind => p.TransferPayload?
  }

  predicate Fits(n: nat, p: Payload) {
    match p
    case ItemPayload(x) => SolveFits(n, x)
    case V2Payload(v) => SolvesFit(n, v.args)
    case V3Payload(v) => V3Fits(n, v)
    case TransferPayload(t) => TransfersFit(n, t.args)
    case StatementPayload(_) => false
  }

  function Bytes(n: nat, p: Payload): (b: seq<Byte>)
    requires Fits(n, p)
  {
    match p
    case ItemPayload(x) => SolveBytes(n, x)
    case V2Payload(v) => V2Bytes(n, v)
    case V3Payload(v) => V3Bytes(n, v)
    case TransferPayload(t) => TransferOnlyBytes(n, t)
  }

  // Reading bytes as a kind.

  function SchemaFor(n: nat, k: Kind): (s: Schema) {
    match k
    case ItemKind => SolveSchema(n)
    case V2Kind => V2Schema(n)
    case V3Kind => V3Schema(n)
    case TransferKind => TransferOnlySchema(n)
  }

  /** Do the bytes, to the last, decode as the kind? A check that whoever signs them can make. */
  predicate Parses(n: nat, b: seq<Byte>, k: Kind) {
    var r := Decode(SchemaFor(n, k), b);
    r.Parsed? && r.rest == []
  }

  /** Are the bytes those of some payload of the kind? */
  ghost predicate ReadsAs(n: nat, b: seq<Byte>, k: Kind) {
    exists p: Payload :: OfKind(p, k) && Fits(n, p) && Bytes(n, p) == b
  }

  lemma PayloadValue(n: nat, p: Payload, k: Kind) returns (v: Value)
    requires OfKind(p, k) && Fits(n, p)
    ensures Typed(SchemaFor(n, k), v) && Encode(SchemaFor(n, k), v) == Bytes(n, p)
  {
    match p
    case ItemPayload(x) =>
      v := SolveValue(x);
      SolveTyped(n, x);
    case V2Payload(x) =>
      v := V2Value(x);
      V2Typed(n, x);
    case V3Payload(x) =>
      v := V3Value(x);
      V3Typed(n, x);
    case TransferPayload(x) =>
      v := TransferOnlyValue(x);
      TransferOnlyTyped(n, x);
  }

  lemma ValuePayload(n: nat, k: Kind, v: Value) returns (p: Payload)
    requires Typed(SchemaFor(n, k), v)
    ensures OfKind(p, k) && Fits(n, p) && Bytes(n, p) == Encode(SchemaFor(n, k), v)
  {
    match k
    case ItemKind =>
      p := ItemPayload(ValueSolve(n, v));
      SolveTyped(n, p.item);
    case V2Kind =>
      p := V2Payload(ValueV2(n, v));
      V2Typed(n, p.v2);
    case V3Kind =>
      p := V3Payload(ValueV3(n, v));
      V3Typed(n, p.v3);
    case TransferKind =>
      p := TransferPayload(ValueTransferOnly(n, v));
      TransferOnlyTyped(n, p.transfers);
  }

  /** For every byte string and every kind: it is signed for a payload of that kind exactly when it decodes
      as one. So a signature for a payload of one kind serves for another exactly if the bytes decode there. */
  lemma ReadsAsParses(n: nat, b: seq<Byte>, k: Kind)
    ensures ReadsAs(n, b, k) <==> Parses(n, b, k)
  {
    var s := SchemaFor(n, k);
    if ReadsAs(n, b, k) {
      var p: Payload :| OfKind(p, k) && Fits(n, p) && Bytes(n, p) == b;
      var v := PayloadValue(n, p, k);
      DecodeEncode(s, v, []);
      assert b + [] == b;
    }
    if Parses(n, b, k) {
      EncodeDecode(s, b);
      var v := Decode(s, b).value;
      var p := ValuePayload(n, k, v);
      assert Encode(s, v) + [] == Encode(s, v);
    }
  }

  // What comes first.

  /** How many elements the vector at the front of the payload has. */
  function Leading(p: Payload): (n: nat) {
    match p
    case ItemPayload(x) => |x.permit|
    case V2Payload(v) => |v.args|
    case V3Payload(v) => |v.args|
    case TransferPayload(t) => |t.args|
    case StatementPayload(_) => 0
  }

  lemma LeadingCount(n: nat, p: Payload)
    requires Fits(n, p)
    ensures |Bytes(n, p)| >= 4 && Bytes(n, p)[..4] == LittleEndian(Leading(p), 4) && Leading(p) < MAX_COUNT
  {
    match p
    case ItemPayload(x) => ItemLayout(n, x);
    case V2Payload(v) => V2Layout(n, v);
    case V3Payload(v) => V3Layout(n, v);
    case TransferPayload(t) => BatchLayout(n, t);
  }

  /** Payloads of any kinds that share their bytes begin with vectors of the same length. */
  lemma SameLeading(n: nat, p: Payload, q: Payload)
    requires Fits(n, p) && Fits(n, q) && Bytes(n, p) == Bytes(n, q)
    ensures Leading(p) == Leading(q)
  {
    LeadingCount(n, p);
    LeadingCount(n, q);
    LengthWidths();
    LittleEndianBack(Leading(p), 4);
    LittleEndianBack(Leading(q), 4);
  }

  lemma MinimalSize(n: nat, p: Payload)
    requires Fits(n, p)
    ensures |Bytes(n, p)| >= 48 * Leading(p)
  {
    match p
    case ItemPayload(x) => ItemSize(n, x);
    case V2Payload(v) =>
      V2Layout(n, v);
      SolvesSize(n, v.args);
    case V3Payload(v) =>
      V3Layout(n, v);
      SolvesSize(n, v.args);
    case TransferPayload(t) => BatchSize(n, t);
  }

  // Pairs of kinds that never meet.

  /** Behind the same items, a SolveV2 has 40 bytes, and a SolveV3 has 10 or 84. */
  lemma V2NeverV3(n: nat, u: SolveV2Args, v: SolveV3Args)
    requires SolvesFit(n, u.args) && V3Fits(n, v)
    ensures V2Bytes(n, u) != V3Bytes(n, v)
  {
    V2Layout(n, u);
    V3Layout(n, v);
    VectorIs(SolveSchema(n), SolvesValue(u.args));
    VectorIs(SolveSchema(n), SolvesValue(v.args));
    var item := Vec(SolveSchema(n));
    var rest2 := u.permitOwner + u.transferOwner;
    var rest3 := [v.gasToken] + (LittleEndian(v.gasTokenAmt, 8) + GasPermitBytes(v.gasTokenPermit));
    assert V2Bytes(n, u) == Encode(item, Record(SolvesValue(u.args))) + rest2;
    assert V3Bytes(n, v) == Encode(item, Record(SolvesValue(v.args))) + rest3;
    DecodeEncode(item, Record(SolvesValue(u.args)), rest2);
    DecodeEncode(item, Record(SolvesValue(v.args)), rest3);
    assert |rest2| == 40;
    assert |rest3| == if v.gasTokenPermit.Some? then 84 else 10;
  }

  /** The size of a payload that has nothing in the vector at its front. */
  lemma EmptySize(n: nat, p: Payload)
    requires Fits(n, p) && Leading(p) == 0
    ensures match p
            case ItemPayload(x) => |Bytes(n, p)| == 48 + 65 * |x.from| + |x.cd|
            case V2Payload(_) => |Bytes(n, p)| == 44
            case V3Payload(v) => |Bytes(n, p)| == if v.gasTokenPermit.Some? then 88 else 14
            case TransferPayload(_) => |Bytes(n, p)| == 20
            case StatementPayload(_) => true
  {
    match p
    case ItemPayload(x) => ItemSize(n, x);
    case V2Payload(v) => V2Layout(n, v);
    case V3Payload(v) => V3Layout(n, v);
    case TransferPayload(t) => BatchSize(n, t);
  }

  /** An item and a batch of transfers that share their bytes have as many permits as transfers, and the
      transfers that carry a permit account for the rest of the item. So a batch in which no transfer
      carries a permit is never an item, and an item without permits is never a transfer batch. */
  lemma ItemOrTransfers(n: nat, x: SolveArgs, t: TransferOnlyArgs)
    requires SolveFits(n, x) && TransfersFit(n, t.args) && SolveBytes(n, x) == TransferOnlyBytes(n, t)
    ensures |x.permit| == |t.args| && 28 + 65 * |x.from| + |x.cd| == 73 * WithPermit(t.args)
    ensures 1 <= WithPermit(t.args) && 1 <= |x.permit|
  {
    SameLeading(n, ItemPayload(x), TransferPayload(t));
    ItemSize(n, x);
    BatchSize(n, t);
  }

  // Items without permits.

  /** Exactly when the bytes of an item without permits are those of a SolveV3: it pulls nothing either, it
      has 40 bytes of calldata, byte 5 of its target is 1, and byte 6 is an asset. */
  predicate LooksLikeGas(n: nat, x: SolveArgs) {
    x.from == [] && |x.cd| == 40 && x.target[5] == 1 && x.target[6] < n
  }

  lemma V3Bytes88(n: nat, v: SolveV3Args)
    requires V3Fits(n, v) && v.args == [] && v.gasTokenPermit.Some?
    ensures |V3Bytes(n, v)| == 88 && V3Bytes(n, v)[13] == 1 && V3Bytes(n, v)[14] == v.gasTokenPermit.value.asset
  {
    V3Layout(n, v);
  }

  lemma GasLooksLikeItem(n: nat, x: SolveArgs, v: SolveV3Args)
    requires SolveFits(n, x) && x.permit == [] && V3Fits(n, v) && SolveBytes(n, x) == V3Bytes(n, v)
    ensures LooksLikeGas(n, x)
  {
    SameLeading(n, ItemPayload(x), V3Payload(v));
    EmptySize(n, ItemPayload(x));
    EmptySize(n, V3Payload(v));
    BareItem(n, x);
    V3Bytes88(n, v);
    assert SolveBytes(n, x)[8..28] == x.target;
  }

  lemma ItemLooksLikeGas(n: nat, x: SolveArgs) returns (v: SolveV3Args)
    requires SolveFits(n, x) && x.permit == [] && LooksLikeGas(n, x)
    ensures V3Fits(n, v) && V3Bytes(n, v) == SolveBytes(n, x)
  {
    BareItem(n, x);
    var b := SolveBytes(n, x);
    LittleZero(4);
    assert b[..4] == LittleEndian(0, 4) && b[4] == 0;
    assert b[8..28] == x.target && b[13] == x.target[5] && b[14] == x.target[6];
    v := ReadV3Empty(n, b);
  }

  /** For every item without permits. */
  lemma BareItemAsV3(n: nat, x: SolveArgs)
    requires SolveFits(n, x) && x.permit == []
    ensures ReadsAs(n, SolveBytes(n, x), V3Kind) <==> LooksLikeGas(n, x)
  {
    if ReadsAs(n, SolveBytes(n, x), V3Kind) {
      var p: Payload :| OfKind(p, V3Kind) && Fits(n, p) && Bytes(n, p) == SolveBytes(n, x);
      GasLooksLikeItem(n, x, p.v3);
    }
    if LooksLikeGas(n, x) {
      var v := ItemLooksLikeGas(n, x);
      assert Bytes(n, V3Payload(v)) == SolveBytes(n, x);
    }
  }

  /** Payloads of different kinds with nothing in front share their bytes only as an item and a SolveV3. */
  lemma EmptyMeet(n: nat, p: Payload, q: Payload)
    requires Fits(n, p) && Fits(n, q) && Bytes(n, p) == Bytes(n, q) && Leading(p) == 0
    requires forall k :: !(OfKind(p, k) && OfKind(q, k))
    ensures (p.ItemPayload? && q.V3Payload? && LooksLikeGas(n, p.item)) || (p.V3Payload? && q.ItemPayload? && LooksLikeGas(n, q.item))
  {
    SameLeading(n, p, q);
    EmptySize(n, p);
    EmptySize(n, q);
    assert !(OfKind(p, ItemKind) && OfKind(q, ItemKind)) && !(OfKind(p, V2Kind) && OfKind(q, V2Kind));
    assert !(OfKind(p, V3Kind) && OfKind(q, V3Kind)) && !(OfKind(p, TransferKind) && OfKind(q, TransferKind));
    if p.ItemPayload? && q.V3Payload? { GasLooksLikeItem(n, p.item, q.v3); }
    if p.V3Payload? && q.ItemPayload? { GasLooksLikeItem(n, q.item, p.v3); }
  }

  // Payloads cut out of bytes.

  function Zeros(k: nat): (b: seq<Byte>)
    ensures |b| == k
  {
    seq<Byte>(k, i => 0)
  }

  lemma {:induction false} LittleZero(width: nat)
    ensures LittleEndian(0, width) == Zeros(width)
  {
    if width > 0 {
      LittleZero(width - 1);
      assert Zeros(width) == [0] + Zeros(width - 1);
    }
  }

  lemma LittleSmall(v: Byte, width: nat)
    requires width > 0
    ensures LittleEndian(v, width) == [v] + Zeros(width - 1)
  {
    LittleZero(width - 1);
  }

  lemma Inner(b: seq<Byte>, from: nat, end: nat, i: nat, j: nat)
    requires from + i <= from + j <= end <= |b|
    ensures b[from..end][i..j] == b[from + i..from + j]
  {
    var s, t := b[from..end][i..j], b[from + i..from + j];
    assert |s| == |t|;
    forall m | 0 <= m < |s| ensures s[m] == t[m] {
      assert s[m] == b[from..end][i + m] == b[from + i + m];
    }
  }

  lemma Cut(b: seq<Byte>, i: nat, j: nat, k: nat)
    requires i <= j <= k <= |b|
    ensures b[i..k] == b[i..j] + b[j..k]
  {
  }

  lemma ReadLong(b: seq<Byte>) returns (v: Long)
    requires |b| == 8
    ensures LittleEndian(v, 8) == b
  {
    LengthWidths();
    LittleEndianForth(b);
    v := FromLittleEndian(b);
  }

  lemma ReadPermit(n: nat, b: seq<Byte>) returns (p: Permit)
    requires |b| == 74 && b[0] < n
    ensures p.asset < n && b == [p.asset] + (LittleEndian(p.deadline, 8) + ([p.v] + (p.r + p.s)))
  {
    var deadline := ReadLong(b[1..9]);
    p := Permit(b[0], deadline, b[9], b[10..42], b[42..]);
  }

  lemma ReadV3Empty(n: nat, b: seq<Byte>) returns (v: SolveV3Args)
    requires |b| == 88 && b[..4] == LittleEndian(0, 4) && b[4] < n && b[13] == 1 && b[14] < n
    ensures V3Fits(n, v) && V3Bytes(n, v) == b
  {
    var amt := ReadLong(b[5..13]);
    var p := ReadPermit(n, b[14..]);
    v := SolveV3Args([], b[4], amt, Some(p));
    V3Layout(n, v);
    assert EncodeAll(SolveSchema(n), SolvesValue(v.args)) == [];
    GasParts(b);
  }

  lemma GasParts(b: seq<Byte>)
    requires |b| == 88
    ensures b == (b[..4] + []) + ([b[4]] + (b[5..13] + ([b[13]] + b[14..])))
  {
    Cut(b, 13, 14, 88);
    Cut(b, 5, 13, 88);
    Cut(b, 4, 5, 88);
    Cut(b, 0, 4, 88);
  }

  /** An item without permits or pulls. */
  lemma ReadBareItem(n: nat, b: seq<Byte>) returns (x: SolveArgs)
    requires 48 <= |b| < MAX_COUNT && b[..4] == b[4..8] == LittleEndian(0, 4) && b[28..32] == LittleEndian(|b| - 48, 4)
    ensures SolveFits(n, x) && SolveBytes(n, x) == b
  {
    var end := |b| - 16;
    x := SolveArgs([], [], b[8..28], b[32..end], b[end..]);
    BareItem(n, x);
    ItemParts(b, 4, end);
    Cut(b, 0, 4, |b|);
  }

  /** What follows the permits of an item without pulls. */
  lemma ItemParts(b: seq<Byte>, at: nat, end: nat)
    requires at + 28 <= end <= |b|
    ensures b[at..] == b[at..at + 4] + (b[at + 4..at + 24] + ((b[at + 24..at + 28] + b[at + 28..end]) + b[end..]))
  {
    Cut(b, at + 24, at + 28, end);
    Cut(b, at + 24, end, |b|);
    Cut(b, at + 4, at + 24, |b|);
    Cut(b, at, at + 4, |b|);
  }

  lemma ItemSplit(b: seq<Byte>, end: nat)
    requires 106 <= end <= |b|
    ensures b == (b[..4] + b[4..78]) + (b[78..82] + (b[82..102] + ((b[102..106] + b[106..end]) + b[end..])))
  {
    ItemParts(b, 78, end);
    Cut(b, 0, 4, 78);
    Cut(b, 0, 78, |b|);
  }

  /** An item with one permit and no pulls. */
  lemma ReadItem(n: nat, b: seq<Byte>) returns (x: SolveArgs)
    requires 122 <= |b| < MAX_COUNT && b[..4] == LittleEndian(1, 4) && b[4] < n
    requires b[78..82] == LittleEndian(0, 4) && b[102..106] == LittleEndian(|b| - 122, 4)
    ensures SolveFits(n, x) && SolveBytes(n, x) == b
  {
    var end := |b| - 16;
    var p := ReadPermit(n, b[4..78]);
    x := SolveArgs([p], [], b[82..102], b[106..end], b[end..]);
    SingleItem(n, x);
    PermitLayout(n, p);
    ItemSplit(b, end);
  }

  /** A SolveV2 of one item without permits or pulls. */
  lemma ReadV2(n: nat, b: seq<Byte>) returns (v: SolveV2Args)
    requires 92 <= |b| < MAX_COUNT && b[..4] == LittleEndian(1, 4)
    requires b[4..8] == b[8..12] == LittleEndian(0, 4) && b[32..36] == LittleEndian(|b| - 92, 4)
    ensures SolvesFit(n, v.args) && V2Bytes(n, v) == b
  {
    var end := |b| - 40;
    var inner := b[4..end];
    Inner(b, 4, end, 0, 4);
    Inner(b, 4, end, 4, 8);
    Inner(b, 4, end, 28, 32);
    var x := ReadBareItem(n, inner);
    v := SolveV2Args([x], b[end..end + 20], b[end + 20..]);
    V2Layout(n, v);
    SingleSolve(n, v.args);
    Cut(b, 0, 4, end);
    Cut(b, end, end + 20, |b|);
    Cut(b, 0, end, |b|);
  }

  lemma V3Parts(b: seq<Byte>, end: nat)
    requires 4 <= end && end + 10 == |b|
    ensures b == (b[..4] + b[4..end]) + ([b[end]] + (b[end + 1..end + 9] + [b[end + 9]]))
  {
    Cut(b, 0, 4, end);
    Cut(b, end + 1, end + 9, |b|);
    Cut(b, end, end + 1, |b|);
    Cut(b, 0, end, |b|);
  }

  /** A SolveV3 of one item without permits or pulls, and without a permit for gas. */
  lemma ReadV3(n: nat, b: seq<Byte>) returns (v: SolveV3Args)
    requires 62 <= |b| < MAX_COUNT && b[..4] == LittleEndian(1, 4)
    requires b[4..8] == b[8..12] == LittleEndian(0, 4) && b[32..36] == LittleEndian(|b| - 62, 4)
    requires b[|b| - 10] < n && b[|b| - 1] == 0
    ensures V3Fits(n, v) && V3Bytes(n, v) == b
  {
    var end := |b| - 10;
    var inner := b[4..end];
    Inner(b, 4, end, 0, 4);
    Inner(b, 4, end, 4, 8);
    Inner(b, 4, end, 28, 32);
    var x := ReadBareItem(n, inner);
    var amt := ReadLong(b[end + 1..end + 9]);
    v := SolveV3Args([x], b[end], amt, None);
    V3Layout(n, v);
    SingleSolve(n, v.args);
    V3Parts(b, end);
  }

  /** One transfer with a given optional permit. */
  lemma TransferFrom(n: nat, b: seq<Byte>, permit: Option<TransferPermit>) returns (t: TransferOnlyArgs)
    requires |b| >= 94 && b[..4] == LittleEndian(1, 4) && b[24] < n && b[77..|b| - 16] == OptionalBytes(permit)
    ensures TransfersFit(n, t.args) && TransferOnlyBytes(n, t) == b
  {
    var end := |b| - 16;
    t := TransferOnlyArgs([Transfer(b[4..24], b[24], b[25..45], b[45..77], permit)], b[end..]);
    SingleTransfer(n, t);
    TransferLayout(n, t.args[0]);
    TransferParts(b, end);
  }

  lemma TransferParts(b: seq<Byte>, end: nat)
    requires 78 <= end <= |b|
    ensures b == (b[..4] + (b[4..24] + ([b[24]] + (b[25..45] + (b[45..77] + b[77..end]))))) + b[end..]
  {
    Cut(b, 45, 77, end);
    Cut(b, 25, 45, end);
    Cut(b, 24, 25, end);
    Cut(b, 4, 24, end);
    Cut(b, 0, 4, end);
    Cut(b, 0, end, |b|);
  }

  lemma ReadTransferPermit(b: seq<Byte>) returns (p: TransferPermit)
    requires |b| == 74 && b[0] == 1
    ensures b == OptionalBytes(Some(p))
  {
    var deadline := ReadLong(b[1..9]);
    p := TransferPermit(deadline, b[9], b[10..42], b[42..]);
    assert b == [b[0]] + (b[1..9] + ([b[9]] + (b[10..42] + b[42..])));
  }

  /** One transfer, with a permit or without. */
  lemma ReadTransfer(n: nat, b: seq<Byte>) returns (t: TransferOnlyArgs)
    requires |b| >= 94 && b[..4] == LittleEndian(1, 4) && b[24] < n
    requires (|b| == 94 && b[77] == 0) || (|b| == 167 && b[77] == 1)
    ensures TransfersFit(n, t.args) && TransferOnlyBytes(n, t) == b
  {
    if |b| == 167 {
      var p := ReadTransferPermit(b[77..151]);
      t := TransferFrom(n, b, Some(p));
    } else {
      assert b[77..78] == [0];
      t := TransferFrom(n, b, None);
    }
  }

  // Which kinds meet.

  /** Zeros but for some marks. */
  function Marked(size: nat, marks: map<nat, Byte>): (b: seq<Byte>)
    ensures |b| == size
  {
    seq<Byte>(size, i requires 0 <= i < size => if i in marks then marks[i] else 0)
  }

  lemma MarkedCount(size: nat, marks: map<nat, Byte>, at: nat, v: Byte)
    requires at + 4 <= size && (if at in marks then marks[at] == v else v == 0)
    requires forall i :: at < i < at + 4 ==> i !in marks
    ensures Marked(size, marks)[at..at + 4] == LittleEndian(v, 4)
  {
    LittleSmall(v, 4);
  }

  /** Bytes that are both. */
  ghost predicate Both(n: nat, b: seq<Byte>, j: Kind, k: Kind) {
    ReadsAs(n, b, j) && ReadsAs(n, b, k)
  }

  /** 167 bytes that are an item and a transfer with a permit. */
  lemma ItemTransfer(n: nat)
    requires n >= 1
    ensures Both(n, Marked(167, map[0 := 1, 77 := 1, 102 := 45]), ItemKind, TransferKind)
  {
    var marks: map<nat, Byte> := map[0 := 1, 77 := 1, 102 := 45];
    var b := Marked(167, marks);
    MarkedCount(167, marks, 0, 1);
    MarkedCount(167, marks, 78, 0);
    MarkedCount(167, marks, 102, 45);
    var x := ReadItem(n, b);
    var t := ReadTransfer(n, b);
    assert Bytes(n, ItemPayload(x)) == b && Bytes(n, TransferPayload(t)) == b;
  }

  /** 88 bytes that are an item which moves no tokens and a SolveV3 which only pays for gas. */
  lemma ItemV3(n: nat)
    requires n >= 1
    ensures Both(n, Marked(88, map[13 := 1, 28 := 40]), ItemKind, V3Kind)
  {
    var marks: map<nat, Byte> := map[13 := 1, 28 := 40];
    var b := Marked(88, marks);
    MarkedCount(88, marks, 0, 0);
    MarkedCount(88, marks, 4, 0);
    MarkedCount(88, marks, 28, 40);
    var x := ReadBareItem(n, b);
    var v := ReadV3Empty(n, b);
    assert Bytes(n, ItemPayload(x)) == b && Bytes(n, V3Payload(v)) == b;
  }

  lemma ItemV2(n: nat)
    requires n >= 1
    ensures Both(n, Marked(122, map[0 := 1, 32 := 30]), ItemKind, V2Kind)
  {
    var marks: map<nat, Byte> := map[0 := 1, 32 := 30];
    var b := Marked(122, marks);
    MarkedCount(122, marks, 0, 1);
    MarkedCount(122, marks, 4, 0);
    MarkedCount(122, marks, 8, 0);
    MarkedCount(122, marks, 32, 30);
    MarkedCount(122, marks, 78, 0);
    MarkedCount(122, marks, 102, 0);
    var x := ReadItem(n, b);
    var v := ReadV2(n, b);
    assert Bytes(n, ItemPayload(x)) == b && Bytes(n, V2Payload(v)) == b;
  }

  lemma V2Transfer(n: nat)
    requires n >= 1
    ensures Both(n, Marked(94, map[0 := 1, 32 := 2]), V2Kind, TransferKind)
  {
    var marks: map<nat, Byte> := map[0 := 1, 32 := 2];
    var b := Marked(94, marks);
    MarkedCount(94, marks, 0, 1);
    MarkedCount(94, marks, 4, 0);
    MarkedCount(94, marks, 8, 0);
    MarkedCount(94, marks, 32, 2);
    var v := ReadV2(n, b);
    var t := ReadTransfer(n, b);
    assert Bytes(n, V2Payload(v)) == b && Bytes(n, TransferPayload(t)) == b;
  }

  lemma V3Transfer(n: nat)
    requires n >= 1
    ensures Both(n, Marked(94, map[0 := 1, 32 := 32]), V3Kind, TransferKind)
  {
    var marks: map<nat, Byte> := map[0 := 1, 32 := 32];
    var b := Marked(94, marks);
    MarkedCount(94, marks, 0, 1);
    MarkedCount(94, marks, 4, 0);
    MarkedCount(94, marks, 8, 0);
    MarkedCount(94, marks, 32, 32);
    var v := ReadV3(n, b);
    var t := ReadTransfer(n, b);
    assert Bytes(n, V3Payload(v)) == b && Bytes(n, TransferPayload(t)) == b;
  }

  lemma FirstIn<T>(s: seq<T>)
    ensures s == [] || s[0] in s
  {
  }

  /** Without assets only a SolveV2 has anything in front. */
  lemma NoAssets(p: Payload)
    requires Fits(0, p)
    ensures Leading(p) == 0 || p.V2Payload?
  {
    match p
    case ItemPayload(x) => FirstIn(x.permit);
    case TransferPayload(t) => FirstIn(t.args);
    case _ =>
  }

  lemma MeetingNeedsAssets(n: nat, p: Payload, q: Payload)
    requires Fits(n, p) && Fits(n, q) && Bytes(n, p) == Bytes(n, q)
    requires forall k :: !(OfKind(p, k) && OfKind(q, k))
    ensures n >= 1
  {
    SameLeading(n, p, q);
    assert !(OfKind(p, V2Kind) && OfKind(q, V2Kind));
    if Leading(p) == 0 {
      EmptyMeet(n, p, q);
    } else if n == 0 {
      NoAssets(p);
      NoAssets(q);
      assert false;
    }
  }

  /** Exactly the kinds, other than equal ones, of which some payloads share their bytes: all pairs but
      SolveV2 and SolveV3, and none if there are no assets. */
  lemma KindsMeet(n: nat, j: Kind, k: Kind)
    requires j != k
    ensures (exists b :: Both(n, b, j, k)) <==> n >= 1 && {j, k} != {V2Kind, V3Kind}
  {
    if n >= 1 && {j, k} != {V2Kind, V3Kind} {
      var b := SomeMeeting(n, j, k);
    }
    if b :| Both(n, b, j, k) {
      NoMeeting(n, b, j, k);
    }
  }

  lemma SomeMeeting(n: nat, j: Kind, k: Kind) returns (b: seq<Byte>)
    requires n >= 1 && j != k && {j, k} != {V2Kind, V3Kind}
    ensures Both(n, b, j, k)
  {
    if {j, k} == {ItemKind, TransferKind} {
      b := Marked(167, map[0 := 1, 77 := 1, 102 := 45]);
      ItemTransfer(n);
    } else if {j, k} == {ItemKind, V3Kind} {
      b := Marked(88, map[13 := 1, 28 := 40]);
      ItemV3(n);
    } else if {j, k} == {ItemKind, V2Kind} {
      b := Marked(122, map[0 := 1, 32 := 30]);
      ItemV2(n);
    } else if {j, k} == {V2Kind, TransferKind} {
      b := Marked(94, map[0 := 1, 32 := 2]);
      V2Transfer(n);
    } else {
      b := Marked(94, map[0 := 1, 32 := 32]);
      V3Transfer(n);
      assert {j, k} == {V3Kind, TransferKind};
    }
  }

  lemma NoMeeting(n: nat, b: seq<Byte>, j: Kind, k: Kind)
    requires j != k && Both(n, b, j, k)
    ensures n >= 1 && {j, k} != {V2Kind, V3Kind}
  {
    var p: Payload :| OfKind(p, j) && Fits(n, p) && Bytes(n, p) == b;
    var q: Payload :| OfKind(q, k) && Fits(n, q) && Bytes(n, q) == b;
    if p.V2Payload? && q.V3Payload? { V2NeverV3(n, p.v2, q.v3); }
    if p.V3Payload? && q.V2Payload? { V2NeverV3(n, q.v2, p.v3); }
    MeetingNeedsAssets(n, p, q);
  }
}
