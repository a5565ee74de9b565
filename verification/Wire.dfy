/** The requests that accounts understand, and their encoding. */
module Wire {
  import opened Words
  import opened Borsh

  type Bytes6 = b: seq<Byte> | |b| == 6 witness seq(6, i => 0)
  type Bytes16 = b: seq<Byte> | |b| == 16 witness seq(16, i => 0)
  type Bytes20 = b: seq<Byte> | |b| == 20 witness seq(20, i => 0)
  type Bytes32 = b: seq<Byte> | |b| == 32 witness seq(32, i => 0)
  type Bytes64 = b: seq<Byte> | |b| == 64 witness seq(64, i => 0)
  type Long = n: int | 0 <= n < 0x1_0000_0000_0000_0000

  datatype Permit = Permit(asset: Byte, deadline: Long, v: Byte, r: Bytes32, s: Bytes32)

  datatype FromArgs = FromArgs(asset: Byte, toTake: Bytes32, maxUnspent: Bytes32)

  datatype SolveArgs = SolveArgs(permit: seq<Permit>, from: seq<FromArgs>, target: Bytes20, cd: seq<Byte>, msTs: Bytes16)

  datatype SolveArgsSigArgs = SolveArgsSigArgs(sig: Bytes64, args: SolveArgs)

  datatype SolveV2Args = SolveV2Args(args: seq<SolveArgs>, permitOwner: Bytes20, transferOwner: Bytes20)

  datatype TransferPermit = TransferPermit(deadline: Long, v: Byte, r: Bytes32, s: Bytes32)

  datatype Transfer = Transfer(from: Bytes20, asset: Byte, recipient: Bytes20, amt: Bytes32, permit: Option<TransferPermit>)

  datatype TransferOnlyArgs = TransferOnlyArgs(args: seq<Transfer>, msTs: Bytes16)

  datatype StatementArgs = StatementArgs(msg: seq<Byte>, msTs: Bytes6)

  datatype SolveV3Args = SolveV3Args(args: seq<SolveArgs>, gasToken: Byte, gasTokenAmt: Long, gasTokenPermit: Option<Permit>)

  datatype Args =
    | FreshBackwards(key: Bytes32, eoaAddr: Bytes20, v: Byte, r: Bytes32, s: Bytes32,
                     solveArgs: seq<SolveArgsSigArgs>, authority: Option<Bytes20>)
    | Solve(items: seq<SolveArgsSigArgs>)
    | Version
    | Authority
    | SolveV2(v2: SolveV2Args, sig: Bytes64)
    | TransferOnly(transfers: TransferOnlyArgs, sig: Bytes64)
    | Statement(statement: StatementArgs, sig: Bytes64)
    | Owner
    | Ed25519Key
    | SolveV3(v3: SolveV3Args, sig: Bytes64)
    | AssetsVersion

  /** What an account key signs: an item of a Solve, or one of the other payloads as a whole. */
  datatype Payload =
    | ItemPayload(item: SolveArgs)
    | V2Payload(v2: SolveV2Args)
    | V3Payload(v3: SolveV3Args)
    | TransferPayload(transfers: TransferOnlyArgs)
    | StatementPayload(statement: StatementArgs)

  // Structures by their fields.

  function Of1(a: Schema): (s: Schemas) { More(a, NoMore) }
  function Of2(a: Schema, b: Schema): (s: Schemas) { More(a, Of1(b)) }
  function Of3(a: Schema, b: Schema, c: Schema): (s: Schemas) { More(a, Of2(b, c)) }
  function Of4(a: Schema, b: Schema, c: Schema, d: Schema): (s: Schemas) { More(a, Of3(b, c, d)) }
  function Of5(a: Schema, b: Schema, c: Schema, d: Schema, e: Schema): (s: Schemas) { More(a, Of4(b, c, d, e)) }

  function In1(a: Value): (v: Values) { Cons(a, Nil) }
  function In2(a: Value, b: Value): (v: Values) { Cons(a, In1(b)) }
  function In3(a: Value, b: Value, c: Value): (v: Values) { Cons(a, In2(b, c)) }
  function In4(a: Value, b: Value, c: Value, d: Value): (v: Values) { Cons(a, In3(b, c, d)) }
  function In5(a: Value, b: Value, c: Value, d: Value, e: Value): (v: Values) { Cons(a, In4(b, c, d, e)) }

  lemma Peel(a: Schema, rest: Schemas, vs: Values)
    ensures EachTyped(More(a, rest), vs) <==> vs.Cons? && Typed(a, vs.head) && EachTyped(rest, vs.tail)
  {
  }

  lemma Each1(a: Schema, vs: Values)
    ensures EachTyped(Of1(a), vs) <==> vs.Cons? && vs == In1(vs.head) && Typed(a, vs.head)
  {
  }

  lemma Each2(a: Schema, b: Schema, vs: Values)
    ensures EachTyped(Of2(a, b), vs) <==>
            vs.Cons? && vs.tail.Cons? && vs == In2(vs.head, vs.tail.head) && Typed(a, vs.head) && Typed(b, vs.tail.head)
  {
    if vs.Cons? { Each1(b, vs.tail); }
  }

  lemma Each3(a: Schema, b: Schema, c: Schema, vs: Values)
    ensures EachTyped(Of3(a, b, c), vs) <==> vs.Cons? && Typed(a, vs.head) && EachTyped(Of2(b, c), vs.tail)
  {
  }

  lemma Each4(a: Schema, b: Schema, c: Schema, d: Schema, vs: Values)
    ensures EachTyped(Of4(a, b, c, d), vs) <==>
            (vs.Cons? && vs.tail.Cons? && Typed(a, vs.head) && Typed(b, vs.tail.head) && EachTyped(Of2(c, d), vs.tail.tail))
  {
    if vs.Cons? { Each3(b, c, d, vs.tail); }
  }

  lemma Each5(a: Schema, b: Schema, c: Schema, d: Schema, e: Schema, vs: Values)
    ensures EachTyped(Of5(a, b, c, d, e), vs) <==> vs.Cons? && Typed(a, vs.head) && EachTyped(Of4(b, c, d, e), vs.tail)
  {
  }

  // The Rust declarations, with `n` assets in the asset list, and what their values look like.

  function PermitSchema(n: nat): (s: Schema) { Struct(Of5(Tag(n), U64, U8, Fixed(32), Fixed(32))) }

  function PermitValue(p: Permit): (v: Value) {
    Record(In5(Num(p.asset), Num(p.deadline), Num(p.v), Raw(p.r), Raw(p.s)))
  }

  function ValuePermit(n: nat, v: Value): (p: Permit)
    requires Typed(PermitSchema(n), v)
    ensures PermitValue(p) == v
  {
    var vs := v.vs;
    Each5(Tag(n), U64, U8, Fixed(32), Fixed(32), vs);
    Each4(U64, U8, Fixed(32), Fixed(32), vs.tail);
    Each2(Fixed(32), Fixed(32), vs.tail.tail.tail);
    Permit(vs.head.n, vs.tail.head.n, vs.tail.tail.head.n, vs.tail.tail.tail.head.b, vs.tail.tail.tail.tail.head.b)
  }

  function FromSchema(n: nat): (s: Schema) { Struct(Of3(Tag(n), Fixed(32), Fixed(32))) }

  function FromValue(f: FromArgs): (v: Value) { Record(In3(Num(f.asset), Raw(f.toTake), Raw(f.maxUnspent))) }

  function ValueFrom(n: nat, v: Value): (f: FromArgs)
    requires Typed(FromSchema(n), v)
    ensures FromValue(f) == v
  {
    var vs := v.vs;
    Each3(Tag(n), Fixed(32), Fixed(32), vs);
    Each2(Fixed(32), Fixed(32), vs.tail);
    FromArgs(vs.head.n, vs.tail.head.b, vs.tail.tail.head.b)
  }

  function PermitsValue(ps: seq<Permit>): (vs: Values)
    ensures Count(vs) == |ps|
  {
    if ps == [] then Nil else Cons(PermitValue(ps[0]), PermitsValue(ps[1..]))
  }

  function ValuePermits(n: nat, vs: Values): (ps: seq<Permit>)
    requires AllTyped(PermitSchema(n), vs)
    ensures PermitsValue(ps) == vs
  {
    if vs.Nil? then [] else
      var rest := ValuePermits(n, vs.tail);
      var ps := [ValuePermit(n, vs.head)] + rest;
      assert ps[1..] == rest;
      ps
  }

  function FromsValue(fs: seq<FromArgs>): (vs: Values)
    ensures Count(vs) == |fs|
  {
    if fs == [] then Nil else Cons(FromValue(fs[0]), FromsValue(fs[1..]))
  }

  function ValueFroms(n: nat, vs: Values): (fs: seq<FromArgs>)
    requires AllTyped(FromSchema(n), vs)
    ensures FromsValue(fs) == vs
  {
    if vs.Nil? then [] else
      var rest := ValueFroms(n, vs.tail);
      var fs := [ValueFrom(n, vs.head)] + rest;
      assert fs[1..] == rest;
      fs
  }

  function SolveSchema(n: nat): (s: Schema) {
    Struct(Of5(Vec(PermitSchema(n)), Vec(FromSchema(n)), Fixed(20), Blob, Fixed(16)))
  }

  function SolveValue(a: SolveArgs): (v: Value) {
    Record(In5(Record(PermitsValue(a.permit)), Record(FromsValue(a.from)), Raw(a.target), Raw(a.cd), Raw(a.msTs)))
  }

  function ValueSolve(n: nat, v: Value): (a: SolveArgs)
    requires Typed(SolveSchema(n), v)
    ensures SolveValue(a) == v
  {
    var vs := v.vs;
    Each5(Vec(PermitSchema(n)), Vec(FromSchema(n)), Fixed(20), Blob, Fixed(16), vs);
    Each4(Vec(FromSchema(n)), Fixed(20), Blob, Fixed(16), vs.tail);
    Each2(Blob, Fixed(16), vs.tail.tail.tail);
    SolveArgs(ValuePermits(n, vs.head.vs), ValueFroms(n, vs.tail.head.vs), vs.tail.tail.head.b,
              vs.tail.tail.tail.head.b, vs.tail.tail.tail.tail.head.b)
  }

  function SolvesValue(xs: seq<SolveArgs>): (vs: Values)
    ensures Count(vs) == |xs|
  {
    if xs == [] then Nil else Cons(SolveValue(xs[0]), SolvesValue(xs[1..]))
  }

  function ValueSolves(n: nat, vs: Values): (xs: seq<SolveArgs>)
    requires AllTyped(SolveSchema(n), vs)
    ensures SolvesValue(xs) == vs
  {
    if vs.Nil? then [] else
      var rest := ValueSolves(n, vs.tail);
      var xs := [ValueSolve(n, vs.head)] + rest;
      assert xs[1..] == rest;
      xs
  }

  function SigArgsSchema(n: nat): (s: Schema) { Struct(Of2(Fixed(64), SolveSchema(n))) }

  function SigArgsValue(a: SolveArgsSigArgs): (v: Value) { Record(In2(Raw(a.sig), SolveValue(a.args))) }

  function ValueSigArgs(n: nat, v: Value): (a: SolveArgsSigArgs)
    requires Typed(SigArgsSchema(n), v)
    ensures SigArgsValue(a) == v
  {
    Each2(Fixed(64), SolveSchema(n), v.vs);
    SolveArgsSigArgs(v.vs.head.b, ValueSolve(n, v.vs.tail.head))
  }

  function ItemsValue(xs: seq<SolveArgsSigArgs>): (vs: Values)
    ensures Count(vs) == |xs|
  {
    if xs == [] then Nil else Cons(SigArgsValue(xs[0]), ItemsValue(xs[1..]))
  }

  function ValueItems(n: nat, vs: Values): (xs: seq<SolveArgsSigArgs>)
    requires AllTyped(SigArgsSchema(n), vs)
    ensures ItemsValue(xs) == vs
  {
    if vs.Nil? then [] else
      var rest := ValueItems(n, vs.tail);
      var xs := [ValueSigArgs(n, vs.head)] + rest;
      assert xs[1..] == rest;
      xs
  }

  function V2Schema(n: nat): (s: Schema) { Struct(Of3(Vec(SolveSchema(n)), Fixed(20), Fixed(20))) }

  function V2Value(a: SolveV2Args): (v: Value) {
    Record(In3(Record(SolvesValue(a.args)), Raw(a.permitOwner), Raw(a.transferOwner)))
  }

  function ValueV2(n: nat, v: Value): (a: SolveV2Args)
    requires Typed(V2Schema(n), v)
    ensures V2Value(a) == v
  {
    Each3(Vec(SolveSchema(n)), Fixed(20), Fixed(20), v.vs);
    Each2(Fixed(20), Fixed(20), v.vs.tail);
    SolveV2Args(ValueSolves(n, v.vs.head.vs), v.vs.tail.head.b, v.vs.tail.tail.head.b)
  }

  const TRANSFER_PERMIT: Schema := Struct(Of4(U64, U8, Fixed(32), Fixed(32)))

  function TransferPermitValue(p: TransferPermit): (v: Value) {
    Record(In4(Num(p.deadline), Num(p.v), Raw(p.r), Raw(p.s)))
  }

  function ValueTransferPermit(v: Value): (p: TransferPermit)
    requires Typed(TRANSFER_PERMIT, v)
    ensures TransferPermitValue(p) == v
  {
    var vs := v.vs;
    Each4(U64, U8, Fixed(32), Fixed(32), vs);
    Each2(Fixed(32), Fixed(32), vs.tail.tail);
    TransferPermit(vs.head.n, vs.tail.head.n, vs.tail.tail.head.b, vs.tail.tail.tail.head.b)
  }

  function TransferSchema(n: nat): (s: Schema) {
    Struct(Of5(Fixed(20), Tag(n), Fixed(20), Fixed(32), Opt(TRANSFER_PERMIT)))
  }

  function TransferValue(t: Transfer): (v: Value) {
    Record(In5(Raw(t.from), Num(t.asset), Raw(t.recipient), Raw(t.amt),
               if t.permit.None? then Absent else Present(TransferPermitValue(t.permit.value))))
  }

  function ValueTransfer(n: nat, v: Value): (t: Transfer)
    requires Typed(TransferSchema(n), v)
    ensures TransferValue(t) == v
  {
    var vs := v.vs;
    Each5(Fixed(20), Tag(n), Fixed(20), Fixed(32), Opt(TRANSFER_PERMIT), vs);
    Each4(Tag(n), Fixed(20), Fixed(32), Opt(TRANSFER_PERMIT), vs.tail);
    Each2(Fixed(32), Opt(TRANSFER_PERMIT), vs.tail.tail.tail);
    var p := vs.tail.tail.tail.tail.head;
    Transfer(vs.head.b, vs.tail.head.n, vs.tail.tail.head.b, vs.tail.tail.tail.head.b,
             if p.Absent? then None else Some(ValueTransferPermit(p.v)))
  }

  function TransfersValue(xs: seq<Transfer>): (vs: Values)
    ensures Count(vs) == |xs|
  {
    if xs == [] then Nil else Cons(TransferValue(xs[0]), TransfersValue(xs[1..]))
  }

  function ValueTransfers(n: nat, vs: Values): (xs: seq<Transfer>)
    requires AllTyped(TransferSchema(n), vs)
    ensures TransfersValue(xs) == vs
  {
    if vs.Nil? then [] else
      var rest := ValueTransfers(n, vs.tail);
      var xs := [ValueTransfer(n, vs.head)] + rest;
      assert xs[1..] == rest;
      xs
  }

  function TransferOnlySchema(n: nat): (s: Schema) { Struct(Of2(Vec(TransferSchema(n)), Fixed(16))) }

  function TransferOnlyValue(a: TransferOnlyArgs): (v: Value) { Record(In2(Record(TransfersValue(a.args)), Raw(a.msTs))) }

  function ValueTransferOnly(n: nat, v: Value): (a: TransferOnlyArgs)
    requires Typed(TransferOnlySchema(n), v)
    ensures TransferOnlyValue(a) == v
  {
    Each2(Vec(TransferSchema(n)), Fixed(16), v.vs);
    TransferOnlyArgs(ValueTransfers(n, v.vs.head.vs), v.vs.tail.head.b)
  }

  const STATEMENT: Schema := Struct(Of2(Blob, Fixed(6)))

  function StatementValue(a: StatementArgs): (v: Value) { Record(In2(Raw(a.msg), Raw(a.msTs))) }

  function ValueStatement(v: Value): (a: StatementArgs)
    requires Typed(STATEMENT, v)
    ensures StatementValue(a) == v
  {
    Each2(Blob, Fixed(6), v.vs);
    StatementArgs(v.vs.head.b, v.vs.tail.head.b)
  }

  function V3Schema(n: nat): (s: Schema) {
    Struct(Of4(Vec(SolveSchema(n)), Tag(n), U64, Opt(PermitSchema(n))))
  }

  function V3Value(a: SolveV3Args): (v: Value) {
    Record(In4(Record(SolvesValue(a.args)), Num(a.gasToken), Num(a.gasTokenAmt),
               if a.gasTokenPermit.None? then Absent else Present(PermitValue(a.gasTokenPermit.value))))
  }

  function ValueV3(n: nat, v: Value): (a: SolveV3Args)
    requires Typed(V3Schema(n), v)
    ensures V3Value(a) == v
  {
    var vs := v.vs;
    Each4(Vec(SolveSchema(n)), Tag(n), U64, Opt(PermitSchema(n)), vs);
    Each2(U64, Opt(PermitSchema(n)), vs.tail.tail);
    var p := vs.tail.tail.tail.head;
    SolveV3Args(ValueSolves(n, vs.head.vs), vs.tail.head.n, vs.tail.tail.head.n,
                if p.Absent? then None else Some(ValuePermit(n, p.v)))
  }

  function FreshSchema(n: nat): (s: Schema) {
    Struct(More(Fixed(32), More(Fixed(20), Of5(U8, Fixed(32), Fixed(32), Vec(SigArgsSchema(n)), Opt(Fixed(20))))))
  }

  function FreshValue(a: Args): (v: Value)
    requires a.FreshBackwards?
  {
    Record(Cons(Raw(a.key), Cons(Raw(a.eoaAddr), In5(Num(a.v), Raw(a.r), Raw(a.s), Record(ItemsValue(a.solveArgs)),
           if a.authority.None? then Absent else Present(Raw(a.authority.value))))))
  }

  function ValueFresh(n: nat, v: Value): (a: Args)
    requires Typed(FreshSchema(n), v)
    ensures a.FreshBackwards? && FreshValue(a) == v
  {
    Peel(Fixed(32), More(Fixed(20), Of5(U8, Fixed(32), Fixed(32), Vec(SigArgsSchema(n)), Opt(Fixed(20)))), v.vs);
    Peel(Fixed(20), Of5(U8, Fixed(32), Fixed(32), Vec(SigArgsSchema(n)), Opt(Fixed(20))), v.vs.tail);
    var vs := v.vs.tail.tail;
    Each5(U8, Fixed(32), Fixed(32), Vec(SigArgsSchema(n)), Opt(Fixed(20)), vs);
    Each4(Fixed(32), Fixed(32), Vec(SigArgsSchema(n)), Opt(Fixed(20)), vs.tail);
    Each2(Vec(SigArgsSchema(n)), Opt(Fixed(20)), vs.tail.tail.tail);
    var p := vs.tail.tail.tail.tail.head;
    FreshBackwards(v.vs.head.b, v.vs.tail.head.b, vs.head.n, vs.tail.head.b, vs.tail.tail.head.b,
                   ValueItems(n, vs.tail.tail.tail.head.vs), if p.Absent? then None else Some(p.v.b))
  }

  const UNIT: Schema := Struct(NoMore)

  function Five(a: Schema, b: Schema, c: Schema, d: Schema, e: Schema, rest: Schemas): (s: Schemas) {
    More(a, More(b, More(c, More(d, More(e, rest)))))
  }

  lemma FiveVariants(a: Schema, b: Schema, c: Schema, d: Schema, e: Schema, rest: Schemas, k: nat)
    ensures Length(Five(a, b, c, d, e, rest)) == 5 + Length(rest)
    ensures k < 5 + Length(rest) ==>
              Variant(Five(a, b, c, d, e, rest), k) ==
              (if k == 0 then a else if k == 1 then b else if k == 2 then c else if k == 3 then d else if k == 4 then e
               else Variant(rest, k - 5))
  {
    var two := More(c, More(d, More(e, rest)));
    var four := More(e, rest);
    assert Length(four) == 1 + Length(rest);
    assert Length(two) == 2 + Length(four);
    assert Length(Five(a, b, c, d, e, rest)) == 2 + Length(two);
    if 2 <= k < 5 + Length(rest) {
      assert Variant(Five(a, b, c, d, e, rest), k) == Variant(two, k - 2);
      if k >= 4 {
        assert Variant(two, k - 2) == Variant(four, k - 4);
        assert Variant(four, k - 4) == if k == 4 then e else Variant(rest, k - 5);
      } else {
        assert Variant(two, k - 2) == if k == 2 then c else d;
      }
    }
  }

  /** The request enumeration: the tag is the position of the variant. */
  function ArgsVariants(n: nat): (s: Schemas) {
    Five(FreshSchema(n), Struct(Of1(Vec(SigArgsSchema(n)))), UNIT, UNIT, Struct(Of2(V2Schema(n), Fixed(64))),
    Five(Struct(Of2(TransferOnlySchema(n), Fixed(64))), Struct(Of2(STATEMENT, Fixed(64))), UNIT, UNIT,
         Struct(Of2(V3Schema(n), Fixed(64))), Of1(UNIT)))
  }

  function ArgsSchema(n: nat): (s: Schema) { Enum(ArgsVariants(n)) }

  function VariantSchema(n: nat, tag: nat): (s: Schema) {
    match tag
    case 0 => FreshSchema(n)
    case 1 => Struct(Of1(Vec(SigArgsSchema(n))))
    case 4 => Struct(Of2(V2Schema(n), Fixed(64)))
    case 5 => Struct(Of2(TransferOnlySchema(n), Fixed(64)))
    case 6 => Struct(Of2(STATEMENT, Fixed(64)))
    case 9 => Struct(Of2(V3Schema(n), Fixed(64)))
    case _ => UNIT
  }

  lemma VariantIs(n: nat, tag: nat)
    ensures Length(ArgsVariants(n)) == 11
    ensures tag < 11 ==> Variant(ArgsVariants(n), tag) == VariantSchema(n, tag)
  {
    var last := Five(Struct(Of2(TransferOnlySchema(n), Fixed(64))), Struct(Of2(STATEMENT, Fixed(64))), UNIT, UNIT,
                     Struct(Of2(V3Schema(n), Fixed(64))), Of1(UNIT));
    assert Length(Of1(UNIT)) == 1;
    FiveVariants(FreshSchema(n), Struct(Of1(Vec(SigArgsSchema(n)))), UNIT, UNIT, Struct(Of2(V2Schema(n), Fixed(64))), last, tag);
    FiveVariants(Struct(Of2(TransferOnlySchema(n), Fixed(64))), Struct(Of2(STATEMENT, Fixed(64))), UNIT, UNIT,
                 Struct(Of2(V3Schema(n), Fixed(64))), Of1(UNIT), if tag < 5 then 0 else tag - 5);
  }

  function TagOf(a: Args): (tag: nat)
    ensures tag < 11
  {
    match a
    case FreshBackwards(_, _, _, _, _, _, _) => 0
    case Solve(_) => 1
    case Version => 2
    case Authority => 3
    case SolveV2(_, _) => 4
    case TransferOnly(_, _) => 5
    case Statement(_, _) => 6
    case Owner => 7
    case Ed25519Key => 8
    case SolveV3(_, _) => 9
    case AssetsVersion => 10
  }

  function BodyValue(a: Args): (v: Value) {
    match a
    case FreshBackwards(_, _, _, _, _, _, _) => FreshValue(a)
    case Solve(items) => Record(In1(Record(ItemsValue(items))))
    case SolveV2(args, sig) => Record(In2(V2Value(args), Raw(sig)))
    case TransferOnly(args, sig) => Record(In2(TransferOnlyValue(args), Raw(sig)))
    case Statement(args, sig) => Record(In2(StatementValue(args), Raw(sig)))
    case SolveV3(args, sig) => Record(In2(V3Value(args), Raw(sig)))
    case _ => Record(Nil)
  }

  function ArgsValue(a: Args): (v: Value) { Choice(TagOf(a), BodyValue(a)) }

  lemma ArgsTyped(n: nat, v: Value)
    ensures Typed(ArgsSchema(n), v) <==> v.Choice? && v.tag < 11 && Typed(VariantSchema(n, v.tag), v.v)
  {
    if v.Choice? { VariantIs(n, v.tag); }
    VariantIs(n, 0);
  }

  /** The two parts of a signed body. */
  function Signed(a: Schema, w: Value): (r: (Value, Bytes64))
    requires Typed(Struct(Of2(a, Fixed(64))), w)
    ensures w == Record(In2(r.0, Raw(r.1))) && Typed(a, r.0)
  {
    Each2(a, Fixed(64), w.vs);
    (w.vs.head, w.vs.tail.head.b)
  }

  function ValueBatch(n: nat, w: Value): (items: seq<SolveArgsSigArgs>)
    requires Typed(Struct(Of1(Vec(SigArgsSchema(n)))), w)
    ensures w == Record(In1(Record(ItemsValue(items))))
  {
    Each1(Vec(SigArgsSchema(n)), w.vs);
    ValueItems(n, w.vs.head.vs)
  }

  function ValueSignedBody(n: nat, tag: nat, w: Value): (a: Args)
    requires tag in {4, 5, 6, 9} && Typed(VariantSchema(n, tag), w)
    ensures TagOf(a) == tag && BodyValue(a) == w
  {
    match tag
    case 4 => var p := Signed(V2Schema(n), w); SolveV2(ValueV2(n, p.0), p.1)
    case 5 => var p := Signed(TransferOnlySchema(n), w); TransferOnly(ValueTransferOnly(n, p.0), p.1)
    case 6 => var p := Signed(STATEMENT, w); Statement(ValueStatement(p.0), p.1)
    case _ => var p := Signed(V3Schema(n), w); SolveV3(ValueV3(n, p.0), p.1)
  }

  function ValueBody(n: nat, tag: nat, w: Value): (a: Args)
    requires tag < 11 && Typed(VariantSchema(n, tag), w)
    ensures TagOf(a) == tag && BodyValue(a) == w
  {
    match tag
    case 0 => ValueFresh(n, w)
    case 1 => Solve(ValueBatch(n, w))
    case 2 => Version
    case 3 => Authority
    case 7 => Owner
    case 8 => Ed25519Key
    case 10 => AssetsVersion
    case _ => ValueSignedBody(n, tag, w)
  }

  function ValueArgs(n: nat, v: Value): (a: Args)
    requires Typed(ArgsSchema(n), v)
    ensures ArgsValue(a) == v
  {
    ArgsTyped(n, v);
    ValueBody(n, v.tag, v.v)
  }

  // Different data have different values.

  lemma {:induction false} PermitsInjective(a: seq<Permit>, b: seq<Permit>)
    requires PermitsValue(a) == PermitsValue(b)
    ensures a == b
  {
    if a != [] && b != [] { PermitsInjective(a[1..], b[1..]); }
  }

  lemma {:induction false} FromsInjective(a: seq<FromArgs>, b: seq<FromArgs>)
    requires FromsValue(a) == FromsValue(b)
    ensures a == b
  {
    if a != [] && b != [] { FromsInjective(a[1..], b[1..]); }
  }

  lemma SolveInjective(a: SolveArgs, b: SolveArgs)
    requires SolveValue(a) == SolveValue(b)
    ensures a == b
  {
    PermitsInjective(a.permit, b.permit);
    FromsInjective(a.from, b.from);
  }

  lemma {:induction false} SolvesInjective(a: seq<SolveArgs>, b: seq<SolveArgs>)
    requires SolvesValue(a) == SolvesValue(b)
    ensures a == b
  {
    if a != [] && b != [] {
      SolveInjective(a[0], b[0]);
      SolvesInjective(a[1..], b[1..]);
    }
  }

  lemma {:induction false} ItemsInjective(a: seq<SolveArgsSigArgs>, b: seq<SolveArgsSigArgs>)
    requires ItemsValue(a) == ItemsValue(b)
    ensures a == b
  {
    if a != [] && b != [] {
      SolveInjective(a[0].args, b[0].args);
      ItemsInjective(a[1..], b[1..]);
    }
  }

  lemma {:induction false} TransfersInjective(a: seq<Transfer>, b: seq<Transfer>)
    requires TransfersValue(a) == TransfersValue(b)
    ensures a == b
  {
    if a != [] && b != [] { TransfersInjective(a[1..], b[1..]); }
  }

  lemma ArgsInjective(a: Args, b: Args)
    requires ArgsValue(a) == ArgsValue(b)
    ensures a == b
  {
    match a
    case FreshBackwards(_, _, _, _, _, items, _) => ItemsInjective(items, b.solveArgs);
    case Solve(items) => ItemsInjective(items, b.items);
    case SolveV2(args, _) => SolvesInjective(args.args, b.v2.args);
    case TransferOnly(args, _) => TransfersInjective(args.args, b.transfers.args);
    case SolveV3(args, _) => SolvesInjective(args.args, b.v3.args);
    case _ =>
  }

  // The codec.

  const MAX_COUNT: nat := 0x1_0000_0000

  /** Every vector length fits its 32-bit count and every asset is on the list of `n` assets. */
  predicate SolveFits(n: nat, a: SolveArgs) {
    && |a.permit| < MAX_COUNT && |a.from| < MAX_COUNT && |a.cd| < MAX_COUNT
    && (forall p :: p in a.permit ==> p.asset < n)
    && (forall f :: f in a.from ==> f.asset < n)
  }

  predicate SolvesFit(n: nat, xs: seq<SolveArgs>) {
    |xs| < MAX_COUNT && forall x :: x in xs ==> SolveFits(n, x)
  }

  predicate ItemsFit(n: nat, xs: seq<SolveArgsSigArgs>) {
    |xs| < MAX_COUNT && forall x :: x in xs ==> SolveFits(n, x.args)
  }

  predicate TransfersFit(n: nat, xs: seq<Transfer>) {
    |xs| < MAX_COUNT && forall x :: x in xs ==> x.asset < n
  }

  predicate V3Fits(n: nat, a: SolveV3Args) {
    SolvesFit(n, a.args) && a.gasToken < n && (a.gasTokenPermit.Some? ==> a.gasTokenPermit.value.asset < n)
  }

  predicate ArgsFit(n: nat, a: Args) {
    match a
    case FreshBackwards(_, _, _, _, _, items, _) => ItemsFit(n, items)
    case Solve(items) => ItemsFit(n, items)
    case SolveV2(v2, _) => SolvesFit(n, v2.args)
    case TransferOnly(t, _) => TransfersFit(n, t.args)
    case Statement(st, _) => |st.msg| < MAX_COUNT
    case SolveV3(v3, _) => V3Fits(n, v3)
    case _ => true
  }

  lemma PermitTyped(n: nat, p: Permit)
    ensures Typed(PermitSchema(n), PermitValue(p)) <==> p.asset < n
  {
    var vs := PermitValue(p).vs;
    Each5(Tag(n), U64, U8, Fixed(32), Fixed(32), vs);
    Each4(U64, U8, Fixed(32), Fixed(32), vs.tail);
    Each2(Fixed(32), Fixed(32), vs.tail.tail.tail);
  }

  lemma {:induction false} PermitsTyped(n: nat, ps: seq<Permit>)
    ensures AllTyped(PermitSchema(n), PermitsValue(ps)) <==> forall p :: p in ps ==> p.asset < n
  {
    if ps != [] {
      PermitTyped(n, ps[0]);
      PermitsTyped(n, ps[1..]);
      assert forall p :: p in ps <==> p == ps[0] || p in ps[1..];
    }
  }

  lemma FromTyped(n: nat, f: FromArgs)
    ensures Typed(FromSchema(n), FromValue(f)) <==> f.asset < n
  {
    Each3(Tag(n), Fixed(32), Fixed(32), FromValue(f).vs);
    Each2(Fixed(32), Fixed(32), FromValue(f).vs.tail);
  }

  lemma {:induction false} FromsTyped(n: nat, fs: seq<FromArgs>)
    ensures AllTyped(FromSchema(n), FromsValue(fs)) <==> forall f :: f in fs ==> f.asset < n
  {
    if fs != [] {
      FromTyped(n, fs[0]);
      FromsTyped(n, fs[1..]);
      assert forall f :: f in fs <==> f == fs[0] || f in fs[1..];
    }
  }

  lemma SolveTyped(n: nat, a: SolveArgs)
    ensures Typed(SolveSchema(n), SolveValue(a)) <==> SolveFits(n, a)
  {
    var vs := SolveValue(a).vs;
    Each5(Vec(PermitSchema(n)), Vec(FromSchema(n)), Fixed(20), Blob, Fixed(16), vs);
    Each4(Vec(FromSchema(n)), Fixed(20), Blob, Fixed(16), vs.tail);
    Each2(Blob, Fixed(16), vs.tail.tail.tail);
    PermitsTyped(n, a.permit);
    FromsTyped(n, a.from);
  }

  lemma {:induction false} SolvesTyped(n: nat, xs: seq<SolveArgs>)
    ensures AllTyped(SolveSchema(n), SolvesValue(xs)) <==> forall x :: x in xs ==> SolveFits(n, x)
  {
    if xs != [] {
      SolveTyped(n, xs[0]);
      SolvesTyped(n, xs[1..]);
      assert forall x :: x in xs <==> x == xs[0] || x in xs[1..];
    }
  }

  lemma {:induction false} ItemsTyped(n: nat, xs: seq<SolveArgsSigArgs>)
    ensures AllTyped(SigArgsSchema(n), ItemsValue(xs)) <==> forall x :: x in xs ==> SolveFits(n, x.args)
  {
    if xs != [] {
      Each2(Fixed(64), SolveSchema(n), SigArgsValue(xs[0]).vs);
      SolveTyped(n, xs[0].args);
      ItemsTyped(n, xs[1..]);
      assert forall x :: x in xs <==> x == xs[0] || x in xs[1..];
    }
  }

  lemma TransferTyped(n: nat, t: Transfer)
    ensures Typed(TransferSchema(n), TransferValue(t)) <==> t.asset < n
  {
    var vs := TransferValue(t).vs;
    Each5(Fixed(20), Tag(n), Fixed(20), Fixed(32), Opt(TRANSFER_PERMIT), vs);
    Each4(Tag(n), Fixed(20), Fixed(32), Opt(TRANSFER_PERMIT), vs.tail);
    Each2(Fixed(32), Opt(TRANSFER_PERMIT), vs.tail.tail.tail);
    if t.permit.Some? {
      var ws := TransferPermitValue(t.permit.value).vs;
      Each4(U64, U8, Fixed(32), Fixed(32), ws);
      Each2(Fixed(32), Fixed(32), ws.tail.tail);
    }
  }

  lemma {:induction false} TransfersTyped(n: nat, xs: seq<Transfer>)
    ensures AllTyped(TransferSchema(n), TransfersValue(xs)) <==> forall x :: x in xs ==> x.asset < n
  {
    if xs != [] {
      TransferTyped(n, xs[0]);
      TransfersTyped(n, xs[1..]);
      assert forall x :: x in xs <==> x == xs[0] || x in xs[1..];
    }
  }

  lemma V2Typed(n: nat, a: SolveV2Args)
    ensures Typed(V2Schema(n), V2Value(a)) <==> SolvesFit(n, a.args)
  {
    Each3(Vec(SolveSchema(n)), Fixed(20), Fixed(20), V2Value(a).vs);
    Each2(Fixed(20), Fixed(20), V2Value(a).vs.tail);
    SolvesTyped(n, a.args);
  }

  lemma V3Typed(n: nat, a: SolveV3Args)
    ensures Typed(V3Schema(n), V3Value(a)) <==> V3Fits(n, a)
  {
    var vs := V3Value(a).vs;
    Each4(Vec(SolveSchema(n)), Tag(n), U64, Opt(PermitSchema(n)), vs);
    Each2(U64, Opt(PermitSchema(n)), vs.tail.tail);
    SolvesTyped(n, a.args);
    if a.gasTokenPermit.Some? { PermitTyped(n, a.gasTokenPermit.value); }
  }

  lemma TransferOnlyTyped(n: nat, a: TransferOnlyArgs)
    ensures Typed(TransferOnlySchema(n), TransferOnlyValue(a)) <==> TransfersFit(n, a.args)
  {
    Each2(Vec(TransferSchema(n)), Fixed(16), TransferOnlyValue(a).vs);
    TransfersTyped(n, a.args);
  }

  lemma FreshTyped(n: nat, a: Args)
    requires a.FreshBackwards?
    ensures Typed(FreshSchema(n), FreshValue(a)) <==> ItemsFit(n, a.solveArgs)
  {
    var tail := Of5(U8, Fixed(32), Fixed(32), Vec(SigArgsSchema(n)), Opt(Fixed(20)));
    var all := FreshValue(a).vs;
    Peel(Fixed(32), More(Fixed(20), tail), all);
    Peel(Fixed(20), tail, all.tail);
    var vs := all.tail.tail;
    Each5(U8, Fixed(32), Fixed(32), Vec(SigArgsSchema(n)), Opt(Fixed(20)), vs);
    Each4(Fixed(32), Fixed(32), Vec(SigArgsSchema(n)), Opt(Fixed(20)), vs.tail);
    Each2(Vec(SigArgsSchema(n)), Opt(Fixed(20)), vs.tail.tail.tail);
    ItemsTyped(n, a.solveArgs);
  }

  lemma SignedFitTyped(n: nat, a: Args)
    requires TagOf(a) in {4, 5, 6, 9}
    ensures Typed(VariantSchema(n, TagOf(a)), BodyValue(a)) <==> ArgsFit(n, a)
  {
    match a
    case SolveV2(v2, _) =>
      Each2(V2Schema(n), Fixed(64), BodyValue(a).vs);
      V2Typed(n, v2);
    case TransferOnly(t, _) =>
      Each2(TransferOnlySchema(n), Fixed(64), BodyValue(a).vs);
      TransferOnlyTyped(n, t);
    case Statement(st, _) =>
      Each2(STATEMENT, Fixed(64), BodyValue(a).vs);
      Each2(Blob, Fixed(6), StatementValue(st).vs);
    case SolveV3(v3, _) =>
      Each2(V3Schema(n), Fixed(64), BodyValue(a).vs);
      V3Typed(n, v3);
  }

  lemma BatchFitTyped(n: nat, a: Args)
    requires a.Solve?
    ensures Typed(VariantSchema(n, TagOf(a)), BodyValue(a)) <==> ArgsFit(n, a)
  {
    Each1(Vec(SigArgsSchema(n)), BodyValue(a).vs);
    ItemsTyped(n, a.items);
  }

  lemma UnitFitTyped(n: nat, a: Args)
    requires TagOf(a) in {2, 3, 7, 8, 10}
    ensures Typed(VariantSchema(n, TagOf(a)), BodyValue(a)) && ArgsFit(n, a)
  {
  }

  lemma ArgsFitTyped(n: nat, a: Args)
    ensures Typed(ArgsSchema(n), ArgsValue(a)) <==> ArgsFit(n, a)
  {
    ArgsTyped(n, ArgsValue(a));
    if a.FreshBackwards? {
      FreshTyped(n, a);
    } else if a.Solve? {
      BatchFitTyped(n, a);
    } else if TagOf(a) in {4, 5, 6, 9} {
      SignedFitTyped(n, a);
    } else {
      UnitFitTyped(n, a);
    }
  }

  function EncodeArgs(n: nat, a: Args): (b: seq<Byte>)
    requires ArgsFit(n, a)
  {
    ArgsFitTyped(n, a);
    Encode(ArgsSchema(n), ArgsValue(a))
  }

  /** A request from the front of `b`; what follows it is left over. */
  function DecodeArgs(n: nat, b: seq<Byte>): (r: Parsed<Args>) {
    match Decode(ArgsSchema(n), b)
    case Failed => Failed
    case Parsed(v, rest) =>
      EncodeDecode(ArgsSchema(n), b);
      Parsed(ValueArgs(n, v), rest)
  }

  /** Decoding an encoded request, whatever follows it, gives the request back. */
  lemma DecodeEncodeArgs(n: nat, a: Args, tail: seq<Byte>)
    requires ArgsFit(n, a)
    ensures DecodeArgs(n, EncodeArgs(n, a) + tail) == Parsed(a, tail)
  {
    ArgsFitTyped(n, a);
    DecodeEncode(ArgsSchema(n), ArgsValue(a), tail);
    ArgsInjective(a, ValueArgs(n, ArgsValue(a)));
  }

  /** Bytes that decode to a request are its only encoding, followed by what is left over. */
  lemma EncodeDecodeArgs(n: nat, b: seq<Byte>)
    requires DecodeArgs(n, b).Parsed?
    ensures ArgsFit(n, DecodeArgs(n, b).value)
    ensures EncodeArgs(n, DecodeArgs(n, b).value) + DecodeArgs(n, b).rest == b
  {
    EncodeDecode(ArgsSchema(n), b);
    ArgsFitTyped(n, DecodeArgs(n, b).value);
  }

  // The bytes an account key signs.

  function SolveBytes(n: nat, a: SolveArgs): (b: seq<Byte>)
    requires SolveFits(n, a)
  {
    SolveTyped(n, a);
    Encode(SolveSchema(n), SolveValue(a))
  }

  function V2Bytes(n: nat, a: SolveV2Args): (b: seq<Byte>)
    requires SolvesFit(n, a.args)
  {
    V2Typed(n, a);
    Encode(V2Schema(n), V2Value(a))
  }

  function V3Bytes(n: nat, a: SolveV3Args): (b: seq<Byte>)
    requires V3Fits(n, a)
  {
    V3Typed(n, a);
    Encode(V3Schema(n), V3Value(a))
  }

  function TransferOnlyBytes(n: nat, a: TransferOnlyArgs): (b: seq<Byte>)
    requires TransfersFit(n, a.args)
  {
    TransferOnlyTyped(n, a);
    Encode(TransferOnlySchema(n), TransferOnlyValue(a))
  }

  function StatementBytes(a: StatementArgs): (b: seq<Byte>)
    requires |a.msg| < MAX_COUNT
  {
    Each2(Blob, Fixed(6), StatementValue(a).vs);
    Encode(STATEMENT, StatementValue(a))
  }

  // Two payloads of the same kind never share their signed bytes.

  lemma SolveBytesDistinct(n: nat, a: SolveArgs, b: SolveArgs)
    requires SolveFits(n, a) && SolveFits(n, b) && SolveBytes(n, a) == SolveBytes(n, b)
    ensures a == b
  {
    SolveTyped(n, a);
    SolveTyped(n, b);
    EncodeInjective(SolveSchema(n), SolveValue(a), [], SolveValue(b), []);
    SolveInjective(a, b);
  }

  lemma V2BytesDistinct(n: nat, a: SolveV2Args, b: SolveV2Args)
    requires SolvesFit(n, a.args) && SolvesFit(n, b.args) && V2Bytes(n, a) == V2Bytes(n, b)
    ensures a == b
  {
    V2Typed(n, a);
    V2Typed(n, b);
    EncodeInjective(V2Schema(n), V2Value(a), [], V2Value(b), []);
    SolvesInjective(a.args, b.args);
  }

  lemma V3BytesDistinct(n: nat, a: SolveV3Args, b: SolveV3Args)
    requires V3Fits(n, a) && V3Fits(n, b) && V3Bytes(n, a) == V3Bytes(n, b)
    ensures a == b
  {
    V3Typed(n, a);
    V3Typed(n, b);
    EncodeInjective(V3Schema(n), V3Value(a), [], V3Value(b), []);
    SolvesInjective(a.args, b.args);
  }

  lemma TransferOnlyBytesDistinct(n: nat, a: TransferOnlyArgs, b: TransferOnlyArgs)
    requires TransfersFit(n, a.args) && TransfersFit(n, b.args) && TransferOnlyBytes(n, a) == TransferOnlyBytes(n, b)
    ensures a == b
  {
    TransferOnlyTyped(n, a);
    TransferOnlyTyped(n, b);
    EncodeInjective(TransferOnlySchema(n), TransferOnlyValue(a), [], TransferOnlyValue(b), []);
    TransfersInjective(a.args, b.args);
  }

  lemma StatementBytesDistinct(a: StatementArgs, b: StatementArgs)
    requires |a.msg| < MAX_COUNT && |b.msg| < MAX_COUNT && StatementBytes(a) == StatementBytes(b)
    ensures a == b
  {
    Each2(Blob, Fixed(6), StatementValue(a).vs);
    Each2(Blob, Fixed(6), StatementValue(b).vs);
    EncodeInjective(STATEMENT, StatementValue(a), [], StatementValue(b), []);
  }
}
