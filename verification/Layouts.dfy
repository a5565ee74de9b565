/** Payloads in bytes, field by field. */
module Layouts {
  import opened Words
  import opened Borsh
  import opened Wire

  // Structures, field by field.

  lemma StructIs(fields: Schemas, vs: Values)
    requires EachTyped(fields, vs)
    ensures Typed(Struct(fields), Record(vs)) && Encode(Struct(fields), Record(vs)) == EncodeEach(fields, vs)
  {
  }

  lemma Field(s: Schema, v: Value, rest: Schemas, vs: Values)
    requires Typed(s, v) && EachTyped(rest, vs)
    ensures EachTyped(More(s, rest), Cons(v, vs))
    ensures EncodeEach(More(s, rest), Cons(v, vs)) == Encode(s, v) + EncodeEach(rest, vs)
  {
  }

  lemma FirstField(s: Schema, v: Value, rest: Schemas, vs: Values, all: Schemas, us: Values)
    requires all == More(s, rest) && us == Cons(v, vs) && Typed(s, v) && EachTyped(rest, vs)
    ensures EachTyped(all, us) && EncodeEach(all, us) == Encode(s, v) + EncodeEach(rest, vs)
  {
  }

  lemma Fields2(a: Schema, u: Value, b: Schema, v: Value)
    requires Typed(a, u) && Typed(b, v)
    ensures EachTyped(Of2(a, b), In2(u, v)) && EncodeEach(Of2(a, b), In2(u, v)) == Encode(a, u) + Encode(b, v)
  {
    Field(b, v, NoMore, Nil);
    Field(a, u, Of1(b), In1(v));
    assert Encode(b, v) + [] == Encode(b, v);
  }

  lemma Fields4(a: Schema, u: Value, b: Schema, v: Value, c: Schema, x: Value, d: Schema, y: Value)
    requires Typed(a, u) && Typed(b, v) && Typed(c, x) && Typed(d, y)
    ensures EachTyped(Of4(a, b, c, d), In4(u, v, x, y))
    ensures EncodeEach(Of4(a, b, c, d), In4(u, v, x, y)) == Encode(a, u) + (Encode(b, v) + (Encode(c, x) + Encode(d, y)))
  {
    Fields2(c, x, d, y);
    Field(b, v, Of2(c, d), In2(x, y));
    Field(a, u, Of3(b, c, d), In3(v, x, y));
  }

  lemma Fields5(a: Schema, u: Value, b: Schema, v: Value, c: Schema, x: Value, d: Schema, y: Value, e: Schema, z: Value)
    requires Typed(a, u) && Typed(b, v) && Typed(c, x) && Typed(d, y) && Typed(e, z)
    ensures EachTyped(Of5(a, b, c, d, e), In5(u, v, x, y, z))
    ensures EncodeEach(Of5(a, b, c, d, e), In5(u, v, x, y, z)) ==
            Encode(a, u) + (Encode(b, v) + (Encode(c, x) + (Encode(d, y) + Encode(e, z))))
  {
    Fields4(b, v, c, x, d, y, e, z);
    FirstField(a, u, Of4(b, c, d, e), In4(v, x, y, z), Of5(a, b, c, d, e), In5(u, v, x, y, z));
  }

  lemma VectorIs(item: Schema, vs: Values)
    requires AllTyped(item, vs) && Count(vs) < MAX_COUNT
    ensures Typed(Vec(item), Record(vs))
    ensures Encode(Vec(item), Record(vs)) == LittleEndian(Count(vs), 4) + EncodeAll(item, vs)
  {
  }

  // The layouts.

  lemma PermitLayout(n: nat, p: Permit)
    requires p.asset < n
    ensures Typed(PermitSchema(n), PermitValue(p))
    ensures Encode(PermitSchema(n), PermitValue(p)) == [p.asset] + (LittleEndian(p.deadline, 8) + ([p.v] + (p.r + p.s)))
  {
    Fields5(Tag(n), Num(p.asset), U64, Num(p.deadline), U8, Num(p.v), Fixed(32), Raw(p.r), Fixed(32), Raw(p.s));
    StructIs(Of5(Tag(n), U64, U8, Fixed(32), Fixed(32)), PermitValue(p).vs);
  }

  lemma FromLayout(n: nat, f: FromArgs)
    requires f.asset < n
    ensures Typed(FromSchema(n), FromValue(f))
    ensures Encode(FromSchema(n), FromValue(f)) == [f.asset] + (f.toTake + f.maxUnspent)
  {
    Fields2(Fixed(32), Raw(f.toTake), Fixed(32), Raw(f.maxUnspent));
    Field(Tag(n), Num(f.asset), Of2(Fixed(32), Fixed(32)), In2(Raw(f.toTake), Raw(f.maxUnspent)));
    StructIs(Of3(Tag(n), Fixed(32), Fixed(32)), FromValue(f).vs);
  }

  lemma TransferPermitLayout(p: TransferPermit)
    ensures Typed(TRANSFER_PERMIT, TransferPermitValue(p))
    ensures Encode(TRANSFER_PERMIT, TransferPermitValue(p)) == LittleEndian(p.deadline, 8) + ([p.v] + (p.r + p.s))
  {
    Fields4(U64, Num(p.deadline), U8, Num(p.v), Fixed(32), Raw(p.r), Fixed(32), Raw(p.s));
    StructIs(Of4(U64, U8, Fixed(32), Fixed(32)), TransferPermitValue(p).vs);
  }

  /** The optional permit of a transfer, in bytes. */
  function OptionalBytes(p: Option<TransferPermit>): (b: seq<Byte>) {
    match p
    case None => [0]
    case Some(q) => [1] + (LittleEndian(q.deadline, 8) + ([q.v] + (q.r + q.s)))
  }

  lemma TransferLayout(n: nat, t: Transfer)
    requires t.asset < n
    ensures Typed(TransferSchema(n), TransferValue(t))
    ensures Encode(TransferSchema(n), TransferValue(t)) ==
            t.from + ([t.asset] + (t.recipient + (t.amt + OptionalBytes(t.permit))))
  {
    if t.permit.Some? { TransferPermitLayout(t.permit.value); }
    var permit := if t.permit.None? then Absent else Present(TransferPermitValue(t.permit.value));
    assert Typed(Opt(TRANSFER_PERMIT), permit) && Encode(Opt(TRANSFER_PERMIT), permit) == OptionalBytes(t.permit);
    Fields5(Fixed(20), Raw(t.from), Tag(n), Num(t.asset), Fixed(20), Raw(t.recipient), Fixed(32), Raw(t.amt),
            Opt(TRANSFER_PERMIT), permit);
    StructIs(Of5(Fixed(20), Tag(n), Fixed(20), Fixed(32), Opt(TRANSFER_PERMIT)), TransferValue(t).vs);
  }

  lemma ItemLayout(n: nat, x: SolveArgs)
    requires SolveFits(n, x)
    ensures AllTyped(PermitSchema(n), PermitsValue(x.permit)) && AllTyped(FromSchema(n), FromsValue(x.from))
    ensures SolveBytes(n, x) ==
            (LittleEndian(|x.permit|, 4) + EncodeAll(PermitSchema(n), PermitsValue(x.permit))) +
            ((LittleEndian(|x.from|, 4) + EncodeAll(FromSchema(n), FromsValue(x.from))) +
            (x.target + ((LittleEndian(|x.cd|, 4) + x.cd) + x.msTs)))
  {
    PermitsTyped(n, x.permit);
    FromsTyped(n, x.from);
    VectorIs(PermitSchema(n), PermitsValue(x.permit));
    VectorIs(FromSchema(n), FromsValue(x.from));
    Fields5(Vec(PermitSchema(n)), Record(PermitsValue(x.permit)), Vec(FromSchema(n)), Record(FromsValue(x.from)),
            Fixed(20), Raw(x.target), Blob, Raw(x.cd), Fixed(16), Raw(x.msTs));
    StructIs(Of5(Vec(PermitSchema(n)), Vec(FromSchema(n)), Fixed(20), Blob, Fixed(16)), SolveValue(x).vs);
  }

  lemma BatchLayout(n: nat, t: TransferOnlyArgs)
    requires TransfersFit(n, t.args)
    ensures AllTyped(TransferSchema(n), TransfersValue(t.args))
    ensures TransferOnlyBytes(n, t) ==
            (LittleEndian(|t.args|, 4) + EncodeAll(TransferSchema(n), TransfersValue(t.args))) + t.msTs
  {
    TransfersTyped(n, t.args);
    VectorIs(TransferSchema(n), TransfersValue(t.args));
    Fields2(Vec(TransferSchema(n)), Record(TransfersValue(t.args)), Fixed(16), Raw(t.msTs));
    StructIs(Of2(Vec(TransferSchema(n)), Fixed(16)), TransferOnlyValue(t).vs);
  }

  lemma V2Layout(n: nat, v: SolveV2Args)
    requires SolvesFit(n, v.args)
    ensures AllTyped(SolveSchema(n), SolvesValue(v.args))
    ensures V2Bytes(n, v) ==
            (LittleEndian(|v.args|, 4) + EncodeAll(SolveSchema(n), SolvesValue(v.args))) + (v.permitOwner + v.transferOwner)
  {
    SolvesTyped(n, v.args);
    VectorIs(SolveSchema(n), SolvesValue(v.args));
    Fields2(Fixed(20), Raw(v.permitOwner), Fixed(20), Raw(v.transferOwner));
    FirstField(Vec(SolveSchema(n)), Record(SolvesValue(v.args)), Of2(Fixed(20), Fixed(20)), V2Value(v).vs.tail,
               Of3(Vec(SolveSchema(n)), Fixed(20), Fixed(20)), V2Value(v).vs);
    StructIs(Of3(Vec(SolveSchema(n)), Fixed(20), Fixed(20)), V2Value(v).vs);
  }

  /** The optional permit of a payment for gas, in bytes. */
  function GasPermitBytes(p: Option<Permit>): (b: seq<Byte>) {
    match p
    case None => [0]
    case Some(q) => [1] + ([q.asset] + (LittleEndian(q.deadline, 8) + ([q.v] + (q.r + q.s))))
  }

  lemma V3Layout(n: nat, v: SolveV3Args)
    requires V3Fits(n, v)
    ensures AllTyped(SolveSchema(n), SolvesValue(v.args))
    ensures V3Bytes(n, v) ==
            (LittleEndian(|v.args|, 4) + EncodeAll(SolveSchema(n), SolvesValue(v.args))) +
            ([v.gasToken] + (LittleEndian(v.gasTokenAmt, 8) + GasPermitBytes(v.gasTokenPermit)))
  {
    SolvesTyped(n, v.args);
    VectorIs(SolveSchema(n), SolvesValue(v.args));
    var permit := V3Value(v).vs.tail.tail.tail.head;
    if v.gasTokenPermit.Some? { PermitLayout(n, v.gasTokenPermit.value); }
    assert Typed(Opt(PermitSchema(n)), permit) && Encode(Opt(PermitSchema(n)), permit) == GasPermitBytes(v.gasTokenPermit);
    Fields4(Vec(SolveSchema(n)), Record(SolvesValue(v.args)), Tag(n), Num(v.gasToken), U64, Num(v.gasTokenAmt),
            Opt(PermitSchema(n)), permit);
    StructIs(Of4(Vec(SolveSchema(n)), Tag(n), U64, Opt(PermitSchema(n))), V3Value(v).vs);
  }

  lemma SingleItem(n: nat, x: SolveArgs)
    requires SolveFits(n, x) && |x.permit| == 1 && x.from == []
    ensures Typed(PermitSchema(n), PermitValue(x.permit[0]))
    ensures SolveBytes(n, x) ==
            (LittleEndian(1, 4) + Encode(PermitSchema(n), PermitValue(x.permit[0]))) +
            (LittleEndian(0, 4) + (x.target + ((LittleEndian(|x.cd|, 4) + x.cd) + x.msTs)))
  {
    ItemLayout(n, x);
    assert x.permit[1..] == [];
    assert PermitsValue(x.permit) == Cons(PermitValue(x.permit[0]), Nil);
    var b := Encode(PermitSchema(n), PermitValue(x.permit[0]));
    assert EncodeAll(PermitSchema(n), PermitsValue(x.permit)) == b + [] == b;
    assert EncodeAll(FromSchema(n), FromsValue(x.from)) == [];
    assert LittleEndian(0, 4) + [] == LittleEndian(0, 4);
  }

  lemma BareItem(n: nat, x: SolveArgs)
    requires SolveFits(n, x) && x.permit == [] && x.from == []
    ensures SolveBytes(n, x) == LittleEndian(0, 4) + (LittleEndian(0, 4) + (x.target + ((LittleEndian(|x.cd|, 4) + x.cd) + x.msTs)))
  {
    ItemLayout(n, x);
    assert EncodeAll(PermitSchema(n), PermitsValue(x.permit)) == [];
    assert EncodeAll(FromSchema(n), FromsValue(x.from)) == [];
    assert LittleEndian(0, 4) + [] == LittleEndian(0, 4);
  }

  lemma SingleSolve(n: nat, xs: seq<SolveArgs>)
    requires |xs| == 1 && SolveFits(n, xs[0]) && AllTyped(SolveSchema(n), SolvesValue(xs))
    ensures EncodeAll(SolveSchema(n), SolvesValue(xs)) == SolveBytes(n, xs[0])
  {
    SolveTyped(n, xs[0]);
    assert xs[1..] == [];
    assert SolvesValue(xs) == Cons(SolveValue(xs[0]), Nil);
    assert SolveBytes(n, xs[0]) + [] == SolveBytes(n, xs[0]);
  }

  lemma SingleTransfer(n: nat, t: TransferOnlyArgs)
    requires TransfersFit(n, t.args) && |t.args| == 1
    ensures Typed(TransferSchema(n), TransferValue(t.args[0]))
    ensures TransferOnlyBytes(n, t) == (LittleEndian(1, 4) + Encode(TransferSchema(n), TransferValue(t.args[0]))) + t.msTs
  {
    BatchLayout(n, t);
    assert t.args[1..] == [];
    assert TransfersValue(t.args) == Cons(TransferValue(t.args[0]), Nil);
    var b := Encode(TransferSchema(n), TransferValue(t.args[0]));
    assert EncodeAll(TransferSchema(n), TransfersValue(t.args)) == b + [] == b;
  }

  // Sizes.

  lemma {:induction false} PermitsSize(n: nat, ps: seq<Permit>)
    requires AllTyped(PermitSchema(n), PermitsValue(ps)) && forall p :: p in ps ==> p.asset < n
    ensures |EncodeAll(PermitSchema(n), PermitsValue(ps))| == 74 * |ps|
  {
    if ps != [] {
      assert ps[0] in ps && forall p :: p in ps[1..] ==> p in ps;
      PermitLayout(n, ps[0]);
      PermitsSize(n, ps[1..]);
    }
  }

  lemma {:induction false} FromsSize(n: nat, fs: seq<FromArgs>)
    requires AllTyped(FromSchema(n), FromsValue(fs)) && forall f :: f in fs ==> f.asset < n
    ensures |EncodeAll(FromSchema(n), FromsValue(fs))| == 65 * |fs|
  {
    if fs != [] {
      assert fs[0] in fs && forall f :: f in fs[1..] ==> f in fs;
      FromLayout(n, fs[0]);
      FromsSize(n, fs[1..]);
    }
  }

  lemma ItemSize(n: nat, x: SolveArgs)
    requires SolveFits(n, x)
    ensures |SolveBytes(n, x)| == 48 + 74 * |x.permit| + 65 * |x.from| + |x.cd|
  {
    ItemLayout(n, x);
    PermitsSize(n, x.permit);
    FromsSize(n, x.from);
  }

  /** How many of the transfers carry a permit. */
  function WithPermit(ts: seq<Transfer>): (n: nat)
    ensures n <= |ts|
  {
    if ts == [] then 0 else (if ts[0].permit.Some? then 1 else 0) + WithPermit(ts[1..])
  }

  lemma {:induction false} TransfersSize(n: nat, ts: seq<Transfer>)
    requires AllTyped(TransferSchema(n), TransfersValue(ts)) && forall t :: t in ts ==> t.asset < n
    ensures |EncodeAll(TransferSchema(n), TransfersValue(ts))| == 74 * |ts| + 73 * WithPermit(ts)
  {
    if ts != [] {
      assert ts[0] in ts && forall t :: t in ts[1..] ==> t in ts;
      TransferLayout(n, ts[0]);
      assert |OptionalBytes(ts[0].permit)| == if ts[0].permit.Some? then 74 else 1;
      TransfersSize(n, ts[1..]);
    }
  }

  lemma BatchSize(n: nat, t: TransferOnlyArgs)
    requires TransfersFit(n, t.args)
    ensures |TransferOnlyBytes(n, t)| == 20 + 74 * |t.args| + 73 * WithPermit(t.args)
  {
    BatchLayout(n, t);
    TransfersSize(n, t.args);
  }

  lemma {:induction false} SolvesSize(n: nat, xs: seq<SolveArgs>)
    requires AllTyped(SolveSchema(n), SolvesValue(xs)) && forall x :: x in xs ==> SolveFits(n, x)
    ensures |EncodeAll(SolveSchema(n), SolvesValue(xs))| >= 48 * |xs|
  {
    if xs != [] {
      assert xs[0] in xs && forall x :: x in xs[1..] ==> x in xs;
      SolveTyped(n, xs[0]);
      ItemSize(n, xs[0]);
      SolvesSize(n, xs[1..]);
    }
  }
}
