/** Requests written by hand, one field after the other, and that Borsh writes the same. */
module FlatBytes {
  import opened Words
  import opened Borsh
  import opened Wire
  import opened Layouts

  function PermitsFlat(ps: seq<Permit>): (b: seq<Byte>) {
    if ps == [] then []
    else
      var p := ps[0];
      ([p.asset] + (LittleEndian(p.deadline, 8) + ([p.v] + (p.r + p.s)))) + PermitsFlat(ps[1..])
  }

  function FromsFlat(fs: seq<FromArgs>): (b: seq<Byte>) {
    if fs == [] then [] else ([fs[0].asset] + (fs[0].toTake + fs[0].maxUnspent)) + FromsFlat(fs[1..])
  }

  function ItemFlat(x: SolveArgs): (b: seq<Byte>) {
    (LittleEndian(|x.permit|, 4) + PermitsFlat(x.permit)) +
    ((LittleEndian(|x.from|, 4) + FromsFlat(x.from)) + (x.target + ((LittleEndian(|x.cd|, 4) + x.cd) + x.msTs)))
  }

  function SolvesFlat(xs: seq<SolveArgs>): (b: seq<Byte>) {
    if xs == [] then [] else ItemFlat(xs[0]) + SolvesFlat(xs[1..])
  }

  function SignedFlat(items: seq<SolveArgsSigArgs>): (b: seq<Byte>) {
    if items == [] then [] else (items[0].sig + ItemFlat(items[0].args)) + SignedFlat(items[1..])
  }

  function TransfersFlat(ts: seq<Transfer>): (b: seq<Byte>) {
    if ts == [] then []
    else
      var t := ts[0];
      var permit :=
        match t.permit
        case None => [0]
        case Some(q) => [1] + (LittleEndian(q.deadline, 8) + ([q.v] + (q.r + q.s)));
      (t.from + ([t.asset] + (t.recipient + (t.amt + permit)))) + TransfersFlat(ts[1..])
  }

  function V2Flat(x: SolveV2Args): (b: seq<Byte>) {
    (LittleEndian(|x.args|, 4) + SolvesFlat(x.args)) + (x.permitOwner + x.transferOwner)
  }

  function V3Flat(x: SolveV3Args): (b: seq<Byte>) {
    var permit := match x.gasTokenPermit case None => [0] case Some(p) => [1] + PermitsFlat([p]);
    (LittleEndian(|x.args|, 4) + SolvesFlat(x.args)) + ([x.gasToken] + (LittleEndian(x.gasTokenAmt, 8) + permit))
  }

  function TransferOnlyFlat(x: TransferOnlyArgs): (b: seq<Byte>) {
    (LittleEndian(|x.args|, 4) + TransfersFlat(x.args)) + x.msTs
  }

  function StatementFlat(x: StatementArgs): (b: seq<Byte>) {
    (LittleEndian(|x.msg|, 4) + x.msg) + x.msTs
  }

  function FreshFlat(a: Args): (b: seq<Byte>)
    requires a.FreshBackwards?
  {
    var authority := match a.authority case None => [0] case Some(at) => [1] + at;
    var items := LittleEndian(|a.solveArgs|, 4) + SignedFlat(a.solveArgs);
    a.key + (a.eoaAddr + ([a.v] + (a.r + (a.s + (items + authority)))))
  }

  /** A request: its number in the enumeration, and its fields. */
  function RequestFlat(a: Args): (b: seq<Byte>) {
    match a
    case FreshBackwards(_, _, _, _, _, _, _) => [0] + FreshFlat(a)
    case Solve(items) => [1] + (LittleEndian(|items|, 4) + SignedFlat(items))
    case Version => [2]
    case Authority => [3]
    case SolveV2(x, sig) => [4] + (V2Flat(x) + sig)
    case TransferOnly(x, sig) => [5] + (TransferOnlyFlat(x) + sig)
    case Statement(x, sig) => [6] + (StatementFlat(x) + sig)
    case Owner => [7]
    case Ed25519Key => [8]
    case SolveV3(x, sig) => [9] + (V3Flat(x) + sig)
    case AssetsVersion => [10]
  }

  lemma {:induction false} PermitsAreFlat(n: nat, ps: seq<Permit>)
    requires AllTyped(PermitSchema(n), PermitsValue(ps)) && forall p :: p in ps ==> p.asset < n
    ensures EncodeAll(PermitSchema(n), PermitsValue(ps)) == PermitsFlat(ps)
  {
    if ps != [] {
      assert ps[0] in ps && forall p :: p in ps[1..] ==> p in ps;
      PermitLayout(n, ps[0]);
      PermitsAreFlat(n, ps[1..]);
    }
  }

  lemma {:induction false} FromsAreFlat(n: nat, fs: seq<FromArgs>)
    requires AllTyped(FromSchema(n), FromsValue(fs)) && forall f :: f in fs ==> f.asset < n
    ensures EncodeAll(FromSchema(n), FromsValue(fs)) == FromsFlat(fs)
  {
    if fs != [] {
      assert fs[0] in fs && forall f :: f in fs[1..] ==> f in fs;
      FromLayout(n, fs[0]);
      FromsAreFlat(n, fs[1..]);
    }
  }

  lemma ItemIsFlat(n: nat, x: SolveArgs)
    requires SolveFits(n, x)
    ensures SolveBytes(n, x) == ItemFlat(x)
  {
    ItemLayout(n, x);
    PermitsAreFlat(n, x.permit);
    FromsAreFlat(n, x.from);
  }

  lemma {:induction false} SolvesAreFlat(n: nat, xs: seq<SolveArgs>)
    requires AllTyped(SolveSchema(n), SolvesValue(xs)) && forall x :: x in xs ==> SolveFits(n, x)
    ensures EncodeAll(SolveSchema(n), SolvesValue(xs)) == SolvesFlat(xs)
  {
    if xs != [] {
      assert xs[0] in xs && forall x :: x in xs[1..] ==> x in xs;
      SolveTyped(n, xs[0]);
      ItemIsFlat(n, xs[0]);
      SolvesAreFlat(n, xs[1..]);
    }
  }

  lemma {:induction false} SignedAreFlat(n: nat, items: seq<SolveArgsSigArgs>)
    requires AllTyped(SigArgsSchema(n), ItemsValue(items)) && forall x :: x in items ==> SolveFits(n, x.args)
    ensures EncodeAll(SigArgsSchema(n), ItemsValue(items)) == SignedFlat(items)
  {
    if items != [] {
      assert items[0] in items && forall x :: x in items[1..] ==> x in items;
      SolveTyped(n, items[0].args);
      ItemIsFlat(n, items[0].args);
      Fields2(Fixed(64), Raw(items[0].sig), SolveSchema(n), SolveValue(items[0].args));
      StructIs(Of2(Fixed(64), SolveSchema(n)), In2(Raw(items[0].sig), SolveValue(items[0].args)));
      SignedAreFlat(n, items[1..]);
    }
  }

  lemma {:induction false} TransfersAreFlat(n: nat, ts: seq<Transfer>)
    requires AllTyped(TransferSchema(n), TransfersValue(ts)) && forall t :: t in ts ==> t.asset < n
    ensures EncodeAll(TransferSchema(n), TransfersValue(ts)) == TransfersFlat(ts)
  {
    if ts != [] {
      assert ts[0] in ts && forall t :: t in ts[1..] ==> t in ts;
      TransferLayout(n, ts[0]);
      TransfersAreFlat(n, ts[1..]);
    }
  }

  lemma V2IsFlat(n: nat, x: SolveV2Args)
    requires SolvesFit(n, x.args)
    ensures V2Bytes(n, x) == V2Flat(x)
  {
    V2Layout(n, x);
    SolvesAreFlat(n, x.args);
  }

  lemma V3IsFlat(n: nat, x: SolveV3Args)
    requires V3Fits(n, x)
    ensures V3Bytes(n, x) == V3Flat(x)
  {
    V3Layout(n, x);
    SolvesAreFlat(n, x.args);
    if x.gasTokenPermit.Some? {
      var p := x.gasTokenPermit.value;
      assert [p][1..] == [];
      var b := [p.asset] + (LittleEndian(p.deadline, 8) + ([p.v] + (p.r + p.s)));
      assert PermitsFlat([p]) == b + [] == b;
    }
  }

  lemma TransferOnlyIsFlat(n: nat, x: TransferOnlyArgs)
    requires TransfersFit(n, x.args)
    ensures TransferOnlyBytes(n, x) == TransferOnlyFlat(x)
  {
    BatchLayout(n, x);
    TransfersAreFlat(n, x.args);
  }

  lemma StatementIsFlat(x: StatementArgs)
    requires |x.msg| < MAX_COUNT
    ensures StatementBytes(x) == StatementFlat(x)
  {
    Fields2(Blob, Raw(x.msg), Fixed(6), Raw(x.msTs));
    StructIs(Of2(Blob, Fixed(6)), StatementValue(x).vs);
  }

  lemma FreshIsFlat(n: nat, a: Args)
    requires a.FreshBackwards? && ArgsFit(n, a)
    ensures Typed(FreshSchema(n), FreshValue(a)) && Encode(FreshSchema(n), FreshValue(a)) == FreshFlat(a)
  {
    var items := Vec(SigArgsSchema(n));
    var authority := if a.authority.None? then Absent else Present(Raw(a.authority.value));
    ItemsTyped(n, a.solveArgs);
    VectorIs(SigArgsSchema(n), ItemsValue(a.solveArgs));
    SignedAreFlat(n, a.solveArgs);
    assert Typed(Opt(Fixed(20)), authority);
    Fields5(U8, Num(a.v), Fixed(32), Raw(a.r), Fixed(32), Raw(a.s), items, Record(ItemsValue(a.solveArgs)),
            Opt(Fixed(20)), authority);
    var five := Of5(U8, Fixed(32), Fixed(32), items, Opt(Fixed(20)));
    var values := In5(Num(a.v), Raw(a.r), Raw(a.s), Record(ItemsValue(a.solveArgs)), authority);
    Field(Fixed(20), Raw(a.eoaAddr), five, values);
    Field(Fixed(32), Raw(a.key), More(Fixed(20), five), Cons(Raw(a.eoaAddr), values));
    StructIs(More(Fixed(32), More(Fixed(20), five)), FreshValue(a).vs);
  }

  lemma SolveIsFlat(n: nat, items: seq<SolveArgsSigArgs>)
    requires ItemsFit(n, items)
    ensures Typed(VariantSchema(n, 1), BodyValue(Solve(items)))
    ensures Encode(VariantSchema(n, 1), BodyValue(Solve(items))) == LittleEndian(|items|, 4) + SignedFlat(items)
  {
    ItemsTyped(n, items);
    VectorIs(SigArgsSchema(n), ItemsValue(items));
    SignedAreFlat(n, items);
    OneField(Vec(SigArgsSchema(n)), Record(ItemsValue(items)));
  }

  lemma OneField(s: Schema, v: Value)
    requires Typed(s, v)
    ensures Typed(Struct(Of1(s)), Record(In1(v))) && Encode(Struct(Of1(s)), Record(In1(v))) == Encode(s, v)
  {
    Field(s, v, NoMore, Nil);
    StructIs(Of1(s), In1(v));
    assert Encode(s, v) + [] == Encode(s, v);
  }

  lemma SignedBody(s: Schema, v: Value, sig: Bytes64)
    requires Typed(s, v)
    ensures Typed(Struct(Of2(s, Fixed(64))), Record(In2(v, Raw(sig))))
    ensures Encode(Struct(Of2(s, Fixed(64))), Record(In2(v, Raw(sig)))) == Encode(s, v) + sig
  {
    Fields2(s, v, Fixed(64), Raw(sig));
    StructIs(Of2(s, Fixed(64)), In2(v, Raw(sig)));
  }

  /** The number and the body of a request. */
  lemma TagAndBody(n: nat, a: Args)
    requires ArgsFit(n, a)
    ensures Typed(VariantSchema(n, TagOf(a)), BodyValue(a))
    ensures EncodeArgs(n, a) == [TagOf(a)] + Encode(VariantSchema(n, TagOf(a)), BodyValue(a))
  {
    ArgsFitTyped(n, a);
    VariantIs(n, TagOf(a));
  }

  lemma SignedRequestsAreFlat(n: nat, a: Args)
    requires ArgsFit(n, a) && (a.SolveV2? || a.SolveV3? || a.TransferOnly? || a.Statement?)
    ensures EncodeArgs(n, a) == RequestFlat(a)
  {
    TagAndBody(n, a);
    match a
    case SolveV2(x, sig) =>
      V2Typed(n, x);
      V2IsFlat(n, x);
      SignedBody(V2Schema(n), V2Value(x), sig);
    case SolveV3(x, sig) =>
      V3Typed(n, x);
      V3IsFlat(n, x);
      SignedBody(V3Schema(n), V3Value(x), sig);
    case TransferOnly(x, sig) =>
      TransferOnlyTyped(n, x);
      TransferOnlyIsFlat(n, x);
      SignedBody(TransferOnlySchema(n), TransferOnlyValue(x), sig);
    case Statement(x, sig) =>
      Each2(Blob, Fixed(6), StatementValue(x).vs);
      StatementIsFlat(x);
      SignedBody(STATEMENT, StatementValue(x), sig);
  }

  /** Every request that fits is its number and its fields, one after the other. */
  lemma RequestsAreFlat(n: nat, a: Args)
    requires ArgsFit(n, a)
    ensures EncodeArgs(n, a) == RequestFlat(a)
  {
    if a.SolveV2? || a.SolveV3? || a.TransferOnly? || a.Statement? {
      SignedRequestsAreFlat(n, a);
    } else if a.FreshBackwards? {
      TagAndBody(n, a);
      FreshIsFlat(n, a);
    } else if a.Solve? {
      TagAndBody(n, a);
      SolveIsFlat(n, a.items);
    } else {
      UnitsAreFlat(n, a);
    }
  }

  lemma UnitsAreFlat(n: nat, a: Args)
    requires a.Version? || a.Authority? || a.Owner? || a.Ed25519Key? || a.AssetsVersion?
    ensures EncodeArgs(n, a) == RequestFlat(a)
  {
    TagAndBody(n, a);
    assert Encode(UNIT, Record(Nil)) == [];
    assert [TagOf(a)] + [] == [TagOf(a)];
  }

  /** What is signed of each kind is its fields, one after the other. */
  lemma PayloadsAreFlat(n: nat, item: SolveArgs, v2: SolveV2Args, v3: SolveV3Args, t: TransferOnlyArgs,
      st: StatementArgs)
    ensures SolveFits(n, item) ==> SolveBytes(n, item) == ItemFlat(item)
    ensures SolvesFit(n, v2.args) ==> V2Bytes(n, v2) == V2Flat(v2)
    ensures V3Fits(n, v3) ==> V3Bytes(n, v3) == V3Flat(v3)
    ensures TransfersFit(n, t.args) ==> TransferOnlyBytes(n, t) == TransferOnlyFlat(t)
    ensures |st.msg| < MAX_COUNT ==> StatementBytes(st) == StatementFlat(st)
  {
    if SolveFits(n, item) { ItemIsFlat(n, item); }
    if SolvesFit(n, v2.args) { V2IsFlat(n, v2); }
    if V3Fits(n, v3) { V3IsFlat(n, v3); }
    if TransfersFit(n, t.args) { TransferOnlyIsFlat(n, t); }
    if |st.msg| < MAX_COUNT { StatementIsFlat(st); }
  }
}
