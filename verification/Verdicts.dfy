/** Exactly which messages an account commits and what they leave, told of the world alone: signatures,
    nonces, locks, storage and token operations that must all succeed. */
module Verdicts {
  import opened Words
  import Evm
  import opened Ledger
  import opened Scripts
  import opened Accounts
  import opened Wire
  import opened Protocol
  import opened ProtocolRuns
  import opened AccountHistory
  import opened Batches
  import opened Entrypoint
  import opened Spending
  import Hex

  function TokenOf(c: Chain, asset: Byte): (token: Address) {
    if c.asset(asset).Some? then c.asset(asset).value else 0
  }

  // The token operations of each kind of request.

  function PermitOps(c: Chain, a: Address, ps: seq<Permit>, owner: Address): (ops: seq<TokenOp>) {
    seq(|ps|, i requires 0 <= i < |ps| => Approve(TokenOf(c, ps[i].asset), owner, a, MAX))
  }

  function TakeOps(c: Chain, a: Address, fs: seq<FromArgs>, owner: Address, target: Address): (ops: seq<TokenOp>) {
    if fs == [] then []
    else
      var token, amt := TokenOf(c, fs[0].asset), WordOf(fs[0].toTake);
      [Pull(token, a, owner, a, amt), Approve(token, a, target, amt)] + TakeOps(c, a, fs[1..], owner, target)
  }

  function ItemOps(c: Chain, a: Address, x: SolveArgs, permitOwner: Address,
      transferOwner: Address): (ops: seq<TokenOp>) {
    PermitOps(c, a, x.permit, permitOwner) + TakeOps(c, a, x.from, transferOwner, AddressOf(x.target))
  }

  function GasOps(c: Chain, a: Address, x: SolveV3Args, owner: Address): (ops: seq<TokenOp>) {
    var token := TokenOf(c, x.gasToken);
    (if x.gasTokenPermit.Some? then [Approve(token, owner, a, MAX)] else []) +
    [Pull(token, a, owner, c.clearinghouse, x.gasTokenAmt)]
  }

  function SendOps(c: Chain, a: Address, t: Transfer): (ops: seq<TokenOp>) {
    var token, from := TokenOf(c, t.asset), AddressOf(t.from);
    (if t.permit.Some? then [Approve(token, from, a, MAX)] else []) +
    [Pull(token, a, from, AddressOf(t.recipient), WordOf(t.amt))]
  }

  function TransferOps(c: Chain, a: Address, ts: seq<Transfer>): (ops: seq<TokenOp>) {
    if ts == [] then [] else SendOps(c, a, ts[0]) + TransferOps(c, a, ts[1..])
  }

  // Each kind of request up to its targets, as its token operations.

  lemma ScriptOne(unlimited: Address -> bool, l: Books, op: TokenOp)
    ensures Script(unlimited, l, [op]) == Do(unlimited, l, op)
  {
    assert [op][1..] == [];
  }

  lemma ScriptFirst(unlimited: Address -> bool, l: Books, op: TokenOp, rest: seq<TokenOp>)
    ensures Script(unlimited, l, [op] + rest) ==
            match Do(unlimited, l, op) case None => None case Some(m) => Script(unlimited, m, rest)
  {
    assert ([op] + rest)[1..] == rest;
  }

  lemma {:induction false} PermitsExactly(c: Chain, w: World, a: Address, ps: seq<Permit>, owner: Address,
        accepted: seq<bool>)
    ensures Permits(c, w, a, ps, owner, accepted).ok <==> Accepted(c, ps, accepted)
    ensures var r := Script(c.unlimited, w.ledger, PermitOps(c, a, ps, owner));
            r.Some? && (Accepted(c, ps, accepted) ==> Permits(c, w, a, ps, owner, accepted).w == w.(ledger := r.value))
    decreases ps
  {
    var ops := PermitOps(c, a, ps, owner);
    if ps != [] {
      assert ops == [ops[0]] + PermitOps(c, a, ps[1..], owner);
      var next := w.(ledger := Allow(w.ledger, TokenOf(c, ps[0].asset), owner, a, MAX));
      ScriptFirst(c.unlimited, w.ledger, ops[0], PermitOps(c, a, ps[1..], owner));
      PermitsExactly(c, next, a, ps[1..], owner, if accepted == [] then [] else accepted[1..]);
      AcceptedSplit(c, ps, accepted);
    }
  }

  lemma AcceptedSplit(c: Chain, ps: seq<Permit>, accepted: seq<bool>)
    requires ps != []
    ensures Accepted(c, ps, accepted) <==>
            accepted != [] && c.asset(ps[0].asset).Some? && accepted[0] && Accepted(c, ps[1..], accepted[1..])
  {
    if accepted != [] && Accepted(c, ps[1..], accepted[1..]) && c.asset(ps[0].asset).Some? && accepted[0] {
      forall i | 0 <= i < |ps| ensures c.asset(ps[i].asset).Some? && accepted[i] {
        if i > 0 { assert ps[1..][i - 1] == ps[i] && accepted[1..][i - 1] == accepted[i]; }
      }
    }
  }

  lemma TakeExactly(c: Chain, w: World, a: Address, f: FromArgs, owner: Address, target: Address)
    ensures var r := Script(c.unlimited, w.ledger, TakeOps(c, a, [f], owner, target));
            var s := Take1(c, w, a, f, owner, target);
            && (s.ok <==> c.asset(f.asset).Some? && r.Some?)
            && (s.ok ==> s.w == w.(ledger := r.value))
  {
    var token, amt := TokenOf(c, f.asset), WordOf(f.toTake);
    var pull, approve := Pull(token, a, owner, a, amt), Approve(token, a, target, amt);
    assert [f][1..] == [];
    assert TakeOps(c, a, [f], owner, target) == [pull] + [approve];
    ScriptFirst(c.unlimited, w.ledger, pull, [approve]);
    match Do(c.unlimited, w.ledger, pull)
    case None =>
    case Some(next) => ScriptOne(c.unlimited, next, approve);
  }

  lemma {:induction false} TakesExactly(c: Chain, w: World, a: Address, fs: seq<FromArgs>, owner: Address,
        target: Address)
    ensures var r := Script(c.unlimited, w.ledger, TakeOps(c, a, fs, owner, target));
            var s := Takes(c, w, a, fs, owner, target);
            && (s.ok <==> AssetsKnown(c, fs) && r.Some?)
            && (s.ok ==> s.w == w.(ledger := r.value))
    decreases fs
  {
    if fs != [] {
      var s := Take1(c, w, a, fs[0], owner, target);
      assert [fs[0]][1..] == [];
      assert TakeOps(c, a, fs, owner, target) ==
             TakeOps(c, a, [fs[0]], owner, target) + TakeOps(c, a, fs[1..], owner, target);
      TakeExactly(c, w, a, fs[0], owner, target);
      ScriptThen(c.unlimited, w.ledger, TakeOps(c, a, [fs[0]], owner, target), TakeOps(c, a, fs[1..], owner, target));
      TakesExactly(c, s.w, a, fs[1..], owner, target);
      assert AssetsKnown(c, fs) <==> c.asset(fs[0].asset).Some? && AssetsKnown(c, fs[1..]) by {
        if AssetsKnown(c, fs[1..]) {
          assert forall i :: 0 < i < |fs| ==> fs[i] == fs[1..][i - 1];
        }
      }
    }
  }

  // Items.

  /** The world with the nonce used up. */
  function SetNonce(c: Chain, w: World, a: Address, nonce: Word): (r: World)
    requires a in w.accounts
  {
    w.(accounts := w.accounts[a := w.accounts[a].(store := w.accounts[a].store[NonceSlot(c, nonce) := 1])])
  }

  function SetLock(w: World, a: Address, locked: bool): (r: World)
    requires a in w.accounts
  {
    w.(accounts := w.accounts[a := w.accounts[a].(locked := locked)])
  }

  /** An item reaches its target: its nonce is free, its permits are accepted, its assets are known, no
      token operation is refused, and the authority allows the target. */
  predicate Reaches(c: Chain, w: World, a: Address, x: SolveArgs, permitOwner: Address, transferOwner: Address,
      reply: Reply)
  {
    && a in w.accounts && !Used(c, w, a, NonceOf(x.msTs))
    && Accepted(c, x.permit, reply.permits)
    && AssetsKnown(c, x.from)
    && Script(c.unlimited, w.ledger, ItemOps(c, a, x, permitOwner, transferOwner)).Some?
    && MayCall(w, a, reply)
  }

  /** The world that the target finds. */
  function Reached(c: Chain, w: World, a: Address, x: SolveArgs, permitOwner: Address,
      transferOwner: Address): (r: World)
    requires a in w.accounts && Script(c.unlimited, w.ledger, ItemOps(c, a, x, permitOwner, transferOwner)).Some?
  {
    var ops := ItemOps(c, a, x, permitOwner, transferOwner);
    SetNonce(c, w, a, NonceOf(x.msTs)).(ledger := Script(c.unlimited, w.ledger, ops).value)
  }

  /** The account ends with at least the stated minimum of every asset of the item. */
  predicate Keeps(c: Chain, l: Books, a: Address, x: SolveArgs) {
    forall i :: 0 <= i < |x.from| ==> Balance(l, TokenOf(c, x.from[i].asset), a) >= WordOf(x.from[i].maxUnspent)
  }

  /** The items lead from `w` to `end`: each reaches its target, the target does what it does and succeeds,
      and the minima are kept. */
  ghost predicate Lead(c: Chain, w: World, a: Address, xs: seq<SolveArgs>, permitOwner: Address, transferOwner: Address,
      replies: seq<Reply>, end: World)
    decreases xs
  {
    if xs == [] then end == w
    else
      && replies != []
      && Reaches(c, w, a, xs[0], permitOwner, transferOwner, replies[0])
      && replies[0].ok
      && var next := Acts(c, Reached(c, w, a, xs[0], permitOwner, transferOwner), replies[0].acts).w;
      && Keeps(c, next.ledger, a, xs[0])
      && Lead(c, next, a, xs[1..], permitOwner, transferOwner, replies[1..], end)
  }

  lemma CallExactly(c: Chain, w: World, a: Address, nonce: Word, u: World, target: Address, reply: Reply)
    requires Separated(c) && nonce < NONCE_LIMIT && a in w.accounts
    requires u.accounts == SetNonce(c, w, a, nonce).accounts && u.registries == w.registries
    ensures CallOut(c, u, a, target, reply).ok <==> MayCall(w, a, reply)
    ensures CallOut(c, u, a, target, reply).w == u
  {
    assert !Flat(NonceSlot(c, nonce));
    assert Evm.Load(Store(u, a), SLOT_AUTHORITY) == Evm.Load(Store(w, a), SLOT_AUTHORITY);
  }

  lemma PrepareExactly(c: Chain, w: World, a: Address, x: SolveArgs, permitOwner: Address, transferOwner: Address,
      reply: Reply)
    requires Separated(c)
    ensures var s := Prepare(c, w, a, x, permitOwner, transferOwner, reply);
            && (s.ok <==> Reaches(c, w, a, x, permitOwner, transferOwner, reply))
            && (s.ok ==> s.w == Reached(c, w, a, x, permitOwner, transferOwner))
  {
    var nonce, target := NonceOf(x.msTs), AddressOf(x.target);
    var spent := Raise(c, w, Spent(a, nonce));
    if spent.ok {
      var permits := Permits(c, spent.w, a, x.permit, permitOwner, reply.permits);
      PermitsExactly(c, spent.w, a, x.permit, permitOwner, reply.permits);
      JoinOk(spent, permits);
      if permits.ok {
        var takes := Takes(c, permits.w, a, x.from, transferOwner, target);
        TakesExactly(c, permits.w, a, x.from, transferOwner, target);
        ScriptThen(c.unlimited, w.ledger, PermitOps(c, a, x.permit, permitOwner),
                   TakeOps(c, a, x.from, transferOwner, target));
        JoinOk(Join(spent, permits), takes);
        if takes.ok {
          CallExactly(c, w, a, nonce, takes.w, target, reply);
          JoinOk(Join(Join(spent, permits), takes), CallOut(c, takes.w, a, target, reply));
        }
      }
    }
  }

  lemma KeepsExactly(c: Chain, w: World, a: Address, x: SolveArgs)
    requires AssetsKnown(c, x.from)
    ensures Kept(c, w, a, x.from) <==> Keeps(c, w.ledger, a, x)
  {
    forall i | 0 <= i < |x.from|
      ensures Kept1(c, w, a, x.from[i]) <==>
              Balance(w.ledger, TokenOf(c, x.from[i].asset), a) >= WordOf(x.from[i].maxUnspent)
    {
      assert c.asset(x.from[i].asset).Some?;
    }
  }

  lemma ItemExactly(c: Chain, w: World, a: Address, x: SolveArgs, permitOwner: Address, transferOwner: Address,
      reply: Reply)
    requires Separated(c)
    ensures var s := Item(c, w, a, x, permitOwner, transferOwner, reply);
            && (s.ok <==>
                && Reaches(c, w, a, x, permitOwner, transferOwner, reply) && reply.ok
                && var next := Acts(c, Reached(c, w, a, x, permitOwner, transferOwner), reply.acts).w;
                Keeps(c, next.ledger, a, x))
            && (s.ok ==> s.w == Acts(c, Reached(c, w, a, x, permitOwner, transferOwner), reply.acts).w)
  {
    var ready := Prepare(c, w, a, x, permitOwner, transferOwner, reply);
    PrepareExactly(c, w, a, x, permitOwner, transferOwner, reply);
    ActsSound(c, ready.w, reply.acts);
    JoinOk(ready, Acts(c, ready.w, reply.acts));
    if ready.ok {
      KeepsExactly(c, Acts(c, ready.w, reply.acts).w, a, x);
    }
  }

  lemma {:induction false} ItemsExactly(c: Chain, w: World, a: Address, xs: seq<SolveArgs>, permitOwner: Address,
      transferOwner: Address, replies: seq<Reply>, end: World)
    requires Separated(c)
    ensures var s := Items(c, w, a, xs, permitOwner, transferOwner, replies);
            s.ok && s.w == end <==> Lead(c, w, a, xs, permitOwner, transferOwner, replies, end)
    decreases xs
  {
    if xs != [] && replies != [] {
      var s := Item(c, w, a, xs[0], permitOwner, transferOwner, replies[0]);
      ItemExactly(c, w, a, xs[0], permitOwner, transferOwner, replies[0]);
      ItemsExactly(c, s.w, a, xs[1..], permitOwner, transferOwner, replies[1..], end);
      JoinOk(s, Items(c, s.w, a, xs[1..], permitOwner, transferOwner, replies[1..]));
    }
  }

  // Transfers and the payment for gas.

  predicate SendKnown(c: Chain, t: Transfer, accepted: bool) {
    c.asset(t.asset).Some? && (t.permit.Some? ==> accepted)
  }

  /** There is an answer for each transfer, its asset is known, and its permit, if any, is accepted. */
  predicate SendsKnown(c: Chain, ts: seq<Transfer>, accepted: seq<bool>) {
    |ts| <= |accepted| && forall i :: 0 <= i < |ts| ==> SendKnown(c, ts[i], accepted[i])
  }

  lemma SendsKnownSplit(c: Chain, ts: seq<Transfer>, accepted: seq<bool>)
    requires ts != []
    ensures SendsKnown(c, ts, accepted) <==>
            accepted != [] && SendKnown(c, ts[0], accepted[0]) && SendsKnown(c, ts[1..], accepted[1..])
  {
    if accepted != [] && SendKnown(c, ts[0], accepted[0]) && SendsKnown(c, ts[1..], accepted[1..]) {
      forall i | 0 <= i < |ts| ensures SendKnown(c, ts[i], accepted[i]) {
        if i > 0 { assert ts[1..][i - 1] == ts[i] && accepted[1..][i - 1] == accepted[i]; }
      }
    }
  }

  lemma SendExactly(c: Chain, w: World, a: Address, t: Transfer, accepted: bool)
    ensures var r := Script(c.unlimited, w.ledger, SendOps(c, a, t));
            var s := Transfer1(c, w, a, t, accepted);
            && (s.ok <==> SendKnown(c, t, accepted) && r.Some?)
            && (s.ok ==> s.w == w.(ledger := r.value))
  {
    var token, from := TokenOf(c, t.asset), AddressOf(t.from);
    var pull := Pull(token, a, from, AddressOf(t.recipient), WordOf(t.amt));
    if t.permit.Some? {
      var approve := Approve(token, from, a, MAX);
      ScriptFirst(c.unlimited, w.ledger, approve, [pull]);
      ScriptOne(c.unlimited, Allow(w.ledger, token, from, a, MAX), pull);
    } else {
      assert SendOps(c, a, t) == [pull];
      ScriptOne(c.unlimited, w.ledger, pull);
    }
  }

  lemma {:induction false} TransfersExactly(c: Chain, w: World, a: Address, ts: seq<Transfer>, accepted: seq<bool>)
    ensures var r := Script(c.unlimited, w.ledger, TransferOps(c, a, ts));
            var s := Transfers(c, w, a, ts, accepted);
            && (s.ok <==> SendsKnown(c, ts, accepted) && r.Some?)
            && (s.ok ==> s.w == w.(ledger := r.value))
    decreases ts
  {
    if ts != [] {
      SendsKnownSplit(c, ts, accepted);
      if accepted != [] {
        var s := Transfer1(c, w, a, ts[0], accepted[0]);
        SendExactly(c, w, a, ts[0], accepted[0]);
        ScriptThen(c.unlimited, w.ledger, SendOps(c, a, ts[0]), TransferOps(c, a, ts[1..]));
        TransfersExactly(c, s.w, a, ts[1..], accepted[1..]);
      }
    }
  }

  /** The asset for gas is known, the permit, if any, is for it and is accepted. */
  predicate GasKnown(c: Chain, x: SolveV3Args, accepted: bool) {
    c.asset(x.gasToken).Some? && (x.gasTokenPermit.Some? ==> x.gasTokenPermit.value.asset == x.gasToken && accepted)
  }

  lemma GasExactly(c: Chain, w: World, a: Address, x: SolveV3Args, accepted: bool)
    ensures var r := Script(c.unlimited, w.ledger, GasOps(c, a, x, OwnerOf(w, a)));
            var s := PayGas(c, w, a, x, accepted);
            && (s.ok <==> GasKnown(c, x, accepted) && r.Some?)
            && (s.ok ==> s.w == w.(ledger := r.value))
  {
    var token, owner := TokenOf(c, x.gasToken), OwnerOf(w, a);
    var pull := Pull(token, a, owner, c.clearinghouse, x.gasTokenAmt);
    if x.gasTokenPermit.Some? {
      var approve := Approve(token, owner, a, MAX);
      ScriptFirst(c.unlimited, w.ledger, approve, [pull]);
      ScriptOne(c.unlimited, Allow(w.ledger, token, owner, a, MAX), pull);
    } else {
      assert GasOps(c, a, x, owner) == [pull];
      ScriptOne(c.unlimited, w.ledger, pull);
    }
  }

  // Requests.

  /** The key of the account signed the request: each item of a Solve, any other payload as a whole. */
  predicate SignedBy(c: Chain, w: World, a: Address, args: Args)
    requires ArgsFit(c.assets, args)
  {
    var key := Evm.Load(Store(w, a), KeySlot(c));
    match args
    case Solve(items) =>
      forall i :: 0 <= i < |items| ==>
        items[i] in items && c.verify(SolveBytes(c.assets, items[i].args), key, items[i].sig)
    case SolveV2(x, sig) => c.verify(V2Bytes(c.assets, x), key, sig)
    case SolveV3(x, sig) => c.verify(V3Bytes(c.assets, x), key, sig)
    case TransferOnly(x, sig) => c.verify(TransferOnlyBytes(c.assets, x), key, sig)
    case Statement(x, sig) =>
      var text := "Superposition Accounts statement for " + Hex.Encode(BytesOf(a, 20));
      c.verifyHash(c.sha512(Hex.Ascii(text) + StatementBytes(x)), key, sig)
    case _ => true
  }

  /** The items lead to `end` while the account is locked, and then it is unlocked. */
  ghost predicate LeadLocked(c: Chain, w: World, a: Address, xs: seq<SolveArgs>, permitOwner: Address,
      transferOwner: Address, replies: seq<Reply>, end: World)
    requires a in w.accounts
  {
    && !w.accounts[a].locked
    && exists mid :: Lead(c, SetLock(w, a, true), a, xs, permitOwner, transferOwner, replies, mid) &&
                     a in mid.accounts && end == SetLock(mid, a, false)
  }

  /** A batch of transfers is not empty, its nonce is free, and no token operation is refused. */
  predicate Transferable(c: Chain, w: World, a: Address, x: TransferOnlyArgs, accepted: seq<bool>) {
    && x.args != [] && SendsKnown(c, x.args, accepted) && !Used(c, w, a, NonceOf(x.msTs))
    && Script(c.unlimited, w.ledger, TransferOps(c, a, x.args)).Some?
  }

  function Transferred(c: Chain, w: World, a: Address, x: TransferOnlyArgs): (r: World)
    requires a in w.accounts && Script(c.unlimited, w.ledger, TransferOps(c, a, x.args)).Some?
  {
    SetNonce(c, w, a, NonceOf(x.msTs)).(ledger := Script(c.unlimited, w.ledger, TransferOps(c, a, x.args)).value)
  }

  /** The EOA signed for this key and this authority, neither is missing, and the address is free. */
  predicate Creatable(c: Chain, w: World, factory: Address, args: Args)
    requires args.FreshBackwards?
  {
    var key, eoa := WordOf(args.key), AddressOf(args.eoaAddr);
    var authority := if args.authority.Some? then AddressOf(args.authority.value) else 0;
    && key != 0 && eoa != 0
    && c.recover(c.keccak(ConsentMessage(key, authority)), args.v, WordOf(args.r), WordOf(args.s)) == Some(eoa)
    && Evm.Load(Store(w, factory), SLOT_IMPL) != 0
    && ProxyAt(c, factory, eoa) !in w.accounts
  }

  /** The world with the new account. */
  function WithAccount(c: Chain, w: World, factory: Address, args: Args): (r: World)
    requires args.FreshBackwards?
    ensures ProxyAt(c, factory, AddressOf(args.eoaAddr)) in r.accounts
  {
    var key, eoa := WordOf(args.key), AddressOf(args.eoaAddr);
    var authority := if args.authority.Some? then AddressOf(args.authority.value) else 0;
    var impl := Evm.Load(Store(w, factory), SLOT_IMPL);
    w.(accounts := w.accounts[ProxyAt(c, factory, eoa) := Account(false, Born(c, eoa, key, impl, authority), false)])
  }

  /** The request commits and leads from `w` to `end`. */
  ghost predicate Commits(c: Chain, w: World, a: Address, args: Args, gasPermit: bool, replies: seq<Reply>, end: World)
    requires ArgsFit(c.assets, args) && a in w.accounts
  {
    SignedBy(c, w, a, args) &&
    var owner := OwnerOf(w, a);
    match args
    case FreshBackwards(_, eoaAddr, _, _, _, items, _) =>
      && Creatable(c, w, a, args)
      && var made, at := WithAccount(c, w, a, args), ProxyAt(c, a, AddressOf(eoaAddr));
      if items == [] then end == made
      else SignedBy(c, made, at, Solve(items)) &&
           LeadLocked(c, made, at, Plain(items), AddressOf(eoaAddr), AddressOf(eoaAddr), replies, end)
    case Solve(items) => LeadLocked(c, w, a, Plain(items), owner, owner, replies, end)
    case SolveV2(x, _) =>
      LeadLocked(c, w, a, x.args, AddressOf(x.permitOwner), AddressOf(x.transferOwner), replies, end)
    case SolveV3(x, _) =>
      var paid := Script(c.unlimited, w.ledger, GasOps(c, a, x, owner));
      && GasKnown(c, x, gasPermit) && paid.Some?
      && Lead(c, w.(ledger := paid.value), a, x.args, owner, owner, replies, end)
    case TransferOnly(x, _) =>
      && !w.accounts[a].locked && Transferable(c, w, a, x, if replies == [] then [] else replies[0].permits)
      && end == Transferred(c, w, a, x)
    case Statement(x, _) => !Used(c, w, a, NonceOf(x.msTs)) && end == SetNonce(c, w, a, NonceOf(x.msTs))
    case AssetsVersion => false
    case _ => end == w
  }

  lemma {:induction false} LeadKeepsAccount(c: Chain, w: World, a: Address, xs: seq<SolveArgs>, permitOwner: Address,
      transferOwner: Address, replies: seq<Reply>)
    requires a in w.accounts
    ensures a in Items(c, w, a, xs, permitOwner, transferOwner, replies).w.accounts
  {
    var s := Items(c, w, a, xs, permitOwner, transferOwner, replies);
    ItemsSound(c, w, a, xs, permitOwner, transferOwner, replies);
    AccountsStay(c, w, s.log, a);
  }

  lemma LockedExactly(c: Chain, w: World, a: Address, xs: seq<SolveArgs>, permitOwner: Address, transferOwner: Address,
      replies: seq<Reply>, ps: seq<Payload>, end: World)
    requires Separated(c) && a in w.accounts
    ensures var body := Items(c, Lock(c, w, a), a, xs, permitOwner, transferOwner, replies);
            var s := Guarded(c, w, a, Noting(body, a, ps));
            s.ok && s.w == end <==> LeadLocked(c, w, a, xs, permitOwner, transferOwner, replies, end)
  {
    if !w.accounts[a].locked {
      var locked := Lock(c, w, a);
      assert locked == SetLock(w, a, true);
      var body := Items(c, locked, a, xs, permitOwner, transferOwner, replies);
      NotingKeeps(body, a, ps);
      LeadKeepsAccount(c, locked, a, xs, permitOwner, transferOwner, replies);
      GuardedEnds(c, w, a, Noting(body, a, ps));
      ItemsExactly(c, locked, a, xs, permitOwner, transferOwner, replies, body.w);
      forall mid
        ensures body.ok && body.w == mid <==> Lead(c, locked, a, xs, permitOwner, transferOwner, replies, mid)
      {
        ItemsExactly(c, locked, a, xs, permitOwner, transferOwner, replies, mid);
      }
    }
  }

  lemma LockKeepsStore(c: Chain, w: World, a: Address)
    ensures Store(Lock(c, w, a), a) == Store(w, a) && Lock(c, w, a).ledger == w.ledger
  {
  }

  /** A request that fails at once fails under the guard. */
  lemma GuardFails(c: Chain, w: World, a: Address, s: Step)
    requires !s.ok
    ensures !Guarded(c, w, a, s).ok
  {
  }

  lemma AllSignedExactly(c: Chain, w: World, a: Address, items: seq<SolveArgsSigArgs>)
    requires ArgsFit(c.assets, Solve(items))
    ensures AllSigned(c, KeyOf(c, w, a), items) <==> SignedBy(c, w, a, Solve(items))
  {
    forall i | 0 <= i < |items| ensures SolveFits(c.assets, items[i].args) { assert items[i] in items; }
    if AllSigned(c, KeyOf(c, w, a), items) {
      forall i | 0 <= i < |items|
        ensures items[i] in items && c.verify(SolveBytes(c.assets, items[i].args), KeyOf(c, w, a), items[i].sig)
      {
        assert ItemSigned(c, KeyOf(c, w, a), items[i]);
      }
    }
  }

  lemma SolveExactly(c: Chain, w: World, a: Address, items: seq<SolveArgsSigArgs>, replies: seq<Reply>, end: World)
    requires Separated(c) && a in w.accounts && ArgsFit(c.assets, Solve(items))
    ensures var s := Guarded(c, w, a, SolveOne(c, Lock(c, w, a), a, items, replies));
            s.ok && s.w == end <==>
              && SignedBy(c, w, a, Solve(items))
              && LeadLocked(c, w, a, Plain(items), OwnerOf(w, a), OwnerOf(w, a), replies, end)
  {
    LockKeepsStore(c, w, a);
    AllSignedExactly(c, w, a, items);
    if AllSigned(c, KeyOf(c, w, a), items) {
      LockedExactly(c, w, a, Plain(items), OwnerOf(w, a), OwnerOf(w, a), replies, ItemPayloads(items), end);
    } else {
      GuardFails(c, w, a, Fail(Lock(c, w, a)));
    }
  }

  lemma SolveTwoExactly(c: Chain, w: World, a: Address, x: SolveV2Args, sig: Bytes64, replies: seq<Reply>, end: World)
    requires Separated(c) && a in w.accounts && ArgsFit(c.assets, SolveV2(x, sig))
    ensures var s := Guarded(c, w, a, SolveTwo(c, Lock(c, w, a), a, x, sig, replies));
            s.ok && s.w == end <==>
              && SignedBy(c, w, a, SolveV2(x, sig))
              && LeadLocked(c, w, a, x.args, AddressOf(x.permitOwner), AddressOf(x.transferOwner), replies, end)
  {
    LockKeepsStore(c, w, a);
    if SignedBy(c, w, a, SolveV2(x, sig)) {
      LockedExactly(c, w, a, x.args, AddressOf(x.permitOwner), AddressOf(x.transferOwner), replies, [V2Payload(x)],
                    end);
    } else {
      GuardFails(c, w, a, Fail(Lock(c, w, a)));
    }
  }

  lemma SolveThreeExactly(c: Chain, w: World, a: Address, x: SolveV3Args, sig: Bytes64, gasPermit: bool,
      replies: seq<Reply>, end: World)
    requires Separated(c) && a in w.accounts && ArgsFit(c.assets, SolveV3(x, sig))
    ensures var s := SolveThree(c, w, a, x, sig, gasPermit, replies);
            var gas := Script(c.unlimited, w.ledger, GasOps(c, a, x, OwnerOf(w, a)));
            s.ok && s.w == end <==>
              && SignedBy(c, w, a, SolveV3(x, sig)) && GasKnown(c, x, gasPermit) && gas.Some?
              && Lead(c, w.(ledger := gas.value), a, x.args, OwnerOf(w, a), OwnerOf(w, a), replies, end)
  {
    if SignedBy(c, w, a, SolveV3(x, sig)) {
      var paid := PayGas(c, w, a, x, gasPermit);
      var solved := Items(c, paid.w, a, x.args, OwnerOf(w, a), OwnerOf(w, a), replies);
      GasExactly(c, w, a, x, gasPermit);
      NotingKeeps(Join(paid, solved), a, [V3Payload(x)]);
      JoinOk(paid, solved);
      ItemsExactly(c, paid.w, a, x.args, OwnerOf(w, a), OwnerOf(w, a), replies, end);
    }
  }

  lemma TransferAllExactly(c: Chain, w: World, a: Address, x: TransferOnlyArgs, sig: Bytes64, accepted: seq<bool>)
    requires a in w.accounts && ArgsFit(c.assets, TransferOnly(x, sig))
    ensures var s := TransferAll(c, w, a, x, sig, accepted);
            && (s.ok <==> SignedBy(c, w, a, TransferOnly(x, sig)) && Transferable(c, w, a, x, accepted))
            && (s.ok ==> s.w == Transferred(c, w, a, x))
  {
    if SignedBy(c, w, a, TransferOnly(x, sig)) && x.args != [] {
      var spent := Raise(c, w, Spent(a, NonceOf(x.msTs)));
      var sent := Transfers(c, spent.w, a, x.args, accepted);
      TransfersExactly(c, spent.w, a, x.args, accepted);
      NotingKeeps(Join(spent, sent), a, [TransferPayload(x)]);
      JoinOk(spent, sent);
    }
  }

  lemma LockedTransfersExactly(c: Chain, w: World, a: Address, x: TransferOnlyArgs, sig: Bytes64, accepted: seq<bool>)
    requires a in w.accounts && ArgsFit(c.assets, TransferOnly(x, sig))
    ensures var s := Guarded(c, w, a, TransferAll(c, Lock(c, w, a), a, x, sig, accepted));
            && (s.ok <==>
                && SignedBy(c, w, a, TransferOnly(x, sig)) && !w.accounts[a].locked
                && Transferable(c, w, a, x, accepted))
            && (s.ok ==> s.w == Transferred(c, w, a, x))
  {
    var locked := Lock(c, w, a);
    var s := TransferAll(c, locked, a, x, sig, accepted);
    LockKeepsStore(c, w, a);
    if !w.accounts[a].locked {
      TransferAllExactly(c, locked, a, x, sig, accepted);
      GuardedEnds(c, w, a, s);
      if s.ok {
        assert Unlock(c, s.w, a).accounts == Transferred(c, w, a, x).accounts;
      }
    }
  }

  lemma StateExactly(c: Chain, w: World, a: Address, x: StatementArgs, sig: Bytes64)
    requires a in w.accounts && ArgsFit(c.assets, Statement(x, sig))
    ensures var s := State(c, w, a, x, sig);
            && (s.ok <==> SignedBy(c, w, a, Statement(x, sig)) && !Used(c, w, a, NonceOf(x.msTs)))
            && (s.ok ==> s.w == SetNonce(c, w, a, NonceOf(x.msTs)))
  {
    NotingKeeps(Raise(c, w, Spent(a, NonceOf(x.msTs))), a, [StatementPayload(x)]);
  }

  lemma CreateExactly(c: Chain, w: World, factory: Address, args: Args)
    requires args.FreshBackwards?
    ensures var s := Create(c, w, factory, ConsentOf(args));
            && (s.ok <==> Creatable(c, w, factory, args))
            && (s.ok ==> s.w == WithAccount(c, w, factory, args))
  {
    CreateIsBirth(c, w, factory, ConsentOf(args));
    ConsentExactly(c, w, factory, args);
  }

  lemma ConsentExactly(c: Chain, w: World, factory: Address, args: Args)
    requires args.FreshBackwards?
    ensures var e := Created(factory, ConsentOf(args));
            && (Enabled(c, w, e) <==> Creatable(c, w, factory, args))
            && (Enabled(c, w, e) ==> Apply(c, w, e) == WithAccount(c, w, factory, args))
  {
  }

  lemma BornOwner(c: Chain, w: World, factory: Address, args: Args)
    requires Separated(c) && args.FreshBackwards?
    ensures var eoa := AddressOf(args.eoaAddr); OwnerOf(WithAccount(c, w, factory, args), ProxyAt(c, factory, eoa)) == eoa
  {
  }

  lemma FreshExactly(c: Chain, w: World, factory: Address, args: Args, replies: seq<Reply>, end: World)
    requires Separated(c) && args.FreshBackwards? && ArgsFit(c.assets, args)
    ensures var s := Fresh(c, w, factory, args, replies);
            var made, eoa := WithAccount(c, w, factory, args), AddressOf(args.eoaAddr);
            var at := ProxyAt(c, factory, eoa);
            s.ok && s.w == end <==>
              && Creatable(c, w, factory, args)
              && if args.solveArgs == [] then end == made
                 else SignedBy(c, made, at, Solve(args.solveArgs)) &&
                      LeadLocked(c, made, at, Plain(args.solveArgs), eoa, eoa, replies, end)
  {
    CreateExactly(c, w, factory, args);
    if args.solveArgs != [] && Creatable(c, w, factory, args) {
      var made, at := WithAccount(c, w, factory, args), ProxyAt(c, factory, AddressOf(args.eoaAddr));
      BatchArrives(c, args.solveArgs);
      BornOwner(c, w, factory, args);
      SolveExactly(c, made, at, args.solveArgs, replies, end);
      var attached := Guarded(c, made, at, SolveOne(c, Lock(c, made, at), at, args.solveArgs, replies));
      assert Attach(c, made, at, args.solveArgs, replies) == attached;
      JoinOk(Create(c, w, factory, ConsentOf(args)), attached);
    }
  }

  /** Exactly the requests that commit, and where each leads. */
  lemma RequestExactly(c: Chain, w: World, a: Address, args: Args, gasPermit: bool, replies: seq<Reply>, end: World)
    requires Separated(c) && a in w.accounts && ArgsFit(c.assets, args)
    ensures var s := Handle(c, w, a, args, gasPermit, replies);
            s.ok && s.w == end <==> Commits(c, w, a, args, gasPermit, replies, end)
  {
    match args
    case FreshBackwards(_, _, _, _, _, _, _) => FreshExactly(c, w, a, args, replies, end);
    case Solve(items) => SolveExactly(c, w, a, items, replies, end);
    case SolveV2(x, sig) => SolveTwoExactly(c, w, a, x, sig, replies, end);
    case SolveV3(x, sig) => SolveThreeExactly(c, w, a, x, sig, gasPermit, replies, end);
    case TransferOnly(x, sig) => LockedTransfersExactly(c, w, a, x, sig, PermitsIn(replies));
    case Statement(x, sig) => StateExactly(c, w, a, x, sig);
    case _ =>
  }
}
