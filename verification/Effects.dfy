/** How often a signed payload takes effect: once, exactly if it has a nonce. */
module Effects {
  import opened Words
  import opened Ledger
  import opened Accounts
  import opened Wire
  import opened Protocol
  import opened Entrypoint
  import opened ProtocolRuns
  import opened AccountHistory
  import opened Authenticity
  import opened Spending

  // A payload is not served more often than each of its nonces is used up.

  /** One account, a payload and one of its nonces. */
  datatype Use = Use(at: Address, p: Payload, nonce: Word)

  ghost predicate Valid(u: Use) {
    u.nonce in NoncesOf(u.p)
  }

  /** How much more often the nonce is used up than the payload is served. */
  function Spare(log: seq<Event>, u: Use): (n: int) {
    multiset(log)[Spent(u.at, u.nonce)] as int - multiset(log)[Served(u.at, u.p)]
  }

  lemma SpareThen(x: seq<Event>, y: seq<Event>, u: Use)
    ensures Spare(x + y, u) == Spare(x, u) + Spare(y, u)
  {
  }

  lemma JoinSpare(s: Step, t: Step, u: Use)
    ensures Spare(Join(s, t).log, u) == Spare(s.log, u) + (if s.ok then Spare(t.log, u) else 0)
  {
    SpareThen(s.log, t.log, u);
  }

  ghost predicate Neutral(log: seq<Event>) {
    forall i :: 0 <= i < |log| ==> !log[i].Spent? && !log[i].Served?
  }

  lemma NeutralSpare(log: seq<Event>, u: Use)
    requires Neutral(log)
    ensures Spare(log, u) == 0
  {
    assert Spent(u.at, u.nonce) !in log && Served(u.at, u.p) !in log;
  }

  /** How many of the items have the nonce, if they run on the account. */
  function Times(xs: seq<SolveArgs>, b: Address, u: Use): (n: nat) {
    if xs == [] then 0 else (if b == u.at && NonceOf(xs[0].msTs) == u.nonce then 1 else 0) + Times(xs[1..], b, u)
  }

  lemma {:induction false} TimesIn(xs: seq<SolveArgs>, x: SolveArgs, u: Use)
    requires x in xs && NonceOf(x.msTs) == u.nonce
    ensures Times(xs, u.at, u) >= 1
  {
    if xs[0] != x { TimesIn(xs[1..], x, u); }
  }

  lemma {:induction false} NoteSpare(w: World, b: Address, ps: seq<Payload>, u: Use)
    ensures Spare(Note(w, b, ps).log, u) == if b == u.at then -(multiset(ps)[u.p] as int) else 0
    decreases |ps|
  {
    var log := Note(w, b, ps).log;
    if ps != [] {
      NoteSpare(w, b, ps[1..], u);
      assert log == [Served(b, ps[0])] + Note(w, b, ps[1..]).log;
      SpareThen([Served(b, ps[0])], Note(w, b, ps[1..]).log, u);
      assert ps == [ps[0]] + ps[1..];
    }
  }

  lemma {:induction false} BatchTimes(items: seq<SolveArgsSigArgs>, u: Use)
    requires Valid(u)
    ensures multiset(ItemPayloads(items))[u.p] <= Times(Plain(items), u.at, u)
    decreases |items|
  {
    if items != [] {
      BatchTimes(items[1..], u);
      assert ItemPayloads(items) == [ItemPayload(items[0].args)] + ItemPayloads(items[1..]);
      assert Plain(items) == [items[0].args] + Plain(items[1..]);
      assert Plain(items)[1..] == Plain(items[1..]);
    }
  }

  lemma WholeTimes(u: Use, p: Payload)
    requires Valid(u) && (p.V2Payload? || p.V3Payload?)
    ensures multiset([p])[u.p] <= Times(ItemsOf(p), u.at, u)
  {
    if u.p == p {
      var x :| x in ItemsOf(p) && NonceOf(x.msTs) == u.nonce;
      TimesIn(ItemsOf(p), x, u);
    }
  }

  // The same over everything that can happen.

  lemma {:induction false} TakesNeutral(c: Chain, w: World, b: Address, fs: seq<FromArgs>, owner: Address,
      target: Address)
    ensures Neutral(Takes(c, w, b, fs, owner, target).log)
    decreases fs
  {
    if fs != [] {
      TakesNeutral(c, Take1(c, w, b, fs[0], owner, target).w, b, fs[1..], owner, target);
    }
  }

  lemma {:induction false} TransfersNeutral(c: Chain, w: World, b: Address, ts: seq<Transfer>, accepted: seq<bool>)
    ensures Neutral(Transfers(c, w, b, ts, accepted).log)
    decreases ts
  {
    if ts != [] && accepted != [] {
      TransfersNeutral(c, Transfer1(c, w, b, ts[0], accepted[0]).w, b, ts[1..], accepted[1..]);
    }
  }

  lemma PayGasNeutral(c: Chain, w: World, b: Address, x: SolveV3Args, accepted: bool)
    ensures Neutral(PayGas(c, w, b, x, accepted).log)
  {
  }

  lemma RaiseSpare(c: Chain, w: World, b: Address, nonce: Word, u: Use)
    ensures var s := Raise(c, w, Spent(b, nonce));
            Spare(s.log, u) == if s.ok && b == u.at && nonce == u.nonce then 1 else 0
  {
  }

  lemma PrepareSpare(c: Chain, w: World, b: Address, x: SolveArgs, po: Address, payer: Address, reply: Reply, u: Use)
    ensures var s := Prepare(c, w, b, x, po, payer, reply);
            Spare(s.log, u) >= if s.ok then Times([x], b, u) else 0
  {
    var target := AddressOf(x.target);
    var spent := Raise(c, w, Spent(b, NonceOf(x.msTs)));
    RaiseSpare(c, w, b, NonceOf(x.msTs), u);
    var permits := Permits(c, spent.w, b, x.permit, po, reply.permits);
    PermitsApprove(c, spent.w, b, x.permit, po, reply.permits);
    NeutralSpare(permits.log, u);
    JoinSpare(spent, permits, u);
    var permitted := Join(spent, permits);
    var takes := Takes(c, permitted.w, b, x.from, payer, target);
    TakesNeutral(c, permitted.w, b, x.from, payer, target);
    NeutralSpare(takes.log, u);
    JoinSpare(permitted, takes, u);
    var taken := Join(permitted, takes);
    NeutralSpare(CallOut(c, taken.w, b, target, reply).log, u);
    JoinSpare(taken, CallOut(c, taken.w, b, target, reply), u);
    assert [x][1..] == [];
  }

  lemma {:induction false} ItemSpare(c: Chain, w: World, b: Address, x: SolveArgs, po: Address, payer: Address,
      reply: Reply,
      u: Use)
    requires Valid(u)
    ensures var s := Item(c, w, b, x, po, payer, reply);
            Spare(s.log, u) >= if s.ok then Times([x], b, u) else 0
    decreases reply, 1
  {
    var ready := Prepare(c, w, b, x, po, payer, reply);
    PrepareSpare(c, w, b, x, po, payer, reply, u);
    ActsSpare(c, ready.w, reply.acts, u);
    JoinSpare(ready, Acts(c, ready.w, reply.acts), u);
  }

  lemma {:induction false} ItemsSpare(c: Chain, w: World, b: Address, xs: seq<SolveArgs>, po: Address, payer: Address,
      replies: seq<Reply>, u: Use)
    requires Valid(u)
    ensures var s := Items(c, w, b, xs, po, payer, replies);
            Spare(s.log, u) >= if s.ok then Times(xs, b, u) else 0
    decreases replies, 2
  {
    if xs != [] && replies != [] {
      var s := Item(c, w, b, xs[0], po, payer, replies[0]);
      ItemSpare(c, w, b, xs[0], po, payer, replies[0], u);
      ItemsSpare(c, s.w, b, xs[1..], po, payer, replies[1..], u);
      JoinSpare(s, Items(c, s.w, b, xs[1..], po, payer, replies[1..]), u);
      assert [xs[0]][1..] == [];
    }
  }

  /** What is noted is made up for by what was spent. */
  lemma NotingSpare(s: Step, b: Address, ps: seq<Payload>, u: Use)
    requires Spare(s.log, u) >= 0
    requires s.ok && b == u.at ==> Spare(s.log, u) >= multiset(ps)[u.p]
    ensures Spare(Noting(s, b, ps).log, u) >= 0
  {
    NoteSpare(s.w, b, ps, u);
    JoinSpare(s, Note(s.w, b, ps), u);
  }

  lemma {:induction false} SolveOneSpare(c: Chain, w: World, b: Address, items: seq<SolveArgsSigArgs>,
      replies: seq<Reply>, u: Use)
    requires Valid(u)
    ensures Spare(SolveOne(c, w, b, items, replies).log, u) >= 0
    decreases replies, 3
  {
    ItemsSpare(c, w, b, Plain(items), OwnerOf(w, b), OwnerOf(w, b), replies, u);
    BatchTimes(items, u);
    NotingSpare(Items(c, w, b, Plain(items), OwnerOf(w, b), OwnerOf(w, b), replies), b, ItemPayloads(items), u);
  }

  lemma {:induction false} SolveTwoSpare(c: Chain, w: World, b: Address, x: SolveV2Args, sig: Bytes64,
      replies: seq<Reply>, u: Use)
    requires Valid(u)
    ensures Spare(SolveTwo(c, w, b, x, sig, replies).log, u) >= 0
    decreases replies, 3
  {
    ItemsSpare(c, w, b, x.args, AddressOf(x.permitOwner), AddressOf(x.transferOwner), replies, u);
    WholeTimes(u, V2Payload(x));
    NotingSpare(Items(c, w, b, x.args, AddressOf(x.permitOwner), AddressOf(x.transferOwner), replies), b, [V2Payload(x)], u);
  }

  lemma {:induction false} SolveThreeSpare(c: Chain, w: World, b: Address, x: SolveV3Args, sig: Bytes64, accepted: bool,
      replies: seq<Reply>, u: Use)
    requires Valid(u)
    ensures Spare(SolveThree(c, w, b, x, sig, accepted, replies).log, u) >= 0
    decreases replies, 3
  {
    var paid := PayGas(c, w, b, x, accepted);
    PayGasNeutral(c, w, b, x, accepted);
    NeutralSpare(paid.log, u);
    var solved := Items(c, paid.w, b, x.args, OwnerOf(w, b), OwnerOf(w, b), replies);
    ItemsSpare(c, paid.w, b, x.args, OwnerOf(w, b), OwnerOf(w, b), replies, u);
    PaidSpare(paid, solved, b, x, u);
  }

  lemma PaidSpare(paid: Step, solved: Step, b: Address, x: SolveV3Args, u: Use)
    requires Valid(u) && Spare(paid.log, u) == 0
    requires Spare(solved.log, u) >= if solved.ok then Times(x.args, b, u) else 0
    ensures Spare(Noting(Join(paid, solved), b, [V3Payload(x)]).log, u) >= 0
  {
    JoinSpare(paid, solved, u);
    WholeTimes(u, V3Payload(x));
    NotingSpare(Join(paid, solved), b, [V3Payload(x)], u);
  }

  lemma TransferAllSpare(c: Chain, w: World, b: Address, x: TransferOnlyArgs, sig: Bytes64, accepted: seq<bool>, u: Use)
    requires Valid(u)
    ensures Spare(TransferAll(c, w, b, x, sig, accepted).log, u) >= 0
  {
    var s := Raise(c, w, Spent(b, NonceOf(x.msTs)));
    RaiseSpare(c, w, b, NonceOf(x.msTs), u);
    var sent := Transfers(c, s.w, b, x.args, accepted);
    TransfersNeutral(c, s.w, b, x.args, accepted);
    NeutralSpare(sent.log, u);
    JoinSpare(s, sent, u);
    NotingSpare(Join(s, sent), b, [TransferPayload(x)], u);
  }

  lemma StateSpare(c: Chain, w: World, b: Address, x: StatementArgs, sig: Bytes64, u: Use)
    requires Valid(u)
    ensures Spare(State(c, w, b, x, sig).log, u) >= 0
  {
    RaiseSpare(c, w, b, NonceOf(x.msTs), u);
    NotingSpare(Raise(c, w, Spent(b, NonceOf(x.msTs))), b, [StatementPayload(x)], u);
  }

  lemma GuardedSpare(c: Chain, w: World, b: Address, s: Step, u: Use)
    requires Spare(s.log, u) >= 0
    ensures Spare(Guarded(c, w, b, s).log, u) >= 0
  {
    if Enabled(c, w, Locked(b)) {
      var lock := Raise(c, w, Locked(b)).(marks := [Enter(b)]);
      NeutralSpare(lock.log, u);
      JoinSpare(lock, s, u);
      var body := Join(lock, s);
      NeutralSpare(Raise(c, body.w, Unlocked(b)).log, u);
      JoinSpare(body, Raise(c, body.w, Unlocked(b)), u);
    }
  }

  lemma {:induction false} GuardedSolveSpare(c: Chain, w: World, b: Address, items: seq<SolveArgsSigArgs>,
      replies: seq<Reply>, u: Use)
    requires Valid(u)
    ensures Spare(Guarded(c, w, b, SolveOne(c, Lock(c, w, b), b, items, replies)).log, u) >= 0
    decreases replies, 4
  {
    SolveOneSpare(c, Lock(c, w, b), b, items, replies, u);
    GuardedSpare(c, w, b, SolveOne(c, Lock(c, w, b), b, items, replies), u);
  }

  lemma {:induction false} GuardedTwoSpare(c: Chain, w: World, b: Address, x: SolveV2Args, sig: Bytes64,
      replies: seq<Reply>, u: Use)
    requires Valid(u)
    ensures Spare(Guarded(c, w, b, SolveTwo(c, Lock(c, w, b), b, x, sig, replies)).log, u) >= 0
    decreases replies, 4
  {
    SolveTwoSpare(c, Lock(c, w, b), b, x, sig, replies, u);
    GuardedSpare(c, w, b, SolveTwo(c, Lock(c, w, b), b, x, sig, replies), u);
  }

  lemma GuardedTransfersSpare(c: Chain, w: World, b: Address, x: TransferOnlyArgs, sig: Bytes64, accepted: seq<bool>,
      u: Use)
    requires Valid(u)
    ensures Spare(Guarded(c, w, b, TransferAll(c, Lock(c, w, b), b, x, sig, accepted)).log, u) >= 0
  {
    TransferAllSpare(c, Lock(c, w, b), b, x, sig, accepted, u);
    GuardedSpare(c, w, b, TransferAll(c, Lock(c, w, b), b, x, sig, accepted), u);
  }

  lemma {:induction false} AttachSpare(c: Chain, w: World, b: Address, items: seq<SolveArgsSigArgs>,
      replies: seq<Reply>, u: Use)
    requires Valid(u)
    ensures Spare(Attach(c, w, b, items, replies).log, u) >= 0
    decreases replies, 5
  {
    match Attached(c, items)
    case Request(Solve(xs)) => GuardedSolveSpare(c, w, b, xs, replies, u);
    case _ =>
  }

  lemma {:induction false} FreshSpare(c: Chain, w: World, b: Address, args: Args, replies: seq<Reply>, u: Use)
    requires Valid(u) && args.FreshBackwards?
    ensures Spare(Fresh(c, w, b, args, replies).log, u) >= 0
    decreases replies, 6
  {
    var x := ConsentOf(args);
    var made := Create(c, w, b, x);
    var at := ProxyAt(c, b, x.eoa);
    CreateIsBirth(c, w, b, x);
    NeutralSpare(made.log, u);
    AttachSpare(c, made.w, at, args.solveArgs, replies, u);
    JoinSpare(made, Attach(c, made.w, at, args.solveArgs, replies), u);
  }

  lemma {:induction false} HandleSpare(c: Chain, w: World, b: Address, args: Args, gasPermit: bool,
      replies: seq<Reply>, u: Use)
    requires Valid(u)
    ensures Spare(Handle(c, w, b, args, gasPermit, replies).log, u) >= 0
    decreases replies, 7
  {
    match args
    case FreshBackwards(_, _, _, _, _, _, _) => FreshSpare(c, w, b, args, replies, u);
    case Solve(items) => GuardedSolveSpare(c, w, b, items, replies, u);
    case SolveV2(x, sig) => GuardedTwoSpare(c, w, b, x, sig, replies, u);
    case TransferOnly(x, sig) => GuardedTransfersSpare(c, w, b, x, sig, PermitsIn(replies), u);
    case Statement(x, sig) => StateSpare(c, w, b, x, sig, u);
    case SolveV3(x, sig) => SolveThreeSpare(c, w, b, x, sig, gasPermit, replies, u);
    case _ =>
  }

  lemma {:induction false} RunSpare(c: Chain, w: World, b: Address, sender: Address, cd: seq<Byte>, gasPermit: bool,
      replies: seq<Reply>, u: Use)
    requires Valid(u)
    ensures Spare(Run(c, w, b, sender, cd, gasPermit, replies).log, u) >= 0
    decreases replies, 8
  {
    match RouteOf(c, cd)
    case Request(args) => HandleSpare(c, w, b, args, gasPermit, replies, u);
    case Migration(_, _, _, _) => NeutralSpare(Migrate(c, w, b, sender, cd).log, u);
    case _ =>
  }

  lemma {:induction false} UpgradeSpare(c: Chain, w: World, b: Address, sender: Address, cd: seq<Byte>, gasPermit: bool,
      replies: seq<Reply>, u: Use)
    requires Valid(u)
    ensures Spare(Upgrade(c, w, b, sender, cd, gasPermit, replies).log, u) >= 0
    decreases replies, 9
  {
    match UpgradeCall(cd)
    case None =>
    case Some((impl, data)) =>
      var s := Raise(c, w, Upgraded(b, sender, impl));
      NeutralSpare(s.log, u);
      RunSpare(c, s.w, b, sender, data, gasPermit, replies, u);
      JoinSpare(s, Run(c, s.w, b, sender, data, gasPermit, replies), u);
  }

  lemma {:induction false} PerformSpare(c: Chain, w: World, act: Act, u: Use)
    requires Valid(u)
    ensures Spare(Perform(c, w, act).log, u) >= 0
    decreases act, 10
  {
    match act
    case Message(b, sender, cd, gasPermit, replies) =>
      RunSpare(c, w, b, sender, cd, gasPermit, replies, u);
      UpgradeSpare(c, w, b, sender, cd, gasPermit, replies, u);
    case _ => NeutralSpare(Perform(c, w, act).log, u);
  }

  lemma {:induction false} ActsSpare(c: Chain, w: World, acts: seq<Act>, u: Use)
    requires Valid(u)
    ensures Spare(Acts(c, w, acts).log, u) >= 0
    decreases acts, 11
  {
    if acts != [] {
      var s := Perform(c, w, acts[0]);
      PerformSpare(c, w, acts[0], u);
      ActsSpare(c, s.w, acts[1..], u);
      JoinSpare(s, Acts(c, s.w, acts[1..]), u);
    }
  }

  /** Over every run, an account serves a payload that has a nonce at most once, under whatever signatures
      and in whatever requests it comes, and not at all if any of its nonces is used already. */
  lemma AtMostOnce(c: Chain, w: World, acts: seq<Act>, a: Address, p: Payload, nonce: Word)
    requires Separated(c) && nonce in NoncesOf(p)
    ensures multiset(Acts(c, w, acts).log)[Served(a, p)] <= if Used(c, w, a, nonce) then 0 else 1
  {
    ActsSpare(c, w, acts, Use(a, p, nonce));
    NoncesOnce(c, w, acts, a, nonce);
  }

  // Payloads without a nonce.

  /** The same act, over and over. */
  function Repeat(act: Act, k: nat): (acts: seq<Act>)
    ensures |acts| == k
  {
    seq(k, i => act)
  }

  /** One act, and then the rest of them. */
  lemma RepeatStep(c: Chain, w: World, act: Act, k: nat, e: Event)
    requires k > 0 && Perform(c, w, act).ok
    ensures var s := Perform(c, w, act);
            var all, rest := Acts(c, w, Repeat(act, k)), Acts(c, s.w, Repeat(act, k - 1));
            all.w == rest.w && multiset(all.log)[e] == multiset(s.log)[e] + multiset(rest.log)[e]
  {
    assert Repeat(act, k)[0] == act && Repeat(act, k)[1..] == Repeat(act, k - 1);
  }

  /** The owner can pay for gas `k` times. */
  ghost predicate CanPay(c: Chain, l: Books, a: Address, owner: Address, v: SolveV3Args, k: nat) {
    Payable(c, V3Payload(v)) &&
    var token, all := c.asset(v.gasToken).value, k * v.gasTokenAmt;
    && all <= Balance(l, token, owner)
    && (v.gasTokenPermit.Some? || all <= Allowance(l, token, owner, a))
    && (owner == c.clearinghouse || Balance(l, token, c.clearinghouse) + all <= MAX)
  }

  lemma OneLess(k: nat, amt: nat)
    requires k > 0
    ensures k * amt == amt + (k - 1) * amt && (k - 1) * amt >= 0
  {
  }

  /** The operation that pays. */
  function GasOp(c: Chain, a: Address, owner: Address, v: SolveV3Args): (op: TokenOp)
    requires Payable(c, V3Payload(v))
  {
    Pull(c.asset(v.gasToken).value, a, owner, c.clearinghouse, v.gasTokenAmt)
  }

  /** One payment leaves enough for the others. */
  lemma PullOnce(unlimited: Address -> bool, l: Books, op: TokenOp, rest: nat, permitted: bool)
    requires op.Pull? && op.amt + rest <= Balance(l, op.token, op.from)
    requires op.amt <= Allowance(l, op.token, op.from, op.spender)
    requires permitted || op.amt + rest <= Allowance(l, op.token, op.from, op.spender)
    requires op.from == op.recipient || Balance(l, op.token, op.recipient) + op.amt + rest <= MAX
    ensures Do(unlimited, l, op).Some?
    ensures var m := Do(unlimited, l, op).value;
            && rest <= Balance(m, op.token, op.from)
            && (permitted || rest <= Allowance(m, op.token, op.from, op.spender))
            && (op.from == op.recipient || Balance(m, op.token, op.recipient) + rest <= MAX)
  {
  }

  lemma PayOnce(c: Chain, w: World, a: Address, v: SolveV3Args, k: nat)
    requires k > 0 && CanPay(c, w.ledger, a, OwnerOf(w, a), v, k)
    ensures var s := PayGas(c, w, a, v, true);
            && s.ok && s.w.accounts == w.accounts
            && CanPay(c, s.w.ledger, a, OwnerOf(w, a), v, k - 1)
  {
    var owner, token := OwnerOf(w, a), c.asset(v.gasToken).value;
    var s := if v.gasTokenPermit.Some? then Permit1(c, w, a, v.gasToken, owner, true) else Skip(w);
    OneLess(k, v.gasTokenAmt);
    assert s.ok && s.w.ledger.balances == w.ledger.balances;
    assert v.gasTokenPermit.Some? ==> Allowance(s.w.ledger, token, owner, a) == MAX;
    assert v.gasTokenPermit.None? ==> s.w == w;
    PullOnce(c.unlimited, s.w.ledger, GasOp(c, a, owner, v), (k - 1) * v.gasTokenAmt, v.gasTokenPermit.Some?);
  }

  /** A SolveV3 that has no items, sent as bytes. */
  function GasMessage(c: Chain, a: Address, sender: Address, v: SolveV3Args, sig: Bytes64): (act: Act)
    requires V3Fits(c.assets, v)
  {
    Message(a, sender, EncodeArgs(c.assets, SolveV3(v, sig)), true, [])
  }

  lemma GasRequest(c: Chain, w: World, a: Address, v: SolveV3Args, sig: Bytes64)
    requires v.args == [] && V3Signed(c, KeyOf(c, w, a), v, sig) && PayGas(c, w, a, v, true).ok
    ensures var s := Handle(c, w, a, SolveV3(v, sig), true, []);
            s.ok && s.w == PayGas(c, w, a, v, true).w && multiset(s.log)[Served(a, V3Payload(v))] == 1
  {
    var paid := PayGas(c, w, a, v, true);
    PayGasNeutral(c, w, a, v, true);
    assert Served(a, V3Payload(v)) !in paid.log;
    assert Items(c, paid.w, a, [], OwnerOf(w, a), OwnerOf(w, a), []) == Skip(paid.w);
    assert Note(paid.w, a, [V3Payload(v)]).log == [Served(a, V3Payload(v))];
  }

  lemma GasSent(c: Chain, w: World, a: Address, sender: Address, v: SolveV3Args, sig: Bytes64)
    requires a in w.accounts && !FromAdmin(w, a, sender)
    requires v.args == [] && V3Signed(c, KeyOf(c, w, a), v, sig) && PayGas(c, w, a, v, true).ok
    ensures var s := Perform(c, w, GasMessage(c, a, sender, v, sig));
            s.ok && s.w == PayGas(c, w, a, v, true).w && multiset(s.log)[Served(a, V3Payload(v))] == 1
  {
    var args := SolveV3(v, sig);
    var cd := EncodeArgs(c.assets, args);
    RequestsArrive(c, args, []);
    assert cd + [] == cd;
    PerformRequest(c, w, a, sender, cd, true, [], args);
    GasRequest(c, w, a, v, sig);
  }

  /** What `k` payments for gas do to the balance of a holder. */
  function AfterGas(c: Chain, before: int, owner: Address, v: SolveV3Args, k: nat, token: Address,
      h: Address): (v': int) {
    var all := if c.asset(v.gasToken) == Some(token) then k * v.gasTokenAmt else 0;
    before + (if h == c.clearinghouse then all else 0) - (if h == owner then all else 0)
  }

  lemma AfterOneMore(c: Chain, before: int, owner: Address, v: SolveV3Args, k: nat, token: Address, h: Address)
    requires k > 0
    ensures AfterGas(c, AfterGas(c, before, owner, v, 1, token, h), owner, v, k - 1, token, h) == AfterGas(c, before, owner, v, k, token, h)
  {
    OneLess(k, v.gasTokenAmt);
  }

  /** A signed SolveV3 without items takes effect as often as anyone sends it and the owner can pay: each
      time the amount for gas goes from the owner to the clearinghouse, and no account changes. */
  lemma {:induction false} GasEachTime(c: Chain, w: World, a: Address, sender: Address, v: SolveV3Args, sig: Bytes64,
      k: nat,
      token: Address, h: Address)
    requires a in w.accounts && !FromAdmin(w, a, sender)
    requires v.args == [] && V3Signed(c, KeyOf(c, w, a), v, sig) && CanPay(c, w.ledger, a, OwnerOf(w, a), v, k)
    ensures var s := Acts(c, w, Repeat(GasMessage(c, a, sender, v, sig), k));
            && s.w.accounts == w.accounts
            && multiset(s.log)[Served(a, V3Payload(v))] == k
            && Balance(s.w.ledger, token, h) == AfterGas(c, Balance(w.ledger, token, h), OwnerOf(w, a), v, k, token, h)
    decreases k
  {
    var m := GasMessage(c, a, sender, v, sig);
    if k > 0 {
      GasOnce(c, w, a, sender, v, sig, k, token, h);
      var s := Perform(c, w, m);
      RepeatStep(c, w, m, k, Served(a, V3Payload(v)));
      GasEachTime(c, s.w, a, sender, v, sig, k - 1, token, h);
      AfterOneMore(c, Balance(w.ledger, token, h), OwnerOf(w, a), v, k, token, h);
    }
  }

  lemma GasOnce(c: Chain, w: World, a: Address, sender: Address, v: SolveV3Args, sig: Bytes64, k: nat, token: Address,
      h: Address)
    requires a in w.accounts && !FromAdmin(w, a, sender) && k > 0
    requires v.args == [] && V3Signed(c, KeyOf(c, w, a), v, sig) && CanPay(c, w.ledger, a, OwnerOf(w, a), v, k)
    ensures var s := Perform(c, w, GasMessage(c, a, sender, v, sig));
            && s.ok && s.w.accounts == w.accounts
            && CanPay(c, s.w.ledger, a, OwnerOf(w, a), v, k - 1)
            && multiset(s.log)[Served(a, V3Payload(v))] == 1
            && Balance(s.w.ledger, token, h) == AfterGas(c, Balance(w.ledger, token, h), OwnerOf(w, a), v, 1, token, h)
  {
    PayOnce(c, w, a, v, k);
    GasSent(c, w, a, sender, v, sig);
    GasIsPaid(c, w, a, v, true, token, h);
    assert 1 * v.gasTokenAmt == v.gasTokenAmt;
  }

  /** A signed SolveV2 without items takes effect, to no effect, as often as anyone sends it. */
  lemma EmptyBatchSent(c: Chain, w: World, a: Address, sender: Address, v: SolveV2Args, sig: Bytes64)
    requires a in w.accounts && !w.accounts[a].locked && !FromAdmin(w, a, sender)
    requires v.args == [] && V2Signed(c, KeyOf(c, w, a), v, sig)
    ensures var s := Perform(c, w, Message(a, sender, EncodeArgs(c.assets, SolveV2(v, sig)), true, []));
            s.ok && s.w == w && Served(a, V2Payload(v)) in s.log
  {
    var args := SolveV2(v, sig);
    var cd := EncodeArgs(c.assets, args);
    RequestsArrive(c, args, []);
    assert cd + [] == cd;
    PerformRequest(c, w, a, sender, cd, true, [], args);
    EmptyBatch(c, w, a, v, sig);
  }

  lemma EmptyBatch(c: Chain, w: World, a: Address, v: SolveV2Args, sig: Bytes64)
    requires a in w.accounts && !w.accounts[a].locked && v.args == [] && V2Signed(c, KeyOf(c, w, a), v, sig)
    ensures var s := Handle(c, w, a, SolveV2(v, sig), true, []);
            s.ok && s.w == w && Served(a, V2Payload(v)) in s.log
  {
    var locked := Lock(c, w, a);
    var body := SolveTwo(c, locked, a, v, sig, []);
    var e := Served(a, V2Payload(v));
    assert Items(c, locked, a, [], AddressOf(v.permitOwner), AddressOf(v.transferOwner), []) == Skip(locked);
    assert Note(locked, a, [V2Payload(v)]).log == [e];
    assert [] + [e] == [e];
    assert body.ok && body.w == locked && body.log == [e];
    var unlocked := Apply(c, locked, Unlocked(a));
    assert unlocked.accounts == w.accounts;
    var s := Guarded(c, w, a, body);
    assert s.log == [Locked(a)] + [e] + [Unlocked(a)];
    assert s.log[1] == e;
  }

  // Exactly when.

  /** An account with the key, whose owner can pay for gas twice. */
  function Stage(c: Chain, a: Address, key: Word, token: Address, amt: Word): (w: World) {
    World(map[a := Account(false, Born(c, 1, key, 1, 0), false)],
          Books(map[(token, 1) := amt], map[(token, 1, a) := amt]), map[])
  }

  lemma StageIs(c: Chain, a: Address, key: Word, token: Address, amt: Word)
    requires Separated(c)
    ensures var w := Stage(c, a, key, token, amt);
            SetUp(w, a) && KeyOf(c, w, a) == key && OwnerOf(w, a) == 1 && !w.accounts[a].locked && !w.accounts[a].upgradeable
  {
  }

  lemma GasTwice(c: Chain, a: Address, key: Word, v: SolveV3Args, sig: Bytes64) returns (w: World, acts: seq<Act>)
    requires Separated(c) && v.args == [] && V3Signed(c, key, v, sig) && Payable(c, V3Payload(v))
    ensures SetUp(w, a) && multiset(Acts(c, w, acts).log)[Served(a, V3Payload(v))] == 2
  {
    var token := c.asset(v.gasToken).value;
    w := Stage(c, a, key, token, 2 * v.gasTokenAmt);
    StageIs(c, a, key, token, 2 * v.gasTokenAmt);
    acts := Repeat(GasMessage(c, a, 0, v, sig), 2);
    GasEachTime(c, w, a, 0, v, sig, 2, token, 0);
  }

  lemma EmptyTwice(c: Chain, a: Address, key: Word, v: SolveV2Args, sig: Bytes64) returns (w: World, acts: seq<Act>)
    requires Separated(c) && v.args == [] && V2Signed(c, key, v, sig)
    ensures SetUp(w, a) && multiset(Acts(c, w, acts).log)[Served(a, V2Payload(v))] >= 2
  {
    w := Stage(c, a, key, 0, 0);
    StageIs(c, a, key, 0, 0);
    var m := Message(a, 0, EncodeArgs(c.assets, SolveV2(v, sig)), true, []);
    var e := Served(a, V2Payload(v));
    acts := Repeat(m, 2);
    EmptyBatchSent(c, w, a, 0, v, sig);
    RepeatStep(c, w, m, 2, e);
    RepeatStep(c, w, m, 1, e);
    assert multiset(Perform(c, w, m).log)[e] >= 1;
  }

  /** No run has the account serve the payload twice. */
  ghost predicate OnceAtMost(c: Chain, a: Address, p: Payload) {
    forall w, acts :: SetUp(w, a) ==> multiset(Acts(c, w, acts).log)[Served(a, p)] <= 1
  }

  lemma EmptyHasNoNonce(p: Payload)
    ensures NoncesOf(p) == {} <==> (p.V2Payload? && p.v2.args == []) || (p.V3Payload? && p.v3.args == [])
  {
    match p
    case ItemPayload(x) => assert NonceOf(x.msTs) in NoncesOf(p) by { assert x in ItemsOf(p); }
    case V2Payload(v) => if v.args != [] { assert v.args[0] in ItemsOf(p) && NonceOf(v.args[0].msTs) in NoncesOf(p); }
    case V3Payload(v) => if v.args != [] { assert v.args[0] in ItemsOf(p) && NonceOf(v.args[0].msTs) in NoncesOf(p); }
    case _ =>
  }

  /** A payload without a nonce that is served at all can be served twice. */
  lemma CanRepeat(c: Chain, w: World, acts: seq<Act>, a: Address, p: Payload)
    requires Separated(c) && SetUp(w, a) && Served(a, p) in Acts(c, w, acts).log && NoncesOf(p) == {}
    ensures !OnceAtMost(c, a, p)
  {
    EmptyHasNoNonce(p);
    var log := Acts(c, w, acts).log;
    var i :| 0 <= i < |log| && log[i] == Served(a, p);
    OnlyWhatWasSigned(c, w, acts, a, i);
    var o := WatchOver(c, w, a, acts);
    var args :| Asked(o.at, args) in o.inputs && Grants(c, o.key, o.at, args, p);
    if p.V3Payload? {
      var u, again := GasTwice(c, a, o.key, p.v3, args.sig);
      assert multiset(Acts(c, u, again).log)[Served(a, p)] == 2;
    } else {
      var u, again := EmptyTwice(c, a, o.key, p.v2, args.sig);
      assert multiset(Acts(c, u, again).log)[Served(a, p)] >= 2;
    }
  }

  /** For every payload that an account serves in some run: no run has it served twice exactly if it has a
      nonce, that is, unless it is a SolveV2 or a SolveV3 without items. */
  lemma OnceExactly(c: Chain, w: World, acts: seq<Act>, a: Address, p: Payload)
    requires Separated(c) && SetUp(w, a) && Served(a, p) in Acts(c, w, acts).log
    ensures OnceAtMost(c, a, p) <==> !((p.V2Payload? && p.v2.args == []) || (p.V3Payload? && p.v3.args == []))
  {
    EmptyHasNoNonce(p);
    if NoncesOf(p) == {} {
      CanRepeat(c, w, acts, a, p);
    } else {
      var nonce :| nonce in NoncesOf(p);
      forall u, again | SetUp(u, a) ensures multiset(Acts(c, u, again).log)[Served(a, p)] <= 1 {
        AtMostOnce(c, u, again, a, p, nonce);
      }
    }
  }
}
