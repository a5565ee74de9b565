/** Over every run, an account consumes no nonce, calls no target, pulls no tokens and serves no payload but
    as its key signed, in a request that some message of the run brought to it. */
module Authenticity {
  import opened Words
  import opened Ledger
  import opened Accounts
  import opened Wire
  import opened Protocol
  import opened Entrypoint
  import opened ProtocolRuns
  import opened AccountHistory

  // What a run brings in.

  /** A request that reaches a contract, or an operation on tokens by someone else. */
  datatype Input = Asked(recipient: Address, args: Args) | Operated(op: TokenOp)

  /** The requests in calldata to the account code: a request for a new account has one for that account. */
  function Carried(c: Chain, b: Address, cd: seq<Byte>): (r: set<Input>) {
    match RouteOf(c, cd)
    case Request(args) =>
      {Asked(b, args)} +
      (if args.FreshBackwards? then {Asked(ProxyAt(c, b, AddressOf(args.eoaAddr)), Solve(args.solveArgs))} else {})
    case _ => {}
  }

  /** The requests in the calldata of a message, which may be the data of an upgrade. */
  function Brought(c: Chain, b: Address, cd: seq<Byte>): (r: set<Input>) {
    Carried(c, b, cd) +
    (match UpgradeCall(cd) case None => {} case Some((_, data)) => Carried(c, b, data))
  }

  /** What an act brings in, with everything that happens while it is answered. A frame that is undone
      brings in nothing. */
  function Inputs(c: Chain, act: Act): (r: set<Input>)
    decreases act, 0
  {
    match act
    case Message(b, _, cd, _, replies) => Brought(c, b, cd) + InputsOfReplies(c, replies)
    case Tokens(op) => {Operated(op)}
    case _ => {}
  }

  function InputsOfReplies(c: Chain, replies: seq<Reply>): (r: set<Input>)
    decreases replies, 1
  {
    if replies == [] then {} else InputsOfReply(c, replies[0]) + InputsOfReplies(c, replies[1..])
  }

  function InputsOfReply(c: Chain, reply: Reply): (r: set<Input>)
    decreases reply, 2
  {
    InputsOfAll(c, reply.acts)
  }

  function InputsOfAll(c: Chain, acts: seq<Act>): (r: set<Input>)
    decreases acts, 3
  {
    if acts == [] then {} else Inputs(c, acts[0]) + InputsOfAll(c, acts[1..])
  }

  // What a key signs.

  predicate V2Signed(c: Chain, key: Word, x: SolveV2Args, sig: Bytes64) {
    SolvesFit(c.assets, x.args) && c.verify(V2Bytes(c.assets, x), key, sig)
  }

  predicate V3Signed(c: Chain, key: Word, x: SolveV3Args, sig: Bytes64) {
    V3Fits(c.assets, x) && c.verify(V3Bytes(c.assets, x), key, sig)
  }

  predicate TransfersSigned(c: Chain, key: Word, x: TransferOnlyArgs, sig: Bytes64) {
    TransfersFit(c.assets, x.args) && c.verify(TransferOnlyBytes(c.assets, x), key, sig)
  }

  predicate StatementSigned(c: Chain, key: Word, a: Address, x: StatementArgs, sig: Bytes64) {
    |x.msg| < MAX_COUNT && c.verifyHash(c.sha512(StatementPreimage(a, x)), key, sig)
  }

  /** The request holds the payload together with a signature of it that verifies under the key. */
  predicate Grants(c: Chain, key: Word, a: Address, args: Args, p: Payload) {
    match args
    case Solve(items) => p.ItemPayload? && exists i :: 0 <= i < |items| && items[i].args == p.item && ItemSigned(c, key, items[i])
    case SolveV2(x, sig) => p == V2Payload(x) && V2Signed(c, key, x, sig)
    case SolveV3(x, sig) => p == V3Payload(x) && V3Signed(c, key, x, sig)
    case TransferOnly(x, sig) => p == TransferPayload(x) && TransfersSigned(c, key, x, sig)
    case Statement(x, sig) => p == StatementPayload(x) && StatementSigned(c, key, a, x, sig)
    case _ => false
  }

  /** The items a payload has run. */
  function ItemsOf(p: Payload): (xs: seq<SolveArgs>) {
    match p
    case ItemPayload(x) => [x]
    case V2Payload(v) => v.args
    case V3Payload(v) => v.args
    case _ => []
  }

  /** The nonces a payload uses up. */
  function NoncesOf(p: Payload): (ns: set<Word>)
    ensures forall nonce :: nonce in ns ==> nonce < NONCE_LIMIT
  {
    match p
    case TransferPayload(t) => {NonceOf(t.msTs)}
    case StatementPayload(x) => {NonceOf(x.msTs)}
    case _ => set x | x in ItemsOf(p) :: NonceOf(x.msTs)
  }

  /** Whose tokens the items of a payload pull. */
  function Payer(owner: Address, p: Payload): (a: Address) {
    if p.V2Payload? then AddressOf(p.v2.transferOwner) else owner
  }

  // What is watched: an account with its key and owner, and what the run brings in.

  datatype Watch = Watch(at: Address, key: Word, owner: Address, inputs: set<Input>)

  /** A message of the run brought the payload to the account with a signature of its key. */
  ghost predicate Authentic(c: Chain, o: Watch, p: Payload) {
    exists args :: Asked(o.at, args) in o.inputs && Grants(c, o.key, o.at, args, p)
  }

  ghost predicate Vouched(c: Chain, o: Watch, x: SolveArgs, payer: Address) {
    exists p :: Authentic(c, o, p) && x in ItemsOf(p) && payer == Payer(o.owner, p)
  }

  ghost predicate AllVouched(c: Chain, o: Watch, xs: seq<SolveArgs>, payer: Address) {
    forall i :: 0 <= i < |xs| ==> Vouched(c, o, xs[i], payer)
  }

  ghost predicate NonceVouched(c: Chain, o: Watch, nonce: Word) {
    exists p :: Authentic(c, o, p) && nonce in NoncesOf(p)
  }

  ghost predicate TargetVouched(c: Chain, o: Watch, target: Address) {
    exists x, payer :: Vouched(c, o, x, payer) && AddressOf(x.target) == target
  }

  /** The pull of one entry of an item, of one transfer, and of the payment for gas. */
  predicate Takes1(c: Chain, a: Address, payer: Address, f: FromArgs, op: TokenOp) {
    c.asset(f.asset).Some? && op == Pull(c.asset(f.asset).value, a, payer, a, WordOf(f.toTake))
  }

  predicate Sends1(c: Chain, a: Address, t: Transfer, op: TokenOp) {
    c.asset(t.asset).Some? &&
    op == Pull(c.asset(t.asset).value, a, AddressOf(t.from), AddressOf(t.recipient), WordOf(t.amt))
  }

  predicate Pays(c: Chain, a: Address, owner: Address, v: SolveV3Args, op: TokenOp) {
    c.asset(v.gasToken).Some? && op == Pull(c.asset(v.gasToken).value, a, owner, c.clearinghouse, v.gasTokenAmt)
  }

  /** Token, payer, recipient and amount are those of a signed payload. */
  ghost predicate PullVouched(c: Chain, o: Watch, op: TokenOp) {
    || (exists x, payer, i :: Vouched(c, o, x, payer) && 0 <= i < |x.from| && Takes1(c, o.at, payer, x.from[i], op))
    || (exists t, i :: Authentic(c, o, TransferPayload(t)) && 0 <= i < |t.args| && Sends1(c, o.at, t.args[i], op))
    || (exists v :: Authentic(c, o, V3Payload(v)) && Pays(c, o.at, o.owner, v, op))
  }

  /** Can the payment for gas be made at all? */
  predicate Payable(c: Chain, p: Payload) {
    p.V3Payload? ==>
      && c.asset(p.v3.gasToken).Some?
      && (p.v3.gasTokenPermit.Some? ==> p.v3.gasTokenPermit.value.asset == p.v3.gasToken)
  }

  /** What the account does in the event, a signed payload asks for. */
  ghost predicate Genuine(c: Chain, o: Watch, e: Event) {
    match e
    case Spent(b, nonce) => b == o.at ==> NonceVouched(c, o, nonce)
    case Called(b, target, _) => b == o.at ==> TargetVouched(c, o, target)
    case Token(op) => op.Pull? && op.spender == o.at && Operated(op) !in o.inputs ==> PullVouched(c, o, op)
    case Served(b, p) => b == o.at ==> Authentic(c, o, p) && Payable(c, p)
    case _ => true
  }

  ghost predicate AllGenuine(c: Chain, o: Watch, log: seq<Event>) {
    forall i :: 0 <= i < |log| ==> Genuine(c, o, log[i])
  }

  lemma JoinGenuine(c: Chain, o: Watch, s: Step, t: Step)
    requires AllGenuine(c, o, s.log) && AllGenuine(c, o, t.log)
    ensures AllGenuine(c, o, Join(s, t).log)
  {
  }

  lemma NotingGenuine(c: Chain, o: Watch, s: Step, b: Address, ps: seq<Payload>)
    requires AllGenuine(c, o, s.log)
    requires b == o.at ==> forall i :: 0 <= i < |ps| ==> Authentic(c, o, ps[i]) && Payable(c, ps[i])
    ensures AllGenuine(c, o, Noting(s, b, ps).log)
  {
    JoinGenuine(c, o, s, Note(s.w, b, ps));
  }

  /** The account is set up with this key and this owner. */
  predicate Obeys(c: Chain, w: World, o: Watch) {
    SetUp(w, o.at) && KeyOf(c, w, o.at) == o.key && OwnerOf(w, o.at) == o.owner
  }

  lemma {:induction false} ObeysLog(c: Chain, w: World, log: seq<Event>, o: Watch)
    requires Separated(c) && Runs(c, w, log) && Obeys(c, w, o)
    ensures Obeys(c, Replay(c, w, log), o)
    decreases |log|
  {
    if log != [] {
      FrozenStep(c, w, log[0], o.at);
      ObeysLog(c, Apply(c, w, log[0]), log[1..], o);
    }
  }

  ghost predicate OnlyApprovals(log: seq<Event>) {
    forall i :: 0 <= i < |log| ==> log[i].Token? && log[i].op.Approve?
  }

  lemma {:induction false} PermitsApprove(c: Chain, w: World, b: Address, ps: seq<Permit>, owner: Address,
      accepted: seq<bool>)
    ensures OnlyApprovals(Permits(c, w, b, ps, owner, accepted).log)
    decreases ps
  {
    if ps != [] && accepted != [] {
      PermitsApprove(c, Permit1(c, w, b, ps[0].asset, owner, accepted[0]).w, b, ps[1..], owner, accepted[1..]);
    }
  }

  lemma Take1Genuine(c: Chain, o: Watch, w: World, b: Address, x: SolveArgs, i: nat, payer: Address, target: Address)
    requires i < |x.from| && (b == o.at ==> Vouched(c, o, x, payer))
    ensures AllGenuine(c, o, Take1(c, w, b, x.from[i], payer, target).log)
  {
    match c.asset(x.from[i].asset)
    case None =>
    case Some(token) =>
      var op := Pull(token, b, payer, b, WordOf(x.from[i].toTake));
      assert b == o.at ==> Takes1(c, o.at, payer, x.from[i], op);
  }

  lemma {:induction false} TakesGenuine(c: Chain, o: Watch, w: World, b: Address, x: SolveArgs, i: nat, payer: Address,
      target: Address)
    requires i <= |x.from| && (b == o.at ==> Vouched(c, o, x, payer))
    ensures AllGenuine(c, o, Takes(c, w, b, x.from[i..], payer, target).log)
    decreases |x.from| - i
  {
    if i < |x.from| {
      var s := Take1(c, w, b, x.from[i], payer, target);
      assert x.from[i..][1..] == x.from[i + 1..];
      Take1Genuine(c, o, w, b, x, i, payer, target);
      TakesGenuine(c, o, s.w, b, x, i + 1, payer, target);
      JoinGenuine(c, o, s, Takes(c, s.w, b, x.from[i + 1..], payer, target));
    }
  }

  lemma Transfer1Genuine(c: Chain, o: Watch, w: World, b: Address, t: TransferOnlyArgs, i: nat, accepted: bool)
    requires i < |t.args| && (b == o.at ==> Authentic(c, o, TransferPayload(t)))
    ensures AllGenuine(c, o, Transfer1(c, w, b, t.args[i], accepted).log)
  {
    var x := t.args[i];
    match c.asset(x.asset)
    case None =>
    case Some(token) =>
      var op := Pull(token, b, AddressOf(x.from), AddressOf(x.recipient), WordOf(x.amt));
      assert b == o.at ==> Sends1(c, o.at, t.args[i], op);
  }

  lemma {:induction false} TransfersGenuine(c: Chain, o: Watch, w: World, b: Address, t: TransferOnlyArgs, i: nat,
      accepted: seq<bool>)
    requires i <= |t.args| && (b == o.at ==> Authentic(c, o, TransferPayload(t)))
    ensures AllGenuine(c, o, Transfers(c, w, b, t.args[i..], accepted).log)
    decreases |t.args| - i
  {
    if i < |t.args| && accepted != [] {
      var s := Transfer1(c, w, b, t.args[i], accepted[0]);
      assert t.args[i..][1..] == t.args[i + 1..];
      Transfer1Genuine(c, o, w, b, t, i, accepted[0]);
      TransfersGenuine(c, o, s.w, b, t, i + 1, accepted[1..]);
      JoinGenuine(c, o, s, Transfers(c, s.w, b, t.args[i + 1..], accepted[1..]));
    }
  }

  lemma VouchedNonce(c: Chain, o: Watch, x: SolveArgs, payer: Address)
    requires Vouched(c, o, x, payer)
    ensures NonceVouched(c, o, NonceOf(x.msTs)) && TargetVouched(c, o, AddressOf(x.target))
  {
    var p :| Authentic(c, o, p) && x in ItemsOf(p) && payer == Payer(o.owner, p);
    assert NonceOf(x.msTs) in NoncesOf(p);
  }

  lemma ApprovalsGenuine(c: Chain, o: Watch, log: seq<Event>)
    requires OnlyApprovals(log)
    ensures AllGenuine(c, o, log)
  {
  }

  lemma SpentGenuine(c: Chain, o: Watch, w: World, b: Address, nonce: Word)
    requires b == o.at ==> NonceVouched(c, o, nonce)
    ensures AllGenuine(c, o, Raise(c, w, Spent(b, nonce)).log)
  {
  }

  lemma CallOutGenuine(c: Chain, o: Watch, w: World, b: Address, target: Address, reply: Reply)
    requires b == o.at ==> TargetVouched(c, o, target)
    ensures AllGenuine(c, o, CallOut(c, w, b, target, reply).log)
  {
  }

  lemma PrepareGenuine(c: Chain, o: Watch, w: World, b: Address, x: SolveArgs, po: Address, payer: Address,
      reply: Reply)
    requires b == o.at ==> Vouched(c, o, x, payer)
    ensures AllGenuine(c, o, Prepare(c, w, b, x, po, payer, reply).log)
  {
    if b == o.at { VouchedNonce(c, o, x, payer); }
    var target := AddressOf(x.target);
    var spent := Raise(c, w, Spent(b, NonceOf(x.msTs)));
    SpentGenuine(c, o, w, b, NonceOf(x.msTs));
    var permits := Permits(c, spent.w, b, x.permit, po, reply.permits);
    PermitsApprove(c, spent.w, b, x.permit, po, reply.permits);
    ApprovalsGenuine(c, o, permits.log);
    JoinGenuine(c, o, spent, permits);
    var permitted := Join(spent, permits);
    var takes := Takes(c, permitted.w, b, x.from, payer, target);
    TakesGenuine(c, o, permitted.w, b, x, 0, payer, target);
    assert x.from[0..] == x.from;
    JoinGenuine(c, o, permitted, takes);
    var taken := Join(permitted, takes);
    CallOutGenuine(c, o, taken.w, b, target, reply);
    JoinGenuine(c, o, taken, CallOut(c, taken.w, b, target, reply));
  }

  lemma {:induction false} ItemGenuine(c: Chain, o: Watch, w: World, b: Address, x: SolveArgs, po: Address,
      payer: Address,
      reply: Reply)
    requires Separated(c) && Obeys(c, w, o) && (b == o.at ==> Vouched(c, o, x, payer)) && InputsOfReply(c, reply) <= o.inputs
    ensures AllGenuine(c, o, Item(c, w, b, x, po, payer, reply).log)
    decreases reply, 1
  {
    var ready := Prepare(c, w, b, x, po, payer, reply);
    PrepareSound(c, w, b, x, po, payer, reply);
    ObeysLog(c, w, ready.log, o);
    PrepareGenuine(c, o, w, b, x, po, payer, reply);
    ActsGenuine(c, o, ready.w, reply.acts);
    JoinGenuine(c, o, ready, Acts(c, ready.w, reply.acts));
  }

  lemma {:induction false} ItemsGenuine(c: Chain, o: Watch, w: World, b: Address, xs: seq<SolveArgs>, po: Address,
      payer: Address, replies: seq<Reply>)
    requires Separated(c) && Obeys(c, w, o) && (b == o.at ==> AllVouched(c, o, xs, payer))
    requires InputsOfReplies(c, replies) <= o.inputs
    ensures AllGenuine(c, o, Items(c, w, b, xs, po, payer, replies).log)
    decreases replies, 2
  {
    if xs != [] && replies != [] {
      var s := Item(c, w, b, xs[0], po, payer, replies[0]);
      ItemSound(c, w, b, xs[0], po, payer, replies[0]);
      ObeysLog(c, w, s.log, o);
      ItemGenuine(c, o, w, b, xs[0], po, payer, replies[0]);
      assert AllVouched(c, o, xs, payer) ==> AllVouched(c, o, xs[1..], payer);
      ItemsGenuine(c, o, s.w, b, xs[1..], po, payer, replies[1..]);
      JoinGenuine(c, o, s, Items(c, s.w, b, xs[1..], po, payer, replies[1..]));
    }
  }

  lemma BatchAuthentic(c: Chain, o: Watch, items: seq<SolveArgsSigArgs>)
    requires AllSigned(c, o.key, items) && Asked(o.at, Solve(items)) in o.inputs
    ensures forall i :: 0 <= i < |items| ==> Authentic(c, o, ItemPayloads(items)[i])
    ensures AllVouched(c, o, Plain(items), o.owner)
  {
    forall i | 0 <= i < |items| ensures Authentic(c, o, ItemPayloads(items)[i]) && Vouched(c, o, Plain(items)[i], o.owner) {
      var p := ItemPayload(items[i].args);
      assert ItemSigned(c, o.key, items[i]);
      assert Grants(c, o.key, o.at, Solve(items), p);
      assert items[i].args in ItemsOf(p);
    }
  }

  lemma {:induction false} SolveOneGenuine(c: Chain, o: Watch, w: World, b: Address, items: seq<SolveArgsSigArgs>,
      replies: seq<Reply>)
    requires Separated(c) && Obeys(c, w, o) && Asked(b, Solve(items)) in o.inputs && InputsOfReplies(c, replies) <= o.inputs
    ensures AllGenuine(c, o, SolveOne(c, w, b, items, replies).log)
    decreases replies, 3
  {
    if AllSigned(c, KeyOf(c, w, b), items) {
      if b == o.at { BatchAuthentic(c, o, items); }
      ItemsGenuine(c, o, w, b, Plain(items), OwnerOf(w, b), OwnerOf(w, b), replies);
      NotingGenuine(c, o, Items(c, w, b, Plain(items), OwnerOf(w, b), OwnerOf(w, b), replies), b, ItemPayloads(items));
    }
  }

  /** A payload that came with the request vouches for its items. */
  lemma WholeAuthentic(c: Chain, o: Watch, args: Args, p: Payload)
    requires Asked(o.at, args) in o.inputs && Grants(c, o.key, o.at, args, p)
    ensures Authentic(c, o, p) && AllVouched(c, o, ItemsOf(p), Payer(o.owner, p))
  {
  }

  lemma {:induction false} SolveTwoGenuine(c: Chain, o: Watch, w: World, b: Address, x: SolveV2Args, sig: Bytes64,
      replies: seq<Reply>)
    requires Separated(c) && Obeys(c, w, o) && Asked(b, SolveV2(x, sig)) in o.inputs && InputsOfReplies(c, replies) <= o.inputs
    ensures AllGenuine(c, o, SolveTwo(c, w, b, x, sig, replies).log)
    decreases replies, 3
  {
    if V2Signed(c, KeyOf(c, w, b), x, sig) {
      if b == o.at { WholeAuthentic(c, o, SolveV2(x, sig), V2Payload(x)); }
      var s := Items(c, w, b, x.args, AddressOf(x.permitOwner), AddressOf(x.transferOwner), replies);
      ItemsGenuine(c, o, w, b, x.args, AddressOf(x.permitOwner), AddressOf(x.transferOwner), replies);
      NotingGenuine(c, o, s, b, [V2Payload(x)]);
    }
  }

  lemma PayGasGenuine(c: Chain, o: Watch, w: World, b: Address, x: SolveV3Args, accepted: bool)
    requires Obeys(c, w, o) && (b == o.at ==> Authentic(c, o, V3Payload(x)))
    ensures AllGenuine(c, o, PayGas(c, w, b, x, accepted).log)
    ensures PayGas(c, w, b, x, accepted).ok ==> Payable(c, V3Payload(x))
  {
    match c.asset(x.gasToken)
    case None =>
    case Some(token) =>
      var op := Pull(token, b, OwnerOf(w, b), c.clearinghouse, x.gasTokenAmt);
      assert b == o.at ==> Pays(c, o.at, o.owner, x, op);
  }

  lemma GasNoted(c: Chain, o: Watch, paid: Step, solved: Step, b: Address, x: SolveV3Args)
    requires AllGenuine(c, o, paid.log) && AllGenuine(c, o, solved.log)
    requires b == o.at ==> Authentic(c, o, V3Payload(x))
    requires paid.ok ==> Payable(c, V3Payload(x))
    ensures AllGenuine(c, o, Noting(Join(paid, solved), b, [V3Payload(x)]).log)
  {
    JoinGenuine(c, o, paid, solved);
    if paid.ok { NotingGenuine(c, o, Join(paid, solved), b, [V3Payload(x)]); }
  }

  lemma {:induction false} SolveThreeGenuine(c: Chain, o: Watch, w: World, b: Address, x: SolveV3Args, sig: Bytes64,
      accepted: bool, replies: seq<Reply>)
    requires Separated(c) && Obeys(c, w, o) && Asked(b, SolveV3(x, sig)) in o.inputs && InputsOfReplies(c, replies) <= o.inputs
    ensures AllGenuine(c, o, SolveThree(c, w, b, x, sig, accepted, replies).log)
    decreases replies, 3
  {
    if V3Signed(c, KeyOf(c, w, b), x, sig) {
      if b == o.at { WholeAuthentic(c, o, SolveV3(x, sig), V3Payload(x)); }
      var paid := PayGas(c, w, b, x, accepted);
      PayGasGenuine(c, o, w, b, x, accepted);
      PayGasSound(c, w, b, x, accepted);
      ObeysLog(c, w, paid.log, o);
      var solved := Items(c, paid.w, b, x.args, OwnerOf(w, b), OwnerOf(w, b), replies);
      ItemsGenuine(c, o, paid.w, b, x.args, OwnerOf(w, b), OwnerOf(w, b), replies);
      GasNoted(c, o, paid, solved, b, x);
    }
  }

  lemma TransferAllGenuine(c: Chain, o: Watch, w: World, b: Address, x: TransferOnlyArgs, sig: Bytes64,
      accepted: seq<bool>)
    requires Obeys(c, w, o) && Asked(b, TransferOnly(x, sig)) in o.inputs
    ensures AllGenuine(c, o, TransferAll(c, w, b, x, sig, accepted).log)
  {
    if TransfersSigned(c, KeyOf(c, w, b), x, sig) {
      if b == o.at {
        WholeAuthentic(c, o, TransferOnly(x, sig), TransferPayload(x));
        assert NonceOf(x.msTs) in NoncesOf(TransferPayload(x));
      }
      var s := Raise(c, w, Spent(b, NonceOf(x.msTs)));
      var sent := Transfers(c, s.w, b, x.args, accepted);
      TransfersGenuine(c, o, s.w, b, x, 0, accepted);
      assert x.args[0..] == x.args;
      JoinGenuine(c, o, s, sent);
      NotingGenuine(c, o, Join(s, sent), b, [TransferPayload(x)]);
    }
  }

  lemma StateGenuine(c: Chain, o: Watch, w: World, b: Address, x: StatementArgs, sig: Bytes64)
    requires Obeys(c, w, o) && Asked(b, Statement(x, sig)) in o.inputs
    ensures AllGenuine(c, o, State(c, w, b, x, sig).log)
  {
    if StatementSigned(c, KeyOf(c, w, b), b, x, sig) {
      if b == o.at {
        WholeAuthentic(c, o, Statement(x, sig), StatementPayload(x));
        assert NonceOf(x.msTs) in NoncesOf(StatementPayload(x));
      }
      NotingGenuine(c, o, Raise(c, w, Spent(b, NonceOf(x.msTs))), b, [StatementPayload(x)]);
    }
  }

  lemma GuardedGenuine(c: Chain, o: Watch, w: World, b: Address, s: Step)
    requires AllGenuine(c, o, s.log)
    ensures AllGenuine(c, o, Guarded(c, w, b, s).log)
  {
  }

  lemma LockObeys(c: Chain, w: World, b: Address, o: Watch)
    requires Obeys(c, w, o)
    ensures Obeys(c, Lock(c, w, b), o)
  {
  }

  lemma {:induction false} GuardedSolveGenuine(c: Chain, o: Watch, w: World, b: Address, items: seq<SolveArgsSigArgs>,
      replies: seq<Reply>)
    requires Separated(c) && Obeys(c, w, o) && Asked(b, Solve(items)) in o.inputs && InputsOfReplies(c, replies) <= o.inputs
    ensures AllGenuine(c, o, Guarded(c, w, b, SolveOne(c, Lock(c, w, b), b, items, replies)).log)
    decreases replies, 4
  {
    LockObeys(c, w, b, o);
    SolveOneGenuine(c, o, Lock(c, w, b), b, items, replies);
    GuardedGenuine(c, o, w, b, SolveOne(c, Lock(c, w, b), b, items, replies));
  }

  lemma {:induction false} AttachGenuine(c: Chain, o: Watch, w: World, b: Address, items: seq<SolveArgsSigArgs>,
      replies: seq<Reply>)
    requires Separated(c) && Obeys(c, w, o) && Asked(b, Solve(items)) in o.inputs && InputsOfReplies(c, replies) <= o.inputs
    ensures AllGenuine(c, o, Attach(c, w, b, items, replies).log)
    decreases replies, 5
  {
    if ItemsFit(c.assets, items) {
      BatchArrives(c, items);
      GuardedSolveGenuine(c, o, w, b, items, replies);
    }
  }

  lemma {:induction false} FreshGenuine(c: Chain, o: Watch, w: World, b: Address, args: Args, replies: seq<Reply>)
    requires Separated(c) && Obeys(c, w, o) && args.FreshBackwards? && InputsOfReplies(c, replies) <= o.inputs
    requires Asked(ProxyAt(c, b, AddressOf(args.eoaAddr)), Solve(args.solveArgs)) in o.inputs
    ensures AllGenuine(c, o, Fresh(c, w, b, args, replies).log)
    decreases replies, 6
  {
    var x := ConsentOf(args);
    var made := Create(c, w, b, x);
    CreateSound(c, w, b, x);
    CreateIsBirth(c, w, b, x);
    ObeysLog(c, w, made.log, o);
    var at := ProxyAt(c, b, x.eoa);
    AttachGenuine(c, o, made.w, at, args.solveArgs, replies);
    JoinGenuine(c, o, made, Attach(c, made.w, at, args.solveArgs, replies));
  }

  lemma {:induction false} HandleGenuine(c: Chain, o: Watch, w: World, b: Address, args: Args, gasPermit: bool,
      replies: seq<Reply>)
    requires Separated(c) && Obeys(c, w, o) && Asked(b, args) in o.inputs && InputsOfReplies(c, replies) <= o.inputs
    requires args.FreshBackwards? ==> Asked(ProxyAt(c, b, AddressOf(args.eoaAddr)), Solve(args.solveArgs)) in o.inputs
    ensures AllGenuine(c, o, Handle(c, w, b, args, gasPermit, replies).log)
    decreases replies, 7
  {
    var locked := Lock(c, w, b);
    LockObeys(c, w, b, o);
    match args
    case FreshBackwards(_, _, _, _, _, _, _) => FreshGenuine(c, o, w, b, args, replies);
    case Solve(items) => GuardedSolveGenuine(c, o, w, b, items, replies);
    case SolveV2(x, sig) =>
      SolveTwoGenuine(c, o, locked, b, x, sig, replies);
      GuardedGenuine(c, o, w, b, SolveTwo(c, locked, b, x, sig, replies));
    case TransferOnly(x, sig) =>
      TransferAllGenuine(c, o, locked, b, x, sig, PermitsIn(replies));
      GuardedGenuine(c, o, w, b, TransferAll(c, locked, b, x, sig, PermitsIn(replies)));
    case Statement(x, sig) => StateGenuine(c, o, w, b, x, sig);
    case SolveV3(x, sig) => SolveThreeGenuine(c, o, w, b, x, sig, gasPermit, replies);
    case _ =>
  }

  lemma {:induction false} RunGenuine(c: Chain, o: Watch, w: World, b: Address, sender: Address, cd: seq<Byte>,
      gasPermit: bool, replies: seq<Reply>)
    requires Separated(c) && Obeys(c, w, o) && Carried(c, b, cd) <= o.inputs && InputsOfReplies(c, replies) <= o.inputs
    ensures AllGenuine(c, o, Run(c, w, b, sender, cd, gasPermit, replies).log)
    decreases replies, 8
  {
    match RouteOf(c, cd)
    case Request(args) =>
      assert Asked(b, args) in Carried(c, b, cd);
      HandleGenuine(c, o, w, b, args, gasPermit, replies);
    case _ =>
  }

  lemma {:induction false} UpgradedGenuine(c: Chain, o: Watch, w: World, b: Address, sender: Address, impl: Address,
      data: seq<Byte>, gasPermit: bool, replies: seq<Reply>)
    requires Separated(c) && Obeys(c, w, o) && Carried(c, b, data) <= o.inputs && InputsOfReplies(c, replies) <= o.inputs
    ensures var s := Raise(c, w, Upgraded(b, sender, impl));
            AllGenuine(c, o, s.log) && AllGenuine(c, o, Join(s, Run(c, s.w, b, sender, data, gasPermit, replies)).log)
    decreases replies, 9
  {
    var s := Raise(c, w, Upgraded(b, sender, impl));
    RaiseSound(c, w, Upgraded(b, sender, impl));
    ObeysLog(c, w, s.log, o);
    RunGenuine(c, o, s.w, b, sender, data, gasPermit, replies);
    JoinGenuine(c, o, s, Run(c, s.w, b, sender, data, gasPermit, replies));
  }

  lemma {:induction false} UpgradeGenuine(c: Chain, o: Watch, w: World, b: Address, sender: Address, cd: seq<Byte>,
      gasPermit: bool, replies: seq<Reply>)
    requires Separated(c) && Obeys(c, w, o) && Brought(c, b, cd) <= o.inputs && InputsOfReplies(c, replies) <= o.inputs
    ensures AllGenuine(c, o, Upgrade(c, w, b, sender, cd, gasPermit, replies).log)
    decreases replies, 10
  {
    match UpgradeCall(cd)
    case None =>
    case Some((impl, data)) => UpgradedGenuine(c, o, w, b, sender, impl, data, gasPermit, replies);
  }

  lemma {:induction false} ReceiveGenuine(c: Chain, o: Watch, w: World, b: Address, sender: Address, cd: seq<Byte>,
      gasPermit: bool, replies: seq<Reply>)
    requires Separated(c) && Obeys(c, w, o) && Brought(c, b, cd) <= o.inputs && InputsOfReplies(c, replies) <= o.inputs
    ensures AllGenuine(c, o, Receive(c, w, b, sender, cd, gasPermit, replies).log)
    decreases replies, 11
  {
    RunGenuine(c, o, w, b, sender, cd, gasPermit, replies);
    UpgradeGenuine(c, o, w, b, sender, cd, gasPermit, replies);
  }

  lemma {:induction false} PerformGenuine(c: Chain, o: Watch, w: World, act: Act)
    requires Separated(c) && Obeys(c, w, o) && Inputs(c, act) <= o.inputs
    ensures AllGenuine(c, o, Perform(c, w, act).log)
    decreases act, 12
  {
    match act
    case Message(b, sender, cd, gasPermit, replies) => ReceiveGenuine(c, o, w, b, sender, cd, gasPermit, replies);
    case _ =>
  }

  lemma {:induction false} ActsGenuine(c: Chain, o: Watch, w: World, acts: seq<Act>)
    requires Separated(c) && Obeys(c, w, o) && InputsOfAll(c, acts) <= o.inputs
    ensures AllGenuine(c, o, Acts(c, w, acts).log)
    decreases acts, 13
  {
    if acts != [] {
      var s := Perform(c, w, acts[0]);
      PerformSound(c, w, acts[0]);
      ObeysLog(c, w, s.log, o);
      PerformGenuine(c, o, w, acts[0]);
      ActsGenuine(c, o, s.w, acts[1..]);
      JoinGenuine(c, o, s, Acts(c, s.w, acts[1..]));
    }
  }

  /** The account at `a`, watched over a run. */
  function WatchOver(c: Chain, w: World, a: Address, acts: seq<Act>): (o: Watch) {
    Watch(a, KeyOf(c, w, a), OwnerOf(w, a), InputsOfAll(c, acts))
  }

  /** Over every run, whatever an account at version 2 serves came to it in the calldata of a message of the
      run, nested ones included, with a signature there that verifies under its key; and it consumes a nonce,
      calls a target, or pulls tokens only as such a payload asks, with its token, payer, recipient and
      amount. */
  lemma OnlyWhatWasSigned(c: Chain, w: World, acts: seq<Act>, a: Address, i: nat)
    requires Separated(c) && SetUp(w, a) && i < |Acts(c, w, acts).log|
    ensures Genuine(c, WatchOver(c, w, a, acts), Acts(c, w, acts).log[i])
  {
    ActsGenuine(c, WatchOver(c, w, a, acts), w, acts);
  }
}
