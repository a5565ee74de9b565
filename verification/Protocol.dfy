/** What an account does with a message, down to the bytes, with the whole world answering. */
module Protocol {
  import opened Words
  import Evm
  import opened Ledger
  import opened Accounts
  import opened Wire
  import Hex
  import Proxy = BeaconProxy

  /** What the world answers while one item of a request runs: which permits the tokens accept, the
      target's code hash, what an authority that is not an Authority9lives contract says of it, and
      what the target does when called. Before it succeeds or fails it may do anything, such as
      sending messages to any account. */
  datatype Reply = Reply(permits: seq<bool>, codeHash: Word, allowed: bool, acts: seq<Act>, ok: bool)

  /** Something that happens to the world. */
  datatype Act =
    | Message(recipient: Address, sender: Address, calldata: seq<Byte>, gasPermit: bool, replies: seq<Reply>)
    | Tokens(op: TokenOp)
    | Deploy(registry: Address)
    | Init(registry: Address, operator: Address)
    | Register(registry: Address, sender: Address, hash: Word, allowed: bool)
    | Scan(registry: Address, sender: Address, dppm: Word, amm: Word)
    // A frame of some other contract that does all this and is then reverted.
    | Undone(acts: seq<Act>)

  /** A request that holds the lock begins or ends. */
  datatype Mark = Enter(at: Address) | Leave(at: Address)

  /** How far something got: whether it went well, the world it reached, the changes that took it
      there, and the marks it left on the way, including those of failed messages. */
  datatype Step = Step(ok: bool, w: World, log: seq<Event>, marks: seq<Mark>)

  function Skip(w: World): (s: Step) { Step(true, w, [], []) }

  function Fail(w: World): (s: Step) { Step(false, w, [], []) }

  function Raise(c: Chain, w: World, e: Event): (s: Step) {
    if Enabled(c, w, e) then Step(true, Apply(c, w, e), [e], []) else Fail(w)
  }

  /** `t`, which begins where `s` ended, counts only if `s` went well. */
  function Join(s: Step, t: Step): (r: Step) {
    if s.ok then Step(t.ok, t.w, s.log + t.log, s.marks + t.marks) else s
  }

  function Require(s: Step, condition: bool): (r: Step) {
    s.(ok := s.ok && condition)
  }

  /** The payloads have been served. */
  function Note(w: World, a: Address, ps: seq<Payload>): (s: Step) {
    Step(true, w, seq(|ps|, i requires 0 <= i < |ps| => Served(a, ps[i])), [])
  }

  function Noting(s: Step, a: Address, ps: seq<Payload>): (r: Step) {
    Join(s, Note(s.w, a, ps))
  }

  /** Undoes what failed. */
  function Settle(w: World, s: Step): (r: Step) {
    if s.ok then s else Step(false, w, [], s.marks)
  }

  /** `s` is what happens while `a` is locked. */
  function Guarded(c: Chain, w: World, a: Address, s: Step): (r: Step) {
    if !Enabled(c, w, Locked(a)) then Fail(w)
    else
      var body := Join(Raise(c, w, Locked(a)).(marks := [Enter(a)]), s);
      var end := Join(body, Raise(c, body.w, Unlocked(a)));
      end.(marks := end.marks + [Leave(a)])
  }

  function WordOf(b: Bytes32): (v: Word) { Widths(); BytesOfNatOf(b); NatOf(b) }

  function AddressOf(b: Bytes20): (v: Address) { Widths(); BytesOfNatOf(b); NatOf(b) }

  function NonceOf(b: seq<Byte>): (v: Word)
    requires |b| <= 16
    ensures v < NONCE_LIMIT
  {
    BytesOfNatOf(b);
    Pow256Monotone(|b|, 16);
    Pow256Four(0);
    Pow256Four(4);
    Pow256Four(8);
    Pow256Four(12);
    NatOf(b)
  }

  /** The numbers in a request are those whose big-endian bytes it has. */
  lemma Numbers(word: Bytes32, address: Bytes20, nonce: Bytes16, short: Bytes6)
    ensures BytesOf(WordOf(word), 32) == word && BytesOf(AddressOf(address), 20) == address
    ensures BytesOf(NonceOf(nonce), 16) == nonce && BytesOf(NonceOf(short), 6) == short
  {
    BytesOfNatOf(word);
    BytesOfNatOf(address);
    BytesOfNatOf(nonce);
    BytesOfNatOf(short);
  }

  /** The key an account obeys. */
  function KeyOf(c: Chain, w: World, a: Address): (v: Word) {
    Evm.Load(Store(w, a), KeySlot(c))
  }

  function OwnerOf(w: World, a: Address): (v: Address) {
    AddressIn(Evm.Load(Store(w, a), SLOT_OWNER))
  }

  // Solving.

  function Permit1(c: Chain, w: World, a: Address, asset: Byte, owner: Address, accepted: bool): (s: Step) {
    match c.asset(asset)
    case None => Fail(w)
    case Some(token) => if accepted then Raise(c, w, Token(Approve(token, owner, a, MAX))) else Fail(w)
  }

  function Permits(c: Chain, w: World, a: Address, ps: seq<Permit>, owner: Address, accepted: seq<bool>): (s: Step)
    decreases ps
  {
    if ps == [] then Skip(w)
    else if accepted == [] then Fail(w)
    else
      var s := Permit1(c, w, a, ps[0].asset, owner, accepted[0]);
      Join(s, Permits(c, s.w, a, ps[1..], owner, accepted[1..]))
  }

  function Take1(c: Chain, w: World, a: Address, f: FromArgs, owner: Address, target: Address): (s: Step) {
    match c.asset(f.asset)
    case None => Fail(w)
    case Some(token) =>
      var s := Raise(c, w, Token(Pull(token, a, owner, a, WordOf(f.toTake))));
      Join(s, Raise(c, s.w, Token(Approve(token, a, target, WordOf(f.toTake)))))
  }

  function Takes(c: Chain, w: World, a: Address, fs: seq<FromArgs>, owner: Address, target: Address): (s: Step)
    decreases fs
  {
    if fs == [] then Skip(w)
    else
      var s := Take1(c, w, a, fs[0], owner, target);
      Join(s, Takes(c, s.w, a, fs[1..], owner, target))
  }

  predicate Kept1(c: Chain, w: World, a: Address, f: FromArgs) {
    match c.asset(f.asset)
    case None => false
    case Some(token) => Balance(w.ledger, token, a) >= WordOf(f.maxUnspent)
  }

  predicate Kept(c: Chain, w: World, a: Address, fs: seq<FromArgs>) {
    forall i :: 0 <= i < |fs| ==> Kept1(c, w, a, fs[i])
  }

  /** Does the authority, if there is one, let the account call code with this hash? */
  predicate Admits(w: World, a: Address, reply: Reply) {
    var authority := Evm.Load(Store(w, a), SLOT_AUTHORITY);
    authority == 0 || AddressIn(authority) in w.registries || reply.allowed
  }

  function CallOut(c: Chain, w: World, a: Address, target: Address, reply: Reply): (s: Step) {
    if Admits(w, a, reply) then Raise(c, w, Called(a, target, reply.codeHash)) else Fail(w)
  }

  /** An item up to the call of its target. */
  function Prepare(c: Chain, w: World, a: Address, x: SolveArgs, permitOwner: Address, transferOwner: Address,
        reply: Reply): (s: Step) {
    var spent := Raise(c, w, Spent(a, NonceOf(x.msTs)));
    var permitted := Join(spent, Permits(c, spent.w, a, x.permit, permitOwner, reply.permits));
    var taken := Join(permitted, Takes(c, permitted.w, a, x.from, transferOwner, AddressOf(x.target)));
    Join(taken, CallOut(c, taken.w, a, AddressOf(x.target), reply))
  }

  function Item(c: Chain, w: World, a: Address, x: SolveArgs, permitOwner: Address, transferOwner: Address,
        reply: Reply): (s: Step)
    decreases reply, 1
  {
    var ready := Prepare(c, w, a, x, permitOwner, transferOwner, reply);
    var done := Join(ready, Acts(c, ready.w, reply.acts));
    Require(done, reply.ok && Kept(c, done.w, a, x.from))
  }

  /** One reply for each item; without a reply the call fails. */
  function Items(c: Chain, w: World, a: Address, xs: seq<SolveArgs>, permitOwner: Address, transferOwner: Address,
        replies: seq<Reply>): (s: Step)
    decreases replies, 2
  {
    if xs == [] then Skip(w)
    else if replies == [] then Fail(w)
    else
      var s := Item(c, w, a, xs[0], permitOwner, transferOwner, replies[0]);
      Join(s, Items(c, s.w, a, xs[1..], permitOwner, transferOwner, replies[1..]))
  }

  function Plain(items: seq<SolveArgsSigArgs>): (xs: seq<SolveArgs>)
    ensures |xs| == |items|
  {
    seq(|items|, i requires 0 <= i < |items| => items[i].args)
  }

  function ItemPayloads(items: seq<SolveArgsSigArgs>): (ps: seq<Payload>)
    ensures |ps| == |items|
  {
    seq(|items|, i requires 0 <= i < |items| => ItemPayload(items[i].args))
  }

  predicate ItemSigned(c: Chain, key: Word, x: SolveArgsSigArgs) {
    SolveFits(c.assets, x.args) && c.verify(SolveBytes(c.assets, x.args), key, x.sig)
  }

  predicate AllSigned(c: Chain, key: Word, items: seq<SolveArgsSigArgs>) {
    forall i :: 0 <= i < |items| ==> ItemSigned(c, key, items[i])
  }

  function SolveOne(c: Chain, w: World, a: Address, items: seq<SolveArgsSigArgs>, replies: seq<Reply>): (s: Step)
    decreases replies, 3
  {
    if AllSigned(c, KeyOf(c, w, a), items) then
      Noting(Items(c, w, a, Plain(items), OwnerOf(w, a), OwnerOf(w, a), replies), a, ItemPayloads(items))
    else Fail(w)
  }

  function SolveTwo(c: Chain, w: World, a: Address, x: SolveV2Args, sig: Bytes64, replies: seq<Reply>): (s: Step)
    decreases replies, 3
  {
    if SolvesFit(c.assets, x.args) && c.verify(V2Bytes(c.assets, x), KeyOf(c, w, a), sig)
    then Noting(Items(c, w, a, x.args, AddressOf(x.permitOwner), AddressOf(x.transferOwner), replies), a, [V2Payload(x)])
    else Fail(w)
  }

  /** The payment for gas that comes before a SolveV3. */
  function PayGas(c: Chain, w: World, a: Address, x: SolveV3Args, accepted: bool): (s: Step) {
    match c.asset(x.gasToken)
    case None => Fail(w)
    case Some(token) =>
      var s :=
        (match x.gasTokenPermit
         case None => Skip(w)
         case Some(p) => if p.asset == x.gasToken then Permit1(c, w, a, p.asset, OwnerOf(w, a), accepted) else Fail(w));
      Join(s, Raise(c, s.w, Token(Pull(token, a, OwnerOf(w, a), c.clearinghouse, x.gasTokenAmt))))
  }

  function SolveThree(c: Chain, w: World, a: Address, x: SolveV3Args, sig: Bytes64, accepted: bool,
        replies: seq<Reply>): (s: Step)
    decreases replies, 3
  {
    if V3Fits(c.assets, x) && c.verify(V3Bytes(c.assets, x), KeyOf(c, w, a), sig) then
      var paid := PayGas(c, w, a, x, accepted);
      Noting(Join(paid, Items(c, paid.w, a, x.args, OwnerOf(w, a), OwnerOf(w, a), replies)), a, [V3Payload(x)])
    else Fail(w)
  }

  // Transfers and statements.

  function Transfer1(c: Chain, w: World, a: Address, t: Transfer, accepted: bool): (s: Step) {
    match c.asset(t.asset)
    case None => Fail(w)
    case Some(token) =>
      var s := if t.permit.Some? then Permit1(c, w, a, t.asset, AddressOf(t.from), accepted) else Skip(w);
      Join(s, Raise(c, s.w, Token(Pull(token, a, AddressOf(t.from), AddressOf(t.recipient), WordOf(t.amt)))))
  }

  /** One answer for each transfer; it matters only where there is a permit. */
  function Transfers(c: Chain, w: World, a: Address, ts: seq<Transfer>, accepted: seq<bool>): (s: Step)
    decreases ts
  {
    if ts == [] then Skip(w)
    else if accepted == [] then Fail(w)
    else
      var s := Transfer1(c, w, a, ts[0], accepted[0]);
      Join(s, Transfers(c, s.w, a, ts[1..], accepted[1..]))
  }

  function PermitsIn(replies: seq<Reply>): (accepted: seq<bool>) {
    if replies == [] then [] else replies[0].permits
  }

  function TransferAll(c: Chain, w: World, a: Address, x: TransferOnlyArgs, sig: Bytes64,
        accepted: seq<bool>): (s: Step) {
    if TransfersFit(c.assets, x.args) && c.verify(TransferOnlyBytes(c.assets, x), KeyOf(c, w, a), sig) && x.args != [] then
      var s := Raise(c, w, Spent(a, NonceOf(x.msTs)));
      Noting(Join(s, Transfers(c, s.w, a, x.args, accepted)), a, [TransferPayload(x)])
    else Fail(w)
  }

  const STATEMENT_TEXT: string := "Superposition Accounts statement for "

  function StatementPreimage(a: Address, x: StatementArgs): (b: seq<Byte>)
    requires |x.msg| < MAX_COUNT
  {
    Hex.Ascii(STATEMENT_TEXT + Hex.Encode(BytesOf(a, 20))) + StatementBytes(x)
  }

  function State(c: Chain, w: World, a: Address, x: StatementArgs, sig: Bytes64): (s: Step) {
    if |x.msg| < MAX_COUNT && c.verifyHash(c.sha512(StatementPreimage(a, x)), KeyOf(c, w, a), sig)
    then Noting(Raise(c, w, Spent(a, NonceOf(x.msTs))), a, [StatementPayload(x)])
    else Fail(w)
  }

  // Where calldata goes.

  datatype Route =
    | Implementation
    | Migration(key: Word, owner: Word, impl: Word, authority: Word)
    | Request(args: Args)
    | Malformed

  function RouteOf(c: Chain, cd: seq<Byte>): (r: Route) {
    if cd == [] then Implementation
    else if |cd| > 4 && cd[..4] == Proxy.SEL_MIGRATE then
      if |cd| < 132 then Malformed
      else Migration(WordOf(cd[4..36]), WordOf(cd[36..68]), WordOf(cd[68..100]), WordOf(cd[100..132]))
    else
      match Wire.DecodeArgs(c.assets, cd)
      case Failed => Malformed
      case Parsed(args, _) => Request(args)
  }

  function MigrateCd(key: Word, owner: Word, impl: Word, authority: Word): (cd: seq<Byte>) {
    Proxy.SEL_MIGRATE + BytesOf(key, 32) + BytesOf(owner, 32) + BytesOf(impl, 32) + BytesOf(authority, 32)
  }

  function Migrate(c: Chain, w: World, a: Address, sender: Address, cd: seq<Byte>): (s: Step) {
    match RouteOf(c, cd)
    case Migration(key, owner, impl, authority) => Raise(c, w, Migrated(a, sender, key, owner, impl, authority))
    case _ => Fail(w)
  }

  // Creation.

  function ConsentOf(args: Args): (x: Consent)
    requires args.FreshBackwards?
  {
    var authority := if args.authority.Some? then AddressOf(args.authority.value) else 0;
    Consent(AddressOf(args.eoaAddr), WordOf(args.key), authority, args.v, WordOf(args.r), WordOf(args.s))
  }

  /** The account for the EOA: an empty contract at its address, migrated by the factory. */
  function Create(c: Chain, w: World, factory: Address, x: Consent): (s: Step) {
    var impl := Evm.Load(Store(w, factory), SLOT_IMPL);
    var at := ProxyAt(c, factory, x.eoa);
    if !Consented(c, x) || impl == 0 || at in w.accounts then Fail(w)
    else
      var empty := w.(accounts := w.accounts[at := Account(false, map[], false)]);
      var s := Migrate(c, empty, at, factory, MigrateCd(x.key, x.eoa, impl, x.authority));
      s.(log := [Created(factory, x)])
  }

  /** The request that comes with a new account, as the account reads it. */
  function Attached(c: Chain, items: seq<SolveArgsSigArgs>): (r: Route) {
    if ItemsFit(c.assets, items) then RouteOf(c, EncodeArgs(c.assets, Solve(items))) else Malformed
  }

  function Lock(c: Chain, w: World, a: Address): (r: World) {
    Raise(c, w, Locked(a)).w
  }

  function Attach(c: Chain, w: World, a: Address, items: seq<SolveArgsSigArgs>, replies: seq<Reply>): (s: Step)
    decreases replies, 4
  {
    match Attached(c, items)
    case Request(Solve(xs)) => Guarded(c, w, a, SolveOne(c, Lock(c, w, a), a, xs, replies))
    case _ => Fail(w)
  }

  function Fresh(c: Chain, w: World, factory: Address, args: Args, replies: seq<Reply>): (s: Step)
    requires args.FreshBackwards?
    decreases replies, 5
  {
    var x := ConsentOf(args);
    var made := Create(c, w, factory, x);
    if args.solveArgs == [] then made
    else Join(made, Attach(c, made.w, ProxyAt(c, factory, x.eoa), args.solveArgs, replies))
  }

  /** The dispatcher. */
  function Handle(c: Chain, w: World, a: Address, args: Args, gasPermit: bool, replies: seq<Reply>): (s: Step)
    decreases replies, 6
  {
    match args
    case FreshBackwards(_, _, _, _, _, _, _) => Fresh(c, w, a, args, replies)
    case Solve(items) => Guarded(c, w, a, SolveOne(c, Lock(c, w, a), a, items, replies))
    case SolveV2(x, sig) => Guarded(c, w, a, SolveTwo(c, Lock(c, w, a), a, x, sig, replies))
    case TransferOnly(x, sig) => Guarded(c, w, a, TransferAll(c, Lock(c, w, a), a, x, sig, PermitsIn(replies)))
    case Statement(x, sig) => State(c, w, a, x, sig)
    case SolveV3(x, sig) => SolveThree(c, w, a, x, sig, gasPermit, replies)
    case AssetsVersion => Fail(w)
    case _ => Skip(w)
  }

  /** The account code on some calldata. */
  function Run(c: Chain, w: World, a: Address, sender: Address, cd: seq<Byte>, gasPermit: bool,
        replies: seq<Reply>): (s: Step)
    decreases replies, 7
  {
    match RouteOf(c, cd)
    case Implementation => Skip(w)
    case Migration(_, _, _, _) => Migrate(c, w, a, sender, cd)
    case Request(args) => Handle(c, w, a, args, gasPermit, replies)
    case Malformed => Fail(w)
  }

  const SEL_UPGRADE: seq<Byte> := [0x4f, 0x1e, 0xf2, 0x86]

  /** The arguments of upgradeToAndCall(address,bytes), if they decode. */
  function UpgradeCall(cd: seq<Byte>): (r: Option<(Address, seq<Byte>)>) {
    if |cd| < 68 || cd[..4] != SEL_UPGRADE then None
    else
      var impl, from := WordOf(cd[4..36]), 4 + WordOf(cd[36..68]);
      if impl >= ADDRESS_LIMIT || from + 32 > |cd| then None
      else
        var size := WordOf(cd[from..from + 32]);
        if from + 32 + size > |cd| then None else Some((impl, cd[from + 32..from + 32 + size]))
  }

  /** A message from the admin of the upgradeable proxy. */
  function Upgrade(c: Chain, w: World, a: Address, sender: Address, cd: seq<Byte>, gasPermit: bool,
        replies: seq<Reply>): (s: Step)
    decreases replies, 8
  {
    match UpgradeCall(cd)
    case None => Fail(w)
    case Some((impl, data)) =>
      var s := Raise(c, w, Upgraded(a, sender, impl));
      if data == [] then s else Join(s, Run(c, s.w, a, sender, data, gasPermit, replies))
  }

  function Receive(c: Chain, w: World, a: Address, sender: Address, cd: seq<Byte>, gasPermit: bool,
        replies: seq<Reply>): (s: Step)
    decreases replies, 9
  {
    if a !in w.accounts then Skip(w)
    else if w.accounts[a].upgradeable && AddressIn(Evm.Load(Store(w, a), SLOT_ADMIN)) == sender
    then Upgrade(c, w, a, sender, cd, gasPermit, replies)
    else Run(c, w, a, sender, cd, gasPermit, replies)
  }

  function Try(s: Step): (r: Step) {
    s.(ok := true)
  }

  /** One act; a failed one changes nothing. */
  function Perform(c: Chain, w: World, act: Act): (s: Step)
    decreases act, 10
  {
    match act
    case Message(a, sender, cd, gasPermit, replies) => Try(Settle(w, Receive(c, w, a, sender, cd, gasPermit, replies)))
    case Tokens(op) => Try(Raise(c, w, Token(op)))
    case Deploy(registry) => Try(Raise(c, w, Deployed(registry)))
    case Init(registry, operator) => Try(Raise(c, w, Initialised(registry, operator)))
    case Register(registry, sender, hash, allowed) => Try(Raise(c, w, Registered(registry, sender, hash, allowed)))
    case Scan(registry, sender, dppm, amm) =>
      var s := Raise(c, w, Registered(registry, sender, dppm, true));
      Try(Settle(w, Join(s, Raise(c, s.w, Registered(registry, sender, amm, true)))))
    case Undone(acts) => Step(true, w, [], Acts(c, w, acts).marks)
  }

  function Acts(c: Chain, w: World, acts: seq<Act>): (s: Step)
    decreases acts, 11
  {
    if acts == [] then Skip(w)
    else
      var s := Perform(c, w, acts[0]);
      Join(s, Acts(c, s.w, acts[1..]))
  }
}
