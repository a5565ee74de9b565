/** How an account can lose tokens to a target that keeps to its allowance: two signed requests, the first
    of which lets the account spend its own tokens, and the second pulls them from the account itself. */
module OwnTokens {
  import opened Words
  import Evm
  import opened Ledger
  import opened Accounts
  import opened Wire
  import opened Protocol
  import opened ProtocolRuns
  import opened Entrypoint
  import opened AccountHistory
  import opened Batches
  import opened Spending

  /** An account in service: set up, behind a beacon proxy, idle and without an authority. */
  predicate InService(w: World, a: Address) {
    SetUp(w, a) && !w.accounts[a].upgradeable && !w.accounts[a].locked && Evm.Load(Store(w, a), SLOT_AUTHORITY) == 0
  }

  predicate SignedV2(c: Chain, w: World, a: Address, v: SolveV2Args, sig: Bytes64) {
    SolvesFit(c.assets, v.args) && c.verify(V2Bytes(c.assets, v), KeyOf(c, w, a), sig)
  }

  function Send2(c: Chain, a: Address, sender: Address, v: SolveV2Args, sig: Bytes64, reply: Reply): (act: Act)
    requires SolvesFit(c.assets, v.args)
  {
    Message(a, sender, EncodeArgs(c.assets, SolveV2(v, sig)), false, [reply])
  }

  /** A signed SolveV2 of one item, sent as bytes, does what the item does under the lock. */
  lemma V2Commits(c: Chain, w: World, a: Address, sender: Address, v: SolveV2Args, sig: Bytes64, x: SolveArgs,
      reply: Reply)
    requires InService(w, a) && SignedV2(c, w, a, v, sig) && v.args == [x]
    requires var s := Item(c, Lock(c, w, a), a, x, AddressOf(v.permitOwner), AddressOf(v.transferOwner), reply);
             s.ok && a in s.w.accounts
    ensures var s := Item(c, Lock(c, w, a), a, x, AddressOf(v.permitOwner), AddressOf(v.transferOwner), reply);
            Perform(c, w, Send2(c, a, sender, v, sig, reply)).w == Unlock(c, s.w, a)
  {
    var args := SolveV2(v, sig);
    var cd := EncodeArgs(c.assets, args);
    RequestsArrive(c, args, []);
    assert cd + [] == cd;
    PerformRequest(c, w, a, sender, cd, false, [reply], args);
    V2Handled(c, w, a, v, sig, x, reply);
  }

  lemma V2Handled(c: Chain, w: World, a: Address, v: SolveV2Args, sig: Bytes64, x: SolveArgs, reply: Reply)
    requires InService(w, a) && SignedV2(c, w, a, v, sig) && v.args == [x]
    ensures var s := Item(c, Lock(c, w, a), a, x, AddressOf(v.permitOwner), AddressOf(v.transferOwner), reply);
            var r := Handle(c, w, a, SolveV2(v, sig), false, [reply]);
            s.ok && a in s.w.accounts ==> r.ok && r.w == Unlock(c, s.w, a)
  {
    var locked := Lock(c, w, a);
    ItemsOfOne(c, locked, a, x, AddressOf(v.permitOwner), AddressOf(v.transferOwner), reply);
    var body := SolveTwo(c, locked, a, v, sig, [reply]);
    NotingKeeps(Items(c, locked, a, [x], AddressOf(v.permitOwner), AddressOf(v.transferOwner), [reply]), a, [V2Payload(v)]);
    GuardedEnds(c, w, a, body);
  }

  /** The owner pays what is pulled. */
  lemma {:induction false} OwnerPays(c: Chain, w: World, a: Address, fs: seq<FromArgs>, owner: Address,
      target: Address, token: Address)
    requires Takes(c, w, a, fs, owner, target).ok && owner != a
    ensures Balance(Takes(c, w, a, fs, owner, target).w.ledger, token, owner) == Balance(w.ledger, token, owner) - Taken(c, fs, token)
    decreases fs
  {
    if fs != [] {
      var s := Take1(c, w, a, fs[0], owner, target);
      PullOne(c.unlimited, w.ledger, Pull(c.asset(fs[0].asset).value, a, owner, a, WordOf(fs[0].toTake)), token, owner);
      OwnerPays(c, s.w, a, fs[1..], owner, target, token);
    }
  }

  lemma OwnTake(c: Chain, w: World, a: Address, f: FromArgs, target: Address)
    requires c.asset(f.asset).Some?
    requires var token := c.asset(f.asset).value;
             WordOf(f.toTake) <= Balance(w.ledger, token, a) && WordOf(f.toTake) <= Allowance(w.ledger, token, a, a)
    ensures var s := Take1(c, w, a, f, a, target);
            s.ok && s.w.accounts == w.accounts && s.w.registries == w.registries && s.w.ledger.balances == w.ledger.balances
  {
  }

  /** Preparing an item that pulls once from the account itself moves nothing. */
  lemma OwnReady(c: Chain, w: World, a: Address, x: SolveArgs, permitOwner: Address, reply: Reply)
    requires Separated(c) && a in w.accounts && Evm.Load(Store(w, a), SLOT_AUTHORITY) == 0
    requires !Used(c, w, a, NonceOf(x.msTs)) && x.permit == [] && |x.from| == 1 && c.asset(x.from[0].asset).Some?
    requires var token, take := c.asset(x.from[0].asset).value, WordOf(x.from[0].toTake);
             take <= Balance(w.ledger, token, a) && take <= Allowance(w.ledger, token, a, a)
    ensures var s := Prepare(c, w, a, x, permitOwner, a, reply);
            s.ok && s.w.ledger.balances == w.ledger.balances && a in s.w.accounts
  {
    var spent := Raise(c, w, Spent(a, NonceOf(x.msTs)));
    var target := AddressOf(x.target);
    var permits := Permits(c, spent.w, a, x.permit, permitOwner, reply.permits);
    assert permits == Skip(spent.w);
    OwnTake(c, spent.w, a, x.from[0], target);
    var took := Take1(c, spent.w, a, x.from[0], a, target);
    assert x.from[1..] == [];
    assert Takes(c, took.w, a, x.from[1..], a, target) == Skip(took.w);
    var takes := Takes(c, spent.w, a, x.from, a, target);
    assert takes == Join(took, Skip(took.w));
    SpentKeepsAuthority(c, w, a, NonceOf(x.msTs), took.w, reply);
    JoinOk(spent, permits);
    JoinOk(Join(spent, permits), takes);
    JoinOk(Join(Join(spent, permits), takes), CallOut(c, took.w, a, target, reply));
  }

  /** A target that is the account itself, called with nothing. */
  function CallSelf(a: Address, reply: Reply): (r: Reply) {
    With(reply, [Message(a, a, [], false, [])])
  }

  lemma CallSelfDoesNothing(c: Chain, w: World, a: Address)
    requires a in w.accounts && !w.accounts[a].upgradeable
    ensures Acts(c, w, [Message(a, a, [], false, [])]) == Skip(w)
  {
    var m := Message(a, a, [], false, []);
    assert Run(c, w, a, a, [], false, []) == Skip(w);
    assert Receive(c, w, a, a, [], false, []) == Skip(w);
    assert Perform(c, w, m) == Skip(w);
    assert [m][1..] == [];
    assert Acts(c, w, []) == Skip(w);
  }

  /** Exactly one asset, of which the item pulls `amt` and insists on nothing. */
  predicate PullsOnce(c: Chain, x: SolveArgs, token: Address, amt: Word) {
    |x.from| == 1 && c.asset(x.from[0].asset) == Some(token) &&
    WordOf(x.from[0].toTake) == amt && WordOf(x.from[0].maxUnspent) == 0
  }

  lemma PullsOnceIs(c: Chain, x: SolveArgs, token: Address, amt: Word)
    requires PullsOnce(c, x, token, amt)
    ensures Taken(c, x.from, token) == amt && LastTake(c, x.from, token) == Some(amt)
  {
    assert x.from[1..] == [];
  }

  /** The world after the first request: the account has the tokens and may pull them from itself. */
  ghost predicate Armed(c: Chain, before: World, after: World, a: Address, x: SolveArgs, owner: Address,
      token: Address, amt: Word)
    requires a in before.accounts
  {
    && after.accounts == before.accounts[a := before.accounts[a].(store := Store(before, a)[NonceSlot(c, NonceOf(x.msTs)) := 1])]
    && after.registries == before.registries
    && Balance(after.ledger, token, a) == Balance(before.ledger, token, a) + amt
    && Balance(after.ledger, token, owner) == Balance(before.ledger, token, owner) - amt
    && Allowance(after.ledger, token, a, a) == amt
  }

  /** The first item, up to the call of its target. */
  lemma ArmingReady(c: Chain, w: World, a: Address, x: SolveArgs, owner: Address, reply: Reply, token: Address,
      amt: Word)
    requires Separated(c) && a in w.accounts && Evm.Load(Store(w, a), SLOT_AUTHORITY) == 0
    requires !Used(c, w, a, NonceOf(x.msTs)) && Accepted(c, x.permit, reply.permits) && Funded(c, w.ledger, a, x, owner)
    requires PullsOnce(c, x, token, amt) && AddressOf(x.target) == a
    ensures var s := Prepare(c, w, a, x, owner, owner, reply);
            s.ok && Armed(c, w, s.w, a, x, owner, token, amt)
  {
    var target := AddressOf(x.target);
    var spent := Raise(c, w, Spent(a, NonceOf(x.msTs)));
    var permits := Permits(c, spent.w, a, x.permit, owner, reply.permits);
    var takes := Takes(c, permits.w, a, x.from, owner, target);
    PermitsSuffice(c, w, a, x, owner, reply);
    PermitsGrant(c, spent.w, a, x.permit, owner, reply.permits, token);
    FundedIsCovered(c, spent.w, a, x, owner, reply);
    TakesWork(c, permits.w, a, x.from, owner, target);
    PullsOnceIs(c, x, token, amt);
    Prepared(c, w, a, x, owner, owner, reply, token);
    OwnerPays(c, permits.w, a, x.from, owner, target, token);
    JoinOk(spent, permits);
    JoinOk(Join(spent, permits), takes);
    JoinOk(Join(Join(spent, permits), takes), CallOut(c, takes.w, a, target, reply));
  }

  lemma ArmingItem(c: Chain, w: World, a: Address, x: SolveArgs, owner: Address, reply: Reply, token: Address,
      amt: Word)
    requires Separated(c) && a in w.accounts && !w.accounts[a].upgradeable && Evm.Load(Store(w, a), SLOT_AUTHORITY) == 0
    requires !Used(c, w, a, NonceOf(x.msTs)) && Accepted(c, x.permit, reply.permits) && Funded(c, w.ledger, a, x, owner)
    requires PullsOnce(c, x, token, amt) && AddressOf(x.target) == a
    ensures var s := Item(c, w, a, x, owner, owner, CallSelf(a, reply));
            s.ok && Armed(c, w, s.w, a, x, owner, token, amt)
  {
    ArmingReady(c, w, a, x, owner, reply, token, amt);
    ItemWith(c, w, a, x, owner, owner, reply, [Message(a, a, [], false, [])]);
    CallSelfDoesNothing(c, Prepare(c, w, a, x, owner, owner, reply).w, a);
  }

  /** The first request, signed and sent as bytes. */
  lemma Arming(c: Chain, w: World, a: Address, sender: Address, v: SolveV2Args, sig: Bytes64, x: SolveArgs,
      reply: Reply,
      token: Address, amt: Word)
    requires Separated(c) && InService(w, a) && SignedV2(c, w, a, v, sig)
    requires v.args == [x] && v.permitOwner == v.transferOwner
    requires !Used(c, w, a, NonceOf(x.msTs)) && Accepted(c, x.permit, reply.permits)
    requires Funded(c, w.ledger, a, x, AddressOf(v.transferOwner))
    requires PullsOnce(c, x, token, amt) && AddressOf(x.target) == a
    ensures Armed(c, w, Perform(c, w, Send2(c, a, sender, v, sig, CallSelf(a, reply))).w, a, x, AddressOf(v.transferOwner), token, amt)
  {
    var owner := AddressOf(v.transferOwner);
    var locked := Lock(c, w, a);
    ArmingItem(c, locked, a, x, owner, reply, token, amt);
    var s := Item(c, locked, a, x, owner, owner, CallSelf(a, reply));
    V2Commits(c, w, a, sender, v, sig, x, CallSelf(a, reply));
    UnlockArmed(c, w, s.w, a, x, owner, token, amt);
  }

  lemma UnlockArmed(c: Chain, w: World, done: World, a: Address, x: SolveArgs, owner: Address, token: Address,
      amt: Word)
    requires a in w.accounts && !w.accounts[a].locked && Armed(c, Lock(c, w, a), done, a, x, owner, token, amt)
    ensures Armed(c, w, Unlock(c, done, a), a, x, owner, token, amt)
  {
    assert Unlock(c, done, a).accounts == w.accounts[a := done.accounts[a].(locked := false)];
  }

  /** A target that takes all that the item pulled. */
  function TakeAllOf(a: Address, x: SolveArgs, token: Address, other: Address, amt: Word, reply: Reply): (r: Reply) {
    With(reply, [Tokens(Pull(token, AddressOf(x.target), a, other, amt))])
  }

  /** The second item. */
  lemma LosingItem(c: Chain, w: World, a: Address, x: SolveArgs, permitOwner: Address, owner: Address, reply: Reply,
      token: Address, amt: Word)
    requires Separated(c) && a in w.accounts && Evm.Load(Store(w, a), SLOT_AUTHORITY) == 0
    requires !Used(c, w, a, NonceOf(x.msTs)) && x.permit == [] && PullsOnce(c, x, token, amt) && owner != a
    requires amt <= Balance(w.ledger, token, a) && Allowance(w.ledger, token, a, a) == amt
    requires Balance(w.ledger, token, owner) + amt <= MAX
    ensures var r := TakeAllOf(a, x, token, owner, amt, reply);
            var s := Item(c, w, a, x, permitOwner, a, r);
            && s.ok && a in s.w.accounts
            && Gentle(Meanwhile(c, w, a, x, permitOwner, a, r), a, AddressOf(x.target))
            && Balance(s.w.ledger, token, a) == Balance(w.ledger, token, a) - amt
  {
    OwnReady(c, w, a, x, permitOwner, reply);
    PullsOnceIs(c, x, token, amt);
    Prepared(c, w, a, x, permitOwner, a, reply, token);
    TakingTarget(c, w, a, x, permitOwner, a, reply, token, owner, amt);
    LosingKeeps(c, w, a, x, permitOwner, owner, reply, token, amt);
  }

  lemma LosingKeeps(c: Chain, w: World, a: Address, x: SolveArgs, permitOwner: Address, owner: Address, reply: Reply,
      token: Address, amt: Word)
    requires a in w.accounts
    ensures a in Item(c, w, a, x, permitOwner, a, TakeAllOf(a, x, token, owner, amt, reply)).w.accounts
  {
    var r := TakeAllOf(a, x, token, owner, amt, reply);
    ItemSound(c, w, a, x, permitOwner, a, r);
    AccountsStay(c, w, Item(c, w, a, x, permitOwner, a, r).log, a);
  }

  /** A first signed request, which pulls `amt` of a token from some owner with a permit and calls the
      account itself, and a second one, which pulls them from the account: both commit, the target of the
      second moves the account's tokens only through its allowance, and yet the second request leaves the
      account `amt` poorer than it found it. */
  lemma OwnTokensCanGo(c: Chain, w: World, a: Address, sender: Address, v: SolveV2Args, sig: Bytes64, x: SolveArgs,
      reply: Reply,
      v': SolveV2Args, sig': Bytes64, x': SolveArgs, reply': Reply, token: Address, amt: Word)
    requires Separated(c) && InService(w, a)
    requires SignedV2(c, w, a, v, sig) && v.args == [x] && v.permitOwner == v.transferOwner
    requires SignedV2(c, w, a, v', sig') && v'.args == [x'] && AddressOf(v'.transferOwner) == a
    requires NonceOf(x.msTs) != NonceOf(x'.msTs)
    requires !Used(c, w, a, NonceOf(x.msTs)) && !Used(c, w, a, NonceOf(x'.msTs))
    requires PullsOnce(c, x, token, amt) && AddressOf(x.target) == a && Accepted(c, x.permit, reply.permits)
    requires Funded(c, w.ledger, a, x, AddressOf(v.transferOwner))
    requires PullsOnce(c, x', token, amt) && x'.permit == []
    ensures var owner := AddressOf(v.transferOwner);
            var taking := TakeAllOf(a, x', token, owner, amt, reply');
            var w1 := Perform(c, w, Send2(c, a, sender, v, sig, CallSelf(a, reply))).w;
            var w2 := Perform(c, w1, Send2(c, a, sender, v', sig', taking)).w;
            && a in w1.accounts
            && Gentle(Meanwhile(c, Lock(c, w1, a), a, x', AddressOf(v'.permitOwner), a, taking), a, AddressOf(x'.target))
            && Balance(w1.ledger, token, a) == Balance(w.ledger, token, a) + amt
            && Balance(w2.ledger, token, a) == Balance(w1.ledger, token, a) - amt
  {
    var owner := AddressOf(v.transferOwner);
    Arming(c, w, a, sender, v, sig, x, reply, token, amt);
    var w1 := Perform(c, w, Send2(c, a, sender, v, sig, CallSelf(a, reply))).w;
    StillInService(c, w, w1, a, x, owner, token, amt, NonceOf(x'.msTs));
    Losing(c, w1, a, sender, v', sig', x', owner, reply', token, amt);
  }

  lemma StillInService(c: Chain, w: World, w1: World, a: Address, x: SolveArgs, owner: Address, token: Address,
      amt: Word, nonce: Word)
    requires Separated(c) && InService(w, a) && Armed(c, w, w1, a, x, owner, token, amt)
    requires nonce < NONCE_LIMIT && nonce != NonceOf(x.msTs) && !Used(c, w, a, nonce)
    ensures InService(w1, a) && KeyOf(c, w1, a) == KeyOf(c, w, a) && !Used(c, w1, a, nonce)
  {
    var n := NonceOf(x.msTs);
    assert !Flat(NonceSlot(c, n)) && NonceSlot(c, n) != KeySlot(c) && NonceSlot(c, n) != NonceSlot(c, nonce);
  }

  /** The second request. */
  lemma Losing(c: Chain, w: World, a: Address, sender: Address, v: SolveV2Args, sig: Bytes64, x: SolveArgs,
      owner: Address,
      reply: Reply, token: Address, amt: Word)
    requires Separated(c) && InService(w, a) && SignedV2(c, w, a, v, sig) && v.args == [x] && AddressOf(v.transferOwner) == a
    requires !Used(c, w, a, NonceOf(x.msTs)) && x.permit == [] && PullsOnce(c, x, token, amt) && owner != a
    requires amt <= Balance(w.ledger, token, a) && Allowance(w.ledger, token, a, a) == amt
    requires Balance(w.ledger, token, owner) + amt <= MAX
    ensures var r := TakeAllOf(a, x, token, owner, amt, reply);
            && Gentle(Meanwhile(c, Lock(c, w, a), a, x, AddressOf(v.permitOwner), a, r), a, AddressOf(x.target))
            && Balance(Perform(c, w, Send2(c, a, sender, v, sig, r)).w.ledger, token, a) == Balance(w.ledger, token, a) - amt
  {
    var r := TakeAllOf(a, x, token, owner, amt, reply);
    LosingItem(c, Lock(c, w, a), a, x, AddressOf(v.permitOwner), owner, reply, token, amt);
    V2Commits(c, w, a, sender, v, sig, x, r);
  }
}
