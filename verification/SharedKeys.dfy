/** A signed item names no account: which accounts commit it, and so when two accounts both do. */
module SharedKeys {
  import opened Words
  import Evm
  import opened Accounts
  import opened Wire
  import opened Protocol
  import opened ProtocolRuns
  import opened AccountHistory
  import opened Batches
  import opened Spending

  /** Under the lock of the account, and for its owner, the item goes through. */
  predicate GoesThrough(c: Chain, w: World, a: Address, x: SolveArgs, reply: Reply) {
    Enabled(c, w, Locked(a)) &&
    var s := Item(c, Lock(c, w, a), a, x, OwnerOf(w, a), OwnerOf(w, a), reply);
    s.ok && a in s.w.accounts
  }

  /** For any item and whatever the world answers: an account commits it exactly when the signature verifies
      under its own key, whatever account it was made for, and the item goes through there. */
  lemma AcceptsByKey(c: Chain, w: World, a: Address, item: SolveArgsSigArgs, reply: Reply)
    requires a in w.accounts
    ensures Handle(c, w, a, Solve([item]), false, [reply]).ok <==>
            ItemSigned(c, KeyOf(c, w, a), item) && GoesThrough(c, w, a, item.args, reply)
  {
    if w.accounts[a].locked {
      WhenLocked(c, w, a, [item], false, [reply]);
    } else {
      var locked := Lock(c, w, a);
      assert Unlock(c, locked, a).accounts == w.accounts;
      SingleItem(c, locked, a, item, false, reply);
    }
  }

  /** So one signed item is committed by two accounts exactly when its signature verifies under the keys of
      both, as it does when they have the same key, and it goes through at both. */
  lemma TwoAccountsOneItem(c: Chain, w: World, a: Address, b: Address, item: SolveArgsSigArgs, reply: Reply,
      reply': Reply)
    requires Separated(c) && a in w.accounts && SetUp(w, b)
    ensures var first := Handle(c, w, a, Solve([item]), false, [reply]);
            var second := Handle(c, first.w, b, Solve([item]), false, [reply']);
            first.ok && second.ok <==>
              && ItemSigned(c, KeyOf(c, w, a), item) && ItemSigned(c, KeyOf(c, w, b), item)
              && GoesThrough(c, w, a, item.args, reply) && GoesThrough(c, first.w, b, item.args, reply')
  {
    var first := Handle(c, w, a, Solve([item]), false, [reply]);
    AcceptsByKey(c, w, a, item, reply);
    HandleSound(c, w, a, Solve([item]), false, [reply]);
    SetUpStays(c, w, first.log, b);
    AcceptsByKey(c, first.w, b, item, reply');
  }

  /** An item that moves no tokens. */
  predicate CallOnly(x: SolveArgs) {
    x.permit == [] && x.from == []
  }

  /** A target that succeeds and does nothing. */
  const IDLE: Reply := Reply([], 0, true, [], true)

  lemma CallOnlyItem(c: Chain, w: World, a: Address, x: SolveArgs, owner: Address)
    requires Separated(c) && a in w.accounts && Evm.Load(Store(w, a), SLOT_AUTHORITY) == 0
    requires CallOnly(x) && !Used(c, w, a, NonceOf(x.msTs))
    ensures Item(c, w, a, x, owner, owner, IDLE).ok
    ensures Item(c, w, a, x, owner, owner, IDLE).w == Apply(c, w, Spent(a, NonceOf(x.msTs)))
  {
    var spent := Raise(c, w, Spent(a, NonceOf(x.msTs)));
    var target := AddressOf(x.target);
    assert Permits(c, spent.w, a, x.permit, owner, []) == Skip(spent.w);
    assert Takes(c, spent.w, a, x.from, owner, target) == Skip(spent.w);
    SpentKeepsAuthority(c, w, a, NonceOf(x.msTs), spent.w, IDLE);
    JoinOk(spent, Skip(spent.w));
    JoinOk(Join(spent, Skip(spent.w)), Skip(spent.w));
    JoinOk(Join(Join(spent, Skip(spent.w)), Skip(spent.w)), CallOut(c, spent.w, a, target, IDLE));
    assert Acts(c, spent.w, []) == Skip(spent.w);
  }

  /** An account without an authority that is idle: an item that moves no tokens and has a fresh nonce goes
      through there, and uses up the nonce of that account only. */
  lemma CallOnlyGoesThrough(c: Chain, w: World, a: Address, x: SolveArgs)
    requires Separated(c) && a in w.accounts && !w.accounts[a].locked && Evm.Load(Store(w, a), SLOT_AUTHORITY) == 0
    requires CallOnly(x) && !Used(c, w, a, NonceOf(x.msTs))
    ensures GoesThrough(c, w, a, x, IDLE)
    ensures Item(c, Lock(c, w, a), a, x, OwnerOf(w, a), OwnerOf(w, a), IDLE).w == Apply(c, Lock(c, w, a), Spent(a, NonceOf(x.msTs)))
  {
    CallOnlyItem(c, Lock(c, w, a), a, x, OwnerOf(w, a));
  }
}
