/** Accounts as the code runs them: storage, ledgers and authorities changed in place, loops over
    items, permits, pulls and transfers, and a failed message undone. Each method reaches exactly what
    the protocol says. */
module Nodes {
  import opened Words
  import Evm
  import opened Ledger
  import opened Accounts
  import opened Wire
  import opened Protocol
  import opened ProtocolRuns
  import opened AccountHistory
  import Dispatch

  /** `s`, happening after what is already logged. */
  function Extend(log: seq<Event>, marks: seq<Mark>, s: Step): (r: Step) {
    Step(s.ok, s.w, log + s.log, marks + s.marks)
  }

  lemma ExtendJoin(log: seq<Event>, marks: seq<Mark>, s: Step, t: Step)
    ensures Extend(log, marks, Join(s, t)) == if s.ok then Extend(log + s.log, marks + s.marks, t) else Extend(log, marks, s)
  {
    assert log + (s.log + t.log) == log + s.log + t.log;
    assert marks + (s.marks + t.marks) == marks + s.marks + t.marks;
  }

  lemma ExtendNothing(log: seq<Event>, marks: seq<Mark>, w: World)
    ensures Extend(log, marks, Skip(w)) == Step(true, w, log, marks)
    ensures Extend(log, marks, Fail(w)) == Step(false, w, log, marks)
  {
    assert log + [] == log && marks + [] == marks;
  }

  // What a node keeps while it serves.

  /** From `w` to `end`, each nonce of each account was consumed at most once, none that was used, and the
      nonces used are those used before and those consumed. */
  ghost predicate NoncesKept(c: Chain, w: World, log: seq<Event>, end: World) {
    forall a: Address, nonce: Word | nonce < NONCE_LIMIT ::
      && multiset(log)[Spent(a, nonce)] <= (if Used(c, w, a, nonce) then 0 else 1)
      && (Used(c, end, a, nonce) <==> Used(c, w, a, nonce) || Spent(a, nonce) in log)
  }

  /** Every account at version 2 kept its configuration, and only its owner installed code in it. */
  ghost predicate ConfigsKept(c: Chain, w: World, log: seq<Event>, end: World) {
    forall a: Address | SetUp(w, a) && !w.accounts[a].upgradeable && ImplOf(w, a) != 0 ::
      && SetUp(end, a) && ConfigOf(c, end, a) == ConfigOf(c, w, a)
      && ImplOf(end, a) == LastInstalled(log, a, ImplOf(w, a)) != 0
      && InstalledOnlyBy(log, a, OwnerOf(w, a))
  }

  /** At every moment each account had at most one lock-holding request open, and all were left. */
  ghost predicate LocksKept(w: World, marks: seq<Mark>, end: World) {
    && Held(end) == Held(w)
    && forall n: nat, a: Address | n <= |marks| :: 0 <= (if a in Held(w) then 1 else 0) + Open(marks[..n], a) <= 1
  }

  lemma RunKeeps(c: Chain, w: World, acts: seq<Act>)
    requires Separated(c)
    ensures var s := Acts(c, w, acts);
            NoncesKept(c, w, s.log, s.w) && ConfigsKept(c, w, s.log, s.w) && LocksKept(w, s.marks, s.w)
  {
    var s := Acts(c, w, acts);
    ActsSound(c, w, acts);
    forall a: Address, nonce: Word | nonce < NONCE_LIMIT
      ensures multiset(s.log)[Spent(a, nonce)] <= (if Used(c, w, a, nonce) then 0 else 1)
      ensures Used(c, s.w, a, nonce) <==> Used(c, w, a, nonce) || Spent(a, nonce) in s.log
    {
      NoncesOnce(c, w, acts, a, nonce);
    }
    forall a: Address | SetUp(w, a) && !w.accounts[a].upgradeable && ImplOf(w, a) != 0
      ensures SetUp(s.w, a) && ConfigOf(c, s.w, a) == ConfigOf(c, w, a)
      ensures ImplOf(s.w, a) == LastInstalled(s.log, a, ImplOf(w, a)) != 0
      ensures InstalledOnlyBy(s.log, a, OwnerOf(w, a))
    {
      FrozenConfiguration(c, w, acts, a);
    }
    forall n: nat, a: Address | n <= |s.marks|
      ensures 0 <= (if a in Held(w) then 1 else 0) + Open(s.marks[..n], a) <= 1
    {
      LockExclusive(c, w, acts, n, a);
    }
  }

  class Node {
    const c: Chain
    var accounts: map<Address, Account>
    var ledger: Books
    var registries: map<Address, Registry>
    ghost var log: seq<Event>
    ghost var marks: seq<Mark>

    constructor (c: Chain, w: World)
      ensures this.c == c && View() == w && log == [] && marks == []
    {
      this.c := c;
      accounts := w.accounts;
      ledger := w.ledger;
      registries := w.registries;
      log := [];
      marks := [];
    }

    function View(): (w: World)
      reads this
    {
      World(accounts, ledger, registries)
    }

    ghost function After(ok: bool): (s: Step)
      reads this
    {
      Step(ok, View(), log, marks)
    }

    /** `s`, from here on. */
    ghost function Then(s: Step): (r: Step)
      reads this
    {
      Extend(log, marks, s)
    }

    // Storage and tokens.

    method Exchange(a: Address, nonce: Word) returns (ok: bool)
      requires nonce < NONCE_LIMIT
      modifies this
      ensures After(ok) == old(Then(Raise(c, View(), Spent(a, nonce))))
    {
      ExtendNothing(log, marks, View());
      ok := a in accounts && Evm.Load(accounts[a].store, NonceSlot(c, nonce)) == 0;
      if ok {
        var account := accounts[a];
        accounts := accounts[a := account.(store := account.store[NonceSlot(c, nonce) := 1])];
        log := log + [Spent(a, nonce)];
      }
    }

    method CallToken(op: TokenOp) returns (ok: bool)
      modifies this
      ensures After(ok) == old(Then(Raise(c, View(), Token(op))))
    {
      ExtendNothing(log, marks, View());
      match Do(c.unlimited, ledger, op)
      case None => ok := false;
      case Some(next) =>
        ledger := next;
        log := log + [Token(op)];
        ok := true;
    }

    method CallPermit(a: Address, asset: Byte, owner: Address, accepted: bool) returns (ok: bool)
      modifies this
      ensures After(ok) == old(Then(Permit1(c, View(), a, asset, owner, accepted)))
    {
      ExtendNothing(log, marks, View());
      match c.asset(asset)
      case None => ok := false;
      case Some(token) =>
        if accepted {
          ok := CallToken(Approve(token, owner, a, MAX));
        } else {
          ok := false;
        }
    }

    // Solving.

    method CallPermits(a: Address, ps: seq<Permit>, owner: Address, accepted: seq<bool>) returns (ok: bool)
      modifies this
      ensures After(ok) == old(Then(Permits(c, View(), a, ps, owner, accepted)))
    {
      var i := 0;
      while i < |ps|
        invariant 0 <= i <= |ps| && i <= |accepted|
        invariant Then(Permits(c, View(), a, ps[i..], owner, accepted[i..])) == old(Then(Permits(c, View(), a, ps, owner, accepted)))
      {
        ExtendNothing(log, marks, View());
        if i == |accepted| { return false; }
        ghost var w, s := View(), Permit1(c, View(), a, ps[i].asset, owner, accepted[i]);
        ExtendJoin(log, marks, s, Permits(c, s.w, a, ps[i..][1..], owner, accepted[i..][1..]));
        assert ps[i..][1..] == ps[i + 1..] && accepted[i..][1..] == accepted[i + 1..];
        ok := CallPermit(a, ps[i].asset, owner, accepted[i]);
        if !ok { return; }
        i := i + 1;
      }
      ExtendNothing(log, marks, View());
      ok := true;
    }

    method Take(a: Address, f: FromArgs, owner: Address, target: Address) returns (ok: bool)
      modifies this
      ensures After(ok) == old(Then(Take1(c, View(), a, f, owner, target)))
    {
      ExtendNothing(log, marks, View());
      match c.asset(f.asset)
      case None => ok := false;
      case Some(token) =>
        var take := WordOf(f.toTake);
        ghost var s := Raise(c, View(), Token(Pull(token, a, owner, a, take)));
        ExtendJoin(log, marks, s, Raise(c, s.w, Token(Approve(token, a, target, take))));
        ok := CallToken(Pull(token, a, owner, a, take));
        if ok { ok := CallToken(Approve(token, a, target, take)); }
    }

    method TakeAll(a: Address, fs: seq<FromArgs>, owner: Address, target: Address) returns (ok: bool)
      modifies this
      ensures After(ok) == old(Then(Takes(c, View(), a, fs, owner, target)))
    {
      var i := 0;
      while i < |fs|
        invariant 0 <= i <= |fs|
        invariant Then(Takes(c, View(), a, fs[i..], owner, target)) == old(Then(Takes(c, View(), a, fs, owner, target)))
      {
        ghost var s := Take1(c, View(), a, fs[i], owner, target);
        ExtendJoin(log, marks, s, Takes(c, s.w, a, fs[i..][1..], owner, target));
        assert fs[i..][1..] == fs[i + 1..];
        ok := Take(a, fs[i], owner, target);
        if !ok { return; }
        i := i + 1;
      }
      ExtendNothing(log, marks, View());
      ok := true;
    }

    method CheckKept(a: Address, fs: seq<FromArgs>) returns (ok: bool)
      ensures ok <==> Kept(c, View(), a, fs)
    {
      var i := 0;
      while i < |fs|
        invariant 0 <= i <= |fs|
        invariant forall j :: 0 <= j < i ==> Kept1(c, View(), a, fs[j])
      {
        match c.asset(fs[i].asset) {
          case None => return false;
          case Some(token) => if Balance(ledger, token, a) < WordOf(fs[i].maxUnspent) { return false; }
        }
        i := i + 1;
      }
      ok := true;
    }

    method Ready(a: Address, x: SolveArgs, permitOwner: Address, transferOwner: Address, reply: Reply)
          returns (ok: bool)
      modifies this
      ensures After(ok) == old(Then(Prepare(c, View(), a, x, permitOwner, transferOwner, reply)))
    {
      var target := AddressOf(x.target);
      ghost var spent := Raise(c, View(), Spent(a, NonceOf(x.msTs)));
      ghost var permits := Permits(c, spent.w, a, x.permit, permitOwner, reply.permits);
      ghost var permitted := Join(spent, permits);
      ghost var takes := Takes(c, permitted.w, a, x.from, transferOwner, target);
      ghost var taken := Join(permitted, takes);
      ExtendJoin(log, marks, spent, permits);
      ExtendJoin(log, marks, permitted, takes);
      ExtendJoin(log, marks, taken, CallOut(c, taken.w, a, target, reply));
      ok := Exchange(a, NonceOf(x.msTs));
      if ok { ok := CallPermits(a, x.permit, permitOwner, reply.permits); }
      if ok { ok := TakeAll(a, x.from, transferOwner, target); }
      if ok { ok := Admit(a, target, reply); }
    }

    /** The authority's say on the target. */
    method Admit(a: Address, target: Address, reply: Reply) returns (ok: bool)
      modifies this
      ensures After(ok) == old(Then(CallOut(c, View(), a, target, reply)))
    {
      ExtendNothing(log, marks, View());
      var authority := Evm.Load(Store(View(), a), SLOT_AUTHORITY);
      ok := true;
      if authority != 0 {
        var at := AddressIn(authority);
        if at in registries {
          ok := reply.codeHash in registries[at].allowed && registries[at].allowed[reply.codeHash];
        } else {
          ok := reply.allowed;
        }
      }
      if ok { log := log + [Called(a, target, reply.codeHash)]; }
    }

    method SolveItem(a: Address, x: SolveArgs, permitOwner: Address, transferOwner: Address, reply: Reply)
          returns (ok: bool)
      modifies this
      ensures After(ok) == old(Then(Item(c, View(), a, x, permitOwner, transferOwner, reply)))
      decreases reply, 1
    {
      ghost var ready := Prepare(c, View(), a, x, permitOwner, transferOwner, reply);
      ExtendJoin(log, marks, ready, Acts(c, ready.w, reply.acts));
      ok := Ready(a, x, permitOwner, transferOwner, reply);
      if ok {
        ActsSound(c, View(), reply.acts);
        PerformAll(reply.acts);
        ok := reply.ok;
        if ok { ok := CheckKept(a, x.from); }
      }
    }

    method EntrySolve(a: Address, xs: seq<SolveArgs>, permitOwner: Address, transferOwner: Address,
          replies: seq<Reply>) returns (ok: bool)
      modifies this
      ensures After(ok) == old(Then(Items(c, View(), a, xs, permitOwner, transferOwner, replies)))
      decreases replies, 2
    {
      var i := 0;
      while i < |xs|
        invariant 0 <= i <= |xs| && i <= |replies|
        invariant Then(Items(c, View(), a, xs[i..], permitOwner, transferOwner, replies[i..])) ==
                  old(Then(Items(c, View(), a, xs, permitOwner, transferOwner, replies)))
      {
        ExtendNothing(log, marks, View());
        if i == |replies| { return false; }
        ghost var s := Item(c, View(), a, xs[i], permitOwner, transferOwner, replies[i]);
        ExtendJoin(log, marks, s, Items(c, s.w, a, xs[i..][1..], permitOwner, transferOwner, replies[i..][1..]));
        assert xs[i..][1..] == xs[i + 1..] && replies[i..][1..] == replies[i + 1..];
        ok := SolveItem(a, xs[i], permitOwner, transferOwner, replies[i]);
        if !ok { return; }
        i := i + 1;
      }
      ExtendNothing(log, marks, View());
      ok := true;
    }

    /** Checks the signatures of a batch, gathering the items. */
    method VerifyAll(key: Word, items: seq<SolveArgsSigArgs>) returns (ok: bool, xs: seq<SolveArgs>)
      ensures ok <==> AllSigned(c, key, items)
      ensures ok ==> xs == Plain(items)
    {
      xs := [];
      var i := 0;
      while i < |items|
        invariant 0 <= i <= |items| && |xs| == i
        invariant forall j :: 0 <= j < i ==> ItemSigned(c, key, items[j]) && xs[j] == items[j].args
      {
        if !ItemSigned(c, key, items[i]) { return false, xs; }
        xs := xs + [items[i].args];
        i := i + 1;
      }
      ok := true;
    }

    /** Payloads are on record as served when `s`, which is what has happened, went well. */
    ghost method Record(ok: bool, a: Address, ps: seq<Payload>, before: seq<Event>, earlier: seq<Mark>, s: Step)
      requires After(ok) == Extend(before, earlier, s)
      modifies `log
      ensures After(ok) == Extend(before, earlier, Noting(s, a, ps))
    {
      ExtendJoin(before, earlier, s, Note(s.w, a, ps));
      if ok {
        log := log + Note(s.w, a, ps).log;
        assert marks + [] == marks;
      }
    }

    method EntrySolveV1(a: Address, items: seq<SolveArgsSigArgs>, replies: seq<Reply>) returns (ok: bool)
      modifies this
      ensures After(ok) == old(Then(SolveOne(c, View(), a, items, replies)))
      decreases replies, 3
    {
      ExtendNothing(log, marks, View());
      var xs;
      ok, xs := VerifyAll(KeyOf(c, View(), a), items);
      if ok {
        var owner := OwnerOf(View(), a);
        ghost var s := Items(c, View(), a, xs, owner, owner, replies);
        ok := EntrySolve(a, xs, owner, owner, replies);
        Record(ok, a, ItemPayloads(items), old(log), old(marks), s);
      }
    }

    method EntrySolveV2(a: Address, x: SolveV2Args, sig: Bytes64, replies: seq<Reply>) returns (ok: bool)
      modifies this
      ensures After(ok) == old(Then(SolveTwo(c, View(), a, x, sig, replies)))
      decreases replies, 3
    {
      ExtendNothing(log, marks, View());
      ok := SolvesFit(c.assets, x.args) && c.verify(V2Bytes(c.assets, x), KeyOf(c, View(), a), sig);
      if ok {
        ghost var s := Items(c, View(), a, x.args, AddressOf(x.permitOwner), AddressOf(x.transferOwner), replies);
        ok := EntrySolve(a, x.args, AddressOf(x.permitOwner), AddressOf(x.transferOwner), replies);
        Record(ok, a, [V2Payload(x)], old(log), old(marks), s);
      }
    }

    method PayForGas(a: Address, x: SolveV3Args, accepted: bool) returns (ok: bool)
      modifies this
      ensures After(ok) == old(Then(PayGas(c, View(), a, x, accepted)))
    {
      ExtendNothing(log, marks, View());
      match c.asset(x.gasToken)
      case None => ok := false;
      case Some(token) =>
        var owner := OwnerOf(View(), a);
        ok := true;
        ghost var s := Skip(View());
        ghost var log0, marks0 := log, marks;
        if x.gasTokenPermit.Some? {
          if x.gasTokenPermit.value.asset != x.gasToken { return false; }
          s := Permit1(c, View(), a, x.gasToken, owner, accepted);
          ok := CallPermit(a, x.gasToken, owner, accepted);
        }
        ExtendJoin(log0, marks0, s, Raise(c, s.w, Token(Pull(token, a, owner, c.clearinghouse, x.gasTokenAmt))));
        if ok { ok := CallToken(Pull(token, a, owner, c.clearinghouse, x.gasTokenAmt)); }
    }

    method EntrySolveV3(a: Address, x: SolveV3Args, sig: Bytes64, accepted: bool, replies: seq<Reply>)
          returns (ok: bool)
      modifies this
      ensures After(ok) == old(Then(SolveThree(c, View(), a, x, sig, accepted, replies)))
      decreases replies, 3
    {
      ExtendNothing(log, marks, View());
      ok := V3Fits(c.assets, x) && c.verify(V3Bytes(c.assets, x), KeyOf(c, View(), a), sig);
      if ok {
        var owner := OwnerOf(View(), a);
        ghost var paid := PayGas(c, View(), a, x, accepted);
        ghost var solved := Items(c, paid.w, a, x.args, owner, owner, replies);
        ExtendJoin(log, marks, paid, solved);
        ok := PayForGas(a, x, accepted);
        if ok { ok := EntrySolve(a, x.args, owner, owner, replies); }
        Record(ok, a, [V3Payload(x)], old(log), old(marks), Join(paid, solved));
      }
    }

    // Transfers and statements.

    method SendOne(a: Address, t: Transfer, accepted: bool) returns (ok: bool)
      modifies this
      ensures After(ok) == old(Then(Transfer1(c, View(), a, t, accepted)))
    {
      ExtendNothing(log, marks, View());
      match c.asset(t.asset)
      case None => ok := false;
      case Some(token) =>
        var op := Pull(token, a, AddressOf(t.from), AddressOf(t.recipient), WordOf(t.amt));
        ghost var s := if t.permit.Some? then Permit1(c, View(), a, t.asset, AddressOf(t.from), accepted) else Skip(View());
        ExtendJoin(log, marks, s, Raise(c, s.w, Token(op)));
        ok := true;
        if t.permit.Some? { ok := CallPermit(a, t.asset, AddressOf(t.from), accepted); }
        if ok { ok := CallToken(op); }
    }

    method SendAll(a: Address, ts: seq<Transfer>, accepted: seq<bool>) returns (ok: bool)
      modifies this
      ensures After(ok) == old(Then(Transfers(c, View(), a, ts, accepted)))
    {
      var i := 0;
      while i < |ts|
        invariant 0 <= i <= |ts| && i <= |accepted|
        invariant Then(Transfers(c, View(), a, ts[i..], accepted[i..])) == old(Then(Transfers(c, View(), a, ts, accepted)))
      {
        ExtendNothing(log, marks, View());
        if i == |accepted| { return false; }
        ghost var s := Transfer1(c, View(), a, ts[i], accepted[i]);
        ExtendJoin(log, marks, s, Transfers(c, s.w, a, ts[i..][1..], accepted[i..][1..]));
        assert ts[i..][1..] == ts[i + 1..] && accepted[i..][1..] == accepted[i + 1..];
        ok := SendOne(a, ts[i], accepted[i]);
        if !ok { return; }
        i := i + 1;
      }
      ExtendNothing(log, marks, View());
      ok := true;
    }

    method EntryTransferOnly(a: Address, x: TransferOnlyArgs, sig: Bytes64, accepted: seq<bool>) returns (ok: bool)
      modifies this
      ensures After(ok) == old(Then(TransferAll(c, View(), a, x, sig, accepted)))
    {
      ExtendNothing(log, marks, View());
      ok := TransfersFit(c.assets, x.args) && c.verify(TransferOnlyBytes(c.assets, x), KeyOf(c, View(), a), sig);
      if ok && x.args == [] { return false; }
      if ok {
        ghost var s := Raise(c, View(), Spent(a, NonceOf(x.msTs)));
        ghost var sent := Transfers(c, s.w, a, x.args, accepted);
        ExtendJoin(log, marks, s, sent);
        ok := Exchange(a, NonceOf(x.msTs));
        if ok { ok := SendAll(a, x.args, accepted); }
        Record(ok, a, [TransferPayload(x)], old(log), old(marks), Join(s, sent));
      }
    }

    method EntryStatement(a: Address, x: StatementArgs, sig: Bytes64) returns (ok: bool)
      modifies this
      ensures After(ok) == old(Then(State(c, View(), a, x, sig)))
    {
      ExtendNothing(log, marks, View());
      ok := |x.msg| < MAX_COUNT && c.verifyHash(c.sha512(StatementPreimage(a, x)), KeyOf(c, View(), a), sig);
      if ok {
        ghost var s := Raise(c, View(), Spent(a, NonceOf(x.msTs)));
        ok := Exchange(a, NonceOf(x.msTs));
        Record(ok, a, [StatementPayload(x)], old(log), old(marks), s);
      }
    }

    // Migration and creation.

    method EntryMigrate(a: Address, sender: Address, key: Word, owner: Word, impl: Word, authority: Word)
          returns (ok: bool)
      modifies this
      ensures After(ok) == old(Then(Raise(c, View(), Migrated(a, sender, key, owner, impl, authority))))
    {
      ExtendNothing(log, marks, View());
      if a !in accounts || impl == 0 { return false; }
      var st := accounts[a].store;
      var level := Evm.Load(st, SLOT_VERSION);
      var isFirstTime := false;
      if level == 0 {
        if key == 0 || owner == 0 { return false; }
        st := st[KeySlot(c) := key];
        st := st[SLOT_COUNT := 1];
        st := st[SLOT_OWNER := owner];
        isFirstTime := true;
      }
      if level <= 1 { st := st[SLOT_AUTHORITY := authority]; }
      if !isFirstTime && AddressIn(Evm.Load(st, SLOT_OWNER)) != sender { return false; }
      st := st[SLOT_IMPL := impl];
      st := st[SLOT_VERSION := 2];
      accounts := accounts[a := accounts[a].(store := st)];
      log := log + [Migrated(a, sender, key, owner, impl, authority)];
      ok := true;
    }

    method MigrateBy(a: Address, sender: Address, cd: seq<Byte>) returns (ok: bool)
      modifies this
      ensures After(ok) == old(Then(Migrate(c, View(), a, sender, cd)))
    {
      ExtendNothing(log, marks, View());
      match RouteOf(c, cd)
      case Migration(key, owner, impl, authority) => ok := EntryMigrate(a, sender, key, owner, impl, authority);
      case _ => ok := false;
    }

    method CreateAccount(factory: Address, x: Consent) returns (ok: bool)
      modifies this
      ensures After(ok) == old(Then(Create(c, View(), factory, x)))
    {
      ExtendNothing(log, marks, View());
      if !Consented(c, x) { return false; }
      var impl := Evm.Load(Store(View(), factory), SLOT_IMPL);
      if impl == 0 { return false; }
      var at := ProxyAt(c, factory, x.eoa);
      if at in accounts { return false; }
      ghost var before := log;
      accounts := accounts[at := Account(false, map[], false)];
      ok := MigrateBy(at, factory, MigrateCd(x.key, x.eoa, impl, x.authority));
      log := before + [Created(factory, x)];
    }

    /** The guard around a batch. */
    method GuardedSolve(a: Address, items: seq<SolveArgsSigArgs>, replies: seq<Reply>) returns (ok: bool)
      modifies this
      ensures After(ok) == old(Then(Guarded(c, View(), a, SolveOne(c, Lock(c, View(), a), a, items, replies))))
      decreases replies, 4
    {
      ghost var w := View();
      ok := TakeLock(a);
      if ok {
        ok := EntrySolveV1(a, items, replies);
        ok := LeaveLock(a, ok, w, old(log), old(marks), SolveOne(c, Lock(c, w, a), a, items, replies));
      }
    }

    method TakeLock(a: Address) returns (ok: bool)
      modifies this
      ensures ok <==> Enabled(c, old(View()), Locked(a))
      ensures !ok ==> After(false) == old(Then(Fail(View())))
      ensures ok ==> View() == Lock(c, old(View()), a) && log == old(log) + [Locked(a)] && marks == old(marks) + [Enter(a)]
    {
      ExtendNothing(log, marks, View());
      ok := a in accounts && !accounts[a].locked;
      if ok {
        accounts := accounts[a := accounts[a].(locked := true)];
        log := log + [Locked(a)];
        marks := marks + [Enter(a)];
      }
    }

    /** Leaves the lock after `body`, which began in the world `w` with the lock taken. */
    method LeaveLock(a: Address, done: bool, ghost w: World, ghost before: seq<Event>, ghost earlier: seq<Mark>,
          ghost body: Step)
      returns (ok: bool)
      requires Enabled(c, w, Locked(a))
      requires After(done) == Extend(before + [Locked(a)], earlier + [Enter(a)], body)
      modifies this
      ensures After(ok) == Extend(before, earlier, Guarded(c, w, a, body))
    {
      LeaveLog(c, w, before, earlier, a, body);
      ok := done && a in accounts;
      if ok {
        accounts := accounts[a := accounts[a].(locked := false)];
        log := log + [Unlocked(a)];
      }
      marks := marks + [Leave(a)];
    }

    method EntryFresh(factory: Address, args: Args, replies: seq<Reply>) returns (ok: bool)
      requires args.FreshBackwards?
      modifies this
      ensures After(ok) == old(Then(Fresh(c, View(), factory, args, replies)))
      decreases replies, 5
    {
      var x := ConsentOf(args);
      var at := ProxyAt(c, factory, x.eoa);
      ghost var made := Create(c, View(), factory, x);
      ExtendJoin(log, marks, made, Attach(c, made.w, at, args.solveArgs, replies));
      ok := CreateAccount(factory, x);
      if ok && args.solveArgs != [] { ok := SolveAttached(at, args.solveArgs, replies); }
    }

    method SolveAttached(a: Address, items: seq<SolveArgsSigArgs>, replies: seq<Reply>) returns (ok: bool)
      modifies this
      ensures After(ok) == old(Then(Attach(c, View(), a, items, replies)))
      decreases replies, 5, 0
    {
      ExtendNothing(log, marks, View());
      match Attached(c, items)
      case Request(Solve(xs)) => ok := GuardedSolve(a, xs, replies);
      case _ => ok := false;
    }

    // Messages.

    method Entry(a: Address, args: Args, gasPermit: bool, replies: seq<Reply>) returns (ok: bool)
      modifies this
      ensures After(ok) == old(Then(Handle(c, View(), a, args, gasPermit, replies)))
      decreases replies, 6
    {
      ExtendNothing(log, marks, View());
      ghost var w := View();
      match args
      case FreshBackwards(_, _, _, _, _, _, _) => ok := EntryFresh(a, args, replies);
      case Solve(items) => ok := GuardedSolve(a, items, replies);
      case SolveV2(x, sig) =>
        ok := TakeLock(a);
        if ok {
          ok := EntrySolveV2(a, x, sig, replies);
          ok := LeaveLock(a, ok, w, old(log), old(marks), SolveTwo(c, Lock(c, w, a), a, x, sig, replies));
        }
      case TransferOnly(x, sig) =>
        ok := TakeLock(a);
        if ok {
          ok := EntryTransferOnly(a, x, sig, PermitsIn(replies));
          ok := LeaveLock(a, ok, w, old(log), old(marks), TransferAll(c, Lock(c, w, a), a, x, sig, PermitsIn(replies)));
        }
      case Statement(x, sig) => ok := EntryStatement(a, x, sig);
      case SolveV3(x, sig) => ok := EntrySolveV3(a, x, sig, gasPermit, replies);
      case AssetsVersion => ok := false;
      case _ => ok := true;
    }

    method UserEntrypoint(a: Address, sender: Address, cd: seq<Byte>, gasPermit: bool, replies: seq<Reply>)
          returns (ok: bool)
      modifies this
      ensures After(ok) == old(Then(Run(c, View(), a, sender, cd, gasPermit, replies)))
      decreases replies, 7
    {
      ExtendNothing(log, marks, View());
      match RouteOf(c, cd)
      case Implementation => ok := true;
      case Migration(_, _, _, _) => ok := MigrateBy(a, sender, cd);
      case Request(args) => ok := Entry(a, args, gasPermit, replies);
      case Malformed => ok := false;
    }

    method UpgradeTo(a: Address, sender: Address, cd: seq<Byte>, gasPermit: bool, replies: seq<Reply>)
          returns (ok: bool)
      requires a in accounts && accounts[a].upgradeable && AddressIn(Evm.Load(accounts[a].store, SLOT_ADMIN)) == sender
      modifies this
      ensures After(ok) == old(Then(Upgrade(c, View(), a, sender, cd, gasPermit, replies)))
      decreases replies, 8
    {
      ExtendNothing(log, marks, View());
      match UpgradeCall(cd)
      case None => ok := false;
      case Some((impl, data)) =>
        ghost var s := Raise(c, View(), Upgraded(a, sender, impl));
        ExtendJoin(log, marks, s, Run(c, s.w, a, sender, data, gasPermit, replies));
        accounts := accounts[a := accounts[a].(store := accounts[a].store[SLOT_IMPL := impl])];
        log := log + [Upgraded(a, sender, impl)];
        ok := true;
        if data != [] { ok := UserEntrypoint(a, sender, data, gasPermit, replies); }
    }

    /** A message, with everything undone when it fails. */
    method Deliver(a: Address, sender: Address, cd: seq<Byte>, gasPermit: bool, replies: seq<Reply>) returns (ok: bool)
      modifies this
      ensures After(ok) == old(Then(Settle(View(), Receive(c, View(), a, sender, cd, gasPermit, replies))))
      ensures Separated(c) ==> Dispatch.SettledAs(c, old(View()), a, sender, cd, gasPermit, replies, ok, View())
      decreases replies, 9
    {
      if Separated(c) { Dispatch.SettledExactly(c, View(), a, sender, cd, gasPermit, replies); }
      ExtendNothing(log, marks, View());
      if a !in accounts { return true; }
      var accounts0, ledger0, registries0 := accounts, ledger, registries;
      ghost var log0 := log;
      if accounts[a].upgradeable && AddressIn(Evm.Load(accounts[a].store, SLOT_ADMIN)) == sender {
        ok := UpgradeTo(a, sender, cd, gasPermit, replies);
      } else {
        ok := UserEntrypoint(a, sender, cd, gasPermit, replies);
      }
      if !ok {
        accounts, ledger, registries := accounts0, ledger0, registries0;
        log := log0;
        assert log0 + [] == log0;
      }
    }

    // Authorities.

    method DeployRegistry(registry: Address) returns (ok: bool)
      modifies this
      ensures After(ok) == old(Then(Raise(c, View(), Deployed(registry))))
    {
      ExtendNothing(log, marks, View());
      ok := registry !in registries;
      if ok {
        registries := registries[registry := Registry(0, 0, map[])];
        log := log + [Deployed(registry)];
      }
    }

    method InitRegistry(registry: Address, operator: Address) returns (ok: bool)
      modifies this
      ensures After(ok) == old(Then(Raise(c, View(), Initialised(registry, operator))))
    {
      ExtendNothing(log, marks, View());
      ok := registry in registries && registries[registry].version == 0;
      if ok {
        registries := registries[registry := registries[registry].(operator := operator)];
        registries := registries[registry := registries[registry].(version := 1)];
        log := log + [Initialised(registry, operator)];
      }
    }

    method RegisterHash(registry: Address, sender: Address, hash: Word, allowed: bool) returns (ok: bool)
      modifies this
      ensures After(ok) == old(Then(Raise(c, View(), Registered(registry, sender, hash, allowed))))
    {
      ExtendNothing(log, marks, View());
      ok := registry in registries && registries[registry].operator == sender;
      if ok {
        var r := registries[registry];
        registries := registries[registry := r.(allowed := r.allowed[hash := allowed])];
        log := log + [Registered(registry, sender, hash, allowed)];
      }
    }

    method ScanFactory(registry: Address, sender: Address, dppm: Word, amm: Word)
      modifies this
      ensures After(true) == old(Then(Perform(c, View(), Scan(registry, sender, dppm, amm))))
    {
      ExtendNothing(log, marks, View());
      var registries0 := registries;
      ghost var log0 := log;
      ghost var s := Raise(c, View(), Registered(registry, sender, dppm, true));
      ExtendJoin(log, marks, s, Raise(c, s.w, Registered(registry, sender, amm, true)));
      var ok := RegisterHash(registry, sender, dppm, true);
      if ok { ok := RegisterHash(registry, sender, amm, true); }
      if !ok {
        registries := registries0;
        log := log0;
        assert log0 + [] == log0;
      }
    }

    method PerformOne(act: Act)
      modifies this
      ensures After(true) == old(Then(Perform(c, View(), act)))
      decreases act, 10
    {
      match act
      case Message(a, sender, cd, gasPermit, replies) => var _ := Deliver(a, sender, cd, gasPermit, replies);
      case Tokens(op) => var _ := CallToken(op);
      case Deploy(registry) => var _ := DeployRegistry(registry);
      case Init(registry, operator) => var _ := InitRegistry(registry, operator);
      case Register(registry, sender, hash, allowed) => var _ := RegisterHash(registry, sender, hash, allowed);
      case Scan(registry, sender, dppm, amm) => ScanFactory(registry, sender, dppm, amm);
      case Undone(acts) =>
        ExtendNothing(log, marks, View());
        var accounts0, ledger0, registries0 := accounts, ledger, registries;
        ghost var log0 := log;
        PerformAll(acts);
        accounts, ledger, registries := accounts0, ledger0, registries0;
        log := log0;
        assert log0 + [] == log0;
    }

    method PerformAll(acts: seq<Act>)
      modifies this
      ensures After(true) == old(Then(Acts(c, View(), acts)))
      decreases acts, 11
    {
      var i := 0;
      while i < |acts|
        invariant 0 <= i <= |acts|
        invariant Then(Acts(c, View(), acts[i..])) == old(Then(Acts(c, View(), acts)))
      {
        ghost var s := Perform(c, View(), acts[i]);
        PerformSound(c, View(), acts[i]);
        ExtendJoin(log, marks, s, Acts(c, s.w, acts[i..][1..]));
        assert acts[i..][1..] == acts[i + 1..];
        PerformOne(acts[i]);
        i := i + 1;
      }
      ExtendNothing(log, marks, View());
    }

    /** Serving anything at all: the node's fields end where the protocol says, no nonce is consumed twice
        or freed, no account at version 2 is reconfigured, and no lock is held twice or left behind. */
    method Serve(acts: seq<Act>)
      requires Separated(c)
      modifies this
      ensures old(log) <= log && old(marks) <= marks
      ensures View() == Acts(c, old(View()), acts).w
      ensures NoncesKept(c, old(View()), log[|old(log)|..], View())
      ensures ConfigsKept(c, old(View()), log[|old(log)|..], View())
      ensures LocksKept(old(View()), marks[|old(marks)|..], View())
    {
      RunKeeps(c, View(), acts);
      ghost var s := Acts(c, View(), acts);
      PerformAll(acts);
      assert log[|old(log)|..] == s.log && marks[|old(marks)|..] == s.marks;
    }
  }

  lemma LeaveLog(c: Chain, w: World, before: seq<Event>, earlier: seq<Mark>, a: Address, body: Step)
    requires Enabled(c, w, Locked(a))
    ensures var r := Extend(before, earlier, Guarded(c, w, a, body));
            var log, marks := before + [Locked(a)] + body.log, earlier + [Enter(a)] + body.marks + [Leave(a)];
            if body.ok && a in body.w.accounts
            then r == Step(true, Apply(c, body.w, Unlocked(a)), log + [Unlocked(a)], marks)
            else r == Step(false, body.w, log, marks)
  {
    assert before + [Locked(a)] + body.log == before + ([Locked(a)] + body.log);
    assert earlier + [Enter(a)] + body.marks + [Leave(a)] == earlier + ([Enter(a)] + body.marks + [Leave(a)]);
    var all := Join(Raise(c, w, Locked(a)).(marks := [Enter(a)]), body);
    assert all.marks + [] == all.marks;
    assert before + (all.log + [Unlocked(a)]) == before + all.log + [Unlocked(a)];
    assert all.log + [] == all.log;
  }
}
