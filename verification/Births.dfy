/** Migration, creation and upgrades from the bytes of a message to what the account then says of itself, and
    the registrations of authorities. */
module Births {
  import opened Words
  import Evm
  import opened Scripts
  import opened Accounts
  import opened Wire
  import opened FlatBytes
  import opened Protocol
  import opened ProtocolRuns
  import opened AccountHistory
  import opened Entrypoint
  import opened Verdicts
  import opened Dispatch
  import opened Outputs

  // Migrations.

  /** What is in a slot after a migration at `level`, if `before` was there. */
  function SlotAfter(c: Chain, level: Word, key: Word, owner: Word, impl: Word, authority: Word, slot: Word,
        before: Word): (v: Word) {
    if slot == SLOT_IMPL then impl
    else if slot == SLOT_VERSION then 2
    else if slot == SLOT_AUTHORITY && level <= 1 then authority
    else if slot == SLOT_OWNER && level == 0 then owner
    else if slot == SLOT_COUNT && level == 0 then 1
    else if slot == KeySlot(c) && level == 0 then key
    else before
  }

  lemma MigratedSlots(c: Chain, st: Evm.Storage, key: Word, owner: Word, impl: Word, authority: Word, slot: Word)
    requires Separated(c)
    ensures Evm.Load(MigratedTo(c, st, key, owner, impl, authority), slot) ==
            SlotAfter(c, Evm.Load(st, SLOT_VERSION), key, owner, impl, authority, slot, Evm.Load(st, slot))
  {
  }

  /** A message with the calldata of a migration, whatever the version: it commits exactly when there is an
      implementation and either the version is 0 and key and owner are there, or the version is not 0 and
      the sender is the owner. Then it writes implementation and version, below version 2 the authority, and
      at version 0 also key, key count and owner, and nothing else changes anywhere. */
  lemma MigrationsCommitExactly(c: Chain, w: World, a: Address, sender: Address, cd: seq<Byte>, gasPermit: bool,
        replies: seq<Reply>, key: Word, owner: Word, impl: Word, authority: Word)
    requires Separated(c) && a in w.accounts && !FromAdmin(w, a, sender) && MigrateCd(key, owner, impl, authority) <= cd
    ensures var level := Evm.Load(w.accounts[a].store, SLOT_VERSION);
            Receive(c, w, a, sender, cd, gasPermit, replies).ok <==>
              && impl != 0
              && (level == 0 ==> key != 0 && owner != 0)
              && (level != 0 ==> Evm.Load(w.accounts[a].store, SLOT_OWNER) % ADDRESS_LIMIT == sender)
    ensures Receive(c, w, a, sender, cd, gasPermit, replies).ok ==>
            var st, end := w.accounts[a].store, Perform(c, w, Message(a, sender, cd, gasPermit, replies)).w;
            && a in end.accounts
            && end == w.(accounts := w.accounts[a := w.accounts[a].(store := end.accounts[a].store)])
            && forall slot: Word ::
                 Evm.Load(end.accounts[a].store, slot) ==
                 SlotAfter(c, Evm.Load(st, SLOT_VERSION), key, owner, impl, authority, slot, Evm.Load(st, slot))
  {
    var st := w.accounts[a].store;
    MigratesExactly(c, cd, key, owner, impl, authority);
    MigrateExactly(c, w, a, sender, key, owner, impl, authority);
    assert Run(c, w, a, sender, cd, gasPermit, replies) ==
           Raise(c, w, Migrated(a, sender, key, owner, impl, authority));
    forall slot: Word
      ensures Evm.Load(MigratedTo(c, st, key, owner, impl, authority), slot) ==
              SlotAfter(c, Evm.Load(st, SLOT_VERSION), key, owner, impl, authority, slot, Evm.Load(st, slot))
    {
      MigratedSlots(c, st, key, owner, impl, authority, slot);
    }
  }

  // Creation.

  lemma AddressWord(b: Bytes20)
    ensures BytesOf(AddressOf(b), 32) == BytesOf(0, 12) + b
  {
    BytesOfSplit(AddressOf(b), 12, 20);
    HighOfPrefix(b, 20);
    BytesOfNatOf(b);
  }

  lemma ZeroBytes(key: Bytes32, eoa: Bytes20)
    ensures WordOf(key) == 0 <==> key == BytesOf(0, 32)
    ensures AddressOf(eoa) == 0 <==> eoa == BytesOf(0, 20)
  {
    BytesOfNatOf(key);
    BytesOfNatOf(eoa);
    Widths();
    NatOfBytesOf(0, 32);
    NatOfBytesOf(0, 20);
  }

  /** The account that a creation request asks for. */
  function AuthorityBytes(authority: Option<Bytes20>): (b: Bytes20) {
    if authority.Some? then authority.value else BytesOf(0, 20)
  }

  /** The account says what the request asked: the key, and owner and authority as words. */
  predicate AsRequested(c: Chain, w: World, a: Address, key: Bytes32, eoa: Bytes20, authority: Option<Bytes20>) {
    && a in w.accounts && !w.accounts[a].upgradeable
    && var st := w.accounts[a].store;
    && BytesOf(Evm.Load(st, KeySlot(c)), 32) == key
    && BytesOf(Evm.Load(st, SLOT_OWNER), 32) == BytesOf(0, 12) + eoa
    && BytesOf(Evm.Load(st, SLOT_AUTHORITY), 32) == BytesOf(0, 12) + AuthorityBytes(authority)
    && Evm.Load(st, SLOT_VERSION) == 2 && Evm.Load(st, SLOT_COUNT) == 1
  }

  lemma AuthorityNumber(authority: Option<Bytes20>)
    ensures AddressOf(AuthorityBytes(authority)) == if authority.Some? then AddressOf(authority.value) else 0
  {
    ZeroBytes(BytesOf(0, 32), AuthorityBytes(authority));
  }

  lemma BornAsRequested(c: Chain, w: World, factory: Address, args: Args)
    requires Separated(c) && args.FreshBackwards?
    ensures var end, at := WithAccount(c, w, factory, args), ProxyAt(c, factory, AddressOf(args.eoaAddr));
            && AsRequested(c, end, at, args.key, args.eoaAddr, args.authority)
            && !end.accounts[at].locked && ImplOf(end, at) == Evm.Load(Store(w, factory), SLOT_IMPL)
            && forall nonce: Word :: nonce < NONCE_LIMIT ==> !Used(c, end, at, nonce)
  {
    BytesOfNatOf(args.key);
    AddressWord(args.eoaAddr);
    AddressWord(AuthorityBytes(args.authority));
    AuthorityNumber(args.authority);
    var authority := if args.authority.Some? then AddressOf(args.authority.value) else 0;
    BornSlots(c, AddressOf(args.eoaAddr), WordOf(args.key), Evm.Load(Store(w, factory), SLOT_IMPL), authority);
  }

  lemma BornSlots(c: Chain, eoa: Address, key: Word, impl: Word, authority: Address)
    requires Separated(c)
    ensures var st := Born(c, eoa, key, impl, authority);
            && Evm.Load(st, KeySlot(c)) == key
            && Evm.Load(st, SLOT_OWNER) == eoa && Evm.Load(st, SLOT_AUTHORITY) == authority
            && Evm.Load(st, SLOT_IMPL) == impl && Evm.Load(st, SLOT_VERSION) == 2 && Evm.Load(st, SLOT_COUNT) == 1
            && forall nonce: Word :: nonce < NONCE_LIMIT ==> Evm.Load(st, NonceSlot(c, nonce)) == 0
  {
  }

  /** A message that asks for an account and carries no batch: it commits exactly when key and EOA are not
      zero, the factory has an implementation, the address is free, and recovering the signature (v, r, s) on
      the message for this key and this authority gives the EOA. Then the new account, with the factory's
      implementation, has that key, owner and authority, no nonce used and the lock free, and nothing else
      changes. */
  lemma CreationsCommitExactly(c: Chain, w: World, factory: Address, sender: Address, cd: seq<Byte>, gasPermit: bool,
        replies: seq<Reply>, key: Bytes32, eoa: Bytes20, v: Byte, r: Bytes32, s: Bytes32, authority: Option<Bytes20>)
    requires Separated(c) && factory in w.accounts && !FromAdmin(w, factory, sender)
    requires Carries(c, cd, FreshBackwards(key, eoa, v, r, s, [], authority))
    ensures var message := ConsentMessage(WordOf(key), AddressOf(AuthorityBytes(authority)));
            Receive(c, w, factory, sender, cd, gasPermit, replies).ok <==>
              && key != BytesOf(0, 32) && eoa != BytesOf(0, 20)
              && ImplOf(w, factory) != 0 && ProxyAt(c, factory, AddressOf(eoa)) !in w.accounts
              && c.recover(c.keccak(message), v, WordOf(r), WordOf(s)) == Some(AddressOf(eoa))
    ensures Receive(c, w, factory, sender, cd, gasPermit, replies).ok ==>
            var end := Perform(c, w, Message(factory, sender, cd, gasPermit, replies)).w;
            var at := ProxyAt(c, factory, AddressOf(eoa));
            && AsRequested(c, end, at, key, eoa, authority)
            && end == w.(accounts := w.accounts[at := end.accounts[at]])
            && !end.accounts[at].locked && ImplOf(end, at) == ImplOf(w, factory)
            && forall nonce: Word :: nonce < NONCE_LIMIT ==> !Used(c, end, at, nonce)
  {
    var args := FreshBackwards(key, eoa, v, r, s, [], authority);
    var end := Receive(c, w, factory, sender, cd, gasPermit, replies).w;
    ZeroBytes(key, eoa);
    AuthorityNumber(authority);
    BornAsRequested(c, w, factory, args);
    CreationLeaves(c, w, factory, sender, cd, gasPermit, replies, args, end);
    CreationLeaves(c, w, factory, sender, cd, gasPermit, replies, args, WithAccount(c, w, factory, args));
  }

  lemma CreationLeaves(c: Chain, w: World, factory: Address, sender: Address, cd: seq<Byte>, gasPermit: bool,
        replies: seq<Reply>, args: Args, end: World)
    requires Separated(c) && factory in w.accounts && !FromAdmin(w, factory, sender) && Carries(c, cd, args)
    requires args.FreshBackwards? && args.solveArgs == []
    ensures var s := Receive(c, w, factory, sender, cd, gasPermit, replies);
            s.ok && s.w == end <==> Creatable(c, w, factory, args) && end == WithAccount(c, w, factory, args)
  {
    ReceiveExactly(c, w, factory, sender, cd, gasPermit, replies, end);
    RequestLeaves(c, w, factory, sender, cd, gasPermit, replies, args, end);
  }

  // What accounts say of themselves.

  lemma RequestedStays(c: Chain, w: World, acts: seq<Act>, a: Address, key: Bytes32, eoa: Bytes20,
      authority: Option<Bytes20>)
    requires Separated(c) && AsRequested(c, w, a, key, eoa, authority)
    ensures AsRequested(c, Acts(c, w, acts).w, a, key, eoa, authority)
  {
    ActsSound(c, w, acts);
    var log := Acts(c, w, acts).log;
    assert SetUp(w, a);
    FrozenLog(c, w, log, a, OwnerOf(w, a));
    var end := Acts(c, w, acts).w;
    assert ConfigOf(c, end, a) == ConfigOf(c, w, a);
    assert Store(end, a) == end.accounts[a].store && Store(w, a) == w.accounts[a].store;
  }

  /** The calldata of the four questions. */
  lemma Questions(c: Chain, tail: seq<Byte>)
    ensures RouteOf(c, [2] + tail) == Request(Version) && RouteOf(c, [3] + tail) == Request(Authority)
    ensures RouteOf(c, [7] + tail) == Request(Owner) && RouteOf(c, [8] + tail) == Request(Ed25519Key)
  {
    UnitsAreFlat(c.assets, Version);
    UnitsAreFlat(c.assets, Authority);
    UnitsAreFlat(c.assets, Owner);
    UnitsAreFlat(c.assets, Ed25519Key);
    RequestsArrive(c, Version, tail);
    RequestsArrive(c, Authority, tail);
    RequestsArrive(c, Owner, tail);
    RequestsArrive(c, Ed25519Key, tail);
  }

  lemma RequestedAnswers(c: Chain, w: World, a: Address, key: Bytes32, eoa: Bytes20, authority: Option<Bytes20>,
        tail: seq<Byte>)
    requires AsRequested(c, w, a, key, eoa, authority)
    ensures Output(c, w, a, [8] + tail) == key
    ensures Output(c, w, a, [7] + tail) == BytesOf(0, 12) + eoa
    ensures Output(c, w, a, [3] + tail) == BytesOf(0, 12) + AuthorityBytes(authority)
    ensures Output(c, w, a, [2] + tail) == BytesOf(2, 32)
  {
    Questions(c, tail);
    Answered(c, w, a, key, eoa, authority, [8] + tail, Ed25519Key);
    Answered(c, w, a, key, eoa, authority, [7] + tail, Owner);
    Answered(c, w, a, key, eoa, authority, [3] + tail, Authority);
    Answered(c, w, a, key, eoa, authority, [2] + tail, Version);
  }

  lemma Answered(c: Chain, w: World, a: Address, key: Bytes32, eoa: Bytes20, authority: Option<Bytes20>, cd: seq<Byte>,
        args: Args)
    requires AsRequested(c, w, a, key, eoa, authority) && RouteOf(c, cd) == Request(args) && ReadsConfiguration(args)
    ensures Output(c, w, a, cd) ==
            if args.Ed25519Key? then key
            else if args.Owner? then BytesOf(0, 12) + eoa
            else if args.Authority? then BytesOf(0, 12) + AuthorityBytes(authority)
            else BytesOf(2, 32)
  {
  }

  lemma CreationAnswers(c: Chain, w: World, factory: Address, cd: seq<Byte>, args: Args)
    requires Carries(c, cd, args) && args.FreshBackwards?
    ensures Output(c, w, factory, cd) == BytesOf(ProxyAt(c, factory, AddressOf(args.eoaAddr)), 32)
  {
    CarriesExactly(c, cd, args);
  }

  /** After a creation, whatever happens later: asked with byte 8 the account answers with the bytes of the
      key, with byte 7 and 3 with those of the EOA and of the authority as words, with byte 2 with version
      2; and the creation itself answered with the address at which all this holds. */
  lemma CreatedAnswers(c: Chain, w: World, factory: Address, sender: Address, cd: seq<Byte>, gasPermit: bool,
        replies: seq<Reply>, key: Bytes32, eoa: Bytes20, v: Byte, r: Bytes32, s: Bytes32, authority: Option<Bytes20>,
        acts: seq<Act>, tail: seq<Byte>)
    requires Separated(c) && factory in w.accounts && !FromAdmin(w, factory, sender)
    requires Carries(c, cd, FreshBackwards(key, eoa, v, r, s, [], authority))
    requires Receive(c, w, factory, sender, cd, gasPermit, replies).ok
    ensures var made := Perform(c, w, Message(factory, sender, cd, gasPermit, replies)).w;
            var now, at := Acts(c, made, acts).w, ProxyAt(c, factory, AddressOf(eoa));
            && Output(c, now, at, [8] + tail) == key
            && Output(c, now, at, [7] + tail) == BytesOf(0, 12) + eoa
            && Output(c, now, at, [3] + tail) == BytesOf(0, 12) + AuthorityBytes(authority)
            && Output(c, now, at, [2] + tail) == BytesOf(2, 32)
            && Output(c, w, factory, cd) == BytesOf(at, 32)
  {
    var made := Perform(c, w, Message(factory, sender, cd, gasPermit, replies)).w;
    var at := ProxyAt(c, factory, AddressOf(eoa));
    CreationsCommitExactly(c, w, factory, sender, cd, gasPermit, replies, key, eoa, v, r, s, authority);
    RequestedStays(c, made, acts, at, key, eoa, authority);
    RequestedAnswers(c, Acts(c, made, acts).w, at, key, eoa, authority, tail);
    CreationAnswers(c, w, factory, cd, FreshBackwards(key, eoa, v, r, s, [], authority));
  }

  // Upgrades.

  /** A message from the admin of the upgradeable proxy with the calldata of an upgrade and no data installs
      the address in it, which is then the answer to empty calldata, and changes nothing else. */
  lemma UpgradesInstall(c: Chain, w: World, a: Address, sender: Address, cd: seq<Byte>, gasPermit: bool,
        replies: seq<Reply>, impl: Address)
    requires Separated(c) && FromAdmin(w, a, sender) && UpgradeTo(cd, impl, [])
    ensures Receive(c, w, a, sender, cd, gasPermit, replies).ok
    ensures var end := Perform(c, w, Message(a, sender, cd, gasPermit, replies)).w;
            && end == w.(accounts := w.accounts[a := w.accounts[a].(store := w.accounts[a].store[SLOT_IMPL := impl])])
            && Output(c, end, a, []) == BytesOf(impl, 32)
  {
    ReceiveExactly(c, w, a, sender, cd, gasPermit, replies, SetImpl(w, a, impl));
  }

  // Authorities.

  /** What the authorities are after an act on one of them: a deployed one has no operator yet and allows
      nothing, the first to initialise it names its operator, and the operator alone says what is allowed; a
      scan allows both trading contracts at once. */
  function AuthoritiesAfter(rs: map<Address, Registry>, act: Act): (r: map<Address, Registry>)
    requires act.Deploy? || act.Init? || act.Register? || act.Scan?
  {
    if act.Deploy? then (if act.registry in rs then rs else rs[act.registry := Registry(0, 0, map[])])
    else if act.registry !in rs then rs
    else
      var at := rs[act.registry];
      if act.Init? then (if at.version == 0 then rs[act.registry := Registry(1, act.operator, at.allowed)] else rs)
      else if at.operator != act.sender then rs
      else if act.Register? then rs[act.registry := at.(allowed := at.allowed[act.hash := act.allowed])]
      else rs[act.registry := at.(allowed := at.allowed[act.dppm := true][act.amm := true])]
  }

  /** What anything but a message leaves: a token operation that is not refused changes the books, an act on
      an authority the authorities, and what is undone leaves nothing. */
  lemma ActsExactly(c: Chain, w: World, act: Act)
    requires !act.Message?
    ensures Perform(c, w, act).w ==
            if act.Tokens? then
              (match Script(c.unlimited, w.ledger, [act.op]) case None => w case Some(l) => w.(ledger := l))
            else if act.Undone? then w
            else w.(registries := AuthoritiesAfter(w.registries, act))
  {
    if act.Tokens? { ScriptOne(c.unlimited, w.ledger, act.op); }
    if act.Scan? { ScanExactly(c, w, act.registry, act.sender, act.dppm, act.amm); }
  }

  lemma ScanExactly(c: Chain, w: World, registry: Address, sender: Address, hash: Word, amm: Word)
    ensures var r := w.registries;
            Perform(c, w, Scan(registry, sender, hash, amm)).w ==
              if registry in r && r[registry].operator == sender then
                var both := r[registry].allowed[hash := true][amm := true];
                w.(registries := r[registry := r[registry].(allowed := both)])
              else w
  {
    if registry in w.registries && w.registries[registry].operator == sender {
      var first := Raise(c, w, Registered(registry, sender, hash, true));
      var second := Raise(c, first.w, Registered(registry, sender, amm, true));
      var r := w.registries[registry];
      assert second.w.registries == w.registries[registry := r.(allowed := r.allowed[hash := true][amm := true])];
    }
  }
}
