/** The state that accounts, their factory, their tokens and their authorities share, and the single
    changes it can undergo. */
module Accounts {
  import opened Words
  import opened Evm
  import opened Ledger
  import Hex
  import Wire
  import Proxy = BeaconProxy
  import Deployment

  const SLOT_IMPL: Word := Proxy.SLOT_IMPL
  const SLOT_ADMIN: Word := 0xb53127684a568b3173ae13b9f8a6016e243e63b6e8ee1178d6a717850b5d6103

  // The slots that storage.rs numbers.
  const SLOT_COUNT: Word := 1
  const SLOT_KEYS: Word := 2
  const SLOT_OWNER: Word := 3
  const SLOT_TIMESTAMPS: Word := 4
  const SLOT_VERSION: Word := 5
  const SLOT_AUTHORITY: Word := 6

  // Nonces are at most 16 bytes.
  const NONCE_LIMIT: int := 0x1_00000000000000000000000000000000

  /** What does not change while accounts run: the list of assets, how tokens treat the largest
      allowance, the hash functions and the signature schemes. */
  datatype Chain = Chain(
    assets: nat,
    asset: Byte -> Option<Address>,
    clearinghouse: Address,
    unlimited: Address -> bool,
    keccak: seq<Byte> -> Word,
    sha512: seq<Byte> -> seq<Byte>,
    verify: (seq<Byte>, Word, seq<Byte>) -> bool,
    verifyHash: (seq<Byte>, Word, seq<Byte>) -> bool,
    recover: (Word, Byte, Word, Word) -> Option<Address>)

  /** A contract that runs the account code: behind the upgradeable proxy or behind a beacon proxy. */
  datatype Account = Account(upgradeable: bool, store: Storage, locked: bool)

  /** An Authority9lives contract. */
  datatype Registry = Registry(version: nat, operator: Address, allowed: map<Word, bool>)

  datatype World = World(accounts: map<Address, Account>, ledger: Books, registries: map<Address, Registry>)

  function Store(w: World, a: Address): (st: Storage) {
    if a in w.accounts then w.accounts[a].store else map[]
  }

  function SetStore(w: World, a: Address, st: Storage): (r: World)
    requires a in w.accounts
  {
    w.(accounts := w.accounts[a := w.accounts[a].(store := st)])
  }

  /** Where a map in slot `slot` keeps `key`. */
  function MapSlot(c: Chain, slot: Word, key: Word): (r: Word) {
    c.keccak(BytesOf(slot, 32) + BytesOf(key, 32))
  }

  function KeySlot(c: Chain): (r: Word) {
    MapSlot(c, SLOT_KEYS, 0)
  }

  function NonceSlot(c: Chain, nonce: Word): (r: Word) {
    MapSlot(c, SLOT_TIMESTAMPS, nonce)
  }

  function AddressIn(v: Word): (a: Address) {
    v % ADDRESS_LIMIT
  }

  predicate Flat(slot: Word) {
    slot < 7 || slot == SLOT_IMPL || slot == SLOT_ADMIN
  }

  /** Hashed slots collide neither with each other nor with the numbered and EIP-1967 slots. */
  ghost predicate Separated(c: Chain) {
    && !Flat(KeySlot(c))
    && (forall k: Word :: k < NONCE_LIMIT ==> !Flat(NonceSlot(c, k)) && NonceSlot(c, k) != KeySlot(c))
    && (forall j: Word, k: Word :: j < NONCE_LIMIT && k < NONCE_LIMIT && NonceSlot(c, j) == NonceSlot(c, k) ==> j == k)
  }

  /** The storage after a migration; None when it panics. */
  function MigratedStore(c: Chain, st: Storage, sender: Address, key: Word, owner: Word, impl: Word,
        authority: Word): (r: Option<Storage>) {
    var level := Load(st, SLOT_VERSION);
    if impl == 0 || (level == 0 && (key == 0 || owner == 0)) then None
    else
      var setUp := if level == 0 then st[KeySlot(c) := key][SLOT_COUNT := 1][SLOT_OWNER := owner] else st;
      var guided := if level <= 1 then setUp[SLOT_AUTHORITY := authority] else setUp;
      if level != 0 && AddressIn(Load(guided, SLOT_OWNER)) != sender then None
      else Some(guided[SLOT_IMPL := impl][SLOT_VERSION := 2])
  }

  /** The hash of the creation code of a beacon proxy. */
  function InitHash(c: Chain, factory: Address): (h: Word) {
    c.keccak(Deployment.BeaconFactoryCode(factory))
  }

  /** The EIP-1014 address of the account that `factory` creates for `eoa`. */
  function ProxyAt(c: Chain, factory: Address, eoa: Address): (a: Address) {
    AddressIn(c.keccak([0xff] + BytesOf(factory, 20) + BytesOf(c.keccak(BytesOf(eoa, 20)), 32) + BytesOf(InitHash(c, factory), 32)))
  }

  /** What an account is born with. */
  function Born(c: Chain, eoa: Address, key: Word, impl: Word, authority: Address): (st: Storage) {
    map[KeySlot(c) := key][SLOT_COUNT := 1][SLOT_OWNER := eoa][SLOT_AUTHORITY := authority][SLOT_IMPL := impl][SLOT_VERSION := 2]
  }

  /** What an EOA signs to get an account. */
  datatype Consent = Consent(eoa: Address, key: Word, authority: Address, v: Byte, r: Word, s: Word)

  const EIP191_TEXT: string := "Ethereum Signed Message:\n153"
  const NEW_TEXT: string := "New Superposition account: "
  const AUTHORITY_TEXT: string := ", authority contract: "

  /** The EIP-191 message by which an EOA hands an account to a key and an authority. */
  function ConsentMessage(key: Word, authority: Address): (b: seq<Byte>) {
    [0x19] + Hex.Ascii(EIP191_TEXT + (NEW_TEXT + Hex.Encode(BytesOf(key, 32)) + AUTHORITY_TEXT + Hex.Encode(BytesOf(authority, 20))))
  }

  datatype Event =
    | Spent(at: Address, nonce: Word)
    | Token(op: TokenOp)
    | Locked(at: Address)
    | Unlocked(at: Address)
    | Called(at: Address, target: Address, hash: Word)
    // The account has done what the payload asks; nothing changes by it.
    | Served(at: Address, payload: Wire.Payload)
    | Migrated(at: Address, sender: Address, key: Word, owner: Word, impl: Word, authority: Word)
    | Upgraded(at: Address, sender: Address, impl: Word)
    | Created(factory: Address, consent: Consent)
    | Deployed(at: Address)
    | Initialised(at: Address, operator: Address)
    | Registered(at: Address, sender: Address, hash: Word, allowed: bool)

  /** The authority of an account, when it is an Authority9lives contract, allows the code hash. */
  predicate Permitted(w: World, a: Address, hash: Word) {
    var authority := Load(Store(w, a), SLOT_AUTHORITY);
    authority != 0 && AddressIn(authority) in w.registries ==>
      (var allowed := w.registries[AddressIn(authority)].allowed;
       hash in allowed && allowed[hash])
  }

  predicate Consented(c: Chain, x: Consent) {
    x.key != 0 && x.eoa != 0 && c.recover(c.keccak(ConsentMessage(x.key, x.authority)), x.v, x.r, x.s) == Some(x.eoa)
  }

  predicate Enabled(c: Chain, w: World, e: Event) {
    match e
    case Spent(a, nonce) => a in w.accounts && nonce < NONCE_LIMIT && Load(Store(w, a), NonceSlot(c, nonce)) == 0
    case Token(op) => Do(c.unlimited, w.ledger, op).Some?
    case Locked(a) => a in w.accounts && !w.accounts[a].locked
    case Unlocked(a) => a in w.accounts
    case Called(a, _, hash) => Permitted(w, a, hash)
    case Served(_, _) => true
    case Migrated(a, sender, key, owner, impl, authority) =>
      a in w.accounts && MigratedStore(c, Store(w, a), sender, key, owner, impl, authority).Some?
    case Upgraded(a, sender, _) =>
      a in w.accounts && w.accounts[a].upgradeable && AddressIn(Load(Store(w, a), SLOT_ADMIN)) == sender
    case Created(factory, x) =>
      Consented(c, x) && Load(Store(w, factory), SLOT_IMPL) != 0 && ProxyAt(c, factory, x.eoa) !in w.accounts
    case Deployed(a) => a !in w.registries
    case Initialised(a, _) => a in w.registries && w.registries[a].version == 0
    case Registered(a, sender, _, _) => a in w.registries && w.registries[a].operator == sender
  }

  function Apply(c: Chain, w: World, e: Event): (r: World)
    requires Enabled(c, w, e)
  {
    match e
    case Spent(a, nonce) => SetStore(w, a, Store(w, a)[NonceSlot(c, nonce) := 1])
    case Token(op) => w.(ledger := Do(c.unlimited, w.ledger, op).value)
    case Locked(a) => w.(accounts := w.accounts[a := w.accounts[a].(locked := true)])
    case Unlocked(a) => w.(accounts := w.accounts[a := w.accounts[a].(locked := false)])
    case Called(_, _, _) => w
    case Served(_, _) => w
    case Migrated(a, sender, key, owner, impl, authority) =>
      SetStore(w, a, MigratedStore(c, Store(w, a), sender, key, owner, impl, authority).value)
    case Upgraded(a, _, impl) => SetStore(w, a, Store(w, a)[SLOT_IMPL := impl])
    case Created(factory, x) =>
      w.(accounts := w.accounts[ProxyAt(c, factory, x.eoa) :=
           Account(false, Born(c, x.eoa, x.key, Load(Store(w, factory), SLOT_IMPL), x.authority), false)])
    case Deployed(a) => w.(registries := w.registries[a := Registry(0, 0, map[])])
    case Initialised(a, operator) =>
      w.(registries := w.registries[a := w.registries[a].(version := 1, operator := operator)])
    case Registered(a, _, hash, allowed) =>
      w.(registries := w.registries[a := w.registries[a].(allowed := w.registries[a].allowed[hash := allowed])])
  }

  /** Each change of the log is possible where it happens. */
  predicate Runs(c: Chain, w: World, log: seq<Event>)
    decreases |log|
  {
    log != [] ==> Enabled(c, w, log[0]) && Runs(c, Apply(c, w, log[0]), log[1..])
  }

  function Replay(c: Chain, w: World, log: seq<Event>): (r: World)
    requires Runs(c, w, log)
    decreases |log|
  {
    if log == [] then w else Replay(c, Apply(c, w, log[0]), log[1..])
  }

  lemma {:induction false} ReplayThen(c: Chain, w: World, x: seq<Event>, y: seq<Event>)
    requires Runs(c, w, x) && Runs(c, Replay(c, w, x), y)
    ensures Runs(c, w, x + y) && Replay(c, w, x + y) == Replay(c, Replay(c, w, x), y)
    decreases |x|
  {
    if x == [] {
      assert x + y == y;
    } else {
      assert (x + y)[1..] == x[1..] + y;
      ReplayThen(c, Apply(c, w, x[0]), x[1..], y);
    }
  }
}
