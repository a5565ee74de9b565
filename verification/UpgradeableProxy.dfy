/** The upgradeable proxy that the factory lives behind: the storage its constructor lays out is the
    storage that the account code reads, and only its admin ever changes the code. */
module UpgradeableProxy {
  import opened Words
  import Evm
  import opened Accounts
  import opened Protocol
  import opened AccountHistory

  // Where the two languages put the fields.

  datatype FieldType = Bool | Uint256 | Mapping | AddressField

  const SOLIDITY_FIELDS: seq<FieldType> := [Bool, Uint256, Mapping, AddressField, Mapping, Uint256]

  function Size(t: FieldType): (n: nat)
    ensures 1 <= n <= 32
  {
    match t
    case Bool => 1
    case Uint256 => 32
    case Mapping => 32
    case AddressField => 20
  }

  /** Solidity's layout: a field goes where the previous one left off if it fits there, and else begins
      the next slot. */
  function SoliditySlots(fields: seq<FieldType>, slot: nat, used: nat): (slots: seq<nat>)
    ensures |slots| == |fields|
  {
    if fields == [] then []
    else if used + Size(fields[0]) <= 32 then [slot] + SoliditySlots(fields[1..], slot, used + Size(fields[0]))
    else [slot + 1] + SoliditySlots(fields[1..], slot + 1, Size(fields[0]))
  }

  /** The layout of storage.rs: a counter. */
  function CounterSlots(n: nat, slot: nat): (slots: seq<nat>)
    ensures |slots| == n
  {
    seq(n, i => slot + i)
  }

  /** No two neighbours fit into one slot. */
  predicate NothingPacks(fields: seq<FieldType>) {
    |fields| >= 2 ==> Size(fields[0]) + Size(fields[1]) > 32 && NothingPacks(fields[1..])
  }

  lemma SameHead(x: nat, s: seq<nat>, t: seq<nat>)
    ensures [x] + s == [x] + t <==> s == t
  {
    assert ([x] + s)[1..] == s && ([x] + t)[1..] == t;
  }

  /** Numbering the fields that follow one of `size` bytes in slot `slot`. */
  lemma {:induction false} LayoutsFrom(size: nat, fields: seq<FieldType>, slot: nat)
    requires 1 <= size <= 32 && fields != []
    ensures SoliditySlots(fields, slot, size) == CounterSlots(|fields|, slot + 1) <==>
            (size + Size(fields[0]) > 32 && NothingPacks(fields))
    decreases |fields|
  {
    var rest := fields[1..];
    if size + Size(fields[0]) <= 32 {
      assert SoliditySlots(fields, slot, size)[0] == slot;
    } else {
      var tail := SoliditySlots(rest, slot + 1, Size(fields[0]));
      assert CounterSlots(|fields|, slot + 1) == [slot + 1] + CounterSlots(|rest|, slot + 2);
      SameHead(slot + 1, tail, CounterSlots(|rest|, slot + 2));
      if rest != [] { LayoutsFrom(Size(fields[0]), rest, slot + 1); }
    }
  }

  /** From any slot on, Solidity numbers fields as the counter does exactly when no two neighbours fit
      into one slot. */
  lemma LayoutsAgree(fields: seq<FieldType>, slot: nat)
    requires fields != []
    ensures SoliditySlots(fields, slot, 0) == CounterSlots(|fields|, slot) <==> NothingPacks(fields)
  {
    var rest := fields[1..];
    var tail := SoliditySlots(rest, slot, Size(fields[0]));
    assert SoliditySlots(fields, slot, 0) == [slot] + tail;
    assert CounterSlots(|fields|, slot) == [slot] + CounterSlots(|rest|, slot + 1);
    SameHead(slot, tail, CounterSlots(|rest|, slot + 1));
    if rest != [] { LayoutsFrom(Size(fields[0]), rest, slot); }
  }

  /** The proxy's fields are where the account code has its count, keys, owner, nonces and version. */
  lemma FieldsCoincide()
    ensures SoliditySlots(SOLIDITY_FIELDS, 0, 0) == [0, SLOT_COUNT, SLOT_KEYS, SLOT_OWNER, SLOT_TIMESTAMPS, SLOT_VERSION]
  {
    LayoutsAgree(SOLIDITY_FIELDS, 0);
  }

  /** What the constructor leaves. */
  function Constructed(c: Chain, impl: Address, admin: Address, key: Word): (st: Evm.Storage) {
    map[SLOT_IMPL := impl][SLOT_ADMIN := admin][0 := 1][SLOT_COUNT := 1][KeySlot(c) := key][SLOT_OWNER := admin][SLOT_VERSION := 2]
  }

  class Proxy {
    var store: Evm.Storage

    constructor (c: Chain, impl: Address, admin: Address, key: Word)
      ensures store == Constructed(c, impl, admin, key)
    {
      var slots := SoliditySlots(SOLIDITY_FIELDS, 0, 0);
      FieldsCoincide();
      var st: Evm.Storage := map[SLOT_IMPL := impl];
      st := st[SLOT_ADMIN := admin];
      st := st[slots[0] := 1];
      st := st[slots[1] := 1];
      st := st[c.keccak(BytesOf(2, 32) + BytesOf(0, 32)) := key];
      st := st[slots[3] := admin];
      st := st[slots[5] := 2];
      store := st;
    }
  }

  lemma ConstructedReads(c: Chain, impl: Address, admin: Address, key: Word)
    requires Separated(c)
    ensures var st := Constructed(c, impl, admin, key);
            && Evm.Load(st, KeySlot(c)) == key && Evm.Load(st, SLOT_COUNT) == 1 && Evm.Load(st, SLOT_OWNER) == admin
            && Evm.Load(st, SLOT_AUTHORITY) == 0 && Evm.Load(st, SLOT_VERSION) == 2 && Evm.Load(st, SLOT_ADMIN) == admin
            && Evm.Load(st, SLOT_IMPL) == impl
            && forall nonce: Word :: nonce < NONCE_LIMIT ==> Evm.Load(st, NonceSlot(c, nonce)) == 0
  {
  }

  /** From construction on, in every run: the proxy's admin, owner, key and version stay as they were
      constructed, and the code changes only in messages from the admin. */
  lemma OnlyAdminUpgrades(c: Chain, w: World, acts: seq<Act>, a: Address, impl: Address, admin: Address, key: Word)
    requires Separated(c) && a in w.accounts && w.accounts[a].upgradeable
    requires w.accounts[a].store == Constructed(c, impl, admin, key)
    ensures var s := Acts(c, w, acts);
            && SetUp(s.w, a)
            && ConfigOf(c, s.w, a) == Config(key, 1, admin, 0, 2, admin)
            && ImplOf(s.w, a) == LastInstalled(s.log, a, impl)
            && InstalledOnlyBy(s.log, a, admin)
  {
    ConstructedReads(c, impl, admin, key);
    FactoryUpgrades(c, w, acts, a);
  }
}
