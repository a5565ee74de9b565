/** What holds of accounts, of the factory and of authorities over every run. */
module AccountHistory {
  import opened Words
  import Evm
  import opened Accounts
  import opened Protocol
  import opened ProtocolRuns

  // Nonces.

  predicate Used(c: Chain, w: World, a: Address, nonce: Word) {
    Evm.Load(Store(w, a), NonceSlot(c, nonce)) != 0
  }

  /** A migration writes no nonce. */
  lemma MigrationSpendsNothing(c: Chain, st: Evm.Storage, sender: Address, key: Word, owner: Word, impl: Word,
        authority: Word, nonce: Word)
    requires Separated(c) && nonce < NONCE_LIMIT
    requires MigratedStore(c, st, sender, key, owner, impl, authority).Some?
    ensures Evm.Load(MigratedStore(c, st, sender, key, owner, impl, authority).value, NonceSlot(c, nonce)) == Evm.Load(st, NonceSlot(c, nonce))
  {
    assert !Flat(NonceSlot(c, nonce));
  }

  lemma UsedStep(c: Chain, w: World, e: Event, a: Address, nonce: Word)
    requires Separated(c) && Enabled(c, w, e) && nonce < NONCE_LIMIT
    ensures Used(c, Apply(c, w, e), a, nonce) <==> Used(c, w, a, nonce) || e == Spent(a, nonce)
    ensures e == Spent(a, nonce) ==> !Used(c, w, a, nonce)
  {
    assert !Flat(NonceSlot(c, nonce)) && NonceSlot(c, nonce) != KeySlot(c);
    match e
    case Spent(b, n) => if n != nonce { assert NonceSlot(c, n) != NonceSlot(c, nonce); }
    case Migrated(b, sender, key, owner, impl, authority) =>
      MigrationSpendsNothing(c, Store(w, b), sender, key, owner, impl, authority, nonce);
    case _ =>
  }

  lemma {:induction false} SpendsOnce(c: Chain, w: World, log: seq<Event>, a: Address, nonce: Word)
    requires Separated(c) && Runs(c, w, log) && nonce < NONCE_LIMIT
    ensures Used(c, Replay(c, w, log), a, nonce) <==> Used(c, w, a, nonce) || Spent(a, nonce) in log
    ensures Spent(a, nonce) in log ==> !Used(c, w, a, nonce)
    ensures multiset(log)[Spent(a, nonce)] <= 1
    decreases |log|
  {
    if log != [] {
      UsedStep(c, w, log[0], a, nonce);
      SpendsOnce(c, Apply(c, w, log[0]), log[1..], a, nonce);
      assert log == [log[0]] + log[1..];
    }
  }

  /** Over every run, a nonce of an account is consumed by at most one committed item, of whatever
      kind of request, and only if it was not used before; and the nonces used afterwards are those
      used before and those consumed, so none is ever freed. */
  lemma NoncesOnce(c: Chain, w: World, acts: seq<Act>, a: Address, nonce: Word)
    requires Separated(c) && nonce < NONCE_LIMIT
    ensures var s := Acts(c, w, acts);
            && multiset(s.log)[Spent(a, nonce)] <= (if Used(c, w, a, nonce) then 0 else 1)
            && (Used(c, s.w, a, nonce) <==> Used(c, w, a, nonce) || Spent(a, nonce) in s.log)
  {
    ActsSound(c, w, acts);
    SpendsOnce(c, w, Acts(c, w, acts).log, a, nonce);
  }

  // Configuration.

  datatype Config = Config(key: Word, count: Word, owner: Word, authority: Word, version: Word, admin: Word)

  function ConfigOf(c: Chain, w: World, a: Address): (r: Config) {
    var st := Store(w, a);
    Config(Evm.Load(st, KeySlot(c)), Evm.Load(st, SLOT_COUNT), Evm.Load(st, SLOT_OWNER), Evm.Load(st, SLOT_AUTHORITY),
           Evm.Load(st, SLOT_VERSION), Evm.Load(st, SLOT_ADMIN))
  }

  function ImplOf(w: World, a: Address): (r: Word) {
    Evm.Load(Store(w, a), SLOT_IMPL)
  }

  predicate SetUp(w: World, a: Address) {
    a in w.accounts && Evm.Load(Store(w, a), SLOT_VERSION) == 2
  }

  /** The code an event installs in an account, if it does. */
  function Installs(e: Event, a: Address): (r: Option<Word>) {
    match e
    case Migrated(b, _, _, _, impl, _) => if a == b then Some(impl) else None
    case Upgraded(b, _, impl) => if a == b then Some(impl) else None
    case _ => None
  }

  lemma FrozenStep(c: Chain, w: World, e: Event, a: Address)
    requires Separated(c) && Enabled(c, w, e) && SetUp(w, a)
    ensures var next := Apply(c, w, e);
            && SetUp(next, a)
            && next.accounts[a].upgradeable == w.accounts[a].upgradeable
            && ConfigOf(c, next, a) == ConfigOf(c, w, a)
            && ImplOf(next, a) == (match Installs(e, a) case None => ImplOf(w, a) case Some(impl) => impl)
    ensures Installs(e, a).Some? ==>
              (if e.Upgraded? then w.accounts[a].upgradeable && e.sender == AddressIn(ConfigOf(c, w, a).admin)
               else e.sender == AddressIn(ConfigOf(c, w, a).owner) && e.impl != 0)
  {
    match e
    case Spent(b, n) => assert !Flat(NonceSlot(c, n)) && NonceSlot(c, n) != KeySlot(c);
    case Created(factory, x) => assert ProxyAt(c, factory, x.eoa) != a;
    case _ =>
  }

  /** The senders of the messages that install code in an account. */
  ghost predicate InstalledOnlyBy(log: seq<Event>, a: Address, sender: Address) {
    forall i :: 0 <= i < |log| && Installs(log[i], a).Some? ==> log[i].sender == sender
  }

  /** The code in an account after a run: what was installed last. */
  function LastInstalled(log: seq<Event>, a: Address, before: Word): (r: Word)
    decreases |log|
  {
    if log == [] then before
    else LastInstalled(log[1..], a, (match Installs(log[0], a) case None => before case Some(impl) => impl))
  }

  lemma {:induction false} FrozenLog(c: Chain, w: World, log: seq<Event>, a: Address, master: Address)
    requires Separated(c) && Runs(c, w, log) && SetUp(w, a)
    requires AddressIn(ConfigOf(c, w, a).owner) == master
    requires w.accounts[a].upgradeable ==> AddressIn(ConfigOf(c, w, a).admin) == master
    ensures var end := Replay(c, w, log);
            && SetUp(end, a)
            && end.accounts[a].upgradeable == w.accounts[a].upgradeable
            && ConfigOf(c, end, a) == ConfigOf(c, w, a)
            && ImplOf(end, a) == LastInstalled(log, a, ImplOf(w, a))
            && (!w.accounts[a].upgradeable && ImplOf(w, a) != 0 ==> ImplOf(end, a) != 0)
    ensures InstalledOnlyBy(log, a, master)
    decreases |log|
  {
    if log != [] {
      FrozenStep(c, w, log[0], a);
      FrozenLog(c, Apply(c, w, log[0]), log[1..], a, master);
      assert forall i :: 0 < i < |log| ==> log[i] == log[1..][i - 1];
    }
  }

  /** Once an account is set up, no run changes its key, key count, owner, authority or version; its
      code changes only by migrations that its owner sends, and is never missing. */
  lemma FrozenConfiguration(c: Chain, w: World, acts: seq<Act>, a: Address)
    requires Separated(c) && SetUp(w, a) && !w.accounts[a].upgradeable && ImplOf(w, a) != 0
    ensures var s := Acts(c, w, acts);
            && SetUp(s.w, a)
            && ConfigOf(c, s.w, a) == ConfigOf(c, w, a)
            && ImplOf(s.w, a) == LastInstalled(s.log, a, ImplOf(w, a)) != 0
            && InstalledOnlyBy(s.log, a, OwnerOf(w, a))
  {
    ActsSound(c, w, acts);
    FrozenLog(c, w, Acts(c, w, acts).log, a, OwnerOf(w, a));
  }

  /** The factory behind the upgradeable proxy, when its owner is its admin: the code changes only in
      messages from the admin, and the admin is for ever the same. */
  lemma FactoryUpgrades(c: Chain, w: World, acts: seq<Act>, a: Address)
    requires Separated(c) && SetUp(w, a) && w.accounts[a].upgradeable
    requires AddressIn(ConfigOf(c, w, a).admin) == OwnerOf(w, a)
    ensures var s := Acts(c, w, acts);
            && SetUp(s.w, a) && s.w.accounts[a].upgradeable
            && ConfigOf(c, s.w, a) == ConfigOf(c, w, a)
            && ImplOf(s.w, a) == LastInstalled(s.log, a, ImplOf(w, a))
            && InstalledOnlyBy(s.log, a, AddressIn(ConfigOf(c, w, a).admin))
  {
    ActsSound(c, w, acts);
    FrozenLog(c, w, Acts(c, w, acts).log, a, OwnerOf(w, a));
  }

  // Below version 2.

  /** The first migration of an account in a log. */
  function FirstMigration(log: seq<Event>, a: Address): (r: Option<Event>)
    ensures r.Some? ==> r.value.Migrated? && r.value.at == a && r.value in log
    decreases |log|
  {
    if log == [] then None
    else if log[0].Migrated? && log[0].at == a then Some(log[0])
    else FirstMigration(log[1..], a)
  }

  /** What a migration makes of the configuration of an account at level 0 or 1. */
  function Decided(before: Config, m: Event): (r: Config)
    requires m.Migrated?
  {
    if before.version == 0 then Config(m.key, 1, m.owner, m.authority, 2, before.admin)
    else before.(authority := m.authority, version := 2)
  }

  /** Who may send it, and with what. */
  predicate Entitled(before: Config, m: Event)
    requires m.Migrated?
  {
    m.impl != 0 && (if before.version == 0 then m.key != 0 && m.owner != 0 else m.sender == AddressIn(before.owner))
  }

  lemma MigratedStep(c: Chain, w: World, m: Event)
    requires Separated(c) && m.Migrated? && Enabled(c, w, m) && ConfigOf(c, w, m.at).version <= 1
    ensures var next := Apply(c, w, m);
            && SetUp(next, m.at)
            && ConfigOf(c, next, m.at) == Decided(ConfigOf(c, w, m.at), m)
            && Entitled(ConfigOf(c, w, m.at), m)
  {
  }

  lemma UnmigratedStep(c: Chain, w: World, e: Event, a: Address)
    requires Separated(c) && Enabled(c, w, e) && a in w.accounts && !(e.Migrated? && e.at == a)
    ensures a in Apply(c, w, e).accounts && ConfigOf(c, Apply(c, w, e), a) == ConfigOf(c, w, a)
  {
    match e
    case Spent(b, n) => assert !Flat(NonceSlot(c, n)) && NonceSlot(c, n) != KeySlot(c);
    case Created(factory, x) => assert ProxyAt(c, factory, x.eoa) != a;
    case _ =>
  }

  lemma {:induction false} ConfigLog(c: Chain, w: World, log: seq<Event>, a: Address)
    requires Separated(c) && Runs(c, w, log) && SetUp(w, a)
    ensures SetUp(Replay(c, w, log), a) && ConfigOf(c, Replay(c, w, log), a) == ConfigOf(c, w, a)
    decreases |log|
  {
    if log != [] {
      FrozenStep(c, w, log[0], a);
      ConfigLog(c, Apply(c, w, log[0]), log[1..], a);
    }
  }

  lemma {:induction false} LevelsLog(c: Chain, w: World, log: seq<Event>, a: Address)
    requires Separated(c) && Runs(c, w, log) && a in w.accounts && ConfigOf(c, w, a).version <= 1
    ensures match FirstMigration(log, a)
            case None => ConfigOf(c, Replay(c, w, log), a) == ConfigOf(c, w, a)
            case Some(m) =>
              Entitled(ConfigOf(c, w, a), m) && ConfigOf(c, Replay(c, w, log), a) == Decided(ConfigOf(c, w, a), m)
    decreases |log|
  {
    if log != [] {
      var next := Apply(c, w, log[0]);
      if log[0].Migrated? && log[0].at == a {
        MigratedStep(c, w, log[0]);
        ConfigLog(c, next, log[1..], a);
      } else {
        UnmigratedStep(c, w, log[0], a);
        LevelsLog(c, next, log[1..], a);
      }
    }
  }

  /** Over every run, the first committed migration of an account below version 2 settles its
      configuration for good, whatever migrations follow: at level 0, where anyone may send it, key, owner
      and authority are those it names; at level 1 it comes from the owner and settles the authority, and
      key and owner stay. Without a migration nothing of it changes. */
  lemma FirstMigrationDecides(c: Chain, w: World, acts: seq<Act>, a: Address)
    requires Separated(c) && a in w.accounts && ConfigOf(c, w, a).version <= 1
    ensures var s := Acts(c, w, acts);
            match FirstMigration(s.log, a)
            case None => ConfigOf(c, s.w, a) == ConfigOf(c, w, a)
            case Some(m) => Entitled(ConfigOf(c, w, a), m) && ConfigOf(c, s.w, a) == Decided(ConfigOf(c, w, a), m)
  {
    ActsSound(c, w, acts);
    LevelsLog(c, w, Acts(c, w, acts).log, a);
  }

  // Creation.

  lemma {:induction false} AccountsStay(c: Chain, w: World, log: seq<Event>, a: Address)
    requires Runs(c, w, log) && a in w.accounts
    ensures a in Replay(c, w, log).accounts
    ensures forall i :: 0 <= i < |log| && log[i].Created? ==> ProxyAt(c, log[i].factory, log[i].consent.eoa) != a
    decreases |log|
  {
    if log != [] {
      AccountsStay(c, Apply(c, w, log[0]), log[1..], a);
      assert forall i :: 0 < i < |log| ==> log[i] == log[1..][i - 1];
    }
  }

  /** The account that an event creates. */
  function Child(c: Chain, e: Event): (a: Address)
    requires e.Created?
  {
    ProxyAt(c, e.factory, e.consent.eoa)
  }

  /** The account is as its EOA asked. */
  predicate AsConsented(c: Chain, w: World, a: Address, x: Consent) {
    && SetUp(w, a) && !w.accounts[a].upgradeable
    && ConfigOf(c, w, a) == Config(x.key, 1, x.eoa, x.authority, 2, 0)
  }

  lemma BornAsConsented(c: Chain, w: World, factory: Address, x: Consent)
    requires Separated(c) && Enabled(c, w, Created(factory, x))
    ensures AsConsented(c, Apply(c, w, Created(factory, x)), ProxyAt(c, factory, x.eoa), x)
    ensures ImplOf(Apply(c, w, Created(factory, x)), ProxyAt(c, factory, x.eoa)) != 0
  {
  }

  lemma StaysAsConsented(c: Chain, w: World, log: seq<Event>, a: Address, x: Consent)
    requires Separated(c) && Runs(c, w, log) && AsConsented(c, w, a, x)
    ensures AsConsented(c, Replay(c, w, log), a, x)
  {
    FrozenLog(c, w, log, a, x.eoa);
  }

  lemma FirstCreated(c: Chain, w: World, log: seq<Event>)
    requires Separated(c) && Runs(c, w, log) && log != [] && log[0].Created?
    ensures AsConsented(c, Replay(c, w, log), Child(c, log[0]), log[0].consent)
  {
    BornAsConsented(c, w, log[0].factory, log[0].consent);
    StaysAsConsented(c, Apply(c, w, log[0]), log[1..], Child(c, log[0]), log[0].consent);
  }

  lemma FirstChild(c: Chain, w: World, log: seq<Event>, j: nat)
    requires Runs(c, w, log) && 0 < j < |log| && log[0].Created? && log[j].Created?
    ensures Child(c, log[j]) != Child(c, log[0])
  {
    AccountsStay(c, Apply(c, w, log[0]), log[1..], Child(c, log[0]));
    assert log[1..][j - 1] == log[j];
  }

  lemma {:induction false} CreatedLog(c: Chain, w: World, log: seq<Event>, i: nat)
    requires Separated(c) && Runs(c, w, log) && i < |log| && log[i].Created?
    ensures Child(c, log[i]) !in w.accounts
    ensures AsConsented(c, Replay(c, w, log), Child(c, log[i]), log[i].consent)
    decreases |log|
  {
    if i == 0 {
      FirstCreated(c, w, log);
    } else {
      CreatedLog(c, Apply(c, w, log[0]), log[1..], i - 1);
    }
  }

  lemma {:induction false} ChildrenDiffer(c: Chain, w: World, log: seq<Event>, i: nat, j: nat)
    requires Runs(c, w, log) && i < j < |log| && log[i].Created? && log[j].Created?
    ensures Child(c, log[j]) != Child(c, log[i])
    decreases |log|
  {
    if i == 0 {
      FirstChild(c, w, log, j);
    } else {
      ChildrenDiffer(c, Apply(c, w, log[0]), log[1..], i - 1, j - 1);
    }
  }

  /** Over every run, an account that is created is, for good, set up with the EOA as owner and with
      the key and the authority of the message that the EOA signed. */
  lemma CreatedAsConsented(c: Chain, w: World, acts: seq<Act>, i: nat)
    requires Separated(c)
    requires var log := Acts(c, w, acts).log; i < |log| && log[i].Created?
    ensures var s := Acts(c, w, acts);
            && Child(c, s.log[i]) !in w.accounts
            && AsConsented(c, s.w, Child(c, s.log[i]), s.log[i].consent)
            && Consented(c, s.log[i].consent)
  {
    ActsSound(c, w, acts);
    CreatedLog(c, w, Acts(c, w, acts).log, i);
    Moment(c, w, Acts(c, w, acts).log, i);
  }

  /** Over every run, no two creations yield the same account, so a factory gives an EOA at most one. */
  lemma OneAccountPerEoa(c: Chain, w: World, acts: seq<Act>, i: nat, j: nat)
    requires var log := Acts(c, w, acts).log; i < j < |log| && log[i].Created? && log[j].Created?
    ensures var log := Acts(c, w, acts).log;
            && Child(c, log[i]) != Child(c, log[j])
            && (log[i].factory == log[j].factory ==> log[i].consent.eoa != log[j].consent.eoa)
  {
    ActsSound(c, w, acts);
    ChildrenDiffer(c, w, Acts(c, w, acts).log, i, j);
  }

  // Authorities.

  /** What the operator registered last for a code hash. */
  function LatestRegistration(log: seq<Event>, registry: Address, hash: Word): (r: Option<bool>) {
    if log == [] then None
    else
      var e := log[|log| - 1];
      if e.Registered? && e.at == registry && e.hash == hash then Some(e.allowed)
      else LatestRegistration(log[..|log| - 1], registry, hash)
  }

  predicate AllowedIn(w: World, registry: Address, hash: Word) {
    registry in w.registries &&
    var allowed := w.registries[registry].allowed;
    hash in allowed && allowed[hash]
  }

  /** No authority, or one that allows the code: an Authority9lives contract by what is registered in it,
      any other by what it answers. */
  predicate MayCall(w: World, a: Address, reply: Reply) {
    var authority := Evm.Load(Store(w, a), SLOT_AUTHORITY);
    authority != 0 ==>
      if AddressIn(authority) in w.registries then AllowedIn(w, AddressIn(authority), reply.codeHash) else reply.allowed
  }

  lemma {:induction false} ReplayPrefix(c: Chain, w: World, log: seq<Event>, n: nat)
    requires Runs(c, w, log) && n <= |log|
    ensures Runs(c, w, log[..n]) && Runs(c, Replay(c, w, log[..n]), log[n..])
    ensures Replay(c, Replay(c, w, log[..n]), log[n..]) == Replay(c, w, log)
    decreases |log|
  {
    if n == 0 {
      assert log[..0] == [] && log[0..] == log;
    } else {
      ReplayPrefix(c, Apply(c, w, log[0]), log[1..], n - 1);
      assert log[..n][1..] == log[1..][..n - 1];
      assert log[n..] == log[1..][n - 1..];
    }
  }

  lemma ReplayLast(c: Chain, w: World, log: seq<Event>)
    requires Runs(c, w, log) && log != []
    ensures var n := |log| - 1;
            && Runs(c, w, log[..n])
            && Enabled(c, Replay(c, w, log[..n]), log[n])
            && Replay(c, w, log) == Apply(c, Replay(c, w, log[..n]), log[n])
  {
    var n := |log| - 1;
    ReplayPrefix(c, w, log, n);
    assert log[n..][0] == log[n] && log[n..][1..] == [];
  }

  /** The operator's latest word on a code hash, or else what held at the start. */
  predicate Endorsed(w: World, log: seq<Event>, registry: Address, hash: Word) {
    match LatestRegistration(log, registry, hash)
    case None => AllowedIn(w, registry, hash)
    case Some(allowed) => allowed
  }

  lemma {:induction false} RegistryLog(c: Chain, w: World, log: seq<Event>, registry: Address, hash: Word)
    requires Runs(c, w, log)
    ensures var end := Replay(c, w, log);
            && (AllowedIn(end, registry, hash) <==> Endorsed(w, log, registry, hash))
            && (registry !in end.registries ==> LatestRegistration(log, registry, hash).None?)
            && (registry in w.registries && w.registries[registry].version != 0 ==>
                registry in end.registries && end.registries[registry].version != 0 &&
                end.registries[registry].operator == w.registries[registry].operator)
    decreases |log|
  {
    if log != [] {
      var n := |log| - 1;
      ReplayLast(c, w, log);
      RegistryLog(c, w, log[..n], registry, hash);
    }
  }

  /** In the middle of a log. */
  lemma Moment(c: Chain, w: World, log: seq<Event>, i: nat)
    requires Runs(c, w, log) && i < |log|
    ensures Runs(c, w, log[..i]) && Enabled(c, Replay(c, w, log[..i]), log[i])
  {
    ReplayPrefix(c, w, log, i);
    assert log[i..][0] == log[i];
  }

  lemma AuthorityLog(c: Chain, w: World, log: seq<Event>, i: nat)
    requires Runs(c, w, log) && i < |log| && log[i].Called?
    ensures Runs(c, w, log[..i])
    ensures var now := Replay(c, w, log[..i]);
            var authority := Evm.Load(Store(now, log[i].at), SLOT_AUTHORITY);
            authority != 0 && AddressIn(authority) in now.registries ==>
              Endorsed(w, log[..i], AddressIn(authority), log[i].hash)
  {
    Moment(c, w, log, i);
    var now := Replay(c, w, log[..i]);
    RegistryLog(c, w, log[..i], AddressIn(Evm.Load(Store(now, log[i].at), SLOT_AUTHORITY)), log[i].hash);
  }

  /** Over every run, every target call of an account whose authority is, at that moment, an
      Authority9lives contract happens while the latest registration of the target's code hash there is
      true. The authority is the address in the stored word, whatever its high bytes are. */
  lemma AuthorityRules(c: Chain, w: World, acts: seq<Act>, i: nat)
    requires i < |Acts(c, w, acts).log| && Acts(c, w, acts).log[i].Called?
    ensures var log := Acts(c, w, acts).log;
            && Runs(c, w, log[..i])
            && var now := Replay(c, w, log[..i]);
            && var authority := Evm.Load(Store(now, log[i].at), SLOT_AUTHORITY);
            (authority != 0 && AddressIn(authority) in now.registries ==>
              Endorsed(w, log[..i], AddressIn(authority), log[i].hash))
  {
    ActsSound(c, w, acts);
    AuthorityLog(c, w, Acts(c, w, acts).log, i);
  }

  /** The part of a log between two moments. */
  lemma Between(c: Chain, w: World, log: seq<Event>, i: nat, j: nat)
    requires Runs(c, w, log) && i <= j <= |log|
    ensures Runs(c, w, log[..i]) && Runs(c, Replay(c, w, log[..i]), log[i..j]) && Runs(c, w, log[..j])
    ensures Replay(c, Replay(c, w, log[..i]), log[i..j]) == Replay(c, w, log[..j])
  {
    ReplayPrefix(c, w, log, j);
    ReplayPrefix(c, w, log[..j], i);
    assert log[..j][..i] == log[..i] && log[..j][i..] == log[i..j];
  }

  lemma OperatorLog(c: Chain, w: World, log: seq<Event>, registry: Address, i: nat, j: nat)
    requires Runs(c, w, log) && i <= j < |log|
    ensures Runs(c, w, log[..i]) && Runs(c, w, log[..j])
    ensures var early, now := Replay(c, w, log[..i]), Replay(c, w, log[..j]);
            registry in early.registries && early.registries[registry].version != 0 ==>
              && registry in now.registries
              && now.registries[registry].operator == early.registries[registry].operator
              && (log[j].Registered? && log[j].at == registry ==> log[j].sender == early.registries[registry].operator)
  {
    Between(c, w, log, i, j);
    Moment(c, w, log, j);
    RegistryLog(c, Replay(c, w, log[..i]), log[i..j], registry, 0);
  }

  /** Over every run, from the moment an authority is initialised on, it keeps its operator, and every
      registration in it is sent by that operator. */
  lemma OneOperator(c: Chain, w: World, acts: seq<Act>, registry: Address, i: nat, j: nat)
    requires i <= j < |Acts(c, w, acts).log|
    ensures var log := Acts(c, w, acts).log;
            && Runs(c, w, log[..i]) && Runs(c, w, log[..j])
            && var early, now := Replay(c, w, log[..i]), Replay(c, w, log[..j]);
            (registry in early.registries && early.registries[registry].version != 0 ==>
              && registry in now.registries
              && now.registries[registry].operator == early.registries[registry].operator
              && (log[j].Registered? && log[j].at == registry ==> log[j].sender == early.registries[registry].operator))
  {
    ActsSound(c, w, acts);
    OperatorLog(c, w, Acts(c, w, acts).log, registry, i, j);
  }
}
