/** What a message does, from its bytes on: exactly when it commits, and the world it leaves. */
module Dispatch {
  import opened Words
  import Evm
  import opened Scripts
  import opened Accounts
  import opened Wire
  import opened Protocol
  import opened Entrypoint
  import opened Spending
  import opened Verdicts

  // Migrations.

  /** The first migration needs a key and an owner, any later one must come from the owner. */
  predicate MayMigrate(w: World, a: Address, sender: Address, key: Word, owner: Word, impl: Word) {
    impl != 0 &&
    if Evm.Load(Store(w, a), SLOT_VERSION) == 0 then key != 0 && owner != 0
    else AddressIn(Evm.Load(Store(w, a), SLOT_OWNER)) == sender
  }

  /** What each level writes. */
  function MigratedTo(c: Chain, st: Evm.Storage, key: Word, owner: Word, impl: Word,
      authority: Word): (r: Evm.Storage) {
    var level := Evm.Load(st, SLOT_VERSION);
    if level == 0 then
      st[KeySlot(c) := key][SLOT_COUNT := 1][SLOT_OWNER := owner]
        [SLOT_AUTHORITY := authority][SLOT_IMPL := impl][SLOT_VERSION := 2]
    else if level == 1 then st[SLOT_AUTHORITY := authority][SLOT_IMPL := impl][SLOT_VERSION := 2]
    else st[SLOT_IMPL := impl][SLOT_VERSION := 2]
  }

  lemma MigrateExactly(c: Chain, w: World, a: Address, sender: Address, key: Word, owner: Word, impl: Word,
        authority: Word)
    requires a in w.accounts
    ensures var s := Raise(c, w, Migrated(a, sender, key, owner, impl, authority));
            && (s.ok <==> MayMigrate(w, a, sender, key, owner, impl))
            && (s.ok ==> s.w == SetStore(w, a, MigratedTo(c, Store(w, a), key, owner, impl, authority)))
  {
  }

  // Upgrades.

  /** Calldata of upgradeToAndCall(address,bytes): the selector, the address as a word, the offset of the
      data as a word, and there the size of the data as a word and the data. */
  predicate UpgradeAt(cd: seq<Byte>, impl: Address, data: seq<Byte>, offset: Word) {
    var from := 4 + offset;
    && |data| < WORD_LIMIT && 68 <= |cd| && from + 32 + |data| <= |cd|
    && cd[..68] == [0x4f, 0x1e, 0xf2, 0x86] + BytesOf(impl, 32) + BytesOf(offset, 32)
    && cd[from..from + 32] == BytesOf(|data|, 32)
    && cd[from + 32..from + 32 + |data|] == data
  }

  ghost predicate UpgradeTo(cd: seq<Byte>, impl: Address, data: seq<Byte>) {
    exists offset :: UpgradeAt(cd, impl, data, offset)
  }

  lemma UpgradeRead(cd: seq<Byte>)
    requires UpgradeCall(cd).Some?
    ensures UpgradeAt(cd, UpgradeCall(cd).value.0, UpgradeCall(cd).value.1, WordOf(cd[36..68]))
  {
    var impl: nat, offset: nat := WordOf(cd[4..36]), WordOf(cd[36..68]);
    BytesOfNatOf(cd[4..36]);
    BytesOfNatOf(cd[36..68]);
    BytesOfNatOf(cd[4 + offset..4 + offset + 32]);
    assert cd[..68] == cd[..4] + cd[4..36] + cd[36..68];
  }

  lemma UpgradeWritten(cd: seq<Byte>, impl: Address, data: seq<Byte>, offset: Word)
    requires UpgradeAt(cd, impl, data, offset)
    ensures UpgradeCall(cd) == Some((impl, data))
  {
    var head := [0x4f, 0x1e, 0xf2, 0x86] + BytesOf(impl, 32) + BytesOf(offset, 32);
    assert cd[..4] == cd[..68][..4] == head[..4] == SEL_UPGRADE;
    assert cd[4..36] == cd[..68][4..36] == head[4..36] == BytesOf(impl, 32);
    assert cd[36..68] == cd[..68][36..68] == head[36..68] == BytesOf(offset, 32);
    Widths();
    NatOfBytesOf(impl, 32);
    NatOfBytesOf(offset, 32);
    NatOfBytesOf(|data|, 32);
  }

  lemma UpgradeExactly(cd: seq<Byte>, impl: Address, data: seq<Byte>)
    ensures UpgradeCall(cd) == Some((impl, data)) <==> UpgradeTo(cd, impl, data)
  {
    if UpgradeCall(cd) == Some((impl, data)) {
      UpgradeRead(cd);
    }
    if offset :| UpgradeAt(cd, impl, data, offset) {
      UpgradeWritten(cd, impl, data, offset);
    }
  }

  // Messages.

  /** The account code commits the calldata and leads from `w` to `end`: empty calldata changes nothing,
      a migration and a request do what they say, and all other calldata is refused. */
  ghost predicate Answers(c: Chain, w: World, a: Address, sender: Address, cd: seq<Byte>, gasPermit: bool,
      replies: seq<Reply>, end: World)
    requires a in w.accounts
  {
    || (cd == [] && end == w)
    || (exists key, owner, impl, authority ::
          && MigrateCd(key, owner, impl, authority) <= cd && MayMigrate(w, a, sender, key, owner, impl)
          && end == SetStore(w, a, MigratedTo(c, Store(w, a), key, owner, impl, authority)))
    || (exists args :: Carries(c, cd, args) && Commits(c, w, a, args, gasPermit, replies, end))
  }

  function SetImpl(w: World, a: Address, impl: Word): (r: World)
    requires a in w.accounts
  {
    SetStore(w, a, Store(w, a)[SLOT_IMPL := impl])
  }

  /** A message to `a` commits and leaves `end`. The upgradeable proxy takes upgrades from its admin and
      nothing else, and hands everything from others to the code. */
  ghost predicate Leaves(c: Chain, w: World, a: Address, sender: Address, cd: seq<Byte>, gasPermit: bool,
      replies: seq<Reply>, end: World)
  {
    if a !in w.accounts then end == w
    else if FromAdmin(w, a, sender) then
      exists impl: Address, data :: UpgradeTo(cd, impl, data) &&
        if data == [] then end == SetImpl(w, a, impl)
        else Answers(c, SetImpl(w, a, impl), a, sender, data, gasPermit, replies, end)
    else Answers(c, w, a, sender, cd, gasPermit, replies, end)
  }

  lemma RunExactly(c: Chain, w: World, a: Address, sender: Address, cd: seq<Byte>, gasPermit: bool,
      replies: seq<Reply>, end: World)
    requires Separated(c) && a in w.accounts
    ensures var s := Run(c, w, a, sender, cd, gasPermit, replies);
            s.ok && s.w == end <==> Answers(c, w, a, sender, cd, gasPermit, replies, end)
  {
    forall args ensures Carries(c, cd, args) <==> RouteOf(c, cd) == Request(args) { CarriesExactly(c, cd, args); }
    forall key, owner, impl, authority
      ensures MigrateCd(key, owner, impl, authority) <= cd <==> RouteOf(c, cd) == Migration(key, owner, impl, authority)
    {
      MigratesExactly(c, cd, key, owner, impl, authority);
    }
    match RouteOf(c, cd)
    case Implementation =>
    case Migration(key, owner, impl, authority) => MigrateExactly(c, w, a, sender, key, owner, impl, authority);
    case Request(args) => RequestExactly(c, w, a, args, gasPermit, replies, end);
    case Malformed =>
  }

  lemma AdminExactly(c: Chain, w: World, a: Address, sender: Address, cd: seq<Byte>, gasPermit: bool,
      replies: seq<Reply>, end: World)
    requires Separated(c) && FromAdmin(w, a, sender)
    ensures var s := Upgrade(c, w, a, sender, cd, gasPermit, replies);
            s.ok && s.w == end <==> Leaves(c, w, a, sender, cd, gasPermit, replies, end)
  {
    forall impl: Address, data ensures UpgradeTo(cd, impl, data) <==> UpgradeCall(cd) == Some((impl, data)) {
      UpgradeExactly(cd, impl, data);
    }
    match UpgradeCall(cd)
    case None =>
    case Some((impl, data)) =>
      var s := Raise(c, w, Upgraded(a, sender, impl));
      assert s.ok && s.w == SetImpl(w, a, impl);
      RunExactly(c, s.w, a, sender, data, gasPermit, replies, end);
      JoinOk(s, Run(c, s.w, a, sender, data, gasPermit, replies));
  }

  lemma ReceiveExactly(c: Chain, w: World, a: Address, sender: Address, cd: seq<Byte>, gasPermit: bool,
      replies: seq<Reply>, end: World)
    requires Separated(c)
    ensures var s := Receive(c, w, a, sender, cd, gasPermit, replies);
            s.ok && s.w == end <==> Leaves(c, w, a, sender, cd, gasPermit, replies, end)
  {
    if a in w.accounts {
      if FromAdmin(w, a, sender) {
        AdminExactly(c, w, a, sender, cd, gasPermit, replies, end);
      } else {
        RunExactly(c, w, a, sender, cd, gasPermit, replies, end);
      }
    }
  }

  /** What has happened once a message is settled. */
  ghost predicate SettledAs(c: Chain, w: World, a: Address, sender: Address, cd: seq<Byte>, gasPermit: bool,
      replies: seq<Reply>, ok: bool, end: World)
  {
    if ok then Leaves(c, w, a, sender, cd, gasPermit, replies, end)
    else end == w && forall u :: !Leaves(c, w, a, sender, cd, gasPermit, replies, u)
  }

  lemma SettledExactly(c: Chain, w: World, a: Address, sender: Address, cd: seq<Byte>, gasPermit: bool,
      replies: seq<Reply>)
    requires Separated(c)
    ensures var s := Settle(w, Receive(c, w, a, sender, cd, gasPermit, replies));
            SettledAs(c, w, a, sender, cd, gasPermit, replies, s.ok, s.w)
  {
    forall end
      ensures var s := Receive(c, w, a, sender, cd, gasPermit, replies);
              s.ok && s.w == end <==> Leaves(c, w, a, sender, cd, gasPermit, replies, end)
    {
      ReceiveExactly(c, w, a, sender, cd, gasPermit, replies, end);
    }
  }

  /** The whole protocol in one statement: a message leaves a world exactly when `Leaves` says so; no
      message can leave two; and one that can leave none changes nothing. */
  lemma MessagesExactly(c: Chain, w: World, a: Address, sender: Address, cd: seq<Byte>, gasPermit: bool,
      replies: seq<Reply>)
    requires Separated(c)
    ensures var s := Perform(c, w, Message(a, sender, cd, gasPermit, replies));
            || (forall end :: Leaves(c, w, a, sender, cd, gasPermit, replies, end) <==> end == s.w)
            || ((forall end :: !Leaves(c, w, a, sender, cd, gasPermit, replies, end)) && s.w == w && s.log == [])
  {
    forall end
      ensures var s := Receive(c, w, a, sender, cd, gasPermit, replies);
              s.ok && s.w == end <==> Leaves(c, w, a, sender, cd, gasPermit, replies, end)
    {
      ReceiveExactly(c, w, a, sender, cd, gasPermit, replies, end);
    }
  }

  /** To an account, from anyone but an admin, with calldata that carries a request. */
  lemma RequestLeaves(c: Chain, w: World, a: Address, sender: Address, cd: seq<Byte>, gasPermit: bool,
      replies: seq<Reply>, args: Args, end: World)
    requires Separated(c) && a in w.accounts && !FromAdmin(w, a, sender) && Carries(c, cd, args)
    ensures Leaves(c, w, a, sender, cd, gasPermit, replies, end) <==> Commits(c, w, a, args, gasPermit, replies, end)
  {
    CarriesExactly(c, cd, args);
    RunExactly(c, w, a, sender, cd, gasPermit, replies, end);
    RequestExactly(c, w, a, args, gasPermit, replies, end);
  }

  // Targets.

  /** The items of a request. */
  function ItemsOf(args: Args): (xs: seq<SolveArgs>) {
    match args
    case FreshBackwards(_, _, _, _, _, items, _) => Plain(items)
    case Solve(items) => Plain(items)
    case SolveV2(x, _) => x.args
    case SolveV3(x, _) => x.args
    case _ => []
  }

  lemma {:induction false} LeadSucceeds(c: Chain, w: World, a: Address, xs: seq<SolveArgs>, permitOwner: Address,
      transferOwner: Address, replies: seq<Reply>, end: World)
    requires Lead(c, w, a, xs, permitOwner, transferOwner, replies, end)
    ensures |xs| <= |replies| && forall i :: 0 <= i < |xs| ==> replies[i].ok
    decreases xs
  {
    if xs != [] {
      var next := Acts(c, Reached(c, w, a, xs[0], permitOwner, transferOwner), replies[0].acts).w;
      LeadSucceeds(c, next, a, xs[1..], permitOwner, transferOwner, replies[1..], end);
      assert forall i :: 0 < i < |xs| ==> replies[i] == replies[1..][i - 1];
    }
  }

  lemma CommitsSucceed(c: Chain, w: World, a: Address, args: Args, gasPermit: bool, replies: seq<Reply>, end: World)
    requires ArgsFit(c.assets, args) && a in w.accounts && Commits(c, w, a, args, gasPermit, replies, end)
    ensures |ItemsOf(args)| <= |replies| && forall i :: 0 <= i < |ItemsOf(args)| ==> replies[i].ok
  {
    var owner := OwnerOf(w, a);
    match args
    case FreshBackwards(_, eoaAddr, _, _, _, items, _) =>
      if items != [] {
        var made, eoa := WithAccount(c, w, a, args), AddressOf(eoaAddr);
        LockedSucceeds(c, made, ProxyAt(c, a, eoa), Plain(items), eoa, eoa, replies, end);
      }
    case Solve(items) => LockedSucceeds(c, w, a, Plain(items), owner, owner, replies, end);
    case SolveV2(x, _) =>
      LockedSucceeds(c, w, a, x.args, AddressOf(x.permitOwner), AddressOf(x.transferOwner), replies, end);
    case SolveV3(x, _) =>
      var paid := Script(c.unlimited, w.ledger, GasOps(c, a, x, owner)).value;
      LeadSucceeds(c, w.(ledger := paid), a, x.args, owner, owner, replies, end);
    case _ =>
  }

  lemma LockedSucceeds(c: Chain, w: World, a: Address, xs: seq<SolveArgs>, permitOwner: Address,
      transferOwner: Address, replies: seq<Reply>, end: World)
    requires a in w.accounts && LeadLocked(c, w, a, xs, permitOwner, transferOwner, replies, end)
    ensures |xs| <= |replies| && forall i :: 0 <= i < |xs| ==> replies[i].ok
  {
    var mid :| Lead(c, SetLock(w, a, true), a, xs, permitOwner, transferOwner, replies, mid);
    LeadSucceeds(c, SetLock(w, a, true), a, xs, permitOwner, transferOwner, replies, mid);
  }

  /** A request of any kind that has items and is sent as bytes commits only if the target of every item
      succeeds: one target that fails leaves the world, with its nonces and ledgers, as it was. */
  lemma TargetsMustSucceed(c: Chain, w: World, a: Address, sender: Address, cd: seq<Byte>, gasPermit: bool,
      replies: seq<Reply>, args: Args, i: nat)
    requires Separated(c) && a in w.accounts && !FromAdmin(w, a, sender) && Carries(c, cd, args)
    requires i < |ItemsOf(args)| && (i < |replies| ==> !replies[i].ok)
    ensures !Receive(c, w, a, sender, cd, gasPermit, replies).ok
    ensures var s := Perform(c, w, Message(a, sender, cd, gasPermit, replies)); s.w == w && s.log == []
  {
    var r := Receive(c, w, a, sender, cd, gasPermit, replies);
    ReceiveExactly(c, w, a, sender, cd, gasPermit, replies, r.w);
    RequestLeaves(c, w, a, sender, cd, gasPermit, replies, args, r.w);
    if Commits(c, w, a, args, gasPermit, replies, r.w) {
      CommitsSucceed(c, w, a, args, gasPermit, replies, r.w);
      assert false;
    }
  }
}
