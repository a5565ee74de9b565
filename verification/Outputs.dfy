/** What the account code writes back, and who reads it. */
module Outputs {
  import opened Words
  import Evm
  import opened Accounts
  import opened Wire
  import opened Protocol
  import opened ProtocolRuns
  import opened AccountHistory
  import BeaconCode
  import Proxy = BeaconProxy

  /** What a message that goes well writes back. */
  function Output(c: Chain, w: World, a: Address, cd: seq<Byte>): (b: seq<Byte>) {
    match RouteOf(c, cd)
    case Implementation => BytesOf(ImplOf(w, a), 32)
    case Request(Version) => BytesOf(Evm.Load(Store(w, a), SLOT_VERSION), 32)
    case Request(Authority) => BytesOf(Evm.Load(Store(w, a), SLOT_AUTHORITY), 32)
    case Request(Owner) => BytesOf(Evm.Load(Store(w, a), SLOT_OWNER), 32)
    case Request(Ed25519Key) => BytesOf(KeyOf(c, w, a), 32)
    case Request(FreshBackwards(_, eoa, _, _, _, _, _)) => BytesOf(ProxyAt(c, a, AddressOf(eoa)), 32)
    case _ => []
  }

  /** The byte code of a proxy, asked to migrate, runs the code that is installed in its factory: what the
      factory writes back for empty calldata is what the proxy delegates to, whatever is in its own slot. */
  lemma ProxyFollowsFactory(c: Chain, w: World, factory: Address, env: Evm.Env, store: Evm.Storage)
    requires Proxy.Migrates(env.calldata)
    requires env.answer(Proxy.AskFactory(factory), store, []).data == Output(c, w, factory, [])
    ensures Evm.Final(BeaconCode.Beacon(factory), env, Evm.Start(store)) ==
            Some(Proxy.Delegates(env, store, ImplOf(w, factory), [Proxy.AskFactory(factory)]))
  {
    Proxy.BeaconRefines(factory, env, store);
    Widths();
    NatOfBytesOf(ImplOf(w, factory), 32);
    var data := Output(c, w, factory, []);
    assert Slice(data, 0, 32) == data;
  }

  predicate ReadsConfiguration(args: Args) {
    args.Version? || args.Authority? || args.Owner? || args.Ed25519Key?
  }

  lemma SameReads(c: Chain, w: World, u: World, a: Address, cd: seq<Byte>)
    requires RouteOf(c, cd).Request? && ReadsConfiguration(RouteOf(c, cd).args) && ConfigOf(c, w, a) == ConfigOf(c, u, a)
    ensures Output(c, w, a, cd) == Output(c, u, a, cd)
  {
  }

  /** What an account at version 2 says of itself it says for ever, over every run. */
  lemma ReadsNeverChange(c: Chain, w: World, acts: seq<Act>, a: Address, cd: seq<Byte>)
    requires Separated(c) && SetUp(w, a) && RouteOf(c, cd).Request? && ReadsConfiguration(RouteOf(c, cd).args)
    ensures Output(c, Acts(c, w, acts).w, a, cd) == Output(c, w, a, cd)
  {
    ActsSound(c, w, acts);
    ConfigLog(c, w, Acts(c, w, acts).log, a);
    SameReads(c, w, Acts(c, w, acts).w, a, cd);
  }
}
