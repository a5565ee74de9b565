/** How calldata finds its handler: the proxy and the contract behind it read it alike. */
module Entrypoint {
  import opened Words
  import Evm
  import opened Accounts
  import opened Wire
  import opened Protocol
  import BeaconCode
  import Proxy = BeaconProxy

  lemma FirstByte(n: nat, a: Args)
    requires ArgsFit(n, a)
    ensures |EncodeArgs(n, a)| > 0 && EncodeArgs(n, a)[0] == TagOf(a) <= 10
  {
    ArgsFitTyped(n, a);
  }

  /** An encoded request, whatever follows it, is read back as that request, and the proxy sends it to
      the account's own code, never to the factory's. */
  lemma RequestsArrive(c: Chain, a: Args, tail: seq<Byte>)
    requires ArgsFit(c.assets, a)
    ensures var cd := EncodeArgs(c.assets, a) + tail;
            RouteOf(c, cd) == Request(a) && !Proxy.Migrates(cd)
  {
    var cd := EncodeArgs(c.assets, a) + tail;
    FirstByte(c.assets, a);
    DecodeEncodeArgs(c.assets, a, tail);
    assert cd[0] == TagOf(a);
    assert |cd| >= 4 ==> cd[..4][0] == cd[0];
    assert Proxy.SEL_MIGRATE[0] == 0x8f;
  }

  /** The contract migrates on exactly the calldata that the proxy sends to the factory's code and
      that holds all four words; on shorter calldata that the proxy sends there it fails, and it never
      takes such calldata for a request. */
  lemma RoutesAgree(c: Chain, cd: seq<Byte>)
    ensures RouteOf(c, cd).Migration? <==> Proxy.Migrates(cd) && |cd| >= 132
    ensures Proxy.Migrates(cd) && |cd| < 132 ==> RouteOf(c, cd).Malformed?
  {
    if Proxy.Migrates(cd) && |cd| == 4 && DecodeArgs(c.assets, cd).Parsed? {
      var a := DecodeArgs(c.assets, cd).value;
      assert cd[0] == 0x8f;
      EncodeDecodeArgs(c.assets, cd);
      FirstByte(c.assets, a);
      assert false;
    }
  }

  /** The byte code of the proxy and the contract behind it agree on every calldata: what the contract takes
      for a migration, and of the rest only calldata it refuses, the proxy delegates to the code that the
      factory names, and everything else to the code in its own slot. */
  lemma ProxyAgrees(c: Chain, factory: Address, env: Evm.Env, store: Evm.Storage)
    ensures var ask := Proxy.AskFactory(factory);
            var named := Proxy.Delegates(env, store, Proxy.FirstWord(env.answer(ask, store, []).data), [ask]);
            var own := Proxy.Delegates(env, store, Evm.Load(store, SLOT_IMPL), []);
            Evm.Final(BeaconCode.Beacon(factory), env, Evm.Start(store)) == Some(
              match RouteOf(c, env.calldata)
              case Migration(_, _, _, _) => named
              case Malformed => if Proxy.Migrates(env.calldata) then named else own
              case _ => own)
    ensures RouteOf(c, env.calldata).Migration? <==> Proxy.Migrates(env.calldata) && |env.calldata| >= 132
  {
    Proxy.BeaconRefines(factory, env, store);
    RoutesAgree(c, env.calldata);
  }

  /** The calldata of a migration reads back as the words it was made from. */
  lemma MigrationsArrive(c: Chain, key: Word, owner: Word, impl: Word, authority: Word, tail: seq<Byte>)
    ensures var cd := MigrateCd(key, owner, impl, authority) + tail;
            RouteOf(c, cd) == Migration(key, owner, impl, authority) && Proxy.Migrates(cd)
  {
    Widths();
    NatOfBytesOf(key, 32);
    NatOfBytesOf(owner, 32);
    NatOfBytesOf(impl, 32);
    NatOfBytesOf(authority, 32);
    Pieces(Proxy.SEL_MIGRATE, BytesOf(key, 32), BytesOf(owner, 32), BytesOf(impl, 32), BytesOf(authority, 32), tail);
  }

  /** The calldata begins with the encoding of the request. */
  predicate Carries(c: Chain, cd: seq<Byte>, args: Args) {
    ArgsFit(c.assets, args) && EncodeArgs(c.assets, args) <= cd
  }

  lemma CarriesExactly(c: Chain, cd: seq<Byte>, args: Args)
    ensures RouteOf(c, cd) == Request(args) <==> Carries(c, cd, args)
  {
    if Carries(c, cd, args) {
      var head := EncodeArgs(c.assets, args);
      assert cd == head + cd[|head|..];
      RequestsArrive(c, args, cd[|head|..]);
    }
    if RouteOf(c, cd) == Request(args) {
      EncodeDecodeArgs(c.assets, cd);
    }
  }

  lemma MigratesExactly(c: Chain, cd: seq<Byte>, key: Word, owner: Word, impl: Word, authority: Word)
    ensures RouteOf(c, cd) == Migration(key, owner, impl, authority) <==> MigrateCd(key, owner, impl, authority) <= cd
  {
    var head := MigrateCd(key, owner, impl, authority);
    if head <= cd {
      assert cd == head + cd[|head|..];
      MigrationsArrive(c, key, owner, impl, authority, cd[|head|..]);
    }
    if RouteOf(c, cd) == Migration(key, owner, impl, authority) {
      MigrationRead(c, cd);
    }
  }

  lemma MigrationRead(c: Chain, cd: seq<Byte>)
    requires RouteOf(c, cd).Migration?
    ensures var r := RouteOf(c, cd); MigrateCd(r.key, r.owner, r.impl, r.authority) <= cd
  {
    FourWords(cd);
  }

  lemma FourWords(cd: seq<Byte>)
    requires |cd| >= 132 && cd[..4] == Proxy.SEL_MIGRATE
    ensures MigrateCd(WordOf(cd[4..36]), WordOf(cd[36..68]), WordOf(cd[68..100]), WordOf(cd[100..132])) <= cd
  {
    BytesOfNatOf(cd[4..36]);
    BytesOfNatOf(cd[36..68]);
    BytesOfNatOf(cd[68..100]);
    BytesOfNatOf(cd[100..132]);
    Whole(cd);
  }

  lemma Whole(cd: seq<Byte>)
    requires |cd| >= 132
    ensures cd[..4] + cd[4..36] + cd[36..68] + cd[68..100] + cd[100..132] == cd[..132]
  {
  }

  lemma Pieces(sel: seq<Byte>, p: seq<Byte>, q: seq<Byte>, r: seq<Byte>, s: seq<Byte>, tail: seq<Byte>)
    requires |sel| == 4 && |p| == |q| == |r| == |s| == 32
    ensures var cd := sel + p + q + r + s + tail;
            cd[..4] == sel && cd[4..36] == p && cd[36..68] == q && cd[68..100] == r && cd[100..132] == s
  {
  }

  /** The batch that comes with a new account reaches it unchanged. */
  lemma BatchArrives(c: Chain, items: seq<SolveArgsSigArgs>)
    requires ItemsFit(c.assets, items)
    ensures Attached(c, items) == Request(Solve(items))
  {
    RequestsArrive(c, Solve(items), []);
    assert EncodeArgs(c.assets, Solve(items)) + [] == EncodeArgs(c.assets, Solve(items));
  }

  /** Is the message one that the upgradeable proxy keeps to itself? */
  predicate FromAdmin(w: World, a: Address, sender: Address) {
    a in w.accounts && w.accounts[a].upgradeable && AddressIn(Evm.Load(Store(w, a), SLOT_ADMIN)) == sender
  }

  lemma PerformRequest(c: Chain, w: World, a: Address, sender: Address, cd: seq<Byte>, gasPermit: bool,
        replies: seq<Reply>, args: Args)
    requires a in w.accounts && !FromAdmin(w, a, sender) && RouteOf(c, cd) == Request(args)
    ensures Perform(c, w, Message(a, sender, cd, gasPermit, replies)) == Try(Settle(w, Handle(c, w, a, args, gasPermit, replies)))
  {
    assert Run(c, w, a, sender, cd, gasPermit, replies) == Handle(c, w, a, args, gasPermit, replies);
    assert Receive(c, w, a, sender, cd, gasPermit, replies) == Run(c, w, a, sender, cd, gasPermit, replies);
  }

  /** What a request for a new account does: it creates the account, and then the batch that came
      with it runs on that account. */
  ghost predicate FreshOutcome(c: Chain, w: World, factory: Address, args: Args, gasPermit: bool, replies: seq<Reply>,
        s: Step)
    requires args.FreshBackwards?
  {
    var x := ConsentOf(args);
    var made := Create(c, w, factory, x);
    var solved := Handle(c, made.w, ProxyAt(c, factory, x.eoa), Solve(args.solveArgs), gasPermit, replies);
    && made.ok
    && made.log == [Created(factory, x)]
    && (if args.solveArgs == [] then s.w == made.w && s.log == made.log
        else solved.ok && s.w == solved.w && s.log == made.log + solved.log)
  }

  lemma AttachIsSolve(c: Chain, w: World, a: Address, items: seq<SolveArgsSigArgs>, gasPermit: bool,
        replies: seq<Reply>)
    requires Attached(c, items) == Request(Solve(items))
    ensures Attach(c, w, a, items, replies) == Handle(c, w, a, Solve(items), gasPermit, replies)
  {
  }

  lemma CreateLog(c: Chain, w: World, factory: Address, x: Consent)
    ensures Create(c, w, factory, x).ok ==> Create(c, w, factory, x).log == [Created(factory, x)]
  {
  }

  lemma FreshCases(c: Chain, w: World, factory: Address, args: Args, gasPermit: bool, replies: seq<Reply>)
    requires args.FreshBackwards? && Attached(c, args.solveArgs) == Request(Solve(args.solveArgs))
    requires Fresh(c, w, factory, args, replies).ok
    ensures FreshOutcome(c, w, factory, args, gasPermit, replies, Fresh(c, w, factory, args, replies))
  {
    var x := ConsentOf(args);
    CreateLog(c, w, factory, x);
    AttachIsSolve(c, Create(c, w, factory, x).w, ProxyAt(c, factory, x.eoa), args.solveArgs, gasPermit, replies);
  }

  lemma FreshFits(c: Chain, cd: seq<Byte>, args: Args)
    requires RouteOf(c, cd) == Request(args) && args.FreshBackwards?
    ensures Attached(c, args.solveArgs) == Request(Solve(args.solveArgs))
  {
    EncodeDecodeArgs(c.assets, cd);
    BatchArrives(c, args.solveArgs);
  }

  /** A request for a new account commits with everything it carries or leaves nothing: a failing
      batch leaves no account behind. */
  lemma FreshAllOrNothing(c: Chain, w: World, factory: Address, sender: Address, cd: seq<Byte>, gasPermit: bool,
        replies: seq<Reply>, args: Args)
    requires factory in w.accounts && !FromAdmin(w, factory, sender)
    requires RouteOf(c, cd) == Request(args) && args.FreshBackwards?
    ensures var s := Perform(c, w, Message(factory, sender, cd, gasPermit, replies));
            (s.w == w && s.log == []) || FreshOutcome(c, w, factory, args, gasPermit, replies, s)
  {
    FreshFits(c, cd, args);
    PerformRequest(c, w, factory, sender, cd, gasPermit, replies, args);
    FreshHandled(c, w, factory, args, gasPermit, replies);
  }

  lemma FreshHandled(c: Chain, w: World, factory: Address, args: Args, gasPermit: bool, replies: seq<Reply>)
    requires args.FreshBackwards? && Attached(c, args.solveArgs) == Request(Solve(args.solveArgs))
    ensures var s := Try(Settle(w, Handle(c, w, factory, args, gasPermit, replies)));
            (s.w == w && s.log == []) || FreshOutcome(c, w, factory, args, gasPermit, replies, s)
  {
    if Fresh(c, w, factory, args, replies).ok {
      FreshCases(c, w, factory, args, gasPermit, replies);
    }
  }
}
