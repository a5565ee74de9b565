/** Deployment: the creation code that LiteFactory and the account factory send leaves exactly the
    code whose behaviour is proved elsewhere. */
module Deployment {
  import opened Words
  import opened Evm
  import opened Huff
  import LiteCode
  import BeaconCode

  // 0x01 0x0 sstore
  const ENABLING: Program :=
    Then(Num(1, 0x01), Then(Num(0, 0), Then(Op(0x55), Done)))

  // 0xec dup1 0x0d
  const LITE_SIZES: Program :=
    Then(Num(1, 0xec), Then(Copy(0), Then(Num(1, 0x0d), Done)))

  // 0x73 dup1 0x09
  const BEACON_SIZES: Program :=
    Then(Num(1, 0x73), Then(Copy(0), Then(Num(1, 0x09), Done)))

  // returndatasize codecopy returndatasize return
  const RETURNING: Program :=
    Then(Op(0x3d), Then(Op(0x39), Then(Op(0x3d), Then(Op(0xf3), Done))))

  /** The bytes that LiteFactory hands to CREATE2. */
  function LiteFactoryCode(owner: Address, operator: Word): (code: seq<Byte>) {
    BytesOf(0x60015f55, 4) + (BytesOf(0x60ec80600d, 5) + (BytesOf(0x3d393df3, 4) + LiteCode.Lite(owner, operator)))
  }

  /** The bytes whose hash goes into the address of an account. */
  function BeaconFactoryCode(factory: Address): (code: seq<Byte>) {
    BytesOf(0x6073806009, 5) + (BytesOf(0x3d393df3, 4) + BeaconCode.Beacon(factory))
  }

  lemma LiteSize(owner: Address, operator: Word)
    ensures |LiteCode.Lite(owner, operator)| == 0xec
  {
    var forward := LiteCode.ForwardPart([]);
    var verify := LiteCode.VerifyPart(operator, forward);
    assert |forward| == 30;
    assert |verify| == 146;
    assert |LiteCode.ClaimPart(verify)| == 181;
  }

  lemma BeaconSize(factory: Address)
    ensures |BeaconCode.Beacon(factory)| == 0x73
  {
    assert |BeaconCode.DelegatePart([])| == 26;
  }

  /** Creation enables the account and leaves the account code. */
  lemma LiteDeploys(owner: Address, operator: Word, env: Env, store: Storage)
    ensures Final(LiteFactoryCode(owner, operator), env, Start(store)) ==
            Some(Returned(LiteCode.Lite(owner, operator), store[0 := 1], []))
  {
    var lite := LiteCode.Lite(owner, operator);
    LiteSize(owner, operator);
    InitLite(LiteFactoryCode(owner, operator), env, Start(store), lite);
  }

  lemma EnterEnabling(c: Chart, code: seq<Byte>, rest: seq<Byte>)
    requires Charts(c, Link([], []), code) && Holds(code, 0, BytesOf(0x60015f55, 4) + rest)
    ensures (ENABLING, 0) in c.stretches && Lands(After(code), 0, 4) && Holds(code, 4, rest)
  {
    EnterHex(c, ENABLING, 0, 4, 0x60015f55, rest, Link([], []), code);
  }

  lemma EnterLiteSizes(c: Chart, code: seq<Byte>, rest: seq<Byte>)
    requires Charts(c, Link([], []), code) && Lands(After(code), 0, 4) && Holds(code, 4, BytesOf(0x60ec80600d, 5) + rest)
    ensures (LITE_SIZES, 4) in c.stretches && Lands(After(code), 0, 9) && Holds(code, 9, rest)
  {
    EnterHex(c, LITE_SIZES, 4, 9, 0x60ec80600d, rest, Link([], []), code);
  }

  lemma EnterReturning(c: Chart, at: nat, code: seq<Byte>, rest: seq<Byte>)
    requires Charts(c, Link([], []), code) && Lands(After(code), 0, at) && Holds(code, at, BytesOf(0x3d393df3, 4) + rest)
    ensures (RETURNING, at) in c.stretches
  {
    EnterHex(c, RETURNING, at, at + 4, 0x3d393df3, rest, Link([], []), code);
  }

  lemma RunEnabling(c: Chart, code: seq<Byte>, env: Env, s: State)
    requires Charts(c, Link([], []), code) && (ENABLING, 0) in c.stretches && s.pc == 0
    ensures Final(code, env, s) == Final(code, env, s.(pc := 4, store := s.store[0 := 1]))
  {
    RunPlaced(c, ENABLING, Link([], []), code, env, s);
  }

  lemma RunLiteSizes(c: Chart, code: seq<Byte>, env: Env, s: State)
    requires Charts(c, Link([], []), code) && (LITE_SIZES, 4) in c.stretches && s.pc == 4
    ensures Final(code, env, s) == Final(code, env, s.(pc := 9, stack := On(13, On(0xec, On(0xec, s.stack)))))
  {
    RunPlaced(c, LITE_SIZES, Link([], []), code, env, s);
  }

  lemma RunReturning(c: Chart, code: seq<Byte>, env: Env, s: State, from: Word, n: Word, b: Stack)
    requires Charts(c, Link([], []), code) && (RETURNING, s.pc) in c.stretches && s.ret == []
    requires s.stack == On(from, On(n, On(n, b))) && n < DATA_LIMIT
    ensures Final(code, env, s) == Some(Returned(Read(Wrote(s.mem, 0, Slice(code, from, n)), 0, n), s.store, s.calls))
  {
    RunPlaced(c, RETURNING, Link([], []), code, env, s);
  }

  /** Returning the last part of the code. */
  lemma ReturnRest(c: Chart, code: seq<Byte>, env: Env, s: State, head: seq<Byte>, rest: seq<Byte>, b: Stack)
    requires Charts(c, Link([], []), code) && (RETURNING, s.pc) in c.stretches && s.ret == []
    requires code == head + rest && |head| < WORD_LIMIT && |rest| < DATA_LIMIT
    requires s.stack == On(|head|, On(|rest|, On(|rest|, b)))
    ensures Final(code, env, s) == Some(Returned(rest, s.store, s.calls))
  {
    RunReturning(c, code, env, s, |head|, |rest|, b);
    assert Slice(code, |head|, |rest|) == rest;
    assert Read(Wrote(s.mem, 0, rest), 0, |rest|) == rest;
  }

  lemma InitLite(code: seq<Byte>, env: Env, s: State, rest: seq<Byte>)
    requires code == BytesOf(0x60015f55, 4) + (BytesOf(0x60ec80600d, 5) + (BytesOf(0x3d393df3, 4) + rest)) && |rest| == 0xec
    requires s.pc == 0 && s.ret == []
    ensures Final(code, env, s) == Some(Returned(rest, s.store[0 := 1], s.calls))
  {
    var c := DrawChart(Link([], []), code);
    EnterEnabling(c, code, BytesOf(0x60ec80600d, 5) + (BytesOf(0x3d393df3, 4) + rest));
    EnterLiteSizes(c, code, BytesOf(0x3d393df3, 4) + rest);
    EnterReturning(c, 9, code, rest);
    RunEnabling(c, code, env, s);
    var t := s.(pc := 4, store := s.store[0 := 1]);
    RunLiteSizes(c, code, env, t);
    var head := BytesOf(0x60015f55, 4) + BytesOf(0x60ec80600d, 5) + BytesOf(0x3d393df3, 4);
    ReturnRest(c, code, env, t.(pc := 9, stack := On(13, On(0xec, On(0xec, s.stack)))), head, rest, s.stack);
  }

  /** Creation writes nothing and leaves the proxy code. */
  lemma BeaconDeploys(factory: Address, env: Env, store: Storage)
    ensures Final(BeaconFactoryCode(factory), env, Start(store)) == Some(Returned(BeaconCode.Beacon(factory), store, []))
  {
    BeaconSize(factory);
    InitBeacon(BeaconFactoryCode(factory), env, Start(store), BeaconCode.Beacon(factory));
  }

  lemma EnterBeaconSizes(c: Chart, code: seq<Byte>, rest: seq<Byte>)
    requires Charts(c, Link([], []), code) && Holds(code, 0, BytesOf(0x6073806009, 5) + rest)
    ensures (BEACON_SIZES, 0) in c.stretches && Lands(After(code), 0, 5) && Holds(code, 5, rest)
  {
    EnterHex(c, BEACON_SIZES, 0, 5, 0x6073806009, rest, Link([], []), code);
  }

  lemma RunBeaconSizes(c: Chart, code: seq<Byte>, env: Env, s: State)
    requires Charts(c, Link([], []), code) && (BEACON_SIZES, 0) in c.stretches && s.pc == 0
    ensures Final(code, env, s) == Final(code, env, s.(pc := 5, stack := On(9, On(0x73, On(0x73, s.stack)))))
  {
    RunPlaced(c, BEACON_SIZES, Link([], []), code, env, s);
  }

  lemma InitBeacon(code: seq<Byte>, env: Env, s: State, rest: seq<Byte>)
    requires code == BytesOf(0x6073806009, 5) + (BytesOf(0x3d393df3, 4) + rest) && |rest| == 0x73
    requires s.pc == 0 && s.ret == []
    ensures Final(code, env, s) == Some(Returned(rest, s.store, s.calls))
  {
    var c := DrawChart(Link([], []), code);
    EnterBeaconSizes(c, code, BytesOf(0x3d393df3, 4) + rest);
    EnterReturning(c, 5, code, rest);
    RunBeaconSizes(c, code, env, s);
    var head := BytesOf(0x6073806009, 5) + BytesOf(0x3d393df3, 4);
    ReturnRest(c, code, env, s.(pc := 5, stack := On(9, On(0x73, On(0x73, s.stack)))), head, rest, s.stack);
  }
}
