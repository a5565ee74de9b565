/** What SafetyRouter does, and what the client that frames requests for it gets. */
module SafetyRouter {
  import opened Words
  import opened Evm
  import opened Huff
  import opened Relay
  import opened RouterCode

  const EXPECTED: Word := 0xc93405af7d5432a1465160ee7d0201b7f335f44af433e3ed36615e6d956022bc
  const BAD_HASH: seq<Byte> := BytesOf(0x27e63c44, 4)

  ghost predicate Here(p: Program, at: nat, c: Chart, link: Link, code: seq<Byte>) {
    Sited(p, at, c, link, code) && link.labels == LABELS
  }

  lemma RunLoading(c: Chart, link: Link, code: seq<Byte>, env: Env, s: State)
    requires Here(LOADING, s.pc, c, link, code) && s.pc == 0
    ensures var w := WordAt(env.calldata, 0);
            Final(code, env, s) ==
            Final(code, env, s.(pc := 4, stack := On(env.codeHash(w % ADDRESS_LIMIT), On(w, s.stack))))
  {
    RunPlaced(c, LOADING, link, code, env, s);
  }

  lemma RunChecking(c: Chart, link: Link, code: seq<Byte>, env: Env, s: State, h: Word, b: Stack)
    requires Here(CHECKING, s.pc, c, link, code) && s.pc == 4 && s.stack == On(h, b) && 76 in c.targets
    ensures Final(code, env, s) == Final(code, env, s.(pc := if h == EXPECTED then 43 else 76, stack := b))
  {
    RunPlaced(c, CHECKING, link, code, env, s);
  }

  lemma RunCopying(c: Chart, link: Link, code: seq<Byte>, env: Env, s: State)
    requires Here(COPYING, s.pc, c, link, code) && s.pc == 43
    ensures var n := |env.calldata|;
            Final(code, env, s) ==
            if n < 32 then Some(Broken)
            else Final(code, env, s.(pc := 51, mem := Wrote(s.mem, 0, Slice(env.calldata, 32, n - 32))))
  {
    RunPlaced(c, COPYING, link, code, env, s);
  }

  lemma RunForwarding(c: Chart, link: Link, code: seq<Byte>, env: Env, s: State, to: Word)
    requires Here(FORWARDING, s.pc, c, link, code) && Here(CALLING, 57, c, link, code) && s.pc == 51 && s.stack == On(to, Empty) && |env.calldata| >= 32
    ensures var req := CallRecord(ByCall, to % ADDRESS_LIMIT, 0, Read(s.mem, 0, |env.calldata| - 32));
            var a := env.answer(req, s.store, s.calls);
            Final(code, env, s) ==
            Final(code, env, s.(pc := 62, stack := On(Flag(a.ok), On(to, Empty)), store := if a.ok then a.store else s.store,
                                ret := a.data, calls := s.calls + [req]))
  {
    RunPlaced(c, FORWARDING, link, code, env, s);
    var n := |env.calldata| - 32;
    RunCalling(c, link, code, env, s.(pc := 57, stack := On(n, On(0, On(0, s.stack)))), to, n);
  }

  lemma RunCalling(c: Chart, link: Link, code: seq<Byte>, env: Env, s: State, to: Word, n: Word)
    requires Here(CALLING, s.pc, c, link, code) && s.pc == 57 && s.stack == On(n, On(0, On(0, On(to, Empty)))) && n < DATA_LIMIT
    ensures var req := CallRecord(ByCall, to % ADDRESS_LIMIT, 0, Read(s.mem, 0, n));
            var a := env.answer(req, s.store, s.calls);
            Final(code, env, s) ==
            Final(code, env, s.(pc := 62, stack := On(Flag(a.ok), On(to, Empty)), store := if a.ok then a.store else s.store,
                                ret := a.data, calls := s.calls + [req]))
  {
    RunPlaced(c, CALLING, link, code, env, s);
  }

  lemma RunReverting(c: Chart, link: Link, code: seq<Byte>, env: Env, s: State)
    requires Here(REVERTING, s.pc, c, link, code) && s.pc == 84
    ensures Final(code, env, s) == Some(Reverted(Read(s.mem, 0x1c, 4), s.calls))
  {
    RunPlaced(c, REVERTING, link, code, env, s);
  }

  lemma RunFailing(c: Chart, link: Link, code: seq<Byte>, env: Env, s: State)
    requires Here(FAILING, s.pc, c, link, code) && Here(REVERTING, 84, c, link, code) && s.pc == 76
    ensures Final(code, env, s) == Some(Reverted(BAD_HASH, s.calls))
  {
    RunPlaced(c, FAILING, link, code, env, s);
    RunReverting(c, link, code, env, s.(pc := 84, mem := Wrote(s.mem, 0, BytesOf(0x27e63c44, 32))));
    BytesOfSplit(0x27e63c44, 28, 4);
    assert Read(Wrote(s.mem, 0, BytesOf(0x27e63c44, 32)), 0x1c, 4) == BAD_HASH;
  }

  /** The account a request is for: the low 20 bytes of its first word. */
  function Addressee(cd: Data): (a: Address) {
    WordAt(cd, 0) % ADDRESS_LIMIT
  }

  /** The whole behaviour of the router. */
  function RouterSpec(env: Env, store: Storage): (h: Halt) {
    var to := Addressee(env.calldata);
    if env.codeHash(to) != EXPECTED then Reverted(BAD_HASH, [])
    else if |env.calldata| < 32 then Broken
    else
      var req := CallRecord(ByCall, to, 0, env.calldata[32..]);
      var a := env.answer(req, store, []);
      if a.ok then Returned(a.data, a.store, [req]) else Reverted(a.data, [req])
  }

  lemma RunForward(c: Chart, link: Link, code: seq<Byte>, env: Env, store: Storage, to: Word)
    requires Ready(c, link, code) && |env.calldata| >= 32
    ensures var s := Start(store).(pc := 43, stack := On(to, Empty));
            var req := CallRecord(ByCall, to % ADDRESS_LIMIT, 0, env.calldata[32..]);
            var a := env.answer(req, store, []);
            Final(code, env, s) == Some(if a.ok then Returned(a.data, a.store, [req]) else Reverted(a.data, [req]))
  {
    var n := |env.calldata|;
    var s := Start(store).(pc := 43, stack := On(to, Empty));
    RunCopying(c, link, code, env, s);
    var cd := Slice(env.calldata, 32, n - 32);
    assert cd == env.calldata[32..];
    var m := Wrote(Zeroed, 0, cd);
    RunForwarding(c, link, code, env, s.(pc := 51, mem := m), to);
    ReadBack(Zeroed, cd);
    var req := CallRecord(ByCall, to % ADDRESS_LIMIT, 0, cd);
    var a := env.answer(req, store, []);
    assert [] + [req] == [req];
    RunRelay(c, link, code, env, State(62, On(Flag(a.ok), On(to, Empty)), m, if a.ok then a.store else store, a.data, [req]));
  }

  /** The assembled router does what the specification says. */
  lemma RouterRefines(env: Env, store: Storage)
    ensures Final(ROUTER, env, Start(store)) == Some(RouterSpec(env, store))
  {
    var c := RouterLoads();
    RouterRuns(c, Link(LABELS, []), ROUTER, env, store);
  }

  lemma RouterRuns(c: Chart, link: Link, code: seq<Byte>, env: Env, store: Storage)
    requires Ready(c, link, code)
    ensures Final(code, env, Start(store)) == Some(RouterSpec(env, store))
  {
    var w := WordAt(env.calldata, 0);
    var h := env.codeHash(w % ADDRESS_LIMIT);
    RunLoading(c, link, code, env, Start(store));
    RunChecking(c, link, code, env, Start(store).(pc := 4, stack := On(h, On(w, Empty))), h, On(w, Empty));
    var s := Start(store).(stack := On(w, Empty));
    if h != EXPECTED {
      RunFailing(c, link, code, env, s.(pc := 76));
    } else if |env.calldata| < 32 {
      RunCopying(c, link, code, env, s.(pc := 43));
    } else {
      RunForward(c, link, code, env, store, w);
    }
  }

  /** How the client addresses a request: through the router it goes in front of the request as a
      32-byte word. */
  method Frame(useSafetyRouter: bool, router: Address, to: Address, payload: seq<Byte>)
    returns (target: Address, data: seq<Byte>)
    ensures useSafetyRouter ==> target == router && |data| == 32 + |payload|
    ensures useSafetyRouter ==> NatOf(data[..32]) == to && data[32..] == payload
    ensures !useSafetyRouter ==> target == to && data == payload
  {
    if useSafetyRouter {
      target := router;
      var padded := BytesOf(to, 32);
      Widths();
      NatOfBytesOf(to, 32);
      data := padded + payload;
      assert data[..32] == padded;
    } else {
      target := to;
      data := payload;
    }
  }

  /** Whatever the client frames for an account reaches it byte for byte when the account runs the
      expected code, with success and return data unchanged; otherwise no call is made at all. */
  lemma RouterTransparent(env: Env, store: Storage, to: Address, payload: seq<Byte>)
    requires |env.calldata| >= 32 && NatOf(env.calldata[..32]) == to && env.calldata[32..] == payload
    ensures var req := CallRecord(ByCall, to, 0, payload);
            var a := env.answer(req, store, []);
            Final(ROUTER, env, Start(store)) == Some(
              if env.codeHash(to) != EXPECTED then Reverted(BAD_HASH, [])
              else if a.ok then Returned(a.data, a.store, [req])
              else Reverted(a.data, [req]))
  {
    RouterRefines(env, store);
    assert Slice(env.calldata, 0, 32) == env.calldata[..32];
  }
}
