/** What the beacon proxy does with every calldata, storage and answer. */
module BeaconProxy {
  import opened Words
  import opened Evm
  import opened Huff
  import opened Relay
  import opened BeaconCode

  const SLOT_IMPL: Word := 0x360894a13ba1a3210667c828492db98dca3e2076cc3735a920a3ca505d382bbc
  const SEL_MIGRATE: seq<Byte> := [0x8f, 0xd3, 0xab, 0x80]

  ghost predicate Here(p: Program, at: nat, c: Chart, link: Link, code: seq<Byte>) {
    Sited(p, at, c, link, code) && link.labels == LABELS
  }

  lemma RunRouting(c: Chart, link: Link, code: seq<Byte>, env: Env, s: State)
    requires Here(ROUTING, s.pc, c, link, code) && Here(TURNING, 11, c, link, code) && s.pc == 0 && s.stack == Empty && 0x13 in c.targets && 0x36 in c.targets
    ensures Final(code, env, s) ==
            Final(code, env, s.(pc := if ShiftRight(0xe0, WordAt(env.calldata, 0)) == 0x8fd3ab80 then 0x13 else 0x36))
  {
    RunPlaced(c, ROUTING, link, code, env, s);
    var migrating := ShiftRight(0xe0, WordAt(env.calldata, 0)) == 0x8fd3ab80;
    RunTurning(c, link, code, env, s.(pc := 11, stack := On(Flag(migrating), Empty)), migrating);
  }

  lemma RunTurning(c: Chart, link: Link, code: seq<Byte>, env: Env, s: State, migrating: bool)
    requires Here(TURNING, s.pc, c, link, code) && s.pc == 11 && s.stack == On(Flag(migrating), Empty)
    requires 0x13 in c.targets && 0x36 in c.targets
    ensures Final(code, env, s) == Final(code, env, s.(pc := if migrating then 0x13 else 0x36, stack := Empty))
  {
    RunPlaced(c, TURNING, link, code, env, s);
  }

  lemma RunAsking(c: Chart, link: Link, code: seq<Byte>, env: Env, s: State)
    requires Here(ASKING, s.pc, c, link, code) && s.pc == 0x13
    ensures Final(code, env, s) == Final(code, env, s.(pc := 25, stack := On(0, On(0, On(0, On(0x20, s.stack))))))
  {
    RunPlaced(c, ASKING, link, code, env, s);
  }

  lemma RunFactory(c: Chart, link: Link, code: seq<Byte>, env: Env, s: State)
    requires Here(FACTORY, s.pc, c, link, code) && s.pc == 25
    ensures Final(code, env, s) == Final(code, env, s.(pc := 46, stack := On(At(link.args, 0), s.stack)))
  {
    RunPlaced(c, FACTORY, link, code, env, s);
  }

  lemma RunConsulting(c: Chart, link: Link, code: seq<Byte>, env: Env, s: State, to: Address, b: Stack)
    requires Here(CONSULTING, s.pc, c, link, code) && s.pc == 46
    requires s.stack == On(to, On(0, On(0, On(0, On(0x20, b)))))
    ensures var ask := CallRecord(ByStatic, to, 0, Read(s.mem, 0, 0));
            var a := env.answer(ask, s.store, s.calls);
            Final(code, env, s) ==
            Final(code, env, s.(pc := 48, stack := On(Flag(a.ok), b), mem := Landed(s.mem, 0, 0x20, a.data), ret := a.data,
                                calls := s.calls + [ask]))
  {
    RunPlaced(c, CONSULTING, link, code, env, s);
  }

  lemma RunReading(c: Chart, link: Link, code: seq<Byte>, env: Env, s: State)
    requires Here(READING, s.pc, c, link, code) && s.pc == 48 && 0x59 in c.targets
    ensures Final(code, env, s) == Final(code, env, s.(pc := 0x59, stack := On(WordIn(s.mem, 0), s.stack)))
  {
    RunPlaced(c, READING, link, code, env, s);
  }

  lemma RunLooking(c: Chart, link: Link, code: seq<Byte>, env: Env, s: State)
    requires Here(LOOKING, s.pc, c, link, code) && s.pc == 0x36
    ensures Final(code, env, s) == Final(code, env, s.(pc := 0x59, stack := On(Load(s.store, SLOT_IMPL), s.stack)))
  {
    RunPlaced(c, LOOKING, link, code, env, s);
  }

  lemma RunCopying(c: Chart, link: Link, code: seq<Byte>, env: Env, s: State)
    requires Here(COPYING, s.pc, c, link, code) && s.pc == 0x59
    ensures Final(code, env, s) == Final(code, env, s.(pc := 94, mem := Wrote(s.mem, 0, env.calldata)))
  {
    assert Slice(env.calldata, 0, |env.calldata|) == env.calldata;
    RunPlaced(c, COPYING, link, code, env, s);
  }

  lemma RunDelegating(c: Chart, link: Link, code: seq<Byte>, env: Env, s: State, to: Word, b: Stack)
    requires Here(DELEGATING, s.pc, c, link, code) && Here(PASSING, 98, c, link, code) && s.pc == 94 && s.stack == On(to, b)
    ensures var req := CallRecord(ByDelegate, to % ADDRESS_LIMIT, 0, Read(s.mem, 0, |env.calldata|));
            var a := env.answer(req, s.store, s.calls);
            Final(code, env, s) ==
            Final(code, env, s.(pc := 101, stack := On(Flag(a.ok), b), store := if a.ok then a.store else s.store,
                                ret := a.data, calls := s.calls + [req]))
  {
    RunPlaced(c, DELEGATING, link, code, env, s);
    RunPassing(c, link, code, env, s.(pc := 98, stack := On(0, On(0, On(|env.calldata|, On(0, On(to, b)))))), to, b);
  }

  lemma RunPassing(c: Chart, link: Link, code: seq<Byte>, env: Env, s: State, to: Word, b: Stack)
    requires Here(PASSING, s.pc, c, link, code) && s.pc == 98
    requires s.stack == On(0, On(0, On(|env.calldata|, On(0, On(to, b)))))
    ensures var req := CallRecord(ByDelegate, to % ADDRESS_LIMIT, 0, Read(s.mem, 0, |env.calldata|));
            var a := env.answer(req, s.store, s.calls);
            Final(code, env, s) ==
            Final(code, env, s.(pc := 101, stack := On(Flag(a.ok), b), store := if a.ok then a.store else s.store,
                                ret := a.data, calls := s.calls + [req]))
  {
    RunPlaced(c, PASSING, link, code, env, s);
  }

  // What the program is for.

  /** The calldata that the proxy treats as a migration. */
  predicate Migrates(cd: seq<Byte>) {
    |cd| >= 4 && cd[..4] == SEL_MIGRATE
  }

  /** The first word of an answer, with zeros for what is missing. */
  function FirstWord(d: seq<Byte>): (w: Word) {
    WordAt(d, 0)
  }

  function AskFactory(factory: Address): (r: CallRecord) {
    CallRecord(ByStatic, factory, 0, [])
  }

  /** Delegating `cd` to `to` after the requests `calls`, and passing back what that returns. */
  function Delegates(env: Env, store: Storage, to: Word, calls: seq<CallRecord>): (h: Halt) {
    var req := CallRecord(ByDelegate, to % ADDRESS_LIMIT, 0, env.calldata);
    var a := env.answer(req, store, calls);
    if a.ok then Returned(a.data, a.store, calls + [req]) else Reverted(a.data, calls + [req])
  }

  /** The whole behaviour of a proxy: migrations run the code the factory names, everything else the
      code in the proxy's own EIP-1967 slot. */
  function BeaconSpec(factory: Address, env: Env, store: Storage): (h: Halt) {
    if Migrates(env.calldata) then
      var ask := AskFactory(factory);
      Delegates(env, store, FirstWord(env.answer(ask, store, []).data), [ask])
    else Delegates(env, store, Load(store, SLOT_IMPL), [])
  }

  lemma SelectorNumber()
    ensures NatOf(SEL_MIGRATE) == 0x8fd3ab80
  {
    var s := SEL_MIGRATE;
    assert s[..3] == [0x8f, 0xd3, 0xab];
    assert s[..3][..2] == [0x8f, 0xd3];
    assert s[..3][..2][..1] == [0x8f];
    assert NatOf([0x8f]) == 0x8f;
    assert NatOf([0x8f, 0xd3]) == 0x8fd3;
    assert NatOf([0x8f, 0xd3, 0xab]) == 0x8fd3ab;
  }

  /** The comparison the proxy makes is the one on the first four bytes. */
  lemma SelectorWord(cd: Data)
    ensures ShiftRight(0xe0, WordAt(cd, 0)) == 0x8fd3ab80 <==> Migrates(cd)
  {
    var w := Slice(cd, 0, 32);
    HalveBytes(NatOf(w), 28);
    HighOfPrefix(w, 28);
    SelectorNumber();
    assert |cd| >= 4 ==> w[..4] == cd[..4];
    if NatOf(w[..4]) == NatOf(SEL_MIGRATE) {
      NatOfInjective(w[..4], SEL_MIGRATE);
      assert w[3] == w[..4][3] == 0x80;
    }
  }

  lemma AnswerWord(data: seq<Byte>)
    ensures WordIn(Landed(Zeroed, 0, 0x20, data), 0) == FirstWord(data)
  {
    var d := if |data| <= 32 then data else data[..32];
    var m := Wrote(Zeroed, 0, d);
    var r, e := Read(m, 0, 32), Slice(data, 0, 32);
    forall i | 0 <= i < 32 ensures r[i] == e[i] {
      assert ByteAt(m, i) == if i < |d| then d[i] else ByteAt(Zeroed, i);
    }
    assert r == e;
  }

  lemma RunDelegate(c: Chart, link: Link, code: seq<Byte>, env: Env, s: State, to: Word, b: Stack)
    requires Ready(c, link, code) && s.pc == 0x59 && s.stack == On(to, b)
    ensures Final(code, env, s) == Some(Delegates(env, s.store, to, s.calls))
  {
    RunCopying(c, link, code, env, s);
    var t := s.(pc := 94, mem := Wrote(s.mem, 0, env.calldata));
    ReadBack(s.mem, env.calldata);
    RunDelegating(c, link, code, env, t, to, b);
    var req := CallRecord(ByDelegate, to % ADDRESS_LIMIT, 0, env.calldata);
    var a := env.answer(req, s.store, s.calls);
    RunRelay(c, link, code, env, State(101, On(Flag(a.ok), b), t.mem, if a.ok then a.store else s.store, a.data, s.calls + [req]));
  }

  lemma RunMigrating(c: Chart, link: Link, code: seq<Byte>, env: Env, store: Storage, factory: Address)
    requires Ready(c, link, code) && At(link.args, 0) == factory
    ensures Final(code, env, Start(store).(pc := 0x13)) ==
            Some(Delegates(env, store, FirstWord(env.answer(AskFactory(factory), store, []).data), [AskFactory(factory)]))
  {
    var s := Start(store).(pc := 0x13);
    RunAsking(c, link, code, env, s);
    RunFactory(c, link, code, env, s.(pc := 25, stack := On(0, On(0, On(0, On(0x20, Empty))))));
    RunConsulting(c, link, code, env, s.(pc := 46, stack := On(factory, On(0, On(0, On(0, On(0x20, Empty)))))), factory, Empty);
    var ask := AskFactory(factory);
    assert Read(Zeroed, 0, 0) == [] && [] + [ask] == [ask];
    var a := env.answer(ask, store, []);
    AnswerWord(a.data);
    RunReading(c, link, code, env, State(48, On(Flag(a.ok), Empty), Landed(Zeroed, 0, 0x20, a.data), store, a.data, [ask]));
    RunDelegate(c, link, code, env,
                State(0x59, On(FirstWord(a.data), On(Flag(a.ok), Empty)), Landed(Zeroed, 0, 0x20, a.data), store, a.data, [ask]),
                FirstWord(a.data), On(Flag(a.ok), Empty));
  }

  /** The deployed proxy does what the specification says. */
  lemma BeaconRefines(factory: Address, env: Env, store: Storage)
    ensures Final(Beacon(factory), env, Start(store)) == Some(BeaconSpec(factory, env, store))
  {
    var c := BeaconLoads(factory);
    BeaconRuns(c, Link(LABELS, [factory]), Beacon(factory), factory, env, store);
  }

  lemma BeaconRuns(c: Chart, link: Link, code: seq<Byte>, factory: Address, env: Env, store: Storage)
    requires Ready(c, link, code) && At(link.args, 0) == factory
    ensures Final(code, env, Start(store)) == Some(BeaconSpec(factory, env, store))
  {
    RunRouting(c, link, code, env, Start(store));
    SelectorWord(env.calldata);
    if Migrates(env.calldata) {
      RunMigrating(c, link, code, env, store, factory);
    } else {
      RunLooking(c, link, code, env, Start(store).(pc := 0x36));
      RunDelegate(c, link, code, env, Start(store).(pc := 0x59, stack := On(Load(store, SLOT_IMPL), Empty)),
                  Load(store, SLOT_IMPL), Empty);
    }
  }
}
