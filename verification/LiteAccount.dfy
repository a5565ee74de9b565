/** What the LiteAccount byte code does: for every caller, storage and calldata, the machine ends
    as a short specification says. */
module LiteAccount {
  import opened Words
  import opened Evm
  import opened Huff
  import opened Relay
  import opened LiteCode

  const ADDR_SHA512: Address := 0x2f6bc5ac6b08bf93bc6fc9be156449b676bf8bb2
  const ADDR_EDVERIFY: Address := 0xc3e443be2cfa4f41a5f5e4978d012847d355b419

  // One lemma a stretch: from which state to which it takes the machine.

  ghost predicate Here(p: Program, at: nat, c: Chart, link: Link, code: seq<Byte>) {
    Sited(p, at, c, link, code) && link.labels == LABELS
  }

  lemma RunOwning(c: Chart, link: Link, code: seq<Byte>, env: Env, s: State)
    requires Here(OWNING, s.pc, c, link, code)
    ensures Final(code, env, s) == Final(code, env, s.(pc := s.pc + 21, stack := On(At(link.args, 0), s.stack)))
  {
    RunPlaced(c, OWNING, link, code, env, s);
  }

  lemma RunEntry(c: Chart, link: Link, code: seq<Byte>, env: Env, s: State, owner: Word)
    requires Here(ENTRY, s.pc, c, link, code) && Here(ENABLING, 27, c, link, code) && s.pc == 21 && s.stack == On(owner, Empty)
    requires 0x2f in c.targets && 0x37 in c.targets
    ensures Final(code, env, s) == Final(code, env, s.(stack := Empty, pc :=
      if env.caller == owner then 0x2f else if Load(s.store, 0) != 0 then 0x37 else 0x21))
  {
    RunPlaced(c, ENTRY, link, code, env, s);
    if env.caller != owner {
      RunEnabling(c, link, code, env, s.(pc := 27, stack := Empty));
    }
  }

  lemma RunEnabling(c: Chart, link: Link, code: seq<Byte>, env: Env, s: State)
    requires Here(ENABLING, s.pc, c, link, code) && s.pc == 27 && s.stack == Empty && 0x37 in c.targets
    ensures Final(code, env, s) == Final(code, env, s.(pc := if Load(s.store, 0) != 0 then 0x37 else 0x21))
  {
    RunPlaced(c, ENABLING, link, code, env, s);
  }

  lemma RunErring(c: Chart, link: Link, code: seq<Byte>, env: Env, s: State)
    requires Here(ERRING, s.pc, c, link, code) && s.pc == 0x21
    ensures Final(code, env, s) == Final(code, env, s.(pc := 0x27, stack := On(0xfe835e35, s.stack)))
  {
    RunPlaced(c, ERRING, link, code, env, s);
  }

  lemma RunReverting(c: Chart, link: Link, code: seq<Byte>, env: Env, s: State)
    requires Here(REVERTING, s.pc, c, link, code) && s.pc == 0x27 && s.stack.On?
    ensures Final(code, env, s) == Some(Reverted(BytesOf(s.stack.top, 4), s.calls))
  {
    RunPlaced(c, REVERTING, link, code, env, s);
    BytesOfSplit(s.stack.top, 28, 4);
    assert Read(Wrote(s.mem, 0, BytesOf(s.stack.top, 32)), 0x1c, 4) == BytesOf(s.stack.top, 4);
  }

  lemma RunSwitching(c: Chart, link: Link, code: seq<Byte>, env: Env, s: State)
    requires Here(SWITCHING, s.pc, c, link, code) && Here(CLOSING, 52, c, link, code) && s.pc == 0x2f
    ensures Final(code, env, s) == Some(Returned([], s.store[0 := WordAt(env.calldata, 0)], s.calls))
  {
    RunPlaced(c, SWITCHING, link, code, env, s);
    RunClosing(c, link, code, env, s.(pc := 52, store := s.store[0 := WordAt(env.calldata, 0)]));
  }

  lemma RunClosing(c: Chart, link: Link, code: seq<Byte>, env: Env, s: State)
    requires Here(CLOSING, s.pc, c, link, code) && s.pc == 52
    ensures Final(code, env, s) == Some(Returned([], s.store, s.calls))
  {
    RunPlaced(c, CLOSING, link, code, env, s);
    assert Read(s.mem, 0, 0) == [];
  }

  /** The words that FALLBACK keeps at the bottom of the stack. */
  function Base(n: Word): (s: Stack) {
    On(Difference(n, 100), On(0x64, On(0x60, On(0x40, Empty))))
  }

  lemma RunSizing(c: Chart, link: Link, code: seq<Byte>, env: Env, s: State)
    requires Here(SIZING, s.pc, c, link, code) && s.pc == 0x37 && s.stack == Empty
    ensures Final(code, env, s) == Final(code, env, s.(pc := 65, stack := Base(|env.calldata|)))
  {
    RunPlaced(c, SIZING, link, code, env, s);
  }

  lemma RunCopying(c: Chart, link: Link, code: seq<Byte>, env: Env, s: State)
    requires Here(COPYING, s.pc, c, link, code) && s.pc == 65 && s.stack == Base(|env.calldata|)
    ensures var n := |env.calldata|;
            Final(code, env, s) ==
            if n < 64 then Some(Broken)
            else Final(code, env, s.(pc := 72, mem := Wrote(s.mem, 0x20, Slice(env.calldata, 0x40, n - 0x40))))
  {
    RunPlaced(c, COPYING, link, code, env, s);
  }

  lemma RunSlotting(c: Chart, link: Link, code: seq<Byte>, env: Env, s: State)
    requires Here(SLOTTING, s.pc, c, link, code) && s.pc == 72
    ensures var m := Wrote(s.mem, 0, BytesOf(1, 32));
            Final(code, env, s) ==
            Final(code, env, s.(pc := 83, stack := On(env.keccak(Read(m, 0x1f, 0x11)), On(1, s.stack)), mem := m))
  {
    RunPlaced(c, SLOTTING, link, code, env, s);
  }

  lemma RunClaiming(c: Chart, link: Link, code: seq<Byte>, env: Env, s: State, slot: Word, b: Stack)
    requires Here(CLAIMING, s.pc, c, link, code) && s.pc == 83 && s.stack == On(slot, On(1, b)) && 0x21 in c.targets
    ensures Final(code, env, s) ==
            if Load(s.store, slot) != 0 then Final(code, env, s.(pc := 0x21))
            else Final(code, env, s.(pc := 90, stack := b, store := s.store[slot := 1]))
  {
    RunPlaced(c, CLAIMING, link, code, env, s);
  }

  lemma RunAddressing(c: Chart, link: Link, code: seq<Byte>, env: Env, s: State)
    requires Here(ADDRESSING, s.pc, c, link, code) && Here(MEASURING, 93, c, link, code) && s.pc == 90
    ensures Final(code, env, s) ==
            Final(code, env, s.(pc := 99, stack := On(Difference(|env.calldata|, 44), On(0, On(0, s.stack))),
                                mem := Wrote(s.mem, 0, BytesOf(env.self, 32))))
  {
    RunPlaced(c, ADDRESSING, link, code, env, s);
    RunMeasuring(c, link, code, env, s.(pc := 93, mem := Wrote(s.mem, 0, BytesOf(env.self, 32))));
  }

  lemma RunMeasuring(c: Chart, link: Link, code: seq<Byte>, env: Env, s: State)
    requires Here(MEASURING, s.pc, c, link, code) && s.pc == 93
    ensures Final(code, env, s) == Final(code, env, s.(pc := 99, stack := On(Difference(|env.calldata|, 44), On(0, On(0, s.stack)))))
  {
    RunPlaced(c, MEASURING, link, code, env, s);
  }

  lemma RunHashing(c: Chart, link: Link, code: seq<Byte>, env: Env, s: State, n: Word, b: Stack)
    requires Here(HASHING, s.pc, c, link, code) && s.pc == 99 && s.stack == On(n, On(0, On(0, b))) && n + 12 < DATA_LIMIT
    ensures var req := CallRecord(ByStatic, ADDR_SHA512, 0, Read(s.mem, 12, n));
            var a := env.answer(req, s.store, s.calls);
            Final(code, env, s) ==
            Final(code, env, s.(pc := 124, stack := On(Flag(a.ok), b), ret := a.data, calls := s.calls + [req]))
  {
    RunPlaced(c, HASHING, link, code, env, s);
  }

  lemma RunKeying(c: Chart, link: Link, code: seq<Byte>, env: Env, s: State)
    requires Here(KEYING, s.pc, c, link, code)
    ensures Final(code, env, s) == Final(code, env, s.(pc := s.pc + 33, stack := On(At(link.args, 1), s.stack)))
  {
    RunPlaced(c, KEYING, link, code, env, s);
  }

  lemma RunSigning(c: Chart, link: Link, code: seq<Byte>, env: Env, s: State, key: Word, f: Word)
    requires Here(SIGNING, s.pc, c, link, code) && s.pc == 161 && s.stack == On(key, On(f, Base(|env.calldata|)))
    ensures Final(code, env, s) ==
            Final(code, env, s.(pc := 167, stack := s.stack.below,
                                mem := Wrote(Wrote(s.mem, 0x40, BytesOf(key, 32)), 0x60, Slice(env.calldata, 0, 0x40))))
  {
    RunPlaced(c, SIGNING, link, code, env, s);
  }

  lemma RunVerifying(c: Chart, link: Link, code: seq<Byte>, env: Env, s: State)
    requires Here(VERIFYING, s.pc, c, link, code) && Here(CHECKING, 172, c, link, code) && s.pc == 167
    ensures var req := CallRecord(ByStatic, ADDR_EDVERIFY, 0, Read(s.mem, 0, 0xa0));
            var a := env.answer(req, s.store, s.calls);
            Final(code, env, s) ==
            Final(code, env, s.(pc := 195, stack := On(Flag(a.ok), s.stack), ret := a.data, calls := s.calls + [req]))
  {
    RunPlaced(c, VERIFYING, link, code, env, s);
    RunChecking(c, link, code, env, s.(pc := 172, stack := On(0, On(0xa0, On(0, On(0, s.stack))))), s.stack);
  }

  lemma RunChecking(c: Chart, link: Link, code: seq<Byte>, env: Env, s: State, b: Stack)
    requires Here(CHECKING, s.pc, c, link, code) && s.pc == 172 && s.stack == On(0, On(0xa0, On(0, On(0, b))))
    ensures var req := CallRecord(ByStatic, ADDR_EDVERIFY, 0, Read(s.mem, 0, 0xa0));
            var a := env.answer(req, s.store, s.calls);
            Final(code, env, s) ==
            Final(code, env, s.(pc := 195, stack := On(Flag(a.ok), b), ret := a.data, calls := s.calls + [req]))
  {
    RunPlaced(c, CHECKING, link, code, env, s);
  }

  lemma RunRefusing(c: Chart, link: Link, code: seq<Byte>, env: Env, s: State)
    requires Here(REFUSING, s.pc, c, link, code) && s.pc == 195 && s.stack.On? && 0x27 in c.targets
    ensures Final(code, env, s) ==
            Final(code, env, s.(pc := if s.stack.top == 0 then 0x27 else 206, stack := On(0xcba605a3, s.stack)))
  {
    RunPlaced(c, REFUSING, link, code, env, s);
  }

  lemma RunLoading(c: Chart, link: Link, code: seq<Byte>, env: Env, s: State, x: Word, y: Word, z: Word)
    requires Here(LOADING, s.pc, c, link, code) && Here(ARRANGING, 210, c, link, code) && s.pc == 206
    requires s.stack == On(x, On(y, On(z, Base(|env.calldata|))))
    ensures var n := |env.calldata|;
            Final(code, env, s) ==
            if n < 100 then Some(Broken)
            else Final(code, env, s.(pc := 215, stack := On(0, On(0, On(n - 100, On(0, On(0, s.stack))))),
                                     mem := Wrote(s.mem, 0, Slice(env.calldata, 100, n - 100))))
  {
    RunPlaced(c, LOADING, link, code, env, s);
    var n := |env.calldata|;
    if n >= 100 {
      RunArranging(c, link, code, env, s.(pc := 210, mem := Wrote(s.mem, 0, Slice(env.calldata, 100, n - 100))), x, y, z, n - 100);
    }
  }

  lemma RunArranging(c: Chart, link: Link, code: seq<Byte>, env: Env, s: State, x: Word, y: Word, z: Word, n: Word)
    requires Here(ARRANGING, s.pc, c, link, code) && s.pc == 210
    requires s.stack == On(x, On(y, On(z, On(n, On(0x64, On(0x60, On(0x40, Empty)))))))
    ensures Final(code, env, s) == Final(code, env, s.(pc := 215, stack := On(0, On(0, On(n, On(0, On(0, s.stack)))))))
  {
    RunPlaced(c, ARRANGING, link, code, env, s);
  }

  lemma RunAiming(c: Chart, link: Link, code: seq<Byte>, env: Env, s: State, b: Stack, n: Word)
    requires Here(AIMING, s.pc, c, link, code) && s.pc == 215
    requires s.stack == On(0, On(0, On(n, On(0, On(0, b))))) && Nth(b, 5) == Some(0x60)
    ensures Final(code, env, s) ==
            Final(code, env, s.(pc := 220, stack := On(ShiftRight(0x60, WordAt(env.calldata, 0x50)), s.stack)))
  {
    assert Nth(On(WordAt(env.calldata, 0x50), s.stack), 11) == Nth(b, 5);
    RunPlaced(c, AIMING, link, code, env, s);
  }

  lemma RunForwarding(c: Chart, link: Link, code: seq<Byte>, env: Env, s: State, to: Word, n: Word, b: Stack)
    requires Here(FORWARDING, s.pc, c, link, code) && s.pc == 220 && n < DATA_LIMIT
    requires s.stack == On(to, On(0, On(0, On(n, On(0, On(0, b))))))
    ensures var req := CallRecord(ByCall, to % ADDRESS_LIMIT, 0, Read(s.mem, 0, n));
            var a := env.answer(req, s.store, s.calls);
            Final(code, env, s) ==
            Final(code, env, s.(pc := 222, stack := On(Flag(a.ok), b), store := if a.ok then a.store else s.store,
                                ret := a.data, calls := s.calls + [req]))
  {
    RunPlaced(c, FORWARDING, link, code, env, s);
  }

  // What the program is for.

  /** Calldata: 64 bytes of signature, 16 of nonce, 20 of target, then the calldata to forward. */
  function Nonce(cd: Data): (r: seq<Byte>) {
    Slice(cd, 64, 16)
  }

  function Target(cd: Data): (a: Address) {
    Widths();
    BytesOfNatOf(Slice(cd, 80, 20));
    NatOf(Slice(cd, 80, 20))
  }

  const INTERNAL_ERROR: seq<Byte> := BytesOf(0xfe835e35, 4)
  const UNVERIFIED: seq<Byte> := BytesOf(0xcba605a3, 4)

  function NonceSlot(env: Env): (slot: Word) {
    env.keccak([1] + Nonce(env.calldata))
  }

  /** What the operator must have signed: the account, then everything after the signature. */
  function Signed(env: Env): (r: seq<Byte>)
    requires |env.calldata| >= 64
  {
    BytesOf(env.self, 20) + env.calldata[64..]
  }

  /** The first 64 bytes of `d`, topped up from scratch memory should `d` be shorter. */
  function Digest(env: Env, d: seq<Byte>): (r: seq<Byte>) {
    if |d| >= 64 then d[..64] else d + (BytesOf(env.self, 32) + Slice(env.calldata, 64, 32))[|d|..]
  }

  function HashRequest(env: Env): (r: CallRecord)
    requires |env.calldata| >= 64
  {
    CallRecord(ByStatic, ADDR_SHA512, 0, Signed(env))
  }

  function CheckRequest(operator: Word, env: Env, d: seq<Byte>): (r: CallRecord) {
    CallRecord(ByStatic, ADDR_EDVERIFY, 0, Digest(env, d) + (BytesOf(operator, 32) + Slice(env.calldata, 0, 64)))
  }

  function ForwardRequest(env: Env): (r: CallRecord)
    requires |env.calldata| >= 100
  {
    CallRecord(ByCall, Target(env.calldata), 0, env.calldata[100..])
  }

  /** The whole behaviour of an account, for every caller, storage and calldata. */
  function LiteSpec(owner: Address, operator: Word, env: Env, store: Storage): (h: Halt) {
    if env.caller == owner then Returned([], store[0 := WordAt(env.calldata, 0)], [])
    else if Load(store, 0) == 0 then Reverted(INTERNAL_ERROR, [])
    else if |env.calldata| < 64 then Broken
    else if Load(store, NonceSlot(env)) != 0 then Reverted(INTERNAL_ERROR, [])
    else
      var claimed := store[NonceSlot(env) := 1];
      var hash := HashRequest(env);
      var check := CheckRequest(operator, env, env.answer(hash, claimed, []).data);
      if !env.answer(check, claimed, [hash]).ok then Reverted(UNVERIFIED, [hash, check])
      else if |env.calldata| < 100 then Broken
      else
        var forward := ForwardRequest(env);
        var a := env.answer(forward, claimed, [hash, check]);
        if a.ok then Returned(a.data, a.store, [hash, check, forward]) else Reverted(a.data, [hash, check, forward])
  }

  // Memory.

  /** Memory after FALLBACK copied the calldata behind the signature. */
  function Copied(env: Env): (m: Memory)
    requires |env.calldata| >= 64
  {
    Wrote(Zeroed, 0x20, Slice(env.calldata, 0x40, |env.calldata| - 0x40))
  }

  function Slotted(env: Env): (m: Memory)
    requires |env.calldata| >= 64
  {
    Wrote(Copied(env), 0, BytesOf(1, 32))
  }

  function Addressed(env: Env): (m: Memory)
    requires |env.calldata| >= 64
  {
    Wrote(Slotted(env), 0, BytesOf(env.self, 32))
  }

  function Filled(operator: Word, env: Env, d: seq<Byte>): (m: Memory)
    requires |env.calldata| >= 64
  {
    Wrote(Wrote(Wrote(Addressed(env), 0, d), 0x40, BytesOf(operator, 32)), 0x60, Slice(env.calldata, 0, 0x40))
  }

  lemma SlotMark(env: Env)
    requires |env.calldata| >= 64
    ensures ByteAt(Slotted(env), 0x1f) == 1
  {
    BytesOfStep(1, 32);
    assert BytesOf(1, 32)[31] == 1;
    ByteWritten(Copied(env), 0, BytesOf(1, 32), 0x1f);
  }

  lemma CopiedTail(env: Env, i: nat)
    requires |env.calldata| >= 64 && i >= 32
    ensures ByteAt(Copied(env), i) == if i + 32 < |env.calldata| then env.calldata[i + 32] else 0
  {
    var copied := Slice(env.calldata, 0x40, |env.calldata| - 0x40);
    if i + 32 < |env.calldata| {
      ByteWritten(Zeroed, 0x20, copied, i);
      assert copied[i - 0x20] == env.calldata[i + 32];
    } else {
      ByteKept(Zeroed, 0x20, copied, i);
    }
  }

  lemma SlotNonce(env: Env, i: nat)
    requires |env.calldata| >= 64 && i < 16
    ensures ByteAt(Slotted(env), 0x20 + i) == Nonce(env.calldata)[i]
  {
    ByteKept(Copied(env), 0, BytesOf(1, 32), 0x20 + i);
    CopiedTail(env, 0x20 + i);
  }

  lemma SlotPreimage(env: Env)
    requires |env.calldata| >= 64
    ensures Read(Slotted(env), 0x1f, 0x11) == [1] + Nonce(env.calldata)
  {
    var r, e := Read(Slotted(env), 0x1f, 0x11), [1] + Nonce(env.calldata);
    assert |r| == |e| == 17;
    forall i | 0 <= i < 17 ensures r[i] == e[i] {
      assert r[i] == ByteAt(Slotted(env), 0x1f + i);
      if i == 0 {
        SlotMark(env);
      } else {
        SlotNonce(env, i - 1);
      }
    }
  }

  lemma AddressedTail(env: Env, i: nat)
    requires |env.calldata| >= 64 && i >= 32
    ensures ByteAt(Addressed(env), i) == if i + 32 < |env.calldata| then env.calldata[i + 32] else 0
  {
    ByteKept(Slotted(env), 0, BytesOf(env.self, 32), i);
    ByteKept(Copied(env), 0, BytesOf(1, 32), i);
    CopiedTail(env, i);
  }

  lemma HashPreimage(env: Env)
    requires |env.calldata| >= 64
    ensures Read(Addressed(env), 12, |env.calldata| - 44) == Signed(env)
  {
    var n := |env.calldata| - 44;
    var r, e := Read(Addressed(env), 12, n), Signed(env);
    BytesOfSplit(env.self, 12, 20);
    forall i | 0 <= i < n ensures r[i] == e[i] {
      assert r[i] == ByteAt(Addressed(env), 12 + i);
      if i >= 20 {
        AddressedTail(env, 12 + i);
      } else {
        ByteWritten(Slotted(env), 0, BytesOf(env.self, 32), 12 + i);
      }
    }
  }

  lemma CheckInput(operator: Word, env: Env, d: seq<Byte>)
    requires |env.calldata| >= 64
    ensures Read(Filled(operator, env, d), 0, 0xa0) == Digest(env, d) + (BytesOf(operator, 32) + Slice(env.calldata, 0, 64))
  {
    var hashed := Wrote(Addressed(env), 0, d);
    var keyed := Wrote(hashed, 0x40, BytesOf(operator, 32));
    var m := Filled(operator, env, d);
    var r := Read(m, 0, 0xa0);
    forall i | 0 <= i < 64 ensures r[i] == Digest(env, d)[i] {
      assert r[i] == ByteAt(m, 0 + i);
      ByteKept(keyed, 0x60, Slice(env.calldata, 0, 0x40), i);
      ByteKept(hashed, 0x40, BytesOf(operator, 32), i);
      if |d| <= i {
        ByteKept(Addressed(env), 0, d, i);
        if i >= 32 {
          AddressedTail(env, i);
        } else {
          ByteWritten(Slotted(env), 0, BytesOf(env.self, 32), i);
        }
      } else {
        ByteWritten(Addressed(env), 0, d, i);
      }
    }
    assert r[..64] == Digest(env, d);
    forall i | 64 <= i < 96 ensures r[i] == BytesOf(operator, 32)[i - 64] {
      assert r[i] == ByteAt(m, 0 + i);
      ByteKept(keyed, 0x60, Slice(env.calldata, 0, 0x40), i);
      ByteWritten(hashed, 0x40, BytesOf(operator, 32), i);
    }
    assert r[64..96] == BytesOf(operator, 32);
    forall i | 96 <= i < 160 ensures r[i] == Slice(env.calldata, 0, 64)[i - 96] {
      assert r[i] == ByteAt(m, 0 + i);
      ByteWritten(keyed, 0x60, Slice(env.calldata, 0, 0x40), i);
    }
    assert r[96..] == Slice(env.calldata, 0, 64);
    assert r == r[..64] + (r[64..96] + r[96..]);
  }

  lemma TargetWord(cd: Data)
    ensures ShiftRight(0x60, WordAt(cd, 0x50)) % ADDRESS_LIMIT == Target(cd)
  {
    var w := Slice(cd, 0x50, 32);
    HalveBytes(NatOf(w), 12);
    HighOfPrefix(w, 12);
    assert w[..20] == Slice(cd, 80, 20);
  }

  // The stretches put together.

  /** From the start to the fork between the owner, the switched-off account and everyone else. */
  lemma RunGuard(c: Chart, link: Link, code: seq<Byte>, env: Env, store: Storage)
    requires Ready(c, link, code)
    ensures Final(code, env, Start(store)) == Final(code, env, Start(store).(pc :=
      if env.caller == At(link.args, 0) then 0x2f else if Load(store, 0) != 0 then 0x37 else 0x21))
  {
    RunOwning(c, link, code, env, Start(store));
    RunEntry(c, link, code, env, Start(store).(pc := 21, stack := On(At(link.args, 0), Empty)), At(link.args, 0));
  }

  lemma RunInternalError(c: Chart, link: Link, code: seq<Byte>, env: Env, s: State)
    requires Ready(c, link, code) && s.pc == 0x21
    ensures Final(code, env, s) == Some(Reverted(INTERNAL_ERROR, s.calls))
  {
    RunErring(c, link, code, env, s);
    RunReverting(c, link, code, env, s.(pc := 0x27, stack := On(0xfe835e35, s.stack)));
  }

  /** Refusing a used nonce, or using it. */
  lemma RunClaim(c: Chart, link: Link, code: seq<Byte>, env: Env, store: Storage)
    requires Ready(c, link, code)
    ensures Final(code, env, Start(store).(pc := 0x37)) ==
            if |env.calldata| < 64 then Some(Broken)
            else if Load(store, NonceSlot(env)) != 0 then Some(Reverted(INTERNAL_ERROR, []))
            else Final(code, env, State(90, Base(|env.calldata|), Slotted(env), store[NonceSlot(env) := 1], [], []))
  {
    var n := |env.calldata|;
    var s := Start(store).(pc := 0x37);
    RunSizing(c, link, code, env, s);
    RunCopying(c, link, code, env, s.(pc := 65, stack := Base(n)));
    if n >= 64 {
      var t := s.(pc := 72, stack := Base(n), mem := Copied(env));
      RunSlotting(c, link, code, env, t);
      SlotPreimage(env);
      var u := t.(pc := 83, stack := On(NonceSlot(env), On(1, Base(n))), mem := Slotted(env));
      RunClaiming(c, link, code, env, u, NonceSlot(env), Base(n));
      if Load(store, NonceSlot(env)) != 0 {
        RunInternalError(c, link, code, env, u.(pc := 0x21));
      }
    }
  }

  /** Hashing what was signed. */
  lemma RunHash(c: Chart, link: Link, code: seq<Byte>, env: Env, store: Storage)
    requires Ready(c, link, code) && |env.calldata| >= 64
    ensures var a := env.answer(HashRequest(env), store, []);
            Final(code, env, State(90, Base(|env.calldata|), Slotted(env), store, [], [])) ==
            Final(code, env, State(128, On(Flag(a.ok), Base(|env.calldata|)), Wrote(Addressed(env), 0, a.data), store, a.data, [HashRequest(env)]))
  {
    var n := |env.calldata|;
    var s := State(90, Base(n), Slotted(env), store, [], []);
    RunAddressing(c, link, code, env, s);
    var t := s.(pc := 99, stack := On(n - 44, On(0, On(0, Base(n)))), mem := Addressed(env));
    RunHashing(c, link, code, env, t, n - 44, Base(n));
    HashPreimage(env);
    var a := env.answer(HashRequest(env), store, []);
    assert t.calls + [HashRequest(env)] == [HashRequest(env)];
    RunTaking(c, link, code, env, State(124, On(Flag(a.ok), Base(n)), Addressed(env), store, a.data, [HashRequest(env)]));
  }

  /** Checking the signature. */
  lemma RunCheck(c: Chart, link: Link, code: seq<Byte>, env: Env, store: Storage, d: Data, f: Word,
        calls: seq<CallRecord>)
    requires Ready(c, link, code) && |env.calldata| >= 64
    ensures var operator := At(link.args, 1);
            var check := CheckRequest(operator, env, d);
            var a := env.answer(check, store, calls);
            Final(code, env, State(128, On(f, Base(|env.calldata|)), Wrote(Addressed(env), 0, d), store, d, calls)) ==
            if !a.ok then Some(Reverted(UNVERIFIED, calls + [check]))
            else Final(code, env, State(206, On(0xcba605a3, On(1, On(f, Base(|env.calldata|)))), Filled(operator, env, d), store, a.data, calls + [check]))
  {
    var b := Base(|env.calldata|);
    var operator := At(link.args, 1);
    var s := State(128, On(f, b), Wrote(Addressed(env), 0, d), store, d, calls);
    RunKeying(c, link, code, env, s);
    RunSigning(c, link, code, env, s.(pc := 161, stack := On(operator, On(f, b))), operator, f);
    var t := s.(pc := 167, mem := Filled(operator, env, d));
    RunVerifying(c, link, code, env, t);
    CheckInput(operator, env, d);
    var check := CheckRequest(operator, env, d);
    var a := env.answer(check, store, calls);
    var u := t.(pc := 195, stack := On(Flag(a.ok), On(f, b)), ret := a.data, calls := calls + [check]);
    RunRefusing(c, link, code, env, u);
    if !a.ok {
      RunReverting(c, link, code, env, u.(pc := 0x27, stack := On(0xcba605a3, u.stack)));
    }
  }

  /** Forwarding the call and passing back what it returns. */
  lemma RunForward(c: Chart, link: Link, code: seq<Byte>, env: Env, s: State, x: Word, y: Word, z: Word)
    requires Ready(c, link, code) && s.pc == 206 && s.stack == On(x, On(y, On(z, Base(|env.calldata|))))
    ensures Final(code, env, s) ==
            if |env.calldata| < 100 then Some(Broken) else
              var a := env.answer(ForwardRequest(env), s.store, s.calls);
              var calls := s.calls + [ForwardRequest(env)];
              Some(if a.ok then Returned(a.data, a.store, calls) else Reverted(a.data, calls))
  {
    var n := |env.calldata|;
    RunLoading(c, link, code, env, s, x, y, z);
    if n >= 100 {
      var cd := Slice(env.calldata, 100, n - 100);
      assert cd == env.calldata[100..];
      var m := Wrote(s.mem, 0, cd);
      var t := s.(pc := 215, stack := On(0, On(0, On(n - 100, On(0, On(0, s.stack))))), mem := m);
      assert Nth(s.stack, 5) == Some(0x60);
      RunAiming(c, link, code, env, t, s.stack, n - 100);
      var to := ShiftRight(0x60, WordAt(env.calldata, 0x50));
      RunForwarding(c, link, code, env, t.(pc := 220, stack := On(to, t.stack)), to, n - 100, s.stack);
      TargetWord(env.calldata);
      ReadBack(s.mem, cd);
      var a := env.answer(ForwardRequest(env), s.store, s.calls);
      var u := State(222, On(Flag(a.ok), s.stack), m, if a.ok then a.store else s.store, a.data, s.calls + [ForwardRequest(env)]);
      RunRelay(c, link, code, env, u);
    }
  }

  /** The deployed byte code does what the specification says, and nothing else: it never gets stuck,
      underflows its stack or jumps anywhere but to a label, whatever it is given. */
  lemma LiteRefines(owner: Address, operator: Word, env: Env, store: Storage)
    ensures Final(Lite(owner, operator), env, Start(store)) == Some(LiteSpec(owner, operator, env, store))
  {
    var code, link := Lite(owner, operator), LiteLink(owner, operator);
    var c := LiteLoads(owner, operator);
    LiteRuns(c, link, code, owner, operator, env, store);
  }

  lemma LiteRuns(c: Chart, link: Link, code: seq<Byte>, owner: Address, operator: Word, env: Env, store: Storage)
    requires Ready(c, link, code) && At(link.args, 0) == owner && At(link.args, 1) == operator
    ensures Final(code, env, Start(store)) == Some(LiteSpec(owner, operator, env, store))
  {
    RunGuard(c, link, code, env, store);
    if env.caller == owner {
      RunSwitching(c, link, code, env, Start(store).(pc := 0x2f));
    } else if Load(store, 0) == 0 {
      RunInternalError(c, link, code, env, Start(store).(pc := 0x21));
    } else {
      RunClaim(c, link, code, env, store);
      if |env.calldata| >= 64 && Load(store, NonceSlot(env)) == 0 {
        RunChecked(c, link, code, operator, env, store[NonceSlot(env) := 1]);
      }
    }
  }

  lemma RunChecked(c: Chart, link: Link, code: seq<Byte>, operator: Word, env: Env, claimed: Storage)
    requires Ready(c, link, code) && At(link.args, 1) == operator && |env.calldata| >= 64
    ensures var hash := HashRequest(env);
            var check := CheckRequest(operator, env, env.answer(hash, claimed, []).data);
            Final(code, env, State(90, Base(|env.calldata|), Slotted(env), claimed, [], [])) == Some(
              if !env.answer(check, claimed, [hash]).ok then Reverted(UNVERIFIED, [hash, check])
              else if |env.calldata| < 100 then Broken
              else
                var forward := ForwardRequest(env);
                var a := env.answer(forward, claimed, [hash, check]);
                if a.ok then Returned(a.data, a.store, [hash, check, forward]) else Reverted(a.data, [hash, check, forward]))
  {
    RunHash(c, link, code, env, claimed);
    var hash := HashRequest(env);
    var h := env.answer(hash, claimed, []);
    RunCheck(c, link, code, env, claimed, h.data, Flag(h.ok), [hash]);
    var check := CheckRequest(operator, env, h.data);
    assert [hash] + [check] == [hash, check];
    var a := env.answer(check, claimed, [hash]);
    if a.ok {
      var s := State(206, On(0xcba605a3, On(1, On(Flag(h.ok), Base(|env.calldata|)))), Filled(operator, env, h.data), claimed, a.data, [hash, check]);
      RunForward(c, link, code, env, s, 0xcba605a3, 1, Flag(h.ok));
      if |env.calldata| >= 100 {
        assert [hash, check] + [ForwardRequest(env)] == [hash, check, ForwardRequest(env)];
      }
    }
  }
}
