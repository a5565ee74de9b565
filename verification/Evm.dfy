/** A byte-code machine: the part of the EVM that the hand-written programs use.

    Words are 256 bits wide and wrap around. A called contract is an arbitrary function of the
    request, the caller's storage and the requests made before; every request is recorded. An
    opcode that none of the programs contain is treated as an invalid instruction. */
module Evm {
  import opened Words

  /** An instruction: a push with its operand, a DUP with how deep it reaches below the top, or any
      other opcode byte. */
  datatype Instr = Push(width: nat, value: Word) | Dup(depth: nat) | Plain(op: Byte)

  function Length(i: Instr): (n: nat)
    ensures n >= 1
  {
    if i.Push? then 1 + i.width else 1
  }

  function Immediate(code: seq<Byte>, at: nat, n: nat): (w: Word)
    requires n <= 32
  {
    Widths();
    Pow256Monotone(n, 32);
    BytesOfNatOf(Slice(code, at, n));
    NatOf(Slice(code, at, n))
  }

  /** The instruction at `pc`. */
  function Fetch(code: seq<Byte>, pc: nat): (i: Instr)
    requires pc < |code|
  {
    var b := code[pc];
    if 0x5f <= b <= 0x7f then Push(b - 0x5f, Immediate(code, pc + 1, b - 0x5f))
    else if 0x80 <= b <= 0x8f then Dup(b - 0x80)
    else Plain(b)
  }

  /** Where the instruction at `pc` ends; there is nothing past the end of the code. */
  function After(code: seq<Byte>): (next: nat -> nat) {
    (pc: nat) => if pc < |code| then pc + Length(Fetch(code, pc)) else pc
  }

  /** Does stepping from `from` by `next` stop exactly at `d`? */
  predicate Lands(next: nat -> nat, from: nat, d: nat)
    decreases d - from
  {
    from == d || (from < d && from < next(from) && Lands(next, next(from), d))
  }

  /** A jump may only land on a JUMPDEST that a decoding from the start arrives at, and that is
      therefore not part of push data. */
  predicate ValidJump(code: seq<Byte>, d: nat) {
    d < |code| && code[d] == 0x5b && Lands(After(code), 0, d)
  }

  datatype Stack = Empty | On(top: Word, below: Stack)

  function Nth(s: Stack, n: nat): (w: Option<Word>)
    decreases n
  {
    if s.Empty? then None else if n == 0 then Some(s.top) else Nth(s.below, n - 1)
  }

  /** Memory as the log of its writes: a byte is what the latest write covering it put there. */
  datatype Memory = Zeroed | Wrote(before: Memory, at: nat, data: seq<Byte>)

  function ByteAt(m: Memory, i: nat): (b: Byte) {
    match m
    case Zeroed => 0
    case Wrote(before, at, data) => if at <= i < at + |data| then data[i - at] else ByteAt(before, i)
  }

  function Read(m: Memory, at: nat, n: nat): (r: seq<Byte>)
    ensures |r| == n
  {
    seq<Byte>(n, i requires 0 <= i < n => ByteAt(m, at + i))
  }

  lemma ByteWritten(m: Memory, at: nat, data: seq<Byte>, i: nat)
    requires at <= i < at + |data|
    ensures ByteAt(Wrote(m, at, data), i) == data[i - at]
  {
  }

  lemma ByteKept(m: Memory, at: nat, data: seq<Byte>, i: nat)
    requires i < at || at + |data| <= i
    ensures ByteAt(Wrote(m, at, data), i) == ByteAt(m, i)
  {
  }

  type Storage = map<Word, Word>

  function Load(st: Storage, k: Word): (v: Word) {
    if k in st then st[k] else 0
  }

  datatype CallKind = ByCall | ByDelegate | ByStatic

  datatype CallRecord = CallRecord(kind: CallKind, to: Address, value: Word, input: seq<Byte>)

  /** What a called contract does: succeed or not, return data, and (when it may) leave new storage. */
  datatype Answer = Answer(ok: bool, data: Data, store: Storage)

  datatype Env = Env(
    self: Address,
    caller: Address,
    calldata: Data,
    gas: Word,
    keccak: seq<Byte> -> Word,
    codeHash: Address -> Word,
    answer: (CallRecord, Storage, seq<CallRecord>) -> Answer)

  datatype State = State(
    pc: nat,
    stack: Stack,
    mem: Memory,
    store: Storage,
    ret: Data,
    calls: seq<CallRecord>)

  datatype Halt =
    | Returned(data: seq<Byte>, store: Storage, calls: seq<CallRecord>)
    | Reverted(data: seq<Byte>, calls: seq<CallRecord>)
    | Broken

  datatype Outcome = Running(st: State) | Halted(h: Halt)

  /** A memory region whose end is out of reach costs more than any amount of gas. */
  predicate Affordable(at: nat, n: nat) {
    n == 0 || at + n < DATA_LIMIT
  }

  function Flag(b: bool): (w: Word) {
    if b then 1 else 0
  }

  function Difference(a: Word, b: Word): (r: Word) {
    if a >= b then a - b else a - b + WORD_LIMIT
  }

  function ShiftRight(shift: Word, v: Word): (r: Word) {
    if shift >= 256 then 0 else Halve(v, shift)
  }

  /** Memory after a callee returned `data` into the region [at, at + n). */
  function Landed(m: Memory, at: nat, n: nat, data: seq<Byte>): (r: Memory) {
    if n == 0 then m else Wrote(m, at, if |data| <= n then data else data[..n])
  }

  function DoCall(env: Env, s: State, kind: CallKind, to: Word, value: Word,
                  inAt: Word, inSize: Word, outAt: Word, outSize: Word, rest: Stack): (r: Outcome)
  {
    if !Affordable(inAt, inSize) || !Affordable(outAt, outSize) then Halted(Broken) else
      var req := CallRecord(kind, to % ADDRESS_LIMIT, value, Read(s.mem, inAt, inSize));
      var a := env.answer(req, s.store, s.calls);
      Running(State(s.pc + 1, On(Flag(a.ok), rest), Landed(s.mem, outAt, outSize, a.data),
                    if a.ok && kind != ByStatic then a.store else s.store,
                    a.data, s.calls + [req]))
  }

  function Exec1(i: Instr, code: seq<Byte>, env: Env, s: State): (r: Outcome) {
    match i
    case Push(w, v) => Running(s.(pc := s.pc + 1 + w, stack := On(v, s.stack)))
    case Dup(depth) =>
      (match Nth(s.stack, depth)
       case Some(w) => Running(s.(pc := s.pc + 1, stack := On(w, s.stack)))
       case None => Halted(Broken))
    case Plain(op) => Exec(op, code, env, s)
  }

  /** The state after an instruction that only replaces the stack. */
  function Now(s: State, stack: Stack): (r: Outcome) {
    Running(s.(pc := s.pc + 1, stack := stack))
  }

  /** The state after an instruction that pops its operands and writes memory. */
  function Store(s: State, stack: Stack, at: nat, data: seq<Byte>): (r: Outcome) {
    if Affordable(at, |data|) then Running(s.(pc := s.pc + 1, stack := stack, mem := Wrote(s.mem, at, data)))
    else Halted(Broken)
  }

  /** Arithmetic and comparison. */
  function ExecWords(op: Byte, code: seq<Byte>, env: Env, s: State): (r: Outcome) {
    match op
    case 0x03 /* SUB */ =>
      (match s.stack
       case On(a, On(b, rest)) => Now(s, On(Difference(a, b), rest))
       case _ => Halted(Broken))
    case 0x14 /* EQ */ =>
      (match s.stack
       case On(a, On(b, rest)) => Now(s, On(Flag(a == b), rest))
       case _ => Halted(Broken))
    case 0x15 /* ISZERO */ =>
      (match s.stack
       case On(a, rest) => Now(s, On(Flag(a == 0), rest))
       case _ => Halted(Broken))
    case 0x1c /* SHR */ =>
      (match s.stack
       case On(a, On(b, rest)) => Now(s, On(ShiftRight(a, b), rest))
       case _ => Halted(Broken))
    case 0x20 /* SHA3 */ =>
      (match s.stack
       case On(at, On(n, rest)) =>
         if Affordable(at, n) then Now(s, On(env.keccak(Read(s.mem, at, n)), rest)) else Halted(Broken)
       case _ => Halted(Broken))
    case _ => Halted(Broken)
  }

  /** What the frame was given. */
  function ExecInput(op: Byte, code: seq<Byte>, env: Env, s: State): (r: Outcome) {
    match op
    case 0x30 /* ADDRESS */ => Now(s, On(env.self, s.stack))
    case 0x33 /* CALLER */ => Now(s, On(env.caller, s.stack))
    case 0x35 /* CALLDATALOAD */ =>
      (match s.stack
       case On(at, rest) => Now(s, On(WordAt(env.calldata, at), rest))
       case _ => Halted(Broken))
    case 0x36 /* CALLDATASIZE */ => Now(s, On(|env.calldata|, s.stack))
    case 0x37 /* CALLDATACOPY */ =>
      (match s.stack
       case On(at, On(from, On(n, rest))) => Store(s, rest, at, Slice(env.calldata, from, n))
       case _ => Halted(Broken))
    case 0x39 /* CODECOPY */ =>
      (match s.stack
       case On(at, On(from, On(n, rest))) => Store(s, rest, at, Slice(code, from, n))
       case _ => Halted(Broken))
    case 0x3d /* RETURNDATASIZE */ => Now(s, On(|s.ret|, s.stack))
    case 0x3e /* RETURNDATACOPY */ =>
      (match s.stack
       case On(at, On(from, On(n, rest))) =>
         if from + n <= |s.ret| then Store(s, rest, at, s.ret[from..from + n]) else Halted(Broken)
       case _ => Halted(Broken))
    case 0x3f /* EXTCODEHASH */ =>
      (match s.stack
       case On(a, rest) => Now(s, On(env.codeHash(a % ADDRESS_LIMIT), rest))
       case _ => Halted(Broken))
    case _ => Halted(Broken)
  }

  /** Memory, storage and control. */
  function ExecState(op: Byte, code: seq<Byte>, env: Env, s: State): (r: Outcome) {
    match op
    case 0x51 /* MLOAD */ =>
      (match s.stack
       case On(at, rest) =>
         if Affordable(at, 32) then Now(s, On(WordIn(s.mem, at), rest)) else Halted(Broken)
       case _ => Halted(Broken))
    case 0x52 /* MSTORE */ =>
      (match s.stack
       case On(at, On(w, rest)) => Store(s, rest, at, BytesOf(w, 32))
       case _ => Halted(Broken))
    case 0x54 /* SLOAD */ =>
      (match s.stack
       case On(k, rest) => Now(s, On(Load(s.store, k), rest))
       case _ => Halted(Broken))
    case 0x55 /* SSTORE */ =>
      (match s.stack
       case On(k, On(v, rest)) => Running(s.(pc := s.pc + 1, stack := rest, store := s.store[k := v]))
       case _ => Halted(Broken))
    case 0x56 /* JUMP */ =>
      (match s.stack
       case On(d, rest) => if ValidJump(code, d) then Running(s.(pc := d, stack := rest)) else Halted(Broken)
       case _ => Halted(Broken))
    case 0x57 /* JUMPI */ =>
      (match s.stack
       case On(d, On(c, rest)) =>
         if c == 0 then Now(s, rest)
         else if ValidJump(code, d) then Running(s.(pc := d, stack := rest)) else Halted(Broken)
       case _ => Halted(Broken))
    case 0x5a /* GAS */ => Now(s, On(env.gas, s.stack))
    case 0x5b /* JUMPDEST */ => Now(s, s.stack)
    case _ => Halted(Broken)
  }

  /** Calls and their ends. */
  function ExecCalls(op: Byte, code: seq<Byte>, env: Env, s: State): (r: Outcome) {
    match op
    case 0xf1 /* CALL */ =>
      (match s.stack
       case On(_, On(to, On(v, On(a, On(n, On(o, On(m, rest))))))) => DoCall(env, s, ByCall, to, v, a, n, o, m, rest)
       case _ => Halted(Broken))
    case 0xf3 /* RETURN */ =>
      (match s.stack
       case On(at, On(n, _)) =>
         if Affordable(at, n) then Halted(Returned(Read(s.mem, at, n), s.store, s.calls)) else Halted(Broken)
       case _ => Halted(Broken))
    case 0xf4 /* DELEGATECALL */ =>
      (match s.stack
       case On(_, On(to, On(a, On(n, On(o, On(m, rest)))))) => DoCall(env, s, ByDelegate, to, 0, a, n, o, m, rest)
       case _ => Halted(Broken))
    case 0xfa /* STATICCALL */ =>
      (match s.stack
       case On(_, On(to, On(a, On(n, On(o, On(m, rest)))))) => DoCall(env, s, ByStatic, to, 0, a, n, o, m, rest)
       case _ => Halted(Broken))
    case 0xfd /* REVERT */ =>
      (match s.stack
       case On(at, On(n, _)) =>
         if Affordable(at, n) then Halted(Reverted(Read(s.mem, at, n), s.calls)) else Halted(Broken)
       case _ => Halted(Broken))
    case _ => Halted(Broken)
  }

  function Exec(op: Byte, code: seq<Byte>, env: Env, s: State): (r: Outcome) {
    if op < 0x30 then ExecWords(op, code, env, s)
    else if op < 0x50 then ExecInput(op, code, env, s)
    else if op < 0x60 then ExecState(op, code, env, s)
    else if op >= 0xa0 then ExecCalls(op, code, env, s)
    else if op == 0x93 then // SWAP4, the only swap in use
      match s.stack
      case On(a, On(b, On(c, On(d, On(e, rest))))) => Now(s, On(e, On(b, On(c, On(d, On(a, rest))))))
      case _ => Halted(Broken)
    else Halted(Broken)
  }

  function WordAt(d: seq<Byte>, at: nat): (w: Word) {
    Immediate(d, at, 32)
  }

  function WordIn(m: Memory, at: nat): (w: Word) {
    Widths();
    BytesOfNatOf(Read(m, at, 32));
    NatOf(Read(m, at, 32))
  }

  /** One instruction. Running off the end of the code stops with no output. */
  function Step(code: seq<Byte>, env: Env, s: State): (r: Outcome)
  {
    if s.pc >= |code| then Halted(Returned([], s.store, s.calls)) else Exec1(Fetch(code, s.pc), code, env, s)
  }

  /** `n` steps of a machine. */
  function Run(step: State -> Outcome, s: State, n: nat): (r: Outcome)
    decreases n
  {
    if n == 0 then Running(s) else
      match step(s)
      case Running(t) => Run(step, t, n - 1)
      case Halted(h) => Halted(h)
  }

  /** How an execution from `s` ends, or None when it never does. */
  ghost function End(step: State -> Outcome, s: State): (h: Option<Halt>) {
    if exists n: nat :: Run(step, s, n).Halted?
    then var n: nat :| Run(step, s, n).Halted?; Some(Run(step, s, n).h)
    else None
  }

  /** A machine that has halted stays halted with the same result. */
  lemma {:induction false} RunStable(step: State -> Outcome, s: State, n: nat, m: nat)
    requires n <= m && Run(step, s, n).Halted?
    ensures Run(step, s, m) == Run(step, s, n)
    decreases n
  {
    match step(s)
    case Running(t) => RunStable(step, t, n - 1, m - 1);
    case Halted(_) =>
  }

  lemma EndIs(step: State -> Outcome, s: State, n: nat)
    requires Run(step, s, n).Halted?
    ensures End(step, s) == Some(Run(step, s, n).h)
  {
    forall m: nat | Run(step, s, m).Halted?
      ensures Run(step, s, m) == Run(step, s, n)
    {
      if n <= m { RunStable(step, s, n, m); } else { RunStable(step, s, m, n); }
    }
  }

  /** Taking a step does not change how an execution ends. */
  lemma EndStep(step: State -> Outcome, s: State)
    ensures match step(s)
            case Running(t) => End(step, s) == End(step, t)
            case Halted(h) => End(step, s) == Some(h)
  {
    match step(s)
    case Halted(h) => EndIs(step, s, 1);
    case Running(t) =>
      if n: nat :| Run(step, t, n).Halted? {
        EndIs(step, t, n);
        assert Run(step, s, n + 1) == Run(step, t, n);
        EndIs(step, s, n + 1);
      } else {
        forall n: nat ensures !Run(step, s, n).Halted? {
          if n > 0 { assert Run(step, s, n) == Run(step, step(s).st, n - 1); }
        }
      }
  }

  function Machine(code: seq<Byte>, env: Env): (f: State -> Outcome) {
    s => Step(code, env, s)
  }

  ghost function Final(code: seq<Byte>, env: Env, s: State): (h: Option<Halt>) {
    End(Machine(code, env), s)
  }

  function Start(store: Storage): (s: State) {
    State(0, Empty, Zeroed, store, [], [])
  }
}
