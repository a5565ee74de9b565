/** Huff macros: instructions, labels and references to them, assembled into byte code.

    The theorems hold for every program: what is fetched back from assembled code is the program,
    labels are valid jump targets, and executing the code from where a stretch of the program was
    placed is executing that stretch's instruction list. */
module Huff {
  import opened Words
  import opened Evm

  /** A hole is a push whose operand is supplied when the code is assembled. */
  datatype Item = Op(op: Byte) | Num(width: nat, value: Word) | Copy(depth: nat) | Hole(width: nat, k: nat) | Label(l: nat) | Ref(l: nat)

  /** A stretch of a program. */
  datatype Program = Done | Then(head: Item, tail: Program)

  function ItemSize(it: Item): (n: nat)
    ensures n >= 1
  {
    match it
    case Op(_) => 1
    case Copy(_) => 1
    case Num(w, _) => 1 + w
    case Hole(w, _) => 1 + w
    case Label(_) => 1
    case Ref(_) => 3
  }

  function Size(p: Program): (n: nat) {
    match p
    case Done => 0
    case Then(it, t) => ItemSize(it) + Size(t)
  }

  /** Where labels are and what fills the holes. */
  datatype Link = Link(labels: seq<Word>, args: seq<Word>)

  function At(s: seq<Word>, k: nat): (w: Word) {
    if k < |s| then s[k] else 0
  }

  /** The instruction an item stands for: labels become JUMPDESTs, references two-byte pushes. */
  function Inst(it: Item, link: Link): (i: Instr) {
    match it
    case Op(b) => Plain(b)
    case Copy(depth) => Dup(depth)
    case Num(w, v) => Push(w, v)
    case Hole(w, k) => Push(w, At(link.args, k))
    case Label(_) => Plain(0x5b)
    case Ref(l) => Push(2, At(link.labels, l))
  }

  /** Instructions that have an encoding of their own. */
  predicate Encodable(i: Instr) {
    match i
    case Push(w, v) => w <= 32 && v < Pow256(w)
    case Dup(depth) => depth < 16
    case Plain(b) => !(0x5f <= b <= 0x8f)
  }

  /** Placed at `at`, everything can be encoded and every label is where the link says it is. */
  predicate Sound(p: Program, at: nat, link: Link) {
    match p
    case Done => true
    case Then(it, t) =>
      && Encodable(Inst(it, link))
      && (it.Label? ==> it.l < |link.labels| && link.labels[it.l] == at)
      && Sound(t, at + ItemSize(it), link)
  }

  function Encode(i: Instr): (b: seq<Byte>)
    ensures Encodable(i) ==> |b| == Length(i)
  {
    match i
    case Push(w, v) => if w <= 32 then [0x5f + w] + BytesOf(v, w) else []
    case Dup(depth) => if depth < 16 then [0x80 + depth] else []
    case Plain(b) => [b]
  }

  function Assemble(p: Program, link: Link): (b: seq<Byte>) {
    match p
    case Done => []
    case Then(it, t) => Encode(Inst(it, link)) + Assemble(t, link)
  }

  lemma {:induction false} AssembleSize(p: Program, at: nat, link: Link)
    requires Sound(p, at, link)
    ensures |Assemble(p, link)| == Size(p)
    decreases p
  {
    match p
    case Done =>
    case Then(it, t) => AssembleSize(t, at + ItemSize(it), link);
  }

  /** Do the bytes `b` sit in `code` at `at`? */
  predicate Holds(code: seq<Byte>, at: nat, b: seq<Byte>) {
    at + |b| <= |code| && code[at..at + |b|] == b
  }

  lemma HoldsSplit(code: seq<Byte>, at: nat, x: seq<Byte>, y: seq<Byte>)
    requires Holds(code, at, x + y)
    ensures Holds(code, at, x) && Holds(code, at + |x|, y)
  {
    var z := code[at..at + |x + y|];
    assert z[..|x|] == x && z[|x|..] == y;
  }

  /** Decoding inverts encoding. */
  lemma FetchEncoded(code: seq<Byte>, pc: nat, i: Instr)
    requires Encodable(i) && Holds(code, pc, Encode(i))
    ensures pc < |code| && Fetch(code, pc) == i
  {
    assert code[pc] == code[pc..pc + Length(i)][0];
    if i.Push? {
      assert Slice(code, pc + 1, i.width) == code[pc..pc + Length(i)][1..] == BytesOf(i.value, i.width);
      NatOfBytesOf(i.value, i.width);
    }
  }

  /** Is `p` placed in the code at `at`? */
  ghost predicate Placed(p: Program, at: nat, link: Link, code: seq<Byte>) {
    Sound(p, at, link) && Holds(code, at, Assemble(p, link))
  }

  lemma PlacedTail(p: Program, at: nat, link: Link, code: seq<Byte>)
    requires p.Then? && Placed(p, at, link, code)
    ensures at < |code| && Fetch(code, at) == Inst(p.head, link)
    ensures ItemSize(p.head) == Length(Inst(p.head, link))
    ensures After(code)(at) == at + ItemSize(p.head)
    ensures Placed(p.tail, at + ItemSize(p.head), link, code)
  {
    var i := Inst(p.head, link);
    HoldsSplit(code, at, Encode(i), Assemble(p.tail, link));
    FetchEncoded(code, at, i);
  }

  lemma {:induction false} LandsTrans(next: nat -> nat, a: nat, b: nat, c: nat)
    requires Lands(next, a, b) && Lands(next, b, c)
    ensures Lands(next, a, c)
    decreases b - a
  {
    if a < b {
      LandsTrans(next, next(a), b, c);
    }
  }

  lemma LandsStep(next: nat -> nat, a: nat, b: nat, c: nat)
    requires a < b && next(a) == b && Lands(next, b, c)
    ensures Lands(next, a, c)
  {
  }

  /** A chart of assembled code: where its stretches are placed and where jumps may land. */
  datatype Chart = Chart(stretches: iset<(Program, nat)>, targets: iset<nat>)

  ghost predicate Charts(c: Chart, link: Link, code: seq<Byte>) {
    && (forall p: Program, at: nat {:trigger Placed(p, at, link, code)} ::
          Placed(p, at, link, code) <==> (p, at) in c.stretches)
    && (forall d: nat {:trigger ValidJump(code, d)} :: ValidJump(code, d) <==> d in c.targets)
  }

  lemma DrawChart(link: Link, code: seq<Byte>) returns (c: Chart)
    ensures Charts(c, link, code)
  {
    c := Chart(iset p: Program, at: nat | Placed(p, at, link, code) :: (p, at), iset d: nat | ValidJump(code, d));
  }

  lemma ChartTail(c: Chart, p: Program, at: nat, link: Link, code: seq<Byte>)
    requires Charts(c, link, code) && (p, at) in c.stretches && p.Then?
    ensures at < |code| && After(code)(at) == at + ItemSize(p.head) && Fetch(code, at) == Inst(p.head, link)
    ensures (p.tail, at + ItemSize(p.head)) in c.stretches
    ensures p.head.Label? ==> code[at] == 0x5b && At(link.labels, p.head.l) == at
  {
    assert Placed(p, at, link, code);
    PlacedTail(p, at, link, code);
  }

  /** Decoding placed code stops at its end. */
  lemma {:induction false} PlacedLands(c: Chart, p: Program, at: nat, link: Link, code: seq<Byte>)
    requires Charts(c, link, code) && (p, at) in c.stretches
    ensures Lands(After(code), at, at + Size(p))
    decreases p
  {
    if p.Then? {
      ChartTail(c, p, at, link, code);
      PlacedLands(c, p.tail, at + ItemSize(p.head), link, code);
      LandsStep(After(code), at, at + ItemSize(p.head), at + Size(p));
    }
  }

  /** Control falls through the end, jumps away, or halts. */
  datatype Flow = Falls(s: State) | Jumps(t: State) | Stops(h: Halt)

  /** Executing a list of instructions up to the first taken jump. */
  function Straight(p: Program, link: Link, exec: (Instr, State) -> Outcome, s: State): (r: Flow)
    decreases p
  {
    match p
    case Done => Falls(s)
    case Then(it, t) =>
      match exec(Inst(it, link), s)
      case Halted(h) => Stops(h)
      case Running(next) =>
        if next.pc == s.pc + ItemSize(it) then Straight(t, link, exec, next) else Jumps(next)
  }

  function Executor(code: seq<Byte>, env: Env): (f: (Instr, State) -> Outcome) {
    (i, s) => Exec1(i, code, env, s)
  }

  /** A machine that executes what it fetches. */
  ghost predicate Obeys(step: State -> Outcome, exec: (Instr, State) -> Outcome, code: seq<Byte>) {
    forall s: State, i: Instr {:trigger exec(i, s)} :: s.pc < |code| && Fetch(code, s.pc) == i ==> step(s) == exec(i, s)
  }

  lemma MachineObeys(code: seq<Byte>, env: Env)
    ensures Obeys(Machine(code, env), Executor(code, env), code)
  {
    forall s: State, i: Instr | s.pc < |code| && Fetch(code, s.pc) == i
      ensures Machine(code, env)(s) == Executor(code, env)(i, s)
    {
      assert Machine(code, env)(s) == Step(code, env, s) == Exec1(i, code, env, s);
    }
  }

  /** Executing placed code refines executing its instruction list. */
  lemma {:induction false} StraightRefines(c: Chart, p: Program, link: Link, code: seq<Byte>, step: State -> Outcome,
      exec: (Instr, State) -> Outcome, s: State)
    requires Charts(c, link, code) && (p, s.pc) in c.stretches && Obeys(step, exec, code)
    ensures match Straight(p, link, exec, s)
            case Falls(t) => End(step, s) == End(step, t) && t.pc == s.pc + Size(p)
            case Jumps(t) => End(step, s) == End(step, t)
            case Stops(h) => End(step, s) == Some(h)
    decreases p
  {
    if p.Then? {
      ChartTail(c, p, s.pc, link, code);
      EndStep(step, s);
      var o := exec(Inst(p.head, link), s);
      assert step(s) == o;
      if o.Running? && o.st.pc == s.pc + ItemSize(p.head) {
        StraightRefines(c, p.tail, link, code, step, exec, o.st);
      }
    }
  }

  /** Running the machine through a stretch. */
  lemma RunStretch(c: Chart, p: Program, link: Link, code: seq<Byte>, env: Env, s: State)
    requires Charts(c, link, code) && (p, s.pc) in c.stretches
    ensures match Straight(p, link, Executor(code, env), s)
            case Falls(t) => Final(code, env, s) == Final(code, env, t) && t.pc == s.pc + Size(p)
            case Jumps(t) => Final(code, env, s) == Final(code, env, t)
            case Stops(h) => Final(code, env, s) == Some(h)
  {
    MachineObeys(code, env);
    StraightRefines(c, p, link, code, Machine(code, env), Executor(code, env), s);
  }

  // Hexadecimal: a stretch as one number, so that a given literal can be compared with it.

  datatype Linked = Unlinked | Linked(end: nat, hex: nat)

  function Room(w: nat): (r: nat) {
    match w
    case 0 => 1
    case 1 => 0x100
    case 2 => 0x1_0000
    case 4 => 0x1_0000_0000
    case 20 => ADDRESS_LIMIT
    case 32 => WORD_LIMIT
    case _ => Pow256(w)
  }

  predicate Fits(i: Instr) {
    match i
    case Push(w, v) => w <= 32 && v < Room(w)
    case Dup(depth) => depth < 16
    case Plain(b) => !(0x5f <= b <= 0x8f)
  }

  /** The digits `acc` followed by those of an instruction. */
  function Digits(i: Instr, acc: nat): (r: nat) {
    match i
    case Push(w, v) => (acc * 256 + 0x5f + w) * Room(w) + v
    case Dup(depth) => acc * 256 + 0x80 + depth
    case Plain(b) => acc * 256 + b
  }

  /** Assemble `p` at `at` behind the digits `acc`; Unlinked when it is not sound there. */
  function Hexed(p: Program, at: nat, link: Link, acc: nat): (r: Linked)
    decreases p
  {
    match p
    case Done => Linked(at, acc)
    case Then(it, t) =>
      var i := Inst(it, link);
      if !Fits(i) || (it.Label? && !(it.l < |link.labels| && link.labels[it.l] == at)) then Unlinked
      else Hexed(t, at + ItemSize(it), link, Digits(i, acc))
  }

  lemma RoomIs(w: nat)
    ensures Room(w) == Pow256(w)
  {
    Widths();
  }

  lemma {:induction false} BytesOfShift(a: nat, n: nat, v: nat, w: nat)
    requires v < Pow256(w)
    ensures BytesOf(a * Pow256(w) + v, n + w) == BytesOf(a, n) + BytesOf(v, w)
    decreases w
  {
    if w > 0 {
      var x := a * Pow256(w) + v;
      assert a * Pow256(w) == 256 * (a * Pow256(w - 1)) by { MulShuffle(a, Pow256(w - 1)); }
      assert x / 256 == a * Pow256(w - 1) + v / 256 && x % 256 == v % 256;
      BytesOfShift(a, n, v / 256, w - 1);
      BytesOfStep(x, n + w);
      BytesOfStep(v, w);
    }
  }

  lemma OneDigit(acc: nat, n: nat, b: Byte)
    ensures BytesOf(acc * 256 + b, n + 1) == BytesOf(acc, n) + [b]
  {
    BytesOfStep(acc * 256 + b, n + 1);
  }

  lemma PushDigits(acc: nat, n: nat, w: nat, v: Word)
    requires w <= 32 && v < Room(w)
    ensures BytesOf((acc * 256 + 0x5f + w) * Room(w) + v, n + 1 + w) == BytesOf(acc, n) + ([0x5f + w] + BytesOf(v, w))
  {
    var x := acc * 256 + (0x5f + w);
    OneDigit(acc, n, 0x5f + w);
    RoomIs(w);
    BytesOfShift(x, n + 1, v, w);
    Regroup(BytesOf(acc, n), [0x5f + w], BytesOf(v, w));
  }

  lemma DigitsAre(i: Instr, acc: nat, n: nat)
    requires Fits(i)
    ensures Encodable(i) && BytesOf(Digits(i, acc), n + Length(i)) == BytesOf(acc, n) + Encode(i)
  {
    if i.Push? {
      RoomIs(i.width);
      PushDigits(acc, n, i.width, i.value);
    } else {
      OneDigit(acc, n, if i.Dup? then 0x80 + i.depth else i.op);
    }
  }

  lemma Regroup(x: seq<Byte>, y: seq<Byte>, z: seq<Byte>)
    ensures x + (y + z) == (x + y) + z
  {
  }

  lemma HexedJoin(p: Program, link: Link, first: seq<Byte>, second: seq<Byte>, all: seq<Byte>)
    requires p.Then? && second == first + Encode(Inst(p.head, link)) && all == second + Assemble(p.tail, link)
    ensures all == first + Assemble(p, link)
  {
    Regroup(first, Encode(Inst(p.head, link)), Assemble(p.tail, link));
  }

  /** What `Hexed` computes is the assembled stretch. */
  lemma {:induction false} HexedIs(p: Program, at: nat, link: Link, acc: nat, n: nat)
    requires Hexed(p, at, link, acc).Linked?
    ensures Sound(p, at, link) && Hexed(p, at, link, acc).end == at + Size(p)
    ensures BytesOf(Hexed(p, at, link, acc).hex, n + Size(p)) == BytesOf(acc, n) + Assemble(p, link)
    decreases p
  {
    match p
    case Done =>
    case Then(it, t) =>
      var i := Inst(it, link);
      var next := Digits(i, acc);
      DigitsAre(i, acc, n);
      HexedIs(t, at + ItemSize(it), link, next, n + ItemSize(it));
      HexedJoin(p, link, BytesOf(acc, n), BytesOf(next, n + ItemSize(it)), BytesOf(Hexed(p, at, link, acc).hex, n + Size(p)));
  }

  /** Code whose digits at `at` are those of the stretch `p` has `p` placed there. */
  lemma PlacedHex(p: Program, at: nat, end: nat, hex: nat, link: Link, code: seq<Byte>)
    requires at <= end && Hexed(p, at, link, 0) == Linked(end, hex) && Holds(code, at, BytesOf(hex, end - at))
    ensures Placed(p, at, link, code) && end == at + Size(p)
  {
    HexedIs(p, at, link, 0, 0);
  }

  lemma PlacedFacts(c: Chart, p: Program, at: nat, link: Link, code: seq<Byte>)
    requires Charts(c, link, code) && Placed(p, at, link, code)
    requires Lands(After(code), 0, at)
    ensures (p, at) in c.stretches && Lands(After(code), 0, at + Size(p))
    ensures p.Then? && p.head.Label? ==> at in c.targets
  {
    PlacedLands(c, p, at, link, code);
    LandsTrans(After(code), 0, at, at + Size(p));
    if p.Then? && p.head.Label? {
      ChartTail(c, p, at, link, code);
      assert ValidJump(code, at);
    }
  }

  /** Code that continues at `at` with the digits of a stretch has that stretch there. */
  lemma EnterHex(c: Chart, p: Program, at: nat, end: nat, hex: nat, rest: seq<Byte>, link: Link, code: seq<Byte>)
    requires at <= end && Hexed(p, at, link, 0) == Linked(end, hex)
    requires Charts(c, link, code) && Lands(After(code), 0, at) && Holds(code, at, BytesOf(hex, end - at) + rest)
    ensures (p, at) in c.stretches && Lands(After(code), 0, end) && Holds(code, end, rest)
    ensures p.Then? && p.head.Label? ==> at in c.targets
  {
    HoldsSplit(code, at, BytesOf(hex, end - at), rest);
    PlacedHex(p, at, end, hex, link, code);
    PlacedFacts(c, p, at, link, code);
  }

  /** The machine executes the stretches of the chart. */
  lemma RunPlaced(c: Chart, p: Program, link: Link, code: seq<Byte>, env: Env, s: State)
    requires Charts(c, link, code) && (p, s.pc) in c.stretches
    ensures match Straight(p, link, Executor(code, env), s)
            case Falls(t) => Final(code, env, s) == Final(code, env, t)
            case Jumps(t) => Final(code, env, s) == Final(code, env, t)
            case Stops(h) => Final(code, env, s) == Some(h)
  {
    RunStretch(c, p, link, code, env, s);
  }
}
