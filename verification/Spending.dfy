/** What requests do to token balances. */
module Spending {
  import opened Words
  import opened Ledger
  import opened Supply
  import opened Accounts
  import opened Wire
  import opened Protocol
  import opened ProtocolRuns
  import opened Entrypoint
  import opened AccountHistory

  // Solving: what a target can take.

  /** How much of a token an item takes in all. */
  function Taken(c: Chain, fs: seq<FromArgs>, token: Address): (v: nat) {
    if fs == [] then 0
    else (if c.asset(fs[0].asset) == Some(token) then WordOf(fs[0].toTake) else 0) + Taken(c, fs[1..], token)
  }

  /** How much it takes the last time; None if it never does. */
  function LastTake(c: Chain, fs: seq<FromArgs>, token: Address): (v: Option<Word>) {
    if fs == [] then None
    else
      match LastTake(c, fs[1..], token)
      case Some(v) => Some(v)
      case None => if c.asset(fs[0].asset) == Some(token) then Some(WordOf(fs[0].toTake)) else None
  }

  lemma {:induction false} LastWithinTaken(c: Chain, fs: seq<FromArgs>, token: Address)
    ensures LastTake(c, fs, token).Some? ==> LastTake(c, fs, token).value <= Taken(c, fs, token)
  {
    if fs != [] { LastWithinTaken(c, fs[1..], token); }
  }

  /** What one pull and approval does to the account's balance and to the target's allowance. */
  lemma TakeOne(c: Chain, w: World, a: Address, f: FromArgs, owner: Address, target: Address, token: Address)
    requires Take1(c, w, a, f, owner, target).ok
    ensures var l := Take1(c, w, a, f, owner, target).w.ledger;
            var take := WordOf(f.toTake);
            if c.asset(f.asset) == Some(token) then
              && Balance(l, token, a) == Balance(w.ledger, token, a) + (if owner == a then 0 else take)
              && Allowance(l, token, a, target) == take <= Balance(l, token, a)
            else
              && Balance(l, token, a) == Balance(w.ledger, token, a)
              && Allowance(l, token, a, target) == Allowance(w.ledger, token, a, target)
  {
  }

  /** All pulls and approvals of an item. */
  lemma {:induction false} TakeAll(c: Chain, w: World, a: Address, fs: seq<FromArgs>, owner: Address, target: Address,
        token: Address)
    requires Takes(c, w, a, fs, owner, target).ok
    ensures var l := Takes(c, w, a, fs, owner, target).w.ledger;
            && Balance(l, token, a) == Balance(w.ledger, token, a) + (if owner == a then 0 else Taken(c, fs, token))
            && (match LastTake(c, fs, token)
                case None => Allowance(l, token, a, target) == Allowance(w.ledger, token, a, target)
                case Some(take) => Allowance(l, token, a, target) == take <= Balance(l, token, a))
    decreases fs
  {
    if fs != [] {
      var s := Take1(c, w, a, fs[0], owner, target);
      TakeOne(c, w, a, fs[0], owner, target, token);
      TakeAll(c, s.w, a, fs[1..], owner, target, token);
    }
  }

  lemma {:induction false} PermitsMoveNothing(c: Chain, w: World, a: Address, ps: seq<Permit>, owner: Address,
        accepted: seq<bool>)
    ensures Permits(c, w, a, ps, owner, accepted).w.ledger.balances == w.ledger.balances
    decreases ps
  {
    if ps != [] && accepted != [] {
      PermitsMoveNothing(c, Permit1(c, w, a, ps[0].asset, owner, accepted[0]).w, a, ps[1..], owner, accepted[1..]);
    }
  }

  /** The parts of an item that matter to the ledger. */
  lemma PrepareParts(c: Chain, w: World, a: Address, x: SolveArgs, permitOwner: Address, transferOwner: Address,
        reply: Reply) returns (u: World)
    requires Prepare(c, w, a, x, permitOwner, transferOwner, reply).ok
    ensures u.ledger.balances == w.ledger.balances
    ensures var takes := Takes(c, u, a, x.from, transferOwner, AddressOf(x.target));
            takes.ok && Prepare(c, w, a, x, permitOwner, transferOwner, reply).w.ledger == takes.w.ledger
  {
    var spent := Raise(c, w, Spent(a, NonceOf(x.msTs)));
    var permits := Permits(c, spent.w, a, x.permit, permitOwner, reply.permits);
    var permitted := Join(spent, permits);
    var takes := Takes(c, permitted.w, a, x.from, transferOwner, AddressOf(x.target));
    var taken := Join(permitted, takes);
    PermitsMoveNothing(c, spent.w, a, x.permit, permitOwner, reply.permits);
    JoinBoth(taken, CallOut(c, taken.w, a, AddressOf(x.target), reply));
    JoinBoth(permitted, takes);
    JoinBoth(spent, permits);
    u := permitted.w;
  }

  lemma JoinBoth(s: Step, t: Step)
    requires Join(s, t).ok
    ensures s.ok && t.ok && Join(s, t).w == t.w
  {
  }

  lemma JoinOk(s: Step, t: Step)
    ensures s.ok ==> Join(s, t).ok == t.ok && Join(s, t).w == t.w
    ensures !s.ok ==> !Join(s, t).ok
  {
  }

  /** When the target is called, the account has what it had and what was pulled, and the target may
      take what was pulled last. */
  lemma Prepared(c: Chain, w: World, a: Address, x: SolveArgs, permitOwner: Address, transferOwner: Address,
        reply: Reply, token: Address)
    requires Prepare(c, w, a, x, permitOwner, transferOwner, reply).ok
    ensures var l := Prepare(c, w, a, x, permitOwner, transferOwner, reply).w.ledger;
            && Balance(l, token, a) == Balance(w.ledger, token, a) + (if transferOwner == a then 0 else Taken(c, x.from, token))
            && (match LastTake(c, x.from, token)
                case None => true
                case Some(take) => Allowance(l, token, a, AddressOf(x.target)) == take <= Balance(l, token, a))
  {
    var u := PrepareParts(c, w, a, x, permitOwner, transferOwner, reply);
    TakeAll(c, u, a, x.from, transferOwner, AddressOf(x.target), token);
  }

  /** The operations on tokens in a log. */
  function Ops(log: seq<Event>): (ops: seq<TokenOp>) {
    if log == [] then [] else (if log[0].Token? then [log[0].op] else []) + Ops(log[1..])
  }

  /** Whatever else happens, the ledger is moved by the operations on tokens alone. */
  lemma {:induction false} LogLedger(c: Chain, w: World, log: seq<Event>)
    requires Runs(c, w, log)
    ensures Replay(c, w, log).ledger == DoAll(c.unlimited, w.ledger, Ops(log))
    decreases |log|
  {
    if log != [] {
      var next := Apply(c, w, log[0]);
      LogLedger(c, next, log[1..]);
      if log[0].Token? {
        assert Ops(log)[0] == log[0].op && Ops(log)[1..] == Ops(log[1..]);
      } else {
        assert next.ledger == w.ledger && Ops(log) == Ops(log[1..]);
      }
    }
  }

  /** Every operation on tokens in the log touches `holder` only through the allowance of `spender`. */
  ghost predicate Gentle(log: seq<Event>, holder: Address, spender: Address) {
    forall i :: 0 <= i < |log| && log[i].Token? ==> ThroughAllowance(log[i].op, holder, spender)
  }

  lemma {:induction false} GentleOps(log: seq<Event>, holder: Address, spender: Address, op: TokenOp)
    requires Gentle(log, holder, spender) && op in Ops(log)
    ensures ThroughAllowance(op, holder, spender)
  {
    assert Gentle(log[1..], holder, spender);
    if op in Ops(log[1..]) {
      GentleOps(log[1..], holder, spender, op);
    }
  }

  /** What the world does while an item's target runs. */
  function Meanwhile(c: Chain, w: World, a: Address, x: SolveArgs, permitOwner: Address, transferOwner: Address,
      reply: Reply): (log: seq<Event>)
  {
    Acts(c, Prepare(c, w, a, x, permitOwner, transferOwner, reply).w, reply.acts).log
  }

  /** The account does not end far below what it had when the target was called. */
  lemma TargetTakes(c: Chain, w: World, a: Address, x: SolveArgs, permitOwner: Address, transferOwner: Address,
      reply: Reply, token: Address)
    requires Item(c, w, a, x, permitOwner, transferOwner, reply).ok
    requires Gentle(Meanwhile(c, w, a, x, permitOwner, transferOwner, reply), a, AddressOf(x.target))
    ensures var l := Prepare(c, w, a, x, permitOwner, transferOwner, reply).w.ledger;
            Balance(Item(c, w, a, x, permitOwner, transferOwner, reply).w.ledger, token, a) >=
            Balance(l, token, a) - Allowance(l, token, a, AddressOf(x.target))
  {
    var ready := Prepare(c, w, a, x, permitOwner, transferOwner, reply);
    var log := Meanwhile(c, w, a, x, permitOwner, transferOwner, reply);
    ActsSound(c, ready.w, reply.acts);
    LogLedger(c, ready.w, log);
    forall op | op in Ops(log) ensures ThroughAllowance(op, a, AddressOf(x.target)) {
      GentleOps(log, a, AddressOf(x.target), op);
    }
    WithinAllowance(c.unlimited, ready.w.ledger, Ops(log), token, a, AddressOf(x.target));
  }

  /** An item that commits, whose target does anything at all, sends any messages, but lets the tokens of
      the account move only through its own allowance: for every token pulled from someone else, the
      account ends with at least what it had plus all that was pulled but the last pull, so never with
      less than it had. */
  lemma BalanceFloor(c: Chain, w: World, a: Address, x: SolveArgs, permitOwner: Address, transferOwner: Address,
      reply: Reply, token: Address)
    requires Item(c, w, a, x, permitOwner, transferOwner, reply).ok && transferOwner != a
    requires Gentle(Meanwhile(c, w, a, x, permitOwner, transferOwner, reply), a, AddressOf(x.target))
    requires LastTake(c, x.from, token).Some?
    ensures Balance(Item(c, w, a, x, permitOwner, transferOwner, reply).w.ledger, token, a) >=
            Balance(w.ledger, token, a) + Taken(c, x.from, token) - LastTake(c, x.from, token).value >=
            Balance(w.ledger, token, a)
  {
    Prepared(c, w, a, x, permitOwner, transferOwner, reply, token);
    TargetTakes(c, w, a, x, permitOwner, transferOwner, reply, token);
    LastWithinTaken(c, x.from, token);
  }

  /** An item that commits leaves the account at least the stated minimum of every asset pulled. */
  lemma MinimumKept(c: Chain, w: World, a: Address, x: SolveArgs, permitOwner: Address, transferOwner: Address,
      reply: Reply, i: nat)
    requires Item(c, w, a, x, permitOwner, transferOwner, reply).ok && i < |x.from|
    ensures Kept1(c, Item(c, w, a, x, permitOwner, transferOwner, reply).w, a, x.from[i])
  {
  }

  /** The item with a target that does `acts` and succeeds. */
  function With(reply: Reply, acts: seq<Act>): (r: Reply) {
    reply.(acts := acts, ok := true)
  }

  lemma PreparedAlike(c: Chain, w: World, a: Address, x: SolveArgs, permitOwner: Address, transferOwner: Address,
      reply: Reply, acts: seq<Act>)
    ensures Prepare(c, w, a, x, permitOwner, transferOwner, With(reply, acts)) ==
            Prepare(c, w, a, x, permitOwner, transferOwner, reply)
  {
  }

  lemma ItemWith(c: Chain, w: World, a: Address, x: SolveArgs, permitOwner: Address, transferOwner: Address,
      reply: Reply, acts: seq<Act>)
    requires Prepare(c, w, a, x, permitOwner, transferOwner, reply).ok
    ensures var done := Acts(c, Prepare(c, w, a, x, permitOwner, transferOwner, reply).w, acts);
            var s := Item(c, w, a, x, permitOwner, transferOwner, With(reply, acts));
            && s.w == done.w && (s.ok <==> Kept(c, done.w, a, x.from))
            && Meanwhile(c, w, a, x, permitOwner, transferOwner, With(reply, acts)) == done.log
  {
    PreparedAlike(c, w, a, x, permitOwner, transferOwner, reply, acts);
    ActsSound(c, Prepare(c, w, a, x, permitOwner, transferOwner, reply).w, acts);
  }

  /** Whatever such a target does, if the item commits the account has what it had. */
  ghost predicate NeverLess(c: Chain, w: World, a: Address, x: SolveArgs, permitOwner: Address, transferOwner: Address,
      reply: Reply, token: Address)
  {
    forall acts ::
      var r := With(reply, acts);
      Item(c, w, a, x, permitOwner, transferOwner, r).ok &&
      Gentle(Meanwhile(c, w, a, x, permitOwner, transferOwner, r), a, AddressOf(x.target)) ==>
        Balance(Item(c, w, a, x, permitOwner, transferOwner, r).w.ledger, token, a) >= Balance(w.ledger, token, a)
  }

  /** Some entry of the token asks that the account keep at least `v` of it. */
  predicate Insists(c: Chain, fs: seq<FromArgs>, token: Address, v: Word) {
    exists i :: 0 <= i < |fs| && c.asset(fs[i].asset) == Some(token) && WordOf(fs[i].maxUnspent) >= v
  }

  /** What keeps an item safe from such targets: the tokens come from someone else, or none are pulled the
      last time, or the item insists on the balance before. */
  predicate SafeItem(c: Chain, w: World, a: Address, x: SolveArgs, transferOwner: Address, token: Address)
    requires LastTake(c, x.from, token).Some?
  {
    || transferOwner != a
    || LastTake(c, x.from, token).value == 0
    || Insists(c, x.from, token, Balance(w.ledger, token, a))
  }

  lemma SafeIsEnough(c: Chain, w: World, a: Address, x: SolveArgs, permitOwner: Address, transferOwner: Address,
      reply: Reply, token: Address)
    requires Item(c, w, a, x, permitOwner, transferOwner, reply).ok && LastTake(c, x.from, token).Some?
    requires Gentle(Meanwhile(c, w, a, x, permitOwner, transferOwner, reply), a, AddressOf(x.target))
    requires SafeItem(c, w, a, x, transferOwner, token)
    ensures Balance(Item(c, w, a, x, permitOwner, transferOwner, reply).w.ledger, token, a) >= Balance(w.ledger, token, a)
  {
    if transferOwner != a {
      BalanceFloor(c, w, a, x, permitOwner, transferOwner, reply, token);
    } else if LastTake(c, x.from, token).value == 0 {
      Prepared(c, w, a, x, permitOwner, transferOwner, reply, token);
      TargetTakes(c, w, a, x, permitOwner, transferOwner, reply, token);
    } else {
      var i :| 0 <= i < |x.from| && c.asset(x.from[i].asset) == Some(token) &&
               WordOf(x.from[i].maxUnspent) >= Balance(w.ledger, token, a);
      MinimumKept(c, w, a, x, permitOwner, transferOwner, reply, i);
    }
  }

  /** An operation on tokens that succeeds, as all that a target does. */
  lemma OneOp(c: Chain, w: World, op: TokenOp)
    requires Do(c.unlimited, w.ledger, op).Some?
    ensures Acts(c, w, [Tokens(op)]) == Step(true, Apply(c, w, Token(op)), [Token(op)], [])
  {
    var s := Perform(c, w, Tokens(op));
    assert [Tokens(op)][1..] == [];
    assert s == Step(true, Apply(c, w, Token(op)), [Token(op)], []);
    assert Acts(c, s.w, []) == Skip(s.w);
  }

  lemma TakeSome(unlimited: Address -> bool, l: Books, token: Address, holder: Address, spender: Address,
      other: Address, amt: Word)
    requires other != holder && Balance(l, token, other) + amt <= MAX
    requires amt <= Allowance(l, token, holder, spender) && amt <= Balance(l, token, holder)
    ensures var r := Do(unlimited, l, Pull(token, spender, holder, other, amt));
            && r.Some?
            && Balance(r.value, token, holder) == Balance(l, token, holder) - amt
            && forall t :: t != token ==> Balance(r.value, t, holder) == Balance(l, t, holder)
  {
  }

  /** The minima would still be kept with `amt` of a token less. */
  predicate Spares(c: Chain, l: Books, a: Address, fs: seq<FromArgs>, token: Address, amt: Word) {
    forall i :: 0 <= i < |fs| ==>
      match c.asset(fs[i].asset)
      case None => false
      case Some(t) => WordOf(fs[i].maxUnspent) <= Balance(l, t, a) - (if t == token then amt else 0)
  }

  lemma KeptAfterTaking(c: Chain, w: World, done: World, a: Address, fs: seq<FromArgs>, token: Address, amt: Word)
    requires Spares(c, w.ledger, a, fs, token, amt)
    requires Balance(done.ledger, token, a) == Balance(w.ledger, token, a) - amt
    requires forall t :: t != token ==> Balance(done.ledger, t, a) == Balance(w.ledger, t, a)
    ensures Kept(c, done, a, fs)
  {
  }

  /** An item whose target takes `amt` of a token and does nothing else. */
  lemma TakingTarget(c: Chain, w: World, a: Address, x: SolveArgs, permitOwner: Address, transferOwner: Address,
      reply: Reply, token: Address, other: Address, amt: Word)
    requires Prepare(c, w, a, x, permitOwner, transferOwner, reply).ok && other != a
    requires var l := Prepare(c, w, a, x, permitOwner, transferOwner, reply).w.ledger;
             && Balance(l, token, other) + amt <= MAX
             && amt <= Allowance(l, token, a, AddressOf(x.target)) && amt <= Balance(l, token, a)
             && Spares(c, l, a, x.from, token, amt)
    ensures var r := With(reply, [Tokens(Pull(token, AddressOf(x.target), a, other, amt))]);
            && Item(c, w, a, x, permitOwner, transferOwner, r).ok
            && Gentle(Meanwhile(c, w, a, x, permitOwner, transferOwner, r), a, AddressOf(x.target))
            && Balance(Item(c, w, a, x, permitOwner, transferOwner, r).w.ledger, token, a) ==
               Balance(Prepare(c, w, a, x, permitOwner, transferOwner, reply).w.ledger, token, a) - amt
  {
    var ready := Prepare(c, w, a, x, permitOwner, transferOwner, reply);
    var op := Pull(token, AddressOf(x.target), a, other, amt);
    ItemWith(c, w, a, x, permitOwner, transferOwner, reply, [Tokens(op)]);
    TakeSome(c.unlimited, ready.w.ledger, token, a, AddressOf(x.target), other, amt);
    OneOp(c, ready.w, op);
    KeptAfterTaking(c, ready.w, Apply(c, ready.w, Token(op)), a, x.from, token, amt);
  }

  /** Some minimum is beyond all there is of its token, so that the item cannot commit. */
  ghost predicate Hopeless(c: Chain, l: Books, fs: seq<FromArgs>) {
    exists i :: 0 <= i < |fs| && BeyondSupply(c, l, fs[i])
  }

  ghost predicate BeyondSupply(c: Chain, l: Books, f: FromArgs) {
    match c.asset(f.asset)
    case None => true
    case Some(token) => WordOf(f.maxUnspent) > SupplyOf(l, token)
  }

  lemma LogKeepsSupply(c: Chain, w: World, log: seq<Event>, token: Address)
    requires Runs(c, w, log)
    ensures SupplyOf(Replay(c, w, log).ledger, token) == SupplyOf(w.ledger, token)
  {
    LogLedger(c, w, log);
    SupplyKept(c.unlimited, w.ledger, Ops(log), token);
  }

  lemma CommitsWithinSupply(c: Chain, w: World, a: Address, x: SolveArgs, permitOwner: Address, transferOwner: Address,
      reply: Reply)
    requires Item(c, w, a, x, permitOwner, transferOwner, reply).ok
    ensures !Hopeless(c, w.ledger, x.from)
  {
    var s := Item(c, w, a, x, permitOwner, transferOwner, reply);
    ItemSound(c, w, a, x, permitOwner, transferOwner, reply);
    forall i | 0 <= i < |x.from| ensures !BeyondSupply(c, w.ledger, x.from[i]) {
      MinimumKept(c, w, a, x, permitOwner, transferOwner, reply, i);
      var token := c.asset(x.from[i].asset).value;
      HasAtMostSupply(s.w.ledger, token, a);
      LogKeepsSupply(c, w, s.log, token);
    }
  }

  /** Acts that are operations on tokens. */
  function AsActs(ops: seq<TokenOp>): (acts: seq<Act>)
    ensures |acts| == |ops|
  {
    seq(|ops|, i requires 0 <= i < |ops| => Tokens(ops[i]))
  }

  lemma {:induction false} TokenActs(c: Chain, w: World, ops: seq<TokenOp>, holder: Address, spender: Address)
    requires forall i :: 0 <= i < |ops| ==> ThroughAllowance(ops[i], holder, spender)
    ensures Acts(c, w, AsActs(ops)).w == w.(ledger := DoAll(c.unlimited, w.ledger, ops))
    ensures Gentle(Acts(c, w, AsActs(ops)).log, holder, spender)
    decreases ops
  {
    if ops != [] {
      var acts := AsActs(ops);
      assert acts[0] == Tokens(ops[0]) && acts[1..] == AsActs(ops[1..]);
      var s := Perform(c, w, acts[0]);
      TokenActs(c, s.w, ops[1..], holder, spender);
    }
  }

  /** The tokens an item has minima for. */
  function Assets(c: Chain, fs: seq<FromArgs>): (ts: set<Address>) {
    set i | 0 <= i < |fs| && c.asset(fs[i].asset).Some? :: c.asset(fs[i].asset).value
  }

  /** Books with which the account keeps its minima although one token is missing. */
  lemma MinimaMet(c: Chain, m: Books, end: World, a: Address, fs: seq<FromArgs>, token: Address, l: Books)
    requires !Hopeless(c, l, fs) && !Insists(c, fs, token, Balance(l, token, a))
    requires forall t :: t in Assets(c, fs) - {token} ==> Balance(m, t, a) == SupplyOf(l, t)
    requires Balance(end.ledger, token, a) >= Balance(l, token, a) - 1
    requires forall t :: t != token ==> Balance(end.ledger, t, a) == Balance(m, t, a)
    ensures Kept(c, end, a, fs)
  {
    forall i | 0 <= i < |fs| ensures Kept1(c, end, a, fs[i]) {
      assert !BeyondSupply(c, l, fs[i]);
      var t := c.asset(fs[i].asset).value;
      if t != token { assert t in Assets(c, fs) - {token}; }
    }
  }

  /** Everyone pays in all they have of the other assets, and then the target takes one token. */
  lemma LosingOps(unlimited: Address -> bool, l: Books, tokens: set<Address>, a: Address, target: Address,
      token: Address)
    returns (ops: seq<TokenOp>, m: Books)
    requires SuppliesFit(l) && token !in tokens && Allowance(l, token, a, target) >= 1 && Balance(l, token, a) >= 1
    ensures forall i :: 0 <= i < |ops| ==> ThroughAllowance(ops[i], a, target)
    ensures forall t :: t in tokens ==> Balance(m, t, a) == SupplyOf(l, t)
    ensures var end := DoAll(unlimited, l, ops);
            && Balance(end, token, a) == Balance(l, token, a) - 1
            && forall t :: t != token ==> Balance(end, t, a) == Balance(m, t, a)
  {
    var gifts := GatherSupplies(unlimited, l, tokens, a);
    m := DoAll(unlimited, l, gifts);
    FitsStill(unlimited, l, gifts);
    var other: Address := if a == 0 then 1 else 0;
    TwoHaveAtMostSupply(m, token, other, a);
    assert SupplyOf(m, token) <= MAX;
    var take := Pull(token, target, a, other, 1);
    TakeSome(unlimited, m, token, a, target, other, 1);
    ops := gifts + [take];
    DoAllThen(unlimited, l, gifts, [take]);
    assert [take][1..] == [];
  }

  lemma UnsafeLoses(c: Chain, w: World, a: Address, x: SolveArgs, permitOwner: Address, transferOwner: Address,
      reply: Reply, token: Address)
    requires Prepare(c, w, a, x, permitOwner, transferOwner, reply).ok && LastTake(c, x.from, token).Some?
    requires SuppliesFit(w.ledger)
    requires !SafeItem(c, w, a, x, transferOwner, token) && !Hopeless(c, w.ledger, x.from)
    ensures !NeverLess(c, w, a, x, permitOwner, transferOwner, reply, token)
  {
    var ready := Prepare(c, w, a, x, permitOwner, transferOwner, reply);
    Prepared(c, w, a, x, permitOwner, transferOwner, reply, token);
    PrepareSound(c, w, a, x, permitOwner, transferOwner, reply);
    forall t: Address ensures SupplyOf(ready.w.ledger, t) == SupplyOf(w.ledger, t) { LogKeepsSupply(c, w, ready.log, t); }
    var tokens := Assets(c, x.from) - {token};
    var ops, m := LosingOps(c.unlimited, ready.w.ledger, tokens, a, AddressOf(x.target), token);
    TokenActs(c, ready.w, ops, a, AddressOf(x.target));
    var acts := AsActs(ops);
    var end := Acts(c, ready.w, acts).w;
    MinimaMet(c, m, end, a, x.from, token, w.ledger);
    ItemWith(c, w, a, x, permitOwner, transferOwner, reply, acts);
    assert Balance(Item(c, w, a, x, permitOwner, transferOwner, With(reply, acts)).w.ledger, token, a) <
           Balance(w.ledger, token, a);
  }

  /** An item that gets as far as its target is safe from every target that moves the account's tokens only
      through its own allowance exactly when the tokens come from someone other than the account, or
      nothing is pulled the last time, or the item insists on the balance before, or it insists on more
      than there is of some token and so never commits. */
  lemma FloorExactly(c: Chain, w: World, a: Address, x: SolveArgs, permitOwner: Address, transferOwner: Address,
      reply: Reply, token: Address)
    requires Prepare(c, w, a, x, permitOwner, transferOwner, reply).ok && LastTake(c, x.from, token).Some?
    requires SuppliesFit(w.ledger)
    ensures NeverLess(c, w, a, x, permitOwner, transferOwner, reply, token) <==>
            (SafeItem(c, w, a, x, transferOwner, token) || Hopeless(c, w.ledger, x.from))
  {
    if SafeItem(c, w, a, x, transferOwner, token) || Hopeless(c, w.ledger, x.from) {
      forall acts |
        var r := With(reply, acts);
        Item(c, w, a, x, permitOwner, transferOwner, r).ok &&
        Gentle(Meanwhile(c, w, a, x, permitOwner, transferOwner, r), a, AddressOf(x.target))
        ensures Balance(Item(c, w, a, x, permitOwner, transferOwner, With(reply, acts)).w.ledger, token, a) >=
                Balance(w.ledger, token, a)
      {
        CommitsWithinSupply(c, w, a, x, permitOwner, transferOwner, With(reply, acts));
        SafeIsEnough(c, w, a, x, permitOwner, transferOwner, With(reply, acts), token);
      }
    } else {
      UnsafeLoses(c, w, a, x, permitOwner, transferOwner, reply, token);
    }
  }

  // Solving: permits are all the approval an item needs.

  /** The owner has of the token what the pulls need, lets the account take it, and the account has room. */
  ghost predicate Covers(c: Chain, l: Books, a: Address, fs: seq<FromArgs>, owner: Address, token: Address) {
    && Taken(c, fs, token) <= Balance(l, token, owner)
    && Taken(c, fs, token) <= Allowance(l, token, owner, a)
    && Balance(l, token, a) + Balance(l, token, owner) <= MAX
  }

  ghost predicate Covered(c: Chain, l: Books, a: Address, fs: seq<FromArgs>, owner: Address) {
    forall token :: Covers(c, l, a, fs, owner, token)
  }

  predicate AssetsKnown(c: Chain, fs: seq<FromArgs>) {
    forall i :: 0 <= i < |fs| ==> c.asset(fs[i].asset).Some?
  }

  lemma TakeWorks(c: Chain, w: World, a: Address, fs: seq<FromArgs>, owner: Address, target: Address, token: Address)
    requires owner != a && fs != [] && c.asset(fs[0].asset).Some?
    requires Covers(c, w.ledger, a, fs, owner, c.asset(fs[0].asset).value) && Covers(c, w.ledger, a, fs, owner, token)
    ensures var s := Take1(c, w, a, fs[0], owner, target);
            s.ok && Covers(c, s.w.ledger, a, fs[1..], owner, token)
  {
    var pulled, take := c.asset(fs[0].asset).value, WordOf(fs[0].toTake);
    var op := Pull(pulled, a, owner, a, take);
    PullWorks(c.unlimited, w.ledger, op, token);
  }

  lemma PullWorks(unlimited: Address -> bool, l: Books, op: TokenOp, token: Address)
    requires op.Pull? && op.from != op.recipient && op.spender == op.recipient
    requires op.amt <= Balance(l, op.token, op.from) && op.amt <= Allowance(l, op.token, op.from, op.spender)
    requires Balance(l, op.token, op.recipient) + Balance(l, op.token, op.from) <= MAX
    ensures Do(unlimited, l, op).Some?
    ensures var next, amt := Do(unlimited, l, op).value, if op.token == token then op.amt else 0;
            && Balance(next, token, op.from) == Balance(l, token, op.from) - amt
            && Balance(next, token, op.recipient) == Balance(l, token, op.recipient) + amt
            && Allowance(next, token, op.from, op.spender) >= Allowance(l, token, op.from, op.spender) - amt
  {
  }

  lemma {:induction false} TakesWork(c: Chain, w: World, a: Address, fs: seq<FromArgs>, owner: Address, target: Address)
    requires owner != a && AssetsKnown(c, fs) && Covered(c, w.ledger, a, fs, owner)
    ensures var s := Takes(c, w, a, fs, owner, target);
            s.ok && s.w.accounts == w.accounts && s.w.registries == w.registries
    decreases fs
  {
    if fs != [] {
      var s := Take1(c, w, a, fs[0], owner, target);
      forall token ensures s.ok && Covers(c, s.w.ledger, a, fs[1..], owner, token) {
        TakeWorks(c, w, a, fs, owner, target, token);
      }
      TakeWorks(c, w, a, fs, owner, target, c.asset(fs[0].asset).value);
      TakesWork(c, s.w, a, fs[1..], owner, target);
    }
  }

  /** Every permit is for a known asset and is accepted. */
  predicate Accepted(c: Chain, ps: seq<Permit>, accepted: seq<bool>) {
    |ps| <= |accepted| && forall i :: 0 <= i < |ps| ==> c.asset(ps[i].asset).Some? && accepted[i]
  }

  predicate PermitFor(c: Chain, ps: seq<Permit>, token: Address) {
    exists i :: 0 <= i < |ps| && c.asset(ps[i].asset) == Some(token)
  }

  lemma {:induction false} PermitsGrant(c: Chain, w: World, a: Address, ps: seq<Permit>, owner: Address,
        accepted: seq<bool>, token: Address)
    requires Accepted(c, ps, accepted)
    ensures var s := Permits(c, w, a, ps, owner, accepted);
            && s.ok && s.w.accounts == w.accounts && s.w.registries == w.registries
            && s.w.ledger.balances == w.ledger.balances
            && Allowance(s.w.ledger, token, owner, a) == (if PermitFor(c, ps, token) then MAX else Allowance(w.ledger, token, owner, a))
    decreases ps
  {
    if ps != [] {
      var s := Permit1(c, w, a, ps[0].asset, owner, accepted[0]);
      PermitsGrant(c, s.w, a, ps[1..], owner, accepted[1..], token);
      assert PermitFor(c, ps, token) <==> c.asset(ps[0].asset) == Some(token) || PermitFor(c, ps[1..], token) by {
        if i :| 0 < i < |ps| && c.asset(ps[i].asset) == Some(token) { assert ps[1..][i - 1] == ps[i]; }
      }
    }
  }

  lemma {:induction false} NotTaken(c: Chain, fs: seq<FromArgs>, token: Address)
    requires forall i :: 0 <= i < |fs| ==> c.asset(fs[i].asset) != Some(token)
    ensures Taken(c, fs, token) == 0
  {
    if fs != [] { NotTaken(c, fs[1..], token); }
  }

  /** Every asset that the item pulls comes with a permit, and its owner can afford the pulls. */
  ghost predicate Funded(c: Chain, l: Books, a: Address, x: SolveArgs, owner: Address) {
    && owner != a && AssetsKnown(c, x.from)
    && (forall i :: 0 <= i < |x.from| && c.asset(x.from[i].asset).Some? ==> PermitFor(c, x.permit, c.asset(x.from[i].asset).value))
    && (forall token :: Taken(c, x.from, token) <= Balance(l, token, owner) && Balance(l, token, a) + Balance(l, token, owner) <= MAX)
  }

  lemma FundedIsCovered(c: Chain, w: World, a: Address, x: SolveArgs, owner: Address, reply: Reply)
    requires Funded(c, w.ledger, a, x, owner) && Accepted(c, x.permit, reply.permits)
    ensures Covered(c, Permits(c, w, a, x.permit, owner, reply.permits).w.ledger, a, x.from, owner)
  {
    var l := Permits(c, w, a, x.permit, owner, reply.permits).w.ledger;
    forall token ensures Covers(c, l, a, x.from, owner, token) {
      PermitsGrant(c, w, a, x.permit, owner, reply.permits, token);
      if !PermitFor(c, x.permit, token) {
        NotTaken(c, x.from, token);
      }
    }
  }

  /** An item with an unused nonce whose permits are accepted, which pulls only what it has permits for,
      and whose owner can afford it, reaches its target exactly when the account has no authority or one that
      allows the target: no approval has to be given beforehand. */
  lemma PermitsSuffice(c: Chain, w: World, a: Address, x: SolveArgs, owner: Address, reply: Reply)
    requires Separated(c) && a in w.accounts && !Used(c, w, a, NonceOf(x.msTs))
    requires Accepted(c, x.permit, reply.permits) && Funded(c, w.ledger, a, x, owner)
    ensures Prepare(c, w, a, x, owner, owner, reply).ok <==> MayCall(w, a, reply)
  {
    var target := AddressOf(x.target);
    var spent := Raise(c, w, Spent(a, NonceOf(x.msTs)));
    var permits := Permits(c, spent.w, a, x.permit, owner, reply.permits);
    var takes := Takes(c, permits.w, a, x.from, owner, target);
    FundedIsCovered(c, spent.w, a, x, owner, reply);
    PermitsGrant(c, spent.w, a, x.permit, owner, reply.permits, 0);
    TakesWork(c, permits.w, a, x.from, owner, target);
    SpentKeepsAuthority(c, w, a, NonceOf(x.msTs), takes.w, reply);
    JoinOk(spent, permits);
    JoinOk(Join(spent, permits), takes);
    JoinOk(Join(Join(spent, permits), takes), CallOut(c, takes.w, a, target, reply));
  }

  lemma SpentKeepsAuthority(c: Chain, w: World, a: Address, nonce: Word, u: World, reply: Reply)
    requires Separated(c) && Enabled(c, w, Spent(a, nonce))
    requires u.accounts == Apply(c, w, Spent(a, nonce)).accounts && u.registries == w.registries
    ensures Admits(u, a, reply) == Admits(w, a, reply) && Permitted(u, a, reply.codeHash) == Permitted(w, a, reply.codeHash)
  {
    assert !Flat(NonceSlot(c, nonce));
  }

  // The payment for gas.

  /** What a SolveV3 pays for gas goes from the owner to the clearinghouse, and nothing else moves. */
  lemma GasIsPaid(c: Chain, w: World, a: Address, x: SolveV3Args, accepted: bool, token: Address, h: Address)
    requires PayGas(c, w, a, x, accepted).ok
    ensures var amt := if c.asset(x.gasToken) == Some(token) then x.gasTokenAmt else 0;
            Balance(PayGas(c, w, a, x, accepted).w.ledger, token, h) ==
            Balance(w.ledger, token, h) + (if h == c.clearinghouse then amt else 0) - (if h == OwnerOf(w, a) then amt else 0)
  {
    var owner := OwnerOf(w, a);
    var s := if x.gasTokenPermit.Some? then Permit1(c, w, a, x.gasToken, owner, accepted) else Skip(w);
    assert s.w.ledger.balances == w.ledger.balances;
    PullOne(c.unlimited, s.w.ledger, Pull(c.asset(x.gasToken).value, a, owner, c.clearinghouse, x.gasTokenAmt), token, h);
  }

  // Transfers.

  function Sent(c: Chain, ts: seq<Transfer>, token: Address, h: Address): (v: nat) {
    if ts == [] then 0
    else (if c.asset(ts[0].asset) == Some(token) && AddressOf(ts[0].from) == h then WordOf(ts[0].amt) else 0) + Sent(c, ts[1..], token, h)
  }

  function Received(c: Chain, ts: seq<Transfer>, token: Address, h: Address): (v: nat) {
    if ts == [] then 0
    else (if c.asset(ts[0].asset) == Some(token) && AddressOf(ts[0].recipient) == h then WordOf(ts[0].amt) else 0) + Received(c, ts[1..], token, h)
  }

  lemma PullOne(unlimited: Address -> bool, l: Books, op: TokenOp, token: Address, h: Address)
    requires op.Pull? && Do(unlimited, l, op).Some?
    ensures Balance(Do(unlimited, l, op).value, token, h) == Balance(l, token, h) +
            (if op.token == token && op.recipient == h then op.amt else 0) - (if op.token == token && op.from == h then op.amt else 0)
  {
  }

  lemma TransferOne(c: Chain, w: World, a: Address, t: Transfer, accepted: bool, token: Address, h: Address)
    requires Transfer1(c, w, a, t, accepted).ok
    ensures Balance(Transfer1(c, w, a, t, accepted).w.ledger, token, h) ==
            Balance(w.ledger, token, h) + Received(c, [t], token, h) - Sent(c, [t], token, h)
  {
    assert [t][1..] == [];
    var s := if t.permit.Some? then Permit1(c, w, a, t.asset, AddressOf(t.from), accepted) else Skip(w);
    assert s.w.ledger.balances == w.ledger.balances;
    var op := Pull(c.asset(t.asset).value, a, AddressOf(t.from), AddressOf(t.recipient), WordOf(t.amt));
    PullOne(c.unlimited, s.w.ledger, op, token, h);
  }

  lemma {:induction false} TransferEach(c: Chain, w: World, a: Address, ts: seq<Transfer>, accepted: seq<bool>,
        token: Address, h: Address)
    requires Transfers(c, w, a, ts, accepted).ok
    ensures Balance(Transfers(c, w, a, ts, accepted).w.ledger, token, h) ==
            Balance(w.ledger, token, h) + Received(c, ts, token, h) - Sent(c, ts, token, h)
    decreases ts
  {
    if ts != [] {
      var s := Transfer1(c, w, a, ts[0], accepted[0]);
      TransferOne(c, w, a, ts[0], accepted[0], token, h);
      assert [ts[0]][1..] == [];
      TransferEach(c, s.w, a, ts[1..], accepted[1..], token, h);
    }
  }

  predicate PartyTo(ts: seq<Transfer>, holders: set<Address>) {
    forall t :: t in ts ==> AddressOf(t.from) in holders && AddressOf(t.recipient) in holders
  }

  lemma TransferKeepsTotal(c: Chain, w: World, a: Address, t: Transfer, accepted: bool, token: Address,
        holders: set<Address>)
    requires Transfer1(c, w, a, t, accepted).ok && AddressOf(t.from) in holders && AddressOf(t.recipient) in holders
    ensures Total(Transfer1(c, w, a, t, accepted).w.ledger, token, holders) == Total(w.ledger, token, holders)
  {
    var moved := c.asset(t.asset).value;
    var s := if t.permit.Some? then Permit1(c, w, a, t.asset, AddressOf(t.from), accepted) else Skip(w);
    TotalSame(w.ledger, s.w.ledger, token, holders);
    PullKeepsTotal(c.unlimited, s.w.ledger, Pull(moved, a, AddressOf(t.from), AddressOf(t.recipient), WordOf(t.amt)), token, holders);
  }

  lemma {:induction false} TransfersKeepTotal(c: Chain, w: World, a: Address, ts: seq<Transfer>, accepted: seq<bool>,
        token: Address, holders: set<Address>)
    requires Transfers(c, w, a, ts, accepted).ok && PartyTo(ts, holders)
    ensures Total(Transfers(c, w, a, ts, accepted).w.ledger, token, holders) == Total(w.ledger, token, holders)
    decreases ts
  {
    if ts != [] {
      assert ts[0] in ts;
      var s := Transfer1(c, w, a, ts[0], accepted[0]);
      TransferKeepsTotal(c, w, a, ts[0], accepted[0], token, holders);
      assert forall t :: t in ts[1..] ==> t in ts;
      TransfersKeepTotal(c, s.w, a, ts[1..], accepted[1..], token, holders);
    }
  }

  /** Every holder has what it had, plus what it was sent, less what was sent from it; any group that
      holds all parties has together what it had; and the nonce, which was free, is used. */
  ghost predicate Settled(c: Chain, w: World, a: Address, x: TransferOnlyArgs, end: World) {
    && x.args != []
    && (forall token, h :: Balance(end.ledger, token, h) == Balance(w.ledger, token, h) + Received(c, x.args, token, h) - Sent(c, x.args, token, h))
    && (forall token, holders | PartyTo(x.args, holders) :: Total(end.ledger, token, holders) == Total(w.ledger, token, holders))
    && !Used(c, w, a, NonceOf(x.msTs)) && Used(c, end, a, NonceOf(x.msTs))
  }

  lemma TransfersSettle(c: Chain, w: World, a: Address, x: TransferOnlyArgs, sig: Bytes64, accepted: seq<bool>)
    requires TransferAll(c, w, a, x, sig, accepted).ok
    ensures Settled(c, w, a, x, TransferAll(c, w, a, x, sig, accepted).w)
  {
    var end := TransferAll(c, w, a, x, sig, accepted).w;
    var s := Raise(c, w, Spent(a, NonceOf(x.msTs)));
    forall token, h
      ensures Balance(end.ledger, token, h) == Balance(w.ledger, token, h) + Received(c, x.args, token, h) - Sent(c, x.args, token, h)
    {
      TransferEach(c, s.w, a, x.args, accepted, token, h);
    }
    forall token, holders | PartyTo(x.args, holders) ensures Total(end.ledger, token, holders) == Total(w.ledger, token, holders) {
      TransfersKeepTotal(c, s.w, a, x.args, accepted, token, holders);
    }
    TransfersOnlyMove(c, s.w, a, x.args, accepted);
  }

  lemma {:induction false} TransfersOnlyMove(c: Chain, w: World, a: Address, ts: seq<Transfer>, accepted: seq<bool>)
    ensures Transfers(c, w, a, ts, accepted).w.accounts == w.accounts
    decreases ts
  {
    if ts != [] && accepted != [] {
      TransfersOnlyMove(c, Transfer1(c, w, a, ts[0], accepted[0]).w, a, ts[1..], accepted[1..]);
    }
  }

  /** A message that asks for transfers, with parties repeated in any way, either settles them all or
      leaves the whole world, the ledgers and the nonce included, as it was. */
  lemma TransfersAllOrNothing(c: Chain, w: World, a: Address, sender: Address, cd: seq<Byte>, gasPermit: bool,
        replies: seq<Reply>,
                              x: TransferOnlyArgs, sig: Bytes64)
    requires a in w.accounts && !FromAdmin(w, a, sender) && RouteOf(c, cd) == Request(TransferOnly(x, sig))
    ensures var s := Perform(c, w, Message(a, sender, cd, gasPermit, replies));
            (s.w == w && s.log == []) || Settled(c, w, a, x, s.w)
  {
    PerformRequest(c, w, a, sender, cd, gasPermit, replies, TransferOnly(x, sig));
    var s := Handle(c, w, a, TransferOnly(x, sig), gasPermit, replies);
    if s.ok {
      var locked := Lock(c, w, a);
      var body := TransferAll(c, locked, a, x, sig, PermitsIn(replies));
      TransfersSettle(c, locked, a, x, sig, PermitsIn(replies));
      GuardSettles(c, w, a, x, body);
    }
  }

  lemma GuardSettles(c: Chain, w: World, a: Address, x: TransferOnlyArgs, body: Step)
    requires Guarded(c, w, a, body).ok && Settled(c, Lock(c, w, a), a, x, body.w)
    ensures Settled(c, w, a, x, Guarded(c, w, a, body).w)
  {
    var end := Guarded(c, w, a, body).w;
    assert end.ledger == body.w.ledger && Lock(c, w, a).ledger == w.ledger;
    assert Store(Lock(c, w, a), a) == Store(w, a) && Store(end, a) == Store(body.w, a);
  }
}
