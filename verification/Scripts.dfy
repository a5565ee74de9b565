/** Token operations of which none may be refused, and what they come to for each single balance and
    each single allowance. */
module Scripts {
  import opened Words
  import opened Ledger

  /** All operations in order; None if one of them is refused. */
  function Script(unlimited: Address -> bool, l: Books, ops: seq<TokenOp>): (r: Option<Books>)
    decreases ops
  {
    if ops == [] then Some(l)
    else
      match Do(unlimited, l, ops[0])
      case None => None
      case Some(next) => Script(unlimited, next, ops[1..])
  }

  lemma {:induction false} ScriptThen(unlimited: Address -> bool, l: Books, x: seq<TokenOp>, y: seq<TokenOp>)
    ensures Script(unlimited, l, x + y) ==
            match Script(unlimited, l, x) case None => None case Some(m) => Script(unlimited, m, y)
    decreases x
  {
    if x == [] {
      assert x + y == y;
    } else {
      assert (x + y)[0] == x[0] && (x + y)[1..] == x[1..] + y;
      match Do(unlimited, l, x[0])
      case None =>
      case Some(next) => ScriptThen(unlimited, next, x[1..], y);
    }
  }

  /** What a payment makes of a balance `v` of one holder; None when it stands in its way. */
  function Paid(from: Address, recipient: Address, amt: Word, h: Address, v: Word): (r: Option<Word>) {
    if h == from && v < amt then None
    else if h != from && h == recipient && v + amt > MAX then None
    else if from == recipient then Some(v)
    else if h == from then Some(v - amt)
    else if h == recipient then Some(v + amt)
    else Some(v)
  }

  /** What an operation makes of the balance `v` of `h`. */
  function BalanceAfter(op: TokenOp, token: Address, h: Address, v: Word): (r: Option<Word>) {
    match op
    case Send(t, from, recipient, amt) => if t == token then Paid(from, recipient, amt, h, v) else Some(v)
    case Pull(t, _, from, recipient, amt) => if t == token then Paid(from, recipient, amt, h, v) else Some(v)
    case Approve(_, _, _, _) => Some(v)
  }

  /** What an operation makes of the allowance `v` that `o` has given to `s`. */
  function AllowanceAfter(unlimited: Address -> bool, op: TokenOp, token: Address, o: Address, s: Address,
        v: Word): (r: Option<Word>) {
    match op
    case Send(_, _, _, _) => Some(v)
    case Pull(t, spender, from, _, amt) =>
      if (t, from, spender) != (token, o, s) then Some(v)
      else if v < amt then None
      else if v == MAX && unlimited(token) then Some(MAX)
      else Some(v - amt)
    case Approve(t, owner, spender, amt) => Some(if (t, owner, spender) == (token, o, s) then amt else v)
  }

  function BalanceRun(ops: seq<TokenOp>, token: Address, h: Address, v: Word): (r: Option<Word>)
    decreases ops
  {
    if ops == [] then Some(v)
    else
      match BalanceAfter(ops[0], token, h, v)
      case None => None
      case Some(next) => BalanceRun(ops[1..], token, h, next)
  }

  function AllowanceRun(unlimited: Address -> bool, ops: seq<TokenOp>, token: Address, o: Address, s: Address,
        v: Word): (r: Option<Word>)
    decreases ops
  {
    if ops == [] then Some(v)
    else
      match AllowanceAfter(unlimited, ops[0], token, o, s, v)
      case None => None
      case Some(next) => AllowanceRun(unlimited, ops[1..], token, o, s, next)
  }

  /** No single balance and no single allowance stands in the way of the operations. */
  ghost predicate Clear(unlimited: Address -> bool, l: Books, ops: seq<TokenOp>) {
    && (forall token, h :: BalanceRun(ops, token, h, Balance(l, token, h)).Some?)
    && (forall token, o, s :: AllowanceRun(unlimited, ops, token, o, s, Allowance(l, token, o, s)).Some?)
  }

  lemma PayOne(l: Books, token: Address, from: Address, recipient: Address, amt: Word, t: Address, h: Address)
    requires Move(l, token, from, recipient, amt).Some?
    ensures Paid(from, recipient, amt, from, Balance(l, token, from)).Some?
    ensures Paid(from, recipient, amt, recipient, Balance(l, token, recipient)).Some?
    ensures Some(Balance(Move(l, token, from, recipient, amt).value, t, h)) ==
            if t == token then Paid(from, recipient, amt, h, Balance(l, t, h)) else Some(Balance(l, t, h))
  {
  }

  /** One operation, when it is not refused. */
  lemma Done(unlimited: Address -> bool, l: Books, op: TokenOp, token: Address, h: Address)
    requires Do(unlimited, l, op).Some?
    ensures BalanceAfter(op, token, h, Balance(l, token, h)) == Some(Balance(Do(unlimited, l, op).value, token, h))
  {
    match op
    case Send(t, from, recipient, amt) => PayOne(l, t, from, recipient, amt, token, h);
    case Pull(t, spender, from, recipient, amt) =>
      var left := Allowance(l, t, from, spender);
      var spent := if left == MAX && unlimited(t) then l else Allow(l, t, from, spender, left - amt);
      assert Balance(spent, token, h) == Balance(l, token, h);
      PayOne(spent, t, from, recipient, amt, token, h);
    case Approve(_, _, _, _) =>
  }

  lemma Allowed(unlimited: Address -> bool, l: Books, op: TokenOp, token: Address, o: Address, s: Address)
    requires Do(unlimited, l, op).Some?
    ensures AllowanceAfter(unlimited, op, token, o, s, Allowance(l, token, o, s)) ==
            Some(Allowance(Do(unlimited, l, op).value, token, o, s))
  {
  }

  /** The balances and the allowance that can refuse an operation. */
  lemma Refused(unlimited: Address -> bool, l: Books, op: TokenOp)
    requires Do(unlimited, l, op).None?
    ensures (exists token, h :: BalanceAfter(op, token, h, Balance(l, token, h)).None?) ||
            (exists token, o, s :: AllowanceAfter(unlimited, op, token, o, s, Allowance(l, token, o, s)).None?)
  {
    match op
    case Send(t, from, recipient, amt) =>
      assert
        || BalanceAfter(op, t, from, Balance(l, t, from)).None?
        || BalanceAfter(op, t, recipient, Balance(l, t, recipient)).None?;
    case Pull(t, spender, from, recipient, amt) =>
      assert
        || AllowanceAfter(unlimited, op, t, from, spender, Allowance(l, t, from, spender)).None?
        || BalanceAfter(op, t, from, Balance(l, t, from)).None?
        || BalanceAfter(op, t, recipient, Balance(l, t, recipient)).None?;
  }

  /** A refused first operation is refused to some balance or some allowance. */
  lemma NotClear(unlimited: Address -> bool, l: Books, ops: seq<TokenOp>)
    requires ops != [] && Do(unlimited, l, ops[0]).None?
    ensures !Clear(unlimited, l, ops)
  {
    Refused(unlimited, l, ops[0]);
    if token, h :| BalanceAfter(ops[0], token, h, Balance(l, token, h)).None? {
      assert BalanceRun(ops, token, h, Balance(l, token, h)).None?;
    } else {
      var token, o, s :| AllowanceAfter(unlimited, ops[0], token, o, s, Allowance(l, token, o, s)).None?;
      assert AllowanceRun(unlimited, ops, token, o, s, Allowance(l, token, o, s)).None?;
    }
  }

  lemma ClearStep(unlimited: Address -> bool, l: Books, ops: seq<TokenOp>)
    requires ops != [] && Do(unlimited, l, ops[0]).Some?
    ensures Clear(unlimited, l, ops) <==> Clear(unlimited, Do(unlimited, l, ops[0]).value, ops[1..])
  {
    var next := Do(unlimited, l, ops[0]).value;
    forall token, h
      ensures BalanceRun(ops, token, h, Balance(l, token, h)) == BalanceRun(ops[1..], token, h, Balance(next, token, h))
    {
      Done(unlimited, l, ops[0], token, h);
    }
    forall token, o, s
      ensures AllowanceRun(unlimited, ops, token, o, s, Allowance(l, token, o, s)) ==
              AllowanceRun(unlimited, ops[1..], token, o, s, Allowance(next, token, o, s))
    {
      Allowed(unlimited, l, ops[0], token, o, s);
    }
  }

  /** None of the operations is refused exactly when each balance and each allowance, followed through
      the operations on its own, never stands in their way. */
  lemma {:induction false} ScriptExactly(unlimited: Address -> bool, l: Books, ops: seq<TokenOp>)
    ensures Script(unlimited, l, ops).Some? <==> Clear(unlimited, l, ops)
    decreases ops
  {
    if ops != [] {
      match Do(unlimited, l, ops[0])
      case None => NotClear(unlimited, l, ops);
      case Some(next) =>
        ClearStep(unlimited, l, ops);
        ScriptExactly(unlimited, next, ops[1..]);
    }
  }

  /** And then each balance and each allowance ends where it is followed to. */
  lemma {:induction false} ScriptEnds(unlimited: Address -> bool, l: Books, ops: seq<TokenOp>, token: Address,
        h: Address, o: Address, s: Address)
    requires Script(unlimited, l, ops).Some?
    ensures var end := Script(unlimited, l, ops).value;
            && BalanceRun(ops, token, h, Balance(l, token, h)) == Some(Balance(end, token, h))
            && AllowanceRun(unlimited, ops, token, o, s, Allowance(l, token, o, s)) == Some(Allowance(end, token, o, s))
    decreases ops
  {
    if ops != [] {
      Done(unlimited, l, ops[0], token, h);
      Allowed(unlimited, l, ops[0], token, o, s);
      ScriptEnds(unlimited, Do(unlimited, l, ops[0]).value, ops[1..], token, h, o, s);
    }
  }
}
