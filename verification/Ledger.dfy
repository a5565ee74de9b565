/** EIP-20 tokens: balances, allowances, and what any sequence of operations does to them. */
module Ledger {
  import opened Words

  const MAX: Word := WORD_LIMIT - 1

  /** The books of all tokens; the first part of a key is the token. */
  datatype Books = Books(balances: map<(Address, Address), Word>, allowances: map<(Address, Address, Address), Word>)

  datatype TokenOp =
    | Send(token: Address, from: Address, recipient: Address, amt: Word)
    | Pull(token: Address, spender: Address, from: Address, recipient: Address, amt: Word)
    // By the owner's message, or by a permit that the owner signed.
    | Approve(token: Address, owner: Address, spender: Address, amt: Word)

  function Balance(l: Books, token: Address, holder: Address): (v: Word) {
    if (token, holder) in l.balances then l.balances[(token, holder)] else 0
  }

  function Allowance(l: Books, token: Address, owner: Address, spender: Address): (v: Word) {
    if (token, owner, spender) in l.allowances then l.allowances[(token, owner, spender)] else 0
  }

  function Move(l: Books, token: Address, from: Address, recipient: Address, amt: Word): (r: Option<Books>) {
    if Balance(l, token, from) < amt then None
    else if from == recipient then Some(l)
    else if Balance(l, token, recipient) + amt > MAX then None
    else Some(l.(balances := l.balances[(token, from) := Balance(l, token, from) - amt]
                                       [(token, recipient) := Balance(l, token, recipient) + amt]))
  }

  function Allow(l: Books, token: Address, owner: Address, spender: Address, amt: Word): (r: Books) {
    l.(allowances := l.allowances[(token, owner, spender) := amt])
  }

  /** One operation; None when the token refuses it. A token in `unlimited` never counts down the
      largest allowance. */
  function Do(unlimited: Address -> bool, l: Books, op: TokenOp): (r: Option<Books>) {
    match op
    case Send(token, from, recipient, amt) => Move(l, token, from, recipient, amt)
    case Pull(token, spender, from, recipient, amt) =>
      var left := Allowance(l, token, from, spender);
      if left < amt then None
      else
        var spent := if left == MAX && unlimited(token) then l else Allow(l, token, from, spender, left - amt);
        Move(spent, token, from, recipient, amt)
    case Approve(token, owner, spender, amt) => Some(Allow(l, token, owner, spender, amt))
  }

  /** A sequence of operations, of which the refused ones have no effect. */
  function DoAll(unlimited: Address -> bool, l: Books, ops: seq<TokenOp>): (r: Books)
    decreases ops
  {
    if ops == [] then l
    else
      match Do(unlimited, l, ops[0])
      case None => DoAll(unlimited, l, ops[1..])
      case Some(next) => DoAll(unlimited, next, ops[1..])
  }

  /** Moves nothing out of `holder`, and grants nothing on it, except through the allowance that it
      has given to `spender`. */
  predicate ThroughAllowance(op: TokenOp, holder: Address, spender: Address) {
    match op
    case Send(_, from, _, _) => from != holder
    case Pull(_, taker, from, _, _) => from == holder ==> taker == spender
    case Approve(_, owner, _, _) => owner != holder
  }

  lemma OneWithinAllowance(unlimited: Address -> bool, l: Books, op: TokenOp, token: Address, holder: Address,
        spender: Address)
    requires ThroughAllowance(op, holder, spender) && Do(unlimited, l, op).Some?
    ensures var next := Do(unlimited, l, op).value;
            || Allowance(l, token, holder, spender) == MAX
            || (Balance(next, token, holder) - Allowance(next, token, holder, spender) >=
                Balance(l, token, holder) - Allowance(l, token, holder, spender))
  {
  }

  /** A spender cannot take more than its allowance, whatever it and others do in whatever order. */
  lemma {:induction false} WithinAllowance(unlimited: Address -> bool, l: Books, ops: seq<TokenOp>, token: Address,
                                           holder: Address, spender: Address)
    requires forall op :: op in ops ==> ThroughAllowance(op, holder, spender)
    ensures Balance(DoAll(unlimited, l, ops), token, holder) >=
            Balance(l, token, holder) - Allowance(l, token, holder, spender)
    decreases ops
  {
    if ops != [] {
      assert ops[0] in ops;
      match Do(unlimited, l, ops[0])
      case None => WithinAllowance(unlimited, l, ops[1..], token, holder, spender);
      case Some(next) =>
        OneWithinAllowance(unlimited, l, ops[0], token, holder, spender);
        WithinAllowance(unlimited, next, ops[1..], token, holder, spender);
    }
  }

  /** What a set of holders has together. */
  ghost function Total(l: Books, token: Address, holders: set<Address>): (v: nat)
    decreases |holders|
  {
    if holders == {} then 0 else var h :| h in holders; Balance(l, token, h) + Total(l, token, holders - {h})
  }

  lemma {:induction false} TotalOf(l: Books, token: Address, holders: set<Address>, h: Address)
    requires h in holders
    ensures Total(l, token, holders) == Balance(l, token, h) + Total(l, token, holders - {h})
    decreases |holders|
  {
    var g :| g in holders && Total(l, token, holders) == Balance(l, token, g) + Total(l, token, holders - {g});
    if g != h {
      TotalOf(l, token, holders - {g}, h);
      TotalOf(l, token, holders - {h}, g);
      assert holders - {g} - {h} == holders - {h} - {g};
    }
  }

  lemma {:induction false} TotalSame(l: Books, m: Books, token: Address, holders: set<Address>)
    requires forall h :: h in holders ==> Balance(l, token, h) == Balance(m, token, h)
    ensures Total(l, token, holders) == Total(m, token, holders)
    decreases |holders|
  {
    if holders != {} {
      var h :| h in holders;
      TotalOf(l, token, holders, h);
      TotalOf(m, token, holders, h);
      TotalSame(l, m, token, holders - {h});
    }
  }

  /** Moving tokens among the holders keeps their total. */
  lemma MoveKeepsTotal(l: Books, moved: Address, from: Address, recipient: Address, amt: Word, token: Address,
        holders: set<Address>)
    requires from in holders && recipient in holders && Move(l, moved, from, recipient, amt).Some?
    ensures Total(Move(l, moved, from, recipient, amt).value, token, holders) == Total(l, token, holders)
  {
    var next := Move(l, moved, from, recipient, amt).value;
    if moved != token || from == recipient {
      TotalSame(l, next, token, holders);
    } else {
      var rest := holders - {from};
      TotalOf(l, token, holders, from);
      TotalOf(next, token, holders, from);
      TotalOf(l, token, rest, recipient);
      TotalOf(next, token, rest, recipient);
      TotalSame(l, next, token, rest - {recipient});
    }
  }

  lemma PullKeepsTotal(unlimited: Address -> bool, l: Books, op: TokenOp, token: Address, holders: set<Address>)
    requires op.Pull? && op.from in holders && op.recipient in holders && Do(unlimited, l, op).Some?
    ensures Total(Do(unlimited, l, op).value, token, holders) == Total(l, token, holders)
  {
    var left := Allowance(l, op.token, op.from, op.spender);
    var spent := if left == MAX && unlimited(op.token) then l else Allow(l, op.token, op.from, op.spender, left - op.amt);
    TotalSame(l, spent, token, holders);
    MoveKeepsTotal(spent, op.token, op.from, op.recipient, op.amt, token, holders);
  }
}
