/** The supply of a token, which no operation changes, and how all of it can be brought to one holder. */
module Supply {
  import opened Words
  import opened Ledger

  /** Everyone on the books. */
  function Holders(l: Books): (hs: set<Address>) {
    set k | k in l.balances :: k.1
  }

  lemma OnBooks(l: Books, token: Address, h: Address)
    ensures (token, h) in l.balances ==> h in Holders(l)
  {
  }

  ghost function SupplyOf(l: Books, token: Address): (v: nat) {
    Total(l, token, Holders(l))
  }

  /** Every supply fits a word. */
  ghost predicate SuppliesFit(l: Books) {
    forall token: Address :: SupplyOf(l, token) <= MAX
  }

  lemma {:induction false} TotalOfMore(l: Books, token: Address, hs: set<Address>, more: set<Address>)
    requires Holders(l) <= hs <= more
    ensures Total(l, token, more) == Total(l, token, hs)
    decreases |more - hs|
  {
    if more - hs == {} {
      assert more == hs;
    } else {
      var h :| h in more - hs;
      OnBooks(l, token, h);
      TotalOf(l, token, more, h);
      assert (more - {h}) - hs == (more - hs) - {h};
      TotalOfMore(l, token, hs, more - {h});
    }
  }

  lemma SupplyIs(l: Books, token: Address, hs: set<Address>)
    requires Holders(l) <= hs
    ensures Total(l, token, hs) == SupplyOf(l, token)
  {
    TotalOfMore(l, token, Holders(l), hs);
  }

  lemma OneOfTotal(l: Books, token: Address, hs: set<Address>, h: Address)
    requires h in hs
    ensures Balance(l, token, h) <= Total(l, token, hs)
  {
    TotalOf(l, token, hs, h);
  }

  lemma HasAtMostSupply(l: Books, token: Address, h: Address)
    ensures Balance(l, token, h) <= SupplyOf(l, token)
  {
    SupplyIs(l, token, Holders(l) + {h});
    OneOfTotal(l, token, Holders(l) + {h}, h);
  }

  lemma TwoHaveAtMostSupply(l: Books, token: Address, g: Address, h: Address)
    requires g != h
    ensures Balance(l, token, g) + Balance(l, token, h) <= SupplyOf(l, token)
  {
    var hs := Holders(l) + {g, h};
    SupplyIs(l, token, hs);
    TotalOf(l, token, hs, g);
    OneOfTotal(l, token, hs - {g}, h);
  }

  /** Who an operation moves tokens from and to. */
  function Parties(op: TokenOp): (hs: set<Address>) {
    match op
    case Send(_, from, recipient, _) => {from, recipient}
    case Pull(_, _, from, recipient, _) => {from, recipient}
    case Approve(_, _, _, _) => {}
  }

  lemma OpKeepsTotal(unlimited: Address -> bool, l: Books, op: TokenOp, token: Address, hs: set<Address>)
    requires Parties(op) <= hs && Do(unlimited, l, op).Some?
    ensures Total(Do(unlimited, l, op).value, token, hs) == Total(l, token, hs)
  {
    match op
    case Send(moved, from, recipient, amt) => MoveKeepsTotal(l, moved, from, recipient, amt, token, hs);
    case Pull(_, _, _, _, _) => PullKeepsTotal(unlimited, l, op, token, hs);
    case Approve(_, _, _, _) => TotalSame(l, Do(unlimited, l, op).value, token, hs);
  }

  lemma OpKeepsSupply(unlimited: Address -> bool, l: Books, op: TokenOp, token: Address)
    requires Do(unlimited, l, op).Some?
    ensures SupplyOf(Do(unlimited, l, op).value, token) == SupplyOf(l, token)
  {
    var next := Do(unlimited, l, op).value;
    var hs := Holders(l) + Holders(next) + Parties(op);
    SupplyIs(l, token, hs);
    SupplyIs(next, token, hs);
    OpKeepsTotal(unlimited, l, op, token, hs);
  }

  /** No sequence of operations changes the supply. */
  lemma {:induction false} SupplyKept(unlimited: Address -> bool, l: Books, ops: seq<TokenOp>, token: Address)
    ensures SupplyOf(DoAll(unlimited, l, ops), token) == SupplyOf(l, token)
    decreases ops
  {
    if ops != [] {
      match Do(unlimited, l, ops[0])
      case None => SupplyKept(unlimited, l, ops[1..], token);
      case Some(next) =>
        OpKeepsSupply(unlimited, l, ops[0], token);
        SupplyKept(unlimited, next, ops[1..], token);
    }
  }

  // Bringing tokens together.

  /** Operations by others than `a`, none of which grants anything. */
  ghost predicate GiftsTo(ops: seq<TokenOp>, a: Address) {
    forall i :: 0 <= i < |ops| ==> ops[i].Send? && ops[i].from != a
  }

  lemma {:induction false} DoAllThen(unlimited: Address -> bool, l: Books, xs: seq<TokenOp>, ys: seq<TokenOp>)
    ensures DoAll(unlimited, l, xs + ys) == DoAll(unlimited, DoAll(unlimited, l, xs), ys)
    decreases xs
  {
    if xs == [] {
      assert xs + ys == ys;
    } else {
      assert (xs + ys)[0] == xs[0] && (xs + ys)[1..] == xs[1..] + ys;
      match Do(unlimited, l, xs[0])
      case None => DoAllThen(unlimited, l, xs[1..], ys);
      case Some(next) => DoAllThen(unlimited, next, xs[1..], ys);
    }
  }

  /** Between `l` and `m` only balances of `token` differ. */
  ghost predicate OnlyMoved(l: Books, m: Books, token: Address) {
    m.allowances == l.allowances && forall t, h :: t != token ==> Balance(m, t, h) == Balance(l, t, h)
  }

  /** One holder gives all it has of a token. */
  lemma GiveAll(unlimited: Address -> bool, l: Books, token: Address, h: Address, a: Address)
    requires h != a && SuppliesFit(l)
    ensures var op := Send(token, h, a, Balance(l, token, h));
            var m := DoAll(unlimited, l, [op]);
            && OnlyMoved(l, m, token)
            && Balance(m, token, h) == 0 && Balance(m, token, a) == Balance(l, token, a) + Balance(l, token, h)
            && forall g :: g != h && g != a ==> Balance(m, token, g) == Balance(l, token, g)
  {
    var op := Send(token, h, a, Balance(l, token, h));
    assert SupplyOf(l, token) <= MAX;
    TwoHaveAtMostSupply(l, token, h, a);
    assert [op][1..] == [];
  }

  /** A group of holders gives all it has of a token. */
  lemma {:induction false} Gather(unlimited: Address -> bool, l: Books, token: Address, hs: set<Address>, a: Address)
    returns (ops: seq<TokenOp>)
    requires a !in hs && SuppliesFit(l)
    ensures GiftsTo(ops, a)
    ensures var m := DoAll(unlimited, l, ops);
            OnlyMoved(l, m, token) && Balance(m, token, a) == Balance(l, token, a) + Total(l, token, hs)
    decreases |hs|
  {
    ops := [];
    if hs != {} {
      var h :| h in hs;
      var op := Send(token, h, a, Balance(l, token, h));
      var next := DoAll(unlimited, l, [op]);
      GiveAll(unlimited, l, token, h, a);
      FitsStill(unlimited, l, [op]);
      var rest := Gather(unlimited, next, token, hs - {h}, a);
      TotalOf(l, token, hs, h);
      TotalSame(l, next, token, hs - {h});
      ops := [op] + rest;
      DoAllThen(unlimited, l, [op], rest);
    }
  }

  lemma FitsStill(unlimited: Address -> bool, l: Books, ops: seq<TokenOp>)
    requires SuppliesFit(l)
    ensures SuppliesFit(DoAll(unlimited, l, ops))
  {
    forall token: Address ensures SupplyOf(DoAll(unlimited, l, ops), token) <= MAX {
      SupplyKept(unlimited, l, ops, token);
    }
  }

  /** All of a token can be brought to one holder. */
  lemma GatherSupply(unlimited: Address -> bool, l: Books, token: Address, a: Address) returns (ops: seq<TokenOp>)
    requires SuppliesFit(l)
    ensures GiftsTo(ops, a)
    ensures var m := DoAll(unlimited, l, ops); OnlyMoved(l, m, token) && Balance(m, token, a) == SupplyOf(l, token)
  {
    var hs := Holders(l) + {a};
    ops := Gather(unlimited, l, token, hs - {a}, a);
    SupplyIs(l, token, hs);
    TotalOf(l, token, hs, a);
  }

  /** After bringing all of several tokens to one holder. */
  ghost predicate Gathered(l: Books, m: Books, tokens: set<Address>, a: Address) {
    && m.allowances == l.allowances
    && (forall t :: t in tokens ==> Balance(m, t, a) == SupplyOf(l, t))
    && (forall t, h :: t !in tokens ==> Balance(m, t, h) == Balance(l, t, h))
  }

  lemma {:induction false} GatherSupplies(unlimited: Address -> bool, l: Books, tokens: set<Address>, a: Address)
    returns (ops: seq<TokenOp>)
    requires SuppliesFit(l)
    ensures GiftsTo(ops, a) && Gathered(l, DoAll(unlimited, l, ops), tokens, a)
    decreases |tokens|
  {
    ops := [];
    if tokens != {} {
      var token :| token in tokens;
      var first := GatherSupply(unlimited, l, token, a);
      var next := DoAll(unlimited, l, first);
      FitsStill(unlimited, l, first);
      var rest := GatherSupplies(unlimited, next, tokens - {token}, a);
      ops := first + rest;
      DoAllThen(unlimited, l, first, rest);
      forall t | t in tokens - {token} ensures SupplyOf(next, t) == SupplyOf(l, t) {
        SupplyKept(unlimited, l, first, t);
      }
    }
  }
}
