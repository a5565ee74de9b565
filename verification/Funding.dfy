/** Who must have and allow how much for transfers and items to commit, token by token and holder by holder. */
module Funding {
  import opened Words
  import opened Ledger
  import opened Scripts
  import opened Accounts
  import opened Wire
  import opened Protocol
  import opened ProtocolRuns
  import opened AccountHistory
  import opened Entrypoint
  import opened Spending
  import opened Verdicts
  import opened Dispatch

  lemma {:induction false} BalanceRunThen(x: seq<TokenOp>, y: seq<TokenOp>, token: Address, h: Address, v: Word)
    ensures BalanceRun(x + y, token, h, v) ==
            match BalanceRun(x, token, h, v) case None => None case Some(u) => BalanceRun(y, token, h, u)
    decreases x
  {
    if x == [] {
      assert x + y == y;
    } else {
      assert (x + y)[0] == x[0] && (x + y)[1..] == x[1..] + y;
      match BalanceAfter(x[0], token, h, v)
      case None =>
      case Some(u) => BalanceRunThen(x[1..], y, token, h, u);
    }
  }

  lemma {:induction false} AllowanceRunThen(unlimited: Address -> bool, x: seq<TokenOp>, y: seq<TokenOp>,
        token: Address, o: Address, s: Address, v: Word)
    ensures AllowanceRun(unlimited, x + y, token, o, s, v) ==
            match AllowanceRun(unlimited, x, token, o, s, v)
            case None => None
            case Some(u) => AllowanceRun(unlimited, y, token, o, s, u)
    decreases x
  {
    if x == [] {
      assert x + y == y;
    } else {
      assert (x + y)[0] == x[0] && (x + y)[1..] == x[1..] + y;
      match AllowanceAfter(unlimited, x[0], token, o, s, v)
      case None =>
      case Some(u) => AllowanceRunThen(unlimited, x[1..], y, token, o, s, u);
    }
  }

  lemma RunOne(unlimited: Address -> bool, op: TokenOp, token: Address, h: Address, o: Address, s: Address, v: Word)
    ensures BalanceRun([op], token, h, v) == BalanceAfter(op, token, h, v)
    ensures AllowanceRun(unlimited, [op], token, o, s, v) == AllowanceAfter(unlimited, op, token, o, s, v)
  {
    assert [op][1..] == [];
  }

  lemma RunTwo(unlimited: Address -> bool, op: TokenOp, oq: TokenOp, token: Address, h: Address, o: Address, s: Address,
        v: Word)
    ensures BalanceRun([op, oq], token, h, v) ==
            match BalanceAfter(op, token, h, v) case None => None case Some(u) => BalanceAfter(oq, token, h, u)
    ensures AllowanceRun(unlimited, [op, oq], token, o, s, v) ==
            match AllowanceAfter(unlimited, op, token, o, s, v)
            case None => None
            case Some(u) => AllowanceAfter(unlimited, oq, token, o, s, u)
  {
    assert [op, oq] == [op] + [oq];
    BalanceRunThen([op], [oq], token, h, v);
    AllowanceRunThen(unlimited, [op], [oq], token, o, s, v);
    RunOne(unlimited, op, token, h, o, s, v);
    match BalanceAfter(op, token, h, v) {
      case None =>
      case Some(u) => RunOne(unlimited, oq, token, h, o, s, u);
    }
    match AllowanceAfter(unlimited, op, token, o, s, v) {
      case None =>
      case Some(u) => RunOne(unlimited, oq, token, h, o, s, u);
    }
  }

  // Transfers.

  /** What `h` has of the token after the transfers, in turn, if it has `v` before; None when it cannot pay
      one of them out of what it has by then, or cannot hold what it receives. */
  function Funds(c: Chain, ts: seq<Transfer>, token: Address, h: Address, v: Word): (r: Option<Word>)
    decreases ts
  {
    if ts == [] then Some(v)
    else if c.asset(ts[0].asset) != Some(token) then Funds(c, ts[1..], token, h, v)
    else
      match Paid(AddressOf(ts[0].from), AddressOf(ts[0].recipient), WordOf(ts[0].amt), h, v)
      case None => None
      case Some(u) => Funds(c, ts[1..], token, h, u)
  }

  /** What the account may take of the token from `h` after the transfers, in turn, if it may take `v` before.
      A permit makes it all there can be; None when a transfer is for more than it may take by then. */
  function Left(c: Chain, ts: seq<Transfer>, token: Address, h: Address, v: Word): (r: Option<Word>)
    decreases ts
  {
    if ts == [] then Some(v)
    else if c.asset(ts[0].asset) != Some(token) || AddressOf(ts[0].from) != h then Left(c, ts[1..], token, h, v)
    else
      var have := if ts[0].permit.Some? then MAX else v;
      if have < WordOf(ts[0].amt) then None
      else Left(c, ts[1..], token, h, if have == MAX && c.unlimited(token) then MAX else have - WordOf(ts[0].amt))
  }

  predicate TransfersKnown(c: Chain, ts: seq<Transfer>) {
    forall i :: 0 <= i < |ts| ==> c.asset(ts[i].asset).Some?
  }

  lemma SendRuns(c: Chain, a: Address, t: Transfer, token: Address, h: Address, v: Word)
    requires c.asset(t.asset).Some?
    ensures BalanceRun(SendOps(c, a, t), token, h, v) ==
            if c.asset(t.asset) != Some(token) then Some(v)
            else Paid(AddressOf(t.from), AddressOf(t.recipient), WordOf(t.amt), h, v)
  {
    var from := AddressOf(t.from);
    var pull := Pull(TokenOf(c, t.asset), a, from, AddressOf(t.recipient), WordOf(t.amt));
    RunOne(c.unlimited, pull, token, h, h, h, v);
    if t.permit.Some? {
      var approve := Approve(TokenOf(c, t.asset), from, a, MAX);
      assert SendOps(c, a, t) == [approve, pull];
      RunTwo(c.unlimited, approve, pull, token, h, h, h, v);
    } else {
      assert SendOps(c, a, t) == [pull];
    }
  }

  lemma SendAllows(c: Chain, a: Address, t: Transfer, token: Address, o: Address, s: Address, v: Word)
    requires c.asset(t.asset).Some?
    ensures AllowanceRun(c.unlimited, SendOps(c, a, t), token, o, s, v) ==
            if c.asset(t.asset) != Some(token) || AddressOf(t.from) != o || s != a then Some(v)
            else
              var have := if t.permit.Some? then MAX else v;
              if have < WordOf(t.amt) then None
              else if have == MAX && c.unlimited(token) then Some(MAX) else Some(have - WordOf(t.amt))
  {
    var from := AddressOf(t.from);
    var pull := Pull(TokenOf(c, t.asset), a, from, AddressOf(t.recipient), WordOf(t.amt));
    RunOne(c.unlimited, pull, token, 0, o, s, v);
    if t.permit.Some? {
      var approve := Approve(TokenOf(c, t.asset), from, a, MAX);
      assert SendOps(c, a, t) == [approve, pull];
      RunTwo(c.unlimited, approve, pull, token, 0, o, s, v);
    } else {
      assert SendOps(c, a, t) == [pull];
    }
  }

  lemma {:induction false} TransferRuns(c: Chain, a: Address, ts: seq<Transfer>, token: Address, h: Address, v: Word)
    requires TransfersKnown(c, ts)
    ensures BalanceRun(TransferOps(c, a, ts), token, h, v) == Funds(c, ts, token, h, v)
    decreases ts
  {
    if ts != [] {
      BalanceRunThen(SendOps(c, a, ts[0]), TransferOps(c, a, ts[1..]), token, h, v);
      SendRuns(c, a, ts[0], token, h, v);
      match BalanceRun(SendOps(c, a, ts[0]), token, h, v)
      case None =>
      case Some(u) => TransferRuns(c, a, ts[1..], token, h, u);
    }
  }

  lemma {:induction false} TransferAllows(c: Chain, a: Address, ts: seq<Transfer>, token: Address, o: Address,
      s: Address,
        v: Word)
    requires TransfersKnown(c, ts)
    ensures AllowanceRun(c.unlimited, TransferOps(c, a, ts), token, o, s, v) ==
            if s == a then Left(c, ts, token, o, v) else Some(v)
    decreases ts
  {
    if ts != [] {
      AllowanceRunThen(c.unlimited, SendOps(c, a, ts[0]), TransferOps(c, a, ts[1..]), token, o, s, v);
      SendAllows(c, a, ts[0], token, o, s, v);
      match AllowanceRun(c.unlimited, SendOps(c, a, ts[0]), token, o, s, v)
      case None =>
      case Some(u) => TransferAllows(c, a, ts[1..], token, o, s, u);
    }
  }

  /** Every sender can pay each transfer in turn, and lets the account take it, by a permit or an allowance. */
  ghost predicate Payable(c: Chain, l: Books, a: Address, ts: seq<Transfer>) {
    && (forall token, h :: Funds(c, ts, token, h, Balance(l, token, h)).Some?)
    && (forall token, h :: Left(c, ts, token, h, Allowance(l, token, h, a)).Some?)
  }

  lemma PayableExactly(c: Chain, l: Books, a: Address, ts: seq<Transfer>)
    requires TransfersKnown(c, ts)
    ensures Script(c.unlimited, l, TransferOps(c, a, ts)).Some? <==> Payable(c, l, a, ts)
  {
    var ops := TransferOps(c, a, ts);
    ScriptExactly(c.unlimited, l, ops);
    forall token, h
      ensures BalanceRun(ops, token, h, Balance(l, token, h)) == Funds(c, ts, token, h, Balance(l, token, h))
    {
      TransferRuns(c, a, ts, token, h, Balance(l, token, h));
    }
    forall token, o, s
      ensures AllowanceRun(c.unlimited, ops, token, o, s, Allowance(l, token, o, s)) ==
              if s == a then Left(c, ts, token, o, Allowance(l, token, o, s)) else Some(Allowance(l, token, o, s))
    {
      TransferAllows(c, a, ts, token, o, s, Allowance(l, token, o, s));
    }
    if Clear(c.unlimited, l, ops) {
      forall token, h ensures Left(c, ts, token, h, Allowance(l, token, h, a)).Some? {
        assert AllowanceRun(c.unlimited, ops, token, h, a, Allowance(l, token, h, a)).Some?;
      }
      forall token, h ensures Funds(c, ts, token, h, Balance(l, token, h)).Some? {
        assert BalanceRun(ops, token, h, Balance(l, token, h)).Some?;
      }
    }
  }

  /** After the transfers: balances and allowances to the account as followed, all other allowances as before. */
  ghost predicate PaidUp(c: Chain, l: Books, a: Address, ts: seq<Transfer>, end: Books) {
    && (forall token, h :: Funds(c, ts, token, h, Balance(l, token, h)) == Some(Balance(end, token, h)))
    && (forall token, h :: Left(c, ts, token, h, Allowance(l, token, h, a)) == Some(Allowance(end, token, h, a)))
    && (forall token, o, s :: s != a ==> Allowance(end, token, o, s) == Allowance(l, token, o, s))
  }

  lemma PaidUpThen(c: Chain, l: Books, a: Address, ts: seq<Transfer>)
    requires TransfersKnown(c, ts) && Script(c.unlimited, l, TransferOps(c, a, ts)).Some?
    ensures PaidUp(c, l, a, ts, Script(c.unlimited, l, TransferOps(c, a, ts)).value)
  {
    var ops := TransferOps(c, a, ts);
    var end := Script(c.unlimited, l, ops).value;
    forall token, h ensures Funds(c, ts, token, h, Balance(l, token, h)) == Some(Balance(end, token, h)) {
      ScriptEnds(c.unlimited, l, ops, token, h, h, h);
      TransferRuns(c, a, ts, token, h, Balance(l, token, h));
    }
    forall token, o, s
      ensures (if s == a then Left(c, ts, token, o, Allowance(l, token, o, s)) else Some(Allowance(l, token, o, s))) ==
              Some(Allowance(end, token, o, s))
    {
      ScriptEnds(c.unlimited, l, ops, token, o, o, s);
      TransferAllows(c, a, ts, token, o, s, Allowance(l, token, o, s));
    }
  }

  /** A message with transfers commits exactly when the lock is free, the key signed them, there is at least
      one, the nonce is free, every permit is accepted, and every sender can pay in turn out of a permit or
      an allowance. Then the nonce is used, and every balance and every allowance is what it came to. */
  lemma TransfersCommitExactly(c: Chain, w: World, a: Address, sender: Address, cd: seq<Byte>, gasPermit: bool,
        replies: seq<Reply>, x: TransferOnlyArgs, sig: Bytes64)
    requires Separated(c) && a in w.accounts && !FromAdmin(w, a, sender) && Carries(c, cd, TransferOnly(x, sig))
    ensures Receive(c, w, a, sender, cd, gasPermit, replies).ok <==>
            && !w.accounts[a].locked && SignedBy(c, w, a, TransferOnly(x, sig))
            && x.args != [] && !Used(c, w, a, NonceOf(x.msTs))
            && SendsKnown(c, x.args, if replies == [] then [] else replies[0].permits)
            && Payable(c, w.ledger, a, x.args)
    ensures Receive(c, w, a, sender, cd, gasPermit, replies).ok ==>
            var end := Perform(c, w, Message(a, sender, cd, gasPermit, replies)).w;
            && end.accounts == SetNonce(c, w, a, NonceOf(x.msTs)).accounts && end.registries == w.registries
            && PaidUp(c, w.ledger, a, x.args, end.ledger)
  {
    var args := TransferOnly(x, sig);
    var accepted := if replies == [] then [] else replies[0].permits;
    var r := Receive(c, w, a, sender, cd, gasPermit, replies);
    ReceiveExactly(c, w, a, sender, cd, gasPermit, replies, r.w);
    RequestLeaves(c, w, a, sender, cd, gasPermit, replies, args, r.w);
    if SendsKnown(c, x.args, accepted) {
      SendsAreKnown(c, x.args, accepted);
      PayableExactly(c, w.ledger, a, x.args);
      if Transferable(c, w, a, x, accepted) {
        PaidUpThen(c, w.ledger, a, x.args);
        var end := Transferred(c, w, a, x);
        ReceiveExactly(c, w, a, sender, cd, gasPermit, replies, end);
        RequestLeaves(c, w, a, sender, cd, gasPermit, replies, args, end);
      }
    }
  }

  lemma SendsAreKnown(c: Chain, ts: seq<Transfer>, accepted: seq<bool>)
    requires SendsKnown(c, ts, accepted)
    ensures TransfersKnown(c, ts)
  {
    forall i | 0 <= i < |ts| ensures c.asset(ts[i].asset).Some? { assert SendKnown(c, ts[i], accepted[i]); }
  }

  // What permits leave.

  predicate Takes1(c: Chain, t: Transfer, token: Address, h: Address) {
    c.asset(t.asset) == Some(token) && AddressOf(t.from) == h
  }

  /** The last transfer of the token from `h` that has a permit. */
  function LastPermit(c: Chain, ts: seq<Transfer>, token: Address, h: Address): (r: Option<nat>)
    ensures r.Some? ==> r.value < |ts| && Takes1(c, ts[r.value], token, h) && ts[r.value].permit.Some?
    decreases ts
  {
    if ts == [] then None
    else
      match LastPermit(c, ts[1..], token, h)
      case Some(i) => Some(i + 1)
      case None => if Takes1(c, ts[0], token, h) && ts[0].permit.Some? then Some(0) else None
  }

  /** With a permit, the account is left with the largest allowance, less what was pulled from that permit on
      where the token counts it down; without one, with what it had less what was pulled. */
  lemma {:induction false} LeftIs(c: Chain, ts: seq<Transfer>, token: Address, h: Address, v: Word)
    requires Left(c, ts, token, h, v).Some?
    ensures Left(c, ts, token, h, v).value ==
            match LastPermit(c, ts, token, h)
            case Some(i) => if c.unlimited(token) then MAX else MAX - Sent(c, ts[i..], token, h)
            case None => if v == MAX && c.unlimited(token) then MAX else v - Sent(c, ts, token, h)
    decreases ts
  {
    if ts != [] {
      var rest := ts[1..];
      var next :=
        if !Takes1(c, ts[0], token, h) then v
        else
          var have := if ts[0].permit.Some? then MAX else v;
          if have == MAX && c.unlimited(token) then MAX else have - WordOf(ts[0].amt);
      LeftIs(c, rest, token, h, next);
      match LastPermit(c, rest, token, h)
      case Some(i) => assert ts[i + 1..] == rest[i..];
      case None => assert ts[0..] == ts;
    }
  }

  /** Where every transfer comes with a permit no allowance is needed beforehand. */
  lemma {:induction false} PermitsAreEnough(c: Chain, ts: seq<Transfer>, token: Address, h: Address, v: Word)
    requires forall t :: t in ts && Takes1(c, t, token, h) ==> t.permit.Some?
    ensures Left(c, ts, token, h, v).Some?
    decreases ts
  {
    if ts != [] {
      assert ts[0] in ts && forall t :: t in ts[1..] ==> t in ts;
      var next :=
        if !Takes1(c, ts[0], token, h) then v else if c.unlimited(token) then MAX else MAX - WordOf(ts[0].amt);
      PermitsAreEnough(c, ts[1..], token, h, next);
    }
  }

  // Items.

  /** What the pulls of an item make of a balance, when they come from someone other than the account. */
  function TakenFrom(c: Chain, a: Address, fs: seq<FromArgs>, owner: Address, token: Address, h: Address,
        v: Word): (r: Option<Word>) {
    var taken := Taken(c, fs, token);
    if h == owner then (if v < taken then None else Some(v - taken))
    else if h == a then (if v + taken > MAX then None else Some(v + taken))
    else Some(v)
  }

  /** What pulls and approvals make of an allowance. */
  function LeftFrom(c: Chain, a: Address, fs: seq<FromArgs>, owner: Address, target: Address, token: Address,
      o: Address,
        s: Address, v: Word): (r: Option<Word>) {
    if o == owner && s == a then
      (if v == MAX && c.unlimited(token) then Some(MAX)
       else if v < Taken(c, fs, token) then None
       else Some(v - Taken(c, fs, token)))
    else if o == a && s == target then Some(match LastTake(c, fs, token) case Some(u) => u case None => v)
    else Some(v)
  }

  lemma KnownSplit(c: Chain, fs: seq<FromArgs>)
    requires fs != [] && AssetsKnown(c, fs)
    ensures c.asset(fs[0].asset).Some? && AssetsKnown(c, fs[1..])
  {
  }

  lemma TakeSplit(c: Chain, a: Address, fs: seq<FromArgs>, owner: Address, target: Address)
    requires fs != []
    ensures var token, amt := TokenOf(c, fs[0].asset), WordOf(fs[0].toTake);
            TakeOps(c, a, fs, owner, target) ==
            [Pull(token, a, owner, a, amt), Approve(token, a, target, amt)] + TakeOps(c, a, fs[1..], owner, target)
  {
  }

  lemma {:induction false} TakeRuns(c: Chain, a: Address, fs: seq<FromArgs>, owner: Address, target: Address,
        token: Address, h: Address, v: Word)
    requires AssetsKnown(c, fs) && owner != a
    ensures BalanceRun(TakeOps(c, a, fs, owner, target), token, h, v) == TakenFrom(c, a, fs, owner, token, h, v)
    decreases fs
  {
    if fs != [] {
      KnownSplit(c, fs);
      TakeSplit(c, a, fs, owner, target);
      var t, amt := TokenOf(c, fs[0].asset), WordOf(fs[0].toTake);
      var pull, approve := Pull(t, a, owner, a, amt), Approve(t, a, target, amt);
      BalanceRunThen([pull, approve], TakeOps(c, a, fs[1..], owner, target), token, h, v);
      RunTwo(c.unlimited, pull, approve, token, h, h, h, v);
      match BalanceAfter(pull, token, h, v)
      case None =>
      case Some(u) => TakeRuns(c, a, fs[1..], owner, target, token, h, u);
    }
  }

  lemma {:induction false} TakeAllows(c: Chain, a: Address, fs: seq<FromArgs>, owner: Address, target: Address,
        token: Address, o: Address, s: Address, v: Word)
    requires AssetsKnown(c, fs) && owner != a
    ensures AllowanceRun(c.unlimited, TakeOps(c, a, fs, owner, target), token, o, s, v) ==
            LeftFrom(c, a, fs, owner, target, token, o, s, v)
    decreases fs
  {
    if fs != [] {
      KnownSplit(c, fs);
      TakeSplit(c, a, fs, owner, target);
      var t, amt := TokenOf(c, fs[0].asset), WordOf(fs[0].toTake);
      var pull, approve := Pull(t, a, owner, a, amt), Approve(t, a, target, amt);
      AllowanceRunThen(c.unlimited, [pull, approve], TakeOps(c, a, fs[1..], owner, target), token, o, s, v);
      RunTwo(c.unlimited, pull, approve, token, 0, o, s, v);
      match AllowanceRun(c.unlimited, [pull, approve], token, o, s, v)
      case None =>
      case Some(u) => TakeAllows(c, a, fs[1..], owner, target, token, o, s, u);
    }
  }

  lemma {:induction false} PermitRuns(c: Chain, a: Address, ps: seq<Permit>, owner: Address, token: Address, h: Address,
        o: Address, s: Address, v: Word)
    requires forall i :: 0 <= i < |ps| ==> c.asset(ps[i].asset).Some?
    ensures BalanceRun(PermitOps(c, a, ps, owner), token, h, v) == Some(v)
    ensures AllowanceRun(c.unlimited, PermitOps(c, a, ps, owner), token, o, s, v) ==
            Some(if o == owner && s == a && PermitFor(c, ps, token) then MAX else v)
    decreases ps
  {
    if ps != [] {
      var ops := PermitOps(c, a, ps, owner);
      assert ops == [ops[0]] + PermitOps(c, a, ps[1..], owner);
      BalanceRunThen([ops[0]], PermitOps(c, a, ps[1..], owner), token, h, v);
      AllowanceRunThen(c.unlimited, [ops[0]], PermitOps(c, a, ps[1..], owner), token, o, s, v);
      RunOne(c.unlimited, ops[0], token, h, o, s, v);
      var u := if c.asset(ps[0].asset) == Some(token) && o == owner && s == a then MAX else v;
      PermitRuns(c, a, ps[1..], owner, token, h, o, s, u);
      PermitRuns(c, a, ps[1..], owner, token, h, o, s, v);
      PermitForSplit(c, ps, token);
    }
  }

  lemma PermitForSplit(c: Chain, ps: seq<Permit>, token: Address)
    requires ps != []
    ensures PermitFor(c, ps, token) <==> c.asset(ps[0].asset) == Some(token) || PermitFor(c, ps[1..], token)
  {
    if i :| 0 < i < |ps| && c.asset(ps[i].asset) == Some(token) { assert ps[1..][i - 1] == ps[i]; }
  }

  /** What the account may take of a token once the permits have been accepted. */
  function Granted(c: Chain, l: Books, a: Address, x: SolveArgs, permitOwner: Address, transferOwner: Address,
        token: Address): (v: Word) {
    if permitOwner == transferOwner && PermitFor(c, x.permit, token) then MAX else Allowance(l, token, transferOwner, a)
  }

  /** The owner has what is pulled of the token and lets the account take it, and the account can hold it. */
  predicate Affords(c: Chain, l: Books, a: Address, x: SolveArgs, permitOwner: Address, transferOwner: Address,
      token: Address)
  {
    && Taken(c, x.from, token) <= Balance(l, token, transferOwner)
    && Taken(c, x.from, token) <= Granted(c, l, a, x, permitOwner, transferOwner, token)
    && Balance(l, token, a) + Taken(c, x.from, token) <= MAX
  }

  /** The operations of an item, for one balance and one allowance. */
  lemma ItemRuns(c: Chain, l: Books, a: Address, x: SolveArgs, permitOwner: Address, transferOwner: Address,
      token: Address, h: Address, o: Address, s: Address)
    requires AssetsKnown(c, x.from) && transferOwner != a
    requires forall i :: 0 <= i < |x.permit| ==> c.asset(x.permit[i].asset).Some?
    ensures var ops := ItemOps(c, a, x, permitOwner, transferOwner);
            var allowed :=
              if o == permitOwner && s == a && PermitFor(c, x.permit, token) then MAX else Allowance(l, token, o, s);
            && BalanceRun(ops, token, h, Balance(l, token, h)) ==
               TakenFrom(c, a, x.from, transferOwner, token, h, Balance(l, token, h))
            && AllowanceRun(c.unlimited, ops, token, o, s, Allowance(l, token, o, s)) ==
               LeftFrom(c, a, x.from, transferOwner, AddressOf(x.target), token, o, s, allowed)
  {
    var permits := PermitOps(c, a, x.permit, permitOwner);
    var takes := TakeOps(c, a, x.from, transferOwner, AddressOf(x.target));
    var allowed :=
      if o == permitOwner && s == a && PermitFor(c, x.permit, token) then MAX else Allowance(l, token, o, s);
    PermitRuns(c, a, x.permit, permitOwner, token, h, o, s, Balance(l, token, h));
    PermitRuns(c, a, x.permit, permitOwner, token, h, o, s, Allowance(l, token, o, s));
    BalanceRunThen(permits, takes, token, h, Balance(l, token, h));
    AllowanceRunThen(c.unlimited, permits, takes, token, o, s, Allowance(l, token, o, s));
    TakeRuns(c, a, x.from, transferOwner, AddressOf(x.target), token, h, Balance(l, token, h));
    TakeAllows(c, a, x.from, transferOwner, AddressOf(x.target), token, o, s, allowed);
  }

  /** No token operation of an item that pulls from someone other than the account is refused exactly when, for
      every token, the owner has all that is pulled of it, has allowed it by a permit or before, and the
      account can hold it. */
  lemma ItemFundedExactly(c: Chain, l: Books, a: Address, x: SolveArgs, permitOwner: Address, transferOwner: Address)
    requires AssetsKnown(c, x.from) && transferOwner != a
    requires forall i :: 0 <= i < |x.permit| ==> c.asset(x.permit[i].asset).Some?
    ensures Script(c.unlimited, l, ItemOps(c, a, x, permitOwner, transferOwner)).Some? <==>
            forall token :: Affords(c, l, a, x, permitOwner, transferOwner, token)
  {
    var ops := ItemOps(c, a, x, permitOwner, transferOwner);
    ScriptExactly(c.unlimited, l, ops);
    if Clear(c.unlimited, l, ops) {
      forall token ensures Affords(c, l, a, x, permitOwner, transferOwner, token) {
        ItemRuns(c, l, a, x, permitOwner, transferOwner, token, transferOwner, transferOwner, a);
        ItemRuns(c, l, a, x, permitOwner, transferOwner, token, a, transferOwner, a);
        assert BalanceRun(ops, token, a, Balance(l, token, a)).Some?;
        assert BalanceRun(ops, token, transferOwner, Balance(l, token, transferOwner)).Some?;
        assert AllowanceRun(c.unlimited, ops, token, transferOwner, a, Allowance(l, token, transferOwner, a)).Some?;
      }
    }
    if forall token :: Affords(c, l, a, x, permitOwner, transferOwner, token) {
      forall token, h ensures BalanceRun(ops, token, h, Balance(l, token, h)).Some? {
        assert Affords(c, l, a, x, permitOwner, transferOwner, token);
        ItemRuns(c, l, a, x, permitOwner, transferOwner, token, h, 0, 0);
      }
      forall token, o, s ensures AllowanceRun(c.unlimited, ops, token, o, s, Allowance(l, token, o, s)).Some? {
        assert Affords(c, l, a, x, permitOwner, transferOwner, token);
        ItemRuns(c, l, a, x, permitOwner, transferOwner, token, 0, o, s);
      }
    }
  }

  /** What the target of such an item finds in the ledgers: the owner has given what was pulled and the account
      has it; the account may take from the owner what was granted less what was pulled, unless the token
      does not count it down; the target may take from the account what was pulled last; a permit of
      another owner stands; and nothing else is different. */
  lemma ItemLedger(c: Chain, l: Books, a: Address, x: SolveArgs, permitOwner: Address, transferOwner: Address,
      token: Address, h: Address, o: Address, s: Address)
    requires AssetsKnown(c, x.from) && transferOwner != a
    requires forall i :: 0 <= i < |x.permit| ==> c.asset(x.permit[i].asset).Some?
    requires Script(c.unlimited, l, ItemOps(c, a, x, permitOwner, transferOwner)).Some?
    ensures var end := Script(c.unlimited, l, ItemOps(c, a, x, permitOwner, transferOwner)).value;
            var taken, granted := Taken(c, x.from, token), Granted(c, l, a, x, permitOwner, transferOwner, token);
            && Balance(end, token, h) ==
               Balance(l, token, h) + (if h == a then taken else 0) - (if h == transferOwner then taken else 0)
            && Allowance(end, token, o, s) ==
               (if o == transferOwner && s == a then
                  (if granted == MAX && c.unlimited(token) then MAX else granted - taken)
                else if o == a && s == AddressOf(x.target) && LastTake(c, x.from, token).Some? then
                  LastTake(c, x.from, token).value
                else if o == permitOwner && s == a && PermitFor(c, x.permit, token) then MAX
                else Allowance(l, token, o, s))
  {
    ScriptEnds(c.unlimited, l, ItemOps(c, a, x, permitOwner, transferOwner), token, h, o, s);
    ItemRuns(c, l, a, x, permitOwner, transferOwner, token, h, o, s);
  }

  /** All that an item sent on its own needs up to the call of its target. */
  ghost predicate ReadyToCall(c: Chain, w: World, a: Address, item: SolveArgsSigArgs, reply: Reply)
    requires a in w.accounts && ArgsFit(c.assets, Solve([item]))
  {
    var x, owner := item.args, OwnerOf(w, a);
    && !w.accounts[a].locked && SignedBy(c, w, a, Solve([item])) && !Used(c, w, a, NonceOf(x.msTs))
    && Accepted(c, x.permit, reply.permits) && AssetsKnown(c, x.from)
    && (forall token :: Affords(c, w.ledger, a, x, owner, owner, token))
    && MayCall(w, a, reply)
  }

  lemma PreparedReaches(c: Chain, w: World, a: Address, x: SolveArgs, owner: Address, reply: Reply)
    requires a in w.accounts && owner != a
    ensures Reaches(c, SetLock(w, a, true), a, x, owner, owner, reply) <==>
            && !Used(c, w, a, NonceOf(x.msTs)) && Accepted(c, x.permit, reply.permits) && AssetsKnown(c, x.from)
            && (forall token :: Affords(c, w.ledger, a, x, owner, owner, token)) && MayCall(w, a, reply)
  {
    assert Store(SetLock(w, a, true), a) == Store(w, a);
    if Accepted(c, x.permit, reply.permits) && AssetsKnown(c, x.from) {
      ItemFundedExactly(c, w.ledger, a, x, owner, owner);
    }
  }

  lemma LeadOne(c: Chain, w: World, a: Address, x: SolveArgs, owner: Address, reply: Reply, end: World)
    ensures Lead(c, w, a, [x], owner, owner, [reply], end) <==>
            && Reaches(c, w, a, x, owner, owner, reply) && reply.ok
            && end == Acts(c, Reached(c, w, a, x, owner, owner), reply.acts).w
            && Keeps(c, end.ledger, a, x)
  {
    assert [x][1..] == [] && [reply][1..] == [];
  }

  /** A signed item sent on its own, to an account that is not its own owner: it commits exactly when the lock
      is free, the nonce is free, the permits are accepted, the owner can pay out of a permit or an allowance,
      there is no authority or it allows the target, the target succeeds, and the minima are kept. */
  lemma ItemCommitsExactly(c: Chain, w: World, a: Address, sender: Address, cd: seq<Byte>, gasPermit: bool,
        item: SolveArgsSigArgs, reply: Reply)
    requires Separated(c) && a in w.accounts && !FromAdmin(w, a, sender) && Carries(c, cd, Solve([item]))
    requires OwnerOf(w, a) != a
    ensures var ok := Receive(c, w, a, sender, cd, gasPermit, [reply]).ok;
            var locked, owner := SetLock(w, a, true), OwnerOf(w, a);
            if !ReadyToCall(c, w, a, item, reply) then !ok
            else
              && Reaches(c, locked, a, item.args, owner, owner, reply)
              && var next := Acts(c, Reached(c, locked, a, item.args, owner, owner), reply.acts).w;
              (ok <==> reply.ok && Keeps(c, next.ledger, a, item.args))
  {
    var r := Receive(c, w, a, sender, cd, gasPermit, [reply]);
    var locked, owner := SetLock(w, a, true), OwnerOf(w, a);
    var args := Solve([item]);
    assert Plain([item]) == [item.args];
    PreparedReaches(c, w, a, item.args, owner, reply);
    ReceiveExactly(c, w, a, sender, cd, gasPermit, [reply], r.w);
    RequestLeaves(c, w, a, sender, cd, gasPermit, [reply], args, r.w);
    forall mid ensures Lead(c, locked, a, [item.args], owner, owner, [reply], mid) <==>
            && Reaches(c, locked, a, item.args, owner, owner, reply) && reply.ok
            && mid == Acts(c, Reached(c, locked, a, item.args, owner, owner), reply.acts).w
            && Keeps(c, mid.ledger, a, item.args)
    {
      LeadOne(c, locked, a, item.args, owner, reply, mid);
    }
    if ReadyToCall(c, w, a, item, reply) && reply.ok {
      var reached := Reached(c, locked, a, item.args, owner, owner);
      var next := Acts(c, reached, reply.acts).w;
      ActsSound(c, reached, reply.acts);
      AccountsStay(c, reached, Acts(c, reached, reply.acts).log, a);
      var end := SetLock(next, a, false);
      ReceiveExactly(c, w, a, sender, cd, gasPermit, [reply], end);
      RequestLeaves(c, w, a, sender, cd, gasPermit, [reply], args, end);
    }
  }
}
