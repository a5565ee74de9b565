/** LiteAccount over whole runs, with re-entrant callbacks: no nonce forwards two calls. */
module LiteHistory {
  import opened Words
  import opened Evm
  import opened LiteCode
  import opened LiteAccount

  /** A deployed account: its address, who owns it, whose signatures it obeys, and the hash function
      that places its nonces in storage. */
  datatype Account = Account(self: Address, owner: Address, operator: Word, keccak: seq<Byte> -> Word)

  /** A message to the account and everything the world answers while it is handled: what the hash
      precompile returns, whether the signature verifies, and what the target does when called. The
      target may send the account any messages of its own before it succeeds or fails. */
  datatype Visit = Visit(caller: Address, calldata: Data, digest: Data, verified: bool,
                         inner: seq<Visit>, ok: bool, ret: Data)

  ghost function World(acct: Account, v: Visit): (answer: (CallRecord, Storage, seq<CallRecord>) -> Answer)
    decreases v, 0
  {
    (req: CallRecord, st: Storage, calls: seq<CallRecord>) =>
      if req.kind == ByCall then Answer(v.ok, v.ret, After(acct, st, v.inner))
      else if calls == [] then Answer(true, v.digest, st)
      else Answer(v.verified, [], st)
  }

  ghost function Frame(acct: Account, v: Visit): (env: Env)
    decreases v, 1
  {
    Env(acct.self, v.caller, v.calldata, 0, acct.keccak, a => 0, World(acct, v))
  }

  /** How the byte code ends when it handles a message. */
  ghost function Handled(acct: Account, st: Storage, v: Visit): (h: Option<Halt>)
    decreases v, 2
  {
    Final(Lite(acct.owner, acct.operator), Frame(acct, v), Start(st))
  }

  /** The storage a message leaves behind: a message that does not return leaves no trace. */
  ghost function AfterOne(acct: Account, st: Storage, v: Visit): (r: Storage)
    decreases v, 3
  {
    match Handled(acct, st, v)
    case Some(Returned(_, after, _)) => after
    case _ => st
  }

  ghost function After(acct: Account, st: Storage, vs: seq<Visit>): (r: Storage)
    decreases vs, 4
  {
    if vs == [] then st else After(acct, AfterOne(acct, st, vs[0]), vs[1..])
  }

  function Slot(acct: Account, nonce: seq<Byte>): (slot: Word) {
    acct.keccak([1] + nonce)
  }

  /** The nonces of the forwarded calls that a message leaves committed, in order of completion. */
  ghost function ForwardedOne(acct: Account, st: Storage, v: Visit): (log: seq<seq<Byte>>)
    decreases v, 5
  {
    match Handled(acct, st, v)
    case Some(Returned(_, _, calls)) =>
      if exists r :: r in calls && r.kind == ByCall
      then Forwarded(acct, st[Slot(acct, Nonce(v.calldata)) := 1], v.inner) + [Nonce(v.calldata)]
      else []
    case _ => []
  }

  ghost function Forwarded(acct: Account, st: Storage, vs: seq<Visit>): (log: seq<seq<Byte>>)
    decreases vs, 6
  {
    if vs == [] then []
    else ForwardedOne(acct, st, vs[0]) + Forwarded(acct, AfterOne(acct, st, vs[0]), vs[1..])
  }

  predicate IsNonce(n: seq<Byte>) {
    |n| == 16
  }

  /** The hash neither collides on nonces nor hits the slot of the enabled flag. */
  ghost predicate Separated(acct: Account) {
    && (forall a, b :: IsNonce(a) && IsNonce(b) && Slot(acct, a) == Slot(acct, b) ==> a == b)
    && (forall a :: IsNonce(a) ==> Slot(acct, a) != 0)
  }

  ghost function Used(acct: Account, st: Storage): (r: iset<seq<Byte>>) {
    iset n: seq<Byte> | IsNonce(n) && Load(st, Slot(acct, n)) != 0
  }

  ghost predicate Distinct(log: seq<seq<Byte>>) {
    forall i, j :: 0 <= i < j < |log| ==> log[i] != log[j]
  }

  /** From `st` to `after`, exactly the nonces in `log` were used up, each once. */
  ghost predicate Spends(acct: Account, st: Storage, log: seq<seq<Byte>>, after: Storage) {
    && Distinct(log)
    && (forall n :: n in log ==> IsNonce(n) && n !in Used(acct, st))
    && Used(acct, after) == Used(acct, st) + (iset n | n in log)
  }

  lemma SpendsThen(acct: Account, a: Storage, x: seq<seq<Byte>>, b: Storage, y: seq<seq<Byte>>, c: Storage)
    requires Spends(acct, a, x, b) && Spends(acct, b, y, c)
    ensures Spends(acct, a, x + y, c)
  {
    assert forall n :: n in x ==> n in Used(acct, b);
    assert forall n :: n in x + y <==> n in x || n in y;
    forall i, j | 0 <= i < j < |x + y| ensures (x + y)[i] != (x + y)[j] {
      if i < |x| <= j { assert x[i] in Used(acct, b) && y[j - |x|] !in Used(acct, b); }
    }
  }

  /** Using one nonce. */
  lemma ClaimSpends(acct: Account, st: Storage, nonce: seq<Byte>)
    requires Separated(acct) && IsNonce(nonce) && nonce !in Used(acct, st)
    ensures Spends(acct, st, [nonce], st[Slot(acct, nonce) := 1])
  {
    var after := st[Slot(acct, nonce) := 1];
    forall n: seq<Byte> ensures n in Used(acct, after) <==> n in Used(acct, st) || n == nonce {
      if IsNonce(n) && n != nonce {
        assert Slot(acct, n) != Slot(acct, nonce);
      }
    }
  }

  /** The owner's switch frees no nonce. */
  lemma SwitchSpendsNothing(acct: Account, st: Storage, w: Word)
    requires Separated(acct)
    ensures Spends(acct, st, [], st[0 := w])
  {
    forall n: seq<Byte> ensures n in Used(acct, st[0 := w]) <==> n in Used(acct, st) {
      if IsNonce(n) { assert Slot(acct, n) != 0; }
    }
  }

  /** Swapping the order in which a claim and what follows it are logged. */
  lemma SpendsSwap(acct: Account, a: Storage, x: seq<seq<Byte>>, y: seq<seq<Byte>>, b: Storage)
    requires Spends(acct, a, x + y, b)
    ensures Spends(acct, a, y + x, b)
  {
    assert forall n :: n in x + y <==> n in y + x;
    forall i, j | 0 <= i < j < |y + x| ensures (y + x)[i] != (y + x)[j] {
      var p := if i < |y| then |x| + i else i - |y|;
      var q := if j < |y| then |x| + j else j - |y|;
      assert (x + y)[p] == (y + x)[i] && (x + y)[q] == (y + x)[j] && p != q;
      assert if p < q then (x + y)[p] != (x + y)[q] else (x + y)[q] != (x + y)[p];
    }
  }

  /** What a message that is not from the owner leaves behind. */
  lemma ForwardingVisit(acct: Account, st: Storage, v: Visit)
    requires v.caller != acct.owner && LiteSpec(acct.owner, acct.operator, Frame(acct, v), st).Returned?
    ensures var nonce := Nonce(v.calldata);
            var claimed := st[Slot(acct, nonce) := 1];
            && nonce !in Used(acct, st)
            && AfterOne(acct, st, v) == After(acct, claimed, v.inner)
            && ForwardedOne(acct, st, v) == Forwarded(acct, claimed, v.inner) + [nonce]
  {
    var env := Frame(acct, v);
    LiteRefines(acct.owner, acct.operator, env, st);
    var h := LiteSpec(acct.owner, acct.operator, env, st);
    assert NonceSlot(env) == Slot(acct, Nonce(v.calldata));
    assert h.calls[2].kind == ByCall && h.calls[2] in h.calls;
  }

  lemma {:induction false} OneVisitSpends(acct: Account, st: Storage, v: Visit)
    requires Separated(acct)
    ensures Spends(acct, st, ForwardedOne(acct, st, v), AfterOne(acct, st, v))
    decreases v, 1
  {
    var h := LiteSpec(acct.owner, acct.operator, Frame(acct, v), st);
    if v.caller != acct.owner && h.Returned? {
      var nonce := Nonce(v.calldata);
      var claimed := st[Slot(acct, nonce) := 1];
      ForwardingVisit(acct, st, v);
      ClaimSpends(acct, st, nonce);
      VisitsSpend(acct, claimed, v.inner);
      var log := Forwarded(acct, claimed, v.inner);
      SpendsThen(acct, st, [nonce], claimed, log, After(acct, claimed, v.inner));
      SpendsSwap(acct, st, [nonce], log, After(acct, claimed, v.inner));
    } else {
      LiteRefines(acct.owner, acct.operator, Frame(acct, v), st);
      if v.caller == acct.owner {
        SwitchSpendsNothing(acct, st, WordAt(v.calldata, 0));
      }
    }
  }

  /** Whatever messages the account gets, from anyone, with callbacks of any depth and with failed
      messages rolled back: each nonce forwards at most one committed call, none that was used
      before, and the used nonces grow by exactly those. */
  lemma {:induction false} VisitsSpend(acct: Account, st: Storage, vs: seq<Visit>)
    requires Separated(acct)
    ensures Spends(acct, st, Forwarded(acct, st, vs), After(acct, st, vs))
    decreases vs, 2
  {
    if vs != [] {
      var mid := AfterOne(acct, st, vs[0]);
      OneVisitSpends(acct, st, vs[0]);
      VisitsSpend(acct, mid, vs[1..]);
      SpendsThen(acct, st, ForwardedOne(acct, st, vs[0]), mid, Forwarded(acct, mid, vs[1..]), After(acct, mid, vs[1..]));
    }
  }
}
