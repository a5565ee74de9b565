/** What a run records of a request that commits: its payloads as served, and for each item the use of its
    nonce and the call of its target; and of a guarded request, that it began and ended. */
module Records {
  import opened Words
  import opened Accounts
  import opened Wire
  import opened Protocol
  import opened ProtocolRuns
  import opened Entrypoint
  import opened Dispatch

  /** The log has the use of the nonce and the call of the target of each item. */
  predicate ItemsLogged(log: seq<Event>, a: Address, xs: seq<SolveArgs>, replies: seq<Reply>) {
    |xs| <= |replies| && forall i :: 0 <= i < |xs| ==> ItemLogged(log, a, xs[i], replies[i])
  }

  predicate ItemLogged(log: seq<Event>, a: Address, x: SolveArgs, reply: Reply) {
    Spent(a, NonceOf(x.msTs)) in log && Called(a, AddressOf(x.target), reply.codeHash) in log
  }

  lemma PrepareLogs(c: Chain, w: World, a: Address, x: SolveArgs, permitOwner: Address, transferOwner: Address,
      reply: Reply)
    requires Prepare(c, w, a, x, permitOwner, transferOwner, reply).ok
    ensures ItemLogged(Prepare(c, w, a, x, permitOwner, transferOwner, reply).log, a, x, reply)
  {
    var spent := Raise(c, w, Spent(a, NonceOf(x.msTs)));
    var permits := Permits(c, spent.w, a, x.permit, permitOwner, reply.permits);
    var permitted := Join(spent, permits);
    var takes := Takes(c, permitted.w, a, x.from, transferOwner, AddressOf(x.target));
    var taken := Join(permitted, takes);
    JoinLogs(spent, permits);
    JoinLogs(permitted, takes);
    JoinLogs(taken, CallOut(c, taken.w, a, AddressOf(x.target), reply));
    assert spent.log == [Spent(a, NonceOf(x.msTs))];
  }

  lemma JoinLogs(s: Step, t: Step)
    requires Join(s, t).ok
    ensures s.ok && t.ok && Join(s, t).log == s.log + t.log
  {
  }

  lemma ItemLogs(c: Chain, w: World, a: Address, x: SolveArgs, permitOwner: Address, transferOwner: Address,
      reply: Reply)
    requires Item(c, w, a, x, permitOwner, transferOwner, reply).ok
    ensures ItemLogged(Item(c, w, a, x, permitOwner, transferOwner, reply).log, a, x, reply)
  {
    var ready := Prepare(c, w, a, x, permitOwner, transferOwner, reply);
    JoinLogs(ready, Acts(c, ready.w, reply.acts));
    PrepareLogs(c, w, a, x, permitOwner, transferOwner, reply);
  }

  lemma {:induction false} ItemsLog(c: Chain, w: World, a: Address, xs: seq<SolveArgs>, permitOwner: Address,
      transferOwner: Address, replies: seq<Reply>)
    requires Items(c, w, a, xs, permitOwner, transferOwner, replies).ok
    ensures ItemsLogged(Items(c, w, a, xs, permitOwner, transferOwner, replies).log, a, xs, replies)
    decreases xs
  {
    if xs != [] {
      var s := Item(c, w, a, xs[0], permitOwner, transferOwner, replies[0]);
      var t := Items(c, s.w, a, xs[1..], permitOwner, transferOwner, replies[1..]);
      JoinLogs(s, t);
      ItemLogs(c, w, a, xs[0], permitOwner, transferOwner, replies[0]);
      ItemsLog(c, s.w, a, xs[1..], permitOwner, transferOwner, replies[1..]);
      forall i | 0 <= i < |xs| ensures ItemLogged(s.log + t.log, a, xs[i], replies[i]) {
        if i > 0 { assert ItemLogged(t.log, a, xs[1..][i - 1], replies[1..][i - 1]); }
      }
    }
  }

  lemma NotingLogs(s: Step, a: Address, ps: seq<Payload>, xs: seq<SolveArgs>, replies: seq<Reply>)
    requires s.ok && ItemsLogged(s.log, a, xs, replies)
    ensures ItemsLogged(Noting(s, a, ps).log, a, xs, replies)
    ensures forall i :: 0 <= i < |ps| ==> Served(a, ps[i]) in Noting(s, a, ps).log
  {
    var noted := Note(s.w, a, ps).log;
    assert Noting(s, a, ps).log == s.log + noted;
    forall i | 0 <= i < |xs| ensures ItemLogged(s.log + noted, a, xs[i], replies[i]) {
      assert ItemLogged(s.log, a, xs[i], replies[i]);
    }
    forall i | 0 <= i < |ps| ensures Served(a, ps[i]) in s.log + noted { assert noted[i] == Served(a, ps[i]); }
  }

  lemma GuardedLogs(c: Chain, w: World, a: Address, s: Step)
    requires Guarded(c, w, a, s).ok
    ensures s.ok && Guarded(c, w, a, s).log == [Locked(a)] + s.log + [Unlocked(a)]
  {
  }

  /** What is signed of a request. */
  function PayloadsOf(args: Args): (ps: seq<Payload>) {
    match args
    case FreshBackwards(_, _, _, _, _, items, _) => ItemPayloads(items)
    case Solve(items) => ItemPayloads(items)
    case SolveV2(x, _) => [V2Payload(x)]
    case SolveV3(x, _) => [V3Payload(x)]
    case TransferOnly(x, _) => [TransferPayload(x)]
    case Statement(x, _) => [StatementPayload(x)]
    case _ => []
  }

  /** The log has the payloads of the request as served, and its items. */
  predicate Recorded(log: seq<Event>, a: Address, args: Args, replies: seq<Reply>) {
    && (forall i :: 0 <= i < |PayloadsOf(args)| ==> Served(a, PayloadsOf(args)[i]) in log)
    && ItemsLogged(log, a, ItemsOf(args), replies)
  }

  lemma LongerLog(log: seq<Event>, before: seq<Event>, after: seq<Event>, a: Address, args: Args, replies: seq<Reply>)
    requires Recorded(log, a, args, replies)
    ensures Recorded(before + log + after, a, args, replies)
  {
    forall i | 0 <= i < |ItemsOf(args)| ensures ItemLogged(before + log + after, a, ItemsOf(args)[i], replies[i]) {
      assert ItemLogged(log, a, ItemsOf(args)[i], replies[i]);
    }
  }

  lemma LaterItems(before: seq<Event>, log: seq<Event>, a: Address, xs: seq<SolveArgs>, replies: seq<Reply>)
    requires ItemsLogged(log, a, xs, replies)
    ensures ItemsLogged(before + log, a, xs, replies)
  {
    forall i | 0 <= i < |xs| ensures ItemLogged(before + log, a, xs[i], replies[i]) {
      assert ItemLogged(log, a, xs[i], replies[i]);
    }
  }

  /** Items that went well, with their payloads noted. */
  lemma NotedItems(s: Step, a: Address, args: Args, replies: seq<Reply>)
    requires s.ok && ItemsLogged(s.log, a, ItemsOf(args), replies)
    ensures Recorded(Noting(s, a, PayloadsOf(args)).log, a, args, replies)
  {
    NotingLogs(s, a, PayloadsOf(args), ItemsOf(args), replies);
  }

  lemma NotedIfWell(s: Step, a: Address, args: Args, replies: seq<Reply>)
    requires s.ok ==> ItemsLogged(s.log, a, ItemsOf(args), replies)
    ensures var noted := Noting(s, a, PayloadsOf(args)); noted.ok ==> Recorded(noted.log, a, args, replies)
  {
    NotingKeeps(s, a, PayloadsOf(args));
    if s.ok { NotedItems(s, a, args, replies); }
  }

  lemma SolveOneLogs(c: Chain, w: World, a: Address, items: seq<SolveArgsSigArgs>, replies: seq<Reply>)
    requires SolveOne(c, w, a, items, replies).ok
    ensures Recorded(SolveOne(c, w, a, items, replies).log, a, Solve(items), replies)
  {
    var s := Items(c, w, a, Plain(items), OwnerOf(w, a), OwnerOf(w, a), replies);
    NotingKeeps(s, a, ItemPayloads(items));
    ItemsLog(c, w, a, Plain(items), OwnerOf(w, a), OwnerOf(w, a), replies);
    NotingLogs(s, a, ItemPayloads(items), Plain(items), replies);
  }

  lemma GuardedSolveLogs(c: Chain, w: World, a: Address, items: seq<SolveArgsSigArgs>, replies: seq<Reply>)
    requires Guarded(c, w, a, SolveOne(c, Lock(c, w, a), a, items, replies)).ok
    ensures Recorded(Guarded(c, w, a, SolveOne(c, Lock(c, w, a), a, items, replies)).log, a, Solve(items), replies)
  {
    var s := SolveOne(c, Lock(c, w, a), a, items, replies);
    GuardedLogs(c, w, a, s);
    SolveOneLogs(c, Lock(c, w, a), a, items, replies);
    LongerLog(s.log, [Locked(a)], [Unlocked(a)], a, Solve(items), replies);
  }

  lemma UnguardedTwoLogs(c: Chain, w: World, a: Address, x: SolveV2Args, sig: Bytes64, replies: seq<Reply>)
    requires SolveTwo(c, w, a, x, sig, replies).ok
    ensures Recorded(SolveTwo(c, w, a, x, sig, replies).log, a, SolveV2(x, sig), replies)
  {
    var p, t := AddressOf(x.permitOwner), AddressOf(x.transferOwner);
    var items := Items(c, w, a, x.args, p, t, replies);
    if items.ok { ItemsLog(c, w, a, x.args, p, t, replies); }
    NotedIfWell(items, a, SolveV2(x, sig), replies);
  }

  lemma SolveTwoLogs(c: Chain, w: World, a: Address, x: SolveV2Args, sig: Bytes64, replies: seq<Reply>)
    requires Guarded(c, w, a, SolveTwo(c, Lock(c, w, a), a, x, sig, replies)).ok
    ensures Recorded(Guarded(c, w, a, SolveTwo(c, Lock(c, w, a), a, x, sig, replies)).log, a, SolveV2(x, sig), replies)
  {
    var locked := Lock(c, w, a);
    var s := SolveTwo(c, locked, a, x, sig, replies);
    GuardedLogs(c, w, a, s);
    UnguardedTwoLogs(c, locked, a, x, sig, replies);
    LongerLog(s.log, [Locked(a)], [Unlocked(a)], a, SolveV2(x, sig), replies);
  }

  lemma PaidLogs(c: Chain, paid: Step, a: Address, xs: seq<SolveArgs>, owner: Address, replies: seq<Reply>)
    requires Join(paid, Items(c, paid.w, a, xs, owner, owner, replies)).ok
    ensures ItemsLogged(Join(paid, Items(c, paid.w, a, xs, owner, owner, replies)).log, a, xs, replies)
  {
    var items := Items(c, paid.w, a, xs, owner, owner, replies);
    JoinLogs(paid, items);
    ItemsLog(c, paid.w, a, xs, owner, owner, replies);
    LaterItems(paid.log, items.log, a, xs, replies);
  }

  lemma SolveThreeLogs(c: Chain, w: World, a: Address, x: SolveV3Args, sig: Bytes64, accepted: bool,
      replies: seq<Reply>)
    requires SolveThree(c, w, a, x, sig, accepted, replies).ok
    ensures Recorded(SolveThree(c, w, a, x, sig, accepted, replies).log, a, SolveV3(x, sig), replies)
  {
    PaidAndNoted(c, PayGas(c, w, a, x, accepted), a, x, sig, OwnerOf(w, a), replies);
  }

  lemma PaidAndNoted(c: Chain, paid: Step, a: Address, x: SolveV3Args, sig: Bytes64, owner: Address,
      replies: seq<Reply>)
    ensures var s := Noting(Join(paid, Items(c, paid.w, a, x.args, owner, owner, replies)), a, [V3Payload(x)]);
            s.ok ==> Recorded(s.log, a, SolveV3(x, sig), replies)
  {
    var both := Join(paid, Items(c, paid.w, a, x.args, owner, owner, replies));
    if both.ok { PaidLogs(c, paid, a, x.args, owner, replies); }
    NotedIfWell(both, a, SolveV3(x, sig), replies);
  }

  lemma TransferLogs(c: Chain, w: World, a: Address, x: TransferOnlyArgs, sig: Bytes64, replies: seq<Reply>)
    requires Guarded(c, w, a, TransferAll(c, Lock(c, w, a), a, x, sig, PermitsIn(replies))).ok
    ensures var s := Guarded(c, w, a, TransferAll(c, Lock(c, w, a), a, x, sig, PermitsIn(replies)));
            Recorded(s.log, a, TransferOnly(x, sig), replies)
  {
    var locked := Lock(c, w, a);
    var s := TransferAll(c, locked, a, x, sig, PermitsIn(replies));
    GuardedLogs(c, w, a, s);
    var spent := Raise(c, locked, Spent(a, NonceOf(x.msTs)));
    var sent := Join(spent, Transfers(c, spent.w, a, x.args, PermitsIn(replies)));
    NotingKeeps(sent, a, [TransferPayload(x)]);
    NotingLogs(sent, a, [TransferPayload(x)], [], replies);
    LongerLog(s.log, [Locked(a)], [Unlocked(a)], a, TransferOnly(x, sig), replies);
  }

  lemma StateLogs(c: Chain, w: World, a: Address, x: StatementArgs, sig: Bytes64, replies: seq<Reply>)
    requires State(c, w, a, x, sig).ok
    ensures Recorded(State(c, w, a, x, sig).log, a, Statement(x, sig), replies)
  {
    var spent := Raise(c, w, Spent(a, NonceOf(x.msTs)));
    NotingKeeps(spent, a, [StatementPayload(x)]);
    NotingLogs(spent, a, [StatementPayload(x)], [], replies);
  }

  /** The account that serves a request: the new one for a creation. */
  function ServerOf(c: Chain, a: Address, args: Args): (at: Address) {
    if args.FreshBackwards? then ProxyAt(c, a, AddressOf(args.eoaAddr)) else a
  }

  lemma FreshLogs(c: Chain, w: World, factory: Address, args: Args, replies: seq<Reply>)
    requires args.FreshBackwards? && ArgsFit(c.assets, args) && Fresh(c, w, factory, args, replies).ok
    ensures Recorded(Fresh(c, w, factory, args, replies).log, ServerOf(c, factory, args), args, replies)
  {
    if args.solveArgs != [] {
      var at, made := ServerOf(c, factory, args), Create(c, w, factory, ConsentOf(args));
      var attached := Attach(c, made.w, at, args.solveArgs, replies);
      BatchArrives(c, args.solveArgs);
      JoinLogs(made, attached);
      assert attached == Guarded(c, made.w, at, SolveOne(c, Lock(c, made.w, at), at, args.solveArgs, replies));
      GuardedSolveLogs(c, made.w, at, args.solveArgs, replies);
      AttachedRecord(made.log, attached.log, at, args, replies);
    }
  }

  lemma AttachedRecord(before: seq<Event>, log: seq<Event>, at: Address, args: Args, replies: seq<Reply>)
    requires args.FreshBackwards? && Recorded(log, at, Solve(args.solveArgs), replies)
    ensures Recorded(before + log, at, args, replies)
  {
    LaterItems(before, log, at, Plain(args.solveArgs), replies);
    var ps := PayloadsOf(Solve(args.solveArgs));
    assert PayloadsOf(args) == ps;
    forall i | 0 <= i < |ps| ensures Served(at, ps[i]) in before + log { assert Served(at, ps[i]) in log; }
  }

  lemma HandleLogs(c: Chain, w: World, a: Address, args: Args, gasPermit: bool, replies: seq<Reply>)
    requires ArgsFit(c.assets, args) && Handle(c, w, a, args, gasPermit, replies).ok
    ensures Recorded(Handle(c, w, a, args, gasPermit, replies).log, ServerOf(c, a, args), args, replies)
  {
    match args
    case FreshBackwards(_, _, _, _, _, _, _) => FreshLogs(c, w, a, args, replies);
    case Solve(items) => GuardedSolveLogs(c, w, a, items, replies);
    case SolveV2(x, sig) => SolveTwoLogs(c, w, a, x, sig, replies);
    case SolveV3(x, sig) => SolveThreeLogs(c, w, a, x, sig, gasPermit, replies);
    case TransferOnly(x, sig) => TransferLogs(c, w, a, x, sig, replies);
    case Statement(x, sig) => StateLogs(c, w, a, x, sig, replies);
    case _ =>
  }

  /** A request that commits is on record: everything signed in it as served by the account, and for each
      item the use of its nonce and the call of its target with the code hash that was found there. */
  lemma CommitsAreRecorded(c: Chain, w: World, a: Address, sender: Address, cd: seq<Byte>, gasPermit: bool,
      replies: seq<Reply>, args: Args)
    requires a in w.accounts && !FromAdmin(w, a, sender) && Carries(c, cd, args)
    requires Receive(c, w, a, sender, cd, gasPermit, replies).ok
    ensures Recorded(Perform(c, w, Message(a, sender, cd, gasPermit, replies)).log, ServerOf(c, a, args), args, replies)
  {
    CarriesExactly(c, cd, args);
    PerformRequest(c, w, a, sender, cd, gasPermit, replies, args);
    HandleLogs(c, w, a, args, gasPermit, replies);
  }

  /** A request that takes the lock leaves a mark when it begins and one when it ends, and it begins exactly
      when the lock is free, whether it commits or not. */
  lemma GuardIsMarked(c: Chain, w: World, a: Address, sender: Address, cd: seq<Byte>, gasPermit: bool,
      replies: seq<Reply>, args: Args)
    requires a in w.accounts && !FromAdmin(w, a, sender) && Carries(c, cd, args)
    requires args.Solve? || args.SolveV2? || args.TransferOnly?
    ensures var marks := Perform(c, w, Message(a, sender, cd, gasPermit, replies)).marks;
            if w.accounts[a].locked then marks == []
            else |marks| >= 2 && marks[0] == Enter(a) && marks[|marks| - 1] == Leave(a)
  {
    CarriesExactly(c, cd, args);
    PerformRequest(c, w, a, sender, cd, gasPermit, replies, args);
    match args
    case Solve(items) => GuardMarks(c, w, a, SolveOne(c, Lock(c, w, a), a, items, replies));
    case SolveV2(x, sig) => GuardMarks(c, w, a, SolveTwo(c, Lock(c, w, a), a, x, sig, replies));
    case TransferOnly(x, sig) => GuardMarks(c, w, a, TransferAll(c, Lock(c, w, a), a, x, sig, PermitsIn(replies)));
  }

  lemma GuardMarks(c: Chain, w: World, a: Address, s: Step)
    requires a in w.accounts
    ensures var marks := Guarded(c, w, a, s).marks;
            if w.accounts[a].locked then marks == []
            else |marks| >= 2 && marks[0] == Enter(a) && marks[|marks| - 1] == Leave(a)
  {
  }
}
