/** Every run of accounts, with callbacks of any depth and failed messages rolled back, is a sequence
    of single changes, and no account ever serves two lock-holding requests at once. */
module ProtocolRuns {
  import opened Words
  import Evm
  import opened Ledger
  import opened Accounts
  import opened Wire
  import opened Protocol
  import opened Entrypoint

  function Held(w: World): (r: set<Address>) {
    set a | a in w.accounts && w.accounts[a].locked
  }

  /** Who holds their lock after the marks; None when a lock is taken twice or not held when left. */
  function Hold(held: set<Address>, marks: seq<Mark>): (r: Option<set<Address>>)
    decreases |marks|
  {
    if marks == [] then Some(held)
    else
      match marks[0]
      case Enter(a) => if a in held then None else Hold(held + {a}, marks[1..])
      case Leave(a) => if a in held then Hold(held - {a}, marks[1..]) else None
  }

  lemma {:induction false} HoldThen(held: set<Address>, x: seq<Mark>, y: seq<Mark>)
    ensures Hold(held, x + y) == (match Hold(held, x) case None => None case Some(h) => Hold(h, y))
    decreases |x|
  {
    if x == [] {
      assert x + y == y;
    } else {
      assert (x + y)[1..] == x[1..] + y;
      match x[0]
      case Enter(a) => HoldThen(held + {a}, x[1..], y);
      case Leave(a) => HoldThen(held - {a}, x[1..], y);
    }
  }

  /** How many more requests of `a` have begun than ended. */
  function Open(marks: seq<Mark>, a: Address): (n: int) {
    multiset(marks)[Enter(a)] as int - multiset(marks)[Leave(a)]
  }

  lemma {:induction false} HoldCounts(held: set<Address>, marks: seq<Mark>, n: nat, a: Address)
    requires n <= |marks| && Hold(held, marks).Some?
    ensures 0 <= (if a in held then 1 else 0) + Open(marks[..n], a) <= 1
    decreases |marks|
  {
    if n > 0 {
      assert marks[..n] == [marks[0]] + marks[1..][..n - 1];
      match marks[0]
      case Enter(b) => HoldCounts(held + {b}, marks[1..], n - 1, a);
      case Leave(b) => HoldCounts(held - {b}, marks[1..], n - 1, a);
    }
  }

  /** The log accounts for the world reached, and every lock taken on the way was free and is left. */
  ghost predicate Sound(c: Chain, w: World, s: Step) {
    && Runs(c, w, s.log)
    && Replay(c, w, s.log) == s.w
    && Hold(Held(w), s.marks) == Some(Held(w))
    && (s.ok ==> Held(s.w) == Held(w))
  }

  lemma AppliedSound(c: Chain, w: World, e: Event)
    requires Enabled(c, w, e)
    ensures Runs(c, w, [e]) && Replay(c, w, [e]) == Apply(c, w, e)
  {
    assert [e][1..] == [];
  }

  lemma RaiseSound(c: Chain, w: World, e: Event)
    requires !e.Locked? && !e.Unlocked?
    ensures Sound(c, w, Raise(c, w, e))
  {
    if Enabled(c, w, e) {
      AppliedSound(c, w, e);
      assert Held(Apply(c, w, e)) == Held(w);
    }
  }

  lemma JoinSound(c: Chain, w: World, s: Step, t: Step)
    requires Sound(c, w, s) && Sound(c, s.w, t)
    ensures Sound(c, w, Join(s, t))
  {
    if s.ok {
      ReplayThen(c, w, s.log, t.log);
      HoldThen(Held(w), s.marks, t.marks);
    }
  }

  lemma {:induction false} NoteRuns(c: Chain, w: World, a: Address, ps: seq<Payload>)
    ensures Runs(c, w, Note(w, a, ps).log) && Replay(c, w, Note(w, a, ps).log) == w
    decreases |ps|
  {
    if ps != [] {
      NoteRuns(c, w, a, ps[1..]);
      assert Note(w, a, ps).log[1..] == Note(w, a, ps[1..]).log;
    }
  }

  lemma NotingSound(c: Chain, w: World, s: Step, a: Address, ps: seq<Payload>)
    requires Sound(c, w, s)
    ensures Sound(c, w, Noting(s, a, ps))
  {
    NoteRuns(c, s.w, a, ps);
    JoinSound(c, w, s, Note(s.w, a, ps));
  }

  /** Noting changes neither the verdict nor the world. */
  lemma NotingKeeps(s: Step, a: Address, ps: seq<Payload>)
    ensures Noting(s, a, ps).ok == s.ok && Noting(s, a, ps).w == s.w && Noting(s, a, ps).marks == s.marks
  {
    assert s.marks + [] == s.marks;
  }

  lemma GuardedSound(c: Chain, w: World, a: Address, s: Step)
    requires Sound(c, Lock(c, w, a), s)
    ensures Sound(c, w, Guarded(c, w, a, s))
  {
    if Enabled(c, w, Locked(a)) {
      var locked := Apply(c, w, Locked(a));
      var body := Join(Raise(c, w, Locked(a)).(marks := [Enter(a)]), s);
      AppliedSound(c, w, Locked(a));
      ReplayThen(c, w, [Locked(a)], s.log);
      assert Held(locked) == Held(w) + {a};
      HoldThen(Held(w), [Enter(a)], s.marks);
      assert Hold(Held(w), [Enter(a)]) == Some(Held(locked));
      HoldThen(Held(w), body.marks, [Leave(a)]);
      assert Held(locked) - {a} == Held(w);
      assert Hold(Held(locked), [Leave(a)]) == Some(Held(w));
      UnlockedSound(c, w, a, body);
    }
  }

  lemma UnlockedSound(c: Chain, w: World, a: Address, body: Step)
    requires Runs(c, w, body.log) && Replay(c, w, body.log) == body.w
    requires body.ok ==> Held(body.w) == Held(w) + {a}
    requires a !in Held(w)
    ensures var end := Join(body, Raise(c, body.w, Unlocked(a)));
            && Runs(c, w, end.log) && Replay(c, w, end.log) == end.w
            && end.marks == body.marks
            && (end.ok ==> Held(end.w) == Held(w))
  {
    if body.ok {
      var r := Raise(c, body.w, Unlocked(a));
      assert a in Held(body.w);
      AppliedSound(c, body.w, Unlocked(a));
      ReplayThen(c, w, body.log, r.log);
      assert Held(r.w) == Held(body.w) - {a};
      assert body.marks + [] == body.marks;
    }
  }

  lemma Permit1Sound(c: Chain, w: World, a: Address, asset: Byte, owner: Address, accepted: bool)
    ensures Sound(c, w, Permit1(c, w, a, asset, owner, accepted))
  {
    match c.asset(asset)
    case None =>
    case Some(token) => RaiseSound(c, w, Token(Approve(token, owner, a, MAX)));
  }

  lemma {:induction false} PermitsSound(c: Chain, w: World, a: Address, ps: seq<Permit>, owner: Address,
        accepted: seq<bool>)
    ensures Sound(c, w, Permits(c, w, a, ps, owner, accepted))
    decreases ps
  {
    if ps != [] && accepted != [] {
      var s := Permit1(c, w, a, ps[0].asset, owner, accepted[0]);
      Permit1Sound(c, w, a, ps[0].asset, owner, accepted[0]);
      PermitsSound(c, s.w, a, ps[1..], owner, accepted[1..]);
      JoinSound(c, w, s, Permits(c, s.w, a, ps[1..], owner, accepted[1..]));
    }
  }

  lemma Take1Sound(c: Chain, w: World, a: Address, f: FromArgs, owner: Address, target: Address)
    ensures Sound(c, w, Take1(c, w, a, f, owner, target))
  {
    match c.asset(f.asset)
    case None =>
    case Some(token) =>
      var pull, approve := Token(Pull(token, a, owner, a, WordOf(f.toTake))), Token(Approve(token, a, target, WordOf(f.toTake)));
      var s := Raise(c, w, pull);
      RaiseSound(c, w, pull);
      RaiseSound(c, s.w, approve);
      JoinSound(c, w, s, Raise(c, s.w, approve));
  }

  lemma {:induction false} TakesSound(c: Chain, w: World, a: Address, fs: seq<FromArgs>, owner: Address,
        target: Address)
    ensures Sound(c, w, Takes(c, w, a, fs, owner, target))
    decreases fs
  {
    if fs != [] {
      var s := Take1(c, w, a, fs[0], owner, target);
      Take1Sound(c, w, a, fs[0], owner, target);
      TakesSound(c, s.w, a, fs[1..], owner, target);
      JoinSound(c, w, s, Takes(c, s.w, a, fs[1..], owner, target));
    }
  }

  lemma PrepareSound(c: Chain, w: World, a: Address, x: SolveArgs, permitOwner: Address, transferOwner: Address,
        reply: Reply)
    ensures Sound(c, w, Prepare(c, w, a, x, permitOwner, transferOwner, reply))
  {
    var target := AddressOf(x.target);
    var spent := Raise(c, w, Spent(a, NonceOf(x.msTs)));
    RaiseSound(c, w, Spent(a, NonceOf(x.msTs)));
    var permits := Permits(c, spent.w, a, x.permit, permitOwner, reply.permits);
    PermitsSound(c, spent.w, a, x.permit, permitOwner, reply.permits);
    JoinSound(c, w, spent, permits);
    var permitted := Join(spent, permits);
    var takes := Takes(c, permitted.w, a, x.from, transferOwner, target);
    TakesSound(c, permitted.w, a, x.from, transferOwner, target);
    JoinSound(c, w, permitted, takes);
    var taken := Join(permitted, takes);
    RaiseSound(c, taken.w, Called(a, target, reply.codeHash));
    JoinSound(c, w, taken, CallOut(c, taken.w, a, target, reply));
  }

  lemma {:induction false} ItemSound(c: Chain, w: World, a: Address, x: SolveArgs, permitOwner: Address,
        transferOwner: Address, reply: Reply)
    ensures Sound(c, w, Item(c, w, a, x, permitOwner, transferOwner, reply))
    decreases reply, 1
  {
    var ready := Prepare(c, w, a, x, permitOwner, transferOwner, reply);
    PrepareSound(c, w, a, x, permitOwner, transferOwner, reply);
    ActsSound(c, ready.w, reply.acts);
    JoinSound(c, w, ready, Acts(c, ready.w, reply.acts));
  }

  lemma {:induction false} ItemsSound(c: Chain, w: World, a: Address, xs: seq<SolveArgs>, permitOwner: Address,
        transferOwner: Address, replies: seq<Reply>)
    ensures Sound(c, w, Items(c, w, a, xs, permitOwner, transferOwner, replies))
    decreases replies, 2
  {
    if xs != [] && replies != [] {
      var s := Item(c, w, a, xs[0], permitOwner, transferOwner, replies[0]);
      ItemSound(c, w, a, xs[0], permitOwner, transferOwner, replies[0]);
      ItemsSound(c, s.w, a, xs[1..], permitOwner, transferOwner, replies[1..]);
      JoinSound(c, w, s, Items(c, s.w, a, xs[1..], permitOwner, transferOwner, replies[1..]));
    }
  }

  lemma {:induction false} SolveOneSound(c: Chain, w: World, a: Address, items: seq<SolveArgsSigArgs>,
        replies: seq<Reply>)
    ensures Sound(c, w, SolveOne(c, w, a, items, replies))
    decreases replies, 3
  {
    ItemsSound(c, w, a, Plain(items), OwnerOf(w, a), OwnerOf(w, a), replies);
    NotingSound(c, w, Items(c, w, a, Plain(items), OwnerOf(w, a), OwnerOf(w, a), replies), a, ItemPayloads(items));
  }

  lemma {:induction false} SolveTwoSound(c: Chain, w: World, a: Address, x: SolveV2Args, sig: Bytes64,
      replies: seq<Reply>)
    ensures Sound(c, w, SolveTwo(c, w, a, x, sig, replies))
    decreases replies, 3
  {
    var s := Items(c, w, a, x.args, AddressOf(x.permitOwner), AddressOf(x.transferOwner), replies);
    ItemsSound(c, w, a, x.args, AddressOf(x.permitOwner), AddressOf(x.transferOwner), replies);
    NotingSound(c, w, s, a, [V2Payload(x)]);
  }

  lemma PayGasSound(c: Chain, w: World, a: Address, x: SolveV3Args, accepted: bool)
    ensures Sound(c, w, PayGas(c, w, a, x, accepted))
  {
    match c.asset(x.gasToken)
    case None =>
    case Some(token) =>
      var e := Token(Pull(token, a, OwnerOf(w, a), c.clearinghouse, x.gasTokenAmt));
      match x.gasTokenPermit {
        case None =>
          RaiseSound(c, w, e);
          JoinSound(c, w, Skip(w), Raise(c, w, e));
        case Some(p) =>
          var s := if p.asset == x.gasToken then Permit1(c, w, a, p.asset, OwnerOf(w, a), accepted) else Fail(w);
          Permit1Sound(c, w, a, p.asset, OwnerOf(w, a), accepted);
          RaiseSound(c, s.w, e);
          JoinSound(c, w, s, Raise(c, s.w, e));
      }
  }

  lemma {:induction false} SolveThreeSound(c: Chain, w: World, a: Address, x: SolveV3Args, sig: Bytes64,
        accepted: bool, replies: seq<Reply>)
    ensures Sound(c, w, SolveThree(c, w, a, x, sig, accepted, replies))
    decreases replies, 3
  {
    var paid := PayGas(c, w, a, x, accepted);
    PayGasSound(c, w, a, x, accepted);
    ItemsSound(c, paid.w, a, x.args, OwnerOf(w, a), OwnerOf(w, a), replies);
    JoinSound(c, w, paid, Items(c, paid.w, a, x.args, OwnerOf(w, a), OwnerOf(w, a), replies));
    NotingSound(c, w, Join(paid, Items(c, paid.w, a, x.args, OwnerOf(w, a), OwnerOf(w, a), replies)), a, [V3Payload(x)]);
  }

  lemma Transfer1Sound(c: Chain, w: World, a: Address, t: Transfer, accepted: bool)
    ensures Sound(c, w, Transfer1(c, w, a, t, accepted))
  {
    match c.asset(t.asset)
    case None =>
    case Some(token) =>
      var s := if t.permit.Some? then Permit1(c, w, a, t.asset, AddressOf(t.from), accepted) else Skip(w);
      var e := Token(Pull(token, a, AddressOf(t.from), AddressOf(t.recipient), WordOf(t.amt)));
      Permit1Sound(c, w, a, t.asset, AddressOf(t.from), accepted);
      RaiseSound(c, s.w, e);
      JoinSound(c, w, s, Raise(c, s.w, e));
  }

  lemma {:induction false} TransfersSound(c: Chain, w: World, a: Address, ts: seq<Transfer>, accepted: seq<bool>)
    ensures Sound(c, w, Transfers(c, w, a, ts, accepted))
    decreases ts
  {
    if ts != [] && accepted != [] {
      var s := Transfer1(c, w, a, ts[0], accepted[0]);
      Transfer1Sound(c, w, a, ts[0], accepted[0]);
      TransfersSound(c, s.w, a, ts[1..], accepted[1..]);
      JoinSound(c, w, s, Transfers(c, s.w, a, ts[1..], accepted[1..]));
    }
  }

  lemma TransferAllSound(c: Chain, w: World, a: Address, x: TransferOnlyArgs, sig: Bytes64, accepted: seq<bool>)
    ensures Sound(c, w, TransferAll(c, w, a, x, sig, accepted))
  {
    var s := Raise(c, w, Spent(a, NonceOf(x.msTs)));
    RaiseSound(c, w, Spent(a, NonceOf(x.msTs)));
    TransfersSound(c, s.w, a, x.args, accepted);
    JoinSound(c, w, s, Transfers(c, s.w, a, x.args, accepted));
    NotingSound(c, w, Join(s, Transfers(c, s.w, a, x.args, accepted)), a, [TransferPayload(x)]);
  }

  lemma MigrateSound(c: Chain, w: World, a: Address, sender: Address, cd: seq<Byte>)
    ensures Sound(c, w, Migrate(c, w, a, sender, cd))
  {
    match RouteOf(c, cd)
    case Migration(key, owner, impl, authority) => RaiseSound(c, w, Migrated(a, sender, key, owner, impl, authority));
    case _ =>
  }

  /** Creating an empty contract and migrating it is one change: the account is born complete. */
  lemma CreateIsBirth(c: Chain, w: World, factory: Address, x: Consent)
    ensures var s := Create(c, w, factory, x);
            if Enabled(c, w, Created(factory, x)) then s == Raise(c, w, Created(factory, x)) else s == Fail(w)
  {
    var impl := Evm.Load(Store(w, factory), SLOT_IMPL);
    var at := ProxyAt(c, factory, x.eoa);
    if Enabled(c, w, Created(factory, x)) {
      MigrationsArrive(c, x.key, x.eoa, impl, x.authority, []);
      var cd := MigrateCd(x.key, x.eoa, impl, x.authority);
      assert cd + [] == cd;
      BornByMigration(c, x, factory, impl);
      var empty := w.(accounts := w.accounts[at := Account(false, map[], false)]);
      var born := Born(c, x.eoa, x.key, impl, x.authority);
      assert Store(empty, at) == map[];
      assert SetStore(empty, at, born).accounts == w.accounts[at := Account(false, born, false)];
    }
  }

  lemma BornByMigration(c: Chain, x: Consent, factory: Address, impl: Word)
    requires x.key != 0 && x.eoa != 0 && impl != 0
    ensures MigratedStore(c, map[], factory, x.key, x.eoa, impl, x.authority) == Some(Born(c, x.eoa, x.key, impl, x.authority))
  {
  }

  lemma CreateSound(c: Chain, w: World, factory: Address, x: Consent)
    ensures Sound(c, w, Create(c, w, factory, x))
  {
    CreateIsBirth(c, w, factory, x);
    RaiseSound(c, w, Created(factory, x));
  }

  lemma {:induction false} GuardedSolveSound(c: Chain, w: World, a: Address, items: seq<SolveArgsSigArgs>,
        replies: seq<Reply>)
    ensures Sound(c, w, Guarded(c, w, a, SolveOne(c, Lock(c, w, a), a, items, replies)))
    decreases replies, 4
  {
    SolveOneSound(c, Lock(c, w, a), a, items, replies);
    GuardedSound(c, w, a, SolveOne(c, Lock(c, w, a), a, items, replies));
  }

  lemma {:induction false} AttachSound(c: Chain, w: World, a: Address, items: seq<SolveArgsSigArgs>,
        replies: seq<Reply>)
    ensures Sound(c, w, Attach(c, w, a, items, replies))
    decreases replies, 5
  {
    match Attached(c, items)
    case Request(Solve(xs)) => GuardedSolveSound(c, w, a, xs, replies);
    case _ =>
  }

  lemma {:induction false} FreshSound(c: Chain, w: World, factory: Address, args: Args, replies: seq<Reply>)
    requires args.FreshBackwards?
    ensures Sound(c, w, Fresh(c, w, factory, args, replies))
    decreases replies, 6
  {
    var x := ConsentOf(args);
    var made := Create(c, w, factory, x);
    CreateSound(c, w, factory, x);
    AttachSound(c, made.w, ProxyAt(c, factory, x.eoa), args.solveArgs, replies);
    JoinSound(c, w, made, Attach(c, made.w, ProxyAt(c, factory, x.eoa), args.solveArgs, replies));
  }

  lemma {:induction false} HandleSound(c: Chain, w: World, a: Address, args: Args, gasPermit: bool, replies: seq<Reply>)
    ensures Sound(c, w, Handle(c, w, a, args, gasPermit, replies))
    decreases replies, 7
  {
    var locked := Lock(c, w, a);
    match args
    case FreshBackwards(_, _, _, _, _, _, _) => FreshSound(c, w, a, args, replies);
    case Solve(items) =>
      GuardedSolveSound(c, w, a, items, replies);
    case SolveV2(x, sig) =>
      SolveTwoSound(c, locked, a, x, sig, replies);
      GuardedSound(c, w, a, SolveTwo(c, locked, a, x, sig, replies));
    case TransferOnly(x, sig) =>
      TransferAllSound(c, locked, a, x, sig, PermitsIn(replies));
      GuardedSound(c, w, a, TransferAll(c, locked, a, x, sig, PermitsIn(replies)));
    case Statement(x, sig) =>
      RaiseSound(c, w, Spent(a, NonceOf(x.msTs)));
      NotingSound(c, w, Raise(c, w, Spent(a, NonceOf(x.msTs))), a, [StatementPayload(x)]);
    case SolveV3(x, sig) => SolveThreeSound(c, w, a, x, sig, gasPermit, replies);
    case _ =>
  }

  lemma {:induction false} RunSound(c: Chain, w: World, a: Address, sender: Address, cd: seq<Byte>, gasPermit: bool,
        replies: seq<Reply>)
    ensures Sound(c, w, Run(c, w, a, sender, cd, gasPermit, replies))
    decreases replies, 8
  {
    match RouteOf(c, cd)
    case Migration(_, _, _, _) => MigrateSound(c, w, a, sender, cd);
    case Request(args) => HandleSound(c, w, a, args, gasPermit, replies);
    case _ =>
  }

  lemma {:induction false} ReceiveSound(c: Chain, w: World, a: Address, sender: Address, cd: seq<Byte>,
        gasPermit: bool, replies: seq<Reply>)
    ensures Sound(c, w, Receive(c, w, a, sender, cd, gasPermit, replies))
    decreases replies, 9
  {
    RunSound(c, w, a, sender, cd, gasPermit, replies);
    match UpgradeCall(cd)
    case None =>
    case Some((impl, data)) =>
      var s := Raise(c, w, Upgraded(a, sender, impl));
      RaiseSound(c, w, Upgraded(a, sender, impl));
      RunSound(c, s.w, a, sender, data, gasPermit, replies);
      JoinSound(c, w, s, Run(c, s.w, a, sender, data, gasPermit, replies));
  }

  lemma {:induction false} PerformSound(c: Chain, w: World, act: Act)
    ensures Sound(c, w, Perform(c, w, act)) && Perform(c, w, act).ok
    decreases act, 10
  {
    match act
    case Message(a, sender, cd, gasPermit, replies) => ReceiveSound(c, w, a, sender, cd, gasPermit, replies);
    case Tokens(op) => RaiseSound(c, w, Token(op));
    case Deploy(registry) => RaiseSound(c, w, Deployed(registry));
    case Init(registry, operator) => RaiseSound(c, w, Initialised(registry, operator));
    case Register(registry, sender, hash, allowed) => RaiseSound(c, w, Registered(registry, sender, hash, allowed));
    case Scan(registry, sender, dppm, amm) =>
      var s := Raise(c, w, Registered(registry, sender, dppm, true));
      RaiseSound(c, w, Registered(registry, sender, dppm, true));
      RaiseSound(c, s.w, Registered(registry, sender, amm, true));
      JoinSound(c, w, s, Raise(c, s.w, Registered(registry, sender, amm, true)));
    case Undone(acts) => ActsSound(c, w, acts);
  }

  /** Whatever happens to the world, with messages nested to any depth: the committed changes were
      each possible when they were made and lead exactly to the world reached; and over the whole
      time, counting also what was rolled back, no account serves two lock-holding requests at once. */
  lemma {:induction false} ActsSound(c: Chain, w: World, acts: seq<Act>)
    ensures Sound(c, w, Acts(c, w, acts)) && Acts(c, w, acts).ok
    decreases acts, 11
  {
    if acts != [] {
      var s := Perform(c, w, acts[0]);
      PerformSound(c, w, acts[0]);
      ActsSound(c, s.w, acts[1..]);
      JoinSound(c, w, s, Acts(c, s.w, acts[1..]));
    }
  }

  /** At every moment of every run, counting also requests that fail later, at most one lock-holding
      request of an account has begun and not ended; while the lock is held at the start, none begins. */
  lemma LockExclusive(c: Chain, w: World, acts: seq<Act>, n: nat, a: Address)
    requires n <= |Acts(c, w, acts).marks|
    ensures 0 <= (if a in Held(w) then 1 else 0) + Open(Acts(c, w, acts).marks[..n], a) <= 1
  {
    ActsSound(c, w, acts);
    HoldCounts(Held(w), Acts(c, w, acts).marks, n, a);
  }
}
