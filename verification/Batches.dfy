/** A batch of signed items is the same as its items sent one by one. */
module Batches {
  import opened Words
  import opened Accounts
  import opened Wire
  import opened Protocol
  import opened ProtocolRuns
  import opened AccountHistory

  /** The items as requests of their own, one after the other. */
  function OneByOne(c: Chain, w: World, a: Address, items: seq<SolveArgsSigArgs>, gasPermit: bool,
        replies: seq<Reply>): (s: Step)
    decreases items
  {
    if items == [] then Skip(w)
    else if replies == [] then Handle(c, w, a, Solve(items[..1]), gasPermit, [])
    else
      var s := Handle(c, w, a, Solve(items[..1]), gasPermit, replies[..1]);
      Join(s, OneByOne(c, s.w, a, items[1..], gasPermit, replies[1..]))
  }

  function Unlock(c: Chain, w: World, a: Address): (r: World) {
    Raise(c, w, Unlocked(a)).w
  }

  lemma Relock(c: Chain, w: World, a: Address)
    requires a in w.accounts && w.accounts[a].locked
    ensures Lock(c, Unlock(c, w, a), a) == w && Enabled(c, Unlock(c, w, a), Locked(a))
  {
    var u := Unlock(c, w, a);
    assert Lock(c, u, a).accounts == w.accounts;
  }

  /** One item under the lock leaves the account set up, locked, and with the same key and owner. */
  lemma ItemKeeps(c: Chain, w: World, a: Address, x: SolveArgs, owner: Address, reply: Reply)
    requires Separated(c) && SetUp(w, a) && w.accounts[a].locked
    ensures var s := Item(c, w, a, x, owner, owner, reply);
            && SetUp(s.w, a)
            && (s.ok ==> s.w.accounts[a].locked)
            && KeyOf(c, s.w, a) == KeyOf(c, w, a) && OwnerOf(s.w, a) == OwnerOf(w, a)
  {
    ItemSound(c, w, a, x, owner, owner, reply);
    var s := Item(c, w, a, x, owner, owner, reply);
    SetUpStays(c, w, s.log, a);
    assert s.ok ==> a in Held(s.w) by { assert a in Held(w); }
  }

  lemma {:induction false} SetUpStays(c: Chain, w: World, log: seq<Event>, a: Address)
    requires Separated(c) && Runs(c, w, log) && SetUp(w, a)
    ensures var end := Replay(c, w, log);
            SetUp(end, a) && KeyOf(c, end, a) == KeyOf(c, w, a) && OwnerOf(end, a) == OwnerOf(w, a)
    decreases |log|
  {
    if log != [] {
      FrozenStep(c, w, log[0], a);
      SetUpStays(c, Apply(c, w, log[0]), log[1..], a);
    }
  }

  lemma ItemsOfOne(c: Chain, w: World, a: Address, x: SolveArgs, permitOwner: Address, transferOwner: Address,
      reply: Reply)
    ensures var s := Item(c, w, a, x, permitOwner, transferOwner, reply);
            var all := Items(c, w, a, [x], permitOwner, transferOwner, [reply]);
            all.ok == s.ok && all.w == s.w
  {
    var s := Item(c, w, a, x, permitOwner, transferOwner, reply);
    assert [x][1..] == [] && [reply][1..] == [];
    assert Items(c, s.w, a, [], permitOwner, transferOwner, []) == Skip(s.w);
  }

  /** A single item as a request. */
  lemma SingleItem(c: Chain, w: World, a: Address, x: SolveArgsSigArgs, gasPermit: bool, reply: Reply)
    requires a in w.accounts && w.accounts[a].locked
    ensures var s := Item(c, w, a, x.args, OwnerOf(w, a), OwnerOf(w, a), reply);
            var r := Handle(c, Unlock(c, w, a), a, Solve([x]), gasPermit, [reply]);
            && (r.ok <==> s.ok && a in s.w.accounts && ItemSigned(c, KeyOf(c, w, a), x))
            && (r.ok ==> r.w == Unlock(c, s.w, a))
  {
    Relock(c, w, a);
    assert Plain([x]) == [x.args];
    ItemsOfOne(c, w, a, x.args, OwnerOf(w, a), OwnerOf(w, a), reply);
    SignedSplit(c, KeyOf(c, w, a), [x]);
    assert [x][1..] == [];
    GuardedEnds(c, Unlock(c, w, a), a, SolveOne(c, w, a, [x], [reply]));
  }

  lemma GuardedEnds(c: Chain, u: World, a: Address, s: Step)
    requires Enabled(c, u, Locked(a))
    ensures var r := Guarded(c, u, a, s);
            && (r.ok <==> s.ok && a in s.w.accounts)
            && (r.ok ==> r.w == Unlock(c, s.w, a))
  {
  }

  lemma SignedSplit(c: Chain, key: Word, items: seq<SolveArgsSigArgs>)
    requires items != []
    ensures AllSigned(c, key, items) <==> ItemSigned(c, key, items[0]) && AllSigned(c, key, items[1..])
  {
    if AllSigned(c, key, items[1..]) && ItemSigned(c, key, items[0]) {
      forall i | 0 <= i < |items| ensures ItemSigned(c, key, items[i]) {
        if i > 0 { assert items[1..][i - 1] == items[i]; }
      }
    }
    if AllSigned(c, key, items) {
      assert forall i :: 0 <= i < |items[1..]| ==> ItemSigned(c, key, items[1..][i]);
    }
  }

  /** A batch is its first item and then the rest of the batch. */
  lemma BatchStep(c: Chain, w: World, a: Address, items: seq<SolveArgsSigArgs>, replies: seq<Reply>)
    requires items != [] && replies != []
    ensures var s := Item(c, w, a, items[0].args, OwnerOf(w, a), OwnerOf(w, a), replies[0]);
            var all := SolveOne(c, w, a, items, replies);
            var rest := SolveOne(c, s.w, a, items[1..], replies[1..]);
            KeyOf(c, s.w, a) == KeyOf(c, w, a) && OwnerOf(s.w, a) == OwnerOf(w, a) ==>
              && (all.ok <==> s.ok && ItemSigned(c, KeyOf(c, w, a), items[0]) && rest.ok)
              && (all.ok ==> all.w == rest.w)
  {
    SignedSplit(c, KeyOf(c, w, a), items);
    assert Plain(items)[1..] == Plain(items[1..]);
    assert Plain(items)[0] == items[0].args;
  }

  /** From a locked world, all items at once; from the same world unlocked, one by one. */
  lemma {:induction false} SameUnderLock(c: Chain, w: World, a: Address, items: seq<SolveArgsSigArgs>, gasPermit: bool,
        replies: seq<Reply>)
    requires Separated(c) && SetUp(w, a) && w.accounts[a].locked
    ensures var all := SolveOne(c, w, a, items, replies);
            var each := OneByOne(c, Unlock(c, w, a), a, items, gasPermit, replies);
            && (each.ok <==> all.ok)
            && (all.ok ==> a in all.w.accounts && each.w == Unlock(c, all.w, a))
    decreases items
  {
    if items == [] {
    } else if replies == [] {
      NoReplies(c, w, a, items, gasPermit);
    } else {
      BatchStep(c, w, a, items, replies);
      ItemKeeps(c, w, a, items[0].args, OwnerOf(w, a), replies[0]);
      var s := Item(c, w, a, items[0].args, OwnerOf(w, a), OwnerOf(w, a), replies[0]);
      assert items[..1] == [items[0]] && replies[..1] == [replies[0]];
      SingleItem(c, w, a, items[0], gasPermit, replies[0]);
      if s.ok {
        SameUnderLock(c, s.w, a, items[1..], gasPermit, replies[1..]);
      }
    }
  }

  lemma NoReplies(c: Chain, w: World, a: Address, items: seq<SolveArgsSigArgs>, gasPermit: bool)
    requires items != []
    ensures !SolveOne(c, w, a, items, []).ok && !Handle(c, w, a, Solve(items), gasPermit, []).ok
    ensures !OneByOne(c, Unlock(c, w, a), a, items, gasPermit, []).ok
  {
    assert Plain(items) != [];
    assert Plain(items[..1]) != [];
  }

  /** The same verdict, and the same world when it is good. */
  predicate SameResult(s: Step, t: Step) {
    s.ok == t.ok && (s.ok ==> s.w == t.w)
  }

  lemma WhenUnlocked(c: Chain, w: World, a: Address, items: seq<SolveArgsSigArgs>, gasPermit: bool, replies: seq<Reply>)
    requires Separated(c) && SetUp(w, a) && !w.accounts[a].locked
    ensures SameResult(Handle(c, w, a, Solve(items), gasPermit, replies), OneByOne(c, w, a, items, gasPermit, replies))
  {
    var locked := Lock(c, w, a);
    assert Unlock(c, locked, a).accounts == w.accounts;
    SameUnderLock(c, locked, a, items, gasPermit, replies);
    GuardedEnds(c, w, a, SolveOne(c, locked, a, items, replies));
  }

  /** For an account that is set up, whatever the targets do: a batch commits exactly when its items,
      sent in order as requests of their own, all commit, and both reach the same world. The one
      exception is an empty batch sent while the lock is held: it fails, although no item does. */
  lemma BatchIsSequence(c: Chain, w: World, a: Address, items: seq<SolveArgsSigArgs>, gasPermit: bool,
        replies: seq<Reply>)
    requires Separated(c) && SetUp(w, a)
    ensures SameResult(Handle(c, w, a, Solve(items), gasPermit, replies), OneByOne(c, w, a, items, gasPermit, replies))
            <==> (items != [] || !w.accounts[a].locked)
  {
    if !w.accounts[a].locked {
      WhenUnlocked(c, w, a, items, gasPermit, replies);
    } else {
      WhenLocked(c, w, a, items, gasPermit, replies);
      if items != [] {
        WhenLocked(c, w, a, items[..1], gasPermit, if replies == [] then [] else replies[..1]);
      }
    }
  }

  lemma WhenLocked(c: Chain, w: World, a: Address, items: seq<SolveArgsSigArgs>, gasPermit: bool, replies: seq<Reply>)
    requires a in w.accounts && w.accounts[a].locked
    ensures !Handle(c, w, a, Solve(items), gasPermit, replies).ok
  {
  }
}
