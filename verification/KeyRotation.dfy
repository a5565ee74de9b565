/** Sender keys are handed out least recently used first, and therefore in turn. */
module KeyRotation {

  datatype Stamp = Null | At(time: nat)

  /** The order of the query: oldest access first, and keys never accessed before all others. */
  predicate NotAfter(a: Stamp, b: Stamp) {
    a.Null? || (b.At? && a.time <= b.time)
  }

  type Table = map<nat, Stamp>

  /** A key that the query may select: no other comes before it. Ties are the database's choice. */
  predicate First(t: Table, id: nat) {
    id in t && forall k :: k in t ==> NotAfter(t[id], t[k])
  }

  /** The table of sender keys: when each was last accessed, and the key itself. */
  class SenderKeys {
    var lastAccessed: Table
    var privateKey: map<nat, seq<nat>>

    constructor (keys: map<nat, seq<nat>>, stamps: Table)
      requires keys.Keys == stamps.Keys
      ensures lastAccessed == stamps && privateKey == keys
    {
      lastAccessed := stamps;
      privateKey := keys;
    }

    /** The key that the inner query selects. */
    method SelectFirst() returns (id: nat)
      requires lastAccessed != map[]
      ensures First(lastAccessed, id)
    {
      var rest := lastAccessed.Keys;
      id :| id in rest;
      rest := rest - {id};
      while rest != {}
        invariant rest <= lastAccessed.Keys && id in lastAccessed
        invariant forall k :: k in lastAccessed && k !in rest ==> NotAfter(lastAccessed[id], lastAccessed[k])
        decreases rest
      {
        var k :| k in rest;
        rest := rest - {k};
        if !NotAfter(lastAccessed[id], lastAccessed[k]) {
          id := k;
        }
      }
    }

    /** Hand out a key: None when there is none. */
    method GetPrivateKey(now: nat) returns (picked: nat, found: bool, key: seq<nat>)
      requires privateKey.Keys == lastAccessed.Keys
      modifies `lastAccessed
      ensures found <==> old(lastAccessed) != map[]
      ensures !found ==> lastAccessed == old(lastAccessed)
      ensures found ==> First(old(lastAccessed), picked) && key == privateKey[picked]
      ensures found ==> lastAccessed == old(lastAccessed)[picked := At(now)]
    {
      picked, found, key := 0, false, [];
      if lastAccessed != map[] {
        picked := SelectFirst();
        found, key := true, privateKey[picked];
        lastAccessed := lastAccessed[picked := At(now)];
      }
    }

    /** Handing out keys at clock readings that go up, from later than every time on record: every turn of
        as many picks as there are keys hands out each key once. */
    method HandOut(nows: seq<nat>) returns (picks: seq<nat>, ghost h: History)
      requires privateKey.Keys == lastAccessed.Keys && lastAccessed != map[]
      requires forall i, j :: 0 <= i < j < |nows| ==> nows[i] < nows[j]
      requires nows != [] ==> Earlier(lastAccessed, nows[0])
      modifies `lastAccessed
      ensures |picks| == |nows|
      ensures h == History(h.tables, picks, nows) && IsRun(h)
      ensures h.tables[0] == old(lastAccessed) && h.tables[|picks|] == lastAccessed
      ensures forall from: nat :: InTurn(picks, from, old(lastAccessed).Keys)
    {
      picks := [];
      h := History([lastAccessed], [], []);
      while |picks| < |nows|
        invariant |picks| <= |nows| && h == History(h.tables, picks, nows[..|picks|]) && IsRun(h)
        invariant h.tables[0] == old(lastAccessed) && h.tables[|picks|] == lastAccessed
        invariant privateKey.Keys == lastAccessed.Keys == old(lastAccessed).Keys
      {
        var now := nows[|picks|];
        var id, found, key := GetPrivateKey(now);
        OneMore(h, id, now);
        h := History(h.tables + [lastAccessed], picks + [id], h.nows + [now]);
        picks := picks + [id];
        assert nows[..|picks|] == h.nows;
      }
      assert nows[..|picks|] == nows;
      AllInTurn(h);
    }
  }

  /** A run: the tables before and after each pick, the picks and the clock readings. */
  datatype History = History(tables: seq<Table>, picks: seq<nat>, nows: seq<nat>)

  ghost predicate Earlier(t: Table, now: nat) {
    forall k :: k in t && t[k].At? ==> t[k].time < now
  }

  /** Pick `i` is one that GetPrivateKey can make. */
  ghost predicate Picked(h: History, i: nat)
    requires |h.nows| == |h.picks| && |h.tables| == |h.picks| + 1 && i < |h.picks|
  {
    First(h.tables[i], h.picks[i]) && h.tables[i + 1] == h.tables[i][h.picks[i] := At(h.nows[i])]
  }

  /** Every pick is one that GetPrivateKey can make, the clock goes up with every pick, and it starts
      later than every time on record. */
  ghost predicate IsRun(h: History) {
    && |h.nows| == |h.picks| && |h.tables| == |h.picks| + 1
    && (forall i :: 0 <= i < |h.picks| ==> Picked(h, i))
    && (forall i, j :: 0 <= i < j < |h.nows| ==> h.nows[i] < h.nows[j])
    && (|h.nows| > 0 ==> Earlier(h.tables[0], h.nows[0]))
  }

  lemma OneMore(h: History, id: nat, now: nat)
    requires IsRun(h) && First(h.tables[|h.picks|], id)
    requires forall i :: 0 <= i < |h.nows| ==> h.nows[i] < now
    requires h.nows == [] ==> Earlier(h.tables[0], now)
    ensures IsRun(History(h.tables + [h.tables[|h.picks|][id := At(now)]], h.picks + [id], h.nows + [now]))
  {
    var next := History(h.tables + [h.tables[|h.picks|][id := At(now)]], h.picks + [id], h.nows + [now]);
    forall i | 0 <= i < |next.picks| ensures Picked(next, i) {
      if i < |h.picks| { assert Picked(h, i); }
    }
  }

  lemma {:induction false} SameKeys(h: History, i: nat)
    requires IsRun(h) && i < |h.tables|
    ensures h.tables[i].Keys == h.tables[0].Keys
  {
    if i > 0 {
      SameKeys(h, i - 1);
      assert Picked(h, i - 1);
    }
  }

  /** The clock is always ahead of the table. */
  lemma {:induction false} ClockAhead(h: History, i: nat)
    requires IsRun(h) && i < |h.picks|
    ensures Earlier(h.tables[i], h.nows[i])
  {
    if i > 0 {
      ClockAhead(h, i - 1);
      assert Picked(h, i - 1);
      assert h.nows[i - 1] < h.nows[i];
    }
  }

  /** A key that is not picked keeps its stamp. */
  lemma {:induction false} Untouched(h: History, i: nat, j: nat, k: nat)
    requires IsRun(h) && i <= j < |h.tables| && k in h.tables[0]
    requires forall m :: i <= m < j ==> h.picks[m] != k
    ensures k in h.tables[i] && k in h.tables[j] && h.tables[j][k] == h.tables[i][k]
    decreases j
  {
    SameKeys(h, i);
    SameKeys(h, j);
    if i < j {
      Untouched(h, i, j - 1, k);
      assert Picked(h, j - 1);
    }
  }

  /** A key that was picked has a stamp from then or later. */
  lemma {:induction false} Stamped(h: History, i: nat, j: nat)
    requires IsRun(h) && i < j < |h.tables|
    ensures h.picks[i] in h.tables[j]
    ensures h.tables[j][h.picks[i]].At? && h.tables[j][h.picks[i]].time >= h.nows[i]
    decreases j
  {
    assert Picked(h, j - 1);
    if i < j - 1 {
      Stamped(h, i, j - 1);
      assert h.nows[i] < h.nows[j - 1];
    }
  }

  /** Between two picks of a key, every other key has its turn. */
  lemma EveryoneInBetween(h: History, i: nat, j: nat, k: nat) returns (m: nat)
    requires IsRun(h) && i < j < |h.picks| && h.picks[i] == h.picks[j]
    requires k in h.tables[0] && k != h.picks[i]
    ensures i < m < j && h.picks[m] == k
  {
    assert Picked(h, j);
    SameKeys(h, j);
    ClockAhead(h, i);
    Stamped(h, i, j);
    if forall m :: i <= m < j ==> h.picks[m] != k {
      Untouched(h, i, j, k);
      assert false;
    }
    m :| i <= m < j && h.picks[m] == k;
  }

  ghost function Elements(s: seq<nat>): (r: set<nat>) {
    set x | x in s
  }

  lemma {:induction false} FewElements(s: seq<nat>)
    ensures |Elements(s)| <= |s|
  {
    if s != [] {
      FewElements(s[1..]);
      assert Elements(s) == {s[0]} + Elements(s[1..]);
    }
  }

  lemma {:induction false} DistinctElements(s: seq<nat>)
    requires forall i, j :: 0 <= i < j < |s| ==> s[i] != s[j]
    ensures |Elements(s)| == |s|
  {
    if s != [] {
      DistinctElements(s[1..]);
      assert Elements(s) == {s[0]} + Elements(s[1..]);
      assert s[0] !in Elements(s[1..]);
    }
  }

  lemma SubsetSize(a: set<nat>, b: set<nat>)
    requires a <= b
    ensures |a| <= |b| && (|a| == |b| ==> a == b)
  {
    assert |b - a| == |b| - |a|;
  }

  /** No key repeats before all others have been picked. */
  lemma NoEarlyRepeat(h: History, i: nat, j: nat)
    requires IsRun(h) && i < j < |h.picks| && h.picks[i] == h.picks[j]
    ensures j - i >= |h.tables[0]|
  {
    var others := h.tables[0].Keys - {h.picks[i]};
    var between := h.picks[i + 1..j];
    forall k | k in others ensures k in Elements(between) {
      var m := EveryoneInBetween(h, i, j, k);
      assert between[m - i - 1] == k;
    }
    SubsetSize(others, Elements(between));
    FewElements(between);
    SameKeys(h, i);
    assert Picked(h, i);
    assert |others| == |h.tables[0].Keys| - 1;
  }

  /** The turn that starts at `from`, if it is complete, is a permutation of the keys. */
  ghost predicate InTurn(picks: seq<nat>, from: nat, keys: set<nat>) {
    from + |keys| <= |picks| ==>
      var turn := picks[from..from + |keys|];
      Elements(turn) == keys && forall i, j :: 0 <= i < j < |turn| ==> turn[i] != turn[j]
  }

  lemma PickedFromTable(h: History, i: nat)
    requires IsRun(h) && i < |h.picks|
    ensures h.picks[i] in h.tables[0].Keys
  {
    SameKeys(h, i);
    assert Picked(h, i);
  }

  /** With n keys, any n consecutive picks are a permutation of the keys. */
  lemma Rotation(h: History, from: nat, turn: seq<nat>)
    requires IsRun(h) && from + |h.tables[0]| <= |h.picks| && turn == h.picks[from..from + |h.tables[0]|]
    ensures forall i, j :: 0 <= i < j < |turn| ==> turn[i] != turn[j]
    ensures Elements(turn) == h.tables[0].Keys
  {
    forall i, j | 0 <= i < j < |turn| ensures turn[i] != turn[j] {
      if turn[i] == turn[j] { NoEarlyRepeat(h, from + i, from + j); }
    }
    forall i | 0 <= i < |turn| ensures turn[i] in h.tables[0].Keys {
      PickedFromTable(h, from + i);
    }
    DistinctElements(turn);
    SubsetSize(Elements(turn), h.tables[0].Keys);
  }

  lemma OneTurn(h: History, from: nat)
    requires IsRun(h)
    ensures InTurn(h.picks, from, h.tables[0].Keys)
  {
    var n := |h.tables[0].Keys|;
    assert n == |h.tables[0]|;
    if from + n <= |h.picks| {
      Rotation(h, from, h.picks[from..from + n]);
    }
  }

  lemma AllInTurn(h: History)
    requires IsRun(h)
    ensures forall from: nat :: InTurn(h.picks, from, h.tables[0].Keys)
  {
    forall from: nat ensures InTurn(h.picks, from, h.tables[0].Keys) {
      OneTurn(h, from);
    }
  }
}
