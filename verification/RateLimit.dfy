/** The in-memory rate limiter, against the history of everything it ever answered. */
module RateLimit {

  // Five minutes, in nanoseconds.
  const TIMESLICE_BLOCK: nat := 300_000_000_000
  const MAX_COUNT: nat := 4

  /** A question and the clock reading when it is taken up, in nanoseconds since the zero time. */
  datatype Request = Request(id: string, now: nat)

  function TimeSlice(now: nat): (t: nat) {
    now - now % TIMESLICE_BLOCK
  }

  /** The reading lies in the `k`-th five minutes: from k times 300 seconds on, before k + 1 times 300 seconds. */
  predicate Within(k: nat, now: nat) {
    k * 300_000_000_000 <= now < (k + 1) * 300_000_000_000
  }

  ghost predicate SameFiveMinutes(a: nat, b: nat) {
    exists k :: Within(k, a) && Within(k, b)
  }

  /** Two readings are of one slice exactly when they lie between the same two multiples of five minutes. */
  lemma SlicesExactly(a: nat, b: nat)
    ensures TimeSlice(a) == TimeSlice(b) <==> SameFiveMinutes(a, b)
  {
    var p, q := a / TIMESLICE_BLOCK, b / TIMESLICE_BLOCK;
    assert Within(p, a) && Within(q, b);
    assert TimeSlice(a) == p * TIMESLICE_BLOCK && TimeSlice(b) == q * TIMESLICE_BLOCK;
    if k :| Within(k, a) && Within(k, b) {
      assert k == p && k == q;
    }
  }

  /** How many of the requests from..end of `id` were let through. */
  function Granted(reqs: seq<Request>, resps: seq<bool>, from: nat, end: nat, id: string): (n: nat)
    requires from <= end <= |reqs| && end <= |resps|
    ensures n <= end - from
    decreases end - from
  {
    if from == end then 0
    else Granted(reqs, resps, from, end - 1, id) + (if reqs[end - 1].id == id && !resps[end - 1] then 1 else 0)
  }

  /** The first request of the unbroken run of requests in the slice of request `k`. */
  function RunStart(reqs: seq<Request>, k: nat): (s: nat)
    requires k < |reqs|
    ensures s <= k && forall j :: s <= j <= k ==> TimeSlice(reqs[j].now) == TimeSlice(reqs[k].now)
    ensures s > 0 ==> TimeSlice(reqs[s - 1].now) != TimeSlice(reqs[k].now)
  {
    if k > 0 && TimeSlice(reqs[k].now) == TimeSlice(reqs[k - 1].now) then RunStart(reqs, k - 1) else k
  }

  /** Where the counting of the `k`-th request begins. */
  function CountStart(reqs: seq<Request>, k: nat): (s: nat)
    requires k <= |reqs|
    ensures s <= k
  {
    if k == 0 then 0 else RunStart(reqs, k - 1)
  }

  lemma GrantedPrefix(reqs: seq<Request>, a: seq<bool>, b: seq<bool>, from: nat, end: nat, id: string)
    requires from <= end <= |reqs| && end <= |a| && a <= b
    ensures Granted(reqs, a, from, end, id) == Granted(reqs, b, from, end, id)
    decreases end - from
  {
    if from < end { GrantedPrefix(reqs, a, b, from, end - 1, id); }
  }

  /** Answer `k` follows the rule: refuse an id that the current run of its slice has already let
      through four times. */
  ghost predicate Rule(reqs: seq<Request>, resps: seq<bool>, k: nat)
    requires k < |resps| && k < |reqs|
  {
    resps[k] <==> Granted(reqs, resps, RunStart(reqs, k), k, reqs[k].id) >= MAX_COUNT
  }

  ghost predicate Fair(reqs: seq<Request>, resps: seq<bool>) {
    |resps| <= |reqs| && forall k :: 0 <= k < |resps| ==> Rule(reqs, resps, k)
  }

  lemma RulePrefix(reqs: seq<Request>, a: seq<bool>, b: seq<bool>, k: nat)
    requires k < |a| && k < |reqs| && a <= b && Rule(reqs, a, k)
    ensures Rule(reqs, b, k)
  {
    GrantedPrefix(reqs, a, b, RunStart(reqs, k), k, reqs[k].id);
  }

  lemma FairSnoc(reqs: seq<Request>, resps: seq<bool>, r: bool)
    requires Fair(reqs, resps) && |resps| < |reqs|
    requires r <==> Granted(reqs, resps, RunStart(reqs, |resps|), |resps|, reqs[|resps|].id) >= MAX_COUNT
    ensures Fair(reqs, resps + [r])
  {
    forall k | 0 <= k < |resps + [r]| ensures Rule(reqs, resps + [r], k) {
      if k < |resps| {
        RulePrefix(reqs, resps, resps + [r], k);
      } else {
        GrantedPrefix(reqs, resps, resps + [r], RunStart(reqs, k), k, reqs[k].id);
      }
    }
  }

  function Seen(seen: map<string, nat>, id: string): (n: nat) {
    if id in seen then seen[id] else 0
  }

  /** Counting one more request on top of the current run. */
  lemma Recount(reqs: seq<Request>, resps: seq<bool>, r: bool, seen: map<string, nat>, next: map<string, nat>)
    requires |resps| < |reqs|
    requires forall id :: Seen(seen, id) == Granted(reqs, resps, RunStart(reqs, |resps|), |resps|, id)
    requires var id := reqs[|resps|].id; next == if r then seen else seen[id := Seen(seen, id) + 1]
    ensures forall id :: Seen(next, id) == Granted(reqs, resps + [r], CountStart(reqs, |resps| + 1), |resps| + 1, id)
  {
    forall id ensures Seen(next, id) == Granted(reqs, resps + [r], CountStart(reqs, |resps| + 1), |resps| + 1, id) {
      GrantedPrefix(reqs, resps, resps + [r], RunStart(reqs, |resps|), |resps|, id);
    }
  }

  /** The request loop: true tells the caller that it is rate limited. */
  method Run(dryrun: bool, reqs: seq<Request>) returns (resps: seq<bool>)
    ensures |resps| == |reqs|
    ensures dryrun ==> forall k :: 0 <= k < |resps| ==> !resps[k]
    ensures !dryrun ==> Fair(reqs, resps)
    ensures !dryrun && Forward(reqs) ==> forall k :: 0 <= k < |reqs| ==> (resps[k] <==> |EarlierInFive(reqs, k)| >= 4)
  {
    resps := [];
    if dryrun {
      while |resps| < |reqs|
        invariant |resps| <= |reqs|
        invariant forall k :: 0 <= k < |resps| ==> !resps[k]
      {
        resps := resps + [false];
      }
      return;
    }
    var lastSlice := 0;
    var seen: map<string, nat> := map[];
    while |resps| < |reqs|
      invariant |resps| <= |reqs|
      invariant lastSlice == if |resps| == 0 then 0 else TimeSlice(reqs[|resps| - 1].now)
      invariant forall id :: Seen(seen, id) == Granted(reqs, resps, CountStart(reqs, |resps|), |resps|, id)
      invariant Fair(reqs, resps)
    {
      var r := reqs[|resps|];
      var curSlice := TimeSlice(r.now);
      var limited := false;
      ghost var before := seen;
      if lastSlice != curSlice {
        lastSlice := curSlice;
        before := map[];
        seen := map[];
        seen := seen[r.id := 1];
      } else {
        var curCount := Seen(seen, r.id);
        if curCount + 1 > MAX_COUNT {
          limited := true;
        } else {
          seen := seen[r.id := Seen(seen, r.id) + 1];
        }
      }
      assert forall id :: Seen(before, id) == Granted(reqs, resps, RunStart(reqs, |resps|), |resps|, id);
      FairSnoc(reqs, resps, limited);
      Recount(reqs, resps, limited, before, seen);
      resps := resps + [limited];
    }
    if Forward(reqs) {
      forall k | 0 <= k < |reqs| ensures resps[k] <==> |EarlierInFive(reqs, k)| >= 4 { FifthInFive(reqs, resps, k); }
    }
  }

  /** The clock never goes back. */
  ghost predicate Forward(reqs: seq<Request>) {
    forall i, j :: 0 <= i < j < |reqs| ==> reqs[i].now <= reqs[j].now
  }

  /** The earlier requests with the id of request `k` in the same five minutes. */
  ghost function EarlierInFive(reqs: seq<Request>, k: nat): (s: set<nat>)
    requires k < |reqs|
  {
    set i: nat | i < k && reqs[i].id == reqs[k].id && SameFiveMinutes(reqs[i].now, reqs[k].now)
  }

  ghost function AskedSet(reqs: seq<Request>, end: nat, id: string, t: nat): (s: set<nat>)
    requires end <= |reqs|
  {
    set i: nat | i < end && reqs[i].id == id && TimeSlice(reqs[i].now) == t
  }

  lemma {:induction false} AskedSetSize(reqs: seq<Request>, end: nat, id: string, t: nat)
    requires end <= |reqs|
    ensures |AskedSet(reqs, end, id, t)| == AskedIn(reqs, end, id, t)
  {
    if end > 0 {
      AskedSetSize(reqs, end - 1, id, t);
      var before := AskedSet(reqs, end - 1, id, t);
      if reqs[end - 1].id == id && TimeSlice(reqs[end - 1].now) == t {
        assert AskedSet(reqs, end, id, t) == before + {end - 1};
      } else {
        assert AskedSet(reqs, end, id, t) == before;
      }
    }
  }

  /** With a clock that never goes back, a request is refused exactly when there were at least four before it
      with its id in the same five minutes. */
  lemma FifthInFive(reqs: seq<Request>, resps: seq<bool>, k: nat)
    requires Fair(reqs, resps) && Forward(reqs) && k < |resps|
    ensures resps[k] <==> |EarlierInFive(reqs, k)| >= 4
  {
    var id, t := reqs[k].id, TimeSlice(reqs[k].now);
    ClockForward(reqs);
    RefusesByHistory(reqs, resps);
    assert HistoryRule(reqs, resps, k);
    HistoryGrants(reqs, resps, k, id, t);
    AskedSetSize(reqs, k, id, t);
    forall i: nat | i < k ensures TimeSlice(reqs[i].now) == t <==> SameFiveMinutes(reqs[i].now, reqs[k].now) {
      SlicesExactly(reqs[i].now, reqs[k].now);
    }
    assert EarlierInFive(reqs, k) == AskedSet(reqs, k, id, t);
  }

  /** Once a slice has ended it is never entered again: what comes before the current run of a slice is
      of other slices. */
  ghost predicate SlicesEnd(reqs: seq<Request>) {
    forall i, k :: 0 <= k < |reqs| && 0 <= i < RunStart(reqs, k) ==> TimeSlice(reqs[i].now) != TimeSlice(reqs[k].now)
  }

  /** How many requests of `id` among the first `end` were let through in the slice `t`. */
  function GrantedIn(reqs: seq<Request>, resps: seq<bool>, end: nat, id: string, t: nat): (n: nat)
    requires end <= |reqs| && end <= |resps|
  {
    if end == 0 then 0
    else GrantedIn(reqs, resps, end - 1, id, t) +
         (if reqs[end - 1].id == id && TimeSlice(reqs[end - 1].now) == t && !resps[end - 1] then 1 else 0)
  }

  lemma TimeSliceMonotone(a: nat, b: nat)
    requires a <= b
    ensures TimeSlice(a) <= TimeSlice(b)
  {
    var p, q := a / TIMESLICE_BLOCK, b / TIMESLICE_BLOCK;
    assert TimeSlice(a) == p * TIMESLICE_BLOCK && TimeSlice(b) == q * TIMESLICE_BLOCK;
  }

  /** A clock that never goes back never re-enters a slice. */
  lemma ClockForward(reqs: seq<Request>)
    requires Forward(reqs)
    ensures SlicesEnd(reqs)
  {
    forall i, k | 0 <= k < |reqs| && 0 <= i < RunStart(reqs, k) ensures TimeSlice(reqs[i].now) != TimeSlice(reqs[k].now) {
      var j := RunStart(reqs, k) - 1;
      TimeSliceMonotone(reqs[i].now, reqs[j].now);
      TimeSliceMonotone(reqs[j].now, reqs[k].now);
    }
  }

  /** Answer `k` follows the whole history: refuse an id that was already let through four times in
      the slice of the request. */
  ghost predicate HistoryRule(reqs: seq<Request>, resps: seq<bool>, k: nat)
    requires k < |reqs| && k < |resps|
  {
    resps[k] <==> GrantedIn(reqs, resps, k, reqs[k].id, TimeSlice(reqs[k].now)) >= MAX_COUNT
  }

  ghost predicate ByHistory(reqs: seq<Request>, resps: seq<bool>, n: nat)
    requires n <= |resps| <= |reqs|
  {
    forall k :: 0 <= k < n ==> HistoryRule(reqs, resps, k)
  }

  // What was asked, whatever was answered.

  /** How many of the requests from..end are of `id`. */
  function Asked(reqs: seq<Request>, from: nat, end: nat, id: string): (n: nat)
    requires from <= end <= |reqs|
    decreases end - from
  {
    if from == end then 0 else Asked(reqs, from, end - 1, id) + (if reqs[end - 1].id == id then 1 else 0)
  }

  /** How many of the first `end` requests are of `id` in the slice `t`. */
  function AskedIn(reqs: seq<Request>, end: nat, id: string, t: nat): (n: nat)
    requires end <= |reqs|
  {
    if end == 0 then 0
    else AskedIn(reqs, end - 1, id, t) + (if reqs[end - 1].id == id && TimeSlice(reqs[end - 1].now) == t then 1 else 0)
  }

  function AtMost(n: nat): (m: nat) {
    if n <= MAX_COUNT then n else MAX_COUNT
  }

  /** An unbroken run lets through the first four requests of each id. */
  lemma {:induction false} RunGrants(reqs: seq<Request>, resps: seq<bool>, from: nat, end: nat, id: string)
    requires Fair(reqs, resps) && from <= end <= |resps|
    requires forall k :: from <= k < end ==> RunStart(reqs, k) == from
    ensures Granted(reqs, resps, from, end, id) == AtMost(Asked(reqs, from, end, id))
    decreases end - from
  {
    if from < end {
      RunGrants(reqs, resps, from, end - 1, id);
      assert Rule(reqs, resps, end - 1);
    }
  }

  /** Answers that follow the history let through the first four requests of each id in a slice. */
  lemma {:induction false} HistoryGrants(reqs: seq<Request>, resps: seq<bool>, end: nat, id: string, t: nat)
    requires end <= |resps| <= |reqs| && ByHistory(reqs, resps, end)
    ensures GrantedIn(reqs, resps, end, id, t) == AtMost(AskedIn(reqs, end, id, t))
  {
    if end > 0 {
      HistoryGrants(reqs, resps, end - 1, id, t);
      assert HistoryRule(reqs, resps, end - 1);
    }
  }

  lemma {:induction false} SameStart(reqs: seq<Request>, k: nat, j: nat)
    requires k < |reqs| && RunStart(reqs, k) <= j <= k
    ensures RunStart(reqs, j) == RunStart(reqs, k)
    decreases k
  {
    if j < k { SameStart(reqs, k - 1, j); }
  }

  /** What the current run has forgotten of an id makes no difference: if the slice has already seen four
      requests of it, so has the run. */
  ghost predicate NothingForgotten(reqs: seq<Request>, k: nat)
    requires k < |reqs|
  {
    AskedIn(reqs, k, reqs[k].id, TimeSlice(reqs[k].now)) >= MAX_COUNT ==>
      Asked(reqs, RunStart(reqs, k), k, reqs[k].id) >= MAX_COUNT
  }

  lemma {:induction false} RunWithinSlice(reqs: seq<Request>, from: nat, end: nat, id: string, t: nat)
    requires from <= end <= |reqs| && forall j :: from <= j < end ==> TimeSlice(reqs[j].now) == t
    ensures Asked(reqs, from, end, id) <= AskedIn(reqs, end, id, t)
    decreases end - from
  {
    if from < end { RunWithinSlice(reqs, from, end - 1, id, t); }
  }

  /** One more answer. */
  lemma HistoryStep(reqs: seq<Request>, resps: seq<bool>, k: nat)
    requires Fair(reqs, resps) && k < |resps| && ByHistory(reqs, resps, k)
    ensures HistoryRule(reqs, resps, k) <==> NothingForgotten(reqs, k)
  {
    var id, t, s := reqs[k].id, TimeSlice(reqs[k].now), RunStart(reqs, k);
    assert Rule(reqs, resps, k);
    forall j | s <= j < k ensures RunStart(reqs, j) == s { SameStart(reqs, k, j); }
    RunGrants(reqs, resps, s, k, id);
    HistoryGrants(reqs, resps, k, id, t);
    RunWithinSlice(reqs, s, k, id, t);
  }

  /** Although the limiter forgets everything at each new slice, it answers as if it kept the whole
      history exactly as long as nothing it forgot makes a difference, which the requests alone decide. */
  lemma {:induction false} FollowsHistory(reqs: seq<Request>, resps: seq<bool>, n: nat)
    requires Fair(reqs, resps) && n <= |resps|
    ensures ByHistory(reqs, resps, n) <==> forall k :: 0 <= k < n ==> NothingForgotten(reqs, k)
  {
    if n > 0 {
      FollowsHistory(reqs, resps, n - 1);
      assert ByHistory(reqs, resps, n) <==> ByHistory(reqs, resps, n - 1) && HistoryRule(reqs, resps, n - 1);
      if ByHistory(reqs, resps, n - 1) {
        HistoryStep(reqs, resps, n - 1);
      }
    }
  }

  lemma {:induction false} CountsAgree(reqs: seq<Request>, from: nat, end: nat, id: string, t: nat)
    requires from <= end <= |reqs|
    requires forall j :: from <= j < end ==> TimeSlice(reqs[j].now) == t
    requires forall j :: 0 <= j < from ==> TimeSlice(reqs[j].now) != t
    ensures AskedIn(reqs, end, id, t) == Asked(reqs, from, end, id)
    decreases end
  {
    if end > from {
      CountsAgree(reqs, from, end - 1, id, t);
    } else if end > 0 {
      CountsAgree(reqs, from - 1, end - 1, id, t);
    }
  }

  /** So it does when no slice is entered again. */
  lemma RefusesByHistory(reqs: seq<Request>, resps: seq<bool>)
    requires Fair(reqs, resps) && SlicesEnd(reqs)
    ensures ByHistory(reqs, resps, |resps|)
  {
    forall k | 0 <= k < |resps| ensures NothingForgotten(reqs, k) {
      CountsAgree(reqs, RunStart(reqs, k), k, reqs[k].id, TimeSlice(reqs[k].now));
    }
    FollowsHistory(reqs, resps, |resps|);
  }

  lemma {:induction false} GrantsGrow(reqs: seq<Request>, resps: seq<bool>, m: nat, n: nat, id: string, t: nat)
    requires m <= n <= |resps| <= |reqs|
    ensures GrantedIn(reqs, resps, m, id, t) <= GrantedIn(reqs, resps, n, id, t)
    decreases n
  {
    if m < n { GrantsGrow(reqs, resps, m, n - 1, id, t); }
  }

  /** The first answer that does not follow the history lets an id through a fifth time. */
  lemma FifthGrant(reqs: seq<Request>, resps: seq<bool>, k: nat)
    requires Fair(reqs, resps) && k < |resps| && ByHistory(reqs, resps, k) && !HistoryRule(reqs, resps, k)
    ensures GrantedIn(reqs, resps, k + 1, reqs[k].id, TimeSlice(reqs[k].now)) == MAX_COUNT + 1
  {
    var id, t, s := reqs[k].id, TimeSlice(reqs[k].now), RunStart(reqs, k);
    assert Rule(reqs, resps, k);
    forall j | s <= j < k ensures RunStart(reqs, j) == s { SameStart(reqs, k, j); }
    RunGrants(reqs, resps, s, k, id);
    HistoryGrants(reqs, resps, k, id, t);
    RunWithinSlice(reqs, s, k, id, t);
  }

  ghost predicate NeverFive(reqs: seq<Request>, resps: seq<bool>, n: nat)
    requires n <= |resps| <= |reqs|
  {
    forall id, t :: GrantedIn(reqs, resps, n, id, t) <= MAX_COUNT
  }

  /** No id is let through more than four times in a slice exactly under the same condition. */
  lemma {:induction false} AtMostFour(reqs: seq<Request>, resps: seq<bool>, n: nat)
    requires Fair(reqs, resps) && n <= |resps|
    ensures NeverFive(reqs, resps, n) <==> forall k :: 0 <= k < n ==> NothingForgotten(reqs, k)
  {
    FollowsHistory(reqs, resps, n);
    if ByHistory(reqs, resps, n) {
      forall id, t ensures GrantedIn(reqs, resps, n, id, t) <= MAX_COUNT { HistoryGrants(reqs, resps, n, id, t); }
    } else {
      FollowsHistory(reqs, resps, n - 1);
      if ByHistory(reqs, resps, n - 1) {
        FifthGrant(reqs, resps, n - 1);
      } else {
        AtMostFour(reqs, resps, n - 1);
        var id, t :| GrantedIn(reqs, resps, n - 1, id, t) > MAX_COUNT;
        GrantsGrow(reqs, resps, n - 1, n, id, t);
      }
    }
  }

  /** What is forgotten can make a difference: when the clock goes back into a slice, the limiter grants a
      fifth request in it. */
  lemma ClockBackward()
    ensures var a, b := Request("a", 0), Request("a", TIMESLICE_BLOCK);
            var reqs := [a, a, a, a, b, a];
            var resps := [false, false, false, false, false, false];
            Fair(reqs, resps) && GrantedIn(reqs, resps, 5, "a", 0) == MAX_COUNT && !resps[5]
  {
    var a, b := Request("a", 0), Request("a", TIMESLICE_BLOCK);
    var reqs := [a, a, a, a, b, a];
    var resps := [false, false, false, false, false, false];
    assert RunStart(reqs, 0) == 0;
    assert RunStart(reqs, 1) == 0;
    assert RunStart(reqs, 2) == 0;
    assert RunStart(reqs, 3) == 0;
    assert RunStart(reqs, 4) == 4;
    assert RunStart(reqs, 5) == 5;
    forall k | 0 <= k < 6 ensures Rule(reqs, resps, k) {
      assert Granted(reqs, resps, RunStart(reqs, k), k, reqs[k].id) <= k - RunStart(reqs, k) < 4;
    }
    assert GrantedIn(reqs, resps, 1, "a", 0) == 1;
    assert GrantedIn(reqs, resps, 3, "a", 0) == 3;
    assert GrantedIn(reqs, resps, 4, "a", 0) == 4;
  }
}
