/**
  One admission pass of the global job scheduler: repeatedly pick the most preferred queued
  job that its workspace cap and resource budget allow, until the global cap, the batch limit,
  or nothing eligible is left. Preferences are recomputed after every pick because they depend
  on how many jobs each workspace already runs.
 */
module Admission {
  import opened Common
  import opened Resources

  const BATCH := 100
  const SECOND := 1000000000

  datatype Policy = Policy(byPriority: bool, maxJobs: int, maxPerWorkspace: int, agingSeconds: int)

  predicate ValidPolicy(p: Policy) {
    p.maxJobs >= 1 && 1 <= p.maxPerWorkspace <= p.maxJobs && p.agingSeconds >= 1
  }

  datatype State = Waits | Admitted | Dropped

  /** The queue snapshot kept in memory during a pass. `gated` marks command and evaluation jobs. */
  datatype Candidate = Candidate(
    id: int, workspace: string, priority: int, queuedAt: int, gated: bool,
    execution: Option<string>, demand: Option<Demand>, state: State)

  type Counts = map<string, nat>

  function Count(c: Counts, workspace: string): nat {
    if workspace in c then c[workspace] else 0
  }

  /** Seconds waited, never negative. */
  function Waited(c: Candidate, now: int): int {
    var w := now / SECOND - c.queuedAt / SECOND;
    if w < 0 then 0 else w
  }

  function Score(c: Candidate, p: Policy, now: int): int
    requires ValidPolicy(p)
  {
    c.priority + Waited(c, now) / p.agingSeconds
  }

  /** The scheduler takes `a` rather than `b`. */
  predicate Prefers(a: Candidate, b: Candidate, p: Policy, now: int, counts: Counts)
    requires ValidPolicy(p)
  {
    if p.byPriority && Score(a, p, now) != Score(b, p, now) then Score(a, p, now) > Score(b, p, now)
    else if p.byPriority && Count(counts, a.workspace) != Count(counts, b.workspace) then Count(counts, a.workspace) < Count(counts, b.workspace)
    else if a.queuedAt != b.queuedAt then a.queuedAt < b.queuedAt
    else a.id < b.id
  }

  /** Preference is a strict total order on jobs with different ids, so there is always one best. */
  lemma PrefersIsStrictTotal(a: Candidate, b: Candidate, c: Candidate, p: Policy, now: int, counts: Counts)
    requires ValidPolicy(p)
    ensures !(Prefers(a, b, p, now, counts) && Prefers(b, a, p, now, counts))
    ensures a.id != b.id ==> Prefers(a, b, p, now, counts) || Prefers(b, a, p, now, counts)
    ensures Prefers(a, b, p, now, counts) && Prefers(b, c, p, now, counts) ==> Prefers(a, c, p, now, counts)
  {
  }

  lemma DivMono(x: int, y: int, d: int)
    requires d > 0 && x <= y
    ensures x / d <= y / d
  {
    var q, r := x / d, y / d;
    assert x == d * q + x % d && y == d * r + y % d;
    assert d * q <= d * (r + 1) - 1;
    assert q < r + 1;
  }

  lemma DivUnique(x: int, d: int, q: int, r: int)
    requires d > 0 && x == d * q + r && 0 <= r < d
    ensures x / d == q
  {
    var k := x / d - q;
    assert d * k == r - x % d;
    assert -d < d * k < d;
    assert k == 0;
  }

  lemma DivShift(x: int, n: int, d: int)
    requires d > 0
    ensures (x + d * n) / d == x / d + n
  {
    DivUnique(x + d * n, d, x / d + n, x % d);
  }

  /** Waiting long enough beats any priority: a job is not starved by later arrivals. */
  lemma AgingOvertakes(a: Candidate, b: Candidate, p: Policy, now: int, counts: Counts)
    requires ValidPolicy(p) && p.byPriority
    requires Waited(a, now) >= Waited(b, now) + p.agingSeconds * (b.priority - a.priority + 1)
    ensures Prefers(a, b, p, now, counts)
  {
    var d, n := p.agingSeconds, b.priority - a.priority + 1;
    DivShift(Waited(b, now), n, d);
    DivMono(Waited(b, now) + d * n, Waited(a, now), d);
    assert Score(a, p, now) > Score(b, p, now);
  }

  // ---- The pass ----

  datatype Pass = Pass(queued: seq<Candidate>, active: int, counts: Counts, budget: Option<Budget>, admitted: nat)

  /** What admitting candidate `i` would add to its workspace. */
  function Extra(s: Pass, i: nat): Option<Demand>
    requires i < |s.queued| && s.budget.Some?
  {
    CandidateDemand(s.budget.value, s.queued[i].execution, s.queued[i].demand)
  }

  predicate BlockedByWorkspace(s: Pass, p: Policy, i: nat)
    requires i < |s.queued|
  {
    Count(s.counts, s.queued[i].workspace) >= p.maxPerWorkspace
  }

  predicate BlockedByResources(s: Pass, i: nat)
    requires i < |s.queued|
  {
    s.budget.Some? && s.queued[i].gated && !Fits(s.budget.value, s.queued[i].workspace, Extra(s, i))
  }

  predicate Eligible(s: Pass, p: Policy, i: nat)
    requires i < |s.queued|
  {
    s.queued[i].state == Waits && !BlockedByWorkspace(s, p, i) && !BlockedByResources(s, i)
  }

  /** Candidate `i` is eligible and preferred to every other eligible one. */
  predicate IsBest(s: Pass, p: Policy, now: int, i: nat)
    requires ValidPolicy(p)
  {
    && i < |s.queued| && Eligible(s, p, i)
    && forall j :: 0 <= j < |s.queued| && j != i && Eligible(s, p, j) ==> Prefers(s.queued[i], s.queued[j], p, now, s.counts)
  }

  /** The pass may admit another job. */
  predicate Open(s: Pass, p: Policy) {
    s.active < p.maxJobs && s.admitted < BATCH
  }

  /** Candidate `i` is admitted, or dropped for this pass when its row changed under the scheduler. */
  function Take(s: Pass, i: nat, hit: bool): Pass
    requires i < |s.queued|
  {
    var c := s.queued[i];
    if !hit then s.(queued := s.queued[i := c.(state := Dropped)])
    else Pass(s.queued[i := c.(state := Admitted)], s.active + 1, s.counts[c.workspace := Count(s.counts, c.workspace) + 1],
              if s.budget.Some? then Some(Add(s.budget.value, c.workspace, Extra(s, i))) else None, s.admitted + 1)
  }

  /** The state after the first `n` picks; rows in `stale` had changed when the pass tried to write them. */
  function Replay(s: Pass, picks: seq<nat>, stale: set<int>, n: nat): (r: Pass)
    requires n <= |picks| && forall k :: 0 <= k < |picks| ==> picks[k] < |s.queued|
    ensures |r.queued| == |s.queued|
  {
    if n == 0 then s
    else
      var before := Replay(s, picks, stale, n - 1);
      Take(before, picks[n - 1], before.queued[picks[n - 1]].id !in stale)
  }

  predicate InRange(s: Pass, picks: seq<nat>) {
    forall k :: 0 <= k < |picks| ==> picks[k] < |s.queued|
  }

  predicate DistinctIds(s: Pass) {
    forall i, j :: 0 <= i < j < |s.queued| ==> s.queued[i].id != s.queued[j].id
  }

  lemma {:induction false} ReplayPrefix(s: Pass, picks: seq<nat>, stale: set<int>, n: nat, i: nat)
    requires InRange(s, picks) && n <= |picks| && i < |s.queued|
    ensures InRange(s, picks + [i])
    ensures Replay(s, picks + [i], stale, n) == Replay(s, picks, stale, n)
    decreases n
  {
    if n > 0 {
      ReplayPrefix(s, picks, stale, n - 1, i);
    }
  }

  /** Each of the first `n` picks was made while the pass was open and was the best eligible candidate at that moment. */
  ghost predicate Greedy(s: Pass, p: Policy, now: int, stale: set<int>, picks: seq<nat>, n: nat)
    requires ValidPolicy(p) && InRange(s, picks) && n <= |picks|
  {
    n > 0 ==>
      && Greedy(s, p, now, stale, picks, n - 1)
      && Open(Replay(s, picks, stale, n - 1), p)
      && IsBest(Replay(s, picks, stale, n - 1), p, now, picks[n - 1])
  }

  lemma {:induction false} GreedyPrefix(s: Pass, p: Policy, now: int, stale: set<int>, picks: seq<nat>, n: nat, i: nat)
    requires ValidPolicy(p) && InRange(s, picks) && n <= |picks| && i < |s.queued| && Greedy(s, p, now, stale, picks, n)
    ensures InRange(s, picks + [i]) && Greedy(s, p, now, stale, picks + [i], n)
    decreases n
  {
    if n > 0 {
      GreedyPrefix(s, p, now, stale, picks, n - 1, i);
      ReplayPrefix(s, picks, stale, n - 1, i);
    }
  }

  lemma GreedyExtends(s: Pass, p: Policy, now: int, stale: set<int>, picks: seq<nat>, i: nat)
    requires ValidPolicy(p) && InRange(s, picks) && Greedy(s, p, now, stale, picks, |picks|)
    requires Open(Replay(s, picks, stale, |picks|), p) && IsBest(Replay(s, picks, stale, |picks|), p, now, i)
    ensures InRange(s, picks + [i]) && Greedy(s, p, now, stale, picks + [i], |picks| + 1)
    ensures var before := Replay(s, picks, stale, |picks|);
      Replay(s, picks + [i], stale, |picks| + 1) == Take(before, i, before.queued[i].id !in stale)
  {
    GreedyPrefix(s, p, now, stale, picks, |picks|, i);
    ReplayPrefix(s, picks, stale, |picks|, i);
  }

  /** Why a pass may end: the global cap, the batch limit, or every waiting candidate is blocked. */
  predicate Exhausted(s: Pass, p: Policy) {
    || s.active >= p.maxJobs
    || s.admitted >= BATCH
    || forall i :: 0 <= i < |s.queued| && s.queued[i].state == Waits ==> BlockedByWorkspace(s, p, i) || BlockedByResources(s, i)
  }

  function Waiting(q: seq<Candidate>): nat {
    if q == [] then 0 else (if q[0].state == Waits then 1 else 0) + Waiting(q[1..])
  }

  lemma {:induction false} TakingOneLess(q: seq<Candidate>, i: nat, c: Candidate)
    requires i < |q| && q[i].state == Waits && c.state != Waits
    ensures Waiting(q[i := c]) == Waiting(q) - 1
    decreases i
  {
    if i == 0 {
      assert q[0 := c][1..] == q[1..];
    } else {
      assert q[i := c][1..] == q[1..][i - 1 := c];
      TakingOneLess(q[1..], i - 1, c);
    }
  }

  lemma BestSoFarIsBest(s: Pass, p: Policy, now: int, best: nat, i: nat)
    requires ValidPolicy(p) && DistinctIds(s) && best < i < |s.queued| && Eligible(s, p, best)
    requires forall j :: 0 <= j < i && j != best && Eligible(s, p, j) ==> Prefers(s.queued[best], s.queued[j], p, now, s.counts)
    ensures Prefers(s.queued[i], s.queued[best], p, now, s.counts) ==>
      forall j :: 0 <= j < i && Eligible(s, p, j) ==> Prefers(s.queued[i], s.queued[j], p, now, s.counts)
    ensures !Prefers(s.queued[i], s.queued[best], p, now, s.counts) ==> Prefers(s.queued[best], s.queued[i], p, now, s.counts)
  {
    forall j | 0 <= j < i && Eligible(s, p, j) && Prefers(s.queued[i], s.queued[best], p, now, s.counts)
      ensures Prefers(s.queued[i], s.queued[j], p, now, s.counts)
    {
      PrefersIsStrictTotal(s.queued[i], s.queued[best], s.queued[j], p, now, s.counts);
    }
    PrefersIsStrictTotal(s.queued[best], s.queued[i], s.queued[i], p, now, s.counts);
  }

  /** One scan of the queue for the best eligible candidate. */
  method SelectBest(s: Pass, p: Policy, now: int) returns (best: Option<nat>)
    requires ValidPolicy(p) && DistinctIds(s)
    ensures best.Some? ==> IsBest(s, p, now, best.value)
    ensures best.None? ==> forall i :: 0 <= i < |s.queued| ==> !Eligible(s, p, i)
  {
    best := None;
    for i := 0 to |s.queued|
      invariant best.None? ==> forall j :: 0 <= j < i ==> !Eligible(s, p, j)
      invariant best.Some? ==> best.value < i && Eligible(s, p, best.value)
      invariant best.Some? ==> forall j :: 0 <= j < i && j != best.value && Eligible(s, p, j) ==>
        Prefers(s.queued[best.value], s.queued[j], p, now, s.counts)
    {
      if Eligible(s, p, i) {
        if best.None? {
          best := Some(i);
        } else {
          BestSoFarIsBest(s, p, now, best.value, i);
          if Prefers(s.queued[i], s.queued[best.value], p, now, s.counts) {
            best := Some(i);
          }
        }
      }
    }
  }

  lemma TakeKeepsDistinct(s: Pass, i: nat, hit: bool)
    requires i < |s.queued| && DistinctIds(s)
    ensures DistinctIds(Take(s, i, hit))
  {
  }

  /** The whole pass is greedy, terminates, and is work-conserving. */
  method AdmitQueued(start: Pass, p: Policy, now: int, stale: set<int>) returns (end: Pass, picks: seq<nat>)
    requires ValidPolicy(p) && DistinctIds(start)
    ensures InRange(start, picks) && Greedy(start, p, now, stale, picks, |picks|)
    ensures end == Replay(start, picks, stale, |picks|)
    ensures Exhausted(end, p)
  {
    end, picks := start, [];
    while end.active < p.maxJobs && end.admitted < BATCH
      invariant InRange(start, picks) && Greedy(start, p, now, stale, picks, |picks|)
      invariant end == Replay(start, picks, stale, |picks|)
      invariant DistinctIds(end)
      decreases Waiting(end.queued)
    {
      var best := SelectBest(end, p, now);
      if best.None? {
        forall i | 0 <= i < |end.queued| && end.queued[i].state == Waits
          ensures BlockedByWorkspace(end, p, i) || BlockedByResources(end, i)
        {
          assert !Eligible(end, p, i);
        }
        return;
      }
      var i := best.value;
      GreedyExtends(start, p, now, stale, picks, i);
      picks := picks + [i];
      var hit := end.queued[i].id !in stale;
      TakingOneLess(end.queued, i, end.queued[i].(state := if hit then Admitted else Dropped));
      TakeKeepsDistinct(end, i, hit);
      end := Take(end, i, hit);
    }
  }

  // ---- What a greedy pass keeps ----

  /** The best candidate is unique, so a greedy pass is determined by the queue it started from. */
  lemma BestIsUnique(s: Pass, p: Policy, now: int, i: nat, j: nat)
    requires ValidPolicy(p) && IsBest(s, p, now, i) && IsBest(s, p, now, j)
    ensures i == j
  {
    if i != j {
      PrefersIsStrictTotal(s.queued[i], s.queued[j], s.queued[i], p, now, s.counts);
    }
  }

  lemma TakeKeepsCaps(s: Pass, p: Policy, i: nat, hit: bool, workspace: string)
    requires i < |s.queued| && Open(s, p) && !BlockedByWorkspace(s, p, i) && Count(s.counts, workspace) <= p.maxPerWorkspace
    ensures Take(s, i, hit).active <= p.maxJobs && Count(Take(s, i, hit).counts, workspace) <= p.maxPerWorkspace
  {
  }

  /** The caps hold at every moment of a pass that started within them. */
  lemma {:induction false} PassKeepsCaps(s: Pass, p: Policy, now: int, stale: set<int>, picks: seq<nat>, n: nat, workspace: string)
    requires ValidPolicy(p) && InRange(s, picks) && n <= |picks| && Greedy(s, p, now, stale, picks, n)
    requires s.active <= p.maxJobs && Count(s.counts, workspace) <= p.maxPerWorkspace
    ensures Replay(s, picks, stale, n).active <= p.maxJobs
    ensures Count(Replay(s, picks, stale, n).counts, workspace) <= p.maxPerWorkspace
    decreases n
  {
    if n > 0 {
      PassKeepsCaps(s, p, now, stale, picks, n - 1, workspace);
      var before, i := Replay(s, picks, stale, n - 1), picks[n - 1];
      TakeKeepsCaps(before, p, i, before.queued[i].id !in stale, workspace);
    }
  }

  /** Every candidate is gated by the budget or runs no Pod. */
  predicate OnlyGatedOrFree(q: seq<Candidate>) {
    forall i :: 0 <= i < |q| ==> q[i].gated || q[i].demand == Some(map[])
  }

  lemma FreeStaysFree(b: Budget, execution: Option<string>)
    ensures CandidateDemand(b, execution, Some(map[])) == Some(map[])
  {
    var d := CandidateDemand(b, execution, Some(map[])).value;
    assert d.Keys == {};
  }

  lemma TakeKeepsQuota(s: Pass, p: Policy, i: nat, hit: bool, workspace: string)
    requires s.budget.Some? && OnlyGatedOrFree(s.queued) && WithinQuota(s.budget.value, workspace)
    requires i < |s.queued| && Eligible(s, p, i)
    ensures Take(s, i, hit).budget.Some? && OnlyGatedOrFree(Take(s, i, hit).queued) && WithinQuota(Take(s, i, hit).budget.value, workspace)
  {
    if s.queued[i].gated {
      FittingKeepsQuota(s.budget.value, s.queued[i].workspace, Extra(s, i), workspace);
    } else {
      FreeStaysFree(s.budget.value, s.queued[i].execution);
    }
  }

  /** When only command, evaluation and resource-free jobs are queued, a workspace within quota stays within it. */
  lemma {:induction false} PassKeepsQuota(s: Pass, p: Policy, now: int, stale: set<int>, picks: seq<nat>, n: nat, workspace: string)
    requires ValidPolicy(p) && InRange(s, picks) && n <= |picks| && Greedy(s, p, now, stale, picks, n)
    requires s.budget.Some? && OnlyGatedOrFree(s.queued) && WithinQuota(s.budget.value, workspace)
    ensures Replay(s, picks, stale, n).budget.Some?
    ensures OnlyGatedOrFree(Replay(s, picks, stale, n).queued)
    ensures WithinQuota(Replay(s, picks, stale, n).budget.value, workspace)
    decreases n
  {
    if n > 0 {
      PassKeepsQuota(s, p, now, stale, picks, n - 1, workspace);
      var before, i := Replay(s, picks, stale, n - 1), picks[n - 1];
      TakeKeepsQuota(before, p, i, before.queued[i].id !in stale, workspace);
    }
  }

  /** The charge does not fit into what the workspace has left of some tracked resource. */
  predicate Overruns(b: Budget, workspace: string, demand: Option<Demand>) {
    demand.Some? && exists k :: k in b.quota && Used(b, workspace, k) + Amount(demand.value, k) > b.quota[k]
  }

  /** A pick takes a workspace above its quota exactly when it is an ungated job of that workspace whose charge overruns the quota. */
  lemma PickExceedsQuotaIff(s: Pass, p: Policy, i: nat, workspace: string)
    requires s.budget.Some? && i < |s.queued| && Eligible(s, p, i) && WithinQuota(s.budget.value, workspace)
    ensures !WithinQuota(Take(s, i, true).budget.value, workspace) <==>
      !s.queued[i].gated && s.queued[i].workspace == workspace && Overruns(s.budget.value, workspace, Extra(s, i))
  {
    var b, c := s.budget.value, s.queued[i];
    var b' := Take(s, i, true).budget.value;
    if c.gated {
      FittingKeepsQuota(b, c.workspace, Extra(s, i), workspace);
    }
    forall k | k in b.quota
      ensures Used(b', workspace, k) == Used(b, workspace, k) + if Extra(s, i).Some? && workspace == c.workspace then Amount(Extra(s, i).value, k) else 0
    {
      AddCharges(b, c.workspace, Extra(s, i), workspace, k);
    }
  }

  /** Such picks exist: an ungated job that declares Pods is admitted past the quota. */
  lemma UngatedExceedsQuota(p: Policy, now: int)
    requires ValidPolicy(p)
    ensures exists s: Pass, i: nat ::
      && s.budget.Some? && i < |s.queued| && s.queued[i].workspace == "w" && Open(s, p) && IsBest(s, p, now, i)
      && WithinQuota(s.budget.value, "w") && !WithinQuota(Take(s, i, true).budget.value, "w")
  {
    var b := Budget(map[Pods := 1], map[], {}, {}, map[]);
    var c := Candidate(1, "w", 0, 0, false, None, Some(map[Pods := 2]), Waits);
    var s := Pass([c], 0, map[], Some(b), 0);
    assert IsBest(s, p, now, 0);
    assert Pods in b.quota && Used(b, "w", Pods) + Amount(map[Pods := 2], Pods) > b.quota[Pods];
    PickExceedsQuotaIff(s, p, 0, "w");
  }
}
