/**
  Evaluation checkpoints: runner writes, maintenance sweeps, recovery references and restores.

  Every mutation of a point happens in one transaction that holds the workflow row's lock, so each is
  one step. A sweep deletes snapshots in the cluster between two such transactions, and nothing
  fences those deletions: they may happen arbitrarily late, even after the sweep's lease is gone.

  The points of one execution are modelled together; `ref` is the execution key of the successor
  that resumes from a point.
 */
module Checkpoint {
  import opened Common

  datatype State = Pending | Ready | Failed

  datatype Point = Point(
    state: State, cleaned: bool, createTime: int, sourceDeadline: int, expiresAt: int,
    token: Option<nat>, leaseUntil: Option<int>, ref: string)

  const TIMEOUT := 600 * MICROS_PER_SECOND
  const MAX_POINTS := 4

  /** What a maintenance pass sees outside the point's own row. */
  datatype Reference = Missing | Live | Ended
  datatype Facts = Facts(orphaned: bool, taskTerminal: bool, reference: Reference, stopped: bool)

  datatype Step =
    | Tick(later: nat)
    | Put(id: int, deadline: int)
    | Get(id: int, stopped: bool)
    | Save(id: int, token: nat, stopped: bool)
    | Fail(id: int, token: nat)
    | Advance(id: int, token: nat, stopped: bool, allReady: bool)
    | Maintain(id: int, facts: Facts)
    | DeleteSnapshots(id: int, token: nat)
    | Finish(id: int, token: nat, allGone: bool)
    | Recover(id: int, self: string, next: string, grace: nat)
    | ReleaseReference(id: int, self: string)
    | BeginRestore(id: int, key: string)
    | CreateRestored(id: int, key: string)

  /**
    `used` holds every id ever stored, `sweeps` every cleanup granted, `deleted` the points that
    lost a snapshot, and tokens below `issued` have been handed out. `restoring` holds the restores
    that passed their check and have not created their sandbox yet.
   */
  datatype World = World(points: map<int, Point>, used: set<int>, now: int, issued: nat, sweeps: set<(int, nat)>, deleted: set<int>, restoring: set<(int, string)>)

  function Uncleaned(w: World): set<int> {
    set id | id in w.points && !w.points[id].cleaned
  }

  predicate Leased(p: Point, now: int) {
    p.leaseUntil.Some? && now < p.leaseUntil.value
  }

  predicate Expired(p: Point, now: int) {
    p.expiresAt <= now
  }

  function Unlease(p: Point): Point {
    p.(token := None, leaseUntil := None)
  }

  function Failing(p: Point, now: int): Point {
    p.(state := State.Failed, expiresAt := now)
  }

  /** A runner's write passes only while its point is pending and it holds the lease. */
  predicate RunnerMay(w: World, id: int, token: nat) {
    && id in w.points && w.points[id].state == State.Pending && w.points[id].token == Some(token) && Leased(w.points[id], w.now)
  }

  /** The complete points a new one competes with. */
  predicate Rival(w: World, id: int, other: int) {
    other in w.points && other != id && w.points[other].state == Ready && !w.points[other].cleaned
  }

  predicate Newer(w: World, a: int, b: int)
    requires a in w.points && b in w.points
  {
    w.points[a].createTime > w.points[b].createTime || (w.points[a].createTime == w.points[b].createTime && a > b)
  }

  /** Retention: of the earlier complete points, every one but the newest expires unless it is referenced. */
  predicate Superseded(w: World, id: int, other: int) {
    && Rival(w, id, other) && w.points[other].ref == ""
    && exists newer :: newer in w.points && Rival(w, id, newer) && Newer(w, newer, other)
  }

  function MarkReady(w: World, id: int): World
    requires id in w.points
  {
    w.(points := map other | other in w.points ::
         if other == id then Unlease(w.points[id]).(state := Ready)
         else if Superseded(w, id, other) then w.points[other].(expiresAt := w.now)
         else w.points[other])
  }

  /** The reference a maintenance pass leaves, and whether it also expires the point. */
  predicate Ends(p: Point, now: int, f: Facts) {
    f.orphaned || f.taskTerminal || p.sourceDeadline <= now
  }

  function Dereferenced(p: Point, now: int, f: Facts): Point {
    if Ends(p, now, f) then p.(ref := "", expiresAt := now)
    else if p.ref != "" && f.reference != Live then p.(ref := "")
    else p
  }

  function Reconciled(p: Point, now: int, f: Facts): Point {
    var q := Dereferenced(p, now, f);
    if q.state == State.Pending && (f.stopped || Ends(p, now, f) || now - q.createTime >= TIMEOUT) then Failing(q, now) else q
  }

  function MaintainPoint(w: World, id: int, f: Facts): World
    requires id in w.points
  {
    var p := w.points[id];
    if p.cleaned then
      if p.sourceDeadline + RETENTION <= w.now then w.(points := w.points - {id}) else w
    else if Leased(p, w.now) then w
    else
      var q := Reconciled(p, w.now, f);
      if q.ref == "" && Expired(q, w.now)
      then w.(points := w.points[id := q.(token := Some(w.issued), leaseUntil := Some(w.now + OPERATION_LEASE))],
              issued := w.issued + 1, sweeps := w.sweeps + {(id, w.issued)})
      else w.(points := w.points[id := q])
  }

  predicate FinishPasses(w: World, id: int, token: nat) {
    && (id, token) in w.sweeps && id in w.points
    && w.points[id].token == Some(token) && Leased(w.points[id], w.now) && w.points[id].ref == ""
  }

  predicate RecoverPasses(w: World, id: int, self: string, grace: nat) {
    && id in w.points && w.points[id].state == Ready && !w.points[id].cleaned && !Expired(w.points[id], w.now)
    && w.now + grace < w.points[id].sourceDeadline
    && (w.points[id].ref == "" || w.points[id].ref == self)
  }

  /** The check before a restore creates sandboxes from a point, and before its material is read. */
  predicate CanRestore(w: World, id: int, key: string) {
    id in w.points && w.points[id].ref == key && w.points[id].state == Ready && !w.points[id].cleaned && !Expired(w.points[id], w.now)
  }

  /** What the generic update stores: it skips empty values, so those columns keep theirs. */
  function SkipEmpty(stored: Point, p: Point): Point {
    Point(p.state, stored.cleaned || p.cleaned, p.createTime, p.sourceDeadline, p.expiresAt,
          if p.token.None? then stored.token else p.token, if p.leaseUntil.None? then stored.leaseUntil else p.leaseUntil,
          if p.ref == "" then stored.ref else p.ref)
  }

  function Do(w: World, s: Step): World {
    match s
    case Tick(later) => w.(now := w.now + later)
    case Put(id, deadline) =>
      if w.now < deadline && id !in w.used && |Uncleaned(w)| < MAX_POINTS && (forall other :: other in Uncleaned(w) ==> w.points[other].state == Ready)
      then w.(points := w.points[id := Point(State.Pending, false, w.now, deadline, deadline + RETENTION, None, None, "")], used := w.used + {id})
      else w
    case Get(id, stopped) =>
      if id !in w.points || w.points[id].state != State.Pending then w
      else if stopped || w.now - w.points[id].createTime >= TIMEOUT then w.(points := w.points[id := Failing(w.points[id], w.now)])
      else if Leased(w.points[id], w.now) then w
      else w.(points := w.points[id := w.points[id].(token := Some(w.issued), leaseUntil := Some(w.now + OPERATION_LEASE))], issued := w.issued + 1)
    case Save(id, token, stopped) =>
      if RunnerMay(w, id, token) && stopped then w.(points := w.points[id := Failing(w.points[id], w.now)]) else w
    case Fail(id, token) =>
      if RunnerMay(w, id, token) then w.(points := w.points[id := Unlease(Failing(w.points[id], w.now))]) else w
    case Advance(id, token, stopped, allReady) =>
      if !RunnerMay(w, id, token) then w
      else if stopped then w.(points := w.points[id := Failing(w.points[id], w.now)])
      else if allReady then MarkReady(w, id)
      else w.(points := w.points[id := Unlease(w.points[id])])
    case Maintain(id, facts) => if id in w.points then MaintainPoint(w, id, facts) else w
    case DeleteSnapshots(id, token) => if (id, token) in w.sweeps then w.(deleted := w.deleted + {id}) else w
    case Finish(id, token, allGone) =>
      if !FinishPasses(w, id, token) then w
      else
        var p := Unlease(w.points[id]);
        w.(points := w.points[id := if allGone then p.(cleaned := true, state := State.Failed) else p])
    case Recover(id, self, next, grace) =>
      if RecoverPasses(w, id, self, grace) && next != "" then w.(points := w.points[id := SkipEmpty(w.points[id], w.points[id].(ref := next))]) else w
    case ReleaseReference(id, self) =>
      if id in w.points && w.points[id].ref == self
      then w.(points := w.points[id := SkipEmpty(w.points[id], w.points[id].(ref := ""))]) else w
    case BeginRestore(id, key) => if CanRestore(w, id, key) then w.(restoring := w.restoring + {(id, key)}) else w
    case CreateRestored(id, key) => w.(restoring := w.restoring - {(id, key)})
  }

  function After(w: World, steps: seq<Step>, i: nat): World
    requires i <= |steps|
  {
    if i == 0 then w else Do(After(w, steps, i - 1), steps[i - 1])
  }

  predicate Start(w: World) {
    w.points == map[] && w.used == {} && w.sweeps == {} && w.deleted == {} && w.issued == 0 && w.restoring == {}
  }

  predicate Granted(w: World, id: int) {
    exists sweep :: sweep in w.sweeps && sweep.0 == id
  }

  /** A point that was granted for cleanup is out of reach: unreferenced and expired. */
  predicate Doomed(w: World, id: int) {
    id in w.used && (id in w.points ==> w.points[id].ref == "" && Expired(w.points[id], w.now))
  }

  ghost predicate Good(w: World) {
    && w.points.Keys <= w.used
    && (forall sweep :: sweep in w.sweeps ==> Doomed(w, sweep.0))
    && (forall id :: id in w.deleted ==> Granted(w, id))
    && (forall id :: id in w.points && w.points[id].cleaned ==> Granted(w, id))
  }

  lemma MarkReadyKeepsGood(w: World, id: int)
    requires Good(w) && id in w.points
    ensures Good(MarkReady(w, id))
  {
  }

  lemma MaintainKeepsGood(w: World, id: int, f: Facts)
    requires Good(w) && id in w.points
    ensures Good(MaintainPoint(w, id, f))
  {
    var w' := MaintainPoint(w, id, f);
    forall other | Granted(w, other) ensures Granted(w', other) {
      var sweep :| sweep in w.sweeps && sweep.0 == other;
      assert sweep in w'.sweeps;
    }
  }

  lemma StepKeepsGood(w: World, s: Step)
    requires Good(w)
    ensures Good(Do(w, s))
  {
    match s
    case Advance(id, token, stopped, allReady) =>
      if RunnerMay(w, id, token) && !stopped && allReady {
        MarkReadyKeepsGood(w, id);
      }
    case Maintain(id, facts) =>
      if id in w.points {
        MaintainKeepsGood(w, id, facts);
      }
    case Finish(id, token, allGone) =>
      if FinishPasses(w, id, token) {
        assert (id, token) in w.sweeps && (id, token).0 == id;
      }
    case DeleteSnapshots(id, token) =>
      if (id, token) in w.sweeps {
        assert (id, token).0 == id;
      }
    case _ =>
  }

  lemma {:induction false} RunKeepsGood(w: World, steps: seq<Step>, i: nat)
    requires Start(w) && i <= |steps|
    ensures Good(After(w, steps, i))
    decreases i
  {
    if i > 0 {
      RunKeepsGood(w, steps, i - 1);
      StepKeepsGood(After(w, steps, i - 1), steps[i - 1]);
    }
  }

  lemma {:induction false} HistoryGrows(w: World, steps: seq<Step>, i: nat, j: nat)
    requires i <= j <= |steps|
    ensures After(w, steps, i).sweeps <= After(w, steps, j).sweeps && After(w, steps, i).issued <= After(w, steps, j).issued
    ensures After(w, steps, i).used <= After(w, steps, j).used
    decreases j
  {
    if i < j {
      HistoryGrows(w, steps, i, j - 1);
      StepGrows(After(w, steps, j - 1), steps[j - 1]);
    }
  }

  lemma StepGrows(w: World, s: Step)
    ensures w.sweeps <= Do(w, s).sweeps && w.issued <= Do(w, s).issued && w.used <= Do(w, s).used
  {
  }

  /**
    Once cleanup of a point has been granted, no execution can ever restore from it, read its
    material or start a recovery on it: however late the sweep deletes the snapshots.
   */
  lemma {:induction false} CleanupIsFinal(w: World, steps: seq<Step>, i: nat, j: nat, id: int, key: string, grace: nat)
    requires Start(w) && i <= j <= |steps| && Granted(After(w, steps, i), id)
    ensures !CanRestore(After(w, steps, j), id, key) && !RecoverPasses(After(w, steps, j), id, key, grace)
  {
    HistoryGrows(w, steps, i, j);
    RunKeepsGood(w, steps, j);
    var sweep :| sweep in After(w, steps, i).sweeps && sweep.0 == id;
    assert sweep in After(w, steps, j).sweeps;
  }

  /** A point whose snapshots were deleted, at whatever time, is not restorable then or at any later time. */
  lemma {:induction false} DeletedNeverRestored(w: World, steps: seq<Step>, i: nat, j: nat, id: int, key: string, grace: nat)
    requires Start(w) && i <= j <= |steps| && id in After(w, steps, i).deleted
    ensures !CanRestore(After(w, steps, j), id, key) && !RecoverPasses(After(w, steps, j), id, key, grace)
  {
    RunKeepsGood(w, steps, i);
    CleanupIsFinal(w, steps, i, j, id, key, grace);
  }

  // ---- A failed point is out of reach as well ----

  /** Only complete points are referenced, and a failed one is due for cleanup. */
  predicate Classified(p: Point, now: int) {
    && (p.state != Ready ==> p.ref == "")
    && (p.state == State.Failed ==> Expired(p, now))
    && (p.cleaned ==> p.state == State.Failed)
  }

  lemma StepKeepsClassified(w: World, s: Step)
    requires Good(w) && forall id :: id in w.points ==> Classified(w.points[id], w.now)
    ensures forall id :: id in Do(w, s).points ==> Classified(Do(w, s).points[id], Do(w, s).now)
  {
  }

  /** In every run a point that is not complete is unreferenced, a failed one has expired, and a cleaned one has failed. */
  lemma {:induction false} FailedIsExpired(w: World, steps: seq<Step>, i: nat)
    requires Start(w) && i <= |steps|
    ensures forall id :: id in After(w, steps, i).points ==> Classified(After(w, steps, i).points[id], After(w, steps, i).now)
    decreases i
  {
    if i > 0 {
      FailedIsExpired(w, steps, i - 1);
      RunKeepsGood(w, steps, i - 1);
      StepKeepsClassified(After(w, steps, i - 1), steps[i - 1]);
    }
  }

  // ---- A referenced point is kept ----

  /** While its successor is live, maintenance of this point sees a live task and a live reference, before the source deadline. */
  predicate Protects(w: World, s: Step, id: int, key: string) {
    && (s.Maintain? && s.id == id && id in w.points ==> !Ends(w.points[id], w.now, s.facts) && s.facts.reference == Live)
    && (s.Recover? && s.id == id ==> s.self != key)
  }

  /** All steps from i up to j do so, and none of them recovers the successor itself. */
  predicate AllProtect(w: World, steps: seq<Step>, i: nat, j: nat, id: int, key: string)
    requires i <= j <= |steps|
  {
    i < j ==> AllProtect(w, steps, i, j - 1, id, key) && Protects(After(w, steps, j - 1), steps[j - 1], id, key)
  }

  predicate Referenced(w: World, id: int, key: string) {
    id in w.points && w.points[id].ref == key && w.points[id].state == Ready && !w.points[id].cleaned
  }

  lemma NotGranted(w: World, id: int, key: string)
    requires Good(w) && Referenced(w, id, key) && key != ""
    ensures !Granted(w, id)
  {
  }

  lemma StepKeepsReference(w: World, s: Step, id: int, key: string)
    requires Good(w) && Referenced(w, id, key) && key != "" && Protects(w, s, id, key)
    ensures Referenced(Do(w, s), id, key) && Do(w, s).points[id].expiresAt == w.points[id].expiresAt
  {
    NotGranted(w, id, key);
  }

  lemma {:induction false} ReferenceStays(w: World, steps: seq<Step>, i: nat, j: nat, id: int, key: string)
    requires Start(w) && i <= j <= |steps| && key != "" && Referenced(After(w, steps, i), id, key) && AllProtect(w, steps, i, j, id, key)
    ensures Referenced(After(w, steps, j), id, key)
    ensures After(w, steps, j).points[id].expiresAt == After(w, steps, i).points[id].expiresAt
    decreases j
  {
    if i < j {
      ReferenceStays(w, steps, i, j - 1, id, key);
      RunKeepsGood(w, steps, j - 1);
      StepKeepsReference(After(w, steps, j - 1), steps[j - 1], id, key);
    }
  }

  /**
    A point that a successor references stays ready, referenced and unswept, and its expiry is not
    brought forward, as long as that successor is live and has not itself been recovered.
   */
  lemma {:induction false} ReferenceKept(w: World, steps: seq<Step>, i: nat, j: nat, id: int, key: string)
    requires Start(w) && i <= j <= |steps| && key != "" && Referenced(After(w, steps, i), id, key) && AllProtect(w, steps, i, j, id, key)
    ensures Referenced(After(w, steps, j), id, key) && !Granted(After(w, steps, j), id) && id !in After(w, steps, j).deleted
    ensures After(w, steps, j).points[id].expiresAt == After(w, steps, i).points[id].expiresAt
  {
    ReferenceStays(w, steps, i, j, id, key);
    RunKeepsGood(w, steps, j);
    NotGranted(After(w, steps, j), id, key);
  }

  /** The call that should give a reference up when no recovery follows leaves every point as it was. */
  lemma ReleaseKeepsReference(w: World, id: int, self: string)
    ensures Do(w, ReleaseReference(id, self)) == w
  {
    if id in w.points {
      assert w.points[id := w.points[id]] == w.points;
    }
  }

  // ---- A restore that is under way ----

  /** Every restore under way passed its check in an earlier state. */
  lemma {:induction false} RestoreWasChecked(w: World, steps: seq<Step>, j: nat, id: int, key: string) returns (i: nat)
    requires Start(w) && j <= |steps| && (id, key) in After(w, steps, j).restoring
    ensures i < j && CanRestore(After(w, steps, i), id, key) && steps[i] == BeginRestore(id, key)
    decreases j
  {
    if (id, key) in After(w, steps, j - 1).restoring {
      i := RestoreWasChecked(w, steps, j - 1, id, key);
    } else {
      i := j - 1;
    }
  }

  /**
    A restore can find its point granted for cleanup only if, since its check, maintenance saw its
    execution ended or missing, the workflow ended or the deadline passed, or the execution was
    itself recovered. Until then the point it checked is kept.
   */
  lemma {:induction false} RestoreOutlivesPoint(w: World, steps: seq<Step>, i: nat, j: nat, id: int, key: string) returns (k: nat)
    requires Start(w) && i <= j <= |steps| && key != "" && CanRestore(After(w, steps, i), id, key)
    requires Granted(After(w, steps, j), id) || id in After(w, steps, j).deleted
    ensures i <= k < j && !Protects(After(w, steps, k), steps[k], id, key)
  {
    k := i;
    while k < j && Protects(After(w, steps, k), steps[k], id, key)
      invariant i <= k <= j && AllProtect(w, steps, i, k, id, key)
    {
      k := k + 1;
    }
    ReferenceKept(w, steps, i, k, id, key);
  }

  /** The step grants a cleanup of the point: maintenance finds it unleased and, reconciled, expired and unreferenced. */
  predicate Grants(w: World, s: Step, id: int) {
    && s.Maintain? && s.id == id && id in w.points && !w.points[id].cleaned && !Leased(w.points[id], w.now)
    && var q := Reconciled(w.points[id], w.now, s.facts);
    q.ref == "" && Expired(q, w.now)
  }

  lemma GrantedStep(w: World, s: Step, id: int)
    ensures Granted(Do(w, s), id) <==> Granted(w, id) || Grants(w, s, id)
  {
    var w' := Do(w, s);
    if Grants(w, s, id) {
      assert (id, w.issued) in w'.sweeps && (id, w.issued).0 == id;
    } else if Granted(w, id) {
      var sweep :| sweep in w.sweeps && sweep.0 == id;
      assert sweep in w'.sweeps;
    }
  }

  lemma {:induction false} GrantedBetween(w: World, steps: seq<Step>, i: nat, j: nat, id: int)
    requires i <= j <= |steps| && !Granted(After(w, steps, i), id)
    ensures Granted(After(w, steps, j), id) <==> exists k :: i <= k < j && Grants(After(w, steps, k), steps[k], id)
    decreases j
  {
    if i < j {
      var last := After(w, steps, j - 1);
      GrantedBetween(w, steps, i, j - 1, id);
      GrantedStep(last, steps[j - 1], id);
      if Grants(last, steps[j - 1], id) {
        assert Granted(After(w, steps, j), id);
      } else {
        assert Granted(After(w, steps, j), id) <==> Granted(last, id);
      }
    }
  }

  /**
    The point a restore checked is granted for cleanup exactly when, since the check, some
    maintenance found it unleased, expired and, after reconciling, unreferenced.
   */
  lemma {:induction false} RestoreSweptIff(w: World, steps: seq<Step>, i: nat, j: nat, id: int, key: string)
    requires Start(w) && i <= j <= |steps| && key != "" && CanRestore(After(w, steps, i), id, key)
    ensures Granted(After(w, steps, j), id) <==> exists k :: i <= k < j && Grants(After(w, steps, k), steps[k], id)
  {
    RunKeepsGood(w, steps, i);
    NotGranted(After(w, steps, i), id, key);
    GrantedBetween(w, steps, i, j, id);
  }

  const COMPLETE := Point(Ready, false, 0, 100, 100 + RETENTION, None, None, "b")
  const CHECKED := World(map[1 := COMPLETE], {1}, 0, 1, {}, {}, {(1, "b")})
  const ENDED := Facts(false, true, Live, false)

  /** A point completes, its successor b is created and passes its restore check. */
  lemma RestoreChecked(w: World)
    requires w == World(map[], {}, 0, 0, {}, {}, {})
    ensures Start(w) && Do(Do(Do(Do(Do(w, Put(1, 100)), Get(1, false)), Advance(1, 0, false, true)), Recover(1, "a", "b", 10)), BeginRestore(1, "b")) == CHECKED
  {
    var pending := Point(State.Pending, false, 0, 100, 100 + RETENTION, None, None, "");
    assert Uncleaned(w) == {};
    var w1 := Do(w, Put(1, 100));
    assert w1 == w.(points := map[1 := pending], used := {1});
    var w2 := Do(w1, Get(1, false));
    assert w2 == w1.(points := map[1 := pending.(token := Some(0), leaseUntil := Some(OPERATION_LEASE))], issued := 1);
    var w3 := Do(w2, Advance(1, 0, false, true));
    assert w3 == w2.(points := map[1 := COMPLETE.(ref := "")]);
    assert "b" != "";
    var w4 := Do(w3, Recover(1, "a", "b", 10));
    assert w4 == w3.(points := map[1 := COMPLETE]);
  }

  /** When its workflow ends then, the point is swept while the restore is still about to create its sandbox. */
  lemma LateRestore()
    ensures var w := Do(Do(CHECKED, Maintain(1, ENDED)), DeleteSnapshots(1, 1)); 1 in w.deleted && (1, "b") in w.restoring
  {
    assert (1, 1) in Do(CHECKED, Maintain(1, ENDED)).sweeps;
  }

  // ---- Leases ----

  ghost predicate Fenced(w: World) {
    && (forall id :: id in w.points && w.points[id].token.Some? ==> w.points[id].token.value < w.issued)
    && (forall sweep :: sweep in w.sweeps ==> sweep.1 < w.issued)
  }

  lemma StepKeepsFenced(w: World, s: Step)
    requires Fenced(w)
    ensures Fenced(Do(w, s))
  {
  }

  lemma {:induction false} RunKeepsFenced(w: World, steps: seq<Step>, i: nat)
    requires Start(w) && i <= |steps|
    ensures Fenced(After(w, steps, i))
    decreases i
  {
    if i > 0 {
      RunKeepsFenced(w, steps, i - 1);
      StepKeepsFenced(After(w, steps, i - 1), steps[i - 1]);
    }
  }

  /** The token was issued and the point no longer carries it. */
  predicate Lost(w: World, id: int, token: nat) {
    token < w.issued && id in w.used && (id in w.points ==> w.points[id].token != Some(token))
  }

  lemma LostStays(w: World, s: Step, id: int, token: nat)
    requires Lost(w, id, token)
    ensures Lost(Do(w, s), id, token)
  {
  }

  /** A lease that was replaced or given up never passes again: neither a runner's write nor a sweep's second transaction. */
  lemma {:induction false} LostLeaseNeverPasses(w: World, steps: seq<Step>, i: nat, j: nat, id: int, token: nat)
    requires i <= j <= |steps| && Lost(After(w, steps, i), id, token)
    ensures Lost(After(w, steps, j), id, token)
    ensures !RunnerMay(After(w, steps, j), id, token) && !FinishPasses(After(w, steps, j), id, token)
    decreases j
  {
    if i < j {
      LostLeaseNeverPasses(w, steps, i, j - 1, id, token);
      LostStays(After(w, steps, j - 1), steps[j - 1], id, token);
    }
  }

  /**
    A token that a point once carried and has lost, whether to a newer lease, by giving it up or
    with the point itself, passes in no later state of the run.
   */
  lemma {:induction false} ReplacedLeaseNeverPasses(w: World, steps: seq<Step>, i: nat, j: nat, k: nat, id: int, token: nat)
    requires Start(w) && i <= j <= k <= |steps|
    requires id in After(w, steps, i).points && After(w, steps, i).points[id].token == Some(token)
    requires id in After(w, steps, j).points ==> After(w, steps, j).points[id].token != Some(token)
    ensures !RunnerMay(After(w, steps, k), id, token) && !FinishPasses(After(w, steps, k), id, token)
  {
    RunKeepsFenced(w, steps, i);
    RunKeepsGood(w, steps, i);
    HistoryGrows(w, steps, i, j);
    LostLeaseNeverPasses(w, steps, j, k, id, token);
  }

  // ---- How many points an execution keeps ----

  function PendingIds(w: World): set<int> {
    set id | id in w.points && w.points[id].state == State.Pending
  }

  ghost predicate Sparse(w: World) {
    && |Uncleaned(w)| <= MAX_POINTS
    && (forall a, b :: a in PendingIds(w) && b in PendingIds(w) ==> a == b)
    && (forall id :: id in PendingIds(w) ==> !w.points[id].cleaned)
  }

  lemma PutKeepsSparse(w: World, s: Step)
    requires Sparse(w) && w.points.Keys <= w.used && s.Put?
    ensures Sparse(Do(w, s))
  {
    forall id | id in PendingIds(w) ensures id in Uncleaned(w) {
    }
    if Do(w, s) != w {
      assert Uncleaned(Do(w, s)) == Uncleaned(w) + {s.id};
      forall id | id in PendingIds(Do(w, s)) ensures id == s.id {
        assert id != s.id ==> id in PendingIds(w);
      }
    }
  }

  lemma NothingBecomesPending(w: World, s: Step)
    requires !s.Put? && forall id :: id in PendingIds(w) ==> !w.points[id].cleaned
    ensures PendingIds(Do(w, s)) <= PendingIds(w) && Uncleaned(Do(w, s)) <= Uncleaned(w)
    ensures forall id :: id in PendingIds(Do(w, s)) ==> !Do(w, s).points[id].cleaned
  {
  }

  lemma StepKeepsSparse(w: World, s: Step)
    requires Sparse(w) && w.points.Keys <= w.used
    ensures Sparse(Do(w, s))
  {
    if s.Put? {
      PutKeepsSparse(w, s);
    } else {
      NothingBecomesPending(w, s);
      Bounded(Uncleaned(Do(w, s)), Uncleaned(w));
    }
  }

  /** In every run an execution has at most one pending point and at most four that still need cleanup. */
  lemma {:induction false} FewPoints(w: World, steps: seq<Step>, i: nat)
    requires Start(w) && i <= |steps|
    ensures Sparse(After(w, steps, i))
    decreases i
  {
    if i == 0 {
      assert Uncleaned(w) == {};
    } else {
      FewPoints(w, steps, i - 1);
      RunKeepsGood(w, steps, i - 1);
      StepKeepsSparse(After(w, steps, i - 1), steps[i - 1]);
    }
  }

  /** Complete points a recovery could still choose that no successor references. */
  function Spare(w: World): set<int> {
    set id | id in w.points && w.points[id].state == Ready && !w.points[id].cleaned && w.points[id].ref == "" && !Expired(w.points[id], w.now)
  }

  /** A newly completed point leaves at most one earlier unreferenced point; all others have expired. */
  lemma RetentionKeepsTwo(w: World, id: int)
    requires id in w.points && w.points[id].state == State.Pending
    ensures |Spare(MarkReady(w, id))| <= 2
    ensures forall a, b :: a in Spare(MarkReady(w, id)) && b in w.points && Rival(w, id, a) && Rival(w, id, b) && a != b ==> Newer(w, a, b)
  {
    var rest := Spare(MarkReady(w, id)) - {id};
    forall a, b | a in rest && b in w.points && Rival(w, id, b) && a != b ensures Newer(w, a, b) {
      assert Rival(w, id, a) && !Superseded(w, id, a);
    }
    if rest != {} {
      var one :| one in rest;
      Bounded(rest, {one});
    }
    Bounded(Spare(MarkReady(w, id)), rest + {id});
  }

  // ---- The maintenance call ----

  datatype Phase = Unfinished | Succeeded | Broken

  /** A snapshot in the cluster: whether its annotations name the point and member, and whether a deletion takes effect. */
  datatype Snapshot = Snapshot(owned: bool, phase: Phase, removable: bool)
  datatype Member = Member(name: string, createRequested: bool, snapshotId: string)

  /** A request that timed out may still create its snapshot, until the absolute bound of the source. */
  predicate MayAppear(m: Member, now: int, sourceDeadline: int) {
    m.createRequested && m.snapshotId == "" && now < sourceDeadline + RETENTION
  }

  class Cluster {
    var snapshots: map<string, Snapshot>

    /** Deletes the finished snapshots of a point; `times[k]` is the database time when member k is looked at. */
    method Sweep(members: seq<Member>, times: seq<int>, sourceDeadline: int) returns (allGone: Option<bool>)
      requires |times| == |members|
      modifies this
      ensures forall name :: name in snapshots ==> name in old(snapshots) && snapshots[name] == old(snapshots)[name]
      ensures forall name :: name in old(snapshots) && name !in snapshots ==>
        && old(snapshots)[name].owned && old(snapshots)[name].phase != Unfinished
        && exists k :: 0 <= k < |members| && members[k].name == name
      ensures allGone == Some(true) ==> forall k :: 0 <= k < |members| ==> members[k].name !in snapshots
      ensures allGone == Some(true) ==> forall k :: 0 <= k < |members| && members[k].name !in old(snapshots) ==> !MayAppear(members[k], times[k], sourceDeadline)
      ensures allGone == Some(false) ==> exists k :: 0 <= k < |members| && (members[k].name in snapshots || MayAppear(members[k], times[k], sourceDeadline))
      ensures allGone.None? ==> exists k :: 0 <= k < |members| && members[k].name in snapshots && !snapshots[members[k].name].owned
    {
      var gone := true;
      ghost var left := 0;
      for k := 0 to |members|
        invariant forall name :: name in snapshots ==> name in old(snapshots) && snapshots[name] == old(snapshots)[name]
        invariant forall name :: name in old(snapshots) && name !in snapshots ==>
          && old(snapshots)[name].owned && old(snapshots)[name].phase != Unfinished
          && exists j :: 0 <= j < k && members[j].name == name
        invariant gone ==> forall j :: 0 <= j < k ==> members[j].name !in snapshots
        invariant gone ==> forall j :: 0 <= j < k && members[j].name !in old(snapshots) ==> !MayAppear(members[j], times[j], sourceDeadline)
        invariant !gone ==> 0 <= left < k
        invariant !gone ==>
          || MayAppear(members[left], times[left], sourceDeadline)
          || (members[left].name in snapshots && (snapshots[members[left].name].phase == Unfinished || !snapshots[members[left].name].removable))
      {
        var m := members[k];
        if m.name !in snapshots {
          if MayAppear(m, times[k], sourceDeadline) {
            gone, left := false, k;
          }
        } else {
          var found := snapshots[m.name];
          if !found.owned {
            return None;
          }
          if found.phase == Unfinished {
            gone, left := false, k;
          } else if found.removable {
            snapshots := snapshots - {m.name};
          } else {
            gone, left := false, k;
          }
        }
      }
      return Some(gone);
    }
  }

  class CheckpointTable {
    var world: World

    /** The first transaction of a sweep: reconciles the point and decides whether to clean it up. */
    method BeginMaintenance(id: int, facts: Facts) returns (cleanup: Option<nat>)
      requires id in world.points && Good(world)
      modifies this
      ensures world == Do(old(world), Maintain(id, facts)) && Good(world)
      ensures cleanup.Some? ==> (id, cleanup.value) in world.sweeps && Granted(world, id) && FinishPasses(world, id, cleanup.value)
      ensures cleanup.None? ==> world.sweeps == old(world).sweeps
    {
      StepKeepsGood(world, Maintain(id, facts));
      cleanup := None;
      var row := world.points[id];
      if row.cleaned {
        if world.now >= row.sourceDeadline + RETENTION {
          world := world.(points := world.points - {id});
        }
        return;
      }
      if row.leaseUntil.Some? && world.now < row.leaseUntil.value {
        return;
      }
      if facts.orphaned || facts.taskTerminal || world.now >= row.sourceDeadline {
        row := row.(ref := "", expiresAt := world.now);
      } else if row.ref != "" {
        if facts.reference == Ended || facts.reference == Missing {
          row := row.(ref := "");
        }
      }
      if row.state == State.Pending {
        var stopped := facts.stopped || facts.orphaned || facts.taskTerminal || world.now >= row.sourceDeadline;
        if stopped || world.now - row.createTime >= TIMEOUT {
          row := row.(state := State.Failed, expiresAt := world.now);
        }
      }
      if row.ref == "" && world.now >= row.expiresAt {
        cleanup := Some(world.issued);
        row := row.(token := cleanup, leaseUntil := Some(world.now + OPERATION_LEASE));
        world := world.(issued := world.issued + 1, sweeps := world.sweeps + {(id, world.issued)});
        assert (id, cleanup.value).0 == id;
      }
      world := world.(points := world.points[id := row]);
    }
  }
}
