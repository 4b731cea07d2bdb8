/**
  The workflow step machine across crashes and takeovers.

  A controller resumes at the persisted step, runs the priority buckets of each step in
  order, and persists its position under the lease before going on. Controllers of earlier
  owners may keep running after they lost the workflow; the lease fences what they write.
 */
module StepMachine {
  import opened Common
  import opened WorkflowLease

  /** An approval gate, or a step with one job count per priority bucket, most urgent first. */
  datatype PlanStep = Approval | Work(buckets: seq<nat>)

  type Plan = seq<PlanStep>

  datatype Job = Job(step: nat, bucket: nat, index: nat)

  /** One controller: its credentials, its position, the jobs it holds as successful, and whether its position is unsaved. */
  datatype Controller = Controller(owner: Owner, at: nat, bucket: nat, ok: set<Job>, dirty: bool, live: bool)

  /** The row, the controllers, and the history of starts, successes and approvals. */
  datatype World = World(row: Task, runs: map<nat, Controller>, started: set<Job>, succeeded: set<Job>, approved: set<nat>)

  datatype Step =
    | Other(op: Op)
    | Begin(id: nat, o: Owner, now: int, duration: int, restored: set<Job>)
    | Reload(id: nat, restored: set<Job>)
    | Crash(id: nat)
    | Persist(id: nat)
    | PersistUncertain(id: nat, written: bool)
    | StartJob(id: nat, job: Job)
    | JobSucceeds(id: nat, job: Job)
    | NextBucket(id: nat)
    | FinishStep(id: nat)
    | Pause(id: nat, name: string, deadline: Option<int>)
    | Fail(id: nat, status: Status)
    | Complete(id: nat)

  predicate InPlan(plan: Plan, j: Job) {
    j.step < |plan| && plan[j.step].Work? && j.bucket < |plan[j.step].buckets| && j.index < plan[j.step].buckets[j.bucket]
  }

  /** Job `j` belongs to an earlier step, or to an earlier bucket of step `at`. */
  predicate Before(j: Job, at: nat, bucket: nat) {
    j.step < at || (j.step == at && j.bucket < bucket)
  }

  /** Everything before this position is over: jobs successful, gates approved. */
  ghost predicate Done(plan: Plan, w: World, at: nat, bucket: nat) {
    && (forall j: Job :: InPlan(plan, j) && Before(j, at, bucket) ==> j in w.succeeded)
    && (forall s: nat :: s < at && s < |plan| && plan[s].Approval? ==> s in w.approved)
  }

  predicate Live(w: World, id: nat) {
    id in w.runs && w.runs[id].live
  }

  function Put(w: World, id: nat, c: Controller): World {
    w.(runs := w.runs[id := c])
  }

  function Stop(w: World, id: nat): World
    requires id in w.runs
  {
    Put(w, id, w.runs[id].(live := false))
  }

  /** The fenced write of a controller: it last persisted Running. */
  function Save(c: Controller, status: Status): Op {
    OwnedUpdate(c.owner, Running, status, c.at, false, "")
  }

  /** After a missed write the controller goes on only if the row is still its own and already says the same. */
  predicate AlreadySaved(row: Task, c: Controller) {
    OwnedBy(row, c.owner) && row.status == Running && row.step == c.at && !row.approvalPending && row.pendingStep == ""
  }

  function Fresh(o: Owner, row: Task, restored: set<Job>): Controller {
    Controller(o, if row.step < 0 then 0 else row.step, 0, restored, false, true)
  }

  function Do(plan: Plan, w: World, s: Step): World {
    match s
    case Other(op) =>
      if !WellFormed(op) || op.OwnedUpdate? || op.PauseForApproval? || op.ExecutionClaim? then w
      else w.(row := Next(op, w.row),
              approved := w.approved + if op.Approve? && Commits(op, w.row) && w.row.step >= 0 then {w.row.step} else {})
    case Begin(id, o, now, duration, restored) =>
      var op := ExecutionClaim(o, now, duration);
      if id in w.runs || !Commits(op, w.row) || !(restored <= w.succeeded) then w
      else Put(w.(row := Next(op, w.row)), id, Fresh(o, w.row, restored))
    case Reload(id, restored) =>
      if id in w.runs && OwnedBy(w.row, w.runs[id].owner) && w.row.status == Running && restored <= w.succeeded
      then Put(w, id, Fresh(w.runs[id].owner, w.row, restored)) else w
    case Crash(id) => if id in w.runs then Stop(w, id) else w
    case Persist(id) =>
      if !Live(w, id) then w
      else
        var c := w.runs[id];
        if Commits(Save(c, Running), w.row) then Put(w.(row := Next(Save(c, Running), w.row)), id, c.(dirty := false))
        else if AlreadySaved(w.row, c) then Put(w, id, c.(dirty := false))
        else Stop(w, id)
    case PersistUncertain(id, written) =>
      if !Live(w, id) then w
      else Stop(if written then w.(row := Next(Save(w.runs[id], Running), w.row)) else w, id)
    case StartJob(id, j) =>
      if Live(w, id) && !w.runs[id].dirty && InPlan(plan, j) && j.step == w.runs[id].at && j.bucket == w.runs[id].bucket
      then w.(started := w.started + {j}) else w
    case JobSucceeds(id, j) =>
      if Live(w, id) && j in w.started
      then Put(w.(succeeded := w.succeeded + {j}), id, w.runs[id].(ok := w.runs[id].ok + {j})) else w
    case NextBucket(id) =>
      if !Live(w, id) || w.runs[id].dirty then w
      else
        var c := w.runs[id];
        if c.at < |plan| && plan[c.at].Work? && c.bucket < |plan[c.at].buckets|
           && forall i: nat :: i < plan[c.at].buckets[c.bucket] ==> Job(c.at, c.bucket, i) in c.ok
        then Put(w, id, c.(bucket := c.bucket + 1)) else w
    case FinishStep(id) =>
      if !Live(w, id) || w.runs[id].dirty then w
      else
        var c := w.runs[id];
        if c.at < |plan| && plan[c.at].Work? && c.bucket == |plan[c.at].buckets|
        then Put(w, id, c.(at := c.at + 1, bucket := 0, dirty := true)) else w
    case Pause(id, name, deadline) =>
      if !Live(w, id) || w.runs[id].dirty then w
      else
        var c := w.runs[id];
        if c.at < |plan| && plan[c.at].Approval?
        then Stop(w.(row := Next(PauseForApproval(c.owner, c.at, name, deadline), w.row)), id) else w
    case Fail(id, status) =>
      if Live(w, id) && !w.runs[id].dirty && status in {Failed, Cancelled}
      then Stop(w.(row := Next(Save(w.runs[id], status), w.row)), id) else w
    case Complete(id) =>
      if Live(w, id) && !w.runs[id].dirty && w.runs[id].at >= |plan|
      then Stop(w.(row := Next(Save(w.runs[id], Completed), w.row)), id) else w
  }

  function After(plan: Plan, w: World, steps: seq<Step>, i: nat): World
    requires i <= |steps|
  {
    if i == 0 then w else Do(plan, After(plan, w, steps, i - 1), steps[i - 1])
  }

  predicate Start(w: World) {
    && Initial(w.row) && w.row.step == 0 && !w.row.approvalPending
    && w.runs == map[] && w.started == {} && w.succeeded == {} && w.approved == {}
  }

  /** The position of a controller that may still write: level with the row, or one finished step ahead and unsaved. */
  predicate Level(plan: Plan, row: Task, c: Controller) {
    OwnedBy(row, c.owner) && row.status == Running ==>
      || row.step == c.at
      || (c.dirty && row.step + 1 == c.at && 0 <= row.step < |plan| && plan[row.step].Work?)
  }

  ghost predicate Good(plan: Plan, w: World) {
    && 0 <= w.row.step && Done(plan, w, w.row.step, 0)
    && (w.row.approvalPending ==> w.row.status == WaitingApprove && w.row.step < |plan| && plan[w.row.step].Approval?)
    && (w.row.status == Completed ==> Done(plan, w, |plan|, 0))
    && (forall id :: id in w.runs ==>
          && w.runs[id].ok <= w.succeeded
          && PastQueue(w.row, w.runs[id].owner.generation)
          && Done(plan, w, w.runs[id].at, w.runs[id].bucket)
          && (w.runs[id].live ==> Level(plan, w.row, w.runs[id])))
    && (forall a, b :: a in w.runs && b in w.runs && a != b ==> w.runs[a].owner.generation != w.runs[b].owner.generation)
  }

  /** History only grows, so what is done stays done. */
  lemma DoneStays(plan: Plan, w: World, w': World, at: nat, bucket: nat)
    requires Done(plan, w, at, bucket) && w.succeeded <= w'.succeeded && w.approved <= w'.approved
    ensures Done(plan, w', at, bucket)
  {
  }

  /** What a write of another actor can do to the row. */
  lemma OtherEffect(op: Op, row: Task)
    requires WellFormed(op) && !op.OwnedUpdate? && !op.PauseForApproval? && !op.ExecutionClaim?
    ensures var row' := Next(op, row);
      && (row'.step == row.step || (op.Approve? && Commits(op, row) && row.approvalPending && row'.step == (if row.step < 0 then 0 else row.step) + 1 && row'.status == Waiting))
      && (row'.status == Running ==> row.status == Running && OwnedBy(row', Owner(row.generation, row.token, row.worker)))
      && (row'.status == Completed ==> row.status == Completed)
      && (row'.approvalPending ==> row.approvalPending)
      && (row'.approvalPending && row.status == WaitingApprove ==> row'.status == WaitingApprove)
  {
  }

  lemma OtherKeepsGood(plan: Plan, w: World, op: Op)
    requires Good(plan, w) && WellFormed(op) && !op.OwnedUpdate? && !op.PauseForApproval? && !op.ExecutionClaim?
    ensures Good(plan, Do(plan, w, Other(op)))
  {
    var w' := Do(plan, w, Other(op));
    OtherEffect(op, w.row);
    DoneStays(plan, w, w', w.row.step, 0);
    if w.row.status == Completed {
      DoneStays(plan, w, w', |plan|, 0);
    }
    if w'.row.step != w.row.step {
      assert w.row.step in w'.approved;
      assert forall j: Job :: InPlan(plan, j) && Before(j, w'.row.step, 0) ==> Before(j, w.row.step, 0);
    }
    forall id | id in w'.runs
      ensures PastQueue(w'.row, w'.runs[id].owner.generation)
      ensures Done(plan, w', w'.runs[id].at, w'.runs[id].bucket)
    {
      PastQueueStays(op, w.row, w.runs[id].owner.generation);
      DoneStays(plan, w, w', w.runs[id].at, w.runs[id].bucket);
    }
  }

  lemma BeginKeepsGood(plan: Plan, w: World, id: nat, o: Owner, now: int, duration: int, restored: set<Job>)
    requires Good(plan, w)
    ensures Good(plan, Do(plan, w, Begin(id, o, now, duration, restored)))
  {
    var op, w' := ExecutionClaim(o, now, duration), Do(plan, w, Begin(id, o, now, duration, restored));
    if id !in w.runs && Commits(op, w.row) && restored <= w.succeeded {
      DoneStays(plan, w, w', w.row.step, 0);
      forall other | other in w.runs
        ensures PastQueue(w'.row, w.runs[other].owner.generation) && Level(plan, w'.row, w.runs[other])
        ensures Done(plan, w', w.runs[other].at, w.runs[other].bucket)
      {
        DoneStays(plan, w, w', w.runs[other].at, w.runs[other].bucket);
      }
    }
  }

  /** A fenced write of controller `id`, after which it stops or goes on with its position saved. */
  lemma FencedKeepsGood(plan: Plan, w: World, id: nat, op: Op, c': Controller)
    requires Good(plan, w) && Live(w, id)
    requires var c := w.runs[id];
      || (op.OwnedUpdate? && op.status in {Running, Failed, Cancelled, Completed} && op == Save(c, op.status)
          && (op.status == Completed ==> |plan| <= c.at))
      || (op.PauseForApproval? && op.owner == c.owner && op.atStep == c.at && c.at < |plan| && plan[c.at].Approval?)
    requires var c := w.runs[id];
      c' == c.(live := false) || (c' == c.(dirty := false) && op == Save(c, Running) && Commits(op, w.row))
    ensures Good(plan, Put(w.(row := Next(op, w.row)), id, c'))
  {
    var c, w' := w.runs[id], Put(w.(row := Next(op, w.row)), id, c');
    DoneStays(plan, w, w', w.row.step, 0);
    DoneStays(plan, w, w', c.at, c.bucket);
    if w.row.status == Completed {
      DoneStays(plan, w, w', |plan|, 0);
    }
    forall other | other in w'.runs
      ensures PastQueue(w'.row, w'.runs[other].owner.generation)
      ensures Done(plan, w', w'.runs[other].at, w'.runs[other].bucket)
    {
      assert PastQueue(w.row, w.runs[other].owner.generation);
      DoneStays(plan, w, w', w.runs[other].at, w.runs[other].bucket);
    }
  }

  /** A controller moves on its own: the row stays, history may grow. */
  lemma ReplaceKeepsGood(plan: Plan, w: World, w': World, id: nat)
    requires Good(plan, w) && w'.row == w.row && w.succeeded <= w'.succeeded && w'.approved == w.approved
    requires id in w.runs && id in w'.runs && w'.runs == w.runs[id := w'.runs[id]] && w'.runs[id].owner == w.runs[id].owner
    requires w'.runs[id].ok <= w'.succeeded && Done(plan, w', w'.runs[id].at, w'.runs[id].bucket)
    requires w'.runs[id].live ==> Level(plan, w'.row, w'.runs[id])
    ensures Good(plan, w')
  {
    DoneStays(plan, w, w', w.row.step, 0);
    if w.row.status == Completed {
      DoneStays(plan, w, w', |plan|, 0);
    }
    forall other | other in w.runs && other != id
      ensures Done(plan, w', w.runs[other].at, w.runs[other].bucket)
    {
      DoneStays(plan, w, w', w.runs[other].at, w.runs[other].bucket);
    }
  }

  lemma NextBucketKeepsGood(plan: Plan, w: World, id: nat)
    requires Good(plan, w)
    ensures Good(plan, Do(plan, w, NextBucket(id)))
  {
    var w' := Do(plan, w, NextBucket(id));
    if w' != w {
      var c := w.runs[id];
      forall j: Job | InPlan(plan, j) && Before(j, c.at, c.bucket + 1)
        ensures j in w'.succeeded
      {
        if !Before(j, c.at, c.bucket) {
          assert Job(c.at, c.bucket, j.index) in c.ok;
        }
      }
      ReplaceKeepsGood(plan, w, w', id);
    }
  }

  lemma FinishStepKeepsGood(plan: Plan, w: World, id: nat)
    requires Good(plan, w)
    ensures Good(plan, Do(plan, w, FinishStep(id)))
  {
    var w' := Do(plan, w, FinishStep(id));
    if w' != w {
      var c := w.runs[id];
      assert forall j: Job :: InPlan(plan, j) && Before(j, c.at + 1, 0) ==> Before(j, c.at, c.bucket);
      ReplaceKeepsGood(plan, w, w', id);
    }
  }

  lemma JobSucceedsKeepsGood(plan: Plan, w: World, id: nat, j: Job)
    requires Good(plan, w)
    ensures Good(plan, Do(plan, w, JobSucceeds(id, j)))
  {
    var w' := Do(plan, w, JobSucceeds(id, j));
    if w' != w {
      DoneStays(plan, w, w', w.runs[id].at, w.runs[id].bucket);
      ReplaceKeepsGood(plan, w, w', id);
    }
  }

  lemma ReloadKeepsGood(plan: Plan, w: World, id: nat, restored: set<Job>)
    requires Good(plan, w)
    ensures Good(plan, Do(plan, w, Reload(id, restored)))
  {
    var w' := Do(plan, w, Reload(id, restored));
    if w' != w {
      DoneStays(plan, w, w', w.row.step, 0);
      ReplaceKeepsGood(plan, w, w', id);
    }
  }

  lemma StopKeepsGood(plan: Plan, w: World, id: nat)
    requires Good(plan, w) && id in w.runs
    ensures Good(plan, Stop(w, id))
  {
    DoneStays(plan, w, Stop(w, id), w.runs[id].at, w.runs[id].bucket);
    ReplaceKeepsGood(plan, w, Stop(w, id), id);
  }

  lemma StepKeepsGood(plan: Plan, w: World, s: Step)
    requires Good(plan, w)
    ensures Good(plan, Do(plan, w, s))
  {
    match s
    case Other(op) =>
      if WellFormed(op) && !op.OwnedUpdate? && !op.PauseForApproval? && !op.ExecutionClaim? {
        OtherKeepsGood(plan, w, op);
      }
    case Begin(id, o, now, duration, restored) => BeginKeepsGood(plan, w, id, o, now, duration, restored);
    case Persist(id) =>
      if Live(w, id) {
        var c := w.runs[id];
        if Commits(Save(c, Running), w.row) {
          FencedKeepsGood(plan, w, id, Save(c, Running), c.(dirty := false));
        } else if AlreadySaved(w.row, c) {
          var w' := Put(w, id, c.(dirty := false));
          DoneStays(plan, w, w', c.at, c.bucket);
          ReplaceKeepsGood(plan, w, w', id);
        } else {
          StopKeepsGood(plan, w, id);
        }
      }
    case PersistUncertain(id, written) =>
      if Live(w, id) {
        if written {
          FencedKeepsGood(plan, w, id, Save(w.runs[id], Running), w.runs[id].(live := false));
        } else {
          StopKeepsGood(plan, w, id);
        }
      }
    case Pause(id, name, deadline) =>
      if Live(w, id) && !w.runs[id].dirty && w.runs[id].at < |plan| && plan[w.runs[id].at].Approval? {
        FencedKeepsGood(plan, w, id, PauseForApproval(w.runs[id].owner, w.runs[id].at, name, deadline), w.runs[id].(live := false));
      }
    case Fail(id, status) =>
      if Live(w, id) && !w.runs[id].dirty && status in {Failed, Cancelled} {
        FencedKeepsGood(plan, w, id, Save(w.runs[id], status), w.runs[id].(live := false));
      }
    case Complete(id) =>
      if Live(w, id) && !w.runs[id].dirty && w.runs[id].at >= |plan| {
        FencedKeepsGood(plan, w, id, Save(w.runs[id], Completed), w.runs[id].(live := false));
      }
    case StartJob(id, j) =>
      var w' := Do(plan, w, s);
      forall other | other in w.runs
        ensures Done(plan, w', w.runs[other].at, w.runs[other].bucket)
      {
        DoneStays(plan, w, w', w.runs[other].at, w.runs[other].bucket);
      }
      DoneStays(plan, w, w', w.row.step, 0);
    case JobSucceeds(id, j) => JobSucceedsKeepsGood(plan, w, id, j);
    case NextBucket(id) => NextBucketKeepsGood(plan, w, id);
    case FinishStep(id) => FinishStepKeepsGood(plan, w, id);
    case Reload(id, restored) => ReloadKeepsGood(plan, w, id, restored);
    case Crash(id) =>
      if id in w.runs {
        StopKeepsGood(plan, w, id);
      }
  }

  lemma {:induction false} GoodStays(plan: Plan, w: World, steps: seq<Step>, i: nat)
    requires i <= |steps| && Good(plan, w)
    ensures Good(plan, After(plan, w, steps, i))
    decreases i
  {
    if i > 0 {
      GoodStays(plan, w, steps, i - 1);
      StepKeepsGood(plan, After(plan, w, steps, i - 1), steps[i - 1]);
    }
  }

  lemma RunKeepsGood(plan: Plan, w: World, steps: seq<Step>, i: nat)
    requires i <= |steps| && Start(w)
    ensures Good(plan, After(plan, w, steps, i))
  {
    StartIsGood(plan, w);
    GoodStays(plan, w, steps, i);
  }

  lemma StartIsGood(plan: Plan, w: World)
    requires Start(w)
    ensures Good(plan, w)
  {
  }

  // ---- The promises of the step machine ----

  /** A job starts only when every job of an earlier step or bucket has succeeded and every earlier gate is approved. */
  lemma {:induction false} StartsInOrder(plan: Plan, w: World, steps: seq<Step>, i: nat, j: Job)
    requires i < |steps| && Start(w)
    requires j !in After(plan, w, steps, i).started && j in After(plan, w, steps, i + 1).started
    ensures Done(plan, After(plan, w, steps, i), j.step, j.bucket)
  {
    RunKeepsGood(plan, w, steps, i);
  }

  /** Completed is stored only after every step of the plan. */
  lemma {:induction false} CompletedMeansAllDone(plan: Plan, w: World, steps: seq<Step>, i: nat)
    requires i <= |steps| && Start(w) && After(plan, w, steps, i).row.status == Completed
    ensures Done(plan, After(plan, w, steps, i), |plan|, 0)
  {
    RunKeepsGood(plan, w, steps, i);
  }

  /** One step moves the stored position forward by at most one; only an approval crosses a gate. */
  lemma StepMovesForward(plan: Plan, w: World, s: Step)
    requires Good(plan, w)
    ensures w.row.step <= Do(plan, w, s).row.step <= w.row.step + 1
    ensures Do(plan, w, s).row.step == w.row.step + 1 && w.row.step < |plan| && plan[w.row.step].Approval? ==> s.Other? && s.op.Approve?
    ensures Do(plan, w, s).row.step == w.row.step + 1 && !(s.Other? && s.op.Approve?) ==> w.row.step < |plan| && plan[w.row.step].Work?
  {
    match s
    case Other(op) =>
      if WellFormed(op) && !op.OwnedUpdate? && !op.PauseForApproval? && !op.ExecutionClaim? {
        OtherEffect(op, w.row);
      }
    case _ =>
  }

  lemma RunMovesForward(plan: Plan, w: World, steps: seq<Step>, i: nat)
    requires i < |steps| && Start(w)
    ensures var a, b := After(plan, w, steps, i).row.step, After(plan, w, steps, i + 1).row.step;
      && 0 <= a <= b <= a + 1
      && (b == a + 1 && a < |plan| && plan[a].Approval? ==> steps[i].Other? && steps[i].op.Approve?)
  {
    RunKeepsGood(plan, w, steps, i);
    StepMovesForward(plan, After(plan, w, steps, i), steps[i]);
  }

  ghost function Positions(plan: Plan, w: World, steps: seq<Step>): (f: seq<int>)
    ensures |f| == |steps| + 1
    ensures forall i :: 0 <= i <= |steps| ==> f[i] == After(plan, w, steps, i).row.step
  {
    seq(|steps| + 1, i requires 0 <= i <= |steps| => After(plan, w, steps, i).row.step)
  }

  /** A sequence that grows by at most one at a time. */
  predicate Gradual(f: seq<int>) {
    forall i :: 0 <= i < |f| - 1 ==> f[i] <= f[i + 1] <= f[i] + 1
  }

  lemma {:induction false} GradualGrows(f: seq<int>, i: nat, k: nat)
    requires Gradual(f) && i <= k < |f|
    ensures f[i] <= f[k]
    decreases k
  {
    if i < k {
      GradualGrows(f, i, k - 1);
    }
  }

  lemma {:induction false} GradualCrosses(f: seq<int>, i: nat, k: nat, level: int) returns (m: nat)
    requires Gradual(f) && i <= k < |f| && f[i] <= level < f[k]
    ensures i <= m < k && f[m] == level && f[m + 1] == level + 1
    decreases k
  {
    if f[k - 1] <= level {
      m := k - 1;
    } else {
      m := GradualCrosses(f, i, k - 1, level);
    }
  }

  lemma PositionsGradual(plan: Plan, w: World, steps: seq<Step>)
    requires Start(w)
    ensures Gradual(Positions(plan, w, steps))
  {
    forall i | 0 <= i < |steps|
      ensures Positions(plan, w, steps)[i] <= Positions(plan, w, steps)[i + 1] <= Positions(plan, w, steps)[i] + 1
    {
      RunMovesForward(plan, w, steps, i);
    }
  }

  /** The stored position never decreases, whatever crashes, takeovers and late writes happen. */
  lemma {:induction false} PositionNeverDecreases(plan: Plan, w: World, steps: seq<Step>, i: nat, k: nat)
    requires i <= k <= |steps| && Start(w)
    ensures After(plan, w, steps, i).row.step <= After(plan, w, steps, k).row.step
  {
    PositionsGradual(plan, w, steps);
    GradualGrows(Positions(plan, w, steps), i, k);
  }

  /** However often workers crash and take over, the stored position passes a gate only by an approval of that gate. */
  lemma {:induction false} GatePassedOnlyByApproval(plan: Plan, w: World, steps: seq<Step>, i: nat, k: nat, gate: nat) returns (m: nat)
    requires i <= k <= |steps| && Start(w) && gate < |plan| && plan[gate].Approval?
    requires After(plan, w, steps, i).row.step <= gate < After(plan, w, steps, k).row.step
    ensures i <= m < k && steps[m].Other? && steps[m].op.Approve? && After(plan, w, steps, m).row.step == gate
  {
    PositionsGradual(plan, w, steps);
    m := GradualCrosses(Positions(plan, w, steps), i, k, gate);
    RunMovesForward(plan, w, steps, m);
  }

  // ---- The controller loop ----

  lemma {:induction false} AfterPrefix(plan: Plan, w: World, steps: seq<Step>, s: Step, i: nat)
    requires i <= |steps|
    ensures After(plan, w, steps + [s], i) == After(plan, w, steps, i)
    decreases i
  {
    if i > 0 {
      AfterPrefix(plan, w, steps, s, i - 1);
      assert (steps + [s])[i - 1] == steps[i - 1];
    }
  }

  predicate Stands(w: World, id: nat, at: nat, bucket: nat) {
    Live(w, id) && !w.runs[id].dirty && w.runs[id].at == at && w.runs[id].bucket == bucket
  }

  lemma StartJobMoves(plan: Plan, w: World, id: nat, j: Job)
    requires Stands(w, id, j.step, j.bucket) && InPlan(plan, j)
    ensures var w' := Do(plan, w, StartJob(id, j)); w'.runs == w.runs && j in w'.started
  {
  }

  lemma JobSucceedsMoves(plan: Plan, w: World, id: nat, j: Job)
    requires Live(w, id) && j in w.started
    ensures var w' := Do(plan, w, JobSucceeds(id, j));
      id in w'.runs && w'.runs[id] == w.runs[id].(ok := w.runs[id].ok + {j})
  {
  }

  lemma OtherMoves(plan: Plan, w: World, op: Op)
    ensures Do(plan, w, Other(op)).runs == w.runs
  {
  }

  /** How a job that was started ends. */
  datatype Result = Success | Failure | Cancellation

  /** One controller executing a plan while other actors write the row. */
  class WorkflowRun {
    const plan: Plan
    const id: nat
    const start: World
    var world: World
    var trace: seq<Step>
    /** The write that ended the run. */
    var ending: Option<Step>

    predicate Valid()
      reads this
    {
      world == After(plan, start, trace, |trace|)
    }

    constructor (plan: Plan, id: nat, start: World)
      ensures this.plan == plan && this.id == id && this.start == start
      ensures Valid() && world == start && trace == []
    {
      this.plan, this.id, this.start := plan, id, start;
      world, trace, ending := start, [], None;
    }

    method Perform(s: Step)
      requires Valid()
      modifies this
      ensures Valid() && world == Do(plan, old(world), s) && trace == old(trace) + [s]
    {
      AfterPrefix(plan, start, trace, s, |trace|);
      world := Do(plan, world, s);
      trace := trace + [s];
    }

    /** Other actors write the row; the controller does not notice until its own next write. */
    method Interfere(ops: seq<Op>)
      requires Valid()
      modifies this
      ensures Valid() && old(trace) <= trace && world.runs == old(world).runs
    {
      for i := 0 to |ops|
        invariant Valid() && old(trace) <= trace && world.runs == old(world).runs
      {
        OtherMoves(plan, world, ops[i]);
        Perform(Other(ops[i]));
      }
    }

    /** Runs one job unless it already succeeded. */
    method RunJob(j: Job, result: Job -> Result) returns (ok: bool)
      requires Valid() && Stands(world, id, j.step, j.bucket) && InPlan(plan, j)
      modifies this
      ensures Valid() && old(trace) <= trace && Stands(world, id, j.step, j.bucket) && old(world.runs[id].ok) <= world.runs[id].ok
      ensures if ok then j in world.runs[id].ok else result(j) != Success
    {
      if j in world.runs[id].ok {
        return true;
      }
      StartJobMoves(plan, world, id, j);
      Perform(StartJob(id, j));
      ok := result(j) == Success;
      if ok {
        JobSucceedsMoves(plan, world, id, j);
        Perform(JobSucceeds(id, j));
      }
    }

    /** Runs the jobs of one bucket, in step-by-step mode only up to the first failure; reports the first job that did not succeed. */
    method RunBucket(at: nat, bucket: nat, stepByStep: bool, result: Job -> Result) returns (failed: Option<nat>)
      requires Valid() && Stands(world, id, at, bucket) && at < |plan| && plan[at].Work? && bucket < |plan[at].buckets|
      modifies this
      ensures Valid() && old(trace) <= trace && Stands(world, id, at, bucket)
      ensures var n := if failed.Some? then failed.value else plan[at].buckets[bucket];
        n <= plan[at].buckets[bucket] && forall i: nat :: i < n ==> Job(at, bucket, i) in world.runs[id].ok
      ensures failed.Some? ==> failed.value < plan[at].buckets[bucket] && result(Job(at, bucket, failed.value)) != Success
    {
      failed := None;
      for i := 0 to plan[at].buckets[bucket]
        invariant Valid() && old(trace) <= trace && Stands(world, id, at, bucket)
        invariant failed.Some? ==> failed.value < i && result(Job(at, bucket, failed.value)) != Success
        invariant forall k: nat :: k < (if failed.Some? then failed.value else i) ==> Job(at, bucket, k) in world.runs[id].ok
      {
        var ok := RunJob(Job(at, bucket, i), result);
        if !ok && failed.None? {
          failed := Some(i);
        }
        if !ok && stepByStep {
          return;
        }
      }
    }

    /** Runs the buckets of one step in priority order, stopping at the first that fails; reports the job to blame. */
    method RunBuckets(at: nat, stepByStep: bool, result: Job -> Result) returns (blamed: Option<Job>)
      requires Valid() && Stands(world, id, at, 0) && at < |plan| && plan[at].Work?
      modifies this
      ensures Valid() && old(trace) <= trace
      ensures blamed.None? ==> Stands(world, id, at, |plan[at].buckets|)
      ensures blamed.Some? ==> Live(world, id) && !world.runs[id].dirty && result(blamed.value) != Success
      ensures blamed.Some? ==>
        var j := blamed.value; j.step == at && Stands(world, id, at, j.bucket) && forall i: nat :: i < j.index ==> Job(at, j.bucket, i) in world.runs[id].ok
    {
      for bucket := 0 to |plan[at].buckets|
        invariant Valid() && old(trace) <= trace && Stands(world, id, at, bucket)
      {
        var failed := RunBucket(at, bucket, stepByStep, result);
        if failed.Some? {
          return Some(Job(at, bucket, failed.value));
        }
        Perform(NextBucket(id));
      }
      return None;
    }

    /** Moves past a finished step and saves the new position; other actors write `ops` in between. */
    method SaveStep(at: nat, ops: seq<Op>)
      requires Valid() && at < |plan| && plan[at].Work? && Stands(world, id, at, |plan[at].buckets|)
      modifies this
      ensures Valid() && old(trace) <= trace && id in world.runs && world.runs[id].at == at + 1
      ensures Live(world, id) ==> Stands(world, id, at + 1, 0)
    {
      Perform(FinishStep(id));
      Interfere(ops);
      Perform(Persist(id));
    }

    /** Ends the run with its last write, after other actors wrote `ops`. */
    method End(ops: seq<Op>, last: Step)
      requires Valid() && Live(world, id) && !world.runs[id].dirty
      requires !last.Other? && last.id == id
      requires match last
        case Pause(_, _, _) => world.runs[id].at < |plan| && plan[world.runs[id].at].Approval?
        case Fail(_, status) => status in {Failed, Cancelled}
        case Complete(_) => world.runs[id].at >= |plan|
        case _ => false
      modifies this
      ensures Valid() && old(trace) <= trace && ending == Some(last)
      ensures id in world.runs && !Live(world, id) && world.runs[id].at == old(world.runs[id].at)
    {
      Interfere(ops);
      Perform(last);
      ending := Some(last);
    }

    /** The run ended with the status of a job that did not succeed. */
    predicate Blames(r: Result)
      reads this
    {
      r != Success && ending == Some(Fail(id, if r == Cancellation then Cancelled else Failed))
    }

    /** Executes the step the controller stands at: pauses at a gate, ends the run at a failure, or saves the next position. */
    method RunStep(stepByStep: bool, result: Job -> Result, ops: seq<Op>) returns (blamed: Option<Job>)
      requires Valid() && Live(world, id) && world.runs[id].at < |plan| && Stands(world, id, world.runs[id].at, 0)
      modifies this
      ensures Valid() && old(trace) <= trace && id in world.runs
      ensures Live(world, id) ==> blamed.None? && Stands(world, id, old(world.runs[id].at) + 1, 0)
      ensures blamed.Some? ==> Blames(result(blamed.value))
    {
      var at := world.runs[id].at;
      blamed := None;
      if plan[at].Approval? {
        End(ops, Pause(id, "approval", None));
        return;
      }
      blamed := RunBuckets(at, stepByStep, result);
      if blamed.Some? {
        End(ops, Fail(id, if result(blamed.value) == Cancellation then Cancelled else Failed));
      } else {
        SaveStep(at, ops);
      }
    }

    /**
      The step loop: an approval gate pauses the workflow and returns, a failed bucket ends the
      run as failed or cancelled, and a finished step is saved before the next one. `writes(n)` is
      what other actors store just before the controller's write number `n`. Every effect is a step
      of the machine above, so its promises hold of this loop.
     */
    method RunSteps(stepByStep: nat -> bool, result: Job -> Result, writes: nat -> seq<Op>) returns (finished: bool, blamed: Option<Job>)
      requires Valid() && Live(world, id) && Stands(world, id, world.runs[id].at, 0)
      modifies this
      ensures Valid() && old(trace) <= trace && id in world.runs
      ensures !Live(world, id)
      ensures finished ==> |plan| <= world.runs[id].at && ending == Some(Complete(id))
      ensures blamed.Some? ==> Blames(result(blamed.value))
    {
      var at := world.runs[id].at;
      while at < |plan|
        invariant Valid() && old(trace) <= trace && Stands(world, id, at, 0)
      {
        blamed := RunStep(stepByStep(at), result, writes(at));
        if !Live(world, id) {
          return false, blamed;
        }
        at := at + 1;
      }
      End(writes(at), Complete(id));
      return true, None;
    }
  }
}
