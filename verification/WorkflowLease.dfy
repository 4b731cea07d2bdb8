/**
  The execution-lease protocol on one row of the workflow queue.

  Every write is a compare-and-swap: it commits only while the stored columns still
  equal the ones the writer names. A leader claims a waiting task into a new generation,
  one worker takes the queued claim over, the owner renews and writes under its
  (generation, token, worker), and a reaper returns expired leases. Reads happen earlier
  and may be stale, so an operation carries the values it saw, not the current ones.
 */
module WorkflowLease {
  import opened Common

  datatype Task = Task(
    status: Status,
    generation: nat,
    token: string,
    worker: string,
    lease: Option<int>,
    step: int,
    approvalPending: bool,
    pendingStep: string,
    approvalDeadline: Option<int>,
    dispatchAttempts: nat)

  /** The credentials a worker presents with a fenced write. */
  datatype Owner = Owner(generation: nat, token: string, worker: string)

  /** One compare-and-swap. `now` is the database time sampled before the write. */
  datatype Op =
    | DispatchClaim(seen: Task, issued: string, now: int, duration: int)
    | ExecutionClaim(owner: Owner, now: int, duration: int)
    | Renew(owner: Owner, now: int, duration: int)
    | RenewCancelled(owner: Owner, now: int, duration: int)
    | ExpireLease(owner: Owner, now: int)
    | PauseForApproval(owner: Owner, atStep: int, name: string, deadline: Option<int>)
    | ExpireApproval(seen: Task, now: int)
    | OwnedUpdate(owner: Owner, expected: Status, status: Status, toStep: int, pending: bool, name: string)
    | GuardedWrite(owner: Owner, expected: Status)
    | ReleaseDispatch(owner: Owner)
    | Reap(seen: Task, now: int)
    | ReapCancelled(seen: Task, now: int)
    // Writes of the API rather than of a worker or a leader.
    | Approve(seen: Task)
    | Cancel(expected: Status, clearOwner: bool)
    | FailWaiting(seen: Task)

  predicate ValidIdentity(generation: nat, token: string) {
    generation != 0 && !Blank(token)
  }

  predicate ValidOwner(o: Owner) {
    ValidIdentity(o.generation, o.token) && !Blank(o.worker)
  }

  predicate OwnedBy(row: Task, o: Owner) {
    row.generation == o.generation && row.token == o.token && row.worker == o.worker
  }

  function ClearOwner(row: Task): Task {
    row.(token := "", worker := "", lease := None)
  }

  /** What the reaper decides about one listed row before it tries to take it. */
  datatype Verdict = InvalidIdentity | NoLease | StillLeased | Expired

  function Judge(seen: Task, now: int): Verdict {
    if !ValidIdentity(seen.generation, seen.token) then InvalidIdentity
    else if seen.lease.None? then NoLease
    else if seen.lease.value > now then StillLeased
    else Expired
  }

  /** The stored columns still equal the ones the reaper listed, and their lease is past. */
  predicate StillExpired(row: Task, seen: Task, now: int) {
    && Judge(seen, now) == Expired && row.status == seen.status
    && row.generation == seen.generation && row.token == seen.token && row.lease == seen.lease
  }

  /** The row after a committed write, or None when validation or a condition fails. */
  function Effect(op: Op, row: Task): Option<Task> {
    match op
    case DispatchClaim(seen, issued, now, duration) =>
      if duration > 0 && row.status == Waiting && row.generation == seen.generation
      then Some(row.(status := Queued, generation := seen.generation + 1, token := issued, worker := "",
                     lease := Some(now + duration), dispatchAttempts := seen.dispatchAttempts + 1))
      else None
    case ExecutionClaim(o, now, duration) =>
      if ValidOwner(o) && duration > 0 && row.status == Queued && row.generation == o.generation && row.token == o.token
      then Some(row.(status := Running, worker := o.worker, lease := Some(now + duration)))
      else None
    case Renew(o, now, duration) =>
      if ValidOwner(o) && duration > 0 && row.status == Running && OwnedBy(row, o)
      then Some(row.(lease := Some(now + duration)))
      else None
    case RenewCancelled(o, now, duration) =>
      if ValidOwner(o) && duration > 0 && row.status == Cancelled && OwnedBy(row, o)
      then Some(row.(lease := Some(now + duration)))
      else None
    case ExpireLease(o, now) =>
      if ValidOwner(o) && row.status == Running && OwnedBy(row, o)
      then Some(row.(lease := Some(now)))
      else None
    case PauseForApproval(o, atStep, name, deadline) =>
      if ValidOwner(o) && row.status == Running && row.step == atStep && OwnedBy(row, o)
      then Some(row.(status := WaitingApprove, approvalPending := true, pendingStep := name, approvalDeadline := deadline))
      else None
    case ExpireApproval(seen, now) =>
      if && seen.status == WaitingApprove && seen.approvalPending
         && seen.approvalDeadline.Some? && seen.approvalDeadline.value < now
         && row.status == WaitingApprove && row.approvalPending && row.step == seen.step
         && row.pendingStep == seen.pendingStep && row.generation == seen.generation
         && row.approvalDeadline == seen.approvalDeadline
      then Some(ClearOwner(row).(status := Timeout, approvalPending := false, pendingStep := ""))
      else None
    case OwnedUpdate(o, expected, status, toStep, pending, name) =>
      if ValidOwner(o) && row.status == expected && OwnedBy(row, o)
      then Some(row.(status := status, step := toStep, approvalPending := pending, pendingStep := name))
      else None
    case GuardedWrite(o, expected) =>
      if (Terminal(expected) || ValidOwner(o)) && row.status == expected && OwnedBy(row, o)
      then Some(row)
      else None
    case ReleaseDispatch(o) =>
      if ValidIdentity(o.generation, o.token) && row.status == Queued && row.generation == o.generation && row.token == o.token
      then Some(ClearOwner(row).(status := Waiting))
      else None
    case Reap(seen, now) =>
      if StillExpired(row, seen, now) then Some(ClearOwner(row).(status := Waiting))
      else None
    case ReapCancelled(seen, now) =>
      if && Judge(seen, now) == Expired && row.status == Cancelled
         && row.generation == seen.generation && row.token == seen.token && row.worker == seen.worker && row.lease == seen.lease
      then Some(ClearOwner(row))
      else None
    case Approve(seen) =>
      if && seen.status in {WaitingApprove, Waiting} && row.approvalPending && row.status == seen.status
         && row.step == seen.step && row.pendingStep == seen.pendingStep
      then Some(row.(status := Waiting, step := (if seen.step < 0 then 0 else seen.step) + 1,
                     approvalPending := false, pendingStep := ""))
      else None
    case Cancel(expected, clearOwner) =>
      if row.status == expected
      then Some((if clearOwner then ClearOwner(row) else row).(status := Cancelled, approvalPending := false, pendingStep := ""))
      else None
    case FailWaiting(seen) =>
      if row.status == Waiting && row.generation == seen.generation then Some(row.(status := Failed)) else None
  }

  function Next(op: Op, row: Task): Task {
    var e := Effect(op, row);
    if e.Some? then e.value else row
  }

  predicate Commits(op: Op, row: Task) {
    Effect(op, row).Some?
  }

  /**
    What callers guarantee: a dispatch token is a UUID; a controller writes with the status
    it last persisted, never sends a task back to the queue, and leaves a terminal status as
    it is; the reaper lists queued and running rows whose lease is in the past; the API cancels what is active or
    already cancelled.
   */
  predicate WellFormed(op: Op) {
    match op
    case DispatchClaim(_, issued, _, _) => !Blank(issued)
    case OwnedUpdate(_, expected, status, _, _, _) =>
      if Terminal(expected) then status == expected else expected == Running && status !in {Waiting, Queued}
    case Reap(seen, now) => seen.status in {Queued, Running} && seen.lease.Some? && seen.lease.value < now
    case Cancel(expected, _) => Active(expected) || expected == Cancelled
    case _ => true
  }

  /** The shape of every stored row: an owner token, its lease and a positive generation come and go together. */
  predicate Sound(row: Task) {
    && (row.token == "" <==> row.lease.None?)
    && (row.token != "" ==> ValidIdentity(row.generation, row.token))
    && (row.status in {Queued, Running} ==> row.token != "")
    && (row.status == Queued ==> row.worker == "")
    && (row.status == Running ==> !Blank(row.worker))
  }

  /** A freshly submitted task. */
  predicate Initial(row: Task) {
    row.status == Waiting && row.generation == 0 && row.token == "" && row.worker == "" && row.lease.None?
  }

  predicate ValidRun(ops: seq<Op>) {
    forall i :: 0 <= i < |ops| ==> WellFormed(ops[i])
  }

  /** The row after the first `i` operations. */
  function At(row: Task, ops: seq<Op>, i: nat): Task
    requires i <= |ops|
  {
    if i == 0 then row else Next(ops[i - 1], At(row, ops, i - 1))
  }

  // ---- What every step keeps ----

  lemma StepKeepsSound(op: Op, row: Task)
    requires WellFormed(op) && Sound(row)
    ensures Sound(Next(op, row))
    ensures row.generation <= Next(op, row).generation <= row.generation + 1
  {
    assert Blank("");
  }

  lemma {:induction false} RunKeepsSound(row: Task, ops: seq<Op>, i: nat, k: nat)
    requires ValidRun(ops) && Sound(row) && i <= k <= |ops|
    ensures Sound(At(row, ops, i)) && Sound(At(row, ops, k))
    ensures At(row, ops, i).generation <= At(row, ops, k).generation
    decreases k
  {
    if i < k {
      RunKeepsSound(row, ops, i, k - 1);
      StepKeepsSound(ops[k - 1], At(row, ops, k - 1));
    } else if k > 0 {
      RunKeepsSound(row, ops, k - 1, k - 1);
      StepKeepsSound(ops[k - 1], At(row, ops, k - 1));
    }
  }

  // ---- Fencing ----

  predicate Holds(row: Task, generation: nat, token: string) {
    row.generation == generation && row.token == token
  }

  /** The pair was current once and can never be again. */
  predicate Spent(row: Task, generation: nat, token: string) {
    generation < row.generation || (generation == row.generation && token != row.token)
  }

  lemma SpentStays(op: Op, row: Task, generation: nat, token: string)
    requires token != "" && Spent(row, generation, token)
    ensures Spent(Next(op, row), generation, token)
  {
  }

  lemma {:induction false} SpentForever(row: Task, ops: seq<Op>, i: nat, k: nat, generation: nat, token: string)
    requires token != "" && i <= k <= |ops| && Spent(At(row, ops, i), generation, token)
    ensures Spent(At(row, ops, k), generation, token)
    decreases k
  {
    if i < k {
      SpentForever(row, ops, i, k - 1, generation, token);
      SpentStays(ops[k - 1], At(row, ops, k - 1), generation, token);
    }
  }

  /** The operation presents this pair as its right to write. */
  predicate Presents(op: Op, generation: nat, token: string) {
    match op
    case ExecutionClaim(o, _, _) => o.generation == generation && o.token == token
    case Renew(o, _, _) => o.generation == generation && o.token == token
    case RenewCancelled(o, _, _) => o.generation == generation && o.token == token
    case ExpireLease(o, _) => o.generation == generation && o.token == token
    case PauseForApproval(o, _, _, _) => o.generation == generation && o.token == token
    case OwnedUpdate(o, _, _, _, _, _) => o.generation == generation && o.token == token
    case GuardedWrite(o, _) => o.generation == generation && o.token == token
    case ReleaseDispatch(o) => o.generation == generation && o.token == token
    case Reap(seen, _) => seen.generation == generation && seen.token == token
    case ReapCancelled(seen, _) => seen.generation == generation && seen.token == token
    case _ => false
  }

  lemma SpentCannotCommit(op: Op, row: Task, generation: nat, token: string)
    requires token != "" && Spent(row, generation, token) && Presents(op, generation, token)
    ensures !Commits(op, row)
  {
  }

  /**
    Fencing over whole runs. Once a non-empty (generation, token) pair that was current is
    cleared or replaced, it never becomes current again, and no write that presents it commits.
   */
  lemma {:induction false} FencedForever(row: Task, ops: seq<Op>, i: nat, j: nat, k: nat, generation: nat, token: string)
    requires ValidRun(ops) && Sound(row) && i <= j <= k <= |ops| && token != ""
    requires Holds(At(row, ops, i), generation, token) && !Holds(At(row, ops, j), generation, token)
    ensures !Holds(At(row, ops, k), generation, token)
    ensures forall op: Op :: Presents(op, generation, token) ==> !Commits(op, At(row, ops, k))
  {
    RunKeepsSound(row, ops, i, j);
    SpentForever(row, ops, j, k, generation, token);
    forall op: Op | Presents(op, generation, token)
      ensures !Commits(op, At(row, ops, k))
    {
      SpentCannotCommit(op, At(row, ops, k), generation, token);
    }
  }

  // ---- One winner per generation ----

  predicate ClaimedAt(row: Task, ops: seq<Op>, i: nat, generation: nat)
    requires i < |ops|
  {
    ops[i].ExecutionClaim? && ops[i].owner.generation == generation && Commits(ops[i], At(row, ops, i))
  }

  predicate PastQueue(row: Task, generation: nat) {
    generation <= row.generation && !(row.status == Queued && row.generation == generation)
  }

  lemma PastQueueStays(op: Op, row: Task, generation: nat)
    requires WellFormed(op) && PastQueue(row, generation)
    ensures PastQueue(Next(op, row), generation)
  {
  }

  lemma {:induction false} PastQueueForever(row: Task, ops: seq<Op>, i: nat, k: nat, generation: nat)
    requires ValidRun(ops) && i <= k <= |ops| && PastQueue(At(row, ops, i), generation)
    ensures PastQueue(At(row, ops, k), generation)
    decreases k
  {
    if i < k {
      PastQueueForever(row, ops, i, k - 1, generation);
      PastQueueStays(ops[k - 1], At(row, ops, k - 1), generation);
    }
  }

  /** Whatever the number and order of attempts, a generation is claimed for execution at most once. */
  lemma {:induction false} OneWinnerPerGeneration(row: Task, ops: seq<Op>, i: nat, j: nat, generation: nat)
    requires ValidRun(ops) && i < |ops| && j < |ops|
    requires ClaimedAt(row, ops, i, generation) && ClaimedAt(row, ops, j, generation)
    ensures i == j
  {
    if i < j {
      PastQueueForever(row, ops, i + 1, j, generation);
    } else if j < i {
      PastQueueForever(row, ops, j + 1, i, generation);
    }
  }

  lemma TerminalStays(op: Op, row: Task)
    requires WellFormed(op) && Terminal(row.status)
    ensures Next(op, row).status == row.status
  {
  }

  /** A task that ended stays ended, whatever is attempted on it afterwards. */
  lemma {:induction false} TerminalForever(row: Task, ops: seq<Op>, i: nat, k: nat)
    requires ValidRun(ops) && i <= k <= |ops| && Terminal(At(row, ops, i).status)
    ensures At(row, ops, k).status == At(row, ops, i).status
    decreases k
  {
    if i < k {
      TerminalForever(row, ops, i, k - 1);
      TerminalStays(ops[k - 1], At(row, ops, k - 1));
    }
  }

  // ---- The reaper ----

  /** Neither error branch of the reaper can be taken on a row read from a reachable state. */
  lemma {:induction false} ReaperNeverFails(row: Task, ops: seq<Op>, i: nat, now: int)
    requires ValidRun(ops) && Initial(row) && i <= |ops|
    requires At(row, ops, i).status in {Queued, Running}
    ensures Judge(At(row, ops, i), now) in {StillLeased, Expired}
  {
    RunKeepsSound(row, ops, i, i);
  }

  /**
    Exactly when a reap survives a renewal that commits between its read and its write: the
    renewal wrote back the very expiry the reaper had read. A renewal that is still alive at
    the reaper's clock therefore always defeats it.
   */
  lemma ReapAfterRenewal(row: Task, o: Owner, at: int, duration: int, seen: Task, now: int)
    requires Commits(Renew(o, at, duration), row)
    requires seen.status == Running && OwnedBy(seen, o) && seen.lease.Some? && seen.lease.value < now
    ensures Commits(Reap(seen, now), Next(Renew(o, at, duration), row)) <==> at + duration == seen.lease.value
    ensures now <= at + duration ==> !Commits(Reap(seen, now), Next(Renew(o, at, duration), row))
  {
  }

  /**
    The lease duration is shortened from 5 to 3 after the claim at 10, so a renewal that samples its
    clock at 12 asks for the expiry the claim stored. It writes late; the reaper read the row in between.
   */
  function StalledRun(row: Task): seq<Op> {
    var claimed := Task(Running, 1, "t", "w", Some(15), row.step, row.approvalPending, row.pendingStep, row.approvalDeadline, row.dispatchAttempts + 1);
    [DispatchClaim(row, "t", 0, 10), ExecutionClaim(Owner(1, "t", "w"), 10, 5), Renew(Owner(1, "t", "w"), 12, 3), Reap(claimed, 20)]
  }

  /** The race is real: in this run from a new row the renewal commits after the reaper's read, and the reap still commits. */
  lemma StalledRenewalIsReaped(row: Task, ops: seq<Op>)
    requires Initial(row) && ops == StalledRun(row)
    ensures ValidRun(ops) && ops[3].seen == At(row, ops, 2)
    ensures Commits(ops[2], At(row, ops, 2)) && Commits(ops[3], At(row, ops, 3))
  {
    assert !IsSpace("t"[0]) && !IsSpace("w"[0]);
    assert At(row, ops, 1) == Next(ops[0], row);
    assert At(row, ops, 2) == Next(ops[1], At(row, ops, 1)) == ops[3].seen;
  }

  predicate LeasedPast(row: Task, now: int) {
    row.lease.None? || now <= row.lease.value
  }

  /** The operation stores a lease that ends before `now`. */
  predicate StoresLeaseBefore(op: Op, now: int) {
    match op
    case DispatchClaim(_, _, at, duration) => at + duration < now
    case ExecutionClaim(_, at, duration) => at + duration < now
    case Renew(_, at, duration) => at + duration < now
    case RenewCancelled(_, at, duration) => at + duration < now
    case ExpireLease(_, at) => at < now
    case _ => false
  }

  /** Finds the write that brought the lease below `now`. */
  lemma {:induction false} LoweredBetween(row: Task, ops: seq<Op>, i: nat, k: nat, now: int) returns (m: nat)
    requires i <= k <= |ops| && LeasedPast(At(row, ops, i), now) && !LeasedPast(At(row, ops, k), now)
    ensures i <= m < k && Commits(ops[m], At(row, ops, m)) && StoresLeaseBefore(ops[m], now)
    decreases k
  {
    if LeasedPast(At(row, ops, k - 1), now) {
      m := k - 1;
    } else {
      m := LoweredBetween(row, ops, i, k - 1, now);
    }
  }

  /**
    Over a run: if a reap with clock `now` commits after the lease had reached `now` or later,
    some write in between stored an expiry that was already past at `now`: a stalled renewal or
    claim, or the worker giving its lease up. A live renewal is never overridden.
   */
  lemma {:induction false} ReapNeedsLoweredLease(row: Task, ops: seq<Op>, i: nat, k: nat) returns (m: nat)
    requires ValidRun(ops) && i < k < |ops| && ops[k].Reap? && Commits(ops[k], At(row, ops, k))
    requires LeasedPast(At(row, ops, i), ops[k].now)
    ensures i <= m < k && Commits(ops[m], At(row, ops, m)) && StoresLeaseBefore(ops[m], ops[k].now)
  {
    m := LoweredBetween(row, ops, i, k, ops[k].now);
  }

  // ---- The store ----

  /** A refused argument, a condition that did not match, a committed write, or one whose outcome the caller did not get to see. */
  datatype Reply = Rejected | Missed | Committed | Overtaken | Uncertain

  type Rows = map<string, Task>

  function Apply(rows: Rows, id: string, op: Op): (r: Rows) {
    if id in rows && !Blank(id) then rows[id := Next(op, rows[id])] else rows
  }

  predicate Wins(rows: Rows, id: string, op: Op) {
    id in rows && !Blank(id) && Commits(op, rows[id])
  }

  /** What one recovery pass has done: the table, the leases taken back, and whether it had to stop. */
  datatype Recovery = Recovery(rows: Rows, recovered: nat, failed: bool)

  /** The reaper handles one listed row. */
  function RecoverOne(before: Recovery, id: string, seen: Task, now: int): Recovery {
    if before.failed then before
    else if Blank(id) || Judge(seen, now) in {InvalidIdentity, NoLease} then before.(failed := true)
    else if id in before.rows && StillExpired(before.rows[id], seen, now) then
      Recovery(before.rows[id := ClearOwner(before.rows[id]).(status := Waiting)], before.recovered + 1, false)
    else before
  }

  /** Writes of others, in order, each to one row. */
  type Writes = seq<(string, Op)>

  function ApplyAll(rows: Rows, writes: Writes): Rows {
    if writes == [] then rows else Apply(ApplyAll(rows, writes[..|writes| - 1]), writes[|writes| - 1].0, writes[|writes| - 1].1)
  }

  /** The pass over the first `n` rows the reaper listed at clock `now`; others write before each row's turn. */
  function RecoverPrefix(rows: Rows, listed: seq<(string, Task)>, others: seq<Writes>, now: int, n: nat): Recovery
    requires n <= |listed| && n <= |others|
    decreases n, 0
  {
    if n == 0 then Recovery(rows, 0, false)
    else RecoverOne(Turn(rows, listed, others, now, n - 1), listed[n - 1].0, listed[n - 1].1, now)
  }

  /** What the pass finds when the turn of row `n` comes. */
  function Turn(rows: Rows, listed: seq<(string, Task)>, others: seq<Writes>, now: int, n: nat): Recovery
    requires n < |listed| && n < |others|
    decreases n, 1
  {
    var before := RecoverPrefix(rows, listed, others, now, n);
    before.(rows := ApplyAll(before.rows, others[n]))
  }

  /** Every listed row is handled by the fenced reap of the lease protocol. */
  lemma RecoverIsReap(before: Recovery, id: string, seen: Task, now: int)
    requires !before.failed && !RecoverOne(before, id, seen, now).failed
    ensures RecoverOne(before, id, seen, now).rows == Apply(before.rows, id, Reap(seen, now))
    ensures RecoverOne(before, id, seen, now).recovered == before.recovered + if Wins(before.rows, id, Reap(seen, now)) then 1 else 0
  {
    if id in before.rows && !StillExpired(before.rows[id], seen, now) {
      assert before.rows[id := before.rows[id]] == before.rows;
    }
  }

  /** What a listing of active rows provides: distinct ids, and rows the reaper can judge. */
  predicate Listing(listed: seq<(string, Task)>, now: int, n: nat)
    requires n <= |listed|
  {
    n > 0 ==>
      && Listing(listed, now, n - 1) && !Blank(listed[n - 1].0) && Judge(listed[n - 1].1, now) in {StillLeased, Expired}
      && forall i :: 0 <= i < n - 1 ==> listed[i].0 != listed[n - 1].0
  }

  function Taken(rows: Rows, id: string, seen: Task, now: int): set<string> {
    if id in rows && StillExpired(rows[id], seen, now) then {id} else {}
  }

  /** The listed rows, among the first `n`, that a reap still takes when their turn comes. */
  function Takes(rows: Rows, listed: seq<(string, Task)>, others: seq<Writes>, now: int, n: nat): set<string>
    requires n <= |listed| && n <= |others|
  {
    if n == 0 then {}
    else Takes(rows, listed, others, now, n - 1) + Taken(Turn(rows, listed, others, now, n - 1).rows, listed[n - 1].0, listed[n - 1].1, now)
  }

  lemma {:induction false} TakesOnlyListed(rows: Rows, listed: seq<(string, Task)>, others: seq<Writes>, now: int, n: nat, id: string)
    requires n <= |listed| && n <= |others| && forall i :: 0 <= i < n ==> listed[i].0 != id
    ensures id !in Takes(rows, listed, others, now, n)
    decreases n
  {
    if n > 0 {
      TakesOnlyListed(rows, listed, others, now, n - 1, id);
    }
  }

  /** The pass and the writes of others, as one sequence: each row's fenced reap at its turn. */
  function Interleaved(listed: seq<(string, Task)>, others: seq<Writes>, now: int, n: nat): Writes
    requires n <= |listed| && n <= |others|
  {
    if n == 0 then [] else Interleaved(listed, others, now, n - 1) + others[n - 1] + [(listed[n - 1].0, Reap(listed[n - 1].1, now))]
  }

  lemma {:induction false} ApplyAllConcat(rows: Rows, a: Writes, b: Writes)
    ensures ApplyAll(rows, a + b) == ApplyAll(ApplyAll(rows, a), b)
    decreases |b|
  {
    if b == [] {
      assert a + b == a;
    } else {
      assert (a + b)[..|a + b| - 1] == a + b[..|b| - 1];
      ApplyAllConcat(rows, a, b[..|b| - 1]);
    }
  }

  /** The table with the given rows back in the queue, without an owner. */
  function Returned(rows: Rows, taken: set<string>): Rows {
    map id | id in rows :: if id in taken then ClearOwner(rows[id]).(status := Waiting) else rows[id]
  }

  /** The pass is still going, returned exactly `taken` to the queue, and counted them. */
  predicate TookBack(r: Recovery, rows: Rows, taken: set<string>) {
    r == Recovery(Returned(rows, taken), |taken|, false) && taken <= rows.Keys
  }

  lemma RecoverOneExact(before: Recovery, rows: Rows, taken: set<string>, id: string, seen: Task, now: int)
    requires TookBack(before, rows, taken) && id !in taken
    requires !Blank(id) && Judge(seen, now) in {StillLeased, Expired}
    ensures TookBack(RecoverOne(before, id, seen, now), rows, taken + Taken(rows, id, seen, now))
    ensures Taken(before.rows, id, seen, now) == Taken(rows, id, seen, now)
  {
    if id in rows && StillExpired(rows[id], seen, now) {
      assert Returned(rows, taken + {id}) == Returned(rows, taken)[id := ClearOwner(rows[id]).(status := Waiting)];
    } else {
      assert taken + {} == taken;
    }
  }

  /**
    However others write in between, a pass never stops early: it is their writes with one fenced
    reap per listed row, and it counts exactly the rows whose observed lease is still stored when
    their turn comes.
   */
  lemma {:induction false} RecoverPassIsRun(rows: Rows, listed: seq<(string, Task)>, others: seq<Writes>, now: int, n: nat)
    requires n <= |listed| && n <= |others| && Listing(listed, now, n)
    ensures var r := RecoverPrefix(rows, listed, others, now, n);
      !r.failed && r.rows == ApplyAll(rows, Interleaved(listed, others, now, n)) && r.recovered == |Takes(rows, listed, others, now, n)|
    decreases n
  {
    if n > 0 {
      RecoverPassIsRun(rows, listed, others, now, n - 1);
      TakesOnlyListed(rows, listed, others, now, n - 1, listed[n - 1].0);
      TurnIsRun(rows, listed, others, now, n);
    }
  }

  lemma TurnIsRun(rows: Rows, listed: seq<(string, Task)>, others: seq<Writes>, now: int, n: nat)
    requires 0 < n <= |listed| && n <= |others| && !Blank(listed[n - 1].0) && Judge(listed[n - 1].1, now) in {StillLeased, Expired}
    requires listed[n - 1].0 !in Takes(rows, listed, others, now, n - 1)
    requires var r := RecoverPrefix(rows, listed, others, now, n - 1);
      !r.failed && r.rows == ApplyAll(rows, Interleaved(listed, others, now, n - 1)) && r.recovered == |Takes(rows, listed, others, now, n - 1)|
    ensures var r := RecoverPrefix(rows, listed, others, now, n);
      !r.failed && r.rows == ApplyAll(rows, Interleaved(listed, others, now, n)) && r.recovered == |Takes(rows, listed, others, now, n)|
  {
    var id, seen, turn := listed[n - 1].0, listed[n - 1].1, Turn(rows, listed, others, now, n - 1);
    RecoverIsReap(turn, id, seen, now);
    var earlier, reap := Interleaved(listed, others, now, n - 1), [(id, Reap(seen, now))];
    ApplyAllConcat(rows, earlier, others[n - 1]);
    ApplyAllConcat(rows, earlier + others[n - 1], reap);
    assert reap[..0] == [] && ApplyAll(turn.rows, reap) == Apply(turn.rows, id, Reap(seen, now));
    assert Wins(turn.rows, id, Reap(seen, now)) <==> Taken(turn.rows, id, seen, now) == {id};
  }

  /** Undisturbed, a pass takes back exactly the rows whose observed lease is still the stored one and leaves all others. */
  lemma {:induction false} RecoverPassExact(rows: Rows, listed: seq<(string, Task)>, others: seq<Writes>, now: int, n: nat)
    requires n <= |listed| && n <= |others| && Listing(listed, now, n) && forall k :: 0 <= k < n ==> others[k] == []
    ensures TookBack(RecoverPrefix(rows, listed, others, now, n), rows, Takes(rows, listed, others, now, n))
    decreases n
  {
    if n == 0 {
      assert Returned(rows, {}) == rows;
    } else {
      RecoverPassExact(rows, listed, others, now, n - 1);
      TakesOnlyListed(rows, listed, others, now, n - 1, listed[n - 1].0);
      RecoverOneExact(RecoverPrefix(rows, listed, others, now, n - 1), rows, Takes(rows, listed, others, now, n - 1), listed[n - 1].0, listed[n - 1].1, now);
    }
  }

  /** The workflow-queue table behind the conditional updates. */
  class LeaseStore {
    var rows: Rows

    method ClaimForDispatch(id: string, seen: Task, issued: string, now: int, duration: int)
      returns (reply: Reply, claimed: Task)
      modifies this
      ensures var op := DispatchClaim(seen, issued, now, duration);
        && rows == Apply(old(rows), id, op)
        && (reply == Committed <==> Wins(old(rows), id, op))
      ensures reply == Committed ==>
        && claimed.status == Queued && OwnedBy(rows[id], Owner(claimed.generation, claimed.token, claimed.worker))
        && claimed.generation == old(rows)[id].generation + 1 && claimed.lease == rows[id].lease
    {
      claimed := seen;
      if Blank(id) || duration <= 0 {
        return Rejected, seen;
      }
      reply := Missed;
      if id in rows && rows[id].status == Waiting && rows[id].generation == seen.generation {
        rows := rows[id := rows[id].(status := Queued, generation := seen.generation + 1, token := issued, worker := "",
                                     lease := Some(now + duration), dispatchAttempts := seen.dispatchAttempts + 1)];
        claimed := seen.(status := Queued, generation := seen.generation + 1, token := issued, worker := "",
                         lease := Some(now + duration), dispatchAttempts := seen.dispatchAttempts + 1);
        reply := Committed;
      }
    }

    /**
      Claims and then reads the row back. Other writers may have acted on it by then (`later`), and
      the read may fail, so a claim can commit and still not be reported.
     */
    method ClaimForExecution(id: string, o: Owner, now: int, duration: int, later: seq<Op>, readable: bool) returns (reply: Reply)
      modifies this
      ensures var op := ExecutionClaim(o, now, duration);
        && rows == (if Wins(old(rows), id, op) then old(rows)[id := At(Next(op, old(rows)[id]), later, |later|)] else old(rows))
        && (reply == Committed <==> Wins(old(rows), id, op) && readable && rows[id].status == Running && OwnedBy(rows[id], o))
        && (reply == Uncertain <==> Wins(old(rows), id, op) && !readable)
        && (reply in {Rejected, Missed} <==> !Wins(old(rows), id, op))
    {
      if Blank(id) || !ValidOwner(o) || duration <= 0 {
        return Rejected;
      }
      if id !in rows || rows[id].status != Queued || rows[id].generation != o.generation || rows[id].token != o.token {
        return Missed;
      }
      rows := rows[id := rows[id].(status := Running, worker := o.worker, lease := Some(now + duration))];
      rows := rows[id := At(rows[id], later, |later|)];
      if !readable {
        return Uncertain;
      }
      if rows[id].status != Running || !OwnedBy(rows[id], o) {
        return Overtaken;
      }
      return Committed;
    }

    method RenewLease(id: string, o: Owner, now: int, duration: int) returns (reply: Reply)
      modifies this
      ensures var op := Renew(o, now, duration);
        rows == Apply(old(rows), id, op) && (reply == Committed <==> Wins(old(rows), id, op))
    {
      if Blank(id) || !ValidOwner(o) || duration <= 0 {
        return Rejected;
      }
      reply := Missed;
      if id in rows && rows[id].status == Running && OwnedBy(rows[id], o) {
        rows := rows[id := rows[id].(lease := Some(now + duration))];
        reply := Committed;
      }
    }

    method UpdateIfOwned(id: string, o: Owner, expected: Status, status: Status, toStep: int, pending: bool, name: string)
      returns (reply: Reply)
      modifies this
      ensures var op := OwnedUpdate(o, expected, status, toStep, pending, name);
        rows == Apply(old(rows), id, op) && (reply == Committed <==> Wins(old(rows), id, op))
    {
      if Blank(id) || !ValidOwner(o) {
        return Rejected;
      }
      reply := Missed;
      if id in rows && rows[id].status == expected && OwnedBy(rows[id], o) {
        rows := rows[id := rows[id].(status := status, step := toStep, approvalPending := pending, pendingStep := name)];
        reply := Committed;
      }
    }

    method ReleaseDispatchClaim(id: string, o: Owner) returns (reply: Reply)
      modifies this
      ensures var op := ReleaseDispatch(o);
        rows == Apply(old(rows), id, op) && (reply == Committed <==> Wins(old(rows), id, op))
    {
      if Blank(id) || !ValidIdentity(o.generation, o.token) {
        return Rejected;
      }
      reply := Missed;
      if id in rows && rows[id].status == Queued && rows[id].generation == o.generation && rows[id].token == o.token {
        rows := rows[id := rows[id].(status := Waiting, token := "", worker := "", lease := None)];
        reply := Committed;
      }
    }

    /** Takes back the leases listed as expired at clock `now`, while others write to the table before each row's turn. */
    method RecoverExpired(listed: seq<(string, Task)>, others: seq<Writes>, limit: nat, now: int) returns (recovered: nat, failed: bool)
      requires |others| == |listed|
      modifies this
      ensures limit < 1 || limit > 10000 ==> failed && recovered == 0 && rows == old(rows)
      ensures 1 <= limit <= 10000 ==>
        var n := if |listed| < limit then |listed| else limit;
        exists i :: 0 <= i <= n && Recovery(rows, recovered, failed) == RecoverPrefix(old(rows), listed, others, now, i) && (i < n ==> failed)
    {
      recovered, failed := 0, false;
      if limit < 1 || limit > 10000 {
        failed := true;
        return;
      }
      var n := if |listed| < limit then |listed| else limit;
      var i := 0;
      while i < n && !failed
        invariant 0 <= i <= n
        invariant Recovery(rows, recovered, failed) == RecoverPrefix(old(rows), listed, others, now, i)
        decreases n - i
      {
        var (id, seen) := listed[i];
        rows := ApplyAll(rows, others[i]);
        i := i + 1;
        if Blank(id) || !ValidIdentity(seen.generation, seen.token) || seen.lease.None? {
          failed := true;
        } else if seen.lease.value > now {
          // renewed before the listing was read
        } else if id in rows && rows[id].status == seen.status && rows[id].generation == seen.generation
                  && rows[id].token == seen.token && rows[id].lease == seen.lease {
          rows := rows[id := rows[id].(status := Waiting, token := "", worker := "", lease := None)];
          recovered := recovered + 1;
        }
      }
    }
  }
}
