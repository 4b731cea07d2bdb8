/**
  Job admissions over whole runs: every entry point that writes scheduling columns, interleaved
  with passes of the scheduler.

  The policy row serializes passes, but not the rows they read. A pass reads each row, judges
  it, releases the stale ones and only then admits; callers enqueue, reattach and release in
  between. Each of these writes is conditional on the columns its caller read. Some jobs save their
  progress by writing back a whole row they read without a lock, scheduling columns included.
 */
module AdmissionRuns {
  import opened Common
  import WorkflowLease

  datatype Slot = Unscheduled | Enqueued | Admitted | Released

  datatype Kind = Command | Evaluation | Instant | Scheduled | Callback | OtherKind

  /** The immutable execution a checkpoint names; it stops counting at its deadline. */
  datatype Identity = Identity(uid: string, deadline: int, placement: string)

  datatype Row = Row(
    workspace: string, taskId: string, kind: Kind, status: Status, runGeneration: nat, identity: Option<Identity>,
    /** When the pending delayed checkpoint of a detached job is due, in seconds. */
    pendingUntil: Option<int>,
    cancelledByParent: bool,
    slot: Slot, generation: nat, ownerStatus: Option<Status>, queuedAt: Option<int>, expiresAt: Option<int>)

  /** The workflow owner whose row lock the caller holds. */
  datatype Parent = Parent(taskId: string, generation: nat, status: Status)

  predicate Expired(r: Row, now: int) {
    r.expiresAt.Some? && r.expiresAt.value <= now
  }

  /** The row still has the columns the caller read; columns that were NULL then are not compared. */
  predicate Unchanged(seen: Row, row: Row) {
    && row.runGeneration == seen.runGeneration && row.generation == seen.generation && row.expiresAt == seen.expiresAt
    && (seen.slot != Unscheduled ==> row.slot == seen.slot)
    && (seen.ownerStatus.Some? ==> row.ownerStatus == seen.ownerStatus)
  }

  function LiveIdentity(r: Row, now: int): Option<Identity> {
    if r.kind in {Command, Evaluation} && r.runGeneration != 0 && r.identity.Some? && r.identity.value.deadline > now
    then r.identity else None
  }

  /** An active admission of an immutable, already created execution. */
  predicate Recoverable(r: Row, now: int) {
    && r.queuedAt.Some? && r.generation != 0 && !Terminal(r.status) && !Expired(r, now) && r.slot == Admitted
    && LiveIdentity(r, now).Some?
  }

  predicate RunsInKubernetes(k: Kind) {
    k in {Command, Evaluation, Instant, Scheduled}
  }

  predicate Due(r: Row, now: int) {
    r.pendingUntil.Some? && r.pendingUntil.value <= now / MICROS_PER_SECOND && r.status == Distributed
  }

  predicate Schedulable(r: Row, owner: Option<Parent>, now: int, deadline: Option<int>) {
    && r.workspace != "" && !Terminal(r.status)
    && (deadline.Some? ==> deadline.value > now)
    && (owner.None? ==> Due(r, now) && deadline.Some?)
    && (owner.Some? && owner.value.status != Running ==> r.kind == Callback && deadline.Some?)
  }

  function OwnerGeneration(r: Row, owner: Option<Parent>): nat {
    if owner.Some? then owner.value.generation else r.runGeneration
  }

  function OwnerStatus(owner: Option<Parent>): Option<Status> {
    if owner.Some? then Some(owner.value.status) else None
  }

  /** The same owner already queued this job. */
  predicate SameEpisode(r: Row, owner: Option<Parent>) {
    r.generation == OwnerGeneration(r, owner) && r.ownerStatus == OwnerStatus(owner) && r.queuedAt.Some?
  }

  predicate ConfirmsExecution(r: Row, owner: Option<Parent>, now: int, confirmed: string, supplied: Option<Identity>) {
    && owner.Some? && owner.value.status == Running && LiveIdentity(r, now).Some? && LiveIdentity(r, now) == supplied
    && confirmed == supplied.value.uid
  }

  /** The columns an enqueue stores; None when it refuses or keeps the row as it is. */
  function Enqueue(seen: Row, owner: Option<Parent>, now: int, deadline: Option<int>, confirmed: string, supplied: Option<Identity>): Option<Row> {
    if owner.Some? && seen.taskId != owner.value.taskId then None
    else if !Schedulable(seen, owner, now, deadline) then None
    else if confirmed != "" && !ConfirmsExecution(seen, owner, now, confirmed, supplied) then None
    else if SameEpisode(seen, owner) && seen.slot == Admitted && !Expired(seen, now) then None
    else if SameEpisode(seen, owner) && owner.Some? && owner.value.status != Running && seen.kind == Callback
            && seen.slot == Enqueued && !Expired(seen, now) then None
    else
      var reattach := confirmed != "" && Recoverable(seen, now);
      Some(seen.(slot := if reattach then Admitted else Enqueued,
                 generation := OwnerGeneration(seen, owner), ownerStatus := OwnerStatus(owner),
                 queuedAt := if reattach || SameEpisode(seen, owner) then seen.queuedAt else Some(now),
                 expiresAt := deadline))
  }

  /** An enqueue never creates an admission; it can only carry over one that the row still holds. */
  lemma EnqueueNeverAdmits(seen: Row, owner: Option<Parent>, now: int, deadline: Option<int>, confirmed: string, supplied: Option<Identity>)
    ensures var e := Enqueue(seen, owner, now, deadline, confirmed, supplied);
      e.Some? && e.value.slot == Admitted ==> seen.slot == Admitted && confirmed != "" && e.value.queuedAt == seen.queuedAt
  {
  }

  /** Polling again under the same owner keeps the first queue time, so it cannot defeat aging. */
  lemma EnqueueKeepsQueueTime(seen: Row, owner: Option<Parent>, now: int, deadline: Option<int>, confirmed: string, supplied: Option<Identity>)
    requires SameEpisode(seen, owner)
    ensures var e := Enqueue(seen, owner, now, deadline, confirmed, supplied);
      e.Some? ==> e.value.queuedAt == seen.queuedAt && SameEpisode(e.value, owner)
  {
  }

  /** Whether the scheduler still honours a row. `retain` is set by a pass: it counts capacity, not permission. */
  predicate Current(r: Row, parent: Option<WorkflowLease.Task>, now: int, retain: bool) {
    if r.workspace == "" || r.queuedAt.None? then false
    else if RunsInKubernetes(r.kind) && r.status == Cancelled && r.cancelledByParent then r.slot == Admitted
    else if Terminal(r.status) then false
    else if r.ownerStatus.None? then !Expired(r, now) && Due(r, now) && r.generation == r.runGeneration && r.expiresAt.Some?
    else if parent.None? then false
    else
      var t := parent.value;
      if retain && r.slot == Admitted && t.status in {Waiting, Queued, Running} && Recoverable(r, now) then true
      else if t.generation != r.generation then false
      else if t.status == Cancelled && r.ownerStatus == Some(Running) && r.slot == Admitted && RunsInKubernetes(r.kind) then true
      else if Expired(r, now) then false
      else if Some(t.status) != r.ownerStatus then
        && t.status == Cancelled && r.ownerStatus == Some(Running) && r.slot == Admitted
        && t.token != "" && t.worker != "" && t.lease.Some? && t.lease.value > now
      else if !Terminal(t.status) && (t.token == "" || t.worker == "") then false
      else if t.status == Running then (retain && r.slot == Admitted) || (t.lease.Some? && t.lease.value > now)
      else r.kind == Callback && r.expiresAt.Some?
  }

  /** Whoever is told it may run is counted by every pass over the same rows. */
  lemma PermittedIsCounted(r: Row, parent: Option<WorkflowLease.Task>, now: int)
    requires Current(r, parent, now, false)
    ensures Current(r, parent, now, true)
  {
  }

  // ---- The run ----

  datatype Policy = Policy(maxJobs: nat, maxPerWorkspace: nat)

  /** Why a pass released a row: what it read of it and of its workflow, and when. */
  datatype Judgement = Judgement(row: Row, parent: Option<WorkflowLease.Task>, now: int)

  /**
    One pass. It reads rows by descending id; `cursor` is the last one. It counts admissions,
    collects the stale rows it will release and queues the rest. `raced` holds the rows that are
    admitted without its knowledge: stale ones it will fail to release, because they changed since
    they were read, and ones a save made admitted again behind it.
   */
  datatype Pass = Pass(limits: Policy, cursor: Option<nat>, counted: set<nat>, doomed: map<nat, Judgement>, queue: map<nat, Row>, raced: set<nat>, scanned: bool)

  /**
    `overlooked` holds the rows that raced the last pass that admitted a job, and those a save made
    admitted again since; `overlookedIn` the same for the last pass that admitted one in a workspace.
   */
  datatype World = World(rows: map<nat, Row>, pass: Option<Pass>, overlooked: set<nat>, overlookedIn: map<string, set<nat>>)

  datatype Step =
    | AddRow(id: nat, row: Row)
    | Progress(id: nat, status: Status, identity: Option<Identity>, pendingUntil: Option<int>)
    | EnqueueJob(id: nat, seen: Row, owner: Option<Parent>, now: int, deadline: Option<int>, confirmed: string, supplied: Option<Identity>)
    | ReleaseJob(id: nat, seen: Row, now: int)
    | ReleaseLost(id: nat, seen: Row)
    | Terminalize(id: nat, seen: Row)
    | BeginCleanup(id: nat, seen: Row)
    | FinishCleanup(id: nat, seen: Row)
    | SaveWhole(id: nat, seen: Row, status: Status)
    | BeginPass(limits: Policy)
    | ReadRow(id: nat, parent: Option<WorkflowLease.Task>, now: int)
    | ScanDone
    | DropStale(id: nat)
    | AdmitRow(id: nat)
    | EndPass

  function AdmittedIds(rows: map<nat, Row>): set<nat> {
    set id | id in rows && rows[id].slot == Admitted
  }

  function Within(rows: map<nat, Row>, ids: set<nat>, workspace: string): set<nat> {
    set id | id in ids && id in rows && rows[id].workspace == workspace
  }

  predicate Ahead(s: Pass, id: nat) {
    s.cursor.None? || id < s.cursor.value
  }

  /** The ids the next page starts with: listed rows the scan has not reached. */
  function Listed(rows: map<nat, Row>, s: Pass): set<nat> {
    set id | id in rows && rows[id].slot in {Enqueued, Admitted} && Ahead(s, id)
  }

  function Vacated(r: Row): Row {
    r.(slot := Released, cancelledByParent := false)
  }

  function CopyScheduling(row: Row, from: Row): Row {
    row.(slot := from.slot, generation := from.generation, ownerStatus := from.ownerStatus, queuedAt := from.queuedAt,
         expiresAt := from.expiresAt, cancelledByParent := false)
  }

  /** A whole-row save writes every column that was not empty when the row was read. */
  function SavedOver(row: Row, seen: Row, status: Status): Row {
    row.(status := status, cancelledByParent := row.cancelledByParent || seen.cancelledByParent,
         slot := if seen.slot == Unscheduled then row.slot else seen.slot,
         generation := if seen.generation == 0 then row.generation else seen.generation,
         ownerStatus := if seen.ownerStatus.None? then row.ownerStatus else seen.ownerStatus,
         queuedAt := if seen.queuedAt.None? then row.queuedAt else seen.queuedAt,
         expiresAt := if seen.expiresAt.None? then row.expiresAt else seen.expiresAt)
  }

  /** What a caller outside the scheduler does to one row; None when it leaves it alone. */
  function Write(row: Row, s: Step): Option<Row> {
    match s
    case Progress(_, status, identity, pendingUntil) =>
      Some(row.(status := status, identity := identity, pendingUntil := pendingUntil))
    case EnqueueJob(_, seen, owner, now, deadline, confirmed, supplied) =>
      var e := Enqueue(seen, owner, now, deadline, confirmed, supplied);
      if e.Some? && Unchanged(seen, row) then Some(CopyScheduling(row, e.value)) else None
    case ReleaseJob(_, seen, now) =>
      if seen.slot != Released && !Recoverable(seen, now) && Unchanged(seen, row) then Some(Vacated(row)) else None
    case ReleaseLost(_, seen) =>
      if seen.slot == Admitted && Unchanged(seen, row) then Some(Vacated(row)) else None
    case Terminalize(_, seen) =>
      if Terminal(seen.status) || seen.status != row.status || seen.runGeneration != row.runGeneration then None
      else
        var r := row.(status := Cancelled, cancelledByParent := true);
        Some(if !RunsInKubernetes(r.kind) && seen.slot !in {Unscheduled, Released} then r.(slot := Released) else r)
    case BeginCleanup(_, seen) =>
      if !RunsInKubernetes(row.kind) || seen.status != row.status || seen.runGeneration != row.runGeneration then None
      else Some(row.(status := Cancelled, cancelledByParent := true))
    case FinishCleanup(_, seen) =>
      if row.status != Cancelled || !row.cancelledByParent || seen.runGeneration != row.runGeneration then None
      else Some(if seen.slot != Unscheduled then Vacated(row) else row.(cancelledByParent := false))
    case SaveWhole(_, seen, status) =>
      if row.kind == OtherKind && RowSound(seen) then Some(SavedOver(row, seen, status)) else None
    case _ => None
  }

  function AdmitIn(rows: map<nat, Row>, id: nat): map<nat, Row>
    requires id in rows
  {
    rows[id := rows[id].(slot := Admitted, cancelledByParent := false)]
  }

  /** The pass tries to admit a queued row: its scan and releases are done and its counts are below the limits. */
  predicate Reaches(rows: map<nat, Row>, s: Pass, id: nat) {
    && s.scanned && s.doomed == map[] && id in s.queue && id in rows
    && |s.counted| < s.limits.maxJobs && |Within(rows, s.counted, rows[id].workspace)| < s.limits.maxPerWorkspace
  }

  /** Where the pass files a row it read. */
  function Filed(s: Pass, id: nat, j: Judgement, stale: bool): Pass {
    if stale then s.(cursor := Some(id), doomed := s.doomed[id := j])
    else if j.row.slot == Admitted then s.(cursor := Some(id), counted := s.counted + {id})
    else s.(cursor := Some(id), queue := s.queue[id := j.row])
  }

  /** The next row of the scan. */
  predicate IsNext(rows: map<nat, Row>, s: Pass, id: nat) {
    !s.scanned && id in Listed(rows, s) && forall other :: other in Listed(rows, s) ==> other <= id
  }

  function Drop(w: World, s: Pass, id: nat): World
    requires id in s.doomed
  {
    var rows := if id in w.rows && Unchanged(s.doomed[id].row, w.rows[id]) then w.rows[id := Vacated(w.rows[id])] else w.rows;
    w.(rows := rows, pass := Some(s.(doomed := s.doomed - {id})))
  }

  function Admit(w: World, s: Pass, id: nat): World
    requires id in w.rows
  {
    w.(rows := AdmitIn(w.rows, id), pass := Some(s.(queue := s.queue - {id}, counted := s.counted + {id})),
       overlooked := s.raced, overlookedIn := w.overlookedIn[w.rows[id].workspace := s.raced])
  }

  /** One step of the pass under way. */
  function Advance(w: World, s: Pass, step: Step): World {
    match step
    case ReadRow(id, parent, now) =>
      if IsNext(w.rows, s, id) then w.(pass := Some(Filed(s, id, Judgement(w.rows[id], parent, now), !Current(w.rows[id], parent, now, true)))) else w
    case ScanDone => if Listed(w.rows, s) == {} then w.(pass := Some(s.(scanned := true))) else w
    case DropStale(id) => if id in s.doomed then Drop(w, s, id) else w
    case AdmitRow(id) =>
      if !Reaches(w.rows, s, id) then w
      else if Unchanged(s.queue[id], w.rows[id]) then Admit(w, s, id)
      else w.(pass := Some(s.(queue := s.queue - {id})))
    case EndPass => w.(pass := None)
    case _ => w
  }

  predicate WritesRow(s: Step) {
    || s.Progress? || s.EnqueueJob? || s.ReleaseJob? || s.ReleaseLost? || s.Terminalize? || s.BeginCleanup? || s.FinishCleanup?
    || s.SaveWhole?
  }

  /** The pass still comes to the row, has counted it, or will release it. */
  predicate Covers(s: Pass, id: nat, row: Row) {
    (!s.scanned && Ahead(s, id)) || id in s.counted || (id in s.doomed && Unchanged(s.doomed[id].row, row))
  }

  function Raced(pass: Option<Pass>, id: nat, row: Row): Option<Pass> {
    if row.slot == Admitted && pass.Some? && !Covers(pass.value, id, row) then Some(pass.value.(raced := pass.value.raced + {id})) else pass
  }

  /** A write by a caller; one that leaves a row admitted which the pass does not cover is recorded as a race. */
  function Outside(w: World, id: nat, row: Row): World
    requires id in w.rows
  {
    var w' := w.(rows := w.rows[id := row], pass := Raced(w.pass, id, row));
    if row.slot == Admitted && w.rows[id].slot != Admitted
    then w'.(overlooked := w.overlooked + {id}, overlookedIn := w.overlookedIn[row.workspace := OverlookedIn(w.overlookedIn, row.workspace) + {id}])
    else w'
  }

  function Do(w: World, s: Step): World {
    if s.AddRow? then
      if s.id !in w.rows && s.row.slot == Unscheduled then w.(rows := w.rows[s.id := s.row]) else w
    else if WritesRow(s) then
      if s.id in w.rows && Write(w.rows[s.id], s).Some? then Outside(w, s.id, Write(w.rows[s.id], s).value) else w
    else if s.BeginPass? then
      if w.pass.None? then w.(pass := Some(Pass(s.limits, None, {}, map[], map[], {}, false))) else w
    else if w.pass.Some? then Advance(w, w.pass.value, s)
    else w
  }

  function After(w: World, steps: seq<Step>, i: nat): World
    requires i <= |steps|
  {
    if i == 0 then w else Do(After(w, steps, i - 1), steps[i - 1])
  }

  predicate AtMost(limits: Policy, p: Policy) {
    limits.maxJobs <= p.maxJobs && limits.maxPerWorkspace <= p.maxPerWorkspace
  }

  /** The policy may be changed at any time; no pass reads one above `p`. */
  predicate PoliciesWithin(p: Policy, steps: seq<Step>) {
    forall i :: 0 <= i < |steps| && steps[i].BeginPass? ==> AtMost(steps[i].limits, p)
  }

  function OverlookedIn(overlookedIn: map<string, set<nat>>, workspace: string): set<nat> {
    if workspace in overlookedIn then overlookedIn[workspace] else {}
  }

  /** A queued or admitted row has a queue time. */
  predicate RowSound(r: Row) {
    r.slot in {Enqueued, Admitted} ==> r.queuedAt.Some?
  }

  /** No more admissions than the caps allow, apart from overlooked ones. */
  ghost predicate Capped(p: Policy, rows: map<nat, Row>, overlooked: set<nat>, overlookedIn: map<string, set<nat>>) {
    && |AdmittedIds(rows) - overlooked| <= p.maxJobs
    && forall workspace :: |Within(rows, AdmittedIds(rows), workspace) - OverlookedIn(overlookedIn, workspace)| <= p.maxPerWorkspace
  }

  /** Any state under the caps, with no pass under way: the empty database, for one. */
  ghost predicate Start(p: Policy, w: World) {
    && w.pass.None? && w.overlooked == {} && w.overlookedIn == map[] && Capped(p, w.rows, w.overlooked, w.overlookedIn)
    && forall id :: id in w.rows ==> RowSound(w.rows[id])
  }

  /** Where a pass that is under way knows a current admission from. */
  predicate Known(rows: map<nat, Row>, s: Pass, id: nat) {
    || Ahead(s, id) || id in s.counted || id in s.raced
    || (id in s.doomed && id in rows && Unchanged(s.doomed[id].row, rows[id]))
  }

  ghost predicate Tracks(rows: map<nat, Row>, s: Pass) {
    && s.counted <= rows.Keys && s.counted !! s.queue.Keys && s.counted !! s.doomed.Keys
    && (forall id :: id in s.counted || id in s.queue || id in s.doomed ==> !Ahead(s, id))
    && (forall id :: id in s.doomed ==> s.doomed[id].row.slot != Unscheduled)
    && (forall id :: id in AdmittedIds(rows) ==> Known(rows, s, id))
    && (s.scanned ==> forall id :: id in AdmittedIds(rows) ==> !Ahead(s, id) || id in s.raced)
  }

  ghost predicate Good(p: Policy, w: World) {
    Capped(p, w.rows, w.overlooked, w.overlookedIn) && (w.pass.Some? ==> Tracks(w.rows, w.pass.value) && AtMost(w.pass.value.limits, p))
  }

  /** Nothing but the scheduler makes a row admitted, except a save that writes an admission back. */
  lemma CallersNeverAdmit(row: Row, s: Step)
    requires WritesRow(s) && Write(row, s).Some?
    ensures Write(row, s).value.slot == Admitted ==> row.slot == Admitted || (s.SaveWhole? && s.seen.slot == Admitted)
    ensures s.SaveWhole? && s.seen.slot == Admitted ==> Write(row, s).value.slot == Admitted
    ensures Write(row, s).value.workspace == row.workspace && Write(row, s).value.kind == row.kind
    ensures RowSound(row) ==> RowSound(Write(row, s).value)
  {
  }

  /** Fewer admissions keep the caps. */
  lemma FewerKeepsCaps(p: Policy, w: World, rows: map<nat, Row>)
    requires Capped(p, w.rows, w.overlooked, w.overlookedIn) && AdmittedIds(rows) <= AdmittedIds(w.rows)
    requires forall id :: id in AdmittedIds(rows) ==> rows[id].workspace == w.rows[id].workspace
    ensures Capped(p, rows, w.overlooked, w.overlookedIn)
  {
    Bounded(AdmittedIds(rows) - w.overlooked, AdmittedIds(w.rows) - w.overlooked);
    forall workspace ensures |Within(rows, AdmittedIds(rows), workspace) - OverlookedIn(w.overlookedIn, workspace)| <= p.maxPerWorkspace {
      Bounded(Within(rows, AdmittedIds(rows), workspace) - OverlookedIn(w.overlookedIn, workspace),
              Within(w.rows, AdmittedIds(w.rows), workspace) - OverlookedIn(w.overlookedIn, workspace));
    }
  }

  lemma RacedTracks(rows: map<nat, Row>, rows': map<nat, Row>, s: Pass, s': Pass, id: nat)
    requires Tracks(rows, s) && id in rows && id in rows' && rows' == rows[id := rows'[id]] && Some(s') == Raced(Some(s), id, rows'[id])
    ensures Tracks(rows', s')
  {
    forall other | other in AdmittedIds(rows') ensures Known(rows', s', other) && (s.scanned ==> !Ahead(s, other) || other in s'.raced) {
      if other != id {
        assert rows'[other] == rows[other] && other in AdmittedIds(rows) && Known(rows, s, other);
      }
    }
  }

  lemma OutsideTracks(w: World, s: Pass, id: nat, row: Row)
    requires w.pass == Some(s) && Tracks(w.rows, s) && id in w.rows
    ensures Tracks(Outside(w, id, row).rows, Outside(w, id, row).pass.value)
  {
    RacedTracks(w.rows, Outside(w, id, row).rows, s, Outside(w, id, row).pass.value, id);
  }

  lemma OutsideKeepsGood(p: Policy, w: World, s: Step)
    requires Good(p, w) && WritesRow(s) && s.id in w.rows && Write(w.rows[s.id], s).Some?
    ensures Good(p, Outside(w, s.id, Write(w.rows[s.id], s).value))
  {
    CallersNeverAdmit(w.rows[s.id], s);
    ReplaceKeepsGood(p, w, s.id, Write(w.rows[s.id], s).value);
  }

  lemma ReplaceKeepsGood(p: Policy, w: World, id: nat, row: Row)
    requires Good(p, w) && id in w.rows && row.workspace == w.rows[id].workspace
    ensures Good(p, Outside(w, id, row))
  {
    if w.pass.Some? {
      OutsideTracks(w, w.pass.value, id, row);
    }
    ReplaceKeepsCaps(p, w, id, row);
  }

  lemma ReplaceKeepsCaps(p: Policy, w: World, id: nat, row: Row)
    requires Capped(p, w.rows, w.overlooked, w.overlookedIn) && id in w.rows && row.workspace == w.rows[id].workspace
    ensures var w' := Outside(w, id, row); Capped(p, w'.rows, w'.overlooked, w'.overlookedIn)
  {
    if row.slot == Admitted && w.rows[id].slot != Admitted {
      ReadmissionIsOverlooked(p, w, id, row);
    } else {
      FewerKeepsCaps(p, w, w.rows[id := row]);
    }
  }

  lemma OneMoreOverlooked(rows: map<nat, Row>, rows': map<nat, Row>, id: nat, over: set<nat>)
    requires id in rows && id in rows' && rows' == rows[id := rows'[id]] && rows'[id].slot == Admitted
    ensures |AdmittedIds(rows') - (over + {id})| <= |AdmittedIds(rows) - over|
  {
    assert AdmittedIds(rows') == AdmittedIds(rows) + {id};
    Bounded(AdmittedIds(rows') - (over + {id}), AdmittedIds(rows) - over);
  }

  lemma OneMoreOverlookedIn(rows: map<nat, Row>, rows': map<nat, Row>, id: nat, workspace: string, over: set<nat>, over': set<nat>)
    requires id in rows && id in rows' && rows' == rows[id := rows'[id]] && rows'[id].workspace == rows[id].workspace && rows'[id].slot == Admitted
    requires over <= over' && (rows[id].workspace == workspace ==> id in over')
    ensures |Within(rows', AdmittedIds(rows'), workspace) - over'| <= |Within(rows, AdmittedIds(rows), workspace) - over|
  {
    assert AdmittedIds(rows') == AdmittedIds(rows) + {id};
    Bounded(Within(rows', AdmittedIds(rows'), workspace) - over', Within(rows, AdmittedIds(rows), workspace) - over);
  }

  /** A row that a save makes admitted again does not count against the caps: it is overlooked. */
  lemma ReadmissionIsOverlooked(p: Policy, w: World, id: nat, row: Row)
    requires Capped(p, w.rows, w.overlooked, w.overlookedIn) && id in w.rows && row.workspace == w.rows[id].workspace
    requires row.slot == Admitted && w.rows[id].slot != Admitted
    ensures var w' := Outside(w, id, row); Capped(p, w'.rows, w'.overlooked, w'.overlookedIn)
  {
    var w' := Outside(w, id, row);
    OneMoreOverlooked(w.rows, w'.rows, id, w.overlooked);
    forall workspace ensures |Within(w'.rows, AdmittedIds(w'.rows), workspace) - OverlookedIn(w'.overlookedIn, workspace)| <= p.maxPerWorkspace {
      OneMoreOverlookedIn(w.rows, w'.rows, id, workspace, OverlookedIn(w.overlookedIn, workspace), OverlookedIn(w'.overlookedIn, workspace));
    }
  }

  /** When a pass starts admitting it has counted every admission there is, except those that raced it. */
  lemma CountedCoversAdmitted(w: World, s: Pass)
    requires Tracks(w.rows, s) && s.scanned && s.doomed == map[]
    ensures AdmittedIds(w.rows) <= s.counted + s.raced
  {
    forall id | id in AdmittedIds(w.rows) ensures id in s.counted + s.raced {
      assert Known(w.rows, s, id) && (!Ahead(s, id) || id in s.raced);
    }
  }

  lemma AdmitCounts(rows: map<nat, Row>, id: nat, counted: set<nat>, raced: set<nat>)
    requires id in rows && AdmittedIds(rows) <= counted + raced
    ensures |AdmittedIds(AdmitIn(rows, id)) - raced| <= |counted| + 1
  {
    assert AdmittedIds(AdmitIn(rows, id)) == AdmittedIds(rows) + {id};
    Bounded(AdmittedIds(AdmitIn(rows, id)) - raced, counted + {id});
  }

  lemma AdmitCountsWithin(rows: map<nat, Row>, id: nat, counted: set<nat>, raced: set<nat>)
    requires id in rows && AdmittedIds(rows) <= counted + raced
    ensures var workspace := rows[id].workspace;
      |Within(AdmitIn(rows, id), AdmittedIds(AdmitIn(rows, id)), workspace) - raced| <= |Within(rows, counted, workspace)| + 1
  {
    var workspace, after := rows[id].workspace, AdmitIn(rows, id);
    assert AdmittedIds(after) == AdmittedIds(rows) + {id};
    Bounded(Within(after, AdmittedIds(after), workspace) - raced, Within(rows, counted, workspace) + {id});
  }

  lemma AdmitElsewhere(rows: map<nat, Row>, id: nat, workspace: string)
    requires id in rows && workspace != rows[id].workspace
    ensures Within(AdmitIn(rows, id), AdmittedIds(AdmitIn(rows, id)), workspace) == Within(rows, AdmittedIds(rows), workspace)
  {
  }

  /** An admission within the limits of the pass keeps the caps, apart from the rows that raced it. */
  lemma AdmissionKeepsCaps(p: Policy, w: World, s: Pass, id: nat)
    requires Good(p, w) && w.pass == Some(s) && Reaches(w.rows, s, id)
    ensures Capped(p, Admit(w, s, id).rows, Admit(w, s, id).overlooked, Admit(w, s, id).overlookedIn)
  {
    var w' := Admit(w, s, id);
    CountedCoversAdmitted(w, s);
    forall workspace ensures |Within(w'.rows, AdmittedIds(w'.rows), workspace) - OverlookedIn(w'.overlookedIn, workspace)| <= p.maxPerWorkspace {
      if workspace == w.rows[id].workspace {
        AdmitCountsWithin(w.rows, id, s.counted, s.raced);
      } else {
        AdmitElsewhere(w.rows, id, workspace);
      }
    }
    AdmitCounts(w.rows, id, s.counted, s.raced);
  }

  lemma FiledTracks(w: World, s: Pass, id: nat, j: Judgement, stale: bool)
    requires Tracks(w.rows, s) && IsNext(w.rows, s, id) && j.row == w.rows[id]
    ensures Tracks(w.rows, Filed(s, id, j, stale))
  {
    var s' := Filed(s, id, j, stale);
    forall other | other in AdmittedIds(w.rows) ensures Known(w.rows, s', other) {
      assert Known(w.rows, s, other);
      assert Ahead(s, other) ==> other in Listed(w.rows, s);
    }
  }

  lemma ScanDoneTracks(w: World, s: Pass)
    requires Tracks(w.rows, s) && Listed(w.rows, s) == {}
    ensures Tracks(w.rows, s.(scanned := true))
  {
    forall id | id in AdmittedIds(w.rows) ensures !Ahead(s, id) && Known(w.rows, s.(scanned := true), id) {
      assert id !in Listed(w.rows, s);
      assert Known(w.rows, s, id);
    }
  }

  lemma DropTracks(w: World, s: Pass, id: nat)
    requires Tracks(w.rows, s) && id in s.doomed
    ensures Tracks(Drop(w, s, id).rows, Drop(w, s, id).pass.value)
  {
    var w' := Drop(w, s, id);
    forall other | other in AdmittedIds(w'.rows) ensures other in AdmittedIds(w.rows) && Known(w'.rows, w'.pass.value, other) {
      assert Known(w.rows, s, other);
    }
  }

  lemma AdmitTracks(w: World, s: Pass, id: nat)
    requires Tracks(w.rows, s) && Reaches(w.rows, s, id)
    ensures Tracks(Admit(w, s, id).rows, Admit(w, s, id).pass.value)
  {
    var w' := Admit(w, s, id);
    forall other | other in AdmittedIds(w'.rows) ensures Known(w'.rows, w'.pass.value, other) && (!Ahead(s, other) || other in s.raced) {
      assert other != id ==> other in AdmittedIds(w.rows) && Known(w.rows, s, other);
    }
  }

  lemma SkipTracks(w: World, s: Pass, id: nat)
    requires Tracks(w.rows, s)
    ensures Tracks(w.rows, s.(queue := s.queue - {id}))
  {
    forall other | other in AdmittedIds(w.rows) ensures Known(w.rows, s.(queue := s.queue - {id}), other) {
      assert Known(w.rows, s, other);
    }
  }

  /** A new pass state that still tracks the rows keeps the invariant. */
  lemma PassOnlyKeepsGood(p: Policy, w: World, s: Pass, s': Pass)
    requires w.pass == Some(s) && Good(p, w) && Tracks(w.rows, s') && s'.limits == s.limits
    ensures Good(p, w.(pass := Some(s')))
  {
  }

  lemma DropKeepsGood(p: Policy, w: World, s: Pass, id: nat)
    requires w.pass == Some(s) && Good(p, w) && id in s.doomed
    ensures Good(p, Drop(w, s, id))
  {
    DropTracks(w, s, id);
    FewerKeepsCaps(p, w, Drop(w, s, id).rows);
  }

  lemma AdmitKeepsGood(p: Policy, w: World, s: Pass, id: nat)
    requires w.pass == Some(s) && Good(p, w) && Reaches(w.rows, s, id)
    ensures Good(p, Admit(w, s, id)) && Good(p, w.(pass := Some(s.(queue := s.queue - {id}))))
  {
    AdmitTracks(w, s, id);
    AdmissionKeepsCaps(p, w, s, id);
    SkipTracks(w, s, id);
    PassOnlyKeepsGood(p, w, s, s.(queue := s.queue - {id}));
  }

  lemma ReadKeepsGood(p: Policy, w: World, s: Pass, id: nat, j: Judgement, stale: bool)
    requires w.pass == Some(s) && Good(p, w) && IsNext(w.rows, s, id) && j.row == w.rows[id]
    ensures Good(p, w.(pass := Some(Filed(s, id, j, stale))))
  {
    FiledTracks(w, s, id, j, stale);
    PassOnlyKeepsGood(p, w, s, Filed(s, id, j, stale));
  }

  lemma ScanKeepsGood(p: Policy, w: World, s: Pass, step: Step)
    requires w.pass == Some(s) && Good(p, w) && (step.ReadRow? || step.ScanDone?)
    ensures Good(p, Advance(w, s, step))
  {
    if step.ReadRow? {
      if IsNext(w.rows, s, step.id) {
        ReadKeepsGood(p, w, s, step.id, Judgement(w.rows[step.id], step.parent, step.now), !Current(w.rows[step.id], step.parent, step.now, true));
      }
    } else if Listed(w.rows, s) == {} {
      ScanDoneTracks(w, s);
      PassOnlyKeepsGood(p, w, s, s.(scanned := true));
    }
  }

  lemma PassKeepsGood(p: Policy, w: World, s: Pass, step: Step)
    requires w.pass == Some(s) && Good(p, w)
    ensures Good(p, Advance(w, s, step))
  {
    if step.ReadRow? || step.ScanDone? {
      ScanKeepsGood(p, w, s, step);
    } else if step.DropStale? {
      if step.id in s.doomed {
        DropKeepsGood(p, w, s, step.id);
      }
    } else if step.AdmitRow? {
      if Reaches(w.rows, s, step.id) {
        AdmitKeepsGood(p, w, s, step.id);
      }
    }
  }

  lemma AddTracks(rows: map<nat, Row>, rows': map<nat, Row>, s: Pass, id: nat, row: Row)
    requires Tracks(rows, s) && id !in rows && row.slot == Unscheduled && rows' == rows[id := row]
    ensures Tracks(rows', s)
  {
    forall other | other in AdmittedIds(rows') ensures Known(rows', s, other) {
      assert other in AdmittedIds(rows) && Known(rows, s, other);
    }
  }

  lemma AddKeepsGood(p: Policy, w: World, s: Step)
    requires Good(p, w) && s.AddRow?
    ensures Good(p, Do(w, s))
  {
    if s.id !in w.rows && s.row.slot == Unscheduled {
      if w.pass.Some? {
        AddTracks(w.rows, w.rows[s.id := s.row], w.pass.value, s.id, s.row);
      }
      FewerKeepsCaps(p, w, w.rows[s.id := s.row]);
    }
  }

  lemma BeginKeepsGood(p: Policy, w: World, s: Step)
    requires Good(p, w) && s.BeginPass? && AtMost(s.limits, p)
    ensures Good(p, Do(w, s))
  {
  }

  lemma StepKeepsGood(p: Policy, w: World, s: Step)
    requires Good(p, w) && (s.BeginPass? ==> AtMost(s.limits, p))
    ensures Good(p, Do(w, s))
  {
    if WritesRow(s) {
      if s.id in w.rows && Write(w.rows[s.id], s).Some? {
        OutsideKeepsGood(p, w, s);
      }
    } else if s.AddRow? {
      AddKeepsGood(p, w, s);
    } else if s.BeginPass? {
      BeginKeepsGood(p, w, s);
    } else if w.pass.Some? {
      PassKeepsGood(p, w, w.pass.value, s);
    }
  }

  lemma {:induction false} RunKeepsGood(p: Policy, w: World, steps: seq<Step>, i: nat)
    requires Start(p, w) && PoliciesWithin(p, steps) && i <= |steps|
    ensures Good(p, After(w, steps, i))
    decreases i
  {
    if i > 0 {
      RunKeepsGood(p, w, steps, i - 1);
      StepKeepsGood(p, After(w, steps, i - 1), steps[i - 1]);
    }
  }

  /**
    In every state of every run, the admissions beyond a cap are rows that raced the last pass that
    admitted a job there, or that a save made admitted again since, and are still admitted: globally
    and in each workspace.
   */
  lemma {:induction false} CapsHold(p: Policy, w: World, steps: seq<Step>, i: nat, workspace: string)
    requires Start(p, w) && PoliciesWithin(p, steps) && i <= |steps|
    ensures var here := After(w, steps, i);
      var all, mine := AdmittedIds(here.rows), Within(here.rows, AdmittedIds(here.rows), workspace);
      && |all| <= p.maxJobs + |all * here.overlooked|
      && |mine| <= p.maxPerWorkspace + |mine * OverlookedIn(here.overlookedIn, workspace)|
  {
    RunKeepsGood(p, w, steps, i);
    var here := After(w, steps, i);
    Split(AdmittedIds(here.rows), here.overlooked);
    Split(Within(here.rows, AdmittedIds(here.rows), workspace), OverlookedIn(here.overlookedIn, workspace));
  }

  lemma Split<T>(a: set<T>, b: set<T>)
    ensures |a| == |a - b| + |a * b|
  {
    assert a == (a - b) + (a * b);
  }

  // ---- Exactly when an admission exceeds a cap ----

  /** The step admits a queued row. */
  predicate Admits(w: World, s: Step) {
    s.AdmitRow? && w.pass.Some? && Reaches(w.rows, w.pass.value, s.id) && Unchanged(w.pass.value.queue[s.id], w.rows[s.id])
  }

  /** The step saves a whole row that was admitted when it was read and no longer is. */
  predicate Readmits(w: World, s: Step) {
    s.SaveWhole? && s.id in w.rows && Write(w.rows[s.id], s).Some? && s.seen.slot == Admitted && w.rows[s.id].slot != Admitted
  }

  /** The rows that raced a pass, that it did not count, and that are still admitted. */
  function Missed(w: World, s: Pass): set<nat> {
    (s.raced - s.counted) * AdmittedIds(w.rows)
  }

  lemma AdmittedParts(w: World, s: Pass, workspace: string)
    requires Tracks(w.rows, s) && s.scanned && s.doomed == map[]
    ensures |AdmittedIds(w.rows)| == |s.counted * AdmittedIds(w.rows)| + |Missed(w, s)|
    ensures |Within(w.rows, AdmittedIds(w.rows), workspace)|
         == |Within(w.rows, s.counted * AdmittedIds(w.rows), workspace)| + |Within(w.rows, Missed(w, s), workspace)|
  {
    CountedCoversAdmitted(w, s);
    var all := AdmittedIds(w.rows);
    assert all == s.counted * all + Missed(w, s);
    assert Within(w.rows, all, workspace) == Within(w.rows, s.counted * all, workspace) + Within(w.rows, Missed(w, s), workspace);
  }

  /** A pass exceeds a cap exactly when the rows that raced it fill the room it sees under that cap. */
  lemma AdmissionExceedsIff(p: Policy, w: World, s: Step, cap: nat)
    requires Good(p, w) && Fair(w) && Admits(w, s)
    ensures var pass := w.pass.value; var all, after := AdmittedIds(w.rows), AdmittedIds(Do(w, s).rows); var workspace := w.rows[s.id].workspace;
      && (|after| > cap <==> |Missed(w, pass)| >= cap - |pass.counted * all|)
      && (|Within(Do(w, s).rows, after, workspace)| > cap <==>
            |Within(w.rows, Missed(w, pass), workspace)| >= cap - |Within(w.rows, pass.counted * all, workspace)|)
  {
    var workspace := w.rows[s.id].workspace;
    AdmittedParts(w, w.pass.value, workspace);
    assert w.pass.value.queue[s.id].slot == Enqueued;
    OneMore(w.rows, s.id, workspace);
    AdmitsIn(w, s);
  }

  lemma AdmitsIn(w: World, s: Step)
    requires Admits(w, s)
    ensures Do(w, s).rows == AdmitIn(w.rows, s.id)
  {
  }

  lemma OneMore(rows: map<nat, Row>, id: nat, workspace: string)
    requires id in rows && rows[id].slot != Admitted && workspace == rows[id].workspace
    ensures |AdmittedIds(AdmitIn(rows, id))| == |AdmittedIds(rows)| + 1
    ensures |Within(AdmitIn(rows, id), AdmittedIds(AdmitIn(rows, id)), workspace)| == |Within(rows, AdmittedIds(rows), workspace)| + 1
  {
    var after := AdmitIn(rows, id);
    assert AdmittedIds(after) == AdmittedIds(rows) + {id};
    assert Within(after, AdmittedIds(after), workspace) == Within(rows, AdmittedIds(rows), workspace) + {id};
  }

  lemma OthersAdmitNothing(w: World, s: Step)
    requires !Admits(w, s) && !Readmits(w, s)
    ensures AdmittedIds(Do(w, s).rows) <= AdmittedIds(w.rows)
    ensures forall id :: id in AdmittedIds(Do(w, s).rows) ==> Do(w, s).rows[id].workspace == w.rows[id].workspace
  {
    if WritesRow(s) && s.id in w.rows && Write(w.rows[s.id], s).Some? {
      CallersNeverAdmit(w.rows[s.id], s);
    }
  }

  lemma ReadmissionAdds(w: World, s: Step, workspace: string)
    requires Readmits(w, s)
    ensures |AdmittedIds(Do(w, s).rows)| == |AdmittedIds(w.rows)| + 1
    ensures |Within(Do(w, s).rows, AdmittedIds(Do(w, s).rows), workspace)|
         == |Within(w.rows, AdmittedIds(w.rows), workspace)| + if w.rows[s.id].workspace == workspace then 1 else 0
  {
    var rows := Do(w, s).rows;
    assert AdmittedIds(rows) == AdmittedIds(w.rows) + {s.id};
    if w.rows[s.id].workspace == workspace {
      assert Within(rows, AdmittedIds(rows), workspace) == Within(w.rows, AdmittedIds(w.rows), workspace) + {s.id};
    } else {
      assert Within(rows, AdmittedIds(rows), workspace) == Within(w.rows, AdmittedIds(w.rows), workspace);
    }
  }

  /**
    Over any run, a step takes the admissions above a cap exactly when it admits a row while the
    rows that raced its pass fill the room the pass sees, or saves back an admission that was
    released since its read while the cap is full. The same holds in a workspace.
   */
  lemma {:induction false} CapExceededIff(p: Policy, w: World, steps: seq<Step>, i: nat, cap: nat)
    requires Start(p, w) && PoliciesWithin(p, steps) && i < |steps| && |AdmittedIds(After(w, steps, i).rows)| <= cap
    ensures var here := After(w, steps, i);
      |AdmittedIds(After(w, steps, i + 1).rows)| > cap <==>
        || (Admits(here, steps[i]) && |Missed(here, here.pass.value)| >= cap - |here.pass.value.counted * AdmittedIds(here.rows)|)
        || (Readmits(here, steps[i]) && |AdmittedIds(here.rows)| == cap)
  {
    RunKeepsGood(p, w, steps, i);
    RunKeepsFair(w, steps, i);
    var here := After(w, steps, i);
    if Admits(here, steps[i]) {
      AdmissionExceedsIff(p, here, steps[i], cap);
    } else if Readmits(here, steps[i]) {
      ReadmissionAdds(here, steps[i], "");
    } else {
      OthersAdmitNothing(here, steps[i]);
      Bounded(AdmittedIds(Do(here, steps[i]).rows), AdmittedIds(here.rows));
    }
  }

  lemma {:induction false} WorkspaceCapExceededIff(p: Policy, w: World, steps: seq<Step>, i: nat, workspace: string, cap: nat)
    requires Start(p, w) && PoliciesWithin(p, steps) && i < |steps|
    requires |Within(After(w, steps, i).rows, AdmittedIds(After(w, steps, i).rows), workspace)| <= cap
    ensures var here, next := After(w, steps, i), After(w, steps, i + 1);
      |Within(next.rows, AdmittedIds(next.rows), workspace)| > cap <==>
        || (&& Admits(here, steps[i]) && here.rows[steps[i].id].workspace == workspace
            && |Within(here.rows, Missed(here, here.pass.value), workspace)|
               >= cap - |Within(here.rows, here.pass.value.counted * AdmittedIds(here.rows), workspace)|)
        || (&& Readmits(here, steps[i]) && here.rows[steps[i].id].workspace == workspace
            && |Within(here.rows, AdmittedIds(here.rows), workspace)| == cap)
  {
    RunKeepsGood(p, w, steps, i);
    RunKeepsFair(w, steps, i);
    WorkspaceStepIff(p, After(w, steps, i), steps[i], workspace, cap);
  }

  lemma WorkspaceStepIff(p: Policy, w: World, s: Step, workspace: string, cap: nat)
    requires Good(p, w) && Fair(w) && |Within(w.rows, AdmittedIds(w.rows), workspace)| <= cap
    ensures |Within(Do(w, s).rows, AdmittedIds(Do(w, s).rows), workspace)| > cap <==>
      || (&& Admits(w, s) && w.rows[s.id].workspace == workspace
          && |Within(w.rows, Missed(w, w.pass.value), workspace)| >= cap - |Within(w.rows, w.pass.value.counted * AdmittedIds(w.rows), workspace)|)
      || (Readmits(w, s) && w.rows[s.id].workspace == workspace && |Within(w.rows, AdmittedIds(w.rows), workspace)| == cap)
  {
    if Readmits(w, s) {
      ReadmissionAdds(w, s, workspace);
    } else if !Admits(w, s) {
      OthersAdmitNothing(w, s);
      Bounded(Within(Do(w, s).rows, AdmittedIds(Do(w, s).rows), workspace), Within(w.rows, AdmittedIds(w.rows), workspace));
    } else if w.rows[s.id].workspace == workspace {
      AdmissionExceedsIff(p, w, s, cap);
    } else {
      AdmitElsewhere(w.rows, s.id, workspace);
      AdmitsIn(w, s);
    }
  }

  // ---- Which live executions a pass releases ----

  /** A row the pass will release was judged stale, and is still the same job. */
  predicate Condemned(w: World, id: nat, j: Judgement) {
    && j.row.slot in {Enqueued, Admitted} && RowSound(j.row) && !Current(j.row, j.parent, j.now, true)
    && id in w.rows && w.rows[id].kind == j.row.kind
  }

  ghost predicate Fair(w: World) {
    && (forall id :: id in w.rows ==> RowSound(w.rows[id]))
    && (w.pass.Some? ==> forall id :: id in w.pass.value.doomed ==> Condemned(w, id, w.pass.value.doomed[id]))
    && (w.pass.Some? ==> forall id :: id in w.pass.value.queue ==> w.pass.value.queue[id].slot == Enqueued)
  }

  lemma OutsideKeepsFair(w: World, s: Step)
    requires Fair(w) && WritesRow(s) && s.id in w.rows && Write(w.rows[s.id], s).Some?
    ensures Fair(Outside(w, s.id, Write(w.rows[s.id], s).value))
  {
    CallersNeverAdmit(w.rows[s.id], s);
    ReplaceKeepsFair(w, s.id, Write(w.rows[s.id], s).value);
  }

  lemma ReplaceKeepsFair(w: World, id: nat, row: Row)
    requires Fair(w) && id in w.rows && RowSound(row) && row.kind == w.rows[id].kind
    ensures Fair(Outside(w, id, row))
  {
  }

  lemma StepKeepsFair(w: World, s: Step)
    requires Fair(w)
    ensures Fair(Do(w, s))
  {
    if WritesRow(s) {
      if s.id in w.rows && Write(w.rows[s.id], s).Some? {
        OutsideKeepsFair(w, s);
      }
    }
  }

  lemma {:induction false} RunKeepsFair(w: World, steps: seq<Step>, i: nat)
    requires Fair(w) && i <= |steps|
    ensures Fair(After(w, steps, i))
    decreases i
  {
    if i > 0 {
      RunKeepsFair(w, steps, i - 1);
      StepKeepsFair(After(w, steps, i - 1), steps[i - 1]);
    }
  }

  /** The workflow, as the pass read it, is waiting, queued or running, so a live execution of it counts. */
  predicate Honours(row: Row, parent: Option<WorkflowLease.Task>) {
    row.workspace != "" && row.ownerStatus.Some? && parent.Some? && parent.value.status in {Waiting, Queued, Running}
  }

  /**
    A pass about to release a row whose execution is live releases it exactly when the compared
    columns are as it read them; and then the execution was recorded after it read the row, unless
    the job counted as ended there.
   */
  lemma {:induction false} LiveExecutionReleasedIff(p: Policy, w: World, steps: seq<Step>, i: nat, id: nat)
    requires Start(p, w) && PoliciesWithin(p, steps) && i <= |steps|
    requires After(w, steps, i).pass.Some? && id in After(w, steps, i).pass.value.doomed && id in After(w, steps, i).rows
    requires var j := After(w, steps, i).pass.value.doomed[id]; Honours(j.row, j.parent) && Recoverable(After(w, steps, i).rows[id], j.now)
    ensures var here := After(w, steps, i); var j := here.pass.value.doomed[id];
      && (Do(here, DropStale(id)).rows[id].slot == Released <==> Unchanged(j.row, here.rows[id]))
      && (Unchanged(j.row, here.rows[id]) ==> Terminal(j.row.status) || j.row.identity != here.rows[id].identity)
  {
    RunKeepsFair(w, steps, i);
    DropReleasesIff(After(w, steps, i), id, After(w, steps, i).pass.value.doomed[id]);
  }

  lemma DropReleasesIff(w: World, id: nat, j: Judgement)
    requires w.pass.Some? && id in w.pass.value.doomed && w.pass.value.doomed[id] == j && Condemned(w, id, j)
    requires Honours(j.row, j.parent) && Recoverable(w.rows[id], j.now)
    ensures Do(w, DropStale(id)).rows[id].slot == Released <==> Unchanged(j.row, w.rows[id])
    ensures Unchanged(j.row, w.rows[id]) ==> Terminal(j.row.status) || j.row.identity != w.rows[id].identity
  {
    if Unchanged(j.row, w.rows[id]) && !Terminal(j.row.status) {
      assert !Recoverable(j.row, j.now);
    }
  }

  /** The pass that step `i` belongs to has not ended before step `j`. */
  predicate SamePass(steps: seq<Step>, i: nat, j: nat)
    requires j <= |steps|
  {
    forall k :: i <= k < j ==> !steps[k].EndPass?
  }

  lemma CountedStays(w: World, s: Step, id: nat)
    requires w.pass.Some? && id in w.pass.value.counted && !s.EndPass?
    ensures Do(w, s).pass.Some? && id in Do(w, s).pass.value.counted
  {
  }

  lemma {:induction false} CountedUntilEnd(w: World, steps: seq<Step>, i: nat, j: nat, id: nat)
    requires i <= j <= |steps| && SamePass(steps, i, j) && After(w, steps, i).pass.Some? && id in After(w, steps, i).pass.value.counted
    ensures After(w, steps, j).pass.Some? && id in After(w, steps, j).pass.value.counted
    decreases j
  {
    if i < j {
      CountedUntilEnd(w, steps, i, j - 1, id);
      CountedStays(After(w, steps, j - 1), steps[j - 1], id);
    }
  }

  /** The step reads an admitted row with a live execution of an honoured workflow. */
  predicate ReadsLive(w: World, s: Step) {
    s.ReadRow? && w.pass.Some? && IsNext(w.rows, w.pass.value, s.id) && Recoverable(w.rows[s.id], s.now) && Honours(w.rows[s.id], s.parent)
  }

  /** An execution that is recorded when a pass reads its row keeps its slot in that pass, whoever takes the workflow over. */
  lemma {:induction false} LiveExecutionKeepsSlot(p: Policy, w: World, steps: seq<Step>, i: nat, j: nat)
    requires Start(p, w) && PoliciesWithin(p, steps) && i < j <= |steps| && SamePass(steps, i, j) && ReadsLive(After(w, steps, i), steps[i])
    ensures Do(After(w, steps, j), DropStale(steps[i].id)).rows == After(w, steps, j).rows
  {
    LiveIsCounted(After(w, steps, i), steps[i]);
    CountedUntilEnd(w, steps, i + 1, j, steps[i].id);
    RunKeepsGood(p, w, steps, j);
  }

  lemma LiveIsCounted(w: World, s: Step)
    requires ReadsLive(w, s)
    ensures Do(w, s).pass.Some? && s.id in Do(w, s).pass.value.counted
  {
    assert Current(w.rows[s.id], s.parent, s.now, true);
  }

  // ---- One race is enough to exceed a cap ----

  const ADMITTED_ROW := Row("team", "t1", Command, Waiting, 1, None, None, false, Admitted, 1, Some(Running), Some(0), None)
  const LIVE_ROW := ADMITTED_ROW.(status := Running, identity := Some(EXECUTION))
  const QUEUED_ROW := ADMITTED_ROW.(taskId := "t2", slot := Enqueued)
  const EXECUTION := Identity("uid", 100, "node")
  const ONE_SLOT := Policy(1, 1)
  const SCAN := Pass(ONE_SLOT, None, {}, map[], map[], {}, false)

  function OwnerAt(generation: nat): WorkflowLease.Task {
    WorkflowLease.Task(Running, generation, "token", "worker", Some(50), 0, false, "", None, 0)
  }

  /** One job holds the only slot and another waits. */
  function FullHouse(): World {
    World(map[1 := ADMITTED_ROW, 2 := QUEUED_ROW], None, {}, map[])
  }

  function Judged(): World {
    World(map[1 := ADMITTED_ROW, 2 := QUEUED_ROW],
          Some(SCAN.(cursor := Some(1), doomed := map[1 := Judgement(ADMITTED_ROW, Some(OwnerAt(2)), 1)], queue := map[2 := QUEUED_ROW])), {}, map[])
  }

  lemma QueuedIsCurrent(now: int)
    requires now < 50
    ensures Current(QUEUED_ROW, Some(OwnerAt(1)), now, true)
  {
  }

  /** A pass over the two rows queues the one that waits, and will release the holder if it is stale. */
  lemma TwoRowsScanned(w: World, holder: Row, owner: WorkflowLease.Task, now: int)
    requires w == World(map[1 := holder, 2 := QUEUED_ROW], None, {}, map[]) && holder.slot == Admitted && now < 50
    requires !Current(holder, Some(owner), now, true)
    ensures Do(Do(Do(w, BeginPass(ONE_SLOT)), ReadRow(2, Some(OwnerAt(1)), now)), ReadRow(1, Some(owner), now))
         == w.(pass := Some(SCAN.(cursor := Some(1), doomed := map[1 := Judgement(holder, Some(owner), now)], queue := map[2 := QUEUED_ROW])))
  {
    QueuedIsCurrent(now);
    var w1 := w.(pass := Some(SCAN));
    assert Listed(w1.rows, SCAN) == {1, 2};
    var s := SCAN.(cursor := Some(2), queue := map[2 := QUEUED_ROW]);
    assert Do(w1, ReadRow(2, Some(OwnerAt(1)), now)) == w1.(pass := Some(s));
    assert Listed(w1.rows, s) == {1};
  }

  /** The pass reads the holder after its workflow was taken over, before its execution is recorded. */
  lemma HolderJudgedStale()
    ensures Do(Do(Do(FullHouse(), BeginPass(ONE_SLOT)), ReadRow(2, Some(OwnerAt(1)), 1)), ReadRow(1, Some(OwnerAt(2)), 1)) == Judged()
  {
    assert !Current(ADMITTED_ROW, Some(OwnerAt(2)), 1, true);
    TwoRowsScanned(FullHouse(), ADMITTED_ROW, OwnerAt(2), 1);
  }

  function Reattached(): World {
    World(map[1 := LIVE_ROW.(generation := 2), 2 := QUEUED_ROW], Some(Judged().pass.value.(raced := {1})), {}, map[])
  }

  /** The execution is recorded, and the next owner reattaches to it. */
  lemma HolderReattached()
    ensures Do(Do(Judged(), Progress(1, Running, Some(EXECUTION), None)),
               EnqueueJob(1, LIVE_ROW, Some(Parent("t1", 2, Running)), 2, None, "uid", Some(EXECUTION))) == Reattached()
  {
    var w := Judged().(rows := map[1 := LIVE_ROW, 2 := QUEUED_ROW]);
    assert Do(Judged(), Progress(1, Running, Some(EXECUTION), None)) == w;
    var owner := Some(Parent("t1", 2, Running));
    assert ConfirmsExecution(LIVE_ROW, owner, 2, "uid", Some(EXECUTION)) && Recoverable(LIVE_ROW, 2);
    assert "uid" != "";
    assert Enqueue(LIVE_ROW, owner, 2, None, "uid", Some(EXECUTION)) == Some(LIVE_ROW.(generation := 2));
    assert w.rows[1 := LIVE_ROW.(generation := 2)] == Reattached().rows && w.pass.value.raced + {1} == {1};
  }

  function Overfull(): World {
    World(map[1 := LIVE_ROW.(generation := 2), 2 := QUEUED_ROW.(slot := Admitted)],
          Some(SCAN.(cursor := Some(1), counted := {2}, raced := {1}, scanned := true)), {1}, map["team" := {1}])
  }

  function Missing(): World {
    Reattached().(pass := Some(SCAN.(cursor := Some(1), queue := map[2 := QUEUED_ROW], raced := {1})))
  }

  /** The release misses the holder. */
  lemma ReleaseMisses()
    ensures Do(Reattached(), DropStale(1)) == Missing()
  {
    assert Judged().pass.value.doomed - {1} == map[];
  }

  /** So the pass gives the slot to the other job as well. */
  lemma SlotGivenTwice()
    ensures Do(Do(Missing(), ScanDone), AdmitRow(2)) == Overfull()
  {
    var w, s := Missing(), Missing().pass.value;
    assert Listed(w.rows, s) == {};
    assert Within(w.rows, {}, "team") == {};
    assert Do(w, ScanDone) == w.(pass := Some(s.(scanned := true)));
    assert s.queue - {2} == map[] && s.counted + {2} == {2};
    assert w.rows[2 := QUEUED_ROW.(slot := Admitted)] == Overfull().rows;
  }

  const RACE := [
    BeginPass(ONE_SLOT), ReadRow(2, Some(OwnerAt(1)), 1), ReadRow(1, Some(OwnerAt(2)), 1),
    Progress(1, Running, Some(EXECUTION), None),
    EnqueueJob(1, LIVE_ROW, Some(Parent("t1", 2, Running)), 2, None, "uid", Some(EXECUTION)),
    DropStale(1), ScanDone, AdmitRow(2)]

  lemma Unfold(w: World, steps: seq<Step>)
    requires |steps| == 8
    ensures After(w, steps, 3) == Do(Do(Do(w, steps[0]), steps[1]), steps[2])
    ensures After(w, steps, 5) == Do(Do(After(w, steps, 3), steps[3]), steps[4])
    ensures After(w, steps, 8) == Do(Do(Do(After(w, steps, 5), steps[5]), steps[6]), steps[7])
  {
    assert After(w, steps, 1) == Do(w, steps[0]);
    assert After(w, steps, 2) == Do(After(w, steps, 1), steps[1]);
    assert After(w, steps, 4) == Do(After(w, steps, 3), steps[3]);
    assert After(w, steps, 6) == Do(After(w, steps, 5), steps[5]);
    assert After(w, steps, 7) == Do(After(w, steps, 6), steps[6]);
  }

  lemma RaceReached(w: World, steps: seq<Step>)
    requires w == FullHouse() && steps == RACE
    ensures After(w, steps, 5) == Reattached()
  {
    Unfold(w, steps);
    HolderJudgedStale();
    HolderReattached();
  }

  lemma RaceEnds(w: World, steps: seq<Step>)
    requires |steps| == 8 && After(w, steps, 5) == Reattached() && steps[5..] == [DropStale(1), ScanDone, AdmitRow(2)]
    ensures After(w, steps, 8) == Overfull()
  {
    Unfold(w, steps);
    ReleaseMisses();
    SlotGivenTwice();
    assert steps[5] == steps[5..][0] && steps[6] == steps[5..][1] && steps[7] == steps[5..][2];
  }

  /** A run with one race ends with two admissions under a cap of one: the bound of `CapsHold` is reached. */
  lemma {:induction false} RaceExceedsCap(w: World, steps: seq<Step>, n: nat)
    requires w == FullHouse() && steps == RACE && n == |steps|
    ensures Start(ONE_SLOT, w) && PoliciesWithin(ONE_SLOT, steps)
    ensures After(w, steps, n).overlooked == {1} && |AdmittedIds(After(w, steps, n).rows)| == ONE_SLOT.maxJobs + 1
  {
    assert Start(ONE_SLOT, w) by {
      OneHolderWithinCaps(w, ADMITTED_ROW);
    }
    assert PoliciesWithin(ONE_SLOT, steps);
    assert After(w, steps, n) == Overfull() by {
      RaceReached(w, steps);
      RaceEnds(w, steps);
    }
    assert AdmittedIds(Overfull().rows) == {1, 2};
  }

  // ---- One stale save is enough as well ----

  const HELD_ROW := ADMITTED_ROW.(kind := OtherKind, status := Running, expiresAt := Some(5))

  /** A job whose progress is saved as a whole row holds the only slot until 5; another job waits. */
  function Held(): World {
    World(map[1 := HELD_ROW, 2 := QUEUED_ROW], None, {}, map[])
  }

  function HeldJudged(): World {
    Held().(pass := Some(SCAN.(cursor := Some(1), doomed := map[1 := Judgement(HELD_ROW, Some(OwnerAt(1)), 10)], queue := map[2 := QUEUED_ROW])))
  }

  lemma HolderExpired()
    ensures Do(Do(Do(Held(), BeginPass(ONE_SLOT)), ReadRow(2, Some(OwnerAt(1)), 10)), ReadRow(1, Some(OwnerAt(1)), 10)) == HeldJudged()
  {
    assert !Current(HELD_ROW, Some(OwnerAt(1)), 10, true);
    TwoRowsScanned(Held(), HELD_ROW, OwnerAt(1), 10);
  }

  /** The pass released the first job. */
  function SlotFreed(): World {
    World(map[1 := HELD_ROW.(slot := Released), 2 := QUEUED_ROW], Some(SCAN.(cursor := Some(1), queue := map[2 := QUEUED_ROW])), {}, map[])
  }

  lemma HolderReleased()
    ensures Do(HeldJudged(), DropStale(1)) == SlotFreed()
  {
    assert HeldJudged().pass.value.doomed - {1} == map[];
    assert HeldJudged().rows[1 := HELD_ROW.(slot := Released)] == SlotFreed().rows;
  }

  /** And it admitted the second. */
  function SlotMoved(): World {
    World(map[1 := HELD_ROW.(slot := Released), 2 := QUEUED_ROW.(slot := Admitted)],
          Some(SCAN.(cursor := Some(1), counted := {2}, scanned := true)), {}, map["team" := {}])
  }

  lemma SlotMovesOn()
    ensures Do(Do(SlotFreed(), ScanDone), AdmitRow(2)) == SlotMoved()
  {
    var w, s := SlotFreed(), SlotFreed().pass.value;
    assert Listed(w.rows, s) == {} && Within(w.rows, {}, "team") == {};
    assert Do(w, ScanDone) == w.(pass := Some(s.(scanned := true)));
    assert s.queue - {2} == map[] && s.counted + {2} == {2};
    assert w.rows[2 := QUEUED_ROW.(slot := Admitted)] == SlotMoved().rows;
  }

  lemma SavedBack()
    ensures Readmits(SlotMoved(), SaveWhole(1, HELD_ROW, Running))
    ensures AdmittedIds(Do(SlotMoved(), SaveWhole(1, HELD_ROW, Running)).rows) == {1, 2}
  {
    assert Do(SlotMoved(), SaveWhole(1, HELD_ROW, Running)).rows == map[1 := HELD_ROW, 2 := QUEUED_ROW.(slot := Admitted)];
  }

  /** The first job then saves the row it had read before the pass: both are admitted under a cap of one. */
  lemma SaveExceedsCap()
    ensures Start(ONE_SLOT, Held())
    ensures Do(Do(Do(Held(), BeginPass(ONE_SLOT)), ReadRow(2, Some(OwnerAt(1)), 10)), ReadRow(1, Some(OwnerAt(1)), 10)) == HeldJudged()
    ensures Do(HeldJudged(), DropStale(1)) == SlotFreed() && Do(Do(SlotFreed(), ScanDone), AdmitRow(2)) == SlotMoved()
    ensures AdmittedIds(Do(SlotMoved(), SaveWhole(1, HELD_ROW, Running)).rows) == {1, 2}
  {
    OneHolderWithinCaps(Held(), HELD_ROW);
    HolderExpired();
    HolderReleased();
    SlotMovesOn();
    SavedBack();
  }

  /** The pass that judged the holder of the first run stale releases it if its execution is recorded after the read and nobody reattaches in time. */
  lemma LiveExecutionReleased()
    ensures var w := Do(Judged(), Progress(1, Running, Some(EXECUTION), None));
      Recoverable(w.rows[1], 2) && Do(w, DropStale(1)).rows[1].slot == Released
  {
    assert Do(Judged(), Progress(1, Running, Some(EXECUTION), None)).rows[1] == LIVE_ROW;
  }

  lemma OneHolderWithinCaps(w: World, holder: Row)
    requires w == World(map[1 := holder, 2 := QUEUED_ROW], None, {}, map[]) && holder.slot == Admitted && holder.queuedAt.Some?
    ensures Start(ONE_SLOT, w)
  {
    assert AdmittedIds(w.rows) == {1} && AdmittedIds(w.rows) - {} == {1};
    forall workspace ensures |Within(w.rows, AdmittedIds(w.rows), workspace) - OverlookedIn(w.overlookedIn, workspace)| <= 1 {
      Bounded(Within(w.rows, AdmittedIds(w.rows), workspace) - OverlookedIn(w.overlookedIn, workspace), {1});
    }
  }

  // ---- The two calls a workflow makes ----

  datatype Outcome = Stored | Kept | OwnershipLost | Unschedulable | NotFound

  predicate MatchesOwner(r: Row, owner: Option<Parent>) {
    match owner
    case None => r.ownerStatus.None? && r.pendingUntil.Some? && r.generation == r.runGeneration
    case Some(o) => r.taskId == o.taskId && r.generation == o.generation && r.ownerStatus == Some(o.status)
  }

  /** The deadline is part of the admission's identity; only an owner may omit it. */
  predicate MatchesDeadline(r: Row, owner: Option<Parent>, expected: Option<int>) {
    if expected.None? then owner.Some? && r.expiresAt.None? else r.expiresAt == expected
  }

  /** The job rows, as one transaction sees them. */
  class JobTable {
    var rows: map<nat, Row>

    /** Enqueues the caller's job; an owner's job that has no row yet is inserted, unless the enqueue is refused. */
    method EnqueueForScheduling(id: nat, job: Row, owner: Option<Parent>, now: int, deadline: Option<int>, confirmed: string, supplied: Option<Identity>)
      returns (outcome: Outcome)
      modifies this
      ensures outcome == NotFound <==> id !in old(rows) && owner.None?
      ensures outcome != NotFound ==>
        var current := if id in old(rows) then old(rows)[id] else job;
        var e := if current.runGeneration == job.runGeneration then Enqueue(current, owner, now, deadline, confirmed, supplied) else None;
        && (outcome == Stored <==> e.Some?)
        && (outcome == Kept ==> current.slot == Admitted && SameEpisode(current, owner) && !Expired(current, now))
        && rows == (if e.Some? then old(rows)[id := CopyScheduling(current, e.value)] else if outcome == Kept then old(rows)[id := current] else old(rows))
        && (id in rows && rows[id].slot == Admitted ==> current.slot == Admitted)
      ensures outcome == NotFound ==> rows == old(rows)
    {
      if id !in rows && owner.None? {
        return NotFound;
      }
      var current := if id in rows then rows[id] else job;
      if current.runGeneration != job.runGeneration {
        return OwnershipLost;
      }
      var generation, status := current.runGeneration, None;
      if owner.Some? {
        generation, status := owner.value.generation, Some(owner.value.status);
        if current.taskId != owner.value.taskId {
          return OwnershipLost;
        }
      }
      if !Schedulable(current, owner, now, deadline) {
        return Unschedulable;
      }
      var reattach := confirmed != "";
      if reattach {
        var persisted := LiveIdentity(current, now);
        if owner.None? || status != Some(Running) || persisted.None? || supplied.None? || confirmed != persisted.value.uid || persisted != supplied {
          return OwnershipLost;
        }
        reattach := Recoverable(current, now);
      }
      var queuedAt := Some(now);
      if current.generation == generation && current.ownerStatus == status && current.queuedAt.Some? {
        if owner.Some? && status != Some(Running) && current.kind == Callback && current.slot in {Enqueued, Admitted} && !Expired(current, now) {
          return OwnershipLost;
        }
        queuedAt := current.queuedAt;
        if current.slot == Admitted && !Expired(current, now) {
          rows := rows[id := current];
          return Kept;
        }
      }
      var slot := Enqueued;
      if reattach {
        slot, queuedAt := Admitted, current.queuedAt;
      }
      rows := rows[id := current.(slot := slot, generation := generation, ownerStatus := status, queuedAt := queuedAt,
                                  expiresAt := deadline, cancelledByParent := false)];
      return Stored;
    }

    method ReleaseAdmission(id: nat, owner: Option<Parent>, expected: Option<int>, now: int) returns (outcome: Outcome)
      modifies this
      ensures outcome == NotFound <==> id !in old(rows)
      ensures outcome == OwnershipLost <==>
        id in old(rows) && (!MatchesOwner(old(rows)[id], owner) || !MatchesDeadline(old(rows)[id], owner, expected))
      ensures outcome != Stored ==> rows == old(rows)
      ensures outcome == Stored ==> id in old(rows) && rows == old(rows)[id := Vacated(old(rows)[id])] && !Recoverable(old(rows)[id], now)
      ensures outcome in {Stored, Kept} ==> id in rows && (rows[id].slot == Released || Recoverable(rows[id], now))
    {
      if id !in rows {
        return NotFound;
      }
      var row := rows[id];
      if !MatchesOwner(row, owner) || !MatchesDeadline(row, owner, expected) {
        return OwnershipLost;
      }
      if row.slot == Released || Recoverable(row, now) {
        return Kept;
      }
      rows := rows[id := Vacated(row)];
      return Stored;
    }
  }
}
