/**
  Sandboxes of evaluation trials: slots of an execution, start reservations of the cluster and
  operation leases.

  Every change of a row holds its execution's job row, except the reservation of a start, which
  holds only the scheduler's policy row and the sandbox row. A runner call reads its row without
  locking it and later writes every column back, so a reservation may fall in between.
 */
module Sandbox {
  import opened Common

  datatype State = Pending | Ready | Retained | Released | Failed

  /** A sandbox's id is derived from its execution and trial. */
  datatype Id = Id(execution: nat, trial: string)

  datatype Row = Row(
    state: State, slot: bool, start: bool, release: bool, uid: bool, pod: bool, attempts: nat,
    deadline: int, retainUntil: Option<int>, token: Option<nat>, until: Option<int>)

  /** What a lease holder does once its observation is complete. */
  datatype Change =
    | Settle | Lose | RetainFailed | CountAttempt | RecordUid | Confirm
    | CleanAbsent | CleanRetain | CleanWait | CleanDone

  /** A runner call between its read and its write; None when there was no row. */
  datatype Call = Call(id: Id, snapshot: Option<Row>)

  datatype Step =
    | Tick(later: nat)
    | BeginCall(id: Id)
    | EndCall(execution: nat, deadline: int, stopped: bool, releasing: Option<bool>)
    | Mutate(id: Id, token: nat, stopped: bool, change: Change)
    | Maintain(id: Id, stopped: bool, held: bool)
    | Isolate(id: Id)
    | ReserveStart(id: Id, token: nat, max: nat)

  /**
    `took` holds the intents that ever took a slot and `begun` the operations runner calls started.
    `lapsed` holds the intents whose start reservation a runner call wrote away, until they reserve
    again or end.
   */
  datatype World = World(rows: map<Id, Row>, calls: map<nat, Call>, now: int, issued: nat, took: set<Id>, begun: set<(Id, nat)>, lapsed: set<Id>)

  predicate Leased(r: Row, now: int) {
    r.until.Some? && now < r.until.value
  }

  function Unlease(r: Row): Row {
    r.(token := None, until := None)
  }

  /** Ends an intent; one that never asked the cluster for anything is released at once. */
  function Stop(r: Row, now: int): Row {
    if r.release || r.state == Released then r
    else if !r.uid && r.attempts == 0 then r.(release := true, start := false, retainUntil := Some(now + RETENTION), state := Released, slot := false)
    else r.(release := true, start := false, retainUntil := Some(now + RETENTION), state := Retained)
  }

  function SlotIds(rows: map<Id, Row>, execution: nat): set<Id> {
    set id | id in rows && id.execution == execution && rows[id].slot
  }

  function StartIds(rows: map<Id, Row>): set<Id> {
    set id | id in rows && rows[id].start
  }

  /** The runner asks to release a sandbox, with its results collected or not. */
  function Releasing(r: Row, now: int, releasing: Option<bool>): Row {
    if releasing.None? || r.release || r.state == Released then r
    else
      var q := Stop(r, now);
      if releasing.value && q.state != Released then q.(retainUntil := Some(now), state := State.Pending) else q
  }

  /** The part of a runner call before slots and leases. */
  function Requested(r: Row, now: int, stopped: bool, releasing: Option<bool>): Row {
    var q := Releasing(r, now, releasing);
    if stopped then Stop(q, now) else q
  }

  predicate MayAdvance(r: Row, now: int) {
    r.state != Released && (r.state != State.Failed || r.release) && !Leased(r, now)
  }

  /** Takes a slot for a live intent when the execution has one left, and leases the row for the next operation. */
  function Granted(r: Row, now: int, used: nat, limit: nat, token: nat): Row {
    if !MayAdvance(r, now) then r
    else
      var q := if !r.slot && !r.release && used < limit then r.(slot := true) else r;
      if q.slot || q.release then q.(token := Some(token), until := Some(now + OPERATION_LEASE)) else q
  }

  function Intent(deadline: int): Row {
    Row(State.Pending, false, false, false, false, false, 0, deadline, None, None, None)
  }

  function Applied(r: Row, now: int, change: Change): Row {
    match change
    case Settle => Unlease(if r.release then r else r.(state := State.Pending))
    case Lose => Unlease(r.(state := State.Failed, slot := false, start := false))
    case RetainFailed => Unlease(Stop(r, now).(state := State.Failed))
    case CountAttempt => if r.release then r else r.(attempts := r.attempts + 1)
    case RecordUid => r.(uid := true)
    case Confirm => Unlease(if r.release then r.(pod := true) else r.(pod := true, state := Ready, start := false))
    case CleanAbsent =>
      Unlease(if r.uid || r.attempts == 0 || r.deadline + RETENTION <= now then r.(state := Released, slot := false, start := false) else r.(state := State.Pending))
    case CleanRetain =>
      Unlease(if r.retainUntil.None? || r.retainUntil.value <= now then r.(state := State.Pending) else r.(state := Retained, start := false))
    case CleanWait => Unlease(r.(state := State.Pending))
    case CleanDone => Unlease(r.(state := Released, slot := false, start := false))
  }

  /** Cleanup begins only after the operation saw the release request, which is never withdrawn. */
  predicate Possible(r: Row, change: Change) {
    change in {CleanAbsent, CleanRetain, CleanWait, CleanDone} ==> r.release
  }

  predicate MutatePasses(w: World, id: Id, token: nat) {
    id in w.rows && w.rows[id].token == Some(token) && Leased(w.rows[id], w.now)
  }

  /** Its job row is free: no runner call of the execution is under way. */
  predicate Unlocked(w: World, id: Id) {
    id in w.rows && id.execution !in w.calls
  }

  /** Writes a row; a reservation that ends with the write is no longer outstanding. */
  function Write(w: World, id: Id, r: Row): World {
    w.(rows := w.rows[id := r], took := if r.slot then w.took + {id} else w.took,
       lapsed := if r.start || r.state != State.Pending || r.release then w.lapsed - {id} else w.lapsed)
  }

  function CallBase(c: Call, deadline: int): Row {
    if c.snapshot.Some? then c.snapshot.value else Intent(deadline)
  }

  function CallResult(w: World, limit: nat -> nat, s: Step): Row
    requires s.EndCall? && s.execution in w.calls
  {
    var c := w.calls[s.execution];
    Granted(Requested(CallBase(c, s.deadline), w.now, s.stopped, s.releasing), w.now,
            |SlotIds(w.rows, s.execution)|, limit(s.execution), w.issued)
  }

  /** The row a call wrote back, before a lapse is recorded. */
  function Installed(w: World, execution: nat, id: Id, q: Row): World {
    Write(w.(calls := w.calls - {execution}), id, q).(issued := w.issued + 1, begun := if q.token == Some(w.issued) then w.begun + {(id, w.issued)} else w.begun)
  }

  /** The call writes its whole row back; a reservation made since its read is lost. */
  function Put(w: World, s: Step, r: Row): World
    requires s.EndCall? && s.execution in w.calls
  {
    var c := w.calls[s.execution];
    if c.snapshot.None? && s.releasing.Some? then w.(calls := w.calls - {s.execution})
    else
      var lost := c.id in w.rows && w.rows[c.id].start && !CallBase(c, s.deadline).start && r.state == State.Pending && !r.release;
      var next := Installed(w, s.execution, c.id, r);
      if lost then next.(lapsed := w.lapsed + {c.id}) else next
  }

  function Finish(w: World, limit: nat -> nat, s: Step): World
    requires s.EndCall? && s.execution in w.calls
  {
    Put(w, s, CallResult(w, limit, s))
  }

  /** Maintenance stops an intent whose runner or execution is gone, and leases a released one for cleanup. */
  function Maintained(r: Row, now: int, stopped: bool, token: nat): Row {
    var q := if stopped then Stop(r, now) else r;
    if q.release && q.state != Released then q.(token := Some(token), until := Some(now + OPERATION_LEASE)) else q
  }

  predicate StartEligible(r: Row) {
    r.slot && !r.release && r.state != Released && r.state != State.Failed && !r.pod
  }

  /** What recovery means to store: a stopped sandbox without a lease, retained no longer than now. */
  function Isolated(r: Row, now: int): Row {
    r.(state := if r.state == Released then Released else Retained, release := true, retainUntil := Some(now), token := None, until := None)
  }

  /** What the generic update stores: it skips empty values, so those columns keep theirs. */
  function SkipEmpty(stored: Row, r: Row): Row {
    Row(r.state, stored.slot || r.slot, stored.start || r.start, stored.release || r.release, stored.uid || r.uid, stored.pod || r.pod,
        if r.attempts == 0 then stored.attempts else r.attempts, r.deadline,
        if r.retainUntil.None? then stored.retainUntil else r.retainUntil,
        if r.token.None? then stored.token else r.token, if r.until.None? then stored.until else r.until)
  }

  /** An operation reserves the start of its sandbox; the reservation does not look at its lease. */
  predicate Reserves(w: World, s: Step) {
    && s.ReserveStart? && (s.id, s.token) in w.begun && s.id in w.rows && StartEligible(w.rows[s.id])
    && !w.rows[s.id].start && |StartIds(w.rows)| < s.max
  }

  function Do(w: World, limit: nat -> nat, s: Step): World {
    match s
    case Tick(later) => w.(now := w.now + later)
    case BeginCall(id) =>
      if id.execution in w.calls then w
      else w.(calls := w.calls[id.execution := Call(id, if id in w.rows then Some(w.rows[id]) else None)])
    case EndCall(execution, _, _, _) => if execution in w.calls then Finish(w, limit, s) else w
    case Mutate(id, token, stopped, change) =>
      if !Unlocked(w, id) || !MutatePasses(w, id, token) then w
      else
        var r := if stopped then Stop(w.rows[id], w.now) else w.rows[id];
        if Possible(r, change) then Write(w, id, Applied(r, w.now, change)) else w
    case Maintain(id, stopped, held) =>
      if !Unlocked(w, id) || Leased(w.rows[id], w.now) || held then w
      else Write(w, id, Maintained(w.rows[id], w.now, stopped, w.issued)).(issued := w.issued + 1)
    case Isolate(id) =>
      if !Unlocked(w, id) || !w.rows[id].pod then w else Write(w, id, SkipEmpty(w.rows[id], Isolated(w.rows[id], w.now)))
    case ReserveStart(id, token, max) => if Reserves(w, s) then Write(w, id, w.rows[id].(start := true)) else w
  }

  function After(w: World, limit: nat -> nat, steps: seq<Step>, i: nat): World
    requires i <= |steps|
  {
    if i == 0 then w else Do(After(w, limit, steps, i - 1), limit, steps[i - 1])
  }

  /** A call's snapshot differs from its row at most by a reservation made since. */
  predicate SnapshotSound(w: World, execution: nat, c: Call) {
    && c.id.execution == execution
    && match c.snapshot
    case None => c.id !in w.rows
    case Some(r) => c.id in w.rows && (w.rows[c.id] == r || w.rows[c.id] == r.(start := true))
  }

  /** A slot that was given back is not asked for again. */
  predicate SlotSpent(r: Row) {
    r.slot || r.release || (r.state == State.Failed && r.token.None?)
  }

  ghost predicate RowsSound(w: World) {
    && (forall id :: id in w.rows ==> w.rows[id].token.Some? == w.rows[id].until.Some?)
    && (forall id :: id in w.rows && w.rows[id].token.Some? ==> w.rows[id].token.value < w.issued)
    && (forall id :: id in w.took ==> id in w.rows && SlotSpent(w.rows[id]))
    && (forall id :: id in w.rows && w.rows[id].slot ==> id in w.took)
  }

  ghost predicate CallsSound(w: World) {
    forall e :: e in w.calls ==> SnapshotSound(w, e, w.calls[e])
  }

  ghost predicate Good(w: World) {
    RowsSound(w) && CallsSound(w) && w.lapsed !! StartIds(w.rows)
  }

  /** What every change of a row preserves: a spent slot stays spent, and only a runner call of a live intent takes one. */
  predicate Keeps(r: Row, q: Row) {
    && q.token.Some? == q.until.Some?
    && (q.slot ==> r.slot) && (q.start ==> r.start) && (r.release ==> q.release)
    && (q.token == r.token || q.token.None?)
    && (SlotSpent(r) ==> SlotSpent(q))
  }

  lemma StopKeeps(r: Row, now: int)
    requires r.token.Some? == r.until.Some?
    ensures Keeps(r, Stop(r, now))
  {
  }

  lemma AppliedKeeps(r: Row, now: int, change: Change)
    requires r.token.Some? && r.until.Some? && Possible(r, change)
    ensures Keeps(r, Applied(r, now, change))
  {
    StopKeeps(r, now);
  }

  lemma RequestedKeeps(r: Row, now: int, stopped: bool, releasing: Option<bool>)
    requires r.token.Some? == r.until.Some?
    ensures Keeps(r, Requested(r, now, stopped, releasing))
  {
    StopKeeps(r, now);
    StopKeeps(Releasing(r, now, releasing), now);
  }

  /** A slot is taken only by an intent whose slot is not spent, and only below the limit. */
  lemma GrantedTakes(r: Row, now: int, used: nat, limit: nat, token: nat)
    requires r.token.Some? == r.until.Some?
    ensures var q := Granted(r, now, used, limit, token);
      && q.token.Some? == q.until.Some? && q.start == r.start && q.release == r.release && (SlotSpent(r) ==> SlotSpent(q))
      && (q.token == r.token || q.token == Some(token))
      && (q.slot && !r.slot ==> used < limit && !SlotSpent(r))
  {
  }

  /** Slots within each execution's concurrency and recorded reservations within the policy. */
  ghost predicate Capped(w: World, limit: nat -> nat, max: nat) {
    (forall e: nat :: |SlotIds(w.rows, e)| <= limit(e)) && |StartIds(w.rows)| <= max
  }

  /** Any sound state within the caps and without calls or lapses: the empty table, for one. */
  ghost predicate Start(w: World, limit: nat -> nat, max: nat) {
    Good(w) && Capped(w, limit, max) && w.calls == map[] && w.lapsed == {}
  }

  lemma PutSlots(rows: map<Id, Row>, id: Id, q: Row, e: nat)
    ensures |SlotIds(rows[id := q], e)| <= |SlotIds(rows, e)| + if e == id.execution && q.slot && !(id in rows && rows[id].slot) then 1 else 0
  {
    var before, after := SlotIds(rows, e), SlotIds(rows[id := q], e);
    if e == id.execution && q.slot && !(id in rows && rows[id].slot) {
      assert after == before + {id};
    } else {
      Bounded(after, before);
    }
  }

  lemma PutStarts(rows: map<Id, Row>, id: Id, q: Row)
    requires q.start ==> id in rows && rows[id].start
    ensures |StartIds(rows[id := q])| <= |StartIds(rows)|
  {
    Bounded(StartIds(rows[id := q]), StartIds(rows));
  }

  lemma WriteKeepsGood(w: World, id: Id, q: Row, issued: nat)
    requires Good(w) && Unlocked(w, id) && w.issued <= issued
    requires (q.slot ==> w.rows[id].slot) && q.token.Some? == q.until.Some? && (q.token.Some? ==> q.token.value < issued)
    requires SlotSpent(w.rows[id]) ==> SlotSpent(q)
    ensures Good(Write(w, id, q).(issued := issued))
  {
  }

  lemma WriteKeepsCaps(w: World, limit: nat -> nat, max: nat, id: Id, q: Row)
    requires Capped(w, limit, max) && id in w.rows && (q.slot ==> w.rows[id].slot) && (q.start ==> w.rows[id].start)
    ensures Capped(Write(w, id, q), limit, max)
  {
    forall e: nat ensures |SlotIds(w.rows[id := q], e)| <= limit(e) {
      PutSlots(w.rows, id, q, e);
    }
    PutStarts(w.rows, id, q);
  }

  /** What a runner call's result may differ in from the row it read. */
  predicate Follows(base: Row, q: Row, used: nat, limit: nat, issued: nat) {
    && q.token.Some? == q.until.Some? && (q.token == base.token || q.token.None? || q.token == Some(issued))
    && (q.start ==> base.start) && (SlotSpent(base) ==> SlotSpent(q))
    && (q.slot && !base.slot ==> used < limit && !SlotSpent(base))
  }

  lemma CallFollows(w: World, limit: nat -> nat, s: Step)
    requires s.EndCall? && s.execution in w.calls
    requires var base := CallBase(w.calls[s.execution], s.deadline); base.token.Some? == base.until.Some?
    ensures Follows(CallBase(w.calls[s.execution], s.deadline), CallResult(w, limit, s), |SlotIds(w.rows, s.execution)|, limit(s.execution), w.issued)
  {
    var base := CallBase(w.calls[s.execution], s.deadline);
    RequestedKeeps(base, w.now, s.stopped, s.releasing);
    GrantedTakes(Requested(base, w.now, s.stopped, s.releasing), w.now, |SlotIds(w.rows, s.execution)|, limit(s.execution), w.issued);
  }

  lemma InstalledKeepsGood(w: World, execution: nat, base: Row, q: Row, limit: nat)
    requires Good(w) && execution in w.calls && Follows(base, q, |SlotIds(w.rows, execution)|, limit, w.issued)
    requires w.calls[execution].snapshot == Some(base) || (w.calls[execution].snapshot.None? && !SlotSpent(base) && base.token.None?)
    ensures Good(Installed(w, execution, w.calls[execution].id, q))
    ensures var id := w.calls[execution].id; q.slot && !base.slot ==> id !in w.took
  {
    assert SnapshotSound(w, execution, w.calls[execution]);
  }

  lemma InstalledKeepsCaps(w: World, execution: nat, base: Row, q: Row, limit: nat -> nat, max: nat)
    requires Good(w) && Capped(w, limit, max) && execution in w.calls
    requires Follows(base, q, |SlotIds(w.rows, execution)|, limit(execution), w.issued)
    requires w.calls[execution].snapshot == Some(base) || (w.calls[execution].snapshot.None? && !base.slot && !base.start)
    ensures Capped(Installed(w, execution, w.calls[execution].id, q), limit, max)
  {
    var id := w.calls[execution].id;
    assert SnapshotSound(w, execution, w.calls[execution]);
    forall e: nat ensures |SlotIds(w.rows[id := q], e)| <= limit(e) {
      PutSlots(w.rows, id, q, e);
    }
    PutStarts(w.rows, id, q);
  }

  lemma PutKeepsGood(w: World, limit: nat -> nat, max: nat, s: Step, q: Row)
    requires Good(w) && Capped(w, limit, max) && s.EndCall? && s.execution in w.calls
    requires Follows(CallBase(w.calls[s.execution], s.deadline), q, |SlotIds(w.rows, s.execution)|, limit(s.execution), w.issued)
    ensures Good(Put(w, s, q)) && Capped(Put(w, s, q), limit, max)
    ensures q.slot && !CallBase(w.calls[s.execution], s.deadline).slot ==> w.calls[s.execution].id !in w.took
  {
    var c, base := w.calls[s.execution], CallBase(w.calls[s.execution], s.deadline);
    InstalledKeepsGood(w, s.execution, base, q, limit(s.execution));
    InstalledKeepsCaps(w, s.execution, base, q, limit, max);
  }

  lemma FinishKeepsGood(w: World, limit: nat -> nat, max: nat, s: Step)
    requires Good(w) && Capped(w, limit, max) && s.EndCall? && s.execution in w.calls
    ensures Good(Finish(w, limit, s)) && Capped(Finish(w, limit, s), limit, max)
    ensures CallResult(w, limit, s).slot && !CallBase(w.calls[s.execution], s.deadline).slot ==> w.calls[s.execution].id !in w.took
  {
    assert SnapshotSound(w, s.execution, w.calls[s.execution]);
    CallFollows(w, limit, s);
    PutKeepsGood(w, limit, max, s, CallResult(w, limit, s));
  }

  lemma StartKeepsCaps(w: World, limit: nat -> nat, max: nat, id: Id)
    requires Capped(w, limit, max) && id in w.rows && !w.rows[id].start && |StartIds(w.rows)| < max
    ensures Capped(Write(w, id, w.rows[id].(start := true)), limit, max)
  {
    var w' := Write(w, id, w.rows[id].(start := true));
    forall e: nat ensures |SlotIds(w'.rows, e)| <= limit(e) {
      PutSlots(w.rows, id, w.rows[id].(start := true), e);
    }
    assert StartIds(w'.rows) == StartIds(w.rows) + {id};
  }

  lemma StartKeepsGood(w: World, id: Id)
    requires Good(w) && id in w.rows && w.rows[id].slot
    ensures Good(Write(w, id, w.rows[id].(start := true)))
  {
  }

  lemma ReserveKeepsGood(w: World, limit: nat -> nat, max: nat, s: Step)
    requires Good(w) && Capped(w, limit, max) && s.ReserveStart? && s.max <= max
    ensures Good(Do(w, limit, s)) && Capped(Do(w, limit, s), limit, max)
  {
    if Do(w, limit, s) != w {
      StartKeepsCaps(w, limit, max, s.id);
      StartKeepsGood(w, s.id);
    }
  }

  lemma MutateKeepsGood(w: World, limit: nat -> nat, max: nat, s: Step)
    requires Good(w) && Capped(w, limit, max) && s.Mutate?
    ensures Good(Do(w, limit, s)) && Capped(Do(w, limit, s), limit, max)
  {
    if Unlocked(w, s.id) && MutatePasses(w, s.id, s.token) {
      StopKeeps(w.rows[s.id], w.now);
      var r := if s.stopped then Stop(w.rows[s.id], w.now) else w.rows[s.id];
      if Possible(r, s.change) {
        AppliedKeeps(r, w.now, s.change);
        WriteKeepsGood(w, s.id, Applied(r, w.now, s.change), w.issued);
        WriteKeepsCaps(w, limit, max, s.id, Applied(r, w.now, s.change));
        assert Write(w, s.id, Applied(r, w.now, s.change)).(issued := w.issued) == Do(w, limit, s);
      }
    }
  }

  lemma MaintainKeepsGood(w: World, limit: nat -> nat, max: nat, s: Step)
    requires Good(w) && Capped(w, limit, max) && s.Maintain?
    ensures Good(Do(w, limit, s)) && Capped(Do(w, limit, s), limit, max)
  {
    if Unlocked(w, s.id) && !Leased(w.rows[s.id], w.now) && !s.held {
      var q := Maintained(w.rows[s.id], w.now, s.stopped, w.issued);
      MaintainedFollows(w.rows[s.id], w.now, s.stopped, w.issued);
      WriteKeepsGood(w, s.id, q, w.issued + 1);
      WriteKeepsCaps(w, limit, max, s.id, q);
    }
  }

  lemma MaintainedFollows(r: Row, now: int, stopped: bool, token: nat)
    requires r.token.Some? == r.until.Some?
    ensures var q := Maintained(r, now, stopped, token);
      && q.token.Some? == q.until.Some? && (q.token == r.token || q.token == Some(token))
      && (q.slot ==> r.slot) && (q.start ==> r.start) && (SlotSpent(r) ==> SlotSpent(q))
  {
    StopKeeps(r, now);
  }

  lemma IsolateKeepsGood(w: World, limit: nat -> nat, max: nat, s: Step)
    requires Good(w) && Capped(w, limit, max) && s.Isolate?
    ensures Good(Do(w, limit, s)) && Capped(Do(w, limit, s), limit, max)
  {
    if Unlocked(w, s.id) && w.rows[s.id].pod {
      var q := Do(w, limit, s).rows[s.id];
      WriteKeepsGood(w, s.id, q, w.issued);
      WriteKeepsCaps(w, limit, max, s.id, q);
    }
  }

  lemma StepKeepsGood(w: World, limit: nat -> nat, max: nat, s: Step)
    requires Good(w) && Capped(w, limit, max) && (s.ReserveStart? ==> s.max <= max)
    ensures Good(Do(w, limit, s)) && Capped(Do(w, limit, s), limit, max)
  {
    match s
    case EndCall(_, _, _, _) =>
      if s.execution in w.calls {
        FinishKeepsGood(w, limit, max, s);
      }
    case Mutate(_, _, _, _) => MutateKeepsGood(w, limit, max, s);
    case Maintain(_, _, _) => MaintainKeepsGood(w, limit, max, s);
    case Isolate(_) => IsolateKeepsGood(w, limit, max, s);
    case ReserveStart(_, _, _) => ReserveKeepsGood(w, limit, max, s);
    case _ =>
  }

  /** The policy may change; no reservation is made under one above `max`. */
  predicate PoliciesWithin(max: nat, steps: seq<Step>) {
    forall i :: 0 <= i < |steps| && steps[i].ReserveStart? ==> steps[i].max <= max
  }

  lemma {:induction false} RunKeepsGood(w: World, limit: nat -> nat, max: nat, steps: seq<Step>, i: nat)
    requires Start(w, limit, max) && PoliciesWithin(max, steps) && i <= |steps|
    ensures Good(After(w, limit, steps, i)) && Capped(After(w, limit, steps, i), limit, max)
    decreases i
  {
    if i > 0 {
      RunKeepsGood(w, limit, max, steps, i - 1);
      StepKeepsGood(After(w, limit, steps, i - 1), limit, max, steps[i - 1]);
    }
  }

  /**
    In every state of every run, an execution holds at most as many slots as its concurrency, and
    at most `max` start reservations are recorded.
   */
  lemma {:induction false} CapsHold(w: World, limit: nat -> nat, max: nat, steps: seq<Step>, i: nat, execution: nat)
    requires Start(w, limit, max) && PoliciesWithin(max, steps) && i <= |steps|
    ensures var here := After(w, limit, steps, i);
      |SlotIds(here.rows, execution)| <= limit(execution) && |StartIds(here.rows)| <= max
  {
    RunKeepsGood(w, limit, max, steps, i);
  }

  // ---- A slot is taken once ----

  predicate HoldsSlot(w: World, id: Id) {
    id in w.rows && w.rows[id].slot
  }

  predicate TakesSlot(before: World, after: World, id: Id) {
    !HoldsSlot(before, id) && HoldsSlot(after, id)
  }

  /** Operations, maintenance, isolation and reservations never take a slot. */
  lemma OnlyCallsTakeSlots(w: World, limit: nat -> nat, s: Step, id: Id)
    requires Good(w) && !s.EndCall?
    ensures !TakesSlot(w, Do(w, limit, s), id)
  {
    if s.Mutate? && Unlocked(w, s.id) && MutatePasses(w, s.id, s.token) {
      StopKeeps(w.rows[s.id], w.now);
      var r := if s.stopped then Stop(w.rows[s.id], w.now) else w.rows[s.id];
      if Possible(r, s.change) {
        AppliedKeeps(r, w.now, s.change);
      }
    }
  }

  lemma CallTakesFirstSlot(w: World, limit: nat -> nat, max: nat, s: Step, id: Id)
    requires Good(w) && Capped(w, limit, max) && s.EndCall? && s.execution in w.calls && TakesSlot(w, Finish(w, limit, s), id)
    ensures id !in w.took && id in Finish(w, limit, s).took
  {
    FinishKeepsGood(w, limit, max, s);
    assert SnapshotSound(w, s.execution, w.calls[s.execution]);
    PutTakes(w, s, CallResult(w, limit, s), id);
  }

  lemma PutTakes(w: World, s: Step, q: Row, id: Id)
    requires Good(w) && s.EndCall? && s.execution in w.calls && TakesSlot(w, Put(w, s, q), id)
    ensures id == w.calls[s.execution].id && q.slot && !CallBase(w.calls[s.execution], s.deadline).slot && id in Put(w, s, q).took
  {
    assert SnapshotSound(w, s.execution, w.calls[s.execution]);
  }

  lemma TakesFirstSlot(w: World, limit: nat -> nat, max: nat, s: Step, id: Id)
    requires Good(w) && Capped(w, limit, max) && TakesSlot(w, Do(w, limit, s), id)
    ensures id !in w.took && id in Do(w, limit, s).took
  {
    if !s.EndCall? {
      OnlyCallsTakeSlots(w, limit, s, id);
    } else if s.execution in w.calls {
      CallTakesFirstSlot(w, limit, max, s, id);
    }
  }

  lemma {:induction false} TookGrows(w: World, limit: nat -> nat, steps: seq<Step>, i: nat, j: nat)
    requires i <= j <= |steps|
    ensures After(w, limit, steps, i).took <= After(w, limit, steps, j).took
    decreases j
  {
    if i < j {
      TookGrows(w, limit, steps, i, j - 1);
    }
  }

  lemma TakenAt(w: World, limit: nat -> nat, max: nat, steps: seq<Step>, i: nat, id: Id)
    requires Start(w, limit, max) && PoliciesWithin(max, steps) && i < |steps|
    requires TakesSlot(After(w, limit, steps, i), After(w, limit, steps, i + 1), id)
    ensures id !in After(w, limit, steps, i).took && id in After(w, limit, steps, i + 1).took
  {
    RunKeepsGood(w, limit, max, steps, i);
    TakesFirstSlot(After(w, limit, steps, i), limit, max, steps[i], id);
  }

  lemma NotTakenAgain(w: World, limit: nat -> nat, max: nat, steps: seq<Step>, i: nat, j: nat, id: Id)
    requires Start(w, limit, max) && PoliciesWithin(max, steps) && i <= j < |steps| && id in After(w, limit, steps, i).took
    ensures !TakesSlot(After(w, limit, steps, j), After(w, limit, steps, j + 1), id)
  {
    TookGrows(w, limit, steps, i, j);
    if TakesSlot(After(w, limit, steps, j), After(w, limit, steps, j + 1), id) {
      TakenAt(w, limit, max, steps, j, id);
    }
  }

  /** No intent ever takes a slot a second time, however its first one was given back. */
  lemma {:induction false} SlotTakenOnce(w: World, limit: nat -> nat, max: nat, steps: seq<Step>, i: nat, j: nat, id: Id)
    requires Start(w, limit, max) && PoliciesWithin(max, steps) && i < j < |steps|
    requires TakesSlot(After(w, limit, steps, i), After(w, limit, steps, i + 1), id)
    ensures !TakesSlot(After(w, limit, steps, j), After(w, limit, steps, j + 1), id)
  {
    TakenAt(w, limit, max, steps, i, id);
    NotTakenAgain(w, limit, max, steps, i + 1, j, id);
  }

  // ---- Slots and reservations are given back ----

  /** Only an intent that is still starting holds a reservation, a released one holds nothing, and states mean what they say. */
  predicate Tidy(r: Row) {
    && (r.start ==> r.slot && !r.release && !r.pod && r.state == State.Pending)
    && (r.state == Released ==> !r.slot)
    && (r.state == Ready ==> r.pod)
    && (r.state == Retained ==> r.release)
  }

  lemma CallKeepsTidy(r: Row, now: int, stopped: bool, releasing: Option<bool>, used: nat, limit: nat, token: nat)
    requires Tidy(r)
    ensures Tidy(Granted(Requested(r, now, stopped, releasing), now, used, limit, token))
  {
    assert Tidy(Requested(r, now, stopped, releasing));
  }

  lemma AppliedKeepsTidy(r: Row, now: int, change: Change)
    requires Tidy(r) && Possible(r, change)
    ensures Tidy(Applied(r, now, change))
  {
  }

  ghost predicate AllTidy(w: World) {
    && (forall id :: id in w.rows ==> Tidy(w.rows[id]))
    && (forall e :: e in w.calls && w.calls[e].snapshot.Some? ==> Tidy(w.calls[e].snapshot.value))
  }

  lemma FinishKeepsTidy(w: World, limit: nat -> nat, s: Step)
    requires AllTidy(w) && s.EndCall? && s.execution in w.calls
    ensures AllTidy(Finish(w, limit, s))
  {
    CallKeepsTidy(CallBase(w.calls[s.execution], s.deadline), w.now, s.stopped, s.releasing,
                  |SlotIds(w.rows, s.execution)|, limit(s.execution), w.issued);
    assert Tidy(CallResult(w, limit, s));
  }

  lemma StepKeepsTidy(w: World, limit: nat -> nat, s: Step)
    requires AllTidy(w)
    ensures AllTidy(Do(w, limit, s))
  {
    match s
    case EndCall(execution, _, _, _) =>
      if execution in w.calls {
        FinishKeepsTidy(w, limit, s);
      }
    case Mutate(id, token, stopped, change) =>
      if Unlocked(w, id) && MutatePasses(w, id, token) {
        var r := if stopped then Stop(w.rows[id], w.now) else w.rows[id];
        if Possible(r, change) {
          AppliedKeepsTidy(r, w.now, change);
        }
      }
    case _ =>
  }

  /**
    In every run a start reservation is held only by an intent that has its slot and is still
    starting: becoming ready, stopping, failing and cleanup all give it back, and release gives
    back the slot.
   */
  lemma {:induction false} NothingLeaks(w: World, limit: nat -> nat, steps: seq<Step>, i: nat)
    requires AllTidy(w) && i <= |steps|
    ensures AllTidy(After(w, limit, steps, i))
    decreases i
  {
    if i > 0 {
      NothingLeaks(w, limit, steps, i - 1);
      StepKeepsTidy(After(w, limit, steps, i - 1), limit, steps[i - 1]);
    }
  }

  // ---- Leases ----

  /** The token was issued and the row no longer carries it. */
  predicate Lost(w: World, id: Id, token: nat) {
    token < w.issued && id in w.rows && w.rows[id].token != Some(token)
  }

  lemma CallKeepsLost(w: World, limit: nat -> nat, s: Step, id: Id, token: nat)
    requires Good(w) && Lost(w, id, token) && s.EndCall? && s.execution in w.calls
    ensures Lost(Finish(w, limit, s), id, token)
  {
    assert SnapshotSound(w, s.execution, w.calls[s.execution]);
    CallFollows(w, limit, s);
    InstalledKeepsLost(w, s.execution, CallBase(w.calls[s.execution], s.deadline), CallResult(w, limit, s), limit(s.execution), id, token);
  }

  lemma InstalledKeepsLost(w: World, execution: nat, base: Row, q: Row, limit: nat, id: Id, token: nat)
    requires Good(w) && Lost(w, id, token) && execution in w.calls && Follows(base, q, |SlotIds(w.rows, execution)|, limit, w.issued)
    requires w.calls[execution].snapshot == Some(base) || (w.calls[execution].snapshot.None? && base.token.None?)
    ensures Lost(Installed(w, execution, w.calls[execution].id, q), id, token)
  {
    assert SnapshotSound(w, execution, w.calls[execution]);
  }

  lemma MutateKeepsLost(w: World, limit: nat -> nat, s: Step, id: Id, token: nat)
    requires Good(w) && Lost(w, id, token) && s.Mutate?
    ensures Lost(Do(w, limit, s), id, token)
  {
    if s.id == id && Unlocked(w, id) && MutatePasses(w, id, s.token) {
      StopKeeps(w.rows[id], w.now);
      var r := if s.stopped then Stop(w.rows[id], w.now) else w.rows[id];
      if Possible(r, s.change) {
        AppliedKeeps(r, w.now, s.change);
      }
    }
  }

  lemma LostStays(w: World, limit: nat -> nat, s: Step, id: Id, token: nat)
    requires Good(w) && Lost(w, id, token)
    ensures Lost(Do(w, limit, s), id, token)
  {
    match s
    case EndCall(execution, _, _, _) =>
      if execution in w.calls {
        CallKeepsLost(w, limit, s, id, token);
      }
    case Mutate(_, _, _, _) => MutateKeepsLost(w, limit, s, id, token);
    case _ =>
  }

  /** An operation whose lease was replaced or given up never commits again. */
  lemma {:induction false} LostLeaseNeverCommits(w: World, limit: nat -> nat, max: nat, steps: seq<Step>, i: nat, j: nat, id: Id, token: nat)
    requires Start(w, limit, max) && PoliciesWithin(max, steps) && i <= j <= |steps| && Lost(After(w, limit, steps, i), id, token)
    ensures Lost(After(w, limit, steps, j), id, token) && !MutatePasses(After(w, limit, steps, j), id, token)
    decreases j
  {
    if i < j {
      LostLeaseNeverCommits(w, limit, max, steps, i, j - 1, id, token);
      RunKeepsGood(w, limit, max, steps, j - 1);
      LostStays(After(w, limit, steps, j - 1), limit, steps[j - 1], id, token);
    }
  }

  /** Isolating a sandbox for recovery takes no lease away: exactly the operations that could commit before still can. */
  lemma IsolationKeepsLease(w: World, limit: nat -> nat, id: Id, other: Id, token: nat)
    ensures MutatePasses(Do(w, limit, Isolate(id)), other, token) <==> MutatePasses(w, other, token)
  {
  }

  // ---- Retention ----

  /** Once a release is requested, every step but another isolation leaves the retention as it is. */
  lemma ReleaseFreezesRetention(w: World, limit: nat -> nat, s: Step, id: Id)
    requires Good(w) && id in w.rows && w.rows[id].release
    ensures id in Do(w, limit, s).rows && Do(w, limit, s).rows[id].release
    ensures s != Isolate(id) ==> Do(w, limit, s).rows[id].retainUntil == w.rows[id].retainUntil
    ensures s == Isolate(id) ==> Do(w, limit, s).rows[id].retainUntil in {w.rows[id].retainUntil, Some(w.now)}
  {
    match s
    case EndCall(execution, _, _, _) =>
      if execution in w.calls {
        CallFreezesRetention(w, limit, s, id);
      }
    case Mutate(_, _, _, change) => ChangeFreezesRetention(w.rows[id], w.now, change);
    case _ =>
  }

  lemma ChangeFreezesRetention(r: Row, now: int, change: Change)
    requires r.release
    ensures Stop(r, now) == r && Applied(r, now, change).retainUntil == r.retainUntil && Applied(r, now, change).release
  {
  }

  lemma CallFreezesRetention(w: World, limit: nat -> nat, s: Step, id: Id)
    requires Good(w) && id in w.rows && w.rows[id].release && s.EndCall? && s.execution in w.calls
    ensures id in Finish(w, limit, s).rows && Finish(w, limit, s).rows[id].release
    ensures Finish(w, limit, s).rows[id].retainUntil == w.rows[id].retainUntil
  {
    var c := w.calls[s.execution];
    assert SnapshotSound(w, s.execution, c);
    if c.id == id {
      var base := CallBase(c, s.deadline);
      assert Requested(base, w.now, s.stopped, s.releasing) == base;
    }
  }

  /** The retention of the sandbox is over and its release requested. */
  predicate Over(w: World, id: Id) {
    id in w.rows && w.rows[id].release && w.rows[id].retainUntil.Some? && w.rows[id].retainUntil.value <= w.now
  }

  lemma OverStays(w: World, limit: nat -> nat, s: Step, id: Id)
    requires Good(w) && Over(w, id)
    ensures Over(Do(w, limit, s), id)
  {
    ReleaseFreezesRetention(w, limit, s, id);
    assert Do(w, limit, s).now >= w.now;
  }

  lemma {:induction false} OverForever(w: World, limit: nat -> nat, max: nat, steps: seq<Step>, i: nat, j: nat, id: Id)
    requires Start(w, limit, max) && PoliciesWithin(max, steps) && i <= j <= |steps| && Over(After(w, limit, steps, i), id)
    ensures Over(After(w, limit, steps, j), id)
    decreases j
  {
    if i < j {
      OverForever(w, limit, max, steps, i, j - 1, id);
      RunKeepsGood(w, limit, max, steps, j - 1);
      OverStays(After(w, limit, steps, j - 1), limit, steps[j - 1], id);
    }
  }

  /**
    An isolated sandbox is never retained any longer: in every later state its retention is over, so
    a cleanup operation, though its lease may still commit, cannot take the branch that extends it.
   */
  lemma {:induction false} IsolationEndsRetention(w: World, limit: nat -> nat, max: nat, steps: seq<Step>, i: nat, j: nat, id: Id)
    requires Start(w, limit, max) && PoliciesWithin(max, steps) && i < j <= |steps| && steps[i] == Isolate(id)
    requires Unlocked(After(w, limit, steps, i), id) && After(w, limit, steps, i).rows[id].pod
    ensures var here := After(w, limit, steps, j);
      Over(here, id) && Applied(here.rows[id], here.now, CleanRetain).state == State.Pending
  {
    assert Over(After(w, limit, steps, i + 1), id);
    OverForever(w, limit, max, steps, i + 1, j, id);
  }

  // ---- Outstanding starts ----

  /** Sandboxes an operation was told to start and that are neither ready nor ended, recorded or not. */
  function Outstanding(w: World): set<Id> {
    StartIds(w.rows) + w.lapsed
  }

  /** A runner call loses a reservation exactly when one was made since it read its row and its own result leaves the sandbox starting. */
  lemma LapsesIff(w: World, limit: nat -> nat, s: Step)
    requires Good(w) && s.EndCall? && s.execution in w.calls && w.calls[s.execution].snapshot.Some? && w.calls[s.execution].id in w.rows
    ensures var c := w.calls[s.execution]; var r := CallResult(w, limit, s);
      c.id in Finish(w, limit, s).lapsed - w.lapsed <==> w.rows[c.id] != c.snapshot.value && r.state == State.Pending && !r.release
  {
    assert SnapshotSound(w, s.execution, w.calls[s.execution]);
    PutLapsesIff(w, s, CallResult(w, limit, s));
  }

  lemma PutLapsesIff(w: World, s: Step, r: Row)
    requires Good(w) && s.EndCall? && s.execution in w.calls && w.calls[s.execution].snapshot.Some? && w.calls[s.execution].id in w.rows
    ensures var c := w.calls[s.execution];
      c.id in Put(w, s, r).lapsed - w.lapsed <==> w.rows[c.id] != c.snapshot.value && r.state == State.Pending && !r.release
  {
    assert SnapshotSound(w, s.execution, w.calls[s.execution]);
    assert w.rows[w.calls[s.execution].id].start ==> w.calls[s.execution].id in StartIds(w.rows);
  }

  lemma FinishAddsNoStart(w: World, limit: nat -> nat, s: Step)
    requires Good(w) && s.EndCall? && s.execution in w.calls
    ensures Outstanding(Finish(w, limit, s)) <= Outstanding(w)
  {
    assert SnapshotSound(w, s.execution, w.calls[s.execution]);
    CallFollows(w, limit, s);
    PutAddsNoStart(w, s, CallResult(w, limit, s));
  }

  lemma PutAddsNoStart(w: World, s: Step, r: Row)
    requires Good(w) && s.EndCall? && s.execution in w.calls && (r.start ==> CallBase(w.calls[s.execution], s.deadline).start)
    ensures Outstanding(Put(w, s, r)) <= Outstanding(w)
  {
    assert SnapshotSound(w, s.execution, w.calls[s.execution]);
    var id := w.calls[s.execution].id;
    forall other | other in Outstanding(Put(w, s, r)) ensures other in Outstanding(w) {
      if other == id && id in w.rows && w.rows[id].start {
        assert id in StartIds(w.rows);
      }
    }
  }

  /** Only a committed reservation adds an outstanding start. */
  lemma OnlyReservationsAdd(w: World, limit: nat -> nat, s: Step)
    requires Good(w) && !Reserves(w, s)
    ensures Outstanding(Do(w, limit, s)) <= Outstanding(w)
  {
    match s
    case EndCall(execution, _, _, _) =>
      if execution in w.calls {
        FinishAddsNoStart(w, limit, s);
      }
    case Mutate(id, token, stopped, change) =>
      if Unlocked(w, id) && MutatePasses(w, id, token) {
        StopKeeps(w.rows[id], w.now);
        var r := if stopped then Stop(w.rows[id], w.now) else w.rows[id];
        if Possible(r, change) {
          AppliedKeeps(r, w.now, change);
        }
      }
    case Maintain(id, stopped, _) =>
      if Unlocked(w, id) {
        MaintainedFollows(w.rows[id], w.now, stopped, w.issued);
      }
    case _ =>
  }

  lemma StepExceedsIff(w: World, limit: nat -> nat, s: Step, bound: nat)
    requires Good(w) && |Outstanding(w)| <= bound
    ensures |Outstanding(Do(w, limit, s))| > bound <==> Reserves(w, s) && |w.lapsed - {s.id}| >= bound - |StartIds(w.rows)|
  {
    if !Reserves(w, s) {
      OnlyReservationsAdd(w, limit, s);
      Bounded(Outstanding(Do(w, limit, s)), Outstanding(w));
    } else {
      var w' := Do(w, limit, s);
      assert StartIds(w'.rows) == StartIds(w.rows) + {s.id} && w'.lapsed == w.lapsed - {s.id};
      assert |Outstanding(w')| == |StartIds(w'.rows)| + |w'.lapsed|;
    }
  }

  /** Over any run, a step takes the outstanding starts above a bound exactly when it reserves one while lapsed starts fill the room below it. */
  lemma {:induction false} StartsExceedIff(w: World, limit: nat -> nat, max: nat, steps: seq<Step>, i: nat, bound: nat)
    requires Start(w, limit, max) && PoliciesWithin(max, steps) && i < |steps| && |Outstanding(After(w, limit, steps, i))| <= bound
    ensures var here := After(w, limit, steps, i);
      |Outstanding(After(w, limit, steps, i + 1))| > bound <==>
        Reserves(here, steps[i]) && |here.lapsed - {steps[i].id}| >= bound - |StartIds(here.rows)|
  {
    RunKeepsGood(w, limit, max, steps, i);
    StepExceedsIff(After(w, limit, steps, i), limit, steps[i], bound);
  }

  /** The first `i` steps reserve no start of a row while a runner call on that row is between its read and its write. */
  predicate Quiet(w: World, limit: nat -> nat, steps: seq<Step>, i: nat)
    requires i <= |steps|
  {
    i > 0 ==> Quiet(w, limit, steps, i - 1) && !ReservesInCall(After(w, limit, steps, i - 1), steps[i - 1])
  }

  predicate ReservesInCall(w: World, s: Step) {
    Reserves(w, s) && s.id.execution in w.calls && w.calls[s.id.execution].id == s.id
  }

  /** Every call still sees the row it read, and nothing has lapsed. */
  ghost predicate Exact(w: World) {
    && w.lapsed == {}
    && forall e :: e in w.calls ==>
         && w.calls[e].id.execution == e
         && w.calls[e].snapshot == if w.calls[e].id in w.rows then Some(w.rows[w.calls[e].id]) else None
  }

  lemma StepKeepsExact(w: World, limit: nat -> nat, s: Step)
    requires Exact(w) && !ReservesInCall(w, s)
    ensures Exact(Do(w, limit, s))
  {
    if s.EndCall? && s.execution in w.calls {
      PutKeepsExact(w, s, CallResult(w, limit, s));
    }
  }

  lemma PutKeepsExact(w: World, s: Step, r: Row)
    requires Exact(w) && s.EndCall? && s.execution in w.calls
    ensures Exact(Put(w, s, r))
  {
  }

  lemma {:induction false} QuietKeepsExact(w: World, limit: nat -> nat, steps: seq<Step>, i: nat)
    requires Exact(w) && i <= |steps| && Quiet(w, limit, steps, i)
    ensures Exact(After(w, limit, steps, i))
    decreases i
  {
    if i > 0 {
      QuietKeepsExact(w, limit, steps, i - 1);
      StepKeepsExact(After(w, limit, steps, i - 1), limit, steps[i - 1]);
    }
  }

  /** If no reservation of a row commits during a runner call on that row, outstanding starts stay within the policy. */
  lemma {:induction false} QuietRunsKeepPolicy(w: World, limit: nat -> nat, max: nat, steps: seq<Step>, i: nat)
    requires Start(w, limit, max) && PoliciesWithin(max, steps) && i <= |steps| && Quiet(w, limit, steps, i)
    ensures |Outstanding(After(w, limit, steps, i))| <= max
  {
    QuietKeepsExact(w, limit, steps, i);
    RunKeepsGood(w, limit, max, steps, i);
    assert Outstanding(After(w, limit, steps, i)) == StartIds(After(w, limit, steps, i).rows);
  }

  // ---- A lapse lets one more sandbox start than the policy allows ----

  const FIRST := Id(1, "a")
  const SECOND := Id(2, "a")
  const NOTHING := World(map[], map[], 0, 0, {}, {}, {})

  function LeasedBy(token: nat): Row {
    Intent(1000).(slot := true, token := Some(token), until := Some(OPERATION_LEASE))
  }

  /** Each of two executions has one sandbox with a slot, under an operation. */
  function TwoLeased(): World {
    World(map[FIRST := LeasedBy(0), SECOND := LeasedBy(1)], map[], 0, 2, {FIRST, SECOND}, {(FIRST, 0), (SECOND, 1)}, {})
  }

  lemma CallLeases(limit: nat -> nat, w: World, id: Id)
    requires id.execution !in w.calls && id !in w.rows && w.now == 0 && limit(id.execution) >= 1 && SlotIds(w.rows, id.execution) == {} && w.lapsed == {}
    ensures Do(Do(w, limit, BeginCall(id)), limit, EndCall(id.execution, 1000, false, None))
         == w.(rows := w.rows[id := LeasedBy(w.issued)], issued := w.issued + 1, took := w.took + {id}, begun := w.begun + {(id, w.issued)})
  {
    var w1 := w.(calls := w.calls[id.execution := Call(id, None)]);
    assert Do(w, limit, BeginCall(id)) == w1;
    assert CallResult(w1, limit, EndCall(id.execution, 1000, false, None)) == LeasedBy(w.issued);
    assert w1.calls - {id.execution} == w.calls && w.lapsed - {id} == {};
  }

  lemma BothLeased(limit: nat -> nat)
    requires limit(1) >= 1 && limit(2) >= 1
    ensures Do(Do(Do(Do(NOTHING, limit, BeginCall(FIRST)), limit, EndCall(1, 1000, false, None)), limit, BeginCall(SECOND)), limit, EndCall(2, 1000, false, None))
         == TwoLeased()
  {
    assert SlotIds(NOTHING.rows, 1) == {};
    CallLeases(limit, NOTHING, FIRST);
    var w := World(map[FIRST := LeasedBy(0)], map[], 0, 1, {FIRST}, {(FIRST, 0)}, {});
    assert NOTHING.rows[FIRST := LeasedBy(0)] == w.rows && NOTHING.took + {FIRST} == w.took && NOTHING.begun + {(FIRST, 0)} == w.begun;
    assert SlotIds(w.rows, 2) == {};
    CallLeases(limit, w, SECOND);
    assert w.rows[SECOND := LeasedBy(1)] == TwoLeased().rows && w.took + {SECOND} == TwoLeased().took && w.begun + {(SECOND, 1)} == TwoLeased().begun;
  }

  /** A second runner call on the first sandbox reads its row and, after its operation reserved the start, writes the row back. */
  function Overwritten(limit: nat -> nat): World {
    Do(Do(Do(TwoLeased(), limit, BeginCall(FIRST)), limit, ReserveStart(FIRST, 0, 1)), limit, EndCall(1, 1000, false, None))
  }

  lemma ReservationWrittenAway(limit: nat -> nat)
    ensures Overwritten(limit) == TwoLeased().(issued := 3, lapsed := {FIRST})
  {
    var w := TwoLeased();
    var w1 := w.(calls := map[1 := Call(FIRST, Some(LeasedBy(0)))]);
    assert Do(w, limit, BeginCall(FIRST)) == w1;
    var w2 := w1.(rows := map[FIRST := LeasedBy(0).(start := true), SECOND := LeasedBy(1)]);
    assert StartIds(w1.rows) == {} && w1.took + {FIRST} == w1.took && w1.lapsed - {FIRST} == {};
    assert Do(w1, limit, ReserveStart(FIRST, 0, 1)) == w2;
    var s := EndCall(1, 1000, false, None);
    assert CallResult(w2, limit, s) == LeasedBy(0);
    assert w2.calls - {1} == map[] && w2.lapsed + {FIRST} == {FIRST} && w2.rows[FIRST := LeasedBy(0)] == w.rows;
    assert Put(w2, s, LeasedBy(0)) == w.(issued := 3, lapsed := {FIRST});
  }

  /** After that the second sandbox is admitted too: two starts are outstanding under a policy of one. */
  lemma LapseExceedsPolicy(limit: nat -> nat)
    requires limit(1) >= 1 && limit(2) >= 1
    ensures Do(Do(Do(Do(NOTHING, limit, BeginCall(FIRST)), limit, EndCall(1, 1000, false, None)), limit, BeginCall(SECOND)), limit, EndCall(2, 1000, false, None))
         == TwoLeased()
    ensures Outstanding(Do(Overwritten(limit), limit, ReserveStart(SECOND, 1, 1))) == {FIRST, SECOND}
  {
    BothLeased(limit);
    ReservationWrittenAway(limit);
    SecondStarts(limit, TwoLeased().(issued := 3, lapsed := {FIRST}));
  }

  lemma SecondStarts(limit: nat -> nat, w: World)
    requires w == TwoLeased().(issued := 3, lapsed := {FIRST})
    ensures Outstanding(Do(w, limit, ReserveStart(SECOND, 1, 1))) == {FIRST, SECOND}
  {
    assert StartIds(w.rows) == {};
    var end := Do(w, limit, ReserveStart(SECOND, 1, 1));
    assert StartIds(end.rows) == {SECOND} && end.lapsed == {FIRST};
  }

  // ---- A sandbox is isolated while an operation holds its lease ----

  /** The first operation found the sandbox's Pod; the next call leased the row again. */
  function InUse(): Row {
    LeasedBy(1).(state := Ready, uid := true, pod := true)
  }

  lemma PodConfirmed(limit: nat -> nat)
    requires limit(1) >= 1
    ensures Do(Do(Do(Do(NOTHING, limit, BeginCall(FIRST)), limit, EndCall(1, 1000, false, None)), limit, Mutate(FIRST, 0, false, RecordUid)), limit, Mutate(FIRST, 0, false, Confirm))
         == World(map[FIRST := Unlease(InUse())], map[], 0, 1, {FIRST}, {(FIRST, 0)}, {})
  {
    assert SlotIds(NOTHING.rows, 1) == {};
    CallLeases(limit, NOTHING, FIRST);
    var w := World(map[FIRST := LeasedBy(0)], map[], 0, 1, {FIRST}, {(FIRST, 0)}, {});
    assert NOTHING.rows[FIRST := LeasedBy(0)] == w.rows && NOTHING.took + {FIRST} == w.took && NOTHING.begun + {(FIRST, 0)} == w.begun;
    OperationFindsPod(limit, w);
  }

  lemma OperationFindsPod(limit: nat -> nat, w: World)
    requires w == World(map[FIRST := LeasedBy(0)], map[], 0, 1, {FIRST}, {(FIRST, 0)}, {})
    ensures Do(Do(w, limit, Mutate(FIRST, 0, false, RecordUid)), limit, Mutate(FIRST, 0, false, Confirm)) == w.(rows := map[FIRST := Unlease(InUse())])
  {
    var r := LeasedBy(0).(uid := true);
    var w1 := w.(rows := map[FIRST := r]);
    assert w.took + {FIRST} == w.took && w.rows[FIRST := r] == w1.rows;
    assert Do(w, limit, Mutate(FIRST, 0, false, RecordUid)) == w1;
    assert Applied(r, 0, Confirm) == Unlease(InUse());
    assert w1.rows[FIRST := Unlease(InUse())] == map[FIRST := Unlease(InUse())] && w1.lapsed - {FIRST} == {};
  }

  lemma LeasedAgain(limit: nat -> nat, w: World)
    requires w == World(map[FIRST := Unlease(InUse())], map[], 0, 1, {FIRST}, {(FIRST, 0)}, {})
    ensures Do(Do(w, limit, BeginCall(FIRST)), limit, EndCall(1, 1000, false, None))
         == World(map[FIRST := InUse()], map[], 0, 2, {FIRST}, {(FIRST, 0), (FIRST, 1)}, {})
  {
    var w1 := w.(calls := map[1 := Call(FIRST, Some(Unlease(InUse())))]);
    assert Do(w, limit, BeginCall(FIRST)) == w1;
    var s := EndCall(1, 1000, false, None);
    assert CallResult(w1, limit, s) == InUse();
    assert w1.calls - {1} == map[] && w1.lapsed - {FIRST} == {} && w1.took + {FIRST} == {FIRST};
    assert w1.rows[FIRST := InUse()] == map[FIRST := InUse()] && w1.begun + {(FIRST, 1)} == {(FIRST, 0), (FIRST, 1)};
  }

  lemma StillLeased(limit: nat -> nat, w: World)
    requires w == World(map[FIRST := InUse()], map[], 0, 2, {FIRST}, {(FIRST, 0), (FIRST, 1)}, {})
    ensures var isolated := Do(w, limit, Isolate(FIRST));
      && MutatePasses(w, FIRST, 1) && FIRST in isolated.rows && isolated.rows[FIRST].state == Retained && isolated.rows[FIRST].release
      && MutatePasses(isolated, FIRST, 1)
  {
    IsolationKeepsLease(w, limit, FIRST, FIRST, 1);
  }

  /** A run reaches a sandbox whose operation can commit, and isolating it leaves that operation able to commit. */
  lemma IsolatedLeaseCommits(limit: nat -> nat)
    requires limit(1) >= 1
    ensures var confirmed := Do(Do(Do(Do(NOTHING, limit, BeginCall(FIRST)), limit, EndCall(1, 1000, false, None)),
                                   limit, Mutate(FIRST, 0, false, RecordUid)), limit, Mutate(FIRST, 0, false, Confirm));
      var w := Do(Do(confirmed, limit, BeginCall(FIRST)), limit, EndCall(1, 1000, false, None));
      var isolated := Do(w, limit, Isolate(FIRST));
      && MutatePasses(w, FIRST, 1) && FIRST in isolated.rows && isolated.rows[FIRST].state == Retained && isolated.rows[FIRST].release
      && MutatePasses(isolated, FIRST, 1)
  {
    PodConfirmed(limit);
    LeasedAgain(limit, World(map[FIRST := Unlease(InUse())], map[], 0, 1, {FIRST}, {(FIRST, 0)}, {}));
    StillLeased(limit, World(map[FIRST := InUse()], map[], 0, 2, {FIRST}, {(FIRST, 0), (FIRST, 1)}, {}));
  }

  // ---- The runner's transaction ----

  /** Applies a release request and the reason the execution stopped to the row a call read. */
  method ApplyRequest(snapshot: Row, now: int, stopped: bool, releasing: Option<bool>) returns (row: Row)
    ensures row == Requested(snapshot, now, stopped, releasing)
    ensures (stopped || releasing.Some?) && snapshot.state != Released ==> row.release
    ensures row.release && !snapshot.release ==> !row.start
  {
    row := snapshot;
    if releasing.Some? {
      if !row.release && row.state != Released {
        row := Stop(row, now);
        if releasing.value && row.state != Released {
          row := row.(retainUntil := Some(now), state := State.Pending);
        }
      }
    }
    if stopped {
      row := Stop(row, now);
    }
  }

  class SandboxTable {
    var rows: map<Id, Row>
    var issued: nat

    /** Takes a slot and a lease for a row, and stores it; `lease` is the token of the operation it starts. */
    method Store(id: Id, requested: Row, now: int, concurrency: nat) returns (lease: Option<nat>)
      modifies this
      ensures rows == old(rows)[id := Granted(requested, now, |SlotIds(old(rows), id.execution)|, concurrency, old(issued))]
      ensures issued == old(issued) + 1
      ensures lease.Some? ==> rows[id].token == lease && Leased(rows[id], now) && (rows[id].slot || rows[id].release)
      ensures rows[id].slot && !requested.slot ==> |SlotIds(old(rows), id.execution)| < concurrency && !SlotSpent(requested)
    {
      var row := requested;
      lease := None;
      if row.state != Released && (row.state != State.Failed || row.release) && !(row.until.Some? && now < row.until.value) {
        if !row.slot && !row.release {
          var count := |SlotIds(rows, id.execution)|;
          if count < concurrency {
            row := row.(slot := true);
          }
        }
        if row.slot || row.release {
          lease := Some(issued);
          row := row.(token := lease, until := Some(now + OPERATION_LEASE));
        }
      }
      rows := rows[id := row];
      issued := issued + 1;
    }
  }
}
