/**
  Dispatch of claimed tasks through an at-least-once queue.

  The dispatcher publishes the generation and token of a queued task. A message may be
  delivered any number of times, in any order, to any worker; each delivery reads the row,
  may try the execution claim, and decides whether the message is acknowledged. Between any
  two of these steps every other write of the lease protocol may happen.
 */
module Dispatch {
  import opened Common
  import opened WorkflowLease

  /** The envelope: the pair a dispatch claim installed. */
  datatype Message = Message(generation: nat, token: string)

  datatype Phase = Delivered | Matched | Decided(ack: bool)

  datatype Delivery = Delivery(message: Message, phase: Phase)

  datatype World = World(
    row: Option<Task>,
    issued: set<Message>,
    published: set<Message>,
    broker: set<Message>,
    deliveries: map<nat, Delivery>,
    claims: seq<nat>)

  datatype Step =
    | Write(op: Op)
    | DeleteTask
    | Publish(message: Message)
    | Deliver(id: nat, message: Message)
    | ReadRow(id: nat, userCancelled: bool)
    | LoadFails(id: nat)
    | TryClaim(id: nat, worker: string, now: int, duration: int, interrupted: bool)
    | ClaimErrors(id: nat, worker: string, now: int, duration: int, written: bool)
    | Acknowledge(id: nat)

  function Decide(w: World, id: nat, phase: Phase): World
    requires id in w.deliveries
  {
    w.(deliveries := w.deliveries[id := w.deliveries[id].(phase := phase)])
  }

  function ClaimOp(m: Message, worker: string, now: int, duration: int): Op {
    ExecutionClaim(Owner(m.generation, m.token, worker), now, duration)
  }

  /** The execution claim of one delivery; a commit is recorded in `claims`. */
  function Claim(w: World, op: Op): World
    requires op.ExecutionClaim?
  {
    if w.row.Some? && Commits(op, w.row.value)
    then w.(row := Some(Next(op, w.row.value)), claims := w.claims + [op.owner.generation])
    else w
  }

  predicate InPhase(w: World, id: nat, phase: Phase) {
    id in w.deliveries && w.deliveries[id].phase == phase
  }

  function Do(w: World, s: Step): World {
    match s
    case Write(op) =>
      if w.row.Some? && WellFormed(op) && !op.ExecutionClaim? then
        w.(row := Some(Next(op, w.row.value)),
           issued := w.issued + if op.DispatchClaim? && Commits(op, w.row.value)
                                then {Message(op.seen.generation + 1, op.issued)} else {})
      else w
    case DeleteTask => w.(row := None)
    case Publish(m) =>
      if m in w.issued && m !in w.published then w.(published := w.published + {m}, broker := w.broker + {m}) else w
    case Deliver(id, m) =>
      if m in w.broker && id !in w.deliveries then w.(deliveries := w.deliveries[id := Delivery(m, Delivered)]) else w
    case ReadRow(id, userCancelled) =>
      if !InPhase(w, id, Delivered) then w
      else
        var m := w.deliveries[id].message;
        if w.row.None? then Decide(w, id, Decided(true))
        else if w.row.value.status == Cancelled && userCancelled then Decide(w, id, Decided(true))
        else if w.row.value.token != m.token || w.row.value.generation != m.generation then Decide(w, id, Decided(true))
        else Decide(w, id, Matched)
    case LoadFails(id) => if InPhase(w, id, Delivered) then Decide(w, id, Decided(false)) else w
    case TryClaim(id, worker, now, duration, interrupted) =>
      if !InPhase(w, id, Matched) then w
      else
        var op := ClaimOp(w.deliveries[id].message, worker, now, duration);
        if !ValidOwner(op.owner) || duration <= 0 then Decide(w, id, Decided(false))
        else
          // Interrupted only after winning: the message stays pending although the claim committed.
          var won := w.row.Some? && Commits(op, w.row.value);
          Decide(Claim(w, op), id, Decided(!won || !interrupted))
    case ClaimErrors(id, worker, now, duration, written) =>
      if !InPhase(w, id, Matched) then w
      else
        var op := ClaimOp(w.deliveries[id].message, worker, now, duration);
        Decide(if written then Claim(w, op) else w, id, Decided(false))
    case Acknowledge(id) =>
      if InPhase(w, id, Decided(true)) then w.(broker := w.broker - {w.deliveries[id].message}) else w
  }

  function After(w: World, steps: seq<Step>, i: nat): World
    requires i <= |steps|
  {
    if i == 0 then w else Do(After(w, steps, i - 1), steps[i - 1])
  }

  predicate Start(w: World) {
    && w.row.Some? && Initial(w.row.value) && w.issued == {} && w.published == {} && w.broker == {}
    && w.deliveries == map[] && w.claims == []
  }

  /** The task is waiting for exactly this message. */
  predicate StillQueued(row: Option<Task>, m: Message) {
    row.Some? && row.value.status == Queued && row.value.generation == m.generation && row.value.token == m.token
  }

  /** Nothing will ever wait for this message again. */
  predicate Settled(row: Option<Task>, m: Message) {
    row.Some? ==> m.generation <= row.value.generation && !StillQueued(row, m)
  }

  ghost predicate Good(w: World) {
    && (forall m :: m in w.issued && w.row.Some? ==> m.generation <= w.row.value.generation)
    && w.broker <= w.published <= w.issued
    && (forall id :: id in w.deliveries ==> w.deliveries[id].message in w.issued)
    && (forall id :: InPhase(w, id, Decided(true)) ==> Settled(w.row, w.deliveries[id].message))
    && (forall m :: m in w.published - w.broker ==> Settled(w.row, m))
    && (forall i, j :: 0 <= i < j < |w.claims| ==> w.claims[i] != w.claims[j])
    && (forall i :: 0 <= i < |w.claims| && w.row.Some? ==> PastQueue(w.row.value, w.claims[i]))
  }

  lemma SettledStays(op: Op, row: Task, m: Message)
    requires WellFormed(op) && Settled(Some(row), m)
    ensures Settled(Some(Next(op, row)), m)
  {
  }

  lemma WriteKeepsGood(w: World, op: Op)
    requires Good(w) && w.row.Some? && WellFormed(op) && !op.ExecutionClaim?
    ensures Good(Do(w, Write(op)))
  {
    var row, w' := w.row.value, Do(w, Write(op));
    assert row.generation <= Next(op, row).generation;
    forall m | Settled(w.row, m)
      ensures Settled(w'.row, m)
    {
      SettledStays(op, row, m);
    }
    forall i | 0 <= i < |w.claims|
      ensures PastQueue(w'.row.value, w.claims[i])
    {
      PastQueueStays(op, row, w.claims[i]);
    }
  }

  lemma ClaimKeepsGood(w: World, id: nat, op: Op, ack: bool)
    requires Good(w) && op.ExecutionClaim? && InPhase(w, id, Matched)
    requires w.deliveries[id].message == Message(op.owner.generation, op.owner.token) && ValidOwner(op.owner) && op.duration > 0
    ensures Good(Decide(Claim(w, op), id, Decided(ack)))
  {
    var w' := Claim(w, op);
    if w.row.Some? {
      forall m | Settled(w.row, m)
        ensures Settled(w'.row, m)
      {
        SettledStays(op, w.row.value, m);
      }
    }
    assert Settled(w'.row, w.deliveries[id].message);
  }

  lemma AttemptKeepsGood(w: World, s: Step)
    requires Good(w) && (s.TryClaim? || s.ClaimErrors?)
    ensures Good(Do(w, s))
  {
    if InPhase(w, s.id, Matched) {
      var op := ClaimOp(w.deliveries[s.id].message, s.worker, s.now, s.duration);
      if ValidOwner(op.owner) && s.duration > 0 {
        ClaimKeepsGood(w, s.id, op, s.TryClaim? && (!(w.row.Some? && Commits(op, w.row.value)) || !s.interrupted));
      }
    }
  }

  lemma StepKeepsGood(w: World, s: Step)
    requires Good(w)
    ensures Good(Do(w, s))
  {
    match s
    case Write(op) =>
      if w.row.Some? && WellFormed(op) && !op.ExecutionClaim? {
        WriteKeepsGood(w, op);
      }
    case TryClaim(_, _, _, _, _) => AttemptKeepsGood(w, s);
    case ClaimErrors(_, _, _, _, _) => AttemptKeepsGood(w, s);
    case ReadRow(_, _) => ReadKeepsGood(w, s);
    case _ =>
  }

  lemma ReadKeepsGood(w: World, s: Step)
    requires Good(w) && s.ReadRow?
    ensures Good(Do(w, s))
  {
  }

  lemma {:induction false} RunKeepsGood(w: World, steps: seq<Step>, i: nat)
    requires i <= |steps| && Start(w)
    ensures Good(After(w, steps, i))
    decreases i
  {
    if i > 0 {
      RunKeepsGood(w, steps, i - 1);
      StepKeepsGood(After(w, steps, i - 1), steps[i - 1]);
    }
  }

  /**
    No lost dispatch: in every reachable state, a published message its workflow still waits for
    is in the queue, and no delivery of it has been cleared for acknowledgement.
   */
  lemma {:induction false} NoLostDispatch(w: World, steps: seq<Step>, i: nat, m: Message)
    requires i <= |steps| && Start(w)
    requires m in After(w, steps, i).published && StillQueued(After(w, steps, i).row, m)
    ensures m in After(w, steps, i).broker
    ensures forall id :: InPhase(After(w, steps, i), id, Decided(true)) ==> After(w, steps, i).deliveries[id].message != m
  {
    RunKeepsGood(w, steps, i);
    var now := After(w, steps, i);
    assert m !in now.broker ==> m in now.published - now.broker;
  }

  /** One winner: however often messages are duplicated and reordered, no generation is claimed twice. */
  lemma {:induction false} EachGenerationClaimedOnce(w: World, steps: seq<Step>, i: nat, a: nat, b: nat)
    requires i <= |steps| && Start(w)
    requires a < b < |After(w, steps, i).claims|
    ensures After(w, steps, i).claims[a] != After(w, steps, i).claims[b]
  {
    RunKeepsGood(w, steps, i);
  }
}
