/**
  Selecting the leader's pod through the runtime Service.

  A publisher reads the Service, then checks that it holds the Lease, then updates the Service if
  it has not changed since the read. The Lease may pass to another node between any two of these.
  A withdrawal reads the Service and deselects its own pod, again only if nothing changed.
 */
module LeaderService {
  import opened Common

  /** Pods are identified by their UID, which no other pod ever gets. */
  type Pod = nat

  /**
    A change of the Service, with the Lease term at its commit. A publish also carries the terms in
    which its publisher read the Service and checked the Lease.
   */
  datatype Change =
    | Published(pod: Pod, readTerm: nat, checkTerm: nat, term: nat)
    | Withdrawn(pod: Pod, term: nat)
    | Edited(term: nat)

  /** An update under way: the resource version and selection it read. */
  datatype Update = Update(publish: bool, node: nat, pod: Pod, version: nat, selected: Option<Pod>, readTerm: nat, checkTerm: Option<nat>)

  datatype Step =
    | Elect(node: nat)
    | ReadForPublish(op: nat, node: nat, pod: Pod)
    | CheckLease(op: nat)
    | CommitPublish(op: nat)
    | ReadForWithdraw(op: nat, pod: Pod)
    | CommitWithdraw(op: nat)
    | Edit
    | Abandon(op: nat)

  /** The Service's resource version is the number of its changes; terms count the elections. */
  datatype World = World(log: seq<Change>, holder: Option<nat>, term: nat, updates: map<nat, Update>)

  function Selected(log: seq<Change>): Option<Pod> {
    if log == [] then None
    else match log[|log| - 1]
      case Published(pod, _, _, _) => Some(pod)
      case Withdrawn(_, _) => None
      case Edited(_) => Selected(log[..|log| - 1])
  }

  function Forget(w: World, op: nat): World {
    w.(updates := w.updates - {op})
  }

  function Do(w: World, s: Step): World {
    match s
    case Elect(node) => w.(holder := Some(node), term := w.term + 1)
    case ReadForPublish(op, node, pod) =>
      if op in w.updates then w
      else w.(updates := w.updates[op := Update(true, node, pod, |w.log|, Selected(w.log), w.term, None)])
    case CheckLease(op) =>
      if op !in w.updates || !w.updates[op].publish then w
      else if w.holder != Some(w.updates[op].node) || w.updates[op].selected == Some(w.updates[op].pod) then Forget(w, op)
      else w.(updates := w.updates[op := w.updates[op].(checkTerm := Some(w.term))])
    case CommitPublish(op) =>
      if op !in w.updates || !w.updates[op].publish || w.updates[op].checkTerm.None? then w
      else if w.updates[op].version != |w.log| then Forget(w, op)
      else Forget(w, op).(log := w.log + [Published(w.updates[op].pod, w.updates[op].readTerm, w.updates[op].checkTerm.value, w.term)])
    case ReadForWithdraw(op, pod) =>
      if op in w.updates || Selected(w.log) != Some(pod) then w
      else w.(updates := w.updates[op := Update(false, 0, pod, |w.log|, Some(pod), w.term, None)])
    case CommitWithdraw(op) =>
      if op !in w.updates || w.updates[op].publish then w
      else if w.updates[op].version != |w.log| then Forget(w, op)
      else Forget(w, op).(log := w.log + [Withdrawn(w.updates[op].pod, w.term)])
    case Edit => w.(log := w.log + [Edited(w.term)])
    case Abandon(op) => Forget(w, op)
  }

  function After(w: World, steps: seq<Step>, i: nat): World
    requires i <= |steps|
  {
    if i == 0 then w else Do(After(w, steps, i - 1), steps[i - 1])
  }

  predicate Start(w: World) {
    w.log == [] && w.updates == map[]
  }

  /** An update read the Service after the last change its version counts, and in that change's term or a later one. */
  predicate UpdateSound(w: World, u: Update) {
    && u.version <= |w.log| && u.readTerm <= w.term
    && (u.version > 0 ==> w.log[u.version - 1].term <= u.readTerm)
    && (u.checkTerm.Some? ==> u.readTerm <= u.checkTerm.value <= w.term)
    && (u.version == |w.log| ==> u.selected == Selected(w.log))
    && (!u.publish ==> u.selected == Some(u.pod))
  }

  /** A change at position k continues the log before it. */
  predicate Continues(log: seq<Change>, k: nat)
    requires k < |log|
  {
    && (log[k].Published? ==> log[k].readTerm <= log[k].checkTerm <= log[k].term && (k > 0 ==> log[k - 1].term <= log[k].readTerm))
    && (k > 0 ==> log[k - 1].term <= log[k].term)
    && (log[k].Withdrawn? ==> Selected(log[..k]) == Some(log[k].pod))
  }

  ghost predicate Good(w: World) {
    && (forall op :: op in w.updates ==> UpdateSound(w, w.updates[op]))
    && (forall k: nat :: k < |w.log| ==> Continues(w.log, k))
    && (forall k :: 0 <= k < |w.log| ==> w.log[k].term <= w.term)
  }

  lemma AppendKeepsLog(log: seq<Change>, c: Change)
    requires forall k: nat :: k < |log| ==> Continues(log, k)
    requires Continues(log + [c], |log|)
    ensures forall k: nat :: k < |log + [c]| ==> Continues(log + [c], k)
  {
    forall k: nat | k < |log| ensures Continues(log + [c], k) {
      assert (log + [c])[..k] == log[..k];
      assert Continues(log, k);
    }
  }

  lemma AppendKeepsGood(w: World, op: nat, c: Change)
    requires Good(w) && c.term == w.term && Continues(w.log + [c], |w.log|)
    ensures Good(Forget(w, op).(log := w.log + [c]))
  {
    AppendKeepsLog(w.log, c);
  }

  lemma StepKeepsGood(w: World, s: Step)
    requires Good(w)
    ensures Good(Do(w, s))
  {
    match s
    case CommitPublish(op) =>
      if op in w.updates && w.updates[op].publish && w.updates[op].checkTerm.Some? && w.updates[op].version == |w.log| {
        AppendKeepsGood(w, op, Published(w.updates[op].pod, w.updates[op].readTerm, w.updates[op].checkTerm.value, w.term));
      }
    case CommitWithdraw(op) =>
      if op in w.updates && !w.updates[op].publish && w.updates[op].version == |w.log| {
        var c := Withdrawn(w.updates[op].pod, w.term);
        assert (w.log + [c])[..|w.log|] == w.log;
        AppendKeepsGood(w, op, c);
      }
    case Edit =>
      AppendKeepsLog(w.log, Edited(w.term));
    case _ =>
  }

  lemma {:induction false} RunKeepsGood(w: World, steps: seq<Step>, i: nat)
    requires Start(w) && i <= |steps|
    ensures Good(After(w, steps, i))
    decreases i
  {
    if i > 0 {
      RunKeepsGood(w, steps, i - 1);
      StepKeepsGood(After(w, steps, i - 1), steps[i - 1]);
    }
  }

  lemma {:induction false} TermsRise(log: seq<Change>, i: nat, j: nat)
    requires (forall k: nat :: k < |log| ==> Continues(log, k)) && i <= j < |log|
    ensures log[i].term <= log[j].term
    decreases j
  {
    if i < j {
      TermsRise(log, i, j - 1);
      assert Continues(log, j);
    }
  }

  /**
    Selections never regress: whoever publishes after a committed publish read the Service in the
    term in which that publish was confirmed, or in a later one.
   */
  lemma {:induction false} PublishesNeverRegress(w: World, steps: seq<Step>, n: nat, i: nat, j: nat)
    requires Start(w) && n <= |steps| && i < j < |After(w, steps, n).log|
    requires After(w, steps, n).log[i].Published? && After(w, steps, n).log[j].Published?
    ensures After(w, steps, n).log[i].checkTerm <= After(w, steps, n).log[j].readTerm
  {
    RunKeepsGood(w, steps, n);
    var log := After(w, steps, n).log;
    TermsRise(log, i, j - 1);
    assert Continues(log, i) && Continues(log, j);
  }

  /** A publish that read the Service in an earlier term than a committed publish was confirmed in can no longer commit. */
  lemma {:induction false} EarlierReadCannotCommit(w: World, steps: seq<Step>, n: nat, i: nat, op: nat)
    requires Start(w) && n <= |steps| && i < |After(w, steps, n).log| && After(w, steps, n).log[i].Published?
    requires op in After(w, steps, n).updates && After(w, steps, n).updates[op].readTerm < After(w, steps, n).log[i].checkTerm
    ensures Do(After(w, steps, n), CommitPublish(op)).log == After(w, steps, n).log
  {
    RunKeepsGood(w, steps, n);
    var here := After(w, steps, n);
    assert UpdateSound(here, here.updates[op]) && Continues(here.log, i);
    if here.updates[op].version == |here.log| {
      TermsRise(here.log, i, |here.log| - 1);
    }
  }

  /** Who is selected was the last to publish, and nobody published or withdrew since. */
  lemma {:induction false} SelectedPublished(log: seq<Change>, c: nat, pod: Pod)
    requires c < |log| && log[c].Published? && log[c].pod != pod && Selected(log) == Some(pod)
    ensures exists k :: c < k < |log| && log[k].Published? && log[k].pod == pod
  {
    if log[|log| - 1].Edited? {
      var shorter := log[..|log| - 1];
      SelectedPublished(shorter, c, pod);
      var k :| c < k < |shorter| && shorter[k].Published? && shorter[k].pod == pod;
      assert log[k] == shorter[k];
    } else {
      assert log[|log| - 1].Published?;
    }
  }

  /** After another pod's publish committed, a pod's withdrawal commits only if that pod published again in between. */
  lemma {:induction false} WithdrawalNeedsOwnPublish(w: World, steps: seq<Step>, n: nat, c: nat, d: nat)
    requires Start(w) && n <= |steps| && c < d < |After(w, steps, n).log|
    requires After(w, steps, n).log[c].Published? && After(w, steps, n).log[d].Withdrawn?
    requires After(w, steps, n).log[c].pod != After(w, steps, n).log[d].pod
    ensures var log := After(w, steps, n).log; exists k :: c < k < d && log[k].Published? && log[k].pod == log[d].pod
  {
    RunKeepsGood(w, steps, n);
    var log := After(w, steps, n).log;
    assert Continues(log, d);
    SelectedPublished(log[..d], c, log[d].pod);
    var k :| c < k < d && log[..d][k].Published? && log[..d][k].pod == log[d].pod;
    assert log[..d][k] == log[k];
  }

  // ---- A publish that finds its pod already selected writes nothing, and so fences nothing ----

  /** Elected after node 2 published, node 1 reads the Service and checks the Lease; then the Lease returns to node 2. */
  function Handover(w: World): World {
    Do(Do(Do(Do(Do(Do(Do(Do(w, Elect(2)), ReadForPublish(0, 2, 2)), CheckLease(0)), CommitPublish(0)),
                Elect(1)), ReadForPublish(1, 1, 1)), CheckLease(1)), Elect(2))
  }

  lemma LeaseReturns(w: World)
    requires Start(w)
    ensures Handover(w).log == [Published(2, w.term + 1, w.term + 1, w.term + 1)] && Handover(w).holder == Some(2)
    ensures Handover(w).updates == map[1 := Update(true, 1, 1, 1, Some(2), w.term + 2, Some(w.term + 2))]
  {
    var t := w.term;
    var w1 := Do(w, Elect(2));
    var u := Update(true, 2, 2, 0, None, t + 1, None);
    var w2 := Do(w1, ReadForPublish(0, 2, 2));
    assert w2.updates == map[0 := u];
    var w3 := Do(w2, CheckLease(0));
    assert w3.updates == map[0 := u.(checkTerm := Some(t + 1))];
    var w4 := Do(w3, CommitPublish(0));
    assert w4.log == [Published(2, t + 1, t + 1, t + 1)] && w4.updates == map[];
    var w5 := Do(w4, Elect(1));
    assert Selected(w5.log) == Some(2);
    var w6 := Do(w5, ReadForPublish(1, 1, 1));
    assert w6.updates == map[1 := Update(true, 1, 1, 1, Some(2), t + 2, None)];
    assert Handover(w) == Do(Do(w6, CheckLease(1)), Elect(2));
  }

  /** Node 2 holds the Lease and its publish succeeds, yet node 1's delayed update still selects node 1's pod. */
  lemma UnchangedPublishDoesNotFence(w: World)
    requires Start(w)
    ensures Selected(Handover(w).log) == Some(2)
    ensures var end := Do(Do(Do(Handover(w), ReadForPublish(2, 2, 2)), CheckLease(2)), CommitPublish(1));
      end.holder == Some(2) && Selected(end.log) == Some(1)
  {
    LeaseReturns(w);
    var here := Handover(w);
    assert Selected(here.log) == Some(2);
    var confirmed := Do(Do(here, ReadForPublish(2, 2, 2)), CheckLease(2));
    assert confirmed.updates == here.updates && confirmed.log == here.log;
  }

  /** A delayed update takes effect exactly when nothing changed the Service since it was read. */
  lemma CommitIffUnchanged(w: World, op: nat)
    requires Good(w) && op in w.updates && w.updates[op].publish && w.updates[op].checkTerm.Some? && w.updates[op].selected != Some(w.updates[op].pod)
    ensures Selected(Do(w, CommitPublish(op)).log) != Selected(w.log) <==> |w.log| == w.updates[op].version
  {
    assert UpdateSound(w, w.updates[op]);
  }

  /** A confirmed update that would commit now. */
  predicate Able(w: World, op: nat) {
    op in w.updates && w.updates[op].publish && w.updates[op].checkTerm.Some? && w.updates[op].version == |w.log|
  }

  /** The step completes a publish of the Lease holder: with a write, or because its pod is already selected. */
  predicate Succeeds(w: World, s: Step) {
    || (s.CommitPublish? && Able(w, s.op))
    || (s.CheckLease? && s.op in w.updates && w.updates[s.op].publish && w.holder == Some(w.updates[s.op].node)
        && w.updates[s.op].selected == Some(w.updates[s.op].pod))
  }

  lemma {:induction false} LogGrows(w: World, steps: seq<Step>, i: nat, j: nat)
    requires i <= j <= |steps|
    ensures After(w, steps, i).log <= After(w, steps, j).log
    decreases j
  {
    if i < j {
      LogGrows(w, steps, i, j - 1);
    }
  }

  lemma SuccessWrites(w: World, s: Step)
    requires Succeeds(w, s)
    ensures Do(w, s).log == w.log <==> s.CheckLease?
  {
  }

  /**
    What a successful publish fences: an update that read the Service before it, at step `i`, can
    still commit later exactly when that publish wrote nothing and nothing else changed the Service
    between the read and now.
   */
  lemma {:induction false} PublishFencesIff(w: World, steps: seq<Step>, i: nat, k: nat, j: nat, op: nat)
    requires i <= k < j <= |steps| && Succeeds(After(w, steps, k), steps[k])
    requires op in After(w, steps, j).updates
    requires var u := After(w, steps, j).updates[op]; u.publish && u.checkTerm.Some? && u.version == |After(w, steps, i).log|
    ensures Able(After(w, steps, j), op) <==>
      && steps[k].CheckLease?
      && After(w, steps, k).log == After(w, steps, i).log && After(w, steps, j).log == After(w, steps, k + 1).log
  {
    LogGrows(w, steps, i, k);
    LogGrows(w, steps, k, k + 1);
    LogGrows(w, steps, k + 1, j);
    SuccessWrites(After(w, steps, k), steps[k]);
  }

  // ---- The publisher ----

  datatype Outcome = Refused | Selecting(selector: Pod) | AlreadySelected

  class Runtime {
    const node: nat
    var pod: Option<Pod>

    constructor (id: nat)
      ensures node == id && pod.None?
    {
      node, pod := id, None;
    }

    /** Decides what to write to the Service; a runtime never speaks for a second incarnation of its pod. */
    method Publish(live: Option<Pod>, selectable: bool, selected: Option<Pod>, holder: Option<nat>) returns (outcome: Outcome)
      modifies this
      ensures old(pod).Some? ==> pod == old(pod)
      ensures outcome != Refused ==> live.Some? && pod == live && holder == Some(node) && selectable
      ensures outcome == AlreadySelected ==> selected == pod
      ensures outcome.Selecting? ==> Some(outcome.selector) == pod && selected != pod
      ensures outcome == Refused <==>
        live.None? || (old(pod).Some? && old(pod) != live) || !selectable || holder != Some(node)
    {
      if live.None? {
        return Refused;
      }
      if pod.Some? && pod != live {
        return Refused;
      }
      pod := live;
      if !selectable {
        return Refused;
      }
      if holder != Some(node) {
        return Refused;
      }
      if selected == pod {
        return AlreadySelected;
      }
      return Selecting(live.value);
    }
  }
}
