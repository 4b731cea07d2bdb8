/**
  Cron dispatch of one job definition by any number of dispatchers.

  A dispatcher works from a page it listed earlier: it rechecks the definition, looks at the
  previous run, perhaps cancels it, and only then claims the occurrence with a conditional write.
  Definition updates, deletions and task completions may happen between any two of these.

  Times are in seconds; each dispatcher has its own clock.
 */
module Schedule {
  import opened Common

  datatype Policy = Unset | Forbid | Allow | Replace

  datatype Definition = Definition(revision: nat, cron: string, policy: Policy, enabled: bool, nextRun: int, lastRun: Option<nat>)

  /** A cron-started run: the occurrence in its idempotency key, and whether its status is active. */
  datatype Run = Run(occurrence: int, active: bool)

  datatype Stage = Listed | Rechecked | Decided(skip: bool)

  datatype Dispatcher = Dispatcher(page: Definition, now: int, stage: Stage)

  datatype Step =
    | List(d: nat, now: int)
    | Recheck(d: nat)
    | Decide(d: nat, prepared: bool)
    | Claim(d: nat, next: int, task: nat)
    | GiveUp(d: nat)
    | Update(cron: string, policy: Policy, enabled: bool, nextRun: int, unscheduled: bool)
    | Delete
    | Complete(task: nat)
    | Remove(task: nat)

  /** `born` holds every task id ever used; ids are random and never repeat. */
  datatype World = World(definition: Option<Definition>, runs: map<nat, Run>, born: set<nat>, dispatchers: map<nat, Dispatcher>)

  predicate ActiveRun(w: World, task: nat) {
    task in w.runs && w.runs[task].active
  }

  /** The stored definition still has the columns the claim compares. */
  predicate StillDue(w: World, page: Definition) {
    && w.definition.Some? && w.definition.value.nextRun == page.nextRun
    && w.definition.value.revision == page.revision && w.definition.value.enabled
  }

  function SetStage(w: World, d: nat, stage: Stage): World
    requires d in w.dispatchers
  {
    w.(dispatchers := w.dispatchers[d := w.dispatchers[d].(stage := stage)])
  }

  /** What a dispatcher does about the previous run; a failed cancellation is a `GiveUp`. */
  function DecideOn(w: World, d: nat, prepared: bool): World
    requires d in w.dispatchers
  {
    var page := w.dispatchers[d].page;
    if !prepared then SetStage(w, d, Decided(true))
    else if page.policy == Unset then w.(dispatchers := w.dispatchers - {d})
    else if page.lastRun.None? || page.policy == Allow || !ActiveRun(w, page.lastRun.value) then SetStage(w, d, Decided(false))
    else if page.policy == Forbid then SetStage(w, d, Decided(true))
    else SetStage(w.(runs := w.runs[page.lastRun.value := w.runs[page.lastRun.value].(active := false)]), d, Decided(false))
  }

  /** The run stored for an occurrence, if there is one. */
  ghost predicate Taken(w: World, occurrence: int, task: nat) {
    task in w.runs && w.runs[task].occurrence == occurrence
  }

  /** The claim commits: the definition is still as the page says, and the schedule's next time lies after the clock. */
  predicate Claims(w: World, s: Step) {
    && s.Claim? && s.d in w.dispatchers && w.dispatchers[s.d].stage.Decided?
    && StillDue(w, w.dispatchers[s.d].page) && s.next > w.dispatchers[s.d].now
  }

  /** The task id an enqueue ends up with: a duplicate key adopts the run that has it. */
  ghost function Accepted(w: World, occurrence: int, task: nat): nat {
    if exists other: nat :: Taken(w, occurrence, other) then var other: nat :| Taken(w, occurrence, other); other else task
  }

  ghost function Commit(w: World, s: Step): World
    requires Claims(w, s)
  {
    var page := w.dispatchers[s.d].page;
    var w' := w.(dispatchers := w.dispatchers - {s.d}, definition := Some(w.definition.value.(nextRun := s.next)));
    if w.dispatchers[s.d].stage.skip then w'
    else
      var task := Accepted(w, page.nextRun, s.task);
      w'.(definition := Some(w'.definition.value.(lastRun := Some(task))),
          runs := if task in w.runs then w.runs else w.runs[task := Run(page.nextRun, true)],
          born := w.born + {task})
  }

  function Updated(p: Definition, s: Step): Definition
    requires s.Update?
  {
    var moved := if p.cron != s.cron || p.enabled != s.enabled then p.(nextRun := s.nextRun) else p;
    moved.(cron := s.cron, policy := s.policy, enabled := s.enabled, revision := p.revision + 1,
           nextRun := if s.unscheduled then 0 else moved.nextRun)
  }

  ghost function Do(w: World, s: Step): World {
    match s
    case List(d, now) =>
      if d !in w.dispatchers && w.definition.Some? && w.definition.value.enabled && w.definition.value.cron != "" && w.definition.value.nextRun <= now
      then w.(dispatchers := w.dispatchers[d := Dispatcher(w.definition.value, now, Listed)]) else w
    case Recheck(d) =>
      if d !in w.dispatchers || w.dispatchers[d].stage != Listed then w
      else if StillDue(w, w.dispatchers[d].page) then SetStage(w, d, Rechecked)
      else w.(dispatchers := w.dispatchers - {d})
    case Decide(d, prepared) =>
      if d in w.dispatchers && w.dispatchers[d].stage == Rechecked then DecideOn(w, d, prepared) else w
    case Claim(d, next, task) =>
      if Claims(w, s) && task !in w.born then Commit(w, s) else w.(dispatchers := w.dispatchers - {d})
    case GiveUp(d) => w.(dispatchers := w.dispatchers - {d})
    case Update(_, _, _, _, _) => if w.definition.Some? then w.(definition := Some(Updated(w.definition.value, s))) else w
    case Delete => w.(definition := None)
    case Complete(task) => if task in w.runs then w.(runs := w.runs[task := w.runs[task].(active := false)]) else w
    case Remove(task) => w.(runs := w.runs - {task})
  }

  ghost function After(w: World, steps: seq<Step>, i: nat): World
    requires i <= |steps|
  {
    if i == 0 then w else Do(After(w, steps, i - 1), steps[i - 1])
  }

  predicate Start(w: World) {
    w.runs == map[] && w.born == {} && w.dispatchers == map[] && w.definition.Some? && w.definition.value.lastRun.None?
  }

  // ---- Pages never get ahead of the definition ----

  /** A page is the definition, or the definition has since been claimed or updated. */
  predicate Behind(page: Definition, now: Definition) {
    || page == now
    || page.revision < now.revision
    || (page.revision == now.revision && page.nextRun < now.nextRun && page.policy == now.policy)
  }

  predicate PageSound(w: World, x: Dispatcher) {
    && x.page.enabled && x.page.nextRun <= x.now
    && (w.definition.Some? ==> Behind(x.page, w.definition.value))
  }

  /** No run of the page's previous occurrence is active when the dispatcher goes ahead under Forbid or Replace. */
  predicate Clear(w: World, x: Dispatcher) {
    x.stage == Decided(false) && x.page.policy in {Forbid, Replace} && x.page.lastRun.Some? ==> !ActiveRun(w, x.page.lastRun.value)
  }

  ghost predicate Good(w: World) {
    && (forall d :: d in w.dispatchers ==> PageSound(w, w.dispatchers[d]) && Clear(w, w.dispatchers[d]))
    && w.runs.Keys <= w.born
    && (forall d :: d in w.dispatchers && w.dispatchers[d].page.lastRun.Some? ==> w.dispatchers[d].page.lastRun.value in w.born)
    && (w.definition.Some? && w.definition.value.lastRun.Some? ==> w.definition.value.lastRun.value in w.born)
    && (forall a, b :: a in w.runs && b in w.runs && w.runs[a].occurrence == w.runs[b].occurrence ==> a == b)
  }

  lemma CommitKeepsGood(w: World, s: Step)
    requires Good(w) && Claims(w, s) && s.task !in w.born
    ensures Good(Commit(w, s))
  {
    var occurrence := w.dispatchers[s.d].page.nextRun;
    assert forall other :: other in w.runs && w.runs[other].occurrence == occurrence ==> Taken(w, occurrence, other);
  }

  lemma DecideKeepsGood(w: World, d: nat, prepared: bool)
    requires Good(w) && d in w.dispatchers && w.dispatchers[d].stage == Rechecked
    ensures Good(DecideOn(w, d, prepared))
  {
  }

  lemma StepKeepsGood(w: World, s: Step)
    requires Good(w)
    ensures Good(Do(w, s))
  {
    if s.Claim? {
      if Claims(w, s) && s.task !in w.born {
        CommitKeepsGood(w, s);
      }
    } else if s.Decide? {
      if s.d in w.dispatchers && w.dispatchers[s.d].stage == Rechecked {
        DecideKeepsGood(w, s.d, s.prepared);
      }
    }
  }

  lemma {:induction false} RunKeepsGood(w: World, steps: seq<Step>, i: nat)
    requires Start(w) && i <= |steps|
    ensures Good(After(w, steps, i))
    decreases i
  {
    if i > 0 {
      RunKeepsGood(w, steps, i - 1);
      StepKeepsGood(After(w, steps, i - 1), steps[i - 1]);
    }
  }

  // ---- One active run ----

  /** No update in the run selects Allow. */
  predicate StaysExclusive(steps: seq<Step>) {
    forall i :: 0 <= i < |steps| && steps[i].Update? ==> steps[i].policy != Allow
  }

  /** Every page and the definition itself exclude overlap, and an active run is the last one recorded. */
  ghost predicate Exclusive(w: World) {
    && (w.definition.Some? ==> w.definition.value.policy != Allow)
    && (forall d :: d in w.dispatchers ==> w.dispatchers[d].page.policy != Allow)
    && (forall d :: d in w.dispatchers && w.dispatchers[d].stage == Decided(false) ==> w.dispatchers[d].page.policy != Unset)
    && (w.definition.Some? ==> forall task: nat :: ActiveRun(w, task) ==> w.definition.value.lastRun == Some(task))
    && (forall a, b :: ActiveRun(w, a) && ActiveRun(w, b) ==> a == b)
  }

  lemma CommitKeepsExclusive(w: World, s: Step)
    requires Good(w) && Exclusive(w) && Claims(w, s) && s.task !in w.born
    ensures Exclusive(Commit(w, s))
  {
    var x, w' := w.dispatchers[s.d], Commit(w, s);
    assert PageSound(w, x) && Clear(w, x) && x.page == w.definition.value;
    assert forall task: nat :: ActiveRun(w, task) ==> w.definition.value.lastRun == Some(task);
    assert forall task: nat :: ActiveRun(w', task) ==> ActiveRun(w, task) || w'.definition.value.lastRun == Some(task);
  }

  lemma DecideKeepsExclusive(w: World, d: nat, prepared: bool)
    requires Good(w) && Exclusive(w) && d in w.dispatchers
    ensures Exclusive(DecideOn(w, d, prepared))
  {
    assert forall task: nat :: ActiveRun(DecideOn(w, d, prepared), task) ==> ActiveRun(w, task);
  }

  lemma StepKeepsExclusive(w: World, s: Step)
    requires Good(w) && Exclusive(w) && (s.Update? ==> s.policy != Allow)
    ensures Exclusive(Do(w, s))
  {
    if s.Claim? && Claims(w, s) && s.task !in w.born {
      CommitKeepsExclusive(w, s);
    } else if s.Decide? && s.d in w.dispatchers && w.dispatchers[s.d].stage == Rechecked {
      DecideKeepsExclusive(w, s.d, s.prepared);
    } else {
      assert forall task: nat :: ActiveRun(Do(w, s), task) ==> ActiveRun(w, task);
    }
  }

  lemma {:induction false} RunKeepsExclusive(w: World, steps: seq<Step>, i: nat)
    requires Start(w) && w.definition.value.policy != Allow && StaysExclusive(steps) && i <= |steps|
    ensures Exclusive(After(w, steps, i))
    decreases i
  {
    if i > 0 {
      RunKeepsExclusive(w, steps, i - 1);
      RunKeepsGood(w, steps, i - 1);
      StepKeepsExclusive(After(w, steps, i - 1), steps[i - 1]);
    }
  }

  /**
    While the policy is never Allow, no two cron-started runs of a definition are ever active
    together, whatever stale pages its dispatchers work from.
   */
  lemma {:induction false} OneActiveRun(w: World, steps: seq<Step>, i: nat, a: nat, b: nat)
    requires Start(w) && w.definition.value.policy != Allow && StaysExclusive(steps) && i <= |steps|
    requires ActiveRun(After(w, steps, i), a) && ActiveRun(After(w, steps, i), b)
    ensures a == b
  {
    RunKeepsExclusive(w, steps, i);
  }

  /** In every state of every run, under any policy, an occurrence has at most one task. */
  lemma {:induction false} OneTaskPerOccurrence(w: World, steps: seq<Step>, i: nat, a: nat, b: nat)
    requires Start(w) && i <= |steps|
    requires a in After(w, steps, i).runs && b in After(w, steps, i).runs
    requires After(w, steps, i).runs[a].occurrence == After(w, steps, i).runs[b].occurrence
    ensures a == b
  {
    RunKeepsGood(w, steps, i);
  }

  // ---- An occurrence is claimed once ----

  predicate Before(a: Definition, b: Definition) {
    a.revision < b.revision || (a.revision == b.revision && a.nextRun < b.nextRun)
  }

  lemma DefinitionAdvances(w: World, s: Step)
    requires Good(w) && Do(w, s).definition.Some?
    ensures w.definition.Some?
    ensures Do(w, s).definition.value == w.definition.value || Before(w.definition.value, Do(w, s).definition.value)
    ensures s.Claim? && Claims(w, s) && s.task !in w.born ==> Before(w.definition.value, Do(w, s).definition.value)
  {
  }

  lemma {:induction false} DefinitionOnlyAdvances(w: World, steps: seq<Step>, i: nat, j: nat)
    requires Start(w) && i <= j <= |steps| && After(w, steps, j).definition.Some?
    ensures After(w, steps, i).definition.Some?
    ensures var a, b := After(w, steps, i).definition.value, After(w, steps, j).definition.value; a == b || Before(a, b)
    decreases j
  {
    if i < j {
      RunKeepsGood(w, steps, j - 1);
      DefinitionAdvances(After(w, steps, j - 1), steps[j - 1]);
      DefinitionOnlyAdvances(w, steps, i, j - 1);
    }
  }

  /** Step k commits a claim. */
  ghost predicate CommitsAt(w: World, steps: seq<Step>, k: nat)
    requires k < |steps|
  {
    Claims(After(w, steps, k), steps[k]) && steps[k].task !in After(w, steps, k).born
  }

  /** No two claims ever commit for the same revision and occurrence, skipped ones included; later claims are for later ones. */
  lemma {:induction false} ClaimsAdvance(w: World, steps: seq<Step>, i: nat, j: nat)
    requires Start(w) && i < j < |steps| && CommitsAt(w, steps, i) && CommitsAt(w, steps, j)
    ensures Before(After(w, steps, i).dispatchers[steps[i].d].page, After(w, steps, j).dispatchers[steps[j].d].page)
  {
    RunKeepsGood(w, steps, i);
    DefinitionAdvances(After(w, steps, i), steps[i]);
    DefinitionOnlyAdvances(w, steps, i + 1, j);
  }

  // ---- The dispatcher's page rotation ----

  const PAGE_SIZE := 100

  /** How the dispatch of one listed definition ends. */
  datatype Outcome = Started | Skipped | Failed | Interrupted

  function CountOf(rows: seq<Outcome>, kind: Outcome): nat {
    if rows == [] then 0 else CountOf(rows[..|rows| - 1], kind) + if rows[|rows| - 1] == kind then 1 else 0
  }

  /** The rows a pass handles: all of them, or those before the first interruption. */
  predicate Handled(rows: seq<Outcome>, n: nat) {
    && n <= |rows| && (forall k :: 0 <= k < n ==> rows[k] != Interrupted)
    && (n < |rows| ==> rows[n] == Interrupted)
  }

  class Rotation {
    var page: nat

    /** One pass over a page; failed definitions never keep later ones from being handled. */
    method Dispatch(rows: seq<Outcome>) returns (processed: nat, failures: nat, ghost handled: nat)
      requires |rows| <= PAGE_SIZE
      modifies this
      ensures Handled(rows, handled)
      ensures processed == CountOf(rows[..handled], Started) && failures == CountOf(rows[..handled], Outcome.Failed)
      ensures page == if handled < |rows| then (if old(page) == 0 then 1 else old(page))
                      else if |rows| == PAGE_SIZE then (if old(page) == 0 then 2 else old(page) + 1)
                      else 1
    {
      if page == 0 {
        page := 1;
      }
      processed, failures, handled := 0, 0, 0;
      for k := 0 to |rows|
        invariant handled == k && forall j :: 0 <= j < k ==> rows[j] != Interrupted
        invariant processed == CountOf(rows[..k], Started) && failures == CountOf(rows[..k], Outcome.Failed)
        invariant page == if old(page) == 0 then 1 else old(page)
      {
        assert rows[..k + 1][..k] == rows[..k];
        if rows[k] == Interrupted {
          return;
        }
        if rows[k] == Outcome.Failed {
          failures := failures + 1;
        } else if rows[k] == Started {
          processed := processed + 1;
        }
        handled := k + 1;
      }
      assert rows[..|rows|] == rows;
      if |rows| == PAGE_SIZE {
        page := page + 1;
      } else {
        page := 1;
      }
    }
  }
}
