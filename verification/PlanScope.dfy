/**
  Two transformations of a workflow's plan: restricting it to the changed components of a version
  update, and merging persisted cleanup jobs into it.
 */
module PlanScope {
  import opened Common

  /** One property list of a step: the components it names. */
  type Policies = seq<string>

  datatype SubStep = SubStep(name: string, kind: string, properties: seq<Policies>)

  datatype Step = Step(name: string, approval: bool, kind: string, properties: seq<Policies>, subSteps: seq<Option<SubStep>>)

  const EMPTY_STEP := Step("", false, "", [], [])
  const DEPLOY := "deploy"

  function Trim(s: string): string {
    if s != "" && IsSpace(s[0]) then Trim(s[1..])
    else if s != "" && IsSpace(s[|s| - 1]) then Trim(s[..|s| - 1])
    else s
  }

  predicate DeploysKind(kind: string) {
    Trim(kind) in {"", DEPLOY}
  }

  function Flat(properties: seq<Policies>): seq<string> {
    if properties == [] then [] else properties[0] + Flat(properties[1..])
  }

  /** The components a step or sub-step stands for: those its properties name, or else the one it is named after. */
  function ComponentNames(name: string, properties: seq<Policies>): seq<string> {
    if Flat(properties) == [] && name != "" then [name] else Flat(properties)
  }

  function UnitNames(sub: Option<SubStep>): seq<string> {
    if sub.Some? && DeploysKind(sub.value.kind) then ComponentNames(sub.value.name, sub.value.properties) else []
  }

  /** The components an execution of a step deploys, in order. */
  function SubDeploys(subs: seq<Option<SubStep>>): seq<string> {
    if subs == [] then []
    else
      UnitNames(subs[0]) + SubDeploys(subs[1..])
  }

  function Deploys(step: Option<Step>): seq<string> {
    if step.None? || step.value.approval then []
    else if step.value.subSteps != [] then SubDeploys(step.value.subSteps)
    else if DeploysKind(step.value.kind) then ComponentNames(step.value.name, step.value.properties)
    else []
  }

  function Keep(names: seq<string>, allowed: set<string>): seq<string> {
    if names == [] then [] else (if names[0] in allowed then [names[0]] else []) + Keep(names[1..], allowed)
  }

  // ---- The changed-components filter ----

  function FilterPolicies(properties: seq<Policies>, allowed: set<string>): seq<Policies> {
    if properties == [] then []
    else
      var names := Keep(properties[0], allowed);
      (if names == [] then [] else [names]) + FilterPolicies(properties[1..], allowed)
  }

  function FilterSubStep(sub: Option<SubStep>, allowed: set<string>): Option<SubStep> {
    if sub.None? || !DeploysKind(sub.value.kind) then None
    else if sub.value.properties != [] then
      var properties := FilterPolicies(sub.value.properties, allowed);
      if properties == [] then None else Some(sub.value.(properties := properties))
    else if sub.value.name in allowed then sub
    else None
  }

  function FilterSubSteps(subs: seq<Option<SubStep>>, allowed: set<string>): seq<Option<SubStep>> {
    if subs == [] then []
    else
      var sub := FilterSubStep(subs[0], allowed);
      (if sub.None? then [] else [sub]) + FilterSubSteps(subs[1..], allowed)
  }

  function FilterStep(step: Option<Step>, allowed: set<string>): Option<Step> {
    if step.None? || step.value.approval then step
    else if step.value.subSteps != [] then
      var subs := FilterSubSteps(step.value.subSteps, allowed);
      if subs == [] then None else Some(step.value.(subSteps := subs))
    else if !DeploysKind(step.value.kind) then None
    else if step.value.properties != [] then
      var properties := FilterPolicies(step.value.properties, allowed);
      if properties == [] then None else Some(step.value.(properties := properties))
    else if step.value.name in allowed then step
    else None
  }

  /** The components named by the update; an empty name allows nothing. */
  function Allowed(components: seq<string>): set<string> {
    (set name | name in components) - {""}
  }

  /** A dropped step leaves an empty one behind, so step indices keep their meaning. */
  method FilterSteps(steps: seq<Option<Step>>, components: seq<string>) returns (filtered: seq<Option<Step>>)
    ensures |filtered| == |steps|
    ensures forall i :: 0 <= i < |steps| ==> filtered[i] == Filtered(steps[i], Allowed(components))
  {
    var allowed: set<string> := {};
    for k := 0 to |components|
      invariant allowed == (set name | name in components[..k]) - {""}
    {
      if components[k] != "" {
        allowed := allowed + {components[k]};
      }
    }
    assert components[..|components|] == components;
    filtered := [];
    for i := 0 to |steps|
      invariant |filtered| == i
      invariant forall j :: 0 <= j < i ==> filtered[j] == Filtered(steps[j], allowed)
    {
      var step := FilterStep(steps[i], allowed);
      if step.None? {
        step := Some(EMPTY_STEP);
      }
      filtered := filtered + [step];
    }
  }

  function Filtered(step: Option<Step>, allowed: set<string>): Option<Step> {
    if FilterStep(step, allowed).None? then Some(EMPTY_STEP) else FilterStep(step, allowed)
  }

  // ---- When the filter deploys exactly the allowed components ----

  /** The property lists are there but name nothing, so the step is named after its component, which is allowed. */
  predicate Hidden(name: string, properties: seq<Policies>, allowed: set<string>) {
    properties != [] && Flat(properties) == [] && name in allowed
  }

  predicate SubHidden(sub: Option<SubStep>, allowed: set<string>) {
    sub.Some? && DeploysKind(sub.value.kind) && Hidden(sub.value.name, sub.value.properties, allowed)
  }

  predicate StepHidden(step: Option<Step>, allowed: set<string>) {
    && step.Some? && !step.value.approval
    && if step.value.subSteps != [] then exists k :: 0 <= k < |step.value.subSteps| && SubHidden(step.value.subSteps[k], allowed)
       else DeploysKind(step.value.kind) && Hidden(step.value.name, step.value.properties, allowed)
  }

  lemma {:induction false} KeepConcat(a: seq<string>, b: seq<string>, allowed: set<string>)
    ensures Keep(a + b, allowed) == Keep(a, allowed) + Keep(b, allowed)
    decreases |a|
  {
    if a == [] {
      assert a + b == b;
    } else {
      KeepConcat(a[1..], b, allowed);
      assert (a + b)[0] == a[0] && (a + b)[1..] == a[1..] + b;
      var head := if a[0] in allowed then [a[0]] else [];
      assert head + (Keep(a[1..], allowed) + Keep(b, allowed)) == head + Keep(a[1..], allowed) + Keep(b, allowed);
    }
  }

  lemma {:induction false} FilterPoliciesExact(properties: seq<Policies>, allowed: set<string>)
    ensures Flat(FilterPolicies(properties, allowed)) == Keep(Flat(properties), allowed)
    ensures FilterPolicies(properties, allowed) == [] <==> Keep(Flat(properties), allowed) == []
  {
    if properties != [] {
      var names, rest := Keep(properties[0], allowed), FilterPolicies(properties[1..], allowed);
      FilterPoliciesExact(properties[1..], allowed);
      KeepConcat(properties[0], Flat(properties[1..]), allowed);
      if names != [] {
        assert ([names] + rest)[1..] == rest;
      } else {
        assert [] + rest == rest;
      }
    }
  }

  /** The names a filtered unit stands for; the empty sequence when it is dropped. */
  function Remaining(name: string, properties: seq<Policies>, allowed: set<string>): seq<string> {
    if properties != [] then
      if FilterPolicies(properties, allowed) == [] then [] else ComponentNames(name, FilterPolicies(properties, allowed))
    else if name in allowed then ComponentNames(name, properties)
    else []
  }

  lemma RemainingExact(name: string, properties: seq<Policies>, allowed: set<string>)
    requires "" !in allowed
    ensures Remaining(name, properties, allowed)
         == if Hidden(name, properties, allowed) then [] else Keep(ComponentNames(name, properties), allowed)
    ensures Hidden(name, properties, allowed) ==> Keep(ComponentNames(name, properties), allowed) == [name]
  {
    FilterPoliciesExact(properties, allowed);
    assert name in allowed ==> Keep([name], allowed) == [name];
  }

  /** Sub-steps keep the allowed components in order, except that each hidden one loses its name. */
  lemma {:induction false} SubStepsExact(subs: seq<Option<SubStep>>, allowed: set<string>)
    requires "" !in allowed
    ensures |SubDeploys(FilterSubSteps(subs, allowed))| <= |Keep(SubDeploys(subs), allowed)|
    ensures SubDeploys(FilterSubSteps(subs, allowed)) == Keep(SubDeploys(subs), allowed)
       <==> forall k :: 0 <= k < |subs| ==> !SubHidden(subs[k], allowed)
  {
    if subs != [] {
      SubStepsExact(subs[1..], allowed);
      var head, rest := FilterSubStep(subs[0], allowed), FilterSubSteps(subs[1..], allowed);
      var names := UnitNames(subs[0]);
      KeepConcat(names, SubDeploys(subs[1..]), allowed);
      HeadExact(subs[0], allowed);
      HeadDeploys(head, rest);
      assert SubDeploys(FilterSubSteps(subs, allowed)) == UnitNames(head) + SubDeploys(rest) by {
        assert [] + rest == rest;
      }
      Cancel(UnitNames(head), SubDeploys(rest), Keep(SubDeploys(subs[1..]), allowed));
      SplitForall(subs, allowed);
    }
  }

  lemma HeadExact(sub: Option<SubStep>, allowed: set<string>)
    requires "" !in allowed
    ensures UnitNames(FilterSubStep(sub, allowed)) == if SubHidden(sub, allowed) then [] else Keep(UnitNames(sub), allowed)
    ensures SubHidden(sub, allowed) ==> |Keep(UnitNames(sub), allowed)| == 1
  {
    if sub.Some? && DeploysKind(sub.value.kind) {
      RemainingExact(sub.value.name, sub.value.properties, allowed);
    }
  }

  lemma Cancel(a: seq<string>, b: seq<string>, c: seq<string>)
    ensures a + b == a + c <==> b == c
  {
    assert (a + b)[|a|..] == b && (a + c)[|a|..] == c;
  }

  lemma HeadDeploys(head: Option<SubStep>, rest: seq<Option<SubStep>>)
    ensures SubDeploys([head] + rest) == UnitNames(head) + SubDeploys(rest)
  {
    assert ([head] + rest)[1..] == rest;
  }

  lemma SplitForall(subs: seq<Option<SubStep>>, allowed: set<string>)
    requires subs != []
    ensures (forall k :: 0 <= k < |subs| ==> !SubHidden(subs[k], allowed))
       <==> !SubHidden(subs[0], allowed) && forall k :: 0 <= k < |subs[1..]| ==> !SubHidden(subs[1..][k], allowed)
  {
    assert forall k :: 0 <= k < |subs[1..]| ==> subs[1..][k] == subs[k + 1];
    assert forall k :: 0 < k < |subs| ==> subs[k] == subs[1..][k - 1];
  }

  /** A filtered step deploys exactly the allowed components of the step, in order, if and only if it hides none. */
  lemma FilterExact(step: Option<Step>, components: seq<string>)
    ensures var allowed := Allowed(components);
      Deploys(Filtered(step, allowed)) == Keep(Deploys(step), allowed) <==> !StepHidden(step, allowed)
  {
    var allowed := Allowed(components);
    if step.Some? && !step.value.approval {
      if step.value.subSteps != [] {
        SubStepsExact(step.value.subSteps, allowed);
      } else if DeploysKind(step.value.kind) {
        RemainingExact(step.value.name, step.value.properties, allowed);
      }
    }
  }

  /** Approvals stay where they are, and no step becomes one. */
  lemma FilterKeepsApprovals(step: Option<Step>, allowed: set<string>)
    ensures step.Some? && step.value.approval ==> Filtered(step, allowed) == step
    ensures step.Some? && Filtered(step, allowed).value.approval ==> step.value.approval
  {
  }

  /** A step whose only property list is empty is executed for the component it is named after, but the filter drops it. */
  lemma EmptyPropertyListIsDropped()
    ensures var step := Some(Step("web", false, "", [[]], [])); var allowed := Allowed(["web"]);
      Deploys(step) == ["web"] && Keep(Deploys(step), allowed) == ["web"] && Deploys(Filtered(step, allowed)) == []
  {
    assert Flat([[]]) == [[]][0] + Flat([[]][1..]);
    assert Keep(["web"], Allowed(["web"])) == ["web"];
    assert FilterPolicies([[]], Allowed(["web"])) == [];
  }

  // ---- Merging persisted cleanup jobs ----

  datatype Job = Job(name: string)

  /** One execution of the plan: a step's own, or the cleanup inserted before a step. */
  datatype Execution = Own(name: string, jobs: seq<Job>) | Cleanup(jobs: seq<Job>)

  /** A persisted cleanup job and the step it goes before; the job is absent when its record cannot be rebuilt. */
  datatype Record = Record(before: int, job: Option<Job>)

  function Clamp(index: int, stepCount: nat): nat {
    if index < 0 then 0 else if index > stepCount then stepCount else index
  }

  /** The cleanup jobs that go before a step, in the order of their records. */
  function JobsBefore(records: seq<Record>, stepCount: nat, step: nat): seq<Job> {
    if records == [] then []
    else
      var last := records[|records| - 1];
      JobsBefore(records[..|records| - 1], stepCount, step)
      + if last.job.Some? && Clamp(last.before, stepCount) == step then [last.job.value] else []
  }

  /** The cleanup map holds what the records say, for every step. */
  ghost predicate Builds(cleanup: map<nat, seq<Job>>, records: seq<Record>, stepCount: nat) {
    && (forall step :: step in cleanup ==> step <= stepCount && cleanup[step] == JobsBefore(records, stepCount, step) != [])
    && (forall step: nat :: JobsBefore(records, stepCount, step) != [] ==> step in cleanup)
  }

  method BuildCleanup(records: seq<Record>, stepCount: nat) returns (cleanup: map<nat, seq<Job>>)
    ensures Builds(cleanup, records, stepCount)
  {
    cleanup := map[];
    for k := 0 to |records|
      invariant Builds(cleanup, records[..k], stepCount)
    {
      assert records[..k + 1][..k] == records[..k];
      if records[k].job.Some? {
        var index := records[k].before;
        if index < 0 {
          index := 0;
        }
        if index > stepCount {
          index := stepCount;
        }
        if index !in cleanup {
          cleanup := cleanup[index := []];
        }
        cleanup := cleanup[index := cleanup[index] + [records[k].job.value]];
      }
    }
    assert records[..|records|] == records;
  }

  function CleanupBefore(cleanup: map<nat, seq<Job>>, step: nat): seq<Execution> {
    if step in cleanup && cleanup[step] != [] then [Cleanup(cleanup[step])] else []
  }

  /** The plan up to, and not including, a step's cleanup. */
  function MergedTo(groups: seq<seq<Execution>>, cleanup: map<nat, seq<Job>>, step: nat): seq<Execution>
    requires step <= |groups|
  {
    if step == 0 then [] else MergedTo(groups, cleanup, step - 1) + CleanupBefore(cleanup, step - 1) + groups[step - 1]
  }

  function CountJobs(plan: seq<Execution>): nat {
    if plan == [] then 0 else CountJobs(plan[..|plan| - 1]) + |plan[|plan| - 1].jobs|
  }

  method Merge(groups: seq<seq<Execution>>, cleanup: map<nat, seq<Job>>) returns (plan: seq<Execution>, total: nat)
    ensures plan == FullPlan(groups, cleanup)
    ensures total == CountJobs(plan)
  {
    plan, total := [], 0;
    for step := 0 to |groups|
      invariant plan == MergedTo(groups, cleanup, step) && total == CountJobs(plan)
    {
      plan, total := AppendCleanup(plan, total, cleanup, step);
      plan, total := AppendGroup(plan, total, groups[step]);
    }
    plan, total := AppendCleanup(plan, total, cleanup, |groups|);
  }

  method AppendGroup(plan: seq<Execution>, total: nat, group: seq<Execution>) returns (longer: seq<Execution>, sum: nat)
    requires total == CountJobs(plan)
    ensures longer == plan + group && sum == CountJobs(longer)
  {
    longer, sum := plan, total;
    for k := 0 to |group|
      invariant longer == plan + group[..k] && sum == CountJobs(longer)
    {
      ghost var shorter := longer;
      longer := longer + [group[k]];
      assert longer[..|longer| - 1] == shorter;
      sum := sum + |group[k].jobs|;
    }
    assert group[..|group|] == group;
  }

  method AppendCleanup(plan: seq<Execution>, total: nat, cleanup: map<nat, seq<Job>>, step: nat) returns (longer: seq<Execution>, sum: nat)
    requires total == CountJobs(plan)
    ensures longer == plan + CleanupBefore(cleanup, step) && sum == CountJobs(longer)
  {
    longer, sum := plan, total;
    if step in cleanup && cleanup[step] != [] {
      longer := plan + [Cleanup(cleanup[step])];
      assert longer[..|longer| - 1] == plan;
      sum := total + |cleanup[step]|;
    }
  }

  lemma {:induction false} MergedPrefix(groups: seq<seq<Execution>>, cleanup: map<nat, seq<Job>>, i: nat, j: nat)
    requires i <= j <= |groups|
    ensures MergedTo(groups, cleanup, i) <= MergedTo(groups, cleanup, j)
    decreases j
  {
    if i < j {
      MergedPrefix(groups, cleanup, i, j - 1);
    }
  }

  function FullPlan(groups: seq<seq<Execution>>, cleanup: map<nat, seq<Job>>): seq<Execution> {
    MergedTo(groups, cleanup, |groups|) + CleanupBefore(cleanup, |groups|)
  }

  /**
    Before each step's own executions, and after everything of earlier steps, comes exactly one
    cleanup with the jobs whose clamped index is that step, in order; none when there are none.
   */
  lemma CleanupInPlace(groups: seq<seq<Execution>>, cleanup: map<nat, seq<Job>>, records: seq<Record>, step: nat)
    requires Builds(cleanup, records, |groups|) && step <= |groups|
    ensures var jobs := JobsBefore(records, |groups|, step);
      MergedTo(groups, cleanup, step) + (if jobs == [] then [] else [Cleanup(jobs)]) + OwnOf(groups, step) <= FullPlan(groups, cleanup)
  {
    CleanupBeforeIs(cleanup, records, |groups|, step);
    PartsInPlace(groups, cleanup, step);
  }

  function OwnOf(groups: seq<seq<Execution>>, step: nat): seq<Execution> {
    if step < |groups| then groups[step] else []
  }

  lemma PartsInPlace(groups: seq<seq<Execution>>, cleanup: map<nat, seq<Job>>, step: nat)
    requires step <= |groups|
    ensures MergedTo(groups, cleanup, step) + CleanupBefore(cleanup, step) + OwnOf(groups, step) <= FullPlan(groups, cleanup)
  {
    if step < |groups| {
      MergedPrefix(groups, cleanup, step + 1, |groups|);
      PrefixExtends(MergedTo(groups, cleanup, step + 1), MergedTo(groups, cleanup, |groups|), CleanupBefore(cleanup, |groups|));
    } else {
      assert FullPlan(groups, cleanup) + [] == FullPlan(groups, cleanup);
    }
  }

  lemma CleanupBeforeIs(cleanup: map<nat, seq<Job>>, records: seq<Record>, stepCount: nat, step: nat)
    requires Builds(cleanup, records, stepCount)
    ensures var jobs := JobsBefore(records, stepCount, step); CleanupBefore(cleanup, step) == if jobs == [] then [] else [Cleanup(jobs)]
  {
  }

  lemma PrefixExtends(a: seq<Execution>, b: seq<Execution>, c: seq<Execution>)
    requires a <= b
    ensures a <= b + c
  {
  }

  // ---- No cleanup job is lost or repeated ----

  function Occurrences(jobs: seq<Job>, job: Job): nat {
    if jobs == [] then 0 else Occurrences(jobs[..|jobs| - 1], job) + if jobs[|jobs| - 1] == job then 1 else 0
  }

  /** How often a job occurs among the cleanups of a plan. */
  function InCleanups(plan: seq<Execution>, job: Job): nat {
    if plan == [] then 0
    else InCleanups(plan[..|plan| - 1], job) + if plan[|plan| - 1].Cleanup? then Occurrences(plan[|plan| - 1].jobs, job) else 0
  }

  /** How often a job was recorded. */
  function Recorded(records: seq<Record>, job: Job): nat {
    if records == [] then 0
    else Recorded(records[..|records| - 1], job) + if records[|records| - 1].job == Some(job) then 1 else 0
  }

  function Sum(f: nat -> nat, bound: nat): nat {
    if bound == 0 then 0 else Sum(f, bound - 1) + f(bound - 1)
  }

  /** How often a job goes before each step. */
  function Before(records: seq<Record>, stepCount: nat, job: Job): nat -> nat {
    (step: nat) => Occurrences(JobsBefore(records, stepCount, step), job)
  }

  lemma {:induction false} SumOfOneMore(f: nat -> nat, g: nat -> nat, index: nat, more: nat, bound: nat)
    requires forall step: nat :: f(step) == g(step) + if step == index then more else 0
    ensures Sum(f, bound) == Sum(g, bound) + if index < bound then more else 0
    decreases bound
  {
    if bound > 0 {
      SumOfOneMore(f, g, index, more, bound - 1);
    }
  }

  lemma {:induction false} SumOfNone(f: nat -> nat, bound: nat)
    requires forall step: nat :: f(step) == 0
    ensures Sum(f, bound) == 0
    decreases bound
  {
    if bound > 0 {
      SumOfNone(f, bound - 1);
    }
  }

  lemma OccurrencesAppend(jobs: seq<Job>, last: Job, job: Job)
    ensures Occurrences(jobs + [last], job) == Occurrences(jobs, job) + if last == job then 1 else 0
  {
    assert (jobs + [last])[..|jobs|] == jobs;
  }

  lemma JobsBeforeExtends(records: seq<Record>, stepCount: nat, step: nat, job: Job)
    requires records != []
    ensures var last, shorter := records[|records| - 1], records[..|records| - 1];
      Occurrences(JobsBefore(records, stepCount, step), job)
        == Occurrences(JobsBefore(shorter, stepCount, step), job) + if last.job == Some(job) && Clamp(last.before, stepCount) == step then 1 else 0
  {
    var last, shorter := records[|records| - 1], records[..|records| - 1];
    if last.job.Some? {
      OccurrencesAppend(JobsBefore(shorter, stepCount, step), last.job.value, job);
    }
    assert JobsBefore(shorter, stepCount, step) + [] == JobsBefore(shorter, stepCount, step);
  }

  /** Every record's clamped index is a step or the end of the plan, so all recorded jobs are placed. */
  lemma {:induction false} EveryRecordHasItsStep(records: seq<Record>, stepCount: nat, job: Job)
    ensures Sum(Before(records, stepCount, job), stepCount + 1) == Recorded(records, job)
  {
    if records == [] {
      SumOfNone(Before(records, stepCount, job), stepCount + 1);
    } else {
      var last, shorter := records[|records| - 1], records[..|records| - 1];
      EveryRecordHasItsStep(shorter, stepCount, job);
      forall step: nat {
        JobsBeforeExtends(records, stepCount, step, job);
      }
      SumOfOneMore(Before(records, stepCount, job), Before(shorter, stepCount, job), Clamp(last.before, stepCount),
                   if last.job == Some(job) then 1 else 0, stepCount + 1);
    }
  }

  lemma {:induction false} InCleanupsConcat(a: seq<Execution>, b: seq<Execution>, job: Job)
    ensures InCleanups(a + b, job) == InCleanups(a, job) + InCleanups(b, job)
  {
    if b == [] {
      assert a + b == a;
    } else {
      assert (a + b)[..|a + b| - 1] == a + b[..|b| - 1];
      InCleanupsConcat(a, b[..|b| - 1], job);
    }
  }

  lemma {:induction false} OwnHasNoCleanup(group: seq<Execution>, job: Job)
    requires forall k :: 0 <= k < |group| ==> group[k].Own?
    ensures InCleanups(group, job) == 0
  {
    if group != [] {
      OwnHasNoCleanup(group[..|group| - 1], job);
    }
  }

  lemma ThreeParts(earlier: seq<Execution>, before: seq<Execution>, group: seq<Execution>, job: Job)
    requires forall k :: 0 <= k < |group| ==> group[k].Own?
    ensures InCleanups(earlier + before + group, job) == InCleanups(earlier, job) + InCleanups(before, job)
  {
    OwnHasNoCleanup(group, job);
    InCleanupsConcat(earlier + before, group, job);
    InCleanupsConcat(earlier, before, job);
  }

  lemma CleanupBeforeHolds(cleanup: map<nat, seq<Job>>, records: seq<Record>, stepCount: nat, step: nat, job: Job)
    requires Builds(cleanup, records, stepCount)
    ensures InCleanups(CleanupBefore(cleanup, step), job) == Occurrences(JobsBefore(records, stepCount, step), job)
  {
    var jobs := JobsBefore(records, stepCount, step);
    if jobs != [] {
      var one := [Cleanup(jobs)];
      assert one[..|one| - 1] == [];
      assert CleanupBefore(cleanup, step) == one;
    }
  }

  lemma {:induction false} MergedHolds(groups: seq<seq<Execution>>, cleanup: map<nat, seq<Job>>, records: seq<Record>, step: nat, job: Job)
    requires Builds(cleanup, records, |groups|) && step <= |groups|
    requires forall i, k :: 0 <= i < |groups| && 0 <= k < |groups[i]| ==> groups[i][k].Own?
    ensures InCleanups(MergedTo(groups, cleanup, step), job) == Sum(Before(records, |groups|, job), step)
    decreases step
  {
    if step > 0 {
      MergedHolds(groups, cleanup, records, step - 1, job);
      CleanupBeforeHolds(cleanup, records, |groups|, step - 1, job);
      ThreeParts(MergedTo(groups, cleanup, step - 1), CleanupBefore(cleanup, step - 1), groups[step - 1], job);
    }
  }

  /** The cleanups of the merged plan hold every persisted job exactly as often as it was recorded. */
  lemma CleanupConserved(groups: seq<seq<Execution>>, cleanup: map<nat, seq<Job>>, records: seq<Record>, job: Job)
    requires Builds(cleanup, records, |groups|)
    requires forall i, k :: 0 <= i < |groups| && 0 <= k < |groups[i]| ==> groups[i][k].Own?
    ensures InCleanups(FullPlan(groups, cleanup), job) == Recorded(records, job)
  {
    MergedHolds(groups, cleanup, records, |groups|, job);
    CleanupBeforeHolds(cleanup, records, |groups|, |groups|, job);
    InCleanupsConcat(MergedTo(groups, cleanup, |groups|), CleanupBefore(cleanup, |groups|), job);
    EveryRecordHasItsStep(records, |groups|, job);
  }
}
