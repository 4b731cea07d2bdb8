/**
  The declared resource budget of one admission pass: what each workspace already reserves,
  which reservations have an unknown size, and what retained trial environments still hold.
 */
module Resources {
  import opened Common

  datatype Resource = Pods | RequestsCpu | RequestsMemory | LimitsCpu | LimitsMemory | RequestsStorage | LimitsStorage

  /** A declaration; an empty one belongs to a job that runs no Pod, an absent one (None) has unknown size. */
  type Demand = map<Resource, int>

  datatype Budget = Budget(
    quota: Demand,
    used: map<string, Demand>,
    unknown: set<string>,
    active: set<string>,
    retained: map<string, Demand>)

  function Amount(d: Demand, k: Resource): int {
    if k in d then d[k] else 0
  }

  function Ledger(b: Budget, workspace: string): Demand {
    if workspace in b.used then b.used[workspace] else map[]
  }

  function Used(b: Budget, workspace: string, k: Resource): int {
    Amount(Ledger(b, workspace), k)
  }

  predicate NonNegative(d: Demand) {
    forall k :: k in d ==> d[k] >= 0
  }

  function Plus(a: Demand, b: Demand): Demand {
    map k | k in a.Keys + b.Keys :: Amount(a, k) + Amount(b, k)
  }

  /** A ledger after adding these resources of a declaration. */
  function Charged(ledger: Demand, d: Demand, keys: set<Resource>): Demand {
    map k | k in ledger.Keys + keys * d.Keys :: Amount(ledger, k) + if k in keys then Amount(d, k) else 0
  }

  lemma ChargeOneMore(ledger: Demand, d: Demand, keys: set<Resource>, key: Resource)
    requires key !in keys
    ensures key in d ==> Charged(ledger, d, keys + {key}) == Charged(ledger, d, keys)[key := Amount(ledger, key) + d[key]]
    ensures key !in d ==> Charged(ledger, d, keys + {key}) == Charged(ledger, d, keys)
    ensures Amount(Charged(ledger, d, keys), key) == Amount(ledger, key)
  {
    if key in d {
      assert ledger.Keys + (keys + {key}) * d.Keys == ledger.Keys + keys * d.Keys + {key};
    } else {
      assert ledger.Keys + (keys + {key}) * d.Keys == ledger.Keys + keys * d.Keys;
    }
  }

  /** Charges a workspace with one declaration. */
  function Add(b: Budget, workspace: string, demand: Option<Demand>): Budget {
    if demand.None? then b.(unknown := b.unknown + {workspace})
    else if demand.value == map[] then b
    else
      var d := demand.value;
      b.(used := b.used[workspace := Charged(Ledger(b, workspace), d, b.quota.Keys)],
         unknown := if b.quota.Keys <= d.Keys then b.unknown else b.unknown + {workspace})
  }

  /** The declaration is covered by what the workspace has left. */
  predicate Fits(b: Budget, workspace: string, demand: Option<Demand>) {
    && demand.Some?
    && (demand.value != map[] ==>
          && workspace !in b.unknown
          && forall k :: k in b.quota ==> k in demand.value && Used(b, workspace, k) + demand.value[k] <= b.quota[k])
  }

  /** What admitting a candidate adds: its declaration less what its execution already retains. */
  function CandidateDemand(b: Budget, execution: Option<string>, demand: Option<Demand>): Option<Demand> {
    if execution.None? || demand.None? || execution.value !in b.retained || b.retained[execution.value] == map[] then demand
    else
      var d, held := demand.value, b.retained[execution.value];
      Some(map k | k in d :: if k in held then (if d[k] - held[k] < 0 then 0 else d[k] - held[k]) else d[k])
  }

  /** A reserved trial environment: its workspace, its execution, and its size when that is known. */
  datatype Retained = Retained(workspace: string, execution: string, size: Option<Demand>)

  function Retain(b: Budget, r: Retained): Budget {
    if r.execution in b.active then b
    else if r.size.None? then Add(b, r.workspace, None)
    else
      var held := if r.execution in b.retained then b.retained[r.execution] else map[];
      Add(b, r.workspace, r.size).(retained := b.retained[r.execution := Plus(held, r.size.value)])
  }

  function RetainAll(b: Budget, rows: seq<Retained>): Budget {
    if rows == [] then b else Retain(RetainAll(b, rows[..|rows| - 1]), rows[|rows| - 1])
  }

  /** A job that already holds an admission when the pass reads it. */
  datatype Holder = Holder(workspace: string, execution: Option<string>, demand: Option<Demand>)

  /** The scan charges a holder's whole declaration and remembers its execution as live. */
  function Scan(b: Budget, h: Holder): Budget {
    Add(b, h.workspace, h.demand).(active := if h.execution.Some? then b.active + {h.execution.value} else b.active)
  }

  function ScanAll(b: Budget, holders: seq<Holder>): Budget {
    if holders == [] then b else Scan(ScanAll(b, holders[..|holders| - 1]), holders[|holders| - 1])
  }

  // ---- The methods of the pass ----

  datatype Reason = Admissible | Undeclared | UnknownReservation | NoDeclarationFor(key: Resource) | Exhausted(key: Resource)

  class JobResourceBudget {
    var budget: Budget
    /** The tracked resources, in the order in which they are reported. */
    const keys: seq<Resource>

    constructor (quota: Demand, keys: seq<Resource>)
      requires (forall k :: k in keys <==> k in quota) && (forall i, j :: 0 <= i < j < |keys| ==> keys[i] != keys[j])
      ensures Valid() && this.keys == keys && budget == Budget(quota, map[], {}, {}, map[])
    {
      this.keys := keys;
      budget := Budget(quota, map[], {}, {}, map[]);
    }

    predicate Valid()
      reads this
    {
      && (forall k :: k in keys <==> k in budget.quota)
      && (forall i, j :: 0 <= i < j < |keys| ==> keys[i] != keys[j])
    }

    method Charge(workspace: string, demand: Option<Demand>)
      requires Valid()
      modifies this
      ensures Valid() && budget == Add(old(budget), workspace, demand)
    {
      if demand.None? {
        budget := budget.(unknown := budget.unknown + {workspace});
        return;
      }
      var d := demand.value;
      if d == map[] {
        return;
      }
      ghost var before := budget;
      var ledger, complete := Ledger(budget, workspace), true;
      ghost var done := {};
      for i := 0 to |keys|
        invariant budget == before && done == set n | 0 <= n < i :: keys[n]
        invariant ledger == Charged(Ledger(before, workspace), d, done) && (complete <==> done <= d.Keys)
      {
        var key := keys[i];
        ChargeOneMore(Ledger(before, workspace), d, done, key);
        done := done + {key};
        if key in d {
          ledger := ledger[key := Amount(ledger, key) + d[key]];
        } else {
          complete := false;
        }
      }
      assert done == before.quota.Keys;
      budget := budget.(used := budget.used[workspace := ledger],
                        unknown := if complete then budget.unknown else budget.unknown + {workspace});
    }

    /** Charges every admitted job the pass lists and remembers which executions are live. */
    method ChargeHolders(holders: seq<Holder>)
      requires Valid()
      modifies this
      ensures Valid() && budget == ScanAll(old(budget), holders)
    {
      for i := 0 to |holders|
        invariant Valid() && budget == ScanAll(old(budget), holders[..i])
      {
        assert holders[..i + 1][..i] == holders[..i];
        var h := holders[i];
        Charge(h.workspace, h.demand);
        if h.execution.Some? {
          budget := budget.(active := budget.active + {h.execution.value});
        }
      }
      assert holders[..|holders|] == holders;
    }

    /** Charges the reserved environments whose execution is not live, and remembers what each such execution holds. */
    method ChargeRetained(rows: seq<Retained>)
      requires Valid()
      modifies this
      ensures Valid() && budget == RetainAll(old(budget), rows)
    {
      for i := 0 to |rows|
        invariant Valid() && budget == RetainAll(old(budget), rows[..i])
      {
        assert rows[..i + 1][..i] == rows[..i];
        var r := rows[i];
        if r.execution in budget.active {
          continue;
        }
        Charge(r.workspace, r.size);
        if r.size.Some? {
          var held := if r.execution in budget.retained then budget.retained[r.execution] else map[];
          budget := budget.(retained := budget.retained[r.execution := Plus(held, r.size.value)]);
        }
      }
      assert rows[..|rows|] == rows;
    }

    method Explain(workspace: string, demand: Option<Demand>) returns (reason: Reason)
      requires Valid()
      ensures reason == Admissible <==> Fits(budget, workspace, demand)
      ensures reason.NoDeclarationFor? ==> demand.Some? && reason.key in budget.quota && reason.key !in demand.value
      ensures reason.Exhausted? ==>
        && demand.Some? && reason.key in budget.quota && reason.key in demand.value
        && Used(budget, workspace, reason.key) + demand.value[reason.key] > budget.quota[reason.key]
    {
      if demand.Some? && demand.value == map[] {
        return Admissible;
      }
      if demand.None? {
        return Undeclared;
      }
      if workspace in budget.unknown {
        return UnknownReservation;
      }
      var d := demand.value;
      for i := 0 to |keys|
        invariant forall n :: 0 <= n < i ==> keys[n] in d && Used(budget, workspace, keys[n]) + d[keys[n]] <= budget.quota[keys[n]]
      {
        var key := keys[i];
        if key !in d {
          return NoDeclarationFor(key);
        }
        if Used(budget, workspace, key) + d[key] > budget.quota[key] {
          return Exhausted(key);
        }
      }
      return Admissible;
    }
  }

  // ---- Charging is exact ----

  lemma AddCharges(b: Budget, workspace: string, demand: Option<Demand>, other: string, k: Resource)
    ensures Used(Add(b, workspace, demand), other, k) ==
      Used(b, other, k) + if demand.Some? && other == workspace && k in b.quota then Amount(demand.value, k) else 0
  {
  }

  predicate Counts(b: Budget, r: Retained) {
    r.execution !in b.active && r.size.Some?
  }

  /** What the listed environments of one execution hold. */
  function Held(b: Budget, rows: seq<Retained>, execution: string, k: Resource): int {
    if rows == [] then 0
    else
      var r := rows[|rows| - 1];
      Held(b, rows[..|rows| - 1], execution, k) + if Counts(b, r) && r.execution == execution then Amount(r.size.value, k) else 0
  }

  /** What the listed environments in a workspace hold, other than those of one execution. */
  function HeldByOthers(b: Budget, rows: seq<Retained>, workspace: string, execution: string, k: Resource): int {
    if rows == [] then 0
    else
      var r := rows[|rows| - 1];
      HeldByOthers(b, rows[..|rows| - 1], workspace, execution, k)
      + if Counts(b, r) && r.workspace == workspace && r.execution != execution then Amount(r.size.value, k) else 0
  }

  predicate InWorkspace(rows: seq<Retained>, execution: string, workspace: string) {
    forall i :: 0 <= i < |rows| && rows[i].execution == execution ==> rows[i].workspace == workspace
  }

  function Reserved(b: Budget, execution: string, k: Resource): int {
    if execution in b.retained then Amount(b.retained[execution], k) else 0
  }

  lemma RetainCharges(b: Budget, r: Retained, workspace: string, k: Resource)
    ensures Retain(b, r).quota == b.quota && Retain(b, r).active == b.active
    ensures Used(Retain(b, r), workspace, k)
         == Used(b, workspace, k) + if Counts(b, r) && r.workspace == workspace && k in b.quota then Amount(r.size.value, k) else 0
  {
    AddCharges(b, r.workspace, r.size, workspace, k);
    assert Used(Retain(b, r), workspace, k) == if r.execution in b.active then Used(b, workspace, k) else Used(Add(b, r.workspace, r.size), workspace, k);
  }

  lemma RetainReserves(b: Budget, r: Retained, execution: string, k: Resource)
    ensures Reserved(Retain(b, r), execution, k)
         == Reserved(b, execution, k) + if Counts(b, r) && r.execution == execution then Amount(r.size.value, k) else 0
  {
  }

  lemma {:induction false} RetainAllCharges(b: Budget, rows: seq<Retained>, workspace: string, execution: string, k: Resource)
    requires b.retained == map[] && InWorkspace(rows, execution, workspace)
    ensures var after := RetainAll(b, rows);
      && after.quota == b.quota && after.active == b.active
      && (k in b.quota ==> Used(after, workspace, k) == Used(b, workspace, k) + Held(b, rows, execution, k) + HeldByOthers(b, rows, workspace, execution, k))
      && Reserved(after, execution, k) == Held(b, rows, execution, k)
  {
    if rows != [] {
      var n := |rows| - 1;
      RetainAllCharges(b, rows[..n], workspace, execution, k);
      RetainCharges(RetainAll(b, rows[..n]), rows[n], workspace, k);
      RetainReserves(RetainAll(b, rows[..n]), rows[n], execution, k);
    }
  }

  // ---- What a pass has charged before it admits ----

  function Executions(holders: seq<Holder>): set<string> {
    if holders == [] then {}
    else
      var h := holders[|holders| - 1];
      Executions(holders[..|holders| - 1]) + if h.execution.Some? then {h.execution.value} else {}
  }

  /** What the holders of a workspace declare. */
  function Declared(holders: seq<Holder>, workspace: string, k: Resource): int {
    if holders == [] then 0
    else
      var h := holders[|holders| - 1];
      Declared(holders[..|holders| - 1], workspace, k) + if h.workspace == workspace && h.demand.Some? then Amount(h.demand.value, k) else 0
  }

  /** What the environments of a workspace hold whose execution is not live. */
  function LeftOver(rows: seq<Retained>, live: set<string>, workspace: string, k: Resource): int {
    if rows == [] then 0
    else
      var r := rows[|rows| - 1];
      LeftOver(rows[..|rows| - 1], live, workspace, k)
      + if r.workspace == workspace && r.execution !in live && r.size.Some? then Amount(r.size.value, k) else 0
  }

  /** A declaration whose size is not known on every tracked resource. */
  predicate Incomplete(quota: Demand, demand: Option<Demand>) {
    demand.None? || (demand.value != map[] && !(quota.Keys <= demand.value.Keys))
  }

  predicate HolderUnknown(quota: Demand, holders: seq<Holder>, workspace: string) {
    exists i :: 0 <= i < |holders| && holders[i].workspace == workspace && Incomplete(quota, holders[i].demand)
  }

  predicate LeftOverUnknown(quota: Demand, rows: seq<Retained>, live: set<string>, workspace: string) {
    exists i :: 0 <= i < |rows| && rows[i].workspace == workspace && rows[i].execution !in live && Incomplete(quota, rows[i].size)
  }

  lemma {:induction false} ScanAllCharges(b: Budget, holders: seq<Holder>, workspace: string, k: Resource)
    requires k in b.quota
    ensures var after := ScanAll(b, holders);
      && after.quota == b.quota && after.active == b.active + Executions(holders)
      && Used(after, workspace, k) == Used(b, workspace, k) + Declared(holders, workspace, k)
    decreases |holders|
  {
    if holders != [] {
      var n := |holders| - 1;
      ScanAllCharges(b, holders[..n], workspace, k);
      AddCharges(ScanAll(b, holders[..n]), holders[n].workspace, holders[n].demand, workspace, k);
    }
  }

  lemma {:induction false} ScanAllMarks(b: Budget, holders: seq<Holder>, workspace: string)
    ensures ScanAll(b, holders).quota == b.quota
    ensures workspace in ScanAll(b, holders).unknown <==> workspace in b.unknown || HolderUnknown(b.quota, holders, workspace)
    decreases |holders|
  {
    if holders != [] {
      var n := |holders| - 1;
      ScanAllMarks(b, holders[..n], workspace);
      ScanMarks(ScanAll(b, holders[..n]), holders[n], workspace);
    }
  }

  lemma ScanMarks(b: Budget, h: Holder, workspace: string)
    ensures workspace in Scan(b, h).unknown <==> workspace in b.unknown || (h.workspace == workspace && Incomplete(b.quota, h.demand))
  {
  }

  lemma {:induction false} LeftOverCharges(b: Budget, rows: seq<Retained>, workspace: string, k: Resource)
    requires k in b.quota
    ensures var after := RetainAll(b, rows);
      && after.quota == b.quota && after.active == b.active
      && Used(after, workspace, k) == Used(b, workspace, k) + LeftOver(rows, b.active, workspace, k)
    decreases |rows|
  {
    if rows != [] {
      var n := |rows| - 1;
      LeftOverCharges(b, rows[..n], workspace, k);
      RetainCharges(RetainAll(b, rows[..n]), rows[n], workspace, k);
    }
  }

  lemma {:induction false} LeftOverMarks(b: Budget, rows: seq<Retained>, workspace: string)
    ensures RetainAll(b, rows).quota == b.quota && RetainAll(b, rows).active == b.active
    ensures workspace in RetainAll(b, rows).unknown <==> workspace in b.unknown || LeftOverUnknown(b.quota, rows, b.active, workspace)
    decreases |rows|
  {
    if rows != [] {
      var n := |rows| - 1;
      LeftOverMarks(b, rows[..n], workspace);
      RetainMarks(RetainAll(b, rows[..n]), rows[n], workspace);
    }
  }

  lemma RetainMarks(b: Budget, r: Retained, workspace: string)
    ensures workspace in Retain(b, r).unknown
       <==> workspace in b.unknown || (r.workspace == workspace && r.execution !in b.active && Incomplete(b.quota, r.size))
  {
  }

  /**
    A live bundle is charged once. After the scan and the retained environments, each workspace is
    charged the declarations of its holders and the environments of executions no holder runs,
    nothing twice and nothing else; its size is unknown exactly when one of those is.
   */
  lemma LiveBundleChargedOnce(quota: Demand, holders: seq<Holder>, rows: seq<Retained>, workspace: string, k: Resource)
    requires k in quota
    ensures var after := RetainAll(ScanAll(Budget(quota, map[], {}, {}, map[]), holders), rows);
      && Used(after, workspace, k) == Declared(holders, workspace, k) + LeftOver(rows, Executions(holders), workspace, k)
      && (workspace in after.unknown <==> HolderUnknown(quota, holders, workspace) || LeftOverUnknown(quota, rows, Executions(holders), workspace))
  {
    var empty := Budget(quota, map[], {}, {}, map[]);
    ScanAllCharges(empty, holders, workspace, k);
    ScanAllMarks(empty, holders, workspace);
    assert empty.active + Executions(holders) == Executions(holders);
    LeftOverCharges(ScanAll(empty, holders), rows, workspace, k);
    LeftOverMarks(ScanAll(empty, holders), rows, workspace);
  }

  /**
    A recovered execution is charged the larger of what it declares and what it already
    retains, on every tracked resource it declares: neither twice nor too little.
   */
  lemma RecoveredExecutionChargedMax(b: Budget, rows: seq<Retained>, workspace: string, execution: string, declared: Demand, k: Resource)
    requires b.retained == map[] && InWorkspace(rows, execution, workspace)
    requires k in b.quota && k in declared && NonNegative(declared)
    requires forall i :: 0 <= i < |rows| && rows[i].size.Some? ==> NonNegative(rows[i].size.value)
    ensures var scanned := RetainAll(b, rows);
      var held := Held(b, rows, execution, k);
      Used(Add(scanned, workspace, CandidateDemand(scanned, Some(execution), Some(declared))), workspace, k) ==
        Used(b, workspace, k) + HeldByOthers(b, rows, workspace, execution, k) + if declared[k] < held then held else declared[k]
  {
    RetainAllCharges(b, rows, workspace, execution, k);
    var scanned := RetainAll(b, rows);
    var extra := CandidateDemand(scanned, Some(execution), Some(declared));
    AddCharges(scanned, workspace, extra, workspace, k);
    HeldNonNegative(b, rows, execution, k);
  }

  lemma {:induction false} HeldNonNegative(b: Budget, rows: seq<Retained>, execution: string, k: Resource)
    requires forall i :: 0 <= i < |rows| && rows[i].size.Some? ==> NonNegative(rows[i].size.value)
    ensures Held(b, rows, execution, k) >= 0
  {
    if rows != [] {
      HeldNonNegative(b, rows[..|rows| - 1], execution, k);
    }
  }

  // ---- Quotas ----

  predicate WithinQuota(b: Budget, workspace: string) {
    forall k :: k in b.quota ==> Used(b, workspace, k) <= b.quota[k]
  }

  /** Admitting what fits keeps the workspace within quota and touches no other. */
  lemma FittingKeepsQuota(b: Budget, workspace: string, demand: Option<Demand>, other: string)
    requires Fits(b, workspace, demand) && WithinQuota(b, other)
    ensures WithinQuota(Add(b, workspace, demand), other)
  {
    forall k | k in b.quota
      ensures Used(Add(b, workspace, demand), other, k) <= b.quota[k]
    {
      AddCharges(b, workspace, demand, other, k);
    }
  }
}
