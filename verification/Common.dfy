/** What several parts of the runtime share: optional columns, statuses and durations. */
module Common {

  /** A nullable column or an absent row. */
  datatype Option<+T> = None | Some(value: T)

  /** The statuses a workflow task or a job record can carry. */
  datatype Status =
    | Created | Running | Waiting | Queued | Blocked | Pending | Prepare | WaitingApprove
    | Distributed | DebugBefore | DebugAfter
    | Completed | Passed | Skipped | Failed | Timeout | Cancelled | Reject | NotRun

  /** Statuses in which a task still occupies its slot in lifecycle decisions. */
  predicate Active(s: Status) {
    s in {Created, Running, Waiting, Queued, Blocked, Pending, Prepare, WaitingApprove,
          Distributed, DebugBefore, DebugAfter}
  }

  /** Statuses that end an execution. */
  predicate Terminal(s: Status) {
    s in {Completed, Passed, Skipped, Failed, Timeout, Cancelled, Reject, NotRun}
  }

  /** What Unicode-aware trimming removes; an identity made only of these is empty. */
  predicate IsSpace(c: char) {
    var n := c as int;
    9 <= n <= 13 || n == 32 || n == 0x85 || n == 0xA0 || n == 0x1680 || 0x2000 <= n <= 0x200A
    || n == 0x2028 || n == 0x2029 || n == 0x202F || n == 0x205F || n == 0x3000
  }

  predicate Blank(s: string) {
    forall i :: 0 <= i < |s| ==> IsSpace(s[i])
  }

  const MICROS_PER_SECOND := 1_000_000

  /** How long sandboxes and recovery points are retained, and how long one operation on them is leased. */
  const RETENTION := 24 * 3600 * MICROS_PER_SECOND
  const OPERATION_LEASE := 30 * MICROS_PER_SECOND

  lemma Bounded<T>(small: set<T>, big: set<T>)
    requires small <= big
    ensures |small| <= |big| && (small < big ==> |small| < |big|)
  {
    assert big == small + (big - small);
  }
}
