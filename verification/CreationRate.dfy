/**
  The shared creation-rate budget: a token bucket kept as virtual time.

  `available` is the instant at which all outstanding debt is paid; a debt of one interval is
  one permit. Times and durations are integer nanoseconds, as in the source; the database keeps
  microseconds. When the configured rate changes, outstanding debt is re-expressed in the new
  interval, rounded up.
 */
module CreationRate {
  const MICRO := 1000

  function CeilDiv(a: int, b: int): int
    requires b > 0
  {
    (a + b - 1) / b
  }

  function Ceil(x: real): int {
    -((-x).Floor)
  }

  /** The interval between permits, rounded up to the database's microsecond. */
  function Interval(qps: real): int
    requires qps > 0.0
  {
    Ceil(1000000.0 / qps) * MICRO
  }

  /** Re-expresses a debt of `remaining` from the previous interval in the current one. */
  function Rescale(remaining: int, previous: int, interval: int): int
    requires previous / MICRO > 0
  {
    var whole, remainder := remaining / previous, remaining % previous;
    var previousMicros, intervalMicros := previous / MICRO, interval / MICRO;
    var remainderMicros := CeilDiv(remainder, MICRO);
    whole * interval + CeilDiv(remainderMicros * intervalMicros, previousMicros) * MICRO
  }

  /** The debt deadline the decision is taken on. */
  function Carried(now: int, available: int, previous: int, interval: int): int
    requires previous == 0 || previous / MICRO > 0
  {
    if available < now then now
    else if previous > 0 && previous != interval && available > now then now + Rescale(available - now, previous, interval)
    else available
  }

  /** The new deadline and the wait; a positive wait means no permit was consumed. */
  function Reservation(now: int, available: int, previous: int, interval: int, burst: int): (r: (int, int))
    requires previous == 0 || previous / MICRO > 0
  {
    var carried := Carried(now, available, previous, interval);
    var earliest := carried - (burst - 1) * interval;
    if earliest > now then (carried, earliest - now) else (carried + interval, 0)
  }

  predicate WholeMicros(t: int) {
    t % MICRO == 0
  }

  predicate ValidInterval(d: int) {
    d > 0 && WholeMicros(d)
  }

  lemma IntervalValid(qps: real)
    requires qps > 0.0
    ensures ValidInterval(Interval(qps))
    ensures Interval(qps) as real * qps >= 1000000000.0
  {
    var x := 1000000.0 / qps;
    assert x * qps == 1000000.0;
    var n := Ceil(x);
    assert n as real >= x > 0.0;
    assert n as real * qps >= x * qps;
  }

  // ---- Rescaling ----

  lemma CeilDivBounds(a: int, b: int)
    requires b > 0
    ensures a <= CeilDiv(a, b) * b < a + b
  {
  }

  /** With n = w*p + m micro-debt, the ceiling division keeps it and adds less than one unit. */
  lemma ScaleMicros(m: int, p: int, q: int)
    requires 0 <= m && p > 0 && q > 0
    ensures var f := CeilDiv(m * q, p); m * q <= f * p < m * q + p
    ensures m <= p ==> CeilDiv(m * q, p) <= q
  {
    var f := CeilDiv(m * q, p);
    CeilDivBounds(m * q, p);
    if m <= p {
      assert m * q <= p * q;
      assert f * p < (q + 1) * p;
    }
  }

  /** Multiplying out a rescaled debt, in microseconds: p and q are the intervals, f the rescaled remainder. */
  lemma Expand(whole: int, p: int, q: int, f: int, rem: int)
    ensures (whole * (q * MICRO) + f * MICRO) * (p * MICRO) == 1_000_000 * (whole * q * p) + 1_000_000 * (f * p)
    ensures (whole * (p * MICRO) + rem) * (q * MICRO) == 1_000_000 * (whole * q * p) + 1000 * (rem * q)
  {
    assert (whole * q + f) * p == whole * q * p + f * p;
    assert whole * p * q == whole * q * p;
    assert (whole * p * MICRO + rem) * q == whole * p * MICRO * q + rem * q;
  }

  lemma MulMonotone(a: int, b: int, q: int)
    requires a <= b && q > 0
    ensures a * q <= b * q
  {
  }

  /** Changing the rate never forgives debt, and adds less than one microsecond to debt kept in whole microseconds. */
  lemma RescaleTight(remaining: int, previous: int, interval: int)
    requires remaining >= 0 && ValidInterval(previous) && ValidInterval(interval)
    ensures Rescale(remaining, previous, interval) * previous >= remaining * interval
    ensures WholeMicros(remaining) ==> Rescale(remaining, previous, interval) * previous < remaining * interval + MICRO * previous
  {
    var p, q := previous / MICRO, interval / MICRO;
    var whole, rem := remaining / previous, remaining % previous;
    var m := CeilDiv(rem, MICRO);
    var f := CeilDiv(m * q, p);
    assert previous == p * MICRO && interval == q * MICRO;
    assert remaining == whole * previous + rem && 0 <= rem < previous;
    ScaleMicros(m, p, q);
    Expand(whole, p, q, f, rem);
    assert Rescale(remaining, previous, interval) == whole * interval + f * MICRO;
    RemainderTight(remaining, whole, p, q, rem, m);
  }

  /** The remainder in whole microseconds, rounded up; exactly when the debt was kept in whole microseconds. */
  lemma RemainderTight(remaining: int, whole: int, p: int, q: int, rem: int, m: int)
    requires remaining == whole * (p * MICRO) + rem && m == CeilDiv(rem, MICRO) && q > 0
    ensures rem * q <= 1000 * (m * q)
    ensures WholeMicros(remaining) ==> rem * q == 1000 * (m * q)
  {
    MulMonotone(rem, m * MICRO, q);
    assert m * MICRO * q == 1000 * (m * q);
    if WholeMicros(remaining) {
      ModMultiple(remaining, whole * p);
      assert whole * (p * MICRO) == whole * p * MICRO;
      assert rem == m * MICRO;
    }
  }

  lemma ModMultiple(x: int, k: int)
    requires x % MICRO == 0
    ensures (x - k * MICRO) % MICRO == 0
  {
    assert x == (x / MICRO) * MICRO;
    assert x - k * MICRO == (x / MICRO - k) * MICRO;
  }

  /** A debt of at most `b` permits stays within `b` permits at the new rate. */
  lemma RescaleWithin(remaining: int, previous: int, interval: int, b: int)
    requires remaining >= 0 && ValidInterval(previous) && ValidInterval(interval) && remaining <= b * previous
    ensures Rescale(remaining, previous, interval) <= b * interval
  {
    var p, q := previous / MICRO, interval / MICRO;
    var whole, rem := remaining / previous, remaining % previous;
    var m := CeilDiv(rem, MICRO);
    assert previous == p * MICRO && interval == q * MICRO && m <= p;
    assert remaining == whole * previous + rem && 0 <= rem < previous;
    ScaleMicros(m, p, q);
    QuotientWithin(whole, rem, previous, b);
    assert Rescale(remaining, previous, interval) == whole * interval + CeilDiv(m * q, p) * MICRO;
    if whole < b {
      MulMonotone(whole + 1, b, interval);
      assert (whole + 1) * interval == whole * interval + interval;
    } else {
      assert m == 0 && m * q == 0 && CeilDiv(0, p) == 0;
    }
  }

  lemma QuotientWithin(whole: int, rem: int, previous: int, b: int)
    requires previous > 0 && 0 <= rem && whole * previous + rem <= b * previous
    ensures whole < b || (whole == b && rem == 0)
  {
    assert (b + 1) * previous == b * previous + previous;
    if whole > b {
      MulMonotone(b + 1, whole, previous);
    }
  }

  // ---- The persisted budget ----

  /** The stored row; `interval` is 0 in rows written before the interval was kept. */
  datatype Budget = Absent | Stored(available: int, interval: int)

  datatype Call = Call(now: int, interval: int, burst: int)

  predicate ValidCall(c: Call) {
    ValidInterval(c.interval) && c.burst >= 1
  }

  predicate ValidBudget(b: Budget) {
    b.Stored? ==> b.interval == 0 || ValidInterval(b.interval)
  }

  /** Live debt of unknown interval counts as a full burst, and a later deadline is never shortened. */
  function Upgrade(b: Budget, c: Call): Budget
    requires b.Stored?
  {
    if b.interval != 0 then b
    else
      var full := c.now + c.burst * c.interval;
      Stored(if b.available > c.now && full > b.available then full else b.available, c.interval)
  }

  function Decision(b: Budget, c: Call): (int, int)
    requires ValidBudget(b) && ValidCall(c)
  {
    // A missing row reads as the zero time, before any clock value.
    if b.Absent? then Reservation(c.now, c.now - 1, 0, c.interval, c.burst)
    else var u := Upgrade(b, c); Reservation(c.now, u.available, u.interval, c.interval, c.burst)
  }

  function After(b: Budget, c: Call): (r: Budget)
    requires ValidBudget(b) && ValidCall(c)
    ensures ValidBudget(r)
  {
    Stored(Decision(b, c).0, c.interval)
  }

  predicate Granted(b: Budget, c: Call)
    requires ValidBudget(b) && ValidCall(c)
  {
    Decision(b, c).1 == 0
  }

  /** The table row and the transaction that reserves one permit. */
  class CreationBudget {
    var row: Budget

    method Reserve(now: int, qps: real, burst: int) returns (wait: int)
      requires ValidBudget(row) && qps > 0.0 && burst >= 1
      modifies this
      ensures ValidBudget(row)
      ensures var c := Call(now, Interval(qps), burst);
        && (IntervalValid(qps); row == After(old(row), c) && wait == Decision(old(row), c).1)
        && wait >= 0
    {
      IntervalValid(qps);
      var interval := Interval(qps);
      var available, previous, create := now - 1, 0, row.Absent?;
      if !create {
        available, previous := row.available, row.interval;
        if previous == 0 {
          // InitializeUnknownInterval
          if available > now && now + burst * interval > available {
            available := now + burst * interval;
          }
          previous := interval;
        }
      }
      if available < now {
        available := now;
      } else if previous > 0 && previous != interval && available > now {
        available := now + Rescale(available - now, previous, interval);
      }
      var earliest := available - (burst - 1) * interval;
      if earliest > now {
        wait := earliest - now;
      } else {
        available, wait := available + interval, 0;
      }
      if create || row != Stored(available, interval) {
        row := Stored(available, interval);
      }
    }
  }

  // ---- Waits ----

  /** The returned wait is exact: with the same policy and nothing in between, any earlier retry is refused and one at that time is granted. */
  lemma WaitIsExact(b: Budget, c: Call, later: int)
    requires ValidBudget(b) && ValidCall(c) && !Granted(b, c) && c.now <= later
    ensures Granted(After(b, c), c.(now := later)) <==> c.now + Decision(b, c).1 <= later
  {
    var wait := Decision(b, c).1;
    assert wait > 0;
    var stored := After(b, c);
    assert stored.available == c.now + wait + (c.burst - 1) * c.interval;
    assert (c.burst - 1) * c.interval >= 0;
  }

  /** Debt of unknown interval never yields a permit at the call that upgrades it. */
  lemma UnknownDebtWaits(b: Budget, c: Call)
    requires b.Stored? && b.interval == 0 && ValidCall(c) && b.available > c.now
    ensures !Granted(b, c)
  {
    assert c.burst * c.interval == (c.burst - 1) * c.interval + c.interval;
  }

  lemma WholeSum(a: int, b: int, k: int)
    requires WholeMicros(a) && WholeMicros(b)
    ensures WholeMicros(a + k * b) && WholeMicros(a + b)
  {
    assert b == (b / MICRO) * MICRO;
    ModMultiple(a, -k * (b / MICRO));
    assert a + k * b == a - (-k * (b / MICRO)) * MICRO;
  }

  lemma RescaleInWholeMicros(remaining: int, previous: int, interval: int)
    requires ValidInterval(previous) && WholeMicros(interval)
    ensures WholeMicros(Rescale(remaining, previous, interval))
  {
    var whole := remaining / previous;
    var f := CeilDiv(CeilDiv(remaining % previous, MICRO) * (interval / MICRO), previous / MICRO);
    assert WholeMicros(f * MICRO) by {
      ModMultiple(0, -f);
    }
    WholeSum(f * MICRO, interval, whole);
  }

  /** With a microsecond clock the stored deadline is always a whole number of microseconds, so storing it loses nothing. */
  lemma StoredInWholeMicros(b: Budget, c: Call)
    requires ValidBudget(b) && ValidCall(c) && WholeMicros(c.now) && (b.Stored? ==> WholeMicros(b.available))
    ensures WholeMicros(After(b, c).available)
  {
    WholeSum(c.now, c.interval, 1);
    if b.Stored? {
      var u := Upgrade(b, c);
      WholeSum(c.now, c.interval, c.burst);
      WholeSum(u.available, c.interval, 1);
      if u.interval != c.interval && u.available > c.now {
        var r := Rescale(u.available - c.now, u.interval, c.interval);
        RescaleInWholeMicros(u.available - c.now, u.interval, c.interval);
        WholeSum(c.now, r, 1);
        WholeSum(c.now + r, c.interval, 1);
      }
    }
  }

  // ---- The rate bound over whole runs ----

  /** Outstanding debt at time `t`, in permits of the stored interval. */
  ghost function Permits(b: Budget, t: int): real
    requires b.Stored? && b.interval > 0
  {
    if b.available > t then (b.available - t) as real / b.interval as real else 0.0
  }

  lemma DivAtLeast(a: int, b: int, c: int, d: int)
    requires b > 0 && d > 0 && a * d >= c * b
    ensures a as real / b as real >= c as real / d as real
  {
    var x, y := a as real / b as real, c as real / d as real;
    assert x * b as real == a as real && y * d as real == c as real;
    assert (a * d) as real == x * b as real * d as real;
    assert (c * b) as real == y * d as real * b as real;
  }

  lemma DivAdd(a: int, b: int, d: int)
    requires d > 0
    ensures (a + b) as real / d as real == a as real / d as real + b as real / d as real
  {
  }

  lemma DivSelf(d: int)
    requires d > 0
    ensures d as real / d as real == 1.0
  {
  }

  lemma PositiveFactor(a: int, b: int, c: int, d: int)
    requires b > 0 && c > 0 && d > 0 && a * b >= c * d
    ensures a > 0
  {
    MulMonotone(1, c, d);
    if a <= 0 {
      MulMonotone(a, 0, b);
    }
  }

  /** The debt a decision starts from is at least what was left of the stored debt, in permits. */
  lemma CarriedKeepsDebt(b: Budget, c: Call)
    requires b.Stored? && ValidInterval(b.interval) && ValidCall(c)
    ensures var debt := Carried(c.now, b.available, b.interval, c.interval) - c.now;
      debt >= 0 && debt * b.interval >= (b.available - c.now) * c.interval
  {
    var left := b.available - c.now;
    if left < 0 {
      MulMonotone(left, 0, c.interval);
    } else if b.interval != c.interval && left > 0 {
      RescaleTight(left, b.interval, c.interval);
      PositiveFactor(Rescale(left, b.interval, c.interval), b.interval, left, c.interval);
    }
  }

  /** One call: debt falls by at most the elapsed time over the stored interval, a grant adds one permit, and a grant leaves at most a burst. */
  lemma CallAccounts(b: Budget, c: Call, t: int)
    requires b.Stored? && ValidInterval(b.interval) && ValidCall(c) && t <= c.now
    ensures Permits(After(b, c), c.now) >=
      Permits(b, t) - (c.now - t) as real / b.interval as real + if Granted(b, c) then 1.0 else 0.0
  {
    var carried := Carried(c.now, b.available, b.interval, c.interval);
    var debt := carried - c.now;
    DebtFalls(b, c, t);
    CarriedKeepsDebt(b, c);
    DivAdd(debt, c.interval, c.interval);
    DivSelf(c.interval);
    DivAtLeast(debt, c.interval, 0, 1);
    MulMonotone(0, c.burst - 1, c.interval);
  }

  /** The debt a decision starts from, in permits, is what was outstanding less the elapsed time. */
  lemma DebtFalls(b: Budget, c: Call, t: int)
    requires b.Stored? && ValidInterval(b.interval) && ValidCall(c) && t <= c.now
    ensures var debt := Carried(c.now, b.available, b.interval, c.interval) - c.now;
      Permits(b, t) - (c.now - t) as real / b.interval as real <= debt as real / c.interval as real
  {
    var debt := Carried(c.now, b.available, b.interval, c.interval) - c.now;
    var left, gone := b.available - c.now, c.now - t;
    CarriedKeepsDebt(b, c);
    DivAtLeast(debt, c.interval, left, b.interval);
    DivAtLeast(debt, c.interval, 0, b.interval);
    DivAdd(left, gone, b.interval);
    DivAtLeast(gone, b.interval, 0, 1);
  }

  /** After a grant the debt is between one permit and a full burst. */
  lemma GrantBounds(b: Budget, c: Call)
    requires ValidBudget(b) && ValidCall(c) && Granted(b, c)
    ensures 1.0 <= Permits(After(b, c), c.now) <= c.burst as real
  {
    var u := if b.Absent? then Stored(c.now - 1, 0) else Upgrade(b, c);
    var carried := Carried(c.now, u.available, u.interval, c.interval);
    if u.interval > 0 {
      CarriedKeepsDebt(u, c);
    }
    var debt := carried - c.now;
    assert 0 <= debt <= (c.burst - 1) * c.interval;
    assert debt + c.interval <= c.burst * c.interval;
    DivAtLeast(debt + c.interval, c.interval, 1, 1);
    DivAtLeast(c.burst, 1, debt + c.interval, c.interval);
  }

  predicate ValidCalls(calls: seq<Call>) {
    && (forall i :: 0 <= i < |calls| ==> ValidCall(calls[i]))
    && (forall i :: 0 < i < |calls| ==> calls[i - 1].now <= calls[i].now)
  }

  /** The stored row before call `i`. */
  function Before(b: Budget, calls: seq<Call>, i: nat): (r: Budget)
    requires ValidBudget(b) && ValidCalls(calls) && i <= |calls|
    ensures ValidBudget(r)
    ensures i > 0 ==> r.Stored? && r.interval == calls[i - 1].interval
  {
    if i == 0 then b else After(Before(b, calls, i - 1), calls[i - 1])
  }

  predicate Grants(b: Budget, calls: seq<Call>, i: nat)
    requires ValidBudget(b) && ValidCalls(calls) && i < |calls|
  {
    Granted(Before(b, calls, i), calls[i])
  }

  /** Permits granted by calls i+1 .. j. */
  function GrantsAfter(b: Budget, calls: seq<Call>, i: nat, j: nat): nat
    requires ValidBudget(b) && ValidCalls(calls) && i <= j < |calls|
    decreases j
  {
    if i == j then 0 else GrantsAfter(b, calls, i, j - 1) + if Grants(b, calls, j) then 1 else 0
  }

  /** Elapsed time over the interval stored at that time, summed over the consecutive calls i .. j. */
  ghost function Refill(calls: seq<Call>, i: nat, j: nat): real
    requires ValidCalls(calls) && i <= j < |calls|
    decreases j
  {
    if i == j then 0.0
    else Refill(calls, i, j - 1) + (calls[j].now - calls[j - 1].now) as real / calls[j - 1].interval as real
  }

  lemma {:induction false} DebtAccounts(b: Budget, calls: seq<Call>, i: nat, j: nat)
    requires ValidBudget(b) && ValidCalls(calls) && i <= j < |calls|
    ensures Permits(Before(b, calls, j + 1), calls[j].now) >=
      Permits(Before(b, calls, i + 1), calls[i].now) + GrantsAfter(b, calls, i, j) as real - Refill(calls, i, j)
    decreases j
  {
    if i < j {
      DebtAccounts(b, calls, i, j - 1);
      CallAccounts(Before(b, calls, j), calls[j], calls[j - 1].now);
    }
  }

  /**
    The rate bound under online change. Whatever rates and bursts are configured along the way,
    the permits granted from one grant to a later one, both included, are at most the burst at
    the last grant plus the refill in between.
   */
  lemma {:induction false} RateBound(b: Budget, calls: seq<Call>, i: nat, j: nat)
    requires ValidBudget(b) && ValidCalls(calls) && i <= j < |calls|
    requires Grants(b, calls, i) && Grants(b, calls, j)
    ensures (1 + GrantsAfter(b, calls, i, j)) as real <= calls[j].burst as real + Refill(calls, i, j)
  {
    DebtAccounts(b, calls, i, j);
    GrantBounds(Before(b, calls, i), calls[i]);
    GrantBounds(Before(b, calls, j), calls[j]);
  }

  lemma MulMono(x: real, a: real, b: real)
    requires x >= 0.0 && a <= b
    ensures x * a <= x * b
  {
  }

  lemma MulAssoc(x: real, a: real, b: real)
    ensures x * (a * b) == (x * a) * b
  {
  }

  lemma RefillTermAtMost(elapsed: int, interval: int, qps: real)
    requires elapsed >= 0 && interval > 0 && interval as real * qps >= 1000000000.0
    ensures elapsed as real / interval as real * 1000000000.0 <= elapsed as real * qps
  {
    var e, d := elapsed as real, interval as real;
    var x := e / d;
    DivAtLeast(elapsed, interval, 0, 1);
    assert x * d == e;
    MulMono(x, 1000000000.0, d * qps);
    MulAssoc(x, d, qps);
  }

  lemma {:induction false} RefillAtMost(calls: seq<Call>, i: nat, j: nat, qps: real)
    requires ValidCalls(calls) && i <= j < |calls|
    requires forall k :: i <= k < j ==> calls[k].interval as real * qps >= 1000000000.0
    ensures Refill(calls, i, j) * 1000000000.0 <= (calls[j].now - calls[i].now) as real * qps
    decreases j
  {
    if i < j {
      RefillAtMost(calls, i, j - 1, qps);
      RefillTermAtMost(calls[j].now - calls[j - 1].now, calls[j - 1].interval, qps);
    }
  }

  /**
    At a rate that never exceeds `qps` (see IntervalValid), any stretch of time yields at most a
    burst plus its length in seconds times the rate.
   */
  lemma {:induction false} RateBoundUnderCap(b: Budget, calls: seq<Call>, i: nat, j: nat, qps: real)
    requires ValidBudget(b) && ValidCalls(calls) && i <= j < |calls|
    requires forall k :: i <= k < j ==> calls[k].interval as real * qps >= 1000000000.0
    requires Grants(b, calls, i) && Grants(b, calls, j)
    ensures (1 + GrantsAfter(b, calls, i, j) - calls[j].burst) as real * 1000000000.0 <= (calls[j].now - calls[i].now) as real * qps
  {
    RefillAtMost(calls, i, j, qps);
    RateBound(b, calls, i, j);
    MulMono(1000000000.0, (1 + GrantsAfter(b, calls, i, j) - calls[j].burst) as real, Refill(calls, i, j));
  }
}
