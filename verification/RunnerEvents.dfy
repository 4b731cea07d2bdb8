/**
  The event stream of an evaluation runner.

  A runner claims its execution with event 1 and then reports heartbeats, phases, progress and one
  terminal result. Requests are retried and may arrive late or twice, and another pod may try to
  report for the same execution. Each request is handled in one transaction that holds the workflow and
  job rows.
 */
module RunnerEvents {
  import opened Common

  datatype Owner = Owner(podName: string, podUid: string, jobUid: string)

  datatype Phase = Preparing | Executing | Finalizing

  datatype Outcome = Succeeded | Broken | Stopped | TimedOut

  datatype Report = Report(outcome: Outcome, exitCode: Option<int>, signal: string, artifactId: string, artifactDigest: string, complete: bool, reason: string, message: string)

  datatype Body =
    | Claim
    | Heartbeat
    | Enter(phase: Phase)
    | Progress(completed: int, total: int)
    | Finish(report: Report)

  datatype Event = Event(sequence: nat, body: Body)

  /** The stored evaluation result; the summary is absent when it cannot be decoded. */
  datatype Artifact = Artifact(inScope: bool, isSource: bool, expired: bool, digest: string, summary: Option<Summary>)
  datatype Summary = Summary(complete: bool, status: Outcome)

  datatype State = State(
    owner: Owner, last: Event, claimedAt: int, receivedAt: int, heartbeatAt: Option<int>,
    phase: Phase, progress: Option<(int, int)>, report: Option<Report>)

  /** What one request finds besides the state: who sends it, the clock and the rows it reads. */
  datatype Context = Context(authorized: bool, sender: Owner, cancelled: bool, deadline: int, now: int, artifacts: map<string, Artifact>)

  datatype Reply = Invalid | Unauthorized | Conflict | StopConflict(outcome: Outcome) | Ack(sequence: nat, accepted: bool, stop: Option<Outcome>)

  function Order(p: Phase): nat {
    match p
    case Preparing => 1
    case Executing => 2
    case Finalizing => 3
  }

  /** Without line breaks and NUL. */
  predicate OneLine(s: string) {
    forall i :: 0 <= i < |s| ==> s[i] !in {'\r', '\n', '\0'}
  }

  /** A lower-case word of at most 64 characters: a letter or digit, then also underscores and dashes. */
  predicate IsReason(s: string) {
    && 1 <= |s| <= 64 && ('a' <= s[0] <= 'z' || '0' <= s[0] <= '9')
    && forall i :: 0 <= i < |s| ==> 'a' <= s[i] <= 'z' || '0' <= s[i] <= '9' || s[i] in {'_', '-'}
  }

  predicate ValidEvent(e: Event) {
    && e.sequence > 0
    && (e.body.Progress? ==> 0 <= e.body.completed <= e.body.total)
    && (e.body.Finish? ==>
          && |e.body.report.artifactId| == 64 && |e.body.report.artifactDigest| == 64
          && (e.body.report.exitCode.Some? ==> 0 <= e.body.report.exitCode.value <= 255)
          && |e.body.report.signal| <= 32 && OneLine(e.body.report.signal)
          && (e.body.report.reason != "" ==> IsReason(e.body.report.reason))
          && |e.body.report.message| <= 512 && OneLine(e.body.report.message))
  }

  function StopOutcome(c: Context): Option<Outcome> {
    if c.cancelled then Some(Stopped) else if c.deadline > 0 && c.deadline <= c.now then Some(TimedOut) else None
  }

  /** The report agrees with the stored result it names. */
  predicate Confirmed(r: Report, artifacts: map<string, Artifact>) {
    && r.artifactId in artifacts
    && var a := artifacts[r.artifactId];
    && a.inScope && a.isSource && !a.expired && a.digest == r.artifactDigest
    && a.summary.Some? && a.summary.value.complete == r.complete && a.summary.value.status in {Succeeded, Broken}
    && (r.outcome == Succeeded ==> a.summary.value.complete && a.summary.value.status == Succeeded)
  }

  /** An event may not take back what an earlier one reported. */
  predicate Applies(s: State, e: Event, artifacts: map<string, Artifact>) {
    match e.body
    case Enter(phase) => Order(phase) >= Order(s.phase)
    case Progress(completed, total) => s.progress.Some? ==> completed >= s.progress.value.0 && total >= s.progress.value.1
    case Finish(report) => Confirmed(report, artifacts)
    case _ => true
  }

  /** The execution's runner state, stored in the job row. */
  class RunnerStore {
    var state: Option<State>

    method Receive(e: Event, c: Context) returns (reply: Reply)
      modifies this
      ensures (state, reply) == Handle(old(state), e, c)
    {
      if !ValidEvent(e) {
        return Invalid;
      }
      if !c.authorized {
        return Unauthorized;
      }
      var stop := None;
      if c.cancelled {
        stop := Some(Stopped);
      } else if c.deadline > 0 && c.now >= c.deadline {
        stop := Some(TimedOut);
      }
      var next: State;
      if state.Some? {
        next := state.value;
        if next.owner != c.sender {
          return Conflict;
        }
        if e.sequence < next.last.sequence {
          return Ack(next.last.sequence, false, stop);
        }
        if e.sequence == next.last.sequence {
          if e != next.last {
            return Conflict;
          }
          return Ack(next.last.sequence, false, stop);
        }
        if e.body.Claim? || next.report.Some? {
          return Conflict;
        }
      } else {
        if !e.body.Claim? || e.sequence != 1 {
          return Conflict;
        }
        next := State(c.sender, e, c.now, c.now, None, Preparing, None, None);
      }
      if e.body.Finish? && stop.Some? && e.body.report.outcome != stop.value {
        return StopConflict(stop.value);
      }
      match e.body {
        case Enter(phase) =>
          if Order(phase) < Order(next.phase) {
            return Conflict;
          }
          next := next.(phase := phase);
        case Progress(completed, total) =>
          if next.progress.Some? && (completed < next.progress.value.0 || total < next.progress.value.1) {
            return Conflict;
          }
          next := next.(progress := Some((completed, total)));
        case Finish(report) =>
          if !Confirmed(report, c.artifacts) {
            return Conflict;
          }
          next := next.(report := Some(report));
        case Heartbeat =>
          next := next.(heartbeatAt := Some(c.now));
        case Claim =>
      }
      state := Some(next.(last := e, receivedAt := c.now));
      return Ack(e.sequence, true, stop);
    }
  }

  /** A request that follows the accepted ones: a first claim, or a later event of an unfinished run. */
  predicate InTurn(state: Option<State>, e: Event, c: Context) {
    if state.None? then e.body.Claim? && e.sequence == 1
    else state.value.owner == c.sender && e.sequence > state.value.last.sequence && !e.body.Claim? && state.value.report.None?
  }

  function Base(state: Option<State>, e: Event, c: Context): State {
    if state.Some? then state.value else State(c.sender, e, c.now, c.now, None, Preparing, None, None)
  }

  predicate Obeys(e: Event, c: Context) {
    e.body.Finish? && StopOutcome(c).Some? ==> e.body.report.outcome == StopOutcome(c).value
  }

  predicate Accepts(state: Option<State>, e: Event, c: Context) {
    ValidEvent(e) && c.authorized && InTurn(state, e, c) && Obeys(e, c) && Applies(Base(state, e, c), e, c.artifacts)
  }

  function Record(s: State, e: Event, now: int): State {
    s.(last := e, receivedAt := now,
       heartbeatAt := if e.body.Heartbeat? then Some(now) else s.heartbeatAt,
       phase := if e.body.Enter? then e.body.phase else s.phase,
       progress := if e.body.Progress? then Some((e.body.completed, e.body.total)) else s.progress,
       report := if e.body.Finish? then Some(e.body.report) else s.report)
  }

  /** A repeated or outdated event of the owner. */
  predicate AlreadySeen(state: Option<State>, e: Event, c: Context) {
    && state.Some? && state.value.owner == c.sender
    && (e.sequence < state.value.last.sequence || e == state.value.last)
  }

  function Handle(state: Option<State>, e: Event, c: Context): (Option<State>, Reply) {
    if !ValidEvent(e) then (state, Invalid)
    else if !c.authorized then (state, Unauthorized)
    else if AlreadySeen(state, e, c) then (state, Ack(state.value.last.sequence, false, StopOutcome(c)))
    else if !InTurn(state, e, c) then (state, Conflict)
    else if !Obeys(e, c) then (state, StopConflict(StopOutcome(c).value))
    else if !Applies(Base(state, e, c), e, c.artifacts) then (state, Conflict)
    else (Some(Record(Base(state, e, c), e, c.now)), Ack(e.sequence, true, StopOutcome(c)))
  }

  // ---- Runs ----

  datatype Request = Request(event: Event, context: Context)

  /** The stored state, and the requests accepted so far. */
  datatype World = World(state: Option<State>, log: seq<Request>)

  function Do(w: World, r: Request): World {
    var (state, reply) := Handle(w.state, r.event, r.context);
    World(state, if reply.Ack? && reply.accepted then w.log + [r] else w.log)
  }

  function After(requests: seq<Request>, i: nat): World
    requires i <= |requests|
  {
    if i == 0 then World(None, []) else Do(After(requests, i - 1), requests[i - 1])
  }

  // ---- What the stored state means: an account of the log, read backwards ----

  function LatestPhase(log: seq<Request>): Phase {
    if log == [] then Preparing
    else if log[|log| - 1].event.body.Enter? then log[|log| - 1].event.body.phase
    else LatestPhase(log[..|log| - 1])
  }

  function LatestProgress(log: seq<Request>): Option<(int, int)> {
    if log == [] then None
    else if log[|log| - 1].event.body.Progress? then Some((log[|log| - 1].event.body.completed, log[|log| - 1].event.body.total))
    else LatestProgress(log[..|log| - 1])
  }

  function LatestHeartbeat(log: seq<Request>): Option<int> {
    if log == [] then None
    else if log[|log| - 1].event.body.Heartbeat? then Some(log[|log| - 1].context.now)
    else LatestHeartbeat(log[..|log| - 1])
  }

  function Account(log: seq<Request>): Option<State> {
    if log == [] then None
    else
      var last := log[|log| - 1];
      Some(State(log[0].context.sender, last.event, log[0].context.now, last.context.now, LatestHeartbeat(log),
                 LatestPhase(log), LatestProgress(log), if last.event.body.Finish? then Some(last.event.body.report) else None))
  }

  /** The accepted requests are one runner's story: one claim, rising sequence numbers, nothing after the result. */
  ghost predicate Story(log: seq<Request>) {
    && (forall k :: 0 <= k < |log| ==> ValidEvent(log[k].event) && log[k].context.authorized && log[k].context.sender == log[0].context.sender)
    && (forall k :: 0 <= k < |log| ==> (log[k].event.body.Claim? <==> k == 0))
    && (|log| > 0 ==> log[0].event.sequence == 1)
    && (forall k :: 0 < k < |log| ==> log[k - 1].event.sequence < log[k].event.sequence)
    && (forall k :: 0 <= k < |log| - 1 ==> !log[k].event.body.Finish?)
    && (forall k :: 0 <= k < |log| && log[k].event.body.Finish? ==>
          Obeys(log[k].event, log[k].context) && Confirmed(log[k].event.body.report, log[k].context.artifacts))
  }

  ghost predicate Good(w: World) {
    w.state == Account(w.log) && Story(w.log)
  }

  lemma AccountExtends(log: seq<Request>, r: Request)
    requires log != []
    ensures Account(log + [r]) == Some(Record(Account(log).value, r.event, r.context.now).(report :=
                                         if r.event.body.Finish? then Some(r.event.body.report) else None))
  {
    assert (log + [r])[..|log|] == log;
  }

  lemma AccountBegins(r: Request)
    requires r.event.body.Claim?
    ensures Account([r]) == Some(Record(Base(None, r.event, r.context), r.event, r.context.now))
  {
    var log := [r];
    assert log[..|log| - 1] == [];
    assert LatestPhase(log) == Preparing && LatestProgress(log) == None && LatestHeartbeat(log) == None;
  }

  lemma StoryExtends(log: seq<Request>, r: Request)
    requires Story(log) && Accepts(Account(log), r.event, r.context)
    ensures Story(log + [r])
  {
    var longer := log + [r];
    assert forall k :: 0 <= k < |log| ==> longer[k] == log[k];
    assert longer[|log|] == r;
  }

  lemma OnlyAcceptedRequestsCount(w: World, r: Request)
    ensures Do(w, r) == if Accepts(w.state, r.event, r.context)
      then World(Some(Record(Base(w.state, r.event, r.context), r.event, r.context.now)), w.log + [r])
      else w
  {
  }

  lemma StepKeepsGood(w: World, r: Request)
    requires Good(w)
    ensures Good(Do(w, r))
  {
    OnlyAcceptedRequestsCount(w, r);
    if Accepts(w.state, r.event, r.context) {
      StoryExtends(w.log, r);
      if w.log != [] {
        AccountExtends(w.log, r);
      } else {
        AccountBegins(r);
        assert w.log + [r] == [r];
      }
    }
  }

  lemma {:induction false} RunKeepsGood(requests: seq<Request>, i: nat)
    requires i <= |requests|
    ensures Good(After(requests, i))
    decreases i
  {
    if i > 0 {
      RunKeepsGood(requests, i - 1);
      StepKeepsGood(After(requests, i - 1), requests[i - 1]);
    }
  }

  /** The state is exactly what the accepted requests amount to, and they tell one runner's story. */
  lemma {:induction false} StateIsItsLog(requests: seq<Request>, i: nat)
    requires i <= |requests|
    ensures After(requests, i).state == Account(After(requests, i).log) && Story(After(requests, i).log)
  {
    RunKeepsGood(requests, i);
  }

  // ---- Nothing is taken back ----

  /** Later states keep the owner and the result, and neither sequence, phase nor progress falls. */
  predicate Extends(before: State, later: State) {
    && later.owner == before.owner && later.claimedAt == before.claimedAt
    && later.last.sequence >= before.last.sequence && Order(later.phase) >= Order(before.phase)
    && (before.progress.Some? ==> later.progress.Some? && later.progress.value.0 >= before.progress.value.0 && later.progress.value.1 >= before.progress.value.1)
    && (before.report.Some? ==> later == before)
  }

  lemma {:induction false} NothingTakenBack(requests: seq<Request>, i: nat, j: nat)
    requires i <= j <= |requests| && After(requests, i).state.Some?
    ensures After(requests, j).state.Some? && Extends(After(requests, i).state.value, After(requests, j).state.value)
    decreases j
  {
    if i < j {
      NothingTakenBack(requests, i, j - 1);
      OnlyAcceptedRequestsCount(After(requests, j - 1), requests[j - 1]);
    }
  }

  lemma {:induction false} LogGrows(requests: seq<Request>, i: nat, j: nat)
    requires i <= j <= |requests|
    ensures After(requests, i).log <= After(requests, j).log
    decreases j
  {
    if i < j {
      LogGrows(requests, i, j - 1);
      OnlyAcceptedRequestsCount(After(requests, j - 1), requests[j - 1]);
    }
  }

  lemma {:induction false} Rising(log: seq<Request>, a: nat, b: nat)
    requires Story(log) && a <= b < |log|
    ensures log[a].event.sequence <= log[b].event.sequence && (a < b ==> log[a].event.sequence < log[b].event.sequence)
    decreases b
  {
    if a < b {
      Rising(log, a, b - 1);
    }
  }

  /** No two accepted requests have the same sequence number. */
  lemma {:induction false} AcceptedOnce(requests: seq<Request>, i: nat, a: nat, b: nat)
    requires i <= |requests| && a < b < |After(requests, i).log|
    ensures After(requests, i).log[a].event.sequence < After(requests, i).log[b].event.sequence
  {
    RunKeepsGood(requests, i);
    Rising(After(requests, i).log, a, b);
  }

  /** An event accepted by state i that is delivered again in a later state j is acknowledged with j's sequence and changes nothing. */
  lemma {:induction false} RetryIsHarmless(requests: seq<Request>, i: nat, j: nat, a: nat, c: Context)
    requires i <= j <= |requests| && a < |After(requests, i).log| && c.authorized && c.sender == After(requests, i).log[a].context.sender
    ensures After(requests, j).state.Some?
    ensures var now := After(requests, j);
      Handle(now.state, After(requests, i).log[a].event, c) == (now.state, Ack(now.state.value.last.sequence, false, StopOutcome(c)))
  {
    LogGrows(requests, i, j);
    RunKeepsGood(requests, j);
    Rising(After(requests, j).log, a, |After(requests, j).log| - 1);
  }

  /** Another pod's or job's events are refused for good once the execution is claimed. */
  lemma {:induction false} OnlyTheOwnerReports(requests: seq<Request>, i: nat, j: nat, e: Event, c: Context)
    requires i <= j <= |requests| && After(requests, i).state.Some? && c.sender != After(requests, i).state.value.owner
    ensures var (state, reply) := Handle(After(requests, j).state, e, c); state == After(requests, j).state && !reply.Ack?
  {
    NothingTakenBack(requests, i, j);
  }
}
