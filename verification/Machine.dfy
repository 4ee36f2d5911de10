/**
  The orchestrator's scheduling state together with the event loop around it: worker tasks, timers and the
  mailbox (src/symphony/orchestrator/core.py). The functions here are the atomic steps; a handler is a
  composition of them, with `Await` at every point where the source suspends.
 */
module Machine {
  import opened Numbers
  import opened Options
  import opened Dicts
  import opened Models
  import opened Backoff
  import Tokens

  /** A worker task. `cancelled` says `cancel()` was called; such a task may still finish in any way. */
  datatype Task = Task(issue: IssueId, cancelled: bool, done: bool)

  datatype TimerStatus = Armed | Cancelled | Fired

  datatype Timer = Timer(issue: IssueId, status: TimerStatus)

  datatype Command =
    | Tick
    | WorkerExit(id: IssueId, task: TaskId, normal: bool)
    | RetryFired(id: IssueId)
    | AgentUpdate(id: IssueId, at: Option<int>, totals: Option<Tokens.Counts>)
    | ApplyConfig(config: Config)

  /** What happens outside the mailbox task. It may only finish tasks, fire timers, enqueue, or move the clock. */
  datatype Event =
    | WorkerFinishes(task: TaskId, normal: bool)
    | TimerFires(timer: TimerId)
    | TickRequested
    | AgentReports(id: IssueId, at: Option<int>, totals: Option<Tokens.Counts>)
    | ConfigReloads(config: Config)
    | ClockMoves(ms: int)

  /** History: one record for every worker whose run has been banked. */
  datatype Banked = Banked(task: TaskId, ms: int, credited: Tokens.Counts)

  /**
    `future` is what the outside world will do at the coming suspension points, one sequence of events for each.
    Quantifying over states quantifies over every interleaving. `cleanups` and `ended` are histories.
   */
  datatype State = State(
    config: Config,
    running: RunningMap,
    claimed: set<IssueId>,
    retries: map<IssueId, RetryEntry>,
    completed: set<IssueId>,
    bankedMs: int,
    totals: Tokens.Counts,
    mailbox: seq<Command>,
    tasks: seq<Task>,
    timers: seq<Timer>,
    now: int,
    cleanups: seq<string>,
    ended: seq<Banked>,
    future: seq<seq<Event>>)

  function Initial(config: Config, now: int, future: seq<seq<Event>>): State
  {
    State(config, Dict([], map[]), {}, map[], {}, 0, Tokens.ZERO, [], [], [], now, [], [], future)
  }

  // ---- The world outside the mailbox task ----

  function Enqueue(s: State, c: Command): State
  {
    s.(mailbox := s.mailbox + [c])
  }

  function Occur(s: State, e: Event): State
  {
    match e
    case WorkerFinishes(t, normal) =>
      if t < |s.tasks| && !s.tasks[t].done then
        Enqueue(s.(tasks := s.tasks[t := s.tasks[t].(done := true)]), WorkerExit(s.tasks[t].issue, t, normal))
      else s
    case TimerFires(tm) =>
      if tm < |s.timers| && s.timers[tm].status == Armed then
        Enqueue(s.(timers := s.timers[tm := s.timers[tm].(status := Fired)]), RetryFired(s.timers[tm].issue))
      else s
    case TickRequested => Enqueue(s, Tick)
    case AgentReports(id, at, totals) => Enqueue(s, AgentUpdate(id, at, totals))
    case ConfigReloads(config) => Enqueue(s, ApplyConfig(config))
    case ClockMoves(ms) => s.(now := s.now + ms)
  }

  function OccurAll(s: State, events: seq<Event>): State
    decreases |events|
  {
    if events == [] then s else OccurAll(Occur(s, events[0]), events[1..])
  }

  /** A suspension point. */
  function Await(s: State): State
  {
    if s.future == [] then s else OccurAll(s.(future := s.future[1..]), s.future[0])
  }

  // ---- Retry entries and claims ----

  function CancelTimer(timers: seq<Timer>, tm: TimerId): seq<Timer>
  {
    if tm < |timers| && timers[tm].status == Armed then timers[tm := timers[tm].(status := Cancelled)] else timers
  }

  function CancelRetry(s: State, id: IssueId): State
  {
    if id in s.retries then
      s.(retries := s.retries - {id}, timers := CancelTimer(s.timers, s.retries[id].timer))
    else s
  }

  /** `delayMs` is given for the continuation retry only; everything else backs off. */
  function ScheduleRetry(s: State, id: IssueId, attempt: int, identifier: string, delayMs: Option<int>): State
  {
    var base := CancelRetry(s, id);
    var delay := if delayMs.Some? then delayMs.value else BackoffDelayMs(attempt, s.config.maxRetryBackoffMs);
    base.(timers := base.timers + [Timer(id, Armed)],
          retries := base.retries[id := RetryEntry(identifier, attempt, Max(delay, 0), |base.timers|)],
          claimed := base.claimed + {id})
  }

  function ReleaseClaim(s: State, id: IssueId): State
  {
    CancelRetry(s.(claimed := s.claimed - {id}), id)
  }

  // ---- Runs ----

  function NormalizeAttempt(attempt: Option<int>): Option<int>
  {
    if attempt.Some? && attempt.value >= 1 then attempt else None
  }

  function DispatchIssue(s: State, issue: Issue, attempt: Option<int>, spawns: bool): State
  {
    if issue.id in s.running.m then s
    else if !spawns then ScheduleRetry(s, issue.id, NextAttempt(attempt), issue.identifier, None)
    else
      var entry := RunningEntry(issue, issue.identifier, s.now, |s.tasks|, Tokens.FRESH, None,
                                NormalizeAttempt(attempt));
      CancelRetry(s.(tasks := s.tasks + [Task(issue.id, false, false)],
                     running := s.running.Put(issue.id, entry),
                     claimed := s.claimed + {issue.id}), issue.id)
  }

  function Elapsed(e: RunningEntry, now: int): int
  {
    Max(now - e.startedAt, 0)
  }

  /** Take an entry out of the running map and bank its elapsed time. */
  function EndRun(s: State, id: IssueId): State
    requires id in s.running.m
  {
    var entry := s.running.m[id];
    s.(running := s.running.Remove(id),
       bankedMs := s.bankedMs + Elapsed(entry, s.now),
       ended := s.ended + [Banked(entry.worker, Elapsed(entry, s.now), entry.session.credited)])
  }

  function CancelTask(s: State, t: TaskId): State
  {
    if t < |s.tasks| then s.(tasks := s.tasks[t := s.tasks[t].(cancelled := true)]) else s
  }

  function CleanupWorkspace(s: State, identifier: string): State
  {
    if identifier == "" then s else Await(s.(cleanups := s.cleanups + [identifier]))
  }

  function TerminateRunningIssue(s: State, id: IssueId, cleanup: bool, retry: bool): State
  {
    if id !in s.running.m then s
    else
      var entry := s.running.m[id];
      var stopped := CancelTask(EndRun(s, id), entry.worker);
      var cleaned := if cleanup then CleanupWorkspace(stopped, entry.identifier) else stopped;
      if retry then ScheduleRetry(cleaned, id, NextAttempt(entry.retryAttempt), entry.identifier, None)
      else ReleaseClaim(cleaned, id)
  }

  function SetSnapshot(s: State, id: IssueId, issue: Issue): State
    requires id in s.running.m
  {
    s.(running := s.running.Put(id, s.running.m[id].(issue := issue)))
  }

  function ClaimStateOf(s: State, id: IssueId): ClaimState
  {
    if id in s.running.m then Running
    else if id in s.retries then RetryQueued
    else if id in s.claimed then Claimed
    else Unclaimed
  }
}
