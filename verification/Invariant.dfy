/**
  Nothing claimed is ever stranded: the inductive invariant of the orchestrator, over every interleaving of
  worker exits, timer firings, agent reports and reloads with the handlers.
 */
module Invariant {
  import opened Options
  import opened Models
  import opened Backoff
  import opened Machine

  function Exits(mailbox: seq<Command>, id: IssueId, t: TaskId): nat
  {
    multiset(mailbox)[WorkerExit(id, t, true)] + multiset(mailbox)[WorkerExit(id, t, false)]
  }

  function Fires(mailbox: seq<Command>, id: IssueId): nat
  {
    multiset(mailbox)[RetryFired(id)]
  }

  /** Task `t` is the handle of the running entry of its own issue. */
  predicate IsWorker(s: State, t: TaskId)
    requires t < |s.tasks|
  {
    s.tasks[t].issue in s.running.m && s.running.m[s.tasks[t].issue].worker == t
  }

  /** Claims are exactly the running issues, the queued retries, and the issue a handler holds across a suspension. */
  ghost predicate ClaimsInv(s: State, held: set<IssueId>)
  {
    && s.running.Valid()
    && s.claimed == s.running.m.Keys + s.retries.Keys + held
    && s.running.m.Keys !! s.retries.Keys !! held
  }

  ghost predicate WorkersInv(s: State)
  {
    && (forall id :: id in s.running.m ==>
          var t := s.running.m[id].worker; t < |s.tasks| && s.tasks[t].issue == id)
    && (forall id :: id in s.running.m ==> s.running.m[id].issue.id == id)
    && (forall t :: 0 <= t < |s.tasks| ==> TaskInv(s, t))
    && (forall c :: c in s.mailbox && c.WorkerExit? ==> c.task < |s.tasks| && s.tasks[c.task].issue == c.id)
  }

  /**
    A worker of a running entry was never cancelled and is unfinished, or finished with its one exit queued.
    Any other task was cancelled, or its exit has been handled.
   */
  predicate TaskInv(s: State, t: TaskId)
    requires t < |s.tasks|
  {
    var exits := Exits(s.mailbox, s.tasks[t].issue, t);
    && exits <= (if s.tasks[t].done then 1 else 0)
    && if IsWorker(s, t) then !s.tasks[t].cancelled && exits == (if s.tasks[t].done then 1 else 0)
       else s.tasks[t].cancelled || (s.tasks[t].done && exits == 0)
  }

  ghost predicate TimersInv(s: State)
  {
    && (forall id :: id in s.retries ==> RetryInv(s, id))
    && (forall tm :: 0 <= tm < |s.timers| && s.timers[tm].status == Armed ==>
          s.timers[tm].issue in s.retries && s.retries[s.timers[tm].issue].timer == tm)
    && (forall id :: RetryFired(id) in s.mailbox ==> id in s.retries)
  }

  /** A queued retry has exactly one wakeup: its armed timer, or one queued firing. */
  predicate RetryInv(s: State, id: IssueId)
    requires id in s.retries
  {
    var tm := s.retries[id].timer;
    && tm < |s.timers|
    && s.timers[tm].issue == id
    && s.timers[tm].status != Cancelled
    && Fires(s.mailbox, id) == (if s.timers[tm].status == Fired then 1 else 0)
  }

  ghost predicate Inv(s: State, held: set<IssueId>)
  {
    ClaimsInv(s, held) && WorkersInv(s) && TimersInv(s)
  }

  // ---- Mailbox counting ----

  lemma CountAppend(mailbox: seq<Command>, c: Command)
    ensures forall id, t :: Exits(mailbox + [c], id, t)
                         == Exits(mailbox, id, t) + (if c.WorkerExit? && c.id == id && c.task == t then 1 else 0)
    ensures forall id :: Fires(mailbox + [c], id) == Fires(mailbox, id) + (if c == RetryFired(id) then 1 else 0)
  {
    assert multiset(mailbox + [c]) == multiset(mailbox) + multiset{c};
  }

  lemma CountTail(mailbox: seq<Command>)
    requires mailbox != []
    ensures var c := mailbox[0];
      && (forall id, t :: Exits(mailbox, id, t)
            == Exits(mailbox[1..], id, t) + (if c.WorkerExit? && c.id == id && c.task == t then 1 else 0))
      && (forall id :: Fires(mailbox, id) == Fires(mailbox[1..], id) + (if c == RetryFired(id) then 1 else 0))
  {
    assert mailbox == [mailbox[0]] + mailbox[1..];
    assert multiset(mailbox) == multiset{mailbox[0]} + multiset(mailbox[1..]);
  }

  // ---- The outside world keeps the invariant ----

  lemma EnqueueKeepsInv(s: State, c: Command, held: set<IssueId>)
    requires Inv(s, held) && !c.WorkerExit? && !c.RetryFired?
    ensures Inv(Enqueue(s, c), held)
  {
    var s' := Enqueue(s, c);
    CountAppend(s.mailbox, c);
    forall t | 0 <= t < |s'.tasks| ensures TaskInv(s', t) {
      assert TaskInv(s, t);
    }
    forall id | id in s'.retries ensures RetryInv(s', id) {
      assert RetryInv(s, id);
    }
  }

  lemma FinishKeepsInv(s: State, task: TaskId, normal: bool, held: set<IssueId>)
    requires Inv(s, held)
    ensures Inv(Occur(s, WorkerFinishes(task, normal)), held)
  {
    if task < |s.tasks| && !s.tasks[task].done {
      var s' := Occur(s, WorkerFinishes(task, normal));
      var c := WorkerExit(s.tasks[task].issue, task, normal);
      CountAppend(s.mailbox, c);
      assert s'.mailbox == s.mailbox + [c];
      forall t | 0 <= t < |s'.tasks| ensures TaskInv(s', t) {
        assert TaskInv(s, t);
      }
      forall id | id in s'.retries ensures RetryInv(s', id) {
        assert RetryInv(s, id);
      }
      assert TimersInv(s');
      assert WorkersInv(s');
    }
  }

  lemma FireKeepsInv(s: State, timer: TimerId, held: set<IssueId>)
    requires Inv(s, held)
    ensures Inv(Occur(s, TimerFires(timer)), held)
  {
    if timer < |s.timers| && s.timers[timer].status == Armed {
      var s' := Occur(s, TimerFires(timer));
      var c := RetryFired(s.timers[timer].issue);
      CountAppend(s.mailbox, c);
      assert s'.mailbox == s.mailbox + [c];
      forall t | 0 <= t < |s'.tasks| ensures TaskInv(s', t) {
        assert TaskInv(s, t);
      }
      forall id | id in s'.retries ensures RetryInv(s', id) {
        assert RetryInv(s, id);
      }
      assert WorkersInv(s');
      assert TimersInv(s');
    }
  }

  lemma OccurKeepsInv(s: State, e: Event, held: set<IssueId>)
    requires Inv(s, held)
    ensures Inv(Occur(s, e), held)
  {
    match e
    case WorkerFinishes(t, normal) => FinishKeepsInv(s, t, normal, held);
    case TimerFires(tm) => FireKeepsInv(s, tm, held);
    case TickRequested => EnqueueKeepsInv(s, Tick, held);
    case AgentReports(id, at, totals) => EnqueueKeepsInv(s, AgentUpdate(id, at, totals), held);
    case ConfigReloads(config) => EnqueueKeepsInv(s, ApplyConfig(config), held);
    case ClockMoves(ms) => FrameKeepsInv(s, s.(now := s.now + ms), held);
  }

  /** Only these fields matter to the invariant. */
  lemma FrameKeepsInv(s: State, s': State, held: set<IssueId>)
    requires Inv(s, held)
    requires s'.running == s.running && s'.claimed == s.claimed && s'.retries == s.retries
    requires s'.mailbox == s.mailbox && s'.tasks == s.tasks && s'.timers == s.timers
    ensures Inv(s', held)
  {
    forall t | 0 <= t < |s.tasks| ensures TaskInv(s', t) {
      assert TaskInv(s, t);
    }
    forall id | id in s.retries ensures RetryInv(s', id) {
      assert RetryInv(s, id);
    }
  }

  lemma {:induction false} OccurAllKeepsInv(s: State, events: seq<Event>, held: set<IssueId>)
    requires Inv(s, held)
    ensures Inv(OccurAll(s, events), held)
    decreases |events|
  {
    if events != [] {
      OccurKeepsInv(s, events[0], held);
      OccurAllKeepsInv(Occur(s, events[0]), events[1..], held);
    }
  }

  lemma AwaitKeepsInv(s: State, held: set<IssueId>)
    requires Inv(s, held)
    ensures Inv(Await(s), held)
  {
    if s.future != [] {
      var s' := s.(future := s.future[1..]);
      FrameKeepsInv(s, s', held);
      OccurAllKeepsInv(s', s.future[0], held);
    }
  }

  // ---- Each atomic step keeps the invariant, moving one issue between its places ----

  lemma HoldUnclaimed(s: State, id: IssueId)
    requires Inv(s, {}) && id !in s.claimed
    ensures Inv(s.(claimed := s.claimed + {id}), {id})
  {
    var s' := s.(claimed := s.claimed + {id});
    assert forall t :: 0 <= t < |s.tasks| ==> TaskInv(s, t) == TaskInv(s', t);
    assert forall x :: x in s.retries ==> RetryInv(s, x) == RetryInv(s', x);
  }

  lemma ScheduleKeepsInv(s: State, id: IssueId, attempt: int, identifier: string, delayMs: Option<int>)
    requires Inv(s, {id})
    ensures Inv(ScheduleRetry(s, id, attempt, identifier, delayMs), {})
  {
    var s' := ScheduleRetry(s, id, attempt, identifier, delayMs);
    assert id !in s.retries;
    forall t | 0 <= t < |s'.tasks| ensures TaskInv(s', t) {
      assert TaskInv(s, t);
    }
    forall x | x in s'.retries ensures RetryInv(s', x) {
      if x == id {
        assert RetryFired(id) !in s.mailbox;
      } else {
        assert RetryInv(s, x);
      }
    }
    assert ClaimsInv(s', {});
  }

  lemma ReleaseKeepsInv(s: State, id: IssueId)
    requires Inv(s, {id})
    ensures Inv(ReleaseClaim(s, id), {})
  {
    var s' := ReleaseClaim(s, id);
    assert id !in s.retries;
    assert forall t :: 0 <= t < |s.tasks| ==> TaskInv(s, t) == TaskInv(s', t);
    assert forall x :: x in s.retries ==> RetryInv(s, x) == RetryInv(s', x);
  }

  lemma SpawnKeepsInv(s: State, issue: Issue, attempt: Option<int>)
    requires Inv(s, {issue.id})
    ensures Inv(DispatchIssue(s, issue, attempt, true), {})
  {
    var s' := DispatchIssue(s, issue, attempt, true);
    var id := issue.id;
    forall t | 0 <= t < |s'.tasks| ensures TaskInv(s', t) {
      if t < |s.tasks| {
        assert TaskInv(s, t);
        assert IsWorker(s, t) == IsWorker(s', t);
      } else {
        assert WorkerExit(id, t, true) !in s.mailbox && WorkerExit(id, t, false) !in s.mailbox;
      }
    }
    forall x | x in s'.retries ensures RetryInv(s', x) {
      assert RetryInv(s, x);
    }
    assert ClaimsInv(s', {});
  }

  lemma DispatchKeepsInv(s: State, issue: Issue, attempt: Option<int>, spawns: bool)
    requires Inv(s, {issue.id})
    ensures Inv(DispatchIssue(s, issue, attempt, spawns), {})
  {
    if spawns {
      SpawnKeepsInv(s, issue, attempt);
    } else {
      ScheduleKeepsInv(s, issue.id, NextAttempt(attempt), issue.identifier, None);
    }
  }

  /** Terminating a run leaves its issue held, and its worker cancelled. */
  lemma StopKeepsInv(s: State, id: IssueId)
    requires Inv(s, {}) && id in s.running.m
    ensures Inv(CancelTask(EndRun(s, id), s.running.m[id].worker), {id})
  {
    var s' := CancelTask(EndRun(s, id), s.running.m[id].worker);
    forall t | 0 <= t < |s'.tasks| ensures TaskInv(s', t) {
      assert TaskInv(s, t);
    }
    forall x | x in s'.retries ensures RetryInv(s', x) {
      assert RetryInv(s, x);
    }
    assert ClaimsInv(s', {id});
  }

  lemma CleanupKeepsInv(s: State, identifier: string, held: set<IssueId>)
    requires Inv(s, held)
    ensures Inv(CleanupWorkspace(s, identifier), held)
  {
    if identifier != "" {
      var s' := s.(cleanups := s.cleanups + [identifier]);
      FrameKeepsInv(s, s', held);
      AwaitKeepsInv(s', held);
    }
  }

  lemma TerminateKeepsInv(s: State, id: IssueId, cleanup: bool, retry: bool)
    requires Inv(s, {})
    ensures Inv(TerminateRunningIssue(s, id, cleanup, retry), {})
  {
    if id in s.running.m {
      var entry := s.running.m[id];
      var stopped := CancelTask(EndRun(s, id), entry.worker);
      StopKeepsInv(s, id);
      CleanupKeepsInv(stopped, entry.identifier, {id});
      var cleaned := if cleanup then CleanupWorkspace(stopped, entry.identifier) else stopped;
      ReleaseKeepsInv(cleaned, id);
      ScheduleKeepsInv(cleaned, id, NextAttempt(entry.retryAttempt), entry.identifier, None);
    }
  }

  lemma UpdateEntryKeepsInv(s: State, id: IssueId, entry: RunningEntry, totals: Tokens.Counts)
    requires Inv(s, {}) && id in s.running.m
    requires entry.worker == s.running.m[id].worker && entry.issue.id == id
    ensures Inv(s.(running := s.running.Put(id, entry), totals := totals), {})
  {
    var s' := s.(running := s.running.Put(id, entry), totals := totals);
    assert s'.running.m.Keys == s.running.m.Keys;
    forall t | 0 <= t < |s'.tasks| ensures TaskInv(s', t) {
      assert TaskInv(s, t);
    }
    forall x | x in s'.retries ensures RetryInv(s', x) {
      assert RetryInv(s, x);
    }
  }

  // ---- Handlers ----

  lemma PopInertKeepsInv(s: State)
    requires Inv(s, {}) && s.mailbox != [] && !s.mailbox[0].WorkerExit? && !s.mailbox[0].RetryFired?
    ensures Inv(s.(mailbox := s.mailbox[1..]), {})
  {
    var s' := s.(mailbox := s.mailbox[1..]);
    CountTail(s.mailbox);
    assert forall t :: 0 <= t < |s.tasks| ==> TaskInv(s, t) == TaskInv(s', t);
    assert forall x :: x in s.retries ==> RetryInv(s, x) == RetryInv(s', x);
  }

  lemma PopFiringKeepsInv(s: State)
    requires Inv(s, {}) && s.mailbox != [] && s.mailbox[0].RetryFired?
    ensures s.mailbox[0].id in s.retries
    ensures Inv(CancelRetry(s.(mailbox := s.mailbox[1..]), s.mailbox[0].id), {s.mailbox[0].id})
  {
    var id := s.mailbox[0].id;
    assert RetryFired(id) in s.mailbox;
    var s' := CancelRetry(s.(mailbox := s.mailbox[1..]), id);
    CountTail(s.mailbox);
    assert RetryInv(s, id);
    forall t | 0 <= t < |s'.tasks| ensures TaskInv(s', t) {
      assert TaskInv(s, t);
    }
    forall x | x in s'.retries ensures RetryInv(s', x) {
      assert RetryInv(s, x);
    }
    assert RetryFired(id) !in s.mailbox[1..];
    assert ClaimsInv(s', {id});
  }

  lemma PopStaleExitKeepsInv(s: State)
    requires Inv(s, {}) && s.mailbox != [] && s.mailbox[0].WorkerExit? && !IsWorker(s, s.mailbox[0].task)
    ensures Inv(s.(mailbox := s.mailbox[1..]), {})
  {
    var s' := s.(mailbox := s.mailbox[1..]);
    CountTail(s.mailbox);
    forall t | 0 <= t < |s'.tasks| ensures TaskInv(s', t) {
      assert TaskInv(s, t);
    }
    assert forall x :: x in s.retries ==> RetryInv(s, x) == RetryInv(s', x);
  }

  lemma PopExitKeepsTaskInv(s: State, t: TaskId)
    requires Inv(s, {}) && s.mailbox != [] && s.mailbox[0].WorkerExit? && IsWorker(s, s.mailbox[0].task)
    requires t < |s.tasks|
    ensures TaskInv(EndRun(s.(mailbox := s.mailbox[1..]), s.mailbox[0].id), t)
  {
    CountTail(s.mailbox);
    assert TaskInv(s, t) && TaskInv(s, s.mailbox[0].task);
    var s' := EndRun(s.(mailbox := s.mailbox[1..]), s.mailbox[0].id);
    assert t != s.mailbox[0].task ==> IsWorker(s', t) == IsWorker(s, t);
  }

  lemma PopExitKeepsInv(s: State)
    requires Inv(s, {}) && s.mailbox != [] && s.mailbox[0].WorkerExit? && IsWorker(s, s.mailbox[0].task)
    ensures Inv(EndRun(s.(mailbox := s.mailbox[1..]), s.mailbox[0].id), {s.mailbox[0].id})
  {
    var id := s.mailbox[0].id;
    var s' := EndRun(s.(mailbox := s.mailbox[1..]), id);
    PopExitKeepsClaims(s);
    PopExitKeepsTimers(s);
    assert forall c :: c in s'.mailbox ==> c in s.mailbox;
    forall t | 0 <= t < |s'.tasks| ensures TaskInv(s', t) {
      PopExitKeepsTaskInv(s, t);
    }
  }

  lemma PopExitKeepsClaims(s: State)
    requires Inv(s, {}) && s.mailbox != [] && s.mailbox[0].WorkerExit? && IsWorker(s, s.mailbox[0].task)
    ensures s.mailbox[0].id in s.running.m
    ensures ClaimsInv(EndRun(s.(mailbox := s.mailbox[1..]), s.mailbox[0].id), {s.mailbox[0].id})
  {
    var id := s.mailbox[0].id;
    assert id in s.running.m;
    assert EndRun(s.(mailbox := s.mailbox[1..]), id).running.m == s.running.m - {id};
  }

  lemma PopExitKeepsTimers(s: State)
    requires Inv(s, {}) && s.mailbox != [] && s.mailbox[0].WorkerExit? && s.mailbox[0].id in s.running.m
    ensures TimersInv(EndRun(s.(mailbox := s.mailbox[1..]), s.mailbox[0].id))
  {
    var s' := EndRun(s.(mailbox := s.mailbox[1..]), s.mailbox[0].id);
    CountTail(s.mailbox);
    forall x | x in s'.retries ensures RetryInv(s', x) {
      assert RetryInv(s, x);
    }
  }
}
