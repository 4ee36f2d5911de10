/** What the invariant says about every run of the service, from start to any point before `stop()`. */
module Reachability {
  import opened Options
  import opened Models
  import opened Backoff
  import opened Scheduling
  import opened Machine
  import opened Reconcile
  import opened Handlers
  import opened Invariant

  // ---- Compound steps ----

  lemma ScheduleUnclaimedKeepsInv(s: State, id: IssueId, attempt: int, identifier: string)
    requires Inv(s, {}) && id !in s.claimed
    ensures Inv(ScheduleRetry(s, id, attempt, identifier, None), {})
  {
    var s' := s.(claimed := s.claimed + {id});
    HoldUnclaimed(s, id);
    ScheduleKeepsInv(s', id, attempt, identifier, None);
    assert s'.claimed + {id} == s.claimed + {id};
  }

  lemma DispatchUnclaimedKeepsInv(s: State, issue: Issue, spawns: bool)
    requires Inv(s, {}) && issue.id !in s.claimed
    ensures Inv(DispatchIssue(s, issue, None, spawns), {})
  {
    var s' := s.(claimed := s.claimed + {issue.id});
    HoldUnclaimed(s, issue.id);
    DispatchKeepsInv(s', issue, None, spawns);
    assert s'.claimed + {issue.id} == s.claimed + {issue.id};
  }

  lemma {:induction false} ExecuteStallsKeepsInv(s: State, plan: seq<StallDecision>)
    requires Inv(s, {})
    ensures Inv(ExecuteStalls(s, plan), {})
    decreases |plan|
  {
    if plan != [] {
      var d := plan[0];
      if d.id in s.running.m {
        var stopped := TerminateRunningIssue(s, d.id, false, false);
        TerminateKeepsInv(s, d.id, false, false);
        ScheduleUnclaimedKeepsInv(stopped, d.id, d.attempt, d.identifier);
        ExecuteStallsKeepsInv(ScheduleRetry(stopped, d.id, d.attempt, d.identifier, None), plan[1..]);
      } else {
        ExecuteStallsKeepsInv(s, plan[1..]);
      }
    }
  }

  lemma SetSnapshotKeepsInv(s: State, id: IssueId, issue: Issue)
    requires Inv(s, {}) && id in s.running.m && issue.id == id
    ensures Inv(SetSnapshot(s, id, issue), {})
  {
    UpdateEntryKeepsInv(s, id, s.running.m[id].(issue := issue), s.totals);
  }

  lemma {:induction false} ExecuteKeepsInv(s: State, plan: seq<ReconcileDecision>)
    requires Inv(s, {})
    requires forall d :: d in plan && d.issue.Some? ==> d.issue.value.id == d.id
    ensures Inv(Execute(s, plan), {})
    decreases |plan|
  {
    if plan != [] {
      var d := plan[0];
      if d.id in s.running.m {
        if d.action != UpdateSnapshot {
          TerminateKeepsInv(s, d.id, d.action == TerminateAndClean, false);
        } else if d.issue.Some? {
          SetSnapshotKeepsInv(s, d.id, d.issue.value);
        }
      }
      ExecuteKeepsInv(ExecuteDecision(s, d), plan[1..]);
    }
  }

  lemma {:induction false} TerminateStalledKeepsInv(s: State, ids: seq<IssueId>)
    requires Inv(s, {})
    ensures Inv(TerminateStalled(s, ids), {})
    decreases |ids|
  {
    if ids != [] {
      TerminateKeepsInv(s, ids[0], false, true);
      TerminateStalledKeepsInv(TerminateRunningIssue(s, ids[0], false, true), ids[1..]);
    }
  }

  lemma ApplyRefreshedKeepsInv(s: State, issue: Issue)
    requires Inv(s, {})
    ensures Inv(ApplyRefreshed(s, issue), {})
  {
    if issue.id in s.running.m {
      var s' := ApplyRefreshed(s, issue);
      if s.config.IsTerminal(issue.state) {
        TerminateKeepsInv(s, issue.id, true, false);
        assert s' == TerminateRunningIssue(s, issue.id, true, false);
      } else if s.config.IsActive(issue.state) && IssueRoutable(issue, s.config) {
        SetSnapshotKeepsInv(s, issue.id, issue);
        assert s' == SetSnapshot(s, issue.id, issue);
      } else {
        TerminateKeepsInv(s, issue.id, false, false);
        assert s' == TerminateRunningIssue(s, issue.id, false, false);
      }
    }
  }

  lemma {:induction false} ApplyAllKeepsInv(s: State, refreshed: seq<Issue>)
    requires Inv(s, {})
    ensures Inv(ApplyAll(s, refreshed), {})
    decreases |refreshed|
  {
    if refreshed != [] {
      ApplyRefreshedKeepsInv(s, refreshed[0]);
      ApplyAllKeepsInv(ApplyRefreshed(s, refreshed[0]), refreshed[1..]);
    }
  }

  lemma {:induction false} TerminateMissingKeepsInv(s: State, keys: seq<IssueId>, returned: set<IssueId>)
    requires Inv(s, {})
    ensures Inv(TerminateMissing(s, keys, returned), {})
    decreases |keys|
  {
    if keys != [] {
      TerminateKeepsInv(s, keys[0], false, false);
      TerminateMissingKeepsInv(if keys[0] in returned then s else TerminateRunningIssue(s, keys[0], false, false),
                               keys[1..], returned);
    }
  }

  lemma ReconcileKeepsInv(s: State, reconciler: Reconciler, refreshed: Option<seq<Issue>>)
    requires Inv(s, {})
    ensures Inv(ReconcileRunning(s, reconciler, refreshed), {})
  {
    if reconciler == Delegated {
      var quiet := ExecuteStalls(s, PlanStallTerminations(s));
      ExecuteStallsKeepsInv(s, PlanStallTerminations(s));
      AwaitKeepsInv(quiet, {});
      if refreshed.Some? {
        ExecuteKeepsInv(Await(quiet), PlanReconciliation(quiet.running.keys, refreshed.value, s.config));
      }
    } else {
      var quiet := BuiltInStalls(s);
      TerminateStalledKeepsInv(s, StalledIds(s, s.running.keys));
      AwaitKeepsInv(quiet, {});
      if refreshed.Some? {
        ApplyAllKeepsInv(Await(quiet), refreshed.value);
        TerminateMissingKeepsInv(ApplyAll(Await(quiet), refreshed.value), quiet.running.keys, IdsOf(refreshed.value));
      }
    }
  }

  lemma {:induction false} DispatchLoopKeepsInv(s: State, candidates: seq<Issue>, spawnFails: set<IssueId>)
    requires Inv(s, {})
    ensures Inv(DispatchLoop(s, candidates, spawnFails), {})
    decreases |candidates|
  {
    if candidates != [] && AvailableSlots(s.running, s.config) > 0 {
      var issue := candidates[0];
      if issue.id !in s.claimed {
        DispatchUnclaimedKeepsInv(s, issue, issue.id !in spawnFails);
      }
      DispatchLoopKeepsInv(Consider(s, issue, spawnFails), candidates[1..], spawnFails);
    }
  }

  lemma FinishRetryKeepsInv(s: State, id: IssueId, entry: RetryEntry, o: Outcome)
    requires Inv(s, {id})
    ensures Inv(FinishRetry(s, id, entry, o), {})
  {
    if o.refreshed.None? {
      ScheduleKeepsInv(s, id, entry.attempt + 1, entry.identifier, None);
    } else {
      match FindIssue(o.refreshed.value, id)
      case None => ReleaseKeepsInv(s, id);
      case Some(issue) =>
        if s.config.IsTerminal(issue.state) {
          CleanupKeepsInv(s, issue.identifier, {id});
          ReleaseKeepsInv(CleanupWorkspace(s, issue.identifier), id);
        } else if !RetryDispatchAllowed(s, issue) {
          ReleaseKeepsInv(s, id);
        } else if !HasSlotFor(s, issue) {
          ScheduleKeepsInv(s, id, entry.attempt + 1, issue.identifier, None);
        } else {
          DispatchKeepsInv(s, issue, Some(entry.attempt), issue.id !in o.spawnFails);
        }
    }
  }

  lemma TickKeepsInv(s: State, reconciler: Reconciler, o: Outcome)
    requires Inv(s, {})
    ensures Inv(RunTick(s, reconciler, o), {})
  {
    var reconciled := ReconcileRunning(s, reconciler, o.refreshed);
    ReconcileKeepsInv(s, reconciler, o.refreshed);
    AwaitKeepsInv(reconciled, {});
    if o.candidates.Some? {
      DispatchLoopKeepsInv(Await(reconciled), SortForDispatch(o.candidates.value), o.spawnFails);
    }
  }

  lemma ExitKeepsInv(s: State)
    requires Inv(s, {}) && s.mailbox != [] && s.mailbox[0].WorkerExit?
    ensures var c := s.mailbox[0]; Inv(HandleWorkerExit(s.(mailbox := s.mailbox[1..]), c.id, c.task, c.normal), {})
  {
    var c := s.mailbox[0];
    var popped := s.(mailbox := s.mailbox[1..]);
    if IsWorker(s, c.task) {
      PopExitKeepsInv(s);
      var entry := s.running.m[c.id];
      var ended := EndRun(popped, c.id);
      var done := ended.(completed := ended.completed + {c.id});
      FrameKeepsInv(ended, done, {c.id});
      ScheduleKeepsInv(done, c.id, 1, entry.identifier, Some(CONTINUATION_DELAY_MS));
      ScheduleKeepsInv(ended, c.id, NextAttempt(entry.retryAttempt), entry.identifier, None);
    } else {
      PopStaleExitKeepsInv(s);
    }
  }

  lemma ProcessKeepsInv(s: State, reconciler: Reconciler, o: Outcome)
    requires Inv(s, {})
    ensures Inv(Process(s, reconciler, o), {})
  {
    if s.mailbox != [] {
      var popped := s.(mailbox := s.mailbox[1..]);
      match s.mailbox[0]
      case Tick =>
        PopInertKeepsInv(s);
        TickKeepsInv(popped, reconciler, o);
      case WorkerExit(id, task, normal) =>
        ExitKeepsInv(s);
      case RetryFired(id) =>
        PopFiringKeepsInv(s);
        AwaitKeepsInv(CancelRetry(popped, id), {id});
        FinishRetryKeepsInv(Await(CancelRetry(popped, id)), id, s.retries[id], o);
      case AgentUpdate(id, at, totals) =>
        PopInertKeepsInv(s);
        if id in s.running.m {
          var s' := HandleAgentUpdate(popped, id, at, totals);
          UpdateEntryKeepsInv(popped, id, s'.running.m[id], s'.totals);
        }
      case ApplyConfig(config) =>
        PopInertKeepsInv(s);
        FrameKeepsInv(popped, popped.(config := config), {});
    }
  }

  lemma {:induction false} RunKeepsInv(s: State, actions: seq<Action>)
    requires Inv(s, {})
    ensures Inv(Run(s, actions), {})
    decreases |actions|
  {
    if actions != [] {
      match actions[0] {
        case Outside(e) => OccurKeepsInv(s, e, {});
        case Round(reconciler, o) => ProcessKeepsInv(s, reconciler, o);
      }
      RunKeepsInv(Act(s, actions[0]), actions[1..]);
    }
  }

  /** A state some run of the service reaches before `stop()`, between two commands. */
  ghost predicate Reachable(s: State)
  {
    exists config, now, future, actions :: s == Run(Initial(config, now, future), actions)
  }

  lemma ReachableHasInv(s: State)
    requires Reachable(s)
    ensures Inv(s, {})
  {
    var config, now, future, actions :| s == Run(Initial(config, now, future), actions);
    RunKeepsInv(Initial(config, now, future), actions);
  }

  // ---- Main results ----

  /** Every claim is a running issue or a queued retry, never both, and each of them has exactly one way forward. */
  lemma NothingClaimedIsStranded(s: State)
    requires Reachable(s)
    ensures s.claimed == s.running.m.Keys + s.retries.Keys
    ensures s.running.m.Keys !! s.retries.Keys
    ensures forall id :: id in s.running.m ==>
              var t := s.running.m[id].worker;
              t < |s.tasks| && s.tasks[t].issue == id && Exits(s.mailbox, id, t) == if s.tasks[t].done then 1 else 0
    ensures forall id :: id in s.retries ==>
              var tm := s.retries[id].timer;
              tm < |s.timers| && (if s.timers[tm].status == Armed then Fires(s.mailbox, id) == 0
                                  else s.timers[tm].status == Fired && Fires(s.mailbox, id) == 1)
    ensures forall id :: ClaimStateOf(s, id) != Claimed
  {
    ReachableHasInv(s);
    forall id | id in s.running.m ensures TaskInv(s, s.running.m[id].worker) && IsWorker(s, s.running.m[id].worker) {
    }
    assert forall id :: id in s.retries ==> RetryInv(s, id);
  }

  /** A queued firing always finds its entry, and the issue is not running then or after the tracker call. */
  lemma FiringFindsItsEntry(s: State)
    requires Reachable(s) && s.mailbox != [] && s.mailbox[0].RetryFired?
    ensures var id := s.mailbox[0].id;
            id in s.retries && id !in Await(CancelRetry(s.(mailbox := s.mailbox[1..]), id)).running.m
  {
    ReachableHasInv(s);
    PopFiringKeepsInv(s);
    var id := s.mailbox[0].id;
    AwaitKeepsInv(CancelRetry(s.(mailbox := s.mailbox[1..]), id), {id});
  }

  /** Every task neither cancelled nor finished is the handle of one running entry, the one of its own issue. */
  lemma LiveTasksAreHandles(s: State, t: TaskId)
    requires Reachable(s) && t < |s.tasks| && !s.tasks[t].cancelled && !s.tasks[t].done
    ensures IsWorker(s, t)
    ensures forall id :: id in s.running.m && s.running.m[id].worker == t ==> id == s.tasks[t].issue
  {
    ReachableHasInv(s);
    assert TaskInv(s, t);
  }

  /** Two issues never share a worker, and no issue has two uncancelled unfinished workers. */
  lemma OneWorkerPerIssue(s: State, t: TaskId, u: TaskId)
    requires Reachable(s) && t < |s.tasks| && u < |s.tasks| && s.tasks[t].issue == s.tasks[u].issue
    requires !s.tasks[t].cancelled && !s.tasks[t].done && !s.tasks[u].cancelled && !s.tasks[u].done
    ensures t == u
  {
    LiveTasksAreHandles(s, t);
    LiveTasksAreHandles(s, u);
  }

  /** A queued exit changes the state exactly when its task was never cancelled; a stale exit changes nothing. */
  lemma ExitIsInertIffCancelled(s: State)
    requires Reachable(s) && s.mailbox != [] && s.mailbox[0].WorkerExit?
    ensures var c := s.mailbox[0]; c.task < |s.tasks|
    ensures var c := s.mailbox[0];
            var popped := s.(mailbox := s.mailbox[1..]);
            HandleWorkerExit(popped, c.id, c.task, c.normal) == popped <==> s.tasks[c.task].cancelled
  {
    ReachableHasInv(s);
    var c := s.mailbox[0];
    assert c in s.mailbox;
    CountTail(s.mailbox);
    assert TaskInv(s, c.task);
    var popped := s.(mailbox := s.mailbox[1..]);
    if IsWorker(s, c.task) {
      assert c.id !in HandleWorkerExit(popped, c.id, c.task, c.normal).running.m;
    }
  }
}
