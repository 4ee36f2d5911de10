/** Which attempt a queued retry is for, and how long it waits, over whole runs of the service. */
module RetryLadder {
  import opened Numbers
  import opened Options
  import opened Models
  import opened Backoff
  import opened Scheduling
  import opened Machine
  import opened Reconcile
  import opened Handlers
  import opened Invariant
  import opened Reachability
  import ReconcileEquivalence

  /** A first attempt may be a continuation; everything else waits as documented, under one of these caps. */
  ghost predicate OnLadder(e: RetryEntry, caps: iset<int>)
  {
    && e.attempt >= 1
    && (|| (e.attempt == 1 && e.delayMs == CONTINUATION_DELAY_MS)
        || exists cap :: cap in caps && e.delayMs == DocumentedDelay(e.attempt, cap))
  }

  function DocumentedDelay(attempt: int, cap: int): int
    requires attempt >= 1
  {
    Max(0, Min(BASE_RETRY_DELAY_MS * Pow2(attempt - 1), cap))
  }

  ghost predicate Keeps(e: Event, caps: iset<int>) { e.ConfigReloads? ==> e.config.maxRetryBackoffMs in caps }

  ghost predicate AllKeep(events: seq<Event>, caps: iset<int>)
  {
    forall i :: 0 <= i < |events| ==> Keeps(events[i], caps)
  }

  /** Every configuration in force, queued or still to come has one of these backoff caps. */
  ghost predicate CapsAre(s: State, caps: iset<int>)
  {
    && s.config.maxRetryBackoffMs in caps
    && (forall c :: c in s.mailbox && c.ApplyConfig? ==> c.config.maxRetryBackoffMs in caps)
    && (forall i :: 0 <= i < |s.future| ==> AllKeep(s.future[i], caps))
  }

  ghost predicate Climbing(s: State, caps: iset<int>)
  {
    && CapsAre(s, caps)
    && (forall id :: id in s.retries ==> OnLadder(s.retries[id], caps))
    && (forall id :: id in s.running.m && s.running.m[id].retryAttempt.Some? ==>
          s.running.m[id].retryAttempt.value >= 1)
  }

  /** A step that queues no retry, starts no run and reads no configuration. */
  ghost predicate OnlyDrops(s: State, s': State)
  {
    && s'.config == s.config && s'.mailbox == s.mailbox && s'.future == s.future
    && (forall id :: id in s'.retries ==> id in s.retries && s'.retries[id] == s.retries[id])
    && (forall id :: id in s'.running.m ==>
          id in s.running.m && s'.running.m[id].retryAttempt == s.running.m[id].retryAttempt)
  }

  lemma DropsKeep(s: State, s': State, caps: iset<int>)
    requires Climbing(s, caps) && OnlyDrops(s, s')
    ensures Climbing(s', caps)
  {
  }

  lemma OccurKeeps(s: State, e: Event, caps: iset<int>)
    requires Climbing(s, caps) && Keeps(e, caps)
    ensures Climbing(Occur(s, e), caps)
  {
  }

  lemma {:induction false} OccurAllKeeps(s: State, events: seq<Event>, caps: iset<int>)
    requires Climbing(s, caps) && AllKeep(events, caps)
    ensures Climbing(OccurAll(s, events), caps)
    decreases |events|
  {
    if events != [] {
      assert Keeps(events[0], caps);
      OccurKeeps(s, events[0], caps);
      OccurAllKeeps(Occur(s, events[0]), events[1..], caps);
    }
  }

  lemma AwaitKeeps(s: State, caps: iset<int>)
    requires Climbing(s, caps)
    ensures Climbing(Await(s), caps)
  {
    if s.future != [] {
      assert AllKeep(s.future[0], caps);
      OccurAllKeeps(s.(future := s.future[1..]), s.future[0], caps);
    }
  }

  lemma ScheduleKeeps(s: State, id: IssueId, attempt: int, identifier: string, delayMs: Option<int>, caps: iset<int>)
    requires Climbing(s, caps) && attempt >= 1
    requires delayMs.Some? ==> attempt == 1 && delayMs.value == CONTINUATION_DELAY_MS
    ensures Climbing(ScheduleRetry(s, id, attempt, identifier, delayMs), caps)
  {
    BackoffIsDocumentedFormula(attempt, s.config.maxRetryBackoffMs);
    assert s.config.maxRetryBackoffMs in caps;
    var s' := ScheduleRetry(s, id, attempt, identifier, delayMs);
    assert OnLadder(s'.retries[id], caps);
    forall x | x in s'.retries ensures OnLadder(s'.retries[x], caps) {
    }
  }

  lemma DispatchKeeps(s: State, issue: Issue, attempt: Option<int>, spawns: bool, caps: iset<int>)
    requires Climbing(s, caps)
    ensures Climbing(DispatchIssue(s, issue, attempt, spawns), caps)
  {
    if issue.id !in s.running.m && !spawns {
      ScheduleKeeps(s, issue.id, NextAttempt(attempt), issue.identifier, None, caps);
    }
  }

  lemma TerminateKeeps(s: State, id: IssueId, cleanup: bool, retry: bool, caps: iset<int>)
    requires Climbing(s, caps)
    ensures Climbing(TerminateRunningIssue(s, id, cleanup, retry), caps)
  {
    if id in s.running.m {
      var entry := s.running.m[id];
      var stopped := CancelTask(EndRun(s, id), entry.worker);
      DropsKeep(s, stopped, caps);
      var cleaned := if cleanup then CleanupWorkspace(stopped, entry.identifier) else stopped;
      CleanupKeeps(stopped, entry.identifier, caps);
      if retry {
        ScheduleKeeps(cleaned, id, NextAttempt(entry.retryAttempt), entry.identifier, None, caps);
      } else {
        DropsKeep(cleaned, ReleaseClaim(cleaned, id), caps);
      }
    }
  }

  lemma CleanupKeeps(s: State, identifier: string, caps: iset<int>)
    requires Climbing(s, caps)
    ensures Climbing(CleanupWorkspace(s, identifier), caps)
  {
    var listed := s.(cleanups := s.cleanups + [identifier]);
    DropsKeep(s, listed, caps);
    AwaitKeeps(listed, caps);
  }

  // ---- The reconcilers ----

  ghost predicate PlanClimbs(plan: seq<StallDecision>) { forall i :: 0 <= i < |plan| ==> plan[i].attempt >= 1 }

  lemma {:induction false} StallPlanClimbs(s: State, keys: seq<IssueId>)
    ensures PlanClimbs(PlanStalls(s, keys))
  {
    if keys != [] {
      StallPlanClimbs(s, keys[1..]);
    }
  }

  lemma {:induction false} ExecuteStallsKeeps(s: State, plan: seq<StallDecision>, caps: iset<int>)
    requires Climbing(s, caps) && PlanClimbs(plan)
    ensures Climbing(ExecuteStalls(s, plan), caps)
    decreases |plan|
  {
    if plan != [] {
      var d := plan[0];
      assert d.attempt >= 1;
      if d.id in s.running.m {
        var stopped := TerminateRunningIssue(s, d.id, false, false);
        TerminateKeeps(s, d.id, false, false, caps);
        ScheduleKeeps(stopped, d.id, d.attempt, d.identifier, None, caps);
        ExecuteStallsKeeps(ScheduleRetry(stopped, d.id, d.attempt, d.identifier, None), plan[1..], caps);
      } else {
        ExecuteStallsKeeps(s, plan[1..], caps);
      }
    }
  }

  lemma {:induction false} ExecuteKeeps(s: State, plan: seq<ReconcileDecision>, caps: iset<int>)
    requires Climbing(s, caps)
    ensures Climbing(Execute(s, plan), caps)
    decreases |plan|
  {
    if plan != [] {
      var d := plan[0];
      if d.id in s.running.m && d.action != UpdateSnapshot {
        TerminateKeeps(s, d.id, d.action == TerminateAndClean, false, caps);
      } else {
        DropsKeep(s, ExecuteDecision(s, d), caps);
      }
      ExecuteKeeps(ExecuteDecision(s, d), plan[1..], caps);
    }
  }

  lemma {:induction false} TerminateStalledKeeps(s: State, ids: seq<IssueId>, caps: iset<int>)
    requires Climbing(s, caps)
    ensures Climbing(TerminateStalled(s, ids), caps)
    decreases |ids|
  {
    if ids != [] {
      TerminateKeeps(s, ids[0], false, true, caps);
      TerminateStalledKeeps(TerminateRunningIssue(s, ids[0], false, true), ids[1..], caps);
    }
  }

  lemma {:induction false} ApplyAllKeeps(s: State, refreshed: seq<Issue>, caps: iset<int>)
    requires Climbing(s, caps)
    ensures Climbing(ApplyAll(s, refreshed), caps)
    decreases |refreshed|
  {
    if refreshed != [] {
      var id := refreshed[0].id;
      TerminateKeeps(s, id, true, false, caps);
      TerminateKeeps(s, id, false, false, caps);
      if id in s.running.m {
        DropsKeep(s, SetSnapshot(s, id, refreshed[0]), caps);
      }
      ApplyAllKeeps(ApplyRefreshed(s, refreshed[0]), refreshed[1..], caps);
    }
  }

  lemma {:induction false} TerminateMissingKeeps(s: State, keys: seq<IssueId>, returned: set<IssueId>, caps: iset<int>)
    requires Climbing(s, caps)
    ensures Climbing(TerminateMissing(s, keys, returned), caps)
    decreases |keys|
  {
    if keys != [] {
      TerminateKeeps(s, keys[0], false, false, caps);
      TerminateMissingKeeps(if keys[0] in returned then s else TerminateRunningIssue(s, keys[0], false, false),
                            keys[1..], returned, caps);
    }
  }

  lemma ReconcileKeeps(s: State, reconciler: Reconciler, refreshed: Option<seq<Issue>>, caps: iset<int>)
    requires Climbing(s, caps)
    ensures Climbing(ReconcileRunning(s, reconciler, refreshed), caps)
  {
    if reconciler == Delegated {
      var quiet := ExecuteStalls(s, PlanStallTerminations(s));
      StallPlanClimbs(s, s.running.keys);
      ExecuteStallsKeeps(s, PlanStallTerminations(s), caps);
      AwaitKeeps(quiet, caps);
      if refreshed.Some? {
        ExecuteKeeps(Await(quiet), PlanReconciliation(quiet.running.keys, refreshed.value, s.config), caps);
      }
    } else {
      var quiet := BuiltInStalls(s);
      TerminateStalledKeeps(s, StalledIds(s, s.running.keys), caps);
      AwaitKeeps(quiet, caps);
      if refreshed.Some? {
        ApplyAllKeeps(Await(quiet), refreshed.value, caps);
        TerminateMissingKeeps(ApplyAll(Await(quiet), refreshed.value), quiet.running.keys, IdsOf(refreshed.value),
                              caps);
      }
    }
  }

  // ---- The handlers ----

  lemma {:induction false} DispatchLoopKeeps(s: State, candidates: seq<Issue>, spawnFails: set<IssueId>,
                                             caps: iset<int>)
    requires Climbing(s, caps)
    ensures Climbing(DispatchLoop(s, candidates, spawnFails), caps)
    decreases |candidates|
  {
    if candidates != [] && AvailableSlots(s.running, s.config) > 0 {
      DispatchKeeps(s, candidates[0], None, candidates[0].id !in spawnFails, caps);
      DispatchLoopKeeps(Consider(s, candidates[0], spawnFails), candidates[1..], spawnFails, caps);
    }
  }

  lemma TickKeeps(s: State, reconciler: Reconciler, o: Outcome, caps: iset<int>)
    requires Climbing(s, caps)
    ensures Climbing(RunTick(s, reconciler, o), caps)
  {
    var reconciled := ReconcileRunning(s, reconciler, o.refreshed);
    ReconcileKeeps(s, reconciler, o.refreshed, caps);
    AwaitKeeps(reconciled, caps);
    if o.candidates.Some? {
      DispatchLoopKeeps(Await(reconciled), SortForDispatch(o.candidates.value), o.spawnFails, caps);
    }
  }

  lemma ExitKeeps(s: State, id: IssueId, task: TaskId, normal: bool, caps: iset<int>)
    requires Climbing(s, caps)
    ensures Climbing(HandleWorkerExit(s, id, task, normal), caps)
  {
    if id in s.running.m && s.running.m[id].worker == task {
      var entry := s.running.m[id];
      var ended := EndRun(s, id);
      var noted := ended.(completed := ended.completed + {id});
      DropsKeep(s, ended, caps);
      DropsKeep(s, noted, caps);
      if normal {
        ScheduleKeeps(noted, id, 1, entry.identifier, Some(CONTINUATION_DELAY_MS), caps);
      } else {
        ScheduleKeeps(ended, id, NextAttempt(entry.retryAttempt), entry.identifier, None, caps);
      }
    }
  }

  lemma RetryKeeps(s: State, id: IssueId, o: Outcome, caps: iset<int>)
    requires Climbing(s, caps)
    ensures Climbing(HandleRetryTimer(s, id, o), caps)
  {
    if id in s.retries {
      var entry, answered := s.retries[id], Await(CancelRetry(s, id));
      assert OnLadder(entry, caps);
      DropsKeep(s, CancelRetry(s, id), caps);
      AwaitKeeps(CancelRetry(s, id), caps);
      FinishRetryKeeps(answered, id, entry, o, caps);
    }
  }

  lemma FinishRetryKeeps(s: State, id: IssueId, entry: RetryEntry, o: Outcome, caps: iset<int>)
    requires Climbing(s, caps) && OnLadder(entry, caps)
    ensures Climbing(FinishRetry(s, id, entry, o), caps)
  {
    if o.refreshed.None? {
      ScheduleKeeps(s, id, entry.attempt + 1, entry.identifier, None, caps);
    } else if FindIssue(o.refreshed.value, id).None? {
      DropsKeep(s, ReleaseClaim(s, id), caps);
    } else {
      var issue := FindIssue(o.refreshed.value, id).value;
      FoundKeeps(s, id, entry.attempt, issue, issue.id !in o.spawnFails, caps);
    }
  }

  lemma FoundKeeps(s: State, id: IssueId, attempt: int, issue: Issue, spawns: bool, caps: iset<int>)
    requires Climbing(s, caps) && attempt >= 1
    ensures Climbing(FinishFound(s, id, attempt, issue, spawns), caps)
  {
    if s.config.IsTerminal(issue.state) {
      var cleaned := CleanupWorkspace(s, issue.identifier);
      CleanupKeeps(s, issue.identifier, caps);
      DropsKeep(cleaned, ReleaseClaim(cleaned, id), caps);
    } else if !RetryDispatchAllowed(s, issue) {
      DropsKeep(s, ReleaseClaim(s, id), caps);
    } else if !HasSlotFor(s, issue) {
      ScheduleKeeps(s, id, attempt + 1, issue.identifier, None, caps);
    } else {
      DispatchKeeps(s, issue, Some(attempt), spawns, caps);
    }
  }

  lemma HandleKeeps(s: State, c: Command, reconciler: Reconciler, o: Outcome, caps: iset<int>)
    requires Climbing(s, caps) && (c.ApplyConfig? ==> c.config.maxRetryBackoffMs in caps)
    ensures Climbing(Handle(s, c, reconciler, o), caps)
  {
    match c
    case Tick => TickKeeps(s, reconciler, o, caps);
    case WorkerExit(id, task, normal) => ExitKeeps(s, id, task, normal, caps);
    case RetryFired(id) => RetryKeeps(s, id, o, caps);
    case AgentUpdate(id, at, totals) => DropsKeep(s, HandleAgentUpdate(s, id, at, totals), caps);
    case ApplyConfig(config) =>
  }

  ghost predicate ActionsKeep(actions: seq<Action>, caps: iset<int>)
  {
    forall i :: 0 <= i < |actions| && actions[i].Outside? ==> Keeps(actions[i].event, caps)
  }

  lemma {:induction false} RunKeepsClimbing(s: State, actions: seq<Action>, caps: iset<int>)
    requires Climbing(s, caps) && ActionsKeep(actions, caps)
    ensures Climbing(Run(s, actions), caps)
    decreases |actions|
  {
    if actions != [] {
      match actions[0] {
        case Outside(e) => OccurKeeps(s, e, caps);
        case Round(reconciler, o) =>
          if s.mailbox != [] {
            HandleKeeps(s.(mailbox := s.mailbox[1..]), s.mailbox[0], reconciler, o, caps);
          }
      }
      RunKeepsClimbing(Act(s, actions[0]), actions[1..], caps);
    }
  }

  // ---- Main results ----

  /**
    Every retry queued in any state of any run waits the documented time of its attempt under one of the caps ever
    configured (so under the one cap, while that is left alone), or the continuation delay of a first attempt; and no
    attempt is ever numbered below one.
   */
  lemma RetriesWaitAsDocumented(config: Config, now: int, future: seq<seq<Event>>, actions: seq<Action>,
                                caps: iset<int>, id: IssueId)
    requires config.maxRetryBackoffMs in caps && ActionsKeep(actions, caps)
    requires forall i :: 0 <= i < |future| ==> AllKeep(future[i], caps)
    requires id in Run(Initial(config, now, future), actions).retries
    ensures OnLadder(Run(Initial(config, now, future), actions).retries[id], caps)
  {
    RunKeepsClimbing(Initial(config, now, future), actions, caps);
  }

  predicate IsCap(ms: int) { ms >= 0 || ms < 0 }

  /** A configuration may name any integer. */
  ghost function AnyCap(): iset<int> { iset ms: int | IsCap(ms) }

  lemma ReachableClimbs(s: State)
    requires Reachable(s)
    ensures Climbing(s, AnyCap())
  {
    var config, now, future, actions :| s == Run(Initial(config, now, future), actions);
    RunKeepsClimbing(Initial(config, now, future), actions, AnyCap());
  }

  /** A failed run climbs one step and no more; a normal exit starts over with a continuation. */
  lemma ExitQueuesTheNextStep(s: State, id: IssueId, normal: bool)
    requires Inv(s, {}) && id in s.running.m
    ensures var entry := s.running.m[id];
            var s' := HandleWorkerExit(s, id, entry.worker, normal);
            && ClaimStateOf(s', id) == RetryQueued && id in s'.claimed
            && (id in s'.completed <==> normal || id in s.completed)
            && s'.timers[s'.retries[id].timer] == Timer(id, Armed)
            && s'.retries[id].identifier == entry.identifier
            && s'.retries[id].attempt
               == (if normal then 1 else if entry.retryAttempt.Some? then Max(entry.retryAttempt.value, 0) + 1 else 1)
            && s'.retries[id].delayMs
               == (if normal then 1_000
                   else Max(0, Min(10_000 * Pow2(s'.retries[id].attempt - 1), s.config.maxRetryBackoffMs)))
  {
    BackoffIsDocumentedFormula(NextAttempt(s.running.m[id].retryAttempt), s.config.maxRetryBackoffMs);
  }

  lemma FinishedRetryRuns(s: State, id: IssueId, entry: RetryEntry, o: Outcome)
    requires Inv(s, {id}) && entry.attempt >= 1
    ensures var s' := FinishRetry(s, id, entry, o);
            id in s'.running.m ==>
              && s'.running.m[id].retryAttempt == Some(entry.attempt)
              && o.refreshed.Some? && Some(s'.running.m[id].issue) == FindIssue(o.refreshed.value, id)
              && MayRun(s'.running.m[id].issue, s.config)
  {
    if o.refreshed.Some? && FindIssue(o.refreshed.value, id).Some? {
      var issue := FindIssue(o.refreshed.value, id).value;
      CleanupKeepsInv(s, issue.identifier, {id});
    }
  }

  /**
    In every reachable state, a fired retry that ends in a run runs under the attempt it was queued for, on the issue
    just read, which may run under the configuration in force.
   */
  lemma RetryRunsItsAttempt(s: State, reconciler: Reconciler, o: Outcome)
    requires Reachable(s) && s.mailbox != [] && s.mailbox[0].RetryFired?
    ensures var id := s.mailbox[0].id;
            var s' := Process(s, reconciler, o);
            id in s.retries &&
            (id in s'.running.m ==>
               && s'.running.m[id].retryAttempt == Some(s.retries[id].attempt)
               && o.refreshed.Some? && Some(s'.running.m[id].issue) == FindIssue(o.refreshed.value, id)
               && MayRun(s'.running.m[id].issue, s.config))
  {
    var id := s.mailbox[0].id;
    var cancelled := CancelRetry(s.(mailbox := s.mailbox[1..]), id);
    ReachableHasInv(s);
    ReachableClimbs(s);
    PopFiringKeepsInv(s);
    AwaitKeepsInv(cancelled, {id});
    ReconcileEquivalence.AwaitFrame(cancelled);
    assert OnLadder(s.retries[id], AnyCap());
    FinishedRetryRuns(Await(cancelled), id, s.retries[id], o);
  }

  predicate MayRun(issue: Issue, cfg: Config)
  {
    cfg.IsActive(issue.state) && !cfg.IsTerminal(issue.state) && IssueRoutable(issue, cfg)
  }
}
