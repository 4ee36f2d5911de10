/** The ledger over whole handlers and whole runs. */
module Conservation {
  import opened Numbers
  import opened Options
  import opened Models
  import opened Backoff
  import opened Scheduling
  import opened Machine
  import opened Reconcile
  import opened Handlers
  import opened Ledger
  import Tokens

  lemma StopGrows(s: State, id: IssueId)
    requires LedgerInv(s) && id in s.running.m
    ensures Grows(s, CancelTask(EndRun(s, id), s.running.m[id].worker))
    ensures LiveRuntimeMs(CancelTask(EndRun(s, id), s.running.m[id].worker)) == LiveRuntimeMs(s)
  {
    EndRunConserves(s, id);
    QuietStep(EndRun(s, id), CancelTask(EndRun(s, id), s.running.m[id].worker));
  }

  lemma TerminateGrows(s: State, id: IssueId, cleanup: bool, retry: bool)
    requires LedgerInv(s)
    ensures Grows(s, TerminateRunningIssue(s, id, cleanup, retry))
  {
    if id in s.running.m {
      var entry := s.running.m[id];
      var stopped := CancelTask(EndRun(s, id), entry.worker);
      StopGrows(s, id);
      CleanupGrows(stopped, entry.identifier);
      var cleaned := if cleanup then CleanupWorkspace(stopped, entry.identifier) else stopped;
      GrowsTransitive(s, stopped, cleaned);
      LetGoGrows(cleaned, id, NextAttempt(entry.retryAttempt), entry.identifier);
      GrowsTransitive(s, cleaned, TerminateRunningIssue(s, id, cleanup, retry));
    }
  }

  lemma LetGoGrows(s: State, id: IssueId, attempt: int, identifier: string)
    requires LedgerInv(s)
    ensures Grows(s, ScheduleRetry(s, id, attempt, identifier, None)) && Grows(s, ReleaseClaim(s, id))
  {
    ScheduleQuiet(s, id, attempt, identifier, None);
    ReleaseQuiet(s, id);
  }

  lemma GrowsTransitive(a: State, b: State, c: State)
    requires Grows(a, b) && Grows(b, c)
    ensures Grows(a, c)
  {
  }

  lemma CleanupGrows(s: State, identifier: string)
    requires LedgerInv(s)
    ensures Grows(s, CleanupWorkspace(s, identifier))
  {
    if identifier != "" {
      var s' := s.(cleanups := s.cleanups + [identifier]);
      QuietStep(s, s');
      AwaitGrows(s');
    }
  }

  lemma {:induction false} ExecuteStallsGrows(s: State, plan: seq<StallDecision>)
    requires LedgerInv(s)
    ensures Grows(s, ExecuteStalls(s, plan))
    decreases |plan|
  {
    if plan != [] {
      var d := plan[0];
      var next := s;
      if d.id in s.running.m {
        var stopped := TerminateRunningIssue(s, d.id, false, false);
        next := ScheduleRetry(stopped, d.id, d.attempt, d.identifier, None);
        TerminateGrows(s, d.id, false, false);
        ScheduleQuiet(stopped, d.id, d.attempt, d.identifier, None);
      }
      ExecuteStallsGrows(next, plan[1..]);
    }
  }

  lemma SetSnapshotGrows(s: State, id: IssueId, issue: Issue)
    requires LedgerInv(s) && id in s.running.m
    ensures Grows(s, SetSnapshot(s, id, issue))
  {
    UpdateConserves(s, id, s.running.m[id].(issue := issue), s.totals);
  }

  lemma DecisionGrows(s: State, d: ReconcileDecision)
    requires LedgerInv(s)
    ensures Grows(s, ExecuteDecision(s, d))
  {
    if d.id in s.running.m {
      if d.action != UpdateSnapshot {
        TerminateGrows(s, d.id, d.action == TerminateAndClean, false);
      } else if d.issue.Some? {
        SetSnapshotGrows(s, d.id, d.issue.value);
      }
    }
  }

  lemma {:induction false} ExecuteGrows(s: State, plan: seq<ReconcileDecision>)
    requires LedgerInv(s)
    ensures Grows(s, Execute(s, plan))
    decreases |plan|
  {
    if plan != [] {
      var next := ExecuteDecision(s, plan[0]);
      DecisionGrows(s, plan[0]);
      ExecuteGrows(next, plan[1..]);
      GrowsTransitive(s, next, Execute(s, plan));
    }
  }

  lemma {:induction false} TerminateStalledGrows(s: State, ids: seq<IssueId>)
    requires LedgerInv(s)
    ensures Grows(s, TerminateStalled(s, ids))
    decreases |ids|
  {
    if ids != [] {
      TerminateGrows(s, ids[0], false, true);
      TerminateStalledGrows(TerminateRunningIssue(s, ids[0], false, true), ids[1..]);
    }
  }

  lemma RefreshGrows(s: State, issue: Issue)
    requires LedgerInv(s)
    ensures Grows(s, ApplyRefreshed(s, issue))
  {
    if issue.id in s.running.m {
      if s.config.IsTerminal(issue.state) {
        TerminateGrows(s, issue.id, true, false);
      } else if s.config.IsActive(issue.state) && IssueRoutable(issue, s.config) {
        SetSnapshotGrows(s, issue.id, issue);
      } else {
        TerminateGrows(s, issue.id, false, false);
      }
    }
  }

  lemma {:induction false} ApplyAllGrows(s: State, refreshed: seq<Issue>)
    requires LedgerInv(s)
    ensures Grows(s, ApplyAll(s, refreshed))
    decreases |refreshed|
  {
    if refreshed != [] {
      var next := ApplyRefreshed(s, refreshed[0]);
      RefreshGrows(s, refreshed[0]);
      ApplyAllGrows(next, refreshed[1..]);
      GrowsTransitive(s, next, ApplyAll(s, refreshed));
    }
  }

  lemma {:induction false} TerminateMissingGrows(s: State, keys: seq<IssueId>, returned: set<IssueId>)
    requires LedgerInv(s)
    ensures Grows(s, TerminateMissing(s, keys, returned))
    decreases |keys|
  {
    if keys != [] {
      TerminateGrows(s, keys[0], false, false);
      TerminateMissingGrows(if keys[0] in returned then s else TerminateRunningIssue(s, keys[0], false, false),
                            keys[1..], returned);
    }
  }

  lemma ModuleReconcileGrows(s: State, refreshed: Option<seq<Issue>>)
    requires LedgerInv(s)
    ensures Grows(s, ModuleReconcile(s, refreshed))
  {
    var quiet := ExecuteStalls(s, PlanStallTerminations(s));
    ExecuteStallsGrows(s, PlanStallTerminations(s));
    AwaitGrows(quiet);
    GrowsTransitive(s, quiet, Await(quiet));
    if quiet.running.keys != [] && refreshed.Some? {
      ExecuteGrows(Await(quiet), PlanReconciliation(quiet.running.keys, refreshed.value, s.config));
      GrowsTransitive(s, Await(quiet), ModuleReconcile(s, refreshed));
    }
  }

  lemma BuiltInReconcileGrows(s: State, refreshed: Option<seq<Issue>>)
    requires LedgerInv(s)
    ensures Grows(s, BuiltInReconcile(s, refreshed))
  {
    var quiet := BuiltInStalls(s);
    TerminateStalledGrows(s, StalledIds(s, s.running.keys));
    AwaitGrows(quiet);
    GrowsTransitive(s, quiet, Await(quiet));
    if quiet.running.keys != [] && refreshed.Some? {
      var applied := ApplyAll(Await(quiet), refreshed.value);
      ApplyAllGrows(Await(quiet), refreshed.value);
      GrowsTransitive(s, Await(quiet), applied);
      TerminateMissingGrows(applied, quiet.running.keys, IdsOf(refreshed.value));
      GrowsTransitive(s, applied, BuiltInReconcile(s, refreshed));
    }
  }

  lemma ReconcileGrows(s: State, reconciler: Reconciler, refreshed: Option<seq<Issue>>)
    requires LedgerInv(s)
    ensures Grows(s, ReconcileRunning(s, reconciler, refreshed))
  {
    if reconciler == Delegated {
      ModuleReconcileGrows(s, refreshed);
    } else {
      BuiltInReconcileGrows(s, refreshed);
    }
  }

  lemma DispatchGrows(s: State, issue: Issue, attempt: Option<int>, spawns: bool)
    requires LedgerInv(s) && AvailableSlots(s.running, s.config) > 0
    ensures Grows(s, DispatchIssue(s, issue, attempt, spawns))
  {
    if issue.id !in s.running.m {
      if spawns {
        SpawnGrows(s, issue, attempt);
      } else {
        ScheduleQuiet(s, issue.id, NextAttempt(attempt), issue.identifier, None);
      }
    }
  }

  lemma {:induction false} DispatchLoopGrows(s: State, candidates: seq<Issue>, spawnFails: set<IssueId>)
    requires LedgerInv(s)
    ensures Grows(s, DispatchLoop(s, candidates, spawnFails))
    decreases |candidates|
  {
    if candidates != [] && AvailableSlots(s.running, s.config) > 0 {
      DispatchGrows(s, candidates[0], None, candidates[0].id !in spawnFails);
      DispatchLoopGrows(Consider(s, candidates[0], spawnFails), candidates[1..], spawnFails);
    }
  }

  lemma TickGrows(s: State, reconciler: Reconciler, o: Outcome)
    requires LedgerInv(s)
    ensures Grows(s, RunTick(s, reconciler, o))
  {
    var reconciled := ReconcileRunning(s, reconciler, o.refreshed);
    ReconcileGrows(s, reconciler, o.refreshed);
    if o.valid {
      AfterReconcileGrows(reconciled, o);
      GrowsTransitive(s, reconciled, RunTick(s, reconciler, o));
    } else {
      assert RunTick(s, reconciler, o) == reconciled;
    }
  }

  lemma AfterReconcileGrows(s: State, o: Outcome)
    requires LedgerInv(s)
    ensures var answered := Await(s);
            Grows(s, if o.candidates.None? then answered
                     else DispatchLoop(answered, SortForDispatch(o.candidates.value), o.spawnFails))
  {
    var answered := Await(s);
    AwaitGrows(s);
    if o.candidates.Some? {
      var sorted := SortForDispatch(o.candidates.value);
      DispatchLoopGrows(answered, sorted, o.spawnFails);
      GrowsTransitive(s, answered, DispatchLoop(answered, sorted, o.spawnFails));
    }
  }

  lemma FinishRetryGrows(s: State, id: IssueId, entry: RetryEntry, o: Outcome)
    requires LedgerInv(s)
    ensures Grows(s, FinishRetry(s, id, entry, o))
  {
    if o.refreshed.None? {
      ScheduleQuiet(s, id, entry.attempt + 1, entry.identifier, None);
    } else if FindIssue(o.refreshed.value, id).None? {
      ReleaseQuiet(s, id);
    } else {
      var issue := FindIssue(o.refreshed.value, id).value;
      FoundGrows(s, id, entry.attempt, issue, issue.id !in o.spawnFails);
    }
  }

  lemma FoundGrows(s: State, id: IssueId, attempt: int, issue: Issue, spawns: bool)
    requires LedgerInv(s)
    ensures Grows(s, FinishFound(s, id, attempt, issue, spawns))
  {
    if s.config.IsTerminal(issue.state) {
      CleanedGrows(s, id, issue.identifier);
    } else if !RetryDispatchAllowed(s, issue) {
      ReleaseQuiet(s, id);
    } else if !HasSlotFor(s, issue) {
      ScheduleQuiet(s, id, attempt + 1, issue.identifier, None);
    } else {
      DispatchGrows(s, issue, Some(attempt), spawns);
    }
  }

  lemma CleanedGrows(s: State, id: IssueId, identifier: string)
    requires LedgerInv(s)
    ensures Grows(s, ReleaseClaim(CleanupWorkspace(s, identifier), id))
  {
    var cleaned := CleanupWorkspace(s, identifier);
    CleanupGrows(s, identifier);
    ReleaseQuiet(cleaned, id);
    GrowsTransitive(s, cleaned, ReleaseClaim(cleaned, id));
  }

  lemma ExitGrows(s: State, id: IssueId, task: TaskId, normal: bool)
    requires LedgerInv(s)
    ensures Grows(s, HandleWorkerExit(s, id, task, normal))
  {
    if id in s.running.m && s.running.m[id].worker == task {
      var entry := s.running.m[id];
      var ended := EndRun(s, id);
      var done := ended.(completed := ended.completed + {id});
      EndRunConserves(s, id);
      QuietStep(ended, done);
      ScheduleQuiet(done, id, 1, entry.identifier, Some(CONTINUATION_DELAY_MS));
      ScheduleQuiet(ended, id, NextAttempt(entry.retryAttempt), entry.identifier, None);
    }
  }

  lemma AgentUpdateGrows(s: State, id: IssueId, at: Option<int>, totals: Option<Tokens.Counts>)
    requires LedgerInv(s)
    ensures Grows(s, HandleAgentUpdate(s, id, at, totals))
  {
    if id in s.running.m {
      var s' := HandleAgentUpdate(s, id, at, totals);
      UpdateConserves(s, id, s'.running.m[id], s'.totals);
    }
  }

  /**
    A report moves each aggregate count by exactly the credit it adds to its session: what its total exceeds the last
    report by. It changes nothing else but that session and the time of its last activity; a report for an issue that is
    not running changes nothing.
   */
  lemma ReportMovesAggregateWithSession(s: State, id: IssueId, at: Option<int>, totals: Option<Tokens.Counts>)
    ensures var s' := HandleAgentUpdate(s, id, at, totals);
            if id !in s.running.m then s' == s
            else
              var e, e' := s.running.m[id], s'.running.m[id];
              var before, after := e.session.credited, e'.session.credited;
              && s'.totals.input - s.totals.input == after.input - before.input
              && s'.totals.output - s.totals.output == after.output - before.output
              && s'.totals.total - s.totals.total == after.total - before.total
              && Tokens.AtLeast(s'.totals, s.totals)
              && (totals.None? ==> e'.session == e.session)
              && (totals.Some? ==>
                    var last, now := e.session.lastReported, totals.value;
                    && e'.session.lastReported == now
                    && after.input == before.input + Max(now.input - last.input, 0)
                    && after.output == before.output + Max(now.output - last.output, 0)
                    && after.total == before.total + Max(now.total - last.total, 0))
              && e'.lastActivity == Some(if at.Some? then at.value else s.now)
              && e' == e.(session := e'.session, lastActivity := e'.lastActivity)
              && s' == s.(running := s.running.Put(id, e'), totals := s'.totals)
  {
    if id in s.running.m && totals.Some? {
      var session := s.running.m[id].session;
      assert Tokens.Credit(session, totals.value).credited
          == Tokens.Plus(session.credited, Tokens.TokenDelta(session, totals.value));
    }
  }

  /** Handling any command but a reload grows the books; a reload touches nothing but the configuration. */
  lemma HandleGrows(s: State, c: Command, reconciler: Reconciler, o: Outcome)
    requires LedgerInv(s) && !c.ApplyConfig?
    ensures Grows(s, Handle(s, c, reconciler, o))
  {
    match c
    case Tick => TickGrows(s, reconciler, o);
    case WorkerExit(id, task, normal) => ExitGrows(s, id, task, normal);
    case RetryFired(id) =>
      if id in s.retries {
        var popped := CancelRetry(s, id);
        QuietStep(s, popped);
        AwaitGrows(popped);
        FinishRetryGrows(Await(popped), id, s.retries[id], o);
      }
    case AgentUpdate(id, at, totals) => AgentUpdateGrows(s, id, at, totals);
  }

  predicate SteadyAction(a: Action) { a.Outside? ==> Steady(a.event) }

  predicate AllSteadyActions(actions: seq<Action>)
  {
    forall i :: 0 <= i < |actions| ==> SteadyAction(actions[i])
  }

  lemma ReloadKeepsLedger(s: State, config: Config)
    requires LedgerInv(s)
    ensures LedgerInv(s.(config := config))
  {
    BooksUntouched(s, s.(config := config));
  }

  lemma RoundGrows(s: State, reconciler: Reconciler, o: Outcome)
    requires LedgerInv(s) && s.mailbox != []
    ensures var s' := Process(s, reconciler, o);
            && LedgerInv(s')
            && |s'.running.keys| <= Max(|s.running.keys|, s.config.maxConcurrentAgents)
            && (SteadyFuture(s) ==> SteadyFuture(s') && LiveRuntimeMs(s) <= LiveRuntimeMs(s'))
  {
    var popped := s.(mailbox := s.mailbox[1..]);
    var c := s.mailbox[0];
    QuietStep(s, popped);
    if c.ApplyConfig? {
      ReloadKeepsLedger(popped, c.config);
    } else {
      HandleGrows(popped, c, reconciler, o);
      GrowsTransitive(s, popped, Handle(popped, c, reconciler, o));
    }
  }

  lemma ActGrows(s: State, a: Action)
    requires LedgerInv(s)
    ensures var s' := Act(s, a);
            && LedgerInv(s')
            && |s'.running.keys| <= Max(|s.running.keys|, s.config.maxConcurrentAgents)
            && (SteadyAction(a) && SteadyFuture(s) ==> SteadyFuture(s') && LiveRuntimeMs(s) <= LiveRuntimeMs(s'))
  {
    match a
    case Outside(e) => OutsideGrows(s, e);
    case Round(reconciler, o) =>
      if s.mailbox != [] {
        RoundGrows(s, reconciler, o);
      }
  }

  lemma OutsideGrows(s: State, e: Event)
    requires LedgerInv(s)
    ensures var s' := Occur(s, e);
            && LedgerInv(s') && s'.running == s.running && s'.future == s.future
            && (Steady(e) ==> LiveRuntimeMs(s) <= LiveRuntimeMs(s'))
  {
    OccurGrows(s, e);
  }

  lemma {:induction false} RunGrows(s: State, actions: seq<Action>)
    requires LedgerInv(s)
    ensures LedgerInv(Run(s, actions))
    ensures SteadyFuture(s) && AllSteadyActions(actions) ==>
              LiveRuntimeMs(s) <= LiveRuntimeMs(Run(s, actions))
    decreases |actions|
  {
    if actions != [] {
      ActGrows(s, actions[0]);
      RunGrows(Act(s, actions[0]), actions[1..]);
    }
  }

  // ---- Main results ----

  /** Whatever the interleaving, each worker is running or was banked exactly once, and all totals balance. */
  lemma BooksBalance(config: Config, now: int, future: seq<seq<Event>>, actions: seq<Action>)
    ensures var s := Run(Initial(config, now, future), actions);
            BankedOnce(s) && TotalsBalance(s) && SessionsCovered(s)
  {
    assert LedgerInv(Initial(config, now, future));
    RunGrows(Initial(config, now, future), actions);
  }

  /** A worker's exit and a termination bank exactly the live time they end; aggregate runtime does not move. */
  lemma RuntimeConservedWhenARunEnds(s: State, id: IssueId, task: TaskId, normal: bool, retry: bool)
    requires LedgerInv(s)
    ensures LiveRuntimeMs(HandleWorkerExit(s, id, task, normal)) == LiveRuntimeMs(s)
    ensures LiveRuntimeMs(TerminateRunningIssue(s, id, false, retry)) == LiveRuntimeMs(s)
  {
    if id in s.running.m {
      ExitTakesNoTime(s, id, task, normal);
      TerminationTakesNoTime(s, id, retry);
    }
  }

  lemma ExitTakesNoTime(s: State, id: IssueId, task: TaskId, normal: bool)
    requires LedgerInv(s) && id in s.running.m
    ensures LiveRuntimeMs(HandleWorkerExit(s, id, task, normal)) == LiveRuntimeMs(s)
  {
    var entry, ended := s.running.m[id], EndRun(s, id);
    var done := ended.(completed := ended.completed + {id});
    EndRunConserves(s, id);
    LettingGoTakesNoTime(done, id, 1, entry.identifier, Some(CONTINUATION_DELAY_MS));
    LettingGoTakesNoTime(ended, id, NextAttempt(entry.retryAttempt), entry.identifier, None);
  }

  lemma TerminationTakesNoTime(s: State, id: IssueId, retry: bool)
    requires LedgerInv(s) && id in s.running.m
    ensures LiveRuntimeMs(TerminateRunningIssue(s, id, false, retry)) == LiveRuntimeMs(s)
  {
    var entry := s.running.m[id];
    var stopped := CancelTask(EndRun(s, id), entry.worker);
    EndRunConserves(s, id);
    LettingGoTakesNoTime(stopped, id, NextAttempt(entry.retryAttempt), entry.identifier, None);
  }

  lemma LettingGoTakesNoTime(s: State, id: IssueId, attempt: int, identifier: string, delayMs: Option<int>)
    ensures LiveRuntimeMs(ScheduleRetry(s, id, attempt, identifier, delayMs)) == LiveRuntimeMs(s)
    ensures LiveRuntimeMs(ReleaseClaim(s, id)) == LiveRuntimeMs(s)
  {
  }

  /** A new run starts with no elapsed time. */
  lemma RuntimeConservedAtDispatch(s: State, issue: Issue, attempt: Option<int>, spawns: bool)
    requires LedgerInv(s)
    ensures LiveRuntimeMs(DispatchIssue(s, issue, attempt, spawns)) == LiveRuntimeMs(s)
  {
    if issue.id !in s.running.m && spawns {
      SpawnConserves(s, issue, attempt);
    }
  }

  /** Under a clock that never steps back, aggregate runtime never decreases over any run. */
  lemma RuntimeNeverDecreases(s: State, actions: seq<Action>)
    requires LedgerInv(s) && SteadyFuture(s) && AllSteadyActions(actions)
    ensures LiveRuntimeMs(s) <= LiveRuntimeMs(Run(s, actions))
  {
    RunGrows(s, actions);
  }

  /** One command never grows the running map past the limit in force when it is handled. */
  lemma CommandRespectsGlobalLimit(s: State, c: Command, reconciler: Reconciler, o: Outcome)
    requires LedgerInv(s)
    ensures var s' := Handle(s, c, reconciler, o);
            |s'.running.keys| > |s.running.keys| ==> |s'.running.keys| <= s.config.maxConcurrentAgents
  {
    if !c.ApplyConfig? {
      HandleGrows(s, c, reconciler, o);
    }
  }

  /** As long as the configured limit stays at or below `bound`, so does the running map, in every state of the run. */
  lemma {:induction false} GlobalLimitHolds(s: State, actions: seq<Action>, bound: nat)
    requires LedgerInv(s) && |s.running.keys| <= bound
    requires forall i :: 0 <= i < |actions| ==> Run(s, actions[..i]).config.maxConcurrentAgents <= bound
    ensures |Run(s, actions).running.keys| <= bound
    decreases |actions|
  {
    if actions != [] {
      assert Run(s, actions[..0]) == s;
      ActGrows(s, actions[0]);
      forall i | 0 <= i < |actions[1..]|
        ensures Run(Act(s, actions[0]), actions[1..][..i]).config.maxConcurrentAgents <= bound {
        assert actions[..i + 1][1..] == actions[1..][..i];
        assert Run(s, actions[..i + 1]).config.maxConcurrentAgents <= bound;
      }
      GlobalLimitHolds(Act(s, actions[0]), actions[1..], bound);
    }
  }
}
