/**
  The `Orchestrator` object of src/symphony/orchestrator/core.py: its fields are updated in place by handlers
  that suspend. Each method is proved equal to the step function of the same name.
 */
module Orchestration {
  import opened Numbers
  import opened Options
  import opened Dicts
  import opened Models
  import opened Backoff
  import opened Scheduling
  import M = Machine
  import R = Reconcile
  import H = Handlers
  import L = Ledger
  import Tokens

  class Orchestrator {
    var config: Config
    var running: RunningMap
    var claimed: set<IssueId>
    var retryAttempts: map<IssueId, RetryEntry>
    var completed: set<IssueId>
    var secondsRunningMs: int
    var totals: Tokens.Counts
    var mailbox: seq<M.Command>
    // The event loop the object lives on, and the two histories.
    var tasks: seq<M.Task>
    var timers: seq<M.Timer>
    var now: int
    var cleanups: seq<string>
    var ended: seq<M.Banked>
    var future: seq<seq<M.Event>>

    ghost function Now(): M.State
      reads this
    {
      M.State(config, running, claimed, retryAttempts, completed, secondsRunningMs, totals, mailbox,
              tasks, timers, now, cleanups, ended, future)
    }

    constructor (config: Config, now: int, future: seq<seq<M.Event>>)
      ensures Now() == M.Initial(config, now, future)
    {
      this.config := config;
      running := Dict([], map[]);
      claimed := {};
      retryAttempts := map[];
      completed := {};
      secondsRunningMs := 0;
      totals := Tokens.ZERO;
      mailbox := [];
      tasks := [];
      timers := [];
      this.now := now;
      cleanups := [];
      ended := [];
      this.future := future;
    }

    // ---- The outside world ----

    method Occur(e: M.Event)
      modifies this
      ensures Now() == M.Occur(old(Now()), e)
    {
      match e
      case WorkerFinishes(t, normal) =>
        if t < |tasks| && !tasks[t].done {
          mailbox := mailbox + [M.WorkerExit(tasks[t].issue, t, normal)];
          tasks := tasks[t := tasks[t].(done := true)];
        }
      case TimerFires(tm) =>
        if tm < |timers| && timers[tm].status == M.Armed {
          mailbox := mailbox + [M.RetryFired(timers[tm].issue)];
          timers := timers[tm := timers[tm].(status := M.Fired)];
        }
      case TickRequested => mailbox := mailbox + [M.Tick];
      case AgentReports(id, at, counts) => mailbox := mailbox + [M.AgentUpdate(id, at, counts)];
      case ConfigReloads(reloaded) => mailbox := mailbox + [M.ApplyConfig(reloaded)];
      case ClockMoves(ms) => now := now + ms;
    }

    method Await()
      modifies this
      ensures Now() == M.Await(old(Now()))
    {
      if future != [] {
        var events := future[0];
        future := future[1..];
        ghost var start := Now();
        for i := 0 to |events|
          invariant M.OccurAll(start, events) == M.OccurAll(Now(), events[i..])
        {
          Occur(events[i]);
        }
      }
    }

    // ---- Retry entries and claims ----

    method CancelRetry(id: IssueId)
      modifies this
      ensures Now() == M.CancelRetry(old(Now()), id)
    {
      if id in retryAttempts {
        var entry := retryAttempts[id];
        retryAttempts := retryAttempts - {id};
        timers := M.CancelTimer(timers, entry.timer);
      }
    }

    method ScheduleRetry(id: IssueId, attempt: int, identifier: string, delayMs: Option<int>)
      modifies this
      ensures Now() == M.ScheduleRetry(old(Now()), id, attempt, identifier, delayMs)
    {
      CancelRetry(id);
      var delay := if delayMs.Some? then delayMs.value else BackoffDelayMs(attempt, config.maxRetryBackoffMs);
      delay := Max(delay, 0);
      var handle := |timers|;
      timers := timers + [M.Timer(id, M.Armed)];
      retryAttempts := retryAttempts[id := RetryEntry(identifier, attempt, delay, handle)];
      claimed := claimed + {id};
    }

    method ReleaseClaim(id: IssueId)
      modifies this
      ensures Now() == M.ReleaseClaim(old(Now()), id)
    {
      claimed := claimed - {id};
      CancelRetry(id);
    }

    // ---- Runs ----

    method DispatchIssue(issue: Issue, attempt: Option<int>, spawns: bool)
      modifies this
      ensures Now() == M.DispatchIssue(old(Now()), issue, attempt, spawns)
    {
      if issue.id in running.m {
        return;
      }
      if !spawns {
        ScheduleRetry(issue.id, NextAttempt(attempt), issue.identifier, None);
        return;
      }
      var worker := |tasks|;
      tasks := tasks + [M.Task(issue.id, false, false)];
      running := running.Put(issue.id, RunningEntry(issue, issue.identifier, now, worker, Tokens.FRESH, None,
                                                    M.NormalizeAttempt(attempt)));
      claimed := claimed + {issue.id};
      CancelRetry(issue.id);
    }

    method EndRun(id: IssueId) returns (entry: RunningEntry)
      requires id in running.m
      modifies this
      ensures entry == old(running.m[id])
      ensures Now() == M.EndRun(old(Now()), id)
    {
      entry := running.m[id];
      running := running.Remove(id);
      secondsRunningMs := secondsRunningMs + M.Elapsed(entry, now);
      ended := ended + [M.Banked(entry.worker, M.Elapsed(entry, now), entry.session.credited)];
    }

    method CleanupWorkspace(identifier: string)
      modifies this
      ensures Now() == M.CleanupWorkspace(old(Now()), identifier)
    {
      if identifier != "" {
        cleanups := cleanups + [identifier];
        Await();
      }
    }

    method TerminateRunningIssue(id: IssueId, cleanup: bool, retry: bool)
      modifies this
      ensures Now() == M.TerminateRunningIssue(old(Now()), id, cleanup, retry)
    {
      if id !in running.m {
        return;
      }
      var entry := EndRun(id);
      if entry.worker < |tasks| {
        tasks := tasks[entry.worker := tasks[entry.worker].(cancelled := true)];
      }
      if cleanup {
        CleanupWorkspace(entry.identifier);
      }
      if retry {
        ScheduleRetry(id, NextAttempt(entry.retryAttempt), entry.identifier, None);
      } else {
        ReleaseClaim(id);
      }
    }

    method HandleWorkerExit(id: IssueId, task: TaskId, normal: bool)
      modifies this
      ensures Now() == H.HandleWorkerExit(old(Now()), id, task, normal)
    {
      if id !in running.m || running.m[id].worker != task {
        return;
      }
      var entry := EndRun(id);
      if normal {
        completed := completed + {id};
        ScheduleRetry(id, 1, entry.identifier, Some(CONTINUATION_DELAY_MS));
      } else {
        ScheduleRetry(id, NextAttempt(entry.retryAttempt), entry.identifier, None);
      }
    }

    method HandleRetryTimer(id: IssueId, o: H.Outcome)
      modifies this
      ensures Now() == H.HandleRetryTimer(old(Now()), id, o)
    {
      if id !in retryAttempts {
        return;
      }
      var entry := retryAttempts[id];
      CancelRetry(id);
      Await();
      if o.refreshed.None? {
        ScheduleRetry(id, entry.attempt + 1, entry.identifier, None);
        return;
      }
      var found := H.FindIssue(o.refreshed.value, id);
      if found.None? {
        ReleaseClaim(id);
        return;
      }
      var issue := found.value;
      if config.IsTerminal(issue.state) {
        CleanupWorkspace(issue.identifier);
        ReleaseClaim(id);
      } else if issue.id in running.m || !config.IsActive(issue.state) || !IssueRoutable(issue, config) {
        ReleaseClaim(id);
      } else if AvailableSlots(running, config) <= 0 || !HasStateSlot(issue, running, config) {
        ScheduleRetry(id, entry.attempt + 1, issue.identifier, None);
      } else {
        DispatchIssue(issue, Some(entry.attempt), issue.id !in o.spawnFails);
      }
    }

    /** The inline copy of the token arithmetic; `Tokens.ApplyTokenTotals` is the original. */
    method HandleAgentUpdate(id: IssueId, at: Option<int>, reported: Option<Tokens.Counts>)
      modifies this
      ensures Now() == H.HandleAgentUpdate(old(Now()), id, at, reported)
    {
      if id !in running.m {
        return;
      }
      var entry := running.m[id];
      var session := entry.session;
      if reported.Some? {
        var absolute, last := reported.value, session.lastReported;
        var deltaIn := Max(absolute.input - last.input, 0);
        var deltaOut := Max(absolute.output - last.output, 0);
        var deltaTotal := Max(absolute.total - last.total, 0);
        session := Tokens.Session(
          Tokens.Counts(session.credited.input + deltaIn, session.credited.output + deltaOut,
                        session.credited.total + deltaTotal),
          absolute);
        totals := Tokens.Counts(totals.input + deltaIn, totals.output + deltaOut, totals.total + deltaTotal);
      }
      running := running.Put(id, entry.(lastActivity := Some(if at.Some? then at.value else now), session := session));
    }

    // ---- The built-in reconciler ----

    method FindStalled() returns (stalled: seq<IssueId>)
      ensures stalled == R.StalledIds(Now(), running.keys)
    {
      stalled := [];
      for i := 0 to |running.keys|
        invariant R.StalledIds(Now(), running.keys) == stalled + R.StalledIds(Now(), running.keys[i..])
      {
        StalledStep(Now(), running.keys, i, stalled);
        if running.keys[i] in running.m && R.SilenceMs(running.m[running.keys[i]], now) > config.stallTimeoutMs {
          stalled := stalled + [running.keys[i]];
        }
      }
    }

    method ReconcileStalledRuns()
      modifies this
      ensures Now() == R.BuiltInStalls(old(Now()))
    {
      if config.stallTimeoutMs <= 0 {
        return;
      }
      var stalled := FindStalled();
      ghost var start := Now();
      for i := 0 to |stalled|
        invariant R.TerminateStalled(start, stalled) == R.TerminateStalled(Now(), stalled[i..])
      {
        assert stalled[i..][1..] == stalled[i + 1..];
        TerminateRunningIssue(stalled[i], false, true);
      }
    }

    method ReconcileBuiltIn(refreshed: Option<seq<Issue>>)
      modifies this
      ensures Now() == R.BuiltInReconcile(old(Now()), refreshed)
    {
      ReconcileStalledRuns();
      var runningIds := running.keys;
      if runningIds == [] {
        return;
      }
      Await();
      if refreshed.None? {
        return;
      }
      ghost var start := Now();
      var issues := refreshed.value;
      for i := 0 to |issues|
        invariant R.ApplyAll(start, issues) == R.ApplyAll(Now(), issues[i..])
      {
        assert issues[i..][1..] == issues[i + 1..];
        var issue := issues[i];
        if issue.id in running.m {
          if config.IsTerminal(issue.state) {
            TerminateRunningIssue(issue.id, true, false);
          } else if config.IsActive(issue.state) && IssueRoutable(issue, config) {
            running := running.Put(issue.id, running.m[issue.id].(issue := issue));
          } else {
            TerminateRunningIssue(issue.id, false, false);
          }
        }
      }
      ghost var applied := Now();
      var returned := R.IdsOf(issues);
      for i := 0 to |runningIds|
        invariant R.TerminateMissing(applied, runningIds, returned)
               == R.TerminateMissing(Now(), runningIds[i..], returned)
      {
        assert runningIds[i..][1..] == runningIds[i + 1..];
        if runningIds[i] !in returned {
          TerminateRunningIssue(runningIds[i], false, false);
        }
      }
    }

    // ---- The reconciler module ----

    method PlanStallTerminations() returns (decisions: seq<R.StallDecision>)
      ensures decisions == R.PlanStallTerminations(Now())
    {
      decisions := [];
      if config.stallTimeoutMs <= 0 {
        return;
      }
      var keys := running.keys;
      for i := 0 to |keys|
        invariant R.PlanStalls(Now(), keys) == decisions + R.PlanStalls(Now(), keys[i..])
      {
        PlanStep(Now(), keys, i, decisions);
        if keys[i] in running.m {
          var entry := running.m[keys[i]];
          if R.SilenceMs(entry, now) > config.stallTimeoutMs {
            decisions := decisions + [R.StallDecision(keys[i], entry.identifier, NextAttempt(entry.retryAttempt))];
          }
        }
      }
    }

    method ReconcileWithModule(refreshed: Option<seq<Issue>>)
      modifies this
      ensures Now() == R.ModuleReconcile(old(Now()), refreshed)
    {
      ghost var start := Now();
      var stalls := PlanStallTerminations();
      ExecuteStalls(stalls);
      ExecuteStallsConfig(start, stalls);
      var runningIds := running.keys;
      if runningIds == [] {
        return;
      }
      ghost var quiet := Now();
      Await();
      AwaitConfig(quiet);
      if refreshed.None? {
        return;
      }
      var plan := PlanReconciliation(runningIds, refreshed.value, config);
      Execute(plan);
    }

    /** The loop of `reconcile_stalled_runs` over its plan. */
    method ExecuteStalls(stalls: seq<R.StallDecision>)
      modifies this
      ensures Now() == R.ExecuteStalls(old(Now()), stalls)
    {
      ghost var start := Now();
      for i := 0 to |stalls|
        invariant R.ExecuteStalls(start, stalls) == R.ExecuteStalls(Now(), stalls[i..])
      {
        assert stalls[i..][1..] == stalls[i + 1..];
        if stalls[i].id in running.m {
          TerminateRunningIssue(stalls[i].id, false, false);
          ScheduleRetry(stalls[i].id, stalls[i].attempt, stalls[i].identifier, None);
        }
      }
    }

    /** The loop of `reconcile_running_issues` over its plan. */
    method Execute(plan: seq<R.ReconcileDecision>)
      modifies this
      ensures Now() == R.Execute(old(Now()), plan)
    {
      ghost var answered := Now();
      for i := 0 to |plan|
        invariant R.Execute(answered, plan) == R.Execute(Now(), plan[i..])
      {
        assert plan[i..][1..] == plan[i + 1..];
        var d := plan[i];
        if d.id in running.m {
          if d.action != R.UpdateSnapshot {
            TerminateRunningIssue(d.id, d.action == R.TerminateAndClean, false);
          } else if d.issue.Some? {
            running := running.Put(d.id, running.m[d.id].(issue := d.issue.value));
          }
        }
      }
    }

    // ---- The tick ----

    method RunTick(reconciler: H.Reconciler, o: H.Outcome)
      modifies this
      ensures Now() == H.RunTick(old(Now()), reconciler, o)
    {
      if reconciler == H.Delegated {
        ReconcileWithModule(o.refreshed);
      } else {
        ReconcileBuiltIn(o.refreshed);
      }
      if !o.valid {
        return;
      }
      Await();
      if o.candidates.None? {
        return;
      }
      ghost var start := Now();
      var candidates := SortForDispatch(o.candidates.value);
      var i := 0;
      while i < |candidates|
        invariant 0 <= i <= |candidates|
        invariant H.DispatchLoop(start, candidates, o.spawnFails)
               == H.DispatchLoop(Now(), candidates[i..], o.spawnFails)
      {
        assert candidates[i..][1..] == candidates[i + 1..];
        if AvailableSlots(running, config) <= 0 {
          break;
        }
        var issue := candidates[i];
        i := i + 1;
        if issue.id in running.m || issue.id in claimed {
          continue;
        }
        if ShouldDispatch(issue, running, claimed, config) {
          DispatchIssue(issue, None, issue.id !in o.spawnFails);
        }
      }
    }

    // ---- The mailbox loop ----

    method Process(reconciler: H.Reconciler, o: H.Outcome)
      modifies this
      ensures Now() == H.Process(old(Now()), reconciler, o)
    {
      if mailbox == [] {
        return;
      }
      var command := mailbox[0];
      mailbox := mailbox[1..];
      match command
      case Tick => RunTick(reconciler, o);
      case WorkerExit(id, task, normal) => HandleWorkerExit(id, task, normal);
      case RetryFired(id) => HandleRetryTimer(id, o);
      case AgentUpdate(id, at, reported) => HandleAgentUpdate(id, at, reported);
      case ApplyConfig(reloaded) => config := reloaded;
    }

    /** `live_seconds_running` of src/symphony/observability/snapshot.py, in milliseconds. */
    method LiveRuntimeMs() returns (total: int)
      requires running.Valid()
      ensures total == L.LiveRuntimeMs(Now())
    {
      total := secondsRunningMs;
      var keys := running.keys;
      for i := 0 to |keys|
        invariant total + SumKeys(keys[i..], running.m, L.ElapsedAt(now)) == L.LiveRuntimeMs(Now())
      {
        assert keys[i] in keys;
        assert keys[i..][1..] == keys[i + 1..];
        total := total + M.Elapsed(running.m[keys[i]], now);
      }
    }
  }

  /** The first loop of `plan_reconciliation`. */
  method PlanReturned(known: set<IssueId>, refreshed: seq<Issue>, cfg: Config)
    returns (decisions: seq<R.ReconcileDecision>, returned: set<IssueId>)
    ensures decisions == R.PlanReturned(known, {}, refreshed, cfg)
    ensures returned == R.IdsOf(refreshed) * known
  {
    returned := {};
    decisions := [];
    for i := 0 to |refreshed|
      invariant R.PlanReturned(known, {}, refreshed, cfg)
             == decisions + R.PlanReturned(known, returned, refreshed[i..], cfg)
      invariant returned == R.IdsOf(refreshed[..i]) * known
    {
      assert refreshed[i..][1..] == refreshed[i + 1..];
      assert refreshed[..i + 1] == refreshed[..i] + [refreshed[i]];
      assert R.IdsOf(refreshed[..i + 1]) == R.IdsOf(refreshed[..i]) + {refreshed[i].id};
      if refreshed[i].id in known && refreshed[i].id !in returned {
        var decision := R.ReconcileDecision(refreshed[i].id, R.Classify(refreshed[i], cfg), Some(refreshed[i]));
        returned := returned + {refreshed[i].id};
        OneMore(decisions, decision, R.PlanReturned(known, returned, refreshed[i + 1..], cfg));
        decisions := decisions + [decision];
      }
    }
    assert refreshed[..|refreshed|] == refreshed;
  }

  /** Its second loop. */
  method PlanMissing(known: seq<IssueId>, returned: set<IssueId>) returns (decisions: seq<R.ReconcileDecision>)
    ensures decisions == R.PlanMissing(known, returned)
  {
    decisions := [];
    for i := 0 to |known|
      invariant R.PlanMissing(known, returned) == decisions + R.PlanMissing(known[i..], returned)
    {
      MissingStep(known, i, returned, decisions);
      if known[i] !in returned {
        decisions := decisions + [R.ReconcileDecision(known[i], R.TerminateNoCleanup, None)];
      }
    }
  }

  method PlanReconciliation(runningIds: seq<IssueId>, refreshed: seq<Issue>, cfg: Config)
    returns (decisions: seq<R.ReconcileDecision>)
    ensures decisions == R.PlanReconciliation(runningIds, refreshed, cfg)
  {
    var planned, returned := PlanReturned((set k | k in runningIds), refreshed, cfg);
    var missing := PlanMissing(runningIds, returned);
    MissingIgnoresUnknown(runningIds, returned, R.IdsOf(refreshed));
    decisions := planned + missing;
  }

  lemma StalledStep(s: M.State, keys: seq<IssueId>, i: nat, stalled: seq<IssueId>)
    requires i < |keys|
    ensures stalled + R.StalledIds(s, keys[i..])
         == (if R.Stalled(s, keys[i]) then stalled + [keys[i]] else stalled) + R.StalledIds(s, keys[i + 1..])
  {
    assert keys[i..][1..] == keys[i + 1..];
    OneMore(stalled, keys[i], R.StalledIds(s, keys[i + 1..]));
  }

  lemma PlanStep(s: M.State, keys: seq<IssueId>, i: nat, decisions: seq<R.StallDecision>)
    requires i < |keys|
    ensures decisions + R.PlanStalls(s, keys[i..])
         == (if !R.Stalled(s, keys[i]) then decisions
             else
               var entry := s.running.m[keys[i]];
               decisions + [R.StallDecision(keys[i], entry.identifier, NextAttempt(entry.retryAttempt))])
            + R.PlanStalls(s, keys[i + 1..])
  {
    assert keys[i..][1..] == keys[i + 1..];
    if R.Stalled(s, keys[i]) {
      var entry := s.running.m[keys[i]];
      OneMore(decisions, R.StallDecision(keys[i], entry.identifier, NextAttempt(entry.retryAttempt)),
              R.PlanStalls(s, keys[i + 1..]));
    }
  }

  lemma MissingStep(known: seq<IssueId>, i: nat, returned: set<IssueId>, decisions: seq<R.ReconcileDecision>)
    requires i < |known|
    ensures decisions + R.PlanMissing(known[i..], returned)
         == (if known[i] in returned then decisions
             else decisions + [R.ReconcileDecision(known[i], R.TerminateNoCleanup, None)])
            + R.PlanMissing(known[i + 1..], returned)
  {
    assert known[i..][1..] == known[i + 1..];
    OneMore(decisions, R.ReconcileDecision(known[i], R.TerminateNoCleanup, None),
            R.PlanMissing(known[i + 1..], returned));
  }

  lemma OneMore<T>(done: seq<T>, next: T, later: seq<T>)
    ensures done + ([next] + later) == (done + [next]) + later
  {
  }

  lemma {:induction false} MissingIgnoresUnknown(keys: seq<IssueId>, a: set<IssueId>, b: set<IssueId>)
    requires forall k :: k in keys ==> (k in a <==> k in b)
    ensures R.PlanMissing(keys, a) == R.PlanMissing(keys, b)
  {
    if keys != [] {
      MissingIgnoresUnknown(keys[1..], a, b);
    }
  }

  lemma {:induction false} OccurAllConfig(s: M.State, events: seq<M.Event>)
    ensures M.OccurAll(s, events).config == s.config
    decreases |events|
  {
    if events != [] {
      OccurAllConfig(M.Occur(s, events[0]), events[1..]);
    }
  }

  lemma AwaitConfig(s: M.State)
    ensures M.Await(s).config == s.config
  {
    if s.future != [] {
      OccurAllConfig(s.(future := s.future[1..]), s.future[0]);
    }
  }

  lemma {:induction false} ExecuteStallsConfig(s: M.State, plan: seq<R.StallDecision>)
    ensures R.ExecuteStalls(s, plan).config == s.config
    decreases |plan|
  {
    if plan != [] {
      var d := plan[0];
      ExecuteStallsConfig(
        if d.id !in s.running.m then s
        else M.ScheduleRetry(M.TerminateRunningIssue(s, d.id, false, false), d.id, d.attempt, d.identifier, None),
        plan[1..]);
    }
  }
}
