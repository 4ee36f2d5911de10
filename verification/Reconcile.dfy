/**
  Active-run reconciliation, twice: the plan-then-execute reconciler of
  src/symphony/orchestrator/reconcile.py, and the loop built into the orchestrator.
 */
module Reconcile {
  import opened Options
  import opened Models
  import opened Backoff
  import opened Scheduling
  import opened Machine

  function IdsOf(issues: seq<Issue>): set<IssueId>
  {
    set i | i in issues :: i.id
  }

  predicate DistinctIds(issues: seq<Issue>)
  {
    forall i, j :: 0 <= i < j < |issues| ==> issues[i].id != issues[j].id
  }

  // ---- Stalled runs ----

  function SilenceMs(e: RunningEntry, now: int): int
  {
    now - if e.lastActivity.Some? then e.lastActivity.value else e.startedAt
  }

  predicate Stalled(s: State, id: IssueId)
  {
    id in s.running.m && SilenceMs(s.running.m[id], s.now) > s.config.stallTimeoutMs
  }

  datatype StallDecision = StallDecision(id: IssueId, identifier: string, attempt: int)

  function PlanStalls(s: State, keys: seq<IssueId>): seq<StallDecision>
  {
    if keys == [] then []
    else (if Stalled(s, keys[0])
          then [StallDecision(keys[0], s.running.m[keys[0]].identifier, NextAttempt(s.running.m[keys[0]].retryAttempt))]
          else []) + PlanStalls(s, keys[1..])
  }

  function PlanStallTerminations(s: State): seq<StallDecision>
  {
    if s.config.stallTimeoutMs <= 0 then [] else PlanStalls(s, s.running.keys)
  }

  function ExecuteStalls(s: State, plan: seq<StallDecision>): State
    decreases |plan|
  {
    if plan == [] then s
    else
      var d := plan[0];
      var next := if d.id !in s.running.m then s
                  else ScheduleRetry(TerminateRunningIssue(s, d.id, false, false), d.id, d.attempt, d.identifier, None);
      ExecuteStalls(next, plan[1..])
  }

  function StalledIds(s: State, keys: seq<IssueId>): seq<IssueId>
  {
    if keys == [] then []
    else (if Stalled(s, keys[0]) then [keys[0]] else []) + StalledIds(s, keys[1..])
  }

  function TerminateStalled(s: State, ids: seq<IssueId>): State
    decreases |ids|
  {
    if ids == [] then s else TerminateStalled(TerminateRunningIssue(s, ids[0], false, true), ids[1..])
  }

  function BuiltInStalls(s: State): State
  {
    if s.config.stallTimeoutMs <= 0 then s else TerminateStalled(s, StalledIds(s, s.running.keys))
  }

  // ---- Tracker refresh ----

  datatype ReconcileAction = UpdateSnapshot | TerminateAndClean | TerminateNoCleanup

  function Classify(issue: Issue, cfg: Config): ReconcileAction
  {
    if cfg.IsTerminal(issue.state) then TerminateAndClean
    else if cfg.IsActive(issue.state) && IssueRoutable(issue, cfg) then UpdateSnapshot
    else TerminateNoCleanup
  }

  datatype ReconcileDecision = ReconcileDecision(id: IssueId, action: ReconcileAction, issue: Option<Issue>)

  function PlanReturned(ids: set<IssueId>, returned: set<IssueId>, refreshed: seq<Issue>, cfg: Config)
    : (plan: seq<ReconcileDecision>)
    ensures forall d :: d in plan && d.issue.Some? ==> d.issue.value.id == d.id
    decreases |refreshed|
  {
    if refreshed == [] then []
    else
      var issue := refreshed[0];
      if issue.id !in ids || issue.id in returned then PlanReturned(ids, returned, refreshed[1..], cfg)
      else [ReconcileDecision(issue.id, Classify(issue, cfg), Some(issue))]
           + PlanReturned(ids, returned + {issue.id}, refreshed[1..], cfg)
  }

  function PlanMissing(keys: seq<IssueId>, returned: set<IssueId>): (plan: seq<ReconcileDecision>)
    ensures forall d :: d in plan ==> d.issue.None?
  {
    if keys == [] then []
    else (if keys[0] in returned then [] else [ReconcileDecision(keys[0], TerminateNoCleanup, None)])
         + PlanMissing(keys[1..], returned)
  }

  /** `keys` are the keys of a dictionary, hence already distinct. */
  function PlanReconciliation(keys: seq<IssueId>, refreshed: seq<Issue>, cfg: Config): seq<ReconcileDecision>
  {
    PlanReturned(set k | k in keys, {}, refreshed, cfg) + PlanMissing(keys, IdsOf(refreshed))
  }

  function ExecuteDecision(s: State, d: ReconcileDecision): State
  {
    if d.id !in s.running.m then s
    else if d.action == UpdateSnapshot then (if d.issue.Some? then SetSnapshot(s, d.id, d.issue.value) else s)
    else TerminateRunningIssue(s, d.id, d.action == TerminateAndClean, false)
  }

  function Execute(s: State, plan: seq<ReconcileDecision>): State
    decreases |plan|
  {
    if plan == [] then s else Execute(ExecuteDecision(s, plan[0]), plan[1..])
  }

  function ModuleReconcile(s: State, refreshed: Option<seq<Issue>>): State
  {
    var quiet := ExecuteStalls(s, PlanStallTerminations(s));
    var keys := quiet.running.keys;
    if keys == [] then quiet
    else
      var answered := Await(quiet);
      if refreshed.None? then answered
      else Execute(answered, PlanReconciliation(keys, refreshed.value, s.config))
  }

  function ApplyRefreshed(s: State, issue: Issue): State
  {
    if issue.id !in s.running.m then s
    else if s.config.IsTerminal(issue.state) then TerminateRunningIssue(s, issue.id, true, false)
    else if s.config.IsActive(issue.state) && IssueRoutable(issue, s.config) then SetSnapshot(s, issue.id, issue)
    else TerminateRunningIssue(s, issue.id, false, false)
  }

  function ApplyAll(s: State, refreshed: seq<Issue>): State
    decreases |refreshed|
  {
    if refreshed == [] then s else ApplyAll(ApplyRefreshed(s, refreshed[0]), refreshed[1..])
  }

  function TerminateMissing(s: State, keys: seq<IssueId>, returned: set<IssueId>): State
    decreases |keys|
  {
    if keys == [] then s
    else
      var next := if keys[0] in returned then s else TerminateRunningIssue(s, keys[0], false, false);
      TerminateMissing(next, keys[1..], returned)
  }

  function BuiltInReconcile(s: State, refreshed: Option<seq<Issue>>): State
  {
    var quiet := BuiltInStalls(s);
    var keys := quiet.running.keys;
    if keys == [] then quiet
    else
      var answered := Await(quiet);
      if refreshed.None? then answered
      else TerminateMissing(ApplyAll(answered, refreshed.value), keys, IdsOf(refreshed.value))
  }
}
