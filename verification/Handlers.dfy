/** The mailbox handlers of src/symphony/orchestrator/core.py, and whole runs of the service. */
module Handlers {
  import opened Options
  import opened Models
  import opened Backoff
  import opened Scheduling
  import opened Machine
  import opened Reconcile
  import Tokens

  datatype Reconciler = Delegated | BuiltIn

  /** What the collaborators answer while one command is handled. None is a failed tracker call. */
  datatype Outcome = Outcome(
    valid: bool,
    candidates: Option<seq<Issue>>,
    refreshed: Option<seq<Issue>>,
    spawnFails: set<IssueId>)

  function ReconcileRunning(s: State, reconciler: Reconciler, refreshed: Option<seq<Issue>>): State
  {
    if reconciler == Delegated then ModuleReconcile(s, refreshed) else BuiltInReconcile(s, refreshed)
  }

  function Consider(s: State, issue: Issue, spawnFails: set<IssueId>): State
  {
    if issue.id in s.running.m || issue.id in s.claimed then s
    else if ShouldDispatch(issue, s.running, s.claimed, s.config) then
      DispatchIssue(s, issue, None, issue.id !in spawnFails)
    else s
  }

  function DispatchLoop(s: State, candidates: seq<Issue>, spawnFails: set<IssueId>): State
    decreases |candidates|
  {
    if candidates == [] || AvailableSlots(s.running, s.config) <= 0 then s
    else DispatchLoop(Consider(s, candidates[0], spawnFails), candidates[1..], spawnFails)
  }

  function RunTick(s: State, reconciler: Reconciler, o: Outcome): State
  {
    var reconciled := ReconcileRunning(s, reconciler, o.refreshed);
    if !o.valid then reconciled
    else
      var answered := Await(reconciled);
      if o.candidates.None? then answered
      else DispatchLoop(answered, SortForDispatch(o.candidates.value), o.spawnFails)
  }

  function HandleWorkerExit(s: State, id: IssueId, task: TaskId, normal: bool): State
  {
    if id !in s.running.m || s.running.m[id].worker != task then s
    else
      var entry := s.running.m[id];
      var ended := EndRun(s, id);
      if normal then
        ScheduleRetry(ended.(completed := ended.completed + {id}), id, 1, entry.identifier, Some(CONTINUATION_DELAY_MS))
      else ScheduleRetry(ended, id, NextAttempt(entry.retryAttempt), entry.identifier, None)
  }

  predicate RetryDispatchAllowed(s: State, issue: Issue)
  {
    && issue.id !in s.running.m
    && !s.config.IsTerminal(issue.state) && s.config.IsActive(issue.state)
    && IssueRoutable(issue, s.config)
  }

  predicate HasSlotFor(s: State, issue: Issue)
  {
    AvailableSlots(s.running, s.config) > 0 && HasStateSlot(issue, s.running, s.config)
  }

  function FindIssue(issues: seq<Issue>, id: IssueId): (r: Option<Issue>)
    ensures r.Some? ==> r.value.id == id
  {
    if issues == [] then None
    else if issues[0].id == id then Some(issues[0])
    else FindIssue(issues[1..], id)
  }

  /** The retry handler after its tracker call returned. */
  function FinishRetry(s: State, id: IssueId, entry: RetryEntry, o: Outcome): State
  {
    if o.refreshed.None? then ScheduleRetry(s, id, entry.attempt + 1, entry.identifier, None)
    else
      match FindIssue(o.refreshed.value, id)
      case None => ReleaseClaim(s, id)
      case Some(issue) => FinishFound(s, id, entry.attempt, issue, issue.id !in o.spawnFails)
  }

  function FinishFound(s: State, id: IssueId, attempt: int, issue: Issue, spawns: bool): State
  {
    if s.config.IsTerminal(issue.state) then ReleaseClaim(CleanupWorkspace(s, issue.identifier), id)
    else if !RetryDispatchAllowed(s, issue) then ReleaseClaim(s, id)
    else if !HasSlotFor(s, issue) then ScheduleRetry(s, id, attempt + 1, issue.identifier, None)
    else DispatchIssue(s, issue, Some(attempt), spawns)
  }

  function HandleRetryTimer(s: State, id: IssueId, o: Outcome): State
  {
    if id !in s.retries then s
    else FinishRetry(Await(CancelRetry(s, id)), id, s.retries[id], o)
  }

  function HandleAgentUpdate(s: State, id: IssueId, at: Option<int>, totals: Option<Tokens.Counts>): State
  {
    if id !in s.running.m then s
    else
      var entry := s.running.m[id];
      var seen := entry.(lastActivity := Some(if at.Some? then at.value else s.now));
      if totals.None? then s.(running := s.running.Put(id, seen))
      else
        s.(running := s.running.Put(id, seen.(session := Tokens.Credit(entry.session, totals.value))),
           totals := Tokens.Plus(s.totals, Tokens.TokenDelta(entry.session, totals.value)))
  }

  function Handle(s: State, c: Command, reconciler: Reconciler, o: Outcome): State
  {
    match c
    case Tick => RunTick(s, reconciler, o)
    case WorkerExit(id, task, normal) => HandleWorkerExit(s, id, task, normal)
    case RetryFired(id) => HandleRetryTimer(s, id, o)
    case AgentUpdate(id, at, totals) => HandleAgentUpdate(s, id, at, totals)
    case ApplyConfig(config) => s.(config := config)
  }

  /** One round of the mailbox loop. */
  function Process(s: State, reconciler: Reconciler, o: Outcome): State
  {
    if s.mailbox == [] then s else Handle(s.(mailbox := s.mailbox[1..]), s.mailbox[0], reconciler, o)
  }

  /** A run alternates, in any order, between the outside world and the mailbox loop. */
  datatype Action = Outside(event: Event) | Round(reconciler: Reconciler, outcome: Outcome)

  function Act(s: State, a: Action): State
  {
    match a
    case Outside(e) => Occur(s, e)
    case Round(reconciler, o) => Process(s, reconciler, o)
  }

  function Run(s: State, actions: seq<Action>): State
    decreases |actions|
  {
    if actions == [] then s else Run(Act(s, actions[0]), actions[1..])
  }
}
