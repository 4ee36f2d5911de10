/** The records of src/symphony/models.py and the configuration the scheduler reads. */
module Models {
  import opened Options
  import opened Dicts
  import Tokens

  type IssueId = string
  type TaskId = nat
  type TimerId = nat

  datatype Issue = Issue(
    id: IssueId,
    identifier: string,
    title: string,
    state: string,
    dispatchable: bool,
    priority: Option<int>,
    createdAt: Option<int>,
    labels: set<string>)

  predicate IsBlank(c: char)
  {
    c in " \t\n\r" || c == 11 as char || c == 12 as char
  }

  function StripLeft(s: string): string
  {
    if s != "" && IsBlank(s[0]) then StripLeft(s[1..]) else s
  }

  function StripRight(s: string): string
  {
    if s != "" && IsBlank(s[|s| - 1]) then StripRight(s[..|s| - 1]) else s
  }

  function Strip(s: string): string { StripRight(StripLeft(s)) }

  function Lower(s: string): string
  {
    seq(|s|, i requires 0 <= i < |s| => if 'A' <= s[i] <= 'Z' then s[i] - 'A' + 'a' else s[i])
  }

  /** State and label names compare trimmed and in lower case. */
  function Normalize(s: string): string { Lower(Strip(s)) }

  datatype Config = Config(
    activeStates: set<string>,
    terminalStates: set<string>,
    requiredLabels: seq<string>,
    maxConcurrentAgents: int,
    maxConcurrentByState: map<string, int>,
    maxRetryBackoffMs: int,
    stallTimeoutMs: int)
  {
    predicate IsActive(state: string)
    {
      exists a :: a in activeStates && Normalize(a) == Normalize(state)
    }

    predicate IsTerminal(state: string)
    {
      exists t :: t in terminalStates && Normalize(t) == Normalize(state)
    }

    function SlotLimitForState(state: string): int
    {
      var key := Normalize(state);
      if key in maxConcurrentByState then maxConcurrentByState[key] else maxConcurrentAgents
    }
  }

  /** One row of the running map. */
  datatype RunningEntry = RunningEntry(
    issue: Issue,
    identifier: string,
    startedAt: int,
    worker: TaskId,
    session: Tokens.Session,
    lastActivity: Option<int>,
    retryAttempt: Option<int>)

  /** One queued retry. The due time is kept as the delay from the moment it was scheduled. */
  datatype RetryEntry = RetryEntry(identifier: string, attempt: int, delayMs: int, timer: TimerId)

  datatype ClaimState = Unclaimed | Claimed | Running | RetryQueued

  predicate HasLabels(issue: Issue, required: seq<string>)
  {
    forall i :: 0 <= i < |required| ==> Normalize(required[i]) != "" && Normalize(required[i]) in issue.labels
  }

  type RunningMap = Dict<IssueId, RunningEntry>
}
