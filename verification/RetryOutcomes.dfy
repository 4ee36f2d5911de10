/** What a fired retry leads to, for every answer of the tracker (src/symphony/orchestrator/core.py). */
module RetryOutcomes {
  import opened Numbers
  import opened Options
  import opened Models
  import opened Backoff
  import opened Scheduling
  import opened Machine
  import opened Handlers
  import opened Reachability
  import opened RetryLadder
  import opened ReconcileEffects
  import Tokens

  /** Waiting for `attempt`, with the documented delay and an armed timer. */
  ghost predicate Queued(s: State, id: IssueId, attempt: int, identifier: string)
  {
    && id in s.claimed && id in s.retries && id !in s.running.m
    && s.retries[id].attempt == attempt && s.retries[id].identifier == identifier && attempt >= 1
    && s.retries[id].delayMs == Max(0, Min(10_000 * Pow2(attempt - 1), s.config.maxRetryBackoffMs))
    && s.retries[id].timer < |s.timers| && s.timers[s.retries[id].timer] == Timer(id, Armed)
  }

  ghost predicate Released(s: State, id: IssueId)
  {
    id !in s.claimed && id !in s.retries && id !in s.running.m
  }

  ghost predicate Runs(t: State, s: State, id: IssueId, issue: Issue, attempt: int)
  {
    && id in s.running.m && id in s.claimed && id !in s.retries
    && s.running.m[id]
       == RunningEntry(issue, issue.identifier, t.now, s.running.m[id].worker, Tokens.FRESH, None, Some(attempt))
    && |t.tasks| <= s.running.m[id].worker < |s.tasks| && s.tasks[s.running.m[id].worker] == Task(id, false, false)
  }

  predicate FirstWithId(refreshed: seq<Issue>, id: IssueId, k: nat)
  {
    k < |refreshed| && refreshed[k].id == id && forall j :: 0 <= j < k ==> refreshed[j].id != id
  }

  predicate NoRoom(t: State, issue: Issue)
  {
    || |t.running.keys| >= t.config.maxConcurrentAgents
    || RunningCountForState(t.running, issue.state) >= t.config.SlotLimitForState(issue.state)
  }

  ghost predicate LeftAlone(t: State, s: State, id: IssueId)
  {
    && (id in s.running.m <==> id in t.running.m)
    && (id in t.running.m ==> s.running.m[id] == t.running.m[id])
    && SameClaim(t, s, id)
  }

  /** The table; `t` is the state in which the answer arrives, `fired` the entry that fired. */
  ghost predicate Outcomes(t: State, s: State, id: IssueId, fired: RetryEntry, o: Outcome)
  {
    && s.config == t.config
    && (forall k :: k != id ==> LeftAlone(t, s, k))
    && match o.refreshed
       case None => Queued(s, id, fired.attempt + 1, fired.identifier) && s.cleanups == t.cleanups
       case Some(refreshed) =>
         && ((forall j :: 0 <= j < |refreshed| ==> refreshed[j].id != id) ==>
               Released(s, id) && s.cleanups == t.cleanups)
         && (forall k: nat :: FirstWithId(refreshed, id, k) ==>
               FoundOutcome(t, s, id, fired.attempt, refreshed[k], o.spawnFails))
  }

  ghost predicate FoundOutcome(t: State, s: State, id: IssueId, attempt: int, issue: Issue, spawnFails: set<IssueId>)
  {
    if t.config.IsTerminal(issue.state) then
      Released(s, id) && s.cleanups == t.cleanups + if issue.identifier != "" then [issue.identifier] else []
    else
      && s.cleanups == t.cleanups
      && if !t.config.IsActive(issue.state) || !issue.dispatchable || !HasLabels(issue, t.config.requiredLabels) then
           Released(s, id)
         else if NoRoom(t, issue) || id in spawnFails then Queued(s, id, attempt + 1, issue.identifier)
         else Runs(t, s, id, issue, attempt)
  }

  lemma RequeuedIsQueued(t: State, id: IssueId, attempt: int, identifier: string)
    requires id !in t.running.m && attempt >= 1
    ensures Queued(ScheduleRetry(t, id, attempt, identifier, None), id, attempt, identifier)
  {
    BackoffIsDocumentedFormula(attempt, t.config.maxRetryBackoffMs);
  }

  lemma FoundIsSettled(t: State, id: IssueId, attempt: int, issue: Issue, spawnFails: set<IssueId>)
    requires id !in t.running.m && issue.id == id && attempt >= 1
    ensures var s := FinishFound(t, id, attempt, issue, id !in spawnFails);
            s.config == t.config && FoundOutcome(t, s, id, attempt, issue, spawnFails)
  {
    RequeuedIsQueued(t, id, attempt + 1, issue.identifier);
    CleanupEffects(t, issue.identifier);
  }

  lemma RequeueKeepsOthers(t: State, id: IssueId, attempt: int, identifier: string, k: IssueId)
    requires k != id
    ensures LeftAlone(t, ScheduleRetry(t, id, attempt, identifier, None), k)
  {
  }

  lemma ReleaseKeepsOthers(t: State, id: IssueId, identifier: string, k: IssueId)
    requires k != id
    ensures LeftAlone(t, ReleaseClaim(t, id), k)
    ensures LeftAlone(t, ReleaseClaim(CleanupWorkspace(t, identifier), id), k)
  {
    CleanupEffects(t, identifier);
  }

  lemma DispatchKeepsOthers(t: State, issue: Issue, attempt: Option<int>, spawns: bool, k: IssueId)
    requires k != issue.id
    ensures LeftAlone(t, DispatchIssue(t, issue, attempt, spawns), k)
  {
    RequeueKeepsOthers(t, issue.id, NextAttempt(attempt), issue.identifier, k);
  }

  lemma FoundKeepsOthers(t: State, id: IssueId, attempt: int, issue: Issue, spawns: bool, k: IssueId)
    requires issue.id == id && k != id
    ensures LeftAlone(t, FinishFound(t, id, attempt, issue, spawns), k)
  {
    RequeueKeepsOthers(t, id, attempt + 1, issue.identifier, k);
    ReleaseKeepsOthers(t, id, issue.identifier, k);
    DispatchKeepsOthers(t, issue, Some(attempt), spawns, k);
  }

  lemma {:induction false} FindIsFirst(refreshed: seq<Issue>, id: IssueId)
    ensures FindIssue(refreshed, id).None? <==> forall j :: 0 <= j < |refreshed| ==> refreshed[j].id != id
    ensures forall k: nat :: FirstWithId(refreshed, id, k) ==> FindIssue(refreshed, id) == Some(refreshed[k])
  {
    if refreshed != [] {
      FindIsFirst(refreshed[1..], id);
      assert refreshed == [refreshed[0]] + refreshed[1..];
      forall k: nat | FirstWithId(refreshed, id, k) ensures FindIssue(refreshed, id) == Some(refreshed[k]) {
        if k > 0 {
          assert refreshed[1..][k - 1] == refreshed[k];
          assert FirstWithId(refreshed[1..], id, k - 1);
        }
      }
    }
  }

  lemma FinishedIsSettled(t: State, id: IssueId, fired: RetryEntry, o: Outcome)
    requires id !in t.running.m && fired.attempt >= 1
    ensures Outcomes(t, FinishRetry(t, id, fired, o), id, fired, o)
  {
    RequeuedIsQueued(t, id, fired.attempt + 1, fired.identifier);
    if o.refreshed.Some? {
      FindIsFirst(o.refreshed.value, id);
      var found := FindIssue(o.refreshed.value, id);
      if found.Some? {
        var spawns := id !in o.spawnFails;
        FoundIsSettled(t, id, fired.attempt, found.value, o.spawnFails);
        forall k | k != id {
          FoundKeepsOthers(t, id, fired.attempt, found.value, spawns, k);
        }
      }
    }
  }

  /**
    In every reachable state, a fired retry is settled by the tracker's answer. A failed call queues the next
    attempt; an issue not returned, not active, not dispatchable or not labelled is released; one that is over is
    released and its workspace cleaned; without a global slot or one for its state, or if the spawn fails, the next
    attempt is queued; else it runs. Other issues are left alone.
   */
  lemma FiredRetryIsSettled(s: State, reconciler: Reconciler, o: Outcome)
    requires Reachable(s) && s.mailbox != [] && s.mailbox[0].RetryFired?
    ensures var id := s.mailbox[0].id;
            var t := Await(CancelRetry(s.(mailbox := s.mailbox[1..]), id));
            id in s.retries && Outcomes(t, Process(s, reconciler, o), id, s.retries[id], o)
  {
    var id := s.mailbox[0].id;
    FiringFindsItsEntry(s);
    ReachableClimbs(s);
    assert OnLadder(s.retries[id], AnyCap());
    FinishedIsSettled(Await(CancelRetry(s.(mailbox := s.mailbox[1..]), id)), id, s.retries[id], o);
  }
}
