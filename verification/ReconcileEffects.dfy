/**
  What reconciliation does to runs, claims and workspaces, said in terms of the silence of each run and of the states
  the tracker answered; for both reconcilers.
 */
module ReconcileEffects {
  import opened Numbers
  import opened Options
  import opened Dicts
  import opened Models
  import opened Backoff
  import opened Machine
  import opened Reconcile
  import opened Handlers
  import opened ReconcileEquivalence

  // ---- Suspensions and terminations ----

  /** Tasks once cancelled stay cancelled. */
  ghost predicate StaysCancelled(s: State, s': State)
  {
    |s.tasks| <= |s'.tasks| && forall t :: 0 <= t < |s.tasks| && s.tasks[t].cancelled ==> s'.tasks[t].cancelled
  }

  ghost predicate OutsideOnly(s: State, s': State)
  {
    && s'.running == s.running && s'.config == s.config && s'.claimed == s.claimed && s'.retries == s.retries
    && s'.cleanups == s.cleanups && |s'.tasks| == |s.tasks|
    && forall t :: 0 <= t < |s.tasks| ==> s'.tasks[t].cancelled == s.tasks[t].cancelled
  }

  lemma {:induction false} OccurAllIsOutside(s: State, events: seq<Event>)
    ensures OutsideOnly(s, OccurAll(s, events))
    decreases |events|
  {
    if events != [] {
      OccurAllIsOutside(Occur(s, events[0]), events[1..]);
    }
  }

  lemma AwaitIsOutside(s: State)
    ensures OutsideOnly(s, Await(s))
  {
    if s.future != [] {
      OccurAllIsOutside(s.(future := s.future[1..]), s.future[0]);
    }
  }

  /** One run ended: its worker cancelled, its workspace cleaned if asked and named. */
  ghost predicate EndsOne(s: State, s': State, id: IssueId, cleanup: bool)
    requires id in s.running.m
  {
    var e := s.running.m[id];
    && s'.config == s.config
    && s'.running == s.running.Remove(id)
    && s'.cleanups == s.cleanups + (if cleanup && e.identifier != "" then [e.identifier] else [])
    && StaysCancelled(s, s')
    && (e.worker < |s.tasks| ==> s'.tasks[e.worker].cancelled)
  }

  lemma CleanupEffects(s: State, identifier: string)
    ensures var s' := CleanupWorkspace(s, identifier);
            && OutsideOnly(s, s'.(cleanups := s.cleanups))
            && s'.cleanups == s.cleanups + if identifier != "" then [identifier] else []
  {
    if identifier != "" {
      AwaitIsOutside(s.(cleanups := s.cleanups + [identifier]));
    }
  }

  lemma TerminationEffects(s: State, id: IssueId, cleanup: bool, retry: bool)
    requires id in s.running.m
    ensures EndsOne(s, TerminateRunningIssue(s, id, cleanup, retry), id, cleanup)
  {
    CleanupEffects(CancelTask(EndRun(s, id), s.running.m[id].worker), s.running.m[id].identifier);
  }

  lemma TerminationReleases(s: State, id: IssueId, cleanup: bool)
    requires id in s.running.m
    ensures var s' := TerminateRunningIssue(s, id, cleanup, false);
            s'.claimed == s.claimed - {id} && s'.retries == s.retries - {id}
  {
    CleanupEffects(CancelTask(EndRun(s, id), s.running.m[id].worker), s.running.m[id].identifier);
  }

  // ---- One run, one answer ----

  /** The tracker wants this run to go on. */
  predicate Stays(issue: Issue, cfg: Config)
  {
    && cfg.IsActive(issue.state) && !cfg.IsTerminal(issue.state)
    && issue.dispatchable && HasLabels(issue, cfg.requiredLabels)
  }

  ghost predicate SameClaim(s: State, s': State, id: IssueId)
  {
    && (id in s'.claimed <==> id in s.claimed)
    && (id in s'.retries <==> id in s.retries)
    && (id in s.retries ==> s'.retries[id] == s.retries[id])
  }

  ghost predicate RunEnded(s: State, s': State, id: IssueId)
    requires id in s.running.m
  {
    && id !in s'.running.m && id !in s'.claimed && id !in s'.retries
    && (s.running.m[id].worker < |s.tasks| ==>
          s.running.m[id].worker < |s'.tasks| && s'.tasks[s.running.m[id].worker].cancelled)
  }

  /** What becomes of one id when the answer mentions it so, or not at all. */
  ghost predicate Fate(s: State, s': State, id: IssueId, mention: Option<Issue>)
  {
    && s'.config == s.config && StaysCancelled(s, s')
    && if id !in s.running.m then id !in s'.running.m && SameClaim(s, s', id)
       else if mention.None? then id in s'.running.m && s'.running.m[id] == s.running.m[id] && SameClaim(s, s', id)
       else if Stays(mention.value, s.config) then
         id in s'.running.m && s'.running.m[id] == s.running.m[id].(issue := mention.value) && SameClaim(s, s', id)
       else RunEnded(s, s', id)
  }

  lemma FateOfOne(s: State, issue: Issue, id: IssueId)
    ensures Fate(s, ApplyRefreshed(s, issue), id, if issue.id == id then Some(issue) else None)
  {
    if issue.id in s.running.m {
      TerminationEffects(s, issue.id, true, false);
      TerminationReleases(s, issue.id, true);
      TerminationEffects(s, issue.id, false, false);
      TerminationReleases(s, issue.id, false);
    }
  }

  /** The first fate is the only one: later steps do not mention the id. */
  lemma FateIsFinal(s: State, s': State, s'': State, id: IssueId, mention: Option<Issue>)
    requires Fate(s, s', id, mention) && Fate(s', s'', id, None)
    ensures Fate(s, s'', id, mention)
  {
  }

  lemma FateToCome(s: State, s': State, s'': State, id: IssueId, mention: Option<Issue>)
    requires Fate(s, s', id, None) && Fate(s', s'', id, mention)
    ensures Fate(s, s'', id, mention)
  {
  }

  lemma {:induction false} FateOfAll(s: State, refreshed: seq<Issue>, id: IssueId)
    requires DistinctIds(refreshed)
    ensures Fate(s, ApplyAll(s, refreshed), id, FirstOf(refreshed, id))
    decreases |refreshed|
  {
    if refreshed != [] {
      var s' := ApplyRefreshed(s, refreshed[0]);
      FateOfOne(s, refreshed[0], id);
      FateOfAll(s', refreshed[1..], id);
      if refreshed[0].id == id {
        FirstOfIsAMention(refreshed[1..], id);
        FateIsFinal(s, s', ApplyAll(s, refreshed), id, Some(refreshed[0]));
      } else {
        FateToCome(s, s', ApplyAll(s, refreshed), id, FirstOf(refreshed[1..], id));
      }
    }
  }

  lemma {:induction false} FateOfMissing(s: State, keys: seq<IssueId>, returned: set<IssueId>, id: IssueId)
    ensures var s' := TerminateMissing(s, keys, returned);
            && s'.config == s.config && s'.cleanups == s.cleanups && StaysCancelled(s, s')
            && if id in keys && id !in returned && id in s.running.m then RunEnded(s, s', id) else Fate(s, s', id, None)
    decreases |keys|
  {
    if keys != [] {
      var k := keys[0];
      var next := if k in returned then s else TerminateRunningIssue(s, k, false, false);
      if k in s.running.m {
        TerminationEffects(s, k, false, false);
        TerminationReleases(s, k, false);
      }
      FateOfMissing(next, keys[1..], returned, id);
    }
  }

  // ---- Workspaces ----

  /** The workspaces an answer makes clean: those of running issues it says are over, in its order. */
  function OverAndNamed(running: map<IssueId, RunningEntry>, refreshed: seq<Issue>, cfg: Config): seq<string>
  {
    if refreshed == [] then []
    else
      var issue := refreshed[0];
      (if issue.id in running && cfg.IsTerminal(issue.state) && running[issue.id].identifier != ""
       then [running[issue.id].identifier] else [])
      + OverAndNamed(running, refreshed[1..], cfg)
  }

  lemma {:induction false} SameWorkspaces(m: map<IssueId, RunningEntry>, m': map<IssueId, RunningEntry>,
                                          refreshed: seq<Issue>, cfg: Config)
    requires forall i :: 0 <= i < |refreshed| ==>
               && (refreshed[i].id in m <==> refreshed[i].id in m')
               && (refreshed[i].id in m ==> m[refreshed[i].id].identifier == m'[refreshed[i].id].identifier)
    ensures OverAndNamed(m, refreshed, cfg) == OverAndNamed(m', refreshed, cfg)
    decreases |refreshed|
  {
    if refreshed != [] {
      SameWorkspaces(m, m', refreshed[1..], cfg);
    }
  }

  lemma OneRefreshCleans(s: State, issue: Issue)
    ensures ApplyRefreshed(s, issue).cleanups == s.cleanups + OverAndNamed(s.running.m, [issue], s.config)
  {
    if issue.id in s.running.m {
      TerminationEffects(s, issue.id, true, false);
      TerminationReleases(s, issue.id, true);
      TerminationEffects(s, issue.id, false, false);
      TerminationReleases(s, issue.id, false);
    }
    assert [issue][1..] == [];
  }

  lemma OthersKeepWorkspaces(s: State, refreshed: seq<Issue>)
    requires DistinctIds(refreshed) && refreshed != []
    ensures OverAndNamed(ApplyRefreshed(s, refreshed[0]).running.m, refreshed[1..], s.config)
         == OverAndNamed(s.running.m, refreshed[1..], s.config)
  {
    var s' := ApplyRefreshed(s, refreshed[0]);
    forall i | 0 <= i < |refreshed| - 1
      ensures refreshed[1..][i].id in s.running.m <==> refreshed[1..][i].id in s'.running.m
      ensures refreshed[1..][i].id in s.running.m ==>
                s.running.m[refreshed[1..][i].id].identifier == s'.running.m[refreshed[1..][i].id].identifier {
      FateOfOne(s, refreshed[0], refreshed[i + 1].id);
    }
    SameWorkspaces(s'.running.m, s.running.m, refreshed[1..], s.config);
  }

  lemma WorkspacesUnfold(m: map<IssueId, RunningEntry>, refreshed: seq<Issue>, cfg: Config)
    requires refreshed != []
    ensures OverAndNamed(m, refreshed, cfg)
         == OverAndNamed(m, [refreshed[0]], cfg) + OverAndNamed(m, refreshed[1..], cfg)
  {
    assert [refreshed[0]][1..] == [];
  }

  lemma {:induction false} RefreshCleans(s: State, refreshed: seq<Issue>)
    requires DistinctIds(refreshed)
    ensures ApplyAll(s, refreshed).cleanups == s.cleanups + OverAndNamed(s.running.m, refreshed, s.config)
    decreases |refreshed|
  {
    if refreshed != [] {
      var s' := ApplyRefreshed(s, refreshed[0]);
      OneRefreshCleans(s, refreshed[0]);
      FateOfOne(s, refreshed[0], refreshed[0].id);
      OthersKeepWorkspaces(s, refreshed);
      RefreshCleans(s', refreshed[1..]);
      WorkspacesUnfold(s.running.m, refreshed, s.config);
    }
  }

  // ---- Silence ----

  predicate Silent(s: State, id: IssueId)
    requires id in s.running.m
  {
    var e := s.running.m[id];
    && s.config.stallTimeoutMs > 0
    && s.now - (if e.lastActivity.Some? then e.lastActivity.value else e.startedAt) > s.config.stallTimeoutMs
  }

  /** A stalled run is stopped, keeps its workspace, and is queued for its next attempt with the documented delay. */
  ghost predicate Requeued(s: State, s': State, id: IssueId)
    requires id in s.running.m
  {
    var e := s.running.m[id];
    && id !in s'.running.m && id in s'.claimed && id in s'.retries
    && s'.retries[id].identifier == e.identifier
    && s'.retries[id].attempt
       == (if e.retryAttempt.Some? && e.retryAttempt.value >= 1 then e.retryAttempt.value + 1 else 1)
    && s'.retries[id].delayMs
       == Max(0, Min(10_000 * Pow2(s'.retries[id].attempt - 1), s.config.maxRetryBackoffMs))
    && (e.worker < |s.tasks| ==> e.worker < |s'.tasks| && s'.tasks[e.worker].cancelled)
  }

  lemma RequeuedOne(s: State, id: IssueId)
    requires id in s.running.m
    ensures Requeued(s, TerminateRunningIssue(s, id, false, true), id)
  {
    TerminationEffects(s, id, false, true);
    BackoffIsDocumentedFormula(NextAttempt(s.running.m[id].retryAttempt), s.config.maxRetryBackoffMs);
  }

  lemma RequeueKeepsOthers(s: State, id: IssueId, k: IssueId)
    requires id in s.running.m && k != id
    ensures Fate(s, TerminateRunningIssue(s, id, false, true), k, None)
  {
    TerminationEffects(s, id, false, true);
  }

  ghost predicate StallFate(s: State, s': State, ids: seq<IssueId>, id: IssueId)
    requires forall k :: k in ids ==> k in s.running.m
  {
    && s'.cleanups == s.cleanups
    && s'.config == s.config && StaysCancelled(s, s')
    && if id in ids then Requeued(s, s', id) else Fate(s, s', id, None)
  }

  lemma RequeuedForGood(s: State, mid: State, s': State, id: IssueId)
    requires id in s.running.m && Requeued(s, mid, id) && Fate(mid, s', id, None) && mid.config == s.config
    ensures Requeued(s, s', id)
  {
  }

  lemma RequeuedLater(s: State, mid: State, s': State, id: IssueId)
    requires id in s.running.m && Fate(s, mid, id, None) && Requeued(mid, s', id)
    ensures Requeued(s, s', id)
  {
  }

  lemma StaysThroughout(s: State, mid: State, s': State)
    requires StaysCancelled(s, mid) && StaysCancelled(mid, s')
    ensures StaysCancelled(s, s')
  {
  }

  lemma {:induction false} StalledFate(s: State, ids: seq<IssueId>, id: IssueId)
    requires Distinct(ids) && forall k :: k in ids ==> k in s.running.m
    ensures StallFate(s, TerminateStalled(s, ids), ids, id)
    decreases |ids|
  {
    if ids != [] {
      var mid, s' := TerminateRunningIssue(s, ids[0], false, true), TerminateStalled(s, ids);
      TerminationEffects(s, ids[0], false, true);
      assert forall k :: k in ids[1..] ==> k != ids[0];
      StalledFate(mid, ids[1..], id);
      StaysThroughout(s, mid, s');
      if id == ids[0] {
        RequeuedOne(s, id);
        RequeuedForGood(s, mid, s', id);
      } else {
        RequeueKeepsOthers(s, ids[0], id);
        if id in ids {
          RequeuedLater(s, mid, s', id);
        } else {
          FateIsFinal(s, mid, s', id, None);
        }
      }
    }
  }

  lemma {:induction false} StalledAreSilent(s: State, keys: seq<IssueId>)
    requires Distinct(keys) && forall k :: k in keys ==> k in s.running.m
    requires s.config.stallTimeoutMs > 0
    ensures Distinct(StalledIds(s, keys))
    ensures forall k :: k in StalledIds(s, keys) <==> k in keys && Silent(s, k)
  {
    if keys != [] {
      StalledAreSilent(s, keys[1..]);
      assert keys[0] !in keys[1..];
    }
  }

  /** Stall detection requeues the silent runs, leaves the others as they are, and cleans nothing. */
  lemma StallEffects(s: State, id: IssueId)
    requires s.running.Valid()
    ensures var s' := BuiltInStalls(s);
            && s'.cleanups == s.cleanups
            && if id in s.running.m && Silent(s, id) then Requeued(s, s', id) else Fate(s, s', id, None)
  {
    if s.config.stallTimeoutMs > 0 {
      StalledAreSilent(s, s.running.keys);
      StalledFate(s, StalledIds(s, s.running.keys), id);
    }
  }

  // ---- Main results ----

  /** The answer wants the run of this id to go on. */
  ghost predicate WantedBy(refreshed: seq<Issue>, cfg: Config, id: IssueId)
  {
    exists i :: 0 <= i < |refreshed| && refreshed[i].id == id && Stays(refreshed[i], cfg)
  }

  /** The answer to a refresh, taken to heart. */
  ghost predicate Obeys(t: State, f: State, refreshed: seq<Issue>)
  {
    && f.config == t.config
    && f.cleanups == t.cleanups + OverAndNamed(t.running.m, refreshed, t.config)
    && (forall id :: id in f.running.m <==> id in t.running.m && WantedBy(refreshed, t.config, id))
    && (forall i :: 0 <= i < |refreshed| && refreshed[i].id in f.running.m ==>
          f.running.m[refreshed[i].id] == t.running.m[refreshed[i].id].(issue := refreshed[i]))
    && (forall id :: id in t.running.m && id !in f.running.m ==> RunEnded(t, f, id))
    && (forall id :: id !in t.running.m || id in f.running.m ==> SameClaim(t, f, id))
  }

  lemma RefreshFate(t: State, refreshed: seq<Issue>, id: IssueId)
    requires t.running.Valid() && DistinctIds(refreshed)
    ensures var f := TerminateMissing(ApplyAll(t, refreshed), t.running.keys, IdsOf(refreshed));
            var mention := FirstOf(refreshed, id);
            if id in t.running.m && mention.None? then RunEnded(t, f, id) else Fate(t, f, id, mention)
  {
    var e := ApplyAll(t, refreshed);
    FateOfAll(t, refreshed, id);
    FateOfMissing(e, t.running.keys, IdsOf(refreshed), id);
    FirstOfIsAMention(refreshed, id);
  }

  lemma VerdictOnOne(t: State, refreshed: seq<Issue>, id: IssueId)
    requires t.running.Valid() && DistinctIds(refreshed)
    ensures var f := TerminateMissing(ApplyAll(t, refreshed), t.running.keys, IdsOf(refreshed));
            && f.config == t.config
            && (id in f.running.m <==> id in t.running.m && WantedBy(refreshed, t.config, id))
            && (id in t.running.m && id !in f.running.m ==> RunEnded(t, f, id))
            && (id !in t.running.m || id in f.running.m ==> SameClaim(t, f, id))
  {
    RefreshFate(t, refreshed, id);
    MentionIsUnique(refreshed, id);
    FateOfAll(t, refreshed, id);
    FateOfMissing(ApplyAll(t, refreshed), t.running.keys, IdsOf(refreshed), id);
  }

  lemma SnapshotOfOne(t: State, refreshed: seq<Issue>, i: nat)
    requires t.running.Valid() && DistinctIds(refreshed) && i < |refreshed|
    ensures var f := TerminateMissing(ApplyAll(t, refreshed), t.running.keys, IdsOf(refreshed));
            var id := refreshed[i].id;
            id in f.running.m ==> id in t.running.m && f.running.m[id] == t.running.m[id].(issue := refreshed[i])
  {
    RefreshFate(t, refreshed, refreshed[i].id);
    MentionIsUnique(refreshed, refreshed[i].id);
  }

  lemma RefreshObeys(t: State, refreshed: seq<Issue>)
    requires t.running.Valid() && DistinctIds(refreshed)
    ensures Obeys(t, TerminateMissing(ApplyAll(t, refreshed), t.running.keys, IdsOf(refreshed)), refreshed)
  {
    RefreshCleans(t, refreshed);
    FateOfMissing(ApplyAll(t, refreshed), t.running.keys, IdsOf(refreshed), "");
    forall id {
      VerdictOnOne(t, refreshed, id);
    }
    forall i: nat | i < |refreshed| {
      SnapshotOfOne(t, refreshed, i);
    }
  }

  lemma {:induction false} MentionIsUnique(refreshed: seq<Issue>, id: IssueId)
    requires DistinctIds(refreshed)
    ensures forall i :: 0 <= i < |refreshed| && refreshed[i].id == id ==> FirstOf(refreshed, id) == Some(refreshed[i])
    ensures FirstOf(refreshed, id).Some? ==>
              exists i :: 0 <= i < |refreshed| && refreshed[i] == FirstOf(refreshed, id).value
    ensures FirstOf(refreshed, id).Some? ==> FirstOf(refreshed, id).value.id == id
    decreases |refreshed|
  {
    if refreshed != [] {
      MentionIsUnique(refreshed[1..], id);
      assert refreshed == [refreshed[0]] + refreshed[1..];
      if refreshed[0].id != id && FirstOf(refreshed, id).Some? {
        var k :| 0 <= k < |refreshed[1..]| && refreshed[1..][k] == FirstOf(refreshed, id).value;
        assert refreshed[k + 1] == FirstOf(refreshed, id).value;
      }
    }
  }

  /**
    Either reconciler, for every answer without repeated ids: a workspace is cleaned exactly for each running issue that
    the answer says is over, in its order; a run goes on, with the issue just read, exactly if its issue was returned
    active, not over, dispatchable and with every required label; every other run is ended, its claim released and its
    worker cancelled; other claims stay. A failed call ends nothing and cleans nothing. All this after stall detection,
    at the suspension in which the call is made.
   */
  lemma ReconciliationObeysTheTracker(s: State, reconciler: Reconciler, refreshed: Option<seq<Issue>>)
    requires s.running.Valid() && (refreshed.Some? ==> DistinctIds(refreshed.value))
    ensures var quiet := BuiltInStalls(s);
            var f := ReconcileRunning(s, reconciler, refreshed);
            if quiet.running.keys == [] then f == quiet
            else if refreshed.None? then f == Await(quiet)
            else Obeys(Await(quiet), f, refreshed.value)
  {
    ReconcilersAgree(s, refreshed);
    StallPhasesAgree(s);
    AwaitIsOutside(BuiltInStalls(s));
    if refreshed.Some? {
      RefreshObeys(Await(BuiltInStalls(s)), refreshed.value);
    }
  }
}
