/** The dispatch loop of a tick is work-conserving, fair to the sort order, and keeps the per-state limits. */
module Dispatch {
  import opened Numbers
  import opened Options
  import opened Dicts
  import opened Models
  import opened Backoff
  import opened Scheduling
  import opened Machine
  import opened Handlers
  import opened Invariant
  import opened Reachability
  import Tokens

  /** Blocked for good within this tick: by eligibility, by a run or a claim, or by the limit of its state. */
  predicate Settled(s: State, issue: Issue)
  {
    || !Eligible(issue, s.config)
    || issue.id in s.running.m
    || issue.id in s.claimed
    || !HasStateSlot(issue, s.running, s.config)
  }

  /** Within the loop everything that blocks a candidate only grows. */
  ghost predicate Advances(s: State, s': State)
  {
    && s'.running.Valid()
    && s'.config == s.config
    && s.running.m.Keys <= s'.running.m.Keys
    && s.claimed <= s'.claimed
    && |s.running.keys| <= |s'.running.keys|
    && forall state :: RunningCountForState(s.running, state) <= RunningCountForState(s'.running, state)
  }

  lemma ConsiderAdvances(s: State, issue: Issue, spawnFails: set<IssueId>)
    requires s.running.Valid()
    ensures Advances(s, Consider(s, issue, spawnFails))
    ensures AvailableSlots(s.running, s.config) > 0 ==> Settled(Consider(s, issue, spawnFails), issue)
    ensures forall state ::
              RunningCountForState(Consider(s, issue, spawnFails).running, state)
              <= Max(RunningCountForState(s.running, state), s.config.SlotLimitForState(state))
  {
    var s' := Consider(s, issue, spawnFails);
    if s'.running != s.running {
      var entry := s'.running.m[issue.id];
      assert s'.running == s.running.Put(issue.id, entry) && entry.issue == issue;
      forall state
        ensures RunningCountForState(s'.running, state)
             == RunningCountForState(s.running, state) + InState(state)(entry) {
        SumPut(s.running, issue.id, entry, InState(state));
      }
    }
  }

  lemma SettledForGood(s: State, s': State, issue: Issue)
    requires Advances(s, s') && Settled(s, issue)
    ensures Settled(s', issue)
  {
    assert RunningCountForState(s.running, issue.state) <= RunningCountForState(s'.running, issue.state);
  }

  lemma {:induction false} LoopAdvances(s: State, candidates: seq<Issue>, spawnFails: set<IssueId>)
    requires s.running.Valid()
    ensures Advances(s, DispatchLoop(s, candidates, spawnFails))
    ensures forall state ::
              RunningCountForState(DispatchLoop(s, candidates, spawnFails).running, state)
              <= Max(RunningCountForState(s.running, state), s.config.SlotLimitForState(state))
    decreases |candidates|
  {
    if candidates != [] && AvailableSlots(s.running, s.config) > 0 {
      var next := Consider(s, candidates[0], spawnFails);
      ConsiderAdvances(s, candidates[0], spawnFails);
      LoopAdvances(next, candidates[1..], spawnFails);
      forall state ensures RunningCountForState(s.running, state)
                        <= RunningCountForState(DispatchLoop(s, candidates, spawnFails).running, state) {
        assert RunningCountForState(s.running, state) <= RunningCountForState(next.running, state);
      }
    }
  }

  /** When the loop ends there is no slot left, or nothing left to dispatch. */
  lemma {:induction false} LoopIsWorkConserving(s: State, candidates: seq<Issue>, spawnFails: set<IssueId>)
    requires s.running.Valid()
    ensures var s' := DispatchLoop(s, candidates, spawnFails);
            || AvailableSlots(s'.running, s'.config) <= 0
            || forall c :: c in candidates ==> Settled(s', c)
    decreases |candidates|
  {
    if candidates != [] && AvailableSlots(s.running, s.config) > 0 {
      var next := Consider(s, candidates[0], spawnFails);
      ConsiderAdvances(s, candidates[0], spawnFails);
      LoopAdvances(next, candidates[1..], spawnFails);
      SettledForGood(next, DispatchLoop(next, candidates[1..], spawnFails), candidates[0]);
      LoopIsWorkConserving(next, candidates[1..], spawnFails);
    }
  }

  lemma {:induction false} LoopSplits(s: State, a: seq<Issue>, b: seq<Issue>, spawnFails: set<IssueId>)
    ensures DispatchLoop(s, a + b, spawnFails) == DispatchLoop(DispatchLoop(s, a, spawnFails), b, spawnFails)
    decreases |a|
  {
    if a == [] {
      assert a + b == b;
    } else if AvailableSlots(s.running, s.config) > 0 {
      assert (a + b)[1..] == a[1..] + b;
      LoopSplits(Consider(s, a[0], spawnFails), a[1..], b, spawnFails);
    }
  }

  /** The state in which the loop reaches candidate `i`. */
  function AtTurn(s: State, candidates: seq<Issue>, spawnFails: set<IssueId>, i: nat): State
    requires i <= |candidates|
  {
    DispatchLoop(s, candidates[..i], spawnFails)
  }

  predicate DispatchedAt(s: State, candidates: seq<Issue>, spawnFails: set<IssueId>, i: nat)
    requires i < |candidates|
  {
    && candidates[i].id !in AtTurn(s, candidates, spawnFails, i).running.m
    && candidates[i].id in AtTurn(s, candidates, spawnFails, i + 1).running.m
  }

  lemma TurnStep(s: State, candidates: seq<Issue>, spawnFails: set<IssueId>, i: nat)
    requires i < |candidates|
    ensures var t := AtTurn(s, candidates, spawnFails, i);
            AtTurn(s, candidates, spawnFails, i + 1)
            == if AvailableSlots(t.running, t.config) <= 0 then t else Consider(t, candidates[i], spawnFails)
  {
    assert candidates[..i + 1] == candidates[..i] + [candidates[i]];
    LoopSplits(s, candidates[..i], [candidates[i]], spawnFails);
    var t := AtTurn(s, candidates, spawnFails, i);
    assert [candidates[i]][1..] == [];
    var next := Consider(t, candidates[i], spawnFails);
    assert DispatchLoop(next, [], spawnFails) == next;
  }

  lemma {:induction false} NoSlotStopsTheLoop(s: State, candidates: seq<Issue>, spawnFails: set<IssueId>, i: nat,
                                              j: nat)
    requires i <= j <= |candidates|
    requires var t := AtTurn(s, candidates, spawnFails, i); AvailableSlots(t.running, t.config) <= 0
    ensures AtTurn(s, candidates, spawnFails, j) == AtTurn(s, candidates, spawnFails, i)
    decreases j
  {
    if i < j {
      NoSlotStopsTheLoop(s, candidates, spawnFails, i, j - 1);
      TurnStep(s, candidates, spawnFails, j - 1);
    }
  }

  /** If a later candidate was dispatched, there still was a slot when this one had its turn. */
  lemma SlotBeforeDispatch(s: State, candidates: seq<Issue>, spawnFails: set<IssueId>, i: nat, j: nat)
    requires i < j < |candidates| && DispatchedAt(s, candidates, spawnFails, j)
    ensures var t := AtTurn(s, candidates, spawnFails, i); AvailableSlots(t.running, t.config) > 0
  {
    var t := AtTurn(s, candidates, spawnFails, i);
    if AvailableSlots(t.running, t.config) <= 0 {
      NoSlotStopsTheLoop(s, candidates, spawnFails, i, j);
      NoSlotStopsTheLoop(s, candidates, spawnFails, i, j + 1);
    }
  }

  /** With a slot free, a candidate is dispatched at its turn, settled already, or fails to spawn. */
  lemma TurnWithASlot(s: State, candidates: seq<Issue>, spawnFails: set<IssueId>, i: nat)
    requires i < |candidates|
    requires var t := AtTurn(s, candidates, spawnFails, i); AvailableSlots(t.running, t.config) > 0
    ensures || DispatchedAt(s, candidates, spawnFails, i)
            || Settled(AtTurn(s, candidates, spawnFails, i), candidates[i])
            || candidates[i].id in spawnFails
  {
    TurnStep(s, candidates, spawnFails, i);
  }

  /**
    No priority inversion: a candidate passed over for one that sorts later had a free slot in front of it and was
    blocked by its own eligibility, a run, a claim, its state's limit, or a failed spawn.
   */
  lemma NoPriorityInversion(s: State, issues: seq<Issue>, spawnFails: set<IssueId>, i: nat, j: nat)
    requires i < j < |SortForDispatch(issues)|
    requires DispatchedAt(s, SortForDispatch(issues), spawnFails, j)
    ensures var sorted := SortForDispatch(issues);
            var t := AtTurn(s, sorted, spawnFails, i);
            && Before(sorted[i], sorted[j])
            && AvailableSlots(t.running, t.config) > 0
            && (DispatchedAt(s, sorted, spawnFails, i) || Settled(t, sorted[i]) || sorted[i].id in spawnFails)
  {
    SortIsStableOrdering(issues);
    SlotBeforeDispatch(s, SortForDispatch(issues), spawnFails, i, j);
    TurnWithASlot(s, SortForDispatch(issues), spawnFails, i);
  }

  /** Every dispatch leaves its own state within that state's limit, and the running map within the global one. */
  lemma DispatchRespectsLimits(s: State, issue: Issue, attempt: Option<int>)
    requires s.running.Valid() && issue.id !in s.running.m && HasSlotFor(s, issue)
    ensures var s' := DispatchIssue(s, issue, attempt, true);
            && RunningCountForState(s'.running, issue.state) <= s.config.SlotLimitForState(issue.state)
            && |s'.running.keys| <= s.config.maxConcurrentAgents
  {
    var s' := DispatchIssue(s, issue, attempt, true);
    SumPut(s.running, issue.id, s'.running.m[issue.id], InState(issue.state));
  }

  /**
    A tick that reaches its loop ends with no slot left or no candidate worth dispatching; and the loop pushes
    no state past its limit.
   */
  lemma TickIsWorkConserving(s: State, reconciler: Reconciler, o: Outcome)
    requires Inv(s, {}) && o.valid && o.candidates.Some?
    ensures var s' := RunTick(s, reconciler, o);
            || AvailableSlots(s'.running, s'.config) <= 0
            || forall c :: c in o.candidates.value ==> !ShouldDispatch(c, s'.running, s'.claimed, s'.config)
    ensures var s' := RunTick(s, reconciler, o);
            var before := Await(ReconcileRunning(s, reconciler, o.refreshed));
            forall state :: RunningCountForState(s'.running, state)
                         <= Max(RunningCountForState(before.running, state), before.config.SlotLimitForState(state))
  {
    var reconciled := ReconcileRunning(s, reconciler, o.refreshed);
    ReconcileKeepsInv(s, reconciler, o.refreshed);
    AwaitKeepsInv(reconciled, {});
    var sorted := SortForDispatch(o.candidates.value);
    LoopIsWorkConserving(Await(reconciled), sorted, o.spawnFails);
    LoopAdvances(Await(reconciled), sorted, o.spawnFails);
    SortIsStableOrdering(o.candidates.value);
    forall c | c in o.candidates.value ensures c in sorted {
      assert c in multiset(sorted);
    }
  }

  // ---- What a tick starts ----

  /** Complete, open, dispatchable and with every required label. */
  predicate FitToRun(issue: Issue, cfg: Config)
  {
    && Strip(issue.id) != "" && Strip(issue.identifier) != "" && Strip(issue.title) != "" && Strip(issue.state) != ""
    && cfg.IsActive(issue.state) && !cfg.IsTerminal(issue.state)
    && issue.dispatchable && HasLabels(issue, cfg.requiredLabels)
  }

  /** A candidate with this id that was neither running nor claimed and is fit to run. */
  ghost predicate Startable(s: State, issue: Issue, candidates: seq<Issue>, id: IssueId)
  {
    && issue in candidates && issue.id == id && FitToRun(issue, s.config)
    && id !in s.running.m && id !in s.claimed
  }

  /** A first run, begun now, with a worker of its own. */
  ghost predicate FreshRun(s: State, s': State, id: IssueId, candidates: seq<Issue>)
    requires id in s'.running.m
  {
    var e := s'.running.m[id];
    && Startable(s, e.issue, candidates, id)
    && e == RunningEntry(e.issue, e.issue.identifier, s.now, e.worker, Tokens.FRESH, None, None)
    && |s.tasks| <= e.worker < |s'.tasks| && s'.tasks[e.worker] == Task(id, false, false)
    && id in s'.claimed
  }

  /** A candidate that failed to spawn, queued for its first attempt. */
  ghost predicate FailedSpawn(s: State, s': State, id: IssueId, candidates: seq<Issue>, spawnFails: set<IssueId>)
    requires id in s'.retries
  {
    && (exists issue :: Startable(s, issue, candidates, id) && s'.retries[id].identifier == issue.identifier)
    && id in spawnFails && id in s'.claimed
    && s'.retries[id].attempt == 1 && s'.retries[id].delayMs == Max(0, Min(10_000, s.config.maxRetryBackoffMs))
  }

  /** What the loop did to one id: nothing, or it started it, or it failed to. */
  ghost predicate Treated(s: State, s': State, candidates: seq<Issue>, spawnFails: set<IssueId>, id: IssueId)
  {
    && s'.config == s.config && s'.now == s.now && s'.cleanups == s.cleanups && s'.ended == s.ended
    && s.tasks <= s'.tasks
    && (id in s.running.m ==> id in s'.running.m && s'.running.m[id] == s.running.m[id])
    && (id in s'.running.m && id !in s.running.m ==> FreshRun(s, s', id, candidates))
    && (id in s.claimed ==>
          id in s'.claimed && (id in s'.retries <==> id in s.retries)
          && (id in s.retries ==> s'.retries[id] == s.retries[id]))
    && (id in s'.retries && id !in s.retries ==> FailedSpawn(s, s', id, candidates, spawnFails))
    && (id in s'.claimed && id !in s.claimed ==> id in s'.running.m || id in s'.retries)
  }

  lemma ConsiderTreats(s: State, issue: Issue, spawnFails: set<IssueId>, id: IssueId)
    requires forall k :: k in s.retries ==> k in s.claimed
    ensures Treated(s, Consider(s, issue, spawnFails), [issue], spawnFails, id)
    ensures forall k :: k in Consider(s, issue, spawnFails).retries ==> k in Consider(s, issue, spawnFails).claimed
  {
    BackoffIsDocumentedFormula(1, s.config.maxRetryBackoffMs);
    assert Pow2(0) == 1;
    var s' := Consider(s, issue, spawnFails);
    if id in s'.retries && id !in s.retries {
      assert Startable(s, issue, [issue], id);
    }
  }

  lemma TreatedThen(s: State, s': State, s'': State, first: Issue, rest: seq<Issue>, spawnFails: set<IssueId>,
                    id: IssueId)
    requires Treated(s, s', [first], spawnFails, id) && Treated(s', s'', rest, spawnFails, id)
    ensures Treated(s, s'', [first] + rest, spawnFails, id)
  {
    if id in s''.retries && id !in s.retries && id !in s'.retries {
      var issue :| Startable(s', issue, rest, id) && s''.retries[id].identifier == issue.identifier;
      assert Startable(s, issue, [first] + rest, id);
    }
    if id in s'.retries && id !in s.retries {
      var issue :| Startable(s, issue, [first], id) && s'.retries[id].identifier == issue.identifier;
      assert Startable(s, issue, [first] + rest, id);
    }
  }

  lemma {:induction false} LoopTreats(s: State, candidates: seq<Issue>, spawnFails: set<IssueId>, id: IssueId)
    requires forall k :: k in s.retries ==> k in s.claimed
    ensures Treated(s, DispatchLoop(s, candidates, spawnFails), candidates, spawnFails, id)
    decreases |candidates|
  {
    if candidates != [] && AvailableSlots(s.running, s.config) > 0 {
      var next := Consider(s, candidates[0], spawnFails);
      ConsiderTreats(s, candidates[0], spawnFails, id);
      LoopTreats(next, candidates[1..], spawnFails, id);
      TreatedThen(s, next, DispatchLoop(next, candidates[1..], spawnFails), candidates[0], candidates[1..], spawnFails,
                  id);
      assert candidates == [candidates[0]] + candidates[1..];
    }
  }

  lemma TreatedBySet(s: State, s': State, a: seq<Issue>, b: seq<Issue>, spawnFails: set<IssueId>, id: IssueId)
    requires Treated(s, s', a, spawnFails, id) && forall x :: x in a <==> x in b
    ensures Treated(s, s', b, spawnFails, id)
  {
    if id in s'.retries && id !in s.retries {
      var issue :| Startable(s, issue, a, id) && s'.retries[id].identifier == issue.identifier;
      assert Startable(s, issue, b, id);
    }
  }

  /**
    After reconciliation and the suspension in which candidates are fetched, a tick starts only candidates that are
    complete, open, dispatchable, labelled and not claimed, each as a fresh first run; a candidate that fails to spawn
    is queued for its first attempt; nothing else changes. Without a valid configuration or without candidates it starts
    nothing.
   */
  lemma TickStartsOnlyFitCandidates(s: State, reconciler: Reconciler, o: Outcome, id: IssueId)
    requires Inv(s, {})
    ensures var reconciled := ReconcileRunning(s, reconciler, o.refreshed);
            var s' := RunTick(s, reconciler, o);
            if !o.valid then s' == reconciled
            else if o.candidates.None? then s' == Await(reconciled)
            else Treated(Await(reconciled), s', o.candidates.value, o.spawnFails, id)
  {
    var reconciled := ReconcileRunning(s, reconciler, o.refreshed);
    ReconcileKeepsInv(s, reconciler, o.refreshed);
    AwaitKeepsInv(reconciled, {});
    if o.candidates.Some? {
      var t, sorted := Await(reconciled), SortForDispatch(o.candidates.value);
      SortIsStableOrdering(o.candidates.value);
      LoopTreats(t, sorted, o.spawnFails, id);
      forall x ensures x in sorted <==> x in o.candidates.value {
        assert x in multiset(sorted) <==> x in multiset(o.candidates.value);
      }
      TreatedBySet(t, DispatchLoop(t, sorted, o.spawnFails), sorted, o.candidates.value, o.spawnFails, id);
    }
  }
}
