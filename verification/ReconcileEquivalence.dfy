/** The delegated reconciler and the built-in one are the same function of the state and the tracker's answer. */
module ReconcileEquivalence {
  import opened Options
  import opened Dicts
  import opened Models
  import opened Backoff
  import opened Machine
  import opened Reconcile

  // ---- What a suspension and a termination leave alone ----

  lemma {:induction false} OccurAllFrame(s: State, events: seq<Event>)
    ensures var s' := OccurAll(s, events);
            s'.running == s.running && s'.config == s.config && s'.claimed == s.claimed && s'.retries == s.retries
    decreases |events|
  {
    if events != [] {
      OccurAllFrame(Occur(s, events[0]), events[1..]);
    }
  }

  lemma AwaitFrame(s: State)
    ensures var s' := Await(s);
            s'.running == s.running && s'.config == s.config && s'.claimed == s.claimed && s'.retries == s.retries
  {
    if s.future != [] {
      OccurAllFrame(s.(future := s.future[1..]), s.future[0]);
    }
  }

  lemma TerminateFrame(s: State, id: IssueId, cleanup: bool, retry: bool)
    ensures var s' := TerminateRunningIssue(s, id, cleanup, retry);
            s'.running == (if id in s.running.m then s.running.Remove(id) else s.running) && s'.config == s.config
  {
    if id in s.running.m {
      var stopped := CancelTask(EndRun(s, id), s.running.m[id].worker);
      AwaitFrame(stopped.(cleanups := stopped.cleanups + [s.running.m[id].identifier]));
    }
  }

  // ---- Stalled runs ----

  lemma ReleaseThenScheduleIsSchedule(s: State, id: IssueId)
    requires id in s.running.m
    ensures var e := s.running.m[id];
            var released := TerminateRunningIssue(s, id, false, false);
            ScheduleRetry(released, id, NextAttempt(e.retryAttempt), e.identifier, None)
            == TerminateRunningIssue(s, id, false, true)
  {
    var e := s.running.m[id];
    var stopped := CancelTask(EndRun(s, id), e.worker);
    var released := ReleaseClaim(stopped, id);
    assert released.claimed + {id} == stopped.claimed + {id};
    assert CancelRetry(released, id) == released;
    assert released.retries == CancelRetry(stopped, id).retries;
  }

  lemma {:induction false} StallsAgree(planned: State, s: State, keys: seq<IssueId>)
    requires Distinct(keys)
    requires forall k :: k in keys ==>
               k in planned.running.m && k in s.running.m && s.running.m[k] == planned.running.m[k]
    ensures ExecuteStalls(s, PlanStalls(planned, keys)) == TerminateStalled(s, StalledIds(planned, keys))
    decreases |keys|
  {
    if keys != [] {
      var id := keys[0];
      assert id !in keys[1..];
      if Stalled(planned, id) {
        ReleaseThenScheduleIsSchedule(s, id);
        TerminateFrame(s, id, false, true);
        StallsAgree(planned, TerminateRunningIssue(s, id, false, true), keys[1..]);
        var d := StallDecision(id, s.running.m[id].identifier, NextAttempt(s.running.m[id].retryAttempt));
        assert PlanStalls(planned, keys) == [d] + PlanStalls(planned, keys[1..]);
        assert PlanStalls(planned, keys)[1..] == PlanStalls(planned, keys[1..]);
        assert StalledIds(planned, keys)[1..] == StalledIds(planned, keys[1..]);
      } else {
        StallsAgree(planned, s, keys[1..]);
        assert PlanStalls(planned, keys) == PlanStalls(planned, keys[1..]);
        assert StalledIds(planned, keys) == StalledIds(planned, keys[1..]);
      }
    }
  }

  lemma {:induction false} ExecuteStallsKeepsDict(s: State, plan: seq<StallDecision>)
    requires s.running.Valid()
    ensures ExecuteStalls(s, plan).running.Valid() && ExecuteStalls(s, plan).config == s.config
    decreases |plan|
  {
    if plan != [] {
      var d := plan[0];
      TerminateFrame(s, d.id, false, false);
      ExecuteStallsKeepsDict(
        if d.id !in s.running.m then s
        else ScheduleRetry(TerminateRunningIssue(s, d.id, false, false), d.id, d.attempt, d.identifier, None),
        plan[1..]);
    }
  }

  // ---- Tracker refresh ----

  lemma {:induction false} ExecuteConcat(s: State, p: seq<ReconcileDecision>, q: seq<ReconcileDecision>)
    ensures Execute(s, p + q) == Execute(Execute(s, p), q)
    decreases |p|
  {
    if p == [] {
      assert p + q == q;
    } else {
      assert (p + q)[1..] == p[1..] + q;
      ExecuteConcat(ExecuteDecision(s, p[0]), p[1..], q);
    }
  }

  lemma {:induction false} ReturnedAgree(s: State, ids: set<IssueId>, returned: set<IssueId>, refreshed: seq<Issue>)
    requires s.running.m.Keys <= ids
    requires DistinctIds(refreshed) && forall i :: i in refreshed ==> i.id !in returned
    ensures Execute(s, PlanReturned(ids, returned, refreshed, s.config)) == ApplyAll(s, refreshed)
    decreases |refreshed|
  {
    if refreshed != [] {
      var issue := refreshed[0];
      var rest := PlanReturned(ids, returned + {issue.id}, refreshed[1..], s.config);
      var s' := ApplyRefreshed(s, issue);
      TerminateFrame(s, issue.id, true, false);
      TerminateFrame(s, issue.id, false, false);
      forall i | i in refreshed[1..] ensures i.id != issue.id {
        var k :| 0 <= k < |refreshed[1..]| && refreshed[1..][k] == i;
        assert refreshed[0].id != refreshed[k + 1].id;
      }
      if issue.id in ids {
        var d := ReconcileDecision(issue.id, Classify(issue, s.config), Some(issue));
        assert ExecuteDecision(s, d) == s';
        assert ([d] + rest)[1..] == rest;
        ReturnedAgree(s', ids, returned + {issue.id}, refreshed[1..]);
      } else {
        ReturnedAgree(s, ids, returned, refreshed[1..]);
      }
    }
  }

  lemma {:induction false} MissingAgree(s: State, keys: seq<IssueId>, returned: set<IssueId>)
    ensures Execute(s, PlanMissing(keys, returned)) == TerminateMissing(s, keys, returned)
    decreases |keys|
  {
    if keys != [] {
      var rest := PlanMissing(keys[1..], returned);
      if keys[0] in returned {
        assert PlanMissing(keys, returned) == rest;
        MissingAgree(s, keys[1..], returned);
      } else {
        assert PlanMissing(keys, returned)[1..] == rest;
        MissingAgree(TerminateRunningIssue(s, keys[0], false, false), keys[1..], returned);
      }
    }
  }

  // ---- Answers that repeat an id ----

  function FirstOf(refreshed: seq<Issue>, id: IssueId): Option<Issue>
  {
    if refreshed == [] then None
    else if refreshed[0].id == id then Some(refreshed[0])
    else FirstOf(refreshed[1..], id)
  }

  function LastOf(refreshed: seq<Issue>, id: IssueId): Option<Issue>
  {
    if refreshed == [] then None
    else
      var later := LastOf(refreshed[1..], id);
      if later.Some? || refreshed[0].id != id then later else Some(refreshed[0])
  }

  /** Every mention of the id leaves its run alive. */
  predicate AllUpdate(refreshed: seq<Issue>, id: IssueId, cfg: Config)
  {
    forall i :: 0 <= i < |refreshed| && refreshed[i].id == id ==> Classify(refreshed[i], cfg) == UpdateSnapshot
  }

  /** The first mention ends the run, or every mention keeps it and the last one equals the first. */
  predicate RepeatsHarmless(refreshed: seq<Issue>, id: IssueId, cfg: Config)
  {
    var first := FirstOf(refreshed, id);
    || first.None?
    || Classify(first.value, cfg) != UpdateSnapshot
    || (AllUpdate(refreshed, id, cfg) && LastOf(refreshed, id) == first)
  }

  /** The first mention of each id that is not in `returned`. */
  function FirstOnly(returned: set<IssueId>, refreshed: seq<Issue>): seq<Issue>
    decreases |refreshed|
  {
    if refreshed == [] then []
    else if refreshed[0].id in returned then FirstOnly(returned, refreshed[1..])
    else [refreshed[0]] + FirstOnly(returned + {refreshed[0].id}, refreshed[1..])
  }

  lemma {:induction false} FirstOnlyIsDistinct(returned: set<IssueId>, refreshed: seq<Issue>)
    ensures DistinctIds(FirstOnly(returned, refreshed))
    ensures forall i :: i in FirstOnly(returned, refreshed) ==> i.id !in returned
    ensures IdsOf(FirstOnly(returned, refreshed)) == IdsOf(refreshed) - returned
    decreases |refreshed|
  {
    if refreshed != [] {
      var id := refreshed[0].id;
      assert refreshed == [refreshed[0]] + refreshed[1..];
      assert IdsOf(refreshed) == {id} + IdsOf(refreshed[1..]);
      FirstOnlyIsDistinct(if id in returned then returned else returned + {id}, refreshed[1..]);
      if id !in returned {
        var rest := FirstOnly(returned + {id}, refreshed[1..]);
        assert IdsOf([refreshed[0]] + rest) == {id} + IdsOf(rest);
      }
    }
  }

  lemma {:induction false} FirstOnlyKeepsFirst(returned: set<IssueId>, refreshed: seq<Issue>, id: IssueId)
    ensures FirstOf(FirstOnly(returned, refreshed), id) == if id in returned then None else FirstOf(refreshed, id)
    ensures LastOf(FirstOnly(returned, refreshed), id) == FirstOf(FirstOnly(returned, refreshed), id)
    decreases |refreshed|
  {
    if refreshed != [] {
      var issue := refreshed[0];
      if issue.id in returned {
        FirstOnlyKeepsFirst(returned, refreshed[1..], id);
      } else {
        var rest := FirstOnly(returned + {issue.id}, refreshed[1..]);
        FirstOnlyKeepsFirst(returned + {issue.id}, refreshed[1..], id);
        assert ([issue] + rest)[1..] == rest;
      }
    }
  }

  lemma {:induction false} PlanUsesFirstMentions(
    ids: set<IssueId>, returned: set<IssueId>, skipped: set<IssueId>, refreshed: seq<Issue>, cfg: Config)
    requires forall i :: i in skipped ==> i in returned || i !in ids
    requires returned <= skipped
    ensures PlanReturned(ids, returned, refreshed, cfg)
         == PlanReturned(ids, returned, FirstOnly(skipped, refreshed), cfg)
    decreases |refreshed|
  {
    if refreshed != [] {
      var issue := refreshed[0];
      if issue.id in skipped {
        PlanUsesFirstMentions(ids, returned, skipped, refreshed[1..], cfg);
      } else {
        var rest := FirstOnly(skipped + {issue.id}, refreshed[1..]);
        assert ([issue] + rest)[1..] == rest;
        PlanUsesFirstMentions(ids, if issue.id in ids then returned + {issue.id} else returned,
                              skipped + {issue.id}, refreshed[1..], cfg);
      }
    }
  }

  /** What one refreshed issue does to one running issue. */
  lemma FateUnderOne(s: State, issue: Issue, id: IssueId)
    requires id in s.running.m
    ensures var s' := ApplyRefreshed(s, issue);
            && s'.config == s.config
            && (id in s'.running.m <==> (issue.id == id ==> Classify(issue, s.config) == UpdateSnapshot))
            && (id in s'.running.m ==>
                  s'.running.m[id].issue == if issue.id == id then issue else s.running.m[id].issue)
  {
    TerminateFrame(s, issue.id, true, false);
    TerminateFrame(s, issue.id, false, false);
  }

  lemma AllUpdateUnfolds(refreshed: seq<Issue>, id: IssueId, cfg: Config)
    requires refreshed != []
    ensures AllUpdate(refreshed, id, cfg)
       <==> && (refreshed[0].id == id ==> Classify(refreshed[0], cfg) == UpdateSnapshot)
            && AllUpdate(refreshed[1..], id, cfg)
  {
    assert refreshed == [refreshed[0]] + refreshed[1..];
  }

  /** What the loop over refreshed issues does to one running issue. */
  lemma {:induction false} FateUnderApplyAll(s: State, refreshed: seq<Issue>, id: IssueId)
    requires id in s.running.m
    ensures var e := ApplyAll(s, refreshed);
            e.config == s.config &&
            (id in e.running.m <==> AllUpdate(refreshed, id, s.config)) &&
            (id in e.running.m ==>
               e.running.m[id].issue == if LastOf(refreshed, id).Some? then LastOf(refreshed, id).value
                                        else s.running.m[id].issue)
    decreases |refreshed|
  {
    if refreshed != [] {
      var s' := ApplyRefreshed(s, refreshed[0]);
      FateUnderOne(s, refreshed[0], id);
      AllUpdateUnfolds(refreshed, id, s.config);
      if id in s'.running.m {
        FateUnderApplyAll(s', refreshed[1..], id);
      } else {
        NeverReturns(s', refreshed[1..], id);
      }
    }
  }

  lemma {:induction false} NeverReturns(s: State, refreshed: seq<Issue>, id: IssueId)
    requires id !in s.running.m
    ensures id !in ApplyAll(s, refreshed).running.m && ApplyAll(s, refreshed).config == s.config
    decreases |refreshed|
  {
    if refreshed != [] {
      TerminateFrame(s, refreshed[0].id, true, false);
      TerminateFrame(s, refreshed[0].id, false, false);
      NeverReturns(ApplyRefreshed(s, refreshed[0]), refreshed[1..], id);
    }
  }

  /** Equal, except that the snapshots of some issues may differ. */
  ghost predicate SameButSnapshots(s: State, s': State, ids: set<IssueId>)
  {
    && s' == s.(running := s'.running)
    && s'.running.keys == s.running.keys
    && s'.running.m.Keys == s.running.m.Keys
    && forall k :: k in s.running.m ==>
         s'.running.m[k] == (if k in ids then s.running.m[k].(issue := s'.running.m[k].issue) else s.running.m[k])
  }

  lemma {:induction false} OccurAllIgnoresRunning(s: State, running: RunningMap, events: seq<Event>)
    ensures OccurAll(s.(running := running), events) == OccurAll(s, events).(running := running)
    decreases |events|
  {
    if events != [] {
      var e := events[0];
      assert Occur(s.(running := running), e) == Occur(s, e).(running := running);
      OccurAllIgnoresRunning(Occur(s, e), running, events[1..]);
    }
  }

  lemma CleanupIgnoresRunning(s: State, running: RunningMap, identifier: string)
    ensures CleanupWorkspace(s.(running := running), identifier) == CleanupWorkspace(s, identifier).(running := running)
  {
    if identifier != "" && s.future != [] {
      OccurAllIgnoresRunning(s.(cleanups := s.cleanups + [identifier], future := s.future[1..]), running, s.future[0]);
    }
  }

  lemma TerminateIgnoresSnapshots(s: State, s': State, ids: set<IssueId>, id: IssueId, cleanup: bool)
    requires SameButSnapshots(s, s', ids)
    ensures SameButSnapshots(TerminateRunningIssue(s, id, cleanup, false),
                             TerminateRunningIssue(s', id, cleanup, false), ids)
  {
    if id in s.running.m {
      var e := s.running.m[id];
      var stopped := CancelTask(EndRun(s, id), e.worker);
      var running' := s'.running.Remove(id);
      assert CancelTask(EndRun(s', id), e.worker) == stopped.(running := running');
      CleanupIgnoresRunning(stopped, running', e.identifier);
      var cleaned := if cleanup then CleanupWorkspace(stopped, e.identifier) else stopped;
      assert ReleaseClaim(cleaned.(running := running'), id) == ReleaseClaim(cleaned, id).(running := running');
      assert TerminateRunningIssue(s', id, cleanup, false)
          == TerminateRunningIssue(s, id, cleanup, false).(running := running');
      TerminateFrame(s, id, cleanup, false);
    }
  }

  /** Each running issue is only ever updated, or is ended by its first mention, still to come. */
  ghost predicate Skippable(s: State, returned: set<IssueId>, refreshed: seq<Issue>)
  {
    forall k :: k in s.running.m && !AllUpdate(refreshed, k, s.config) ==>
      k !in returned && FirstOf(refreshed, k).Some? && Classify(FirstOf(refreshed, k).value, s.config) != UpdateSnapshot
  }

  lemma SkippableStep(s: State, returned: set<IssueId>, refreshed: seq<Issue>)
    requires refreshed != [] && Skippable(s, returned, refreshed)
    ensures Skippable(ApplyRefreshed(s, refreshed[0]), returned + {refreshed[0].id}, refreshed[1..])
  {
    var issue := refreshed[0];
    var t := ApplyRefreshed(s, issue);
    assert refreshed == [issue] + refreshed[1..];
    TerminateFrame(s, issue.id, true, false);
    TerminateFrame(s, issue.id, false, false);
    forall k | k in t.running.m && !AllUpdate(refreshed[1..], k, t.config)
      ensures k !in returned + {issue.id} && FirstOf(refreshed[1..], k).Some?
      ensures Classify(FirstOf(refreshed[1..], k).value, t.config) != UpdateSnapshot {
      assert !AllUpdate(refreshed, k, s.config);
      assert k in s.running.m;
    }
  }

  lemma ApplyIgnoresSnapshots(s: State, s': State, returned: set<IssueId>, issue: Issue)
    requires SameButSnapshots(s, s', returned)
    ensures SameButSnapshots(ApplyRefreshed(s, issue), ApplyRefreshed(s', issue), returned + {issue.id})
  {
    if issue.id in s.running.m {
      match Classify(issue, s.config)
      case TerminateAndClean => TerminateIgnoresSnapshots(s, s', returned, issue.id, true);
      case TerminateNoCleanup => TerminateIgnoresSnapshots(s, s', returned, issue.id, false);
      case UpdateSnapshot =>
    }
  }

  /** A repeated mention that only updates can be skipped. */
  lemma SkippedMention(s: State, s': State, returned: set<IssueId>, refreshed: seq<Issue>)
    requires SameButSnapshots(s, s', returned) && Skippable(s, returned, refreshed)
    requires refreshed != [] && refreshed[0].id in returned
    ensures SameButSnapshots(ApplyRefreshed(s, refreshed[0]), s', returned)
  {
    var issue := refreshed[0];
    assert issue.id in s.running.m ==> Classify(issue, s.config) == UpdateSnapshot;
  }

  lemma ReturnedGrows(returned: set<IssueId>, refreshed: seq<Issue>)
    requires refreshed != []
    ensures returned + IdsOf(refreshed) == returned + {refreshed[0].id} + IdsOf(refreshed[1..])
  {
    assert refreshed == [refreshed[0]] + refreshed[1..];
  }

  lemma ApplyFirstThenRest(s: State, issue: Issue, rest: seq<Issue>)
    ensures ApplyAll(s, [issue] + rest) == ApplyAll(ApplyRefreshed(s, issue), rest)
  {
    assert ([issue] + rest)[1..] == rest;
  }

  lemma {:induction false} SkippingRepeats(s: State, s': State, returned: set<IssueId>, refreshed: seq<Issue>)
    requires SameButSnapshots(s, s', returned) && Skippable(s, returned, refreshed)
    ensures SameButSnapshots(ApplyAll(s, refreshed), ApplyAll(s', FirstOnly(returned, refreshed)),
                             returned + IdsOf(refreshed))
    decreases |refreshed|
  {
    if refreshed == [] {
      assert returned + IdsOf(refreshed) == returned;
    } else {
      var issue, rest := refreshed[0], refreshed[1..];
      SkippableStep(s, returned, refreshed);
      ReturnedGrows(returned, refreshed);
      if issue.id in returned {
        assert returned + {issue.id} == returned;
        SkippedMention(s, s', returned, refreshed);
        SkippingRepeats(ApplyRefreshed(s, issue), s', returned, rest);
      } else {
        ApplyIgnoresSnapshots(s, s', returned, issue);
        SkippingRepeats(ApplyRefreshed(s, issue), ApplyRefreshed(s', issue), returned + {issue.id}, rest);
        ApplyFirstThenRest(s', issue, FirstOnly(returned + {issue.id}, rest));
      }
    }
  }

  /** Executing the plan for an answer is applying the first mentions of its ids. */
  lemma PlanAppliesFirstMentions(s: State, refreshed: seq<Issue>)
    requires s.running.Valid()
    ensures var ids := set k | k in s.running.keys;
            Execute(s, PlanReturned(ids, {}, refreshed, s.config)) == ApplyAll(s, FirstOnly({}, refreshed))
  {
    var ids := set k | k in s.running.keys;
    FirstOnlyIsDistinct({}, refreshed);
    PlanUsesFirstMentions(ids, {}, {}, refreshed, s.config);
    ReturnedAgree(s, ids, {}, FirstOnly({}, refreshed));
  }

  lemma AllHarmlessIsSkippable(s: State, refreshed: seq<Issue>)
    requires forall k :: k in s.running.m ==> RepeatsHarmless(refreshed, k, s.config)
    ensures Skippable(s, {}, refreshed)
  {
    forall k | k in s.running.m && !AllUpdate(refreshed, k, s.config)
      ensures FirstOf(refreshed, k).Some? && Classify(FirstOf(refreshed, k).value, s.config) != UpdateSnapshot {
      FirstOfIsAMention(refreshed, k);
    }
  }

  lemma HarmlessRepeatsAgree(s: State, refreshed: seq<Issue>)
    requires forall k :: k in s.running.m ==> RepeatsHarmless(refreshed, k, s.config)
    ensures ApplyAll(s, FirstOnly({}, refreshed)) == ApplyAll(s, refreshed)
  {
    var e, e' := ApplyAll(s, refreshed), ApplyAll(s, FirstOnly({}, refreshed));
    AllHarmlessIsSkippable(s, refreshed);
    SkippingRepeats(s, s, {}, refreshed);
    forall k | k in e.running.m ensures k in e'.running.m && e'.running.m[k] == e.running.m[k] {
      if k !in s.running.m {
        NeverReturns(s, refreshed, k);
      } else {
        FatesCompared(s, refreshed, k);
      }
    }
    assert e'.running.m == e.running.m;
  }

  /** Both loops over the answer agree exactly when no running issue is repeated harmfully. */
  lemma RefreshesAgreeIff(s: State, refreshed: seq<Issue>)
    requires s.running.Valid()
    ensures var ids := set k | k in s.running.keys;
            Execute(s, PlanReturned(ids, {}, refreshed, s.config)) == ApplyAll(s, refreshed)
            <==> forall k :: k in s.running.m ==> RepeatsHarmless(refreshed, k, s.config)
    ensures var ids := set k | k in s.running.keys;
            forall k :: k in s.running.m && !RepeatsHarmless(refreshed, k, s.config) ==>
              DiffersAt(Execute(s, PlanReturned(ids, {}, refreshed, s.config)), ApplyAll(s, refreshed), k)
  {
    PlanAppliesFirstMentions(s, refreshed);
    forall k | k in s.running.m && !RepeatsHarmless(refreshed, k, s.config)
      ensures DiffersAt(ApplyAll(s, FirstOnly({}, refreshed)), ApplyAll(s, refreshed), k) {
      FatesCompared(s, refreshed, k);
    }
    if forall k :: k in s.running.m ==> RepeatsHarmless(refreshed, k, s.config) {
      HarmlessRepeatsAgree(s, refreshed);
    }
  }

  lemma FatesCompared(s: State, refreshed: seq<Issue>, k: IssueId)
    requires k in s.running.m
    ensures var e, e' := ApplyAll(s, refreshed), ApplyAll(s, FirstOnly({}, refreshed));
            && (!RepeatsHarmless(refreshed, k, s.config) ==> DiffersAt(e', e, k))
            && (RepeatsHarmless(refreshed, k, s.config) && k in e.running.m ==>
                  k in e'.running.m && e.running.m[k].issue == e'.running.m[k].issue)
  {
    var firsts := FirstOnly({}, refreshed);
    FirstOnlyIsDistinct({}, refreshed);
    FirstOnlyKeepsFirst({}, refreshed, k);
    FirstOfIsAMention(refreshed, k);
    FirstOfIsAMention(firsts, k);
    FateUnderApplyAll(s, refreshed, k);
    FateUnderApplyAll(s, firsts, k);
    OnlyMention(firsts, k, s.config);
  }

  ghost predicate DiffersAt(a: State, b: State, id: IssueId)
  {
    id in a.running.m && (id in b.running.m ==> a.running.m[id].issue != b.running.m[id].issue)
  }

  lemma {:induction false} FirstOfIsAMention(refreshed: seq<Issue>, id: IssueId)
    ensures FirstOf(refreshed, id).Some? ==>
              FirstOf(refreshed, id).value in refreshed && FirstOf(refreshed, id).value.id == id
    ensures FirstOf(refreshed, id).None? <==> LastOf(refreshed, id).None?
    ensures FirstOf(refreshed, id).None? <==> id !in IdsOf(refreshed)
  {
    if refreshed != [] {
      FirstOfIsAMention(refreshed[1..], id);
      assert refreshed == [refreshed[0]] + refreshed[1..];
    }
  }

  lemma OnlyMention(refreshed: seq<Issue>, id: IssueId, cfg: Config)
    requires DistinctIds(refreshed)
    ensures AllUpdate(refreshed, id, cfg)
       <==> FirstOf(refreshed, id).Some? ==> Classify(FirstOf(refreshed, id).value, cfg) == UpdateSnapshot
  {
    FirstOfIsAMention(refreshed, id);
    if FirstOf(refreshed, id).Some? {
      var k :| 0 <= k < |refreshed| && refreshed[k] == FirstOf(refreshed, id).value;
      assert forall i :: 0 <= i < |refreshed| && refreshed[i].id == id ==> i == k;
    }
  }

  lemma {:induction false} MissingSparesReturned(s: State, keys: seq<IssueId>, returned: set<IssueId>)
    ensures forall k :: k in returned ==>
              (k in TerminateMissing(s, keys, returned).running.m <==> k in s.running.m)
              && (k in s.running.m ==> TerminateMissing(s, keys, returned).running.m[k] == s.running.m[k])
    decreases |keys|
  {
    if keys != [] {
      TerminateFrame(s, keys[0], false, false);
      MissingSparesReturned(if keys[0] in returned then s else TerminateRunningIssue(s, keys[0], false, false),
                            keys[1..], returned);
    }
  }

  /** The state in which the tracker's answer arrives is the same for both reconcilers. */
  lemma StallPhasesAgree(s: State)
    requires s.running.Valid()
    ensures ExecuteStalls(s, PlanStallTerminations(s)) == BuiltInStalls(s)
    ensures BuiltInStalls(s).running.Valid() && BuiltInStalls(s).config == s.config
  {
    if s.config.stallTimeoutMs > 0 {
      StallsAgree(s, s, s.running.keys);
    }
    ExecuteStallsKeepsDict(s, PlanStallTerminations(s));
  }

  /**
    For every state and every answer, the two reconcilers reach the same state (running map and snapshots, claims,
    retries, banked time, cleanups, tasks, timers, and the same position in the future) exactly when each id the
    answer repeats is harmless for the runs that survive stall detection. Reasons and phases are not modelled.
   */
  lemma ReconcilersAgreeIff(s: State, refreshed: seq<Issue>)
    requires s.running.Valid()
    ensures ModuleReconcile(s, Some(refreshed)) == BuiltInReconcile(s, Some(refreshed))
       <==> forall k :: k in BuiltInStalls(s).running.m ==> RepeatsHarmless(refreshed, k, s.config)
  {
    StallPhasesAgree(s);
    var quiet := BuiltInStalls(s);
    var answered := Await(quiet);
    AwaitFrame(quiet);
    var keys := quiet.running.keys;
    if keys == [] {
      assert forall k :: k in quiet.running.m ==> k in keys;
    } else {
      var ids := set k | k in keys;
      var returned := IdsOf(refreshed);
      var e, e' := ApplyAll(answered, refreshed), Execute(answered, PlanReturned(ids, {}, refreshed, s.config));
      RefreshesAgreeIff(answered, refreshed);
      ExecuteConcat(answered, PlanReturned(ids, {}, refreshed, s.config), PlanMissing(keys, returned));
      MissingAgree(e', keys, returned);
      MissingSparesReturned(e, keys, returned);
      MissingSparesReturned(e', keys, returned);
      if k :| k in quiet.running.m && !RepeatsHarmless(refreshed, k, s.config) {
        FirstOfIsAMention(refreshed, k);
        assert DiffersAt(e', e, k) && k in returned;
        assert DiffersAt(TerminateMissing(e', keys, returned), TerminateMissing(e, keys, returned), k);
      }
    }
  }

  /** In particular the reconcilers agree on every answer without repeated ids, and on a failed call. */
  lemma ReconcilersAgree(s: State, refreshed: Option<seq<Issue>>)
    requires s.running.Valid()
    requires refreshed.Some? ==> DistinctIds(refreshed.value)
    ensures ModuleReconcile(s, refreshed) == BuiltInReconcile(s, refreshed)
  {
    StallPhasesAgree(s);
    if refreshed.Some? {
      forall k | k in BuiltInStalls(s).running.m ensures RepeatsHarmless(refreshed.value, k, s.config) {
        OnlyMention(refreshed.value, k, s.config);
        FirstOnlyKeepsFirst({}, refreshed.value, k);
        DistinctIsFirstOnly({}, refreshed.value);
      }
      ReconcilersAgreeIff(s, refreshed.value);
    }
  }

  lemma {:induction false} DistinctIsFirstOnly(returned: set<IssueId>, refreshed: seq<Issue>)
    requires DistinctIds(refreshed) && forall i :: i in refreshed ==> i.id !in returned
    ensures FirstOnly(returned, refreshed) == refreshed
    decreases |refreshed|
  {
    if refreshed != [] {
      forall i | i in refreshed[1..] ensures i.id != refreshed[0].id {
        var k :| 0 <= k < |refreshed[1..]| && refreshed[1..][k] == i;
        assert refreshed[0].id != refreshed[k + 1].id;
      }
      DistinctIsFirstOnly(returned + {refreshed[0].id}, refreshed[1..]);
    }
  }

  /** A repeated id on which they differ: the first mention keeps the run, the second ends it. */
  lemma RepeatedIdsCanDisagree(s: State, id: IssueId, alive: Issue, over: Issue)
    requires s.running.Valid() && s.config.stallTimeoutMs <= 0 && id in s.running.m
    requires alive.id == id && over.id == id
    requires Classify(alive, s.config) == UpdateSnapshot && Classify(over, s.config) != UpdateSnapshot
    ensures ModuleReconcile(s, Some([alive, over])) != BuiltInReconcile(s, Some([alive, over]))
  {
    ReconcilersAgreeIff(s, [alive, over]);
    assert [alive, over][1].id == id;
  }
}
