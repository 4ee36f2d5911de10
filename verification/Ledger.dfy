/**
  Conservation over whole runs: every worker's run is banked exactly once, token totals are the credits of all
  sessions ever live, aggregate runtime never decreases, and the running map stays within the global limit.
 */
module Ledger {
  import opened Numbers
  import opened Options
  import opened Dicts
  import opened Models
  import opened Scheduling
  import opened Machine
  import Tokens

  // ---- Sums over the history and the running map ----

  function SumEnded(ended: seq<Banked>, f: Banked -> int): int
  {
    if ended == [] then 0 else SumEnded(ended[..|ended| - 1], f) + f(ended[|ended| - 1])
  }

  function EndedMs(b: Banked): int { b.ms }
  function EndedInput(b: Banked): int { b.credited.input }
  function EndedOutput(b: Banked): int { b.credited.output }
  function EndedTotal(b: Banked): int { b.credited.total }

  function LiveInput(e: RunningEntry): int { e.session.credited.input }
  function LiveOutput(e: RunningEntry): int { e.session.credited.output }
  function LiveTotal(e: RunningEntry): int { e.session.credited.total }

  function ElapsedAt(now: int): RunningEntry -> int
  {
    (e: RunningEntry) => Elapsed(e, now)
  }

  /** The aggregate runtime a snapshot reports: banked time plus the live time of every running entry. */
  function LiveRuntimeMs(s: State): int
  {
    s.bankedMs + Sum(s.running, ElapsedAt(s.now))
  }

  ghost predicate Current(s: State, t: TaskId)
  {
    exists id :: id in s.running.m && s.running.m[id].worker == t
  }

  ghost predicate HasEnded(s: State, t: TaskId)
  {
    exists i :: 0 <= i < |s.ended| && s.ended[i].task == t
  }

  /** Every worker ever spawned is the handle of one running entry, or was banked once, and never both. */
  ghost predicate BankedOnce(s: State)
  {
    && s.running.Valid()
    && (forall id :: id in s.running.m ==> s.running.m[id].worker < |s.tasks|)
    && (forall id, id' :: id in s.running.m && id' in s.running.m && id != id' ==>
          s.running.m[id].worker != s.running.m[id'].worker)
    && (forall i, j :: 0 <= i < j < |s.ended| ==> s.ended[i].task != s.ended[j].task)
    && (forall i :: 0 <= i < |s.ended| ==> s.ended[i].task < |s.tasks| && !Current(s, s.ended[i].task))
    && (forall t :: 0 <= t < |s.tasks| ==> Current(s, t) || HasEnded(s, t))
  }

  /** One total is what ended runs brought in plus what live ones hold. */
  ghost predicate Balances(total: int, ended: seq<Banked>, running: RunningMap, banked: Banked -> int,
                           live: RunningEntry -> int)
  {
    total == SumEnded(ended, banked) + Sum(running, live)
  }

  ghost predicate TotalsBalance(s: State)
  {
    && s.bankedMs == SumEnded(s.ended, EndedMs)
    && Balances(s.totals.input, s.ended, s.running, EndedInput, LiveInput)
    && Balances(s.totals.output, s.ended, s.running, EndedOutput, LiveOutput)
    && Balances(s.totals.total, s.ended, s.running, EndedTotal, LiveTotal)
  }

  /** Each live session's credit covers its last report. */
  ghost predicate SessionsCovered(s: State)
  {
    forall id :: id in s.running.m ==>
      Tokens.AtLeast(s.running.m[id].session.credited, s.running.m[id].session.lastReported)
  }

  ghost predicate LedgerInv(s: State)
  {
    BankedOnce(s) && TotalsBalance(s) && SessionsCovered(s)
  }

  predicate Steady(e: Event) { e.ClockMoves? ==> e.ms >= 0 }

  predicate AllSteady(events: seq<Event>) { forall i :: 0 <= i < |events| ==> Steady(events[i]) }

  predicate SteadyFuture(s: State) { forall i :: 0 <= i < |s.future| ==> AllSteady(s.future[i]) }

  /** The two-state half: what one step, hence any sequence of steps under one configuration, guarantees. */
  ghost predicate Grows(s: State, s': State)
  {
    && LedgerInv(s')
    && s'.config == s.config
    && |s'.running.keys| <= Max(|s.running.keys|, s.config.maxConcurrentAgents)
    && (SteadyFuture(s) ==> SteadyFuture(s') && LiveRuntimeMs(s) <= LiveRuntimeMs(s'))
  }

  // ---- Atomic steps ----

  /** The books depend on these parts of the state alone. */
  lemma BooksUntouched(s: State, s': State)
    requires LedgerInv(s) && |s'.tasks| == |s.tasks|
    requires s'.running == s.running && s'.ended == s.ended && s'.bankedMs == s.bankedMs && s'.totals == s.totals
    ensures LedgerInv(s')
  {
    assert forall t :: Current(s, t) == Current(s', t) && HasEnded(s, t) == HasEnded(s', t);
  }

  /** A step that leaves the books alone. */
  lemma QuietStep(s: State, s': State)
    requires LedgerInv(s) && s'.config == s.config && s'.now == s.now && s'.future == s.future
    requires s'.running == s.running && s'.ended == s.ended && s'.bankedMs == s.bankedMs && s'.totals == s.totals
    requires |s'.tasks| == |s.tasks|
    ensures Grows(s, s') && LiveRuntimeMs(s') == LiveRuntimeMs(s)
  {
    BooksUntouched(s, s');
  }

  lemma ScheduleQuiet(s: State, id: IssueId, attempt: int, identifier: string, delayMs: Option<int>)
    requires LedgerInv(s)
    ensures Grows(s, ScheduleRetry(s, id, attempt, identifier, delayMs))
  {
    QuietStep(s, ScheduleRetry(s, id, attempt, identifier, delayMs));
  }

  lemma ReleaseQuiet(s: State, id: IssueId)
    requires LedgerInv(s)
    ensures Grows(s, ReleaseClaim(s, id))
  {
    QuietStep(s, ReleaseClaim(s, id));
  }

  lemma SumEndedAppend(ended: seq<Banked>, b: Banked, f: Banked -> int)
    ensures SumEnded(ended + [b], f) == SumEnded(ended, f) + f(b)
  {
    assert (ended + [b])[..|ended|] == ended;
  }

  lemma EndBalances(total: int, ended: seq<Banked>, running: RunningMap, id: IssueId, b: Banked, banked: Banked -> int,
                    live: RunningEntry -> int)
    requires running.Valid() && id in running.m && banked(b) == live(running.m[id])
    requires Balances(total, ended, running, banked, live)
    ensures Balances(total, ended + [b], running.Remove(id), banked, live)
  {
    SumRemove(running, id, live);
    SumEndedAppend(ended, b, banked);
  }

  lemma PutBalances(before: int, after: int, ended: seq<Banked>, running: RunningMap, id: IssueId, entry: RunningEntry,
                    banked: Banked -> int, live: RunningEntry -> int)
    requires running.Valid() && Balances(before, ended, running, banked, live)
    requires after - before == live(entry) - if id in running.m then live(running.m[id]) else 0
    ensures Balances(after, ended, running.Put(id, entry), banked, live)
  {
    SumPut(running, id, entry, live);
  }

  lemma EndRunBalances(s: State, id: IssueId)
    requires BankedOnce(s) && TotalsBalance(s) && id in s.running.m
    ensures TotalsBalance(EndRun(s, id)) && LiveRuntimeMs(EndRun(s, id)) == LiveRuntimeMs(s)
  {
    var e := s.running.m[id];
    var b := Banked(e.worker, Elapsed(e, s.now), e.session.credited);
    EndBalances(s.totals.input, s.ended, s.running, id, b, EndedInput, LiveInput);
    EndBalances(s.totals.output, s.ended, s.running, id, b, EndedOutput, LiveOutput);
    EndBalances(s.totals.total, s.ended, s.running, id, b, EndedTotal, LiveTotal);
    SumRemove(s.running, id, ElapsedAt(s.now));
    SumEndedAppend(s.ended, b, EndedMs);
  }

  /** Ending a run moves its time and its tokens from the live side to the banked side, exactly. */
  lemma EndRunConserves(s: State, id: IssueId)
    requires LedgerInv(s) && id in s.running.m
    ensures Grows(s, EndRun(s, id)) && LiveRuntimeMs(EndRun(s, id)) == LiveRuntimeMs(s)
  {
    EndRunBanksOnce(s, id);
    EndRunBalances(s, id);
    WithoutIsShorter(s.running.keys, id);
  }

  lemma {:induction false} WithoutIsShorter(keys: seq<IssueId>, k: IssueId)
    ensures |Without(keys, k)| <= |keys|
  {
    if keys != [] {
      WithoutIsShorter(keys[1..], k);
    }
  }

  lemma EndRunCovers(s: State, id: IssueId, t: TaskId)
    requires BankedOnce(s) && id in s.running.m && t < |s.tasks|
    ensures Current(EndRun(s, id), t) || HasEnded(EndRun(s, id), t)
  {
    var s' := EndRun(s, id);
    if Current(s, t) {
      var k :| k in s.running.m && s.running.m[k].worker == t;
      if k == id {
        assert s'.ended[|s.ended|].task == t;
      } else {
        assert k in s'.running.m && s'.running.m[k].worker == t;
      }
    } else {
      var i :| 0 <= i < |s.ended| && s.ended[i].task == t;
      assert s'.ended[i].task == t;
    }
  }

  lemma EndRunBanksOnce(s: State, id: IssueId)
    requires BankedOnce(s) && id in s.running.m
    ensures BankedOnce(EndRun(s, id))
  {
    var s' := EndRun(s, id);
    forall t | 0 <= t < |s'.tasks| ensures Current(s', t) || HasEnded(s', t) {
      EndRunCovers(s, id, t);
    }
    EndRunSeparates(s, id);
  }

  lemma EndRunSeparates(s: State, id: IssueId)
    requires BankedOnce(s) && id in s.running.m
    ensures var s' := EndRun(s, id);
            && (forall i, j :: 0 <= i < j < |s'.ended| ==> s'.ended[i].task != s'.ended[j].task)
            && (forall i :: 0 <= i < |s'.ended| ==> s'.ended[i].task < |s'.tasks| && !Current(s', s'.ended[i].task))
  {
    var s' := EndRun(s, id);
    assert Current(s, s.running.m[id].worker);
    assert forall t :: Current(s', t) ==> Current(s, t);
    forall k | k in s'.running.m ensures s'.running.m[k].worker != s.running.m[id].worker {
      assert k != id;
    }
  }

  lemma SpawnBanksOnce(s: State, s': State, id: IssueId, entry: RunningEntry)
    requires BankedOnce(s) && id !in s.running.m && entry.worker == |s.tasks|
    requires s'.running == s.running.Put(id, entry) && s'.ended == s.ended && |s'.tasks| == |s.tasks| + 1
    ensures BankedOnce(s')
  {
    assert s'.running.m[id].worker == |s.tasks|;
    forall t | 0 <= t < |s.tasks| ensures Current(s', t) == Current(s, t) {
      if Current(s, t) {
        var k :| k in s.running.m && s.running.m[k].worker == t;
        assert k in s'.running.m && s'.running.m[k].worker == t;
      }
    }
    assert forall t :: HasEnded(s, t) == HasEnded(s', t);
  }

  lemma SpawnBalances(s: State, s': State, id: IssueId, entry: RunningEntry)
    requires s.running.Valid() && TotalsBalance(s) && id !in s.running.m
    requires entry.session == Tokens.FRESH && entry.startedAt == s.now
    requires s'.running == s.running.Put(id, entry) && s'.ended == s.ended && s'.now == s.now
    requires s'.bankedMs == s.bankedMs && s'.totals == s.totals
    ensures TotalsBalance(s') && LiveRuntimeMs(s') == LiveRuntimeMs(s)
  {
    PutBalances(s.totals.input, s.totals.input, s.ended, s.running, id, entry, EndedInput, LiveInput);
    PutBalances(s.totals.output, s.totals.output, s.ended, s.running, id, entry, EndedOutput, LiveOutput);
    PutBalances(s.totals.total, s.totals.total, s.ended, s.running, id, entry, EndedTotal, LiveTotal);
    SumPut(s.running, id, entry, ElapsedAt(s.now));
  }

  /** A new run brings no time, no tokens, and a handle not seen before. */
  lemma SpawnConserves(s: State, issue: Issue, attempt: Option<int>)
    requires LedgerInv(s) && issue.id !in s.running.m
    ensures var s' := DispatchIssue(s, issue, attempt, true);
            LedgerInv(s') && LiveRuntimeMs(s') == LiveRuntimeMs(s)
  {
    var s' := DispatchIssue(s, issue, attempt, true);
    var entry := RunningEntry(issue, issue.identifier, s.now, |s.tasks|, Tokens.FRESH, None, NormalizeAttempt(attempt));
    assert s'.running == s.running.Put(issue.id, entry) && s'.ended == s.ended;
    SpawnBanksOnce(s, s', issue.id, entry);
    SpawnBalances(s, s', issue.id, entry);
  }

  lemma SpawnGrows(s: State, issue: Issue, attempt: Option<int>)
    requires LedgerInv(s) && issue.id !in s.running.m && AvailableSlots(s.running, s.config) > 0
    ensures Grows(s, DispatchIssue(s, issue, attempt, true))
  {
    SpawnConserves(s, issue, attempt);
  }

  lemma UpdateBanksOnce(s: State, s': State, id: IssueId, entry: RunningEntry)
    requires BankedOnce(s) && id in s.running.m && entry.worker == s.running.m[id].worker
    requires s'.running == s.running.Put(id, entry) && s'.ended == s.ended && |s'.tasks| == |s.tasks|
    ensures BankedOnce(s')
  {
    assert forall k :: k in s'.running.m <==> k in s.running.m;
    assert forall k :: k in s.running.m ==> s'.running.m[k].worker == s.running.m[k].worker;
    forall t ensures Current(s', t) == Current(s, t) {
      if Current(s, t) {
        var k :| k in s.running.m && s.running.m[k].worker == t;
        assert k in s'.running.m && s'.running.m[k].worker == t;
      }
    }
    assert forall t :: HasEnded(s, t) == HasEnded(s', t);
  }

  /** Replacing an entry by one with the same worker and start. */
  lemma UpdateConserves(s: State, id: IssueId, entry: RunningEntry, totals: Tokens.Counts)
    requires LedgerInv(s) && id in s.running.m
    requires entry.worker == s.running.m[id].worker && entry.startedAt == s.running.m[id].startedAt
    requires Tokens.AtLeast(entry.session.credited, entry.session.lastReported)
    requires totals.input - s.totals.input == entry.session.credited.input - s.running.m[id].session.credited.input
    requires totals.output - s.totals.output == entry.session.credited.output - s.running.m[id].session.credited.output
    requires totals.total - s.totals.total == entry.session.credited.total - s.running.m[id].session.credited.total
    ensures var s' := s.(running := s.running.Put(id, entry), totals := totals);
            Grows(s, s') && LiveRuntimeMs(s') == LiveRuntimeMs(s)
  {
    var s' := s.(running := s.running.Put(id, entry), totals := totals);
    UpdateBanksOnce(s, s', id, entry);
    PutBalances(s.totals.input, totals.input, s.ended, s.running, id, entry, EndedInput, LiveInput);
    PutBalances(s.totals.output, totals.output, s.ended, s.running, id, entry, EndedOutput, LiveOutput);
    PutBalances(s.totals.total, totals.total, s.ended, s.running, id, entry, EndedTotal, LiveTotal);
    SumPut(s.running, id, entry, ElapsedAt(s.now));
  }

  // ---- The outside world ----

  lemma OccurGrows(s: State, e: Event)
    requires LedgerInv(s)
    ensures LedgerInv(Occur(s, e)) && Occur(s, e).config == s.config && Occur(s, e).running == s.running
    ensures Steady(e) ==> LiveRuntimeMs(s) <= LiveRuntimeMs(Occur(s, e))
  {
    var s' := Occur(s, e);
    BooksUntouched(s, s');
    if e.ClockMoves? && e.ms >= 0 {
      SumKeysMonotone(s.running.keys, s.running.m, ElapsedAt(s.now), ElapsedAt(s'.now));
    }
  }

  lemma {:induction false} OccurAllGrows(s: State, events: seq<Event>)
    requires LedgerInv(s)
    ensures var s' := OccurAll(s, events);
            LedgerInv(s') && s'.config == s.config && s'.running == s.running && s'.future == s.future
            && (AllSteady(events) ==> LiveRuntimeMs(s) <= LiveRuntimeMs(s'))
    decreases |events|
  {
    if events != [] {
      OccurGrows(s, events[0]);
      OccurAllGrows(Occur(s, events[0]), events[1..]);
    }
  }

  lemma AwaitGrows(s: State)
    requires LedgerInv(s)
    ensures Grows(s, Await(s)) && Await(s).running == s.running
  {
    if s.future != [] {
      var s' := s.(future := s.future[1..]);
      BooksUntouched(s, s');
      OccurAllGrows(s', s.future[0]);
    }
  }
}
