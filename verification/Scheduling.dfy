/** Eligibility, slot counting and dispatch order (src/symphony/orchestrator/scheduling.py). */
module Scheduling {
  import opened Numbers
  import opened Dicts
  import opened Models

  // ---- Slots and eligibility ----

  function InState(state: string): RunningEntry -> int
  {
    (e: RunningEntry) => if Normalize(e.issue.state) == Normalize(state) then 1 else 0
  }

  /** Counts by the state each running issue is tracked in now, not the one it was dispatched in. */
  function RunningCountForState(running: RunningMap, state: string): int
  {
    Sum(running, InState(state))
  }

  function AvailableSlots(running: RunningMap, cfg: Config): int
  {
    Max(cfg.maxConcurrentAgents - |running.keys|, 0)
  }

  predicate HasStateSlot(issue: Issue, running: RunningMap, cfg: Config)
  {
    RunningCountForState(running, issue.state) < cfg.SlotLimitForState(issue.state)
  }

  predicate IssueRoutable(issue: Issue, cfg: Config)
  {
    issue.dispatchable && HasLabels(issue, cfg.requiredLabels)
  }

  predicate IssueWellFormed(issue: Issue)
  {
    Strip(issue.id) != "" && Strip(issue.identifier) != "" && Strip(issue.title) != "" && Strip(issue.state) != ""
  }

  /** The part of eligibility that depends on the issue and the configuration alone. */
  predicate Eligible(issue: Issue, cfg: Config)
  {
    && IssueWellFormed(issue)
    && cfg.IsActive(issue.state) && !cfg.IsTerminal(issue.state)
    && IssueRoutable(issue, cfg)
  }

  predicate ShouldDispatch(issue: Issue, running: RunningMap, claimed: set<IssueId>, cfg: Config)
  {
    && Eligible(issue, cfg)
    && issue.id !in running.m && issue.id !in claimed
    && AvailableSlots(running, cfg) > 0
    && HasStateSlot(issue, running, cfg)
  }

  // ---- Dispatch order ----

  datatype Key = Key(priorityBucket: int, priority: int, createdBucket: int, created: int, identifier: string)

  function DispatchSortKey(issue: Issue): Key
  {
    var ranked := issue.priority.Some? && 1 <= issue.priority.value <= 4;
    Key(if ranked then 0 else 1,
        if ranked then issue.priority.value else 0,
        if issue.createdAt.Some? then 0 else 1,
        if issue.createdAt.Some? then issue.createdAt.value else 0,
        issue.identifier)
  }

  predicate StringLe(a: string, b: string)
  {
    a == "" || (b != "" && (a[0] < b[0] || (a[0] == b[0] && StringLe(a[1..], b[1..]))))
  }

  /** Tuple comparison. */
  predicate KeyLe(a: Key, b: Key)
  {
    if a.priorityBucket != b.priorityBucket then a.priorityBucket < b.priorityBucket
    else if a.priority != b.priority then a.priority < b.priority
    else if a.createdBucket != b.createdBucket then a.createdBucket < b.createdBucket
    else if a.created != b.created then a.created < b.created
    else StringLe(a.identifier, b.identifier)
  }

  predicate Before(a: Issue, b: Issue) { KeyLe(DispatchSortKey(a), DispatchSortKey(b)) }

  function Insert(issue: Issue, sorted: seq<Issue>): seq<Issue>
  {
    if sorted == [] || Before(issue, sorted[0]) then [issue] + sorted
    else [sorted[0]] + Insert(issue, sorted[1..])
  }

  /** Python's `sorted` by `dispatch_sort_key`; `SortIsTheStableOrdering` says why any stable sort is this one. */
  function SortForDispatch(issues: seq<Issue>): seq<Issue>
  {
    if issues == [] then [] else Insert(issues[0], SortForDispatch(issues[1..]))
  }

  predicate Ordered(issues: seq<Issue>)
  {
    forall i, j :: 0 <= i < j < |issues| ==> Before(issues[i], issues[j])
  }

  /** The issues that carry one key, in the order they appear. */
  function WithKey(issues: seq<Issue>, k: Key): seq<Issue>
  {
    if issues == [] then []
    else (if DispatchSortKey(issues[0]) == k then [issues[0]] else []) + WithKey(issues[1..], k)
  }

  ghost predicate SameKeyRuns(a: seq<Issue>, b: seq<Issue>)
  {
    forall k :: WithKey(a, k) == WithKey(b, k)
  }

  lemma {:induction false} StringLeIsTotalOrder(a: string, b: string, c: string)
    ensures StringLe(a, a)
    ensures StringLe(a, b) || StringLe(b, a)
    ensures StringLe(a, b) && StringLe(b, a) ==> a == b
    ensures StringLe(a, b) && StringLe(b, c) ==> StringLe(a, c)
    decreases |a| + |b| + |c|
  {
    if a != "" {
      StringLeIsTotalOrder(a[1..], if b == "" then b else b[1..], if c == "" then c else c[1..]);
      assert a == [a[0]] + a[1..];
      if b != "" {
        assert b == [b[0]] + b[1..];
      }
    }
  }

  /** The five-part key orders issues totally, up to equal keys. */
  lemma KeyLeIsTotalOrder(a: Key, b: Key, c: Key)
    ensures KeyLe(a, a)
    ensures KeyLe(a, b) || KeyLe(b, a)
    ensures KeyLe(a, b) && KeyLe(b, a) ==> a == b
    ensures KeyLe(a, b) && KeyLe(b, c) ==> KeyLe(a, c)
  {
    StringLeIsTotalOrder(a.identifier, b.identifier, c.identifier);
  }

  lemma {:induction false} InsertAddsOne(issue: Issue, sorted: seq<Issue>)
    ensures multiset(Insert(issue, sorted)) == multiset(sorted) + multiset{issue}
  {
    if sorted != [] {
      assert sorted == [sorted[0]] + sorted[1..];
      InsertAddsOne(issue, sorted[1..]);
    }
  }

  lemma FirstIsOrdered(first: Issue, later: seq<Issue>)
    requires Ordered(later) && forall j :: 0 <= j < |later| ==> Before(first, later[j])
    ensures Ordered([first] + later)
  {
  }

  lemma {:induction false} InsertOrdered(issue: Issue, sorted: seq<Issue>)
    requires Ordered(sorted)
    ensures Ordered(Insert(issue, sorted))
  {
    if sorted != [] {
      if Before(issue, sorted[0]) {
        forall j | 0 <= j < |sorted| ensures Before(issue, sorted[j]) {
          KeyLeIsTotalOrder(DispatchSortKey(issue), DispatchSortKey(sorted[0]), DispatchSortKey(sorted[j]));
        }
        FirstIsOrdered(issue, sorted);
      } else {
        var rest := Insert(issue, sorted[1..]);
        InsertOrdered(issue, sorted[1..]);
        InsertAddsOne(issue, sorted[1..]);
        KeyLeIsTotalOrder(DispatchSortKey(issue), DispatchSortKey(sorted[0]), DispatchSortKey(issue));
        forall j | 0 <= j < |rest| ensures Before(sorted[0], rest[j]) {
          assert rest[j] in multiset(rest);
        }
        FirstIsOrdered(sorted[0], rest);
      }
    }
  }

  lemma {:induction false} InsertKeepsRuns(issue: Issue, sorted: seq<Issue>, k: Key)
    ensures WithKey(Insert(issue, sorted), k) == WithKey([issue] + sorted, k)
  {
    if sorted != [] && !Before(issue, sorted[0]) {
      InsertKeepsRuns(issue, sorted[1..], k);
      var rest := Insert(issue, sorted[1..]);
      KeyLeIsTotalOrder(DispatchSortKey(issue), DispatchSortKey(sorted[0]), DispatchSortKey(issue));
      assert ([sorted[0]] + rest)[1..] == rest;
      assert ([issue] + sorted)[1..] == sorted;
      assert ([issue] + sorted[1..])[1..] == sorted[1..];
    }
  }

  lemma {:induction false} SortIsStableOrdering(issues: seq<Issue>)
    ensures Ordered(SortForDispatch(issues))
    ensures SameKeyRuns(SortForDispatch(issues), issues)
    ensures multiset(SortForDispatch(issues)) == multiset(issues)
  {
    if issues != [] {
      var rest := SortForDispatch(issues[1..]);
      SortIsStableOrdering(issues[1..]);
      InsertOrdered(issues[0], rest);
      InsertAddsOne(issues[0], rest);
      assert issues == [issues[0]] + issues[1..];
      forall k ensures WithKey(SortForDispatch(issues), k) == WithKey(issues, k) {
        InsertKeepsRuns(issues[0], rest, k);
        assert ([issues[0]] + rest)[1..] == rest;
        assert WithKey(rest, k) == WithKey(issues[1..], k);
      }
    }
  }

  lemma {:induction false} WithKeyMembers(issues: seq<Issue>, k: Key)
    ensures forall x :: x in WithKey(issues, k) <==> x in issues && DispatchSortKey(x) == k
  {
    if issues != [] {
      WithKeyMembers(issues[1..], k);
    }
  }

  /** A stable ordering by the key is unique, so it does not matter which sorting algorithm produced it. */
  lemma {:induction false} StableOrderingIsUnique(a: seq<Issue>, b: seq<Issue>)
    requires Ordered(a) && Ordered(b) && SameKeyRuns(a, b)
    ensures a == b
  {
    if a == [] || b == [] {
      if a != b {
        var x := if a == [] then b[0] else a[0];
        WithKeyMembers(a, DispatchSortKey(x));
        WithKeyMembers(b, DispatchSortKey(x));
        assert false;
      }
    } else {
      var ka, kb := DispatchSortKey(a[0]), DispatchSortKey(b[0]);
      WithKeyMembers(a, kb);
      WithKeyMembers(b, kb);
      WithKeyMembers(a, ka);
      WithKeyMembers(b, ka);
      assert b[0] in WithKey(a, kb) && a[0] in WithKey(b, ka);
      KeyLeIsTotalOrder(ka, kb, ka);
      assert ka == kb;
      assert WithKey(a, ka)[0] == a[0] && WithKey(b, ka)[0] == b[0];
      forall k ensures WithKey(a[1..], k) == WithKey(b[1..], k) {
        assert WithKey(a, k) == WithKey(b, k);
        if k == ka {
          assert WithKey(a[1..], k) == WithKey(a, k)[1..];
          assert WithKey(b[1..], k) == WithKey(b, k)[1..];
        } else {
          assert WithKey(a[1..], k) == WithKey(a, k);
          assert WithKey(b[1..], k) == WithKey(b, k);
        }
      }
      StableOrderingIsUnique(a[1..], b[1..]);
    }
  }

  /** `sorted` is exactly the stable ordering: ordered by the key, equal keys in input order, nothing else. */
  lemma SortIsTheStableOrdering(issues: seq<Issue>, result: seq<Issue>)
    ensures Ordered(result) && SameKeyRuns(result, issues) <==> result == SortForDispatch(issues)
  {
    SortIsStableOrdering(issues);
    if Ordered(result) && SameKeyRuns(result, issues) {
      forall k ensures WithKey(result, k) == WithKey(SortForDispatch(issues), k) {
        assert WithKey(result, k) == WithKey(issues, k);
      }
      StableOrderingIsUnique(result, SortForDispatch(issues));
    }
  }

  // ---- What the key and the counts mean ----

  predicate Ranked(issue: Issue) { issue.priority.Some? && 1 <= issue.priority.value <= 4 }

  predicate SameRank(a: Issue, b: Issue)
  {
    (!Ranked(a) && !Ranked(b)) || (Ranked(a) && Ranked(b) && a.priority == b.priority)
  }

  predicate Strictly(a: Issue, b: Issue) { Before(a, b) && !Before(b, a) }

  /**
    Priorities 1 to 4 come first, lower numbers before higher; then the older issue, one without a date last; then the
    identifier in character order.
   */
  lemma OrderIsDocumented(a: Issue, b: Issue)
    ensures Ranked(a) && (!Ranked(b) || a.priority.value < b.priority.value) ==> Strictly(a, b)
    ensures SameRank(a, b) && a.createdAt.Some? && (b.createdAt.None? || a.createdAt.value < b.createdAt.value)
            ==> Strictly(a, b)
    ensures SameRank(a, b) && a.createdAt == b.createdAt ==> (Before(a, b) <==> StringLe(a.identifier, b.identifier))
  {
  }

  function InStateIds(running: RunningMap, state: string): set<IssueId>
  {
    set id | id in running.m && Normalize(running.m[id].issue.state) == Normalize(state)
  }

  function Among(keys: seq<IssueId>, m: map<IssueId, RunningEntry>, state: string): set<IssueId>
  {
    set id | id in keys && id in m && Normalize(m[id].issue.state) == Normalize(state)
  }

  lemma AmongOneMore(key: IssueId, later: seq<IssueId>, m: map<IssueId, RunningEntry>, state: string)
    requires key in m && key !in later
    ensures |Among([key] + later, m, state)|
         == |Among(later, m, state)| + if Normalize(m[key].issue.state) == Normalize(state) then 1 else 0
  {
    var one := if Normalize(m[key].issue.state) == Normalize(state) then {key} else {};
    assert Among([key] + later, m, state) == Among(later, m, state) + one;
  }

  lemma {:induction false} CountKeys(keys: seq<IssueId>, m: map<IssueId, RunningEntry>, state: string)
    requires Distinct(keys) && forall k :: k in keys ==> k in m
    ensures SumKeys(keys, m, InState(state)) == |Among(keys, m, state)|
  {
    if keys != [] {
      CountKeys(keys[1..], m, state);
      AmongOneMore(keys[0], keys[1..], m, state);
      assert keys == [keys[0]] + keys[1..];
    }
  }

  /** The count is the number of runs whose issue is in the state now, whatever its case and outer blanks. */
  lemma RunningCountIsCardinality(running: RunningMap, state: string)
    requires running.Valid()
    ensures RunningCountForState(running, state) == |InStateIds(running, state)|
  {
    CountKeys(running.keys, running.m, state);
    assert InStateIds(running, state) == Among(running.keys, running.m, state);
  }

  // ---- Names ----

  predicate AllBlank(s: string) { forall i :: 0 <= i < |s| ==> IsBlank(s[i]) }

  lemma {:induction false} LeftBlanksGo(left: string, s: string)
    requires AllBlank(left)
    ensures StripLeft(left + s) == StripLeft(s)
  {
    if left == "" {
      assert left + s == s;
    } else {
      assert (left + s)[1..] == left[1..] + s;
      LeftBlanksGo(left[1..], s);
    }
  }

  lemma {:induction false} RightBlanksGo(s: string, right: string)
    requires AllBlank(right)
    ensures StripRight(s + right) == StripRight(s)
  {
    if right == "" {
      assert s + right == s;
    } else {
      assert (s + right)[..|s + right| - 1] == s + right[..|right| - 1];
      RightBlanksGo(s, right[..|right| - 1]);
    }
  }

  /** A name is compared without the blanks around it and without ASCII case. */
  lemma NamesCompareTrimmed(left: string, core: string, right: string)
    requires AllBlank(left) && AllBlank(right)
    requires core == "" || (!IsBlank(core[0]) && !IsBlank(core[|core| - 1]))
    ensures Strip(left + core + right) == core
    ensures |Normalize(left + core + right)| == |core|
    ensures forall i :: 0 <= i < |core| ==>
              Normalize(left + core + right)[i] == if 'A' <= core[i] <= 'Z' then core[i] + ' ' else core[i]
  {
    assert left + core + right == left + (core + right);
    LeftBlanksGo(left, core + right);
    if core == "" {
      assert core + right == right;
      LeftBlanksGo(right, "");
      assert right + "" == right;
    } else {
      RightBlanksGo(core, right);
    }
  }
}
